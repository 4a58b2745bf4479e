/**
 * Requests that write a row and then log it, in statements of their own and without a transaction:
 * read and accept, write, append the entry. Those of different requests interleave.
 */
module AuditRaces {
  import opened Counting
  import opened Keys
  import opened Audit

  /** An update: which rows it accepts when it reads them, and the new row from the row read and the row stored. */
  datatype Change<!V> = Change(action: string, accepts: V -> bool, apply: (V, V) -> V)

  /** What a request for this row does next: write its change, or log the write it made under the id as given. */
  datatype Task<!V> =
    | Writing(row: string, id: string, read: V, change: Change<V>)
    | Logging(row: string, entry: Entry<V>)
    | Finished
  {
    predicate About(x: string) {
      !Finished? && row == x
    }
  }

  datatype Machine<!V> = Machine(uuid: UuidReader, rows: map<string, V>, audit: seq<Entry<V>>, tasks: seq<Task<V>>)

  datatype Step<!V> =
    | CreateRow(id: string, value: V, action: string)
    | ReadRow(id: string, change: Change<V>)
    | WriteRow(t: nat)
    | AppendLog(t: nat)

  /** How many requests may be under way for one row, and whether they must name it by its stored spelling. */
  datatype Rules = Rules(limit: nat, asStored: bool)

  function Busy<V>(tasks: seq<Task<V>>, row: string): nat {
    if |tasks| == 0 then 0 else Busy(tasks[..|tasks| - 1], row) + One(tasks[|tasks| - 1].About(row))
  }

  predicate Finds<V>(m: Machine<V>, id: string) {
    m.uuid(id).Some? && m.uuid(id).value in m.rows
  }

  predicate MayStart<V>(rules: Rules, m: Machine<V>, id: string, row: string) {
    Busy(m.tasks, row) < rules.limit && (rules.asStored ==> id == row)
  }

  /** One statement of one request; one that is not enabled changes nothing. */
  function Next<V>(rules: Rules, m: Machine<V>, step: Step<V>): Machine<V> {
    match step
    case CreateRow(id, value, action) =>
      if m.uuid(id) != Some(id) || id in m.rows || !MayStart(rules, m, id, id) then m
      else m.(rows := m.rows[id := value], tasks := m.tasks + [Logging(id, Entry(action, id, None, value))])
    case ReadRow(id, change) =>
      if !Finds(m, id) then m else
        var row := m.uuid(id).value;
        if !change.accepts(m.rows[row]) || !MayStart(rules, m, id, row) then m
        else m.(tasks := m.tasks + [Writing(row, id, m.rows[row], change)])
    case WriteRow(t) =>
      if t >= |m.tasks| || !m.tasks[t].Writing? || m.tasks[t].row !in m.rows then m
      else Written(m, t)
    case AppendLog(t) =>
      if t >= |m.tasks| || !m.tasks[t].Logging? then m
      else m.(tasks := m.tasks[t := Finished], audit := m.audit + [m.tasks[t].entry])
  }

  function Written<V>(m: Machine<V>, t: nat): Machine<V>
    requires t < |m.tasks| && m.tasks[t].Writing? && m.tasks[t].row in m.rows
  {
    var task := m.tasks[t];
    var updated := task.change.apply(task.read, m.rows[task.row]);
    m.(rows := m.rows[task.row := updated],
       tasks := m.tasks[t := Logging(task.row, Entry(task.change.action, task.id, Some(task.read), updated))])
  }

  function Start<V>(uuid: UuidReader): Machine<V> {
    Machine(uuid, map[], [], [])
  }

  function Run<V>(rules: Rules, m: Machine<V>, steps: seq<Step<V>>): Machine<V>
    decreases |steps|
  {
    if |steps| == 0 then m else Next(rules, Run(rules, m, steps[..|steps| - 1]), steps[|steps| - 1])
  }

  predicate AtRest<V>(m: Machine<V>) {
    forall t :: 0 <= t < |m.tasks| ==> m.tasks[t].Finished?
  }

  /** Uninterrupted, the three statements write the row and log the write. */
  lemma Uninterrupted<V>(rules: Rules, m: Machine<V>, id: string, change: Change<V>)
    requires Finds(m, id) && change.accepts(m.rows[m.uuid(id).value]) && MayStart(rules, m, id, m.uuid(id).value)
    ensures var row := m.uuid(id).value;
      var before := m.rows[row];
      var after := change.apply(before, before);
      var m' := Next(rules, Next(rules, Next(rules, m, ReadRow(id, change)), WriteRow(|m.tasks|)),
          AppendLog(|m.tasks|));
      m'.rows == m.rows[row := after] && m'.audit == m.audit + [Entry(change.action, id, Some(before), after)]
  {
  }

  // ---- counting ----

  lemma {:induction false} BusyAfter<V>(tasks: seq<Task<V>>, t: nat, task: Task<V>, row: string)
    requires t < |tasks|
    ensures Busy(tasks[t := task], row) + One(tasks[t].About(row)) == Busy(tasks, row) + One(task.About(row))
  {
    var n := |tasks| - 1;
    if t == n {
      assert tasks[t := task][..n] == tasks[..n];
    } else {
      assert tasks[t := task][..n] == tasks[..n][t := task];
      BusyAfter(tasks[..n], t, task, row);
    }
  }

  lemma {:induction false} BusyAtLeast<V>(tasks: seq<Task<V>>, t: nat, row: string)
    requires t < |tasks| && tasks[t].About(row)
    ensures Busy(tasks, row) >= 1
  {
    if t < |tasks| - 1 {
      BusyAtLeast(tasks[..|tasks| - 1], t, row);
    }
  }

  lemma {:induction false} BusyTwice<V>(tasks: seq<Task<V>>, t: nat, u: nat, row: string)
    requires t < u < |tasks| && tasks[t].About(row) && tasks[u].About(row)
    ensures Busy(tasks, row) >= 2
  {
    var n := |tasks| - 1;
    if u < n {
      BusyTwice(tasks[..n], t, u, row);
    } else {
      BusyAtLeast(tasks[..n], t, row);
    }
  }

  lemma {:induction false} RestIsIdle<V>(tasks: seq<Task<V>>, row: string)
    requires forall t :: 0 <= t < |tasks| ==> tasks[t].Finished?
    ensures Busy(tasks, row) == 0
  {
    if |tasks| > 0 {
      RestIsIdle(tasks[..|tasks| - 1], row);
    }
  }

  lemma NoTaskAbout<V>(tasks: seq<Task<V>>, t: nat, row: string)
    requires t < |tasks| && Busy(tasks, row) == 0
    ensures !tasks[t].About(row)
  {
    if tasks[t].About(row) {
      BusyAtLeast(tasks, t, row);
    }
  }

  // ---- one request per row at a time, under its stored spelling ----

  const ORDERLY := Rules(1, true)

  /** The task logs under its row's id; if it is about this row, it will complete the row's log. */
  ghost predicate Completes<V>(m: Machine<V>, task: Task<V>, row: string) {
    match task
    case Writing(x, id, read, change) =>
      && id == x
      && (x == row ==> row in m.rows && m.rows[row] == read && change.accepts(read))
      && (x == row ==> ExplainsRow(m.audit, m.rows, row))
    case Logging(x, entry) =>
      && entry.id == x
      && (x == row ==> ExplainsRow(m.audit + [entry], m.rows, row))
    case Finished => true
  }

  ghost predicate OneAtATime<V>(m: Machine<V>, row: string) {
    && Busy(m.tasks, row) <= 1
    && (Busy(m.tasks, row) == 0 ==> ExplainsRow(m.audit, m.rows, row))
    && forall t :: 0 <= t < |m.tasks| ==> Completes(m, m.tasks[t], row)
  }

  /** A step about another row leaves this one and its log alone. */
  lemma OthersDoNotMatter<V>(m: Machine<V>, m': Machine<V>, added: seq<Entry<V>>, task: Task<V>, row: string)
    requires row in m.rows <==> row in m'.rows
    requires row in m.rows ==> m.rows[row] == m'.rows[row]
    requires |added| <= 1 && m'.audit == m.audit + added && (|added| == 1 ==> added[0].id != row)
    ensures ExplainsRow(m'.audit, m'.rows, row) <==> ExplainsRow(m.audit, m.rows, row)
    ensures Completes(m', task, row) <==> Completes(m, task, row)
  {
    SameHistory(m.audit, added, row);
    if task.Logging? {
      HistoryExtends(m.audit, task.entry, row);
      HistoryExtends(m'.audit, task.entry, row);
    }
  }

  lemma SameHistory<V>(log: seq<Entry<V>>, added: seq<Entry<V>>, row: string)
    requires |added| <= 1 && (|added| == 1 ==> added[0].id != row)
    ensures History(log + added, row) == History(log, row)
  {
    if |added| == 1 {
      assert added == [added[0]];
      HistoryExtends(log, added[0], row);
      assert History(log, row) + [] == History(log, row);
    } else {
      assert log + added == log;
    }
  }

  /** With one request at a time, all other tasks are about other rows. */
  lemma SoleTask<V>(m: Machine<V>, t: nat, row: string)
    requires OneAtATime(m, row) && t < |m.tasks| && m.tasks[t].About(row)
    ensures forall u :: 0 <= u < |m.tasks| && u != t ==> !m.tasks[u].About(row)
  {
    forall u | 0 <= u < |m.tasks| && u != t
      ensures !m.tasks[u].About(row)
    {
      if m.tasks[u].About(row) {
        BusyTwice(m.tasks, if u < t then u else t, if u < t then t else u, row);
      }
    }
  }

  lemma CreateKeepsOrder<V>(m: Machine<V>, id: string, value: V, action: string, row: string)
    requires OneAtATime(m, row)
    ensures OneAtATime(Next(ORDERLY, m, CreateRow(id, value, action)), row)
  {
    var m' := Next(ORDERLY, m, CreateRow(id, value, action));
    if m'.tasks != m.tasks {
      var entry := Entry(action, id, None, value);
      assert m'.tasks == m.tasks + [Logging(id, entry)] && m'.tasks[..|m.tasks|] == m.tasks;
      if id == row {
        LoggedWriteExplainsRow(m.audit, m.rows, entry, row);
      } else {
        OthersDoNotMatter(m, m', [], Finished, row);
      }
      forall u | 0 <= u < |m.tasks|
        ensures Completes(m', m'.tasks[u], row)
      {
        assert Completes(m, m.tasks[u], row);
        if id == row {
          NoTaskAbout(m.tasks, u, row);
        } else {
          OthersDoNotMatter(m, m', [], m.tasks[u], row);
        }
      }
    }
  }

  lemma ReadKeepsOrder<V>(m: Machine<V>, id: string, change: Change<V>, row: string)
    requires OneAtATime(m, row)
    ensures OneAtATime(Next(ORDERLY, m, ReadRow(id, change)), row)
  {
    var m' := Next(ORDERLY, m, ReadRow(id, change));
    if |m'.tasks| > |m.tasks| {
      assert m'.tasks[..|m.tasks|] == m.tasks;
      forall u | 0 <= u < |m.tasks|
        ensures Completes(m', m'.tasks[u], row)
      {
        assert Completes(m, m.tasks[u], row);
      }
    }
  }

  lemma WriteKeepsOrder<V>(m: Machine<V>, t: nat, row: string)
    requires OneAtATime(m, row) && t < |m.tasks| && m.tasks[t].Writing? && m.tasks[t].row in m.rows
    ensures OneAtATime(Written(m, t), row)
  {
    var m', task := Written(m, t), m.tasks[t];
    BusyAfter(m.tasks, t, m'.tasks[t], row);
    assert Completes(m, task, row);
    if task.row == row {
      SoleTask(m, t, row);
      BusyAtLeast(m.tasks, t, row);
      LoggedWriteExplainsRow(m.audit, m.rows, m'.tasks[t].entry, row);
    } else {
      OthersDoNotMatter(m, m', [], task, row);
    }
    forall u | 0 <= u < |m.tasks|
      ensures Completes(m', m'.tasks[u], row)
    {
      assert Completes(m, m.tasks[u], row);
      if task.row != row {
        OthersDoNotMatter(m, m', [], m.tasks[u], row);
      }
    }
  }

  lemma LogKeepsOrder<V>(m: Machine<V>, t: nat, row: string)
    requires OneAtATime(m, row) && t < |m.tasks| && m.tasks[t].Logging?
    ensures OneAtATime(Next(ORDERLY, m, AppendLog(t)), row)
  {
    var m', entry := Next(ORDERLY, m, AppendLog(t)), m.tasks[t].entry;
    BusyAfter(m.tasks, t, Finished, row);
    assert Completes(m, m.tasks[t], row);
    if entry.id == row {
      SoleTask(m, t, row);
    } else {
      OthersDoNotMatter(m, m', [entry], Finished, row);
    }
    forall u | 0 <= u < |m.tasks|
      ensures Completes(m', m'.tasks[u], row)
    {
      assert Completes(m, m.tasks[u], row);
      if entry.id != row {
        OthersDoNotMatter(m, m', [entry], m.tasks[u], row);
      }
    }
  }

  lemma {:induction false} OneRequestKeepsOrder<V>(uuid: UuidReader, steps: seq<Step<V>>, row: string)
    ensures OneAtATime(Run(ORDERLY, Start(uuid), steps), row)
    decreases |steps|
  {
    if |steps| > 0 {
      OneRequestKeepsOrder(uuid, steps[..|steps| - 1], row);
      var m := Run(ORDERLY, Start(uuid), steps[..|steps| - 1]);
      match steps[|steps| - 1]
      case CreateRow(id, value, action) => CreateKeepsOrder(m, id, value, action, row);
      case ReadRow(id, change) => ReadKeepsOrder(m, id, change, row);
      case WriteRow(t) =>
        if t < |m.tasks| && m.tasks[t].Writing? && m.tasks[t].row in m.rows {
          WriteKeepsOrder(m, t, row);
        }
      case AppendLog(t) =>
        if t < |m.tasks| && m.tasks[t].Logging? {
          LogKeepsOrder(m, t, row);
        }
    }
  }

  /** At rest the log explains the table. */
  lemma OneRequestExplains<V(!new)>(uuid: UuidReader, steps: seq<Step<V>>)
    requires AtRest(Run(ORDERLY, Start<V>(uuid), steps))
    ensures var m := Run(ORDERLY, Start<V>(uuid), steps); Explains(m.audit, m.rows)
  {
    var m := Run(ORDERLY, Start<V>(uuid), steps);
    forall row
      ensures ExplainsRow(m.audit, m.rows, row)
    {
      OneRequestKeepsOrder(uuid, steps, row);
      RestIsIdle(m.tasks, row);
    }
  }

  // ---- what is logged ----

  /** The step only makes entries that are good, if its change meets the row that it read. */
  ghost predicate MakesGood<V(!new)>(good: Entry<V> -> bool, step: Step<V>) {
    match step
    case CreateRow(id, value, action) => good(Entry(action, id, None, value))
    case ReadRow(id, change) =>
      forall v: V :: change.accepts(v) ==> good(Entry(change.action, id, Some(v), change.apply(v, v)))
    case _ => true
  }

  /** The entry that the task makes, or will make from the row it read, is good. */
  ghost predicate GoodTask<V>(good: Entry<V> -> bool, task: Task<V>) {
    match task
    case Writing(_, id, read, change) => good(Entry(change.action, id, Some(read), change.apply(read, read)))
    case Logging(_, entry) => good(entry)
    case Finished => true
  }

  ghost predicate AllGood<V>(good: Entry<V> -> bool, m: Machine<V>) {
    && (forall t :: 0 <= t < |m.tasks| ==> GoodTask(good, m.tasks[t]))
    && (forall k :: 0 <= k < |m.audit| ==> good(m.audit[k]))
  }

  lemma StepKeepsGood<V(!new)>(good: Entry<V> -> bool, m: Machine<V>, step: Step<V>)
    requires AllGood(good, m) && MakesGood(good, step)
    requires forall t :: 0 <= t < |m.tasks| && m.tasks[t].Writing? ==> Completes(m, m.tasks[t], m.tasks[t].row)
    ensures AllGood(good, Next(ORDERLY, m, step))
  {
    var m' := Next(ORDERLY, m, step);
    forall t | 0 <= t < |m'.tasks|
      ensures GoodTask(good, m'.tasks[t])
    {
      assert t < |m.tasks| ==> GoodTask(good, m.tasks[t]);
    }
    forall k | 0 <= k < |m'.audit|
      ensures good(m'.audit[k])
    {
      assert step.AppendLog? && step.t < |m.tasks| ==> GoodTask(good, m.tasks[step.t]);
    }
  }

  lemma {:induction false} OneRequestLogsGood<V(!new)>(good: Entry<V> -> bool, uuid: UuidReader, steps: seq<Step<V>>)
    requires forall k :: 0 <= k < |steps| ==> MakesGood(good, steps[k])
    ensures AllGood(good, Run(ORDERLY, Start<V>(uuid), steps))
    decreases |steps|
  {
    if |steps| > 0 {
      var front := steps[..|steps| - 1];
      OneRequestLogsGood(good, uuid, front);
      var m := Run(ORDERLY, Start<V>(uuid), front);
      forall t | 0 <= t < |m.tasks| && m.tasks[t].Writing?
        ensures Completes(m, m.tasks[t], m.tasks[t].row)
      {
        OneRequestKeepsOrder(uuid, front, m.tasks[t].row);
      }
      StepKeepsGood(good, m, steps[|steps| - 1]);
    }
  }

  lemma {:induction false} NoRequestDoesNothing<V>(rules: Rules, uuid: UuidReader, steps: seq<Step<V>>)
    requires rules.limit == 0
    ensures Run(rules, Start<V>(uuid), steps) == Start<V>(uuid)
    decreases |steps|
  {
    if |steps| > 0 {
      NoRequestDoesNothing(rules, uuid, steps[..|steps| - 1]);
    }
  }

  // ---- runs whose log does not explain the table ----

  lemma RunOneMore<V>(rules: Rules, m: Machine<V>, before: seq<Step<V>>, step: Step<V>)
    ensures Run(rules, m, before + [step]) == Next(rules, Run(rules, m, before), step)
  {
    assert (before + [step])[..|before|] == before;
  }

  lemma RunFourMore<V>(rules: Rules, m: Machine<V>, before: seq<Step<V>>, a: Step<V>, b: Step<V>, c: Step<V>,
      d: Step<V>)
    ensures Run(rules, m, before + [a] + [b] + [c] + [d])
         == Next(rules, Next(rules, Next(rules, Next(rules, Run(rules, m, before), a), b), c), d)
  {
    RunOneMore(rules, m, before, a);
    RunOneMore(rules, m, before + [a], b);
    RunOneMore(rules, m, before + [a] + [b], c);
    RunOneMore(rules, m, before + [a] + [b] + [c], d);
  }

  lemma BusyWithOne<V>(task: Task<V>, row: string)
    ensures Busy([Finished, task], row) == One(task.About(row)) && Busy<V>([Finished], row) == 0
  {
    var one: seq<Task<V>> := [Finished];
    var two := [Finished, task];
    assert one[..0] == [] && two[..1] == one;
    assert Busy(one, row) == Busy(one[..0], row) + One(false);
    assert Busy(two, row) == Busy(two[..1], row) + One(task.About(row));
  }

  function Created<V>(id: string, value: V, action: string): seq<Step<V>> {
    [] + [CreateRow(id, value, action)] + [AppendLog(0)]
  }

  lemma CreatedEnds<V>(rules: Rules, uuid: UuidReader, id: string, value: V, action: string)
    requires rules.limit >= 1 && uuid(id) == Some(id)
    ensures Run(rules, Start(uuid), Created(id, value, action))
         == Machine(uuid, map[id := value], [Entry(action, id, None, value)], [Finished])
  {
    RunOneMore(rules, Start(uuid), [], CreateRow(id, value, action));
    RunOneMore(rules, Start(uuid), [] + [CreateRow(id, value, action)], AppendLog(0));
  }

  /** The first request writes; the second reads that row, writes it back and logs; the first logs last. */
  function Swapped<V>(id: string, value: V, action: string, there: Change<V>, back: Change<V>): seq<Step<V>> {
    BothWritten(id, value, action, there, back) + [AppendLog(2)] + [AppendLog(1)]
  }

  function BothWritten<V>(id: string, value: V, action: string, there: Change<V>, back: Change<V>): seq<Step<V>> {
    Created(id, value, action) + [ReadRow(id, there)] + [WriteRow(1)] + [ReadRow(id, back)] + [WriteRow(2)]
  }

  /** `there` turns a row a into b, and `back` turns it back, each as read from the stored row. */
  ghost predicate ThereAndBack<V>(a: V, b: V, there: Change<V>, back: Change<V>) {
    a != b && there.accepts(a) && there.apply(a, a) == b && back.accepts(b) && back.apply(b, b) == a
  }

  lemma BothWrite<V>(rules: Rules, m: Machine<V>, id: string, a: V, b: V, there: Change<V>, back: Change<V>)
    requires rules.limit >= 2 && m.uuid(id) == Some(id) && ThereAndBack(a, b, there, back)
    requires m.rows == map[id := a] && m.tasks == [Finished]
    ensures var m' := Next(rules, Next(rules, Next(rules, Next(rules, m,
                        ReadRow(id, there)), WriteRow(1)), ReadRow(id, back)), WriteRow(2));
      && m'.rows == map[id := a] && m'.audit == m.audit && m'.uuid == m.uuid
      && m'.tasks == [Finished, Logging(id, Entry(there.action, id, Some(a), b)),
                      Logging(id, Entry(back.action, id, Some(b), a))]
  {
    BusyWithOne<V>(Finished, id);
    var m1 := Next(rules, m, ReadRow(id, there));
    assert m1 == m.(tasks := [Finished, Writing(id, id, a, there)]);
    var m2 := Next(rules, m1, WriteRow(1));
    assert m2.rows == map[id := b];
    assert m2.tasks == [Finished, Logging(id, Entry(there.action, id, Some(a), b))];
    BusyWithOne(m2.tasks[1], id);
    var m3 := Next(rules, m2, ReadRow(id, back));
    assert m3.tasks == m2.tasks + [Writing(id, id, b, back)];
  }

  lemma BothWrittenEnds<V>(rules: Rules, uuid: UuidReader, id: string, action: string,
                           a: V, b: V, there: Change<V>, back: Change<V>)
    requires rules.limit >= 2 && uuid(id) == Some(id) && ThereAndBack(a, b, there, back)
    ensures var m := Run(rules, Start(uuid), BothWritten(id, a, action, there, back));
      && m.rows == map[id := a] && m.audit == [Entry(action, id, None, a)] && m.uuid == uuid
      && m.tasks == [Finished, Logging(id, Entry(there.action, id, Some(a), b)),
                     Logging(id, Entry(back.action, id, Some(b), a))]
  {
    var created := Created(id, a, action);
    CreatedEnds(rules, uuid, id, a, action);
    BothWrite(rules, Run(rules, Start(uuid), created), id, a, b, there, back);
    RunFourMore(rules, Start(uuid), created, ReadRow(id, there), WriteRow(1), ReadRow(id, back), WriteRow(2));
  }

  lemma BothLog<V>(rules: Rules, m: Machine<V>, first: Task<V>, second: Task<V>)
    requires m.tasks == [Finished, first, second] && first.Logging? && second.Logging?
    ensures Next(rules, Next(rules, m, AppendLog(2)), AppendLog(1))
         == m.(tasks := [Finished, Finished, Finished], audit := m.audit + [second.entry] + [first.entry])
  {
  }

  /** Both requests read the stored row; at rest the log ends in b while the row is a. */
  lemma SwappedLogsDoNotExplain<V(!new)>(rules: Rules, uuid: UuidReader, id: string, action: string,
                                         a: V, b: V, there: Change<V>, back: Change<V>)
    requires rules.limit >= 2 && uuid(id) == Some(id) && ThereAndBack(a, b, there, back)
    ensures var m := Run(rules, Start(uuid), Swapped(id, a, action, there, back));
      AtRest(m) && !Explains(m.audit, m.rows)
  {
    var both := BothWritten(id, a, action, there, back);
    BothWrittenEnds(rules, uuid, id, action, a, b, there, back);
    var m := Run(rules, Start(uuid), both);
    RunOneMore(rules, Start(uuid), both, AppendLog(2));
    RunOneMore(rules, Start(uuid), both + [AppendLog(2)], AppendLog(1));
    BothLog(rules, m, m.tasks[1], m.tasks[2]);
    LastEntryDecides(m.audit + [m.tasks[2].entry], m.tasks[1].entry, m.rows);
  }

  lemma LastEntryDecides<V(!new)>(log: seq<Entry<V>>, last: Entry<V>, rows: map<string, V>)
    requires last.id !in rows || rows[last.id] != last.newValue
    ensures !Explains(log + [last], rows)
  {
    HistoryExtends(log, last, last.id);
    assert !ExplainsRow(log + [last], rows, last.id);
  }

  function Respelled<V>(id: string, value: V, action: string, other: string, change: Change<V>): seq<Step<V>> {
    Created(id, value, action) + [ReadRow(other, change)] + [WriteRow(1)] + [AppendLog(1)]
  }

  /** An update under another spelling, even alone, is logged under an id that names no row. */
  lemma RespelledLogDoesNotExplain<V(!new)>(rules: Rules, uuid: UuidReader, id: string, action: string, value: V,
                                            other: string, change: Change<V>)
    requires rules.limit >= 1 && !rules.asStored && uuid(id) == Some(id) && uuid(other) == Some(id) && other != id
    requires change.accepts(value)
    ensures var m := Run(rules, Start(uuid), Respelled(id, value, action, other, change));
      AtRest(m) && !Explains(m.audit, m.rows)
  {
    var created := Created(id, value, action);
    CreatedEnds(rules, uuid, id, value, action);
    var m := Run(rules, Start(uuid), created);
    BusyWithOne<V>(Finished, id);
    RunOneMore(rules, Start(uuid), created, ReadRow(other, change));
    RunOneMore(rules, Start(uuid), created + [ReadRow(other, change)], WriteRow(1));
    RunOneMore(rules, Start(uuid), created + [ReadRow(other, change)] + [WriteRow(1)], AppendLog(1));
    Uninterrupted(rules, m, other, change);
    var m' := Run(rules, Start(uuid), Respelled(id, value, action, other, change));
    LastEntryDecides(m.audit, Entry(change.action, other, Some(value), change.apply(value, value)), m'.rows);
  }

  /** A reader under which one stored id has a second spelling. */
  function TwoSpellings(id: string): Option<string> {
    if id == "x" || id == "X" then Some("x") else None
  }
}
