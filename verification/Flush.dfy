/**
 * The analytics buffer as a concurrent state machine: adders, a ticker and any number of flushers
 * interleave at the granularity of the mutex sections, the channel operations and the insert.
 */
module Flush {
  import opened Models

  // ---- defaulting ----

  /** Go's int32 addition. */
  function Wrap32(x: int): int {
    (x + 0x8000_0000) % 0x1_0000_0000 - 0x8000_0000
  }

  function Default(e: UsageEvent): UsageEvent {
    var sum := Wrap32(e.inputTokens as int + e.outputTokens as int);
    var total := if e.totalTokens == 0.0 then sum as real else e.totalTokens;
    e.(totalTokens := total, sourceMode := if e.sourceMode == "" then SOURCE_MODE_DIRECT_INGEST else e.sourceMode)
  }

  /** Go's int32 arithmetic: the result is the 32-bit value congruent to the sum. */
  lemma Wrap32Wraps(x: int)
    ensures -0x8000_0000 <= Wrap32(x) < 0x8000_0000 && (Wrap32(x) - x) % 0x1_0000_0000 == 0
  {
    var y := x + 0x8000_0000;
    assert y - y % 0x1_0000_0000 == y / 0x1_0000_0000 * 0x1_0000_0000;
    assert Wrap32(x) - x == -(y / 0x1_0000_0000) * 0x1_0000_0000;
  }

  /**
   * What was reported is kept: a nonzero total, a nonempty source mode and every other field. Only a
   * missing total becomes the 32-bit sum of the counts, and only a missing mode "direct_ingest".
   */
  lemma DefaultKeepsWhatIsSet(e: UsageEvent)
    ensures e.totalTokens != 0.0 ==> Default(e).totalTokens == e.totalTokens
    ensures e.totalTokens == 0.0 ==>
      Default(e).totalTokens == Wrap32(e.inputTokens as int + e.outputTokens as int) as real
    ensures e.sourceMode != "" ==> Default(e).sourceMode == e.sourceMode
    ensures e.sourceMode == "" ==> Default(e).sourceMode == "direct_ingest"
    ensures Default(e).(totalTokens := e.totalTokens, sourceMode := e.sourceMode) == e
    ensures e.totalTokens != 0.0 && e.sourceMode != "" ==> Default(e) == e
  {
  }

  /** Defaulting what was defaulted before changes nothing. */
  lemma DefaultIsIdempotent(e: UsageEvent)
    ensures Default(Default(e)) == Default(e)
  {
  }

  /** For nonnegative counts the defaulted total is the sum exactly up to 2^31 - 1, and negative beyond. */
  lemma DefaultedTotal(e: UsageEvent)
    requires e.totalTokens == 0.0 && e.inputTokens >= 0 && e.outputTokens >= 0
    ensures var sum := e.inputTokens as int + e.outputTokens as int;
      && (Default(e).totalTokens == sum as real <==> sum <= 0x7fff_ffff)
      && (sum > 0x7fff_ffff ==> Default(e).totalTokens == (sum - 0x1_0000_0000) as real < 0.0)
  {
    var sum := e.inputTokens as int + e.outputTokens as int;
    if sum <= 0x7fff_ffff {
      assert (sum + 0x8000_0000) % 0x1_0000_0000 == sum + 0x8000_0000;
    } else {
      assert (sum + 0x8000_0000) % 0x1_0000_0000 == sum + 0x8000_0000 - 0x1_0000_0000;
    }
  }

  // ---- the machine ----

  /** A call of `Flush`: about to swap, inserting, about to requeue after a failure, or returned. */
  datatype Flusher<T> = Started | Inserting(batch: seq<T>) | Failed(batch: seq<T>) | Returned {
    function InFlight(): seq<T> {
      match this
      case Inserting(batch) => batch
      case Failed(batch) => batch
      case _ => []
    }
  }

  /** One call of `InsertEventBatch`, and whether it succeeded. */
  datatype Attempt<T> = Attempt(batch: seq<T>, ok: bool)

  /**
   * `buffer` holds the pointers in `currentBatch`, `token` is the wake-up in `flushCh`, and
   * `senders` are the goroutines that decided to send one and have not yet done so. `requeued`
   * says that a failed batch came back since the last swap. `added`, `inserted` and `attempts` are
   * the histories of what went in, what was written, and every insert.
   */
  datatype State<T> = State(
    buffer: seq<T>,
    token: bool,
    senders: nat,
    flushers: seq<Flusher<T>>,
    requeued: bool,
    insertedRows: nat,
    added: seq<T>,
    inserted: seq<T>,
    attempts: seq<Attempt<T>>)

  datatype Step<T> =
    | Add(events: seq<T>)
    | Tick
    | Send
    | Take
    | Call
    | Swap(f: nat)
    | Insert(f: nat, ok: bool)
    | Requeue(f: nat)

  /** One step of one party; a step that is not enabled changes nothing. */
  function Next<T>(batchSize: nat, s: State<T>, step: Step<T>): State<T> {
    match step
    case Add(events) =>
      if |events| == 0 then s else
        var buffer := s.buffer + events;
        s.(buffer := buffer, added := s.added + events,
           senders := if |buffer| >= batchSize then s.senders + 1 else s.senders)
    case Tick => if |s.buffer| == 0 then s else s.(senders := s.senders + 1)
    case Send => if s.senders == 0 then s else s.(senders := s.senders - 1, token := true)
    case Take => if !s.token then s else s.(token := false, flushers := s.flushers + [Started])
    case Call => s.(flushers := s.flushers + [Started])
    case Swap(f) =>
      if f >= |s.flushers| || !s.flushers[f].Started? then s
      else if |s.buffer| == 0 then s.(flushers := s.flushers[f := Returned])
      else s.(flushers := s.flushers[f := Inserting(s.buffer)], buffer := [], requeued := false)
    case Insert(f, ok) =>
      if f >= |s.flushers| || !s.flushers[f].Inserting? then s else
        var batch := s.flushers[f].batch;
        var s' := s.(attempts := s.attempts + [Attempt(batch, ok)]);
        if ok then
          s'.(flushers := s.flushers[f := Returned], inserted := s.inserted + batch,
              insertedRows := s.insertedRows + |batch|)
        else s'.(flushers := s.flushers[f := Failed(batch)])
    case Requeue(f) =>
      if f >= |s.flushers| || !s.flushers[f].Failed? then s else
        s.(flushers := s.flushers[f := Returned], buffer := s.flushers[f].batch + s.buffer, requeued := true)
  }

  function Start<T>(): State<T> {
    State([], false, 0, [], false, 0, [], [], [])
  }

  function Run<T>(batchSize: nat, s: State<T>, steps: seq<Step<T>>): State<T>
    decreases |steps|
  {
    if |steps| == 0 then s else Next(batchSize, Run(batchSize, s, steps[..|steps| - 1]), steps[|steps| - 1])
  }

  // ---- conservation ----

  function Copies<T(==)>(q: seq<T>, x: T): nat {
    multiset(q)[x]
  }

  /** How many copies of x the flushers hold between them. */
  function CopiesInFlight<T(==)>(flushers: seq<Flusher<T>>, x: T): nat {
    if flushers == [] then 0 else
      CopiesInFlight(flushers[..|flushers| - 1], x) + Copies(flushers[|flushers| - 1].InFlight(), x)
  }

  lemma {:induction false} CopiesInFlightUpdate<T>(flushers: seq<Flusher<T>>, f: nat, y: Flusher<T>, x: T)
    requires f < |flushers|
    ensures CopiesInFlight(flushers[f := y], x) + Copies(flushers[f].InFlight(), x)
         == CopiesInFlight(flushers, x) + Copies(y.InFlight(), x)
  {
    var n := |flushers| - 1;
    var front, front' := flushers[..n], flushers[f := y][..n];
    if f == n {
      assert front' == front;
    } else {
      assert front' == front[f := y];
      CopiesInFlightUpdate(front, f, y, x);
    }
  }

  lemma CopiesOfConcatenation<T>(q: seq<T>, r: seq<T>, x: T)
    ensures Copies(q + r, x) == Copies(q, x) + Copies(r, x)
  {
  }

  /** Every copy of x that was added is written, in flight or buffered. */
  predicate Conserved<T(==)>(s: State<T>, x: T) {
    Copies(s.added, x) == Copies(s.inserted, x) + CopiesInFlight(s.flushers, x) + Copies(s.buffer, x)
  }

  lemma AddConserves<T>(batchSize: nat, s: State<T>, events: seq<T>, x: T)
    requires Conserved(s, x)
    ensures Conserved(Next(batchSize, s, Add(events)), x)
  {
    CopiesOfConcatenation(s.buffer, events, x);
    CopiesOfConcatenation(s.added, events, x);
  }

  lemma NewFlusherConserves<T>(batchSize: nat, s: State<T>, step: Step<T>, x: T)
    requires Conserved(s, x) && (step.Take? || step.Call?)
    ensures Conserved(Next(batchSize, s, step), x)
  {
    var more := s.flushers + [Started];
    assert more[..|s.flushers|] == s.flushers;
  }

  lemma SwapConserves<T>(batchSize: nat, s: State<T>, f: nat, x: T)
    requires Conserved(s, x)
    ensures Conserved(Next(batchSize, s, Swap(f)), x)
  {
    if f < |s.flushers| {
      CopiesInFlightUpdate(s.flushers, f, Inserting(s.buffer), x);
      CopiesInFlightUpdate(s.flushers, f, Returned, x);
    }
  }

  lemma InsertConserves<T>(batchSize: nat, s: State<T>, f: nat, ok: bool, x: T)
    requires Conserved(s, x)
    ensures Conserved(Next(batchSize, s, Insert(f, ok)), x)
  {
    if f < |s.flushers| && s.flushers[f].Inserting? {
      var batch := s.flushers[f].batch;
      CopiesInFlightUpdate(s.flushers, f, if ok then Returned else Failed(batch), x);
      CopiesOfConcatenation(s.inserted, batch, x);
    }
  }

  lemma RequeueConserves<T>(batchSize: nat, s: State<T>, f: nat, x: T)
    requires Conserved(s, x)
    ensures Conserved(Next(batchSize, s, Requeue(f)), x)
  {
    if f < |s.flushers| && s.flushers[f].Failed? {
      CopiesInFlightUpdate(s.flushers, f, Returned, x);
      CopiesOfConcatenation(s.flushers[f].batch, s.buffer, x);
    }
  }

  lemma StepConserves<T>(batchSize: nat, s: State<T>, step: Step<T>, x: T)
    requires Conserved(s, x)
    ensures Conserved(Next(batchSize, s, step), x)
  {
    match step
    case Add(events) => AddConserves(batchSize, s, events, x);
    case Tick =>
    case Send =>
    case Take => NewFlusherConserves(batchSize, s, step, x);
    case Call => NewFlusherConserves(batchSize, s, step, x);
    case Swap(f) => SwapConserves(batchSize, s, f, x);
    case Insert(f, ok) => InsertConserves(batchSize, s, f, ok, x);
    case Requeue(f) => RequeueConserves(batchSize, s, f, x);
  }

  /** In every interleaving, with any insert failures, no copy is lost or duplicated. */
  lemma {:induction false} RunConserves<T>(batchSize: nat, steps: seq<Step<T>>, x: T)
    ensures Conserved(Run(batchSize, Start(), steps), x)
    decreases |steps|
  {
    if steps != [] {
      var n := |steps| - 1;
      RunConserves(batchSize, steps[..n], x);
      StepConserves(batchSize, Run(batchSize, Start(), steps[..n]), steps[n], x);
    }
  }

  lemma StepCountsRows<T>(batchSize: nat, s: State<T>, step: Step<T>)
    requires s.insertedRows == |s.inserted|
    ensures var s' := Next(batchSize, s, step); s'.insertedRows == |s'.inserted|
  {
  }

  lemma {:induction false} RunCountsRows<T>(batchSize: nat, steps: seq<Step<T>>)
    ensures var s := Run(batchSize, Start(), steps); s.insertedRows == |s.inserted|
    decreases |steps|
  {
    if steps != [] {
      var n := |steps| - 1;
      RunCountsRows(batchSize, steps[..n]);
      StepCountsRows(batchSize, Run(batchSize, Start(), steps[..n]), steps[n]);
    }
  }

  /** Nothing is buffered and no flusher holds anything. */
  predicate Drained<T>(s: State<T>) {
    |s.buffer| == 0 && forall f :: 0 <= f < |s.flushers| ==> |s.flushers[f].InFlight()| == 0
  }

  lemma {:induction false} NothingInFlight<T>(flushers: seq<Flusher<T>>, x: T)
    requires forall f :: 0 <= f < |flushers| ==> flushers[f].InFlight() == []
    ensures CopiesInFlight(flushers, x) == 0
  {
    if flushers != [] {
      NothingInFlight(flushers[..|flushers| - 1], x);
    }
  }

  /** In a drained state everything that was added is written, exactly as often as it was added. */
  lemma DrainedMeansAllWritten<T(!new)>(batchSize: nat, steps: seq<Step<T>>)
    requires Drained(Run(batchSize, Start(), steps))
    ensures var s := Run(batchSize, Start(), steps);
      multiset(s.added) == multiset(s.inserted) && s.insertedRows == |s.added|
  {
    var s := Run(batchSize, Start(), steps);
    forall x: T
      ensures multiset(s.added)[x] == multiset(s.inserted)[x]
    {
      RunConserves(batchSize, steps, x);
      NothingInFlight(s.flushers, x);
      assert Copies(s.added, x) == Copies(s.inserted, x);
    }
    assert multiset(s.added) == multiset(s.inserted);
    assert |multiset(s.added)| == |s.added| && |multiset(s.inserted)| == |s.inserted|;
    RunCountsRows(batchSize, steps);
  }

  // ---- no lost wake-up ----

  /** A full buffer has a wake-up on the way, unless it is full because of a requeue. */
  predicate WakeUpOnTheWay<T>(batchSize: nat, s: State<T>) {
    |s.buffer| >= batchSize ==>
      || s.token
      || s.senders > 0
      || (exists f :: 0 <= f < |s.flushers| && s.flushers[f].Started?)
      || s.requeued
  }

  lemma StepKeepsWakeUp<T>(batchSize: nat, s: State<T>, step: Step<T>)
    requires batchSize > 0 && WakeUpOnTheWay(batchSize, s)
    ensures WakeUpOnTheWay(batchSize, Next(batchSize, s, step))
  {
    var s' := Next(batchSize, s, step);
    if f :| 0 <= f < |s.flushers| && s.flushers[f].Started? {
      assert f < |s'.flushers|;
      assert s'.flushers[f].Started? || step == Swap(f);
    }
    if |s'.flushers| > |s.flushers| {
      assert s'.flushers[|s.flushers|].Started?;
    }
  }

  lemma {:induction false} NoLostWakeUp<T>(batchSize: nat, steps: seq<Step<T>>)
    requires batchSize > 0
    ensures WakeUpOnTheWay(batchSize, Run(batchSize, Start(), steps))
    decreases |steps|
  {
    if steps != [] {
      var n := |steps| - 1;
      NoLostWakeUp(batchSize, steps[..n]);
      StepKeepsWakeUp(batchSize, Run(batchSize, Start(), steps[..n]), steps[n]);
    }
  }

  /** The requeue clause is needed: a failed batch comes back without a wake-up. */
  lemma RequeueLeavesNoWakeUp<T>(batchSize: nat, events: seq<T>)
    requires |events| >= batchSize > 0
    ensures var s := Run(batchSize, Start(), FailedFlush(events));
      s.buffer == events && !s.token && s.senders == 0 && s.flushers == [Returned] && s.requeued
  {
    var steps := FailedFlush(events);
    FullBufferIsTaken(batchSize, events);
    UnrollAt(batchSize, Start(), steps, 3);
    UnrollAt(batchSize, Start(), steps, 4);
    UnrollAt(batchSize, Start(), steps, 5);
    assert steps[..6] == steps;
  }

  lemma FullBufferIsTaken<T>(batchSize: nat, events: seq<T>)
    requires |events| >= batchSize > 0
    ensures Run(batchSize, Start(), FailedFlush(events)[..3]) ==
        State(events, false, 0, [Started], false, 0, events, [], [])
  {
    var steps := FailedFlush(events);
    UnrollAt(batchSize, Start(), steps, 0);
    UnrollAt(batchSize, Start(), steps, 1);
    UnrollAt(batchSize, Start(), steps, 2);
  }

  function FailedFlush<T>(events: seq<T>): seq<Step<T>> {
    [Add(events), Send, Take, Swap(0), Insert(0, false), Requeue(0)]
  }

  lemma UnrollAt<T>(batchSize: nat, s: State<T>, steps: seq<Step<T>>, k: nat)
    requires k < |steps|
    ensures Run(batchSize, s, steps[..k + 1]) == Next(batchSize, Run(batchSize, s, steps[..k]), steps[k])
  {
    assert steps[..k + 1][..k] == steps[..k];
  }

  lemma Unroll<T>(batchSize: nat, s: State<T>, steps: seq<Step<T>>, step: Step<T>)
    ensures Run(batchSize, s, steps + [step]) == Next(batchSize, Run(batchSize, s, steps), step)
  {
    assert (steps + [step])[..|steps|] == steps;
  }

  /** No insert of the run fails, unless inserts may fail. */
  ghost predicate Permitted<T>(mayFail: bool, steps: seq<Step<T>>) {
    forall k :: 0 <= k < |steps| && steps[k].Insert? ==> steps[k].ok || mayFail
  }

  /** A full buffer has a wake-up on the way, without exception. */
  predicate Woken<T>(batchSize: nat, s: State<T>) {
    |s.buffer| >= batchSize ==>
      s.token || s.senders > 0 || exists f :: 0 <= f < |s.flushers| && s.flushers[f].Started?
  }

  lemma {:induction false} WithoutFailureNoRequeue<T>(batchSize: nat, steps: seq<Step<T>>)
    requires Permitted(false, steps)
    ensures var s := Run(batchSize, Start(), steps);
      !s.requeued && forall f :: 0 <= f < |s.flushers| ==> !s.flushers[f].Failed?
    decreases |steps|
  {
    if |steps| > 0 {
      var n := |steps| - 1;
      WithoutFailureNoRequeue(batchSize, steps[..n]);
      SuccessKeepsUnfailed(batchSize, Run(batchSize, Start(), steps[..n]), steps[n]);
    }
  }

  lemma SuccessKeepsUnfailed<T>(batchSize: nat, s: State<T>, step: Step<T>)
    requires step.Insert? ==> step.ok
    requires !s.requeued && forall f :: 0 <= f < |s.flushers| ==> !s.flushers[f].Failed?
    ensures var s' := Next(batchSize, s, step);
      !s'.requeued && forall f :: 0 <= f < |s'.flushers| ==> !s'.flushers[f].Failed?
  {
  }

  /** In every run a full buffer has a wake-up on the way, if and only if no insert may fail. */
  lemma AlwaysWokenIffNoFailure(batchSize: nat, mayFail: bool)
    requires batchSize > 0
    ensures (forall steps: seq<Step<nat>> :: Permitted(mayFail, steps) ==>
        Woken(batchSize, Run(batchSize, Start(), steps)))
       <==> !mayFail
  {
    if mayFail {
      var events := seq(batchSize, i requires 0 <= i < batchSize => i);
      RequeueLeavesNoWakeUp<nat>(batchSize, events);
      assert Permitted(mayFail, FailedFlush<nat>(events));
      assert !Woken(batchSize, Run(batchSize, Start(), FailedFlush<nat>(events)));
    } else {
      forall steps: seq<Step<nat>> | Permitted(mayFail, steps)
        ensures Woken(batchSize, Run(batchSize, Start(), steps))
      {
        NoLostWakeUp(batchSize, steps);
        WithoutFailureNoRequeue(batchSize, steps);
      }
    }
  }

  /** The ticker gets any buffered events flushed: tick, send, take, swap. */
  lemma TickFlushes<T>(batchSize: nat, s: State<T>)
    requires |s.buffer| > 0
    ensures var s' := Next(batchSize, Next(batchSize, Next(batchSize, s, Tick), Send), Take);
      var swapped := Next(batchSize, s', Swap(|s.flushers|));
      swapped.buffer == [] && swapped.flushers == s.flushers + [Inserting(s.buffer)]
  {
  }

  /** Wake-ups are earned: only a tick over a nonempty buffer or an addition that fills it starts one. */
  lemma WakeUpsAreEarned<T>(batchSize: nat, s: State<T>, step: Step<T>)
    ensures var s' := Next(batchSize, s, step);
      && s'.senders <= s.senders + 1
      && (s'.senders > s.senders ==> (step.Tick? && |s.buffer| > 0) || (step.Add? && |s'.buffer| >= batchSize))
      && (s'.token && !s.token ==> step.Send? && s.senders > 0)
      && (step.Add? && |step.events| > 0 && |s'.buffer| >= batchSize ==> s'.senders == s.senders + 1)
  {
  }

  // ---- the last flush ----

  /** A flush that succeeds while no other holds a batch leaves nothing unwritten. */
  lemma {:induction false} FinalFlushWritesEverything<T(!new)>(batchSize: nat, steps: seq<Step<T>>)
    requires forall f :: 0 <= f < |Run(batchSize, Start<T>(), steps).flushers| ==>
      |Run(batchSize, Start<T>(), steps).flushers[f].InFlight()| == 0
    ensures var s := Run(batchSize, Start<T>(), steps);
      var f := |s.flushers|;
      var s' := Run(batchSize, Start<T>(), steps + [Call] + [Swap(f)] + [Insert(f, true)]);
      Drained(s') && multiset(s'.inserted) == multiset(s.added) && s'.insertedRows == |s.added|
  {
    var s := Run(batchSize, Start<T>(), steps);
    var f := |s.flushers|;
    Unroll(batchSize, Start<T>(), steps, Call);
    Unroll(batchSize, Start<T>(), steps + [Call], Swap(f));
    Unroll(batchSize, Start<T>(), steps + [Call] + [Swap(f)], Insert(f, true));
    DrainedMeansAllWritten(batchSize, steps + [Call] + [Swap(f)] + [Insert(f, true)]);
  }

  // ---- order ----

  function Busy<T>(flushers: seq<Flusher<T>>): nat {
    if |flushers| == 0 then 0 else Busy(flushers[..|flushers| - 1]) + Load(flushers[|flushers| - 1])
  }

  function Load<T>(x: Flusher<T>): nat {
    if x.Inserting? || x.Failed? then 1 else 0
  }

  /** The batches in flight, one after the other. */
  function Flat<T>(flushers: seq<Flusher<T>>): seq<T> {
    if |flushers| == 0 then [] else Flat(flushers[..|flushers| - 1]) + flushers[|flushers| - 1].InFlight()
  }

  /** As `Next`, but at most `limit` flushers may hold a batch at a time. */
  function NextLimited<T>(limit: nat, batchSize: nat, s: State<T>, step: Step<T>): State<T> {
    if step.Swap? && Busy(s.flushers) >= limit then s else Next(batchSize, s, step)
  }

  function RunLimited<T>(limit: nat, batchSize: nat, s: State<T>, steps: seq<Step<T>>): State<T>
    decreases |steps|
  {
    if |steps| == 0 then s
    else NextLimited(limit, batchSize, RunLimited(limit, batchSize, s, steps[..|steps| - 1]), steps[|steps| - 1])
  }

  /** Written, then in flight, then buffered: exactly the order in which events were added. */
  ghost predicate Ordered<T>(s: State<T>) {
    s.inserted + Flat(s.flushers) + s.buffer == s.added
  }

  lemma {:induction false} BusyUpdate<T>(flushers: seq<Flusher<T>>, f: nat, x: Flusher<T>)
    requires f < |flushers|
    ensures Busy(flushers[f := x]) + Load(flushers[f]) == Busy(flushers) + Load(x)
  {
    var n := |flushers| - 1;
    if f == n {
      assert flushers[f := x][..n] == flushers[..n];
    } else {
      assert flushers[f := x][..n] == flushers[..n][f := x];
      BusyUpdate(flushers[..n], f, x);
    }
  }

  lemma {:induction false} NoneBusy<T>(flushers: seq<Flusher<T>>)
    requires Busy(flushers) == 0
    ensures Flat(flushers) == []
  {
    if |flushers| > 0 {
      NoneBusy(flushers[..|flushers| - 1]);
    }
  }

  /** If no flusher but f holds a batch, then f's batch is all that is in flight. */
  lemma {:induction false} OnlyOneBusy<T>(flushers: seq<Flusher<T>>, f: nat)
    requires f < |flushers| && Busy(flushers) == Load(flushers[f])
    ensures Flat(flushers) == flushers[f].InFlight()
  {
    var n := |flushers| - 1;
    var front, last := flushers[..n], flushers[n];
    if f == n {
      NoneBusy(front);
      assert [] + last.InFlight() == last.InFlight();
    } else {
      BusyAtLeast(front, f);
      OnlyOneBusy(front, f);
      assert last.InFlight() == [] && front[f] == flushers[f];
    }
  }

  lemma {:induction false} BusyAtLeast<T>(flushers: seq<Flusher<T>>, f: nat)
    requires f < |flushers|
    ensures Busy(flushers) >= Load(flushers[f])
  {
    if f < |flushers| - 1 {
      BusyAtLeast(flushers[..|flushers| - 1], f);
    }
  }

  /** Flusher f, and no other, may hold a batch before and after it becomes x. */
  lemma SoleFlusherMoves<T>(flushers: seq<Flusher<T>>, f: nat, x: Flusher<T>)
    requires f < |flushers| && Busy(flushers) <= 1
    requires Load(flushers[f]) == 1 || Busy(flushers) == 0
    ensures Flat(flushers) == flushers[f].InFlight()
    ensures Flat(flushers[f := x]) == x.InFlight()
    ensures Busy(flushers[f := x]) <= 1
  {
    BusyUpdate(flushers, f, x);
    BusyAtLeast(flushers, f);
    OnlyOneBusy(flushers, f);
    OnlyOneBusy(flushers[f := x], f);
  }

  lemma Reassociate<T>(a: seq<T>, b: seq<T>, c: seq<T>)
    ensures a + b + c == a + [] + (b + c) == a + b + [] + c
  {
  }

  lemma SwapKeepsOrder<T>(batchSize: nat, s: State<T>, f: nat)
    requires Ordered(s) && Busy(s.flushers) == 0
    ensures var s' := Next(batchSize, s, Swap(f)); Ordered(s') && Busy(s'.flushers) <= 1
  {
    if f < |s.flushers| && s.flushers[f].Started? {
      SoleFlusherMoves(s.flushers, f, Inserting(s.buffer));
      SoleFlusherMoves(s.flushers, f, Returned);
      Reassociate(s.inserted, s.buffer, []);
    }
  }

  lemma InsertKeepsOrder<T>(batchSize: nat, s: State<T>, f: nat, ok: bool)
    requires Ordered(s) && Busy(s.flushers) <= 1
    ensures var s' := Next(batchSize, s, Insert(f, ok)); Ordered(s') && Busy(s'.flushers) <= 1
  {
    if f < |s.flushers| && s.flushers[f].Inserting? {
      var batch := s.flushers[f].batch;
      SoleFlusherMoves(s.flushers, f, if ok then Returned else Failed(batch));
      Reassociate(s.inserted, batch, s.buffer);
    }
  }

  lemma RequeueKeepsOrder<T>(batchSize: nat, s: State<T>, f: nat)
    requires Ordered(s) && Busy(s.flushers) <= 1
    ensures var s' := Next(batchSize, s, Requeue(f)); Ordered(s') && Busy(s'.flushers) <= 1
  {
    if f < |s.flushers| && s.flushers[f].Failed? {
      var batch := s.flushers[f].batch;
      SoleFlusherMoves(s.flushers, f, Returned);
      Reassociate(s.inserted, batch, s.buffer);
    }
  }

  lemma AddKeepsOrder<T>(batchSize: nat, s: State<T>, events: seq<T>)
    requires Ordered(s)
    ensures Ordered(Next(batchSize, s, Add(events)))
  {
    assert s.inserted + Flat(s.flushers) + (s.buffer + events) == s.added + events;
  }

  lemma NewFlusherKeepsOrder<T>(s: State<T>)
    ensures Busy(s.flushers + [Started]) == Busy(s.flushers)
    ensures Flat(s.flushers + [Started]) == Flat(s.flushers)
  {
    assert (s.flushers + [Started])[..|s.flushers|] == s.flushers;
  }

  lemma StepKeepsOrder<T>(batchSize: nat, s: State<T>, step: Step<T>)
    requires Ordered(s) && Busy(s.flushers) <= 1
    ensures var s' := NextLimited(1, batchSize, s, step); Ordered(s') && Busy(s'.flushers) <= 1
  {
    match step
    case Swap(f) =>
      if Busy(s.flushers) == 0 {
        SwapKeepsOrder(batchSize, s, f);
      }
    case Insert(f, ok) => InsertKeepsOrder(batchSize, s, f, ok);
    case Requeue(f) => RequeueKeepsOrder(batchSize, s, f);
    case Add(events) => AddKeepsOrder(batchSize, s, events);
    case Take => NewFlusherKeepsOrder(s);
    case Call => NewFlusherKeepsOrder(s);
    case Tick =>
    case Send =>
  }

  lemma {:induction false} OneFlusherKeepsOrder<T>(batchSize: nat, steps: seq<Step<T>>)
    ensures var s := RunLimited(1, batchSize, Start(), steps); Ordered(s) && Busy(s.flushers) <= 1
    decreases |steps|
  {
    if |steps| > 0 {
      OneFlusherKeepsOrder(batchSize, steps[..|steps| - 1]);
      StepKeepsOrder(batchSize, RunLimited(1, batchSize, Start(), steps[..|steps| - 1]), steps[|steps| - 1]);
    }
  }

  lemma IdleStepKeepsOrder<T>(batchSize: nat, s: State<T>, step: Step<T>)
    requires Ordered(s) && Busy(s.flushers) == 0
    ensures var s' := NextLimited(0, batchSize, s, step); Ordered(s') && Busy(s'.flushers) == 0
  {
    match step
    case Swap(_) =>
    case Insert(f, _) =>
      if f < |s.flushers| {
        BusyAtLeast(s.flushers, f);
      }
    case Requeue(f) =>
      if f < |s.flushers| {
        BusyAtLeast(s.flushers, f);
      }
    case Add(events) => AddKeepsOrder(batchSize, s, events);
    case Take => NewFlusherKeepsOrder(s);
    case Call => NewFlusherKeepsOrder(s);
    case Tick =>
    case Send =>
  }

  /** If no flusher may hold a batch, nothing is ever swapped out. */
  lemma {:induction false} NoFlusherKeepsOrder<T>(batchSize: nat, steps: seq<Step<T>>)
    ensures var s := RunLimited(0, batchSize, Start(), steps); Ordered(s) && Busy(s.flushers) == 0
    decreases |steps|
  {
    if |steps| > 0 {
      NoFlusherKeepsOrder(batchSize, steps[..|steps| - 1]);
      IdleStepKeepsOrder(batchSize, RunLimited(0, batchSize, Start(), steps[..|steps| - 1]), steps[|steps| - 1]);
    }
  }

  const ONE_IN_FLIGHT: seq<Step<nat>> := [] + [Add([0])] + [Call] + [Swap(0)]

  /** The later batch overtakes the earlier one. */
  const OVERTAKING: seq<Step<nat>> := ONE_IN_FLIGHT + [Add([1])] + [Call] + [Swap(1)] + [Insert(1, true)]

  lemma LimitedOneMore<T>(limit: nat, batchSize: nat, s: State<T>, before: seq<Step<T>>, step: Step<T>)
    ensures RunLimited(limit, batchSize, s, before + [step])
         == NextLimited(limit, batchSize, RunLimited(limit, batchSize, s, before), step)
  {
    assert (before + [step])[..|before|] == before;
  }

  /** The buffer, the flushers, and what was added and written so far. */
  predicate Shows(s: State<nat>, buffer: seq<nat>, flushers: seq<Flusher<nat>>, added: seq<nat>, inserted: seq<nat>) {
    s.buffer == buffer && s.flushers == flushers && s.added == added && s.inserted == inserted
  }

  lemma FirstFlush(limit: nat, batchSize: nat)
    requires limit >= 2
    ensures var s := NextLimited(limit, batchSize, NextLimited(limit, batchSize, Start<nat>(), Add([0])), Call);
      Shows(NextLimited(limit, batchSize, s, Swap(0)), [], [Inserting([0])], [0], [])
  {
    var s := NextLimited(limit, batchSize, NextLimited(limit, batchSize, Start<nat>(), Add([0])), Call);
    assert Shows(s, [0], [Started], [0], []);
    assert Busy(s.flushers) == Busy(s.flushers[..0]) + Load(s.flushers[0]) == 0;
  }

  lemma FirstBatchInFlight(limit: nat, batchSize: nat)
    requires limit >= 2
    ensures Shows(RunLimited(limit, batchSize, Start(), ONE_IN_FLIGHT), [], [Inserting([0])], [0], [])
  {
    LimitedOneMore<nat>(limit, batchSize, Start<nat>(), [], Add([0]));
    LimitedOneMore<nat>(limit, batchSize, Start<nat>(), [] + [Add([0])], Call);
    LimitedOneMore<nat>(limit, batchSize, Start<nat>(), [] + [Add([0])] + [Call], Swap(0));
    FirstFlush(limit, batchSize);
  }

  lemma SecondFlush(limit: nat, batchSize: nat, s: State<nat>)
    requires limit >= 2 && Shows(s, [], [Inserting([0])], [0], [])
    ensures var s' := NextLimited(limit, batchSize, NextLimited(limit, batchSize, s, Add([1])), Call);
      Shows(NextLimited(limit, batchSize, NextLimited(limit, batchSize, s', Swap(1)), Insert(1, true)),
            [], [Inserting([0]), Returned], [0, 1], [1])
  {
    var s' := NextLimited(limit, batchSize, NextLimited(limit, batchSize, s, Add([1])), Call);
    assert Shows(s', [1], [Inserting([0]), Started], [0, 1], []);
    assert s'.flushers[..1] == [Inserting([0])] && Busy(s'.flushers[..1]) == 1;
    assert Busy(s'.flushers) == 1;
  }

  lemma TwoFlushersBreakOrder(limit: nat, batchSize: nat)
    requires limit >= 2
    ensures Shows(RunLimited(limit, batchSize, Start(), OVERTAKING), [], [Inserting([0]), Returned], [0, 1], [1])
    ensures !Ordered(RunLimited(limit, batchSize, Start(), OVERTAKING))
  {
    var steps := ONE_IN_FLIGHT;
    FirstBatchInFlight(limit, batchSize);
    SecondFlush(limit, batchSize, RunLimited(limit, batchSize, Start(), steps));
    LimitedOneMore<nat>(limit, batchSize, Start<nat>(), steps, Add([1]));
    LimitedOneMore<nat>(limit, batchSize, Start<nat>(), steps + [Add([1])], Call);
    LimitedOneMore<nat>(limit, batchSize, Start<nat>(), steps + [Add([1])] + [Call], Swap(1));
    LimitedOneMore<nat>(limit, batchSize, Start<nat>(), steps + [Add([1])] + [Call] + [Swap(1)], Insert(1, true));
    var s := RunLimited(limit, batchSize, Start(), OVERTAKING);
    assert (s.inserted + Flat(s.flushers) + s.buffer)[0] == 1;
  }

  /** The order of arrival is kept in every run if and only if at most one flush may be in flight. */
  lemma OrderedIffOneFlusher(limit: nat, batchSize: nat)
    ensures limit <= 1
       <==> forall steps: seq<Step<nat>> :: Ordered(RunLimited(limit, batchSize, Start(), steps))
  {
    if limit == 0 {
      forall steps: seq<Step<nat>>
        ensures Ordered(RunLimited(limit, batchSize, Start(), steps))
      {
        NoFlusherKeepsOrder(batchSize, steps);
      }
    } else if limit == 1 {
      forall steps: seq<Step<nat>>
        ensures Ordered(RunLimited(limit, batchSize, Start(), steps))
      {
        OneFlusherKeepsOrder(batchSize, steps);
      }
    } else {
      TwoFlushersBreakOrder(limit, batchSize);
    }
  }

  // ---- the rows that are written ----

  /** What pointer x points to after these inserts: every attempt, failed or not, defaults in place. */
  function Pointee<T(==)>(original: T -> UsageEvent, attempts: seq<Attempt<T>>, x: T): UsageEvent {
    if |attempts| == 0 then original(x) else
      var before := Pointee(original, attempts[..|attempts| - 1], x);
      if x in attempts[|attempts| - 1].batch then Default(before) else before
  }

  /** The rows of the successful inserts, each read through its pointer at the time. */
  function RowsWritten<T(==)>(original: T -> UsageEvent, attempts: seq<Attempt<T>>): seq<UsageEvent> {
    if |attempts| == 0 then [] else
      var last := attempts[|attempts| - 1];
      RowsWritten(original, attempts[..|attempts| - 1])
        + if !last.ok then [] else
            seq(|last.batch|, i requires 0 <= i < |last.batch| => Pointee(original, attempts, last.batch[i]))
  }

  lemma {:induction false} PointeeIsDefaultedOnce<T>(original: T -> UsageEvent, attempts: seq<Attempt<T>>, x: T)
    ensures Pointee(original, attempts, x) in {original(x), Default(original(x))}
    ensures |attempts| > 0 && x in attempts[|attempts| - 1].batch ==>
      Pointee(original, attempts, x) == Default(original(x))
  {
    if |attempts| > 0 {
      PointeeIsDefaultedOnce(original, attempts[..|attempts| - 1], x);
      DefaultIsIdempotent(original(x));
    }
  }

  /** The row of every event as its first attempt would have written it. */
  function FirstAttemptRows<T>(original: T -> UsageEvent, q: seq<T>): seq<UsageEvent> {
    seq(|q|, i requires 0 <= i < |q| => Default(original(q[i])))
  }

  lemma AttemptWritesFirstAttemptRows<T>(original: T -> UsageEvent, attempts: seq<Attempt<T>>, inserted: seq<T>,
      batch: seq<T>, ok: bool)
    requires RowsWritten(original, attempts) == FirstAttemptRows(original, inserted)
    ensures RowsWritten(original, attempts + [Attempt(batch, ok)])
         == FirstAttemptRows(original, if ok then inserted + batch else inserted)
  {
    var attempts' := attempts + [Attempt(batch, ok)];
    assert attempts'[..|attempts|] == attempts;
    if ok {
      forall i | 0 <= i < |batch|
        ensures Pointee(original, attempts', batch[i]) == Default(original(batch[i]))
      {
        PointeeIsDefaultedOnce(original, attempts', batch[i]);
      }
      assert FirstAttemptRows(original, inserted + batch)
          == FirstAttemptRows(original, inserted) + FirstAttemptRows(original, batch);
    }
  }

  lemma StepWritesFirstAttemptRows<T>(batchSize: nat, s: State<T>, step: Step<T>, original: T -> UsageEvent)
    requires RowsWritten(original, s.attempts) == FirstAttemptRows(original, s.inserted)
    ensures var s' := Next(batchSize, s, step);
      RowsWritten(original, s'.attempts) == FirstAttemptRows(original, s'.inserted)
  {
    if step.Insert? && step.f < |s.flushers| && s.flushers[step.f].Inserting? {
      AttemptWritesFirstAttemptRows(original, s.attempts, s.inserted, s.flushers[step.f].batch, step.ok);
    } else {
      var s' := Next(batchSize, s, step);
      assert s'.attempts == s.attempts && s'.inserted == s.inserted;
    }
  }

  /** However often a batch failed and was requeued, each event is written with its first-attempt row. */
  lemma {:induction false} RowsAreFirstAttemptRows<T>(batchSize: nat, steps: seq<Step<T>>, original: T -> UsageEvent)
    ensures var s := Run(batchSize, Start<T>(), steps);
      RowsWritten(original, s.attempts) == FirstAttemptRows(original, s.inserted)
    decreases |steps|
  {
    if |steps| > 0 {
      var n := |steps| - 1;
      RowsAreFirstAttemptRows(batchSize, steps[..n], original);
      StepWritesFirstAttemptRows(batchSize, Run(batchSize, Start<T>(), steps[..n]), steps[n], original);
    }
  }
}
