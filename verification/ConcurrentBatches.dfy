/**
 * Requests of both ingest paths that run at the same time: the lookup, check, add and record
 * commands of batches and the SETNX and DEL of single requests interleave, replies get lost, and
 * idempotency keys expire.
 */
module ConcurrentBatches {
  import opened Counting
  import opened Keys
  import opened Models
  import opened RedisDedup
  import opened BatchDedup
  import opened SeenSet
  import SingleEvent

  /**
   * Where a request is with one event: what it does next, or what became of the event. A batch
   * looks, checks, adds and records; a single request claims the key, holds it or rolls it back.
   */
  datatype Pc =
    | Looking | Checking(record: bool) | Adding(record: bool) | Recording
    | Claiming | Holding | RollingBack
    | Done(accepted: bool)

  /** A request working on the event of this (org, event id). */
  datatype Worker = Worker(pair: Pair, pc: Pc) {
    function Key(): string {
      KeyOf(pair)
    }
  }

  /**
   * `live` are the idempotency keys; `bloom` the pairs added to their filter. Pairs with the same
   * idempotency key are still different entries of the filters. `expiries` counts how often each
   * key has expired so far.
   */
  datatype State = State(live: set<string>, bloom: set<Pair>, workers: seq<Worker>, expiries: multiset<string>)

  /**
   * How many batches, and how many single requests, may be busy with the same pair; and whether a
   * BF.EXISTS may go unanswered, and a BF.ADD or a recording SETNX without effect. Every other reply
   * may be lost in any case.
   */
  datatype Rules = Rules(batches: nat, singles: nat, lookupLost: bool, addDropped: bool, recordDropped: bool)

  /** `suspected` is a false positive of BF.EXISTS or, if that is not answered, what the local filter says. */
  datatype Step =
    | Begin(pair: Pair)
    | Lookup(w: nat, reply: Reply, suspected: bool)
    | Check(w: nat, reply: Reply)
    | Add(w: nat, reply: Reply)
    | Record(w: nat, reply: Reply)
    | Arrive(pair: Pair)
    | Claim(w: nat, reply: Reply)
    | Verify(w: nat, ok: bool)
    | Rollback(w: nat, reply: Reply)
    | Expire(key: string)

  predicate Permits(rules: Rules, step: Step) {
    match step
    case Lookup(_, reply, _) => reply.Answered? || rules.lookupLost
    case Add(_, reply) => reply.Effective() || rules.addDropped
    case Record(_, reply) => reply.Effective() || rules.recordDropped
    case _ => true
  }

  predicate At(s: State, w: nat, pc: Pc) {
    w < |s.workers| && s.workers[w].pc == pc
  }

  function Move(s: State, w: nat, pc: Pc): State
    requires w < |s.workers|
  {
    s.(workers := s.workers[w := s.workers[w].(pc := pc)])
  }

  /** The worker's SETNX. */
  function SetKey(s: State, w: nat, reply: Reply): State
    requires w < |s.workers|
  {
    if reply.Effective() then s.(live := s.live + {s.workers[w].Key()}) else s
  }

  /** One command of one request, the verdict of a single request's checks, or an expiry. */
  function Next(rules: Rules, s: State, step: Step): State {
    if !Permits(rules, step) then s else
    match step
    case Begin(pair) =>
      if Count(s.workers, OfPair(pair), BusyBatch) >= rules.batches then s
      else s.(workers := s.workers + [Worker(pair, Looking)])
    case Lookup(w, reply, suspected) =>
      if !At(s, w, Looking) then s
      else if (reply.Answered? && s.workers[w].pair in s.bloom) || suspected then Move(s, w, Checking(reply.Lost?))
      else Move(s, w, Adding(true))
    case Check(w, reply) =>
      if w >= |s.workers| || !s.workers[w].pc.Checking? then s else
        var isNew := reply.Answered? && s.workers[w].Key() !in s.live;
        Move(SetKey(s, w, reply), w, if isNew then Adding(s.workers[w].pc.record) else Done(false))
    case Add(w, reply) =>
      if w >= |s.workers| || !s.workers[w].pc.Adding? then s else
        var s' := if reply.Effective() then s.(bloom := s.bloom + {s.workers[w].pair}) else s;
        Move(s', w, if s.workers[w].pc.record then Recording else Done(true))
    case Record(w, reply) => if !At(s, w, Recording) then s else Move(SetKey(s, w, reply), w, Done(true))
    case Arrive(pair) =>
      if Count(s.workers, OfPair(pair), BusySingle) >= rules.singles then s
      else s.(workers := s.workers + [Worker(pair, Claiming)])
    case Claim(w, reply) =>
      if !At(s, w, Claiming) then s else
        var isNew := reply.Answered? && s.workers[w].Key() !in s.live;
        Move(SetKey(s, w, reply), w, if isNew then Holding else Done(false))
    case Verify(w, ok) => if !At(s, w, Holding) then s else Move(s, w, if ok then Done(true) else RollingBack)
    case Rollback(w, reply) =>
      if !At(s, w, RollingBack) then s else
        var s' := if reply.Effective() then s.(live := s.live - {s.workers[w].Key()}) else s;
        Move(s', w, Done(false))
    case Expire(key) =>
      if key !in s.live then s else s.(live := s.live - {key}, expiries := s.expiries + multiset{key})
  }

  function Run(rules: Rules, s: State, steps: seq<Step>): State
    decreases |steps|
  {
    if steps == [] then s else Next(rules, Run(rules, s, steps[..|steps| - 1]), steps[|steps| - 1])
  }

  function Start(live: set<string>, bloom: set<Pair>): State {
    State(live, bloom, [], multiset{})
  }

  // ---- the steps are those of the sequential paths ----

  /** The machine's keys and filter entries are those of Redis, for every pair. */
  ghost predicate Mirrors(cfg: Config, s: State, redis: Redis)
    requires cfg.Valid()
  {
    && s.live == redis.idem
    && forall o, e :: (o, e) in s.bloom <==> redis.InBloom(cfg.Filter(o, e), e)
  }

  /** The four commands that worker w may issue, one after the other. */
  function FourCommands(rules: Rules, s: State, w: nat, r: Replies, suspected: bool): State {
    Next(rules, Next(rules, Next(rules, Next(rules, s,
      Lookup(w, r.lookup, suspected)), Check(w, r.check)), Add(w, r.add)), Record(w, r.record))
  }

  predicate PermitsAll(rules: Rules, r: Replies) {
    && (r.lookup.Answered? || rules.lookupLost)
    && (r.add.Effective() || rules.addDropped)
    && (r.record.Effective() || rules.recordDropped)
  }

  /** What a deduplication does to the keys and the filters: the verdict, and which of the two it adds to. */
  datatype Effect = Effect(isFresh: bool, setsKey: bool, addsPair: bool)

  function EffectOf(inBloom: bool, keyIsLive: bool, r: Replies, suspected: bool): Effect {
    var found := (r.lookup.Answered? && inBloom) || suspected;
    var isFresh := found ==> r.check.Answered? && !keyIsLive;
    var records := isFresh && (!found || r.lookup.Lost?);
    Effect(isFresh, (found && r.check.Effective()) || (records && r.record.Effective()), isFresh && r.add.Effective())
  }

  /** The last two commands, for a batch that is to accept. */
  lemma WritesDo(rules: Rules, s: State, w: nat, r: Replies)
    requires PermitsAll(rules, r) && w < |s.workers| && s.workers[w].pc.Adding?
    ensures var x := s.workers[w];
      Next(rules, Next(rules, s, Add(w, r.add)), Record(w, r.record)) ==
        State(s.live + (if x.pc.record && r.record.Effective() then {x.Key()} else {}),
              s.bloom + (if r.add.Effective() then {x.pair} else {}),
              s.workers[w := Worker(x.pair, Done(true))], s.expiries)
  {
    assert s.live + {} == s.live && s.bloom + {} == s.bloom;
  }

  /** The first two commands: refused, or to accept. */
  lemma LookupAndCheckDo(rules: Rules, s: State, w: nat, r: Replies, suspected: bool)
    requires PermitsAll(rules, r) && w < |s.workers| && s.workers[w].pc == Looking
    ensures var x := s.workers[w];
      var found := (r.lookup.Answered? && x.pair in s.bloom) || suspected;
      var isFresh := found ==> r.check.Answered? && x.Key() !in s.live;
      Next(rules, Next(rules, s, Lookup(w, r.lookup, suspected)), Check(w, r.check)) ==
        State(s.live + (if found && r.check.Effective() then {x.Key()} else {}), s.bloom,
              s.workers[w := Worker(x.pair, if isFresh then Adding(!found || r.lookup.Lost?) else Done(false))],
              s.expiries)
  {
    assert s.live + {} == s.live;
  }

  lemma FourCommandsDo(rules: Rules, s: State, w: nat, r: Replies, suspected: bool)
    requires PermitsAll(rules, r) && w < |s.workers| && s.workers[w].pc == Looking
    ensures var x := s.workers[w];
      var f := EffectOf(x.pair in s.bloom, x.Key() in s.live, r, suspected);
      FourCommands(rules, s, w, r, suspected) ==
        State(s.live + (if f.setsKey then {x.Key()} else {}), s.bloom + (if f.addsPair then {x.pair} else {}),
              s.workers[w := Worker(x.pair, Done(f.isFresh))], s.expiries)
  {
    LookupAndCheckDo(rules, s, w, r, suspected);
    var s2 := Next(rules, Next(rules, s, Lookup(w, r.lookup, suspected)), Check(w, r.check));
    if s2.workers[w].pc.Adding? {
      WritesDo(rules, s2, w, r);
    }
    assert s.bloom + {} == s.bloom;
  }

  /** The same of the sequential deduplication, for every pair at once. */
  lemma DedupDoes(cfg: Config, w: World, e: UsageEvent, falsePositive: bool, r: Replies)
    requires cfg.Valid()
    ensures var (w', isFresh) := Dedup(cfg, w, e, falsePositive, r);
      var suspected := if r.lookup.Answered? then falsePositive else cfg.Probes(e.orgId, e.eventId) <= w.local;
      var inBloom := w.redis.InBloom(cfg.Filter(e.orgId, e.eventId), e.eventId);
      var f := EffectOf(inBloom, KeyOf(PairOf(e)) in w.redis.idem, r, suspected);
      && isFresh == f.isFresh
      && w'.redis.idem == w.redis.idem + (if f.setsKey then {KeyOf(PairOf(e))} else {})
      && forall filter, x :: w'.redis.InBloom(filter, x) <==>
           w.redis.InBloom(filter, x) || (f.addsPair && filter == cfg.Filter(e.orgId, e.eventId) && x == e.eventId)
  {
  }

  /**
   * In any state, with any other requests and pairs about and for any replies, a batch that is left
   * alone with one event ends as the sequential deduplication does, and so do the keys and filters.
   */
  lemma UndisturbedIsDedup(rules: Rules, cfg: Config, s: State, k: nat, w: World, e: UsageEvent,
                           falsePositive: bool, r: Replies)
    requires cfg.Valid() && Mirrors(cfg, s, w.redis) && PermitsAll(rules, r)
    requires k < |s.workers| && s.workers[k] == Worker(PairOf(e), Looking)
    ensures var suspected := if r.lookup.Answered? then falsePositive else cfg.Probes(e.orgId, e.eventId) <= w.local;
      var s' := FourCommands(rules, s, k, r, suspected);
      var (w', isFresh) := Dedup(cfg, w, e, falsePositive, r);
      s'.workers == s.workers[k := Worker(PairOf(e), Done(isFresh))] && Mirrors(cfg, s', w'.redis)
  {
    var suspected := if r.lookup.Answered? then falsePositive else cfg.Probes(e.orgId, e.eventId) <= w.local;
    FourCommandsDo(rules, s, k, r, suspected);
    DedupDoes(cfg, w, e, falsePositive, r);
    var s', w' := FourCommands(rules, s, k, r, suspected), Dedup(cfg, w, e, falsePositive, r).0;
    forall o, x
      ensures (o, x) in s'.bloom <==> w'.redis.InBloom(cfg.Filter(o, x), x)
    {
      if cfg.Filter(o, x) == cfg.Filter(e.orgId, e.eventId) && x == e.eventId {
        BloomKeyInjective(o, e.orgId, cfg.Shard(x));
      }
    }
  }

  /** The last two steps of a single request: accepted, rolled back, or answered before. */
  lemma VerifyAndRollbackDo(rules: Rules, s: State, k: nat, ok: bool, delReply: Reply)
    requires k < |s.workers| && (s.workers[k].pc == Holding || s.workers[k].pc.Done?)
    ensures var x := s.workers[k]; var deletes := x.pc == Holding && !ok && delReply.Effective();
      Next(rules, Next(rules, s, Verify(k, ok)), Rollback(k, delReply)) ==
        s.(live := s.live - (if deletes then {x.Key()} else {}),
           workers := s.workers[k := Worker(x.pair, if x.pc == Holding then Done(ok) else x.pc)])
  {
    assert s.live - {} == s.live;
  }

  /** A single request that is left alone ends as `SingleEvent.Undisturbed` says, and leaves Bloom alone. */
  lemma UndisturbedIsSingle(rules: Rules, s: State, k: nat, setReply: Reply, ok: bool, delReply: Reply)
    requires k < |s.workers| && s.workers[k].pc == Claiming
    ensures var s1 := Next(rules, s, Claim(k, setReply));
      var (outcome, live) := SingleEvent.Undisturbed(s.live, s.workers[k].Key(), setReply, ok, delReply);
      Next(rules, Next(rules, s1, Verify(k, ok)), Rollback(k, delReply)) ==
        s.(live := live, workers := s.workers[k := Worker(s.workers[k].pair, Done(outcome == SingleEvent.Accepted))])
  {
    var key, s1 := s.workers[k].Key(), Next(rules, s, Claim(k, setReply));
    VerifyAndRollbackDo(rules, s1, k, ok, delReply);
    assert key !in s.live ==> s.live + {key} - {key} == s.live;
    assert key in s.live ==> s.live + {key} == s.live;
    assert s1.live - {} == s1.live;
  }

  // ---- counting ----

  /** The workers on a pair, or on any pair with this idempotency key. */
  datatype Tag = OfPair(pair: Pair) | OfKey(key: string) {
    predicate Covers(x: Worker) {
      if OfPair? then x.pair == pair else x.Key() == key
    }
  }

  /**
   * Batches and single requests at work; batches that will accept whatever the others do, and those
   * of them that may still have to set the key; requests that accepted; and single requests that
   * took the key and did not give it back.
   */
  datatype Kind = BusyBatch | BusySingle | Committed | Unrecorded | AcceptedEnd | Owner {
    predicate Has(pc: Pc) {
      match this
      case BusyBatch => pc.Looking? || pc.Checking? || pc.Adding? || pc.Recording?
      case BusySingle => pc.Claiming? || pc.Holding? || pc.RollingBack?
      case Committed => pc.Adding? || pc.Recording?
      case Unrecorded => pc == Adding(true) || pc.Recording?
      case AcceptedEnd => pc == Done(true)
      case Owner => pc.Holding? || pc.RollingBack? || pc == Done(true)
    }
  }

  function Count(workers: seq<Worker>, tag: Tag, kind: Kind): nat {
    if workers == [] then 0 else
      var x := workers[|workers| - 1];
      Count(workers[..|workers| - 1], tag, kind) + One(tag.Covers(x) && kind.Has(x.pc))
  }

  lemma {:induction false} CountAfterMove(workers: seq<Worker>, w: nat, pc: Pc, tag: Tag, kind: Kind)
    requires w < |workers|
    ensures Count(workers[w := workers[w].(pc := pc)], tag, kind)
              + One(tag.Covers(workers[w]) && kind.Has(workers[w].pc))
         == Count(workers, tag, kind) + One(tag.Covers(workers[w]) && kind.Has(pc))
  {
    var n := |workers| - 1;
    var moved := workers[w].(pc := pc);
    if w == n {
      assert workers[w := moved][..n] == workers[..n];
    } else {
      assert workers[w := moved][..n] == workers[..n][w := moved];
      CountAfterMove(workers[..n], w, pc, tag, kind);
    }
  }

  lemma CountAfterBegin(workers: seq<Worker>, x: Worker, tag: Tag, kind: Kind)
    ensures Count(workers + [x], tag, kind) == Count(workers, tag, kind) + One(tag.Covers(x) && kind.Has(x.pc))
  {
    assert (workers + [x])[..|workers|] == workers;
  }

  ghost predicate Within(small: Kind, big: Kind) {
    forall pc: Pc :: small.Has(pc) ==> big.Has(pc)
  }

  lemma {:induction false} CountWithin(workers: seq<Worker>, tag: Tag, small: Kind, big: Kind)
    requires Within(small, big)
    ensures Count(workers, tag, small) <= Count(workers, tag, big)
  {
    if workers != [] {
      CountWithin(workers[..|workers| - 1], tag, small, big);
    }
  }

  /** A worker of the larger kind only makes the difference. */
  lemma {:induction false} CountBelow(workers: seq<Worker>, w: nat, tag: Tag, small: Kind, big: Kind)
    requires Within(small, big) && w < |workers| && tag.Covers(workers[w])
    requires big.Has(workers[w].pc) && !small.Has(workers[w].pc)
    ensures Count(workers, tag, small) < Count(workers, tag, big)
  {
    var n := |workers| - 1;
    if w < n {
      CountBelow(workers[..n], w, tag, small, big);
    } else {
      CountWithin(workers[..n], tag, small, big);
    }
  }

  lemma {:induction false} CountOfOne(workers: seq<Worker>, w: nat, tag: Tag, kind: Kind)
    requires w < |workers| && tag.Covers(workers[w]) && kind.Has(workers[w].pc)
    ensures Count(workers, tag, kind) >= 1
  {
    if w < |workers| - 1 {
      CountOfOne(workers[..|workers| - 1], w, tag, kind);
    }
  }

  lemma {:induction false} PairWithinKey(workers: seq<Worker>, pair: Pair, kind: Kind)
    ensures Count(workers, OfPair(pair), kind) <= Count(workers, OfKey(KeyOf(pair)), kind)
  {
    if workers != [] {
      PairWithinKey(workers[..|workers| - 1], pair, kind);
    }
  }

  /** If all workers with the key are on one pair, counting by key is counting by pair. */
  lemma {:induction false} KeyIsPair(workers: seq<Worker>, pair: Pair, kind: Kind)
    requires forall w :: 0 <= w < |workers| && workers[w].Key() == KeyOf(pair) ==> workers[w].pair == pair
    ensures Count(workers, OfKey(KeyOf(pair)), kind) == Count(workers, OfPair(pair), kind)
  {
    if workers != [] {
      KeyIsPair(workers[..|workers| - 1], pair, kind);
    }
  }

  lemma {:induction false} CountIsZero(workers: seq<Worker>, tag: Tag, kind: Kind)
    requires forall w :: 0 <= w < |workers| ==> !tag.Covers(workers[w])
    ensures Count(workers, tag, kind) == 0
  {
    if workers != [] {
      CountIsZero(workers[..|workers| - 1], tag, kind);
    }
  }

  // ---- what it means to accept once ----

  /** Every (org, event id) was accepted at most once more than its key expired: once within its TTL. */
  ghost predicate PairsOnce(s: State) {
    forall pair: Pair :: Count(s.workers, OfPair(pair), AcceptedEnd) <= 1 + s.expiries[KeyOf(pair)]
  }

  /** Likewise every idempotency key. */
  ghost predicate KeysOnce(s: State) {
    forall key: string :: Count(s.workers, OfKey(key), AcceptedEnd) <= 1 + s.expiries[key]
  }

  // ---- one batch per pair at a time, no single requests, and nothing forgotten ----

  const ONE_BATCH := Rules(1, 0, false, false, false)

  /** It is a batch whose lookups were answered; if it has still to record, it has added. */
  ghost predicate Orderly(s: State, w: nat)
    requires w < |s.workers|
  {
    var x := s.workers[w];
    !BusySingle.Has(x.pc) && x.pc != Checking(true) && (x.pc == Recording ==> x.pair in s.bloom)
  }

  ghost predicate AllOrderly(s: State) {
    forall w :: 0 <= w < |s.workers| ==> Orderly(s, w)
  }

  /**
   * One batch at a time; an accepted pair is in Bloom; a batch that has still to set the key is the
   * first to accept; and otherwise acceptances balance the key and its expiries.
   */
  ghost predicate Exclusive(s: State, pair: Pair) {
    var accepted := Count(s.workers, OfPair(pair), AcceptedEnd);
    && Count(s.workers, OfPair(pair), BusyBatch) <= 1
    && (accepted >= 1 ==> pair in s.bloom)
    && (Count(s.workers, OfPair(pair), Unrecorded) >= 1 ==> accepted == 0)
    && (Count(s.workers, OfPair(pair), Unrecorded) == 0 ==>
          accepted + Count(s.workers, OfPair(pair), Committed) <= One(KeyOf(pair) in s.live) + s.expiries[KeyOf(pair)])
  }

  lemma StepKeepsOrderly(s: State, step: Step)
    requires AllOrderly(s)
    ensures AllOrderly(Next(ONE_BATCH, s, step))
  {
    var s' := Next(ONE_BATCH, s, step);
    forall w | 0 <= w < |s'.workers|
      ensures Orderly(s', w)
    {
      assert w < |s.workers| ==> Orderly(s, w);
    }
  }

  lemma BeginKeepsExclusive(s: State, started: Pair, pair: Pair)
    requires Exclusive(s, pair)
    ensures Exclusive(Next(ONE_BATCH, s, Begin(started)), pair)
  {
    var x, tag := Worker(started, Looking), OfPair(pair);
    CountAfterBegin(s.workers, x, tag, BusyBatch);
    CountAfterBegin(s.workers, x, tag, AcceptedEnd);
    CountAfterBegin(s.workers, x, tag, Unrecorded);
    CountAfterBegin(s.workers, x, tag, Committed);
  }

  lemma ExpiryKeepsExclusive(s: State, key: string, pair: Pair)
    requires Exclusive(s, pair)
    ensures Exclusive(Next(ONE_BATCH, s, Step.Expire(key)), pair)
  {
  }

  /** The counts that a move of worker w changes, and what it being at work says of them. */
  lemma CountsOfMover(s: State, w: nat, pc: Pc, pair: Pair)
    requires w < |s.workers| && s.workers[w].pair == pair && BusyBatch.Has(s.workers[w].pc)
    requires Count(s.workers, OfPair(pair), BusyBatch) <= 1
    ensures var x := s.workers[w].pc; var tag, workers := OfPair(pair), Move(s, w, pc).workers;
      && Count(workers, tag, BusyBatch) <= 1
      && Count(workers, tag, AcceptedEnd) == Count(s.workers, tag, AcceptedEnd) + One(pc == Done(true))
      && Count(s.workers, tag, Committed) == One(Committed.Has(x))
      && Count(workers, tag, Committed) == One(Committed.Has(pc))
      && Count(s.workers, tag, Unrecorded) == One(Unrecorded.Has(x))
      && Count(workers, tag, Unrecorded) == One(Unrecorded.Has(pc))
  {
    var tag := OfPair(pair);
    CountAfterMove(s.workers, w, pc, tag, BusyBatch);
    CountAfterMove(s.workers, w, pc, tag, AcceptedEnd);
    CountOfOne(s.workers, w, tag, BusyBatch);
    CountsOfSole(s, w, pc, pair, Committed);
    CountsOfSole(s, w, pc, pair, Unrecorded);
  }

  lemma CountsOfSole(s: State, w: nat, pc: Pc, pair: Pair, kind: Kind)
    requires w < |s.workers| && s.workers[w].pair == pair && BusyBatch.Has(s.workers[w].pc)
    requires Count(s.workers, OfPair(pair), BusyBatch) <= 1 && Within(kind, BusyBatch)
    ensures Count(s.workers, OfPair(pair), kind) == One(kind.Has(s.workers[w].pc))
    ensures Count(Move(s, w, pc).workers, OfPair(pair), kind) == One(kind.Has(pc))
  {
    CountAfterMove(s.workers, w, pc, OfPair(pair), kind);
    CountWithin(s.workers, OfPair(pair), kind, BusyBatch);
    if kind.Has(s.workers[w].pc) {
      CountOfOne(s.workers, w, OfPair(pair), kind);
    } else {
      CountBelow(s.workers, w, OfPair(pair), kind, BusyBatch);
    }
  }

  /** A batch's command on another pair changes no count of this one, and forgets nothing. */
  lemma OthersKeepExclusive(s: State, step: Step, pair: Pair)
    requires Exclusive(s, pair) && AllOrderly(s) && (step.Lookup? || step.Check? || step.Add? || step.Record?)
    requires step.w < |s.workers| && s.workers[step.w].pair != pair
    ensures Exclusive(Next(ONE_BATCH, s, step), pair)
  {
    var tag, pc := OfPair(pair), Next(ONE_BATCH, s, step).workers[step.w].pc;
    CountAfterMove(s.workers, step.w, pc, tag, BusyBatch);
    CountAfterMove(s.workers, step.w, pc, tag, AcceptedEnd);
    CountAfterMove(s.workers, step.w, pc, tag, Unrecorded);
    CountAfterMove(s.workers, step.w, pc, tag, Committed);
  }

  lemma OwnStepKeepsExclusive(s: State, step: Step, pair: Pair)
    requires Exclusive(s, pair) && AllOrderly(s) && (step.Lookup? || step.Check? || step.Add? || step.Record?)
    requires step.w < |s.workers| && s.workers[step.w].pair == pair
    ensures Exclusive(Next(ONE_BATCH, s, step), pair)
  {
    var s' := Next(ONE_BATCH, s, step);
    if s' != s {
      assert Orderly(s, step.w);
      CountsOfMover(s, step.w, s'.workers[step.w].pc, pair);
    }
  }

  /** Without single requests, their commands do nothing. */
  lemma SingleStepIsIdle(s: State, step: Step)
    requires AllOrderly(s) && (step.Arrive? || step.Claim? || step.Verify? || step.Rollback?)
    ensures Next(ONE_BATCH, s, step) == s
  {
    if !step.Arrive? && step.w < |s.workers| {
      assert Orderly(s, step.w);
    }
  }

  lemma StepKeepsExclusive(s: State, step: Step, pair: Pair)
    requires Exclusive(s, pair) && AllOrderly(s)
    ensures Exclusive(Next(ONE_BATCH, s, step), pair)
  {
    match step
    case Begin(started) => BeginKeepsExclusive(s, started, pair);
    case Expire(key) => ExpiryKeepsExclusive(s, key, pair);
    case Arrive(_) => SingleStepIsIdle(s, step);
    case Claim(_, _) => SingleStepIsIdle(s, step);
    case Verify(_, _) => SingleStepIsIdle(s, step);
    case Rollback(_, _) => SingleStepIsIdle(s, step);
    case _ =>
      if step.w < |s.workers| {
        if s.workers[step.w].pair == pair {
          OwnStepKeepsExclusive(s, step, pair);
        } else {
          OthersKeepExclusive(s, step, pair);
        }
      }
  }

  lemma {:induction false} OneBatchPerPairAcceptsOnce(live: set<string>, bloom: set<Pair>, steps: seq<Step>, pair: Pair)
    ensures var s := Run(ONE_BATCH, Start(live, bloom), steps); Exclusive(s, pair) && AllOrderly(s)
    decreases |steps|
  {
    if steps != [] {
      var before, step := steps[..|steps| - 1], steps[|steps| - 1];
      OneBatchPerPairAcceptsOnce(live, bloom, before, pair);
      StepKeepsOrderly(Run(ONE_BATCH, Start(live, bloom), before), step);
      StepKeepsExclusive(Run(ONE_BATCH, Start(live, bloom), before), step, pair);
    }
  }

  lemma {:induction false} OneBatchPerPair(live: set<string>, bloom: set<Pair>, steps: seq<Step>)
    ensures PairsOnce(Run(ONE_BATCH, Start(live, bloom), steps))
  {
    forall pair: Pair
      ensures var s := Run(ONE_BATCH, Start(live, bloom), steps);
        Count(s.workers, OfPair(pair), AcceptedEnd) <= 1 + s.expiries[KeyOf(pair)]
    {
      OneBatchPerPairAcceptsOnce(live, bloom, steps, pair);
    }
  }

  // ---- single requests alone ----

  ghost predicate SinglesOnly(s: State) {
    forall w :: 0 <= w < |s.workers| ==> !BusyBatch.Has(s.workers[w].pc)
  }

  /** The owners of a key balance its presence and its expiries. */
  predicate Balanced(s: State, key: string) {
    Count(s.workers, OfKey(key), Owner) <= One(key in s.live) + s.expiries[key]
  }

  lemma CommandKeepsBalance(rules: Rules, s: State, step: Step, key: string)
    requires Balanced(s, key) && (step.Claim? || step.Verify? || step.Rollback?) && step.w < |s.workers|
    ensures Balanced(Next(rules, s, step), key)
  {
    CountAfterMove(s.workers, step.w, Next(rules, s, step).workers[step.w].pc, OfKey(key), Owner);
  }

  lemma StepKeepsSinglesOnly(rules: Rules, s: State, step: Step)
    requires rules.batches == 0 && SinglesOnly(s)
    ensures SinglesOnly(Next(rules, s, step))
  {
  }

  /** Without batches, the commands of a batch do nothing. */
  lemma BatchStepIsIdle(rules: Rules, s: State, step: Step)
    requires rules.batches == 0 && SinglesOnly(s)
    requires step.Begin? || step.Lookup? || step.Check? || step.Add? || step.Record?
    ensures Next(rules, s, step) == s
  {
  }

  lemma StepKeepsBalance(rules: Rules, s: State, step: Step, key: string)
    requires rules.batches == 0 && SinglesOnly(s) && Balanced(s, key)
    ensures Balanced(Next(rules, s, step), key)
  {
    match step
    case Arrive(pair) => CountAfterBegin(s.workers, Worker(pair, Claiming), OfKey(key), Owner);
    case Claim(w, _) =>
      if w < |s.workers| {
        CommandKeepsBalance(rules, s, step, key);
      }
    case Verify(w, _) =>
      if w < |s.workers| {
        CommandKeepsBalance(rules, s, step, key);
      }
    case Rollback(w, _) =>
      if w < |s.workers| {
        CommandKeepsBalance(rules, s, step, key);
      }
    case Expire(_) =>
    case _ => BatchStepIsIdle(rules, s, step);
  }

  lemma {:induction false} SinglesStayBalanced(rules: Rules, live: set<string>, bloom: set<Pair>, steps: seq<Step>,
      key: string)
    requires rules.batches == 0
    ensures var s := Run(rules, Start(live, bloom), steps); SinglesOnly(s) && Balanced(s, key)
    decreases |steps|
  {
    if steps != [] {
      var front := steps[..|steps| - 1];
      SinglesStayBalanced(rules, live, bloom, front, key);
      StepKeepsSinglesOnly(rules, Run(rules, Start(live, bloom), front), steps[|steps| - 1]);
      StepKeepsBalance(rules, Run(rules, Start(live, bloom), front), steps[|steps| - 1], key);
    }
  }

  lemma SinglesAcceptKeyOnce(rules: Rules, live: set<string>, bloom: set<Pair>, steps: seq<Step>, key: string)
    requires rules.batches == 0
    ensures var s := Run(rules, Start(live, bloom), steps);
      Count(s.workers, OfKey(key), AcceptedEnd) <= 1 + s.expiries[key]
  {
    SinglesStayBalanced(rules, live, bloom, steps, key);
    CountWithin(Run(rules, Start(live, bloom), steps).workers, OfKey(key), AcceptedEnd, Owner);
  }

  /** Any number of single requests, without batches: no key, hence no pair, is accepted twice within its TTL. */
  lemma {:induction false} SinglesAcceptOnce(rules: Rules, live: set<string>, bloom: set<Pair>, steps: seq<Step>)
    requires rules.batches == 0
    ensures KeysOnce(Run(rules, Start(live, bloom), steps)) && PairsOnce(Run(rules, Start(live, bloom), steps))
  {
    var s := Run(rules, Start(live, bloom), steps);
    forall key: string
      ensures Count(s.workers, OfKey(key), AcceptedEnd) <= 1 + s.expiries[key]
    {
      SinglesAcceptKeyOnce(rules, live, bloom, steps, key);
    }
    forall pair: Pair
      ensures Count(s.workers, OfPair(pair), AcceptedEnd) <= 1 + s.expiries[KeyOf(pair)]
    {
      PairWithinKey(s.workers, pair, AcceptedEnd);
    }
  }

  // ---- runs that accept twice ----

  lemma RunOneMore(rules: Rules, s: State, before: seq<Step>, step: Step)
    ensures Run(rules, s, before + [step]) == Next(rules, Run(rules, s, before), step)
  {
    assert (before + [step])[..|before|] == before;
  }

  const EMPTY := Start({}, {})

  function Two(p: Pair, a: Pc, q: Pair, b: Pc): seq<Worker> {
    [Worker(p, a), Worker(q, b)]
  }

  lemma CountTwo(p: Pair, a: Pc, q: Pair, b: Pc, tag: Tag, kind: Kind)
    ensures Count([Worker(p, a)], tag, kind) == One(tag.Covers(Worker(p, a)) && kind.Has(a))
    ensures Count(Two(p, a, q, b), tag, kind)
         == One(tag.Covers(Worker(p, a)) && kind.Has(a)) + One(tag.Covers(Worker(q, b)) && kind.Has(b))
  {
    CountAfterBegin([], Worker(p, a), tag, kind);
    assert [] + [Worker(p, a)] == [Worker(p, a)];
    CountAfterBegin([Worker(p, a)], Worker(q, b), tag, kind);
    assert [Worker(p, a)] + [Worker(q, b)] == Two(p, a, q, b);
  }

  /** Both were accepted, and no key has expired. */
  predicate BothAccepted(s: State, p: Pair, q: Pair) {
    s.workers == Two(p, Done(true), q, Done(true)) && s.expiries == multiset{}
  }

  lemma BothAcceptedIsTwice(s: State, p: Pair, q: Pair)
    requires BothAccepted(s, p, q)
    ensures p == q ==> !PairsOnce(s)
    ensures KeyOf(p) == KeyOf(q) ==> !KeysOnce(s)
  {
    CountTwo(p, Done(true), q, Done(true), OfPair(p), AcceptedEnd);
    CountTwo(p, Done(true), q, Done(true), OfKey(KeyOf(p)), AcceptedEnd);
  }

  /** The four commands of worker w. */
  lemma CommandsRun(rules: Rules, s: State, before: seq<Step>, w: nat, r: Replies)
    ensures Run(rules, s,
        before + [Lookup(w, r.lookup, false)] + [Check(w, r.check)] + [Add(w, r.add)] + [Record(w, r.record)])
         == FourCommands(rules, Run(rules, s, before), w, r, false)
  {
    RunOneMore(rules, s, before, Lookup(w, r.lookup, false));
    RunOneMore(rules, s, before + [Lookup(w, r.lookup, false)], Check(w, r.check));
    RunOneMore(rules, s, before + [Lookup(w, r.lookup, false)] + [Check(w, r.check)], Add(w, r.add));
    RunOneMore(rules, s, before + [Lookup(w, r.lookup, false)] + [Check(w, r.check)] + [Add(w, r.add)],
        Record(w, r.record));
  }

  /** One batch after the other, with these replies. */
  function OneByOne(p: Pair, r0: Replies, q: Pair, r1: Replies): seq<Step> {
    FirstBatch(p, r0) + [Begin(q)]
      + [Lookup(1, r1.lookup, false)] + [Check(1, r1.check)] + [Add(1, r1.add)] + [Record(1, r1.record)]
  }

  function FirstBatch(p: Pair, r: Replies): seq<Step> {
    [] + [Begin(p)] + [Lookup(0, r.lookup, false)] + [Check(0, r.check)] + [Add(0, r.add)] + [Record(0, r.record)]
  }

  lemma FirstBegins(rules: Rules, p: Pair)
    requires rules.batches >= 1
    ensures Next(rules, EMPTY, Begin(p)) == EMPTY.(workers := [Worker(p, Looking)])
  {
  }

  /** Redis after a first batch with these replies. */
  function AfterFirst(p: Pair, r: Replies): State {
    State(if r.record.Effective() then {KeyOf(p)} else {}, if r.add.Effective() then {p} else {},
          [Worker(p, Done(true))], multiset{})
  }

  lemma FirstBatchEnds(rules: Rules, p: Pair, r: Replies)
    requires rules.batches >= 1 && PermitsAll(rules, r)
    ensures Run(rules, EMPTY, FirstBatch(p, r)) == AfterFirst(p, r)
  {
    RunOneMore(rules, EMPTY, [], Begin(p));
    FirstBegins(rules, p);
    CommandsRun(rules, EMPTY, [] + [Begin(p)], 0, r);
    FourCommandsDo(rules, EMPTY.(workers := [Worker(p, Looking)]), 0, r, false);
  }

  lemma SecondBegins(rules: Rules, s: State, p: Pair, q: Pair)
    requires rules.batches >= 1 && s.workers == [Worker(p, Done(true))]
    ensures Next(rules, s, Begin(q)) == s.(workers := Two(p, Done(true), q, Looking))
  {
    CountTwo(p, Done(true), q, Looking, OfPair(q), BusyBatch);
  }

  /** The second batch accepts too, unless Bloom knows its pair and the check finds the key. */
  lemma OneByOneBothAccept(rules: Rules, p: Pair, r0: Replies, q: Pair, r1: Replies)
    requires rules.batches >= 1 && PermitsAll(rules, r0) && PermitsAll(rules, r1)
    requires var s := AfterFirst(p, r0); EffectOf(q in s.bloom, KeyOf(q) in s.live, r1, false).isFresh
    ensures BothAccepted(Run(rules, EMPTY, OneByOne(p, r0, q, r1)), p, q)
  {
    var first, s := FirstBatch(p, r0), AfterFirst(p, r0);
    FirstBatchEnds(rules, p, r0);
    RunOneMore(rules, EMPTY, first, Begin(q));
    SecondBegins(rules, s, p, q);
    CommandsRun(rules, EMPTY, first + [Begin(q)], 1, r1);
    FourCommandsDo(rules, s.(workers := Two(p, Done(true), q, Looking)), 1, r1, false);
  }

  /** The replies of two batches on one pair, if Redis may forget something for the second. */
  function Forgetful(rules: Rules): (Replies, Replies) {
    if rules.lookupLost then (ANSWERED, ANSWERED.(lookup := Lost(false)))
    else if rules.addDropped then (ANSWERED.(add := Lost(false)), ANSWERED)
    else (ANSWERED.(record := Lost(false)), ANSWERED)
  }

  /** A lost lookup, a dropped add or a dropped record: the next batch accepts the pair again. */
  lemma ForgettingAcceptsTwice(rules: Rules, p: Pair)
    requires rules.batches >= 1 && (rules.lookupLost || rules.addDropped || rules.recordDropped)
    ensures BothAccepted(Run(rules, EMPTY, OneByOne(p, Forgetful(rules).0, p, Forgetful(rules).1)), p, p)
  {
    OneByOneBothAccept(rules, p, Forgetful(rules).0, p, Forgetful(rules).1);
  }

  /** Different pairs are both accepted, one after the other, even if they share their key. */
  lemma DifferentPairsBothAccept(p: Pair, q: Pair)
    requires p != q
    ensures BothAccepted(Run(ONE_BATCH, EMPTY, OneByOne(p, ANSWERED, q, ANSWERED)), p, q)
  {
    OneByOneBothAccept(ONE_BATCH, p, ANSWERED, q, ANSWERED);
  }

  /** Both batches look before either adds; then each adds and records, and ignores SETNX's answer. */
  function Overlapping(p: Pair): seq<Step> {
    BothLook(p) + [Add(0, Answered)] + [Record(0, Answered)] + [Add(1, Answered)] + [Record(1, Answered)]
  }

  function BothLook(p: Pair): seq<Step> {
    [] + [Begin(p)] + [Begin(p)] + [Lookup(0, Answered, false)] + [Lookup(1, Answered, false)]
  }

  lemma BothBegin(rules: Rules, p: Pair)
    requires rules.batches >= 2
    ensures Next(rules, Next(rules, EMPTY, Begin(p)), Begin(p)) == EMPTY.(workers := Two(p, Looking, p, Looking))
  {
    FirstBegins(rules, p);
    CountTwo(p, Looking, p, Looking, OfPair(p), BusyBatch);
  }

  lemma BothLookEnds(rules: Rules, p: Pair)
    requires rules.batches >= 2
    ensures Run(rules, EMPTY, BothLook(p)) == EMPTY.(workers := Two(p, Adding(true), p, Adding(true)))
  {
    var begun := [] + [Begin(p)] + [Begin(p)];
    RunOneMore(rules, EMPTY, [], Begin(p));
    RunOneMore(rules, EMPTY, [] + [Begin(p)], Begin(p));
    BothBegin(rules, p);
    RunOneMore(rules, EMPTY, begun, Lookup(0, Answered, false));
    RunOneMore(rules, EMPTY, begun + [Lookup(0, Answered, false)], Lookup(1, Answered, false));
  }

  lemma BothWrite(rules: Rules, s: State, p: Pair)
    requires s == EMPTY.(workers := Two(p, Adding(true), p, Adding(true)))
    ensures BothAccepted(Next(rules, Next(rules, Next(rules, Next(rules, s,
              Add(0, Answered)), Record(0, Answered)), Add(1, Answered)), Record(1, Answered)), p, p)
  {
  }

  /** Two batches that overlap on a pair both accept it. */
  lemma TwoBatchesBothAccept(rules: Rules, p: Pair)
    requires rules.batches >= 2
    ensures BothAccepted(Run(rules, EMPTY, Overlapping(p)), p, p)
  {
    var looked := BothLook(p);
    BothLookEnds(rules, p);
    BothWrite(rules, Run(rules, EMPTY, looked), p);
    RunOneMore(rules, EMPTY, looked, Add(0, Answered));
    RunOneMore(rules, EMPTY, looked + [Add(0, Answered)], Record(0, Answered));
    RunOneMore(rules, EMPTY, looked + [Add(0, Answered)] + [Record(0, Answered)], Add(1, Answered));
    RunOneMore(rules, EMPTY, looked + [Add(0, Answered)] + [Record(0, Answered)] + [Add(1, Answered)],
        Record(1, Answered));
  }

  /** A single request for the pair, with nothing to roll back, and then a batch. */
  function SingleThenBatch(p: Pair): seq<Step> {
    SingleFirst(p) + [Begin(p)]
      + [Lookup(1, Answered, false)] + [Check(1, Answered)] + [Add(1, Answered)] + [Record(1, Answered)]
  }

  function SingleFirst(p: Pair): seq<Step> {
    [] + [Arrive(p)] + [Claim(0, Answered)] + [Verify(0, true)] + [Rollback(0, Answered)]
  }

  lemma FirstArrives(rules: Rules, p: Pair)
    requires rules.singles >= 1
    ensures Next(rules, EMPTY, Arrive(p)) == EMPTY.(workers := [Worker(p, Claiming)])
  {
  }

  lemma LoneSingleAccepts(rules: Rules, p: Pair)
    ensures var s := EMPTY.(workers := [Worker(p, Claiming)]);
      Next(rules, Next(rules, Next(rules, s, Claim(0, Answered)), Verify(0, true)), Rollback(0, Answered))
        == State({KeyOf(p)}, {}, [Worker(p, Done(true))], multiset{})
  {
    UndisturbedIsSingle(rules, EMPTY.(workers := [Worker(p, Claiming)]), 0, Answered, true, Answered);
  }

  lemma ArrivedRun(rules: Rules, p: Pair)
    requires rules.singles >= 1
    ensures Run(rules, EMPTY, [] + [Arrive(p)]) == EMPTY.(workers := [Worker(p, Claiming)])
  {
    RunOneMore(rules, EMPTY, [], Arrive(p));
    FirstArrives(rules, p);
  }

  lemma SingleFirstEnds(rules: Rules, p: Pair)
    requires rules.singles >= 1
    ensures Run(rules, EMPTY, SingleFirst(p)) == State({KeyOf(p)}, {}, [Worker(p, Done(true))], multiset{})
  {
    ArrivedRun(rules, p);
    var arrived := [] + [Arrive(p)];
    SingleRun(rules, EMPTY, arrived, 0);
    LoneSingleAccepts(rules, p);
    assert SingleFirst(p) == arrived + [Claim(0, Answered)] + [Verify(0, true)] + [Rollback(0, Answered)];
  }

  lemma SingleRun(rules: Rules, s: State, before: seq<Step>, w: nat)
    ensures Run(rules, s, before + [Claim(w, Answered)] + [Verify(w, true)] + [Rollback(w, Answered)])
         == Next(rules, Next(rules, Next(rules, Run(rules, s, before), Claim(w, Answered)), Verify(w, true)),
             Rollback(w, Answered))
  {
    RunOneMore(rules, s, before, Claim(w, Answered));
    RunOneMore(rules, s, before + [Claim(w, Answered)], Verify(w, true));
    RunOneMore(rules, s, before + [Claim(w, Answered)] + [Verify(w, true)], Rollback(w, Answered));
  }

  /** The single path adds nothing to Bloom, so the batch accepts the pair again. */
  lemma SingleThenBatchBothAccept(rules: Rules, p: Pair)
    requires rules.singles >= 1 && rules.batches >= 1
    ensures BothAccepted(Run(rules, EMPTY, SingleThenBatch(p)), p, p)
  {
    var s := State({KeyOf(p)}, {}, [Worker(p, Done(true))], multiset{});
    SingleFirstEnds(rules, p);
    RunOneMore(rules, EMPTY, SingleFirst(p), Begin(p));
    SecondBegins(rules, s, p, p);
    CommandsRun(rules, EMPTY, SingleFirst(p) + [Begin(p)], 1, ANSWERED);
    FourCommandsDo(rules, s.(workers := Two(p, Done(true), p, Looking)), 1, ANSWERED, false);
  }

  // ---- the exact conditions ----

  /** A run that accepts the pair twice, if batches may run and not only one at a time, alone and unforgetting. */
  function MeetingRun(rules: Rules, p: Pair): seq<Step> {
    if rules.batches >= 2 then Overlapping(p)
    else if rules.singles >= 1 then SingleThenBatch(p)
    else OneByOne(p, Forgetful(rules).0, p, Forgetful(rules).1)
  }

  lemma MeetingAcceptsTwice(rules: Rules, p: Pair)
    requires rules.batches >= 1 && rules != ONE_BATCH
    ensures BothAccepted(Run(rules, Start({}, {}), MeetingRun(rules, p)), p, p)
  {
    if rules.batches >= 2 {
      TwoBatchesBothAccept(rules, p);
    } else if rules.singles >= 1 {
      SingleThenBatchBothAccept(rules, p);
    } else {
      ForgettingAcceptsTwice(rules, p);
    }
  }

  ghost predicate AlwaysPairsOnce(rules: Rules) {
    forall live, bloom, steps :: PairsOnce(Run(rules, Start(live, bloom), steps))
  }

  /**
   * Whatever Redis holds at the start, however the commands interleave and keys expire, and whichever
   * other replies are lost: a pair is accepted at most once within its TTL exactly when only single
   * requests may be busy with it; or one batch at a time, whose lookups are answered and whose adds
   * and records take effect.
   */
  lemma PairsOnceIff(rules: Rules)
    ensures AlwaysPairsOnce(rules) <==> rules.batches == 0 || rules == ONE_BATCH
  {
    if rules.batches >= 1 && rules != ONE_BATCH {
      var p := ("o", "e");
      MeetingAcceptsTwice(rules, p);
      BothAcceptedIsTwice(Run(rules, Start({}, {}), MeetingRun(rules, p)), p, p);
    } else {
      forall live: set<string>, bloom: set<Pair>, steps: seq<Step>
        ensures PairsOnce(Run(rules, Start(live, bloom), steps))
      {
        if rules.batches == 0 {
          SinglesAcceptOnce(rules, live, bloom, steps);
        } else {
          OneBatchPerPair(live, bloom, steps);
        }
      }
    }
  }

  /** Only events of these orgs are submitted. */
  ghost predicate Over(orgs: set<string>, steps: seq<Step>) {
    forall k :: 0 <= k < |steps| && (steps[k].Begin? || steps[k].Arrive?) ==> steps[k].pair.0 in orgs
  }

  lemma {:induction false} WorkersAreOver(orgs: set<string>, rules: Rules, live: set<string>, bloom: set<Pair>,
                                          steps: seq<Step>, w: nat)
    requires Over(orgs, steps) && w < |Run(rules, Start(live, bloom), steps).workers|
    ensures Run(rules, Start(live, bloom), steps).workers[w].pair.0 in orgs
    decreases |steps|
  {
    if steps != [] {
      var before := steps[..|steps| - 1];
      StepAddsOwnWorker(rules, Run(rules, Start(live, bloom), before), steps[|steps| - 1], w);
      if w < |Run(rules, Start(live, bloom), before).workers| {
        WorkersAreOver(orgs, rules, live, bloom, before, w);
      }
    }
  }

  lemma StepAddsOwnWorker(rules: Rules, s: State, step: Step, w: nat)
    requires w < |Next(rules, s, step).workers|
    ensures if w < |s.workers| then Next(rules, s, step).workers[w].pair == s.workers[w].pair
            else (step.Begin? || step.Arrive?) && Next(rules, s, step).workers[w].pair == step.pair
  {
  }

  /** For runs over these orgs, no idempotency key is ever accepted twice within its TTL. */
  ghost predicate AlwaysKeysOnce(rules: Rules, orgs: set<string>) {
    forall live, bloom, steps :: Over(orgs, steps) ==> KeysOnce(Run(rules, Start(live, bloom), steps))
  }

  lemma {:induction false} NoColonExtensionKeyOnce(orgs: set<string>, live: set<string>, bloom: set<Pair>,
                                                   steps: seq<Step>, key: string)
    requires NoColonExtension(orgs) && Over(orgs, steps)
    ensures var s := Run(ONE_BATCH, Start(live, bloom), steps);
      Count(s.workers, OfKey(key), AcceptedEnd) <= 1 + s.expiries[key]
  {
    var s := Run(ONE_BATCH, Start(live, bloom), steps);
    if i :| 0 <= i < |s.workers| && s.workers[i].Key() == key {
      var p := s.workers[i].pair;
      forall w | 0 <= w < |s.workers| && s.workers[w].Key() == KeyOf(p)
        ensures s.workers[w].pair == p
      {
        var q := s.workers[w].pair;
        WorkersAreOver(orgs, ONE_BATCH, live, bloom, steps, i);
        WorkersAreOver(orgs, ONE_BATCH, live, bloom, steps, w);
        KeyIsNewForOthers(orgs, q.0, q.1, p.0, p.1);
      }
      KeyIsPair(s.workers, p, AcceptedEnd);
      OneBatchPerPairAcceptsOnce(live, bloom, steps, p);
    } else {
      CountIsZero(s.workers, OfKey(key), AcceptedEnd);
    }
  }

  lemma {:induction false} NoColonExtensionKeysOnce(orgs: set<string>, live: set<string>, bloom: set<Pair>,
      steps: seq<Step>)
    requires NoColonExtension(orgs) && Over(orgs, steps)
    ensures KeysOnce(Run(ONE_BATCH, Start(live, bloom), steps))
  {
    forall key: string
      ensures var s := Run(ONE_BATCH, Start(live, bloom), steps);
        Count(s.workers, OfKey(key), AcceptedEnd) <= 1 + s.expiries[key]
    {
      NoColonExtensionKeyOnce(orgs, live, bloom, steps, key);
    }
  }

  lemma {:induction false} NoOrgsKeysOnce(rules: Rules, live: set<string>, bloom: set<Pair>, steps: seq<Step>)
    requires Over({}, steps)
    ensures KeysOnce(Run(rules, Start(live, bloom), steps))
  {
    if |Run(rules, Start(live, bloom), steps).workers| > 0 {
      WorkersAreOver({}, rules, live, bloom, steps, 0);
    }
  }

  lemma OneByOneIsOver(orgs: set<string>, p: Pair, r0: Replies, q: Pair, r1: Replies)
    requires p.0 in orgs && q.0 in orgs
    ensures Over(orgs, OneByOne(p, r0, q, r1))
  {
  }

  lemma OthersAreOver(orgs: set<string>, p: Pair)
    requires p.0 in orgs
    ensures Over(orgs, Overlapping(p)) && Over(orgs, SingleThenBatch(p))
  {
  }

  lemma MeetingIsOver(rules: Rules, orgs: set<string>, p: Pair)
    requires p.0 in orgs
    ensures Over(orgs, MeetingRun(rules, p))
  {
    OneByOneIsOver(orgs, p, Forgetful(rules).0, p, Forgetful(rules).1);
    OthersAreOver(orgs, p);
  }

  lemma MeetingBreaksKeysOnce(rules: Rules, orgs: set<string>, o: string)
    requires rules.batches >= 1 && rules != ONE_BATCH && o in orgs
    ensures !AlwaysKeysOnce(rules, orgs)
  {
    var p := (o, "e");
    MeetingAcceptsTwice(rules, p);
    MeetingIsOver(rules, orgs, p);
    BothAcceptedIsTwice(Run(rules, Start({}, {}), MeetingRun(rules, p)), p, p);
  }

  lemma ColonExtensionBreaksKeysOnce(orgs: set<string>, o: string, o': string)
    requires o in orgs && o' in orgs && ColonExtends(o, o')
    ensures !AlwaysKeysOnce(ONE_BATCH, orgs)
  {
    var e0, e1 := ExtendedOrgsCollide(o, o');
    var p, q := PairOf(e0), PairOf(e1);
    DifferentPairsBothAccept(p, q);
    OneByOneIsOver(orgs, p, ANSWERED, q, ANSWERED);
    BothAcceptedIsTwice(Run(ONE_BATCH, Start({}, {}), OneByOne(p, ANSWERED, q, ANSWERED)), p, q);
  }

  /**
   * An idempotency key is accepted at most once within its TTL, in every run over a deployment's orgs,
   * exactly when that condition holds and, where batches run, no org id extends another by a colon
   * (or there is no org at all).
   */
  lemma KeysOnceIff(rules: Rules, orgs: set<string>)
    ensures AlwaysKeysOnce(rules, orgs) <==>
      rules.batches == 0 || orgs == {} || (rules == ONE_BATCH && NoColonExtension(orgs))
  {
    if rules.batches == 0 || orgs == {} || (rules == ONE_BATCH && NoColonExtension(orgs)) {
      forall live: set<string>, bloom: set<Pair>, steps: seq<Step> | Over(orgs, steps)
        ensures KeysOnce(Run(rules, Start(live, bloom), steps))
      {
        if rules.batches == 0 {
          SinglesAcceptOnce(rules, live, bloom, steps);
        } else if orgs == {} {
          NoOrgsKeysOnce(rules, live, bloom, steps);
        } else {
          NoColonExtensionKeysOnce(orgs, live, bloom, steps);
        }
      }
    } else if rules != ONE_BATCH {
      var o :| o in orgs;
      MeetingBreaksKeysOnce(rules, orgs, o);
    } else {
      var o, o' :| o in orgs && o' in orgs && ColonExtends(o, o');
      ColonExtensionBreaksKeysOnce(orgs, o, o');
    }
  }
}
