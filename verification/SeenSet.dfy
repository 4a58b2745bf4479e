/**
 * While Redis answers: when Bloom in front of SETNX, fed by batches and by the single path, accepts
 * exactly what one plain set of seen (org, event id) pairs would accept.
 */
module SeenSet {
  import opened Keys
  import opened Models
  import opened RedisDedup
  import opened BatchDedup
  import SingleEvent

  type Pair = (string, string)

  function PairOf(e: UsageEvent): Pair {
    (e.orgId, e.eventId)
  }

  function KeyOf(p: Pair): string {
    IdemKey(p.0, p.1)
  }

  // ---- the simple form ----

  /** Verdicts depend on `seen` alone; `indexed` notes the pairs that a batch accepted (or Bloom held at first). */
  datatype Book = Book(seen: set<Pair>, indexed: set<Pair>)

  function SeenStep(gate: Gate, b: Book, e: UsageEvent): (Book, Verdict) {
    if !gate.KnowsOrg(e) then (b, UnknownOrg)
    else if !gate.KnowsEndUser(e) then (b, EndUserNotInOrg)
    else if PairOf(e) in b.seen then (b, Duplicate)
    else (Book(b.seen + {PairOf(e)}, b.indexed + {PairOf(e)}), Accepted)
  }

  /** The single path looks at the seen set before it checks org and end user. */
  function SeenSingle(gate: Gate, b: Book, e: UsageEvent): (Book, Verdict) {
    if PairOf(e) in b.seen then (b, Duplicate)
    else if gate.Admits(e) then (b.(seen := b.seen + {PairOf(e)}), Accepted)
    else (b, GateVerdict(gate, e))
  }

  function GateVerdict(gate: Gate, e: UsageEvent): Verdict {
    if gate.KnowsOrg(e) then EndUserNotInOrg else UnknownOrg
  }

  function SeenAt(gate: Gate, b: Book, events: seq<UsageEvent>, n: nat): Book
    requires n <= |events|
  {
    if n == 0 then b else SeenStep(gate, SeenAt(gate, b, events, n - 1), events[n - 1]).0
  }

  function SeenVerdicts(gate: Gate, b: Book, events: seq<UsageEvent>): (vs: seq<Verdict>)
    ensures |vs| == |events|
  {
    seq(|events|, i requires 0 <= i < |events| => SeenStep(gate, SeenAt(gate, b, events, i), events[i]).1)
  }

  // ---- one answered deduplication, for every pair at once ----

  const ANSWERED := Replies(Answered, Answered, Answered, Answered, Answered)

  /** What an answered deduplication decides, and all that it changes. */
  lemma DedupOutcome(cfg: Config, w: World, e: UsageEvent, falsePositive: bool)
    requires cfg.Valid()
    ensures var (w', isFresh) := Dedup(cfg, w, e, falsePositive, ANSWERED);
      && (isFresh <==> !(KeyOf(PairOf(e)) in w.redis.idem
                         && (w.redis.InBloom(cfg.Filter(e.orgId, e.eventId), e.eventId) || falsePositive)))
      && w'.redis.idem == w.redis.idem + {KeyOf(PairOf(e))}
      && forall o, x :: w'.redis.InBloom(cfg.Filter(o, x), x) <==>
           w.redis.InBloom(cfg.Filter(o, x), x) || (isFresh && (o, x) == PairOf(e))
  {
    var (w', isFresh) := Dedup(cfg, w, e, falsePositive, ANSWERED);
    var filter := cfg.Filter(e.orgId, e.eventId);
    assert forall f, x :: w'.redis.InBloom(f, x) <==>
        w.redis.InBloom(f, x) || (isFresh && f == filter && x == e.eventId);
    forall o, x
      ensures w'.redis.InBloom(cfg.Filter(o, x), x) <==>
        w.redis.InBloom(cfg.Filter(o, x), x) || (isFresh && (o, x) == PairOf(e))
    {
      if cfg.Filter(o, x) == filter && x == e.eventId {
        BloomKeyInjective(o, e.orgId, cfg.Shard(x));
      }
    }
  }

  // ---- how Redis represents the book ----

  ghost predicate Represents(orgs: set<string>, redis: Redis, seen: set<Pair>) {
    forall o, e :: o in orgs ==> ((o, e) in seen <==> IdemKey(o, e) in redis.idem)
  }

  ghost predicate Tracks(orgs: set<string>, cfg: Config, redis: Redis, b: Book)
    requires cfg.Valid()
  {
    && Represents(orgs, redis, b.seen)
    && forall o, e :: o in orgs ==> ((o, e) in b.indexed <==> redis.InBloom(cfg.Filter(o, e), e))
  }

  /** BF.EXISTS answers yes for an admitted event whose pair was seen before. */
  predicate Caught(gate: Gate, b: Book, e: UsageEvent, falsePositive: bool) {
    gate.Admits(e) && PairOf(e) in b.seen ==> PairOf(e) in b.indexed || falsePositive
  }

  lemma KeyIsNewForOthers(orgs: set<string>, o: string, e: string, o': string, e': string)
    requires NoColonExtension(orgs) && o in orgs && o' in orgs
    requires IdemKey(o, e) == IdemKey(o', e')
    ensures (o, e) == (o', e')
  {
    IdemKeyCollision(o, e, o', e');
  }

  lemma ClaimedKeyRepresents(orgs: set<string>, redis: Redis, seen: set<Pair>, p: Pair, redis': Redis)
    requires NoColonExtension(orgs) && p.0 in orgs && Represents(orgs, redis, seen)
    requires redis'.idem == redis.idem + {KeyOf(p)}
    ensures Represents(orgs, redis', seen + {p})
  {
    forall o, x | o in orgs
      ensures (o, x) in seen + {p} <==> IdemKey(o, x) in redis'.idem
    {
      if IdemKey(o, x) == KeyOf(p) {
        KeyIsNewForOthers(orgs, o, x, p.0, p.1);
      }
    }
  }

  /** One event of a batch: the verdict is the seen set's exactly when a repeat is caught. */
  lemma StepRefines(orgs: set<string>, cfg: Config, gate: Gate, w: World, b: Book, e: UsageEvent, falsePositive: bool)
    requires cfg.Valid() && NoColonExtension(orgs) && e.orgId in orgs
    requires Tracks(orgs, cfg, w.redis, b)
    ensures var (w', v) := Step(cfg, gate, w, e, falsePositive, ANSWERED); var (b', v') := SeenStep(gate, b, e);
      && (v == v' <==> Caught(gate, b, e, falsePositive))
      && (Caught(gate, b, e, falsePositive) ==> Tracks(orgs, cfg, w'.redis, b'))
  {
    if gate.Admits(e) {
      DedupOutcome(cfg, w, e, falsePositive);
      assert PairOf(e) in b.seen <==> KeyOf(PairOf(e)) in w.redis.idem;
      assert PairOf(e) in b.indexed <==> w.redis.InBloom(cfg.Filter(e.orgId, e.eventId), e.eventId);
      ClaimedKeyRepresents(orgs, w.redis, b.seen, PairOf(e), Dedup(cfg, w, e, falsePositive, ANSWERED).0.redis);
      assert PairOf(e) in b.seen ==> b.seen + {PairOf(e)} == b.seen;
    }
  }

  // ---- runs of batches, single requests and expiries ----

  datatype Op =
    | Submit(gate: Gate, events: seq<UsageEvent>, falsePositives: seq<bool>)
    | Single(gate: Gate, e: UsageEvent)
    | Expire(keys: set<string>)
  {
    ghost predicate Over(orgs: set<string>) {
      && (Submit? ==> |falsePositives| == |events| && forall i :: 0 <= i < |events| ==> events[i].orgId in orgs)
      && (Single? ==> e.orgId in orgs)
    }

    function AsBatch(cfg: Config, redis: Redis): Batch
      requires Submit?
    {
      Batch(cfg, gate, redis, events, falsePositives, seq(|events|, _ => ANSWERED))
    }
  }

  function Live(seen: set<Pair>, keys: set<string>): set<Pair> {
    set p | p in seen && KeyOf(p) !in keys
  }

  ghost predicate AllOver(orgs: set<string>, ops: seq<Op>) {
    forall k :: 0 <= k < |ops| ==> ops[k].Over(orgs)
  }

  function SingleVerdict(gate: Gate, e: UsageEvent, outcome: SingleEvent.Outcome): Verdict {
    match outcome
    case Accepted => Accepted
    case Duplicate => Duplicate
    case _ => GateVerdict(gate, e)
  }

  function RedisStep(cfg: Config, redis: Redis, op: Op): (Redis, seq<Verdict>)
    requires cfg.Valid() && (op.Submit? ==> |op.falsePositives| == |op.events|)
  {
    match op
    case Submit(_, _, _) =>
      var b := op.AsBatch(cfg, redis);
      (b.Final().redis, b.Verdicts())
    case Single(gate, e) =>
      var (outcome, live) := SingleEvent.Undisturbed(redis.idem, KeyOf(PairOf(e)), Answered, gate.Admits(e), Answered);
      (redis.(idem := live), [SingleVerdict(gate, e, outcome)])
    case Expire(keys) => (redis.(idem := redis.idem - keys), [])
  }

  function SeenOpStep(b: Book, op: Op): (Book, seq<Verdict>) {
    match op
    case Submit(gate, events, _) => (SeenAt(gate, b, events, |events|), SeenVerdicts(gate, b, events))
    case Single(gate, e) => (SeenSingle(gate, b, e).0, [SeenSingle(gate, b, e).1])
    case Expire(keys) => (b.(seen := Live(b.seen, keys)), [])
  }

  /** What each operation of the run answers, with the real engine and with the seen set. */
  ghost function RedisRun(orgs: set<string>, cfg: Config, redis: Redis, ops: seq<Op>): (Redis, seq<seq<Verdict>>)
    requires cfg.Valid() && AllOver(orgs, ops)
    decreases |ops|
  {
    if ops == [] then (redis, []) else
      var (redis', vs) := RedisStep(cfg, redis, ops[0]);
      var (end, rest) := RedisRun(orgs, cfg, redis', ops[1..]);
      (end, [vs] + rest)
  }

  function SeenRun(b: Book, ops: seq<Op>): (Book, seq<seq<Verdict>>)
    decreases |ops|
  {
    if ops == [] then (b, []) else
      var (b', vs) := SeenOpStep(b, ops[0]);
      var (end, rest) := SeenRun(b', ops[1..]);
      (end, [vs] + rest)
  }

  /** Every event of the operation that was seen before is caught. */
  ghost predicate OpCaught(b: Book, op: Op) {
    op.Submit? && |op.falsePositives| == |op.events| ==>
      forall i :: 0 <= i < |op.events| ==>
        Caught(op.gate, SeenAt(op.gate, b, op.events, i), op.events[i], op.falsePositives[i])
  }

  ghost predicate RunCaught(b: Book, ops: seq<Op>)
    decreases |ops|
  {
    ops == [] || (OpCaught(b, ops[0]) && RunCaught(SeenOpStep(b, ops[0]).0, ops[1..]))
  }

  /** The first n events of the batch were caught if seen before. */
  ghost predicate CaughtTo(b: Book, op: Op, n: nat)
    requires op.Submit? && n <= |op.events| == |op.falsePositives|
  {
    forall i :: 0 <= i < n ==> Caught(op.gate, SeenAt(op.gate, b, op.events, i), op.events[i], op.falsePositives[i])
  }

  /** Redis tracks the book before event n of the batch. */
  ghost predicate TracksAt(orgs: set<string>, cfg: Config, redis: Redis, b: Book, op: Op, n: nat)
    requires cfg.Valid() && op.Submit? && n <= |op.events| == |op.falsePositives|
  {
    Tracks(orgs, cfg, op.AsBatch(cfg, redis).WorldAt(n).redis, SeenAt(op.gate, b, op.events, n))
  }

  lemma EventRefines(orgs: set<string>, cfg: Config, redis: Redis, b: Book, op: Op, n: nat)
    requires cfg.Valid() && NoColonExtension(orgs) && op.Submit? && op.Over(orgs) && n < |op.events|
    requires TracksAt(orgs, cfg, redis, b, op, n)
    ensures var b' := SeenAt(op.gate, b, op.events, n);
      op.AsBatch(cfg, redis).VerdictAt(n) == SeenStep(op.gate, b', op.events[n]).1 <==>
        Caught(op.gate, b', op.events[n], op.falsePositives[n])
    ensures Caught(op.gate, SeenAt(op.gate, b, op.events, n), op.events[n], op.falsePositives[n]) ==>
      TracksAt(orgs, cfg, redis, b, op, n + 1)
  {
    var batch, b' := op.AsBatch(cfg, redis), SeenAt(op.gate, b, op.events, n);
    StepRefines(orgs, cfg, op.gate, batch.WorldAt(n), b', op.events[n], op.falsePositives[n]);
    assert batch.StepAt(n) == Step(cfg, op.gate, batch.WorldAt(n), op.events[n], op.falsePositives[n], ANSWERED);
    assert batch.WorldAt(n + 1) == batch.StepAt(n).0;
    assert SeenAt(op.gate, b, op.events, n + 1) == SeenStep(op.gate, b', op.events[n]).0;
  }

  lemma {:induction false} BatchTracks(orgs: set<string>, cfg: Config, redis: Redis, b: Book, op: Op, n: nat)
    requires cfg.Valid() && NoColonExtension(orgs) && op.Submit? && op.Over(orgs) && n <= |op.events|
    requires Tracks(orgs, cfg, redis, b) && CaughtTo(b, op, n)
    ensures TracksAt(orgs, cfg, redis, b, op, n)
  {
    if n == 0 {
      assert op.AsBatch(cfg, redis).WorldAt(0).redis == redis;
    } else {
      var m := n - 1;
      assert Caught(op.gate, SeenAt(op.gate, b, op.events, m), op.events[m], op.falsePositives[m]);
      BatchTracks(orgs, cfg, redis, b, op, m);
      EventRefines(orgs, cfg, redis, b, op, m);
      assert m + 1 == n;
    }
  }

  lemma {:induction false} CaughtBatchAgrees(orgs: set<string>, cfg: Config, redis: Redis, b: Book, op: Op)
    requires cfg.Valid() && NoColonExtension(orgs) && op.Submit? && op.Over(orgs)
    requires Tracks(orgs, cfg, redis, b) && OpCaught(b, op)
    ensures op.AsBatch(cfg, redis).Verdicts() == SeenVerdicts(op.gate, b, op.events)
    ensures Tracks(orgs, cfg, op.AsBatch(cfg, redis).Final().redis, SeenAt(op.gate, b, op.events, |op.events|))
  {
    BatchTracks(orgs, cfg, redis, b, op, |op.events|);
    forall i | 0 <= i < |op.events|
      ensures op.AsBatch(cfg, redis).Verdicts()[i] == SeenVerdicts(op.gate, b, op.events)[i]
    {
      BatchTracks(orgs, cfg, redis, b, op, i);
      EventRefines(orgs, cfg, redis, b, op, i);
    }
  }

  /** The first event that is not caught is where the verdicts part. */
  lemma {:induction false} UncaughtBatchDiffers(orgs: set<string>, cfg: Config, redis: Redis, b: Book, op: Op, n: nat)
    requires cfg.Valid() && NoColonExtension(orgs) && op.Submit? && op.Over(orgs) && n < |op.events|
    requires Tracks(orgs, cfg, redis, b)
    requires !Caught(op.gate, SeenAt(op.gate, b, op.events, n), op.events[n], op.falsePositives[n])
    ensures op.AsBatch(cfg, redis).Verdicts() != SeenVerdicts(op.gate, b, op.events)
    decreases n
  {
    if i :| 0 <= i < n && !Caught(op.gate, SeenAt(op.gate, b, op.events, i), op.events[i], op.falsePositives[i]) {
      UncaughtBatchDiffers(orgs, cfg, redis, b, op, i);
    } else {
      BatchTracks(orgs, cfg, redis, b, op, n);
      EventRefines(orgs, cfg, redis, b, op, n);
      assert op.AsBatch(cfg, redis).Verdicts()[n] != SeenVerdicts(op.gate, b, op.events)[n];
    }
  }

  lemma SingleRefines(orgs: set<string>, cfg: Config, redis: Redis, b: Book, gate: Gate, e: UsageEvent)
    requires cfg.Valid() && NoColonExtension(orgs) && e.orgId in orgs
    requires Tracks(orgs, cfg, redis, b)
    ensures var (redis', vs) := RedisStep(cfg, redis, Single(gate, e)); var (b', ws) := SeenOpStep(b, Single(gate, e));
      vs == ws && Tracks(orgs, cfg, redis', b')
  {
    assert PairOf(e) in b.seen <==> KeyOf(PairOf(e)) in redis.idem;
    var redis' := RedisStep(cfg, redis, Single(gate, e)).0;
    if redis'.idem != redis.idem {
      ClaimedKeyRepresents(orgs, redis, b.seen, PairOf(e), redis');
    }
    assert forall f, x :: redis'.InBloom(f, x) <==> redis.InBloom(f, x);
  }

  lemma {:induction false} OpRefines(orgs: set<string>, cfg: Config, redis: Redis, b: Book, op: Op)
    requires cfg.Valid() && NoColonExtension(orgs) && op.Over(orgs)
    requires Tracks(orgs, cfg, redis, b)
    ensures var (redis', vs) := RedisStep(cfg, redis, op); var (b', ws) := SeenOpStep(b, op);
      (vs == ws <==> OpCaught(b, op)) && (OpCaught(b, op) ==> Tracks(orgs, cfg, redis', b'))
  {
    match op
    case Submit(gate, events, falsePositives) =>
      if OpCaught(b, op) {
        CaughtBatchAgrees(orgs, cfg, redis, b, op);
      } else {
        var n :| 0 <= n < |events| && !Caught(gate, SeenAt(gate, b, events, n), events[n], falsePositives[n]);
        UncaughtBatchDiffers(orgs, cfg, redis, b, op, n);
      }
    case Single(gate, e) => SingleRefines(orgs, cfg, redis, b, gate, e);
    case Expire(keys) =>
      var redis' := RedisStep(cfg, redis, op).0;
      assert forall f, x :: redis'.InBloom(f, x) <==> redis.InBloom(f, x);
      assert Represents(orgs, redis', Live(b.seen, keys));
  }

  /**
   * Over every run that mixes batches, single requests and expiries, the engine's verdicts are those
   * of one shared seen set if and only if every repeat in a batch is caught.
   */
  lemma {:induction false} RunAgreesIffCaught(orgs: set<string>, cfg: Config, redis: Redis, b: Book, ops: seq<Op>)
    requires cfg.Valid() && NoColonExtension(orgs) && AllOver(orgs, ops)
    requires Tracks(orgs, cfg, redis, b)
    ensures RedisRun(orgs, cfg, redis, ops).1 == SeenRun(b, ops).1 <==> RunCaught(b, ops)
    ensures RunCaught(b, ops) ==> Tracks(orgs, cfg, RedisRun(orgs, cfg, redis, ops).0, SeenRun(b, ops).0)
    decreases |ops|
  {
    if ops != [] {
      assert ops[0].Over(orgs);
      OpRefines(orgs, cfg, redis, b, ops[0]);
      var (redis', vs) := RedisStep(cfg, redis, ops[0]);
      var (b', ws) := SeenOpStep(b, ops[0]);
      assert RedisRun(orgs, cfg, redis, ops).1 == [vs] + RedisRun(orgs, cfg, redis', ops[1..]).1;
      assert SeenRun(b, ops).1 == [ws] + SeenRun(b', ops[1..]).1;
      OneMoreAgrees(vs, RedisRun(orgs, cfg, redis', ops[1..]).1, ws, SeenRun(b', ops[1..]).1);
      if OpCaught(b, ops[0]) {
        RunAgreesIffCaught(orgs, cfg, redis', b', ops[1..]);
      }
    }
  }

  lemma OneMoreAgrees(vs: seq<Verdict>, rest: seq<seq<Verdict>>, ws: seq<Verdict>, rest': seq<seq<Verdict>>)
    ensures [vs] + rest == [ws] + rest' <==> vs == ws && rest == rest'
  {
    assert ([vs] + rest)[0] == vs && ([vs] + rest)[1..] == rest;
    assert ([ws] + rest')[0] == ws && ([ws] + rest')[1..] == rest';
  }

  // ---- whatever the false positives ----

  /** The operation without any false positive. */
  function Quiet(op: Op): Op {
    if op.Submit? then op.(falsePositives := seq(|op.falsePositives|, _ => false)) else op
  }

  function QuietRun(ops: seq<Op>): (quiet: seq<Op>)
    ensures |quiet| == |ops|
  {
    seq(|ops|, k requires 0 <= k < |ops| => Quiet(ops[k]))
  }

  /** The runs submit the same things; only false positives differ. */
  ghost predicate SameInput(ops: seq<Op>, ops': seq<Op>) {
    QuietRun(ops) == QuietRun(ops')
  }

  /**
   * A repeat in a batch is never of a pair that only the single path holds: seen, so its key is
   * live, but never accepted by a batch, so it is not in Bloom.
   */
  ghost predicate NoSinglePathRepeat(b: Book, ops: seq<Op>) {
    RunCaught(b, QuietRun(ops))
  }

  lemma {:induction false} QuietIsHardest(b: Book, ops: seq<Op>)
    requires RunCaught(b, QuietRun(ops))
    ensures RunCaught(b, ops)
    decreases |ops|
  {
    if ops != [] {
      var quiet := QuietRun(ops);
      assert quiet[1..] == QuietRun(ops[1..]);
      assert SeenOpStep(b, quiet[0]) == SeenOpStep(b, ops[0]);
      assert OpCaught(b, ops[0]) by {
        if ops[0].Submit? && |ops[0].falsePositives| == |ops[0].events| {
          forall i | 0 <= i < |ops[0].events|
            ensures Caught(ops[0].gate, SeenAt(ops[0].gate, b, ops[0].events, i), ops[0].events[i],
                ops[0].falsePositives[i])
          {
            assert Caught(quiet[0].gate, SeenAt(quiet[0].gate, b, quiet[0].events, i), quiet[0].events[i],
                quiet[0].falsePositives[i]);
          }
        }
      }
      QuietIsHardest(SeenOpStep(b, ops[0]).0, ops[1..]);
    }
  }

  ghost predicate Agrees(orgs: set<string>, cfg: Config, redis: Redis, b: Book, ops: seq<Op>)
    requires cfg.Valid()
  {
    AllOver(orgs, ops) ==> RedisRun(orgs, cfg, redis, ops).1 == SeenRun(b, ops).1
  }

  /**
   * Whatever the false positives, the engine agrees with the shared seen set, if and only if no
   * batch repeats an event that the single path accepted and no batch did.
   */
  lemma AgreesIffNoSinglePathRepeat(orgs: set<string>, cfg: Config, redis: Redis, b: Book, ops: seq<Op>)
    requires cfg.Valid() && NoColonExtension(orgs) && AllOver(orgs, ops)
    requires Tracks(orgs, cfg, redis, b)
    ensures (forall ops' :: SameInput(ops, ops') ==> Agrees(orgs, cfg, redis, b, ops')) <==> NoSinglePathRepeat(b, ops)
  {
    if NoSinglePathRepeat(b, ops) {
      forall ops' | SameInput(ops, ops')
        ensures Agrees(orgs, cfg, redis, b, ops')
      {
        QuietIsHardest(b, ops');
        if AllOver(orgs, ops') {
          RunAgreesIffCaught(orgs, cfg, redis, b, ops');
        }
      }
    } else {
      var quiet := QuietRun(ops);
      assert QuietRun(quiet) == quiet;
      assert AllOver(orgs, quiet) by {
        forall k | 0 <= k < |quiet|
          ensures quiet[k].Over(orgs)
        {
          assert ops[k].Over(orgs);
        }
      }
      RunAgreesIffCaught(orgs, cfg, redis, b, quiet);
      assert SameInput(ops, quiet) && !Agrees(orgs, cfg, redis, b, quiet);
    }
  }

  // ---- runs of batches and expiries alone ----

  /** Every live idempotency key is in its Bloom shard. */
  ghost predicate Indexed(orgs: set<string>, cfg: Config, redis: Redis)
    requires cfg.Valid()
  {
    forall o, e :: o in orgs && IdemKey(o, e) in redis.idem ==> redis.InBloom(cfg.Filter(o, e), e)
  }

  ghost predicate NoSingles(ops: seq<Op>) {
    forall k :: 0 <= k < |ops| ==> !ops[k].Single?
  }

  ghost predicate SeenIsIndexed(orgs: set<string>, b: Book) {
    forall p :: p in b.seen && p.0 in orgs ==> p in b.indexed
  }

  /** The pairs of these orgs that Bloom holds. */
  function BloomPairs(orgs: set<string>, cfg: Config, redis: Redis): (ps: set<Pair>)
    requires cfg.Valid()
  {
    set o, f, x | o in orgs && f in redis.bloom && x in redis.bloom[f] && cfg.Filter(o, x) == f :: (o, x)
  }

  lemma {:induction false} BatchKeepsIndexed(orgs: set<string>, gate: Gate, b: Book, events: seq<UsageEvent>, n: nat)
    requires n <= |events| && SeenIsIndexed(orgs, b)
    ensures SeenIsIndexed(orgs, SeenAt(gate, b, events, n))
  {
    if n > 0 {
      BatchKeepsIndexed(orgs, gate, b, events, n - 1);
    }
  }

  lemma {:induction false} WithoutSinglesAllIsCaught(orgs: set<string>, b: Book, ops: seq<Op>)
    requires AllOver(orgs, ops) && NoSingles(ops) && SeenIsIndexed(orgs, b)
    ensures RunCaught(b, ops) && SeenIsIndexed(orgs, SeenRun(b, ops).0)
    decreases |ops|
  {
    if ops != [] {
      var op := ops[0];
      assert op.Over(orgs) && !op.Single?;
      if op.Submit? {
        forall i | 0 <= i <= |op.events|
          ensures SeenIsIndexed(orgs, SeenAt(op.gate, b, op.events, i))
        {
          BatchKeepsIndexed(orgs, op.gate, b, op.events, i);
        }
      }
      WithoutSinglesAllIsCaught(orgs, SeenOpStep(b, op).0, ops[1..]);
    }
  }

  /**
   * For batches and expiries, starting where every live key is in its Bloom shard, the fast form
   * refines the simple form over whole runs, and keeps the index invariant.
   */
  lemma RunRefines(orgs: set<string>, cfg: Config, redis: Redis, seen: set<Pair>, ops: seq<Op>)
    requires cfg.Valid() && NoColonExtension(orgs) && AllOver(orgs, ops) && NoSingles(ops)
    requires Represents(orgs, redis, seen) && Indexed(orgs, cfg, redis)
    ensures var (redis', vs) := RedisRun(orgs, cfg, redis, ops);
      var (b', ws) := SeenRun(Book(seen, BloomPairs(orgs, cfg, redis)), ops);
      vs == ws && Represents(orgs, redis', b'.seen) && Indexed(orgs, cfg, redis')
  {
    var b := Book(seen, BloomPairs(orgs, cfg, redis));
    assert Tracks(orgs, cfg, redis, b);
    WithoutSinglesAllIsCaught(orgs, b, ops);
    RunAgreesIffCaught(orgs, cfg, redis, b, ops);
  }

  // ---- the exact condition on org ids ----

  function EventOf(org: string, id: string): UsageEvent {
    SAMPLE.(orgId := org, eventId := id)
  }

  /** A batch of this event alone, its org known. */
  function Alone(e: UsageEvent, falsePositive: bool): Op {
    Submit(Gate({e.orgId}, {}), [e], [falsePositive])
  }

  /** A batch of one admitted event is one deduplication. */
  lemma OneEventBatch(cfg: Config, redis: Redis, e: UsageEvent, falsePositive: bool)
    requires cfg.Valid() && e.endUserId == ""
    ensures var (w, isFresh) := Dedup(cfg, World(redis, {}, {}), e, falsePositive, ANSWERED);
      RedisStep(cfg, redis, Alone(e, falsePositive)) == (w.redis, [if isFresh then Accepted else Duplicate])
  {
    var b := Alone(e, falsePositive).AsBatch(cfg, redis);
    assert b.WorldAt(1) == b.StepAt(0).0;
    assert b.Verdicts() == [b.VerdictAt(0)];
  }

  lemma OneEventSeen(b: Book, e: UsageEvent, falsePositive: bool)
    requires e.endUserId == ""
    ensures SeenOpStep(b, Alone(e, falsePositive)) ==
      (SeenStep(Gate({e.orgId}, {}), b, e).0, [if PairOf(e) in b.seen then Duplicate else Accepted])
  {
    var gate := Gate({e.orgId}, {});
    assert SeenAt(gate, b, [e], 1) == SeenStep(gate, SeenAt(gate, b, [e], 0), [e][0]).0;
    assert SeenVerdicts(gate, b, [e]) == [SeenStep(gate, b, e).1];
  }

  lemma {:induction false} TwoOpRuns(orgs: set<string>, cfg: Config, redis: Redis, b: Book, op0: Op, op1: Op)
    requires cfg.Valid() && op0.Over(orgs) && op1.Over(orgs)
    ensures AllOver(orgs, [op0, op1])
    ensures var (redis1, vs0) := RedisStep(cfg, redis, op0);
      RedisRun(orgs, cfg, redis, [op0, op1]).1 == [vs0, RedisStep(cfg, redis1, op1).1]
    ensures var (b1, vs0) := SeenOpStep(b, op0);
      SeenRun(b, [op0, op1]).1 == [vs0, SeenOpStep(b1, op1).1]
  {
    var ops, last := [op0, op1], [op1];
    assert ops[1..] == last && last[1..] == [];
    assert AllOver(orgs, last) && AllOver(orgs, ops);
    var (redis1, vs0) := RedisStep(cfg, redis, op0);
    var (redis2, vs1) := RedisStep(cfg, redis1, op1);
    assert RedisRun(orgs, cfg, redis2, last[1..]) == (redis2, []);
    assert RedisRun(orgs, cfg, redis1, last) == (redis2, [vs1] + []);
    assert RedisRun(orgs, cfg, redis, ops) == (redis2, [vs0] + ([vs1] + []));
    var (b1, ws0) := SeenOpStep(b, op0);
    var (b2, ws1) := SeenOpStep(b1, op1);
    assert SeenRun(b2, last[1..]) == (b2, []);
    assert SeenRun(b1, last) == (b2, [ws1] + []);
    assert SeenRun(b, ops) == (b2, [ws0] + ([ws1] + []));
  }

  const NO_REDIS := Redis({}, map[])

  const NO_BOOK := Book({}, {})

  /** With the key taken, a second event that BF.EXISTS suspects is refused. */
  lemma TakenKeyIsRefused(cfg: Config, e0: UsageEvent, e1: UsageEvent)
    requires cfg.Valid() && e0.endUserId == "" && e1.endUserId == ""
    requires IdemKey(e0.orgId, e0.eventId) == IdemKey(e1.orgId, e1.eventId)
    ensures var (redis1, vs0) := RedisStep(cfg, NO_REDIS, Alone(e0, false));
      vs0 == [Accepted] && RedisStep(cfg, redis1, Alone(e1, true)).1 == [Duplicate]
  {
    OneEventBatch(cfg, NO_REDIS, e0, false);
    var redis1 := RedisStep(cfg, NO_REDIS, Alone(e0, false)).0;
    OneEventBatch(cfg, redis1, e1, true);
  }

  /** The engine refuses the second event, because its key is taken; the seen set accepts it. */
  lemma {:induction false} CollidingEventsDisagree(orgs: set<string>, cfg: Config, e0: UsageEvent, e1: UsageEvent)
    requires cfg.Valid() && e0.endUserId == "" && e1.endUserId == ""
    requires e0.orgId in orgs && e1.orgId in orgs && PairOf(e0) != PairOf(e1)
    requires IdemKey(e0.orgId, e0.eventId) == IdemKey(e1.orgId, e1.eventId)
    ensures var ops := [Alone(e0, false), Alone(e1, true)];
      && AllOver(orgs, ops)
      && RedisRun(orgs, cfg, NO_REDIS, ops).1 == [[Accepted], [Duplicate]]
      && SeenRun(NO_BOOK, ops).1 == [[Accepted], [Accepted]]
  {
    var op0, op1 := Alone(e0, false), Alone(e1, true);
    TwoOpRuns(orgs, cfg, NO_REDIS, NO_BOOK, op0, op1);
    TakenKeyIsRefused(cfg, e0, e1);
    OneEventSeen(NO_BOOK, e0, false);
    OneEventSeen(SeenOpStep(NO_BOOK, op0).0, e1, true);
  }

  lemma ExtendedOrgsCollide(o: string, o': string) returns (e0: UsageEvent, e1: UsageEvent)
    requires ColonExtends(o, o')
    ensures e0.endUserId == "" && e1.endUserId == "" && e0.orgId == o' && e1.orgId == o && o != o'
    ensures IdemKey(e0.orgId, e0.eventId) == IdemKey(e1.orgId, e1.eventId)
  {
    e0, e1 := EventOf(o', "x"), EventOf(o, o'[|o| + 1..] + ":" + "x");
    ExtensionCollides(o, o', "x");
  }

  /**
   * For the orgs of a deployment, every run of batches agrees with the seen set if and only if no
   * org id is another one followed by a colon; colon-free ids meet that.
   */
  lemma RefinesIffNoColonExtension(orgs: set<string>, cfg: Config)
    requires cfg.Valid()
    ensures NoColonExtension(orgs)
       <==> forall ops :: NoSingles(ops) ==> Agrees(orgs, cfg, NO_REDIS, NO_BOOK, ops)
  {
    if NoColonExtension(orgs) {
      forall ops | NoSingles(ops)
        ensures Agrees(orgs, cfg, NO_REDIS, NO_BOOK, ops)
      {
        if AllOver(orgs, ops) {
          WithoutSinglesAllIsCaught(orgs, NO_BOOK, ops);
          RunAgreesIffCaught(orgs, cfg, NO_REDIS, NO_BOOK, ops);
        }
      }
    } else {
      var o, o' :| o in orgs && o' in orgs && ColonExtends(o, o');
      var e0, e1 := ExtendedOrgsCollide(o, o');
      CollidingEventsDisagree(orgs, cfg, e0, e1);
      var ops := [Alone(e0, false), Alone(e1, true)];
      assert [[Accepted], [Duplicate]][1][0] != [[Accepted], [Accepted]][1][0];
      assert NoSingles(ops) && !Agrees(orgs, cfg, NO_REDIS, NO_BOOK, ops);
    }
  }

  lemma ColonFreeIdsSuffice(orgs: set<string>)
    requires forall o <- orgs :: ColonFree(o)
    ensures NoColonExtension(orgs)
  {
    forall o, o' | o in orgs && o' in orgs
      ensures !ColonExtends(o, o')
    {
      ColonFreeNeverExtended(o, o');
    }
  }

  // ---- one event over both paths ----

  /** From an empty Redis: the single path accepts the event, and a batch accepts it again. */
  lemma {:induction false} SingleThenBatchAcceptsTwice(cfg: Config, e: UsageEvent)
    requires cfg.Valid() && e.endUserId == ""
    ensures var ops := [Single(Gate({e.orgId}, {}), e), Alone(e, false)];
      && AllOver({e.orgId}, ops)
      && RedisRun({e.orgId}, cfg, NO_REDIS, ops).1 == [[Accepted], [Accepted]]
      && SeenRun(NO_BOOK, ops).1 == [[Accepted], [Duplicate]]
  {
    var gate := Gate({e.orgId}, {});
    TwoOpRuns({e.orgId}, cfg, NO_REDIS, NO_BOOK, Single(gate, e), Alone(e, false));
    var redis1 := RedisStep(cfg, NO_REDIS, Single(gate, e)).0;
    assert redis1 == Redis({KeyOf(PairOf(e))}, map[]);
    OneEventBatch(cfg, redis1, e, false);
    OneEventSeen(SeenOpStep(NO_BOOK, Single(gate, e)).0, e, false);
  }

  ghost predicate Spares(op: Op, key: string) {
    op.Expire? ==> key !in op.keys
  }

  lemma LiveKeyStays(cfg: Config, redis: Redis, op: Op, key: string)
    requires cfg.Valid() && (op.Submit? ==> |op.falsePositives| == |op.events|)
    requires key in redis.idem && Spares(op, key)
    ensures key in RedisStep(cfg, redis, op).0.idem
  {
    if op.Submit? {
      var b := op.AsBatch(cfg, redis);
      WorldGrows(b, 0, |op.events|);
    }
  }

  lemma {:induction false} LiveKeyStaysOverRun(orgs: set<string>, cfg: Config, redis: Redis, ops: seq<Op>, key: string)
    requires cfg.Valid() && AllOver(orgs, ops) && key in redis.idem
    requires forall k :: 0 <= k < |ops| ==> Spares(ops[k], key)
    ensures key in RedisRun(orgs, cfg, redis, ops).0.idem
    decreases |ops|
  {
    if ops != [] {
      assert ops[0].Over(orgs);
      LiveKeyStays(cfg, redis, ops[0], key);
      LiveKeyStaysOverRun(orgs, cfg, RedisStep(cfg, redis, ops[0]).0, ops[1..], key);
    }
  }

  /**
   * The other order is safe: once a batch accepted an event, the single path refuses it, from any
   * Redis state and after anything else that does not expire its key.
   */
  lemma {:induction false} BatchThenSingleIsRefused(
    orgs: set<string>, cfg: Config, redis: Redis, op: Op, k: nat, between: seq<Op>, gate: Gate, e: UsageEvent)
    requires cfg.Valid() && op.Submit? && op.Over(orgs) && AllOver(orgs, between)
    requires k < |op.events| && PairOf(op.events[k]) == PairOf(e)
    requires op.AsBatch(cfg, redis).VerdictAt(k) == Accepted
    requires forall i :: 0 <= i < |between| ==> Spares(between[i], KeyOf(PairOf(e)))
    ensures var redis' := RedisRun(orgs, cfg, RedisStep(cfg, redis, op).0, between).0;
      RedisStep(cfg, redis', Single(gate, e)) == (redis', [Duplicate])
  {
    var b := op.AsBatch(cfg, redis);
    AcceptedLeavesTraces(b, k);
    WorldGrows(b, k + 1, |op.events|);
    LiveKeyStaysOverRun(orgs, cfg, RedisStep(cfg, redis, op).0, between, KeyOf(PairOf(e)));
  }
}
