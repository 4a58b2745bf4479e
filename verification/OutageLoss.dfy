/** The events that a batch loses: admitted, never seen before, and refused all the same. */
module OutageLoss {
  import opened Counting
  import opened Keys
  import opened Models
  import opened RedisDedup
  import opened BatchDedup
  import Gates
  import Bloom = InProcessBloom

  function KeyAt(b: Batch, i: nat): string
    requires i < |b.events|
  {
    IdemKey(b.events[i].orgId, b.events[i].eventId)
  }

  /** The event is admitted, its key is not live at first, and no earlier event has the same key. */
  ghost predicate FreshAt(b: Batch, j: nat)
    requires j < |b.events|
  {
    && b.gate.Admits(b.events[j])
    && KeyAt(b, j) !in b.prior.idem
    && forall i :: 0 <= i < j ==> KeyAt(b, i) != KeyAt(b, j)
  }

  lemma StepSetsOwnKey(cfg: Config, gate: Gate, w: World, e: UsageEvent, falsePositive: bool, r: Replies)
    requires cfg.Valid()
    ensures Step(cfg, gate, w, e, falsePositive, r).0.redis.idem <= w.redis.idem + {IdemKey(e.orgId, e.eventId)}
  {
  }

  lemma {:induction false} FreshKeyIsAbsent(b: Batch, j: nat, n: nat)
    requires b.Valid() && n <= j < |b.events| && FreshAt(b, j)
    ensures KeyAt(b, j) !in b.WorldAt(n).redis.idem
  {
    if n > 0 {
      FreshKeyIsAbsent(b, j, n - 1);
      StepSetsOwnKey(b.cfg, b.gate, b.WorldAt(n - 1), b.events[n - 1], b.falsePositives[n - 1], b.replies[n - 1]);
      assert b.WorldAt(n) == b.StepAt(n - 1).0;
      assert KeyAt(b, n - 1) != KeyAt(b, j);
    }
  }

  /** Bloom, or the local filter if BF.EXISTS is lost, suspects event j. */
  predicate Suspected(b: Batch, j: nat)
    requires b.Valid() && j < |b.events|
  {
    var e, w := b.events[j], b.WorldAt(j);
    if b.replies[j].lookup.Answered?
    then w.redis.InBloom(b.cfg.Filter(e.orgId, e.eventId), e.eventId) || b.falsePositives[j]
    else b.cfg.Probes(e.orgId, e.eventId) <= w.local
  }

  /** A fresh event is lost exactly when it is suspected and the duplicate check is not answered. */
  lemma FreshVerdict(b: Batch, j: nat)
    requires b.Valid() && j < |b.events| && FreshAt(b, j)
    ensures b.VerdictAt(j) == if Suspected(b, j) && b.replies[j].check.Lost? then Duplicate else Accepted
  {
    FreshKeyIsAbsent(b, j, j);
    LookupKeepsKeys(b.cfg, b.WorldAt(j), b.events[j], b.falsePositives[j], b.replies[j]);
  }

  lemma LookupKeepsKeys(cfg: Config, w: World, e: UsageEvent, falsePositive: bool, r: Replies)
    requires cfg.Valid()
    ensures var (redis, seen) := Lookup(cfg, w.redis, w.reserved, e, falsePositive, r);
      && redis.idem == w.redis.idem
      && (seen.None? <==> r.lookup.Lost?)
      && (seen.Some? ==> seen.value == (w.redis.InBloom(cfg.Filter(e.orgId, e.eventId), e.eventId) || falsePositive))
  {
  }

  // ---- how much a total outage can let through ----

  /** With Redis down, every accepted event turns on a bit of the local filter that was off. */
  lemma {:induction false} AcceptedNeedBits(b: Batch, n: nat)
    requires b.Valid() && n <= |b.events|
    requires forall k :: 0 <= k < n ==> Down(b.replies[k])
    ensures |Positions(b.Verdicts(), n)| <= |b.WorldAt(n).local|
    ensures forall p <- b.WorldAt(n).local :: p < Bloom.Modulus(b.cfg.shards)
  {
    if n > 0 {
      var m := n - 1;
      AcceptedNeedBits(b, m);
      StepNeedsBit(b.cfg, b.gate, b.WorldAt(m), b.events[m], b.falsePositives[m], b.replies[m]);
      var (w', v) := b.StepAt(m);
      assert b.WorldAt(n) == w' && b.Verdicts()[m] == v;
      assert |Positions(b.Verdicts(), n)| == |Positions(b.Verdicts(), m)| + if v == Accepted then 1 else 0;
    }
  }

  lemma StepNeedsBit(cfg: Config, gate: Gate, w: World, e: UsageEvent, falsePositive: bool, r: Replies)
    requires cfg.Valid() && Down(r)
    ensures var (w', v) := Step(cfg, gate, w, e, falsePositive, r);
      && w'.local <= w.local + cfg.Probes(e.orgId, e.eventId)
      && |w'.local| >= |w.local| + if v == Accepted then 1 else 0
  {
    var (w', v) := Step(cfg, gate, w, e, falsePositive, r);
    SubsetCard(w.local, w'.local);
    if v == Accepted {
      var p :| p in cfg.Probes(e.orgId, e.eventId) && p !in w.local;
      SubsetCard(w.local + {p}, w'.local);
    }
  }

  /** While Redis is down throughout, a batch accepts at most one event per usable bit. */
  lemma TotalOutageCapacity(b: Batch)
    requires b.Valid() && forall k :: 0 <= k < |b.events| ==> Down(b.replies[k])
    ensures |Tally(b.events, b.Verdicts(), |b.events|).accepted| <= Bloom.Modulus(b.cfg.shards)
  {
    var n, m := |b.events|, Bloom.Modulus(b.cfg.shards);
    AcceptedIsInOrderSubsequence(b.events, b.Verdicts(), n);
    AcceptedNeedBits(b, n);
    CardBelow(b.WorldAt(n).local, m);
  }

  /** So, whatever the hash, a longer batch of fresh events loses one of them. */
  lemma TotalOutageLosesFresh(b: Batch)
    requires b.Valid() && forall k :: 0 <= k < |b.events| ==> Down(b.replies[k]) && FreshAt(b, k)
    requires |b.events| > Bloom.Modulus(b.cfg.shards)
    ensures exists j :: 0 <= j < |b.events| && b.Verdicts()[j] == Duplicate
  {
    TotalOutageCapacity(b);
    var vs, n := b.Verdicts(), |b.events|;
    AcceptedIsInOrderSubsequence(b.events, vs, n);
    forall k | 0 <= k < n
      ensures vs[k] in {Accepted, Duplicate}
    {
      FreshVerdict(b, k);
    }
    if forall k :: 0 <= k < n ==> vs[k] == Accepted {
      AllPositions(vs, n);
      assert false;
    }
  }

  lemma {:induction false} AllPositions(vs: seq<Verdict>, n: nat)
    requires n <= |vs| && forall k :: 0 <= k < n ==> vs[k] == Accepted
    ensures |Positions(vs, n)| == n
  {
    if n > 0 {
      AllPositions(vs, n - 1);
    }
  }

  // ---- which replies never lose a fresh event ----

  /** The duplicate check is answered, or it is the batch's first event and BF.EXISTS is lost. */
  ghost predicate LosesNothing(replies: seq<Replies>) {
    forall j :: 0 <= j < |replies| ==> Spares(replies[j], j)
  }

  predicate Spares(r: Replies, j: nat) {
    r.check.Answered? || (j == 0 && r.lookup.Lost?)
  }

  ghost predicate KeepsFresh(b: Batch)
    requires b.Valid()
  {
    forall j :: 0 <= j < |b.events| && FreshAt(b, j) ==> b.VerdictAt(j) == Accepted
  }

  lemma SparingKeepsFresh(b: Batch)
    requires b.Valid() && LosesNothing(b.replies)
    ensures KeepsFresh(b)
  {
    forall j | 0 <= j < |b.events| && FreshAt(b, j)
      ensures b.VerdictAt(j) == Accepted
    {
      assert Spares(b.replies[j], j);
      FreshVerdict(b, j);
    }
  }

  /** A batch of one org: e0 comes first, e1 at j (with a Bloom false positive), the others name an unknown end user. */
  function LossWitness(cfg: Config, replies: seq<Replies>, e0: UsageEvent, e1: UsageEvent, j: nat): (b: Batch)
    requires cfg.Valid() && j < |replies|
    ensures cfg.Valid() ==> b.Valid()
  {
    Batch(cfg, Gate({e1.orgId}, {}), Redis({}, map[]),
          seq(|replies|, k => if k == j then e1 else if k == 0 then e0 else e0.(endUserId := "?")),
          seq(|replies|, k => k == j),
          replies)
  }

  lemma WitnessIsFresh(cfg: Config, replies: seq<Replies>, e0: UsageEvent, e1: UsageEvent, j: nat, k: nat)
    requires cfg.Valid() && j < |replies| && (k == j || (k == 0 && j > 0))
    requires e0.orgId == e1.orgId && e0.eventId != e1.eventId && ColonFree(e0.eventId) && ColonFree(e1.eventId)
    requires e0.endUserId == "" && e1.endUserId == ""
    ensures FreshAt(LossWitness(cfg, replies, e0, e1, j), k)
  {
    var b := LossWitness(cfg, replies, e0, e1, j);
    forall i | 0 <= i < k
      ensures KeyAt(b, i) != KeyAt(b, k)
    {
      if KeyAt(b, i) == KeyAt(b, k) {
        SameRightPart(b.events[i].orgId, b.events[i].eventId, b.events[k].orgId, b.events[k].eventId);
      }
    }
  }

  /** With colon-free ids on the right, a joined key determines both parts. */
  lemma SameRightPart(o: string, e: string, o': string, e': string)
    requires ColonFree(e) && ColonFree(e') && IdemKey(o, e) == IdemKey(o', e')
    ensures o == o' && e == e'
  {
    assert IdemKey(o, e)[5..] == PairKey(o, e) && IdemKey(o', e')[5..] == PairKey(o', e');
    Gates.SplitUndoesJoin(o, e);
    Gates.SplitUndoesJoin(o', e');
  }

  /** All events are of one org and have ids of at most 20 characters. */
  ghost predicate Modest(b: Batch) {
    forall k :: 0 <= k < |b.events| ==> |b.events[k].eventId| <= 20 && b.events[k].orgId == "o"
  }

  lemma {:induction false} UnsparingCanLose(cfg: Config, replies: seq<Replies>, j: nat)
    requires cfg.Valid() && j < |replies| && !Spares(replies[j], j)
    ensures exists b: Batch :: b.Valid() && b.cfg == cfg && b.replies == replies && Modest(b) && !KeepsFresh(b)
  {
    var x, y := SameProbes(cfg, "o");
    var e0, e1 := SAMPLE.(eventId := x), SAMPLE.(eventId := y);
    var b := LossWitness(cfg, replies, e0, e1, j);
    WitnessIsFresh(cfg, replies, e0, e1, j, j);
    FreshVerdict(b, j);
    if replies[j].lookup.Lost? {
      WitnessIsFresh(cfg, replies, e0, e1, j, 0);
      FreshVerdict(b, 0);
      assert b.WorldAt(0).local == {} && !Suspected(b, 0);
      AcceptedLeavesTraces(b, 0);
      WorldGrows(b, 1, j);
    }
    assert Suspected(b, j);
    assert Modest(b) && !KeepsFresh(b);
  }

  /**
   * For every hash and shard count, over all batches, prior Redis contents and false positives: no
   * fresh event is ever lost if and only if every duplicate check is answered, save that of a
   * batch's first event when its BF.EXISTS is lost too.
   */
  lemma NeverLosesFreshIff(cfg: Config, replies: seq<Replies>)
    requires cfg.Valid()
    ensures LosesNothing(replies)
       <==> forall b: Batch :: b.Valid() && b.cfg == cfg && b.replies == replies ==> KeepsFresh(b)
  {
    if LosesNothing(replies) {
      forall b: Batch | b.Valid() && b.cfg == cfg && b.replies == replies
        ensures KeepsFresh(b)
      {
        SparingKeepsFresh(b);
      }
    } else {
      var j :| 0 <= j < |replies| && !Spares(replies[j], j);
      UnsparingCanLose(cfg, replies, j);
    }
  }

  // ---- two ids with the same probes ----

  const HASHES: nat := 0x1_0000_0000

  /** Both hashes of the k-th id, the decimal k, as one number. */
  function Code(cfg: Config, org: string, k: nat): (c: nat)
    ensures c < HASHES * HASHES
  {
    cfg.hash(org + ":" + Decimal(k)) as nat * HASHES + cfg.hash(Decimal(k) + ":" + org) as nat
  }

  lemma TwentyDigits()
    ensures HASHES * HASHES < Pow10(20)
  {
    assert Pow10(5) == 100000;
    assert Pow10(10) == 10000000000;
    assert Pow10(15) == 1000000000000000;
    assert Pow10(20) == 100000000000000000000;
  }

  /** Whatever the hash, two different ids of at most 20 characters have the same probes. */
  lemma SameProbes(cfg: Config, org: string) returns (x: string, y: string)
    requires cfg.Valid()
    ensures x != y && ColonFree(x) && ColonFree(y) && |x| <= 20 && |y| <= 20
    ensures cfg.Probes(org, x) == cfg.Probes(org, y)
  {
    var i, j := Pigeonhole(k => Code(cfg, org, k), HASHES * HASHES);
    x, y := Decimal(i), Decimal(j);
    DecimalIsColonFree(i);
    DecimalIsColonFree(j);
    TwentyDigits();
    DecimalLength(i, 20);
    DecimalLength(j, 20);
    if x == y {
      DecimalInjective(i, j);
    }
    assert Code(cfg, org, i) == Code(cfg, org, j);
    SameCodeSameHashes(cfg.hash(org + ":" + x) as nat, cfg.hash(x + ":" + org) as nat,
                       cfg.hash(org + ":" + y) as nat, cfg.hash(y + ":" + org) as nat);
    var hash, shards := cfg.hash, cfg.shards;
    assert forall n: nat :: Bloom.Probe(hash, shards, org, x, n) == Bloom.Probe(hash, shards, org, y, n);
  }

  lemma SameCodeSameHashes(a: nat, c: nat, a': nat, c': nat)
    requires c < HASHES && c' < HASHES && a * HASHES + c == a' * HASHES + c'
    ensures a == a' && c == c'
  {
  }

  // ---- and two ids need not have the same probes ----

  function DownBatch(cfg: Config, e0: UsageEvent, e1: UsageEvent, down: Replies): (b: Batch)
    requires cfg.Valid()
    ensures cfg.Valid() ==> b.Valid()
  {
    Batch(cfg, Gate({e0.orgId, e1.orgId}, {}), Redis({}, map[]), [e0, e1], [false, false], [down, down])
  }

  /**
   * For any two different keys there is a hash under which a batch of the two events, with Redis down
   * throughout, accepts both: what the local filter says depends on org and event id.
   */
  lemma {:induction false} DownBatchCanAcceptBoth(shards: nat, e0: UsageEvent, e1: UsageEvent, down: Replies)
    requires Bloom.UsableShards(shards) && Down(down) && e0.endUserId == "" && e1.endUserId == ""
    requires PairKey(e0.orgId, e0.eventId) != PairKey(e1.orgId, e1.eventId)
    ensures var b := DownBatch(Config(Bloom.Singling(e0.orgId, e0.eventId), shards), e0, e1, down);
      b.VerdictAt(0) == Accepted && b.VerdictAt(1) == Accepted
  {
    var cfg := Config(Bloom.Singling(e0.orgId, e0.eventId), shards);
    var b := DownBatch(cfg, e0, e1, down);
    Bloom.KeysCanBeToldApart(shards, e0.orgId, e0.eventId, e1.orgId, e1.eventId);
    TotalOutageVerdict(b, 0);
    TotalOutageVerdict(b, 1);
    var ops := AdmittedKeys(b, 1);
    assert AdmittedKeys(b, 0) == [];
    assert ops == [] + [Bloom.AddKey(e0.orgId, e0.eventId)] && ops[..0] == [];
    assert Bloom.BitsAfter(cfg.hash, shards, ops) == {} + cfg.Probes(e0.orgId, e0.eventId);
  }
}
