/** The batch path: Bloom pre-filter, SETNX, and the in-process fallback, event by event. */
module BatchDedup {
  import opened Keys
  import opened Models
  import opened RedisDedup
  import Bloom = InProcessBloom

  /** The deployment constants: the string hash and `BLOOM_NUM_SHARDS`. */
  datatype Config = Config(hash: Bloom.Hash, shards: nat) {
    predicate Valid() {
      Bloom.UsableShards(shards)
    }

    function Shard(eventId: string): nat
      requires Valid()
    {
      hash(eventId) as int % shards
    }

    function Filter(org: string, eventId: string): string
      requires Valid()
    {
      BloomKey(org, Shard(eventId))
    }

    function Probes(org: string, eventId: string): (ps: set<nat>)
      requires Valid()
      ensures ps != {}
    {
      assert Bloom.Probe(hash, shards, org, eventId, 0) in Bloom.Probes(hash, shards, org, eventId);
      Bloom.Probes(hash, shards, org, eventId)
    }
  }

  /** The ids and `org:enduser` pairs that the two existence checks mapped to true. */
  datatype Gate = Gate(orgs: set<string>, endUsers: set<string>) {
    predicate KnowsOrg(e: UsageEvent) {
      e.orgId in orgs
    }

    predicate KnowsEndUser(e: UsageEvent) {
      e.endUserId == "" || PairKey(e.orgId, e.endUserId) in endUsers
    }

    predicate Admits(e: UsageEvent) {
      KnowsOrg(e) && KnowsEndUser(e)
    }
  }

  /** The fate of the Redis commands that one event may issue. */
  datatype Replies = Replies(reserve: Reply, lookup: Reply, check: Reply, add: Reply, record: Reply)

  datatype Verdict = Accepted | Duplicate | UnknownOrg | EndUserNotInOrg

  /** Redis, the shards reserved in this batch, and the bits of the in-process filter. */
  datatype World = World(redis: Redis, reserved: set<string>, local: set<nat>)

  /** BF.RESERVE on the first use of a shard, then BF.EXISTS. */
  function Lookup(cfg: Config, redis: Redis, reserved: set<string>, e: UsageEvent, falsePositive: bool, r: Replies)
    : (Redis, Option<bool>)
    requires cfg.Valid()
  {
    var filter := cfg.Filter(e.orgId, e.eventId);
    var redis1 := if filter in reserved then redis else redis.Reserve(filter, r.reserve);
    (redis1, redis1.ExistsAnswer(filter, e.eventId, falsePositive, r.lookup))
  }

  /** BF.ADD, then SETNX unless BF.EXISTS answered yes (a lost answer reads as no). */
  function Remember(cfg: Config, redis: Redis, e: UsageEvent, seen: Option<bool>, r: Replies): Redis
    requires cfg.Valid()
  {
    var redis1 := redis.Add(cfg.Filter(e.orgId, e.eventId), e.eventId, r.add);
    if seen == Some(true) then redis1 else redis1.SetNX(IdemKey(e.orgId, e.eventId), r.record)
  }

  /** Bloom and SETNX for one admitted event: the new state, and whether the event is fresh. */
  function Dedup(cfg: Config, w: World, e: UsageEvent, falsePositive: bool, r: Replies): (World, bool)
    requires cfg.Valid()
  {
    var key, probes := IdemKey(e.orgId, e.eventId), cfg.Probes(e.orgId, e.eventId);
    var (redis1, seen) := Lookup(cfg, w.redis, w.reserved, e, falsePositive, r);
    var reserved1 := w.reserved + {cfg.Filter(e.orgId, e.eventId)};
    var local1 := if seen.None? then w.local + probes else w.local;
    var maybeSeen := if seen.None? then probes <= w.local else seen.value;
    var redis2 := if maybeSeen then redis1.SetNX(key, r.check) else redis1;
    if maybeSeen && redis1.SetNXAnswer(key, r.check) != Some(true) then
      (World(redis2, reserved1, local1), false)
    else
      (World(Remember(cfg, redis2, e, seen, r), reserved1, local1 + probes), true)
  }

  /** One iteration of the loop over events: the whole new state and what became of the event. */
  function Step(cfg: Config, gate: Gate, w: World, e: UsageEvent, falsePositive: bool, r: Replies): (World, Verdict)
    requires cfg.Valid()
  {
    if !gate.KnowsOrg(e) then (w, UnknownOrg)
    else if !gate.KnowsEndUser(e) then (w, EndUserNotInOrg)
    else
      var (w', isFresh) := Dedup(cfg, w, e, falsePositive, r);
      (w', if isFresh then Accepted else Duplicate)
  }

  /** A call of `processBatchEvents` together with everything the environment decides. */
  datatype Batch = Batch(
    cfg: Config,
    gate: Gate,
    prior: Redis,
    events: seq<UsageEvent>,
    falsePositives: seq<bool>,
    replies: seq<Replies>)
  {
    predicate Valid() {
      cfg.Valid() && |falsePositives| == |replies| == |events|
    }

    /** The state before event n. */
    function WorldAt(n: nat): World
      requires Valid() && n <= |events|
      decreases n, 0
    {
      if n == 0 then World(prior, {}, {}) else StepAt(n - 1).0
    }

    function StepAt(i: nat): (World, Verdict)
      requires Valid() && i < |events|
      decreases i, 1
    {
      Step(cfg, gate, WorldAt(i), events[i], falsePositives[i], replies[i])
    }

    function VerdictAt(i: nat): Verdict
      requires Valid() && i < |events|
    {
      StepAt(i).1
    }

    function Verdicts(): (vs: seq<Verdict>)
      requires Valid()
      ensures |vs| == |events|
    {
      seq(|events|, i requires 0 <= i < |events| => VerdictAt(i))
    }

    function Final(): World
      requires Valid()
    {
      WorldAt(|events|)
    }

    predicate SameKey(i: nat, j: nat)
      requires i < |events| && j < |events|
    {
      events[i].orgId == events[j].orgId && events[i].eventId == events[j].eventId
    }

    /** Some (org, event id) is accepted twice. */
    ghost predicate AcceptsTwice()
      requires Valid()
    {
      exists i, j :: 0 <= i < j < |events| && AcceptsBoth(i, j)
    }

    predicate AcceptsBoth(i: nat, j: nat)
      requires Valid() && i < j < |events|
    {
      SameKey(i, j) && VerdictAt(i) == Accepted && VerdictAt(j) == Accepted
    }
  }

  // ---- what an accepted event leaves behind ----

  lemma LookupGrows(cfg: Config, redis: Redis, reserved: set<string>, e: UsageEvent, falsePositive: bool, r: Replies)
    requires cfg.Valid()
    ensures redis.GrowsTo(Lookup(cfg, redis, reserved, e, falsePositive, r).0)
  {
  }

  lemma RememberGrows(cfg: Config, redis: Redis, e: UsageEvent, seen: Option<bool>, r: Replies)
    requires cfg.Valid()
    ensures redis.GrowsTo(Remember(cfg, redis, e, seen, r))
  {
  }

  lemma StepGrows(cfg: Config, gate: Gate, w: World, e: UsageEvent, falsePositive: bool, r: Replies)
    requires cfg.Valid()
    ensures var w' := Step(cfg, gate, w, e, falsePositive, r).0;
      w.redis.GrowsTo(w'.redis) && w.local <= w'.local
  {
    LookupGrows(cfg, w.redis, w.reserved, e, falsePositive, r);
    var (redis1, seen) := Lookup(cfg, w.redis, w.reserved, e, falsePositive, r);
    RememberGrows(cfg, redis1, e, seen, r);
    RememberGrows(cfg, redis1.SetNX(IdemKey(e.orgId, e.eventId), r.check), e, seen, r);
  }

  /** Nothing is forgotten within a batch. */
  lemma {:induction false} WorldGrows(b: Batch, m: nat, n: nat)
    requires b.Valid() && m <= n <= |b.events|
    ensures b.WorldAt(m).redis.GrowsTo(b.WorldAt(n).redis)
    ensures b.WorldAt(m).local <= b.WorldAt(n).local
    decreases n
  {
    if m < n {
      WorldGrows(b, m, n - 1);
      StepGrows(b.cfg, b.gate, b.WorldAt(n - 1), b.events[n - 1], b.falsePositives[n - 1], b.replies[n - 1]);
    }
  }

  lemma AcceptedLeavesTraces(b: Batch, i: nat)
    requires b.Valid() && i < |b.events| && b.VerdictAt(i) == Accepted
    ensures var e, w := b.events[i], b.WorldAt(i + 1);
      && b.gate.Admits(e)
      && b.cfg.Probes(e.orgId, e.eventId) <= w.local
      && (b.replies[i].add.Effective() ==> w.redis.InBloom(b.cfg.Filter(e.orgId, e.eventId), e.eventId))
      && (b.replies[i].record.Effective() ==> IdemKey(e.orgId, e.eventId) in w.redis.idem)
  {
    assert b.WorldAt(i + 1) == b.StepAt(i).0;
  }

  /** Two events share a filter exactly when they are of one org and their ids hash to one shard. */
  lemma FiltersAreByOrgAndShard(cfg: Config, o: string, x: string, o': string, y: string)
    requires cfg.Valid()
    ensures cfg.Filter(o, x) == cfg.Filter(o', y) <==>
      o == o' && cfg.hash(x) as nat % cfg.shards == cfg.hash(y) as nat % cfg.shards
  {
    if cfg.Filter(o, x) == cfg.Filter(o', y) {
      BloomKeyParts(o, cfg.Shard(x), o', cfg.Shard(y));
    }
  }

  /** The events that went through the local filter: accepted, or not answered by BF.EXISTS. */
  function LocalKeys(b: Batch, n: nat): seq<Bloom.FilterOp>
    requires b.Valid() && n <= |b.events|
  {
    if n == 0 then [] else
      var e := b.events[n - 1];
      LocalKeys(b, n - 1) + if UsesLocal(b, n - 1) then [Bloom.AddKey(e.orgId, e.eventId)] else []
  }

  predicate UsesLocal(b: Batch, i: nat)
    requires b.Valid() && i < |b.events|
  {
    b.VerdictAt(i) == Accepted || (b.gate.Admits(b.events[i]) && b.replies[i].lookup.Lost?)
  }

  lemma StepFillsFallback(cfg: Config, gate: Gate, w: World, e: UsageEvent, falsePositive: bool, r: Replies)
    requires cfg.Valid()
    ensures var (w', v) := Step(cfg, gate, w, e, falsePositive, r);
      var used := v == Accepted || (gate.Admits(e) && r.lookup.Lost?);
      && w'.local == w.local + (if used then cfg.Probes(e.orgId, e.eventId) else {})
      && w'.reserved == w.reserved + (if gate.Admits(e) then {cfg.Filter(e.orgId, e.eventId)} else {})
  {
  }

  lemma OneMoreLocalKey(b: Batch, ops: seq<Bloom.FilterOp>, e: UsageEvent)
    requires b.Valid()
    ensures Bloom.BitsAfter(b.cfg.hash, b.cfg.shards, ops + [Bloom.AddKey(e.orgId, e.eventId)])
         == Bloom.BitsAfter(b.cfg.hash, b.cfg.shards, ops) + b.cfg.Probes(e.orgId, e.eventId)
  {
    var more := ops + [Bloom.AddKey(e.orgId, e.eventId)];
    assert more[..|ops|] == ops;
  }

  /** In every batch the local filter holds exactly those events, and no others. */
  lemma {:induction false} FallbackHoldsLocalKeys(b: Batch, n: nat)
    requires b.Valid() && n <= |b.events|
    ensures b.WorldAt(n).local == Bloom.BitsAfter(b.cfg.hash, b.cfg.shards, LocalKeys(b, n))
  {
    if n > 0 {
      var m := n - 1;
      var before, e := LocalKeys(b, m), b.events[m];
      FallbackHoldsLocalKeys(b, m);
      StepFillsFallback(b.cfg, b.gate, b.WorldAt(m), e, b.falsePositives[m], b.replies[m]);
      OneMoreLocalKey(b, before, e);
      assert b.WorldAt(n) == b.StepAt(m).0 && b.VerdictAt(m) == b.StepAt(m).1;
      assert before + [] == before;
      assert LocalKeys(b, n) == before + if UsesLocal(b, m) then [Bloom.AddKey(e.orgId, e.eventId)] else [];
    }
  }

  predicate UsesFilter(b: Batch, i: nat, filter: string)
    requires b.Valid() && i < |b.events|
  {
    b.gate.Admits(b.events[i]) && b.cfg.Filter(b.events[i].orgId, b.events[i].eventId) == filter
  }

  /** BF.RESERVE has been sent for exactly the filters of the admitted events so far. */
  lemma {:induction false} ReservedAreTheFiltersUsed(b: Batch, n: nat, filter: string)
    requires b.Valid() && n <= |b.events|
    ensures filter in b.WorldAt(n).reserved <==>
      exists i :: 0 <= i < n && UsesFilter(b, i, filter)
  {
    if n > 0 {
      var m := n - 1;
      ReservedAreTheFiltersUsed(b, m, filter);
      StepFillsFallback(b.cfg, b.gate, b.WorldAt(m), b.events[m], b.falsePositives[m], b.replies[m]);
      assert b.WorldAt(n) == b.StepAt(m).0;
      assert filter in b.WorldAt(n).reserved <==> filter in b.WorldAt(m).reserved || UsesFilter(b, m, filter);
    }
  }

  // ---- double acceptance under outages ----

  /**
   * The outage patterns that cannot lead to a double acceptance: whenever a later BF.EXISTS (or
   * duplicate check) is answered, every earlier BF.ADD (or recording SETNX) took effect.
   */
  ghost predicate SafeOutage(replies: seq<Replies>) {
    forall i, j :: 0 <= i < j < |replies| ==> !Forgets(replies[i], replies[j])
  }

  predicate Forgets(earlier: Replies, later: Replies) {
    || (later.lookup.Answered? && !earlier.add.Effective())
    || (later.check.Answered? && !earlier.record.Effective())
  }

  lemma {:induction false} SafeOutageNeverAcceptsTwice(b: Batch)
    requires b.Valid() && SafeOutage(b.replies)
    ensures !b.AcceptsTwice()
  {
    forall i, j | 0 <= i < j < |b.events|
      ensures !b.AcceptsBoth(i, j)
    {
      if b.SameKey(i, j) && b.VerdictAt(i) == Accepted {
        RepeatIsRefused(b, i, j);
      }
    }
  }

  lemma RepeatIsRefused(b: Batch, i: nat, j: nat)
    requires b.Valid() && i < j < |b.events|
    requires !Forgets(b.replies[i], b.replies[j])
    requires b.SameKey(i, j) && b.VerdictAt(i) == Accepted
    ensures b.VerdictAt(j) != Accepted
  {
    AcceptedLeavesTraces(b, i);
    WorldGrows(b, i + 1, j);
  }

  const SAMPLE := UsageEvent("e", "o", "", "", "", "", "", "", 0, 0, 0, 0.0, 0, "")

  /**
   * A batch of one org that double-accepts under an outage pattern that is not safe at positions
   * i < j; the other events name an unknown end user.
   */
  function Witness(cfg: Config, replies: seq<Replies>, e: UsageEvent, i: nat, j: nat): (b: Batch)
    requires cfg.Valid() && i < j < |replies|
    ensures cfg.Valid() ==> b.Valid()
  {
    var refused := e.(endUserId := "?");
    Batch(cfg, Gate({e.orgId}, {}), Redis({}, map[]),
          seq(|replies|, k => if k == i || k == j then e else refused),
          seq(|replies|, _ => false),
          replies)
  }

  lemma {:induction false} WitnessIdles(cfg: Config, replies: seq<Replies>, e: UsageEvent, i: nat, j: nat, m: nat,
      n: nat)
    requires cfg.Valid() && i < j < |replies| && m <= n <= |replies|
    requires (n <= i || i < m) && (n <= j || j < m)
    ensures Witness(cfg, replies, e, i, j).WorldAt(n) == Witness(cfg, replies, e, i, j).WorldAt(m)
    decreases n
  {
    if m < n {
      var b := Witness(cfg, replies, e, i, j);
      WitnessIdles(cfg, replies, e, i, j, m, n - 1);
      assert b.WorldAt(n) == b.StepAt(n - 1).0;
      assert b.events[n - 1].endUserId == "?";
    }
  }

  lemma UnsafeOutageCanAcceptTwice(cfg: Config, replies: seq<Replies>, e: UsageEvent, i: nat, j: nat)
    requires cfg.Valid() && i < j < |replies| && Forgets(replies[i], replies[j])
    requires e.endUserId == ""
    ensures Witness(cfg, replies, e, i, j).AcceptsTwice()
  {
    var b := Witness(cfg, replies, e, i, j);
    WitnessIdles(cfg, replies, e, i, j, 0, i);
    assert b.WorldAt(i) == World(Redis({}, map[]), {}, {});
    assert b.VerdictAt(i) == Accepted;
    assert b.WorldAt(i + 1) == b.StepAt(i).0;
    WitnessIdles(cfg, replies, e, i, j, i + 1, j);
    assert b.AcceptsBoth(i, j);
  }

  /**
   * Exactly the safe outage patterns rule out a double acceptance, over every batch, every prior
   * Redis content and every run of Bloom false positives.
   */
  lemma {:induction false} NeverAcceptsTwiceIffSafeOutage(cfg: Config, replies: seq<Replies>)
    requires cfg.Valid()
    ensures SafeOutage(replies)
       <==> forall b: Batch :: b.Valid() && b.cfg == cfg && b.replies == replies ==> !b.AcceptsTwice()
  {
    if SafeOutage(replies) {
      forall b: Batch | b.Valid() && b.cfg == cfg && b.replies == replies
        ensures !b.AcceptsTwice()
      {
        SafeOutageNeverAcceptsTwice(b);
      }
    } else {
      var i, j :| 0 <= i < j < |replies| && Forgets(replies[i], replies[j]);
      UnsafeOutageCanAcceptTwice(cfg, replies, SAMPLE, i, j);
      var b := Witness(cfg, replies, SAMPLE, i, j);
      assert b.Valid() && b.cfg == cfg && b.replies == replies;
    }
  }

  function CommandReply(replies: seq<Replies>, n: nat): Reply
    requires n < 5 * |replies|
  {
    var r := replies[n / 5];
    [r.reserve, r.lookup, r.check, r.add, r.record][n % 5]
  }

  /** Redis stops answering at some command and never comes back within the batch. */
  ghost predicate CrashStop(replies: seq<Replies>) {
    forall m, n :: 0 <= m < n < 5 * |replies| && CommandReply(replies, n).Answered?
      ==> CommandReply(replies, m).Answered?
  }

  lemma CrashStopNeverAcceptsTwice(b: Batch)
    requires b.Valid() && CrashStop(b.replies)
    ensures !b.AcceptsTwice()
  {
    var rs := b.replies;
    assert SafeOutage(rs) by {
      forall i, j | 0 <= i < j < |rs|
        ensures !Forgets(rs[i], rs[j])
      {
        assert CommandReply(rs, 5 * i + 3) == rs[i].add && CommandReply(rs, 5 * i + 4) == rs[i].record;
        assert CommandReply(rs, 5 * j + 1) == rs[j].lookup && CommandReply(rs, 5 * j + 2) == rs[j].check;
      }
    }
    SafeOutageNeverAcceptsTwice(b);
  }

  // ---- a batch that runs while Redis is down throughout ----

  /** The keys of the admitted events among the first n. */
  function AdmittedKeys(b: Batch, n: nat): seq<Bloom.FilterOp>
    requires n <= |b.events|
  {
    if n == 0 then [] else
      var e := b.events[n - 1];
      AdmittedKeys(b, n - 1) + if b.gate.Admits(e) then [Bloom.AddKey(e.orgId, e.eventId)] else []
  }

  predicate Down(r: Replies) {
    r.lookup.Lost? && r.check.Lost?
  }

  lemma DownStepFillsFallback(cfg: Config, gate: Gate, w: World, e: UsageEvent, falsePositive: bool, r: Replies)
    requires cfg.Valid() && Down(r)
    ensures Step(cfg, gate, w, e, falsePositive, r).0.local
         == w.local + if gate.Admits(e) then cfg.Probes(e.orgId, e.eventId) else {}
  {
  }

  lemma {:induction false} FallbackHoldsAdmittedKeys(b: Batch, n: nat)
    requires b.Valid() && n <= |b.events|
    requires forall k :: 0 <= k < n ==> Down(b.replies[k])
    ensures b.WorldAt(n).local == Bloom.BitsAfter(b.cfg.hash, b.cfg.shards, AdmittedKeys(b, n))
  {
    if n > 0 {
      var m := n - 1;
      FallbackHoldsAdmittedKeys(b, m);
      DownStepFillsFallback(b.cfg, b.gate, b.WorldAt(m), b.events[m], b.falsePositives[m], b.replies[m]);
      assert b.WorldAt(n) == b.StepAt(m).0;
      var before, e := AdmittedKeys(b, m), b.events[m];
      var ops := before + [Bloom.AddKey(e.orgId, e.eventId)];
      assert ops[..|before|] == before && before + [] == before;
      assert AdmittedKeys(b, n) == if b.gate.Admits(e) then ops else before;
    }
  }

  /**
   * In a total outage an admitted event is dropped exactly when its bits are covered by those of
   * the admitted events before it: always for a repeat, and for a fresh event by false positive.
   */
  lemma {:induction false} TotalOutageVerdict(b: Batch, i: nat)
    requires b.Valid() && i < |b.events| && b.gate.Admits(b.events[i])
    requires forall k :: 0 <= k <= i ==> Down(b.replies[k])
    ensures var e := b.events[i];
      b.VerdictAt(i) == Duplicate <==>
        b.cfg.Probes(e.orgId, e.eventId) <= Bloom.BitsAfter(b.cfg.hash, b.cfg.shards, AdmittedKeys(b, i))
    ensures b.VerdictAt(i) in {Duplicate, Accepted}
  {
    FallbackHoldsAdmittedKeys(b, i);
  }

  // ---- accounting ----

  datatype BatchError = BatchError(index: nat, code: string, eventId: string)

  datatype BatchResult = BatchResult(
    accepted: seq<UsageEvent>,
    failedCount: nat,
    duplicateCount: nat,
    unknownOrgCount: nat,
    userNotInOrgCount: nat,
    errors: seq<BatchError>)

  /** The result after one more event, the i-th, met its fate. */
  function Count(r: BatchResult, i: nat, e: UsageEvent, v: Verdict): BatchResult {
    match v
    case Accepted => r.(accepted := r.accepted + [e])
    case Duplicate => r.(failedCount := r.failedCount + 1, duplicateCount := r.duplicateCount + 1)
    case UnknownOrg =>
      r.(failedCount := r.failedCount + 1, unknownOrgCount := r.unknownOrgCount + 1,
         errors := r.errors + [BatchError(i, "UNKNOWN_ORG", e.eventId)])
    case EndUserNotInOrg =>
      r.(failedCount := r.failedCount + 1, userNotInOrgCount := r.userNotInOrgCount + 1,
         errors := r.errors + [BatchError(i, "END_USER_NOT_IN_ORG", e.eventId)])
  }

  /** The result after the first n events. */
  function Tally(events: seq<UsageEvent>, vs: seq<Verdict>, n: nat): BatchResult
    requires n <= |vs| == |events|
  {
    if n == 0 then BatchResult([], 0, 0, 0, 0, []) else
      Count(Tally(events, vs, n - 1), n - 1, events[n - 1], vs[n - 1])
  }

  /** Every event is either accepted or counted under exactly one failure. */
  lemma {:induction false} CountersBalance(events: seq<UsageEvent>, vs: seq<Verdict>, n: nat)
    requires n <= |vs| == |events|
    ensures var r := Tally(events, vs, n);
      && |r.accepted| + r.failedCount == n
      && r.failedCount == r.unknownOrgCount + r.userNotInOrgCount + r.duplicateCount
      && |r.errors| == r.unknownOrgCount + r.userNotInOrgCount
  {
    if n > 0 {
      CountersBalance(events, vs, n - 1);
    }
  }

  /** The positions among the first n with this verdict. */
  function WithVerdict(vs: seq<Verdict>, n: nat, v: Verdict): set<nat>
    requires n <= |vs|
  {
    set i: nat | i < n && vs[i] == v
  }

  lemma WithVerdictGrows(vs: seq<Verdict>, n: nat, v: Verdict)
    requires n < |vs|
    ensures |WithVerdict(vs, n + 1, v)| == |WithVerdict(vs, n, v)| + if vs[n] == v then 1 else 0
  {
    var before, after := WithVerdict(vs, n, v), WithVerdict(vs, n + 1, v);
    if vs[n] == v {
      assert after == before + {n} && n !in before;
    } else {
      assert after == before;
    }
  }

  /** Each counter is the number of events that met that fate. */
  lemma {:induction false} CountersCount(events: seq<UsageEvent>, vs: seq<Verdict>, n: nat)
    requires n <= |vs| == |events|
    ensures var r := Tally(events, vs, n);
      && r.unknownOrgCount == |WithVerdict(vs, n, UnknownOrg)|
      && r.userNotInOrgCount == |WithVerdict(vs, n, EndUserNotInOrg)|
      && r.duplicateCount == |WithVerdict(vs, n, Duplicate)|
      && |r.accepted| == |WithVerdict(vs, n, Accepted)|
  {
    if n == 0 {
      assert forall v: Verdict :: WithVerdict(vs, 0, v) == {};
    } else {
      CountersCount(events, vs, n - 1);
      WithVerdictGrows(vs, n - 1, UnknownOrg);
      WithVerdictGrows(vs, n - 1, EndUserNotInOrg);
      WithVerdictGrows(vs, n - 1, Duplicate);
      WithVerdictGrows(vs, n - 1, Accepted);
    }
  }

  /** What the error list says about the i-th event, if anything. */
  function Report(i: nat, e: UsageEvent, v: Verdict): Option<BatchError> {
    match v
    case UnknownOrg => Some(BatchError(i, "UNKNOWN_ORG", e.eventId))
    case EndUserNotInOrg => Some(BatchError(i, "END_USER_NOT_IN_ORG", e.eventId))
    case _ => None
  }

  lemma OneMoreReport(events: seq<UsageEvent>, vs: seq<Verdict>, n: nat)
    requires 0 < n <= |vs| == |events|
    ensures var report := Report(n - 1, events[n - 1], vs[n - 1]);
      Tally(events, vs, n).errors == Tally(events, vs, n - 1).errors + if report.Some? then [report.value] else []
  {
    var errors := Tally(events, vs, n - 1).errors;
    assert errors + [] == errors;
  }

  /** The error list is exactly the gate refusals, at strictly increasing indexes. */
  lemma {:induction false} ErrorsAreTheGateRefusals(events: seq<UsageEvent>, vs: seq<Verdict>, n: nat)
    requires n <= |vs| == |events|
    ensures var errors := Tally(events, vs, n).errors;
      && (forall k :: 0 <= k < |errors| ==> ReportsOneOf(errors[k], events, vs, n))
      && (forall k, l :: 0 <= k < l < |errors| ==> errors[k].index < errors[l].index)
      && (forall i :: 0 <= i < n ==> Reported(errors, Report(i, events[i], vs[i])))
  {
    if n > 0 {
      ErrorsAreTheGateRefusals(events, vs, n - 1);
      OneMoreReport(events, vs, n);
      var before, report := Tally(events, vs, n - 1).errors, Report(n - 1, events[n - 1], vs[n - 1]);
      var after := before + if report.Some? then [report.value] else [];
      forall k | 0 <= k < |after|
        ensures ReportsOneOf(after[k], events, vs, n)
      {
        assert k < |before| ==> ReportsOneOf(before[k], events, vs, n - 1);
      }
      forall i | 0 <= i < n
        ensures Reported(after, Report(i, events[i], vs[i]))
      {
        assert i < n - 1 ==> Reported(before, Report(i, events[i], vs[i]));
      }
    }
  }

  predicate ReportsOneOf(x: BatchError, events: seq<UsageEvent>, vs: seq<Verdict>, n: nat)
    requires n <= |vs| == |events|
  {
    x.index < n && Report(x.index, events[x.index], vs[x.index]) == Some(x)
  }

  predicate Reported(errors: seq<BatchError>, report: Option<BatchError>) {
    report.Some? ==> report.value in errors
  }

  /** The positions of the accepted events among the first n. */
  function Positions(vs: seq<Verdict>, n: nat): seq<nat>
    requires n <= |vs|
  {
    if n == 0 then [] else Positions(vs, n - 1) + if vs[n - 1] == Accepted then [n - 1] else []
  }

  lemma {:induction false} PositionsAscend(vs: seq<Verdict>, n: nat)
    requires n <= |vs|
    ensures var at := Positions(vs, n);
      && (forall k :: 0 <= k < |at| ==> at[k] < n && vs[at[k]] == Accepted)
      && (forall k, l :: 0 <= k < l < |at| ==> at[k] < at[l])
      && (forall i :: 0 <= i < n && vs[i] == Accepted ==> i in at)
  {
    if n > 0 {
      PositionsAscend(vs, n - 1);
      var before, at := Positions(vs, n - 1), Positions(vs, n);
      assert at == before + if vs[n - 1] == Accepted then [n - 1] else [];
    }
  }

  /** `Accepted` is the in-order subsequence of the events that were let through. */
  lemma {:induction false} AcceptedIsInOrderSubsequence(events: seq<UsageEvent>, vs: seq<Verdict>, n: nat)
    requires n <= |vs| == |events|
    ensures var accepted, at := Tally(events, vs, n).accepted, Positions(vs, n);
      |accepted| == |at| && forall k :: 0 <= k < |at| ==> at[k] < n && accepted[k] == events[at[k]]
  {
    if n > 0 {
      AcceptedIsInOrderSubsequence(events, vs, n - 1);
      var before, at := Positions(vs, n - 1), Positions(vs, n);
      var r := Tally(events, vs, n - 1);
      if vs[n - 1] == Accepted {
        assert at == before + [n - 1];
        assert Tally(events, vs, n).accepted == r.accepted + [events[n - 1]];
      } else {
        assert at == before && Tally(events, vs, n).accepted == r.accepted;
      }
    }
  }

  // ---- the loop itself ----

  method LookupEvent(redis: Server, cfg: Config, reserved: set<string>, e: UsageEvent, falsePositive: bool, r: Replies)
    returns (reserved': set<string>, seen: Option<bool>)
    requires cfg.Valid()
    modifies redis
    ensures reserved' == reserved + {cfg.Filter(e.orgId, e.eventId)}
    ensures (redis.View(), seen) == Lookup(cfg, old(redis.View()), reserved, e, falsePositive, r)
  {
    var shard := cfg.hash(e.eventId) as int % cfg.shards;
    var bfKey := BloomKey(e.orgId, shard);
    if bfKey !in reserved {
      redis.BfReserve(bfKey, r.reserve);
    }
    reserved' := reserved + {bfKey};
    seen := redis.BfExists(bfKey, e.eventId, falsePositive, r.lookup);
  }

  method RememberEvent(redis: Server, cfg: Config, e: UsageEvent, seen: Option<bool>, r: Replies)
    requires cfg.Valid()
    modifies redis
    ensures redis.View() == Remember(cfg, old(redis.View()), e, seen, r)
  {
    redis.BfAdd(cfg.Filter(e.orgId, e.eventId), e.eventId, r.add);
    if seen != Some(true) {
      var _ := redis.SetNX(IdemKey(e.orgId, e.eventId), r.record);
    }
  }

  /** The Bloom and SETNX part of the loop body. */
  method DedupEvent(redis: Server, fallback: Bloom.Filter, cfg: Config, reserved: set<string>, e: UsageEvent,
                    falsePositive: bool, r: Replies)
    returns (reserved': set<string>, isFresh: bool)
    requires cfg.Valid() && fallback.Valid()
    requires fallback.shards == cfg.shards && fallback.hash == cfg.hash
    modifies redis, fallback`history, fallback.bits
    ensures fallback.Valid()
    ensures (World(redis.View(), reserved', fallback.Contents()), isFresh)
         == Dedup(cfg, old(World(redis.View(), reserved, fallback.Contents())), e, falsePositive, r)
  {
    var seen;
    reserved', seen := LookupEvent(redis, cfg, reserved, e, falsePositive, r);
    var maybeSeen := seen == Some(true);
    if seen.None? {
      maybeSeen := fallback.ExistsAndAdd(e.orgId, e.eventId);
    }
    if maybeSeen {
      var wasSet := redis.SetNX(IdemKey(e.orgId, e.eventId), r.check);
      if wasSet != Some(true) {
        return reserved', false;
      }
    }
    RememberEvent(redis, cfg, e, seen, r);
    fallback.Add(e.orgId, e.eventId);
    isFresh := true;
  }

  /** `processBatchEvents`. */
  method ProcessBatchEvents(redis: Server, cfg: Config, events: seq<UsageEvent>, gate: Gate,
                            falsePositives: seq<bool>, replies: seq<Replies>)
    returns (result: BatchResult)
    requires cfg.Valid() && |falsePositives| == |replies| == |events|
    modifies redis
    ensures var b := Batch(cfg, gate, old(redis.View()), events, falsePositives, replies);
      && result == Tally(events, b.Verdicts(), |events|)
      && redis.View() == b.Final().redis
  {
    ghost var b := Batch(cfg, gate, redis.View(), events, falsePositives, replies);
    ghost var vs := b.Verdicts();
    result := BatchResult([], 0, 0, 0, 0, []);
    var bloomReserved: set<string> := {};
    var fallback := new Bloom.Filter(cfg.shards, cfg.hash);

    for i := 0 to |events|
      invariant fallback.Valid() && fresh(fallback) && fresh(fallback.bits)
      invariant fallback.shards == cfg.shards && fallback.hash == cfg.hash
      invariant World(redis.View(), bloomReserved, fallback.Contents()) == b.WorldAt(i)
      invariant result == Tally(events, vs, i)
    {
      var e := events[i];
      assert vs[i] == b.VerdictAt(i) && b.WorldAt(i + 1) == b.StepAt(i).0;
      assert Tally(events, vs, i + 1) == Count(result, i, e, vs[i]);
      if e.orgId !in gate.orgs {
        result := result.(failedCount := result.failedCount + 1,
                          unknownOrgCount := result.unknownOrgCount + 1,
                          errors := result.errors + [BatchError(i, "UNKNOWN_ORG", e.eventId)]);
        continue;
      }
      if e.endUserId != "" && PairKey(e.orgId, e.endUserId) !in gate.endUsers {
        result := result.(failedCount := result.failedCount + 1,
                          userNotInOrgCount := result.userNotInOrgCount + 1,
                          errors := result.errors + [BatchError(i, "END_USER_NOT_IN_ORG", e.eventId)]);
        continue;
      }
      var isFresh;
      bloomReserved, isFresh := DedupEvent(redis, fallback, cfg, bloomReserved, e, falsePositives[i], replies[i]);
      if !isFresh {
        result := result.(failedCount := result.failedCount + 1, duplicateCount := result.duplicateCount + 1);
        continue;
      }
      result := result.(accepted := result.accepted + [e]);
    }
  }
}
