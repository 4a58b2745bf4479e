/** `POST /v1/events/batch` after the body is parsed: enrich, check, deduplicate, publish. */
module BatchHandler {
  import opened Keys
  import opened Models
  import opened RedisDedup
  import opened BatchDedup
  import opened Gates

  /** `Published` carries the Kafka batch with its partition key. */
  datatype Response =
    | Refused(status: nat, code: string)
    | Published(accepted: seq<UsageEvent>, partition: string, failedCount: nat)

  /** Everything outside the handler: caches, tables, configuration, and how the services answer. */
  datatype Setting = Setting(
    cfg: Config,
    maxBatch: nat,
    pg: Postgres,
    env: Env,
    freshIds: seq<string>,
    now: int,
    falsePositives: seq<bool>,
    replies: seq<Replies>)
  {
    predicate Fits(events: seq<UsageEvent>) {
      cfg.Valid() && |freshIds| == |falsePositives| == |replies| == |events|
    }
  }

  function EnrichAll(s: Setting, kc: KeyContext, events: seq<UsageEvent>): (r: seq<UsageEvent>)
    requires s.Fits(events)
    ensures |r| == |events| && forall i :: 0 <= i < |r| ==> r[i].orgId == kc.orgId
    ensures forall i :: 0 <= i < |r| && events[i].eventId == "" ==> r[i].eventId == s.freshIds[i]
    ensures forall i :: 0 <= i < |r| && events[i].eventId != "" ==> r[i].eventId == events[i].eventId
    ensures forall i :: 0 <= i < |r| ==> r[i].endUserId == events[i].endUserId
  {
    seq(|events|, i requires 0 <= i < |events| => Enrich(events[i], kc, s.freshIds[i], s.now))
  }

  /** The maps of steps 3 and 4; the second is computed after the org keys were backfilled. */
  function GateOf(s: Setting, keys: set<string>, events: seq<UsageEvent>): Gate {
    Gate(BatchOrgs(keys, s.pg, s.env, OrgIds(events)),
         BatchEndUsers(AfterBatchOrgCheck(keys, s.pg, s.env, OrgIds(events)), s.pg, s.env, EndUserPairs(events)))
  }

  /** The deduplication run for these (raw) events. */
  function BatchOf(s: Setting, keys: set<string>, redis: Redis, kc: KeyContext, events: seq<UsageEvent>): (b: Batch)
    requires s.Fits(events)
    ensures b.Valid()
  {
    var enriched := EnrichAll(s, kc, events);
    Batch(s.cfg, GateOf(s, keys, enriched), redis, enriched, s.falsePositives, s.replies)
  }

  /** The existence keys once both checks have backfilled. */
  function KeysAfter(s: Setting, keys: set<string>, events: seq<UsageEvent>): set<string> {
    AfterBatchEndUserCheck(AfterBatchOrgCheck(keys, s.pg, s.env, OrgIds(events)), s.pg, s.env, EndUserPairs(events))
  }

  method EnrichEvents(s: Setting, kc: KeyContext, events: seq<UsageEvent>) returns (enriched: seq<UsageEvent>)
    requires s.Fits(events)
    ensures enriched == EnrichAll(s, kc, events)
  {
    enriched := [];
    for i := 0 to |events|
      invariant enriched == EnrichAll(s, kc, events)[..i]
    {
      enriched := enriched + [Enrich(events[i], kc, s.freshIds[i], s.now)];
    }
  }

  method CheckEvents(cache: Cache, s: Setting, events: seq<UsageEvent>) returns (gate: Gate)
    modifies cache
    ensures gate == GateOf(s, old(cache.keys), events)
    ensures cache.keys == KeysAfter(s, old(cache.keys), events)
  {
    var orgIds := CollectUniqueOrgIds(events);
    var validOrgs := cache.BatchOrgCheck(s.pg, s.env, orgIds);
    var pairs := CollectUniqueEndUserPairs(events);
    var validEndUsers := cache.BatchEndUserCheck(s.pg, s.env, pairs);
    gate := Gate(validOrgs, validEndUsers);
  }

  method HandleBatchEvent(cache: Cache, redis: Server, s: Setting, auth: Option<KeyContext>, events: seq<UsageEvent>)
    returns (response: Response)
    requires s.Fits(events)
    modifies cache, redis
    ensures events == [] ==> response == Refused(400, "INVALID_JSON")
    ensures |events| > s.maxBatch && events != [] ==> response == Refused(413, "BATCH_TOO_LARGE")
    ensures 0 < |events| <= s.maxBatch && auth.None? ==> response == Refused(401, "UNAUTHORIZED")
    ensures !(0 < |events| <= s.maxBatch && auth.Some?) ==> unchanged(redis) && unchanged(cache)
    ensures 0 < |events| <= s.maxBatch && auth.Some? ==>
      var b := BatchOf(s, old(cache.keys), old(redis.View()), auth.value, events);
      var result := Tally(b.events, b.Verdicts(), |events|);
      && redis.View() == b.Final().redis
      && cache.keys == KeysAfter(s, old(cache.keys), b.events)
      && response == if result.accepted == [] then Refused(400, "NO_VALID_EVENTS")
                     else Published(result.accepted, auth.value.orgId, result.failedCount)
  {
    if events == [] {
      return Refused(400, "INVALID_JSON");
    }
    if |events| > s.maxBatch {
      return Refused(413, "BATCH_TOO_LARGE");
    }
    if auth.None? {
      return Refused(401, "UNAUTHORIZED");
    }
    var kc := auth.value;
    var enriched := EnrichEvents(s, kc, events);
    var gate := CheckEvents(cache, s, enriched);
    var result := ProcessBatchEvents(redis, s.cfg, enriched, gate, s.falsePositives, s.replies);
    if |result.accepted| == 0 {
      return Refused(400, "NO_VALID_EVENTS");
    }
    return Published(result.accepted, kc.orgId, result.failedCount);
  }

  // ---- what the published batch is ----

  /** All enriched events are of one org, so the org check leaves the cache as the single path's would. */
  lemma OneOrgCheck(s: Setting, keys: set<string>, kc: KeyContext, events: seq<UsageEvent>)
    requires s.Fits(events) && s.pg.Valid() && events != []
    ensures var enriched := EnrichAll(s, kc, events);
      && OrgIds(enriched) == {kc.orgId}
      && (kc.orgId in BatchOrgs(keys, s.pg, s.env, {kc.orgId}) || !s.pg.Parses(kc.orgId) ==>
            AfterBatchOrgCheck(keys, s.pg, s.env, {kc.orgId}) == AfterVerifyOrg(keys, s.pg, s.env, kc.orgId))
      && (kc.orgId in BatchOrgs(keys, s.pg, s.env, {kc.orgId}) ==> OrgOk(keys, s.pg, s.env, kc.orgId))
  {
    var enriched := EnrichAll(s, kc, events);
    assert OrgIds(enriched) == {kc.orgId} by {
      assert enriched[0].orgId in OrgIds(enriched);
    }
    var missing := MissingOrgs(keys, s.env, {kc.orgId});
    assert missing == if Cached(keys, s.env, OrgKey(kc.orgId)) then {} else {kc.orgId};
  }

  /** The batch never admits an event with a recoverable end user that the single path would refuse. */
  lemma BatchNeverAdmitsMoreThanSinglePath(s: Setting, keys: set<string>, kc: KeyContext, events: seq<UsageEvent>,
      i: nat)
    requires s.Fits(events) && s.pg.Valid() && i < |events| && Recoverable(events[i].endUserId)
    ensures var enriched := EnrichAll(s, kc, events);
      GateOf(s, keys, enriched).Admits(enriched[i]) ==> SingleGate(keys, s.pg, s.env, enriched[i])
  {
    var enriched := EnrichAll(s, kc, events);
    OneOrgCheck(s, keys, kc, events);
    if GateOf(s, keys, enriched).Admits(enriched[i]) && enriched[i].endUserId != "" {
      BatchNeverAdmitsMore(AfterVerifyOrg(keys, s.pg, s.env, kc.orgId), s.pg, s.env, enriched, i);
    }
  }

  /** For uniform ids, the batch admits an event exactly when the single path would in the same state. */
  lemma BatchAdmitsAsSinglePath(s: Setting, keys: set<string>, kc: KeyContext, events: seq<UsageEvent>, i: nat)
    requires s.Fits(events) && s.pg.Valid() && i < |events|
    requires var enriched := EnrichAll(s, kc, events);
      OrgsUniform(s.pg.uuid, enriched) && EndUsersUniform(s.pg.uuid, enriched) && AllRecoverable(enriched)
    ensures var enriched := EnrichAll(s, kc, events);
      GateOf(s, keys, enriched).Admits(enriched[i]) <==> SingleGate(keys, s.pg, s.env, enriched[i])
  {
    var enriched := EnrichAll(s, kc, events);
    OneOrgCheck(s, keys, kc, events);
    UniformOrgsAgree(keys, s.pg, s.env, enriched, i);
    UniformEndUsersAgree(AfterVerifyOrg(keys, s.pg, s.env, kc.orgId), s.pg, s.env, enriched, i);
  }

  /**
   * What a batch admitted, the next one admits from the cache alone: with EXISTS answered and every SET
   * in effect, it needs no Postgres.
   */
  lemma NextBatchNeedsNoPostgres(s: Setting, keys: set<string>, events: seq<UsageEvent>, i: nat)
    requires s.pg.Valid() && (forall key :: s.env.answered(key) && s.env.applied(key)) && i < |events|
    requires GateOf(s, keys, events).Admits(events[i])
    ensures GateOf(s.(env := s.env.(pgAnswers := false)), KeysAfter(s, keys, events), events).Admits(events[i])
  {
    var e, keys1 := events[i], AfterBatchOrgCheck(keys, s.pg, s.env, OrgIds(events));
    var down := s.env.(pgAnswers := false);
    var keys2 := KeysAfter(s, keys, events);
    BatchOrgsAreCached(keys, s.pg, s.env, OrgIds(events), e.orgId);
    assert keys1 <= keys2 && e.orgId in OrgIds(events);
    assert AfterBatchOrgCheck(keys2, s.pg, down, OrgIds(events)) == keys2;
    if e.endUserId != "" {
      var pair := PairKey(e.orgId, e.endUserId);
      BatchEndUsersAreCached(keys1, s.pg, s.env, EndUserPairs(events), pair);
      assert pair in EndUserPairs(events);
    }
  }

  /**
   * Every published event carries the key context's org, which is the partition key; for
   * recoverable end users it passes the single path's checks; and no event id is published twice
   * under a safe outage pattern.
   */
  lemma PublishedBatchIsSound(s: Setting, keys: set<string>, redis: Redis, kc: KeyContext, events: seq<UsageEvent>)
    requires s.Fits(events)
    ensures var b := BatchOf(s, keys, redis, kc, events);
      var accepted := Tally(b.events, b.Verdicts(), |events|).accepted;
      && (forall k :: 0 <= k < |accepted| ==> accepted[k].orgId == kc.orgId)
      && (s.pg.Valid() && AllRecoverable(events) ==>
            forall k :: 0 <= k < |accepted| ==> SingleGate(keys, s.pg, s.env, accepted[k]))
      && (SafeOutage(s.replies) ==>
            forall k, l :: 0 <= k < l < |accepted| ==> accepted[k].eventId != accepted[l].eventId)
  {
    var b := BatchOf(s, keys, redis, kc, events);
    var n, vs := |events|, b.Verdicts();
    AcceptedIsInOrderSubsequence(b.events, vs, n);
    PositionsAscend(vs, n);
    var accepted, at := Tally(b.events, vs, n).accepted, Positions(vs, n);
    forall k | 0 <= k < |accepted|
      ensures accepted[k].orgId == kc.orgId
      ensures s.pg.Valid() && AllRecoverable(events) ==> SingleGate(keys, s.pg, s.env, accepted[k])
    {
      assert b.VerdictAt(at[k]) == Accepted;
      AcceptedLeavesTraces(b, at[k]);
      if s.pg.Valid() && AllRecoverable(events) {
        BatchNeverAdmitsMoreThanSinglePath(s, keys, kc, events, at[k]);
      }
    }
    if SafeOutage(s.replies) {
      SafeOutageNeverAcceptsTwice(b);
      forall k, l | 0 <= k < l < |accepted|
        ensures accepted[k].eventId != accepted[l].eventId
      {
        assert !b.AcceptsBoth(at[k], at[l]);
      }
    }
  }
}
