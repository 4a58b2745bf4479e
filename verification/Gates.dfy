/** The org and end-user checks of the single path and of the batch path. */
module Gates {
  import opened Keys
  import opened Models

  datatype OrgStatus = Active | Suspended | Deleted

  datatype EndUser = EndUser(orgId: string, id: string)

  /**
   * The canonical tables the existence caches speed up. Their ids are of type uuid: a text that is
   * not read as one fails the query it is passed to.
   */
  datatype Postgres = Postgres(uuid: UuidReader, orgs: map<string, OrgStatus>, endUsers: set<EndUser>) {
    predicate Parses(id: string) {
      uuid(id).Some?
    }

    /** The id is spelled as it is stored. */
    predicate Canonical(id: string) {
      uuid(id) == Some(id)
    }

    /** No UUID contains a colon, stored spellings are read as themselves, and rows hold only those. */
    ghost predicate Valid() {
      && ReadsUuids(uuid)
      && (forall id <- orgs :: Canonical(id))
      && (forall u <- endUsers :: Canonical(u.orgId) && Canonical(u.id))
    }

    predicate OrgExists(org: string) {
      Parses(org) && var id := uuid(org).value; id in orgs && orgs[id] == Active
    }

    predicate EndUserInOrg(org: string, endUser: string) {
      Parses(org) && Parses(endUser) && EndUser(uuid(org).value, uuid(endUser).value) in endUsers
    }

    /** The stored spellings of the ids. */
    function Stored(ids: set<string>): set<string> {
      set id | id in ids && Parses(id) :: uuid(id).value
    }

    /** `batchOrgPostgres`: one id that is not a UUID fails the whole query. */
    function ActiveOrgs(ids: set<string>): set<string> {
      if forall id <- ids :: Parses(id) then set o | o in Stored(ids) && o in orgs && orgs[o] == Active else {}
    }

    /** `batchEUPG`: rows whose id is among the ids and whose org is among the orgs, in any combination. */
    function EndUsersAmong(orgIds: set<string>, ids: set<string>): set<EndUser> {
      if (forall id <- orgIds :: Parses(id)) && (forall id <- ids :: Parses(id))
      then set u | u in endUsers && u.orgId in Stored(orgIds) && u.id in Stored(ids) else {}
    }
  }

  /** Which EXISTS are answered, which SET take effect, and whether Postgres is there and answers. */
  datatype Env = Env(answered: string -> bool, applied: string -> bool, pgAnswers: bool)

  predicate Cached(keys: set<string>, env: Env, key: string) {
    env.answered(key) && key in keys
  }

  predicate OrgOk(keys: set<string>, pg: Postgres, env: Env, org: string) {
    Cached(keys, env, OrgKey(org)) || (env.pgAnswers && pg.OrgExists(org))
  }

  predicate EndUserOk(keys: set<string>, pg: Postgres, env: Env, org: string, endUser: string) {
    Cached(keys, env, EndUserKey(org, endUser)) || (env.pgAnswers && pg.EndUserInOrg(org, endUser))
  }

  /** The cache after a check of `org`: a hit changes nothing, a Postgres answer is backfilled. */
  function AfterVerifyOrg(keys: set<string>, pg: Postgres, env: Env, org: string): set<string> {
    if !Cached(keys, env, OrgKey(org)) && env.pgAnswers && pg.OrgExists(org) && env.applied(OrgKey(org))
    then keys + {OrgKey(org)} else keys
  }

  function AfterVerifyEndUser(keys: set<string>, pg: Postgres, env: Env, org: string, endUser: string): set<string> {
    var key := EndUserKey(org, endUser);
    if !Cached(keys, env, key) && env.pgAnswers && pg.EndUserInOrg(org, endUser) && env.applied(key)
    then keys + {key} else keys
  }

  /** The checks of the single path on one event, in their order. */
  predicate SingleGate(keys: set<string>, pg: Postgres, env: Env, e: UsageEvent) {
    && OrgOk(keys, pg, env, e.orgId)
    && (e.endUserId == "" || EndUserOk(AfterVerifyOrg(keys, pg, env, e.orgId), pg, env, e.orgId, e.endUserId))
  }

  /** The cache after those checks: the end user is looked up only for a known org. */
  function AfterSingleGate(keys: set<string>, pg: Postgres, env: Env, e: UsageEvent): set<string> {
    var keys1 := AfterVerifyOrg(keys, pg, env, e.orgId);
    if !OrgOk(keys, pg, env, e.orgId) || e.endUserId == "" then keys1
    else AfterVerifyEndUser(keys1, pg, env, e.orgId, e.endUserId)
  }

  // ---- splitting "org:enduser" at the last colon ----

  function Split(pair: string): (string, string) {
    SplitFrom(pair, |pair|)
  }

  /** The split, looking for the colon among the first n characters only, from the right. */
  function SplitFrom(pair: string, n: nat): (string, string)
    requires n <= |pair|
  {
    if n == 0 then (pair, "")
    else if pair[n - 1] == ':' then (pair[..n - 1], pair[n..])
    else SplitFrom(pair, n - 1)
  }

  method SplitPair(pair: string) returns (left: string, right: string)
    ensures (left, right) == Split(pair)
    ensures ':' in pair ==> PairKey(left, right) == pair && ColonFree(right)
    ensures ColonFree(pair) ==> left == pair && right == ""
  {
    var n := |pair|;
    while n > 0
      invariant 0 <= n <= |pair|
      invariant Split(pair) == SplitFrom(pair, n)
      invariant ColonFree(pair[n..])
    {
      if pair[n - 1] == ':' {
        return pair[..n - 1], pair[n..];
      }
      n := n - 1;
    }
    return pair, "";
  }

  lemma {:induction false} SplitFromUndoesJoin(org: string, endUser: string, n: nat)
    requires ColonFree(endUser) && |org| < n <= |PairKey(org, endUser)|
    ensures SplitFrom(PairKey(org, endUser), n) == (org, endUser)
  {
    var pair := PairKey(org, endUser);
    if n == |org| + 1 {
      assert pair[n - 1] == ':' && pair[..n - 1] == org && pair[n..] == endUser;
    } else {
      assert pair[n - 1] == endUser[n - 1 - |org| - 1];
      SplitFromUndoesJoin(org, endUser, n - 1);
    }
  }

  lemma SplitUndoesJoin(org: string, endUser: string)
    requires ColonFree(endUser)
    ensures Split(PairKey(org, endUser)) == (org, endUser)
  {
    SplitFromUndoesJoin(org, endUser, |PairKey(org, endUser)|);
  }

  // ---- the batch checks ----

  /** The redis key that the batch path looks up for a pair. */
  function PairCacheKey(pair: string): string {
    EndUserKey(Split(pair).0, Split(pair).1)
  }

  function MissingPairs(keys: set<string>, env: Env, pairs: set<string>): set<string> {
    set p | p in pairs && !Cached(keys, env, PairCacheKey(p))
  }

  /** The two id lists of the missing pairs. */
  function LeftParts(pairs: set<string>): set<string> {
    set p | p in pairs :: Split(p).0
  }

  function RightParts(pairs: set<string>): set<string> {
    set p | p in pairs :: Split(p).1
  }

  function PgRows(keys: set<string>, pg: Postgres, env: Env, pairs: set<string>): set<EndUser> {
    var missing := MissingPairs(keys, env, pairs);
    if env.pgAnswers then pg.EndUsersAmong(LeftParts(missing), RightParts(missing)) else {}
  }

  /** The pairs that `batchEUCheck` maps to true. */
  function BatchEndUsers(keys: set<string>, pg: Postgres, env: Env, pairs: set<string>): set<string> {
    pairs - MissingPairs(keys, env, pairs) + (set u | u in PgRows(keys, pg, env, pairs) :: PairKey(u.orgId, u.id))
  }

  function MissingOrgs(keys: set<string>, env: Env, orgs: set<string>): set<string> {
    set o | o in orgs && !Cached(keys, env, OrgKey(o))
  }

  function OrgRows(keys: set<string>, pg: Postgres, env: Env, orgs: set<string>): set<string> {
    if env.pgAnswers then pg.ActiveOrgs(MissingOrgs(keys, env, orgs)) else {}
  }

  /** The ids that `batchOrgCheck` maps to true. */
  function BatchOrgs(keys: set<string>, pg: Postgres, env: Env, orgs: set<string>): set<string> {
    orgs - MissingOrgs(keys, env, orgs) + OrgRows(keys, pg, env, orgs)
  }

  function AfterBatchOrgCheck(keys: set<string>, pg: Postgres, env: Env, orgs: set<string>): set<string> {
    keys + (set o | o in OrgRows(keys, pg, env, orgs) && env.applied(OrgKey(o)) :: OrgKey(o))
  }

  function AfterBatchEndUserCheck(keys: set<string>, pg: Postgres, env: Env, pairs: set<string>): set<string> {
    keys + (set u | u in PgRows(keys, pg, env, pairs) && env.applied(EndUserKey(u.orgId, u.id))
            :: EndUserKey(u.orgId, u.id))
  }

  function OrgIds(events: seq<UsageEvent>): set<string> {
    set i | 0 <= i < |events| :: events[i].orgId
  }

  function EndUserPairs(events: seq<UsageEvent>): set<string> {
    set i | 0 <= i < |events| && events[i].endUserId != "" :: PairKey(events[i].orgId, events[i].endUserId)
  }

  // ---- what the checks answer, and what they leave in the cache ----

  /** A hit suffices, an unanswered EXISTS is a miss, and after a miss Postgres decides, if it answers. */
  lemma OrgCheckLaws(keys: set<string>, pg: Postgres, env: Env, org: string)
    ensures env.answered(OrgKey(org)) && OrgKey(org) in keys ==> OrgOk(keys, pg, env, org)
    ensures !env.answered(OrgKey(org)) ==> (OrgOk(keys, pg, env, org) <==> OrgOk({}, pg, env, org))
    ensures OrgOk({}, pg, env, org) <==> env.pgAnswers && pg.OrgExists(org)
  {
  }

  lemma EndUserCheckLaws(keys: set<string>, pg: Postgres, env: Env, org: string, endUser: string)
    ensures env.answered(EndUserKey(org, endUser)) && EndUserKey(org, endUser) in keys ==>
      EndUserOk(keys, pg, env, org, endUser)
    ensures !env.answered(EndUserKey(org, endUser)) ==>
      (EndUserOk(keys, pg, env, org, endUser) <==> EndUserOk({}, pg, env, org, endUser))
    ensures EndUserOk({}, pg, env, org, endUser) <==> env.pgAnswers && pg.EndUserInOrg(org, endUser)
  {
  }

  /**
   * The bulk queries return a row exactly when it is there, some id asked for is read as its id (and
   * some org as its org, not necessarily of the same pair), and every id asked for is a UUID.
   */
  lemma BulkQueryLaws(pg: Postgres, orgIds: set<string>, ids: set<string>, o: string, u: EndUser)
    ensures o in pg.ActiveOrgs(orgIds) <==>
      && (forall x <- orgIds :: pg.uuid(x).Some?)
      && (exists x <- orgIds :: pg.uuid(x) == Some(o))
      && o in pg.orgs && pg.orgs[o] == Active
    ensures u in pg.EndUsersAmong(orgIds, ids) <==>
      && (forall x <- orgIds :: pg.uuid(x).Some?) && (forall x <- ids :: pg.uuid(x).Some?)
      && (exists x <- orgIds :: pg.uuid(x) == Some(u.orgId)) && (exists x <- ids :: pg.uuid(x) == Some(u.id))
      && u in pg.endUsers
  {
  }

  /** After a check that passed, if its SET takes effect, the key is cached; nothing else changes. */
  lemma VerifiedIsCached(keys: set<string>, pg: Postgres, env: Env, org: string, endUser: string)
    ensures OrgOk(keys, pg, env, org) && env.applied(OrgKey(org)) ==> OrgKey(org) in AfterVerifyOrg(keys, pg, env, org)
    ensures keys <= AfterVerifyOrg(keys, pg, env, org) <= keys + {OrgKey(org)}
    ensures !OrgOk(keys, pg, env, org) || !env.applied(OrgKey(org)) ==> AfterVerifyOrg(keys, pg, env, org) == keys
    ensures EndUserOk(keys, pg, env, org, endUser) && env.applied(EndUserKey(org, endUser)) ==>
      EndUserKey(org, endUser) in AfterVerifyEndUser(keys, pg, env, org, endUser)
    ensures keys <= AfterVerifyEndUser(keys, pg, env, org, endUser) <= keys + {EndUserKey(org, endUser)}
    ensures !EndUserOk(keys, pg, env, org, endUser) || !env.applied(EndUserKey(org, endUser)) ==>
      AfterVerifyEndUser(keys, pg, env, org, endUser) == keys
  {
  }

  /** The same of the two checks together, for an event that passes. */
  lemma PassedEventIsCached(keys: set<string>, pg: Postgres, env: Env, e: UsageEvent)
    requires SingleGate(keys, pg, env, e) && forall key :: env.applied(key)
    ensures var keys' := AfterSingleGate(keys, pg, env, e);
      && OrgKey(e.orgId) in keys'
      && (e.endUserId != "" ==> EndUserKey(e.orgId, e.endUserId) in keys')
      && keys <= keys' <= keys + {OrgKey(e.orgId), EndUserKey(e.orgId, e.endUserId)}
  {
    VerifiedIsCached(keys, pg, env, e.orgId, e.endUserId);
    VerifiedIsCached(AfterVerifyOrg(keys, pg, env, e.orgId), pg, env, e.orgId, e.endUserId);
  }

  /** Every org that the batch check passes is cached afterwards, if its SET takes effect, and no other key is added. */
  lemma BatchOrgsAreCached(keys: set<string>, pg: Postgres, env: Env, orgs: set<string>, o: string)
    requires o in BatchOrgs(keys, pg, env, orgs) && env.applied(OrgKey(o))
    ensures OrgKey(o) in AfterBatchOrgCheck(keys, pg, env, orgs)
    ensures forall key :: key in AfterBatchOrgCheck(keys, pg, env, orgs) && key !in keys ==>
      env.applied(key) && exists x :: x in BatchOrgs(keys, pg, env, orgs) && key == OrgKey(x)
    ensures keys <= AfterBatchOrgCheck(keys, pg, env, orgs)
  {
  }

  lemma BatchEndUsersAreCached(keys: set<string>, pg: Postgres, env: Env, pairs: set<string>, p: string)
    requires pg.Valid() && p in BatchEndUsers(keys, pg, env, pairs) && env.applied(PairCacheKey(p))
    ensures PairCacheKey(p) in AfterBatchEndUserCheck(keys, pg, env, pairs)
    ensures keys <= AfterBatchEndUserCheck(keys, pg, env, pairs)
    ensures forall key :: key in AfterBatchEndUserCheck(keys, pg, env, pairs) && key !in keys ==>
      env.applied(key) && exists u :: u in PgRows(keys, pg, env, pairs) && key == EndUserKey(u.orgId, u.id)
  {
    if p !in pairs - MissingPairs(keys, env, pairs) {
      var u :| u in PgRows(keys, pg, env, pairs) && PairKey(u.orgId, u.id) == p;
      assert pg.Canonical(u.id);
      SplitUndoesJoin(u.orgId, u.id);
    }
  }

  // ---- when the batch gates are the single gates ----

  ghost predicate Reads(pg: Postgres, uuid: UuidReader) {
    pg.uuid == uuid && pg.Valid()
  }

  predicate OrgGateAgrees(keys: set<string>, pg: Postgres, env: Env, events: seq<UsageEvent>, i: nat)
    requires i < |events|
  {
    events[i].orgId in BatchOrgs(keys, pg, env, OrgIds(events)) <==> OrgOk(keys, pg, env, events[i].orgId)
  }

  /** All org ids are spelled as stored, or none of them is a UUID at all. */
  predicate OrgsUniform(uuid: UuidReader, events: seq<UsageEvent>) {
    || (forall i :: 0 <= i < |events| ==> uuid(events[i].orgId) == Some(events[i].orgId))
    || (forall i :: 0 <= i < |events| ==> uuid(events[i].orgId).None?)
  }

  lemma UniformOrgsAgree(keys: set<string>, pg: Postgres, env: Env, events: seq<UsageEvent>, i: nat)
    requires pg.Valid() && OrgsUniform(pg.uuid, events) && i < |events|
    ensures OrgGateAgrees(keys, pg, env, events, i)
  {
    var org, missing := events[i].orgId, MissingOrgs(keys, env, OrgIds(events));
    assert org in OrgIds(events);
    if org in missing {
      if pg.Canonical(org) {
        assert forall o <- missing :: pg.Canonical(o);
        assert org in pg.Stored(missing);
      }
    } else {
      assert Cached(keys, env, OrgKey(org));
    }
  }

  const ALL_WELL := Env(_ => true, _ => true, true)

  /** With an empty cache every id is looked up in Postgres. */
  lemma NothingCached(events: seq<UsageEvent>)
    ensures MissingOrgs({}, ALL_WELL, OrgIds(events)) == OrgIds(events)
    ensures MissingPairs({}, ALL_WELL, EndUserPairs(events)) == EndUserPairs(events)
  {
  }

  /** A second spelling of a stored org: the single path finds the row, the batch does not recognise it. */
  lemma RespelledOrgDisagrees(uuid: UuidReader, events: seq<UsageEvent>, i: nat) returns (pg: Postgres)
    requires ReadsUuids(uuid) && i < |events| && uuid(events[i].orgId).Some? &&
        uuid(events[i].orgId).value != events[i].orgId
    ensures Reads(pg, uuid) && !OrgGateAgrees({}, pg, ALL_WELL, events, i)
  {
    var org := events[i].orgId;
    pg := Postgres(uuid, map[uuid(org).value := Active], {});
    NothingCached(events);
    assert org !in OrgRows({}, pg, ALL_WELL, OrgIds(events));
  }

  /** One org id that is no UUID makes the batch refuse an org that the single path finds. */
  lemma MalformedOrgDisagrees(uuid: UuidReader, events: seq<UsageEvent>, i: nat, j: nat) returns (pg: Postgres)
    requires ReadsUuids(uuid) && i < |events| && j < |events|
    requires uuid(events[i].orgId) == Some(events[i].orgId) && uuid(events[j].orgId).None?
    ensures Reads(pg, uuid) && !OrgGateAgrees({}, pg, ALL_WELL, events, i)
  {
    pg := Postgres(uuid, map[events[i].orgId := Active], {});
    NothingCached(events);
    assert events[j].orgId in OrgIds(events) && !pg.Parses(events[j].orgId);
    assert pg.ActiveOrgs(OrgIds(events)) == {};
  }

  /** For a list of events, the two org gates agree in every state if and only if the org ids are uniform. */
  lemma OrgGatesAgreeIff(uuid: UuidReader, events: seq<UsageEvent>)
    requires ReadsUuids(uuid)
    ensures OrgsUniform(uuid, events)
       <==> forall keys, pg, env, i :: Reads(pg, uuid) && 0 <= i < |events| ==> OrgGateAgrees(keys, pg, env, events, i)
  {
    if OrgsUniform(uuid, events) {
      forall keys, pg, env, i | Reads(pg, uuid) && 0 <= i < |events|
        ensures OrgGateAgrees(keys, pg, env, events, i)
      {
        UniformOrgsAgree(keys, pg, env, events, i);
      }
    } else if i :| 0 <= i < |events| && uuid(events[i].orgId).Some? && uuid(events[i].orgId).value != events[i].orgId {
      var _ := RespelledOrgDisagrees(uuid, events, i);
    } else {
      var i :| 0 <= i < |events| && uuid(events[i].orgId).Some?;
      var j :| 0 <= j < |events| && uuid(events[j].orgId) != Some(events[j].orgId);
      var _ := MalformedOrgDisagrees(uuid, events, i, j);
    }
  }

  /** For one event with an end user, batch and single path answer alike. */
  predicate EndUserGateAgrees(keys: set<string>, pg: Postgres, env: Env, events: seq<UsageEvent>, i: nat)
    requires i < |events|
  {
    var e := events[i];
    e.endUserId != "" ==>
      (PairKey(e.orgId, e.endUserId) in BatchEndUsers(keys, pg, env, EndUserPairs(events)) <==>
       EndUserOk(keys, pg, env, e.orgId, e.endUserId))
  }

  // ---- which end-user ids survive joining and splitting ----

  lemma {:induction false} SplitFromRejoins(pair: string, n: nat)
    requires n <= |pair| && ColonFree(pair[n..]) && !ColonFree(pair)
    ensures var (left, right) := SplitFrom(pair, n); PairKey(left, right) == pair && ColonFree(right)
  {
    assert pair[0..] == pair;
    if n > 0 && pair[n - 1] != ':' {
      assert pair[n - 1..] == [pair[n - 1]] + pair[n..];
      SplitFromRejoins(pair, n - 1);
    }
  }

  lemma SplitRejoins(pair: string)
    requires !ColonFree(pair)
    ensures var (left, right) := Split(pair); PairKey(left, right) == pair && ColonFree(right)
  {
    assert pair[|pair|..] == "";
    SplitFromRejoins(pair, |pair|);
  }

  /** If both parts of a split pair are free of colons, they are the parts that were joined. */
  lemma ColonFreePartsAreTheIds(org: string, endUser: string)
    requires var (left, right) := Split(PairKey(org, endUser)); ColonFree(left) && ColonFree(right)
    ensures Split(PairKey(org, endUser)) == (org, endUser)
  {
    var pair := PairKey(org, endUser);
    assert pair[|org|] == ':';
    SplitRejoins(pair);
    var (left, right) := Split(pair);
    PairKeyCollision(org, endUser, left, right);
    ColonFreeNeverExtended(org, left);
    assert forall k :: 0 <= k < |right| ==> pair[|left| + 1 + k] == right[k] != ':';
  }

  /**
   * Ids for which the batch looks up the same cache key as the single path: those without a colon,
   * and those because the text "enduser:" shifts into itself.
   */
  predicate Recoverable(endUser: string)
    decreases |endUser|
  {
    ColonFree(endUser) || ("enduser:" <= endUser && Recoverable(endUser[8..]))
  }

  lemma {:induction false} RecoverableShifts(x: string, last: string)
    requires ColonFree(last)
    ensures Recoverable(x + ":" + last) <==> x + ":enduser" == "enduser:" + x
    decreases |x|
  {
    var u := x + ":" + last;
    assert u[|x|] == ':';
    if |x| < 7 {
      assert (x + ":enduser")[|x|] == ':' && ("enduser:" + x)[|x|] == "enduser:"[|x|] != ':';
      assert u[|x|] != "enduser:"[|x|];
    } else if |x| == 7 {
      assert u[8..] == last && u[..8] == x + ":";
      assert (x + ":enduser")[..7] == x && ("enduser:" + x)[..7] == "enduser";
      assert x == "enduser" ==> x + ":" == "enduser:";
      assert "enduser:" <= u ==> u[..7] == "enduser:"[..7] == "enduser";
    } else {
      var y := x[8..];
      RecoverableShifts(y, last);
      assert u[..8] == x[..8] && u[8..] == y + ":" + last;
      assert x == x[..8] + y;
      assert (x + ":enduser")[..8] == x[..8] && (x + ":enduser")[8..] == y + ":enduser";
      assert ("enduser:" + x)[..8] == "enduser:" && ("enduser:" + x)[8..] == x;
      assert x[..8] == "enduser:" ==> x == "enduser:" + y;
      assert x + ":enduser" == "enduser:" + x <==> x[..8] == "enduser:" && y + ":enduser" == x;
    }
  }

  lemma RecoverableIff(org: string, endUser: string)
    ensures Recoverable(endUser) <==> PairCacheKey(PairKey(org, endUser)) == EndUserKey(org, endUser)
  {
    if ColonFree(endUser) {
      SplitUndoesJoin(org, endUser);
    } else {
      SplitRejoins(endUser);
      var (x, last) := Split(endUser);
      assert PairKey(org, endUser) == PairKey(PairKey(org, x), last);
      SplitUndoesJoin(PairKey(org, x), last);
      RecoverableShifts(x, last);
      var head := "org:" + org + ":";
      assert EndUserKey(org, endUser) == head + ("enduser:" + x) + (":" + last);
      assert PairCacheKey(PairKey(org, endUser)) == head + (x + ":enduser") + (":" + last);
      SameMiddle(head, "enduser:" + x, x + ":enduser", ":" + last);
    }
  }

  lemma SameMiddle(head: string, a: string, b: string, tail: string)
    requires |a| == |b|
    ensures head + a + tail == head + b + tail <==> a == b
  {
    assert (head + a + tail)[|head|..|head| + |a|] == a;
    assert (head + b + tail)[|head|..|head| + |b|] == b;
  }

  // ---- the end-user gates ----

  predicate SpelledAsStored(uuid: UuidReader, e: UsageEvent) {
    uuid(e.orgId) == Some(e.orgId) && uuid(e.endUserId) == Some(e.endUserId)
  }

  predicate Readable(uuid: UuidReader, e: UsageEvent) {
    uuid(e.orgId).Some? && uuid(e.endUserId).Some?
  }

  /** Of the events with an end user, all have both ids spelled as stored, or none has two UUIDs. */
  predicate EndUsersUniform(uuid: UuidReader, events: seq<UsageEvent>) {
    || (forall i :: 0 <= i < |events| && events[i].endUserId != "" ==> SpelledAsStored(uuid, events[i]))
    || (forall i :: 0 <= i < |events| && events[i].endUserId != "" ==> !Readable(uuid, events[i]))
  }

  predicate AllRecoverable(events: seq<UsageEvent>) {
    forall i :: 0 <= i < |events| ==> Recoverable(events[i].endUserId)
  }

  /** A row that the bulk query returns under the event's pair is the row of the event's ids. */
  lemma RowOfPair(keys: set<string>, pg: Postgres, env: Env, pairs: set<string>, u: EndUser, org: string,
      endUser: string)
    requires pg.Valid() && u in PgRows(keys, pg, env, pairs)
    requires PairKey(u.orgId, u.id) == PairKey(org, endUser)
    ensures u == EndUser(org, endUser) && pg.EndUserInOrg(org, endUser)
  {
    assert pg.Canonical(u.orgId) && pg.Canonical(u.id);
    SplitUndoesJoin(u.orgId, u.id);
    ColonFreePartsAreTheIds(org, endUser);
  }

  /** The batch never admits an end user that the single path refuses, if its cache key survives. */
  lemma BatchNeverAdmitsMore(keys: set<string>, pg: Postgres, env: Env, events: seq<UsageEvent>, i: nat)
    requires pg.Valid() && i < |events| && events[i].endUserId != "" && Recoverable(events[i].endUserId)
    requires PairKey(events[i].orgId, events[i].endUserId) in BatchEndUsers(keys, pg, env, EndUserPairs(events))
    ensures EndUserOk(keys, pg, env, events[i].orgId, events[i].endUserId)
  {
    var e, pairs := events[i], EndUserPairs(events);
    var pair := PairKey(e.orgId, e.endUserId);
    RecoverableIff(e.orgId, e.endUserId);
    if pair !in pairs - MissingPairs(keys, env, pairs) {
      var u :| u in PgRows(keys, pg, env, pairs) && PairKey(u.orgId, u.id) == pair;
      RowOfPair(keys, pg, env, pairs, u, e.orgId, e.endUserId);
    }
  }

  /** A pair among the events, and what its parts are. */
  lemma PairOfSomeEvent(events: seq<UsageEvent>, pair: string) returns (k: nat)
    requires pair in EndUserPairs(events)
    ensures k < |events| && events[k].endUserId != "" && pair == PairKey(events[k].orgId, events[k].endUserId)
  {
    k :| 0 <= k < |events| && events[k].endUserId != "" && pair == PairKey(events[k].orgId, events[k].endUserId);
  }

  lemma StoredSpellingsAreAllRead(pg: Postgres, events: seq<UsageEvent>, pairs: set<string>)
    requires pg.Valid() && pairs <= EndUserPairs(events)
    requires forall i :: 0 <= i < |events| && events[i].endUserId != "" ==> SpelledAsStored(pg.uuid, events[i])
    ensures forall p <- pairs :: pg.Canonical(Split(p).0) && pg.Canonical(Split(p).1)
  {
    forall p | p in pairs
      ensures pg.Canonical(Split(p).0) && pg.Canonical(Split(p).1)
    {
      var k := PairOfSomeEvent(events, p);
      assert pg.Parses(events[k].endUserId);
      SplitUndoesJoin(events[k].orgId, events[k].endUserId);
    }
  }

  lemma UniformEndUsersAgree(keys: set<string>, pg: Postgres, env: Env, events: seq<UsageEvent>, i: nat)
    requires pg.Valid() && EndUsersUniform(pg.uuid, events) && AllRecoverable(events) && i < |events|
    ensures EndUserGateAgrees(keys, pg, env, events, i)
  {
    var e, pairs := events[i], EndUserPairs(events);
    if e.endUserId != "" && EndUserOk(keys, pg, env, e.orgId, e.endUserId) {
      var pair, missing := PairKey(e.orgId, e.endUserId), MissingPairs(keys, env, pairs);
      assert pair in pairs;
      RecoverableIff(e.orgId, e.endUserId);
      if pair in missing {
        assert SpelledAsStored(pg.uuid, e);
        StoredSpellingsAreAllRead(pg, events, missing);
        SplitUndoesJoin(e.orgId, e.endUserId);
        assert e.orgId in LeftParts(missing) && e.endUserId in RightParts(missing);
        assert EndUser(e.orgId, e.endUserId) in PgRows(keys, pg, env, pairs);
      }
    }
    if e.endUserId != "" && PairKey(e.orgId, e.endUserId) in BatchEndUsers(keys, pg, env, pairs) {
      BatchNeverAdmitsMore(keys, pg, env, events, i);
    }
  }

  /** A cached end user whose id does not survive is known to the single path and refused by the batch. */
  lemma UnrecoverableDisagrees(uuid: UuidReader, events: seq<UsageEvent>, i: nat)
    requires ReadsUuids(uuid) && i < |events| && !Recoverable(events[i].endUserId)
    ensures var keys := {EndUserKey(events[i].orgId, events[i].endUserId)}; var pg := Postgres(uuid, map[], {});
      Reads(pg, uuid) && !EndUserGateAgrees(keys, pg, ALL_WELL, events, i)
  {
    RecoverableIff(events[i].orgId, events[i].endUserId);
    assert PairKey(events[i].orgId, events[i].endUserId) in EndUserPairs(events);
  }

  /** A second spelling of a stored member: the batch gets the row back under the stored spelling. */
  lemma RespelledUserDisagrees(uuid: UuidReader, events: seq<UsageEvent>, i: nat) returns (pg: Postgres)
    requires ReadsUuids(uuid) && i < |events| && events[i].endUserId != ""
    requires Readable(uuid, events[i]) && !SpelledAsStored(uuid, events[i])
    ensures Reads(pg, uuid) && !EndUserGateAgrees({}, pg, ALL_WELL, events, i)
  {
    var e, pairs := events[i], EndUserPairs(events);
    pg := Postgres(uuid, map[], {EndUser(uuid(e.orgId).value, uuid(e.endUserId).value)});
    NothingCached(events);
    forall u | u in PgRows({}, pg, ALL_WELL, pairs)
      ensures PairKey(u.orgId, u.id) != PairKey(e.orgId, e.endUserId)
    {
      if PairKey(u.orgId, u.id) == PairKey(e.orgId, e.endUserId) {
        RowOfPair({}, pg, ALL_WELL, pairs, u, e.orgId, e.endUserId);
      }
    }
  }

  /** One pair that is not two UUIDs makes the batch refuse a member that the single path finds. */
  lemma MalformedUserDisagrees(uuid: UuidReader, events: seq<UsageEvent>, i: nat, j: nat) returns (pg: Postgres)
    requires ReadsUuids(uuid) && i < |events| && j < |events|
    requires events[i].endUserId != "" && SpelledAsStored(uuid, events[i])
    requires events[j].endUserId != "" && !Readable(uuid, events[j])
    ensures Reads(pg, uuid) && !EndUserGateAgrees({}, pg, ALL_WELL, events, i)
  {
    var e, bad, pairs := events[i], events[j], EndUserPairs(events);
    pg := Postgres(uuid, map[], {EndUser(e.orgId, e.endUserId)});
    NothingCached(events);
    var pair := PairKey(bad.orgId, bad.endUserId);
    var (left, right) := Split(pair);
    assert pair in pairs && left in LeftParts(pairs) && right in RightParts(pairs);
    if pg.Parses(left) && pg.Parses(right) {
      ColonFreePartsAreTheIds(bad.orgId, bad.endUserId);
    }
    assert !(pg.Parses(left) && pg.Parses(right));
    assert PgRows({}, pg, ALL_WELL, pairs) == {};
  }

  /**
   * For a list of events, the two end-user gates agree in every Redis and Postgres state, if and
   * only if every end-user id is recoverable and the pairs are uniform.
   */
  lemma EndUserGatesAgreeIff(uuid: UuidReader, events: seq<UsageEvent>)
    requires ReadsUuids(uuid)
    ensures AllRecoverable(events) && EndUsersUniform(uuid, events)
       <==> forall keys, pg, env, i :: Reads(pg, uuid) && 0 <= i < |events| ==>
           EndUserGateAgrees(keys, pg, env, events, i)
  {
    if i :| 0 <= i < |events| && !Recoverable(events[i].endUserId) {
      UnrecoverableDisagrees(uuid, events, i);
    } else if EndUsersUniform(uuid, events) {
      forall keys, pg, env, i | Reads(pg, uuid) && 0 <= i < |events|
        ensures EndUserGateAgrees(keys, pg, env, events, i)
      {
        UniformEndUsersAgree(keys, pg, env, events, i);
      }
    } else {
      var i :| 0 <= i < |events| && events[i].endUserId != "" && Readable(uuid, events[i]);
      var j :| 0 <= j < |events| && events[j].endUserId != "" && !SpelledAsStored(uuid, events[j]);
      var _ := NonUniformDisagrees(uuid, events, i, j);
    }
  }

  lemma NonUniformDisagrees(uuid: UuidReader, events: seq<UsageEvent>, i: nat, j: nat) returns (pg: Postgres)
    requires ReadsUuids(uuid) && i < |events| && j < |events|
    requires events[i].endUserId != "" && Readable(uuid, events[i])
    requires events[j].endUserId != "" && !SpelledAsStored(uuid, events[j])
    ensures Reads(pg, uuid) && exists k :: 0 <= k < |events| && !EndUserGateAgrees({}, pg, ALL_WELL, events, k)
  {
    if !SpelledAsStored(uuid, events[i]) {
      pg := RespelledUserDisagrees(uuid, events, i);
    } else if Readable(uuid, events[j]) {
      pg := RespelledUserDisagrees(uuid, events, j);
    } else {
      pg := MalformedUserDisagrees(uuid, events, i, j);
    }
  }

  // ---- the checks as they run ----

  /** The existence keys of Redis. */
  class Cache {
    var keys: set<string>

    constructor (keys: set<string>)
      ensures this.keys == keys
    {
      this.keys := keys;
    }

    method Exists(key: string, env: Env) returns (hit: bool)
      ensures hit <==> Cached(keys, env, key)
    {
      hit := env.answered(key) && key in keys;
    }

    method Set(key: string, env: Env)
      modifies this
      ensures keys == old(keys) + if env.applied(key) then {key} else {}
    {
      if env.applied(key) {
        keys := keys + {key};
      }
    }

    method VerifyOrg(pg: Postgres, env: Env, org: string) returns (ok: bool)
      modifies this
      ensures ok <==> OrgOk(old(keys), pg, env, org)
      ensures keys == AfterVerifyOrg(old(keys), pg, env, org)
    {
      var hit := Exists(OrgKey(org), env);
      if hit {
        return true;
      }
      if env.pgAnswers && pg.OrgExists(org) {
        Set(OrgKey(org), env);
        return true;
      }
      return false;
    }

    method VerifyEndUser(pg: Postgres, env: Env, org: string, endUser: string) returns (ok: bool)
      modifies this
      ensures ok <==> EndUserOk(old(keys), pg, env, org, endUser)
      ensures keys == AfterVerifyEndUser(old(keys), pg, env, org, endUser)
    {
      var hit := Exists(EndUserKey(org, endUser), env);
      if hit {
        return true;
      }
      if env.pgAnswers && pg.EndUserInOrg(org, endUser) {
        Set(EndUserKey(org, endUser), env);
        return true;
      }
      return false;
    }

    /** The pipelined EXISTS: which ids are cached and which are missing. */
    method LookupOrgs(env: Env, orgIds: seq<string>) returns (hits: set<string>, missing: set<string>)
      ensures hits == set o | o in orgIds && Cached(keys, env, OrgKey(o))
      ensures missing == set o | o in orgIds && !Cached(keys, env, OrgKey(o))
    {
      hits, missing := {}, {};
      for i := 0 to |orgIds|
        invariant hits == set o | o in orgIds[..i] && Cached(keys, env, OrgKey(o))
        invariant missing == set o | o in orgIds[..i] && !Cached(keys, env, OrgKey(o))
      {
        assert orgIds[..i + 1] == orgIds[..i] + [orgIds[i]];
        var hit := Exists(OrgKey(orgIds[i]), env);
        if hit {
          hits := hits + {orgIds[i]};
        } else {
          missing := missing + {orgIds[i]};
        }
      }
      assert orgIds[..|orgIds|] == orgIds;
    }

    method BatchOrgCheck(pg: Postgres, env: Env, orgIds: seq<string>) returns (result: set<string>)
      modifies this
      ensures result == BatchOrgs(old(keys), pg, env, set o | o in orgIds)
      ensures keys == AfterBatchOrgCheck(old(keys), pg, env, set o | o in orgIds)
    {
      var hits, missing := LookupOrgs(env, orgIds);
      assert missing == MissingOrgs(keys, env, set o | o in orgIds);
      result := hits;
      if env.pgAnswers {
        var rows := pg.ActiveOrgs(missing);
        ghost var all := rows;
        while rows != {}
          invariant rows <= all
          invariant result == hits + (all - rows)
          invariant keys == old(keys) + (set o | o in all - rows && env.applied(OrgKey(o)) :: OrgKey(o))
          decreases rows
        {
          var org :| org in rows;
          result := result + {org};
          Set(OrgKey(org), env);
          rows := rows - {org};
        }
        assert all - rows == all;
      }
    }

    /** The pipelined EXISTS over split pairs: the cached pairs, and the two id lists of the others. */
    method LookupPairs(env: Env, pairs: seq<string>)
      returns (hits: set<string>, missingOrgs: set<string>, missingEndUsers: set<string>)
      ensures var missing := MissingPairs(keys, env, set p | p in pairs);
        && hits == (set p | p in pairs) - missing
        && missingOrgs == LeftParts(missing)
        && missingEndUsers == RightParts(missing)
    {
      hits, missingOrgs, missingEndUsers := {}, {}, {};
      ghost var missing: set<string> := {};
      for i := 0 to |pairs|
        invariant hits == set p | p in pairs[..i] && Cached(keys, env, PairCacheKey(p))
        invariant missing == set p | p in pairs[..i] && !Cached(keys, env, PairCacheKey(p))
        invariant missingOrgs == LeftParts(missing)
        invariant missingEndUsers == RightParts(missing)
      {
        assert pairs[..i + 1] == pairs[..i] + [pairs[i]];
        var org, endUser := SplitPair(pairs[i]);
        var hit := Exists(EndUserKey(org, endUser), env);
        if hit {
          hits := hits + {pairs[i]};
        } else {
          missing := missing + {pairs[i]};
          missingOrgs := missingOrgs + {org};
          missingEndUsers := missingEndUsers + {endUser};
        }
      }
      assert pairs[..|pairs|] == pairs;
      assert missing == MissingPairs(keys, env, set p | p in pairs);
    }

    /** Records the rows found in Postgres and backfills their keys. */
    method BackfillEndUsers(env: Env, rows: set<EndUser>) returns (found: set<string>)
      modifies this
      ensures found == set u | u in rows :: PairKey(u.orgId, u.id)
      ensures keys == old(keys)
        + (set u | u in rows && env.applied(EndUserKey(u.orgId, u.id)) :: EndUserKey(u.orgId, u.id))
    {
      found := {};
      var rest := rows;
      while rest != {}
        invariant rest <= rows
        invariant found == set u | u in rows - rest :: PairKey(u.orgId, u.id)
        invariant keys == old(keys)
          + (set u | u in rows - rest && env.applied(EndUserKey(u.orgId, u.id)) :: EndUserKey(u.orgId, u.id))
        decreases rest
      {
        var u :| u in rest;
        found := found + {PairKey(u.orgId, u.id)};
        Set(EndUserKey(u.orgId, u.id), env);
        rest := rest - {u};
      }
      assert rows - rest == rows;
    }

    method BatchEndUserCheck(pg: Postgres, env: Env, pairs: seq<string>) returns (result: set<string>)
      modifies this
      ensures result == BatchEndUsers(old(keys), pg, env, set p | p in pairs)
      ensures keys == AfterBatchEndUserCheck(old(keys), pg, env, set p | p in pairs)
    {
      var missingOrgs, missingEndUsers;
      result, missingOrgs, missingEndUsers := LookupPairs(env, pairs);
      if env.pgAnswers {
        var rows := pg.EndUsersAmong(missingOrgs, missingEndUsers);
        assert rows == PgRows(keys, pg, env, set p | p in pairs);
        var found := BackfillEndUsers(env, rows);
        result := result + found;
      }
    }
  }

  method CollectUniqueOrgIds(events: seq<UsageEvent>) returns (result: seq<string>)
    ensures (set o | o in result) == OrgIds(events)
    ensures forall i, j :: 0 <= i < j < |result| ==> result[i] != result[j]
  {
    result := [];
    for i := 0 to |events|
      invariant (set o | o in result) == OrgIds(events[..i])
      invariant forall i, j :: 0 <= i < j < |result| ==> result[i] != result[j]
    {
      var org := events[i].orgId;
      assert OrgIds(events[..i + 1]) == OrgIds(events[..i]) + {org} by {
        assert events[..i + 1] == events[..i] + [events[i]];
        OrgIdsAppend(events[..i], events[i]);
      }
      if org !in result {
        result := result + [org];
      }
    }
    assert events[..|events|] == events;
  }

  lemma OrgIdsAppend(events: seq<UsageEvent>, e: UsageEvent)
    ensures OrgIds(events + [e]) == OrgIds(events) + {e.orgId}
  {
    var more := events + [e];
    forall o | o in OrgIds(events) + {e.orgId}
      ensures o in OrgIds(more)
    {
      if o == e.orgId {
        assert more[|events|].orgId == o;
      } else {
        var k :| 0 <= k < |events| && events[k].orgId == o;
        assert more[k].orgId == o;
      }
    }
  }

  method CollectUniqueEndUserPairs(events: seq<UsageEvent>) returns (result: seq<string>)
    ensures (set p | p in result) == EndUserPairs(events)
    ensures forall i, j :: 0 <= i < j < |result| ==> result[i] != result[j]
  {
    result := [];
    for i := 0 to |events|
      invariant (set p | p in result) == EndUserPairs(events[..i])
      invariant forall i, j :: 0 <= i < j < |result| ==> result[i] != result[j]
    {
      var e := events[i];
      assert events[..i + 1] == events[..i] + [e];
      EndUserPairsAppend(events[..i], e);
      if e.endUserId == "" {
        continue;
      }
      var key := PairKey(e.orgId, e.endUserId);
      if key !in result {
        result := result + [key];
      }
    }
    assert events[..|events|] == events;
  }

  lemma EndUserPairsAppend(events: seq<UsageEvent>, e: UsageEvent)
    ensures EndUserPairs(events + [e])
         == EndUserPairs(events) + if e.endUserId == "" then {} else {PairKey(e.orgId, e.endUserId)}
  {
    var more := events + [e];
    assert forall k :: 0 <= k < |events| ==> more[k] == events[k];
    assert more[|events|] == e;
    forall p | p in EndUserPairs(events)
      ensures p in EndUserPairs(more)
    {
      var k :| 0 <= k < |events| && events[k].endUserId != "" && p == PairKey(events[k].orgId, events[k].endUserId);
      assert more[k] == events[k];
    }
  }
}
