/**
 * The `org:{id}` existence cache against the organizations table, across the control plane, the
 * cache daemon and both ingest paths.
 */
module OrgCache {
  import opened Keys
  import opened Gates
  import opened Audit

  datatype ApiKey = ApiKey(orgId: string, endUserId: string)

  datatype State = State(pg: Postgres, keys: set<string>, audit: seq<Entry<OrgStatus>>)

  datatype Op =
    | Create(id: string, cached: bool)  // the SET took effect
    | Update(id: string)
    | Suspend(id: string, force: bool, activeSubscription: bool, uncached: bool)  // the DEL took effect
    | VerifyOrgOp(env: Env, org: string)
    | VerifyEndUserOp(env: Env, org: string, endUser: string)
    | BatchOrgOp(env: Env, orgs: set<string>)
    | BatchEndUserOp(env: Env, pairs: set<string>)
    | Expire(expired: set<string>)
    | WarmOrgs(env: Env)
    | WarmApiKeys(env: Env, apiKeys: set<ApiKey>)
    | WarmEndUsers(env: Env, active: set<EndUser>)

  function Applied(env: Env, keys: set<string>): set<string> {
    set k | k in keys && env.applied(k)
  }

  /** The suspension goes through: a live org, and no active subscription unless forced. */
  predicate Suspends(s: State, op: Op)
    requires op.Suspend?
  {
    s.pg.OrgExists(op.id) && (op.force || !op.activeSubscription)
  }

  /** The row that a request for this id finds. */
  predicate HasRow(s: State, id: string) {
    s.pg.Parses(id) && s.pg.uuid(id).value in s.pg.orgs
  }

  /** The row gets this status; the write is logged, under the id as given, with the status it replaces. */
  function Write(s: State, action: string, id: string, status: OrgStatus): State
    requires s.pg.Parses(id)
  {
    var row := s.pg.uuid(id).value;
    s.(pg := s.pg.(orgs := s.pg.orgs[row := status]),
       audit := s.audit + [Entry(action, id, Stored(s.pg.orgs, row), status)])
  }

  function WarmedByApiKeys(apiKeys: set<ApiKey>): set<string> {
    (set k | k in apiKeys :: OrgKey(k.orgId)) +
        (set k | k in apiKeys && k.endUserId != "" :: EndUserKey(k.orgId, k.endUserId))
  }

  function Apply(s: State, op: Op): State {
    match op
    case Create(id, cached) =>
      if !s.pg.Canonical(id) || id in s.pg.orgs then s else
        Write(s, "ORGANIZATION_CREATED", id, Active).(keys := s.keys + if cached then {OrgKey(id)} else {})
    case Update(id) =>
      if !HasRow(s, id) then s else
        var status := s.pg.orgs[s.pg.uuid(id).value];
        Write(s, "ORGANIZATION_UPDATED", id, if status == Suspended then Active else status)
    case Suspend(id, _, _, uncached) =>
      if !Suspends(s, op) then s else
        Write(s, "ORGANIZATION_SUSPENDED", id, Suspended).(keys := if uncached then s.keys - {OrgKey(id)} else s.keys)
    case VerifyOrgOp(env, org) => s.(keys := AfterVerifyOrg(s.keys, s.pg, env, org))
    case VerifyEndUserOp(env, org, endUser) => s.(keys := AfterVerifyEndUser(s.keys, s.pg, env, org, endUser))
    case BatchOrgOp(env, orgs) => s.(keys := AfterBatchOrgCheck(s.keys, s.pg, env, orgs))
    case BatchEndUserOp(env, pairs) => s.(keys := AfterBatchEndUserCheck(s.keys, s.pg, env, pairs))
    case Expire(expired) => s.(keys := s.keys - expired)
    case WarmOrgs(env) =>
      if !env.pgAnswers then s else
        s.(keys := s.keys + Applied(env, set o | o in s.pg.orgs && s.pg.orgs[o] == Active :: OrgKey(o)))
    case WarmApiKeys(env, apiKeys) =>
      if !env.pgAnswers then s else s.(keys := s.keys + Applied(env, WarmedByApiKeys(apiKeys)))
    case WarmEndUsers(env, active) =>
      if !env.pgAnswers then s else
        s.(keys := s.keys + Applied(env, set u | u in active :: EndUserKey(u.orgId, u.id)))
  }

  // ---- what becomes of an org ----

  /** A row changes its status only by a suspension while ACTIVE, or by an update while SUSPENDED. */
  lemma StatusEdges(s: State, op: Op, row: string)
    requires s.pg.Valid() && row in s.pg.orgs
    ensures row in Apply(s, op).pg.orgs
    ensures var before, after := s.pg.orgs[row], Apply(s, op).pg.orgs[row];
      || after == before
      || (before == Active && after == Suspended && op.Suspend? && s.pg.uuid(op.id) == Some(row))
      || (before == Suspended && after == Active && op.Update? && s.pg.uuid(op.id) == Some(row))
  {
  }

  /** A suspension, unless a subscription stands in its way, and the update after it undo each other. */
  lemma SuspendThenUpdateRestores(s: State, id: string, force: bool, subscribed: bool, uncached: bool)
    requires s.pg.Valid() && s.pg.OrgExists(id)
    ensures var suspended := Apply(s, Suspend(id, force, subscribed, uncached));
      && (subscribed && !force ==> suspended == s)
      && (force || !subscribed ==>
            && suspended.pg.orgs == s.pg.orgs[s.pg.uuid(id).value := Suspended]
            && (uncached ==> OrgKey(id) !in suspended.keys)
            && Apply(suspended, Update(id)).pg.orgs == s.pg.orgs)
  {
  }

  /** A new org is ACTIVE, and cached if its SET took effect. */
  lemma CreateActivates(s: State, id: string, cached: bool)
    requires s.pg.Canonical(id) && id !in s.pg.orgs
    ensures var s' := Apply(s, Create(id, cached));
      s'.pg.orgs == s.pg.orgs[id := Active] && s'.keys == s.keys + (if cached then {OrgKey(id)} else {})
  {
  }

  /** With Postgres answering and SETs in effect, warming caches every ACTIVE org, and what keys and end users name. */
  lemma WarmingCaches(s: State, env: Env, apiKeys: set<ApiKey>, active: set<EndUser>)
    requires env.pgAnswers && forall key :: env.applied(key)
    ensures forall o :: o in s.pg.orgs && s.pg.orgs[o] == Active ==> OrgKey(o) in Apply(s, WarmOrgs(env)).keys
    ensures forall k :: k in apiKeys ==>
      && OrgKey(k.orgId) in Apply(s, WarmApiKeys(env, apiKeys)).keys
      && (k.endUserId != "" ==> EndUserKey(k.orgId, k.endUserId) in Apply(s, WarmApiKeys(env, apiKeys)).keys)
    ensures forall u :: u in active ==> EndUserKey(u.orgId, u.id) in Apply(s, WarmEndUsers(env, active)).keys
    ensures s.keys <= Apply(s, WarmOrgs(env)).keys && s.keys <= Apply(s, WarmApiKeys(env, apiKeys)).keys
    ensures s.keys <= Apply(s, WarmEndUsers(env, active)).keys
  {
  }

  // ---- a cached org is an active org ----

  /** Whatever spelling of its id an org is cached under, it is ACTIVE. */
  ghost predicate CacheSound(s: State) {
    forall id :: s.pg.Parses(id) && OrgKey(id) in s.keys ==> s.pg.OrgExists(id)
  }

  /**
   * What the operation must not do: suspend an org that is cached under another spelling than the
   * one given, or under that one while the DEL is lost; or warm the cache from an active API key of
   * an org that is not active.
   */
  ghost predicate KeepsCacheSound(s: State, op: Op) {
    match op
    case Suspend(id, _, _, uncached) =>
      Suspends(s, op) ==> forall x :: s.pg.uuid(x) == s.pg.uuid(id) && OrgKey(x) in s.keys ==> uncached && x == id
    case WarmApiKeys(env, apiKeys) =>
      env.pgAnswers ==>
        forall k :: k in apiKeys && s.pg.Parses(k.orgId) && env.applied(OrgKey(k.orgId)) ==> s.pg.OrgExists(k.orgId)
    case _ => true
  }

  /** The org keys that an operation adds. */
  lemma NewOrgKey(s: State, op: Op, id: string)
    requires s.pg.Valid() && s.pg.Parses(id) && OrgKey(id) in Apply(s, op).keys && OrgKey(id) !in s.keys
    ensures match op
      case Create(x, _) => x == id && id !in s.pg.orgs
      case VerifyOrgOp(_, x) => x == id && s.pg.OrgExists(id)
      case BatchOrgOp(_, _) => s.pg.Canonical(id) && s.pg.OrgExists(id)
      case WarmOrgs(_) => s.pg.Canonical(id) && s.pg.OrgExists(id)
      case WarmApiKeys(env, apiKeys) =>
        env.pgAnswers && env.applied(OrgKey(id)) && exists k :: k in apiKeys && k.orgId == id
      case _ => false
  {
    forall o | OrgKey(o) == OrgKey(id)
      ensures o == id
    {
      OrgKeyInjective(o, id);
    }
    forall o, u
      ensures EndUserKey(o, u) != OrgKey(id)
    {
      OrgKeyIsNotEndUserKey(id, o, u);
    }
  }

  lemma TablesStayValid(s: State, op: Op)
    requires s.pg.Valid()
    ensures Apply(s, op).pg.Valid() && Apply(s, op).pg.uuid == s.pg.uuid
  {
  }

  /** The rows of other orgs are left alone; only a suspension ends an org's being ACTIVE. */
  lemma StaysActive(s: State, op: Op, id: string)
    requires s.pg.Valid() && s.pg.OrgExists(id)
    ensures Apply(s, op).pg.OrgExists(id) || (op.Suspend? && Suspends(s, op) && s.pg.uuid(op.id) == s.pg.uuid(id))
  {
  }

  /** From a sound cache, the invariant survives an operation exactly when it is a safe one. */
  lemma SoundIffSafe(s: State, op: Op)
    requires s.pg.Valid() && CacheSound(s)
    ensures CacheSound(Apply(s, op)) <==> KeepsCacheSound(s, op)
  {
    var s' := Apply(s, op);
    if KeepsCacheSound(s, op) {
      forall id | s'.pg.Parses(id) && OrgKey(id) in s'.keys
        ensures s'.pg.OrgExists(id)
      {
        if OrgKey(id) in s.keys {
          StaysActive(s, op, id);
        } else {
          NewOrgKey(s, op, id);
        }
      }
    } else if op.Suspend? {
      var x :| s.pg.uuid(x) == s.pg.uuid(op.id) && OrgKey(x) in s.keys && !(op.uncached && x == op.id);
      assert OrgKey(x) == OrgKey(op.id) ==> x == op.id by {
        if OrgKey(x) == OrgKey(op.id) {
          OrgKeyInjective(x, op.id);
        }
      }
      assert OrgKey(x) in s'.keys && s'.pg.Parses(x) && !s'.pg.OrgExists(x);
    } else {
      var k :| k in op.apiKeys && s.pg.Parses(k.orgId) && op.env.applied(OrgKey(k.orgId)) && !s.pg.OrgExists(k.orgId);
      assert OrgKey(k.orgId) in s'.keys;
    }
  }

  function Run(s: State, ops: seq<Op>): State
    decreases |ops|
  {
    if ops == [] then s else Apply(Run(s, ops[..|ops| - 1]), ops[|ops| - 1])
  }

  ghost predicate SafeRun(s: State, ops: seq<Op>) {
    forall k :: 0 <= k < |ops| ==> KeepsCacheSound(Run(s, ops[..k]), ops[k])
  }

  /** Over every safe run, a cached org is ACTIVE. */
  lemma {:induction false} SafeRunsKeepCacheSound(s: State, ops: seq<Op>)
    requires s.pg.Valid() && CacheSound(s) && SafeRun(s, ops)
    ensures Run(s, ops).pg.Valid() && CacheSound(Run(s, ops))
    decreases |ops|
  {
    if ops != [] {
      var front, last := ops[..|ops| - 1], ops[|ops| - 1];
      assert forall k :: 0 <= k < |front| ==> front[..k] == ops[..k] && front[k] == ops[k];
      SafeRunsKeepCacheSound(s, front);
      assert KeepsCacheSound(Run(s, front), last);
      SoundIffSafe(Run(s, front), last);
      TablesStayValid(Run(s, front), last);
    }
  }

  // ---- the audit log ----

  /** The operation writes no row, or names it by its stored spelling. */
  predicate NamesRowAsStored(s: State, op: Op) {
    match op
    case Update(id) => HasRow(s, id) ==> s.pg.Canonical(id)
    case Suspend(id, _, _, _) => Suspends(s, op) ==> s.pg.Canonical(id)
    case _ => true
  }

  /** The log goes on explaining every stored status exactly when rows are named as stored. */
  lemma AuditExplainsIff(s: State, op: Op)
    requires s.pg.Valid() && Explains(s.audit, s.pg.orgs)
    ensures Explains(Apply(s, op).audit, Apply(s, op).pg.orgs) <==> NamesRowAsStored(s, op)
  {
    var s' := Apply(s, op);
    if s'.audit != s.audit {
      var entry := s'.audit[|s.audit|];
      assert s'.audit == s.audit + [entry];
      if s.pg.Canonical(entry.id) {
        LoggedWriteExplains(s.audit, s.pg.orgs, entry);
      } else {
        HistoryExtends(s.audit, entry, entry.id);
        assert !ExplainsRow(s'.audit, s'.pg.orgs, entry.id);
      }
    }
  }

  ghost predicate NamesRowsAsStored(s: State, ops: seq<Op>) {
    forall k :: 0 <= k < |ops| ==> NamesRowAsStored(Run(s, ops[..k]), ops[k])
  }

  lemma {:induction false} RunsKeepAudit(s: State, ops: seq<Op>)
    requires s.pg.Valid() && Explains(s.audit, s.pg.orgs) && NamesRowsAsStored(s, ops)
    ensures Run(s, ops).pg.Valid() && Explains(Run(s, ops).audit, Run(s, ops).pg.orgs)
    decreases |ops|
  {
    if ops != [] {
      var front, last := ops[..|ops| - 1], ops[|ops| - 1];
      assert forall k :: 0 <= k < |front| ==> front[..k] == ops[..k] && front[k] == ops[k];
      RunsKeepAudit(s, front);
      assert NamesRowAsStored(Run(s, front), last);
      AuditExplainsIff(Run(s, front), last);
      TablesStayValid(Run(s, front), last);
    }
  }

  /**
   * With a sound cache and Postgres answering, the single path answers exactly "ACTIVE in Postgres" for
   * every spelling; the batch never says more, and the same for ids spelled as stored among UUIDs.
   */
  lemma ChecksAnswerActive(s: State, env: Env, orgs: set<string>, id: string)
    requires s.pg.Valid() && CacheSound(s) && env.pgAnswers && s.pg.Parses(id)
    ensures OrgOk(s.keys, s.pg, env, id) <==> s.pg.OrgExists(id)
    ensures id in BatchOrgs(s.keys, s.pg, env, orgs) ==> s.pg.OrgExists(id)
    ensures id in orgs && s.pg.Canonical(id) && (forall o <- orgs :: s.pg.Parses(o)) && s.pg.OrgExists(id) ==>
      id in BatchOrgs(s.keys, s.pg, env, orgs)
  {
    if id in orgs && s.pg.Canonical(id) {
      assert id in MissingOrgs(s.keys, env, orgs) ==> id in s.pg.Stored(MissingOrgs(s.keys, env, orgs));
    }
  }

  // ---- the services as they run ----

  /** The tables, the audit log and the existence keys that the services share. */
  class Deployment {
    const uuid: UuidReader
    var orgs: map<string, OrgStatus>
    var endUsers: set<EndUser>
    var audit: seq<Entry<OrgStatus>>
    const cache: Cache

    ghost function View(): State
      reads this, cache
    {
      State(Postgres(uuid, orgs, endUsers), cache.keys, audit)
    }

    constructor (pg: Postgres, cache: Cache)
      ensures this.cache == cache && View() == State(pg, cache.keys, [])
    {
      this.uuid, this.orgs, this.endUsers, this.audit := pg.uuid, pg.orgs, pg.endUsers, [];
      this.cache := cache;
    }

    /** `IdentityService.create`; ids are made in their stored spelling, and the table refuses one that is taken. */
    method CreateOrg(id: string, env: Env) returns (created: bool)
      modifies this, cache
      ensures created <==> uuid(id) == Some(id) && id !in old(orgs)
      ensures View() == Apply(old(View()), Create(id, env.applied(OrgKey(id))))
      ensures created ==> audit == old(audit) + [Entry("ORGANIZATION_CREATED", id, None, Active)]
    {
      if uuid(id) != Some(id) || id in orgs {
        return false;
      }
      orgs := orgs[id := Active];
      cache.Set(OrgKey(id), env);
      audit := audit + [Entry("ORGANIZATION_CREATED", id, None, Active)];
      return true;
    }

    /** `IdentityService.update`: any update reactivates a suspended org. */
    method UpdateOrg(id: string) returns (found: bool)
      modifies this
      ensures found <==> HasRow(old(View()), id)
      ensures View() == Apply(old(View()), Update(id))
      ensures found ==>
        var row := uuid(id).value;
        && row in old(orgs) && row in orgs && orgs == old(orgs)[row := orgs[row]]
        && orgs[row] == (if old(orgs)[row] == Deleted then Deleted else Active)
        && audit == old(audit) + [Entry("ORGANIZATION_UPDATED", id, Some(old(orgs)[row]), orgs[row])]
    {
      if uuid(id).None? || uuid(id).value !in orgs {
        return false;
      }
      var row := uuid(id).value;
      var before := orgs[row];
      var after := if before == Suspended then Active else before;
      orgs := orgs[row := after];
      audit := audit + [Entry("ORGANIZATION_UPDATED", id, Some(before), after)];
      return true;
    }

    /** `IdentityService.suspend`; `delApplied` says whether the DEL took effect. */
    method SuspendOrg(id: string, force: bool, activeSubscription: bool, delApplied: bool) returns (ok: bool)
      modifies this, cache
      ensures ok <==> HasRow(old(View()), id) && var before := old(orgs)[uuid(id).value];
                      before == Suspended || (before == Active && (force || !activeSubscription))
      ensures View() == Apply(old(View()), Suspend(id, force, activeSubscription, delApplied))
      ensures ok && old(orgs)[uuid(id).value] == Active ==>
        && orgs == old(orgs)[uuid(id).value := Suspended]
        && audit == old(audit) + [Entry("ORGANIZATION_SUSPENDED", id, Some(Active), Suspended)]
    {
      if uuid(id).None? || uuid(id).value !in orgs {
        return false;
      }
      var row := uuid(id).value;
      var before := orgs[row];
      if before == Suspended {
        return true;
      }
      if before == Deleted || (!force && activeSubscription) {
        return false;
      }
      orgs := orgs[row := Suspended];
      if delApplied {
        cache.keys := cache.keys - {OrgKey(id)};
      }
      audit := audit + [Entry("ORGANIZATION_SUSPENDED", id, Some(before), Suspended)];
      return true;
    }

    /** One SET per row of a warming query. */
    method SetAll(env: Env, keys: set<string>)
      modifies cache
      ensures cache.keys == old(cache.keys) + Applied(env, keys)
    {
      var rest := keys;
      while rest != {}
        invariant rest <= keys
        invariant cache.keys == old(cache.keys) + Applied(env, keys - rest)
        decreases rest
      {
        var key :| key in rest;
        cache.Set(key, env);
        rest := rest - {key};
      }
      assert keys - rest == keys;
    }

    /** `CacheDaemon.warmAll`: each of the three queries may fail on its own. */
    method WarmAll(orgEnv: Env, keyEnv: Env, userEnv: Env, apiKeys: set<ApiKey>, activeUsers: set<EndUser>)
      modifies cache
      ensures View() == Run(old(View()),
          [WarmOrgs(orgEnv), WarmApiKeys(keyEnv, apiKeys), WarmEndUsers(userEnv, activeUsers)])
    {
      ghost var ops := [WarmOrgs(orgEnv), WarmApiKeys(keyEnv, apiKeys), WarmEndUsers(userEnv, activeUsers)];
      if orgEnv.pgAnswers {
        SetAll(orgEnv, set o | o in orgs && orgs[o] == Active :: OrgKey(o));
      }
      assert View() == Apply(old(View()), ops[0]);
      if keyEnv.pgAnswers {
        SetAll(keyEnv, WarmedByApiKeys(apiKeys));
      }
      if userEnv.pgAnswers {
        SetAll(userEnv, set u | u in activeUsers :: EndUserKey(u.orgId, u.id));
      }
      RunOfThree(old(View()), ops);
    }
  }

  lemma {:induction false} RunOfThree(s: State, ops: seq<Op>)
    requires |ops| == 3
    ensures Run(s, ops) == Apply(Apply(Apply(s, ops[0]), ops[1]), ops[2])
  {
    assert ops[..2][..1] == ops[..1] && ops[..1][..0] == [];
    assert Run(s, ops[..1]) == Apply(Run(s, []), ops[0]);
    assert Run(s, ops[..2]) == Apply(Run(s, ops[..1]), ops[1]);
  }
}
