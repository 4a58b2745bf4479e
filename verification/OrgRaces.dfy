/**
 * The org existence cache when operations overlap: reading or writing the organizations table and
 * the SET or DEL that follows it are separate steps, and those of different parties interleave.
 */
module OrgRaces {
  import opened Keys
  import opened Gates
  import OrgCache

  /** A write to the cache that a party has decided on and not yet sent. */
  datatype Task = SetKey(id: string) | DelKey(id: string) | Finished

  datatype State = State(org: OrgCache.State, tasks: seq<Task>)

  /**
   * `ReadActive` is the Postgres read of `verifyOrg`, of the batch check and of the org warming
   * step; `ReadApiKey` that of the API-key warming step, which does not see the org's status.
   * `UpdateRow` and `SuspendRow` act on a row that was read earlier.
   */
  datatype Step =
    | CreateRow(id: string)
    | UpdateRow(id: string, readSuspended: bool)
    | SuspendRow(id: string)
    | ReadActive(id: string)
    | ReadApiKey(id: string)
    | Send(t: nat, applied: bool)
    | Expire(key: string)

  /**
   * What a deployment could enforce: a suspension waits for the SETs that are under way for its
   * org and names it by its stored spelling, so do the checks that cache it, every DEL takes effect,
   * and only orgs that are ACTIVE have active API keys.
   */
  datatype Rules = Rules(
    suspendWaits: bool,
    suspendsAsStored: bool,
    cachesAsStored: bool,
    delsLand: bool,
    keysOfActive: bool)

  predicate Active(s: State, id: string) {
    s.org.pg.OrgExists(id)
  }

  /** The row gets this status. */
  function SetRow(s: State, id: string, status: OrgStatus): State
    requires s.org.pg.Parses(id)
  {
    s.(org := s.org.(pg := s.org.pg.(orgs := s.org.pg.orgs[s.org.pg.uuid(id).value := status])))
  }

  /** A suspension of this org may write its row. */
  predicate MaySuspend(rules: Rules, s: State, id: string) {
    && OrgCache.HasRow(s.org, id)
    && (rules.suspendWaits ==> SetKey(s.org.pg.uuid(id).value) !in s.tasks)
    && (rules.suspendsAsStored ==> s.org.pg.Canonical(id))
  }

  /** A party that is to cache this org may go on. */
  predicate MayCache(rules: Rules, s: State, id: string) {
    rules.cachesAsStored ==> s.org.pg.Canonical(id)
  }

  function Later(s: State, task: Task): State {
    s.(tasks := s.tasks + [task])
  }

  function SetKeys(s: State, keys: set<string>): State {
    s.(org := s.org.(keys := keys))
  }

  /** The task is carried out: its SET or DEL takes effect or not. */
  function Sent(s: State, t: nat, effective: bool): State
    requires t < |s.tasks|
  {
    var s' := s.(tasks := s.tasks[t := Finished]);
    match s.tasks[t]
    case SetKey(id) => if effective then SetKeys(s', s.org.keys + {OrgKey(id)}) else s'
    case DelKey(id) => if effective then SetKeys(s', s.org.keys - {OrgKey(id)}) else s'
    case Finished => s
  }

  predicate Effective(rules: Rules, s: State, step: Step)
    requires step.Send? && step.t < |s.tasks|
  {
    step.applied || (rules.delsLand && s.tasks[step.t].DelKey?)
  }

  /** One step of one party; a step that is not enabled changes nothing. */
  function Next(rules: Rules, s: State, step: Step): State {
    match step
    case CreateRow(id) =>
      if !s.org.pg.Canonical(id) || id in s.org.pg.orgs then s else Later(SetRow(s, id, OrgStatus.Active), SetKey(id))
    case UpdateRow(id, readSuspended) =>
      if OrgCache.HasRow(s.org, id) && readSuspended then SetRow(s, id, OrgStatus.Active) else s
    case SuspendRow(id) => if MaySuspend(rules, s, id) then Later(SetRow(s, id, Suspended), DelKey(id)) else s
    case ReadActive(id) => if Active(s, id) && MayCache(rules, s, id) then Later(s, SetKey(id)) else s
    case ReadApiKey(id) =>
      if (rules.keysOfActive && !Active(s, id)) || !MayCache(rules, s, id) then s else Later(s, SetKey(id))
    case Send(t, _) => if t < |s.tasks| then Sent(s, t, Effective(rules, s, step)) else s
    case Expire(key) => SetKeys(s, s.org.keys - {key})
  }

  function Run(rules: Rules, s: State, steps: seq<Step>): State
    decreases |steps|
  {
    if steps == [] then s else Next(rules, Run(rules, s, steps[..|steps| - 1]), steps[|steps| - 1])
  }

  // ---- uninterrupted, the steps are the whole operations ----

  /** The tables and the cache are the same; the step machine keeps no log. */
  ghost predicate SameTablesAndCache(s: OrgCache.State, s': OrgCache.State) {
    s.pg == s'.pg && s.keys == s'.keys
  }

  lemma UninterruptedSuspend(rules: Rules, s: State, op: OrgCache.Op)
    requires op.Suspend? && OrgCache.Suspends(s.org, op) && MaySuspend(rules, s, op.id) && !rules.delsLand
    ensures SameTablesAndCache(Next(rules, Next(rules, s, SuspendRow(op.id)), Send(|s.tasks|, op.uncached)).org,
                               OrgCache.Apply(s.org, op))
  {
  }

  lemma UninterruptedVerify(rules: Rules, s: State, env: Env, id: string)
    requires env.pgAnswers && !Cached(s.org.keys, env, OrgKey(id)) && MayCache(rules, s, id)
    ensures Active(s, id) ==>
      SameTablesAndCache(Next(rules, Next(rules, s, ReadActive(id)), Send(|s.tasks|, env.applied(OrgKey(id)))).org,
                         OrgCache.Apply(s.org, OrgCache.VerifyOrgOp(env, id)))
    ensures !Active(s, id) ==>
      SameTablesAndCache(Next(rules, s, ReadActive(id)).org, OrgCache.Apply(s.org, OrgCache.VerifyOrgOp(env, id)))
  {
  }

  lemma UninterruptedUpdate(rules: Rules, s: State, id: string)
    requires OrgCache.HasRow(s.org, id)
    ensures SameTablesAndCache(Next(rules, s, UpdateRow(id, s.org.pg.orgs[s.org.pg.uuid(id).value] == Suspended)).org,
                               OrgCache.Apply(s.org, OrgCache.Update(id)))
  {
    var orgs, row := s.org.pg.orgs, s.org.pg.uuid(id).value;
    assert orgs[row := orgs[row]] == orgs;
  }

  lemma UninterruptedApiKey(rules: Rules, s: State, env: Env, id: string)
    requires env.pgAnswers && MayCache(rules, s, id) && (rules.keysOfActive ==> Active(s, id))
    ensures var s' := Next(rules, Next(rules, s, ReadApiKey(id)), Send(|s.tasks|, env.applied(OrgKey(id))));
      SameTablesAndCache(s'.org, OrgCache.Apply(s.org, OrgCache.WarmApiKeys(env, {OrgCache.ApiKey(id, "")})))
  {
  }

  lemma UninterruptedCreate(rules: Rules, s: State, id: string, cached: bool)
    requires s.org.pg.Canonical(id) && id !in s.org.pg.orgs
    ensures SameTablesAndCache(Next(rules, Next(rules, s, CreateRow(id)), Send(|s.tasks|, cached)).org,
                               OrgCache.Apply(s.org, OrgCache.Create(id, cached)))
  {
  }

  // ---- what a step may do ----

  /** An org is ACTIVE, or the DEL is still to come, for each spelling it is cached under. */
  ghost predicate Sound(s: State) {
    forall id :: s.org.pg.Parses(id) && OrgKey(id) in s.org.keys ==> Excused(s, id)
  }

  predicate Excused(s: State, id: string) {
    Active(s, id) || DelKey(id) in s.tasks
  }

  /** Once nothing is under way, soundness is the plain "cached implies ACTIVE". */
  lemma SoundAtRest(s: State)
    requires forall t :: 0 <= t < |s.tasks| ==> s.tasks[t] == Finished
    ensures Sound(s) <==> OrgCache.CacheSound(s.org)
  {
    assert forall id :: DelKey(id) !in s.tasks;
  }

  /**
   * A SET may only take effect while its org is ACTIVE or has a DEL to come; a DEL may only be lost
   * if its org is not cached, ACTIVE again or has another DEL to come; and a suspension needs a
   * DEL to come for every other spelling that its org is cached under.
   */
  ghost predicate Safe(rules: Rules, s: State, step: Step) {
    match step
    case Send(t, _) =>
      t < |s.tasks| && !s.tasks[t].Finished? && s.org.pg.Parses(s.tasks[t].id) ==>
        var id := s.tasks[t].id;
        if s.tasks[t].SetKey? then Effective(rules, s, step) ==> Excused(s, id)
        else !Effective(rules, s, step) && OrgKey(id) in s.org.keys ==>
               Active(s, id) || DelKey(id) in s.tasks[t := Finished]
    case SuspendRow(id) =>
      MaySuspend(rules, s, id) ==>
        forall x :: s.org.pg.uuid(x) == s.org.pg.uuid(id) && OrgKey(x) in s.org.keys ==> x == id || DelKey(x) in s.tasks
    case _ => true
  }

  lemma TasksAfter(s: State, t: nat, task: Task)
    requires t < |s.tasks| && task != s.tasks[t] && task != Finished
    ensures task in s.tasks[t := Finished] <==> task in s.tasks
  {
    if k :| 0 <= k < |s.tasks| && s.tasks[k] == task {
      assert s.tasks[t := Finished][k] == task;
    }
  }

  lemma SendSoundIff(rules: Rules, s: State, step: Step)
    requires Sound(s) && step.Send? && step.t < |s.tasks| && !s.tasks[step.t].Finished?
    ensures Sound(Next(rules, s, step)) <==> Safe(rules, s, step)
  {
    var s', task := Next(rules, s, step), s.tasks[step.t];
    forall id
      ensures id != task.id ==>
          (OrgKey(id) in s'.org.keys <==> OrgKey(id) in s.org.keys) && (Excused(s', id) <==> Excused(s, id))
      ensures task.SetKey? ==> (Excused(s', id) <==> Excused(s, id))
    {
      if OrgKey(id) == OrgKey(task.id) {
        OrgKeyInjective(id, task.id);
      }
      if DelKey(id) != task {
        TasksAfter(s, step.t, DelKey(id));
      }
    }
    if Safe(rules, s, step) {
      forall id | s.org.pg.Parses(id) && OrgKey(id) in s'.org.keys
        ensures Excused(s', id)
      {
      }
    } else {
      assert OrgKey(task.id) in s'.org.keys && !Excused(s', task.id);
    }
  }

  lemma SuspendSoundIff(rules: Rules, s: State, id: string)
    requires s.org.pg.Valid() && Sound(s) && MaySuspend(rules, s, id)
    ensures Sound(Next(rules, s, SuspendRow(id))) <==> Safe(rules, s, SuspendRow(id))
  {
    var s' := Next(rules, s, SuspendRow(id));
    assert s'.tasks[|s.tasks|] == DelKey(id);
    forall x | s.org.pg.Parses(x)
      ensures Active(s', x) <==> Active(s, x) && s.org.pg.uuid(x) != s.org.pg.uuid(id)
      ensures DelKey(x) in s'.tasks <==> DelKey(x) in s.tasks || x == id
    {
    }
    if Safe(rules, s, SuspendRow(id)) {
      forall x | s.org.pg.Parses(x) && OrgKey(x) in s'.org.keys
        ensures Excused(s', x)
      {
        assert Excused(s, x);
      }
    } else {
      var x :| s.org.pg.uuid(x) == s.org.pg.uuid(id) && OrgKey(x) in s.org.keys && x != id && DelKey(x) !in s.tasks;
      assert s.org.pg.Parses(x) && OrgKey(x) in s'.org.keys && !Excused(s', x);
    }
  }

  lemma OtherStepKeepsSound(rules: Rules, s: State, step: Step)
    requires s.org.pg.Valid() && Sound(s) && !step.Send? && !step.SuspendRow?
    ensures Sound(Next(rules, s, step))
  {
    var s' := Next(rules, s, step);
    forall id | s.org.pg.Parses(id) && OrgKey(id) in s'.org.keys
      ensures Excused(s', id)
    {
      assert Excused(s, id);
    }
  }

  lemma TablesStayValid(rules: Rules, s: State, step: Step)
    requires s.org.pg.Valid()
    ensures Next(rules, s, step).org.pg.Valid()
  {
  }

  /** From a sound state a step keeps soundness exactly when it is safe. */
  lemma StepSoundIff(rules: Rules, s: State, step: Step)
    requires s.org.pg.Valid() && Sound(s)
    ensures Sound(Next(rules, s, step)) <==> Safe(rules, s, step)
  {
    match step
    case Send(t, _) =>
      if t < |s.tasks| && !s.tasks[t].Finished? {
        SendSoundIff(rules, s, step);
      }
    case SuspendRow(id) =>
      if MaySuspend(rules, s, id) {
        SuspendSoundIff(rules, s, id);
      }
    case _ => OtherStepKeepsSound(rules, s, step);
  }

  /** A delayed SET keeps "cached implies ACTIVE" exactly when the org still is ACTIVE. */
  lemma DelayedSetIff(rules: Rules, s: State, t: nat, id: string)
    requires OrgCache.CacheSound(s.org) && t < |s.tasks| && s.tasks[t] == SetKey(id) && s.org.pg.Parses(id)
    ensures OrgCache.CacheSound(Next(rules, s, Send(t, true)).org) <==> Active(s, id)
  {
    var s' := Next(rules, s, Send(t, true));
    assert OrgKey(id) in s'.org.keys;
    forall x | OrgKey(x) == OrgKey(id)
      ensures x == id
    {
      OrgKeyInjective(x, id);
    }
  }

  /** Every state of the run is sound. */
  ghost predicate SoundThroughout(rules: Rules, s: State, steps: seq<Step>)
    decreases |steps|
  {
    Sound(Run(rules, s, steps)) && (steps == [] || SoundThroughout(rules, s, steps[..|steps| - 1]))
  }

  /** Every step of the run is safe where it is taken. */
  ghost predicate SafeThroughout(rules: Rules, s: State, steps: seq<Step>)
    decreases |steps|
  {
    steps == [] ||
    (SafeThroughout(rules, s, steps[..|steps| - 1])
     && Safe(rules, Run(rules, s, steps[..|steps| - 1]), steps[|steps| - 1]))
  }

  lemma {:induction false} RunsStayValid(rules: Rules, s: State, steps: seq<Step>)
    requires s.org.pg.Valid()
    ensures Run(rules, s, steps).org.pg.Valid()
    decreases |steps|
  {
    if steps != [] {
      RunsStayValid(rules, s, steps[..|steps| - 1]);
      TablesStayValid(rules, Run(rules, s, steps[..|steps| - 1]), steps[|steps| - 1]);
    }
  }

  /** Over every interleaving: the run is sound throughout if and only if each of its steps is safe. */
  lemma {:induction false} RunSoundIff(rules: Rules, s: State, steps: seq<Step>)
    requires s.org.pg.Valid() && Sound(s)
    ensures SoundThroughout(rules, s, steps) <==> SafeThroughout(rules, s, steps)
    decreases |steps|
  {
    if steps != [] {
      var front := steps[..|steps| - 1];
      RunSoundIff(rules, s, front);
      RunsStayValid(rules, s, front);
      if SoundThroughout(rules, s, front) {
        StepSoundIff(rules, Run(rules, s, front), steps[|steps| - 1]);
      }
    }
  }

  // ---- which rules suffice ----

  /** Every org with a SET under way is ACTIVE, and named by its stored spelling. */
  ghost predicate SetsAreDue(s: State) {
    forall t :: 0 <= t < |s.tasks| && s.tasks[t].SetKey? && s.org.pg.Parses(s.tasks[t].id) ==>
      Active(s, s.tasks[t].id) && s.org.pg.Canonical(s.tasks[t].id)
  }

  /** Orgs are cached under their stored spelling only. */
  ghost predicate CachedAsStored(org: OrgCache.State) {
    forall id :: org.pg.Parses(id) && OrgKey(id) in org.keys ==> org.pg.Canonical(id)
  }

  const ALL_RULES := Rules(true, true, true, true, true)

  lemma RulesKeepSetsDue(s: State, step: Step)
    requires s.org.pg.Valid() && SetsAreDue(s)
    ensures SetsAreDue(Next(ALL_RULES, s, step))
  {
    var s' := Next(ALL_RULES, s, step);
    forall t | 0 <= t < |s'.tasks| && s'.tasks[t].SetKey? && s.org.pg.Parses(s'.tasks[t].id)
      ensures Active(s', s'.tasks[t].id) && s.org.pg.Canonical(s'.tasks[t].id)
    {
      assert t < |s.tasks| ==> s.tasks[t] == s'.tasks[t] && Active(s, s.tasks[t].id);
    }
  }

  lemma RulesKeepSpelling(s: State, step: Step)
    requires SetsAreDue(s) && CachedAsStored(s.org)
    ensures CachedAsStored(Next(ALL_RULES, s, step).org)
  {
    var s' := Next(ALL_RULES, s, step);
    forall id | s.org.pg.Parses(id) && OrgKey(id) in s'.org.keys && OrgKey(id) !in s.org.keys
      ensures s.org.pg.Canonical(id)
    {
      OrgKeyInjective(id, s.tasks[step.t].id);
    }
  }

  lemma {:induction false} RulesKeepRunsSound(org: OrgCache.State, steps: seq<Step>)
    requires org.pg.Valid() && OrgCache.CacheSound(org) && CachedAsStored(org)
    ensures var s := Run(ALL_RULES, State(org, []), steps);
      s.org.pg.Valid() && Sound(s) && SetsAreDue(s) && CachedAsStored(s.org)
    decreases |steps|
  {
    if steps != [] {
      RulesKeepRunsSound(org, steps[..|steps| - 1]);
      var s, step := Run(ALL_RULES, State(org, []), steps[..|steps| - 1]), steps[|steps| - 1];
      assert Safe(ALL_RULES, s, step);
      StepSoundIff(ALL_RULES, s, step);
      RulesKeepSetsDue(s, step);
      RulesKeepSpelling(s, step);
      TablesStayValid(ALL_RULES, s, step);
    }
  }

  lemma RunOneMore(rules: Rules, s: State, before: seq<Step>, step: Step)
    ensures Run(rules, s, before + [step]) == Next(rules, Run(rules, s, before), step)
  {
    assert (before + [step])[..|before|] == before;
  }

  /** A deployment with one org, "o", which may also be spelled "O". */
  function OneOrg(status: OrgStatus, keys: set<string>): (org: OrgCache.State)
    ensures org.pg.Valid() && org.pg.Canonical("o")
  {
    OrgCache.State(Postgres(id => if id == "o" || id == "O" then Some("o") else None, map["o" := status], {}), keys, [])
  }

  /** The end of a run: the org is not ACTIVE, is cached under this spelling, and no DEL of that is to come. */
  ghost predicate Stuck(s: State, id: string) {
    s.org.pg.Parses(id) && !Active(s, id) && OrgKey(id) in s.org.keys && DelKey(id) !in s.tasks
  }

  lemma StuckIsUnsound(s: State, id: string)
    requires Stuck(s, id)
    ensures !Sound(s)
  {
  }

  lemma RunTwo(rules: Rules, s: State, a: Step, b: Step)
    ensures Run(rules, s, [] + [a] + [b]) == Next(rules, Next(rules, s, a), b)
  {
    RunOneMore(rules, s, [], a);
    RunOneMore(rules, s, [] + [a], b);
  }

  lemma RunFour(rules: Rules, s: State, a: Step, b: Step, c: Step, d: Step)
    ensures Run(rules, s, [] + [a] + [b] + [c] + [d])
         == Next(rules, Next(rules, Next(rules, Next(rules, s, a), b), c), d)
  {
    RunTwo(rules, s, a, b);
    RunOneMore(rules, s, [] + [a] + [b], c);
    RunOneMore(rules, s, [] + [a] + [b] + [c], d);
  }

  /** The one org, with an empty or a filled cache. */
  function Fresh(status: OrgStatus, keys: set<string>): State {
    State(OneOrg(status, keys), [])
  }

  const RACE: seq<Step> := [] + [ReadActive("o")] + [SuspendRow("o")] + [Send(1, true)] + [Send(0, true)]

  lemma ReadThenSuspend(rules: Rules)
    requires !rules.suspendWaits
    ensures var s := Next(rules, Next(rules, Fresh(OrgStatus.Active, {}), ReadActive("o")), SuspendRow("o"));
      s.tasks == [SetKey("o"), DelKey("o")] && s.org.pg.Canonical("o") && !Active(s, "o")
  {
  }

  /** A check reads ACTIVE, the org is suspended and its key deleted, then the check's SET lands. */
  lemma BackfillRace(rules: Rules)
    requires !rules.suspendWaits
    ensures Stuck(Run(rules, Fresh(OrgStatus.Active, {}), RACE), "o")
  {
    RunFour(rules, Fresh(OrgStatus.Active, {}), ReadActive("o"), SuspendRow("o"), Send(1, true), Send(0, true));
    ReadThenSuspend(rules);
  }

  /** A suspended org that is cached under this spelling stays so if the only DEL is lost or of another spelling. */
  lemma SuspendedAndKept(rules: Rules, s: State, given: string, id: string, applied: bool)
    requires MaySuspend(rules, s, given) && s.org.pg.uuid(id) == s.org.pg.uuid(given)
    requires OrgKey(id) in s.org.keys && DelKey(id) !in s.tasks
    requires (!applied && !rules.delsLand) || id != given
    ensures Stuck(Next(rules, Next(rules, s, SuspendRow(given)), Send(|s.tasks|, applied)), id)
  {
    if OrgKey(id) == OrgKey(given) {
      OrgKeyInjective(id, given);
    }
    var s1 := Next(rules, s, SuspendRow(given));
    assert s1.tasks == s.tasks + [DelKey(given)];
    var s2 := Next(rules, s1, Send(|s.tasks|, applied));
    assert s2.tasks == s.tasks + [Finished];
  }

  const RESPELLED: seq<Step> := [] + [SuspendRow("O")] + [Send(0, true)]

  /** The suspension finds the row of "o" and deletes the key of "O". */
  lemma RespelledRun(rules: Rules)
    requires !rules.suspendsAsStored
    ensures Stuck(Run(rules, Fresh(OrgStatus.Active, {OrgKey("o")}), RESPELLED), "o")
  {
    RunTwo(rules, Fresh(OrgStatus.Active, {OrgKey("o")}), SuspendRow("O"), Send(0, true));
    SuspendedAndKept(rules, Fresh(OrgStatus.Active, {OrgKey("o")}), "O", "o", true);
  }

  const RESPELLED_CHECK: seq<Step> :=
    [] + [ReadActive("O")] + [Send(0, true)] + [SuspendRow("o")] + [Send(1, true)]

  lemma CheckUnderOtherSpelling(rules: Rules)
    requires !rules.cachesAsStored
    ensures Next(rules, Next(rules, Fresh(OrgStatus.Active, {}), ReadActive("O")), Send(0, true))
         == State(OneOrg(OrgStatus.Active, {OrgKey("O")}), [Finished])
  {
  }

  /** A check caches the org under "O"; its suspension deletes the key of "o", and "O" goes on ingesting. */
  lemma RespelledCheckRun(rules: Rules)
    requires !rules.cachesAsStored
    ensures var s := Run(rules, Fresh(OrgStatus.Active, {}), RESPELLED_CHECK);
      Stuck(s, "O") && OrgOk(s.org.keys, s.org.pg, ALL_WELL, "O")
  {
    RunFour(rules, Fresh(OrgStatus.Active, {}), ReadActive("O"), Send(0, true), SuspendRow("o"), Send(1, true));
    CheckUnderOtherSpelling(rules);
    SuspendedAndKept(rules, State(OneOrg(OrgStatus.Active, {OrgKey("O")}), [Finished]), "o", "O", true);
  }

  const LOST_DEL: seq<Step> := [] + [SuspendRow("o")] + [Send(0, false)]

  lemma LostDelRun(rules: Rules)
    requires !rules.delsLand
    ensures Stuck(Run(rules, Fresh(OrgStatus.Active, {OrgKey("o")}), LOST_DEL), "o")
  {
    RunTwo(rules, Fresh(OrgStatus.Active, {OrgKey("o")}), SuspendRow("o"), Send(0, false));
    SuspendedAndKept(rules, Fresh(OrgStatus.Active, {OrgKey("o")}), "o", "o", false);
  }

  const STALE_API_KEY: seq<Step> := [] + [ReadApiKey("o")] + [Send(0, true)]

  lemma StaleApiKeyRun(rules: Rules)
    requires !rules.keysOfActive
    ensures Stuck(Run(rules, Fresh(Suspended, {}), STALE_API_KEY), "o")
  {
    RunTwo(rules, Fresh(Suspended, {}), ReadApiKey("o"), Send(0, true));
  }

  ghost predicate AlwaysSound(rules: Rules) {
    forall org: OrgCache.State, steps :: StartsSound(org) ==> Sound(Run(rules, State(org, []), steps))
  }

  ghost predicate StartsSound(org: OrgCache.State) {
    org.pg.Valid() && OrgCache.CacheSound(org) && CachedAsStored(org)
  }

  /**
   * Every interleaving, from every sound start with orgs cached as stored, stays sound if and only if
   * suspensions wait for SETs under way, suspensions and caching checks use the stored spelling, DELs
   * take effect, and only ACTIVE orgs have active API keys.
   */
  lemma AlwaysSoundIffAllRules(rules: Rules)
    ensures AlwaysSound(rules) <==> rules == ALL_RULES
  {
    if rules == ALL_RULES {
      forall org: OrgCache.State, steps: seq<Step> | StartsSound(org)
        ensures Sound(Run(rules, State(org, []), steps))
      {
        RulesKeepRunsSound(org, steps);
      }
    } else {
      var org, steps, id := FailingRun(rules);
      StuckIsUnsound(Run(rules, State(org, []), steps), id);
    }
  }

  lemma OneOrgStartsSound(status: OrgStatus, keys: set<string>)
    requires keys == {} || (keys == {OrgKey("o")} && status == OrgStatus.Active)
    ensures StartsSound(OneOrg(status, keys))
  {
    forall id | OrgKey(id) == OrgKey("o")
      ensures id == "o"
    {
      OrgKeyInjective(id, "o");
    }
  }

  lemma FailingRun(rules: Rules) returns (org: OrgCache.State, steps: seq<Step>, id: string)
    requires rules != ALL_RULES
    ensures StartsSound(org) && Stuck(Run(rules, State(org, []), steps), id)
  {
    OneOrgStartsSound(OrgStatus.Active, {});
    OneOrgStartsSound(OrgStatus.Active, {OrgKey("o")});
    OneOrgStartsSound(Suspended, {});
    id := "o";
    if !rules.suspendWaits {
      BackfillRace(rules);
      org, steps := OneOrg(OrgStatus.Active, {}), RACE;
    } else if !rules.suspendsAsStored {
      RespelledRun(rules);
      org, steps := OneOrg(OrgStatus.Active, {OrgKey("o")}), RESPELLED;
    } else if !rules.cachesAsStored {
      RespelledCheckRun(rules);
      org, steps, id := OneOrg(OrgStatus.Active, {}), RESPELLED_CHECK, "O";
    } else if !rules.delsLand {
      LostDelRun(rules);
      org, steps := OneOrg(OrgStatus.Active, {OrgKey("o")}), LOST_DEL;
    } else {
      StaleApiKeyRun(rules);
      org, steps := OneOrg(Suspended, {}), STALE_API_KEY;
    }
  }
}
