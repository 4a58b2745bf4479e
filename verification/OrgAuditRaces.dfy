/** Organization creations, updates and suspensions whose row writes and audit entries interleave. */
module OrgAuditRaces {
  import opened Keys
  import opened Gates
  import opened Audit
  import opened AuditRaces
  import OrgCache

  /** `update`: reactivates the org if it was read as SUSPENDED. */
  const UPDATE: Change<OrgStatus> := Change(
    "ORGANIZATION_UPDATED",
    (s: OrgStatus) => true,
    (read: OrgStatus, stored: OrgStatus) => if read == Suspended then Active else stored)

  /** `suspend`, where no active subscription stands in its way. */
  const SUSPEND: Change<OrgStatus> := Change(
    "ORGANIZATION_SUSPENDED",
    (s: OrgStatus) => s == Active,
    (read: OrgStatus, stored: OrgStatus) => Suspended)

  /** The statements that `create`, `update` and `suspend` make. */
  ghost predicate OfService(step: Step<OrgStatus>) {
    match step
    case CreateRow(_, value, action) => value == Active && action == "ORGANIZATION_CREATED"
    case ReadRow(_, change) => change == UPDATE || change == SUSPEND
    case _ => true
  }

  ghost predicate AllOfService(steps: seq<Step<OrgStatus>>) {
    forall k :: 0 <= k < |steps| ==> OfService(steps[k])
  }

  /** The table and the log, with no end users and an empty cache. */
  function AsOrgs(m: Machine<OrgStatus>): OrgCache.State {
    OrgCache.State(Postgres(m.uuid, m.rows, {}), {}, m.audit)
  }

  /** Uninterrupted, the statements of a suspension and of an update are the whole operations. */
  lemma UninterruptedOps(rules: Rules, m: Machine<OrgStatus>, id: string)
    requires Finds(m, id) && MayStart(rules, m, id, m.uuid(id).value)
    ensures var m1 := Next(rules, m, ReadRow(id, UPDATE));
      AsOrgs(Next(rules, Next(rules, m1, WriteRow(|m.tasks|)), AppendLog(|m.tasks|)))
        == OrgCache.Apply(AsOrgs(m), OrgCache.Update(id))
    ensures m.rows[m.uuid(id).value] == Active ==>
      var m1 := Next(rules, m, ReadRow(id, SUSPEND));
      AsOrgs(Next(rules, Next(rules, m1, WriteRow(|m.tasks|)), AppendLog(|m.tasks|)))
        == OrgCache.Apply(AsOrgs(m), OrgCache.Suspend(id, true, false, true))
  {
    Uninterrupted(rules, m, id, UPDATE);
    if m.rows[m.uuid(id).value] == Active {
      Uninterrupted(rules, m, id, SUSPEND);
    }
  }

  /** In every run of the service that comes to rest, the log explains every stored status. */
  ghost predicate AlwaysExplains(rules: Rules) {
    forall uuid, steps :: ReadsUuids(uuid) && AllOfService(steps) && AtRest(Run(rules, Start(uuid), steps)) ==>
      Sound(Run(rules, Start(uuid), steps))
  }

  ghost predicate Sound(m: Machine<OrgStatus>) {
    Explains(m.audit, m.rows)
  }

  /** A suspension writes; an update reads SUSPENDED, reactivates and logs; the suspension logs last. */
  const SWAPPED: seq<Step<OrgStatus>> := Swapped("x", Active, "ORGANIZATION_CREATED", SUSPEND, UPDATE)

  lemma RunsAreOfService()
    ensures AllOfService(SWAPPED) && AllOfService(RESPELLED)
  {
  }

  lemma SwappedRun(rules: Rules)
    requires rules.limit >= 2
    ensures AtRest(Run(rules, Start(TwoSpellings), SWAPPED)) && !Sound(Run(rules, Start(TwoSpellings), SWAPPED))
  {
    SwappedLogsDoNotExplain(rules, TwoSpellings, "x", "ORGANIZATION_CREATED", Active, Suspended, SUSPEND, UPDATE);
  }

  const RESPELLED: seq<Step<OrgStatus>> := Respelled("x", Active, "ORGANIZATION_CREATED", "X", SUSPEND)

  lemma RespelledRun(rules: Rules)
    requires rules.limit >= 1 && !rules.asStored
    ensures AtRest(Run(rules, Start(TwoSpellings), RESPELLED)) && !Sound(Run(rules, Start(TwoSpellings), RESPELLED))
  {
    RespelledLogDoesNotExplain(rules, TwoSpellings, "x", "ORGANIZATION_CREATED", Active, "X", SUSPEND);
  }

  lemma IdleRunsExplain(rules: Rules, uuid: UuidReader, steps: seq<Step<OrgStatus>>)
    requires rules.limit == 0
    ensures Sound(Run(rules, Start(uuid), steps))
  {
    NoRequestDoesNothing(rules, uuid, steps);
    assert forall row: string :: ExplainsRow<OrgStatus>([], map[], row);
  }

  /**
   * Over all interleavings, that holds if and only if one request per org may be under way and names
   * it by its stored spelling (or none may be under way at all).
   */
  lemma AlwaysExplainsIff(rules: Rules)
    ensures AlwaysExplains(rules) <==> rules.limit == 0 || rules == ORDERLY
  {
    if rules.limit == 0 || rules == ORDERLY {
      forall uuid: UuidReader, steps: seq<Step<OrgStatus>>
        | ReadsUuids(uuid) && AllOfService(steps) && AtRest(Run(rules, Start(uuid), steps))
        ensures Sound(Run(rules, Start(uuid), steps))
      {
        if rules.limit == 0 {
          IdleRunsExplain(rules, uuid, steps);
        } else {
          OneRequestExplains(uuid, steps);
        }
      }
    } else {
      assert ReadsUuids(TwoSpellings);
      RunsAreOfService();
      if rules.limit >= 2 {
        SwappedRun(rules);
      } else {
        RespelledRun(rules);
      }
    }
  }
}
