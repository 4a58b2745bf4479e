/** Customer creations and updates whose statements interleave. */
module CustomerRaces {
  import opened Keys
  import opened Audit
  import opened AuditRaces
  import Customers

  type Customer = Customers.Customer

  /** `update`: validated against the row that was read, merged into the row that is stored. */
  function UpdateChange(dto: Customers.UpdateDto): Change<Customer> {
    Change(Customers.Action(dto),
           (c: Customer) => Customers.Validates(c.status, dto.status),
           (read: Customer, stored: Customer) => Customers.Merge(stored, dto))
  }

  /** The statements that `create` and `update` make. */
  ghost predicate OfService(step: Step<Customer>) {
    match step
    case CreateRow(_, value, action) => value.status == Customers.ACTIVE && action == "CUSTOMER_CREATED"
    case ReadRow(_, change) => exists dto :: change == UpdateChange(dto)
    case _ => true
  }

  ghost predicate AllOfService(steps: seq<Step<Customer>>) {
    forall k :: 0 <= k < |steps| ==> OfService(steps[k])
  }

  /** Uninterrupted, the three statements of an update are the whole operation. */
  lemma UninterruptedUpdate(rules: Rules, m: Machine<Customer>, id: string, dto: Customers.UpdateDto)
    requires Finds(m, id) && Customers.Validates(m.rows[m.uuid(id).value].status, dto.status)
    requires MayStart(rules, m, id, m.uuid(id).value)
    ensures var m1 := Next(rules, m, ReadRow(id, UpdateChange(dto)));
      var m' := Next(rules, Next(rules, m1, WriteRow(|m.tasks|)), AppendLog(|m.tasks|));
      Customers.State(m.uuid, m'.rows, m'.audit)
        == Customers.Apply(Customers.State(m.uuid, m.rows, m.audit), Customers.Update(id, dto))
  {
    Uninterrupted(rules, m, id, UpdateChange(dto));
  }

  /** In every run of the service that comes to rest, the logs explain the table along allowed edges. */
  ghost predicate AlwaysAuditSound(rules: Rules) {
    forall uuid, steps :: ReadsUuids(uuid) && AllOfService(steps) && AtRest(Run(rules, Start(uuid), steps)) ==>
      Sound(Run(rules, Start(uuid), steps))
  }

  ghost predicate Sound(m: Machine<Customer>) {
    Customers.AuditSound(Customers.State(m.uuid, m.rows, m.audit))
  }

  lemma ServiceFollowsEdges(step: Step<Customer>)
    requires OfService(step)
    ensures MakesGood(x => Customers.FollowsEdge(x), step)
  {
  }

  lemma OrderlyRunsAreSound(uuid: UuidReader, steps: seq<Step<Customer>>)
    requires AllOfService(steps) && AtRest(Run(ORDERLY, Start(uuid), steps))
    ensures Sound(Run(ORDERLY, Start(uuid), steps))
  {
    OneRequestExplains(uuid, steps);
    forall k | 0 <= k < |steps|
      ensures MakesGood(x => Customers.FollowsEdge(x), steps[k])
    {
      ServiceFollowsEdges(steps[k]);
    }
    OneRequestLogsGood(x => Customers.FollowsEdge(x), uuid, steps);
  }

  lemma IdleRunsAreSound(rules: Rules, uuid: UuidReader, steps: seq<Step<Customer>>)
    requires rules.limit == 0
    ensures Sound(Run(rules, Start(uuid), steps))
  {
    NoRequestDoesNothing(rules, uuid, steps);
    assert forall row: string :: ExplainsRow<Customer>([], map[], row);
  }

  function Named(name: string): Customer {
    Customers.Customer("o", name, "", Customers.ACTIVE)
  }

  function Rename(name: string): Change<Customer> {
    UpdateChange(Customers.UpdateDto(Some(name), None, None))
  }

  /** Renamed to b by one request and back to a by the next, which logs first. */
  const SWAPPED: seq<Step<Customer>> := Swapped("x", Named("a"), "CUSTOMER_CREATED", Rename("b"), Rename("a"))

  lemma RunsAreOfService()
    ensures AllOfService(SWAPPED) && AllOfService(RESPELLED)
  {
  }

  lemma SwappedRun(rules: Rules)
    requires rules.limit >= 2
    ensures AtRest(Run(rules, Start(TwoSpellings), SWAPPED)) && !Sound(Run(rules, Start(TwoSpellings), SWAPPED))
  {
    assert Named("a").name != Named("b").name;
    SwappedLogsDoNotExplain(rules, TwoSpellings, "x", "CUSTOMER_CREATED", Named("a"), Named("b"), Rename("b"),
        Rename("a"));
  }

  const RESPELLED: seq<Step<Customer>> := Respelled("x", Named("a"), "CUSTOMER_CREATED", "X", Rename("b"))

  lemma RespelledRun(rules: Rules)
    requires rules.limit >= 1 && !rules.asStored
    ensures AtRest(Run(rules, Start(TwoSpellings), RESPELLED)) && !Sound(Run(rules, Start(TwoSpellings), RESPELLED))
  {
    RespelledLogDoesNotExplain(rules, TwoSpellings, "x", "CUSTOMER_CREATED", Named("a"), "X", Rename("b"));
  }

  /**
   * Over all interleavings, that holds if and only if one request per customer may be under way and
   * names it by its stored spelling (or none may be under way at all).
   */
  lemma AlwaysAuditSoundIff(rules: Rules)
    ensures AlwaysAuditSound(rules) <==> rules.limit == 0 || rules == ORDERLY
  {
    if rules.limit == 0 || rules == ORDERLY {
      forall uuid: UuidReader, steps: seq<Step<Customer>>
        | ReadsUuids(uuid) && AllOfService(steps) && AtRest(Run(rules, Start(uuid), steps))
        ensures Sound(Run(rules, Start(uuid), steps))
      {
        if rules.limit == 0 {
          IdleRunsAreSound(rules, uuid, steps);
        } else {
          OrderlyRunsAreSound(uuid, steps);
        }
      }
    } else {
      assert ReadsUuids(TwoSpellings);
      RunsAreOfService();
      if rules.limit >= 2 {
        SwappedRun(rules);
      } else {
        RespelledRun(rules);
      }
    }
  }
}
