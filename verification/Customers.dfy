/** The customer status machine and its audit log. */
module Customers {
  import opened Keys
  import opened Audit

  datatype Status = ACTIVE | SUSPENDED | CHURNED

  datatype Customer = Customer(orgId: string, name: string, email: string, status: Status)

  datatype UpdateDto = UpdateDto(name: Option<string>, email: Option<string>, status: Option<Status>)

  /** The id column is of type uuid; the audit log keeps ids as they were given. */
  datatype State = State(uuid: UuidReader, rows: map<string, Customer>, audit: seq<Entry<Customer>>) {
    /** A request for this id finds a row. */
    predicate Finds(id: string) {
      uuid(id).Some? && uuid(id).value in rows
    }

    function Row(id: string): Customer
      requires Finds(id)
    {
      rows[uuid(id).value]
    }

    ghost predicate Valid() {
      ReadsUuids(uuid) && forall id <- rows :: uuid(id) == Some(id)
    }
  }

  predicate Allowed(current: Status, next: Status) {
    match current
    case ACTIVE => next == SUSPENDED
    case SUSPENDED => next == ACTIVE || next == CHURNED
    case CHURNED => false
  }

  /** `validateStatusTransition` lets the update through. */
  predicate Validates(current: Status, next: Option<Status>) {
    next.None? || next.value == current || Allowed(current, next.value)
  }

  function GetOr<T>(o: Option<T>, default: T): T {
    if o.Some? then o.value else default
  }

  function Merge(c: Customer, dto: UpdateDto): Customer {
    c.(name := GetOr(dto.name, c.name), email := GetOr(dto.email, c.email), status := GetOr(dto.status, c.status))
  }

  /** Given fields are taken over, the others are kept, and the org never changes. */
  lemma MergeTakesWhatIsGiven(c: Customer, dto: UpdateDto)
    ensures var m := Merge(c, dto);
      && (dto.name.Some? ==> m.name == dto.name.value) && (dto.name.None? ==> m.name == c.name)
      && (dto.email.Some? ==> m.email == dto.email.value) && (dto.email.None? ==> m.email == c.email)
      && (dto.status.Some? ==> m.status == dto.status.value) && (dto.status.None? ==> m.status == c.status)
      && m.orgId == c.orgId
  {
  }

  function StatusName(s: Status): string {
    match s
    case ACTIVE => "ACTIVE"
    case SUSPENDED => "SUSPENDED"
    case CHURNED => "CHURNED"
  }

  function Action(dto: UpdateDto): string {
    if dto.status.Some? then "CUSTOMER_" + StatusName(dto.status.value) else "CUSTOMER_UPDATED"
  }

  datatype Op = Create(id: string, orgId: string, name: string, email: string) | Update(id: string, dto: UpdateDto)

  /** The second half of `update`: merge into the stored row, log against the row that was read. */
  function Commit(s: State, id: string, read: Customer, dto: UpdateDto): State
    requires s.Finds(id)
  {
    var updated := Merge(s.Row(id), dto);
    s.(rows := s.rows[s.uuid(id).value := updated], audit := s.audit + [Entry(Action(dto), id, Some(read), updated)])
  }

  /** New ids are made in their stored spelling. */
  function Apply(s: State, op: Op): State {
    match op
    case Create(id, orgId, name, email) =>
      if s.uuid(id) != Some(id) || id in s.rows then s else
        var c := Customer(orgId, name, email, ACTIVE);
        s.(rows := s.rows[id := c], audit := s.audit + [Entry("CUSTOMER_CREATED", id, None, c)])
    case Update(id, dto) =>
      if !s.Finds(id) || !Validates(s.Row(id).status, dto.status) then s
      else Commit(s, id, s.Row(id), dto)
  }

  function Run(uuid: UuidReader, ops: seq<Op>): State
    decreases |ops|
  {
    if ops == [] then State(uuid, map[], []) else Apply(Run(uuid, ops[..|ops| - 1]), ops[|ops| - 1])
  }

  lemma {:induction false} RunsAreValid(uuid: UuidReader, ops: seq<Op>)
    requires ReadsUuids(uuid)
    ensures Run(uuid, ops).Valid() && Run(uuid, ops).uuid == uuid
    decreases |ops|
  {
    if ops != [] {
      RunsAreValid(uuid, ops[..|ops| - 1]);
    }
  }

  // ---- what becomes of a row ----

  /** Under whatever spelling it is updated, a stored customer follows allowed edges (or stays). */
  lemma RowFollowsEdges(s: State, op: Op, row: string)
    requires s.Valid() && row in s.rows
    ensures var s' := Apply(s, op);
      && row in s'.rows
      && (s'.rows[row].status == s.rows[row].status || Allowed(s.rows[row].status, s'.rows[row].status))
  {
  }

  predicate IsChurned(s: State, row: string) {
    row in s.rows && s.rows[row].status == CHURNED
  }

  lemma {:induction false} ChurnedStays(uuid: UuidReader, ops: seq<Op>, m: nat, row: string)
    requires ReadsUuids(uuid) && m <= |ops| && IsChurned(Run(uuid, ops[..m]), row)
    ensures IsChurned(Run(uuid, ops), row)
    decreases |ops|
  {
    if m == |ops| {
      assert ops[..m] == ops;
    } else {
      var front := ops[..|ops| - 1];
      assert front[..m] == ops[..m];
      ChurnedStays(uuid, front, m, row);
      RunsAreValid(uuid, front);
      RowFollowsEdges(Run(uuid, front), ops[|ops| - 1], row);
    }
  }

  lemma StepFromActiveIsNotChurned(s: State, op: Op, row: string)
    requires s.Valid() && IsChurned(Apply(s, op), row)
    ensures row in s.rows && s.rows[row].status != ACTIVE
  {
    if row in s.rows {
      RowFollowsEdges(s, op, row);
    }
  }

  /** Over every run and for every spelling: CHURNED is absorbing, and is never reached directly from ACTIVE. */
  lemma {:induction false} ChurnedIsAbsorbing(uuid: UuidReader, ops: seq<Op>, m: nat, row: string)
    requires ReadsUuids(uuid) && m < |ops| && IsChurned(Run(uuid, ops[..m + 1]), row)
    ensures IsChurned(Run(uuid, ops), row)
    ensures var before := Run(uuid, ops[..m]); row in before.rows && before.rows[row].status != ACTIVE
  {
    ChurnedStays(uuid, ops, m + 1, row);
    RunsAreValid(uuid, ops[..m]);
    assert ops[..m + 1] == ops[..m] + [ops[m]];
    RunOneMore(uuid, ops[..m], ops[m]);
    StepFromActiveIsNotChurned(Run(uuid, ops[..m]), ops[m], row);
  }

  // ---- what the log of a sequential run says ----

  /** Each entry creates an ACTIVE customer or follows an allowed edge (or stays). */
  predicate FollowsEdge(x: Entry<Customer>) {
    match x.oldValue
    case None => x.newValue.status == ACTIVE
    case Some(c) => c.status == x.newValue.status || Allowed(c.status, x.newValue.status)
  }

  ghost predicate AuditSound(s: State) {
    && Explains(s.audit, s.rows)
    && forall k :: 0 <= k < |s.audit| ==> FollowsEdge(s.audit[k])
  }

  /** The operation writes no row, or names it by its stored spelling. */
  predicate NamesRowAsStored(s: State, op: Op) {
    op.Update? && s.Finds(op.id) && Validates(s.Row(op.id).status, op.dto.status) ==> s.uuid(op.id) == Some(op.id)
  }

  /** The log goes on explaining the table exactly when rows are named as stored. */
  lemma StepAuditSoundIff(s: State, op: Op)
    requires s.Valid() && AuditSound(s)
    ensures AuditSound(Apply(s, op)) <==> NamesRowAsStored(s, op)
  {
    var s' := Apply(s, op);
    if s'.audit != s.audit {
      var entry := s'.audit[|s.audit|];
      assert s'.audit == s.audit + [entry];
      if s.uuid(entry.id) == Some(entry.id) {
        LoggedWriteExplains(s.audit, s.rows, entry);
      } else {
        HistoryExtends(s.audit, entry, entry.id);
        assert !ExplainsRow(s'.audit, s'.rows, entry.id);
      }
    }
  }

  /** Every state of the run has a sound log. */
  ghost predicate SoundThroughout(uuid: UuidReader, ops: seq<Op>)
    decreases |ops|
  {
    AuditSound(Run(uuid, ops)) && (ops == [] || SoundThroughout(uuid, ops[..|ops| - 1]))
  }

  /** Every update of the run names its row by the stored spelling. */
  ghost predicate NamedAsStored(uuid: UuidReader, ops: seq<Op>)
    decreases |ops|
  {
    ops == [] ||
    (NamedAsStored(uuid, ops[..|ops| - 1]) && NamesRowAsStored(Run(uuid, ops[..|ops| - 1]), ops[|ops| - 1]))
  }

  /** Over every sequential run: the logs are sound throughout if and only if updates name rows as stored. */
  lemma {:induction false} RunsAreAuditSoundIff(uuid: UuidReader, ops: seq<Op>)
    requires ReadsUuids(uuid)
    ensures SoundThroughout(uuid, ops) <==> NamedAsStored(uuid, ops)
    decreases |ops|
  {
    if ops != [] {
      var front := ops[..|ops| - 1];
      RunsAreAuditSoundIff(uuid, front);
      RunsAreValid(uuid, front);
      if SoundThroughout(uuid, front) {
        StepAuditSoundIff(Run(uuid, front), ops[|ops| - 1]);
      }
    }
  }

  // ---- the life of one customer, as logged under one id ----

  /** Once an entry says CHURNED, all later ones do. */
  ghost predicate ChurnStays(h: seq<Entry<Customer>>) {
    forall j, k :: 0 <= j <= k < |h| && h[j].newValue.status == CHURNED ==> h[k].newValue.status == CHURNED
  }

  ghost predicate SaysChurned(h: seq<Entry<Customer>>) {
    exists j :: 0 <= j < |h| && h[j].newValue.status == CHURNED
  }

  lemma ChurnAppends(h: seq<Entry<Customer>>, entry: Entry<Customer>)
    requires ChurnStays(h) && (SaysChurned(h) ==> entry.newValue.status == CHURNED)
    ensures ChurnStays(h + [entry])
    ensures SaysChurned(h + [entry]) ==> SaysChurned(h) || entry.newValue.status == CHURNED
  {
    var h' := h + [entry];
    forall j, k | 0 <= j <= k < |h'| && h'[j].newValue.status == CHURNED
      ensures h'[k].newValue.status == CHURNED
    {
      if j < |h| {
        assert h[j].newValue.status == CHURNED;
      }
    }
  }

  /** An operation's log entry has the row it wrote as its new value. */
  lemma EntryIsTheRow(s: State, op: Op)
    requires s.Valid()
    ensures var s' := Apply(s, op);
      || s'.audit == s.audit
      || (s'.audit == s.audit + [s'.audit[|s.audit|]]
          && var entry := s'.audit[|s.audit|]; s'.Finds(entry.id) && s'.Row(entry.id) == entry.newValue)
  {
  }

  /** A CHURNED row is still CHURNED. */
  lemma StepKeepsRowChurned(s: State, op: Op, id: string)
    requires s.Valid() && s.Finds(id) && s.Row(id).status == CHURNED
    ensures Apply(s, op).Finds(id) && Apply(s, op).Row(id).status == CHURNED
  {
    RowFollowsEdges(s, op, s.uuid(id).value);
  }

  lemma StepKeepsChurn(s: State, op: Op, id: string)
    requires s.Valid() && ChurnStays(History(s.audit, id))
    requires SaysChurned(History(s.audit, id)) ==> s.Finds(id) && s.Row(id).status == CHURNED
    ensures var s' := Apply(s, op);
      && ChurnStays(History(s'.audit, id))
      && (SaysChurned(History(s'.audit, id)) ==> s'.Finds(id) && s'.Row(id).status == CHURNED)
  {
    var s', h := Apply(s, op), History(s.audit, id);
    if SaysChurned(h) {
      StepKeepsRowChurned(s, op, id);
    }
    EntryIsTheRow(s, op);
    if s'.audit != s.audit {
      var entry := s'.audit[|s.audit|];
      HistoryExtends(s.audit, entry, id);
      if entry.id == id {
        ChurnAppends(h, entry);
      } else {
        assert h + [] == h;
      }
    }
  }

  /** For all spellings: what is logged under one id never leaves CHURNED. */
  lemma {:induction false} LoggedChurnIsAbsorbing(uuid: UuidReader, ops: seq<Op>, id: string)
    requires ReadsUuids(uuid)
    ensures var s := Run(uuid, ops);
      && ChurnStays(History(s.audit, id))
      && (SaysChurned(History(s.audit, id)) ==> s.Finds(id) && s.Row(id).status == CHURNED)
    decreases |ops|
  {
    if ops != [] {
      LoggedChurnIsAbsorbing(uuid, ops[..|ops| - 1], id);
      RunsAreValid(uuid, ops[..|ops| - 1]);
      StepKeepsChurn(Run(uuid, ops[..|ops| - 1]), ops[|ops| - 1], id);
    }
  }

  // ---- two updates that overlap ----

  /**
   * Reading, validating and writing are separate statements. If another update comes between, and
   * the entry follows its write at once, the log still explains the table exactly when the row that
   * was read is still the stored row and was named as stored.
   */
  lemma OverlappingUpdateIff(s: State, id: string, read: Customer, dto: UpdateDto)
    requires s.Valid() && Explains(s.audit, s.rows) && s.Finds(id)
    ensures var s' := Commit(s, id, read, dto);
      Explains(s'.audit, s'.rows) <==> read == s.Row(id) && s.uuid(id) == Some(id)
  {
    var s' := Commit(s, id, read, dto);
    var entry := s'.audit[|s.audit|];
    assert s'.audit == s.audit + [entry];
    if read == s.Row(id) && s.uuid(id) == Some(id) {
      LoggedWriteExplains(s.audit, s.rows, entry);
    } else {
      HistoryExtends(s.audit, entry, id);
      assert ExplainsRow(s.audit, s.rows, id);
      var h, h' := History(s.audit, id), History(s'.audit, id);
      assert h' == h + [entry] && h'[|h|].oldValue == Some(read);
      assert s.uuid(id) == Some(id) ==> h'[|h|].oldValue != Before(h', |h|);
      assert !ExplainsRow(s'.audit, s'.rows, id);
    }
  }

  /** Committing this update moves the stored row along an allowed edge, or not at all. */
  predicate CommitFollowsEdge(s: State, id: string, read: Customer, dto: UpdateDto)
    requires s.Finds(id)
  {
    var before, after := s.Row(id).status, Merge(s.Row(id), dto).status;
    after == before || Allowed(before, after)
  }

  /**
   * An update validated against the row that was read follows the stored row's edges, whatever it
   * asks for, exactly when that row has the status it was read with or is SUSPENDED by now.
   */
  lemma OverlapFollowsEdgesIff(s: State, id: string, read: Customer)
    requires s.Finds(id)
    ensures (forall dto: UpdateDto :: Validates(read.status, dto.status) ==> CommitFollowsEdge(s, id, read, dto))
       <==> s.Row(id).status == read.status || s.Row(id).status == SUSPENDED
  {
    var stored := s.Row(id).status;
    if stored != read.status && stored != SUSPENDED {
      var next := if stored == ACTIVE then CHURNED else ACTIVE;
      var dto := UpdateDto(None, None, Some(if Validates(read.status, Some(next)) then next else read.status));
      assert Validates(read.status, dto.status) && !CommitFollowsEdge(s, id, read, dto);
    }
  }

  function StatusAfter(s: State, id: string, read: Customer, dto: UpdateDto): Status
    requires s.Finds(id)
  {
    var row := s.uuid(id).value;
    Commit(s, id, read, dto).rows[row].status
  }

  /** A CHURNED row stays CHURNED under every validated update exactly when it was read as CHURNED. */
  lemma ChurnedSurvivesOverlapIff(s: State, id: string, read: Customer)
    requires s.Finds(id) && s.Row(id).status == CHURNED
    ensures (forall dto: UpdateDto :: Validates(read.status, dto.status) ==> StatusAfter(s, id, read, dto) == CHURNED)
       <==> read.status == CHURNED
  {
    if read.status != CHURNED {
      var dto := UpdateDto(None, None, Some(ACTIVE));
      assert Validates(read.status, dto.status) && StatusAfter(s, id, read, dto) == ACTIVE;
    }
  }

  function Ask(status: Status): UpdateDto {
    UpdateDto(None, None, Some(status))
  }

  /** Read as SUSPENDED and validated for ACTIVE; churned by another update; then written: ACTIVE after CHURNED. */
  lemma {:induction false} OverlapRevivesChurned(uuid: UuidReader, id: string, org: string)
    requires uuid(id) == Some(id)
    ensures var s := Run(uuid, [] + [Create(id, org, "", "")] + [Update(id, Ask(SUSPENDED))]);
      && s.Finds(id) && Validates(s.Row(id).status, Some(ACTIVE))
      && var churned := Apply(s, Update(id, Ask(CHURNED)));
         && churned.Finds(id) && churned.Row(id).status == CHURNED
         && StatusAfter(churned, id, s.Row(id), Ask(ACTIVE)) == ACTIVE
  {
    var create := Create(id, org, "", "");
    RunOneMore(uuid, [], create);
    RunOneMore(uuid, [] + [create], Update(id, Ask(SUSPENDED)));
  }

  lemma RunOneMore(uuid: UuidReader, before: seq<Op>, op: Op)
    ensures Run(uuid, before + [op]) == Apply(Run(uuid, before), op)
  {
    assert (before + [op])[..|before|] == before;
  }

  // ---- the service as it runs ----

  class CustomerService {
    const uuid: UuidReader
    var rows: map<string, Customer>
    var audit: seq<Entry<Customer>>

    ghost function View(): State
      reads this
    {
      State(uuid, rows, audit)
    }

    constructor (uuid: UuidReader)
      ensures View() == State(uuid, map[], [])
    {
      this.uuid, rows, audit := uuid, map[], [];
    }

    method CreateCustomer(id: string, orgId: string, name: string, email: string) returns (created: bool)
      modifies this
      ensures created <==> uuid(id) == Some(id) && id !in old(rows)
      ensures View() == Apply(old(View()), Create(id, orgId, name, email))
      ensures created ==>
        var customer := Customer(orgId, name, email, ACTIVE);
        && rows == old(rows)[id := customer]
        && audit == old(audit) + [Entry("CUSTOMER_CREATED", id, None, customer)]
    {
      if uuid(id) != Some(id) || id in rows {
        return false;
      }
      var customer := Customer(orgId, name, email, ACTIVE);
      rows := rows[id := customer];
      audit := audit + [Entry("CUSTOMER_CREATED", id, None, customer)];
      return true;
    }

    method UpdateCustomer(id: string, dto: UpdateDto) returns (ok: bool)
      modifies this
      ensures ok <==> old(View()).Finds(id) && Validates(old(View()).Row(id).status, dto.status)
      ensures View() == Apply(old(View()), Update(id, dto))
      ensures !ok ==> unchanged(this)
      ensures ok ==>
        var row := uuid(id).value;
        && (forall x :: x != row ==> (x in rows <==> x in old(rows)) && (x in rows ==> rows[x] == old(rows)[x]))
        && row in rows && row in old(rows)
        && (dto.name.Some? ==> rows[row].name == dto.name.value)
        && (dto.name.None? ==> rows[row].name == old(rows)[row].name)
        && (dto.email.Some? ==> rows[row].email == dto.email.value)
        && (dto.email.None? ==> rows[row].email == old(rows)[row].email)
        && (dto.status.Some? ==> rows[row].status == dto.status.value)
        && (dto.status.None? ==> rows[row].status == old(rows)[row].status)
        && |audit| == |old(audit)| + 1 && audit[..|old(audit)|] == old(audit)
        && var entry := audit[|old(audit)|];
           && entry.id == id && entry.oldValue == Some(old(rows)[row]) && entry.newValue == rows[row]
           && (dto.status == None ==> entry.action == "CUSTOMER_UPDATED")
           && (dto.status == Some(ACTIVE) ==> entry.action == "CUSTOMER_ACTIVE")
           && (dto.status == Some(SUSPENDED) ==> entry.action == "CUSTOMER_SUSPENDED")
           && (dto.status == Some(CHURNED) ==> entry.action == "CUSTOMER_CHURNED")
    {
      if uuid(id).None? || uuid(id).value !in rows {
        return false;
      }
      var row := uuid(id).value;
      var customer := rows[row];
      if !Validates(customer.status, dto.status) {
        return false;
      }
      var updated := Merge(customer, dto);
      rows := rows[row := updated];
      audit := audit + [Entry(Action(dto), id, Some(customer), updated)];
      return true;
    }
  }
}
