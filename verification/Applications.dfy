/** The `Application` aggregate: the only place a case's status changes. */
module Applications {
  import opened Prelude
  import opened CaseStatus

  /** One workflow execution drives one case from the version it was started at. */
  datatype WorkflowId = WorkflowId(tenant: TenantId, app: AppId, version: nat)

  datatype DomainEvent =
    | ApplicationCreated(app: AppId, tenant: TenantId, occurredAt: Time, product: ProductId)
    | ApplicationStateChanged(app: AppId, tenant: TenantId, occurredAt: Time, previous: Status,
                              next: Status, reason: string, version: nat)
    | DocumentUploaded(app: AppId, tenant: TenantId, occurredAt: Time, document: DocumentId,
                       documentType: string, objectKey: string)

  datatype Error =
    | DuplicateRequest
    | ApplicationNotFound
    | ProductNotFound
    | ProductRejected
    | DocumentNotFound
    | InvalidApplicationData
    | IllegalTransition(source: Status, target: Status)
    | ConcurrencyConflict(expected: int, actual: nat)
    | QueueEntryMissing
    | IntegrityViolation
    | NoActiveSession

  /** The persistent fields of a case. */
  datatype AppRow = AppRow(app: AppId, tenant: TenantId, product: ProductId, status: Status,
                           version: nat, updatedAt: Time, workflow: Option<WorkflowId>)

  /** A case in memory: its fields and the events not yet drained. */
  datatype Aggregate = Aggregate(row: AppRow, pending: seq<DomainEvent>)

  /** A fresh case, as `Application.create` makes it. */
  function Created(app: AppId, tenant: TenantId, product: ProductId, now: Time): Aggregate
  {
    Aggregate(AppRow(app, tenant, product, Draft, 1, now, None),
              [ApplicationCreated(app, tenant, now, product)])
  }

  /** One transition: refused when the table has no such move, and otherwise one version and one
      event further. */
  function Transition(a: Aggregate, target: Status, reason: string, now: Time): Result<Aggregate, Error>
  {
    if !IsLegal(a.row.status, target) then Err(IllegalTransition(a.row.status, target))
    else
      var version := a.row.version + 1;
      Ok(Aggregate(a.row.(status := target, version := version, updatedAt := now),
                   a.pending + [ApplicationStateChanged(a.row.app, a.row.tenant, now, a.row.status,
                                                        target, reason, version)]))
  }

  class Application {
    const app: AppId
    const tenant: TenantId
    const product: ProductId
    var status: Status
    var version: nat
    var updatedAt: Time
    var activeWorkflow: Option<WorkflowId>
    var pendingEvents: seq<DomainEvent>

    ghost function State(): Aggregate
      reads this
    {
      Aggregate(AppRow(app, tenant, product, status, version, updatedAt, activeWorkflow), pendingEvents)
    }

    /** A new draft, for an amount and a term `Create` has accepted. */
    constructor Draft(app: AppId, tenant: TenantId, product: ProductId, now: Time)
      ensures State() == Created(app, tenant, product, now)
    {
      this.app, this.tenant, this.product := app, tenant, product;
      status, version, updatedAt := CaseStatus.Status.Draft, 1, now;
      activeWorkflow := None;
      pendingEvents := [ApplicationCreated(app, tenant, now, product)];
    }

    /** A case read back from its row: nothing pending. */
    constructor FromRow(row: AppRow)
      ensures State() == Aggregate(row, [])
    {
      app, tenant, product := row.app, row.tenant, row.product;
      status, version, updatedAt := row.status, row.version, row.updatedAt;
      activeWorkflow := row.workflow;
      pendingEvents := [];
    }

    /** The row the case is stored as. */
    function Row(): (row: AppRow)
      reads this
      ensures row == State().row
    {
      AppRow(app, tenant, product, status, version, updatedAt, activeWorkflow)
    }

    method TransitionTo(target: Status, reason: string, now: Time) returns (r: Result<(), Error>)
      modifies this`status, this`version, this`updatedAt, this`pendingEvents
      ensures r.Ok? <==> IsLegal(old(status), target)
      ensures r.Ok? ==> Transition(old(State()), target, reason, now) == Ok(State())
      ensures r.Err? ==> r.error == IllegalTransition(old(status), target) && State() == old(State())
    {
      if !IsLegal(status, target) {
        return Err(IllegalTransition(status, target));
      }
      var previous := status;
      status := target;
      version := version + 1;
      updatedAt := now;
      pendingEvents := pendingEvents
        + [ApplicationStateChanged(app, tenant, now, previous, target, reason, version)];
      return Ok(());
    }

    method AttachWorkflow(workflow: WorkflowId)
      modifies this`activeWorkflow
      ensures State() == old(State()).(row := old(State()).row.(workflow := Some(workflow)))
    {
      activeWorkflow := Some(workflow);
    }

    method DetachWorkflow()
      modifies this`activeWorkflow
      ensures State() == old(State()).(row := old(State()).row.(workflow := None))
    {
      activeWorkflow := None;
    }

    /** Drains the pending events: they are returned once. */
    method PullEvents() returns (events: seq<DomainEvent>)
      modifies this`pendingEvents
      ensures events == old(pendingEvents)
      ensures State() == old(State()).(pending := [])
    {
      events := pendingEvents;
      pendingEvents := [];
    }
  }

  /** The checks `create` makes on the requested amount (in cents) and term before a draft exists. */
  method CreateDraft(app: AppId, tenant: TenantId, product: ProductId, amountInCents: int, termMonths: int,
                     now: Time) returns (r: Result<Application, Error>)
    ensures r.Ok? <==> amountInCents > 0 && termMonths >= 1
    ensures r.Ok? ==> fresh(r.value) && r.value.State() == Created(app, tenant, product, now)
    ensures r.Err? ==> r.error == InvalidApplicationData
  {
    if amountInCents <= 0 || termMonths < 1 {
      return Err(InvalidApplicationData);
    }
    var application := new Application.Draft(app, tenant, product, now);
    return Ok(application);
  }
}
