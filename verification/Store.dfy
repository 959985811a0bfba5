/** The relational store, the writes a transaction stages against it, and every command of the
    program as one transaction: what it reads, what it stages, which constraint can refuse it. */
module Store {
  import opened Prelude
  import opened CaseStatus
  import opened Applications
  import opened EventMapping
  import opened Audit
  import Decimal

  // ---- Tables ---------------------------------------------------------------------------------

  datatype Operation =
    | CreateApplication
    | SubmitApplication
    | ResubmitApplication
    | UploadDocument
    | AdvanceIntakeValidation
    | AdvanceDocumentProcessing
    | ProcessDocument
    | VerifyApplicationFacts
    | EnterHumanReview
    | ApplyReviewDecision

  /** An idempotency key: the client's own, or one derived from a workflow's activity. */
  datatype IdempotencyKey =
    | ClientKey(text: string)
    | ActivityKey(workflow: WorkflowId, activity: nat)
    | DocumentKey(workflow: WorkflowId, activity: nat, document: DocumentId)

  datatype Key = Key(tenant: TenantId, operation: Operation, key: IdempotencyKey)

  /** A row of `application_versions`, without the fields that never change. */
  datatype Snapshot = Snapshot(status: Status, recordedAt: Time)

  /** A row of `review_queue_entries`. */
  datatype QueueRow =
    | Pending(enteredAt: Time)
    | Decided(enteredAt: Time, decision: Status, reason: string, reviewer: Option<string>, decidedAt: Time)

  /** The rows keyed by one application: its own, its version snapshots, its queue entry. */
  datatype Case = Case(row: AppRow, snapshots: map<nat, Snapshot>, queue: Option<QueueRow>)

  /** The rows that hang off one application without moving it. A verification run is kept as its
      number of contradictions. */
  datatype Files = Files(documents: seq<DocumentId>, extractionRuns: seq<DocumentId>, verifications: seq<nat>)

  datatype Store = Store(cases: map<AppId, Case>, files: map<AppId, Files>, keys: set<Key>,
                         outbox: seq<OutboxRow>, audit: map<TenantId, AuditLog>)

  const EMPTY_STORE := Store(map[], map[], {}, [], map[])

  function CaseOf(s: Store, app: AppId): Option<Case>
  {
    if app in s.cases then Some(s.cases[app]) else None
  }

  function QueueOf(s: Store, app: AppId): Option<QueueRow>
  {
    if app in s.cases then s.cases[app].queue else None
  }

  function FilesOf(s: Store, app: AppId): Files
  {
    if app in s.files then s.files[app] else Files([], [], [])
  }

  /** The documents a tenant sees of an application. */
  function DocumentsOf(s: Store, tenant: TenantId, app: AppId): seq<DocumentId>
  {
    if app in s.cases && s.cases[app].row.tenant == tenant then FilesOf(s, app).documents else []
  }

  function LogOf(s: Store, tenant: TenantId): AuditLog
  {
    if tenant in s.audit then s.audit[tenant] else EMPTY_LOG
  }

  // ---- Staged writes --------------------------------------------------------------------------

  datatype RowWrite = RowUntouched | RowInsert(row: AppRow) | RowUpdate(row: AppRow)

  datatype QueueWrite = QueueUntouched | QueueInsert(row: QueueRow) | QueueUpdate(row: QueueRow)

  /** Everything one transaction has flushed and not yet committed. */
  datatype Writes = Writes(
    tenant: TenantId,
    app: AppId,
    keys: set<Key>,
    row: RowWrite,
    snapshots: map<nat, Snapshot>,
    queue: QueueWrite,
    files: Files,
    events: seq<OutboxRow>,
    auditRows: seq<AuditRow>,
    checkpointInserts: nat)

  function NoWrites(tenant: TenantId, app: AppId): Writes
  {
    Writes(tenant, app, {}, RowUntouched, map[], QueueUntouched, Files([], [], []), [], [], 0)
  }

  /** Stages the audit rows of the staged events, chained from the checkpoint `seen` when they are
      recorded. */
  function Recorded(w: Writes, seen: Option<Hash>): Writes
  {
    w.(auditRows := BatchRows(seen, w.events), checkpointInserts := CheckpointInserts(seen, w.events))
  }

  /** The version snapshots of a case are unique by (application, version). */
  predicate SnapshotConflict(c: Option<Case>, w: Writes)
  {
    c.Some? && exists v :: v in w.snapshots && v in c.value.snapshots
  }

  predicate RowConflict(c: Option<Case>, w: Writes)
  {
    match w.row
    case RowUntouched => false
    case RowInsert(_) => c.Some?
    case RowUpdate(_) => c.None?
  }

  predicate QueueConflict(queue: Option<QueueRow>, w: Writes)
  {
    match w.queue
    case QueueUntouched => false
    case QueueInsert(_) => queue.Some?
    case QueueUpdate(_) => queue.None?
  }

  /** The constraints that can refuse a commit: the idempotency key, the application's primary key,
      UNIQUE(application_id, version), the queue's primary key, the checkpoint's primary key, and an
      UPDATE that finds no row. */
  predicate Conflicts(s: Store, w: Writes)
  {
    || w.keys * s.keys != {}
    || RowConflict(CaseOf(s, w.app), w)
    || SnapshotConflict(CaseOf(s, w.app), w)
    || QueueConflict(QueueOf(s, w.app), w)
    || CheckpointConflict(LogOf(s, w.tenant), w.checkpointInserts)
  }

  function QueueAfter(queue: Option<QueueRow>, w: Writes): Option<QueueRow>
  {
    match w.queue
    case QueueUntouched => queue
    case QueueInsert(row) => Some(row)
    case QueueUpdate(row) => Some(row)
  }

  function CaseAfter(c: Option<Case>, w: Writes): Option<Case>
  {
    var snapshots := if c.Some? then c.value.snapshots else map[];
    var queue := QueueAfter(if c.Some? then c.value.queue else None, w);
    match w.row
    case RowInsert(row) => Some(Case(row, snapshots + w.snapshots, queue))
    case RowUpdate(row) => Some(Case(row, snapshots + w.snapshots, queue))
    case RowUntouched => if c.Some? then Some(Case(c.value.row, snapshots + w.snapshots, queue)) else None
  }

  function FilesAfter(f: Files, w: Writes): Files
  {
    Files(f.documents + w.files.documents, f.extractionRuns + w.files.extractionRuns,
          f.verifications + w.files.verifications)
  }

  /** The store once a transaction's writes are committed. */
  function Apply(s: Store, w: Writes): Store
  {
    var c := CaseAfter(CaseOf(s, w.app), w);
    Store(
      if c.Some? then s.cases[w.app := c.value] else s.cases,
      s.files[w.app := FilesAfter(FilesOf(s, w.app), w)],
      s.keys + w.keys,
      s.outbox + w.events,
      s.audit[w.tenant := LogAfter(LogOf(s, w.tenant), w.auditRows)])
  }

  // ---- Commands -------------------------------------------------------------------------------

  /** The commands with what each of them reads from outside the tables below: the catalog's answer
      for a product (none when the product is unknown, else whether it accepts the request), the
      number of documents the gate counted, the contradictions a verification found. */
  datatype Command =
    | Create(product: ProductId, catalog: Option<bool>, amountInCents: int, termMonths: int)
    | Submit
    | Resubmit
    | Upload(document: DocumentId, documentType: string, objectKey: string)
    | AdvanceIntake(catalog: Option<bool>, flagReason: string)
    | AdvanceDocuments(documentCount: nat)
    | Extract(document: DocumentId)
    | Verify(contradictions: nat)
    | EnterReview(reason: string)
    | Decide(decision: Status, reason: string, reviewer: Option<string>)

  /** The clock reading and the first generated event id of a transaction. */
  datatype Stamp = Stamp(firstId: nat, now: Time)

  datatype Request = Request(tenant: TenantId, app: AppId, key: IdempotencyKey, command: Command, stamp: Stamp)

  function OperationOf(c: Command): Operation
  {
    match c
    case Create(_, _, _, _) => CreateApplication
    case Submit => SubmitApplication
    case Resubmit => ResubmitApplication
    case Upload(_, _, _) => UploadDocument
    case AdvanceIntake(_, _) => AdvanceIntakeValidation
    case AdvanceDocuments(_) => AdvanceDocumentProcessing
    case Extract(_) => ProcessDocument
    case Verify(_) => VerifyApplicationFacts
    case EnterReview(_) => EnterHumanReview
    case Decide(_, _, _) => ApplyReviewDecision
  }

  function KeyOf(r: Request): Key
  {
    Key(r.tenant, OperationOf(r.command), r.key)
  }

  /** Status and version as a handler reports them; nothing for a command that moves no case. */
  datatype Reply = Reply(status: Status, version: nat) | Done

  datatype Hop = Hop(target: Status, reason: string)

  datatype WorkflowChange = KeepWorkflow | AttachWorkflow | DetachWorkflow

  datatype QueueChange =
    | KeepQueue
    | Enqueue
    | MarkDecided(decision: Status, reason: string, reviewer: Option<string>)

  /** What a case-moving command does: one or two transitions, each with its own snapshot, then the
      workflow field and the queue entry. */
  datatype Script = Script(first: Hop, second: Option<Hop>, workflow: WorkflowChange, queue: QueueChange)

  predicate MovesCase(c: Command)
  {
    c.Submit? || c.Resubmit? || c.AdvanceIntake? || c.AdvanceDocuments? || c.EnterReview? || c.Decide?
  }

  function ScriptOf(c: Command): Script
    requires MovesCase(c)
  {
    match c
    case Submit => Script(Hop(Submitted, "applicant submitted"), None, AttachWorkflow, KeepQueue)
    case Resubmit =>
      Script(Hop(DocumentProcessing, "applicant resubmitted with additional information"), None,
             AttachWorkflow, KeepQueue)
    case AdvanceIntake(catalog, flagReason) =>
      var enter := Hop(IntakeValidation, "entering automated intake validation");
      if catalog == Some(true) then
        Script(enter, Some(Hop(DocumentProcessing, "intake validation passed: within product catalog bounds")),
               KeepWorkflow, KeepQueue)
      else Script(enter, Some(Hop(AwaitingHumanReview, flagReason)), KeepWorkflow, Enqueue)
    case AdvanceDocuments(count) =>
      if count >= 1 then Script(Hop(Verification, Decimal.Show(count) + " document(s) present"), None, KeepWorkflow, KeepQueue)
      else Script(Hop(AwaitingHumanReview, "no documents uploaded -- requires human review"), None,
                  KeepWorkflow, Enqueue)
    case EnterReview(reason) => Script(Hop(AwaitingHumanReview, reason), None, KeepWorkflow, Enqueue)
    case Decide(decision, reason, reviewer) =>
      Script(Hop(decision, reason), None, DetachWorkflow, MarkDecided(decision, reason, reviewer))
  }

  /** An aggregate on its way through a script, with the snapshots its saves have staged. */
  datatype Moved = Moved(aggregate: Aggregate, snapshots: map<nat, Snapshot>)

  function Move(m: Moved, hop: Hop, now: Time): Result<Moved, Error>
  {
    match Transition(m.aggregate, hop.target, hop.reason, now)
    case Err(e) => Err(e)
    case Ok(a) => Ok(Moved(a, m.snapshots[a.row.version := Snapshot(a.row.status, now)]))
  }

  function MoveThrough(row: AppRow, script: Script, now: Time): Result<Moved, Error>
  {
    match Move(Moved(Aggregate(row, []), map[]), script.first, now)
    case Err(e) => Err(e)
    case Ok(m) => if script.second.Some? then Move(m, script.second.value, now) else Ok(m)
  }

  function ChangeWorkflow(r: Request, row: AppRow, change: WorkflowChange): AppRow
  {
    match change
    case KeepWorkflow => row
    case AttachWorkflow => row.(workflow := Some(WorkflowId(r.tenant, r.app, row.version)))
    case DetachWorkflow => row.(workflow := None)
  }

  function ChangeQueue(queue: Option<QueueRow>, change: QueueChange, now: Time): Result<QueueWrite, Error>
  {
    match change
    case KeepQueue => Ok(QueueUntouched)
    case Enqueue => Ok(QueueInsert(Pending(now)))
    case MarkDecided(decision, reason, reviewer) =>
      if queue.None? then Err(QueueEntryMissing)
      else Ok(QueueUpdate(Decided(queue.value.enteredAt, decision, reason, reviewer, now)))
  }

  /** Reservation: a key already committed for the operation is a duplicate request. */
  function Reserve(s: Store, r: Request): Result<(), Error>
  {
    if r.command.Decide? && !IsReviewOutcome(r.command.decision) then Err(InvalidApplicationData)
    else if KeyOf(r) in s.keys then Err(DuplicateRequest)
    else Ok(())
  }

  /** The row a command loads; nothing for the two that load no application. */
  function Load(s: Store, r: Request): Result<Option<AppRow>, Error>
  {
    if r.command.Create? then Ok(None)
    else if r.command.Extract? then
      if r.command.document in DocumentsOf(s, r.tenant, r.app) then Ok(None) else Err(DocumentNotFound)
    else if r.app in s.cases && s.cases[r.app].row.tenant == r.tenant then Ok(Some(s.cases[r.app].row))
    else Err(ApplicationNotFound)
  }

  function PlanScript(r: Request, script: Script, row: AppRow, queue: Option<QueueRow>): Result<Writes, Error>
  {
    match MoveThrough(row, script, r.stamp.now)
    case Err(e) => Err(e)
    case Ok(m) =>
      match ChangeQueue(queue, script.queue, r.stamp.now)
      case Err(e) => Err(e)
      case Ok(queueWrite) =>
        Ok(NoWrites(r.tenant, r.app).(
           keys := {KeyOf(r)},
           row := RowUpdate(ChangeWorkflow(r, m.aggregate.row, script.workflow)),
           snapshots := m.snapshots,
           queue := queueWrite,
           events := RowsOf(m.aggregate.pending, r.stamp.firstId)))
  }

  /** What a command stages once it holds its row and sees the case's queue entry; the audit rows
      come last. */
  function Plan(r: Request, row: Option<AppRow>, queue: Option<QueueRow>): Result<Writes, Error>
    requires row.None? ==> r.command.Create? || r.command.Extract?
  {
    var w := NoWrites(r.tenant, r.app).(keys := {KeyOf(r)});
    match r.command
    case Create(product, catalog, amountInCents, termMonths) =>
      if catalog.None? then Err(ProductNotFound)
      else if !catalog.value then Err(ProductRejected)
      else if amountInCents <= 0 || termMonths < 1 then Err(InvalidApplicationData)
      else
        var a := Created(r.app, r.tenant, product, r.stamp.now);
        Ok(w.(row := RowInsert(a.row), snapshots := map[1 := Snapshot(Draft, r.stamp.now)],
              events := RowsOf(a.pending, r.stamp.firstId)))
    case Upload(document, documentType, objectKey) =>
      var uploaded := DocumentUploaded(r.app, r.tenant, r.stamp.now, document, documentType, objectKey);
      Ok(w.(files := Files([document], [], []), events := RowsOf([uploaded], r.stamp.firstId)))
    case Extract(document) => Ok(w.(files := Files([], [document], [])))
    case Verify(contradictions) => Ok(w.(files := Files([], [], [contradictions])))
    case AdvanceIntake(catalog, _) =>
      if catalog.None? then Err(ProductNotFound) else PlanScript(r, ScriptOf(r.command), row.value, queue)
    case _ => PlanScript(r, ScriptOf(r.command), row.value, queue)
  }

  function ReplyOf(w: Writes): Reply
  {
    match w.row
    case RowUntouched => Done
    case RowInsert(row) => Reply(row.status, row.version)
    case RowUpdate(row) => Reply(row.status, row.version)
  }

  /** Everything a command stages when it runs alone against a store. */
  function Prepare(s: Store, r: Request): Result<Writes, Error>
  {
    match Reserve(s, r)
    case Err(e) => Err(e)
    case Ok(_) =>
      match Load(s, r)
      case Err(e) => Err(e)
      case Ok(row) =>
        match Plan(r, row, QueueOf(s, r.app))
        case Err(e) => Err(e)
        case Ok(w) => Ok(Recorded(w, LatestHash(LogOf(s, r.tenant))))
  }

  datatype Outcome = Outcome(store: Store, reply: Reply)

  /** A command as one serialised transaction. An error leaves the store as it was. */
  function Exec(s: Store, r: Request): Result<Outcome, Error>
  {
    match Prepare(s, r)
    case Err(e) => Err(e)
    case Ok(w) => if Conflicts(s, w) then Err(IntegrityViolation) else Ok(Outcome(Apply(s, w), ReplyOf(w)))
  }

  /** The store after a command, whether it committed or rolled back. */
  function After(s: Store, r: Request): Store
  {
    match Exec(s, r)
    case Ok(outcome) => outcome.store
    case Err(_) => s
  }
}
