/** What a committed command makes of one case, exactly when it is refused, and what that keeps
    between a case's status, its workflow and its review queue entry. */
module Coupling {
  import opened Prelude
  import opened CaseStatus
  import opened Applications
  import opened EventMapping
  import opened Audit
  import opened Store
  import opened StoreInvariants
  import opened Interleaving
  import Decimal

  // ---- One move -------------------------------------------------------------------------------

  function LastTarget(script: Script): Status
  {
    if script.second.Some? then script.second.value.target else script.first.target
  }

  function Hops(script: Script): nat
  {
    if script.second.Some? then 2 else 1
  }

  /** Both hops are in the transition table. */
  predicate ScriptLegal(status: Status, script: Script)
  {
    && IsLegal(status, script.first.target)
    && (script.second.Some? ==> IsLegal(script.first.target, script.second.value.target))
  }

  /** A case once a script has been committed on it. */
  function MovedRow(r: Request, row: AppRow, script: Script): AppRow
  {
    ChangeWorkflow(r, row.(status := LastTarget(script), version := row.version + Hops(script),
                           updatedAt := r.stamp.now), script.workflow)
  }

  function MovedQueue(queue: Option<QueueRow>, change: QueueChange, now: Time): Option<QueueRow>
  {
    match change
    case KeepQueue => queue
    case Enqueue => Some(Pending(now))
    case MarkDecided(decision, reason, reviewer) =>
      if queue.Some? then Some(Decided(queue.value.enteredAt, decision, reason, reviewer, now)) else None
  }

  /** Why a case-moving command is refused, first reason first; nothing when it commits. The queue
      insert is a plain one, so an entry that is already there refuses it. */
  function MoveVerdict(s: Store, r: Request): Option<Error>
    requires MovesCase(r.command)
  {
    if r.command.Decide? && !IsReviewOutcome(r.command.decision) then Some(InvalidApplicationData)
    else if KeyOf(r) in s.keys then Some(DuplicateRequest)
    else if r.app !in s.cases || s.cases[r.app].row.tenant != r.tenant then Some(ApplicationNotFound)
    else if r.command.AdvanceIntake? && r.command.catalog.None? then Some(ProductNotFound)
    else
      var c, script := s.cases[r.app], ScriptOf(r.command);
      if !IsLegal(c.row.status, script.first.target) then
        Some(IllegalTransition(c.row.status, script.first.target))
      else if script.queue.MarkDecided? && c.queue.None? then Some(QueueEntryMissing)
      else if script.queue.Enqueue? && c.queue.Some? then Some(IntegrityViolation)
      else None
  }

  lemma ScriptsAreLegalInside(c: Command)
    requires MovesCase(c)
    ensures var script := ScriptOf(c);
            script.second.Some? ==> IsLegal(script.first.target, script.second.value.target)
  {
  }

  lemma MoveThroughExact(row: AppRow, script: Script, now: Time)
    requires script.second.Some? ==> IsLegal(script.first.target, script.second.value.target)
    ensures match MoveThrough(row, script, now)
            case Err(e) => !IsLegal(row.status, script.first.target)
                           && e == IllegalTransition(row.status, script.first.target)
            case Ok(m) =>
              && IsLegal(row.status, script.first.target)
              && m.aggregate.row == row.(status := LastTarget(script), version := row.version + Hops(script), updatedAt := now)
              && (forall v :: v in m.snapshots ==> row.version < v <= row.version + Hops(script))
              && |m.aggregate.pending| == Hops(script)
  {
    hide IsLegal;
  }

  /** The plan of a script, or the error that stops it. */
  lemma PlanScriptExact(r: Request, script: Script, row: AppRow, queue: Option<QueueRow>)
    requires script.second.Some? ==> IsLegal(script.first.target, script.second.value.target)
    ensures match PlanScript(r, script, row, queue)
            case Err(e) =>
              if !IsLegal(row.status, script.first.target)
              then e == IllegalTransition(row.status, script.first.target)
              else script.queue.MarkDecided? && queue.None? && e == QueueEntryMissing
            case Ok(w) =>
              && IsLegal(row.status, script.first.target)
              && w.tenant == r.tenant && w.app == r.app && w.keys == {KeyOf(r)}
              && w.row == RowUpdate(MovedRow(r, row, script))
              && (forall v :: v in w.snapshots ==> row.version < v)
              && ChangeQueue(queue, script.queue, r.stamp.now) == Ok(w.queue)
              && w.files == Files([], [], [])
              && |w.events| == Hops(script)
  {
    hide IsLegal, MoveThrough, KeyOf;
    MoveThroughExact(row, script, r.stamp.now);
  }

  /** Whether a planned move meets a constraint, in a store whose histories and checkpoint are in
      order: only the queue insert can. */
  lemma MoveConflicts(s: Store, r: Request, c: Case, w: Writes)
    requires r.app in s.cases && c == s.cases[r.app] && HistoryOk(c) && LogOf(s, r.tenant).checkpoint.Some?
    requires w.tenant == r.tenant && w.app == r.app && w.keys == {KeyOf(r)} && KeyOf(r) !in s.keys
    requires w.row.RowUpdate? && forall v :: v in w.snapshots ==> c.row.version < v
    ensures Conflicts(s, Recorded(w, LatestHash(LogOf(s, r.tenant)))) <==> QueueConflict(c.queue, w)
  {
    hide BatchRows;
    var recorded := Recorded(w, LatestHash(LogOf(s, r.tenant)));
    assert recorded.checkpointInserts == 0;
    assert w.keys * s.keys == {};
  }

  /** What a committed move leaves: every other case as it was, this one moved by the script. */
  ghost predicate MovesTo(s: Store, r: Request, script: Script, after: Store)
  {
    && r.app in s.cases && r.app in after.cases
    && after.cases == s.cases[r.app := after.cases[r.app]]
    && after.cases[r.app].row == MovedRow(r, s.cases[r.app].row, script)
    && after.cases[r.app].queue == MovedQueue(s.cases[r.app].queue, script.queue, r.stamp.now)
    && after.keys == s.keys + {KeyOf(r)}
    && (forall app :: FilesOf(after, app) == FilesOf(s, app))
  }

  lemma AppliedMove(s: Store, r: Request, script: Script, w: Writes)
    requires r.app in s.cases
    requires w.tenant == r.tenant && w.app == r.app && w.keys == {KeyOf(r)}
    requires w.row == RowUpdate(MovedRow(r, s.cases[r.app].row, script))
    requires ChangeQueue(s.cases[r.app].queue, script.queue, r.stamp.now) == Ok(w.queue)
    requires w.files == Files([], [], [])
    ensures MovesTo(s, r, script, Apply(s, Recorded(w, LatestHash(LogOf(s, r.tenant)))))
  {
    hide BatchRows;
  }

  /** A case-moving command, decided and described without running it: the verdict names the error it
      is refused with, and a command without one commits and moves its case by its script. */
  lemma MoveExact(s: Store, r: Request)
    requires MovesCase(r.command)
    requires r.app in s.cases ==> HistoryOk(s.cases[r.app]) && LogOf(s, s.cases[r.app].row.tenant).checkpoint.Some?
    ensures match MoveVerdict(s, r)
            case Some(e) => Exec(s, r) == Err(e)
            case None =>
              && Exec(s, r).Ok? && MovesTo(s, r, ScriptOf(r.command), After(s, r))
              && Exec(s, r).value.reply == Reply(LastTarget(ScriptOf(r.command)),
                                                 s.cases[r.app].row.version + Hops(ScriptOf(r.command)))
  {
    hide HistoryOk, IsLegal, ScriptOf, PlanScript, Conflicts, Apply, MovesTo, BatchRows, KeyOf;
    if Reserve(s, r).Ok? && Load(s, r).Ok? && !(r.command.AdvanceIntake? && r.command.catalog.None?) {
      var c, script := s.cases[r.app], ScriptOf(r.command);
      ScriptsAreLegalInside(r.command);
      PlanScriptExact(r, script, c.row, c.queue);
      if PlanScript(r, script, c.row, c.queue).Ok? {
        var w := PlanScript(r, script, c.row, c.queue).value;
        MoveConflicts(s, r, c, w);
        AppliedMove(s, r, script, w);
      }
    }
  }

  // ---- The other commands -----------------------------------------------------------------------

  /** Why a creation is refused. */
  function CreateVerdict(s: Store, r: Request): Option<Error>
    requires r.command.Create?
  {
    if KeyOf(r) in s.keys then Some(DuplicateRequest)
    else if r.command.catalog.None? then Some(ProductNotFound)
    else if !r.command.catalog.value then Some(ProductRejected)
    else if r.command.amountInCents <= 0 || r.command.termMonths < 1 then Some(InvalidApplicationData)
    else if r.app in s.cases then Some(IntegrityViolation)
    else None
  }

  lemma CreateExact(s: Store, r: Request)
    requires r.command.Create?
    ensures match CreateVerdict(s, r)
            case Some(e) => Exec(s, r) == Err(e)
            case None =>
              && Exec(s, r) == Ok(Outcome(After(s, r), Reply(Draft, 1)))
              && After(s, r).cases == s.cases[r.app :=
                   Case(Created(r.app, r.tenant, r.command.product, r.stamp.now).row,
                        map[1 := Snapshot(Draft, r.stamp.now)], None)]
              && After(s, r).keys == s.keys + {KeyOf(r)}
              && (forall app :: FilesOf(After(s, r), app) == FilesOf(s, app))
  {
    hide KeyOf;
    if Prepare(s, r).Ok? {
      var w := Prepare(s, r).value;
      assert w.keys == {KeyOf(r)};
      assert KeyOf(r) !in s.keys ==> w.keys * s.keys == {};
      assert map[] + w.snapshots == w.snapshots;
    }
  }

  predicate LeavesCases(c: Command)
  {
    c.Upload? || c.Extract? || c.Verify?
  }

  /** Why a command that moves no case is refused. */
  function QuietVerdict(s: Store, r: Request): Option<Error>
    requires LeavesCases(r.command)
  {
    if KeyOf(r) in s.keys then Some(DuplicateRequest)
    else if r.command.Extract? then
      if r.command.document in DocumentsOf(s, r.tenant, r.app) then None else Some(DocumentNotFound)
    else if r.app !in s.cases || s.cases[r.app].row.tenant != r.tenant then Some(ApplicationNotFound)
    else None
  }

  /** The rows such a command adds. */
  function AddedFiles(c: Command): Files
    requires LeavesCases(c)
  {
    match c
    case Upload(document, _, _) => Files([document], [], [])
    case Extract(document) => Files([], [document], [])
    case Verify(contradictions) => Files([], [], [contradictions])
  }

  function FilesPlus(f: Files, added: Files): Files
  {
    Files(f.documents + added.documents, f.extractionRuns + added.extractionRuns,
          f.verifications + added.verifications)
  }

  lemma QuietExact(s: Store, r: Request)
    requires LeavesCases(r.command)
    requires r.app in s.cases ==> LogOf(s, s.cases[r.app].row.tenant).checkpoint.Some?
    ensures match QuietVerdict(s, r)
            case Some(e) => Exec(s, r) == Err(e)
            case None =>
              && Exec(s, r) == Ok(Outcome(After(s, r), Done))
              && After(s, r).cases == s.cases
              && After(s, r).keys == s.keys + {KeyOf(r)}
              && (forall app :: FilesOf(After(s, r), app) ==
                    if app == r.app then FilesPlus(FilesOf(s, app), AddedFiles(r.command)) else FilesOf(s, app))
  {
    hide KeyOf, BatchRows;
    if Prepare(s, r).Ok? {
      var w := Prepare(s, r).value;
      assert w.keys == {KeyOf(r)};
      assert KeyOf(r) !in s.keys ==> w.keys * s.keys == {};
      if r.app in s.cases {
        assert s.cases[r.app].snapshots + map[] == s.cases[r.app].snapshots;
      }
    }
  }

  // ---- What a command announces -----------------------------------------------------------------

  /** The snapshots and events of a script, hop by hop. */
  lemma HopsExact(row: AppRow, script: Script, now: Time, m: Moved)
    requires MoveThrough(row, script, now) == Ok(m)
    ensures var v, a := row.version, script.first;
            var first := ApplicationStateChanged(row.app, row.tenant, now, row.status, a.target, a.reason, v + 1);
            if script.second.None? then
              && m.snapshots == map[v + 1 := Snapshot(a.target, now)] && m.aggregate.pending == [first]
            else
              var b := script.second.value;
              && m.snapshots == map[v + 1 := Snapshot(a.target, now), v + 2 := Snapshot(b.target, now)]
              && m.aggregate.pending
                 == [first, ApplicationStateChanged(row.app, row.tenant, now, a.target, b.target, b.reason, v + 2)]
  {
    hide IsLegal;
  }

  /** A row of the outbox that tells the step from one version of a case to the next. */
  ghost predicate TellsStep(o: OutboxRow, r: Request, c: Case, version: nat)
  {
    && version in c.snapshots && version + 1 in c.snapshots && c.snapshots[version + 1].recordedAt == r.stamp.now
    && o.tenant == r.tenant && o.aggregateId == r.app && o.occurredAt == r.stamp.now && !o.published
    && o.eventType == "ApplicationStateChanged"
    && o.payload.Keys == {"previous_status", "new_status", "reason", "version"}
    && o.payload["previous_status"] == Text(Name(c.snapshots[version].status))
    && o.payload["new_status"] == Text(Name(c.snapshots[version + 1].status))
    && o.payload["version"] == Number(version + 1)
  }

  lemma StepTold(r: Request, c: Case, version: nat, id: nat, previous: Status, next: Status, reason: string)
    requires version in c.snapshots && version + 1 in c.snapshots
    requires c.snapshots[version].status == previous && c.snapshots[version + 1] == Snapshot(next, r.stamp.now)
    ensures var o := RowOf(ApplicationStateChanged(r.app, r.tenant, r.stamp.now, previous, next, reason, version + 1), id);
            TellsStep(o, r, c, version) && o.payload["reason"] == Text(reason) && o.eventId == id
  {
  }

  /** A row that tells the reason a command brings along. */
  ghost predicate TellsReason(o: OutboxRow, c: Command)
  {
    && "reason" in o.payload
    && (c.EnterReview? ==> o.payload["reason"] == Text(c.reason))
    && (c.Decide? ==> o.payload["reason"] == Text(c.reason))
    && (c.AdvanceIntake? && c.catalog != Some(true) ==> o.payload["reason"] == Text(c.flagReason))
  }

  /** The outbox of a committed move: one row for each version it adds, in order, under consecutive ids,
      with the status before, the status after, the version, and, where the command brings a reason,
      that reason on the last. */
  lemma MoveAnnounces(s: Store, r: Request) returns (batch: seq<OutboxRow>)
    requires MovesCase(r.command) && Exec(s, r).Ok?
    requires r.app in s.cases && HistoryOk(s.cases[r.app]) && s.cases[r.app].row.app == r.app
    ensures After(s, r).outbox == s.outbox + batch && |batch| == Hops(ScriptOf(r.command)) && r.app in After(s, r).cases
    ensures forall k :: 0 <= k < |batch| ==>
              && TellsStep(batch[k], r, After(s, r).cases[r.app], s.cases[r.app].row.version + k)
              && batch[k].eventId == r.stamp.firstId + k
    ensures TellsReason(batch[|batch| - 1], r.command)
  {
    hide ScriptOf, Conflicts, BatchRows, KeyOf, HistoryOk, MoveThrough, RowOf, TellsStep, TellsReason;
    var c, script := s.cases[r.app], ScriptOf(r.command);
    var m := MoveThrough(c.row, script, r.stamp.now).value;
    HopsExact(c.row, script, r.stamp.now, m);
    batch := RowsOf(m.aggregate.pending, r.stamp.firstId);
    var d := After(s, r).cases[r.app];
    assert d.snapshots == c.snapshots + m.snapshots;
    hide Exec, After, Apply, Plan;
    ScriptTold(c, d, r, script, m, batch);
  }

  lemma ScriptTold(c: Case, d: Case, r: Request, script: Script, m: Moved, batch: seq<OutboxRow>)
    requires MovesCase(r.command) && script == ScriptOf(r.command) && HistoryOk(c)
    requires c.row.app == r.app && c.row.tenant == r.tenant
    requires MoveThrough(c.row, script, r.stamp.now) == Ok(m) && d.snapshots == c.snapshots + m.snapshots
    requires batch == RowsOf(m.aggregate.pending, r.stamp.firstId)
    ensures |batch| == Hops(script)
    ensures forall k :: 0 <= k < |batch| ==>
              TellsStep(batch[k], r, d, c.row.version + k) && batch[k].eventId == r.stamp.firstId + k
    ensures TellsReason(batch[|batch| - 1], r.command)
  {
    hide ScriptOf, HistoryOk, MoveThrough, RowOf, TellsStep;
    var v := c.row.version;
    LastOfHistory(c);
    HopsExact(c.row, script, r.stamp.now, m);
    GivenReasons(r.command);
    StepTold(r, d, v, r.stamp.firstId, c.row.status, script.first.target, script.first.reason);
    if script.second.Some? {
      StepTold(r, d, v + 1, r.stamp.firstId + 1, script.first.target, script.second.value.target, script.second.value.reason);
    }
  }

  lemma LastOfHistory(c: Case)
    requires HistoryOk(c)
    ensures c.row.version in c.snapshots && c.snapshots[c.row.version].status == c.row.status
  {
  }

  /** The reasons commands bring along stand on their last hop. */
  lemma GivenReasons(c: Command)
    requires MovesCase(c)
    ensures var script := ScriptOf(c);
            var last := if script.second.Some? then script.second.value else script.first;
            && (c.EnterReview? ==> last.reason == c.reason)
            && (c.Decide? ==> last.reason == c.reason)
            && (c.AdvanceIntake? && c.catalog != Some(true) ==> last.reason == c.flagReason)
  {
    hide Decimal.Show;
  }

  /** The one row of a committed upload, with the document's fields and no version. */
  lemma UploadAnnounces(s: Store, r: Request)
    requires r.command.Upload? && Exec(s, r).Ok?
    ensures var after := After(s, r);
            && s.outbox <= after.outbox && |after.outbox| == |s.outbox| + 1
            && var o := after.outbox[|s.outbox|];
            && o.eventId == r.stamp.firstId && o.tenant == r.tenant && o.aggregateId == r.app && o.occurredAt == r.stamp.now
            && !o.published && o.eventType == "DocumentUploaded"
            && o.payload.Keys == {"document_id", "document_type", "object_key"}
            && o.payload["document_id"] == Text(r.command.document)
            && o.payload["document_type"] == Text(r.command.documentType)
            && o.payload["object_key"] == Text(r.command.objectKey)
  {
    hide Conflicts, BatchRows, KeyOf;
  }

  /** The one row of a committed creation. */
  lemma CreationAnnounces(s: Store, r: Request)
    requires r.command.Create? && Exec(s, r).Ok?
    ensures var after := After(s, r);
            && s.outbox <= after.outbox && |after.outbox| == |s.outbox| + 1
            && var o := after.outbox[|s.outbox|];
            && o.eventId == r.stamp.firstId && o.tenant == r.tenant && o.aggregateId == r.app && o.occurredAt == r.stamp.now
            && !o.published && o.eventType == "ApplicationCreated"
            && o.payload.Keys == {"product_id"} && o.payload["product_id"] == Text(r.command.product)
  {
    hide Conflicts, BatchRows, KeyOf;
  }

  // ---- The coupling -----------------------------------------------------------------------------

  /** The statuses a case can rest in between commands. */
  predicate Rests(s: Status)
  {
    s == Draft || OwnedByWorkflow(s) || IsReviewOutcome(s)
  }

  /** The statuses in which an execution drives the case. */
  predicate OwnedByWorkflow(s: Status)
  {
    s == Submitted || s == DocumentProcessing || s == Verification || s == AwaitingHumanReview
  }

  /** The queue entry each status goes with: pending exactly in AWAITING_HUMAN_REVIEW, recording
      exactly the decision in a decided status, left over from NEEDS_MORE_INFORMATION in a case that
      came back, absent before any review. */
  predicate QueueFits(status: Status, queue: Option<QueueRow>)
  {
    match status
    case AwaitingHumanReview => queue.Some? && queue.value.Pending?
    case DocumentProcessing => queue.None? || (queue.value.Decided? && queue.value.decision == NeedsMoreInformation)
    case Verification => queue.None? || (queue.value.Decided? && queue.value.decision == NeedsMoreInformation)
    case Draft => queue.None?
    case Submitted => queue.None?
    case _ => queue.Some? && queue.value.Decided? && queue.value.decision == status
  }

  ghost predicate Coupled(c: Case)
  {
    && Rests(c.row.status)
    && QueueFits(c.row.status, c.queue)
    && (c.row.workflow.Some? <==> OwnedByWorkflow(c.row.status))
    && (c.row.workflow.Some? ==> c.row.workflow.value.tenant == c.row.tenant && c.row.workflow.value.app == c.row.app)
  }

  ghost predicate AllCoupled(s: Store)
  {
    forall app :: app in s.cases ==> Coupled(s.cases[app])
  }

  /** A command's script without its reasons: first and last target, workflow change, and whether it
      adds a queue entry or decides one. */
  datatype Shape = Shape(first: Status, last: Status, workflow: WorkflowChange, enqueues: bool, decides: bool)

  function ShapeOf(c: Command): Shape
    requires MovesCase(c)
  {
    match c
    case Submit => Shape(Submitted, Submitted, AttachWorkflow, false, false)
    case Resubmit => Shape(DocumentProcessing, DocumentProcessing, AttachWorkflow, false, false)
    case AdvanceIntake(catalog, _) =>
      if catalog == Some(true) then Shape(IntakeValidation, DocumentProcessing, KeepWorkflow, false, false)
      else Shape(IntakeValidation, AwaitingHumanReview, KeepWorkflow, true, false)
    case AdvanceDocuments(count) =>
      if count >= 1 then Shape(Verification, Verification, KeepWorkflow, false, false)
      else Shape(AwaitingHumanReview, AwaitingHumanReview, KeepWorkflow, true, false)
    case EnterReview(_) => Shape(AwaitingHumanReview, AwaitingHumanReview, KeepWorkflow, true, false)
    case Decide(decision, _, _) => Shape(decision, decision, DetachWorkflow, false, true)
  }

  lemma ScriptShape(c: Command)
    requires MovesCase(c)
    ensures var script, shape := ScriptOf(c), ShapeOf(c);
            && script.first.target == shape.first && LastTarget(script) == shape.last
            && script.workflow == shape.workflow
            && (script.queue.Enqueue? <==> shape.enqueues)
            && (script.queue.MarkDecided? <==> shape.decides)
            && (shape.decides ==> script.queue.decision == shape.last)
  {
    hide Decimal.Show;
  }

  /** From any resting status a legal script ends in a resting status, with the queue entry that goes
      with it, and attached exactly where it should be. */
  lemma ScriptFits(c: Command, status: Status, queue: Option<QueueRow>, now: Time)
    requires MovesCase(c) && Rests(status) && QueueFits(status, queue)
    requires c.Decide? ==> IsReviewOutcome(c.decision)
    requires IsLegal(status, ShapeOf(c).first)
    requires ScriptOf(c).queue.Enqueue? ==> queue.None?
    ensures var script := ScriptOf(c);
            && Rests(LastTarget(script))
            && QueueFits(LastTarget(script), MovedQueue(queue, script.queue, now))
            && (OwnedByWorkflow(LastTarget(script)) <==>
                  script.workflow.AttachWorkflow? || (script.workflow.KeepWorkflow? && OwnedByWorkflow(status)))
  {
    hide ScriptOf, LastTarget, IsLegal, OwnedByWorkflow, QueueFits;
    ScriptShape(c);
    LegalStart(c, status);
    if status == AwaitingHumanReview || status == Escalated {
      ReviewHasEntry(status, queue);
    }
    if ShapeOf(c).decides {
      DecisionFits(ShapeOf(c).last, queue, ScriptOf(c).queue, now);
    } else {
      OtherFits(c, status, queue, now);
    }
    OwnershipFits(c, status);
  }

  /** The resting statuses each command can move a case from. */
  lemma LegalStart(c: Command, status: Status)
    requires MovesCase(c) && Rests(status)
    requires IsLegal(status, ShapeOf(c).first)
    ensures match c
            case Submit => status == Draft
            case Resubmit => status == NeedsMoreInformation
            case AdvanceIntake(_, _) => status == Submitted
            case Decide(decision, _, _) => IsReviewOutcome(decision) ==> status == AwaitingHumanReview || status == Escalated
            case _ => status == DocumentProcessing || status == Verification || (status == Escalated && ShapeOf(c).enqueues)
  {
  }

  lemma ReviewHasEntry(status: Status, queue: Option<QueueRow>)
    requires (status == AwaitingHumanReview || status == Escalated) && QueueFits(status, queue)
    ensures queue.Some?
  {
  }

  lemma DecisionFits(decision: Status, queue: Option<QueueRow>, change: QueueChange, now: Time)
    requires IsReviewOutcome(decision) && change.MarkDecided? && change.decision == decision && queue.Some?
    ensures QueueFits(decision, MovedQueue(queue, change, now))
  {
  }

  lemma OtherFits(c: Command, status: Status, queue: Option<QueueRow>, now: Time)
    requires MovesCase(c) && !ShapeOf(c).decides && QueueFits(status, queue)
    requires match c
             case Submit => status == Draft
             case Resubmit => status == NeedsMoreInformation
             case AdvanceIntake(_, _) => status == Submitted
             case _ => status == DocumentProcessing || status == Verification
    requires ScriptOf(c).queue.Enqueue? ==> queue.None?
    ensures QueueFits(ShapeOf(c).last, MovedQueue(queue, ScriptOf(c).queue, now))
  {
    hide ScriptOf;
    ScriptShape(c);
  }

  lemma OwnershipFits(c: Command, status: Status)
    requires MovesCase(c) && (c.Decide? ==> IsReviewOutcome(c.decision))
    requires match c
             case Submit => status == Draft
             case Resubmit => status == NeedsMoreInformation
             case AdvanceIntake(_, _) => status == Submitted
             case Decide(_, _, _) => true
             case _ => status == DocumentProcessing || status == Verification
    ensures Rests(ShapeOf(c).last)
    ensures OwnedByWorkflow(ShapeOf(c).last) <==>
              ShapeOf(c).workflow.AttachWorkflow? || (ShapeOf(c).workflow.KeepWorkflow? && OwnedByWorkflow(status))
  {
  }

  lemma MoveKeepsCoupled(r: Request, c: Case, after: Case)
    requires MovesCase(r.command) && Coupled(c)
    requires c.row.app == r.app && c.row.tenant == r.tenant
    requires r.command.Decide? ==> IsReviewOutcome(r.command.decision)
    requires IsLegal(c.row.status, ScriptOf(r.command).first.target)
    requires ScriptOf(r.command).queue.Enqueue? ==> c.queue.None?
    requires after.row == MovedRow(r, c.row, ScriptOf(r.command))
    requires after.queue == MovedQueue(c.queue, ScriptOf(r.command).queue, r.stamp.now)
    ensures Coupled(after)
  {
    ScriptShape(r.command);
    ScriptFits(r.command, c.row.status, c.queue, r.stamp.now);
    hide ScriptOf, ShapeOf, IsLegal, Rests, QueueFits, OwnedByWorkflow, LastTarget, MovedQueue;
  }

  /** Every command keeps every case coupled, whoever sends it and in whatever status it finds the
      case. */
  lemma ExecKeepsCoupled(s: Store, r: Request)
    requires StoreOk(s) && AllCoupled(s)
    ensures AllCoupled(After(s, r))
  {
    hide Exec, IsLegal, ScriptOf, Coupled, HistoryOk, OutboxOk, TenantAuditOk, KeyOf;
    if MovesCase(r.command) {
      MoveExact(s, r);
      if MoveVerdict(s, r).None? {
        MoveKeepsCoupled(r, s.cases[r.app], After(s, r).cases[r.app]);
      }
    } else if r.command.Create? {
      CreateExact(s, r);
      NewCaseIsCoupled(r);
    } else {
      QuietExact(s, r);
    }
  }

  lemma NewCaseIsCoupled(r: Request)
    requires r.command.Create?
    ensures Coupled(Case(Created(r.app, r.tenant, r.command.product, r.stamp.now).row,
                         map[1 := Snapshot(Draft, r.stamp.now)], None))
  {
  }

  lemma {:induction false} EveryRunIsCoupled(requests: seq<Request>)
    ensures AllCoupled(RunAll(requests))
  {
    if requests != [] {
      var front, last := requests[..|requests| - 1], requests[|requests| - 1];
      EveryRunIsCoupled(front);
      EveryRunKeepsStore(front);
      ExecKeepsCoupled(RunAll(front), last);
    }
  }

  /** The coupling of every committed state: however transactions overlap, a queue entry is pending
      exactly while its case awaits human review, a workflow is attached exactly while one drives the
      case, a decided status is the recorded decision, and no case rests in INTAKE_VALIDATION. */
  lemma EveryInterleavingIsCoupled(steps: seq<Step>)
    ensures AllCoupled(RunSteps(steps).store)
  {
    hide SysOk, AllCoupled, RunSteps, RunAll;
    EveryInterleavingIsSerialAsCounted(steps);
    EveryRunIsCoupled(CommitOrder(steps));
    assert AllCoupled(RunSteps(steps).store) by { SameCasesCoupled(RunAll(CommitOrder(steps)), RunSteps(steps).store); }
  }

  lemma SameCasesCoupled(a: Store, b: Store)
    requires AllCoupled(a) && b.cases == a.cases
    ensures AllCoupled(b)
  {
    hide Coupled;
  }

  // ---- The case that comes back -----------------------------------------------------------------

  ghost function RunFrom(s: Store, requests: seq<Request>): Store
  {
    if requests == [] then s
    else After(RunFrom(s, requests[..|requests| - 1]), requests[|requests| - 1])
  }

  /** A case in processing that still has the queue entry of an earlier review. */
  ghost predicate CameBack(s: Store, app: AppId)
  {
    && app in s.cases
    && (s.cases[app].row.status == DocumentProcessing || s.cases[app].row.status == Verification)
    && s.cases[app].queue.Some?
  }

  /** In a resting case in processing, a script that leaves the queue alone leads to processing. */
  lemma ScriptStaysBack(c: Command, status: Status)
    requires MovesCase(c) && (status == DocumentProcessing || status == Verification)
    requires IsLegal(status, ScriptOf(c).first.target) && !ScriptOf(c).queue.Enqueue?
    requires c.Decide? ==> IsReviewOutcome(c.decision)
    ensures LastTarget(ScriptOf(c)) == Verification && ScriptOf(c).queue.KeepQueue?
  {
    hide ScriptOf, LastTarget;
    ScriptShape(c);
  }

  lemma StaysBack(s: Store, r: Request, app: AppId)
    requires StoreOk(s) && CameBack(s, app)
    ensures CameBack(After(s, r), app)
  {
    hide Exec, HistoryOk, OutboxOk, TenantAuditOk, KeyOf, ScriptOf, IsLegal, LastTarget;
    if MovesCase(r.command) {
      MoveExact(s, r);
      if MoveVerdict(s, r).None? && r.app == app {
        ScriptStaysBack(r.command, s.cases[app].row.status);
      }
    } else if r.command.Create? {
      CreateExact(s, r);
    } else {
      QuietExact(s, r);
    }
  }

  lemma {:induction false} StaysBackForever(s: Store, app: AppId, more: seq<Request>)
    requires StoreOk(s) && AllCoupled(s) && CameBack(s, app)
    ensures StoreOk(RunFrom(s, more)) && AllCoupled(RunFrom(s, more))
    ensures CameBack(RunFrom(s, more), app)
  {
    hide StoreOk, AllCoupled, CameBack, After;
    if more != [] {
      var front, last := more[..|more| - 1], more[|more| - 1];
      StaysBackForever(s, app, front);
      StaysBack(RunFrom(s, front), last, app);
      ExecKeepsStore(RunFrom(s, front), last);
      ExecKeepsCoupled(RunFrom(s, front), last);
    }
  }

  /** A continuation that takes a case to human review. */
  ghost predicate ReachesReview(s: Store, app: AppId, more: seq<Request>)
  {
    app in RunFrom(s, more).cases && RunFrom(s, more).cases[app].row.status == AwaitingHumanReview
  }

  /** The resubmitted case: a case in processing can still reach human review if and only if it has
      no queue entry. With the entry of its earlier review in the table, no continuation of any length
      takes it out of processing; without one, the next escalation does. `escalation` is any
      escalation of the case under a key not used before. */
  lemma ReachesReviewIffNoQueueRow(s: Store, escalation: Request)
    requires StoreOk(s) && AllCoupled(s)
    requires escalation.app in s.cases && s.cases[escalation.app].row.tenant == escalation.tenant
    requires escalation.command.EnterReview? && KeyOf(escalation) !in s.keys
    requires s.cases[escalation.app].row.status == DocumentProcessing || s.cases[escalation.app].row.status == Verification
    ensures s.cases[escalation.app].queue.None? <==> exists more :: ReachesReview(s, escalation.app, more)
  {
    hide StoreOk, AllCoupled, Exec, HistoryOk, OutboxOk, TenantAuditOk, KeyOf, Coupled, After, RunFrom;
    var app := escalation.app;
    if s.cases[app].queue.None? {
      assert HistoriesOk(s) && AuditOk(s) by { StoreOkParts(s); }
      MoveExact(s, escalation);
      RunOne(s, escalation);
      assert ReachesReview(s, app, [escalation]);
    } else {
      forall more ensures !ReachesReview(s, app, more) {
        StaysBackForever(s, app, more);
      }
    }
  }

  lemma RunOne(s: Store, r: Request)
    ensures RunFrom(s, [r]) == After(s, r)
  {
    assert [r][..0] == [];
    assert RunFrom(s, []) == s;
  }
}
