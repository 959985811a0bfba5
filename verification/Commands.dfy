/** The command handlers, step by step against a unit of work. Each one is proved to do to the
    database, and to answer, exactly what `Store.Exec` says of its request. */
module Commands {
  import opened Prelude
  import opened CaseStatus
  import opened Applications
  import opened EventMapping
  import opened Audit
  import Decimal
  import opened Store
  import opened UnitOfWork

  /** A handler's effect and answer are those of the request run as one transaction; on an error the
      database is as it was. */
  ghost predicate Runs(before: Store, r: Request, after: Store, result: Result<Reply, Error>)
  {
    match Exec(before, r)
    case Ok(outcome) => result == Ok(outcome.reply) && after == outcome.store
    case Err(e) => result == Err(e) && after == before
  }

  /** The error of a refused step, as the handler raises it. */
  function Refused(step: Result<(), Error>): Result<Reply, Error>
  {
    match step
    case Err(e) => Err(e)
    case Ok(_) => Ok(Done)
  }

  /** What `Exec` makes of a request once its plan is known. */
  lemma ExecOfPlan(s: Store, r: Request, row: Option<AppRow>, w: Writes)
    requires Reserve(s, r).Ok? && Load(s, r) == Ok(row)
    requires row.None? ==> r.command.Create? || r.command.Extract?
    requires Plan(r, row, QueueOf(s, r.app)) == Ok(w)
    ensures var recorded := Recorded(w, LatestHash(LogOf(s, r.tenant)));
            Exec(s, r) == if Conflicts(s, recorded) then Err(IntegrityViolation)
                          else Ok(Outcome(Apply(s, recorded), ReplyOf(w)))
  {
    hide PlanScript, ScriptOf, Conflicts, Apply;
  }

  /** What `Exec` makes of a request whose plan fails. */
  lemma ExecOfRefusal(s: Store, r: Request, row: AppRow, e: Error)
    requires Reserve(s, r).Ok? && Load(s, r) == Ok(Some(row))
    requires Plan(r, Some(row), QueueOf(s, r.app)) == Err(e)
    ensures Exec(s, r) == Err(e)
  {
    hide PlanScript, ScriptOf, Conflicts, Apply;
  }

  /** Executions asked for so far, by workflow id; a second start of the same id is ignored. */
  class WorkflowRunner {
    var started: map<WorkflowId, Status>
    var reachable: bool

    method StartApplicationWorkflow(workflow: WorkflowId, startingStatus: Status)
      modifies this`started
      ensures started == if reachable && workflow !in old(started) then old(started)[workflow := startingStatus]
                         else old(started)
    {
      if reachable && workflow !in started {
        started := started[workflow := startingStatus];
      }
    }
  }

  /** A unit of work that holds the reserved key and the loaded case, and nothing else. */
  ghost predicate Opened(s: Store, r: Request, uow: SqlUnitOfWork, application: Application)
    reads uow, application
  {
    && uow.tenant == r.tenant && uow.app == r.app
    && Reserve(s, r).Ok? && Load(s, r) == Ok(Some(application.State().row))
    && application.pendingEvents == []
    && uow.identity == Some(application.State().row)
    && uow.writes == NoWrites(r.tenant, r.app).(keys := {KeyOf(r)})
  }

  /** The shared start of every handler that loads its case: begin, reserve the key, load. */
  method OpenCase(db: Database, r: Request)
    returns (begun: Result<(), Error>, uow: SqlUnitOfWork, application: Application?)
    requires !r.command.Create? && !r.command.Extract?
    requires r.command.Decide? ==> IsReviewOutcome(r.command.decision)
    ensures fresh(uow) && uow.db == db
    ensures begun.Err? ==> Exec(db.store, r) == Err(begun.error)
    ensures begun.Ok? ==> application != null && fresh(application) && Opened(db.store, r, uow, application)
  {
    hide Plan, Conflicts, Apply;
    application := null;
    uow := new SqlUnitOfWork(db, r.tenant, r.app);
    var reserved := uow.ReserveIdempotencyKey(OperationOf(r.command), r.key);
    if !reserved {
      return Err(DuplicateRequest), uow, null;
    }
    var loaded := uow.GetApplication();
    if loaded.None? {
      return Err(ApplicationNotFound), uow, null;
    }
    return Ok(()), uow, loaded.value;
  }

  /** A unit of work in which a script has been carried out and saved, its events still pending. */
  ghost predicate Staged(s: Store, r: Request, script: Script, row: AppRow, uow: SqlUnitOfWork, application: Application)
    reads uow, application
  {
    && uow.tenant == r.tenant && uow.app == r.app
    && uow.writes.events == [] && uow.writes.auditRows == [] && uow.writes.checkpointInserts == 0
    && uow.writes.row == RowUpdate(application.State().row)
    && PlanScript(r, script, row, QueueOf(s, r.app))
       == Ok(uow.writes.(events := RowsOf(application.pendingEvents, r.stamp.firstId)))
  }

  /** The shared end: drain the events, record them, commit. */
  method RecordAndCommit(db: Database, r: Request, ghost row: AppRow, uow: SqlUnitOfWork, application: Application)
    returns (result: Result<Reply, Error>)
    requires uow.db == db
    requires MovesCase(r.command) && (r.command.AdvanceIntake? ==> r.command.catalog.Some?)
    requires Reserve(db.store, r).Ok? && Load(db.store, r) == Ok(Some(row))
    requires Staged(db.store, r, ScriptOf(r.command), row, uow, application)
    modifies uow, db, application
    ensures Runs(old(db.store), r, db.store, result)
  {
    hide Conflicts, Apply, ScriptOf, PlanScript;
    ghost var s := db.store;
    ghost var w := uow.writes.(events := RowsOf(application.pendingEvents, r.stamp.firstId));
    ExecOfPlan(s, r, Some(row), w);
    hide Exec;
    var reply := Reply(application.status, application.version);
    var events := application.PullEvents();
    uow.RecordDomainEvents(events, r.stamp.firstId);
    assert uow.writes == Recorded(w, LatestHash(LogOf(s, r.tenant)));
    var committed := uow.Commit();
    if committed.Err? {
      return Refused(committed);
    }
    return Ok(reply);
  }

  /** Moves the case to human review inside the caller's transaction: transition, save, queue entry. */
  method EnterHumanReviewIn(uow: SqlUnitOfWork, application: Application, reason: string, now: Time)
    returns (r: Result<(), Error>)
    requires uow.identity.Some? && uow.identity.value == application.State().row
    modifies uow`writes, uow`identity, application
    ensures r.Ok? <==> IsLegal(old(application.status), AwaitingHumanReview)
    ensures r.Err? ==> r.error == IllegalTransition(old(application.status), AwaitingHumanReview)
    ensures r.Ok? ==>
      && Transition(old(application.State()), AwaitingHumanReview, reason, now) == Ok(application.State())
      && uow.writes == old(uow.writes).(
           row := RowUpdate(application.State().row),
           snapshots := old(uow.writes).snapshots[application.version := Snapshot(AwaitingHumanReview, now)],
           queue := QueueInsert(Pending(now)))
  {
    var moved := application.TransitionTo(AwaitingHumanReview, reason, now);
    if moved.Err? {
      return Err(moved.error);
    }
    var saved := uow.SaveApplication(application);
    if saved.Err? {
      return saved;
    }
    uow.AddQueueEntry(now);
    return Ok(());
  }

  method StageIntake(s: Store, r: Request, uow: SqlUnitOfWork, application: Application)
    returns (step: Result<(), Error>)
    requires r.command.AdvanceIntake? && r.command.catalog.Some?
    requires Opened(s, r, uow, application)
    modifies uow`writes, uow`identity, application
    ensures var script, row := ScriptOf(r.command), old(application.State()).row;
            if step.Ok? then Staged(s, r, script, row, uow, application)
            else PlanScript(r, script, row, QueueOf(s, r.app)) == Err(step.error)
  {
    hide IsLegal, Decimal.Show, KeyOf, RowOf;
    var now := r.stamp.now;
    step := application.TransitionTo(IntakeValidation, "entering automated intake validation", now);
    if step.Err? {
      return;
    }
    step := uow.SaveApplication(application);
    if step.Err? {
      return;
    }
    if r.command.catalog.value {
      step := application.TransitionTo(DocumentProcessing,
        "intake validation passed: within product catalog bounds", now);
      if step.Err? {
        return;
      }
      step := uow.SaveApplication(application);
    } else {
      step := EnterHumanReviewIn(uow, application, r.command.flagReason, now);
    }
  }

  method HandleAdvanceIntake(db: Database, r: Request) returns (result: Result<Reply, Error>)
    requires r.command.AdvanceIntake?
    modifies db
    ensures Runs(old(db.store), r, db.store, result)
  {
    hide Exec, Staged, PlanScript, ScriptOf;
    var begun, uow, application := OpenCase(db, r);
    if begun.Err? {
      return Refused(begun);
    }
    if r.command.catalog.None? {
      ExecOfRefusal(db.store, r, application.State().row, ProductNotFound);
      return Err(ProductNotFound);
    }
    ghost var row := application.State().row;
    var staged := StageIntake(db.store, r, uow, application);
    if staged.Err? {
      ExecOfRefusal(db.store, r, row, staged.error);
      return Refused(staged);
    }
    result := RecordAndCommit(db, r, row, uow, application);
  }

  /** One transition, then a save: the staging of a script of one hop that leaves the queue alone.
      `attach` is the workflow bookkeeping of submit and resubmit. */
  method StageHop(s: Store, r: Request, ghost script: Script, hop: Hop, attach: bool, uow: SqlUnitOfWork,
                  application: Application)
    returns (step: Result<(), Error>)
    requires script == Script(hop, None, if attach then AttachWorkflow else KeepWorkflow, KeepQueue)
    requires Opened(s, r, uow, application)
    modifies uow`writes, uow`identity, application
    ensures var row := old(application.State()).row;
            if step.Ok? then Staged(s, r, script, row, uow, application)
            else PlanScript(r, script, row, QueueOf(s, r.app)) == Err(step.error)
  {
    step := application.TransitionTo(hop.target, hop.reason, r.stamp.now);
    if step.Err? {
      return;
    }
    if attach {
      application.AttachWorkflow(WorkflowId(r.tenant, r.app, application.version));
    }
    step := uow.SaveApplication(application);
  }

  /** A committed submission or resubmission leaves its case attached to the execution named after the
      version it answers with. */
  lemma AttachedAsAnswered(s: Store, r: Request)
    requires r.command.Submit? || r.command.Resubmit?
    ensures Exec(s, r).Ok? ==>
      && var outcome := Exec(s, r).value;
      && outcome.reply.Reply? && r.app in outcome.store.cases
      && outcome.store.cases[r.app].row.workflow == Some(WorkflowId(r.tenant, r.app, outcome.reply.version))
  {
    hide MoveThrough, Conflicts, BatchRows;
  }

  /** Submission: the workflow id is committed with the status, and only then is the workflow
      started; a start that fails is logged and changes nothing. */
  method HandleSubmit(db: Database, runner: WorkflowRunner, r: Request) returns (result: Result<Reply, Error>)
    requires r.command.Submit?
    modifies db, runner
    ensures Runs(old(db.store), r, db.store, result)
    ensures runner.reachable == old(runner.reachable)
    ensures result.Err? || !runner.reachable ==> runner.started == old(runner.started)
    ensures result.Ok? && runner.reachable ==>
      && r.app in db.store.cases && db.store.cases[r.app].row.workflow.Some?
      && var workflow := db.store.cases[r.app].row.workflow.value;
      && workflow in runner.started
      && (if workflow in old(runner.started) then runner.started == old(runner.started)
          else runner.started == old(runner.started)[workflow := Submitted])
  {
    hide Exec, Staged, PlanScript;
    var begun, uow, application := OpenCase(db, r);
    if begun.Err? {
      return Refused(begun);
    }
    ghost var row := application.State().row;
    var hop := Hop(Submitted, "applicant submitted");
    var staged := StageHop(db.store, r, ScriptOf(r.command), hop, true, uow, application);
    if staged.Err? {
      ExecOfRefusal(db.store, r, row, staged.error);
      return Refused(staged);
    }
    AttachedAsAnswered(db.store, r);
    result := RecordAndCommit(db, r, row, uow, application);
    if result.Ok? && result.value.Reply? {
      runner.StartApplicationWorkflow(WorkflowId(r.tenant, r.app, result.value.version), Submitted);
    }
  }

  method HandleResubmit(db: Database, runner: WorkflowRunner, r: Request) returns (result: Result<Reply, Error>)
    requires r.command.Resubmit?
    modifies db, runner
    ensures Runs(old(db.store), r, db.store, result)
    ensures runner.reachable == old(runner.reachable)
    ensures result.Err? || !runner.reachable ==> runner.started == old(runner.started)
    ensures result.Ok? && runner.reachable ==>
      && r.app in db.store.cases && db.store.cases[r.app].row.workflow.Some?
      && var workflow := db.store.cases[r.app].row.workflow.value;
      && workflow in runner.started
      && (if workflow in old(runner.started) then runner.started == old(runner.started)
          else runner.started == old(runner.started)[workflow := DocumentProcessing])
  {
    hide Exec, Staged, PlanScript;
    var begun, uow, application := OpenCase(db, r);
    if begun.Err? {
      return Refused(begun);
    }
    ghost var row := application.State().row;
    var hop := Hop(DocumentProcessing, "applicant resubmitted with additional information");
    var staged := StageHop(db.store, r, ScriptOf(r.command), hop, true, uow, application);
    if staged.Err? {
      ExecOfRefusal(db.store, r, row, staged.error);
      return Refused(staged);
    }
    AttachedAsAnswered(db.store, r);
    result := RecordAndCommit(db, r, row, uow, application);
    if result.Ok? && result.value.Reply? {
      runner.StartApplicationWorkflow(WorkflowId(r.tenant, r.app, result.value.version), DocumentProcessing);
    }
  }

  method StageDocuments(s: Store, r: Request, uow: SqlUnitOfWork, application: Application)
    returns (step: Result<(), Error>)
    requires r.command.AdvanceDocuments?
    requires Opened(s, r, uow, application)
    modifies uow`writes, uow`identity, application
    ensures var script, row := ScriptOf(r.command), old(application.State()).row;
            if step.Ok? then Staged(s, r, script, row, uow, application)
            else PlanScript(r, script, row, QueueOf(s, r.app)) == Err(step.error)
  {
    if r.command.documentCount >= 1 {
      var hop := Hop(Verification, Decimal.Show(r.command.documentCount) + " document(s) present");
      step := StageHop(s, r, ScriptOf(r.command), hop, false, uow, application);
    } else {
      step := EnterHumanReviewIn(uow, application, "no documents uploaded -- requires human review", r.stamp.now);
    }
  }

  /** The document gate, with the number of documents counted in the same transaction. */
  method HandleAdvanceDocuments(db: Database, tenant: TenantId, app: AppId, key: IdempotencyKey, stamp: Stamp)
    returns (result: Result<Reply, Error>)
    modifies db
    ensures var count := |FilesOf(old(db.store), app).documents|;
            Runs(old(db.store), Request(tenant, app, key, AdvanceDocuments(count), stamp), db.store, result)
  {
    hide Exec, Staged, PlanScript, ScriptOf;
    var documentCount := |FilesOf(db.store, app).documents|;
    var r := Request(tenant, app, key, AdvanceDocuments(documentCount), stamp);
    var begun, uow, application := OpenCase(db, r);
    if begun.Err? {
      return Refused(begun);
    }
    ghost var row := application.State().row;
    var staged := StageDocuments(db.store, r, uow, application);
    if staged.Err? {
      ExecOfRefusal(db.store, r, row, staged.error);
      return Refused(staged);
    }
    result := RecordAndCommit(db, r, row, uow, application);
  }

  method HandleEnterReview(db: Database, r: Request) returns (result: Result<Reply, Error>)
    requires r.command.EnterReview?
    modifies db
    ensures Runs(old(db.store), r, db.store, result)
  {
    hide Exec, Staged, PlanScript, ScriptOf;
    var begun, uow, application := OpenCase(db, r);
    if begun.Err? {
      return Refused(begun);
    }
    ghost var row := application.State().row;
    var staged := StageReview(db.store, r, uow, application);
    if staged.Err? {
      ExecOfRefusal(db.store, r, row, staged.error);
      return Refused(staged);
    }
    result := RecordAndCommit(db, r, row, uow, application);
  }

  method StageReview(s: Store, r: Request, uow: SqlUnitOfWork, application: Application)
    returns (step: Result<(), Error>)
    requires r.command.EnterReview?
    requires Opened(s, r, uow, application)
    modifies uow`writes, uow`identity, application
    ensures var script, row := ScriptOf(r.command), old(application.State()).row;
            if step.Ok? then Staged(s, r, script, row, uow, application)
            else PlanScript(r, script, row, QueueOf(s, r.app)) == Err(step.error)
  {
    step := EnterHumanReviewIn(uow, application, r.command.reason, r.stamp.now);
  }

  method StageDecision(db: Database, r: Request, uow: SqlUnitOfWork, application: Application)
    returns (step: Result<(), Error>)
    requires r.command.Decide? && uow.db == db
    requires Opened(db.store, r, uow, application)
    modifies uow`writes, uow`identity, application
    ensures var script, row := ScriptOf(r.command), old(application.State()).row;
            if step.Ok? then Staged(db.store, r, script, row, uow, application)
            else PlanScript(r, script, row, QueueOf(db.store, r.app)) == Err(step.error)
  {
    step := application.TransitionTo(r.command.decision, r.command.reason, r.stamp.now);
    if step.Err? {
      return;
    }
    application.DetachWorkflow();
    step := uow.MarkDecided(r.command.decision, r.command.reason, r.command.reviewer, r.stamp.now);
    if step.Err? {
      return;
    }
    step := uow.SaveApplication(application);
  }

  method HandleDecide(db: Database, r: Request) returns (result: Result<Reply, Error>)
    requires r.command.Decide?
    modifies db
    ensures Runs(old(db.store), r, db.store, result)
  {
    hide Staged, PlanScript, ScriptOf, Conflicts, Apply;
    if !IsReviewOutcome(r.command.decision) {
      return Err(InvalidApplicationData);
    }
    var begun, uow, application := OpenCase(db, r);
    if begun.Err? {
      return Refused(begun);
    }
    ghost var row := application.State().row;
    var staged := StageDecision(db, r, uow, application);
    if staged.Err? {
      ExecOfRefusal(db.store, r, row, staged.error);
      return Refused(staged);
    }
    result := RecordAndCommit(db, r, row, uow, application);
  }

  /** Creation: the applicant's product must exist and accept the request, the amount and the term
      must be positive; the draft, its first snapshot and its event commit together. */
  method HandleCreate(db: Database, r: Request) returns (result: Result<Reply, Error>)
    requires r.command.Create?
    modifies db
    ensures Runs(old(db.store), r, db.store, result)
  {
    hide Conflicts, Apply;
    var uow := new SqlUnitOfWork(db, r.tenant, r.app);
    var reserved := uow.ReserveIdempotencyKey(CreateApplication, r.key);
    if !reserved {
      return Err(DuplicateRequest);
    }
    if r.command.catalog.None? {
      return Err(ProductNotFound);
    }
    if !r.command.catalog.value {
      return Err(ProductRejected);
    }
    var created := CreateDraft(r.app, r.tenant, r.command.product, r.command.amountInCents,
                               r.command.termMonths, r.stamp.now);
    if created.Err? {
      return Err(created.error);
    }
    var application := created.value;
    uow.AddApplication(application);
    ghost var w := uow.writes.(events := RowsOf(application.pendingEvents, r.stamp.firstId));
    assert uow.writes.keys == {KeyOf(r)};
    assert Plan(r, None, QueueOf(db.store, r.app)) == Ok(w) by {
      assert map[][1 := Snapshot(Draft, r.stamp.now)] == map[1 := Snapshot(Draft, r.stamp.now)];
    }
    ExecOfPlan(db.store, r, None, w);
    var reply := Reply(application.status, application.version);
    var events := application.PullEvents();
    uow.RecordDomainEvents(events, r.stamp.firstId);
    var committed := uow.Commit();
    if committed.Err? {
      return Refused(committed);
    }
    return Ok(reply);
  }

  /** An upload: one document row and one event that changes no version. */
  method HandleUpload(db: Database, r: Request) returns (result: Result<Reply, Error>)
    requires r.command.Upload?
    modifies db
    ensures Runs(old(db.store), r, db.store, result)
  {
    hide Conflicts, Apply;
    var begun, uow, application := OpenCase(db, r);
    if begun.Err? {
      return Refused(begun);
    }
    uow.AddFiles(Files([r.command.document], [], []));
    var e := DocumentUploaded(r.app, r.tenant, r.stamp.now, r.command.document, r.command.documentType,
                              r.command.objectKey);
    uow.RecordDomainEvents([e], r.stamp.firstId);
    var committed := uow.Commit();
    if committed.Err? {
      return Refused(committed);
    }
    return Ok(Done);
  }

  /** One extraction run for one listed document. */
  method HandleProcessDocument(db: Database, r: Request) returns (result: Result<Reply, Error>)
    requires r.command.Extract?
    modifies db
    ensures Runs(old(db.store), r, db.store, result)
  {
    hide Conflicts, Apply;
    var uow := new SqlUnitOfWork(db, r.tenant, r.app);
    var reserved := uow.ReserveIdempotencyKey(ProcessDocument, r.key);
    if !reserved {
      return Err(DuplicateRequest);
    }
    if r.command.document !in DocumentsOf(db.store, r.tenant, r.app) {
      return Err(DocumentNotFound);
    }
    uow.AddFiles(Files([], [r.command.document], []));
    assert uow.writes.keys == {KeyOf(r)};
    ExecOfPlan(db.store, r, None, uow.writes);
    assert uow.writes == Recorded(uow.writes, LatestHash(LogOf(db.store, r.tenant)));
    var committed := uow.Commit();
    if committed.Err? {
      return Refused(committed);
    }
    return Ok(Done);
  }

  /** One verification run; it moves no case and raises no event. */
  method HandleVerify(db: Database, r: Request) returns (result: Result<Reply, Error>)
    requires r.command.Verify?
    modifies db
    ensures Runs(old(db.store), r, db.store, result)
  {
    hide Conflicts, Apply;
    var begun, uow, application := OpenCase(db, r);
    if begun.Err? {
      return Refused(begun);
    }
    uow.AddFiles(Files([], [], [r.command.contradictions]));
    assert uow.writes == Recorded(uow.writes, LatestHash(LogOf(db.store, r.tenant)));
    var committed := uow.Commit();
    if committed.Err? {
      return Refused(committed);
    }
    return Ok(Done);
  }
}
