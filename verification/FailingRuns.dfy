/** Runs in which the program does not do what one would expect of it, step by step: the document gate
    overtaken by an upload, the forked audit chain, the resubmitted case that cannot be reviewed again,
    the decision whose retry reports another state. */
module FailingRuns {
  import opened Prelude
  import opened CaseStatus
  import opened Applications
  import opened EventMapping
  import opened Audit
  import opened Store
  import opened StoreInvariants
  import opened Interleaving
  import opened Schedules
  import opened Coupling
  import Protocol
  import ProtocolTheorems

  // ---- The requests -----------------------------------------------------------------------------

  const TENANT := "tenant"
  const APP := "application"
  const WF := WorkflowId(TENANT, APP, 2)

  /** A client's command. */
  function ByClient(key: string, command: Command, id: nat): Request
  {
    Request(TENANT, APP, ClientKey(key), command, Stamp(id, id))
  }

  /** The command of an activity of the execution that the submission starts. */
  function ByActivity(index: nat, command: Command, id: nat): Request
  {
    Request(TENANT, APP, ActivityKey(WF, index), command, Stamp(id, id))
  }

  const CREATE := ByClient("1", Create("loan", Some(true), 100, 12), 0)
  const SUBMIT := ByClient("2", Submit, 1)
  const ACCEPT := ByActivity(0, AdvanceIntake(Some(true), ""), 2)
  const FLAG := ByActivity(0, AdvanceIntake(Some(false), "out of bounds"), 2)
  const GATE := ByActivity(1, AdvanceDocuments(0), 4)
  const ASK_FOR_MORE := ByActivity(1, Decide(NeedsMoreInformation, "more", Some("reviewer")), 4)
  const RESUBMIT := ByClient("3", Resubmit, 5)
  const FIRST_UPLOAD := ByClient("4", Upload("document", "PAY_STUB", "key"), 6)
  const SECOND_UPLOAD := ByClient("5", Upload("other", "PAY_STUB", "other key"), 7)

  // ---- One case on its way ----------------------------------------------------------------------

  /** A store in order, and where its case is. */
  ghost predicate CaseIn(s: Store, status: Status, version: nat, queued: bool, documents: seq<DocumentId>, keys: set<Key>)
  {
    && StoreOk(s) && AllCoupled(s) && s.keys == keys
    && APP in s.cases && s.cases[APP].row.tenant == TENANT
    && s.cases[APP].row.status == status && s.cases[APP].row.version == version
    && (s.cases[APP].queue.Some? <==> queued)
    && FilesOf(s, APP).documents == documents
  }

  lemma Keep(s: Store, r: Request)
    requires StoreOk(s) && AllCoupled(s)
    ensures StoreOk(After(s, r)) && AllCoupled(After(s, r))
  {
    hide StoreOk, AllCoupled, After;
    ExecKeepsStore(s, r);
    ExecKeepsCoupled(s, r);
  }

  lemma AfterCreate()
    ensures Exec(EMPTY_STORE, CREATE).Ok?
    ensures CaseIn(After(EMPTY_STORE, CREATE), Draft, 1, false, [], {KeyOf(CREATE)})
  {
    hide Exec, After;
    EmptyStoreOk();
    Keep(EMPTY_STORE, CREATE);
    CreateExact(EMPTY_STORE, CREATE);
  }

  lemma NothingRefuses(s: Store, r: Request, status: Status, version: nat, queued: bool, documents: seq<DocumentId>, keys: set<Key>)
    requires CaseIn(s, status, version, queued, documents, keys)
    requires MovesCase(r.command) && r.app == APP && r.tenant == TENANT && KeyOf(r) !in keys
    requires r.command.Decide? ==> IsReviewOutcome(r.command.decision) && queued
    requires r.command.AdvanceIntake? ==> r.command.catalog.Some?
    requires IsLegal(status, ShapeOf(r.command).first) && !(ShapeOf(r.command).enqueues && queued)
    ensures MoveVerdict(s, r).None?
  {
    hide StoreOk, AllCoupled, KeyOf, IsLegal, ScriptOf, IsReviewOutcome;
    ScriptShape(r.command);
  }

  /** A command that moves the case on. */
  lemma AfterMove(s: Store, r: Request, status: Status, version: nat, queued: bool, documents: seq<DocumentId>, keys: set<Key>)
    requires CaseIn(s, status, version, queued, documents, keys)
    requires MovesCase(r.command) && r.app == APP && r.tenant == TENANT && MoveVerdict(s, r).None?
    ensures Exec(s, r).Ok?
    ensures var shape, hops := ShapeOf(r.command), EventCount(r.command);
            && Exec(s, r).value.reply == Reply(shape.last, version + hops)
            && CaseIn(After(s, r), shape.last, version + hops, queued || shape.enqueues, documents, keys + {KeyOf(r)})
            && After(s, r).cases[APP].row.workflow ==
                 (match shape.workflow
                  case KeepWorkflow => s.cases[APP].row.workflow
                  case DetachWorkflow => None
                  case AttachWorkflow => Some(WorkflowId(TENANT, APP, version + hops)))
  {
    hide Exec, After, StoreOk, AllCoupled, HistoryOk, KeyOf, ScriptOf, ShapeOf, MoveVerdict, EventCount;
    Keep(s, r);
    assert HistoriesOk(s) && AuditOk(s) by { StoreOkParts(s); }
    assert HistoryOk(s.cases[APP]) && LogOf(s, TENANT).checkpoint.Some? by { InOrder(s); }
    ScriptShape(r.command);
    ScriptHops(r.command);
    MoveExact(s, r);
    assert MovesTo(s, r, ScriptOf(r.command), After(s, r));
  }

  lemma InOrder(s: Store)
    requires HistoriesOk(s) && AuditOk(s) && APP in s.cases && s.cases[APP].row.tenant == TENANT
    ensures HistoryOk(s.cases[APP]) && LogOf(s, TENANT).checkpoint.Some?
  {
    hide HistoryOk, TenantAuditOk;
  }

  // ---- The case that comes back -----------------------------------------------------------------

  /** A case reviewed once, with more information asked for and given. */
  const RETURNING := [CREATE, SUBMIT, FLAG, ASK_FOR_MORE, RESUBMIT]

  lemma KeysOfStory()
    ensures KeyOf(CREATE) == Key(TENANT, CreateApplication, ClientKey("1"))
    ensures KeyOf(SUBMIT) == Key(TENANT, SubmitApplication, ClientKey("2"))
    ensures KeyOf(FLAG) == KeyOf(ACCEPT) == Key(TENANT, AdvanceIntakeValidation, ActivityKey(WF, 0))
    ensures KeyOf(ASK_FOR_MORE) == Key(TENANT, ApplyReviewDecision, ActivityKey(WF, 1))
    ensures KeyOf(GATE) == Key(TENANT, AdvanceDocumentProcessing, ActivityKey(WF, 1))
    ensures KeyOf(RESUBMIT) == Key(TENANT, ResubmitApplication, ClientKey("3"))
    ensures KeyOf(FIRST_UPLOAD) == Key(TENANT, UploadDocument, ClientKey("4"))
    ensures KeyOf(SECOND_UPLOAD) == Key(TENANT, UploadDocument, ClientKey("5"))
  {
  }

  /** The store after the submission. */
  lemma Submitted2() returns (s: Store)
    ensures Exec(EMPTY_STORE, CREATE).Ok? && Exec(After(EMPTY_STORE, CREATE), SUBMIT).Ok?
    ensures Exec(After(EMPTY_STORE, CREATE), SUBMIT).value.reply == Reply(Submitted, 2)
    ensures s == After(After(EMPTY_STORE, CREATE), SUBMIT)
    ensures CaseIn(s, Submitted, 2, false, [], {KeyOf(CREATE), KeyOf(SUBMIT)})
    ensures s.cases[APP].row.workflow == Some(WF)
  {
    hide Exec, After, StoreOk, AllCoupled, KeyOf, MoveVerdict;
    KeysOfStory();
    AfterCreate();
    var created := After(EMPTY_STORE, CREATE);
    NothingRefuses(created, SUBMIT, Draft, 1, false, [], {KeyOf(CREATE)});
    AfterMove(created, SUBMIT, Draft, 1, false, [], {KeyOf(CREATE)});
    s := After(created, SUBMIT);
    assert {KeyOf(CREATE)} + {KeyOf(SUBMIT)} == {KeyOf(CREATE), KeyOf(SUBMIT)};
  }

  lemma Flagged4(s: Store) returns (next: Store)
    requires CaseIn(s, Submitted, 2, false, [], {KeyOf(CREATE), KeyOf(SUBMIT)}) && s.cases[APP].row.workflow == Some(WF)
    ensures Exec(s, FLAG).Ok? && Exec(s, FLAG).value.reply == Reply(AwaitingHumanReview, 4) && next == After(s, FLAG)
    ensures CaseIn(next, AwaitingHumanReview, 4, true, [], {KeyOf(CREATE), KeyOf(SUBMIT), KeyOf(FLAG)})
    ensures next.cases[APP].row.workflow == Some(WF)
  {
    hide Exec, After, StoreOk, AllCoupled, KeyOf, MoveVerdict;
    KeysOfStory();
    var keys := {KeyOf(CREATE), KeyOf(SUBMIT)};
    NothingRefuses(s, FLAG, Submitted, 2, false, [], keys);
    AfterMove(s, FLAG, Submitted, 2, false, [], keys);
    next := After(s, FLAG);
    assert keys + {KeyOf(FLAG)} == {KeyOf(CREATE), KeyOf(SUBMIT), KeyOf(FLAG)};
  }

  lemma Asked5(s: Store) returns (next: Store)
    requires CaseIn(s, AwaitingHumanReview, 4, true, [], {KeyOf(CREATE), KeyOf(SUBMIT), KeyOf(FLAG)})
    ensures Exec(s, ASK_FOR_MORE).Ok? && Exec(s, ASK_FOR_MORE).value.reply == Reply(NeedsMoreInformation, 5)
    ensures next == After(s, ASK_FOR_MORE)
    ensures CaseIn(next, NeedsMoreInformation, 5, true, [], {KeyOf(CREATE), KeyOf(SUBMIT), KeyOf(FLAG), KeyOf(ASK_FOR_MORE)})
  {
    hide Exec, After, StoreOk, AllCoupled, KeyOf, MoveVerdict;
    KeysOfStory();
    var keys := {KeyOf(CREATE), KeyOf(SUBMIT), KeyOf(FLAG)};
    NothingRefuses(s, ASK_FOR_MORE, AwaitingHumanReview, 4, true, [], keys);
    AfterMove(s, ASK_FOR_MORE, AwaitingHumanReview, 4, true, [], keys);
    next := After(s, ASK_FOR_MORE);
    assert keys + {KeyOf(ASK_FOR_MORE)} == {KeyOf(CREATE), KeyOf(SUBMIT), KeyOf(FLAG), KeyOf(ASK_FOR_MORE)};
  }

  lemma Back6(s: Store) returns (next: Store)
    requires CaseIn(s, NeedsMoreInformation, 5, true, [], {KeyOf(CREATE), KeyOf(SUBMIT), KeyOf(FLAG), KeyOf(ASK_FOR_MORE)})
    ensures Exec(s, RESUBMIT).Ok? && Exec(s, RESUBMIT).value.reply == Reply(DocumentProcessing, 6)
    ensures next == After(s, RESUBMIT)
    ensures CaseIn(next, DocumentProcessing, 6, true, [],
                   {KeyOf(CREATE), KeyOf(SUBMIT), KeyOf(FLAG), KeyOf(ASK_FOR_MORE), KeyOf(RESUBMIT)})
  {
    hide Exec, After, StoreOk, AllCoupled, KeyOf, MoveVerdict;
    KeysOfStory();
    var keys := {KeyOf(CREATE), KeyOf(SUBMIT), KeyOf(FLAG), KeyOf(ASK_FOR_MORE)};
    NothingRefuses(s, RESUBMIT, NeedsMoreInformation, 5, true, [], keys);
    AfterMove(s, RESUBMIT, NeedsMoreInformation, 5, true, [], keys);
    next := After(s, RESUBMIT);
    assert keys + {KeyOf(RESUBMIT)} == {KeyOf(CREATE), KeyOf(SUBMIT), KeyOf(FLAG), KeyOf(ASK_FOR_MORE), KeyOf(RESUBMIT)};
  }

  lemma RunOfStory()
    ensures RunAll(RETURNING) ==
              After(After(After(After(After(EMPTY_STORE, CREATE), SUBMIT), FLAG), ASK_FOR_MORE), RESUBMIT)
  {
    assert RunAll([]) == EMPTY_STORE;
    assert [] + [CREATE] == [CREATE] && [CREATE] + [SUBMIT] == [CREATE, SUBMIT]
        && [CREATE, SUBMIT] + [FLAG] == [CREATE, SUBMIT, FLAG]
        && [CREATE, SUBMIT, FLAG] + [ASK_FOR_MORE] == [CREATE, SUBMIT, FLAG, ASK_FOR_MORE]
        && [CREATE, SUBMIT, FLAG, ASK_FOR_MORE] + [RESUBMIT] == RETURNING;
    hide After, RunAll;
    RunSnoc([], CREATE);
    RunSnoc([CREATE], SUBMIT);
    RunSnoc([CREATE, SUBMIT], FLAG);
    RunSnoc([CREATE, SUBMIT, FLAG], ASK_FOR_MORE);
    RunSnoc([CREATE, SUBMIT, FLAG, ASK_FOR_MORE], RESUBMIT);
  }

  lemma RunSnoc(requests: seq<Request>, r: Request)
    ensures RunAll(requests + [r]) == After(RunAll(requests), r)
  {
    assert (requests + [r])[..|requests|] == requests;
  }

  /** Five commands, all of them in order, end in a case that came back; from there no continuation of any
      length takes it to human review. */
  lemma ReturningCaseIsStuck()
    ensures var s := RunAll(RETURNING);
            && CameBack(s, APP) && s.cases[APP].row.status == DocumentProcessing
            && forall more :: !ReachesReview(s, APP, more)
  {
    hide Exec, After, StoreOk, AllCoupled, KeyOf, RunAll, RunFrom;
    RunOfStory();
    var submitted := Submitted2();
    var flagged := Flagged4(submitted);
    var asked := Asked5(flagged);
    var back := Back6(asked);
    forall more ensures !ReachesReview(back, APP, more) {
      StaysBackForever(back, APP, more);
    }
  }

  // ---- The decision that is retried too late ----------------------------------------------------

  const MORE := Protocol.Signal(NeedsMoreInformation, "more", "reviewer")
  const FLAGGED := Protocol.Inputs(Some(false), "out of bounds", 0, "", None, Stamp(2, 2))
  const DECIDED := Protocol.Inputs(None, "", 0, "", None, Stamp(4, 4))

  /** The decision commits, its acknowledgement is lost, and before the retry the case is resubmitted. */
  const LATE: seq<Protocol.Event> := [
    Protocol.Client(CREATE), Protocol.Client(SUBMIT), Protocol.Start(WF),
    Protocol.Attempt(WF, 0, FLAGGED, true), Protocol.SendSignal(WF, MORE), Protocol.Wake(WF),
    Protocol.Attempt(WF, 1, DECIDED, false), Protocol.Client(RESUBMIT)]

  ghost function WorldAt(k: nat): Protocol.World
    requires k <= |LATE|
  {
    Protocol.RunWorld(LATE[..k])
  }

  lemma WorldNext(k: nat)
    requires k < |LATE|
    ensures WorldAt(k + 1) == Protocol.Next(WorldAt(k), LATE[k])
  {
    assert LATE[..k + 1][..k] == LATE[..k];
  }

  /** Created, submitted and started. */
  lemma Started3() returns (s: Store)
    ensures CaseIn(s, Submitted, 2, false, [], {KeyOf(CREATE), KeyOf(SUBMIT)}) && s.cases[APP].row.workflow == Some(WF)
    ensures WorldAt(3).store == s && WorldAt(3).results == map[]
    ensures WorldAt(3).execs == map[WF := Protocol.Execution([Protocol.ValidateIntake], Protocol.Running, None)]
  {
    hide Exec, After, StoreOk, AllCoupled, KeyOf;
    s := Submitted2();
    assert LATE[..0] == [];
    assert WorldAt(0) == Protocol.INITIAL;
    WorldNext(0);
    WorldNext(1);
    WorldNext(2);
  }

  /** Flagged, and waiting for a decision. */
  lemma Waiting4() returns (s: Store)
    ensures CaseIn(s, AwaitingHumanReview, 4, true, [], {KeyOf(CREATE), KeyOf(SUBMIT), KeyOf(FLAG)})
    ensures WorldAt(4).store == s && (WF, 1) !in WorldAt(4).results
    ensures WF in WorldAt(4).execs
    ensures WorldAt(4).execs[WF] == Protocol.Execution([Protocol.ValidateIntake], Protocol.Waiting, None)
  {
    hide Exec, After, StoreOk, AllCoupled, KeyOf;
    var submitted := Started3();
    s := Flagged4(submitted);
    hide CaseIn, WorldAt;
    WorldNext(3);
    assert Protocol.RequestOf(submitted, WF, 0, Protocol.ValidateIntake, FLAGGED) == FLAG;
  }

  /** Signalled and woken. */
  lemma Woken6() returns (s: Store)
    ensures CaseIn(s, AwaitingHumanReview, 4, true, [], {KeyOf(CREATE), KeyOf(SUBMIT), KeyOf(FLAG)})
    ensures WorldAt(6).store == s && (WF, 1) !in WorldAt(6).results
    ensures WF in WorldAt(6).execs
    ensures WorldAt(6).execs[WF] ==
              Protocol.Execution([Protocol.ValidateIntake, Protocol.ApplyDecision(MORE)], Protocol.Running, Some(MORE))
  {
    hide Exec, After, CaseIn, KeyOf, Protocol.AttemptStep, Protocol.ClientStep, WorldAt;
    s := Waiting4();
    WorldNext(4);
    WorldNext(5);
  }

  /** Decided, not acknowledged, and resubmitted. */
  lemma Late8() returns (s: Store)
    ensures CaseIn(s, DocumentProcessing, 6, true, [],
                   {KeyOf(CREATE), KeyOf(SUBMIT), KeyOf(FLAG), KeyOf(ASK_FOR_MORE), KeyOf(RESUBMIT)})
    ensures WorldAt(8).store == s && WF in WorldAt(8).execs
    ensures WorldAt(8).execs[WF] ==
              Protocol.Execution([Protocol.ValidateIntake, Protocol.ApplyDecision(MORE)], Protocol.Running, Some(MORE))
    ensures (WF, 1) in WorldAt(8).results && WorldAt(8).results[(WF, 1)] == Reply(NeedsMoreInformation, 5)
  {
    hide Exec, After, StoreOk, AllCoupled, KeyOf;
    var flagged := Woken6();
    var asked := Asked5(flagged);
    s := Back6(asked);
    WorldNext(6);
    assert Protocol.RequestOf(flagged, WF, 1, Protocol.ApplyDecision(MORE), DECIDED) == ASK_FOR_MORE;
    WorldNext(7);
  }

  /** The retry of the decision then writes nothing and reports DOCUMENT_PROCESSING at version 6, where the
      result that was lost is NEEDS_MORE_INFORMATION at version 5. */
  lemma LateRetryReportsAnother(inputs: Protocol.Inputs)
    ensures var w := Protocol.RunWorld(LATE);
            && WF in w.execs && w.execs[WF].scheduled != [] && w.execs[WF].Last() == Protocol.ApplyDecision(MORE)
            && w.execs[WF].phase.Running?
            && (WF, 1) in w.results && w.results[(WF, 1)] == Reply(NeedsMoreInformation, 5)
            && var r := Protocol.RequestOf(w.store, WF, 1, Protocol.ApplyDecision(MORE), inputs);
            && After(w.store, r) == w.store
            && Protocol.AttemptResult(w.store, WF, r) == Some(Reply(DocumentProcessing, 6))
  {
    hide Protocol.RunWorld, StoreOk, AllCoupled, Exec, After;
    var s := Late8();
    assert LATE[..8] == LATE;
    KeysOfStory();
    var r := Protocol.RequestOf(s, WF, 1, Protocol.ApplyDecision(MORE), inputs);
    assert KeyOf(r) == KeyOf(ASK_FOR_MORE);
    Duplicate(s, r);
  }

  lemma Duplicate(s: Store, r: Request)
    requires KeyOf(r) in s.keys && (r.command.Decide? ==> IsReviewOutcome(r.command.decision))
    ensures Exec(s, r) == Err(DuplicateRequest) && After(s, r) == s
  {
    hide Load, Plan, KeyOf;
  }

  // ---- Schedules --------------------------------------------------------------------------------

  /** A transaction on its own, from its reservation to its commit. */
  predicate Alone(steps: seq<Step>, k: nat, id: nat, r: Request)
  {
    && k + 5 <= |steps|
    && steps[k] == Begin(id, r) && steps[k + 1] == LoadRow(id) && steps[k + 2] == PlanWrites(id)
    && steps[k + 3] == RecordEvents(id) && steps[k + 4] == Commit(id)
  }

  lemma AloneRuns(steps: seq<Step>, k: nat, id: nat, r: Request)
    requires Alone(steps, k, id, r)
    requires id !in At(steps, k).txns && !Held(At(steps, k), KeyOf(r))
    requires Exec(At(steps, k).store, r).Ok? && CountsDocuments(At(steps, k).store, r)
    ensures At(steps, k + 5) == Sys(After(At(steps, k).store, r), At(steps, k).txns)
  {
    hide At, Plan, Conflicts, Apply, Recorded, KeyOf, Held;
    var sys := At(steps, k);
    AtNext(steps, k);
    AtNext(steps, k + 1);
    AtNext(steps, k + 2);
    AtNext(steps, k + 3);
    AtNext(steps, k + 4);
    var row := Load(sys.store, r).value;
    var w := Plan(r, row, QueueOf(sys.store, r.app)).value;
    var seen := LatestHash(LogOf(sys.store, r.tenant));
    assert At(steps, k + 1) == Sys(sys.store, sys.txns[id := Begun(r)]);
    assert At(steps, k + 2) == Sys(sys.store, sys.txns[id := Loaded(r, row)]);
    assert At(steps, k + 3) == Sys(sys.store, sys.txns[id := Planned(r, row, w)]);
    assert At(steps, k + 4) == Sys(sys.store, sys.txns[id := Ready(r, row, w, seen)]);
    assert sys.txns[id := Ready(r, row, w, seen)] - {id} == sys.txns;
  }

  /** A gate counts no document, an upload commits, and then the gate commits. */
  const OVERTAKEN := [
    Begin(0, CREATE), LoadRow(0), PlanWrites(0), RecordEvents(0), Commit(0),
    Begin(0, SUBMIT), LoadRow(0), PlanWrites(0), RecordEvents(0), Commit(0),
    Begin(0, ACCEPT), LoadRow(0), PlanWrites(0), RecordEvents(0), Commit(0),
    Begin(1, GATE), LoadRow(1), PlanWrites(1),
    Begin(0, FIRST_UPLOAD), LoadRow(0), PlanWrites(0), RecordEvents(0), Commit(0),
    RecordEvents(1), Commit(1)]

  lemma Accepted4(s: Store) returns (next: Store)
    requires CaseIn(s, Submitted, 2, false, [], {KeyOf(CREATE), KeyOf(SUBMIT)})
    ensures Exec(s, ACCEPT).Ok? && next == After(s, ACCEPT)
    ensures CaseIn(next, DocumentProcessing, 4, false, [], {KeyOf(CREATE), KeyOf(SUBMIT), KeyOf(ACCEPT)})
  {
    hide Exec, After, StoreOk, AllCoupled, KeyOf, MoveVerdict;
    KeysOfStory();
    var keys := {KeyOf(CREATE), KeyOf(SUBMIT)};
    NothingRefuses(s, ACCEPT, Submitted, 2, false, [], keys);
    AfterMove(s, ACCEPT, Submitted, 2, false, [], keys);
    next := After(s, ACCEPT);
    assert keys + {KeyOf(ACCEPT)} == {KeyOf(CREATE), KeyOf(SUBMIT), KeyOf(ACCEPT)};
  }

  /** An upload leaves the cases alone. */
  lemma AfterUpload(s: Store, r: Request, status: Status, version: nat, queued: bool, documents: seq<DocumentId>, keys: set<Key>)
    requires CaseIn(s, status, version, queued, documents, keys)
    requires r.command.Upload? && r.app == APP && r.tenant == TENANT && KeyOf(r) !in keys
    ensures Exec(s, r).Ok? && After(s, r).cases == s.cases
    ensures CaseIn(After(s, r), status, version, queued, documents + [r.command.document], keys + {KeyOf(r)})
  {
    hide Exec, After, StoreOk, AllCoupled, HistoryOk, KeyOf;
    Keep(s, r);
    assert HistoriesOk(s) && AuditOk(s) by { StoreOkParts(s); }
    InOrder(s);
    QuietExact(s, r);
  }

  lemma StepsToGate()
    ensures |OVERTAKEN| == 25
    ensures Alone(OVERTAKEN, 0, 0, CREATE) && Alone(OVERTAKEN, 5, 0, SUBMIT)
  {
    hide CREATE, SUBMIT, ACCEPT, GATE, FIRST_UPLOAD;
  }

  lemma StepsAtGate()
    ensures |OVERTAKEN| == 25 && Alone(OVERTAKEN, 10, 0, ACCEPT)
  {
    hide CREATE, SUBMIT, ACCEPT, GATE, FIRST_UPLOAD;
  }

  lemma StepsFromGate()
    ensures |OVERTAKEN| == 25
    ensures OVERTAKEN[15] == Begin(1, GATE) && OVERTAKEN[16] == LoadRow(1) && OVERTAKEN[17] == PlanWrites(1)
    ensures Alone(OVERTAKEN, 18, 0, FIRST_UPLOAD)
    ensures OVERTAKEN[23] == RecordEvents(1) && OVERTAKEN[24] == Commit(1)
  {
    hide CREATE, SUBMIT, ACCEPT, GATE, FIRST_UPLOAD;
  }

  lemma NothingBegun(steps: seq<Step>)
    ensures At(steps, 0) == Sys(EMPTY_STORE, map[])
  {
    assert steps[..0] == [];
  }

  /** The store before the gate begins. */
  lemma BeforeGate() returns (s: Store)
    ensures |OVERTAKEN| == 25 && At(OVERTAKEN, 15) == Sys(s, map[])
    ensures CaseIn(s, DocumentProcessing, 4, false, [], {KeyOf(CREATE), KeyOf(SUBMIT), KeyOf(ACCEPT)})
  {
    hide Exec, After, KeyOf, StoreOk, AllCoupled, At, CaseIn, FilesOf, OVERTAKEN, Alone;
    var submitted := Submitted2();
    s := Accepted4(submitted);
    StepsToGate();
    StepsAtGate();
    NothingBegun(OVERTAKEN);
    AloneRuns(OVERTAKEN, 0, 0, CREATE);
    AloneRuns(OVERTAKEN, 5, 0, SUBMIT);
    AloneRuns(OVERTAKEN, 10, 0, ACCEPT);
  }

  /** Begun, loaded and planned, at one moment. */
  lemma PlansAlone(steps: seq<Step>, k: nat, id: nat, r: Request) returns (row: Option<AppRow>, w: Writes)
    requires k + 3 <= |steps| && steps[k] == Begin(id, r) && steps[k + 1] == LoadRow(id) && steps[k + 2] == PlanWrites(id)
    requires id !in At(steps, k).txns && !Held(At(steps, k), KeyOf(r))
    requires Exec(At(steps, k).store, r).Ok? && CountsDocuments(At(steps, k).store, r)
    ensures var s := At(steps, k).store;
            && Load(s, r) == Ok(row) && CanPlan(r, row) && Plan(r, row, QueueOf(s, r.app)) == Ok(w)
    ensures At(steps, k + 3) == Sys(At(steps, k).store, At(steps, k).txns[id := Planned(r, row, w)])
  {
    hide At, Plan, Conflicts, Apply, Recorded, KeyOf, Held;
    var sys := At(steps, k);
    AtNext(steps, k);
    AtNext(steps, k + 1);
    AtNext(steps, k + 2);
    row := Load(sys.store, r).value;
    w := Plan(r, row, QueueOf(sys.store, r.app)).value;
    assert At(steps, k + 1) == Sys(sys.store, sys.txns[id := Begun(r)]);
    assert At(steps, k + 2) == Sys(sys.store, sys.txns[id := Loaded(r, row)]);
  }

  /** Recorded and committed at one moment, with a plan that is still the one its command would make. */
  lemma CommitsAlone(steps: seq<Step>, k: nat, id: nat, r: Request, row: Option<AppRow>, w: Writes)
    requires k + 2 <= |steps| && steps[k] == RecordEvents(id) && steps[k + 1] == Commit(id)
    requires id in At(steps, k).txns && At(steps, k).txns[id] == Planned(r, row, w) && Exec(At(steps, k).store, r).Ok?
    requires var s := At(steps, k).store;
             Load(s, r) == Ok(row) && CanPlan(r, row) && Plan(r, row, QueueOf(s, r.app)) == Ok(w)
    ensures CommitsAt(steps, k + 1) == Some(r)
    ensures At(steps, k + 1).store == At(steps, k).store && At(steps, k + 2).store == After(At(steps, k).store, r)
  {
    hide At, Plan, Load, Conflicts, Apply, Recorded, KeyOf;
    AtNext(steps, k);
    AtNext(steps, k + 1);
  }

  /** What a gate reads of the cases. */
  lemma SameReads(s: Store, after: Store, r: Request)
    requires MovesCase(r.command) && after.cases == s.cases
    ensures Load(after, r) == Load(s, r) && QueueOf(after, r.app) == QueueOf(s, r.app)
  {
  }

  /** The gate escalates the case for want of documents, although its document has been there since
      before the gate's commit; run at that moment, it would have passed the case on. */
  lemma GateMissesFirstDocument()
    ensures var s := RunSteps(OVERTAKEN).store;
            && APP in s.cases && s.cases[APP].row.status == AwaitingHumanReview && FilesOf(s, APP).documents == ["document"]
    ensures SomeGateOvertaken(OVERTAKEN)
    ensures |OVERTAKEN| == 25 && CommitsAt(OVERTAKEN, 24) == Some(GATE)
    ensures var s := At(OVERTAKEN, 24).store;
            && Exec(s, Recounted(s, GATE)).Ok? && Exec(s, Recounted(s, GATE)).value.reply == Reply(Verification, 5)
  {
    hide Exec, After, KeyOf, StoreOk, AllCoupled, At, FilesOf, OVERTAKEN, Alone, Load, Plan, MoveVerdict, RunSteps;
    var s := BeforeGate();
    StepsFromGate();
    KeysOfStory();
    var keys := {KeyOf(CREATE), KeyOf(SUBMIT), KeyOf(ACCEPT)};
    NothingRefuses(s, GATE, DocumentProcessing, 4, false, [], keys);
    AfterMove(s, GATE, DocumentProcessing, 4, false, [], keys);
    var row, w := PlansAlone(OVERTAKEN, 15, 1, GATE);
    AfterUpload(s, FIRST_UPLOAD, DocumentProcessing, 4, false, [], keys);
    AloneRuns(OVERTAKEN, 18, 0, FIRST_UPLOAD);
    var mid := After(s, FIRST_UPLOAD);
    SameReads(s, mid, GATE);
    GateAgain(mid);
    CommitsAlone(OVERTAKEN, 23, 1, GATE, row, w);
    SkewedIsOvertaken(OVERTAKEN, 24);
    assert At(OVERTAKEN, 25) == RunSteps(OVERTAKEN) by { WholeRun(OVERTAKEN); }
  }

  lemma GateAgain(s: Store)
    requires CaseIn(s, DocumentProcessing, 4, false, [] + ["document"], {KeyOf(CREATE), KeyOf(SUBMIT), KeyOf(ACCEPT)} + {KeyOf(FIRST_UPLOAD)})
    ensures Exec(s, GATE).Ok? && APP in After(s, GATE).cases && After(s, GATE).cases[APP].row.status == AwaitingHumanReview
    ensures FilesOf(After(s, GATE), APP).documents == ["document"]
    ensures Exec(s, Recounted(s, GATE)).Ok? && Exec(s, Recounted(s, GATE)).value.reply == Reply(Verification, 5)
    ensures GATE.command.documentCount < |FilesOf(s, APP).documents|
  {
    hide Exec, After, KeyOf, StoreOk, AllCoupled, FilesOf, MoveVerdict;
    KeysOfStory();
    var keys := {KeyOf(CREATE), KeyOf(SUBMIT), KeyOf(ACCEPT)} + {KeyOf(FIRST_UPLOAD)};
    var documents := [] + ["document"];
    var now := Recounted(s, GATE);
    assert KeyOf(now) == KeyOf(GATE) by { SameKey(GATE, now); }
    NothingRefuses(s, GATE, DocumentProcessing, 4, false, documents, keys);
    AfterMove(s, GATE, DocumentProcessing, 4, false, documents, keys);
    NothingRefuses(s, now, DocumentProcessing, 4, false, documents, keys);
    AfterMove(s, now, DocumentProcessing, 4, false, documents, keys);
  }

  /** Two uploads of one tenant, recorded against the same checkpoint. */
  const FORK := [
    Begin(0, CREATE), LoadRow(0), PlanWrites(0), RecordEvents(0), Commit(0),
    Begin(1, FIRST_UPLOAD), LoadRow(1), PlanWrites(1),
    Begin(2, SECOND_UPLOAD), LoadRow(2), PlanWrites(2),
    RecordEvents(1), RecordEvents(2), Commit(1), Commit(2)]

  lemma ForkSteps()
    ensures |FORK| == 15 && Alone(FORK, 0, 0, CREATE)
    ensures FORK[5] == Begin(1, FIRST_UPLOAD) && FORK[6] == LoadRow(1) && FORK[7] == PlanWrites(1)
    ensures FORK[8] == Begin(2, SECOND_UPLOAD) && FORK[9] == LoadRow(2) && FORK[10] == PlanWrites(2)
    ensures FORK[11] == RecordEvents(1) && FORK[12] == RecordEvents(2) && FORK[13] == Commit(1) && FORK[14] == Commit(2)
  {
    hide CREATE, FIRST_UPLOAD, SECOND_UPLOAD;
  }

  /** What an upload plans, and that nothing in the way of constraints stops it. */
  lemma UploadPlan(s: Store, r: Request, row: Option<AppRow>, w: Writes, seen: Option<Hash>)
    requires r.command.Upload? && CanPlan(r, row) && Plan(r, row, QueueOf(s, r.app)) == Ok(w)
    requires KeyOf(r) !in s.keys && r.app in s.cases && seen.Some?
    ensures !Conflicts(s, Recorded(w, seen))
    ensures w.tenant == r.tenant && |w.events| == 1
    ensures LogOf(Apply(s, Recorded(w, seen)), r.tenant).rows == LogOf(s, r.tenant).rows + BatchRows(seen, w.events)
    ensures Apply(s, Recorded(w, seen)).keys == s.keys + {KeyOf(r)} && Apply(s, Recorded(w, seen)).cases.Keys == s.cases.Keys
  {
    hide KeyOf, BatchRows, EventToRecord;
    assert w.keys * s.keys == {};
    AppliedTables(s, w, seen);
    AppendLog(LogOf(s, r.tenant), seen, w.events);
  }

  /** Both uploads planned. */
  lemma BothPlanned() returns (s: Store, row: Option<AppRow>, v: Writes, w: Writes)
    ensures |FORK| == 15
    ensures CaseIn(s, Draft, 1, false, [], {KeyOf(CREATE)})
    ensures CanPlan(FIRST_UPLOAD, row) && Plan(FIRST_UPLOAD, row, QueueOf(s, APP)) == Ok(v)
    ensures CanPlan(SECOND_UPLOAD, row) && Plan(SECOND_UPLOAD, row, QueueOf(s, APP)) == Ok(w)
    ensures At(FORK, 11) == Sys(s, map[1 := Planned(FIRST_UPLOAD, row, v), 2 := Planned(SECOND_UPLOAD, row, w)])
  {
    hide Exec, After, KeyOf, StoreOk, AllCoupled, At, CaseIn, FilesOf, FORK, Alone, Load, Plan, QueueOf;
    ForkSteps();
    KeysOfStory();
    NothingBegun(FORK);
    AfterCreate();
    AloneRuns(FORK, 0, 0, CREATE);
    s := After(EMPTY_STORE, CREATE);
    AfterUpload(s, FIRST_UPLOAD, Draft, 1, false, [], {KeyOf(CREATE)});
    AfterUpload(s, SECOND_UPLOAD, Draft, 1, false, [], {KeyOf(CREATE)});
    row, v := PlansAlone(FORK, 5, 1, FIRST_UPLOAD);
    var row2, w2 := PlansAlone(FORK, 8, 2, SECOND_UPLOAD);
    assert row2 == row by { SameRow(s, FIRST_UPLOAD, SECOND_UPLOAD); }
    w := w2;
  }

  lemma SameRow(s: Store, r: Request, q: Request)
    requires r.command.Upload? && q.command.Upload? && r.app == q.app && r.tenant == q.tenant
    ensures Load(s, r) == Load(s, q)
  {
  }

  lemma HasCheckpoint(s: Store, status: Status, version: nat, queued: bool, documents: seq<DocumentId>, keys: set<Key>)
    requires CaseIn(s, status, version, queued, documents, keys)
    ensures LogOf(s, TENANT).checkpoint.Some?
  {
    hide HistoriesOk, OutboxOk;
    assert HistoriesOk(s) && AuditOk(s) by { hide AuditOk; StoreOkParts(s); }
    InOrder(s);
  }

  /** Both commit, and the chain is forked: two rows claim the same predecessor. */
  lemma OverlappingUploadsFork()
    ensures |FORK| == 15 && CommitsAt(FORK, 13) == Some(FIRST_UPLOAD) && CommitsAt(FORK, 14) == Some(SECOND_UPLOAD)
    ensures Forked(LogOf(RunSteps(FORK).store, TENANT).rows)
    ensures CollisionFree() ==> !LogVerifies(LogOf(RunSteps(FORK).store, TENANT)) && !TenantSerialised(FORK, TENANT)
  {
    hide Exec, After, KeyOf, At, FORK, Plan, QueueOf, Conflicts, Apply, RunSteps, Recorded, LogVerifies, Forked, TenantSerialised;
    var s, row, v, w := BothPlanned();
    ForkSteps();
    KeysOfStory();
    HasCheckpoint(s, Draft, 1, false, [], {KeyOf(CREATE)});
    hide StoreOk, AllCoupled;
    var seen := LatestHash(LogOf(s, TENANT));
    UploadPlan(s, FIRST_UPLOAD, row, v, seen);
    var mid := Apply(s, Recorded(v, seen));
    UploadReads(s, mid, FIRST_UPLOAD, SECOND_UPLOAD, row, v, w, seen);
    UploadPlan(mid, SECOND_UPLOAD, row, w, seen);
    CommitBoth(s, row, v, w, seen);
    assert At(FORK, 15) == RunSteps(FORK) by { WholeRun(FORK); }
    SamePredecessor(LogOf(s, TENANT).rows, seen, v.events, w.events);
    if CollisionFree() {
      ForkedDoesNotVerify(LogOf(RunSteps(FORK).store, TENANT));
      ChainVerifiesIffSerialised(FORK, TENANT);
    }
  }

  lemma UploadReads(s: Store, mid: Store, r: Request, q: Request, row: Option<AppRow>, v: Writes, w: Writes, seen: Option<Hash>)
    requires r.command.Upload? && q.command.Upload? && CanPlan(r, row) && CanPlan(q, row)
    requires Plan(r, row, QueueOf(s, r.app)) == Ok(v) && Plan(q, row, QueueOf(s, q.app)) == Ok(w)
    ensures Plan(q, row, QueueOf(mid, q.app)) == Ok(w)
  {
  }

  lemma CommitBoth(s: Store, row: Option<AppRow>, v: Writes, w: Writes, seen: Option<Hash>)
    requires |FORK| == 15
    requires At(FORK, 11) == Sys(s, map[1 := Planned(FIRST_UPLOAD, row, v), 2 := Planned(SECOND_UPLOAD, row, w)])
    requires seen == LatestHash(LogOf(s, TENANT))
    requires !Conflicts(s, Recorded(v, seen)) && !Conflicts(Apply(s, Recorded(v, seen)), Recorded(w, seen))
    ensures CommitsAt(FORK, 13) == Some(FIRST_UPLOAD) && CommitsAt(FORK, 14) == Some(SECOND_UPLOAD)
    ensures At(FORK, 15).store == Apply(Apply(s, Recorded(v, seen)), Recorded(w, seen))
  {
    hide At, FORK, Conflicts, Apply, Recorded;
    ForkSteps();
    AtNext(FORK, 11);
    AtNext(FORK, 12);
    AtNext(FORK, 13);
    AtNext(FORK, 14);
  }

  lemma SamePredecessor(rows: seq<AuditRow>, seen: Option<Hash>, a: seq<OutboxRow>, b: seq<OutboxRow>)
    requires |a| == 1 && |b| == 1
    ensures Forked(rows + BatchRows(seen, a) + BatchRows(seen, b))
  {
    var whole := rows + BatchRows(seen, a) + BatchRows(seen, b);
    var i, j := |rows|, |rows| + 1;
    assert whole[i] == BatchRows(seen, a)[0] && whole[j] == BatchRows(seen, b)[0];
    FirstBatchRow(seen, a);
    FirstBatchRow(seen, b);
  }

  lemma ForkedDoesNotVerify(log: AuditLog)
    requires CollisionFree() && Forked(log.rows)
    ensures !LogVerifies(log)
  {
    if LogVerifies(log) {
      ChainIsUnforked(log.rows, log.checkpoint.value.latestHash);
      assert false;
    }
  }
}
