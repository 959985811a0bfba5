/** The durable case protocol: client commands, workflow executions that schedule activities, and
    activity attempts that may fail, lose their acknowledgement, repeat or arrive late. Each attempt
    is one transaction of the store; `Overlap` takes the transactions apart into steps. */
module Protocol {
  import opened Prelude
  import opened CaseStatus
  import opened Applications
  import opened Store
  import opened StoreInvariants
  import opened Coupling

  // ---- Executions -------------------------------------------------------------------------------

  /** A review decision as it is signalled; an empty reviewer stands for none. */
  datatype Signal = Signal(decision: Status, reason: string, reviewer: string)

  const SLA_TIMEOUT_REASON := "human review SLA timeout: no decision recorded within the review window"

  /** The decision an expired review window stands in for. */
  const TIMEOUT := Signal(Escalated, SLA_TIMEOUT_REASON, "")

  function ReviewerOf(signal: Signal): Option<string>
  {
    if signal.reviewer == "" then None else Some(signal.reviewer)
  }

  datatype Activity =
    | ValidateIntake
    | CheckDocuments
    | ExtractFacts
    | VerifyFacts
    | EscalateForReview(reason: string)
    | ApplyDecision(signal: Signal)

  datatype Phase = Running | Waiting | Finished | Failed

  /** An execution: the activities it has scheduled, in order, the last one outstanding while it is
      running. An activity's id is its position. */
  datatype Execution = Execution(scheduled: seq<Activity>, phase: Phase, decision: Option<Signal>) {
    function Last(): Activity
      requires scheduled != []
    {
      scheduled[|scheduled| - 1]
    }
  }

  function Schedule(e: Execution, a: Activity): Execution
  {
    e.(scheduled := e.scheduled + [a], phase := Running)
  }

  /** An execution starts where its case does; it supports two starting statuses. */
  function Started(startingStatus: Status): Execution
  {
    if startingStatus == Submitted then Execution([ValidateIntake], Running, None)
    else if startingStatus == DocumentProcessing then Execution([CheckDocuments], Running, None)
    else Execution([], Failed, None)
  }

  /** What the workflow does with the result of its outstanding activity. `summary` is the text a
      verification returns. */
  function Completed(e: Execution, status: Status, summary: string): Execution
    requires e.scheduled != []
  {
    match e.Last()
    case ValidateIntake => if status == AwaitingHumanReview then e.(phase := Waiting) else Schedule(e, CheckDocuments)
    case CheckDocuments => if status == AwaitingHumanReview then e.(phase := Waiting) else Schedule(e, ExtractFacts)
    case ExtractFacts => Schedule(e, VerifyFacts)
    case VerifyFacts => Schedule(e, EscalateForReview(summary))
    case EscalateForReview(_) => e.(phase := Waiting)
    case ApplyDecision(_) => e.(phase := Finished)
  }

  // ---- Attempts ---------------------------------------------------------------------------------

  /** What an attempt reads from outside the store, and the count of a document gate that counted before
      later uploads of its case committed; none when it counted all the documents there are. */
  datatype Inputs = Inputs(catalog: Option<bool>, flagReason: string, contradictions: nat, summary: string,
                           counted: Option<nat>, stamp: Stamp)

  /** The count a gate acts on. Documents are only added, one at a time, so every smaller count was right
      once. */
  function CountedDocuments(s: Store, app: AppId, counted: Option<nat>): nat
  {
    var all := |FilesOf(s, app).documents|;
    if counted.Some? && counted.value < all then counted.value else all
  }

  /** The transaction an attempt of a scheduled activity runs, under a key made of the execution's id
      and the activity's. Extraction runs one per document. */
  function RequestOf(s: Store, wf: WorkflowId, index: nat, a: Activity, inputs: Inputs): Request
    requires !a.ExtractFacts?
  {
    var command := match a
      case ValidateIntake => AdvanceIntake(inputs.catalog, inputs.flagReason)
      case CheckDocuments => AdvanceDocuments(CountedDocuments(s, wf.app, inputs.counted))
      case VerifyFacts => Verify(inputs.contradictions)
      case EscalateForReview(reason) => EnterReview(reason)
      case ApplyDecision(signal) => Decide(signal.decision, signal.reason, ReviewerOf(signal));
    Request(wf.tenant, wf.app, ActivityKey(wf, index), command, inputs.stamp)
  }

  function ExtractRequest(wf: WorkflowId, index: nat, document: DocumentId, stamp: Stamp): Request
  {
    Request(wf.tenant, wf.app, DocumentKey(wf, index, document), Extract(document), stamp)
  }

  function ActivityOperation(a: Activity): Operation
  {
    match a
    case ValidateIntake => AdvanceIntakeValidation
    case CheckDocuments => AdvanceDocumentProcessing
    case ExtractFacts => ProcessDocument
    case VerifyFacts => VerifyApplicationFacts
    case EscalateForReview(_) => EnterHumanReview
    case ApplyDecision(_) => ApplyReviewDecision
  }

  function KeyAt(wf: WorkflowId, index: nat, a: Activity): Key
  {
    Key(wf.tenant, ActivityOperation(a), ActivityKey(wf, index))
  }

  /** Status and version as a duplicate attempt re-reads them. */
  function CurrentReply(s: Store, wf: WorkflowId): Option<Reply>
  {
    if wf.app in s.cases && s.cases[wf.app].row.tenant == wf.tenant
    then Some(Reply(s.cases[wf.app].row.status, s.cases[wf.app].row.version))
    else None
  }

  /** What an attempt returns to the workflow: its own result, or, when an earlier attempt has
      committed, the state re-read now. Any other error is a failed attempt. */
  function AttemptResult(s: Store, wf: WorkflowId, r: Request): Option<Reply>
  {
    match Exec(s, r)
    case Ok(outcome) => Some(outcome.reply)
    case Err(e) =>
      if e != DuplicateRequest then None
      else if r.command.Verify? then Some(Done)
      else CurrentReply(s, wf)
  }

  function StatusOf(reply: Reply): Status
  {
    if reply.Reply? then reply.status else Verification
  }

  // ---- The system -------------------------------------------------------------------------------

  /** A pass of the extraction loop: the documents it listed, and how many it has been through. */
  datatype Pass = Pass(wf: WorkflowId, index: nat, documents: seq<DocumentId>, done: nat)

  /** The store and everything that acts on it. `requests`, `results` and `signalled` only record:
      every transaction tried, what each activity committed, every signal delivered. */
  datatype World = World(
    store: Store,
    startable: map<WorkflowId, Status>,
    execs: map<WorkflowId, Execution>,
    passes: map<nat, Pass>,
    requests: seq<Request>,
    results: map<(WorkflowId, nat), Reply>,
    signalled: set<(WorkflowId, Signal)>)

  datatype Event =
    | Client(request: Request)
    | Start(wf: WorkflowId)
    | Attempt(wf: WorkflowId, index: nat, inputs: Inputs, acked: bool)
    | BeginPass(pass: nat, wf: WorkflowId, index: nat)
    | StepPass(pass: nat, stamp: Stamp)
    | EndPass(pass: nat, acked: bool)
    | SendSignal(wf: WorkflowId, signal: Signal)
    | Wake(wf: WorkflowId)
    | TimeOut(wf: WorkflowId)
    | Fail(wf: WorkflowId)

  predicate IsClientCommand(r: Request)
  {
    && r.key.ClientKey?
    && (r.command.Create? || r.command.Submit? || r.command.Resubmit? || r.command.Upload?)
  }

  /** Runs a request as one transaction. */
  function Transact(w: World, r: Request): World
  {
    w.(store := After(w.store, r), requests := w.requests + [r])
  }

  /** A client's command. A committed submission or resubmission asks for its execution to be started,
      once it has answered. */
  function ClientStep(w: World, r: Request): World
  {
    var after := Transact(w, r);
    match Exec(w.store, r)
    case Err(_) => after
    case Ok(outcome) =>
      if (r.command.Submit? || r.command.Resubmit?) && outcome.reply.Reply?
      then after.(startable := w.startable[WorkflowId(r.tenant, r.app, outcome.reply.version) :=
                                 if r.command.Submit? then Submitted else DocumentProcessing])
      else after
  }

  /** Whether an attempt of an activity, any time after it was scheduled, can still be acknowledged. */
  predicate Outstanding(e: Execution, index: nat)
  {
    e.phase.Running? && index == |e.scheduled| - 1
  }

  function AttemptStep(w: World, wf: WorkflowId, index: nat, inputs: Inputs, acked: bool): World
    requires wf in w.execs && index < |w.execs[wf].scheduled| && !w.execs[wf].scheduled[index].ExtractFacts?
  {
    var e := w.execs[wf];
    var r := RequestOf(w.store, wf, index, e.scheduled[index], inputs);
    var result := AttemptResult(w.store, wf, r);
    var after := Transact(w, r).(results := if Exec(w.store, r).Ok? then w.results[(wf, index) := result.value] else w.results);
    if acked && result.Some? && Outstanding(e, index)
    then after.(execs := w.execs[wf := Completed(e, StatusOf(result.value), inputs.summary)])
    else after
  }

  /** One document of a pass: processed, or skipped because an earlier pass has; any other error ends
      the pass. */
  function PassStep(w: World, id: nat, stamp: Stamp): World
    requires id in w.passes && w.passes[id].done < |w.passes[id].documents|
  {
    var p := w.passes[id];
    var r := ExtractRequest(p.wf, p.index, p.documents[p.done], stamp);
    var after := Transact(w, r);
    if Exec(w.store, r).Ok? || Exec(w.store, r) == Err(DuplicateRequest)
    then after.(passes := w.passes[id := p.(done := p.done + 1)])
    else after.(passes := w.passes - {id})
  }

  /** The end of a pass that has been through its whole list. */
  function PassEnd(w: World, id: nat, acked: bool): World
    requires id in w.passes && w.passes[id].done >= |w.passes[id].documents|
  {
    var p := w.passes[id];
    var after := w.(passes := w.passes - {id});
    if acked && p.wf in w.execs && Outstanding(w.execs[p.wf], p.index) && w.execs[p.wf].Last().ExtractFacts?
    then after.(execs := w.execs[p.wf := Completed(w.execs[p.wf], Verification, "")])
    else after
  }

  /** One event. An event that does not apply changes nothing. An execution id that has been used is
      never started again, and an execution fails when its outstanding activity has run out of
      attempts, which may be at any time. */
  function Next(w: World, event: Event): World
  {
    match event
    case Client(r) => if IsClientCommand(r) then ClientStep(w, r) else w
    case Start(wf) =>
      if wf in w.startable && wf !in w.execs then w.(execs := w.execs[wf := Started(w.startable[wf])]) else w
    case Attempt(wf, index, inputs, acked) =>
      if wf in w.execs && index < |w.execs[wf].scheduled| && !w.execs[wf].scheduled[index].ExtractFacts?
      then AttemptStep(w, wf, index, inputs, acked)
      else w
    case BeginPass(id, wf, index) =>
      if wf in w.execs && index < |w.execs[wf].scheduled| && w.execs[wf].scheduled[index].ExtractFacts? && id !in w.passes
      then w.(passes := w.passes[id := Pass(wf, index, DocumentsOf(w.store, wf.tenant, wf.app), 0)])
      else w
    case StepPass(id, stamp) =>
      if id in w.passes && w.passes[id].done < |w.passes[id].documents| then PassStep(w, id, stamp) else w
    case EndPass(id, acked) =>
      if id in w.passes && w.passes[id].done >= |w.passes[id].documents| then PassEnd(w, id, acked) else w
    case SendSignal(wf, signal) =>
      if wf in w.execs
      then w.(execs := w.execs[wf := w.execs[wf].(decision := Some(signal))], signalled := w.signalled + {(wf, signal)})
      else w
    case Wake(wf) =>
      if wf in w.execs && w.execs[wf].phase.Waiting? && w.execs[wf].decision.Some?
      then w.(execs := w.execs[wf := Schedule(w.execs[wf], ApplyDecision(w.execs[wf].decision.value))])
      else w
    case TimeOut(wf) =>
      if wf in w.execs && w.execs[wf].phase.Waiting?
      then w.(execs := w.execs[wf := Schedule(w.execs[wf], ApplyDecision(TIMEOUT))])
      else w
    case Fail(wf) =>
      if wf in w.execs && w.execs[wf].phase.Running? then w.(execs := w.execs[wf := w.execs[wf].(phase := Failed)]) else w
  }

  const INITIAL := World(EMPTY_STORE, map[], map[], map[], [], map[], {})

  ghost function RunWorld(events: seq<Event>): World
  {
    if events == [] then INITIAL
    else Next(RunWorld(events[..|events| - 1]), events[|events| - 1])
  }
}
