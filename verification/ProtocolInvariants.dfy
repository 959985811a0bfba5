/** What every event keeps of the protocol's executions, cases and idempotency keys. */
module ProtocolInvariants {
  import opened Prelude
  import opened CaseStatus
  import opened Applications
  import opened Store
  import opened StoreInvariants
  import opened Coupling
  import opened Protocol

  // ---- One execution and its case ---------------------------------------------------------------

  /** The statuses a case can have while an activity of its execution is outstanding: one before the
      activity has committed, another after, when only the acknowledgement is missing. */
  predicate StatusFits(a: Activity, committed: bool, status: Status)
  {
    match a
    case ValidateIntake =>
      if committed then status == DocumentProcessing || status == AwaitingHumanReview else status == Submitted
    case CheckDocuments =>
      if committed then status == Verification || status == AwaitingHumanReview else status == DocumentProcessing
    case ExtractFacts => status == Verification
    case VerifyFacts => status == Verification
    case EscalateForReview(_) => status == if committed then AwaitingHumanReview else Verification
    case ApplyDecision(_) => status == AwaitingHumanReview && !committed
  }

  predicate Committed(s: Store, wf: WorkflowId, e: Execution, index: nat)
    requires index < |e.scheduled|
  {
    KeyAt(wf, index, e.scheduled[index]) in s.keys
  }

  predicate Owns(s: Store, wf: WorkflowId)
  {
    wf.app in s.cases && s.cases[wf.app].row.workflow == Some(wf)
  }

  /** The case exists, and its version has reached the one the execution was named after, so that a
      later submission names another. */
  predicate CaseKnown(s: Store, wf: WorkflowId)
  {
    && wf.app in s.cases
    && s.cases[wf.app].row.tenant == wf.tenant
    && wf.version <= s.cases[wf.app].row.version
  }

  /** Every activity but an outstanding one has committed. */
  predicate EarlierCommitted(s: Store, wf: WorkflowId, e: Execution)
  {
    forall i :: 0 <= i < |e.scheduled| && !e.scheduled[i].ExtractFacts?
                && (i < |e.scheduled| - 1 || e.phase.Waiting? || e.phase.Finished?)
                ==> Committed(s, wf, e, i)
  }

  /** An execution that owns its case is where the case's status says it is; one that no longer does
      has committed its decision. */
  predicate ExecFits(s: Store, wf: WorkflowId, e: Execution)
  {
    && e.scheduled != [] && CaseKnown(s, wf) && EarlierCommitted(s, wf, e)
    && if Owns(s, wf)
       then (match e.phase
             case Waiting => s.cases[wf.app].row.status == AwaitingHumanReview
             case Finished => false
             case _ => StatusFits(e.Last(), Committed(s, wf, e, |e.scheduled| - 1), s.cases[wf.app].row.status))
       else e.Last().ApplyDecision? && !e.phase.Waiting? && Committed(s, wf, e, |e.scheduled| - 1)
  }

  /** An execution that was asked for and not yet started finds its case untouched. */
  predicate StartFits(s: Store, wf: WorkflowId, startingStatus: Status)
  {
    && CaseKnown(s, wf) && Owns(s, wf)
    && s.cases[wf.app].row.status == startingStatus
    && (startingStatus == Submitted || startingStatus == DocumentProcessing)
  }

  predicate KeyOwned(execs: map<WorkflowId, Execution>, k: Key)
  {
    k.key.ActivityKey? ==> k.key.workflow in execs && k.key.activity < |execs[k.key.workflow].scheduled|
  }

  ghost predicate KeysOwned(w: World)
  {
    forall k :: k in w.store.keys ==> KeyOwned(w.execs, k)
  }

  ghost predicate ExecsFit(w: World)
  {
    && (forall wf :: wf in w.execs ==> wf in w.startable && ExecFits(w.store, wf, w.execs[wf]))
    && (forall wf :: wf in w.startable && wf !in w.execs ==> StartFits(w.store, wf, w.startable[wf]))
  }

  ghost predicate BaseOk(w: World)
  {
    StoreOk(w.store) && AllCoupled(w.store) && KeysOwned(w) && ExecsFit(w)
  }

  // ---- What an attempt does ---------------------------------------------------------------------

  lemma RequestKey(s: Store, wf: WorkflowId, index: nat, a: Activity, inputs: Inputs)
    requires !a.ExtractFacts?
    ensures KeyOf(RequestOf(s, wf, index, a, inputs)) == KeyAt(wf, index, a)
  {
  }

  /** The status an attempt's transaction leaves when it commits from a fitting status. */
  predicate MovesOn(a: Activity, status: Status)
  {
    match a
    case ValidateIntake => status == DocumentProcessing || status == AwaitingHumanReview
    case CheckDocuments => status == Verification || status == AwaitingHumanReview
    case VerifyFacts => status == Verification
    case EscalateForReview(_) => status == AwaitingHumanReview
    case ApplyDecision(signal) => status == signal.decision && IsReviewOutcome(status)
    case ExtractFacts => false
  }

  /** Why an outstanding attempt can still be refused in the status that fits it: the product has gone
      from the catalog, the case already has a queue entry, or the signalled decision is not an
      outcome. No transition is illegal. */
  predicate Excused(e: Error, a: Activity, queue: Option<QueueRow>)
  {
    || (e == ProductNotFound && a.ValidateIntake?)
    || (e == IntegrityViolation && queue.Some? && (a.CheckDocuments? || a.EscalateForReview?))
    || (e == InvalidApplicationData && a.ApplyDecision? && !IsReviewOutcome(a.signal.decision))
  }

  /** A committed attempt: its case alone has moved on, as far as its execution expects. */
  ghost predicate AttemptCommits(s: Store, r: Request, a: Activity, after: Store)
    requires MovesCase(r.command)
  {
    && MovesTo(s, r, ScriptOf(r.command), after)
    && var row := after.cases[r.app].row;
    && Exec(s, r) == Ok(Outcome(after, Reply(row.status, row.version)))
    && MovesOn(a, row.status)
    && row.workflow == (if a.ApplyDecision? then None else s.cases[r.app].row.workflow)
    && row.tenant == s.cases[r.app].row.tenant && s.cases[r.app].row.version < row.version
  }

  lemma AttemptMoves(s: Store, r: Request, a: Activity)
    requires MovesCase(r.command) && AttemptOf(a, r.command)
    requires r.app in s.cases && s.cases[r.app].row.tenant == r.tenant
    requires HistoryOk(s.cases[r.app]) && Coupled(s.cases[r.app]) && LogOf(s, r.tenant).checkpoint.Some?
    requires KeyOf(r) !in s.keys
    requires StatusFits(a, false, s.cases[r.app].row.status)
    ensures match Exec(s, r)
            case Err(e) => Excused(e, a, s.cases[r.app].queue)
            case Ok(_) => AttemptCommits(s, r, a, After(s, r))
  {
    hide HistoryOk, KeyOf, ScriptOf, LastTarget, Prepare;
    MoveExact(s, r);
    hide MovesTo;
    ScriptShape(r.command);
    FittingIsLegal(a, s.cases[r.app].row.status, r.command);
    hide IsLegal, MovesOn;
    if MoveVerdict(s, r).None? {
      MovedTo(s, r, After(s, r));
    }
  }

  lemma MovedTo(s: Store, r: Request, after: Store)
    requires MovesCase(r.command) && MovesTo(s, r, ScriptOf(r.command), after)
    ensures r.app in s.cases && r.app in after.cases
    ensures var row := after.cases[r.app].row;
            && row.status == LastTarget(ScriptOf(r.command))
            && row.version == s.cases[r.app].row.version + Hops(ScriptOf(r.command))
            && row.tenant == s.cases[r.app].row.tenant
            && row.workflow == (match ScriptOf(r.command).workflow
                                case KeepWorkflow => s.cases[r.app].row.workflow
                                case DetachWorkflow => None
                                case AttachWorkflow => Some(WorkflowId(r.tenant, r.app, row.version)))
  {
    hide ScriptOf;
  }

  /** The commands an activity's attempts run. */
  predicate AttemptOf(a: Activity, c: Command)
  {
    match a
    case ValidateIntake => c.AdvanceIntake?
    case CheckDocuments => c.AdvanceDocuments?
    case VerifyFacts => c.Verify?
    case EscalateForReview(_) => c.EnterReview?
    case ApplyDecision(signal) => c.Decide? && c.decision == signal.decision
    case ExtractFacts => false
  }

  /** In the status that fits it, no activity attempts an illegal transition. */
  lemma FittingIsLegal(a: Activity, status: Status, c: Command)
    requires StatusFits(a, false, status) && MovesCase(c) && AttemptOf(a, c)
    ensures (c.Decide? ==> IsReviewOutcome(c.decision)) ==> IsLegal(status, ShapeOf(c).first)
    ensures ShapeOf(c).workflow == if a.ApplyDecision? then DetachWorkflow else KeepWorkflow
    ensures (c.Decide? ==> IsReviewOutcome(c.decision)) ==> MovesOn(a, ShapeOf(c).last)
    ensures ShapeOf(c).enqueues ==> !a.ApplyDecision?
    ensures ShapeOf(c).decides ==> status == AwaitingHumanReview
    ensures ShapeOf(c).enqueues && a.ValidateIntake? ==> status == Submitted
  {
  }

  // ---- Commands that leave an execution alone ---------------------------------------------------

  /** The store of a step that changes nothing an execution depends on. */
  ghost predicate SameFor(s: Store, after: Store, wf: WorkflowId)
  {
    && wf.app in s.cases && wf.app in after.cases
    && after.cases[wf.app].row.tenant == s.cases[wf.app].row.tenant
    && s.cases[wf.app].row.version <= after.cases[wf.app].row.version
    && (Owns(s, wf) <==> Owns(after, wf))
    && (Owns(s, wf) ==> after.cases[wf.app].row == s.cases[wf.app].row)
    && (forall index, a :: KeyAt(wf, index, a) in after.keys <==> KeyAt(wf, index, a) in s.keys)
  }

  lemma SameForKeepsFit(s: Store, after: Store, wf: WorkflowId, e: Execution)
    requires ExecFits(s, wf, e) && SameFor(s, after, wf)
    ensures ExecFits(after, wf, e)
  {
    hide StatusFits, KeyAt;
  }

  lemma SameForKeepsStart(s: Store, after: Store, wf: WorkflowId, startingStatus: Status)
    requires StartFits(s, wf, startingStatus) && SameFor(s, after, wf)
    ensures StartFits(after, wf, startingStatus)
  {
  }

  /** The requests that are not an attempt of `wf`: clients', other executions', extractions. */
  predicate NotOf(r: Request, wf: WorkflowId)
  {
    r.key.ActivityKey? ==> r.key.workflow != wf
  }

  lemma OtherKeys(s: Store, after: Store, r: Request, wf: WorkflowId)
    requires NotOf(r, wf) && (after.keys == s.keys || after.keys == s.keys + {KeyOf(r)})
    ensures forall index, a :: KeyAt(wf, index, a) in after.keys <==> KeyAt(wf, index, a) in s.keys
  {
  }

  /** A submission or resubmission that commits finds its case without an execution and names one after
      the new version. */
  lemma SubmissionMoves(s: Store, r: Request)
    requires r.command.Submit? || r.command.Resubmit?
    requires r.app in s.cases && HistoryOk(s.cases[r.app]) && Coupled(s.cases[r.app])
    requires LogOf(s, s.cases[r.app].row.tenant).checkpoint.Some? && Exec(s, r).Ok?
    ensures r.app in After(s, r).cases
    ensures After(s, r).cases == s.cases[r.app := After(s, r).cases[r.app]]
    ensures After(s, r).keys == s.keys + {KeyOf(r)}
    ensures s.cases[r.app].row.tenant == r.tenant && s.cases[r.app].row.workflow == None
    ensures var row := After(s, r).cases[r.app].row;
            && row.version == s.cases[r.app].row.version + 1 && row.tenant == r.tenant
            && row.workflow == Some(WorkflowId(r.tenant, r.app, row.version))
            && row.status == (if r.command.Submit? then Submitted else DocumentProcessing)
            && Exec(s, r).value.reply == Reply(row.status, row.version)
  {
    hide HistoryOk, Prepare, KeyOf;
    MoveExact(s, r);
    MovedTo(s, r, After(s, r));
  }

  lemma SubmissionKeeps(s: Store, after: Store, r: Request, wf: WorkflowId)
    requires CaseKnown(s, wf) && NotOf(r, wf)
    requires r.app in s.cases && s.cases[r.app].row.workflow == None && s.cases[r.app].row.tenant == r.tenant
    requires r.app in after.cases && after.cases == s.cases[r.app := after.cases[r.app]]
    requires after.keys == s.keys + {KeyOf(r)}
    requires var row := after.cases[r.app].row;
             && row.version == s.cases[r.app].row.version + 1 && row.tenant == r.tenant
             && row.workflow == Some(WorkflowId(r.tenant, r.app, row.version))
    ensures SameFor(s, after, wf)
  {
    OtherKeys(s, after, r, wf);
    hide KeyOf, KeyAt;
  }

  /** A client's command or an extraction never touches a case an execution owns, and a submission
      names an execution no earlier one was named. */
  lemma OutsideCommandKeeps(s: Store, r: Request, wf: WorkflowId)
    requires StoreOk(s) && AllCoupled(s) && CaseKnown(s, wf) && NotOf(r, wf)
    requires r.command.Create? || r.command.Submit? || r.command.Resubmit? || LeavesCases(r.command)
    ensures SameFor(s, After(s, r), wf)
  {
    hide HistoryOk, OutboxOk, TenantAuditOk, StoreOk, AllCoupled, KeyAt, KeyOf, Prepare, SameFor, NotOf, Coupled;
    assert HistoriesOk(s) && AuditOk(s) by { StoreOkParts(s); }
    if Exec(s, r).Err? {
      Unchanged(s, wf);
    } else if MovesCase(r.command) {
      assert r.app in s.cases by { MoveExact(s, r); }
      CoupledOf(s, r.app);
      SubmissionMoves(s, r);
      SubmissionKeeps(s, After(s, r), r, wf);
    } else {
      if r.command.Create? {
        CreateExact(s, r);
      } else {
        QuietExact(s, r);
      }
      hide Exec;
      OtherKeys(s, After(s, r), r, wf);
      CasesKept(s, After(s, r), wf);
    }
  }

  lemma Unchanged(s: Store, wf: WorkflowId)
    requires CaseKnown(s, wf)
    ensures SameFor(s, s, wf)
  {
  }

  lemma CasesKept(s: Store, after: Store, wf: WorkflowId)
    requires CaseKnown(s, wf) && wf.app in after.cases && after.cases[wf.app] == s.cases[wf.app]
    requires forall index, a :: KeyAt(wf, index, a) in after.keys <==> KeyAt(wf, index, a) in s.keys
    ensures SameFor(s, after, wf)
  {
    hide KeyAt;
  }

  lemma CoupledOf(s: Store, app: AppId)
    requires AllCoupled(s) && app in s.cases
    ensures Coupled(s.cases[app])
  {
  }

  // ---- An attempt and the executions ------------------------------------------------------------

  lemma RequestFacts(s: Store, wf: WorkflowId, index: nat, a: Activity, inputs: Inputs)
    requires !a.ExtractFacts?
    ensures var r := RequestOf(s, wf, index, a, inputs);
            && r.app == wf.app && r.tenant == wf.tenant && r.key == ActivityKey(wf, index)
            && AttemptOf(a, r.command)
            && (a.VerifyFacts? <==> !MovesCase(r.command))
            && (a.VerifyFacts? <==> LeavesCases(r.command))
  {
  }

  /** Only the outstanding activity of the execution that owns the case can still commit: for every
      other one the key is taken. */
  lemma SettledAttempt(s: Store, wf: WorkflowId, e: Execution, index: nat)
    requires ExecFits(s, wf, e) && index < |e.scheduled| && !e.scheduled[index].ExtractFacts?
    requires !Committed(s, wf, e, index)
    ensures index == |e.scheduled| - 1 && Owns(s, wf) && (e.phase.Running? || e.phase.Failed?)
    ensures StatusFits(e.Last(), false, s.cases[wf.app].row.status)
  {
    hide KeyAt;
  }

  /** A late, repeated or overlapping attempt of a committed activity changes nothing, and reports the
      case as it is now. */
  lemma DuplicateAttempt(s: Store, wf: WorkflowId, index: nat, a: Activity, inputs: Inputs)
    requires !a.ExtractFacts? && CaseKnown(s, wf) && KeyAt(wf, index, a) in s.keys
    requires a.ApplyDecision? ==> IsReviewOutcome(a.signal.decision)
    ensures var r := RequestOf(s, wf, index, a, inputs);
            && Exec(s, r) == Err(DuplicateRequest) && After(s, r) == s
            && AttemptResult(s, wf, r) == Some(if a.VerifyFacts? then Done
                 else Reply(s.cases[wf.app].row.status, s.cases[wf.app].row.version))
  {
    hide Plan, Load;
    RequestKey(s, wf, index, a, inputs);
    RequestFacts(s, wf, index, a, inputs);
    hide KeyOf, KeyAt;
  }

  lemma TakenKeyChangesNothing(s: Store, r: Request)
    requires KeyOf(r) in s.keys
    ensures Exec(s, r).Err? && After(s, r) == s
  {
    hide Plan, Load;
  }

  /** The facts about one case a store in order provides. */
  lemma CaseFacts(s: Store, wf: WorkflowId)
    requires StoreOk(s) && AllCoupled(s) && CaseKnown(s, wf)
    ensures HistoryOk(s.cases[wf.app]) && Coupled(s.cases[wf.app])
    ensures LogOf(s, wf.tenant).checkpoint.Some?
  {
    hide HistoryOk, Coupled, TenantAuditOk, OutboxOk;
  }

  /** What a committed attempt adds to the keys and does to its case, all an execution sees of it. */
  ghost predicate AttemptTells(s: Store, after: Store, wf: WorkflowId, index: nat, a: Activity)
  {
    && wf.app in s.cases && wf.app in after.cases
    && after.keys == s.keys + {KeyAt(wf, index, a)}
    && (forall app :: app != wf.app ==> (app in after.cases <==> app in s.cases))
    && (forall app :: app in s.cases && app != wf.app ==> after.cases[app] == s.cases[app])
    && after.cases[wf.app].row.tenant == s.cases[wf.app].row.tenant
    && s.cases[wf.app].row.version <= after.cases[wf.app].row.version
    && MovesOn(a, after.cases[wf.app].row.status)
    && after.cases[wf.app].row.workflow == if a.ApplyDecision? then None else s.cases[wf.app].row.workflow
  }

  lemma MoveTells(s: Store, wf: WorkflowId, index: nat, a: Activity, r: Request, after: Store)
    requires MovesCase(r.command) && r.app == wf.app && KeyOf(r) == KeyAt(wf, index, a)
    requires AttemptCommits(s, r, a, after)
    ensures AttemptTells(s, after, wf, index, a)
  {
    hide ScriptOf, MovedRow, MovedQueue, KeyOf, KeyAt, MovesOn, Exec;
  }

  lemma VerifyTells(s: Store, wf: WorkflowId, index: nat, a: Activity, r: Request)
    requires r.command.Verify? && r.app == wf.app && r.tenant == wf.tenant && KeyOf(r) == KeyAt(wf, index, a)
    requires a.VerifyFacts? && CaseKnown(s, wf) && s.cases[wf.app].row.status == Verification
    requires LogOf(s, wf.tenant).checkpoint.Some? && KeyAt(wf, index, a) !in s.keys
    ensures Exec(s, r) == Ok(Outcome(After(s, r), Done)) && AttemptTells(s, After(s, r), wf, index, a)
  {
    hide KeyOf, KeyAt, Prepare;
    QuietExact(s, r);
  }

  /** A fitting attempt either commits as its execution expects or changes nothing. */
  lemma AttemptIsFit(s: Store, wf: WorkflowId, index: nat, a: Activity, inputs: Inputs)
    requires StoreOk(s) && AllCoupled(s) && CaseKnown(s, wf) && !a.ExtractFacts?
    requires KeyAt(wf, index, a) !in s.keys
    requires StatusFits(a, false, s.cases[wf.app].row.status)
    ensures var r := RequestOf(s, wf, index, a, inputs);
            match Exec(s, r)
            case Err(e) => After(s, r) == s && Excused(e, a, s.cases[wf.app].queue)
            case Ok(outcome) =>
              && AttemptTells(s, After(s, r), wf, index, a)
              && outcome.reply == if a.VerifyFacts? then Done
                 else Reply(After(s, r).cases[wf.app].row.status, After(s, r).cases[wf.app].row.version)
  {
    CaseFacts(s, wf);
    RequestKey(s, wf, index, a, inputs);
    RequestFacts(s, wf, index, a, inputs);
    hide StoreOk, AllCoupled, HistoryOk, Coupled, RequestOf, Exec, KeyOf, KeyAt, StatusFits, AttemptOf, AttemptTells;
    var r := RequestOf(s, wf, index, a, inputs);
    if a.VerifyFacts? {
      VerifyFitsVerification(a, s.cases[wf.app].row.status);
      VerifyTells(s, wf, index, a, r);
    } else {
      AttemptMoves(s, r, a);
      if Exec(s, r).Ok? {
        MoveTells(s, wf, index, a, r, After(s, r));
      }
    }
  }

  lemma VerifyFitsVerification(a: Activity, status: Status)
    requires a.VerifyFacts? && StatusFits(a, false, status)
    ensures status == Verification
  {
  }

  /** An execution stays where its case is through every attempt of its own activities. */
  lemma AttemptKeepsOwn(s: Store, wf: WorkflowId, e: Execution, index: nat, inputs: Inputs)
    requires StoreOk(s) && AllCoupled(s) && ExecFits(s, wf, e)
    requires index < |e.scheduled| && !e.scheduled[index].ExtractFacts?
    ensures var after := After(s, RequestOf(s, wf, index, e.scheduled[index], inputs));
            ExecFits(after, wf, e)
  {
    hide StoreOk, AllCoupled, RequestOf, After, Exec;
    var a := e.scheduled[index];
    var r := RequestOf(s, wf, index, a, inputs);
    if Committed(s, wf, e, index) {
      RequestKey(s, wf, index, a, inputs);
      TakenKeyChangesNothing(s, r);
    } else {
      SettledAttempt(s, wf, e, index);
      AttemptIsFit(s, wf, index, a, inputs);
      if Exec(s, r).Ok? {
        CommittedKeepsOwn(s, After(s, r), wf, e);
      } else {
        assert After(s, r) == s;
      }
    }
  }

  lemma CommittedKeepsOwn(s: Store, after: Store, wf: WorkflowId, e: Execution)
    requires ExecFits(s, wf, e) && Owns(s, wf) && (e.phase.Running? || e.phase.Failed?)
    requires AttemptTells(s, after, wf, |e.scheduled| - 1, e.Last())
    ensures ExecFits(after, wf, e)
  {
    hide KeyAt;
    forall i | 0 <= i < |e.scheduled| - 1 && !e.scheduled[i].ExtractFacts?
      ensures Committed(after, wf, e, i)
    {
      assert Committed(s, wf, e, i);
    }
  }

  /** No other execution notices an attempt: of one case, only the owner can commit. */
  lemma AttemptKeepsOther(s: Store, wf: WorkflowId, e: Execution, index: nat, inputs: Inputs, other: WorkflowId)
    requires StoreOk(s) && AllCoupled(s) && ExecFits(s, wf, e) && CaseKnown(s, other) && other != wf
    requires index < |e.scheduled| && !e.scheduled[index].ExtractFacts?
    ensures SameFor(s, After(s, RequestOf(s, wf, index, e.scheduled[index], inputs)), other)
  {
    hide StoreOk, AllCoupled, RequestOf, After, Exec;
    var a := e.scheduled[index];
    var r := RequestOf(s, wf, index, a, inputs);
    if Committed(s, wf, e, index) {
      RequestKey(s, wf, index, a, inputs);
      TakenKeyChangesNothing(s, r);
    } else {
      SettledAttempt(s, wf, e, index);
      AttemptIsFit(s, wf, index, a, inputs);
      if Exec(s, r).Ok? {
        CommittedKeepsOther(s, After(s, r), wf, index, a, other);
      } else {
        assert After(s, r) == s;
      }
    }
  }

  lemma CommittedKeepsOther(s: Store, after: Store, wf: WorkflowId, index: nat, a: Activity, other: WorkflowId)
    requires AttemptTells(s, after, wf, index, a) && Owns(s, wf) && CaseKnown(s, other) && other != wf
    ensures SameFor(s, after, other)
  {
    hide MovesOn;
  }

  /** A result reported to a running execution leads to its next activity, whose key is free. */
  lemma CompletedFits(s: Store, wf: WorkflowId, e: Execution, status: Status, summary: string)
    requires ExecFits(s, wf, e) && e.phase.Running?
    requires e.Last().ExtractFacts? || Committed(s, wf, e, |e.scheduled| - 1)
    requires Owns(s, wf) && !e.Last().ExtractFacts? && !e.Last().VerifyFacts? ==> status == s.cases[wf.app].row.status
    requires forall a :: KeyAt(wf, |e.scheduled|, a) !in s.keys
    ensures ExecFits(s, wf, Completed(e, status, summary))
  {
    hide KeyAt;
    var next := Completed(e, status, summary);
    if |next.scheduled| == |e.scheduled| + 1 {
      assert KeyAt(wf, |e.scheduled|, next.Last()) !in s.keys;
    }
    forall i | 0 <= i < |e.scheduled| && !e.scheduled[i].ExtractFacts?
      ensures Committed(s, wf, e, i)
    {
    }
    assert forall i :: 0 <= i < |e.scheduled| ==> next.scheduled[i] == e.scheduled[i];
    assert EarlierCommitted(s, wf, next) by {
      forall i | 0 <= i < |next.scheduled| && !next.scheduled[i].ExtractFacts?
                 && (i < |next.scheduled| - 1 || next.phase.Waiting? || next.phase.Finished?)
        ensures Committed(s, wf, next, i)
      {
        assert Committed(s, wf, e, i);
      }
    }
  }

  // ---- Every event ------------------------------------------------------------------------------

  lemma KnownCases(w: World, wf: WorkflowId)
    requires ExecsFit(w) && (wf in w.startable || wf in w.execs)
    ensures CaseKnown(w.store, wf)
  {
    hide StatusFits, KeyAt, EarlierCommitted;
  }

  lemma NewKeysOwned(w: World, r: Request, after: Store)
    requires KeysOwned(w) && (after.keys == w.store.keys || after.keys == w.store.keys + {KeyOf(r)})
    requires KeyOwned(w.execs, KeyOf(r))
    ensures KeysOwned(w.(store := after))
  {
    hide KeyOwned;
  }

  /** A store step after which every execution still fits keeps the whole. */
  lemma StoreStepKeeps(w: World, r: Request)
    requires BaseOk(w) && KeyOwned(w.execs, KeyOf(r))
    requires forall wf :: wf in w.execs ==> ExecFits(After(w.store, r), wf, w.execs[wf])
    requires forall wf :: wf in w.startable && wf !in w.execs ==> StartFits(After(w.store, r), wf, w.startable[wf])
    ensures BaseOk(w.(store := After(w.store, r)))
  {
    hide StoreOk, AllCoupled, After, ExecFits, StartFits, KeyOf;
    ExecKeepsStore(w.store, r);
    ExecKeepsCoupled(w.store, r);
    KeysAfter(w.store, r);
    NewKeysOwned(w, r, After(w.store, r));
  }

  lemma KeysAfter(s: Store, r: Request)
    requires StoreOk(s)
    ensures After(s, r).keys == if Exec(s, r).Ok? then s.keys + {KeyOf(r)} else s.keys
  {
    hide StoreOk, HistoryOk, OutboxOk, TenantAuditOk, KeyOf, ScriptOf, Prepare;
    assert HistoriesOk(s) && AuditOk(s) by { StoreOkParts(s); }
    if Exec(s, r).Ok? {
      if MovesCase(r.command) {
        MoveExact(s, r);
      } else if r.command.Create? {
        CreateExact(s, r);
      } else {
        QuietExact(s, r);
      }
    }
  }

  /** Transactions outside every execution. */
  lemma OutsideKeeps(w: World, r: Request)
    requires BaseOk(w) && !r.key.ActivityKey?
    requires r.command.Create? || r.command.Submit? || r.command.Resubmit? || LeavesCases(r.command)
    ensures BaseOk(w.(store := After(w.store, r)))
  {
    hide StoreOk, AllCoupled, After, ExecFits, StartFits, KeysOwned;
    forall wf | wf in w.execs ensures ExecFits(After(w.store, r), wf, w.execs[wf]) {
      KnownCases(w, wf);
      OutsideCommandKeeps(w.store, r, wf);
      SameForKeepsFit(w.store, After(w.store, r), wf, w.execs[wf]);
    }
    forall wf | wf in w.startable && wf !in w.execs ensures StartFits(After(w.store, r), wf, w.startable[wf]) {
      KnownCases(w, wf);
      OutsideCommandKeeps(w.store, r, wf);
      SameForKeepsStart(w.store, After(w.store, r), wf, w.startable[wf]);
    }
    StoreStepKeeps(w, r);
  }

  /** A new execution is asked for under a name nothing has used. */
  lemma NewNameIsFresh(w: World, r: Request)
    requires BaseOk(w) && (r.command.Submit? || r.command.Resubmit?) && Exec(w.store, r).Ok?
    ensures Exec(w.store, r).value.reply.Reply?
    ensures var wf := WorkflowId(r.tenant, r.app, Exec(w.store, r).value.reply.version);
            && wf !in w.startable && wf !in w.execs
            && StartFits(After(w.store, r), wf, if r.command.Submit? then Submitted else DocumentProcessing)
  {
    hide StoreOk, AllCoupled, ExecFits, StartFits, KeysOwned, Prepare, HistoryOk, OutboxOk, TenantAuditOk, Coupled, KeyOf;
    assert HistoriesOk(w.store) && AuditOk(w.store) by { StoreOkParts(w.store); }
    assert r.app in w.store.cases by { MoveExact(w.store, r); }
    assert Coupled(w.store.cases[r.app]) by { assert AllCoupled(w.store); CoupledOf(w.store, r.app); }
    SubmissionMoves(w.store, r);
    var wf := WorkflowId(r.tenant, r.app, Exec(w.store, r).value.reply.version);
    if wf in w.startable || wf in w.execs {
      KnownCases(w, wf);
      assert false;
    }
    FreshStartFits(After(w.store, r), wf, if r.command.Submit? then Submitted else DocumentProcessing);
  }

  lemma FreshStartFits(s: Store, wf: WorkflowId, startingStatus: Status)
    requires CaseKnown(s, wf) && Owns(s, wf) && s.cases[wf.app].row.status == startingStatus
    requires startingStatus == Submitted || startingStatus == DocumentProcessing
    ensures StartFits(s, wf, startingStatus)
  {
  }

  lemma ClientKeeps(w: World, r: Request)
    requires BaseOk(w) && IsClientCommand(r)
    ensures BaseOk(ClientStep(w, r))
  {
    hide StoreOk, AllCoupled, After, ExecFits, StartFits, KeyOwned, Exec;
    OutsideKeeps(w, r);
    if Exec(w.store, r).Ok? && (r.command.Submit? || r.command.Resubmit?) {
      NewNameIsFresh(w, r);
    }
  }

  /** One execution's record changes; it still fits, and has scheduled no less. */
  lemma ExecChangeKeeps(w: World, wf: WorkflowId, e: Execution)
    requires BaseOk(w) && wf in w.startable && ExecFits(w.store, wf, e)
    requires wf in w.execs ==> |w.execs[wf].scheduled| <= |e.scheduled|
    ensures BaseOk(w.(execs := w.execs[wf := e]))
  {
    hide StoreOk, AllCoupled, ExecFits, StartFits;
    forall k | k in w.store.keys ensures KeyOwned(w.execs[wf := e], k) {
      assert KeyOwned(w.execs, k);
    }
  }

  lemma FreeKeys(w: World, wf: WorkflowId, index: nat, a: Activity)
    requires KeysOwned(w) && (wf !in w.execs || |w.execs[wf].scheduled| <= index)
    ensures KeyAt(wf, index, a) !in w.store.keys
  {
    assert KeyAt(wf, index, a) in w.store.keys ==> KeyOwned(w.execs, KeyAt(wf, index, a));
  }

  lemma StartKeeps(w: World, wf: WorkflowId)
    requires BaseOk(w) && wf in w.startable && wf !in w.execs
    ensures BaseOk(w.(execs := w.execs[wf := Started(w.startable[wf])]))
  {
    hide StoreOk, AllCoupled, KeyAt;
    var e := Started(w.startable[wf]);
    assert StartFits(w.store, wf, w.startable[wf]);
    FreeKeys(w, wf, 0, e.Last());
    assert ExecFits(w.store, wf, e);
    ExecChangeKeeps(w, wf, e);
  }

  lemma AttemptStoreKeeps(w: World, wf: WorkflowId, index: nat, inputs: Inputs)
    requires BaseOk(w) && wf in w.execs && index < |w.execs[wf].scheduled| && !w.execs[wf].scheduled[index].ExtractFacts?
    ensures BaseOk(w.(store := After(w.store, RequestOf(w.store, wf, index, w.execs[wf].scheduled[index], inputs))))
  {
    hide StoreOk, AllCoupled, After, ExecFits, StartFits, RequestOf;
    var e := w.execs[wf];
    var r := RequestOf(w.store, wf, index, e.scheduled[index], inputs);
    forall other | other in w.execs ensures ExecFits(After(w.store, r), other, w.execs[other]) {
      assert ExecFits(w.store, other, w.execs[other]) && ExecFits(w.store, wf, e);
      if other == wf {
        AttemptKeepsOwn(w.store, wf, e, index, inputs);
      } else {
        KnownCases(w, other);
        AttemptKeepsOther(w.store, wf, e, index, inputs, other);
        SameForKeepsFit(w.store, After(w.store, r), other, w.execs[other]);
      }
    }
    forall other | other in w.startable && other !in w.execs ensures StartFits(After(w.store, r), other, w.startable[other]) {
      KnownCases(w, other);
      assert ExecFits(w.store, wf, e);
      AttemptKeepsOther(w.store, wf, e, index, inputs, other);
      SameForKeepsStart(w.store, After(w.store, r), other, w.startable[other]);
    }
    RequestKey(w.store, wf, index, e.scheduled[index], inputs);
    StoreStepKeeps(w, r);
  }

  /** After an attempt that returned a result its activity has committed, and the result's status is
      the case's as long as the execution owns it. */
  lemma ResultIsCurrent(s: Store, wf: WorkflowId, e: Execution, inputs: Inputs)
    requires StoreOk(s) && AllCoupled(s) && ExecFits(s, wf, e) && e.phase.Running? && !e.Last().ExtractFacts?
    requires var r := RequestOf(s, wf, |e.scheduled| - 1, e.Last(), inputs); AttemptResult(s, wf, r).Some?
    ensures var r := RequestOf(s, wf, |e.scheduled| - 1, e.Last(), inputs);
            var after := After(s, r);
            && Committed(after, wf, e, |e.scheduled| - 1)
            && (Owns(after, wf) && !e.Last().VerifyFacts? ==>
                  AttemptResult(s, wf, r).value == Reply(after.cases[wf.app].row.status, after.cases[wf.app].row.version))
  {
    hide StoreOk, AllCoupled, RequestOf, Exec, KeyAt, MovesOn;
    var index, a := |e.scheduled| - 1, e.Last();
    var r := RequestOf(s, wf, index, a, inputs);
    RequestFacts(s, wf, index, a, inputs);
    RequestKey(s, wf, index, a, inputs);
    if Committed(s, wf, e, index) {
      TakenKeyChangesNothing(s, r);
    } else {
      SettledAttempt(s, wf, e, index);
      AttemptIsFit(s, wf, index, a, inputs);
    }
  }

  lemma FitOf(w: World, wf: WorkflowId)
    requires BaseOk(w) && wf in w.execs
    ensures ExecFits(w.store, wf, w.execs[wf]) && wf in w.startable
    ensures StoreOk(w.store) && AllCoupled(w.store) && KeysOwned(w) && ExecsFit(w)
  {
    hide StoreOk, AllCoupled, StartFits, EarlierCommitted, StatusFits;
  }

  lemma AttemptKeeps(w: World, wf: WorkflowId, index: nat, inputs: Inputs, acked: bool)
    requires BaseOk(w) && wf in w.execs && index < |w.execs[wf].scheduled| && !w.execs[wf].scheduled[index].ExtractFacts?
    ensures BaseOk(AttemptStep(w, wf, index, inputs, acked))
  {
    hide BaseOk, After, RequestOf, Completed, AttemptResult, Exec;
    var e := w.execs[wf];
    var r := RequestOf(w.store, wf, index, e.scheduled[index], inputs);
    AttemptStoreKeeps(w, wf, index, inputs);
    var mid := w.(store := After(w.store, r));
    var result := AttemptResult(w.store, wf, r);
    if acked && result.Some? && Outstanding(e, index) {
      AckKeeps(w, mid, wf, e, inputs, r, result.value);
      OnlyBaseMatters(mid.(execs := w.execs[wf := Completed(e, StatusOf(result.value), inputs.summary)]),
                      AttemptStep(w, wf, index, inputs, acked));
    } else {
      OnlyBaseMatters(mid, AttemptStep(w, wf, index, inputs, acked));
    }
  }

  lemma AckKeeps(w: World, mid: World, wf: WorkflowId, e: Execution, inputs: Inputs, r: Request, result: Reply)
    requires BaseOk(w) && BaseOk(mid) && wf in w.execs && w.execs[wf] == e
    requires e.phase.Running? && e.scheduled != [] && !e.Last().ExtractFacts?
    requires r == RequestOf(w.store, wf, |e.scheduled| - 1, e.Last(), inputs)
    requires AttemptResult(w.store, wf, r) == Some(result) && mid == w.(store := After(w.store, r))
    ensures BaseOk(mid.(execs := w.execs[wf := Completed(e, StatusOf(result), inputs.summary)]))
  {
    hide BaseOk, After, ExecFits, RequestOf, AttemptResult, Exec, Completed, KeyAt;
    FitOf(w, wf);
    FitOf(mid, wf);
    hide StoreOk, AllCoupled, KeysOwned, ExecsFit;
    ResultIsCurrent(w.store, wf, e, inputs);
    forall a ensures KeyAt(wf, |e.scheduled|, a) !in mid.store.keys {
      FreeKeys(mid, wf, |e.scheduled|, a);
    }
    CompletedFits(mid.store, wf, e, StatusOf(result), inputs.summary);
    CompletedGrows(e, StatusOf(result), inputs.summary);
    ExecChangeKeeps(mid, wf, Completed(e, StatusOf(result), inputs.summary));
  }

  lemma CompletedGrows(e: Execution, status: Status, summary: string)
    requires e.scheduled != []
    ensures |e.scheduled| <= |Completed(e, status, summary).scheduled|
  {
  }

  lemma PassEndKeeps(w: World, id: nat, acked: bool)
    requires BaseOk(w) && id in w.passes && w.passes[id].done >= |w.passes[id].documents|
    ensures BaseOk(PassEnd(w, id, acked))
  {
    hide BaseOk, ExecFits, Completed, KeyAt;
    var wf := w.passes[id].wf;
    if acked && wf in w.execs && Outstanding(w.execs[wf], w.passes[id].index) && w.execs[wf].Last().ExtractFacts? {
      var e := w.execs[wf];
      FitOf(w, wf);
      hide StoreOk, AllCoupled, KeysOwned, ExecsFit;
      forall a ensures KeyAt(wf, |e.scheduled|, a) !in w.store.keys {
        FreeKeys(w, wf, |e.scheduled|, a);
      }
      CompletedFits(w.store, wf, e, Verification, "");
      CompletedGrows(e, Verification, "");
      ExecChangeKeeps(w, wf, Completed(e, Verification, ""));
      OnlyBaseMatters(w.(execs := w.execs[wf := Completed(e, Verification, "")]), PassEnd(w, id, acked));
    } else {
      OnlyBaseMatters(w, PassEnd(w, id, acked));
    }
  }

  /** An execution that waits schedules its decision. */
  lemma WaitingFits(s: Store, wf: WorkflowId, e: Execution, signal: Signal)
    requires ExecFits(s, wf, e) && e.phase.Waiting? && KeyAt(wf, |e.scheduled|, ApplyDecision(signal)) !in s.keys
    ensures ExecFits(s, wf, Schedule(e, ApplyDecision(signal)))
  {
    hide KeyAt;
    var next := Schedule(e, ApplyDecision(signal));
    forall i | 0 <= i < |e.scheduled| && !e.scheduled[i].ExtractFacts? ensures Committed(s, wf, next, i) {
      assert Committed(s, wf, e, i);
    }
  }

  lemma DecisionScheduledFits(w: World, wf: WorkflowId, signal: Signal)
    requires BaseOk(w) && wf in w.execs && w.execs[wf].phase.Waiting?
    ensures BaseOk(w.(execs := w.execs[wf := Schedule(w.execs[wf], ApplyDecision(signal))]))
  {
    hide BaseOk, ExecFits, KeyAt;
    var e := w.execs[wf];
    FitOf(w, wf);
    hide StoreOk, AllCoupled, KeysOwned, ExecsFit;
    FreeKeys(w, wf, |e.scheduled|, ApplyDecision(signal));
    WaitingFits(w.store, wf, e, signal);
    ExecChangeKeeps(w, wf, Schedule(e, ApplyDecision(signal)));
  }

  lemma RecordFits(s: Store, wf: WorkflowId, e: Execution, next: Execution)
    requires ExecFits(s, wf, e) && next.scheduled == e.scheduled
    requires next.phase == e.phase || (e.phase.Running? && next.phase.Failed?)
    ensures ExecFits(s, wf, next)
  {
    hide KeyAt, StatusFits;
    forall i | 0 <= i < |e.scheduled| && !e.scheduled[i].ExtractFacts?
               && (i < |e.scheduled| - 1 || next.phase.Waiting? || next.phase.Finished?)
      ensures Committed(s, wf, next, i)
    {
      assert Committed(s, wf, e, i);
    }
  }

  lemma RecordKeeps(w: World, wf: WorkflowId, next: Execution)
    requires BaseOk(w) && wf in w.execs && next.scheduled == w.execs[wf].scheduled
    requires next.phase == w.execs[wf].phase || (w.execs[wf].phase.Running? && next.phase.Failed?)
    ensures BaseOk(w.(execs := w.execs[wf := next]))
  {
    hide BaseOk, ExecFits;
    FitOf(w, wf);
    hide StoreOk, AllCoupled, KeysOwned, ExecsFit;
    RecordFits(w.store, wf, w.execs[wf], next);
    ExecChangeKeeps(w, wf, next);
  }

  /** Every event keeps the store in order, every case coupled, every key owned by the activity that
      reserved it, and every execution where its case is. */
  lemma NextKeepsBase(w: World, event: Event)
    requires BaseOk(w)
    ensures BaseOk(Next(w, event))
  {
    hide BaseOk, ClientStep, AttemptStep, PassEnd, Exec, After, Schedule;
    match event
    case Client(r) => if IsClientCommand(r) { ClientKeeps(w, r); }
    case Start(wf) => if wf in w.startable && wf !in w.execs { StartKeeps(w, wf); }
    case Attempt(wf, index, inputs, acked) =>
      if wf in w.execs && index < |w.execs[wf].scheduled| && !w.execs[wf].scheduled[index].ExtractFacts? {
        AttemptKeeps(w, wf, index, inputs, acked);
      }
    case BeginPass(id, wf, index) => OnlyBaseMatters(w, Next(w, event));
    case StepPass(id, stamp) =>
      if id in w.passes && w.passes[id].done < |w.passes[id].documents| {
        var p := w.passes[id];
        var r := ExtractRequest(p.wf, p.index, p.documents[p.done], stamp);
        OutsideKeeps(w, r);
        OnlyBaseMatters(w.(store := After(w.store, r)), PassStep(w, id, stamp));
      }
    case EndPass(id, acked) =>
      if id in w.passes && w.passes[id].done >= |w.passes[id].documents| { PassEndKeeps(w, id, acked); }
    case SendSignal(wf, signal) =>
      if wf in w.execs {
        var next := w.execs[wf].(decision := Some(signal));
        RecordKeeps(w, wf, next);
        OnlyBaseMatters(w.(execs := w.execs[wf := next]), Next(w, event));
      }
    case Wake(wf) =>
      if wf in w.execs && w.execs[wf].phase.Waiting? && w.execs[wf].decision.Some? {
        DecisionScheduledFits(w, wf, w.execs[wf].decision.value);
      }
    case TimeOut(wf) =>
      if wf in w.execs && w.execs[wf].phase.Waiting? { DecisionScheduledFits(w, wf, TIMEOUT); }
    case Fail(wf) =>
      if wf in w.execs && w.execs[wf].phase.Running? { RecordKeeps(w, wf, w.execs[wf].(phase := Failed)); }
  }

  lemma OnlyBaseMatters(w: World, next: World)
    requires BaseOk(w) && next.store == w.store && next.startable == w.startable && next.execs == w.execs
    ensures BaseOk(next)
  {
    hide StoreOk, AllCoupled, KeyOwned, ExecFits, StartFits;
  }

  lemma {:induction false} EveryRunIsBaseOk(events: seq<Event>)
    ensures BaseOk(RunWorld(events))
  {
    hide BaseOk, Next;
    if events == [] {
      InitialIsOk();
    } else {
      EveryRunIsBaseOk(events[..|events| - 1]);
      NextKeepsBase(RunWorld(events[..|events| - 1]), events[|events| - 1]);
    }
  }

  lemma InitialIsOk()
    ensures BaseOk(INITIAL)
  {
    EmptyStoreOk();
  }
}
