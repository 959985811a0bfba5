/** What every run of the protocol guarantees: one writer per case, results that survive a lost
    acknowledgement, decisions that come from people, extractions that happen once. */
module ProtocolTheorems {
  import opened Prelude
  import opened CaseStatus
  import opened Applications
  import opened Store
  import opened StoreInvariants
  import opened Coupling
  import opened ExactlyOnce
  import opened Protocol
  import opened ProtocolInvariants

  // ---- The transaction of an event --------------------------------------------------------------

  /** The transaction an event tries, if it tries one. */
  function TriedBy(w: World, event: Event): Option<Request>
  {
    match event
    case Client(r) => if IsClientCommand(r) then Some(r) else None
    case Attempt(wf, index, inputs, _) =>
      if wf in w.execs && index < |w.execs[wf].scheduled| && !w.execs[wf].scheduled[index].ExtractFacts?
      then Some(RequestOf(w.store, wf, index, w.execs[wf].scheduled[index], inputs))
      else None
    case StepPass(id, stamp) =>
      if id in w.passes && w.passes[id].done < |w.passes[id].documents|
      then Some(ExtractRequest(w.passes[id].wf, w.passes[id].index, w.passes[id].documents[w.passes[id].done], stamp))
      else None
    case _ => None
  }

  lemma NextTries(w: World, event: Event)
    ensures match TriedBy(w, event)
            case None => Next(w, event).store == w.store && Next(w, event).requests == w.requests
            case Some(r) => Next(w, event).store == After(w.store, r) && Next(w, event).requests == w.requests + [r]
  {
    hide Exec, After, RequestOf;
  }

  /** The store of a run is the store of its transactions, one after another. */
  lemma {:induction false} StoreRunsRequests(events: seq<Event>)
    ensures RunWorld(events).store == RunAll(RunWorld(events).requests)
  {
    if events != [] {
      var w, last := RunWorld(events[..|events| - 1]), events[|events| - 1];
      StoreRunsRequests(events[..|events| - 1]);
      NextTries(w, last);
      hide Next, TriedBy, After;
      if TriedBy(w, last).Some? {
        assert (w.requests + [TriedBy(w, last).value])[..|w.requests|] == w.requests;
      }
    }
  }

  // ---- One writer -------------------------------------------------------------------------------

  /** Every attached execution has been asked for. */
  ghost predicate AttachedOk(w: World)
  {
    forall app :: app in w.store.cases && w.store.cases[app].row.workflow.Some? ==>
      w.store.cases[app].row.workflow.value in w.startable
  }

  /** Only a submission or a resubmission attaches an execution. */
  lemma WorkflowStep(s: Store, r: Request)
    requires StoreOk(s) && !r.command.Submit? && !r.command.Resubmit?
    ensures forall app :: app in After(s, r).cases && After(s, r).cases[app].row.workflow.Some? ==>
              app in s.cases && s.cases[app].row.workflow == After(s, r).cases[app].row.workflow
  {
    hide StoreOk, HistoryOk, OutboxOk, TenantAuditOk, KeyOf, Prepare, Exec;
    assert HistoriesOk(s) && AuditOk(s) by { StoreOkParts(s); }
    if MovesCase(r.command) {
      MoveExact(s, r);
      if MoveVerdict(s, r).None? {
        ScriptShape(r.command);
        MovedTo(s, r, After(s, r));
      }
    } else if r.command.Create? {
      CreateExact(s, r);
    } else {
      QuietExact(s, r);
    }
  }

  lemma SubmissionAttaches(w: World, r: Request)
    requires BaseOk(w) && AttachedOk(w) && IsClientCommand(r) && (r.command.Submit? || r.command.Resubmit?)
    ensures AttachedOk(ClientStep(w, r))
  {
    hide BaseOk, Exec, HistoryOk, OutboxOk, TenantAuditOk, KeyOf, Prepare, Coupled, AttachedOk;
    BaseParts(w);
    assert HistoriesOk(w.store) && AuditOk(w.store) by { StoreOkParts(w.store); }
    if Exec(w.store, r).Ok? {
      assert r.app in w.store.cases by { MoveExact(w.store, r); }
      CoupledOf(w.store, r.app);
      SubmissionMoves(w.store, r);
      hide StoreOk, AllCoupled, HistoriesOk, AuditOk, KeysOwned, ExecsFit;
      OneMoreAttached(w, ClientStep(w, r), r.app);
    } else {
      RefusedChangesNothing(w.store, r);
      AttachedDependsOnRows(w, ClientStep(w, r));
    }
  }

  lemma OneMoreAttached(w: World, next: World, app: AppId)
    requires AttachedOk(w) && app in next.store.cases
    requires next.store.cases == w.store.cases[app := next.store.cases[app]]
    requires next.store.cases[app].row.workflow.Some? && next.store.cases[app].row.workflow.value in next.startable
    requires forall wf :: wf in w.startable ==> wf in next.startable
    ensures AttachedOk(next)
  {
  }

  lemma AttachedDependsOnRows(w: World, next: World)
    requires AttachedOk(w) && next.store == w.store && next.startable == w.startable
    ensures AttachedOk(next)
  {
  }

  lemma RefusedChangesNothing(s: Store, r: Request)
    requires Exec(s, r).Err?
    ensures After(s, r) == s
  {
  }

  lemma BaseParts(w: World)
    requires BaseOk(w)
    ensures StoreOk(w.store) && AllCoupled(w.store) && KeysOwned(w) && ExecsFit(w)
  {
  }

  lemma NextKeepsAttached(w: World, event: Event)
    requires BaseOk(w) && AttachedOk(w)
    ensures AttachedOk(Next(w, event))
  {
    hide BaseOk, StoreOk, AllCoupled, Exec, After, RequestOf, Completed, AttemptResult;
    BaseParts(w);
    if event.Client? && IsClientCommand(event.request) && (event.request.command.Submit? || event.request.command.Resubmit?) {
      SubmissionAttaches(w, event.request);
    } else {
      NextTries(w, event);
      var tried := TriedBy(w, event);
      if tried.Some? {
        AttemptIsNoSubmission(w, event, tried.value);
        WorkflowStep(w.store, tried.value);
      }
      StartableGrows(w, event);
      hide Next, TriedBy;
    }
  }

  lemma AttemptIsNoSubmission(w: World, event: Event, r: Request)
    requires TriedBy(w, event) == Some(r)
    ensures event.Client? ==> event.request == r && IsClientCommand(r)
    ensures !event.Client? ==> !r.command.Submit? && !r.command.Resubmit? && !r.key.ClientKey?
    ensures event.Attempt? ==> r.key == ActivityKey(event.wf, event.index) && !r.command.Extract?
    ensures event.StepPass? ==> r.command.Extract? && r.key.DocumentKey?
  {
  }

  lemma StartableGrows(w: World, event: Event)
    ensures forall wf :: wf in w.startable ==> wf in Next(w, event).startable
  {
    hide Exec, After, RequestOf, AttemptResult;
  }

  lemma {:induction false} EveryRunIsAttachedOk(events: seq<Event>)
    ensures BaseOk(RunWorld(events)) && AttachedOk(RunWorld(events))
  {
    hide BaseOk, Next;
    EveryRunIsBaseOk(events);
    if events != [] {
      EveryRunIsAttachedOk(events[..|events| - 1]);
      NextKeepsAttached(RunWorld(events[..|events| - 1]), events[|events| - 1]);
    }
  }

  /** Single writer: while an execution is attached to a case, no event but an attempt of that very
      execution changes the case's row: no client, no other execution, no extraction, no signal. */
  lemma OnlyItsExecutionMovesACase(events: seq<Event>, event: Event, app: AppId)
    requires app in RunWorld(events).store.cases && RunWorld(events).store.cases[app].row.workflow.Some?
    requires event.Attempt? ==> Some(event.wf) != RunWorld(events).store.cases[app].row.workflow
    ensures app in RunWorld(events + [event]).store.cases
    ensures RunWorld(events + [event]).store.cases[app].row == RunWorld(events).store.cases[app].row
  {
    hide BaseOk, Next, TriedBy, StoreOk, AllCoupled, Coupled;
    var w := RunWorld(events);
    assert (events + [event])[..|events|] == events;
    EveryRunIsAttachedOk(events);
    var wf := w.store.cases[app].row.workflow.value;
    assert wf in w.startable;
    BaseParts(w);
    KnownCases(w, wf);
    CoupledOf(w.store, app);
    assert wf.app == app by { AttachedIsOwn(w.store.cases[app]); HistoriesNamed(w.store, app); }
    NextTries(w, event);
    if TriedBy(w, event).Some? {
      TriedKeeps(w, event, TriedBy(w, event).value, wf);
    }
  }

  lemma AttachedIsOwn(c: Case)
    requires Coupled(c) && c.row.workflow.Some?
    ensures c.row.workflow.value.app == c.row.app && c.row.workflow.value.tenant == c.row.tenant
  {
  }

  lemma HistoriesNamed(s: Store, app: AppId)
    requires StoreOk(s) && app in s.cases
    ensures s.cases[app].row.app == app
  {
    hide HistoryOk, OutboxOk, AuditOk;
  }

  /** What a transaction that is not an attempt of `wf` leaves of what `wf` depends on. */
  lemma TriedKeeps(w: World, event: Event, r: Request, wf: WorkflowId)
    requires BaseOk(w) && CaseKnown(w.store, wf) && TriedBy(w, event) == Some(r)
    requires event.Attempt? ==> event.wf != wf
    ensures SameFor(w.store, After(w.store, r), wf)
  {
    hide BaseOk, StoreOk, AllCoupled, Coupled, After, Exec, SameFor, RequestOf, ExecFits;
    BaseParts(w);
    AttemptIsNoSubmission(w, event, r);
    if event.Attempt? {
      FitOf(w, event.wf);
      AttemptKeepsOther(w.store, event.wf, w.execs[event.wf], event.index, event.inputs, wf);
    } else {
      OutsideCommandKeeps(w.store, r, wf);
    }
  }

  // ---- Lost acknowledgements --------------------------------------------------------------------

  /** What a committed activity returned: the case's status and version at that moment, which are in
      the case's history for good, and still current while the execution owns the case and is waiting
      for the acknowledgement. */
  ghost predicate ResultOk(w: World, wf: WorkflowId, index: nat)
    requires wf in w.execs && index < |w.execs[wf].scheduled| && CaseKnown(w.store, wf)
  {
    var e, c := w.execs[wf], w.store.cases[wf.app];
    && (wf, index) in w.results
    && (!e.scheduled[index].VerifyFacts? ==>
          && var result := w.results[(wf, index)];
          && result.Reply? && result.version in c.snapshots
          && c.snapshots[result.version].status == result.status
          && MovesOn(e.scheduled[index], result.status)
          && (Owns(w.store, wf) && index == |e.scheduled| - 1 ==> result == Reply(c.row.status, c.row.version)))
  }

  ghost predicate ResultsOk(w: World)
  {
    forall wf, index: nat :: wf in w.execs && index < |w.execs[wf].scheduled| && CaseKnown(w.store, wf)
      && !w.execs[wf].scheduled[index].ExtractFacts? && Committed(w.store, wf, w.execs[wf], index)
      ==> ResultOk(w, wf, index)
  }

  /** Executions are only added, and only schedule more. */
  lemma ExecsGrow(w: World, event: Event)
    ensures forall wf :: wf in w.execs ==>
              wf in Next(w, event).execs && w.execs[wf].scheduled <= Next(w, event).execs[wf].scheduled
  {
    hide Exec, After, RequestOf, AttemptResult;
  }

  /** Results are recorded once, by the attempt that committed. */
  lemma ResultsGrow(w: World, event: Event)
    ensures forall p :: p in Next(w, event).results ==>
              (p in w.results && Next(w, event).results[p] == w.results[p])
              || (event.Attempt? && p == (event.wf, event.index))
    ensures forall p :: p in w.results ==> p in Next(w, event).results
    ensures event.Attempt? && TriedBy(w, event).Some? && Exec(w.store, TriedBy(w, event).value).Ok? ==>
              (event.wf, event.index) in Next(w, event).results
              && Next(w, event).results[(event.wf, event.index)] == Exec(w.store, TriedBy(w, event).value).value.reply
    ensures event.Attempt? && TriedBy(w, event).Some? && Exec(w.store, TriedBy(w, event).value).Err? ==>
              Next(w, event).results == w.results
  {
    hide Exec, After, RequestOf;
  }

  lemma CommittedBefore(w: World, wf: WorkflowId, index: nat, a: Activity)
    requires KeysOwned(w) && KeyAt(wf, index, a) in w.store.keys
    ensures wf in w.execs && index < |w.execs[wf].scheduled|
  {
    assert KeyOwned(w.execs, KeyAt(wf, index, a));
  }

  lemma KeyBefore(w: World, event: Event, wf: WorkflowId, index: nat, a: Activity)
    requires BaseOk(w) && KeyAt(wf, index, a) in Next(w, event).store.keys
    requires event.Attempt? ==> (event.wf, event.index) != (wf, index)
    ensures KeyAt(wf, index, a) in w.store.keys
  {
    hide BaseOk, Next, After, Exec;
    BaseParts(w);
    hide StoreOk, AllCoupled, KeysOwned, ExecsFit;
    NextTries(w, event);
    if TriedBy(w, event).Some? {
      KeysAfter(w.store, TriedBy(w, event).value);
      AttemptIsNoSubmission(w, event, TriedBy(w, event).value);
    }
  }

  /** The case of an outstanding, committed activity stands still, whatever happens. */
  lemma OutstandingStandsStill(w: World, event: Event, wf: WorkflowId, index: nat)
    requires BaseOk(w) && wf in w.execs && index < |w.execs[wf].scheduled|
    requires !w.execs[wf].scheduled[index].ExtractFacts? && Committed(w.store, wf, w.execs[wf], index)
    requires index == |w.execs[wf].scheduled| - 1 && Owns(Next(w, event).store, wf)
    ensures CaseKnown(w.store, wf) && Owns(w.store, wf)
    ensures wf.app in Next(w, event).store.cases && Next(w, event).store.cases[wf.app].row == w.store.cases[wf.app].row
  {
    hide BaseOk, Next, After, Exec, TriedBy, RequestOf, ExecFits, Committed, SameFor;
    var e := w.execs[wf];
    FitOf(w, wf);
    KnownCases(w, wf);
    hide StoreOk, AllCoupled, KeysOwned, ExecsFit;
    NextTries(w, event);
    if TriedBy(w, event).Some? {
      var r := TriedBy(w, event).value;
      if event.Attempt? && event.wf == wf {
        AttemptTried(w, event, r);
        AllCommitted(w.store, wf, e, event.index);
        RequestKey(w.store, wf, event.index, e.scheduled[event.index], event.inputs);
        TakenKeyChangesNothing(w.store, r);
      } else {
        TriedKeeps(w, event, r, wf);
        SameForOwner(w.store, After(w.store, r), wf);
      }
    }
  }

  lemma SameForOwner(s: Store, after: Store, wf: WorkflowId)
    requires SameFor(s, after, wf) && Owns(after, wf)
    ensures Owns(s, wf) && wf.app in after.cases && after.cases[wf.app].row == s.cases[wf.app].row
  {
    hide KeyAt;
  }

  lemma AllCommitted(s: Store, wf: WorkflowId, e: Execution, index: nat)
    requires ExecFits(s, wf, e) && Committed(s, wf, e, |e.scheduled| - 1)
    requires index < |e.scheduled| && !e.scheduled[index].ExtractFacts?
    ensures KeyAt(wf, index, e.scheduled[index]) in s.keys
  {
    hide KeyAt;
    if index < |e.scheduled| - 1 {
      assert Committed(s, wf, e, index);
    }
  }

  lemma AttemptTried(w: World, event: Event, r: Request)
    requires event.Attempt? && TriedBy(w, event) == Some(r)
    ensures event.wf in w.execs && event.index < |w.execs[event.wf].scheduled|
    ensures !w.execs[event.wf].scheduled[event.index].ExtractFacts?
    ensures r == RequestOf(w.store, event.wf, event.index, w.execs[event.wf].scheduled[event.index], event.inputs)
  {
  }

  /** The attempt that commits records the state it left. */
  lemma CommitRecords(w: World, event: Event)
    requires BaseOk(w) && event.Attempt? && TriedBy(w, event).Some? && Exec(w.store, TriedBy(w, event).value).Ok?
    ensures event.wf in Next(w, event).execs && event.index < |Next(w, event).execs[event.wf].scheduled|
    ensures CaseKnown(Next(w, event).store, event.wf)
    ensures ResultOk(Next(w, event), event.wf, event.index)
  {
    hide BaseOk, Next, After, Exec, TriedBy, RequestOf, ExecFits, MovesOn, KeyAt, AttemptTells;
    var r := TriedBy(w, event).value;
    AttemptTried(w, event, r);
    NextTries(w, event);
    ExecsGrow(w, event);
    ResultsGrow(w, event);
    var wf, index := event.wf, event.index;
    var e := w.execs[wf];
    var a := e.scheduled[index];
    FitOf(w, wf);
    KnownCases(w, wf);
    NextKeepsBase(w, event);
    FitOf(Next(w, event), wf);
    KnownCases(Next(w, event), wf);
    if Committed(w.store, wf, e, index) {
      RequestKey(w.store, wf, index, a, event.inputs);
      TakenKeyChangesNothing(w.store, r);
      assert false;
    }
    SettledAttempt(w.store, wf, e, index);
    AttemptIsFit(w.store, wf, index, a, event.inputs);
    hide KeysOwned, ExecsFit, AllCoupled;
    if !a.VerifyFacts? {
      TellsStatus(w.store, Next(w, event).store, wf, index, a);
      LastSnapshot(Next(w, event).store, wf.app);
    }
  }

  lemma TellsStatus(s: Store, after: Store, wf: WorkflowId, index: nat, a: Activity)
    requires AttemptTells(s, after, wf, index, a)
    ensures wf.app in after.cases && MovesOn(a, after.cases[wf.app].row.status)
  {
  }

  lemma LastSnapshot(s: Store, app: AppId)
    requires StoreOk(s) && app in s.cases
    ensures var c := s.cases[app]; c.row.version in c.snapshots && c.snapshots[c.row.version].status == c.row.status
  {
    hide OutboxOk, AuditOk;
    assert HistoryOk(s.cases[app]);
  }

  lemma SnapshotsKept(w: World, event: Event, app: AppId)
    requires BaseOk(w) && app in w.store.cases
    ensures app in Next(w, event).store.cases
    ensures CaseGrows(w.store.cases[app], Next(w, event).store.cases[app])
  {
    hide BaseOk, Next, TriedBy, After, CaseGrows;
    BaseParts(w);
    hide AllCoupled, KeysOwned, ExecsFit, OutboxOk, AuditOk, HistoryOk;
    NextTries(w, event);
    if TriedBy(w, event).Some? {
      ExecOnlyAdds(w.store, TriedBy(w, event).value);
    } else {
      CaseGrowsReflexive(w.store.cases[app]);
    }
  }

  lemma CaseGrowsReflexive(c: Case)
    ensures CaseGrows(c, c)
  {
  }

  lemma ResultKept(w: World, event: Event, wf: WorkflowId, index: nat)
    requires BaseOk(w) && ResultsOk(w)
    requires wf in w.execs && index < |w.execs[wf].scheduled| && !w.execs[wf].scheduled[index].ExtractFacts?
    requires Committed(w.store, wf, w.execs[wf], index)
    requires event.Attempt? && (event.wf, event.index) == (wf, index) ==>
               TriedBy(w, event).Some? && Exec(w.store, TriedBy(w, event).value).Err?
    ensures wf in Next(w, event).execs && index < |Next(w, event).execs[wf].scheduled|
    ensures CaseKnown(Next(w, event).store, wf)
    ensures ResultOk(Next(w, event), wf, index)
  {
    hide BaseOk, Next, After, Exec, TriedBy, ExecFits, MovesOn, KeyAt;
    BaseParts(w);
    KnownCases(w, wf);
    assert ResultOk(w, wf, index);
    ExecsGrow(w, event);
    ResultsGrow(w, event);
    SnapshotsKept(w, event, wf.app);
    NextKeepsBase(w, event);
    BaseParts(Next(w, event));
    KnownCases(Next(w, event), wf);
    hide StoreOk, AllCoupled, KeysOwned, ExecsFit, ResultsOk;
    if Owns(Next(w, event).store, wf) && index == |Next(w, event).execs[wf].scheduled| - 1 {
      OutstandingStandsStill(w, event, wf, index);
    }
  }

  lemma NextKeepsResults(w: World, event: Event)
    requires BaseOk(w) && ResultsOk(w)
    ensures ResultsOk(Next(w, event))
  {
    hide BaseOk, Next, After, Exec, TriedBy, ExecFits, KeyAt, ResultOk, CaseKnown;
    var next := Next(w, event);
    BaseParts(w);
    hide StoreOk, AllCoupled, ExecsFit;
    forall wf, index: nat | wf in next.execs && index < |next.execs[wf].scheduled| && CaseKnown(next.store, wf)
                       && !next.execs[wf].scheduled[index].ExtractFacts? && Committed(next.store, wf, next.execs[wf], index)
      ensures ResultOk(next, wf, index)
    {
      var a := next.execs[wf].scheduled[index];
      if event.Attempt? && (event.wf, event.index) == (wf, index) && TriedBy(w, event).Some?
         && Exec(w.store, TriedBy(w, event).value).Ok? {
        CommitRecords(w, event);
      } else {
        if event.Attempt? && (event.wf, event.index) == (wf, index) {
          UntriedKeepsKeys(w, event);
        } else {
          KeyBefore(w, event, wf, index, a);
        }
        hide ResultsOk;
        CommittedBefore(w, wf, index, a);
        ExecsGrow(w, event);
        TriedIfCommitted(w, event, wf, index);
        ResultKept(w, event, wf, index);
      }
    }
  }

  lemma UntriedKeepsKeys(w: World, event: Event)
    requires TriedBy(w, event).Some? ==> Exec(w.store, TriedBy(w, event).value).Err?
    ensures Next(w, event).store == w.store
  {
    hide Next, TriedBy, Exec;
    NextTries(w, event);
  }

  lemma TriedIfCommitted(w: World, event: Event, wf: WorkflowId, index: nat)
    requires wf in w.execs && index < |w.execs[wf].scheduled| && !w.execs[wf].scheduled[index].ExtractFacts?
    ensures event.Attempt? && (event.wf, event.index) == (wf, index) ==> TriedBy(w, event).Some?
  {
  }

  lemma {:induction false} EveryRunIsResultsOk(events: seq<Event>)
    ensures BaseOk(RunWorld(events)) && ResultsOk(RunWorld(events))
  {
    hide BaseOk, Next;
    EveryRunIsBaseOk(events);
    if events != [] {
      EveryRunIsResultsOk(events[..|events| - 1]);
      hide ResultsOk;
      NextKeepsResults(RunWorld(events[..|events| - 1]), events[|events| - 1]);
    }
  }

  /** The recorded result of an outstanding, committed activity other than a decision is the state its case
      is in. */
  lemma OutstandingResult(w: World, wf: WorkflowId, e: Execution, index: nat)
    requires BaseOk(w) && ResultsOk(w) && wf in w.execs && e == w.execs[wf] && e.phase.Running?
    requires |e.scheduled| == index + 1 && (e.Last().ValidateIntake? || e.Last().CheckDocuments? || e.Last().EscalateForReview?)
    requires Committed(w.store, wf, e, index)
    ensures CaseKnown(w.store, wf) && wf.app in w.store.cases && (wf, index) in w.results
    ensures w.results[(wf, index)] == Reply(w.store.cases[wf.app].row.status, w.store.cases[wf.app].row.version)
  {
    hide BaseOk, ResultsOk, KeyAt, Committed, MovesOn, ExecFits, StoreOk, AllCoupled, KeysOwned, ExecsFit, Owns, CaseKnown;
    FitOf(w, wf);
    KnownCases(w, wf);
    KnownRow(w.store, wf);
    ResultOf(w, wf, index);
    OwnsUnlessDecided(w.store, wf, e);
  }

  lemma ResultOf(w: World, wf: WorkflowId, index: nat)
    requires ResultsOk(w) && wf in w.execs && index < |w.execs[wf].scheduled| && CaseKnown(w.store, wf)
    requires !w.execs[wf].scheduled[index].ExtractFacts? && Committed(w.store, wf, w.execs[wf], index)
    ensures ResultOk(w, wf, index)
  {
    hide Committed, ResultOk;
  }

  lemma OwnsUnlessDecided(s: Store, wf: WorkflowId, e: Execution)
    requires ExecFits(s, wf, e) && !e.Last().ApplyDecision?
    ensures Owns(s, wf)
  {
    hide KeyAt;
  }

  /** A lost acknowledgement costs nothing: whatever happened since, a retry of an outstanding intake,
      document-check or enter-review activity whose first attempt committed writes nothing and reports
      exactly the result that was lost. */
  lemma RetryReportsLostResult(events: seq<Event>, wf: WorkflowId, inputs: Inputs)
    requires wf in RunWorld(events).execs && RunWorld(events).execs[wf].phase.Running?
    requires RunWorld(events).execs[wf].scheduled != []
    requires var a := RunWorld(events).execs[wf].Last(); a.ValidateIntake? || a.CheckDocuments? || a.EscalateForReview?
    requires Committed(RunWorld(events).store, wf, RunWorld(events).execs[wf], |RunWorld(events).execs[wf].scheduled| - 1)
    ensures var w := RunWorld(events);
            var index := |w.execs[wf].scheduled| - 1;
            var r := RequestOf(w.store, wf, index, w.execs[wf].Last(), inputs);
            && After(w.store, r) == w.store
            && (wf, index) in w.results && AttemptResult(w.store, wf, r) == Some(w.results[(wf, index)])
  {
    hide BaseOk, After, Exec, RequestOf, AttemptResult, KeyAt, RunWorld, ResultsOk, CaseKnown;
    var w := RunWorld(events);
    EveryRunIsResultsOk(events);
    OutstandingResult(w, wf, w.execs[wf], |w.execs[wf].scheduled| - 1);
    DuplicateAttempt(w.store, wf, |w.execs[wf].scheduled| - 1, w.execs[wf].Last(), inputs);
  }

  lemma DecisionRecorded(w: World, wf: WorkflowId, index: nat)
    requires wf in w.execs && index < |w.execs[wf].scheduled| && CaseKnown(w.store, wf) && ResultOk(w, wf, index)
    requires w.execs[wf].scheduled[index].ApplyDecision?
    ensures (wf, index) in w.results && w.results[(wf, index)].Reply?
    ensures var result, c := w.results[(wf, index)], w.store.cases[wf.app];
            && result.status == w.execs[wf].scheduled[index].signal.decision && IsReviewOutcome(result.status)
            && result.version in c.snapshots && c.snapshots[result.version].status == result.status
  {
  }

  /** What is left of a committed decision, and what its retry reports. */
  lemma DecisionAnswers(w: World, wf: WorkflowId, e: Execution, index: nat, r: Request, inputs: Inputs)
    requires BaseOk(w) && ResultsOk(w) && wf in w.execs && e == w.execs[wf]
    requires |e.scheduled| == index + 1 && e.Last().ApplyDecision? && Committed(w.store, wf, e, index)
    requires r == RequestOf(w.store, wf, index, e.Last(), inputs)
    ensures After(w.store, r) == w.store && wf.app in w.store.cases
    ensures (wf, index) in w.results && w.results[(wf, index)].Reply?
    ensures AttemptResult(w.store, wf, r) == Some(w.results[(wf, index)])
            <==> w.results[(wf, index)].version == w.store.cases[wf.app].row.version
  {
    hide BaseOk, ResultsOk, After, Exec, RequestOf, AttemptResult, KeyAt, Committed, ResultOk, ExecFits, MovesOn, StoreOk,
      AllCoupled, KeysOwned, ExecsFit, CaseKnown;
    FitOf(w, wf);
    KnownCases(w, wf);
    KnownRow(w.store, wf);
    ResultOf(w, wf, index);
    LastSnapshot(w.store, wf.app);
    DecisionRecorded(w, wf, index);
    CommittedKey(w.store, wf, e, index);
    DuplicateAttempt(w.store, wf, index, e.Last(), inputs);
  }

  /** A decision's acknowledgement is another matter: by the time it is retried the case may have been
      resubmitted. The retry reports the lost result if and only if the case has not moved since. */
  lemma LateDecisionRetry(events: seq<Event>, wf: WorkflowId, inputs: Inputs)
    requires wf in RunWorld(events).execs && RunWorld(events).execs[wf].phase.Running?
    requires RunWorld(events).execs[wf].scheduled != [] && RunWorld(events).execs[wf].Last().ApplyDecision?
    requires Committed(RunWorld(events).store, wf, RunWorld(events).execs[wf], |RunWorld(events).execs[wf].scheduled| - 1)
    ensures var w := RunWorld(events);
            var index := |w.execs[wf].scheduled| - 1;
            var r := RequestOf(w.store, wf, index, w.execs[wf].Last(), inputs);
            && After(w.store, r) == w.store
            && wf.app in w.store.cases
            && (wf, index) in w.results && w.results[(wf, index)].Reply?
            && (AttemptResult(w.store, wf, r) == Some(w.results[(wf, index)]) <==>
                  w.results[(wf, index)].version == w.store.cases[wf.app].row.version)
  {
    hide BaseOk, ResultsOk, After, Exec, RequestOf, AttemptResult, Committed, RunWorld;
    var w := RunWorld(events);
    var e := w.execs[wf];
    var index := |e.scheduled| - 1;
    EveryRunIsResultsOk(events);
    DecisionAnswers(w, wf, e, index, RequestOf(w.store, wf, index, e.Last(), inputs), inputs);
  }

  lemma KnownRow(s: Store, wf: WorkflowId)
    requires CaseKnown(s, wf)
    ensures wf.app in s.cases && s.cases[wf.app].row.tenant == wf.tenant
  {
  }

  lemma CommittedKey(s: Store, wf: WorkflowId, e: Execution, index: nat)
    requires index < |e.scheduled| && Committed(s, wf, e, index)
    ensures KeyAt(wf, index, e.scheduled[index]) in s.keys
  {
  }

  // ---- Progress ---------------------------------------------------------------------------------

  /** Whatever attempts run late or twice, none of them attempts an illegal
      transition, misses its case or its queue entry, or loses a race: an attempt is refused only
      because its activity has committed already, or for a reason outside the protocol. */
  lemma NoAttemptIsIllegal(events: seq<Event>, wf: WorkflowId, index: nat, inputs: Inputs)
    requires wf in RunWorld(events).execs && index < |RunWorld(events).execs[wf].scheduled|
    requires !RunWorld(events).execs[wf].scheduled[index].ExtractFacts?
    ensures var w := RunWorld(events);
            var a := w.execs[wf].scheduled[index];
            match Exec(w.store, RequestOf(w.store, wf, index, a, inputs))
            case Err(e) => (e == DuplicateRequest && Committed(w.store, wf, w.execs[wf], index))
                           || Excused(e, a, QueueOf(w.store, wf.app))
            case Ok(_) => true
  {
    hide BaseOk, Next, RequestOf, Exec, ExecFits, KeyAt, RunWorld;
    var w := RunWorld(events);
    var e := w.execs[wf];
    EveryRunIsBaseOk(events);
    FitOf(w, wf);
    KnownCases(w, wf);
    hide KeysOwned, ExecsFit;
    if Committed(w.store, wf, e, index) {
      TakenKeyIsDuplicate(w.store, wf, index, e.scheduled[index], inputs);
    } else {
      SettledAttempt(w.store, wf, e, index);
      AttemptIsFit(w.store, wf, index, e.scheduled[index], inputs);
    }
  }

  lemma TakenKeyIsDuplicate(s: Store, wf: WorkflowId, index: nat, a: Activity, inputs: Inputs)
    requires !a.ExtractFacts? && KeyAt(wf, index, a) in s.keys
    ensures Exec(s, RequestOf(s, wf, index, a, inputs)) ==
            Err(if a.ApplyDecision? && !IsReviewOutcome(a.signal.decision) then InvalidApplicationData else DuplicateRequest)
  {
    hide Plan, Load;
    RequestKey(s, wf, index, a, inputs);
    RequestFacts(s, wf, index, a, inputs);
    hide KeyOf, KeyAt;
  }

  /** What an outstanding activity needs from outside to commit. */
  predicate CanCommit(s: Store, app: AppId, a: Activity, inputs: Inputs)
  {
    match a
    case ValidateIntake => inputs.catalog.Some?
    case CheckDocuments => CountedDocuments(s, app, inputs.counted) >= 1 || QueueOf(s, app).None?
    case ExtractFacts => false
    case VerifyFacts => true
    case EscalateForReview(_) => QueueOf(s, app).None?
    case ApplyDecision(signal) => IsReviewOutcome(signal.decision)
  }

  lemma MoveCommitsIff(s: Store, r: Request, a: Activity)
    requires MovesCase(r.command) && AttemptOf(a, r.command)
    requires r.app in s.cases && s.cases[r.app].row.tenant == r.tenant
    requires HistoryOk(s.cases[r.app]) && Coupled(s.cases[r.app]) && LogOf(s, r.tenant).checkpoint.Some?
    requires KeyOf(r) !in s.keys
    requires StatusFits(a, false, s.cases[r.app].row.status)
    ensures Exec(s, r).Ok? <==>
            && (r.command.AdvanceIntake? ==> r.command.catalog.Some?)
            && (r.command.Decide? ==> IsReviewOutcome(r.command.decision))
            && (ShapeOf(r.command).enqueues && !a.ValidateIntake? ==> s.cases[r.app].queue.None?)
  {
    hide HistoryOk, KeyOf, ScriptOf, LastTarget, Exec, MovesTo;
    MoveExact(s, r);
    ScriptShape(r.command);
    FittingIsLegal(a, s.cases[r.app].row.status, r.command);
    hide IsLegal, ShapeOf;
  }

  lemma RequestCanCommit(s: Store, wf: WorkflowId, index: nat, a: Activity, inputs: Inputs)
    requires !a.ExtractFacts? && !a.VerifyFacts? && wf.app in s.cases
    ensures var c := RequestOf(s, wf, index, a, inputs).command;
            MovesCase(c) && (CanCommit(s, wf.app, a, inputs) <==>
              && (c.AdvanceIntake? ==> c.catalog.Some?)
              && (c.Decide? ==> IsReviewOutcome(c.decision))
              && (ShapeOf(c).enqueues && !a.ValidateIntake? ==> s.cases[wf.app].queue.None?))
  {
  }

  lemma FitCommitsIff(s: Store, wf: WorkflowId, index: nat, a: Activity, inputs: Inputs)
    requires StoreOk(s) && AllCoupled(s) && CaseKnown(s, wf) && !a.ExtractFacts?
    requires KeyAt(wf, index, a) !in s.keys
    requires StatusFits(a, false, s.cases[wf.app].row.status)
    ensures Exec(s, RequestOf(s, wf, index, a, inputs)).Ok? <==> CanCommit(s, wf.app, a, inputs)
  {
    CaseFacts(s, wf);
    RequestKey(s, wf, index, a, inputs);
    RequestFacts(s, wf, index, a, inputs);
    hide StoreOk, AllCoupled, HistoryOk, Coupled, Exec, RequestOf, KeyOf, KeyAt, StatusFits;
    var r := RequestOf(s, wf, index, a, inputs);
    if a.VerifyFacts? {
      QuietExact(s, r);
    } else {
      hide CanCommit, IsReviewOutcome;
      MoveCommitsIff(s, r, a);
      RequestCanCommit(s, wf, index, a, inputs);
    }
  }

  /** An outstanding activity that has not committed yet commits at its next attempt if and only if the
      world outside allows it: the product is still in the catalog, the signalled decision is an
      outcome, and, where it escalates, the case has no queue entry. */
  lemma OutstandingCommitsIff(events: seq<Event>, wf: WorkflowId, inputs: Inputs)
    requires wf in RunWorld(events).execs && RunWorld(events).execs[wf].phase.Running?
    requires RunWorld(events).execs[wf].scheduled != [] && !RunWorld(events).execs[wf].Last().ExtractFacts?
    requires !Committed(RunWorld(events).store, wf, RunWorld(events).execs[wf], |RunWorld(events).execs[wf].scheduled| - 1)
    ensures var w := RunWorld(events);
            var e := w.execs[wf];
            Exec(w.store, RequestOf(w.store, wf, |e.scheduled| - 1, e.Last(), inputs)).Ok?
            <==> CanCommit(w.store, wf.app, e.Last(), inputs)
  {
    hide BaseOk, RequestOf, Exec, RunWorld, CanCommit, Committed;
    EveryRunIsBaseOk(events);
    var w := RunWorld(events);
    LastCommitsIff(w, wf, w.execs[wf], |w.execs[wf].scheduled| - 1, inputs);
  }

  lemma LastCommitsIff(w: World, wf: WorkflowId, e: Execution, index: nat, inputs: Inputs)
    requires BaseOk(w) && wf in w.execs && e == w.execs[wf] && |e.scheduled| == index + 1
    requires !e.Last().ExtractFacts? && !Committed(w.store, wf, e, index)
    ensures Exec(w.store, RequestOf(w.store, wf, index, e.Last(), inputs)).Ok? <==> CanCommit(w.store, wf.app, e.Last(), inputs)
  {
    hide BaseOk, RequestOf, Exec, ExecFits, KeyAt, CanCommit, Committed, StoreOk, AllCoupled, KeysOwned, ExecsFit, CaseKnown, StatusFits;
    FreeKey(w.store, wf, e, index);
    FitOf(w, wf);
    KnownCases(w, wf);
    KnownRow(w.store, wf);
    SettledAttempt(w.store, wf, e, index);
    FitCommitsIff(w.store, wf, index, e.Last(), inputs);
  }

  lemma FreeKey(s: Store, wf: WorkflowId, e: Execution, index: nat)
    requires index < |e.scheduled| && !Committed(s, wf, e, index)
    ensures KeyAt(wf, index, e.scheduled[index]) !in s.keys
  {
  }

  lemma DuplicateResult(w: World, wf: WorkflowId, inputs: Inputs)
    requires BaseOk(w) && ResultsOk(w) && wf in w.execs && w.execs[wf].scheduled != []
    requires !w.execs[wf].Last().ExtractFacts? && Committed(w.store, wf, w.execs[wf], |w.execs[wf].scheduled| - 1)
    ensures var e := w.execs[wf];
            AttemptResult(w.store, wf, RequestOf(w.store, wf, |e.scheduled| - 1, e.Last(), inputs)).Some?
  {
    hide BaseOk, RequestOf, AttemptResult, KeyAt, ResultOk, MovesOn;
    var e := w.execs[wf];
    var index := |e.scheduled| - 1;
    KnownCases(w, wf) by { BaseParts(w); }
    assert ResultOk(w, wf, index);
    hide ResultsOk;
    if e.Last().ApplyDecision? {
      DecisionRecorded(w, wf, index);
    }
    DuplicateAttempt(w.store, wf, index, e.Last(), inputs);
  }

  lemma FreshResult(s: Store, wf: WorkflowId, index: nat, a: Activity, inputs: Inputs)
    requires !a.ExtractFacts? && KeyAt(wf, index, a) !in s.keys
    ensures var r := RequestOf(s, wf, index, a, inputs);
            AttemptResult(s, wf, r).Some? <==> Exec(s, r).Ok?
  {
    hide RequestOf, KeyOf, KeyAt, Exec;
    RequestKey(s, wf, index, a, inputs);
    FreshIsNoDuplicate(s, RequestOf(s, wf, index, a, inputs));
  }

  lemma FreshIsNoDuplicate(s: Store, r: Request)
    requires KeyOf(r) !in s.keys
    ensures Exec(s, r) != Err(DuplicateRequest)
  {
    hide ScriptOf, KeyOf, IsLegal, Conflicts, Apply;
  }

  lemma UncommittedFits(w: World, wf: WorkflowId, e: Execution, index: nat)
    requires wf in w.execs && e == w.execs[wf] && e.scheduled != [] && !e.Last().ExtractFacts? && index == |e.scheduled| - 1
    requires KeyAt(wf, index, e.Last()) !in w.store.keys
    requires BaseOk(w)
    ensures StoreOk(w.store) && AllCoupled(w.store) && CaseKnown(w.store, wf)
    ensures StatusFits(e.Last(), false, w.store.cases[wf.app].row.status)
  {
    hide BaseOk, StoreOk, AllCoupled, ExecFits, KeyAt, StatusFits;
    FitOf(w, wf);
    KnownCases(w, wf);
    hide KeysOwned, ExecsFit;
    SettledAttempt(w.store, wf, e, index);
  }

  lemma ResultIff(w: World, wf: WorkflowId, e: Execution, inputs: Inputs, r: Request, taken: bool)
    requires wf in w.execs && e == w.execs[wf] && e.scheduled != [] && !e.Last().ExtractFacts?
    requires taken == (KeyAt(wf, |e.scheduled| - 1, e.Last()) in w.store.keys)
    requires r == RequestOf(w.store, wf, |e.scheduled| - 1, e.Last(), inputs)
    requires BaseOk(w) && ResultsOk(w)
    ensures AttemptResult(w.store, wf, r).Some? <==> taken || CanCommit(w.store, wf.app, e.Last(), inputs)
  {
    hide BaseOk, ResultsOk, RequestOf, Exec, KeyAt, CanCommit, AttemptResult, StoreOk, AllCoupled, StatusFits;
    if taken {
      DuplicateResult(w, wf, inputs);
    } else {
      UncommittedFits(w, wf, e, |e.scheduled| - 1);
      FitCommitsIff(w.store, wf, |e.scheduled| - 1, e.Last(), inputs);
      FreshResult(w.store, wf, |e.scheduled| - 1, e.Last(), inputs);
    }
  }

  /** The execution goes on to its next activity, to the wait or to its end, on the status the case now
      has, if and only if its outstanding activity had committed or could commit. */
  ghost predicate AdvancesIff(w: World, wf: WorkflowId, e: Execution, inputs: Inputs, next: World)
    requires e.scheduled != []
  {
    && wf in next.execs && wf.app in next.store.cases
    && (next.execs[wf] != e <==>
          Committed(w.store, wf, e, |e.scheduled| - 1) || CanCommit(w.store, wf.app, e.Last(), inputs))
    && (next.execs[wf] != e && (Owns(next.store, wf) || e.Last().ApplyDecision?) ==>
          next.execs[wf] == Completed(e, next.store.cases[wf.app].row.status, inputs.summary))
  }

  lemma AckedStep(w: World, wf: WorkflowId, e: Execution, inputs: Inputs, next: World, r: Request)
    requires wf in w.execs && e == w.execs[wf] && e.phase.Running? && e.scheduled != [] && !e.Last().ExtractFacts?
    requires next == AttemptStep(w, wf, |e.scheduled| - 1, inputs, true)
    requires r == RequestOf(w.store, wf, |e.scheduled| - 1, e.Last(), inputs)
    ensures next.store == After(w.store, r) && wf in next.execs
    ensures next.execs[wf] == match AttemptResult(w.store, wf, r)
                              case None => e
                              case Some(reply) => Completed(e, StatusOf(reply), inputs.summary)
  {
    hide Exec, After, RequestOf, AttemptResult, Completed;
  }

  lemma ConcludeAdvance(w: World, wf: WorkflowId, e: Execution, inputs: Inputs, next: World, taken: bool, result: Option<Reply>)
    requires e.scheduled != [] && e.phase.Running? && wf in next.execs && wf.app in next.store.cases
    requires taken == Committed(w.store, wf, e, |e.scheduled| - 1)
    requires result.Some? <==> taken || CanCommit(w.store, wf.app, e.Last(), inputs)
    requires next.execs[wf] == if result.Some? then Completed(e, StatusOf(result.value), inputs.summary) else e
    requires result.Some? && Owns(next.store, wf) && !e.Last().VerifyFacts? ==>
               result.value == Reply(next.store.cases[wf.app].row.status, next.store.cases[wf.app].row.version)
    ensures AdvancesIff(w, wf, e, inputs, next)
  {
    hide Committed, CanCommit, Completed;
    if result.Some? {
      CompletedDiffers(e, StatusOf(result.value), inputs.summary);
      StatusReported(e, result.value, next.store.cases[wf.app].row, inputs.summary);
    }
  }

  lemma AckedAttemptAdvances(w: World, wf: WorkflowId, e: Execution, inputs: Inputs, next: World)
    requires wf in w.execs && e == w.execs[wf] && e.phase.Running? && e.scheduled != [] && !e.Last().ExtractFacts?
    requires next == AttemptStep(w, wf, |e.scheduled| - 1, inputs, true)
    requires BaseOk(w) && ResultsOk(w)
    ensures AdvancesIff(w, wf, e, inputs, next)
  {
    hide BaseOk, ResultsOk, AttemptStep, RequestOf, Exec, After, ExecFits, KeyAt, CanCommit, AttemptResult, Completed, AdvancesIff;
    var r := RequestOf(w.store, wf, |e.scheduled| - 1, e.Last(), inputs);
    var result, taken := AttemptResult(w.store, wf, r), Committed(w.store, wf, e, |e.scheduled| - 1);
    AckedStep(w, wf, e, inputs, next, r);
    ResultIff(w, wf, e, inputs, r, taken);
    FitOf(w, wf);
    KnownCases(w, wf);
    hide KeysOwned, ExecsFit, StoreOk, AllCoupled;
    StillThere(w, wf, r);
    if result.Some? {
      ResultIsCurrent(w.store, wf, e, inputs);
    }
    hide Committed;
    ConcludeAdvance(w, wf, e, inputs, next, taken, result);
  }

  lemma StillThere(w: World, wf: WorkflowId, r: Request)
    requires StoreOk(w.store) && wf.app in w.store.cases
    ensures wf.app in After(w.store, r).cases
  {
    hide StoreOk, HistoriesOk, OutboxOk, AuditOk, After, CaseGrows;
    StoreOkParts(w.store);
    ExecOnlyAdds(w.store, r);
  }

  /** Progress, exactly: what an acknowledged attempt of the outstanding activity does. */
  lemma AckedAttemptAdvancesIff(events: seq<Event>, wf: WorkflowId, inputs: Inputs)
    requires wf in RunWorld(events).execs && RunWorld(events).execs[wf].phase.Running?
    requires RunWorld(events).execs[wf].scheduled != [] && !RunWorld(events).execs[wf].Last().ExtractFacts?
    ensures var w := RunWorld(events);
            var e := w.execs[wf];
            AdvancesIff(w, wf, e, inputs, Next(w, Attempt(wf, |e.scheduled| - 1, inputs, true)))
  {
    hide BaseOk, ResultsOk, RunWorld, AdvancesIff, AttemptStep;
    EveryRunIsResultsOk(events);
    var w := RunWorld(events);
    var e := w.execs[wf];
    AckedAttemptAdvances(w, wf, e, inputs, Next(w, Attempt(wf, |e.scheduled| - 1, inputs, true)));
  }

  lemma CompletedDiffers(e: Execution, status: Status, summary: string)
    requires e.scheduled != [] && e.phase.Running?
    ensures Completed(e, status, summary) != e
  {
  }

  /** A verification's result carries no status, and a decision's is not looked at. */
  lemma StatusReported(e: Execution, result: Reply, row: AppRow, summary: string)
    requires e.scheduled != []
    ensures result == Reply(row.status, row.version) || e.Last().VerifyFacts? || e.Last().ApplyDecision? ==>
              Completed(e, StatusOf(result), summary) == Completed(e, row.status, summary)
  {
  }

  /** The wait for a decision begins, and lasts, in AWAITING_HUMAN_REVIEW with one pending queue entry,
      the workflow still attached. */
  lemma WaitIsInReview(events: seq<Event>, wf: WorkflowId)
    requires wf in RunWorld(events).execs && RunWorld(events).execs[wf].phase.Waiting?
    ensures var s := RunWorld(events).store;
            && wf.app in s.cases && s.cases[wf.app].row.workflow == Some(wf)
            && s.cases[wf.app].row.status == AwaitingHumanReview
            && s.cases[wf.app].queue.Some? && s.cases[wf.app].queue.value.Pending?
  {
    hide BaseOk, Next, RunWorld, KeyAt;
    var w := RunWorld(events);
    EveryRunIsBaseOk(events);
    FitOf(w, wf);
    CoupledOf(w.store, wf.app);
  }

  /** An execution that has finished is detached from its case, and its decision, one of the four
      outcomes, is the status its case took at the version it reported. */
  lemma FinishIsDecided(events: seq<Event>, wf: WorkflowId)
    requires wf in RunWorld(events).execs && RunWorld(events).execs[wf].phase.Finished?
    ensures var w := RunWorld(events);
            var e := w.execs[wf];
            && e.scheduled != [] && e.Last().ApplyDecision?
            && wf.app in w.store.cases && w.store.cases[wf.app].row.workflow != Some(wf)
            && var p := (wf, |e.scheduled| - 1);
            && p in w.results && w.results[p].Reply?
            && var c := w.store.cases[wf.app];
            && w.results[p].version in c.snapshots
            && c.snapshots[w.results[p].version].status == w.results[p].status == e.Last().signal.decision
            && IsReviewOutcome(e.Last().signal.decision)
  {
    hide BaseOk, ResultsOk, RunWorld, IsReviewOutcome;
    EveryRunIsResultsOk(events);
    FinishedDecision(RunWorld(events), wf, RunWorld(events).execs[wf]);
  }

  lemma FinishedDecision(w: World, wf: WorkflowId, e: Execution)
    requires BaseOk(w) && ResultsOk(w) && wf in w.execs && e == w.execs[wf] && e.phase.Finished?
    ensures e.scheduled != [] && e.Last().ApplyDecision? && wf.app in w.store.cases
    ensures w.store.cases[wf.app].row.workflow != Some(wf) && IsReviewOutcome(e.Last().signal.decision)
    ensures var p, c := (wf, |e.scheduled| - 1), w.store.cases[wf.app];
            && p in w.results && w.results[p].Reply? && w.results[p].version in c.snapshots
            && c.snapshots[w.results[p].version].status == w.results[p].status == e.Last().signal.decision
  {
    hide BaseOk, ResultsOk, KeyAt, Committed, ResultOk, ExecFits, MovesOn, StoreOk, AllCoupled, KeysOwned, ExecsFit, CaseKnown,
      IsReviewOutcome;
    FitOf(w, wf);
    KnownCases(w, wf);
    KnownRow(w.store, wf);
    FinishedFits(w.store, wf, e);
    ResultOf(w, wf, |e.scheduled| - 1);
    DecisionRecorded(w, wf, |e.scheduled| - 1);
  }

  lemma FinishedFits(s: Store, wf: WorkflowId, e: Execution)
    requires ExecFits(s, wf, e) && e.phase.Finished?
    ensures e.scheduled != [] && e.Last().ApplyDecision? && Committed(s, wf, e, |e.scheduled| - 1) && !Owns(s, wf)
  {
    hide KeyAt;
  }

  // ---- Who decides ------------------------------------------------------------------------------

  /** A decision somebody signalled to the execution, or the one an expired window stands in for. */
  predicate Authorised(signalled: set<(WorkflowId, Signal)>, wf: WorkflowId, signal: Signal)
  {
    signal == TIMEOUT || (wf, signal) in signalled
  }

  /** The queue entry records exactly what was signalled to an execution of this case. */
  predicate RecordsSignal(c: Case, wf: WorkflowId, signal: Signal)
  {
    && c.queue.Some? && c.queue.value.Decided?
    && wf.app == c.row.app && wf.tenant == c.row.tenant
    && c.queue.value.decision == signal.decision
    && c.queue.value.reason == signal.reason
    && c.queue.value.reviewer == if signal.reviewer == "" then None else Some(signal.reviewer)
  }

  ghost predicate DecisionAuthorised(signalled: set<(WorkflowId, Signal)>, c: Case)
  {
    exists wf, signal :: Authorised(signalled, wf, signal) && RecordsSignal(c, wf, signal)
  }

  predicate ExecAuthorised(signalled: set<(WorkflowId, Signal)>, wf: WorkflowId, e: Execution)
  {
    && (e.decision.Some? ==> (wf, e.decision.value) in signalled)
    && forall i :: 0 <= i < |e.scheduled| && e.scheduled[i].ApplyDecision? ==>
         Authorised(signalled, wf, e.scheduled[i].signal)
  }

  ghost predicate AuthorityOk(w: World)
  {
    && (forall wf :: wf in w.execs ==> ExecAuthorised(w.signalled, wf, w.execs[wf]))
    && (forall app :: app in w.store.cases && w.store.cases[app].queue.Some? && w.store.cases[app].queue.value.Decided?
          ==> DecisionAuthorised(w.signalled, w.store.cases[app]))
  }

  lemma CompletedAuthorised(signalled: set<(WorkflowId, Signal)>, wf: WorkflowId, e: Execution, status: Status, summary: string)
    requires e.scheduled != [] && ExecAuthorised(signalled, wf, e)
    ensures ExecAuthorised(signalled, wf, Completed(e, status, summary))
  {
  }

  lemma AttemptAuthority(w: World, wf: WorkflowId, index: nat, inputs: Inputs, acked: bool)
    requires wf in w.execs && index < |w.execs[wf].scheduled| && !w.execs[wf].scheduled[index].ExtractFacts?
    requires ExecAuthorised(w.signalled, wf, w.execs[wf])
    ensures ExecAuthorised(w.signalled, wf, AttemptStep(w, wf, index, inputs, acked).execs[wf])
  {
    hide Exec, After, RequestOf, AttemptResult, Completed, Authorised;
    var e := w.execs[wf];
    var result := AttemptResult(w.store, wf, RequestOf(w.store, wf, index, e.scheduled[index], inputs));
    if result.Some? {
      CompletedAuthorised(w.signalled, wf, e, StatusOf(result.value), inputs.summary);
    }
  }

  lemma NoExecutionInvolved(w: World, event: Event)
    requires event.Client? || event.BeginPass? || event.StepPass?
    ensures Next(w, event).execs == w.execs && Next(w, event).signalled == w.signalled
  {
    hide Exec, After;
  }

  lemma NextKeepsExecAuthority(w: World, event: Event, wf: WorkflowId)
    requires AuthorityOk(w) && wf in Next(w, event).execs
    ensures ExecAuthorised(Next(w, event).signalled, wf, Next(w, event).execs[wf])
  {
    hide Completed, DecisionAuthorised;
    if event.Attempt? {
      AttemptSchedulesOwn(w, event, wf);
    } else if event.Client? || event.BeginPass? || event.StepPass? {
      NoExecutionInvolved(w, event);
      hide Next;
    } else if wf in w.execs {
      var e := w.execs[wf];
      assert ExecAuthorised(w.signalled, wf, e);
      if event.EndPass? && e.scheduled != [] {
        CompletedAuthorised(w.signalled, wf, e, Verification, "");
      }
      hide AuthorityOk;
    }
  }

  lemma AttemptSchedulesOwn(w: World, event: Event, wf: WorkflowId)
    requires event.Attempt? && wf in Next(w, event).execs
    requires AuthorityOk(w)
    ensures ExecAuthorised(Next(w, event).signalled, wf, Next(w, event).execs[wf])
  {
    hide DecisionAuthorised, Exec, After, RequestOf, AttemptResult, Completed;
    assert wf in w.execs && ExecAuthorised(w.signalled, wf, w.execs[wf]);
    hide ExecAuthorised;
    if wf == event.wf && event.index < |w.execs[wf].scheduled| && !w.execs[wf].scheduled[event.index].ExtractFacts? {
      AttemptAuthority(w, wf, event.index, event.inputs, event.acked);
    }
  }

  /** Queue entries are decided by decisions only. */
  lemma QueueStep(s: Store, r: Request, app: AppId)
    requires StoreOk(s) && app in After(s, r).cases
    requires After(s, r).cases[app].queue.Some? && After(s, r).cases[app].queue.value.Decided?
    ensures var c := After(s, r).cases[app];
            if r.command.Decide? && r.app == app && Exec(s, r).Ok?
            then c.row.tenant == r.tenant && c.row.app == app && c.queue.value.decision == r.command.decision
                 && c.queue.value.reason == r.command.reason && c.queue.value.reviewer == r.command.reviewer
            else app in s.cases && c.queue == s.cases[app].queue && c.row.app == s.cases[app].row.app
                 && c.row.tenant == s.cases[app].row.tenant
  {
    hide StoreOk, HistoryOk, OutboxOk, TenantAuditOk, KeyOf, Prepare, Exec, IsLegal;
    assert HistoriesOk(s) && AuditOk(s) by { StoreOkParts(s); }
    if MovesCase(r.command) {
      MoveExact(s, r);
      hide LastTarget, Hops;
    } else if r.command.Create? {
      CreateExact(s, r);
    } else {
      QuietExact(s, r);
    }
  }

  lemma DecidedKept(w: World, next: World, app: AppId)
    requires AuthorityOk(w) && w.signalled <= next.signalled
    requires app in w.store.cases && app in next.store.cases
    requires next.store.cases[app].queue == w.store.cases[app].queue
    requires next.store.cases[app].row.app == w.store.cases[app].row.app
    requires next.store.cases[app].row.tenant == w.store.cases[app].row.tenant
    requires next.store.cases[app].queue.Some? && next.store.cases[app].queue.value.Decided?
    ensures DecisionAuthorised(next.signalled, next.store.cases[app])
  {
    hide ExecAuthorised;
    assert DecisionAuthorised(w.signalled, w.store.cases[app]);
    var wf, signal :| Authorised(w.signalled, wf, signal) && RecordsSignal(w.store.cases[app], wf, signal);
    assert Authorised(next.signalled, wf, signal) && RecordsSignal(next.store.cases[app], wf, signal);
  }

  lemma SignalledGrows(w: World, event: Event)
    ensures w.signalled <= Next(w, event).signalled
  {
    hide Exec, After, RequestOf, AttemptResult;
  }

  /** A decision reaches the store only as the scheduled activity of an execution. */
  lemma DecisionComesFromExec(w: World, event: Event, r: Request)
    requires TriedBy(w, event) == Some(r) && r.command.Decide?
    ensures event.Attempt? && event.wf in w.execs && event.index < |w.execs[event.wf].scheduled|
    ensures w.execs[event.wf].scheduled[event.index].ApplyDecision?
    ensures r.app == event.wf.app && r.tenant == event.wf.tenant
    ensures var signal := w.execs[event.wf].scheduled[event.index].signal;
            r.command == Decide(signal.decision, signal.reason, ReviewerOf(signal))
  {
  }

  lemma NextKeepsAuthority(w: World, event: Event)
    requires BaseOk(w) && AuthorityOk(w)
    ensures AuthorityOk(Next(w, event))
  {
    hide BaseOk, Next, After, Exec, TriedBy, ExecAuthorised, DecisionAuthorised, AuthorityOk;
    var next := Next(w, event);
    BaseParts(w);
    hide AllCoupled, KeysOwned, ExecsFit, StoreOk;
    SignalledGrows(w, event);
    NextTries(w, event);
    var tried := TriedBy(w, event);
    forall app | app in next.store.cases && next.store.cases[app].queue.Some? && next.store.cases[app].queue.value.Decided?
      ensures DecisionAuthorised(next.signalled, next.store.cases[app])
    {
      if tried.Some? {
        var r := tried.value;
        QueueStep(w.store, r, app);
        if r.command.Decide? && r.app == app && Exec(w.store, r).Ok? {
          DecisionComesFromExec(w, event, r);
          ScheduledIsAuthorised(w, event.wf, event.index);
          SignalRecorded(next.signalled, next.store.cases[app], event.wf, w.execs[event.wf].scheduled[event.index].signal);
        } else {
          DecidedKept(w, next, app);
        }
      } else {
        DecidedKept(w, next, app);
      }
    }
    forall wf | wf in next.execs ensures ExecAuthorised(next.signalled, wf, next.execs[wf]) {
      NextKeepsExecAuthority(w, event, wf);
    }
    AuthorityFromParts(next);
  }

  lemma AuthorityFromParts(w: World)
    requires forall wf :: wf in w.execs ==> ExecAuthorised(w.signalled, wf, w.execs[wf])
    requires forall app :: app in w.store.cases && w.store.cases[app].queue.Some? && w.store.cases[app].queue.value.Decided?
               ==> DecisionAuthorised(w.signalled, w.store.cases[app])
    ensures AuthorityOk(w)
  {
  }

  lemma ScheduledIsAuthorised(w: World, wf: WorkflowId, index: nat)
    requires AuthorityOk(w) && wf in w.execs && index < |w.execs[wf].scheduled|
    requires w.execs[wf].scheduled[index].ApplyDecision?
    ensures Authorised(w.signalled, wf, w.execs[wf].scheduled[index].signal)
  {
    hide DecisionAuthorised;
    assert ExecAuthorised(w.signalled, wf, w.execs[wf]);
  }

  lemma SignalRecorded(signalled: set<(WorkflowId, Signal)>, c: Case, wf: WorkflowId, signal: Signal)
    requires Authorised(signalled, wf, signal) && RecordsSignal(c, wf, signal)
    ensures DecisionAuthorised(signalled, c)
  {
  }

  lemma {:induction false} EveryRunIsAuthorityOk(events: seq<Event>)
    ensures BaseOk(RunWorld(events)) && AuthorityOk(RunWorld(events))
  {
    hide BaseOk, Next;
    EveryRunIsBaseOk(events);
    if events != [] {
      EveryRunIsAuthorityOk(events[..|events| - 1]);
      hide AuthorityOk;
      NextKeepsAuthority(RunWorld(events[..|events| - 1]), events[|events| - 1]);
    }
  }

  lemma {:induction false} ReviewCameBefore(c: Case, version: nat)
    requires HistoryOk(c) && 1 <= version <= c.row.version && IsReviewOutcome(c.snapshots[version].status)
    ensures exists v :: v in c.snapshots && v < version && c.snapshots[v].status == AwaitingHumanReview
  {
    if version > 1 {
      assert version - 1 in c.snapshots;
      OutcomeSource(c.snapshots[version - 1].status, c.snapshots[version].status);
      if c.snapshots[version - 1].status != AwaitingHumanReview {
        ReviewCameBefore(c, version - 1);
        var v :| v in c.snapshots && v < version - 1 && c.snapshots[v].status == AwaitingHumanReview;
        assert v < version;
      }
    }
  }

  lemma OutcomeSource(source: Status, target: Status)
    requires IsLegal(source, target) && IsReviewOutcome(target)
    ensures source == AwaitingHumanReview || IsReviewOutcome(source)
  {
  }

  /** People decide. In every reachable store, a case in a decided status records a decision that was
      signalled to an execution of that case, word for word, after the case had been in
      AWAITING_HUMAN_REVIEW; the one exception is ESCALATED, which an expired review window may also
      record, with its own reason and no reviewer. */
  lemma OutcomesAreSignalled(events: seq<Event>, app: AppId)
    requires app in RunWorld(events).store.cases
    requires var status := RunWorld(events).store.cases[app].row.status;
             status == Approved || status == Declined || status == NeedsMoreInformation || status == Escalated
    ensures var w := RunWorld(events);
            var c := w.store.cases[app];
            && c.queue.Some? && c.queue.value.Decided? && c.queue.value.decision == c.row.status
            && (exists wf, signal :: Authorised(w.signalled, wf, signal) && RecordsSignal(c, wf, signal))
            && (c.row.status != Escalated ==>
                  exists wf, signal :: (wf, signal) in w.signalled && RecordsSignal(c, wf, signal))
            && (exists v :: v in c.snapshots && v < c.row.version && c.snapshots[v].status == AwaitingHumanReview)
  {
    hide BaseOk, RunWorld, AuthorityOk, DecisionAuthorised, HistoryOk, Coupled, IsReviewOutcome;
    var w := RunWorld(events);
    var c := w.store.cases[app];
    EveryRunIsAuthorityOk(events);
    BaseParts(w);
    CoupledOf(w.store, app);
    HistoryOf(w.store, app);
    hide StoreOk, AllCoupled, KeysOwned, ExecsFit;
    OutcomeIsRecorded(c);
    assert DecisionAuthorised(w.signalled, c) by { AuthorityOf(w, app); }
    SignalOf(w.signalled, c);
    assert c.row.version in c.snapshots && c.snapshots[c.row.version].status == c.row.status && 1 <= c.row.version by {
      HistoryEnd(c);
    }
    ReviewCameBefore(c, c.row.version);
  }

  lemma OutcomeIsRecorded(c: Case)
    requires Coupled(c) && IsReviewOutcome(c.row.status)
    ensures c.queue.Some? && c.queue.value.Decided? && c.queue.value.decision == c.row.status
  {
  }

  lemma AuthorityOf(w: World, app: AppId)
    requires AuthorityOk(w) && app in w.store.cases
    requires w.store.cases[app].queue.Some? && w.store.cases[app].queue.value.Decided?
    ensures DecisionAuthorised(w.signalled, w.store.cases[app])
  {
    hide DecisionAuthorised, ExecAuthorised;
  }

  lemma HistoryEnd(c: Case)
    requires HistoryOk(c)
    ensures 1 <= c.row.version && c.row.version in c.snapshots && c.snapshots[c.row.version].status == c.row.status
  {
  }

  lemma SignalOf(signalled: set<(WorkflowId, Signal)>, c: Case)
    requires DecisionAuthorised(signalled, c)
    ensures exists wf, signal :: Authorised(signalled, wf, signal) && RecordsSignal(c, wf, signal)
    ensures c.queue.Some? && c.queue.value.Decided?
    ensures c.queue.value.decision != Escalated ==>
              exists wf, signal :: (wf, signal) in signalled && RecordsSignal(c, wf, signal)
  {
    var wf, signal :| Authorised(signalled, wf, signal) && RecordsSignal(c, wf, signal);
    if c.queue.value.decision != Escalated {
      assert (wf, signal) in signalled;
    }
  }

  lemma HistoryOf(s: Store, app: AppId)
    requires StoreOk(s) && app in s.cases
    ensures HistoryOk(s.cases[app])
  {
    hide OutboxOk, AuditOk, HistoryOk;
  }

  /** Left to the timer alone, a case can only be ESCALATED, with no reviewer named. */
  lemma TimerAloneEscalates(events: seq<Event>, app: AppId)
    requires app in RunWorld(events).store.cases && IsReviewOutcome(RunWorld(events).store.cases[app].row.status)
    requires forall wf, signal :: (wf, signal) in RunWorld(events).signalled ==> wf.app != app
    ensures var c := RunWorld(events).store.cases[app];
            c.row.status == Escalated && c.queue.Some? && c.queue.value.Decided?
            && c.queue.value.reviewer == None && c.queue.value.reason == SLA_TIMEOUT_REASON
  {
    hide RunWorld;
    OutcomesAreSignalled(events, app);
    var w := RunWorld(events);
    var c := w.store.cases[app];
    var wf, signal :| Authorised(w.signalled, wf, signal) && RecordsSignal(c, wf, signal);
    assert c.row.app == app by {
      EveryRunIsBaseOk(events);
      BaseParts(w);
      HistoriesNamed(w.store, app);
    }
  }

  // ---- Extraction -------------------------------------------------------------------------------

  function ExtractKey(wf: WorkflowId, index: nat, document: DocumentId): Key
  {
    Key(wf.tenant, ProcessDocument, DocumentKey(wf, index, document))
  }

  /** Everything a pass has been through has been extracted, by it or by an earlier pass. */
  ghost predicate PassesOk(w: World)
  {
    forall id :: id in w.passes ==>
      && w.passes[id].done <= |w.passes[id].documents|
      && forall i :: 0 <= i < w.passes[id].done ==>
           ExtractKey(w.passes[id].wf, w.passes[id].index, w.passes[id].documents[i]) in w.store.keys
  }

  lemma KeysKept(w: World, event: Event)
    requires BaseOk(w)
    ensures w.store.keys <= Next(w, event).store.keys
  {
    hide BaseOk, Next, After, Exec, TriedBy;
    BaseParts(w);
    hide AllCoupled, KeysOwned, ExecsFit, StoreOk;
    NextTries(w, event);
    if TriedBy(w, event).Some? {
      KeysAfter(w.store, TriedBy(w, event).value);
    }
  }

  lemma StepReservesKey(w: World, event: Event)
    requires BaseOk(w) && event.StepPass? && event.pass in w.passes && event.pass in Next(w, event).passes
    requires w.passes[event.pass].done < |w.passes[event.pass].documents|
    ensures var p := w.passes[event.pass];
            && Next(w, event).passes[event.pass] == p.(done := p.done + 1)
            && ExtractKey(p.wf, p.index, p.documents[p.done]) in Next(w, event).store.keys
  {
    hide BaseOk, After, Exec;
    BaseParts(w);
    hide AllCoupled, KeysOwned, ExecsFit, StoreOk;
    var p := w.passes[event.pass];
    var r := ExtractRequest(p.wf, p.index, p.documents[p.done], event.stamp);
    KeysAfter(w.store, r);
    assert KeyOf(r) == ExtractKey(p.wf, p.index, p.documents[p.done]);
    if Exec(w.store, r) == Err(DuplicateRequest) {
      DuplicateMeansTaken(w.store, r);
    }
  }

  lemma DuplicateMeansTaken(s: Store, r: Request)
    requires r.command.Extract? && Exec(s, r) == Err(DuplicateRequest)
    ensures KeyOf(r) in s.keys
  {
    hide KeyOf;
  }

  lemma OtherPassesKept(w: World, event: Event, id: nat)
    requires id in Next(w, event).passes
    requires event.StepPass? && event.pass == id ==> id in w.passes && w.passes[id].done >= |w.passes[id].documents|
    ensures (id in w.passes && Next(w, event).passes[id] == w.passes[id]) || Next(w, event).passes[id].done == 0
  {
    hide Exec, After, RequestOf, AttemptResult, Completed;
  }

  lemma NextKeepsPasses(w: World, event: Event)
    requires BaseOk(w) && PassesOk(w)
    ensures PassesOk(Next(w, event))
  {
    hide BaseOk, Next;
    KeysKept(w, event);
    forall id | id in Next(w, event).passes
      ensures Next(w, event).passes[id].done <= |Next(w, event).passes[id].documents|
      ensures forall i :: 0 <= i < Next(w, event).passes[id].done ==>
                ExtractKey(Next(w, event).passes[id].wf, Next(w, event).passes[id].index,
                           Next(w, event).passes[id].documents[i]) in Next(w, event).store.keys
    {
      if event.StepPass? && event.pass == id && id in w.passes && w.passes[id].done < |w.passes[id].documents| {
        StepReservesKey(w, event);
      } else {
        StepNeedsPass(w, event, id);
        OtherPassesKept(w, event, id);
      }
    }
  }

  lemma StepNeedsPass(w: World, event: Event, id: nat)
    requires id in Next(w, event).passes
    ensures event.StepPass? && event.pass == id ==> id in w.passes
  {
    hide Exec, After;
  }

  lemma {:induction false} EveryRunIsPassesOk(events: seq<Event>)
    ensures BaseOk(RunWorld(events)) && PassesOk(RunWorld(events))
  {
    hide BaseOk, Next;
    EveryRunIsBaseOk(events);
    if events != [] {
      EveryRunIsPassesOk(events[..|events| - 1]);
      hide PassesOk;
      NextKeepsPasses(RunWorld(events[..|events| - 1]), events[|events| - 1]);
    }
  }

  /** How often a list of requests spends a key. */
  ghost function Spent(requests: seq<Request>, k: Key): nat
  {
    if requests == [] then 0
    else Spent(requests[..|requests| - 1], k) + if KeyOf(requests[|requests| - 1]) == k then 1 else 0
  }

  lemma {:induction false} SpentOnce(requests: seq<Request>, k: Key)
    requires forall i, j :: 0 <= i < j < |requests| ==> KeyOf(requests[i]) != KeyOf(requests[j])
    ensures Spent(requests, k) == if exists i :: 0 <= i < |requests| && KeyOf(requests[i]) == k then 1 else 0
  {
    hide KeyOf;
    if requests != [] {
      var front, last := requests[..|requests| - 1], requests[|requests| - 1];
      SpentOnce(front, k);
      if KeyOf(last) == k {
        assert KeyOf(requests[|requests| - 1]) == k;
        forall i | 0 <= i < |front| ensures KeyOf(front[i]) != k {
          assert KeyOf(requests[i]) != KeyOf(requests[|requests| - 1]);
        }
      } else if i :| 0 <= i < |requests| && KeyOf(requests[i]) == k {
        assert KeyOf(front[i]) == k;
      } else {
        forall i | 0 <= i < |front| ensures KeyOf(front[i]) != k {
          assert KeyOf(requests[i]) != k;
        }
      }
    }
  }

  /** When a pass has been through its list, however many passes failed before it or run beside it,
      each document it listed has been extracted exactly once for the execution: exactly one committed
      transaction has spent the document's key. */
  lemma EachDocumentExtractedOnce(events: seq<Event>, id: nat, document: DocumentId)
    requires id in RunWorld(events).passes
    requires RunWorld(events).passes[id].done >= |RunWorld(events).passes[id].documents|
    requires document in RunWorld(events).passes[id].documents
    ensures var w := RunWorld(events);
            Spent(Effective(w.requests), ExtractKey(w.passes[id].wf, w.passes[id].index, document)) == 1
  {
    hide BaseOk, Next, RunWorld, RunAll, KeyOf;
    var w := RunWorld(events);
    var p := w.passes[id];
    EveryRunIsPassesOk(events);
    var i :| 0 <= i < |p.documents| && p.documents[i] == document;
    assert ExtractKey(p.wf, p.index, p.documents[i]) in w.store.keys;
    StoreRunsRequests(events);
    EachKeyCommitsOnce(w.requests);
    SpentOnce(Effective(w.requests), ExtractKey(p.wf, p.index, document));
  }
}
