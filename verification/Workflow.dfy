/** The workflow and its activities as they run: each activity attempted under a retry policy until it
    is acknowledged, the extraction loop, the wait for a decision, and what the whole run leaves. */
module Workflow {
  import opened Prelude
  import opened CaseStatus
  import opened Applications
  import opened Store
  import opened StoreInvariants
  import opened UnitOfWork
  import opened Commands
  import opened Coupling
  import opened Protocol
  import opened ProtocolInvariants
  import opened ProtocolTheorems

  // ---- Asking for an execution ------------------------------------------------------------------

  /** What the handlers of a submission and a resubmission do to the database and, when it can be reached,
      to the workflow runner is the client's step of the protocol: the execution asked for is the one the
      committed case is attached to, with the starting status of the step, and no other. */
  lemma HandlerIsClientStep(w: World, r: Request, after: Store, result: Result<Reply, Error>, started: map<WorkflowId, Status>)
    requires BaseOk(w) && (r.command.Submit? || r.command.Resubmit?) && Runs(w.store, r, after, result)
    requires result.Err? ==> started == w.startable
    requires result.Ok? ==>
      && r.app in after.cases && after.cases[r.app].row.workflow.Some?
      && var workflow := after.cases[r.app].row.workflow.value;
      && workflow in started
      && (if workflow in w.startable then started == w.startable
          else started == w.startable[workflow := if r.command.Submit? then Submitted else DocumentProcessing])
    ensures ClientStep(w, r).store == after && ClientStep(w, r).startable == started
  {
    hide BaseOk, Exec;
    AttachedAsAnswered(w.store, r);
    if result.Ok? {
      NewNameIsFresh(w, r);
    }
  }

  // ---- One attempt ------------------------------------------------------------------------------

  /** A run that nothing disturbs: no upload commits between the document gate's count and its commit. */
  type Undisturbed = inputs: Inputs | inputs.counted == None witness Inputs(None, "", 0, "", None, Stamp(0, 0))

  /** One attempt of an activity that runs a single command. A duplicate request means an earlier
      attempt has committed, and is answered with the state as it is now. */
  method Attempt(db: Database, wf: WorkflowId, index: nat, a: Activity, inputs: Undisturbed)
    returns (result: Result<Reply, Error>)
    requires !a.ExtractFacts?
    modifies db
    ensures var r := RequestOf(old(db.store), wf, index, a, inputs);
            && db.store == After(old(db.store), r)
            && AttemptResult(old(db.store), wf, r) == (if result.Ok? then Some(result.value) else None)
            && (result.Err? && Exec(old(db.store), r) != Err(DuplicateRequest) ==> Exec(old(db.store), r) == Err(result.error))
  {
    hide Prepare;
    var r := RequestOf(db.store, wf, index, a, inputs);
    match a {
      case ValidateIntake => result := HandleAdvanceIntake(db, r);
      case CheckDocuments => result := HandleAdvanceDocuments(db, wf.tenant, wf.app, r.key, inputs.stamp);
      case VerifyFacts => result := HandleVerify(db, r);
      case EscalateForReview(_) => result := HandleEnterReview(db, r);
      case ApplyDecision(_) => result := HandleDecide(db, r);
    }
    if result == Err(DuplicateRequest) {
      if a.VerifyFacts? {
        return Ok(Done);
      }
      if wf.app !in db.store.cases || db.store.cases[wf.app].row.tenant != wf.tenant {
        return Err(ApplicationNotFound);
      }
      var row := db.store.cases[wf.app].row;
      return Ok(Reply(row.status, row.version));
    }
  }

  // ---- Attempts under the retry policy ----------------------------------------------------------

  const MAXIMUM_ATTEMPTS := 5

  /** How an attempt ends for the workflow: the worker dies before the commit, the acknowledgement of
      a finished attempt is lost, or the attempt reports back. */
  datatype Fate = Dies | LosesAck | Acks

  datatype Try = Try(fate: Fate, inputs: Undisturbed)

  predicate IsRetryable(e: Error)
  {
    !(e.ApplicationNotFound? || e.ProductNotFound? || e.InvalidApplicationData? || e.IllegalTransition?)
  }

  /** Some try up to the `i`-th gets to run and can commit. */
  ghost predicate CommitsBy(s: Store, app: AppId, a: Activity, tries: seq<Try>, i: int)
  {
    exists j :: 0 <= j <= i && j < |tries| && !tries[j].fate.Dies? && CanCommit(s, app, a, tries[j].inputs)
  }

  /** A refusal that is reported and that no retry is made for: the case or the product does not exist,
      the decision is invalid, or the transition is illegal. */
  ghost predicate EndsAt(s: Store, wf: WorkflowId, index: nat, a: Activity, tries: seq<Try>, i: nat)
    requires i < |tries| && !a.ExtractFacts?
  {
    && tries[i].fate.Acks? && !CommitsBy(s, wf.app, a, tries, i)
    && match Exec(s, RequestOf(s, wf, index, a, tries[i].inputs))
       case Ok(_) => false
       case Err(e) =>
         e == ApplicationNotFound || e == ProductNotFound || e == InvalidApplicationData || e.IllegalTransition?
  }

  /** The `i`-th try is made: it is one of the first five, and no earlier one has ended the activity with
      such a refusal. */
  ghost predicate IsTried(s: Store, wf: WorkflowId, index: nat, a: Activity, tries: seq<Try>, i: nat)
    requires !a.ExtractFacts?
  {
    i < |tries| && i < 5 && forall j :: 0 <= j < i ==> !EndsAt(s, wf, index, a, tries, j)
  }

  /** The policy's attempts are enough: one of them reports back, and every one that gets to run could
      commit. */
  predicate Suffices(s: Store, app: AppId, a: Activity, tries: seq<Try>)
  {
    && (exists i :: 0 <= i < |tries| && i < 5 && tries[i].fate.Acks?)
    && (forall i :: 0 <= i < |tries| && !tries[i].fate.Dies? ==> CanCommit(s, app, a, tries[i].inputs))
  }

  /** An execution whose outstanding activity has not been attempted yet, in a store in order. */
  ghost predicate Ready(s: Store, wf: WorkflowId, e: Execution)
  {
    && StoreOk(s) && AllCoupled(s) && ExecFits(s, wf, e) && e.phase.Running?
    && Owns(s, wf) && FreshFrom(s, wf, |e.scheduled| - 1)
  }

  ghost predicate FreshFrom(s: Store, wf: WorkflowId, index: int)
  {
    forall i: nat, a :: index <= i ==> KeyAt(wf, i, a) !in s.keys
  }

  /** The store and result of an activity whose committing attempt had these inputs. */
  ghost predicate Performed(s: Store, wf: WorkflowId, e: Execution, inputs: Inputs, after: Store)
    requires e.scheduled != [] && !e.Last().ExtractFacts?
  {
    var r := RequestOf(s, wf, |e.scheduled| - 1, e.Last(), inputs);
    Exec(s, r).Ok? && after == After(s, r)
  }

  /** A committed activity leaves its execution fitting, its key taken, and later keys free. */
  lemma PerformedFits(s: Store, wf: WorkflowId, e: Execution, inputs: Inputs, after: Store)
    requires Ready(s, wf, e) && !e.Last().ExtractFacts? && Performed(s, wf, e, inputs, after)
    ensures StoreOk(after) && AllCoupled(after) && ExecFits(after, wf, e)
    ensures Committed(after, wf, e, |e.scheduled| - 1) && FreshFrom(after, wf, |e.scheduled|)
    ensures AttemptTells(s, after, wf, |e.scheduled| - 1, e.Last())
    ensures var r := RequestOf(s, wf, |e.scheduled| - 1, e.Last(), inputs);
            Exec(s, r).value.reply == if e.Last().VerifyFacts? then Done
              else Reply(after.cases[wf.app].row.status, after.cases[wf.app].row.version)
  {
    hide StoreOk, AllCoupled, ExecFits, Exec, After, RequestOf, KeyAt, AttemptTells;
    FitsKnown(s, wf, e);
    var r := RequestOf(s, wf, |e.scheduled| - 1, e.Last(), inputs);
    ExecKeepsStore(s, r);
    ExecKeepsCoupled(s, r);
    AttemptKeepsOwn(s, wf, e, |e.scheduled| - 1, inputs);
    assert KeyAt(wf, |e.scheduled| - 1, e.Last()) !in s.keys;
    SettledAttempt(s, wf, e, |e.scheduled| - 1);
    AttemptIsFit(s, wf, |e.scheduled| - 1, e.Last(), inputs);
    KeysAfter(s, r);
    RequestKey(s, wf, |e.scheduled| - 1, e.Last(), inputs);
    KeysDiffer(wf, |e.scheduled| - 1, e.Last());
  }

  lemma FitsKnown(s: Store, wf: WorkflowId, e: Execution)
    requires ExecFits(s, wf, e)
    ensures e.scheduled != [] && CaseKnown(s, wf)
  {
  }

  lemma KeysDiffer(wf: WorkflowId, index: nat, a: Activity)
    ensures forall i: nat, b :: i != index ==> KeyAt(wf, i, b) != KeyAt(wf, index, a)
  {
  }

  /** The try that commits the activity: it is made, it gets to run and can commit, and none before it. */
  ghost predicate FirstCommit(s: Store, wf: WorkflowId, index: nat, a: Activity, tries: seq<Try>, i: nat)
    requires !a.ExtractFacts?
  {
    && IsTried(s, wf, index, a, tries, i) && !tries[i].fate.Dies?
    && CanCommit(s, wf.app, a, tries[i].inputs) && !CommitsBy(s, wf.app, a, tries, i - 1)
  }

  /** A try that is made and reports back, with the activity committed by itself or by one before. */
  ghost predicate ReportsBack(s: Store, wf: WorkflowId, index: nat, a: Activity, tries: seq<Try>, i: nat)
    requires !a.ExtractFacts?
  {
    IsTried(s, wf, index, a, tries, i) && tries[i].fate.Acks? && CommitsBy(s, wf.app, a, tries, i)
  }

  /** Where the retry loop is after `i` tries that have not ended it. */
  ghost predicate Underway(s: Store, wf: WorkflowId, e: Execution, tries: seq<Try>, i: nat, committed: Option<Inputs>, store: Store)
    requires e.scheduled != [] && !e.Last().ExtractFacts?
  {
    var index, a := |e.scheduled| - 1, e.Last();
    && i <= |tries| && i <= 5
    && (forall j :: 0 <= j < i ==> !EndsAt(s, wf, index, a, tries, j))
    && (forall j :: 0 <= j < i && tries[j].fate.Acks? ==> !CommitsBy(s, wf.app, a, tries, j))
    && if committed.Some? then
         Performed(s, wf, e, committed.value, store)
         && exists j: nat :: j < i && FirstCommit(s, wf, index, a, tries, j) && committed.value == tries[j].inputs
       else store == s && !CommitsBy(s, wf.app, a, tries, i - 1)
  }

  /** A try whose worker dies changes nothing. */
  lemma DyingTry(s: Store, wf: WorkflowId, e: Execution, tries: seq<Try>, i: nat, committed: Option<Inputs>, store: Store)
    requires e.scheduled != [] && !e.Last().ExtractFacts? && i < |tries| && i < 5 && tries[i].fate.Dies?
    requires Underway(s, wf, e, tries, i, committed, store)
    ensures Underway(s, wf, e, tries, i + 1, committed, store)
  {
    hide Performed, CanCommit, RequestOf, Exec;
  }

  /** The store and the committing inputs after a try that gets to run. */
  ghost predicate TryRan(s: Store, wf: WorkflowId, e: Execution, try: Try, committed: Option<Inputs>, before: Store,
                         after: Store, attempt: Result<Reply, Error>)
    requires e.scheduled != [] && !e.Last().ExtractFacts?
  {
    var index, a := |e.scheduled| - 1, e.Last();
    if committed.Some? then after == before && attempt.Ok?
    else
      && (attempt.Ok? <==> CanCommit(s, wf.app, a, try.inputs))
      && (attempt.Ok? ==> Performed(s, wf, e, try.inputs, after))
      && (attempt.Err? ==> after == s && Exec(s, RequestOf(s, wf, index, a, try.inputs)) == Err(attempt.error))
  }

  lemma RanTry(s: Store, wf: WorkflowId, e: Execution, tries: seq<Try>, i: nat, committed: Option<Inputs>, before: Store,
               after: Store, attempt: Result<Reply, Error>)
    requires e.scheduled != [] && !e.Last().ExtractFacts? && i < |tries| && i < 5 && !tries[i].fate.Dies?
    requires Underway(s, wf, e, tries, i, committed, before)
    requires TryRan(s, wf, e, tries[i], committed, before, after, attempt)
    ensures var index, a, now := |e.scheduled| - 1, e.Last(), if committed.None? && attempt.Ok? then Some(tries[i].inputs) else committed;
            && IsTried(s, wf, index, a, tries, i)
            && (attempt.Ok? <==> CommitsBy(s, wf.app, a, tries, i))
            && (attempt.Err? ==> committed.None? && after == before)
            && (attempt.Err? && tries[i].fate.Acks? ==>
                  (EndsAt(s, wf, index, a, tries, i) <==>
                     attempt.error == ApplicationNotFound || attempt.error == ProductNotFound
                     || attempt.error == InvalidApplicationData || attempt.error.IllegalTransition?))
            && (attempt.Ok? ==>
                  && now.Some? && Performed(s, wf, e, now.value, after)
                  && exists j: nat :: j <= i && FirstCommit(s, wf, index, a, tries, j) && now.value == tries[j].inputs)
            && (!(tries[i].fate.Acks? && (attempt.Ok? || EndsAt(s, wf, index, a, tries, i))) ==>
                  Underway(s, wf, e, tries, i + 1, now, after))
  {
    hide Performed, CanCommit, RequestOf, Exec;
    var index, a := |e.scheduled| - 1, e.Last();
    if committed.Some? {
      var j: nat :| j < i && FirstCommit(s, wf, index, a, tries, j) && committed.value == tries[j].inputs;
      assert CommitsBy(s, wf.app, a, tries, i);
    } else if attempt.Ok? {
      assert FirstCommit(s, wf, index, a, tries, i);
      assert CommitsBy(s, wf.app, a, tries, i);
    } else {
      assert !CommitsBy(s, wf.app, a, tries, i);
    }
  }

  /** The answer of the attempt with these inputs, run in the store the activity found. */
  ghost predicate Answers(s: Store, wf: WorkflowId, index: nat, a: Activity, inputs: Inputs, reply: Reply)
    requires !a.ExtractFacts?
  {
    match Exec(s, RequestOf(s, wf, index, a, inputs))
    case Ok(outcome) => reply == outcome.reply
    case Err(_) => false
  }

  /** What an activity under the retry policy has come to. */
  ghost predicate Ended(s: Store, wf: WorkflowId, e: Execution, tries: seq<Try>, committed: Option<Inputs>, store: Store,
                        result: Option<Reply>)
    requires e.scheduled != [] && !e.Last().ExtractFacts?
  {
    var index, a := |e.scheduled| - 1, e.Last();
    && (committed.None? ==> store == s && !exists i :: FirstCommit(s, wf, index, a, tries, i))
    && (committed.Some? ==>
          && Performed(s, wf, e, committed.value, store)
          && exists i: nat :: FirstCommit(s, wf, index, a, tries, i) && tries[i].inputs == committed.value)
    && (result.Some? ==> committed.Some? && Answers(s, wf, index, a, committed.value, result.value))
    && (result.Some? <==> exists i :: ReportsBack(s, wf, index, a, tries, i))
  }

  lemma EndsReported(s: Store, wf: WorkflowId, e: Execution, tries: seq<Try>, i: nat, committed: Option<Inputs>, store: Store,
                     result: Option<Reply>)
    requires e.scheduled != [] && !e.Last().ExtractFacts? && committed.Some? && result.Some?
    requires var index, a := |e.scheduled| - 1, e.Last();
             && ReportsBack(s, wf, index, a, tries, i)
             && Performed(s, wf, e, committed.value, store)
             && (exists j: nat :: j <= i && FirstCommit(s, wf, index, a, tries, j) && committed.value == tries[j].inputs)
             && Answers(s, wf, index, a, committed.value, result.value)
    ensures Ended(s, wf, e, tries, committed, store, result)
  {
    hide FirstCommit, ReportsBack, Performed, Answers;
  }

  lemma EndsUnreported(s: Store, wf: WorkflowId, e: Execution, tries: seq<Try>, i: nat, committed: Option<Inputs>, store: Store)
    requires e.scheduled != [] && !e.Last().ExtractFacts?
    requires Underway(s, wf, e, tries, i, committed, store)
    requires i == |tries| || i == 5
             || (committed.None? && !CommitsBy(s, wf.app, e.Last(), tries, i) && EndsAt(s, wf, |e.scheduled| - 1, e.Last(), tries, i))
    ensures Ended(s, wf, e, tries, committed, store, None)
  {
    hide Performed, CanCommit, RequestOf, Exec;
    FirstIsBy(s, wf, |e.scheduled| - 1, e.Last(), tries, i);
  }

  lemma FirstIsBy(s: Store, wf: WorkflowId, index: nat, a: Activity, tries: seq<Try>, i: nat)
    requires !a.ExtractFacts?
    ensures forall j: nat :: j <= i && FirstCommit(s, wf, index, a, tries, j) ==> CommitsBy(s, wf.app, a, tries, i)
    ensures forall j: nat :: j < i && FirstCommit(s, wf, index, a, tries, j) ==> CommitsBy(s, wf.app, a, tries, i - 1)
    ensures forall j: nat :: IsTried(s, wf, index, a, tries, j) ==>
              j <= i || (i < |tries| && i < 5 && !EndsAt(s, wf, index, a, tries, i))
  {
    hide CanCommit, EndsAt;
  }

  lemma MakeReport(s: Store, wf: WorkflowId, index: nat, a: Activity, tries: seq<Try>, i: nat)
    requires !a.ExtractFacts? && IsTried(s, wf, index, a, tries, i) && tries[i].fate.Acks? && CommitsBy(s, wf.app, a, tries, i)
    ensures ReportsBack(s, wf, index, a, tries, i)
  {
  }

  lemma StartsUnderway(s: Store, wf: WorkflowId, e: Execution, tries: seq<Try>)
    requires e.scheduled != [] && !e.Last().ExtractFacts?
    ensures Underway(s, wf, e, tries, 0, None, s)
  {
  }

  /** Tries that suffice have one that reports back. */
  lemma EndedSuffices(s: Store, wf: WorkflowId, e: Execution, tries: seq<Try>, committed: Option<Inputs>, store: Store,
                      result: Option<Reply>)
    requires e.scheduled != [] && !e.Last().ExtractFacts? && Ended(s, wf, e, tries, committed, store, result)
    ensures Suffices(s, wf.app, e.Last(), tries) ==> result.Some?
  {
    hide Performed, CanCommit, RequestOf, Exec, FirstCommit;
    var index, a := |e.scheduled| - 1, e.Last();
    if Suffices(s, wf.app, a, tries) {
      var i: nat :| i < |tries| && i < 5 && tries[i].fate.Acks?;
      assert CommitsBy(s, wf.app, a, tries, i);
      forall j: nat | j < i ensures !EndsAt(s, wf, index, a, tries, j) {
        if tries[j].fate.Acks? {
          assert CommitsBy(s, wf.app, a, tries, j);
        }
      }
      assert ReportsBack(s, wf, index, a, tries, i);
    }
  }

  /** An activity under the retry policy. However the attempts fail, die after committing or repeat,
      the store is the one that a single attempt, the committing one, leaves, and the workflow gets
      that attempt's result. There is a result exactly when one of the first five tries reports back with
      the activity committed and no earlier one has reported a refusal that is final; after a final
      refusal no try is made, after any other the next one is. */
  method ExecuteActivity(db: Database, wf: WorkflowId, ghost e: Execution, index: nat, a: Activity, tries: seq<Try>)
    returns (result: Option<Reply>, committed: Option<Inputs>)
    requires Ready(db.store, wf, e) && index == |e.scheduled| - 1 && a == e.Last() && !a.ExtractFacts?
    modifies db
    ensures Ended(old(db.store), wf, e, tries, committed, db.store, result)
    ensures Suffices(old(db.store), wf.app, a, tries) ==> result.Some?
  {
    hide Ready, Performed, Answers, RequestOf, Exec, After, AttemptResult, CanCommit, ExecFits, Ended, Underway, TryRan, EndsAt, CommitsBy,
      IsTried, FirstCommit, ReportsBack, Suffices;
    ghost var s := db.store;
    committed, result := None, None;
    var i := 0;
    StartsUnderway(s, wf, e, tries);
    while i < |tries| && i < MAXIMUM_ATTEMPTS
      invariant 0 <= i <= |tries| && i <= MAXIMUM_ATTEMPTS
      invariant Underway(s, wf, e, tries, i, committed, db.store)
    {
      if !tries[i].fate.Dies? {
        ghost var before, was := db.store, committed;
        var attempt := Attempt(db, wf, index, a, tries[i].inputs);
        OneAttempt(s, wf, e, tries, i, was, before, db.store, attempt);
        RanTry(s, wf, e, tries, i, was, before, db.store, attempt);
        if committed.None? && attempt.Ok? {
          committed := Some(tries[i].inputs);
        }
        if tries[i].fate.Acks? {
          if attempt.Ok? {
            result := Some(attempt.value);
            assert ReportsBack(s, wf, index, a, tries, i) by { MakeReport(s, wf, index, a, tries, i); }
            EndsReported(s, wf, e, tries, i, committed, db.store, result);
            EndedSuffices(s, wf, e, tries, committed, db.store, result);
            return result, committed;
          }
          if !IsRetryable(attempt.error) {
            EndsUnreported(s, wf, e, tries, i, committed, db.store);
            EndedSuffices(s, wf, e, tries, committed, db.store, None);
            return None, committed;
          }
        }
      } else {
        DyingTry(s, wf, e, tries, i, committed, db.store);
      }
      i := i + 1;
    }
    EndsUnreported(s, wf, e, tries, i, committed, db.store);
    EndedSuffices(s, wf, e, tries, committed, db.store, None);
  }

  /** One turn of the retry loop: before the commit, an attempt commits exactly when it returns a
      result, and that is when it can; after it, an attempt changes nothing and returns the result. */
  lemma AttemptInLoop(s: Store, wf: WorkflowId, e: Execution, committed: Option<Inputs>, before: Store, inputs: Inputs)
    requires Ready(s, wf, e) && !e.Last().ExtractFacts?
    requires if committed.Some? then Performed(s, wf, e, committed.value, before) else before == s
    ensures var r := RequestOf(before, wf, |e.scheduled| - 1, e.Last(), inputs);
            var result := AttemptResult(before, wf, r);
            if committed.Some?
            then After(before, r) == before && result ==
                   Some(Exec(s, RequestOf(s, wf, |e.scheduled| - 1, e.Last(), committed.value)).value.reply)
            else
              && (result.Some? <==> CanCommit(s, wf.app, e.Last(), inputs))
              && (result.Some? ==> Performed(s, wf, e, inputs, After(before, r))
                                   && result.value == Exec(s, r).value.reply)
              && (result.None? ==> After(before, r) == s)
  {
    hide RequestOf, ExecFits, StoreOk, AllCoupled, Exec, After, KeyAt, CanCommit, AttemptTells, AttemptResult, Performed;
    var index := |e.scheduled| - 1;
    if committed.Some? {
      PerformedFits(s, wf, e, committed.value, before);
      FitsKnown(before, wf, e);
      DecisionIsOutcome(s, wf, e, before);
      DuplicateAttempt(before, wf, index, e.Last(), inputs);
    } else {
      FitsKnown(s, wf, e);
      assert KeyAt(wf, index, e.Last()) !in s.keys;
      SettledAttempt(s, wf, e, index);
      FitCommitsIff(s, wf, index, e.Last(), inputs);
      FreshAttempt(s, wf, e, index, inputs);
    }
  }

  /** One attempt of the loop, whatever has become of those before it. */
  lemma OneAttempt(s: Store, wf: WorkflowId, e: Execution, tries: seq<Try>, i: nat, committed: Option<Inputs>, before: Store,
                   after: Store, attempt: Result<Reply, Error>)
    requires Ready(s, wf, e) && !e.Last().ExtractFacts? && i < |tries|
    requires Underway(s, wf, e, tries, i, committed, before)
    requires var r := RequestOf(before, wf, |e.scheduled| - 1, e.Last(), tries[i].inputs);
             && after == After(before, r)
             && AttemptResult(before, wf, r) == (if attempt.Ok? then Some(attempt.value) else None)
             && (attempt.Err? && Exec(before, r) != Err(DuplicateRequest) ==> Exec(before, r) == Err(attempt.error))
    ensures TryRan(s, wf, e, tries[i], committed, before, after, attempt)
    ensures attempt.Ok? ==>
              Answers(s, wf, |e.scheduled| - 1, e.Last(), if committed.Some? then committed.value else tries[i].inputs,
                      attempt.value)
  {
    hide RequestOf, Exec, After, AttemptResult, CanCommit, ExecFits, StoreOk, AllCoupled, EndsAt, CommitsBy, FirstCommit,
      KeyAt, KeyOf;
    var inputs, index := tries[i].inputs, |e.scheduled| - 1;
    AttemptInLoop(s, wf, e, committed, before, inputs);
    if committed.None? {
      FitsKnown(s, wf, e);
      assert KeyAt(wf, index, e.Last()) !in s.keys;
      RequestKey(s, wf, index, e.Last(), inputs);
      FreshIsNoDuplicate(s, RequestOf(s, wf, index, e.Last(), inputs));
    }
  }

  lemma DecisionIsOutcome(s: Store, wf: WorkflowId, e: Execution, after: Store)
    requires e.scheduled != [] && AttemptTells(s, after, wf, |e.scheduled| - 1, e.Last())
    ensures e.Last().ApplyDecision? ==> IsReviewOutcome(e.Last().signal.decision)
  {
    hide KeyAt;
  }

  lemma FreshAttempt(s: Store, wf: WorkflowId, e: Execution, index: nat, inputs: Inputs)
    requires e.scheduled != [] && index == |e.scheduled| - 1 && !e.Last().ExtractFacts?
    requires KeyAt(wf, index, e.Last()) !in s.keys
    ensures var r := RequestOf(s, wf, index, e.Last(), inputs);
            var result := AttemptResult(s, wf, r);
            && (result.Some? <==> Exec(s, r).Ok?)
            && (result.Some? ==> Performed(s, wf, e, inputs, After(s, r)) && result.value == Exec(s, r).value.reply)
            && (result.None? ==> After(s, r) == s)
  {
    hide RequestOf, KeyOf, KeyAt, Exec;
    FreshResult(s, wf, index, e.Last(), inputs);
  }

  // ---- The extraction loop ----------------------------------------------------------------------

  /** One extraction after another, each its own transaction. */
  function ExtractAll(s: Store, wf: WorkflowId, index: nat, documents: seq<DocumentId>, stamp: Stamp): Store
  {
    if documents == [] then s
    else
      var front := ExtractAll(s, wf, index, documents[..|documents| - 1], stamp);
      After(front, ExtractRequest(wf, index, documents[|documents| - 1], stamp))
  }

  function ExtractKeys(wf: WorkflowId, index: nat, documents: seq<DocumentId>): set<Key>
  {
    set d | d in documents :: ExtractKey(wf, index, d)
  }

  /** What extracting a list does, described directly: each listed document that had not been extracted
      for this activity gets one run, in list order, and nothing else changes. */
  ghost predicate Extracted(s: Store, wf: WorkflowId, index: nat, documents: seq<DocumentId>, after: Store)
  {
    && after.cases == s.cases && after.outbox == s.outbox
    && after.keys == s.keys + ExtractKeys(wf, index, documents)
    && (forall app :: FilesOf(after, app).documents == FilesOf(s, app).documents
                      && FilesOf(after, app).verifications == FilesOf(s, app).verifications)
    && (forall app :: app != wf.app ==> FilesOf(after, app) == FilesOf(s, app))
    && FilesOf(after, wf.app).extractionRuns
       == FilesOf(s, wf.app).extractionRuns + NewRuns(s, wf, index, documents)
  }

  /** The documents of a list that still need a run, first occurrences only. */
  function NewRuns(s: Store, wf: WorkflowId, index: nat, documents: seq<DocumentId>): seq<DocumentId>
  {
    if documents == [] then []
    else
      var front, last := documents[..|documents| - 1], documents[|documents| - 1];
      NewRuns(s, wf, index, front)
      + if last in front || ExtractKey(wf, index, last) in s.keys then [] else [last]
  }

  /** The tables one extraction writes, whatever the store around it. */
  lemma ExtractExact(s: Store, wf: WorkflowId, index: nat, d: DocumentId, stamp: Stamp)
    requires d in DocumentsOf(s, wf.tenant, wf.app)
    ensures var r := ExtractRequest(wf, index, d, stamp);
            && (Exec(s, r).Ok? <==> ExtractKey(wf, index, d) !in s.keys)
            && (Exec(s, r).Err? ==> Exec(s, r) == Err(DuplicateRequest))
            && After(s, r) == if ExtractKey(wf, index, d) in s.keys then s
                 else s.(keys := s.keys + {ExtractKey(wf, index, d)},
                         files := s.files[wf.app := FilesPlus(FilesOf(s, wf.app), Files([], [d], []))],
                         audit := s.audit[wf.tenant := LogOf(s, wf.tenant)])
  {
    var r := ExtractRequest(wf, index, d, stamp);
    assert KeyOf(r) == ExtractKey(wf, index, d);
    if Prepare(s, r).Ok? {
      var w := Prepare(s, r).value;
      assert KeyOf(r) !in s.keys ==> w.keys * s.keys == {};
      if wf.app in s.cases {
        assert s.cases[wf.app].snapshots + map[] == s.cases[wf.app].snapshots;
      }
    }
  }

  lemma {:induction false} ExtractAllExact(s: Store, wf: WorkflowId, index: nat, documents: seq<DocumentId>, stamp: Stamp)
    requires forall d :: d in documents ==> d in DocumentsOf(s, wf.tenant, wf.app)
    ensures Extracted(s, wf, index, documents, ExtractAll(s, wf, index, documents, stamp))
  {
    hide After, Exec;
    if documents != [] {
      var front, last := documents[..|documents| - 1], documents[|documents| - 1];
      forall d | d in front ensures d in documents {
      }
      ExtractAllExact(s, wf, index, front, stamp);
      var mid := ExtractAll(s, wf, index, front, stamp);
      ExtractExact(mid, wf, index, last, stamp);
      assert documents == front + [last];
      ExtractStep(s, wf, index, front, last, mid, ExtractAll(s, wf, index, documents, stamp));
    }
  }

  lemma KeysStep(wf: WorkflowId, index: nat, front: seq<DocumentId>, last: DocumentId)
    ensures ExtractKeys(wf, index, front + [last]) == ExtractKeys(wf, index, front) + {ExtractKey(wf, index, last)}
    ensures ExtractKey(wf, index, last) in ExtractKeys(wf, index, front) <==> last in front
  {
    var keys := ExtractKeys(wf, index, front + [last]);
    forall k ensures k in keys <==> k in ExtractKeys(wf, index, front) + {ExtractKey(wf, index, last)} {
      if k in ExtractKeys(wf, index, front) {
        var d :| d in front && k == ExtractKey(wf, index, d);
        assert d in front + [last];
      } else if k == ExtractKey(wf, index, last) {
        assert last in front + [last];
      }
    }
  }

  lemma ExtractStep(s: Store, wf: WorkflowId, index: nat, front: seq<DocumentId>, last: DocumentId, mid: Store, after: Store)
    requires Extracted(s, wf, index, front, mid)
    requires after == if ExtractKey(wf, index, last) in mid.keys then mid
                      else mid.(keys := mid.keys + {ExtractKey(wf, index, last)},
                                files := mid.files[wf.app := FilesPlus(FilesOf(mid, wf.app), Files([], [last], []))],
                                audit := mid.audit[wf.tenant := LogOf(mid, wf.tenant)])
    ensures Extracted(s, wf, index, front + [last], after)
  {
    hide ExtractKey, ExtractKeys;
    KeysStep(wf, index, front, last);
    assert (front + [last])[..|front|] == front;
  }

  /** Extraction writes no time and no generated id of the store's own. */
  const NO_STAMP := Stamp(0, 0)

  lemma {:induction false} StampIsIrrelevant(s: Store, wf: WorkflowId, index: nat, documents: seq<DocumentId>, stamp: Stamp)
    requires forall d :: d in documents ==> d in DocumentsOf(s, wf.tenant, wf.app)
    ensures ExtractAll(s, wf, index, documents, stamp) == ExtractAll(s, wf, index, documents, NO_STAMP)
  {
    hide After, Exec;
    if documents != [] {
      var front, last := documents[..|documents| - 1], documents[|documents| - 1];
      forall d | d in front ensures d in documents {
      }
      StampIsIrrelevant(s, wf, index, front, stamp);
      var mid := ExtractAll(s, wf, index, front, stamp);
      ExtractAllExact(s, wf, index, front, stamp);
      assert DocumentsOf(mid, wf.tenant, wf.app) == DocumentsOf(s, wf.tenant, wf.app);
      ExtractExact(mid, wf, index, last, stamp);
      ExtractExact(mid, wf, index, last, NO_STAMP);
    }
  }

  /** One more document, on top of a pass that had come to `reached`: below it nothing happens, at it
      the list grows by one. */
  lemma PassTurn(s: Store, wf: WorkflowId, index: nat, documents: seq<DocumentId>, reached: nat, i: nat, stamp: Stamp)
    requires documents == DocumentsOf(s, wf.tenant, wf.app) && i < |documents| && reached <= |documents|
    requires i <= reached
    ensures var mid := ExtractAll(s, wf, index, documents[..reached], NO_STAMP);
            var r := ExtractRequest(wf, index, documents[i], stamp);
            && DocumentsOf(mid, wf.tenant, wf.app) == documents
            && (Exec(mid, r).Ok? || Exec(mid, r) == Err(DuplicateRequest))
            && After(mid, r) == if i < reached then mid else ExtractAll(s, wf, index, documents[..i + 1], NO_STAMP)
  {
    hide After, Exec, ExtractKey;
    var mid := ExtractAll(s, wf, index, documents[..reached], NO_STAMP);
    ExtractAllExact(s, wf, index, documents[..reached], NO_STAMP);
    assert documents[i] in documents;
    ExtractExact(mid, wf, index, documents[i], stamp);
    if i < reached {
      assert documents[..reached][i] == documents[i];
      assert ExtractKey(wf, index, documents[i]) in ExtractKeys(wf, index, documents[..reached]);
    } else {
      ExtractExact(mid, wf, index, documents[i], NO_STAMP);
      assert documents[..i + 1][..i] == documents[..i];
    }
  }

  /** One pass over the case's documents; the worker may die after any number of them. */
  method ExtractDocumentFacts(db: Database, wf: WorkflowId, index: nat, survives: Option<nat>, stamp: Stamp,
                              ghost s: Store, ghost reached: nat)
    returns (finished: bool, ghost nowReached: nat)
    requires reached <= |DocumentsOf(s, wf.tenant, wf.app)|
    requires db.store == ExtractAll(s, wf, index, DocumentsOf(s, wf.tenant, wf.app)[..reached], NO_STAMP)
    modifies db
    ensures reached <= nowReached <= |DocumentsOf(s, wf.tenant, wf.app)|
    ensures db.store == ExtractAll(s, wf, index, DocumentsOf(s, wf.tenant, wf.app)[..nowReached], NO_STAMP)
    ensures finished <==> survives.None? || survives.value >= |DocumentsOf(s, wf.tenant, wf.app)|
    ensures finished ==> nowReached == |DocumentsOf(s, wf.tenant, wf.app)|
  {
    hide Exec, After, ExtractAll;
    ExtractAllExact(s, wf, index, DocumentsOf(s, wf.tenant, wf.app)[..reached], NO_STAMP);
    var documents := DocumentsOf(db.store, wf.tenant, wf.app);
    nowReached := reached;
    var i := 0;
    while i < |documents|
      invariant 0 <= i <= |documents| && documents == DocumentsOf(s, wf.tenant, wf.app)
      invariant reached <= nowReached <= |documents| && i <= nowReached
      invariant survives.Some? ==> i <= survives.value
      invariant db.store == ExtractAll(s, wf, index, documents[..nowReached], NO_STAMP)
    {
      if survives == Some(i) {
        return false, nowReached;
      }
      PassTurn(s, wf, index, documents, nowReached, i, stamp);
      ghost var before := db.store;
      var result := HandleProcessDocument(db, ExtractRequest(wf, index, documents[i], stamp));
      RunsIsAfter(before, ExtractRequest(wf, index, documents[i], stamp), db.store, result);
      if i == nowReached {
        nowReached := i + 1;
      }
      i := i + 1;
    }
    return true, nowReached;
  }

  lemma RunsIsAfter(before: Store, r: Request, after: Store, result: Result<Reply, Error>)
    requires Runs(before, r, after, result)
    ensures after == After(before, r)
  {
    hide Prepare;
  }

  datatype PassTry = PassTry(survives: Option<nat>, acked: bool, stamp: Stamp)

  predicate PassInTime(passes: seq<PassTry>)
  {
    exists i :: 0 <= i < |passes| && i < 5 && passes[i].acked && passes[i].survives.None?
  }

  /** The extraction activity under the retry policy: any number of passes that die half way, or finish
      unnoticed, leave a prefix of the list extracted; a pass that reports back leaves all of it, as
      one undisturbed pass would. */
  method ExecuteExtraction(db: Database, wf: WorkflowId, index: nat, passes: seq<PassTry>) returns (done: bool)
    modifies db
    ensures var documents := DocumentsOf(old(db.store), wf.tenant, wf.app);
            && (done ==> db.store == ExtractAll(old(db.store), wf, index, documents, NO_STAMP))
            && (exists n :: 0 <= n <= |documents| && db.store == ExtractAll(old(db.store), wf, index, documents[..n], NO_STAMP))
            && (PassInTime(passes) ==> done)
  {
    hide ExtractAll, FilesOf;
    ghost var s := db.store;
    ghost var documents := DocumentsOf(s, wf.tenant, wf.app);
    ghost var reached: nat := 0;
    assert db.store == ExtractAll(s, wf, index, documents[..0], NO_STAMP) by { NothingExtracted(s, wf, index, documents); }
    done := false;
    var i := 0;
    while i < |passes| && i < MAXIMUM_ATTEMPTS && !done
      invariant 0 <= i <= |passes| && reached <= |documents|
      invariant db.store == ExtractAll(s, wf, index, documents[..reached], NO_STAMP)
      invariant done ==> reached == |documents|
      invariant !done ==> forall j :: 0 <= j < i ==> !(passes[j].acked && passes[j].survives.None?)
    {
      var finished, nowReached := ExtractDocumentFacts(db, wf, index, passes[i].survives, passes[i].stamp, s, reached);
      reached := nowReached;
      done := finished && passes[i].acked;
      i := i + 1;
    }
    assert documents[..|documents|] == documents;
  }

  lemma NothingExtracted(s: Store, wf: WorkflowId, index: nat, documents: seq<DocumentId>)
    ensures ExtractAll(s, wf, index, documents[..0], NO_STAMP) == s
  {
  }

  // ---- The whole run ----------------------------------------------------------------------------

  /** A store and where the execution is in it. */
  datatype Stage = Stage(store: Store, exec: Execution)

  /** One activity performed by a single attempt, one undisturbed extraction pass, or the end of the
      wait: the steps of a run in which nothing ever goes wrong. */
  ghost predicate CleanStep(wf: WorkflowId, now: Stage, next: Stage)
  {
    var e := now.exec;
    && e.scheduled != []
    && if e.phase.Waiting? then
         next.store == now.store && exists signal :: next.exec == Schedule(e, ApplyDecision(signal))
       else if e.phase.Running? && e.Last().ExtractFacts? then
         && next.store == ExtractAll(now.store, wf, |e.scheduled| - 1, FilesOf(now.store, wf.app).documents, NO_STAMP)
         && next.exec == Completed(e, Verification, "")
       else
         && e.phase.Running?
         && exists inputs :: Performed(now.store, wf, e, inputs, next.store)
              && wf.app in next.store.cases
              && next.exec == Completed(e, next.store.cases[wf.app].row.status, inputs.summary)
  }

  ghost predicate CleanPath(wf: WorkflowId, path: seq<Stage>)
  {
    path != [] && forall i :: 0 <= i < |path| - 1 ==> CleanStep(wf, path[i], path[i + 1])
  }

  lemma PathGrows(wf: WorkflowId, path: seq<Stage>, next: Stage)
    requires CleanPath(wf, path) && CleanStep(wf, path[|path| - 1], next)
    ensures CleanPath(wf, path + [next])
  {
    hide CleanStep;
  }

  /** An execution that waits for its decision. */
  ghost predicate AtWait(s: Store, wf: WorkflowId, e: Execution)
  {
    && StoreOk(s) && AllCoupled(s) && ExecFits(s, wf, e) && e.phase.Waiting?
    && Owns(s, wf) && FreshFrom(s, wf, |e.scheduled|)
  }

  /** Between two activities: the next one is ready, or the wait has begun, or the run is over. */
  lemma ActivityCompletes(s: Store, wf: WorkflowId, e: Execution, inputs: Inputs, after: Store, reply: Reply)
    requires Ready(s, wf, e) && !e.Last().ExtractFacts? && Performed(s, wf, e, inputs, after)
    requires reply == Exec(s, RequestOf(s, wf, |e.scheduled| - 1, e.Last(), inputs)).value.reply
    ensures wf.app in after.cases
    ensures var next := Completed(e, StatusOf(reply), inputs.summary);
            && CleanStep(wf, Stage(s, e), Stage(after, next))
            && (next.phase.Running? ==> Ready(after, wf, next))
            && (next.phase.Waiting? ==> AtWait(after, wf, next))
    ensures !e.Last().VerifyFacts? ==>
              reply == Reply(after.cases[wf.app].row.status, after.cases[wf.app].row.version)
    ensures MovesOn(e.Last(), after.cases[wf.app].row.status)
    ensures after.cases[wf.app].row.workflow == if e.Last().ApplyDecision? then None else Some(wf)
  {
    hide StoreOk, AllCoupled, ExecFits, Exec, After, RequestOf, KeyAt, MovesOn, Performed, FreshFrom;
    PerformedFits(s, wf, e, inputs, after);
    FitsKnown(s, wf, e);
    FitsKnown(after, wf, e);
    var next := Completed(e, StatusOf(reply), inputs.summary);
    FreshHere(after, wf, |e.scheduled|);
    CompletedFits(after, wf, e, StatusOf(reply), inputs.summary);
    VerifiedStands(after, wf, e, reply, inputs.summary);
  }

  lemma FreshHere(s: Store, wf: WorkflowId, index: nat)
    requires FreshFrom(s, wf, index)
    ensures forall a :: KeyAt(wf, index, a) !in s.keys
  {
    hide KeyAt;
  }

  /** The result of a verification carries no status; the next activity does not depend on it. */
  lemma VerifiedStands(after: Store, wf: WorkflowId, e: Execution, reply: Reply, summary: string)
    requires e.scheduled != [] && wf.app in after.cases
    requires reply == if e.Last().VerifyFacts? then Done
                      else Reply(after.cases[wf.app].row.status, after.cases[wf.app].row.version)
    ensures Completed(e, StatusOf(reply), summary) == Completed(e, after.cases[wf.app].row.status, summary)
  {
  }

  lemma ExtractionCompletes(s: Store, wf: WorkflowId, e: Execution, after: Store)
    requires Ready(s, wf, e) && e.Last().ExtractFacts?
    requires after == ExtractAll(s, wf, |e.scheduled| - 1, DocumentsOf(s, wf.tenant, wf.app), NO_STAMP)
    ensures var next := Completed(e, Verification, "");
            CleanStep(wf, Stage(s, e), Stage(after, next)) && Ready(after, wf, next)
    ensures after.cases == s.cases
  {
    hide StoreOk, AllCoupled, ExecFits, KeyAt, FreshFrom, ExtractAll;
    var documents, index := DocumentsOf(s, wf.tenant, wf.app), |e.scheduled| - 1;
    FitsKnown(s, wf, e);
    ExtractAllKeeps(s, wf, index, documents);
    ExtractAllExact(s, wf, index, documents, NO_STAMP);
    hide Extracted;
    ExtractedKeepsKeys(s, wf, index, documents, after);
    assert SameFor(s, after, wf) by { hide SameFor; SameCases(s, after, wf); }
    SameForKeepsFit(s, after, wf, e);
    FreshHere(after, wf, |e.scheduled|);
    CompletedFits(after, wf, e, Verification, "");
  }

  lemma SameCases(s: Store, after: Store, wf: WorkflowId)
    requires CaseKnown(s, wf) && after.cases == s.cases
    requires forall i, a :: KeyAt(wf, i, a) in after.keys <==> KeyAt(wf, i, a) in s.keys
    ensures SameFor(s, after, wf)
  {
    hide KeyAt;
  }

  lemma ExtractedKeepsKeys(s: Store, wf: WorkflowId, index: nat, documents: seq<DocumentId>, after: Store)
    requires Extracted(s, wf, index, documents, after)
    ensures after.cases == s.cases
    ensures forall other, i, a :: KeyAt(other, i, a) in after.keys <==> KeyAt(other, i, a) in s.keys
    ensures forall n :: FreshFrom(s, wf, n) ==> FreshFrom(after, wf, n + 1)
  {
  }

  lemma {:induction false} ExtractAllKeeps(s: Store, wf: WorkflowId, index: nat, documents: seq<DocumentId>)
    requires StoreOk(s) && AllCoupled(s)
    ensures StoreOk(ExtractAll(s, wf, index, documents, NO_STAMP)) && AllCoupled(ExtractAll(s, wf, index, documents, NO_STAMP))
  {
    hide StoreOk, AllCoupled, After;
    if documents != [] {
      var front, last := documents[..|documents| - 1], documents[|documents| - 1];
      ExtractAllKeeps(s, wf, index, front);
      var mid := ExtractAll(s, wf, index, front, NO_STAMP);
      ExecKeepsStore(mid, ExtractRequest(wf, index, last, NO_STAMP));
      ExecKeepsCoupled(mid, ExtractRequest(wf, index, last, NO_STAMP));
    }
  }

  /** What a committed activity does to the queue entry of its case. */
  lemma ActivityQueue(s: Store, wf: WorkflowId, e: Execution, inputs: Inputs, after: Store)
    requires Ready(s, wf, e) && !e.Last().ExtractFacts? && Performed(s, wf, e, inputs, after)
    ensures wf.app in s.cases && wf.app in after.cases
    ensures var was, now := s.cases[wf.app].queue, after.cases[wf.app].queue;
            if e.Last().ApplyDecision? then
              var signal := e.Last().signal;
              && was.Some? && was.value.Pending?
              && now == Some(Decided(was.value.enteredAt, signal.decision, signal.reason, ReviewerOf(signal), inputs.stamp.now))
            else if after.cases[wf.app].row.status == AwaitingHumanReview then now == Some(Pending(inputs.stamp.now))
            else now == was
  {
    hide StoreOk, AllCoupled, ExecFits, Exec, After, KeyAt, RequestOf, FreshFrom, StatusFits;
    FitsKnown(s, wf, e);
    var index, a := |e.scheduled| - 1, e.Last();
    FreshHere(s, wf, index);
    SettledAttempt(s, wf, e, index);
    CaseFacts(s, wf);
    RequestFacts(s, wf, index, a, inputs);
    var r := RequestOf(s, wf, index, a, inputs);
    if a.VerifyFacts? {
      VerifyFitsVerification(a, s.cases[wf.app].row.status);
      QuietExact(s, r);
    } else {
      MoveExact(s, r);
      ScriptShape(r.command);
      DecisionFits(a, s.cases[wf.app], r.command);
      DecisionCommand(s, wf, index, a, inputs);
      hide ScriptOf, IsLegal;
      QueueOfScript(s, r, a, after);
    }
  }

  lemma DecisionFits(a: Activity, c: Case, command: Command)
    requires a.ApplyDecision? ==> StatusFits(a, false, c.row.status)
    requires Coupled(c)
    ensures a.ApplyDecision? ==> c.queue.Some? && c.queue.value.Pending?
  {
  }

  lemma DecisionCommand(s: Store, wf: WorkflowId, index: nat, a: Activity, inputs: Inputs)
    requires !a.ExtractFacts? && !a.VerifyFacts?
    ensures var c := RequestOf(s, wf, index, a, inputs).command;
            && (a.ApplyDecision? ==> c == Decide(a.signal.decision, a.signal.reason, ReviewerOf(a.signal)))
            && (!a.ApplyDecision? ==> !c.Decide? && !c.Submit? && !c.Resubmit?)
            && RequestOf(s, wf, index, a, inputs).stamp == inputs.stamp
            && RequestOf(s, wf, index, a, inputs).app == wf.app
  {
  }

  lemma QueueOfScript(s: Store, r: Request, a: Activity, after: Store)
    requires MovesCase(r.command) && MovesTo(s, r, ScriptOf(r.command), after)
    requires a.ApplyDecision? ==> r.command == Decide(a.signal.decision, a.signal.reason, ReviewerOf(a.signal))
    requires !a.ApplyDecision? ==> !r.command.Decide? && !r.command.Submit? && !r.command.Resubmit?
    ensures var was, now := s.cases[r.app].queue, after.cases[r.app].queue;
            if a.ApplyDecision? then
              was.Some? ==> now == Some(Decided(was.value.enteredAt, a.signal.decision, a.signal.reason,
                                                ReviewerOf(a.signal), r.stamp.now))
            else if after.cases[r.app].row.status == AwaitingHumanReview then now == Some(Pending(r.stamp.now))
            else now == was
  {
  }

  /** Everything a run meets: how each activity's attempts go, the signals that arrive before the wait
      and those that end it. No signal at all means the window expires. */
  datatype Environment = Environment(
    intake: seq<Try>, documents: seq<Try>, extraction: seq<PassTry>, verification: seq<Try>,
    escalation: seq<Try>, decision: seq<Try>, early: seq<Signal>, window: seq<Signal>)

  datatype RunError = UnsupportedStart | ActivityFailed

  /** The decision a run will apply: the last signal before the wait; without one, the last of those
      that end it; without any, the timeout's. */
  function DecisionOf(env: Environment): Signal
  {
    if env.early != [] then env.early[|env.early| - 1]
    else if env.window != [] then env.window[|env.window| - 1]
    else TIMEOUT
  }

  predicate AckedInTime(tries: seq<Try>)
  {
    exists i :: 0 <= i < |tries| && i < 5 && tries[i].fate.Acks?
  }

  /** All a run needs from its surroundings: every activity reports back within its attempts, the
      product stays in the catalog, and the decision is one of the four outcomes. */
  predicate Allows(env: Environment)
  {
    && AckedInTime(env.intake) && AckedInTime(env.documents) && PassInTime(env.extraction)
    && AckedInTime(env.verification) && AckedInTime(env.escalation) && AckedInTime(env.decision)
    && (forall i :: 0 <= i < |env.intake| ==> env.intake[i].inputs.catalog.Some?)
    && IsReviewOutcome(DecisionOf(env).decision)
  }

  ghost predicate OnPath(wf: WorkflowId, path: seq<Stage>, s: Store, e: Execution)
  {
    CleanPath(wf, path) && path[|path| - 1] == Stage(s, e)
  }

  ghost predicate Reached(s: Store, wf: WorkflowId, e: Execution)
  {
    && (e.phase.Running? ==> Ready(s, wf, e))
    && (e.phase.Waiting? ==> AtWait(s, wf, e))
  }

  /** What a reported activity leaves. */
  ghost predicate Reports(s: Store, wf: WorkflowId, e: Execution, reply: Reply, summary: string, after: Store)
  {
    && e.scheduled != []
    && wf.app in s.cases && wf.app in after.cases
    && Reached(after, wf, Completed(e, StatusOf(reply), summary))
    && var was, row := s.cases[wf.app].queue, after.cases[wf.app].row;
    && MovesOn(e.Last(), row.status)
    && (!e.Last().VerifyFacts? ==> reply == Reply(row.status, row.version))
    && if e.Last().ApplyDecision? then
         && row.workflow == None && was.Some?
         && RecordsDecision(after.cases[wf.app].queue, e.Last().signal)
       else row.workflow == Some(wf) && (row.status == AwaitingHumanReview || after.cases[wf.app].queue == was)
  }

  predicate RecordsDecision(queue: Option<QueueRow>, signal: Signal)
  {
    && queue.Some? && queue.value.Decided?
    && queue.value.decision == signal.decision && queue.value.reason == signal.reason
    && queue.value.reviewer == if signal.reviewer == "" then None else Some(signal.reviewer)
  }

  /** One activity of a run: under the retry policy, one clean step further, whatever happened to its
      attempts. */
  method Perform(db: Database, wf: WorkflowId, index: nat, a: Activity, tries: seq<Try>,
                 ghost e: Execution, ghost path: seq<Stage>)
    returns (result: Option<Reply>, summary: string, ghost longer: seq<Stage>)
    requires Ready(db.store, wf, e) && index == |e.scheduled| - 1 && a == e.Last() && !a.ExtractFacts?
    requires OnPath(wf, path, db.store, e)
    modifies db
    ensures result.Some? ==>
      && Reports(old(db.store), wf, e, result.value, summary, db.store)
      && OnPath(wf, longer, db.store, Completed(e, StatusOf(result.value), summary))
      && path < longer
    ensures Suffices(old(db.store), wf.app, a, tries) ==> result.Some?
  {
    hide Ready, Performed, RequestOf, Exec, AtWait, Suffices, CleanStep, Reached, MovesOn, CanCommit;
    ghost var s := db.store;
    var committed;
    result, committed := ExecuteActivity(db, wf, e, index, a, tries);
    summary, longer := "", path;
    if result.Some? {
      summary := committed.value.summary;
      ActivityCompletes(s, wf, e, committed.value, db.store, result.value);
      ActivityQueue(s, wf, e, committed.value, db.store);
      ghost var next := Completed(e, StatusOf(result.value), summary);
      assert Reached(db.store, wf, next) by { hide Completed; ReachedFrom(db.store, wf, next); }
      hide Completed;
      PathGrows(wf, path, Stage(db.store, next));
      longer := path + [Stage(db.store, next)];
    }
  }

  lemma ReachedFrom(s: Store, wf: WorkflowId, e: Execution)
    requires e.phase.Running? ==> Ready(s, wf, e)
    requires e.phase.Waiting? ==> AtWait(s, wf, e)
    ensures Reached(s, wf, e)
  {
    hide Ready, AtWait;
  }

  lemma TriesSuffice(s: Store, app: AppId, a: Activity, tries: seq<Try>)
    requires AckedInTime(tries)
    requires a.ValidateIntake? ==> forall i :: 0 <= i < |tries| ==> tries[i].inputs.catalog.Some?
    requires a.CheckDocuments? || a.EscalateForReview? ==> QueueOf(s, app).None?
    requires a.ApplyDecision? ==> IsReviewOutcome(a.signal.decision)
    requires !a.ExtractFacts?
    ensures Suffices(s, app, a, tries)
  {
  }

  lemma QueueRead(s: Store, app: AppId)
    requires app in s.cases
    ensures QueueOf(s, app) == s.cases[app].queue
  {
  }

  /** The run is on its clean path, about to perform `a`, and the case has got no queue entry on the
      way. */
  ghost predicate AboutTo(wf: WorkflowId, path: seq<Stage>, s: Store, e: Execution, index: nat, a: Activity, noQueue: bool)
  {
    && OnPath(wf, path, s, e) && Ready(s, wf, e)
    && index == |e.scheduled| - 1 && e.Last() == a
    && (noQueue ==> QueueOf(s, wf.app).None?)
  }

  ghost predicate InWait(wf: WorkflowId, path: seq<Stage>, s: Store, e: Execution, index: nat)
  {
    OnPath(wf, path, s, e) && AtWait(s, wf, e) && e.phase.Waiting? && index == |e.scheduled| - 1
  }

  /** Where a reported activity leads. */
  lemma Leads(s: Store, wf: WorkflowId, e: Execution, reply: Reply, summary: string, after: Store, path: seq<Stage>,
              index: nat, noQueue: bool)
    requires Reports(s, wf, e, reply, summary, after) && e.phase.Running? && index == |e.scheduled| - 1
    requires OnPath(wf, path, after, Completed(e, StatusOf(reply), summary))
    requires noQueue ==> QueueOf(s, wf.app).None?
    requires e.Last().ValidateIntake? || e.Last().CheckDocuments? || e.Last().VerifyFacts? || e.Last().EscalateForReview?
    ensures var next := Completed(e, StatusOf(reply), summary);
            var inReview := !e.Last().VerifyFacts? && StatusOf(reply) == AwaitingHumanReview;
            match e.Last()
            case ValidateIntake =>
              if inReview then InWait(wf, path, after, next, index)
              else AboutTo(wf, path, after, next, index + 1, CheckDocuments, noQueue)
            case CheckDocuments =>
              if inReview then InWait(wf, path, after, next, index)
              else next.Last().ExtractFacts? && AboutTo(wf, path, after, next, index + 1, ExtractFacts, noQueue)
            case VerifyFacts => AboutTo(wf, path, after, next, index + 1, EscalateForReview(summary), noQueue)
            case _ => InWait(wf, path, after, next, index)
  {
    hide Ready, AtWait, CleanPath;
    QueueRead(s, wf.app);
    QueueRead(after, wf.app);
  }

  /** An activity of a run before the wait. */
  method Advance(db: Database, wf: WorkflowId, index: nat, a: Activity, tries: seq<Try>,
                 ghost e: Execution, ghost path: seq<Stage>, ghost noQueue: bool)
    returns (result: Option<Reply>, summary: string, ghost next: Execution, ghost longer: seq<Stage>)
    requires AboutTo(wf, path, db.store, e, index, a, noQueue)
    requires a.ValidateIntake? || a.CheckDocuments? || a.VerifyFacts? || a.EscalateForReview?
    modifies db
    ensures result.Some? ==>
      && path < longer
      && var inReview := a.EscalateForReview? || (!a.VerifyFacts? && StatusOf(result.value) == AwaitingHumanReview);
      if inReview then InWait(wf, longer, db.store, next, index)
      else AboutTo(wf, longer, db.store, next, index + 1,
                   match a case ValidateIntake => CheckDocuments case CheckDocuments => ExtractFacts
                           case _ => EscalateForReview(summary), noQueue)
    ensures AckedInTime(tries) && noQueue
            && (a.ValidateIntake? ==> forall i :: 0 <= i < |tries| ==> tries[i].inputs.catalog.Some?)
            ==> result.Some?
  {
    hide Ready, AtWait, CleanPath, Reached, Suffices, MovesOn, AckedInTime, CanCommit;
    ghost var s := db.store;
    if AckedInTime(tries) && noQueue
       && (a.ValidateIntake? ==> forall i :: 0 <= i < |tries| ==> tries[i].inputs.catalog.Some?) {
      TriesSuffice(s, wf.app, a, tries);
    }
    ReadyRuns(s, wf, e);
    next := e;
    result, summary, longer := Perform(db, wf, index, a, tries, e, path);
    if result.Some? {
      ReportsFacts(s, wf, e, result.value, summary, db.store);
      next := Completed(e, StatusOf(result.value), summary);
      hide Reports, AboutTo, InWait;
      Leads(s, wf, e, result.value, summary, db.store, longer, index, noQueue);
    }
  }

  lemma ReadyRuns(s: Store, wf: WorkflowId, e: Execution)
    requires Ready(s, wf, e)
    ensures e.phase.Running? && e.scheduled != []
  {
  }

  lemma ReportsFacts(s: Store, wf: WorkflowId, e: Execution, reply: Reply, summary: string, after: Store)
    requires Reports(s, wf, e, reply, summary, after)
    ensures e.scheduled != []
  {
  }

  class ApplicationWorkflow {
    var decision: Option<Signal>

    constructor ()
      ensures decision == None
    {
      decision := None;
    }

    /** A signal overwrites whatever was signalled before. */
    method SubmitReviewDecision(signal: Signal)
      modifies this
      ensures decision == Some(signal)
    {
      decision := Some(signal);
    }

    method SubmitAll(signals: seq<Signal>)
      modifies this
      ensures decision == if signals == [] then old(decision) else Some(signals[|signals| - 1])
    {
      var i := 0;
      while i < |signals|
        invariant 0 <= i <= |signals|
        invariant decision == if i == 0 then old(decision) else Some(signals[i - 1])
      {
        SubmitReviewDecision(signals[i]);
        i := i + 1;
      }
    }

    /** The automated part of a run: from either starting status to the wait for a decision. */
    method RunToReview(db: Database, wf: WorkflowId, startingStatus: Status, env: Environment)
      returns (index: Option<nat>, ghost e: Execution, ghost path: seq<Stage>)
      requires startingStatus == Submitted || startingStatus == DocumentProcessing
      requires Ready(db.store, wf, Started(startingStatus))
      modifies db
      ensures index.Some? ==>
        && path != [] && path[0] == Stage(old(db.store), Started(startingStatus))
        && InWait(wf, path, db.store, e, index.value)
      ensures Allows(env) && QueueOf(old(db.store), wf.app).None? ==> index.Some?
    {
      hide Ready, InWait, CleanPath, AckedInTime, Reports, AtWait, DecisionOf, IsReviewOutcome;
      ghost var noQueue := QueueOf(db.store, wf.app).None?;
      var next := 0;
      var reachedHumanReview := false;
      e := Started(startingStatus);
      path := [Stage(db.store, e)];
      assert CleanPath(wf, path) by { SinglePath(wf, path[0]); }
      if startingStatus == Submitted {
        var intake, _, now, longer := Advance(db, wf, next, ValidateIntake, env.intake, e, path, noQueue);
        if intake.None? {
          return None, e, path;
        }
        e, path := now, longer;
        reachedHumanReview := StatusOf(intake.value) == AwaitingHumanReview;
        next := if reachedHumanReview then next else next + 1;
      }
      assert if reachedHumanReview then InWait(wf, path, db.store, e, next)
             else AboutTo(wf, path, db.store, e, next, CheckDocuments, noQueue);
      assert path[0] == Stage(old(db.store), Started(startingStatus));
      hide AboutTo;
      if !reachedHumanReview {
        var document, _, now, longer := Advance(db, wf, next, CheckDocuments, env.documents, e, path, noQueue);
        if document.None? {
          return None, e, path;
        }
        e, path := now, longer;
        reachedHumanReview := StatusOf(document.value) == AwaitingHumanReview;
        next := if reachedHumanReview then next else next + 1;
      }
      if !reachedHumanReview {
        var reached, now, longer := RunEvidence(db, wf, next, env, e, path, noQueue);
        if reached.None? {
          return None, e, path;
        }
        e, path := now, longer;
        next := reached.value;
      }
      return Some(next), e, path;
    }

    /** A whole run. Whatever its attempts, passes and signals did, when it returns a result the case has
        taken a clean path, one on which every activity was performed by exactly one attempt: it waited
        in review, and ended in the decided status, detached, the decision on record. It does return
        one, from either starting status, when its surroundings allow it and the case had no queue
        entry. */
    method Run(db: Database, wf: WorkflowId, startingStatus: Status, env: Environment)
      returns (result: Result<Reply, RunError>, ghost path: seq<Stage>)
      requires decision == None
      requires startingStatus == Submitted || startingStatus == DocumentProcessing ==>
                 Ready(db.store, wf, Started(startingStatus))
      modifies this, db
      ensures result == Err(UnsupportedStart) <==> startingStatus != Submitted && startingStatus != DocumentProcessing
      ensures result == Err(UnsupportedStart) ==> db.store == old(db.store)
      ensures result.Ok? ==>
        && CleanPath(wf, path) && path[0] == Stage(old(db.store), Started(startingStatus))
        && path[|path| - 1].store == db.store && path[|path| - 1].exec.phase.Finished?
        && (exists i :: 0 <= i < |path| && AtWait(path[i].store, wf, path[i].exec))
        && EndsDecided(db.store, wf.app, DecisionOf(env), result.value)
      ensures (startingStatus == Submitted || startingStatus == DocumentProcessing)
              && Allows(env) && QueueOf(old(db.store), wf.app).None?
              ==> result.Ok?
    {
      hide Ready, InWait, CleanPath, AckedInTime, Reports, AtWait, AboutTo;
      path := [];
      if startingStatus != Submitted && startingStatus != DocumentProcessing {
        return Err(UnsupportedStart), path;
      }
      SubmitAll(env.early);
      ghost var e;
      var index;
      index, e, path := RunToReview(db, wf, startingStatus, env);
      if index.None? {
        return Err(ActivityFailed), path;
      }
      if decision.None? {
        SubmitAll(env.window);
      }
      var chosen := if decision.Some? then decision.value else TIMEOUT;
      assert chosen == DecisionOf(env);
      ghost var waited := path;
      WaitEnds(wf, path, db.store, e, index.value, chosen);
      e := Schedule(e, ApplyDecision(chosen));
      path := path + [Stage(db.store, e)];
      ghost var s := db.store;
      if AckedInTime(env.decision) && IsReviewOutcome(chosen.decision) {
        TriesSuffice(s, wf.app, ApplyDecision(chosen), env.decision);
      }
      hide Suffices;
      var final, summary, longer := Perform(db, wf, index.value + 1, ApplyDecision(chosen), env.decision, e, path);
      if final.None? {
        return Err(ActivityFailed), path;
      }
      DecisionStands(s, wf, e, final.value, summary, db.store, chosen);
      WaitIsOnPath(wf, waited, e, longer);
      path := longer;
      return Ok(final.value), path;
    }
  }

  /** The case as a finished run leaves it. */
  ghost predicate EndsDecided(s: Store, app: AppId, signal: Signal, reply: Reply)
  {
    && app in s.cases
    && s.cases[app].row.status == signal.decision && IsReviewOutcome(signal.decision)
    && s.cases[app].row.workflow == None
    && RecordsDecision(s.cases[app].queue, signal)
    && reply == Reply(signal.decision, s.cases[app].row.version)
  }

  lemma WaitEnds(wf: WorkflowId, path: seq<Stage>, s: Store, e: Execution, index: nat, signal: Signal)
    requires InWait(wf, path, s, e, index)
    ensures var next := Schedule(e, ApplyDecision(signal));
            && OnPath(wf, path + [Stage(s, next)], s, next)
            && Ready(s, wf, next) && |next.scheduled| == index + 2
            && next.Last() == ApplyDecision(signal)
            && AtWait(path[|path| - 1].store, wf, path[|path| - 1].exec)
  {
    hide StoreOk, AllCoupled, KeyAt, ExecFits, FreshFrom, CleanPath;
    var next := Schedule(e, ApplyDecision(signal));
    FitsKnown(s, wf, e);
    FreshHere(s, wf, |e.scheduled|);
    WaitingFits(s, wf, e, signal);
    assert CleanStep(wf, Stage(s, e), Stage(s, next));
    PathGrows(wf, path, Stage(s, next));
  }

  lemma DecisionStands(s: Store, wf: WorkflowId, e: Execution, reply: Reply, summary: string, after: Store, signal: Signal)
    requires Reports(s, wf, e, reply, summary, after) && e.Last() == ApplyDecision(signal)
    ensures EndsDecided(after, wf.app, signal, reply)
    ensures Completed(e, StatusOf(reply), summary).phase.Finished?
  {
    hide Reached;
  }

  lemma WaitIsOnPath(wf: WorkflowId, waited: seq<Stage>, e: Execution, longer: seq<Stage>)
    requires waited != [] && AtWait(waited[|waited| - 1].store, wf, waited[|waited| - 1].exec)
    requires waited <= longer
    ensures exists i :: 0 <= i < |longer| && AtWait(longer[i].store, wf, longer[i].exec)
  {
    hide AtWait;
    assert longer[|waited| - 1] == waited[|waited| - 1];
  }

  /** Extraction, verification, escalation. */
  method RunEvidence(db: Database, wf: WorkflowId, index: nat, env: Environment,
                     ghost e: Execution, ghost path: seq<Stage>, ghost noQueue: bool)
    returns (reached: Option<nat>, ghost last: Execution, ghost longer: seq<Stage>)
    requires AboutTo(wf, path, db.store, e, index, ExtractFacts, noQueue)
    modifies db
    ensures reached.Some? ==> path < longer && InWait(wf, longer, db.store, last, reached.value)
    ensures Allows(env) && noQueue ==> reached.Some?
  {
    hide Ready, InWait, CleanPath, AckedInTime, PassInTime, DecisionOf, IsReviewOutcome, AtWait;
    last, longer := e, path;
    ghost var s := db.store;
    var extracted := ExecuteExtraction(db, wf, index, env.extraction);
    if !extracted {
      return None, e, path;
    }
    ExtractionLeads(wf, path, s, e, index, noQueue, db.store);
    last := Completed(e, Verification, "");
    longer := path + [Stage(db.store, last)];
    hide AboutTo;
    var verified, summary, now, grown := Advance(db, wf, index + 1, VerifyFacts, env.verification, last, longer, noQueue);
    if verified.None? {
      return None, e, path;
    }
    var escalated, _, atWait, whole :=
      Advance(db, wf, index + 2, EscalateForReview(summary), env.escalation, now, grown, noQueue);
    if escalated.None? {
      return None, e, path;
    }
    return Some(index + 2), atWait, whole;
  }

  lemma SinglePath(wf: WorkflowId, stage: Stage)
    ensures CleanPath(wf, [stage])
  {
  }

  lemma ExtractionLeads(wf: WorkflowId, path: seq<Stage>, s: Store, e: Execution, index: nat, noQueue: bool, after: Store)
    requires AboutTo(wf, path, s, e, index, ExtractFacts, noQueue)
    requires after == ExtractAll(s, wf, index, DocumentsOf(s, wf.tenant, wf.app), NO_STAMP)
    ensures var next := Completed(e, Verification, "");
            AboutTo(wf, path + [Stage(after, next)], after, next, index + 1, VerifyFacts, noQueue)
  {
    hide ExtractAll, CleanStep, Ready, CleanPath;
    ReadyRuns(s, wf, e);
    ExtractionCompletes(s, wf, e, after);
    PathGrows(wf, path, Stage(after, Completed(e, Verification, "")));
  }

  /** In every reachable state of the protocol, an execution that has been asked for and not started
      yet can start: its case is in its starting status, and no key of its name has been used. */
  lemma StartIsReady(events: seq<Event>, wf: WorkflowId)
    requires wf in RunWorld(events).startable && wf !in RunWorld(events).execs
    ensures var w := RunWorld(events);
            && (w.startable[wf] == Submitted || w.startable[wf] == DocumentProcessing)
            && Ready(w.store, wf, Started(w.startable[wf]))
  {
    hide BaseOk, Next, RunWorld, KeyAt, StatusFits;
    var w := RunWorld(events);
    EveryRunIsBaseOk(events);
    BaseParts(w);
    assert StartFits(w.store, wf, w.startable[wf]);
    forall i: nat, a ensures KeyAt(wf, i, a) !in w.store.keys {
      FreeKeys(w, wf, i, a);
    }
    hide StoreOk, AllCoupled, KeysOwned, ExecsFit;
    StartedFits(w.store, wf, w.startable[wf]);
  }

  lemma StartedFits(s: Store, wf: WorkflowId, startingStatus: Status)
    requires StartFits(s, wf, startingStatus)
    requires forall i: nat, a :: KeyAt(wf, i, a) !in s.keys
    ensures ExecFits(s, wf, Started(startingStatus))
  {
    hide KeyAt;
  }
}
