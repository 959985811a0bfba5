/** Interleavings position by position: which steps of a schedule make a document gate act on a count
    that is no longer right, and which make a tenant's audit chain fork. */
module Schedules {
  import opened Prelude
  import opened CaseStatus
  import opened Applications
  import opened EventMapping
  import opened Audit
  import opened Store
  import opened StoreInvariants
  import opened Interleaving
  import opened Coupling
  import Decimal

  // ---- Positions --------------------------------------------------------------------------------

  /** The system before step `k` of a schedule. */
  ghost function At(steps: seq<Step>, k: nat): Sys
    requires k <= |steps|
  {
    RunSteps(steps[..k])
  }

  lemma AtNext(steps: seq<Step>, k: nat)
    requires k < |steps|
    ensures At(steps, k + 1) == Next(At(steps, k), steps[k])
  {
    assert steps[..k + 1][..k] == steps[..k];
  }

  lemma AtOk(steps: seq<Step>, k: nat)
    requires k <= |steps|
    ensures SysOk(At(steps, k))
  {
    hide SysOk, Similar;
    EveryInterleavingIsSerialAsCounted(steps[..k]);
  }

  /** Positions of a shorter schedule are those of the longer one. */
  lemma AtFront(steps: seq<Step>, k: nat)
    requires steps != [] && k <= |steps| - 1
    ensures At(steps[..|steps| - 1], k) == At(steps, k)
  {
    assert steps[..|steps| - 1][..k] == steps[..k];
  }

  /** The request step `k` commits, if it commits one. */
  ghost function CommitsAt(steps: seq<Step>, k: nat): Option<Request>
    requires k < |steps|
  {
    CommittedBy(At(steps, k), steps[k])
  }

  /** Step `p` plans, and so, for a document gate, counts, and step `c` commits that very transaction. */
  ghost predicate PlansAndCommits(steps: seq<Step>, p: nat, c: nat, id: nat)
  {
    && p < c < |steps| && steps[p] == PlanWrites(id) && steps[c] == Commit(id) && CommitsAt(steps, c).Some?
    && id in At(steps, p).txns && At(steps, p).txns[id].Loaded?
    && forall m :: p < m <= c ==> HasPlanned(At(steps, m), id, At(steps, p).txns[id].r)
  }

  predicate HasPlanned(sys: Sys, id: nat, r: Request)
  {
    id in sys.txns && (sys.txns[id].Planned? || sys.txns[id].Ready?) && sys.txns[id].r == r
  }

  /** Step `i` records a transaction's events against the checkpoint of that moment, and step `c`
      commits that very transaction. */
  ghost predicate RecordsAndCommits(steps: seq<Step>, i: nat, c: nat, id: nat)
  {
    && i < c < |steps| && steps[i] == RecordEvents(id) && steps[c] == Commit(id) && CommitsAt(steps, c).Some?
    && id in At(steps, i).txns && At(steps, i).txns[id].Planned?
    && forall m :: i < m <= c ==> IsReady(At(steps, m), id)
  }

  predicate IsReady(sys: Sys, id: nat)
  {
    id in sys.txns && sys.txns[id].Ready?
  }

  // ---- What one step does to one transaction ----------------------------------------------------

  lemma PlannedStep(sys: Sys, step: Step, id: nat)
    requires id in Next(sys, step).txns && !Next(sys, step).txns[id].Begun? && !Next(sys, step).txns[id].Loaded?
    ensures var r := Next(sys, step).txns[id].r;
            || HasPlanned(sys, id, r)
            || (step == PlanWrites(id) && id in sys.txns && sys.txns[id].Loaded? && sys.txns[id].r == r
                && CountsDocuments(sys.store, r))
  {
    hide Reserve, Load, Plan, Conflicts, Apply, Recorded;
  }

  lemma ReadyStep(sys: Sys, step: Step, id: nat)
    requires IsReady(Next(sys, step), id)
    ensures var t := Next(sys, step).txns[id];
            if IsReady(sys, id) then sys.txns[id] == t
            else step == RecordEvents(id) && id in sys.txns && sys.txns[id].Planned?
                 && t == Ready(sys.txns[id].r, sys.txns[id].row, sys.txns[id].w, LatestHash(LogOf(sys.store, t.r.tenant)))
  {
    hide Reserve, Load, Plan, Conflicts, Apply, Recorded;
  }

  /** Every planned transaction was planned by some step, and has been in flight since. */
  lemma {:induction false} PlanPosition(steps: seq<Step>, id: nat) returns (p: nat)
    requires id in RunSteps(steps).txns && !RunSteps(steps).txns[id].Begun? && !RunSteps(steps).txns[id].Loaded?
    ensures p < |steps| && steps[p] == PlanWrites(id)
    ensures var r := RunSteps(steps).txns[id].r;
            && id in At(steps, p).txns && At(steps, p).txns[id].Loaded? && At(steps, p).txns[id].r == r
            && CountsDocuments(At(steps, p).store, r)
            && forall m :: p < m <= |steps| ==> HasPlanned(At(steps, m), id, r)
  {
    var n := |steps| - 1;
    var front := steps[..n];
    assert steps[..|steps|] == steps;
    PlannedStep(RunSteps(front), steps[n], id);
    hide Next, CountsDocuments;
    if HasPlanned(RunSteps(front), id, RunSteps(steps).txns[id].r) {
      p := PlanPosition(front, id);
      AtFront(steps, p);
      forall m | p < m <= |steps| ensures HasPlanned(At(steps, m), id, RunSteps(steps).txns[id].r) {
        if m <= n {
          AtFront(steps, m);
        }
      }
    } else {
      p := n;
    }
  }

  lemma {:induction false} RecordPosition(steps: seq<Step>, id: nat) returns (i: nat)
    requires IsReady(RunSteps(steps), id)
    ensures i < |steps| && steps[i] == RecordEvents(id)
    ensures id in At(steps, i).txns && At(steps, i).txns[id].Planned?
    ensures forall m :: i < m <= |steps| ==> IsReady(At(steps, m), id)
  {
    var n := |steps| - 1;
    var front := steps[..n];
    assert steps[..|steps|] == steps;
    ReadyStep(RunSteps(front), steps[n], id);
    hide Next;
    if IsReady(RunSteps(front), id) {
      i := RecordPosition(front, id);
      AtFront(steps, i);
      forall m | i < m <= |steps| ensures IsReady(At(steps, m), id) {
        if m <= n {
          AtFront(steps, m);
        }
      }
    } else {
      i := n;
    }
  }

  /** From its recording on, a transaction does not change. */
  lemma {:induction false} SeenSince(steps: seq<Step>, i: nat, m: nat, id: nat)
    requires i < m <= |steps| && steps[i] == RecordEvents(id)
    requires id in At(steps, i).txns && At(steps, i).txns[id].Planned?
    requires forall k :: i < k <= m ==> IsReady(At(steps, k), id)
    ensures IsReady(At(steps, m), id)
    ensures var t := At(steps, m).txns[id];
            && t.r == At(steps, i).txns[id].r
            && t.seen == LatestHash(LogOf(At(steps, i).store, t.r.tenant))
  {
    hide Next;
    AtNext(steps, m - 1);
    ReadyStep(At(steps, m - 1), steps[m - 1], id);
    if m > i + 1 {
      SeenSince(steps, i, m - 1, id);
    }
  }

  // ---- What grows between two positions ---------------------------------------------------------

  /** Step `k` commits an upload to the case. */
  ghost predicate UploadsAt(steps: seq<Step>, k: nat, app: AppId)
    requires k < |steps|
  {
    CommitsAt(steps, k).Some? && CommitsAt(steps, k).value.command.Upload? && CommitsAt(steps, k).value.app == app
  }

  /** Step `k` commits events of the tenant. */
  ghost predicate CommitsEvents(steps: seq<Step>, k: nat, tenant: TenantId)
    requires k < |steps|
  {
    CommitsAt(steps, k).Some? && StepsTxn(steps, k).r.tenant == tenant && StepsTxn(steps, k).w.events != []
  }

  ghost function StepsTxn(steps: seq<Step>, k: nat): (t: Txn)
    requires k < |steps| && CommitsAt(steps, k).Some?
    ensures t.Ready? && t.r == CommitsAt(steps, k).value
  {
    At(steps, k).txns[steps[k].id]
  }

  /** What a plan adds to the case's files: an upload, its document. */
  lemma PlanFiles(r: Request, row: Option<AppRow>, queue: Option<QueueRow>, w: Writes)
    requires CanPlan(r, row) && Plan(r, row, queue) == Ok(w)
    ensures w.files.documents == if r.command.Upload? then [r.command.document] else []
  {
    hide ScriptOf, MoveThrough;
  }

  /** A transaction that can commit still has the plan it would make now. */
  lemma CommittedPlan(s: Store, t: Txn)
    requires CasesOk(s) && LogsShaped(s) && t.Ready? && Tracks(s, t)
    requires !Conflicts(s, Recorded(t.w, t.seen))
    ensures CanPlan(t.r, t.row) && Plan(t.r, t.row, QueueOf(s, t.r.app)) == Ok(t.w)
    ensures t.w.app == t.r.app && t.w.tenant == t.r.tenant
  {
    if MovesCase(t.r.command) && Stale(s, t.r, t.row) {
      StaleMoveConflicts(s, t.r, t.row, t.w);
      assert false;
    }
    hide Plan, Conflicts;
  }

  lemma AppliedDocuments(s: Store, w: Writes, app: AppId)
    ensures FilesOf(Apply(s, w), app).documents ==
              if app == w.app then FilesOf(s, app).documents + w.files.documents else FilesOf(s, app).documents
  {
  }

  lemma DocumentsStep(sys: Sys, step: Step, app: AppId)
    requires SysOk(sys)
    ensures var r := CommittedBy(sys, step);
            FilesOf(Next(sys, step).store, app).documents ==
              FilesOf(sys.store, app).documents
              + if r.Some? && r.value.command.Upload? && r.value.app == app then [r.value.command.document] else []
  {
    hide CasesOk, LogsShaped, Tracks, Reserve, Load, Plan, Conflicts, Apply, FilesOf, BatchRows;
    if CommittedBy(sys, step).Some? {
      var t := sys.txns[step.id];
      assert Tracks(sys.store, t);
      CommittedPlan(sys.store, t);
      PlanFiles(t.r, t.row, QueueOf(sys.store, t.r.app), t.w);
      AppliedDocuments(sys.store, Recorded(t.w, t.seen), app);
    }
  }

  ghost predicate FirstUploadAt(steps: seq<Step>, k: nat, app: AppId)
    requires k < |steps|
  {
    UploadsAt(steps, k, app) && FilesOf(At(steps, k).store, app).documents == []
  }

  /** The documents of a case change between two positions if and only if an upload commits there. */
  lemma {:induction false} DocumentsBetween(steps: seq<Step>, p: nat, c: nat, app: AppId)
    requires p <= c <= |steps|
    ensures |FilesOf(At(steps, p).store, app).documents| <= |FilesOf(At(steps, c).store, app).documents|
    ensures |FilesOf(At(steps, p).store, app).documents| < |FilesOf(At(steps, c).store, app).documents|
            <==> exists u :: p <= u < c && UploadsAt(steps, u, app)
    ensures FilesOf(At(steps, p).store, app).documents == [] && FilesOf(At(steps, c).store, app).documents != []
            <==> exists u :: p <= u < c && FirstUploadAt(steps, u, app)
  {
    hide SysOk, Next, At, FilesOf, CommittedBy;
    if p < c {
      DocumentsBetween(steps, p, c - 1, app);
      AtOk(steps, c - 1);
      AtNext(steps, c - 1);
      DocumentsStep(At(steps, c - 1), steps[c - 1], app);
      if FirstUploadAt(steps, c - 1, app) {
        assert p <= c - 1 < c;
      }
      if UploadsAt(steps, c - 1, app) {
        assert p <= c - 1 < c;
      }
    }
  }

  // ---- The document gate ------------------------------------------------------------------------

  /** A request as the program would make it now: a document gate counts the documents there are. */
  function Recounted(s: Store, r: Request): Request
  {
    if r.command.AdvanceDocuments? then r.(command := AdvanceDocuments(|FilesOf(s, r.app).documents|)) else r
  }

  /** What a committed gate leaves, by what it counted. */
  ghost predicate GateLeaves(s: Store, r: Request, after: Store)
    requires r.command.AdvanceDocuments? && r.app in s.cases
  {
    var row, hop := s.cases[r.app].row, ScriptOf(r.command).first;
    var moved := row.(status := hop.target, version := row.version + 1, updatedAt := r.stamp.now);
    && after.cases == s.cases[r.app := Case(moved,
         s.cases[r.app].snapshots + map[row.version + 1 := Snapshot(hop.target, r.stamp.now)],
         if hop.target == Verification then s.cases[r.app].queue else Some(Pending(r.stamp.now)))]
    && after.keys == s.keys + {KeyOf(r)}
    && (forall app :: FilesOf(after, app) == FilesOf(s, app))
    && after.outbox == s.outbox + [GateRow(r, row)]
    && after.files.Keys == s.files.Keys + {r.app}
    && (forall t :: LogOf(after, t).checkpoint.Some? <==> t == r.tenant || LogOf(s, t).checkpoint.Some?)
  }

  function GateRow(r: Request, row: AppRow): OutboxRow
    requires r.command.AdvanceDocuments?
  {
    var hop := ScriptOf(r.command).first;
    RowOf(ApplicationStateChanged(row.app, row.tenant, r.stamp.now, row.status, hop.target, hop.reason, row.version + 1),
          r.stamp.firstId)
  }

  /** A script of one hop. */
  lemma OneHop(row: AppRow, script: Script, now: Time, m: Moved)
    requires script.second.None? && MoveThrough(row, script, now) == Ok(m)
    ensures var hop := script.first;
            && m.aggregate.row == row.(status := hop.target, version := row.version + 1, updatedAt := now)
            && m.aggregate.pending == [ApplicationStateChanged(row.app, row.tenant, now, row.status, hop.target, hop.reason,
                                                               row.version + 1)]
            && m.snapshots == map[row.version + 1 := Snapshot(hop.target, now)]
  {
    hide IsLegal;
  }

  lemma GateScript(r: Request)
    requires r.command.AdvanceDocuments?
    ensures var script := ScriptOf(r.command);
            && script.second.None? && script.workflow.KeepWorkflow?
            && script.queue == if script.first.target == Verification then KeepQueue else Enqueue
  {
    hide Decimal.Show;
  }

  /** What a gate plans. */
  lemma GatePlan(r: Request, row: AppRow, queue: Option<QueueRow>, w: Writes)
    requires r.command.AdvanceDocuments? && Plan(r, Some(row), queue) == Ok(w)
    ensures var hop := ScriptOf(r.command).first;
            && w.tenant == r.tenant && w.app == r.app && w.keys == {KeyOf(r)}
            && w.row == RowUpdate(row.(status := hop.target, version := row.version + 1, updatedAt := r.stamp.now))
            && w.snapshots == map[row.version + 1 := Snapshot(hop.target, r.stamp.now)]
            && w.queue == (if hop.target == Verification then QueueUntouched else QueueInsert(Pending(r.stamp.now)))
            && w.files == Files([], [], []) && w.events == [GateRow(r, row)]
  {
    hide KeyOf, ScriptOf, MoveThrough, EventToRecord;
    GateScript(r);
    OneHop(row, ScriptOf(r.command), r.stamp.now, MoveThrough(row, ScriptOf(r.command), r.stamp.now).value);
  }

  lemma GateApplied(s: Store, r: Request, w: Writes)
    requires r.command.AdvanceDocuments? && r.app in s.cases
    requires Plan(r, Some(s.cases[r.app].row), QueueOf(s, r.app)) == Ok(w)
    ensures GateLeaves(s, r, Apply(s, Recorded(w, LatestHash(LogOf(s, r.tenant)))))
  {
    hide Plan, ScriptOf, BatchRows, KeyOf, GateRow, Append;
    GatePlan(r, s.cases[r.app].row, QueueOf(s, r.app), w);
    AppliedTables(s, w, LatestHash(LogOf(s, r.tenant)));
    AppendShape(LogOf(s, r.tenant), LatestHash(LogOf(s, r.tenant)), w.events);
  }

  lemma GateExact(s: Store, r: Request)
    requires r.command.AdvanceDocuments? && Exec(s, r).Ok?
    ensures r.app in s.cases && GateLeaves(s, r, After(s, r))
  {
    hide Plan, Conflicts, Apply, Recorded, GateLeaves;
    GateApplied(s, r, Plan(r, Some(s.cases[r.app].row), QueueOf(s, r.app)).value);
  }

  lemma GateRowsDiffer(r: Request, q: Request, row: AppRow)
    requires r.command.AdvanceDocuments? && q.command.AdvanceDocuments?
    requires r.command.documentCount < q.command.documentCount
    ensures GateRow(r, row) != GateRow(q, row)
  {
    hide Decimal.Show;
    var n, m := r.command.documentCount, q.command.documentCount;
    var a, b := GateRow(r, row).payload, GateRow(q, row).payload;
    if n == 0 {
      assert a["new_status"] == Text("AWAITING_HUMAN_REVIEW") && b["new_status"] == Text("VERIFICATION");
    } else {
      var x, y := Decimal.Show(n) + " document(s) present", Decimal.Show(m) + " document(s) present";
      assert a["reason"] == Text(x) && b["reason"] == Text(y);
      if x == y {
        assert |Decimal.Show(n)| == |Decimal.Show(m)|;
        assert x[..|Decimal.Show(n)|] == Decimal.Show(n) && y[..|Decimal.Show(m)|] == Decimal.Show(m);
        Decimal.ShowInjective(n, m);
      }
    }
  }

  /** Two gates that both found documents commit together. */
  lemma PositiveGatesAgree(s: Store, r: Request, q: Request)
    requires r.command.AdvanceDocuments? && q.command.AdvanceDocuments? && q == r.(command := AdvanceDocuments(q.command.documentCount))
    requires r.command.documentCount >= 1 && q.command.documentCount >= 1 && Exec(s, r).Ok?
    ensures Exec(s, q).Ok?
  {
    hide IsLegal, Decimal.Show, Name, BatchRows, KeyOf;
    assert KeyOf(r) == KeyOf(q) by { SameKey(r, q); }
    var row := s.cases[r.app].row;
    var v, w := Plan(r, Some(row), QueueOf(s, r.app)).value, Plan(q, Some(row), QueueOf(s, q.app)).value;
    GatePlan(r, row, QueueOf(s, r.app), v);
    GatePlan(q, row, QueueOf(s, q.app), w);
    hide Plan;
    assert SnapshotConflict(CaseOf(s, r.app), v) <==> SnapshotConflict(CaseOf(s, r.app), w);
  }

  lemma SameKey(r: Request, q: Request)
    requires r.command.AdvanceDocuments? && q.command.AdvanceDocuments? && q == r.(command := AdvanceDocuments(q.command.documentCount))
    ensures KeyOf(r) == KeyOf(q)
  {
  }

  /** `b` has fewer rows than `a`, or another one somewhere. */
  ghost predicate Diverged(a: seq<OutboxRow>, b: seq<OutboxRow>)
  {
    |b| < |a| || exists i :: 0 <= i < |a| && i < |b| && a[i] != b[i]
  }

  /** A gate that counted fewer documents than there are, against the gate run now: the outbox always
      tells them apart, the case only when the gate had counted none. */
  lemma RecountDiffers(s: Store, r: Request)
    requires r.command.AdvanceDocuments? && Exec(s, r).Ok?
    requires r.command.documentCount < |FilesOf(s, r.app).documents|
    ensures Diverged(After(s, r).outbox, After(s, Recounted(s, r)).outbox)
    ensures After(s, r).cases == After(s, Recounted(s, r)).cases <==> r.command.documentCount > 0
  {
    hide Exec, ScriptOf, GateRow, FilesOf;
    var q := Recounted(s, r);
    GateExact(s, r);
    var row := s.cases[r.app].row;
    GateRowsDiffer(r, q, row);
    if r.command.documentCount > 0 {
      PositiveGatesAgree(s, r, q);
    }
    GateTargets(r);
    GateTargets(q);
    assert After(s, r).cases[r.app].row.version == row.version + 1;
    if Exec(s, q).Ok? {
      GateExact(s, q);
      var i := |s.outbox|;
      assert After(s, r).outbox[i] != After(s, q).outbox[i];
    }
  }

  lemma GateTargets(r: Request)
    requires r.command.AdvanceDocuments?
    ensures ScriptOf(r.command).first.target == if r.command.documentCount >= 1 then Verification else AwaitingHumanReview
  {
    hide Decimal.Show;
  }

  /** What a committing gate counted is what there is now, if and only if no upload of its case came
      between its count and its commit; it has missed the first document if and only if the first
      upload did. */
  lemma GateCounted(steps: seq<Step>, p: nat, c: nat, id: nat)
    requires PlansAndCommits(steps, p, c, id) && CommitsAt(steps, c).value.command.AdvanceDocuments?
    ensures At(steps, p).txns[id].r == CommitsAt(steps, c).value
    ensures var r, all := CommitsAt(steps, c).value, |FilesOf(At(steps, c).store, CommitsAt(steps, c).value.app).documents|;
            && r.command.documentCount <= all
            && (r.command.documentCount < all <==> exists u :: p < u < c && UploadsAt(steps, u, r.app))
            && (r.command.documentCount == 0 && all > 0 <==> exists u :: p < u < c && FirstUploadAt(steps, u, r.app))
  {
    hide Next, At, FilesOf, SysOk;
    var r := CommitsAt(steps, c).value;
    assert HasPlanned(At(steps, c), id, At(steps, p).txns[id].r);
    PlannedNow(steps, p, id, r);
    DocumentsBetween(steps, p, c, r.app);
    assert CommitsAt(steps, p).None?;
  }

  lemma PlannedNow(steps: seq<Step>, p: nat, id: nat, r: Request)
    requires p < |steps| && steps[p] == PlanWrites(id)
    requires id in At(steps, p).txns && At(steps, p).txns[id].Loaded? && At(steps, p).txns[id].r == r
    requires HasPlanned(At(steps, p + 1), id, r)
    ensures CountsDocuments(At(steps, p).store, r)
  {
    hide At;
    AtNext(steps, p);
    PlannedStep(At(steps, p), steps[p], id);
  }

  /** The document gate under interleaving, exactly. A gate's commit leaves what the gate would leave if
      it were run at that moment, in every table but the audit log, if and only if no upload of its case
      committed between its count and its commit; its case goes the same way if and only if no first
      upload did. Nothing detects the skew: an upload changes neither row nor version. */
  lemma GateCommitIsSerialIff(steps: seq<Step>, p: nat, c: nat, id: nat)
    requires PlansAndCommits(steps, p, c, id) && CommitsAt(steps, c).value.command.AdvanceDocuments?
    ensures var s, r := At(steps, c).store, CommitsAt(steps, c).value;
            var now := After(s, Recounted(s, r));
            && (Similar(At(steps, c + 1).store, now) <==> !exists u :: p < u < c && UploadsAt(steps, u, r.app))
            && (At(steps, c + 1).store.cases == now.cases <==> !exists u :: p < u < c && FirstUploadAt(steps, u, r.app))
  {
    hide Next, At, SysOk, CasesOk, Exec, After, FilesOf;
    var s, r := At(steps, c).store, CommitsAt(steps, c).value;
    GateCounted(steps, p, c, id);
    AtOk(steps, c);
    AtNext(steps, c);
    StepIsSerial(At(steps, c), steps[c]);
    if r.command.documentCount < |FilesOf(s, r.app).documents| {
      RecountDiffers(s, r);
      assert Diverged(After(s, r).outbox, After(s, Recounted(s, r)).outbox);
    } else {
      assert Recounted(s, r) == r;
    }
  }

  // ---- Every gate of a run --------------------------------------------------------------------------------

  /** The committed requests one after another, each gate counting when it runs. */
  ghost function RunRecounted(requests: seq<Request>): Store
  {
    if requests == [] then EMPTY_STORE
    else
      var s := RunRecounted(requests[..|requests| - 1]);
      After(s, Recounted(s, requests[|requests| - 1]))
  }

  /** An upload of its case commits at step `u`, between a gate's count at `p` and its commit at `c`. */
  ghost predicate Overtaken(steps: seq<Step>, p: nat, u: nat, c: nat, id: nat)
  {
    && PlansAndCommits(steps, p, c, id) && CommitsAt(steps, c).value.command.AdvanceDocuments?
    && p < u < c && UploadsAt(steps, u, CommitsAt(steps, c).value.app)
  }

  ghost predicate SomeGateOvertaken(steps: seq<Step>)
  {
    exists p: nat, u: nat, c: nat, id: nat :: Overtaken(steps, p, u, c, id)
  }

  lemma FrontOvertaken(steps: seq<Step>, p: nat, u: nat, c: nat, id: nat)
    requires steps != [] && c < |steps| - 1
    ensures Overtaken(steps[..|steps| - 1], p, u, c, id) <==> Overtaken(steps, p, u, c, id)
  {
    hide At, CommittedBy;
    var front := steps[..|steps| - 1];
    forall m: nat | m <= c ensures At(front, m) == At(steps, m) {
      AtFront(steps, m);
    }
  }

  /** Step `n` commits a gate that has counted fewer documents than there are by then. */
  ghost predicate CommitsSkewed(steps: seq<Step>, n: nat)
    requires n < |steps|
  {
    var r := CommitsAt(steps, n);
    r.Some? && r.value.command.AdvanceDocuments?
    && r.value.command.documentCount < |FilesOf(At(steps, n).store, r.value.app).documents|
  }

  lemma OvertakenSplit(steps: seq<Step>, p: nat, u: nat, c: nat, id: nat)
    requires steps != [] && Overtaken(steps, p, u, c, id)
    ensures c < |steps|
    ensures if c < |steps| - 1 then Overtaken(steps[..|steps| - 1], p, u, c, id) else CommitsSkewed(steps, c)
  {
    hide At, FilesOf, PlansAndCommits;
    CommitsInside(steps, p, c, id);
    if c < |steps| - 1 {
      FrontOvertaken(steps, p, u, c, id);
    } else {
      GateCounted(steps, p, c, id);
    }
  }

  lemma SkewedIsOvertaken(steps: seq<Step>, n: nat)
    requires n < |steps| && CommitsSkewed(steps, n)
    ensures SomeGateOvertaken(steps)
  {
    hide At, FilesOf, PlansAndCommits;
    var p := CommittedPosition(steps, n);
    GateCounted(steps, p, n, steps[n].id);
    var u: nat :| p < u < n && UploadsAt(steps, u, CommitsAt(steps, n).value.app);
    assert Overtaken(steps, p, u, n, steps[n].id);
  }

  /** Some gate of a run has been overtaken before its last step, or the last step commits one. */
  lemma LastOvertaken(steps: seq<Step>)
    requires steps != []
    ensures SomeGateOvertaken(steps) <==> SomeGateOvertaken(steps[..|steps| - 1]) || CommitsSkewed(steps, |steps| - 1)
  {
    hide Overtaken, CommitsSkewed;
    var n := |steps| - 1;
    if p: nat, u: nat, c: nat, id: nat :| Overtaken(steps, p, u, c, id) {
      OvertakenSplit(steps, p, u, c, id);
    }
    if p: nat, u: nat, c: nat, id: nat :| Overtaken(steps[..n], p, u, c, id) {
      assert c < n by { OvertakenInside(steps[..n], p, u, c, id); }
      FrontOvertaken(steps, p, u, c, id);
    }
    if CommitsSkewed(steps, n) {
      SkewedIsOvertaken(steps, n);
    }
  }

  lemma OvertakenInside(steps: seq<Step>, p: nat, u: nat, c: nat, id: nat)
    requires Overtaken(steps, p, u, c, id)
    ensures c < |steps|
  {
  }

  lemma CommitsInside(steps: seq<Step>, p: nat, c: nat, id: nat)
    requires PlansAndCommits(steps, p, c, id)
    ensures p < c < |steps| && CommitsAt(steps, c).Some?
  {
  }

  lemma CommittedPosition(steps: seq<Step>, c: nat) returns (p: nat)
    requires c < |steps| && CommitsAt(steps, c).Some?
    ensures PlansAndCommits(steps, p, c, steps[c].id)
  {
    var id := steps[c].id;
    p := PlanPosition(steps[..c], id);
    assert forall m :: 0 <= m <= c ==> steps[..c][..m] == steps[..m];
    forall m | p < m <= c ensures HasPlanned(At(steps, m), id, At(steps, p).txns[id].r) {
      assert HasPlanned(At(steps[..c], m), id, RunSteps(steps[..c]).txns[id].r);
    }
  }

  /** How many events each command raises when it commits. */
  function EventCount(c: Command): nat
  {
    if c.Extract? || c.Verify? then 0 else if c.AdvanceIntake? then 2 else 1
  }

  lemma EventsCounted(s: Store, r: Request)
    ensures s.outbox <= After(s, r).outbox
    ensures |After(s, r).outbox| == |s.outbox| + if Exec(s, r).Ok? then EventCount(r.command) else 0
  {
    hide Plan, Conflicts, BatchRows;
    if Exec(s, r).Ok? {
      var row := Load(s, r).value;
      PlanEvents(r, row, QueueOf(s, r.app), Plan(r, row, QueueOf(s, r.app)).value);
    }
  }

  lemma PlanEvents(r: Request, row: Option<AppRow>, queue: Option<QueueRow>, w: Writes)
    requires CanPlan(r, row) && Plan(r, row, queue) == Ok(w)
    ensures |w.events| == EventCount(r.command)
  {
    hide IsLegal, MoveThrough, EventToRecord, PlanScript, ScriptOf, KeyOf;
    if MovesCase(r.command) {
      ScriptsAreLegalInside(r.command);
      PlanScriptExact(r, ScriptOf(r.command), row.value, queue);
      ScriptHops(r.command);
    }
  }

  lemma ScriptHops(c: Command)
    requires MovesCase(c)
    ensures Hops(ScriptOf(c)) == EventCount(c)
  {
    hide Decimal.Show;
  }

  lemma StaysDiverged(a: seq<OutboxRow>, b: seq<OutboxRow>, c: seq<OutboxRow>, d: seq<OutboxRow>)
    requires Diverged(a, b) && a <= c && b <= d && |d| - |b| <= |c| - |a|
    ensures Diverged(c, d)
  {
    if i :| 0 <= i < |a| && i < |b| && a[i] != b[i] {
      assert c[i] != d[i];
    }
  }

  lemma DivergedIsNotSimilar(a: Store, b: Store)
    requires Diverged(a.outbox, b.outbox)
    ensures !Similar(a, b)
  {
  }

  /** One commit against the run so far and the serial run so far. */
  lemma CommitAgainstSerial(s: Store, after: Store, serial: Store, r: Request, overtaken: bool, diverged: bool)
    requires Exec(s, r).Ok? && Similar(after, After(s, r))
    requires overtaken <==> r.command.AdvanceDocuments? && r.command.documentCount < |FilesOf(s, r.app).documents|
    requires r.command.AdvanceDocuments? ==> r.command.documentCount <= |FilesOf(s, r.app).documents|
    requires if diverged then Diverged(s.outbox, serial.outbox) else Similar(s, serial)
    ensures if diverged || overtaken then Diverged(after.outbox, After(serial, Recounted(serial, r)).outbox)
            else Similar(after, After(serial, Recounted(serial, r)))
  {
    hide After, Exec, Diverged, FilesOf, Similar;
    var q := Recounted(serial, r);
    EventsCounted(s, r);
    EventsCounted(serial, q);
    assert after.outbox == After(s, r).outbox by { SimilarOutbox(after, After(s, r)); }
    if diverged {
      StaysDiverged(s.outbox, serial.outbox, after.outbox, After(serial, q).outbox);
    } else {
      assert q == Recounted(s, r) by { SimilarFiles(s, serial, r.app); }
      ExecSimilar(s, serial, q);
      if overtaken {
        RecountDiffers(s, r);
        SimilarOutbox(After(s, q), After(serial, q));
      } else {
        assert q == r;
        SimilarTransitive(after, After(s, r), After(serial, r));
      }
    }
  }

  lemma SimilarOutbox(a: Store, b: Store)
    requires Similar(a, b)
    ensures a.outbox == b.outbox
  {
  }

  lemma SimilarFiles(a: Store, b: Store, app: AppId)
    requires Similar(a, b)
    ensures FilesOf(a, app) == FilesOf(b, app)
  {
  }

  lemma {:induction false} RunAgainstSerial(steps: seq<Step>)
    ensures if SomeGateOvertaken(steps)
            then Diverged(RunSteps(steps).store.outbox, RunRecounted(CommitOrder(steps)).outbox)
            else Similar(RunSteps(steps).store, RunRecounted(CommitOrder(steps)))
  {
    if steps == [] {
      if p: nat, u: nat, c: nat, id: nat :| Overtaken(steps, p, u, c, id) {
        assert false;
      }
    } else {
      var n := |steps| - 1;
      var front, last := steps[..n], steps[n];
      RunAgainstSerial(front);
      LastOvertaken(steps);
      AtOk(steps, n);
      StepIsSerial(RunSteps(front), last);
      hide SysOk, Similar, Diverged, Next, CommittedBy, After, FilesOf, SomeGateOvertaken, Exec;
      var committed := CommittedBy(RunSteps(front), last);
      if committed.Some? {
        if committed.value.command.AdvanceDocuments? {
          var p := CommittedPosition(steps, n);
          GateCounted(steps, p, n, last.id);
        }
        CommitAgainstSerial(RunSteps(front).store, RunSteps(steps).store, RunRecounted(CommitOrder(front)), committed.value,
          committed.value.command.AdvanceDocuments?
          && committed.value.command.documentCount < |FilesOf(RunSteps(front).store, committed.value.app).documents|,
          SomeGateOvertaken(front));
        assert CommitOrder(steps)[..|CommitOrder(steps)| - 1] == CommitOrder(front);
      } else {
        assert CommitOrder(steps) == CommitOrder(front);
      }
    }
  }

  /** Conflict serialisability, exactly: an interleaving ends, in every table but the audit log, where the
      program's commands run one after the other in commit order would end, if and only if no upload of
      its case committed between a document gate's count and its commit. */
  lemma EveryInterleavingIsSerialIff(steps: seq<Step>)
    ensures Similar(RunSteps(steps).store, RunRecounted(CommitOrder(steps))) <==> !SomeGateOvertaken(steps)
  {
    hide Similar, Diverged, SomeGateOvertaken, RunSteps;
    RunAgainstSerial(steps);
    if SomeGateOvertaken(steps) {
      DivergedIsNotSimilar(RunSteps(steps).store, RunRecounted(CommitOrder(steps)));
    }
  }

  // ---- The audit chain --------------------------------------------------------------------------

  lemma AppendLog(log: AuditLog, seen: Option<Hash>, batch: seq<OutboxRow>)
    ensures Append(log, seen, batch).rows == log.rows + BatchRows(seen, batch)
    ensures batch == [] ==> Append(log, seen, batch) == log
    ensures |Append(log, seen, batch).rows| == |log.rows| + |batch|
  {
  }

  lemma LogStep(steps: seq<Step>, k: nat, tenant: TenantId)
    requires k < |steps|
    ensures var log, next := LogOf(At(steps, k).store, tenant), LogOf(At(steps, k + 1).store, tenant);
            if CommitsEvents(steps, k, tenant) then log.rows < next.rows else next == log
  {
    hide SysOk, CasesOk, LogsShaped, Tracks, Reserve, Load, Plan, Conflicts, Apply, At, Append, BatchRows, Recorded, LogOf;
    AtNext(steps, k);
    AtOk(steps, k);
    if CommitsAt(steps, k).Some? {
      var sys, t := At(steps, k), StepsTxn(steps, k);
      SysTracks(sys, steps[k].id);
      ReadyOwner(sys.store, t);
      AppliedTables(sys.store, t.w, t.seen);
      AppendLog(LogOf(sys.store, t.w.tenant), t.seen, t.w.events);
    }
  }

  lemma SysTracks(sys: Sys, id: nat)
    requires SysOk(sys) && id in sys.txns
    ensures Tracks(sys.store, sys.txns[id])
  {
    hide CasesOk, LogsShaped, Tracks;
  }

  /** A tenant's log changes between two positions if and only if events of the tenant are committed
      there, and then it is longer. */
  lemma {:induction false} LogBetween(steps: seq<Step>, i: nat, c: nat, tenant: TenantId)
    requires i <= c <= |steps|
    ensures var log, later := LogOf(At(steps, i).store, tenant), LogOf(At(steps, c).store, tenant);
            if exists k :: i <= k < c && CommitsEvents(steps, k, tenant) then log.rows < later.rows else later == log
  {
    hide At, CommitsEvents, LogOf;
    if i < c {
      LogBetween(steps, i, c - 1, tenant);
      LogStep(steps, c - 1, tenant);
      if CommitsEvents(steps, c - 1, tenant) {
        assert i <= c - 1 < c;
      }
    }
  }

  lemma {:induction false} VerifiedBefore(steps: seq<Step>, i: nat, c: nat, tenant: TenantId)
    requires CollisionFree() && i <= c <= |steps| && LogVerifies(LogOf(At(steps, c).store, tenant))
    ensures LogVerifies(LogOf(At(steps, i).store, tenant))
  {
    hide At, LogVerifies, LogOf, SysOk, Next, FreshStep;
    if i < c {
      AtOk(steps, c - 1);
      AtNext(steps, c - 1);
      StepChain(At(steps, c - 1), steps[c - 1], tenant);
      VerifiedBefore(steps, i, c - 1, tenant);
    }
  }

  /** Two logs that verify, one a longer version of the other, end in different hashes. */
  lemma LongerEndsElsewhere(a: AuditLog, b: AuditLog)
    requires CollisionFree() && LogVerifies(a) && LogVerifies(b) && a.rows < b.rows
    ensures LatestHash(a) != LatestHash(b)
  {
    if LatestHash(a) == LatestHash(b) {
      assert |HashedFields(a.rows)| < |HashedFields(b.rows)|;
      TamperEvidence(a.rows, b.rows, b.checkpoint.value.latestHash);
      assert false;
    }
  }

  /** Between a transaction's recording at `i` and its commit at `c`, events of the tenant are committed
      by another transaction. */
  ghost predicate Intervenes(steps: seq<Step>, i: nat, k: nat, c: nat, id: nat, tenant: TenantId)
  {
    && RecordsAndCommits(steps, i, c, id) && CommitsEvents(steps, c, tenant)
    && i < k < c && CommitsEvents(steps, k, tenant)
  }

  /** The checkpoint a transaction recorded against is still the latest at its commit, if and only if no
      events of the tenant were committed in between. */
  lemma SeenIsLatestIff(steps: seq<Step>, i: nat, c: nat, id: nat, tenant: TenantId)
    requires CollisionFree() && RecordsAndCommits(steps, i, c, id) && CommitsEvents(steps, c, tenant)
    requires LogVerifies(LogOf(At(steps, c).store, tenant))
    ensures StepsTxn(steps, c).seen == LatestHash(LogOf(At(steps, c).store, tenant))
            <==> !exists k :: Intervenes(steps, i, k, c, id, tenant)
  {
    hide At, LogVerifies, LogOf, Next, CommittedBy;
    SeenSince(steps, i, c, id);
    LogBetween(steps, i, c, tenant);
    VerifiedBefore(steps, i, c, tenant);
    var log, later := LogOf(At(steps, i).store, tenant), LogOf(At(steps, c).store, tenant);
    assert CommitsAt(steps, i).None? by { RecordCommitsNothing(steps, i, id); }
    if k :| i <= k < c && CommitsEvents(steps, k, tenant) {
      assert Intervenes(steps, i, k, c, id, tenant);
      LongerEndsElsewhere(log, later);
    }
  }

  lemma RecordCommitsNothing(steps: seq<Step>, i: nat, id: nat)
    requires i < |steps| && steps[i] == RecordEvents(id)
    ensures CommitsAt(steps, i).None?
  {
  }

  /** The audit log is the one table interleaving can damage. A tenant's log that verifies still does
      after a commit of events exactly when no other events of the tenant were committed between the
      recording and the commit; when some were, two rows now claim the same predecessor. */
  lemma CommitKeepsChainIffNoneBetween(steps: seq<Step>, i: nat, c: nat, id: nat, tenant: TenantId)
    requires CollisionFree() && RecordsAndCommits(steps, i, c, id) && CommitsEvents(steps, c, tenant)
    requires LogVerifies(LogOf(At(steps, c).store, tenant))
    ensures var log := LogOf(At(steps, c + 1).store, tenant);
            && (LogVerifies(log) <==> !exists k :: Intervenes(steps, i, k, c, id, tenant))
            && (Forked(log.rows) <==> exists k :: Intervenes(steps, i, k, c, id, tenant))
  {
    hide At, LogVerifies, LogOf, SysOk, Tracks, Apply, Recorded, Conflicts, Intervenes, Forked;
    SeenIsLatestIff(steps, i, c, id, tenant);
    AtNext(steps, c);
    AtOk(steps, c);
    SysTracks(At(steps, c), id);
    CommitKeepsChainIffFresh(At(steps, c).store, StepsTxn(steps, c));
  }

  /** A tenant's commits are serialised: between the recording and the commit of one no other comes. */
  ghost predicate TenantSerialised(steps: seq<Step>, tenant: TenantId)
  {
    !exists i: nat, k: nat, c: nat, id: nat :: Intervenes(steps, i, k, c, id, tenant)
  }

  lemma FrontIntervenes(steps: seq<Step>, i: nat, k: nat, c: nat, id: nat, tenant: TenantId)
    requires steps != [] && c < |steps| - 1
    ensures Intervenes(steps[..|steps| - 1], i, k, c, id, tenant) <==> Intervenes(steps, i, k, c, id, tenant)
  {
    hide At, CommittedBy;
    var front := steps[..|steps| - 1];
    forall m: nat | m <= c ensures At(front, m) == At(steps, m) {
      AtFront(steps, m);
    }
  }

  lemma IntervenesInside(steps: seq<Step>, i: nat, k: nat, c: nat, id: nat, tenant: TenantId)
    requires Intervenes(steps, i, k, c, id, tenant)
    ensures c < |steps| && CommitsEvents(steps, c, tenant) && RecordsAndCommits(steps, i, c, id)
  {
  }

  lemma RecordedPosition(steps: seq<Step>, c: nat) returns (i: nat)
    requires c < |steps| && CommitsAt(steps, c).Some?
    ensures RecordsAndCommits(steps, i, c, steps[c].id)
  {
    var id := steps[c].id;
    i := RecordPosition(steps[..c], id);
    assert forall m :: 0 <= m <= c ==> steps[..c][..m] == steps[..m];
    forall m | i < m <= c ensures IsReady(At(steps, m), id) {
      assert IsReady(At(steps[..c], m), id);
    }
  }

  /** A run is serialised if it was before its last step and nothing intervenes in that step's commit. */
  lemma SerialisedStep(steps: seq<Step>, tenant: TenantId)
    requires steps != []
    ensures var n := |steps| - 1;
            TenantSerialised(steps, tenant) <==>
              TenantSerialised(steps[..n], tenant) && !exists i: nat, k: nat, id: nat :: Intervenes(steps, i, k, n, id, tenant)
  {
    hide Intervenes;
    var n := |steps| - 1;
    if i: nat, k: nat, c: nat, id: nat :| Intervenes(steps, i, k, c, id, tenant) {
      IntervenesInside(steps, i, k, c, id, tenant);
      if c < n {
        FrontIntervenes(steps, i, k, c, id, tenant);
      }
    }
    if i: nat, k: nat, c: nat, id: nat :| Intervenes(steps[..n], i, k, c, id, tenant) {
      IntervenesInside(steps[..n], i, k, c, id, tenant);
      FrontIntervenes(steps, i, k, c, id, tenant);
    }
  }

  /** What the last step does to a log that verified before it. */
  lemma LastStepChain(steps: seq<Step>, tenant: TenantId)
    requires CollisionFree() && steps != [] && LogVerifies(LogOf(At(steps, |steps| - 1).store, tenant))
    ensures var n := |steps| - 1;
            LogVerifies(LogOf(At(steps, n + 1).store, tenant)) <==>
            !exists i: nat, k: nat, id: nat :: Intervenes(steps, i, k, n, id, tenant)
  {
    hide At, LogVerifies, LogOf, Intervenes, CommitsEvents, RecordsAndCommits, Forked;
    var n := |steps| - 1;
    if i: nat, k: nat, id: nat :| Intervenes(steps, i, k, n, id, tenant) {
      IntervenesInside(steps, i, k, n, id, tenant);
      CommitKeepsChainIffNoneBetween(steps, i, n, id, tenant);
    }
    if CommitsEvents(steps, n, tenant) {
      assert CommitsAt(steps, n).Some? by { EventsCommitted(steps, n, tenant); }
      var i := RecordedPosition(steps, n);
      CommitKeepsChainIffNoneBetween(steps, i, n, steps[n].id, tenant);
    } else {
      LogStep(steps, n, tenant);
    }
  }

  lemma EventsCommitted(steps: seq<Step>, k: nat, tenant: TenantId)
    requires k < |steps| && CommitsEvents(steps, k, tenant)
    ensures CommitsAt(steps, k).Some?
  {
  }

  /** The audit chains of whole runs, exactly: after any interleaving a tenant's log verifies, from its
      checkpoint back to genesis, if and only if the tenant's commits were serialised. Other tenants may
      have overlapped as they liked. */
  lemma {:induction false} ChainVerifiesIffSerialised(steps: seq<Step>, tenant: TenantId)
    requires CollisionFree()
    ensures LogVerifies(LogOf(RunSteps(steps).store, tenant)) <==> TenantSerialised(steps, tenant)
  {
    hide LogVerifies, LogOf, TenantSerialised, Intervenes, At;
    if steps == [] {
      NothingYet(tenant);
    } else {
      WholeRun(steps);
      hide RunSteps;
      var n := |steps| - 1;
      ChainVerifiesIffSerialised(steps[..n], tenant);
      SerialisedStep(steps, tenant);
      if LogVerifies(LogOf(At(steps, n).store, tenant)) {
        LastStepChain(steps, tenant);
      } else if LogVerifies(LogOf(At(steps, n + 1).store, tenant)) {
        VerifiedBefore(steps, n, n + 1, tenant);
      }
    }
  }

  lemma NothingYet(tenant: TenantId)
    ensures TenantSerialised([], tenant) && LogVerifies(LogOf(RunSteps([]).store, tenant))
  {
    if i: nat, k: nat, c: nat, id: nat :| Intervenes([], i, k, c, id, tenant) {
      assert false;
    }
  }

  lemma WholeRun(steps: seq<Step>)
    requires steps != []
    ensures At(steps, |steps| - 1) == RunSteps(steps[..|steps| - 1]) && At(steps, |steps|) == RunSteps(steps)
  {
    assert steps[..|steps|] == steps;
  }

  /** With its commits serialised, a tenant's log is one unforked chain from genesis to the checkpoint,
      matching its outbox rows one to one in order, whatever other tenants do in between. */
  lemma SerialisedTenantHasOneChain(steps: seq<Step>, tenant: TenantId)
    requires CollisionFree() && TenantSerialised(steps, tenant)
    ensures var s := RunSteps(steps).store;
            && LogVerifies(LogOf(s, tenant)) && !Forked(LogOf(s, tenant).rows)
            && WitnessesAll(LogOf(s, tenant).rows, OfTenant(s.outbox, tenant))
  {
    hide RunSteps, TenantSerialised, WitnessesAll;
    ChainVerifiesIffSerialised(steps, tenant);
    AuditRowsMatchOutbox(steps);
    var log := LogOf(RunSteps(steps).store, tenant);
    if log.rows != [] {
      ChainIsUnforked(log.rows, log.checkpoint.value.latestHash);
    }
  }
}
