/** Clocks and generated ids decide nothing: the same commands at other times, under other event ids,
    leave the same store up to those times and ids (and the hashes made of them). */
module Clocks {
  import opened Prelude
  import opened CaseStatus
  import opened Applications
  import opened EventMapping
  import opened Audit
  import opened Store
  import opened StoreInvariants
  import opened Interleaving
  import opened ExactlyOnce

  // ---- Alike ------------------------------------------------------------------------------------

  predicate RowsAlike(a: AppRow, b: AppRow)
  {
    a == b.(updatedAt := a.updatedAt)
  }

  predicate SnapshotsAlike(a: map<nat, Snapshot>, b: map<nat, Snapshot>)
  {
    && a.Keys == b.Keys
    && (forall v :: v in a ==> a[v].status == b[v].status)
  }

  predicate QueuesAlike(a: Option<QueueRow>, b: Option<QueueRow>)
  {
    match (a, b)
    case (None, None) => true
    case (Some(Pending(_)), Some(Pending(_))) => true
    case (Some(Decided(_, d, reason, reviewer, _)), Some(Decided(_, d2, reason2, reviewer2, _))) =>
      d == d2 && reason == reason2 && reviewer == reviewer2
    case _ => false
  }

  predicate EventsAlike(a: OutboxRow, b: OutboxRow)
  {
    a == b.(eventId := a.eventId, occurredAt := a.occurredAt)
  }

  ghost predicate BatchesAlike(a: seq<OutboxRow>, b: seq<OutboxRow>)
  {
    |a| == |b| && forall i :: 0 <= i < |a| ==> EventsAlike(a[i], b[i])
  }

  ghost predicate CasesAlike(a: Case, b: Case)
  {
    RowsAlike(a.row, b.row) && SnapshotsAlike(a.snapshots, b.snapshots) && QueuesAlike(a.queue, b.queue)
  }

  /** The same hashed fields but for time, id and the predecessor's hash. */
  predicate AuditRowsAlike(a: AuditRow, b: AuditRow)
  {
    && a.tenant == b.tenant
    && a.hashed == b.hashed.(prevHash := a.hashed.prevHash, eventId := a.hashed.eventId, occurredAt := a.hashed.occurredAt)
  }

  ghost predicate LogsAlike(a: seq<AuditRow>, b: seq<AuditRow>)
  {
    |a| == |b| && forall i :: 0 <= i < |a| ==> AuditRowsAlike(a[i], b[i])
  }

  /** Equal up to times, event ids and hashes. */
  ghost predicate StoresAlike(a: Store, b: Store)
  {
    && (forall app :: app in a.cases <==> app in b.cases)
    && (forall app :: app in a.cases ==> CasesAlike(a.cases[app], b.cases[app]))
    && (forall app :: FilesOf(a, app) == FilesOf(b, app))
    && a.keys == b.keys && BatchesAlike(a.outbox, b.outbox)
    && (forall t :: LogOf(a, t).checkpoint.Some? <==> LogOf(b, t).checkpoint.Some?)
    && (forall t :: LogsAlike(LogOf(a, t).rows, LogOf(b, t).rows))
  }

  /** The same request at another time, under other ids. */
  predicate SameRequest(r: Request, q: Request)
  {
    r == q.(stamp := r.stamp)
  }

  // ---- Plans ------------------------------------------------------------------------------------

  predicate PendingAlike(a: DomainEvent, b: DomainEvent)
  {
    match (a, b)
    case (ApplicationCreated(app, t, _, p), ApplicationCreated(app2, t2, _, p2)) => app == app2 && t == t2 && p == p2
    case (ApplicationStateChanged(app, t, _, s, n, r, v), ApplicationStateChanged(app2, t2, _, s2, n2, r2, v2)) =>
      app == app2 && t == t2 && s == s2 && n == n2 && r == r2 && v == v2
    case (DocumentUploaded(app, t, _, d, k, o), DocumentUploaded(app2, t2, _, d2, k2, o2)) =>
      app == app2 && t == t2 && d == d2 && k == k2 && o == o2
    case _ => false
  }

  predicate MovedAlike(m: Moved, n: Moved)
  {
    && RowsAlike(m.aggregate.row, n.aggregate.row) && SnapshotsAlike(m.snapshots, n.snapshots)
    && |m.aggregate.pending| == |n.aggregate.pending|
    && forall i :: 0 <= i < |m.aggregate.pending| ==> PendingAlike(m.aggregate.pending[i], n.aggregate.pending[i])
  }

  lemma MoveAlike(m: Moved, n: Moved, hop: Hop, now: Time, later: Time)
    requires MovedAlike(m, n)
    ensures match Move(m, hop, now)
            case Err(e) => Move(n, hop, later) == Err(e)
            case Ok(after) => Move(n, hop, later).Ok? && MovedAlike(after, Move(n, hop, later).value)
  {
    hide IsLegal;
  }

  lemma MoveThroughAlike(a: AppRow, b: AppRow, script: Script, now: Time, later: Time)
    requires RowsAlike(a, b)
    ensures match MoveThrough(a, script, now)
            case Err(e) => MoveThrough(b, script, later) == Err(e)
            case Ok(m) => MoveThrough(b, script, later).Ok? && MovedAlike(m, MoveThrough(b, script, later).value)
  {
    hide Move, MovedAlike;
    var m, n := Moved(Aggregate(a, []), map[]), Moved(Aggregate(b, []), map[]);
    assert MovedAlike(m, n) by { StartsAlike(a, b); }
    MoveAlike(m, n, script.first, now, later);
    if script.second.Some? && Move(m, script.first, now).Ok? {
      MoveAlike(Move(m, script.first, now).value, Move(n, script.first, later).value, script.second.value, now, later);
    }
  }

  lemma StartsAlike(a: AppRow, b: AppRow)
    requires RowsAlike(a, b)
    ensures MovedAlike(Moved(Aggregate(a, []), map[]), Moved(Aggregate(b, []), map[]))
  {
  }

  lemma RowsOfAlike(a: seq<DomainEvent>, b: seq<DomainEvent>, id: nat, other: nat)
    requires |a| == |b| && forall i :: 0 <= i < |a| ==> PendingAlike(a[i], b[i])
    ensures BatchesAlike(RowsOf(a, id), RowsOf(b, other))
  {
    hide Name;
    forall i | 0 <= i < |a| ensures EventsAlike(RowsOf(a, id)[i], RowsOf(b, other)[i]) {
      assert PendingAlike(a[i], b[i]);
    }
  }

  predicate RowWritesAlike(a: RowWrite, b: RowWrite)
  {
    match (a, b)
    case (RowUntouched, RowUntouched) => true
    case (RowInsert(x), RowInsert(y)) => RowsAlike(x, y)
    case (RowUpdate(x), RowUpdate(y)) => RowsAlike(x, y)
    case _ => false
  }

  predicate QueueWritesAlike(a: QueueWrite, b: QueueWrite)
  {
    match (a, b)
    case (QueueUntouched, QueueUntouched) => true
    case (QueueInsert(x), QueueInsert(y)) => QueuesAlike(Some(x), Some(y))
    case (QueueUpdate(x), QueueUpdate(y)) => QueuesAlike(Some(x), Some(y))
    case _ => false
  }

  /** Writes that differ in times and ids only. */
  ghost predicate WritesAlike(v: Writes, w: Writes)
  {
    && v.tenant == w.tenant && v.app == w.app && v.keys == w.keys && v.files == w.files
    && RowWritesAlike(v.row, w.row) && SnapshotsAlike(v.snapshots, w.snapshots) && QueueWritesAlike(v.queue, w.queue)
    && BatchesAlike(v.events, w.events)
  }

  lemma ChangesAlike(r: Request, q: Request, a: AppRow, b: AppRow, change: WorkflowChange)
    requires SameRequest(r, q) && RowsAlike(a, b)
    ensures RowsAlike(ChangeWorkflow(r, a, change), ChangeWorkflow(q, b, change))
  {
  }

  lemma QueueChangeAlike(a: Option<QueueRow>, b: Option<QueueRow>, change: QueueChange, now: Time, later: Time)
    requires QueuesAlike(a, b)
    ensures match ChangeQueue(a, change, now)
            case Err(e) => ChangeQueue(b, change, later) == Err(e)
            case Ok(w) => ChangeQueue(b, change, later).Ok? && QueueWritesAlike(w, ChangeQueue(b, change, later).value)
  {
  }

  lemma PlanScriptAlike(r: Request, q: Request, script: Script, a: AppRow, b: AppRow, x: Option<QueueRow>, y: Option<QueueRow>)
    requires SameRequest(r, q) && RowsAlike(a, b) && QueuesAlike(x, y)
    ensures match PlanScript(r, script, a, x)
            case Err(e) => PlanScript(q, script, b, y) == Err(e)
            case Ok(w) => PlanScript(q, script, b, y).Ok? && WritesAlike(w, PlanScript(q, script, b, y).value)
  {
    hide MoveThrough, RowsAlike, SnapshotsAlike, BatchesAlike, ChangeQueue, QueuesAlike, QueueWritesAlike, ChangeWorkflow, PendingAlike;
    MoveThroughAlike(a, b, script, r.stamp.now, q.stamp.now);
    if MoveThrough(a, script, r.stamp.now).Ok? {
      var m, n := MoveThrough(a, script, r.stamp.now).value, MoveThrough(b, script, q.stamp.now).value;
      QueueChangeAlike(x, y, script.queue, r.stamp.now, q.stamp.now);
      ChangesAlike(r, q, m.aggregate.row, n.aggregate.row, script.workflow);
      RowsOfAlike(m.aggregate.pending, n.aggregate.pending, r.stamp.firstId, q.stamp.firstId);
    }
  }

  ghost predicate LoadedAlike(a: Option<AppRow>, b: Option<AppRow>)
  {
    (a.Some? <==> b.Some?) && (a.Some? ==> RowsAlike(a.value, b.value))
  }

  lemma PlanAlike(r: Request, q: Request, a: Option<AppRow>, b: Option<AppRow>, x: Option<QueueRow>, y: Option<QueueRow>)
    requires SameRequest(r, q) && LoadedAlike(a, b) && QueuesAlike(x, y) && CanPlan(r, a)
    ensures match Plan(r, a, x)
            case Err(e) => Plan(q, b, y) == Err(e)
            case Ok(w) => Plan(q, b, y).Ok? && WritesAlike(w, Plan(q, b, y).value)
  {
    if MovesCase(r.command) {
      hide PlanScript, ScriptOf, WritesAlike;
      PlanScriptAlike(r, q, ScriptOf(r.command), a.value, b.value, x, y);
    } else {
      OtherPlansAlike(r, q, a, b, x, y);
    }
  }

  lemma OtherPlansAlike(r: Request, q: Request, a: Option<AppRow>, b: Option<AppRow>, x: Option<QueueRow>, y: Option<QueueRow>)
    requires SameRequest(r, q) && CanPlan(r, a) && CanPlan(q, b) && !MovesCase(r.command)
    ensures match Plan(r, a, x)
            case Err(e) => Plan(q, b, y) == Err(e)
            case Ok(w) => Plan(q, b, y).Ok? && WritesAlike(w, Plan(q, b, y).value)
  {
    if r.command.Create? {
      RowsOfAlike(Created(r.app, r.tenant, r.command.product, r.stamp.now).pending,
                  Created(q.app, q.tenant, q.command.product, q.stamp.now).pending, r.stamp.firstId, q.stamp.firstId);
    } else if r.command.Upload? {
      var c := r.command;
      RowsOfAlike([DocumentUploaded(r.app, r.tenant, r.stamp.now, c.document, c.documentType, c.objectKey)],
                  [DocumentUploaded(q.app, q.tenant, q.stamp.now, c.document, c.documentType, c.objectKey)],
                  r.stamp.firstId, q.stamp.firstId);
    }
  }

  // ---- Commits ----------------------------------------------------------------------------------

  lemma ReadsAlike(s: Store, u: Store, r: Request, q: Request)
    requires StoresAlike(s, u) && SameRequest(r, q)
    ensures Reserve(s, r) == Reserve(u, q)
    ensures match Load(s, r)
            case Err(e) => Load(u, q) == Err(e)
            case Ok(row) => Load(u, q).Ok? && LoadedAlike(row, Load(u, q).value)
    ensures QueuesAlike(QueueOf(s, r.app), QueueOf(u, q.app))
  {
    hide BatchesAlike, SnapshotsAlike;
  }

  lemma ConflictsAlike(s: Store, u: Store, v: Writes, w: Writes, seen: Option<Hash>, other: Option<Hash>)
    requires StoresAlike(s, u) && WritesAlike(v, w) && (seen.Some? <==> other.Some?)
    ensures Conflicts(s, Recorded(v, seen)) <==> Conflicts(u, Recorded(w, other))
  {
    hide BatchRows;
    var x, y := Recorded(v, seen), Recorded(w, other);
    assert x.keys == y.keys && x.checkpointInserts == y.checkpointInserts;
    assert LogOf(s, v.tenant).checkpoint.Some? <==> LogOf(u, w.tenant).checkpoint.Some?;
    assert SnapshotConflict(CaseOf(s, x.app), x) <==> SnapshotConflict(CaseOf(u, y.app), y) by {
      if v.app in s.cases {
        assert CasesAlike(s.cases[v.app], u.cases[w.app]);
      }
    }
    assert QueueOf(s, x.app).Some? <==> QueueOf(u, y.app).Some? by {
      if v.app in s.cases {
        assert CasesAlike(s.cases[v.app], u.cases[w.app]);
      }
    }
  }

  lemma UnionsAlike(a: map<nat, Snapshot>, b: map<nat, Snapshot>, x: map<nat, Snapshot>, y: map<nat, Snapshot>)
    requires SnapshotsAlike(a, b) && SnapshotsAlike(x, y)
    ensures SnapshotsAlike(a + x, b + y)
  {
  }

  lemma CaseAfterAlike(a: Option<Case>, b: Option<Case>, v: Writes, w: Writes)
    requires WritesAlike(v, w) && (a.Some? <==> b.Some?) && (a.Some? ==> CasesAlike(a.value, b.value))
    ensures CaseAfter(a, v).Some? <==> CaseAfter(b, w).Some?
    ensures CaseAfter(a, v).Some? ==> CasesAlike(CaseAfter(a, v).value, CaseAfter(b, w).value)
  {
    hide BatchesAlike, RowsAlike, SnapshotsAlike;
    assert SnapshotsAlike(map[], map[]) by { EmptyAlike(); }
    if a.Some? {
      UnionsAlike(a.value.snapshots, b.value.snapshots, v.snapshots, w.snapshots);
    } else {
      UnionsAlike(map[], map[], v.snapshots, w.snapshots);
    }
  }

  lemma EmptyAlike()
    ensures SnapshotsAlike(map[], map[])
  {
  }

  lemma AppliedCasesAlike(s: Store, u: Store, v: Writes, w: Writes)
    requires StoresAlike(s, u) && WritesAlike(v, w)
    ensures var a, b := Apply(s, v), Apply(u, w);
            && (forall app :: app in a.cases <==> app in b.cases)
            && (forall app :: app in a.cases ==> CasesAlike(a.cases[app], b.cases[app]))
            && (forall app :: FilesOf(a, app) == FilesOf(b, app))
            && a.keys == b.keys && BatchesAlike(a.outbox, b.outbox)
  {
    hide CaseAfter, CasesAlike, RowWritesAlike, QueueWritesAlike, SnapshotsAlike;
    CaseAfterAlike(CaseOf(s, v.app), CaseOf(u, w.app), v, w);
    forall app ensures FilesOf(Apply(s, v), app) == FilesOf(Apply(u, w), app) {
      assert FilesOf(s, app) == FilesOf(u, app);
    }
  }

  lemma {:induction false} BatchRowsAlike(seen: Option<Hash>, other: Option<Hash>, a: seq<OutboxRow>, b: seq<OutboxRow>)
    requires BatchesAlike(a, b)
    ensures LogsAlike(BatchRows(seen, a), BatchRows(other, b))
  {
    if a != [] {
      BatchRowsAlike(seen, other, a[..|a| - 1], b[..|b| - 1]);
      assert EventsAlike(a[|a| - 1], b[|b| - 1]);
    }
  }

  lemma AppendedAlike(l: AuditLog, k: AuditLog, seen: Option<Hash>, other: Option<Hash>, a: seq<OutboxRow>, b: seq<OutboxRow>)
    requires LogsAlike(l.rows, k.rows) && BatchesAlike(a, b) && (l.checkpoint.Some? <==> k.checkpoint.Some?)
    ensures LogsAlike(Append(l, seen, a).rows, Append(k, other, b).rows)
    ensures Append(l, seen, a).checkpoint.Some? <==> Append(k, other, b).checkpoint.Some?
  {
    BatchRowsAlike(seen, other, a, b);
    hide BatchRows, AuditRowsAlike, BatchesAlike;
  }

  lemma AppliedAlike(s: Store, u: Store, v: Writes, w: Writes, seen: Option<Hash>, other: Option<Hash>)
    requires StoresAlike(s, u) && WritesAlike(v, w)
    ensures StoresAlike(Apply(s, Recorded(v, seen)), Apply(u, Recorded(w, other)))
  {
    hide Apply, Recorded, CasesAlike, BatchRows;
    AppliedTables(s, v, seen);
    AppliedTables(u, w, other);
    AppliedCasesAlike(s, u, v, w);
    var a, b := Apply(s, Recorded(v, seen)), Apply(u, Recorded(w, other));
    forall app ensures FilesOf(a, app) == FilesOf(b, app) {
      assert FilesOf(Apply(s, v), app) == FilesOf(Apply(u, w), app);
    }
    forall t
      ensures LogOf(a, t).checkpoint.Some? <==> LogOf(b, t).checkpoint.Some?
      ensures LogsAlike(LogOf(a, t).rows, LogOf(b, t).rows)
    {
      assert LogOf(s, t).checkpoint.Some? <==> LogOf(u, t).checkpoint.Some?;
      assert LogsAlike(LogOf(s, t).rows, LogOf(u, t).rows);
      AppendedAlike(LogOf(s, t), LogOf(u, t), seen, other, v.events, w.events);
    }
  }

  /** A command run against alike stores, at different times and under different ids, is refused for the
      same reason or commits with the same answer, and leaves alike stores. */
  lemma ExecAlike(s: Store, u: Store, r: Request, q: Request)
    requires StoresAlike(s, u) && SameRequest(r, q)
    ensures match Exec(s, r)
            case Err(e) => Exec(u, q) == Err(e)
            case Ok(outcome) => Exec(u, q).Ok? && Exec(u, q).value.reply == outcome.reply
    ensures StoresAlike(After(s, r), After(u, q))
  {
    ReadsAlike(s, u, r, q);
    if Reserve(s, r).Ok? && Load(s, r).Ok? {
      var a, b := Load(s, r).value, Load(u, q).value;
      var x, y := QueueOf(s, r.app), QueueOf(u, q.app);
      PlanAlike(r, q, a, b, x, y);
      if Plan(r, a, x).Ok? {
        var v, w := Plan(r, a, x).value, Plan(q, b, y).value;
        PlanOwner(r, a, x, v);
        var seen, other := LatestHash(LogOf(s, r.tenant)), LatestHash(LogOf(u, q.tenant));
        ConflictsAlike(s, u, v, w, seen, other);
        AppliedAlike(s, u, v, w, seen, other);
        RepliesAlike(v, w);
        hide StoresAlike, Plan, Load, Reserve, Conflicts, Apply, Recorded, WritesAlike;
      }
    }
    hide StoresAlike, Plan, Load, Reserve, Conflicts, Apply, Recorded;
  }

  lemma RepliesAlike(v: Writes, w: Writes)
    requires WritesAlike(v, w)
    ensures ReplyOf(v) == ReplyOf(w)
  {
  }

  // ---- Runs -------------------------------------------------------------------------------------

  ghost predicate SameRequests(a: seq<Request>, b: seq<Request>)
  {
    |a| == |b| && forall i :: 0 <= i < |a| ==> SameRequest(a[i], b[i])
  }

  /** The same commands in the same order leave alike stores, whatever the clock read and whatever ids
      were drawn. */
  lemma {:induction false} RunsAlike(a: seq<Request>, b: seq<Request>)
    requires SameRequests(a, b)
    ensures StoresAlike(RunAll(a), RunAll(b))
  {
    hide StoresAlike, After;
    if a == [] {
      assert StoresAlike(EMPTY_STORE, EMPTY_STORE) by { EmptyStoresAlike(); }
    } else {
      RunsAlike(a[..|a| - 1], b[..|b| - 1]);
      ExecAlike(RunAll(a[..|a| - 1]), RunAll(b[..|b| - 1]), a[|a| - 1], b[|b| - 1]);
    }
  }

  lemma EmptyStoresAlike()
    ensures StoresAlike(EMPTY_STORE, EMPTY_STORE)
  {
  }

  /** Any schedule of failures, retries and duplicates leaves, up to times, ids and hashes, the store of a
      clean run: one in which just the commands that committed are sent, once each, at any times. */
  lemma NoisyRunIsCleanRun(noisy: seq<Request>, clean: seq<Request>)
    requires SameRequests(Effective(noisy), clean)
    ensures StoresAlike(RunAll(noisy), RunAll(clean))
  {
    hide StoresAlike, RunAll;
    RetriesAreInvisible(noisy);
    RunsAlike(Effective(noisy), clean);
  }
}
