/** Transactions that overlap. Each one reserves its key, loads its row, plans its writes and records
    its events against whatever is committed at that moment, and commits later; the constraints are
    checked at the commit. */
module Interleaving {
  import opened Prelude
  import opened CaseStatus
  import opened Applications
  import opened EventMapping
  import opened Audit
  import opened Store
  import opened StoreInvariants

  /** How far a transaction in flight has come. */
  datatype Txn =
    | Begun(r: Request)
    | Loaded(r: Request, row: Option<AppRow>)
    | Planned(r: Request, row: Option<AppRow>, w: Writes)
    | Ready(r: Request, row: Option<AppRow>, w: Writes, seen: Option<Hash>)

  datatype Sys = Sys(store: Store, txns: map<nat, Txn>)

  datatype Step =
    | Begin(id: nat, request: Request)
    | LoadRow(id: nat)
    | PlanWrites(id: nat)
    | RecordEvents(id: nat)
    | Commit(id: nat)
    | Abort(id: nat)

  function Drop(sys: Sys, id: nat): Sys
  {
    sys.(txns := sys.txns - {id})
  }

  /** The key of a transaction in flight is in the table, not yet committed. An insert of the same key
      waits for that transaction to end. */
  predicate Held(sys: Sys, k: Key)
  {
    exists id :: id in sys.txns && KeyOf(sys.txns[id].r) == k
  }

  /** A document gate's request carries the count it reads; it reads it once it holds its row. */
  predicate CountsDocuments(s: Store, r: Request)
  {
    r.command.AdvanceDocuments? ==> r.command.documentCount == |FilesOf(s, r.app).documents|
  }

  /** One step of one transaction. A step that does not apply, or waits, changes nothing; a step that
      raises ends the transaction with nothing written. */
  function Next(sys: Sys, step: Step): Sys
  {
    match step
    case Begin(id, r) =>
      if id in sys.txns || Held(sys, KeyOf(r)) || Reserve(sys.store, r).Err? then sys
      else sys.(txns := sys.txns[id := Begun(r)])
    case LoadRow(id) =>
      if id !in sys.txns || !sys.txns[id].Begun? then sys
      else
        var r := sys.txns[id].r;
        (match Load(sys.store, r)
         case Err(_) => Drop(sys, id)
         case Ok(row) => sys.(txns := sys.txns[id := Loaded(r, row)]))
    case PlanWrites(id) =>
      if id !in sys.txns || !sys.txns[id].Loaded? || !CanPlan(sys.txns[id].r, sys.txns[id].row)
         || !CountsDocuments(sys.store, sys.txns[id].r) then sys
      else
        var t := sys.txns[id];
        (match Plan(t.r, t.row, QueueOf(sys.store, t.r.app))
         case Err(_) => Drop(sys, id)
         case Ok(w) => sys.(txns := sys.txns[id := Planned(t.r, t.row, w)]))
    case RecordEvents(id) =>
      if id !in sys.txns || !sys.txns[id].Planned? then sys
      else
        var t := sys.txns[id];
        sys.(txns := sys.txns[id := Ready(t.r, t.row, t.w, LatestHash(LogOf(sys.store, t.r.tenant)))])
    case Commit(id) =>
      if id !in sys.txns || !sys.txns[id].Ready? then sys
      else
        var t := sys.txns[id];
        var w := Recorded(t.w, t.seen);
        if Conflicts(sys.store, w) then Drop(sys, id) else Drop(sys, id).(store := Apply(sys.store, w))
    case Abort(id) => Drop(sys, id)
  }

  predicate CanPlan(r: Request, row: Option<AppRow>)
  {
    row.None? ==> r.command.Create? || r.command.Extract?
  }

  /** The request a step commits, if it commits one. */
  function CommittedBy(sys: Sys, step: Step): Option<Request>
  {
    if step.Commit? && step.id in sys.txns && sys.txns[step.id].Ready?
       && !Conflicts(sys.store, Recorded(sys.txns[step.id].w, sys.txns[step.id].seen))
    then Some(sys.txns[step.id].r)
    else None
  }

  ghost function RunSteps(steps: seq<Step>): Sys
  {
    if steps == [] then Sys(EMPTY_STORE, map[])
    else Next(RunSteps(steps[..|steps| - 1]), steps[|steps| - 1])
  }

  /** The requests a run commits, in commit order. */
  ghost function CommitOrder(steps: seq<Step>): seq<Request>
  {
    if steps == [] then []
    else
      var front := steps[..|steps| - 1];
      var committed := CommittedBy(RunSteps(front), steps[|steps| - 1]);
      CommitOrder(front) + if committed.Some? then [committed.value] else []
  }

  // ---- What a transaction in flight knows -------------------------------------------------------

  /** The row a transaction holds is the current one, or a newer version has been committed. */
  ghost predicate RowTracks(s: Store, r: Request, row: Option<AppRow>)
  {
    && CanPlan(r, row)
    && (r.command.Extract? ==> row == None && r.command.document in DocumentsOf(s, r.tenant, r.app))
    && (r.command.Create? ==> row == None)
    && (row.Some? ==>
          && r.app in s.cases && s.cases[r.app].row.tenant == r.tenant
          && (row.value == s.cases[r.app].row || row.value.version < s.cases[r.app].row.version))
  }

  ghost predicate Stale(s: Store, r: Request, row: Option<AppRow>)
  {
    row.Some? && r.app in s.cases && row.value.version < s.cases[r.app].row.version
  }

  /** A plan in flight is what the transaction would plan now, or it is a move from a version that
      is no longer the last and stages a snapshot somebody else has committed. */
  ghost predicate PlanTracks(s: Store, r: Request, row: Option<AppRow>, w: Writes)
  {
    && CanPlan(r, row)
    && w.app == r.app && w.tenant == r.tenant && w.keys == {KeyOf(r)}
    && if MovesCase(r.command) && Stale(s, r, row)
       then row.value.version + 1 in w.snapshots
       else Plan(r, row, QueueOf(s, r.app)) == Ok(w)
  }

  /** Documents are only added, so a count is never more than there are. */
  predicate CountTracks(s: Store, r: Request)
  {
    r.command.AdvanceDocuments? ==> r.command.documentCount <= |FilesOf(s, r.app).documents|
  }

  ghost predicate Tracks(s: Store, t: Txn)
  {
    && (t.r.command.Decide? ==> IsReviewOutcome(t.r.command.decision))
    && (!t.Begun? ==> RowTracks(s, t.r, t.row))
    && (t.Planned? || t.Ready? ==> PlanTracks(s, t.r, t.row, t.w) && CountTracks(s, t.r))
    && (t.Ready? ==> WasCheckpoint(LogOf(s, t.r.tenant), t.seen))
  }

  ghost predicate LogsShaped(s: Store)
  {
    forall t :: LogShaped(LogOf(s, t))
  }

  /** Even a forked log has a checkpoint exactly when it has rows, and it points at the last row. */
  ghost predicate LogShaped(log: AuditLog)
  {
    match log.checkpoint
    case None => log.rows == []
    case Some(c) =>
      && log.rows != [] && log.rows[|log.rows| - 1].hash == c.latestHash
      && log.rows[|log.rows| - 1].hashed.eventId == c.latestEventId
  }

  ghost predicate SysOk(sys: Sys)
  {
    && CasesOk(sys.store) && LogsShaped(sys.store)
    && forall id :: id in sys.txns ==> Tracks(sys.store, sys.txns[id])
  }

  /** Equal in every table but the audit log, where each tenant at least has a checkpoint in both or
      in neither. */
  ghost predicate Similar(a: Store, b: Store)
  {
    && a.cases == b.cases && a.files == b.files && a.keys == b.keys && a.outbox == b.outbox
    && forall t :: LogOf(a, t).checkpoint.Some? <==> LogOf(b, t).checkpoint.Some?
  }

  // ---- One commit is one serial command ----------------------------------------------------------

  lemma StaleMoveConflicts(s: Store, r: Request, row: Option<AppRow>, w: Writes)
    requires HistoriesOk(s) && PlanTracks(s, r, row, w)
    requires MovesCase(r.command) && Stale(s, r, row)
    ensures SnapshotConflict(CaseOf(s, r.app), w)
  {
    var c := s.cases[r.app];
    assert HistoryOk(c);
    assert row.value.version + 1 in c.snapshots;
  }

  /** Only the checkpoint insert depends on what the transaction saw of the audit log, and a log that
      has no checkpoint has not been written to. */
  lemma ConflictsDoNotDependOnSeen(s: Store, w: Writes, seen: Option<Hash>)
    requires LogsShaped(s) && WasCheckpoint(LogOf(s, w.tenant), seen)
    requires !Conflicts(s, Recorded(w, seen))
    ensures !Conflicts(s, Recorded(w, LatestHash(LogOf(s, w.tenant))))
    ensures w.events != [] ==> (seen.None? <==> LatestHash(LogOf(s, w.tenant)).None?)
  {
    var log := LogOf(s, w.tenant);
    var now := Recorded(w, LatestHash(log));
    assert log.checkpoint.None? ==> seen.None?;
    assert now.keys == w.keys && now.row == w.row && now.snapshots == w.snapshots && now.queue == w.queue;
  }

  lemma AppliedTables(s: Store, w: Writes, seen: Option<Hash>)
    ensures var a, b := Apply(s, Recorded(w, seen)), Apply(s, w);
            a.cases == b.cases && a.files == b.files && a.keys == b.keys && a.outbox == b.outbox
    ensures forall t :: LogOf(Apply(s, Recorded(w, seen)), t) ==
              if t == w.tenant then Append(LogOf(s, t), seen, w.events) else LogOf(s, t)
  {
    hide BatchRows;
  }

  lemma AppendShape(log: AuditLog, seen: Option<Hash>, batch: seq<OutboxRow>)
    ensures Append(log, seen, batch).checkpoint.Some? <==> log.checkpoint.Some? || batch != []
    ensures LogShaped(log) ==> LogShaped(Append(log, seen, batch))
    ensures log.rows <= Append(log, seen, batch).rows
  {
    assert |BatchRows(seen, batch)| == |batch|;
  }

  lemma AppliedSimilar(s: Store, w: Writes, seen: Option<Hash>)
    ensures Similar(Apply(s, Recorded(w, seen)), Apply(s, Recorded(w, LatestHash(LogOf(s, w.tenant)))))
    ensures LogsShaped(s) ==> LogsShaped(Apply(s, Recorded(w, seen)))
  {
    hide BatchRows, Apply, Recorded;
    var now := LatestHash(LogOf(s, w.tenant));
    AppliedTables(s, w, seen);
    AppliedTables(s, w, now);
    AppendShape(LogOf(s, w.tenant), seen, w.events);
    AppendShape(LogOf(s, w.tenant), now, w.events);
    hide Append;
  }

  /** Conflict serialisability of one commit, but for what a document gate counted: a transaction that
      passes the constraints has, on every table but the audit log, exactly the effect of running its
      whole command at the moment it commits, with that count. When the checkpoint it saw is still the
      current one, the audit log agrees too. */
  lemma CommitIsSerialAsCounted(s: Store, t: Txn)
    requires CasesOk(s) && LogsShaped(s) && t.Ready? && Tracks(s, t)
    requires !Conflicts(s, Recorded(t.w, t.seen))
    ensures Exec(s, t.r).Ok?
    ensures Similar(Apply(s, Recorded(t.w, t.seen)), After(s, t.r))
    ensures t.seen == LatestHash(LogOf(s, t.r.tenant)) ==> Apply(s, Recorded(t.w, t.seen)) == After(s, t.r)
  {
    var r, row, w := t.r, t.row, t.w;
    if MovesCase(r.command) && Stale(s, r, row) {
      StaleMoveConflicts(s, r, row, w);
      assert false;
    }
    ConflictsDoNotDependOnSeen(s, w, t.seen);
    AppliedSimilar(s, w, t.seen);
    hide Conflicts, Apply, Plan, BatchRows;
    assert KeyOf(r) !in s.keys by { KeysFree(s, w, t.seen, KeyOf(r)); }
    RowIsCurrent(s, r, row, w);
  }

  lemma KeysFree(s: Store, w: Writes, seen: Option<Hash>, k: Key)
    requires !Conflicts(s, Recorded(w, seen)) && k in w.keys
    ensures k !in s.keys
  {
    assert w.keys * s.keys == {};
    assert k in s.keys ==> k in w.keys * s.keys;
  }

  /** A transaction whose plan is still good loads, now, a row that leads to the same plan. */
  lemma RowIsCurrent(s: Store, r: Request, row: Option<AppRow>, w: Writes)
    requires RowTracks(s, r, row) && PlanTracks(s, r, row, w)
    requires !(MovesCase(r.command) && Stale(s, r, row))
    ensures Load(s, r).Ok? && CanPlan(r, Load(s, r).value)
    ensures Plan(r, Load(s, r).value, QueueOf(s, r.app)) == Ok(w)
  {
    hide PlanScript, ScriptOf;
  }

  // ---- Every interleaving -----------------------------------------------------------------------

  lemma PlanOwner(r: Request, row: Option<AppRow>, queue: Option<QueueRow>, w: Writes)
    requires CanPlan(r, row) && Plan(r, row, queue) == Ok(w)
    ensures w.app == r.app && w.tenant == r.tenant && w.keys == {KeyOf(r)}
    ensures MovesCase(r.command) ==> row.Some? && row.value.version + 1 in w.snapshots
  {
    hide ScriptOf;
  }

  /** What a transaction in flight relies on survives another transaction's commit. */
  lemma TracksKept(s: Store, after: Store, t: Txn)
    requires Tracks(s, t) && CasesGrow(s, after) && HistoriesOk(s)
    requires forall app :: app in s.files ==> app in after.files && s.files[app].documents <= after.files[app].documents
    requires forall tenant :: LogOf(s, tenant).rows <= LogOf(after, tenant).rows
    ensures Tracks(after, t)
  {
    hide PlanScript, ScriptOf, HistoryOk;
    if !t.Begun? && t.row.Some? {
      assert CaseGrows(s.cases[t.r.app], after.cases[t.r.app]);
    }
    if t.Planned? || t.Ready? {
      if MovesCase(t.r.command) && !Stale(s, t.r, t.row) {
        PlanOwner(t.r, t.row, QueueOf(s, t.r.app), t.w);
      }
    }
    if t.Ready? && t.seen.Some? {
      var log, grown := LogOf(s, t.r.tenant), LogOf(after, t.r.tenant);
      var i :| 0 <= i < |log.rows| && log.rows[i].hash == t.seen.value;
      assert grown.rows[i].hash == t.seen.value;
    }
  }

  lemma CommitKeepsTables(s: Store, t: Txn, after: Store)
    requires CasesOk(s) && LogsShaped(s) && t.Ready? && Tracks(s, t)
    requires !Conflicts(s, Recorded(t.w, t.seen)) && after == Apply(s, Recorded(t.w, t.seen))
    ensures CasesOk(after) && LogsShaped(after) && CasesGrow(s, after)
  {
    hide CasesOk, HistoriesOk, LogShaped, Tracks, Conflicts, Apply, Exec, CaseGrows;
    assert HistoriesOk(s) by { CasesOkParts(s); }
    CommitIsSerialAsCounted(s, t);
    ExecKeepsCases(s, t.r);
    SimilarCasesOk(After(s, t.r), after);
    ExecOnlyAdds(s, t.r);
    assert t.w.tenant == t.r.tenant by { ReadyOwner(s, t); }
    AppliedSimilar(s, t.w, t.seen);
  }

  lemma ReadyOwner(s: Store, t: Txn)
    requires t.Ready? && Tracks(s, t)
    ensures t.w.tenant == t.r.tenant && t.w.app == t.r.app
  {
    hide Plan;
  }

  lemma CommitOnlyAppends(s: Store, w: Writes, seen: Option<Hash>, after: Store)
    requires after == Apply(s, Recorded(w, seen))
    ensures forall app :: app in s.files ==> app in after.files && s.files[app].documents <= after.files[app].documents
    ensures forall tenant :: LogOf(s, tenant).rows <= LogOf(after, tenant).rows
  {
    hide BatchRows;
    AppendShape(LogOf(s, w.tenant), seen, w.events);
  }

  lemma CommitKeepsSys(sys: Sys, id: nat)
    requires SysOk(sys) && id in sys.txns && sys.txns[id].Ready?
    requires !Conflicts(sys.store, Recorded(sys.txns[id].w, sys.txns[id].seen))
    ensures SysOk(Next(sys, Commit(id)))
  {
    hide CasesOk, HistoriesOk, CasesGrow, LogsShaped, Tracks, Conflicts, Apply, Recorded;
    var t, s := sys.txns[id], sys.store;
    var after := Apply(s, Recorded(t.w, t.seen));
    assert Next(sys, Commit(id)) == Sys(after, sys.txns - {id});
    hide Next;
    assert HistoriesOk(s) by { CasesOkParts(s); }
    assert Tracks(s, t);
    CommitKeepsTables(s, t, after);
    OthersTrackOn(sys, id, after);
  }

  lemma OthersTrackOn(sys: Sys, id: nat, after: Store)
    requires SysOk(sys) && HistoriesOk(sys.store) && id in sys.txns && sys.txns[id].Ready?
    requires after == Apply(sys.store, Recorded(sys.txns[id].w, sys.txns[id].seen)) && CasesGrow(sys.store, after)
    ensures forall other :: other in sys.txns && other != id ==> Tracks(after, sys.txns[other])
  {
    hide CasesOk, HistoriesOk, CasesGrow, LogsShaped, Tracks, Apply, Recorded;
    CommitOnlyAppends(sys.store, sys.txns[id].w, sys.txns[id].seen, after);
    forall other | other in sys.txns && other != id ensures Tracks(after, sys.txns[other]) {
      assert Tracks(sys.store, sys.txns[other]);
      TracksKept(sys.store, after, sys.txns[other]);
    }
  }

  lemma SimilarCasesOk(a: Store, b: Store)
    requires CasesOk(a) && a.cases == b.cases && a.outbox == b.outbox
    ensures CasesOk(b)
  {
    hide HistoryOk, ProjectedState, Name;
    forall i | 0 <= i < |b.outbox| ensures TellsHistory(b, b.outbox[i]) {
      assert TellsHistory(a, a.outbox[i]);
    }
    forall app, v: nat | app in b.cases && 1 <= v <= b.cases[app].row.version ensures Announced(b, app, v) {
      assert Announced(a, app, v);
    }
  }

  lemma DropKeepsSys(sys: Sys, id: nat)
    requires SysOk(sys)
    ensures SysOk(Drop(sys, id))
  {
    hide CasesOk, LogsShaped, Tracks;
  }

  lemma TxnKeepsSys(sys: Sys, id: nat, t: Txn)
    requires SysOk(sys) && Tracks(sys.store, t)
    ensures SysOk(sys.(txns := sys.txns[id := t]))
  {
    hide CasesOk, LogsShaped, Tracks;
  }

  lemma LoadedTracks(s: Store, r: Request, row: Option<AppRow>)
    requires Tracks(s, Begun(r)) && Load(s, r) == Ok(row)
    ensures Tracks(s, Loaded(r, row))
  {
  }

  lemma PlannedTracks(s: Store, t: Txn, w: Writes)
    requires t.Loaded? && Tracks(s, t) && CanPlan(t.r, t.row) && CountsDocuments(s, t.r)
    requires Plan(t.r, t.row, QueueOf(s, t.r.app)) == Ok(w)
    ensures Tracks(s, Planned(t.r, t.row, w))
  {
    hide Plan;
    PlanOwner(t.r, t.row, QueueOf(s, t.r.app), w);
  }

  lemma RecordedTracks(s: Store, t: Txn)
    requires t.Planned? && Tracks(s, t) && LogsShaped(s)
    ensures Tracks(s, Ready(t.r, t.row, t.w, LatestHash(LogOf(s, t.r.tenant))))
  {
    hide PlanTracks, RowTracks;
    assert LogShaped(LogOf(s, t.r.tenant));
  }

  lemma NextKeepsSys(sys: Sys, step: Step)
    requires SysOk(sys)
    ensures SysOk(Next(sys, step))
  {
    hide CasesOk, Tracks, Reserve, Plan, Conflicts, Apply;
    if step.Begin? {
      if Next(sys, step) != sys {
        assert Tracks(sys.store, Begun(step.request)) by { BegunTracks(sys.store, step.request); }
        TxnKeepsSys(sys, step.id, Begun(step.request));
      }
    } else if step.id in sys.txns {
      var t := sys.txns[step.id];
      assert Tracks(sys.store, t);
      DropKeepsSys(sys, step.id);
      match step
      case LoadRow(id) =>
        if t.Begun? && Load(sys.store, t.r).Ok? {
          var row := Load(sys.store, t.r).value;
          LoadedTracks(sys.store, t.r, row);
          TxnKeepsSys(sys, id, Loaded(t.r, row));
        }
      case PlanWrites(id) =>
        if t.Loaded? && CanPlan(t.r, t.row) && CountsDocuments(sys.store, t.r) && Plan(t.r, t.row, QueueOf(sys.store, t.r.app)).Ok? {
          var w := Plan(t.r, t.row, QueueOf(sys.store, t.r.app)).value;
          PlannedTracks(sys.store, t, w);
          TxnKeepsSys(sys, id, Planned(t.r, t.row, w));
        }
      case RecordEvents(id) =>
        if t.Planned? {
          RecordedTracks(sys.store, t);
          TxnKeepsSys(sys, id, Ready(t.r, t.row, t.w, LatestHash(LogOf(sys.store, t.r.tenant))));
        }
      case Commit(id) =>
        if t.Ready? && !Conflicts(sys.store, Recorded(t.w, t.seen)) {
          CommitKeepsSys(sys, id);
        }
      case Abort(_) =>
    } else {
      DropKeepsSys(sys, step.id);
    }
  }

  lemma BegunTracks(s: Store, r: Request)
    requires Reserve(s, r).Ok?
    ensures Tracks(s, Begun(r))
  {
  }

  /** What a commit of one step is to the store: a serial command, as far as the audit log allows. */
  lemma StepIsSerial(sys: Sys, step: Step)
    requires SysOk(sys)
    ensures var committed := CommittedBy(sys, step);
            if committed.Some?
            then Exec(sys.store, committed.value).Ok? && Similar(Next(sys, step).store, After(sys.store, committed.value))
            else Next(sys, step).store == sys.store
  {
    hide CasesOk, LogsShaped, Tracks, Reserve, Plan, Conflicts, Apply, After, Exec;
    if CommittedBy(sys, step).Some? {
      var t := sys.txns[step.id];
      assert Tracks(sys.store, t);
      CommitIsSerialAsCounted(sys.store, t);
    }
  }

  /** A command cannot tell stores apart that differ in audit hashes only. */
  lemma ExecSimilar(a: Store, b: Store, r: Request)
    requires Similar(a, b)
    ensures match Exec(a, r)
            case Err(e) => Exec(b, r) == Err(e)
            case Ok(outcome) => Exec(b, r).Ok? && Exec(b, r).value.reply == outcome.reply
    ensures Similar(After(a, r), After(b, r))
  {
    hide PlanScript, ScriptOf, BatchRows, Plan;
    assert Reserve(a, r) == Reserve(b, r) && Load(a, r) == Load(b, r) && QueueOf(a, r.app) == QueueOf(b, r.app);
    if Prepare(a, r).Ok? {
      var row := Load(a, r).value;
      var w := Plan(r, row, QueueOf(a, r.app)).value;
      SimilarConflicts(a, b, w, LatestHash(LogOf(a, r.tenant)), LatestHash(LogOf(b, r.tenant)));
      SimilarApplied(a, b, w, LatestHash(LogOf(a, r.tenant)), LatestHash(LogOf(b, r.tenant)));
      assert w.tenant == r.tenant by { PlanOwner(r, row, QueueOf(a, r.app), w); }
    }
    hide Similar, Conflicts, Apply;
  }

  lemma SimilarConflicts(a: Store, b: Store, w: Writes, seenA: Option<Hash>, seenB: Option<Hash>)
    requires Similar(a, b) && (seenA.Some? <==> seenB.Some?)
    ensures Conflicts(a, Recorded(w, seenA)) <==> Conflicts(b, Recorded(w, seenB))
  {
    hide BatchRows;
    assert LogOf(a, w.tenant).checkpoint.Some? <==> LogOf(b, w.tenant).checkpoint.Some?;
    var ra, rb := Recorded(w, seenA), Recorded(w, seenB);
    assert ra.keys == rb.keys && ra.row == rb.row && ra.snapshots == rb.snapshots && ra.queue == rb.queue;
    assert ra.checkpointInserts == rb.checkpointInserts;
  }

  lemma SimilarApplied(a: Store, b: Store, w: Writes, seenA: Option<Hash>, seenB: Option<Hash>)
    requires Similar(a, b)
    ensures Similar(Apply(a, Recorded(w, seenA)), Apply(b, Recorded(w, seenB)))
  {
    AppendShape(LogOf(a, w.tenant), seenA, w.events);
    AppendShape(LogOf(b, w.tenant), seenB, w.events);
    AppliedTables(a, w, seenA);
    AppliedTables(b, w, seenB);
    hide Append, Recorded, BatchRows;
    var aa, bb := Apply(a, Recorded(w, seenA)), Apply(b, Recorded(w, seenB));
    forall t ensures LogOf(aa, t).checkpoint.Some? <==> LogOf(bb, t).checkpoint.Some? {
      assert LogOf(a, t).checkpoint.Some? <==> LogOf(b, t).checkpoint.Some?;
    }
    assert Apply(a, w).cases == Apply(b, w).cases;
  }

  // ---- Main results -----------------------------------------------------------------------------

  lemma SimilarTransitive(a: Store, b: Store, c: Store)
    requires Similar(a, b) && Similar(b, c)
    ensures Similar(a, c)
  {
    forall t ensures LogOf(a, t).checkpoint.Some? <==> LogOf(c, t).checkpoint.Some? {
      assert LogOf(a, t).checkpoint.Some? <==> LogOf(b, t).checkpoint.Some?;
    }
  }

  /** Conflict serialisability, but for what the document gates counted: whatever the interleaving, every
      table but the audit log ends up as if the committed commands had run one after the other, in
      commit order, each gate with the count it had read. */
  lemma {:induction false} EveryInterleavingIsSerialAsCounted(steps: seq<Step>)
    ensures SysOk(RunSteps(steps))
    ensures Similar(RunSteps(steps).store, RunAll(CommitOrder(steps)))
  {
    if steps == [] {
      EmptyStoreOk();
    } else {
      var front, last := steps[..|steps| - 1], steps[|steps| - 1];
      EveryInterleavingIsSerialAsCounted(front);
      var sys, serial := RunSteps(front), RunAll(CommitOrder(front));
      NextKeepsSys(sys, last);
      StepIsSerial(sys, last);
      var committed := CommittedBy(sys, last);
      hide SysOk, Similar, Next, CommittedBy, After;
      if committed.Some? {
        ExecSimilar(sys.store, serial, committed.value);
        SimilarTransitive(RunSteps(steps).store, After(sys.store, committed.value), After(serial, committed.value));
        assert CommitOrder(steps)[..|CommitOrder(steps)| - 1] == CommitOrder(front);
      } else {
        assert CommitOrder(steps) == CommitOrder(front);
      }
    }
  }

  lemma StepOnlyAdds(sys: Sys, step: Step)
    requires SysOk(sys)
    ensures CasesGrow(sys.store, Next(sys, step).store)
  {
    hide LogsShaped, Tracks, Next, CommittedBy, After, Exec, CaseGrows, HistoryOk;
    StepIsSerial(sys, step);
    var committed := CommittedBy(sys, step);
    if committed.Some? {
      ExecOnlyAdds(sys.store, committed.value);
    } else {
      CasesGrowReflexive(sys.store);
    }
  }

  lemma CasesGrowReflexive(s: Store)
    ensures CasesGrow(s, s)
  {
  }

  lemma CasesGrowTransitive(a: Store, b: Store, c: Store)
    requires CasesGrow(a, b) && CasesGrow(b, c)
    ensures CasesGrow(a, c)
  {
    forall app | app in a.cases ensures app in c.cases && CaseGrows(a.cases[app], c.cases[app]) {
      assert CaseGrows(a.cases[app], b.cases[app]);
      assert CaseGrows(b.cases[app], c.cases[app]);
    }
  }

  lemma SysHistories(sys: Sys)
    requires SysOk(sys)
    ensures HistoriesOk(sys.store)
  {
    hide HistoriesOk, OutboxOk, LogsShaped, Tracks;
  }

  /** No update is lost: every version a run has committed is still there, unchanged, after any
      continuation, and the versions of each case are exactly 1 to the current one, joined by legal
      moves. */
  lemma {:induction false} NoUpdateIsLost(steps: seq<Step>, more: seq<Step>)
    ensures CasesGrow(RunSteps(steps).store, RunSteps(steps + more).store)
    ensures HistoriesOk(RunSteps(steps + more).store)
  {
    hide CasesGrow, HistoriesOk, SysOk, Next, Similar;
    EveryInterleavingIsSerialAsCounted(steps + more);
    SysHistories(RunSteps(steps + more));
    if more == [] {
      assert steps + more == steps;
      CasesGrowReflexive(RunSteps(steps).store);
    } else {
      var front, last := more[..|more| - 1], more[|more| - 1];
      NoUpdateIsLost(steps, front);
      assert (steps + more)[..|steps + more| - 1] == steps + front;
      EveryInterleavingIsSerialAsCounted(steps + front);
      StepOnlyAdds(RunSteps(steps + front), last);
      CasesGrowTransitive(RunSteps(steps).store, RunSteps(steps + front).store, RunSteps(steps + more).store);
    }
  }

  /** Two transactions that moved the same case from the same version cannot both commit: the version
      check of `save` passes in both, and the snapshot constraint refuses the second. */
  lemma RaceHasOneWinner(sys: Sys, a: nat, b: nat)
    requires SysOk(sys) && a != b && a in sys.txns && b in sys.txns
    requires sys.txns[a].Ready? && sys.txns[b].Ready?
    requires MovesCase(sys.txns[a].r.command) && MovesCase(sys.txns[b].r.command)
    requires sys.txns[a].r.app == sys.txns[b].r.app
    requires !Conflicts(sys.store, Recorded(sys.txns[a].w, sys.txns[a].seen))
    ensures Next(Next(sys, Commit(a)), Commit(b)).store == Next(sys, Commit(a)).store
  {
    hide CasesOk, LogsShaped, Tracks, Conflicts, Apply, Recorded;
    var s, ta, tb := sys.store, sys.txns[a], sys.txns[b];
    assert Tracks(s, ta) && Tracks(s, tb);
    CommitKeepsSys(sys, a);
    var mid := Next(sys, Commit(a));
    assert b in mid.txns && mid.txns[b] == tb;
    assert Tracks(mid.store, tb);
    LoserConflicts(s, ta, tb, mid.store);
  }

  lemma LoserConflicts(s: Store, ta: Txn, tb: Txn, after: Store)
    requires CasesOk(s) && LogsShaped(s) && ta.Ready? && Tracks(s, ta) && tb.Ready? && Tracks(s, tb)
    requires MovesCase(ta.r.command) && MovesCase(tb.r.command) && ta.r.app == tb.r.app
    requires !Conflicts(s, Recorded(ta.w, ta.seen)) && after == Apply(s, Recorded(ta.w, ta.seen))
    requires CasesOk(after) && Tracks(after, tb)
    ensures Conflicts(after, Recorded(tb.w, tb.seen))
  {
    MoveMakesStale(s, ta, tb, after);
    hide Conflicts, Apply, Plan, Exec, LogsShaped, OutboxOk, HistoryOk;
    StaleMoveConflicts(after, tb.r, tb.row, tb.w);
    SnapshotConflictRefuses(after, tb.w, tb.seen);
  }

  lemma SnapshotConflictRefuses(s: Store, w: Writes, seen: Option<Hash>)
    requires SnapshotConflict(CaseOf(s, w.app), w)
    ensures Conflicts(s, Recorded(w, seen))
  {
  }

  lemma MoveMakesStale(s: Store, ta: Txn, tb: Txn, after: Store)
    requires CasesOk(s) && LogsShaped(s) && ta.Ready? && Tracks(s, ta) && tb.Ready? && Tracks(s, tb)
    requires MovesCase(ta.r.command) && MovesCase(tb.r.command) && ta.r.app == tb.r.app
    requires !Conflicts(s, Recorded(ta.w, ta.seen)) && after == Apply(s, Recorded(ta.w, ta.seen))
    ensures Stale(after, tb.r, tb.row)
  {
    hide Conflicts, Apply, PlanScript, ScriptOf, HistoryOk;
    CommitIsSerialAsCounted(s, ta);
    ExecMovesOn(s, ta.r);
  }

  /** A committed case-moving command leaves its case at a later version. */
  lemma ExecMovesOn(s: Store, r: Request)
    requires HistoriesOk(s) && MovesCase(r.command) && Exec(s, r).Ok?
    ensures r.app in s.cases && r.app in After(s, r).cases
    ensures s.cases[r.app].row.version < After(s, r).cases[r.app].row.version
  {
    hide HistoryOk, Advances, Grows, Commits, PlanScript, ScriptOf, Prepare, Conflicts, Apply, CaseAfter;
    var row, w := ExecCommits(s, r);
    MoveGrows(s, r, s.cases[r.app], w, After(s, r));
    GrownVersion(s, After(s, r), s.cases[r.app], CaseAfter(Some(s.cases[r.app]), w).value, w.events);
  }

  lemma GrownVersion(s: Store, after: Store, before: Case, c: Case, batch: seq<OutboxRow>)
    requires Advances(before, c, batch) && Grows(s, after, c, before.row.version, batch)
    ensures c.row.app in after.cases && c.row.app == before.row.app
    ensures after.cases[c.row.app].row.version > before.row.version
  {
    hide Tells;
  }

  /** A tenant's log that verifies still does after a commit with events exactly when the transaction
      recorded them against the checkpoint that is still the latest; otherwise two rows now claim the
      same predecessor. */
  lemma CommitKeepsChainIffFresh(s: Store, t: Txn)
    requires CollisionFree() && t.Ready? && Tracks(s, t) && LogVerifies(LogOf(s, t.r.tenant))
    requires t.w.events != [] && !Conflicts(s, Recorded(t.w, t.seen))
    ensures var log := LogOf(Apply(s, Recorded(t.w, t.seen)), t.r.tenant);
            && (LogVerifies(log) <==> t.seen == LatestHash(LogOf(s, t.r.tenant)))
            && (Forked(log.rows) <==> t.seen != LatestHash(LogOf(s, t.r.tenant)))
  {
    ReadyOwner(s, t);
    AppliedTables(s, t.w, t.seen);
    NoCheckpointConflict(s, t.w, t.seen);
    hide PlanTracks, RowTracks, Conflicts, Apply, LogVerifies, Append, Recorded, BatchRows;
    CommitForksIffStale(LogOf(s, t.r.tenant), t.seen, t.w.events);
  }

  lemma NoCheckpointConflict(s: Store, w: Writes, seen: Option<Hash>)
    requires !Conflicts(s, Recorded(w, seen))
    ensures !CheckpointConflict(LogOf(s, w.tenant), CheckpointInserts(seen, w.events))
  {
  }

  /** Two transactions of a tenant that recorded their events against the same checkpoint, and whose
      writes do not collide, both commit, and the second commit forks the chain. */
  lemma OverlappingCommitsFork(sys: Sys, a: nat, b: nat)
    requires CollisionFree() && SysOk(sys) && a != b && a in sys.txns && b in sys.txns
    requires sys.txns[a].Ready? && sys.txns[b].Ready? && sys.txns[a].r.tenant == sys.txns[b].r.tenant
    requires sys.txns[a].w.events != [] && sys.txns[b].w.events != []
    requires LogVerifies(LogOf(sys.store, sys.txns[a].r.tenant))
    requires sys.txns[a].seen == LatestHash(LogOf(sys.store, sys.txns[a].r.tenant)) == sys.txns[b].seen
    requires CommittedBy(sys, Commit(a)).Some? && CommittedBy(Next(sys, Commit(a)), Commit(b)).Some?
    ensures var log := LogOf(Next(Next(sys, Commit(a)), Commit(b)).store, sys.txns[a].r.tenant);
            Forked(log.rows) && !LogVerifies(log)
  {
    hide CasesOk, LogsShaped, Tracks, Conflicts, Apply, Recorded, LogVerifies, Forked;
    var s, ta, tb := sys.store, sys.txns[a], sys.txns[b];
    var mid := Next(sys, Commit(a));
    CommitKeepsSys(sys, a);
    assert Tracks(s, ta) && Tracks(mid.store, tb);
    CommitKeepsChainIffFresh(s, ta);
    assert LatestHash(LogOf(mid.store, ta.r.tenant)) != ta.seen by { CheckpointMoves(s, ta, mid.store); }
    CommitKeepsChainIffFresh(mid.store, tb);
  }

  /** A commit with events leaves another checkpoint hash. */
  lemma CheckpointMoves(s: Store, t: Txn, after: Store)
    requires CollisionFree() && t.Ready? && Tracks(s, t) && t.w.events != []
    requires t.seen == LatestHash(LogOf(s, t.r.tenant)) && LogVerifies(LogOf(s, t.r.tenant))
    requires after == Apply(s, Recorded(t.w, t.seen)) && LogVerifies(LogOf(after, t.r.tenant))
    ensures LatestHash(LogOf(after, t.r.tenant)) != t.seen
  {
    ReadyOwner(s, t);
    AppliedTables(s, t.w, t.seen);
    hide PlanTracks, RowTracks, Apply, Recorded;
    LongerChainEndsElsewhere(LogOf(s, t.r.tenant), t.w.events);
  }

  lemma LongerChainEndsElsewhere(log: AuditLog, batch: seq<OutboxRow>)
    requires CollisionFree() && LogVerifies(log) && batch != []
    requires LogVerifies(Append(log, LatestHash(log), batch))
    ensures LatestHash(Append(log, LatestHash(log), batch)) != LatestHash(log)
  {
    var after := Append(log, LatestHash(log), batch);
    assert |after.rows| == |log.rows| + |batch|;
    assert |HashedFields(log.rows)| < |HashedFields(after.rows)|;
    if LatestHash(after) == LatestHash(log) {
      TamperEvidence(log.rows, after.rows, log.checkpoint.value.latestHash);
      assert false;
    }
  }

  // ---- The chains of whole runs -----------------------------------------------------------------

  /** A step that commits events of the tenant does so against the checkpoint that is still current. */
  ghost predicate FreshStep(sys: Sys, step: Step, tenant: TenantId)
  {
    CommittedBy(sys, step).Some? && sys.txns[step.id].r.tenant == tenant && sys.txns[step.id].w.events != [] ==>
      sys.txns[step.id].seen == LatestHash(LogOf(sys.store, tenant))
  }

  /** A broken chain stays broken, whatever is appended to it. */
  lemma BrokenStaysBroken(log: AuditLog, seen: Option<Hash>, batch: seq<OutboxRow>)
    requires CollisionFree() && LogShaped(log) && !LogVerifies(log)
    ensures !LogVerifies(Append(log, seen, batch))
  {
    if batch != [] {
      var after := Append(log, seen, batch);
      assert |after.rows| > |log.rows| && after.rows[..|log.rows|] == log.rows;
      if LogVerifies(after) {
        ChainPrefix(after.rows, after.checkpoint.value.latestHash, |log.rows|);
        assert false;
      }
    }
  }

  lemma AppendNothing(log: AuditLog, seen: Option<Hash>)
    ensures Append(log, seen, []) == log
  {
  }

  /** What one committing step does to whether a tenant's log verifies. */
  lemma CommitChain(s: Store, t: Txn, tenant: TenantId)
    requires CollisionFree() && LogsShaped(s) && t.Ready? && Tracks(s, t)
    requires !Conflicts(s, Recorded(t.w, t.seen))
    ensures LogVerifies(LogOf(Apply(s, Recorded(t.w, t.seen)), tenant)) <==>
            && LogVerifies(LogOf(s, tenant))
            && (t.r.tenant == tenant && t.w.events != [] ==> t.seen == LatestHash(LogOf(s, tenant)))
  {
    assert LogShaped(LogOf(s, tenant));
    hide LogsShaped, LogShaped, PlanTracks, RowTracks, Conflicts, Apply, Recorded, LogVerifies, Append;
    ReadyOwner(s, t);
    AppliedTables(s, t.w, t.seen);
    if t.r.tenant == tenant {
      if t.w.events == [] {
        AppendNothing(LogOf(s, tenant), t.seen);
      } else if LogVerifies(LogOf(s, tenant)) {
        CommitKeepsChainIffFresh(s, t);
      } else {
        BrokenStaysBroken(LogOf(s, tenant), t.seen, t.w.events);
      }
    }
  }

  lemma StepChain(sys: Sys, step: Step, tenant: TenantId)
    requires CollisionFree() && SysOk(sys)
    ensures LogVerifies(LogOf(Next(sys, step).store, tenant)) <==>
            LogVerifies(LogOf(sys.store, tenant)) && FreshStep(sys, step, tenant)
  {
    hide CasesOk, LogsShaped, Tracks, Conflicts, Apply, Recorded, Reserve, Plan, LogVerifies;
    if CommittedBy(sys, step).Some? {
      assert Tracks(sys.store, sys.txns[step.id]);
      CommitChain(sys.store, sys.txns[step.id], tenant);
    }
  }

  // ---- Rows and events ----------------------------------------------------------------------------

  /** Each tenant's audit rows record its outbox rows one to one, in order, forked or not. */
  ghost predicate LogsMatch(s: Store)
  {
    forall t :: WitnessesAll(LogOf(s, t).rows, OfTenant(s.outbox, t))
  }

  lemma ScriptTenant(row: AppRow, script: Script, now: Time, m: Moved)
    requires MoveThrough(row, script, now) == Ok(m)
    ensures forall i :: 0 <= i < |m.aggregate.pending| ==> m.aggregate.pending[i].tenant == row.tenant
  {
    hide IsLegal;
  }

  lemma PlanTenant(r: Request, row: Option<AppRow>, queue: Option<QueueRow>, w: Writes)
    requires CanPlan(r, row) && Plan(r, row, queue) == Ok(w) && (row.Some? ==> row.value.tenant == r.tenant)
    ensures forall i :: 0 <= i < |w.events| ==> w.events[i].tenant == r.tenant
  {
    hide ScriptOf, MoveThrough, Name;
    if MovesCase(r.command) {
      var m := PlanScriptWrites(r, ScriptOf(r.command), row.value, queue, w);
      ScriptTenant(row.value, ScriptOf(r.command), r.stamp.now, m);
    }
  }

  lemma MatchGrows(s: Store, after: Store, tenant: TenantId, seen: Option<Hash>, batch: seq<OutboxRow>)
    requires LogsMatch(s) && after.outbox == s.outbox + batch
    requires forall i :: 0 <= i < |batch| ==> batch[i].tenant == tenant
    requires forall t :: LogOf(after, t) == if t == tenant then Append(LogOf(s, t), seen, batch) else LogOf(s, t)
    ensures LogsMatch(after)
  {
    hide WitnessesAll, BatchRows;
    forall t ensures WitnessesAll(LogOf(after, t).rows, OfTenant(after.outbox, t)) {
      assert WitnessesAll(LogOf(s, t).rows, OfTenant(s.outbox, t));
      OfTenantConcat(s.outbox, batch, t);
      OfTenantAll(batch, t, tenant);
      if t == tenant {
        BatchRowsWitness(seen, batch);
        WitnessesConcat(LogOf(s, t).rows, BatchRows(seen, batch), OfTenant(s.outbox, t), batch);
        assert LogOf(after, t).rows == LogOf(s, t).rows + BatchRows(seen, batch);
      } else {
        assert OfTenant(s.outbox, t) + [] == OfTenant(s.outbox, t);
      }
    }
  }

  lemma WitnessesConcat(a: seq<AuditRow>, b: seq<AuditRow>, x: seq<OutboxRow>, y: seq<OutboxRow>)
    requires WitnessesAll(a, x) && WitnessesAll(b, y)
    ensures WitnessesAll(a + b, x + y)
  {
    hide Witnesses;
  }

  lemma CommitMatches(s: Store, t: Txn)
    requires CasesOk(s) && LogsShaped(s) && t.Ready? && Tracks(s, t) && LogsMatch(s)
    requires !Conflicts(s, Recorded(t.w, t.seen))
    ensures LogsMatch(Apply(s, Recorded(t.w, t.seen)))
  {
    hide CasesOk, LogsShaped, LogsMatch, Conflicts, Plan, BatchRows, Exec, After, Apply;
    EventsOfTenant(s, t);
    ReadyOwner(s, t);
    AppliedTables(s, t.w, t.seen);
    AppliedOutbox(s, t.w);
    hide Append;
    MatchGrows(s, Apply(s, Recorded(t.w, t.seen)), t.r.tenant, t.seen, t.w.events);
  }

  lemma AppliedOutbox(s: Store, w: Writes)
    ensures Apply(s, w).outbox == s.outbox + w.events
  {
  }

  /** A transaction that can commit writes events of its own tenant only. */
  lemma EventsOfTenant(s: Store, t: Txn)
    requires CasesOk(s) && LogsShaped(s) && t.Ready? && Tracks(s, t)
    requires !Conflicts(s, Recorded(t.w, t.seen))
    ensures forall i :: 0 <= i < |t.w.events| ==> t.w.events[i].tenant == t.r.tenant
  {
    hide OutboxOk, LogsShaped, HistoryOk, Exec, Apply, Plan, BatchRows;
    if MovesCase(t.r.command) && Stale(s, t.r, t.row) {
      StaleMoveConflicts(s, t.r, t.row, t.w);
      assert false;
    }
    hide Conflicts;
    RowIsCurrent(s, t.r, t.row, t.w);
    LoadedTenant(s, t.r);
    PlanTenant(t.r, Load(s, t.r).value, QueueOf(s, t.r.app), t.w);
  }

  lemma LoadedTenant(s: Store, r: Request)
    requires Load(s, r).Ok?
    ensures Load(s, r).value.Some? ==> Load(s, r).value.value.tenant == r.tenant
  {
  }

  /** However transactions overlap, a tenant's audit log records exactly its outbox rows, in order. */
  lemma {:induction false} AuditRowsMatchOutbox(steps: seq<Step>)
    ensures LogsMatch(RunSteps(steps).store)
  {
    if steps != [] {
      var front, last := steps[..|steps| - 1], steps[|steps| - 1];
      AuditRowsMatchOutbox(front);
      EveryInterleavingIsSerialAsCounted(front);
      var sys := RunSteps(front);
      hide LogsMatch, CasesOk, LogsShaped, Tracks, Conflicts, Apply, Recorded, Reserve, Plan, Similar;
      if CommittedBy(sys, last).Some? {
        assert Tracks(sys.store, sys.txns[last.id]);
        CommitMatches(sys.store, sys.txns[last.id]);
      }
    }
  }
}
