/** One database transaction: what it has staged, and how it commits or leaves nothing behind. */
module UnitOfWork {
  import opened Prelude
  import opened CaseStatus
  import opened Applications
  import opened EventMapping
  import opened Audit
  import opened Store

  lemma NoRowsYet(seen: Option<Hash>, batch: seq<OutboxRow>)
    ensures batch[..0] == [] && BatchRows(seen, batch[..0]) == [] && CheckpointInserts(seen, batch[..0]) == 0
    ensures seen.Some? ==> PrevHash(seen, []) == seen.value
  {
  }

  /** What one more event adds to a recorded batch. */
  lemma OneRowMore(seen: Option<Hash>, batch: seq<OutboxRow>, i: nat, row: AuditRow)
    requires i < |batch|
    requires row == AuditRowOf(if seen.Some? then PrevHash(seen, BatchRows(seen, batch[..i])) else GENESIS_HASH, batch[i])
    ensures batch[..i + 1] == batch[..i] + [batch[i]]
    ensures BatchRows(seen, batch[..i + 1]) == BatchRows(seen, batch[..i]) + [row]
    ensures CheckpointInserts(seen, batch[..i + 1]) == CheckpointInserts(seen, batch[..i]) + if seen.None? then 1 else 0
    ensures seen.Some? ==> PrevHash(seen, BatchRows(seen, batch[..i]) + [row]) == row.hash
  {
    assert batch[..i + 1][..i] == batch[..i];
  }

  /** The committed tables. */
  class Database {
    var store: Store

    constructor (store: Store)
      ensures this.store == store
    {
      this.store := store;
    }
  }

  /** A transaction of one tenant on one application. Nothing reaches the database before `Commit`;
      leaving without it is the rollback. */
  class SqlUnitOfWork {
    const db: Database
    const tenant: TenantId
    const app: AppId
    var writes: Writes
    /** The application's row in the session's identity map. */
    var identity: Option<AppRow>
    var committed: bool

    constructor (db: Database, tenant: TenantId, app: AppId)
      ensures this.db == db && this.tenant == tenant && this.app == app
      ensures writes == NoWrites(tenant, app) && identity == None && !committed
    {
      this.db, this.tenant, this.app := db, tenant, app;
      writes, identity, committed := NoWrites(tenant, app), None, false;
    }

    /** Inserts the key and reports whether the insert went through. */
    method ReserveIdempotencyKey(operation: Operation, key: IdempotencyKey) returns (reserved: bool)
      modifies this`writes
      ensures reserved <==> Key(tenant, operation, key) !in db.store.keys
      ensures writes == if reserved then old(writes).(keys := old(writes).keys + {Key(tenant, operation, key)})
                        else old(writes)
    {
      var k := Key(tenant, operation, key);
      if k in db.store.keys {
        return false;
      }
      writes := writes.(keys := writes.keys + {k});
      return true;
    }

    /** The application as stored, unless it is missing or another tenant's. */
    method GetApplication() returns (a: Option<Application>)
      requires identity.None?
      modifies this`identity
      ensures a.Some? <==> app in db.store.cases && db.store.cases[app].row.tenant == tenant
      ensures a.Some? ==> fresh(a.value) && a.value.State() == Aggregate(db.store.cases[app].row, [])
      ensures identity == if app in db.store.cases then Some(db.store.cases[app].row) else None
    {
      if app !in db.store.cases {
        return None;
      }
      var row := db.store.cases[app].row;
      identity := Some(row);
      if row.tenant != tenant {
        return None;
      }
      var application := new Application.FromRow(row);
      return Some(application);
    }

    /** Stages the row of a new application and its first snapshot. */
    method AddApplication(application: Application)
      modifies this`writes
      ensures var row := application.State().row;
              writes == old(writes).(row := RowInsert(row),
                snapshots := old(writes).snapshots[row.version := Snapshot(row.status, row.updatedAt)])
    {
      var row := application.Row();
      writes := writes.(row := RowInsert(row),
                        snapshots := writes.snapshots[row.version := Snapshot(row.status, row.updatedAt)]);
    }

    /** Stages an update and a snapshot. The version check reads the row the session itself loaded,
        not the database: after one transition on that row it always passes. */
    method SaveApplication(application: Application) returns (r: Result<(), Error>)
      requires identity.Some?
      modifies this`writes, this`identity
      ensures r.Ok? <==> old(identity).value.version == application.version - 1
      ensures r.Err? ==> writes == old(writes) && identity == old(identity)
      ensures r.Err? ==> r.error == ConcurrencyConflict(application.version - 1, old(identity).value.version)
      ensures r.Ok? ==>
        var row := old(identity).value.(status := application.status, version := application.version,
                     updatedAt := application.updatedAt, workflow := application.activeWorkflow);
        && identity == Some(row)
        && writes == old(writes).(row := RowUpdate(row),
             snapshots := old(writes).snapshots[row.version := Snapshot(row.status, row.updatedAt)])
    {
      var existing := identity.value;
      if existing.version != application.version - 1 {
        return Err(ConcurrencyConflict(application.version - 1, existing.version));
      }
      var row := existing.(status := application.status, version := application.version,
                           updatedAt := application.updatedAt, workflow := application.activeWorkflow);
      identity := Some(row);
      writes := writes.(row := RowUpdate(row),
                        snapshots := writes.snapshots[row.version := Snapshot(row.status, row.updatedAt)]);
      return Ok(());
    }

    /** A plain insert into the review queue. */
    method AddQueueEntry(enteredAt: Time)
      modifies this`writes
      ensures writes == old(writes).(queue := QueueInsert(Pending(enteredAt)))
    {
      writes := writes.(queue := QueueInsert(Pending(enteredAt)));
    }

    method MarkDecided(decision: Status, reason: string, reviewer: Option<string>, decidedAt: Time)
      returns (r: Result<(), Error>)
      modifies this`writes
      ensures r.Ok? <==> QueueOf(db.store, app).Some?
      ensures r.Err? ==> r.error == QueueEntryMissing && writes == old(writes)
      ensures r.Ok? ==> writes == old(writes).(queue := QueueUpdate(
        Decided(QueueOf(db.store, app).value.enteredAt, decision, reason, reviewer, decidedAt)))
    {
      if app !in db.store.cases || db.store.cases[app].queue.None? {
        return Err(QueueEntryMissing);
      }
      var row := db.store.cases[app].queue.value;
      writes := writes.(queue := QueueUpdate(Decided(row.enteredAt, decision, reason, reviewer, decidedAt)));
      return Ok(());
    }

    method AddFiles(files: Files)
      modifies this`writes
      ensures writes == old(writes).(files := files)
    {
      writes := writes.(files := files);
    }

    /** One outbox row and one chained audit row per event. The checkpoint row is looked up for each
        event: one the transaction itself inserted is pending and stays invisible to the lookup,
        one it loaded is updated in place. */
    method RecordDomainEvents(events: seq<DomainEvent>, firstId: nat)
      requires writes.events == [] && writes.auditRows == [] && writes.checkpointInserts == 0
      modifies this`writes
      ensures var batch := RowsOf(events, firstId);
              writes == Recorded(old(writes).(events := batch), LatestHash(LogOf(db.store, tenant)))
      ensures |writes.events| == |events| && WitnessesAll(writes.auditRows, writes.events)
    {
      hide WitnessesAll, BatchRows, CheckpointInserts, PrevHash, AuditRowOf;
      ghost var seen := LatestHash(LogOf(db.store, tenant));
      ghost var batch := RowsOf(events, firstId);
      var checkpoint := LatestHash(LogOf(db.store, tenant));
      var outbox: seq<OutboxRow>, auditRows: seq<AuditRow>, inserts: nat := [], [], 0;
      var i := 0;
      NoRowsYet(seen, batch);
      while i < |events|
        invariant 0 <= i <= |events|
        invariant writes == old(writes) && db.store == old(db.store)
        invariant outbox == batch[..i]
        invariant auditRows == BatchRows(seen, batch[..i])
        invariant inserts == CheckpointInserts(seen, batch[..i])
        invariant checkpoint.Some? <==> seen.Some?
        invariant checkpoint.Some? ==> checkpoint.value == PrevHash(seen, auditRows)
      {
        var row := RowOf(events[i], firstId + i);
        outbox := outbox + [row];
        var prevHash := if checkpoint.Some? then checkpoint.value else GENESIS_HASH;
        var auditRow := AuditRowOf(prevHash, row);
        OneRowMore(seen, batch, i, auditRow);
        auditRows := auditRows + [auditRow];
        if checkpoint.None? {
          inserts := inserts + 1;
        } else {
          checkpoint := Some(auditRow.hash);
        }
        i := i + 1;
      }
      assert batch[..i] == batch;
      writes := writes.(events := outbox, auditRows := auditRows, checkpointInserts := inserts);
      BatchRowsWitness(seen, batch);
    }

    /** Commits the staged writes together, or nothing when a constraint refuses them. */
    method Commit() returns (r: Result<(), Error>)
      modifies db, this`committed
      ensures r.Ok? <==> !Conflicts(old(db.store), writes)
      ensures r.Ok? ==> db.store == Apply(old(db.store), writes) && committed
      ensures r.Err? ==> r.error == IntegrityViolation && db.store == old(db.store) && committed == old(committed)
    {
      if Conflicts(db.store, writes) {
        return Err(IntegrityViolation);
      }
      db.store := Apply(db.store, writes);
      committed := true;
      return Ok(());
    }
  }
}
