/** The hash-chained audit log: what one recorded batch appends, and what a verified chain proves. */
module Audit {
  import opened Prelude
  import opened EventMapping

  type Hash = string

  const GENESIS_HASH: Hash := "0000000000000000000000000000000000000000000000000000000000000000"

  /** Every field that enters the digest. The tenant, the aggregate type and the row's creation
      time do not. */
  datatype HashInput = HashInput(prevHash: Hash, eventId: nat, eventType: string, aggregateId: AppId,
                                 occurredAt: Time, payload: Payload)

  /** SHA-256 over the canonical JSON text, left uninterpreted. */
  const DIGEST: HashInput -> Hash

  /** What is asked of the digest: no collisions, and never the genesis value. */
  ghost predicate CollisionFree()
  {
    && (forall x, y :: DIGEST(x) == DIGEST(y) ==> x == y)
    && (forall x :: DIGEST(x) != GENESIS_HASH)
  }

  /** A row of `audit.audit_events`. */
  datatype AuditRow = AuditRow(tenant: TenantId, hashed: HashInput, hash: Hash)

  /** The per-tenant anchor, `audit.audit_hashes`. */
  datatype Checkpoint = Checkpoint(latestEventId: nat, latestHash: Hash)

  datatype AuditLog = AuditLog(rows: seq<AuditRow>, checkpoint: Option<Checkpoint>)

  const EMPTY_LOG := AuditLog([], None)

  function HashInputOf(prevHash: Hash, r: OutboxRow): HashInput
  {
    HashInput(prevHash, r.eventId, r.eventType, r.aggregateId, r.occurredAt, r.payload)
  }

  function ComputeAuditHash(prevHash: Hash, r: OutboxRow): Hash
  {
    DIGEST(HashInputOf(prevHash, r))
  }

  function AuditRowOf(prevHash: Hash, r: OutboxRow): AuditRow
  {
    AuditRow(r.tenant, HashInputOf(prevHash, r), ComputeAuditHash(prevHash, r))
  }

  /** The hash the next row of a batch is chained to, when the batch read `seen` and has written
      `rows`. A checkpoint row the batch itself inserted is still pending, and the read does not
      see it. */
  function PrevHash(seen: Option<Hash>, rows: seq<AuditRow>): Hash
  {
    if seen.None? then GENESIS_HASH
    else if rows == [] then seen.value
    else rows[|rows| - 1].hash
  }

  /** The audit rows of a batch of outbox rows. */
  function BatchRows(seen: Option<Hash>, batch: seq<OutboxRow>): (rows: seq<AuditRow>)
    ensures |rows| == |batch|
  {
    if batch == [] then []
    else
      var front := BatchRows(seen, batch[..|batch| - 1]);
      front + [AuditRowOf(PrevHash(seen, front), batch[|batch| - 1])]
  }

  function LatestHash(log: AuditLog): Option<Hash>
  {
    if log.checkpoint.Some? then Some(log.checkpoint.value.latestHash) else None
  }

  /** How many checkpoint rows a batch inserts: one per event when it saw none. */
  function CheckpointInserts(seen: Option<Hash>, batch: seq<OutboxRow>): nat
  {
    if seen.None? then |batch| else 0
  }

  /** The primary key of `audit_hashes` refuses a second row for a tenant. */
  predicate CheckpointConflict(log: AuditLog, inserts: nat)
  {
    inserts > 1 || (inserts == 1 && log.checkpoint.Some?)
  }

  /** The log once audit rows are in it and the checkpoint points at the last one. */
  function LogAfter(log: AuditLog, rows: seq<AuditRow>): AuditLog
  {
    if rows == [] then log
    else
      var last := rows[|rows| - 1];
      AuditLog(log.rows + rows, Some(Checkpoint(last.hashed.eventId, last.hash)))
  }

  /** The log after a batch that was recorded against `seen` commits. */
  function Append(log: AuditLog, seen: Option<Hash>, batch: seq<OutboxRow>): AuditLog
  {
    LogAfter(log, BatchRows(seen, batch))
  }

  /** A full verification pass: recompute every hash from the stored fields, from the checkpoint
      back to genesis. */
  ghost predicate Chain(rows: seq<AuditRow>, to: Hash)
  {
    if rows == [] then to == GENESIS_HASH
    else
      var last := rows[|rows| - 1];
      last.hash == to && DIGEST(last.hashed) == to && Chain(rows[..|rows| - 1], last.hashed.prevHash)
  }

  ghost predicate LogVerifies(log: AuditLog)
  {
    match log.checkpoint
    case None => log.rows == []
    case Some(c) => log.rows != [] && Chain(log.rows, c.latestHash)
                    && log.rows[|log.rows| - 1].hashed.eventId == c.latestEventId
  }

  /** Two rows chained to the same predecessor. */
  ghost predicate Forked(rows: seq<AuditRow>)
  {
    exists i, j :: 0 <= i < j < |rows| && rows[i].hashed.prevHash == rows[j].hashed.prevHash
  }

  ghost function HashedFields(rows: seq<AuditRow>): (inputs: seq<HashInput>)
    ensures |inputs| == |rows|
  {
    seq(|rows|, i requires 0 <= i < |rows| => rows[i].hashed)
  }

  /** Tamper evidence: two logs that verify up to the same checkpoint hash have the same number of
      rows and agree on every hashed field, so no edit, insertion, deletion or reordering of the
      rows behind a checkpoint goes unnoticed. */
  lemma {:induction false} TamperEvidence(a: seq<AuditRow>, b: seq<AuditRow>, to: Hash)
    requires CollisionFree()
    requires Chain(a, to) && Chain(b, to)
    ensures HashedFields(a) == HashedFields(b)
  {
    if a != [] && b != [] {
      var la, lb := |a| - 1, |b| - 1;
      TamperEvidence(a[..la], b[..lb], a[la].hashed.prevHash);
      var fa, fb := HashedFields(a[..la]), HashedFields(b[..lb]);
      assert HashedFields(a) == fa + [a[la].hashed];
      assert HashedFields(b) == fb + [b[lb].hashed];
    }
  }

  /** Every prefix of a verified log verifies up to the next row's predecessor. */
  lemma {:induction false} ChainPrefix(rows: seq<AuditRow>, to: Hash, n: nat)
    requires Chain(rows, to) && n < |rows|
    ensures Chain(rows[..n], rows[n].hashed.prevHash)
  {
    var last := |rows| - 1;
    if n < last {
      ChainPrefix(rows[..last], rows[last].hashed.prevHash, n);
      assert rows[..last][..n] == rows[..n];
    }
  }

  /** A verified log is one line: no two rows share a predecessor. */
  lemma ChainIsUnforked(rows: seq<AuditRow>, to: Hash)
    requires CollisionFree() && Chain(rows, to)
    ensures !Forked(rows)
  {
    forall i, j | 0 <= i < j < |rows|
      ensures rows[i].hashed.prevHash != rows[j].hashed.prevHash
    {
      ChainPrefix(rows, to, i);
      ChainPrefix(rows, to, j);
      if rows[i].hashed.prevHash == rows[j].hashed.prevHash {
        TamperEvidence(rows[..i], rows[..j], rows[i].hashed.prevHash);
        assert false;
      }
    }
  }

  /** What the digest does not cover: changing a row's tenant leaves verification unchanged. */
  lemma {:induction false} TenantIsNotHashed(rows: seq<AuditRow>, i: nat, tenant: TenantId, to: Hash)
    requires i < |rows|
    ensures Chain(rows[i := rows[i].(tenant := tenant)], to) <==> Chain(rows, to)
  {
    var edited := rows[i := rows[i].(tenant := tenant)];
    var last := |rows| - 1;
    if i < last {
      assert edited[..last] == rows[..last][i := rows[..last][i].(tenant := tenant)];
      TenantIsNotHashed(rows[..last], i, tenant, rows[last].hashed.prevHash);
    } else {
      assert edited[..last] == rows[..last];
    }
  }

  /** A batch recorded against the current checkpoint extends the chain row by row. */
  lemma {:induction false} BatchExtends(rows: seq<AuditRow>, from: Hash, batch: seq<OutboxRow>, seen: Option<Hash>)
    requires Chain(rows, from)
    requires batch != []
    requires if seen.None? then from == GENESIS_HASH && |batch| == 1 else seen.value == from
    ensures var added := BatchRows(seen, batch);
            Chain(rows + added, added[|added| - 1].hash)
  {
    var n := |batch| - 1;
    var front := BatchRows(seen, batch[..n]);
    var row := AuditRowOf(PrevHash(seen, front), batch[n]);
    assert (rows + (front + [row]))[..|rows| + n] == rows + front;
    if n == 0 {
      assert front == [] && rows + front == rows;
    } else {
      BatchExtends(rows, from, batch[..n], seen);
    }
  }

  /** With serialised commits a batch reads the checkpoint it commits against, and the log keeps
      verifying. A two-event batch needs a checkpoint to be there already. */
  lemma SerialAppendVerifies(log: AuditLog, batch: seq<OutboxRow>)
    requires LogVerifies(log)
    requires !CheckpointConflict(log, CheckpointInserts(LatestHash(log), batch))
    ensures LogVerifies(Append(log, LatestHash(log), batch))
  {
    if batch != [] {
      var seen := LatestHash(log);
      BatchExtends(log.rows, if seen.None? then GENESIS_HASH else seen.value, batch, seen);
      var added := BatchRows(seen, batch);
      assert (log.rows + added)[|log.rows + added| - 1] == added[|added| - 1];
    }
  }

  /** A checkpoint some earlier commit of the tenant wrote, or none when nothing was written yet. */
  ghost predicate WasCheckpoint(log: AuditLog, seen: Option<Hash>)
  {
    match seen
    case None => true
    case Some(h) => exists i :: 0 <= i < |log.rows| && log.rows[i].hash == h
  }

  lemma {:induction false} FirstBatchRow(seen: Option<Hash>, batch: seq<OutboxRow>)
    requires batch != []
    ensures BatchRows(seen, batch)[0].hashed.prevHash == PrevHash(seen, [])
  {
    if |batch| > 1 {
      FirstBatchRow(seen, batch[..|batch| - 1]);
    }
  }

  lemma {:induction false} ChainLinks(rows: seq<AuditRow>, to: Hash, i: nat)
    requires Chain(rows, to) && i < |rows|
    ensures rows[0].hashed.prevHash == GENESIS_HASH
    ensures if i == |rows| - 1 then rows[i].hash == to else rows[i + 1].hashed.prevHash == rows[i].hash
  {
    var last := |rows| - 1;
    if last > 0 {
      var front := rows[..last];
      if i < last {
        ChainLinks(front, rows[last].hashed.prevHash, i);
      } else {
        ChainLinks(front, rows[last].hashed.prevHash, 0);
      }
      assert front[0] == rows[0];
    }
  }

  /** Nothing locks the checkpoint between the read and the commit. A commit that passes the
      constraints keeps the log an unforked chain exactly when the checkpoint it read is still the
      current one; otherwise the log now holds two successors of the same row. */
  lemma CommitForksIffStale(log: AuditLog, seen: Option<Hash>, batch: seq<OutboxRow>)
    requires CollisionFree() && LogVerifies(log) && batch != []
    requires WasCheckpoint(log, seen)
    requires !CheckpointConflict(log, CheckpointInserts(seen, batch))
    ensures seen == LatestHash(log) ==>
              LogVerifies(Append(log, seen, batch)) && !Forked(Append(log, seen, batch).rows)
    ensures seen != LatestHash(log) ==>
              Forked(Append(log, seen, batch).rows) && !LogVerifies(Append(log, seen, batch))
  {
    var after := Append(log, seen, batch);
    if seen == LatestHash(log) {
      SerialAppendVerifies(log, batch);
      ChainIsUnforked(after.rows, after.checkpoint.value.latestHash);
    } else {
      var to := log.checkpoint.value.latestHash;
      var i :| 0 <= i < |log.rows| && log.rows[i].hash == seen.value;
      ChainLinks(log.rows, to, i);
      FirstBatchRow(seen, batch);
      assert after.rows[i + 1].hashed.prevHash == after.rows[|log.rows|].hashed.prevHash;
      assert Forked(after.rows);
      if LogVerifies(after) {
        ChainIsUnforked(after.rows, after.checkpoint.value.latestHash);
        assert false;
      }
    }
  }

  // ---- What a log records -----------------------------------------------------------------------

  /** An audit row records an outbox row, field by field. */
  ghost predicate Witnesses(a: AuditRow, r: OutboxRow)
  {
    && a.tenant == r.tenant
    && a.hashed.eventId == r.eventId && a.hashed.eventType == r.eventType && a.hashed.aggregateId == r.aggregateId
    && a.hashed.occurredAt == r.occurredAt && a.hashed.payload == r.payload
  }

  ghost predicate WitnessesAll(rows: seq<AuditRow>, batch: seq<OutboxRow>)
  {
    |rows| == |batch| && forall i :: 0 <= i < |rows| ==> Witnesses(rows[i], batch[i])
  }

  lemma {:induction false} BatchRowsWitness(seen: Option<Hash>, batch: seq<OutboxRow>)
    ensures WitnessesAll(BatchRows(seen, batch), batch)
  {
    if batch != [] {
      var n := |batch| - 1;
      var front := BatchRows(seen, batch[..n]);
      BatchRowsWitness(seen, batch[..n]);
      var rows := BatchRows(seen, batch);
      assert rows == front + [AuditRowOf(PrevHash(seen, front), batch[n])];
      hide BatchRows;
      forall i | 0 <= i < |rows| ensures Witnesses(rows[i], batch[i]) {
        if i < n {
          assert Witnesses(front[i], batch[..n][i]);
        }
      }
    }
  }

  /** The same outbox rows, but for the marks of publication. */
  ghost predicate SameButMarks(a: seq<OutboxRow>, b: seq<OutboxRow>)
  {
    |a| == |b| && forall i :: 0 <= i < |a| ==> b[i] == a[i].(published := b[i].published)
  }

  /** Two logs that verify up to the same checkpoint hash record the same outbox rows of a tenant. */
  lemma OutboxTamperEvidence(l: AuditLog, k: AuditLog, a: seq<OutboxRow>, b: seq<OutboxRow>, tenant: TenantId)
    requires CollisionFree() && LogVerifies(l) && LogVerifies(k) && LatestHash(l) == LatestHash(k)
    requires WitnessesAll(l.rows, a) && WitnessesAll(k.rows, b)
    requires forall i :: 0 <= i < |a| ==> a[i].tenant == tenant
    requires forall i :: 0 <= i < |b| ==> b[i].tenant == tenant
    ensures SameButMarks(a, b)
  {
    if l.checkpoint.Some? {
      TamperEvidence(l.rows, k.rows, l.checkpoint.value.latestHash);
    }
    assert |HashedFields(l.rows)| == |HashedFields(k.rows)|;
    forall i | 0 <= i < |a| ensures b[i] == a[i].(published := b[i].published) {
      assert HashedFields(l.rows)[i] == HashedFields(k.rows)[i];
      assert Witnesses(l.rows[i], a[i]) && Witnesses(k.rows[i], b[i]);
    }
  }
}
