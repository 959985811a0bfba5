/** What every command keeps of the store, whatever order commands come in: gap-free legal
    histories, an outbox that tells exactly those histories, one unforked audit chain per tenant. */
module StoreInvariants {
  import opened Prelude
  import opened CaseStatus
  import opened Applications
  import opened EventMapping
  import opened Audit
  import opened Store

  // ---- Histories ------------------------------------------------------------------------------

  /** Snapshots that are exactly versions 1 to `version`, start in DRAFT, follow legal moves and
      end in `status`. */
  ghost predicate History(snapshots: map<nat, Snapshot>, version: nat, status: Status)
  {
    && 1 <= version
    && (forall v :: v in snapshots <==> 1 <= v <= version)
    && snapshots[1].status == Draft
    && (forall v :: 1 <= v < version ==> IsLegal(snapshots[v].status, snapshots[v + 1].status))
    && snapshots[version].status == status
  }

  ghost predicate HistoryOk(c: Case)
  {
    History(c.snapshots, c.row.version, c.row.status)
  }

  ghost predicate HistoriesOk(s: Store)
  {
    forall app :: app in s.cases ==> s.cases[app].row.app == app && HistoryOk(s.cases[app])
  }

  // ---- Outbox ---------------------------------------------------------------------------------

  function RowState(r: OutboxRow): Option<(string, int)>
  {
    ProjectedState(r.eventType, r.payload)
  }

  /** A row the read model would project tells a version the case committed. */
  ghost predicate TellsHistory(s: Store, r: OutboxRow)
  {
    RowState(r).Some? ==>
      var (name, version) := RowState(r).value;
      && r.aggregateId in s.cases
      && var c := s.cases[r.aggregateId];
      && r.tenant == c.row.tenant
      && 1 <= version <= c.row.version && version in c.snapshots
      && name == Name(c.snapshots[version].status)
  }

  ghost predicate Announces(r: OutboxRow, app: AppId, version: nat)
  {
    r.aggregateId == app && RowState(r).Some? && RowState(r).value.1 == version
  }

  ghost predicate Announced(s: Store, app: AppId, version: nat)
  {
    exists i :: 0 <= i < |s.outbox| && Announces(s.outbox[i], app, version)
  }

  /** The outbox tells each version of each case exactly once. */
  ghost predicate OutboxOk(s: Store)
  {
    && (forall i :: 0 <= i < |s.outbox| ==> TellsHistory(s, s.outbox[i]))
    && (forall app, v: nat :: app in s.cases && 1 <= v <= s.cases[app].row.version ==> Announced(s, app, v))
    && (forall i, j :: 0 <= i < j < |s.outbox| && RowState(s.outbox[i]).Some? && RowState(s.outbox[j]).Some?
          && s.outbox[i].aggregateId == s.outbox[j].aggregateId
          ==> RowState(s.outbox[i]).value.1 != RowState(s.outbox[j]).value.1)
  }

  // ---- Audit ----------------------------------------------------------------------------------

  ghost function OfTenant(rows: seq<OutboxRow>, tenant: TenantId): seq<OutboxRow>
  {
    if rows == [] then []
    else
      var front := OfTenant(rows[..|rows| - 1], tenant);
      if rows[|rows| - 1].tenant == tenant then front + [rows[|rows| - 1]] else front
  }

  /** Each tenant's log verifies from genesis to its checkpoint and records the tenant's outbox
      rows one to one, in order; a tenant with a case has a checkpoint. */
  ghost predicate AuditOk(s: Store)
  {
    && (forall t :: TenantAuditOk(LogOf(s, t), OfTenant(s.outbox, t)))
    && (forall app :: app in s.cases ==> LogOf(s, s.cases[app].row.tenant).checkpoint.Some?)
  }

  ghost predicate StoreOk(s: Store)
  {
    HistoriesOk(s) && OutboxOk(s) && AuditOk(s)
  }

  /** The part of it that does not depend on commits being serialised. */
  ghost predicate CasesOk(s: Store)
  {
    HistoriesOk(s) && OutboxOk(s)
  }

  lemma CasesOkParts(s: Store)
    requires CasesOk(s)
    ensures HistoriesOk(s) && OutboxOk(s)
  {
  }

  lemma StoreOkParts(s: Store)
    requires StoreOk(s)
    ensures HistoriesOk(s) && OutboxOk(s) && AuditOk(s)
  {
  }

  // ---- One command ----------------------------------------------------------------------------

  /** How a case-moving command changes its case: `|batch|` versions further, each announced by one
      row of the batch. */
  ghost predicate Advances(c: Case, after: Case, batch: seq<OutboxRow>)
  {
    && 1 <= |batch|
    && after.row.app == c.row.app && after.row.tenant == c.row.tenant && after.row.product == c.row.product
    && after.row.version == c.row.version + |batch|
    && (forall v :: v in c.snapshots ==> v in after.snapshots && after.snapshots[v] == c.snapshots[v])
    && (forall i :: 0 <= i < |batch| ==> Tells(batch[i], after, c.row.version + 1 + i))
  }

  /** The row is of this case and announces one of its versions. */
  ghost predicate Tells(r: OutboxRow, c: Case, version: nat)
  {
    && r.aggregateId == c.row.app && r.tenant == c.row.tenant
    && version in c.snapshots
    && RowState(r) == Some((Name(c.snapshots[version].status), version))
  }

  lemma RowOfTells(e: DomainEvent, id: nat)
    ensures RowState(RowOf(e, id)) == EventState(e)
  {
    DecodeRecord(e);
  }

  /** A script on its way from a case: every version passed has its snapshot in `all`, the case's
      own and the staged ones, and its pending event. */
  ghost predicate Underway(c: Case, m: Moved, all: map<nat, Snapshot>)
  {
    var row, pending := m.aggregate.row, m.aggregate.pending;
    && row.app == c.row.app && row.tenant == c.row.tenant && row.product == c.row.product
    && row.version == c.row.version + |pending|
    && all == c.snapshots + m.snapshots
    && History(all, row.version, row.status)
    && (forall v :: v in c.snapshots ==> v in all && all[v] == c.snapshots[v])
    && (forall i :: 0 <= i < |pending| ==> Raised(pending[i], c.row, c.row.version + 1 + i, all))
  }

  ghost predicate Raised(e: DomainEvent, row: AppRow, version: nat, all: map<nat, Snapshot>)
  {
    && e.ApplicationStateChanged? && e.app == row.app && e.tenant == row.tenant && e.version == version
    && version in all && e.next == all[version].status
  }

  lemma HistoryStep(all: map<nat, Snapshot>, version: nat, status: Status, next: Snapshot)
    requires History(all, version, status) && IsLegal(status, next.status)
    ensures History(all[version + 1 := next], version + 1, next.status)
  {
  }

  lemma UnionUpdate(a: map<nat, Snapshot>, b: map<nat, Snapshot>, v: nat, x: Snapshot)
    ensures a + b[v := x] == (a + b)[v := x]
  {
  }

  lemma RaisedStep(pending: seq<DomainEvent>, row: AppRow, all: map<nat, Snapshot>, next: map<nat, Snapshot>, e: DomainEvent)
    requires forall i :: 0 <= i < |pending| ==> Raised(pending[i], row, row.version + 1 + i, all)
    requires forall v :: v in all ==> v in next && next[v] == all[v]
    requires Raised(e, row, row.version + 1 + |pending|, next)
    ensures forall i :: 0 <= i < |pending + [e]| ==> Raised((pending + [e])[i], row, row.version + 1 + i, next)
  {
    hide Name;
    forall i | 0 <= i < |pending + [e]| ensures Raised((pending + [e])[i], row, row.version + 1 + i, next) {
      if i < |pending| {
        assert Raised(pending[i], row, row.version + 1 + i, all);
      }
    }
  }

  lemma MoveExtendsHistory(c: Case, m: Moved, hop: Hop, now: Time, after: Moved, all: map<nat, Snapshot>)
    returns (next: map<nat, Snapshot>)
    requires Underway(c, m, all) && Move(m, hop, now) == Ok(after)
    ensures next == c.snapshots + after.snapshots
    ensures History(next, after.aggregate.row.version, after.aggregate.row.status)
    ensures forall v :: v in all ==> v in next && next[v] == all[v]
    ensures m.aggregate.row.version + 1 in next && next[m.aggregate.row.version + 1].status == hop.target
  {
    var before := m.aggregate.row;
    var snapshot := Snapshot(hop.target, now);
    next := all[before.version + 1 := snapshot];
    HistoryStep(all, before.version, before.status, snapshot);
    UnionUpdate(c.snapshots, m.snapshots, before.version + 1, snapshot);
  }

  lemma MoveKeepsUnderway(c: Case, m: Moved, hop: Hop, now: Time, after: Moved, all: map<nat, Snapshot>)
    returns (next: map<nat, Snapshot>)
    requires Underway(c, m, all) && Move(m, hop, now) == Ok(after)
    ensures Underway(c, after, next)
  {
    hide Name, IsLegal, History;
    next := MoveExtendsHistory(c, m, hop, now, after, all);
    var before := m.aggregate.row;
    var e := ApplicationStateChanged(before.app, before.tenant, now, before.status, hop.target, hop.reason, before.version + 1);
    assert after.aggregate.pending == m.aggregate.pending + [e];
    RaisedStep(m.aggregate.pending, c.row, all, next, e);
  }

  lemma MoveThroughUnderway(c: Case, script: Script, now: Time, m: Moved) returns (all: map<nat, Snapshot>)
    requires HistoryOk(c)
    requires MoveThrough(c.row, script, now) == Ok(m)
    ensures Underway(c, m, all)
    ensures 1 <= |m.aggregate.pending| <= 2
  {
    var start := Moved(Aggregate(c.row, []), map[]);
    assert c.snapshots + map[] == c.snapshots;
    var first := Move(start, script.first, now).value;
    all := MoveKeepsUnderway(c, start, script.first, now, first, c.snapshots);
    if script.second.Some? {
      all := MoveKeepsUnderway(c, first, script.second.value, now, m, all);
    }
  }

  lemma BatchTells(pending: seq<DomainEvent>, firstId: nat, c: Case, base: nat)
    requires forall i :: 0 <= i < |pending| ==> Raised(pending[i], c.row, base + 1 + i, c.snapshots)
    ensures forall i :: 0 <= i < |pending| ==> Tells(RowsOf(pending, firstId)[i], c, base + 1 + i)
  {
    forall i | 0 <= i < |pending| ensures Tells(RowsOf(pending, firstId)[i], c, base + 1 + i) {
      RowOfTells(pending[i], firstId + i);
    }
  }

  lemma UnderwayAdvances(c: Case, m: Moved, all: map<nat, Snapshot>, after: Case, firstId: nat)
    requires HistoryOk(c) && Underway(c, m, all) && m.aggregate.pending != []
    requires after.snapshots == all
    requires after.row == m.aggregate.row.(workflow := after.row.workflow)
    ensures HistoryOk(after) && Advances(c, after, RowsOf(m.aggregate.pending, firstId))
  {
    hide Name, IsLegal;
    var pending := m.aggregate.pending;
    forall i | 0 <= i < |pending| ensures Raised(pending[i], after.row, c.row.version + 1 + i, all) {
      assert Raised(pending[i], c.row, c.row.version + 1 + i, all);
    }
    BatchTells(pending, firstId, after, c.row.version);
  }

  lemma PlanScriptWrites(r: Request, script: Script, row: AppRow, queue: Option<QueueRow>, w: Writes)
    returns (m: Moved)
    requires PlanScript(r, script, row, queue) == Ok(w)
    ensures MoveThrough(row, script, r.stamp.now) == Ok(m)
    ensures w.row == RowUpdate(ChangeWorkflow(r, m.aggregate.row, script.workflow))
    ensures w.snapshots == m.snapshots
    ensures w.events == RowsOf(m.aggregate.pending, r.stamp.firstId)
  {
    m := MoveThrough(row, script, r.stamp.now).value;
  }

  /** One committed script, seen from the case. */
  lemma ScriptAdvances(r: Request, script: Script, c: Case, w: Writes)
    requires HistoryOk(c)
    requires c.row.app == r.app && c.row.tenant == r.tenant
    requires PlanScript(r, script, c.row, c.queue) == Ok(w)
    ensures CaseAfter(Some(c), w).Some?
    ensures var after := CaseAfter(Some(c), w).value;
            HistoryOk(after) && Advances(c, after, w.events)
  {
    hide Name, IsLegal;
    var m := PlanScriptWrites(r, script, c.row, c.queue, w);
    var all := MoveThroughUnderway(c, script, r.stamp.now, m);
    assert all == c.snapshots + m.snapshots;
    hide PlanScript, Advances, HistoryOk, Underway, MoveThrough;
    UnderwayAdvances(c, m, all, CaseAfter(Some(c), w).value, r.stamp.firstId);
  }

  lemma CreateTells(r: Request, w: Writes)
    requires r.command.Create?
    requires Plan(r, None, None) == Ok(w)
    ensures w.row.RowInsert? && w.row.row.app == r.app && w.row.row.tenant == r.tenant
    ensures var c := Case(w.row.row, w.snapshots, None);
            HistoryOk(c) && |w.events| == 1 && Tells(w.events[0], c, 1)
  {
    var a := Created(r.app, r.tenant, r.command.product, r.stamp.now);
    RowOfTells(a.pending[0], r.stamp.firstId);
  }

  // ---- The three parts, one at a time -----------------------------------------------------------

  lemma CasesKeepHistories(s: Store, after: Store, app: AppId, c: Case)
    requires HistoriesOk(s) && HistoryOk(c) && c.row.app == app
    requires after.cases == s.cases[app := c]
    ensures HistoriesOk(after)
  {
  }

  /** New rows tell the new versions of one case, from `base` on. */
  ghost predicate BatchTellsFrom(c: Case, base: nat, batch: seq<OutboxRow>)
  {
    && c.row.version == base + |batch|
    && forall i :: 0 <= i < |batch| ==> Tells(batch[i], c, base + 1 + i)
  }

  /** Rows already in the outbox stay true when a case grows or is inserted. */
  lemma OldRowsStillTell(s: Store, after: Store, app: AppId, c: Case, base: nat)
    requires HistoriesOk(s) && OutboxOk(s)
    requires after.cases == s.cases[app := c] && s.outbox <= after.outbox
    requires HistoryOk(c) && base <= c.row.version
    requires app in s.cases ==>
      && s.cases[app].row.version == base && s.cases[app].row.tenant == c.row.tenant
      && forall v :: v in s.cases[app].snapshots ==> v in c.snapshots && c.snapshots[v] == s.cases[app].snapshots[v]
    ensures forall i :: 0 <= i < |s.outbox| ==> TellsHistory(after, after.outbox[i])
  {
    hide Name;
    forall i | 0 <= i < |s.outbox| ensures TellsHistory(after, after.outbox[i]) {
      assert after.outbox[i] == s.outbox[i];
      assert TellsHistory(s, s.outbox[i]);
    }
  }

  lemma NewRowsTell(s: Store, after: Store, app: AppId, c: Case, base: nat, batch: seq<OutboxRow>)
    requires after.cases == s.cases[app := c] && after.outbox == s.outbox + batch
    requires HistoryOk(c) && c.row.app == app && BatchTellsFrom(c, base, batch)
    ensures forall i :: |s.outbox| <= i < |after.outbox| ==> TellsHistory(after, after.outbox[i])
    ensures forall v: nat :: base < v <= c.row.version ==> Announced(after, app, v)
  {
    hide Name;
    forall i | |s.outbox| <= i < |after.outbox| ensures TellsHistory(after, after.outbox[i]) {
      assert Tells(batch[i - |s.outbox|], c, base + 1 + (i - |s.outbox|));
    }
    forall v: nat | base < v <= c.row.version ensures Announced(after, app, v) {
      var k := v - base - 1;
      assert Tells(batch[k], c, v);
      assert after.outbox[|s.outbox| + k] == batch[k];
      assert Announces(after.outbox[|s.outbox| + k], app, v);
    }
  }

  lemma OutboxGrows(s: Store, after: Store, app: AppId, c: Case, base: nat, batch: seq<OutboxRow>)
    requires HistoriesOk(s) && OutboxOk(s)
    requires after.cases == s.cases[app := c] && after.outbox == s.outbox + batch
    requires HistoryOk(c) && c.row.app == app && BatchTellsFrom(c, base, batch)
    requires if app in s.cases
             then s.cases[app].row.version == base && s.cases[app].row.tenant == c.row.tenant
                  && (forall v :: v in s.cases[app].snapshots ==>
                        v in c.snapshots && c.snapshots[v] == s.cases[app].snapshots[v])
             else base == 0
    ensures OutboxOk(after)
  {
    OldRowsStillTell(s, after, app, c, base);
    NewRowsTell(s, after, app, c, base, batch);
    hide Name, ProjectedState;
    forall other, v: nat | other in after.cases && 1 <= v <= after.cases[other].row.version
      ensures Announced(after, other, v)
    {
      if other != app || v <= base {
        assert Announced(s, other, v);
        var i :| 0 <= i < |s.outbox| && Announces(s.outbox[i], other, v);
        assert Announces(after.outbox[i], other, v);
      }
    }
    forall i, j | 0 <= i < j < |after.outbox| && RowState(after.outbox[i]).Some? && RowState(after.outbox[j]).Some?
                  && after.outbox[i].aggregateId == after.outbox[j].aggregateId
      ensures RowState(after.outbox[i]).value.1 != RowState(after.outbox[j]).value.1
    {
      if j >= |s.outbox| {
        assert Tells(batch[j - |s.outbox|], c, base + 1 + (j - |s.outbox|));
        if i >= |s.outbox| {
          assert Tells(batch[i - |s.outbox|], c, base + 1 + (i - |s.outbox|));
        } else {
          assert after.outbox[i] == s.outbox[i];
          assert TellsHistory(s, s.outbox[i]);
        }
      }
    }
  }

  /** A batch that announces no version leaves the outbox telling the same histories. */
  lemma OutboxGrowsQuietly(s: Store, after: Store, batch: seq<OutboxRow>)
    requires OutboxOk(s)
    requires after.cases == s.cases && after.outbox == s.outbox + batch
    requires forall i :: 0 <= i < |batch| ==> RowState(batch[i]).None?
    ensures OutboxOk(after)
  {
    hide Name, ProjectedState;
    forall i | 0 <= i < |after.outbox| ensures TellsHistory(after, after.outbox[i]) {
      if i < |s.outbox| {
        assert TellsHistory(s, s.outbox[i]);
      }
    }
    forall app, v: nat | app in after.cases && 1 <= v <= after.cases[app].row.version
      ensures Announced(after, app, v)
    {
      assert Announced(s, app, v);
      var i :| 0 <= i < |s.outbox| && Announces(s.outbox[i], app, v);
      assert Announces(after.outbox[i], app, v);
    }
  }

  lemma {:induction false} OfTenantConcat(a: seq<OutboxRow>, b: seq<OutboxRow>, t: TenantId)
    ensures OfTenant(a + b, t) == OfTenant(a, t) + OfTenant(b, t)
  {
    if b == [] {
      assert a + b == a;
    } else {
      var last := |b| - 1;
      OfTenantConcat(a, b[..last], t);
      assert (a + b)[..|a + b| - 1] == a + b[..last];
    }
  }

  lemma {:induction false} OfTenantAll(batch: seq<OutboxRow>, t: TenantId, owner: TenantId)
    requires forall i :: 0 <= i < |batch| ==> batch[i].tenant == owner
    ensures OfTenant(batch, t) == if t == owner then batch else []
  {
    if batch != [] {
      OfTenantAll(batch[..|batch| - 1], t, owner);
      assert batch[..|batch| - 1] + [batch[|batch| - 1]] == batch;
    }
  }

  ghost predicate TenantAuditOk(log: AuditLog, rows: seq<OutboxRow>)
  {
    LogVerifies(log) && WitnessesAll(log.rows, rows)
  }

  lemma {:induction false} OfTenantOnly(rows: seq<OutboxRow>, tenant: TenantId)
    ensures forall i :: 0 <= i < |OfTenant(rows, tenant)| ==> OfTenant(rows, tenant)[i].tenant == tenant
  {
    if rows != [] {
      OfTenantOnly(rows[..|rows| - 1], tenant);
    }
  }

  /** Tamper evidence reaches the outbox: two stores in which a tenant's log verifies and matches its
      outbox rows, up to the same checkpoint hash, have the same outbox rows of that tenant, in the same
      order, payloads included; only the marks of publication may differ. */
  lemma CheckpointPinsOutbox(s: Store, u: Store, tenant: TenantId)
    requires CollisionFree() && LatestHash(LogOf(s, tenant)) == LatestHash(LogOf(u, tenant))
    requires TenantAuditOk(LogOf(s, tenant), OfTenant(s.outbox, tenant))
    requires TenantAuditOk(LogOf(u, tenant), OfTenant(u.outbox, tenant))
    ensures SameButMarks(OfTenant(s.outbox, tenant), OfTenant(u.outbox, tenant))
  {
    OfTenantOnly(s.outbox, tenant);
    OfTenantOnly(u.outbox, tenant);
    OutboxTamperEvidence(LogOf(s, tenant), LogOf(u, tenant), OfTenant(s.outbox, tenant), OfTenant(u.outbox, tenant), tenant);
  }

  lemma TenantAuditGrows(log: AuditLog, rows: seq<OutboxRow>, batch: seq<OutboxRow>)
    requires TenantAuditOk(log, rows)
    requires !CheckpointConflict(log, CheckpointInserts(LatestHash(log), batch))
    ensures TenantAuditOk(Append(log, LatestHash(log), batch), rows + batch)
  {
    var seen := LatestHash(log);
    SerialAppendVerifies(log, batch);
    BatchRowsWitness(seen, batch);
    var added := BatchRows(seen, batch);
    assert Append(log, seen, batch).rows == log.rows + added;
    hide LogVerifies, BatchRows, Append, LatestHash;
    forall i | 0 <= i < |log.rows + added| ensures Witnesses((log.rows + added)[i], (rows + batch)[i]) {
      if i < |log.rows| {
        assert Witnesses(log.rows[i], rows[i]);
      } else {
        assert Witnesses(added[i - |log.rows|], batch[i - |log.rows|]);
      }
    }
  }

  /** The log of the writing tenant grows by the batch; every other tenant's stays. */
  lemma AuditGrows(s: Store, after: Store, tenant: TenantId, batch: seq<OutboxRow>)
    requires forall t :: TenantAuditOk(LogOf(s, t), OfTenant(s.outbox, t))
    requires forall i :: 0 <= i < |batch| ==> batch[i].tenant == tenant
    requires after.outbox == s.outbox + batch
    requires after.audit == s.audit[tenant := Append(LogOf(s, tenant), LatestHash(LogOf(s, tenant)), batch)]
    requires !CheckpointConflict(LogOf(s, tenant), CheckpointInserts(LatestHash(LogOf(s, tenant)), batch))
    ensures forall t :: TenantAuditOk(LogOf(after, t), OfTenant(after.outbox, t))
    ensures forall t :: LogOf(s, t).checkpoint.Some? || (t == tenant && batch != []) ==> LogOf(after, t).checkpoint.Some?
  {
    forall t ensures TenantAuditOk(LogOf(after, t), OfTenant(after.outbox, t)) {
      OfTenantConcat(s.outbox, batch, t);
      OfTenantAll(batch, t, tenant);
      assert TenantAuditOk(LogOf(s, t), OfTenant(s.outbox, t));
      if t == tenant {
        TenantAuditGrows(LogOf(s, t), OfTenant(s.outbox, t), batch);
      } else {
        assert OfTenant(after.outbox, t) == OfTenant(s.outbox, t);
      }
    }
  }

  // ---- Every command, every run -----------------------------------------------------------------

  /** A plan's writes commit alone: recorded against the current checkpoint, past every constraint. */
  ghost predicate Commits(s: Store, w: Writes, after: Store)
  {
    var recorded := Recorded(w, LatestHash(LogOf(s, w.tenant)));
    !Conflicts(s, recorded) && after == Apply(s, recorded)
  }

  lemma CommitParts(s: Store, w: Writes, after: Store)
    requires Commits(s, w, after)
    ensures after.outbox == s.outbox + w.events
    ensures var log := LogOf(s, w.tenant);
            && after.audit == s.audit[w.tenant := Append(log, LatestHash(log), w.events)]
            && !CheckpointConflict(log, CheckpointInserts(LatestHash(log), w.events))
    ensures var c := CaseAfter(CaseOf(s, w.app), w);
            after.cases == if c.Some? then s.cases[w.app := c.value] else s.cases
    ensures w.row.RowInsert? ==> w.app !in s.cases
    ensures after.keys == s.keys + w.keys && w.keys * s.keys == {}
  {
  }

  /** What a commit adds that writes one case: its new rows tell the versions after `base`. */
  ghost predicate Grows(s: Store, after: Store, c: Case, base: nat, batch: seq<OutboxRow>)
  {
    var app, log := c.row.app, LogOf(s, c.row.tenant);
    && after.cases == s.cases[app := c] && after.outbox == s.outbox + batch
    && after.audit == s.audit[c.row.tenant := Append(log, LatestHash(log), batch)]
    && !CheckpointConflict(log, CheckpointInserts(LatestHash(log), batch))
    && batch != [] && HistoryOk(c) && BatchTellsFrom(c, base, batch)
    && if app in s.cases
       then s.cases[app].row.version == base && s.cases[app].row.tenant == c.row.tenant
            && (forall v :: v in s.cases[app].snapshots ==>
                  v in c.snapshots && c.snapshots[v] == s.cases[app].snapshots[v])
       else base == 0
  }

  lemma GrowsKeepsCases(s: Store, after: Store, c: Case, base: nat, batch: seq<OutboxRow>)
    requires CasesOk(s) && Grows(s, after, c, base, batch)
    ensures CasesOk(after)
  {
    hide Name, IsLegal, History, ProjectedState, Append;
    CasesKeepHistories(s, after, c.row.app, c);
    OutboxGrows(s, after, c.row.app, c, base, batch);
  }

  lemma GrowsKeepsAudit(s: Store, after: Store, c: Case, base: nat, batch: seq<OutboxRow>)
    requires AuditOk(s) && Grows(s, after, c, base, batch)
    ensures AuditOk(after)
  {
    hide Name, History, ProjectedState, TenantAuditOk, Append;
    forall i | 0 <= i < |batch| ensures batch[i].tenant == c.row.tenant {
      assert Tells(batch[i], c, base + 1 + i);
    }
    AuditGrows(s, after, c.row.tenant, batch);
  }

  lemma PlanScriptOwner(r: Request, script: Script, row: AppRow, queue: Option<QueueRow>, w: Writes)
    requires PlanScript(r, script, row, queue) == Ok(w)
    ensures w.tenant == r.tenant && w.app == r.app && w.keys == {KeyOf(r)}
    ensures w.row.RowUpdate?
  {
  }

  lemma MoveGrows(s: Store, r: Request, c: Case, w: Writes, after: Store)
    requires HistoriesOk(s)
    requires r.app in s.cases && c == s.cases[r.app] && c.row.tenant == r.tenant && MovesCase(r.command)
    requires PlanScript(r, ScriptOf(r.command), c.row, c.queue) == Ok(w)
    requires Commits(s, w, after)
    ensures var grown := CaseAfter(Some(c), w);
            grown.Some? && Advances(c, grown.value, w.events) && Grows(s, after, grown.value, c.row.version, w.events)
  {
    hide Commits, PlanScript, ScriptOf, History, Tells, Append, CaseAfter;
    ScriptAdvances(r, ScriptOf(r.command), c, w);
    PlanScriptOwner(r, ScriptOf(r.command), c.row, c.queue, w);
    CommitParts(s, w, after);
  }

  lemma CreateGrows(s: Store, r: Request, w: Writes, after: Store)
    requires r.command.Create? && Plan(r, None, QueueOf(s, r.app)) == Ok(w)
    requires Commits(s, w, after)
    ensures Grows(s, after, Case(w.row.row, w.snapshots, None), 0, w.events)
  {
    CreateTells(r, w);
    CommitParts(s, w, after);
    assert map[] + w.snapshots == w.snapshots;
    assert w.tenant == r.tenant && w.row.row.version == 1;
    hide Plan, History, Tells, Commits, Append;
  }

  lemma QuietPlan(r: Request, row: Option<AppRow>, queue: Option<QueueRow>, w: Writes)
    requires r.command.Upload? || r.command.Extract? || r.command.Verify?
    requires row.None? ==> r.command.Extract?
    requires Plan(r, row, queue) == Ok(w)
    ensures w.tenant == r.tenant && w.app == r.app && w.keys == {KeyOf(r)}
    ensures w.row == RowUntouched && w.snapshots == map[] && w.queue == QueueUntouched
    ensures forall i :: 0 <= i < |w.events| ==> w.events[i].tenant == r.tenant && RowState(w.events[i]).None?
  {
    if r.command.Upload? {
      var command := r.command;
      var e := DocumentUploaded(r.app, r.tenant, r.stamp.now, command.document, command.documentType, command.objectKey);
      RowOfTells(e, r.stamp.firstId);
    }
  }

  lemma QuietKeepsCases(s: Store, w: Writes, after: Store)
    requires CasesOk(s) && Commits(s, w, after)
    requires w.row == RowUntouched && w.snapshots == map[] && w.queue == QueueUntouched
    requires forall i :: 0 <= i < |w.events| ==> w.events[i].tenant == w.tenant && RowState(w.events[i]).None?
    ensures CasesOk(after) && after.cases == s.cases
  {
    hide Commits, OutboxOk, History;
    CommitParts(s, w, after);
    QuietCases(s, w, after);
    OutboxGrowsQuietly(s, after, w.events);
  }

  lemma QuietAudit(s: Store, w: Writes, after: Store)
    requires AuditOk(s) && Commits(s, w, after)
    requires forall i :: 0 <= i < |w.events| ==> w.events[i].tenant == w.tenant
    requires after.cases == s.cases
    ensures AuditOk(after)
  {
    hide Commits, TenantAuditOk, Append;
    CommitParts(s, w, after);
    AuditGrows(s, after, w.tenant, w.events);
  }

  /** A command that commits has planned its writes from the current row and queue entry. */
  lemma ExecCommits(s: Store, r: Request) returns (row: Option<AppRow>, w: Writes)
    requires Exec(s, r).Ok?
    ensures Reserve(s, r).Ok? && Load(s, r) == Ok(row) && (row.None? ==> r.command.Create? || r.command.Extract?)
    ensures Plan(r, row, QueueOf(s, r.app)) == Ok(w) && w.tenant == r.tenant
    ensures Commits(s, w, Exec(s, r).value.store)
    ensures Exec(s, r).value.reply == ReplyOf(w)
  {
    hide ScriptOf, MoveThrough, Conflicts, Apply, BatchRows;
    row := Load(s, r).value;
    w := Plan(r, row, QueueOf(s, r.app)).value;
  }

  /** Whatever a command does, committed or refused, the store keeps its histories and its outbox. */
  lemma ExecKeepsCases(s: Store, r: Request)
    requires CasesOk(s)
    ensures CasesOk(After(s, r))
  {
    hide CasesOk, HistoriesOk, OutboxOk, Commits, PlanScript, ScriptOf, Grows, Exec;
    CasesOkParts(s);
    if Exec(s, r).Ok? {
      var row, w := ExecCommits(s, r);
      var after := After(s, r);
      if r.command.Create? {
        CreateGrows(s, r, w, after);
        GrowsKeepsCases(s, after, Case(w.row.row, w.snapshots, None), 0, w.events);
      } else if MovesCase(r.command) {
        var c := s.cases[r.app];
        MoveGrows(s, r, c, w, after);
        GrowsKeepsCases(s, after, CaseAfter(Some(c), w).value, c.row.version, w.events);
      } else {
        QuietPlan(r, row, QueueOf(s, r.app), w);
        QuietKeepsCases(s, w, after);
      }
    }
  }

  /** One command at a time, the audit chains are kept too. */
  lemma ExecKeepsAudit(s: Store, r: Request)
    requires StoreOk(s)
    ensures AuditOk(After(s, r))
  {
    hide StoreOk, HistoriesOk, OutboxOk, AuditOk, Commits, PlanScript, ScriptOf, Grows, Exec;
    StoreOkParts(s);
    if Exec(s, r).Ok? {
      var row, w := ExecCommits(s, r);
      var after := After(s, r);
      if r.command.Create? {
        CreateGrows(s, r, w, after);
        GrowsKeepsAudit(s, after, Case(w.row.row, w.snapshots, None), 0, w.events);
      } else if MovesCase(r.command) {
        var c := s.cases[r.app];
        MoveGrows(s, r, c, w, after);
        GrowsKeepsAudit(s, after, CaseAfter(Some(c), w).value, c.row.version, w.events);
      } else {
        QuietPlan(r, row, QueueOf(s, r.app), w);
        assert after.cases == s.cases by {
          QuietCases(s, w, after);
        }
        QuietAudit(s, w, after);
      }
    }
  }

  lemma QuietCases(s: Store, w: Writes, after: Store)
    requires Commits(s, w, after)
    requires w.row == RowUntouched && w.snapshots == map[] && w.queue == QueueUntouched
    ensures after.cases == s.cases
  {
    hide Commits;
    CommitParts(s, w, after);
    if w.app in s.cases {
      assert s.cases[w.app].snapshots + map[] == s.cases[w.app].snapshots;
    }
  }

  lemma ExecKeepsStore(s: Store, r: Request)
    requires StoreOk(s)
    ensures StoreOk(After(s, r))
  {
    hide OutboxOk, HistoriesOk, AuditOk, After;
    ExecKeepsCases(s, r);
    ExecKeepsAudit(s, r);
  }

  /** A case never loses a committed snapshot, and changes at all only by getting a newer version. */
  ghost predicate CaseGrows(before: Case, after: Case)
  {
    && after.row.tenant == before.row.tenant
    && (forall v :: v in before.snapshots ==> v in after.snapshots && after.snapshots[v] == before.snapshots[v])
    && (after == before || before.row.version < after.row.version)
  }

  ghost predicate CasesGrow(s: Store, after: Store)
  {
    forall app :: app in s.cases ==> app in after.cases && CaseGrows(s.cases[app], after.cases[app])
  }

  /** Where a commit leaves the cases: as they were, or with one case added or grown. */
  ghost predicate OneCaseChanged(s: Store, app: AppId, after: Store)
  {
    || after.cases == s.cases
    || (app in after.cases && after.cases == s.cases[app := after.cases[app]]
        && (app in s.cases ==> CaseGrows(s.cases[app], after.cases[app])))
  }

  lemma AdvanceGrows(before: Case, after: Case, batch: seq<OutboxRow>)
    requires Advances(before, after, batch)
    ensures CaseGrows(before, after)
  {
    hide Tells;
  }

  lemma MoveChangesOne(s: Store, r: Request, c: Case, w: Writes, after: Store)
    requires HistoriesOk(s)
    requires r.app in s.cases && c == s.cases[r.app] && c.row.tenant == r.tenant && MovesCase(r.command)
    requires PlanScript(r, ScriptOf(r.command), c.row, c.queue) == Ok(w)
    requires Commits(s, w, after)
    ensures OneCaseChanged(s, r.app, after)
  {
    hide Commits, PlanScript, ScriptOf, History, Tells, CaseAfter, Grows, Advances;
    MoveGrows(s, r, c, w, after);
    PlanScriptOwner(r, ScriptOf(r.command), c.row, c.queue, w);
    CommitParts(s, w, after);
    AdvanceGrows(c, CaseAfter(Some(c), w).value, w.events);
  }

  lemma CreateChangesOne(s: Store, r: Request, w: Writes, after: Store)
    requires r.command.Create? && Plan(r, None, QueueOf(s, r.app)) == Ok(w)
    requires Commits(s, w, after)
    ensures OneCaseChanged(s, r.app, after)
  {
    hide Commits;
    CommitParts(s, w, after);
  }

  lemma ExecChangesOne(s: Store, r: Request)
    requires HistoriesOk(s) && Exec(s, r).Ok?
    ensures OneCaseChanged(s, r.app, After(s, r))
  {
    hide HistoriesOk, OneCaseChanged, Commits, PlanScript, ScriptOf, Prepare, Conflicts, Apply;
    var row, w := ExecCommits(s, r);
    var after := After(s, r);
    if r.command.Create? {
      CreateChangesOne(s, r, w, after);
    } else if MovesCase(r.command) {
      MoveChangesOne(s, r, s.cases[r.app], w, after);
    } else {
      QuietPlan(r, row, QueueOf(s, r.app), w);
      QuietCases(s, w, after);
      SameCasesUnchanged(s, r.app, after);
    }
  }

  lemma SameCasesUnchanged(s: Store, app: AppId, after: Store)
    requires after.cases == s.cases
    ensures OneCaseChanged(s, app, after)
  {
  }

  /** No command overwrites what another one committed: snapshots are only added, every other case
      is left alone. */
  lemma ExecOnlyAdds(s: Store, r: Request)
    requires HistoriesOk(s)
    ensures CasesGrow(s, After(s, r))
    ensures forall app :: app in s.cases && app != r.app ==> After(s, r).cases[app] == s.cases[app]
  {
    hide HistoriesOk, Exec;
    if Exec(s, r).Ok? {
      ExecChangesOne(s, r);
    }
  }

  /** The store after a run of commands from the empty store, each committed or rolled back. */
  ghost function RunAll(requests: seq<Request>): Store
  {
    if requests == [] then EMPTY_STORE
    else After(RunAll(requests[..|requests| - 1]), requests[|requests| - 1])
  }

  lemma EmptyStoreOk()
    ensures StoreOk(EMPTY_STORE)
  {
  }

  /** Every store a run of commands reaches, in any order and with any rejected or failed attempts
      between them: no version of any case is missing or repeated, each move is legal, the outbox
      announces each version once, and each tenant's audit log verifies and matches its outbox. */
  lemma {:induction false} EveryRunKeepsStore(requests: seq<Request>)
    ensures StoreOk(RunAll(requests))
  {
    if requests == [] {
      EmptyStoreOk();
    } else {
      EveryRunKeepsStore(requests[..|requests| - 1]);
      ExecKeepsStore(RunAll(requests[..|requests| - 1]), requests[|requests| - 1]);
    }
  }

  /** The first batch a tenant ever records is its lone creation event, so the batch of two that
      would insert two checkpoint rows never meets an empty log. */
  lemma NoTwoEventBatchWithoutCheckpoint(s: Store, r: Request)
    requires StoreOk(s) && Prepare(s, r).Ok?
    requires LogOf(s, r.tenant).checkpoint.None?
    ensures |Prepare(s, r).value.events| <= 1
    ensures Prepare(s, r).value.events != [] ==> r.command.Create?
    ensures !CheckpointConflict(LogOf(s, r.tenant), Prepare(s, r).value.checkpointInserts)
  {
    hide PlanScript, ScriptOf;
  }

  /** With a checkpoint missing, the same batch would be refused: the constraint is what a
      two-event batch would break. */
  lemma TwoEventsNeedACheckpoint(log: AuditLog, batch: seq<OutboxRow>)
    requires |batch| == 2
    ensures CheckpointConflict(log, CheckpointInserts(LatestHash(log), batch)) <==> log.checkpoint.None?
  {
  }
}
