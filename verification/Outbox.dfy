/** The outbox relay: batches per tenant, publication before marking, the backlog and how it drains. */
module Outbox {
  import opened Prelude
  import opened EventMapping

  /** A published message. */
  datatype Envelope = Envelope(eventId: nat, eventType: string, occurredAt: Time, tenant: TenantId,
                               application: AppId, payload: Payload)

  function BuildEnvelope(r: OutboxRow): Envelope
  {
    Envelope(r.eventId, r.eventType, r.occurredAt, r.tenant, r.aggregateId, r.payload)
  }

  // ---- Selection --------------------------------------------------------------------------------

  predicate Waits(r: OutboxRow, tenant: TenantId)
  {
    r.tenant == tenant && !r.published
  }

  predicate Available(rows: seq<OutboxRow>, tenant: TenantId, locked: set<nat>, i: nat)
  {
    i < |rows| && Waits(rows[i], tenant) && i !in locked
  }

  /** What a batch query may return: distinct unpublished rows of the tenant that no other relay has
      locked, oldest first, no more than the limit, fewer only when there are no more, and none while an
      older one is left. */
  ghost predicate Selected(rows: seq<OutboxRow>, tenant: TenantId, locked: set<nat>, limit: nat, selection: seq<nat>)
  {
    && |selection| <= limit
    && (forall k :: 0 <= k < |selection| ==> Available(rows, tenant, locked, selection[k]))
    && (forall k, l :: 0 <= k < l < |selection| ==>
          selection[k] != selection[l] && rows[selection[k]].occurredAt <= rows[selection[l]].occurredAt)
    && (|selection| < limit ==> forall i: nat :: Available(rows, tenant, locked, i) ==> i in selection)
    && (forall i: nat, k :: Available(rows, tenant, locked, i) && i !in selection && 0 <= k < |selection| ==>
          rows[selection[k]].occurredAt <= rows[i].occurredAt)
  }

  /** The oldest available row that has not been chosen yet. */
  method Oldest(rows: seq<OutboxRow>, tenant: TenantId, locked: set<nat>, chosen: seq<nat>) returns (oldest: Option<nat>)
    ensures oldest.None? <==> forall i: nat :: Available(rows, tenant, locked, i) ==> i in chosen
    ensures oldest.Some? ==>
      && Available(rows, tenant, locked, oldest.value) && oldest.value !in chosen
      && forall i: nat :: Available(rows, tenant, locked, i) && i !in chosen ==> rows[oldest.value].occurredAt <= rows[i].occurredAt
  {
    oldest := None;
    var i := 0;
    while i < |rows|
      invariant 0 <= i <= |rows|
      invariant oldest.None? <==> forall j: nat :: j < i && Available(rows, tenant, locked, j) ==> j in chosen
      invariant oldest.Some? ==>
        && Available(rows, tenant, locked, oldest.value) && oldest.value !in chosen
        && forall j: nat :: j < i && Available(rows, tenant, locked, j) && j !in chosen ==>
             rows[oldest.value].occurredAt <= rows[j].occurredAt
    {
      if Waits(rows[i], tenant) && i !in locked && i !in chosen
         && (oldest.None? || rows[i].occurredAt < rows[oldest.value].occurredAt) {
        oldest := Some(i);
      }
      i := i + 1;
    }
  }

  method SelectBatch(rows: seq<OutboxRow>, tenant: TenantId, locked: set<nat>, limit: nat)
    returns (selection: seq<nat>)
    ensures Selected(rows, tenant, locked, limit, selection)
  {
    selection := [];
    var i := 0;
    while i < limit
      invariant 0 <= i <= limit && |selection| == i
      invariant Selected(rows, tenant, locked, i, selection)
    {
      var next := Oldest(rows, tenant, locked, selection);
      if next.None? {
        return;
      }
      selection := selection + [next.value];
      i := i + 1;
    }
  }

  // ---- Publishing -------------------------------------------------------------------------------

  /** The rows once those at the selected positions are marked. */
  function Marked(rows: seq<OutboxRow>, selection: seq<nat>): (marked: seq<OutboxRow>)
    ensures |marked| == |rows|
    ensures forall i :: 0 <= i < |rows| ==> marked[i] == rows[i].(published := rows[i].published || i in selection)
  {
    seq(|rows|, i requires 0 <= i < |rows| => rows[i].(published := rows[i].published || i in selection))
  }

  function Envelopes(rows: seq<OutboxRow>, selection: seq<nat>): (sent: seq<Envelope>)
    requires forall k :: 0 <= k < |selection| ==> selection[k] < |rows|
    ensures |sent| == |selection|
    ensures forall k :: 0 <= k < |selection| ==> sent[k] == BuildEnvelope(rows[selection[k]])
  {
    seq(|selection|, k requires 0 <= k < |selection| => BuildEnvelope(rows[selection[k]]))
  }

  class Broker {
    var log: seq<Envelope>

    constructor ()
      ensures log == []
    {
      log := [];
    }

    method Publish(e: Envelope)
      modifies this
      ensures log == old(log) + [e]
    {
      log := log + [e];
    }
  }

  class OutboxTable {
    var rows: seq<OutboxRow>

    constructor (rows: seq<OutboxRow>)
      ensures this.rows == rows
    {
      this.rows := rows;
    }
  }

  /** One batch of one tenant in one transaction: every row is published, then marked, and the marks
      are committed together. When publishing the row at `failsAt` raises, the marks are rolled back
      and the messages already sent stay sent. */
  method RelayTenantBatch(table: OutboxTable, broker: Broker, tenant: TenantId, locked: set<nat>, batchSize: nat,
                          failsAt: Option<nat>)
    returns (published: Option<nat>, ghost selection: seq<nat>)
    modifies table, broker
    ensures Selected(old(table.rows), tenant, locked, batchSize, selection)
    ensures published.Some? <==> failsAt.None? || failsAt.value >= |selection|
    ensures published.Some? ==>
      && published.value == |selection|
      && table.rows == Marked(old(table.rows), selection)
      && broker.log == old(broker.log) + Envelopes(old(table.rows), selection)
    ensures published.None? ==>
      && table.rows == old(table.rows)
      && broker.log == old(broker.log) + Envelopes(old(table.rows), selection[..failsAt.value])
  {
    var before := table.rows;
    var batch := SelectBatch(before, tenant, locked, batchSize);
    selection := batch;
    var staged := before;
    var k := 0;
    while k < |batch|
      invariant 0 <= k <= |batch|
      invariant table.rows == before
      invariant failsAt.Some? ==> k <= failsAt.value
      invariant staged == Marked(before, batch[..k])
      invariant broker.log == old(broker.log) + Envelopes(before, batch[..k])
    {
      if failsAt == Some(k) {
        return None, selection;
      }
      broker.Publish(BuildEnvelope(before[batch[k]]));
      staged := staged[batch[k] := staged[batch[k]].(published := true)];
      assert batch[..k + 1] == batch[..k] + [batch[k]];
      k := k + 1;
    }
    assert batch[..k] == batch;
    table.rows := staged;
    return Some(|batch|), selection;
  }

  // ---- The backlog ------------------------------------------------------------------------------

  function Waiting(rows: seq<OutboxRow>, tenant: TenantId): set<nat>
  {
    set i: nat | i < |rows| && Waits(rows[i], tenant)
  }

  function Backlog(rows: seq<OutboxRow>, tenant: TenantId): nat
  {
    |Waiting(rows, tenant)|
  }

  function Unpublished(rows: seq<OutboxRow>): set<nat>
  {
    set i: nat | i < |rows| && !rows[i].published
  }

  function Published(rows: seq<OutboxRow>): set<nat>
  {
    set i: nat | i < |rows| && rows[i].published
  }

  function Elements(s: seq<nat>): set<nat>
  {
    set x | x in s
  }

  lemma {:induction false} DistinctSize(s: seq<nat>)
    requires forall k, l :: 0 <= k < l < |s| ==> s[k] != s[l]
    ensures |Elements(s)| == |s|
  {
    if s != [] {
      var front, last := s[..|s| - 1], s[|s| - 1];
      DistinctSize(front);
      assert Elements(s) == Elements(front) + {last};
      assert last !in front;
    }
  }

  lemma SubsetSize(a: set<nat>, b: set<nat>)
    requires b <= a
    ensures |b| <= |a| && |a - b| == |a| - |b|
    ensures |b| == |a| ==> b == a
  {
    assert a == (a - b) + b;
    if |b| == |a| {
      assert |a - b| == 0;
      assert b == a;
    }
  }

  /** What is left of a backlog after `n` batches. */
  function LeftAfter(backlog: nat, batchSize: nat, n: nat): nat
  {
    if n * batchSize >= backlog then 0 else backlog - n * batchSize
  }

  /** A failure-free batch that meets no locks shrinks its tenant's backlog by exactly the batch size,
      or to nothing, and no other. */
  lemma BatchDrains(rows: seq<OutboxRow>, tenant: TenantId, limit: nat, selection: seq<nat>, t: TenantId)
    requires Selected(rows, tenant, {}, limit, selection)
    ensures Backlog(Marked(rows, selection), t) ==
            if t == tenant then LeftAfter(Backlog(rows, t), limit, 1) else Backlog(rows, t)
    ensures t == tenant ==> |selection| == Backlog(rows, t) - LeftAfter(Backlog(rows, t), limit, 1)
  {
    var marked := Marked(rows, selection);
    if t == tenant {
      DistinctSize(selection);
      assert Elements(selection) <= Waiting(rows, tenant);
      SubsetSize(Waiting(rows, tenant), Elements(selection));
      MarkedWaiting(rows, tenant, selection);
      if |selection| < limit {
        assert Waiting(rows, tenant) == Elements(selection);
      }
    } else {
      OthersWaiting(rows, tenant, selection, t);
    }
  }

  lemma MarkedWaiting(rows: seq<OutboxRow>, tenant: TenantId, selection: seq<nat>)
    ensures Waiting(Marked(rows, selection), tenant) == Waiting(rows, tenant) - Elements(selection)
  {
    var marked := Marked(rows, selection);
    forall i: nat ensures i in Waiting(marked, tenant) <==> i in Waiting(rows, tenant) - Elements(selection) {
      if i < |rows| {
        assert marked[i] == rows[i].(published := rows[i].published || i in selection);
      }
    }
  }

  lemma OthersWaiting(rows: seq<OutboxRow>, tenant: TenantId, selection: seq<nat>, t: TenantId)
    requires forall k :: 0 <= k < |selection| ==> selection[k] < |rows| && rows[selection[k]].tenant == tenant
    requires t != tenant
    ensures Waiting(Marked(rows, selection), t) == Waiting(rows, t)
  {
    var marked := Marked(rows, selection);
    forall i: nat ensures i in Waiting(marked, t) <==> i in Waiting(rows, t) {
      if i < |rows| {
        assert marked[i] == rows[i].(published := rows[i].published || i in selection);
      }
    }
  }

  lemma BatchPublishes(rows: seq<OutboxRow>, tenant: TenantId, limit: nat, selection: seq<nat>)
    requires Selected(rows, tenant, {}, limit, selection)
    ensures |Published(Marked(rows, selection))| == |Published(rows)| + |selection|
  {
    var marked := Marked(rows, selection);
    DistinctSize(selection);
    forall i: nat ensures i in Published(marked) <==> i in Published(rows) + Elements(selection) {
      if i < |rows| {
        assert marked[i] == rows[i].(published := rows[i].published || i in selection);
      }
    }
    assert Published(marked) == Published(rows) + Elements(selection);
    assert Published(rows) !! Elements(selection);
  }

  /** Every marked row has been sent. */
  ghost predicate MarkedWereSent(rows: seq<OutboxRow>, log: seq<Envelope>)
  {
    forall i :: 0 <= i < |rows| && rows[i].published ==> BuildEnvelope(rows[i]) in log
  }

  /** The same rows, possibly with more of them marked. */
  ghost predicate OnlyMarks(rows: seq<OutboxRow>, after: seq<OutboxRow>)
  {
    && |after| == |rows|
    && forall i :: 0 <= i < |rows| ==>
         && after[i] == rows[i].(published := after[i].published)
         && (rows[i].published ==> after[i].published)
  }

  /** Whether it completes or fails half way, a batch never marks a row it has not sent. */
  lemma BatchKeepsMarkedSent(rows: seq<OutboxRow>, log: seq<Envelope>, selection: seq<nat>)
    requires MarkedWereSent(rows, log)
    requires forall k :: 0 <= k < |selection| ==> selection[k] < |rows|
    ensures MarkedWereSent(Marked(rows, selection), log + Envelopes(rows, selection))
    ensures MarkedWereSent(rows, log + Envelopes(rows, selection))
  {
    var marked, after := Marked(rows, selection), log + Envelopes(rows, selection);
    forall i | 0 <= i < |marked| && marked[i].published ensures BuildEnvelope(marked[i]) in after {
      if rows[i].published {
        assert BuildEnvelope(rows[i]) in log;
      } else {
        var k :| 0 <= k < |selection| && selection[k] == i;
        assert after[|log| + k] == BuildEnvelope(rows[i]);
      }
    }
  }

  ghost predicate Distinct(tenants: seq<TenantId>)
  {
    forall k, l :: 0 <= k < l < |tenants| ==> tenants[k] != tenants[l]
  }

  /** A tenant's backlog once each of `tenants` has been relayed one batch. */
  function BacklogAfter(rows: seq<OutboxRow>, t: TenantId, tenants: seq<TenantId>, batchSize: nat): nat
  {
    if t in tenants then LeftAfter(Backlog(rows, t), batchSize, 1) else Backlog(rows, t)
  }

  /** One sweep over the tenants, one batch each. With no failure and no other relay at work every
      backlog is one batch shorter; with a failure, the batches before it stand. Either way only marks
      change, and only of rows that were sent. */
  method RelayOnce(table: OutboxTable, broker: Broker, tenants: seq<TenantId>, batchSize: nat,
                   failsAt: Option<(nat, nat)>)
    returns (total: Option<nat>)
    requires Distinct(tenants) && MarkedWereSent(table.rows, broker.log)
    modifies table, broker
    ensures MarkedWereSent(table.rows, broker.log)
    ensures OnlyMarks(old(table.rows), table.rows) && old(broker.log) <= broker.log
    ensures failsAt.None? ==> total.Some?
    ensures total.Some? ==>
      && |broker.log| == |old(broker.log)| + total.value
      && |Published(table.rows)| == |Published(old(table.rows))| + total.value
    ensures total.Some? ==>
      (forall t :: Backlog(table.rows, t) == BacklogAfter(old(table.rows), t, tenants, batchSize))
  {
    var sum := 0;
    var j := 0;
    while j < |tenants|
      invariant 0 <= j <= |tenants|
      invariant MarkedWereSent(table.rows, broker.log)
      invariant OnlyMarks(old(table.rows), table.rows) && old(broker.log) <= broker.log
      invariant |broker.log| == |old(broker.log)| + sum
      invariant |Published(table.rows)| == |Published(old(table.rows))| + sum
      invariant forall t :: Backlog(table.rows, t) == BacklogAfter(old(table.rows), t, tenants[..j], batchSize)
    {
      ghost var before, log := table.rows, broker.log;
      var fails := if failsAt.Some? && failsAt.value.0 == j then Some(failsAt.value.1) else None;
      var published, selection := RelayTenantBatch(table, broker, tenants[j], {}, batchSize, fails);
      if published.None? {
        BatchKeepsMarkedSent(before, log, selection[..fails.value]);
        return None;
      }
      BatchKeepsMarkedSent(before, log, selection);
      BatchPublishes(before, tenants[j], batchSize, selection);
      forall t ensures Backlog(table.rows, t) ==
          if t == tenants[j] then LeftAfter(Backlog(before, t), batchSize, 1) else Backlog(before, t) {
        BatchDrains(before, tenants[j], batchSize, selection, t);
      }
      hide Backlog, MarkedWereSent, Published;
      assert tenants[..j + 1] == tenants[..j] + [tenants[j]];
      sum := sum + published.value;
      j := j + 1;
    }
    assert tenants[..j] == tenants;
    return Some(sum);
  }

  lemma LeftAgain(backlog: nat, batchSize: nat, n: nat)
    ensures LeftAfter(LeftAfter(backlog, batchSize, n), batchSize, 1) == LeftAfter(backlog, batchSize, n + 1)
  {
    assert (n + 1) * batchSize == n * batchSize + batchSize;
  }

  /** `n` failure-free sweeps with no new rows: every backlog is exactly what `n` batches leave of it,
      so all are empty if and only if `n` batches cover the largest. */
  method Sweep(table: OutboxTable, broker: Broker, tenants: seq<TenantId>, batchSize: nat, n: nat)
    requires Distinct(tenants) && MarkedWereSent(table.rows, broker.log)
    modifies table, broker
    ensures MarkedWereSent(table.rows, broker.log) && OnlyMarks(old(table.rows), table.rows)
    ensures forall t :: t in tenants ==> Backlog(table.rows, t) == LeftAfter(Backlog(old(table.rows), t), batchSize, n)
    ensures (forall t :: t in tenants ==> Backlog(table.rows, t) == 0)
            <==> (forall t :: t in tenants ==> Backlog(old(table.rows), t) <= n * batchSize)
  {
    var m := 0;
    while m < n
      invariant 0 <= m <= n
      invariant MarkedWereSent(table.rows, broker.log) && OnlyMarks(old(table.rows), table.rows)
      invariant forall t :: t in tenants ==> Backlog(table.rows, t) == LeftAfter(Backlog(old(table.rows), t), batchSize, m)
    {
      hide Backlog, MarkedWereSent, LeftAfter;
      var total := RelayOnce(table, broker, tenants, batchSize, None);
      forall t | t in tenants ensures Backlog(table.rows, t) == LeftAfter(Backlog(old(table.rows), t), batchSize, m + 1) {
        LeftAgain(Backlog(old(table.rows), t), batchSize, m);
      }
      m := m + 1;
    }
    hide Backlog;
  }

  // ---- The backlog query ------------------------------------------------------------------------

  ghost predicate Covers(tenants: seq<TenantId>, rows: seq<OutboxRow>)
  {
    forall i :: 0 <= i < |rows| ==> rows[i].tenant in tenants
  }

  /** Counting tenant by tenant counts every unpublished row once. */
  method UnpublishedBacklogSize(rows: seq<OutboxRow>, tenants: seq<TenantId>) returns (total: nat)
    requires Distinct(tenants) && Covers(tenants, rows)
    ensures total == |Unpublished(rows)|
    ensures |Published(rows)| + total == |rows|
  {
    total := 0;
    var j := 0;
    while j < |tenants|
      invariant 0 <= j <= |tenants|
      invariant total == |WaitingFor(rows, tenants[..j])|
    {
      assert tenants[..j + 1] == tenants[..j] + [tenants[j]];
      assert WaitingFor(rows, tenants[..j + 1]) == WaitingFor(rows, tenants[..j]) + Waiting(rows, tenants[j]);
      assert WaitingFor(rows, tenants[..j]) !! Waiting(rows, tenants[j]);
      total := total + Backlog(rows, tenants[j]);
      j := j + 1;
    }
    assert tenants[..j] == tenants;
    assert WaitingFor(rows, tenants) == Unpublished(rows);
    Split(rows);
  }

  ghost function WaitingFor(rows: seq<OutboxRow>, tenants: seq<TenantId>): set<nat>
  {
    set i: nat | i < |rows| && !rows[i].published && rows[i].tenant in tenants
  }

  ghost function Positions(n: nat): (all: set<nat>)
    ensures |all| == n
    ensures forall i: nat :: i in all <==> i < n
  {
    if n == 0 then {} else Positions(n - 1) + {n - 1}
  }

  /** Published and unpublished rows split the table. */
  lemma Split(rows: seq<OutboxRow>)
    ensures |Published(rows)| + |Unpublished(rows)| == |rows|
  {
    assert Published(rows) + Unpublished(rows) == Positions(|rows|);
    assert Published(rows) !! Unpublished(rows);
  }
}
