/** The read model: applying messages once, in whatever order they come, and the whole loop from the
    store through relay, broker and inbox to the projection. */
module Projection {
  import opened Prelude
  import opened CaseStatus
  import opened Applications
  import opened EventMapping
  import opened Audit
  import opened Store
  import opened StoreInvariants
  import opened Coupling
  import opened Outbox

  // ---- One message ------------------------------------------------------------------------------

  /** A row of `applications.status_projection`. */
  datatype View = View(tenant: TenantId, status: string, version: int, updatedAt: Time)

  datatype ReadModel = ReadModel(inbox: set<(nat, string)>, views: map<AppId, View>)

  function EnvelopeState(e: Envelope): Option<(string, int)>
  {
    ProjectedState(e.eventType, e.payload)
  }

  /** The read model after a message, applied by the named consumer. */
  function Applied(m: ReadModel, e: Envelope, consumer: string): ReadModel
  {
    if (e.eventId, consumer) in m.inbox then m
    else
      var inbox := m.inbox + {(e.eventId, consumer)};
      match EnvelopeState(e)
      case None => m.(inbox := inbox)
      case Some((status, version)) =>
        var view := View(if e.application in m.views then m.views[e.application].tenant else e.tenant,
                         status, version, e.occurredAt);
        if e.application in m.views && version < m.views[e.application].version then m.(inbox := inbox)
        else ReadModel(inbox, m.views[e.application := view])
  }

  class ProjectionStore {
    var inbox: set<(nat, string)>
    var views: map<AppId, View>

    constructor ()
      ensures Model() == ReadModel({}, map[])
    {
      inbox, views := {}, map[];
    }

    function Model(): ReadModel
      reads this
    {
      ReadModel(inbox, views)
    }

    /** Inserts the inbox row first: a duplicate ends there. Then the projected types move the view,
        unless it is already past their version. */
    method ApplyEvent(e: Envelope, consumer: string) returns (applied: bool)
      modifies this
      ensures applied <==> (e.eventId, consumer) !in old(inbox)
      ensures Model() == Applied(old(Model()), e, consumer)
    {
      if (e.eventId, consumer) in inbox {
        return false;
      }
      inbox := inbox + {(e.eventId, consumer)};
      var decoded := EnvelopeState(e);
      if decoded.Some? {
        var status, version := decoded.value.0, decoded.value.1;
        if e.application !in views {
          views := views[e.application := View(e.tenant, status, version, e.occurredAt)];
        } else if version >= views[e.application].version {
          var row := views[e.application];
          views := views[e.application := row.(status := status, version := version, updatedAt := e.occurredAt)];
        }
      }
      return true;
    }
  }

  // ---- The whole loop ---------------------------------------------------------------------------

  /** The store, the broker's log, the read model, and the event ids drawn from the generator so far. */
  datatype Pipe = Pipe(store: Store, log: seq<Envelope>, model: ReadModel, drawn: set<nat>)

  /** `Command`: any command, its event ids new, in no order. `Send`: some relay publishes an
      unmarked row, perhaps not for the first time. `Mark`: a relay's commit marks a row it has sent; a
      crash in between leaves it unmarked. `Deliver`: the broker hands any message of its log, again
      or for the first time, to any consumer. */
  datatype PipeStep =
    | Command(request: Request)
    | Send(row: nat)
    | Mark(row: nat)
    | Deliver(message: nat, consumer: string)

  /** No transaction generates more event ids than this. */
  const IDS_PER_TRANSACTION := 2

  function IdsOf(r: Request): set<nat>
  {
    {r.stamp.firstId, r.stamp.firstId + 1}
  }

  function MarkRow(s: Store, i: nat): Store
    requires i < |s.outbox|
  {
    s.(outbox := s.outbox[i := s.outbox[i].(published := true)])
  }

  function NextPipe(p: Pipe, step: PipeStep): Pipe
  {
    match step
    case Command(r) =>
      if IdsOf(r) * p.drawn != {} then p
      else p.(store := After(p.store, r), drawn := p.drawn + IdsOf(r))
    case Send(i) =>
      if i < |p.store.outbox| && !p.store.outbox[i].published
      then p.(log := p.log + [BuildEnvelope(p.store.outbox[i])])
      else p
    case Mark(i) =>
      if i < |p.store.outbox| && BuildEnvelope(p.store.outbox[i]) in p.log then p.(store := MarkRow(p.store, i)) else p
    case Deliver(k, consumer) =>
      if k < |p.log| then p.(model := Applied(p.model, p.log[k], consumer)) else p
  }

  ghost function RunPipe(steps: seq<PipeStep>): Pipe
  {
    if steps == [] then Pipe(EMPTY_STORE, [], ReadModel({}, map[]), {})
    else NextPipe(RunPipe(steps[..|steps| - 1]), steps[|steps| - 1])
  }

  // ---- Marks do not matter to the store's own invariants ----------------------------------------

  lemma {:induction false} TenantRowsSame(a: seq<OutboxRow>, b: seq<OutboxRow>, t: TenantId)
    requires SameButMarks(a, b)
    ensures SameButMarks(OfTenant(a, t), OfTenant(b, t))
  {
    if a != [] {
      TenantRowsSame(a[..|a| - 1], b[..|b| - 1], t);
    }
  }

  lemma MarksKeepAudit(s: Store, b: seq<OutboxRow>)
    requires AuditOk(s) && SameButMarks(s.outbox, b)
    ensures AuditOk(s.(outbox := b))
  {
    hide LogVerifies, SameButMarks;
    forall t ensures TenantAuditOk(LogOf(s, t), OfTenant(b, t)) {
      assert TenantAuditOk(LogOf(s, t), OfTenant(s.outbox, t));
      TenantRowsSame(s.outbox, b, t);
      WitnessesSame(LogOf(s, t).rows, OfTenant(s.outbox, t), OfTenant(b, t));
    }
    forall t ensures LogOf(s.(outbox := b), t) == LogOf(s, t) {
    }
  }

  lemma WitnessesSame(rows: seq<AuditRow>, a: seq<OutboxRow>, b: seq<OutboxRow>)
    requires WitnessesAll(rows, a) && SameButMarks(a, b)
    ensures WitnessesAll(rows, b)
  {
    forall i | 0 <= i < |rows| ensures Witnesses(rows[i], b[i]) {
      assert Witnesses(rows[i], a[i]);
    }
  }

  lemma MarksKeepOutbox(s: Store, b: seq<OutboxRow>)
    requires OutboxOk(s) && SameButMarks(s.outbox, b)
    ensures OutboxOk(s.(outbox := b))
  {
    hide ProjectedState, Name;
    var after := s.(outbox := b);
    forall i | 0 <= i < |b| ensures TellsHistory(after, b[i]) {
      assert TellsHistory(s, s.outbox[i]);
    }
    forall app, v: nat | app in after.cases && 1 <= v <= after.cases[app].row.version ensures Announced(after, app, v) {
      assert Announced(s, app, v);
      var i :| 0 <= i < |s.outbox| && Announces(s.outbox[i], app, v);
      assert Announces(b[i], app, v);
    }
  }

  lemma MarkKeepsStore(s: Store, i: nat)
    requires StoreOk(s) && i < |s.outbox|
    ensures StoreOk(MarkRow(s, i))
  {
    hide OutboxOk, AuditOk, HistoryOk;
    var b := MarkRow(s, i).outbox;
    assert SameButMarks(s.outbox, b);
    MarksKeepOutbox(s, b);
    MarksKeepAudit(s, b);
  }

  // ---- What every step keeps --------------------------------------------------------------------

  ghost predicate IdsOk(rows: seq<OutboxRow>, drawn: set<nat>)
  {
    && (forall i :: 0 <= i < |rows| ==> rows[i].eventId in drawn)
    && (forall i, j :: 0 <= i < j < |rows| ==> rows[i].eventId != rows[j].eventId)
  }

  ghost predicate SentFromOutbox(rows: seq<OutboxRow>, e: Envelope)
  {
    exists i :: 0 <= i < |rows| && e == BuildEnvelope(rows[i])
  }

  /** The view is a version the case committed. */
  ghost predicate ViewCommitted(s: Store, app: AppId, view: View)
  {
    && app in s.cases && view.tenant == s.cases[app].row.tenant
    && 1 <= view.version <= s.cases[app].row.version && view.version in s.cases[app].snapshots
    && view.status == Name(s.cases[app].snapshots[view.version].status)
  }

  /** A row some consumer has had: its case's view has reached its version. */
  ghost predicate RowReached(m: ReadModel, r: OutboxRow)
  {
    RowState(r).Some? ==> r.aggregateId in m.views && RowState(r).value.1 <= m.views[r.aggregateId].version
  }

  predicate Seen(m: ReadModel, id: nat, consumer: string)
  {
    (id, consumer) in m.inbox
  }

  ghost predicate ModelOk(p: Pipe)
  {
    && (forall app :: app in p.model.views ==> ViewCommitted(p.store, app, p.model.views[app]))
    && (forall id: nat, consumer :: Seen(p.model, id, consumer) ==> id in p.drawn)
    && (forall i, consumer :: 0 <= i < |p.store.outbox| && Seen(p.model, p.store.outbox[i].eventId, consumer)
          ==> RowReached(p.model, p.store.outbox[i]))
  }

  ghost predicate PipeOk(p: Pipe)
  {
    && StoreOk(p.store) && IdsOk(p.store.outbox, p.drawn)
    && (forall k :: 0 <= k < |p.log| ==> SentFromOutbox(p.store.outbox, p.log[k]))
    && MarkedWereSent(p.store.outbox, p.log)
    && ModelOk(p)
  }

  /** A commit appends its rows, unpublished, with consecutive fresh ids. */
  ghost predicate Appends(rows: seq<OutboxRow>, after: seq<OutboxRow>, firstId: nat)
  {
    && |rows| <= |after| <= |rows| + IDS_PER_TRANSACTION
    && (forall i :: 0 <= i < |rows| ==> after[i] == rows[i])
    && (forall i :: |rows| <= i < |after| ==> after[i].eventId == firstId + (i - |rows|) && !after[i].published)
  }

  lemma ExecAppends(s: Store, r: Request)
    requires StoreOk(s)
    ensures Appends(s.outbox, After(s, r).outbox, r.stamp.firstId)
  {
    hide StoreOk, HistoryOk, OutboxOk, TenantAuditOk, Commits, PlanScript, ScriptOf, Prepare, Conflicts, Apply, BatchRows;
    assert HistoriesOk(s) by { StoreOkParts(s); }
    if Exec(s, r).Ok? {
      var row, w := ExecCommits(s, r);
      CommitParts(s, w, After(s, r));
      if MovesCase(r.command) {
        var script := ScriptOf(r.command);
        var m := PlanScriptWrites(r, script, row.value, QueueOf(s, r.app), w);
        assert |w.events| <= IDS_PER_TRANSACTION by { ScriptEvents(row.value, script, r.stamp.now, m); }
      } else {
        QuietEvents(r, row, QueueOf(s, r.app), w);
      }
    }
  }

  lemma ScriptEvents(row: AppRow, script: Script, now: Time, m: Moved)
    requires MoveThrough(row, script, now) == Ok(m)
    ensures |m.aggregate.pending| <= IDS_PER_TRANSACTION
  {
    hide IsLegal;
  }

  lemma QuietEvents(r: Request, row: Option<AppRow>, queue: Option<QueueRow>, w: Writes)
    requires !MovesCase(r.command) && (row.None? ==> r.command.Create? || r.command.Extract?)
    requires Plan(r, row, queue) == Ok(w)
    ensures |w.events| <= 1
    ensures forall i :: 0 <= i < |w.events| ==> w.events[i].eventId == r.stamp.firstId + i && !w.events[i].published
  {
  }

  lemma ViewsStayCommitted(s: Store, after: Store, app: AppId, view: View)
    requires ViewCommitted(s, app, view) && CasesGrow(s, after) && HistoriesOk(after)
    ensures ViewCommitted(after, app, view)
  {
    hide Name, HistoriesOk;
    assert CaseGrows(s.cases[app], after.cases[app]);
  }

  lemma CommandKeeps(p: Pipe, r: Request)
    requires PipeOk(p) && IdsOf(r) * p.drawn == {}
    ensures PipeOk(NextPipe(p, Command(r)))
  {
    hide StoreOk, HistoriesOk, After, CasesGrow, ViewCommitted, RowReached, Seen;
    var after := After(p.store, r);
    var next := NextPipe(p, Command(r));
    ExecKeepsStore(p.store, r);
    StoreOkParts(p.store);
    StoreOkParts(after);
    ExecOnlyAdds(p.store, r);
    ExecAppends(p.store, r);
    hide OutboxOk, AuditOk;
    NewIds(p.store.outbox, after.outbox, r, p.drawn);
    forall app | app in next.model.views ensures ViewCommitted(after, app, next.model.views[app]) {
      ViewsStayCommitted(p.store, after, app, next.model.views[app]);
    }
    forall k | 0 <= k < |next.log| ensures SentFromOutbox(after.outbox, next.log[k]) {
      assert SentFromOutbox(p.store.outbox, p.log[k]);
      var i :| 0 <= i < |p.store.outbox| && p.log[k] == BuildEnvelope(p.store.outbox[i]);
      assert after.outbox[i] == p.store.outbox[i];
    }
    forall i, consumer | 0 <= i < |after.outbox| && Seen(next.model, after.outbox[i].eventId, consumer)
      ensures RowReached(next.model, after.outbox[i])
    {
      assert i < |p.store.outbox|;
    }
  }

  lemma NewIds(rows: seq<OutboxRow>, after: seq<OutboxRow>, r: Request, drawn: set<nat>)
    requires IdsOk(rows, drawn) && Appends(rows, after, r.stamp.firstId) && IdsOf(r) * drawn == {}
    ensures IdsOk(after, drawn + IdsOf(r))
    ensures forall i :: |rows| <= i < |after| ==> after[i].eventId !in drawn
  {
    assert forall id :: id in IdsOf(r) ==> (id in drawn <==> id in IdsOf(r) * drawn);
    assert forall i :: |rows| <= i < |after| ==> after[i].eventId in IdsOf(r);
  }

  lemma SendKeeps(p: Pipe, i: nat)
    requires PipeOk(p) && i < |p.store.outbox|
    ensures PipeOk(p.(log := p.log + [BuildEnvelope(p.store.outbox[i])]))
  {
    hide StoreOk, ModelOk;
    var next := p.(log := p.log + [BuildEnvelope(p.store.outbox[i])]);
    assert ModelOk(next) by { SameModel(p, next); }
    assert SentFromOutbox(p.store.outbox, BuildEnvelope(p.store.outbox[i]));
    forall j | 0 <= j < |p.store.outbox| && p.store.outbox[j].published
      ensures BuildEnvelope(p.store.outbox[j]) in next.log
    {
      assert BuildEnvelope(p.store.outbox[j]) in p.log;
    }
  }

  lemma SameModel(p: Pipe, next: Pipe)
    requires ModelOk(p) && next.store == p.store && next.model == p.model && next.drawn == p.drawn
    ensures ModelOk(next)
  {
  }

  lemma MarkKeeps(p: Pipe, i: nat)
    requires PipeOk(p) && i < |p.store.outbox| && BuildEnvelope(p.store.outbox[i]) in p.log
    ensures PipeOk(p.(store := MarkRow(p.store, i)))
  {
    hide StoreOk, ProjectedState, Seen;
    MarkKeepsStore(p.store, i);
    var next := p.(store := MarkRow(p.store, i));
    forall k | 0 <= k < |p.log| ensures SentFromOutbox(next.store.outbox, p.log[k]) {
      assert SentFromOutbox(p.store.outbox, p.log[k]);
      var j :| 0 <= j < |p.store.outbox| && p.log[k] == BuildEnvelope(p.store.outbox[j]);
      assert p.log[k] == BuildEnvelope(next.store.outbox[j]);
    }
    forall app | app in next.model.views ensures ViewCommitted(next.store, app, next.model.views[app]) {
      assert ViewCommitted(p.store, app, p.model.views[app]);
    }
    forall j, consumer | 0 <= j < |next.store.outbox| && Seen(next.model, next.store.outbox[j].eventId, consumer)
      ensures RowReached(next.model, next.store.outbox[j])
    {
      assert RowReached(p.model, p.store.outbox[j]);
    }
  }

  /** A message that announces a version moves its case's view there, or finds it past. */
  lemma AppliedViews(m: ReadModel, e: Envelope, consumer: string)
    ensures forall app :: app in m.views ==>
              app in Applied(m, e, consumer).views && m.views[app].version <= Applied(m, e, consumer).views[app].version
    ensures forall app :: app in Applied(m, e, consumer).views && app != e.application ==>
              app in m.views && Applied(m, e, consumer).views[app] == m.views[app]
    ensures !Seen(m, e.eventId, consumer) && EnvelopeState(e).Some? ==>
              && e.application in Applied(m, e, consumer).views
              && EnvelopeState(e).value.1 <= Applied(m, e, consumer).views[e.application].version
    ensures e.application in Applied(m, e, consumer).views ==>
              var view := Applied(m, e, consumer).views[e.application];
              || (e.application in m.views && view == m.views[e.application])
              || (EnvelopeState(e).Some? && (view.status, view.version) == EnvelopeState(e).value
                  && view.updatedAt == e.occurredAt
                  && view.tenant == if e.application in m.views then m.views[e.application].tenant else e.tenant)
  {
    hide ProjectedState;
  }

  /** A message not seen before shows in its case's view unless the view is past its version: one of the
      view's own version still does. */
  lemma ShowsUnlessOlder(m: ReadModel, e: Envelope, consumer: string)
    requires !Seen(m, e.eventId, consumer) && EnvelopeState(e).Some?
    ensures var after, version := Applied(m, e, consumer).views, EnvelopeState(e).value.1;
            && e.application in after
            && if e.application in m.views && m.views[e.application].version > version
               then after[e.application] == m.views[e.application]
               else (after[e.application].status, after[e.application].version) == EnvelopeState(e).value
                    && after[e.application].updatedAt == e.occurredAt
  {
    hide ProjectedState;
  }

  lemma AppliedInbox(m: ReadModel, e: Envelope, consumer: string)
    ensures forall id: nat, c :: Seen(Applied(m, e, consumer), id, c) <==> Seen(m, id, c) || (id, c) == (e.eventId, consumer)
  {
    hide ProjectedState;
  }

  lemma DeliveredViews(p: Pipe, i: nat, consumer: string)
    requires StoreOk(p.store) && ModelOk(p) && i < |p.store.outbox|
    ensures var after := Applied(p.model, BuildEnvelope(p.store.outbox[i]), consumer);
            forall app :: app in after.views ==> ViewCommitted(p.store, app, after.views[app])
  {
    hide StoreOk, ProjectedState, Applied, Seen, HistoryOk, Name, RowReached;
    var e := BuildEnvelope(p.store.outbox[i]);
    AppliedViews(p.model, e, consumer);
    StoreOkParts(p.store);
    hide AuditOk, HistoriesOk;
    assert TellsHistory(p.store, p.store.outbox[i]);
    hide OutboxOk;
    forall app | app in Applied(p.model, e, consumer).views
      ensures ViewCommitted(p.store, app, Applied(p.model, e, consumer).views[app])
    {
      if app in p.model.views {
        assert ViewCommitted(p.store, app, p.model.views[app]);
      }
    }
  }

  lemma DeliveredReached(p: Pipe, i: nat, consumer: string)
    requires IdsOk(p.store.outbox, p.drawn) && ModelOk(p) && i < |p.store.outbox|
    ensures var after := Applied(p.model, BuildEnvelope(p.store.outbox[i]), consumer);
            forall j, c :: 0 <= j < |p.store.outbox| && Seen(after, p.store.outbox[j].eventId, c) ==>
              RowReached(after, p.store.outbox[j])
  {
    hide ProjectedState, Applied, Seen, ViewCommitted;
    var e := BuildEnvelope(p.store.outbox[i]);
    var after := Applied(p.model, e, consumer);
    AppliedViews(p.model, e, consumer);
    AppliedInbox(p.model, e, consumer);
    forall j, c | 0 <= j < |p.store.outbox| && Seen(after, p.store.outbox[j].eventId, c)
      ensures RowReached(after, p.store.outbox[j])
    {
      if Seen(p.model, p.store.outbox[j].eventId, c) {
        assert RowReached(p.model, p.store.outbox[j]);
      } else {
        assert j == i;
      }
    }
  }

  lemma DeliverKeeps(p: Pipe, k: nat, consumer: string)
    requires PipeOk(p) && k < |p.log|
    ensures PipeOk(p.(model := Applied(p.model, p.log[k], consumer)))
  {
    hide StoreOk, ProjectedState, Applied, Seen, RowReached, ViewCommitted;
    assert SentFromOutbox(p.store.outbox, p.log[k]);
    var i :| 0 <= i < |p.store.outbox| && p.log[k] == BuildEnvelope(p.store.outbox[i]);
    AppliedInbox(p.model, p.log[k], consumer);
    DeliveredViews(p, i, consumer);
    DeliveredReached(p, i, consumer);
  }

  lemma NextKeepsPipe(p: Pipe, step: PipeStep)
    requires PipeOk(p)
    ensures PipeOk(NextPipe(p, step))
  {
    hide PipeOk, After, Applied, MarkRow;
    match step
    case Command(r) => if IdsOf(r) * p.drawn == {} { CommandKeeps(p, r); }
    case Send(i) => if i < |p.store.outbox| && !p.store.outbox[i].published { SendKeeps(p, i); }
    case Mark(i) => if i < |p.store.outbox| && BuildEnvelope(p.store.outbox[i]) in p.log { MarkKeeps(p, i); }
    case Deliver(k, consumer) => if k < |p.log| { DeliverKeeps(p, k, consumer); }
  }

  lemma {:induction false} EveryRunIsPipeOk(steps: seq<PipeStep>)
    ensures PipeOk(RunPipe(steps))
  {
    hide PipeOk, NextPipe;
    if steps == [] {
      EmptyPipeOk();
    } else {
      EveryRunIsPipeOk(steps[..|steps| - 1]);
      NextKeepsPipe(RunPipe(steps[..|steps| - 1]), steps[|steps| - 1]);
    }
  }

  lemma EmptyPipeOk()
    ensures PipeOk(Pipe(EMPTY_STORE, [], ReadModel({}, map[]), {}))
  {
    EmptyStoreOk();
  }

  // ---- Where views come from --------------------------------------------------------------------

  /** Some consumer has had a row of this case that announces this version. */
  ghost predicate Delivered(p: Pipe, app: AppId, version: int)
  {
    exists i, consumer :: 0 <= i < |p.store.outbox| && DeliveredRow(p, i, consumer, app, version)
  }

  ghost predicate DeliveredRow(p: Pipe, i: nat, consumer: string, app: AppId, version: int)
    requires i < |p.store.outbox|
  {
    var r := p.store.outbox[i];
    r.aggregateId == app && RowState(r).Some? && RowState(r).value.1 == version && Seen(p.model, r.eventId, consumer)
  }

  /** A view is that of a row some consumer has had: its version, and its time. */
  ghost predicate Backed(p: Pipe, app: AppId, view: View)
  {
    exists i, consumer :: 0 <= i < |p.store.outbox| && DeliveredRow(p, i, consumer, app, view.version)
                          && p.store.outbox[i].occurredAt == view.updatedAt
  }

  ghost predicate ViewsBacked(p: Pipe)
  {
    forall app :: app in p.model.views ==> Backed(p, app, p.model.views[app])
  }

  lemma BackedKept(p: Pipe, next: Pipe, app: AppId, view: View)
    requires Backed(p, app, view)
    requires |p.store.outbox| <= |next.store.outbox|
    requires forall i :: 0 <= i < |p.store.outbox| ==>
               next.store.outbox[i] == p.store.outbox[i].(published := next.store.outbox[i].published)
    requires forall id: nat, c :: Seen(p.model, id, c) ==> Seen(next.model, id, c)
    ensures Backed(next, app, view)
  {
    hide ProjectedState, Seen;
    var i, consumer :| 0 <= i < |p.store.outbox| && DeliveredRow(p, i, consumer, app, view.version)
                       && p.store.outbox[i].occurredAt == view.updatedAt;
    assert DeliveredRow(next, i, consumer, app, view.version);
  }

  lemma NextKeepsBacked(p: Pipe, step: PipeStep)
    requires PipeOk(p) && ViewsBacked(p)
    ensures ViewsBacked(NextPipe(p, step))
  {
    hide StoreOk, IdsOk, ModelOk, MarkedWereSent, After, Applied, Seen, Backed, ProjectedState;
    var next := NextPipe(p, step);
    if step.Command? {
      ExecAppends(p.store, step.request);
    }
    if step.Deliver? && step.message < |p.log| {
      AppliedViews(p.model, p.log[step.message], step.consumer);
      AppliedInbox(p.model, p.log[step.message], step.consumer);
    }
    forall app | app in next.model.views ensures Backed(next, app, next.model.views[app]) {
      if app in p.model.views && next.model.views[app] == p.model.views[app] {
        BackedKept(p, next, app, next.model.views[app]);
      } else {
        assert step.Deliver? && step.message < |p.log|;
        MessageBacks(p, next, step.message, step.consumer, next.model.views[app]);
      }
    }
  }

  lemma MessageBacks(p: Pipe, next: Pipe, k: nat, consumer: string, view: View)
    requires k < |p.log| && SentFromOutbox(p.store.outbox, p.log[k])
    requires next == p.(model := Applied(p.model, p.log[k], consumer)) && EnvelopeState(p.log[k]).Some?
    requires view.version == EnvelopeState(p.log[k]).value.1 && view.updatedAt == p.log[k].occurredAt
    ensures Backed(next, p.log[k].application, view)
  {
    hide ProjectedState, Applied, Seen;
    AppliedInbox(p.model, p.log[k], consumer);
    var i :| 0 <= i < |p.store.outbox| && p.log[k] == BuildEnvelope(p.store.outbox[i]);
    assert DeliveredRow(next, i, consumer, p.log[k].application, view.version);
  }

  lemma {:induction false} EveryRunIsBacked(steps: seq<PipeStep>)
    ensures PipeOk(RunPipe(steps)) && ViewsBacked(RunPipe(steps))
  {
    hide PipeOk, NextPipe;
    EveryRunIsPipeOk(steps);
    if steps != [] {
      EveryRunIsBacked(steps[..|steps| - 1]);
      hide ViewsBacked;
      NextKeepsBacked(RunPipe(steps[..|steps| - 1]), steps[|steps| - 1]);
    }
  }

  // ---- Main results -----------------------------------------------------------------------------

  /** Whatever crashes between publishing and marking, however messages are repeated or reordered, a
      view always shows a status and version its case really committed. */
  lemma ViewsShowCommittedStates(steps: seq<PipeStep>, app: AppId)
    requires app in RunPipe(steps).model.views
    ensures var p := RunPipe(steps);
            ViewCommitted(p.store, app, p.model.views[app])
  {
    hide StoreOk, RunPipe;
    EveryRunIsPipeOk(steps);
  }

  /** Its version never falls. */
  lemma ViewNeverFalls(steps: seq<PipeStep>, step: PipeStep, app: AppId)
    requires app in RunPipe(steps).model.views
    ensures app in RunPipe(steps + [step]).model.views
    ensures RunPipe(steps).model.views[app].version <= RunPipe(steps + [step]).model.views[app].version
  {
    hide Applied, After;
    assert (steps + [step])[..|steps|] == steps;
    var p := RunPipe(steps);
    if step.Deliver? && step.message < |p.log| {
      AppliedViews(p.model, p.log[step.message], step.consumer);
    }
  }

  /** A view's time is that of the event that announced its version. */
  lemma ViewTimeIsItsEvents(steps: seq<PipeStep>, app: AppId, i: nat)
    requires app in RunPipe(steps).model.views && i < |RunPipe(steps).store.outbox|
    requires var r, view := RunPipe(steps).store.outbox[i], RunPipe(steps).model.views[app];
             r.aggregateId == app && RowState(r).Some? && RowState(r).value.1 == view.version
    ensures RunPipe(steps).model.views[app].updatedAt == RunPipe(steps).store.outbox[i].occurredAt
  {
    hide PipeOk, ViewsBacked, ModelOk, StoreOk, RunPipe, ProjectedState;
    var p := RunPipe(steps);
    var view := p.model.views[app];
    EveryRunIsBacked(steps);
    PipeParts(p);
    var j := BackingRow(p, app);
    assert i == j by { OneRowPerVersion(p.store, app, i, j); }
  }

  lemma BackingRow(p: Pipe, app: AppId) returns (j: nat)
    requires ViewsBacked(p) && app in p.model.views
    ensures j < |p.store.outbox|
    ensures var r, view := p.store.outbox[j], p.model.views[app];
            r.aggregateId == app && RowState(r).Some? && RowState(r).value.1 == view.version && r.occurredAt == view.updatedAt
  {
    hide ProjectedState, Seen;
    assert Backed(p, app, p.model.views[app]);
    var i, consumer :| 0 <= i < |p.store.outbox| && DeliveredRow(p, i, consumer, app, p.model.views[app].version)
                       && p.store.outbox[i].occurredAt == p.model.views[app].updatedAt;
    j := i;
  }

  lemma OneRowPerVersion(s: Store, app: AppId, i: nat, j: nat)
    requires StoreOk(s) && i < |s.outbox| && j < |s.outbox|
    requires s.outbox[i].aggregateId == app && s.outbox[j].aggregateId == app
    requires RowState(s.outbox[i]).Some? && RowState(s.outbox[j]).Some?
    requires RowState(s.outbox[i]).value.1 == RowState(s.outbox[j]).value.1
    ensures i == j
  {
    hide RowState, HistoriesOk, AuditOk, TellsHistory, Announced;
  }

  /** Convergence, exactly: a case's view equals its authoritative status and version if and only if
      the event of its current version has been delivered, to any consumer, any number of times, before
      or after any others. */
  lemma ViewIsCurrentIffDelivered(steps: seq<PipeStep>, app: AppId)
    requires app in RunPipe(steps).store.cases
    ensures var p := RunPipe(steps);
            var row := p.store.cases[app].row;
            Delivered(p, app, row.version) <==>
              app in p.model.views && p.model.views[app].version == row.version
              && p.model.views[app].status == Name(row.status)
  {
    hide PipeOk, ViewsBacked, ModelOk, StoreOk, RunPipe, Delivered, Name;
    var p := RunPipe(steps);
    var c := p.store.cases[app];
    EveryRunIsBacked(steps);
    PipeParts(p);
    CurrentSnapshot(p.store, app);
    if Delivered(p, app, c.row.version) {
      DeliveredIsReached(p, app, c.row.version);
      ShownIsCommitted(p, app);
    } else if app in p.model.views {
      ShownIsDelivered(p, app);
    }
  }

  lemma PipeParts(p: Pipe)
    requires PipeOk(p)
    ensures StoreOk(p.store) && ModelOk(p)
  {
    hide StoreOk, ModelOk, IdsOk, MarkedWereSent;
  }

  lemma CurrentSnapshot(s: Store, app: AppId)
    requires StoreOk(s) && app in s.cases
    ensures var c := s.cases[app]; c.row.version in c.snapshots && c.snapshots[c.row.version].status == c.row.status
  {
    hide OutboxOk, AuditOk;
    assert HistoryOk(s.cases[app]);
  }

  lemma DeliveredIsReached(p: Pipe, app: AppId, version: int)
    requires ModelOk(p) && Delivered(p, app, version)
    ensures app in p.model.views && version <= p.model.views[app].version
  {
    hide ViewCommitted, ProjectedState, Seen;
    var i, consumer :| 0 <= i < |p.store.outbox| && DeliveredRow(p, i, consumer, app, version);
    assert RowReached(p.model, p.store.outbox[i]);
  }

  lemma ShownIsCommitted(p: Pipe, app: AppId)
    requires ModelOk(p) && app in p.model.views
    ensures ViewCommitted(p.store, app, p.model.views[app])
  {
    hide ViewCommitted, RowReached, Seen;
  }

  lemma ShownIsDelivered(p: Pipe, app: AppId)
    requires ViewsBacked(p) && app in p.model.views
    ensures Delivered(p, app, p.model.views[app].version)
  {
    hide DeliveredRow;
    assert Backed(p, app, p.model.views[app]);
  }

  /** In particular, once every event of a case has been delivered at least once, its view is current. */
  lemma AllDeliveredIsCurrent(steps: seq<PipeStep>, app: AppId)
    requires app in RunPipe(steps).store.cases
    requires forall i :: 0 <= i < |RunPipe(steps).store.outbox| && RunPipe(steps).store.outbox[i].aggregateId == app ==>
               exists consumer :: Seen(RunPipe(steps).model, RunPipe(steps).store.outbox[i].eventId, consumer)
    ensures var p := RunPipe(steps);
            var row := p.store.cases[app].row;
            && app in p.model.views && p.model.views[app].version == row.version
            && p.model.views[app].status == Name(row.status)
  {
    hide StoreOk, RunPipe, ProjectedState, Seen, Name;
    var p := RunPipe(steps);
    var c := p.store.cases[app];
    EveryRunIsPipeOk(steps);
    StoreOkParts(p.store);
    hide AuditOk, ModelOk, MarkedWereSent, IdsOk;
    assert HistoryOk(c);
    assert Announced(p.store, app, c.row.version);
    var i :| 0 <= i < |p.store.outbox| && Announces(p.store.outbox[i], app, c.row.version);
    var consumer :| Seen(p.model, p.store.outbox[i].eventId, consumer);
    assert DeliveredRow(p, i, consumer, app, c.row.version);
    ViewIsCurrentIffDelivered(steps, app);
  }

  /** A row is marked published only if its message is in the broker's log. */
  lemma MarkedRowsWereSent(steps: seq<PipeStep>, i: nat)
    requires i < |RunPipe(steps).store.outbox| && RunPipe(steps).store.outbox[i].published
    ensures BuildEnvelope(RunPipe(steps).store.outbox[i]) in RunPipe(steps).log
  {
    hide StoreOk, RunPipe;
    EveryRunIsPipeOk(steps);
  }

  // ---- The relay's own steps --------------------------------------------------------------------

  ghost function PipeFrom(p: Pipe, steps: seq<PipeStep>): Pipe
  {
    if steps == [] then p else NextPipe(PipeFrom(p, steps[..|steps| - 1]), steps[|steps| - 1])
  }

  lemma {:induction false} PipeFromConcat(p: Pipe, a: seq<PipeStep>, b: seq<PipeStep>)
    ensures PipeFrom(p, a + b) == PipeFrom(PipeFrom(p, a), b)
  {
    hide NextPipe;
    if b == [] {
      assert a + b == a;
    } else {
      PipeFromConcat(p, a, b[..|b| - 1]);
      assert (a + b)[..|a + b| - 1] == a + b[..|b| - 1];
    }
  }

  lemma {:induction false} RunsOn(steps: seq<PipeStep>, more: seq<PipeStep>)
    ensures RunPipe(steps + more) == PipeFrom(RunPipe(steps), more)
  {
    hide NextPipe;
    if more == [] {
      assert steps + more == steps;
    } else {
      RunsOn(steps, more[..|more| - 1]);
      assert (steps + more)[..|steps + more| - 1] == steps + more[..|more| - 1];
    }
  }

  function Sends(selection: seq<nat>): seq<PipeStep>
  {
    seq(|selection|, k requires 0 <= k < |selection| => Send(selection[k]))
  }

  function Marks(selection: seq<nat>): seq<PipeStep>
  {
    seq(|selection|, k requires 0 <= k < |selection| => Mark(selection[k]))
  }

  ghost predicate SomeUnpublished(rows: seq<OutboxRow>, selection: seq<nat>)
  {
    forall k :: 0 <= k < |selection| ==> selection[k] < |rows| && !rows[selection[k]].published
  }

  lemma {:induction false} SendsRun(p: Pipe, selection: seq<nat>)
    requires SomeUnpublished(p.store.outbox, selection)
    ensures PipeFrom(p, Sends(selection)) == p.(log := p.log + Envelopes(p.store.outbox, selection))
  {
    hide After, Applied;
    if selection == [] {
      assert p.log + [] == p.log;
    } else {
      var front, last := selection[..|selection| - 1], selection[|selection| - 1];
      SendsRun(p, front);
      assert Sends(selection) == Sends(front) + [Send(last)];
      assert Envelopes(p.store.outbox, selection) == Envelopes(p.store.outbox, front) + [BuildEnvelope(p.store.outbox[last])];
    }
  }

  lemma {:induction false} MarksRun(p: Pipe, selection: seq<nat>)
    requires forall k :: 0 <= k < |selection| ==>
               selection[k] < |p.store.outbox| && BuildEnvelope(p.store.outbox[selection[k]]) in p.log
    ensures PipeFrom(p, Marks(selection)) == p.(store := p.store.(outbox := Marked(p.store.outbox, selection)))
  {
    hide After, Applied;
    if selection == [] {
      assert Marked(p.store.outbox, []) == p.store.outbox;
    } else {
      var front, last := selection[..|selection| - 1], selection[|selection| - 1];
      MarksRun(p, front);
      assert Marks(selection) == Marks(front) + [Mark(last)];
      assert selection == front + [last];
      MarkedOneMore(p.store.outbox, front, last);
    }
  }

  lemma MarkedOneMore(rows: seq<OutboxRow>, front: seq<nat>, last: nat)
    requires last < |rows|
    ensures var mid := Marked(rows, front);
            && BuildEnvelope(mid[last]) == BuildEnvelope(rows[last])
            && mid[last := mid[last].(published := true)] == Marked(rows, front + [last])
  {
  }

  lemma SelectedIsUnpublished(rows: seq<OutboxRow>, tenant: TenantId, locked: set<nat>, limit: nat, selection: seq<nat>, n: nat)
    requires Selected(rows, tenant, locked, limit, selection) && n <= |selection|
    ensures SomeUnpublished(rows, selection) && SomeUnpublished(rows, selection[..n])
  {
  }

  /** A batch of the relay is a run of the loop's steps: it sends its rows one by one and then marks them;
      a batch that fails has sent some and marks none. The pipe on the right is what `RelayTenantBatch`
      leaves. */
  lemma RelayIsSteps(p: Pipe, tenant: TenantId, locked: set<nat>, batchSize: nat, selection: seq<nat>, failsAt: Option<nat>)
    requires Selected(p.store.outbox, tenant, locked, batchSize, selection)
    requires failsAt.Some? ==> failsAt.value < |selection|
    ensures var rows := p.store.outbox;
            if failsAt.None?
            then PipeFrom(p, Sends(selection) + Marks(selection)) ==
                   p.(log := p.log + Envelopes(rows, selection), store := p.store.(outbox := Marked(rows, selection)))
            else SomeUnpublished(rows, selection[..failsAt.value])
                 && PipeFrom(p, Sends(selection[..failsAt.value])) ==
                      p.(log := p.log + Envelopes(rows, selection[..failsAt.value]))
  {
    hide NextPipe;
    var n := if failsAt.Some? then failsAt.value else |selection|;
    SelectedIsUnpublished(p.store.outbox, tenant, locked, batchSize, selection, n);
    if failsAt.None? {
      SendsRun(p, selection);
      var sent := PipeFrom(p, Sends(selection));
      forall k | 0 <= k < |selection| ensures BuildEnvelope(p.store.outbox[selection[k]]) in sent.log {
        assert sent.log[|p.log| + k] == BuildEnvelope(p.store.outbox[selection[k]]);
      }
      MarksRun(sent, selection);
      PipeFromConcat(p, Sends(selection), Marks(selection));
    } else {
      SendsRun(p, selection[..n]);
    }
  }
}
