/** The protocol with its transactions overlapping: the attempts of activities, the extractions and the
    clients' commands each reserve, load, plan, record and commit in steps of their own, while signals,
    timers and other transactions go on in between. */
module Overlap {
  import opened Prelude
  import opened CaseStatus
  import opened Applications
  import opened Audit
  import opened Store
  import opened StoreInvariants
  import opened Coupling
  import opened Protocol
  import opened ProtocolInvariants
  import opened ProtocolTheorems
  import Interleaving

  type Txn = Interleaving.Txn

  /** The world, the transactions in flight, and the event each of them belongs to. */
  datatype Overlapped = Overlapped(world: World, txns: map<nat, Txn>, events: map<nat, Event>)

  /** An event without a transaction happens at once; one with a transaction opens it, and the
      transaction then goes its own steps. */
  datatype Move = Instant(event: Event) | Open(id: nat, event: Event) | Go(step: Interleaving.Step)

  function SysOf(o: Overlapped): Interleaving.Sys
  {
    Interleaving.Sys(o.world.store, o.txns)
  }

  /** The request an event opens its transaction with. The event of a document gate names the count the
      gate is going to read. */
  function Asked(w: World, event: Event): Option<Request>
  {
    match TriedBy(w, event)
    case None => None
    case Some(r) =>
      if !r.command.AdvanceDocuments? || !event.Attempt? then Some(r)
      else if event.inputs.counted.None? then None
      else Some(r.(command := AdvanceDocuments(event.inputs.counted.value)))
  }

  /** One move. An insert of a key that a transaction in flight holds waits; one of a committed key is
      refused at once, and the attempt re-reads the case as it is now. */
  function Step(o: Overlapped, move: Move): Overlapped
  {
    match move
    case Instant(event) => if TriedBy(o.world, event).Some? then o else o.(world := Next(o.world, event))
    case Open(id, event) =>
      if !CanOpen(o, id, event) then o
      else if RefusedAtOnce(o, event) then o.(world := Next(o.world, event))
      else o.(txns := o.txns[id := Interleaving.Begun(Asked(o.world, event).value)], events := o.events[id := event])
    case Go(step) =>
      if step.Begin? then o
      else
        var after := Interleaving.Next(SysOf(o), step);
        o.(world := if Finishes(o, step) then Next(o.world, o.events[step.id]).(store := after.store) else o.world,
           txns := after.txns)
  }

  predicate CanOpen(o: Overlapped, id: nat, event: Event)
  {
    && Asked(o.world, event).Some? && id !in o.txns
    && !Interleaving.Held(SysOf(o), KeyOf(Asked(o.world, event).value))
  }

  predicate RefusedAtOnce(o: Overlapped, event: Event)
    requires Asked(o.world, event).Some?
  {
    Reserve(o.world.store, Asked(o.world, event).value).Err?
  }

  /** Whether a step commits the transaction of an event. */
  predicate Finishes(o: Overlapped, step: Interleaving.Step)
    requires !step.Begin?
  {
    Interleaving.CommittedBy(SysOf(o), step).Some? && step.id in o.events
  }

  ghost function RunOver(moves: seq<Move>): Overlapped
  {
    if moves == [] then Overlapped(INITIAL, map[], map[])
    else Step(RunOver(moves[..|moves| - 1]), moves[|moves| - 1])
  }

  /** The event a move completes: each transaction happens when it commits. */
  function Fires(o: Overlapped, move: Move): seq<Event>
  {
    match move
    case Instant(event) => if TriedBy(o.world, event).Some? then [] else [event]
    case Open(id, event) => if CanOpen(o, id, event) && RefusedAtOnce(o, event) then [event] else []
    case Go(step) => if !step.Begin? && Finishes(o, step) then [o.events[step.id]] else []
  }

  /** The run of the protocol an overlapping one amounts to. */
  ghost function Projected(moves: seq<Move>): seq<Event>
  {
    if moves == [] then []
    else Projected(moves[..|moves| - 1]) + Fires(RunOver(moves[..|moves| - 1]), moves[|moves| - 1])
  }

  // ---- Worlds that differ in audit hashes only --------------------------------------------------

  ghost predicate WorldsAlike(v: World, w: World)
  {
    v == w.(store := v.store) && Interleaving.Similar(v.store, w.store)
  }

  lemma SimilarReads(a: Store, b: Store, app: AppId)
    requires Interleaving.Similar(a, b)
    ensures a.cases == b.cases && a.keys == b.keys && FilesOf(a, app) == FilesOf(b, app)
  {
  }

  lemma RequestAlike(a: Store, b: Store, wf: WorkflowId, index: nat, activity: Activity, inputs: Inputs)
    requires Interleaving.Similar(a, b) && !activity.ExtractFacts?
    ensures RequestOf(a, wf, index, activity, inputs) == RequestOf(b, wf, index, activity, inputs)
  {
    SimilarReads(a, b, wf.app);
    hide Interleaving.Similar;
  }

  lemma ResultAlike(a: Store, b: Store, wf: WorkflowId, r: Request)
    requires Interleaving.Similar(a, b)
    ensures AttemptResult(a, wf, r) == AttemptResult(b, wf, r)
  {
    hide Exec, After;
    Interleaving.ExecSimilar(a, b, r);
    SimilarReads(a, b, wf.app);
    hide Interleaving.Similar;
  }

  lemma TriedAlike(v: World, w: World, event: Event)
    requires WorldsAlike(v, w)
    ensures TriedBy(v, event) == TriedBy(w, event)
  {
    hide RequestOf, Interleaving.Similar;
    if event.Attempt? && TriedBy(v, event).Some? {
      RequestAlike(v.store, w.store, event.wf, event.index, v.execs[event.wf].scheduled[event.index], event.inputs);
    }
  }

  lemma AttemptAlike(v: World, w: World, event: Event)
    requires WorldsAlike(v, w) && event.Attempt? && TriedBy(v, event).Some?
    ensures var x, y := Next(v, event), Next(w, event); x == y.(store := x.store)
  {
    hide RequestOf, Interleaving.Similar, Exec, After, AttemptResult, Completed;
    RequestAlike(v.store, w.store, event.wf, event.index, v.execs[event.wf].scheduled[event.index], event.inputs);
    Interleaving.ExecSimilar(v.store, w.store, TriedBy(v, event).value);
    ResultAlike(v.store, w.store, event.wf, TriedBy(v, event).value);
  }

  lemma ClientAlike(v: World, w: World, r: Request)
    requires WorldsAlike(v, w)
    ensures var x, y := ClientStep(v, r), ClientStep(w, r); x == y.(store := x.store)
  {
    hide Interleaving.Similar, Exec, After;
    Interleaving.ExecSimilar(v.store, w.store, r);
  }

  lemma PassAlike(v: World, w: World, id: nat, stamp: Stamp)
    requires WorldsAlike(v, w) && id in v.passes && v.passes[id].done < |v.passes[id].documents|
    ensures var x, y := PassStep(v, id, stamp), PassStep(w, id, stamp); x == y.(store := x.store)
  {
    hide Interleaving.Similar, Exec, After;
    var p := v.passes[id];
    Interleaving.ExecSimilar(v.store, w.store, ExtractRequest(p.wf, p.index, p.documents[p.done], stamp));
  }

  /** The events that run no transaction read the store only to list a case's documents. */
  lemma UntriedAlike(v: World, w: World, event: Event)
    requires WorldsAlike(v, w) && TriedBy(v, event).None? && !event.Attempt?
    ensures var x, y := Next(v, event), Next(w, event); x == y.(store := x.store)
  {
    hide Interleaving.Similar, ClientStep, PassStep, FilesOf, Completed;
    if event.BeginPass? {
      SimilarReads(v.store, w.store, event.wf.app);
    }
  }

  lemma OtherAlike(v: World, w: World, event: Event)
    requires WorldsAlike(v, w) && !event.Attempt?
    ensures var x, y := Next(v, event), Next(w, event); x == y.(store := x.store)
  {
    hide Interleaving.Similar, ClientStep, PassStep;
    if TriedBy(v, event).None? {
      hide Next;
      UntriedAlike(v, w, event);
    } else if event.Client? {
      ClientAlike(v, w, event.request);
    } else {
      PassAlike(v, w, event.pass, event.stamp);
    }
  }

  /** No event can tell them apart. */
  lemma NextAlike(v: World, w: World, event: Event)
    requires WorldsAlike(v, w)
    ensures WorldsAlike(Next(v, event), Next(w, event))
  {
    hide Next, TriedBy, Interleaving.Similar, Exec, After;
    TriedAlike(v, w, event);
    NextTries(v, event);
    NextTries(w, event);
    if TriedBy(v, event).Some? {
      Interleaving.ExecSimilar(v.store, w.store, TriedBy(v, event).value);
    }
    if event.Attempt? && TriedBy(v, event).Some? {
      AttemptAlike(v, w, event);
    } else if event.Attempt? {
      UntriedAttempt(v, event);
      UntriedAttempt(w, event);
    } else {
      OtherAlike(v, w, event);
    }
  }

  lemma UntriedAttempt(w: World, event: Event)
    requires event.Attempt? && TriedBy(w, event).None?
    ensures Next(w, event) == w
  {
    hide RequestOf;
  }

  lemma AlikeStore(v: World, w: World, store: Store)
    requires WorldsAlike(v, w) && Interleaving.Similar(store, v.store)
    ensures WorldsAlike(v.(store := store), w)
  {
    Interleaving.SimilarTransitive(store, v.store, w.store);
  }

  // ---- Flights ----------------------------------------------------------------------------------

  /** Transactions in flight hold different keys, none of them committed. */
  ghost predicate KeysApart(sys: Interleaving.Sys)
  {
    && (forall id :: id in sys.txns ==> KeyOf(sys.txns[id].r) !in sys.store.keys)
    && (forall id, other :: id in sys.txns && other in sys.txns && id != other ==>
          KeyOf(sys.txns[id].r) != KeyOf(sys.txns[other].r))
  }

  lemma BeginKeepsApart(sys: Interleaving.Sys, id: nat, r: Request)
    requires KeysApart(sys)
    ensures KeysApart(Interleaving.Next(sys, Interleaving.Begin(id, r)))
  {
    hide KeyOf;
  }

  /** The transactions a step leaves in flight, and the keys it commits. */
  lemma StepTxns(sys: Interleaving.Sys, step: Interleaving.Step)
    requires !step.Begin?
    ensures var next := Interleaving.Next(sys, step);
            && (forall id :: id in next.txns ==> id in sys.txns && next.txns[id].r == sys.txns[id].r)
            && (forall id :: id in next.txns && id != step.id ==> next.txns[id] == sys.txns[id])
            && (Interleaving.CommittedBy(sys, step).Some? ==>
                  step.id in sys.txns && step.id !in next.txns && sys.txns[step.id].Ready?
                  && Interleaving.CommittedBy(sys, step).value == sys.txns[step.id].r
                  && next.store.keys == sys.store.keys + sys.txns[step.id].w.keys)
            && (Interleaving.CommittedBy(sys, step).None? ==> next.store == sys.store)
  {
    hide Load, Plan, Conflicts;
  }

  lemma StepKeepsApart(sys: Interleaving.Sys, step: Interleaving.Step)
    requires Interleaving.SysOk(sys) && KeysApart(sys) && !step.Begin?
    ensures KeysApart(Interleaving.Next(sys, step))
  {
    hide CasesOk, Interleaving.LogsShaped, Interleaving.Tracks, Interleaving.Next, Interleaving.CommittedBy, KeyOf;
    StepTxns(sys, step);
    if Interleaving.CommittedBy(sys, step).Some? {
      CommittedKeys(sys.store, sys.txns[step.id]);
    }
  }

  lemma CommittedKeys(s: Store, t: Txn)
    requires t.Ready? && Interleaving.Tracks(s, t)
    ensures t.w.keys == {KeyOf(t.r)}
  {
    hide Plan, KeyOf;
  }

  /** A request in flight is still the one its event asks for. */
  ghost predicate FlightsOk(o: Overlapped)
  {
    forall id :: id in o.txns ==> id in o.events && Asked(o.world, o.events[id]) == Some(o.txns[id].r)
  }

  /** What an event asks for depends on the executions and passes, and these only go on, but for the pass
      whose own document is processed. */
  lemma AskedKept(w: World, event: Event, e: Event, r: Request)
    requires Asked(w, e) == Some(r)
    requires e.StepPass? && TriedBy(w, event).Some? ==> KeyOf(TriedBy(w, event).value) != KeyOf(r)
    ensures Asked(Next(w, event), e) == Some(r)
  {
    hide Exec, After, AttemptResult, Completed;
    if e.Attempt? {
      hide Next;
      ExecsGrow(w, event);
    } else if e.StepPass? {
      hide RequestOf, KeyOf;
      PassKept(w, event, e, r);
    }
  }

  lemma PassKept(w: World, event: Event, e: Event, r: Request)
    requires e.StepPass? && TriedBy(w, e) == Some(r)
    requires TriedBy(w, event).Some? ==> KeyOf(TriedBy(w, event).value) != KeyOf(r)
    ensures e.pass in w.passes && e.pass in Next(w, event).passes && Next(w, event).passes[e.pass] == w.passes[e.pass]
  {
    hide Exec, After, AttemptResult, Completed, RequestOf;
  }

  lemma AskedIgnoresStore(w: World, store: Store, e: Event)
    ensures Asked(w.(store := store), e) == Asked(w, e)
  {
  }

  /** When a transaction commits, the event it belongs to tries exactly its request. */
  lemma AskedIsTried(w: World, e: Event, r: Request)
    requires Asked(w, e) == Some(r) && Interleaving.CountTracks(w.store, r)
    ensures TriedBy(w, e) == Some(r)
  {
  }

  // ---- Every interleaving is a run --------------------------------------------------------------

  /** What holds between an overlapping run and the run it amounts to. */
  ghost predicate Matches(o: Overlapped, w: World)
  {
    && WorldsAlike(o.world, w) && Interleaving.SysOk(SysOf(o)) && KeysApart(SysOf(o)) && FlightsOk(o)
  }

  lemma MatchesParts(o: Overlapped, w: World)
    requires Matches(o, w)
    ensures WorldsAlike(o.world, w) && Interleaving.SysOk(SysOf(o)) && KeysApart(SysOf(o)) && FlightsOk(o)
  {
  }

  ghost function NextAll(w: World, events: seq<Event>): World
  {
    if events == [] then w else Next(w, events[0])
  }

  /** An event that happens at once and leaves the store alone. */
  lemma QuietMatches(o: Overlapped, w: World, event: Event)
    requires Matches(o, w)
    requires TriedBy(o.world, event).Some? ==>
               Exec(o.world.store, TriedBy(o.world, event).value).Err?
               && !Interleaving.Held(SysOf(o), KeyOf(TriedBy(o.world, event).value))
    ensures Matches(o.(world := Next(o.world, event)), Next(w, event))
  {
    hide Next, TriedBy, Interleaving.SysOk, KeysApart, WorldsAlike, Asked, Exec, After, KeyOf;
    MatchesParts(o, w);
    NextAlike(o.world, w, event);
    NextTries(o.world, event);
    if TriedBy(o.world, event).Some? {
      RefusedChangesNothing(o.world.store, TriedBy(o.world, event).value);
    }
    var next := o.(world := Next(o.world, event));
    assert SysOf(next) == SysOf(o);
    forall id | id in o.txns ensures id in o.events && Asked(next.world, o.events[id]) == Some(o.txns[id].r) {
      AskedKept(o.world, event, o.events[id], o.txns[id].r);
    }
  }

  lemma OpenMatches(o: Overlapped, w: World, id: nat, event: Event)
    requires Matches(o, w) && CanOpen(o, id, event)
    ensures Matches(Step(o, Open(id, event)), NextAll(w, Fires(o, Open(id, event))))
  {
    hide Next, TriedBy, Interleaving.SysOk, KeysApart, WorldsAlike, Asked, Reserve, Exec;
    MatchesParts(o, w);
    var r := Asked(o.world, event).value;
    AskedKey(o.world, event);
    if RefusedAtOnce(o, event) {
      UnreservedFails(o.world.store, r, TriedBy(o.world, event).value);
      QuietMatches(o, w, event);
    } else {
      var step := Interleaving.Begin(id, r);
      assert Interleaving.Next(SysOf(o), step) == SysOf(Step(o, Open(id, event)));
      Interleaving.NextKeepsSys(SysOf(o), step);
      BeginKeepsApart(SysOf(o), id, r);
      hide SysOf;
    }
  }

  lemma AskedKey(w: World, event: Event)
    requires Asked(w, event).Some?
    ensures TriedBy(w, event).Some?
    ensures var r, q := Asked(w, event).value, TriedBy(w, event).value;
            KeyOf(r) == KeyOf(q) && (r.command.Decide? <==> q.command.Decide?)
            && (r.command.Decide? ==> r.command == q.command)
  {
  }

  lemma UnreservedFails(s: Store, r: Request, q: Request)
    requires Reserve(s, r).Err? && KeyOf(r) == KeyOf(q) && (r.command.Decide? <==> q.command.Decide?)
    requires r.command.Decide? ==> r.command == q.command
    ensures Exec(s, q).Err?
  {
    hide Load, Plan;
  }

  /** A commit happens as its event, at once. */
  lemma FinishMatches(o: Overlapped, w: World, step: Interleaving.Step)
    requires Matches(o, w) && !step.Begin? && Finishes(o, step)
    ensures Matches(Step(o, Go(step)), Next(w, o.events[step.id]))
  {
    hide Next, TriedBy, Interleaving.SysOk, KeysApart, WorldsAlike, Asked, Exec, After, Interleaving.Next, KeyOf,
      Interleaving.CommittedBy, Interleaving.Similar, FlightsOk;
    MatchesParts(o, w);
    var sys, event := SysOf(o), o.events[step.id];
    var after := Interleaving.Next(sys, step);
    StepTxns(sys, step);
    var r := o.txns[step.id].r;
    assert Asked(o.world, event) == Some(r) by { FlightOf(o, step.id); }
    assert Interleaving.CountTracks(o.world.store, r) by { ReadyCounts(sys, step.id); }
    AskedIsTried(o.world, event, r);
    NextTries(o.world, event);
    Interleaving.StepIsSerial(sys, step);
    NextAlike(o.world, w, event);
    AlikeStore(Next(o.world, event), Next(w, event), after.store);
    Interleaving.NextKeepsSys(sys, step);
    StepKeepsApart(sys, step);
    var next := Step(o, Go(step));
    assert SysOf(next) == after;
    forall id | id in next.txns ensures id in next.events && Asked(next.world, next.events[id]) == Some(next.txns[id].r) {
      FlightOf(o, id);
      OthersApart(sys, id, step.id);
      AskedKept(o.world, event, o.events[id], o.txns[id].r);
      AskedIgnoresStore(Next(o.world, event), after.store, o.events[id]);
    }
    assert FlightsOk(next) by { MakeFlights(next); }
  }

  lemma MakeFlights(o: Overlapped)
    requires forall id :: id in o.txns ==> id in o.events && Asked(o.world, o.events[id]) == Some(o.txns[id].r)
    ensures FlightsOk(o)
  {
  }

  lemma FlightOf(o: Overlapped, id: nat)
    requires FlightsOk(o) && id in o.txns
    ensures id in o.events && Asked(o.world, o.events[id]) == Some(o.txns[id].r)
  {
  }

  lemma OthersApart(sys: Interleaving.Sys, id: nat, other: nat)
    requires KeysApart(sys) && id in sys.txns && other in sys.txns && id != other
    ensures KeyOf(sys.txns[id].r) != KeyOf(sys.txns[other].r)
  {
    hide KeyOf;
  }

  lemma ReadyCounts(sys: Interleaving.Sys, id: nat)
    requires Interleaving.SysOk(sys) && id in sys.txns && sys.txns[id].Ready?
    ensures Interleaving.CountTracks(sys.store, sys.txns[id].r)
  {
    hide CasesOk, Interleaving.LogsShaped, Interleaving.PlanTracks, Interleaving.RowTracks;
    assert Interleaving.Tracks(sys.store, sys.txns[id]);
  }

  /** A step that commits nothing leaves the world alone. */
  lemma PassingMatches(o: Overlapped, w: World, step: Interleaving.Step)
    requires Matches(o, w) && !step.Begin? && !Finishes(o, step)
    ensures Matches(Step(o, Go(step)), w)
  {
    hide Interleaving.SysOk, KeysApart, WorldsAlike, Asked, Interleaving.Next, Interleaving.CommittedBy;
    MatchesParts(o, w);
    StepTxns(SysOf(o), step);
    Interleaving.NextKeepsSys(SysOf(o), step);
    StepKeepsApart(SysOf(o), step);
    assert Interleaving.Next(SysOf(o), step) == SysOf(Step(o, Go(step)));
  }

  lemma StepMatches(o: Overlapped, w: World, move: Move)
    requires Matches(o, w)
    ensures Matches(Step(o, move), NextAll(w, Fires(o, move)))
  {
    hide Matches, Next, TriedBy, Interleaving.Next, Interleaving.CommittedBy, Asked, CanOpen, RefusedAtOnce, Finishes;
    match move
    case Instant(event) =>
      if TriedBy(o.world, event).None? {
        QuietMatches(o, w, event);
      }
    case Open(id, event) =>
      if CanOpen(o, id, event) {
        OpenMatches(o, w, id, event);
      }
    case Go(step) =>
      if !step.Begin? {
        if Finishes(o, step) {
          FinishMatches(o, w, step);
        } else {
          PassingMatches(o, w, step);
        }
      }
  }

  lemma RunOfFired(events: seq<Event>, fired: seq<Event>)
    requires |fired| <= 1
    ensures RunWorld(events + fired) == NextAll(RunWorld(events), fired)
  {
    if fired == [] {
      assert events + fired == events;
    } else {
      assert (events + fired)[..|events + fired| - 1] == events;
    }
  }

  /** However the transactions of clients and activities overlap, and whatever signals and timers come in
      between, the world is the one of a run in which each transaction happens at once, when it commits:
      in every table but the audit log, in every execution, pass, result and signal. */
  lemma {:induction false} OverlapIsARun(moves: seq<Move>)
    ensures Matches(RunOver(moves), RunWorld(Projected(moves)))
    ensures WorldsAlike(RunOver(moves).world, RunWorld(Projected(moves)))
  {
    if moves == [] {
      assert Matches(RunOver([]), RunWorld([])) by { NothingInFlight(); }
    } else {
      var front, last := moves[..|moves| - 1], moves[|moves| - 1];
      hide Matches, Step, Fires, Next, WorldsAlike;
      OverlapIsARun(front);
      StepMatches(RunOver(front), RunWorld(Projected(front)), last);
      assert |Fires(RunOver(front), last)| <= 1 by { FiresOnce(RunOver(front), last); }
      RunOfFired(Projected(front), Fires(RunOver(front), last));
    }
    MatchesParts(RunOver(moves), RunWorld(Projected(moves)));
  }

  lemma FiresOnce(o: Overlapped, move: Move)
    ensures |Fires(o, move)| <= 1
  {
  }

  lemma NothingInFlight()
    ensures Matches(RunOver([]), RunWorld([]))
  {
    EmptyStoreOk();
  }

  // ---- Refusals ---------------------------------------------------------------------------------

  /** The error a step of a transaction raises, if it raises one. */
  function Raises(sys: Interleaving.Sys, step: Interleaving.Step): Option<Error>
  {
    if step.Begin? || step.id !in sys.txns then None
    else
      var t := sys.txns[step.id];
      match step
      case LoadRow(_) => if t.Begun? && Load(sys.store, t.r).Err? then Some(Load(sys.store, t.r).error) else None
      case PlanWrites(_) =>
        if t.Loaded? && Interleaving.CanPlan(t.r, t.row) && Interleaving.CountsDocuments(sys.store, t.r)
           && Plan(t.r, t.row, QueueOf(sys.store, t.r.app)).Err?
        then Some(Plan(t.r, t.row, QueueOf(sys.store, t.r.app)).error)
        else None
      case Commit(_) => if t.Ready? && Conflicts(sys.store, Recorded(t.w, t.seen)) then Some(IntegrityViolation) else None
      case _ => None
  }

  /** An attempt in flight holds the row that is in the table now, and has recorded its events against a
      checkpoint. */
  ghost predicate AttemptFresh(o: Overlapped, id: nat)
    requires id in o.txns && id in o.events
  {
    var t := o.txns[id];
    o.events[id].Attempt? ==>
      && (!t.Begun? ==> t.r.app in o.world.store.cases && t.row == Some(o.world.store.cases[t.r.app].row))
      && (t.Ready? ==> t.seen.Some?)
  }

  ghost predicate AttemptsFresh(o: Overlapped)
  {
    forall id :: id in o.txns && id in o.events ==> AttemptFresh(o, id)
  }

  /** While an activity has not committed, its case's row stands still under every other transaction. */
  lemma RowStands(w: World, event: Event, r: Request, wf: WorkflowId, index: nat)
    requires BaseOk(w) && TriedBy(w, event) == Some(r)
    requires wf in w.execs && index < |w.execs[wf].scheduled| && !w.execs[wf].scheduled[index].ExtractFacts?
    requires !Committed(w.store, wf, w.execs[wf], index)
    requires KeyOf(r) != KeyAt(wf, index, w.execs[wf].scheduled[index])
    ensures wf.app in w.store.cases && wf.app in After(w.store, r).cases
    ensures After(w.store, r).cases[wf.app].row == w.store.cases[wf.app].row
  {
    hide BaseOk, After, Exec, TriedBy, RequestOf, ExecFits, SameFor, KeyOf, KeyAt, StatusFits;
    var e := w.execs[wf];
    FitOf(w, wf);
    KnownCases(w, wf);
    hide StoreOk, AllCoupled, KeysOwned, ExecsFit;
    SettledAttempt(w.store, wf, e, index);
    if event.Attempt? && event.wf == wf {
      AttemptTried(w, event, r);
      RequestKey(w.store, wf, event.index, e.scheduled[event.index], event.inputs);
      if Committed(w.store, wf, e, event.index) {
        TakenKeyChangesNothing(w.store, r);
      } else {
        SettledAttempt(w.store, wf, e, event.index);
        assert false;
      }
    } else {
      TriedKeeps(w, event, r, wf);
      SameForRow(w.store, After(w.store, r), wf);
    }
  }

  lemma SameForRow(s: Store, after: Store, wf: WorkflowId)
    requires SameFor(s, after, wf) && Owns(s, wf)
    ensures wf.app in after.cases && after.cases[wf.app].row == s.cases[wf.app].row
  {
    hide KeyAt;
  }

  /** What an attempt in flight belongs to: an activity of a known case that has not committed. */
  lemma AttemptInFlight(o: Overlapped, w: World, id: nat)
    requires Matches(o, w) && BaseOk(w) && id in o.txns && id in o.events && o.events[id].Attempt?
    ensures var e, r := o.events[id], o.txns[id].r;
            && e.wf in w.execs && e.index < |w.execs[e.wf].scheduled| && !w.execs[e.wf].scheduled[e.index].ExtractFacts?
            && KeyOf(r) == KeyAt(e.wf, e.index, w.execs[e.wf].scheduled[e.index])
            && KeyOf(r) !in o.world.store.keys
            && !Committed(w.store, e.wf, w.execs[e.wf], e.index)
            && CaseKnown(w.store, e.wf) && r.app == e.wf.app && r.tenant == e.wf.tenant
            && AttemptOf(w.execs[e.wf].scheduled[e.index], r.command)
            && LogOf(o.world.store, r.tenant).checkpoint.Some?
            && o.world.store.cases == w.store.cases
  {
    hide BaseOk, Asked, TriedBy, RequestOf, ExecFits, Interleaving.SysOk, KeyOf, KeyAt, CaseKnown;
    MatchesParts(o, w);
    var e, r := o.events[id], o.txns[id].r;
    FlightOf(o, id);
    AskedAttempt(o.world, e, r);
    FitOf(w, e.wf);
    KnownCases(w, e.wf);
    SimilarReads(o.world.store, w.store, e.wf.app);
    assert LogOf(w.store, e.wf.tenant).checkpoint.Some? by { CaseFacts(w.store, e.wf); }
  }

  lemma AskedAttempt(w: World, e: Event, r: Request)
    requires e.Attempt? && Asked(w, e) == Some(r)
    ensures e.wf in w.execs && e.index < |w.execs[e.wf].scheduled| && !w.execs[e.wf].scheduled[e.index].ExtractFacts?
    ensures var a := w.execs[e.wf].scheduled[e.index];
            && KeyOf(r) == KeyAt(e.wf, e.index, a)
            && r.app == e.wf.app && r.tenant == e.wf.tenant && AttemptOf(a, r.command)
  {
  }

  lemma FreshOf(o: Overlapped, id: nat)
    requires AttemptsFresh(o) && id in o.txns && id in o.events
    ensures AttemptFresh(o, id)
  {
  }

  lemma SameStoreFresh(o: Overlapped, next: Overlapped, id: nat)
    requires id in o.txns && id in o.events && id in next.txns && id in next.events
    requires next.txns[id] == o.txns[id] && next.events[id] == o.events[id]
    requires next.world.store.cases == o.world.store.cases && AttemptFresh(o, id)
    ensures AttemptFresh(next, id)
  {
  }

  /** What a transaction's own step does to the row it holds and the checkpoint it has seen. */
  lemma OwnStep(sys: Interleaving.Sys, step: Interleaving.Step)
    requires !step.Begin? && step.id in sys.txns && step.id in Interleaving.Next(sys, step).txns
    ensures var t, u := sys.txns[step.id], Interleaving.Next(sys, step).txns[step.id];
            && (!u.Begun? ==> if t.Begun? then Load(sys.store, t.r) == Ok(u.row) else u.row == t.row)
            && (u.Ready? ==> u.seen == if t.Ready? then t.seen else LatestHash(LogOf(sys.store, t.r.tenant)))
  {
    hide Load, Plan, Conflicts, Apply, Recorded;
  }

  lemma AttemptLoads(s: Store, a: Activity, r: Request, row: Option<AppRow>)
    requires AttemptOf(a, r.command) && Load(s, r) == Ok(row)
    ensures r.app in s.cases && row == Some(s.cases[r.app].row)
  {
  }

  lemma PassingFresh(o: Overlapped, w: World, step: Interleaving.Step)
    requires Matches(o, w) && BaseOk(w) && AttemptsFresh(o) && !step.Begin? && !Finishes(o, step)
    ensures AttemptsFresh(Step(o, Go(step)))
  {
    hide Matches, BaseOk, AttemptFresh, AttemptsFresh, Interleaving.Next, Interleaving.CommittedBy, KeyOf, KeyAt, Load;
    var next := Step(o, Go(step));
    StepTxns(SysOf(o), step);
    assert next.world.store == o.world.store;
    forall id | id in next.txns && id in next.events ensures AttemptFresh(next, id) {
      FreshOf(o, id);
      if id == step.id {
        OwnStep(SysOf(o), step);
        if o.events[id].Attempt? {
          AttemptInFlight(o, w, id);
          OwnFresh(o, w, next, id);
        }
        NoAttemptIsFresh(next, id);
      } else {
        SameStoreFresh(o, next, id);
      }
    }
    AllFresh(next);
  }

  lemma NoAttemptIsFresh(o: Overlapped, id: nat)
    requires id in o.txns && id in o.events
    ensures !o.events[id].Attempt? ==> AttemptFresh(o, id)
  {
  }

  lemma AllFresh(o: Overlapped)
    requires forall id :: id in o.txns && id in o.events ==> AttemptFresh(o, id)
    ensures AttemptsFresh(o)
  {
  }

  lemma OwnFresh(o: Overlapped, w: World, next: Overlapped, id: nat)
    requires id in o.txns && id in o.events && o.events[id].Attempt? && AttemptFresh(o, id)
    requires id in next.txns && next.events == o.events && next.world.store == o.world.store
    requires var e := o.events[id];
             && e.wf in w.execs && e.index < |w.execs[e.wf].scheduled|
             && AttemptOf(w.execs[e.wf].scheduled[e.index], o.txns[id].r.command)
    requires LogOf(o.world.store, o.txns[id].r.tenant).checkpoint.Some?
    requires next.txns[id].r == o.txns[id].r
    requires var t, u := o.txns[id], next.txns[id];
             && (!u.Begun? ==> if t.Begun? then Load(o.world.store, t.r) == Ok(u.row) else u.row == t.row)
             && (u.Ready? ==> u.seen == if t.Ready? then t.seen else LatestHash(LogOf(o.world.store, t.r.tenant)))
    ensures AttemptFresh(next, id)
  {
    hide Load, AttemptOf;
    var t, u, e := o.txns[id], next.txns[id], o.events[id];
    if !u.Begun? && t.Begun? {
      AttemptLoads(o.world.store, w.execs[e.wf].scheduled[e.index], t.r, u.row);
    }
  }

  lemma FinishFresh(o: Overlapped, w: World, step: Interleaving.Step)
    requires Matches(o, w) && BaseOk(w) && AttemptsFresh(o) && !step.Begin? && Finishes(o, step)
    ensures AttemptsFresh(Step(o, Go(step)))
  {
    hide Matches, BaseOk, AttemptFresh, AttemptsFresh, Interleaving.Next, Interleaving.CommittedBy, KeyOf, KeyAt, Next, After,
      Exec, TriedBy, Asked, Interleaving.Similar, WorldsAlike, CaseKnown, AttemptOf;
    MatchesParts(o, w);
    var sys, event := SysOf(o), o.events[step.id];
    StepTxns(sys, step);
    var r := o.txns[step.id].r;
    assert Asked(o.world, event) == Some(r) by { FlightOf(o, step.id); }
    assert Interleaving.CountTracks(o.world.store, r) by { ReadyCounts(sys, step.id); }
    AskedIsTried(o.world, event, r);
    TriedAlike(o.world, w, event);
    Interleaving.StepIsSerial(sys, step);
    SimilarReads(Interleaving.Next(sys, step).store, After(o.world.store, r), "");
    assert Interleaving.Similar(o.world.store, w.store) by { AlikeParts(o.world, w); }
    Interleaving.ExecSimilar(o.world.store, w.store, r);
    SimilarReads(After(o.world.store, r), After(w.store, r), "");
    var next := Step(o, Go(step));
    forall id | id in next.txns && id in next.events ensures AttemptFresh(next, id) {
      FreshOf(o, id);
      if o.events[id].Attempt? {
        var e := o.events[id];
        AttemptInFlight(o, w, id);
        OthersApart(sys, id, step.id);
        RowStands(w, event, r, e.wf, e.index);
        RowStillFresh(o, next, id);
      }
      NoAttemptIsFresh(next, id);
    }
    AllFresh(next);
  }

  lemma AlikeParts(v: World, w: World)
    requires WorldsAlike(v, w)
    ensures Interleaving.Similar(v.store, w.store)
  {
    hide Interleaving.Similar;
  }

  lemma RowStillFresh(o: Overlapped, next: Overlapped, id: nat)
    requires id in o.txns && id in o.events && AttemptFresh(o, id)
    requires id in next.txns && next.txns[id] == o.txns[id] && next.events == o.events
    requires o.txns[id].r.app in o.world.store.cases && o.txns[id].r.app in next.world.store.cases
    requires next.world.store.cases[o.txns[id].r.app].row == o.world.store.cases[o.txns[id].r.app].row
    ensures AttemptFresh(next, id)
  {
  }

  lemma OpenFresh(o: Overlapped, id: nat, event: Event)
    requires AttemptsFresh(o) && CanOpen(o, id, event)
    ensures AttemptsFresh(Step(o, Open(id, event)))
  {
    hide Next, TriedBy, Asked, Reserve, Exec, AttemptFresh, AttemptsFresh, KeyOf;
    var next := Step(o, Open(id, event));
    AskedKey(o.world, event);
    NextTries(o.world, event);
    if RefusedAtOnce(o, event) {
      UnreservedFails(o.world.store, Asked(o.world, event).value, TriedBy(o.world, event).value);
      RefusedChangesNothing(o.world.store, TriedBy(o.world, event).value);
    }
    forall other | other in next.txns && other in next.events ensures AttemptFresh(next, other) {
      if other in o.txns {
        StillFresh(o, next, other);
      } else {
        BegunIsFresh(next, other);
      }
    }
    AllFresh(next);
  }

  lemma StillFresh(o: Overlapped, next: Overlapped, id: nat)
    requires AttemptsFresh(o) && id in o.txns && id in next.txns && id in next.events
    requires id in o.events && next.txns[id] == o.txns[id] && next.events[id] == o.events[id]
    requires next.world.store == o.world.store
    ensures AttemptFresh(next, id)
  {
    FreshOf(o, id);
    SameStoreFresh(o, next, id);
  }

  lemma BegunIsFresh(o: Overlapped, id: nat)
    requires id in o.txns && id in o.events && o.txns[id].Begun?
    ensures AttemptFresh(o, id)
  {
  }

  lemma StepFresh(o: Overlapped, w: World, move: Move)
    requires Matches(o, w) && BaseOk(w) && AttemptsFresh(o)
    ensures AttemptsFresh(Step(o, move))
  {
    hide Matches, BaseOk, AttemptsFresh, Next, TriedBy, Interleaving.Next, Interleaving.CommittedBy, Asked, CanOpen,
      RefusedAtOnce, Finishes;
    match move
    case Instant(event) =>
      NextTries(o.world, event);
      SameCasesFresh(o, Step(o, move));
    case Open(id, event) =>
      if CanOpen(o, id, event) {
        OpenFresh(o, id, event);
      }
    case Go(step) =>
      if !step.Begin? {
        if Finishes(o, step) {
          FinishFresh(o, w, step);
        } else {
          PassingFresh(o, w, step);
        }
      }
  }

  lemma SameCasesFresh(o: Overlapped, next: Overlapped)
    requires AttemptsFresh(o) && next.txns == o.txns && next.events == o.events && next.world.store == o.world.store
    ensures AttemptsFresh(next)
  {
    hide AttemptFresh;
    forall id | id in next.txns && id in next.events ensures AttemptFresh(next, id) {
      FreshOf(o, id);
      SameStoreFresh(o, next, id);
    }
  }

  lemma {:induction false} EveryAttemptIsFresh(moves: seq<Move>)
    ensures AttemptsFresh(RunOver(moves))
  {
    if moves != [] {
      var front, last := moves[..|moves| - 1], moves[|moves| - 1];
      hide Matches, BaseOk, AttemptsFresh, Step;
      EveryAttemptIsFresh(front);
      OverlapIsARun(front);
      EveryRunIsBaseOk(Projected(front));
      StepFresh(RunOver(front), RunWorld(Projected(front)), last);
    }
  }

  /** A fresh attempt that raises would be refused the same way if its command ran alone now. */
  lemma RaisedIsExec(s: Store, a: Activity, t: Txn, step: Interleaving.Step, e: Error)
    requires CasesOk(s) && Interleaving.LogsShaped(s) && Interleaving.Tracks(s, t)
    requires AttemptOf(a, t.r.command) && KeyOf(t.r) !in s.keys
    requires t.r.app in s.cases && s.cases[t.r.app].row.tenant == t.r.tenant
    requires !t.Begun? ==> t.row == Some(s.cases[t.r.app].row)
    requires t.Ready? ==> t.seen.Some? && LogOf(s, t.r.tenant).checkpoint.Some?
    requires Raises(Interleaving.Sys(s, map[step.id := t]), step) == Some(e)
    requires !step.Begin?
    ensures Exec(s, t.r) == Err(e)
  {
    hide CasesOk, Interleaving.LogsShaped, KeyOf;
    var r := t.r;
    assert Reserve(s, r).Ok?;
    assert Load(s, r) == Ok(Some(s.cases[r.app].row));
    match step
    case LoadRow(_) => assert false;
    case PlanWrites(_) => hide Plan;
    case Commit(_) =>
      assert Plan(r, t.row, QueueOf(s, r.app)) == Ok(t.w) && t.w.tenant == r.tenant by { hide Plan, Conflicts; }
      hide Plan;
      SeenDoesNotMatter(s, t.w, t.seen);
    case _ => assert false;
  }

  /** A transaction that has seen a checkpoint meets the same constraints as one that sees the latest. */
  lemma SeenDoesNotMatter(s: Store, w: Writes, seen: Option<Hash>)
    requires seen.Some? && LogOf(s, w.tenant).checkpoint.Some?
    ensures Conflicts(s, Recorded(w, seen)) <==> Conflicts(s, Recorded(w, LatestHash(LogOf(s, w.tenant))))
  {
    hide BatchRows;
    var a, b := Recorded(w, seen), Recorded(w, LatestHash(LogOf(s, w.tenant)));
    assert a.keys == b.keys && a.row == b.row && a.snapshots == b.snapshots && a.queue == b.queue;
    assert a.checkpointInserts == b.checkpointInserts;
  }

  /** A gate that raises has a count its case has had. */
  lemma RaisedCounts(sys: Interleaving.Sys, step: Interleaving.Step, a: Activity)
    requires Interleaving.SysOk(sys) && Raises(sys, step).Some?
    requires step.id in sys.txns && AttemptOf(a, sys.txns[step.id].r.command)
    requires sys.txns[step.id].r.app in sys.store.cases
    requires sys.store.cases[sys.txns[step.id].r.app].row.tenant == sys.txns[step.id].r.tenant
    ensures Interleaving.CountTracks(sys.store, sys.txns[step.id].r)
  {
    hide CasesOk, Interleaving.LogsShaped, Interleaving.PlanTracks, Interleaving.RowTracks, Plan, Conflicts;
    if step.Commit? {
      ReadyCounts(sys, step.id);
    }
  }

  lemma RaisesOne(sys: Interleaving.Sys, step: Interleaving.Step)
    requires !step.Begin? && step.id in sys.txns
    ensures Raises(sys, step) == Raises(Interleaving.Sys(sys.store, map[step.id := sys.txns[step.id]]), step)
  {
    hide Load, Plan, Conflicts;
  }

  lemma SysParts(sys: Interleaving.Sys, id: nat)
    requires Interleaving.SysOk(sys) && id in sys.txns
    ensures CasesOk(sys.store) && Interleaving.LogsShaped(sys.store) && Interleaving.Tracks(sys.store, sys.txns[id])
  {
    hide CasesOk, Interleaving.LogsShaped, Interleaving.Tracks;
  }

  /** The errors of attempts in flight: whatever overlaps, when the transaction of an attempt raises an
      error, at its load, its plan or its commit, the same command run alone at that moment, in the run
      the whole amounts to, is refused with the same error, and that is not an illegal transition, a
      missing case or entry, or a lost race: only a product gone from the catalog, a case with an old
      queue entry, or a signalled decision that is no outcome. */
  lemma OverlappingRefusals(moves: seq<Move>, step: Interleaving.Step, e: Error)
    requires Raises(SysOf(RunOver(moves)), step) == Some(e)
    requires !step.Begin? && step.id in RunOver(moves).txns
    requires step.id in RunOver(moves).events && RunOver(moves).events[step.id].Attempt?
    ensures var o, w := RunOver(moves), RunWorld(Projected(moves));
            var event := o.events[step.id];
            && event.wf in w.execs && event.index < |w.execs[event.wf].scheduled|
            && TriedBy(w, event) == Some(o.txns[step.id].r)
            && Exec(w.store, o.txns[step.id].r) == Err(e)
            && Excused(e, w.execs[event.wf].scheduled[event.index], QueueOf(o.world.store, event.wf.app))
  {
    hide Matches, BaseOk, AttemptsFresh, Raises, Exec, TriedBy, Asked, RunOver, RunWorld, KeyOf, KeyAt, Interleaving.SysOk,
      WorldsAlike, Interleaving.Similar, AttemptOf, CaseKnown, RequestOf, KeysApart, FlightsOk, AttemptFresh, Excused,
      CasesOk, Interleaving.LogsShaped, Interleaving.Tracks;
    var o, w := RunOver(moves), RunWorld(Projected(moves));
    var id, event := step.id, o.events[step.id];
    OverlapIsARun(moves);
    EveryAttemptIsFresh(moves);
    EveryRunIsBaseOk(Projected(moves));
    MatchesParts(o, w);
    AttemptInFlight(o, w, id);
    KnownRow(w.store, event.wf);
    FlightOf(o, id);
    var r, a := o.txns[id].r, w.execs[event.wf].scheduled[event.index];
    RaisedCounts(SysOf(o), step, a);
    AskedIsTried(o.world, event, r);
    TriedAlike(o.world, w, event);
    AttemptTried(w, event, r);
    AttemptRaises(o, step, a, e);
    AlikeParts(o.world, w);
    Interleaving.ExecSimilar(o.world.store, w.store, r);
    NoAttemptIsIllegal(Projected(moves), event.wf, event.index, event.inputs);
    SimilarReads(o.world.store, w.store, event.wf.app);
    FreshIsNoDuplicate(w.store, r);
  }

  lemma AttemptRaises(o: Overlapped, step: Interleaving.Step, a: Activity, e: Error)
    requires Interleaving.SysOk(SysOf(o)) && !step.Begin? && step.id in o.txns && step.id in o.events
    requires AttemptsFresh(o) && o.events[step.id].Attempt? && Raises(SysOf(o), step) == Some(e)
    requires AttemptOf(a, o.txns[step.id].r.command) && KeyOf(o.txns[step.id].r) !in o.world.store.keys
    requires var s, r := o.world.store, o.txns[step.id].r;
             r.app in s.cases && s.cases[r.app].row.tenant == r.tenant && LogOf(s, r.tenant).checkpoint.Some?
    ensures Exec(o.world.store, o.txns[step.id].r) == Err(e)
  {
    hide Raises, Exec, KeyOf, Interleaving.SysOk, AttemptOf, CasesOk, Interleaving.LogsShaped, Interleaving.Tracks;
    FreshOf(o, step.id);
    SysParts(SysOf(o), step.id);
    RaisesOne(SysOf(o), step);
    RaisedIsExec(o.world.store, a, o.txns[step.id], step, e);
  }
}
