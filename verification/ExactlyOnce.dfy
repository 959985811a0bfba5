/** Idempotency keys over whole runs: every key is spent at most once, and what was refused might as
    well never have been sent. */
module ExactlyOnce {
  import opened Prelude
  import opened Applications
  import opened Audit
  import opened Store
  import opened StoreInvariants
  import opened Coupling

  /** The requests of a run that committed, in order. */
  ghost function Effective(requests: seq<Request>): seq<Request>
  {
    if requests == [] then []
    else
      var front, last := requests[..|requests| - 1], requests[|requests| - 1];
      Effective(front) + if Exec(RunAll(front), last).Ok? then [last] else []
  }

  /** Retries are invisible: a run with all its duplicates and failed attempts leaves the store the
      committed requests alone would have left, down to every id, hash and timestamp. */
  lemma {:induction false} RetriesAreInvisible(requests: seq<Request>)
    ensures RunAll(Effective(requests)) == RunAll(requests)
  {
    if requests != [] {
      var front, last := requests[..|requests| - 1], requests[|requests| - 1];
      RetriesAreInvisible(front);
      hide Exec;
      if Exec(RunAll(front), last).Ok? {
        assert Effective(requests)[..|Effective(requests)| - 1] == Effective(front);
      } else {
        assert Effective(requests) == Effective(front);
      }
    }
  }

  lemma KeysSpent(s: Store, r: Request)
    requires StoreOk(s)
    ensures Exec(s, r).Ok? ==> KeyOf(r) !in s.keys
    ensures After(s, r).keys == if Exec(s, r).Ok? then s.keys + {KeyOf(r)} else s.keys
  {
    hide StoreOk, HistoryOk, OutboxOk, TenantAuditOk, KeyOf, ScriptOf, Prepare;
    assert HistoriesOk(s) && AuditOk(s) by { StoreOkParts(s); }
    if MovesCase(r.command) {
      MoveExact(s, r);
    } else if r.command.Create? {
      CreateExact(s, r);
    } else {
      QuietExact(s, r);
    }
  }

  /** The keys a run has reserved are those of its committed requests, each of them reserved once. */
  lemma {:induction false} EachKeyCommitsOnce(requests: seq<Request>)
    ensures forall k :: k in RunAll(requests).keys <==>
              exists i :: 0 <= i < |Effective(requests)| && KeyOf(Effective(requests)[i]) == k
    ensures forall i, j :: 0 <= i < j < |Effective(requests)| ==>
              KeyOf(Effective(requests)[i]) != KeyOf(Effective(requests)[j])
  {
    if requests != [] {
      var front, last := requests[..|requests| - 1], requests[|requests| - 1];
      var done := Effective(front);
      EachKeyCommitsOnce(front);
      EveryRunKeepsStore(front);
      KeysSpent(RunAll(front), last);
      hide Exec, KeyOf, StoreOk, After;
      if Exec(RunAll(front), last).Ok? {
        assert Effective(requests) == done + [last];
        forall i, j | 0 <= i < j < |done + [last]| ensures KeyOf((done + [last])[i]) != KeyOf((done + [last])[j]) {
          if j == |done| {
            assert KeyOf(done[i]) in RunAll(front).keys;
          }
        }
        forall k ensures k in RunAll(requests).keys <==> exists i :: 0 <= i < |done + [last]| && KeyOf((done + [last])[i]) == k {
          if k in RunAll(requests).keys {
            if k in RunAll(front).keys {
              var i :| 0 <= i < |done| && KeyOf(done[i]) == k;
              assert KeyOf((done + [last])[i]) == k;
            } else {
              assert KeyOf((done + [last])[|done|]) == k;
            }
          }
          if i :| 0 <= i < |done + [last]| && KeyOf((done + [last])[i]) == k {
            if i < |done| {
              assert KeyOf(done[i]) == k;
            }
          }
        }
      } else {
        assert Effective(requests) == done;
      }
    }
  }

  /** The documents a list of requests extracts for one application, in order. */
  ghost function Extractions(requests: seq<Request>, app: AppId): seq<DocumentId>
  {
    if requests == [] then []
    else
      var front, last := requests[..|requests| - 1], requests[|requests| - 1];
      Extractions(front, app) + if last.app == app && last.command.Extract? then [last.command.document] else []
  }

  lemma RunsRecorded(s: Store, r: Request, app: AppId)
    requires StoreOk(s) && Exec(s, r).Ok?
    ensures FilesOf(After(s, r), app).extractionRuns ==
            FilesOf(s, app).extractionRuns + if r.app == app && r.command.Extract? then [r.command.document] else []
  {
    hide StoreOk, HistoryOk, OutboxOk, TenantAuditOk, KeyOf, ScriptOf, Prepare;
    assert HistoriesOk(s) && AuditOk(s) by { StoreOkParts(s); }
    if MovesCase(r.command) {
      MoveExact(s, r);
    } else if r.command.Create? {
      CreateExact(s, r);
    } else {
      QuietExact(s, r);
    }
  }

  /** The extraction runs stored for a case are exactly its committed extractions. */
  lemma {:induction false} RunsAreExtractions(requests: seq<Request>, app: AppId)
    ensures FilesOf(RunAll(requests), app).extractionRuns == Extractions(Effective(requests), app)
  {
    if requests != [] {
      var front, last := requests[..|requests| - 1], requests[|requests| - 1];
      RunsAreExtractions(front, app);
      EveryRunKeepsStore(front);
      hide Exec, StoreOk;
      if Exec(RunAll(front), last).Ok? {
        RunsRecorded(RunAll(front), last, app);
        assert Effective(requests)[..|Effective(requests)| - 1] == Effective(front);
      } else {
        assert Effective(requests) == Effective(front);
      }
    }
  }
}
