/** The consume-and-commit loop: what a crash between applying messages and committing offsets can and
    cannot lose. */
module Consumer {
  import opened Prelude
  import opened Outbox
  import opened Projection

  /** The messages a poll hands out, partition after partition: `polled[q]` messages of partition `q`
      from its committed offset on. */
  ghost function Polled(logs: seq<seq<Envelope>>, committed: seq<nat>, polled: seq<nat>): seq<Envelope>
    requires Polls(logs, committed, polled)
  {
    if logs == [] then []
    else
      var n := |logs| - 1;
      Polled(logs[..n], committed[..n], polled[..n]) + logs[n][committed[n]..committed[n] + polled[n]]
  }

  ghost predicate Polls(logs: seq<seq<Envelope>>, committed: seq<nat>, polled: seq<nat>)
  {
    && |logs| == |committed| == |polled|
    && forall q :: 0 <= q < |logs| ==> committed[q] + polled[q] <= |logs[q]|
  }

  function Positions(committed: seq<nat>, polled: seq<nat>): (p: seq<nat>)
    requires |committed| == |polled|
    ensures |p| == |committed| && forall q :: 0 <= q < |p| ==> p[q] == committed[q] + polled[q]
  {
    seq(|committed|, q requires 0 <= q < |committed| => committed[q] + polled[q])
  }

  ghost function ApplyAll(m: ReadModel, messages: seq<Envelope>, consumer: string): ReadModel
  {
    if messages == [] then m
    else Applied(ApplyAll(m, messages[..|messages| - 1], consumer), messages[|messages| - 1], consumer)
  }

  // ---- Where a crash comes ----------------------------------------------------------------------

  /** How many messages a poll has applied when it crashes at a slot. A poll of batches has a slot for each
      message and one for the commit after each batch; partitions without messages have none. */
  function AppliedAt(polled: seq<nat>, crashAt: Option<nat>): (n: nat)
    ensures n <= Total(polled)
    ensures crashAt.None? ==> n == Total(polled)
  {
    if polled == [] then 0
    else if polled[0] == 0 then AppliedAt(polled[1..], crashAt)
    else if crashAt.Some? && crashAt.value <= polled[0] then crashAt.value
    else polled[0] + AppliedAt(polled[1..], if crashAt.Some? then Some(crashAt.value - polled[0] - 1) else None)
  }

  function Total(polled: seq<nat>): nat
  {
    if polled == [] then 0 else polled[0] + Total(polled[1..])
  }

  function Batches(polled: seq<nat>): nat
  {
    if polled == [] then 0 else (if polled[0] > 0 then 1 else 0) + Batches(polled[1..])
  }

  /** The size of the first batch that is not empty. */
  function FirstBatch(polled: seq<nat>): nat
  {
    if polled == [] then 0 else if polled[0] > 0 then polled[0] else FirstBatch(polled[1..])
  }

  /** Whether a poll gets past its first commit. */
  predicate CommitsBefore(polled: seq<nat>, crashAt: Option<nat>)
  {
    FirstBatch(polled) > 0 && (crashAt.None? || crashAt.value > FirstBatch(polled))
  }

  lemma {:induction false} SlotsCounted(polled: seq<nat>)
    ensures FirstBatch(polled) <= Total(polled)
    ensures Batches(polled) == 0 <==> FirstBatch(polled) == 0
    ensures Batches(polled) == 0 ==> Total(polled) == 0
    ensures Batches(polled) <= 1 ==> FirstBatch(polled) == Total(polled)
  {
    if polled != [] {
      SlotsCounted(polled[1..]);
    }
  }

  /** A crash leaves messages of the poll unapplied if and only if it comes before the last commit's slot,
      which is the poll's last. */
  lemma {:induction false} AppliesAllIff(polled: seq<nat>, c: nat)
    ensures AppliedAt(polled, Some(c)) == Total(polled) <==> Batches(polled) == 0 || c >= Total(polled) + Batches(polled) - 1
  {
    if polled != [] {
      SlotsCounted(polled[1..]);
      if polled[0] == 0 {
        AppliesAllIff(polled[1..], c);
      } else if c > polled[0] {
        AppliesAllIff(polled[1..], c - polled[0] - 1);
      }
    }
  }

  lemma {:induction false} TotalPolled(logs: seq<seq<Envelope>>, committed: seq<nat>, polled: seq<nat>)
    requires Polls(logs, committed, polled)
    ensures |Polled(logs, committed, polled)| == Total(polled)
  {
    if logs != [] {
      var n := |logs| - 1;
      TotalPolled(logs[..n], committed[..n], polled[..n]);
      TotalSnoc(polled[..n], polled[n]);
      assert polled == polled[..n] + [polled[n]];
    }
  }

  lemma {:induction false} TotalSnoc(polled: seq<nat>, last: nat)
    ensures Total(polled + [last]) == Total(polled) + last
  {
    if polled == [] {
      assert (polled + [last])[1..] == [];
    } else {
      assert (polled + [last])[1..] == polled[1..] + [last];
      TotalSnoc(polled[1..], last);
    }
  }

  lemma PolledPrefix(logs: seq<seq<Envelope>>, committed: seq<nat>, polled: seq<nat>, q: nat)
    requires Polls(logs, committed, polled) && q < |logs|
    ensures Polls(logs[..q], committed[..q], polled[..q]) && Polls(logs[..q + 1], committed[..q + 1], polled[..q + 1])
    ensures Polled(logs[..q + 1], committed[..q + 1], polled[..q + 1])
            == Polled(logs[..q], committed[..q], polled[..q]) + logs[q][committed[q]..committed[q] + polled[q]]
  {
    assert logs[..q + 1][..q] == logs[..q];
    assert committed[..q + 1][..q] == committed[..q];
    assert polled[..q + 1][..q] == polled[..q];
  }

  /** What a poll hands out before partition `q` comes first. */
  lemma {:induction false} PolledRest(logs: seq<seq<Envelope>>, committed: seq<nat>, polled: seq<nat>, q: nat)
    requires Polls(logs, committed, polled) && q <= |logs|
    ensures Polls(logs[..q], committed[..q], polled[..q])
    ensures Polled(logs[..q], committed[..q], polled[..q]) <= Polled(logs, committed, polled)
  {
    if q == |logs| {
      assert logs[..q] == logs && committed[..q] == committed && polled[..q] == polled;
    } else {
      var n := |logs| - 1;
      PolledRest(logs[..n], committed[..n], polled[..n], q);
      assert logs[..n][..q] == logs[..q];
      assert committed[..n][..q] == committed[..q];
      assert polled[..n][..q] == polled[..q];
    }
  }

  /** One partition's batch, up to the message before which the worker dies. */
  method ApplyBatch(db: ProjectionStore, records: seq<Envelope>, consumer: string, crashAt: Option<nat>)
    returns (applied: nat)
    modifies db
    ensures applied == if crashAt.Some? && crashAt.value < |records| then crashAt.value else |records|
    ensures db.Model() == ApplyAll(old(db.Model()), records[..applied], consumer)
  {
    hide Applied;
    applied := 0;
    while applied < |records|
      invariant 0 <= applied <= |records|
      invariant crashAt.Some? && crashAt.value < |records| ==> applied <= crashAt.value
      invariant db.Model() == ApplyAll(old(db.Model()), records[..applied], consumer)
    {
      if crashAt == Some(applied) {
        return;
      }
      var _ := db.ApplyEvent(records[applied], consumer);
      assert records[..applied + 1][..applied] == records[..applied];
      applied := applied + 1;
    }
  }

  lemma {:induction false} ApplyAllConcat(m: ReadModel, a: seq<Envelope>, b: seq<Envelope>, consumer: string)
    ensures ApplyAll(m, a + b, consumer) == ApplyAll(ApplyAll(m, a, consumer), b, consumer)
  {
    hide Applied;
    if b == [] {
      assert a + b == a;
    } else {
      ApplyAllConcat(m, a, b[..|b| - 1], consumer);
      assert (a + b)[..|a + b| - 1] == a + b[..|b| - 1];
    }
  }

  /** One poll: each partition's batch is applied message by message, and then the offsets are
      committed; the commit takes every polled partition's position, not only this one's. A crash may
      come before any message and before any commit. */
  method ConsumePoll(db: ProjectionStore, logs: seq<seq<Envelope>>, committed: seq<nat>, polled: seq<nat>,
                     consumer: string, crashAt: Option<nat>)
    returns (offsets: seq<nat>, ghost processed: nat)
    requires Polls(logs, committed, polled)
    modifies db
    ensures processed == AppliedAt(polled, crashAt) <= |Polled(logs, committed, polled)|
    ensures db.Model() == ApplyAll(old(db.Model()), Polled(logs, committed, polled)[..processed], consumer)
    ensures offsets == if CommitsBefore(polled, crashAt) then Positions(committed, polled) else committed
  {
    hide Applied, ApplyAll, Polled, AppliedAt, FirstBatch, Total;
    ghost var m := db.Model();
    ghost var whole := Polled(logs, committed, polled);
    offsets, processed := committed, 0;
    var crash: Option<nat> := crashAt;
    var q := 0;
    NothingPolled(logs, committed, polled, m, consumer);
    while q < |logs|
      invariant 0 <= q <= |logs|
      invariant processed == Total(polled[..q]) <= |whole|
      invariant db.Model() == ApplyAll(m, whole[..processed], consumer)
      invariant AppliedAt(polled, crashAt) == processed + AppliedAt(polled[q..], crash)
      invariant if processed == 0 then crash == crashAt && offsets == committed && FirstBatch(polled) == FirstBatch(polled[q..])
                else CommitsBefore(polled, crashAt) && offsets == Positions(committed, polled)
    {
      PolledSlice(logs, committed, polled, q);
      BatchTurn(polled, q, crash);
      if polled[q] > 0 {
        var records := logs[q][committed[q]..committed[q] + polled[q]];
        var applied := ApplyBatch(db, records, consumer, crash);
        AppliedSlice(m, whole, processed, records, applied, consumer);
        processed := processed + applied;
        if crash.Some? && crash.value <= |records| {
          return offsets, processed;
        }
        crash := if crash.Some? then Some(crash.value - |records| - 1) else None;
        offsets := Positions(committed, polled);
      }
      q := q + 1;
    }
    assert polled[q..] == [];
    NoBatch(crash);
  }

  lemma NothingPolled(logs: seq<seq<Envelope>>, committed: seq<nat>, polled: seq<nat>, m: ReadModel, consumer: string)
    requires Polls(logs, committed, polled)
    ensures polled[0..] == polled && Total(polled[..0]) == 0
    ensures ApplyAll(m, Polled(logs, committed, polled)[..0], consumer) == m
  {
  }

  /** Where a partition's batch stands in the poll. */
  lemma PolledSlice(logs: seq<seq<Envelope>>, committed: seq<nat>, polled: seq<nat>, q: nat)
    requires Polls(logs, committed, polled) && q < |logs|
    ensures var whole, from := Polled(logs, committed, polled), Total(polled[..q]);
            && Total(polled[..q + 1]) == from + polled[q] <= |whole|
            && whole[from..from + polled[q]] == logs[q][committed[q]..committed[q] + polled[q]]
  {
    PolledPrefix(logs, committed, polled, q);
    PolledRest(logs, committed, polled, q + 1);
    TotalPolled(logs[..q], committed[..q], polled[..q]);
    TotalPolled(logs[..q + 1], committed[..q + 1], polled[..q + 1]);
  }

  lemma AppliedSlice(m: ReadModel, whole: seq<Envelope>, from: nat, records: seq<Envelope>, n: nat, consumer: string)
    requires from + |records| <= |whole| && whole[from..from + |records|] == records && n <= |records|
    ensures ApplyAll(ApplyAll(m, whole[..from], consumer), records[..n], consumer) == ApplyAll(m, whole[..from + n], consumer)
  {
    assert whole[..from] + records[..n] == whole[..from + n];
    ApplyAllConcat(m, whole[..from], records[..n], consumer);
  }

  lemma NoBatch(crash: Option<nat>)
    ensures AppliedAt([], crash) == 0 && FirstBatch([]) == 0
  {
  }

  /** A partition's turn. */
  lemma BatchTurn(polled: seq<nat>, q: nat, crash: Option<nat>)
    requires q < |polled|
    ensures polled[q] == 0 ==> AppliedAt(polled[q..], crash) == AppliedAt(polled[q + 1..], crash)
                               && FirstBatch(polled[q..]) == FirstBatch(polled[q + 1..])
    ensures polled[q] > 0 ==>
      && FirstBatch(polled[q..]) == polled[q]
      && AppliedAt(polled[q..], crash) ==
           if crash.Some? && crash.value <= polled[q] then crash.value
           else polled[q] + AppliedAt(polled[q + 1..], if crash.Some? then Some(crash.value - polled[q] - 1) else None)
  {
    assert polled[q..][1..] == polled[q + 1..];
  }

  // ---- Loss -------------------------------------------------------------------------------------

  /** Every message below a committed offset has been applied. */
  ghost predicate NothingLost(logs: seq<seq<Envelope>>, offsets: seq<nat>, m: ReadModel, consumer: string)
  {
    && |offsets| == |logs|
    && forall q, k :: 0 <= q < |logs| && 0 <= k < offsets[q] ==>
         k < |logs[q]| && Seen(m, logs[q][k].eventId, consumer)
  }

  lemma {:induction false} ApplyAllInbox(m: ReadModel, messages: seq<Envelope>, consumer: string)
    ensures forall id: nat :: Seen(ApplyAll(m, messages, consumer), id, consumer)
              <==> Seen(m, id, consumer) || exists i :: 0 <= i < |messages| && messages[i].eventId == id
  {
    hide Applied, Seen;
    if messages != [] {
      var front, last := messages[..|messages| - 1], messages[|messages| - 1];
      ApplyAllInbox(m, front, consumer);
      AppliedInbox(ApplyAll(m, front, consumer), last, consumer);
      assert messages == front + [last];
      forall id: nat ensures Seen(ApplyAll(m, messages, consumer), id, consumer)
          <==> Seen(m, id, consumer) || exists i :: 0 <= i < |messages| && messages[i].eventId == id {
        if i :| 0 <= i < |front| && front[i].eventId == id {
          assert messages[i].eventId == id;
        }
        if last.eventId == id {
          assert messages[|messages| - 1].eventId == id;
        }
      }
    }
  }

  /** Each polled message is some partition's, beyond its committed offset, and the other way round. */
  lemma {:induction false} PolledAt(logs: seq<seq<Envelope>>, committed: seq<nat>, polled: seq<nat>, q: nat, k: nat)
    requires Polls(logs, committed, polled) && q < |logs| && committed[q] <= k < committed[q] + polled[q]
    ensures exists i :: 0 <= i < |Polled(logs, committed, polled)| && Polled(logs, committed, polled)[i] == logs[q][k]
  {
    var n := |logs| - 1;
    var front := Polled(logs[..n], committed[..n], polled[..n]);
    var whole := Polled(logs, committed, polled);
    if q < n {
      PolledAt(logs[..n], committed[..n], polled[..n], q, k);
      var i :| 0 <= i < |front| && front[i] == logs[q][k];
      assert whole[i] == logs[q][k];
    } else {
      assert whole[|front| + (k - committed[n])] == logs[q][k];
    }
  }

  lemma {:induction false} PolledFrom(logs: seq<seq<Envelope>>, committed: seq<nat>, polled: seq<nat>, i: nat)
    returns (q: nat, k: nat)
    requires Polls(logs, committed, polled) && i < |Polled(logs, committed, polled)|
    ensures q < |logs| && committed[q] <= k < committed[q] + polled[q]
    ensures Polled(logs, committed, polled)[i] == logs[q][k]
  {
    var n := |logs| - 1;
    var front := Polled(logs[..n], committed[..n], polled[..n]);
    if i < |front| {
      q, k := PolledFrom(logs[..n], committed[..n], polled[..n], i);
    } else {
      q, k := n, committed[n] + (i - |front|);
    }
  }

  /** The slots at which a crash loses messages: after the first commit, which takes every partition's
      position, and before the last one. With a single batch in the poll there is none. */
  predicate LosingSlot(polled: seq<nat>, crashAt: Option<nat>)
  {
    crashAt.Some? && FirstBatch(polled) < crashAt.value < Total(polled) + Batches(polled) - 1
  }

  /** What a crash of a poll loses, exactly, told before the poll: when its messages are new and distinct,
      some message below a committed offset has not been applied, if and only if the crash comes in a
      losing slot. Offsets and read model are those `ConsumePoll` leaves. */
  lemma PollLosesIff(logs: seq<seq<Envelope>>, committed: seq<nat>, polled: seq<nat>, m: ReadModel, consumer: string,
                     crashAt: Option<nat>)
    requires Polls(logs, committed, polled)
    requires NothingLost(logs, committed, m, consumer)
    requires forall i, j :: 0 <= i < j < |Polled(logs, committed, polled)| ==>
               Polled(logs, committed, polled)[i].eventId != Polled(logs, committed, polled)[j].eventId
    requires forall i :: 0 <= i < |Polled(logs, committed, polled)| ==>
               !Seen(m, Polled(logs, committed, polled)[i].eventId, consumer)
    ensures Total(polled) == |Polled(logs, committed, polled)|
    ensures var offsets := if CommitsBefore(polled, crashAt) then Positions(committed, polled) else committed;
            var after := ApplyAll(m, Polled(logs, committed, polled)[..AppliedAt(polled, crashAt)], consumer);
            !NothingLost(logs, offsets, after, consumer) <==> LosingSlot(polled, crashAt)
  {
    hide Polled, Applied, ApplyAll, Seen, AppliedAt, NothingLost;
    var processed := AppliedAt(polled, crashAt);
    var offsets := if CommitsBefore(polled, crashAt) then Positions(committed, polled) else committed;
    TotalPolled(logs, committed, polled);
    SlotsCounted(polled);
    if crashAt.Some? {
      AppliesAllIff(polled, crashAt.value);
    }
    if LosingSlot(polled, crashAt) {
      UnappliedIsLost(logs, committed, polled, m, consumer, processed);
    } else {
      assert Polled(logs, committed, polled)[..Total(polled)] == Polled(logs, committed, polled);
      PollKeepsAll(logs, committed, polled, m, consumer, processed, offsets);
    }
  }

  /** A message that has been polled and not applied, below a committed offset. */
  lemma UnappliedIsLost(logs: seq<seq<Envelope>>, committed: seq<nat>, polled: seq<nat>, m: ReadModel, consumer: string,
                        processed: nat)
    requires Polls(logs, committed, polled) && processed < |Polled(logs, committed, polled)|
    requires forall i, j :: 0 <= i < j < |Polled(logs, committed, polled)| ==>
               Polled(logs, committed, polled)[i].eventId != Polled(logs, committed, polled)[j].eventId
    requires forall i :: 0 <= i < |Polled(logs, committed, polled)| ==>
               !Seen(m, Polled(logs, committed, polled)[i].eventId, consumer)
    ensures !NothingLost(logs, Positions(committed, polled),
                         ApplyAll(m, Polled(logs, committed, polled)[..processed], consumer), consumer)
  {
    hide Polled, Applied, ApplyAll, Seen;
    var whole := Polled(logs, committed, polled);
    var after := ApplyAll(m, whole[..processed], consumer);
    ApplyAllInbox(m, whole[..processed], consumer);
    var q, k := PolledFrom(logs, committed, polled, processed);
    assert !Seen(after, whole[processed].eventId, consumer);
    assert k < Positions(committed, polled)[q];
  }

  /** The losing schedule: two partitions with one message each, and a crash right after the first
      commit. The second message has not been applied, and both offsets are past their messages. */
  lemma TwoPartitionsLose(first: Envelope, second: Envelope, m: ReadModel, consumer: string)
    requires first.eventId != second.eventId && !Seen(m, first.eventId, consumer) && !Seen(m, second.eventId, consumer)
    ensures LosingSlot([1, 1], Some(2)) && CommitsBefore([1, 1], Some(2)) && AppliedAt([1, 1], Some(2)) == 1
    ensures Polls([[first], [second]], [0, 0], [1, 1]) && Polled([[first], [second]], [0, 0], [1, 1]) == [first, second]
    ensures NothingLost([[first], [second]], [0, 0], m, consumer)
    ensures !NothingLost([[first], [second]], [1, 1], ApplyAll(m, [first], consumer), consumer)
    ensures !Seen(ApplyAll(m, [first], consumer), second.eventId, consumer)
  {
    hide Applied, Seen;
    var logs, polled := [[first], [second]], [1, 1];
    assert polled[1..] == [1] && polled[1..][1..] == [];
    assert logs[..1] == [[first]] && logs[..1][..0] == [] && [0, 0][..1] == [0] && polled[..1] == [1];
    assert logs[0][0..1] == [first] && logs[1][0..1] == [second];
    assert Polled(logs[..1], [0, 0][..1], polled[..1]) == [first];
    ApplyAllInbox(m, [first], consumer);
    assert 0 < [1, 1][1] && logs[1][0] == second;
  }

  /** A poll that commits nothing, or has applied everything it polled, loses nothing, whatever had
      been delivered before. */
  lemma PollKeepsAll(logs: seq<seq<Envelope>>, committed: seq<nat>, polled: seq<nat>, m: ReadModel, consumer: string,
                     processed: nat, offsets: seq<nat>)
    requires Polls(logs, committed, polled) && processed <= |Polled(logs, committed, polled)|
    requires NothingLost(logs, committed, m, consumer)
    requires offsets == committed || (offsets == Positions(committed, polled) && processed == |Polled(logs, committed, polled)|)
    ensures NothingLost(logs, offsets, ApplyAll(m, Polled(logs, committed, polled)[..processed], consumer), consumer)
  {
    hide Polled, Applied, ApplyAll, Seen;
    var whole := Polled(logs, committed, polled);
    var after := ApplyAll(m, whole[..processed], consumer);
    ApplyAllInbox(m, whole[..processed], consumer);
    forall q, k | 0 <= q < |logs| && 0 <= k < offsets[q]
      ensures k < |logs[q]| && Seen(after, logs[q][k].eventId, consumer)
    {
      if k >= committed[q] {
        PolledAt(logs, committed, polled, q, k);
        assert whole[..processed] == whole;
      } else {
        assert Seen(m, logs[q][k].eventId, consumer);
      }
    }
  }

  /** A single batch has been applied whole once its offset is committed. */
  lemma OneBatch(size: nat, crashAt: Option<nat>)
    ensures CommitsBefore([size], crashAt) ==> AppliedAt([size], crashAt) == Total([size])
    ensures crashAt.None? && size > 0 ==> CommitsBefore([size], crashAt)
  {
    assert [size][1..] == [];
  }

  /** A consumer of one partition, restarted after any number of crashes from the offset it had
      committed: no message below a committed offset is ever lost. */
  method ConsumeOnePartition(db: ProjectionStore, log: seq<Envelope>, consumer: string,
                             sizes: seq<nat>, crashes: seq<Option<nat>>)
    returns (offset: nat)
    requires |sizes| == |crashes|
    modifies db
    ensures offset <= |log|
    ensures forall k :: 0 <= k < offset ==> Seen(db.Model(), log[k].eventId, consumer)
    ensures (forall i :: 0 <= i < |crashes| ==> crashes[i].None? && sizes[i] >= 1) && |crashes| >= |log| ==> offset == |log|
  {
    hide Polled, Applied, ApplyAll, CommitsBefore, AppliedAt;
    offset := 0;
    var i := 0;
    while i < |sizes|
      invariant 0 <= i <= |sizes| && offset <= |log|
      invariant NothingLost([log], [offset], db.Model(), consumer)
      invariant (forall j :: 0 <= j < |crashes| ==> crashes[j].None? && sizes[j] >= 1) ==> offset >= i || offset == |log|
    {
      var size := if offset + sizes[i] <= |log| then sizes[i] else |log| - offset;
      ghost var m := db.Model();
      var offsets, processed := ConsumePoll(db, [log], [offset], [size], consumer, crashes[i]);
      OneBatch(size, crashes[i]);
      TotalPolled([log], [offset], [size]);
      PollKeepsAll([log], [offset], [size], m, consumer, processed, offsets);
      offset := offsets[0];
      i := i + 1;
    }
    assert forall k :: 0 <= k < [offset][0] ==> k < |[log][0]| && Seen(db.Model(), [log][0][k].eventId, consumer);
  }

  // ---- The consumer's own steps -----------------------------------------------------------------

  function Delivers(positions: seq<nat>, consumer: string): seq<PipeStep>
  {
    seq(|positions|, k requires 0 <= k < |positions| => Deliver(positions[k], consumer))
  }

  /** What a consumer applies of the broker's messages is a run of the loop's steps, one delivery each:
      every read model a poll leaves is one the theorems about the loop speak of. */
  lemma {:induction false} ConsumingIsSteps(p: Pipe, messages: seq<Envelope>, positions: seq<nat>, consumer: string)
    requires |positions| == |messages|
    requires forall k :: 0 <= k < |messages| ==> positions[k] < |p.log| && p.log[positions[k]] == messages[k]
    ensures PipeFrom(p, Delivers(positions, consumer)) == p.(model := ApplyAll(p.model, messages, consumer))
  {
    hide Applied;
    if messages != [] {
      var n := |messages| - 1;
      ConsumingIsSteps(p, messages[..n], positions[..n], consumer);
      assert Delivers(positions, consumer) == Delivers(positions[..n], consumer) + [Deliver(positions[n], consumer)];
    }
  }
}
