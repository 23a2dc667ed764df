/** What the relay's cycles do and how long it waits between them, said outright: which rows a cycle takes,
    what it leaves in the table and in the logs, and what wait follows it. */
module RelayAnswers {
  import opened Delivery
  import opened Relay

  predicate Waiting<E>(row: Row<E>) {
    row.state == Visible && !row.published
  }

  /** The oldest rows still to be published, as many as there are up to the limit, in id order. */
  ghost predicate Oldest<E>(rows: seq<Row<E>>, limit: nat, ids: seq<nat>) {
    && Ascending(ids) && |ids| <= limit
    && (forall i :: 0 <= i < |ids| ==> ids[i] < |rows| && Waiting(rows[ids[i]]))
    && forall n: nat :: n < |rows| && Waiting(rows[n]) && n !in ids ==>
         |ids| == limit && forall i :: 0 <= i < |ids| ==> ids[i] < n
  }

  lemma {:induction false} ClaimLeavesNone<E>(rows: seq<Row<E>>, from: nat, limit: nat)
    ensures var ids := ClaimFrom(rows, from, limit);
            && (forall i :: 0 <= i < |ids| ==> ids[i] < |rows| && Waiting(rows[ids[i]]))
            && forall n :: from <= n < |rows| && Waiting(rows[n]) && n !in ids ==>
                 |ids| == limit && forall i :: 0 <= i < |ids| ==> ids[i] < n
    decreases |rows| - from
  {
    if from < |rows| && limit > 0 {
      ClaimLeavesNone(rows, from + 1, if Waiting(rows[from]) then limit - 1 else limit);
    }
  }

  lemma ClaimIsOldest<E>(rows: seq<Row<E>>, limit: nat)
    ensures Oldest(rows, limit, ClaimFrom(rows, 0, limit))
  {
    ClaimAscends(rows, 0, limit);
    ClaimLeavesNone(rows, 0, limit);
  }

  /** Those of some messages that belong in a partition, in the order they are handed over. */
  ghost function Bound<E>(rows: seq<Row<E>>, parts: nat, p: nat, ids: seq<nat>): seq<nat>
    requires parts > 0 && forall i :: 0 <= i < |ids| ==> ids[i] < |rows|
  {
    if ids == [] then []
    else (if rows[ids[0]].key % parts == p then [ids[0]] else []) + Bound(rows, parts, p, ids[1..])
  }

  lemma {:induction false} SendAllAppends<E>(s: State<E>, ids: seq<nat>)
    requires s.batch.Batch? && |s.logs| > 0 && forall i :: 0 <= i < |ids| ==> ids[i] < |s.rows|
    ensures var after := SendAll(s, ids);
            && after == s.(logs := after.logs, batch := after.batch)
            && after.batch.Batch? && after.batch.ids == s.batch.ids && |after.logs| == |s.logs|
            && forall p :: 0 <= p < |s.logs| ==> after.logs[p] == s.logs[p] + Bound(s.rows, |s.logs|, p, ids)
    decreases |ids|
  {
    if ids != [] {
      var next := Next(s, Step.Send(ids[0]));
      SendAllAppends(next, ids[1..]);
      forall p | 0 <= p < |s.logs|
        ensures SendAll(s, ids).logs[p] == s.logs[p] + Bound(s.rows, |s.logs|, p, ids)
      {
        var here := if s.rows[ids[0]].key % |s.logs| == p then [ids[0]] else [];
        assert next.logs[p] == s.logs[p] + here;
      }
    }
  }

  /** What the broker took of a batch is at the end of the logs, whether or not the cycle went through. */
  ghost predicate Handed<E>(s: State<E>, after: State<E>, ids: seq<nat>)
    requires |s.logs| > 0 && forall i :: 0 <= i < |ids| ==> ids[i] < |s.rows|
  {
    && |after.logs| == |s.logs|
    && forall p :: 0 <= p < |s.logs| ==> after.logs[p] == s.logs[p] + Bound(s.rows, |s.logs|, p, ids)
  }

  /** The rows of a batch are marked, and no other; a cycle that breaks marks none. */
  ghost predicate Marked<E>(s: State<E>, after: State<E>, ids: seq<nat>) {
    && |after.rows| == |s.rows|
    && forall n: nat :: n < |s.rows| ==>
         after.rows[n] == if n in ids then s.rows[n].(published := true) else s.rows[n]
  }

  lemma NothingHanded<E>(s: State<E>)
    requires |s.logs| > 0
    ensures Handed(s, s, [])
  {
    assert forall p :: 0 <= p < |s.logs| ==> s.logs[p] == s.logs[p] + Bound(s.rows, |s.logs|, p, []);
  }

  /** A cycle takes the oldest rows waiting. If it works they are all in the logs and marked; if it breaks,
      what the broker had taken of them is in the logs and none is marked; and nothing else changes. */
  lemma CycleDoes<E>(s: State<E>, limit: nat, a: Attempt) returns (ids: seq<nat>)
    requires s.batch.NoBatch? && |s.logs| > 0
    ensures Oldest(s.rows, limit, ids)
    ensures var after := CycleIn(s, limit, a);
            && after == s.(rows := after.rows, logs := after.logs)
            && Handed(s, after, if a.Breaks? && a.taken < |ids| then ids[..a.taken] else ids)
            && Marked(s, after, if a.Works? then ids else [])
    ensures OutcomeOf(s, limit, a) == if a.Works? then Published(|ids|) else Failed
  {
    ids := ClaimFrom(s.rows, 0, limit);
    ClaimIsOldest(s.rows, limit);
    if ids == [] {
      NothingHanded(s);
    } else {
      var claimed := s.(batch := Batch(ids, {}));
      var upTo := if a.Breaks? && a.taken < |ids| then a.taken else |ids|;
      assert ids[..|ids|] == ids;
      SendAllAppends(claimed, ids[..upTo]);
      CycleIs(s, limit, if a.Breaks? then a.taken else |ids|, a.Works?, SendAll(claimed, ids[..upTo]));
    }
  }

  // ---------------------------------------------------------------------------
  // The waits

  /** The last k cycles failed, and the one before them, if there is one, did not. */
  ghost predicate FailedInARow(cycles: seq<Outcome>, k: nat) {
    && k <= |cycles| && (forall i :: |cycles| - k <= i < |cycles| ==> cycles[i].Failed?)
    && (k < |cycles| ==> cycles[|cycles| - k - 1].Published?)
  }

  lemma {:induction false} WaitAppended(cycles: seq<Outcome>, o: Outcome, failures: nat, k: nat, batchSize: nat,
                                        poll: int, maxBackoff: int)
    requires FailedInARow(cycles, k)
    ensures Waits(cycles + [o], failures, batchSize, poll, maxBackoff)
         == Waits(cycles, failures, batchSize, poll, maxBackoff)
            + match o
              case Failed => [FailureWait(if k == |cycles| then failures + k else k, poll, maxBackoff)]
              case Published(count) => if count == batchSize then [] else [poll]
    decreases |cycles|
  {
    if cycles == [] {
      assert cycles + [o] == [o] && [o][1..] == [];
    } else {
      assert (cycles + [o])[1..] == cycles[1..] + [o];
      var now := if cycles[0].Failed? then failures + 1 else 0;
      WaitAppended(cycles[1..], o, now, if k == |cycles| then k - 1 else k, batchSize, poll, maxBackoff);
    }
  }

  /** The wait behind each cycle: none if it filled its batch, the poll interval if it went through with
      less, and if it failed one that depends only on how many failed in a row before it. */
  lemma WaitBehind(cycles: seq<Outcome>, o: Outcome, k: nat, batchSize: nat, poll: int, maxBackoff: int)
    requires FailedInARow(cycles, k)
    ensures Waits([], 0, batchSize, poll, maxBackoff) == []
    ensures Waits(cycles + [o], 0, batchSize, poll, maxBackoff)
         == Waits(cycles, 0, batchSize, poll, maxBackoff)
            + match o
              case Failed => [FailureWait(k, poll, maxBackoff)]
              case Published(count) => if count == batchSize then [] else [poll]
  {
    WaitAppended(cycles, o, 0, k, batchSize, poll, maxBackoff);
  }
}
