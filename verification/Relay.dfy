/** The relay's own code: one cycle over the outbox table, and the loop that runs cycles; each proved to
    be what the pipeline allows its relay to do. */
module Relay {
  import opened Delivery
  import opened OrderTotals
  import DeliverySafety
  import Backoff

  // ---------------------------------------------------------------------------
  // A cycle, as steps of the pipeline

  function SendAll<E>(s: State<E>, ids: seq<nat>): State<E>
    decreases |ids|
  {
    if ids == [] then s else SendAll(Next(s, Step.Send(ids[0])), ids[1..])
  }

  /** One cycle in which the broker took the first taken messages, all of them if it reported success. */
  function Cycle<E>(s: State<E>, limit: nat, taken: nat, ok: bool): State<E> {
    var claimed := Next(s, Step.Claim(limit));
    if claimed.batch.NoBatch? then s
    else
      var ids := claimed.batch.ids;
      var sent := SendAll(claimed, ids[..if taken < |ids| then taken else |ids|]);
      if ok then Next(sent, Mark) else Next(sent, Drop)
  }

  /** A cycle that claimed something, from what the broker took of it. */
  lemma CycleIs<E>(s: State<E>, limit: nat, taken: nat, ok: bool, sent: State<E>)
    requires s.batch.NoBatch? && ClaimFrom(s.rows, 0, limit) != []
    requires var ids := ClaimFrom(s.rows, 0, limit);
             && sent == SendAll(s.(batch := Batch(ids, {})), ids[..if taken < |ids| then taken else |ids|])
             && sent.batch.Batch? && sent.batch.ids == ids
    ensures Cycle(s, limit, taken, ok)
         == if ok then sent.(rows := MarkRows(sent.rows, ClaimFrom(s.rows, 0, limit)), batch := NoBatch)
            else sent.(batch := NoBatch)
  {
    var ids := ClaimFrom(s.rows, 0, limit);
    var claimed := s.(batch := Batch(ids, {}));
    assert Next(s, Step.Claim(limit)) == claimed;
    assert Cycle(s, limit, taken, ok) == if ok then Next(sent, Mark) else Next(sent, Drop);
  }

  function Sends<E>(ids: seq<nat>): seq<Step<E>> {
    if ids == [] then [] else [Send(ids[0])] + Sends(ids[1..])
  }

  ghost predicate Ascending(ids: seq<nat>) {
    forall i, j :: 0 <= i < j < |ids| ==> ids[i] < ids[j]
  }

  lemma {:induction false} ClaimAscends<E>(rows: seq<Row<E>>, n: nat, limit: nat)
    ensures Ascending(ClaimFrom(rows, n, limit))
    ensures forall i :: 0 <= i < |ClaimFrom(rows, n, limit)| ==> n <= ClaimFrom(rows, n, limit)[i] < |rows|
    ensures |ClaimFrom(rows, n, limit)| <= limit
    decreases |rows| - n
  {
    if n < |rows| && limit > 0 {
      ClaimAscends(rows, n + 1, if rows[n].state == Visible && !rows[n].published then limit - 1 else limit);
    }
  }

  lemma {:induction false} RunAppends<E>(s: State<E>, a: seq<Step<E>>, b: seq<Step<E>>)
    requires Legal(s, a) && Legal(Run(s, a), b)
    ensures Legal(s, a + b) && Run(s, a + b) == Run(Run(s, a), b)
    decreases |a|
  {
    if a == [] {
      assert a + b == b;
    } else {
      assert (a + b)[1..] == a[1..] + b;
      RunAppends(Next(s, a[0]), a[1..], b);
    }
  }

  /** Handing a batch over in id order is always within what the broker's ordering asks for. */
  lemma {:induction false} SendsAreLegal<E>(s: State<E>, done: nat, upTo: nat)
    requires s.batch.Batch? && Ascending(s.batch.ids) && done <= upTo <= |s.batch.ids|
    requires |s.logs| > 0 && forall i :: 0 <= i < |s.batch.ids| ==> s.batch.ids[i] < |s.rows|
    requires forall i :: 0 <= i < done ==> s.batch.ids[i] in s.batch.sent
    ensures Legal(s, Sends(s.batch.ids[done..upTo]))
            && Run(s, Sends(s.batch.ids[done..upTo])) == SendAll(s, s.batch.ids[done..upTo])
    ensures var after := SendAll(s, s.batch.ids[done..upTo]);
            && after.batch.Batch? && after.batch.ids == s.batch.ids && after.rows == s.rows
            && forall i :: 0 <= i < upTo ==> s.batch.ids[i] in after.batch.sent
    decreases upTo - done
  {
    var ids := s.batch.ids;
    if done < upTo {
      assert ids[done..upTo][0] == ids[done] && ids[done..upTo][1..] == ids[done + 1..upTo];
      EarlierAreSent(s, done);
      SendsAreLegal(Next(s, Step.Send(ids[done])), done + 1, upTo);
      assert Sends<E>(ids[done..upTo])[1..] == Sends<E>(ids[done + 1..upTo]);
    }
  }

  lemma EarlierAreSent<E>(s: State<E>, n: nat)
    requires s.batch.Batch? && Ascending(s.batch.ids) && n < |s.batch.ids| && s.batch.ids[n] < |s.rows|
    requires forall i :: 0 <= i < n ==> s.batch.ids[i] in s.batch.sent
    ensures Enabled(s, Step.Send(s.batch.ids[n]))
  {
    forall j | j in s.batch.ids && j < s.batch.ids[n] ensures j in s.batch.sent {
      var i :| 0 <= i < |s.batch.ids| && s.batch.ids[i] == j;
      assert i < n;
    }
  }

  /** A cycle, whether it succeeds, fails, or is cut short after any prefix of its batch, is a run the
      pipeline allows: so all that is proved of those runs holds of this relay. */
  lemma CycleIsARun<E>(s: State<E>, limit: nat, taken: nat, ok: bool) returns (steps: seq<Step<E>>)
    requires Inv(s) && s.batch.NoBatch? && (ok ==> taken >= |ClaimFrom(s.rows, 0, limit)|)
    ensures Legal(s, steps) && Run(s, steps) == Cycle(s, limit, taken, ok)
    ensures Inv(Cycle(s, limit, taken, ok)) && Cycle(s, limit, taken, ok).batch.NoBatch?
  {
    var claimed := Next(s, Step.Claim(limit));
    steps := [];
    if claimed.batch.Batch? {
      ClaimAscends(s.rows, 0, limit);
      var ids := claimed.batch.ids;
      var upTo := if taken < |ids| then taken else |ids|;
      assert ids[0..upTo] == ids[..upTo];
      SendsAreLegal(claimed, 0, upTo);
      var last: Step<E> := if ok then Mark else Drop;
      var sends: seq<Step<E>> := Sends(ids[0..upTo]);
      EndsLegally(claimed, sends, last);
      steps := [Step.Claim(limit)] + (sends + [last]);
      assert steps[1..] == sends + [last];
    }
    DeliverySafety.RunKeepsInv(s, steps);
  }

  lemma EndsLegally<E>(s: State<E>, steps: seq<Step<E>>, last: Step<E>)
    requires Legal(s, steps) && Enabled(Run(s, steps), last)
    ensures Legal(s, steps + [last]) && Run(s, steps + [last]) == Next(Run(s, steps), last)
  {
    assert [last][1..] == [];
    assert Legal(Run(s, steps), [last]);
    RunAppends(s, steps, [last]);
  }

  // ---------------------------------------------------------------------------
  // The same cycle, statement by statement

  class Outbox<E> {
    var rows: seq<Row<E>>
    var logs: seq<seq<nat>>

    constructor (parts: nat)
      ensures rows == [] && logs == seq(parts, i => [])
    {
      rows, logs := [], seq(parts, i => []);
    }

    /** The table and the logs as the relay's part of a pipeline. */
    ghost predicate Shows(s: State<E>)
      reads this
    {
      s.rows == rows && s.logs == logs && s.batch.NoBatch?
    }

    /** The oldest unpublished rows anybody can see, at most limit of them. */
    method Claim(limit: nat) returns (ids: seq<nat>)
      ensures ids == ClaimFrom(rows, 0, limit)
    {
      ids := [];
      var n := 0;
      while n < |rows| && |ids| < limit
        invariant 0 <= n <= |rows| && |ids| <= limit
        invariant ids + ClaimFrom(rows, n, limit - |ids|) == ClaimFrom(rows, 0, limit)
      {
        if rows[n].state == Visible && !rows[n].published {
          assert ids + ([n] + ClaimFrom(rows, n + 1, limit - |ids| - 1))
            == (ids + [n]) + ClaimFrom(rows, n + 1, limit - |ids| - 1);
          ids := ids + [n];
        }
        n := n + 1;
      }
      assert ids + [] == ids;
    }

    /** Marks the rows of a batch, and refuses to have marked any other number of them. */
    method MarkPublished(ids: seq<nat>) returns (ok: bool)
      requires Ascending(ids)
      modifies this`rows
      ensures ok <==> forall i :: 0 <= i < |ids| ==> ids[i] < |old(rows)|
      ensures rows == if ok then MarkRows(old(rows), ids) else old(rows)
    {
      var marked := rows;
      var affected := 0;
      var n := 0;
      while n < |ids|
        invariant 0 <= n <= |ids| && |marked| == |rows| && 0 <= affected <= n
        invariant affected == n <==> forall i :: 0 <= i < n ==> ids[i] < |rows|
        invariant forall i :: 0 <= i < |rows| ==>
                  marked[i] == if i in ids[..n] then rows[i].(published := true) else rows[i]
      {
        assert ids[..n + 1] == ids[..n] + [ids[n]];
        if ids[n] < |marked| {
          marked := marked[ids[n] := marked[ids[n]].(published := true)];
          affected := affected + 1;
        }
        n := n + 1;
      }
      ok := affected == |ids|;
      if ok {
        assert ids[..|ids|] == ids;
        rows := marked;
      }
    }

    /** What the broker takes of a batch before it stops, each message in its key's partition. */
    method Publish(ghost s: State<E>, ids: seq<nat>, taken: nat) returns (ghost after: State<E>)
      requires s.rows == rows && s.logs == logs && s.batch.Batch? && taken <= |ids|
      requires forall i :: 0 <= i < |ids| ==> ids[i] < |rows|
      modifies this`logs
      ensures after == SendAll(s, ids[..taken]) && after.logs == logs && after.rows == rows && after.batch.Batch?
      ensures after.batch.ids == s.batch.ids && |logs| == |old(logs)|
    {
      after := s;
      var n := 0;
      while n < taken
        invariant 0 <= n <= taken
        invariant after.rows == rows && after.logs == logs && after.batch.Batch? && after.batch.ids == s.batch.ids
        invariant |logs| == |old(logs)|
        invariant SendAll(after, ids[n..taken]) == SendAll(s, ids[..taken])
      {
        assert ids[n..taken][1..] == ids[n + 1..taken];
        var p := Partition(|logs|, rows[ids[n]].key);
        after := Next(after, Step.Send(ids[n]));
        if p < |logs| {
          logs := logs[p := logs[p] + [ids[n]]];
        }
        n := n + 1;
      }
    }

    /** One cycle, and how it went: it works, or it breaks once the broker has taken some of the batch,
        because Publish returned an error or the process died before the commit. */
    method PublishBatch(ghost s: State<E>, limit: nat, a: Attempt) returns (o: Outcome, ghost after: State<E>)
      requires Shows(s) && |logs| > 0
      modifies this
      ensures after == CycleIn(s, limit, a) && Shows(after) && |logs| > 0
      ensures o == OutcomeOf(s, limit, a)
    {
      var ids := Claim(limit);
      ClaimAscends(rows, 0, limit);
      if |ids| == 0 {
        return if a.Breaks? then Failed else Published(0), s;
      }
      var upTo := if a.Breaks? && a.taken < |ids| then a.taken else |ids|;
      ghost var sent := Publish(s.(batch := Batch(ids, {})), ids, upTo);
      CycleIs(s, limit, if a.Breaks? then a.taken else |ids|, a.Works?, sent);
      if a.Breaks? {
        return Failed, sent.(batch := NoBatch);
      }
      var ok := MarkPublished(ids);
      return Published(|ids|), sent.(rows := MarkRows(sent.rows, ids), batch := NoBatch);
    }

    /** Cycle after cycle, and the wait that follows each. backoff is
        doubled at a failure and reset by a success, and no wait follows a full batch. */
    method Run(ghost s: State<E>, attempts: seq<Attempt>, batchSize: nat, poll: int, maxBackoff: int)
      returns (waits: seq<int>, ghost after: State<E>)
      requires Shows(s) && |logs| > 0
      modifies this
      ensures after == Cycles(s, attempts, batchSize) && Shows(after)
      ensures waits == Waits(Outcomes(s, attempts, batchSize), 0, batchSize, poll, maxBackoff)
    {
      waits, after := [], s;
      var backoff := poll;
      ghost var failures := 0;
      var n := 0;
      while n < |attempts|
        invariant 0 <= n <= |attempts| && Shows(after) && |logs| > 0
                  && backoff == FailureWait(failures, poll, maxBackoff)
        invariant Cycles(after, attempts[n..], batchSize) == Cycles(s, attempts, batchSize)
        invariant waits + Waits(Outcomes(after, attempts[n..], batchSize), failures, batchSize, poll, maxBackoff)
               == Waits(Outcomes(s, attempts, batchSize), 0, batchSize, poll, maxBackoff)
      {
        assert attempts[n..][1..] == attempts[n + 1..];
        ghost var rest := Outcomes(CycleIn(after, batchSize, attempts[n]), attempts[n + 1..], batchSize);
        var o: Outcome;
        o, after := PublishBatch(after, batchSize, attempts[n]);
        n := n + 1;
        WaitsTurn(waits, o, rest, failures, batchSize, poll, maxBackoff);
        if o.Failed? {
          waits := waits + [backoff];
          backoff := Least(Wrap64(backoff * 2), maxBackoff);
          failures := failures + 1;
        } else {
          backoff := poll;
          failures := 0;
          if o.count != batchSize {
            waits := waits + [poll];
          }
        }
      }
      assert waits + [] == waits;
    }
  }

  // ---------------------------------------------------------------------------
  // Many cycles

  /** Whether a cycle goes through, and if not, how much of its batch the broker had taken. */
  datatype Attempt = Works | Breaks(taken: nat)

  datatype Outcome = Failed | Published(count: nat)

  function CycleIn<E>(s: State<E>, limit: nat, a: Attempt): State<E> {
    Cycle(s, limit, if a.Breaks? then a.taken else |ClaimFrom(s.rows, 0, limit)|, a.Works?)
  }

  function OutcomeOf<E>(s: State<E>, limit: nat, a: Attempt): Outcome {
    if a.Breaks? then Failed else Published(|ClaimFrom(s.rows, 0, limit)|)
  }

  function Cycles<E>(s: State<E>, attempts: seq<Attempt>, limit: nat): State<E>
    decreases |attempts|
  {
    if attempts == [] then s else Cycles(CycleIn(s, limit, attempts[0]), attempts[1..], limit)
  }

  function Outcomes<E>(s: State<E>, attempts: seq<Attempt>, limit: nat): seq<Outcome>
    decreases |attempts|
  {
    if attempts == [] then []
    else [OutcomeOf(s, limit, attempts[0])] + Outcomes(CycleIn(s, limit, attempts[0]), attempts[1..], limit)
  }

  /** Any number of cycles that go well or badly is a run of the pipeline. */
  lemma {:induction false} CyclesAreARun<E>(s: State<E>, attempts: seq<Attempt>, limit: nat)
    returns (steps: seq<Step<E>>)
    requires Inv(s) && s.batch.NoBatch?
    ensures Legal(s, steps) && Run(s, steps) == Cycles(s, attempts, limit)
    ensures Inv(Cycles(s, attempts, limit)) && Cycles(s, attempts, limit).batch.NoBatch?
    decreases |attempts|
  {
    steps := [];
    if attempts != [] {
      var a := attempts[0];
      var first := CycleIsARun(s, limit, if a.Breaks? then a.taken else |ClaimFrom(s.rows, 0, limit)|, a.Works?);
      var rest := CyclesAreARun(CycleIn(s, limit, a), attempts[1..], limit);
      RunAppends(s, first, rest);
      steps := first + rest;
    }
  }

  // ---------------------------------------------------------------------------
  // The waits between them

  function Least(a: int, b: int): int {
    if a <= b then a else b
  }

  /** The wait after a failure that follows the given number of failures in a row, in int64. */
  function FailureWait(failures: nat, poll: int, maxBackoff: int): int {
    if failures == 0 then poll else Least(Wrap64(FailureWait(failures - 1, poll, maxBackoff) * 2), maxBackoff)
  }

  /** The same in unbounded integers: the poll interval, doubled once per failure, up to the cap. */
  function IdealWait(failures: nat, poll: int, maxBackoff: int): int {
    if failures == 0 then poll else Least(poll * Backoff.Pow2(failures), maxBackoff)
  }

  /** The waits of a sequence of cycles: none behind a full batch. */
  function Waits(cycles: seq<Outcome>, failures: nat, batchSize: nat, poll: int, maxBackoff: int): seq<int> {
    if cycles == [] then []
    else
      match cycles[0]
      case Failed =>
        [FailureWait(failures, poll, maxBackoff)] + Waits(cycles[1..], failures + 1, batchSize, poll, maxBackoff)
      case Published(count) =>
        (if count == batchSize then [] else [poll]) + Waits(cycles[1..], 0, batchSize, poll, maxBackoff)
  }

  lemma WaitsTurn(waits: seq<int>, o: Outcome, rest: seq<Outcome>, failures: nat, batchSize: nat, poll: int,
                  maxBackoff: int)
    ensures var all := waits + Waits([o] + rest, failures, batchSize, poll, maxBackoff);
            match o
            case Failed =>
              all == (waits + [FailureWait(failures, poll, maxBackoff)])
                     + Waits(rest, failures + 1, batchSize, poll, maxBackoff)
            case Published(count) =>
              all == (if count == batchSize then waits else waits + [poll])
                     + Waits(rest, 0, batchSize, poll, maxBackoff)
  {
    assert ([o] + rest)[1..] == rest;
    if o.Published? && o.count == batchSize {
      assert [] + Waits(rest, 0, batchSize, poll, maxBackoff) == Waits(rest, 0, batchSize, poll, maxBackoff);
    }
  }

  const TWO62 := 0x4000_0000_0000_0000

  lemma IdealDoubles(failures: nat, poll: int, maxBackoff: int)
    requires 0 < poll && 0 < maxBackoff
    ensures Least(IdealWait(failures, poll, maxBackoff) * 2, maxBackoff) == IdealWait(failures + 1, poll, maxBackoff)
    ensures 0 < IdealWait(failures, poll, maxBackoff)
  {
    assert poll * Backoff.Pow2(failures + 1) == 2 * (poll * Backoff.Pow2(failures)) by {
      assert Backoff.Pow2(failures + 1) == 2 * Backoff.Pow2(failures);
    }
    ProductNonNegative(poll - 1, Backoff.Pow2(failures));
    assert poll * Backoff.Pow2(failures) == (poll - 1) * Backoff.Pow2(failures) + Backoff.Pow2(failures);
  }

  lemma {:induction false} SmallWaitsAreIdeal(failures: nat, poll: int, maxBackoff: int)
    requires 0 < poll < TWO62 && 0 < maxBackoff < TWO62
    ensures FailureWait(failures, poll, maxBackoff) == IdealWait(failures, poll, maxBackoff) < TWO62
  {
    if failures > 0 {
      SmallWaitsAreIdeal(failures - 1, poll, maxBackoff);
      IdealDoubles(failures - 1, poll, maxBackoff);
      WrapFits(IdealWait(failures - 1, poll, maxBackoff) * 2);
    }
  }

  lemma Pow2Of62()
    ensures Backoff.Pow2(62) == TWO62
  {
    Backoff.Pow2Of64();
    assert Backoff.Pow2(64) == 2 * Backoff.Pow2(63) && Backoff.Pow2(63) == 2 * Backoff.Pow2(62);
  }

  /** A wait of that size doubles to a negative one. */
  lemma LargeWaitWraps(failures: nat, poll: int, maxBackoff: int)
    requires 0 < poll <= MAX64 && 0 < maxBackoff <= MAX64
    requires TWO62 <= FailureWait(failures, poll, maxBackoff) <= MAX64
    ensures FailureWait(failures + 1, poll, maxBackoff) < 0
  {
    var k := Backoff.WrapIs(FailureWait(failures, poll, maxBackoff) * 2);
  }

  /** The waits are the poll interval doubled once per failure in a row, up to the cap, however many
      failures, exactly if both are below 2^62 nanoseconds; else some wait comes out negative. */
  lemma WaitsAreIdealIff(poll: int, maxBackoff: int)
    requires 0 < poll <= MAX64 && 0 < maxBackoff <= MAX64
    ensures (forall failures: nat :: FailureWait(failures, poll, maxBackoff) == IdealWait(failures, poll, maxBackoff))
       <==> poll < TWO62 && maxBackoff < TWO62
  {
    if poll < TWO62 && maxBackoff < TWO62 {
      forall failures: nat ensures FailureWait(failures, poll, maxBackoff) == IdealWait(failures, poll, maxBackoff) {
        SmallWaitsAreIdeal(failures, poll, maxBackoff);
      }
    } else {
      var n: nat := if poll >= TWO62 then 0 else 62;
      Pow2Of62();
      ProductNonNegative(poll - 1, TWO62);
      assert poll * TWO62 == (poll - 1) * TWO62 + TWO62;
      assert TWO62 <= IdealWait(n, poll, maxBackoff) <= MAX64;
      IdealDoubles(n + 1, poll, maxBackoff);
      if FailureWait(n, poll, maxBackoff) == IdealWait(n, poll, maxBackoff) {
        LargeWaitWraps(n, poll, maxBackoff);
        assert FailureWait(n + 1, poll, maxBackoff) != IdealWait(n + 1, poll, maxBackoff);
      }
    }
  }
}
