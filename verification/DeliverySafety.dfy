/** Nothing is lost, nothing takes effect twice, and an aggregate's events arrive in order. */
module DeliverySafety {
  import opened Delivery

  // ---------------------------------------------------------------------------
  // Steps of the table and the relay

  lemma {:induction false} ClaimFromIs<E>(rows: seq<Row<E>>, n: nat, limit: nat)
    ensures forall j :: j in ClaimFrom(rows, n, limit) ==>
            n <= j < |rows| && rows[j].state == Visible && !rows[j].published
    ensures forall i, j :: j in ClaimFrom(rows, n, limit) && n <= i < j && rows[i].state == Visible &&
                            !rows[i].published
              ==> i in ClaimFrom(rows, n, limit)
    decreases |rows| - n
  {
    if n < |rows| && limit > 0 {
      ClaimFromIs(rows, n + 1, if rows[n].state == Visible && !rows[n].published then limit - 1 else limit);
    }
  }

  /** Steps that leave the table, the batch and the logs alone. */
  predicate Consuming<E>(step: Step<E>) {
    !(step.Write? || step.Show? || step.Undo? || step.Claim? || step.Send? || step.Mark? || step.Drop?)
  }

  lemma ConsumingKeepsRelay<E>(s: State<E>, step: Step<E>)
    requires RelayInv(s) && Consuming(step)
    ensures RelayInv(Next(s, step))
    ensures Next(s, step).rows == s.rows && Next(s, step).logs == s.logs
  {
    var after := Next(s, step);
    assert after.rows == s.rows && after.logs == s.logs && after.batch == s.batch;
  }

  /** The rows after a step of a writing transaction: one appended, or one whose transaction ended. */
  ghost predicate Written<E>(rows: seq<Row<E>>, after: seq<Row<E>>) {
    && |rows| <= |after|
    && (forall i :: 0 <= i < |rows| ==>
          after[i] == rows[i].(state := after[i].state) && (rows[i].state == Open || after[i] == rows[i]))
    && (forall i :: |rows| <= i < |after| ==> after[i].state == Open && !after[i].published)
    && VisibleInOrder(after)
  }

  lemma WriteIsWritten<E>(s: State<E>, step: Step<E>)
    requires RelayInv(s) && Enabled(s, step) && (step.Write? || step.Show? || step.Undo?)
    ensures Written(s.rows, Next(s, step).rows)
    ensures Next(s, step) == s.(rows := Next(s, step).rows)
  {
    var rows, after := s.rows, Next(s, step).rows;
    forall i, j | 0 <= i < j < |after| && after[i].key == after[j].key && after[j].state == Visible
      ensures after[i].state != Open
    {
      if j < |rows| { assert after[j].key == rows[j].key; }
    }
  }

  lemma WrittenKeepsTable<E>(s: State<E>, after: seq<Row<E>>)
    requires RelayInv(s) && Written(s.rows, after)
    ensures PublishedFirst(after) && BatchOk(after, s.batch)
  {
    forall i, j | 0 <= i < j < |after| && after[i].key == after[j].key && after[j].published
      && after[i].state == Visible
      ensures after[i].published
    {
      assert s.rows[j].published && s.rows[j].state == Visible;
      assert s.rows[i].state != Open;
    }
    if s.batch.Batch? {
      forall i, j | j in s.batch.ids && 0 <= i < j < |after| && after[i].key == after[j].key
        && after[i].state == Visible
        ensures after[i].published || i in s.batch.ids
      {
        assert s.rows[j].state == Visible;
        assert s.rows[i].state != Open;
      }
    }
  }

  lemma WrittenKeepsLog<E>(rows: seq<Row<E>>, after: seq<Row<E>>, log: seq<nat>)
    requires VisibleInOrder(rows) && Written(rows, after) && InOrder(rows, log)
    requires forall o :: 0 <= o < |log| ==> log[o] < |rows| && rows[log[o]].state == Visible
    ensures InOrder(after, log)
  {
    forall i, o | 0 <= o < |log| && log[o] < |after| && 0 <= i < log[o] && after[i].key == after[log[o]].key
      && after[i].state == Visible
      ensures i in log[..o]
    {
      assert rows[log[o]].state == Visible;
      assert rows[i].key == rows[log[o]].key && rows[i].state != Open;
    }
  }

  lemma WrittenKeepsRelay<E>(s: State<E>, after: seq<Row<E>>)
    requires RelayInv(s) && Written(s.rows, after)
    ensures RelayInv(s.(rows := after))
  {
    WrittenKeepsTable(s, after);
    forall p, o | 0 <= p < |s.logs| && 0 <= o < |s.logs[p]| ensures EntryOk(after, |s.logs|, p, s.logs[p][o]) {
      assert EntryOk(s.rows, |s.logs|, p, s.logs[p][o]);
    }
    forall p | 0 <= p < |s.logs| ensures InOrder(after, s.logs[p]) {
      forall o | 0 <= o < |s.logs[p]| ensures s.logs[p][o] < |s.rows| && s.rows[s.logs[p][o]].state == Visible {
        assert EntryOk(s.rows, |s.logs|, p, s.logs[p][o]);
      }
      WrittenKeepsLog(s.rows, after, s.logs[p]);
    }
    forall i | 0 <= i < |after| && after[i].published ensures Reached(after, s.logs, i) {
      assert Reached(s.rows, s.logs, i);
    }
    if s.batch.Batch? {
      forall i | i in s.batch.sent ensures Reached(after, s.logs, i) {
        assert Reached(s.rows, s.logs, i);
      }
    }
  }

  lemma ClaimKeepsRelay<E>(s: State<E>, limit: nat)
    requires RelayInv(s) && s.batch.NoBatch?
    ensures RelayInv(Next(s, Step.Claim(limit)))
  {
    ClaimFromIs(s.rows, 0, limit);
  }

  lemma SendKeepsLogs<E>(s: State<E>, id: nat)
    requires RelayInv(s) && Enabled(s, Send(id))
    ensures var after := Next(s, Step.Send(id));
            EntriesOk(after.rows, after.logs) && LogsInOrder(after.rows, after.logs)
  {
    var after := Next(s, Step.Send(id));
    var p := Partition(|s.logs|, s.rows[id].key);
    assert p < |s.logs|;
    forall q, o | 0 <= q < |after.logs| && 0 <= o < |after.logs[q]|
      ensures EntryOk(s.rows, |after.logs|, q, after.logs[q][o])
    {
      if o < |s.logs[q]| {
        assert EntryOk(s.rows, |s.logs|, q, s.logs[q][o]);
      }
    }
    forall q | 0 <= q < |after.logs| ensures InOrder(s.rows, after.logs[q]) {
      assert InOrder(s.rows, s.logs[q]);
      if q == p {
        SendKeepsOrder(s, id, p);
      }
    }
  }

  lemma SendKeepsOrder<E>(s: State<E>, id: nat, p: nat)
    requires RelayInv(s) && Enabled(s, Send(id)) && p == Partition(|s.logs|, s.rows[id].key) < |s.logs|
    ensures InOrder(s.rows, s.logs[p] + [id])
  {
    var log := s.logs[p] + [id];
    assert InOrder(s.rows, s.logs[p]);
    forall i, o | 0 <= o < |log| && log[o] < |s.rows| && 0 <= i < log[o] && s.rows[i].key == s.rows[log[o]].key
      && s.rows[i].state == Visible
      ensures i in log[..o]
    {
      if o < |s.logs[p]| {
        assert log[..o] == s.logs[p][..o] && log[o] == s.logs[p][o];
      } else {
        assert log[..o] == s.logs[p];
        assert s.rows[i].published || i in s.batch.ids;
        assert Reached(s.rows, s.logs, i);
      }
    }
  }

  lemma SendKeepsRelay<E>(s: State<E>, id: nat)
    requires RelayInv(s) && Enabled(s, Send(id))
    ensures RelayInv(Next(s, Step.Send(id)))
  {
    var after := Next(s, Step.Send(id));
    var p := Partition(|s.logs|, s.rows[id].key);
    assert p < |s.logs|;
    SendKeepsLogs(s, id);
    forall i | 0 <= i < |s.rows| && s.rows[i].published ensures Reached(s.rows, after.logs, i) {
      assert Reached(s.rows, s.logs, i);
    }
    forall i | i in after.batch.sent ensures Reached(s.rows, after.logs, i) {
      if i != id { assert Reached(s.rows, s.logs, i); }
    }
  }

  lemma MarkKeepsTable<E>(s: State<E>)
    requires RelayInv(s) && s.batch.Batch?
    ensures var rows := MarkRows(s.rows, s.batch.ids); VisibleInOrder(rows) && PublishedFirst(rows)
  {
    var rows := MarkRows(s.rows, s.batch.ids);
    forall i, j | 0 <= i < j < |rows| && rows[i].key == rows[j].key && rows[j].published && rows[i].state == Visible
      ensures rows[i].published
    {
      if j in s.batch.ids {
        assert s.rows[i].published || i in s.batch.ids;
      }
    }
  }

  lemma MarkKeepsRelay<E>(s: State<E>)
    requires RelayInv(s) && Enabled(s, Mark)
    ensures RelayInv(Next(s, Step.Mark))
  {
    var rows := MarkRows(s.rows, s.batch.ids);
    MarkKeepsTable(s);
    forall p, o | 0 <= p < |s.logs| && 0 <= o < |s.logs[p]| ensures EntryOk(rows, |s.logs|, p, s.logs[p][o]) {
      assert EntryOk(s.rows, |s.logs|, p, s.logs[p][o]);
    }
    forall p | 0 <= p < |s.logs| ensures InOrder(rows, s.logs[p]) {
      assert InOrder(s.rows, s.logs[p]);
    }
    forall i | 0 <= i < |rows| && rows[i].published ensures Reached(rows, s.logs, i) {
      assert Reached(s.rows, s.logs, i);
    }
  }

  lemma StepKeepsRelay<E>(s: State<E>, step: Step<E>)
    requires RelayInv(s) && Enabled(s, step)
    ensures RelayInv(Next(s, step))
  {
    if Consuming(step) {
      ConsumingKeepsRelay(s, step);
    } else if step.Write? || step.Show? || step.Undo? {
      WriteIsWritten(s, step);
      WrittenKeepsRelay(s, Next(s, step).rows);
    } else {
      match step
      case Claim(limit) => ClaimKeepsRelay(s, limit);
      case Send(id) => SendKeepsRelay(s, id);
      case Mark => MarkKeepsRelay(s);
      case Drop =>
    }
  }

  // ---------------------------------------------------------------------------
  // Steps of the consumer

  /** What a step may do to the messages already dealt with: add to them, and nothing else. */
  ghost predicate Advances<E>(s: State<E>, after: State<E>) {
    && |s.rows| <= |after.rows| && |s.logs| == |after.logs|
    && (forall i :: 0 <= i < |s.rows| ==> after.rows[i].wanted == s.rows[i].wanted)
    && (forall i :: 0 <= i < |s.rows| && s.rows[i].state == Visible ==> after.rows[i].state == Visible)
    && (forall p :: 0 <= p < |s.logs| ==> s.logs[p] <= after.logs[p])
    && s.accepted <= after.accepted && s.dead <= after.dead && s.inbox <= after.inbox
  }

  lemma StepAdvances<E>(s: State<E>, step: Step<E>)
    requires Enabled(s, step)
    ensures Advances(s, Next(s, step))
  {
  }

  lemma AllDealtStays<E>(s: State<E>, after: State<E>, p: nat, upTo: nat)
    requires Advances(s, after) && AllDealt(s, p, upTo)
    ensures AllDealt(after, p, upTo)
  {
    forall o | 0 <= o < upTo ensures Dealt(after, p, o) {
      assert Dealt(s, p, o);
    }
  }

  lemma MemberStays<E>(s: State<E>, after: State<E>, m: Member)
    requires Advances(s, after) && MemberOk(s, m)
    ensures MemberOk(after, m)
  {
    AllDealtStays(s, after, m.partition, m.position);
    if m.Working? {
      assert s.logs[m.partition] <= after.logs[m.partition];
    }
  }

  /** A member that is not joining or committing stays at its place. */
  lemma MemberKeepsPlace<E>(s: State<E>, step: Step<E>, m: nat)
    requires Enabled(s, step) && !step.Commit? && !step.Join?
    requires m in Next(s, step).members && m in s.members && Next(s, step).members[m] != s.members[m]
    ensures var was, now := s.members[m], Next(s, step).members[m];
            && now.partition == was.partition && now.position == was.position
            && (now.Settled? ==> Place(s, m) in Next(s, step).accepted || Place(s, m) in Next(s, step).dead)
            && (now.Settled? ==> was.Working?)
            && (now.Working? ==> was.Working? || (was.partition < |s.logs| && was.position < |s.logs[was.partition]|))
  {
  }

  lemma CommitMovesOn<E>(s: State<E>, m: nat)
    requires Inv(s) && Enabled(s, Step.Commit(m))
    ensures var member, after := s.members[m], Next(s, Step.Commit(m));
            && after == s.(members := s.members[m := Idle(member.partition, member.position + 1)],
                           committed := s.committed[member.partition := member.position + 1])
            && AllDealt(after, member.partition, member.position + 1)
  {
    var member, after := s.members[m], Next(s, Step.Commit(m));
    assert MemberOk(s, member);
    assert Dealt(s, member.partition, member.position);
    forall o | 0 <= o < member.position + 1 ensures Dealt(after, member.partition, o) {
      assert Dealt(s, member.partition, o);
    }
  }

  lemma MemberMoves<E>(s: State<E>, step: Step<E>, m: nat)
    requires Inv(s) && Enabled(s, step)
    requires m in Next(s, step).members && !(m in s.members && Next(s, step).members[m] == s.members[m])
    ensures MemberOk(Next(s, step), Next(s, step).members[m])
  {
    var after := Next(s, step);
    StepAdvances(s, step);
    if step.Commit? {
      CommitMovesOn(s, step.m);
    } else if step.Join? {
      AllDealtStays(s, after, step.partition, s.committed[step.partition]);
    } else {
      assert m in s.members;
      MemberKeepsPlace(s, step, m);
      var member := s.members[m];
      assert MemberOk(s, member);
      AllDealtStays(s, after, member.partition, member.position);
      assert s.logs[member.partition] <= after.logs[member.partition];
    }
  }

  lemma MembersStay<E>(s: State<E>, step: Step<E>)
    requires Inv(s) && Enabled(s, step)
    ensures forall m :: m in Next(s, step).members ==> MemberOk(Next(s, step), Next(s, step).members[m])
  {
    var after := Next(s, step);
    StepAdvances(s, step);
    forall m | m in after.members ensures MemberOk(after, after.members[m]) {
      if m in s.members && after.members[m] == s.members[m] {
        MemberStays(s, after, s.members[m]);
      } else {
        MemberMoves(s, step, m);
      }
    }
  }

  lemma CommittedStays<E>(s: State<E>, step: Step<E>)
    requires Inv(s) && Enabled(s, step)
    ensures |Next(s, step).committed| == |Next(s, step).logs| > 0
    ensures forall p :: 0 <= p < |Next(s, step).committed| ==> AllDealt(Next(s, step), p, Next(s, step).committed[p])
  {
    var after := Next(s, step);
    StepAdvances(s, step);
    assert |after.committed| == |s.committed|;
    forall p | 0 <= p < |after.committed| ensures AllDealt(after, p, after.committed[p]) {
      if step.Commit? {
        CommitMovesOn(s, step.m);
      }
      if after.committed[p] == s.committed[p] {
        AllDealtStays(s, after, p, s.committed[p]);
      }
    }
  }

  lemma AcceptedStays<E>(s: State<E>, step: Step<E>)
    requires Inv(s) && Enabled(s, step)
    ensures AcceptedOk(Next(s, step))
  {
    var after := Next(s, step);
    StepAdvances(s, step);
    forall a | a in after.accepted
      ensures a.0 < |after.logs| && a.1 < |after.logs[a.0]|
           && (after.logs[a.0][a.1] < |after.rows| && after.rows[after.logs[a.0][a.1]].wanted ==>
                after.logs[a.0][a.1] in after.inbox)
    {
      if a in s.accepted {
        assert s.logs[a.0] <= after.logs[a.0];
        assert EntryOk(s.rows, |s.logs|, a.0, s.logs[a.0][a.1]);
      }
    }
  }

  lemma EffectsStay<E>(s: State<E>, step: Step<E>)
    requires Inv(s) && Enabled(s, step)
    ensures EffectsOk(Next(s, step))
  {
    var after := Next(s, step);
    StepAdvances(s, step);
    if step.Accept? {
      var member := s.members[step.m];
      assert EntryOk(s.rows, |s.logs|, member.partition, s.logs[member.partition][member.position]);
    }
  }

  lemma StepKeepsInv<E>(s: State<E>, step: Step<E>)
    requires Inv(s) && Enabled(s, step)
    ensures Inv(Next(s, step))
  {
    StepKeepsRelay(s, step);
    MembersStay(s, step);
    CommittedStays(s, step);
    AcceptedStays(s, step);
    EffectsStay(s, step);
  }

  lemma {:induction false} RunKeepsInv<E>(s: State<E>, steps: seq<Step<E>>)
    requires Inv(s) && Legal(s, steps)
    ensures Inv(Run(s, steps))
    decreases |steps|
  {
    if steps != [] {
      StepKeepsInv(s, steps[0]);
      RunKeepsInv(Next(s, steps[0]), steps[1..]);
    }
  }

  lemma InitInv<E>(parts: nat, maxAttempts: nat)
    requires parts > 0
    ensures Inv<E>(Init(parts, maxAttempts))
  {
  }

  // ---------------------------------------------------------------------------
  // An aggregate's events arrive in the order they were raised

  /** The first appearance of everything in a log. */
  function FirstSeen(log: seq<nat>): seq<nat> {
    if log == [] then []
    else
      var front := log[..|log| - 1];
      var last := log[|log| - 1];
      if last in front then FirstSeen(front) else FirstSeen(front) + [last]
  }

  /** The events of one aggregate in a sequence of them. */
  function Of<E>(rows: seq<Row<E>>, ids: seq<nat>, key: nat): seq<nat> {
    if ids == [] then []
    else
      var last := ids[|ids| - 1];
      Of(rows, ids[..|ids| - 1], key) + if last < |rows| && rows[last].key == key then [last] else []
  }

  /** The visible rows of one aggregate below n, in id order. */
  function Raised<E>(rows: seq<Row<E>>, n: nat, key: nat): seq<nat>
    requires n <= |rows|
  {
    if n == 0 then []
    else Raised(rows, n - 1, key) + if rows[n - 1].key == key && rows[n - 1].state == Visible then [n - 1] else []
  }

  lemma {:induction false} RaisedIs<E>(rows: seq<Row<E>>, n: nat, key: nat)
    requires n <= |rows|
    ensures forall i :: 0 <= i < |Raised(rows, n, key)| ==>
              var id := Raised(rows, n, key)[i]; id < n && rows[id].key == key && rows[id].state == Visible
    ensures forall id :: 0 <= id < n && rows[id].key == key && rows[id].state == Visible ==> id in Raised(rows, n, key)
    ensures forall i, j :: 0 <= i < j < |Raised(rows, n, key)| ==> Raised(rows, n, key)[i] < Raised(rows, n, key)[j]
  {
    if n > 0 {
      RaisedIs(rows, n - 1, key);
    }
  }

  lemma {:induction false} OfAppend<E>(rows: seq<Row<E>>, ids: seq<nat>, last: nat, key: nat)
    ensures Of(rows, ids + [last], key)
         == Of(rows, ids, key) + if last < |rows| && rows[last].key == key then [last] else []
  {
    assert (ids + [last])[..|ids|] == ids;
  }

  lemma {:induction false} SeenAre<E>(rows: seq<Row<E>>, log: seq<nat>, key: nat)
    ensures forall id :: id in Of(rows, FirstSeen(log), key) <==> id in log && id < |rows| && rows[id].key == key
  {
    if log != [] {
      var front := log[..|log| - 1];
      var last := log[|log| - 1];
      assert log == front + [last];
      SeenAre(rows, front, key);
      OfAppend(rows, FirstSeen(front), last, key);
    }
  }

  /** With repeats dropped, what a log holds of one aggregate is a prefix of what was raised. */
  lemma {:induction false} SeenIsPrefix<E>(rows: seq<Row<E>>, log: seq<nat>, key: nat)
    requires InOrder(rows, log)
    requires forall o :: 0 <= o < |log| ==> log[o] < |rows| && rows[log[o]].state == Visible
    ensures Of(rows, FirstSeen(log), key) <= Raised(rows, |rows|, key)
  {
    if log != [] {
      var front := log[..|log| - 1];
      var last := log[|log| - 1];
      assert log == front + [last];
      forall i, o | 0 <= o < |front| && front[o] < |rows| && 0 <= i < front[o] && rows[i].key == rows[front[o]].key
        && rows[i].state == Visible
        ensures i in front[..o]
      {
        assert front[..o] == log[..o] && front[o] == log[o];
      }
      SeenIsPrefix(rows, front, key);
      if last !in front && rows[last].key == key {
        NextSeen(rows, front, last, key);
      }
      OfAppend(rows, FirstSeen(front), last, key);
    }
  }

  lemma NextSeen<E>(rows: seq<Row<E>>, front: seq<nat>, last: nat, key: nat)
    requires Of(rows, FirstSeen(front), key) <= Raised(rows, |rows|, key)
    requires last < |rows| && rows[last].state == Visible && rows[last].key == key && last !in front
    requires forall i :: 0 <= i < last && rows[i].key == key && rows[i].state == Visible ==> i in front
    ensures Of(rows, FirstSeen(front), key) + [last] <= Raised(rows, |rows|, key)
  {
    var all := Raised(rows, |rows|, key);
    var seen := Of(rows, FirstSeen(front), key);
    RaisedIs(rows, |rows|, key);
    SeenAre(rows, front, key);
    forall x | x in all && x < last ensures x in seen {
      assert x < |rows| && rows[x].key == key && rows[x].state == Visible;
      assert x in front;
    }
    NextInOrder(all, seen, last);
  }

  lemma NextInOrder(all: seq<nat>, seen: seq<nat>, last: nat)
    requires seen <= all && (forall i, j :: 0 <= i < j < |all| ==> all[i] < all[j])
    requires last in all && last !in seen && (forall x :: x in all && x < last ==> x in seen)
    ensures seen + [last] <= all
  {
    var i :| 0 <= i < |all| && all[i] == last;
    assert i >= |seen|;
    var next := all[|seen|];
    assert forall j :: 0 <= j < |seen| ==> seen[j] < next;
    assert next !in seen;
  }

  // ---------------------------------------------------------------------------
  // Main results

  /** A row marked published is in the log, whatever failed or crashed on the way. */
  lemma PublishedIsInTheLog<E>(parts: nat, maxAttempts: nat, steps: seq<Step<E>>, id: nat)
    requires parts > 0 && Legal(Init(parts, maxAttempts), steps)
    requires id < |Run(Init(parts, maxAttempts), steps).rows| && Run(Init(parts, maxAttempts), steps).rows[id].published
    ensures Reached(Run(Init(parts, maxAttempts), steps).rows, Run(Init(parts, maxAttempts), steps).logs, id)
  {
    InitInv<E>(parts, maxAttempts);
    RunKeepsInv(Init(parts, maxAttempts), steps);
  }

  /** Each aggregate's part of the log, repeats dropped, is a prefix of the events it raised. */
  lemma LogFollowsTheAggregate<E>(parts: nat, maxAttempts: nat, steps: seq<Step<E>>, p: nat, key: nat)
    requires parts > 0 && Legal(Init(parts, maxAttempts), steps)
    requires p < |Run(Init(parts, maxAttempts), steps).logs|
    ensures var s := Run(Init(parts, maxAttempts), steps);
            Of(s.rows, FirstSeen(s.logs[p]), key) <= Raised(s.rows, |s.rows|, key)
  {
    InitInv<E>(parts, maxAttempts);
    RunKeepsInv(Init(parts, maxAttempts), steps);
    var s := Run(Init(parts, maxAttempts), steps);
    assert InOrder(s.rows, s.logs[p]);
    forall o | 0 <= o < |s.logs[p]| ensures s.logs[p][o] < |s.rows| && s.rows[s.logs[p][o]].state == Visible {
      assert EntryOk(s.rows, |s.logs|, p, s.logs[p][o]);
    }
    SeenIsPrefix(s.rows, s.logs[p], key);
  }

  /** No event takes effect twice, however often it is published, delivered or retried. */
  lemma EffectsAreDistinct<E>(parts: nat, maxAttempts: nat, steps: seq<Step<E>>)
    requires parts > 0 && Legal(Init(parts, maxAttempts), steps)
    ensures Distinct(Run(Init(parts, maxAttempts), steps).effects)
  {
    InitInv<E>(parts, maxAttempts);
    RunKeepsInv(Init(parts, maxAttempts), steps);
  }

  /** No event takes effect twice; and whatever the group has committed past was dead-lettered, or
      accepted, and then, if it is an event the group handles, took effect. */
  lemma ExactlyOnceOrDead<E>(parts: nat, maxAttempts: nat, steps: seq<Step<E>>, p: nat, o: nat)
    requires parts > 0 && Legal(Init(parts, maxAttempts), steps)
    requires p < |Run(Init(parts, maxAttempts), steps).committed|
             && o < Run(Init(parts, maxAttempts), steps).committed[p]
    ensures var s := Run(Init(parts, maxAttempts), steps);
            && Distinct(s.effects)
            && p < |s.logs| && o < |s.logs[p]| && s.logs[p][o] < |s.rows|
            && ((p, o) in s.dead || (p, o) in s.accepted)
            && ((p, o) in s.accepted && s.rows[s.logs[p][o]].wanted ==> multiset(s.effects)[s.logs[p][o]] == 1)
  {
    InitInv<E>(parts, maxAttempts);
    RunKeepsInv(Init(parts, maxAttempts), steps);
    var s := Run(Init(parts, maxAttempts), steps);
    assert AllDealt(s, p, s.committed[p]);
    assert Dealt(s, p, o);
    assert EntryOk(s.rows, |s.logs|, p, s.logs[p][o]);
    if s.logs[p][o] in s.effects {
      DistinctCount(s.effects, s.logs[p][o]);
    }
  }

  lemma {:induction false} DistinctCount(effects: seq<nat>, id: nat)
    requires Distinct(effects) && id in effects
    ensures multiset(effects)[id] == 1
  {
    var rest := effects[1..];
    assert effects == [effects[0]] + rest;
    assert forall i :: 0 <= i < |rest| ==> rest[i] == effects[i + 1];
    if effects[0] == id {
      assert id !in rest;
    } else {
      assert Distinct(rest) && id in rest;
      DistinctCount(rest, id);
    }
  }

  // ---------------------------------------------------------------------------
  // The channel all of this amounts to

  /** An exactly-once channel: what has been posted, and what has been delivered of it. */
  datatype Channel = Channel(posted: set<nat>, delivered: seq<nat>)

  ghost predicate ChannelStep(a: Channel, b: Channel) {
    || (exists id :: id !in a.posted && b == a.(posted := a.posted + {id}))
    || (exists id :: id in a.posted && id !in a.delivered && b == a.(delivered := a.delivered + [id]))
  }

  predicate Posted<E>(rows: seq<Row<E>>, id: nat) {
    id < |rows| && rows[id].state == Visible && rows[id].wanted
  }

  function Seen<E>(s: State<E>): Channel {
    Channel((set id | 0 <= id < |s.rows| && Posted(s.rows, id)), s.effects)
  }

  lemma SeenPosted<E>(s: State<E>, after: State<E>)
    ensures (forall id :: Posted(s.rows, id) <==> Posted(after.rows, id)) ==> Seen(after).posted == Seen(s).posted
  {
  }

  lemma ShowRefines<E>(s: State<E>, id: nat)
    requires Inv(s) && Enabled(s, Step.Show(id)) && s.rows[id].wanted
    ensures ChannelStep(Seen(s), Seen(Next(s, Step.Show(id))))
  {
    var after := Next(s, Step.Show(id));
    forall i ensures i in Seen(after).posted <==> i in Seen(s).posted + {id} {
      assert Posted(after.rows, i) <==> Posted(s.rows, i) || i == id;
    }
    assert Seen(after).posted == Seen(s).posted + {id};
    assert id !in Seen(s).posted;
  }

  lemma AcceptRefines<E>(s: State<E>, m: nat)
    requires Inv(s) && Enabled(s, Step.Accept(m)) && Hand(s, m) !in s.inbox
    ensures ChannelStep(Seen(s), Seen(Next(s, Step.Accept(m))))
  {
    var id := Hand(s, m);
    assert EntryOk(s.rows, |s.logs|, s.members[m].partition, s.logs[s.members[m].partition][s.members[m].position]);
    assert id in Seen(s).posted;
  }

  /** Relay, broker, consumer and inbox together do, at every step, nothing or one step of the channel. */
  lemma PipelineRefinesChannel<E>(s: State<E>, step: Step<E>)
    requires Inv(s) && Enabled(s, step)
    ensures Seen(Next(s, step)) == Seen(s) || ChannelStep(Seen(s), Seen(Next(s, step)))
  {
    if step.Show? && s.rows[step.id].wanted {
      ShowRefines(s, step.id);
    } else if step.Accept? && Hand(s, step.m) !in s.inbox {
      AcceptRefines(s, step.m);
    } else {
      QuietPosts(s, step);
      SeenPosted(s, Next(s, step));
    }
  }

  lemma QuietPosts<E>(s: State<E>, step: Step<E>)
    requires Enabled(s, step) && !(step.Show? && s.rows[step.id].wanted)
             && !(step.Accept? && Hand(s, step.m) !in s.inbox)
    ensures Next(s, step).effects == s.effects
    ensures forall id :: Posted(s.rows, id) <==> Posted(Next(s, step).rows, id)
  {
  }
}
