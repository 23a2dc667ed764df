/** The reaper's locks. It takes the rows of every reservation it claimed before any stock row, and then
    each one's stock in the order it claimed them: not the order everyone else keeps to. */
module SweepLocks {
  import opened Text
  import opened CanonicalLines
  import opened LockOrder

  // ---------------------------------------------------------------------------
  // Two transactions

  /** The place of the first element of p that is also in q. */
  function FirstShared<T(==)>(p: seq<T>, q: seq<T>): (i: nat)
    ensures i <= |p|
  {
    if p == [] || p[0] in q then 0 else 1 + FirstShared(p[1..], q)
  }

  ghost predicate NoneShared<T>(p: seq<T>, q: seq<T>, n: nat) {
    n <= |p| && forall k :: 0 <= k < n ==> p[k] !in q
  }

  lemma {:induction false} FirstSharedMeans<T>(p: seq<T>, q: seq<T>)
    ensures NoneShared(p, q, FirstShared(p, q))
    ensures FirstShared(p, q) < |p| ==> p[FirstShared(p, q)] in q
  {
    if p != [] && p[0] !in q {
      FirstSharedMeans(p[1..], q);
      assert forall k :: 0 < k <= FirstShared(p[1..], q) && k < |p| ==> p[k] == p[1..][k - 1];
    }
  }

  lemma {:induction false} FirstSharedIs<T>(p: seq<T>, q: seq<T>, i: nat)
    requires NoneShared(p, q, i) && (i < |p| ==> p[i] in q)
    ensures FirstShared(p, q) == i
  {
    if i > 0 {
      assert p[0] !in q && forall k :: 0 <= k < i - 1 ==> p[1..][k] == p[k + 1];
      FirstSharedIs(p[1..], q, i - 1);
    }
  }

  /** Whether the two have something in common and come to different parts of it first. */
  predicate FirstsDiffer<T(==)>(p: seq<T>, q: seq<T>) {
    var i, j := FirstShared(p, q), FirstShared(q, p);
    i < |p| && j < |q| && p[i] != q[j]
  }

  ghost predicate Apart<T>(p: seq<T>, q: seq<T>) {
    forall x :: x in p ==> x !in q
  }

  /** Each could be stopped at a row the other has taken. */
  ghost predicate CrossAt<T>(p: seq<T>, q: seq<T>, a: nat, b: nat) {
    a < |p| && b < |q| && Apart(p[..a], q[..b]) && p[a] in q[..b] && q[b] in p[..a]
  }

  lemma Within<T>(s: seq<T>, n: nat, x: T) returns (k: nat)
    requires n <= |s| && x in s[..n]
    ensures k < n && s[k] == x
  {
    k :| 0 <= k < |s[..n]| && s[..n][k] == x;
  }

  lemma CrossingFirstsDiffer<T>(p: seq<T>, q: seq<T>, a: nat, b: nat)
    requires CrossAt(p, q, a, b)
    ensures FirstsDiffer(p, q)
  {
    var i, j := FirstShared(p, q), FirstShared(q, p);
    FirstSharedMeans(p, q);
    FirstSharedMeans(q, p);
    var k := Within(p, a, q[b]);
    var l := Within(q, b, p[a]);
    assert i <= k && j <= l;
    assert p[i] in p[..a] && q[j] in q[..b];
  }

  /** The first common row of each, taken by the other in between. */
  lemma DifferingFirstsCross<T>(p: seq<T>, q: seq<T>) returns (a: nat, b: nat)
    requires FirstsDiffer(p, q)
    ensures CrossAt(p, q, a, b)
  {
    var i, j := FirstShared(p, q), FirstShared(q, p);
    FirstSharedMeans(p, q);
    FirstSharedMeans(q, p);
    var k :| 0 <= k < |q| && q[k] == p[i];
    b := FirstShared(q, [p[i]]);
    FirstSharedMeans(q, [p[i]]);
    assert q[b] == p[i] && j < b;
    a := FirstShared(p, q[..b]);
    FirstSharedMeans(p, q[..b]);
    var l :| 0 <= l < |p| && p[l] == q[j];
    assert q[j] in q[..b] && a <= l;
    forall x | x in p[..a] ensures x !in q[..b] {
      var m := Within(p, a, x);
    }
    var n := Within(q, b, p[a]);
    assert p[a] in q && i < a;
    assert p[i] in p[..a];
  }

  /** Both transactions, with what they have taken of their plans. */
  ghost predicate Pair(s: seq<Tx>, p: seq<Lock>, q: seq<Lock>) {
    && |s| == 2 && s[0].plan == p && s[1].plan == q && s[0].taken <= |p| && s[1].taken <= |q|
    && (!s[0].done && !s[1].done ==> Apart(p[..s[0].taken], q[..s[1].taken]))
  }

  lemma HoldsTaken(t: Tx, l: Lock)
    requires TxOk(t) && !t.done
    ensures Holds(t, l) <==> l in t.plan[..t.taken]
  {
  }

  lemma StepKeepsPair(s: seq<Tx>, step: Step, p: seq<Lock>, q: seq<Lock>)
    requires Pair(s, p, q) && Enabled(s, step)
    ensures Pair(Next(s, step), p, q)
  {
    var t := Next(s, step);
    if step.Take? && !s[0].done && !s[1].done {
      var i, j := step.tx, 1 - step.tx;
      var l := s[i].plan[s[i].taken];
      assert t[i].plan[..t[i].taken] == s[i].plan[..s[i].taken] + [l];
      assert !WaitsFor(s, i, j);
      HoldsTaken(s[j], l);
    }
  }

  lemma {:induction false} RunKeepsPair(s: seq<Tx>, steps: seq<Step>, p: seq<Lock>, q: seq<Lock>)
    requires Pair(s, p, q) && Legal(s, steps)
    ensures Pair(Run(s, steps), p, q)
    decreases |steps|
  {
    if steps != [] {
      StepKeepsPair(s, steps[0], p, q);
      RunKeepsPair(Next(s, steps[0]), steps[1..], p, q);
    }
  }

  lemma WaitingOrFinishing(s: seq<Tx>, p: seq<Lock>, q: seq<Lock>, i: nat)
    requires Pair(s, p, q) && i < 2 && Stuck(s) && !s[i].done
    ensures Wanting(s[i]) && WaitsFor(s, i, 1 - i)
  {
    assert !Enabled(s, Finish(i)) && !Enabled(s, Take(i));
    var j :| 0 <= j < |s| && WaitsFor(s, i, j);
  }

  lemma StuckCrosses(s: seq<Tx>, p: seq<Lock>, q: seq<Lock>)
    requires Pair(s, p, q) && Stuck(s)
    ensures CrossAt(p, q, s[0].taken, s[1].taken)
  {
    var i :| 0 <= i < |s| && !s[i].done;
    WaitingOrFinishing(s, p, q, i);
    assert Holds(s[1 - i], s[i].plan[s[i].taken]);
    WaitingOrFinishing(s, p, q, 1 - i);
    HoldsTaken(s[0], q[s[1].taken]);
    HoldsTaken(s[1], p[s[0].taken]);
  }

  lemma CrossedIsStuck(s: seq<Tx>, p: seq<Lock>, q: seq<Lock>, a: nat, b: nat)
    requires CrossAt(p, q, a, b) && s == [Tx(p, a, false), Tx(q, b, false)]
    ensures Stuck(s)
  {
    HoldsTaken(s[0], q[b]);
    HoldsTaken(s[1], p[a]);
    assert WaitsFor(s, 0, 1) && WaitsFor(s, 1, 0);
  }

  ghost predicate CanDeadlock(p: seq<Lock>, q: seq<Lock>) {
    exists steps :: Legal([Begin(p), Begin(q)], steps) && Stuck(Run([Begin(p), Begin(q)], steps))
  }

  lemma CrossingDeadlocks(p: seq<Lock>, q: seq<Lock>, a: nat, b: nat)
    requires CrossAt(p, q, a, b)
    ensures CanDeadlock(p, q)
  {
    var s := [Begin(p), Begin(q)];
    var first := TakesAll(s, 0, a);
    var middle := Run(s, first);
    HoldsTaken(middle[0], q[b]);
    forall k | 0 <= k < b ensures !Holds(middle[0], q[k]) {
      HoldsTaken(middle[0], q[k]);
      assert q[k] in q[..b];
    }
    var second := TakesAll(middle, 1, b);
    RunOn(s, first, second);
    CrossedIsStuck(Run(middle, second), p, q, a, b);
  }

  /** Any two transactions, whatever rows they take in whatever order, can block each other for good if
      and only if they have rows in common and first come to different ones of them. */
  lemma PairDeadlocksIffFirstsDiffer(p: seq<Lock>, q: seq<Lock>)
    ensures CanDeadlock(p, q) <==> FirstsDiffer(p, q)
  {
    if FirstsDiffer(p, q) {
      var a, b := DifferingFirstsCross(p, q);
      CrossingDeadlocks(p, q, a, b);
    }
    var s := [Begin(p), Begin(q)];
    forall steps | Legal(s, steps) && Stuck(Run(s, steps)) ensures FirstsDiffer(p, q) {
      RunKeepsPair(s, steps, p, q);
      var last := Run(s, steps);
      StuckCrosses(last, p, q);
      CrossingFirstsDiffer(p, q, last[0].taken, last[1].taken);
    }
  }

  // ---------------------------------------------------------------------------
  // Rows that do not matter

  /** What the other transaction never takes can be left out. */
  lemma {:induction false} FirstOfParts<T>(a: seq<T>, own: seq<T>, b: seq<T>, q: seq<T>)
    requires Apart(own, q)
    ensures var p, r := a + own + b, a + b;
            && (FirstShared(p, q) < |p| <==> FirstShared(r, q) < |r|)
            && (FirstShared(p, q) < |p| ==> p[FirstShared(p, q)] == r[FirstShared(r, q)])
    decreases |a| + |own|
  {
    var p, r := a + own + b, a + b;
    if a != [] {
      assert p[1..] == a[1..] + own + b && r[1..] == a[1..] + b;
      if a[0] !in q {
        FirstOfParts(a[1..], own, b, q);
      }
    } else if own != [] {
      assert p[1..] == a + own[1..] + b && own[0] in own && p[0] == own[0];
      assert Apart(own[1..], q);
      FirstOfParts(a, own[1..], b, q);
    } else {
      assert p == r;
    }
  }

  lemma {:induction false} SameShared<T>(q: seq<T>, p: seq<T>, r: seq<T>)
    requires forall x :: x in q ==> (x in p <==> x in r)
    ensures FirstShared(q, p) == FirstShared(q, r)
  {
    if q != [] {
      assert q[0] in q && forall x :: x in q[1..] ==> x in q;
      SameShared(q[1..], p, r);
    }
  }

  lemma OwnPart<T>(a: seq<T>, own: seq<T>, b: seq<T>, q: seq<T>)
    requires Apart(own, q)
    ensures FirstsDiffer(a + own + b, q) <==> FirstsDiffer(a + b, q)
  {
    FirstOfParts(a, own, b, q);
    SameShared(q, a + own + b, a + b);
  }

  lemma OwnFirst<T>(own: seq<T>, rest: seq<T>, q: seq<T>)
    requires Apart(own, q)
    ensures FirstsDiffer(own + rest, q) <==> FirstsDiffer(rest, q)
  {
    OwnPart([], own, rest, q);
    assert [] + own == own && [] + rest == rest;
  }

  lemma OwnLast<T>(first: seq<T>, own: seq<T>, q: seq<T>)
    requires Apart(own, q)
    ensures FirstsDiffer(first + own, q) <==> FirstsDiffer(first, q)
  {
    OwnPart(first, own, [], q);
    assert first + own + [] == first + own && first + [] == first;
  }

  // ---------------------------------------------------------------------------
  // The batch

  /** A reservation a sweep claimed: whose it is, and the lines it holds. */
  datatype Claimed = Claimed(id: nat, order: nat, lines: seq<Line>)

  function Ids(batch: seq<Claimed>): (r: seq<nat>)
    ensures |r| == |batch| && forall i :: 0 <= i < |r| ==> r[i] == batch[i].id
  {
    seq(|batch|, i requires 0 <= i < |batch| => batch[i].id)
  }

  function Reservations(ids: seq<nat>): (r: seq<Lock>)
    ensures |r| == |ids| && forall i :: 0 <= i < |r| ==> r[i] == ReservationRow(ids[i])
  {
    seq(|ids|, i requires 0 <= i < |ids| => ReservationRow(ids[i]))
  }

  /** What ending the claimed holds takes: of each in turn its stock rows and its entry as a live hold,
      which is what reserving it took. */
  function Endings(batch: seq<Claimed>): seq<Lock> {
    if batch == [] then [] else ReservePlan(batch[0].order, batch[0].lines) + Endings(batch[1..])
  }

  /** Claiming locks every row of the batch before any hold is ended. */
  function BatchPlan(batch: seq<Claimed>): seq<Lock> {
    Reservations(Ids(batch)) + Endings(batch)
  }

  lemma {:induction false} NoRowsInEndings(batch: seq<Claimed>, id: nat)
    ensures ReservationRow(id) !in Endings(batch)
  {
    if batch != [] {
      NoRowsInEndings(batch[1..], id);
    }
  }

  lemma RowsInPlan(batch: seq<Claimed>, id: nat)
    ensures ReservationRow(id) in BatchPlan(batch) <==> id in Ids(batch)
    ensures ReservationRow(id) in Reservations(Ids(batch)) <==> id in Ids(batch)
  {
    NoRowsInEndings(batch, id);
    if id in Ids(batch) {
      var i :| 0 <= i < |batch| && Ids(batch)[i] == id;
      assert Reservations(Ids(batch))[i] == ReservationRow(id);
    }
  }

  /** The batch's own rows do not matter to a transaction that takes none of them. */
  lemma ClaimsAside(batch: seq<Claimed>, q: seq<Lock>)
    requires forall id :: ReservationRow(id) in q ==> id !in Ids(batch)
    ensures CanDeadlock(BatchPlan(batch), q) <==> FirstsDiffer(Endings(batch), q)
  {
    var own := Reservations(Ids(batch));
    forall l | l in own ensures l !in q {
      RowsInPlan(batch, l.id);
    }
    OwnFirst(own, Endings(batch), q);
    PairDeadlocksIffFirstsDiffer(BatchPlan(batch), q);
  }

  /** A sweep and a reserve deadlock exactly if what the sweep takes first of the reserve's rows and entry
      is not what the reserve takes first of the sweep's. */
  lemma SweepAndReserve(batch: seq<Claimed>, order: nat, lines: seq<Line>)
    ensures CanDeadlock(BatchPlan(batch), ReservePlan(order, lines))
       <==> FirstsDiffer(Endings(batch), ReservePlan(order, lines))
  {
    ClaimsAside(batch, ReservePlan(order, lines));
  }

  ghost predicate NotAmong(batch: seq<Claimed>, order: nat) {
    forall c :: c in batch ==> c.order != order
  }

  lemma {:induction false} EntriesAreTheirs(batch: seq<Claimed>, order: nat)
    requires NotAmong(batch, order)
    ensures HeldOrder(order) !in Endings(batch)
  {
    if batch != [] {
      assert batch[0] in batch && forall c :: c in batch[1..] ==> c in batch;
      EntriesAreTheirs(batch[1..], order);
    }
  }

  /** So do a sweep and a settle of a live hold it did not claim, which is another order's: by the stock
      rows alone. */
  lemma SweepAndSettleOfAnother(batch: seq<Claimed>, id: nat, order: nat, lines: seq<Line>)
    requires id !in Ids(batch) && NotAmong(batch, order)
    ensures CanDeadlock(BatchPlan(batch), SettlePlan(id, order, lines))
       <==> FirstsDiffer(Endings(batch), StockRows(lines))
  {
    var own := [ReservationRow(id), HeldOrder(order)];
    ClaimsAside(batch, SettlePlan(id, order, lines));
    NoRowsInEndings(batch, id);
    EntriesAreTheirs(batch, order);
    OwnLast(StockRows(lines), own, Endings(batch));
  }

  /** And so do two sweeps, which never claim the same reservation. */
  lemma SweepAndSweep(one: seq<Claimed>, other: seq<Claimed>)
    requires Apart(Ids(one), Ids(other))
    ensures CanDeadlock(BatchPlan(one), BatchPlan(other)) <==> FirstsDiffer(Endings(one), Endings(other))
  {
    forall id | ReservationRow(id) in BatchPlan(other) ensures id !in Ids(one) {
      RowsInPlan(other, id);
    }
    ClaimsAside(one, BatchPlan(other));
    var own := Reservations(Ids(other));
    forall l | l in own ensures l !in Endings(one) {
      NoRowsInEndings(one, l.id);
    }
    OwnFirst(own, Endings(other), Endings(one));
  }

  // ---------------------------------------------------------------------------
  // A settle of a reservation the sweep claimed

  /** The SKUs a batch holds. */
  function Swept(batch: seq<Claimed>): set<string> {
    if batch == [] then {} else Skus(batch[0].lines) + Swept(batch[1..])
  }

  lemma StockInRows(lines: seq<Line>, sku: string)
    ensures StockRow(sku) in StockRows(lines) <==> sku in Skus(lines)
  {
    if sku in Skus(lines) {
      var i := SkuIsListed(lines, sku);
      assert StockRows(lines)[i] == StockRow(sku);
    }
    if StockRow(sku) in StockRows(lines) {
      var i :| 0 <= i < |lines| && StockRows(lines)[i] == StockRow(sku);
      SkuListed(lines, i);
    }
  }

  lemma {:induction false} StockInEndings(batch: seq<Claimed>, sku: string)
    ensures StockRow(sku) in Endings(batch) <==> sku in Swept(batch)
  {
    if batch != [] {
      StockInRows(batch[0].lines, sku);
      StockInEndings(batch[1..], sku);
    }
  }

  /** A sweep and a settle of a reservation it claimed deadlock exactly if they share a SKU at all: as they
      do whenever the reservation holds anything. */
  lemma SweepAndSettleOfItsOwn(batch: seq<Claimed>, id: nat, order: nat, lines: seq<Line>)
    requires id in Ids(batch)
    ensures CanDeadlock(BatchPlan(batch), SettlePlan(id, order, lines))
       <==> exists sku :: sku in Skus(lines) && sku in Swept(batch)
  {
    var p, q := BatchPlan(batch), SettlePlan(id, order, lines);
    PairDeadlocksIffFirstsDiffer(p, q);
    SweepMeetsItsRow(batch, id, order, lines);
    FirstSharedMeans(q, p);
    var j := FirstShared(q, p);
    assert q[|lines|] == ReservationRow(id) && j <= |lines|;
    if sku :| sku in Skus(lines) && sku in Swept(batch) {
      var m := SkuIsListed(lines, sku);
      StockInEndings(batch, sku);
      assert q[m] == StockRow(sku) && j <= m;
    } else {
      forall m | 0 <= m < |lines| ensures q[m] !in p {
        SkuListed(lines, m);
        StockInEndings(batch, lines[m].sku);
      }
      FirstSharedIs(q, p, |lines|);
    }
  }

  /** Of what such a settle takes, the sweep takes the reservation first. */
  lemma SweepMeetsItsRow(batch: seq<Claimed>, id: nat, order: nat, lines: seq<Line>)
    requires id in Ids(batch)
    ensures var p, q := BatchPlan(batch), SettlePlan(id, order, lines);
            && ReservationRow(id) in p
            && FirstShared(p, q) < |batch| && p[FirstShared(p, q)] == ReservationRow(id)
  {
    var p, q := BatchPlan(batch), SettlePlan(id, order, lines);
    RowsInPlan(batch, id);
    FirstSharedMeans(p, q);
    assert q[|lines|] == ReservationRow(id);
    var k :| 0 <= k < |batch| && Ids(batch)[k] == id;
    assert p[k] == ReservationRow(id) && FirstShared(p, q) <= k;
  }

  lemma {:induction false} SweptHas(batch: seq<Claimed>, c: Claimed)
    requires c in batch
    ensures Skus(c.lines) <= Swept(batch) && c.id in Ids(batch)
  {
    if c != batch[0] {
      SweptHas(batch[1..], c);
      var i :| 0 <= i < |batch[1..]| && batch[1..][i] == c;
      assert Ids(batch)[i + 1] == c.id;
    } else {
      assert Ids(batch)[0] == c.id;
    }
  }

  /** A commit or release of a reservation the reaper is expiring can always deadlock with it. */
  lemma OwnReservationDeadlocks(batch: seq<Claimed>, c: Claimed)
    requires c in batch && c.lines != []
    ensures CanDeadlock(BatchPlan(batch), SettlePlan(c.id, c.order, c.lines))
  {
    SweptHas(batch, c);
    SkuListed(c.lines, 0);
    SweepAndSettleOfItsOwn(batch, c.id, c.order, c.lines);
  }

  // ---------------------------------------------------------------------------
  // Batches of one and of two

  /** A batch of one keeps the common order of everyone but those who settle what it claimed. */
  lemma BatchOfOneAscends(c: Claimed)
    requires StrictlySorted(c.lines)
    ensures Ascending(c.id, BatchPlan([c]))
  {
    PlansAscend(c.id, c.lines, c.order, 0);
    var rest, plan := ReservePlan(c.order, c.lines), BatchPlan([c]);
    assert [c][1..] == [] && Endings([c]) == rest;
    assert Reservations(Ids([c])) == [ReservationRow(c.id)];
    assert plan == [ReservationRow(c.id)] + rest;
    forall i, j | 0 <= i < j < |plan| ensures Before(c.id, plan[i], plan[j]) {
      assert plan[j] == rest[j - 1];
      if i > 0 { assert plan[i] == rest[i - 1]; }
    }
  }

  lemma TwoLines(a: string, b: string)
    requires Below(a, b)
    ensures StrictlySorted([Line(a, 1), Line(b, 1)])
    ensures StockRows([Line(a, 1), Line(b, 1)]) == [StockRow(a), StockRow(b)]
  {
    var lines := [Line(a, 1), Line(b, 1)];
    BelowAsymmetric(a, b);
    assert lines[1..] == [Line(b, 1)] && lines[1..][1..] == [] && Skus([Line(b, 1)]) == {b};
  }

  lemma HeadsDiffer<T>(p: seq<T>, q: seq<T>)
    requires p != [] && q != [] && p[0] in q && q[0] in p && p[0] != q[0]
    ensures FirstsDiffer(p, q)
  {
  }

  /** A batch of two need not: a sweep of a hold of b and one of a, in that order, against any reserve or
      settle that wants both. */
  lemma BatchOfTwoDeadlocks(a: string, b: string, order: nat)
    requires Below(a, b)
    ensures var batch := [Claimed(1, 11, [Line(b, 1)]), Claimed(2, 12, [Line(a, 1)])];
            var lines := [Line(a, 1), Line(b, 1)];
            && StrictlySorted(lines)
            && CanDeadlock(BatchPlan(batch), SettlePlan(3, 13, lines))
            && CanDeadlock(BatchPlan(batch), ReservePlan(order, lines))
  {
    var batch := [Claimed(1, 11, [Line(b, 1)]), Claimed(2, 12, [Line(a, 1)])];
    var lines := [Line(a, 1), Line(b, 1)];
    TwoLines(a, b);
    BelowAsymmetric(a, b);
    PairPlan(1, 11, b, 2, 12, a);
    var p, q := Endings(batch), StockRows(lines);
    assert p[0] == q[1] == StockRow(b) && p[2] == q[0] == StockRow(a);
    HeadsDiffer(p, q);
    SweepAndSettleOfAnother(batch, 3, 13, lines);
    var r := ReservePlan(order, lines);
    assert r[0] == q[0] && r[1] == q[1];
    HeadsDiffer(p, r);
    SweepAndReserve(batch, order, lines);
  }

  lemma PairPlan(i: nat, x: nat, sku: string, j: nat, y: nat, other: string)
    ensures Endings([Claimed(i, x, [Line(sku, 1)]), Claimed(j, y, [Line(other, 1)])])
         == [StockRow(sku), HeldOrder(x), StockRow(other), HeldOrder(y)]
  {
    var batch := [Claimed(i, x, [Line(sku, 1)]), Claimed(j, y, [Line(other, 1)])];
    assert batch[1..] == [batch[1]] && batch[1..][1..] == [];
    assert Endings(batch[1..]) == [StockRow(other), HeldOrder(y)];
  }

  /** Not even sorted batches are safe: the entries of the holds being ended come between the rows. A
      sweep of an order's hold of a and another's of b, against a reserve of b for the first order that
      did not see its hold. */
  lemma LiveEntryDeadlocks(a: string, b: string, order: nat, other: nat)
    requires a != b && order != other
    ensures CanDeadlock(BatchPlan([Claimed(1, order, [Line(a, 1)]), Claimed(2, other, [Line(b, 1)])]),
                        ReservePlan(order, [Line(b, 1)]))
  {
    var batch := [Claimed(1, order, [Line(a, 1)]), Claimed(2, other, [Line(b, 1)])];
    PairPlan(1, order, a, 2, other, b);
    var p, q := Endings(batch), ReservePlan(order, [Line(b, 1)]);
    assert p == [StockRow(a), HeldOrder(order), StockRow(b), HeldOrder(other)];
    assert q == [StockRow(b), HeldOrder(order)];
    FirstSharedIs(p, q, 1);
    FirstSharedIs(q, p, 0);
    SweepAndReserve(batch, order, [Line(b, 1)]);
  }
}
