/** The assumption that a commit reported as failed did not land: without it, when checkout's own
    compensation can give back the hold of an order that stands. */
module Compensation {
  import opened OrderTotals
  import opened CheckoutSaga
  import opened CheckoutGuarantees
  import L = CanonicalLines
  import R = Reservations
  import I = StockLedger
  import O = Orders
  import T = OrderTables
  import LedgerSafety

  /** The call's order exists and was not cancelled, and its hold was given back all the same. */
  ghost predicate Stranded(s: State, c: nat) {
    && c in s.tables.orders && s.tables.orders[c].status != O.Cancelled
    && s.tables.orders[c].reservation < |s.stock.db.rows|
    && s.stock.db.rows[s.tables.orders[c].reservation].status == R.Released
  }

  /** Whether the services, doing nothing wrong from here on, can get there. */
  ghost predicate CanStrand(s: State, c: nat) {
    exists more :: Legal(s, more) && Honest(more) && Stranded(Run(s, more), c)
  }

  // ---------------------------------------------------------------------------
  // Making room on the shelf

  ghost predicate OnlyAdjusts(moves: seq<I.Step>) {
    forall i :: 0 <= i < |moves| ==> moves[i].Adjust?
  }

  /** Stock written off, and nothing else. */
  ghost predicate WrittenOff(s: I.State, t: I.State) {
    && t == s.(db := s.db.(stock := t.db.stock), deposits := t.deposits) && t.db.stock.Keys == s.db.stock.Keys
    && forall sku :: sku in s.db.stock ==>
         && t.db.stock[sku].reserved == s.db.stock[sku].reserved
         && (t.db.stock[sku].available == s.db.stock[sku].available || t.db.stock[sku].available == 0)
  }

  lemma WrittenOffThrough(s: I.State, t: I.State, u: I.State)
    requires WrittenOff(s, t) && WrittenOff(t, u)
    ensures WrittenOff(s, u)
  {
  }

  lemma {:induction false} MovesOn(s: I.State, a: seq<I.Step>, b: seq<I.Step>)
    requires I.Legal(s, a) && I.Legal(I.Run(s, a), b) && OnlyAdjusts(a) && OnlyAdjusts(b)
    ensures I.Legal(s, a + b) && I.Run(s, a + b) == I.Run(I.Run(s, a), b) && OnlyAdjusts(a + b)
    decreases |a|
  {
    if a == [] {
      assert a + b == b;
    } else {
      assert (a + b)[1..] == a[1..] + b && OnlyAdjusts(a[1..]);
      MovesOn(I.Next(s, a[0]), a[1..], b);
    }
  }

  /** A SKU's shelf emptied, in write-offs of a size the service takes. */
  lemma {:induction false} Empty(s: I.State, sku: string) returns (moves: seq<I.Step>)
    requires I.Inv(s) && sku in s.db.stock
    ensures I.Legal(s, moves) && OnlyAdjusts(moves) && I.Inv(I.Run(s, moves))
    ensures I.Run(s, moves) == s.(db := s.db.(stock := s.db.stock[sku := s.db.stock[sku].(available := 0)]),
                                  deposits := I.Run(s, moves).deposits)
    decreases s.db.stock[sku].available
  {
    assert I.Balanced(s.db, s.deposits, sku);
    var available := s.db.stock[sku].available;
    if available == 0 {
      moves := [];
      assert s.db.stock[sku := s.db.stock[sku].(available := 0)] == s.db.stock;
    } else {
      var off := I.Adjust(sku, -(if available > L.QUANTITY_MAX then L.QUANTITY_MAX else available));
      LedgerSafety.StepKeepsInv(s, off);
      var rest := Empty(I.Next(s, off), sku);
      moves := [off] + rest;
      assert moves[1..] == rest;
    }
  }

  lemma {:induction false} EmptyAll(s: I.State, lines: seq<L.Line>) returns (moves: seq<I.Step>)
    requires I.Inv(s) && L.Skus(lines) <= s.db.stock.Keys
    ensures I.Legal(s, moves) && OnlyAdjusts(moves) && I.Inv(I.Run(s, moves)) && WrittenOff(s, I.Run(s, moves))
    ensures forall sku :: sku in L.Skus(lines) ==> I.Run(s, moves).db.stock[sku].available == 0
    decreases |lines|
  {
    if lines == [] {
      moves := [];
    } else {
      var first := Empty(s, lines[0].sku);
      var t := I.Run(s, first);
      var rest := EmptyAll(t, lines[1..]);
      MovesOn(s, first, rest);
      WrittenOffThrough(s, t, I.Run(t, rest));
      moves := first + rest;
    }
  }

  lemma {:induction false} Lifted(s: State, moves: seq<I.Step>) returns (steps: seq<Step>)
    requires I.Legal(s.stock, moves) && OnlyAdjusts(moves)
    ensures Legal(s, steps) && Honest(steps) && Run(s, steps) == s.(stock := I.Run(s.stock, moves))
    decreases |moves|
  {
    if moves == [] {
      steps := [];
    } else {
      assert moves[0].Adjust? && OnlyAdjusts(moves[1..]);
      var rest := Lifted(Next(s, Stock(moves[0])), moves[1..]);
      steps := [Stock(moves[0])] + rest;
      assert steps[1..] == rest;
    }
  }

  // ---------------------------------------------------------------------------
  // The release

  lemma {:induction false} FreshAbove(ids: set<nat>) returns (n: nat)
    ensures forall i :: i in ids ==> i < n
    decreases |ids|
  {
    if ids == {} {
      n := 0;
    } else {
      var i :| i in ids;
      var m := FreshAbove(ids - {i});
      n := if i < m then m else i + 1;
      forall j | j in ids ensures j < n {
        if j != i { assert j in ids - {i}; }
      }
    }
  }

  /** A live hold whose shelves are empty can be given back. */
  lemma EmptiedFits(s: I.State, r: nat, now: int)
    requires I.Inv(s) && r < |s.db.rows| && s.db.rows[r].status == R.Held
    requires forall sku :: sku in L.Skus(s.db.rows[r].lines) && sku in s.db.stock ==> s.db.stock[sku].available == 0
    ensures I.SettleTx(s.db, R.Release, r, s.db.rows[r], now).0.rows
         == s.db.rows[r := s.db.rows[r].(status := R.Released, version := s.db.rows[r].version + 1)]
  {
    var row := s.db.rows[r];
    assert I.RowOk(s.db.stock, row);
    forall sku | sku in L.Skus(row.lines)
      ensures var c := s.db.stock[sku];
              && c.reserved >= L.Total(row.lines, sku) && c.available + L.Total(row.lines, sku) <= I.INT_MAX
              && c.reserved <= I.INT_MAX
    {
      assert I.Balanced(s.db, s.deposits, sku);
      LedgerSafety.RowsPositive(s.db);
      I.QuantityCovers(s.db.rows, r, sku);
    }
    I.ReturnFits(s.db.stock, row.lines);
  }

  /** From a state in which a live hold's release was asked for, inventory can carry it out. */
  lemma ReleaseCanHappen(s: State, r: nat) returns (steps: seq<Step>)
    requires I.Inv(s.stock) && r < |s.stock.db.rows| && s.stock.db.rows[r].status == R.Held
             && (R.Release, r) in s.settles
    ensures Legal(s, steps) && Honest(steps)
    ensures var t := Run(s, steps);
            && t == s.(stock := t.stock) && |t.stock.db.rows| == |s.stock.db.rows|
            && t.stock.db.rows[r].status == R.Released
  {
    assert I.RowOk(s.stock.db.stock, s.stock.db.rows[r]);
    var moves := EmptyAll(s.stock, s.stock.db.rows[r].lines);
    var first := Lifted(s, moves);
    var t := Run(s, first);
    var tx := FreshAbove(t.stock.open.Keys);
    var begin, close := Stock(I.OpenSettle(tx, R.Release, r, 0)), Stock(I.Close(tx));
    LedgerSafety.SettleUninterrupted(t.stock, tx, R.Release, r, 0);
    EmptiedFits(t.stock, r, 0);
    RunOn(s, first, begin);
    RunOn(s, first + [begin], close);
    steps := first + [begin] + [close];
  }

  // ---------------------------------------------------------------------------
  // What nothing changes

  /** An order keeps the hold it was placed with. */
  ghost predicate HasHold(t: T.Tables, c: nat, r: nat) {
    c in t.orders && t.orders[c].reservation == r
  }

  lemma {:induction false} SweepKeepsHold(t: T.Tables, now: int, window: int, claimed: seq<nat>, c: nat, r: nat)
    requires HasHold(t, c, r) && T.SweepLoop(t, now, window, claimed).Swept?
    ensures HasHold(T.SweepLoop(t, now, window, claimed).tables, c, r)
    decreases |claimed|
  {
    if claimed != [] {
      if claimed[0] in t.orders && O.Attempt(O.Timeout(now, window), t.orders[claimed[0]]).Moved? {
        var written := T.Written(t, claimed[0], t.orders[claimed[0]].(status := O.Cancelled));
        SweepKeepsHold(written, now, window, claimed[1..], c, r);
      } else {
        SweepKeepsHold(t, now, window, claimed[1..], c, r);
      }
    }
  }

  /** A call is past placing its order, and the order has a hold that has ended. */
  ghost predicate EndedHold(s: State, c: nat, r: nat, hold: R.Hold) {
    && I.Inv(s.stock) && HasHold(s.tables, c, r) && c in s.calls && Past(s.calls[c].phase)
    && r < |s.stock.db.rows| && s.stock.db.rows[r] == hold && hold.status != R.Held
  }

  lemma StepKeepsEndedHold(s: State, step: Step, c: nat, r: nat, hold: R.Hold)
    requires EndedHold(s, c, r, hold) && Enabled(s, step)
    ensures EndedHold(Next(s, step), c, r, hold)
  {
    if step.Stock? {
      LedgerSafety.StepKeepsInv(s.stock, step.move);
      LedgerSafety.StepConserves(s.stock, step.move);
      assert I.Follows(s.stock.db.rows[r], Next(s, step).stock.db.rows[r]);
    } else if step.ExpireStale? && T.SweepLoop(s.tables, step.now, step.window, step.claimed).Swept? {
      SweepKeepsHold(s.tables, step.now, step.window, step.claimed, c, r);
    }
  }

  /** Whatever runs, the order keeps its hold, and the hold stays as it is. */
  lemma {:induction false} EndedHoldStays(s: State, steps: seq<Step>, c: nat, r: nat, hold: R.Hold)
    requires EndedHold(s, c, r, hold) && Legal(s, steps)
    ensures EndedHold(Run(s, steps), c, r, hold)
    decreases |steps|
  {
    if steps != [] {
      StepKeepsEndedHold(s, steps[0], c, r, hold);
      EndedHoldStays(Next(s, steps[0]), steps[1..], c, r, hold);
    }
  }

  // ---------------------------------------------------------------------------
  // The two directions

  /** What checkout's transaction needs to create the order. */
  predicate WouldPlace(s: State, c: nat)
    requires c in s.calls && s.calls[c].phase.Holding?
  {
    (s.calls[c].user, s.calls[c].key) !in s.tables.claims && OrderTotals.Price(s.calls[c].phase.lines).Ok?
  }

  lemma PlacingCreates(s: State, c: nat, now: int)
    requires c in s.calls && s.calls[c].phase.Holding?
    ensures Placing(s, c, now).2.Created? <==> WouldPlace(s, c)
    ensures !WouldPlace(s, c) ==> Placing(s, c, now).0 == s.tables && Placing(s, c, now).1 == []
    ensures WouldPlace(s, c) ==>
              var t := Placing(s, c, now).0;
              HasHold(t, c, s.calls[c].phase.reservation) && t.orders[c].status == O.PendingPayment
  {
  }

  /** A reachable state strands nothing, nor does anything that honestly follows it. */
  lemma HonestStrandsNothing(s: State, c: nat)
    requires Reachable(s)
    ensures !CanStrand(s, c)
  {
    forall more | Legal(s, more) && Honest(more) ensures !Stranded(Run(s, more), c) {
      ReachableOn(s, more);
      var t := Run(s, more);
      if c in t.tables.orders {
        OrderedIsReserved(t, c);
        HoldsEndAsOrdersDo(t, t.tables.orders[c].reservation);
      }
    }
  }

  /** The call's own compensation, asked for and carried out under an order that stands. */
  lemma UndoingCanStrand(t: State, c: nat)
    requires I.Inv(t.stock) && c in t.calls && t.calls[c].phase.Undoing?
    requires c in t.tables.orders && t.tables.orders[c].status != O.Cancelled
    requires t.tables.orders[c].reservation == t.calls[c].phase.reservation < |t.stock.db.rows|
    requires t.stock.db.rows[t.tables.orders[c].reservation].status == R.Held
    ensures CanStrand(t, c)
  {
    var asked := Next(t, AskRelease(c));
    var rest := ReleaseCanHappen(asked, t.calls[c].phase.reservation);
    var more := [AskRelease(c)] + rest;
    assert more[1..] == rest;
    assert Legal(t, more) && Run(t, more) == Run(asked, rest);
    assert Honest(more);
    assert Stranded(Run(t, more), c);
  }

  lemma EndedIsNotStranded(s: State, c: nat, now: int)
    requires Reachable(s) && Enabled(s, PlaceUnknown(c, now)) && WouldPlace(s, c)
    requires s.calls[c].phase.reservation < |s.stock.db.rows|
    requires s.stock.db.rows[s.calls[c].phase.reservation].status != R.Held
    ensures !CanStrand(Next(s, PlaceUnknown(c, now)), c)
  {
    var r := s.calls[c].phase.reservation;
    ReachableInv(s);
    PlacingCreates(s, c, now);
    HoldingIsNotReleased(s, c);
    var t := Next(s, PlaceUnknown(c, now));
    forall more | Legal(t, more) && Honest(more) ensures !Stranded(Run(t, more), c) {
      EndedHoldStays(t, more, c, r, s.stock.db.rows[r]);
    }
  }

  lemma HoldingIsNotReleased(s: State, c: nat)
    requires Inv(s) && c in s.calls && s.calls[c].phase.Holding?
    ensures var r := s.calls[c].phase.reservation; r < |s.stock.db.rows| && s.stock.db.rows[r].status != R.Released
  {
    var r := s.calls[c].phase.reservation;
    assert CallOk(s, c);
    assert HoldOk(s, r);
    forall a | a in s.settles && a.0 == R.Release
      ensures a.1 < |s.stock.db.rows| && s.stock.db.rows[a.1].order in s.calls
      ensures Past(s.calls[s.stock.db.rows[a.1].order].phase)
    {
      assert SettleOk(s, a);
    }
  }

  lemma RefusedIsAFailure(s: State, c: nat, now: int)
    requires Reachable(s) && Enabled(s, PlaceUnknown(c, now)) && !WouldPlace(s, c)
    ensures !CanStrand(Next(s, PlaceUnknown(c, now)), c)
  {
    PlacingCreates(s, c, now);
    var fails := PlaceFails(c);
    assert Next(s, PlaceUnknown(c, now)) == Next(s, fails);
    assert [fails][1..] == [] && Run(s, [fails]) == Run(Next(s, fails), []);
    assert Legal(s, [fails]) && Honest([fails]);
    ReachableOn(s, [fails]);
    HonestStrandsNothing(Next(s, fails), c);
  }

  /** From any state the services can be in: if the outcome of a call's commit is lost, the hold of the
      order it placed can be given back while the order stands, with nothing else going wrong, exactly if
      the key was free, the lines make an order, and the hold is still live. */
  lemma LostCommitStrandsIff(s: State, c: nat, now: int)
    requires Reachable(s) && Enabled(s, PlaceUnknown(c, now))
    ensures s.calls[c].phase.reservation < |s.stock.db.rows|
    ensures CanStrand(Next(s, PlaceUnknown(c, now)), c) <==>
              && (s.calls[c].user, s.calls[c].key) !in s.tables.claims
              && OrderTotals.Price(s.calls[c].phase.lines).Ok?
              && s.stock.db.rows[s.calls[c].phase.reservation].status == R.Held
  {
    ReachableInv(s);
    HoldingIsNotReleased(s, c);
    if !WouldPlace(s, c) {
      RefusedIsAFailure(s, c, now);
    } else if s.stock.db.rows[s.calls[c].phase.reservation].status == R.Held {
      PlacingCreates(s, c, now);
      UndoingCanStrand(Next(s, PlaceUnknown(c, now)), c);
    } else {
      EndedIsNotStranded(s, c, now);
    }
  }
}
