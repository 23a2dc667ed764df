/** The assumption that a commit reported as failed did not land, and what becomes of checkout's
    promise without it. */
module LostCommit {
  import opened OrderTotals
  import opened CheckoutSaga
  import L = CanonicalLines
  import R = Reservations
  import I = StockLedger
  import O = Orders
  import T = OrderTables
  import LedgerSafety

  const SKU := "SKU-1"
  const CART := [L.Line(SKU, 1)]
  const PRICE := Money(1, "EUR")
  const LINES := [OrderLine(SKU, 1, PRICE)]
  const KEY := (0, "k")

  ghost function Asking(phase: Phase, asked: bool): map<nat, Call> {
    map[7 := Call(0, "k", 0, CART, asked, phase)]
  }

  lemma CartIsPriced()
    ensures T.PriceLines(CART, map[SKU := PRICE]) == Ok(LINES)
    ensures T.HoldRequest(CART) == CART
    ensures OrderTotals.Price(LINES) == Ok(PRICE)
  {
    assert CART[1..] == [] && LINES[1..] == [];
    assert LINES == [LINES[0]] + [];
    assert Subtotal(LINES[0]) == Ok(1);
    assert SumFrom(1, "EUR", LINES[1..]) == Ok(PRICE);
  }

  /** A call that found its key free. */
  lemma KeyFound() returns (steps: seq<Step>)
    ensures Legal(Init(1, 1), steps) && Honest(steps)
    ensures Run(Init(1, 1), steps)
         == Init(1, 1).(stock := I.Next(I.EMPTY, I.Track(SKU, 1)), calls := Asking(Pricing, false))
  {
    var s := Init(1, 1);
    steps := [];
    RunOn(s, steps, Stock(I.Track(SKU, 1)));
    steps := steps + [Stock(I.Track(SKU, 1))];
    RunOn(s, steps, Arrive(7, 0, "k", 0, CART));
    steps := steps + [Arrive(7, 0, "k", 0, CART)];
    RunOn(s, steps, Replay(7));
    steps := steps + [Replay(7)];
    assert Run(s, steps).calls == Asking(Pricing, false);
  }

  /** The same call once it has priced its cart and asked for the one unit there is. */
  lemma OneUnitAsked() returns (steps: seq<Step>)
    ensures Legal(Init(1, 1), steps) && Honest(steps)
    ensures Run(Init(1, 1), steps)
         == Init(1, 1).(stock := I.Next(I.EMPTY, I.Track(SKU, 1)), calls := Asking(Reserving(LINES), true))
  {
    CartIsPriced();
    var s := Init(1, 1);
    steps := KeyFound();
    RunOn(s, steps, Step.Price(7, map[SKU := PRICE]));
    steps := steps + [Step.Price(7, map[SKU := PRICE])];
    assert Run(s, steps).calls == Asking(Reserving(LINES), true);
  }

  /** And once inventory has taken the hold. */
  lemma OneUnitTaken() returns (steps: seq<Step>)
    ensures Legal(Init(1, 1), steps) && Honest(steps)
    ensures Run(Init(1, 1), steps)
         == Init(1, 1).(stock := LedgerSafety.OneHeld(SKU), calls := Asking(Reserving(LINES), true))
  {
    CartIsPriced();
    LedgerSafety.HoldOne(SKU);
    var s := Init(1, 1);
    steps := OneUnitAsked();
    RunOn(s, steps, Stock(I.OpenReserve(0, 7, CART, 0, 10)));
    steps := steps + [Stock(I.OpenReserve(0, 7, CART, 0, 10))];
    RunOn(s, steps, Stock(I.Close(0)));
    steps := steps + [Stock(I.Close(0))];
  }

  /** And once it has been told so. */
  lemma OneUnitHeld() returns (steps: seq<Step>)
    ensures Legal(Init(1, 1), steps) && Honest(steps)
    ensures Run(Init(1, 1), steps)
         == Init(1, 1).(stock := LedgerSafety.OneHeld(SKU), calls := Asking(Holding(LINES, 0), true))
  {
    steps := OneUnitTaken();
    RunOn(Init(1, 1), steps, Reserved(7, 0));
    steps := steps + [Reserved(7, 0)];
  }

  ghost function PlacedRow(status: O.Status, version: int): O.Row {
    O.Row(7, 0, status, LINES, PRICE, 0, 0, version)
  }

  lemma PlacedThenReleased() returns (steps: seq<Step>)
    ensures Legal(Init(1, 1), steps)
    ensures var s := Run(Init(1, 1), steps);
            && s.tables == T.Tables(map[7 := PlacedRow(O.PendingPayment, 1)], map[KEY := T.Claim(0, 7)], {})
            && s.stock.db.rows == [R.Hold(7, [L.Line(SKU, 1)], R.Released, 10, 2)]
  {
    CartIsPriced();
    steps := OneUnitHeld();
    var s := Init(1, 1);
    RunOn(s, steps, PlaceUnknown(7, 0));
    steps := steps + [PlaceUnknown(7, 0)];
    assert Run(s, steps).tables.orders == map[7 := PlacedRow(O.PendingPayment, 1)];
    assert Run(s, steps).tables.claims == map[KEY := T.Claim(0, 7)];
    RunOn(s, steps, AskRelease(7));
    steps := steps + [AskRelease(7)];
    LedgerSafety.GiveOneBack(SKU);
    assert Run(s, steps).stock == LedgerSafety.OneHeld(SKU);
    RunOn(s, steps, Stock(I.OpenSettle(1, R.Release, 0, 0)));
    steps := steps + [Stock(I.OpenSettle(1, R.Release, 0, 0))];
    RunOn(s, steps, Stock(I.Close(1)));
    steps := steps + [Stock(I.Close(1))];
  }

  /** One commit that lands while being reported as failed is enough: the call gives back the hold of
      an order that exists, the order is paid for, and its stock is free for somebody else. */
  lemma LostCommitBreaksTheSaga()
    ensures exists steps ::
              && Legal(Init(1, 1), steps)
              && var s := Run(Init(1, 1), steps);
                 && 7 in s.tables.orders && s.tables.orders[7].status == O.Paid && s.tables.orders[7].reservation == 0
                 && |s.stock.db.rows| == 1 && s.stock.db.rows[0].order == 7 && s.stock.db.rows[0].status == R.Released
  {
    var steps := PlacedThenReleased();
    RunOn(Init(1, 1), steps, MarkPaid(0, 7));
    steps := steps + [MarkPaid(0, 7)];
    assert Legal(Init(1, 1), steps);
  }
}
