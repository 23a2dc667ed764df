/** What a checkout call answers, and when: over the cart, the prices, the counts and what goes wrong. */
module CheckoutAnswers {
  import opened OrderTotals
  import opened Checkout
  import L = CanonicalLines
  import U = InventoryUseCases
  import A = StockAnswers
  import T = OrderTables
  import S = CheckoutSaga

  /** Prices as the catalog can give them. */
  ghost predicate CatalogPrices(prices: map<string, Money>) {
    forall sku :: sku in prices ==> 0 <= prices[sku].amount <= MAX64 && prices[sku].currency != ""
  }

  ghost predicate Priced(requested: seq<L.Line>, prices: map<string, Money>) {
    forall i :: 0 <= i < |requested| ==> requested[i].sku in prices
  }

  /** What a cart costs. */
  ghost function Cost(requested: seq<L.Line>, prices: map<string, Money>): int
    requires Priced(requested, prices)
  {
    if requested == [] then 0
    else requested[0].quantity * prices[requested[0].sku].amount + Cost(requested[1..], prices)
  }

  ghost predicate Distinct(requested: seq<L.Line>) {
    forall i, j :: 0 <= i < j < |requested| ==> requested[i].sku != requested[j].sku
  }

  /** At most a hundred different goods in one currency, for a sum that can be counted. */
  ghost predicate MakesAnOrder(requested: seq<L.Line>, prices: map<string, Money>) {
    && 1 <= |requested| <= 100 && Distinct(requested) && Priced(requested, prices)
    && (forall i :: 0 <= i < |requested| ==>
          prices[requested[i].sku].currency == prices[requested[0].sku].currency)
    && Cost(requested, prices) <= 0x7FFF_FFFF_FFFF_FFFF
  }

  lemma {:induction false} CostIsExact(lines: seq<OrderLine>, requested: seq<L.Line>, prices: map<string, Money>)
    requires T.AtPrices(lines, requested, prices) && Priced(requested, prices)
    ensures Exact(lines) == Cost(requested, prices)
  {
    if lines != [] {
      assert T.AtPrices(lines[1..], requested[1..], prices);
      CostIsExact(lines[1..], requested[1..], prices);
    }
  }

  lemma PricedLinesAreValid(lines: seq<OrderLine>, requested: seq<L.Line>, prices: map<string, Money>)
    requires T.AtPrices(lines, requested, prices) && T.AllSellable(requested, prices) && CatalogPrices(prices)
    ensures ValidLines(lines) && Priced(requested, prices)
  {
    forall i | 0 <= i < |lines| ensures ValidLine(lines[i]) && requested[i].sku in prices {
      assert T.Sellable(requested[i], prices);
    }
  }

  lemma RepeatsAlike(lines: seq<OrderLine>, requested: seq<L.Line>, prices: map<string, Money>)
    requires T.AtPrices(lines, requested, prices)
    ensures RepeatsSku(lines) <==> !Distinct(requested)
  {
  }

  lemma OneCurrencyAlike(lines: seq<OrderLine>, requested: seq<L.Line>, prices: map<string, Money>, currency: string)
    requires T.AtPrices(lines, requested, prices) && Priced(requested, prices)
    ensures OneCurrency(currency, lines)
       <==> forall i :: 0 <= i < |requested| ==> prices[requested[i].sku].currency == currency
  {
    if OneCurrency(currency, lines) {
      forall i | 0 <= i < |requested| ensures prices[requested[i].sku].currency == currency {
        assert lines[i] in lines;
      }
    }
  }

  /** The lines of a cart that was priced have a total exactly if the cart makes an order. */
  lemma OrderIffItMakesOne(requested: seq<L.Line>, prices: map<string, Money>)
    requires T.PriceLines(requested, prices).Ok? && CatalogPrices(prices)
    ensures Price(T.PriceLines(requested, prices).value).Ok? <==> MakesAnOrder(requested, prices)
  {
    var lines := T.PriceLines(requested, prices).value;
    T.PricedIff(requested, prices);
    T.PricedAre(requested, prices);
    PricedLinesAreValid(lines, requested, prices);
    TotalIsExact(lines);
    CostIsExact(lines, requested, prices);
    RepeatsAlike(lines, requested, prices);
    if lines != [] {
      OneCurrencyAlike(lines, requested, prices, lines[0].unitPrice.currency);
    }
  }

  lemma {:induction false} DistinctTotal(requested: seq<L.Line>, sku: string)
    requires Distinct(requested) && forall i :: 0 <= i < |requested| ==> 0 <= requested[i].quantity <= 10_000
    ensures L.Total(requested, sku) <= 10_000
    ensures (forall i :: 0 <= i < |requested| ==> requested[i].sku != sku) ==> L.Total(requested, sku) == 0
  {
    if requested != [] {
      assert Distinct(requested[1..]);
      DistinctTotal(requested[1..], sku);
    }
  }

  /** What can be sold in one order is no more than a reservation may hold. */
  lemma OrdersAreWellAsked(requested: seq<L.Line>, prices: map<string, Money>)
    requires T.AllSellable(requested, prices) && MakesAnOrder(requested, prices)
    ensures A.WellAsked(requested)
  {
    forall i | 0 <= i < |requested| ensures 0 <= requested[i].quantity <= 10_000 {
      assert T.Sellable(requested[i], prices);
    }
    forall sku ensures L.Total(requested, sku) <= 10_000 {
      DistinctTotal(requested, sku);
    }
  }

  /** Whether a new call can be given what it asks for. */
  ghost predicate CanPlace(w: Stores, q: Request, prices: map<string, Money>, ttl: int) {
    && T.AllSellable(q.lines, prices) && MakesAnOrder(q.lines, prices)
    && ttl > 0 && A.Holdable(w.db.stock, q.lines)
  }

  /** A key that was used before is answered from its claim, whatever else is asked and whatever else would
      go wrong, and nothing changes: with the order it got, or, for another request, with a refusal. */
  lemma RetriesAreAnswered(w: Stores, q: Request, prices: map<string, Money>, id: nat, now: int, ttl: int, x: Faults)
    requires q.lines != [] && (q.user, q.key) in w.tables.claims
    ensures var claim := w.tables.claims[(q.user, q.key)];
            CheckoutNow(w, q, prices, id, now, ttl, x)
              == (w, if claim.hash == q.hash then S.Placed(claim.order) else S.KeyReused)
  {
  }

  /** A cart of nothing is no request. */
  lemma NothingIsRefused(w: Stores, q: Request, prices: map<string, Money>, id: nat, now: int, ttl: int, x: Faults)
    requires q.lines == []
    ensures CheckoutNow(w, q, prices, id, now, ttl, x) == (w, S.Error)
  {
  }

  lemma ReserveDecides(w: Stores, q: Request, prices: map<string, Money>, id: nat, now: int, ttl: int)
    requires A.NoLiveHold(w.db.rows, id) && A.Columns(w.db.stock)
    requires T.PriceLines(q.lines, prices).Ok? && MakesAnOrder(q.lines, prices)
    ensures T.HoldRequest(q.lines) == q.lines
    ensures U.ReserveNow(w.db, id, q.lines, now, ttl).1.Done? <==> ttl > 0 && A.Holdable(w.db.stock, q.lines)
  {
    T.PricedIff(q.lines, prices);
    T.PricedAre(q.lines, prices);
    OrdersAreWellAsked(q.lines, prices);
    A.ReserveSucceedsIff(w.db, id, q.lines, now, ttl);
  }

  lemma PlacingDecides(
    w: Stores, q: Request, prices: map<string, Money>, id: nat, reservation: nat, now: int, x: Faults)
    requires q.lines != [] && (q.user, q.key) !in w.tables.claims && id !in w.tables.orders
    requires T.PriceLines(q.lines, prices).Ok? && CatalogPrices(prices)
    ensures var (after, reply) := PlaceNow(w, q, id, reservation, T.PriceLines(q.lines, prices).value, now, x);
            && reply == (if MakesAnOrder(q.lines, prices) && x.ending.Commits? then S.Placed(id) else S.Error)
            && (id in after.tables.orders <==> MakesAnOrder(q.lines, prices) && !x.ending.RollsBack?)
  {
    OrderIffItMakesOne(q.lines, prices);
  }

  /** A call under an unused key is answered with the order it places exactly if every line can be sold, the
      lines make an order, inventory has room to hold them, and neither the answer to its reserve nor its
      commit is lost; and with an error if not. The order is then in the table, and else only if the commit
      landed unseen. */
  lemma NewCallsAreAnswered(w: Stores, q: Request, prices: map<string, Money>, id: nat, now: int, ttl: int, x: Faults)
    requires q.lines != [] && (q.user, q.key) !in w.tables.claims && CatalogPrices(prices)
    requires id !in w.tables.orders && A.NoLiveHold(w.db.rows, id) && A.Columns(w.db.stock)
    ensures var (after, reply) := CheckoutNow(w, q, prices, id, now, ttl, x);
            && reply == (if CanPlace(w, q, prices, ttl) && x.reserve.Answered? && x.ending.Commits?
                         then S.Placed(id) else S.Error)
            && (id in after.tables.orders <==>
                  CanPlace(w, q, prices, ttl) && x.reserve.Answered? && !x.ending.RollsBack?)
  {
    T.PricedIff(q.lines, prices);
    if T.PriceLines(q.lines, prices).Ok? {
      if MakesAnOrder(q.lines, prices) {
        ReserveDecides(w, q, prices, id, now, ttl);
      }
      var (held, answer) := U.ReserveNow(w.db, id, T.HoldRequest(q.lines), now, ttl);
      if answer.Done? {
        PlacingDecides(w.(db := held), q, prices, id, answer.id, now, x);
      }
    }
  }
}
