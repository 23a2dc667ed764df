/** What an order costs. Amounts are int64 minor units, so a product or sum is written with its wrap
    wherever the program computes one. */
module OrderTotals {

  const MAX64 := 0x7FFF_FFFF_FFFF_FFFF
  const MAX_LINES := 100
  const MAX_QUANTITY := 10_000

  datatype Money = Money(amount: int, currency: string)

  datatype OrderLine = OrderLine(sku: string, quantity: int, unitPrice: Money)

  datatype Fault =
    | SkuRequired
    | QuantityNotPositive
    | QuantityTooLarge
    | PriceRequired
    | NoLines
    | TooManyLines
    | SkuTwice
    | MixedCurrencies
    | TotalOutOfRange
    | NotSellable

  datatype Result<T> = Ok(value: T) | Err(fault: Fault)

  /** The int64 that an exact result is stored as. */
  function Wrap64(x: int): int {
    (x + 0x8000_0000_0000_0000) % 0x1_0000_0000_0000_0000 - 0x8000_0000_0000_0000
  }

  function NewOrderLine(sku: string, quantity: int, unitPrice: Money): Result<OrderLine> {
    if sku == "" then Err(SkuRequired)
    else if quantity <= 0 then Err(QuantityNotPositive)
    else if quantity > MAX_QUANTITY then Err(QuantityTooLarge)
    else if unitPrice.amount == 0 && unitPrice.currency == "" then Err(PriceRequired)
    else Ok(OrderLine(sku, quantity, unitPrice))
  }

  /** A line NewOrderLine can build out of a price NewMoney can build. */
  predicate ValidLine(line: OrderLine) {
    && line.sku != "" && 1 <= line.quantity <= MAX_QUANTITY
    && 0 <= line.unitPrice.amount <= MAX64 && line.unitPrice.currency != ""
  }

  ghost predicate ValidLines(lines: seq<OrderLine>) {
    forall l :: l in lines ==> ValidLine(l)
  }

  /** The price of a line, refused before the product could leave int64. */
  function Subtotal(line: OrderLine): Result<int>
    requires line.quantity > 0
  {
    if line.unitPrice.amount > MAX64 / line.quantity then Err(TotalOutOfRange)
    else Ok(Wrap64(line.unitPrice.amount * line.quantity))
  }

  /** The rest of the totalling loop from an amount already reached. */
  function SumFrom(amount: int, currency: string, lines: seq<OrderLine>): Result<Money>
    requires forall l :: l in lines ==> l.quantity > 0
    decreases |lines|
  {
    if lines == [] then Ok(Money(amount, currency))
    else if lines[0].unitPrice.currency != currency then Err(MixedCurrencies)
    else
      match Subtotal(lines[0])
      case Err(f) => Err(f)
      case Ok(sub) =>
        if amount > Wrap64(MAX64 - sub) then Err(TotalOutOfRange)
        else SumFrom(Wrap64(amount + sub), currency, lines[1..])
  }

  predicate RepeatsSku(lines: seq<OrderLine>) {
    exists i, j :: 0 <= i < j < |lines| && lines[i].sku == lines[j].sku
  }

  /** The total of the lines of a new order, or why it is not one. */
  function Price(lines: seq<OrderLine>): Result<Money>
    requires forall l :: l in lines ==> l.quantity > 0
  {
    if lines == [] then Err(NoLines)
    else if |lines| > MAX_LINES then Err(TooManyLines)
    else if RepeatsSku(lines) then Err(SkuTwice)
    else SumFrom(0, lines[0].unitPrice.currency, lines)
  }

  // ---------------------------------------------------------------------------
  // The exact total

  function ExactLine(line: OrderLine): int {
    line.quantity * line.unitPrice.amount
  }

  /** The sum of quantity times price in unbounded integers. */
  function Exact(lines: seq<OrderLine>): int {
    if lines == [] then 0 else ExactLine(lines[0]) + Exact(lines[1..])
  }

  ghost predicate OneCurrency(currency: string, lines: seq<OrderLine>) {
    forall l :: l in lines ==> l.unitPrice.currency == currency
  }

  lemma ProductNonNegative(a: int, b: int)
    requires a >= 0 && b >= 0
    ensures a * b >= 0
  {
  }

  lemma {:induction false} ExactNonNegative(lines: seq<OrderLine>)
    requires ValidLines(lines)
    ensures Exact(lines) >= 0
  {
    if lines != [] {
      assert lines[0] in lines;
      ProductNonNegative(lines[0].quantity, lines[0].unitPrice.amount);
      ExactNonNegative(lines[1..]);
    }
  }

  lemma QuotientGuards(amount: int, quantity: int)
    requires amount >= 0 && quantity > 0
    ensures amount > MAX64 / quantity <==> amount * quantity > MAX64
  {
    var q := MAX64 / quantity;
    assert MAX64 == q * quantity + MAX64 % quantity;
    if amount > q {
      ProductNonNegative(amount - q - 1, quantity);
      assert amount * quantity == (amount - q - 1) * quantity + q * quantity + quantity;
    } else {
      ProductNonNegative(q - amount, quantity);
      assert q * quantity == (q - amount) * quantity + amount * quantity;
    }
  }

  lemma WrapFits(x: int)
    requires -MAX64 <= x <= MAX64
    ensures Wrap64(x) == x
  {
  }

  lemma SubtotalIsExact(line: OrderLine)
    requires ValidLine(line)
    ensures ExactLine(line) >= 0
    ensures Subtotal(line) == if ExactLine(line) > MAX64 then Err(TotalOutOfRange) else Ok(ExactLine(line))
  {
    QuotientGuards(line.unitPrice.amount, line.quantity);
    ProductNonNegative(line.quantity, line.unitPrice.amount);
    assert line.unitPrice.amount * line.quantity == ExactLine(line);
    if ExactLine(line) <= MAX64 {
      WrapFits(ExactLine(line));
    }
  }

  /** One turn of the loop from an amount that fits. */
  lemma SumStep(amount: int, currency: string, lines: seq<OrderLine>)
    requires ValidLines(lines) && lines != [] && 0 <= amount <= MAX64
    ensures var exact := ExactLine(lines[0]);
            && exact >= 0
            && SumFrom(amount, currency, lines) ==
                 if lines[0].unitPrice.currency != currency then Err(MixedCurrencies)
                 else if exact > MAX64 || amount + exact > MAX64 then Err(TotalOutOfRange)
                 else SumFrom(amount + exact, currency, lines[1..])
  {
    assert lines[0] in lines;
    SubtotalIsExact(lines[0]);
    var exact := ExactLine(lines[0]);
    if exact <= MAX64 {
      WrapFits(MAX64 - exact);
      if amount + exact <= MAX64 {
        WrapFits(amount + exact);
      }
    }
  }

  lemma {:induction false} SumIsExact(amount: int, currency: string, lines: seq<OrderLine>)
    requires ValidLines(lines) && 0 <= amount <= MAX64
    ensures SumFrom(amount, currency, lines).Ok? <==> OneCurrency(currency, lines) && amount + Exact(lines) <= MAX64
    ensures SumFrom(amount, currency, lines).Ok? ==>
            SumFrom(amount, currency, lines).value == Money(amount + Exact(lines), currency)
    decreases |lines|
  {
    if lines != [] {
      SumStep(amount, currency, lines);
      ExactNonNegative(lines[1..]);
      var exact := ExactLine(lines[0]);
      assert lines[0] in lines;
      if lines[0].unitPrice.currency == currency && amount + exact <= MAX64 {
        SumIsExact(amount + exact, currency, lines[1..]);
        assert OneCurrency(currency, lines) <==> OneCurrency(currency, lines[1..]);
      }
    }
  }

  /** What it takes to price an order, exactly: from one to a hundred lines, no SKU twice, one currency,
      and a true total that fits. The stored total is the true one: no product or sum on the way wraps. */
  lemma TotalIsExact(lines: seq<OrderLine>)
    requires ValidLines(lines)
    ensures Price(lines).Ok? <==>
              && 1 <= |lines| <= MAX_LINES && !RepeatsSku(lines)
              && OneCurrency(lines[0].unitPrice.currency, lines) && Exact(lines) <= MAX64
    ensures Price(lines).Ok? ==> Price(lines).value == Money(Exact(lines), lines[0].unitPrice.currency)
  {
    if lines != [] {
      SumIsExact(0, lines[0].unitPrice.currency, lines);
    }
  }

  // ---------------------------------------------------------------------------
  // The loops

  method Sum(lines: seq<OrderLine>) returns (r: Result<Money>)
    requires lines != [] && forall l :: l in lines ==> l.quantity > 0
    ensures r == SumFrom(0, lines[0].unitPrice.currency, lines)
  {
    var currency := lines[0].unitPrice.currency;
    var amount := 0;
    var i := 0;
    while i < |lines|
      invariant 0 <= i <= |lines|
      invariant SumFrom(amount, currency, lines[i..]) == SumFrom(0, currency, lines)
    {
      assert lines[i..][1..] == lines[i + 1..];
      if lines[i].unitPrice.currency != currency {
        return Err(MixedCurrencies);
      }
      var subtotal := Subtotal(lines[i]);
      if subtotal.Err? {
        return Err(subtotal.fault);
      }
      if amount > Wrap64(MAX64 - subtotal.value) {
        return Err(TotalOutOfRange);
      }
      amount := Wrap64(amount + subtotal.value);
      i := i + 1;
    }
    return Ok(Money(amount, currency));
  }

  /** The checks of a new order, repeats found through the set of SKUs seen so far. */
  method PriceNewOrder(lines: seq<OrderLine>) returns (r: Result<Money>)
    requires forall l :: l in lines ==> l.quantity > 0
    ensures r == Price(lines)
  {
    if |lines| == 0 {
      return Err(NoLines);
    }
    if |lines| > MAX_LINES {
      return Err(TooManyLines);
    }
    var seen: set<string> := {};
    for i := 0 to |lines|
      invariant seen == set j | 0 <= j < i :: lines[j].sku
      invariant forall a, b :: 0 <= a < b < i ==> lines[a].sku != lines[b].sku
    {
      if lines[i].sku in seen {
        assert RepeatsSku(lines);
        return Err(SkuTwice);
      }
      seen := seen + {lines[i].sku};
    }
    r := Sum(lines);
  }
}
