/** The order service's tables and the transactions over them. Every one of them locks the order rows
    it decides about, so each is one step; the events it raises are committed with it. */
module OrderTables {
  import opened OrderTotals
  import opened Orders
  import L = CanonicalLines

  const DEFAULT_SWEEP_LIMIT := 100

  /** What an idempotency key was first used for: the request's fingerprint and the order it got. */
  datatype Claim = Claim(hash: nat, order: nat)

  /** orders by id, idempotency keys by user and key, and the payment events already handled. */
  datatype Tables = Tables(orders: map<nat, Row>, claims: map<(nat, string), Claim>, inbox: set<nat>)

  datatype Failure = OrderNotFound | Refusal(why: Orders.Refusal)

  datatype Reply = Handled | Failed(why: Failure)

  /** An order that has moved, written back with its version bumped. */
  function Written(t: Tables, id: nat, row: Row): Tables {
    t.(orders := t.orders[id := row.(version := row.version + 1)])
  }

  /** MarkPaid: the claim on the delivery, the transition, and the event it raises. */
  function PayTx(t: Tables, event: nat, id: nat): (Tables, seq<Event>, Reply) {
    if event in t.inbox then (t, [], Handled)
    else if id !in t.orders then (t, [], Failed(OrderNotFound))
    else
      var row := t.orders[id];
      var claimed := t.(inbox := t.inbox + {event});
      match Attempt(Payment, row)
      case Refused(why) => (t, [], Failed(Refusal(why)))
      case Unmoved => (claimed, [], Handled)
      case Moved => (Written(claimed, id, row.(status := Paid)), [Announcement(Payment, row)], Handled)
  }

  datatype Placing = Created(row: Row) | Replayed(order: nat) | KeyReused | Invalid(fault: Fault)

  /** Checkout's transaction: the key, then the order and the event announcing it. */
  function PlaceTx(t: Tables, user: nat, key: string, hash: nat, id: nat, reservation: nat, lines: seq<OrderLine>,
                   now: int)
    : (Tables, seq<Event>, Placing)
    requires forall l :: l in lines ==> l.quantity > 0
  {
    if (user, key) in t.claims then
      var claim := t.claims[(user, key)];
      (t, [], if claim.hash == hash then Replayed(claim.order) else KeyReused)
    else
      match NewOrder(id, user, reservation, lines)
      case Err(fault) => (t, [], Invalid(fault))
      case Ok(placed) =>
        var row := placed.row.(createdAt := now);
        (t.(claims := t.claims[(user, key) := Claim(hash, id)], orders := t.orders[id := row]),
         placed.events, Created(row))
  }

  datatype Swept = Swept(tables: Tables, events: seq<Event>, count: nat) | SweepFailed(why: Orders.Refusal)

  /** The timeout sweep's loop over the orders it claimed. Losing a race to a payment, or to the
      clock, skips the order; any other refusal fails the batch. */
  function SweepLoop(t: Tables, now: int, window: int, claimed: seq<nat>): Swept
    decreases |claimed|
  {
    if claimed == [] then Swept(t, [], 0)
    else if claimed[0] !in t.orders then SweepLoop(t, now, window, claimed[1..])
    else
      var row := t.orders[claimed[0]];
      match Attempt(Timeout(now, window), row)
      case Refused(why) =>
        if why == WasPaid || why == NotExpired then SweepLoop(t, now, window, claimed[1..]) else SweepFailed(why)
      case Unmoved => SweepLoop(t, now, window, claimed[1..])
      case Moved =>
        Later(SweepLoop(Written(t, claimed[0], row.(status := Cancelled)), now, window, claimed[1..]),
              [Announcement(Timeout(now, window), row)], 1)
  }

  function Later(s: Swept, events: seq<Event>, count: nat): Swept {
    match s
    case SweepFailed(_) => s
    case Swept(t, e, n) => Swept(t, events + e, n + count)
  }

  function SweepTx(t: Tables, now: int, window: int, claimed: seq<nat>): (Tables, seq<Event>, nat) {
    match SweepLoop(t, now, window, claimed)
    case SweepFailed(_) => (t, [], 0)
    case Swept(after, events, n) => (after, events, n)
  }

  // ---------------------------------------------------------------------------
  // What the transactions leave

  /** A payment that is handled leaves the order paid and says so once; handling its event again, for
      whatever order, changes nothing. One that is refused leaves no claim behind, so it can be retried. */
  lemma PaymentIsHandledOnce(t: Tables, event: nat, id: nat, again: nat)
    ensures var (after, events, reply) := PayTx(t, event, id);
            && (reply.Handled? ==> event in after.inbox && PayTx(after, event, again) == (after, [], Handled))
            && (reply.Handled? <==>
                  event in t.inbox || (id in t.orders && t.orders[id].status in {PendingPayment, Paid}))
            && (reply.Failed? ==>
                  && after == t && events == []
                  && reply.why == if id !in t.orders then OrderNotFound else Refusal(WasCancelled))
            && (reply.Handled? && event !in t.inbox ==>
                  && id in t.orders && id in after.orders && after.orders[id].status == Paid
                  && events == if t.orders[id].status == Paid then []
                               else [OrderPaid(t.orders[id].id, t.orders[id].reservation, t.orders[id].total)])
            && (forall o :: o in t.orders && o != id ==> o in after.orders && after.orders[o] == t.orders[o])
  {
  }

  /** An order the sweep may end: still waiting for payment at the end of its window. */
  predicate Stale(row: Row, now: int, window: int) {
    row.status == PendingPayment && row.createdAt + window <= now
  }

  /** A sweep with a real window cancels exactly the stale orders among those it claimed; orders it lost a
      race for stay as they are. */
  lemma {:induction false} SweepCancelsTheStale(t: Tables, now: int, window: int, claimed: seq<nat>)
    requires window > 0
    ensures SweepLoop(t, now, window, claimed).Swept?
    ensures var s := SweepLoop(t, now, window, claimed);
            && s.count == |s.events| <= |claimed|
            && s.tables.orders.Keys == t.orders.Keys && s.tables.claims == t.claims && s.tables.inbox == t.inbox
            && forall o :: o in t.orders ==>
                 s.tables.orders[o] == if o in claimed && Stale(t.orders[o], now, window)
                                       then t.orders[o].(status := Cancelled, version := t.orders[o].version + 1)
                                       else t.orders[o]
    decreases |claimed|
  {
    if claimed != [] {
      var o := claimed[0];
      assert claimed == [o] + claimed[1..];
      if o in t.orders && Attempt(Timeout(now, window), t.orders[o]).Moved? {
        SweepCancelsTheStale(Written(t, o, t.orders[o].(status := Cancelled)), now, window, claimed[1..]);
      } else {
        SweepCancelsTheStale(t, now, window, claimed[1..]);
      }
    }
  }

  function StaleAmong(t: Tables, now: int, window: int, claimed: seq<nat>): set<nat> {
    set o | o in claimed && o in t.orders && Stale(t.orders[o], now, window)
  }

  lemma StaleAfterFirst(t: Tables, now: int, window: int, claimed: seq<nat>)
    requires claimed != []
    ensures var o := claimed[0];
            if o in t.orders && Stale(t.orders[o], now, window)
            then
              var next := Written(t, o, t.orders[o].(status := Cancelled));
              && StaleAmong(t, now, window, claimed) == StaleAmong(next, now, window, claimed[1..]) + {o}
              && o !in StaleAmong(next, now, window, claimed[1..])
            else StaleAmong(t, now, window, claimed) == StaleAmong(t, now, window, claimed[1..])
  {
    assert claimed == [claimed[0]] + claimed[1..];
  }

  ghost predicate Announces(t: Tables, stale: set<nat>, events: seq<Event>) {
    forall o :: o in stale ==>
      o in t.orders && OrderCancelled(t.orders[o].id, t.orders[o].reservation) in events
  }

  lemma AnnouncesOneMore(t: Tables, o: nat, row: Row, stale: set<nat>, events: seq<Event>)
    requires o in t.orders && Announces(Written(t, o, row), stale, events) && o !in stale
    ensures Announces(t, stale + {o}, events + [OrderCancelled(t.orders[o].id, t.orders[o].reservation)])
  {
  }

  /** Each of some orders counted once, and the cancellation of each announced. */
  ghost predicate Tells(t: Tables, s: Swept, stale: set<nat>) {
    s.Swept? && s.count == |s.events| == |stale| && Announces(t, stale, s.events)
  }

  lemma TellsOneMore(t: Tables, o: nat, row: Row, rest: Swept, stale: set<nat>)
    requires o in t.orders && o !in stale && Tells(Written(t, o, row), rest, stale)
    ensures Tells(t, Later(rest, [OrderCancelled(t.orders[o].id, t.orders[o].reservation)], 1), stale + {o})
  {
    AnnouncesOneMore(t, o, row, stale, rest.events);
  }

  lemma SweepTurn(t: Tables, now: int, window: int, claimed: seq<nat>)
    requires window > 0 && claimed != []
    ensures var o := claimed[0];
            SweepLoop(t, now, window, claimed)
              == if o in t.orders && Stale(t.orders[o], now, window)
                 then Later(SweepLoop(Written(t, o, t.orders[o].(status := Cancelled)), now, window, claimed[1..]),
                            [OrderCancelled(t.orders[o].id, t.orders[o].reservation)], 1)
                 else SweepLoop(t, now, window, claimed[1..])
  {
  }

  lemma TellsThroughTurn(t: Tables, now: int, window: int, claimed: seq<nat>)
    requires window > 0 && claimed != [] && claimed[0] in t.orders && Stale(t.orders[claimed[0]], now, window)
    requires var next := Written(t, claimed[0], t.orders[claimed[0]].(status := Cancelled));
             Tells(next, SweepLoop(next, now, window, claimed[1..]), StaleAmong(next, now, window, claimed[1..]))
    ensures Tells(t, SweepLoop(t, now, window, claimed), StaleAmong(t, now, window, claimed))
  {
    var o := claimed[0];
    var row := t.orders[o].(status := Cancelled);
    var next := Written(t, o, row);
    SweepTurn(t, now, window, claimed);
    StaleAfterFirst(t, now, window, claimed);
    TellsOneMore(t, o, row, SweepLoop(next, now, window, claimed[1..]), StaleAmong(next, now, window, claimed[1..]));
  }

  /** It counts each of them once, and announces the cancellation of each. */
  lemma {:induction false} SweepAnnouncesTheStale(t: Tables, now: int, window: int, claimed: seq<nat>)
    requires window > 0
    ensures Tells(t, SweepLoop(t, now, window, claimed), StaleAmong(t, now, window, claimed))
    decreases |claimed|
  {
    if claimed == [] {
      assert StaleAmong(t, now, window, claimed) == {};
    } else {
      var o := claimed[0];
      if o in t.orders && Stale(t.orders[o], now, window) {
        SweepAnnouncesTheStale(Written(t, o, t.orders[o].(status := Cancelled)), now, window, claimed[1..]);
        TellsThroughTurn(t, now, window, claimed);
      } else {
        SweepAnnouncesTheStale(t, now, window, claimed[1..]);
        SweepTurn(t, now, window, claimed);
        StaleAfterFirst(t, now, window, claimed);
      }
    }
  }

  /** And one without a window cancels nothing, whatever it claimed. */
  lemma {:induction false} NoWindowNoSweep(t: Tables, now: int, window: int, claimed: seq<nat>)
    requires window <= 0
    ensures SweepTx(t, now, window, claimed) == (t, [], 0)
    decreases |claimed|
  {
    if claimed != [] && claimed[0] !in t.orders {
      NoWindowNoSweep(t, now, window, claimed[1..]);
    }
  }

  // ---------------------------------------------------------------------------
  // Pricing

  /** Every requested line at the catalog's price, or the first that cannot be sold. */
  function PriceLines(requested: seq<L.Line>, prices: map<string, Money>): (r: Result<seq<OrderLine>>)
    ensures r.Ok? ==> forall l :: l in r.value ==> l.quantity > 0
    decreases |requested|
  {
    if requested == [] then Ok([])
    else
      var line := requested[0];
      if line.sku !in prices then Err(NotSellable)
      else
        match NewOrderLine(line.sku, line.quantity, prices[line.sku])
        case Err(fault) => Err(fault)
        case Ok(built) =>
          match PriceLines(requested[1..], prices)
          case Err(fault) => Err(fault)
          case Ok(rest) => Ok([built] + rest)
  }

  function Prefixed(done: seq<OrderLine>, rest: Result<seq<OrderLine>>): Result<seq<OrderLine>> {
    match rest
    case Err(fault) => rest
    case Ok(lines) => Ok(done + lines)
  }

  method PriceRequest(requested: seq<L.Line>, prices: map<string, Money>) returns (r: Result<seq<OrderLine>>)
    ensures r == PriceLines(requested, prices)
  {
    var lines: seq<OrderLine> := [];
    var i := 0;
    assert requested[0..] == requested;
    assert forall rest: seq<OrderLine> :: lines + rest == rest;
    while i < |requested|
      invariant 0 <= i <= |requested|
      invariant PriceLines(requested, prices) == Prefixed(lines, PriceLines(requested[i..], prices))
    {
      assert requested[i..][1..] == requested[i + 1..];
      var line := requested[i];
      if line.sku !in prices {
        return Err(NotSellable);
      }
      var built := NewOrderLine(line.sku, line.quantity, prices[line.sku]);
      if built.Err? {
        return Err(built.fault);
      }
      assert forall rest: seq<OrderLine> :: lines + ([built.value] + rest) == (lines + [built.value]) + rest;
      lines := lines + [built.value];
      i := i + 1;
    }
    assert lines + [] == lines;
    return Ok(lines);
  }

  /** What a count becomes on the wire to inventory. */
  function Narrow(n: int): int {
    if n < 0 then 0 else if n > 0x7FFF_FFFF then 0x7FFF_FFFF else n
  }

  /** The lines inventory is asked to hold. */
  function HoldRequest(requested: seq<L.Line>): seq<L.Line> {
    if requested == [] then []
    else [L.Line(requested[0].sku, Narrow(requested[0].quantity))] + HoldRequest(requested[1..])
  }

  /** The quantity of a SKU that an order sells. */
  function Ordered(lines: seq<OrderLine>, sku: string): int {
    if lines == [] then 0 else (if lines[0].sku == sku then lines[0].quantity else 0) + Ordered(lines[1..], sku)
  }

  lemma {:induction false} OrderedIsTotal(lines: seq<OrderLine>, requested: seq<L.Line>, sku: string)
    requires |lines| == |requested|
    requires forall i :: 0 <= i < |lines| ==>
               lines[i].sku == requested[i].sku && lines[i].quantity == requested[i].quantity
    ensures Ordered(lines, sku) == L.Total(requested, sku)
  {
    if lines != [] {
      OrderedIsTotal(lines[1..], requested[1..], sku);
    }
  }

  /** The requested lines, each at the catalog's price. */
  ghost predicate AtPrices(lines: seq<OrderLine>, requested: seq<L.Line>, prices: map<string, Money>) {
    && |lines| == |requested|
    && forall i :: 0 <= i < |lines| ==>
         && requested[i].sku in prices
         && lines[i] == OrderLine(requested[i].sku, requested[i].quantity, prices[requested[i].sku])
  }

  /** A line that can be sold: named, a countable number of times, and priced. */
  ghost predicate Sellable(line: L.Line, prices: map<string, Money>) {
    && line.sku != "" && 1 <= line.quantity <= 10_000
    && line.sku in prices && prices[line.sku] != Money(0, "")
  }

  ghost predicate AllSellable(requested: seq<L.Line>, prices: map<string, Money>) {
    forall l :: l in requested ==> Sellable(l, prices)
  }

  lemma SellableFirst(requested: seq<L.Line>, prices: map<string, Money>)
    requires requested != []
    ensures AllSellable(requested, prices)
       <==> Sellable(requested[0], prices) && AllSellable(requested[1..], prices)
  {
    assert requested == [requested[0]] + requested[1..];
  }

  /** A request can be priced exactly if every line of it can be sold. */
  lemma {:induction false} PricedIff(requested: seq<L.Line>, prices: map<string, Money>)
    ensures PriceLines(requested, prices).Ok? <==> AllSellable(requested, prices)
    decreases |requested|
  {
    if requested != [] {
      PricedIff(requested[1..], prices);
      SellableFirst(requested, prices);
    }
  }

  /** It then becomes its own lines at the catalog's prices, and no count of it is narrowed. */
  lemma {:induction false} PricedAre(requested: seq<L.Line>, prices: map<string, Money>)
    requires PriceLines(requested, prices).Ok?
    ensures AtPrices(PriceLines(requested, prices).value, requested, prices)
    ensures HoldRequest(requested) == requested && L.Requested(requested)
    decreases |requested|
  {
    if requested != [] {
      PricedAre(requested[1..], prices);
    }
  }

  /** So an order that was priced sells of every SKU what was asked for. */
  lemma PricedIsHeld(requested: seq<L.Line>, prices: map<string, Money>)
    requires PriceLines(requested, prices).Ok?
    ensures HoldRequest(requested) == requested && L.Requested(requested)
    ensures AtPrices(PriceLines(requested, prices).value, requested, prices)
    ensures forall sku :: Ordered(PriceLines(requested, prices).value, sku) == L.Total(requested, sku)
  {
    PricedAre(requested, prices);
    forall sku ensures Ordered(PriceLines(requested, prices).value, sku) == L.Total(requested, sku) {
      OrderedIsTotal(PriceLines(requested, prices).value, requested, sku);
    }
  }

  // ---------------------------------------------------------------------------
  // The service over its tables

  class OrderStore {
    var orders: map<nat, Row>
    var claims: map<(nat, string), Claim>
    var inbox: set<nat>
    var outbox: seq<Event>

    constructor ()
      ensures View() == Tables(map[], map[], {}) && outbox == []
    {
      orders, claims, inbox, outbox := map[], map[], {}, [];
    }

    function View(): Tables
      reads this
    {
      Tables(orders, claims, inbox)
    }

    /** Writes the status of an order that has moved, if the row still has the version the order was read
        at, and posts what it raised. A writer that comes too late changes nothing and is told. */
    method Update(id: nat, order: Order) returns (ok: bool)
      modifies this, order
      ensures ok <==> id in old(orders) && old(orders)[id].version == order.version
      ensures ok ==>
                && orders == old(orders)[id
                             := old(orders)[id].(status := old(order.status), version := order.version + 1)]
                && claims == old(claims) && inbox == old(inbox)
                && outbox == old(outbox) + old(order.events) && order.events == []
      ensures !ok ==> View() == old(View()) && outbox == old(outbox) && order.View() == old(order.View())
    {
      if id !in orders || orders[id].version != order.version {
        return false;
      }
      orders := orders[id := orders[id].(status := order.status, version := orders[id].version + 1)];
      var pulled := order.PullEvents();
      outbox := outbox + pulled;
      return true;
    }

    /** Nothing is kept of a delivery whose order refuses: the claim goes back with the rest. */
    method MarkPaid(event: nat, id: nat) returns (r: Reply)
      modifies this
      ensures var (after, events, reply) := PayTx(old(View()), event, id);
              View() == after && outbox == old(outbox) + events && r == reply
    {
      if event in inbox {
        return Handled;
      }
      if id !in orders {
        return Failed(OrderNotFound);
      }
      var order := new Order(orders[id]);
      var moved := order.MarkPaid();
      if moved.Refused? {
        return Failed(Refusal(moved.why));
      }
      inbox := inbox + {event};
      if moved.Moved? {
        var written := Update(id, order);
        assert written;
      }
      return Handled;
    }

    /** Checkout's transaction. A statement of it that fails, or a commit that does, takes it all back. */
    method Place(user: nat, key: string, hash: nat, id: nat, reservation: nat, lines: seq<OrderLine>, now: int,
                 fails: bool)
      returns (ok: bool, r: Placing)
      requires forall l :: l in lines ==> l.quantity > 0
      modifies this
      ensures ok == !fails
      ensures ok ==> var (after, events, placing) := PlaceTx(old(View()), user, key, hash, id, reservation, lines, now);
                     View() == after && outbox == old(outbox) + events && r == placing
      ensures !ok ==> View() == old(View()) && outbox == old(outbox)
    {
      if (user, key) in claims {
        var claim := claims[(user, key)];
        return !fails, if claim.hash == hash then Replayed(claim.order) else KeyReused;
      }
      var total := PriceNewOrder(lines);
      if total.Err? {
        return !fails, Invalid(total.fault);
      }
      var orders0, claims0, outbox0 := orders, claims, outbox;
      var order := new Order.Placed(id, user, reservation, lines, total.value);
      var row := order.View().row.(createdAt := now);
      claims := claims[(user, key) := Claim(hash, id)];
      orders := orders[id := row];
      var pulled := order.PullEvents();
      outbox := outbox + pulled;
      if fails {
        orders, claims, outbox := orders0, claims0, outbox0;
      }
      return !fails, Created(row);
    }

    /** One sweep over the orders the database handed it, in one transaction. */
    method ExpireStaleOrders(now: int, window: int, limit: int, claimed: seq<nat>) returns (expired: nat)
      requires |claimed| <= if limit <= 0 then DEFAULT_SWEEP_LIMIT else limit
      modifies this
      ensures var (after, events, count) := SweepTx(old(View()), now, window, claimed);
              View() == after && outbox == old(outbox) + events && expired == count
    {
      var orders0, outbox0 := orders, outbox;
      expired := 0;
      var i := 0;
      while i < |claimed|
        invariant 0 <= i <= |claimed|
        invariant outbox0 <= outbox && claims == old(claims) && inbox == old(inbox)
        invariant SweepLoop(old(View()), now, window, claimed)
               == Later(SweepLoop(View(), now, window, claimed[i..]), outbox[|outbox0|..], expired)
      {
        assert claimed[i..][1..] == claimed[i + 1..];
        if claimed[i] in orders {
          var order := new Order(orders[claimed[i]]);
          var moved := order.Expire(now, window);
          if moved.Refused? {
            if moved.why != WasPaid && moved.why != NotExpired {
              orders, outbox := orders0, outbox0;
              return 0;
            }
          } else if moved.Moved? {
            ghost var before := outbox[|outbox0|..];
            var written := Update(claimed[i], order);
            assert written;
            assert outbox[|outbox0|..] == before + [OrderCancelled(order.id, order.reservation)];
            ghost var rest := SweepLoop(View(), now, window, claimed[i + 1..]);
            LaterTwice(rest, before, [OrderCancelled(order.id, order.reservation)], expired);
            expired := expired + 1;
          }
        }
        i := i + 1;
      }
      assert outbox[|outbox0|..] + [] == outbox[|outbox0|..];
    }
  }

  lemma LaterTwice(s: Swept, first: seq<Event>, second: seq<Event>, n: nat)
    ensures Later(Later(s, second, 1), first, n) == Later(s, first + second, n + 1)
  {
    if s.Swept? {
      assert first + (second + s.events) == first + second + s.events;
    }
  }
}
