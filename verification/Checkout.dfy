/** The whole of a checkout call, from the lookup of its key to the return of a hold it could not use,
    with nothing else running in between. */
module Checkout {
  import opened OrderTotals
  import L = CanonicalLines
  import R = Reservations
  import I = StockLedger
  import U = InventoryUseCases
  import O = Orders
  import T = OrderTables
  import S = CheckoutSaga

  datatype Request = Request(user: nat, key: string, hash: nat, lines: seq<L.Line>)

  datatype Stores = Stores(tables: T.Tables, outbox: seq<O.Event>, db: I.Db)

  function ReplyTo(placing: T.Placing): S.Reply {
    match placing
    case Created(row) => S.Placed(row.id)
    case Replayed(order) => S.Placed(order)
    case KeyReused => S.KeyReused
    case Invalid(_) => S.Error
  }

  /** What becomes of a request to inventory: it is answered, its answer is lost, or it never gets there. */
  datatype Reach = Answered | AnswerLost | Undelivered

  /** How checkout's transaction ends: it commits, something in it or its commit fails, or its commit lands
      although it was reported as failed. */
  datatype Ending = Commits | RollsBack | LandsUnseen

  /** What goes wrong during one call: with its reserve, its transaction and its release. */
  datatype Faults = Faults(reserve: Reach, ending: Ending, release: Reach)

  function GivenBack(db: I.Db, reservation: nat, now: int, release: Reach): I.Db {
    if release.Undelivered? then db else U.SettleNow(db, R.Release, reservation, now).0
  }

  /** The transaction, once a reservation is held for its lines, and the release of one it could not use. */
  function PlaceNow(w: Stores, q: Request, id: nat, reservation: nat, lines: seq<OrderLine>, now: int, x: Faults)
    : (Stores, S.Reply)
    requires forall l :: l in lines ==> l.quantity > 0
  {
    var back := GivenBack(w.db, reservation, now, x.release);
    var (tables, events, placing) := T.PlaceTx(w.tables, q.user, q.key, q.hash, id, reservation, lines, now);
    if x.ending.RollsBack? then (w.(db := back), S.Error)
    else if !placing.Created? then (w.(db := back), ReplyTo(placing))
    else if x.ending.Commits? then (Stores(tables, w.outbox + events, w.db), S.Placed(id))
    else (Stores(tables, w.outbox + events, back), S.Error)
  }

  /** What is left to do of a call once its lines are priced. */
  function ReserveAndPlace(w: Stores, q: Request, id: nat, lines: seq<OrderLine>, now: int, ttl: int, x: Faults)
    : (Stores, S.Reply)
    requires forall l :: l in lines ==> l.quantity > 0
  {
    if x.reserve.Undelivered? then (w, S.Error)
    else
      var (held, answer) := U.ReserveNow(w.db, id, T.HoldRequest(q.lines), now, ttl);
      if answer.Failed? || x.reserve.AnswerLost? then (w.(db := held), S.Error)
      else PlaceNow(w.(db := held), q, id, answer.id, lines, now, x)
  }

  function CheckoutNow(w: Stores, q: Request, prices: map<string, Money>, id: nat, now: int, ttl: int, x: Faults)
    : (Stores, S.Reply)
  {
    if q.lines == [] then (w, S.Error)
    else if (q.user, q.key) in w.tables.claims then
      var claim := w.tables.claims[(q.user, q.key)];
      (w, if claim.hash == q.hash then S.Placed(claim.order) else S.KeyReused)
    else
      match T.PriceLines(q.lines, prices)
      case Err(_) => (w, S.Error)
      case Ok(lines) => ReserveAndPlace(w, q, id, lines, now, ttl, x)
  }

  // ---------------------------------------------------------------------------
  // What a call leaves behind

  /** Taking stock for canonical lines and giving it back leaves every count as it was. */
  lemma TakenThenReturned(stock: map<string, I.Stock>, lines: seq<L.Line>)
    requires L.Positive(lines) && L.StrictlySorted(lines)
    requires forall s :: s in stock ==> 0 <= stock[s].available && 0 <= stock[s].reserved && I.Storable(stock[s])
    requires I.MoveAll(I.Take, stock, lines).Shifted?
    ensures I.MoveAll(I.GiveBack, I.MoveAll(I.Take, stock, lines).stock, lines) == I.Shifted(stock)
  {
    var taken := I.MoveAll(I.Take, stock, lines).stock;
    I.MoveAllEffect(I.Take, stock, lines);
    forall s | s in stock
      ensures s in taken && taken[s].available == stock[s].available - L.Total(lines, s)
      ensures taken[s].reserved == stock[s].reserved + L.Total(lines, s) && taken[s].reserved <= I.INT_MAX
    {
      I.MoveAllCounts(I.Take, stock, lines, s);
      I.MoveAllStaysAbove(I.Take, stock, lines, s);
    }
    I.ReturnFits(taken, lines);
    I.MoveAllEffect(I.GiveBack, taken, lines);
    var back := I.MoveAll(I.GiveBack, taken, lines).stock;
    forall s | s in stock ensures s in back && back[s] == stock[s] {
      I.MoveAllCounts(I.GiveBack, taken, lines, s);
    }
    assert back == stock;
  }

  /** A fresh order's hold, and its release. */
  lemma HeldThenReleased(db: I.Db, deposits: map<string, int>, id: nat, lines: seq<L.Line>, expiresAt: int, now: int)
    requires I.RowsOk(db) && I.Conserved(db, deposits) && I.HeldBy(db.rows, id) < 0
    requires L.StrictlySorted(lines) && L.Positive(lines) && I.ReserveWrite(db, id, lines, expiresAt).1.Done?
    ensures var held := I.ReserveWrite(db, id, lines, expiresAt).0;
            && I.ReserveWrite(db, id, lines, expiresAt).1 == I.Done(|db.rows|)
            && held.rows == db.rows + [R.Hold(id, lines, R.Held, expiresAt, 1)]
            && U.SettleNow(held, R.Release, |db.rows|, now).0
               == I.Db(db.stock, db.rows + [R.Hold(id, lines, R.Released, expiresAt, 2)])
  {
    forall s | s in db.stock
      ensures 0 <= db.stock[s].available && 0 <= db.stock[s].reserved && I.Storable(db.stock[s])
    {
      assert I.Balanced(db, deposits, s);
    }
    TakenThenReturned(db.stock, lines);
    var hold := R.Hold(id, lines, R.Held, expiresAt, 1);
    assert (db.rows + [hold])[|db.rows| := hold.(status := R.Released, version := 2)]
        == db.rows + [hold.(status := R.Released, version := 2)];
  }

  lemma ReservedLines(db: I.Db, id: nat, requested: seq<L.Line>, now: int, ttl: int)
    requires I.HeldBy(db.rows, id) < 0 && U.ReserveNow(db, id, requested, now, ttl).1.Done?
    ensures L.Canonicalise(requested).Canonical?
    ensures var lines := L.Canonicalise(requested).lines;
            && L.StrictlySorted(lines) && L.Positive(lines) && L.SameTotals(lines, requested)
            && U.ReserveNow(db, id, requested, now, ttl) == I.ReserveWrite(db, id, lines, now + ttl)
  {
    L.CanonicalForm(requested);
  }

  /** The row of a fresh order's hold once it is reserved, and once its release got through or did not. */
  lemma NewRow(db: I.Db, deposits: map<string, int>, id: nat, requested: seq<L.Line>, now: int, ttl: int,
               release: Reach)
    requires I.RowsOk(db) && I.Conserved(db, deposits) && I.HeldBy(db.rows, id) < 0
    requires U.ReserveNow(db, id, requested, now, ttl).1.Done?
    ensures var (held, answer) := U.ReserveNow(db, id, requested, now, ttl);
            var hold := R.Hold(id, L.Canonicalise(requested).lines, R.Held, now + ttl, 1);
            && answer.id == |db.rows| && held.rows == db.rows + [hold]
            && GivenBack(held, answer.id, now, release).rows
               == db.rows + [if release.Undelivered? then hold else hold.(status := R.Released, version := 2)]
  {
    ReservedLines(db, id, requested, now, ttl);
    HeldThenReleased(db, deposits, id, L.Canonicalise(requested).lines, now + ttl, now);
  }

  /** Only the new row differs, and the counts are as they were. */
  ghost predicate OnlyReleased(before: I.Db, after: I.Db, id: nat) {
    && after.stock == before.stock && |after.rows| == |before.rows| + 1 && after.rows[..|before.rows|] == before.rows
    && after.rows[|before.rows|].order == id && after.rows[|before.rows|].status == R.Released
  }

  /** Only the new row differs: it is live until its deadline, and what it holds is all that the counts are
      short of, so giving it back restores them. */
  ghost predicate OnlyHeld(before: I.Db, after: I.Db, id: nat, deadline: int) {
    && |after.rows| == |before.rows| + 1 && after.rows[..|before.rows|] == before.rows
    && var hold := after.rows[|before.rows|];
       && hold.order == id && hold.status == R.Held && hold.expiresAt == deadline
       && I.MoveAll(I.GiveBack, after.stock, hold.lines) == I.Shifted(before.stock)
  }

  lemma HoldLeavesOnlyItsRow(db: I.Db, deposits: map<string, int>, id: nat, requested: seq<L.Line>, now: int, ttl: int)
    requires I.RowsOk(db) && I.Conserved(db, deposits) && I.HeldBy(db.rows, id) < 0
    requires U.ReserveNow(db, id, requested, now, ttl).1.Done?
    ensures var (held, answer) := U.ReserveNow(db, id, requested, now, ttl);
            && OnlyHeld(db, held, id, now + ttl)
            && OnlyReleased(db, U.SettleNow(held, R.Release, answer.id, now).0, id)
  {
    ReservedLines(db, id, requested, now, ttl);
    HeldThenReleased(db, deposits, id, L.Canonicalise(requested).lines, now + ttl, now);
  }

  /** A transaction that stores no order, for whatever reason, is followed by the release. */
  lemma UnplacedIsGivenBack(w: Stores, q: Request, id: nat, reservation: nat, lines: seq<OrderLine>, now: int,
                            x: Faults)
    requires forall l :: l in lines ==> l.quantity > 0
    requires id !in PlaceNow(w, q, id, reservation, lines, now, x).0.tables.orders
    ensures PlaceNow(w, q, id, reservation, lines, now, x).0
         == w.(db := GivenBack(w.db, reservation, now, x.release))
  {
  }

  /** A checkout that places no order, whatever went wrong, leaves tables and events as they were. All it can
      leave at inventory is a released hold and the old counts; or, only if the answer to its reserve or the
      whole release was lost, one live hold that ends by itself. */
  lemma UnplacedLeavesNoTrace(w: Stores, deposits: map<string, int>, q: Request, prices: map<string, Money>, id: nat,
                              now: int, ttl: int, x: Faults)
    requires I.RowsOk(w.db) && I.Conserved(w.db, deposits) && I.HeldBy(w.db.rows, id) < 0 && id !in w.tables.orders
    requires id !in CheckoutNow(w, q, prices, id, now, ttl, x).0.tables.orders
    ensures var after := CheckoutNow(w, q, prices, id, now, ttl, x).0;
            && after.tables == w.tables && after.outbox == w.outbox
            && (|| after.db == w.db
                || OnlyReleased(w.db, after.db, id)
                || (OnlyHeld(w.db, after.db, id, now + ttl) && (x.reserve.AnswerLost? || x.release.Undelivered?)))
  {
    if (q.user, q.key) !in w.tables.claims && q.lines != [] && T.PriceLines(q.lines, prices).Ok? {
      var requested := T.HoldRequest(q.lines);
      if U.ReserveNow(w.db, id, requested, now, ttl).1.Done? {
        HoldLeavesOnlyItsRow(w.db, deposits, id, requested, now, ttl);
        if x.reserve.Answered? {
          var (held, answer) := U.ReserveNow(w.db, id, requested, now, ttl);
          var lines := T.PriceLines(q.lines, prices).value;
          UnplacedIsGivenBack(w.(db := held), q, id, answer.id, lines, now, x);
        }
      } else {
        FailedReserveChangesNothing(w.db, id, requested, now, ttl);
      }
    }
  }

  /** The way through a call to an order. */
  lemma PlacedGoesThrough(w: Stores, q: Request, prices: map<string, Money>, id: nat, now: int, ttl: int, x: Faults)
    requires id !in w.tables.orders && id in CheckoutNow(w, q, prices, id, now, ttl, x).0.tables.orders
    ensures T.PriceLines(q.lines, prices).Ok? && T.HoldRequest(q.lines) == q.lines
    ensures var lines := T.PriceLines(q.lines, prices).value;
            var (held, answer) := U.ReserveNow(w.db, id, q.lines, now, ttl);
            var (tables, events, placing) := T.PlaceTx(w.tables, q.user, q.key, q.hash, id, answer.id, lines, now);
            && answer.Done? && placing.Created? && !x.ending.RollsBack?
            && CheckoutNow(w, q, prices, id, now, ttl, x)
               == if x.ending.Commits? then (Stores(tables, w.outbox + events, held), S.Placed(id))
                  else (Stores(tables, w.outbox + events, GivenBack(held, answer.id, now, x.release)), S.Error)
  {
    T.PricedIsHeld(q.lines, prices);
  }

  /** A checkout that places an order sells the lines that were requested at the catalog's prices, and has
      announced the order and nothing else. */
  lemma PlacedIsOrdered(w: Stores, q: Request, prices: map<string, Money>, id: nat, now: int, ttl: int, x: Faults)
    requires I.HeldBy(w.db.rows, id) < 0 && id !in w.tables.orders
    requires id in CheckoutNow(w, q, prices, id, now, ttl, x).0.tables.orders
    ensures var (after, _) := CheckoutNow(w, q, prices, id, now, ttl, x);
            var order := after.tables.orders[id];
            && order.status == O.PendingPayment && order.user == q.user && order.createdAt == now
            && order.reservation == |w.db.rows|
            && Price(order.lines) == Ok(order.total) && T.AtPrices(order.lines, q.lines, prices)
            && after.outbox == w.outbox + [O.OrderPlaced(id, order.reservation, order.total)]
            && after.tables.claims == w.tables.claims[(q.user, q.key) := T.Claim(q.hash, id)]
  {
    PlacedGoesThrough(w, q, prices, id, now, ttl, x);
    T.PricedIsHeld(q.lines, prices);
    ReservedLines(w.db, id, q.lines, now, ttl);
  }

  /** It has a hold of exactly what it sells. The hold is live and the caller is told of the order, unless
      the commit landed unseen; then the caller is told nothing, and the hold is released under the order if
      the release gets through. */
  lemma PlacedIsHeld(w: Stores, deposits: map<string, int>, q: Request, prices: map<string, Money>, id: nat,
                     now: int, ttl: int, x: Faults)
    requires I.RowsOk(w.db) && I.Conserved(w.db, deposits) && I.HeldBy(w.db.rows, id) < 0 && id !in w.tables.orders
    requires id in CheckoutNow(w, q, prices, id, now, ttl, x).0.tables.orders
    ensures var (after, reply) := CheckoutNow(w, q, prices, id, now, ttl, x);
            var order := after.tables.orders[id];
            && reply == (if x.ending.Commits? then S.Placed(id) else S.Error)
            && order.reservation == |w.db.rows| && |after.db.rows| == |w.db.rows| + 1
            && var hold := after.db.rows[order.reservation];
               && hold.order == id && hold.expiresAt == now + ttl
               && hold.status == (if x.ending.Commits? || x.release.Undelivered? then R.Held else R.Released)
               && forall sku :: T.Ordered(order.lines, sku) == L.Total(hold.lines, sku)
  {
    PlacedGoesThrough(w, q, prices, id, now, ttl, x);
    NewRow(w.db, deposits, id, q.lines, now, ttl, x.release);
    ReservedLines(w.db, id, q.lines, now, ttl);
    SameAsRequested(q.lines, prices, L.Canonicalise(q.lines).lines);
  }

  lemma SameAsRequested(requested: seq<L.Line>, prices: map<string, Money>, lines: seq<L.Line>)
    requires T.PriceLines(requested, prices).Ok? && L.SameTotals(lines, requested)
    ensures forall sku :: T.Ordered(T.PriceLines(requested, prices).value, sku) == L.Total(lines, sku)
  {
    T.PricedIsHeld(requested, prices);
    forall sku ensures T.Ordered(T.PriceLines(requested, prices).value, sku) == L.Total(lines, sku) {
      assert L.Total(lines, sku) == L.Total(requested, sku);
    }
  }

  // ---------------------------------------------------------------------------
  // The call itself

  class OrderService {
    const store: T.OrderStore
    const inventory: U.InventoryService

    constructor (store: T.OrderStore, inventory: U.InventoryService)
      ensures this.store == store && this.inventory == inventory
    {
      this.store, this.inventory := store, inventory;
    }

    function View(): Stores
      reads this, store, inventory
    {
      Stores(store.View(), store.outbox, inventory.Tables())
    }

    /** Gives back the hold of a call that got no order, or was told that it got none. */
    method Release(reservation: nat, now: int, release: Reach)
      modifies inventory
      ensures inventory.Tables() == GivenBack(old(inventory.Tables()), reservation, now, release)
    {
      if !release.Undelivered? {
        var settled := inventory.Settle(R.Release, reservation, now);
      }
    }

    method Checkout(q: Request, prices: map<string, Money>, id: nat, now: int, x: Faults) returns (r: S.Reply)
      modifies store, inventory
      ensures (View(), r) == CheckoutNow(old(View()), q, prices, id, now, inventory.reservationTtl, x)
    {
      if |q.lines| == 0 {
        return S.Error;
      }
      if (q.user, q.key) in store.claims {
        var claim := store.claims[(q.user, q.key)];
        return if claim.hash == q.hash then S.Placed(claim.order) else S.KeyReused;
      }
      var priced := T.PriceRequest(q.lines, prices);
      if priced.Err? || x.reserve.Undelivered? {
        return S.Error;
      }
      var held := inventory.ReserveStock(id, T.HoldRequest(q.lines), now);
      if held.Failed? || x.reserve.AnswerLost? {
        return S.Error;
      }
      var ok, placing := store.Place(q.user, q.key, q.hash, id, held.id, priced.value, now, x.ending.RollsBack?);
      if ok && placing.Created? && x.ending.Commits? {
        return S.Placed(id);
      }
      NothingPlaced(old(store.View()), q, id, held.id, priced.value, now);
      assert old(store.outbox) + [] == old(store.outbox);
      Release(held.id, now, x.release);
      return if ok && !placing.Created? then ReplyTo(placing) else S.Error;
    }
  }

  lemma FailedReserveChangesNothing(db: I.Db, id: nat, requested: seq<L.Line>, now: int, ttl: int)
    requires U.ReserveNow(db, id, requested, now, ttl).1.Failed?
    ensures U.ReserveNow(db, id, requested, now, ttl).0 == db
  {
  }

  lemma NothingPlaced(t: T.Tables, q: Request, id: nat, reservation: nat, lines: seq<OrderLine>, now: int)
    requires forall l :: l in lines ==> l.quantity > 0
    ensures var (after, events, placing) := T.PlaceTx(t, q.user, q.key, q.hash, id, reservation, lines, now);
            placing.Created? || (after == t && events == [])
  {
  }
}
