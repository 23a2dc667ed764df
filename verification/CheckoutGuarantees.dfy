/** What the checkout machine promises in every state it can reach, and the one assumption the promise
    rests on. */
module CheckoutGuarantees {
  import opened OrderTotals
  import opened CheckoutSaga
  import opened CheckoutSafety
  import L = CanonicalLines
  import R = Reservations
  import I = StockLedger
  import P = Delivery
  import O = Orders
  import T = OrderTables
  import DeliverySafety
  import F = Fingerprint

  /** The states that can be reached if no commit reported as failed had landed. */
  ghost predicate Reachable(s: State) {
    exists parts: nat, maxAttempts: nat, steps :: parts > 0 && Reaches(parts, maxAttempts, steps, s)
  }

  ghost predicate Reaches(parts: nat, maxAttempts: nat, steps: seq<Step>, s: State) {
    Legal(Init(parts, maxAttempts), steps) && Honest(steps) && Run(Init(parts, maxAttempts), steps) == s
  }

  lemma InitInv(parts: nat, maxAttempts: nat)
    requires parts > 0
    ensures Inv(Init(parts, maxAttempts))
  {
    DeliverySafety.InitInv<O.Event>(parts, maxAttempts);
  }

  lemma ReachableInv(s: State)
    requires Reachable(s)
    ensures Inv(s)
  {
    var parts: nat, maxAttempts: nat, steps :| parts > 0 && Reaches(parts, maxAttempts, steps, s);
    InitInv(parts, maxAttempts);
    RunKeepsInv(Init(parts, maxAttempts), steps);
  }

  lemma ReachableOn(s: State, more: seq<Step>)
    requires Reachable(s) && Legal(s, more) && Honest(more)
    ensures Reachable(Run(s, more))
  {
    var parts: nat, maxAttempts: nat, steps :| parts > 0 && Reaches(parts, maxAttempts, steps, s);
    RunsOn(Init(parts, maxAttempts), steps, more);
    assert Reaches(parts, maxAttempts, steps + more, Run(s, more));
  }

  /** An order sells, of every SKU, exactly what its reservation was taken for. */
  ghost predicate SellsItsHold(order: O.Row, hold: R.Hold) {
    forall sku :: T.Ordered(order.lines, sku) == L.Total(hold.lines, sku)
  }

  lemma OrderedIsReserved(s: State, o: nat)
    requires Reachable(s) && o in s.tables.orders
    ensures var order := s.tables.orders[o];
            && order.reservation < |s.stock.db.rows|
            && s.stock.db.rows[order.reservation].order == o
            && SellsItsHold(order, s.stock.db.rows[order.reservation])
  {
    ReachableInv(s);
    assert OrderOk(s, o);
    var order := s.tables.orders[o];
    assert HoldOk(s, order.reservation);
    var hold := s.stock.db.rows[order.reservation];
    forall sku ensures T.Ordered(order.lines, sku) == L.Total(hold.lines, sku) {
      assert L.Total(hold.lines, sku) == L.Total(s.calls[o].requested, sku);
    }
  }

  /** Stock is sold only for an order that was paid for, and as much of it as that order sells. Stock
      is given back only if no order owns it or the one that does was cancelled. */
  lemma HoldsEndAsOrdersDo(s: State, r: nat)
    requires Reachable(s) && r < |s.stock.db.rows|
    ensures var hold := s.stock.db.rows[r];
            && (hold.status == R.Committed ==>
                  && hold.order in s.tables.orders
                  && s.tables.orders[hold.order].status == O.Paid
                  && s.tables.orders[hold.order].reservation == r
                  && SellsItsHold(s.tables.orders[hold.order], hold))
            && (hold.status == R.Released && hold.order in s.tables.orders ==>
                  && s.tables.orders[hold.order].status == O.Cancelled
                  && s.tables.orders[hold.order].reservation == r)
  {
    ReachableInv(s);
    assert HoldOk(s, r);
    var hold := s.stock.db.rows[r];
    if hold.status == R.Committed {
      assert SettleOk(s, (R.Commit, r));
      OrderedIsReserved(s, hold.order);
    }
    if hold.status == R.Released {
      assert SettleOk(s, (R.Release, r));
    }
  }

  /** A paid order's stock is held for it, sold to it, or ran out of time; a cancelled order's is never
      sold. No two orders share a hold. */
  lemma OrdersKeepTheirHolds(s: State, o: nat)
    requires Reachable(s) && o in s.tables.orders
    ensures var order := s.tables.orders[o];
            && order.reservation < |s.stock.db.rows|
            && var hold := s.stock.db.rows[order.reservation];
            && (order.status != O.Cancelled ==>
                 hold.status == R.Held || hold.status == R.Committed || hold.status == R.Expired)
            && (order.status != O.Paid ==> hold.status != R.Committed)
            && (forall p :: p in s.tables.orders && p != o ==> s.tables.orders[p].reservation != order.reservation)
  {
    OrderedIsReserved(s, o);
    var order := s.tables.orders[o];
    HoldsEndAsOrdersDo(s, order.reservation);
    ReachableInv(s);
    assert I.RowOk(s.stock.db.stock, s.stock.db.rows[order.reservation]);
    forall p | p in s.tables.orders && p != o ensures s.tables.orders[p].reservation != order.reservation {
      OrderedIsReserved(s, p);
    }
  }

  /** An order that was placed under the call's key for a request with another fingerprint. */
  ghost predicate TakenByAnother(s: State, a: nat, o: nat)
    requires a in s.calls
  {
    && o in s.tables.orders && o in s.calls && s.tables.orders[o].user == s.calls[a].user
    && s.calls[o].user == s.calls[a].user && s.calls[o].key == s.calls[a].key && s.calls[o].hash != s.calls[a].hash
  }

  /** A call is answered with an order of its own user's, and refused its key only if an order exists that
      the key was used for, and not for the same request. */
  lemma AnswersAreTrue(s: State, a: nat)
    requires Reachable(s) && a in s.calls && s.calls[a].phase.Ended?
    ensures var reply := s.calls[a].phase.reply;
            && (reply.Placed? ==>
                 reply.order in s.tables.orders && s.tables.orders[reply.order].user == s.calls[a].user)
            && (reply.KeyReused? ==> exists o :: TakenByAnother(s, a, o))
  {
    ReachableInv(s);
    assert CallOk(s, a);
    var k := (s.calls[a].user, s.calls[a].key);
    if k in s.tables.claims {
      assert ClaimOk(s, k);
      var o := s.tables.claims[k].order;
      assert OrderOk(s, o);
      assert s.calls[a].phase.reply.KeyReused? ==> TakenByAnother(s, a, o);
    }
  }

  /** However calls that share a user and a key interleave, they place one order between them, and any two
      that are answered are answered alike exactly if their fingerprints agree. */
  lemma OneOrderPerKey(s: State, a: nat, b: nat)
    requires Reachable(s) && a in s.calls && b in s.calls
    requires s.calls[a].user == s.calls[b].user && s.calls[a].key == s.calls[b].key
    ensures a in s.tables.orders && b in s.tables.orders ==> a == b
    ensures s.calls[a].phase.Ended? && s.calls[b].phase.Ended? ==>
              var x, y := s.calls[a].phase.reply, s.calls[b].phase.reply;
              && (x.Placed? && y.Placed? ==> x == y && s.calls[a].hash == s.calls[b].hash)
              && (x.Placed? && y.KeyReused? ==> s.calls[a].hash != s.calls[b].hash)
  {
    ReachableInv(s);
    assert CallOk(s, a) && CallOk(s, b);
    if a in s.tables.orders && b in s.tables.orders {
      assert OrderOk(s, a) && OrderOk(s, b);
    }
  }

  /** A fingerprint is a digest of the user and the lines. */
  ghost predicate Fingerprinted(call: Call, digest: string -> nat, name: nat -> string) {
    call.hash == digest(F.Encode(name(call.user), call.requested))
  }

  ghost predicate Collisionless(digest: string -> nat) {
    forall x, y :: digest(x) == digest(y) ==> x == y
  }

  /** With fingerprints that do not collide: of two calls that share user and key, of which one got the
      order, the other got it too if it asked for the same lines, in any order, and was refused if not. */
  lemma SameOrderExactlyForTheSameCart(s: State, a: nat, b: nat, digest: string -> nat, name: nat -> string)
    requires Reachable(s) && a in s.calls && b in s.calls
    requires s.calls[a].user == s.calls[b].user && s.calls[a].key == s.calls[b].key
    requires Collisionless(digest) && F.NUL !in name(s.calls[a].user)
    requires Fingerprinted(s.calls[a], digest, name) && Fingerprinted(s.calls[b], digest, name)
    requires F.ValidLines(s.calls[a].requested) && F.ValidLines(s.calls[b].requested)
    requires s.calls[a].phase.Ended? && s.calls[a].phase.reply.Placed?
    requires s.calls[b].phase.Ended? && !s.calls[b].phase.reply.Error?
    ensures s.calls[b].phase.reply ==
              if multiset(s.calls[a].requested) == multiset(s.calls[b].requested)
              then s.calls[a].phase.reply else KeyReused
  {
    OneOrderPerKey(s, a, b);
    var user := name(s.calls[a].user);
    F.SameBytesSameRequest(user, s.calls[a].requested, user, s.calls[b].requested);
  }

  /** Past the consumer's committed offset nothing was skipped: an event is dead-lettered, or inventory
      has sold a paid order's stock, or has a cancelled order's back. */
  lemma ConsumedIsDone(s: State, p: nat, o: nat)
    requires Reachable(s) && p < |s.pipe.committed| && o < s.pipe.committed[p]
    ensures && p < |s.pipe.logs| && o < |s.pipe.logs[p]| && s.pipe.logs[p][o] < |s.pipe.rows|
            && var event := s.pipe.rows[s.pipe.logs[p][o]].event;
               && ((p, o) in s.pipe.dead || (p, o) in s.pipe.accepted)
               && ((p, o) in s.pipe.accepted && Wanted(event) ==>
                     && event.reservation < |s.stock.db.rows|
                     && var status := s.stock.db.rows[event.reservation].status;
                        if event.OrderPaid? then status == R.Committed else status == R.Released || status == R.Expired)
  {
    ReachableInv(s);
    DealtIsPlaced(s.pipe, p, o);
    var id := s.pipe.logs[p][o];
    assert PostedOk(s.tables, s.pipe.rows[id]);
    if (p, o) in s.pipe.accepted && Wanted(s.pipe.rows[id].event) {
      AcceptedIsClaimed(s.pipe, p, o);
      assert InboxOk(s, id);
      assert I.AnswerOk(s.stock.db.rows, Errand(s.pipe.rows[id].event));
    }
  }

  lemma DealtIsPlaced(pipe: P.State<O.Event>, p: nat, o: nat)
    requires P.Inv(pipe) && p < |pipe.committed| && o < pipe.committed[p]
    ensures p < |pipe.logs| && o < |pipe.logs[p]| && pipe.logs[p][o] < |pipe.rows|
    ensures (p, o) in pipe.dead || (p, o) in pipe.accepted
  {
    assert P.AllDealt(pipe, p, pipe.committed[p]);
    assert P.Dealt(pipe, p, o);
    assert P.EntryOk(pipe.rows, |pipe.logs|, p, pipe.logs[p][o]);
  }

  lemma AcceptedIsClaimed(pipe: P.State<O.Event>, p: nat, o: nat)
    requires P.Inv(pipe) && (p, o) in pipe.accepted
    requires p < |pipe.logs| && o < |pipe.logs[p]| && pipe.logs[p][o] < |pipe.rows| && pipe.rows[pipe.logs[p][o]].wanted
    ensures pipe.logs[p][o] in pipe.inbox
  {
    var a := (p, o);
    assert a in pipe.accepted;
  }

  // ---------------------------------------------------------------------------
  // No unit is sold twice

  /** What the orders whose holds were sold sell of a SKU. */
  function Bought(t: T.Tables, rows: seq<R.Hold>, sku: string): int {
    if rows == [] then 0
    else
      (if rows[0].status == R.Committed && rows[0].order in t.orders
       then T.Ordered(t.orders[rows[0].order].lines, sku) else 0)
      + Bought(t, rows[1..], sku)
  }

  lemma {:induction false} SoldIsBought(t: T.Tables, rows: seq<R.Hold>, sku: string)
    requires forall r :: 0 <= r < |rows| && rows[r].status == R.Committed ==>
               rows[r].order in t.orders && SellsItsHold(t.orders[rows[r].order], rows[r])
    ensures I.Quantity(rows, R.Committed, sku) == Bought(t, rows, sku)
  {
    if rows != [] {
      SoldIsBought(t, rows[1..], sku);
    }
  }

  /** Every unit ever delivered to the shelf is on it, in a live hold, or in one paid order: the sold
      holds belong to as many different orders, and what left inventory is what those orders sell. */
  lemma EveryUnitIsAccountedFor(s: State, sku: string)
    requires Reachable(s) && sku in s.stock.db.stock
    ensures sku in s.stock.deposits
    ensures s.stock.db.stock[sku].available + s.stock.db.stock[sku].reserved + Bought(s.tables, s.stock.db.rows, sku)
         == s.stock.deposits[sku]
    ensures s.stock.db.stock[sku].available >= 0 && s.stock.db.stock[sku].reserved >= 0
    ensures forall q, r :: 0 <= q < r < |s.stock.db.rows| && s.stock.db.rows[q].status == R.Committed &&
                           s.stock.db.rows[r].status == R.Committed
              ==> s.stock.db.rows[q].order != s.stock.db.rows[r].order
  {
    ReachableInv(s);
    var rows := s.stock.db.rows;
    forall r | 0 <= r < |rows| && rows[r].status == R.Committed
      ensures rows[r].order in s.tables.orders && s.tables.orders[rows[r].order].reservation == r
      ensures SellsItsHold(s.tables.orders[rows[r].order], rows[r])
    {
      HoldsEndAsOrdersDo(s, r);
    }
    SoldIsBought(s.tables, rows, sku);
    assert I.Balanced(s.stock.db, s.stock.deposits, sku);
  }
}
