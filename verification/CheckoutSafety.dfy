/** Nothing is sold for an order that was not paid for, and nothing an order owns is given back while
    the order stands; whatever interleaves, repeats or crashes. */
module CheckoutSafety {
  import opened OrderTotals
  import opened CheckoutSaga
  import L = CanonicalLines
  import R = Reservations
  import I = StockLedger
  import P = Delivery
  import O = Orders
  import T = OrderTables
  import LedgerSafety
  import DeliverySafety

  // ---------------------------------------------------------------------------
  // What every step leaves standing

  ghost predicate CallGrows(a: Call, b: Call) {
    && b == a.(asked := b.asked, phase := b.phase) && (a.asked ==> b.asked)
    && (Past(a.phase) ==> Past(b.phase)) && (a.phase.Ended? ==> b.phase.Ended?)
  }

  ghost predicate OrderGrows(a: O.Row, b: O.Row) {
    b == a.(status := b.status, version := b.version) && (a.status != O.PendingPayment ==> b.status == a.status)
  }

  ghost predicate CallsGrow(s: State, t: State) {
    forall c :: c in s.calls ==> c in t.calls && CallGrows(s.calls[c], t.calls[c])
  }

  ghost predicate ClaimsGrow(a: T.Tables, b: T.Tables) {
    forall k :: k in a.claims ==> k in b.claims && b.claims[k] == a.claims[k]
  }

  ghost predicate OrdersGrow(a: T.Tables, b: T.Tables) {
    forall o :: o in a.orders ==> o in b.orders && OrderGrows(a.orders[o], b.orders[o])
  }

  /** Only a call that holds stock places an order, and then it has ended. */
  ghost predicate OrdersArePlaced(s: State, t: State) {
    forall o :: o in t.tables.orders && o !in s.tables.orders ==>
      o in s.calls && s.calls[o].phase.Holding? && o in t.calls && t.calls[o].phase.Ended?
  }

  ghost predicate PipeGrows(a: P.State<O.Event>, b: P.State<O.Event>) {
    && |a.rows| <= |b.rows|
    && forall i :: 0 <= i < |a.rows| ==> b.rows[i] == a.rows[i].(published := b.rows[i].published)
  }

  ghost predicate Extends(s: State, t: State) {
    && LedgerSafety.Grows(s.stock.db.rows, t.stock.db.rows)
    && CallsGrow(s, t) && ClaimsGrow(s.tables, t.tables) && OrdersGrow(s.tables, t.tables) && OrdersArePlaced(s, t)
    && PipeGrows(s.pipe, t.pipe)
    && s.settles <= t.settles && s.stock.answered <= t.stock.answered
  }

  lemma CallStays(s: State, t: State, c: nat)
    requires Extends(s, t) && c in s.calls && CallOk(s, c)
    requires t.calls[c] == s.calls[c]
    ensures CallOk(t, c)
  {
    var call := s.calls[c];
    if !call.phase.Ended? {
      assert c !in t.tables.orders;
    }
    if call.phase.Holding? || call.phase.Undoing? {
      HoldForStays(s, t, call.phase.reservation, c);
    }
  }

  lemma HoldForStays(s: State, t: State, r: nat, o: nat)
    requires Extends(s, t) && HoldFor(s.stock.db.rows, r, o)
    ensures HoldFor(t.stock.db.rows, r, o)
  {
    assert I.Follows(s.stock.db.rows[r], t.stock.db.rows[r]);
  }

  lemma OrderStays(s: State, t: State, o: nat)
    requires Extends(s, t) && o in s.tables.orders && OrderOk(s, o)
    ensures o in t.tables.orders && OrderOk(t, o)
  {
    HoldForStays(s, t, s.tables.orders[o].reservation, o);
    assert OrderGrows(s.tables.orders[o], t.tables.orders[o]) && CallGrows(s.calls[o], t.calls[o]);
  }

  lemma HoldStays(s: State, t: State, r: nat)
    requires Extends(s, t) && r < |s.stock.db.rows| && HoldOk(s, r)
    requires t.stock.db.rows[r].status == s.stock.db.rows[r].status || t.stock.db.rows[r].status == R.Expired
    ensures HoldOk(t, r)
  {
    assert I.Follows(s.stock.db.rows[r], t.stock.db.rows[r]);
    assert CallGrows(s.calls[s.stock.db.rows[r].order], t.calls[s.stock.db.rows[r].order]);
  }

  lemma OpenStays(s: State, t: State, tx: nat)
    requires Extends(s, t) && tx in s.stock.open && OpenOk(s, tx)
    requires tx in t.stock.open && t.stock.open[tx] == s.stock.open[tx]
    ensures OpenOk(t, tx)
  {
    match s.stock.open[tx]
    case Reserving(order, _, _, _, _) => assert CallGrows(s.calls[order], t.calls[order]);
    case Settling(_, _, _, _) =>
  }

  lemma EventStays(a: T.Tables, b: T.Tables, e: O.Event)
    requires OrdersGrow(a, b) && EventOk(a, e)
    ensures EventOk(b, e)
  {
    assert OrderGrows(a.orders[e.order], b.orders[e.order]);
  }

  lemma SettleStays(s: State, t: State, a: (R.Kind, nat))
    requires Extends(s, t) && SettleOk(s, a)
    ensures SettleOk(t, a)
  {
    var o := s.stock.db.rows[a.1].order;
    assert I.Follows(s.stock.db.rows[a.1], t.stock.db.rows[a.1]);
    if o in s.calls {
      assert CallGrows(s.calls[o], t.calls[o]);
    }
    if o in s.tables.orders {
      assert OrderGrows(s.tables.orders[o], t.tables.orders[o]);
    }
  }

  // ---------------------------------------------------------------------------
  // What a step adds

  ghost predicate NewCalls(s: State, t: State) {
    forall c :: c in t.calls && !(c in s.calls && t.calls[c] == s.calls[c]) ==> CallOk(t, c)
  }

  ghost predicate NewOrders(s: State, t: State) {
    && (forall o :: o in t.tables.orders && o !in s.tables.orders ==> OrderOk(t, o))
    && (forall k :: k in t.tables.claims && k !in s.tables.claims ==> ClaimOk(t, k))
  }

  ghost predicate HoldsMove(s: State, t: State, r: nat) {
    && r < |s.stock.db.rows| && r < |t.stock.db.rows|
    && (t.stock.db.rows[r].status == s.stock.db.rows[r].status || t.stock.db.rows[r].status == R.Expired)
  }

  ghost predicate NewStock(s: State, t: State) {
    && (forall r :: 0 <= r < |t.stock.db.rows| && !HoldsMove(s, t, r) ==> HoldOk(t, r))
    && (forall tx :: tx in t.stock.open && !(tx in s.stock.open && t.stock.open[tx] == s.stock.open[tx]) ==>
         OpenOk(t, tx))
    && (forall a :: a in t.settles && a !in s.settles ==> SettleOk(t, a))
  }

  ghost predicate NewPosts(s: State, t: State) {
    && (forall i :: |s.pipe.rows| <= i < |t.pipe.rows| ==> PostedOk(t.tables, t.pipe.rows[i]))
    && (forall id :: id in t.pipe.inbox && id !in s.pipe.inbox ==> InboxOk(t, id))
  }

  lemma CallsKept(s: State, t: State)
    requires Ties(s) && Extends(s, t) && NewCalls(s, t)
    ensures forall c :: c in t.calls ==> CallOk(t, c)
  {
    forall c | c in t.calls ensures CallOk(t, c) {
      if c in s.calls && t.calls[c] == s.calls[c] { CallStays(s, t, c); }
    }
  }

  lemma OrdersKept(s: State, t: State)
    requires Ties(s) && Extends(s, t) && NewOrders(s, t)
    ensures forall o :: o in t.tables.orders ==> OrderOk(t, o)
    ensures forall k :: k in t.tables.claims ==> ClaimOk(t, k)
  {
    forall o | o in t.tables.orders ensures OrderOk(t, o) {
      if o in s.tables.orders { OrderStays(s, t, o); }
    }
    forall k | k in t.tables.claims ensures ClaimOk(t, k) {
      if k in s.tables.claims {
        assert ClaimOk(s, k);
        var o := s.tables.claims[k].order;
        assert CallGrows(s.calls[o], t.calls[o]);
      }
    }
  }

  lemma StockKept(s: State, t: State)
    requires Ties(s) && Extends(s, t) && NewStock(s, t)
    ensures forall r :: 0 <= r < |t.stock.db.rows| ==> HoldOk(t, r)
    ensures forall tx :: tx in t.stock.open ==> OpenOk(t, tx)
    ensures forall a :: a in t.settles ==> SettleOk(t, a)
  {
    forall r | 0 <= r < |t.stock.db.rows| ensures HoldOk(t, r) {
      if HoldsMove(s, t, r) { HoldStays(s, t, r); }
    }
    forall tx | tx in t.stock.open ensures OpenOk(t, tx) {
      if tx in s.stock.open && t.stock.open[tx] == s.stock.open[tx] { OpenStays(s, t, tx); }
    }
    forall a | a in t.settles ensures SettleOk(t, a) {
      if a in s.settles { SettleStays(s, t, a); }
    }
  }

  lemma PostsKept(s: State, t: State)
    requires Ties(s) && Extends(s, t) && NewPosts(s, t)
    ensures forall i :: 0 <= i < |t.pipe.rows| ==> PostedOk(t.tables, t.pipe.rows[i])
    ensures forall id :: id in t.pipe.inbox ==> InboxOk(t, id)
  {
    forall i | 0 <= i < |t.pipe.rows| ensures PostedOk(t.tables, t.pipe.rows[i]) {
      if i < |s.pipe.rows| {
        assert PostedOk(s.tables, s.pipe.rows[i]);
        EventStays(s.tables, t.tables, s.pipe.rows[i].event);
      }
    }
    forall id | id in t.pipe.inbox ensures InboxOk(t, id) {
      if id in s.pipe.inbox { assert InboxOk(s, id); }
    }
  }

  /** What stood still stands, and what was added is as it should be. */
  lemma Kept(s: State, t: State)
    requires Ties(s) && Extends(s, t)
    requires NewCalls(s, t) && NewOrders(s, t) && NewStock(s, t) && NewPosts(s, t)
    ensures Ties(t)
  {
    CallsKept(s, t);
    OrdersKept(s, t);
    StockKept(s, t);
    PostsKept(s, t);
  }

  // ---------------------------------------------------------------------------
  // Steps of one call, short of its transaction

  lemma CallMoves(s: State, t: State, c: nat)
    requires Ties(s) && t == s.(calls := t.calls)
    requires c in t.calls && t.calls == s.calls[c := t.calls[c]]
    requires c in s.calls ==> CallGrows(s.calls[c], t.calls[c])
    requires CallOk(t, c)
    ensures Ties(t)
  {
    Kept(s, t);
  }

  lemma PriceMoves(s: State, c: nat, prices: map<string, Money>)
    requires Ties(s) && Enabled(s, Price(c, prices))
    ensures Ties(Next(s, Price(c, prices)))
  {
    var t := Next(s, Price(c, prices));
    var call := s.calls[c];
    assert CallOk(s, c);
    if T.PriceLines(call.requested, prices).Ok? {
      T.PricedIsHeld(call.requested, prices);
    }
    CallMoves(s, t, c);
  }

  lemma CallStepMoves(s: State, step: Step)
    requires Ties(s) && Enabled(s, step)
    requires step.Arrive? || step.Replay? || step.Reserved? || step.ReserveFails? || step.PlaceFails? || step.Undone?
             || step.Crash?
    ensures Ties(Next(s, step))
  {
    var t := Next(s, step);
    var c := step.c;
    if c in s.calls { assert CallOk(s, c); }
    forall o | o in s.tables.orders ensures o in s.calls {
      assert OrderOk(s, o);
    }
    CallMoves(s, t, c);
  }

  // ---------------------------------------------------------------------------
  // Settles asked for

  lemma AskMoves(s: State, t: State, a: (R.Kind, nat))
    requires Ties(s) && t == s.(settles := s.settles + {a}) && SettleOk(s, a)
    ensures Ties(t)
  {
    assert Extends(s, t);
    SettleStays(s, t, a);
    Kept(s, t);
  }

  lemma UndoingMayAsk(s: State, c: nat)
    requires Ties(s) && c in s.calls && s.calls[c].phase.Undoing?
    ensures SettleOk(s, (R.Release, s.calls[c].phase.reservation))
  {
    assert CallOk(s, c);
  }

  lemma CarriedMayAsk(s: State, m: nat)
    requires Ties(s) && Carries(s, m)
    ensures SettleOk(s, Errand(Carried(s, m)))
  {
    assert PostedOk(s.tables, s.pipe.rows[P.Hand(s.pipe, m)]);
    assert OrderOk(s, Carried(s, m).order);
  }

  // ---------------------------------------------------------------------------
  // Events posted

  function RowsOf(events: seq<O.Event>): (r: seq<P.Row<O.Event>>)
    ensures |r| == |events| && forall i :: 0 <= i < |r| ==> r[i] == RowOf(events[i])
  {
    if events == [] then [] else [RowOf(events[0])] + RowsOf(events[1..])
  }

  ghost predicate AllVisible(pipe: P.State<O.Event>) {
    forall i :: 0 <= i < |pipe.rows| ==> pipe.rows[i].state == P.Visible
  }

  /** Posting is the pipeline's own two steps: the row is written, and its transaction commits. */
  lemma PostIs(pipe: P.State<O.Event>, e: O.Event)
    ensures Post(pipe, e) == P.Next(P.Next(pipe, P.Write(e.order, e, Wanted(e))), P.Show(|pipe.rows|))
  {
  }

  lemma {:induction false} PostAllIs(pipe: P.State<O.Event>, events: seq<O.Event>)
    ensures PostAll(pipe, events) == pipe.(rows := pipe.rows + RowsOf(events))
    decreases |events|
  {
    if events == [] {
      assert pipe.rows + [] == pipe.rows;
    } else {
      PostAllIs(Post(pipe, events[0]), events[1..]);
      assert pipe.rows + RowsOf(events) == (pipe.rows + [RowOf(events[0])]) + RowsOf(events[1..]);
    }
  }

  lemma PostKeepsPipe(pipe: P.State<O.Event>, e: O.Event)
    requires P.Inv(pipe) && AllVisible(pipe)
    ensures P.Inv(Post(pipe, e))
  {
    var write := P.Write(e.order, e, Wanted(e));
    PostIs(pipe, e);
    DeliverySafety.StepKeepsInv(pipe, write);
    DeliverySafety.StepKeepsInv(P.Next(pipe, write), P.Show(|pipe.rows|));
  }

  lemma {:induction false} PostAllKeepsPipe(pipe: P.State<O.Event>, events: seq<O.Event>)
    requires P.Inv(pipe) && AllVisible(pipe)
    ensures P.Inv(PostAll(pipe, events))
    decreases |events|
  {
    if events != [] {
      PostKeepsPipe(pipe, events[0]);
      PostAllKeepsPipe(Post(pipe, events[0]), events[1..]);
    }
  }

  ghost predicate EventsOk(t: T.Tables, events: seq<O.Event>) {
    forall i :: 0 <= i < |events| ==> EventOk(t, events[i])
  }

  lemma PostsAreOk(s: State, t: State, events: seq<O.Event>)
    requires t.pipe == PostAll(s.pipe, events) && EventsOk(t.tables, events)
    ensures PipeGrows(s.pipe, t.pipe) && NewPosts(s, t)
  {
    PostAllIs(s.pipe, events);
    forall i | |s.pipe.rows| <= i < |t.pipe.rows| ensures PostedOk(t.tables, t.pipe.rows[i]) {
      assert t.pipe.rows[i] == RowOf(events[i - |s.pipe.rows|]);
    }
  }

  // ---------------------------------------------------------------------------
  // The order service's transactions

  /** Orders move on, none appears, and the events say what became of them. */
  ghost predicate OrdersMove(a: T.Tables, b: T.Tables, events: seq<O.Event>) {
    && b.claims == a.claims && b.orders.Keys == a.orders.Keys && OrdersGrow(a, b) && EventsOk(b, events)
  }

  lemma TablesMove(s: State, t: State, events: seq<O.Event>)
    requires Ties(s) && OrdersMove(s.tables, t.tables, events)
    requires t == s.(tables := t.tables, pipe := PostAll(s.pipe, events))
    ensures Ties(t)
  {
    PostsAreOk(s, t, events);
    assert Extends(s, t);
    Kept(s, t);
  }

  ghost predicate IdsOk(t: T.Tables) {
    forall o :: o in t.orders ==> t.orders[o].id == o
  }

  lemma OneMoves(t: T.Tables, o: nat, cause: O.Cause)
    requires IdsOk(t) && o in t.orders && O.Attempt(cause, t.orders[o]).Moved?
    ensures var b := T.Written(t, o, t.orders[o].(status := O.Target(cause)));
            IdsOk(b) && OrdersMove(t, b, [O.Announcement(cause, t.orders[o])])
  {
  }

  lemma OrdersGrowThrough(a: T.Tables, b: T.Tables, c: T.Tables)
    requires OrdersGrow(a, b) && OrdersGrow(b, c)
    ensures OrdersGrow(a, c)
  {
    forall o | o in a.orders ensures o in c.orders && OrderGrows(a.orders[o], c.orders[o]) {
      assert OrderGrows(a.orders[o], b.orders[o]) && OrderGrows(b.orders[o], c.orders[o]);
    }
  }

  /** The whole batch, by the orders one at a time. */
  lemma {:induction false} SweepMoves(t: T.Tables, now: int, window: int, claimed: seq<nat>)
    requires IdsOk(t) && T.SweepLoop(t, now, window, claimed).Swept?
    ensures var swept := T.SweepLoop(t, now, window, claimed); OrdersMove(t, swept.tables, swept.events)
    decreases |claimed|
  {
    if claimed != [] {
      var cause := O.Timeout(now, window);
      if claimed[0] in t.orders && O.Attempt(cause, t.orders[claimed[0]]).Moved? {
        var next := T.Written(t, claimed[0], t.orders[claimed[0]].(status := O.Cancelled));
        OneMoves(t, claimed[0], cause);
        SweepMoves(next, now, window, claimed[1..]);
        var rest := T.SweepLoop(next, now, window, claimed[1..]);
        OrdersGrowThrough(t, next, rest.tables);
        var first := O.Announcement(cause, t.orders[claimed[0]]);
        assert EventOk(next, [first][0]);
        EventStays(next, rest.tables, first);
      } else {
        SweepMoves(t, now, window, claimed[1..]);
      }
    }
  }

  lemma InvIds(s: State)
    requires Ties(s)
    ensures IdsOk(s.tables)
  {
    forall o | o in s.tables.orders ensures s.tables.orders[o].id == o {
      assert OrderOk(s, o);
    }
  }

  /** Tables written by a transaction, with the events it raised. */
  ghost predicate Writes(s: State, t: State, tables: T.Tables, events: seq<O.Event>) {
    t == s.(tables := tables, pipe := PostAll(s.pipe, events))
  }

  lemma MarkPaidMoves(s: State, t: State, event: nat, order: nat)
    requires Ties(s) && Writes(s, t, T.PayTx(s.tables, event, order).0, T.PayTx(s.tables, event, order).1)
    ensures Ties(t)
  {
    InvIds(s);
    var (tables, events, _) := T.PayTx(s.tables, event, order);
    if event !in s.tables.inbox && order in s.tables.orders && O.Attempt(O.Payment, s.tables.orders[order]).Moved? {
      OneMoves(s.tables.(inbox := s.tables.inbox + {event}), order, O.Payment);
    }
    assert OrdersMove(s.tables, tables, events);
    TablesMove(s, t, events);
  }

  lemma ExpireStaleMoves(s: State, t: State, now: int, window: int, claimed: seq<nat>)
    requires Ties(s)
    requires Writes(s, t, T.SweepTx(s.tables, now, window, claimed).0, T.SweepTx(s.tables, now, window, claimed).1)
    ensures Ties(t)
  {
    InvIds(s);
    var (tables, events, _) := T.SweepTx(s.tables, now, window, claimed);
    if T.SweepLoop(s.tables, now, window, claimed).Swept? {
      SweepMoves(s.tables, now, window, claimed);
    }
    TablesMove(s, t, events);
  }

  // ---------------------------------------------------------------------------
  // Placing

  lemma PlaceMoves(s: State, c: nat, now: int)
    requires Ties(s) && Enabled(s, Place(c, now))
    ensures Ties(Next(s, Place(c, now)))
  {
    var t := Next(s, Place(c, now));
    var (tables, events, placing) := Placing(s, c, now);
    assert CallOk(s, c);
    if placing.Created? {
      assert events == [events[0]];
      CreatesMoves(s, t, c, placing.row, events[0]);
    } else {
      assert t == s.(calls := t.calls);
      CallMoves(s, t, c);
    }
  }

  /** What Checkout's transaction writes when the key is free and the lines make an order. */
  ghost predicate Creates(s: State, t: State, c: nat, row: O.Row, event: O.Event) {
    && c in s.calls && s.calls[c].phase.Holding?
    && t == s.(tables := t.tables, pipe := PostAll(s.pipe, [event]),
               calls := s.calls[c := s.calls[c].(phase := Ended(Placed(c)))])
    && (s.calls[c].user, s.calls[c].key) !in s.tables.claims
    && t.tables == s.tables.(orders := s.tables.orders[c := row],
                             claims := s.tables.claims[(s.calls[c].user, s.calls[c].key)
                                                       := T.Claim(s.calls[c].hash, c)])
    && row.id == c && row.user == s.calls[c].user && row.lines == s.calls[c].phase.lines
    && row.reservation == s.calls[c].phase.reservation && row.status == O.PendingPayment
    && event.OrderPlaced? && event.order == c
  }

  lemma CreatesExtends(s: State, t: State, c: nat, row: O.Row, event: O.Event)
    requires Creates(s, t, c, row, event) && c !in s.tables.orders && PipeGrows(s.pipe, t.pipe)
    ensures Extends(s, t)
  {
  }

  lemma CreatesOrder(s: State, t: State, c: nat, row: O.Row, event: O.Event)
    requires Creates(s, t, c, row, event) && CallOk(s, c)
    ensures NewCalls(s, t) && NewOrders(s, t)
  {
    assert OrderOk(t, c);
    assert CallOk(t, c);
  }

  lemma SameStock(s: State, t: State)
    requires t.stock == s.stock && t.settles == s.settles
    ensures NewStock(s, t)
  {
  }

  lemma CreatesAdds(s: State, t: State, c: nat, row: O.Row, event: O.Event)
    requires Creates(s, t, c, row, event) && CallOk(s, c)
    ensures Extends(s, t) && NewCalls(s, t) && NewOrders(s, t) && NewPosts(s, t)
  {
    PostsAreOk(s, t, [event]);
    CreatesExtends(s, t, c, row, event);
    CreatesOrder(s, t, c, row, event);
  }

  lemma CreatesMoves(s: State, t: State, c: nat, row: O.Row, event: O.Event)
    requires Ties(s) && Creates(s, t, c, row, event)
    ensures Ties(t)
  {
    assert CallOk(s, c);
    CreatesAdds(s, t, c, row, event);
    SameStock(s, t);
    Kept(s, t);
  }

  // ---------------------------------------------------------------------------
  // The pipeline and the ledger

  lemma PipeStepGrows(pipe: P.State<O.Event>, d: P.Step<O.Event>)
    requires P.Enabled(pipe, d) && !d.Write? && !d.Show? && !d.Undo?
    ensures PipeGrows(pipe, P.Next(pipe, d)) && |P.Next(pipe, d).rows| == |pipe.rows|
    ensures forall id :: id in P.Next(pipe, d).inbox && id !in pipe.inbox ==> d.Accept? && id == P.Hand(pipe, d.m)
  {
  }

  lemma PipeAlone(s: State, t: State)
    requires t == s.(pipe := t.pipe) && PipeGrows(s.pipe, t.pipe) && |t.pipe.rows| == |s.pipe.rows|
    requires forall id :: id in t.pipe.inbox && id !in s.pipe.inbox ==> InboxOk(t, id)
    ensures Extends(s, t) && NewCalls(s, t) && NewOrders(s, t) && NewStock(s, t) && NewPosts(s, t)
  {
  }

  /** A step of the pipeline, within what the services do with it. */
  ghost predicate Pipes(s: State, t: State, d: P.Step<O.Event>) {
    P.Enabled(s.pipe, d) && Delivered(s, d) && t == s.(pipe := P.Next(s.pipe, d))
  }

  lemma AcceptDoesItsErrand(s: State, t: State, d: P.Step<O.Event>, id: nat)
    requires Pipes(s, t, d) && id in t.pipe.inbox && id !in s.pipe.inbox
    ensures InboxOk(t, id)
  {
    PipeStepGrows(s.pipe, d);
  }

  lemma PipeMoves(s: State, t: State, d: P.Step<O.Event>)
    requires Ties(s) && Pipes(s, t, d)
    ensures Ties(t)
  {
    PipeStepGrows(s.pipe, d);
    forall id | id in t.pipe.inbox && id !in s.pipe.inbox ensures InboxOk(t, id) {
      AcceptDoesItsErrand(s, t, d, id);
    }
    PipeAlone(s, t);
    Kept(s, t);
  }

  /** A sweep expires holds, and changes nothing else about any. */
  lemma {:induction false} SweepExpires(db: I.Db, now: int, claimed: seq<nat>)
    requires I.SweepLoop(db, now, claimed).Swept?
    ensures var after := I.SweepLoop(db, now, claimed).db;
            && |after.rows| == |db.rows|
            && forall r :: 0 <= r < |db.rows| ==>
                 after.rows[r].status == db.rows[r].status || after.rows[r].status == R.Expired
    decreases |claimed|
  {
    if claimed != [] {
      var hold := db.rows[claimed[0]];
      if R.Attempt(R.Expire, hold, now).Moved? {
        SweepExpires(I.SettleTx(db, R.Expire, claimed[0], hold, now).0, now, claimed[1..]);
      } else {
        SweepExpires(db, now, claimed[1..]);
      }
    }
  }

  lemma SettleMovesOne(db: I.Db, kind: R.Kind, id: nat, copy: R.Hold, now: int)
    requires id < |db.rows| && I.Follows(copy, db.rows[id])
    ensures var after := I.SettleTx(db, kind, id, copy, now).0;
            && |after.rows| == |db.rows|
            && forall r :: 0 <= r < |db.rows| && after.rows[r] != db.rows[r] ==>
                 r == id && after.rows[r].status == R.Target(kind)
  {
    LedgerSafety.SettleEndsHold(db, kind, id, copy, now);
  }

  lemma SettleCloses(s: State, t: State, tx: nat, r: nat)
    requires Extends(s, t) && tx in s.stock.open && s.stock.open[tx].Settling? && OpenOk(s, tx)
    requires r < |s.stock.db.rows| && HoldOk(s, r) && r < |t.stock.db.rows| && t.settles == s.settles
    requires r == s.stock.open[tx].id && t.stock.db.rows[r].status == R.Target(s.stock.open[tx].kind)
    ensures HoldOk(t, r)
  {
    assert I.Follows(s.stock.db.rows[r], t.stock.db.rows[r]);
    assert CallGrows(s.calls[s.stock.db.rows[r].order], t.calls[s.stock.db.rows[r].order]);
  }

  /** What closing a transaction may do to the rows. */
  ghost predicate Closes(rows: seq<R.Hold>, after: seq<R.Hold>, open: I.Open) {
    match open
    case Reserving(order, lines, _, _, _) =>
      after == rows || (|after| == |rows| + 1 && rows == after[..|rows|]
                        && after[|rows|].order == order && after[|rows|].lines == lines
                        && after[|rows|].status == R.Held)
    case Settling(kind, id, _, _) =>
      && |after| == |rows|
      && forall r :: 0 <= r < |rows| && after[r] != rows[r] ==> r == id && after[r].status == R.Target(kind)
  }

  lemma CloseCloses(stock: I.State, tx: nat)
    requires tx in stock.open && I.OpenOk(stock.db.rows, stock.open[tx])
    ensures Closes(stock.db.rows, I.Next(stock, I.Close(tx)).db.rows, stock.open[tx])
  {
    var open := stock.open[tx];
    if open.Settling? {
      SettleMovesOne(stock.db, open.kind, open.id, open.copy, open.now);
    }
  }

  lemma ClosedHolds(s: State, t: State, tx: nat)
    requires Ties(s) && Extends(s, t) && t.settles == s.settles
    requires tx in s.stock.open && Closes(s.stock.db.rows, t.stock.db.rows, s.stock.open[tx])
    requires t.stock.open == s.stock.open - {tx}
    ensures NewStock(s, t)
  {
    assert OpenOk(s, tx);
    forall r | 0 <= r < |t.stock.db.rows| && !HoldsMove(s, t, r) ensures HoldOk(t, r) {
      if s.stock.open[tx].Settling? {
        SettleCloses(s, t, tx, r);
      } else {
        ReserveCloses(s, t, tx, r);
      }
    }
  }

  lemma ReserveCloses(s: State, t: State, tx: nat, r: nat)
    requires CallsGrow(s, t) && tx in s.stock.open && s.stock.open[tx].Reserving? && OpenOk(s, tx)
    requires Closes(s.stock.db.rows, t.stock.db.rows, s.stock.open[tx])
    requires r < |t.stock.db.rows| && !HoldsMove(s, t, r)
    ensures HoldOk(t, r)
  {
    assert r == |s.stock.db.rows|;
    assert CallGrows(s.calls[s.stock.open[tx].order], t.calls[s.stock.open[tx].order]);
  }

  /** A step of the ledger that the order service asked for. */
  ghost predicate Stocks(s: State, t: State, move: I.Step) {
    I.Enabled(s.stock, move) && Requested(s, move) && t == s.(stock := I.Next(s.stock, move))
  }

  lemma OpeningMoves(s: State, t: State, move: I.Step)
    requires Ties(s) && Stocks(s, t, move) && (move.OpenReserve? || move.OpenSettle?)
    ensures NewStock(s, t)
  {
    if move.OpenReserve? {
      assert CallOk(s, move.order);
      var requested := move.requested;
      if I.Admissible(requested) && L.Canonicalise(requested).Canonical? {
        L.CanonicalForm(requested);
      }
    }
  }

  lemma StockExtends(s: State, t: State, move: I.Step)
    requires I.Inv(s.stock) && Stocks(s, t, move)
    ensures Extends(s, t)
  {
    LedgerSafety.StepConserves(s.stock, move);
    assert s.stock.answered <= I.Next(s.stock, move).answered;
  }

  lemma SweepingMoves(s: State, t: State, move: I.Step)
    requires Stocks(s, t, move) && move.Sweep?
    ensures NewStock(s, t)
  {
    if I.SweepLoop(s.stock.db, move.now, move.claimed).Swept? {
      SweepExpires(s.stock.db, move.now, move.claimed);
    }
  }

  lemma StockMoves(s: State, t: State, move: I.Step)
    requires I.Inv(s.stock) && Ties(s) && Stocks(s, t, move)
    ensures Ties(t)
  {
    StockExtends(s, t, move);
    if move.Close? {
      CloseCloses(s.stock, move.tx);
      ClosedHolds(s, t, move.tx);
    } else if move.OpenReserve? || move.OpenSettle? {
      OpeningMoves(s, t, move);
    } else if move.Sweep? {
      SweepingMoves(s, t, move);
    }
    StockKeepsTies(s, t);
  }

  lemma StockKeepsTies(s: State, t: State)
    requires Ties(s) && Extends(s, t) && NewStock(s, t) && t == s.(stock := t.stock)
    ensures Ties(t)
  {
    Kept(s, t);
  }

  // ---------------------------------------------------------------------------
  // Every run

  lemma StepKeepsTies(s: State, step: Step)
    requires I.Inv(s.stock) && Ties(s) && Enabled(s, step) && !step.PlaceUnknown?
    ensures Ties(Next(s, step))
  {
    match step
    case Arrive(_, _, _, _, _) => CallStepMoves(s, step);
    case Replay(_) => CallStepMoves(s, step);
    case Price(c, prices) => PriceMoves(s, c, prices);
    case Reserved(_, _) => CallStepMoves(s, step);
    case ReserveFails(_) => CallStepMoves(s, step);
    case Place(c, now) => PlaceMoves(s, c, now);
    case PlaceFails(_) => CallStepMoves(s, step);
    case AskRelease(c) =>
      UndoingMayAsk(s, c);
      AskMoves(s, Next(s, step), (R.Release, s.calls[c].phase.reservation));
    case Undone(_) => CallStepMoves(s, step);
    case Crash(_) => CallStepMoves(s, step);
    case MarkPaid(event, order) => MarkPaidMoves(s, Next(s, step), event, order);
    case ExpireStale(now, window, claimed) => ExpireStaleMoves(s, Next(s, step), now, window, claimed);
    case AskSettle(m) =>
      CarriedMayAsk(s, m);
      AskMoves(s, Next(s, step), Errand(Carried(s, m)));
    case Pipe(d) => PipeMoves(s, Next(s, step), d);
    case Stock(move) => StockMoves(s, Next(s, step), move);
  }

  lemma StepKeepsParts(s: State, step: Step)
    requires I.Inv(s.stock) && P.Inv(s.pipe) && AllVisible(s.pipe) && Enabled(s, step)
    ensures I.Inv(Next(s, step).stock) && P.Inv(Next(s, step).pipe)
  {
    if step.Stock? {
      LedgerSafety.StepKeepsInv(s.stock, step.move);
    } else if step.Pipe? {
      DeliverySafety.StepKeepsInv(s.pipe, step.deliver);
    } else if step.Place? || step.PlaceUnknown? {
      PostAllKeepsPipe(s.pipe, Placing(s, step.c, step.now).1);
    } else if step.MarkPaid? {
      PostAllKeepsPipe(s.pipe, T.PayTx(s.tables, step.event, step.order).1);
    } else if step.ExpireStale? {
      PostAllKeepsPipe(s.pipe, T.SweepTx(s.tables, step.now, step.window, step.claimed).1);
    }
  }

  lemma StepKeepsInv(s: State, step: Step)
    requires Inv(s) && Enabled(s, step) && !step.PlaceUnknown?
    ensures Inv(Next(s, step))
  {
    forall i | 0 <= i < |s.pipe.rows| ensures s.pipe.rows[i].state == P.Visible {
      assert PostedOk(s.tables, s.pipe.rows[i]);
    }
    StepKeepsParts(s, step);
    StepKeepsTies(s, step);
  }

  lemma {:induction false} RunKeepsInv(s: State, steps: seq<Step>)
    requires Inv(s) && Legal(s, steps) && Honest(steps)
    ensures Inv(Run(s, steps))
    decreases |steps|
  {
    if steps != [] {
      StepKeepsInv(s, steps[0]);
      forall i | 0 <= i < |steps[1..]| ensures !steps[1..][i].PlaceUnknown? {
        assert steps[1..][i] == steps[i + 1];
      }
      RunKeepsInv(Next(s, steps[0]), steps[1..]);
    }
  }
}
