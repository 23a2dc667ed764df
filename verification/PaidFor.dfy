/** The checkout machine and the payment service side by side: what the one reads of the other's orders,
    and what the other believes of the one's payments. */
module PaidFor {
  import opened OrderTotals
  import opened CheckoutGuarantees
  import S = CheckoutSaga
  import V = CheckoutSafety
  import C = Charging
  import ChargingRuns
  import Payments
  import R = Reservations
  import O = Orders
  import T = OrderTables

  datatype State = State(shop: S.State, bank: C.State)

  datatype Step = Shop(order: S.Step) | Bank(payment: C.Step)

  function Init(parts: nat, maxAttempts: nat): State {
    State(S.Init(parts, maxAttempts), C.INIT)
  }

  /** Whether the payment service has published that an order's money is in. An attempt publishes one ending
      at most, so the attempt's id stands for that event's. */
  ghost predicate Announced(bank: C.State, event: nat, order: nat) {
    && event in bank.tables.attempts
    && exists e :: e in bank.tables.attempts[event].published && e.PaymentSucceeded? && e.order == order
  }

  /** Whose order it is, and what it comes to. */
  predicate Owes(t: T.Tables, order: nat, user: nat, amount: Money) {
    order in t.orders && t.orders[order].user == user && t.orders[order].total == amount
  }

  /** What the order service says of an order to the user who asks: that it is waiting to be paid, and its
      total; or nothing that could be charged for. */
  predicate Answers(t: T.Tables, call: C.Call, payable: bool, total: Money) {
    payable ==> Owes(t, call.order, call.user, total) && t.orders[call.order].status == O.PendingPayment
  }

  /** Each service on its own, except where they meet: orders are read as they are, and only published
      payments are recorded, any number of times and in any order. */
  ghost predicate Enabled(s: State, step: Step) {
    match step
    case Shop(x) =>
      S.Enabled(s.shop, x) && !x.PlaceUnknown? && (x.MarkPaid? ==> Announced(s.bank, x.event, x.order))
    case Bank(x) =>
      C.Enabled(s.bank, x) && (x.ReadOrder? ==> Answers(s.shop.tables, s.bank.calls[x.c], x.payable, x.total))
  }

  ghost function Next(s: State, step: Step): State
    requires Enabled(s, step)
  {
    match step
    case Shop(x) => s.(shop := S.Next(s.shop, x))
    case Bank(x) => s.(bank := C.Next(s.bank, x))
  }

  ghost predicate Legal(s: State, steps: seq<Step>)
    decreases |steps|
  {
    steps == [] || (Enabled(s, steps[0]) && Legal(Next(s, steps[0]), steps[1..]))
  }

  ghost function Run(s: State, steps: seq<Step>): State
    requires Legal(s, steps)
    decreases |steps|
  {
    if steps == [] then s else Run(Next(s, steps[0]), steps[1..])
  }

  // ---------------------------------------------------------------------------
  // The invariant

  /** Every attempt, and every call about to record one, is for what its order comes to. */
  ghost predicate Owed(t: T.Tables, bank: C.State) {
    && (forall p :: p in bank.tables.attempts ==>
          var row := bank.tables.attempts[p].row; Owes(t, row.order, row.user, row.amount))
    && (forall c :: c in bank.calls && bank.calls[c].phase.Ready? ==>
          Owes(t, bank.calls[c].order, bank.calls[c].user, bank.calls[c].phase.amount))
  }

  ghost predicate Succeeded(bank: C.Tables, p: nat, order: nat) {
    p in bank.attempts && bank.attempts[p].row.status == Payments.Succeeded && bank.attempts[p].row.order == order
  }

  ghost predicate Collected(t: T.Tables, bank: C.Tables) {
    forall o :: o in t.orders && t.orders[o].status == O.Paid ==> exists p :: Succeeded(bank, p, o)
  }

  ghost predicate Inv(s: State) {
    Reachable(s.shop) && C.Inv(s.bank) && Owed(s.shop.tables, s.bank) && Collected(s.shop.tables, s.bank.tables)
  }

  // ---------------------------------------------------------------------------
  // The order service's steps

  /** Orders are never taken back or repriced, and only the one that was paid for becomes paid. */
  ghost predicate OrdersStand(a: T.Tables, b: T.Tables, paid: set<nat>) {
    && V.OrdersGrow(a, b)
    && forall o :: o in b.orders && b.orders[o].status == O.Paid ==>
         o in paid || (o in a.orders && a.orders[o].status == O.Paid)
  }

  lemma {:induction false} SweepPaysNone(t: T.Tables, now: int, window: int, claimed: seq<nat>)
    requires T.SweepLoop(t, now, window, claimed).Swept?
    ensures OrdersStand(t, T.SweepLoop(t, now, window, claimed).tables, {})
    decreases |claimed|
  {
    if claimed != [] {
      var o := claimed[0];
      if o in t.orders && O.Attempt(O.Timeout(now, window), t.orders[o]).Moved? {
        var next := T.Written(t, o, t.orders[o].(status := O.Cancelled));
        SweepPaysNone(next, now, window, claimed[1..]);
        V.OrdersGrowThrough(t, next, T.SweepLoop(next, now, window, claimed[1..]).tables);
      } else {
        SweepPaysNone(t, now, window, claimed[1..]);
      }
    }
  }

  lemma HoldingHasNoOrder(s: S.State, c: nat)
    requires S.Inv(s) && c in s.calls && s.calls[c].phase.Holding?
    ensures c !in s.tables.orders
  {
    assert S.CallOk(s, c);
  }

  lemma PlacePaysNone(s: S.State, c: nat, now: int)
    requires c in s.calls && s.calls[c].phase.Holding? && c !in s.tables.orders
    ensures OrdersStand(s.tables, S.Placing(s, c, now).0, {})
  {
  }

  lemma PayTxPaysOne(t: T.Tables, event: nat, order: nat)
    ensures OrdersStand(t, T.PayTx(t, event, order).0, {order})
  {
  }

  lemma ShopStep(s: S.State, x: S.Step)
    requires Reachable(s) && S.Enabled(s, x) && !x.PlaceUnknown?
    ensures OrdersStand(s.tables, S.Next(s, x).tables, if x.MarkPaid? then {x.order} else {})
  {
    if x.Place? {
      assert x.c !in s.tables.orders by {
        ReachableInv(s);
        HoldingHasNoOrder(s, x.c);
      }
      PlacePaysNone(s, x.c, x.now);
    } else if x.MarkPaid? {
      PayTxPaysOne(s.tables, x.event, x.order);
    } else if x.ExpireStale? && T.SweepLoop(s.tables, x.now, x.window, x.claimed).Swept? {
      SweepPaysNone(s.tables, x.now, x.window, x.claimed);
    } else {
      assert S.Next(s, x).tables == s.tables;
    }
  }

  lemma AnnouncedIsSucceeded(bank: C.State, event: nat, order: nat)
    requires C.Inv(bank) && Announced(bank, event, order)
    ensures Succeeded(bank.tables, event, order)
  {
    assert C.AttemptOk(bank, event);
  }

  lemma StaysReachable(s: S.State, x: S.Step)
    requires Reachable(s) && S.Enabled(s, x) && !x.PlaceUnknown?
    ensures Reachable(S.Next(s, x))
  {
    S.OneStep(s, x);
    ReachableOn(s, [x]);
  }

  /** What the payment service relies on survives; and an order that becomes paid has been paid for. */
  lemma ShopKeeps(a: T.Tables, b: T.Tables, paid: set<nat>, bank: C.State)
    requires OrdersStand(a, b, paid) && Owed(a, bank) && Collected(a, bank.tables)
    requires forall o :: o in paid ==> exists p :: Succeeded(bank.tables, p, o)
    ensures Owed(b, bank) && Collected(b, bank.tables)
  {
    forall o | o in a.orders ensures o in b.orders && V.OrderGrows(a.orders[o], b.orders[o]) {}
  }

  // ---------------------------------------------------------------------------
  // The payment service's steps

  /** Attempts are never taken back or repriced, a success stays one, and a new attempt is what a call that
      was ready to record one says. */
  ghost predicate AttemptsStand(a: C.State, b: C.State) {
    && (forall p :: p in a.tables.attempts ==>
          p in b.tables.attempts && Payments.Stands(a.tables.attempts[p].row, b.tables.attempts[p].row))
    && (forall p :: p in b.tables.attempts && p !in a.tables.attempts ==>
          && p in a.calls && a.calls[p].phase.Ready?
          && var row := b.tables.attempts[p].row;
             (row.order, row.user, row.amount) == (a.calls[p].order, a.calls[p].user, a.calls[p].phase.amount))
  }

  lemma SettleStands(s: C.State, payment: nat, answer: Payments.Answer, t: C.State)
    requires C.Inv(s) && t.tables == C.SettleTx(s.tables, payment, answer).0
    ensures AttemptsStand(s, t)
  {
    if payment in s.tables.attempts {
      assert C.AttemptOk(s, payment);
      Payments.ToldKeeps(s.tables.attempts[payment], answer);
    }
  }

  lemma RecordStands(s: C.State, c: nat, t: C.State)
    requires C.Inv(s) && c in s.calls && s.calls[c].phase.Ready? && t.tables == C.Attempted(s, c).0
    ensures AttemptsStand(s, t)
  {
    assert C.CallOk(s, c);
  }

  lemma BankStands(s: C.State, x: C.Step)
    requires C.Inv(s) && C.Enabled(s, x)
    ensures AttemptsStand(s, C.Next(s, x))
  {
    var t := C.Next(s, x);
    if x.Record? || x.RecordUnknown? {
      RecordStands(s, x.c, t);
    } else if x.Answered? {
      SettleStands(s, x.c, x.answer, t);
    } else if x.Callback? {
      SettleStands(s, x.payment, x.answer, t);
    } else {
      assert t.tables == s.tables;
    }
  }

  /** A call is ready to record only what it read. */
  lemma ReadyIsRead(s: C.State, x: C.Step, c: nat)
    requires C.Enabled(s, x) && c in C.Next(s, x).calls && C.Next(s, x).calls[c].phase.Ready?
    ensures var b := C.Next(s, x);
            && c in s.calls && b.calls[c].order == s.calls[c].order && b.calls[c].user == s.calls[c].user
            && (b.calls[c] == s.calls[c]
                || (x.ReadOrder? && x.c == c && x.payable && b.calls[c].phase.amount == x.total))
  {
  }

  lemma BankKeeps(t: T.Tables, s: C.State, x: C.Step)
    requires C.Inv(s) && C.Enabled(s, x) && Owed(t, s) && Collected(t, s.tables)
    requires x.ReadOrder? ==> Answers(t, s.calls[x.c], x.payable, x.total)
    ensures Owed(t, C.Next(s, x)) && Collected(t, C.Next(s, x).tables)
  {
    var b := C.Next(s, x);
    BankStands(s, x);
    forall p | p in b.tables.attempts
      ensures var row := b.tables.attempts[p].row; Owes(t, row.order, row.user, row.amount)
    {
      if p in s.tables.attempts {
        assert Payments.Stands(s.tables.attempts[p].row, b.tables.attempts[p].row);
      }
    }
    forall c | c in b.calls && b.calls[c].phase.Ready?
      ensures Owes(t, b.calls[c].order, b.calls[c].user, b.calls[c].phase.amount)
    {
      ReadyIsRead(s, x, c);
    }
    SuccessesStay(t, s, b);
  }

  lemma SuccessesStay(t: T.Tables, a: C.State, b: C.State)
    requires AttemptsStand(a, b) && Collected(t, a.tables)
    ensures Collected(t, b.tables)
  {
    forall o | o in t.orders && t.orders[o].status == O.Paid ensures exists p :: Succeeded(b.tables, p, o) {
      var p :| Succeeded(a.tables, p, o);
      assert Payments.Stands(a.tables.attempts[p].row, b.tables.attempts[p].row);
      assert Succeeded(b.tables, p, o);
    }
  }

  // ---------------------------------------------------------------------------
  // Every run

  lemma ShopMoves(s: S.State, bank: C.State, x: S.Step)
    requires Reachable(s) && S.Enabled(s, x) && !x.PlaceUnknown? && Owed(s.tables, bank)
    requires Collected(s.tables, bank.tables) && (x.MarkPaid? ==> Succeeded(bank.tables, x.event, x.order))
    ensures Owed(S.Next(s, x).tables, bank) && Collected(S.Next(s, x).tables, bank.tables)
  {
    ShopStep(s, x);
    ShopKeeps(s.tables, S.Next(s, x).tables, if x.MarkPaid? then {x.order} else {}, bank);
  }

  lemma StepKeepsInv(s: State, step: Step)
    requires Inv(s) && Enabled(s, step)
    ensures Inv(Next(s, step))
  {
    match step
    case Shop(x) =>
      if x.MarkPaid? {
        AnnouncedIsSucceeded(s.bank, x.event, x.order);
      }
      StaysReachable(s.shop, x);
      ShopMoves(s.shop, s.bank, x);
    case Bank(x) =>
      C.StepKeepsInv(s.bank, x);
      BankKeeps(s.shop.tables, s.bank, x);
  }

  lemma {:induction false} RunKeepsInv(s: State, steps: seq<Step>)
    requires Inv(s) && Legal(s, steps)
    ensures Inv(Run(s, steps))
    decreases |steps|
  {
    if steps != [] {
      StepKeepsInv(s, steps[0]);
      RunKeepsInv(Next(s, steps[0]), steps[1..]);
    }
  }

  lemma InitIsSound(parts: nat, maxAttempts: nat)
    requires parts > 0
    ensures Inv(Init(parts, maxAttempts))
  {
    var shop := S.Init(parts, maxAttempts);
    assert S.Run(shop, []) == shop && S.Legal(shop, []) && S.Honest([]);
    assert Reaches(parts, maxAttempts, [], shop);
  }

  // ---------------------------------------------------------------------------
  // What was paid for

  /** The one attempt that collected an order's money: exactly its total, from its own user; every other
      attempt for the order was declined. */
  ghost predicate PaidBy(s: State, o: nat, p: nat)
    requires o in s.shop.tables.orders
  {
    var order, attempts := s.shop.tables.orders[o], s.bank.tables.attempts;
    && Succeeded(s.bank.tables, p, o) && attempts[p].row.amount == order.total && attempts[p].row.user == order.user
    && forall q :: q in attempts && q != p && attempts[q].row.order == o ==> attempts[q].row.status == Payments.Failed
  }

  /** However both services interleave, retry and crash: an order is paid only if one attempt collected
      exactly what it comes to, and then no other attempt for it did. */
  lemma PaidOrdersWerePaidFor(parts: nat, maxAttempts: nat, steps: seq<Step>, o: nat)
    requires parts > 0 && Legal(Init(parts, maxAttempts), steps)
    requires var t := Run(Init(parts, maxAttempts), steps).shop.tables;
             o in t.orders && t.orders[o].status == O.Paid
    ensures exists p :: PaidBy(Run(Init(parts, maxAttempts), steps), o, p)
  {
    InitIsSound(parts, maxAttempts);
    RunKeepsInv(Init(parts, maxAttempts), steps);
    CollectedOnce(Run(Init(parts, maxAttempts), steps), o);
  }

  lemma CollectedOnce(s: State, o: nat)
    requires Inv(s) && o in s.shop.tables.orders && s.shop.tables.orders[o].status == O.Paid
    ensures exists p :: PaidBy(s, o, p)
  {
    var p :| Succeeded(s.bank.tables, p, o);
    assert PaidBy(s, o, p);
  }

  /** Stock leaves for money: a hold is sold only to an order whose own user has paid what it comes to,
      once. */
  lemma SoldStockWasPaidFor(parts: nat, maxAttempts: nat, steps: seq<Step>, r: nat)
    requires parts > 0 && Legal(Init(parts, maxAttempts), steps)
    requires var rows := Run(Init(parts, maxAttempts), steps).shop.stock.db.rows;
             r < |rows| && rows[r].status == R.Committed
    ensures var s := Run(Init(parts, maxAttempts), steps);
            var hold := s.shop.stock.db.rows[r];
            && hold.order in s.shop.tables.orders && SellsItsHold(s.shop.tables.orders[hold.order], hold)
            && exists p :: PaidBy(s, hold.order, p)
  {
    InitIsSound(parts, maxAttempts);
    RunKeepsInv(Init(parts, maxAttempts), steps);
    var s := Run(Init(parts, maxAttempts), steps);
    HoldsEndAsOrdersDo(s.shop, r);
    CollectedOnce(s, s.shop.stock.db.rows[r].order);
  }

  // ---------------------------------------------------------------------------
  // That it can be paid for

  ghost predicate CanBePaid(s: State, o: nat) {
    exists steps ::
      && Legal(s, steps)
      && var t := Run(s, steps).shop.tables; o in t.orders && t.orders[o].status == O.Paid
  }

  lemma AfterAStep(s: State, step: Step, o: nat)
    requires Enabled(s, step) && CanBePaid(Next(s, step), o)
    ensures CanBePaid(s, o)
  {
    var t := Next(s, step);
    var rest :| Legal(t, rest) && o in Run(t, rest).shop.tables.orders
                && Run(t, rest).shop.tables.orders[o].status == O.Paid;
    var all := [step] + rest;
    assert all[1..] == rest && Legal(s, all) && Run(s, all) == Run(t, rest);
  }

  /** An order that waits for its money, with a payment call under way for it. */
  ghost predicate Paying(s: State, o: nat, c: nat, phase: C.Phase) {
    && o in s.shop.tables.orders && s.shop.tables.orders[o].status == O.PendingPayment
    && s.shop.tables.orders[o].total.amount > 0 && s.shop.tables.orders[o].total.currency != ""
    && c !in s.shop.tables.inbox
    && c in s.bank.calls && s.bank.calls[c].order == o && s.bank.calls[c].user == s.shop.tables.orders[o].user
    && s.bank.calls[c].phase == phase
  }

  /** Nothing recorded for it, and nothing in the way of recording it. */
  ghost predicate Clear(s: State, o: nat, c: nat) {
    c in s.bank.calls && (s.bank.calls[c].user, s.bank.calls[c].key) !in s.bank.tables.claims
    && !C.Unresolved(s.bank.tables, o)
  }

  ghost predicate OnRecord(s: State, o: nat, c: nat) {
    && c in s.bank.tables.attempts && s.bank.tables.attempts[c].row.status == Payments.Pending
    && s.bank.tables.attempts[c].row.order == o && s.bank.tables.attempts[c].row.reference == ""
  }

  lemma FromAnnounced(s: State, o: nat, c: nat)
    requires Announced(s.bank, c, o) && c !in s.shop.tables.inbox
    requires o in s.shop.tables.orders && s.shop.tables.orders[o].status == O.PendingPayment
    ensures CanBePaid(s, o)
  {
    var step := Shop(S.MarkPaid(c, o));
    var t := Next(s, step);
    assert t.shop.tables == T.PayTx(s.shop.tables, c, o).0;
    assert Legal(t, []) && Run(t, []) == t;
    AfterAStep(s, step, o);
  }

  lemma FromAsked(s: State, o: nat, c: nat)
    requires Paying(s, o, c, C.Asked) && OnRecord(s, o, c)
    ensures CanBePaid(s, o)
  {
    var answer := Payments.Answer(Payments.Succeeded, "r", "");
    var step := Bank(C.Answered(c, answer));
    var stored := s.bank.tables.attempts[c];
    var t := Next(s, step);
    var success := Payments.PaymentSucceeded(stored.row.id, o, stored.row.user, stored.row.amount, "r");
    assert t.bank.tables.attempts[c].published == stored.published + [success];
    assert success in t.bank.tables.attempts[c].published;
    FromAnnounced(t, o, c);
    AfterAStep(s, step, o);
  }

  lemma FromRecorded(s: State, o: nat, c: nat, amount: Money)
    requires Paying(s, o, c, C.Recorded(amount)) && OnRecord(s, o, c)
    ensures CanBePaid(s, o)
  {
    FromAsked(Next(s, Bank(C.Ask(c))), o, c);
    AfterAStep(s, Bank(C.Ask(c)), o);
  }

  lemma FromReady(s: State, o: nat, c: nat, amount: Money)
    requires Paying(s, o, c, C.Ready(amount)) && Clear(s, o, c)
    ensures CanBePaid(s, o)
  {
    FromRecorded(Next(s, Bank(C.Record(c))), o, c, amount);
    AfterAStep(s, Bank(C.Record(c)), o);
  }

  lemma FromReading(s: State, o: nat, c: nat)
    requires Paying(s, o, c, C.Reading) && Clear(s, o, c)
    ensures CanBePaid(s, o)
  {
    var total := s.shop.tables.orders[o].total;
    FromReady(Next(s, Bank(C.ReadOrder(c, true, total))), o, c, total);
    AfterAStep(s, Bank(C.ReadOrder(c, true, total)), o);
  }

  lemma FromChecking(s: State, o: nat, c: nat)
    requires Paying(s, o, c, C.Checking) && Clear(s, o, c)
    ensures CanBePaid(s, o)
  {
    FromReading(Next(s, Bank(C.Replay(c))), o, c);
    AfterAStep(s, Bank(C.Replay(c)), o);
  }

  /** An order of more than nothing that waits for its money, and has no attempt that may still collect it,
      can be paid for: by a new call under an unused key, with nothing going wrong. */
  lemma WaitingOrderCanBePaid(s: State, o: nat, c: nat, key: string, hash: nat)
    requires o in s.shop.tables.orders && s.shop.tables.orders[o].status == O.PendingPayment
    requires s.shop.tables.orders[o].total.amount > 0 && s.shop.tables.orders[o].total.currency != ""
    requires c !in s.bank.calls && c !in s.shop.tables.inbox
    requires (s.shop.tables.orders[o].user, key) !in s.bank.tables.claims && !C.Unresolved(s.bank.tables, o)
    ensures CanBePaid(s, o)
  {
    var step := Bank(C.Arrive(c, s.shop.tables.orders[o].user, key, hash, o));
    FromChecking(Next(s, step), o, c);
    AfterAStep(s, step, o);
  }

  // ---------------------------------------------------------------------------
  // Whole payment calls

  lemma {:induction false} CallRuns(s: State, steps: seq<C.Step>, q: C.Request, x: C.Meets) returns (all: seq<Step>)
    requires C.Legal(s.bank, steps) && ChargingRuns.Told(s.bank, steps, q, x)
    requires Answers(s.shop.tables, C.Call(q.user, q.key, q.hash, q.order, C.Reading), x.payable, x.total)
    ensures Legal(s, all) && Run(s, all) == s.(bank := C.Run(s.bank, steps))
    decreases |steps|
  {
    if steps == [] {
      all := [];
    } else {
      var next := s.(bank := C.Next(s.bank, steps[0]));
      var rest := CallRuns(next, steps[1..], q, x);
      all := [Bank(steps[0])] + rest;
      assert all[1..] == rest && Next(s, Bank(steps[0])) == next;
    }
  }

  /** A payment call that is told the truth about its order, with nothing else in between, is a run of both
      services together: so what it charges for is an order that waits for payment, at its total. */
  lemma InitiateNowIsARunOfBoth(s: State, q: C.Request, x: C.Meets)
    requires q.id !in s.bank.calls
    requires Answers(s.shop.tables, C.Call(q.user, q.key, q.hash, q.order, C.Reading), x.payable, x.total)
    ensures var (after, reply) := C.InitiateNow(C.Books(s.bank.tables, s.bank.charged), q, x);
            exists all ::
              && Legal(s, all) && Run(s, all).shop == s.shop
              && ChargingRuns.Ends(Run(s, all).bank, q.id, after, reply)
  {
    var (after, reply) := C.InitiateNow(C.Books(s.bank.tables, s.bank.charged), q, x);
    ChargingRuns.InitiateNowIsARun(s.bank, q, x);
    var steps :| C.Legal(s.bank, steps) && ChargingRuns.Told(s.bank, steps, q, x)
                 && ChargingRuns.Ends(C.Run(s.bank, steps), q.id, after, reply);
    var all := CallRuns(s, steps, q, x);
  }
}
