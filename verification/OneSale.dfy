/** A run of everything together, with nothing going wrong, from an empty shop to a unit sold: an order
    placed, paid for, announced, delivered, and its hold committed. */
module OneSale {
  import opened CheckoutSaga
  import L = CanonicalLines
  import R = Reservations
  import I = StockLedger
  import P = Delivery
  import O = Orders
  import T = OrderTables
  import LedgerSafety
  import LostCommit
  import Relay

  const PLACED := O.OrderPlaced(7, 0, LostCommit.PRICE)
  const PAID := O.OrderPaid(7, 0, LostCommit.PRICE)

  // ---------------------------------------------------------------------------
  // The pipeline

  ghost function Sold(published: bool): seq<P.Row<O.Event>> {
    [P.Row(7, PLACED, false, P.Visible, published), P.Row(7, PAID, true, P.Visible, published)]
  }

  /** Steps of the relay and the consumer that are theirs alone. */
  ghost predicate Own(steps: seq<P.Step<O.Event>>) {
    forall i :: 0 <= i < |steps| ==>
      !steps[i].Write? && !steps[i].Show? && !steps[i].Undo? && !steps[i].Accept?
  }

  lemma {:induction false} Piped(s: State, steps: seq<P.Step<O.Event>>) returns (lifted: seq<Step>)
    requires P.Legal(s.pipe, steps) && Own(steps)
    ensures Legal(s, lifted) && Honest(lifted) && Run(s, lifted) == s.(pipe := P.Run(s.pipe, steps))
    decreases |steps|
  {
    if steps == [] {
      lifted := [];
    } else {
      assert Own(steps[1..]) && !steps[0].Accept?;
      var rest := Piped(Next(s, Pipe(steps[0])), steps[1..]);
      lifted := [Pipe(steps[0])] + rest;
      assert lifted[1..] == rest;
    }
  }

  lemma Further(s: P.State<O.Event>, steps: seq<P.Step<O.Event>>, step: P.Step<O.Event>, after: P.State<O.Event>)
    returns (all: seq<P.Step<O.Event>>)
    requires P.Legal(s, steps) && Own(steps) && P.Enabled(P.Run(s, steps), step)
    requires !step.Write? && !step.Show? && !step.Undo? && !step.Accept?
    requires P.Next(P.Run(s, steps), step) == after
    ensures P.Legal(s, all) && Own(all) && P.Run(s, all) == after
  {
    Relay.EndsLegally(s, steps, step);
    all := steps + [step];
  }

  ghost function Waiting(): P.State<O.Event> {
    P.Init<O.Event>(1, 1).(rows := Sold(false))
  }

  ghost function Batched(sent: set<nat>, log: seq<nat>): P.State<O.Event> {
    Waiting().(batch := P.Batch([0, 1], sent), logs := [log])
  }

  lemma BothClaimed()
    ensures P.Next(Waiting(), P.Claim(2)) == Batched({}, [])
  {
    var rows := Waiting().rows;
    assert P.ClaimFrom(rows, 2, 0) == [];
    assert P.ClaimFrom(rows, 1, 1) == [1];
    assert P.ClaimFrom(rows, 0, 2) == [0, 1];
    assert Waiting().logs == [[]];
  }

  lemma FirstSent()
    ensures P.Enabled(Batched({}, []), P.Send(0)) && P.Next(Batched({}, []), P.Send(0)) == Batched({0}, [0])
  {
    var s := Batched({}, []);
    assert P.Partition(1, 7) == 0;
    assert s.logs[0] + [0] == [0];
    assert s.logs[0 := [0]] == [[0]];
    assert s.batch.sent + {0} == {0};
  }

  lemma SecondSent()
    ensures P.Enabled(Batched({0}, [0]), P.Send(1)) && P.Next(Batched({0}, [0]), P.Send(1)) == Batched({0, 1}, [0, 1])
  {
    var s := Batched({0}, [0]);
    assert P.Partition(1, 7) == 0;
    assert s.logs[0] + [1] == [0, 1];
    assert s.logs[0 := [0, 1]] == [[0, 1]];
    assert s.batch.sent + {1} == {0, 1};
  }

  ghost function Arrived(members: map<nat, P.Member>, committed: seq<nat>, accepted: set<(nat, nat)>)
    : P.State<O.Event>
  {
    Waiting().(rows := Sold(true), logs := [[0, 1]], members := members, committed := committed, accepted := accepted)
  }

  lemma BothMarked()
    ensures P.Enabled(Batched({0, 1}, [0, 1]), P.Step.Mark)
    ensures P.Next(Batched({0, 1}, [0, 1]), P.Step.Mark) == Arrived(map[], [0], {})
  {
    assert P.MarkRows(Sold(false), [0, 1]) == Sold(true);
    assert Waiting().committed == [0];
  }

  /** Both events claimed, sent and marked. */
  lemma Published() returns (steps: seq<P.Step<O.Event>>)
    ensures P.Legal(Waiting(), steps) && Own(steps) && P.Run(Waiting(), steps) == Arrived(map[], [0], {})
  {
    BothClaimed();
    FirstSent();
    SecondSent();
    BothMarked();
    steps := Further(Waiting(), [], P.Claim(2), Batched({}, []));
    steps := Further(Waiting(), steps, P.Send(0), Batched({0}, [0]));
    steps := Further(Waiting(), steps, P.Send(1), Batched({0, 1}, [0, 1]));
    steps := Further(Waiting(), steps, P.Step.Mark, Arrived(map[], [0], {}));
  }

  ghost function First(m: P.Member): P.State<O.Event> {
    Arrived(map[0 := m], [0], {})
  }

  /** The first event in hand. */
  lemma Joining() returns (steps: seq<P.Step<O.Event>>)
    ensures P.Legal(Arrived(map[], [0], {}), steps) && Own(steps)
    ensures P.Run(Arrived(map[], [0], {}), steps) == First(P.Working(0, 0, 1))
  {
    var s := Arrived(map[], [0], {});
    assert P.Next(s, P.Join(0, 0)) == First(P.Idle(0, 0));
    assert P.Next(First(P.Idle(0, 0)), P.Fetch(0)) == First(P.Working(0, 0, 1));
    steps := Further(s, [], P.Join(0, 0), First(P.Idle(0, 0)));
    steps := Further(s, steps, P.Fetch(0), First(P.Working(0, 0, 1)));
  }

  lemma FirstSkipped()
    ensures P.Enabled(First(P.Working(0, 0, 1)), P.Skip(0))
    ensures P.Next(First(P.Working(0, 0, 1)), P.Skip(0)) == Arrived(map[0 := P.Settled(0, 0)], [0], {(0, 0)})
  {
  }

  lemma FirstCommitted()
    ensures P.Next(Arrived(map[0 := P.Settled(0, 0)], [0], {(0, 0)}), P.Step.Commit(0))
         == Arrived(map[0 := P.Idle(0, 1)], [1], {(0, 0)})
  {
    assert [0][0 := 1] == [1];
  }

  ghost function Carrying(): P.State<O.Event> {
    Arrived(map[0 := P.Working(0, 1, 1)], [1], {(0, 0)})
  }

  /** The first event skipped and committed, and the second in hand. */
  lemma SecondInHand() returns (steps: seq<P.Step<O.Event>>)
    ensures P.Legal(Arrived(map[], [0], {}), steps) && Own(steps) && P.Run(Arrived(map[], [0], {}), steps) == Carrying()
  {
    var s := Arrived(map[], [0], {});
    steps := Joining();
    FirstSkipped();
    FirstCommitted();
    steps := Further(s, steps, P.Skip(0), Arrived(map[0 := P.Settled(0, 0)], [0], {(0, 0)}));
    steps := Further(s, steps, P.Step.Commit(0), Arrived(map[0 := P.Idle(0, 1)], [1], {(0, 0)}));
    steps := Further(s, steps, P.Fetch(0), Carrying());
  }

  // ---------------------------------------------------------------------------
  // The shop

  ghost function Done(): map<nat, Call> {
    LostCommit.Asking(Ended(Placed(7)), true)
  }

  ghost function Paid(version: int): T.Tables {
    T.Tables(map[7 := LostCommit.PlacedRow(O.Paid, version)], map[LostCommit.KEY := T.Claim(0, 7)], {0})
  }

  ghost function Pending(): T.Tables {
    T.Tables(map[7 := LostCommit.PlacedRow(O.PendingPayment, 1)], map[LostCommit.KEY := T.Claim(0, 7)], {})
  }

  /** An order placed. */
  lemma OrderPlaced() returns (steps: seq<Step>)
    ensures Legal(Init(1, 1), steps) && Honest(steps)
    ensures Run(Init(1, 1), steps)
         == State(LedgerSafety.OneHeld(LostCommit.SKU), Post(P.Init(1, 1), PLACED), Pending(), Done(), {})
  {
    LostCommit.CartIsPriced();
    steps := LostCommit.OneUnitHeld();
    var s := Init(1, 1);
    RunOn(s, steps, Place(7, 0));
    steps := steps + [Place(7, 0)];
    PostOne(s.pipe, PLACED);
    assert Run(s, steps).tables == Pending();
    assert Run(s, steps).calls == Done();
  }

  /** And paid for, its events waiting to be published. */
  lemma OrderPaid() returns (steps: seq<Step>)
    ensures Legal(Init(1, 1), steps) && Honest(steps)
    ensures Run(Init(1, 1), steps)
         == State(LedgerSafety.OneHeld(LostCommit.SKU), Waiting(), Paid(2), Done(), {})
  {
    steps := OrderPlaced();
    var s := Run(Init(1, 1), steps);
    RunOn(Init(1, 1), steps, MarkPaid(0, 7));
    steps := steps + [MarkPaid(0, 7)];
    PostOne(s.pipe, PAID);
    assert Post(s.pipe, PAID) == Waiting();
    assert Run(Init(1, 1), steps).tables == Paid(2);
  }

  lemma PostOne(pipe: P.State<O.Event>, e: O.Event)
    ensures PostAll(pipe, [e]) == Post(pipe, e)
  {
    assert [e][1..] == [];
  }

  /** The payment's event brought to the order service's consumer. */
  lemma EventArrives() returns (steps: seq<Step>)
    ensures Legal(Init(1, 1), steps) && Honest(steps)
    ensures Run(Init(1, 1), steps)
         == State(LedgerSafety.OneHeld(LostCommit.SKU), Carrying(), Paid(2), Done(), {})
  {
    steps := OrderPaid();
    var s := Run(Init(1, 1), steps);
    var publish := Published();
    var first := Piped(s, publish);
    RunsOn(Init(1, 1), steps, first);
    steps := steps + first;
    var t := Run(Init(1, 1), steps);
    var deliver := SecondInHand();
    var second := Piped(t, deliver);
    RunsOn(Init(1, 1), steps, second);
    steps := steps + second;
  }

  ghost function Asked(): State {
    State(LedgerSafety.OneHeld(LostCommit.SKU), Carrying(), Paid(2), Done(), {(R.Commit, 0)})
  }

  /** The consumer asks inventory to commit the hold, and inventory does. */
  lemma HoldIsSold() returns (steps: seq<Step>)
    ensures Legal(Asked(), steps) && Honest(steps)
    ensures Run(Asked(), steps)
         == Asked().(stock := I.State(I.Db(map[LostCommit.SKU := I.Stock(0, 0)],
                                           [R.Hold(7, [L.Line(LostCommit.SKU, 1)], R.Committed, 10, 2)]),
                                      map[], map[LostCommit.SKU := 1], {(R.Commit, 0)}))
  {
    LedgerSafety.SellOne(LostCommit.SKU);
    steps := [];
    RunOn(Asked(), steps, Stock(I.OpenSettle(1, R.Commit, 0, 0)));
    steps := steps + [Stock(I.OpenSettle(1, R.Commit, 0, 0))];
    RunOn(Asked(), steps, Stock(I.Close(1)));
    steps := steps + [Stock(I.Close(1))];
  }

  ghost function Handled(): P.State<O.Event> {
    Carrying().(members := map[0 := P.Settled(0, 1)], accepted := {(0, 0), (0, 1)}, inbox := {1}, effects := [1])
  }

  lemma SecondAccepted()
    ensures P.Enabled(Carrying(), P.Accept(0)) && P.Next(Carrying(), P.Accept(0)) == Handled()
  {
    assert P.Hand(Carrying(), 0) == 1;
    assert Carrying().accepted + {(0, 1)} == {(0, 0), (0, 1)};
  }

  lemma SecondCommitted()
    ensures P.Next(Handled(), P.Step.Commit(0)) == Handled().(members := map[0 := P.Idle(0, 2)], committed := [2])
  {
    assert [1][0 := 2] == [2];
  }

  /** The consumer's transaction and its offset, once inventory has answered. */
  lemma OffsetIsCommitted(s: State) returns (steps: seq<Step>)
    requires s.pipe == Carrying() && (R.Commit, 0) in s.stock.answered
    ensures Legal(s, steps) && Honest(steps)
    ensures Run(s, steps) == s.(pipe := Handled().(members := map[0 := P.Idle(0, 2)], committed := [2]))
  {
    SecondAccepted();
    SecondCommitted();
    steps := [];
    RunOn(s, steps, Pipe(P.Accept(0)));
    steps := steps + [Pipe(P.Accept(0))];
    RunOn(s, steps, Pipe(P.Step.Commit(0)));
    steps := steps + [Pipe(P.Step.Commit(0))];
  }

  /** The machine can sell: an honest run from nothing ends with the order paid, its hold committed, the
      unit gone from inventory, and both events behind the consumer's offset. */
  lemma AnHonestRunSells()
    ensures exists steps ::
              && Legal(Init(1, 1), steps) && Honest(steps)
              && var s := Run(Init(1, 1), steps);
                 && 7 in s.tables.orders && s.tables.orders[7].status == O.Paid
                 && s.stock.db == I.Db(map[LostCommit.SKU := I.Stock(0, 0)],
                                       [R.Hold(7, [L.Line(LostCommit.SKU, 1)], R.Committed, 10, 2)])
                 && s.pipe.committed == [2] && s.pipe.effects == [1] && s.pipe.dead == {}
  {
    var steps := EventArrives();
    RunOn(Init(1, 1), steps, AskSettle(0));
    steps := steps + [AskSettle(0)];
    assert Run(Init(1, 1), steps) == Asked();
    var sell := HoldIsSold();
    RunsOn(Init(1, 1), steps, sell);
    steps := steps + sell;
    var finish := OffsetIsCommitted(Run(Init(1, 1), steps));
    RunsOn(Init(1, 1), steps, finish);
    steps := steps + finish;
    assert Legal(Init(1, 1), steps) && Honest(steps);
  }
}
