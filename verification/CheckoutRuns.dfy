/** The whole checkout call of Checkout, as a run of the machine that interleaves such calls. */
module CheckoutRuns {
  import opened OrderTotals
  import opened CheckoutSaga
  import opened Checkout
  import G = CheckoutGuarantees
  import L = CanonicalLines
  import R = Reservations
  import I = StockLedger
  import U = InventoryUseCases
  import P = Delivery
  import O = Orders
  import T = OrderTables
  import LedgerSafety

  function EventsOf(rows: seq<P.Row<O.Event>>): (r: seq<O.Event>)
    ensures |r| == |rows| && forall i :: 0 <= i < |r| ==> r[i] == rows[i].event
  {
    if rows == [] then [] else EventsOf(rows[..|rows| - 1]) + [rows[|rows| - 1].event]
  }

  /** The stores of both services, as a call finds them. */
  function StoresOf(s: State): Stores {
    Stores(s.tables, EventsOf(s.pipe.rows), s.stock.db)
  }

  ghost predicate Ends(t: State, c: nat, after: Stores, reply: Reply) {
    StoresOf(t) == after && c in t.calls && t.calls[c].phase == Phase.Ended(reply)
  }

  /** Nobody stops halfway. */
  ghost predicate NoCrash(steps: seq<Step>) {
    forall i :: 0 <= i < |steps| ==> !steps[i].Crash?
  }

  /** The machine can do to the stores what the call does, and answer it the same, without a crash. */
  ghost predicate CanEnd(s: State, c: nat, after: Stores, reply: Reply, honestly: bool) {
    exists steps ::
      && Legal(s, steps) && NoCrash(steps) && (honestly ==> Honest(steps))
      && Ends(Run(s, steps), c, after, reply)
  }

  lemma AtTheEnd(s: State, c: nat, after: Stores, reply: Reply, honestly: bool)
    requires Ends(s, c, after, reply)
    ensures CanEnd(s, c, after, reply, honestly)
  {
    assert Legal(s, []) && NoCrash([]) && Honest([]) && Run(s, []) == s;
  }

  lemma AfterAStep(s: State, step: Step, c: nat, after: Stores, reply: Reply, honestly: bool)
    requires Enabled(s, step) && CanEnd(Next(s, step), c, after, reply, honestly)
    requires !step.Crash? && (honestly ==> !step.PlaceUnknown?)
    ensures CanEnd(s, c, after, reply, honestly)
  {
    var rest :| Legal(Next(s, step), rest) && NoCrash(rest) && (honestly ==> Honest(rest))
                && Ends(Run(Next(s, step), rest), c, after, reply);
    OneStep(s, step);
    RunsOn(s, [step], rest);
    assert Legal(s, [step] + rest) && NoCrash([step] + rest);
  }

  /** A call of the machine, made for a request, that has come so far. */
  ghost predicate At(s: State, c: nat, q: Request, phase: Phase) {
    && c in s.calls && s.calls[c].phase == phase && s.calls[c].requested == q.lines
    && s.calls[c].user == q.user && s.calls[c].key == q.key && s.calls[c].hash == q.hash
  }

  // ---------------------------------------------------------------------------
  // From the end of a call to its beginning

  lemma FromAsked(s: State, c: nat, q: Request, r: nat, reply: Reply, now: int, tx: nat, honestly: bool)
    requires At(s, c, q, Undoing(r, reply)) && r < |s.stock.db.rows| && tx !in s.stock.open
    requires (R.Release, r) in s.settles
    ensures CanEnd(s, c, StoresOf(s).(db := U.SettleNow(s.stock.db, R.Release, r, now).0), reply, honestly)
  {
    var begin, close := Stock(I.OpenSettle(tx, R.Release, r, now)), Stock(I.Close(tx));
    var begun := Next(s, begin);
    var closed := Next(begun, close);
    LedgerSafety.SettleUninterrupted(s.stock, tx, R.Release, r, now);
    var after := StoresOf(s).(db := U.SettleNow(s.stock.db, R.Release, r, now).0);
    AtTheEnd(Next(closed, Undone(c)), c, after, reply, honestly);
    AfterAStep(closed, Undone(c), c, after, reply, honestly);
    AfterAStep(begun, close, c, after, reply, honestly);
    AfterAStep(s, begin, c, after, reply, honestly);
  }

  lemma FromUndoing(
    s: State, c: nat, q: Request, r: nat, reply: Reply, now: int, release: Reach, tx: nat, honestly: bool)
    requires At(s, c, q, Undoing(r, reply)) && r < |s.stock.db.rows| && tx !in s.stock.open
    ensures CanEnd(s, c, StoresOf(s).(db := GivenBack(s.stock.db, r, now, release)), reply, honestly)
  {
    var asked := Next(s, AskRelease(c));
    if release.Undelivered? {
      AtTheEnd(Next(asked, Undone(c)), c, StoresOf(s), reply, honestly);
      AfterAStep(asked, Undone(c), c, StoresOf(s), reply, honestly);
      assert StoresOf(s) == StoresOf(s).(db := s.stock.db);
    } else {
      FromAsked(asked, c, q, r, reply, now, tx, honestly);
    }
    AfterAStep(s, AskRelease(c), c, StoresOf(s).(db := GivenBack(s.stock.db, r, now, release)), reply, honestly);
  }

  /** An event posted is one more row, and shows as one more event. */
  lemma PostShows(pipe: P.State<O.Event>, events: seq<O.Event>)
    requires |events| <= 1
    ensures EventsOf(PostAll(pipe, events).rows) == EventsOf(pipe.rows) + events
  {
    if events == [] {
      assert EventsOf(pipe.rows) + [] == EventsOf(pipe.rows);
    } else {
      assert events == [events[0]] && events[1..] == [];
      var rows := Post(pipe, events[0]).rows;
      assert PostAll(pipe, events) == Post(pipe, events[0]);
      assert rows[..|rows| - 1] == pipe.rows;
    }
  }

  lemma FromFailedPlace(
    s: State, c: nat, q: Request, r: nat, lines: PricedLines, now: int, x: Faults, tx: nat)
    requires At(s, c, q, Holding(lines, r)) && r < |s.stock.db.rows| && tx !in s.stock.open
    requires x.ending.RollsBack?
    ensures CanEnd(s, c, StoresOf(s).(db := GivenBack(s.stock.db, r, now, x.release)), Reply.Error, true)
  {
    FromUndoing(Next(s, PlaceFails(c)), c, q, r, Reply.Error, now, x.release, tx, true);
    AfterAStep(s, PlaceFails(c), c, StoresOf(s).(db := GivenBack(s.stock.db, r, now, x.release)), Reply.Error, true);
  }

  /** What the transaction leaves, whether the caller hears of it or not. */
  lemma PlaceLeaves(s: State, c: nat, q: Request, r: nat, lines: PricedLines, now: int, heard: bool)
    requires At(s, c, q, Holding(lines, r))
    ensures var t := Next(s, if heard then Place(c, now) else PlaceUnknown(c, now));
            var (tables, events, placing) := T.PlaceTx(s.tables, q.user, q.key, q.hash, c, r, lines, now);
            && StoresOf(t) == Stores(tables, EventsOf(s.pipe.rows) + events, s.stock.db) && t.stock == s.stock
            && At(t, c, q, if heard then After(c, r, placing) else Undoing(r, Reply.Error))
  {
    PostShows(s.pipe, Placing(s, c, now).1);
  }

  /** All that is then left of the call is the release. */
  lemma UnusedPlaceLeaves(
    s: State, c: nat, q: Request, r: nat, lines: PricedLines, now: int, x: Faults, heard: bool)
    requires At(s, c, q, Holding(lines, r)) && !x.ending.RollsBack? && (!heard ==> x.ending.LandsUnseen?)
    requires heard <==> !T.PlaceTx(s.tables, q.user, q.key, q.hash, c, r, lines, now).2.Created?
    ensures var t := Next(s, if heard then Place(c, now) else PlaceUnknown(c, now));
            var (after, reply) := PlaceNow(StoresOf(s), q, c, r, lines, now, x);
            && t.stock == s.stock && At(t, c, q, Undoing(r, reply))
            && after == StoresOf(t).(db := GivenBack(t.stock.db, r, now, x.release))
  {
    PlaceLeaves(s, c, q, r, lines, now, heard);
    NothingPlaced(s.tables, q, c, r, lines, now);
    assert EventsOf(s.pipe.rows) + [] == EventsOf(s.pipe.rows);
  }

  /** The transaction ran, and the order it may have placed is not the call's to keep. */
  lemma FromUnusedPlace(
    s: State, c: nat, q: Request, r: nat, lines: PricedLines, now: int, x: Faults, tx: nat, heard: bool)
    requires At(s, c, q, Holding(lines, r)) && r < |s.stock.db.rows| && tx !in s.stock.open && !x.ending.RollsBack?
    requires var created := T.PlaceTx(s.tables, q.user, q.key, q.hash, c, r, lines, now).2.Created?;
             heard <==> !created
    requires !heard ==> x.ending.LandsUnseen?
    ensures var (after, reply) := PlaceNow(StoresOf(s), q, c, r, lines, now, x);
            CanEnd(s, c, after, reply, !x.ending.LandsUnseen?)
  {
    var (after, reply) := PlaceNow(StoresOf(s), q, c, r, lines, now, x);
    var step := if heard then Place(c, now) else PlaceUnknown(c, now);
    var t := Next(s, step);
    UnusedPlaceLeaves(s, c, q, r, lines, now, x, heard);
    FromUndoing(t, c, q, r, reply, now, x.release, tx, !x.ending.LandsUnseen?);
    AfterAStep(s, step, c, after, reply, !x.ending.LandsUnseen?);
  }

  lemma FromHolding(s: State, c: nat, q: Request, r: nat, lines: PricedLines, now: int, x: Faults, tx: nat)
    requires At(s, c, q, Holding(lines, r)) && r < |s.stock.db.rows| && tx !in s.stock.open
    ensures var (after, reply) := PlaceNow(StoresOf(s), q, c, r, lines, now, x);
            CanEnd(s, c, after, reply, !x.ending.LandsUnseen?)
  {
    var (after, reply) := PlaceNow(StoresOf(s), q, c, r, lines, now, x);
    var placing := T.PlaceTx(s.tables, q.user, q.key, q.hash, c, r, lines, now).2;
    if x.ending.RollsBack? {
      FromFailedPlace(s, c, q, r, lines, now, x, tx);
    } else if placing.Created? && x.ending.Commits? {
      PlaceLeaves(s, c, q, r, lines, now, true);
      AtTheEnd(Next(s, Place(c, now)), c, after, reply, true);
      AfterAStep(s, Place(c, now), c, after, reply, true);
    } else {
      FromUnusedPlace(s, c, q, r, lines, now, x, tx, !placing.Created?);
    }
  }

  /** Whether a request to reserve gets as far as a transaction. */
  predicate Begins(requested: seq<L.Line>, ttl: int) {
    I.Admissible(requested) && ttl > 0 && L.Canonicalise(requested).Canonical?
  }

  /** A reserve that nothing interrupts. */
  lemma ReserveUninterrupted(s: I.State, tx: nat, order: nat, requested: seq<L.Line>, now: int, ttl: int)
    requires tx !in s.open
    ensures !Begins(requested, ttl) ==> U.ReserveNow(s.db, order, requested, now, ttl).1.Failed?
    ensures U.ReserveNow(s.db, order, requested, now, ttl).1.Failed? ==>
              U.ReserveNow(s.db, order, requested, now, ttl).0 == s.db
    ensures Begins(requested, ttl) ==>
              var begun := I.Next(s, I.OpenReserve(tx, order, requested, now, ttl));
              var closed := I.Next(begun, I.Close(tx));
              && tx in begun.open && tx !in closed.open
              && closed.db == U.ReserveNow(s.db, order, requested, now, ttl).0
  {
  }

  lemma ReservedIsOurs(db: I.Db, order: nat, requested: seq<L.Line>, now: int, ttl: int)
    requires U.ReserveNow(db, order, requested, now, ttl).1.Done?
    ensures var (held, answer) := U.ReserveNow(db, order, requested, now, ttl);
            answer.id < |held.rows| && held.rows[answer.id].order == order
  {
  }

  /** Once inventory has dealt with the request. */
  lemma FromReserved(
    s: State, c: nat, q: Request, lines: PricedLines, answer: I.Answer, now: int, x: Faults, tx: nat)
    requires At(s, c, q, Reserving(lines)) && tx !in s.stock.open
    requires answer.Done? ==> answer.id < |s.stock.db.rows| && s.stock.db.rows[answer.id].order == c
    ensures var (after, reply) := if answer.Failed? || x.reserve.AnswerLost? then (StoresOf(s), Reply.Error)
                                  else PlaceNow(StoresOf(s), q, c, answer.id, lines, now, x);
            CanEnd(s, c, after, reply, !x.ending.LandsUnseen?)
  {
    var honestly := !x.ending.LandsUnseen?;
    if answer.Failed? || x.reserve.AnswerLost? {
      AtTheEnd(Next(s, ReserveFails(c)), c, StoresOf(s), Reply.Error, honestly);
      AfterAStep(s, ReserveFails(c), c, StoresOf(s), Reply.Error, honestly);
    } else {
      var (after, reply) := PlaceNow(StoresOf(s), q, c, answer.id, lines, now, x);
      FromHolding(Next(s, Reserved(c, answer.id)), c, q, answer.id, lines, now, x, tx);
      AfterAStep(s, Reserved(c, answer.id), c, after, reply, honestly);
    }
  }

  lemma FromReserving(
    s: State, c: nat, q: Request, lines: PricedLines, now: int, ttl: int, x: Faults, tx: nat)
    requires At(s, c, q, Reserving(lines)) && s.calls[c].asked && tx !in s.stock.open
    ensures var (after, reply) := ReserveAndPlace(StoresOf(s), q, c, lines, now, ttl, x);
            CanEnd(s, c, after, reply, !x.ending.LandsUnseen?)
  {
    var honestly, requested := !x.ending.LandsUnseen?, T.HoldRequest(q.lines);
    var (after, reply) := ReserveAndPlace(StoresOf(s), q, c, lines, now, ttl, x);
    var (held, answer) := U.ReserveNow(s.stock.db, c, requested, now, ttl);
    ReserveUninterrupted(s.stock, tx, c, requested, now, ttl);
    if answer.Done? { ReservedIsOurs(s.stock.db, c, requested, now, ttl); }
    if x.reserve.Undelivered? || !Begins(requested, ttl) {
      FromReserved(s, c, q, lines, I.Failed(I.Invalid), now, x, tx);
      assert StoresOf(s).(db := s.stock.db) == StoresOf(s);
    } else {
      var begin, close := Stock(I.OpenReserve(tx, c, requested, now, ttl)), Stock(I.Close(tx));
      var begun := Next(s, begin);
      var closed := Next(begun, close);
      FromReserved(closed, c, q, lines, answer, now, x, tx);
      assert StoresOf(closed) == StoresOf(s).(db := held);
      AfterAStep(begun, close, c, after, reply, honestly);
      AfterAStep(s, begin, c, after, reply, honestly);
    }
  }

  lemma FromPricing(
    s: State, c: nat, q: Request, prices: map<string, Money>, now: int, ttl: int, x: Faults, tx: nat)
    requires At(s, c, q, Pricing) && tx !in s.stock.open
    ensures var (after, reply) := match T.PriceLines(q.lines, prices)
                                  case Err(_) => (StoresOf(s), Reply.Error)
                                  case Ok(lines) => ReserveAndPlace(StoresOf(s), q, c, lines, now, ttl, x);
            CanEnd(s, c, after, reply, !x.ending.LandsUnseen?)
  {
    var step, honestly := Step.Price(c, prices), !x.ending.LandsUnseen?;
    var t := Next(s, step);
    match T.PriceLines(q.lines, prices)
    case Err(_) =>
      AtTheEnd(t, c, StoresOf(s), Reply.Error, honestly);
      AfterAStep(s, step, c, StoresOf(s), Reply.Error, honestly);
    case Ok(lines) =>
      var (after, reply) := ReserveAndPlace(StoresOf(s), q, c, lines, now, ttl, x);
      FromReserving(t, c, q, lines, now, ttl, x, tx);
      AfterAStep(s, step, c, after, reply, honestly);
  }

  lemma FromChecking(
    s: State, c: nat, q: Request, prices: map<string, Money>, now: int, ttl: int, x: Faults, tx: nat)
    requires At(s, c, q, Checking) && tx !in s.stock.open && q.lines != []
    ensures var (after, reply) := CheckoutNow(StoresOf(s), q, prices, c, now, ttl, x);
            CanEnd(s, c, after, reply, !x.ending.LandsUnseen?)
  {
    var (after, reply) := CheckoutNow(StoresOf(s), q, prices, c, now, ttl, x);
    var honestly := !x.ending.LandsUnseen?;
    var t := Next(s, Replay(c));
    if (q.user, q.key) in s.tables.claims {
      AtTheEnd(t, c, after, reply, honestly);
    } else {
      FromPricing(t, c, q, prices, now, ttl, x, tx);
    }
    AfterAStep(s, Replay(c), c, after, reply, honestly);
  }

  /** The call with nothing in between, whatever goes wrong in it, is a run of the machine, from any state:
      it leaves the same tables, events and stock and gets the same answer. It is an honest run unless the
      commit landed unseen. */
  lemma CheckoutNowIsARun(
    s: State, c: nat, q: Request, prices: map<string, Money>, now: int, ttl: int, x: Faults, tx: nat)
    requires c !in s.calls && tx !in s.stock.open && q.lines != []
    ensures var (after, reply) := CheckoutNow(StoresOf(s), q, prices, c, now, ttl, x);
            CanEnd(s, c, after, reply, !x.ending.LandsUnseen?)
  {
    var (after, reply) := CheckoutNow(StoresOf(s), q, prices, c, now, ttl, x);
    var step := Arrive(c, q.user, q.key, q.hash, q.lines);
    FromChecking(Next(s, step), c, q, prices, now, ttl, x, tx);
    AfterAStep(s, step, c, after, reply, !x.ending.LandsUnseen?);
  }

  /** So what holds of every reachable state holds after every such call. */
  lemma CallsLeadToReachableStates(
    s: State, c: nat, q: Request, prices: map<string, Money>, now: int, ttl: int, x: Faults, tx: nat)
    requires G.Reachable(s) && c !in s.calls && tx !in s.stock.open && q.lines != [] && !x.ending.LandsUnseen?
    ensures var (after, reply) := CheckoutNow(StoresOf(s), q, prices, c, now, ttl, x);
            exists t :: G.Reachable(t) && Ends(t, c, after, reply)
  {
    var (after, reply) := CheckoutNow(StoresOf(s), q, prices, c, now, ttl, x);
    CheckoutNowIsARun(s, c, q, prices, now, ttl, x, tx);
    var steps :| Legal(s, steps) && NoCrash(steps) && Honest(steps) && Ends(Run(s, steps), c, after, reply);
    G.ReachableOn(s, steps);
  }
}
