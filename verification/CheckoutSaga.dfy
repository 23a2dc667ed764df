/** Checkout and everything that follows it, as one machine: calls of Checkout, the order service's
    tables, the pipeline that carries its events back to it, and inventory's ledger. A call is cut at
    every point where it waits for something, so any steps of anything else, a crash among them, may
    fall between two of its own. */
module CheckoutSaga {
  import opened OrderTotals
  import L = CanonicalLines
  import R = Reservations
  import I = StockLedger
  import P = Delivery
  import O = Orders
  import T = OrderTables

  /** What a call of Checkout answers its client with. */
  datatype Reply = Placed(order: nat) | KeyReused | Error

  type PricedLines = lines: seq<OrderLine> | forall l :: l in lines ==> l.quantity > 0 witness []

  /** How far a call has come. Undoing has failed, or lost its key, with a hold to give back. */
  datatype Phase =
    | Checking
    | Pricing
    | Reserving(lines: PricedLines)
    | Holding(lines: PricedLines, reservation: nat)
    | Undoing(reservation: nat, reply: Reply)
    | Ended(reply: Reply)

  /** A call's identifier is that of the order it may place. asked says whether it ever asked
      inventory for stock: a request may be carried out long after the caller stopped waiting. */
  datatype Call = Call(user: nat, key: string, hash: nat, requested: seq<L.Line>, asked: bool, phase: Phase)

  /** settles records every commit and release that inventory was ever asked for. */
  datatype State = State(
    stock: I.State, pipe: P.State<O.Event>, tables: T.Tables, calls: map<nat, Call>, settles: set<(R.Kind, nat)>)

  datatype Step =
    | Arrive(c: nat, user: nat, key: string, hash: nat, requested: seq<L.Line>)
    | Replay(c: nat)
    | Price(c: nat, prices: map<string, Money>)
    | Reserved(c: nat, reservation: nat)
    | ReserveFails(c: nat)
    | Place(c: nat, now: int)
    | PlaceFails(c: nat)
    | PlaceUnknown(c: nat, now: int)
    | AskRelease(c: nat)
    | Undone(c: nat)
    | Crash(c: nat)
    | MarkPaid(event: nat, order: nat)
    | ExpireStale(now: int, window: int, claimed: seq<nat>)
    | AskSettle(m: nat)
    | Pipe(deliver: P.Step<O.Event>)
    | Stock(move: I.Step)

  function Init(parts: nat, maxAttempts: nat): State {
    State(I.EMPTY, P.Init(parts, maxAttempts), T.Tables(map[], map[], {}), map[], {})
  }

  // ---------------------------------------------------------------------------
  // Events

  /** Whether the order service's own consumer acts on an event. */
  predicate Wanted(e: O.Event) {
    !e.OrderPlaced?
  }

  /** What it asks inventory to do about it. */
  function Errand(e: O.Event): (R.Kind, nat)
    requires Wanted(e)
  {
    (if e.OrderPaid? then R.Commit else R.Release, e.reservation)
  }

  function RowOf(e: O.Event): P.Row<O.Event> {
    P.Row(e.order, e, Wanted(e), P.Visible, false)
  }

  /** An event written, keyed by its order, and made visible with the transaction that raised it. */
  function Post(pipe: P.State<O.Event>, e: O.Event): P.State<O.Event> {
    pipe.(rows := pipe.rows + [RowOf(e)])
  }

  function PostAll(pipe: P.State<O.Event>, events: seq<O.Event>): P.State<O.Event>
    decreases |events|
  {
    if events == [] then pipe else PostAll(Post(pipe, events[0]), events[1..])
  }

  predicate Carries(s: State, m: nat) {
    P.InHand(s.pipe, m) && Wanted(s.pipe.rows[P.Hand(s.pipe, m)].event)
  }

  function Carried(s: State, m: nat): O.Event
    requires Carries(s, m)
  {
    s.pipe.rows[P.Hand(s.pipe, m)].event
  }

  // ---------------------------------------------------------------------------
  // Steps

  ghost predicate Enabled(s: State, step: Step) {
    match step
    case Arrive(c, _, _, _, requested) => c !in s.calls && requested != []
    case Replay(c) => c in s.calls && s.calls[c].phase.Checking?
    case Price(c, _) => c in s.calls && s.calls[c].phase.Pricing?
    case Reserved(c, r) =>
      c in s.calls && s.calls[c].phase.Reserving? && r < |s.stock.db.rows| && s.stock.db.rows[r].order == c
    case ReserveFails(c) => c in s.calls && s.calls[c].phase.Reserving?
    case Place(c, _) => c in s.calls && s.calls[c].phase.Holding?
    case PlaceFails(c) => c in s.calls && s.calls[c].phase.Holding?
    case PlaceUnknown(c, _) => c in s.calls && s.calls[c].phase.Holding?
    case AskRelease(c) => c in s.calls && s.calls[c].phase.Undoing?
    case Undone(c) => c in s.calls && s.calls[c].phase.Undoing?
    case Crash(c) => c in s.calls
    case MarkPaid(_, _) => true
    case ExpireStale(_, _, _) => true
    case AskSettle(m) => Carries(s, m) && P.Hand(s.pipe, m) !in s.pipe.inbox
    case Pipe(d) => P.Enabled(s.pipe, d) && Delivered(s, d)
    case Stock(move) => I.Enabled(s.stock, move) && Requested(s, move)
  }

  /** The table is written by the order service's transactions only, and the consumer's transaction
      commits only if the event was handled before or inventory has done what it asks for. */
  ghost predicate Delivered(s: State, d: P.Step<O.Event>) {
    && !d.Write? && !d.Show? && !d.Undo?
    && (d.Accept? ==>
         && Carries(s, d.m)
         && (P.Hand(s.pipe, d.m) in s.pipe.inbox || Errand(Carried(s, d.m)) in s.stock.answered))
  }

  /** Inventory reserves and settles only what this service asks it to; it may do so at any later
      time, and any number of times. */
  ghost predicate Requested(s: State, move: I.Step) {
    && (move.OpenReserve? ==>
          && move.order in s.calls && s.calls[move.order].asked
          && move.requested == T.HoldRequest(s.calls[move.order].requested))
    && (move.OpenSettle? ==> (move.kind, move.id) in s.settles)
  }

  function In(s: State, c: nat, phase: Phase): State
    requires c in s.calls
  {
    s.(calls := s.calls[c := s.calls[c].(phase := phase)])
  }

  /** Looking the key up before anything else. */
  function Looked(t: T.Tables, call: Call): Phase {
    if (call.user, call.key) !in t.claims then Pricing
    else if t.claims[(call.user, call.key)].hash != call.hash then Ended(KeyReused)
    else Ended(Placed(t.claims[(call.user, call.key)].order))
  }

  /** Checkout's transaction, as the call that ran it sees it. */
  function Placing(s: State, c: nat, now: int): (T.Tables, seq<O.Event>, T.Placing)
    requires c in s.calls && s.calls[c].phase.Holding?
  {
    var call := s.calls[c];
    T.PlaceTx(s.tables, call.user, call.key, call.hash, c, call.phase.reservation, call.phase.lines, now)
  }

  function After(c: nat, reservation: nat, placing: T.Placing): Phase {
    match placing
    case Created(_) => Ended(Placed(c))
    case Replayed(order) => Undoing(reservation, Placed(order))
    case KeyReused => Undoing(reservation, KeyReused)
    case Invalid(_) => Undoing(reservation, Error)
  }

  ghost function Next(s: State, step: Step): State
    requires Enabled(s, step)
  {
    match step
    case Arrive(c, user, key, hash, requested) =>
      s.(calls := s.calls[c := Call(user, key, hash, requested, false, Checking)])
    case Replay(c) => In(s, c, Looked(s.tables, s.calls[c]))
    case Price(c, prices) => (
      match T.PriceLines(s.calls[c].requested, prices)
      case Err(_) => In(s, c, Ended(Error))
      case Ok(lines) => s.(calls := s.calls[c := s.calls[c].(phase := Reserving(lines), asked := true)]))
    case Reserved(c, r) => In(s, c, Holding(s.calls[c].phase.lines, r))
    case ReserveFails(c) => In(s, c, Ended(Error))
    case Place(c, now) =>
      var (tables, events, placing) := Placing(s, c, now);
      In(s, c, After(c, s.calls[c].phase.reservation, placing)).(tables := tables, pipe := PostAll(s.pipe, events))
    case PlaceFails(c) => In(s, c, Undoing(s.calls[c].phase.reservation, Error))
    case PlaceUnknown(c, now) =>
      var (tables, events, _) := Placing(s, c, now);
      In(s, c, Undoing(s.calls[c].phase.reservation, Error)).(tables := tables, pipe := PostAll(s.pipe, events))
    case AskRelease(c) => s.(settles := s.settles + {(R.Release, s.calls[c].phase.reservation)})
    case Undone(c) => In(s, c, Ended(s.calls[c].phase.reply))
    case Crash(c) => In(s, c, Ended(Error))
    case MarkPaid(event, order) =>
      var (tables, events, _) := T.PayTx(s.tables, event, order);
      s.(tables := tables, pipe := PostAll(s.pipe, events))
    case ExpireStale(now, window, claimed) =>
      var (tables, events, _) := T.SweepTx(s.tables, now, window, claimed);
      s.(tables := tables, pipe := PostAll(s.pipe, events))
    case AskSettle(m) => s.(settles := s.settles + {Errand(Carried(s, m))})
    case Pipe(d) => s.(pipe := P.Next(s.pipe, d))
    case Stock(move) => s.(stock := I.Next(s.stock, move))
  }

  ghost predicate Legal(s: State, steps: seq<Step>)
    decreases |steps|
  {
    steps == [] || (Enabled(s, steps[0]) && Legal(Next(s, steps[0]), steps[1..]))
  }

  ghost function Run(s: State, steps: seq<Step>): State
    requires Legal(s, steps)
    decreases |steps|
  {
    if steps == [] then s else Run(Next(s, steps[0]), steps[1..])
  }

  /** No commit that was reported as failed had landed. */
  ghost predicate Honest(steps: seq<Step>) {
    forall i :: 0 <= i < |steps| ==> !steps[i].PlaceUnknown?
  }

  /** One run after another. */
  lemma {:induction false} RunsOn(s: State, a: seq<Step>, b: seq<Step>)
    requires Legal(s, a) && Legal(Run(s, a), b)
    ensures Legal(s, a + b) && Run(s, a + b) == Run(Run(s, a), b)
    ensures Honest(a) && Honest(b) ==> Honest(a + b)
    decreases |a|
  {
    if a == [] {
      assert a + b == b;
    } else {
      assert (a + b)[1..] == a[1..] + b;
      RunsOn(Next(s, a[0]), a[1..], b);
    }
  }

  lemma OneStep(s: State, step: Step)
    requires Enabled(s, step)
    ensures Legal(s, [step]) && Run(s, [step]) == Next(s, step)
  {
    var after := Next(s, step);
    assert Legal(after, []) && Run(after, []) == after;
    assert [step][0] == step && [step][1..] == [];
  }

  lemma RunOn(s: State, steps: seq<Step>, step: Step)
    requires Legal(s, steps) && Enabled(Run(s, steps), step)
    ensures Legal(s, steps + [step]) && Run(s, steps + [step]) == Next(Run(s, steps), step)
    ensures Honest(steps) && !step.PlaceUnknown? ==> Honest(steps + [step])
  {
    OneStep(Run(s, steps), step);
    RunsOn(s, steps, [step]);
  }

  // ---------------------------------------------------------------------------
  // The invariant

  /** The lines sell exactly what was requested. */
  ghost predicate LinesFor(lines: seq<OrderLine>, requested: seq<L.Line>) {
    forall sku :: T.Ordered(lines, sku) == L.Total(requested, sku)
  }

  ghost predicate HoldFor(rows: seq<R.Hold>, r: nat, order: nat) {
    r < |rows| && rows[r].order == order
  }

  ghost predicate ReplyOk(t: T.Tables, call: Call, reply: Reply) {
    match reply
    case Placed(order) =>
      (call.user, call.key) in t.claims && t.claims[(call.user, call.key)] == T.Claim(call.hash, order)
    case KeyReused => (call.user, call.key) in t.claims && t.claims[(call.user, call.key)].hash != call.hash
    case Error => true
  }

  ghost predicate CallOk(s: State, c: nat)
    requires c in s.calls
  {
    var call := s.calls[c];
    && (call.asked ==> L.Requested(call.requested) && T.HoldRequest(call.requested) == call.requested)
    && (!call.phase.Ended? ==> c !in s.tables.orders)
    && match call.phase
       case Checking => true
       case Pricing => true
       case Reserving(lines) => call.asked && LinesFor(lines, call.requested)
       case Holding(lines, r) => call.asked && LinesFor(lines, call.requested) && HoldFor(s.stock.db.rows, r, c)
       case Undoing(r, reply) => HoldFor(s.stock.db.rows, r, c) && ReplyOk(s.tables, call, reply)
       case Ended(reply) => ReplyOk(s.tables, call, reply)
  }

  /** An order belongs to the call that placed it, sells what was requested, and has its own hold. */
  ghost predicate OrderOk(s: State, o: nat)
    requires o in s.tables.orders
  {
    var row := s.tables.orders[o];
    && row.id == o && o in s.calls && s.calls[o].phase.Ended? && row.user == s.calls[o].user
    && LinesFor(row.lines, s.calls[o].requested)
    && HoldFor(s.stock.db.rows, row.reservation, o)
    && (s.calls[o].user, s.calls[o].key) in s.tables.claims
    && s.tables.claims[(s.calls[o].user, s.calls[o].key)] == T.Claim(s.calls[o].hash, o)
  }

  ghost predicate ClaimOk(s: State, k: (nat, string))
    requires k in s.tables.claims
  {
    var o := s.tables.claims[k].order;
    o in s.tables.orders && o in s.calls && (s.calls[o].user, s.calls[o].key) == k
  }

  /** A hold was taken for a call, for what it requested, and ended only as was asked. */
  ghost predicate HoldOk(s: State, r: nat)
    requires r < |s.stock.db.rows|
  {
    var row := s.stock.db.rows[r];
    && row.order in s.calls && s.calls[row.order].asked && L.SameTotals(row.lines, s.calls[row.order].requested)
    && (row.status == R.Committed ==> (R.Commit, r) in s.settles)
    && (row.status == R.Released ==> (R.Release, r) in s.settles)
  }

  ghost predicate OpenOk(s: State, tx: nat)
    requires tx in s.stock.open
  {
    match s.stock.open[tx]
    case Reserving(order, lines, _, _, _) =>
      order in s.calls && s.calls[order].asked && L.SameTotals(lines, s.calls[order].requested)
    case Settling(kind, id, _, _) => (kind, id) in s.settles
  }

  /** An event that was raised is still true. */
  ghost predicate EventOk(t: T.Tables, e: O.Event) {
    && e.order in t.orders
    && (e.OrderPaid? ==> t.orders[e.order].status == O.Paid && t.orders[e.order].reservation == e.reservation)
    && (e.OrderCancelled? ==> t.orders[e.order].status == O.Cancelled && t.orders[e.order].reservation == e.reservation)
  }

  ghost predicate PostedOk(t: T.Tables, row: P.Row<O.Event>) {
    row.state == P.Visible && row.wanted == Wanted(row.event) && EventOk(t, row.event)
  }

  predicate Past(phase: Phase) {
    phase.Undoing? || phase.Ended?
  }

  /** Commits are asked for the holds of paid orders. Releases are asked for those of cancelled orders,
      and for those of calls that did not and now cannot place one. */
  ghost predicate SettleOk(s: State, a: (R.Kind, nat)) {
    && a.1 < |s.stock.db.rows|
    && var o := s.stock.db.rows[a.1].order;
       match a.0
       case Commit =>
         o in s.tables.orders && s.tables.orders[o].status == O.Paid && s.tables.orders[o].reservation == a.1
       case Release =>
         && o in s.calls && Past(s.calls[o].phase)
         && (o in s.tables.orders ==> s.tables.orders[o].status == O.Cancelled && s.tables.orders[o].reservation == a.1)
       case Expire => false
  }

  /** Whatever the consumer's inbox names, inventory did. */
  ghost predicate InboxOk(s: State, id: nat) {
    id < |s.pipe.rows| && Wanted(s.pipe.rows[id].event) && Errand(s.pipe.rows[id].event) in s.stock.answered
  }

  /** What ties the four parts together. */
  ghost predicate Ties(s: State) {
    && (forall c :: c in s.calls ==> CallOk(s, c))
    && (forall o :: o in s.tables.orders ==> OrderOk(s, o))
    && (forall k :: k in s.tables.claims ==> ClaimOk(s, k))
    && (forall r :: 0 <= r < |s.stock.db.rows| ==> HoldOk(s, r))
    && (forall tx :: tx in s.stock.open ==> OpenOk(s, tx))
    && (forall i :: 0 <= i < |s.pipe.rows| ==> PostedOk(s.tables, s.pipe.rows[i]))
    && (forall a :: a in s.settles ==> SettleOk(s, a))
    && (forall id :: id in s.pipe.inbox ==> InboxOk(s, id))
  }

  ghost predicate Inv(s: State) {
    I.Inv(s.stock) && P.Inv(s.pipe) && Ties(s)
  }
}
