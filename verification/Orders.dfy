/** The order aggregate: what it takes to place one, which way it may end, and what it announces. */
module Orders {
  import opened OrderTotals

  datatype Status = PendingPayment | Paid | Cancelled

  datatype Event =
    | OrderPlaced(order: nat, reservation: nat, total: Money)
    | OrderPaid(order: nat, reservation: nat, total: Money)
    | OrderCancelled(order: nat, reservation: nat)

  /** The stored state of an order. */
  datatype Row = Row(
    id: nat, user: nat, status: Status, lines: seq<OrderLine>, total: Money, reservation: nat, createdAt: int,
    version: int)

  datatype Refusal = WasCancelled | WasPaid | NotExpired | BadWindow

  datatype Move = Moved | Unmoved | Refused(why: Refusal)

  /** A way of asking an order to end. */
  datatype Cause = Payment | Cancellation | Timeout(now: int, window: int)

  /** The state machine. The deadline is inclusive. */
  function Attempt(cause: Cause, row: Row): Move {
    match cause
    case Payment => (
      match row.status case Paid => Unmoved case Cancelled => Refused(WasCancelled) case PendingPayment => Moved)
    case Cancellation => (
      match row.status case Cancelled => Unmoved case Paid => Refused(WasPaid) case PendingPayment => Moved)
    case Timeout(now, window) =>
      if window <= 0 then Refused(BadWindow)
      else
        match row.status
        case Cancelled => Unmoved
        case Paid => Refused(WasPaid)
        case PendingPayment => if now < row.createdAt + window then Refused(NotExpired) else Moved
  }

  function Target(cause: Cause): Status {
    if cause.Payment? then Paid else Cancelled
  }

  function Announcement(cause: Cause, row: Row): Event {
    if cause.Payment? then OrderPaid(row.id, row.reservation, row.total) else OrderCancelled(row.id, row.reservation)
  }

  /** An aggregate in memory: its row and what it has raised and not handed over. */
  datatype Aggregate = Aggregate(row: Row, events: seq<Event>)

  function Ended(cause: Cause, a: Aggregate): Aggregate {
    if Attempt(cause, a.row).Moved? then
      Aggregate(a.row.(status := Target(cause)), a.events + [Announcement(cause, a.row)])
    else a
  }

  /** NewOrder, once its lines have a total. */
  function NewOrder(id: nat, user: nat, reservation: nat, lines: seq<OrderLine>): Result<Aggregate>
    requires forall l :: l in lines ==> l.quantity > 0
  {
    match Price(lines)
    case Err(f) => Err(f)
    case Ok(total) =>
      Ok(Aggregate(Row(id, user, PendingPayment, lines, total, reservation, 0, 1),
          [OrderPlaced(id, reservation, total)]))
  }

  // ---------------------------------------------------------------------------
  // An order's whole history of announcements

  datatype Op = End(cause: Cause) | PullEvents

  /** What has been pulled out of an aggregate, and what is left of it. */
  datatype History = History(pulled: seq<Event>, aggregate: Aggregate)

  function Do(h: History, op: Op): History {
    match op
    case End(cause) => h.(aggregate := Ended(cause, h.aggregate))
    case PullEvents => History(h.pulled + h.aggregate.events, h.aggregate.(events := []))
  }

  function DoAll(h: History, ops: seq<Op>): History
    decreases |ops|
  {
    if ops == [] then h else DoAll(Do(h, ops[0]), ops[1..])
  }

  /** What an order in this state has announced since it was placed. */
  function Ending(row: Row): seq<Event> {
    match row.status
    case PendingPayment => []
    case Paid => [OrderPaid(row.id, row.reservation, row.total)]
    case Cancelled => [OrderCancelled(row.id, row.reservation)]
  }

  lemma {:induction false} HistoryKept(h: History, placed: seq<Event>, ops: seq<Op>)
    requires h.pulled + h.aggregate.events == placed + Ending(h.aggregate.row)
    ensures var after := DoAll(h, ops);
            after.pulled + after.aggregate.events == placed + Ending(after.aggregate.row)
    decreases |ops|
  {
    if ops != [] {
      var next := Do(h, ops[0]);
      var a := h.aggregate;
      if ops[0].PullEvents? {
        assert next.pulled + next.aggregate.events == h.pulled + a.events;
      } else if Attempt(ops[0].cause, a.row).Moved? {
        var news := [Announcement(ops[0].cause, a.row)];
        assert next.pulled + next.aggregate.events == (h.pulled + a.events) + news;
        assert placed + Ending(a.row) + news == placed + news;
      }
      HistoryKept(next, placed, ops[1..]);
    }
  }

  /** Whatever is asked of a new order, in whatever order and however often, what has been handed over
      and what is waiting together are the placing followed by at most one ending, and that ending is
      the one the status names. Nothing is raised twice and nothing is dropped. */
  lemma OneEndingAnnounced(id: nat, user: nat, reservation: nat, lines: seq<OrderLine>, ops: seq<Op>)
    requires (forall l :: l in lines ==> l.quantity > 0) && NewOrder(id, user, reservation, lines).Ok?
    ensures var placed := NewOrder(id, user, reservation, lines).value;
            var after := DoAll(History([], placed), ops);
            && after.pulled + after.aggregate.events == placed.events + Ending(after.aggregate.row)
            && |placed.events| == 1 && |Ending(after.aggregate.row)| <= 1
            && after.aggregate.row == placed.row.(status := after.aggregate.row.status)
  {
    var placed := NewOrder(id, user, reservation, lines).value;
    HistoryKept(History([], placed), placed.events, ops);
    RowKept(History([], placed), ops);
  }

  lemma {:induction false} RowKept(h: History, ops: seq<Op>)
    ensures DoAll(h, ops).aggregate.row == h.aggregate.row.(status := DoAll(h, ops).aggregate.row.status)
    decreases |ops|
  {
    if ops != [] {
      RowKept(Do(h, ops[0]), ops[1..]);
    }
  }

  /** Whether a cause would end an order that waits for payment: a payment and a cancellation always, a
      timeout from the end of a real window on. */
  predicate Effective(cause: Cause, createdAt: int) {
    cause.Timeout? ==> cause.window > 0 && createdAt + cause.window <= cause.now
  }

  /** The first cause that would ends it: a payment as paid, either other as cancelled. */
  lemma {:induction false} FirstEffectiveEnds(h: History, ops: seq<Op>, n: nat)
    requires h.aggregate.row.status == PendingPayment && n <= |ops|
    requires forall i :: 0 <= i < n ==> ops[i].PullEvents? || !Effective(ops[i].cause, h.aggregate.row.createdAt)
    requires n < |ops| ==> ops[n].End? && Effective(ops[n].cause, h.aggregate.row.createdAt)
    ensures DoAll(h, ops).aggregate.row.status
         == if n == |ops| then PendingPayment else if ops[n].cause.Payment? then Paid else Cancelled
    decreases |ops|
  {
    if n > 0 {
      FirstEffectiveEnds(Do(h, ops[0]), ops[1..], n - 1);
    } else if ops != [] {
      FirstEndingStands(Do(h, ops[0]), ops[1..]);
    }
  }

  /** The first ending stands: once an order has ended, nothing changes it. */
  lemma {:induction false} FirstEndingStands(h: History, ops: seq<Op>)
    requires h.aggregate.row.status != PendingPayment
    ensures DoAll(h, ops).aggregate.row == h.aggregate.row
    decreases |ops|
  {
    if ops != [] {
      FirstEndingStands(Do(h, ops[0]), ops[1..]);
    }
  }

  // ---------------------------------------------------------------------------
  // The aggregate as the use cases hold it

  class Order {
    const id: nat
    const user: nat
    const lines: seq<OrderLine>
    const total: Money
    const reservation: nat
    const createdAt: int
    const version: int
    var status: Status
    var events: seq<Event>

    constructor (stored: Row)
      ensures View() == Aggregate(stored, [])
    {
      id, user, lines, total := stored.id, stored.user, stored.lines, stored.total;
      reservation, createdAt, version := stored.reservation, stored.createdAt, stored.version;
      status := stored.status;
      events := [];
    }

    constructor Placed(id: nat, user: nat, reservation: nat, lines: seq<OrderLine>, total: Money)
      requires (forall l :: l in lines ==> l.quantity > 0) && Price(lines) == Ok(total)
      ensures Ok(View()) == NewOrder(id, user, reservation, lines)
    {
      this.id, this.user, this.lines, this.total := id, user, lines, total;
      this.reservation, this.createdAt, this.version := reservation, 0, 1;
      status := PendingPayment;
      events := [OrderPlaced(id, reservation, total)];
    }

    function View(): Aggregate
      reads this
    {
      Aggregate(Row(id, user, status, lines, total, reservation, createdAt, version), events)
    }

    method MarkPaid() returns (m: Move)
      modifies this
      ensures m == Attempt(Payment, old(View()).row)
      ensures View() == Ended(Payment, old(View()))
    {
      if status == Paid {
        return Unmoved;
      }
      if status == Cancelled {
        return Refused(WasCancelled);
      }
      status := Paid;
      events := events + [OrderPaid(id, reservation, total)];
      return Moved;
    }

    method Cancel() returns (m: Move)
      modifies this
      ensures m == Attempt(Cancellation, old(View()).row)
      ensures View() == Ended(Cancellation, old(View()))
    {
      if status == Cancelled {
        return Unmoved;
      }
      if status == Paid {
        return Refused(WasPaid);
      }
      status := Cancelled;
      events := events + [OrderCancelled(id, reservation)];
      return Moved;
    }

    method Expire(now: int, window: int) returns (m: Move)
      modifies this
      ensures m == Attempt(Timeout(now, window), old(View()).row)
      ensures View() == Ended(Timeout(now, window), old(View()))
    {
      if window <= 0 {
        return Refused(BadWindow);
      }
      if status == Cancelled {
        return Unmoved;
      }
      if status == Paid {
        return Refused(WasPaid);
      }
      if now < createdAt + window {
        return Refused(NotExpired);
      }
      status := Cancelled;
      events := events + [OrderCancelled(id, reservation)];
      return Moved;
    }

    method PullEvents() returns (pulled: seq<Event>)
      modifies this
      ensures pulled == old(events)
      ensures View() == old(View()).(events := [])
    {
      pulled := events;
      events := [];
    }
  }
}
