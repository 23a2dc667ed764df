/** The inventory use cases, statement by statement, each proved to do in one uninterrupted run what
    the ledger's transaction does. */
module InventoryUseCases {
  import opened CanonicalLines
  import opened Reservations
  import opened StockLedger

  const DEFAULT_SWEEP_LIMIT := 100

  /** ReserveStock run on its own: parse, canonicalise, and then the transaction. */
  function ReserveNow(db: Db, order: nat, requested: seq<Line>, now: int, ttl: int): (Db, Answer) {
    var canonical := Canonicalise(requested);
    if !Admissible(requested) || ttl <= 0 || canonical.Refused? then (db, Failed(Invalid))
    else
      var found := HeldBy(db.rows, order);
      ReserveTx(db, order, canonical.lines, now + ttl, found, if found >= 0 then db.rows[found].lines else [])
  }

  function SettleNow(db: Db, kind: Kind, id: nat, now: int): (Db, Answer) {
    if id >= |db.rows| then (db, Failed(ReservationMissing)) else SettleTx(db, kind, id, db.rows[id], now)
  }

  lemma NewHoldIsFound(rows: seq<Hold>, row: Hold)
    requires row.status == Held
    ensures HeldBy(rows + [row], row.order) == |rows|
  {
  }

  /** Reserving is idempotent: asking again for the same lines, in any order and at any time, is answered
      with the hold the order already has and takes nothing; asking for others is refused. */
  lemma ReserveAgain(db: Db, order: nat, requested: seq<Line>, now: int, ttl: int, again: seq<Line>, later: int)
    requires ReserveNow(db, order, requested, now, ttl).1.Done?
    requires Admissible(again) && Canonicalise(again).Canonical?
    ensures var (after, answer) := ReserveNow(db, order, requested, now, ttl);
            ReserveNow(after, order, again, later, ttl)
              == (after, if Canonicalise(again) == Canonicalise(requested) then answer else Failed(LinesDiffer))
  {
    var found := HeldBy(db.rows, order);
    if found < 0 {
      NewHoldIsFound(db.rows, Hold(order, Canonicalise(requested).lines, Held, now + ttl, 1));
    }
  }

  /** So are committing and releasing; and a hold that went one way is refused the other. */
  lemma SettleAgain(db: Db, kind: Kind, id: nat, now: int, later: int)
    requires kind != Expire && SettleNow(db, kind, id, now).1.Done?
    ensures var after := SettleNow(db, kind, id, now).0;
            && SettleNow(after, kind, id, later) == (after, Done(id))
            && (kind == Commit ==> SettleNow(after, Release, id, later) == (after, Failed(Refusal(WasCommitted))))
            && (kind == Release ==>
                  SettleNow(after, Commit, id, later).0 == after && SettleNow(after, Commit, id, later).1.Failed?)
  {
  }

  method MoveLines(m: Movement, stock: map<string, Stock>, lines: seq<Line>) returns (r: Shift)
    ensures r == MoveAll(m, stock, lines)
  {
    var current := stock;
    var i := 0;
    while i < |lines|
      invariant 0 <= i <= |lines|
      invariant MoveAll(m, current, lines[i..]) == MoveAll(m, stock, lines)
    {
      assert lines[i..][1..] == lines[i + 1..];
      var one := MoveOne(m, current, lines[i]);
      if one.Blocked? {
        return one;
      }
      current := one.stock;
      i := i + 1;
    }
    return Shifted(current);
  }

  class InventoryService {
    var stock: map<string, Stock>
    var rows: seq<Hold>
    const reservationTtl: int

    constructor (reservationTtl: int)
      ensures Tables() == EMPTY.db
    {
      this.stock, this.rows := map[], [];
      this.reservationTtl := reservationTtl;
    }

    function Tables(): Db
      reads this
    {
      Db(stock, rows)
    }

    method CreateStockItem(sku: string, available: int) returns (a: Answer)
      modifies this
      ensures (Tables(), a) == TrackTx(old(Tables()), sku, available)
    {
      if available < 0 || available > QUANTITY_MAX {
        return Failed(Invalid);
      }
      if sku in stock {
        return Failed(AlreadyTracked);
      }
      stock := stock[sku := Stock(available, 0)];
      return Done(0);
    }

    method AdjustStock(sku: string, delta: int) returns (a: Answer)
      modifies this
      ensures (Tables(), a) == AdjustTx(old(Tables()), sku, delta)
    {
      if delta == 0 || delta < -QUANTITY_MAX || delta > QUANTITY_MAX {
        return Failed(Invalid);
      }
      if sku !in stock {
        return Failed(NotTracked);
      }
      var item := stock[sku];
      if item.available + delta < 0 {
        return Failed(OutOfStock);
      }
      if item.available + delta > INT_MAX {
        return Failed(Overflow);
      }
      stock := stock[sku := item.(available := item.available + delta)];
      return Done(0);
    }

    method ReserveStock(order: nat, requested: seq<Line>, now: int) returns (a: Answer)
      modifies this
      ensures (Tables(), a) == ReserveNow(old(Tables()), order, requested, now, reservationTtl)
    {
      for i := 0 to |requested|
        invariant forall l :: l in requested[..i] ==> l.sku != "" && 1 <= l.quantity <= QUANTITY_MAX
      {
        var line := requested[i];
        if line.sku == "" || line.quantity < 1 || line.quantity > QUANTITY_MAX {
          assert line in requested;
          return Failed(Invalid);
        }
        assert requested[..i + 1] == requested[..i] + [line];
      }
      assert requested[..|requested|] == requested;
      if reservationTtl <= 0 {
        return Failed(Invalid);
      }
      var candidate := CanonicalLines.CanonicalLines(requested);
      if candidate.Refused? {
        return Failed(Invalid);
      }
      var found := HeldBy(rows, order);
      if found >= 0 {
        var existing := new Reservation(rows[found]);
        var same := existing.Matches(candidate.lines);
        return if same then Done(found) else Failed(LinesDiffer);
      }
      var shift := MoveLines(Take, stock, candidate.lines);
      if shift.Blocked? {
        return Failed(shift.fault);
      }
      var id := |rows|;
      stock, rows := shift.stock, rows + [Hold(order, candidate.lines, Held, now + reservationTtl, 1)];
      return Done(id);
    }

    /** Loads the reservation, asks it to move, moves its stock, and writes it back at the version it
        was read at. Nothing is installed unless all of that succeeds. */
    method Settle(kind: Kind, id: nat, now: int) returns (a: Answer)
      requires kind != Expire
      modifies this
      ensures (Tables(), a) == SettleNow(old(Tables()), kind, id, now)
    {
      if id >= |rows| {
        return Failed(ReservationMissing);
      }
      var reservation := new Reservation(rows[id]);
      var moved: Move;
      if kind == Commit {
        moved := reservation.Commit(now);
      } else {
        moved := reservation.Release();
      }
      if moved.Rejected? {
        return Failed(Refusal(moved.why));
      }
      if moved.Unmoved? {
        return Done(id);
      }
      var shift := MoveLines(MovementOf(kind), stock, reservation.lines);
      if shift.Blocked? {
        return Failed(shift.fault);
      }
      stock := shift.stock;
      rows := rows[id := reservation.Snapshot().(version := reservation.version + 1)];
      return Done(id);
    }

    /** One sweep over the rows the database handed it. A failure anywhere leaves every row and every
        count as it was. */
    method ExpireReservations(now: int, limit: int, claimed: seq<nat>) returns (swept: nat)
      requires Claimable(rows, now, if limit <= 0 then DEFAULT_SWEEP_LIMIT else limit, claimed)
      modifies this
      ensures (Tables(), swept) == SweepTx(old(Tables()), now, claimed)
    {
      var stock', rows' := stock, rows;
      swept := 0;
      var i := 0;
      while i < |claimed|
        invariant 0 <= i <= |claimed| && |rows'| == |rows|
        invariant Tables() == old(Tables())
        invariant SweepLoop(Tables(), now, claimed) == Later(SweepLoop(Db(stock', rows'), now, claimed[i..]), swept)
      {
        assert claimed[i..][1..] == claimed[i + 1..];
        var reservation := new Reservation(rows'[claimed[i]]);
        var moved := reservation.Expire(now);
        if moved.Rejected? {
          return 0;
        }
        if moved.Moved? {
          var shift := MoveLines(GiveBack, stock', reservation.lines);
          if shift.Blocked? {
            return 0;
          }
          stock' := shift.stock;
          rows' := rows'[claimed[i] := reservation.Snapshot().(version := reservation.version + 1)];
          swept := swept + 1;
        }
        i := i + 1;
      }
      stock, rows := stock', rows';
    }
  }

  function Later(s: Swept, count: nat): Swept {
    match s
    case SweepFailed(_) => s
    case Swept(db, n) => Swept(db, n + count)
  }
}
