/** The inventory service's two tables and its transactions over them, interleaved the way a
    READ COMMITTED database interleaves them: a transaction reads a reservation in one step and
    writes in a later one, with any other transactions committing in between. */
module StockLedger {
  import opened CanonicalLines
  import opened Reservations

  /** The largest value of the int columns. */
  const INT_MAX := 0x7FFF_FFFF

  datatype Stock = Stock(available: int, reserved: int)

  /** stock_items by SKU, and reservations by identifier: a new row is given the next one. */
  datatype Db = Db(stock: map<string, Stock>, rows: seq<Hold>)

  datatype Movement = Take | GiveBack | Sell

  datatype Fault =
    | NotTracked
    | OutOfStock
    | Inconsistent
    | Overflow
    | LinesDiffer
    | InFlight
    | ReservationMissing
    | Refusal(why: Reservations.Refusal)
    | Modified
    | AlreadyTracked
    | Invalid

  datatype Answer = Done(id: nat) | Failed(fault: Fault)

  // ---------------------------------------------------------------------------
  // The statements that move stock

  /** Whether the statement's predicate holds of the current row. */
  predicate Allows(m: Movement, s: Stock, quantity: int) {
    match m
    case Take => s.available >= quantity
    case GiveBack | Sell => s.reserved >= quantity
  }

  function Apply(m: Movement, s: Stock, quantity: int): Stock {
    match m
    case Take => Stock(s.available - quantity, s.reserved + quantity)
    case GiveBack => Stock(s.available + quantity, s.reserved - quantity)
    case Sell => Stock(s.available, s.reserved - quantity)
  }

  predicate Storable(s: Stock) {
    s.available <= INT_MAX && s.reserved <= INT_MAX
  }

  datatype Shift = Shifted(stock: map<string, Stock>) | Blocked(fault: Fault)

  function MoveOne(m: Movement, stock: map<string, Stock>, line: Line): Shift {
    if line.sku !in stock then Blocked(NotTracked)
    else if !Allows(m, stock[line.sku], line.quantity) then Blocked(if m.Take? then OutOfStock else Inconsistent)
    else if !Storable(Apply(m, stock[line.sku], line.quantity)) then Blocked(Overflow)
    else Shifted(stock[line.sku := Apply(m, stock[line.sku], line.quantity)])
  }

  /** One statement a line, in the order the lines are held in; the first failure ends it. */
  function MoveAll(m: Movement, stock: map<string, Stock>, lines: seq<Line>): Shift
    decreases |lines|
  {
    if lines == [] then Shifted(stock)
    else
      var one := MoveOne(m, stock, lines[0]);
      if one.Blocked? then one else MoveAll(m, one.stock, lines[1..])
  }

  // ---------------------------------------------------------------------------
  // The transactions

  /** The id of the live hold an order has, if any. */
  function HeldBy(rows: seq<Hold>, order: nat): (r: int)
    ensures -1 <= r < |rows|
    ensures r >= 0 ==> rows[r].order == order && rows[r].status == Held
    ensures r < 0 ==> forall i :: 0 <= i < |rows| ==> rows[i].order != order || rows[i].status != Held
  {
    if rows == [] then -1
    else
      var last := |rows| - 1;
      if rows[last].order == order && rows[last].status == Held then last else HeldBy(rows[..last], order)
  }

  /** The writing half of ReserveStock: stock for every line, then the row, which the partial unique
      index refuses while the order already has a live hold. */
  function ReserveWrite(db: Db, order: nat, lines: seq<Line>, expiresAt: int): (Db, Answer) {
    var shift := MoveAll(Take, db.stock, lines);
    if shift.Blocked? then (db, Failed(shift.fault))
    else if HeldBy(db.rows, order) >= 0 then (db, Failed(InFlight))
    else (Db(shift.stock, db.rows + [Hold(order, lines, Held, expiresAt, 1)]), Done(|db.rows|))
  }

  /** Request parsing: every line names a SKU and carries a count it may carry. */
  predicate Admissible(requested: seq<Line>) {
    forall l :: l in requested ==> l.sku != "" && 1 <= l.quantity <= QUANTITY_MAX
  }

  /** What ReserveStock does about the live hold its read found. */
  function ReserveTx(db: Db, order: nat, lines: seq<Line>, expiresAt: int, found: int, foundLines: seq<Line>)
    : (Db, Answer)
  {
    if found >= 0 then
      if foundLines == lines then (db, Done(found)) else (db, Failed(LinesDiffer))
    else ReserveWrite(db, order, lines, expiresAt)
  }

  function MovementOf(kind: Kind): Movement {
    if kind == Commit then Sell else GiveBack
  }

  /** The rest of settle once it has read copy: the state machine's answer, the movements on the
      rows as they now are, and the update that needs the version that was read. */
  function SettleTx(db: Db, kind: Kind, id: nat, copy: Hold, now: int): (Db, Answer) {
    match Attempt(kind, copy, now)
    case Rejected(why) => (db, Failed(Refusal(why)))
    case Unmoved => (db, Done(id))
    case Moved =>
      var shift := MoveAll(MovementOf(kind), db.stock, copy.lines);
      if shift.Blocked? then (db, Failed(shift.fault))
      else if id >= |db.rows| || db.rows[id].version != copy.version then (db, Failed(Modified))
      else (Db(shift.stock, db.rows[id := Ended(kind, copy, now).(version := copy.version + 1)]), Done(id))
  }

  /** The rows one sweep may claim: distinct, held, run out, and no more than asked for. Which of
      them it gets is the database's choice, since locked rows are skipped. */
  ghost predicate Claimable(rows: seq<Hold>, now: int, limit: nat, claimed: seq<nat>) {
    && |claimed| <= limit
    && (forall i :: 0 <= i < |claimed| ==>
         claimed[i] < |rows| && rows[claimed[i]].status == Held && rows[claimed[i]].expiresAt <= now)
    && (forall i, j :: 0 <= i < j < |claimed| ==> claimed[i] != claimed[j])
  }

  datatype Swept = Swept(db: Db, count: nat) | SweepFailed(fault: Fault)

  /** The sweep's loop over the rows it claimed, all of it in one transaction. */
  function SweepLoop(db: Db, now: int, claimed: seq<nat>): Swept
    decreases |claimed|
  {
    if claimed == [] then Swept(db, 0)
    else if claimed[0] >= |db.rows| then SweepFailed(ReservationMissing)
    else
      var hold := db.rows[claimed[0]];
      match Attempt(Expire, hold, now)
      case Rejected(why) => SweepFailed(Refusal(why))
      case Unmoved => SweepLoop(db, now, claimed[1..])
      case Moved =>
        var (next, answer) := SettleTx(db, Expire, claimed[0], hold, now);
        if answer.Failed? then SweepFailed(answer.fault)
        else
          match SweepLoop(next, now, claimed[1..])
          case SweepFailed(f) => SweepFailed(f)
          case Swept(d, n) => Swept(d, n + 1)
  }

  function SweepTx(db: Db, now: int, claimed: seq<nat>): (Db, nat) {
    match SweepLoop(db, now, claimed)
    case SweepFailed(_) => (db, 0)
    case Swept(d, n) => (d, n)
  }

  function TrackTx(db: Db, sku: string, available: int): (Db, Answer) {
    if available < 0 || available > QUANTITY_MAX then (db, Failed(Invalid))
    else if sku in db.stock then (db, Failed(AlreadyTracked))
    else (db.(stock := db.stock[sku := Stock(available, 0)]), Done(0))
  }

  function AdjustTx(db: Db, sku: string, delta: int): (Db, Answer) {
    if delta == 0 || delta < -QUANTITY_MAX || delta > QUANTITY_MAX then (db, Failed(Invalid))
    else if sku !in db.stock then (db, Failed(NotTracked))
    else
      var s := db.stock[sku];
      if s.available + delta < 0 then (db, Failed(OutOfStock))
      else if s.available + delta > INT_MAX then (db, Failed(Overflow))
      else (db.(stock := db.stock[sku := s.(available := s.available + delta)]), Done(0))
  }

  // ---------------------------------------------------------------------------
  // The interleaved machine

  /** A transaction between its read and its writes. */
  datatype Open =
    | Reserving(order: nat, lines: seq<Line>, expiresAt: int, found: int, foundLines: seq<Line>)
    | Settling(kind: Kind, id: nat, copy: Hold, now: int)

  /** deposits counts what was ever put on the shelf of a SKU, less what was written off; answered
      records every settle that was told it succeeded. Neither is stored by the service: they are
      what the claims below are stated against. */
  datatype State = State(db: Db, open: map<nat, Open>, deposits: map<string, int>, answered: set<(Kind, nat)>)

  datatype Step =
    | Track(sku: string, available: int)
    | Adjust(sku: string, delta: int)
    | OpenReserve(tx: nat, order: nat, requested: seq<Line>, now: int, ttl: int)
    | OpenSettle(tx: nat, kind: Kind, id: nat, now: int)
    | Close(tx: nat)
    | Abandon(tx: nat)
    | Sweep(now: int, limit: nat, claimed: seq<nat>)

  const EMPTY := State(Db(map[], []), map[], map[], {})

  ghost predicate Enabled(s: State, step: Step) {
    match step
    case OpenReserve(tx, _, _, _, _) => tx !in s.open
    case OpenSettle(tx, kind, _, _) => tx !in s.open && kind != Expire
    case Close(tx) => tx in s.open
    case Sweep(now, limit, claimed) => Claimable(s.db.rows, now, limit, claimed)
    case _ => true
  }

  function Closed(s: State, tx: nat): (Db, Answer)
    requires tx in s.open
  {
    match s.open[tx]
    case Reserving(order, lines, expiresAt, found, foundLines) =>
      ReserveTx(s.db, order, lines, expiresAt, found, foundLines)
    case Settling(kind, id, copy, now) => SettleTx(s.db, kind, id, copy, now)
  }

  function Next(s: State, step: Step): State {
    match step
    case Track(sku, available) =>
      var (db, answer) := TrackTx(s.db, sku, available);
      if answer.Done? then s.(db := db, deposits := s.deposits[sku := available]) else s
    case Adjust(sku, delta) =>
      var (db, answer) := AdjustTx(s.db, sku, delta);
      if answer.Done? && sku in s.deposits
      then s.(db := db, deposits := s.deposits[sku := s.deposits[sku] + delta]) else s
    case OpenReserve(tx, order, requested, now, ttl) =>
      var canonical := Canonicalise(requested);
      if !Admissible(requested) || ttl <= 0 || canonical.Refused? then s
      else
        var found := HeldBy(s.db.rows, order);
        s.(open := s.open[tx := Reserving(order, canonical.lines, now + ttl, found,
                                          if found >= 0 then s.db.rows[found].lines else [])])
    case OpenSettle(tx, kind, id, now) =>
      if id >= |s.db.rows| then s else s.(open := s.open[tx := Settling(kind, id, s.db.rows[id], now)])
    case Close(tx) =>
      if tx !in s.open then s
      else
        var (db, answer) := Closed(s, tx);
        var open := s.open[tx];
        s.(db := db, open := s.open - {tx},
           answered := if open.Settling? && answer.Done? then s.answered + {(open.kind, open.id)} else s.answered)
    case Abandon(tx) => s.(open := s.open - {tx})
    case Sweep(now, limit, claimed) => s.(db := SweepTx(s.db, now, claimed).0)
  }

  ghost predicate Legal(s: State, steps: seq<Step>)
    decreases |steps|
  {
    steps == [] || (Enabled(s, steps[0]) && Legal(Next(s, steps[0]), steps[1..]))
  }

  function Run(s: State, steps: seq<Step>): State
    decreases |steps|
  {
    if steps == [] then s else Run(Next(s, steps[0]), steps[1..])
  }

  // ---------------------------------------------------------------------------
  // What is conserved

  /** The quantity of a SKU on the rows of one status. */
  function Quantity(rows: seq<Hold>, status: Status, sku: string): int {
    if rows == [] then 0
    else (if rows[0].status == status then Total(rows[0].lines, sku) else 0) + Quantity(rows[1..], status, sku)
  }

  /** No count is negative; what is reserved is what the live holds hold; and what is on the shelf,
      held and sold together is what was put there. */
  ghost predicate Balanced(db: Db, deposits: map<string, int>, sku: string)
    requires sku in db.stock && sku in deposits
  {
    var c := db.stock[sku];
    && 0 <= c.available && 0 <= c.reserved && Storable(c)
    && c.reserved == Quantity(db.rows, Held, sku)
    && c.available + c.reserved + Quantity(db.rows, Committed, sku) == deposits[sku]
  }

  ghost predicate Conserved(db: Db, deposits: map<string, int>) {
    && deposits.Keys == db.stock.Keys
    && forall sku :: sku in db.stock ==> Balanced(db, deposits, sku)
  }

  ghost predicate RowOk(stock: map<string, Stock>, row: Hold) {
    && StrictlySorted(row.lines) && Positive(row.lines) && Skus(row.lines) <= stock.Keys
    && row.status != Unnamed
  }

  ghost predicate RowsOk(db: Db) {
    && (forall i :: 0 <= i < |db.rows| ==> RowOk(db.stock, db.rows[i]))
    && (forall i, j :: 0 <= i < j < |db.rows| && db.rows[i].status == Held && db.rows[j].status == Held ==>
         db.rows[i].order != db.rows[j].order)
  }

  /** row may be what a reader that saw copy finds later: a row is never written again at the same
      version, nor at all once it has ended. */
  ghost predicate Follows(copy: Hold, row: Hold) {
    && copy.order == row.order && copy.lines == row.lines && copy.expiresAt == row.expiresAt
    && copy.version <= row.version
    && (copy.version == row.version || copy.status != Held ==> copy == row)
  }

  ghost predicate OpenOk(rows: seq<Hold>, open: Open) {
    match open
    case Reserving(order, lines, _, found, foundLines) =>
      && StrictlySorted(lines) && Positive(lines) && found < |rows|
      && (found >= 0 ==> rows[found].order == order && rows[found].lines == foundLines)
    case Settling(kind, id, copy, _) => kind != Expire && id < |rows| && Follows(copy, rows[id])
  }

  /** What the callers that were answered rely on still holds. */
  ghost predicate AnswerOk(rows: seq<Hold>, a: (Kind, nat)) {
    && a.1 < |rows|
    && (a.0 == Commit ==> rows[a.1].status == Committed)
    && (a.0 == Release ==> rows[a.1].status == Released || rows[a.1].status == Expired)
  }

  ghost predicate Inv(s: State) {
    && Conserved(s.db, s.deposits)
    && RowsOk(s.db)
    && (forall tx :: tx in s.open ==> OpenOk(s.db.rows, s.open[tx]))
    && (forall a :: a in s.answered ==> AnswerOk(s.db.rows, a))
  }

  // ---------------------------------------------------------------------------
  // Sums over rows

  lemma {:induction false} QuantityAppend(rows: seq<Hold>, row: Hold, status: Status, sku: string)
    ensures Quantity(rows + [row], status, sku)
         == Quantity(rows, status, sku) + if row.status == status then Total(row.lines, sku) else 0
  {
    if rows == [] {
      assert rows + [row] == [row] && [row][1..] == [];
    } else {
      assert (rows + [row])[1..] == rows[1..] + [row];
      QuantityAppend(rows[1..], row, status, sku);
    }
  }

  lemma {:induction false} QuantityUpdate(rows: seq<Hold>, i: nat, row: Hold, status: Status, sku: string)
    requires i < |rows|
    ensures Quantity(rows[i := row], status, sku)
         == Quantity(rows, status, sku)
            - (if rows[i].status == status then Total(rows[i].lines, sku) else 0)
            + (if row.status == status then Total(row.lines, sku) else 0)
  {
    if i == 0 {
      assert rows[0 := row][1..] == rows[1..];
    } else {
      assert rows[i := row][1..] == rows[1..][i - 1 := row];
      QuantityUpdate(rows[1..], i - 1, row, status, sku);
    }
  }

  ghost predicate AllPositive(rows: seq<Hold>) {
    forall i :: 0 <= i < |rows| ==> Positive(rows[i].lines)
  }

  lemma {:induction false} QuantityNonNegative(rows: seq<Hold>, status: Status, sku: string)
    requires AllPositive(rows)
    ensures Quantity(rows, status, sku) >= 0
  {
    if rows != [] {
      TotalNonNegative(rows[0].lines, sku);
      QuantityNonNegative(rows[1..], status, sku);
    }
  }

  lemma {:induction false} QuantityCovers(rows: seq<Hold>, i: nat, sku: string)
    requires i < |rows| && AllPositive(rows)
    ensures Quantity(rows, rows[i].status, sku) >= Total(rows[i].lines, sku)
  {
    TotalNonNegative(rows[0].lines, sku);
    if i == 0 {
      QuantityNonNegative(rows[1..], rows[0].status, sku);
    } else {
      assert rows[1..][i - 1] == rows[i];
      QuantityCovers(rows[1..], i - 1, sku);
    }
  }

  lemma {:induction false} QuantityUntracked(rows: seq<Hold>, stock: map<string, Stock>, status: Status, sku: string)
    requires forall i :: 0 <= i < |rows| ==> Skus(rows[i].lines) <= stock.Keys
    requires sku !in stock
    ensures Quantity(rows, status, sku) == 0
  {
    if rows != [] {
      TotalAbsent(rows[0].lines, sku);
      QuantityUntracked(rows[1..], stock, status, sku);
    }
  }

  // ---------------------------------------------------------------------------
  // What the movements do

  function Shelf(m: Movement): int {
    match m case Take => -1 case GiveBack => 1 case Sell => 0
  }

  function Reserve(m: Movement): int {
    if m.Take? then 1 else -1
  }

  lemma {:induction false} MoveAllEffect(m: Movement, stock: map<string, Stock>, lines: seq<Line>)
    requires MoveAll(m, stock, lines).Shifted?
    ensures MoveAll(m, stock, lines).stock.Keys == stock.Keys && Skus(lines) <= stock.Keys
    decreases |lines|
  {
    if lines != [] {
      MoveAllEffect(m, MoveOne(m, stock, lines[0]).stock, lines[1..]);
    }
  }

  lemma {:induction false} MoveAllCounts(m: Movement, stock: map<string, Stock>, lines: seq<Line>, sku: string)
    requires MoveAll(m, stock, lines).Shifted? && sku in stock
    ensures sku in MoveAll(m, stock, lines).stock
    ensures var after := MoveAll(m, stock, lines).stock[sku];
            && after.available == stock[sku].available + Shelf(m) * Total(lines, sku)
            && after.reserved == stock[sku].reserved + Reserve(m) * Total(lines, sku)
    decreases |lines|
  {
    if lines != [] {
      MoveAllCounts(m, MoveOne(m, stock, lines[0]).stock, lines[1..], sku);
    }
  }

  /** Positive movements keep every count non-negative: the predicates see to it. */
  lemma {:induction false} MoveAllStaysAbove(m: Movement, stock: map<string, Stock>, lines: seq<Line>, sku: string)
    requires MoveAll(m, stock, lines).Shifted? && sku in stock && Positive(lines)
    requires 0 <= stock[sku].available && 0 <= stock[sku].reserved && Storable(stock[sku])
    ensures sku in MoveAll(m, stock, lines).stock
    ensures var after := MoveAll(m, stock, lines).stock[sku];
            0 <= after.available && 0 <= after.reserved && Storable(after)
    decreases |lines|
  {
    if lines != [] {
      assert lines[0] in lines;
      MoveAllStaysAbove(m, MoveOne(m, stock, lines[0]).stock, lines[1..], sku);
    }
  }

  /** If the hold is covered, selling or giving it back is refused by no predicate: only the size of
      the column can stop it, and that cannot stop a sale. */
  lemma {:induction false} CoveredMoves(m: Movement, stock: map<string, Stock>, lines: seq<Line>)
    requires !m.Take? && Positive(lines) && StrictlySorted(lines) && Skus(lines) <= stock.Keys
    requires forall s :: s in Skus(lines) ==> stock[s].reserved >= Total(lines, s) && Storable(stock[s])
    ensures MoveAll(m, stock, lines).Blocked? ==> m.GiveBack? && MoveAll(m, stock, lines).fault == Overflow
    decreases |lines|
  {
    if lines != [] {
      var line := lines[0];
      assert line in lines;
      AfterAbsent(line.sku, lines[1..]);
      assert stock[line.sku].reserved >= line.quantity;
      var one := MoveOne(m, stock, line);
      if one.Shifted? {
        forall s | s in Skus(lines[1..])
          ensures one.stock[s].reserved >= Total(lines[1..], s) && Storable(one.stock[s])
        {
          assert s != line.sku;
          assert stock[s].reserved >= Total(lines, s);
        }
        CoveredMoves(m, one.stock, lines[1..]);
      }
    }
  }

  /** What is covered and has room on the shelf can be given back. */
  lemma {:induction false} ReturnFits(stock: map<string, Stock>, lines: seq<Line>)
    requires Positive(lines) && StrictlySorted(lines) && Skus(lines) <= stock.Keys
    requires forall s :: s in Skus(lines) ==>
               && stock[s].reserved >= Total(lines, s) && stock[s].available + Total(lines, s) <= INT_MAX
               && stock[s].reserved <= INT_MAX
    ensures MoveAll(GiveBack, stock, lines).Shifted?
    decreases |lines|
  {
    if lines != [] {
      var line := lines[0];
      assert line in lines;
      AfterAbsent(line.sku, lines[1..]);
      assert Total(lines, line.sku) == line.quantity;
      var one := MoveOne(GiveBack, stock, line);
      forall s | s in Skus(lines[1..])
        ensures one.stock[s].reserved >= Total(lines[1..], s)
                && one.stock[s].available + Total(lines[1..], s) <= INT_MAX && one.stock[s].reserved <= INT_MAX
      {
        assert s != line.sku && Total(lines, s) == Total(lines[1..], s);
      }
      ReturnFits(one.stock, lines[1..]);
    }
  }
}
