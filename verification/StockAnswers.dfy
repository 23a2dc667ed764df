/** What inventory answers, and when: over the counts, the deadlines and the quantities asked for. */
module StockAnswers {
  import opened Text
  import opened CanonicalLines
  import opened Reservations
  import opened StockLedger
  import LedgerSafety
  import U = InventoryUseCases

  /** Counts as the columns hold them. */
  ghost predicate Columns(stock: map<string, Stock>) {
    forall s :: s in stock ==> 0 <= stock[s].available <= 0x7FFF_FFFF && 0 <= stock[s].reserved <= 0x7FFF_FFFF
  }

  // ---------------------------------------------------------------------------
  // Reserving

  /** A request that names goods, each a countable number of times, few enough and little enough of each. */
  ghost predicate WellAsked(requested: seq<Line>) {
    && 1 <= |requested| <= 100
    && (forall l :: l in requested ==> l.sku != "" && 1 <= l.quantity <= 1_000_000)
    && forall sku :: Total(requested, sku) <= 10_000
  }

  /** The shelf has that many, and the column can count them as held. */
  predicate Holds(stock: map<string, Stock>, sku: string, n: int) {
    sku in stock && stock[sku].available >= n && stock[sku].reserved + n <= 0x7FFF_FFFF
  }

  function WhyNot(stock: map<string, Stock>, sku: string, n: int): StockLedger.Fault {
    if sku !in stock then NotTracked
    else if stock[sku].available < n then OutOfStock
    else Overflow
  }

  ghost predicate Holdable(stock: map<string, Stock>, requested: seq<Line>) {
    forall sku :: Total(requested, sku) > 0 ==> Holds(stock, sku, Total(requested, sku))
  }

  /** The SKU that stops a reserve: the least of those that cannot be held. */
  ghost predicate FirstShort(stock: map<string, Stock>, requested: seq<Line>, sku: string) {
    && Total(requested, sku) > 0 && !Holds(stock, sku, Total(requested, sku))
    && forall other :: Total(requested, other) > 0 && !Holds(stock, other, Total(requested, other)) ==>
         other == sku || Below(sku, other)
  }

  ghost predicate AllHold(stock: map<string, Stock>, lines: seq<Line>, n: nat) {
    n <= |lines| && forall i :: 0 <= i < n ==> Holds(stock, lines[i].sku, lines[i].quantity)
  }

  lemma {:induction false} TakesUpTo(stock: map<string, Stock>, lines: seq<Line>) returns (n: nat)
    requires StrictlySorted(lines) && Positive(lines) && Columns(stock)
    ensures AllHold(stock, lines, n)
    ensures n == |lines| ==> MoveAll(Take, stock, lines).Shifted?
    ensures n < |lines| ==>
              && !Holds(stock, lines[n].sku, lines[n].quantity)
              && MoveAll(Take, stock, lines) == Blocked(WhyNot(stock, lines[n].sku, lines[n].quantity))
    decreases |lines|
  {
    n := 0;
    if lines != [] {
      assert lines[0] in lines;
      if Holds(stock, lines[0].sku, lines[0].quantity) {
        var next, rest := MoveOne(Take, stock, lines[0]).stock, lines[1..];
        var m := TakesUpTo(next, rest);
        n := m + 1;
        forall i | 0 < i < |lines|
          ensures rest[i - 1] == lines[i] && lines[i].sku != lines[0].sku
        {
          SkuListed(rest, i - 1);
          BelowIrreflexive(lines[0].sku);
        }
        forall i | 0 <= i < n ensures Holds(stock, lines[i].sku, lines[i].quantity) {
          if i > 0 { assert Holds(next, rest[i - 1].sku, rest[i - 1].quantity); }
        }
      }
    }
  }

  /** The lines of a canonical form are the SKUs asked for, each as often as it was. */
  lemma LinesAreAsked(requested: seq<Line>, lines: seq<Line>, sku: string)
    requires SameTotals(lines, requested) && StrictlySorted(lines) && Positive(lines)
    ensures Total(requested, sku) > 0 <==> exists i :: 0 <= i < |lines| && lines[i].sku == sku
    ensures forall i :: 0 <= i < |lines| && lines[i].sku == sku ==> lines[i].quantity == Total(requested, sku)
  {
    assert Total(lines, sku) == Total(requested, sku);
    forall i | 0 <= i < |lines| && lines[i].sku == sku
      ensures lines[i].quantity == Total(requested, sku) && Total(requested, sku) > 0
    {
      LineIsTotal(lines, i);
      assert lines[i] in lines;
    }
    if Total(requested, sku) > 0 {
      if sku !in Skus(lines) {
        TotalAbsent(lines, sku);
      } else {
        var i := SkuIsListed(lines, sku);
      }
    }
  }

  /** Exactly such requests get as far as the transaction, with a canonical form of what they ask for. */
  lemma WellAskedIsCanonical(requested: seq<Line>)
    ensures WellAsked(requested) <==> Admissible(requested) && Canonicalise(requested).Canonical?
    ensures WellAsked(requested) ==>
              var lines := Canonicalise(requested).lines;
              StrictlySorted(lines) && Positive(lines) && SameTotals(lines, requested)
  {
    if Requested(requested) {
      CanonicalExactlyWithinBounds(requested);
      if WellAsked(requested) {
        CanonicalForm(requested);
      }
    }
  }

  lemma AllHeldIsHoldable(stock: map<string, Stock>, requested: seq<Line>, lines: seq<Line>)
    requires SameTotals(lines, requested) && StrictlySorted(lines) && Positive(lines)
    ensures AllHold(stock, lines, |lines|) <==> Holdable(stock, requested)
  {
    forall i | 0 <= i < |lines|
      ensures lines[i].quantity == Total(requested, lines[i].sku) && Total(requested, lines[i].sku) > 0
    {
      LinesAreAsked(requested, lines, lines[i].sku);
    }
    if AllHold(stock, lines, |lines|) {
      forall sku | Total(requested, sku) > 0 ensures Holds(stock, sku, Total(requested, sku)) {
        LinesAreAsked(requested, lines, sku);
        var i :| 0 <= i < |lines| && lines[i].sku == sku;
      }
    }
  }

  /** Lines are taken in SKU order, so the one that stops it has the least SKU of those that would. */
  lemma StopIsFirst(stock: map<string, Stock>, requested: seq<Line>, lines: seq<Line>, n: nat)
    requires SameTotals(lines, requested) && StrictlySorted(lines) && Positive(lines)
    requires n < |lines| && AllHold(stock, lines, n) && !Holds(stock, lines[n].sku, lines[n].quantity)
    ensures FirstShort(stock, requested, lines[n].sku) && lines[n].quantity == Total(requested, lines[n].sku)
  {
    LinesAreAsked(requested, lines, lines[n].sku);
    forall other | Total(requested, other) > 0 && !Holds(stock, other, Total(requested, other))
      ensures other == lines[n].sku || Below(lines[n].sku, other)
    {
      LinesAreAsked(requested, lines, other);
      var i :| 0 <= i < |lines| && lines[i].sku == other;
      assert i >= n;
      if i > n { SortedApart(lines, n, i); }
    }
  }

  lemma {:induction false} SortedApart(lines: seq<Line>, i: nat, j: nat)
    requires StrictlySorted(lines) && i < j < |lines|
    ensures Below(lines[i].sku, lines[j].sku)
  {
    assert lines[1..][j - 1] == lines[j];
    if i == 0 {
      SkuListed(lines[1..], j - 1);
    } else {
      assert lines[1..][i - 1] == lines[i];
      SortedApart(lines[1..], i - 1, j - 1);
    }
  }

  ghost predicate NoLiveHold(rows: seq<Hold>, order: nat) {
    forall r :: 0 <= r < |rows| ==> !(rows[r].order == order && rows[r].status == Held)
  }

  /** A reserve for an order that holds nothing is done exactly if it asks well, has some time to hold, and
      the shelf and the column have room for all of it. */
  lemma ReserveSucceedsIff(db: Db, order: nat, requested: seq<Line>, now: int, ttl: int)
    requires NoLiveHold(db.rows, order) && Columns(db.stock)
    ensures U.ReserveNow(db, order, requested, now, ttl).1.Done?
       <==> WellAsked(requested) && ttl > 0 && Holdable(db.stock, requested)
  {
    WellAskedIsCanonical(requested);
    if WellAsked(requested) && ttl > 0 {
      var lines := Canonicalise(requested).lines;
      var n := TakesUpTo(db.stock, lines);
      AllHeldIsHoldable(db.stock, requested, lines);
    }
  }

  /** And if it is not: a request that does not ask well, or for no time, is called invalid; any other is
      told what is wrong with the first SKU that is short. Nothing changes. */
  lemma RefusedReserveSaysWhy(db: Db, order: nat, requested: seq<Line>, now: int, ttl: int) returns (sku: string)
    requires NoLiveHold(db.rows, order) && Columns(db.stock)
    requires U.ReserveNow(db, order, requested, now, ttl).1.Failed?
    ensures U.ReserveNow(db, order, requested, now, ttl).0 == db
    ensures var fault := U.ReserveNow(db, order, requested, now, ttl).1.fault;
            if WellAsked(requested) && ttl > 0
            then FirstShort(db.stock, requested, sku) && fault == WhyNot(db.stock, sku, Total(requested, sku))
            else fault == Invalid
  {
    WellAskedIsCanonical(requested);
    sku := "";
    if WellAsked(requested) && ttl > 0 {
      var lines := Canonicalise(requested).lines;
      var n := TakesUpTo(db.stock, lines);
      if n < |lines| {
        sku := lines[n].sku;
        StopIsFirst(db.stock, requested, lines, n);
      }
    }
  }

  /** What it leaves: what was asked for moved from the shelf into what is held, by a new live hold. */
  lemma ReserveLeaves(db: Db, order: nat, requested: seq<Line>, now: int, ttl: int)
    requires NoLiveHold(db.rows, order) && U.ReserveNow(db, order, requested, now, ttl).1.Done?
    ensures var (after, answer) := U.ReserveNow(db, order, requested, now, ttl);
            && answer.id == |db.rows| && |after.rows| == |db.rows| + 1 && after.rows[..|db.rows|] == db.rows
            && after.rows[answer.id] == Hold(order, after.rows[answer.id].lines, Held, now + ttl, 1)
            && SameTotals(after.rows[answer.id].lines, requested)
            && StrictlySorted(after.rows[answer.id].lines) && Positive(after.rows[answer.id].lines)
            && after.stock.Keys == db.stock.Keys
            && forall s :: s in db.stock ==>
                 after.stock[s] == Stock(db.stock[s].available - Total(requested, s),
                                         db.stock[s].reserved + Total(requested, s))
  {
    WellAskedIsCanonical(requested);
    var lines := Canonicalise(requested).lines;
    MoveAllEffect(Take, db.stock, lines);
    forall s | s in db.stock ensures Total(lines, s) == Total(requested, s) {}
    forall s | s in db.stock
      ensures s in MoveAll(Take, db.stock, lines).stock
      ensures MoveAll(Take, db.stock, lines).stock[s]
           == Stock(db.stock[s].available - Total(requested, s), db.stock[s].reserved + Total(requested, s))
    {
      MoveAllCounts(Take, db.stock, lines, s);
    }
  }

  /** A reserve for an order that holds something is answered with that hold if it asks for the same of
      every SKU, and refused if not; either way it takes nothing. */
  lemma ReserveOfALiveHold(db: Db, order: nat, r: nat, requested: seq<Line>, now: int, ttl: int)
    requires RowsOk(db) && r < |db.rows| && db.rows[r].order == order && db.rows[r].status == Held
    requires WellAsked(requested) && ttl > 0
    ensures U.ReserveNow(db, order, requested, now, ttl)
         == (db, if SameTotals(db.rows[r].lines, requested) then Done(r) else Failed(LinesDiffer))
  {
    WellAskedIsCanonical(requested);
    var lines := Canonicalise(requested).lines;
    var found := HeldBy(db.rows, order);
    assert found == r;
    assert RowOk(db.stock, db.rows[r]);
    if SameTotals(db.rows[r].lines, requested) {
      forall s ensures Total(lines, s) == Total(db.rows[r].lines, s) {
        assert Total(lines, s) == Total(requested, s);
        assert Total(db.rows[r].lines, s) == Total(requested, s);
      }
      SortedUnique(lines, db.rows[r].lines);
    }
  }

  // ---------------------------------------------------------------------------
  // Committing and releasing

  lemma SettledStock(db: Db, deposits: map<string, int>, id: nat)
    requires RowsOk(db) && Conserved(db, deposits) && id < |db.rows| && db.rows[id].status == Held
    ensures forall s :: s in Skus(db.rows[id].lines) ==>
              && s in db.stock && Storable(db.stock[s]) && db.stock[s].reserved >= Total(db.rows[id].lines, s)
    ensures StrictlySorted(db.rows[id].lines) && Positive(db.rows[id].lines)
  {
    assert RowOk(db.stock, db.rows[id]);
    forall s | s in Skus(db.rows[id].lines)
      ensures s in db.stock && Storable(db.stock[s]) && db.stock[s].reserved >= Total(db.rows[id].lines, s)
    {
      assert Balanced(db, deposits, s);
      LedgerSafety.RowsPositive(db);
      QuantityCovers(db.rows, id, s);
    }
  }

  /** One row ended, and its stock out of what is held: onto the shelf, or gone. */
  ghost predicate OneEnded(db: Db, after: Db, id: nat, status: Status, back: bool)
    requires id < |db.rows|
  {
    var row := db.rows[id];
    && after.rows == db.rows[id := row.(status := status, version := row.version + 1)]
    && after.stock.Keys == db.stock.Keys
    && forall s :: s in db.stock ==>
         after.stock[s] == Stock(db.stock[s].available + (if back then Total(row.lines, s) else 0),
                                 db.stock[s].reserved - Total(row.lines, s))
  }

  lemma MovedStock(db: Db, id: nat, m: Movement)
    requires id < |db.rows| && !m.Take? && MoveAll(m, db.stock, db.rows[id].lines).Shifted?
    ensures var after := MoveAll(m, db.stock, db.rows[id].lines).stock;
            && after.Keys == db.stock.Keys
            && forall s :: s in db.stock ==>
                 after[s] == Stock(db.stock[s].available + (if m.GiveBack? then Total(db.rows[id].lines, s) else 0),
                                   db.stock[s].reserved - Total(db.rows[id].lines, s))
  {
    MoveAllEffect(m, db.stock, db.rows[id].lines);
    forall s | s in db.stock
      ensures s in MoveAll(m, db.stock, db.rows[id].lines).stock
      ensures MoveAll(m, db.stock, db.rows[id].lines).stock[s]
           == Stock(db.stock[s].available + (if m.GiveBack? then Total(db.rows[id].lines, s) else 0),
                    db.stock[s].reserved - Total(db.rows[id].lines, s))
    {
      MoveAllCounts(m, db.stock, db.rows[id].lines, s);
    }
  }

  /** What a commit is told, for every row and every time; and that it sells a live hold before its
      deadline and does nothing else. */
  lemma CommitAnswers(db: Db, deposits: map<string, int>, id: nat, now: int)
    requires RowsOk(db) && Conserved(db, deposits)
    ensures U.SettleNow(db, Commit, id, now).1
         == if id >= |db.rows| then Failed(ReservationMissing)
            else match db.rows[id].status
                 case Committed => Done(id)
                 case Released => Failed(Refusal(WasReleased))
                 case Expired => Failed(Refusal(HasExpired))
                 case Held => if now < db.rows[id].expiresAt then Done(id) else Failed(Refusal(HasExpired))
                 case Unnamed => Failed(Refusal(NotFound))
    ensures if id < |db.rows| && db.rows[id].status == Held && now < db.rows[id].expiresAt
            then OneEnded(db, U.SettleNow(db, Commit, id, now).0, id, Committed, false)
            else U.SettleNow(db, Commit, id, now).0 == db
  {
    if id < |db.rows| && db.rows[id].status == Held && now < db.rows[id].expiresAt {
      SettledStock(db, deposits, id);
      CoveredMoves(Sell, db.stock, db.rows[id].lines);
      MovedStock(db, id, Sell);
    }
  }

  /** The column has room for the hold to come back. */
  ghost predicate RoomBack(stock: map<string, Stock>, lines: seq<Line>) {
    forall s :: s in stock ==> stock[s].available + Total(lines, s) <= 0x7FFF_FFFF
  }

  lemma ReturnsIffRoom(db: Db, deposits: map<string, int>, id: nat)
    requires RowsOk(db) && Conserved(db, deposits) && id < |db.rows| && db.rows[id].status == Held
    ensures MoveAll(GiveBack, db.stock, db.rows[id].lines).Shifted? <==> RoomBack(db.stock, db.rows[id].lines)
    ensures MoveAll(GiveBack, db.stock, db.rows[id].lines).Blocked? ==>
              MoveAll(GiveBack, db.stock, db.rows[id].lines).fault == Overflow
  {
    var lines := db.rows[id].lines;
    SettledStock(db, deposits, id);
    CoveredMoves(GiveBack, db.stock, lines);
    if RoomBack(db.stock, lines) {
      ReturnFits(db.stock, lines);
    }
    if MoveAll(GiveBack, db.stock, lines).Shifted? {
      MovedStock(db, id, GiveBack);
      forall s | s in db.stock ensures db.stock[s].available + Total(lines, s) <= 0x7FFF_FFFF {
        assert Balanced(db, deposits, s);
        MoveAllStaysAbove(GiveBack, db.stock, lines, s);
      }
    }
  }

  /** What a release is told; and that it returns a live hold, whatever the time, and does nothing else. */
  lemma ReleaseAnswers(db: Db, deposits: map<string, int>, id: nat, now: int)
    requires RowsOk(db) && Conserved(db, deposits)
    ensures U.SettleNow(db, Release, id, now).1
         == if id >= |db.rows| then Failed(ReservationMissing)
            else match db.rows[id].status
                 case Committed => Failed(Refusal(WasCommitted))
                 case Released => Done(id)
                 case Expired => Done(id)
                 case Held => if RoomBack(db.stock, db.rows[id].lines) then Done(id) else Failed(Overflow)
                 case Unnamed => Failed(Refusal(NotFound))
    ensures if id < |db.rows| && db.rows[id].status == Held && RoomBack(db.stock, db.rows[id].lines)
            then OneEnded(db, U.SettleNow(db, Release, id, now).0, id, Released, true)
            else U.SettleNow(db, Release, id, now).0 == db
  {
    if id < |db.rows| && db.rows[id].status == Held {
      ReturnsIffRoom(db, deposits, id);
      if RoomBack(db.stock, db.rows[id].lines) {
        MovedStock(db, id, GiveBack);
      }
    }
  }

  // ---------------------------------------------------------------------------
  // The reservation sweep

  /** What the holds of a batch hold of a SKU. */
  function Back(rows: seq<Hold>, claimed: seq<nat>, sku: string): int
    requires forall i :: 0 <= i < |claimed| ==> claimed[i] < |rows|
  {
    if claimed == [] then 0 else Total(rows[claimed[0]].lines, sku) + Back(rows, claimed[1..], sku)
  }

  lemma {:induction false} BackStays(rows: seq<Hold>, after: seq<Hold>, claimed: seq<nat>, sku: string)
    requires |after| == |rows| && forall i :: 0 <= i < |claimed| ==> claimed[i] < |rows|
    requires forall r :: 0 <= r < |rows| ==> after[r].lines == rows[r].lines
    ensures Back(after, claimed, sku) == Back(rows, claimed, sku)
  {
    if claimed != [] {
      BackStays(rows, after, claimed[1..], sku);
    }
  }

  lemma {:induction false} BackNonNegative(rows: seq<Hold>, claimed: seq<nat>, sku: string)
    requires AllPositive(rows) && forall i :: 0 <= i < |claimed| ==> claimed[i] < |rows|
    ensures Back(rows, claimed, sku) >= 0
  {
    if claimed != [] {
      TotalNonNegative(rows[claimed[0]].lines, sku);
      BackNonNegative(rows, claimed[1..], sku);
    }
  }

  ghost predicate RoomForAll(db: Db, claimed: seq<nat>)
    requires forall i :: 0 <= i < |claimed| ==> claimed[i] < |db.rows|
  {
    forall s :: s in db.stock ==> db.stock[s].available + Back(db.rows, claimed, s) <= 0x7FFF_FFFF
  }

  lemma FirstOfBatch(db: Db, now: int, claimed: seq<nat>, after: Db)
    requires RowsOk(db) && claimed != [] && Claimable(db.rows, now, |claimed|, claimed)
    requires OneEnded(db, after, claimed[0], Expired, true)
    ensures Claimable(after.rows, now, |claimed[1..]|, claimed[1..])
    ensures RoomForAll(after, claimed[1..]) <==> RoomForAll(db, claimed)
  {
    LedgerSafety.ClaimableRest(db.rows, now, claimed);
    forall s | s in db.stock
      ensures after.stock[s].available + Back(after.rows, claimed[1..], s)
           == db.stock[s].available + Back(db.rows, claimed, s)
    {
      BackStays(db.rows, after.rows, claimed[1..], s);
    }
  }

  lemma NoRoomLater(db: Db, claimed: seq<nat>)
    requires RowsOk(db) && claimed != [] && (forall i :: 0 <= i < |claimed| ==> claimed[i] < |db.rows|)
    requires !RoomBack(db.stock, db.rows[claimed[0]].lines)
    ensures !RoomForAll(db, claimed)
  {
    LedgerSafety.RowsPositive(db);
    var s :| s in db.stock && db.stock[s].available + Total(db.rows[claimed[0]].lines, s) > 0x7FFF_FFFF;
    BackNonNegative(db.rows, claimed[1..], s);
    assert db.stock[s].available + Back(db.rows, claimed, s) > 0x7FFF_FFFF;
  }

  lemma FirstExpires(db: Db, deposits: map<string, int>, id: nat, now: int)
    requires RowsOk(db) && Conserved(db, deposits) && id < |db.rows|
    requires db.rows[id].status == Held && db.rows[id].expiresAt <= now
    ensures Attempt(Expire, db.rows[id], now).Moved?
    ensures var (after, answer) := SettleTx(db, Expire, id, db.rows[id], now);
            && (answer.Done? <==> RoomBack(db.stock, db.rows[id].lines))
            && (answer.Done? ==> OneEnded(db, after, id, Expired, true) && RowsOk(after) && Conserved(after, deposits))
  {
    ReturnsIffRoom(db, deposits, id);
    var (after, answer) := SettleTx(db, Expire, id, db.rows[id], now);
    if answer.Done? {
      MovedStock(db, id, GiveBack);
      LedgerSafety.SettleEndsHold(db, Expire, id, db.rows[id], now);
      LedgerSafety.EndingConserves(db, after, deposits, Expire, id);
    }
  }

  /** A batch of run-out holds goes through exactly if there is room for all of it to come back: then every
      one has expired and is counted, and else nothing happens and none is. */
  lemma {:induction false} SweepGoesThroughIff(db: Db, deposits: map<string, int>, now: int, claimed: seq<nat>)
    requires RowsOk(db) && Conserved(db, deposits) && Claimable(db.rows, now, |claimed|, claimed)
    ensures SweepLoop(db, now, claimed).Swept? <==> RoomForAll(db, claimed)
    decreases |claimed|
  {
    if claimed == [] {
      forall s | s in db.stock ensures db.stock[s].available + Back(db.rows, claimed, s) <= 0x7FFF_FFFF {
        assert Balanced(db, deposits, s);
      }
    } else {
      var after := SettleTx(db, Expire, claimed[0], db.rows[claimed[0]], now).0;
      FirstExpires(db, deposits, claimed[0], now);
      if RoomBack(db.stock, db.rows[claimed[0]].lines) {
        FirstOfBatch(db, now, claimed, after);
        SweepGoesThroughIff(after, deposits, now, claimed[1..]);
      } else {
        NoRoomLater(db, claimed);
      }
    }
  }

  lemma SweepAnswers(db: Db, deposits: map<string, int>, now: int, claimed: seq<nat>)
    requires RowsOk(db) && Conserved(db, deposits) && Claimable(db.rows, now, |claimed|, claimed)
    ensures var (after, count) := SweepTx(db, now, claimed);
            if RoomForAll(db, claimed)
            then count == |claimed| && LedgerSafety.RanOut(db.rows, after.rows, claimed) && Conserved(after, deposits)
            else count == 0 && after == db
  {
    SweepGoesThroughIff(db, deposits, now, claimed);
    if RoomForAll(db, claimed) {
      LedgerSafety.SweepEndsWhatItClaims(db, now, claimed);
      LedgerSafety.SweepConserves(db, deposits, now, claimed);
    }
  }

  // ---------------------------------------------------------------------------
  // Deliveries and write-offs

  /** An adjustment is taken exactly if it is one, of a size the service takes, of a SKU it tracks, and
      leaves a count the column holds; and it is of that SKU's shelf alone. */
  lemma AdjustAnswers(db: Db, sku: string, delta: int)
    ensures var (after, answer) := AdjustTx(db, sku, delta);
            && (answer.Done? <==>
                  && delta != 0 && -1_000_000 <= delta <= 1_000_000 && sku in db.stock
                  && 0 <= db.stock[sku].available + delta <= 0x7FFF_FFFF)
            && (answer.Failed? ==> after == db)
            && (answer.Done? ==>
                  && after.rows == db.rows && after.stock.Keys == db.stock.Keys
                  && forall s :: s in db.stock ==>
                       && after.stock[s].reserved == db.stock[s].reserved
                       && after.stock[s].available == db.stock[s].available + if s == sku then delta else 0)
  {
  }

  /** Why one is refused. */
  lemma AdjustRefusals(db: Db, sku: string, delta: int)
    requires AdjustTx(db, sku, delta).1.Failed?
    ensures var fault := AdjustTx(db, sku, delta).1.fault;
            && (fault == Invalid <==> delta == 0 || delta > 1_000_000 || delta < -1_000_000)
            && (fault == NotTracked ==> sku !in db.stock)
            && (fault == OutOfStock ==> sku in db.stock && db.stock[sku].available + delta < 0)
            && (fault == Overflow ==> sku in db.stock && db.stock[sku].available + delta > 0x7FFF_FFFF)
            && (fault == Invalid || fault == NotTracked || fault == OutOfStock || fault == Overflow)
  {
  }

  /** A SKU is tracked from a count it may have exactly if it was not tracked before. */
  lemma TrackAnswers(db: Db, sku: string, available: int)
    ensures var (after, answer) := TrackTx(db, sku, available);
            if available < 0 || available > 1_000_000 then answer == Failed(Invalid) && after == db
            else if sku in db.stock then answer == Failed(AlreadyTracked) && after == db
            else
              && answer.Done? && after.rows == db.rows && after.stock.Keys == db.stock.Keys + {sku}
              && after.stock[sku] == Stock(available, 0)
              && forall s :: s in db.stock ==> after.stock[s] == db.stock[s]
  {
  }
}
