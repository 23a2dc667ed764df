/** Conservation of stock in every reachable state of the interleaved ledger. */
module LedgerSafety {
  import opened CanonicalLines
  import opened Reservations
  import opened StockLedger

  // ---------------------------------------------------------------------------
  // What a step may do to rows that others have read

  /** Every row that was there is still there, unchanged or moved on. */
  ghost predicate Grows(rows: seq<Hold>, after: seq<Hold>) {
    |rows| <= |after| && forall i :: 0 <= i < |rows| ==> Follows(rows[i], after[i])
  }

  lemma GrowsKeepsReaders(rows: seq<Hold>, after: seq<Hold>, open: Open)
    requires Grows(rows, after) && OpenOk(rows, open)
    ensures OpenOk(after, open)
  {
  }

  lemma GrowsKeepsAnswers(rows: seq<Hold>, after: seq<Hold>, a: (Kind, nat))
    requires Grows(rows, after) && AnswerOk(rows, a)
    ensures AnswerOk(after, a)
  {
  }

  // ---------------------------------------------------------------------------
  // Ending a hold

  /** The stock and the rows after hold id, as it now stands, has been ended in the given way. */
  ghost predicate EndsHold(db: Db, after: Db, kind: Kind, id: nat) {
    && id < |db.rows| && db.rows[id].status == Held
    && MoveAll(MovementOf(kind), db.stock, db.rows[id].lines) == Shifted(after.stock)
    && after.rows == db.rows[id := db.rows[id].(status := Target(kind), version := db.rows[id].version + 1)]
  }

  lemma EndingBalances(db: Db, after: Db, deposits: map<string, int>, kind: Kind, id: nat, sku: string)
    requires EndsHold(db, after, kind, id) && RowsOk(db)
    requires sku in db.stock && sku in deposits && Balanced(db, deposits, sku)
    ensures sku in after.stock && Balanced(after, deposits, sku)
  {
    var row := db.rows[id];
    MoveAllCounts(MovementOf(kind), db.stock, row.lines, sku);
    MoveAllStaysAbove(MovementOf(kind), db.stock, row.lines, sku);
    QuantityUpdate(db.rows, id, after.rows[id], Held, sku);
    QuantityUpdate(db.rows, id, after.rows[id], Committed, sku);
  }

  lemma EndingConserves(db: Db, after: Db, deposits: map<string, int>, kind: Kind, id: nat)
    requires EndsHold(db, after, kind, id) && RowsOk(db) && Conserved(db, deposits)
    ensures RowsOk(after) && Conserved(after, deposits) && Grows(db.rows, after.rows)
  {
    MoveAllEffect(MovementOf(kind), db.stock, db.rows[id].lines);
    forall sku | sku in after.stock ensures Balanced(after, deposits, sku) {
      EndingBalances(db, after, deposits, kind, id, sku);
    }
  }

  /** settle either changes nothing or ends the hold it read, which is then the hold that is there. */
  lemma SettleEndsHold(db: Db, kind: Kind, id: nat, copy: Hold, now: int)
    requires id < |db.rows| && Follows(copy, db.rows[id])
    ensures var (after, answer) := SettleTx(db, kind, id, copy, now);
            && (after == db || EndsHold(db, after, kind, id))
            && (answer.Done? ==> after != db || Attempt(kind, copy, now).Unmoved?)
            && (answer.Done? && kind != Expire ==> AnswerOk(after.rows, (kind, id)))
            && (answer.Failed? ==> after == db)
  {
    var (after, answer) := SettleTx(db, kind, id, copy, now);
    if Attempt(kind, copy, now).Moved? && answer.Done? {
      assert after.rows[id].version != db.rows[id].version;
    }
  }

  // ---------------------------------------------------------------------------
  // Taking a hold

  lemma TakingBalances(db: Db, after: Db, deposits: map<string, int>, row: Hold, sku: string)
    requires MoveAll(Take, db.stock, row.lines) == Shifted(after.stock) && after.rows == db.rows + [row]
    requires row.status == Held && Positive(row.lines)
    requires sku in db.stock && sku in deposits && Balanced(db, deposits, sku)
    ensures sku in after.stock && Balanced(after, deposits, sku)
  {
    MoveAllCounts(Take, db.stock, row.lines, sku);
    MoveAllStaysAbove(Take, db.stock, row.lines, sku);
    QuantityAppend(db.rows, row, Held, sku);
    QuantityAppend(db.rows, row, Committed, sku);
  }

  lemma ReserveConserves(db: Db, deposits: map<string, int>, order: nat, lines: seq<Line>, expiresAt: int)
    requires RowsOk(db) && Conserved(db, deposits) && StrictlySorted(lines) && Positive(lines)
    ensures var after := ReserveWrite(db, order, lines, expiresAt).0;
            RowsOk(after) && Conserved(after, deposits) && Grows(db.rows, after.rows)
  {
    var (after, answer) := ReserveWrite(db, order, lines, expiresAt);
    if answer.Done? {
      var row := Hold(order, lines, Held, expiresAt, 1);
      MoveAllEffect(Take, db.stock, lines);
      forall sku | sku in after.stock ensures Balanced(after, deposits, sku) {
        TakingBalances(db, after, deposits, row, sku);
      }
    }
  }

  // ---------------------------------------------------------------------------
  // The sweep

  lemma GrowsThrough(a: seq<Hold>, b: seq<Hold>, c: seq<Hold>)
    requires Grows(a, b) && Grows(b, c)
    ensures Grows(a, c)
  {
    forall i | 0 <= i < |a| ensures Follows(a[i], c[i]) {
      assert Follows(a[i], b[i]) && Follows(b[i], c[i]);
    }
  }

  lemma {:induction false} SweepConserves(db: Db, deposits: map<string, int>, now: int, claimed: seq<nat>)
    requires RowsOk(db) && Conserved(db, deposits) && SweepLoop(db, now, claimed).Swept?
    ensures var after := SweepLoop(db, now, claimed).db;
            RowsOk(after) && Conserved(after, deposits) && Grows(db.rows, after.rows)
    decreases |claimed|
  {
    if claimed != [] {
      var hold := db.rows[claimed[0]];
      if Attempt(Expire, hold, now).Moved? {
        var next := SettleTx(db, Expire, claimed[0], hold, now).0;
        SettleEndsHold(db, Expire, claimed[0], hold, now);
        EndingConserves(db, next, deposits, Expire, claimed[0]);
        SweepConserves(next, deposits, now, claimed[1..]);
        GrowsThrough(db.rows, next.rows, SweepLoop(db, now, claimed).db.rows);
      } else {
        SweepConserves(db, deposits, now, claimed[1..]);
      }
    }
  }

  lemma ExpiredOne(db: Db, now: int, id: nat)
    requires id < |db.rows| && db.rows[id].status == Held && db.rows[id].expiresAt <= now
    requires SettleTx(db, Expire, id, db.rows[id], now).1.Done?
    ensures SettleTx(db, Expire, id, db.rows[id], now).0.rows
         == db.rows[id := db.rows[id].(status := Expired, version := db.rows[id].version + 1)]
  {
  }

  function Ran(hold: Hold): Hold {
    hold.(status := Expired, version := hold.version + 1)
  }

  /** The rows once those claimed have run out. */
  ghost predicate RanOut(rows: seq<Hold>, after: seq<Hold>, claimed: seq<nat>) {
    && |after| == |rows|
    && forall r :: 0 <= r < |rows| ==> after[r] == if r in claimed then Ran(rows[r]) else rows[r]
  }

  lemma OneMoreRanOut(rows: seq<Hold>, after: seq<Hold>, first: nat, rest: seq<nat>)
    requires first < |rows| && first !in rest && RanOut(rows[first := Ran(rows[first])], after, rest)
    ensures RanOut(rows, after, [first] + rest)
  {
    forall r | 0 <= r < |rows| ensures after[r] == if r in [first] + rest then Ran(rows[r]) else rows[r] {
      assert r in [first] + rest <==> r == first || r in rest;
    }
  }

  lemma ClaimableRest(rows: seq<Hold>, now: int, claimed: seq<nat>)
    requires claimed != [] && Claimable(rows, now, |claimed|, claimed)
    ensures claimed[0] !in claimed[1..]
    ensures Claimable(rows[claimed[0] := Ran(rows[claimed[0]])], now, |claimed[1..]|, claimed[1..])
  {
    assert forall i :: 0 <= i < |claimed[1..]| ==> claimed[1..][i] == claimed[i + 1];
  }

  /** A sweep that goes through ends every hold it claimed, counts them, and touches no other. */
  lemma {:induction false} SweepEndsWhatItClaims(db: Db, now: int, claimed: seq<nat>)
    requires Claimable(db.rows, now, |claimed|, claimed) && SweepLoop(db, now, claimed).Swept?
    ensures SweepLoop(db, now, claimed).count == |claimed|
    ensures RanOut(db.rows, SweepLoop(db, now, claimed).db.rows, claimed)
    decreases |claimed|
  {
    if claimed != [] {
      var first, rest := claimed[0], claimed[1..];
      var next := SettleTx(db, Expire, first, db.rows[first], now).0;
      ExpiredOne(db, now, first);
      ClaimableRest(db.rows, now, claimed);
      SweepEndsWhatItClaims(next, now, rest);
      OneMoreRanOut(db.rows, SweepLoop(db, now, claimed).db.rows, first, rest);
      assert claimed == [first] + rest;
    }
  }

  // ---------------------------------------------------------------------------
  // Deliveries and write-offs

  lemma TrackConserves(db: Db, deposits: map<string, int>, sku: string, available: int)
    requires RowsOk(db) && Conserved(db, deposits) && TrackTx(db, sku, available).1.Done?
    ensures var after := TrackTx(db, sku, available).0;
            RowsOk(after) && Conserved(after, deposits[sku := available])
  {
    var after := TrackTx(db, sku, available).0;
    QuantityUntracked(db.rows, db.stock, Held, sku);
    QuantityUntracked(db.rows, db.stock, Committed, sku);
    forall s | s in after.stock ensures Balanced(after, deposits[sku := available], s) {
      if s != sku { assert Balanced(db, deposits, s); }
    }
  }

  lemma AdjustConserves(db: Db, deposits: map<string, int>, sku: string, delta: int)
    requires RowsOk(db) && Conserved(db, deposits) && AdjustTx(db, sku, delta).1.Done?
    ensures var after := AdjustTx(db, sku, delta).0;
            RowsOk(after) && sku in deposits && Conserved(after, deposits[sku := deposits[sku] + delta])
  {
    var after := AdjustTx(db, sku, delta).0;
    forall s | s in after.stock ensures Balanced(after, deposits[sku := deposits[sku] + delta], s) {
      assert Balanced(db, deposits, s);
    }
  }

  // ---------------------------------------------------------------------------
  // Every step

  lemma CloseConserves(s: State, tx: nat)
    requires Inv(s) && tx in s.open
    ensures var (after, answer) := Closed(s, tx);
            && RowsOk(after) && Conserved(after, s.deposits) && Grows(s.db.rows, after.rows)
            && (s.open[tx].Settling? && answer.Done? ==> AnswerOk(after.rows, (s.open[tx].kind, s.open[tx].id)))
  {
    assert OpenOk(s.db.rows, s.open[tx]);
    match s.open[tx]
    case Reserving(order, lines, expiresAt, found, foundLines) =>
      if found < 0 {
        ReserveConserves(s.db, s.deposits, order, lines, expiresAt);
      }
    case Settling(kind, id, copy, now) =>
      SettleEndsHold(s.db, kind, id, copy, now);
      var after := Closed(s, tx).0;
      if after != s.db {
        EndingConserves(s.db, after, s.deposits, kind, id);
      }
  }

  /** The tables after a step. */
  lemma StepConserves(s: State, step: Step)
    requires Inv(s) && Enabled(s, step)
    ensures RowsOk(Next(s, step).db) && Conserved(Next(s, step).db, Next(s, step).deposits)
    ensures Grows(s.db.rows, Next(s, step).db.rows)
  {
    match step
    case Track(sku, available) =>
      if TrackTx(s.db, sku, available).1.Done? { TrackConserves(s.db, s.deposits, sku, available); }
    case Adjust(sku, delta) =>
      if AdjustTx(s.db, sku, delta).1.Done? { AdjustConserves(s.db, s.deposits, sku, delta); }
    case OpenReserve(_, _, _, _, _) =>
    case OpenSettle(_, _, _, _) =>
    case Close(tx) => CloseConserves(s, tx);
    case Abandon(_) =>
    case Sweep(now, limit, claimed) =>
      if SweepLoop(s.db, now, claimed).Swept? { SweepConserves(s.db, s.deposits, now, claimed); }
  }

  /** A transaction that has just read what it works on. */
  lemma OpeningOk(s: State, step: Step, tx: nat)
    requires Inv(s) && Enabled(s, step)
    requires tx in Next(s, step).open && tx !in s.open
    ensures OpenOk(s.db.rows, Next(s, step).open[tx]) && Next(s, step).db == s.db
  {
    match step
    case OpenReserve(t, order, requested, now, ttl) =>
      if Canonicalise(requested).Canonical? && Admissible(requested) { CanonicalForm(requested); }
    case OpenSettle(t, kind, id, now) =>
    case Close(_) =>
    case _ =>
  }

  lemma StepKeepsInv(s: State, step: Step)
    requires Inv(s) && Enabled(s, step)
    ensures Inv(Next(s, step))
  {
    var after := Next(s, step);
    StepConserves(s, step);
    forall tx | tx in after.open ensures OpenOk(after.db.rows, after.open[tx]) {
      if tx in s.open {
        assert after.open[tx] == s.open[tx];
        GrowsKeepsReaders(s.db.rows, after.db.rows, s.open[tx]);
      } else {
        OpeningOk(s, step, tx);
      }
    }
    forall a | a in after.answered ensures AnswerOk(after.db.rows, a) {
      if a in s.answered {
        GrowsKeepsAnswers(s.db.rows, after.db.rows, a);
      } else {
        CloseConserves(s, step.tx);
      }
    }
  }

  lemma {:induction false} RunKeepsInv(s: State, steps: seq<Step>)
    requires Inv(s) && Legal(s, steps)
    ensures Inv(Run(s, steps))
    decreases |steps|
  {
    if steps != [] {
      StepKeepsInv(s, steps[0]);
      RunKeepsInv(Next(s, steps[0]), steps[1..]);
    }
  }

  // ---------------------------------------------------------------------------
  // Main results

  /** In every reachable state, whatever interleaved: no count is negative, what is reserved is
      exactly what live holds hold, and shelf, holds and sales add up to what was delivered. */
  lemma StockIsConserved(steps: seq<Step>, sku: string)
    requires Legal(EMPTY, steps) && sku in Run(EMPTY, steps).db.stock
    ensures var s := Run(EMPTY, steps);
            && sku in s.deposits
            && s.db.stock[sku].available >= 0
            && s.db.stock[sku].reserved == Quantity(s.db.rows, Held, sku) >= 0
            && s.db.stock[sku].available + Quantity(s.db.rows, Held, sku) + Quantity(s.db.rows, Committed, sku)
            == s.deposits[sku]
  {
    RunKeepsInv(EMPTY, steps);
    assert Balanced(Run(EMPTY, steps).db, Run(EMPTY, steps).deposits, sku);
  }

  /** Whoever was told that a reservation is sold, or given back, can rely on it for good. */
  lemma AnswersAreFinal(steps: seq<Step>, more: seq<Step>, a: (Kind, nat))
    requires Legal(EMPTY, steps) && Legal(Run(EMPTY, steps), more) && a in Run(EMPTY, steps).answered
    ensures AnswerOk(Run(Run(EMPTY, steps), more).db.rows, a)
  {
    RunKeepsInv(EMPTY, steps);
    AnswersStay(Run(EMPTY, steps), more, a);
  }

  lemma {:induction false} AnswersStay(s: State, steps: seq<Step>, a: (Kind, nat))
    requires Inv(s) && Legal(s, steps) && a in s.answered
    ensures AnswerOk(Run(s, steps).db.rows, a)
    decreases |steps|
  {
    if steps != [] {
      StepKeepsInv(s, steps[0]);
      AnswersStay(Next(s, steps[0]), steps[1..], a);
    }
  }

  /** A settle whose copy is still current is refused by the state machine or not at all, except that
      a return can find the column too small. In particular its movements never find less reserved
      than the hold. */
  lemma CurrentSettleIsNotBlocked(s: State, tx: nat)
    requires Inv(s) && tx in s.open && s.open[tx].Settling?
    requires s.open[tx].id < |s.db.rows| && s.open[tx].copy.version == s.db.rows[s.open[tx].id].version
    ensures var answer := Closed(s, tx).1;
            || answer.Done?
            || (Attempt(s.open[tx].kind, s.open[tx].copy, s.open[tx].now).Rejected? && answer.fault.Refusal?)
            || (s.open[tx].kind == Release && answer.fault == Overflow)
  {
    var open := s.open[tx];
    assert OpenOk(s.db.rows, open);
    var row := s.db.rows[open.id];
    assert open.copy == row;
    if Attempt(open.kind, row, open.now).Moved? {
      assert RowOk(s.db.stock, row);
      forall sku | sku in Skus(row.lines)
        ensures s.db.stock[sku].reserved >= Total(row.lines, sku) && Storable(s.db.stock[sku])
      {
        assert Balanced(s.db, s.deposits, sku);
        RowsPositive(s.db);
        QuantityCovers(s.db.rows, open.id, sku);
      }
      CoveredMoves(MovementOf(open.kind), s.db.stock, row.lines);
    }
  }

  lemma RowsPositive(db: Db)
    requires RowsOk(db)
    ensures AllPositive(db.rows)
  {
    forall i | 0 <= i < |db.rows| ensures Positive(db.rows[i].lines) {
      assert RowOk(db.stock, db.rows[i]);
    }
  }

  /** A commit that its copy lets through takes effect exactly when the copy is still current: of two
      that read the same hold, the second to write changes nothing. A return can also be stopped by
      the size of the column. */
  lemma MovingSettleSucceedsIffCurrent(s: State, tx: nat)
    requires Inv(s) && tx in s.open && s.open[tx].Settling?
    requires Attempt(s.open[tx].kind, s.open[tx].copy, s.open[tx].now).Moved?
    ensures var open := s.open[tx];
            var current := open.id < |s.db.rows| && s.db.rows[open.id].version == open.copy.version;
            && (Closed(s, tx).1.Done? ==> current)
            && (current ==> Closed(s, tx).1.Done? || (open.kind == Release && Closed(s, tx).1 == Failed(Overflow)))
            && (!current ==> Closed(s, tx).0 == s.db)
  {
    var open := s.open[tx];
    if open.id < |s.db.rows| && s.db.rows[open.id].version == open.copy.version {
      CurrentSettleIsNotBlocked(s, tx);
    }
  }

  lemma OneLine(sku: string)
    requires sku != ""
    ensures Canonicalise([Line(sku, 1)]) == Canonical([Line(sku, 1)])
  {
    assert [Line(sku, 1)][1..] == [];
    assert Extend([], Line(sku, 1)) == Canonical([Line(sku, 1)]);
    assert Tally([], [Line(sku, 1)]) == Tally([Line(sku, 1)], []);
  }

  /** A hold of one unit, freshly taken. */
  ghost function OneHeld(sku: string): State {
    State(Db(map[sku := Stock(0, 1)], [Hold(7, [Line(sku, 1)], Held, 10, 1)]), map[], map[sku := 1], {})
  }

  lemma HoldOne(sku: string)
    requires sku != ""
    ensures Next(Next(Next(EMPTY, Track(sku, 1)), OpenReserve(0, 7, [Line(sku, 1)], 0, 10)), Close(0)) == OneHeld(sku)
  {
    OneLine(sku);
    var lines := [Line(sku, 1)];
    assert lines[1..] == [];
    var s2 := Next(Next(EMPTY, Track(sku, 1)), OpenReserve(0, 7, lines, 0, 10));
    assert MoveAll(Take, s2.db.stock, lines) == Shifted(map[sku := Stock(0, 1)]);
    assert s2.open - {0} == map[];
  }

  /** A settle that nothing interrupts. */
  lemma SettleUninterrupted(s: State, tx: nat, kind: Kind, id: nat, now: int)
    requires tx !in s.open && id < |s.db.rows|
    ensures tx in Next(s, OpenSettle(tx, kind, id, now)).open
    ensures Next(Next(s, OpenSettle(tx, kind, id, now)), Close(tx)).db == SettleTx(s.db, kind, id, s.db.rows[id], now).0
  {
  }

  /** The same hold, given back. */
  lemma GiveOneBack(sku: string)
    ensures var begun := Next(OneHeld(sku), OpenSettle(1, Release, 0, 0));
            && 1 in begun.open
            && Next(begun, Close(1)).db.rows == [Hold(7, [Line(sku, 1)], Released, 10, 2)]
  {
    SettleUninterrupted(OneHeld(sku), 1, Release, 0, 0);
    ReturnOne(sku, OneHeld(sku).db, OneHeld(sku).db.rows[0]);
  }

  /** And the same hold, sold. */
  lemma SellOne(sku: string)
    ensures var begun := Next(OneHeld(sku), OpenSettle(1, Commit, 0, 0));
            && 1 in begun.open
            && Next(begun, Close(1)) == State(Db(map[sku := Stock(0, 0)], [Hold(7, [Line(sku, 1)], Committed, 10, 2)]),
                                              map[], map[sku := 1], {(Commit, 0)})
  {
    var begun := Next(OneHeld(sku), OpenSettle(1, Commit, 0, 0));
    var hold := OneHeld(sku).db.rows[0];
    assert hold.lines[1..] == [];
    assert MoveOne(Sell, begun.db.stock, hold.lines[0]) == Shifted(map[sku := Stock(0, 0)]);
    assert MoveAll(Sell, begun.db.stock, hold.lines) == Shifted(map[sku := Stock(0, 0)]);
    assert begun.open - {1} == map[];
    assert begun.db.rows[0 := hold.(status := Committed, version := 2)] == [hold.(status := Committed, version := 2)];
  }

  lemma ReturnOne(sku: string, db: Db, hold: Hold)
    requires hold == Hold(7, [Line(sku, 1)], Held, 10, 1) && db == Db(map[sku := Stock(0, 1)], [hold])
    ensures SettleTx(db, Release, 0, hold, 0).0.rows == [hold.(status := Released, version := 2)]
  {
    assert hold.lines[1..] == [];
    assert MoveOne(GiveBack, db.stock, hold.lines[0]) == Shifted(db.stock[sku := Stock(1, 0)]);
    assert MoveAll(GiveBack, db.stock, hold.lines).Shifted?;
  }

  lemma RunsThree(s: State, a: Step, b: Step, c: Step, rest: seq<Step>)
    ensures var after := Next(Next(Next(s, a), b), c);
            && Run(s, [a, b, c] + rest) == Run(after, rest)
            && (Legal(s, [a, b, c] + rest) <==>
                  Enabled(s, a) && Enabled(Next(s, a), b) && Enabled(Next(Next(s, a), b), c) && Legal(after, rest))
  {
    var all := [a, b, c] + rest;
    assert all[1..][1..][1..] == rest && all[1..][0] == b && all[1..][1..][0] == c;
    RunsTo(s, all);
    RunsTo(Next(s, a), all[1..]);
    RunsTo(Next(Next(s, a), b), all[1..][1..]);
  }

  /** The predicate on the reserved count does refuse in ordinary use: two commits of one hold, both
      reading it before either writes, and the second is told the counts are inconsistent. */
  lemma StaleCommitFindsCountsInconsistent(sku: string)
    requires sku != ""
    ensures var steps := [Track(sku, 1), OpenReserve(0, 7, [Line(sku, 1)], 0, 10), Close(0)]
                       + [OpenSettle(1, Commit, 0, 0), OpenSettle(2, Commit, 0, 0), Close(1)];
            && Legal(EMPTY, steps)
            && 2 in Run(EMPTY, steps).open
            && Closed(Run(EMPTY, steps), 2).1 == Failed(Inconsistent)
  {
    HoldOne(sku);
    RunsThree(EMPTY, Track(sku, 1), OpenReserve(0, 7, [Line(sku, 1)], 0, 10), Close(0),
              [OpenSettle(1, Commit, 0, 0), OpenSettle(2, Commit, 0, 0), Close(1)]);
    var s5 := Next(Next(OneHeld(sku), OpenSettle(1, Commit, 0, 0)), OpenSettle(2, Commit, 0, 0));
    var lines := [Line(sku, 1)];
    assert lines[1..] == [];
    assert MoveAll(Sell, s5.db.stock, lines) == Shifted(map[sku := Stock(0, 0)]);
    assert MoveAll(Sell, Next(s5, Close(1)).db.stock, lines) == Blocked(Inconsistent);
    RunsThree(OneHeld(sku), OpenSettle(1, Commit, 0, 0), OpenSettle(2, Commit, 0, 0), Close(1), []);
    assert [OpenSettle(1, Commit, 0, 0), OpenSettle(2, Commit, 0, 0), Close(1)] + []
        == [OpenSettle(1, Commit, 0, 0), OpenSettle(2, Commit, 0, 0), Close(1)];
  }

  lemma RunsTo(s: State, steps: seq<Step>)
    requires steps != []
    ensures Run(s, steps) == Run(Next(s, steps[0]), steps[1..])
    ensures Legal(s, steps) <==> Enabled(s, steps[0]) && Legal(Next(s, steps[0]), steps[1..])
  {
  }
}
