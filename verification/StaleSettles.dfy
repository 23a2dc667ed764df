/** When a settle is told that the counts are inconsistent: exactly when it is too late for the hold it
    read, and the counts are right. */
module StaleSettles {
  import opened Text
  import opened CanonicalLines
  import opened Reservations
  import opened StockLedger

  /** The first line a movement out of a hold fails at, if any: less is reserved than it needs, or what it
      returns does not fit the column. */
  predicate Short(stock: map<string, Stock>, line: Line) {
    line.sku in stock && stock[line.sku].reserved < line.quantity
  }

  predicate Fits(m: Movement, stock: map<string, Stock>, line: Line) {
    line.sku in stock && !Short(stock, line) && Storable(Apply(m, stock[line.sku], line.quantity))
  }

  ghost predicate FailsShort(m: Movement, stock: map<string, Stock>, lines: seq<Line>) {
    exists i :: 0 <= i < |lines| && Short(stock, lines[i]) && forall j :: 0 <= j < i ==> Fits(m, stock, lines[j])
  }

  lemma LaterLinesAlike(m: Movement, stock: map<string, Stock>, lines: seq<Line>, i: nat)
    requires !m.Take? && StrictlySorted(lines) && 0 < i < |lines| && Fits(m, stock, lines[0])
    ensures var one := MoveOne(m, stock, lines[0]);
            && one.Shifted?
            && (Short(one.stock, lines[i]) <==> Short(stock, lines[i]))
            && (Fits(m, one.stock, lines[i]) <==> Fits(m, stock, lines[i]))
  {
    assert lines[1..][i - 1] == lines[i];
    SkuListed(lines[1..], i - 1);
    BelowIrreflexive(lines[0].sku);
  }

  lemma {:induction false} MovesFailShort(m: Movement, stock: map<string, Stock>, lines: seq<Line>)
    requires !m.Take? && StrictlySorted(lines) && Skus(lines) <= stock.Keys
    ensures MoveAll(m, stock, lines) == Blocked(Inconsistent) <==> FailsShort(m, stock, lines)
    decreases |lines|
  {
    if lines != [] {
      var rest := lines[1..];
      SkuListed(lines, 0);
      if Fits(m, stock, lines[0]) {
        var next := MoveOne(m, stock, lines[0]).stock;
        MovesFailShort(m, next, rest);
        forall i | 0 < i < |lines|
          ensures Short(next, rest[i - 1]) <==> Short(stock, lines[i])
          ensures Fits(m, next, rest[i - 1]) <==> Fits(m, stock, lines[i])
        {
          LaterLinesAlike(m, stock, lines, i);
        }
        ShiftedFailure(m, stock, next, lines);
      }
    }
  }

  lemma ShiftedFailure(m: Movement, stock: map<string, Stock>, next: map<string, Stock>, lines: seq<Line>)
    requires lines != [] && Fits(m, stock, lines[0])
    requires forall i :: 0 < i < |lines| ==>
               && (Short(next, lines[1..][i - 1]) <==> Short(stock, lines[i]))
               && (Fits(m, next, lines[1..][i - 1]) <==> Fits(m, stock, lines[i]))
    ensures FailsShort(m, next, lines[1..]) <==> FailsShort(m, stock, lines)
  {
    var rest := lines[1..];
    if i :| 0 <= i < |rest| && Short(next, rest[i]) && forall j :: 0 <= j < i ==> Fits(m, next, rest[j]) {
      assert rest[i + 1 - 1] == rest[i] && Short(stock, lines[i + 1]);
      forall j | 0 <= j < i + 1 ensures Fits(m, stock, lines[j]) {
        if j > 0 { assert Fits(m, next, rest[j - 1]); }
      }
    }
    if i :| 0 <= i < |lines| && Short(stock, lines[i]) && forall j :: 0 <= j < i ==> Fits(m, stock, lines[j]) {
      assert i > 0 && Short(next, rest[i - 1]);
      forall j | 0 <= j < i - 1 ensures Fits(m, next, rest[j]) {
        assert Fits(m, stock, lines[j + 1]) && rest[j + 1 - 1] == rest[j];
      }
    }
  }

  /** A settle that its copy lets through, on lines the copy shares with the row. */
  lemma OpenLines(s: State, tx: nat)
    requires Inv(s) && tx in s.open && s.open[tx].Settling?
    ensures var lines := s.open[tx].copy.lines;
            && StrictlySorted(lines) && Positive(lines) && Skus(lines) <= s.db.stock.Keys
            && forall i :: 0 <= i < |lines| ==>
                 && lines[i].sku in s.db.stock && Total(lines, lines[i].sku) == lines[i].quantity
                 && s.db.stock[lines[i].sku].reserved == Quantity(s.db.rows, Held, lines[i].sku)
                 && Storable(s.db.stock[lines[i].sku])
  {
    var open := s.open[tx];
    assert OpenOk(s.db.rows, open) && RowOk(s.db.stock, s.db.rows[open.id]);
    var lines := open.copy.lines;
    forall i | 0 <= i < |lines|
      ensures lines[i].sku in s.db.stock && Total(lines, lines[i].sku) == lines[i].quantity
      ensures s.db.stock[lines[i].sku].reserved == Quantity(s.db.rows, Held, lines[i].sku)
      ensures Storable(s.db.stock[lines[i].sku])
    {
      SkuListed(lines, i);
      LineIsTotal(lines, i);
      assert Balanced(s.db, s.deposits, lines[i].sku);
    }
  }

  lemma SettleFailsShort(s: State, tx: nat)
    requires Inv(s) && tx in s.open && s.open[tx].Settling?
    requires Attempt(s.open[tx].kind, s.open[tx].copy, s.open[tx].now).Moved?
    ensures var open := s.open[tx];
            Closed(s, tx).1 == Failed(Inconsistent) <==> FailsShort(MovementOf(open.kind), s.db.stock, open.copy.lines)
  {
    OpenLines(s, tx);
    MovesFailShort(MovementOf(s.open[tx].kind), s.db.stock, s.open[tx].copy.lines);
  }

  /** What is left of the live holds of a SKU no longer covers this one's part of it: only then are the
      counts called inconsistent, and they are right. */
  ghost predicate Uncovered(s: State, copy: Hold, sku: string) {
    sku in Skus(copy.lines) && Quantity(s.db.rows, Held, sku) < Total(copy.lines, sku)
  }

  /** A commit is told the counts are inconsistent exactly when, of some SKU it holds, all live holds
      together hold less than it does: which, since it would be one of them, means that it is stale. */
  lemma CommitIsInconsistentIff(s: State, tx: nat)
    requires Inv(s) && tx in s.open && s.open[tx].Settling? && s.open[tx].kind == Commit
    requires Attempt(Commit, s.open[tx].copy, s.open[tx].now).Moved?
    ensures Closed(s, tx).1 == Failed(Inconsistent) <==> exists sku :: Uncovered(s, s.open[tx].copy, sku)
  {
    var copy := s.open[tx].copy;
    OpenLines(s, tx);
    SettleFailsShort(s, tx);
    if FailsShort(Sell, s.db.stock, copy.lines) {
      var i :| 0 <= i < |copy.lines| && Short(s.db.stock, copy.lines[i]);
      SkuListed(copy.lines, i);
      assert Uncovered(s, copy, copy.lines[i].sku);
    }
    if sku :| Uncovered(s, copy, sku) {
      var i := SkuIsListed(copy.lines, sku);
      FirstShort(s.db.stock, copy.lines, i);
    }
  }

  /** A sale can fail in one way only, so the first line that does decides. */
  lemma {:induction false} FirstShort(stock: map<string, Stock>, lines: seq<Line>, i: nat)
    requires i < |lines| && Short(stock, lines[i]) && Positive(lines)
    requires forall j :: 0 <= j < |lines| ==> lines[j].sku in stock && Storable(stock[lines[j].sku])
    ensures FailsShort(Sell, stock, lines)
    decreases i
  {
    if j :| 0 <= j < i && !Fits(Sell, stock, lines[j]) {
      assert lines[j] in lines;
      FirstShort(stock, lines, j);
    }
  }

  /** A release is told so exactly when that happens at some line before one whose return would not fit
      the column: else it is stopped there, or goes through. */
  lemma ReleaseIsInconsistentIff(s: State, tx: nat)
    requires Inv(s) && tx in s.open && s.open[tx].Settling? && s.open[tx].kind == Release
    requires Attempt(Release, s.open[tx].copy, s.open[tx].now).Moved?
    ensures var lines := s.open[tx].copy.lines;
            Closed(s, tx).1 == Failed(Inconsistent) <==>
              exists i :: 0 <= i < |lines| && Uncovered(s, s.open[tx].copy, lines[i].sku)
                       && forall j :: 0 <= j < i ==>
                            !Uncovered(s, s.open[tx].copy, lines[j].sku) && RoomFor(s.db.stock, lines[j])
  {
    var copy := s.open[tx].copy;
    OpenLines(s, tx);
    SettleFailsShort(s, tx);
    forall i | 0 <= i < |copy.lines|
      ensures Short(s.db.stock, copy.lines[i]) <==> Uncovered(s, copy, copy.lines[i].sku)
      ensures Fits(GiveBack, s.db.stock, copy.lines[i])
         <==> !Uncovered(s, copy, copy.lines[i].sku) && RoomFor(s.db.stock, copy.lines[i])
    {
      SkuListed(copy.lines, i);
      assert copy.lines[i] in copy.lines;
    }
  }

  predicate RoomFor(stock: map<string, Stock>, line: Line) {
    line.sku in stock && stock[line.sku].available + line.quantity <= INT_MAX
  }
}
