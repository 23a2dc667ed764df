/** The form inventory holds an order's lines in: repeats of one SKU summed, the result sorted by
    SKU. Counts are the 32-bit integers of the column, so every addition is written with its wrap. */
module CanonicalLines {
  import opened Text

  const LINES_MAX := 100
  const LINE_QUANTITY_MAX := 10_000
  const QUANTITY_MAX := 1_000_000

  datatype Line = Line(sku: string, quantity: int)

  datatype Fault = LinesRequired | TooManyLines | SkuRequired | QuantityTooSmall | TotalTooLarge

  datatype Outcome = Canonical(lines: seq<Line>) | Refused(fault: Fault)

  /** The int32 that an exact sum is stored as. */
  function Wrap32(x: int): int {
    (x + 0x8000_0000) % 0x1_0000_0000 - 0x8000_0000
  }

  /** The exact quantity of one SKU in a list of lines. */
  function Total(lines: seq<Line>, sku: string): int {
    if lines == [] then 0
    else (if lines[0].sku == sku then lines[0].quantity else 0) + Total(lines[1..], sku)
  }

  function Skus(lines: seq<Line>): set<string> {
    if lines == [] then {} else {lines[0].sku} + Skus(lines[1..])
  }

  /** Every line of a list sorts after sku. */
  ghost predicate After(sku: string, lines: seq<Line>) {
    forall s :: s in Skus(lines) ==> Below(sku, s)
  }

  ghost predicate StrictlySorted(lines: seq<Line>) {
    lines == [] || (After(lines[0].sku, lines[1..]) && StrictlySorted(lines[1..]))
  }

  ghost predicate SameTotals(a: seq<Line>, b: seq<Line>) {
    forall s :: Total(a, s) == Total(b, s)
  }

  /** No SKU is asked for more often than one reservation may hold it. */
  ghost predicate WithinBound(lines: seq<Line>) {
    forall s :: Total(lines, s) <= LINE_QUANTITY_MAX
  }

  /** The line of a sorted list for sku, set to quantity. */
  function Put(lines: seq<Line>, sku: string, quantity: int): seq<Line> {
    if lines == [] then [Line(sku, quantity)]
    else if Below(lines[0].sku, sku) then [lines[0]] + Put(lines[1..], sku, quantity)
    else if lines[0].sku == sku then [Line(sku, quantity)] + lines[1..]
    else [Line(sku, quantity)] + lines
  }

  /** One turn of the summing loop. */
  function Extend(sofar: seq<Line>, line: Line): Outcome {
    var sum := Wrap32(Total(sofar, line.sku) + line.quantity);
    if line.sku == "" then Refused(SkuRequired)
    else if line.quantity <= 0 then Refused(QuantityTooSmall)
    else if sum > LINE_QUANTITY_MAX then Refused(TotalTooLarge)
    else Canonical(Put(sofar, line.sku, sum))
  }

  /** The turns of the loop that are left, stopping at the first refusal. */
  function Tally(sofar: seq<Line>, lines: seq<Line>): Outcome
    decreases |lines|
  {
    if lines == [] then Canonical(sofar)
    else
      var next := Extend(sofar, lines[0]);
      if next.Refused? then next else Tally(next.lines, lines[1..])
  }

  function Canonicalise(lines: seq<Line>): Outcome {
    if lines == [] then Refused(LinesRequired)
    else if |lines| > LINES_MAX then Refused(TooManyLines)
    else Tally([], lines)
  }

  // ---------------------------------------------------------------------------
  // Sums

  lemma {:induction false} TotalAppend(a: seq<Line>, b: seq<Line>, sku: string)
    ensures Total(a + b, sku) == Total(a, sku) + Total(b, sku)
  {
    if a == [] {
      assert a + b == b;
    } else {
      assert (a + b)[1..] == a[1..] + b;
      TotalAppend(a[1..], b, sku);
    }
  }

  lemma {:induction false} TotalAbsent(lines: seq<Line>, sku: string)
    requires sku !in Skus(lines)
    ensures Total(lines, sku) == 0
  {
    if lines != [] {
      TotalAbsent(lines[1..], sku);
    }
  }

  /** Reordering a list leaves every total alone. */
  lemma {:induction false} TotalOfPermutation(a: seq<Line>, b: seq<Line>, sku: string)
    requires multiset(a) == multiset(b)
    ensures Total(a, sku) == Total(b, sku)
    decreases |a|
  {
    assert |multiset(a)| == |a| && |multiset(b)| == |b|;
    if a != [] {
      assert a == [a[0]] + a[1..];
      assert a[0] in multiset(b);
      var i :| 0 <= i < |b| && b[i] == a[0];
      TotalWithout(b, i, sku);
      TotalOfPermutation(a[1..], b[..i] + b[i + 1..], sku);
    }
  }

  lemma TotalWithout(b: seq<Line>, i: nat, sku: string)
    requires i < |b|
    ensures multiset(b[..i] + b[i + 1..]) == multiset(b) - multiset{b[i]}
    ensures Total(b, sku) == Total(b[..i] + b[i + 1..], sku) + if b[i].sku == sku then b[i].quantity else 0
  {
    assert b == b[..i] + b[i..] && b[i..] == [b[i]] + b[i + 1..];
    TotalAppend(b[..i], b[i..], sku);
    TotalAppend(b[..i], b[i + 1..], sku);
  }

  // ---------------------------------------------------------------------------
  // Sorted lists

  lemma {:induction false} PutSkus(lines: seq<Line>, sku: string, quantity: int)
    ensures Skus(Put(lines, sku, quantity)) == Skus(lines) + {sku}
  {
    if lines != [] {
      var r := Put(lines, sku, quantity);
      if Below(lines[0].sku, sku) {
        PutSkus(lines[1..], sku, quantity);
        assert r[1..] == Put(lines[1..], sku, quantity);
      } else {
        assert r[1..] == if lines[0].sku == sku then lines[1..] else lines;
      }
    }
  }

  lemma AfterThrough(sku: string, middle: string, lines: seq<Line>)
    requires Below(sku, middle) && After(middle, lines)
    ensures After(sku, lines)
  {
    forall s | s in Skus(lines) ensures Below(sku, s) {
      BelowTransitive(sku, middle, s);
    }
  }

  lemma AfterAbsent(sku: string, lines: seq<Line>)
    requires After(sku, lines)
    ensures sku !in Skus(lines) && Total(lines, sku) == 0
  {
    BelowIrreflexive(sku);
    TotalAbsent(lines, sku);
  }

  lemma {:induction false} PutSorted(lines: seq<Line>, sku: string, quantity: int)
    requires StrictlySorted(lines)
    ensures StrictlySorted(Put(lines, sku, quantity))
  {
    var r := Put(lines, sku, quantity);
    if lines != [] {
      if Below(lines[0].sku, sku) {
        assert r[1..] == Put(lines[1..], sku, quantity);
        PutSorted(lines[1..], sku, quantity);
        PutSkus(lines[1..], sku, quantity);
      } else if lines[0].sku == sku {
        assert r[1..] == lines[1..];
      } else {
        assert r[1..] == lines;
        BelowTotal(lines[0].sku, sku);
        AfterThrough(sku, lines[0].sku, lines[1..]);
      }
    }
  }

  lemma {:induction false} PutTotal(lines: seq<Line>, sku: string, quantity: int, s: string)
    requires StrictlySorted(lines)
    ensures Total(Put(lines, sku, quantity), s) == if s == sku then quantity else Total(lines, s)
  {
    var r := Put(lines, sku, quantity);
    if lines != [] {
      if Below(lines[0].sku, sku) {
        assert r[1..] == Put(lines[1..], sku, quantity);
        PutTotal(lines[1..], sku, quantity, s);
        BelowAsymmetric(lines[0].sku, sku);
      } else if lines[0].sku == sku {
        assert r[1..] == lines[1..];
        AfterAbsent(sku, lines[1..]);
      } else {
        assert r[1..] == lines;
        BelowTotal(lines[0].sku, sku);
        AfterThrough(sku, lines[0].sku, lines[1..]);
        AfterAbsent(sku, lines[1..]);
      }
    }
  }

  lemma {:induction false} SkuListed(lines: seq<Line>, i: nat)
    requires i < |lines|
    ensures lines[i].sku in Skus(lines)
  {
    if i > 0 {
      assert lines[1..][i - 1] == lines[i];
      SkuListed(lines[1..], i - 1);
    }
  }

  lemma {:induction false} LineIsTotal(lines: seq<Line>, i: nat)
    requires StrictlySorted(lines) && i < |lines|
    ensures Total(lines, lines[i].sku) == lines[i].quantity
  {
    if i == 0 {
      AfterAbsent(lines[0].sku, lines[1..]);
    } else {
      assert lines[1..][i - 1] == lines[i];
      LineIsTotal(lines[1..], i - 1);
      SkuListed(lines[1..], i - 1);
      BelowIrreflexive(lines[0].sku);
    }
  }

  lemma {:induction false} SkuIsListed(lines: seq<Line>, sku: string) returns (i: nat)
    requires sku in Skus(lines)
    ensures i < |lines| && lines[i].sku == sku
  {
    if lines[0].sku == sku {
      i := 0;
    } else {
      i := SkuIsListed(lines[1..], sku);
      i := i + 1;
    }
  }

  ghost predicate Bounded(lines: seq<Line>) {
    forall l :: l in lines ==> l.sku != "" && l.quantity <= LINE_QUANTITY_MAX
  }

  ghost predicate Positive(lines: seq<Line>) {
    forall l :: l in lines ==> l.quantity > 0
  }

  lemma {:induction false} PutMembers(lines: seq<Line>, sku: string, quantity: int)
    ensures |Put(lines, sku, quantity)| <= |lines| + 1
    ensures forall l :: l in Put(lines, sku, quantity) ==> l == Line(sku, quantity) || l in lines
  {
    if lines != [] && Below(lines[0].sku, sku) {
      PutMembers(lines[1..], sku, quantity);
    }
  }

  /** A strictly sorted list of positive quantities is determined by its totals. */
  lemma {:induction false} SortedUnique(a: seq<Line>, b: seq<Line>)
    requires StrictlySorted(a) && StrictlySorted(b) && Positive(a) && Positive(b)
    requires SameTotals(a, b)
    ensures a == b
    decreases |a|
  {
    if a == [] {
      HeadFirst(b, a);
    } else {
      HeadFirst(a, b);
      HeadFirst(b, a);
      BelowTotal(a[0].sku, b[0].sku);
      AfterAbsent(a[0].sku, a[1..]);
      AfterAbsent(b[0].sku, b[1..]);
      assert Total(a, a[0].sku) == Total(b, a[0].sku);
      assert a[0] == b[0];
      forall s ensures Total(a[1..], s) == Total(b[1..], s) {
        assert Total(a, s) == Total(b, s);
      }
      SortedUnique(a[1..], b[1..]);
      assert a == [a[0]] + a[1..] && b == [b[0]] + b[1..];
    }
  }

  lemma HeadFirst(a: seq<Line>, b: seq<Line>)
    requires StrictlySorted(a) && StrictlySorted(b) && Positive(a) && SameTotals(a, b)
    ensures a != [] ==> b != [] && !Below(a[0].sku, b[0].sku)
  {
    if a != [] {
      AfterAbsent(a[0].sku, a[1..]);
      assert a[0] in a;
      assert Total(b, a[0].sku) == Total(a, a[0].sku) > 0;
      if b != [] && Below(a[0].sku, b[0].sku) {
        AfterThrough(a[0].sku, b[0].sku, b[1..]);
        AfterAbsent(a[0].sku, b);
      }
    }
  }

  // ---------------------------------------------------------------------------
  // What the loop computes

  /** Lines as inventory's own request parsing lets them through: named, and counted from 1 to the
      bound every quantity is checked against. */
  ghost predicate Requested(lines: seq<Line>) {
    forall l :: l in lines ==> l.sku != "" && 1 <= l.quantity <= QUANTITY_MAX
  }

  lemma {:induction false} TotalNonNegative(lines: seq<Line>, sku: string)
    requires forall l :: l in lines ==> l.quantity >= 0
    ensures Total(lines, sku) >= 0
  {
    if lines != [] {
      TotalNonNegative(lines[1..], sku);
    }
  }

  /** What every turn keeps: sorted, positive, and under the bound. */
  ghost predicate Good(sofar: seq<Line>) {
    StrictlySorted(sofar) && Positive(sofar) && Bounded(sofar) && WithinBound(sofar)
  }

  lemma ExtendIsExact(sofar: seq<Line>, line: Line)
    requires Good(sofar) && line.sku != "" && 1 <= line.quantity <= QUANTITY_MAX
    ensures var sum := Total(sofar, line.sku) + line.quantity;
            if sum > LINE_QUANTITY_MAX then Extend(sofar, line) == Refused(TotalTooLarge)
            else
              var next := Extend(sofar, line);
              && next.Canonical? && Good(next.lines) && |next.lines| <= |sofar| + 1
              && forall s :: Total(next.lines, s) == Total(sofar, s) + if s == line.sku then line.quantity else 0
  {
    var sum := Total(sofar, line.sku) + line.quantity;
    TotalNonNegative(sofar, line.sku);
    assert Total(sofar, line.sku) <= LINE_QUANTITY_MAX;
    assert Wrap32(sum) == sum;
    if sum <= LINE_QUANTITY_MAX {
      PutSorted(sofar, line.sku, sum);
      PutMembers(sofar, line.sku, sum);
      var next := Put(sofar, line.sku, sum);
      forall s ensures Total(next, s) == Total(sofar, s) + if s == line.sku then line.quantity else 0 {
        PutTotal(sofar, line.sku, sum, s);
      }
      forall s ensures Total(next, s) <= LINE_QUANTITY_MAX {
        PutTotal(sofar, line.sku, sum, s);
        assert Total(sofar, s) <= LINE_QUANTITY_MAX;
      }
    }
  }

  /** Whether the totals reached and the lines still to come stay within the bound together. */
  ghost predicate Fits(sofar: seq<Line>, lines: seq<Line>) {
    forall s :: Total(sofar, s) + Total(lines, s) <= LINE_QUANTITY_MAX
  }

  lemma {:induction false} TallyIsExact(sofar: seq<Line>, lines: seq<Line>)
    requires Good(sofar) && Requested(lines)
    ensures Tally(sofar, lines).Canonical? <==> Fits(sofar, lines)
    ensures Tally(sofar, lines).Refused? ==> Tally(sofar, lines).fault == TotalTooLarge
    ensures Tally(sofar, lines).Canonical? ==>
              var out := Tally(sofar, lines).lines;
              && Good(out) && |out| <= |sofar| + |lines|
              && forall s :: Total(out, s) == Total(sofar, s) + Total(lines, s)
    decreases |lines|
  {
    if lines == [] {
      assert forall s :: Total(sofar, s) + Total(lines, s) == Total(sofar, s);
    } else {
      var line := lines[0];
      var rest := lines[1..];
      ExtendIsExact(sofar, line);
      assert line in lines && Requested(rest);
      if Extend(sofar, line).Canonical? {
        var next := Extend(sofar, line).lines;
        TallyIsExact(next, rest);
        FitsNext(sofar, line, rest, next);
        assert lines == [line] + rest;
      } else {
        TotalNonNegative(rest, line.sku);
        assert Total(lines, line.sku) == line.quantity + Total(rest, line.sku);
        assert Total(sofar, line.sku) + Total(lines, line.sku) > LINE_QUANTITY_MAX;
      }
    }
  }

  lemma FitsNext(sofar: seq<Line>, line: Line, rest: seq<Line>, next: seq<Line>)
    requires forall s :: Total(next, s) == Total(sofar, s) + if s == line.sku then line.quantity else 0
    ensures Fits(next, rest) <==> Fits(sofar, [line] + rest)
    ensures forall s :: Total(next, s) + Total(rest, s) == Total(sofar, s) + Total([line] + rest, s)
  {
    forall s ensures Total(next, s) + Total(rest, s) == Total(sofar, s) + Total([line] + rest, s) {
      assert ([line] + rest)[1..] == rest;
    }
    if Fits(next, rest) {
      forall s ensures Total(sofar, s) + Total([line] + rest, s) <= LINE_QUANTITY_MAX {
        assert Total(next, s) + Total(rest, s) <= LINE_QUANTITY_MAX;
      }
    }
    if Fits(sofar, [line] + rest) {
      forall s ensures Total(next, s) + Total(rest, s) <= LINE_QUANTITY_MAX {
        assert Total(sofar, s) + Total([line] + rest, s) <= LINE_QUANTITY_MAX;
      }
    }
  }

  // ---------------------------------------------------------------------------
  // The canonical form

  /** Canonicalising succeeds exactly when no SKU totals more than the bound, and then the result is
      strictly sorted, no longer than the list, and holds precisely the totals that were asked for. */
  lemma CanonicalForm(lines: seq<Line>)
    requires Requested(lines) && 1 <= |lines| <= LINES_MAX
    ensures Canonicalise(lines).Canonical? <==> WithinBound(lines)
    ensures Canonicalise(lines).Refused? ==> Canonicalise(lines).fault == TotalTooLarge
    ensures Canonicalise(lines).Canonical? ==>
              var out := Canonicalise(lines).lines;
              StrictlySorted(out) && Positive(out) && Bounded(out) && SameTotals(out, lines) && 1 <= |out| <= |lines|
  {
    TallyIsExact([], lines);
    assert Fits([], lines) <==> WithinBound(lines) by {
      assert forall s :: Total([], s) + Total(lines, s) == Total(lines, s);
    }
    if Canonicalise(lines).Canonical? {
      var out := Canonicalise(lines).lines;
      forall s ensures Total(out, s) == Total(lines, s) {
        assert Total(out, s) == Total([], s) + Total(lines, s);
      }
      assert lines[0] in lines;
      TotalNonNegative(lines[1..], lines[0].sku);
      assert Total(out, lines[0].sku) == Total(lines, lines[0].sku) > 0;
    }
  }

  /** Of lines that request parsing lets through, exactly those of a reservation's length and within
      its bound have a canonical form. */
  lemma CanonicalExactlyWithinBounds(lines: seq<Line>)
    requires Requested(lines)
    ensures Canonicalise(lines).Canonical? <==> 1 <= |lines| <= LINES_MAX && WithinBound(lines)
  {
    if 1 <= |lines| <= LINES_MAX {
      CanonicalForm(lines);
    }
  }

  /** The order a caller sends its lines in is not part of what it asks for. */
  lemma CanonicalIgnoresOrder(a: seq<Line>, b: seq<Line>)
    requires Requested(a) && 1 <= |a| <= LINES_MAX
    requires multiset(a) == multiset(b)
    ensures Canonicalise(a) == Canonicalise(b)
  {
    assert |multiset(a)| == |a| && |multiset(b)| == |b|;
    forall l | l in b ensures l in a {
      assert l in multiset(a);
    }
    forall s ensures Total(a, s) == Total(b, s) {
      TotalOfPermutation(a, b, s);
    }
    assert WithinBound(a) <==> WithinBound(b);
    CanonicalForm(a);
    CanonicalForm(b);
    if Canonicalise(a).Canonical? {
      SameTotalsThrough(Canonicalise(a).lines, a, b, Canonicalise(b).lines);
      SortedUnique(Canonicalise(a).lines, Canonicalise(b).lines);
    }
  }

  lemma SameTotalsThrough(a: seq<Line>, b: seq<Line>, c: seq<Line>, d: seq<Line>)
    requires SameTotals(a, b) && SameTotals(b, c) && SameTotals(d, c)
    ensures SameTotals(a, d)
  {
    forall s ensures Total(a, s) == Total(d, s) {
      assert Total(a, s) == Total(b, s) && Total(b, s) == Total(c, s) && Total(d, s) == Total(c, s);
    }
  }

  /** A canonical list canonicalises to itself. */
  lemma CanonicalIsIdempotent(lines: seq<Line>)
    requires Requested(lines) && 1 <= |lines| <= LINES_MAX
    requires Canonicalise(lines).Canonical?
    ensures Canonicalise(Canonicalise(lines).lines) == Canonicalise(lines)
  {
    CanonicalForm(lines);
    var out := Canonicalise(lines).lines;
    forall s ensures Total(out, s) <= LINE_QUANTITY_MAX {
      assert Total(out, s) == Total(lines, s) && Total(lines, s) <= LINE_QUANTITY_MAX;
    }
    CanonicalForm(out);
    SameTotalsThrough(out, out, out, Canonicalise(out).lines);
    SortedUnique(out, Canonicalise(out).lines);
  }

  /** Without the bound on each quantity the 32-bit sum does wrap: a total of 2147483648 is accepted
      as a negative one. The bound that request parsing enforces is what excludes this. */
  lemma UnboundedQuantityWraps()
    ensures var lines := [Line("A", 1), Line("A", 0x7FFF_FFFF)];
            && Total(lines, "A") == 0x8000_0000
            && Canonicalise(lines) == Canonical([Line("A", -0x8000_0000)])
  {
    var lines := [Line("A", 1), Line("A", 0x7FFF_FFFF)];
    assert lines[1..] == [Line("A", 0x7FFF_FFFF)];
    assert Total([Line("A", 1)], "A") == 1;
    BelowIrreflexive("A");
    assert Tally([Line("A", 1)], lines[1..]) == Canonical([Line("A", -0x8000_0000)]) by {
      assert Extend([Line("A", 1)], lines[1]) == Canonical([Line("A", -0x8000_0000)]);
    }
    assert Extend([], lines[0]) == Canonical([Line("A", 1)]);
  }

  // ---------------------------------------------------------------------------
  // The loop itself

  /** A table and a sorted list that name the same SKUs with the same counts. */
  ghost predicate Represents(table: map<string, int>, lines: seq<Line>) {
    StrictlySorted(lines) && table.Keys == Skus(lines) && forall s :: s in table ==> table[s] == Total(lines, s)
  }

  /** Sums repeats through a table keyed by SKU, lists the table in whatever order it iterates, and
      sorts the list. The answer is the specification's, so it cannot depend on that order. */
  method CanonicalLines(lines: seq<Line>) returns (r: Outcome)
    ensures r == Canonicalise(lines)
  {
    if |lines| == 0 {
      return Refused(LinesRequired);
    }
    if |lines| > LINES_MAX {
      return Refused(TooManyLines);
    }
    var summed: map<string, int> := map[];
    ghost var sofar: seq<Line> := [];
    var i := 0;
    while i < |lines|
      invariant 0 <= i <= |lines|
      invariant Represents(summed, sofar)
      invariant Tally(sofar, lines[i..]) == Tally([], lines)
    {
      var line := lines[i];
      assert lines[i..][1..] == lines[i + 1..];
      var held := if line.sku in summed then summed[line.sku] else 0;
      HeldIsTotal(summed, sofar, line.sku);
      if line.sku == "" {
        return Refused(SkuRequired);
      }
      if line.quantity <= 0 {
        return Refused(QuantityTooSmall);
      }
      if Wrap32(held + line.quantity) > LINE_QUANTITY_MAX {
        return Refused(TotalTooLarge);
      }
      PutRepresents(summed, sofar, line.sku, Wrap32(held + line.quantity));
      sofar := Put(sofar, line.sku, Wrap32(held + line.quantity));
      summed := summed[line.sku := Wrap32(held + line.quantity)];
      i := i + 1;
    }
    var canonical := SortTable(summed);
    SameTable(summed, sofar, canonical);
    return Canonical(canonical);
  }

  lemma HeldIsTotal(summed: map<string, int>, sofar: seq<Line>, sku: string)
    requires Represents(summed, sofar)
    ensures Total(sofar, sku) == if sku in summed then summed[sku] else 0
  {
    if sku !in summed {
      TotalAbsent(sofar, sku);
    }
  }

  /** The entries of the table, taken in any order and put in their sorted places. */
  method SortTable(summed: map<string, int>) returns (canonical: seq<Line>)
    ensures Represents(summed, canonical)
  {
    canonical := [];
    var left := summed;
    ghost var done: map<string, int> := map[];
    while left != map[]
      invariant summed == done + left && done.Keys !! left.Keys
      invariant Represents(done, canonical)
      decreases |left|
    {
      var sku :| sku in left;
      MoveKey(summed, done, left, sku);
      PutRepresents(done, canonical, sku, left[sku]);
      canonical := Put(canonical, sku, left[sku]);
      done := done[sku := left[sku]];
      left := left - {sku};
    }
    assert done == summed;
  }

  lemma MoveKey(whole: map<string, int>, done: map<string, int>, left: map<string, int>, sku: string)
    requires whole == done + left && done.Keys !! left.Keys && sku in left
    ensures whole == done[sku := left[sku]] + (left - {sku})
    ensures done[sku := left[sku]].Keys !! (left - {sku}).Keys
    ensures |left - {sku}| < |left|
  {
    assert left == (left - {sku})[sku := left[sku]];
  }

  lemma PutRepresents(table: map<string, int>, lines: seq<Line>, sku: string, quantity: int)
    requires Represents(table, lines)
    ensures Represents(table[sku := quantity], Put(lines, sku, quantity))
  {
    PutSkus(lines, sku, quantity);
    PutSorted(lines, sku, quantity);
    forall s ensures Total(Put(lines, sku, quantity), s) == if s == sku then quantity else Total(lines, s) {
      PutTotal(lines, sku, quantity, s);
    }
  }

  /** Two sorted lists of one table are equal. */
  lemma {:induction false} SameTable(table: map<string, int>, a: seq<Line>, b: seq<Line>)
    requires Represents(table, a) && Represents(table, b)
    ensures a == b
    decreases |a|
  {
    if a == [] {
      assert b == [];
    } else {
      assert a[0].sku in Skus(b) && b != [];
      LeastSku(a, b[0].sku);
      LeastSku(b, a[0].sku);
      BelowTotal(a[0].sku, b[0].sku);
      TableTail(table, a);
      TableTail(table, b);
      SameTable(table - {a[0].sku}, a[1..], b[1..]);
      assert a == [a[0]] + a[1..] && b == [b[0]] + b[1..];
    }
  }

  lemma LeastSku(a: seq<Line>, s: string)
    requires StrictlySorted(a) && s in Skus(a)
    ensures !Below(s, a[0].sku)
  {
    BelowIrreflexive(s);
    if s != a[0].sku {
      BelowAsymmetric(a[0].sku, s);
    }
  }

  lemma TableTail(table: map<string, int>, a: seq<Line>)
    requires a != [] && Represents(table, a)
    ensures a[0].quantity == table[a[0].sku]
    ensures Represents(table - {a[0].sku}, a[1..])
  {
    AfterAbsent(a[0].sku, a[1..]);
  }
}
