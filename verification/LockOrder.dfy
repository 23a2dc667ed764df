/** Row locks. A transaction takes the rows it writes one at a time, keeps them until it commits, and
    waits while another holds the one it wants next. */
module LockOrder {
  import opened Text
  import opened CanonicalLines

  datatype Lock = StockRow(sku: string) | ReservationRow(id: nat) | HeldOrder(order: nat)

  datatype Tx = Tx(plan: seq<Lock>, taken: nat, done: bool)

  ghost predicate TxOk(t: Tx) {
    t.taken <= |t.plan|
  }

  ghost predicate Holds(t: Tx, l: Lock) {
    TxOk(t) && !t.done && exists i :: 0 <= i < t.taken && t.plan[i] == l
  }

  predicate Wanting(t: Tx) {
    !t.done && t.taken < |t.plan|
  }

  datatype Step = Take(tx: nat) | Finish(tx: nat)

  ghost predicate WaitsFor(s: seq<Tx>, i: nat, j: nat) {
    i < |s| && j < |s| && i != j && Wanting(s[i]) && Holds(s[j], s[i].plan[s[i].taken])
  }

  ghost predicate Enabled(s: seq<Tx>, step: Step) {
    && step.tx < |s| && !s[step.tx].done
    && match step
       case Take(i) => Wanting(s[i]) && forall j :: 0 <= j < |s| ==> !WaitsFor(s, i, j)
       case Finish(i) => s[i].taken == |s[i].plan|
  }

  function Next(s: seq<Tx>, step: Step): seq<Tx> {
    if step.tx >= |s| then s
    else
      match step
      case Take(i) => s[i := s[i].(taken := s[i].taken + 1)]
      case Finish(i) => s[i := s[i].(done := true)]
  }

  ghost predicate Legal(s: seq<Tx>, steps: seq<Step>)
    decreases |steps|
  {
    steps == [] || (Enabled(s, steps[0]) && Legal(Next(s, steps[0]), steps[1..]))
  }

  function Run(s: seq<Tx>, steps: seq<Step>): seq<Tx>
    decreases |steps|
  {
    if steps == [] then s else Run(Next(s, steps[0]), steps[1..])
  }

  ghost predicate AllDone(s: seq<Tx>) {
    forall i :: 0 <= i < |s| ==> s[i].done
  }

  ghost predicate Stuck(s: seq<Tx>) {
    !AllDone(s) && forall step :: !Enabled(s, step)
  }

  // ---------------------------------------------------------------------------
  // The order rows are taken in

  /** Stock rows by SKU, then reservation rows, then the index entries of live holds; a reservation being
      swept is taken before everything else, and swept is negative where there is none. */
  predicate Before(swept: int, a: Lock, b: Lock) {
    if a == b then false
    else if a.ReservationRow? && a.id == swept then true
    else if b.ReservationRow? && b.id == swept then false
    else
      match a
      case StockRow(x) => (match b case StockRow(y) => Below(x, y) case _ => true)
      case ReservationRow(x) =>
        (match b case StockRow(_) => false case ReservationRow(y) => x < y case HeldOrder(_) => true)
      case HeldOrder(x) => b.HeldOrder? && x < b.order
  }

  lemma BeforeTransitive(swept: int, a: Lock, b: Lock, c: Lock)
    requires Before(swept, a, b) && Before(swept, b, c)
    ensures Before(swept, a, c)
  {
    if a.StockRow? && b.StockRow? && c.StockRow? {
      BelowTransitive(a.sku, b.sku, c.sku);
      BelowAsymmetric(a.sku, c.sku);
    }
    if a.StockRow? && b.StockRow? {
      BelowAsymmetric(a.sku, b.sku);
    }
  }

  lemma BeforeTotal(swept: int, a: Lock, b: Lock)
    ensures Before(swept, a, b) || a == b || Before(swept, b, a)
    ensures !(Before(swept, a, b) && Before(swept, b, a))
  {
    if a.StockRow? && b.StockRow? && a != b {
      BelowTotal(a.sku, b.sku);
      if Below(a.sku, b.sku) { BelowAsymmetric(a.sku, b.sku); }
    }
  }

  ghost predicate Ascending(swept: int, plan: seq<Lock>) {
    forall i, j :: 0 <= i < j < |plan| ==> Before(swept, plan[i], plan[j])
  }

  ghost predicate AllAscending(swept: int, s: seq<Tx>) {
    forall i :: 0 <= i < |s| ==> TxOk(s[i]) && Ascending(swept, s[i].plan)
  }

  // ---------------------------------------------------------------------------
  // What the transactions take

  function StockRows(lines: seq<Line>): (r: seq<Lock>)
    ensures |r| == |lines| && forall i :: 0 <= i < |r| ==> r[i] == StockRow(lines[i].sku)
  {
    if lines == [] then [] else [StockRow(lines[0].sku)] + StockRows(lines[1..])
  }

  /** ReserveStock: a stock row a line, then the unique entry for the order's live hold. */
  function ReservePlan(order: nat, lines: seq<Line>): seq<Lock> {
    StockRows(lines) + [HeldOrder(order)]
  }

  /** CommitReservation and ReleaseReservation: a stock row a line, then the reservation, whose entry as
      its order's live hold is on its way out until they commit. */
  function SettlePlan(id: nat, order: nat, lines: seq<Line>): seq<Lock> {
    StockRows(lines) + [ReservationRow(id), HeldOrder(order)]
  }

  function Begin(plan: seq<Lock>): Tx {
    Tx(plan, 0, false)
  }

  lemma {:induction false} StockRowsAscend(swept: int, lines: seq<Line>)
    requires StrictlySorted(lines)
    ensures Ascending(swept, StockRows(lines))
  {
    var plan := StockRows(lines);
    if lines != [] {
      StockRowsAscend(swept, lines[1..]);
      forall i, j | 0 <= i < j < |plan| ensures Before(swept, plan[i], plan[j]) {
        assert lines[1..][j - 1] == lines[j];
        if i == 0 {
          SkuListed(lines[1..], j - 1);
          BelowAsymmetric(lines[0].sku, lines[j].sku);
        } else {
          assert StockRows(lines[1..])[i - 1] == plan[i] && StockRows(lines[1..])[j - 1] == plan[j];
        }
      }
    }
  }

  /** Canonical lines are what makes every reserving and settling transaction take its rows in one
      common order. */
  lemma PlansAscend(swept: int, lines: seq<Line>, order: nat, id: nat)
    requires StrictlySorted(lines)
    ensures Ascending(swept, ReservePlan(order, lines))
    ensures id != swept ==> Ascending(swept, SettlePlan(id, order, lines))
  {
    StockRowsAscend(swept, lines);
  }

  // ---------------------------------------------------------------------------
  // No cycle

  /** A waiting transaction wants something before what its blocker wants. */
  lemma WaitAscends(swept: int, s: seq<Tx>, i: nat, j: nat)
    requires AllAscending(swept, s) && WaitsFor(s, i, j) && Wanting(s[j])
    ensures Before(swept, s[i].plan[s[i].taken], s[j].plan[s[j].taken])
  {
  }

  ghost predicate WaitChain(s: seq<Tx>, chain: seq<nat>) {
    forall k :: 0 <= k < |chain| - 1 ==> WaitsFor(s, chain[k], chain[k + 1])
  }

  lemma {:induction false} ChainAscends(swept: int, s: seq<Tx>, chain: seq<nat>)
    requires AllAscending(swept, s) && |chain| >= 2 && WaitChain(s, chain)
    requires chain[|chain| - 1] < |s| && Wanting(s[chain[|chain| - 1]])
    ensures WaitsFor(s, chain[0], chain[1])
    ensures var a, b := s[chain[0]], s[chain[|chain| - 1]];
            Before(swept, a.plan[a.taken], b.plan[b.taken])
    decreases |chain|
  {
    var last := chain[|chain| - 1];
    assert WaitsFor(s, chain[0], chain[1]);
    if |chain| > 2 {
      var rest := chain[1..];
      forall k | 0 <= k < |rest| - 1 ensures WaitsFor(s, rest[k], rest[k + 1]) {
        assert WaitsFor(s, chain[k + 1], chain[k + 2]);
      }
      ChainAscends(swept, s, rest);
      WaitAscends(swept, s, chain[0], chain[1]);
      var a, b, c := s[chain[0]], s[chain[1]], s[last];
      BeforeTransitive(swept, a.plan[a.taken], b.plan[b.taken], c.plan[c.taken]);
    } else {
      WaitAscends(swept, s, chain[0], chain[1]);
    }
  }

  /** However many transactions, whatever each has taken so far: none waits, through others, for
      itself. */
  lemma NoWaitCycle(swept: int, s: seq<Tx>, chain: seq<nat>)
    requires AllAscending(swept, s)
    requires |chain| >= 2 && chain[0] == chain[|chain| - 1]
    ensures !WaitChain(s, chain)
  {
    if WaitChain(s, chain) {
      assert WaitsFor(s, chain[0], chain[1]);
      ChainAscends(swept, s, chain);
    }
  }

  // ---------------------------------------------------------------------------
  // Progress

  /** The waiting transaction whose next row comes last. */
  lemma {:induction false} LastWanting(swept: int, s: seq<Tx>, n: nat) returns (m: nat)
    requires n <= |s| && exists i :: 0 <= i < n && Wanting(s[i])
    ensures m < n && Wanting(s[m])
    ensures forall i :: 0 <= i < n && Wanting(s[i]) ==> !Before(swept, s[m].plan[s[m].taken], s[i].plan[s[i].taken])
    decreases n
  {
    if exists i :: 0 <= i < n - 1 && Wanting(s[i]) {
      m := LastWanting(swept, s, n - 1);
      if Wanting(s[n - 1]) {
        var a, b := s[m].plan[s[m].taken], s[n - 1].plan[s[n - 1].taken];
        BeforeTotal(swept, a, b);
        if Before(swept, a, b) {
          forall i | 0 <= i < n && Wanting(s[i]) ensures !Before(swept, b, s[i].plan[s[i].taken]) {
            BeforeTotal(swept, b, b);
            if i < n - 1 && Before(swept, b, s[i].plan[s[i].taken]) {
              BeforeTransitive(swept, a, b, s[i].plan[s[i].taken]);
            }
          }
          m := n - 1;
        }
      }
    } else {
      m := n - 1;
      BeforeTotal(swept, s[m].plan[s[m].taken], s[m].plan[s[m].taken]);
    }
  }

  /** Some transaction can always take its next row or finish. */
  lemma SomeoneCanStep(swept: int, s: seq<Tx>) returns (step: Step)
    requires AllAscending(swept, s) && !AllDone(s)
    ensures Enabled(s, step)
  {
    if i :| 0 <= i < |s| && !s[i].done && s[i].taken == |s[i].plan| {
      step := Finish(i);
    } else {
      var i :| 0 <= i < |s| && !s[i].done;
      assert TxOk(s[i]) && Wanting(s[i]);
      var m := LastWanting(swept, s, |s|);
      forall j | 0 <= j < |s| ensures !WaitsFor(s, m, j) {
        if WaitsFor(s, m, j) {
          assert Wanting(s[j]);
          WaitAscends(swept, s, m, j);
        }
      }
      step := Take(m);
    }
  }

  lemma StepKeepsAscending(swept: int, s: seq<Tx>, step: Step)
    requires AllAscending(swept, s) && Enabled(s, step)
    ensures AllAscending(swept, Next(s, step))
  {
  }

  /** The rows and commits still to come. */
  function Work(s: seq<Tx>): int {
    if s == [] then 0
    else (if s[0].done then 0 else |s[0].plan| - s[0].taken + 1) + Work(s[1..])
  }

  lemma {:induction false} WorkOfUpdate(s: seq<Tx>, i: nat, t: Tx)
    requires i < |s|
    ensures Work(s[i := t]) == Work(s) - Work([s[i]]) + Work([t])
  {
    assert [s[i]][1..] == [] && [t][1..] == [];
    if i == 0 {
      assert s[0 := t][1..] == s[1..];
    } else {
      assert s[i := t][1..] == s[1..][i - 1 := t];
      WorkOfUpdate(s[1..], i - 1, t);
    }
  }

  lemma StepDoesWork(swept: int, s: seq<Tx>, step: Step)
    requires AllAscending(swept, s) && Enabled(s, step)
    ensures Work(Next(s, step)) < Work(s)
  {
    var t := Next(s, step)[step.tx];
    WorkOfUpdate(s, step.tx, t);
    assert [s[step.tx]][1..] == [] && [t][1..] == [];
    assert TxOk(s[step.tx]);
  }

  lemma {:induction false} WorkNonNegative(swept: int, s: seq<Tx>)
    requires AllAscending(swept, s)
    ensures Work(s) >= 0
  {
    if s != [] {
      assert AllAscending(swept, s[1..]);
      assert TxOk(s[0]);
      WorkNonNegative(swept, s[1..]);
    }
  }

  /** Every run is finite, and a run that can go no further has finished every transaction. */
  lemma {:induction false} EveryRunFinishes(swept: int, s: seq<Tx>, steps: seq<Step>)
    requires AllAscending(swept, s) && Legal(s, steps)
    ensures |steps| <= Work(s)
    ensures !Stuck(Run(s, steps))
    decreases |steps|
  {
    if steps == [] {
      WorkNonNegative(swept, s);
      if !AllDone(s) {
        var step := SomeoneCanStep(swept, s);
      }
    } else {
      StepKeepsAscending(swept, s, steps[0]);
      StepDoesWork(swept, s, steps[0]);
      EveryRunFinishes(swept, Next(s, steps[0]), steps[1..]);
    }
  }

  // ---------------------------------------------------------------------------
  // Runs put together

  lemma {:induction false} TakesAll(s: seq<Tx>, i: nat, n: nat) returns (steps: seq<Step>)
    requires i < |s| && !s[i].done && s[i].taken <= n <= |s[i].plan|
    requires forall k, j :: s[i].taken <= k < n && 0 <= j < |s| && j != i ==> !Holds(s[j], s[i].plan[k])
    ensures Legal(s, steps) && Run(s, steps) == s[i := s[i].(taken := n)]
    decreases n - s[i].taken
  {
    if s[i].taken == n {
      steps := [];
      assert s[i := s[i].(taken := n)] == s;
    } else {
      var next := Next(s, Take(i));
      forall k, j | next[i].taken <= k < n && 0 <= j < |next| && j != i ensures !Holds(next[j], next[i].plan[k]) {
        assert next[j] == s[j];
      }
      var rest := TakesAll(next, i, n);
      steps := [Take(i)] + rest;
      assert steps[1..] == rest;
      assert next[i := next[i].(taken := n)] == s[i := s[i].(taken := n)];
    }
  }

  lemma {:induction false} RunOn(s: seq<Tx>, a: seq<Step>, b: seq<Step>)
    requires Legal(s, a) && Legal(Run(s, a), b)
    ensures Legal(s, a + b) && Run(s, a + b) == Run(Run(s, a), b)
    decreases |a|
  {
    if a == [] {
      assert a + b == b;
    } else {
      assert (a + b)[1..] == a[1..] + b && (a + b)[0] == a[0];
      RunOn(Next(s, a[0]), a[1..], b);
    }
  }
}
