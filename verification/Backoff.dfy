/** Retrying a call: which calls may be repeated, how often, and how long to wait in between. Delays are
    int64 nanoseconds, and the shift that doubles them is written with its wrap. */
module Backoff {
  import opened OrderTotals

  function Pow2(n: nat): (p: nat)
    ensures p > 0
  {
    if n == 0 then 1 else 2 * Pow2(n - 1)
  }

  /** base << n on int64: what a shift loses at the top is gone. */
  function Shift(base: int, n: nat): int {
    Wrap64(base * Pow2(n))
  }

  /** The longest a caller waits before its next attempt; the wait itself is drawn below it. */
  function Ceiling(attempt: nat, base: int, max: int): int
    requires attempt > 0
  {
    var shifted := Shift(base, attempt - 1);
    var d := if shifted <= 0 || shifted > max then max else shifted;
    if d <= 0 then 0 else d
  }

  /** The same in unbounded integers: doubling, up to a cap. */
  function Ideal(attempt: nat, base: int, max: int): int
    requires attempt > 0
  {
    var d := base * Pow2(attempt - 1);
    if d > max then max else d
  }

  const TWO63 := 0x8000_0000_0000_0000
  const TWO64 := 0x1_0000_0000_0000_0000

  lemma {:induction false} Pow2Adds(m: nat, n: nat)
    ensures Pow2(m + n) == Pow2(m) * Pow2(n)
    decreases n
  {
    if n > 0 {
      Pow2Adds(m, n - 1);
      assert Pow2(m) * (2 * Pow2(n - 1)) == 2 * (Pow2(m) * Pow2(n - 1));
    }
  }

  lemma Pow2Of64()
    ensures Pow2(64) == TWO64
  {
    assert Pow2(4) == 0x10;
    Pow2Adds(4, 4);
    Pow2Adds(8, 8);
    Pow2Adds(16, 16);
    Pow2Adds(32, 32);
  }

  /** Wrapping takes away a multiple of 2^64. */
  lemma WrapIs(x: int) returns (k: int)
    ensures Wrap64(x) == x - k * TWO64
  {
    k := (x + TWO63) / TWO64;
  }

  /** Below the 64th doubling a wrapped shift is still a multiple of its power of two. */
  lemma ShiftIsMultiple(base: int, n: nat) returns (q: int)
    requires n < 64
    ensures Shift(base, n) == q * Pow2(n)
  {
    Pow2Of64();
    Pow2Adds(64 - n, n);
    var k := WrapIs(base * Pow2(n));
    q := base - k * Pow2(64 - n);
    TakeOut(base, k, Pow2(64 - n), Pow2(n));
  }

  lemma TakeOut(base: int, k: int, high: int, low: int)
    ensures base * low - k * (high * low) == (base - k * high) * low
  {
    assert k * (high * low) == (k * high) * low;
  }

  lemma MultipleWrapsToZero(x: int)
    ensures Wrap64(x * TWO64) == 0
  {
    var k := WrapIs(x * TWO64);
    assert x * TWO64 - k * TWO64 == (x - k) * TWO64;
  }

  /** From the 64th doubling on there is nothing left. */
  lemma ShiftRunsOut(base: int, n: nat)
    requires n >= 64
    ensures Shift(base, n) == 0
  {
    Pow2Of64();
    Pow2Adds(n - 64, 64);
    assert base * (Pow2(n - 64) * TWO64) == (base * Pow2(n - 64)) * TWO64;
    MultipleWrapsToZero(base * Pow2(n - 64));
  }

  lemma FactorAbove(base: int, max: int, power: int)
    requires base > 0 && base * power > base * max
    ensures power > max
  {
    assert base * (max - power) == base * max - base * power;
    if power <= max {
      ProductNonNegative(base, max - power);
    }
  }

  lemma PositiveMultiple(q: int, power: int)
    requires power > 0 && q * power > 0
    ensures q * power >= power
  {
    assert (-q) * power == -(q * power) && (q - 1) * power == q * power - power;
    if q < 1 {
      ProductNonNegative(-q, power);
    } else {
      ProductNonNegative(q - 1, power);
    }
  }

  /** A shift that overflowed shows itself: it is not positive, or it exceeds the cap. */
  lemma OverflowIsSeen(base: int, max: int, n: nat)
    requires base > 0 && max > 0 && base * max < TWO63 && base * Pow2(n) >= TWO63
    ensures Shift(base, n) <= 0 || Shift(base, n) > max
  {
    FactorAbove(base, max, Pow2(n));
    if n >= 64 {
      ShiftRunsOut(base, n);
    } else {
      var q := ShiftIsMultiple(base, n);
      if q * Pow2(n) > 0 {
        PositiveMultiple(q, Pow2(n));
      }
    }
  }

  /** For every attempt number, however far past the width of the integer, the shift and its two guards
      give the delay that doubling with a cap would, as long as base times cap fits in int64. */
  lemma CeilingIsIdeal(attempt: nat, base: int, max: int)
    requires attempt > 0 && base > 0 && max > 0 && base * max < TWO63
    ensures Ceiling(attempt, base, max) == Ideal(attempt, base, max)
  {
    var d := base * Pow2(attempt - 1);
    ProductNonNegative(base - 1, Pow2(attempt - 1));
    assert d == (base - 1) * Pow2(attempt - 1) + Pow2(attempt - 1);
    if d >= TWO63 {
      OverflowIsSeen(base, max, attempt - 1);
      CapBelow(base, max);
    } else {
      WrapFits(d);
    }
  }

  lemma CapBelow(base: int, max: int)
    requires base > 0 && max > 0 && base * max < TWO63
    ensures max < TWO63
  {
    assert base * max == max + (base - 1) * max;
    ProductNonNegative(base - 1, max);
  }

  /** Without that bound it does not: an overflowed shift can come back as a small delay. */
  lemma OverflowCanBeMissed()
    ensures var base, max := 0x4000_0000_0000_0001, 0x5000_0000_0000_0000;
            Ideal(3, base, max) == max && Ceiling(3, base, max) == 4
  {
    assert Pow2(2) == 4;
  }

  /** Whether a doubling overflows and yet leaves low bits of base that look like a delay below the cap. */
  predicate Missed(base: int, max: int, doublings: nat) {
    && doublings < 64 && base >= Pow2(63 - doublings)
    && var kept := base % Pow2(64 - doublings);
       0 < kept < Pow2(63 - doublings) && kept * Pow2(doublings) < max
  }

  lemma WrapKeepsRemainder(a: int, y: int)
    requires 0 <= y < TWO64
    ensures Wrap64(a * TWO64 + y) == if y < TWO63 then y else y - TWO64
  {
    var k := WrapIs(a * TWO64 + y);
  }

  lemma Powers(n: nat)
    requires n < 64
    ensures Pow2(64 - n) * Pow2(n) == TWO64 && Pow2(63 - n) * Pow2(n) == TWO63
  {
    Pow2Of64();
    Pow2Adds(64 - n, n);
    Pow2Adds(63 - n, n);
    assert Pow2(64) == 2 * Pow2(63);
  }

  lemma BelowTimes(x: int, y: int, p: int)
    requires p > 0
    ensures x < y <==> x * p < y * p
    ensures x <= y - 1 ==> x * p <= y * p - p
  {
    assert (y - 1 - x) * p == y * p - p - x * p && (x - y) * p == x * p - y * p;
    if x < y {
      ProductNonNegative(y - 1 - x, p);
    } else {
      ProductNonNegative(x - y, p);
    }
  }

  /** What is left of base after a shift is its low bits, read with the top one as a sign. */
  lemma ShiftKeepsLowBits(base: int, n: nat)
    requires n < 64
    ensures var kept := base % Pow2(64 - n);
            && (kept < Pow2(63 - n) <==> kept * Pow2(n) < TWO63)
            && Shift(base, n) == if kept < Pow2(63 - n) then kept * Pow2(n) else kept * Pow2(n) - TWO64
  {
    Powers(n);
    var high, low := Pow2(64 - n), Pow2(n);
    var a, kept := base / high, base % high;
    TakeOut(base, a, high, low);
    assert base - a * high == kept;
    BelowTimes(kept, Pow2(63 - n), low);
    BelowTimes(kept, high, low);
    ProductNonNegative(kept, low);
    WrapKeepsRemainder(a, kept * low);
  }

  /** Exactly when the code's delay is the ideal one, for every attempt of every int64 configuration. */
  lemma CeilingIsIdealIff(attempt: nat, base: int, max: int)
    requires attempt > 0 && 0 < base < TWO63 && 0 < max < TWO63
    ensures Ceiling(attempt, base, max) == Ideal(attempt, base, max) <==> !Missed(base, max, attempt - 1)
  {
    var n := attempt - 1;
    ProductNonNegative(base - 1, Pow2(n));
    assert base * Pow2(n) == (base - 1) * Pow2(n) + Pow2(n);
    if n >= 64 {
      ShiftRunsOut(base, n);
      LargePower(base, n);
    } else {
      NarrowShift(base, max, n);
    }
  }

  /** The two guards, where kept is the shift before its sign is looked at. */
  lemma Guards(product: int, kept: int, shifted: int, max: int)
    requires 0 < max < TWO63 && 0 < product && 0 <= kept < TWO64
    requires shifted == if kept < TWO63 then kept else kept - TWO64
    requires product < TWO63 ==> shifted == product
    ensures (if shifted <= 0 || shifted > max then max else shifted) == (if product > max then max else product)
       <==> !(product >= TWO63 && 0 < kept < TWO63 && kept < max)
  {
  }

  lemma NarrowShift(base: int, max: int, n: nat)
    requires n < 64 && 0 < base && 0 < base * Pow2(n) && 0 < max < TWO63
    ensures Ceiling(n + 1, base, max) == Ideal(n + 1, base, max) <==> !Missed(base, max, n)
  {
    var product, kept := base * Pow2(n), base % Pow2(64 - n);
    ShiftKeepsLowBits(base, n);
    Powers(n);
    BelowTimes(base, Pow2(63 - n), Pow2(n));
    BelowTimes(0, kept, Pow2(n));
    BelowTimes(kept, Pow2(64 - n), Pow2(n));
    if product < TWO63 {
      WrapFits(product);
    }
    Guards(product, kept * Pow2(n), Shift(base, n), max);
  }

  lemma LargePower(base: int, n: nat)
    requires base > 0 && n >= 64
    ensures base * Pow2(n) >= TWO63
  {
    Pow2Of64();
    Pow2Adds(n - 64, 64);
    ProductNonNegative(Pow2(n - 64) - 1, TWO64);
    assert Pow2(n - 64) * TWO64 == (Pow2(n - 64) - 1) * TWO64 + TWO64;
    ProductNonNegative(base - 1, Pow2(n));
    assert base * Pow2(n) == (base - 1) * Pow2(n) + Pow2(n);
  }

  /** Whatever the configuration, no wait exceeds the cap, and only a cap of nothing waits for nothing. */
  lemma CeilingIsCapped(attempt: nat, base: int, max: int)
    requires attempt > 0
    ensures 0 <= Ceiling(attempt, base, max)
    ensures max > 0 ==> 0 < Ceiling(attempt, base, max) <= max
    ensures max <= 0 ==> Ceiling(attempt, base, max) == 0
  {
  }

  // ---------------------------------------------------------------------------
  // The retrying interceptor

  datatype Code = OK | Unavailable | DeadlineExceeded | Other(code: nat)

  predicate Retryable(c: Code) {
    c.Unavailable? || c.DeadlineExceeded?
  }

  const READ_ONLY_PREFIXES := {"Get", "List", "Batch", "Search", "Count", "Check"}

  /** What follows the last slash of a full method name. */
  function Name(fullMethod: string): string {
    if fullMethod == "" then ""
    else
      var rest := Name(fullMethod[1..]);
      if '/' in fullMethod[1..] then rest else if fullMethod[0] == '/' then fullMethod[1..] else fullMethod
  }

  /** A method's name is what follows the last slash, or all of it if there is none. */
  lemma {:induction false} NameIs(path: string, name: string)
    requires '/' !in name
    ensures Name(name) == name && Name(path + "/" + name) == name
  {
    NameOfName(name);
    var full := path + "/" + name;
    if path == "" {
      assert full[1..] == name;
    } else {
      assert full[1..] == path[1..] + "/" + name;
      NameIs(path[1..], name);
      assert full[|path|] == '/' && full[1..][|path| - 1] == '/';
    }
  }

  lemma {:induction false} NameOfName(name: string)
    requires '/' !in name
    ensures Name(name) == name
  {
    if name != "" {
      assert name[0] in name;
    }
  }

  predicate Idempotent(fullMethod: string, explicit: set<string>) {
    || fullMethod in explicit
    || Name(fullMethod) in explicit
    || exists p :: p in READ_ONLY_PREFIXES && p <= Name(fullMethod)
  }

  predicate SaysItReads(name: string) {
    || "Get" <= name || "List" <= name || "Batch" <= name
    || "Search" <= name || "Count" <= name || "Check" <= name
  }

  /** Which calls may be made twice: those listed by their full name or by what follows its last slash, and
      those whose name says they only read. */
  lemma IdempotentIff(path: string, name: string, explicit: set<string>)
    requires '/' !in name
    ensures Idempotent(path + "/" + name, explicit)
       <==> path + "/" + name in explicit || name in explicit || SaysItReads(name)
    ensures Idempotent(name, explicit) <==> name in explicit || SaysItReads(name)
  {
    NameIs(path, name);
    if p :| p in READ_ONLY_PREFIXES && p <= name {
      assert p in {"Get", "List", "Batch", "Search", "Count", "Check"};
    }
  }

  /** What the network does with a call, invocation by invocation: what each would return, what it would
      leave in the reply, and whether a wait of a given length after it fits in the call's budget. */
  datatype Network = Network(answers: nat -> Code, leaves: nat -> seq<int>, fits: (nat, int) -> bool)

  /** The wait after an invocation: a random draw below the ceiling, or nothing. */
  function Delay(attempt: nat, base: int, max: int, draw: nat): (d: int)
    requires attempt > 0
    ensures 0 <= d && if Ceiling(attempt, base, max) == 0 then d == 0 else d < Ceiling(attempt, base, max)
  {
    var ceiling := Ceiling(attempt, base, max);
    if ceiling == 0 then 0 else draw % ceiling
  }

  predicate Waits(n: Network, attempt: nat, base: int, max: int, draws: nat -> nat)
    requires attempt > 0
  {
    n.fits(attempt, Delay(attempt, base, max, draws(attempt)))
  }

  /** A call is made again exactly while the answer is Unavailable or DeadlineExceeded, attempts are left and
      the wait fits; the answer and the reply handed back are those of the last invocation, with nothing in
      the reply of the ones before; and a call that may not be repeated is made once. */
  method RetryUnary(maxAttempts: int, base: int, max: int, fullMethod: string, explicit: set<string>, n: Network,
                    draws: nat -> nat)
    returns (code: Code, reply: seq<int>, invocations: nat)
    ensures invocations >= 1 && code == n.answers(invocations) && reply == n.leaves(invocations)
    ensures invocations <= if maxAttempts <= 1 then 1 else maxAttempts
    ensures !Idempotent(fullMethod, explicit) ==> invocations == 1
    ensures forall k: nat :: 1 <= k < invocations ==>
              && (n.answers(k) == Unavailable || n.answers(k) == DeadlineExceeded)
              && n.fits(k, Delay(k, base, max, draws(k)))
    ensures maxAttempts > 1 && Idempotent(fullMethod, explicit) ==>
              || invocations == maxAttempts || (code != Unavailable && code != DeadlineExceeded)
              || !n.fits(invocations, Delay(invocations, base, max, draws(invocations)))
  {
    reply := [];
    if maxAttempts <= 1 || !Idempotent(fullMethod, explicit) {
      return n.answers(1), reply + n.leaves(1), 1;
    }
    var attempt: nat := 1;
    while true
      invariant 1 <= attempt <= maxAttempts && reply == []
      invariant forall k: nat :: 1 <= k < attempt ==>
                  && (n.answers(k) == Unavailable || n.answers(k) == DeadlineExceeded)
                  && n.fits(k, Delay(k, base, max, draws(k)))
      decreases maxAttempts - attempt
    {
      code := n.answers(attempt);
      reply := reply + n.leaves(attempt);
      if code.OK? || attempt >= maxAttempts || !Retryable(code) {
        return code, reply, attempt;
      }
      if !Waits(n, attempt, base, max, draws) {
        return code, reply, attempt;
      }
      reply := [];
      attempt := attempt + 1;
    }
  }
}
