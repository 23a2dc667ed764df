/** Byte-wise ordering of strings, as Go compares them, and the fact sorting rests on: an ordered
    sequence is determined by the elements it holds. */
module Text {

  /** a sorts strictly before b. */
  predicate Below(a: string, b: string) {
    b != "" && (a == "" || a[0] < b[0] || (a[0] == b[0] && Below(a[1..], b[1..])))
  }

  predicate Ordered(s: seq<string>) {
    forall i, j :: 0 <= i < j < |s| ==> !Below(s[j], s[i])
  }

  lemma {:induction false} BelowIrreflexive(a: string)
    ensures !Below(a, a)
  {
    if a != "" {
      BelowIrreflexive(a[1..]);
    }
  }

  lemma {:induction false} BelowTransitive(a: string, b: string, c: string)
    requires Below(a, b) && Below(b, c)
    ensures Below(a, c)
  {
    if a != "" && a[0] == b[0] && b[0] == c[0] {
      BelowTransitive(a[1..], b[1..], c[1..]);
    }
  }

  lemma {:induction false} BelowTotal(a: string, b: string)
    ensures Below(a, b) || a == b || Below(b, a)
  {
    if a != "" && b != "" && a[0] == b[0] {
      BelowTotal(a[1..], b[1..]);
      assert a == [a[0]] + a[1..] && b == [b[0]] + b[1..];
    }
  }

  lemma BelowAsymmetric(a: string, b: string)
    requires Below(a, b)
    ensures !Below(b, a) && a != b
  {
    BelowIrreflexive(a);
    if Below(b, a) {
      BelowTransitive(a, b, a);
    }
  }

  lemma NotBelowTransitive(a: string, b: string, c: string)
    requires !Below(b, a) && !Below(c, b)
    ensures !Below(c, a)
  {
    BelowTotal(a, b);
    BelowTotal(b, c);
    if Below(c, a) {
      if a != b && b != c {
        BelowTransitive(a, b, c);
        BelowAsymmetric(a, c);
      }
    }
  }

  /** x inserted in front of the first element that does not sort before it. */
  function Insert(x: string, s: seq<string>): seq<string> {
    if s == [] then [x]
    else if Below(s[0], x) then [s[0]] + Insert(x, s[1..])
    else [x] + s
  }

  lemma {:induction false} InsertHolds(x: string, s: seq<string>)
    ensures multiset(Insert(x, s)) == multiset(s) + multiset{x}
  {
    if s != [] {
      assert s == [s[0]] + s[1..];
      if Below(s[0], x) {
        InsertHolds(x, s[1..]);
      }
    }
  }

  lemma OrderedHead(s: seq<string>)
    requires s != []
    ensures Ordered(s) <==> Ordered(s[1..]) && forall x :: x in multiset(s[1..]) ==> !Below(x, s[0])
  {
    var rest := s[1..];
    assert forall i :: 0 <= i < |rest| ==> rest[i] == s[i + 1];
    if Ordered(rest) && forall x :: x in multiset(rest) ==> !Below(x, s[0]) {
      forall i, j | 0 <= i < j < |s| ensures !Below(s[j], s[i]) {
        assert s[j] == rest[j - 1] && rest[j - 1] in multiset(rest);
        if i > 0 { assert s[i] == rest[i - 1]; }
      }
    }
    if Ordered(s) {
      forall x | x in multiset(rest) ensures !Below(x, s[0]) {
        var j :| 0 <= j < |rest| && rest[j] == x;
        assert s[j + 1] == x;
      }
    }
  }

  lemma {:induction false} InsertOrdered(x: string, s: seq<string>)
    requires Ordered(s)
    ensures Ordered(Insert(x, s))
  {
    var r := Insert(x, s);
    InsertHolds(x, s);
    OrderedHead(r);
    if s != [] {
      OrderedHead(s);
      if Below(s[0], x) {
        InsertOrdered(x, s[1..]);
        InsertHolds(x, s[1..]);
        BelowAsymmetric(s[0], x);
        assert r[1..] == Insert(x, s[1..]);
      } else {
        assert r[1..] == s && s == [s[0]] + s[1..];
        BelowIrreflexive(s[0]);
        forall y | y in multiset(s) ensures !Below(y, x) {
          NotBelowTransitive(x, s[0], y);
        }
      }
    }
  }

  function Sort(s: seq<string>): (r: seq<string>)
    ensures Ordered(r) && multiset(r) == multiset(s)
  {
    if s == [] then []
    else
      var sorted := Sort(s[..|s| - 1]);
      InsertHolds(s[|s| - 1], sorted);
      InsertOrdered(s[|s| - 1], sorted);
      assert s == s[..|s| - 1] + [s[|s| - 1]];
      Insert(s[|s| - 1], sorted)
  }

  /** Two ordered arrangements of the same elements are the same arrangement. */
  lemma {:induction false} OrderedUnique(a: seq<string>, b: seq<string>)
    requires Ordered(a) && Ordered(b) && multiset(a) == multiset(b)
    ensures a == b
    decreases |a|
  {
    assert |multiset(a)| == |a| && |multiset(b)| == |b|;
    if a != [] {
      HeadLeast(a, b[0]);
      HeadLeast(b, a[0]);
      BelowTotal(a[0], b[0]);
      assert a == [a[0]] + a[1..] && b == [b[0]] + b[1..];
      assert multiset(a[1..]) == multiset(a) - multiset{a[0]} == multiset(b[1..]);
      OrderedHead(a);
      OrderedHead(b);
      OrderedUnique(a[1..], b[1..]);
    }
  }

  lemma HeadLeast(a: seq<string>, x: string)
    requires Ordered(a) && x in multiset(a)
    ensures a != [] && !Below(x, a[0])
  {
    var i :| 0 <= i < |a| && a[i] == x;
    BelowIrreflexive(x);
  }
}
