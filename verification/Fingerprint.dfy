/** The bytes a checkout's fingerprint is taken of: the user, then each line as text, sorted, each
    behind a zero byte. Hashing them is left to SHA-256. */
module Fingerprint {
  import opened Text
  import opened CanonicalLines

  const NUL := '\0'

  function Digit(n: nat): char
    requires n < 10
  {
    '0' + n as char
  }

  function Decimal(n: nat): string {
    if n < 10 then [Digit(n)] else Decimal(n / 10) + [Digit(n % 10)]
  }

  /** A count as text, with the sign a negative one carries. */
  function Number(n: int): string {
    if n < 0 then "-" + Decimal(-n) else Decimal(n)
  }

  function LineText(l: Line): string {
    l.sku + ":" + Number(l.quantity)
  }

  function Texts(lines: seq<Line>): seq<string> {
    if lines == [] then [] else [LineText(lines[0])] + Texts(lines[1..])
  }

  function Joined(texts: seq<string>): string {
    if texts == [] then "" else [NUL] + texts[0] + Joined(texts[1..])
  }

  function Encode(user: string, lines: seq<Line>): string {
    user + Joined(Sort(Texts(lines)))
  }

  // ---------------------------------------------------------------------------
  // Numbers

  predicate IsDigit(c: char) {
    '0' <= c <= '9'
  }

  function Value(s: string): int {
    if s == "" then 0 else 10 * Value(s[..|s| - 1]) + (s[|s| - 1] as int - '0' as int)
  }

  lemma {:induction false} DecimalIs(n: nat)
    ensures Decimal(n) != "" && (forall c :: c in Decimal(n) ==> IsDigit(c)) && Value(Decimal(n)) == n
  {
    if n < 10 {
      assert Decimal(n)[..0] == "";
    } else {
      DecimalIs(n / 10);
      assert Decimal(n)[..|Decimal(n)| - 1] == Decimal(n / 10);
    }
  }

  lemma NumberIs(n: int)
    ensures NUL !in Number(n) && ':' !in Number(n)
    ensures n < 0 ==> Number(n)[0] == '-' && Number(n)[1..] == Decimal(-n)
    ensures n >= 0 ==> Number(n)[0] != '-'
  {
    var digits := Decimal(if n < 0 then -n else n);
    DecimalIs(if n < 0 then -n else n);
    assert digits[0] in digits;
    assert n < 0 ==> Number(n)[1..] == digits;
  }

  lemma NumberInjective(a: int, b: int)
    requires Number(a) == Number(b)
    ensures a == b
  {
    NumberIs(a);
    NumberIs(b);
    DecimalIs(if a < 0 then -a else a);
    DecimalIs(if b < 0 then -b else b);
  }

  // ---------------------------------------------------------------------------
  // Separators

  /** What stands before a separator's first appearance, and after it, can be read back. */
  lemma CutUnique(a: string, x: string, b: string, y: string, c: char)
    requires c !in a && c !in b && a + [c] + x == b + [c] + y
    ensures a == b && x == y
  {
    var s := a + [c] + x;
    assert s[|a|] == c && s[|b|] == c;
    assert forall i :: 0 <= i < |a| ==> s[i] == a[i];
    assert forall i :: 0 <= i < |b| ==> s[i] == b[i];
    assert a == s[..|a|] && b == s[..|b|];
    assert x == s[|a| + 1..] && y == s[|b| + 1..];
  }

  /** The alphabet of a SKU has no separator in it. */
  predicate ValidSku(sku: string) {
    forall c :: c in sku ==> 'A' <= c <= 'Z' || IsDigit(c) || c == '-'
  }

  ghost predicate ValidLines(lines: seq<Line>) {
    forall l :: l in lines ==> ValidSku(l.sku)
  }

  lemma TextIs(l: Line)
    requires ValidSku(l.sku)
    ensures NUL !in LineText(l) && ':' !in l.sku
  {
    NumberIs(l.quantity);
  }

  lemma TextInjective(l: Line, m: Line)
    requires ValidSku(l.sku) && ValidSku(m.sku) && LineText(l) == LineText(m)
    ensures l == m
  {
    TextIs(l);
    TextIs(m);
    CutUnique(l.sku, Number(l.quantity), m.sku, Number(m.quantity), ':');
    NumberInjective(l.quantity, m.quantity);
  }

  ghost predicate NulFree(texts: seq<string>) {
    forall t :: t in texts ==> NUL !in t
  }

  lemma ZeroMarksTexts(a: string, x: seq<string>)
    requires NUL !in a
    ensures NUL in a + Joined(x) <==> x != []
  {
    if x != [] {
      assert (a + Joined(x))[|a|] == NUL;
    }
  }

  lemma {:induction false} JoinedInjective(a: string, x: seq<string>, b: string, y: seq<string>)
    requires NUL !in a && NUL !in b && NulFree(x) && NulFree(y)
    requires a + Joined(x) == b + Joined(y)
    ensures a == b && x == y
    decreases |x|
  {
    ZeroMarksTexts(a, x);
    ZeroMarksTexts(b, y);
    if x != [] {
      assert a + Joined(x) == a + [NUL] + (x[0] + Joined(x[1..]));
      assert b + Joined(y) == b + [NUL] + (y[0] + Joined(y[1..]));
      CutUnique(a, x[0] + Joined(x[1..]), b, y[0] + Joined(y[1..]), NUL);
      assert x[0] in x && y[0] in y;
      JoinedInjective(x[0], x[1..], y[0], y[1..]);
      assert x == [x[0]] + x[1..] && y == [y[0]] + y[1..];
    } else {
      assert a + Joined(x) == a && b + Joined(y) == b;
    }
  }

  // ---------------------------------------------------------------------------
  // The same lines, the same texts

  /** Among valid lines, a line is listed as often as its text is. */
  lemma {:induction false} TextCount(lines: seq<Line>, l: Line)
    requires ValidLines(lines) && ValidSku(l.sku)
    ensures multiset(Texts(lines))[LineText(l)] == multiset(lines)[l]
  {
    if lines != [] {
      var head, rest := lines[0], lines[1..];
      assert head in lines && lines == [head] + rest;
      TextCount(rest, l);
      SameText(head, l);
      assert multiset(lines) == multiset{head} + multiset(rest);
      assert multiset(Texts(lines)) == multiset{LineText(head)} + multiset(Texts(rest));
    }
  }

  lemma SameText(l: Line, m: Line)
    requires ValidSku(l.sku) && ValidSku(m.sku)
    ensures LineText(l) == LineText(m) <==> l == m
  {
    if LineText(l) == LineText(m) {
      TextInjective(l, m);
    }
  }

  lemma {:induction false} TextOf(lines: seq<Line>, t: string) returns (l: Line)
    requires t in Texts(lines)
    ensures l in lines && t == LineText(l)
  {
    if t == LineText(lines[0]) {
      l := lines[0];
    } else {
      l := TextOf(lines[1..], t);
    }
  }

  lemma TextsWithin(a: seq<Line>, b: seq<Line>, t: string)
    requires ValidLines(a) && ValidLines(b) && multiset(a) == multiset(b) && t in Texts(a)
    ensures multiset(Texts(a))[t] == multiset(Texts(b))[t]
  {
    var l := TextOf(a, t);
    TextCount(a, l);
    TextCount(b, l);
  }

  lemma SameTexts(a: seq<Line>, b: seq<Line>)
    requires ValidLines(a) && ValidLines(b)
    ensures multiset(a) == multiset(b) <==> multiset(Texts(a)) == multiset(Texts(b))
  {
    if multiset(a) == multiset(b) {
      forall t ensures multiset(Texts(a))[t] == multiset(Texts(b))[t] {
        if t in Texts(a) {
          TextsWithin(a, b, t);
        } else if t in Texts(b) {
          TextsWithin(b, a, t);
        }
      }
    }
    if multiset(Texts(a)) == multiset(Texts(b)) {
      forall l ensures multiset(a)[l] == multiset(b)[l] {
        if ValidSku(l.sku) {
          TextCount(a, l);
          TextCount(b, l);
        } else {
          assert l !in a && l !in b;
        }
      }
    }
  }

  lemma {:induction false} TextsNulFree(lines: seq<Line>)
    requires ValidLines(lines)
    ensures NulFree(Texts(lines))
  {
    forall t | t in Texts(lines) ensures NUL !in t {
      var l := TextOf(lines, t);
      TextIs(l);
    }
  }

  /** Two requests are hashed from the same bytes exactly when the same user asks for the same lines,
      in whatever order. */
  lemma SameBytesSameRequest(a: string, x: seq<Line>, b: string, y: seq<Line>)
    requires NUL !in a && NUL !in b && ValidLines(x) && ValidLines(y)
    ensures Encode(a, x) == Encode(b, y) <==> a == b && multiset(x) == multiset(y)
  {
    var s, t := Sort(Texts(x)), Sort(Texts(y));
    SameTexts(x, y);
    TextsNulFree(x);
    TextsNulFree(y);
    SortedNulFree(Texts(x), s);
    SortedNulFree(Texts(y), t);
    if Encode(a, x) == Encode(b, y) {
      JoinedInjective(a, s, b, t);
      assert multiset(s) == multiset(t);
    }
    if multiset(x) == multiset(y) {
      OrderedUnique(s, t);
    }
  }

  lemma SortedNulFree(texts: seq<string>, sorted: seq<string>)
    requires NulFree(texts) && multiset(sorted) == multiset(texts)
    ensures NulFree(sorted)
  {
    forall t | t in sorted ensures NUL !in t {
      assert t in multiset(sorted);
    }
  }

  /** The same bytes for a payment: the user, the order and the method, none of which has a zero in it. */
  lemma SamePaymentRequest(user: string, order: string, method': string, user2: string, order2: string, method2: string)
    requires NulFree([user, order, method']) && NulFree([user2, order2, method2])
    ensures Joined([user, order, method']) == Joined([user2, order2, method2])
            <==> user == user2 && order == order2 && method' == method2
  {
    if Joined([user, order, method']) == Joined([user2, order2, method2]) {
      assert "" + Joined([user, order, method']) == "" + Joined([user2, order2, method2]);
      JoinedInjective("", [user, order, method'], "", [user2, order2, method2]);
      assert [user, order, method'] == [user2, order2, method2];
    }
  }

  // ---------------------------------------------------------------------------
  // The loops that write them

  lemma TextsTurn(texts: seq<string>, lines: seq<Line>, i: nat)
    requires i < |lines|
    ensures texts + Texts(lines[i..]) == (texts + [LineText(lines[i])]) + Texts(lines[i + 1..])
  {
    assert lines[i..][1..] == lines[i + 1..];
  }

  method ListTexts(lines: seq<Line>) returns (texts: seq<string>)
    ensures texts == Texts(lines)
  {
    texts := [];
    var i := 0;
    while i < |lines|
      invariant 0 <= i <= |lines|
      invariant texts + Texts(lines[i..]) == Texts(lines)
    {
      TextsTurn(texts, lines, i);
      texts := texts + [LineText(lines[i])];
      i := i + 1;
    }
    assert texts + [] == texts;
  }

  method WriteAll(start: string, texts: seq<string>) returns (digest: string)
    ensures digest == start + Joined(texts)
  {
    digest := start;
    var i := 0;
    while i < |texts|
      invariant 0 <= i <= |texts|
      invariant digest + Joined(texts[i..]) == start + Joined(texts)
    {
      assert texts[i..][1..] == texts[i + 1..];
      assert digest + ([NUL] + texts[i] + Joined(texts[i + 1..]))
        == (digest + [NUL] + texts[i]) + Joined(texts[i + 1..]);
      digest := digest + [NUL];
      digest := digest + texts[i];
      i := i + 1;
    }
    assert digest + "" == digest;
  }

  method HashedBytes(user: string, lines: seq<Line>) returns (digest: string)
    ensures digest == Encode(user, lines)
  {
    var texts := ListTexts(lines);
    digest := WriteAll(user, Sort(texts));
  }
}
