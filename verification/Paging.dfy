/** Paging through a customer's orders, newest first, with a token that says where the last page ended. */
module Paging {

  const DEFAULT_PAGE_SIZE := 20
  const MAX_PAGE_SIZE := 100

  datatype Option<T> = None | Some(value: T)

  /** What orders are listed by: two written in the same instant are told apart by their id. */
  datatype Key = Key(at: int, id: nat)

  datatype Page = Page(rows: seq<Key>, next: Option<Key>)

  predicate Less(a: Key, b: Key) {
    a.at < b.at || (a.at == b.at && a.id < b.id)
  }

  /** A customer's orders as the table lists them: newest first, no key twice. */
  ghost predicate Descending(t: seq<Key>) {
    forall i, j :: 0 <= i < j < |t| ==> Less(t[j], t[i])
  }

  /** The query's rows: those before the cursor, in order, and no more than the limit. */
  function Under(t: seq<Key>, after: Option<Key>): seq<Key> {
    if t == [] then []
    else (if after.None? || Less(t[0], after.value) then [t[0]] else []) + Under(t[1..], after)
  }

  function Take(rows: seq<Key>, limit: nat): seq<Key> {
    if |rows| <= limit then rows else rows[..limit]
  }

  function Query(t: seq<Key>, after: Option<Key>, limit: nat): seq<Key> {
    Take(Under(t, after), limit)
  }

  /** What a page is: the first rows under the cursor, and a token only if they are not all of them. */
  function PageOf(t: seq<Key>, after: Option<Key>, size: nat): Page
    requires size > 0
  {
    var under := Under(t, after);
    if |under| <= size then Page(under, None) else Page(under[..size], Some(under[size - 1]))
  }

  function PageSize(asked: int): (size: nat)
    ensures asked <= 0 ==> size == 20
    ensures 1 <= asked <= 100 ==> size == asked
    ensures asked > 100 ==> size == 100
  {
    if asked <= 0 then DEFAULT_PAGE_SIZE else if asked > MAX_PAGE_SIZE then MAX_PAGE_SIZE else asked
  }

  /** Asks for one row more than the page, which is how it knows whether there is another. */
  method ListOrders(t: seq<Key>, after: Option<Key>, asked: int) returns (page: Page)
    ensures page == PageOf(t, after, PageSize(asked))
  {
    var size := asked;
    if size <= 0 {
      size := DEFAULT_PAGE_SIZE;
    } else if size > MAX_PAGE_SIZE {
      size := MAX_PAGE_SIZE;
    }
    var orders := Query(t, after, size + 1);
    var next := None;
    if |orders| > size {
      next := Some(orders[size - 1]);
      orders := orders[..size];
    }
    return Page(orders, next);
  }

  /** Following tokens from a cursor on, each call finding its own table, and whether the walk ended. */
  function Walk(tables: seq<seq<Key>>, after: Option<Key>, size: nat): (seq<Key>, bool)
    requires size > 0
    decreases |tables|
  {
    if tables == [] then ([], false)
    else
      var page := PageOf(tables[0], after, size);
      if page.next.None? then (page.rows, true)
      else
        var (rest, ended) := Walk(tables[1..], page.next, size);
        (page.rows + rest, ended)
  }

  // ---------------------------------------------------------------------------
  // A growing table

  predicate IsUnder(k: Key, after: Option<Key>) {
    after.None? || Less(k, after.value)
  }

  lemma {:induction false} UnderIs(t: seq<Key>, after: Option<Key>)
    requires Descending(t)
    ensures Descending(Under(t, after))
    ensures forall k :: k in Under(t, after) <==> k in t && IsUnder(k, after)
  {
    if t != [] {
      assert forall i :: 0 <= i < |t[1..]| ==> t[1..][i] == t[i + 1];
      UnderIs(t[1..], after);
      assert t == [t[0]] + t[1..];
      var rest := Under(t[1..], after);
      forall j | 0 <= j < |rest| ensures Less(rest[j], t[0]) {
        assert rest[j] in t[1..];
      }
    }
  }

  ghost predicate Within(a: seq<Key>, b: seq<Key>) {
    forall k :: k in a ==> k in b
  }

  /** Each table has every row of the one before: orders are added and never removed. */
  ghost predicate Growing(tables: seq<seq<Key>>) {
    tables == [] ||
    (Descending(tables[0]) && (|tables| > 1 ==> Within(tables[0], tables[1])) && Growing(tables[1..]))
  }

  /** What a page leaves for the next: its rows come first, in order, and everything else is under its
      token. */
  lemma PageSplits(t: seq<Key>, after: Option<Key>, size: nat)
    requires size > 0 && Descending(t)
    ensures var page := PageOf(t, after, size);
            && Descending(page.rows) && |page.rows| <= size
            && (forall k :: k in page.rows ==> k in t && IsUnder(k, after))
            && (page.next.None? ==> forall k :: k in t && IsUnder(k, after) ==> k in page.rows)
            && (page.next.Some? ==>
                  && |page.rows| == size && page.rows[size - 1] == page.next.value && IsUnder(page.next.value, after)
                  && (forall k :: k in t && IsUnder(k, after) && !IsUnder(k, page.next) ==> k in page.rows))
  {
    UnderIs(t, after);
    var under, page := Under(t, after), PageOf(t, after, size);
    if page.next.Some? {
      forall k | k in t && IsUnder(k, after) && !IsUnder(k, page.next) ensures k in page.rows {
        var i :| 0 <= i < |under| && under[i] == k;
        assert i < size;
        assert page.rows[i] == k;
      }
    }
  }

  lemma Appended(first: seq<Key>, rest: seq<Key>)
    requires Descending(first) && Descending(rest) && first != []
    requires forall k :: k in rest ==> Less(k, first[|first| - 1])
    ensures Descending(first + rest)
  {
    var last := first[|first| - 1];
    forall i, j | 0 <= i < j < |first + rest| ensures Less((first + rest)[j], (first + rest)[i]) {
      if i < |first| <= j {
        assert rest[j - |first|] in rest;
        assert i < |first| - 1 ==> Less(last, first[i]);
      }
    }
  }

  /** Whatever orders are placed between the calls, a walk that reaches its end has returned every order
      that was there when it began, each once, newest first. */
  lemma {:induction false} WalkMissesNothing(tables: seq<seq<Key>>, after: Option<Key>, size: nat)
    requires size > 0 && Growing(tables)
    ensures var (rows, ended) := Walk(tables, after, size);
            && Descending(rows)
            && (forall k :: k in rows ==> IsUnder(k, after))
            && (ended ==> tables != [] && forall k :: k in tables[0] && IsUnder(k, after) ==> k in rows)
    decreases |tables|
  {
    if tables != [] {
      PageSplits(tables[0], after, size);
      var page := PageOf(tables[0], after, size);
      if page.next.Some? {
        WalkMissesNothing(tables[1..], page.next, size);
        var (rest, ended) := Walk(tables[1..], page.next, size);
        Appended(page.rows, rest);
        forall k | k in rest ensures IsUnder(k, after) {
          assert IsUnder(k, page.next);
        }
        if ended {
          forall k | k in tables[0] && IsUnder(k, after) ensures k in page.rows + rest {
            if IsUnder(k, page.next) { assert k in tables[1..][0]; }
          }
        }
      }
    }
  }

  // ---------------------------------------------------------------------------
  // A table that stands still

  lemma {:induction false} UnderSuffix(t: seq<Key>, k: nat)
    requires Descending(t) && k < |t|
    ensures Under(t, Some(t[k])) == t[k + 1..]
  {
    assert forall i :: 0 <= i < |t[1..]| ==> t[1..][i] == t[i + 1];
    if k > 0 {
      assert t[1..][k - 1] == t[k];
      UnderSuffix(t[1..], k - 1);
      assert Less(t[k], t[0]);
      assert t[k + 1..] == t[1..][k..];
    } else {
      UnderAll(t[1..], Some(t[0]));
    }
  }

  lemma {:induction false} UnderAll(t: seq<Key>, after: Option<Key>)
    requires forall i :: 0 <= i < |t| ==> IsUnder(t[i], after)
    ensures Under(t, after) == t
  {
    if t != [] {
      UnderAll(t[1..], after);
    }
  }

  function Cursor(t: seq<Key>, from: nat): Option<Key>
    requires from <= |t|
  {
    if from == 0 then None else Some(t[from - 1])
  }

  lemma PageFrom(t: seq<Key>, from: nat, size: nat)
    requires size > 0 && Descending(t) && from <= |t|
    ensures PageOf(t, Cursor(t, from), size)
         == if |t| - from <= size then Page(t[from..], None) else Page(t[from..from + size], Cursor(t, from + size))
  {
    if from > 0 {
      UnderSuffix(t, from - 1);
    } else {
      UnderAll(t, None);
      assert t[0..] == t;
    }
    assert Under(t, Cursor(t, from)) == t[from..];
    if |t| - from > size {
      assert t[from..][..size] == t[from..from + size];
    }
  }

  lemma OneCallLess(size: nat, calls: nat)
    ensures size * calls == size * (calls - 1) + size
  {
  }

  lemma {:induction false} WalkFrom(t: seq<Key>, from: nat, size: nat, calls: nat)
    requires size > 0 && Descending(t) && from <= |t| && |t| - from <= size * calls && calls > 0
    ensures Walk(seq(calls, i => t), Cursor(t, from), size) == (t[from..], true)
    decreases calls
  {
    var tables := seq(calls, i => t);
    PageFrom(t, from, size);
    OneCallLess(size, calls);
    assert tables[0] == t;
    if |t| - from > size {
      assert tables[1..] == seq(calls - 1, i => t);
      WalkFrom(t, from + size, size, calls - 1);
      assert t[from..] == t[from..from + size] + t[from + size..];
    }
  }

  /** On a table nothing is added to, the pages are the whole list in order, and following tokens ends
      within as many calls as it takes pages to hold it. */
  lemma PagesAreTheList(t: seq<Key>, size: nat, calls: nat)
    requires size > 0 && Descending(t) && calls > 0 && |t| <= size * calls
    ensures Walk(seq(calls, i => t), None, size) == (t, true)
  {
    WalkFrom(t, 0, size, calls);
    assert t[0..] == t;
  }

  // ---------------------------------------------------------------------------
  // Tokens

  const SEPARATOR := '|'

  function Cut(s: string, c: char): Option<(string, string)> {
    if s == "" then None
    else if s[0] == c then Some(("", s[1..]))
    else
      match Cut(s[1..], c)
      case None => None
      case Some((before, after)) => Some(([s[0]] + before, after))
  }

  /** How a cursor's two halves and the whole are written and read. */
  datatype Format = Format(
    time: int -> string, readTime: string -> Option<int>,
    id: nat -> string, readId: string -> Option<nat>,
    armour: string -> string, readArmour: string -> Option<string>)

  /** Each writer has its reader, and no time is written with the separator in it. */
  ghost predicate Reads(f: Format) {
    && (forall at :: f.readTime(f.time(at)) == Some(at) && SEPARATOR !in f.time(at))
    && (forall id: nat :: f.readId(f.id(id)) == Some(id))
    && (forall s :: f.readArmour(f.armour(s)) == Some(s))
    && (forall s :: f.armour(s) == "" ==> s == "")
  }

  function EncodeCursor(f: Format, k: Key): string {
    f.armour(f.time(k.at) + [SEPARATOR] + f.id(k.id))
  }

  datatype Decoded = First | After(key: Key) | Invalid

  function DecodeCursor(f: Format, token: string): Decoded {
    if token == "" then First
    else
      match f.readArmour(token)
      case None => Invalid
      case Some(raw) =>
        match Cut(raw, SEPARATOR)
        case None => Invalid
        case Some((time, id)) =>
          match f.readTime(time)
          case None => Invalid
          case Some(at) =>
            match f.readId(id)
            case None => Invalid
            case Some(n) => After(Key(at, n))
  }

  lemma {:induction false} CutAtFirst(before: string, c: char, after: string)
    requires c !in before
    ensures Cut(before + [c] + after, c) == Some((before, after))
  {
    var s := before + [c] + after;
    if before == "" {
      assert s[1..] == after;
    } else {
      assert s[1..] == before[1..] + [c] + after;
      CutAtFirst(before[1..], c, after);
      assert before == [before[0]] + before[1..];
    }
  }

  lemma {:induction false} CutIff(s: string, c: char)
    ensures Cut(s, c).None? <==> c !in s
    ensures Cut(s, c).Some? ==> var (before, after) := Cut(s, c).value; c !in before && s == before + [c] + after
  {
    if s != "" {
      assert s == [s[0]] + s[1..];
      if s[0] != c {
        CutIff(s[1..], c);
      }
    }
  }

  /** Some text without the separator is read as a time, and what follows the separator as an id. */
  ghost predicate Spells(f: Format, raw: string, k: Key) {
    exists time, id | raw == time + [SEPARATOR] + id ::
      SEPARATOR !in time && f.readTime(time) == Some(k.at) && f.readId(id) == Some(k.id)
  }

  /** What a token asks for, whoever wrote it: the empty one for the first page, one whose armour holds a
      time and an id for the rows after that key, and every other one is refused. */
  lemma DecodeIs(f: Format, token: string, k: Key)
    ensures DecodeCursor(f, token) == First <==> token == ""
    ensures DecodeCursor(f, token) == After(k)
       <==> token != "" && f.readArmour(token).Some? && Spells(f, f.readArmour(token).value, k)
  {
    if token != "" && f.readArmour(token).Some? {
      var raw := f.readArmour(token).value;
      CutIff(raw, SEPARATOR);
      forall time, id | raw == time + [SEPARATOR] + id && SEPARATOR !in time
        ensures Cut(raw, SEPARATOR) == Some((time, id))
      {
        CutAtFirst(time, SEPARATOR, id);
      }
    }
  }

  /** A token issued for a row is read back as that row, and is never the empty one that asks for the
      first page. */
  lemma DecodeUndoesEncode(f: Format, k: Key)
    requires Reads(f)
    ensures DecodeCursor(f, EncodeCursor(f, k)) == After(k)
  {
    var raw := f.time(k.at) + [SEPARATOR] + f.id(k.id);
    CutAtFirst(f.time(k.at), SEPARATOR, f.id(k.id));
    assert raw != "";
    assert f.readArmour(f.armour(raw)) == Some(raw);
    assert f.readTime(f.time(k.at)) == Some(k.at) && f.readId(f.id(k.id)) == Some(k.id);
  }
}
