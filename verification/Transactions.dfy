/** Running a use case in a transaction: a copy is worked on and installed only if the use case returns
    nil, and a transaction asked for inside another joins it. */
module Transactions {

  type Store = map<nat, int>

  /** What a use case does, all of it depending on what it finds in the store: writes, checks that end it
      with an error, branches, and blocks that ask for a transaction of their own. ignored says that
      whoever ran the block goes on even if it returned an error. */
  datatype Stmt =
    | Write(key: nat, value: Store -> int)
    | Check(holds: Store -> bool)
    | Choose(test: Store -> bool, yes: Body, no: Body)
    | Do(body: Body, ignored: bool)

  datatype Body = Return | Then(first: Stmt, rest: Body)

  /** A body on the transaction it finds itself in: what the store holds when it returns, and whether it
      returned nil. */
  function Exec(body: Body, store: Store): (Store, bool)
    decreases body
  {
    match body
    case Return => (store, true)
    case Then(first, rest) =>
      match first
      case Write(key, value) => Exec(rest, store[key := value(store)])
      case Check(holds) => if holds(store) then Exec(rest, store) else (store, false)
      case Choose(test, yes, no) =>
        var (after, ok) := if test(store) then Exec(yes, store) else Exec(no, store);
        if ok then Exec(rest, after) else (after, false)
      case Do(inner, ignored) =>
        var (after, ok) := Exec(inner, store);
        if ok || ignored then Exec(rest, after) else (after, false)
  }

  /** The outermost Do. */
  function Transact(body: Body, store: Store, commits: bool): (Store, bool) {
    var (after, ok) := Exec(body, store);
    if ok && commits then (after, true) else (store, false)
  }

  // ---------------------------------------------------------------------------
  // Joining is inlining

  function Append(a: Body, b: Body): Body {
    match a
    case Return => b
    case Then(first, rest) => Then(first, Append(rest, b))
  }

  /** The body with every block whose error is passed on written out in place. */
  function Inlined(body: Body): Body
    decreases body
  {
    match body
    case Return => Return
    case Then(first, rest) =>
      match first
      case Write(_, _) => Then(first, Inlined(rest))
      case Check(_) => Then(first, Inlined(rest))
      case Choose(test, yes, no) => Then(Choose(test, Inlined(yes), Inlined(no)), Inlined(rest))
      case Do(inner, ignored) =>
        if ignored then Then(Do(Inlined(inner), true), Inlined(rest)) else Append(Inlined(inner), Inlined(rest))
  }

  lemma {:induction false} ExecAppend(a: Body, b: Body, store: Store)
    ensures Exec(Append(a, b), store) == if Exec(a, store).1 then Exec(b, Exec(a, store).0) else Exec(a, store)
    decreases a
  {
    match a
    case Return =>
    case Then(first, rest) =>
      match first
      case Write(key, value) => ExecAppend(rest, b, store[key := value(store)]);
      case Check(holds) => ExecAppend(rest, b, store);
      case Choose(test, yes, no) => ExecAppend(rest, b, (if test(store) then Exec(yes, store) else Exec(no, store)).0);
      case Do(inner, ignored) => ExecAppend(rest, b, Exec(inner, store).0);
  }

  /** A nested Do that passes its error on is no different from its statements written in its place: it
      neither commits nor undoes anything of its own. */
  lemma {:induction false} NestedDoIsInlined(body: Body, store: Store)
    ensures Exec(Inlined(body), store) == Exec(body, store)
    decreases body
  {
    match body
    case Return =>
    case Then(first, rest) =>
      match first
      case Write(key, value) => NestedDoIsInlined(rest, store[key := value(store)]);
      case Check(holds) => NestedDoIsInlined(rest, store);
      case Choose(test, yes, no) =>
        NestedDoIsInlined(yes, store);
        NestedDoIsInlined(no, store);
        NestedDoIsInlined(rest, (if test(store) then Exec(yes, store) else Exec(no, store)).0);
      case Do(inner, ignored) =>
        NestedDoIsInlined(inner, store);
        NestedDoIsInlined(rest, Exec(inner, store).0);
        if !ignored {
          ExecAppend(Inlined(inner), Inlined(rest), store);
        }
  }

  // ---------------------------------------------------------------------------
  // Nothing of a use case that failed

  /** Every error inside is passed on. */
  predicate PassesOn(body: Body)
    decreases body
  {
    match body
    case Return => true
    case Then(first, rest) =>
      && PassesOn(rest)
      && match first
         case Choose(_, yes, no) => PassesOn(yes) && PassesOn(no)
         case Do(inner, ignored) => !ignored && PassesOn(inner)
         case _ => true
  }

  datatype Event = Wrote(key: nat, value: int) | Failed

  /** What a body that goes on after every failed check would do, write by write and failure by failure,
      at any depth, each statement seeing the store as all the ones before it left it. */
  function Trace(body: Body, store: Store): seq<Event>
    decreases body
  {
    match body
    case Return => []
    case Then(first, rest) =>
      var events := Does(first, store);
      events + Trace(rest, Replay(events, store))
  }

  function Does(stmt: Stmt, store: Store): seq<Event>
    decreases stmt
  {
    match stmt
    case Write(key, value) => [Wrote(key, value(store))]
    case Check(holds) => if holds(store) then [] else [Failed]
    case Choose(test, yes, no) => if test(store) then Trace(yes, store) else Trace(no, store)
    case Do(inner, _) => Trace(inner, store)
  }

  function Replay(events: seq<Event>, store: Store): Store {
    if events == [] then store
    else Replay(events[1..], if events[0].Wrote? then store[events[0].key := events[0].value] else store)
  }

  lemma {:induction false} ReplayOn(a: seq<Event>, b: seq<Event>, store: Store)
    ensures Replay(a + b, store) == Replay(b, Replay(a, store))
    decreases |a|
  {
    if a == [] {
      assert a + b == b;
    } else {
      assert (a + b)[1..] == a[1..] + b;
      ReplayOn(a[1..], b, if a[0].Wrote? then store[a[0].key := a[0].value] else store);
    }
  }

  lemma {:induction false} ExecTraces(body: Body, store: Store)
    requires PassesOn(body)
    ensures Exec(body, store).1 <==> Failed !in Trace(body, store)
    ensures Exec(body, store).1 ==> Exec(body, store).0 == Replay(Trace(body, store), store)
    decreases body
  {
    match body
    case Return =>
    case Then(first, rest) =>
      var events := Does(first, store);
      ReplayOn(events, Trace(rest, Replay(events, store)), store);
      match first {
        case Write(key, value) =>
          assert Replay(events, store) == store[key := value(store)] by {
            assert events[1..] == [];
          }
          ExecTraces(rest, store[key := value(store)]);
        case Check(holds) =>
          if holds(store) {
            ExecTraces(rest, store);
          }
        case Choose(test, yes, no) =>
          var chosen := if test(store) then yes else no;
          ExecTraces(chosen, store);
          if Exec(chosen, store).1 {
            ExecTraces(rest, Exec(chosen, store).0);
          }
        case Do(inner, ignored) =>
          ExecTraces(inner, store);
          if Exec(inner, store).1 {
            ExecTraces(rest, Exec(inner, store).0);
          }
      }
  }

  /** A use case that passes its errors on is all or nothing: its transaction reports success exactly when
      no check in it failed, at any depth, and the commit landed. Then the store is what all its writes
      make of it, one after the other; and otherwise none of them survives. */
  lemma AllOrNothing(body: Body, store: Store, commits: bool)
    requires PassesOn(body)
    ensures Transact(body, store, commits).1 <==> Failed !in Trace(body, store) && commits
    ensures Transact(body, store, commits).0
         == if Transact(body, store, commits).1 then Replay(Trace(body, store), store) else store
  {
    ExecTraces(body, store);
  }

  /** A caller that ignores a nested failure commits what the failed block had written. */
  lemma IgnoredFailureIsCommitted(key: nat, value: int, store: Store)
    ensures var inner := Then(Write(key, s => value), Then(Check(s => false), Return));
            && Transact(Then(Do(inner, true), Return), store, true) == (store[key := value], true)
            && Transact(Then(Do(inner, false), Return), store, true) == (store, false)
  {
    var inner := Then(Write(key, s => value), Then(Check(s => false), Return));
    assert Exec(inner, store) == (store[key := value], false);
    assert Exec(Then(Do(inner, true), Return), store) == Exec(Return, store[key := value]);
  }

  // ---------------------------------------------------------------------------
  // The manager

  datatype Open = NoTx | InTx(working: Store)

  class Manager {
    var committed: Store
    var tx: Open

    constructor ()
      ensures committed == map[] && tx == NoTx
    {
      committed, tx := map[], NoTx;
    }

    /** Opens a transaction unless one is open, and then ends it by how the body returned. */
    method Do(body: Body, commits: bool) returns (ok: bool)
      modifies this
      ensures old(tx).InTx? ==>
                && committed == old(committed)
                && (tx, ok) == (InTx(Exec(body, old(tx).working).0), Exec(body, old(tx).working).1)
      ensures old(tx).NoTx? ==> tx == NoTx && (committed, ok) == Transact(body, old(committed), commits)
      decreases body, 1
    {
      if tx.InTx? {
        ok := RunBody(body);
        return ok;
      }
      tx := InTx(committed);
      ok := RunBody(body);
      if ok && commits {
        committed := tx.working;
      } else {
        ok := false;
      }
      tx := NoTx;
    }

    method RunBody(body: Body) returns (ok: bool)
      requires tx.InTx?
      modifies this
      ensures committed == old(committed)
      ensures (tx, ok) == (InTx(Exec(body, old(tx).working).0), Exec(body, old(tx).working).1)
      decreases body, 0
    {
      match body {
        case Return => return true;
        case Then(first, rest) =>
          match first {
            case Write(key, value) =>
              tx := InTx(tx.working[key := value(tx.working)]);
            case Check(holds) =>
              if !holds(tx.working) {
                return false;
              }
            case Choose(test, yes, no) =>
              var chosen: bool;
              if test(tx.working) {
                chosen := RunBody(yes);
              } else {
                chosen := RunBody(no);
              }
              if !chosen {
                return false;
              }
            case Do(inner, ignored) =>
              var joined := Do(inner, true);
              if !joined && !ignored {
                return false;
              }
          }
          ok := RunBody(rest);
      }
    }
  }
}
