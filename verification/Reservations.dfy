/** One order's claim on stock and the ways it may end. */
module Reservations {
  import opened CanonicalLines

  datatype Status = Held | Committed | Released | Expired | Unnamed

  /** The stored state of a reservation. */
  datatype Hold = Hold(order: nat, lines: seq<Line>, status: Status, expiresAt: int, version: int)

  datatype Kind = Commit | Release | Expire

  datatype Refusal = WasReleased | HasExpired | WasCommitted | NotExpired | NotFound

  /** Whether an attempt to end a hold moved it. */
  datatype Move = Moved | Unmoved | Rejected(why: Refusal)

  function Target(kind: Kind): Status {
    match kind
    case Commit => Committed
    case Release => Released
    case Expire => Expired
  }

  /** The state machine. The deadline is inclusive: at expiresAt itself the hold has run out. */
  function Attempt(kind: Kind, hold: Hold, now: int): Move {
    match kind
    case Commit => (
      match hold.status
      case Committed => Unmoved
      case Released => Rejected(WasReleased)
      case Expired => Rejected(HasExpired)
      case Held => if now >= hold.expiresAt then Rejected(HasExpired) else Moved
      case Unnamed => Rejected(NotFound))
    case Release => (
      match hold.status
      case Released | Expired => Unmoved
      case Committed => Rejected(WasCommitted)
      case Held => Moved
      case Unnamed => Rejected(NotFound))
    case Expire =>
      if hold.status != Held then Unmoved
      else if now < hold.expiresAt then Rejected(NotExpired)
      else Moved
  }

  function Ended(kind: Kind, hold: Hold, now: int): Hold {
    if Attempt(kind, hold, now).Moved? then hold.(status := Target(kind)) else hold
  }

  datatype Try = Try(kind: Kind, now: int)

  function Ends(hold: Hold, tries: seq<Try>): Hold
    decreases |tries|
  {
    if tries == [] then hold else Ends(Ended(tries[0].kind, hold, tries[0].now), tries[1..])
  }

  /** How many of the attempts report having moved the hold. */
  function Moves(hold: Hold, tries: seq<Try>): nat
    decreases |tries|
  {
    if tries == [] then 0
    else
      var t := tries[0];
      (if Attempt(t.kind, hold, t.now).Moved? then 1 else 0) + Moves(Ended(t.kind, hold, t.now), tries[1..])
  }

  lemma {:induction false} EndedStays(hold: Hold, tries: seq<Try>)
    requires hold.status != Held
    ensures Ends(hold, tries) == hold && Moves(hold, tries) == 0
    decreases |tries|
  {
    if tries != [] {
      EndedStays(hold, tries[1..]);
    }
  }

  /** Over any attempts in any order at any times, exactly one is told that it moved the hold if any
      of them ended it, and none otherwise: two callers never both act on one hold. */
  lemma {:induction false} OneMover(hold: Hold, tries: seq<Try>)
    requires hold.status == Held
    ensures Moves(hold, tries) == (if Ends(hold, tries).status == Held then 0 else 1)
    ensures Ends(hold, tries).status == Committed ==>
              exists t :: t in tries && t.kind == Commit && t.now < hold.expiresAt
    ensures Ends(hold, tries).status == Expired ==>
              exists t :: t in tries && t.kind == Expire && t.now >= hold.expiresAt
    ensures Ends(hold, tries).status == Released ==> exists t :: t in tries && t.kind == Release
    decreases |tries|
  {
    if tries != [] {
      var t := tries[0];
      var next := Ended(t.kind, hold, t.now);
      assert t in tries;
      if next.status == Held {
        OneMover(next, tries[1..]);
        assert forall u :: u in tries[1..] ==> u in tries;
      } else {
        EndedStays(next, tries[1..]);
      }
    }
  }

  /** Whether an attempt would end a live hold: a commit before its deadline, a sweep from then on, a
      release at any time. */
  predicate Effective(t: Try, deadline: int) {
    match t.kind
    case Commit => t.now < deadline
    case Expire => deadline <= t.now
    case Release => true
  }

  /** The first of them that would ends it, its own way; if none would, it stays live. */
  lemma {:induction false} FirstEffectiveEnds(hold: Hold, tries: seq<Try>, n: nat)
    requires hold.status == Held && n <= |tries|
    requires forall i :: 0 <= i < n ==> !Effective(tries[i], hold.expiresAt)
    requires n < |tries| ==> Effective(tries[n], hold.expiresAt)
    ensures Ends(hold, tries)
         == if n == |tries| then hold
            else match tries[n].kind
                 case Commit => hold.(status := Committed)
                 case Release => hold.(status := Released)
                 case Expire => hold.(status := Expired)
    decreases |tries|
  {
    if n > 0 {
      FirstEffectiveEnds(hold, tries[1..], n - 1);
    } else if tries != [] {
      EndedStays(Ended(tries[0].kind, hold, tries[0].now), tries[1..]);
    }
  }

  /** What is answered about a hold that has ended: doing it again is no failure, undoing it is; and a sweep
      leaves it be. */
  lemma EndedAnswers(hold: Hold, now: int)
    requires hold.status in {Committed, Released, Expired}
    ensures Attempt(Commit, hold, now)
         == match hold.status
            case Committed => Unmoved
            case Released => Rejected(WasReleased)
            case _ => Rejected(HasExpired)
    ensures Attempt(Release, hold, now) == if hold.status == Committed then Rejected(WasCommitted) else Unmoved
    ensures Attempt(Expire, hold, now) == Unmoved
  {
  }

  /** The aggregate as the use cases hold it: loaded, asked to move, and written back. */
  class Reservation {
    const order: nat
    const lines: seq<Line>
    const expiresAt: int
    const version: int
    var status: Status

    constructor (stored: Hold)
      ensures Snapshot() == stored
    {
      order, lines, expiresAt, version := stored.order, stored.lines, stored.expiresAt, stored.version;
      status := stored.status;
    }

    function Snapshot(): Hold
      reads this
    {
      Hold(order, lines, status, expiresAt, version)
    }

    method Commit(now: int) returns (m: Move)
      modifies this
      ensures m == Attempt(Kind.Commit, old(Snapshot()), now)
      ensures Snapshot() == Ended(Kind.Commit, old(Snapshot()), now)
    {
      match status {
        case Committed => return Unmoved;
        case Released => return Rejected(WasReleased);
        case Expired => return Rejected(HasExpired);
        case Held =>
          if now >= expiresAt {
            return Rejected(HasExpired);
          }
          status := Committed;
          return Moved;
        case Unnamed => return Rejected(NotFound);
      }
    }

    method Release() returns (m: Move)
      modifies this
      ensures forall now :: m == Attempt(Kind.Release, old(Snapshot()), now)
      ensures forall now :: Snapshot() == Ended(Kind.Release, old(Snapshot()), now)
    {
      match status {
        case Released | Expired => return Unmoved;
        case Committed => return Rejected(WasCommitted);
        case Held =>
          status := Released;
          return Moved;
        case Unnamed => return Rejected(NotFound);
      }
    }

    method Expire(now: int) returns (m: Move)
      modifies this
      ensures m == Attempt(Kind.Expire, old(Snapshot()), now)
      ensures Snapshot() == Ended(Kind.Expire, old(Snapshot()), now)
    {
      if status != Held {
        return Unmoved;
      }
      if now < expiresAt {
        return Rejected(NotExpired);
      }
      status := Expired;
      return Moved;
    }

    /** Compared as stored. Of canonical lists this says that they hold the same quantity of every SKU:
        a retry is recognised by what it asks for, however it was spelled. */
    method Matches(candidate: seq<Line>) returns (same: bool)
      ensures same <==> lines == candidate
      ensures StrictlySorted(lines) && Positive(lines) && StrictlySorted(candidate) && Positive(candidate) ==>
                (same <==> SameTotals(lines, candidate))
    {
      if StrictlySorted(lines) && Positive(lines) && StrictlySorted(candidate) && Positive(candidate)
         && SameTotals(lines, candidate) {
        SortedUnique(lines, candidate);
      }
      return lines == candidate;
    }
  }
}
