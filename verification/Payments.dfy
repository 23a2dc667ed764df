/** One attempt to collect the money for an order: what the provider may say about it, how often and
    in what order, and what is left of all that. */
module Payments {
  import opened OrderTotals

  datatype Status = Pending | Succeeded | Failed

  datatype Event =
    | PaymentSucceeded(payment: nat, order: nat, user: nat, amount: Money, reference: string)
    | PaymentFailed(payment: nat, order: nat, user: nat, amount: Money, reason: string)

  /** The stored state of an attempt. An empty reference is one the provider has not named yet. */
  datatype Row = Row(
    id: nat, order: nat, user: nat, status: Status, amount: Money, reference: string, reason: string, version: int)

  datatype Refusal = ReferenceRequired | ReferenceConflict | WasFailed | WasSucceeded | NotFound

  datatype Outcome = Moved | Unmoved | Refused(why: Refusal)

  /** What the provider says, in the answer to the charge or in a callback. */
  datatype Answer = Answer(status: Status, reference: string, reason: string)

  /** An aggregate in memory: its row and what it has raised and not handed over. */
  datatype Aggregate = Aggregate(row: Row, events: seq<Event>)

  function NewPayment(id: nat, order: nat, user: nat, amount: Money): Result<Row> {
    if amount.currency == "" || amount.amount <= 0 then Err(PriceRequired)
    else Ok(Row(id, order, user, Pending, amount, "", "", 1))
  }

  function Attach(a: Aggregate, reference: string): (Aggregate, Outcome) {
    if reference == "" then (a, Refused(ReferenceRequired))
    else if a.row.reference == "" then (a.(row := a.row.(reference := reference)), Moved)
    else if a.row.reference != reference then (a, Refused(ReferenceConflict))
    else (a, Unmoved)
  }

  function Success(a: Aggregate, reference: string): (Aggregate, Outcome) {
    var (named, outcome) := Attach(a, reference);
    match a.row.status
    case Failed => (a, Refused(WasFailed))
    case Succeeded => (named, if outcome.Refused? then outcome else Unmoved)
    case Pending =>
      if outcome.Refused? then (a, outcome)
      else
        var row := named.row.(status := Succeeded);
        (Aggregate(row, a.events + [PaymentSucceeded(row.id, row.order, row.user, row.amount, row.reference)]), Moved)
  }

  function Failure(a: Aggregate, reason: string): (Aggregate, Outcome) {
    match a.row.status
    case Failed => (a, Unmoved)
    case Succeeded => (a, Refused(WasSucceeded))
    case Pending =>
      var row := a.row.(status := Failed, reason := reason);
      (Aggregate(row, a.events + [PaymentFailed(row.id, row.order, row.user, row.amount, reason)]), Moved)
  }

  /** The provider's answer on the aggregate. A refusal may leave it half moved: it is then dropped. */
  function Applied(a: Aggregate, answer: Answer): (Aggregate, Outcome) {
    match answer.status
    case Succeeded => Success(a, answer.reference)
    case Pending => Attach(a, answer.reference)
    case Failed =>
      var (failed, outcome) := Failure(a, answer.reason);
      if !outcome.Moved? || answer.reference == "" then (failed, outcome)
      else
        var (named, attached) := Attach(failed, answer.reference);
        (named, if attached.Refused? then attached else Moved)
  }

  /** A stored attempt and everything that was ever published about it. */
  datatype Stored = Stored(row: Row, published: seq<Event>)

  /** settle: only an answer that moves the attempt writes anything. */
  function Told(s: Stored, answer: Answer): Stored {
    var (a, outcome) := Applied(Aggregate(s.row, []), answer);
    if outcome.Moved? then Stored(a.row.(version := s.row.version + 1), s.published + a.events) else s
  }

  function ToldAll(s: Stored, answers: seq<Answer>): Stored
    decreases |answers|
  {
    if answers == [] then s else ToldAll(Told(s, answers[0]), answers[1..])
  }

  // ---------------------------------------------------------------------------
  // Whatever the provider says

  function Ending(row: Row): seq<Event> {
    match row.status
    case Pending => []
    case Succeeded => [PaymentSucceeded(row.id, row.order, row.user, row.amount, row.reference)]
    case Failed => [PaymentFailed(row.id, row.order, row.user, row.amount, row.reason)]
  }

  /** What every attempt keeps: what was published is its ending, a success has a reference, and only
      a failure has a reason. */
  ghost predicate Sound(s: Stored) {
    && s.published == Ending(s.row)
    && (s.row.status == Succeeded ==> s.row.reference != "")
    && (s.row.status != Failed ==> s.row.reason == "")
  }

  /** What is never taken back: who pays whom how much, the reference once given, and the ending. */
  ghost predicate Stands(a: Row, b: Row) {
    && (b.id, b.order, b.user, b.amount) == (a.id, a.order, a.user, a.amount)
    && (a.reference != "" ==> b.reference == a.reference)
    && (a.status != Pending ==> b.status == a.status && b.reason == a.reason)
  }

  lemma ToldKeeps(s: Stored, answer: Answer)
    requires Sound(s)
    ensures Sound(Told(s, answer)) && Stands(s.row, Told(s, answer).row)
  {
  }

  /** Over any answers at all: one ending at most is published, exactly when the attempt has ended and
      saying what its row says; and neither the ending nor the first reference ever changes. */
  lemma {:induction false} OneEndingPublished(s: Stored, answers: seq<Answer>)
    requires Sound(s)
    ensures Sound(ToldAll(s, answers)) && Stands(s.row, ToldAll(s, answers).row)
    ensures |ToldAll(s, answers).published| == if ToldAll(s, answers).row.status == Pending then 0 else 1
    decreases |answers|
  {
    if answers != [] {
      ToldKeeps(s, answers[0]);
      OneEndingPublished(Told(s, answers[0]), answers[1..]);
    }
  }

  /** An answer that names another charge, or ends an ended attempt the other way, changes nothing and is
      refused; but a second decline is not looked into. */
  lemma ContradictionsAreRefused(s: Stored, answer: Answer)
    requires Sound(s)
    requires || (s.row.reference != "" && answer.reference != "" && answer.reference != s.row.reference)
             || (s.row.status != Pending && answer.status != Pending && answer.status != s.row.status)
    ensures Told(s, answer) == s
    ensures Applied(Aggregate(s.row, []), answer).1.Refused? <==> !(s.row.status == answer.status == Failed)
  {
  }

  /** The stored version counts the answers that moved the attempt. */
  lemma VersionCountsMoves(s: Stored, answer: Answer)
    ensures Told(s, answer).row.version
         == s.row.version + if Applied(Aggregate(s.row, []), answer).1.Moved? then 1 else 0
    ensures Told(s, answer) == s <==> !Applied(Aggregate(s.row, []), answer).1.Moved?
  {
  }

  /** An answer given again changes nothing. */
  lemma SaidAgain(s: Stored, answer: Answer)
    requires Sound(s)
    ensures Told(Told(s, answer), answer) == Told(s, answer)
  {
  }

  // ---------------------------------------------------------------------------
  // A provider that does not contradict itself

  /** All answers that settle the attempt settle it the same way, and all that name the charge name it
      the same. */
  ghost predicate Agree(answers: seq<Answer>, ending: Status, reference: string, reason: string) {
    forall a :: a in answers ==>
      && (a.status == Pending || a.status == ending)
      && (a.reference == "" || a.reference == reference)
      && (a.status == Failed ==> a.reason == reason)
  }

  /** Whether an answer would end a pending attempt: a success has to name the charge. */
  predicate Settles(a: Answer) {
    a.status == Failed || (a.status == Succeeded && a.reference != "")
  }

  predicate AnySettles(answers: seq<Answer>) {
    answers != [] && (Settles(answers[0]) || AnySettles(answers[1..]))
  }

  /** Whether any answer says the charge is still pending, and names it. */
  predicate AnyNames(answers: seq<Answer>) {
    answers != [] && ((answers[0].status == Pending && answers[0].reference != "") || AnyNames(answers[1..]))
  }

  /** Whether the first answer that settles also names. */
  predicate FirstSettlesNamed(answers: seq<Answer>) {
    answers != [] && if Settles(answers[0]) then answers[0].reference != "" else FirstSettlesNamed(answers[1..])
  }

  /** The attempt in closed form. */
  function Outlook(row: Row, answers: seq<Answer>, ending: Status, reference: string, reason: string): Row {
    var settles := row.status == Pending && AnySettles(answers);
    row.(status := if settles then ending else row.status,
         reason := if settles && ending == Failed then reason else row.reason,
         reference := if row.reference == "" && (AnyNames(answers) || (settles && FirstSettlesNamed(answers)))
                      then reference
                      else row.reference)
  }

  predicate SameButVersion(a: Row, b: Row) {
    a.(version := 0) == b.(version := 0)
  }

  lemma ToldOutlook(s: Stored, answers: seq<Answer>, ending: Status, reference: string, reason: string)
    requires Sound(s) && ending != Pending && reference != "" && answers != []
    requires Agree(answers, ending, reference, reason)
    requires s.row.reference == "" || s.row.reference == reference
    requires s.row.status == Pending || s.row.status == ending
    ensures SameButVersion(Outlook(s.row, answers, ending, reference, reason),
                           Outlook(Told(s, answers[0]).row, answers[1..], ending, reference, reason))
  {
    assert answers[0] in answers;
  }

  /** What is left after any agreeing answers, in any order and however often each: the attempt ended
      as they say if any of them settles it, and it has the reference if a pending answer gave it or
      the answer that settled it did. */
  lemma {:induction false} AnswersInClosedForm(s: Stored, answers: seq<Answer>, ending: Status, reference: string,
                                               reason: string)
    requires Sound(s) && ending != Pending && reference != "" && Agree(answers, ending, reference, reason)
    requires s.row.reference == "" || s.row.reference == reference
    requires s.row.status == Pending || s.row.status == ending
    ensures SameButVersion(ToldAll(s, answers).row, Outlook(s.row, answers, ending, reference, reason))
    decreases |answers|
  {
    if answers != [] {
      ToldOutlook(s, answers, ending, reference, reason);
      ToldKeeps(s, answers[0]);
      assert answers[0] in answers;
      AnswersInClosedForm(Told(s, answers[0]), answers[1..], ending, reference, reason);
    }
  }

  ghost predicate AllNamed(answers: seq<Answer>) {
    forall a :: a in answers ==> a.reference != ""
  }

  lemma {:induction false} NamedAnswers(answers: seq<Answer>)
    requires AllNamed(answers)
    ensures FirstSettlesNamed(answers) == AnySettles(answers)
    ensures AnyNames(answers) || AnySettles(answers) <==> answers != []
  {
    if answers != [] {
      assert answers[0] in answers && AllNamed(answers[1..]);
      NamedAnswers(answers[1..]);
    }
  }

  /** When every answer names the charge, their order and multiplicity do not matter: all that does is
      whether there was an answer and whether one of them settled it. */
  lemma SettlementIsConfluent(s: Stored, a: seq<Answer>, b: seq<Answer>, ending: Status, reference: string,
                              reason: string)
    requires Sound(s) && s.row.status == Pending && s.row.reference == "" && ending != Pending && reference != ""
    requires Agree(a, ending, reference, reason) && Agree(b, ending, reference, reason) && AllNamed(a) && AllNamed(b)
    requires (a == [] <==> b == []) && AnySettles(a) == AnySettles(b)
    ensures SameButVersion(ToldAll(s, a).row, ToldAll(s, b).row)
    ensures ToldAll(s, a).published == ToldAll(s, b).published
    ensures |ToldAll(s, a).published| == if AnySettles(a) then 1 else 0
  {
    NamedAnswers(a);
    NamedAnswers(b);
    AnswersInClosedForm(s, a, ending, reference, reason);
    AnswersInClosedForm(s, b, ending, reference, reason);
    OneEndingPublished(s, a);
    OneEndingPublished(s, b);
  }

  lemma ToldTwo(s: Stored, a: Answer, b: Answer)
    ensures ToldAll(s, [a, b]) == Told(Told(s, a), b)
  {
    assert [a, b][1..] == [b] && [b][1..] == [];
    assert ToldAll(Told(s, a), [b]) == ToldAll(Told(Told(s, a), b), []);
  }

  /** When a decline may come without a reference, order does matter: two declines, one naming the
      charge, leave the name only if the naming one comes first. */
  lemma LateReferenceIsDropped(s: Stored, reference: string, reason: string)
    requires Sound(s) && s.row.status == Pending && s.row.reference == "" && reference != ""
    ensures var named, unnamed := Answer(Failed, reference, reason), Answer(Failed, "", reason);
            && ToldAll(s, [named, unnamed]).row.reference == reference
            && ToldAll(s, [unnamed, named]).row.reference == ""
  {
    var named, unnamed := Answer(Failed, reference, reason), Answer(Failed, "", reason);
    ToldTwo(s, named, unnamed);
    ToldTwo(s, unnamed, named);
  }

  // ---------------------------------------------------------------------------
  // An attempt's whole history of events

  datatype Op = Attaching(reference: string) | Succeeding(reference: string) | Failing(reason: string) | PullEvents

  datatype History = History(pulled: seq<Event>, aggregate: Aggregate)

  function Do(h: History, op: Op): History {
    match op
    case Attaching(reference) => h.(aggregate := Attach(h.aggregate, reference).0)
    case Succeeding(reference) => h.(aggregate := Success(h.aggregate, reference).0)
    case Failing(reason) => h.(aggregate := Failure(h.aggregate, reason).0)
    case PullEvents => History(h.pulled + h.aggregate.events, h.aggregate.(events := []))
  }

  function DoAll(h: History, ops: seq<Op>): History
    decreases |ops|
  {
    if ops == [] then h else DoAll(Do(h, ops[0]), ops[1..])
  }

  ghost predicate HistoryOk(h: History) {
    h.pulled + h.aggregate.events == Ending(h.aggregate.row)
      && (h.aggregate.row.status == Succeeded ==> h.aggregate.row.reference != "")
  }

  lemma DoKeeps(h: History, op: Op)
    requires HistoryOk(h)
    ensures HistoryOk(Do(h, op)) && Stands(h.aggregate.row, Do(h, op).aggregate.row)
  {
    var next := Do(h, op);
    if next.aggregate.row.status != h.aggregate.row.status {
      assert next.pulled + next.aggregate.events == (h.pulled + h.aggregate.events) + Ending(next.aggregate.row);
    } else if op.PullEvents? {
      assert next.pulled + next.aggregate.events == h.pulled + h.aggregate.events;
    }
  }

  /** Whatever is done to an attempt, what has been handed over and what is waiting together are its one
      ending, or nothing; each is handed over once; and the first reference and the ending stand. */
  lemma {:induction false} OneEndingRaised(h: History, ops: seq<Op>)
    requires HistoryOk(h)
    ensures HistoryOk(DoAll(h, ops)) && Stands(h.aggregate.row, DoAll(h, ops).aggregate.row)
    decreases |ops|
  {
    if ops != [] {
      DoKeeps(h, ops[0]);
      OneEndingRaised(Do(h, ops[0]), ops[1..]);
    }
  }

  // ---------------------------------------------------------------------------
  // The aggregate as the use cases hold it

  class Payment {
    const id: nat
    const order: nat
    const user: nat
    const amount: Money
    const version: int
    var status: Status
    var reference: string
    var reason: string
    var events: seq<Event>

    constructor (stored: Row)
      ensures View() == Aggregate(stored, [])
    {
      id, order, user, amount, version := stored.id, stored.order, stored.user, stored.amount, stored.version;
      status, reference, reason := stored.status, stored.reference, stored.reason;
      events := [];
    }

    function View(): Aggregate
      reads this
    {
      Aggregate(Row(id, order, user, status, amount, reference, reason, version), events)
    }

    method AttachProviderReference(ref: string) returns (r: Outcome)
      modifies this
      ensures (View(), r) == Attach(old(View()), ref)
    {
      if ref == "" {
        return Refused(ReferenceRequired);
      }
      if reference != "" {
        if reference != ref {
          return Refused(ReferenceConflict);
        }
        return Unmoved;
      }
      reference := ref;
      return Moved;
    }

    method Succeed(ref: string) returns (r: Outcome)
      modifies this
      ensures (View(), r) == Success(old(View()), ref)
    {
      if status == Succeeded {
        r := AttachProviderReference(ref);
        return if r.Refused? then r else Unmoved;
      }
      if status == Failed {
        return Refused(WasFailed);
      }
      r := AttachProviderReference(ref);
      if r.Refused? {
        return r;
      }
      status := Succeeded;
      events := events + [PaymentSucceeded(id, order, user, amount, reference)];
      return Moved;
    }

    method Fail(why: string) returns (r: Outcome)
      modifies this
      ensures (View(), r) == Failure(old(View()), why)
    {
      if status == Failed {
        return Unmoved;
      }
      if status == Succeeded {
        return Refused(WasSucceeded);
      }
      status, reason := Failed, why;
      events := events + [PaymentFailed(id, order, user, amount, why)];
      return Moved;
    }

    method Apply(answer: Answer) returns (r: Outcome)
      modifies this
      ensures (View(), r) == Applied(old(View()), answer)
    {
      match answer.status {
        case Succeeded => r := Succeed(answer.reference);
        case Failed =>
          r := Fail(answer.reason);
          if r.Moved? && answer.reference != "" {
            var attached := AttachProviderReference(answer.reference);
            if attached.Refused? {
              return attached;
            }
          }
        case Pending => r := AttachProviderReference(answer.reference);
      }
    }

    method PullEvents() returns (pulled: seq<Event>)
      modifies this
      ensures pulled == old(events)
      ensures View() == old(View()).(events := [])
    {
      pulled := events;
      events := [];
    }
  }
}
