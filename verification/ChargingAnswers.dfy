/** What a payment call answers and what it asks the provider for: over the key, the order, the attempts on
    record and what goes wrong. */
module ChargingAnswers {
  import opened OrderTotals
  import opened Payments
  import opened Charging

  /** An amount there is something to collect of, and attempts that do not stand in its way. */
  ghost predicate MayStart(b: Books, q: Request, x: Meets) {
    && x.payable && x.total.amount > 0 && x.total.currency != ""
    && forall p :: p in b.tables.attempts && b.tables.attempts[p].row.order == q.order ==>
         b.tables.attempts[p].row.status == Failed
  }

  /** Whether the provider's answer can be put on the record of a new attempt: a decline always, anything
      else if it names the charge. */
  predicate Usable(answer: Answer) {
    answer.status == Failed || answer.reference != ""
  }

  /** A key that was used before is answered from its claim, whatever the order is and whatever else would go
      wrong: nothing is recorded and no money is asked for. */
  lemma RetriesAreAnswered(b: Books, q: Request, x: Meets)
    requires (q.user, q.key) in b.tables.claims
    ensures var claim := b.tables.claims[(q.user, q.key)];
            InitiateNow(b, q, x) == (b, if claim.hash == q.hash then Started(claim.payment) else KeyReused)
  {
  }

  /** Money is asked for exactly if the key is unused, the order is payable, there is something to collect,
      no attempt for it is unresolved, and the attempt's record is known to have been written: then once, for
      this order and its total. */
  lemma ChargesIff(b: Books, q: Request, x: Meets)
    ensures InitiateNow(b, q, x).0.charged
         == b.charged + if (q.user, q.key) !in b.tables.claims && MayStart(b, q, x) && x.ending.Commits?
                        then [Charge(q.id, q.order, x.total)] else []
  {
    if (q.user, q.key) !in b.tables.claims {
      assert Unresolved(b.tables, q.order) <==>
               exists p :: p in b.tables.attempts && b.tables.attempts[p].row.order == q.order
                           && b.tables.attempts[p].row.status != Failed;
    }
    assert b.charged + [] == b.charged;
  }

  /** A call that may not start changes nothing, and is told that it failed; so is one whose transaction is
      rolled back. */
  lemma UnstartedChangesNothing(b: Books, q: Request, x: Meets)
    requires (q.user, q.key) !in b.tables.claims && (!MayStart(b, q, x) || x.ending.RollsBack?)
    ensures InitiateNow(b, q, x) == (b, Error)
  {
  }

  /** What the first answer makes of a new attempt. */
  lemma FirstAnswer(row: Row, answer: Answer)
    requires row.status == Pending && row.reference == ""
    ensures var (a, outcome) := Applied(Aggregate(row, []), answer);
            && (outcome.Refused? <==> !Usable(answer)) && (outcome.Moved? <==> Usable(answer))
            && (Usable(answer) ==>
                  && a.row.status == answer.status && a.row.reference == answer.reference
                  && a.row.id == row.id && a.row.order == row.order && a.row.user == row.user
                  && a.row.amount == row.amount)
  {
  }

  /** One that starts leaves its attempt on record under its key: of the order's amount, pending, or as the
      provider's answer has it. It is answered with the attempt exactly if it heard of its commit and had a
      usable answer. */
  lemma StartedIsOnRecord(b: Books, q: Request, x: Meets)
    requires (q.user, q.key) !in b.tables.claims && q.id !in b.tables.attempts
    requires MayStart(b, q, x) && !x.ending.RollsBack?
    ensures var (after, reply) := InitiateNow(b, q, x);
            && after.tables.claims == b.tables.claims[(q.user, q.key) := Claim(q.hash, q.id)]
            && after.tables.attempts.Keys == b.tables.attempts.Keys + {q.id}
            && (forall p :: p in b.tables.attempts ==> after.tables.attempts[p] == b.tables.attempts[p])
            && var row := after.tables.attempts[q.id].row;
               && row.id == q.id && row.order == q.order && row.user == q.user && row.amount == x.total
               && var answered := x.ending.Commits? && x.answer.Said? && Usable(x.answer.answer);
                  && reply == (if answered then Started(q.id) else Error)
                  && row.status == (if answered then x.answer.answer.status else Pending)
                  && row.reference == (if answered then x.answer.answer.reference else "")
  {
    assert !Unresolved(b.tables, q.order);
    if x.answer.Said? {
      FirstAnswer(Row(q.id, q.order, q.user, Pending, x.total, "", "", 1), x.answer.answer);
    }
  }
}
