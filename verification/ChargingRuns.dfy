/** The whole payment call of Charging, as a run of the machine that interleaves such calls. */
module ChargingRuns {
  import opened OrderTotals
  import opened Payments
  import opened Charging

  ghost predicate Ends(t: State, c: nat, after: Books, reply: Reply) {
    Books(t.tables, t.charged) == after && c in t.calls && t.calls[c].phase == Phase.Ended(reply)
  }

  ghost predicate At(s: State, q: Request, phase: Phase) {
    q.id in s.calls && s.calls[q.id] == Call(q.user, q.key, q.hash, q.order, phase)
  }

  /** What the call was told, its steps are told: what the order service says when it reads the order, and
      what the provider says; and nobody stops halfway. */
  ghost predicate StepTold(s: State, step: Step, q: Request, x: Meets) {
    && !step.Crash?
    && (step.ReadOrder? ==> step == ReadOrder(q.id, x.payable, x.total) && At(s, q, Reading))
    && (step.Answered? ==> x.answer == Said(step.answer))
  }

  ghost predicate Told(s: State, steps: seq<Step>, q: Request, x: Meets)
    requires Legal(s, steps)
    decreases |steps|
  {
    steps == [] || (StepTold(s, steps[0], q, x) && Told(Next(s, steps[0]), steps[1..], q, x))
  }

  ghost predicate CanEnd(s: State, q: Request, x: Meets, after: Books, reply: Reply) {
    exists steps :: Legal(s, steps) && Told(s, steps, q, x) && Ends(Run(s, steps), q.id, after, reply)
  }

  lemma AtTheEnd(s: State, q: Request, x: Meets, after: Books, reply: Reply)
    requires Ends(s, q.id, after, reply)
    ensures CanEnd(s, q, x, after, reply)
  {
    assert Legal(s, []) && Told(s, [], q, x) && Run(s, []) == s;
  }

  lemma AfterAStep(s: State, step: Step, q: Request, x: Meets, after: Books, reply: Reply)
    requires Enabled(s, step) && StepTold(s, step, q, x) && CanEnd(Next(s, step), q, x, after, reply)
    ensures CanEnd(s, q, x, after, reply)
  {
    var rest :| Legal(Next(s, step), rest) && Told(Next(s, step), rest, q, x)
                && Ends(Run(Next(s, step), rest), q.id, after, reply);
    var all := [step] + rest;
    assert all[1..] == rest && Legal(s, all) && Run(s, all) == Run(Next(s, step), rest);
    assert Told(s, all, q, x);
  }

  lemma LastStep(s: State, step: Step, q: Request, x: Meets, after: Books, reply: Reply)
    requires Enabled(s, step) && StepTold(s, step, q, x) && Ends(Next(s, step), q.id, after, reply)
    ensures CanEnd(s, q, x, after, reply)
  {
    AtTheEnd(Next(s, step), q, x, after, reply);
    AfterAStep(s, step, q, x, after, reply);
  }

  lemma FromRecorded(s: State, q: Request, x: Meets)
    requires At(s, q, Recorded(x.total))
    ensures var (after, reply) := ChargeNow(Books(s.tables, s.charged), q, x); CanEnd(s, q, x, after, reply)
  {
    var (after, reply) := ChargeNow(Books(s.tables, s.charged), q, x);
    var asked := Next(s, Ask(q.id));
    var last := match x.answer
                case Silence => Unanswered(q.id)
                case Said(answer) => Answered(q.id, answer);
    LastStep(asked, last, q, x, after, reply);
    AfterAStep(s, Ask(q.id), q, x, after, reply);
  }

  lemma FromReady(s: State, q: Request, x: Meets)
    requires At(s, q, Ready(x.total)) && x.payable && NewPayment(q.id, q.order, q.user, x.total).Ok?
    requires (q.user, q.key) !in s.tables.claims
    ensures var (after, reply) := InitiateNow(Books(s.tables, s.charged), q, x); CanEnd(s, q, x, after, reply)
  {
    var (after, reply) := InitiateNow(Books(s.tables, s.charged), q, x);
    var step := match x.ending
                case Commits => Record(q.id)
                case RollsBack => RecordFails(q.id)
                case LandsUnseen => RecordUnknown(q.id);
    var t := Next(s, step);
    if x.ending.Commits? && Attempted(s, q.id).1.Created? {
      FromRecorded(t, q, x);
      AfterAStep(s, step, q, x, after, reply);
    } else {
      LastStep(s, step, q, x, after, reply);
    }
  }

  lemma FromReading(s: State, q: Request, x: Meets)
    requires At(s, q, Reading) && (q.user, q.key) !in s.tables.claims
    ensures var (after, reply) := InitiateNow(Books(s.tables, s.charged), q, x); CanEnd(s, q, x, after, reply)
  {
    var (after, reply) := InitiateNow(Books(s.tables, s.charged), q, x);
    var step := ReadOrder(q.id, x.payable, x.total);
    if x.payable && NewPayment(q.id, q.order, q.user, x.total).Ok? {
      FromReady(Next(s, step), q, x);
      AfterAStep(s, step, q, x, after, reply);
    } else {
      LastStep(s, step, q, x, after, reply);
    }
  }

  /** The call with nothing in between, whatever it meets, is a run of the machine that meets the same, from
      any state: it leaves the same attempts, has asked for the same money, and gets the same answer. */
  lemma InitiateNowIsARun(s: State, q: Request, x: Meets)
    requires q.id !in s.calls
    ensures var (after, reply) := InitiateNow(Books(s.tables, s.charged), q, x); CanEnd(s, q, x, after, reply)
  {
    var (after, reply) := InitiateNow(Books(s.tables, s.charged), q, x);
    var arrive := Arrive(q.id, q.user, q.key, q.hash, q.order);
    var t := Next(s, arrive);
    if (q.user, q.key) in s.tables.claims {
      LastStep(t, Replay(q.id), q, x, after, reply);
    } else {
      FromReading(Next(t, Replay(q.id)), q, x);
      AfterAStep(t, Replay(q.id), q, x, after, reply);
    }
    AfterAStep(s, arrive, q, x, after, reply);
  }
}
