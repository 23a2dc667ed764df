/** Asking a provider for money: any number of calls, each recording its attempt before it asks, and
    the provider's answers and callbacks arriving whenever they like. */
module Charging {
  import opened OrderTotals
  import opened Payments
  import F = Fingerprint

  datatype Claim = Claim(hash: nat, payment: nat)

  /** Attempts by id, each with what was published about it, and idempotency keys by user and key. */
  datatype Tables = Tables(attempts: map<nat, Stored>, claims: map<(nat, string), Claim>)

  /** What the index over attempts that have not failed would refuse. */
  predicate Unresolved(t: Tables, order: nat) {
    exists p :: p in t.attempts && t.attempts[p].row.order == order && t.attempts[p].row.status != Failed
  }

  datatype Recording = Created | Replayed(payment: nat) | Reused | InFlight

  /** The transaction before the charge: the key, then the attempt. */
  function RecordTx(t: Tables, key: (nat, string), hash: nat, row: Row): (Tables, Recording) {
    if key in t.claims then
      (t, if t.claims[key].hash == hash then Replayed(t.claims[key].payment) else Reused)
    else if Unresolved(t, row.order) then (t, InFlight)
    else
      (Tables(t.attempts[row.id := Stored(row, [])], t.claims[key := Claim(hash, row.id)]), Created)
  }

  /** The transaction after it, or that of a callback, on the freshly locked row. */
  function SettleTx(t: Tables, payment: nat, answer: Answer): (Tables, Outcome) {
    if payment !in t.attempts then (t, Refused(NotFound))
    else
      var stored := t.attempts[payment];
      (t.(attempts := t.attempts[payment := Told(stored, answer)]), Applied(Aggregate(stored.row, []), answer).1)
  }

  // ---------------------------------------------------------------------------
  // The machine

  datatype Reply = Started(payment: nat) | KeyReused | Error

  /** How far a call has come; Recorded has committed its attempt and not asked for money yet. */
  datatype Phase = Checking | Reading | Ready(amount: Money) | Recorded(amount: Money) | Asked | Ended(reply: Reply)

  /** A call's identifier is that of the attempt it may start. */
  datatype Call = Call(user: nat, key: string, hash: nat, order: nat, phase: Phase)

  datatype Charge = Charge(payment: nat, order: nat, amount: Money)

  /** charged is every request for money that was ever sent. */
  datatype State = State(tables: Tables, calls: map<nat, Call>, charged: seq<Charge>)

  datatype Step =
    | Arrive(c: nat, user: nat, key: string, hash: nat, order: nat)
    | Replay(c: nat)
    | ReadOrder(c: nat, payable: bool, total: Money)
    | Record(c: nat)
    | RecordFails(c: nat)
    | RecordUnknown(c: nat)
    | Ask(c: nat)
    | Answered(c: nat, answer: Answer)
    | Unanswered(c: nat)
    | Callback(payment: nat, answer: Answer)
    | Crash(c: nat)

  const INIT := State(Tables(map[], map[]), map[], [])

  ghost predicate Enabled(s: State, step: Step) {
    match step
    case Arrive(c, _, _, _, _) => c !in s.calls
    case Replay(c) => c in s.calls && s.calls[c].phase.Checking?
    case ReadOrder(c, _, _) => c in s.calls && s.calls[c].phase.Reading?
    case Record(c) => c in s.calls && s.calls[c].phase.Ready?
    case RecordFails(c) => c in s.calls && s.calls[c].phase.Ready?
    case RecordUnknown(c) => c in s.calls && s.calls[c].phase.Ready?
    case Ask(c) => c in s.calls && s.calls[c].phase.Recorded?
    case Answered(c, _) => c in s.calls && s.calls[c].phase.Asked?
    case Unanswered(c) => c in s.calls && s.calls[c].phase.Asked?
    case Callback(_, _) => true
    case Crash(c) => c in s.calls
  }

  function In(s: State, c: nat, phase: Phase): State
    requires c in s.calls
  {
    s.(calls := s.calls[c := s.calls[c].(phase := phase)])
  }

  function Looked(t: Tables, call: Call): Phase {
    if (call.user, call.key) !in t.claims then Reading
    else if t.claims[(call.user, call.key)].hash != call.hash then Ended(KeyReused)
    else Ended(Started(t.claims[(call.user, call.key)].payment))
  }

  function Attempted(s: State, c: nat): (Tables, Recording)
    requires c in s.calls && s.calls[c].phase.Ready?
  {
    var call := s.calls[c];
    RecordTx(s.tables, (call.user, call.key), call.hash,
        Row(c, call.order, call.user, Pending, call.phase.amount, "", "", 1))
  }

  function After(amount: Money, recording: Recording): Phase {
    match recording
    case Created => Recorded(amount)
    case Replayed(payment) => Ended(Started(payment))
    case Reused => Ended(KeyReused)
    case InFlight => Ended(Error)
  }

  ghost function Next(s: State, step: Step): State
    requires Enabled(s, step)
  {
    match step
    case Arrive(c, user, key, hash, order) => s.(calls := s.calls[c := Call(user, key, hash, order, Checking)])
    case Replay(c) => In(s, c, Looked(s.tables, s.calls[c]))
    case ReadOrder(c, payable, total) =>
      var fine := payable && NewPayment(c, s.calls[c].order, s.calls[c].user, total).Ok?;
      In(s, c, if fine then Ready(total) else Ended(Error))
    case Record(c) =>
      var (tables, recording) := Attempted(s, c);
      In(s, c, After(s.calls[c].phase.amount, recording)).(tables := tables)
    case RecordFails(c) => In(s, c, Ended(Error))
    case RecordUnknown(c) => In(s, c, Ended(Error)).(tables := Attempted(s, c).0)
    case Ask(c) =>
      In(s, c, Asked).(charged := s.charged + [Charge(c, s.calls[c].order, s.calls[c].phase.amount)])
    case Answered(c, answer) =>
      var (tables, outcome) := SettleTx(s.tables, c, answer);
      In(s, c, Ended(if outcome.Refused? then Error else Started(c))).(tables := tables)
    case Unanswered(c) => In(s, c, Ended(Error))
    case Callback(payment, answer) => s.(tables := SettleTx(s.tables, payment, answer).0)
    case Crash(c) => In(s, c, Ended(Error))
  }

  ghost predicate Legal(s: State, steps: seq<Step>)
    decreases |steps|
  {
    steps == [] || (Enabled(s, steps[0]) && Legal(Next(s, steps[0]), steps[1..]))
  }

  ghost function Run(s: State, steps: seq<Step>): State
    requires Legal(s, steps)
    decreases |steps|
  {
    if steps == [] then s else Run(Next(s, steps[0]), steps[1..])
  }

  // ---------------------------------------------------------------------------
  // The invariant

  ghost predicate AttemptOk(s: State, p: nat)
    requires p in s.tables.attempts
  {
    var stored := s.tables.attempts[p];
    && Sound(stored) && stored.row.id == p
    && p in s.calls && stored.row.user == s.calls[p].user && stored.row.order == s.calls[p].order
    && (s.calls[p].user, s.calls[p].key) in s.tables.claims
    && s.tables.claims[(s.calls[p].user, s.calls[p].key)] == Claim(s.calls[p].hash, p)
  }

  ghost predicate ClaimOk(s: State, k: (nat, string))
    requires k in s.tables.claims
  {
    var p := s.tables.claims[k].payment;
    p in s.tables.attempts && p in s.calls && (s.calls[p].user, s.calls[p].key) == k
  }

  ghost predicate ReplyOk(t: Tables, call: Call, reply: Reply) {
    match reply
    case Started(payment) =>
      (call.user, call.key) in t.claims && t.claims[(call.user, call.key)] == Claim(call.hash, payment)
    case KeyReused => (call.user, call.key) in t.claims && t.claims[(call.user, call.key)].hash != call.hash
    case Error => true
  }

  ghost predicate NotCharged(s: State, c: nat) {
    forall i :: 0 <= i < |s.charged| ==> s.charged[i].payment != c
  }

  ghost predicate CallOk(s: State, c: nat)
    requires c in s.calls
  {
    match s.calls[c].phase
    case Checking => c !in s.tables.attempts && NotCharged(s, c)
    case Reading => c !in s.tables.attempts && NotCharged(s, c)
    case Ready(amount) => c !in s.tables.attempts && NotCharged(s, c)
    case Recorded(amount) => c in s.tables.attempts && s.tables.attempts[c].row.amount == amount && NotCharged(s, c)
    case Asked => c in s.tables.attempts
    case Ended(reply) => ReplyOk(s.tables, s.calls[c], reply)
  }

  ghost predicate ChargeOk(t: Tables, charge: Charge) {
    && charge.payment in t.attempts
    && t.attempts[charge.payment].row.order == charge.order
    && t.attempts[charge.payment].row.amount == charge.amount
  }

  ghost predicate OneUnresolved(t: Tables) {
    forall p, q ::
      p in t.attempts && q in t.attempts && p != q && t.attempts[p].row.order == t.attempts[q].row.order ==>
        t.attempts[p].row.status == Failed || t.attempts[q].row.status == Failed
  }

  ghost predicate ChargedOnce(charged: seq<Charge>) {
    forall i, j :: 0 <= i < j < |charged| ==> charged[i].payment != charged[j].payment
  }

  ghost predicate Inv(s: State) {
    && (forall p :: p in s.tables.attempts ==> AttemptOk(s, p))
    && (forall k :: k in s.tables.claims ==> ClaimOk(s, k))
    && (forall c :: c in s.calls ==> CallOk(s, c))
    && (forall i :: 0 <= i < |s.charged| ==> ChargeOk(s.tables, s.charged[i]))
    && OneUnresolved(s.tables) && ChargedOnce(s.charged)
  }

  // ---------------------------------------------------------------------------
  // Every step

  /** A step that moves one call and leaves the tables alone. */
  lemma CallMoves(s: State, t: State, c: nat)
    requires Inv(s) && c in t.calls && t == s.(calls := s.calls[c := t.calls[c]])
    requires c in s.calls ==> t.calls[c] == s.calls[c].(phase := t.calls[c].phase)
    requires CallOk(t, c)
    ensures Inv(t)
  {
    forall p | p in t.tables.attempts ensures AttemptOk(t, p) {
      assert AttemptOk(s, p);
    }
    forall k | k in t.tables.claims ensures ClaimOk(t, k) {
      assert ClaimOk(s, k);
    }
    forall d | d in t.calls ensures CallOk(t, d) {
      if d != c { assert CallOk(s, d); }
    }
  }

  ghost predicate Settled(a: Tables, b: Tables, payment: nat, answer: Answer) {
    payment in a.attempts && b == a.(attempts := a.attempts[payment := Told(a.attempts[payment], answer)])
  }

  lemma SettleKeepsCalls(s: State, t: State, payment: nat, answer: Answer)
    requires Inv(s) && t == s.(tables := t.tables) && Settled(s.tables, t.tables, payment, answer)
    ensures forall p :: p in t.tables.attempts ==>
            AttemptOk(t, p) && Stands(s.tables.attempts[p].row, t.tables.attempts[p].row)
    ensures forall k :: k in t.tables.claims ==> ClaimOk(t, k)
    ensures forall d :: d in t.calls ==> CallOk(t, d)
  {
    assert AttemptOk(s, payment);
    ToldKeeps(s.tables.attempts[payment], answer);
    forall p | p in t.tables.attempts ensures AttemptOk(t, p) {
      assert AttemptOk(s, p);
    }
    forall k | k in t.tables.claims ensures ClaimOk(t, k) {
      assert ClaimOk(s, k);
    }
    forall d | d in t.calls ensures CallOk(t, d) {
      assert CallOk(s, d);
    }
  }

  lemma SettleMoves(s: State, t: State, payment: nat, answer: Answer)
    requires Inv(s) && t == s.(tables := t.tables) && Settled(s.tables, t.tables, payment, answer)
    ensures Inv(t)
  {
    SettleKeepsCalls(s, t, payment, answer);
    forall i | 0 <= i < |t.charged| ensures ChargeOk(t.tables, t.charged[i]) {
      assert ChargeOk(s.tables, s.charged[i]);
    }
  }

  /** The tables once a call's attempt has been recorded. */
  ghost predicate Creates(s: State, t: State, c: nat) {
    && c in s.calls && s.calls[c].phase.Ready?
    && var call := s.calls[c];
       var row := Row(c, call.order, call.user, Pending, call.phase.amount, "", "", 1);
       && (call.user, call.key) !in s.tables.claims && !Unresolved(s.tables, call.order)
       && t.tables == Tables(s.tables.attempts[c := Stored(row, [])],
                             s.tables.claims[(call.user, call.key) := Claim(call.hash, c)])
       && t.charged == s.charged
       && (t.calls == s.calls[c := call.(phase := Recorded(call.phase.amount))]
           || t.calls == s.calls[c := call.(phase := Ended(Error))])
  }

  lemma CreatesKeepsCalls(s: State, t: State, c: nat)
    requires Inv(s) && Creates(s, t, c)
    ensures forall p :: p in t.tables.attempts ==> AttemptOk(t, p)
    ensures forall k :: k in t.tables.claims ==> ClaimOk(t, k)
    ensures forall d :: d in t.calls ==> CallOk(t, d)
  {
    assert CallOk(s, c);
    forall p | p in t.tables.attempts ensures AttemptOk(t, p) {
      if p != c { assert AttemptOk(s, p); }
    }
    forall k | k in t.tables.claims ensures ClaimOk(t, k) {
      if k in s.tables.claims { assert ClaimOk(s, k); }
    }
    forall d | d in t.calls ensures CallOk(t, d) {
      if d != c { assert CallOk(s, d); }
    }
  }

  lemma CreatesMoves(s: State, t: State, c: nat)
    requires Inv(s) && Creates(s, t, c)
    ensures Inv(t)
  {
    CreatesKeepsCalls(s, t, c);
    assert CallOk(s, c);
    forall i | 0 <= i < |t.charged| ensures ChargeOk(t.tables, t.charged[i]) {
      assert ChargeOk(s.tables, s.charged[i]);
    }
  }

  lemma AskMoves(s: State, c: nat)
    requires Inv(s) && Enabled(s, Ask(c))
    ensures Inv(Next(s, Ask(c)))
  {
    var t := Next(s, Ask(c));
    var asked := t.(charged := s.charged);
    assert CallOk(s, c) && AttemptOk(s, c);
    CallMoves(s, asked, c);
    forall p | p in t.tables.attempts ensures AttemptOk(t, p) {
      assert AttemptOk(asked, p);
    }
    forall k | k in t.tables.claims ensures ClaimOk(t, k) {
      assert ClaimOk(asked, k);
    }
    forall d | d in t.calls ensures CallOk(t, d) {
      assert CallOk(asked, d);
    }
  }

  lemma RecordMoves(s: State, step: Step)
    requires Inv(s) && Enabled(s, step) && (step.Record? || step.RecordUnknown?)
    ensures Inv(Next(s, step))
  {
    var t := Next(s, step);
    if Attempted(s, step.c).1.Created? {
      CreatesMoves(s, t, step.c);
    } else {
      CallMoves(s, t, step.c);
    }
  }

  lemma AnsweredMoves(s: State, c: nat, answer: Answer)
    requires Inv(s) && Enabled(s, Answered(c, answer))
    ensures Inv(Next(s, Answered(c, answer)))
  {
    var (tables, outcome) := SettleTx(s.tables, c, answer);
    assert CallOk(s, c);
    assert AttemptOk(s, c);
    SettleMoves(s, s.(tables := tables), c, answer);
    CallMoves(s.(tables := tables), Next(s, Answered(c, answer)), c);
  }

  lemma CallStepMoves(s: State, step: Step)
    requires Inv(s) && Enabled(s, step)
    requires step.Arrive? || step.Replay? || step.ReadOrder? || step.RecordFails? || step.Unanswered? || step.Crash?
    ensures Inv(Next(s, step))
  {
    if step.c in s.calls { assert CallOk(s, step.c); }
    forall p | p in s.tables.attempts ensures p in s.calls {
      assert AttemptOk(s, p);
    }
    forall i | 0 <= i < |s.charged| ensures s.charged[i].payment in s.calls {
      assert ChargeOk(s.tables, s.charged[i]);
    }
    CallMoves(s, Next(s, step), step.c);
  }

  lemma StepKeepsInv(s: State, step: Step)
    requires Inv(s) && Enabled(s, step)
    ensures Inv(Next(s, step))
  {
    match step
    case Record(_) => RecordMoves(s, step);
    case RecordUnknown(_) => RecordMoves(s, step);
    case Ask(c) => AskMoves(s, c);
    case Answered(c, answer) => AnsweredMoves(s, c, answer);
    case Callback(payment, answer) =>
      if payment in s.tables.attempts {
        SettleMoves(s, Next(s, step), payment, answer);
      }
    case _ => CallStepMoves(s, step);
  }

  lemma {:induction false} RunKeepsInv(s: State, steps: seq<Step>)
    requires Inv(s) && Legal(s, steps)
    ensures Inv(Run(s, steps))
    decreases |steps|
  {
    if steps != [] {
      StepKeepsInv(s, steps[0]);
      RunKeepsInv(Next(s, steps[0]), steps[1..]);
    }
  }

  // ---------------------------------------------------------------------------
  // Main results

  /** Whatever was asked of the provider was on record first, for the same order and the same amount;
      and an attempt is charged for once. A commit whose outcome was lost does not change that. */
  lemma RecordPrecedesCharge(steps: seq<Step>, i: nat)
    requires Legal(INIT, steps) && i < |Run(INIT, steps).charged|
    ensures var s := Run(INIT, steps);
            && ChargeOk(s.tables, s.charged[i])
            && forall j :: 0 <= j < |s.charged| && j != i ==> s.charged[j].payment != s.charged[i].payment
  {
    RunKeepsInv(INIT, steps);
  }

  /** Calls that share a user and a key ask for money once between them. */
  lemma OneChargePerKey(steps: seq<Step>, i: nat, j: nat)
    requires Legal(INIT, steps) && i < j < |Run(INIT, steps).charged|
    ensures var s := Run(INIT, steps);
            && s.charged[i].payment in s.calls && s.charged[j].payment in s.calls
            && var a, b := s.calls[s.charged[i].payment], s.calls[s.charged[j].payment];
               a.user != b.user || a.key != b.key
  {
    RunKeepsInv(INIT, steps);
    var s := Run(INIT, steps);
    assert ChargeOk(s.tables, s.charged[i]) && ChargeOk(s.tables, s.charged[j]);
    assert AttemptOk(s, s.charged[i].payment) && AttemptOk(s, s.charged[j].payment);
  }

  /** And are answered alike exactly if their fingerprints agree. */
  lemma OneAnswerPerKey(steps: seq<Step>, a: nat, b: nat)
    requires Legal(INIT, steps) && a in Run(INIT, steps).calls && b in Run(INIT, steps).calls
    requires var x, y := Run(INIT, steps).calls[a], Run(INIT, steps).calls[b];
             x.user == y.user && x.key == y.key && x.phase.Ended? && y.phase.Ended?
    ensures var s := Run(INIT, steps);
            var x, y := s.calls[a], s.calls[b];
            && (x.phase.reply.Started? && y.phase.reply.Started? ==> x.phase.reply == y.phase.reply && x.hash == y.hash)
            && (x.phase.reply.Started? && y.phase.reply.KeyReused? ==> x.hash != y.hash)
  {
    RunKeepsInv(INIT, steps);
    var s := Run(INIT, steps);
    assert CallOk(s, a) && CallOk(s, b);
  }

  /** An attempt that was started under the call's key for a request with another fingerprint. */
  ghost predicate TakenByAnother(s: State, a: nat, p: nat)
    requires a in s.calls
  {
    && p in s.tables.attempts && p in s.calls && s.tables.attempts[p].row.user == s.calls[a].user
    && s.calls[p].user == s.calls[a].user && s.calls[p].key == s.calls[a].key && s.calls[p].hash != s.calls[a].hash
  }

  /** A call is answered with an attempt of its own user's, and refused its key only if an attempt exists
      that the key was used for, and not for the same request. */
  lemma AnswersAreTrue(steps: seq<Step>, a: nat)
    requires Legal(INIT, steps) && a in Run(INIT, steps).calls && Run(INIT, steps).calls[a].phase.Ended?
    ensures var s := Run(INIT, steps);
            var reply := s.calls[a].phase.reply;
            && (reply.Started? ==>
                  reply.payment in s.tables.attempts && s.tables.attempts[reply.payment].row.user == s.calls[a].user)
            && (reply.KeyReused? ==> exists p :: TakenByAnother(s, a, p))
  {
    RunKeepsInv(INIT, steps);
    var s := Run(INIT, steps);
    assert CallOk(s, a);
    var k := (s.calls[a].user, s.calls[a].key);
    if k in s.tables.claims {
      assert ClaimOk(s, k);
      var p := s.tables.claims[k].payment;
      assert AttemptOk(s, p);
      assert s.calls[a].phase.reply.KeyReused? ==> TakenByAnother(s, a, p);
    }
  }

  /** A fingerprint is a digest of the user, the order and the method. */
  ghost predicate Fingerprinted(call: Call, method': string, digest: string -> nat, name: nat -> string) {
    call.hash == digest(F.Joined([name(call.user), name(call.order), method']))
  }

  /** Names that have no zero byte in them and tell ids apart. */
  ghost predicate Names(name: nat -> string) {
    (forall n :: F.NUL !in name(n)) && forall m, n :: name(m) == name(n) ==> m == n
  }

  /** With fingerprints that do not collide: of two calls that share user and key, of which one got the
      attempt, the other got it too if it was to pay for the same order in the same way, and was refused
      if not. */
  lemma SameAttemptExactlyForTheSameRequest(
    steps: seq<Step>, a: nat, b: nat, methodA: string, methodB: string, digest: string -> nat, name: nat -> string)
    requires Legal(INIT, steps) && a in Run(INIT, steps).calls && b in Run(INIT, steps).calls
    requires Names(name) && F.NUL !in methodA && F.NUL !in methodB
    requires forall x, y :: digest(x) == digest(y) ==> x == y
    requires var x, y := Run(INIT, steps).calls[a], Run(INIT, steps).calls[b];
             && x.user == y.user && x.key == y.key && x.phase.Ended? && y.phase.Ended?
             && Fingerprinted(x, methodA, digest, name) && Fingerprinted(y, methodB, digest, name)
             && x.phase.reply.Started? && !y.phase.reply.Error?
    ensures var x, y := Run(INIT, steps).calls[a], Run(INIT, steps).calls[b];
            y.phase.reply == if x.order == y.order && methodA == methodB then x.phase.reply else KeyReused
  {
    OneAnswerPerKey(steps, a, b);
    var x, y := Run(INIT, steps).calls[a], Run(INIT, steps).calls[b];
    F.SamePaymentRequest(name(x.user), name(x.order), methodA, name(y.user), name(y.order), methodB);
  }

  /** Of two requests for money for one order, one at least has since been declined: the index lets an
      order have only one attempt that is not a failed one, so it is collected for at most once. */
  lemma OneUnresolvedPerOrder(steps: seq<Step>, i: nat, j: nat)
    requires Legal(INIT, steps) && i < j < |Run(INIT, steps).charged|
    requires Run(INIT, steps).charged[i].order == Run(INIT, steps).charged[j].order
    ensures var s := Run(INIT, steps);
            var p, q := s.charged[i].payment, s.charged[j].payment;
            && p in s.tables.attempts && q in s.tables.attempts
            && (s.tables.attempts[p].row.status == Failed || s.tables.attempts[q].row.status == Failed)
  {
    RunKeepsInv(INIT, steps);
    var s := Run(INIT, steps);
    assert ChargeOk(s.tables, s.charged[i]) && ChargeOk(s.tables, s.charged[j]);
  }

  // ---------------------------------------------------------------------------
  // The whole call

  /** What the call is asked, and the id of the attempt it may start. */
  datatype Request = Request(user: nat, key: string, hash: nat, order: nat, id: nat)

  /** How the transaction before the charge ends: it commits, something in it or its commit fails, or its
      commit lands although it was reported as failed. */
  datatype Commitment = Commits | RollsBack | LandsUnseen

  /** What the call meets: what the order service says, its transaction's end, and the provider's answer. */
  datatype Meets = Meets(payable: bool, total: Money, ending: Commitment, answer: Response)

  datatype Response = Silence | Said(answer: Answer)

  /** The attempts, and every request for money so far. */
  datatype Books = Books(tables: Tables, charged: seq<Charge>)

  /** Asking the provider, once the attempt is on record. */
  function ChargeNow(b: Books, q: Request, x: Meets): (Books, Reply) {
    var asked := b.charged + [Charge(q.id, q.order, x.total)];
    match x.answer
    case Silence => (Books(b.tables, asked), Error)
    case Said(answer) =>
      var (tables, outcome) := SettleTx(b.tables, q.id, answer);
      (Books(tables, asked), if outcome.Refused? then Error else Started(q.id))
  }

  /** InitiatePayment with nothing else running in between. */
  function InitiateNow(b: Books, q: Request, x: Meets): (Books, Reply) {
    if (q.user, q.key) in b.tables.claims then
      var claim := b.tables.claims[(q.user, q.key)];
      (b, if claim.hash == q.hash then Started(claim.payment) else KeyReused)
    else if !x.payable || NewPayment(q.id, q.order, q.user, x.total).Err? || x.ending.RollsBack? then (b, Error)
    else
      var row := Row(q.id, q.order, q.user, Pending, x.total, "", "", 1);
      var (tables, recording) := RecordTx(b.tables, (q.user, q.key), q.hash, row);
      if recording.InFlight? then (b, Error)
      else if x.ending.LandsUnseen? then (b.(tables := tables), Error)
      else ChargeNow(b.(tables := tables), q, x)
  }

  // ---------------------------------------------------------------------------
  // The service over its tables

  class PaymentService {
    /** Every attempt's row, with the outbox rows it wrote. */
    var attempts: map<nat, Stored>
    var claims: map<(nat, string), Claim>
    /** What the provider was asked for. */
    var charged: seq<Charge>

    constructor ()
      ensures View() == INIT.tables && charged == []
    {
      attempts, claims, charged := map[], map[], [];
    }

    function View(): Tables
      reads this
    {
      Tables(attempts, claims)
    }

    /** The transaction before the charge. */
    method Record(user: nat, key: string, hash: nat, row: Row) returns (r: Recording)
      modifies this`attempts, this`claims
      ensures (View(), r) == RecordTx(old(View()), (user, key), hash, row)
    {
      if (user, key) in claims {
        var claim := claims[(user, key)];
        return if claim.hash == hash then Replayed(claim.payment) else Reused;
      }
      if exists p :: p in attempts && attempts[p].row.order == row.order && attempts[p].row.status != Failed {
        return InFlight;
      }
      claims := claims[(user, key) := Claim(hash, row.id)];
      attempts := attempts[row.id := Stored(row, [])];
      return Created;
    }

    /** Locks the attempt, applies the answer, and writes the row and its events only if it moved. */
    method Settle(payment: nat, answer: Answer) returns (r: Outcome)
      modifies this`attempts
      ensures (View(), r) == SettleTx(old(View()), payment, answer)
    {
      if payment !in attempts {
        return Refused(NotFound);
      }
      var stored := attempts[payment];
      assert attempts == attempts[payment := stored];
      var aggregate := new Payment(stored.row);
      r := aggregate.Apply(answer);
      if r.Moved? {
        var row := aggregate.View().row;
        var pulled := aggregate.PullEvents();
        attempts := attempts[payment := Stored(row.(version := row.version + 1), stored.published + pulled)];
      }
    }

    /** The attempt goes on record before the provider hears of it, and its answer onto the record as that
        then is. */
    method InitiatePayment(q: Request, x: Meets) returns (r: Reply)
      modifies this
      ensures (Books(View(), charged), r) == InitiateNow(old(Books(View(), charged)), q, x)
    {
      if (q.user, q.key) in claims {
        var claim := claims[(q.user, q.key)];
        return if claim.hash == q.hash then Started(claim.payment) else KeyReused;
      }
      if !x.payable {
        return Error;
      }
      var built := NewPayment(q.id, q.order, q.user, x.total);
      if built.Err? || x.ending.RollsBack? {
        return Error;
      }
      var recording := Record(q.user, q.key, q.hash, built.value);
      if !recording.Created? || x.ending.LandsUnseen? {
        return Error;
      }
      charged := charged + [Charge(q.id, q.order, x.total)];
      if x.answer.Silence? {
        return Error;
      }
      var outcome := Settle(q.id, x.answer.answer);
      return if outcome.Refused? then Error else Started(q.id);
    }
  }
}
