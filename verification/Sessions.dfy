/** Refresh-token rotation: chains of tokens, each exchanged at most once for the next, with a fixed
    end, ended early by a logout or by anyone presenting a link that has been spent. */
module Sessions {

  datatype Ended = Live | At(when: int)

  /** One link of a chain. Tokens are numbered as they are committed, and a chain is named by its head. */
  datatype Token = Token(user: nat, family: nat, expiresAt: int, ended: Ended)

  datatype Use = Usable | Expired | Revoked

  /** The deadline is inclusive, and is looked at before revocation. */
  function EnsureUsable(t: Token, now: int): Use {
    if now >= t.expiresAt then Expired else if t.ended.At? then Revoked else Usable
  }

  function Successor(t: Token): Token {
    t.(ended := Live)
  }

  /** The statement behind RevokeFamily, over the rows its snapshot has: live links only, so that each
      keeps the moment it ended. */
  function RevokeSeen(tokens: seq<Token>, family: nat, now: int, seen: nat): (r: seq<Token>)
    ensures |r| == |tokens|
    ensures forall i :: 0 <= i < |tokens| ==>
              r[i] == if i < seen && tokens[i].family == family && tokens[i].ended.Live?
                      then tokens[i].(ended := At(now))
                      else tokens[i]
  {
    seq(|tokens|, i requires 0 <= i < |tokens| =>
      if i < seen && tokens[i].family == family && tokens[i].ended.Live?
      then tokens[i].(ended := At(now)) else tokens[i])
  }

  function RevokeFamily(tokens: seq<Token>, family: nat, now: int): seq<Token> {
    RevokeSeen(tokens, family, now, |tokens|)
  }

  /** What a rotation commits: the presented link spent, and its successor. */
  function Exchanged(tokens: seq<Token>, id: nat, copy: Token, now: int): seq<Token>
    requires id < |tokens|
  {
    tokens[id := tokens[id].(ended := At(now))] + [Successor(copy)]
  }

  // ---------------------------------------------------------------------------
  // The interleaved machine, statement by statement

  /** A request between two of its steps. Rotating has read its link; Spent has marked it and stored its
      successor in a transaction it has yet to commit, and holds the link's row; Ending is about to
      revoke a chain; Revoking has begun the statement that does, which sees the rows committed when it
      began and waits for the rows others hold. */
  datatype Open =
    | Rotating(id: nat, copy: Token, now: int)
    | Spent(id: nat, copy: Token, now: int)
    | Ending(family: nat, now: int)
    | Revoking(family: nat, now: int, seen: nat)

  /** A link that was exchanged, and when it was presented for that. */
  datatype Exchange = Exchange(id: nat, at: int)

  /** exchanged lists the exchanges, in the order they were. */
  datatype State = State(tokens: seq<Token>, open: map<nat, Open>, exchanged: seq<Exchange>)

  datatype Step =
    | Login(user: nat, ttl: int, now: int)
    | Refresh(req: nat, id: nat, now: int)
    | Logout(req: nat, id: nat, now: int)
    | Spend(req: nat)
    | Commit(req: nat)
    | Revoke(req: nat)
    | Finish(req: nat)
    | Abandon(req: nat)

  const INIT := State([], map[], [])

  predicate Locked(s: State, id: nat) {
    exists r :: r in s.open && s.open[r].Spent? && s.open[r].id == id
  }

  predicate Enabled(s: State, step: Step) {
    match step
    case Login(_, ttl, _) => ttl > 0
    case Refresh(req, _, _) => req !in s.open
    case Logout(req, _, _) => req !in s.open
    case Spend(req) => req in s.open && s.open[req].Rotating? && !Locked(s, s.open[req].id)
    case Commit(req) => req in s.open && s.open[req].Spent? && s.open[req].id < |s.tokens|
    case Revoke(req) => req in s.open && s.open[req].Ending?
    case Finish(req) =>
      && req in s.open && s.open[req].Revoking?
      && forall i :: 0 <= i < |s.tokens| && i < s.open[req].seen && s.tokens[i].family == s.open[req].family &&
                     s.tokens[i].ended.Live?
           ==> !Locked(s, i)
    case Abandon(req) => req in s.open
  }

  function Next(s: State, step: Step): State
    requires Enabled(s, step)
  {
    match step
    case Login(user, ttl, now) => s.(tokens := s.tokens + [Token(user, |s.tokens|, now + ttl, Live)])
    case Refresh(req, id, now) =>
      if id >= |s.tokens| then s
      else (
        match EnsureUsable(s.tokens[id], now)
        case Expired => s
        case Revoked => s.(open := s.open[req := Ending(s.tokens[id].family, now)])
        case Usable => s.(open := s.open[req := Rotating(id, s.tokens[id], now)]))
    case Logout(req, id, now) =>
      if id >= |s.tokens| then s else s.(open := s.open[req := Ending(s.tokens[id].family, now)])
    case Spend(req) =>
      var o := s.open[req];
      if o.id >= |s.tokens| || s.tokens[o.id].ended.At? then s.(open := s.open[req := Ending(o.copy.family, o.now)])
      else s.(open := s.open[req := Spent(o.id, o.copy, o.now)])
    case Commit(req) =>
      var o := s.open[req];
      State(Exchanged(s.tokens, o.id, o.copy, o.now), s.open - {req}, s.exchanged + [Exchange(o.id, o.now)])
    case Revoke(req) =>
      var o := s.open[req];
      s.(open := s.open[req := Revoking(o.family, o.now, |s.tokens|)])
    case Finish(req) =>
      var o := s.open[req];
      s.(tokens := RevokeSeen(s.tokens, o.family, o.now, o.seen), open := s.open - {req})
    case Abandon(req) => s.(open := s.open - {req})
  }

  predicate Legal(s: State, steps: seq<Step>)
    decreases |steps|
  {
    steps == [] || (Enabled(s, steps[0]) && Legal(Next(s, steps[0]), steps[1..]))
  }

  function Run(s: State, steps: seq<Step>): State
    requires Legal(s, steps)
    decreases |steps|
  {
    if steps == [] then s else Run(Next(s, steps[0]), steps[1..])
  }

  // ---------------------------------------------------------------------------
  // The invariant

  /** A link has its head's user and its head's end. */
  ghost predicate Linked(tokens: seq<Token>, t: Token) {
    && t.family < |tokens| && tokens[t.family].family == t.family
    && t.user == tokens[t.family].user && t.expiresAt == tokens[t.family].expiresAt
  }

  ghost predicate OneLive(tokens: seq<Token>) {
    forall i, j :: 0 <= i < j < |tokens| && tokens[i].family == tokens[j].family ==>
      tokens[i].ended.At? || tokens[j].ended.At?
  }

  /** The copy a request works on is the link as it is, but for its ending, read before its chain's end; and
      a link whose row is held is live. */
  ghost predicate OpenOk(tokens: seq<Token>, o: Open) {
    && (o.Rotating? || o.Spent? ==>
          o.id < |tokens| && o.copy == tokens[o.id].(ended := Live) && o.now < o.copy.expiresAt)
    && (o.Spent? ==> tokens[o.id].ended.Live?)
    && (o.Ending? || o.Revoking? ==> o.family < |tokens|)
    && (o.Revoking? ==> o.seen <= |tokens|)
  }

  /** A row is held by one transaction at a time. */
  ghost predicate OneHolder(s: State) {
    forall p, r :: p in s.open && r in s.open && p != r && s.open[p].Spent? && s.open[r].Spent? ==>
      s.open[p].id != s.open[r].id
  }

  /** What was exchanged is spent, and was exchanged once, before its chain's end. */
  ghost predicate ExchangedOk(s: State) {
    && (forall i :: 0 <= i < |s.exchanged| ==>
          && s.exchanged[i].id < |s.tokens| && s.tokens[s.exchanged[i].id].ended.At?
          && s.exchanged[i].at < s.tokens[s.exchanged[i].id].expiresAt)
    && (forall i, j :: 0 <= i < j < |s.exchanged| ==> s.exchanged[i].id != s.exchanged[j].id)
  }

  ghost predicate Inv(s: State) {
    && (forall i :: 0 <= i < |s.tokens| ==> Linked(s.tokens, s.tokens[i]))
    && OneLive(s.tokens)
    && (forall req :: req in s.open ==> OpenOk(s.tokens, s.open[req]))
    && OneHolder(s) && ExchangedOk(s)
  }

  /** Links are only ever added or ended, and each ends once. */
  ghost predicate Grows(a: seq<Token>, b: seq<Token>) {
    && |a| <= |b|
    && forall i :: 0 <= i < |a| ==> b[i] == a[i] || (a[i].ended.Live? && b[i] == a[i].(ended := b[i].ended))
  }

  ghost predicate Over(tokens: seq<Token>, family: nat) {
    forall i :: 0 <= i < |tokens| && tokens[i].family == family ==> tokens[i].ended.At?
  }

  lemma TokensGrow(s: State, step: Step)
    requires Inv(s) && Enabled(s, step)
    ensures Grows(s.tokens, Next(s, step).tokens)
  {
    if step.Commit? {
      assert OpenOk(s.tokens, s.open[step.req]);
    }
  }

  /** A rotation commits the spending of its chain's one live link, and a successor to it. */
  lemma CommitAdds(s: State, req: nat)
    requires Inv(s) && Enabled(s, Commit(req))
    ensures var o, t := s.open[req], Next(s, Commit(req));
            && Grows(s.tokens, t.tokens) && t.tokens[o.id].ended.At? && s.tokens[o.id].ended.Live?
            && |t.tokens| == |s.tokens| + 1 && t.tokens[|s.tokens|] == s.tokens[o.id]
            && (forall i :: 0 <= i < |s.tokens| && i != o.id ==> t.tokens[i] == s.tokens[i])
            && OneLive(t.tokens)
  {
    var o, t := s.open[req], Next(s, Commit(req));
    assert OpenOk(s.tokens, o);
    assert t.tokens[|s.tokens|] == s.tokens[o.id];
    forall i, j | 0 <= i < j < |t.tokens| && t.tokens[i].family == t.tokens[j].family
      ensures t.tokens[i].ended.At? || t.tokens[j].ended.At?
    {
      assert s.tokens[i].family == t.tokens[i].family;
      if j < |s.tokens| {
        assert s.tokens[j].family == t.tokens[j].family;
      }
    }
  }

  lemma OneLiveStays(s: State, step: Step)
    requires Inv(s) && Enabled(s, step)
    ensures OneLive(Next(s, step).tokens)
  {
    if step.Commit? {
      CommitAdds(s, step.req);
    } else if step.Login? {
      forall i | 0 <= i < |s.tokens| ensures s.tokens[i].family != |s.tokens| {
        assert Linked(s.tokens, s.tokens[i]);
      }
    }
  }

  lemma LinksStay(s: State, step: Step)
    requires Inv(s) && Enabled(s, step)
    ensures forall i :: 0 <= i < |Next(s, step).tokens| ==> Linked(Next(s, step).tokens, Next(s, step).tokens[i])
  {
    var t := Next(s, step);
    TokensGrow(s, step);
    forall i | 0 <= i < |t.tokens| ensures Linked(t.tokens, t.tokens[i]) {
      if i < |s.tokens| {
        assert Linked(s.tokens, s.tokens[i]);
      } else if step.Commit? {
        CommitAdds(s, step.req);
        assert Linked(s.tokens, s.tokens[s.open[step.req].id]);
      }
    }
  }

  /** A link whose row is held is not ended by anyone else. */
  lemma HeldStaysLive(s: State, step: Step, r: nat)
    requires Inv(s) && Enabled(s, step) && r in s.open && s.open[r].Spent? && r in Next(s, step).open
    ensures Next(s, step).tokens[s.open[r].id].ended.Live?
  {
    assert OpenOk(s.tokens, s.open[r]);
    assert Locked(s, s.open[r].id);
    if step.Commit? {
      CommitAdds(s, step.req);
      assert s.open[step.req].id != s.open[r].id;
    }
  }

  lemma OpensStay(s: State, step: Step)
    requires Inv(s) && Enabled(s, step)
    ensures forall req :: req in Next(s, step).open ==> OpenOk(Next(s, step).tokens, Next(s, step).open[req])
  {
    var t := Next(s, step);
    TokensGrow(s, step);
    forall req | req in t.open ensures OpenOk(t.tokens, t.open[req]) {
      if req in s.open {
        assert OpenOk(s.tokens, s.open[req]);
        if s.open[req].Spent? {
          HeldStaysLive(s, step, req);
        } else if s.open[req].Rotating? {
          assert Linked(s.tokens, s.tokens[s.open[req].id]);
        }
      } else {
        assert Linked(s.tokens, s.tokens[step.id]);
      }
    }
  }

  lemma OneHolderStays(s: State, step: Step)
    requires Inv(s) && Enabled(s, step)
    ensures OneHolder(Next(s, step))
  {
    var t := Next(s, step);
    if step.Spend? && t.open[step.req].Spent? {
      forall r | r in s.open && r != step.req && s.open[r].Spent? ensures s.open[r].id != s.open[step.req].id {
        assert !Locked(s, s.open[step.req].id);
      }
    }
  }

  lemma ExchangedStays(s: State, step: Step)
    requires Enabled(s, step) && (step.Commit? ==> OpenOk(s.tokens, s.open[step.req]))
    requires ExchangedOk(s) && Grows(s.tokens, Next(s, step).tokens)
    ensures ExchangedOk(Next(s, step))
  {
  }

  lemma StepKeepsInv(s: State, step: Step)
    requires Inv(s) && Enabled(s, step)
    ensures Inv(Next(s, step))
  {
    TokensGrow(s, step);
    OneLiveStays(s, step);
    LinksStay(s, step);
    OpensStay(s, step);
    OneHolderStays(s, step);
    ExchangedStays(s, step);
  }

  lemma {:induction false} RunKeepsInv(s: State, steps: seq<Step>)
    requires Inv(s) && Legal(s, steps)
    ensures Inv(Run(s, steps))
    decreases |steps|
  {
    if steps != [] {
      StepKeepsInv(s, steps[0]);
      RunKeepsInv(Next(s, steps[0]), steps[1..]);
    }
  }

  // ---------------------------------------------------------------------------
  // Chains

  /** However refreshes and logouts interleave: a chain has at most one live link, no link is exchanged
      twice, none was presented for its exchange at or after its chain's end, and every link has the user and
      the end its chain began with. */
  lemma ChainsAreSound(steps: seq<Step>)
    requires Legal(INIT, steps)
    ensures var s := Run(INIT, steps);
            && OneLive(s.tokens)
            && (forall i, j :: 0 <= i < j < |s.exchanged| ==> s.exchanged[i].id != s.exchanged[j].id)
            && (forall i :: 0 <= i < |s.exchanged| ==>
                  && s.exchanged[i].id < |s.tokens|
                  && s.exchanged[i].at < s.tokens[s.exchanged[i].id].expiresAt)
            && (forall i :: 0 <= i < |s.tokens| ==> Linked(s.tokens, s.tokens[i]))
  {
    RunKeepsInv(INIT, steps);
  }

  lemma OverStaysStep(s: State, step: Step, family: nat)
    requires Inv(s) && Enabled(s, step) && family < |s.tokens| && Over(s.tokens, family)
    ensures family < |Next(s, step).tokens| && Over(Next(s, step).tokens, family)
  {
    var t := Next(s, step);
    TokensGrow(s, step);
    if step.Commit? {
      CommitAdds(s, step.req);
    }
    forall i | 0 <= i < |t.tokens| && t.tokens[i].family == family ensures t.tokens[i].ended.At? {
      if i < |s.tokens| {
        assert s.tokens[i].family == family;
      }
    }
  }

  /** A chain that has ended never has a live link again. */
  lemma {:induction false} OverForGood(s: State, steps: seq<Step>, family: nat)
    requires Inv(s) && Legal(s, steps) && family < |s.tokens| && Over(s.tokens, family)
    ensures family < |Run(s, steps).tokens| && Over(Run(s, steps).tokens, family)
    decreases |steps|
  {
    if steps != [] {
      OverStaysStep(s, steps[0], family);
      StepKeepsInv(s, steps[0]);
      OverForGood(Next(s, steps[0]), steps[1..], family);
    }
  }

  // ---------------------------------------------------------------------------
  // Ending a chain

  /** Steps of other requests. */
  predicate Elsewhere(step: Step, req: nat) {
    step.Login? || step.req != req
  }

  ghost predicate AllElsewhere(steps: seq<Step>, req: nat) {
    forall i :: 0 <= i < |steps| ==> Elsewhere(steps[i], req)
  }

  lemma {:induction false} ElsewhereKeeps(s: State, steps: seq<Step>, req: nat)
    requires Inv(s) && Legal(s, steps) && req in s.open && AllElsewhere(steps, req)
    ensures Inv(Run(s, steps)) && req in Run(s, steps).open && Run(s, steps).open[req] == s.open[req]
    ensures |Run(s, steps).tokens| >= |s.tokens|
    decreases |steps|
  {
    if steps != [] {
      StepKeepsInv(s, steps[0]);
      TokensGrow(s, steps[0]);
      assert Elsewhere(steps[0], req);
      forall i | 0 <= i < |steps[1..]| ensures Elsewhere(steps[1..][i], req) {
        assert steps[1..][i] == steps[i + 1];
      }
      ElsewhereKeeps(Next(s, steps[0]), steps[1..], req);
    }
  }

  /** Whether a chain has a live link among those numbered from n on. */
  ghost predicate LiveFrom(tokens: seq<Token>, family: nat, n: nat) {
    exists i :: n <= i < |tokens| && tokens[i].family == family && tokens[i].ended.Live?
  }

  /** Whether a rotation of the chain commits during these steps. */
  predicate Rotates(s: State, steps: seq<Step>, family: nat)
    requires Legal(s, steps)
    decreases |steps|
  {
    steps != [] && (|| (steps[0].Commit? && s.open[steps[0].req].copy.family == family)
                    || Rotates(Next(s, steps[0]), steps[1..], family))
  }

  /** Whether somebody else's revocation of the chain takes effect during these steps. */
  predicate Ends(s: State, steps: seq<Step>, family: nat)
    requires Legal(s, steps)
    decreases |steps|
  {
    steps != [] && (|| (steps[0].Finish? && s.open[steps[0].req].family == family)
                    || Ends(Next(s, steps[0]), steps[1..], family))
  }

  lemma StepLives(s: State, step: Step, family: nat, n: nat)
    requires Inv(s) && Enabled(s, step) && family < |s.tokens| && n <= |s.tokens|
    requires !(step.Finish? && s.open[step.req].family == family)
    ensures LiveFrom(Next(s, step).tokens, family, n)
       <==> LiveFrom(s.tokens, family, n) || (step.Commit? && s.open[step.req].copy.family == family)
  {
    var t := Next(s, step);
    if step.Commit? {
      CommitAdds(s, step.req);
      assert OpenOk(s.tokens, s.open[step.req]);
      assert t.tokens[|s.tokens|].ended.Live?;
      if i :| n <= i < |s.tokens| && s.tokens[i].family == family && s.tokens[i].ended.Live? {
        if i == s.open[step.req].id {
          assert t.tokens[|s.tokens|].family == family;
        } else {
          assert t.tokens[i] == s.tokens[i];
        }
      }
      if i :| n <= i < |t.tokens| && t.tokens[i].family == family && t.tokens[i].ended.Live? {
        if i < |s.tokens| { assert t.tokens[i] == s.tokens[i]; }
      }
    } else {
      forall i | 0 <= i < |s.tokens| && s.tokens[i].family == family ensures t.tokens[i] == s.tokens[i] {}
      assert forall i :: 0 <= i < |s.tokens| ==> t.tokens[i].family == s.tokens[i].family;
      assert forall i :: |s.tokens| <= i < |t.tokens| ==> t.tokens[i].family == |s.tokens|;
    }
  }

  lemma {:induction false} RunLives(s: State, steps: seq<Step>, family: nat, n: nat)
    requires Inv(s) && Legal(s, steps) && family < |s.tokens| && n <= |s.tokens| && !Ends(s, steps, family)
    ensures LiveFrom(Run(s, steps).tokens, family, n) <==> LiveFrom(s.tokens, family, n) || Rotates(s, steps, family)
    decreases |steps|
  {
    if steps != [] {
      StepLives(s, steps[0], family, n);
      StepKeepsInv(s, steps[0]);
      TokensGrow(s, steps[0]);
      RunLives(Next(s, steps[0]), steps[1..], family, n);
    }
  }

  /** A revocation ends what was committed when its statement began, and only that. */
  lemma FinishEndsWhatItSaw(s: State, req: nat)
    requires Inv(s) && Enabled(s, Finish(req))
    ensures Over(Next(s, Finish(req)).tokens, s.open[req].family)
            <==> !LiveFrom(s.tokens, s.open[req].family, s.open[req].seen)
  {
    var o, t := s.open[req], Next(s, Finish(req));
    if i :| o.seen <= i < |s.tokens| && s.tokens[i].family == o.family && s.tokens[i].ended.Live? {
      assert t.tokens[i] == s.tokens[i];
    }
    if !Over(t.tokens, o.family) {
      var i :| 0 <= i < |t.tokens| && t.tokens[i].family == o.family && t.tokens[i].ended.Live?;
      assert t.tokens[i] == s.tokens[i] && o.seen <= i;
    }
  }

  /** The part of a run in which a request's revocation takes place: from the beginning of its statement,
      through whatever others do meanwhile, to its end. */
  ghost predicate Revocation(s: State, req: nat, between: seq<Step>) {
    && Inv(s) && Enabled(s, Revoke(req)) && AllElsewhere(between, req)
    && Legal(Next(s, Revoke(req)), between) && Enabled(Run(Next(s, Revoke(req)), between), Finish(req))
  }

  ghost function AfterRevoking(s: State, req: nat, between: seq<Step>): State
    requires Revocation(s, req, between)
  {
    Next(Run(Next(s, Revoke(req)), between), Finish(req))
  }

  lemma RevocationRuns(s: State, req: nat, between: seq<Step>)
    requires Revocation(s, req, between)
    ensures Inv(AfterRevoking(s, req, between))
            && s.open[req].family < |s.tokens| <= |AfterRevoking(s, req, between).tokens|
    ensures Over(AfterRevoking(s, req, between).tokens, s.open[req].family)
       <==> !LiveFrom(Run(Next(s, Revoke(req)), between).tokens, s.open[req].family, |s.tokens|)
  {
    var begun := Next(s, Revoke(req));
    assert OpenOk(s.tokens, s.open[req]);
    StepKeepsInv(s, Revoke(req));
    ElsewhereKeeps(begun, between, req);
    var met := Run(begun, between);
    FinishEndsWhatItSaw(met, req);
    StepKeepsInv(met, Finish(req));
  }

  /** Nothing but a rotation's commit brings a chain a link it did not have. */
  lemma {:induction false} NoneBorn(s: State, steps: seq<Step>, family: nat, n: nat)
    requires Inv(s) && Legal(s, steps) && family < |s.tokens| && n <= |s.tokens|
    requires !LiveFrom(s.tokens, family, n) && !Rotates(s, steps, family)
    ensures !LiveFrom(Run(s, steps).tokens, family, n)
    decreases |steps|
  {
    if steps != [] {
      NoneBornInStep(s, steps[0], family, n);
      StepKeepsInv(s, steps[0]);
      TokensGrow(s, steps[0]);
      NoneBorn(Next(s, steps[0]), steps[1..], family, n);
    }
  }

  lemma NoneBornInStep(s: State, step: Step, family: nat, n: nat)
    requires Inv(s) && Enabled(s, step) && family < |s.tokens| && n <= |s.tokens|
    requires !LiveFrom(s.tokens, family, n) && !(step.Commit? && s.open[step.req].copy.family == family)
    ensures !LiveFrom(Next(s, step).tokens, family, n)
  {
    var t := Next(s, step);
    TokensGrow(s, step);
    if step.Commit? {
      CommitAdds(s, step.req);
    }
    if i :| n <= i < |t.tokens| && t.tokens[i].family == family && t.tokens[i].ended.Live? {
      assert i < |s.tokens| ==> s.tokens[i].family == family;
    }
  }

  /** Whatever others do meanwhile: whoever sets out to end a chain, for a logout or because a spent link was
      presented, ends it for good unless a rotation of the chain commits between the beginning of the
      revoking statement and its end. */
  lemma RevocationEndsTheChain(s: State, req: nat, between: seq<Step>, afterwards: seq<Step>)
    requires Revocation(s, req, between)
    requires !Rotates(Next(s, Revoke(req)), between, s.open[req].family)
    requires Legal(AfterRevoking(s, req, between), afterwards)
    ensures Over(AfterRevoking(s, req, between).tokens, s.open[req].family)
    ensures Over(Run(AfterRevoking(s, req, between), afterwards).tokens, s.open[req].family)
  {
    RevocationRuns(s, req, between);
    StepKeepsInv(s, Revoke(req));
    NoneBorn(Next(s, Revoke(req)), between, s.open[req].family, |s.tokens|);
    OverForGood(AfterRevoking(s, req, between), afterwards, s.open[req].family);
  }

  /** One that does leaves a live link that the statement never saw: so if nobody else ends the chain
      meanwhile, the chain is over exactly if there is no such rotation. */
  lemma RevocationEndsTheChainIff(s: State, req: nat, between: seq<Step>, afterwards: seq<Step>)
    requires Revocation(s, req, between)
    requires !Ends(Next(s, Revoke(req)), between, s.open[req].family)
    requires Legal(AfterRevoking(s, req, between), afterwards)
    ensures Over(AfterRevoking(s, req, between).tokens, s.open[req].family)
       <==> !Rotates(Next(s, Revoke(req)), between, s.open[req].family)
    ensures !Rotates(Next(s, Revoke(req)), between, s.open[req].family) ==>
              Over(Run(AfterRevoking(s, req, between), afterwards).tokens, s.open[req].family)
  {
    RevocationRuns(s, req, between);
    StepKeepsInv(s, Revoke(req));
    RunLives(Next(s, Revoke(req)), between, s.open[req].family, |s.tokens|);
    if Over(AfterRevoking(s, req, between).tokens, s.open[req].family) {
      OverForGood(AfterRevoking(s, req, between), afterwards, s.open[req].family);
    }
  }

  /** Even if others revoke the chain meanwhile: it is over exactly if every link committed since the
      statement began has been ended by one of them. */
  lemma RevocationEndsWhatItSaw(s: State, req: nat, between: seq<Step>)
    requires Revocation(s, req, between)
    ensures Over(AfterRevoking(s, req, between).tokens, s.open[req].family)
       <==> !LiveFrom(Run(Next(s, Revoke(req)), between).tokens, s.open[req].family, |s.tokens|)
  {
    RevocationRuns(s, req, between);
  }

  /** Presenting a spent link before its chain's end, or logging out with any link, sets out to end the
      link's chain, and whatever others do, goes on to. */
  lemma ReuseSetsOut(s: State, step: Step, before: seq<Step>)
    requires Inv(s) && Enabled(s, step) && (step.Refresh? || step.Logout?) && step.id < |s.tokens|
    requires step.Refresh? ==> s.tokens[step.id].ended.At? && step.now < s.tokens[step.id].expiresAt
    requires Legal(Next(s, step), before) && AllElsewhere(before, step.req)
    ensures var noticed := Run(Next(s, step), before);
            && Inv(noticed) && Enabled(noticed, Revoke(step.req))
            && noticed.open[step.req].family == s.tokens[step.id].family
  {
    StepKeepsInv(s, step);
    ElsewhereKeeps(Next(s, step), before, step.req);
  }

  lemma {:induction false} RunOn(s: State, steps: seq<Step>, step: Step)
    requires Legal(s, steps) && Enabled(Run(s, steps), step)
    ensures Legal(s, steps + [step]) && Run(s, steps + [step]) == Next(Run(s, steps), step)
    decreases |steps|
  {
    var all := steps + [step];
    if steps == [] {
      assert all[1..] == [];
    } else {
      assert all[1..] == steps[1..] + [step];
      RunOn(Next(s, steps[0]), steps[1..], step);
    }
  }

  /** A rotation underway, its link spent in a transaction that has not committed, and its chain's head
      spent before. */
  lemma RotationUnderway() returns (steps: seq<Step>)
    ensures Legal(INIT, steps)
    ensures Run(INIT, steps) == State([Token(0, 0, 10, At(0)), Token(0, 0, 10, Live)],
                                      map[2 := Spent(1, Token(0, 0, 10, Live), 0)], [Exchange(0, 0)])
  {
    steps := [];
    RunOn(INIT, steps, Login(0, 10, 0));
    steps := steps + [Login(0, 10, 0)];
    RunOn(INIT, steps, Refresh(1, 0, 0));
    steps := steps + [Refresh(1, 0, 0)];
    RunOn(INIT, steps, Spend(1));
    steps := steps + [Spend(1)];
    RunOn(INIT, steps, Commit(1));
    steps := steps + [Commit(1)];
    assert Run(INIT, steps) == State([Token(0, 0, 10, At(0)), Token(0, 0, 10, Live)], map[], [Exchange(0, 0)]);
    RunOn(INIT, steps, Refresh(2, 1, 0));
    steps := steps + [Refresh(2, 1, 0)];
    RunOn(INIT, steps, Spend(2));
    steps := steps + [Spend(2)];
  }

  /** The head is presented, the revocation begins, and the rotation commits. */
  lemma RotationCommitsMeanwhile() returns (steps: seq<Step>)
    ensures Legal(INIT, steps)
    ensures var s := Run(INIT, steps);
            && s.tokens == [Token(0, 0, 10, At(0)), Token(0, 0, 10, At(0)), Token(0, 0, 10, Live)]
            && s.open == map[3 := Revoking(0, 0, 2)]
  {
    steps := RotationUnderway();
    RunOn(INIT, steps, Refresh(3, 0, 0));
    steps := steps + [Refresh(3, 0, 0)];
    RunOn(INIT, steps, Revoke(3));
    steps := steps + [Revoke(3)];
    assert Run(INIT, steps).open == map[2 := Spent(1, Token(0, 0, 10, Live), 0), 3 := Revoking(0, 0, 2)];
    RunOn(INIT, steps, Commit(2));
    steps := steps + [Commit(2)];
  }

  /** A run in which that happens: while a rotation is underway the chain's spent head is presented; the
      revocation begins, waits for the rotation, and having missed its successor, ends nothing. */
  lemma ReuseCanMissARotation()
    ensures exists steps ::
              && Legal(INIT, steps) && steps != [] && steps[|steps| - 1] == Finish(3)
              && !Over(Run(INIT, steps).tokens, 0)
  {
    var steps := RotationCommitsMeanwhile();
    RunOn(INIT, steps, Finish(3));
    steps := steps + [Finish(3)];
    assert Run(INIT, steps).tokens[2].ended.Live?;
  }

  /** Of two refreshes that read one live link, the second waits for the first to commit, and is then a
      reuse: it exchanges nothing and sets out to end the chain. */
  lemma LosingARaceIsReuse(s: State, first: nat, second: nat)
    requires Inv(s) && Enabled(s, Spend(first)) && Enabled(s, Spend(second)) && first != second
    requires s.open[first].id == s.open[second].id && s.tokens[s.open[first].id].ended.Live?
    ensures var held := Next(s, Spend(first));
            && !Enabled(held, Spend(second)) && Enabled(held, Commit(first))
            && var t := Next(held, Commit(first));
               && Enabled(t, Spend(second))
               && Next(t, Spend(second))
                  == t.(open := t.open[second := Ending(s.open[second].copy.family, s.open[second].now)])
  {
    var held := Next(s, Spend(first));
    assert OpenOk(s.tokens, s.open[first]) && OpenOk(s.tokens, s.open[second]);
    assert Locked(held, s.open[first].id) by {
      assert held.open[first].Spent? && held.open[first].id == s.open[first].id;
    }
    var t := Next(held, Commit(first));
    assert t.tokens[s.open[first].id].ended.At?;
    forall r | r in t.open && t.open[r].Spent? ensures t.open[r].id != s.open[second].id {
      assert s.open[r] == t.open[r] && !Locked(s, s.open[first].id);
    }
  }

  // ---------------------------------------------------------------------------
  // The aggregate and the service over its table

  class RefreshToken {
    const user: nat
    const family: nat
    const expiresAt: int
    var ended: Ended

    constructor (stored: Token)
      ensures Snapshot() == stored
    {
      user, family, expiresAt := stored.user, stored.family, stored.expiresAt;
      ended := stored.ended;
    }

    function Snapshot(): Token
      reads this
    {
      Token(user, family, expiresAt, ended)
    }

    /** Spends this link and gives back the next, or says why it cannot be presented. */
    method Rotate(now: int) returns (use: Use, successor: Token)
      modifies this
      ensures use == if now >= expiresAt then Expired else if old(ended).At? then Revoked else Usable
      ensures use.Usable? ==>
                successor == Successor(old(Snapshot())) && Snapshot() == old(Snapshot()).(ended := At(now))
      ensures !use.Usable? ==> Snapshot() == old(Snapshot())
    {
      use := EnsureUsable(Snapshot(), now);
      successor := Token(user, family, expiresAt, Live);
      if use.Usable? {
        ended := At(now);
      }
    }

    method Revoke(now: int)
      modifies this
      ensures Snapshot() == old(Snapshot()).(ended := if old(ended).At? then old(ended) else At(now))
    {
      if ended.Live? {
        ended := At(now);
      }
    }
  }

  datatype Answer = Pair(token: nat) | Invalid(use: Use)

  /** Refresh with nothing in between its steps. */
  function RefreshNow(tokens: seq<Token>, id: nat, now: int): (seq<Token>, Answer) {
    if id >= |tokens| then (tokens, Invalid(Revoked))
    else
      match EnsureUsable(tokens[id], now)
      case Expired => (tokens, Invalid(Expired))
      case Revoked => (RevokeFamily(tokens, tokens[id].family, now), Invalid(Revoked))
      case Usable => (Exchanged(tokens, id, tokens[id], now), Pair(|tokens|))
  }

  /** What presenting an issued link does: from its chain's end on nothing, and the answer is that; before
      it, a live link is exchanged for a new one of its user, chain and end, and a spent one ends its chain. */
  lemma RefreshAnswers(tokens: seq<Token>, id: nat, now: int)
    requires id < |tokens|
    ensures var (after, answer) := RefreshNow(tokens, id, now);
            if now >= tokens[id].expiresAt then answer == Invalid(Expired) && after == tokens
            else if tokens[id].ended.Live? then
              && answer == Pair(|tokens|) && |after| == |tokens| + 1 && after[id] == tokens[id].(ended := At(now))
              && after[|tokens|] == Token(tokens[id].user, tokens[id].family, tokens[id].expiresAt, Live)
              && forall i :: 0 <= i < |tokens| && i != id ==> after[i] == tokens[i]
            else
              && answer == Invalid(Revoked) && |after| == |tokens| && Over(after, tokens[id].family)
              && forall i :: 0 <= i < |tokens| ==>
                   after[i] == if tokens[i].family == tokens[id].family && tokens[i].ended.Live?
                               then tokens[i].(ended := At(now)) else tokens[i]
  {
  }

  /** And one nobody issued. */
  lemma UnissuedIsRefused(tokens: seq<Token>, id: nat, now: int)
    requires id >= |tokens|
    ensures RefreshNow(tokens, id, now) == (tokens, Invalid(Revoked))
  {
  }

  class SessionService {
    var tokens: seq<Token>
    const refreshTtl: int

    constructor (ttl: int)
      ensures tokens == [] && refreshTtl == ttl
    {
      tokens, refreshTtl := [], ttl;
    }

    /** A new chain, stored once its access token has been signed. */
    method Issue(user: nat, now: int) returns (ok: bool, id: nat)
      modifies this
      ensures ok <==> refreshTtl > 0
      ensures id == |old(tokens)|
      ensures tokens == if ok then old(tokens) + [Token(user, id, now + refreshTtl, Live)] else old(tokens)
    {
      id := |tokens|;
      ok := refreshTtl > 0;
      if ok {
        tokens := tokens + [Token(user, id, now + refreshTtl, Live)];
      }
    }

    method Refresh(id: nat, now: int) returns (a: Answer)
      modifies this
      ensures (tokens, a) == RefreshNow(old(tokens), id, now)
    {
      if id >= |tokens| {
        return Invalid(Revoked);
      }
      var token := new RefreshToken(tokens[id]);
      var use, successor := token.Rotate(now);
      if use.Expired? {
        return Invalid(Expired);
      }
      if use.Revoked? {
        tokens := RevokeFamily(tokens, token.family, now);
        return Invalid(Revoked);
      }
      a := Pair(|tokens|);
      tokens := tokens[id := tokens[id].(ended := At(now))];
      tokens := tokens + [successor];
    }

    /** Ending a chain nobody issued is not a failure. */
    method Logout(id: nat, now: int)
      modifies this
      ensures tokens == if id < |old(tokens)| then RevokeFamily(old(tokens), old(tokens)[id].family, now)
                        else old(tokens)
    {
      if id < |tokens| {
        tokens := RevokeFamily(tokens, tokens[id].family, now);
      }
    }
  }

  /** Run on its own, a refresh is the machine's steps. */
  lemma RefreshNowIsItsSteps(s: State, req: nat, id: nat, now: int)
    requires Inv(s) && req !in s.open && id < |s.tokens| && (s.tokens[id].ended.Live? ==> !Locked(s, id))
    requires forall i ::
               0 <= i < |s.tokens| && s.tokens[i].family == s.tokens[id].family && s.tokens[i].ended.Live? ==>
                 !Locked(s, i)
    ensures var read := Next(s, Refresh(req, id, now));
            var use := EnsureUsable(s.tokens[id], now);
            && (use.Usable? ==>
                  && Enabled(read, Spend(req)) && Enabled(Next(read, Spend(req)), Commit(req))
                  && Next(Next(read, Spend(req)), Commit(req)).tokens == RefreshNow(s.tokens, id, now).0)
            && (use.Revoked? ==>
                  && Enabled(read, Revoke(req)) && Enabled(Next(read, Revoke(req)), Finish(req))
                  && Next(Next(read, Revoke(req)), Finish(req)).tokens == RefreshNow(s.tokens, id, now).0)
            && (use.Expired? ==> read.tokens == RefreshNow(s.tokens, id, now).0)
  {
    var read := Next(s, Refresh(req, id, now));
    forall i ensures Locked(read, i) ==> Locked(s, i) {
      if r :| r in read.open && read.open[r].Spent? && read.open[r].id == i {
        assert r in s.open && s.open[r] == read.open[r];
      }
    }
    if EnsureUsable(s.tokens[id], now).Revoked? {
      var begun := Next(read, Revoke(req));
      forall i ensures Locked(begun, i) ==> Locked(s, i) {
        if r :| r in begun.open && begun.open[r].Spent? && begun.open[r].id == i {
          assert r in s.open && s.open[r] == begun.open[r];
        }
      }
    }
  }
}
