/** The consumer's own code: what becomes of one message, and the loop that fetches them; each proved to
    be what the pipeline allows a member of its group to do. */
module Consumer {
  import opened Delivery
  import Relay
  import DeliverySafety

  /** What became of handling a message: at which attempt it was accepted, or why it was not. */
  datatype Verdict = Handled(at: nat) | GaveUp | Interrupted(at: nat)

  /** How the commit of the offset ended: one that fails during shutdown is not an error. */
  datatype Commits = Lands | Fails | ShutDown

  datatype Outcome = Done(dead: bool) | Left | Errored

  /** The attempts from one on. handles says which would succeed, sleeps which waits are not cut short. */
  function Attempts(attempt: nat, maxAttempts: nat, handles: nat -> bool, sleeps: nat -> bool): Verdict
    decreases maxAttempts - attempt
  {
    if handles(attempt) then Handled(attempt)
    else if attempt >= maxAttempts then GaveUp
    else if !sleeps(attempt) then Interrupted(attempt)
    else Attempts(attempt + 1, maxAttempts, handles, sleeps)
  }

  function Concluded(v: Verdict, dlq: bool, commit: Commits): Outcome {
    if v.Interrupted? then Left
    else if v.GaveUp? && !dlq then Errored
    else
      match commit
      case Lands => Done(v.GaveUp?)
      case ShutDown => Left
      case Fails => Errored
  }

  /** A message is accepted at the first attempt that succeeds, given up on only when every attempt
      allowed has failed, and left alone when a wait between two of them is cut short. */
  lemma {:induction false} VerdictMeans(attempt: nat, maxAttempts: nat, handles: nat -> bool, sleeps: nat -> bool)
    requires 1 <= attempt <= maxAttempts
    ensures var v := Attempts(attempt, maxAttempts, handles, sleeps);
            && (v.Handled? ==>
                  && attempt <= v.at <= maxAttempts && handles(v.at)
                  && forall k :: attempt <= k < v.at ==> !handles(k) && sleeps(k))
            && (v.Interrupted? ==>
                  && attempt <= v.at < maxAttempts && !sleeps(v.at)
                  && forall k :: attempt <= k <= v.at ==> !handles(k))
            && (v.GaveUp? <==>
                  && (forall k :: attempt <= k <= maxAttempts ==> !handles(k))
                  && (forall k :: attempt <= k < maxAttempts ==> sleeps(k)))
    decreases maxAttempts - attempt
  {
    if !handles(attempt) && attempt < maxAttempts && sleeps(attempt) {
      VerdictMeans(attempt + 1, maxAttempts, handles, sleeps);
    }
  }

  /** Some attempt allowed succeeds, and no wait before it is cut short. */
  ghost predicate Accepted(maxAttempts: nat, handles: nat -> bool, sleeps: nat -> bool) {
    exists k :: 1 <= k <= maxAttempts && handles(k) && forall j :: 1 <= j < k ==> !handles(j) && sleeps(j)
  }

  /** Every attempt allowed fails, and no wait between two of them is cut short. */
  ghost predicate Exhausted(maxAttempts: nat, handles: nat -> bool, sleeps: nat -> bool) {
    && (forall k :: 1 <= k <= maxAttempts ==> !handles(k))
    && (forall k :: 1 <= k < maxAttempts ==> sleeps(k))
  }

  /** What is to become of a message: done with if it was accepted or its dead letter taken, and the commit
      lands; an error if the dead letter is not taken or the commit fails; else left where it is. */
  ghost predicate Rightly(
    o: Outcome, maxAttempts: nat, handles: nat -> bool, sleeps: nat -> bool, dlq: bool, commit: Commits)
  {
    var accepted := Accepted(maxAttempts, handles, sleeps);
    var exhausted := Exhausted(maxAttempts, handles, sleeps);
    && (o == Done(false) <==> accepted && commit == Lands)
    && (o == Done(true) <==> exhausted && dlq && commit == Lands)
    && (o == Errored <==> (exhausted && !dlq) || ((accepted || exhausted) && commit == Fails))
    && (o == Left <==> (!accepted && !exhausted) || ((accepted || (exhausted && dlq)) && commit == ShutDown))
  }

  lemma VerdictIs(maxAttempts: nat, handles: nat -> bool, sleeps: nat -> bool)
    requires maxAttempts >= 1
    ensures var v := Attempts(1, maxAttempts, handles, sleeps);
            && (v.Handled? <==> Accepted(maxAttempts, handles, sleeps))
            && (v.GaveUp? <==> Exhausted(maxAttempts, handles, sleeps))
            && !(Accepted(maxAttempts, handles, sleeps) && Exhausted(maxAttempts, handles, sleeps))
  {
    VerdictMeans(1, maxAttempts, handles, sleeps);
    if k :| 1 <= k <= maxAttempts && handles(k) && forall j :: 1 <= j < k ==> !handles(j) && sleeps(j) {
      assert Attempts(1, maxAttempts, handles, sleeps).Handled?;
    }
  }

  lemma ConcludesRightly(maxAttempts: nat, handles: nat -> bool, sleeps: nat -> bool, dlq: bool, commit: Commits)
    requires maxAttempts >= 1
    ensures Rightly(Concluded(Attempts(1, maxAttempts, handles, sleeps), dlq, commit),
                    maxAttempts, handles, sleeps, dlq, commit)
  {
    VerdictIs(maxAttempts, handles, sleeps);
  }

  /** How often a handler is to be called: until it first succeeds or a wait is cut short behind it, and no
      more often than allowed. */
  ghost predicate CalledRightly(calls: nat, maxAttempts: nat, handles: nat -> bool, sleeps: nat -> bool) {
    && 1 <= calls <= maxAttempts && (forall j :: 1 <= j < calls ==> !handles(j) && sleeps(j))
    && (handles(calls) || calls == maxAttempts || !sleeps(calls))
  }

  function CallsOf(v: Verdict, maxAttempts: nat): nat {
    match v case Handled(k) => k case GaveUp => maxAttempts case Interrupted(k) => k
  }

  lemma {:induction false} FirstToStop(attempt: nat, maxAttempts: nat, handles: nat -> bool, sleeps: nat -> bool)
    requires 1 <= attempt <= maxAttempts
    ensures var calls := CallsOf(Attempts(attempt, maxAttempts, handles, sleeps), maxAttempts);
            && attempt <= calls <= maxAttempts && (forall j :: attempt <= j < calls ==> !handles(j) && sleeps(j))
            && (handles(calls) || calls == maxAttempts || !sleeps(calls))
    decreases maxAttempts - attempt
  {
    if !handles(attempt) && attempt < maxAttempts && sleeps(attempt) {
      FirstToStop(attempt + 1, maxAttempts, handles, sleeps);
    }
  }

  lemma ProcessedRightly(maxAttempts: nat, handles: nat -> bool, sleeps: nat -> bool, dlq: bool, commit: Commits)
    requires maxAttempts >= 1
    ensures var v := Attempts(1, maxAttempts, handles, sleeps);
            && Rightly(Concluded(v, dlq, commit), maxAttempts, handles, sleeps, dlq, commit)
            && CalledRightly(CallsOf(v, maxAttempts), maxAttempts, handles, sleeps)
  {
    ConcludesRightly(maxAttempts, handles, sleeps, dlq, commit);
    FirstToStop(1, maxAttempts, handles, sleeps);
  }

  method Process(maxAttempts: nat, handles: nat -> bool, sleeps: nat -> bool, dlq: bool, commit: Commits)
    returns (o: Outcome, calls: nat)
    requires maxAttempts >= 1
    ensures Rightly(o, maxAttempts, handles, sleeps, dlq, commit) && CalledRightly(calls, maxAttempts, handles, sleeps)
    ensures o == Concluded(Attempts(1, maxAttempts, handles, sleeps), dlq, commit)
  {
    var failed := true;
    var attempt := 1;
    calls := 0;
    while attempt <= maxAttempts
      invariant 1 <= attempt <= maxAttempts + 1 && calls == attempt - 1 && failed
      invariant attempt <= maxAttempts ==>
                Attempts(attempt, maxAttempts, handles, sleeps) == Attempts(1, maxAttempts, handles, sleeps)
      invariant attempt > maxAttempts ==> Attempts(1, maxAttempts, handles, sleeps) == GaveUp
    {
      calls := attempt;
      if handles(attempt) {
        failed := false;
        break;
      }
      if attempt < maxAttempts && !sleeps(attempt) {
        ProcessedRightly(maxAttempts, handles, sleeps, dlq, commit);
        return Left, calls;
      }
      attempt := attempt + 1;
    }
    ProcessedRightly(maxAttempts, handles, sleeps, dlq, commit);
    if failed && !dlq {
      return Errored, calls;
    }
    match commit {
      case Lands => o := Done(failed);
      case ShutDown => o := Left;
      case Fails => o := Errored;
    }
  }

  // ---------------------------------------------------------------------------
  // The same, as steps of the pipeline

  lemma {:induction false} FailsRun<E>(s: State<E>, m: nat, upTo: nat) returns (steps: seq<Step<E>>)
    requires m in s.members && s.members[m].Working? && s.members[m].attempt <= upTo <= s.maxAttempts
    ensures Legal(s, steps) && Run(s, steps) == s.(members := s.members[m := s.members[m].(attempt := upTo)])
    decreases upTo - s.members[m].attempt
  {
    if s.members[m].attempt == upTo {
      steps := [];
      assert s.members[m := s.members[m].(attempt := upTo)] == s.members;
    } else {
      var next := Next(s, Step.Fail(m));
      var rest := FailsRun(next, m, upTo);
      steps := [Step.Fail(m)] + rest;
      assert steps[1..] == rest;
      assert next.members[m := next.members[m].(attempt := upTo)] == s.members[m := s.members[m].(attempt := upTo)];
    }
  }

  /** The member's place is behind it exactly if the offset was committed, and then the message was
      accepted or dead-lettered; otherwise the committed offset is where it was. */
  ghost predicate Concludes<E>(s: State<E>, after: State<E>, m: nat, o: Outcome)
    requires m in s.members
  {
    var p, at := s.members[m].partition, s.members[m].position;
    && after.rows == s.rows && after.logs == s.logs && after.maxAttempts == s.maxAttempts
    && match o
       case Done(dead) =>
         && p < |s.committed| && after.committed == s.committed[p := at + 1]
         && m in after.members && after.members[m] == Idle(p, at + 1)
         && (dead ==> (p, at) in after.dead) && (!dead ==> (p, at) in after.accepted)
       case _ => after.committed == s.committed && m !in after.members
  }

  lemma LeavingIsARun<E>(s: State<E>, m: nat)
    requires m in s.members
    ensures Legal(s, [Step.Leave(m)]) && Concludes(s, Run(s, [Step.Leave(m)]), m, Left)
  {
    assert [Step<E>.Leave(m)][1..] == [];
  }

  lemma SettlingIsARun<E>(s: State<E>, m: nat, dead: bool, lands: bool) returns (steps: seq<Step<E>>)
    requires InHand(s, m) && s.members[m].partition < |s.committed| && (dead ==> s.members[m].attempt >= s.maxAttempts)
    ensures Legal(s, steps) && Concludes(s, Run(s, steps), m, if lands then Done(dead) else Left)
  {
    var settle: Step<E> := if dead then DeadLetter(m) else if s.rows[Hand(s, m)].wanted then Accept(m) else Skip(m);
    var last: Step<E> := if lands then Step.Commit(m) else Step.Leave(m);
    steps := [settle, last];
    assert steps[1..] == [last] && [last][1..] == [];
    var settled := Next(s, settle);
    assert Run(settled, [last]) == Run(Next(settled, last), []) && Run(s, steps) == Run(settled, steps[1..]);
    assert Legal(Next(settled, last), []) && Legal(settled, [last]);
  }

  /** Everything process may do with a message is a run of the pipeline that ends the same way. */
  lemma ProcessIsARun<E>(s: State<E>, m: nat, handles: nat -> bool, sleeps: nat -> bool, dlq: bool, commit: Commits)
    returns (steps: seq<Step<E>>)
    requires InHand(s, m) && s.members[m].attempt == 1 && s.maxAttempts >= 1
    requires s.members[m].partition < |s.committed|
    ensures Legal(s, steps)
    ensures Concludes(s, Run(s, steps), m, Concluded(Attempts(1, s.maxAttempts, handles, sleeps), dlq, commit))
  {
    var v := Attempts(1, s.maxAttempts, handles, sleeps);
    VerdictMeans(1, s.maxAttempts, handles, sleeps);
    var made := match v case Handled(k) => k case GaveUp => s.maxAttempts case Interrupted(k) => k;
    var fails := FailsRun(s, m, made);
    var reached := Run(s, fails);
    var rest: seq<Step<E>>;
    if v.Interrupted? || (v.GaveUp? && !dlq) {
      rest := [Step.Leave(m)];
      LeavingIsARun(reached, m);
    } else {
      rest := SettlingIsARun(reached, m, v.GaveUp?, commit.Lands?);
    }
    Relay.RunAppends(s, fails, rest);
    steps := fails + rest;
  }

  // ---------------------------------------------------------------------------
  // The loop

  /** How the world treats each message of a partition: which attempts at it succeed, which waits are not
      cut short, whether its dead letter is taken, and how its commit ends. */
  datatype Environment = Environment(
    handles: nat -> nat -> bool, sleeps: nat -> nat -> bool, dlq: nat -> bool, commit: nat -> Commits)

  function OutcomeAt(env: Environment, maxAttempts: nat, at: nat): Outcome {
    Concluded(Attempts(1, maxAttempts, env.handles(at), env.sleeps(at)), env.dlq(at), env.commit(at))
  }

  /** The message there is done with: it was accepted or its dead letter taken, and its commit landed. */
  ghost predicate DoneWith(env: Environment, maxAttempts: nat, at: nat) {
    && env.commit(at) == Lands
    && (|| Accepted(maxAttempts, env.handles(at), env.sleeps(at))
        || (Exhausted(maxAttempts, env.handles(at), env.sleeps(at)) && env.dlq(at)))
  }

  /** The message there fails the loop: its dead letter was not taken, or its commit failed for another
      reason than a shutdown. */
  ghost predicate FailsTheLoop(env: Environment, maxAttempts: nat, at: nat) {
    var exhausted := Exhausted(maxAttempts, env.handles(at), env.sleeps(at));
    || (exhausted && !env.dlq(at))
    || (env.commit(at) == Fails && (exhausted || Accepted(maxAttempts, env.handles(at), env.sleeps(at))))
  }

  lemma OutcomeAtIs(env: Environment, maxAttempts: nat, at: nat)
    requires maxAttempts >= 1
    ensures OutcomeAt(env, maxAttempts, at).Done? <==> DoneWith(env, maxAttempts, at)
    ensures OutcomeAt(env, maxAttempts, at).Errored? <==> FailsTheLoop(env, maxAttempts, at)
  {
    ConcludesRightly(maxAttempts, env.handles(at), env.sleeps(at), env.dlq(at), env.commit(at));
    var o := OutcomeAt(env, maxAttempts, at);
    assert o.Done? ==> o == Done(false) || o == Done(true);
  }

  method Handle(env: Environment, maxAttempts: nat, at: nat) returns (o: Outcome)
    requires maxAttempts >= 1
    ensures o.Done? <==> DoneWith(env, maxAttempts, at)
    ensures o.Errored? <==> FailsTheLoop(env, maxAttempts, at)
  {
    OutcomeAtIs(env, maxAttempts, at);
    var calls;
    o, calls := Process(maxAttempts, env.handles(at), env.sleeps(at), env.dlq(at), env.commit(at));
  }

  /** A member about to fetch the message at an offset of its partition's log, which is the committed one. */
  ghost predicate AtOffset<E>(s: State<E>, m: nat, p: nat, at: nat) {
    && Inv(s) && m in s.members && s.members[m] == Idle(p, at)
    && p < |s.logs| && p < |s.committed| && s.committed[p] == at <= |s.logs[p]|
  }

  lemma FetchedInHand<E>(s: State<E>, m: nat, p: nat, at: nat)
    requires AtOffset(s, m, p, at) && at < |s.logs[p]|
    ensures Enabled(s, Step.Fetch(m)) && Next(s, Step.Fetch(m)) == s.(members := s.members[m := Working(p, at, 1)])
    ensures InHand(Next(s, Step.Fetch(m)), m)
  {
    assert EntryOk(s.rows, |s.logs|, p, s.logs[p][at]);
  }

  /** One message, fetched and processed. */
  lemma OneMessageIsARun<E>(s: State<E>, m: nat, p: nat, at: nat, env: Environment) returns (steps: seq<Step<E>>)
    requires AtOffset(s, m, p, at) && at < |s.logs[p]| && s.maxAttempts >= 1
    ensures Legal(s, steps)
    ensures var after := Run(s, steps);
            && Inv(after) && after.logs == s.logs && after.maxAttempts == s.maxAttempts
            && (OutcomeAt(env, s.maxAttempts, at).Done? ==>
                 AtOffset(after, m, p, at + 1) && after.committed == s.committed[p := at + 1])
            && (!OutcomeAt(env, s.maxAttempts, at).Done? ==> after.committed == s.committed)
  {
    FetchedInHand(s, m, p, at);
    var fetched := Next(s, Step.Fetch(m));
    var rest := ProcessIsARun(fetched, m, env.handles(at), env.sleeps(at), env.dlq(at), env.commit(at));
    steps := [Step.Fetch(m)] + rest;
    assert steps[1..] == rest;
    DeliverySafety.RunKeepsInv(s, steps);
  }

  /** The messages from one offset up to another are all done with. */
  ghost predicate DoneTo(env: Environment, maxAttempts: nat, start: nat, upTo: nat) {
    forall at :: start <= at < upTo ==> DoneWith(env, maxAttempts, at)
  }

  /** What a member's steps have come to: the offset committed, and everything behind it dealt with. */
  ghost predicate Reached<E>(s: State<E>, steps: seq<Step<E>>, p: nat, offset: nat) {
    && Legal(s, steps) && p < |s.committed|
    && var now := Run(s, steps);
       Inv(now) && now.logs == s.logs && now.maxAttempts == s.maxAttempts
       && now.committed == s.committed[p := offset] && AllDealt(now, p, offset)
  }

  /** And the member is ready for the message there. */
  ghost predicate Ready<E>(s: State<E>, steps: seq<Step<E>>, m: nat, p: nat, offset: nat) {
    Reached(s, steps, p, offset) && AtOffset(Run(s, steps), m, p, offset)
  }

  lemma ReachedAtFirst<E>(s: State<E>, m: nat, p: nat, at: nat)
    requires AtOffset(s, m, p, at)
    ensures Ready(s, [], m, p, at)
  {
    assert AllDealt(s, p, s.committed[p]);
    assert s.committed[p := at] == s.committed;
  }

  lemma ReachedFurther<E>(s: State<E>, steps: seq<Step<E>>, m: nat, p: nat, at: nat, env: Environment)
    returns (all: seq<Step<E>>)
    requires Ready(s, steps, m, p, at) && p < |s.logs| && at < |s.logs[p]| && s.maxAttempts >= 1
    ensures DoneWith(env, s.maxAttempts, at) ==> Ready(s, all, m, p, at + 1)
    ensures !DoneWith(env, s.maxAttempts, at) ==> Reached(s, all, p, at)
  {
    OutcomeAtIs(env, s.maxAttempts, at);
    var more := OneMessageIsARun(Run(s, steps), m, p, at, env);
    Relay.RunAppends(s, steps, more);
    all := steps + more;
    var now := Run(s, all);
    assert AllDealt(now, p, now.committed[p]);
  }

  lemma {:induction false} ReachedThrough<E>(s: State<E>, steps: seq<Step<E>>, m: nat, p: nat, at: nat, upTo: nat,
                                             env: Environment)
    returns (all: seq<Step<E>>)
    requires Ready(s, steps, m, p, at) && p < |s.logs| && at <= upTo <= |s.logs[p]| && s.maxAttempts >= 1
    requires DoneTo(env, s.maxAttempts, at, upTo)
    ensures Ready(s, all, m, p, upTo)
    decreases upTo - at
  {
    all := steps;
    if at < upTo {
      var next := ReachedFurther(s, steps, m, p, at, env);
      all := ReachedThrough(s, next, m, p, at + 1, upTo, env);
    }
  }

  /** A loop that was done with every message up to an offset, and not with the one there, is a run that
      commits that offset. */
  lemma ConsumingIsARun<E>(s: State<E>, m: nat, p: nat, start: nat, committed: nat, env: Environment)
    returns (steps: seq<Step<E>>)
    requires AtOffset(s, m, p, start) && start <= committed <= |s.logs[p]| && s.maxAttempts >= 1
    requires DoneTo(env, s.maxAttempts, start, committed)
    requires committed < |s.logs[p]| ==> !DoneWith(env, s.maxAttempts, committed)
    ensures Reached(s, steps, p, committed)
  {
    ReachedAtFirst(s, m, p, start);
    steps := ReachedThrough(s, [], m, p, start, committed, env);
    if committed < |s.logs[p]| {
      steps := ReachedFurther(s, steps, m, p, committed, env);
    }
  }

  /** A member's loop over its partition's log from the committed offset on. It stops at an error, and at
      a shutdown, after which no fetch succeeds: so the offset it leaves committed is that of the first
      message it was not done with, and everything behind that has been dealt with. */
  method Consume<E>(ghost s: State<E>, ghost m: nat, ghost p: nat, log: seq<nat>, start: nat, maxAttempts: nat,
                    env: Environment)
    returns (committed: nat, failed: bool, ghost steps: seq<Step<E>>)
    requires AtOffset(s, m, p, start) && s.logs[p] == log && s.maxAttempts == maxAttempts >= 1
    ensures start <= committed <= |log|
    ensures DoneTo(env, maxAttempts, start, committed)
    ensures committed < |log| ==> !DoneWith(env, maxAttempts, committed)
    ensures failed <==> committed < |log| && FailsTheLoop(env, maxAttempts, committed)
    ensures Reached(s, steps, p, committed)
  {
    committed, failed := ConsumeLog(log, start, maxAttempts, env);
    steps := ConsumingIsARun(s, m, p, start, committed, env);
  }

  method ConsumeLog(log: seq<nat>, start: nat, maxAttempts: nat, env: Environment)
    returns (committed: nat, failed: bool)
    requires start <= |log| && maxAttempts >= 1
    ensures start <= committed <= |log|
    ensures DoneTo(env, maxAttempts, start, committed)
    ensures committed < |log| ==> !DoneWith(env, maxAttempts, committed)
    ensures failed <==> committed < |log| && FailsTheLoop(env, maxAttempts, committed)
  {
    committed, failed := start, false;
    while committed < |log|
      invariant start <= committed <= |log| && !failed
      invariant DoneTo(env, maxAttempts, start, committed)
    {
      var outcome := Handle(env, maxAttempts, committed);
      if !outcome.Done? {
        failed := outcome.Errored?;
        return;
      }
      committed := committed + 1;
    }
  }

  // ---------------------------------------------------------------------------
  // The inbox

  datatype Claimed = Taken | Duplicate | Incomplete

  class Inbox {
    var processed: set<(string, string)>

    constructor ()
      ensures processed == {}
    {
      processed := {};
    }

    /** Of any number of claims of one event by one group, one is told it took it; an event without an
        id is refused rather than stored, since every other such event would collide with it. */
    method Claim(group: string, event: string) returns (r: Claimed)
      modifies this
      ensures r.Incomplete? <==> group == "" || event == ""
      ensures r.Taken? <==> group != "" && event != "" && (group, event) !in old(processed)
      ensures processed == if r.Taken? then old(processed) + {(group, event)} else old(processed)
    {
      if group == "" || event == "" {
        return Incomplete;
      }
      if (group, event) in processed {
        return Duplicate;
      }
      processed := processed + {(group, event)};
      return Taken;
    }
  }
}
