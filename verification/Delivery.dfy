/** One event's way from the transaction that raised it to the transaction it causes: the outbox
    table, the relay, the partitions of a topic, one consumer group, and the group's inbox. Every
    part of it may crash and repeat itself. An outbox row's position is its id and stands for the id
    of the event it carries. */
module Delivery {

  /** Open until the transaction that wrote the row ends. */
  datatype RowState = Open | Visible | RolledBack

  /** wanted says whether the group's handler dispatches on events of this type. */
  datatype Row<E> = Row(key: nat, event: E, wanted: bool, state: RowState, published: bool)

  /** The relay's transaction: the rows it claimed, and those the broker has taken so far. */
  datatype Batch = NoBatch | Batch(ids: seq<nat>, sent: set<nat>)

  /** A member of the group on one partition. Working holds the message at position; Settled has had
      it accepted or dead-lettered and has yet to commit the offset. */
  datatype Member =
    | Idle(partition: nat, position: nat)
    | Working(partition: nat, position: nat, attempt: nat)
    | Settled(partition: nat, position: nat)

  datatype State<E> = State(
    maxAttempts: nat,
    rows: seq<Row<E>>,
    batch: Batch,
    logs: seq<seq<nat>>,
    committed: seq<nat>,
    members: map<nat, Member>,
    inbox: set<nat>,
    effects: seq<nat>,
    accepted: set<(nat, nat)>,
    dead: set<(nat, nat)>)

  datatype Step<E> =
    | Write(key: nat, event: E, wanted: bool)
    | Show(id: nat)
    | Undo(id: nat)
    | Claim(limit: nat)
    | Send(id: nat)
    | Mark
    | Drop
    | Join(m: nat, partition: nat)
    | Fetch(m: nat)
    | Fail(m: nat)
    | Skip(m: nat)
    | Accept(m: nat)
    | DeadLetter(m: nat)
    | Commit(m: nat)
    | Leave(m: nat)

  /** The partition a key's messages go to. */
  function Partition(parts: nat, key: nat): nat {
    if parts == 0 then 0 else key % parts
  }

  /** The unpublished visible rows from id n on, at most limit of them, in id order. */
  function ClaimFrom<E>(rows: seq<Row<E>>, n: nat, limit: nat): seq<nat>
    decreases |rows| - n
  {
    if n >= |rows| || limit == 0 then []
    else if rows[n].state == Visible && !rows[n].published then [n] + ClaimFrom(rows, n + 1, limit - 1)
    else ClaimFrom(rows, n + 1, limit)
  }

  function MarkRows<E>(rows: seq<Row<E>>, ids: seq<nat>): (r: seq<Row<E>>)
    ensures |r| == |rows|
    ensures forall i :: 0 <= i < |rows| ==> r[i] == if i in ids then rows[i].(published := true) else rows[i]
  {
    seq(|rows|, i requires 0 <= i < |rows| => if i in ids then rows[i].(published := true) else rows[i])
  }

  function Init<E>(parts: nat, maxAttempts: nat): State<E> {
    State(maxAttempts, [], NoBatch, seq(parts, i => []), seq(parts, i => 0), map[], {}, [], {}, {})
  }

  /** Whether a member has a message in hand, and the event it carries. */
  predicate InHand<E>(s: State<E>, m: nat) {
    && m in s.members && s.members[m].Working?
    && s.members[m].partition < |s.logs| && s.members[m].position < |s.logs[s.members[m].partition]|
    && s.logs[s.members[m].partition][s.members[m].position] < |s.rows|
  }

  function Hand<E>(s: State<E>, m: nat): nat
    requires InHand(s, m)
  {
    s.logs[s.members[m].partition][s.members[m].position]
  }

  ghost predicate Enabled<E>(s: State<E>, step: Step<E>) {
    match step
    case Write(_, _, _) => true
    case Show(i) =>
      // The transaction that raised an aggregate's earlier event held the aggregate's row, so a later
      // one of the same aggregate cannot have become visible before it.
      i < |s.rows| && s.rows[i].state == Open
      && forall j :: 0 <= j < i && s.rows[j].key == s.rows[i].key ==> s.rows[j].state != Open
    case Undo(i) => i < |s.rows| && s.rows[i].state == Open
    case Claim(_) => s.batch.NoBatch?
    case Send(id) =>
      // The broker keeps a key's messages in the order they were handed over; it may take any of
      // them again, and may stop anywhere.
      s.batch.Batch? && id in s.batch.ids && id < |s.rows|
      && forall j :: j in s.batch.ids && j < id && s.rows[j].key == s.rows[id].key ==> j in s.batch.sent
    case Mark => s.batch.Batch? && forall j :: j in s.batch.ids ==> j in s.batch.sent
    case Drop => s.batch.Batch?
    case Join(m, p) => m !in s.members && p < |s.committed|
    case Fetch(m) =>
      m in s.members && s.members[m].Idle? && s.members[m].partition < |s.logs|
      && s.members[m].position < |s.logs[s.members[m].partition]|
    case Fail(m) => m in s.members && s.members[m].Working? && s.members[m].attempt < s.maxAttempts
    case Skip(m) => InHand(s, m) && !s.rows[Hand(s, m)].wanted
    case Accept(m) => InHand(s, m) && s.rows[Hand(s, m)].wanted
    case DeadLetter(m) => m in s.members && s.members[m].Working? && s.members[m].attempt >= s.maxAttempts
    case Commit(m) => m in s.members && s.members[m].Settled? && s.members[m].partition < |s.committed|
    case Leave(m) => m in s.members
  }

  function Settle<E>(s: State<E>, m: nat): Member
    requires m in s.members
  {
    Settled(s.members[m].partition, s.members[m].position)
  }

  function Place<E>(s: State<E>, m: nat): (nat, nat)
    requires m in s.members
  {
    (s.members[m].partition, s.members[m].position)
  }

  function Next<E>(s: State<E>, step: Step<E>): State<E> {
    match step
    case Write(key, event, wanted) => s.(rows := s.rows + [Row(key, event, wanted, Open, false)])
    case Show(i) => if i < |s.rows| then s.(rows := s.rows[i := s.rows[i].(state := Visible)]) else s
    case Undo(i) => if i < |s.rows| then s.(rows := s.rows[i := s.rows[i].(state := RolledBack)]) else s
    case Claim(limit) =>
      var ids := ClaimFrom(s.rows, 0, limit);
      s.(batch := if ids == [] then NoBatch else Batch(ids, {}))
    case Send(id) =>
      if s.batch.NoBatch? || id >= |s.rows| then s
      else
        var p := Partition(|s.logs|, s.rows[id].key);
        if p >= |s.logs| then s
        else s.(batch := s.batch.(sent := s.batch.sent + {id}), logs := s.logs[p := s.logs[p] + [id]])
    case Mark => if s.batch.NoBatch? then s else s.(rows := MarkRows(s.rows, s.batch.ids), batch := NoBatch)
    case Drop => s.(batch := NoBatch)
    case Join(m, p) => if p < |s.committed| then s.(members := s.members[m := Idle(p, s.committed[p])]) else s
    case Fetch(m) =>
      if m !in s.members then s
      else s.(members := s.members[m := Working(s.members[m].partition, s.members[m].position, 1)])
    case Fail(m) =>
      if m in s.members && s.members[m].Working? then
        s.(members := s.members[m := s.members[m].(attempt := s.members[m].attempt + 1)])
      else s
    case Skip(m) =>
      if m in s.members then s.(members := s.members[m := Settle(s, m)], accepted := s.accepted + {Place(s, m)}) else s
    case Accept(m) =>
      if InHand(s, m) then
        var id := Hand(s, m);
        s.(members := s.members[m := Settle(s, m)],
           accepted := s.accepted + {Place(s, m)},
           inbox := s.inbox + {id},
           effects := if id in s.inbox then s.effects else s.effects + [id])
      else s
    case DeadLetter(m) =>
      if m in s.members then s.(members := s.members[m := Settle(s, m)], dead := s.dead + {Place(s, m)}) else s
    case Commit(m) =>
      if m in s.members && s.members[m].partition < |s.committed| then
        var (p, o) := Place(s, m);
        s.(members := s.members[m := Idle(p, o + 1)], committed := s.committed[p := o + 1])
      else s
    case Leave(m) => s.(members := s.members - {m})
  }

  // ---------------------------------------------------------------------------
  // Invariants: the relay

  /** An aggregate's rows become visible in id order. */
  ghost predicate VisibleInOrder<E>(rows: seq<Row<E>>) {
    forall i, j :: 0 <= i < j < |rows| && rows[i].key == rows[j].key && rows[j].state == Visible ==>
      rows[i].state != Open
  }

  /** What is published was visible, and so were and are an aggregate's earlier events. */
  ghost predicate PublishedFirst<E>(rows: seq<Row<E>>) {
    && (forall i :: 0 <= i < |rows| && rows[i].published ==> rows[i].state == Visible)
    && (forall i, j ::
          0 <= i < j < |rows| && rows[i].key == rows[j].key && rows[j].published && rows[i].state == Visible ==>
            rows[i].published)
  }

  /** Claimed rows are waiting ones, and an aggregate's earlier events are published or claimed too. */
  ghost predicate BatchOk<E>(rows: seq<Row<E>>, batch: Batch) {
    batch.Batch? ==>
      && (forall j :: j in batch.ids ==> j < |rows| && rows[j].state == Visible && !rows[j].published)
      && (forall i, j ::
            j in batch.ids && 0 <= i < j < |rows| && rows[i].key == rows[j].key && rows[i].state == Visible ==>
              rows[i].published || i in batch.ids)
      && (forall j :: j in batch.sent ==> j in batch.ids)
  }

  /** A message is in its key's partition and its row is visible. */
  ghost predicate EntryOk<E>(rows: seq<Row<E>>, parts: nat, p: nat, id: nat) {
    id < |rows| && rows[id].state == Visible && Partition(parts, rows[id].key) == p
  }

  ghost predicate EntriesOk<E>(rows: seq<Row<E>>, logs: seq<seq<nat>>) {
    forall p, o :: 0 <= p < |logs| && 0 <= o < |logs[p]| ==> EntryOk(rows, |logs|, p, logs[p][o])
  }

  /** Whenever an event appears, its aggregate's earlier events have appeared before. */
  ghost predicate InOrder<E>(rows: seq<Row<E>>, log: seq<nat>) {
    forall i, o :: 0 <= o < |log| && log[o] < |rows| && 0 <= i < log[o] && rows[i].key == rows[log[o]].key
      && rows[i].state == Visible
      ==> i in log[..o]
  }

  ghost predicate LogsInOrder<E>(rows: seq<Row<E>>, logs: seq<seq<nat>>) {
    forall p :: 0 <= p < |logs| ==> InOrder(rows, logs[p])
  }

  ghost predicate Reached<E>(rows: seq<Row<E>>, logs: seq<seq<nat>>, id: nat) {
    id < |rows| && Partition(|logs|, rows[id].key) < |logs| && id in logs[Partition(|logs|, rows[id].key)]
  }

  /** Published rows, and rows the broker took from the current batch, are in the log. */
  ghost predicate NothingLost<E>(s: State<E>) {
    && (forall i :: 0 <= i < |s.rows| && s.rows[i].published ==> Reached(s.rows, s.logs, i))
    && (s.batch.Batch? ==> forall i :: i in s.batch.sent ==> Reached(s.rows, s.logs, i))
  }

  ghost predicate RelayInv<E>(s: State<E>) {
    && |s.logs| > 0
    && VisibleInOrder(s.rows) && PublishedFirst(s.rows) && BatchOk(s.rows, s.batch)
    && EntriesOk(s.rows, s.logs) && LogsInOrder(s.rows, s.logs) && NothingLost(s)
  }

  // ---------------------------------------------------------------------------
  // Invariants: the consumer

  /** The message at this place has been accepted or dead-lettered, and if its event is one the group
      handles and was accepted, its effect has committed. */
  ghost predicate Dealt<E>(s: State<E>, p: nat, o: nat) {
    && p < |s.logs| && o < |s.logs[p]|
    && ((p, o) in s.accepted || (p, o) in s.dead)
  }

  ghost predicate AllDealt<E>(s: State<E>, p: nat, upTo: nat) {
    forall o :: 0 <= o < upTo ==> Dealt(s, p, o)
  }

  ghost predicate AcceptedOk<E>(s: State<E>) {
    forall a :: a in s.accepted ==>
      && a.0 < |s.logs| && a.1 < |s.logs[a.0]|
      && (s.logs[a.0][a.1] < |s.rows| && s.rows[s.logs[a.0][a.1]].wanted ==> s.logs[a.0][a.1] in s.inbox)
  }

  ghost predicate MemberOk<E>(s: State<E>, m: Member) {
    && m.partition < |s.logs| && AllDealt(s, m.partition, m.position)
    && (m.Working? ==> m.position < |s.logs[m.partition]|)
    && (m.Settled? ==> Dealt(s, m.partition, m.position))
  }

  ghost predicate Distinct(effects: seq<nat>) {
    forall i, j :: 0 <= i < j < |effects| ==> effects[i] != effects[j]
  }

  /** The inbox names exactly the events whose effect has committed, each of them once. */
  ghost predicate EffectsOk<E>(s: State<E>) {
    && Distinct(s.effects)
    && (forall id :: id in s.inbox <==> id in s.effects)
    && (forall id :: id in s.effects ==> id < |s.rows| && s.rows[id].state == Visible && s.rows[id].wanted)
  }

  ghost predicate ConsumerInv<E>(s: State<E>) {
    && |s.logs| > 0 && |s.committed| == |s.logs|
    && (forall p :: 0 <= p < |s.committed| ==> AllDealt(s, p, s.committed[p]))
    && (forall m :: m in s.members ==> MemberOk(s, s.members[m]))
    && AcceptedOk(s) && EffectsOk(s)
  }

  ghost predicate Inv<E>(s: State<E>) {
    RelayInv(s) && ConsumerInv(s)
  }

  ghost predicate Legal<E>(s: State<E>, steps: seq<Step<E>>)
    decreases |steps|
  {
    steps == [] || (Enabled(s, steps[0]) && Legal(Next(s, steps[0]), steps[1..]))
  }

  function Run<E>(s: State<E>, steps: seq<Step<E>>): State<E>
    decreases |steps|
  {
    if steps == [] then s else Run(Next(s, steps[0]), steps[1..])
  }
}
