/** The ledger's transactions as takers of row locks: the canonical form of every line list in the
    tables is what keeps any number of them from blocking one another for good. */
module LedgerLocks {
  import opened CanonicalLines
  import opened StockLedger
  import LedgerSafety
  import opened LockOrder
  import opened SweepLocks

  datatype Ask = Reserve(order: nat, requested: seq<Line>) | Settle(id: nat)

  /** The rows a request's transaction takes, in the order its statements name them. */
  function PlanOf(db: Db, ask: Ask): seq<Lock> {
    match ask
    case Reserve(order, requested) =>
      if Admissible(requested) && Canonicalise(requested).Canonical?
      then ReservePlan(order, Canonicalise(requested).lines) else []
    case Settle(id) =>
      if id < |db.rows| then SettlePlan(id, db.rows[id].order, db.rows[id].lines) else []
  }

  function Started(db: Db, asks: seq<Ask>): (r: seq<Tx>)
    ensures |r| == |asks| && forall i :: 0 <= i < |r| ==> r[i] == Begin(PlanOf(db, asks[i]))
  {
    seq(|asks|, i requires 0 <= i < |asks| => Begin(PlanOf(db, asks[i])))
  }

  lemma PlanAscends(swept: int, db: Db, ask: Ask)
    requires RowsOk(db) && !(ask.Settle? && ask.id == swept)
    ensures Ascending(swept, PlanOf(db, ask))
  {
    match ask
    case Reserve(order, requested) =>
      if Admissible(requested) && Canonicalise(requested).Canonical? {
        CanonicalForm(requested);
        PlansAscend(swept, Canonicalise(requested).lines, order, 0);
      }
    case Settle(id) =>
      if id < |db.rows| {
        assert RowOk(db.stock, db.rows[id]);
        PlansAscend(swept, db.rows[id].lines, db.rows[id].order, id);
      }
  }

  /** Start any reserves, commits and releases together on any reachable ledger: whatever order they are
      run in, some one of them can always go on, and all of them finish. */
  lemma RequestsNeverDeadlock(history: seq<StockLedger.Step>, asks: seq<Ask>, steps: seq<LockOrder.Step>)
    requires StockLedger.Legal(EMPTY, history)
    requires LockOrder.Legal(Started(StockLedger.Run(EMPTY, history).db, asks), steps)
    ensures var txs := Started(StockLedger.Run(EMPTY, history).db, asks);
            && |steps| <= Work(txs)
            && !Stuck(LockOrder.Run(txs, steps))
  {
    var db := StockLedger.Run(EMPTY, history).db;
    LedgerSafety.RunKeepsInv(EMPTY, history);
    forall i | 0 <= i < |asks| ensures Ascending(-1, PlanOf(db, asks[i])) {
      PlanAscends(-1, db, asks[i]);
    }
    EveryRunFinishes(-1, Started(db, asks), steps);
  }

  /** A reservation as a sweep claims it. */
  function Claim(db: Db, id: nat): Claimed
    requires id < |db.rows|
  {
    Claimed(id, db.rows[id].order, db.rows[id].lines)
  }

  /** A sweep of one reservation started beside them, and any of them started together. */
  function StartedBesideSweep(db: Db, id: nat, asks: seq<Ask>): seq<Tx>
    requires id < |db.rows|
  {
    [Begin(BatchPlan([Claim(db, id)]))] + Started(db, asks)
  }

  /** Nor does a sweep that claimed one reservation block any number of them for good, unless one is to
      commit or release that reservation. */
  lemma SweepOfOneNeverDeadlocks(
    history: seq<StockLedger.Step>, id: nat, asks: seq<Ask>, steps: seq<LockOrder.Step>)
    requires StockLedger.Legal(EMPTY, history) && id < |StockLedger.Run(EMPTY, history).db.rows|
    requires Settle(id) !in asks
    requires LockOrder.Legal(StartedBesideSweep(StockLedger.Run(EMPTY, history).db, id, asks), steps)
    ensures var txs := StartedBesideSweep(StockLedger.Run(EMPTY, history).db, id, asks);
            && |steps| <= Work(txs)
            && !Stuck(LockOrder.Run(txs, steps))
  {
    var db := StockLedger.Run(EMPTY, history).db;
    LedgerSafety.RunKeepsInv(EMPTY, history);
    assert RowOk(db.stock, db.rows[id]);
    BatchOfOneAscends(Claim(db, id));
    forall i | 0 <= i < |asks| ensures Ascending(id, PlanOf(db, asks[i])) {
      assert asks[i] in asks;
      PlanAscends(id, db, asks[i]);
    }
    EveryRunFinishes(id, StartedBesideSweep(db, id, asks), steps);
  }
}
