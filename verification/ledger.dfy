/**
 * The inventory ledger: the stock table (one Stock row per product) and the
 * stock_movements table, with the effect of StockServiceImpl's write path
 * stated as pure functions over the two tables. Every movement row stores
 * the signed change it made, so the ledger invariant is that each product's
 * quantity equals the sum of its stored movement quantities and is never
 * negative.
 */
module Ledger {
  import opened Wrappers
  import opened MovementTypes

  /** LocalDateTime, as a number of seconds. */
  type Time = int

  /** A row of the stock table; the table is keyed by product id (one Stock per product). */
  datatype StockRow = StockRow(quantityAvailable: int, lastUpdated: Time)

  /** A row of the stock_movements table; `quantity` is the signed change it records. */
  datatype Movement = Movement(
    productId: int,
    movementType: MovementType,
    quantity: int,
    referenceId: Option<int>,
    notes: Option<string>,
    movementDate: Time)

  function Contribution(m: Movement, pid: int): int
  {
    if m.productId == pid then m.quantity else 0
  }

  /** The sum of the stored quantities of `pid`'s movements. */
  function SumFor(log: seq<Movement>, pid: int): int
    decreases |log|
  {
    if log == [] then 0 else SumFor(log[..|log| - 1], pid) + Contribution(log[|log| - 1], pid)
  }

  lemma SumForAppend(log: seq<Movement>, m: Movement, pid: int)
    ensures SumFor(log + [m], pid) == SumFor(log, pid) + Contribution(m, pid)
  {
    assert (log + [m])[..|log|] == log;
  }

  lemma {:induction false} SumForAbsent(log: seq<Movement>, pid: int)
    requires forall i :: 0 <= i < |log| ==> log[i].productId != pid
    ensures SumFor(log, pid) == 0
    decreases |log|
  {
    if log != [] {
      SumForAbsent(log[..|log| - 1], pid);
    }
  }

  /**
   * The ledger invariant: every movement belongs to a product that has a
   * Stock row, and each Stock's quantity is the sum of its product's stored
   * movement quantities and is not negative.
   */
  predicate Consistent(stocks: map<int, StockRow>, log: seq<Movement>)
  {
    (forall i :: 0 <= i < |log| ==> log[i].productId in stocks)
    && (forall pid :: pid in stocks ==> stocks[pid].quantityAvailable == SumFor(log, pid))
    && (forall pid :: pid in stocks ==> stocks[pid].quantityAvailable >= 0)
  }

  /** The quantity updateStockQuantity starts from: the stored one, or 0 for a product without a Stock. */
  function QuantityOf(stocks: map<int, StockRow>, pid: int): int
  {
    if pid in stocks then stocks[pid].quantityAvailable else 0
  }

  /** The stock table after "find or create" (StockServiceImpl.java:119-131). */
  function WithStock(stocks: map<int, StockRow>, pid: int, now: Time): (r: map<int, StockRow>)
    ensures pid in r && r[pid].quantityAvailable == QuantityOf(stocks, pid)
    ensures pid in stocks ==> r == stocks
    ensures forall p :: p != pid ==> (p in r <==> p in stocks)
    ensures forall p :: p != pid && p in stocks ==> r[p] == stocks[p]
  {
    if pid in stocks then stocks else stocks[pid := StockRow(0, now)]
  }

  /** A Stock created at 0 with no movement keeps the ledger consistent. */
  lemma SeedKeepsConsistent(stocks: map<int, StockRow>, log: seq<Movement>, pid: int, now: Time)
    requires Consistent(stocks, log)
    ensures Consistent(WithStock(stocks, pid, now), log)
  {
    if pid !in stocks {
      SumForAbsent(log, pid);
    }
  }

  /** The two tables after one updateStockQuantity call on an existing product. */
  datatype Recorded = Recorded(stocks: map<int, StockRow>, log: seq<Movement>, applied: bool)

  /**
   * updateStockQuantity(pid, change, t, ref, notes) for a product that
   * exists, as its transaction commits it: the Stock is found or created at
   * 0; a change that would make it negative is refused and the transaction
   * rolls back (so a Stock created on the way is not kept), otherwise the
   * quantity moves by `change` and exactly one movement recording `change`
   * is appended.
   */
  function Record(stocks: map<int, StockRow>, log: seq<Movement>, pid: int, t: MovementType,
                  change: int, ref: Option<int>, notes: Option<string>, now: Time): (r: Recorded)
    ensures r.applied <==> QuantityOf(stocks, pid) + change >= 0
    ensures r.applied ==> pid in r.stocks && r.stocks[pid] == StockRow(QuantityOf(stocks, pid) + change, now)
    ensures r.applied ==> r.log == log + [Movement(pid, t, change, ref, notes, now)]
    ensures !r.applied ==> r.stocks == stocks && r.log == log
    ensures forall p :: p != pid ==> (p in r.stocks <==> p in stocks)
    ensures forall p :: p != pid && p in stocks ==> r.stocks[p] == stocks[p]
  {
    var found := WithStock(stocks, pid, now);
    var q := found[pid].quantityAvailable;
    if q + change < 0 then
      Recorded(stocks, log, false)
    else
      Recorded(found[pid := StockRow(q + change, now)], log + [Movement(pid, t, change, ref, notes, now)], true)
  }

  /** The write path keeps the ledger invariant, whether it applies the change or refuses it. */
  lemma RecordKeepsConsistent(stocks: map<int, StockRow>, log: seq<Movement>, pid: int, t: MovementType,
                              change: int, ref: Option<int>, notes: Option<string>, now: Time)
    requires Consistent(stocks, log)
    ensures var r := Record(stocks, log, pid, t, change, ref, notes, now); Consistent(r.stocks, r.log)
  {
    var found := WithStock(stocks, pid, now);
    SeedKeepsConsistent(stocks, log, pid, now);
    var r := Record(stocks, log, pid, t, change, ref, notes, now);
    if r.applied {
      var m := Movement(pid, t, change, ref, notes, now);
      forall p | p in r.stocks
        ensures r.stocks[p].quantityAvailable == SumFor(r.log, p)
      {
        SumForAppend(log, m, p);
      }
    }
  }

  /** One call of the write path, with its arguments. */
  datatype Request = Request(productId: int, movementType: MovementType, change: int,
                             referenceId: Option<int>, notes: Option<string>, date: Time)

  /** A sequence of write-path calls, each applied or refused in turn. */
  function Replay(stocks: map<int, StockRow>, log: seq<Movement>, rs: seq<Request>): Recorded
    decreases |rs|
  {
    if rs == [] then Recorded(stocks, log, true)
    else
      var q := rs[0];
      var r := Record(stocks, log, q.productId, q.movementType, q.change, q.referenceId, q.notes, q.date);
      Replay(r.stocks, r.log, rs[1..])
  }

  /**
   * Starting from any consistent ledger (for instance a zero Stock with no
   * movements), after any sequence of write-path calls every product's
   * quantity is the sum of its stored movement quantities and is not negative.
   */
  lemma {:induction false} ReplayKeepsConsistent(stocks: map<int, StockRow>, log: seq<Movement>, rs: seq<Request>)
    requires Consistent(stocks, log)
    ensures var r := Replay(stocks, log, rs);
            Consistent(r.stocks, r.log)
            && forall pid :: pid in r.stocks ==> r.stocks[pid].quantityAvailable == SumFor(r.log, pid) >= 0
    decreases |rs|
  {
    if rs != [] {
      var q := rs[0];
      RecordKeepsConsistent(stocks, log, q.productId, q.movementType, q.change, q.referenceId, q.notes, q.date);
      var r := Record(stocks, log, q.productId, q.movementType, q.change, q.referenceId, q.notes, q.date);
      ReplayKeepsConsistent(r.stocks, r.log, rs[1..]);
    }
  }

  /** One order line as the stock service sees it: a product and a quantity. */
  datatype Demand = Demand(productId: int, quantity: int)

  /** The availability check of StockServiceImpl.java:312-318 for one line. */
  predicate Covered(stocks: map<int, StockRow>, d: Demand)
  {
    d.productId in stocks && stocks[d.productId].quantityAvailable >= d.quantity
  }

  predicate AllCovered(stocks: map<int, StockRow>, ds: seq<Demand>)
  {
    forall i :: 0 <= i < |ds| ==> Covered(stocks, ds[i])
  }

  /** What the unique (order, product) constraint guarantees for one order's lines. */
  predicate DistinctProducts(ds: seq<Demand>)
  {
    forall i, j :: 0 <= i < j < |ds| ==> ds[i].productId != ds[j].productId
  }

  /**
   * The write path called for every line in turn with `sign * quantity`
   * inside one transaction: either every call applies, or the first
   * refusal aborts the transaction and both tables are as they were.
   */
  function RecordEach(stocks: map<int, StockRow>, log: seq<Movement>, ds: seq<Demand>, sign: int,
                      t: MovementType, ref: Option<int>, notes: Option<string>, now: Time): (r: Recorded)
    ensures !r.applied ==> r.stocks == stocks && r.log == log
    decreases |ds|
  {
    if ds == [] then Recorded(stocks, log, true)
    else
      var before := RecordEach(stocks, log, ds[..|ds| - 1], sign, t, ref, notes, now);
      var d := ds[|ds| - 1];
      var r := Record(before.stocks, before.log, d.productId, t, sign * d.quantity, ref, notes, now);
      if before.applied && r.applied then r else Recorded(stocks, log, false)
  }

  /** RecordEach over one more line: the earlier lines' outcome, then that line's. */
  lemma RecordEachSnoc(stocks: map<int, StockRow>, log: seq<Movement>, ds: seq<Demand>, d: Demand, sign: int,
                       t: MovementType, ref: Option<int>, notes: Option<string>, now: Time)
    ensures var before := RecordEach(stocks, log, ds, sign, t, ref, notes, now);
            var r := Record(before.stocks, before.log, d.productId, t, sign * d.quantity, ref, notes, now);
            RecordEach(stocks, log, ds + [d], sign, t, ref, notes, now)
              == if before.applied && r.applied then r else Recorded(stocks, log, false)
  {
    assert (ds + [d])[..|ds|] == ds;
  }

  /** Once a prefix of the lines aborts, the whole transaction aborts. */
  lemma {:induction false} RecordEachAbortPersists(stocks: map<int, StockRow>, log: seq<Movement>, ds: seq<Demand>, k: int,
                                                   sign: int, t: MovementType, ref: Option<int>, notes: Option<string>, now: Time)
    requires 0 <= k <= |ds|
    requires !RecordEach(stocks, log, ds[..k], sign, t, ref, notes, now).applied
    ensures !RecordEach(stocks, log, ds, sign, t, ref, notes, now).applied
    decreases |ds| - k
  {
    if k < |ds| {
      RecordEachSnoc(stocks, log, ds[..k], ds[k], sign, t, ref, notes, now);
      assert ds[..k] + [ds[k]] == ds[..k + 1];
      RecordEachAbortPersists(stocks, log, ds, k + 1, sign, t, ref, notes, now);
    } else {
      assert ds[..k] == ds;
    }
  }

  /** The movements RecordEach appends when every call applies. */
  function MovementsFor(ds: seq<Demand>, sign: int, t: MovementType, ref: Option<int>,
                        notes: Option<string>, now: Time): (ms: seq<Movement>)
    ensures |ms| == |ds|
    ensures forall i :: 0 <= i < |ds| ==> ms[i] == Movement(ds[i].productId, t, sign * ds[i].quantity, ref, notes, now)
  {
    seq(|ds|, i requires 0 <= i < |ds| => Movement(ds[i].productId, t, sign * ds[i].quantity, ref, notes, now))
  }

  lemma MovementsForSnoc(ds: seq<Demand>, sign: int, t: MovementType, ref: Option<int>, notes: Option<string>, now: Time)
    requires ds != []
    ensures var d := ds[|ds| - 1];
            MovementsFor(ds, sign, t, ref, notes, now)
              == MovementsFor(ds[..|ds| - 1], sign, t, ref, notes, now) + [Movement(d.productId, t, sign * d.quantity, ref, notes, now)]
  {
  }

  /** Each line's product holds its old quantity less the line's quantity. */
  ghost predicate LinesTaken(stocks: map<int, StockRow>, ds: seq<Demand>, after: map<int, StockRow>, now: Time)
    requires AllCovered(stocks, ds)
  {
    forall i :: 0 <= i < |ds| ==>
      ds[i].productId in after
      && after[ds[i].productId] == StockRow(stocks[ds[i].productId].quantityAvailable - ds[i].quantity, now)
  }

  /** Every product no line names is as it was. */
  ghost predicate OthersKept(stocks: map<int, StockRow>, ds: seq<Demand>, after: map<int, StockRow>)
  {
    forall p :: (forall i :: 0 <= i < |ds| ==> ds[i].productId != p) ==>
      (p in after <==> p in stocks) && (p in stocks ==> after[p] == stocks[p])
  }

  /**
   * The per-line availability check suffices when the lines name distinct
   * products: then committing the lines one by one never meets a refusal,
   * each line's product drops by exactly its quantity, one movement per
   * line is logged, and no other product changes.
   */
  lemma {:induction false} PerLineCheckSuffices(stocks: map<int, StockRow>, log: seq<Movement>, ds: seq<Demand>,
                                                t: MovementType, ref: Option<int>, notes: Option<string>, now: Time)
    requires DistinctProducts(ds) && AllCovered(stocks, ds)
    ensures var r := RecordEach(stocks, log, ds, -1, t, ref, notes, now);
            && r.applied
            && r.log == log + MovementsFor(ds, -1, t, ref, notes, now)
            && LinesTaken(stocks, ds, r.stocks, now)
            && OthersKept(stocks, ds, r.stocks)
    decreases |ds|
  {
    if ds != [] {
      var n := |ds| - 1;
      var init := ds[..n];
      var d := ds[n];
      DistinctInit(stocks, ds);
      PerLineCheckSuffices(stocks, log, init, t, ref, notes, now);
      var before := RecordEach(stocks, log, init, -1, t, ref, notes, now);
      assert before.stocks[d.productId] == stocks[d.productId];
      var r := Record(before.stocks, before.log, d.productId, t, -1 * d.quantity, ref, notes, now);
      RecordEachSnoc(stocks, log, init, d, -1, t, ref, notes, now);
      assert ds == init + [d];
      MovementsForSnoc(ds, -1, t, ref, notes, now);
      TakenSnoc(stocks, init, d, before.stocks, r.stocks, now);
    }
  }

  /** The first lines of distinct covered lines are distinct and covered, and none names the last line's product. */
  lemma DistinctInit(stocks: map<int, StockRow>, ds: seq<Demand>)
    requires DistinctProducts(ds) && AllCovered(stocks, ds) && ds != []
    ensures var init := ds[..|ds| - 1];
            && DistinctProducts(init) && AllCovered(stocks, init) && Covered(stocks, ds[|ds| - 1])
            && forall i :: 0 <= i < |init| ==> init[i].productId != ds[|ds| - 1].productId
  {
    var init := ds[..|ds| - 1];
    assert forall i :: 0 <= i < |init| ==> init[i] == ds[i];
  }

  /** LinesTaken and OthersKept carry over one more line whose product is new. */
  lemma TakenSnoc(stocks: map<int, StockRow>, init: seq<Demand>, d: Demand,
                  before: map<int, StockRow>, after: map<int, StockRow>, now: Time)
    requires AllCovered(stocks, init) && Covered(stocks, d)
    requires LinesTaken(stocks, init, before, now) && OthersKept(stocks, init, before)
    requires forall i :: 0 <= i < |init| ==> init[i].productId != d.productId
    requires d.productId in after && after[d.productId] == StockRow(stocks[d.productId].quantityAvailable - d.quantity, now)
    requires forall p :: p != d.productId ==> (p in after <==> p in before) && (p in before ==> after[p] == before[p])
    ensures AllCovered(stocks, init + [d])
    ensures LinesTaken(stocks, init + [d], after, now) && OthersKept(stocks, init + [d], after)
  {
    var ds := init + [d];
    forall i | 0 <= i < |ds|
      ensures Covered(stocks, ds[i])
      ensures ds[i].productId in after
              && after[ds[i].productId] == StockRow(stocks[ds[i].productId].quantityAvailable - ds[i].quantity, now)
    {
      if i < |init| {
        assert ds[i] == init[i];
      }
    }
    forall p | (forall i :: 0 <= i < |ds| ==> ds[i].productId != p)
      ensures (p in after <==> p in stocks) && (p in stocks ==> after[p] == stocks[p])
    {
      assert ds[|init|].productId != p;
      assert forall i :: 0 <= i < |init| ==> init[i].productId != p by {
        forall i | 0 <= i < |init| ensures init[i].productId != p {
          assert ds[i] == init[i];
        }
      }
    }
  }

  /**
   * Without distinct products the check is not enough: two lines of one
   * unit each pass against a stock of one, and the second commit is refused.
   */
  lemma RepeatedProductDefeatsCheck()
    ensures var stocks := map[7 := StockRow(1, 0)];
            var ds := [Demand(7, 1), Demand(7, 1)];
            AllCovered(stocks, ds) && !RecordEach(stocks, [], ds, -1, CUSTOMER_ORDER, None, None, 0).applied
  {
    var stocks := map[7 := StockRow(1, 0)];
    var ds := [Demand(7, 1), Demand(7, 1)];
    var first := RecordEach(stocks, [], ds[..1], -1, CUSTOMER_ORDER, None, None, 0);
    RecordEachSnoc(stocks, [], [], Demand(7, 1), -1, CUSTOMER_ORDER, None, None, 0);
    assert [] + [Demand(7, 1)] == ds[..1];
    assert first.applied && first.stocks[7].quantityAvailable == 0;
    RecordEachSnoc(stocks, [], ds[..1], Demand(7, 1), -1, CUSTOMER_ORDER, None, None, 0);
    assert ds[..1] + [Demand(7, 1)] == ds;
  }

  /**
   * Receipts only add: with every stored quantity non-negative and every
   * line's quantity non-negative, committing the lines with sign +1 never
   * meets a refusal and logs one movement per line.
   */
  lemma {:induction false} ReceiptsAlwaysApply(stocks: map<int, StockRow>, log: seq<Movement>, ds: seq<Demand>,
                                               t: MovementType, ref: Option<int>, notes: Option<string>, now: Time)
    requires forall p :: p in stocks ==> stocks[p].quantityAvailable >= 0
    requires forall i :: 0 <= i < |ds| ==> ds[i].quantity >= 0
    ensures var r := RecordEach(stocks, log, ds, 1, t, ref, notes, now);
            && r.applied
            && r.log == log + MovementsFor(ds, 1, t, ref, notes, now)
            && forall p :: p in r.stocks ==> r.stocks[p].quantityAvailable >= 0
    decreases |ds|
  {
    if ds != [] {
      var n := |ds| - 1;
      var init := ds[..n];
      var d := ds[n];
      assert ds == init + [d];
      assert forall i :: 0 <= i < n ==> init[i] == ds[i];
      ReceiptsAlwaysApply(stocks, log, init, t, ref, notes, now);
      var before := RecordEach(stocks, log, init, 1, t, ref, notes, now);
      assert 1 * d.quantity == d.quantity;
      assert QuantityOf(before.stocks, d.productId) >= 0;
      var r := Record(before.stocks, before.log, d.productId, t, 1 * d.quantity, ref, notes, now);
      assert r.applied;
      RecordEachSnoc(stocks, log, init, d, 1, t, ref, notes, now);
      MovementsForSnoc(ds, 1, t, ref, notes, now);
      forall p | p in r.stocks
        ensures r.stocks[p].quantityAvailable >= 0
      {
        if p != d.productId {
          assert r.stocks[p] == before.stocks[p];
        }
      }
    }
  }

  /** Committing lines one by one keeps the ledger invariant, whether it commits or aborts. */
  lemma {:induction false} RecordEachKeepsConsistent(stocks: map<int, StockRow>, log: seq<Movement>, ds: seq<Demand>, sign: int,
                                                     t: MovementType, ref: Option<int>, notes: Option<string>, now: Time)
    requires Consistent(stocks, log)
    ensures var r := RecordEach(stocks, log, ds, sign, t, ref, notes, now); Consistent(r.stocks, r.log)
    decreases |ds|
  {
    if ds != [] {
      var init := ds[..|ds| - 1];
      var d := ds[|ds| - 1];
      RecordEachKeepsConsistent(stocks, log, init, sign, t, ref, notes, now);
      var before := RecordEach(stocks, log, init, sign, t, ref, notes, now);
      RecordKeepsConsistent(before.stocks, before.log, d.productId, t, sign * d.quantity, ref, notes, now);
    }
  }

  /**
   * The two paths that bypass the write path: a direct quantity change with
   * no movement and no lower bound (Stock.updateQuantity and
   * StockDaoImpl.updateQuantity) takes a consistent ledger to an
   * inconsistent one.
   */
  function AdjustWithoutMovement(stocks: map<int, StockRow>, pid: int, change: int, now: Time): (r: map<int, StockRow>)
    requires pid in stocks
    ensures pid in r && r[pid].quantityAvailable == stocks[pid].quantityAvailable + change
    ensures forall p :: p != pid ==> (p in r <==> p in stocks) && (p in stocks ==> r[p] == stocks[p])
  {
    stocks[pid := StockRow(stocks[pid].quantityAvailable + change, now)]
  }

  lemma AdjustWithoutMovementBreaksLedger()
    ensures var stocks := map[1 := StockRow(0, 0)];
            Consistent(stocks, [])
            && !Consistent(AdjustWithoutMovement(stocks, 1, -5, 0), [])
            && !Consistent(AdjustWithoutMovement(stocks, 1, 5, 0), [])
  {
    var stocks := map[1 := StockRow(0, 0)];
    assert SumFor([], 1) == 0;
  }

  /** Any non-zero direct change breaks the invariant, even one that keeps the quantity non-negative. */
  lemma AdjustWithoutMovementNeverConsistent(stocks: map<int, StockRow>, log: seq<Movement>, pid: int, change: int, now: Time)
    requires Consistent(stocks, log) && pid in stocks && change != 0
    ensures !Consistent(AdjustWithoutMovement(stocks, pid, change, now), log)
  {
  }
}
