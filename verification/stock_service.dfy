/**
 * StockServiceImpl: the one write path of the ledger and the two order
 * flows that go through it. Each method is one transaction: when it fails,
 * the tables are as they were before the call.
 */
module StockService {
  import opened Wrappers
  import opened MovementTypes
  import opened Ledger
  import opened Store
  import JavaText
  import M = Messages

  /** The notes written on the movements of a customer order. */
  function CustomerOrderNote(orderId: int): (s: string)
    ensures JavaText.StartsWith(s, "Customer order #")
  {
    "Customer order #" + JavaText.DecimalString(orderId)
  }

  /** The notes written on the movements of a supplier order. */
  function SupplierOrderNote(orderId: int, supplierName: string): (s: string)
    ensures JavaText.StartsWith(s, "Supplier order #")
    ensures JavaText.EndsWith(s, " from " + supplierName)
  {
    "Supplier order #" + JavaText.DecimalString(orderId) + " from " + supplierName
  }

  /**
   * updateStockQuantity: finds or creates the product's Stock, refuses a
   * change that would make it negative, otherwise moves the quantity by the
   * change and appends exactly one movement recording it.
   */
  method UpdateStockQuantity(db: Store, productId: Option<int>, change: int, movementType: Option<MovementType>,
                             referenceId: Option<int>, notes: Option<string>, now: Time)
    returns (r: Outcome<StockRow>)
    requires db.stocks.Keys <= db.products.Keys
    modifies db`stocks, db`movements
    ensures db.stocks.Keys <= db.products.Keys
    ensures r.Ok? <==> productId.Some? && movementType.Some? && productId.value in db.products
                       && QuantityOf(old(db.stocks), productId.value) + change >= 0
    ensures productId.None? || movementType.None? ==> r.Err? && r.failure.Validation?
    ensures r.Err? ==> db.stocks == old(db.stocks) && db.movements == old(db.movements)
    ensures r.Ok? ==>
              var rec := Record(old(db.stocks), old(db.movements), productId.value, movementType.value,
                                change, referenceId, notes, now);
              rec.applied && db.stocks == rec.stocks && db.movements == rec.log && r.value == db.stocks[productId.value]
  {
    if productId.None? {
      return Err(Validation(M.NULL_PRODUCT_ID, map[]));
    }
    if movementType.None? {
      return Err(Validation(M.NULL_MOVEMENT_TYPE, map[]));
    }
    var pid := productId.value;
    if pid !in db.products {
      return Err(Service(M.NotFound(M.PRODUCT, pid)));
    }
    var stock: StockRow;
    if pid in db.stocks {
      stock := db.stocks[pid];
    } else {
      stock := StockRow(0, now);
    }
    if stock.quantityAvailable + change < 0 {
      return Err(Validation(M.INSUFFICIENT_QUANTITY, map[]));
    }
    db.stocks := db.stocks[pid := StockRow(stock.quantityAvailable + change, now)];
    db.movements := db.movements + [Movement(pid, movementType.value, change, referenceId, notes, now)];
    r := Ok(db.stocks[pid]);
  }

  /**
   * findByProductId(pid).get(0): the position of the product's newest
   * movement, or -1 when it has none. The query orders by date only; among
   * movements with the same date the model takes the first one logged.
   */
  function NewestMovementIndex(log: seq<Movement>, pid: int): (k: int)
    ensures -1 <= k < |log|
    ensures k == -1 <==> forall i :: 0 <= i < |log| ==> log[i].productId != pid
    ensures k >= 0 ==> log[k].productId == pid
    ensures k >= 0 ==> forall i :: 0 <= i < |log| && log[i].productId == pid ==> log[i].movementDate <= log[k].movementDate
    ensures k >= 0 ==> forall i :: 0 <= i < k && log[i].productId == pid ==> log[i].movementDate < log[k].movementDate
    decreases |log|
  {
    if log == [] then -1
    else
      var init := log[..|log| - 1];
      var k := NewestMovementIndex(init, pid);
      var last := log[|log| - 1];
      assert k >= 0 ==> init[k] == log[k];
      if last.productId == pid && (k == -1 || log[k].movementDate < last.movementDate) then |log| - 1
      else k
  }

  /**
   * createStockAdjustment: notes are mandatory; the change goes through the
   * write path as an ADJUSTMENT with no reference. What it returns is the
   * product's newest movement as findByProductId orders them: the one just
   * logged when every earlier movement of the product is older, but an
   * earlier movement dated at or after `now` is returned in its place.
   */
  method CreateStockAdjustment(db: Store, productId: Option<int>, quantity: int, notes: Option<string>, now: Time)
    returns (r: Outcome<Movement>)
    requires db.stocks.Keys <= db.products.Keys
    modifies db`stocks, db`movements
    ensures db.stocks.Keys <= db.products.Keys
    ensures productId.None? || notes.None? || notes == Some("") ==> r.Err? && r.failure.Validation?
    ensures r.Ok? <==> productId.Some? && notes.Some? && notes.value != "" && productId.value in db.products
                       && QuantityOf(old(db.stocks), productId.value) + quantity >= 0
    ensures r.Err? ==> db.stocks == old(db.stocks) && db.movements == old(db.movements)
    ensures r.Ok? ==> db.movements == old(db.movements) + [Movement(productId.value, ADJUSTMENT, quantity, None, notes, now)]
                      && db.stocks == old(db.stocks)[productId.value := StockRow(QuantityOf(old(db.stocks), productId.value) + quantity, now)]
    ensures r.Ok? ==> r.value in db.movements && r.value.productId == productId.value
                      && forall m :: m in db.movements && m.productId == productId.value ==> m.movementDate <= r.value.movementDate
    ensures r.Ok? ==> 0 <= NewestMovementIndex(db.movements, productId.value)
                      && r.value == db.movements[NewestMovementIndex(db.movements, productId.value)]
    ensures r.Ok? && (forall m :: m in old(db.movements) && m.productId == productId.value ==> m.movementDate < now) ==>
              r.value == Movement(productId.value, ADJUSTMENT, quantity, None, notes, now)
  {
    if productId.None? {
      return Err(Validation(M.NULL_PRODUCT_ID, map[]));
    }
    if notes.None? || notes.value == "" {
      return Err(Validation(M.EMPTY_ADJUSTMENT_NOTES, map[]));
    }
    var pid := productId.value;
    if pid !in db.products {
      return Err(Service(M.NotFound(M.PRODUCT, pid)));
    }
    var u := UpdateStockQuantity(db, productId, quantity, Some(ADJUSTMENT), None, notes, now);
    if u.Err? {
      return Err(u.failure);
    }
    var n := |db.movements| - 1;
    assert db.movements[n].productId == pid;
    var k := NewestMovementIndex(db.movements, pid);
    r := Ok(db.movements[k]);
  }

  /**
   * The availability check loop: the position of the first line whose
   * product has no Stock or too little of it, or |ds| when every line is
   * covered.
   */
  method FirstShortLine(stocks: map<int, StockRow>, ds: seq<Demand>) returns (k: int)
    ensures 0 <= k <= |ds|
    ensures AllCovered(stocks, ds[..k])
    ensures k < |ds| ==> !Covered(stocks, ds[k])
    ensures k == |ds| <==> AllCovered(stocks, ds)
  {
    k := 0;
    while k < |ds|
      invariant 0 <= k <= |ds|
      invariant AllCovered(stocks, ds[..k])
    {
      if ds[k].productId !in stocks || stocks[ds[k].productId].quantityAvailable < ds[k].quantity {
        return;
      }
      k := k + 1;
    }
    assert ds[..k] == ds;
  }

  /**
   * The transaction around the commit loop shared by both order flows:
   * when a line is refused, both tables are rolled back and the refusal is
   * returned.
   */
  method CommitLines(db: Store, ds: seq<Demand>, sign: int, t: MovementType, ref: Option<int>, notes: Option<string>, now: Time)
    returns (failure: Option<Failure>)
    requires db.stocks.Keys <= db.products.Keys
    requires forall i :: 0 <= i < |ds| ==> ds[i].productId in db.products
    modifies db`stocks, db`movements
    ensures db.stocks.Keys <= db.products.Keys
    ensures var rec := RecordEach(old(db.stocks), old(db.movements), ds, sign, t, ref, notes, now);
            (failure.None? <==> rec.applied) && db.stocks == rec.stocks && db.movements == rec.log
  {
    var s0 := db.stocks;
    var l0 := db.movements;
    failure := ApplyLines(db, ds, sign, t, ref, notes, now);
    if failure.Some? {
      db.stocks := s0;
      db.movements := l0;
    }
  }

  /**
   * The commit loop: the write path for every line in turn with
   * `sign * quantity`, stopping at the first refusal.
   */
  method ApplyLines(db: Store, ds: seq<Demand>, sign: int, t: MovementType, ref: Option<int>, notes: Option<string>, now: Time)
    returns (failure: Option<Failure>)
    requires db.stocks.Keys <= db.products.Keys
    requires forall i :: 0 <= i < |ds| ==> ds[i].productId in db.products
    modifies db`stocks, db`movements
    ensures db.stocks.Keys <= db.products.Keys
    ensures var rec := RecordEach(old(db.stocks), old(db.movements), ds, sign, t, ref, notes, now);
            && (failure.None? <==> rec.applied)
            && (failure.None? ==> db.stocks == rec.stocks && db.movements == rec.log)
  {
    var s0 := db.stocks;
    var l0 := db.movements;
    var i := 0;
    failure := None;
    while i < |ds|
      invariant 0 <= i <= |ds|
      invariant db.stocks.Keys <= db.products.Keys
      invariant RecordEach(s0, l0, ds[..i], sign, t, ref, notes, now) == Recorded(db.stocks, db.movements, true)
      invariant failure.None?
    {
      CommitStep(s0, l0, ds, i, sign, t, ref, notes, now, db.stocks, db.movements);
      failure := ApplyLine(db, ds[i], sign, t, ref, notes, now);
      if failure.Some? {
        return;
      }
      i := i + 1;
    }
    assert ds[..i] == ds;
  }

  /** One line through the write path, its refusal returned as a value. */
  method ApplyLine(db: Store, d: Demand, sign: int, t: MovementType, ref: Option<int>, notes: Option<string>, now: Time)
    returns (failure: Option<Failure>)
    requires db.stocks.Keys <= db.products.Keys
    requires d.productId in db.products
    modifies db`stocks, db`movements
    ensures db.stocks.Keys <= db.products.Keys
    ensures var rec := Record(old(db.stocks), old(db.movements), d.productId, t, sign * d.quantity, ref, notes, now);
            && (failure.None? <==> rec.applied)
            && (failure.None? ==> rec == Recorded(db.stocks, db.movements, true))
  {
    var u := UpdateStockQuantity(db, Some(d.productId), sign * d.quantity, Some(t), ref, notes, now);
    if u.Err? {
      return Some(u.failure);
    }
    return None;
  }

  /**
   * One turn of the commit loop: when the next line applies, the prefix
   * grows by its outcome; when it is refused, the whole run aborts.
   */
  lemma CommitStep(s0: map<int, StockRow>, l0: seq<Movement>, ds: seq<Demand>, i: int, sign: int, t: MovementType,
                   ref: Option<int>, notes: Option<string>, now: Time, stocks: map<int, StockRow>, log: seq<Movement>)
    requires 0 <= i < |ds|
    requires RecordEach(s0, l0, ds[..i], sign, t, ref, notes, now) == Recorded(stocks, log, true)
    ensures var r := Record(stocks, log, ds[i].productId, t, sign * ds[i].quantity, ref, notes, now);
            && (r.applied ==> RecordEach(s0, l0, ds[..i + 1], sign, t, ref, notes, now) == r)
            && (!r.applied ==> !RecordEach(s0, l0, ds, sign, t, ref, notes, now).applied)
  {
    RecordEachSnoc(s0, l0, ds[..i], ds[i], sign, t, ref, notes, now);
    assert ds[..i] + [ds[i]] == ds[..i + 1];
    if !Record(stocks, log, ds[i].productId, t, sign * ds[i].quantity, ref, notes, now).applied {
      RecordEachAbortPersists(s0, l0, ds, i + 1, sign, t, ref, notes, now);
    }
  }

  /**
   * processStockForCustomerOrder: a PENDING order with at least one line
   * has every line checked against its Stock before anything changes; then
   * each line's quantity is taken out through the write path and the order
   * becomes PROCESSING.
   */
  method ProcessStockForCustomerOrder(db: Store, orderId: Option<int>, now: Time) returns (r: Outcome<bool>)
    requires db.Valid()
    modifies db`stocks, db`movements, db`orders
    ensures db.Valid()
    ensures r.Ok? ==> r.value
    ensures r.Ok? <==> orderId.Some? && orderId.value in old(db.orders) && old(db.orders)[orderId.value].status == PENDING
                       && OrderLines(db.items, orderId.value) != []
                       && AllCovered(old(db.stocks), Demands(OrderLines(db.items, orderId.value)))
    ensures r.Err? ==> db.stocks == old(db.stocks) && db.movements == old(db.movements) && db.orders == old(db.orders)
    ensures orderId.Some? && orderId.value in old(db.orders) && old(db.orders)[orderId.value].status != PENDING ==>
              r == Err(Validation(M.CANNOT_PROCESS_STOCK + StatusName(old(db.orders)[orderId.value].status), map[]))
    ensures r.Ok? ==>
              var oid := orderId.value;
              var ds := Demands(OrderLines(db.items, oid));
              var rec := RecordEach(old(db.stocks), old(db.movements), ds, -1, CUSTOMER_ORDER, Some(oid), Some(CustomerOrderNote(oid)), now);
              && db.stocks == rec.stocks && db.movements == rec.log
              && db.orders == old(db.orders)[oid := old(db.orders)[oid].(status := PROCESSING)]
  {
    if orderId.None? {
      return Err(Validation(M.NULL_ORDER_ID, map[]));
    }
    var oid := orderId.value;
    if oid !in db.orders {
      return Err(Service(M.NotFound(M.ORDER, oid)));
    }
    var order := db.orders[oid];
    if order.status != PENDING {
      return Err(Validation(M.CANNOT_PROCESS_STOCK + StatusName(order.status), map[]));
    }
    var lines := OrderLines(db.items, oid);
    if lines == [] {
      return Err(Validation(M.ORDER_HAS_NO_ITEMS, map[]));
    }
    var ds := Demands(lines);
    var k := FirstShortLine(db.stocks, ds);
    if k < |ds| {
      assert lines[k] in db.items;
      var product := db.products[lines[k].productId];
      return Err(Validation(M.InsufficientStock(product.name, product.sku), map[]));
    }
    CommitCustomerOrder(db, oid, now);
    r := Ok(true);
  }

  /**
   * The second half of processStockForCustomerOrder, once every line has
   * passed the check: the lines go through the write path, which cannot
   * refuse them, and the order becomes PROCESSING.
   */
  method CommitCustomerOrder(db: Store, oid: int, now: Time)
    requires db.Valid()
    requires oid in db.orders
    requires AllCovered(db.stocks, Demands(OrderLines(db.items, oid)))
    modifies db`stocks, db`movements, db`orders
    ensures db.Valid()
    ensures var ds := Demands(OrderLines(db.items, oid));
            var rec := RecordEach(old(db.stocks), old(db.movements), ds, -1, CUSTOMER_ORDER, Some(oid), Some(CustomerOrderNote(oid)), now);
            && db.stocks == rec.stocks && db.movements == rec.log
            && db.orders == old(db.orders)[oid := old(db.orders)[oid].(status := PROCESSING)]
  {
    var lines := OrderLines(db.items, oid);
    var ds := Demands(lines);
    var note := CustomerOrderNote(oid);
    CustomerOrderApplies(db.stocks, db.movements, db.items, oid, db.orders.Keys, db.products.Keys, now);
    var failure := CommitLines(db, ds, -1, CUSTOMER_ORDER, Some(oid), Some(note), now);
    assert failure.None?;
    ghost var orderKeys := db.orders.Keys;
    db.orders := db.orders[oid := db.orders[oid].(status := PROCESSING)];
    assert db.orders.Keys == orderKeys;
    assert ItemsWellFormed(db.items, db.orders.Keys, db.products.Keys);
  }

  /** A checked customer order names stored products only and its commit is never refused. */
  lemma CustomerOrderApplies(stocks: map<int, StockRow>, log: seq<Movement>, items: seq<ItemRow>, oid: int,
                             orders: set<int>, products: set<int>, now: Time)
    requires ItemsWellFormed(items, orders, products)
    requires AllCovered(stocks, Demands(OrderLines(items, oid)))
    ensures var ds := Demands(OrderLines(items, oid));
            && RecordEach(stocks, log, ds, -1, CUSTOMER_ORDER, Some(oid), Some(CustomerOrderNote(oid)), now).applied
            && forall i :: 0 <= i < |ds| ==> ds[i].productId in products
  {
    CustomerOrderCommitEffect(stocks, log, items, oid, orders, products, now);
    LineProductsExist(items, oid, orders, products);
  }

  /**
   * After a successful processStockForCustomerOrder each line's product has
   * dropped by exactly the line's quantity, one CUSTOMER_ORDER movement
   * referencing the order is logged per line, and no other product changed.
   */
  lemma CustomerOrderCommitEffect(stocks: map<int, StockRow>, log: seq<Movement>, items: seq<ItemRow>, oid: int,
                                  orders: set<int>, products: set<int>, now: Time)
    requires ItemsWellFormed(items, orders, products)
    requires AllCovered(stocks, Demands(OrderLines(items, oid)))
    ensures var ds := Demands(OrderLines(items, oid));
            var note := Some(CustomerOrderNote(oid));
            var rec := RecordEach(stocks, log, ds, -1, CUSTOMER_ORDER, Some(oid), note, now);
            && rec.applied
            && rec.log == log + MovementsFor(ds, -1, CUSTOMER_ORDER, Some(oid), note, now)
            && LinesTaken(stocks, ds, rec.stocks, now)
            && OthersKept(stocks, ds, rec.stocks)
  {
    OrderLinesDistinct(items, oid, orders, products);
    PerLineCheckSuffices(stocks, log, Demands(OrderLines(items, oid)), CUSTOMER_ORDER, Some(oid), Some(CustomerOrderNote(oid)), now);
  }

  /**
   * processStockForSupplierOrder: a RECEIVED supplier order with at least
   * one line has each line's quantity added through the write path, then
   * becomes COMPLETED. A refusal aborts the transaction.
   */
  method ProcessStockForSupplierOrder(db: Store, supplierOrderId: Option<int>, now: Time) returns (r: Outcome<bool>)
    requires db.Valid()
    modifies db`stocks, db`movements, db`supplierOrders
    ensures db.Valid()
    ensures r.Ok? ==> r.value
    ensures r.Err? ==> db.stocks == old(db.stocks) && db.movements == old(db.movements)
                       && db.supplierOrders == old(db.supplierOrders)
    ensures r.Ok? <==>
              && supplierOrderId.Some? && supplierOrderId.value in old(db.supplierOrders)
              && old(db.supplierOrders)[supplierOrderId.value].status == RECEIVED
              && SupplierLines(db.supplierItems, supplierOrderId.value) != []
              && ReceiptApplies(old(db.stocks), old(db.movements), db.suppliers, db.supplierItems,
                                supplierOrderId.value, old(db.supplierOrders)[supplierOrderId.value], now)
    ensures r.Ok? ==>
              var soid := supplierOrderId.value;
              var so := old(db.supplierOrders)[soid];
              var rec := Receipt(old(db.stocks), old(db.movements), db.suppliers, db.supplierItems, soid, so, now);
              db.stocks == rec.stocks && db.movements == rec.log
              && db.supplierOrders == old(db.supplierOrders)[soid := so.(status := COMPLETED)]
  {
    if supplierOrderId.None? {
      return Err(Service(M.NULL_SUPPLIER_ORDER_ID));
    }
    var soid := supplierOrderId.value;
    if soid !in db.supplierOrders {
      return Err(Service(M.NotFound(M.SUPPLIER_ORDER, soid)));
    }
    var order := db.supplierOrders[soid];
    if order.status != RECEIVED {
      return Err(Service(M.CANNOT_PROCESS_SUPPLIER_STOCK + SupplierStatusName(order.status)));
    }
    var lines := SupplierLines(db.supplierItems, soid);
    if lines == [] {
      return Err(Service(M.SUPPLIER_ORDER_HAS_NO_ITEMS));
    }
    r := CommitSupplierOrder(db, soid, now);
  }

  /**
   * The second half of processStockForSupplierOrder: the lines go through
   * the write path and the order becomes COMPLETED, or the first refusal
   * rolls everything back.
   */
  method CommitSupplierOrder(db: Store, soid: int, now: Time) returns (r: Outcome<bool>)
    requires db.Valid()
    requires soid in db.supplierOrders
    modifies db`stocks, db`movements, db`supplierOrders
    ensures db.Valid()
    ensures r.Ok? ==> r.value
    ensures r.Err? ==> db.stocks == old(db.stocks) && db.movements == old(db.movements)
                       && db.supplierOrders == old(db.supplierOrders)
    ensures var so := old(db.supplierOrders)[soid];
            var rec := Receipt(old(db.stocks), old(db.movements), db.suppliers, db.supplierItems, soid, so, now);
            && (r.Ok? <==> rec.applied)
            && (r.Ok? ==> db.stocks == rec.stocks && db.movements == rec.log
                          && db.supplierOrders == old(db.supplierOrders)[soid := so.(status := COMPLETED)])
  {
    var order := db.supplierOrders[soid];
    var lines := SupplierLines(db.supplierItems, soid);
    var ds := SupplierDemands(lines);
    var note := SupplierOrderNote(soid, db.suppliers[order.supplierId].name);
    SupplierLineProductsExist(db.supplierItems, soid, db.supplierOrders.Keys, db.products.Keys);
    var failure := CommitLines(db, ds, 1, SUPPLIER_ORDER, Some(soid), Some(note), now);
    if failure.Some? {
      return Err(failure.value);
    }
    ghost var orderKeys := db.supplierOrders.Keys;
    db.supplierOrders := db.supplierOrders[soid := order.(status := COMPLETED)];
    assert db.supplierOrders.Keys == orderKeys;
    assert SupplierItemsWellFormed(db.supplierItems, db.supplierOrders.Keys, db.products.Keys);
    r := Ok(true);
  }

  /** The ledger tables after committing a supplier order's lines, with its notes. */
  function Receipt(stocks: map<int, StockRow>, log: seq<Movement>, suppliers: map<int, SupplierRow>,
                   supplierItems: seq<SupplierItemRow>, soid: int, so: SupplierOrderRow, now: Time): Recorded
    requires so.supplierId in suppliers
  {
    RecordEach(stocks, log, SupplierDemands(SupplierLines(supplierItems, soid)), 1, SUPPLIER_ORDER, Some(soid),
               Some(SupplierOrderNote(soid, suppliers[so.supplierId].name)), now)
  }

  predicate ReceiptApplies(stocks: map<int, StockRow>, log: seq<Movement>, suppliers: map<int, SupplierRow>,
                           supplierItems: seq<SupplierItemRow>, soid: int, so: SupplierOrderRow, now: Time)
    requires so.supplierId in suppliers
  {
    Receipt(stocks, log, suppliers, supplierItems, soid, so, now).applied
  }

  /**
   * Receipts never fail on stock: while no stored quantity is negative and
   * the lines carry non-negative quantities, the commit applies, adding one
   * SUPPLIER_ORDER movement per line.
   */
  lemma ReceiptNeverRefused(stocks: map<int, StockRow>, log: seq<Movement>, suppliers: map<int, SupplierRow>,
                            supplierItems: seq<SupplierItemRow>, soid: int, so: SupplierOrderRow, now: Time)
    requires so.supplierId in suppliers
    requires forall p :: p in stocks ==> stocks[p].quantityAvailable >= 0
    requires forall x :: x in SupplierLines(supplierItems, soid) ==> x.quantity >= 0
    ensures ReceiptApplies(stocks, log, suppliers, supplierItems, soid, so, now)
    ensures var ds := SupplierDemands(SupplierLines(supplierItems, soid));
            Receipt(stocks, log, suppliers, supplierItems, soid, so, now).log
              == log + MovementsFor(ds, 1, SUPPLIER_ORDER, Some(soid), Some(SupplierOrderNote(soid, suppliers[so.supplierId].name)), now)
  {
    var lines := SupplierLines(supplierItems, soid);
    var ds := SupplierDemands(lines);
    assert forall k :: 0 <= k < |ds| ==> ds[k].quantity >= 0 by {
      forall k | 0 <= k < |ds| ensures ds[k].quantity >= 0 {
        assert lines[k] in lines;
      }
    }
    ReceiptsAlwaysApply(stocks, log, ds, SUPPLIER_ORDER, Some(soid), Some(SupplierOrderNote(soid, suppliers[so.supplierId].name)), now);
  }

  /**
   * checkSufficientStockForOrder: read-only; true for an order without
   * lines, otherwise true exactly when every line's product has a Stock
   * holding at least the line's quantity.
   */
  method CheckSufficientStockForOrder(db: Store, orderId: Option<int>) returns (r: Outcome<bool>)
    ensures orderId.None? ==> r.Err?
    ensures orderId.Some? && orderId.value !in db.orders ==> r.Err?
    ensures orderId.Some? && orderId.value in db.orders ==>
              r == Ok(AllCovered(db.stocks, Demands(OrderLines(db.items, orderId.value))))
    ensures orderId.Some? && orderId.value in db.orders && OrderLines(db.items, orderId.value) == [] ==> r == Ok(true)
  {
    if orderId.None? {
      return Err(Service(M.NULL_ORDER_ID));
    }
    var oid := orderId.value;
    if oid !in db.orders {
      return Err(Service(M.NotFound(M.ORDER, oid)));
    }
    var lines := OrderLines(db.items, oid);
    if lines == [] {
      return Ok(true);
    }
    var k := FirstShortLine(db.stocks, Demands(lines));
    r := Ok(k == |lines|);
  }

  /**
   * getProductsNeedingReorder: the Stock rows of the products whose stock
   * is at or below a positive reorder level.
   */
  function ProductsNeedingReorder(products: map<int, ProductRow>, stocks: map<int, StockRow>): (r: map<int, StockRow>)
    ensures forall p :: p in r <==> p in products && p in stocks && IsLowStock(products[p], stocks[p])
    ensures forall p :: p in r ==> r[p] == stocks[p]
  {
    map p | p in stocks && p in products && IsLowStock(products[p], stocks[p]) :: stocks[p]
  }
}
