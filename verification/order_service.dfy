/**
 * OrderServiceImpl: the customer-order lifecycle. Every public operation is
 * one transaction over the order and item tables: on failure both are as
 * they were. Item editing is allowed only while the order is PENDING, and
 * every operation that touches items leaves the order's total equal to the
 * sum of its line totals.
 */
module OrderService {
  import opened Wrappers
  import opened Ledger
  import opened Store
  import StockService
  import Validators
  import M = Messages

  // ---------------------------------------------------------------------
  // Status transitions

  /** The transition table the service enforces, written as successor sets. */
  function Successors(s: OrderStatus): set<OrderStatus>
  {
    match s
    case PENDING => {PROCESSING, PAID, CANCELLED}
    case PROCESSING => {SHIPPED, CANCELLED}
    case PAID => {PROCESSING, SHIPPED, CANCELLED}
    case SHIPPED => {DELIVERED}
    case DELIVERED => {}
    case CANCELLED => {}
  }

  /**
   * validateStatusTransition: the message of the ValidationException it
   * throws, or None when the move is allowed. The switch agrees with the
   * successor table.
   */
  function TransitionError(current: OrderStatus, next: OrderStatus): (r: Option<string>)
    ensures r.None? <==> next in Successors(current)
    ensures current in {DELIVERED, CANCELLED} ==> r == Some(M.CANNOT_CHANGE_STATUS + StatusName(current))
    ensures current !in {DELIVERED, CANCELLED} && r.Some? ==>
              r.value == M.INVALID_TRANSITION + StatusName(current) + M.TRANSITION_TO + StatusName(next)
  {
    var invalid := Some(M.INVALID_TRANSITION + StatusName(current) + M.TRANSITION_TO + StatusName(next));
    match current
    case PENDING => if next != PROCESSING && next != PAID && next != CANCELLED then invalid else None
    case PROCESSING => if next != SHIPPED && next != CANCELLED then invalid else None
    case PAID => if next != PROCESSING && next != SHIPPED && next != CANCELLED then invalid else None
    case SHIPPED => if next != DELIVERED then invalid else None
    case DELIVERED => Some(M.CANNOT_CHANGE_STATUS + StatusName(current))
    case CANCELLED => Some(M.CANNOT_CHANGE_STATUS + StatusName(current))
  }

  /** A position for each status along the lifecycle. */
  function Rank(s: OrderStatus): nat
  {
    match s
    case PENDING => 0
    case PAID => 1
    case PROCESSING => 2
    case SHIPPED => 3
    case DELIVERED => 4
    case CANCELLED => 5
  }

  /** Every legal transition moves forward, so no status is ever revisited. */
  lemma TransitionsAdvance(s: OrderStatus, t: OrderStatus)
    requires t in Successors(s)
    ensures Rank(s) < Rank(t)
  {
  }

  /** A run of legal transitions. */
  predicate IsLegalRun(run: seq<OrderStatus>)
  {
    forall i :: 0 < i < |run| ==> run[i] in Successors(run[i - 1])
  }

  /** Along a legal run the rank grows by at least one per step. */
  lemma {:induction false} RunAdvances(run: seq<OrderStatus>, i: int, j: int)
    requires IsLegalRun(run) && 0 <= i <= j < |run|
    ensures Rank(run[j]) >= Rank(run[i]) + (j - i)
    decreases j - i
  {
    if i < j {
      RunAdvances(run, i, j - 1);
      TransitionsAdvance(run[j - 1], run[j]);
    }
  }

  /** An order passes through each status at most once and changes status at most five times. */
  lemma LegalRunIsShort(run: seq<OrderStatus>)
    requires IsLegalRun(run)
    ensures |run| <= 6
    ensures forall i, j :: 0 <= i < j < |run| ==> run[i] != run[j]
  {
    if |run| > 0 {
      RunAdvances(run, 0, |run| - 1);
    }
    forall i, j | 0 <= i < j < |run|
      ensures run[i] != run[j]
    {
      RunAdvances(run, i, j);
    }
  }

  /** updateOrderStatus can move a PENDING or PAID order to PROCESSING; no stock is involved. */
  lemma ProcessingWithoutStock()
    ensures TransitionError(PENDING, PROCESSING).None?
    ensures TransitionError(PAID, PROCESSING).None?
  {
  }

  // ---------------------------------------------------------------------
  // Validation

  /** validateOrder: the error map for a customer name and email. */
  function OrderErrors(name: string, email: string): (e: map<string, string>)
    ensures M.KEY_CUSTOMER_NAME in e <==> name == ""
    ensures M.KEY_CUSTOMER_NAME in e ==> e[M.KEY_CUSTOMER_NAME] == M.EMPTY_CUSTOMER_NAME
    ensures M.KEY_CUSTOMER_EMAIL in e <==> email == "" || !Validators.IsValidEmail(email)
    ensures M.KEY_CUSTOMER_EMAIL in e ==>
              e[M.KEY_CUSTOMER_EMAIL] == if email == "" then M.EMPTY_CUSTOMER_EMAIL else M.INVALID_CUSTOMER_EMAIL
    ensures e.Keys <= {M.KEY_CUSTOMER_NAME, M.KEY_CUSTOMER_EMAIL}
  {
    var e0: map<string, string> := map[];
    var e1 := if name == "" then e0[M.KEY_CUSTOMER_NAME := M.EMPTY_CUSTOMER_NAME] else e0;
    if email == "" then e1[M.KEY_CUSTOMER_EMAIL := M.EMPTY_CUSTOMER_EMAIL]
    else if !Validators.IsValidEmail(email) then e1[M.KEY_CUSTOMER_EMAIL := M.INVALID_CUSTOMER_EMAIL]
    else e1
  }

  /**
   * validateOrderForUpdate: the same checks, plus a "status" entry carrying
   * the transition message when the status changes illegally.
   */
  function OrderUpdateErrors(name: string, email: string, current: OrderStatus, next: OrderStatus): (e: map<string, string>)
    ensures M.KEY_STATUS in e <==> next != current && next !in Successors(current)
    ensures M.KEY_STATUS in e ==> Some(e[M.KEY_STATUS]) == TransitionError(current, next)
    ensures forall k :: k != M.KEY_STATUS ==> (k in e <==> k in OrderErrors(name, email))
    ensures forall k :: k != M.KEY_STATUS && k in e ==> e[k] == OrderErrors(name, email)[k]
  {
    var e := OrderErrors(name, email);
    var t := TransitionError(current, next);
    if next != current && t.Some? then e[M.KEY_STATUS := t.value] else e
  }

  /** An order line as the caller hands it in; None stands for a null product or price. */
  datatype ItemInput = ItemInput(productId: Option<int>, quantity: int, unitPrice: Option<int>)

  /** The unit price after validateOrderItem fills a null one from the product. */
  function ResolvedPrice(products: map<int, ProductRow>, it: ItemInput): (p: Option<int>)
    ensures it.unitPrice.Some? ==> p == it.unitPrice
    ensures it.unitPrice.None? && it.productId.Some? && it.productId.value in products ==>
              p == Some(products[it.productId.value].unitPrice)
    ensures it.unitPrice.None? && (it.productId.None? || it.productId.value !in products) ==> p.None?
  {
    if it.unitPrice.None? && it.productId.Some? && it.productId.value in products
    then Some(products[it.productId.value].unitPrice)
    else it.unitPrice
  }

  /** validateOrderItem's error map. */
  function ItemErrors(products: map<int, ProductRow>, it: ItemInput): (e: map<string, string>)
    ensures M.KEY_PRODUCT in e <==> it.productId.None? || it.productId.value !in products
    ensures M.KEY_PRODUCT in e ==>
              e[M.KEY_PRODUCT] == if it.productId.None? then M.NULL_PRODUCT else M.NotFound(M.PRODUCT, it.productId.value)
    ensures M.KEY_QUANTITY in e <==> it.quantity <= 0
    ensures M.KEY_UNIT_PRICE in e <==> ResolvedPrice(products, it).None? || ResolvedPrice(products, it).value <= 0
    ensures e.Keys <= {M.KEY_PRODUCT, M.KEY_QUANTITY, M.KEY_UNIT_PRICE}
  {
    var e0: map<string, string> := map[];
    var e1 :=
      if it.productId.None? then e0[M.KEY_PRODUCT := M.NULL_PRODUCT]
      else if it.productId.value !in products then e0[M.KEY_PRODUCT := M.NotFound(M.PRODUCT, it.productId.value)]
      else e0;
    var e2 := if it.quantity <= 0 then e1[M.KEY_QUANTITY := M.QUANTITY_NOT_POSITIVE] else e1;
    var price := ResolvedPrice(products, it);
    if price.None? then e2[M.KEY_UNIT_PRICE := M.NULL_UNIT_PRICE]
    else if price.value <= 0 then e2[M.KEY_UNIT_PRICE := M.UNIT_PRICE_NOT_POSITIVE]
    else e2
  }

  /**
   * validateOrderItem: the unit price the line will carry, or the
   * ValidationException with the whole error map.
   */
  function ValidateOrderItem(products: map<int, ProductRow>, it: ItemInput): (r: Outcome<int>)
    ensures r.Ok? <==> it.productId.Some? && it.productId.value in products && it.quantity > 0
                       && ResolvedPrice(products, it).Some? && ResolvedPrice(products, it).value > 0
    ensures r.Ok? ==> r.value == ResolvedPrice(products, it).value
    ensures r.Err? ==> r.failure == Validation(M.ITEM_VALIDATION_FAILED, ItemErrors(products, it))
  {
    var e := ItemErrors(products, it);
    if e == map[] then Ok(ResolvedPrice(products, it).value)
    else
      assert e.Keys != {};
      Err(Validation(M.ITEM_VALIDATION_FAILED, e))
  }

  // ---------------------------------------------------------------------
  // Totals

  /** OrderItem.getLineTotal. */
  function LineTotal(row: ItemRow): int
  {
    row.unitPrice * row.quantity
  }

  /** The sum of the line totals, accumulated in list order. */
  function LinesTotal(lines: seq<ItemRow>): int
    decreases |lines|
  {
    if lines == [] then 0 else LinesTotal(lines[..|lines| - 1]) + LineTotal(lines[|lines| - 1])
  }

  /** The total an order should carry: the sum over its lines. */
  function OrderTotal(items: seq<ItemRow>, oid: int): int
  {
    LinesTotal(OrderLines(items, oid))
  }

  /** Inserting a row adds its line total to its own order's total and nothing to the others'. */
  lemma OrderTotalAppend(items: seq<ItemRow>, row: ItemRow, oid: int)
    ensures OrderTotal(items + [row], oid) == OrderTotal(items, oid) + (if row.orderId == oid then LineTotal(row) else 0)
  {
    assert (items + [row])[..|items|] == items;
    var lines := OrderLines(items, oid);
    if row.orderId == oid {
      assert (lines + [row])[..|lines|] == lines;
    }
  }

  /** Overwriting row k changes its order's total by the difference of the two line totals. */
  lemma {:induction false} OrderTotalReplace(items: seq<ItemRow>, k: int, row: ItemRow, oid: int)
    requires 0 <= k < |items| && row.orderId == items[k].orderId
    ensures OrderTotal(items[k := row], oid)
              == OrderTotal(items, oid) + (if row.orderId == oid then LineTotal(row) - LineTotal(items[k]) else 0)
    decreases |items|
  {
    var n := |items| - 1;
    var init := items[..n];
    var last := items[n];
    var updated := items[k := row];
    if k == n {
      assert updated == init + [row];
      assert items == init + [last];
      OrderTotalAppend(init, row, oid);
      OrderTotalAppend(init, last, oid);
    } else {
      assert updated == init[k := row] + [last];
      assert items == init + [last];
      OrderTotalReplace(init, k, row, oid);
      OrderTotalAppend(init[k := row], last, oid);
      OrderTotalAppend(init, last, oid);
    }
  }

  /** Deleting row k removes its line total from its order's total. */
  lemma {:induction false} OrderTotalRemove(items: seq<ItemRow>, k: int, oid: int)
    requires 0 <= k < |items|
    ensures OrderTotal(items[..k] + items[k + 1..], oid)
              == OrderTotal(items, oid) - (if items[k].orderId == oid then LineTotal(items[k]) else 0)
    decreases |items|
  {
    var n := |items| - 1;
    var init := items[..n];
    var last := items[n];
    assert items == init + [last];
    if k == n {
      assert items[..k] + items[k + 1..] == init;
      OrderTotalAppend(init, last, oid);
    } else {
      assert items[..k] + items[k + 1..] == (init[..k] + init[k + 1..]) + [last];
      OrderTotalRemove(init, k, oid);
      OrderTotalAppend(init[..k] + init[k + 1..], last, oid);
      OrderTotalAppend(init, last, oid);
    }
  }

  /**
   * updateOrderTotal: sums unit price times quantity over the order's
   * lines and stores the result. A missing order surfaces as the wrapper
   * exception its own catch block throws.
   */
  method UpdateOrderTotal(db: Store, oid: int) returns (failure: Option<Failure>)
    modifies db`orders
    ensures db.orders.Keys == old(db.orders.Keys)
    ensures oid !in old(db.orders) ==> failure == Some(Service(M.FAILED_UPDATE_ORDER_TOTAL)) && db.orders == old(db.orders)
    ensures oid in old(db.orders) ==>
              failure.None? && db.orders == old(db.orders)[oid := old(db.orders)[oid].(totalAmount := OrderTotal(db.items, oid))]
  {
    if oid !in db.orders {
      return Some(Service(M.FAILED_UPDATE_ORDER_TOTAL));
    }
    var lines := OrderLines(db.items, oid);
    var total := 0;
    var i := 0;
    while i < |lines|
      invariant 0 <= i <= |lines|
      invariant total == LinesTotal(lines[..i])
    {
      assert lines[..i + 1][..i] == lines[..i];
      total := total + lines[i].unitPrice * lines[i].quantity;
      i := i + 1;
    }
    assert lines[..i] == lines;
    db.orders := db.orders[oid := db.orders[oid].(totalAmount := total)];
    failure := None;
  }

  // ---------------------------------------------------------------------
  // Status-only operations

  /**
   * updateOrderStatus: a legal transition rewrites the status alone and
   * answers the updated order; a missing order answers empty; an illegal
   * transition throws and changes nothing.
   */
  method UpdateOrderStatus(db: Store, orderId: Option<int>, status: Option<OrderStatus>) returns (r: Outcome<Option<OrderRow>>)
    requires db.Valid()
    modifies db`orders
    ensures db.Valid()
    ensures orderId.None? || status.None? ==> r.Err? && r.failure.Validation?
    ensures orderId.Some? && status.Some? && orderId.value !in old(db.orders) ==> r == Ok(None)
    ensures r.Err? || r == Ok(None) ==> db.orders == old(db.orders)
    ensures orderId.Some? && status.Some? && orderId.value in old(db.orders) ==>
              var current := old(db.orders)[orderId.value].status;
              match TransitionError(current, status.value)
              case Some(msg) => r == Err(Validation(msg, map[]))
              case None =>
                db.orders == old(db.orders)[orderId.value := old(db.orders)[orderId.value].(status := status.value)]
                && r == Ok(Some(db.orders[orderId.value]))
  {
    if orderId.None? {
      return Err(Validation(M.NULL_ORDER_ID, map[]));
    }
    if status.None? {
      return Err(Validation(M.NULL_STATUS, map[]));
    }
    var oid := orderId.value;
    if oid !in db.orders {
      return Ok(None);
    }
    var t := TransitionError(db.orders[oid].status, status.value);
    if t.Some? {
      return Err(Validation(t.value, map[]));
    }
    db.orders := db.orders[oid := db.orders[oid].(status := status.value)];
    assert db.orders.Keys == old(db.orders.Keys);
    r := Ok(Some(db.orders[oid]));
  }

  /**
   * cancelOrder: false for a missing order; refused once the order has
   * shipped, been delivered or been cancelled; otherwise the status becomes
   * CANCELLED. Stock committed for the order is not given back.
   */
  method CancelOrder(db: Store, orderId: Option<int>) returns (r: Outcome<bool>)
    requires db.Valid()
    modifies db`orders
    ensures db.Valid()
    ensures db.stocks == old(db.stocks) && db.movements == old(db.movements)
    ensures orderId.None? ==> r == Err(Service(M.NULL_ORDER_ID))
    ensures orderId.Some? && orderId.value !in old(db.orders) ==> r == Ok(false)
    ensures orderId.Some? && orderId.value in old(db.orders) ==>
              var order := old(db.orders)[orderId.value];
              if order.status in {SHIPPED, DELIVERED, CANCELLED} then
                r == Err(Service(M.CANNOT_CANCEL + StatusName(order.status)))
              else
                r == Ok(true) && db.orders == old(db.orders)[orderId.value := order.(status := CANCELLED)]
    ensures r != Ok(true) ==> db.orders == old(db.orders)
  {
    if orderId.None? {
      return Err(Service(M.NULL_ORDER_ID));
    }
    var oid := orderId.value;
    if oid !in db.orders {
      return Ok(false);
    }
    var order := db.orders[oid];
    if order.status == SHIPPED || order.status == DELIVERED || order.status == CANCELLED {
      return Err(Service(M.CANNOT_CANCEL + StatusName(order.status)));
    }
    db.orders := db.orders[oid := order.(status := CANCELLED)];
    assert db.orders.Keys == old(db.orders.Keys);
    r := Ok(true);
  }

  /**
   * processPayment: only a PENDING order can be paid, and paying only moves
   * it to PAID. The payment details are not looked at beyond the null check.
   */
  method ProcessPayment<D>(db: Store, orderId: Option<int>, paymentDetails: Option<D>) returns (r: Outcome<bool>)
    requires db.Valid()
    modifies db`orders
    ensures db.Valid()
    ensures r.Ok? ==> r.value
    ensures r.Ok? <==> orderId.Some? && paymentDetails.Some? && orderId.value in old(db.orders)
                       && old(db.orders)[orderId.value].status == PENDING
    ensures r.Ok? ==> db.orders == old(db.orders)[orderId.value := old(db.orders)[orderId.value].(status := PAID)]
    ensures r.Err? ==> db.orders == old(db.orders)
    ensures orderId.None? || paymentDetails.None? ==> r.Err? && r.failure.Validation?
    ensures orderId.Some? && paymentDetails.Some? && orderId.value !in old(db.orders) ==>
              r == Err(Service(M.NotFound(M.ORDER, orderId.value)))
  {
    if orderId.None? {
      return Err(Validation(M.NULL_ORDER_ID, map[]));
    }
    if paymentDetails.None? {
      return Err(Validation(M.NULL_PAYMENT_DETAILS, map[]));
    }
    var oid := orderId.value;
    if oid !in db.orders {
      return Err(Service(M.NotFound(M.ORDER, oid)));
    }
    var order := db.orders[oid];
    if order.status != PENDING {
      return Err(Validation(M.CANNOT_PAY + StatusName(order.status), map[]));
    }
    db.orders := db.orders[oid := order.(status := PAID)];
    assert db.orders.Keys == old(db.orders.Keys);
    r := Ok(true);
  }

  /**
   * processShipment: an order must be PROCESSING or PAID to ship, and then
   * its stock is committed by processStockForCustomerOrder, which accepts
   * only PENDING orders. The two guards exclude each other, so shipment
   * always fails and nothing changes. The stock service's refusal reaches
   * this method wrapped by the transaction interceptor in a DaoException,
   * which its ValidationException/ServiceException catch does not take, so
   * a shippable order fails with the generic "Failed to process shipment".
   */
  method ProcessShipment<D>(db: Store, orderId: Option<int>, shipmentDetails: Option<D>, now: Time) returns (r: Outcome<string>)
    requires db.Valid()
    modifies db`stocks, db`movements, db`orders
    ensures db.Valid()
    ensures r.Err?
    ensures db.stocks == old(db.stocks) && db.movements == old(db.movements) && db.orders == old(db.orders)
    ensures orderId.Some? && shipmentDetails.Some? && orderId.value in old(db.orders)
            && old(db.orders)[orderId.value].status in {PROCESSING, PAID} ==>
              r == Err(Service(M.FAILED_PROCESS_SHIPMENT))
  {
    if orderId.None? {
      return Err(Validation(M.NULL_ORDER_ID, map[]));
    }
    if shipmentDetails.None? {
      return Err(Validation(M.NULL_SHIPMENT_DETAILS, map[]));
    }
    var oid := orderId.value;
    if oid !in db.orders {
      return Err(Service(M.NotFound(M.ORDER, oid)));
    }
    var order := db.orders[oid];
    if order.status != PROCESSING && order.status != PAID {
      return Err(Validation(M.CANNOT_SHIP + StatusName(order.status), map[]));
    }
    var committed := StockService.ProcessStockForCustomerOrder(db, orderId, now);
    match committed
    case Err(_) =>
      r := Err(Service(M.FAILED_PROCESS_SHIPMENT));
    case Ok(_) =>
      assert false;
  }

  // ---------------------------------------------------------------------
  // Item editing (PENDING orders only)

  /**
   * addOrderItem: on a PENDING order, a validated line for a product the
   * order already holds adds its quantity to that line and keeps the line's
   * price; otherwise a new line with the resolved price is inserted. The
   * total is recomputed. The unique (order, product) constraint survives.
   */
  method AddOrderItem(db: Store, orderId: Option<int>, item: Option<ItemInput>) returns (r: Outcome<ItemRow>)
    requires db.Valid()
    modifies db`orders, db`items
    ensures db.Valid()
    ensures r.Ok? <==> orderId.Some? && item.Some? && orderId.value in old(db.orders)
                       && old(db.orders)[orderId.value].status == PENDING
                       && ValidateOrderItem(db.products, item.value).Ok?
    ensures r.Err? ==> db.orders == old(db.orders) && db.items == old(db.items)
    ensures orderId.Some? && item.Some? && orderId.value in old(db.orders) && old(db.orders)[orderId.value].status == PENDING
            && ValidateOrderItem(db.products, item.value).Err? ==>
              r == Err(ValidateOrderItem(db.products, item.value).failure)
    ensures r.Ok? ==>
              var oid := orderId.value;
              var pid := item.value.productId.value;
              var k := LineIndex(old(db.items), oid, pid);
              && (k >= 0 ==> db.items == old(db.items)[k := old(db.items)[k].(quantity := old(db.items)[k].quantity + item.value.quantity)]
                             && r.value == db.items[k])
              && (k < 0 ==> db.items == old(db.items) + [r.value] && r.value.id !in ItemIds(old(db.items))
                            && r.value == ItemRow(r.value.id, oid, pid, item.value.quantity, ValidateOrderItem(db.products, item.value).value))
              && db.orders == old(db.orders)[oid := old(db.orders)[oid].(totalAmount := OrderTotal(db.items, oid))]
  {
    if orderId.None? {
      return Err(Validation(M.NULL_ORDER_ID, map[]));
    }
    if item.None? {
      return Err(Validation(M.NULL_ORDER_ITEM, map[]));
    }
    var oid := orderId.value;
    if oid !in db.orders {
      return Err(Service(M.NotFound(M.ORDER, oid)));
    }
    var order := db.orders[oid];
    if order.status != PENDING {
      return Err(Validation(M.CANNOT_ADD_ITEMS + StatusName(order.status), map[]));
    }
    var checked := ValidateOrderItem(db.products, item.value);
    if checked.Err? {
      return Err(checked.failure);
    }
    var saved := MergeLine(db, oid, item.value.productId.value, item.value.quantity, checked.value);
    r := Ok(saved);
  }

  /**
   * The write half of addOrderItem: merge into the order's line for the
   * product when there is one, insert a new line otherwise, then recompute
   * the total.
   */
  method MergeLine(db: Store, oid: int, pid: int, quantity: int, price: int) returns (saved: ItemRow)
    requires db.Valid()
    requires oid in db.orders && pid in db.products
    modifies db`orders, db`items
    ensures db.Valid()
    ensures var k := LineIndex(old(db.items), oid, pid);
            && (k >= 0 ==> db.items == old(db.items)[k := old(db.items)[k].(quantity := old(db.items)[k].quantity + quantity)]
                           && saved == db.items[k])
            && (k < 0 ==> db.items == old(db.items) + [saved] && saved.id !in ItemIds(old(db.items))
                          && saved == ItemRow(saved.id, oid, pid, quantity, price))
            && db.orders == old(db.orders)[oid := old(db.orders)[oid].(totalAmount := OrderTotal(db.items, oid))]
  {
    var k := LineIndex(db.items, oid, pid);
    if k >= 0 {
      saved := db.items[k].(quantity := db.items[k].quantity + quantity);
      ReplaceItemWellFormed(db.items, k, saved, db.orders.Keys, db.products.Keys);
      db.items := db.items[k := saved];
    } else {
      var id := FreshId(ItemIds(db.items));
      saved := ItemRow(id, oid, pid, quantity, price);
      AppendItemWellFormed(db.items, saved, db.orders.Keys, db.products.Keys);
      db.items := db.items + [saved];
    }
    var failure := UpdateOrderTotal(db, oid);
  }

  /**
   * Adding to an existing line raises the order's total by the line's own
   * price times the added quantity; a new line raises it by its line total.
   */
  lemma AddOrderItemTotal(items: seq<ItemRow>, oid: int, pid: int, quantity: int, price: int, id: int)
    ensures var k := LineIndex(items, oid, pid);
            k >= 0 ==>
              OrderTotal(items[k := items[k].(quantity := items[k].quantity + quantity)], oid)
                == OrderTotal(items, oid) + items[k].unitPrice * quantity
    ensures LineIndex(items, oid, pid) < 0 ==>
              OrderTotal(items + [ItemRow(id, oid, pid, quantity, price)], oid) == OrderTotal(items, oid) + price * quantity
  {
    var k := LineIndex(items, oid, pid);
    if k >= 0 {
      var row := items[k].(quantity := items[k].quantity + quantity);
      OrderTotalReplace(items, k, row, oid);
      assert LineTotal(row) - LineTotal(items[k]) == items[k].unitPrice * quantity by {
        assert LineTotal(row) == items[k].unitPrice * (items[k].quantity + quantity);
      }
    } else {
      OrderTotalAppend(items, ItemRow(id, oid, pid, quantity, price), oid);
    }
  }

  /**
   * updateOrderItem: the stored line with the given id is overwritten by
   * the validated input, keeping its id and its order; refused unless the
   * order is PENDING. A change of product onto one the order already holds
   * in another line violates the unique constraint and aborts.
   */
  method UpdateOrderItem(db: Store, itemId: Option<int>, item: ItemInput) returns (r: Outcome<ItemRow>)
    requires db.Valid()
    modifies db`orders, db`items
    ensures db.Valid()
    ensures itemId.None? ==> r == Err(Validation(M.NULL_ORDER_ITEM_ID, map[]))
    ensures itemId.Some? && itemId.value !in ItemIds(old(db.items)) ==> r == Err(Service(M.NotFound(M.ORDER_ITEM, itemId.value)))
    ensures r.Err? ==> db.orders == old(db.orders) && db.items == old(db.items)
    ensures r.Ok? <==>
              && itemId.Some? && itemId.value in ItemIds(old(db.items))
              && var k := ItemIndex(old(db.items), itemId.value);
                 var oid := old(db.items)[k].orderId;
                 && old(db.orders)[oid].status == PENDING
                 && ValidateOrderItem(db.products, item).Ok?
                 && forall i :: 0 <= i < |old(db.items)| && i != k ==>
                      old(db.items)[i].orderId != oid || old(db.items)[i].productId != item.productId.value
    ensures r.Ok? ==>
              var k := ItemIndex(old(db.items), itemId.value);
              var oid := old(db.items)[k].orderId;
              && r.value == ItemRow(itemId.value, oid, item.productId.value, item.quantity, ValidateOrderItem(db.products, item).value)
              && db.items == old(db.items)[k := r.value]
              && db.orders == old(db.orders)[oid := old(db.orders)[oid].(totalAmount := OrderTotal(db.items, oid))]
  {
    if itemId.None? {
      return Err(Validation(M.NULL_ORDER_ITEM_ID, map[]));
    }
    var id := itemId.value;
    var k := ItemIndex(db.items, id);
    if k < 0 {
      return Err(Service(M.NotFound(M.ORDER_ITEM, id)));
    }
    var oid := db.items[k].orderId;
    var order := db.orders[oid];
    if order.status != PENDING {
      return Err(Validation(M.CANNOT_UPDATE_ITEMS + StatusName(order.status), map[]));
    }
    var checked := ValidateOrderItem(db.products, item);
    if checked.Err? {
      return Err(checked.failure);
    }
    var row := ItemRow(id, oid, item.productId.value, item.quantity, checked.value);
    var j := 0;
    while j < |db.items|
      invariant 0 <= j <= |db.items|
      invariant forall i :: 0 <= i < j && i != k ==> db.items[i].orderId != oid || db.items[i].productId != row.productId
    {
      if j != k && db.items[j].orderId == oid && db.items[j].productId == row.productId {
        return Err(Service(M.FAILED_UPDATE_ORDER_TOTAL));
      }
      j := j + 1;
    }
    ReplaceItemWellFormed(db.items, k, row, db.orders.Keys, db.products.Keys);
    db.items := db.items[k := row];
    var failure := UpdateOrderTotal(db, oid);
    r := Ok(row);
  }

  /**
   * removeOrderItem: false when no line has the id; refused unless the
   * owning order is PENDING; otherwise the line is deleted and the total
   * recomputed.
   */
  method RemoveOrderItem(db: Store, itemId: Option<int>) returns (r: Outcome<bool>)
    requires db.Valid()
    modifies db`orders, db`items
    ensures db.Valid()
    ensures itemId.None? ==> r == Err(Validation(M.NULL_ORDER_ITEM_ID, map[]))
    ensures itemId.Some? && itemId.value !in ItemIds(old(db.items)) ==> r == Ok(false)
    ensures r != Ok(true) ==> db.orders == old(db.orders) && db.items == old(db.items)
    ensures r == Ok(true) <==>
              itemId.Some? && itemId.value in ItemIds(old(db.items))
              && old(db.orders)[old(db.items)[ItemIndex(old(db.items), itemId.value)].orderId].status == PENDING
    ensures r == Ok(true) ==>
              var k := ItemIndex(old(db.items), itemId.value);
              var oid := old(db.items)[k].orderId;
              && db.items == old(db.items)[..k] + old(db.items)[k + 1..]
              && db.orders == old(db.orders)[oid := old(db.orders)[oid].(totalAmount := OrderTotal(db.items, oid))]
  {
    if itemId.None? {
      return Err(Validation(M.NULL_ORDER_ITEM_ID, map[]));
    }
    var k := ItemIndex(db.items, itemId.value);
    if k < 0 {
      return Ok(false);
    }
    var oid := db.items[k].orderId;
    var order := db.orders[oid];
    if order.status != PENDING {
      return Err(Validation(M.CANNOT_REMOVE_ITEMS + StatusName(order.status), map[]));
    }
    CommitRemoval(db, k);
    r := Ok(true);
  }

  /** The second half of removeOrderItem: the row goes and its order's total is recomputed. */
  method CommitRemoval(db: Store, k: int)
    requires db.Valid()
    requires 0 <= k < |db.items|
    modifies db`orders, db`items
    ensures db.Valid()
    ensures var oid := old(db.items)[k].orderId;
            && db.items == old(db.items)[..k] + old(db.items)[k + 1..]
            && db.orders == old(db.orders)[oid := old(db.orders)[oid].(totalAmount := OrderTotal(db.items, oid))]
  {
    var oid := db.items[k].orderId;
    RemoveItemWellFormed(db.items, k, db.orders.Keys, db.products.Keys);
    db.items := db.items[..k] + db.items[k + 1..];
    var failure := UpdateOrderTotal(db, oid);
  }

  // ---------------------------------------------------------------------
  // Creating and updating orders

  /** The order createOrder receives; None stands for a date or status left null. */
  datatype OrderInput = OrderInput(
    customerName: string,
    customerEmail: string,
    orderDate: Option<Time>,
    status: Option<OrderStatus>,
    items: seq<ItemInput>)

  /**
   * The first failure the item loop of createOrder meets: a line that does
   * not validate, or a second line for a product already inserted, which
   * the unique (order, product) constraint refuses. `seen` holds the
   * products inserted so far.
   */
  function ItemsFailure(products: map<int, ProductRow>, seen: set<int>, items: seq<ItemInput>): Option<Failure>
    decreases |items|
  {
    if items == [] then None
    else
      match ValidateOrderItem(products, items[0])
      case Err(f) => Some(f)
      case Ok(_) =>
        if items[0].productId.value in seen then Some(Service(M.FAILED_CREATE_ORDER))
        else ItemsFailure(products, seen + {items[0].productId.value}, items[1..])
  }

  /** The item loop succeeds exactly when every line validates and no product repeats. */
  lemma {:induction false} ItemsFailureNoneIff(products: map<int, ProductRow>, seen: set<int>, items: seq<ItemInput>)
    ensures ItemsFailure(products, seen, items).None? <==>
              && (forall j :: 0 <= j < |items| ==> ValidateOrderItem(products, items[j]).Ok?)
              && (forall j :: 0 <= j < |items| ==> items[j].productId.Some? && items[j].productId.value !in seen)
              && (forall i, j :: 0 <= i < j < |items| ==> items[i].productId != items[j].productId)
    decreases |items|
  {
    if items != [] {
      var rest := items[1..];
      assert forall j :: 0 < j < |items| ==> items[j] == rest[j - 1];
      if ValidateOrderItem(products, items[0]).Ok? {
        var p := items[0].productId.value;
        ItemsFailureNoneIff(products, seen + {p}, rest);
      }
    }
  }

  /** `row` is the line createOrder inserts under order `oid` for the input `it`. */
  predicate IsLineFor(products: map<int, ProductRow>, row: ItemRow, oid: int, it: ItemInput)
  {
    var checked := ValidateOrderItem(products, it);
    checked.Ok? && row == ItemRow(row.id, oid, it.productId.value, it.quantity, checked.value)
  }

  lemma AppendAssociates<T>(a: seq<T>, b: seq<T>, x: T)
    ensures a + (b + [x]) == a + b + [x]
  {
  }

  lemma LinesForAppend(products: map<int, ProductRow>, added: seq<ItemRow>, row: ItemRow, oid: int, inputs: seq<ItemInput>)
    requires |added| < |inputs|
    requires forall t :: 0 <= t < |added| ==> IsLineFor(products, added[t], oid, inputs[t])
    requires IsLineFor(products, row, oid, inputs[|added|])
    ensures forall t :: 0 <= t < |added| + 1 ==> IsLineFor(products, (added + [row])[t], oid, inputs[t])
  {
  }

  /**
   * The item loop of createOrder: each line is validated and given a fresh
   * id under order `oid`, which has no lines yet. The first failure is
   * returned and nothing is to be stored; otherwise `items` is the item
   * table with the new lines appended in input order.
   */
  method InsertLines(items0: seq<ItemRow>, orderIds: set<int>, products: map<int, ProductRow>, oid: int,
                     inputs: seq<ItemInput>) returns (failure: Option<Failure>, items: seq<ItemRow>)
    requires ItemsWellFormed(items0, orderIds, products.Keys)
    requires oid in orderIds && OrderLines(items0, oid) == []
    ensures failure == ItemsFailure(products, {}, inputs)
    ensures failure.None? ==>
              var lines := OrderLines(items, oid);
              && ItemsWellFormed(items, orderIds, products.Keys)
              && items == items0 + lines
              && |lines| == |inputs|
              && forall j :: 0 <= j < |inputs| ==> IsLineFor(products, lines[j], oid, inputs[j])
  {
    items := items0;
    var added: seq<ItemRow> := [];
    var j := 0;
    assert ProductsOf(added) == {} && inputs[j..] == inputs;
    while j < |inputs|
      invariant 0 <= j <= |inputs|
      invariant ItemsWellFormed(items, orderIds, products.Keys)
      invariant items == items0 + added && |added| == j
      invariant OrderLines(items, oid) == added
      invariant forall t :: 0 <= t < j ==> IsLineFor(products, added[t], oid, inputs[t])
      invariant ItemsFailure(products, {}, inputs) == ItemsFailure(products, ProductsOf(added), inputs[j..])
    {
      var it := inputs[j];
      assert inputs[j..][1..] == inputs[j + 1..];
      var checked := ValidateOrderItem(products, it);
      if checked.Err? {
        return Some(checked.failure), items0;
      }
      var pid := it.productId.value;
      LineIndexInLines(items, oid, pid);
      if LineIndex(items, oid, pid) >= 0 {
        return Some(Service(M.FAILED_CREATE_ORDER)), items0;
      }
      var id := FreshId(ItemIds(items));
      var row := ItemRow(id, oid, pid, it.quantity, checked.value);
      assert IsLineFor(products, row, oid, it);
      AppendItemWellFormed(items, row, orderIds, products.Keys);
      AppendAssociates(items0, added, row);
      OrderLinesAppend(items, row, oid);
      ProductsOfAppend(added, row);
      LinesForAppend(products, added, row, oid, inputs);
      items := items + [row];
      added := added + [row];
      j := j + 1;
    }
    assert inputs[j..] == [];
    failure := None;
  }

  /** Stores a new order with its lines and gives it the total of those lines. */
  method StoreNewOrder(db: Store, oid: int, row: OrderRow, items: seq<ItemRow>)
    requires db.Valid() && oid !in db.orders
    requires ItemsWellFormed(items, db.orders.Keys + {oid}, db.products.Keys)
    modifies db`orders, db`items
    ensures db.Valid()
    ensures db.items == items
    ensures db.orders == old(db.orders)[oid := row.(totalAmount := OrderTotal(items, oid))]
  {
    db.orders := db.orders[oid := row];
    db.items := items;
    var _ := UpdateOrderTotal(db, oid);
  }

  /**
   * createOrder: validates the customer fields, fills a null date with
   * `now` and a null status with PENDING, inserts the order and then its
   * lines, and sets the total from the lines. Any failure aborts the whole
   * transaction.
   */
  method CreateOrder(db: Store, input: OrderInput, now: Time) returns (r: Outcome<int>)
    requires db.Valid()
    modifies db`orders, db`items
    ensures db.Valid()
    ensures OrderErrors(input.customerName, input.customerEmail) != map[] ==>
              r == Err(Validation(M.ORDER_VALIDATION_FAILED, OrderErrors(input.customerName, input.customerEmail)))
    ensures OrderErrors(input.customerName, input.customerEmail) == map[] ==>
              (r.Err? <==> ItemsFailure(db.products, {}, input.items).Some?)
              && (r.Err? ==> r.failure == ItemsFailure(db.products, {}, input.items).value)
    ensures r.Err? ==> db.orders == old(db.orders) && db.items == old(db.items)
    ensures r.Ok? ==>
              var oid := r.value;
              var lines := OrderLines(db.items, oid);
              && oid !in old(db.orders)
              && db.orders == old(db.orders)[oid := OrderRow(input.customerName, input.customerEmail,
                                                              input.orderDate.GetOr(now), input.status.GetOr(PENDING),
                                                              OrderTotal(db.items, oid))]
              && db.items == old(db.items) + lines
              && |lines| == |input.items|
              && forall j :: 0 <= j < |lines| ==> IsLineFor(db.products, lines[j], oid, input.items[j])
  {
    var errors := OrderErrors(input.customerName, input.customerEmail);
    if errors != map[] {
      return Err(Validation(M.ORDER_VALIDATION_FAILED, errors));
    }
    var date := if input.orderDate.Some? then input.orderDate.value else now;
    var status := if input.status.Some? then input.status.value else PENDING;
    var oid := FreshId(db.orders.Keys);
    forall i | 0 <= i < |db.items|
      ensures db.items[i].orderId != oid
    {
      assert db.items[i].orderId in db.orders;
    }
    OrderLinesNone(db.items, oid);
    ItemsWellFormedMoreOrders(db.items, db.orders.Keys, db.orders.Keys + {oid}, db.products.Keys);
    var failure, items := InsertLines(db.items, db.orders.Keys + {oid}, db.products, oid, input.items);
    if failure.Some? {
      return Err(failure.value);
    }
    StoreNewOrder(db, oid, OrderRow(input.customerName, input.customerEmail, date, status, 0), items);
    r := Ok(oid);
  }

  /**
   * The fields updateOrder takes from its argument. The stored lines are
   * kept, which assumes the argument carries them: merging an order
   * without its lines would delete them through orphan removal.
   */
  datatype OrderUpdate = OrderUpdate(customerName: string, customerEmail: string, status: OrderStatus, totalAmount: int)

  /**
   * updateOrder: the order must exist; name and email are validated as on
   * create and a changed status must be a legal transition. The stored
   * order takes the new fields, keeps its orderDate, and has its total
   * recomputed from its lines.
   */
  method UpdateOrder(db: Store, orderId: Option<int>, input: OrderUpdate) returns (r: Outcome<OrderRow>)
    requires db.Valid()
    modifies db`orders
    ensures db.Valid()
    ensures orderId.None? ==> r == Err(Service(M.FAILED_UPDATE_ORDER))
    ensures orderId.Some? && orderId.value !in old(db.orders) ==> r == Err(Service(M.NotFound(M.ORDER, orderId.value)))
    ensures r.Err? ==> db.orders == old(db.orders)
    ensures orderId.Some? && orderId.value in old(db.orders) ==>
              var existing := old(db.orders)[orderId.value];
              var errors := OrderUpdateErrors(input.customerName, input.customerEmail, existing.status, input.status);
              if errors != map[] then
                r == Err(Validation(M.ORDER_VALIDATION_FAILED, errors))
              else
                && db.orders == old(db.orders)[orderId.value := OrderRow(input.customerName, input.customerEmail,
                                                                          existing.orderDate, input.status,
                                                                          OrderTotal(db.items, orderId.value))]
                && r == Ok(db.orders[orderId.value])
  {
    if orderId.None? {
      return Err(Service(M.FAILED_UPDATE_ORDER));
    }
    var oid := orderId.value;
    if oid !in db.orders {
      return Err(Service(M.NotFound(M.ORDER, oid)));
    }
    var existing := db.orders[oid];
    var errors := OrderUpdateErrors(input.customerName, input.customerEmail, existing.status, input.status);
    if errors != map[] {
      return Err(Validation(M.ORDER_VALIDATION_FAILED, errors));
    }
    db.orders := db.orders[oid := OrderRow(input.customerName, input.customerEmail, existing.orderDate, input.status, input.totalAmount)];
    assert db.orders.Keys == old(db.orders.Keys);
    var failure := UpdateOrderTotal(db, oid);
    r := Ok(db.orders[oid]);
  }
}
