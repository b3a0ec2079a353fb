/**
 * The database the DAOs hide, as one object whose fields are the tables.
 * Keyed tables are maps from the generated id to the row; the two item
 * tables, which the DAOs read back in insertion order, are sequences of
 * rows carrying their own ids. Every service method receives this object
 * and changes the tables it names.
 */
module Store {
  import opened Wrappers
  import opened MovementTypes
  import opened Ledger

  /** The status vocabulary the order service works with. */
  datatype OrderStatus = PENDING | PAID | PROCESSING | SHIPPED | DELIVERED | CANCELLED

  /** Enum.toString of an order status: the constant's name. */
  function StatusName(s: OrderStatus): string
  {
    match s
    case PENDING => "PENDING"
    case PAID => "PAID"
    case PROCESSING => "PROCESSING"
    case SHIPPED => "SHIPPED"
    case DELIVERED => "DELIVERED"
    case CANCELLED => "CANCELLED"
  }

  /** SupplierOrder.Status, with its mixed-case constants. */
  datatype SupplierOrderStatus = pending | placed | confirmed | shipped | delivered | cancelled | RECEIVED | COMPLETED

  function SupplierStatusName(s: SupplierOrderStatus): string
  {
    match s
    case pending => "pending"
    case placed => "placed"
    case confirmed => "confirmed"
    case shipped => "shipped"
    case delivered => "delivered"
    case cancelled => "cancelled"
    case RECEIVED => "RECEIVED"
    case COMPLETED => "COMPLETED"
  }

  /** User.Role. */
  datatype Role = admin | manager | user

  datatype ProductRow = ProductRow(
    name: string,
    description: Option<string>,
    sku: string,
    unitPrice: int,
    reorderLevel: int,
    createdAt: Time)

  datatype OrderRow = OrderRow(
    customerName: string,
    customerEmail: string,
    orderDate: Time,
    status: OrderStatus,
    totalAmount: int)

  /** A row of order_items: its own id, the owning order, the product and the frozen price. */
  datatype ItemRow = ItemRow(id: int, orderId: int, productId: int, quantity: int, unitPrice: int)

  datatype SupplierRow = SupplierRow(
    name: string,
    contactPerson: Option<string>,
    email: string,
    phone: string,
    address: string,
    createdAt: Time)

  datatype SupplierOrderRow = SupplierOrderRow(supplierId: int, status: SupplierOrderStatus, totalAmount: int)

  datatype SupplierItemRow = SupplierItemRow(id: int, supplierOrderId: int, productId: int, quantity: int, unitCost: int)

  /** A row of supplier_products, keyed by (supplier id, product id). */
  datatype SupplierProductRow = SupplierProductRow(unitCost: int, leadTimeDays: int)

  datatype UserRow = UserRow(username: string, password: string, email: string, role: Role, createdAt: Time)

  /** The ids in use in an item table. */
  function ItemIds(items: seq<ItemRow>): set<int>
  {
    set i | 0 <= i < |items| :: items[i].id
  }

  function SupplierItemIds(items: seq<SupplierItemRow>): set<int>
  {
    set i | 0 <= i < |items| :: items[i].id
  }

  /**
   * The order_items constraints: unique ids, the unique (order, product)
   * pair, and foreign keys into customer_orders and products.
   */
  predicate ItemsWellFormed(items: seq<ItemRow>, orders: set<int>, products: set<int>)
  {
    (forall i, j :: 0 <= i < j < |items| ==> items[i].id != items[j].id)
    && (forall i, j :: 0 <= i < j < |items| ==>
          items[i].orderId != items[j].orderId || items[i].productId != items[j].productId)
    && (forall i :: 0 <= i < |items| ==> items[i].orderId in orders && items[i].productId in products)
  }

  /** The same constraints for supplier_order_items. */
  predicate SupplierItemsWellFormed(items: seq<SupplierItemRow>, orders: set<int>, products: set<int>)
  {
    (forall i, j :: 0 <= i < j < |items| ==> items[i].id != items[j].id)
    && (forall i, j :: 0 <= i < j < |items| ==>
          items[i].supplierOrderId != items[j].supplierOrderId || items[i].productId != items[j].productId)
    && (forall i :: 0 <= i < |items| ==> items[i].supplierOrderId in orders && items[i].productId in products)
  }

  /** OrderItemDao.findByOrderId: the order's lines, in table order. */
  function OrderLines(items: seq<ItemRow>, oid: int): (r: seq<ItemRow>)
    ensures |r| <= |items|
    ensures forall x :: x in r ==> x in items && x.orderId == oid
    ensures forall i :: 0 <= i < |items| && items[i].orderId == oid ==> items[i] in r
    decreases |items|
  {
    if items == [] then []
    else
      var init := OrderLines(items[..|items| - 1], oid);
      var last := items[|items| - 1];
      if last.orderId == oid then init + [last] else init
  }

  /** SupplierOrderItemDao.findByOrderId. */
  function SupplierLines(items: seq<SupplierItemRow>, soid: int): (r: seq<SupplierItemRow>)
    ensures |r| <= |items|
    ensures forall x :: x in r ==> x in items && x.supplierOrderId == soid
    ensures forall i :: 0 <= i < |items| && items[i].supplierOrderId == soid ==> items[i] in r
    decreases |items|
  {
    if items == [] then []
    else
      var init := SupplierLines(items[..|items| - 1], soid);
      var last := items[|items| - 1];
      if last.supplierOrderId == soid then init + [last] else init
  }

  /** OrderItemDao.findByOrderIdAndProductId: the position of the order's line for the product, or -1. */
  function LineIndex(items: seq<ItemRow>, oid: int, pid: int): (k: int)
    ensures -1 <= k < |items|
    ensures k >= 0 ==> items[k].orderId == oid && items[k].productId == pid
    ensures k == -1 <==> forall i :: 0 <= i < |items| ==> items[i].orderId != oid || items[i].productId != pid
    decreases |items|
  {
    if items == [] then -1
    else
      var last := items[|items| - 1];
      if last.orderId == oid && last.productId == pid then |items| - 1
      else LineIndex(items[..|items| - 1], oid, pid)
  }

  /** OrderItemDao.findById: the position of the row with this id, or -1. */
  function ItemIndex(items: seq<ItemRow>, id: int): (k: int)
    ensures -1 <= k < |items|
    ensures k >= 0 ==> items[k].id == id
    ensures k == -1 <==> id !in ItemIds(items)
    decreases |items|
  {
    if items == [] then -1
    else if items[|items| - 1].id == id then |items| - 1
    else
      var k := ItemIndex(items[..|items| - 1], id);
      assert ItemIds(items) == ItemIds(items[..|items| - 1]) + {items[|items| - 1].id};
      k
  }

  /** Inserting a row with a fresh id and a fresh (order, product) pair keeps the constraints. */
  lemma AppendItemWellFormed(items: seq<ItemRow>, row: ItemRow, orders: set<int>, products: set<int>)
    requires ItemsWellFormed(items, orders, products)
    requires row.id !in ItemIds(items) && LineIndex(items, row.orderId, row.productId) == -1
    requires row.orderId in orders && row.productId in products
    ensures ItemsWellFormed(items + [row], orders, products)
  {
    var n := |items|;
    forall i | 0 <= i < n
      ensures items[i].id != row.id
    {
      assert items[i].id in ItemIds(items);
    }
  }

  /**
   * Overwriting row k with a row of the same id whose (order, product)
   * pair no other row holds keeps the constraints.
   */
  lemma ReplaceItemWellFormed(items: seq<ItemRow>, k: int, row: ItemRow, orders: set<int>, products: set<int>)
    requires ItemsWellFormed(items, orders, products)
    requires 0 <= k < |items| && row.id == items[k].id
    requires forall i :: 0 <= i < |items| && i != k ==> items[i].orderId != row.orderId || items[i].productId != row.productId
    requires row.orderId in orders && row.productId in products
    ensures ItemsWellFormed(items[k := row], orders, products)
  {
  }

  /** More orders never break the item table's foreign keys. */
  lemma ItemsWellFormedMoreOrders(items: seq<ItemRow>, orders: set<int>, orders': set<int>, products: set<int>)
    requires ItemsWellFormed(items, orders, products) && orders <= orders'
    ensures ItemsWellFormed(items, orders', products)
  {
  }

  /** A row of order `oid` inserted at the end becomes that order's last line. */
  lemma OrderLinesAppend(items: seq<ItemRow>, row: ItemRow, oid: int)
    ensures OrderLines(items + [row], oid) == OrderLines(items, oid) + (if row.orderId == oid then [row] else [])
  {
    assert (items + [row])[..|items|] == items;
  }

  /** The products an order's lines name. */
  function ProductsOf(lines: seq<ItemRow>): set<int>
  {
    set t | 0 <= t < |lines| :: lines[t].productId
  }

  lemma ProductsOfAppend(lines: seq<ItemRow>, row: ItemRow)
    ensures ProductsOf(lines + [row]) == ProductsOf(lines) + {row.productId}
  {
    var both := lines + [row];
    assert both[|lines|] == row;
    forall p | p in ProductsOf(lines)
      ensures p in ProductsOf(both)
    {
      var t :| 0 <= t < |lines| && lines[t].productId == p;
      assert both[t] == lines[t];
    }
  }

  /** The (order, product) lookup finds a row exactly when the product is among the order's lines. */
  lemma LineIndexInLines(items: seq<ItemRow>, oid: int, pid: int)
    ensures LineIndex(items, oid, pid) >= 0 <==> pid in ProductsOf(OrderLines(items, oid))
  {
    var lines := OrderLines(items, oid);
    var k := LineIndex(items, oid, pid);
    if k >= 0 {
      assert items[k] in lines;
      var t :| 0 <= t < |lines| && lines[t] == items[k];
    }
    if pid in ProductsOf(lines) {
      var t :| 0 <= t < |lines| && lines[t].productId == pid;
      assert lines[t] in lines;
      var i :| 0 <= i < |items| && items[i] == lines[t];
    }
  }

  /** An order no row refers to has no lines. */
  lemma {:induction false} OrderLinesNone(items: seq<ItemRow>, oid: int)
    requires forall i :: 0 <= i < |items| ==> items[i].orderId != oid
    ensures OrderLines(items, oid) == []
    decreases |items|
  {
    if items != [] {
      OrderLinesNone(items[..|items| - 1], oid);
    }
  }

  /** Deleting a row keeps the constraints. */
  lemma RemoveItemWellFormed(items: seq<ItemRow>, k: int, orders: set<int>, products: set<int>)
    requires ItemsWellFormed(items, orders, products)
    requires 0 <= k < |items|
    ensures ItemsWellFormed(items[..k] + items[k + 1..], orders, products)
  {
    var r := items[..k] + items[k + 1..];
    assert forall i :: 0 <= i < |r| ==> r[i] == items[if i < k then i else i + 1];
  }

  /** What the stock service reads from customer-order lines: product and quantity. */
  function Demands(lines: seq<ItemRow>): (ds: seq<Demand>)
    ensures |ds| == |lines|
    ensures forall i :: 0 <= i < |lines| ==> ds[i] == Demand(lines[i].productId, lines[i].quantity)
  {
    seq(|lines|, i requires 0 <= i < |lines| => Demand(lines[i].productId, lines[i].quantity))
  }

  function SupplierDemands(lines: seq<SupplierItemRow>): (ds: seq<Demand>)
    ensures |ds| == |lines|
    ensures forall i :: 0 <= i < |lines| ==> ds[i] == Demand(lines[i].productId, lines[i].quantity)
  {
    seq(|lines|, i requires 0 <= i < |lines| => Demand(lines[i].productId, lines[i].quantity))
  }

  /**
   * The unique (order, product) constraint means one order's lines name
   * distinct products.
   */
  lemma {:induction false} OrderLinesDistinct(items: seq<ItemRow>, oid: int, orders: set<int>, products: set<int>)
    requires ItemsWellFormed(items, orders, products)
    ensures DistinctProducts(Demands(OrderLines(items, oid)))
    decreases |items|
  {
    if items != [] {
      var init := items[..|items| - 1];
      var last := items[|items| - 1];
      WellFormedInit(items, orders, products);
      OrderLinesDistinct(init, oid, orders, products);
      if last.orderId == oid {
        LastLineNewProduct(items, oid, orders, products);
        AppendDistinct(OrderLines(init, oid), last);
      }
    }
  }

  /** Dropping the last row keeps the table constraints. */
  lemma WellFormedInit(items: seq<ItemRow>, orders: set<int>, products: set<int>)
    requires ItemsWellFormed(items, orders, products) && items != []
    ensures ItemsWellFormed(items[..|items| - 1], orders, products)
  {
    var init := items[..|items| - 1];
    assert forall i :: 0 <= i < |init| ==> init[i] == items[i];
  }

  /** The last row's product appears on no earlier line of its order. */
  lemma LastLineNewProduct(items: seq<ItemRow>, oid: int, orders: set<int>, products: set<int>)
    requires ItemsWellFormed(items, orders, products) && items != []
    requires items[|items| - 1].orderId == oid
    ensures forall x :: x in OrderLines(items[..|items| - 1], oid) ==> x.productId != items[|items| - 1].productId
  {
    var n := |items| - 1;
    var init := items[..n];
    forall x | x in OrderLines(init, oid)
      ensures x.productId != items[n].productId
    {
      assert x in init && x.orderId == oid;
      var k :| 0 <= k < n && init[k] == x;
      assert items[k] == x;
    }
  }

  /** Every line of an order names a stored product. */
  lemma LineProductsExist(items: seq<ItemRow>, oid: int, orders: set<int>, products: set<int>)
    requires ItemsWellFormed(items, orders, products)
    ensures var ds := Demands(OrderLines(items, oid));
            forall i :: 0 <= i < |ds| ==> ds[i].productId in products
  {
    var lines := OrderLines(items, oid);
    forall i | 0 <= i < |lines| ensures lines[i].productId in products {
      assert lines[i] in items;
    }
  }

  /** Every line of a supplier order names a stored product. */
  lemma SupplierLineProductsExist(items: seq<SupplierItemRow>, soid: int, orders: set<int>, products: set<int>)
    requires SupplierItemsWellFormed(items, orders, products)
    ensures var ds := SupplierDemands(SupplierLines(items, soid));
            forall i :: 0 <= i < |ds| ==> ds[i].productId in products
  {
    var lines := SupplierLines(items, soid);
    forall i | 0 <= i < |lines| ensures lines[i].productId in products {
      assert lines[i] in items;
    }
  }

  /** A line whose product differs from all earlier ones keeps the products distinct. */
  lemma AppendDistinct(r0: seq<ItemRow>, last: ItemRow)
    requires DistinctProducts(Demands(r0))
    requires forall x :: x in r0 ==> x.productId != last.productId
    ensures DistinctProducts(Demands(r0 + [last]))
  {
    var ds0 := Demands(r0);
    var ds := Demands(r0 + [last]);
    forall i, j | 0 <= i < j < |ds|
      ensures ds[i].productId != ds[j].productId
    {
      assert ds[i].productId == r0[i].productId;
      if j < |r0| {
        assert ds[j].productId == r0[j].productId;
        assert ds0[i].productId != ds0[j].productId;
      } else {
        assert r0[i] in r0;
      }
    }
  }

  /** ProductDaoImpl.findLowStockProducts: stock at or below a positive reorder level. */
  predicate IsLowStock(p: ProductRow, s: StockRow)
  {
    s.quantityAvailable <= p.reorderLevel && p.reorderLevel > 0
  }

  /** ProductDaoImpl.findOutOfStockProducts: stock exactly zero. */
  predicate IsOutOfStock(s: StockRow)
  {
    s.quantityAvailable == 0
  }

  class Store {
    var products: map<int, ProductRow>
    var stocks: map<int, StockRow>
    var movements: seq<Movement>
    var orders: map<int, OrderRow>
    var items: seq<ItemRow>
    var suppliers: map<int, SupplierRow>
    var supplierProducts: map<(int, int), SupplierProductRow>
    var supplierOrders: map<int, SupplierOrderRow>
    var supplierItems: seq<SupplierItemRow>
    var users: map<int, UserRow>

    /** The schema's keys and foreign keys. */
    ghost predicate Valid()
      reads this
    {
      stocks.Keys <= products.Keys
      && ItemsWellFormed(items, orders.Keys, products.Keys)
      && SupplierItemsWellFormed(supplierItems, supplierOrders.Keys, products.Keys)
      && (forall k :: k in supplierOrders ==> supplierOrders[k].supplierId in suppliers)
      && (forall key :: key in supplierProducts ==> key.0 in suppliers && key.1 in products)
    }

    /** An empty database. */
    constructor ()
      ensures Valid()
      ensures products == map[] && stocks == map[] && movements == [] && orders == map[] && items == []
      ensures suppliers == map[] && supplierProducts == map[] && supplierOrders == map[] && supplierItems == []
      ensures users == map[]
    {
      products := map[];
      stocks := map[];
      movements := [];
      orders := map[];
      items := [];
      suppliers := map[];
      supplierProducts := map[];
      supplierOrders := map[];
      supplierItems := [];
      users := map[];
    }

    /**
     * StockDaoImpl.updateQuantity: adds the change to a stored Stock with no
     * lower bound and no movement; empty when the product has no Stock.
     */
    method UpdateQuantity(productId: int, change: int, now: Time) returns (r: Option<StockRow>)
      modifies this`stocks
      ensures productId !in old(stocks) ==> r == None && stocks == old(stocks)
      ensures productId in old(stocks) ==>
                stocks == AdjustWithoutMovement(old(stocks), productId, change, now) && r == Some(stocks[productId])
    {
      if productId in stocks {
        stocks := AdjustWithoutMovement(stocks, productId, change, now);
        r := Some(stocks[productId]);
      } else {
        r := None;
      }
    }
  }

  /** The keys at or above `k`. */
  function KeysFrom(keys: set<int>, k: int): set<int>
  {
    set y | y in keys && y >= k
  }

  /** The identity column: a positive key not yet in use. */
  method FreshId(keys: set<int>) returns (k: int)
    ensures k >= 1 && k !in keys
  {
    k := 1;
    while k in keys
      invariant k >= 1
      decreases |KeysFrom(keys, k)|
    {
      assert KeysFrom(keys, k) == KeysFrom(keys, k + 1) + {k};
      k := k + 1;
    }
  }
}
