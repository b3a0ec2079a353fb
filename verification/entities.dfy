/**
 * The persistent entities as the application's own objects: fields that
 * setters and helper methods assign in place, item lists with back-references
 * kept in step by add/remove methods, totals recomputed from those lists,
 * the supplier cost lookup, and the equals/hashCode each entity defines.
 *
 * A Java reference that may be null is a nullable class type or an Option;
 * amounts are integer cents (see Money); LocalDateTime.now() and
 * LocalDate.now() are parameters. `List.remove(Object)` removes the first
 * element the argument's equals accepts, so each removal below is specified
 * through that equals.
 */
module Entities {
  import opened Wrappers
  import opened MovementTypes
  import Money
  import L = Ledger
  import S = Store
  import OS = OrderService

  type Time = L.Time

  // ---------------------------------------------------------------------------
  // Java hashing
  // ---------------------------------------------------------------------------

  const TWO_32: int := 0x1_0000_0000

  /** The 32-bit two's-complement value of `x`, as Java's int arithmetic leaves it. */
  function ToJavaInt(x: int): (r: int)
    ensures IsJavaInt(r)
    ensures (x - r) % TWO_32 == 0
    ensures IsJavaInt(x) ==> r == x
  {
    (x - INT_MIN) % TWO_32 + INT_MIN
  }

  /** Objects.hashCode of an Integer: its value, 0 for null. */
  function IntegerHash(x: Option<int>): int
  {
    match x
    case None => 0
    case Some(v) => ToJavaInt(v)
  }

  /**
   * The UTF-16 code units Java stores for one character: the character
   * itself inside the Basic Multilingual Plane, else a surrogate pair.
   */
  function CharUnits(c: char): (u: seq<int>)
    ensures |u| == 1 <==> (c as int) < 0x1_0000
    ensures |u| == 1 ==> u[0] == c as int
    ensures |u| != 1 ==> |u| == 2 && 0xD800 <= u[0] < 0xDC00 <= u[1] < 0xE000
    ensures |u| != 1 ==> (u[0] - 0xD800) * 0x400 + (u[1] - 0xDC00) + 0x1_0000 == c as int
  {
    var v := c as int;
    if v < 0x1_0000 then [v]
    else [0xD800 + (v - 0x1_0000) / 0x400, 0xDC00 + (v - 0x1_0000) % 0x400]
  }

  /** The UTF-16 code units of a string, the sequence Java's String holds. */
  function Utf16Units(s: string): (u: seq<int>)
    ensures |s| <= |u| <= 2 * |s|
    ensures forall i :: 0 <= i < |u| ==> 0 <= u[i] < 0x1_0000
    ensures (forall i :: 0 <= i < |s| ==> (s[i] as int) < 0x1_0000) ==>
              |u| == |s| && forall i :: 0 <= i < |s| ==> u[i] == s[i] as int
  {
    if s == [] then [] else CharUnits(s[0]) + Utf16Units(s[1..])
  }

  /** The hashCode fold over code units: u[0]*31^(n-1) + ... + u[n-1], in int arithmetic. */
  function UnitsHash(u: seq<int>): (r: int)
    ensures IsJavaInt(r)
    decreases |u|
  {
    if u == [] then 0 else ToJavaInt(31 * UnitsHash(u[..|u| - 1]) + u[|u| - 1])
  }

  /** String.hashCode: the fold over the string's UTF-16 code units. */
  function StringHashOf(s: string): (r: int)
    ensures IsJavaInt(r)
  {
    UnitsHash(Utf16Units(s))
  }

  /** Encoding a concatenation encodes each part in turn. */
  lemma {:induction false} Utf16UnitsAppend(s: string, t: string)
    ensures Utf16Units(s + t) == Utf16Units(s) + Utf16Units(t)
    decreases |s|
  {
    if s == [] {
      assert s + t == t;
    } else {
      assert (s + t)[0] == s[0];
      assert (s + t)[1..] == s[1..] + t;
      Utf16UnitsAppend(s[1..], t);
      assert CharUnits(s[0]) + (Utf16Units(s[1..]) + Utf16Units(t))
          == (CharUnits(s[0]) + Utf16Units(s[1..])) + Utf16Units(t);
    }
  }

  /** One step of the fold. */
  lemma UnitsHashSnoc(u: seq<int>, x: int)
    ensures UnitsHash(u + [x]) == ToJavaInt(31 * UnitsHash(u) + x)
  {
    assert (u + [x])[..|u|] == u;
  }

  /** The code units of `s + [c]`: those of `s`, then those of `c`. */
  lemma Utf16UnitsSnoc(s: string, c: char)
    ensures Utf16Units(s + [c]) == Utf16Units(s) + CharUnits(c)
  {
    Utf16UnitsAppend(s, [c]);
    assert [c][1..] == [];
  }

  /**
   * Appending a character of the Basic Multilingual Plane multiplies the
   * hash by 31 and adds the character, in int arithmetic.
   */
  lemma StringHashSnoc(s: string, c: char)
    ensures (c as int) < 0x1_0000 ==> StringHashOf(s + [c]) == ToJavaInt(31 * StringHashOf(s) + c as int)
  {
    Utf16UnitsSnoc(s, c);
    var a := Utf16Units(s);
    if (c as int) < 0x1_0000 {
      assert a + CharUnits(c) == a + [c as int];
      UnitsHashSnoc(a, c as int);
    }
  }

  /** A supplementary character takes that step once per surrogate. */
  lemma StringHashSnocPair(s: string, c: char)
    ensures (c as int) >= 0x1_0000 ==>
              var u := CharUnits(c);
              StringHashOf(s + [c]) == ToJavaInt(31 * ToJavaInt(31 * StringHashOf(s) + u[0]) + u[1])
  {
    Utf16UnitsSnoc(s, c);
    var a := Utf16Units(s);
    var u := CharUnits(c);
    if (c as int) >= 0x1_0000 {
      assert a + u == (a + [u[0]]) + [u[1]];
      UnitsHashSnoc(a + [u[0]], u[1]);
      UnitsHashSnoc(a, u[0]);
    }
  }

  /** A character outside the Basic Multilingual Plane hashes as its two surrogates: 31 * 0xD83D + 0xDE00. */
  lemma SupplementaryHash()
    ensures Utf16Units("\U{1F600}") == [0xD83D, 0xDE00]
    ensures StringHashOf("\U{1F600}") == 1772899
  {
    var u := Utf16Units("\U{1F600}");
    assert u == CharUnits('\U{1F600}');
    assert u[..1] == [0xD83D];
    assert [0xD83D][..0] == [];
  }

  function StringHash(s: Option<string>): int
  {
    match s
    case None => 0
    case Some(t) => StringHashOf(t)
  }

  /** Objects.hash(a, b) given the hashes of a and b: 31 * (31 * 1 + a) + b. */
  function HashOfTwo(a: int, b: int): (r: int)
    ensures IsJavaInt(r)
  {
    ToJavaInt(31 * ToJavaInt(31 + a) + b)
  }

  /** Removes the element at `k`, or nothing when `k` is -1 (List.remove found no match). */
  function RemoveAt<T>(s: seq<T>, k: int): (r: seq<T>)
    requires -1 <= k < |s|
    ensures k == -1 ==> r == s
    ensures k >= 0 ==> |r| == |s| - 1 && r == s[..k] + s[k + 1..]
  {
    if k < 0 then s else s[..k] + s[k + 1..]
  }

  // ---------------------------------------------------------------------------
  // Supplier (only the fields its equals reads)
  // ---------------------------------------------------------------------------

  class Supplier {
    var id: Option<int>
    var email: Option<string>

    constructor (id: Option<int>, email: Option<string>)
      ensures this.id == id && this.email == email
    {
      this.id := id;
      this.email := email;
    }

    /** Supplier.equals: same id (both null included), or the same non-null email. */
    predicate Equals(that: Supplier?)
      reads this, that
    {
      that != null && (id == that.id || (email.Some? && email == that.email))
    }
  }

  // ---------------------------------------------------------------------------
  // Product
  // ---------------------------------------------------------------------------

  class Product {
    var id: Option<int>
    var sku: Option<string>
    var unitPrice: Option<int>
    var reorderLevel: Option<int>
    var createdAt: Time
    var stock: Stock?
    var stockMovements: seq<StockMovement>
    var supplierProducts: seq<SupplierProduct>

    /** The no-argument constructor: reorder level 0 and the creation time; nothing else is set. */
    constructor (now: Time)
      ensures id.None? && sku.None? && unitPrice.None? && reorderLevel == Some(0) && createdAt == now
      ensures stock == null && stockMovements == [] && supplierProducts == []
    {
      id, sku, unitPrice, reorderLevel, createdAt := None, None, None, Some(0), now;
      stock, stockMovements, supplierProducts := null, [], [];
    }

    /** The (name, sku, unitPrice) constructor, which also sets reorder level 0. */
    constructor WithPrice(sku: string, unitPrice: int, now: Time)
      ensures id.None? && this.sku == Some(sku) && this.unitPrice == Some(unitPrice)
      ensures reorderLevel == Some(0) && createdAt == now
      ensures stock == null && stockMovements == [] && supplierProducts == []
    {
      id, this.sku, this.unitPrice, reorderLevel, createdAt := None, Some(sku), Some(unitPrice), Some(0), now;
      stock, stockMovements, supplierProducts := null, [], [];
    }

    /** Product.equals: same id (both null included), or the same non-null SKU. */
    predicate Equals(that: Product?)
      reads this, that
    {
      that != null && (id == that.id || (sku.Some? && sku == that.sku))
    }

    /** Product.hashCode: Objects.hash(id, sku). */
    function HashCode(): (h: int)
      reads this
      ensures IsJavaInt(h)
    {
      HashOfTwo(IntegerHash(id), StringHash(sku))
    }

    /** setStock: stores the stock and, when it is not null, points its product back here. */
    method SetStock(s: Stock?)
      modifies this`stock, s
      ensures stock == s
      ensures s != null ==> s.product == this && s.id == old(s.id)
                            && s.quantityAvailable == old(s.quantityAvailable) && s.lastUpdated == old(s.lastUpdated)
    {
      stock := s;
      if s != null {
        s.product := this;
      }
    }

    /** addStockMovement: appends the movement and points it back here. */
    method AddStockMovement(m: StockMovement)
      modifies this`stockMovements, m`product
      ensures stockMovements == old(stockMovements) + [m]
      ensures m.product == this
    {
      stockMovements := stockMovements + [m];
      m.product := this;
    }

    /**
     * removeStockMovement: removes the first movement with the argument's
     * id (StockMovement.equals compares ids only) and clears the argument's
     * back-reference, whichever element was removed.
     */
    method RemoveStockMovement(m: StockMovement)
      modifies this`stockMovements, m`product
      ensures stockMovements == RemoveAt(old(stockMovements), old(FirstWithId(stockMovements, m.id)))
      ensures m.product == null
    {
      var k := FirstWithId(stockMovements, m.id);
      stockMovements := RemoveAt(stockMovements, k);
      m.product := null;
    }
  }

  // ---------------------------------------------------------------------------
  // Stock
  // ---------------------------------------------------------------------------

  class Stock {
    var id: Option<int>
    var product: Product?
    var quantityAvailable: int
    var lastUpdated: Time

    /** The no-argument constructor: quantity 0. */
    constructor (now: Time)
      ensures id.None? && product == null && quantityAvailable == 0 && lastUpdated == now
    {
      id, product, quantityAvailable, lastUpdated := None, null, 0, now;
    }

    constructor ForProduct(product: Product?, quantityAvailable: int, now: Time)
      ensures id.None? && this.product == product && this.quantityAvailable == quantityAvailable && lastUpdated == now
    {
      id, this.product, this.quantityAvailable, lastUpdated := None, product, quantityAvailable, now;
    }

    /** setQuantityAvailable: overwrites the quantity and refreshes lastUpdated. */
    method SetQuantityAvailable(quantity: int, now: Time)
      modifies this`quantityAvailable, this`lastUpdated
      ensures quantityAvailable == quantity && lastUpdated == now
    {
      quantityAvailable, lastUpdated := quantity, now;
    }

    /**
     * updateQuantity: adds `change` with no lower bound and records no
     * movement, then refreshes lastUpdated.
     */
    method UpdateQuantity(change: int, now: Time)
      modifies this`quantityAvailable, this`lastUpdated
      ensures quantityAvailable == old(quantityAvailable) + change && lastUpdated == now
    {
      quantityAvailable, lastUpdated := quantityAvailable + change, now;
    }

    /** isBelowReorderLevel: a product with a reorder level, and a quantity strictly below it. */
    predicate IsBelowReorderLevel()
      reads this, product
    {
      product != null && product.reorderLevel.Some? && quantityAvailable < product.reorderLevel.value
    }

    /** Stock.equals: same id, or a non-null product that equals the other's product. */
    predicate Equals(that: Stock?)
      reads this, that, product, if that == null then null else that.product
    {
      that != null && (id == that.id || (product != null && product.Equals(that.product)))
    }
  }

  // ---------------------------------------------------------------------------
  // StockMovement
  // ---------------------------------------------------------------------------

  class StockMovement {
    var id: Option<int>
    var product: Product?
    var movementType: MovementType
    var quantity: int
    var referenceId: Option<int>
    var movementDate: Time

    /** The (product, type, quantity, referenceId) constructor. */
    constructor (product: Product?, movementType: MovementType, quantity: int, referenceId: Option<int>, now: Time)
      ensures id.None? && this.product == product && this.movementType == movementType
      ensures this.quantity == quantity && this.referenceId == referenceId && movementDate == now
    {
      id, this.product, this.movementType, this.quantity := None, product, movementType, quantity;
      this.referenceId, movementDate := referenceId, now;
    }
  }

  /**
   * The index List.remove picks for a movement: the first element whose id
   * equals `id` (StockMovement.equals compares ids, both null included), or -1.
   */
  function FirstWithId(ms: seq<StockMovement>, id: Option<int>): (k: int)
    reads ms`id
    ensures -1 <= k < |ms|
    ensures k >= 0 ==> ms[k].id == id && forall j :: 0 <= j < k ==> ms[j].id != id
    ensures k == -1 <==> forall j :: 0 <= j < |ms| ==> ms[j].id != id
    decreases |ms|
  {
    if ms == [] then -1
    else if ms[0].id == id then 0
    else
      var k := FirstWithId(ms[1..], id);
      if k < 0 then -1 else k + 1
  }

  // ---------------------------------------------------------------------------
  // CustomerOrder and OrderItem
  // ---------------------------------------------------------------------------

  /** CustomerOrder.Status, the entity's own lowercase vocabulary. */
  datatype OrderStatus = pending | processing | shipped | delivered | cancelled

  class CustomerOrder {
    var id: Option<int>
    var customerName: Option<string>
    var customerEmail: Option<string>
    var orderDate: Time
    var status: OrderStatus
    var totalAmount: int
    var orderItems: seq<OrderItem>

    /** The no-argument constructor: status pending, total 0, no items, dated now. */
    constructor (now: Time)
      ensures id.None? && customerName.None? && customerEmail.None? && orderDate == now
      ensures status == pending && totalAmount == 0 && orderItems == []
    {
      id, customerName, customerEmail, orderDate := None, None, None, now;
      status, totalAmount, orderItems := pending, 0, [];
    }

    constructor ForCustomer(customerName: string, customerEmail: string, now: Time)
      ensures id.None? && this.customerName == Some(customerName) && this.customerEmail == Some(customerEmail)
      ensures orderDate == now && status == pending && totalAmount == 0 && orderItems == []
    {
      id, this.customerName, this.customerEmail, orderDate := None, Some(customerName), Some(customerEmail), now;
      status, totalAmount, orderItems := pending, 0, [];
    }

    constructor WithStatus(customerName: string, customerEmail: string, status: OrderStatus, totalAmount: int, now: Time)
      ensures id.None? && this.customerName == Some(customerName) && this.customerEmail == Some(customerEmail)
      ensures orderDate == now && this.status == status && this.totalAmount == totalAmount && orderItems == []
    {
      id, this.customerName, this.customerEmail, orderDate := None, Some(customerName), Some(customerEmail), now;
      this.status, this.totalAmount, orderItems := status, totalAmount, [];
    }

    /** CustomerOrder.equals: the ids are equal, both null included. */
    predicate Equals(that: CustomerOrder?)
      reads this, that
    {
      that != null && id == that.id
    }

    /**
     * recalculateTotalAmount: the sum of unitPrice * quantity over the
     * items. A line without a price or quantity makes the stream throw
     * (`priced` is false) and the stored total stays as it was.
     */
    method RecalculateTotalAmount() returns (priced: bool)
      modifies this`totalAmount
      ensures priced <==> ItemsTotal(orderItems).Some?
      ensures totalAmount == ItemsTotal(orderItems).GetOr(old(totalAmount))
    {
      var total := ItemsTotal(orderItems);
      priced := total.Some?;
      if priced {
        totalAmount := total.value;
      }
    }

    /** addOrderItem: appends the item, points it back here and recomputes the total. */
    method AddOrderItem(item: OrderItem) returns (priced: bool)
      modifies this`orderItems, this`totalAmount, item`order
      ensures orderItems == old(orderItems) + [item]
      ensures item.order == this
      ensures priced <==> ItemsTotal(orderItems).Some?
      ensures totalAmount == ItemsTotal(orderItems).GetOr(old(totalAmount))
    {
      orderItems := orderItems + [item];
      item.order := this;
      priced := RecalculateTotalAmount();
    }

    /**
     * removeOrderItem: removes the first item the argument's equals
     * accepts, clears the argument's back-reference and recomputes the total.
     */
    method RemoveOrderItem(item: OrderItem) returns (priced: bool)
      modifies this`orderItems, this`totalAmount, item`order
      ensures orderItems == RemoveAt(old(orderItems), old(FirstEqualItem(orderItems, item)))
      ensures item.order == null
      ensures priced <==> ItemsTotal(orderItems).Some?
      ensures totalAmount == ItemsTotal(orderItems).GetOr(old(totalAmount))
    {
      var k := FirstEqualItem(orderItems, item);
      orderItems := RemoveAt(orderItems, k);
      item.order := null;
      priced := RecalculateTotalAmount();
    }
  }

  class OrderItem {
    var id: Option<int>
    var order: CustomerOrder?
    var product: Product?
    var quantity: Option<int>
    var unitPrice: Option<int>

    constructor ()
      ensures id.None? && order == null && product == null && quantity.None? && unitPrice.None?
    {
      id, order, product, quantity, unitPrice := None, null, null, None, None;
    }

    /** The (order, product, quantity) constructor captures the product's current price. */
    constructor ForProduct(order: CustomerOrder?, product: Product, quantity: Option<int>)
      ensures id.None? && this.order == order && this.product == product && this.quantity == quantity
      ensures unitPrice == product.unitPrice
    {
      id, this.order, this.product, this.quantity, unitPrice := None, order, product, quantity, product.unitPrice;
    }

    constructor WithPrice(order: CustomerOrder?, product: Product?, quantity: Option<int>, unitPrice: Option<int>)
      ensures id.None? && this.order == order && this.product == product && this.quantity == quantity
      ensures this.unitPrice == unitPrice
    {
      id, this.order, this.product, this.quantity, this.unitPrice := None, order, product, quantity, unitPrice;
    }

    /**
     * setProduct: takes the product's price only when this item has none
     * yet, so a price once set is never overwritten by a later price change.
     */
    method SetProduct(p: Product?)
      modifies this`product, this`unitPrice
      ensures product == p
      ensures old(unitPrice).Some? ==> unitPrice == old(unitPrice)
      ensures old(unitPrice).None? ==> unitPrice == if p == null then None else p.unitPrice
    {
      product := p;
      if p != null && unitPrice.None? {
        unitPrice := p.unitPrice;
      }
    }

    /** getLineTotal: unitPrice * quantity; None where either is null and the call would throw. */
    function LineTotal(): (r: Option<int>)
      reads this`unitPrice, this`quantity
      ensures r.Some? <==> unitPrice.Some? && quantity.Some?
    {
      if unitPrice.Some? && quantity.Some? then Some(unitPrice.value * quantity.value) else None
    }

    /**
     * OrderItem.equals: same id (both null included), or this item has an
     * order and a product and both equal the other's.
     */
    predicate Equals(that: OrderItem)
      reads this, that, order, product, that.order, that.product
    {
      id == that.id
      || (order != null && product != null && order.Equals(that.order) && product.Equals(that.product))
    }
  }

  /**
   * The sum of the line totals of `items`, folded from the first; None when
   * some line lacks a price or quantity.
   */
  function ItemsTotal(items: seq<OrderItem>): (r: Option<int>)
    reads items`unitPrice, items`quantity
    ensures r.Some? <==> forall i :: 0 <= i < |items| ==> items[i].LineTotal().Some?
    decreases |items|
  {
    if items == [] then Some(0)
    else
      var init := ItemsTotal(items[..|items| - 1]);
      var last := items[|items| - 1].LineTotal();
      if init.Some? && last.Some? then Some(init.value + last.value) else None
  }

  /** The index List.remove picks for `item`: the first element `item.Equals` accepts, or -1. */
  function FirstEqualItem(items: seq<OrderItem>, item: OrderItem): (k: int)
    reads items, item, item.order, item.product
    reads set x | x in items && x.order != null :: x.order
    reads set x | x in items && x.product != null :: x.product
    ensures -1 <= k < |items|
    ensures k >= 0 ==> item.Equals(items[k]) && forall j :: 0 <= j < k ==> !item.Equals(items[j])
    ensures k == -1 <==> forall j :: 0 <= j < |items| ==> !item.Equals(items[j])
    decreases |items|
  {
    if items == [] then -1
    else if item.Equals(items[0]) then 0
    else
      var k := FirstEqualItem(items[1..], item);
      if k < 0 then -1 else k + 1
  }

  // ---------------------------------------------------------------------------
  // SupplierOrder and SupplierOrderItem
  // ---------------------------------------------------------------------------

  class SupplierOrder {
    var id: Option<int>
    var supplier: Supplier?
    var orderDate: Time
    var status: S.SupplierOrderStatus
    var totalAmount: int
    var expectedDelivery: Option<int>
    var orderItems: seq<SupplierOrderItem>

    /** The no-argument constructor: status pending, total 0, no items, dated now. */
    constructor (now: Time)
      ensures id.None? && supplier == null && orderDate == now && status == S.pending
      ensures totalAmount == 0 && expectedDelivery.None? && orderItems == []
    {
      id, supplier, orderDate, status := None, null, now, S.pending;
      totalAmount, expectedDelivery, orderItems := 0, None, [];
    }

    /** The one-argument constructor: no expected delivery date yet. */
    constructor ForSupplier(supplier: Supplier?, now: Time)
      ensures id.None? && this.supplier == supplier && orderDate == now && status == S.pending
      ensures totalAmount == 0 && expectedDelivery.None? && orderItems == []
    {
      id, this.supplier, orderDate, status := None, supplier, now, S.pending;
      totalAmount, expectedDelivery, orderItems := 0, None, [];
    }

    /** SupplierOrder.equals: the ids are equal, both null included. */
    predicate Equals(that: SupplierOrder?)
      reads this, that
    {
      that != null && id == that.id
    }

    predicate IsDelivered()
      reads this
    {
      status == S.delivered
    }

    /** isOverdue: an expected delivery day strictly before `today`, and not delivered. */
    predicate IsOverdue(today: int)
      reads this
    {
      expectedDelivery.Some? && expectedDelivery.value < today && !IsDelivered()
    }

    /** recalculateTotalAmount: the sum of unitCost * quantity over the items. */
    method RecalculateTotalAmount() returns (priced: bool)
      modifies this`totalAmount
      ensures priced <==> SupplierItemsTotal(orderItems).Some?
      ensures totalAmount == SupplierItemsTotal(orderItems).GetOr(old(totalAmount))
    {
      var total := SupplierItemsTotal(orderItems);
      priced := total.Some?;
      if priced {
        totalAmount := total.value;
      }
    }

    method AddOrderItem(item: SupplierOrderItem) returns (priced: bool)
      modifies this`orderItems, this`totalAmount, item`supplierOrder
      ensures orderItems == old(orderItems) + [item]
      ensures item.supplierOrder == this
      ensures priced <==> SupplierItemsTotal(orderItems).Some?
      ensures totalAmount == SupplierItemsTotal(orderItems).GetOr(old(totalAmount))
    {
      orderItems := orderItems + [item];
      item.supplierOrder := this;
      priced := RecalculateTotalAmount();
    }

    method RemoveOrderItem(item: SupplierOrderItem) returns (priced: bool)
      modifies this`orderItems, this`totalAmount, item`supplierOrder
      ensures orderItems == RemoveAt(old(orderItems), old(FirstEqualSupplierItem(orderItems, item)))
      ensures item.supplierOrder == null
      ensures priced <==> SupplierItemsTotal(orderItems).Some?
      ensures totalAmount == SupplierItemsTotal(orderItems).GetOr(old(totalAmount))
    {
      var k := FirstEqualSupplierItem(orderItems, item);
      orderItems := RemoveAt(orderItems, k);
      item.supplierOrder := null;
      priced := RecalculateTotalAmount();
    }
  }

  class SupplierOrderItem {
    var id: Option<int>
    var supplierOrder: SupplierOrder?
    var product: Product?
    var quantity: Option<int>
    var unitCost: Option<int>

    constructor ()
      ensures id.None? && supplierOrder == null && product == null && quantity.None? && unitCost.None?
    {
      id, supplierOrder, product, quantity, unitCost := None, null, null, None, None;
    }

    /** The (order, product, quantity) constructor looks the unit cost up. */
    constructor ForProduct(supplierOrder: SupplierOrder?, product: Product?, quantity: Option<int>)
      requires LinksHaveSuppliers(product)
      ensures id.None? && this.supplierOrder == supplierOrder && this.product == product && this.quantity == quantity
      ensures unitCost == SupplierCost(supplierOrder, product)
    {
      var cost := FindSupplierProductCost(supplierOrder, product);
      id, this.supplierOrder, this.product, this.quantity, unitCost := None, supplierOrder, product, quantity, cost;
    }

    /**
     * setProduct: looks the unit cost up only when there is a supplier
     * order and no cost yet; an existing cost is kept.
     */
    method SetProduct(p: Product?)
      requires LinksHaveSuppliers(p)
      modifies this`product, this`unitCost
      ensures product == p
      ensures old(unitCost).Some? || p == null || supplierOrder == null ==> unitCost == old(unitCost)
      ensures old(unitCost).None? && p != null && supplierOrder != null ==> unitCost == SupplierCost(supplierOrder, p)
    {
      product := p;
      if p != null && supplierOrder != null && unitCost.None? {
        unitCost := FindSupplierProductCost(supplierOrder, p);
      }
    }

    /** getLineTotal: unitCost * quantity; None where either is null. */
    function LineTotal(): (r: Option<int>)
      reads this`unitCost, this`quantity
      ensures r.Some? <==> unitCost.Some? && quantity.Some?
    {
      if unitCost.Some? && quantity.Some? then Some(unitCost.value * quantity.value) else None
    }

    /** SupplierOrderItem.equals: same id, or order and product present and both equal the other's. */
    predicate Equals(that: SupplierOrderItem)
      reads this, that, supplierOrder, product, that.supplierOrder, that.product
    {
      id == that.id
      || (supplierOrder != null && product != null
          && supplierOrder.Equals(that.supplierOrder) && product.Equals(that.product))
    }
  }

  function SupplierItemsTotal(items: seq<SupplierOrderItem>): (r: Option<int>)
    reads items`unitCost, items`quantity
    ensures r.Some? <==> forall i :: 0 <= i < |items| ==> items[i].LineTotal().Some?
    decreases |items|
  {
    if items == [] then Some(0)
    else
      var init := SupplierItemsTotal(items[..|items| - 1]);
      var last := items[|items| - 1].LineTotal();
      if init.Some? && last.Some? then Some(init.value + last.value) else None
  }

  function FirstEqualSupplierItem(items: seq<SupplierOrderItem>, item: SupplierOrderItem): (k: int)
    reads items, item, item.supplierOrder, item.product
    reads set x | x in items && x.supplierOrder != null :: x.supplierOrder
    reads set x | x in items && x.product != null :: x.product
    ensures -1 <= k < |items|
    ensures k >= 0 ==> item.Equals(items[k]) && forall j :: 0 <= j < k ==> !item.Equals(items[j])
    ensures k == -1 <==> forall j :: 0 <= j < |items| ==> !item.Equals(items[j])
    decreases |items|
  {
    if items == [] then -1
    else if item.Equals(items[0]) then 0
    else
      var k := FirstEqualSupplierItem(items[1..], item);
      if k < 0 then -1 else k + 1
  }

  // ---------------------------------------------------------------------------
  // The supplier cost lookup
  // ---------------------------------------------------------------------------

  /** Every supplier-product link of `p` names a supplier (the lookup dereferences it). */
  predicate LinksHaveSuppliers(p: Product?)
    reads p, if p == null then {} else set l | l in p.supplierProducts
  {
    p != null ==> forall i :: 0 <= i < |p.supplierProducts| ==> p.supplierProducts[i].supplier != null
  }

  /** The first link whose supplier equals `s`, or -1. */
  function FirstLinkFor(links: seq<SupplierProduct>, s: Supplier): (k: int)
    requires forall i :: 0 <= i < |links| ==> links[i].supplier != null
    reads links, set l | l in links && l.supplier != null :: l.supplier, s
    ensures -1 <= k < |links|
    ensures k >= 0 ==> links[k].supplier.Equals(s) && forall j :: 0 <= j < k ==> !links[j].supplier.Equals(s)
    ensures k == -1 <==> forall j :: 0 <= j < |links| ==> !links[j].supplier.Equals(s)
    decreases |links|
  {
    if links == [] then -1
    else if links[0].supplier.Equals(s) then 0
    else
      var k := FirstLinkFor(links[1..], s);
      if k < 0 then -1 else k + 1
  }

  /**
   * The cost findSupplierProductCost answers: the unit cost of the first
   * link to the order's supplier; failing that the product's price, or
   * 0.00 when there is no product.
   */
  function SupplierCost(so: SupplierOrder?, p: Product?): Option<int>
    requires LinksHaveSuppliers(p)
    reads so, p
    reads if p == null then {} else set l | l in p.supplierProducts
    reads if p == null then {} else set l | l in p.supplierProducts && l.supplier != null :: l.supplier
    reads if so == null then null else so.supplier
  {
    if p == null then Some(0)
    else if so != null && so.supplier != null && FirstLinkFor(p.supplierProducts, so.supplier) >= 0 then
      p.supplierProducts[FirstLinkFor(p.supplierProducts, so.supplier)].unitCost
    else p.unitPrice
  }

  /** findSupplierProductCost, with its early-return search loop. */
  method FindSupplierProductCost(so: SupplierOrder?, p: Product?) returns (cost: Option<int>)
    requires LinksHaveSuppliers(p)
    ensures cost == SupplierCost(so, p)
    ensures p != null && (so == null || so.supplier == null) ==> cost == p.unitPrice
    ensures p == null ==> cost == Some(0)
  {
    if so != null && so.supplier != null && p != null {
      var links := p.supplierProducts;
      var i := 0;
      while i < |links|
        invariant 0 <= i <= |links|
        invariant forall j :: 0 <= j < i ==> !links[j].supplier.Equals(so.supplier)
      {
        if links[i].supplier.Equals(so.supplier) {
          return links[i].unitCost;
        }
        i := i + 1;
      }
    }
    cost := if p != null then p.unitPrice else Some(0);
  }

  // ---------------------------------------------------------------------------
  // SupplierProduct and its key
  // ---------------------------------------------------------------------------

  class SupplierProduct {
    var supplier: Supplier?
    var product: Product?
    var unitCost: Option<int>
    var leadTimeDays: Option<int>

    /** The no-argument constructor: lead time 1 day from the field initialiser. */
    constructor ()
      ensures supplier == null && product == null && unitCost.None? && leadTimeDays == Some(1)
    {
      supplier, product, unitCost, leadTimeDays := null, null, None, Some(1);
    }

    constructor WithCost(supplier: Supplier?, product: Product?, unitCost: Option<int>)
      ensures this.supplier == supplier && this.product == product && this.unitCost == unitCost
      ensures leadTimeDays == Some(1)
    {
      this.supplier, this.product, this.unitCost, leadTimeDays := supplier, product, unitCost, Some(1);
    }

    /**
     * getProfitMarginPercent in hundredths of a percent: 0 without a
     * product, price or positive cost; otherwise the margin over the price,
     * rounded half-up. None stands for the ArithmeticException a zero price
     * raises in the division.
     */
    function ProfitMarginPercent(): (r: Option<int>)
      reads this, product
      ensures product == null || product.unitPrice.None? || unitCost.None? || unitCost.value <= 0 ==> r == Some(0)
      ensures r.None? <==> product != null && product.unitPrice == Some(0) && unitCost.Some? && unitCost.value > 0
      ensures r.Some? && product != null && product.unitPrice.Some? && product.unitPrice.value != 0 && unitCost.Some? && unitCost.value > 0 ==>
                var price, n := product.unitPrice.value, (product.unitPrice.value - unitCost.value) * 10000;
                2 * Money.Abs(n - r.value * price) <= Money.Abs(price)
                && (2 * Money.Abs(n - r.value * price) == Money.Abs(price) ==> Money.Abs(r.value * price) > Money.Abs(n))
    {
      if product == null || product.unitPrice.None? || unitCost.None? || unitCost.value <= 0 then Some(0)
      else if product.unitPrice.value == 0 then None
      else Some(Margin(product.unitPrice.value, unitCost.value))
    }

    /** SupplierProduct.equals: the suppliers are equal and the products are equal (Objects.equals on each). */
    predicate Equals(that: SupplierProduct?)
      reads this, that, supplier, product
      reads if that == null then {} else {that.supplier, that.product}
    {
      that != null
      && (supplier == that.supplier || (supplier != null && supplier.Equals(that.supplier)))
      && (product == that.product || (product != null && product.Equals(that.product)))
    }
  }

  /**
   * (price - cost) * 100 / price rounded half-up to two decimals, in
   * hundredths of a percent, for amounts in cents.
   */
  function Margin(price: int, cost: int): (r: int)
    requires price != 0
    ensures 2 * Money.Abs((price - cost) * 10000 - r * price) <= Money.Abs(price)
    ensures 2 * Money.Abs((price - cost) * 10000 - r * price) == Money.Abs(price)
            ==> Money.Abs(r * price) > Money.Abs((price - cost) * 10000)
  {
    if price > 0 then Money.HalfUp((price - cost) * 10000, price)
    else Money.HalfUp((cost - price) * 10000, -price)
  }

  /** The composite key of supplier_products. */
  datatype SupplierProductId = SupplierProductId(supplier: Option<int>, product: Option<int>)
  {
    /** setSupplierId: only the supplier half changes. */
    function SetSupplierId(x: Option<int>): (r: SupplierProductId)
      ensures r.supplier == x && r.product == product
    {
      this.(supplier := x)
    }

    /** setProductId: only the product half changes. */
    function SetProductId(y: Option<int>): (r: SupplierProductId)
      ensures r.product == y && r.supplier == supplier
    {
      this.(product := y)
    }

    /** SupplierProductId.hashCode: Objects.hash(supplier, product). */
    function HashCode(): (h: int)
      ensures IsJavaInt(h)
    {
      HashOfTwo(IntegerHash(supplier), IntegerHash(product))
    }
  }

  // ---------------------------------------------------------------------------
  // Properties
  // ---------------------------------------------------------------------------

  /** Appending a priced line adds its line total to a priced sum. */
  lemma ItemsTotalSnoc(items: seq<OrderItem>, x: OrderItem)
    ensures ItemsTotal(items + [x]).Some? <==> ItemsTotal(items).Some? && x.LineTotal().Some?
    ensures ItemsTotal(items + [x]).Some? ==> ItemsTotal(items + [x]).value == ItemsTotal(items).value + x.LineTotal().value
  {
    assert (items + [x])[..|items|] == items;
  }

  /**
   * The entity's recalculated total agrees with the total the order
   * service stores: over lines carrying the same prices and quantities,
   * the fold over OrderItem objects equals the sum over order_items rows.
   */
  lemma {:induction false} ItemsTotalMatchesRows(items: seq<OrderItem>, rows: seq<S.ItemRow>)
    requires |items| == |rows|
    requires forall i :: 0 <= i < |items| ==>
               items[i].unitPrice == Some(rows[i].unitPrice) && items[i].quantity == Some(rows[i].quantity)
    ensures ItemsTotal(items) == Some(OS.LinesTotal(rows))
    decreases |items|
  {
    if items != [] {
      var n := |items| - 1;
      ItemsTotalMatchesRows(items[..n], rows[..n]);
    }
  }

  /** Product.equals is not transitive: an id match and a SKU match do not compose. */
  lemma ProductEqualsNotTransitive(a: Product, b: Product, c: Product)
    requires a.id == Some(1) && a.sku == Some("A")
    requires b.id == Some(1) && b.sku == Some("B")
    requires c.id == Some(2) && c.sku == Some("B")
    ensures a.Equals(b) && b.Equals(c) && !a.Equals(c)
  {
  }

  /** Product.equals and hashCode disagree: equal products whose SKUs differ hash apart. */
  lemma ProductEqualsHashMismatch(a: Product, b: Product)
    requires a.id == Some(1) && a.sku == Some("A")
    requires b.id == Some(1) && b.sku == Some("B")
    ensures a.Equals(b) && a.HashCode() != b.HashCode()
  {
    assert StringHashOf("A") == 65 by {
      assert "A"[..0] == [];
    }
    assert StringHashOf("B") == 66 by {
      assert "B"[..0] == [];
    }
  }

  /**
   * Unsaved movements all have a null id and so all equal one another:
   * removing the second of two unsaved movements removes the first.
   */
  lemma UnsavedMovementRemovalHitsFirst(ms: seq<StockMovement>, a: StockMovement, b: StockMovement)
    requires ms == [a, b] && a.id.None? && b.id.None?
    ensures RemoveAt(ms, FirstWithId(ms, b.id)) == [b]
  {
  }

  /**
   * The same for order items: two items of an unsaved order both without
   * an id are equal, so removing the second takes the first out of the list.
   */
  lemma UnsavedItemRemovalHitsFirst(items: seq<OrderItem>, a: OrderItem, b: OrderItem)
    requires items == [a, b] && a.id.None? && b.id.None?
    ensures FirstEqualItem(items, b) == 0
    ensures RemoveAt(items, FirstEqualItem(items, b)) == [b]
  {
    assert b.Equals(a);
  }

  /**
   * The entity's strict isBelowReorderLevel and the DAO's low-stock query
   * (quantity <= level, level > 0) disagree exactly at the level itself and
   * for a zero level.
   */
  lemma BelowReorderVersusLowStock(st: Stock, p: S.ProductRow, row: L.StockRow)
    requires st.product != null && st.product.reorderLevel == Some(p.reorderLevel)
    requires row.quantityAvailable == st.quantityAvailable
    ensures S.IsLowStock(p, row) <==>
              p.reorderLevel > 0 && (st.IsBelowReorderLevel() || st.quantityAvailable == p.reorderLevel)
    ensures st.quantityAvailable == p.reorderLevel > 0 ==> S.IsLowStock(p, row) && !st.IsBelowReorderLevel()
    ensures p.reorderLevel <= 0 ==> !S.IsLowStock(p, row)
  {
  }

  /** An overdue order is undelivered and stays overdue on every later day until it is delivered. */
  lemma OverdueStaysOverdue(o: SupplierOrder, today: int, later: int)
    requires o.IsOverdue(today) && today <= later
    ensures !o.IsDelivered() && o.IsOverdue(later)
  {
  }

  /** The sign of the margin follows the sign of price - cost, up to rounding to zero. */
  lemma MarginSign(price: int, cost: int)
    requires price > 0
    ensures Margin(price, cost) > 0 ==> price > cost
    ensures Margin(price, cost) < 0 ==> price < cost
    ensures price == cost ==> Margin(price, cost) == 0
    ensures price >= cost ==> Margin(price, cost) >= 0
  {
  }

  /**
   * Rounding to two decimals can erase a positive margin: a cost one cent
   * under a price of 10000.00 gives 0.0001%, which rounds to 0.00.
   */
  lemma MarginRoundsSmallGainToZero()
    ensures Margin(1000000, 999999) == 0
  {
    var r := Margin(1000000, 999999);
    assert 2 * Money.Abs(10000 - r * 1000000) <= 1000000;
  }

  /** Half-up at the second decimal: a price of 3.00 and a cost of 1.00 give 66.67%. */
  lemma MarginRoundsHalfUp()
    ensures Margin(300, 100) == 6667
  {
    var r := Margin(300, 100);
    assert 2 * Money.Abs(2000000 - r * 300) <= 300;
  }

  /** Equal keys hash alike; the hash is not injective, so distinct keys may also collide. */
  lemma SupplierProductIdHash(a: SupplierProductId, b: SupplierProductId)
    ensures a == b ==> a.HashCode() == b.HashCode()
    ensures SupplierProductId(Some(0), Some(31)).HashCode() == SupplierProductId(Some(1), Some(0)).HashCode()
  {
  }
}
