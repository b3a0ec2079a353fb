/**
 * ProductServiceImpl: the product catalogue. Every write validates its
 * input first and is one transaction over the product table (and, on
 * create, the stock table): on failure nothing is stored. A validated
 * product has a non-empty name of at most 100 characters, a non-empty SKU
 * of at most 50 characters that no other product carries, a positive
 * price and a non-negative reorder level; every write keeps the whole
 * table that way.
 */
module ProductService {
  import opened Wrappers
  import opened Ledger
  import opened Store
  import M = Messages

  /**
   * The fields of a Product the caller fills in. A null name or SKU is
   * written "" (the validator treats null and empty alike); a null price
   * or reorder level is None.
   */
  datatype ProductInput = ProductInput(
    name: string,
    description: Option<string>,
    sku: string,
    unitPrice: Option<int>,
    reorderLevel: Option<int>)

  /** ProductDao.skuExists, as the set of SKUs in use. */
  function Skus(products: map<int, ProductRow>): (r: set<string>)
    ensures forall id :: id in products ==> products[id].sku in r
    ensures forall s :: s in r ==> exists id :: id in products && products[id].sku == s
  {
    set id | id in products :: products[id].sku
  }

  /**
   * validateProduct / validateProductForUpdate: the error map, field by
   * field. `taken` is the set of SKUs that count as already used: all of
   * them on create, those of the other products on update (an unchanged
   * SKU is not looked up).
   */
  function ProductErrors(p: ProductInput, taken: set<string>): (e: map<string, string>)
    ensures M.KEY_NAME in e <==> p.name == "" || |p.name| > 100
    ensures M.KEY_NAME in e ==> e[M.KEY_NAME] == if p.name == "" then M.EMPTY_NAME else M.NAME_TOO_LONG
    ensures M.KEY_SKU in e <==> p.sku == "" || |p.sku| > 50 || p.sku in taken
    ensures M.KEY_SKU in e ==>
              e[M.KEY_SKU] == if p.sku == "" then M.EMPTY_SKU else if |p.sku| > 50 then M.SKU_TOO_LONG else M.SKU_EXISTS
    ensures M.KEY_UNIT_PRICE in e <==> p.unitPrice.None? || p.unitPrice.value <= 0
    ensures M.KEY_UNIT_PRICE in e ==>
              e[M.KEY_UNIT_PRICE] == if p.unitPrice.None? then M.NULL_UNIT_PRICE else M.UNIT_PRICE_NOT_POSITIVE
    ensures M.KEY_REORDER_LEVEL in e <==> p.reorderLevel.Some? && p.reorderLevel.value < 0
    ensures M.KEY_REORDER_LEVEL in e ==> e[M.KEY_REORDER_LEVEL] == M.NEGATIVE_REORDER_LEVEL
    ensures e.Keys <= {M.KEY_NAME, M.KEY_SKU, M.KEY_UNIT_PRICE, M.KEY_REORDER_LEVEL}
  {
    var e0: map<string, string> := map[];
    var e1 :=
      if p.name == "" then e0[M.KEY_NAME := M.EMPTY_NAME]
      else if |p.name| > 100 then e0[M.KEY_NAME := M.NAME_TOO_LONG]
      else e0;
    var e2 :=
      if p.sku == "" then e1[M.KEY_SKU := M.EMPTY_SKU]
      else if |p.sku| > 50 then e1[M.KEY_SKU := M.SKU_TOO_LONG]
      else if p.sku in taken then e1[M.KEY_SKU := M.SKU_EXISTS]
      else e1;
    var e3 :=
      if p.unitPrice.None? then e2[M.KEY_UNIT_PRICE := M.NULL_UNIT_PRICE]
      else if p.unitPrice.value <= 0 then e2[M.KEY_UNIT_PRICE := M.UNIT_PRICE_NOT_POSITIVE]
      else e2;
    if p.reorderLevel.Some? && p.reorderLevel.value < 0 then e3[M.KEY_REORDER_LEVEL := M.NEGATIVE_REORDER_LEVEL]
    else e3
  }

  /** The checks every stored product has passed. */
  predicate Acceptable(row: ProductRow)
  {
    0 < |row.name| <= 100 && 0 < |row.sku| <= 50 && row.unitPrice > 0 && row.reorderLevel >= 0
  }

  /** The unique constraint on products.sku. */
  predicate SkusUnique(products: map<int, ProductRow>)
  {
    forall a, b :: a in products && b in products && a != b ==> products[a].sku != products[b].sku
  }

  /** The invariant the service keeps over the product table. */
  predicate Catalogue(products: map<int, ProductRow>)
  {
    SkusUnique(products) && forall id :: id in products ==> Acceptable(products[id])
  }

  /** The row a validated input becomes, with the creation time it is given. */
  function RowOf(p: ProductInput, createdAt: Time): ProductRow
    requires p.unitPrice.Some? && p.reorderLevel.Some?
  {
    ProductRow(p.name, p.description, p.sku, p.unitPrice.value, p.reorderLevel.value, createdAt)
  }

  /** An input with no errors and a reorder level becomes an acceptable row with an unused SKU. */
  lemma AcceptedInput(p: ProductInput, taken: set<string>, createdAt: Time)
    requires p.reorderLevel.Some?
    ensures ProductErrors(p, taken) == map[] <==>
              p.unitPrice.Some? && Acceptable(RowOf(p, createdAt)) && p.sku !in taken
  {
    var e := ProductErrors(p, taken);
    if e != map[] {
      var k :| k in e;
      assert k in {M.KEY_NAME, M.KEY_SKU, M.KEY_UNIT_PRICE, M.KEY_REORDER_LEVEL};
    }
  }

  /** Inserting an acceptable row under a new id with an unused SKU keeps the invariant. */
  lemma InsertKeepsCatalogue(products: map<int, ProductRow>, id: int, row: ProductRow)
    requires Catalogue(products) && id !in products
    requires Acceptable(row) && row.sku !in Skus(products)
    ensures Catalogue(products[id := row])
  {
    var q := products[id := row];
    forall a, b | a in q && b in q && a != b
      ensures q[a].sku != q[b].sku
    {
      if a == id {
        assert q[b] == products[b];
      } else if b == id {
        assert q[a] == products[a];
      }
    }
  }

  /**
   * Overwriting a product with an acceptable row keeps the invariant when
   * the SKU is unchanged or used by no product.
   */
  lemma ReplaceKeepsCatalogue(products: map<int, ProductRow>, id: int, row: ProductRow)
    requires Catalogue(products) && id in products
    requires Acceptable(row) && (row.sku == products[id].sku || row.sku !in Skus(products))
    ensures Catalogue(products[id := row])
  {
    var q := products[id := row];
    forall a, b | a in q && b in q && a != b
      ensures q[a].sku != q[b].sku
    {
      if a == id {
        assert q[b] == products[b];
      } else if b == id {
        assert q[a] == products[a];
      }
    }
  }

  /**
   * createProduct: validates against every SKU in use, stamps the creation
   * time, stores the product under a new id and gives it a Stock at 0 with
   * no movement. A null reorder level passes validation but violates the
   * column's NOT NULL constraint, which surfaces as the wrapper exception.
   */
  method CreateProduct(db: Store, input: ProductInput, now: Time) returns (r: Outcome<int>)
    requires db.Valid()
    modifies db`products, db`stocks
    ensures db.Valid()
    ensures ProductErrors(input, Skus(old(db.products))) != map[] ==>
              r == Err(Validation(M.PRODUCT_VALIDATION_FAILED, ProductErrors(input, Skus(old(db.products)))))
    ensures ProductErrors(input, Skus(old(db.products))) == map[] && input.reorderLevel.None? ==>
              r == Err(Service(M.FAILED_CREATE_PRODUCT))
    ensures r.Err? ==> db.products == old(db.products) && db.stocks == old(db.stocks)
    ensures r.Ok? ==>
              && ProductErrors(input, Skus(old(db.products))) == map[] && input.reorderLevel.Some?
              && r.value !in old(db.products)
              && db.products == old(db.products)[r.value := RowOf(input, now)]
              && db.stocks == WithStock(old(db.stocks), r.value, now)
              && db.stocks[r.value] == StockRow(0, now)
    ensures Catalogue(old(db.products)) ==> Catalogue(db.products)
  {
    var errors := ProductErrors(input, Skus(db.products));
    if errors != map[] {
      return Err(Validation(M.PRODUCT_VALIDATION_FAILED, errors));
    }
    if input.reorderLevel.None? {
      return Err(Service(M.FAILED_CREATE_PRODUCT));
    }
    var id := FreshId(db.products.Keys);
    var row := RowOf(input, now);
    AcceptedInput(input, Skus(db.products), now);
    if Catalogue(db.products) {
      InsertKeepsCatalogue(db.products, id, row);
    }
    db.products := db.products[id := row];
    db.stocks := WithStock(db.stocks, id, now);
    r := Ok(id);
  }

  /**
   * updateProduct: the product must exist (a null id fails inside the
   * lookup); the input is validated with SKU uniqueness checked only for a
   * changed SKU; the stored row takes every field of the input but keeps
   * its creation time. The stock, movements and supplier links are not
   * touched, which assumes the argument carries them: merging a product
   * without them would delete them through orphan removal. A null reorder
   * level passes validation, and the merge does not write it yet: the
   * column's NOT NULL constraint fails at the interceptor's commit, after
   * the method has returned, so the caller gets the interceptor's
   * "Transaction failed" and the product is unchanged.
   */
  method UpdateProduct(db: Store, productId: Option<int>, input: ProductInput) returns (r: Outcome<ProductRow>)
    requires db.Valid()
    modifies db`products
    ensures db.Valid()
    ensures productId.None? ==> r == Err(Service(M.FAILED_UPDATE_PRODUCT))
    ensures productId.Some? && productId.value !in old(db.products) ==>
              r == Err(Service(M.NotFound(M.PRODUCT, productId.value)))
    ensures r.Err? ==> db.products == old(db.products)
    ensures productId.Some? && productId.value in old(db.products) ==>
              var existing := old(db.products)[productId.value];
              var errors := ProductErrors(input, Skus(old(db.products)) - {existing.sku});
              if errors != map[] then r == Err(Validation(M.PRODUCT_VALIDATION_FAILED, errors))
              else if input.reorderLevel.None? then r == Err(Runtime(M.TRANSACTION_FAILED))
              else
                && db.products == old(db.products)[productId.value := RowOf(input, existing.createdAt)]
                && r == Ok(db.products[productId.value])
    ensures Catalogue(old(db.products)) ==> Catalogue(db.products)
  {
    if productId.None? {
      return Err(Service(M.FAILED_UPDATE_PRODUCT));
    }
    var id := productId.value;
    if id !in db.products {
      return Err(Service(M.NotFound(M.PRODUCT, id)));
    }
    var existing := db.products[id];
    var taken := Skus(db.products) - {existing.sku};
    var errors := ProductErrors(input, taken);
    if errors != map[] {
      return Err(Validation(M.PRODUCT_VALIDATION_FAILED, errors));
    }
    if input.reorderLevel.None? {
      return Err(Runtime(M.TRANSACTION_FAILED));
    }
    var row := RowOf(input, existing.createdAt);
    AcceptedInput(input, taken, existing.createdAt);
    if Catalogue(db.products) {
      ReplaceKeepsCatalogue(db.products, id, row);
    }
    db.products := db.products[id := row];
    assert db.products.Keys == old(db.products.Keys);
    r := Ok(row);
  }

  /**
   * updatePrice: refuses a null id, a null price and a price that is not
   * positive; answers empty for a missing product; otherwise changes the
   * unit price and nothing else.
   */
  method UpdatePrice(db: Store, productId: Option<int>, price: Option<int>) returns (r: Outcome<Option<ProductRow>>)
    requires db.Valid()
    modifies db`products
    ensures db.Valid()
    ensures productId.None? ==> r == Err(Validation(M.NULL_PRODUCT_ID, map[]))
    ensures productId.Some? && price.None? ==> r == Err(Validation(M.NULL_PRICE, map[]))
    ensures productId.Some? && price.Some? && price.value <= 0 ==> r == Err(Validation(M.PRICE_NOT_POSITIVE, map[]))
    ensures productId.Some? && price.Some? && price.value > 0 && productId.value !in old(db.products) ==> r == Ok(None)
    ensures r.Err? || r == Ok(None) ==> db.products == old(db.products)
    ensures productId.Some? && price.Some? && price.value > 0 && productId.value in old(db.products) ==>
              var id := productId.value;
              && db.products == old(db.products)[id := old(db.products)[id].(unitPrice := price.value)]
              && r == Ok(Some(db.products[id]))
    ensures Catalogue(old(db.products)) ==> Catalogue(db.products)
  {
    if productId.None? {
      return Err(Validation(M.NULL_PRODUCT_ID, map[]));
    }
    if price.None? {
      return Err(Validation(M.NULL_PRICE, map[]));
    }
    if price.value <= 0 {
      return Err(Validation(M.PRICE_NOT_POSITIVE, map[]));
    }
    var id := productId.value;
    if id !in db.products {
      return Ok(None);
    }
    var row := db.products[id].(unitPrice := price.value);
    if Catalogue(db.products) {
      ReplaceKeepsCatalogue(db.products, id, row);
    }
    db.products := db.products[id := row];
    assert db.products.Keys == old(db.products.Keys);
    r := Ok(Some(row));
  }

  /**
   * updateReorderLevel: refuses a null id, a null level and a negative
   * level; answers empty for a missing product; otherwise changes the
   * reorder level and nothing else.
   */
  method UpdateReorderLevel(db: Store, productId: Option<int>, level: Option<int>) returns (r: Outcome<Option<ProductRow>>)
    requires db.Valid()
    modifies db`products
    ensures db.Valid()
    ensures productId.None? ==> r == Err(Validation(M.NULL_PRODUCT_ID, map[]))
    ensures productId.Some? && level.None? ==> r == Err(Validation(M.NULL_REORDER_LEVEL, map[]))
    ensures productId.Some? && level.Some? && level.value < 0 ==> r == Err(Validation(M.NEGATIVE_REORDER_LEVEL, map[]))
    ensures productId.Some? && level.Some? && level.value >= 0 && productId.value !in old(db.products) ==> r == Ok(None)
    ensures r.Err? || r == Ok(None) ==> db.products == old(db.products)
    ensures productId.Some? && level.Some? && level.value >= 0 && productId.value in old(db.products) ==>
              var id := productId.value;
              && db.products == old(db.products)[id := old(db.products)[id].(reorderLevel := level.value)]
              && r == Ok(Some(db.products[id]))
    ensures Catalogue(old(db.products)) ==> Catalogue(db.products)
  {
    if productId.None? {
      return Err(Validation(M.NULL_PRODUCT_ID, map[]));
    }
    if level.None? {
      return Err(Validation(M.NULL_REORDER_LEVEL, map[]));
    }
    if level.value < 0 {
      return Err(Validation(M.NEGATIVE_REORDER_LEVEL, map[]));
    }
    var id := productId.value;
    if id !in db.products {
      return Ok(None);
    }
    var row := db.products[id].(reorderLevel := level.value);
    if Catalogue(db.products) {
      ReplaceKeepsCatalogue(db.products, id, row);
    }
    db.products := db.products[id := row];
    assert db.products.Keys == old(db.products.Keys);
    r := Ok(Some(row));
  }
}
