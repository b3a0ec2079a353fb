/**
 * SupplierServiceImpl: suppliers and the supplier-product links (what a
 * supplier sells, at which unit cost and lead time). Every write validates
 * first and is one transaction: on failure nothing is stored. The service
 * keeps every stored supplier valid with an email no other supplier has,
 * and every link at a positive cost and a non-negative lead time.
 */
module SupplierService {
  import opened Wrappers
  import opened Ledger
  import opened Store
  import Validators
  import M = Messages

  /**
   * The fields of a Supplier the caller fills in; a null string is written
   * "" since the validator treats null and empty alike.
   */
  datatype SupplierInput = SupplierInput(
    name: string,
    contactPerson: Option<string>,
    email: string,
    phone: string,
    address: string)

  /** SupplierDao.emailExists, as the set of emails in use. */
  function Emails(suppliers: map<int, SupplierRow>): (r: set<string>)
    ensures forall id :: id in suppliers ==> suppliers[id].email in r
    ensures forall s :: s in r ==> exists id :: id in suppliers && suppliers[id].email == s
  {
    set id | id in suppliers :: suppliers[id].email
  }

  /**
   * validateSupplier / validateSupplierForUpdate: the error map. `taken`
   * is the set of emails that count as used: all of them on create, those
   * of the other suppliers on update.
   */
  function SupplierErrors(s: SupplierInput, taken: set<string>): (e: map<string, string>)
    ensures M.KEY_NAME in e <==> s.name == "" || |s.name| > 100
    ensures M.KEY_NAME in e ==> e[M.KEY_NAME] == if s.name == "" then M.EMPTY_NAME else M.NAME_TOO_LONG
    ensures M.KEY_EMAIL in e <==> s.email == "" || !Validators.IsValidEmail(s.email) || s.email in taken
    ensures M.KEY_EMAIL in e ==>
              e[M.KEY_EMAIL] == if s.email == "" then M.EMPTY_EMAIL
                                else if !Validators.IsValidEmail(s.email) then M.INVALID_EMAIL
                                else M.EMAIL_EXISTS
    ensures M.KEY_PHONE in e <==> s.phone == ""
    ensures M.KEY_PHONE in e ==> e[M.KEY_PHONE] == M.EMPTY_PHONE
    ensures M.KEY_ADDRESS in e <==> s.address == ""
    ensures M.KEY_ADDRESS in e ==> e[M.KEY_ADDRESS] == M.EMPTY_ADDRESS
    ensures e.Keys <= {M.KEY_NAME, M.KEY_EMAIL, M.KEY_PHONE, M.KEY_ADDRESS}
  {
    var e0: map<string, string> := map[];
    var e1 :=
      if s.name == "" then e0[M.KEY_NAME := M.EMPTY_NAME]
      else if |s.name| > 100 then e0[M.KEY_NAME := M.NAME_TOO_LONG]
      else e0;
    var e2 :=
      if s.email == "" then e1[M.KEY_EMAIL := M.EMPTY_EMAIL]
      else if !Validators.IsValidEmail(s.email) then e1[M.KEY_EMAIL := M.INVALID_EMAIL]
      else if s.email in taken then e1[M.KEY_EMAIL := M.EMAIL_EXISTS]
      else e1;
    var e3 := if s.phone == "" then e2[M.KEY_PHONE := M.EMPTY_PHONE] else e2;
    if s.address == "" then e3[M.KEY_ADDRESS := M.EMPTY_ADDRESS] else e3
  }

  /** The checks every stored supplier has passed. */
  predicate Acceptable(row: SupplierRow)
  {
    0 < |row.name| <= 100 && Validators.IsValidEmail(row.email) && row.phone != "" && row.address != ""
  }

  /** The unique constraint on suppliers.email. */
  predicate EmailsUnique(suppliers: map<int, SupplierRow>)
  {
    forall a, b :: a in suppliers && b in suppliers && a != b ==> suppliers[a].email != suppliers[b].email
  }

  /** The invariant the service keeps over the supplier table. */
  predicate Directory(suppliers: map<int, SupplierRow>)
  {
    EmailsUnique(suppliers) && forall id :: id in suppliers ==> Acceptable(suppliers[id])
  }

  function RowOf(s: SupplierInput, createdAt: Time): SupplierRow
  {
    SupplierRow(s.name, s.contactPerson, s.email, s.phone, s.address, createdAt)
  }

  /** An input passes validation exactly when its row is acceptable and its email unused. */
  lemma AcceptedInput(s: SupplierInput, taken: set<string>, createdAt: Time)
    ensures SupplierErrors(s, taken) == map[] <==> Acceptable(RowOf(s, createdAt)) && s.email !in taken
  {
    var e := SupplierErrors(s, taken);
    if e != map[] {
      var k :| k in e;
      assert k in {M.KEY_NAME, M.KEY_EMAIL, M.KEY_PHONE, M.KEY_ADDRESS};
    }
  }

  /**
   * Storing an acceptable row under `id` keeps the invariant when the
   * email is the one that id already had or is used by no supplier.
   */
  lemma StoreKeepsDirectory(suppliers: map<int, SupplierRow>, id: int, row: SupplierRow)
    requires Directory(suppliers) && Acceptable(row)
    requires (id in suppliers && row.email == suppliers[id].email) || row.email !in Emails(suppliers)
    ensures Directory(suppliers[id := row])
  {
    var q := suppliers[id := row];
    forall a, b | a in q && b in q && a != b
      ensures q[a].email != q[b].email
    {
      if a == id {
        assert q[b] == suppliers[b];
      } else if b == id {
        assert q[a] == suppliers[a];
      }
    }
  }

  /** createSupplier: validates against every email in use and stores the supplier under a new id. */
  method CreateSupplier(db: Store, input: SupplierInput, now: Time) returns (r: Outcome<int>)
    requires db.Valid()
    modifies db`suppliers
    ensures db.Valid()
    ensures SupplierErrors(input, Emails(old(db.suppliers))) != map[] ==>
              r == Err(Validation(M.SUPPLIER_VALIDATION_FAILED, SupplierErrors(input, Emails(old(db.suppliers)))))
              && db.suppliers == old(db.suppliers)
    ensures SupplierErrors(input, Emails(old(db.suppliers))) == map[] ==>
              r.Ok? && r.value !in old(db.suppliers)
              && db.suppliers == old(db.suppliers)[r.value := RowOf(input, now)]
    ensures Directory(old(db.suppliers)) ==> Directory(db.suppliers)
  {
    var errors := SupplierErrors(input, Emails(db.suppliers));
    if errors != map[] {
      return Err(Validation(M.SUPPLIER_VALIDATION_FAILED, errors));
    }
    var id := FreshId(db.suppliers.Keys);
    var row := RowOf(input, now);
    AcceptedInput(input, Emails(db.suppliers), now);
    if Directory(db.suppliers) {
      StoreKeepsDirectory(db.suppliers, id, row);
    }
    db.suppliers := db.suppliers[id := row];
    r := Ok(id);
  }

  /**
   * updateSupplier: the supplier must exist (a null id fails inside the
   * lookup); email uniqueness is checked only for a changed email; the
   * stored row takes the input's fields and keeps its creation time. The
   * supplier's product links are not touched, which assumes the argument
   * carries them: merging a supplier without them would delete them
   * through orphan removal.
   */
  method UpdateSupplier(db: Store, supplierId: Option<int>, input: SupplierInput) returns (r: Outcome<SupplierRow>)
    requires db.Valid()
    modifies db`suppliers
    ensures db.Valid()
    ensures supplierId.None? ==> r == Err(Service(M.FAILED_UPDATE_SUPPLIER))
    ensures supplierId.Some? && supplierId.value !in old(db.suppliers) ==>
              r == Err(Service(M.NotFound(M.SUPPLIER, supplierId.value)))
    ensures r.Err? ==> db.suppliers == old(db.suppliers)
    ensures supplierId.Some? && supplierId.value in old(db.suppliers) ==>
              var existing := old(db.suppliers)[supplierId.value];
              var errors := SupplierErrors(input, Emails(old(db.suppliers)) - {existing.email});
              if errors != map[] then r == Err(Validation(M.SUPPLIER_VALIDATION_FAILED, errors))
              else
                && db.suppliers == old(db.suppliers)[supplierId.value := RowOf(input, existing.createdAt)]
                && r == Ok(db.suppliers[supplierId.value])
    ensures Directory(old(db.suppliers)) ==> Directory(db.suppliers)
  {
    if supplierId.None? {
      return Err(Service(M.FAILED_UPDATE_SUPPLIER));
    }
    var id := supplierId.value;
    if id !in db.suppliers {
      return Err(Service(M.NotFound(M.SUPPLIER, id)));
    }
    var existing := db.suppliers[id];
    var taken := Emails(db.suppliers) - {existing.email};
    var errors := SupplierErrors(input, taken);
    if errors != map[] {
      return Err(Validation(M.SUPPLIER_VALIDATION_FAILED, errors));
    }
    var row := RowOf(input, existing.createdAt);
    AcceptedInput(input, taken, existing.createdAt);
    if Directory(db.suppliers) {
      StoreKeepsDirectory(db.suppliers, id, row);
    }
    SaveSupplier(db, id, row);
    r := Ok(row);
  }

  /**
   * SupplierDao.update: overwrites a stored supplier; the schema's keys are
   * untouched, and so are the links (the argument is taken to carry them).
   */
  method SaveSupplier(db: Store, id: int, row: SupplierRow)
    requires db.Valid() && id in db.suppliers
    modifies db`suppliers
    ensures db.Valid()
    ensures db.suppliers == old(db.suppliers)[id := row]
  {
    db.suppliers := db.suppliers[id := row];
    assert db.suppliers.Keys == old(db.suppliers.Keys);
  }

  // ---------------------------------------------------------------------
  // Supplier-product links

  /** Every stored link has a positive unit cost and a lead time of at least 0 days. */
  predicate LinksAcceptable(links: map<(int, int), SupplierProductRow>)
  {
    forall key :: key in links ==> links[key].unitCost > 0 && links[key].leadTimeDays >= 0
  }

  /**
   * addProductToSupplier's argument checks, in the order it makes them:
   * the message of the first one that fails, or None.
   */
  function LinkArgumentError(supplierId: Option<int>, productId: Option<int>, unitCost: Option<int>, leadTimeDays: Option<int>): (r: Option<string>)
    ensures r.None? <==> supplierId.Some? && productId.Some? && unitCost.Some? && unitCost.value > 0
                         && leadTimeDays.Some? && leadTimeDays.value >= 0
    ensures supplierId.None? ==> r == Some(M.NULL_SUPPLIER_ID)
    ensures supplierId.Some? && productId.None? ==> r == Some(M.NULL_PRODUCT_ID)
  {
    if supplierId.None? then Some(M.NULL_SUPPLIER_ID)
    else if productId.None? then Some(M.NULL_PRODUCT_ID)
    else if unitCost.None? then Some(M.NULL_UNIT_COST)
    else if unitCost.value <= 0 then Some(M.UNIT_COST_NOT_POSITIVE)
    else if leadTimeDays.None? then Some(M.NULL_LEAD_TIME)
    else if leadTimeDays.value < 0 then Some(M.NEGATIVE_LEAD_TIME)
    else None
  }

  /**
   * addProductToSupplier: after the argument checks, the supplier and then
   * the product must exist, and the pair must not be linked yet; the new
   * link carries exactly the given cost and lead time. An existing link is
   * never overwritten.
   */
  method AddProductToSupplier(db: Store, supplierId: Option<int>, productId: Option<int>,
                              unitCost: Option<int>, leadTimeDays: Option<int>) returns (r: Outcome<SupplierProductRow>)
    requires db.Valid()
    modifies db`supplierProducts
    ensures db.Valid()
    ensures LinkArgumentError(supplierId, productId, unitCost, leadTimeDays).Some? ==>
              r == Err(Validation(LinkArgumentError(supplierId, productId, unitCost, leadTimeDays).value, map[]))
    ensures r.Err? ==> db.supplierProducts == old(db.supplierProducts)
    ensures LinkArgumentError(supplierId, productId, unitCost, leadTimeDays).None? ==>
              var sid := supplierId.value;
              var pid := productId.value;
              if sid !in db.suppliers then r == Err(Service(M.NotFound(M.SUPPLIER, sid)))
              else if pid !in db.products then r == Err(Service(M.NotFound(M.PRODUCT, pid)))
              else if (sid, pid) in old(db.supplierProducts) then r == Err(Validation(M.ALREADY_PROVIDES, map[]))
              else
                var row := SupplierProductRow(unitCost.value, leadTimeDays.value);
                && db.supplierProducts == old(db.supplierProducts)[(sid, pid) := row]
                && r == Ok(row)
    ensures LinksAcceptable(old(db.supplierProducts)) ==> LinksAcceptable(db.supplierProducts)
  {
    var argError := LinkArgumentError(supplierId, productId, unitCost, leadTimeDays);
    if argError.Some? {
      return Err(Validation(argError.value, map[]));
    }
    var sid := supplierId.value;
    var pid := productId.value;
    if sid !in db.suppliers {
      return Err(Service(M.NotFound(M.SUPPLIER, sid)));
    }
    if pid !in db.products {
      return Err(Service(M.NotFound(M.PRODUCT, pid)));
    }
    if (sid, pid) in db.supplierProducts {
      return Err(Validation(M.ALREADY_PROVIDES, map[]));
    }
    var row := SupplierProductRow(unitCost.value, leadTimeDays.value);
    db.supplierProducts := db.supplierProducts[(sid, pid) := row];
    r := Ok(row);
  }

  /** A SupplierProduct as updateSupplierProduct receives it; the id is its (supplier, product) key. */
  datatype LinkInput = LinkInput(id: Option<(int, int)>, unitCost: Option<int>, leadTimeDays: Option<int>)

  /** validateSupplierProduct's error map. */
  function LinkErrors(link: LinkInput): (e: map<string, string>)
    ensures M.KEY_ID in e <==> link.id.None?
    ensures M.KEY_ID in e ==> e[M.KEY_ID] == M.NULL_SUPPLIER_PRODUCT_ID
    ensures M.KEY_UNIT_COST in e <==> link.unitCost.None? || link.unitCost.value <= 0
    ensures M.KEY_UNIT_COST in e ==>
              e[M.KEY_UNIT_COST] == if link.unitCost.None? then M.NULL_UNIT_COST else M.UNIT_COST_NOT_POSITIVE
    ensures M.KEY_LEAD_TIME_DAYS in e <==> link.leadTimeDays.None? || link.leadTimeDays.value < 0
    ensures M.KEY_LEAD_TIME_DAYS in e ==>
              e[M.KEY_LEAD_TIME_DAYS] == if link.leadTimeDays.None? then M.NULL_LEAD_TIME else M.NEGATIVE_LEAD_TIME
    ensures e.Keys <= {M.KEY_ID, M.KEY_UNIT_COST, M.KEY_LEAD_TIME_DAYS}
  {
    var e0: map<string, string> := map[];
    var e1 := if link.id.None? then e0[M.KEY_ID := M.NULL_SUPPLIER_PRODUCT_ID] else e0;
    var e2 :=
      if link.unitCost.None? then e1[M.KEY_UNIT_COST := M.NULL_UNIT_COST]
      else if link.unitCost.value <= 0 then e1[M.KEY_UNIT_COST := M.UNIT_COST_NOT_POSITIVE]
      else e1;
    if link.leadTimeDays.None? then e2[M.KEY_LEAD_TIME_DAYS := M.NULL_LEAD_TIME]
    else if link.leadTimeDays.value < 0 then e2[M.KEY_LEAD_TIME_DAYS := M.NEGATIVE_LEAD_TIME]
    else e2
  }

  /** A link passes validation exactly when it has an id, a positive cost and a lead time of at least 0. */
  lemma LinkErrorsNoneIff(link: LinkInput)
    ensures LinkErrors(link) == map[] <==>
              link.id.Some? && link.unitCost.Some? && link.unitCost.value > 0
              && link.leadTimeDays.Some? && link.leadTimeDays.value >= 0
  {
    var e := LinkErrors(link);
    if e != map[] {
      var k :| k in e;
      assert k in {M.KEY_ID, M.KEY_UNIT_COST, M.KEY_LEAD_TIME_DAYS};
    }
  }

  /**
   * updateSupplierProduct: validates, then requires the link to exist, and
   * overwrites its cost and lead time.
   */
  method UpdateSupplierProduct(db: Store, link: LinkInput) returns (r: Outcome<SupplierProductRow>)
    requires db.Valid()
    modifies db`supplierProducts
    ensures db.Valid()
    ensures LinkErrors(link) != map[] ==> r == Err(Validation(M.SUPPLIER_PRODUCT_VALIDATION_FAILED, LinkErrors(link)))
    ensures LinkErrors(link) == map[] && link.id.value !in old(db.supplierProducts) ==>
              r == Err(Service(M.ASSOCIATION_NOT_FOUND))
    ensures r.Err? ==> db.supplierProducts == old(db.supplierProducts)
    ensures LinkErrors(link) == map[] && link.id.value in old(db.supplierProducts) ==>
              var row := SupplierProductRow(link.unitCost.value, link.leadTimeDays.value);
              db.supplierProducts == old(db.supplierProducts)[link.id.value := row] && r == Ok(row)
    ensures LinksAcceptable(old(db.supplierProducts)) ==> LinksAcceptable(db.supplierProducts)
  {
    var errors := LinkErrors(link);
    if errors != map[] {
      return Err(Validation(M.SUPPLIER_PRODUCT_VALIDATION_FAILED, errors));
    }
    LinkErrorsNoneIff(link);
    var key := link.id.value;
    if key !in db.supplierProducts {
      return Err(Service(M.ASSOCIATION_NOT_FOUND));
    }
    var row := SupplierProductRow(link.unitCost.value, link.leadTimeDays.value);
    db.supplierProducts := db.supplierProducts[key := row];
    assert db.supplierProducts.Keys == old(db.supplierProducts.Keys);
    r := Ok(row);
  }
}
