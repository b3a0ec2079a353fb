/**
 * StockMovement.MovementType and the movement helpers that only look at a
 * type and a quantity. The constants keep their Java names, which are also
 * the strings stored in the movement_type column.
 */
module MovementTypes {
  import opened Wrappers
  import Money

  /** Java's 32-bit int range; quantities are Java Integers. */
  const INT_MIN: int := -0x8000_0000
  const INT_MAX: int := 0x7fff_ffff

  predicate IsJavaInt(x: int) { INT_MIN <= x <= INT_MAX }

  datatype MovementType =
    | purchase | sale | adjustment | return_item | waste
    | ADJUSTMENT | CUSTOMER_ORDER | SUPPLIER_ORDER

  /** Enum.name(): the constant's own identifier. */
  function Name(t: MovementType): (s: string)
    ensures ValueOf(s) == Some(t)
  {
    match t
    case purchase => "purchase"
    case sale => "sale"
    case adjustment => "adjustment"
    case return_item => "return_item"
    case waste => "waste"
    case ADJUSTMENT => "ADJUSTMENT"
    case CUSTOMER_ORDER => "CUSTOMER_ORDER"
    case SUPPLIER_ORDER => "SUPPLIER_ORDER"
  }

  /** Enum.valueOf: the constant with exactly this name; None where Java throws. */
  function ValueOf(s: string): (r: Option<MovementType>)
    ensures r.None? <==> s !in {"purchase", "sale", "adjustment", "return_item", "waste",
                                "ADJUSTMENT", "CUSTOMER_ORDER", "SUPPLIER_ORDER"}
  {
    if s == "purchase" then Some(purchase)
    else if s == "sale" then Some(sale)
    else if s == "adjustment" then Some(adjustment)
    else if s == "return_item" then Some(return_item)
    else if s == "waste" then Some(waste)
    else if s == "ADJUSTMENT" then Some(ADJUSTMENT)
    else if s == "CUSTOMER_ORDER" then Some(CUSTOMER_ORDER)
    else if s == "SUPPLIER_ORDER" then Some(SUPPLIER_ORDER)
    else None
  }

  /**
   * getValue: the database spelling, "return" for return_item (a Java
   * keyword) and the constant's name otherwise. fromValue inverts it.
   */
  function Value(t: MovementType): (v: string)
    ensures FromValue(Some(v)) == Some(t)
    ensures t != return_item ==> v == Name(t)
  {
    if t == return_item then "return" else Name(t)
  }

  /**
   * fromValue: "return" maps to return_item, anything else goes through
   * valueOf. A null or unknown string makes Java throw; that is None here.
   */
  function FromValue(v: Option<string>): (r: Option<MovementType>)
    ensures r == None <==> v == None || (v.value != "return" && ValueOf(v.value) == None)
  {
    match v
    case None => None
    case Some(s) => if s == "return" then Some(return_item) else ValueOf(s)
  }

  /** valueOf reads back only a constant's own name. */
  lemma ValueOfIsName(s: string)
    ensures ValueOf(s).Some? ==> Name(ValueOf(s).value) == s
  {
  }

  /** fromValue accepts both spellings of return_item, so it is not injective on strings. */
  lemma FromValueTwoSpellings()
    ensures FromValue(Some("return")) == FromValue(Some("return_item")) == Some(return_item)
    ensures Value(return_item) == "return"
  {
  }

  /** isIncoming: purchases and returns increase stock. */
  predicate IsIncoming(t: MovementType)
  {
    t == purchase || t == return_item
  }

  /** Java int negation and Math.abs, which leave Integer.MIN_VALUE unchanged. */
  function JavaNegate(x: int): (r: int)
    requires IsJavaInt(x)
    ensures IsJavaInt(r)
    ensures x != INT_MIN ==> r == -x
  {
    if x == INT_MIN then INT_MIN else -x
  }

  function JavaAbs(x: int): (r: int)
    requires IsJavaInt(x)
    ensures IsJavaInt(r)
    ensures x != INT_MIN ==> r >= 0 && (r == x || r == -x)
    ensures x == INT_MIN ==> r == INT_MIN
  {
    if x < 0 then JavaNegate(x) else x
  }

  /**
   * getStockChange: the sign is inferred from the type alone, |q| for an
   * incoming movement and -|q| otherwise, whatever sign the stored quantity has.
   */
  function StockChange(t: MovementType, q: int): (r: int)
    requires IsJavaInt(q)
    ensures q != INT_MIN && IsIncoming(t) ==> r == Money.Abs(q)
    ensures q != INT_MIN && !IsIncoming(t) ==> r == -Money.Abs(q)
  {
    if IsIncoming(t) then JavaAbs(q) else JavaNegate(JavaAbs(q))
  }

  /**
   * getStockChange agrees with the stored signed quantity exactly when the
   * stored sign happens to match the type's direction.
   */
  lemma StockChangeAgreesIff(t: MovementType, q: int)
    requires IsJavaInt(q) && q != INT_MIN
    ensures StockChange(t, q) == q <==> (IsIncoming(t) && q >= 0) || (!IsIncoming(t) && q <= 0)
  {
  }

  /**
   * A supplier-order receipt is stored with a positive quantity, yet
   * getStockChange reports it as an outgoing change; likewise an upward
   * ADJUSTMENT. The ledger therefore sums stored quantities.
   */
  lemma StockChangeContradictsReceipt()
    ensures StockChange(SUPPLIER_ORDER, 5) == -5
    ensures StockChange(ADJUSTMENT, 10) == -10
  {
  }

  /** Math.abs(Integer.MIN_VALUE) is negative, so even an incoming change can be negative. */
  lemma StockChangeAtMinValue()
    ensures StockChange(purchase, INT_MIN) < 0
  {
  }
}
