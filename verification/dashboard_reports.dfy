/**
 * The two report generators of DashboardServiceImpl. A report is the text
 * the StringBuilder holds; turning it into bytes with the platform charset
 * is not modelled. LocalDateTime.toString and BigDecimal.toString are
 * parameters (`showTime`, `showMoney`, the latter applied to cents), and
 * so is the clock behind the inventory report's timestamp.
 */
module DashboardReports {
  import opened Wrappers
  import opened Store
  import opened JavaText
  import opened DashboardService

  const SALES_HEADER := "OrderID,Date,Customer,Total"
  const INVENTORY_HEADER := "ProductID,SKU,Name,InStock,ReorderLevel,UnitPrice,Value"
  const FORMAT_EMPTY := "Format cannot be empty"
  const UNSUPPORTED_FORMAT := "Unsupported format: "

  /** Lines each followed by a line break, as the StringBuilder receives them. */
  function Lines(lines: seq<string>): (r: string)
    ensures lines == [] ==> r == ""
    decreases |lines|
  {
    if lines == [] then "" else Lines(lines[..|lines| - 1]) + lines[|lines| - 1] + "\n"
  }

  /** A report of at least one line is its lines joined with line breaks, plus a final one. */
  lemma {:induction false} LinesAsJoin(lines: seq<string>)
    requires |lines| >= 1
    ensures Lines(lines) == Join(lines, '\n') + Repeat('\n', 1)
    decreases |lines|
  {
    var init, last := lines[..|lines| - 1], lines[|lines| - 1];
    if |init| == 0 {
      assert lines == [last];
    } else {
      LinesAsJoin(init);
      assert lines == init + [last];
      JoinSnoc(init, last, '\n');
    }
  }

  /** The four cells of an order's row: id, date, customer name, total. */
  function SalesCells(o: Order, showTime: int -> string, showMoney: int -> string): seq<string>
  {
    [DecimalString(o.id), showTime(o.row.orderDate), o.row.customerName, showMoney(o.row.totalAmount)]
  }

  function SalesRow(o: Order, showTime: int -> string, showMoney: int -> string): string
  {
    Join(SalesCells(o, showTime, showMoney), ',')
  }

  function SalesRows(orders: seq<Order>, showTime: int -> string, showMoney: int -> string): (r: seq<string>)
    ensures |r| == |orders|
    ensures forall i :: 0 <= i < |r| ==> r[i] == SalesRow(orders[i], showTime, showMoney)
  {
    seq(|orders|, i requires 0 <= i < |orders| => SalesRow(orders[i], showTime, showMoney))
  }

  /** The CSV sales report: the header line, then one line per order. */
  function SalesCsv(orders: seq<Order>, showTime: int -> string, showMoney: int -> string): string
  {
    Lines([SALES_HEADER] + SalesRows(orders, showTime, showMoney))
  }

  lemma LinesSnoc(lines: seq<string>, x: string)
    ensures Lines(lines + [x]) == Lines(lines) + x + "\n"
  {
    assert (lines + [x])[..|lines|] == lines;
  }

  lemma SalesRowsSnoc(orders: seq<Order>, i: int, showTime: int -> string, showMoney: int -> string)
    requires 0 <= i < |orders|
    ensures SalesRows(orders[..i + 1], showTime, showMoney)
            == SalesRows(orders[..i], showTime, showMoney) + [SalesRow(orders[i], showTime, showMoney)]
  {
  }

  /** The CSV branch of generateSalesReport: the header, then the loop over the orders. */
  method BuildSalesCsv(orders: seq<Order>, showTime: int -> string, showMoney: int -> string) returns (report: string)
    ensures report == SalesCsv(orders, showTime, showMoney)
  {
    report := SALES_HEADER + "\n";
    LinesSnoc([], SALES_HEADER);
    for i := 0 to |orders|
      invariant report == Lines([SALES_HEADER] + SalesRows(orders[..i], showTime, showMoney))
    {
      var order := orders[i];
      var row := DecimalString(order.id) + "," + showTime(order.row.orderDate)
                 + "," + order.row.customerName + "," + showMoney(order.row.totalAmount);
      SalesStep(orders, i, showTime, showMoney);
      report := report + row + "\n";
    }
    assert orders[..|orders|] == orders;
  }

  /** One turn of the sales loop appends the order's row and a line break. */
  lemma SalesStep(orders: seq<Order>, i: int, showTime: int -> string, showMoney: int -> string)
    requires 0 <= i < |orders|
    ensures var o := orders[i];
            Lines([SALES_HEADER] + SalesRows(orders[..i + 1], showTime, showMoney))
            == Lines([SALES_HEADER] + SalesRows(orders[..i], showTime, showMoney))
               + (DecimalString(o.id) + "," + showTime(o.row.orderDate) + "," + o.row.customerName
                  + "," + showMoney(o.row.totalAmount)) + "\n"
  {
    var o := orders[i];
    var row := SalesRow(o, showTime, showMoney);
    JoinFour(DecimalString(o.id), showTime(o.row.orderDate), o.row.customerName, showMoney(o.row.totalAmount));
    SalesRowsSnoc(orders, i, showTime, showMoney);
    LinesSnoc([SALES_HEADER] + SalesRows(orders[..i], showTime, showMoney), row);
    assert [SALES_HEADER] + SalesRows(orders[..i + 1], showTime, showMoney)
           == ([SALES_HEADER] + SalesRows(orders[..i], showTime, showMoney)) + [row];
  }

  /** No cell of any row holds the delimiter `d`. */
  predicate CellsFree(orders: seq<Order>, showTime: int -> string, showMoney: int -> string, d: char)
  {
    forall i, k :: 0 <= i < |orders| && 0 <= k < 4 ==> d !in SalesCells(orders[i], showTime, showMoney)[k]
  }

  lemma DecimalStringHasNoSeparator(n: int)
    ensures ',' !in DecimalString(n) && '\n' !in DecimalString(n)
  {
    var s := DecimalString(n);
    if n < 0 {
      var t := DecimalString(-n);
      assert s == "-" + t;
      assert forall i :: 0 <= i < |s| ==> s[i] == '-' || IsDigit(s[i]) by {
        forall i | 0 <= i < |s| ensures s[i] == '-' || IsDigit(s[i]) {
          if i > 0 {
            assert s[i] == t[i - 1];
          }
        }
      }
    }
  }

  /** Four cells joined with commas. */
  lemma JoinFour(a: string, b: string, c: string, e: string)
    ensures Join([a, b, c, e], ',') == a + "," + b + "," + c + "," + e
  {
    var cells := [a, b, c, e];
    var t1, t2, t3 := cells[1..], cells[2..], cells[3..];
    assert t1[1..] == t2 && t2[1..] == t3 && t3 == [e];
    assert Join(t2, ',') == c + [','] + e;
    assert Join(t1, ',') == b + [','] + (c + [','] + e);
  }

  /** The header and every row are non-empty and free of line breaks when the cells are. */
  lemma LinesFree(orders: seq<Order>, showTime: int -> string, showMoney: int -> string)
    requires CellsFree(orders, showTime, showMoney, '\n')
    ensures var lines := [SALES_HEADER] + SalesRows(orders, showTime, showMoney);
            forall i :: 0 <= i < |lines| ==> '\n' !in lines[i] && lines[i] != ""
  {
    var lines := [SALES_HEADER] + SalesRows(orders, showTime, showMoney);
    forall i | 0 <= i < |lines| ensures '\n' !in lines[i] && lines[i] != "" {
      if i == 0 {
        HeaderFree();
      } else {
        var o := orders[i - 1];
        var cells := SalesCells(o, showTime, showMoney);
        assert forall k :: 0 <= k < 4 ==> '\n' !in cells[k];
        DecimalStringHasNoSeparator(o.id);
        JoinFour(cells[0], cells[1], cells[2], cells[3]);
        assert lines[i] == Join(cells, ',');
      }
    }
  }

  lemma HeaderFree()
    ensures '\n' !in SALES_HEADER && SALES_HEADER != ""
  {
  }

  /**
   * The CSV reads back: when no cell contains a line break, splitting the
   * report into lines gives the header and one row per order; when, in
   * addition, no cell contains a comma and the total is rendered non-empty,
   * each row splits into its four cells. The report quotes nothing, so a
   * customer name with a comma or a line break breaks this.
   */
  lemma SalesCsvReadsBack(orders: seq<Order>, showTime: int -> string, showMoney: int -> string)
    requires CellsFree(orders, showTime, showMoney, '\n')
    ensures Split(SalesCsv(orders, showTime, showMoney), '\n') == [SALES_HEADER] + SalesRows(orders, showTime, showMoney)
  {
    var lines := [SALES_HEADER] + SalesRows(orders, showTime, showMoney);
    LinesAsJoin(lines);
    LinesFree(orders, showTime, showMoney);
    SplitJoin(lines, 1, '\n');
  }

  /** Each row reads back as its four cells when no cell holds a comma and the total renders non-empty. */
  lemma SalesRowReadsBack(o: Order, showTime: int -> string, showMoney: int -> string)
    requires forall k :: 0 <= k < 4 ==> ',' !in SalesCells(o, showTime, showMoney)[k]
    requires showMoney(o.row.totalAmount) != ""
    ensures Split(SalesRow(o, showTime, showMoney), ',') == SalesCells(o, showTime, showMoney)
  {
    var cells := SalesCells(o, showTime, showMoney);
    assert Join(cells, ',') + Repeat(',', 0) == Join(cells, ',');
    SplitJoin(cells, 0, ',');
  }

  /* ---------------------------------------------------------------- */
  /* generateInventoryReport                                           */
  /* ---------------------------------------------------------------- */

  /** The InStock cell: the available quantity, zero without a Stock. */
  function InStock(p: StockedProduct): int
  {
    if p.stock.Some? then p.stock.value.quantityAvailable else 0
  }

  /** The Value cell: price times the InStock quantity (the price is never null). */
  function InventoryValue(p: StockedProduct): (v: int)
    ensures v == StockValue(p)
  {
    p.row.unitPrice * InStock(p)
  }

  /** A product's line: id, SKU, name, InStock, reorder level, unit price and value, comma-separated. */
  function InventoryRow(p: StockedProduct, showMoney: int -> string): string
  {
    DecimalString(p.id) + "," + p.row.sku + "," + p.row.name + "," + DecimalString(InStock(p))
    + "," + DecimalString(p.row.reorderLevel) + "," + showMoney(p.row.unitPrice) + "," + showMoney(InventoryValue(p))
  }

  function InventoryRows(products: seq<StockedProduct>, showMoney: int -> string): (r: seq<string>)
    ensures |r| == |products|
    ensures forall i :: 0 <= i < |r| ==> r[i] == InventoryRow(products[i], showMoney)
  {
    seq(|products|, i requires 0 <= i < |products| => InventoryRow(products[i], showMoney))
  }

  /** The CSV inventory report: the header line, then one line per product. */
  function InventoryCsv(products: seq<StockedProduct>, showMoney: int -> string): string
  {
    Lines([INVENTORY_HEADER] + InventoryRows(products, showMoney))
  }

  lemma InventoryRowsSnoc(products: seq<StockedProduct>, i: int, showMoney: int -> string)
    requires 0 <= i < |products|
    ensures InventoryRows(products[..i + 1], showMoney)
            == InventoryRows(products[..i], showMoney) + [InventoryRow(products[i], showMoney)]
  {
  }

  /** The CSV branch of generateInventoryReport: the header, then the loop over all products. */
  method BuildInventoryCsv(products: seq<StockedProduct>, showMoney: int -> string) returns (report: string)
    ensures report == InventoryCsv(products, showMoney)
  {
    report := INVENTORY_HEADER + "\n";
    LinesSnoc([], INVENTORY_HEADER);
    for i := 0 to |products|
      invariant report == Lines([INVENTORY_HEADER] + InventoryRows(products[..i], showMoney))
    {
      var product := products[i];
      var quantity := if product.stock.Some? then product.stock.value.quantityAvailable else 0;
      var value := product.row.unitPrice * quantity;
      var row := DecimalString(product.id) + "," + product.row.sku + "," + product.row.name
                 + "," + DecimalString(quantity) + "," + DecimalString(product.row.reorderLevel)
                 + "," + showMoney(product.row.unitPrice) + "," + showMoney(value);
      InventoryStep(products, i, showMoney);
      report := report + row + "\n";
    }
    assert products[..|products|] == products;
  }

  /** One turn of the inventory loop appends the product's row and a line break. */
  lemma InventoryStep(products: seq<StockedProduct>, i: int, showMoney: int -> string)
    requires 0 <= i < |products|
    ensures Lines([INVENTORY_HEADER] + InventoryRows(products[..i + 1], showMoney))
            == Lines([INVENTORY_HEADER] + InventoryRows(products[..i], showMoney)) + InventoryRow(products[i], showMoney) + "\n"
  {
    var row := InventoryRow(products[i], showMoney);
    InventoryRowsSnoc(products, i, showMoney);
    LinesSnoc([INVENTORY_HEADER] + InventoryRows(products[..i], showMoney), row);
    assert [INVENTORY_HEADER] + InventoryRows(products[..i + 1], showMoney)
           == ([INVENTORY_HEADER] + InventoryRows(products[..i], showMoney)) + [row];
  }

  /** The Value column added up over the report's rows. */
  function ValueColumnTotal(products: seq<StockedProduct>): int
    decreases |products|
  {
    if products == [] then 0
    else ValueColumnTotal(products[..|products| - 1]) + InventoryValue(products[|products| - 1])
  }

  /** The report's Value column adds up to getInventoryValuation. */
  lemma {:induction false} ValueColumnIsValuation(products: seq<StockedProduct>)
    ensures ValueColumnTotal(products) == Valuation(products)
    decreases |products|
  {
    if products != [] {
      ValueColumnIsValuation(products[..|products| - 1]);
    }
  }

  /* ---------------------------------------------------------------- */
  /* The two generators                                                */
  /* ---------------------------------------------------------------- */

  /** The report formats, matched after String.toUpperCase (ASCII letters only here). */
  datatype ReportFormat = Pdf | Csv

  function ParseFormat(format: string): (r: Option<ReportFormat>)
    ensures r == Some(Pdf) <==> UpperAscii(format) == "PDF"
    ensures r == Some(Csv) <==> UpperAscii(format) == "CSV"
  {
    var up := UpperAscii(format);
    if up == "PDF" then Some(Pdf) else if up == "CSV" then Some(Csv) else None
  }

  /** Lower-case and mixed-case spellings are accepted. */
  lemma FormatIgnoresCase()
    ensures ParseFormat("csv") == Some(Csv) && ParseFormat("Pdf") == Some(Pdf)
  {
    assert UpperAscii("csv") == "CSV";
    assert UpperAscii("Pdf") == "PDF";
  }

  /**
   * generateSalesReport: the date range, then a non-empty format; the
   * orders in range are read, and the PDF placeholder or the CSV is
   * written; any other format is refused with its original spelling.
   */
  method GenerateSalesReport(start: Option<int>, end: Option<int>, format: Option<string>, allOrders: seq<Order>,
                             showTime: int -> string, showMoney: int -> string) returns (r: Outcome<string>)
    ensures DateRangeError(start, end).Some? ==> r == Err(Service(DateRangeError(start, end).value))
    ensures DateRangeError(start, end).None? && (format.None? || format.value == "") ==> r == Err(Service(FORMAT_EMPTY))
    ensures DateRangeError(start, end).None? && format.Some? && format.value != "" ==>
              match ParseFormat(format.value)
              case None => r == Err(Service(UNSUPPORTED_FORMAT + format.value))
              case Some(Pdf) => r == Ok("PDF Sales Report from " + showTime(start.value) + " to " + showTime(end.value) + "\n\n")
              case Some(Csv) => r == Ok(SalesCsv(FindByDateRange(allOrders, start.value, end.value), showTime, showMoney))
  {
    var check := DateRangeError(start, end);
    if check.Some? {
      return Err(Service(check.value));
    }
    if format.None? || format.value == "" {
      return Err(Service(FORMAT_EMPTY));
    }
    var orders := FindByDateRange(allOrders, start.value, end.value);
    match ParseFormat(format.value)
    case Some(Pdf) =>
      r := Ok("PDF Sales Report from " + showTime(start.value) + " to " + showTime(end.value) + "\n\n");
    case Some(Csv) =>
      var report := BuildSalesCsv(orders, showTime, showMoney);
      r := Ok(report);
    case None =>
      r := Err(Service(UNSUPPORTED_FORMAT + format.value));
  }

  /**
   * generateInventoryReport: a non-empty format, then the PDF placeholder
   * stamped with the current time, or the CSV over all products.
   */
  method GenerateInventoryReport(format: Option<string>, products: seq<StockedProduct>, now: int,
                                 showTime: int -> string, showMoney: int -> string) returns (r: Outcome<string>)
    ensures format.None? || format.value == "" ==> r == Err(Service(FORMAT_EMPTY))
    ensures format.Some? && format.value != "" ==>
              match ParseFormat(format.value)
              case None => r == Err(Service(UNSUPPORTED_FORMAT + format.value))
              case Some(Pdf) => r == Ok("PDF Inventory Report as of " + showTime(now) + "\n\n")
              case Some(Csv) => r == Ok(InventoryCsv(products, showMoney))
  {
    if format.None? || format.value == "" {
      return Err(Service(FORMAT_EMPTY));
    }
    match ParseFormat(format.value)
    case Some(Pdf) =>
      r := Ok("PDF Inventory Report as of " + showTime(now) + "\n\n");
    case Some(Csv) =>
      var report := BuildInventoryCsv(products, showMoney);
      r := Ok(report);
    case None =>
      r := Err(Service(UNSUPPORTED_FORMAT + format.value));
  }
}
