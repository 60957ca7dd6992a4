/** The price comparator of the PO vs SO pricing report: which sale orders
    are read (`get_sale_orders`) and which report rows are built from their
    lines and linked purchase lines (`prepare_report_data`). Orders, lines
    and products are plain read-only values here. */
module PricingReport {
  import opened Wrappers
  import opened Calendar
  import opened FilterMaps

  /** A currency record; Odoo keeps currency names unique, so a currency is
      identified by its code. */
  datatype Currency = Currency(name: string)

  datatype Product = Product(
    defaultCode: string,
    name: string,
    productType: string,            // `type`: "product", "consu" or "service"
    includeInAppleS2wReport: bool,  // `x_include_in_apple_s2w_report`
    licenceLengthMonths: int)       // `x_licence_length_months`

  datatype PurchaseOrder = PurchaseOrder(name: string, state: string, currency: Currency)

  datatype PurchaseLine = PurchaseLine(
    order: PurchaseOrder,
    product: Product,
    priceUnit: real,
    productQty: real)

  datatype SaleLine = SaleLine(
    product: Product,
    purchasePrice: real,                 // the cost recorded on the sale line
    purchaseLines: seq<PurchaseLine>)    // `purchase_line_ids`

  datatype SaleOrder = SaleOrder(
    name: string,
    partnerName: string,                 // `partner_id.display_name`
    dateOrder: DateTime,
    state: string,
    currency: Currency,
    companyId: nat,
    lines: seq<SaleLine>)                // `order_line`

  /** `from_currency._convert(amount, to_currency, company, date)`, an
      external service whose rounding is not known: the arguments are the
      amount, the currency it is in, the target currency, the company and
      the conversion date. */
  type Converter = (real, Currency, Currency, nat, DateTime) -> real

  /** One line of the report, in the column order of the spreadsheet. */
  datatype ReportRow = ReportRow(
    saleOrderName: string,
    purchaseOrderName: string,
    saleCost: real,
    purchaseUnitPrice: real,
    quantity: real,
    priceDifference: real,
    productCode: string,
    productName: string,
    customer: string,
    note: string)

  // ---------------------------------------------------------------------
  // Order selection (`get_sale_orders`)

  /** The search domain of `get_sale_orders`: ordered inside the window,
      inclusive at both ends, and confirmed or done. */
  predicate SaleOrderSelected(firstDay: DateTime, lastDay: DateTime, o: SaleOrder): (selected: bool)
    ensures selected ==> DateTimeAtMost(firstDay, lastDay)
    ensures selected ==> o.state == "sale" || o.state == "done"
  {
    DateTimeAtMost(firstDay, o.dateOrder) && DateTimeAtMost(o.dateOrder, lastDay)
    && o.state in ["sale", "done"]
  }

  /** With the previous-month window, an order is selected exactly when it
      was placed in the month before today's month and is in state "sale"
      or "done". */
  lemma SelectionIsPreviousMonth(today: Date, o: SaleOrder)
    requires ValidDate(today) && ValidDateTime(o.dateOrder)
    requires FirstDayOfPreviousMonth(today).Some?
    ensures LastDayOfPreviousMonth(today).Some?
    ensures SaleOrderSelected(FirstDayOfPreviousMonth(today).value, LastDayOfPreviousMonth(today).value, o)
      <==> (o.dateOrder.date.year, o.dateOrder.date.month) == PreviousMonth(today.year, today.month)
           && (o.state == "sale" || o.state == "done")
  {
  }

  // ---------------------------------------------------------------------
  // One (sale order, sale line, purchase line) triple

  /** A purchase line linked to a line of a sale order. */
  datatype Match = Match(order: SaleOrder, line: SaleLine, purchase: PurchaseLine)

  /** The four eligibility filters: a confirmed or done purchase order, a
      product not routed to the other report, without a licence length, and
      stockable. */
  predicate Eligible(pl: PurchaseLine) {
    && pl.order.state in ["purchase", "done"]
    && !pl.product.includeInAppleS2wReport
    && !(pl.product.licenceLengthMonths > 0)
    && pl.product.productType == "product"
  }

  predicate CurrenciesDiffer(m: Match) {
    m.purchase.order.currency != m.order.currency
  }

  /** The note recorded when the two orders use different currencies. */
  function CurrencyNote(sale: Currency, purchase: Currency): string {
    "SO currency is " + sale.name + " and PO currency is " + purchase.name
  }

  /** The purchase unit price in the sale order's currency. */
  function UnitPrice(m: Match, convert: Converter): real {
    if CurrenciesDiffer(m) then
      convert(m.purchase.priceUnit, m.purchase.order.currency, m.order.currency, m.order.companyId, m.order.dateOrder)
    else m.purchase.priceUnit
  }

  function PriceDifference(m: Match, convert: Converter): real {
    (m.line.purchasePrice - UnitPrice(m, convert)) * m.purchase.productQty
  }

  /** The row a triple contributes to the report, if any. */
  function RowOf(m: Match, convert: Converter): (r: Option<ReportRow>)
    ensures !Eligible(m.purchase) ==> r.None?
    ensures r.Some? ==> Describes(r.value, m, convert)
  {
    if Eligible(m.purchase) && PriceDifference(m, convert) > 0.0 then
      Some(ReportRow(
        m.order.name, m.purchase.order.name, m.line.purchasePrice, UnitPrice(m, convert),
        m.purchase.productQty, PriceDifference(m, convert), m.line.product.defaultCode,
        m.line.product.name, m.order.partnerName,
        if CurrenciesDiffer(m) then CurrencyNote(m.order.currency, m.purchase.order.currency) else ""))
    else None
  }

  /** What a report row says about the triple it came from: each field is
      taken from the orders, the unit price is converted exactly when the
      currencies differ, the difference is (cost - unit price) * quantity and
      positive, and the note is set exactly when the currencies differ. */
  ghost predicate Describes(r: ReportRow, m: Match, convert: Converter) {
    && r.saleOrderName == m.order.name
    && r.purchaseOrderName == m.purchase.order.name
    && r.saleCost == m.line.purchasePrice
    && r.purchaseUnitPrice == (if m.purchase.order.currency != m.order.currency
                               then convert(m.purchase.priceUnit, m.purchase.order.currency,
                                            m.order.currency, m.order.companyId, m.order.dateOrder)
                               else m.purchase.priceUnit)
    && r.quantity == m.purchase.productQty
    && r.priceDifference == (r.saleCost - r.purchaseUnitPrice) * r.quantity
    && r.priceDifference > 0.0
    && r.productCode == m.line.product.defaultCode
    && r.productName == m.line.product.name
    && r.customer == m.order.partnerName
    && (r.note != "" <==> m.purchase.order.currency != m.order.currency)
    && (r.note != "" ==> r.note == CurrencyNote(m.order.currency, m.purchase.order.currency))
  }

  /** Each filter excludes a triple on its own, whatever the prices. */
  lemma FiltersExclude(m: Match, convert: Converter)
    ensures m.purchase.order.state !in ["purchase", "done"] ==> RowOf(m, convert) == None
    ensures m.purchase.product.includeInAppleS2wReport ==> RowOf(m, convert) == None
    ensures m.purchase.product.licenceLengthMonths > 0 ==> RowOf(m, convert) == None
    ensures m.purchase.product.productType != "product" ==> RowOf(m, convert) == None
  {
  }

  /** A triple yields a row exactly when it passes the filters and its price
      difference is strictly positive (a difference of zero yields none), and
      the row it yields describes it. */
  lemma RowOfSpec(m: Match, convert: Converter)
    ensures RowOf(m, convert).Some? <==> Eligible(m.purchase) && PriceDifference(m, convert) > 0.0
    ensures RowOf(m, convert).Some? ==> Describes(RowOf(m, convert).value, m, convert)
  {
  }

  /** The currency note names the sale currency and then the purchase
      currency, and is never empty. */
  lemma CurrencyNoteNamesBoth(sale: Currency, purchase: Currency)
    ensures var note := CurrencyNote(sale, purchase);
      && note != ""
      && note[15..15 + |sale.name|] == sale.name
      && note[15 + |sale.name| + 20..] == purchase.name
  {
  }

  // ---------------------------------------------------------------------
  // All triples, in iteration order

  /** The triples of one sale line, in the order of its purchase lines. */
  function LineMatches(o: SaleOrder, l: SaleLine, pls: seq<PurchaseLine>): seq<Match> {
    if pls == [] then []
    else LineMatches(o, l, pls[..|pls| - 1]) + [Match(o, l, pls[|pls| - 1])]
  }

  /** The triples of one sale order, line by line. */
  function OrderMatches(o: SaleOrder, ls: seq<SaleLine>): seq<Match> {
    if ls == [] then []
    else OrderMatches(o, ls[..|ls| - 1]) + LineMatches(o, ls[|ls| - 1], ls[|ls| - 1].purchaseLines)
  }

  /** The triples of all sale orders, order by order. */
  function Matches(os: seq<SaleOrder>): seq<Match> {
    if os == [] then []
    else Matches(os[..|os| - 1]) + OrderMatches(os[|os| - 1], os[|os| - 1].lines)
  }

  /** The row function of a conversion service, as a value. */
  function RowFunction(convert: Converter): Match -> Option<ReportRow> {
    m => RowOf(m, convert)
  }

  /** The report `prepare_report_data` builds from `os`. */
  function ReportRows(os: seq<SaleOrder>, convert: Converter): (rows: seq<ReportRow>)
    ensures |rows| <= |Matches(os)|
    ensures forall r :: r in rows ==> r.priceDifference > 0.0
  {
    var rows := FilterMap(RowFunction(convert), Matches(os));
    var idx := KeptIndices(RowFunction(convert), Matches(os));
    assert forall k :: 0 <= k < |rows| ==> RowOf(Matches(os)[idx[k]], convert) == Some(rows[k]);
    rows
  }

  /** Every row of the report describes the triple it came from, so in
      particular its price difference is (cost - unit price) * quantity and
      strictly positive; there are at most as many rows as triples, and the
      rows keep the iteration order of their triples. */
  lemma ReportRowsDescribeTheirTriples(os: seq<SaleOrder>, convert: Converter)
    ensures |ReportRows(os, convert)| <= |Matches(os)|
    ensures var idx := KeptIndices(RowFunction(convert), Matches(os));
      && |idx| == |ReportRows(os, convert)|
      && (forall k, k' :: 0 <= k < k' < |idx| ==> idx[k] < idx[k'])
      && forall k :: 0 <= k < |ReportRows(os, convert)| ==>
           idx[k] < |Matches(os)| && Describes(ReportRows(os, convert)[k], Matches(os)[idx[k]], convert)
  {
  }

  /** Every triple that passes the filters with a positive difference has
      its row in the report. */
  lemma EveryPositiveTripleIsReported(os: seq<SaleOrder>, convert: Converter, i: nat)
    requires i < |Matches(os)|
    requires Eligible(Matches(os)[i].purchase) && PriceDifference(Matches(os)[i], convert) > 0.0
    ensures RowOf(Matches(os)[i], convert).Some?
    ensures RowOf(Matches(os)[i], convert).value in ReportRows(os, convert)
  {
    var ms := Matches(os);
    RowOfSpec(ms[i], convert);
    var idx := KeptIndices(RowFunction(convert), ms);
    assert RowFunction(convert)(ms[i]).Some?;
    var k :| 0 <= k < |idx| && idx[k] == i;
  }

  /** Every row of the report has a strictly positive price difference. */
  lemma ReportRowsArePositive(os: seq<SaleOrder>, convert: Converter)
    ensures forall r :: r in ReportRows(os, convert) ==> r.priceDifference > 0.0
  {
  }

  lemma {:induction false} MatchesAppend(os1: seq<SaleOrder>, os2: seq<SaleOrder>)
    ensures Matches(os1 + os2) == Matches(os1) + Matches(os2)
  {
    if os2 == [] {
      assert os1 + os2 == os1;
    } else {
      var os2' := os2[..|os2| - 1];
      assert (os1 + os2)[..|os1 + os2| - 1] == os1 + os2';
      MatchesAppend(os1, os2');
    }
  }

  /** The report of a concatenation of order lists is the concatenation of
      their reports: the rows follow the order of the sale orders. */
  lemma ReportRowsAppend(os1: seq<SaleOrder>, os2: seq<SaleOrder>, convert: Converter)
    ensures ReportRows(os1 + os2, convert) == ReportRows(os1, convert) + ReportRows(os2, convert)
  {
    MatchesAppend(os1, os2);
    FilterMapAppend(RowFunction(convert), Matches(os1), Matches(os2));
  }

  lemma {:induction false} NoPurchaseLinesNoMatches(o: SaleOrder, ls: seq<SaleLine>)
    requires forall l :: l in ls ==> l.purchaseLines == []
    ensures OrderMatches(o, ls) == []
  {
    if ls != [] {
      NoPurchaseLinesNoMatches(o, ls[..|ls| - 1]);
    }
  }

  /** A sale order without lines, or whose lines have no purchase lines,
      contributes nothing to the report wherever it stands. */
  lemma OrderWithoutPurchaseLinesContributesNothing(
    before: seq<SaleOrder>, o: SaleOrder, after: seq<SaleOrder>, convert: Converter)
    requires forall l :: l in o.lines ==> l.purchaseLines == []
    ensures ReportRows(before + [o] + after, convert) == ReportRows(before + after, convert)
  {
    NoPurchaseLinesNoMatches(o, o.lines);
    assert [o][..0] == [];
    assert Matches([o]) == Matches([]) + OrderMatches(o, o.lines);
    ReportRowsAppend(before + [o], after, convert);
    ReportRowsAppend(before, [o], convert);
    ReportRowsAppend(before, after, convert);
  }

  /** The number of (sale order, sale line, purchase line) triples. */
  function TripleCount(os: seq<SaleOrder>): nat {
    if os == [] then 0 else LinkCount(os[0].lines) + TripleCount(os[1..])
  }

  function LinkCount(ls: seq<SaleLine>): nat {
    if ls == [] then 0 else |ls[0].purchaseLines| + LinkCount(ls[1..])
  }

  lemma {:induction false} LineMatchesCount(o: SaleOrder, l: SaleLine, pls: seq<PurchaseLine>)
    ensures |LineMatches(o, l, pls)| == |pls|
  {
    if pls != [] {
      LineMatchesCount(o, l, pls[..|pls| - 1]);
    }
  }

  lemma {:induction false} LinkCountSnoc(ls: seq<SaleLine>, l: SaleLine)
    ensures LinkCount(ls + [l]) == LinkCount(ls) + |l.purchaseLines|
  {
    if ls != [] {
      assert (ls + [l])[1..] == ls[1..] + [l];
      LinkCountSnoc(ls[1..], l);
    }
  }

  lemma {:induction false} OrderMatchesCount(o: SaleOrder, ls: seq<SaleLine>)
    ensures |OrderMatches(o, ls)| == LinkCount(ls)
  {
    if ls != [] {
      var front, last := ls[..|ls| - 1], ls[|ls| - 1];
      OrderMatchesCount(o, front);
      LineMatchesCount(o, last, last.purchaseLines);
      assert front + [last] == ls;
      LinkCountSnoc(front, last);
    }
  }

  lemma {:induction false} TripleCountSnoc(os: seq<SaleOrder>, o: SaleOrder)
    ensures TripleCount(os + [o]) == TripleCount(os) + LinkCount(o.lines)
  {
    if os != [] {
      assert (os + [o])[1..] == os[1..] + [o];
      TripleCountSnoc(os[1..], o);
    }
  }

  lemma {:induction false} MatchesCount(os: seq<SaleOrder>)
    ensures |Matches(os)| == TripleCount(os)
  {
    if os != [] {
      var front, last := os[..|os| - 1], os[|os| - 1];
      MatchesCount(front);
      OrderMatchesCount(last, last.lines);
      assert front + [last] == os;
      TripleCountSnoc(front, last);
    }
  }

  /** The report has at most one row per (sale order, sale line, purchase
      line) triple. */
  lemma {:induction false} RowCountBounded(os: seq<SaleOrder>, convert: Converter)
    ensures |ReportRows(os, convert)| <= TripleCount(os)
  {
    MatchesCount(os);
    var _ := KeptIndices(RowFunction(convert), Matches(os));
  }

  // ---------------------------------------------------------------------
  // The row builder

  lemma MatchesStep(os: seq<SaleOrder>, i: nat)
    requires i < |os|
    ensures Matches(os[..i + 1]) == Matches(os[..i]) + OrderMatches(os[i], os[i].lines)
  {
    assert os[..i + 1][..i] == os[..i];
  }

  lemma OrderMatchesStep(o: SaleOrder, ls: seq<SaleLine>, j: nat)
    requires j < |ls|
    ensures OrderMatches(o, ls[..j + 1]) == OrderMatches(o, ls[..j]) + LineMatches(o, ls[j], ls[j].purchaseLines)
  {
    assert ls[..j + 1][..j] == ls[..j];
  }

  lemma LineMatchesStep(o: SaleOrder, l: SaleLine, pls: seq<PurchaseLine>, k: nat)
    requires k < |pls|
    ensures LineMatches(o, l, pls[..k + 1]) == LineMatches(o, l, pls[..k]) + [Match(o, l, pls[k])]
  {
    assert pls[..k + 1][..k] == pls[..k];
  }

  /** The body of the innermost loop of `prepare_report_data` for one
      triple: `None` where the source continues with the next purchase line
      (at the first filter the line fails, or when the difference is not
      strictly positive), otherwise the row it appends. */
  method EvaluatePurchaseLine(saleOrder: SaleOrder, saleLine: SaleLine, purchaseLine: PurchaseLine, convert: Converter)
    returns (row: Option<ReportRow>)
    ensures row == RowOf(Match(saleOrder, saleLine, purchaseLine), convert)
  {
    var note := "";
    if purchaseLine.order.state !in ["purchase", "done"] {
      return None;
    }
    if purchaseLine.product.includeInAppleS2wReport {
      return None;
    }
    if purchaseLine.product.licenceLengthMonths > 0 {
      return None;
    }
    if purchaseLine.product.productType != "product" {
      return None;
    }
    var purchaseLineUnitPrice := purchaseLine.priceUnit;
    var purchaseCurrency := purchaseLine.order.currency;
    var saleCurrency := saleOrder.currency;
    if purchaseCurrency != saleCurrency {
      note := "SO currency is " + saleCurrency.name + " and PO currency is " + purchaseCurrency.name;
      var saleDate := saleOrder.dateOrder;
      purchaseLineUnitPrice := convert(purchaseLineUnitPrice, purchaseCurrency, saleCurrency, saleOrder.companyId, saleDate);
    }
    ghost var m := Match(saleOrder, saleLine, purchaseLine);
    assert purchaseLineUnitPrice == UnitPrice(m, convert);
    var priceDifference := (saleLine.purchasePrice - purchaseLineUnitPrice) * purchaseLine.productQty;
    assert priceDifference == PriceDifference(m, convert);
    if priceDifference > 0.0 {
      row := Some(ReportRow(
        saleOrder.name, purchaseLine.order.name, saleLine.purchasePrice, purchaseLineUnitPrice,
        purchaseLine.productQty, priceDifference, saleLine.product.defaultCode,
        saleLine.product.name, saleOrder.partnerName, note));
    } else {
      row := None;
    }
  }

  /** The innermost loop of `prepare_report_data`: the rows of one sale
      line, walking its purchase lines in order. */
  method SaleLineRows(saleOrder: SaleOrder, saleLine: SaleLine, convert: Converter) returns (rows: seq<ReportRow>)
    ensures rows == FilterMap(RowFunction(convert), LineMatches(saleOrder, saleLine, saleLine.purchaseLines))
  {
    ghost var f := RowFunction(convert);
    ghost var visited: seq<Match> := [];  // the triples walked so far
    rows := [];
    var k := 0;
    while k < |saleLine.purchaseLines|
      invariant 0 <= k <= |saleLine.purchaseLines|
      invariant visited == LineMatches(saleOrder, saleLine, saleLine.purchaseLines[..k])
      invariant rows == FilterMap(f, visited)
    {
      var purchaseLine := saleLine.purchaseLines[k];
      ghost var m := Match(saleOrder, saleLine, purchaseLine);
      LineMatchesStep(saleOrder, saleLine, saleLine.purchaseLines, k);
      FilterMapSnoc(f, visited, m);
      var row := EvaluatePurchaseLine(saleOrder, saleLine, purchaseLine, convert);
      assert Kept(f, m) == if row.Some? then [row.value] else [];
      if row.Some? {
        rows := rows + [row.value];
      }
      visited := visited + [m];
      k := k + 1;
    }
    assert saleLine.purchaseLines[..k] == saleLine.purchaseLines;
  }

  /** The middle loop of `prepare_report_data`: the rows of one sale order,
      line by line, skipping lines without purchase lines. */
  method SaleOrderRows(saleOrder: SaleOrder, convert: Converter) returns (rows: seq<ReportRow>)
    ensures rows == FilterMap(RowFunction(convert), OrderMatches(saleOrder, saleOrder.lines))
  {
    ghost var f := RowFunction(convert);
    ghost var visited: seq<Match> := [];
    rows := [];
    var j := 0;
    while j < |saleOrder.lines|
      invariant 0 <= j <= |saleOrder.lines|
      invariant visited == OrderMatches(saleOrder, saleOrder.lines[..j])
      invariant rows == FilterMap(f, visited)
    {
      var saleLine := saleOrder.lines[j];
      OrderMatchesStep(saleOrder, saleOrder.lines, j);
      if saleLine.purchaseLines == [] {
        j := j + 1;
        continue;
      }
      var lineRows := SaleLineRows(saleOrder, saleLine, convert);
      FilterMapAppend(f, visited, LineMatches(saleOrder, saleLine, saleLine.purchaseLines));
      rows := rows + lineRows;
      visited := visited + LineMatches(saleOrder, saleLine, saleLine.purchaseLines);
      j := j + 1;
    }
    assert saleOrder.lines[..j] == saleOrder.lines;
  }

  /** `prepare_report_data`: walks the sale orders, their lines and each
      line's purchase lines in order, skipping orders without lines and lines
      without purchase lines, and appends the row of every triple that yields
      one. */
  method PrepareReportData(saleOrders: seq<SaleOrder>, convert: Converter) returns (res: seq<ReportRow>)
    ensures res == ReportRows(saleOrders, convert)
  {
    ghost var f := RowFunction(convert);
    ghost var visited: seq<Match> := [];
    res := [];
    var i := 0;
    while i < |saleOrders|
      invariant 0 <= i <= |saleOrders|
      invariant visited == Matches(saleOrders[..i])
      invariant res == FilterMap(f, visited)
    {
      var saleOrder := saleOrders[i];
      MatchesStep(saleOrders, i);
      if saleOrder.lines == [] {
        i := i + 1;
        continue;
      }
      var orderRows := SaleOrderRows(saleOrder, convert);
      FilterMapAppend(f, visited, OrderMatches(saleOrder, saleOrder.lines));
      res := res + orderRows;
      visited := visited + OrderMatches(saleOrder, saleOrder.lines);
      i := i + 1;
    }
    assert saleOrders[..i] == saleOrders;
  }

  /** The report of one order with one line linked to one purchase line
      is what that single triple yields. */
  lemma SingleTripleReport(so: SaleOrder, convert: Converter)
    requires |so.lines| == 1 && |so.lines[0].purchaseLines| == 1
    ensures ReportRows([so], convert) == Kept(RowFunction(convert), Match(so, so.lines[0], so.lines[0].purchaseLines[0]))
  {
    var sl := so.lines[0];
    var m := Match(so, sl, sl.purchaseLines[0]);
    assert [so][..0] == [] && so.lines[..0] == [] && sl.purchaseLines[..0] == [];
    assert LineMatches(so, sl, sl.purchaseLines) == [m];
    assert OrderMatches(so, so.lines) == [m];
    assert Matches([so]) == [m];
    FilterMapSnoc(RowFunction(convert), [], m);
    assert [] + [m] == [m];
  }

  /** A sale and a purchase in one currency: costs 100 against 80,
      quantity 2, give a difference of 40 and no note. */
  lemma SameCurrencyScenario(convert: Converter, when: DateTime)
    ensures
      var usd := Currency("USD");
      var product := Product("P1", "Widget", "product", false, 0);
      var pl := PurchaseLine(PurchaseOrder("P001", "purchase", usd), product, 80.0, 2.0);
      var sl := SaleLine(product, 100.0, [pl]);
      var so := SaleOrder("S001", "Customer", when, "sale", usd, 1, [sl]);
      ReportRows([so], convert) == [ReportRow("S001", "P001", 100.0, 80.0, 2.0, 40.0, "P1", "Widget", "Customer", "")]
  {
    var usd := Currency("USD");
    var product := Product("P1", "Widget", "product", false, 0);
    var pl := PurchaseLine(PurchaseOrder("P001", "purchase", usd), product, 80.0, 2.0);
    var sl := SaleLine(product, 100.0, [pl]);
    var so := SaleOrder("S001", "Customer", when, "sale", usd, 1, [sl]);
    SingleTripleReport(so, convert);
    var m := Match(so, sl, pl);
    assert PriceDifference(m, convert) == 40.0;
    assert RowFunction(convert)(m) == RowOf(m, convert);
  }

  /** A purchase in another currency: the purchase is in EUR and converts to 85 USD,
      so the difference is (100 - 85) * 2 = 30 and the note names both
      currencies ("SO currency is USD and PO currency is EUR"). */
  lemma ConvertedCurrencyScenario(convert: Converter, when: DateTime)
    requires convert(80.0, Currency("EUR"), Currency("USD"), 1, when) == 85.0
    ensures
      var product := Product("P1", "Widget", "product", false, 0);
      var pl := PurchaseLine(PurchaseOrder("P001", "purchase", Currency("EUR")), product, 80.0, 2.0);
      var sl := SaleLine(product, 100.0, [pl]);
      var so := SaleOrder("S001", "Customer", when, "sale", Currency("USD"), 1, [sl]);
      ReportRows([so], convert) == [ReportRow("S001", "P001", 100.0, 85.0, 2.0, 30.0, "P1", "Widget", "Customer",
                                              CurrencyNote(Currency("USD"), Currency("EUR")))]
  {
    var product := Product("P1", "Widget", "product", false, 0);
    var pl := PurchaseLine(PurchaseOrder("P001", "purchase", Currency("EUR")), product, 80.0, 2.0);
    var sl := SaleLine(product, 100.0, [pl]);
    var so := SaleOrder("S001", "Customer", when, "sale", Currency("USD"), 1, [sl]);
    var m := Match(so, sl, pl);
    SingleTripleReport(so, convert);
    assert PriceDifference(m, convert) == 30.0;
    assert RowFunction(convert)(m) == RowOf(m, convert);
  }

  /** The note of a sale in USD bought in EUR. */
  lemma UsdEurNote()
    ensures CurrencyNote(Currency("USD"), Currency("EUR")) == "SO currency is USD and PO currency is EUR"
  {
  }
}
