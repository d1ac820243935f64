/**
 * The older draft of the order creator (src/backend/OrderCreator.js): its
 * own store-free validation, the article and discount checks made on the
 * article query's rows, the minimum-stock warnings and its order id rule.
 */
module LegacyOrderCreator {
  import opened JsValues
  import opened Sequences
  import OV = OrderValidator
  import OC = OrderCreator

  /** One element of `order.orderArticles` as submitted. */
  datatype LegacyLine = LegacyLine(articleId: JsValue, amount: JsValue, discount: JsValue)

  /** `order.orderArticles`: anything that is not an array, or an array. */
  datatype LegacyArticles = NotAnArray | Lines(items: seq<LegacyLine>)

  datatype LegacyOrder = LegacyOrder(additionalDiscount: JsValue, orderArticles: LegacyArticles)

  /** How strings turn into numbers: `Number(s)` and `parseFloat(s)`. */
  datatype Coercion = Coercion(stringToNumber: string -> Option<real>, parseFloatText: string -> Option<real>)

  /** A row of the article query: Artikelname, Einzelpreis, Lagerbestand,
      Mindestbestand. */
  datatype CatalogArticle = CatalogArticle(name: string, unitPrice: real, stock: int, minimumStock: int)

  /** The warning text's contents: the article name, its stock before the
      order and its minimum stock. */
  datatype LegacyStockWarning = LegacyStockWarning(articleName: string, stock: int, minimumStock: int)

  /** The draft's rejection messages, by cause. */
  datatype LegacyError =
    | NoArticles
    | InvalidAdditionalDiscount
    | InvalidArticleId
    | InvalidAmount
    | InvalidDiscount
    | SomeArticlesNotFound
    | InvalidArticleDiscount
    | InvalidTotalDiscount

  datatype LegacyOutcome = Accepted(warnings: seq<LegacyStockWarning>) | Refused(error: LegacyError)

  // ---------------------------------------------------------------------
  // validateOrder

  /** The checks of one line, in the draft's order: the id, then the
      amount (an integer text above 0), then the discount (not the number
      NaN, and not parsing as a negative number). */
  function LegacyLineError(line: LegacyLine, conv: Coercion): (r: Option<LegacyError>)
    ensures r.None? <==>
      && OV.IntegerField(line.articleId)
      && OV.IntegerField(line.amount) && IntegerValue(line.amount.s) > 0
      && line.discount != NaN
      && !(ParseFloat(line.discount, conv.parseFloatText).Some? && ParseFloat(line.discount, conv.parseFloatText).value < 0.0)
    ensures r.Some? ==> r.value in {InvalidArticleId, InvalidAmount, InvalidDiscount}
    ensures !OV.IntegerField(line.articleId) ==> r == Some(InvalidArticleId)
    ensures OV.IntegerField(line.articleId) && !(OV.IntegerField(line.amount) && IntegerValue(line.amount.s) > 0) ==>
      r == Some(InvalidAmount)
    ensures (OV.IntegerField(line.articleId) && OV.IntegerField(line.amount) && IntegerValue(line.amount.s) > 0
             && r.Some?) ==> r == Some(InvalidDiscount)
  {
    if !OV.IntegerField(line.articleId) then Some(InvalidArticleId)
    else if !OV.IntegerField(line.amount) || IntegerValue(line.amount.s) <= 0 then Some(InvalidAmount)
    else
      var parsed := ParseFloat(line.discount, conv.parseFloatText);
      if line.discount == NaN || (parsed.Some? && parsed.value < 0.0) then Some(InvalidDiscount)
      else None
  }

  /** The additional discount is rejected when it is the number NaN or
      compares below 0; anything that coerces to NaN compares false and
      passes. */
  predicate AdditionalDiscountInvalid(v: JsValue, conv: Coercion)
  {
    v == NaN || (ToNumber(v, conv.stringToNumber).Some? && ToNumber(v, conv.stringToNumber).value < 0.0)
  }

  predicate LegacyLineValid(line: LegacyLine, conv: Coercion)
  {
    LegacyLineError(line, conv).None?
  }

  /** validateOrder: the first failing check, or None. */
  function ValidateOrder(order: LegacyOrder, conv: Coercion): (r: Option<LegacyError>)
    ensures !order.orderArticles.Lines? || order.orderArticles.items == [] ==> r == Some(NoArticles)
    ensures order.orderArticles.Lines? && order.orderArticles.items != [] ==>
      (AdditionalDiscountInvalid(order.additionalDiscount, conv) <==> r == Some(InvalidAdditionalDiscount))
    ensures r.None? <==>
      && order.orderArticles.Lines? && order.orderArticles.items != []
      && !AdditionalDiscountInvalid(order.additionalDiscount, conv)
      && forall k :: 0 <= k < |order.orderArticles.items| ==> LegacyLineValid(order.orderArticles.items[k], conv)
    ensures (order.orderArticles.Lines? && order.orderArticles.items != []
             && !AdditionalDiscountInvalid(order.additionalDiscount, conv) && r.Some?) ==>
      r.value in {InvalidArticleId, InvalidAmount, InvalidDiscount}
    ensures r.Some? && r.value in {InvalidArticleId, InvalidAmount, InvalidDiscount} ==>
      exists i :: 0 <= i < |order.orderArticles.items|
        && r == LegacyLineError(order.orderArticles.items[i], conv)
        && forall k :: 0 <= k < i ==> LegacyLineValid(order.orderArticles.items[k], conv)
  {
    if !order.orderArticles.Lines? || order.orderArticles.items == [] then Some(NoArticles)
    else if AdditionalDiscountInvalid(order.additionalDiscount, conv) then Some(InvalidAdditionalDiscount)
    else
      var items := order.orderArticles.items;
      match FirstFailure(items, l => LegacyLineValid(l, conv), 0)
      case None => None
      case Some(i) => LegacyLineError(items[i], conv)
  }

  // ---------------------------------------------------------------------
  // The lines once validated

  /** A validated line: its integer id and amount, and the number its
      discount coerces to under `-` and `+` (None for NaN). */
  function ValidatedLine(line: LegacyLine, conv: Coercion): (l: OV.OrderLine)
    requires LegacyLineValid(line, conv)
    ensures ParseInt(line.articleId.s) == Some(l.articleId)
    ensures ParseInt(line.amount.s) == Some(l.amount) && l.amount > 0
  {
    ParseIntOfIntegerText(line.articleId.s);
    ParseIntOfIntegerText(line.amount.s);
    OV.OrderLine(IntegerValue(line.articleId.s), IntegerValue(line.amount.s), ToNumber(line.discount, conv.stringToNumber))
  }

  function ValidatedLines(items: seq<LegacyLine>, conv: Coercion): (lines: seq<OV.OrderLine>)
    requires forall k :: 0 <= k < |items| ==> LegacyLineValid(items[k], conv)
    ensures |lines| == |items|
    ensures forall k :: 0 <= k < |items| ==>
      && items[k].articleId.Str? && ParseInt(items[k].articleId.s) == Some(lines[k].articleId)
      && items[k].amount.Str? && ParseInt(items[k].amount.s) == Some(lines[k].amount)
      && lines[k].amount > 0
      && lines[k].discount == ToNumber(items[k].discount, conv.stringToNumber)
  {
    seq(|items|, k requires 0 <= k < |items| && LegacyLineValid(items[k], conv) => ValidatedLine(items[k], conv))
  }

  // ---------------------------------------------------------------------
  // getArticleIdsFromOrder: the discount checks

  predicate AllInCatalog(catalog: map<int, CatalogArticle>, lines: seq<OV.OrderLine>)
  {
    forall k :: 0 <= k < |lines| ==> lines[k].articleId in catalog
  }

  /** `amount * price - discount < 0`; a NaN discount compares false. */
  predicate LineDiscountExceedsPrice(catalog: map<int, CatalogArticle>, line: OV.OrderLine)
    requires line.articleId in catalog
  {
    line.discount.Some? && (line.amount as real) * catalog[line.articleId].unitPrice - line.discount.value < 0.0
  }

  /** The running `totalPrice`: one unit price per line, whatever the
      amount. */
  function PriceSum(catalog: map<int, CatalogArticle>, lines: seq<OV.OrderLine>): real
    requires AllInCatalog(catalog, lines)
  {
    if lines == [] then 0.0
    else PriceSum(catalog, lines[..|lines| - 1]) + catalog[lines[|lines| - 1].articleId].unitPrice
  }

  /** The running `totalArticleDiscount`; one NaN discount makes it NaN. */
  function DiscountSum(lines: seq<OV.OrderLine>): Option<real>
  {
    if lines == [] then Some(0.0)
    else
      var init := DiscountSum(lines[..|lines| - 1]);
      var last := lines[|lines| - 1].discount;
      if init.Some? && last.Some? then Some(init.value + last.value) else None
  }

  /** `totalPrice - totalArticleDiscount - additionalDiscount < 0`. */
  predicate TotalDiscountExceedsPrice(price: real, discount: Option<real>, additional: Option<real>)
  {
    discount.Some? && additional.Some? && price - discount.value - additional.value < 0.0
  }

  /** The order of the checks once all ids are found: a line whose
      discount exceeds its price wins over the total check; the draft
      rejects on either and otherwise resolves. */
  function DiscountVerdict(catalog: map<int, CatalogArticle>, lines: seq<OV.OrderLine>, additional: Option<real>): Option<LegacyError>
    requires AllInCatalog(catalog, lines)
  {
    if exists k :: 0 <= k < |lines| && LineDiscountExceedsPrice(catalog, lines[k]) then Some(InvalidArticleDiscount)
    else if TotalDiscountExceedsPrice(PriceSum(catalog, lines), DiscountSum(lines), additional) then Some(InvalidTotalDiscount)
    else None
  }

  /** The discount loop: sum the unit prices and the discounts and note
      any line whose discount exceeds its price. */
  method CheckDiscounts(catalog: map<int, CatalogArticle>, lines: seq<OV.OrderLine>, additional: Option<real>)
    returns (error: Option<LegacyError>)
    requires AllInCatalog(catalog, lines)
    ensures error == DiscountVerdict(catalog, lines, additional)
  {
    var totalPrice := 0.0;
    var totalArticleDiscount: Option<real> := Some(0.0);
    var lineRejected := false;
    var i := 0;
    while i < |lines|
      invariant 0 <= i <= |lines|
      invariant AllInCatalog(catalog, lines[..i])
      invariant totalPrice == PriceSum(catalog, lines[..i])
      invariant totalArticleDiscount == DiscountSum(lines[..i])
      invariant lineRejected <==> exists k :: 0 <= k < i && LineDiscountExceedsPrice(catalog, lines[k])
    {
      var line := lines[i];
      var price := catalog[line.articleId].unitPrice;
      if line.discount.Some? && (line.amount as real) * price - line.discount.value < 0.0 {
        lineRejected := true;
      }
      totalPrice := totalPrice + price;
      totalArticleDiscount := if totalArticleDiscount.Some? && line.discount.Some?
        then Some(totalArticleDiscount.value + line.discount.value) else None;
      assert lines[..i + 1][..i] == lines[..i];
      i := i + 1;
    }
    assert lines[..i] == lines;
    if lineRejected {
      error := Some(InvalidArticleDiscount);
    } else if TotalDiscountExceedsPrice(totalPrice, totalArticleDiscount, additional) {
      error := Some(InvalidTotalDiscount);
    } else {
      error := None;
    }
  }

  /** The total compares the sum of unit prices, not of line prices: two
      pieces at 10.0 with a discount of 15.0 pass each line's check but
      fail the total, although the line price is 20.0. */
  lemma TotalIgnoresAmounts()
    ensures var catalog := map[1 := CatalogArticle("Tee", 10.0, 5, 0)];
      var lines := [OV.OrderLine(1, 2, Some(15.0))];
      && AllInCatalog(catalog, lines)
      && !LineDiscountExceedsPrice(catalog, lines[0])
      && PriceSum(catalog, lines) == 10.0
      && DiscountVerdict(catalog, lines, Some(0.0)) == Some(InvalidTotalDiscount)
  {
    var catalog := map[1 := CatalogArticle("Tee", 10.0, 5, 0)];
    var lines := [OV.OrderLine(1, 2, Some(15.0))];
    assert lines[..0] == [];
    assert PriceSum(catalog, lines) == 10.0;
    assert DiscountSum(lines) == Some(15.0);
  }

  // ---------------------------------------------------------------------
  // checkMinimumStocks

  /** The line leaves the article's stock below its minimum. */
  predicate StockTooLow(catalog: map<int, CatalogArticle>, line: OV.OrderLine)
  {
    line.articleId in catalog && catalog[line.articleId].stock - line.amount < catalog[line.articleId].minimumStock
  }

  function WarningOf(catalog: map<int, CatalogArticle>, line: OV.OrderLine): LegacyStockWarning
    requires line.articleId in catalog
  {
    var a := catalog[line.articleId];
    LegacyStockWarning(a.name, a.stock, a.minimumStock)
  }

  /** The warnings the loop pushes for `lines`, in order. */
  function MinimumStockWarnings(catalog: map<int, CatalogArticle>, lines: seq<OV.OrderLine>): seq<LegacyStockWarning>
    requires AllInCatalog(catalog, lines)
  {
    if lines == [] then []
    else
      var last := lines[|lines| - 1];
      MinimumStockWarnings(catalog, lines[..|lines| - 1])
        + (if StockTooLow(catalog, last) then [WarningOf(catalog, last)] else [])
  }

  /** checkMinimumStocks over the lines, already sorted by article id. */
  method CheckMinimumStocks(catalog: map<int, CatalogArticle>, lines: seq<OV.OrderLine>)
    returns (warnings: seq<LegacyStockWarning>)
    requires AllInCatalog(catalog, lines)
    ensures warnings == MinimumStockWarnings(catalog, lines)
  {
    warnings := [];
    var i := 0;
    while i < |lines|
      invariant 0 <= i <= |lines|
      invariant AllInCatalog(catalog, lines[..i])
      invariant warnings == MinimumStockWarnings(catalog, lines[..i])
    {
      var article := catalog[lines[i].articleId];
      if article.stock - lines[i].amount < article.minimumStock {
        warnings := warnings + [LegacyStockWarning(article.name, article.stock, article.minimumStock)];
      }
      assert lines[..i + 1][..i] == lines[..i];
      i := i + 1;
    }
    assert lines[..i] == lines;
  }

  /** One warning for each line that leaves its article below the minimum,
      in line order, and none for any other line. */
  lemma {:induction false} MinimumStockWarningsSelect(catalog: map<int, CatalogArticle>, lines: seq<OV.OrderLine>)
    requires AllInCatalog(catalog, lines)
    ensures var low := Filter(lines, l => StockTooLow(catalog, l));
      && |MinimumStockWarnings(catalog, lines)| == |low| <= |lines|
      && forall k :: 0 <= k < |low| ==> MinimumStockWarnings(catalog, lines)[k] == WarningOf(catalog, low[k])
  {
    if lines != [] {
      var init := lines[..|lines| - 1];
      var last := lines[|lines| - 1];
      MinimumStockWarningsSelect(catalog, init);
      assert lines == init + [last];
      FilterAppend(init, [last], l => StockTooLow(catalog, l));
      assert [last][1..] == [];
    }
  }

  /** A line that brings the stock exactly to the minimum gives no
      warning; one piece more gives one. */
  lemma MinimumStockThreshold(name: string, stock: int, minimumStock: int)
    ensures var catalog := map[7 := CatalogArticle(name, 1.0, stock, minimumStock)];
      && MinimumStockWarnings(catalog, [OV.OrderLine(7, stock - minimumStock, None)]) == []
      && MinimumStockWarnings(catalog, [OV.OrderLine(7, stock - minimumStock + 1, None)])
         == [LegacyStockWarning(name, stock, minimumStock)]
  {
    var catalog := map[7 := CatalogArticle(name, 1.0, stock, minimumStock)];
    var at := [OV.OrderLine(7, stock - minimumStock, None)];
    var over := [OV.OrderLine(7, stock - minimumStock + 1, None)];
    assert at[..0] == [] && over[..0] == [];
  }

  // ---------------------------------------------------------------------
  // getNewOrderId

  /** The draft's id rule: 0 when the query returns no row, otherwise the
      maximum plus one, a NULL maximum counting as 0. */
  function LegacyNewOrderId(rows: seq<Option<int>>): int
  {
    if |rows| == 0 then 0
    else match rows[0]
      case None => 1
      case Some(m) => m + 1
  }

  /** `SELECT MAX(...)` always returns one row, so on every orders table
      the draft allocates the same id as the newer writer; the two rules
      differ only on a result with no row (0 against 1). */
  lemma LegacyNewOrderIdAgrees(orders: seq<OC.OrderHeader>)
    ensures LegacyNewOrderId(OC.MaxQueryRows(orders)) == OC.NewOrderId(OC.MaxQueryRows(orders))
    ensures LegacyNewOrderId([]) == 0 && OC.NewOrderId([]) == 1
  {
  }

  // ---------------------------------------------------------------------
  // createOrder

  /** createOrder as far as the article query: reject with validateOrder's
      message before any store access, then reject when an id is missing
      from the article rows (`catalog`), then run the discount checks, and
      otherwise resolve with the minimum-stock warnings of the lines in
      article id order. */
  method CreateOrder(order: LegacyOrder, conv: Coercion, catalog: map<int, CatalogArticle>) returns (outcome: LegacyOutcome)
    ensures ValidateOrder(order, conv).Some? ==> outcome == Refused(ValidateOrder(order, conv).value)
    ensures ValidateOrder(order, conv).None? ==>
      var lines := ValidatedLines(order.orderArticles.items, conv);
      && (outcome == Refused(SomeArticlesNotFound) <==> exists k :: 0 <= k < |lines| && lines[k].articleId !in catalog)
      && (AllInCatalog(catalog, lines) ==>
           var verdict := DiscountVerdict(catalog, lines, ToNumber(order.additionalDiscount, conv.stringToNumber));
           && (verdict.Some? ==> outcome == Refused(verdict.value))
           && (verdict.None? ==> outcome.Accepted?))
    ensures outcome.Accepted? ==> |outcome.warnings| <= |order.orderArticles.items|
    ensures outcome.Accepted? ==>
      && ValidateOrder(order, conv).None?
      && var sorted := OC.SortByArticleId(ValidatedLines(order.orderArticles.items, conv));
      && AllInCatalog(catalog, sorted)
      && outcome.warnings == MinimumStockWarnings(catalog, sorted)
  {
    var error := ValidateOrder(order, conv);
    if error.Some? {
      return Refused(error.value);
    }
    var lines := ValidatedLines(order.orderArticles.items, conv);
    outcome := CreateFromLines(lines, ToNumber(order.additionalDiscount, conv.stringToNumber), catalog);
  }

  /** createOrder once validateOrder has passed: the article lookup, the
      discount checks and the warnings, over the validated lines. */
  method CreateFromLines(lines: seq<OV.OrderLine>, additional: Option<real>, catalog: map<int, CatalogArticle>)
    returns (outcome: LegacyOutcome)
    ensures outcome == Refused(SomeArticlesNotFound) <==> exists k :: 0 <= k < |lines| && lines[k].articleId !in catalog
    ensures AllInCatalog(catalog, lines) ==>
      var verdict := DiscountVerdict(catalog, lines, additional);
      && (verdict.Some? ==> outcome == Refused(verdict.value))
      && (verdict.None? ==> outcome.Accepted?)
    ensures outcome.Accepted? ==>
      && AllInCatalog(catalog, OC.SortByArticleId(lines))
      && outcome.warnings == MinimumStockWarnings(catalog, OC.SortByArticleId(lines))
      && |outcome.warnings| <= |lines|
  {
    var requested := seq(|lines|, k requires 0 <= k < |lines| => lines[k].articleId);
    var missing := OV.MissingArticleIds(requested, catalog.Keys);
    if |missing| > 0 {
      assert missing[0] in requested;
      var k :| 0 <= k < |requested| && requested[k] == missing[0];
      assert lines[k].articleId !in catalog;
      return Refused(SomeArticlesNotFound);
    }
    forall k | 0 <= k < |lines| ensures lines[k].articleId in catalog {
      assert requested[k] == lines[k].articleId;
    }
    var discountError := CheckDiscounts(catalog, lines, additional);
    if discountError.Some? {
      return Refused(discountError.value);
    }
    var warnings := SortedStockWarnings(catalog, lines);
    outcome := Accepted(warnings);
  }

  /** The tail of createOrder: sort the lines by article id and collect
      the minimum-stock warnings in that order. */
  method SortedStockWarnings(catalog: map<int, CatalogArticle>, lines: seq<OV.OrderLine>)
    returns (warnings: seq<LegacyStockWarning>)
    requires AllInCatalog(catalog, lines)
    ensures AllInCatalog(catalog, OC.SortByArticleId(lines))
    ensures warnings == MinimumStockWarnings(catalog, OC.SortByArticleId(lines))
    ensures |warnings| <= |lines|
  {
    var sorted := OC.SortByArticleId(lines);
    forall k | 0 <= k < |sorted| ensures sorted[k].articleId in catalog {
      assert sorted[k] in multiset(lines);
    }
    warnings := CheckMinimumStocks(catalog, sorted);
    MinimumStockWarningsSelect(catalog, sorted);
    assert |sorted| == |multiset(sorted)| == |multiset(lines)|;
  }
}
