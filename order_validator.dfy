/**
 * The backend order validator (OrderCreator/OrderValidator.js): a structural
 * phase and a value-range phase that need no store, then four referential
 * checks whose store lookups are inputs here.
 */
module OrderValidator {
  import opened JsValues
  import opened Sequences

  /** One element of `order.orderArticles` as submitted. `discount` is the
      number the field `discount` turns into under a numeric comparison;
      None when it is absent or not numeric (NaN), which no comparison
      rejects. */
  datatype LinePayload = LinePayload(articleId: JsValue, amount: JsValue, discountPercent: JsValue, discount: Option<real>)

  /** `order.orderArticles`: absent, present but not an array, or an array. */
  datatype ArticlesField = ArticlesMissing | NotAnArray | Lines(items: seq<LinePayload>)

  /** The submitted order: not an object at all, or an object whose fields
      may each be absent (Undefined) or of any type. */
  datatype OrderPayload =
    | NonObject
    | OrderObject(customerCode: JsValue, caseWorkerId: JsValue, shipperId: JsValue, orderArticles: ArticlesField)

  /** The messages of validateStructure, by cause; line errors carry the
      0-based index of the line. */
  datatype StructureError =
    | NotAnObject
    | NoCustomerCode
    | NoCaseWorkerId | CaseWorkerIdNotInteger
    | NoShipperId | ShipperIdNotInteger
    | NoOrderArticles | OrderArticlesNotArray | OrderArticlesEmpty
    | NoArticleId(line: nat) | ArticleIdNotInteger(line: nat)
    | NoAmount(line: nat) | AmountNotInteger(line: nat)
    | NoDiscountPercent(line: nat) | DiscountPercentNotFloat(line: nat)

  /** The messages of validateValueRanges. */
  datatype RangeError = AmountInvalid(line: nat) | DiscountInvalid(line: nat)

  /** The result of one store query: the driver's error, or the rows. */
  datatype Query<T> = DbError(message: string) | Rows(value: T)

  /** The answers of the four referential queries: how many rows match the
      customer code, the case worker id and the shipper id, and which of
      the requested article ids the article table returned. */
  datatype Lookups = Lookups(customers: Query<nat>, caseWorkers: Query<nat>, shippers: Query<nat>, articles: Query<set<int>>)

  datatype Entity = Customer | CaseWorker | Shipper

  datatype Rejection =
    | Malformed(structure: StructureError)
    | OutOfRange(range: RangeError)
    | NotFound(entity: Entity)
    | Multiple(entity: Entity)
    | ArticlesNotFound(ids: seq<int>)
    | StoreError(message: string)

  datatype Verdict = Valid | Rejected(reason: Rejection)

  // ---------------------------------------------------------------------
  // Structural phase

  /** A field that passes the integer test. The source writes
      `parseInt(x) + "" === x`, which a non-string never passes and which
      also lets the text "NaN" through; the model uses the canonical
      decimal test (see NaNPassesIntegerTest). */
  predicate IntegerField(v: JsValue)
  {
    v.Str? && IsIntegerText(v.s)
  }

  /** A field that passes `parseFloat(x) + "" === x`; the float
      round-trip of a string is the parameter `isFloatText`. */
  predicate FloatField(v: JsValue, isFloatText: string -> bool)
  {
    v.Str? && isFloatText(v.s)
  }

  predicate LineWellFormed(line: LinePayload, isFloatText: string -> bool)
  {
    IntegerField(line.articleId) && IntegerField(line.amount) && FloatField(line.discountPercent, isFloatText)
  }

  /** Everything before the loop over the lines is in order. */
  predicate HeaderWellFormed(order: OrderPayload)
  {
    && order.OrderObject?
    && order.customerCode != Undefined
    && IntegerField(order.caseWorkerId)
    && IntegerField(order.shipperId)
    && order.orderArticles.Lines?
    && |order.orderArticles.items| > 0
  }

  predicate WellFormed(order: OrderPayload, isFloatText: string -> bool)
  {
    && HeaderWellFormed(order)
    && forall k :: 0 <= k < |order.orderArticles.items| ==> LineWellFormed(order.orderArticles.items[k], isFloatText)
  }

  /** The checks of one line, in the source's order. */
  function LineError(line: LinePayload, i: nat, isFloatText: string -> bool): (r: Option<StructureError>)
    ensures r.None? <==> LineWellFormed(line, isFloatText)
    ensures r.Some? ==> IsLineError(r.value) && r.value.line == i
    ensures line.articleId == Undefined ==> r == Some(NoArticleId(i))
    ensures line.articleId != Undefined && !IntegerField(line.articleId) ==> r == Some(ArticleIdNotInteger(i))
    ensures IntegerField(line.articleId) && line.amount == Undefined ==> r == Some(NoAmount(i))
    ensures IntegerField(line.articleId) && line.amount != Undefined && !IntegerField(line.amount) ==>
      r == Some(AmountNotInteger(i))
    ensures IntegerField(line.articleId) && IntegerField(line.amount) && line.discountPercent == Undefined ==>
      r == Some(NoDiscountPercent(i))
    ensures (IntegerField(line.articleId) && IntegerField(line.amount) && line.discountPercent != Undefined
             && !FloatField(line.discountPercent, isFloatText)) ==> r == Some(DiscountPercentNotFloat(i))
  {
    if line.articleId == Undefined then Some(NoArticleId(i))
    else if !IntegerField(line.articleId) then Some(ArticleIdNotInteger(i))
    else if line.amount == Undefined then Some(NoAmount(i))
    else if !IntegerField(line.amount) then Some(AmountNotInteger(i))
    else if line.discountPercent == Undefined then Some(NoDiscountPercent(i))
    else if !FloatField(line.discountPercent, isFloatText) then Some(DiscountPercentNotFloat(i))
    else None
  }

  predicate IsLineError(e: StructureError)
  {
    e.NoArticleId? || e.ArticleIdNotInteger? || e.NoAmount? || e.AmountNotInteger?
    || e.NoDiscountPercent? || e.DiscountPercentNotFloat?
  }

  /** validateStructure: the first failing check, or None. */
  function ValidateStructure(order: OrderPayload, isFloatText: string -> bool): (r: Option<StructureError>)
    ensures r.None? <==> WellFormed(order, isFloatText)
    ensures r.Some? && !IsLineError(r.value) ==> !HeaderWellFormed(order)
    ensures order.NonObject? ==> r == Some(NotAnObject)
    ensures order.OrderObject? && order.customerCode == Undefined ==> r == Some(NoCustomerCode)
    ensures order.OrderObject? && order.customerCode != Undefined ==>
      && (order.caseWorkerId == Undefined ==> r == Some(NoCaseWorkerId))
      && (order.caseWorkerId != Undefined && !IntegerField(order.caseWorkerId) ==> r == Some(CaseWorkerIdNotInteger))
    ensures order.OrderObject? && order.customerCode != Undefined && IntegerField(order.caseWorkerId) ==>
      && (order.shipperId == Undefined ==> r == Some(NoShipperId))
      && (order.shipperId != Undefined && !IntegerField(order.shipperId) ==> r == Some(ShipperIdNotInteger))
    ensures (order.OrderObject? && order.customerCode != Undefined && IntegerField(order.caseWorkerId)
             && IntegerField(order.shipperId)) ==>
      && (order.orderArticles.ArticlesMissing? ==> r == Some(NoOrderArticles))
      && (order.orderArticles.NotAnArray? ==> r == Some(OrderArticlesNotArray))
      && (order.orderArticles.Lines? && order.orderArticles.items == [] ==> r == Some(OrderArticlesEmpty))
    ensures r.Some? && IsLineError(r.value) ==>
      && HeaderWellFormed(order)
      && r.value.line < |order.orderArticles.items|
      && !LineWellFormed(order.orderArticles.items[r.value.line], isFloatText)
      && (forall k :: 0 <= k < r.value.line ==> LineWellFormed(order.orderArticles.items[k], isFloatText))
      && r == LineError(order.orderArticles.items[r.value.line], r.value.line, isFloatText)
  {
    match order
    case NonObject => Some(NotAnObject)
    case OrderObject(customerCode, caseWorkerId, shipperId, orderArticles) =>
      if customerCode == Undefined then Some(NoCustomerCode)
      else if caseWorkerId == Undefined then Some(NoCaseWorkerId)
      else if !IntegerField(caseWorkerId) then Some(CaseWorkerIdNotInteger)
      else if shipperId == Undefined then Some(NoShipperId)
      else if !IntegerField(shipperId) then Some(ShipperIdNotInteger)
      else if orderArticles.ArticlesMissing? then Some(NoOrderArticles)
      else if orderArticles.NotAnArray? then Some(OrderArticlesNotArray)
      else if |orderArticles.items| == 0 then Some(OrderArticlesEmpty)
      else
        var lines := orderArticles.items;
        match FirstFailure(lines, line => LineWellFormed(line, isFloatText), 0)
        case None => None
        case Some(i) => LineError(lines[i], i, isFloatText)
  }

  // ---------------------------------------------------------------------
  // Value-range phase

  /** The amount of a line whose amount field passed the integer test. */
  function Amount(line: LinePayload): int
    requires IntegerField(line.amount)
  {
    IntegerValue(line.amount.s)
  }

  predicate AmountsAreIntegers(lines: seq<LinePayload>)
  {
    forall k :: 0 <= k < |lines| ==> IntegerField(lines[k].amount)
  }

  /** A positive amount and, when `discount` is numeric, a discount in
      [0, 1]. This reads `discount`, not the `discountPercent` field the
      structural phase checks. */
  predicate LineInRange(line: LinePayload)
    requires IntegerField(line.amount)
  {
    Amount(line) > 0 && (line.discount.None? || 0.0 <= line.discount.value <= 1.0)
  }

  /** validateValueRanges: the first line whose amount or discount is out
      of range. Only ever called once the structure is valid. */
  function ValidateValueRanges(lines: seq<LinePayload>): (r: Option<RangeError>)
    requires AmountsAreIntegers(lines)
    ensures r.None? <==> forall k :: 0 <= k < |lines| ==> LineInRange(lines[k])
    ensures r.Some? ==> r.value.line < |lines| && !LineInRange(lines[r.value.line])
    ensures r.Some? ==> forall k :: 0 <= k < r.value.line ==> LineInRange(lines[k])
    ensures r.Some? ==> (r.value.AmountInvalid? <==> Amount(lines[r.value.line]) <= 0)
    ensures r.Some? && r.value.DiscountInvalid? ==> Amount(lines[r.value.line]) > 0
  {
    match FirstFailure(lines, (line: LinePayload) => IntegerField(line.amount) && LineInRange(line), 0)
    case None => None
    case Some(i) => if Amount(lines[i]) <= 0 then Some(AmountInvalid(i)) else Some(DiscountInvalid(i))
  }

  // ---------------------------------------------------------------------
  // Referential phase

  /** validateCustomerCode, validateCaseWorkerId and validateShipperId:
      resolve only when exactly one row matches. */
  function RowCountCheck(q: Query<nat>, entity: Entity): (r: Option<Rejection>)
    ensures r.None? <==> q == Rows(1)
    ensures r == Some(NotFound(entity)) <==> q == Rows(0)
    ensures r == Some(Multiple(entity)) <==> q.Rows? && q.value > 1
    ensures q.DbError? ==> r == Some(StoreError(q.message))
  {
    match q
    case DbError(message) => Some(StoreError(message))
    case Rows(n) => if n == 0 then Some(NotFound(entity)) else if n > 1 then Some(Multiple(entity)) else None
  }

  /** The requested ids, in request order, that the query did not return. */
  function MissingArticleIds(requested: seq<int>, found: set<int>): (r: seq<int>)
    ensures IsSubsequence(r, requested)
    ensures forall x :: x in r <==> x in requested && x !in found
    ensures forall x :: multiset(r)[x] == if x in found then 0 else multiset(requested)[x]
    ensures r == [] <==> forall k :: 0 <= k < |requested| ==> requested[k] in found
  {
    var keep := (x: int) => x !in found;
    var r := Filter(requested, keep);
    FilterIsSubsequence(requested, keep);
    FilterCounts(requested, keep);
    forall x ensures x in r <==> x in requested && x !in found {
      FilterMembership(requested, keep, x);
    }
    r
  }

  /** validateOrderArticles: resolves only when no requested id is missing;
      otherwise the rejection lists every missing id. */
  function ArticlesCheck(requested: seq<int>, q: Query<set<int>>): (r: Option<Rejection>)
    ensures r.None? <==> q.Rows? && forall k :: 0 <= k < |requested| ==> requested[k] in q.value
    ensures q.Rows? && r.Some? ==> r.value == ArticlesNotFound(MissingArticleIds(requested, q.value))
    ensures q.DbError? ==> r == Some(StoreError(q.message))
  {
    match q
    case DbError(message) => Some(StoreError(message))
    case Rows(found) =>
      var missing := MissingArticleIds(requested, found);
      if |missing| > 0 then Some(ArticlesNotFound(missing)) else None
  }

  predicate ArticleIdsAreIntegers(lines: seq<LinePayload>)
  {
    forall k :: 0 <= k < |lines| ==> IntegerField(lines[k].articleId)
  }

  /** The article ids of a well-formed order, in line order. */
  function RequestedArticleIds(lines: seq<LinePayload>): (ids: seq<int>)
    requires ArticleIdsAreIntegers(lines)
    ensures |ids| == |lines|
    ensures forall k :: 0 <= k < |lines| ==> ParseInt(lines[k].articleId.s) == Some(ids[k])
  {
    var ids := seq(|lines|, k requires 0 <= k < |lines| && IntegerField(lines[k].articleId) => IntegerValue(lines[k].articleId.s));
    forall k | 0 <= k < |lines|
      ensures ParseInt(lines[k].articleId.s) == Some(ids[k])
    {
      ParseIntOfIntegerText(lines[k].articleId.s);
    }
    ids
  }

  /** The referential checks in the source's order, the first failure
      winning. */
  function ReferentialCheck(requested: seq<int>, lookups: Lookups): (r: Option<Rejection>)
    ensures r.None? <==>
      && lookups.customers == Rows(1) && lookups.caseWorkers == Rows(1) && lookups.shippers == Rows(1)
      && lookups.articles.Rows? && forall k :: 0 <= k < |requested| ==> requested[k] in lookups.articles.value
    ensures lookups.customers != Rows(1) ==> r == RowCountCheck(lookups.customers, Customer)
    ensures lookups.customers == Rows(1) && lookups.caseWorkers != Rows(1) ==> r == RowCountCheck(lookups.caseWorkers, CaseWorker)
    ensures lookups.customers == Rows(1) && lookups.caseWorkers == Rows(1) && lookups.shippers != Rows(1) ==>
      r == RowCountCheck(lookups.shippers, Shipper)
    ensures lookups.customers == Rows(1) && lookups.caseWorkers == Rows(1) && lookups.shippers == Rows(1) ==>
      r == ArticlesCheck(requested, lookups.articles)
    ensures r.Some? ==> !r.value.Malformed? && !r.value.OutOfRange?
  {
    var customer := RowCountCheck(lookups.customers, Customer);
    if customer.Some? then customer
    else
      var caseWorker := RowCountCheck(lookups.caseWorkers, CaseWorker);
      if caseWorker.Some? then caseWorker
      else
        var shipper := RowCountCheck(lookups.shippers, Shipper);
        if shipper.Some? then shipper
        else ArticlesCheck(requested, lookups.articles)
  }

  // ---------------------------------------------------------------------
  // validate

  /** validate: structure, then value ranges, then the store lookups. */
  function Validate(order: OrderPayload, isFloatText: string -> bool, lookups: Lookups): (r: Verdict)
    ensures ValidateStructure(order, isFloatText).Some? ==>
      r == Rejected(Malformed(ValidateStructure(order, isFloatText).value))
    ensures WellFormed(order, isFloatText) && ValidateValueRanges(order.orderArticles.items).Some? ==>
      r == Rejected(OutOfRange(ValidateValueRanges(order.orderArticles.items).value))
    ensures r.Valid? <==>
      && WellFormed(order, isFloatText)
      && (forall k :: 0 <= k < |order.orderArticles.items| ==> LineInRange(order.orderArticles.items[k]))
      && ReferentialCheck(RequestedArticleIds(order.orderArticles.items), lookups).None?
    ensures (WellFormed(order, isFloatText) && ValidateValueRanges(order.orderArticles.items).None?
             && ReferentialCheck(RequestedArticleIds(order.orderArticles.items), lookups).Some?) ==>
      r == Rejected(ReferentialCheck(RequestedArticleIds(order.orderArticles.items), lookups).value)
  {
    match ValidateStructure(order, isFloatText)
    case Some(e) => Rejected(Malformed(e))
    case None =>
      var lines := order.orderArticles.items;
      match ValidateValueRanges(lines)
      case Some(e) => Rejected(OutOfRange(e))
      case None =>
        match ReferentialCheck(RequestedArticleIds(lines), lookups)
        case Some(e) => Rejected(e)
        case None => Valid
  }

  /** A rejection by the structural or the value-range phase does not
      depend on what the store would answer: no lookup is made. */
  lemma EarlyRejectionIgnoresStore(order: OrderPayload, isFloatText: string -> bool, l1: Lookups, l2: Lookups)
    requires Validate(order, isFloatText, l1).Rejected?
    requires Validate(order, isFloatText, l1).reason.Malformed? || Validate(order, isFloatText, l1).reason.OutOfRange?
    ensures Validate(order, isFloatText, l2) == Validate(order, isFloatText, l1)
  {
    if ValidateStructure(order, isFloatText).None? {
      assert ValidateValueRanges(order.orderArticles.items).Some?;
    }
  }

  // ---------------------------------------------------------------------
  // The validated order, typed

  datatype OrderLine = OrderLine(articleId: int, amount: int, discount: Option<real>)

  datatype OrderRequest = OrderRequest(customerCode: JsValue, caseWorkerId: int, shipperId: int, lines: seq<OrderLine>)

  /** The order a well-formed payload describes, its integer fields parsed. */
  function Request(order: OrderPayload, isFloatText: string -> bool): (req: OrderRequest)
    requires WellFormed(order, isFloatText)
    ensures req.customerCode == order.customerCode
    ensures ParseInt(order.caseWorkerId.s) == Some(req.caseWorkerId)
    ensures ParseInt(order.shipperId.s) == Some(req.shipperId)
    ensures |req.lines| == |order.orderArticles.items| > 0
    ensures forall k :: 0 <= k < |req.lines| ==>
      && ParseInt(order.orderArticles.items[k].articleId.s) == Some(req.lines[k].articleId)
      && ParseInt(order.orderArticles.items[k].amount.s) == Some(req.lines[k].amount)
      && req.lines[k].discount == order.orderArticles.items[k].discount
  {
    var items := order.orderArticles.items;
    var lines := seq(|items|, k requires 0 <= k < |items| =>
                   OrderLine(IntegerValue(items[k].articleId.s), Amount(items[k]), items[k].discount));
    ParseIntOfIntegerText(order.caseWorkerId.s);
    ParseIntOfIntegerText(order.shipperId.s);
    forall k | 0 <= k < |items|
      ensures ParseInt(items[k].articleId.s) == Some(lines[k].articleId)
      ensures ParseInt(items[k].amount.s) == Some(lines[k].amount)
    {
      ParseIntOfIntegerText(items[k].articleId.s);
      ParseIntOfIntegerText(items[k].amount.s);
    }
    OrderRequest(order.customerCode, IntegerValue(order.caseWorkerId.s), IntegerValue(order.shipperId.s), lines)
  }

  /** What a valid order guarantees to the writer: every line names an
      article the store knows, orders a positive amount and carries a
      discount between 0 and 1 when it has one. */
  lemma ValidRequest(order: OrderPayload, isFloatText: string -> bool, lookups: Lookups)
    requires Validate(order, isFloatText, lookups).Valid?
    ensures WellFormed(order, isFloatText) && lookups.articles.Rows?
    ensures var lines := Request(order, isFloatText).lines;
      forall k :: 0 <= k < |lines| ==>
        && lines[k].articleId in lookups.articles.value
        && lines[k].amount > 0
        && (lines[k].discount.Some? ==> 0.0 <= lines[k].discount.value <= 1.0)
  {
    var items := order.orderArticles.items;
    var requested := RequestedArticleIds(items);
    var lines := Request(order, isFloatText).lines;
    forall k | 0 <= k < |lines|
      ensures lines[k].articleId in lookups.articles.value && lines[k].amount > 0
    {
      assert lines[k].articleId == requested[k];
      ParseIntOfIntegerText(items[k].amount.s);
    }
  }
}
