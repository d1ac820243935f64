/**
 * The backend order writer (OrderCreator/OrderCreator.js): allocate an order
 * id, then, inside one transaction, insert the order header, one detail row
 * per line and the decremented stock of each ordered article, collecting a
 * warning for every article whose stock falls below its minimum.
 */
module OrderCreator {
  import opened JsValues
  import opened Sequences
  import OV = OrderValidator

  /** A row of the article table, as far as the writer reads it. */
  datatype Article = Article(unitPrice: real, stock: int, minimumStock: int)

  /** A row of the orders table. */
  datatype OrderHeader = OrderHeader(
    id: int, customerCode: JsValue, caseWorkerId: int,
    orderDate: int, deliveryDate: int, shippingDate: int,
    shipperId: int, freight: real,
    recipient: string, street: string, city: string, region: string, postcode: string, country: string)

  /** A row of the order details table. */
  datatype OrderDetail = OrderDetail(orderId: int, articleId: int, unitPrice: real, amount: int, discount: Option<real>)

  datatype StockWarning = StockWarning(articleId: int, newStock: int, minimumStock: int)

  /** The state the store returns to on rollback. */
  datatype Snapshot = Snapshot(orders: seq<OrderHeader>, details: seq<OrderDetail>, articles: map<int, Article>)

  datatype SaveResult = Saved(warnings: seq<StockWarning>) | Failed(error: string)

  datatype CreateResult = Created(warnings: seq<StockWarning>) | Refused(reason: OV.Rejection) | WriteFailed(error: string)

  /** The shipping cost every order is written with. */
  const ShippingCost: real := 1.5

  /** The header of a new order: the allocated id, the three references,
      the time `now` for all three dates, and the fixed placeholder
      address. */
  function Header(id: int, req: OV.OrderRequest, now: int): OrderHeader
  {
    OrderHeader(id, req.customerCode, req.caseWorkerId, now, now, now, req.shipperId, ShippingCost,
                "Max Mustermann", "Musterstrasse 2", "Musterhausen", "Musterregion", "1111", "Musterland")
  }

  // ---------------------------------------------------------------------
  // Order id allocation

  /** The order ids present in the orders table. */
  predicate HasOrderId(orders: seq<OrderHeader>, id: int)
  {
    exists k :: 0 <= k < |orders| && orders[k].id == id
  }

  /** The largest order id of a non-empty orders table. */
  function MaxOrderId(orders: seq<OrderHeader>): (m: int)
    requires orders != []
    ensures HasOrderId(orders, m)
    ensures forall k :: 0 <= k < |orders| ==> orders[k].id <= m
  {
    if |orders| == 1 then orders[0].id
    else
      var m := MaxOrderId(orders[..|orders| - 1]);
      var last := orders[|orders| - 1].id;
      assert forall k :: 0 <= k < |orders| - 1 ==> orders[..|orders| - 1][k] == orders[k];
      if last > m then last else m
  }

  /** The rows of `SELECT MAX(BestellNr)`: one row, NULL on an empty table. */
  function MaxQueryRows(orders: seq<OrderHeader>): seq<Option<int>>
  {
    if orders == [] then [None] else [Some(MaxOrderId(orders))]
  }

  /** getNewOrderId on the rows of the MAX query: 1 when there is no row,
      otherwise the maximum plus one, where a NULL maximum counts as 0
      (`null + 1` is 1). */
  function NewOrderId(rows: seq<Option<int>>): (id: int)
    ensures |rows| > 0 && rows[0].Some? ==> id > rows[0].value
    ensures |rows| == 0 || rows[0].None? ==> id == 1
  {
    if |rows| == 0 then 1
    else match rows[0]
      case None => 1
      case Some(m) => m + 1
  }

  /** The allocated id is larger than every existing order id, hence not
      taken, and it is 1 on an empty table. */
  lemma NewOrderIdIsFresh(orders: seq<OrderHeader>)
    ensures forall k :: 0 <= k < |orders| ==> orders[k].id < NewOrderId(MaxQueryRows(orders))
    ensures !HasOrderId(orders, NewOrderId(MaxQueryRows(orders)))
    ensures orders == [] ==> NewOrderId(MaxQueryRows(orders)) == 1
  {
  }

  // ---------------------------------------------------------------------
  // Ordering the lines

  predicate SortedByArticleId(lines: seq<OV.OrderLine>)
  {
    forall i, j :: 0 <= i < j < |lines| ==> lines[i].articleId <= lines[j].articleId
  }

  /** A line no larger than the head of a sorted sequence can go first. */
  lemma SortedCons(first: OV.OrderLine, rest: seq<OV.OrderLine>)
    requires SortedByArticleId(rest) && (rest != [] ==> first.articleId <= rest[0].articleId)
    ensures SortedByArticleId([first] + rest)
  {
    var r := [first] + rest;
    forall i, j | 0 <= i < j < |r| ensures r[i].articleId <= r[j].articleId {
      if i == 0 {
        assert r[j] == rest[j - 1];
      } else {
        assert r[i] == rest[i - 1] && r[j] == rest[j - 1];
      }
    }
  }

  function Insert(line: OV.OrderLine, sorted: seq<OV.OrderLine>): (r: seq<OV.OrderLine>)
    requires SortedByArticleId(sorted)
    ensures SortedByArticleId(r)
    ensures multiset(r) == multiset(sorted) + multiset{line}
    ensures r != [] && (r[0] == line || (sorted != [] && r[0] == sorted[0]))
  {
    if sorted == [] || line.articleId <= sorted[0].articleId then
      SortedCons(line, sorted);
      [line] + sorted
    else
      var rest := Insert(line, sorted[1..]);
      assert sorted == [sorted[0]] + sorted[1..];
      SortedCons(sorted[0], rest);
      [sorted[0]] + rest
  }

  /** The lines in ascending article id order, the order in which the
      writer processes them. */
  function SortByArticleId(lines: seq<OV.OrderLine>): (r: seq<OV.OrderLine>)
    ensures SortedByArticleId(r)
    ensures multiset(r) == multiset(lines)
  {
    if lines == [] then []
    else
      assert lines == [lines[0]] + lines[1..];
      Insert(lines[0], SortByArticleId(lines[1..]))
  }

  // ---------------------------------------------------------------------
  // What the write loop produces, line by line

  predicate AllArticlesKnown(data: map<int, Article>, lines: seq<OV.OrderLine>)
  {
    forall k :: 0 <= k < |lines| ==> lines[k].articleId in data
  }

  /** The new stock of a line's article: stock minus amount, not clamped. */
  function NewStock(data: map<int, Article>, line: OV.OrderLine): int
    requires line.articleId in data
  {
    data[line.articleId].stock - line.amount
  }

  /** The line leaves its article below the minimum stock. */
  predicate BelowMinimum(data: map<int, Article>, line: OV.OrderLine)
  {
    line.articleId in data && NewStock(data, line) < data[line.articleId].minimumStock
  }

  function WarningFor(data: map<int, Article>, line: OV.OrderLine): StockWarning
    requires line.articleId in data
  {
    StockWarning(line.articleId, NewStock(data, line), data[line.articleId].minimumStock)
  }

  /** The warnings the loop pushes for `lines`, in processing order. */
  function Warnings(data: map<int, Article>, lines: seq<OV.OrderLine>): (r: seq<StockWarning>)
    requires AllArticlesKnown(data, lines)
    ensures |r| <= |lines|
    ensures forall w :: w in r ==> w.newStock < w.minimumStock
  {
    if lines == [] then []
    else
      var last := lines[|lines| - 1];
      Warnings(data, lines[..|lines| - 1])
        + (if BelowMinimum(data, last) then [WarningFor(data, last)] else [])
  }

  /** The detail rows the loop inserts for `lines`: the unit price always
      comes from the article table. */
  function DetailRows(orderId: int, data: map<int, Article>, lines: seq<OV.OrderLine>): (rows: seq<OrderDetail>)
    requires AllArticlesKnown(data, lines)
    ensures |rows| == |lines|
    ensures forall k :: 0 <= k < |lines| ==>
      rows[k] == OrderDetail(orderId, lines[k].articleId, data[lines[k].articleId].unitPrice, lines[k].amount, lines[k].discount)
  {
    if lines == [] then []
    else
      var last := lines[|lines| - 1];
      DetailRows(orderId, data, lines[..|lines| - 1])
        + [OrderDetail(orderId, last.articleId, data[last.articleId].unitPrice, last.amount, last.discount)]
  }

  /** `UPDATE artikel SET Lagerbestand = stock WHERE ArtikelNr = id`. */
  function SetStock(m: map<int, Article>, id: int, stock: int): (r: map<int, Article>)
    ensures r.Keys == m.Keys
    ensures id in m ==> r[id] == m[id].(stock := stock)
    ensures forall j :: j in m && j != id ==> r[j] == m[j]
  {
    if id in m then m[id := m[id].(stock := stock)] else m
  }

  /** The article table after the stock updates of `lines`, each computed
      from `data`, the article rows read once before the loop. */
  function StockAfter(data: map<int, Article>, lines: seq<OV.OrderLine>): (r: map<int, Article>)
    requires AllArticlesKnown(data, lines)
    ensures r.Keys == data.Keys
  {
    if lines == [] then data
    else
      var last := lines[|lines| - 1];
      SetStock(StockAfter(data, lines[..|lines| - 1]), last.articleId, NewStock(data, last))
  }

  // ---------------------------------------------------------------------
  // Properties of the write loop

  /** Warnings follow processing order: the warnings of a concatenation
      are the warnings of its parts. */
  lemma {:induction false} WarningsAppend(data: map<int, Article>, a: seq<OV.OrderLine>, b: seq<OV.OrderLine>)
    requires AllArticlesKnown(data, a) && AllArticlesKnown(data, b)
    ensures AllArticlesKnown(data, a + b)
    ensures Warnings(data, a + b) == Warnings(data, a) + Warnings(data, b)
  {
    assert AllArticlesKnown(data, a + b);
    if b != [] {
      var ab := a + b;
      assert ab[..|ab| - 1] == a + b[..|b| - 1];
      WarningsAppend(data, a, b[..|b| - 1]);
    } else {
      assert a + b == a;
    }
  }

  /** The lines that leave their article below its minimum stock, in line
      order. */
  function Breaches(data: map<int, Article>, lines: seq<OV.OrderLine>): (r: seq<OV.OrderLine>)
    ensures forall k :: 0 <= k < |r| ==> BelowMinimum(data, r[k])
  {
    Filter(lines, l => BelowMinimum(data, l))
  }

  /** One warning per line, in order. */
  function WarningsOf(data: map<int, Article>, lines: seq<OV.OrderLine>): (r: seq<StockWarning>)
    requires AllArticlesKnown(data, lines)
    ensures |r| == |lines|
    ensures forall k :: 0 <= k < |lines| ==> r[k] == WarningFor(data, lines[k])
  {
    if lines == [] then []
    else WarningsOf(data, lines[..|lines| - 1]) + [WarningFor(data, lines[|lines| - 1])]
  }

  /** The warnings are exactly one per line whose new stock is below its
      article's minimum stock, in line order; a new stock equal to the
      minimum gives none. */
  lemma {:induction false} WarningsSelectBreaches(data: map<int, Article>, lines: seq<OV.OrderLine>)
    requires AllArticlesKnown(data, lines)
    ensures Warnings(data, lines) == WarningsOf(data, Breaches(data, lines))
  {
    if lines != [] {
      var init := lines[..|lines| - 1];
      var last := lines[|lines| - 1];
      WarningsSelectBreaches(data, init);
      assert lines == init + [last];
      FilterAppend(init, [last], l => BelowMinimum(data, l));
      assert [last][1..] == [];
      var b := Breaches(data, init);
      if BelowMinimum(data, last) {
        assert Breaches(data, lines) == b + [last];
        assert (b + [last])[..|b|] == b;
      } else {
        assert Breaches(data, lines) == b;
      }
    }
  }

  predicate DistinctArticles(lines: seq<OV.OrderLine>)
  {
    forall i, j :: 0 <= i < j < |lines| ==> lines[i].articleId != lines[j].articleId
  }

  /** With one line per article, each ordered article's stock drops by its
      line's amount and every other article row is untouched. */
  lemma {:induction false} StockAfterDistinct(data: map<int, Article>, lines: seq<OV.OrderLine>)
    requires AllArticlesKnown(data, lines) && DistinctArticles(lines)
    ensures forall k :: 0 <= k < |lines| ==>
      StockAfter(data, lines)[lines[k].articleId] == data[lines[k].articleId].(stock := data[lines[k].articleId].stock - lines[k].amount)
    ensures forall id :: id in data && (forall k :: 0 <= k < |lines| ==> lines[k].articleId != id) ==>
      StockAfter(data, lines)[id] == data[id]
  {
    if lines != [] {
      var init := lines[..|lines| - 1];
      StockAfterDistinct(data, init);
      var last := lines[|lines| - 1];
      forall k | 0 <= k < |lines| - 1
        ensures init[k] == lines[k] && lines[k].articleId != last.articleId
      {
      }
    }
  }

  /** The rows of the article query (every article, in ascending article
      id order, with no filter on the ordered ids) line up with the sorted
      lines: the loop reads row i for line i, and that row must be the row
      of line i's own article. */
  predicate PairedByPosition(data: map<int, Article>, rows: seq<Article>, sorted: seq<OV.OrderLine>)
  {
    && |sorted| <= |rows|
    && forall i :: 0 <= i < |sorted| ==> sorted[i].articleId in data && rows[i] == data[sorted[i].articleId]
  }

  /** The pairing holds only when the ordered ids are the smallest ids of
      the table: with articles 1, 2 and 3 and one line for article 2, the
      loop reads article 1's row for that line. */
  lemma PairingFailsOnGaps(a1: Article, a2: Article, a3: Article, line: OV.OrderLine)
    requires a1 != a2 && line.articleId == 2
    ensures var data := map[1 := a1, 2 := a2, 3 := a3];
      && AllArticlesKnown(data, [line])
      && !PairedByPosition(data, [a1, a2, a3], [line])
      && DetailRows(0, data, [line])[0].unitPrice == a2.unitPrice
  {
    var data := map[1 := a1, 2 := a2, 3 := a3];
    assert [line][0] == line;
  }

  /** Sorting keeps every line, so every sorted line's article is known. */
  lemma SortedLinesKnown(data: map<int, Article>, lines: seq<OV.OrderLine>)
    requires AllArticlesKnown(data, lines)
    ensures AllArticlesKnown(data, SortByArticleId(lines))
  {
    var sorted := SortByArticleId(lines);
    forall k | 0 <= k < |sorted| ensures sorted[k].articleId in data {
      assert sorted[k] in multiset(lines);
    }
  }

  /** After processing `done` from the article rows `data`: the warnings
      so far, the detail rows added so far and the article table. */
  predicate Processed(orderId: int, data: map<int, Article>, done: seq<OV.OrderLine>,
                      warnings: seq<StockWarning>, added: seq<OrderDetail>, stock: map<int, Article>)
  {
    && AllArticlesKnown(data, done)
    && warnings == Warnings(data, done)
    && added == DetailRows(orderId, data, done)
    && stock == StockAfter(data, done)
  }

  /** Processing one more line extends each accumulated result by that
      line's contribution. */
  lemma ProcessedStep(orderId: int, data: map<int, Article>, sorted: seq<OV.OrderLine>, i: int, article: Article,
                      warnings: seq<StockWarning>, added: seq<OrderDetail>, stock: map<int, Article>)
    requires AllArticlesKnown(data, sorted) && 0 <= i < |sorted|
    requires article == data[sorted[i].articleId]
    requires Processed(orderId, data, sorted[..i], warnings, added, stock)
    ensures var line := sorted[i];
      var newStock := article.stock - line.amount;
      Processed(orderId, data, sorted[..i + 1],
        warnings + (if newStock < article.minimumStock then [StockWarning(line.articleId, newStock, article.minimumStock)] else []),
        added + [OrderDetail(orderId, line.articleId, article.unitPrice, line.amount, line.discount)],
        SetStock(stock, line.articleId, newStock))
  {
    assert sorted[..i + 1][..i] == sorted[..i];
  }

  // ---------------------------------------------------------------------
  // The store

  class OrderStore {
    /** The orders table, in insertion order. */
    var orders: seq<OrderHeader>
    /** The order details table, in insertion order. */
    var details: seq<OrderDetail>
    /** The article table, keyed by article id. */
    var articles: map<int, Article>
    /** The state saved by the open transaction, if one is open. */
    var transaction: Option<Snapshot>

    constructor (orders: seq<OrderHeader>, details: seq<OrderDetail>, articles: map<int, Article>)
      ensures this.orders == orders && this.details == details && this.articles == articles
      ensures transaction == None
    {
      this.orders := orders;
      this.details := details;
      this.articles := articles;
      transaction := None;
    }

    function State(): Snapshot
      reads this
    {
      Snapshot(orders, details, articles)
    }

    /** `SELECT MAX(BestellNr) FROM bestellungen`. */
    method MaxOrderIdQuery() returns (rows: seq<Option<int>>)
      ensures rows == MaxQueryRows(orders)
    {
      if |orders| == 0 {
        return [None];
      }
      var m := orders[0].id;
      var i := 1;
      while i < |orders|
        invariant 1 <= i <= |orders|
        invariant m == MaxOrderId(orders[..i])
      {
        assert orders[..i + 1][..i] == orders[..i];
        if orders[i].id > m {
          m := orders[i].id;
        }
        i := i + 1;
      }
      assert orders[..i] == orders;
      rows := [Some(m)];
    }

    method BeginTransaction()
      modifies this
      ensures State() == old(State())
      ensures transaction == Some(old(State()))
    {
      transaction := Some(State());
    }

    method Commit()
      modifies this
      ensures State() == old(State())
      ensures transaction == None
    {
      transaction := None;
    }

    /** Undo everything since the transaction began; outside a transaction
        a rollback changes nothing. */
    method Rollback()
      modifies this
      ensures old(transaction).Some? ==> State() == old(transaction).value
      ensures old(transaction).None? ==> State() == old(State())
      ensures transaction == None
    {
      if transaction.Some? {
        orders := transaction.value.orders;
        details := transaction.value.details;
        articles := transaction.value.articles;
      }
      transaction := None;
    }

    /** insertOrderIntoOrdersTable. The insert fails on a store error
        (`fault`) or on an id already taken; otherwise it appends the
        header. */
    method InsertOrderIntoOrdersTable(id: int, req: OV.OrderRequest, now: int, fault: bool) returns (error: Option<string>)
      modifies this
      ensures error.None? <==> !fault && !HasOrderId(old(orders), id)
      ensures error.None? ==> orders == old(orders) + [Header(id, req, now)]
      ensures error.Some? ==> orders == old(orders)
      ensures details == old(details) && articles == old(articles) && transaction == old(transaction)
    {
      if fault {
        return Some("store error");
      }
      var k := 0;
      while k < |orders|
        invariant 0 <= k <= |orders|
        invariant forall j :: 0 <= j < k ==> orders[j].id != id
      {
        if orders[k].id == id {
          return Some("duplicate order id");
        }
        k := k + 1;
      }
      orders := orders + [Header(id, req, now)];
      error := None;
    }

    /** insertOrderArticleIntoOrderDetailsTable. */
    method InsertOrderArticleIntoOrderDetailsTable(orderId: int, line: OV.OrderLine, unitPrice: real)
      modifies this
      ensures details == old(details) + [OrderDetail(orderId, line.articleId, unitPrice, line.amount, line.discount)]
      ensures orders == old(orders) && articles == old(articles) && transaction == old(transaction)
    {
      details := details + [OrderDetail(orderId, line.articleId, unitPrice, line.amount, line.discount)];
    }

    /** updateOrderArticleStock: only that article's stock changes. */
    method UpdateOrderArticleStock(articleId: int, newStock: int)
      modifies this
      ensures articles == SetStock(old(articles), articleId, newStock)
      ensures orders == old(orders) && details == old(details) && transaction == old(transaction)
    {
      if articleId in articles {
        articles := articles[articleId := articles[articleId].(stock := newStock)];
      }
    }

    /** The loop body of saveOrderArticles for one line whose article row
        was read as `article`: insert the detail row at the article's unit
        price, write the new stock, and report a warning when the new stock
        is below the minimum. */
    method SaveOrderArticle(orderId: int, line: OV.OrderLine, article: Article) returns (warning: seq<StockWarning>)
      modifies this
      ensures var newStock := article.stock - line.amount;
        && warning == (if newStock < article.minimumStock then [StockWarning(line.articleId, newStock, article.minimumStock)] else [])
        && details == old(details) + [OrderDetail(orderId, line.articleId, article.unitPrice, line.amount, line.discount)]
        && articles == SetStock(old(articles), line.articleId, newStock)
      ensures orders == old(orders) && transaction == old(transaction)
    {
      var newStock := article.stock - line.amount;
      warning := [];
      if newStock < article.minimumStock {
        warning := [StockWarning(line.articleId, newStock, article.minimumStock)];
      }
      InsertOrderArticleIntoOrderDetailsTable(orderId, line, article.unitPrice);
      UpdateOrderArticleStock(line.articleId, newStock);
    }

    /** The loop of saveOrderArticles over the lines already in article id
        order: line i is processed with row i of the article query. */
    method SaveSortedOrderArticles(orderId: int, sorted: seq<OV.OrderLine>, rows: seq<Article>)
      returns (warnings: seq<StockWarning>)
      requires PairedByPosition(articles, rows, sorted)
      modifies this
      ensures warnings == Warnings(old(articles), sorted)
      ensures details == old(details) + DetailRows(orderId, old(articles), sorted)
      ensures articles == StockAfter(old(articles), sorted)
      ensures orders == old(orders) && transaction == old(transaction)
    {
      ghost var data := articles;
      assert AllArticlesKnown(data, sorted);
      warnings := [];
      ghost var added: seq<OrderDetail> := [];
      var i := 0;
      while i < |sorted|
        invariant 0 <= i <= |sorted|
        invariant Processed(orderId, data, sorted[..i], warnings, added, articles)
        invariant details == old(details) + added
        invariant orders == old(orders) && transaction == old(transaction)
      {
        var line, article := sorted[i], rows[i];
        ProcessedStep(orderId, data, sorted, i, article, warnings, added, articles);
        var warning := SaveOrderArticle(orderId, line, article);
        warnings := warnings + warning;
        added := added + [OrderDetail(orderId, line.articleId, article.unitPrice, line.amount, line.discount)];
        i := i + 1;
      }
      assert sorted[..i] == sorted;
    }

    /** saveOrderArticles: process the lines in article id order, insert
        one detail row and one stock update per line, and collect the stock
        warnings. */
    method SaveOrderArticles(orderId: int, lines: seq<OV.OrderLine>, rows: seq<Article>)
      returns (warnings: seq<StockWarning>)
      requires PairedByPosition(articles, rows, SortByArticleId(lines))
      modifies this
      ensures AllArticlesKnown(old(articles), SortByArticleId(lines))
      ensures warnings == Warnings(old(articles), SortByArticleId(lines))
      ensures details == old(details) + DetailRows(orderId, old(articles), SortByArticleId(lines))
      ensures articles == StockAfter(old(articles), SortByArticleId(lines))
      ensures orders == old(orders) && transaction == old(transaction)
    {
      var sorted := SortByArticleId(lines);
      warnings := SaveSortedOrderArticles(orderId, sorted, rows);
    }

    /** saveOrder: allocate the id, then insert the header and the lines
        inside one transaction; a failed header insert rolls back. */
    method SaveOrder(req: OV.OrderRequest, now: int, fault: bool, rows: seq<Article>) returns (result: SaveResult)
      requires transaction.None?
      requires PairedByPosition(articles, rows, SortByArticleId(req.lines))
      modifies this
      ensures transaction == None
      ensures result.Failed? <==> fault
      ensures result.Failed? ==> State() == old(State())
      ensures result.Saved? ==>
        var id := NewOrderId(MaxQueryRows(old(orders)));
        var sorted := SortByArticleId(req.lines);
        && AllArticlesKnown(old(articles), sorted)
        && !HasOrderId(old(orders), id)
        && orders == old(orders) + [Header(id, req, now)]
        && details == old(details) + DetailRows(id, old(articles), sorted)
        && articles == StockAfter(old(articles), sorted)
        && result.warnings == Warnings(old(articles), sorted)
    {
      var maxRows := MaxOrderIdQuery();
      var id := NewOrderId(maxRows);
      NewOrderIdIsFresh(orders);
      BeginTransaction();
      var error := InsertOrderIntoOrdersTable(id, req, now, fault);
      if error.Some? {
        Rollback();
        return Failed(error.value);
      }
      var warnings := SaveOrderArticles(id, req.lines, rows);
      Commit();
      result := Saved(warnings);
    }

    /** createOrder: validate against this store (customer, case worker and
        shipper row counts are inputs; the article ids are looked up in the
        article table), and save only an order that validates; `rows` are
        the article query's rows, paired with the sorted lines. */
    method CreateOrder(order: OV.OrderPayload, isFloatText: string -> bool,
                       customers: OV.Query<nat>, caseWorkers: OV.Query<nat>, shippers: OV.Query<nat>,
                       now: int, fault: bool, rows: seq<Article>) returns (result: CreateResult)
      requires transaction.None?
      requires OV.Validate(order, isFloatText, OV.Lookups(customers, caseWorkers, shippers, OV.Rows(articles.Keys))).Valid? ==>
        PairedByPosition(articles, rows, SortByArticleId(OV.Request(order, isFloatText).lines))
      modifies this
      ensures transaction == None
      ensures var verdict := OV.Validate(order, isFloatText, OV.Lookups(customers, caseWorkers, shippers, OV.Rows(old(articles).Keys)));
        && (verdict.Rejected? ==> result == Refused(verdict.reason))
        && (result.Created? || result.WriteFailed? ==> verdict.Valid?)
      ensures !result.Created? ==> State() == old(State())
      ensures result.Created? ==>
        var id := NewOrderId(MaxQueryRows(old(orders)));
        var req := OV.Request(order, isFloatText);
        var sorted := SortByArticleId(req.lines);
        && !HasOrderId(old(orders), id)
        && AllArticlesKnown(old(articles), sorted)
        && orders == old(orders) + [Header(id, req, now)]
        && details == old(details) + DetailRows(id, old(articles), sorted)
        && articles == StockAfter(old(articles), sorted)
        && result.warnings == Warnings(old(articles), sorted)
      ensures result.WriteFailed? <==>
        fault && OV.Validate(order, isFloatText, OV.Lookups(customers, caseWorkers, shippers, OV.Rows(old(articles).Keys))).Valid?
    {
      var lookups := OV.Lookups(customers, caseWorkers, shippers, OV.Rows(articles.Keys));
      var verdict := OV.Validate(order, isFloatText, lookups);
      if verdict.Rejected? {
        return Refused(verdict.reason);
      }
      var req := OV.Request(order, isFloatText);
      OV.ValidRequest(order, isFloatText, lookups);
      var saved := SaveOrder(req, now, fault, rows);
      match saved
      case Saved(warnings) =>
        result := Created(warnings);
      case Failed(error) =>
        result := WriteFailed(error);
    }
  }
}
