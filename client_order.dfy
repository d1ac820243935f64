/**
 * The order being put together in the create-order dialog (Order.js): the
 * chosen customer, worker and provider, an additional discount, and a list
 * of order lines kept unique by article number.
 */
module ClientOrder {
  import opened JsValues
  import opened Sequences
  import opened ClientOrderArticle

  /** The attribute and message of a failed order check. */
  datatype OrderFault =
    | NoCustomer
    | NoWorker
    | NoProvider
    | NoOrderArticles
    | InvalidOrderArticle(articleId: int, fault: LineFault)
    | DiscountExceedsPrice

  // ---------------------------------------------------------------------
  // The order as values

  /** The index of the first line with article number `id`, or None. */
  function IndexOf(lines: seq<Line>, id: int): (r: Option<nat>)
    ensures r.None? <==> forall k :: 0 <= k < |lines| ==> lines[k].article.artikelNr != id
    ensures r.Some? ==> r.value < |lines| && lines[r.value].article.artikelNr == id
    ensures r.Some? ==> forall k :: 0 <= k < r.value ==> lines[k].article.artikelNr != id
  {
    FirstFailure(lines, (l: Line) => l.article.artikelNr != id, 0)
  }

  /** No two lines share an article number. */
  predicate DistinctArticles(lines: seq<Line>)
  {
    forall i, j :: 0 <= i < j < |lines| ==> lines[i].article.artikelNr != lines[j].article.artikelNr
  }

  /** calculateTotalPrice: the sum of Einzelpreis times amount. */
  function TotalPrice(lines: seq<Line>): real
  {
    if lines == [] then 0.0
    else TotalPrice(lines[..|lines| - 1]) + lines[|lines| - 1].article.einzelpreis * (lines[|lines| - 1].amount as real)
  }

  /** calculateTotalArticleDiscount: the sum of the line discounts, as
      stored (percentages). */
  function TotalDiscount(lines: seq<Line>): real
  {
    if lines == [] then 0.0 else TotalDiscount(lines[..|lines| - 1]) + lines[|lines| - 1].discount
  }

  /** validate: the first failing check in the source's order. */
  function OrderVerdict(customerId: JsValue, workerId: JsValue, providerId: JsValue,
                        lines: seq<Line>, additionalDiscount: real): (r: Option<OrderFault>)
    ensures r.None? <==>
      && customerId != Null && workerId != Null && providerId != Null
      && |lines| > 0
      && (forall k :: 0 <= k < |lines| ==> ValidateLine(lines[k]).None?)
      && TotalDiscount(lines) + additionalDiscount <= TotalPrice(lines)
    ensures customerId == Null ==> r == Some(NoCustomer)
    ensures customerId != Null && workerId == Null ==> r == Some(NoWorker)
    ensures customerId != Null && workerId != Null && providerId == Null ==> r == Some(NoProvider)
    ensures customerId != Null && workerId != Null && providerId != Null && lines == [] ==> r == Some(NoOrderArticles)
    ensures (customerId != Null && workerId != Null && providerId != Null
             && exists k :: 0 <= k < |lines| && ValidateLine(lines[k]).Some?) ==>
      r.Some? && r.value.InvalidOrderArticle?
    ensures r == Some(DiscountExceedsPrice) <==>
      && customerId != Null && workerId != Null && providerId != Null
      && |lines| > 0
      && (forall k :: 0 <= k < |lines| ==> ValidateLine(lines[k]).None?)
      && TotalDiscount(lines) + additionalDiscount > TotalPrice(lines)
    ensures r.Some? && r.value.InvalidOrderArticle? ==>
      exists i :: 0 <= i < |lines|
        && ValidateLine(lines[i]) == Some(r.value.fault)
        && r.value.articleId == lines[i].article.artikelNr
        && forall k :: 0 <= k < i ==> ValidateLine(lines[k]).None?
  {
    if customerId == Null then Some(NoCustomer)
    else if workerId == Null then Some(NoWorker)
    else if providerId == Null then Some(NoProvider)
    else if |lines| == 0 then Some(NoOrderArticles)
    else
      match FirstFailure(lines, (l: Line) => ValidateLine(l).None?, 0)
      case Some(i) => Some(InvalidOrderArticle(lines[i].article.artikelNr, ValidateLine(lines[i]).value))
      case None =>
        if TotalDiscount(lines) + additionalDiscount > TotalPrice(lines) then Some(DiscountExceedsPrice)
        else None
  }

  // ---------------------------------------------------------------------
  // Lemmas about the totals

  lemma {:induction false} TotalPriceAppend(lines: seq<Line>, l: Line)
    ensures TotalPrice(lines + [l]) == TotalPrice(lines) + l.article.einzelpreis * (l.amount as real)
  {
    assert (lines + [l])[..|lines|] == lines;
  }

  /** One more piece of line `i` adds one Einzelpreis to the total. */
  lemma {:induction false} TotalPriceOneMore(lines: seq<Line>, i: nat)
    requires i < |lines|
    ensures TotalPrice(lines[i := lines[i].(amount := lines[i].amount + 1)])
         == TotalPrice(lines) + lines[i].article.einzelpreis
  {
    var changed := lines[i := lines[i].(amount := lines[i].amount + 1)];
    var n := |lines|;
    if i == n - 1 {
      assert changed[..n - 1] == lines[..n - 1];
    } else {
      TotalPriceOneMore(lines[..n - 1], i);
      assert changed[..n - 1] == lines[..n - 1][i := lines[i].(amount := lines[i].amount + 1)];
    }
  }

  /** Changing one line's discount changes the total discount by the
      difference. */
  lemma {:induction false} TotalDiscountChange(lines: seq<Line>, i: nat, d: real)
    requires i < |lines|
    ensures TotalDiscount(lines[i := lines[i].(discount := d)]) == TotalDiscount(lines) - lines[i].discount + d
  {
    var changed := lines[i := lines[i].(discount := d)];
    var n := |lines|;
    if i == n - 1 {
      assert changed[..n - 1] == lines[..n - 1];
    } else {
      TotalDiscountChange(lines[..n - 1], i, d);
      assert changed[..n - 1] == lines[..n - 1][i := lines[i].(discount := d)];
    }
  }

  /** With distinct article numbers, the line found for an id is the only
      line with that id. */
  lemma IndexOfUnique(lines: seq<Line>, id: int, j: nat)
    requires DistinctArticles(lines) && j < |lines| && lines[j].article.artikelNr == id
    ensures IndexOf(lines, id) == Some(j)
  {
  }

  // ---------------------------------------------------------------------
  // The order object

  class Order {
    var customerId: JsValue
    var workerId: JsValue
    var providerId: JsValue
    var orderArticles: seq<OrderArticle>
    var additionalDiscount: real

    /** The lines as values. */
    function Lines(): (lines: seq<Line>)
      reads this, orderArticles
      ensures |lines| == |orderArticles|
      ensures forall k :: 0 <= k < |orderArticles| ==> lines[k] == orderArticles[k].View()
    {
      seq(|orderArticles|, k reads this, orderArticles requires 0 <= k < |orderArticles| => orderArticles[k].View())
    }

    /** The lines' article numbers are pairwise distinct. */
    predicate Valid()
      reads this
    {
      forall i, j :: 0 <= i < j < |orderArticles| ==> orderArticles[i].article.artikelNr != orderArticles[j].article.artikelNr
    }

    /** A new order: nothing chosen, no lines, no additional discount. */
    constructor ()
      ensures customerId == Null && workerId == Null && providerId == Null
      ensures orderArticles == [] && additionalDiscount == 0.0
      ensures Valid()
    {
      customerId := Null;
      workerId := Null;
      providerId := Null;
      orderArticles := [];
      additionalDiscount := 0.0;
    }

    method SetCustomerId(customerId: JsValue)
      modifies this
      ensures this.customerId == customerId
      ensures workerId == old(workerId) && providerId == old(providerId)
      ensures orderArticles == old(orderArticles) && additionalDiscount == old(additionalDiscount)
    {
      this.customerId := customerId;
    }

    method SetWorkerId(workerId: JsValue)
      modifies this
      ensures this.workerId == workerId
      ensures customerId == old(customerId) && providerId == old(providerId)
      ensures orderArticles == old(orderArticles) && additionalDiscount == old(additionalDiscount)
    {
      this.workerId := workerId;
    }

    method SetProviderId(providerId: JsValue)
      modifies this
      ensures this.providerId == providerId
      ensures customerId == old(customerId) && workerId == old(workerId)
      ensures orderArticles == old(orderArticles) && additionalDiscount == old(additionalDiscount)
    {
      this.providerId := providerId;
    }

    method SetAdditionalDiscount(additionalDiscount: real)
      modifies this
      ensures this.additionalDiscount == additionalDiscount
      ensures customerId == old(customerId) && workerId == old(workerId) && providerId == old(providerId)
      ensures orderArticles == old(orderArticles)
    {
      this.additionalDiscount := additionalDiscount;
    }

    /** reset: back to the state of a new order. */
    method Reset()
      modifies this
      ensures customerId == Null && workerId == Null && providerId == Null
      ensures orderArticles == [] && additionalDiscount == 0.0
      ensures Valid()
    {
      customerId := Null;
      workerId := Null;
      providerId := Null;
      orderArticles := [];
      additionalDiscount := 0.0;
    }

    /** getOrderArticleIndexByArticleId. */
    method GetOrderArticleIndexByArticleId(id: int) returns (index: Option<nat>)
      ensures index == IndexOf(Lines(), id)
    {
      var i := 0;
      while i < |orderArticles|
        invariant 0 <= i <= |orderArticles|
        invariant forall k :: 0 <= k < i ==> orderArticles[k].article.artikelNr != id
      {
        if orderArticles[i].article.artikelNr == id {
          return Some(i);
        }
        i := i + 1;
      }
      return None;
    }

    /** addOrderArticle: a line for an article not yet in the order is
        appended; otherwise the existing line gets one piece more. */
    method AddOrderArticle(orderArticle: OrderArticle)
      requires Valid()
      modifies this, orderArticles
      ensures Valid()
      ensures customerId == old(customerId) && workerId == old(workerId) && providerId == old(providerId)
      ensures additionalDiscount == old(additionalDiscount)
      ensures match IndexOf(old(Lines()), orderArticle.article.artikelNr)
        case None =>
          orderArticles == old(orderArticles) + [orderArticle]
          && Lines() == old(Lines()) + [old(orderArticle.View())]
        case Some(i) =>
          orderArticles == old(orderArticles)
          && Lines() == old(Lines())[i := old(Lines())[i].(amount := old(Lines())[i].amount + 1)]
    {
      var index := GetOrderArticleIndexByArticleId(orderArticle.article.artikelNr);
      if index.None? {
        orderArticles := orderArticles + [orderArticle];
      } else {
        var line := orderArticles[index.value];
        line.SetAmount(line.amount + 1);
      }
    }

    /** changeOrderArticleAmount: only the matching line changes; nothing
        changes when there is none. */
    method ChangeOrderArticleAmount(id: int, amount: int)
      requires Valid()
      modifies orderArticles
      ensures match IndexOf(old(Lines()), id)
        case None => Lines() == old(Lines())
        case Some(i) => Lines() == old(Lines())[i := old(Lines())[i].(amount := amount)]
    {
      var index := GetOrderArticleIndexByArticleId(id);
      if index.Some? {
        orderArticles[index.value].SetAmount(amount);
      }
    }

    /** changeOrderArticleDiscount: only the matching line changes; nothing
        changes when there is none. */
    method ChangeOrderArticleDiscount(id: int, discount: real)
      requires Valid()
      modifies orderArticles
      ensures match IndexOf(old(Lines()), id)
        case None => Lines() == old(Lines())
        case Some(i) => Lines() == old(Lines())[i := old(Lines())[i].(discount := discount)]
    {
      var index := GetOrderArticleIndexByArticleId(id);
      if index.Some? {
        orderArticles[index.value].SetDiscount(discount);
      }
    }

    method CalculateTotalPrice() returns (total: real)
      ensures total == TotalPrice(Lines())
    {
      total := 0.0;
      var i := 0;
      while i < |orderArticles|
        invariant 0 <= i <= |orderArticles|
        invariant total == TotalPrice(Lines()[..i])
      {
        assert Lines()[..i + 1][..i] == Lines()[..i];
        total := total + orderArticles[i].article.einzelpreis * (orderArticles[i].amount as real);
        i := i + 1;
      }
      assert Lines()[..i] == Lines();
    }

    method CalculateTotalArticleDiscount() returns (total: real)
      ensures total == TotalDiscount(Lines())
    {
      total := 0.0;
      var i := 0;
      while i < |orderArticles|
        invariant 0 <= i <= |orderArticles|
        invariant total == TotalDiscount(Lines()[..i])
      {
        assert Lines()[..i + 1][..i] == Lines()[..i];
        total := total + orderArticles[i].discount;
        i := i + 1;
      }
      assert Lines()[..i] == Lines();
    }

    /** validate. */
    method Validate() returns (fault: Option<OrderFault>)
      ensures fault == OrderVerdict(customerId, workerId, providerId, Lines(), additionalDiscount)
    {
      if customerId == Null {
        return Some(NoCustomer);
      } else if workerId == Null {
        return Some(NoWorker);
      } else if providerId == Null {
        return Some(NoProvider);
      }
      if |orderArticles| == 0 {
        return Some(NoOrderArticles);
      }
      var i := 0;
      while i < |orderArticles|
        invariant 0 <= i <= |orderArticles|
        invariant forall k :: 0 <= k < i ==> ValidateLine(Lines()[k]).None?
      {
        var lineFault := ValidateLine(orderArticles[i].View());
        if lineFault.Some? {
          return Some(InvalidOrderArticle(orderArticles[i].article.artikelNr, lineFault.value));
        }
        i := i + 1;
      }
      var totalDiscount := CalculateTotalArticleDiscount();
      var totalPrice := CalculateTotalPrice();
      if totalDiscount + additionalDiscount > totalPrice {
        return Some(DiscountExceedsPrice);
      }
      return None;
    }
  }
}
