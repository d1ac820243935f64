/**
 * One line of the order being put together in the create-order dialog
 * (OrderArticle.js): an article, an amount and a discount in percent.
 */
module ClientOrderArticle {
  import opened JsValues

  /** The article a line refers to. The order totals read its Einzelpreis,
      the line's own price reads its unit_price: two separate fields. */
  datatype Article = Article(artikelNr: int, einzelpreis: real, unitPrice: real)

  /** The state of one OrderArticle. */
  datatype Line = Line(article: Article, amount: int, discount: real)

  /** The attribute and message of a failed line check. */
  datatype LineFault = AmountZero | DiscountNegative | DiscountAbove100

  /** validate: the amount must not be exactly 0, then the discount must
      lie in [0, 100]. A negative amount passes. */
  function ValidateLine(l: Line): (r: Option<LineFault>)
    ensures r.None? <==> l.amount != 0 && 0.0 <= l.discount <= 100.0
    ensures r == Some(AmountZero) <==> l.amount == 0
    ensures r == Some(DiscountNegative) <==> l.amount != 0 && l.discount < 0.0
    ensures r == Some(DiscountAbove100) <==> l.amount != 0 && l.discount > 100.0
  {
    if l.amount == 0 then Some(AmountZero)
    else if l.discount < 0.0 then Some(DiscountNegative)
    else if l.discount > 100.0 then Some(DiscountAbove100)
    else None
  }

  /** getPrice: the price before the discount, unit_price times the
      amount; one piece costs the unit price, no piece costs nothing. */
  function Price(l: Line): (r: real)
    ensures l.amount >= 0 && l.article.unitPrice >= 0.0 ==> r >= 0.0
    ensures l.amount == 0 ==> r == 0.0
    ensures l.amount == 1 ==> r == l.article.unitPrice
  {
    l.article.unitPrice * (l.amount as real)
  }

  /** getDiscountInEuros: the discount percentage of the price. */
  function DiscountInEuros(l: Line): (r: real)
    ensures 0.0 <= l.discount <= 100.0 && Price(l) >= 0.0 ==> 0.0 <= r <= Price(l)
    ensures l.discount == 0.0 ==> r == 0.0
    ensures l.discount == 100.0 ==> r == Price(l)
  {
    var fraction := l.discount / 100.0;
    var r := Price(l) * fraction;
    if 0.0 <= l.discount <= 100.0 && Price(l) >= 0.0 then
      assert 0.0 <= fraction <= 1.0;
      assert Price(l) * fraction <= Price(l) * 1.0;
      r
    else r
  }

  class OrderArticle {
    const article: Article
    var amount: int
    var discount: real

    /** A new line orders one piece without discount. */
    constructor (article: Article)
      ensures this.article == article && amount == 1 && discount == 0.0
    {
      this.article := article;
      amount := 1;
      discount := 0.0;
    }

    function View(): Line
      reads this
    {
      Line(article, amount, discount)
    }

    method SetAmount(amount: int)
      modifies this
      ensures this.amount == amount && discount == old(discount)
    {
      this.amount := amount;
    }

    method SetDiscount(discount: real)
      modifies this
      ensures this.discount == discount && amount == old(amount)
    {
      this.discount := discount;
    }
  }
}
