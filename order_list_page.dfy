/**
 * The filter of the old order list page (src/web/resources/pages/index.js):
 * a filter object maps column names to selected values, "all" selecting
 * everything, plus the `dateFrom` and `dateTo` bounds on the order date.
 */
module OrderListPage {
  import opened JsValues
  import opened Sequences

  /** The conversions the filter relies on: `Date.parse` on a row's
      BestellDatum (None = NaN), and the number conversion of strings that a
      comparison with `<` applies. */
  datatype Conversions = Conversions(parseDate: JsValue -> Option<real>, stringToNumber: string -> Option<real>)

  /** The value of the "Alle" option. */
  const Wildcard: JsValue := Str("all")

  /** A column filter constrains only rows that have that property, and
      only when its value is not "all"; then it demands strict equality. */
  predicate ColumnMatches(filters: map<string, JsValue>, row: Row, column: string)
    requires column in filters
  {
    column in row && !StrictEquals(filters[column], Wildcard) ==> StrictEquals(row[column], filters[column])
  }

  /** `a < b` on numbers: false whenever either side is NaN. */
  predicate Less(a: Option<real>, b: Option<real>)
  {
    a.Some? && b.Some? && a.value < b.value
  }

  function OrderDate(row: Row, conv: Conversions): Option<real>
  {
    conv.parseDate(Field(row, "BestellDatum"))
  }

  /** The row's order date lies before a truthy `dateFrom`. */
  predicate TooEarly(filters: map<string, JsValue>, row: Row, conv: Conversions)
  {
    var from := Field(filters, "dateFrom");
    Truthy(from) && Less(OrderDate(row, conv), ToNumber(from, conv.stringToNumber))
  }

  /** The row's order date lies after a truthy `dateTo`. */
  predicate TooLate(filters: map<string, JsValue>, row: Row, conv: Conversions)
  {
    var to := Field(filters, "dateTo");
    Truthy(to) && Less(ToNumber(to, conv.stringToNumber), OrderDate(row, conv))
  }

  predicate RowMatches(filters: map<string, JsValue>, conv: Conversions, row: Row)
  {
    && (forall column :: column in filters ==> ColumnMatches(filters, row, column))
    && !TooEarly(filters, row, conv)
    && !TooLate(filters, row, conv)
  }

  function Keep(filters: map<string, JsValue>, conv: Conversions): Row -> bool
  {
    row => RowMatches(filters, conv, row)
  }

  /** The rows the page shows. */
  function Selected(rows: seq<Row>, filters: map<string, JsValue>, conv: Conversions): (r: seq<Row>)
    ensures IsSubsequence(r, rows)
    ensures forall k :: 0 <= k < |r| ==> RowMatches(filters, conv, r[k])
    ensures forall row :: row in rows && RowMatches(filters, conv, row) ==> row in r
  {
    var keep := Keep(filters, conv);
    FilterIsSubsequence(rows, keep);
    forall row | row in rows && RowMatches(filters, conv, row)
      ensures row in Filter(rows, keep)
    {
      FilterMembership(rows, keep, row);
    }
    Filter(rows, keep)
  }

  /** applyFilters(_rows, _filters): the rows that pass every column filter
      and both date bounds, in their order. */
  method ApplyFilters(rows: seq<Row>, filters: map<string, JsValue>, conv: Conversions) returns (resultRows: seq<Row>)
    ensures resultRows == Selected(rows, filters, conv)
  {
    ghost var keep := Keep(filters, conv);
    resultRows := [];
    var i := 0;
    while i < |rows|
      invariant 0 <= i <= |rows|
      invariant resultRows == Filter(rows[..i], keep)
    {
      var row := rows[i];
      var rowMatchesFilters := true;

      var remaining := filters.Keys;
      while remaining != {}
        invariant remaining <= filters.Keys
        invariant rowMatchesFilters == forall c :: c in filters && c !in remaining ==> ColumnMatches(filters, row, c)
        decreases remaining
      {
        var columnName :| columnName in remaining;
        if columnName in row {
          if !StrictEquals(filters[columnName], Wildcard) {
            var columnValue := row[columnName];
            if !StrictEquals(columnValue, filters[columnName]) {
              rowMatchesFilters := false;
              break;
            }
          }
        }
        remaining := remaining - {columnName};
      }

      var orderDate := conv.parseDate(Field(row, "BestellDatum"));
      var dateFrom := Field(filters, "dateFrom");
      var dateTo := Field(filters, "dateTo");
      if Truthy(dateFrom) && Less(orderDate, ToNumber(dateFrom, conv.stringToNumber)) {
        rowMatchesFilters := false;
      }
      if Truthy(dateTo) && Less(ToNumber(dateTo, conv.stringToNumber), orderDate) {
        rowMatchesFilters := false;
      }

      assert keep(row) == rowMatchesFilters;
      FilterPrefixStep(rows, i, keep);
      if rowMatchesFilters {
        resultRows := resultRows + [row];
      }
      i := i + 1;
    }
    assert rows[..i] == rows;
  }

  /** With only "all" selections and no date bounds (the page's initial
      empty filter object among them), every row is shown. */
  lemma WildcardsKeepAll(rows: seq<Row>, filters: map<string, JsValue>, conv: Conversions)
    requires forall column :: column in filters ==> filters[column] == Wildcard
    requires "dateFrom" !in filters && "dateTo" !in filters
    ensures Selected(rows, filters, conv) == rows
  {
    FilterKeepsAll(rows, Keep(filters, conv));
  }

  /** Selecting "all" in a column is the same as selecting nothing there. */
  lemma WildcardIsNoConstraint(rows: seq<Row>, filters: map<string, JsValue>, conv: Conversions, column: string)
    requires column != "dateFrom" && column != "dateTo"
    ensures Selected(rows, filters[column := Wildcard], conv) == Selected(rows, filters - {column}, conv)
  {
    var with := filters[column := Wildcard];
    var without := filters - {column};
    forall k | 0 <= k < |rows|
      ensures Keep(with, conv)(rows[k]) == Keep(without, conv)(rows[k])
    {
      var row := rows[k];
      assert Field(with, "dateFrom") == Field(without, "dateFrom");
      assert Field(with, "dateTo") == Field(without, "dateTo");
      if RowMatches(without, conv, row) {
        forall c | c in with
          ensures ColumnMatches(with, row, c)
        {
          if c != column {
            assert c in without;
          }
        }
      }
      if RowMatches(with, conv, row) {
        forall c | c in without
          ensures ColumnMatches(without, row, c)
        {
          assert c in with;
        }
      }
    }
    FilterAgree(rows, Keep(with, conv), Keep(without, conv));
  }

  /** The date bounds are inclusive: with both bounds set to dates, a row
      whose date parses is shown iff the date lies between them; a row whose
      date does not parse is never excluded by them. */
  lemma DateBounds(filters: map<string, JsValue>, row: Row, conv: Conversions, from: int, to: int)
    requires Field(filters, "dateFrom") == DateObj(from) && Field(filters, "dateTo") == DateObj(to)
    ensures OrderDate(row, conv).Some? ==>
      ((!TooEarly(filters, row, conv) && !TooLate(filters, row, conv))
       <==> from as real <= OrderDate(row, conv).value <= to as real)
    ensures OrderDate(row, conv).None? ==> !TooEarly(filters, row, conv) && !TooLate(filters, row, conv)
  {
  }
}
