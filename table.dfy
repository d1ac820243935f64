/**
 * The client's filtered table (Table.js) and its date range filter
 * (DateRangeFilter.js). The table holds its filters and every filter holds
 * its parent table, so both classes live in this one module.
 *
 * Dates are milliseconds since the epoch; `setHours` is day arithmetic on
 * them (see README, time zones). A Date variable that may be `undefined`
 * or `null` is an `Option<int>`.
 */
module Tables {
  import opened JsValues
  import opened Sequences

  const MillisecondsPerDay: int := 86400000

  /** `setHours(0, 0, 0, 0)`: the first millisecond of the day. */
  function DayStart(t: int): (r: int)
    ensures r <= t < r + MillisecondsPerDay
    ensures r % MillisecondsPerDay == 0
  {
    t - t % MillisecondsPerDay
  }

  /** `setHours(23, 59, 59, 999)`: the last millisecond of the day. */
  function DayEnd(t: int): (r: int)
    ensures t <= r < t + MillisecondsPerDay
    ensures (r + 1) % MillisecondsPerDay == 0
  {
    DayStart(t) + MillisecondsPerDay - 1
  }

  /** Normalising twice is normalising once, and the end of a day lies in
      the same day as its start. */
  lemma DayBoundsStable(t: int)
    ensures DayStart(DayStart(t)) == DayStart(t)
    ensures DayEnd(DayEnd(t)) == DayEnd(t)
    ensures DayStart(DayEnd(t)) == DayStart(t)
  {
    var s := DayStart(t);
    assert DayStart(s) == s;
    assert DayEnd(t) == s + MillisecondsPerDay - 1;
    assert DayStart(DayEnd(t)) == s;
  }

  /** The filter function a table supplies: row, effective minimum date,
      effective maximum date. */
  type DateMatcher = (Row, Option<int>, Option<int>) -> bool

  /** The state of one DateRangeFilter: its bounds (set by loadData), its
      selections (null = none) and its filter function. */
  datatype FilterState = FilterState(
    minDate: Option<int>,
    maxDate: Option<int>,
    selectedMin: Option<int>,
    selectedMax: Option<int>,
    matcher: DateMatcher)

  /** getCurrentSelectedMinDate: the selection, or the bound without one. */
  function EffectiveMin(f: FilterState): Option<int>
  {
    if f.selectedMin.None? then f.minDate else f.selectedMin
  }

  /** getCurrentSelectedMaxDate. */
  function EffectiveMax(f: FilterState): Option<int>
  {
    if f.selectedMax.None? then f.maxDate else f.selectedMax
  }

  /** rowMatchesFilter: every row matches while nothing is selected;
      otherwise the filter function decides on the effective range. */
  predicate MatchesFilter(f: FilterState, row: Row)
  {
    if f.selectedMin.None? && f.selectedMax.None? then true
    else f.matcher(row, EffectiveMin(f), EffectiveMax(f))
  }

  /** A row passes the table when every filter matches it and, for every
      selected combo box field, its value is strictly equal to the
      selection. */
  predicate MatchesFilters(filters: seq<FilterState>, selected: map<string, JsValue>, row: Row)
  {
    && (forall i :: 0 <= i < |filters| ==> MatchesFilter(filters[i], row))
    && (forall field :: field in selected ==> StrictEquals(selected[field], Field(row, field)))
  }

  function Keep(filters: seq<FilterState>, selected: map<string, JsValue>): Row -> bool
  {
    row => MatchesFilters(filters, selected, row)
  }

  /** The rows applyFilters loads into the table. */
  function FilteredRows(rows: seq<Row>, filters: seq<FilterState>, selected: map<string, JsValue>): (r: seq<Row>)
    ensures IsSubsequence(r, rows)
    ensures forall k :: 0 <= k < |r| ==> MatchesFilters(filters, selected, r[k])
    ensures forall row :: row in rows && MatchesFilters(filters, selected, row) ==> row in r
  {
    var keep := Keep(filters, selected);
    FilterIsSubsequence(rows, keep);
    forall row | row in rows && MatchesFilters(filters, selected, row)
      ensures row in Filter(rows, keep)
    {
      FilterMembership(rows, keep, row);
    }
    Filter(rows, keep)
  }

  /** While no filter has a selection and no combo box value is selected,
      every row is shown. */
  lemma NothingSelectedKeepsAll(rows: seq<Row>, filters: seq<FilterState>)
    requires forall i :: 0 <= i < |filters| ==> filters[i].selectedMin.None? && filters[i].selectedMax.None?
    ensures FilteredRows(rows, filters, map[]) == rows
  {
    FilterKeepsAll(rows, Keep(filters, map[]));
  }

  /** The combo box condition for one field. */
  function FieldIs(field: string, value: JsValue): Row -> bool
  {
    row => StrictEquals(value, Field(row, field))
  }

  /** Rows only ever leave the table when a combo box selection is added:
      the rows shown with one more selected field are exactly the rows shown
      before that match the new selection. */
  lemma AddedSelectionNarrows(rows: seq<Row>, filters: seq<FilterState>, selected: map<string, JsValue>, field: string, value: JsValue)
    requires field !in selected
    ensures FilteredRows(rows, filters, selected[field := value])
         == Filter(FilteredRows(rows, filters, selected), FieldIs(field, value))
  {
    var narrower := selected[field := value];
    var both := Both(Keep(filters, selected), FieldIs(field, value));
    forall k | 0 <= k < |rows|
      ensures Keep(filters, narrower)(rows[k]) == both(rows[k])
    {
      var row := rows[k];
      if MatchesFilters(filters, narrower, row) {
        forall f | f in selected
          ensures StrictEquals(selected[f], Field(row, f))
        {
          assert f in narrower && narrower[f] == selected[f];
        }
        assert field in narrower;
      }
    }
    FilterAgree(rows, Keep(filters, narrower), both);
    FilterConjunction(rows, Keep(filters, selected), FieldIs(field, value));
  }

  /** setSelectedComboBoxValue's test that the value is already selected:
      a falsy or missing current value and a null value count as equal. */
  predicate SameSelection(current: JsValue, value: JsValue)
  {
    (!Truthy(current) && value.Null?) || StrictEquals(current, value)
  }

  /** The combo box selections after setSelectedComboBoxValue. */
  function UpdatedSelection(selected: map<string, JsValue>, field: string, value: JsValue): map<string, JsValue>
  {
    if SameSelection(Field(selected, field), value) then selected
    else if value.Null? then selected - {field}
    else selected[field := value]
  }

  /** After setSelectedComboBoxValue the field reads as the new value (null:
      as nothing truthy), no other field changes, and for the strings and
      nulls the combo boxes pass, the table is re-filtered exactly when the
      selections changed. */
  lemma SelectionUpdate(selected: map<string, JsValue>, field: string, value: JsValue)
    ensures var r := UpdatedSelection(selected, field, value);
      && (!value.Null? ==> Field(r, field) == value)
      && (value.Null? ==> !Truthy(Field(r, field)))
      && (forall f :: f != field ==> Field(r, f) == Field(selected, f) && (f in r <==> f in selected))
      && (value.Str? || value.Null? ==> (SameSelection(Field(selected, field), value) <==> r == selected))
  {
    var r := UpdatedSelection(selected, field, value);
    if !SameSelection(Field(selected, field), value) {
      if value.Null? {
        assert field in selected && field !in r;
      } else {
        assert field in r && r[field] == value;
        if value.Str? {
          assert Field(selected, field) != value;
        }
      }
    }
  }

  /** Where the date selected on closing the picker lands: a selected day's
      start (or end), or the bound when that end of the range is missing. */
  function ClosedMin(selectedDates: seq<int>, minDate: Option<int>): Option<int>
  {
    if |selectedDates| >= 1 then Some(DayStart(selectedDates[0])) else minDate
  }

  function ClosedMax(selectedDates: seq<int>, maxDate: Option<int>): Option<int>
  {
    if |selectedDates| >= 2 then Some(DayEnd(selectedDates[1])) else maxDate
  }

  /** The states of the given filters, in order. */
  function States(filters: seq<DateRangeFilter>): (states: seq<FilterState>)
    reads filters
    ensures |states| == |filters|
    ensures forall k :: 0 <= k < |filters| ==> states[k] == filters[k].State()
  {
    if filters == [] then [] else States(filters[..|filters| - 1]) + [filters[|filters| - 1].State()]
  }

  class Table {
    var filters: seq<DateRangeFilter>
    var selectedComboBoxValues: map<string, JsValue>
    var dataRows: seq<Row>
    /** The rows last loaded into the bootstrap table by applyFilters. */
    var loadedRows: seq<Row>
    /** How often applyFilters has run. */
    ghost var filterRuns: nat

    /** A new table has no filters and no combo box selections. */
    constructor ()
      ensures filters == [] && selectedComboBoxValues == map[]
      ensures dataRows == [] && loadedRows == [] && filterRuns == 0
    {
      filters := [];
      selectedComboBoxValues := map[];
      dataRows := [];
      loadedRows := [];
      filterRuns := 0;
    }

    /** A subclass registering one more filter. */
    method AddFilter(filter: DateRangeFilter)
      modifies this
      ensures filters == old(filters) + [filter]
      ensures selectedComboBoxValues == old(selectedComboBoxValues) && dataRows == old(dataRows)
      ensures loadedRows == old(loadedRows) && filterRuns == old(filterRuns)
    {
      filters := filters + [filter];
    }

    /** The states of the filters, in order. */
    function FilterStates(): (states: seq<FilterState>)
      reads `filters, filters
      ensures |states| == |filters|
      ensures forall k :: 0 <= k < |filters| ==> states[k] == filters[k].State()
    {
      States(filters)
    }

    /** Whether one row passes every filter and every combo box selection:
        the body of the `forEach` in applyFilters. */
    method RowMatchesFilters(row: Row) returns (rowMatchesFilters: bool)
      ensures rowMatchesFilters == MatchesFilters(FilterStates(), selectedComboBoxValues, row)
    {
      rowMatchesFilters := true;
      var i := 0;
      while i < |filters|
        invariant 0 <= i <= |filters|
        invariant forall j :: 0 <= j < i ==> MatchesFilter(filters[j].State(), row)
      {
        var matches := filters[i].RowMatchesFilter(row);
        if !matches {
          assert !MatchesFilter(FilterStates()[i], row);
          rowMatchesFilters := false;
          break;
        }
        i := i + 1;
      }
      ghost var filtersMatch := rowMatchesFilters;
      assert filtersMatch <==> forall j :: 0 <= j < |filters| ==> MatchesFilter(FilterStates()[j], row);
      var remaining := selectedComboBoxValues.Keys;
      while remaining != {}
        invariant remaining <= selectedComboBoxValues.Keys
        invariant rowMatchesFilters == (filtersMatch && forall f :: f in selectedComboBoxValues && f !in remaining ==> StrictEquals(selectedComboBoxValues[f], Field(row, f)))
        decreases remaining
      {
        var fieldName :| fieldName in remaining;
        if !StrictEquals(selectedComboBoxValues[fieldName], Field(row, fieldName)) {
          rowMatchesFilters := false;
          break;
        }
        remaining := remaining - {fieldName};
      }
    }

    /** applyFilters: loads the rows that pass, in their order. */
    method ApplyFilters()
      modifies this
      ensures loadedRows == FilteredRows(dataRows, FilterStates(), selectedComboBoxValues)
      ensures filters == old(filters) && selectedComboBoxValues == old(selectedComboBoxValues) && dataRows == old(dataRows)
      ensures filterRuns == old(filterRuns) + 1
    {
      ghost var keep := Keep(FilterStates(), selectedComboBoxValues);
      var filteredDataRows := [];
      var r := 0;
      while r < |dataRows|
        invariant 0 <= r <= |dataRows|
        invariant filteredDataRows == Filter(dataRows[..r], keep)
        invariant unchanged(this)
      {
        var row := dataRows[r];
        var rowMatchesFilters := RowMatchesFilters(row);
        FilterPrefixStep(dataRows, r, keep);
        assert keep(row) == rowMatchesFilters;
        if rowMatchesFilters {
          filteredDataRows := filteredDataRows + [row];
        }
        r := r + 1;
      }
      assert dataRows[..r] == dataRows;
      loadedRows := filteredDataRows;
      filterRuns := filterRuns + 1;
    }

    /** setSelectedComboBoxValue: records (or, for null, deletes) the
        selection and re-filters, unless the value counts as already
        selected. */
    method SetSelectedComboBoxValue(dataField: string, value: JsValue)
      modifies this
      ensures selectedComboBoxValues == UpdatedSelection(old(selectedComboBoxValues), dataField, value)
      ensures filters == old(filters) && dataRows == old(dataRows)
      ensures if SameSelection(Field(old(selectedComboBoxValues), dataField), value)
        then filterRuns == old(filterRuns) && loadedRows == old(loadedRows)
        else filterRuns == old(filterRuns) + 1 && loadedRows == FilteredRows(dataRows, FilterStates(), selectedComboBoxValues)
    {
      var current := Field(selectedComboBoxValues, dataField);
      var valueEqualsCurrentValue := (!Truthy(current) && value == Null) || StrictEquals(current, value);
      if !valueEqualsCurrentValue {
        if value == Null {
          selectedComboBoxValues := selectedComboBoxValues - {dataField};
        } else {
          selectedComboBoxValues := selectedComboBoxValues[dataField := value];
        }
        ApplyFilters();
      }
    }

    /** The onLoadSuccess handler: with at least one filter the rows are
        kept and filtered; with none, nothing happens here. */
    method OnLoadSuccess(rows: seq<Row>)
      modifies this
      ensures filters == old(filters) && selectedComboBoxValues == old(selectedComboBoxValues)
      ensures |filters| > 0 ==>
        (dataRows == rows && filterRuns == old(filterRuns) + 1
         && loadedRows == FilteredRows(rows, FilterStates(), selectedComboBoxValues))
      ensures |filters| == 0 ==> dataRows == old(dataRows) && loadedRows == old(loadedRows) && filterRuns == old(filterRuns)
    {
      if |filters| > 0 {
        dataRows := rows;
        ApplyFilters();
      }
    }
  }

  class DateRangeFilter {
    const parentTable: Table
    const targetFieldName: string
    const filterFunction: DateMatcher
    var minDate: Option<int>
    var maxDate: Option<int>
    var currentSelectedMinDate: Option<int>
    var currentSelectedMaxDate: Option<int>

    /** A new filter has no bounds yet and nothing selected. */
    constructor (parentTable: Table, targetFieldName: string, filterFunction: DateMatcher)
      ensures this.parentTable == parentTable && this.targetFieldName == targetFieldName
      ensures this.filterFunction == filterFunction
      ensures minDate == None && maxDate == None
      ensures currentSelectedMinDate == None && currentSelectedMaxDate == None
    {
      this.parentTable := parentTable;
      this.targetFieldName := targetFieldName;
      this.filterFunction := filterFunction;
      minDate := None;
      maxDate := None;
      currentSelectedMinDate := None;
      currentSelectedMaxDate := None;
    }

    function State(): FilterState
      reads this
    {
      FilterState(minDate, maxDate, currentSelectedMinDate, currentSelectedMaxDate, filterFunction)
    }

    /** rowMatchesFilter. */
    predicate RowMatchesFilter(row: Row)
      reads this
    {
      MatchesFilter(State(), row)
    }

    /** loadData: the bounds become the start of the minimum's day and the
        end of the maximum's day; the selections stay. */
    method LoadData(minimumDate: int, maximumDate: int)
      modifies this
      ensures minDate == Some(DayStart(minimumDate)) && maxDate == Some(DayEnd(maximumDate))
      ensures currentSelectedMinDate == old(currentSelectedMinDate) && currentSelectedMaxDate == old(currentSelectedMaxDate)
    {
      minDate := Some(DayStart(minimumDate));
      maxDate := Some(DayEnd(maximumDate));
    }

    /** onDateRangeFilterClose with the picker's selected dates (zero, one
        or two of them). Afterwards the effective range is the chosen range,
        a choice equal to its bound is stored as null, and the parent table
        is re-filtered exactly when the effective range changed. */
    method OnDateRangeFilterClose(selectedDates: seq<int>)
      modifies this, parentTable
      ensures minDate == old(minDate) && maxDate == old(maxDate)
      ensures EffectiveMin(State()) == ClosedMin(selectedDates, minDate)
      ensures EffectiveMax(State()) == ClosedMax(selectedDates, maxDate)
      ensures currentSelectedMinDate.None? <==> ClosedMin(selectedDates, minDate) == minDate
      ensures currentSelectedMaxDate.None? <==> ClosedMax(selectedDates, maxDate) == maxDate
      ensures parentTable.filters == old(parentTable.filters)
      ensures parentTable.selectedComboBoxValues == old(parentTable.selectedComboBoxValues)
      ensures parentTable.dataRows == old(parentTable.dataRows)
      ensures var changed := old(EffectiveMin(State())) != ClosedMin(selectedDates, minDate)
                          || old(EffectiveMax(State())) != ClosedMax(selectedDates, maxDate);
        if changed then
          parentTable.filterRuns == old(parentTable.filterRuns) + 1
          && parentTable.loadedRows == FilteredRows(parentTable.dataRows, parentTable.FilterStates(), parentTable.selectedComboBoxValues)
        else
          parentTable.filterRuns == old(parentTable.filterRuns) && parentTable.loadedRows == old(parentTable.loadedRows)
    {
      var selectedMinDate := if |selectedDates| >= 1 then Some(DayStart(selectedDates[0])) else minDate;
      var selectedMaxDate := if |selectedDates| >= 2 then Some(DayEnd(selectedDates[1])) else maxDate;

      var dateRangeChanged := EffectiveMin(State()) != selectedMinDate || EffectiveMax(State()) != selectedMaxDate;

      currentSelectedMinDate := if minDate == selectedMinDate then None else selectedMinDate;
      currentSelectedMaxDate := if maxDate == selectedMaxDate then None else selectedMaxDate;

      if dateRangeChanged {
        parentTable.ApplyFilters();
      }
    }
  }
}
