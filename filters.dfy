/** The sidebar filters: product selection (lines 44-46) and date range (lines 49-55). */
module Filters {
  import opened Options
  import opened Sequences
  import opened Table

  /** Line 44: the choices offered are df['Product'].unique(), a missing product included. */
  function ProductOptions<D(==)>(rows: seq<Row<D>>): (options: seq<Option<string>>)
    ensures NoDuplicates(options)
    ensures forall p :: p in options <==> exists i :: 0 <= i < |rows| && rows[i].product == p
  {
    var column := ProductColumn(rows);
    assert forall p :: p in column <==> exists i :: 0 <= i < |rows| && rows[i].product == p by {
      forall p | p in column ensures exists i :: 0 <= i < |rows| && rows[i].product == p {
        var i :| 0 <= i < |column| && column[i] == p;
      }
    }
    Unique(column)
  }

  /** The mask df['Product'].isin(selected); isin matches a missing product against a missing choice. */
  function IsIn<D>(selected: seq<Option<string>>): Row<D> -> bool
  {
    (row: Row<D>) => row.product in selected
  }

  /** Lines 45-46: an empty selection filters nothing; otherwise only selected products remain. */
  function FilterProducts<D(==,!new)>(rows: seq<Row<D>>, selected: seq<Option<string>>): (r: seq<Row<D>>)
    ensures selected == [] ==> r == rows
    ensures IsSubsequence(r, rows)
    ensures selected != [] ==>
      forall row :: multiset(r)[row] == if row.product in selected then multiset(rows)[row] else 0
    ensures forall row :: row in r <==> row in rows && (selected == [] || row.product in selected)
  {
    if selected == [] then
      SubsequenceReflexive(rows);
      rows
    else
      Keep(rows, IsIn(selected))
  }

  /** Selecting every product offered is the same as selecting none. */
  lemma SelectingEveryOptionKeepsAll<D(!new)>(rows: seq<Row<D>>)
    ensures FilterProducts(rows, ProductOptions(rows)) == rows
  {
    var options := ProductOptions(rows);
    if options != [] {
      forall i | 0 <= i < |rows| ensures IsIn(options)(rows[i]) {
        assert rows[i].product in options;
      }
      KeepEverything(rows, IsIn<D>(options));
    }
  }

  /**
   * Line 50: the earliest and latest dates, missing dates skipped; None when no row has a
   * date (pandas gives NaT for both).
   */
  function DateBounds(rows: seq<Row<Option<int>>>): (b: Option<(int, int)>)
    ensures b.None? <==> forall i :: 0 <= i < |rows| ==> rows[i].date.None?
    ensures b.Some? ==>
      && (exists i :: 0 <= i < |rows| && rows[i].date == Some(b.value.0))
      && (exists i :: 0 <= i < |rows| && rows[i].date == Some(b.value.1))
      && forall i :: 0 <= i < |rows| && rows[i].date.Some? ==> b.value.0 <= rows[i].date.value <= b.value.1
    decreases |rows|
  {
    if rows == [] then None
    else
      var rest := DateBounds(rows[1..]);
      assert forall i :: 1 <= i < |rows| ==> rows[i] == rows[1..][i - 1];
      match rows[0].date
      case None => rest
      case Some(d) =>
        match rest
        case None => Some((d, d))
        case Some((lo, hi)) => Some((if d < lo then d else lo, if d > hi then d else hi))
  }

  /** The mask (df['Date'] >= start) & (df['Date'] <= end); a comparison with NaT is false. */
  function Between(start: int, end: int): Row<Option<int>> -> bool
  {
    (row: Row<Option<int>>) => row.date.Some? && start <= row.date.value <= end
  }

  /**
   * Lines 53-55: with exactly two bounds, the rows whose date lies in [start, end], both ends
   * included; with any other number of bounds, the rows unchanged.
   */
  function FilterDates(rows: seq<Row<Option<int>>>, range: seq<int>): (r: seq<Row<Option<int>>>)
    ensures |range| != 2 ==> r == rows
    ensures IsSubsequence(r, rows)
    ensures |range| == 2 ==> forall row :: row in r <==>
      row in rows && row.date.Some? && range[0] <= row.date.value <= range[1]
    ensures |range| == 2 ==> forall row ::
      multiset(r)[row] == if row.date.Some? && range[0] <= row.date.value <= range[1] then multiset(rows)[row] else 0
  {
    if |range| == 2 then
      Keep(rows, Between(range[0], range[1]))
    else
      SubsequenceReflexive(rows);
      rows
  }

  predicate HasDate(row: Row<Option<int>>)
  {
    row.date.Some?
  }

  /** Left at its default [min_date, max_date], the date filter drops exactly the rows without a date. */
  lemma DefaultRangeKeepsDatedRows(rows: seq<Row<Option<int>>>)
    requires DateBounds(rows).Some?
    ensures FilterDates(rows, [DateBounds(rows).value.0, DateBounds(rows).value.1]) == Keep(rows, HasDate)
  {
    var (lo, hi) := DateBounds(rows).value;
    KeepCongruent(rows, Between(lo, hi), HasDate);
  }

  /** For a parser that reads one field at a time, converting dates commutes with the product filter. */
  lemma {:induction false} ParseDatesCommutesWithProductFilter(
    rows: seq<Row<Cell>>, selected: seq<Option<string>>, parseDate: string -> Option<int>)
    ensures ParseDates(FilterProducts(rows, selected), parseDate) == FilterProducts(ParseDates(rows, parseDate), selected)
    decreases |rows|
  {
    if selected != [] && rows != [] {
      ParseDatesCommutesWithProductFilter(rows[1..], selected, parseDate);
      var parsed := ParseDates(rows, parseDate);
      assert parsed[1..] == ParseDates(rows[1..], parseDate);
      var kept := Keep(rows, IsIn(selected));
      if rows[0].product in selected {
        assert kept == [rows[0]] + Keep(rows[1..], IsIn(selected));
        assert ParseDates(kept, parseDate)[1..] == ParseDates(kept[1..], parseDate);
      }
    }
  }
}
