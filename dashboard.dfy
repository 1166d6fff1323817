/**
 * One run of the dashboard script for an uploaded file and the current sidebar choices:
 * schema check, coercion, filters, metrics and the two charts.
 */
module Dashboard {
  import opened Options
  import opened Sequences
  import opened Schema
  import opened Table
  import opened Filters
  import opened Aggregates
  import opened GroupBy

  /** The Total_Sales of the rows of one product: its bar in the sales-by-product chart. */
  function ProductTotal<D>(rows: seq<Row<D>>, product: string): real
  {
    KeyTotal(ProductColumn(rows), SalesColumn(rows), Some(product))
  }

  /** The Total_Sales of the rows of one day: its point in the daily trend. */
  function DayTotal(rows: seq<Row<Option<int>>>, day: int): real
  {
    KeyTotal(DateColumn(rows), SalesColumn(rows), Some(day))
  }

  /**
   * Line 73: one entry per product present in the table (rows without a product belong to
   * none), holding the sum of its rows' present Total_Sales, highest first.
   */
  function SalesByProduct<D>(rows: seq<Row<D>>): (r: seq<(string, real)>)
    ensures ValuesDescending(r)
    ensures forall i :: 0 <= i < |r| ==> Some(r[i].0) in ProductColumn(rows) && r[i].1 == ProductTotal(rows, r[i].0)
    ensures forall p :: Some(p) in ProductColumn(rows) ==> exists i :: 0 <= i < |r| && r[i].0 == p
    ensures forall i, j :: 0 <= i < j < |r| ==> r[i].0 != r[j].0
  {
    var keys := ProductColumn(rows);
    RankedGroups(keys, SalesColumn(rows), Unique(Present(keys)))
  }

  /**
   * Line 80: one entry per day present in the table (rows without a date belong to none),
   * holding the sum of its rows' present Total_Sales, earliest day first.
   */
  function DailyTrend(rows: seq<Row<Option<int>>>): (r: seq<(int, real)>)
    ensures forall i, j :: 0 <= i < j < |r| ==> r[i].0 < r[j].0
    ensures forall i :: 0 <= i < |r| ==> Some(r[i].0) in DateColumn(rows) && r[i].1 == DayTotal(rows, r[i].0)
    ensures forall d :: Some(d) in DateColumn(rows) ==> exists i :: 0 <= i < |r| && r[i].0 == d
  {
    var keys := DateColumn(rows);
    var days := SortedKeys(keys);
    var r := Groups(keys, SalesColumn(rows), days);
    TrendDays(keys, SalesColumn(rows), days, r);
    r
  }

  lemma TrendDays(keys: seq<Option<int>>, values: seq<Option<real>>, days: seq<int>, r: seq<(int, real)>)
    requires |keys| == |values| && days == SortedKeys(keys) && r == Groups(keys, values, days)
    ensures forall i :: 0 <= i < |r| ==> Some(r[i].0) in keys
    ensures forall d :: Some(d) in keys ==> exists i :: 0 <= i < |r| && r[i].0 == d
  {
    forall i | 0 <= i < |r| ensures Some(r[i].0) in keys {
      assert days[i] in days;
    }
    forall d | Some(d) in keys ensures exists i :: 0 <= i < |r| && r[i].0 == d {
      var i :| 0 <= i < |days| && days[i] == d;
      assert r[i].0 == d;
    }
  }

  /**
   * The bars of the product chart add up to the total-sales metric, less the sales of the rows
   * that have no product (groupby drops those).
   */
  lemma ProductSalesAddUp<D>(rows: seq<Row<D>>)
    ensures SumOfValues(SalesByProduct(rows)) + KeyTotal(ProductColumn(rows), SalesColumn(rows), None)
         == ComputeKpis(rows).totalSales
  {
    var keys, values := ProductColumn(rows), SalesColumn(rows);
    var products := Unique(Present(keys));
    forall i | 0 <= i < |keys| && keys[i].Some? ensures keys[i].value in products {
      assert Some(keys[i].value) in keys;
    }
    GroupsAddUp(keys, values, products);
  }

  /** When every row names a product, the product chart adds up exactly to total sales. */
  lemma ProductSalesAddUpToTotal<D>(rows: seq<Row<D>>)
    requires forall i :: 0 <= i < |rows| ==> rows[i].product.Some?
    ensures SumOfValues(SalesByProduct(rows)) == ComputeKpis(rows).totalSales
  {
    ProductSalesAddUp(rows);
    NothingUngrouped(ProductColumn(rows), SalesColumn(rows));
  }

  /** The points of the daily trend add up to total sales, less the sales of rows without a date. */
  lemma TrendAddsUp(rows: seq<Row<Option<int>>>)
    ensures SumOfValues(DailyTrend(rows)) + KeyTotal(DateColumn(rows), SalesColumn(rows), None)
         == ComputeKpis(rows).totalSales
  {
    var keys := DateColumn(rows);
    forall i | 0 <= i < |keys| && keys[i].Some? ensures keys[i].value in SortedKeys(keys) {
      assert Some(keys[i].value) in keys;
    }
    GroupsAddUp(keys, SalesColumn(rows), SortedKeys(keys));
  }

  /** After a two-bound date filter every row has a date, so the trend adds up to total sales. */
  lemma FilteredTrendAddsUpToTotal(rows: seq<Row<Option<int>>>, range: seq<int>)
    requires |range| == 2
    ensures SumOfValues(DailyTrend(FilterDates(rows, range))) == ComputeKpis(FilterDates(rows, range)).totalSales
  {
    var view := FilterDates(rows, range);
    forall i | 0 <= i < |view| ensures view[i].date.Some? {
      assert view[i] in view;
    }
    TrendAddsUp(view);
    NothingUngrouped(DateColumn(view), SalesColumn(view));
  }

  /** What the page shows for a file with the required columns. */
  datatype Report = Report(
    productOptions: seq<Option<string>>,
    dateBounds: Option<(int, int)>,
    view: seq<Row<Option<int>>>,
    kpis: Kpis,
    salesByProduct: seq<(string, real)>,
    dailyTrend: seq<(int, real)>)

  /**
   * Raised(column): the preview of line 26 rejects the frame because column occurs more than
   * once after trimming. Warning: the missing-columns warning of line 84, nothing computed.
   * Shown(report): what lines 44-81 display.
   */
  datatype Outcome = Warning | Raised(column: string) | Shown(report: Report)

  /**
   * Lines 24-80 for one upload and one set of sidebar choices. The upload's header holds the
   * column names as the CSV reader produced them; parseNumber and parseDate stand for
   * pd.to_numeric and pd.to_datetime on one field.
   */
  method Run(
    upload: Upload,
    parseNumber: string -> Option<real>,
    parseDate: string -> Option<int>,
    selected: seq<Option<string>>,
    dateRange: seq<int>)
    returns (outcome: Outcome)
    ensures outcome.Raised? <==> !NoDuplicates(StripColumns(upload.header))
    ensures outcome.Raised? ==> multiset(StripColumns(upload.header))[outcome.column] >= 2
    ensures outcome.Warning? <==>
      NoDuplicates(StripColumns(upload.header)) && !HasAllRequired(StripColumns(upload.header))
    ensures outcome.Shown? <==> NoDuplicates(StripColumns(upload.header)) && CheckSchema(upload.header).Accepted?
    ensures outcome.Shown? ==>
      var typed := Coerce(upload.records, CheckSchema(upload.header).columns, parseNumber);
      var dated := ParseDates(FilterProducts(typed, selected), parseDate);
      var report := outcome.report;
      && report.productOptions == ProductOptions(typed)
      && report.dateBounds == DateBounds(dated)
      && report.view == FilterDates(dated, dateRange)
      && report.kpis == ComputeKpis(report.view)
      && report.salesByProduct == SalesByProduct(report.view)
      && report.dailyTrend == DailyTrend(report.view)
  {
    var columns := StripColumns(upload.header);
    var repeated := RepeatedName(columns);
    if repeated.Some? {
      return Raised(repeated.value);
    }
    var check := CheckColumns(columns);
    if check.MissingColumns? {
      return Warning;
    }
    var df := Coerce(upload.records, check.columns, parseNumber);
    var options := ProductOptions(df);
    if selected != [] {
      df := Keep(df, IsIn(selected));
    }
    var dated := ParseDates(df, parseDate);
    var bounds := DateBounds(dated);
    if |dateRange| == 2 {
      dated := Keep(dated, Between(dateRange[0], dateRange[1]));
    }
    var kpis := ComputeKpis(dated);
    var byProduct := SalesByProduct(dated);
    var trend := DailyTrend(dated);
    return Shown(Report(options, bounds, dated, kpis, byProduct, trend));
  }
}
