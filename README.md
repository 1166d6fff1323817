# Retail sales dashboard: the data pipeline

This project models the data pipeline of the retail sales dashboard `app.py`. The pipeline
runs inside the branch taken once a CSV file is uploaded. In order:

1. Column names are stripped of surrounding whitespace. The table must then have the columns
   `Date`, `Product`, `Quantity` and `Price`; otherwise only a warning is shown.
2. `Quantity` and `Price` are converted to numbers, and fields that do not parse become
   missing. `Total_Sales = Quantity * Price` is missing when either operand is.
3. The product filter runs next. An empty selection keeps everything; otherwise only rows
   whose product was selected are kept.
4. `Date` is converted. Its least and greatest values are the default date range. When
   exactly two bounds are given, only rows whose date lies between them, both ends included,
   are kept.
5. Three metrics are computed: total sales, average sale and total quantity. Two charts
   follow: sales per product, highest first, and sales per day, in date order.

Rows are `Table.Row<D>` values whose fields are `Option`s: pandas' NaN and NaT become `None`.
Numbers are `real`. Dates are whole day numbers. The type parameter `D` is the type of the
`Date` column: the raw field before line 49 converts it, `Option<int>` afterwards.
`pd.to_numeric` and `pd.to_datetime` are parameters that parse one field. The sidebar choices
are plain inputs to `Dashboard.Run`. That method chains the steps the way the script rebinds
`df`, and every step is a function with its own contract.

Modules: `Text` (str.strip), `Sequences` (boolean masks, unique), `Schema` (header check),
`Table` (rows and coercion), `Filters`, `Aggregates` (sum and mean with missing values),
`GroupBy` (groupby-sum, sorting), `Dashboard` (charts and the whole run).

Points of the script's behaviour:

- The missing-columns warning (line 84) is a fixed text that names all four columns, whichever
  are absent.
- `sort_values` (line 73) is not a stable sort, so products with equal sales come out in no
  fixed order.
- Dates are converted after the product filter (line 49). For the model's parser, which reads
  one field at a time, `Filters.ParseDatesCommutesWithProductFilter` proves that converting
  before or after the filter gives the same table. In the script the order can matter, because
  `pd.to_datetime` may infer one format for the whole column (see "## Left out").
- The product choices are `df['Product'].unique()`, which can include a missing product.
  `isin` matches a missing product against a missing choice, so a selection is a list of
  `Option<string>`.
- Two header names can become equal only after stripping, such as `Price` and ` Price`, since
  the CSV reader already renames exact duplicates. Line 26 then shows the frame with
  `st.dataframe`. That hands it to pyarrow's conversion to an Arrow table, which raises on
  repeated column names, and the error is not caught. This happens before the check on line 30,
  so any repeated name ends the run, whichever column it is and whether or not the required
  columns are present. This is `Outcome.Raised`, naming a repeated column.

## Model

| member | source | states |
|---|---|---|
| `Text.TrimStart` | app.py:24 | the result is the suffix of the name left after its longest all-whitespace prefix; it does not start with whitespace |
| `Text.TrimEnd` | app.py:24 | the result is the prefix of the name before its longest all-whitespace suffix; it does not end with whitespace |
| `Text.Strip` | app.py:24 | a stripped name neither starts nor ends with whitespace (Python's `str.isspace` set), and the name is some whitespace, then the stripped name, then some whitespace |
| `Text.StripUnique` | app.py:24 | any name without outer whitespace, padded with whitespace on both sides, strips back to itself |
| `Text.StripIdempotent` | app.py:24 | stripping a stripped name changes nothing |
| `Schema.StripColumns` | app.py:24 | the header keeps its length and each name is replaced by its stripped form |
| `Schema.RepeatedName` | app.py:24-26 | None iff the stripped names are all distinct; otherwise a name that occurs at least twice |
| `Schema.CheckColumns` | app.py:29-49 | the warning is given iff one of Date, Product, Quantity, Price is absent; otherwise each found position is the first occurrence of its name |
| `Schema.CheckSchema` | app.py:24-30 | the check looks at the stripped names: warning iff a required name is missing among them, and accepted positions hold names that strip to the required ones |
| `Schema.PaddedNameFound` | app.py:24-30 | a required name written with surrounding whitespace is found after stripping |
| `Schema.CheckSchemaOfStrippedHeader` | app.py:24 | checking an already stripped header gives the same result, so padding never changes the verdict |
| `Table.Coerce` | app.py:33-37 | one row per record in the same order; Quantity and Price are the parsed fields or missing; Total_Sales is present iff both are, and then equals Quantity * Price |
| `Table.ParseDates` | app.py:49 | same rows in the same order; only the Date field changes, to the parsed date or missing |
| `Sequences.Keep` | app.py:46 | boolean masking keeps a subsequence; each value keeps its multiplicity when it passes the mask and disappears otherwise |
| `Sequences.Unique` | app.py:44 | each value of the column exactly once, and no other value |
| `Sequences.PermutationKeepsDistinct` | app.py:73 | reordering a duplicate-free list cannot create duplicates |
| `Filters.ProductOptions` | app.py:44 | the choices offered are exactly the products of the table (a missing one included), each once |
| `Filters.FilterProducts` | app.py:45-46 | an empty selection returns the table unchanged; otherwise the result is the in-order subsequence of rows whose product is selected, with multiplicities kept |
| `Filters.SelectingEveryOptionKeepsAll` | app.py:44-46 | selecting every offered product is the same as selecting none |
| `Filters.DateBounds` | app.py:50 | None iff no row has a date; otherwise both bounds are dates of some row and every present date lies between them |
| `Filters.FilterDates` | app.py:53-55 | with exactly two bounds the result is the in-order subsequence of rows whose date is present and within [start, end], ends included; with any other number of bounds the table is unchanged |
| `Filters.DefaultRangeKeepsDatedRows` | app.py:50-55 | with the default range [min_date, max_date] the date filter drops exactly the rows without a date |
| `Filters.ParseDatesCommutesWithProductFilter` | app.py:45-49 | converting dates after the product filter gives the same table as converting them before it |
| `Aggregates.Present` | app.py:60-73 | the present values of a column (what sum, mean and groupby keep): as many as the column has present fields, each with the multiplicity of its field, and exactly the values of present fields |
| `Aggregates.SumPresentIsSumOfPresent` | app.py:60 | the NaN-skipping sum equals the plain sum of the present values |
| `Aggregates.Mean` | app.py:61 | None iff no value is present; otherwise the mean times the number of present values is their sum |
| `Aggregates.MeanWithinBounds` | app.py:61 | the mean lies between any lower and upper bound of the present values |
| `Aggregates.ComputeKpis` | app.py:60-62 | the average sale is missing iff no row has a Total_Sales; otherwise it times the number of present Total_Sales equals total sales |
| `Aggregates.TotalsSkipMissing` | app.py:60-62 | total sales and total quantity are the sums of exactly the present values; a missing field contributes nothing |
| `GroupBy.GroupsAddUp` | app.py:73 | over all present keys, the group sums plus the sum of the rows with a missing key equal the column total |
| `GroupBy.NothingUngrouped` | app.py:73 | with no missing key, no row lies outside the groups |
| `GroupBy.SortByValueDescending` | app.py:73 | the result is non-increasing in value and a permutation of the groups |
| `GroupBy.SortKeepsSum` | app.py:73 | sorting the groups does not change their sum |
| `GroupBy.RankedGroups` | app.py:73 | sorted by value, highest first; each entry is a key with its group sum; every key appears exactly once |
| `GroupBy.SortedKeys` | app.py:80 | the date keys are strictly ascending and are exactly the present dates |
| `Dashboard.SalesByProduct` | app.py:73 | one entry per product present in the table, none for a missing product; each holds its product's summed Total_Sales; highest first, ties in no stated order |
| `Dashboard.DailyTrend` | app.py:80 | one entry per date present in the table, in strictly ascending order, each holding that day's summed Total_Sales; rows without a date appear nowhere |
| `Dashboard.ProductSalesAddUp` | app.py:60-73 | the product chart plus the sales of rows without a product add up to the total-sales metric |
| `Dashboard.ProductSalesAddUpToTotal` | app.py:60-73 | when every row names a product, the product chart adds up to the total-sales metric |
| `Dashboard.TrendAddsUp` | app.py:60-80 | the daily trend plus the sales of rows without a date add up to the total-sales metric |
| `Dashboard.FilteredTrendAddsUpToTotal` | app.py:53-80 | after a two-bound date filter the daily trend adds up to the total-sales metric |
| `Dashboard.Run` | app.py:24-84 | an exception at the preview iff two column names are equal after stripping, naming a repeated one; otherwise a warning iff a required column is missing; otherwise the page shows the product choices, the default date range, the filtered table and the metrics and charts computed from it |

## Left out

- Reading the CSV (line 19) is not modelled. `Table.Upload` is the parsed result: the column
  names as the reader produced them, with exact duplicates already renamed, and one list of
  fields per record. The reader's type inference is not modelled either.
- Extra columns are dropped from the rows. The pipeline reads none of them. A single column
  that strips to `Total_Sales` is overwritten by line 37.
- The preview of the first rows (lines 25-26) is not modelled, except that it rejects repeated
  column names. All other Streamlit calls are not modelled either: titles,
  sidebar widgets, metrics display, charts and messages. Selected products and the date range
  are inputs.
- The date widget's behaviour when no row has a date is not modelled. Its default is then
  [NaT, NaT]; the model returns no bounds (`Filters.DateBounds` gives None).
- `pd.to_numeric` and `pd.to_datetime` are abstract parsers applied to one field at a time.
  pandas may infer one date format from the column's first present value. Values in another
  format then become NaT, and a per-field parser cannot express that. Because the column seen at
  line 49 is the one left by the product filter, the filter can change which dates parse.
- Floating-point arithmetic is not modelled. Numbers are exact reals, so rounding, infinities
  and NaN produced by arithmetic are absent. When every Quantity and Price field is an integer,
  the columns stay int64. The int64 wrap-around in `Total_Sales` and the sums (lines 37, 60, 62)
  is not modelled.
- Time of day is not modelled: dates are whole days, so the end bound as midnight plays no part.
- Currency and thousands-separator formatting (lines 65-67) are not modelled.
- The exception's type and message are not modelled. `Outcome.Raised` names one repeated
  column, the first in header order that occurs again. The library's message lists them all.
- `Dashboard.SalesByProduct`: before sorting, groups are in first-appearance order, not pandas'
  key order. The contract does not depend on this, because ties have no stated order.
- `Sequences.Unique`: computes first-appearance order, as `Series.unique` does, but its
  contract states only the elements and that each appears once.
- `Filters.ProductOptions`: the order in which choices are offered is not stated, as for
  `Sequences.Unique`.
