/** The sales table: rows with typed, possibly missing fields, and the coercion steps. */
module Table {
  import opened Options
  import opened Schema

  /** A field of the uploaded file as read; None is a field the reader read as NaN. */
  type Cell = Option<string>

  /** An upload after CSV parsing: the header as written and one list of fields per record. */
  datatype Upload = Upload(header: seq<string>, records: seq<seq<Cell>>)

  /**
   * One sales record. D is the type of the Date column: the raw Cell until line 49 converts
   * it, Option<int> (a day number, None for NaT) afterwards.
   */
  datatype Row<D> = Row(
    date: D,
    product: Option<string>,
    quantity: Option<real>,
    price: Option<real>,
    totalSales: Option<real>)

  /** A record shorter than the header is padded with empty fields. */
  function CellAt(record: seq<Cell>, j: nat): Cell
  {
    if j < |record| then record[j] else None
  }

  /** pd.to_numeric(..., errors='coerce') on one field: unparseable text becomes missing. */
  function ToNumeric(parseNumber: string -> Option<real>, c: Cell): Option<real>
  {
    match c
    case None => None
    case Some(text) => parseNumber(text)
  }

  /** pd.to_datetime(..., errors='coerce') on one field: unparseable text becomes NaT. */
  function ToDatetime(parseDate: string -> Option<int>, c: Cell): Option<int>
  {
    match c
    case None => None
    case Some(text) => parseDate(text)
  }

  /** Elementwise product of two columns: missing if either operand is. */
  function Times(q: Option<real>, p: Option<real>): Option<real>
  {
    if q.Some? && p.Some? then Some(q.value * p.value) else None
  }

  function CoerceRecord(record: seq<Cell>, cols: Columns, parseNumber: string -> Option<real>): Row<Cell>
  {
    var quantity := ToNumeric(parseNumber, CellAt(record, cols.quantity));
    var price := ToNumeric(parseNumber, CellAt(record, cols.price));
    Row(CellAt(record, cols.date), CellAt(record, cols.product), quantity, price, Times(quantity, price))
  }

  /**
   * Lines 33-37: Quantity and Price become numbers or missing, and Total_Sales is their product.
   * One row per record, in the same order.
   */
  function Coerce(records: seq<seq<Cell>>, cols: Columns, parseNumber: string -> Option<real>): (rows: seq<Row<Cell>>)
    ensures |rows| == |records|
    ensures forall i :: 0 <= i < |records| ==>
      && rows[i].date == CellAt(records[i], cols.date)
      && rows[i].product == CellAt(records[i], cols.product)
      && rows[i].quantity == ToNumeric(parseNumber, CellAt(records[i], cols.quantity))
      && rows[i].price == ToNumeric(parseNumber, CellAt(records[i], cols.price))
      && (rows[i].totalSales.Some? <==> rows[i].quantity.Some? && rows[i].price.Some?)
      && (rows[i].totalSales.Some? ==> rows[i].totalSales.value == rows[i].quantity.value * rows[i].price.value)
  {
    seq(|records|, i requires 0 <= i < |records| => CoerceRecord(records[i], cols, parseNumber))
  }

  function WithDate<D, E>(row: Row<D>, date: E): Row<E>
  {
    Row(date, row.product, row.quantity, row.price, row.totalSales)
  }

  /** Line 49: the Date column is converted; nothing else in a row changes and no row is dropped. */
  function ParseDates(rows: seq<Row<Cell>>, parseDate: string -> Option<int>): (r: seq<Row<Option<int>>>)
    ensures |r| == |rows|
    ensures forall i :: 0 <= i < |rows| ==>
      && r[i].date == ToDatetime(parseDate, rows[i].date)
      && r[i] == WithDate(rows[i], r[i].date)
    decreases |rows|
  {
    if rows == [] then []
    else [WithDate(rows[0], ToDatetime(parseDate, rows[0].date))] + ParseDates(rows[1..], parseDate)
  }

  /** The columns df['Product'], df['Quantity'], df['Total_Sales'] and (after line 49) df['Date']. */
  function ProductColumn<D>(rows: seq<Row<D>>): (c: seq<Option<string>>)
    ensures |c| == |rows| && forall i :: 0 <= i < |rows| ==> c[i] == rows[i].product
  {
    seq(|rows|, i requires 0 <= i < |rows| => rows[i].product)
  }

  function QuantityColumn<D>(rows: seq<Row<D>>): (c: seq<Option<real>>)
    ensures |c| == |rows| && forall i :: 0 <= i < |rows| ==> c[i] == rows[i].quantity
  {
    seq(|rows|, i requires 0 <= i < |rows| => rows[i].quantity)
  }

  function SalesColumn<D>(rows: seq<Row<D>>): (c: seq<Option<real>>)
    ensures |c| == |rows| && forall i :: 0 <= i < |rows| ==> c[i] == rows[i].totalSales
  {
    seq(|rows|, i requires 0 <= i < |rows| => rows[i].totalSales)
  }

  function DateColumn(rows: seq<Row<Option<int>>>): (c: seq<Option<int>>)
    ensures |c| == |rows| && forall i :: 0 <= i < |rows| ==> c[i] == rows[i].date
  {
    seq(|rows|, i requires 0 <= i < |rows| => rows[i].date)
  }
}
