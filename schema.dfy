/** The header of an upload: trimming the column names and checking the required ones. */
module Schema {
  import opened Options
  import opened Sequences
  import opened Text

  /** The columns the dashboard needs, in the order the script lists them. */
  const REQUIRED: seq<string> := ["Date", "Product", "Quantity", "Price"]

  /** Where the required columns sit in the header. */
  datatype Columns = Columns(date: nat, product: nat, quantity: nat, price: nat)

  /** The check on line 30: the columns are there, or the script only shows its warning. */
  datatype SchemaCheck = Accepted(columns: Columns) | MissingColumns

  /** df.columns.str.strip() */
  function StripColumns(header: seq<string>): (names: seq<string>)
    ensures |names| == |header|
    ensures forall i :: 0 <= i < |header| ==> names[i] == Strip(header[i])
    decreases |header|
  {
    if header == [] then [] else [Strip(header[0])] + StripColumns(header[1..])
  }

  /**
   * The preview on line 26 hands the frame to the display library, whose conversion to an
   * Arrow table refuses a header that names a column twice. The first name, in header order,
   * that occurs again later on; None when every name is unique.
   */
  function RepeatedName(names: seq<string>): (r: Option<string>)
    ensures r.None? <==> NoDuplicates(names)
    ensures r.Some? ==> multiset(names)[r.value] >= 2
    decreases |names|
  {
    if names == [] then None
    else if names[0] in names[1..] then
      var j :| 0 <= j < |names[1..]| && names[1..][j] == names[0];
      RepeatCountsTwice(names, 0, j + 1);
      Some(names[0])
    else
      var r := RepeatedName(names[1..]);
      RepeatedInTail(names, r);
      r
  }

  lemma RepeatedInTail(names: seq<string>, r: Option<string>)
    requires names != [] && names[0] !in names[1..]
    requires r.None? <==> NoDuplicates(names[1..])
    requires r.Some? ==> multiset(names[1..])[r.value] >= 2
    ensures r.None? <==> NoDuplicates(names)
    ensures r.Some? ==> multiset(names)[r.value] >= 2
  {
    assert names == [names[0]] + names[1..];
    if NoDuplicates(names[1..]) {
      forall i, j | 0 <= i < j < |names| ensures names[i] != names[j] {
        if i == 0 {
          assert names[j] == names[1..][j - 1];
        } else {
          assert names[i] == names[1..][i - 1] && names[j] == names[1..][j - 1];
        }
      }
    } else {
      var i, j :| 0 <= i < j < |names[1..]| && names[1..][i] == names[1..][j];
      assert names[i + 1] == names[j + 1];
    }
  }

  predicate HasAllRequired(names: seq<string>)
  {
    forall i :: 0 <= i < |REQUIRED| ==> REQUIRED[i] in names
  }

  /** Position of the first occurrence of name. */
  function IndexOf(names: seq<string>, name: string): (i: nat)
    requires name in names
    ensures i < |names| && names[i] == name
    ensures forall j :: 0 <= j < i ==> names[j] != name
    decreases |names|
  {
    if names[0] == name then 0 else 1 + IndexOf(names[1..], name)
  }

  /**
   * The check on line 30, and where lines 33-49 then find the four columns: at the first
   * occurrence of each name.
   */
  function CheckColumns(names: seq<string>): (r: SchemaCheck)
    ensures r.MissingColumns? <==> !HasAllRequired(names)
    ensures r.Accepted? ==>
      && r.columns.date < |names| && names[r.columns.date] == "Date"
      && r.columns.product < |names| && names[r.columns.product] == "Product"
      && r.columns.quantity < |names| && names[r.columns.quantity] == "Quantity"
      && r.columns.price < |names| && names[r.columns.price] == "Price"
    ensures r.Accepted? ==>
      && (forall j :: 0 <= j < r.columns.date ==> names[j] != "Date")
      && (forall j :: 0 <= j < r.columns.product ==> names[j] != "Product")
      && (forall j :: 0 <= j < r.columns.quantity ==> names[j] != "Quantity")
      && (forall j :: 0 <= j < r.columns.price ==> names[j] != "Price")
  {
    if !HasAllRequired(names) then MissingColumns
    else
      assert "Date" == REQUIRED[0] && "Product" == REQUIRED[1];
      assert "Quantity" == REQUIRED[2] && "Price" == REQUIRED[3];
      Accepted(Columns(IndexOf(names, "Date"), IndexOf(names, "Product"),
                       IndexOf(names, "Quantity"), IndexOf(names, "Price")))
  }

  /** Lines 24 and 29-30: the required names are looked up among the trimmed column names. */
  function CheckSchema(header: seq<string>): (r: SchemaCheck)
    ensures r.MissingColumns? <==> exists i :: 0 <= i < |REQUIRED| && REQUIRED[i] !in StripColumns(header)
    ensures r.Accepted? ==>
      && r.columns.date < |header| && Strip(header[r.columns.date]) == "Date"
      && r.columns.product < |header| && Strip(header[r.columns.product]) == "Product"
      && r.columns.quantity < |header| && Strip(header[r.columns.quantity]) == "Quantity"
      && r.columns.price < |header| && Strip(header[r.columns.price]) == "Price"
  {
    CheckColumns(StripColumns(header))
  }

  /** A required name padded with whitespace on either side is still found. */
  lemma {:induction false} PaddedNameFound(header: seq<string>, i: nat, pre: string, post: string)
    requires i < |header| && AllSpace(pre) && AllSpace(post)
    requires exists k :: 0 <= k < |REQUIRED| && header[i] == pre + REQUIRED[k] + post
    ensures exists k :: 0 <= k < |REQUIRED| && StripColumns(header)[i] == REQUIRED[k]
  {
    var k :| 0 <= k < |REQUIRED| && header[i] == pre + REQUIRED[k] + post;
    assert Tight(REQUIRED[k]);
    StripUnique(pre, REQUIRED[k], post);
  }

  /** Trimming an already trimmed header changes nothing, so the check sees the same names. */
  lemma {:induction false} CheckSchemaOfStrippedHeader(header: seq<string>)
    ensures CheckSchema(StripColumns(header)) == CheckSchema(header)
  {
    var once := StripColumns(header);
    forall i | 0 <= i < |once| ensures StripColumns(once)[i] == once[i] {
      StripIdempotent(header[i]);
    }
    assert StripColumns(once) == once;
  }
}
