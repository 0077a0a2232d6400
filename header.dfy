/** The header-row check of fearQC.py (`qcHeader`): the lower-cased header is
    split on tabs; it must start with `action`; a cell of the form
    `property:<name>` declares a property column, rejected when it is not
    exactly two colon-separated parts, sits in one of the thirteen fixed
    columns, or names an unknown property; a valid one in column c is
    recorded under index c - 14 of the columns after the fixed ones. */
module Header {
  import opened Text
  import opened Collections
  import opened QcTypes

  /** Columns 1-13 hold the fixed fields; properties start at column 14. */
  const NUM_NON_PROP_COLUMNS: nat := 13

  function StripAll(xs: seq<string>): seq<string>
  {
    seq(|xs|, i requires 0 <= i < |xs| => Strip(xs[i]))
  }

  /** The cells of the header, lower-cased, not stripped. */
  function HeaderTokens(header: string): seq<string> {
    Split(Lower(header), TAB)
  }

  datatype HeaderCell =
    | OtherCell
    | BadPropertyFormat
    | PropertyInFixedColumn
    | UnknownProperty
    | KnownProperty(name: string)

  /** How the cell `h` in 1-based column `colCt` is judged. A cell whose
      first colon is its first character is passed over (`str.find` returns
      0, which is false); one without any colon is examined like the rest. */
  function ClassifyCell(validProps: map<string, int>, colCt: nat, h: string): HeaderCell {
    if Find(h, ':') == 0 then OtherCell
    else
      var tokens := StripAll(Split(h, ':'));
      if tokens[0] != "property" then OtherCell
      else if |tokens| != 2 then BadPropertyFormat
      else if colCt <= NUM_NON_PROP_COLUMNS then PropertyInFixedColumn
      else if tokens[1] !in validProps then UnknownProperty
      else KnownProperty(tokens[1])
  }

  /** The judgement of every cell, column by column. */
  function Classify(validProps: map<string, int>, tokens: seq<string>): seq<HeaderCell>
  {
    seq(|tokens|, i requires 0 <= i < |tokens| => ClassifyCell(validProps, i + 1, tokens[i]))
  }

  predicate IsBadCell(c: HeaderCell) {
    c.BadPropertyFormat? || c.PropertyInFixedColumn? || c.UnknownProperty?
  }

  /** `'%-12s  %-20s  %-30s' % (lineCt, header, reason)`, the line counter
      being 1 while the header is checked. */
  function BadPropEntry(h: string, reason: string): string {
    PadRight("1", 12) + "  " + PadRight(h, 20) + "  " + PadRight(reason, 30)
  }

  /** The entry a rejected cell adds to the bad-property list. */
  function CellEntries(c: HeaderCell, h: string): (r: seq<string>)
    ensures |r| == if IsBadCell(c) then 1 else 0
  {
    match c
    case BadPropertyFormat => [BadPropEntry(h, "Property header with invalid format")]
    case PropertyInFixedColumn => [BadPropEntry(h, "Property header in column 1-13")]
    case UnknownProperty => [BadPropEntry(Strip(h), "Invalid property value")]
    case _ => []
  }

  /** The property column a cell declares, if any. */
  function CellColumns(c: HeaderCell, colCt: nat): seq<PropColumn> {
    if c.KnownProperty? && colCt > NUM_NON_PROP_COLUMNS then [PropColumn(colCt - 14, c.name, false)]
    else []
  }

  /** The bad-property list after the first `k` cells, judged as `cells`. */
  function ScanEntries(cells: seq<HeaderCell>, tokens: seq<string>, k: nat): seq<string>
    requires |cells| == |tokens| && k <= |tokens|
    decreases k
  {
    if k == 0 then []
    else ScanEntries(cells, tokens, k - 1) + CellEntries(cells[k - 1], tokens[k - 1])
  }

  /** The property columns (`propIndexDict`) after the first `k` cells. */
  function ScanColumns(cells: seq<HeaderCell>, k: nat): seq<PropColumn>
    requires k <= |cells|
    decreases k
  {
    if k == 0 then [] else ScanColumns(cells, k - 1) + CellColumns(cells[k - 1], k)
  }

  datatype HeaderOutcome =
    | NoHeaderLine
    | InvalidProperties(entries: seq<string>)
    | HeaderOk(props: seq<PropColumn>)

  /** The verdict on a header line: both failures end the run with exit
      status 2. */
  function CheckHeader(validProps: map<string, int>, header: string): HeaderOutcome {
    var tokens := HeaderTokens(header);
    if tokens[0] != "action" then NoHeaderLine
    else
      var cells := Classify(validProps, tokens);
      var entries := ScanEntries(cells, tokens, |tokens|);
      if |entries| > 0 then InvalidProperties(entries) else HeaderOk(ScanColumns(cells, |tokens|))
  }

  const InvalidPropertiesColumns: string :=
    PadRight("Line#", 12) + "  " + PadRight("Property Header", 20) + "  " + PadRight("Reason", 20) + [CRT]
  const InvalidPropertiesDashes: string := Repeat('-', 12) + "  " + Repeat('-', 20) + "  " + Repeat('-', 20) + [CRT]
  const InvalidPropertiesHeading: string :=
    Heading("Invalid Properties", 60, InvalidPropertiesColumns, InvalidPropertiesDashes)

  /** What a failed header check writes to qc.rpt before exiting. */
  function HeaderReport(o: HeaderOutcome): string {
    match o
    case NoHeaderLine => "!!!!No Header Line in File!!!!"
    case InvalidProperties(entries) =>
      InvalidPropertiesHeading + Join(entries, [CRT])
    case HeaderOk(_) => ""
  }

  /** The columns the header has, counted before and after lower-casing. */
  lemma HeaderColumnCount(header: string)
    ensures |HeaderTokens(header)| == |Split(header, TAB)|
  {
    SplitLower(header, TAB);
  }

  /** A cell `a:b` whose left part strips to `property` and whose right part
      strips to a known name declares that property, in any column from 14
      on; conversely every declared property has that shape, and always sits
      in a column from 14 on. */
  lemma KnownPropertyShape(validProps: map<string, int>, colCt: nat, a: string, b: string)
    requires ':' !in a && ':' !in b
    ensures var c := ClassifyCell(validProps, colCt, a + [':'] + b);
      c.KnownProperty? <==>
        Strip(a) == "property" && colCt > NUM_NON_PROP_COLUMNS && Strip(b) in validProps
    ensures var c := ClassifyCell(validProps, colCt, a + [':'] + b);
      c.KnownProperty? ==> c.name == Strip(b)
  {
    var h := a + [':'] + b;
    SplitCons(a, b, ':');
    SplitPlain(b, ':');
    assert Split(h, ':') == [a, b];
    if Find(h, ':') == 0 {
      assert |a| == 0;
      assert Strip(a) == "";
    }
  }

  /** No property is declared in the fixed columns. */
  lemma KnownPropertyOutsideFixed(validProps: map<string, int>, colCt: nat, h: string)
    requires ClassifyCell(validProps, colCt, h).KnownProperty?
    ensures colCt > NUM_NON_PROP_COLUMNS
  {
  }

  /** A declared property splits on colons into exactly two parts. */
  lemma KnownPropertyTwoParts(validProps: map<string, int>, colCt: nat, h: string)
    requires ClassifyCell(validProps, colCt, h).KnownProperty?
    ensures |Split(h, ':')| == 2
  {
  }

  /** Only a cell with exactly one colon can declare a property. */
  lemma KnownPropertyHasOneColon(validProps: map<string, int>, colCt: nat, h: string)
    requires ClassifyCell(validProps, colCt, h).KnownProperty?
    ensures exists a, b :: h == a + [':'] + b && ':' !in a && ':' !in b
  {
    KnownPropertyTwoParts(validProps, colCt, h);
    TwoPiecesOneSeparator(h, ':');
  }

  /** A bare `property` cell, with no colon at all, is an invalid format. */
  lemma BarePropertyBadFormat(validProps: map<string, int>, colCt: nat, h: string)
    requires ':' !in h && Strip(h) == "property"
    ensures ClassifyCell(validProps, colCt, h) == BadPropertyFormat
  {
    SplitPlain(h, ':');
  }

  /** Each property column found in a header sits at an index that fits the
      header, is declared by its cell, and has no data yet. */
  lemma {:induction false} ScanColumnsDeclared(cells: seq<HeaderCell>, k: nat)
    requires k <= |cells|
    ensures forall p :: p in ScanColumns(cells, k) ==>
      && p.index + 14 <= k
      && cells[p.index + 13] == KnownProperty(p.name)
      && !p.hasData
    decreases k
  {
    if k > 0 {
      ScanColumnsDeclared(cells, k - 1);
      var prev := ScanColumns(cells, k - 1);
      var last := CellColumns(cells[k - 1], k);
      assert ScanColumns(cells, k) == prev + last;
      forall p | p in last ensures p.index + 14 <= k && cells[p.index + 13] == KnownProperty(p.name) && !p.hasData {
        assert p == PropColumn(k - 14, cells[k - 1].name, false);
      }
    }
  }

  predicate IndicesIncreasing(props: seq<PropColumn>) {
    forall i, j :: 0 <= i < j < |props| ==> props[i].index < props[j].index
  }

  /** A column after every listed one keeps the list in column order. */
  lemma IncreasingSnoc(prev: seq<PropColumn>, p: PropColumn)
    requires IndicesIncreasing(prev)
    requires forall q :: q in prev ==> q.index < p.index
    ensures IndicesIncreasing(prev + [p])
  {
    var props := prev + [p];
    forall i, j | 0 <= i < j < |props| ensures props[i].index < props[j].index {
      assert props[i] == prev[i] && prev[i] in prev;
      if j < |prev| {
        assert props[j] == prev[j];
      }
    }
  }

  /** The property columns are in column order, each column at most once. */
  lemma {:induction false} ScanColumnsOrdered(cells: seq<HeaderCell>, k: nat)
    requires k <= |cells|
    ensures IndicesIncreasing(ScanColumns(cells, k))
    decreases k
  {
    if k > 0 {
      ScanColumnsOrdered(cells, k - 1);
      ScanColumnsDeclared(cells, k - 1);
      var prev := ScanColumns(cells, k - 1);
      var props := ScanColumns(cells, k);
      if cells[k - 1].KnownProperty? && k > NUM_NON_PROP_COLUMNS {
        assert props == prev + [PropColumn(k - 14, cells[k - 1].name, false)];
        IncreasingSnoc(prev, PropColumn(k - 14, cells[k - 1].name, false));
      } else {
        assert props == prev;
      }
    }
  }

  /** Every property declared outside the fixed columns is found
      (`KnownPropertyOutsideFixed`: that is every declared property). */
  lemma {:induction false} ScanColumnsComplete(cells: seq<HeaderCell>, k: nat)
    requires k <= |cells|
    ensures forall c :: NUM_NON_PROP_COLUMNS <= c < k && cells[c].KnownProperty? ==>
      PropColumn(c - 13, cells[c].name, false) in ScanColumns(cells, k)
    decreases k
  {
    if k > 0 {
      ScanColumnsComplete(cells, k - 1);
    }
  }

  /** The bad-property list is empty exactly when no cell is rejected. */
  lemma {:induction false} ScanEntriesSpec(cells: seq<HeaderCell>, tokens: seq<string>, k: nat)
    requires |cells| == |tokens| && k <= |tokens|
    ensures |ScanEntries(cells, tokens, k)| == 0 <==>
      forall col :: 0 <= col < k ==> !IsBadCell(cells[col])
    decreases k
  {
    if k > 0 {
      ScanEntriesSpec(cells, tokens, k - 1);
    }
  }
}
