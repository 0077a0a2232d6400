/** The qc.rpt sections fearQC.py writes after the row loop (`writeReport`),
    the invalid MGI ID section (`qcInvalidMgiPrefix`), the delete preview
    and the empty-property-column warning. */
module Report {
  import opened Text
  import opened Collections
  import opened MgiIds
  import opened QcTypes

  function SectionTitle(s: Section): string {
    match s
    case ActionSec => "Invalid Action Values"
    case CategorySec => "Invalid Categories"
    case QualifierSec => "Invalid Qualifiers"
    case EvidenceSec => "Invalid Evidence Codes"
    case JNumSec => "Invalid J Numbers"
    case UserSec => "Invalid User Login"
    case RelIdSec => "Invalid Relationship IDs"
    case ObsoleteSec => "Obsolete Relationship IDs"
    case RelVocabSec => "Relationship Vocab not the  same as Category Vocab"
    case RelDagSec => "Relationship DAG not the same as Category DAG"
    case BadPropValueSec => "Invalid Property Values"
    case MissingPropColumnSec => "Lines with Missing Property Columns"
    case DeleteNotInDbSec => "Deletes not in Database"
  }

  /** The name of a section's value column. */
  function ValueColumn(s: Section): string {
    match s
    case ActionSec => "Action"
    case CategorySec => "Category"
    case QualifierSec => "Qualifier"
    case EvidenceSec => "Evidence Code"
    case JNumSec => "J Number"
    case UserSec => "User Login"
    case MissingPropColumnSec => "Line"
    case _ => "Relationship ID"
  }

  /** The line-number column every section starts with. */
  const LineColumn: string := PadRight("Line#", 12) + "  "

  function SectionColumns(s: Section): string {
    match s
    case BadPropValueSec => LineColumn + PadRight("Property", 20) + "  " + PadRight("Value", 20) + [CRT]
    case DeleteNotInDbSec => LineColumn + PadRight("Line", 68) + " " + [CRT]
    case _ => LineColumn + PadRight(ValueColumn(s), 20) + [CRT]
  }

  const PropValueDashes: string := Repeat('-', 12) + "  " + Repeat('-', 20) + "  " + Repeat('-', 20) + [CRT]
  const NotInDbDashes: string := Repeat('-', 12) + "  " + Repeat('-', 68) + [CRT]
  const ValueDashes: string := Repeat('-', 12) + "  " + Repeat('-', 20) + [CRT]

  function SectionDashes(s: Section): string {
    match s
    case BadPropValueSec => PropValueDashes
    case DeleteNotInDbSec => NotInDbDashes
    case _ => ValueDashes
  }

  /** A section with its entries, title centred in 60 columns. */
  function SectionBlock(lists: ErrorLists, s: Section): string {
    Block(SectionTitle(s), 60, SectionColumns(s), SectionDashes(s), Entries(lists, s))
  }

  /** What `writeReport` writes for the sections `order`, each only when its
      list is not empty. */
  function SectionsText(lists: ErrorLists, order: seq<Section>): string
    decreases |order|
  {
    if |order| == 0 then ""
    else
      var s := order[|order| - 1];
      SectionsText(lists, order[..|order| - 1]) + (if |Entries(lists, s)| > 0 then SectionBlock(lists, s) else "")
  }

  /** The sections of `order` whose lists are not empty, in that order. */
  function Present(lists: ErrorLists, order: seq<Section>): (r: seq<Section>)
    ensures forall s :: s in r <==> s in order && |Entries(lists, s)| > 0
    ensures |r| <= |order|
    decreases |order|
  {
    if |order| == 0 then []
    else
      var s := order[|order| - 1];
      var prev := Present(lists, order[..|order| - 1]);
      assert forall t :: t in order <==> t in order[..|order| - 1] || t == s;
      if |Entries(lists, s)| > 0 then prev + [s] else prev
  }

  /** The blocks of the sections `present`, one after the other. */
  function Blocks(lists: ErrorLists, present: seq<Section>): string
    decreases |present|
  {
    if |present| == 0 then ""
    else Blocks(lists, present[..|present| - 1]) + SectionBlock(lists, present[|present| - 1])
  }

  /** The report is the block of each section with entries, in report
      order, and nothing else. */
  lemma {:induction false} SectionsTextSpec(lists: ErrorLists, order: seq<Section>)
    ensures SectionsText(lists, order) == Blocks(lists, Present(lists, order))
    decreases |order|
  {
    if |order| > 0 {
      var s := order[|order| - 1];
      SectionsTextSpec(lists, order[..|order| - 1]);
      var prev := Present(lists, order[..|order| - 1]);
      if |Entries(lists, s)| > 0 {
        assert (prev + [s])[..|prev|] == prev;
      }
    }
  }

  /** The sections written keep the order of `order`: a section written
      before another comes before it in report order. */
  lemma {:induction false} PresentOrdered(lists: ErrorLists, order: seq<Section>)
    requires NoDuplicates(order)
    ensures var p := Present(lists, order);
      NoDuplicates(p) &&
      forall i, j :: 0 <= i < j < |p| ==> FirstIndex(order, p[i]) < FirstIndex(order, p[j])
    decreases |order|
  {
    if |order| > 0 {
      var q := order[..|order| - 1];
      var s := order[|order| - 1];
      assert NoDuplicates(q);
      PresentOrdered(lists, q);
      assert order == q + [s];
      OrderedSnoc(q, s, order, Present(lists, q), Present(lists, order));
    }
    OrderedDistinct(order, Present(lists, order));
  }

  lemma ReportOrderDistinct()
    ensures NoDuplicates(ReportOrder)
  {
  }

  /** What `writeReport` leaves: the qc.rpt sections, the fatal flag (a
      delete not found in the database is fatal), and the warning and
      delete-report texts of the delete preview. */
  datatype ReportOutput = ReportOutput(qcText: string, fatal: bool, warnText: string, deleteText: string)

  /** The fixed wording of the delete preview. */
  const PreviewIntro: string := "\nProcessing the specified input file will delete "
  const PreviewMiddle: string := " relationship records from the database. See "
  const PreviewTitle: string := "The following relationships will be deleted from the database"

  function PreviewWarning(count: nat, deleteRptFile: string): string {
    PreviewIntro + NatToString(count) + PreviewMiddle + deleteRptFile + " for details " + [CRT]
  }

  function PreviewText(previewLines: seq<string>): string {
    [CRT, CRT] + Center(PreviewTitle, 60) + [CRT] +
      Repeat('-', 80) + [CRT] + Join(previewLines, [CRT])
  }

  function WriteReport(lists: ErrorLists, fatal: bool, previewLines: seq<string>, deleteRptFile: string): ReportOutput {
    var fatal2 := fatal || |Entries(lists, DeleteNotInDbSec)| > 0;
    var preview := |previewLines| > 0 && !fatal2;
    ReportOutput(SectionsText(lists, ReportOrder), fatal2,
                 if preview then PreviewWarning(|previewLines|, deleteRptFile) else "",
                 if preview then PreviewText(previewLines) else "")
  }

  /** The report holds the non-empty sections in report order; the run is
      fatal after it exactly when it was before or some delete was not in
      the database; the delete preview is written exactly when there is
      something to delete and the run is not fatal. */
  lemma WriteReportSpec(lists: ErrorLists, fatal: bool, previewLines: seq<string>, deleteRptFile: string)
    ensures var o := WriteReport(lists, fatal, previewLines, deleteRptFile);
      && o.qcText == Blocks(lists, Present(lists, ReportOrder))
      && (o.fatal <==> fatal || |Entries(lists, DeleteNotInDbSec)| > 0)
      && (|o.deleteText| > 0 <==> |previewLines| > 0 && !o.fatal)
      && (|o.warnText| > 0 <==> |o.deleteText| > 0)
  {
    SectionsTextSpec(lists, ReportOrder);
  }

  /** `'%-12s  %-20s' % (id, role)` */
  function InvalidIdEntry(item: (string, Role)): string {
    Columns([(item.0, 12), (RoleName(item.1), 20)])
  }

  /** One entry per ID of the bad-ID table, in table order. */
  function InvalidIdEntries(badIds: OrderedDict<Role>): seq<string>
    requires badIds.Valid()
  {
    MapSeq(InvalidIdEntry, badIds.Items())
  }

  /** One entry per ID, in table order, each naming the ID and its label. */
  lemma InvalidIdEntriesSpec(badIds: OrderedDict<Role>)
    requires badIds.Valid()
    ensures var r := InvalidIdEntries(badIds);
      |r| == |badIds.keys|
      && forall i :: 0 <= i < |r| ==> r[i] == InvalidIdEntry((badIds.keys[i], badIds.values[badIds.keys[i]]))
  {
    MapSeqSpec(InvalidIdEntry, badIds.Items());
  }

  /** The invalid MGI ID section, present when the bad-ID table is not
      empty. */
  function InvalidIdText(badIds: OrderedDict<Role>): string
    requires badIds.Valid()
  {
    if |badIds.keys| == 0 then ""
    else
      InvalidIdHeading + Join(InvalidIdEntries(badIds), [CRT])
  }

  const InvalidIdColumns: string := PadRight("MGI ID", 15) + "  " + PadRight("Organizer or Participant?", 25) + [CRT]
  const InvalidIdDashes: string := Repeat('-', 15) + "  " + Repeat('-', 25) + [CRT]
  const InvalidIdHeading: string := Heading("Invalid MGI IDs", 40, InvalidIdColumns, InvalidIdDashes)

  /** Filling an empty bad-ID table leaves it without keys exactly when
      nothing was written. */
  lemma BadIdsEmpty(writes: seq<(string, Role)>)
    ensures |PutAll(EmptyDict(), writes).keys| == 0 <==> |writes| == 0
  {
    PutAllSpec(writes);
    if |writes| > 0 {
      assert writes[0].0 in KeysOf(writes);
    }
  }

  /** The bad-ID table staging leaves lists each rejected ID once, in the
      order first rejected, with the label of its last rejection; the
      section is written, and the run made fatal, exactly when some ID was
      rejected. */
  lemma BadIdTableSpec(writes: seq<(string, Role)>)
    ensures var d := PutAll(EmptyDict(), writes);
      && d.keys == Dedup(KeysOf(writes))
      && d.values == LastWins(writes)
      && (|InvalidIdText(d)| > 0 <==> |writes| > 0)
  {
    PutAllSpec(writes);
    DedupMembers(KeysOf(writes));
    if |writes| > 0 {
      assert KeysOf(writes)[0] in KeysOf(writes);
    }
  }

  /** The names of the property columns no add line gave data, in column
      order. */
  function EmptyColumns(props: seq<PropColumn>): (r: seq<string>)
    ensures forall n :: n in r <==> exists k :: 0 <= k < |props| && !props[k].hasData && props[k].name == n
    decreases |props|
  {
    if |props| == 0 then []
    else
      var p := props[|props| - 1];
      var prev := EmptyColumns(props[..|props| - 1]);
      assert forall k :: 0 <= k < |props| - 1 ==> props[..|props| - 1][k] == props[k];
      if p.hasData then prev else prev + [p.name]
  }

  function IndentedLines(names: seq<string>): string
    decreases |names|
  {
    if |names| == 0 then "" else IndentedLines(names[..|names| - 1]) + "    " + names[|names| - 1] + [CRT]
  }

  /** The empty-property-column warning: only when the last data line is an
      add, and only when some column has no data. */
  function EmptyColumnsWarning(lastAction: string, props: seq<PropColumn>): string {
    var empty := EmptyColumns(props);
    if lastAction != "add" || |empty| == 0 then ""
    else "\nProperty Columns with no Data: " + [CRT] + IndentedLines(empty)
  }

  /** The warning is written exactly when the last line is an add and some
      property column never received data. */
  lemma EmptyColumnsWarningSpec(lastAction: string, props: seq<PropColumn>)
    ensures |EmptyColumnsWarning(lastAction, props)| > 0 <==>
      lastAction == "add" && exists k :: 0 <= k < |props| && !props[k].hasData
  {
    var empty := EmptyColumns(props);
    if |empty| > 0 {
      assert empty[0] in empty;
    }
    if exists k :: 0 <= k < |props| && !props[k].hasData {
      var k :| 0 <= k < |props| && !props[k].hasData;
      assert props[k].name in empty;
    }
  }
}
