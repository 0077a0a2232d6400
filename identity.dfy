/** The organizer/participant identity checks of fearQC.py
    (`qcOrgAllelePartMarker`, `qcOrgMarkerPartMarker`): the staged IDs are
    joined against the database, and the rows of those queries are given
    here as inputs. Each non-empty group of problem rows writes a qc.rpt
    section and makes the run fatal; mismatched chromosomes only go to the
    warning report. */
module Identity {
  import opened Text
  import opened Collections
  import opened MgiIds
  import opened QcTypes
  import opened Staging

  /** A row of an existence or status query: the numeric MGI ID, the MGI
      type name and the status, each of the last two NULL when absent. */
  datatype IdentityRow = IdentityRow(mgiId: int, name: Option<string>, status: Option<string>)

  /** A row of a secondary-ID query: the secondary numeric ID as given, the
      object's symbol and its primary accession ID. */
  datatype SecondaryRow = SecondaryRow(mgiId: int, symbol: string, accId: string)

  /** A row of the chromosome query. */
  datatype ChromosomeRow = ChromosomeRow(org: int, oChr: string, part: int, pChr: string)

  /** The six allele/marker problem queries: organizer missing, of the wrong
      type or of a bad status, and the same for the participant. */
  datatype AlleleMarkerResults = AlleleMarkerResults(
    orgMissing: seq<IdentityRow>, orgNotAllele: seq<IdentityRow>, orgBadStatus: seq<IdentityRow>,
    partMissing: seq<IdentityRow>, partNotMarker: seq<IdentityRow>, partBadStatus: seq<IdentityRow>)

  /** `None` written as the empty string. */
  function OrEmpty(o: Option<string>): string {
    if o.Some? then o.value else ""
  }

  /** `'MGI:%s' % n` */
  function MgiId(n: int): string {
    "MGI:" + IntToString(n)
  }

  /** `'%-12s  %-20s  %-20s  %-30s' % (id, objectType, status, reason)` */
  function IdentityEntry(r: IdentityRow, reason: string): string {
    Columns([(MgiId(r.mgiId), 12), (OrEmpty(r.name), 20), (OrEmpty(r.status), 20), (reason, 30)])
  }

  /** The column line and the dashes under it of both identity sections. */
  const IdentityColumns: string :=
    PadRight("MGI ID", 12) + "  " + PadRight("Object Type", 20) + "  " + PadRight("Status", 20) +
      "  " + PadRight("Reason", 30) + [CRT]
  const IdentityDashes: string :=
    Repeat('-', 12) + "  " + Repeat('-', 20) + "  " + Repeat('-', 20) + "  " + Repeat('-', 30) + [CRT]

  function IdentityHeading(title: string): string {
    Heading(title, 80, IdentityColumns, IdentityDashes)
  }

  const AlleleMarkerHeading: string := IdentityHeading("Invalid Allele/Marker Relationships")
  const MarkerMarkerHeading: string := IdentityHeading("Invalid Marker/Marker Relationships")

  /** The entries of one allele/marker query, all with its reason. */
  function EntriesFor(rows: seq<IdentityRow>, reason: string): set<string>
  {
    set i | 0 <= i < |rows| :: IdentityEntry(rows[i], reason)
  }

  /** The entries of one allele/marker query in row order, as the source
      builds its list. */
  function ReasonEntryList(rows: seq<IdentityRow>, reason: string): seq<string> {
    MapSeq((r: IdentityRow) => IdentityEntry(r, reason), rows)
  }

  /** The list holds exactly the query's entries. */
  lemma ReasonEntryListSet(rows: seq<IdentityRow>, reason: string)
    ensures forall e :: e in ReasonEntryList(rows, reason) <==> e in EntriesFor(rows, reason)
  {
    var entry := (r: IdentityRow) => IdentityEntry(r, reason);
    var list := ReasonEntryList(rows, reason);
    MapSeqSpec(entry, rows);
    forall e | e in EntriesFor(rows, reason) ensures e in list {
      var i :| 0 <= i < |rows| && e == IdentityEntry(rows[i], reason);
      assert list[i] == e;
    }
  }

  /** The allele/marker error entries. The source collects them through a
      Python `set`, so only the set of entries is determined, not their
      order. */
  function AlleleMarkerEntries(res: AlleleMarkerResults): set<string> {
    EntriesFor(res.orgMissing, "Organizer does not exist") +
    EntriesFor(res.orgNotAllele, "Organizer exists for non-allele") +
    EntriesFor(res.orgBadStatus, "Organizer allele status is invalid") +
    EntriesFor(res.partMissing, "Participant does not exist") +
    EntriesFor(res.partNotMarker, "Participant exists for non-marker") +
    EntriesFor(res.partBadStatus, "Participant marker status is invalid")
  }

  predicate AnyAlleleMarkerErrors(res: AlleleMarkerResults) {
    || |res.orgMissing| > 0 || |res.orgNotAllele| > 0 || |res.orgBadStatus| > 0
    || |res.partMissing| > 0 || |res.partNotMarker| > 0 || |res.partBadStatus| > 0
  }

  /** `order` lists every entry once: the order in which the set yields
      them. */
  predicate Enumerates(order: seq<string>, entries: set<string>) {
    NoDuplicates(order) && (forall e :: e in order ==> e in entries) && (forall e :: e in entries ==> e in order)
  }

  /** The allele/marker section: the heading when some query found rows,
      then the entries in the set's order, joined by newlines. */
  function AlleleMarkerText(res: AlleleMarkerResults, order: seq<string>): string
    requires Enumerates(order, AlleleMarkerEntries(res))
  {
    (if AnyAlleleMarkerErrors(res) then AlleleMarkerHeading else "") +
      Join(order, [CRT])
  }

  /** There are allele/marker entries exactly when some query found rows,
      and each entry carries the reason of the query that found it. */
  lemma AlleleMarkerEntriesSpec(res: AlleleMarkerResults)
    ensures |AlleleMarkerEntries(res)| > 0 <==> AnyAlleleMarkerErrors(res)
    ensures forall i :: 0 <= i < |res.orgMissing| ==>
      IdentityEntry(res.orgMissing[i], "Organizer does not exist") in AlleleMarkerEntries(res)
    ensures forall i :: 0 <= i < |res.orgNotAllele| ==>
      IdentityEntry(res.orgNotAllele[i], "Organizer exists for non-allele") in AlleleMarkerEntries(res)
    ensures forall i :: 0 <= i < |res.orgBadStatus| ==>
      IdentityEntry(res.orgBadStatus[i], "Organizer allele status is invalid") in AlleleMarkerEntries(res)
    ensures forall i :: 0 <= i < |res.partMissing| ==>
      IdentityEntry(res.partMissing[i], "Participant does not exist") in AlleleMarkerEntries(res)
    ensures forall i :: 0 <= i < |res.partNotMarker| ==>
      IdentityEntry(res.partNotMarker[i], "Participant exists for non-marker") in AlleleMarkerEntries(res)
    ensures forall i :: 0 <= i < |res.partBadStatus| ==>
      IdentityEntry(res.partBadStatus[i], "Participant marker status is invalid") in AlleleMarkerEntries(res)
  {
    var all := AlleleMarkerEntries(res);
    if AnyAlleleMarkerErrors(res) {
      if |res.orgMissing| > 0 {
        assert IdentityEntry(res.orgMissing[0], "Organizer does not exist") in all;
      } else if |res.orgNotAllele| > 0 {
        assert IdentityEntry(res.orgNotAllele[0], "Organizer exists for non-allele") in all;
      } else if |res.orgBadStatus| > 0 {
        assert IdentityEntry(res.orgBadStatus[0], "Organizer allele status is invalid") in all;
      } else if |res.partMissing| > 0 {
        assert IdentityEntry(res.partMissing[0], "Participant does not exist") in all;
      } else if |res.partNotMarker| > 0 {
        assert IdentityEntry(res.partNotMarker[0], "Participant exists for non-marker") in all;
      } else {
        assert IdentityEntry(res.partBadStatus[0], "Participant marker status is invalid") in all;
      }
    } else {
      assert all == {};
    }
  }

  /** Why a marker/marker row is reported: no type means the ID does not
      exist, a type but no status means it is not a marker, otherwise its
      status is not official. The organizer's last reason has a tab where
      the participant's has a space, as in the source. */
  function MarkerReason(role: Role, r: IdentityRow): string {
    if OrEmpty(r.name) == "" then
      (if role == Organizer then "Organizer does not exist" else "Participant does not exist")
    else if OrEmpty(r.status) == "" then
      (if role == Organizer then "Organizer exists for non-marker" else "Participant exists for non-marker")
    else if role == Organizer then "Organizer\tmarker status is invalid"
    else "Participant marker status is invalid"
  }

  /** A NULL type or status is judged like an empty one, and the ID itself
      plays no part in the reason. */
  lemma MarkerReasonIgnoresNull(role: Role, r: IdentityRow)
    ensures MarkerReason(role, r) ==
      MarkerReason(role, IdentityRow(0, Some(OrEmpty(r.name)), Some(OrEmpty(r.status))))
    ensures r.name.None? ==> MarkerReason(role, r) == MarkerReason(role, r.(name := Some("")))
    ensures r.status.None? ==> MarkerReason(role, r) == MarkerReason(role, r.(status := Some("")))
  {
  }

  /** `'%-12s  %-20s  %-20s  %-30s\n'` for a marker/marker row. */
  function MarkerLine(role: Role, r: IdentityRow): (line: string)
    ensures |line| > 0 && line[|line| - 1] == CRT
  {
    IdentityEntry(r, MarkerReason(role, r)) + [CRT]
  }

  /** The marker/marker entries of one role, each followed by a newline. */
  function MarkerLines(role: Role, rows: seq<IdentityRow>): string
    decreases |rows|
  {
    if |rows| == 0 then ""
    else MarkerLines(role, rows[..|rows| - 1]) + MarkerLine(role, rows[|rows| - 1])
  }

  /** One more row appends its line. */
  lemma MarkerLinesSnoc(role: Role, rows: seq<IdentityRow>, i: nat)
    requires i < |rows|
    ensures MarkerLines(role, rows[..i + 1]) == MarkerLines(role, rows[..i]) + MarkerLine(role, rows[i])
  {
    assert rows[..i + 1][..i] == rows[..i];
  }

  /** The marker/marker section: organizer rows, then participant rows,
      under a heading written when there are any. */
  function MarkerMarkerText(orgRows: seq<IdentityRow>, partRows: seq<IdentityRow>): string {
    (if |orgRows| > 0 || |partRows| > 0 then MarkerMarkerHeading else "") +
      MarkerLines(Organizer, orgRows) + MarkerLines(Participant, partRows)
  }

  /** Each marker/marker row writes one line, so the section is empty
      exactly when both queries are. */
  lemma {:induction false} MarkerLinesCount(role: Role, rows: seq<IdentityRow>)
    ensures |MarkerLines(role, rows)| == 0 <==> |rows| == 0
    ensures |rows| > 0 ==>
      var text := MarkerLines(role, rows);
      var last := MarkerLine(role, rows[|rows| - 1]);
      text[|text| - |last|..] == last
    decreases |rows|
  {
    if |rows| > 0 {
      MarkerLinesCount(role, rows[..|rows| - 1]);
    }
  }

  /** `'%-12s  %-20s  %-20s  %-28s\n'` for a secondary ID. */
  function SecondaryLine(r: SecondaryRow, which: Role): string {
    Columns([(MgiId(r.mgiId), 12), (r.symbol, 20), (r.accId, 20), (RoleName(which), 28)]) + [CRT]
  }

  function SecondaryLines(rows: seq<SecondaryRow>, which: Role): string
    decreases |rows|
  {
    if |rows| == 0 then ""
    else SecondaryLines(rows[..|rows| - 1], which) + SecondaryLine(rows[|rows| - 1], which)
  }

  /** One more row adds its line at the end. */
  lemma SecondaryLinesSnoc(rows: seq<SecondaryRow>, i: nat, which: Role)
    requires i < |rows|
    ensures SecondaryLines(rows[..i + 1], which) == SecondaryLines(rows[..i], which) + SecondaryLine(rows[i], which)
  {
    assert rows[..i + 1][..i] == rows[..i];
  }

  /** A secondary-ID section (`kind` is `Allele/Marker` or `Marker/Marker`):
      organizers, then participants, under a heading written when there are
      any. */
  function SecondaryText(kind: string, orgRows: seq<SecondaryRow>, partRows: seq<SecondaryRow>): string {
    if |orgRows| == 0 && |partRows| == 0 then ""
    else SecondaryHeading(kind) + SecondaryLines(orgRows, Organizer) + SecondaryLines(partRows, Participant)
  }

  const SecondaryColumns: string :=
    PadRight("2ndary MGI ID", 12) + "  " + PadRight("Symbol", 20) + "  " +
      PadRight("Primary MGI ID", 20) + "  " + PadRight("Organizer or Participant?", 28) + [CRT]
  const SecondaryDashes: string :=
    Repeat('-', 12) + "  " + Repeat('-', 20) + "  " + Repeat('-', 20) + "  " + Repeat('-', 28) + [CRT]

  function SecondaryHeading(kind: string): string {
    Heading("Secondary MGI IDs used in " + kind + " Relationships", 80, SecondaryColumns, SecondaryDashes)
  }

  /** One line per secondary ID, labelled with its role. */
  lemma {:induction false} SecondaryLinesSpec(rows: seq<SecondaryRow>, which: Role)
    ensures |SecondaryLines(rows, which)| == 0 <==> |rows| == 0
    ensures |rows| > 0 ==>
      var text := SecondaryLines(rows, which);
      var last := SecondaryLine(rows[|rows| - 1], which);
      text[|text| - |last|..] == last
    decreases |rows|
  {
    if |rows| > 0 {
      SecondaryLinesSpec(rows[..|rows| - 1], which);
    }
  }

  /** The staged records the chromosome comparison considers: not of the
      `expresses_component` category and not of relationship RV:0001555. */
  predicate ChromosomeChecked(r: StagedRecord) {
    r.category != "expresses_component" && r.relId != "RV:0001555"
  }

  function ChromosomeCandidates(records: seq<StagedRecord>): (r: seq<StagedRecord>)
    ensures forall x :: x in r ==> x in records && ChromosomeChecked(x)
    ensures forall x :: x in records && ChromosomeChecked(x) ==> x in r
    decreases |records|
  {
    if |records| == 0 then []
    else
      var x := records[|records| - 1];
      var prev := ChromosomeCandidates(records[..|records| - 1]);
      assert forall y :: y in records[..|records| - 1] ==> y in records;
      assert forall y :: y in records ==> y in records[..|records| - 1] || y == x;
      if ChromosomeChecked(x) then prev + [x] else prev
  }

  /** `'%-20s  %-20s  %-20s  %-20s' % (org, oChr, part, pChr)` */
  function ChromosomeEntry(r: ChromosomeRow): string {
    Columns([(MgiId(r.org), 20), (r.oChr, 20), (MgiId(r.part), 20), (r.pChr, 20)])
  }

  /** The warning-report section for mismatched chromosomes, present when
      the query found rows, ending in a newline. */
  function ChromosomeWarning(rows: seq<ChromosomeRow>): string {
    if |rows| == 0 then ""
    else
      ChromosomeHeading + Join(MapSeq(ChromosomeEntry, rows), [CRT]) + [CRT]
  }

  const ChromosomeHeading: string :=
    Heading("Mismatched chromosome in Allele/Marker Relationships", 80,
            PadRight("Organizer MGI ID", 20) + "  " + PadRight("Organizer chromosome", 20) + "  " +
              PadRight("Participant MGI ID", 20) + "  " + PadRight("Participant chromosome", 20) + [CRT],
            Repeat('-', 20) + "  " + Repeat('-', 20) + "  " + Repeat('-', 20) + "  " + Repeat('-', 20) + [CRT])
}
