/** Staging the input file for MGI ID verification (fearQC.py
    `loadTempTables`): each data line's organizer and participant IDs are
    checked, rejected IDs are entered in the bad-ID table, and a line with at
    least one accepted ID becomes a record of the identity bcp file, a
    rejected ID staged as `0`. Also the allele and marker lookups built from
    the staged IDs (`loadTempTableLookups`). */
module Staging {
  import opened Text
  import opened Collections
  import opened MgiIds
  import opened QcTypes

  /** One record of the identity bcp file. */
  datatype StagedRecord = StagedRecord(
    mgiId1: string,
    typeKey1: int,
    mgiId2: string,
    typeKey2: int,
    relId: string,
    category: string)

  function BcpFields(r: StagedRecord): seq<string> {
    [r.mgiId1, IntToString(r.typeKey1), r.mgiId2, IntToString(r.typeKey2), r.relId, r.category]
  }

  /** The line written for a record: its fields tab-separated, then a newline. */
  function BcpLine(r: StagedRecord): string {
    Join(BcpFields(r), [TAB]) + [CRT]
  }

  /** The whole identity bcp file. */
  function BcpText(records: seq<StagedRecord>): string
    decreases |records|
  {
    if |records| == 0 then ""
    else BcpText(records[..|records| - 1]) + BcpLine(records[|records| - 1])
  }

  predicate TabFree(r: StagedRecord) {
    TAB !in r.mgiId1 && TAB !in r.mgiId2 && TAB !in r.relId && TAB !in r.category
  }

  /** A bcp line ends in a newline and, when no field holds a tab, splits on
      tabs back into the record's fields. */
  lemma BcpLineRoundTrip(r: StagedRecord)
    requires TabFree(r)
    ensures var line := BcpLine(r);
      line[|line| - 1] == CRT && Split(line[..|line| - 1], TAB) == BcpFields(r)
  {
    var line := BcpLine(r);
    assert line[..|line| - 1] == Join(BcpFields(r), [TAB]);
    IntToStringNoBreaks(r.typeKey1);
    IntToStringNoBreaks(r.typeKey2);
    SplitJoin(BcpFields(r), TAB);
  }

  /** The thirteen fixed fields of a data line as staging reads them: split
      on tabs and stripped, case kept. */
  function StagingFields(line: string): seq<string>
    requires |Split(line, TAB)| >= 13
  {
    seq(13, i requires 0 <= i < 13 => Strip(Split(line, TAB)[i]))
  }

  /** The bad-ID table assignments one line makes, organizer first. */
  function BadIdWrites(obj1Id: string, obj2Id: string): seq<(string, Role)> {
    CheckedIdWrites(obj1Id, CheckId(obj1Id), obj2Id, CheckId(obj2Id))
  }

  /** The bad-ID table assignments for two IDs judged `c1` and `c2`. */
  function CheckedIdWrites(obj1Id: string, c1: IdCheck, obj2Id: string, c2: IdCheck): seq<(string, Role)> {
    (if c1.WellFormed? then [] else [(obj1Id, BadIdRole(Organizer, c1))]) +
    (if c2.WellFormed? then [] else [(obj2Id, BadIdRole(Participant, c2))])
  }

  /** The record a line stages, if any. */
  function StagedFor(category: Category, f: seq<string>): Option<StagedRecord>
    requires |f| == 13
  {
    var c1 := CheckId(f[2]);
    var c2 := CheckId(f[6]);
    if !c1.WellFormed? && !c2.WellFormed? then None
    else Some(StagedRecord(StagedNumber(c1), category.mgiTypeKey1, StagedNumber(c2),
                           category.mgiTypeKey2, f[4], f[1]))
  }

  function OptionToSeq<T>(o: Option<T>): seq<T> {
    if o.Some? then [o.value] else []
  }

  /** How staging ends: with the sequence of bad-ID assignments and the staged
      records, or aborted by a line of fewer than thirteen fields (the tuple
      unpacking raises) or by a category that is not a key of the category
      lookup (exit status 1). */
  datatype StageOutcome =
    | Staged(badIdWrites: seq<(string, Role)>, records: seq<StagedRecord>)
    | ShortLine(index: nat)
    | UnknownCategory(cat: string)

  /** Staging the data lines `lines`, the header already read. */
  function StageLines(categories: map<string, Category>, lines: seq<string>): StageOutcome
    decreases |lines|
  {
    if |lines| == 0 then Staged([], [])
    else
      var line := lines[|lines| - 1];
      match StageLines(categories, lines[..|lines| - 1])
      case Staged(w, recs) =>
        if |Split(line, TAB)| < 13 then ShortLine(|lines| - 1)
        else
          var f := StagingFields(line);
          if f[1] !in categories then UnknownCategory(f[1])
          else Staged(w + BadIdWrites(f[2], f[6]), recs + OptionToSeq(StagedFor(categories[f[1]], f)))
      case other => other
  }

  /** A line is staged exactly when one of its two IDs starts with `MGI:`
      followed by an integer; each ID is staged as the text after `MGI:` up
      to the next colon when accepted and as `0` when rejected; the record
      carries the category's two MGI types, the relationship ID and the
      category as written. */
  lemma StagedRecordSpec(category: Category, f: seq<string>)
    requires |f| == 13
    ensures StagedFor(category, f).Some? <==> (Accepted(f[2]) || Accepted(f[6]))
    ensures StagedFor(category, f).Some? ==>
      var r := StagedFor(category, f).value;
      && r.mgiId1 == (if Accepted(f[2]) then Split(f[2][4..], ':')[0] else "0")
      && r.mgiId2 == (if Accepted(f[6]) then Split(f[6][4..], ':')[0] else "0")
      && r.typeKey1 == category.mgiTypeKey1 && r.typeKey2 == category.mgiTypeKey2
      && r.relId == f[4] && r.category == f[1]
  {
    CheckIdSpec(f[2]);
    CheckIdSpec(f[6]);
  }

  /** The declarative form of acceptance (see `CheckIdSpec`). */
  predicate Accepted(id: string) {
    StartsWith(id, "MGI:") && IsPyInt(Split(id[4..], ':')[0])
  }

  /** Each rejected ID of a line is entered once, organizer before
      participant; a rejected organizer is labelled `Organizer`, and a
      rejected participant is labelled `Participant` only when its shape is
      wrong, `Organizer` when only its suffix is not an integer. */
  lemma BadIdWritesSpec(obj1Id: string, obj2Id: string)
    ensures var w := BadIdWrites(obj1Id, obj2Id);
      && |w| == (if Accepted(obj1Id) then 0 else 1) + (if Accepted(obj2Id) then 0 else 1)
      && (!Accepted(obj1Id) ==> w[0] == (obj1Id, Organizer))
      && (!Accepted(obj2Id) ==> w[|w| - 1].0 == obj2Id)
      && (!Accepted(obj2Id) && CheckId(obj2Id).BadSuffix? ==> w[|w| - 1].1 == Organizer)
      && (!Accepted(obj2Id) && CheckId(obj2Id).BadFormat? ==> w[|w| - 1].1 == Participant)
  {
    CheckIdSpec(obj1Id);
    CheckIdSpec(obj2Id);
  }

  /** A participant `MGI:` ID with a non-integer suffix is filed under
      `Organizer`. */
  lemma ParticipantSuffixLabelledOrganizer(suffix: string)
    requires ':' !in suffix && |suffix| > 0 && !IsPyInt(suffix)
    ensures CheckId("MGI:" + suffix) == BadSuffix
    ensures BadIdRole(Participant, CheckId("MGI:" + suffix)) == Organizer
  {
    SplitMgiSuffix(suffix);
    CheckIdOfPieces("MGI:" + suffix, suffix);
  }

  /** When staging completes, every data line has at least thirteen fields
      and its stripped category is a key of the category lookup. */
  lemma {:induction false} StagedLinesWellFormed(categories: map<string, Category>, lines: seq<string>)
    requires StageLines(categories, lines).Staged?
    ensures forall i :: 0 <= i < |lines| ==>
      |Split(lines[i], TAB)| >= 13 && Strip(Split(lines[i], TAB)[1]) in categories
    decreases |lines|
  {
    if |lines| > 0 {
      var p := lines[..|lines| - 1];
      StagedLastLine(categories, lines);
      StagedLinesWellFormed(categories, p);
      forall i | 0 <= i < |lines| - 1
        ensures |Split(lines[i], TAB)| >= 13 && Strip(Split(lines[i], TAB)[1]) in categories
      {
        assert lines[i] == p[i];
      }
    }
  }

  /** When staging completes, it completed on all lines before the last, and
      the last has at least thirteen fields and a known stripped category. */
  lemma StagedLastLine(categories: map<string, Category>, lines: seq<string>)
    requires |lines| > 0 && StageLines(categories, lines).Staged?
    ensures StageLines(categories, lines[..|lines| - 1]).Staged?
    ensures var line := lines[|lines| - 1];
      |Split(line, TAB)| >= 13 && Strip(Split(line, TAB)[1]) in categories
  {
  }

  /** Every staged record is free of tabs, so that its bcp line reads back as
      the record. */
  lemma {:induction false} StagedRecordsTabFree(categories: map<string, Category>, lines: seq<string>)
    requires StageLines(categories, lines).Staged?
    ensures forall r :: r in StageLines(categories, lines).records ==> TabFree(r)
    decreases |lines|
  {
    if |lines| > 0 {
      var p := lines[..|lines| - 1];
      StagedRecordsTabFree(categories, p);
      var line := lines[|lines| - 1];
      var f := StagingFields(line);
      if StagedFor(categories[f[1]], f).Some? {
        SplitNoSeparator(line, TAB);
        StripSpec(Split(line, TAB)[1]);
        StripSpec(Split(line, TAB)[2]);
        StripSpec(Split(line, TAB)[4]);
        StripSpec(Split(line, TAB)[6]);
        StagedIdTabFree(f[2]);
        StagedIdTabFree(f[6]);
      }
    }
  }

  /** The number staged for a tab-free ID is tab-free. */
  lemma StagedIdTabFree(id: string)
    requires TAB !in id
    ensures TAB !in StagedNumber(CheckId(id))
  {
    CheckIdSpec(id);
    if CheckId(id).WellFormed? {
      var s := CheckId(id).suffix;
      forall i | 0 <= i < |s| ensures s[i] != TAB {
        assert s[i] == id[4..][i];
      }
    }
  }

  /** Allele/marker rows of the staged-ID join: the numeric parts of the two
      IDs with the allele's and the marker's key and symbol. */
  datatype AlleleMarkerRow = AlleleMarkerRow(
    mgiId1: int, alleleKey: int, alleleSymbol: string,
    mgiId2: int, markerKey: int, markerSymbol: string)

  /** Marker/marker rows of the staged-ID join. */
  datatype MarkerMarkerRow = MarkerMarkerRow(
    mgiId1: int, markerKey1: int, symbol1: string,
    mgiId2: int, markerKey2: int, symbol2: string)

  /** `'mgi:%s' % n`: the lookup key of a staged numeric ID. */
  function LookupId(n: int): string {
    "mgi:" + IntToString(n)
  }

  /** The allele assignments, in query order. */
  function AlleleEntries(rows: seq<AlleleMarkerRow>): seq<(string, ObjInfo)>
  {
    seq(|rows|, i requires 0 <= i < |rows| =>
      (LookupId(rows[i].mgiId1), ObjInfo(rows[i].alleleKey, rows[i].alleleSymbol)))
  }

  /** The marker assignments: the participant of each allele/marker row, then
      organizer and participant of each marker/marker row. */
  function MarkerEntries(am: seq<AlleleMarkerRow>, mm: seq<MarkerMarkerRow>): seq<(string, ObjInfo)>
    decreases |mm|
  {
    if |mm| == 0 then
      seq(|am|, i requires 0 <= i < |am| =>
        (LookupId(am[i].mgiId2), ObjInfo(am[i].markerKey, am[i].markerSymbol)))
    else
      var r := mm[|mm| - 1];
      MarkerEntries(am, mm[..|mm| - 1]) +
        [(LookupId(r.mgiId1), ObjInfo(r.markerKey1, r.symbol1)),
         (LookupId(r.mgiId2), ObjInfo(r.markerKey2, r.symbol2))]
  }

  /** Every lookup key is `mgi:` and a decimal number written by `str()`. */
  lemma LookupKeysCanonical<V>(entries: seq<(string, V)>, k: string)
    requires forall i :: 0 <= i < |entries| ==> exists n: int :: entries[i].0 == LookupId(n)
    requires k in FirstWins(entries)
    ensures exists n: int :: k == LookupId(n)
  {
    FirstWinsSpec(entries);
    var i := FirstIndex(KeysOf(entries), k);
    assert entries[i].0 == k;
  }

  /** An input ID whose number is written with leading zeros (`mgi:0012`,
      as the row loop lower-cases it) is never found in a lookup whose keys
      are all `mgi:` and `str()` of a number. */
  lemma LeadingZerosNotFound<V>(entries: seq<(string, V)>, d: string)
    requires forall i :: 0 <= i < |entries| ==> exists n: int :: entries[i].0 == LookupId(n)
    requires |d| >= 2 && d[0] == '0'
    ensures "mgi:" + d !in FirstWins(entries)
  {
    if "mgi:" + d in FirstWins(entries) {
      LookupKeysCanonical(entries, "mgi:" + d);
      var n: int :| "mgi:" + d == LookupId(n);
      assert ("mgi:" + d)[4..] == d;
      assert LookupId(n)[4..] == IntToString(n);
      IntToStringNotPadded(n, d);
    }
  }
}
