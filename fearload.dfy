/** The loader, fearload.py: `init` takes the next free relationship and
    property keys and fills its lookups keyed by the database's own
    spelling; `createFiles` checks each tab-separated line of the input file
    against the lookups, skipping a line at its first failed check, and
    writes one MGI_Relationship bcp row for each line that passes, numbering
    the rows from the next free key. */
module FearLoad {
  import opened Text
  import opened Collections

  /** A row of MGI_Relationship_Category as the loader keeps it (`Category`
      in the source). The relationship vocabulary key is never filled in. */
  datatype LoaderCategory = LoaderCategory(
    key: int,
    name: string,
    relationshipVocabKey: Option<int>,
    mgiTypeKey1: int,
    mgiTypeKey2: int)

  /** A category row of the database: name, key and the two MGI types. */
  datatype CategoryRow = CategoryRow(name: string, key: int, mgiTypeKey1: int, mgiTypeKey2: int)

  /** The object `init` makes of a category row. */
  function CategoryOf(r: CategoryRow): LoaderCategory
  {
    LoaderCategory(r.key, r.name, None, r.mgiTypeKey1, r.mgiTypeKey2)
  }

  /** `max(key) + 1`: NULL when the table is empty. */
  function SqlNextKey(keys: seq<int>): Option<int>
    decreases |keys|
  {
    if |keys| == 0 then None
    else
      var prev := SqlNextKey(keys[..|keys| - 1]);
      var k := keys[|keys| - 1];
      if prev.None? || prev.value < k + 1 then Some(k + 1) else prev
  }

  /** The next free key: the query's value, or 1000 when it is NULL. */
  function NextKey(sqlNext: Option<int>): int {
    if sqlNext.None? then 1000 else sqlNext.value
  }

  /** The next key exceeds every key in the table, so it and every key
      counted up from it are free. */
  lemma {:induction false} NextKeyFresh(keys: seq<int>)
    ensures forall i :: 0 <= i < |keys| ==> keys[i] < NextKey(SqlNextKey(keys))
    ensures |keys| == 0 ==> NextKey(SqlNextKey(keys)) == 1000
    ensures |keys| > 0 ==> exists i :: 0 <= i < |keys| && NextKey(SqlNextKey(keys)) == keys[i] + 1
    decreases |keys|
  {
    if |keys| > 0 {
      var p := keys[..|keys| - 1];
      NextKeyFresh(p);
      assert forall i :: 0 <= i < |p| ==> p[i] == keys[i];
      if |p| > 0 {
        var n := NextKey(SqlNextKey(p));
        var j :| 0 <= j < |p| && n == p[j] + 1;
        assert keys[j] == p[j];
      }
    }
  }

  /** The lookups `init` fills, keyed exactly as the database spells them. */
  datatype LoaderLookups = LoaderLookups(
    categories: map<string, LoaderCategory>,
    relationships: map<string, int>,
    qualifiers: map<string, int>,
    evidence: map<string, int>,
    jNums: map<string, int>,
    markers: map<string, int>,
    users: map<string, int>)

  /** The qualifier looked up for an empty qualifier field. */
  const DEFAULT_QUALIFIER: string := "Not Specified"

  /** The checks of a line, in the order they are made. */
  datatype LoadCheck =
    | CategoryCheck | Marker1Check | Marker2Check | RelationshipCheck
    | QualifierCheck | EvidenceCheck | JNumCheck | UserCheck

  /** The database keys of an accepted line. */
  datatype RelationshipKeys = RelationshipKeys(
    catKey: int, objKey1: int, objKey2: int, relKey: int,
    qualKey: int, evidKey: int, refsKey: int, userKey: int)

  datatype Resolution = Resolved(keys: RelationshipKeys) | Rejected(failed: LoadCheck)

  /** The qualifier a line is checked with. */
  function LoadQualifier(qual: string): string {
    if qual == "" then DEFAULT_QUALIFIER else qual
  }

  /** The checks of one line's fields (category 1, organizer 2, relationship
      4, participant 6, qualifier 8, evidence 9, J number 10, creator 11),
      stopping at the first that fails. */
  function ResolveLine(lk: LoaderLookups, f: seq<string>): Resolution
    requires |f| == 14
  {
    if f[1] !in lk.categories then Rejected(CategoryCheck)
    else if f[2] !in lk.markers then Rejected(Marker1Check)
    else if f[6] !in lk.markers then Rejected(Marker2Check)
    else if f[4] !in lk.relationships then Rejected(RelationshipCheck)
    else if LoadQualifier(f[8]) !in lk.qualifiers then Rejected(QualifierCheck)
    else if f[9] !in lk.evidence then Rejected(EvidenceCheck)
    else if f[10] !in lk.jNums then Rejected(JNumCheck)
    else if f[11] !in lk.users then Rejected(UserCheck)
    else Resolved(RelationshipKeys(
      lk.categories[f[1]].key, lk.markers[f[2]], lk.markers[f[6]], lk.relationships[f[4]],
      lk.qualifiers[LoadQualifier(f[8])], lk.evidence[f[9]], lk.jNums[f[10]], lk.users[f[11]]))
  }

  /** Whether the lookup of check `c` succeeds for the fields `f`. */
  predicate Passes(lk: LoaderLookups, f: seq<string>, c: LoadCheck)
    requires |f| == 14
  {
    match c
    case CategoryCheck => f[1] in lk.categories
    case Marker1Check => f[2] in lk.markers
    case Marker2Check => f[6] in lk.markers
    case RelationshipCheck => f[4] in lk.relationships
    case QualifierCheck => LoadQualifier(f[8]) in lk.qualifiers
    case EvidenceCheck => f[9] in lk.evidence
    case JNumCheck => f[10] in lk.jNums
    case UserCheck => f[11] in lk.users
  }

  const CheckOrder: seq<LoadCheck> := [
    CategoryCheck, Marker1Check, Marker2Check, RelationshipCheck,
    QualifierCheck, EvidenceCheck, JNumCheck, UserCheck]

  /** A line is accepted exactly when every check passes, then with the keys
      its fields name; it is rejected at the first check in order that
      fails, every earlier check having passed. */
  lemma ResolveLineSpec(lk: LoaderLookups, f: seq<string>)
    requires |f| == 14
    ensures ResolveLine(lk, f).Resolved? <==> forall i :: 0 <= i < |CheckOrder| ==> Passes(lk, f, CheckOrder[i])
    ensures ResolveLine(lk, f).Resolved? ==>
      var q := LoadQualifier(f[8]);
      ResolveLine(lk, f).keys == RelationshipKeys(
        lk.categories[f[1]].key, lk.markers[f[2]], lk.markers[f[6]], lk.relationships[f[4]],
        lk.qualifiers[q], lk.evidence[f[9]], lk.jNums[f[10]], lk.users[f[11]])
    ensures ResolveLine(lk, f).Rejected? ==>
      exists i :: 0 <= i < |CheckOrder| && CheckOrder[i] == ResolveLine(lk, f).failed &&
        !Passes(lk, f, CheckOrder[i]) && forall j :: 0 <= j < i ==> Passes(lk, f, CheckOrder[j])
  {
    var r := ResolveLine(lk, f);
    if r.Resolved? {
      forall i | 0 <= i < |CheckOrder| ensures Passes(lk, f, CheckOrder[i]) {}
    } else {
      var c := r.failed;
      var i := match c
        case CategoryCheck => 0 case Marker1Check => 1 case Marker2Check => 2 case RelationshipCheck => 3
        case QualifierCheck => 4 case EvidenceCheck => 5 case JNumCheck => 6 case UserCheck => 7;
      assert CheckOrder[i] == c && !Passes(lk, f, CheckOrder[i]);
      assert forall j :: 0 <= j < i ==> Passes(lk, f, CheckOrder[j]);
    }
  }

  /** An empty qualifier is looked up as `Not Specified`; any other is looked
      up as written, case and all. */
  lemma QualifierDefaultSpec(lk: LoaderLookups, f: seq<string>)
    requires |f| == 14 && f[1] in lk.categories && f[2] in lk.markers && f[6] in lk.markers
    requires f[4] in lk.relationships
    ensures f[8] == "" ==> (ResolveLine(lk, f) == Rejected(QualifierCheck) <==> DEFAULT_QUALIFIER !in lk.qualifiers)
    ensures f[8] != "" ==> (ResolveLine(lk, f) == Rejected(QualifierCheck) <==> f[8] !in lk.qualifiers)
  {
  }

  /** The fields of a bcp row: the key, the line's eight keys with the user
      key twice, and the date twice. */
  function BcpRowFields(key: int, k: RelationshipKeys, date: string): seq<string> {
    [IntToString(key), IntToString(k.catKey), IntToString(k.objKey1), IntToString(k.objKey2),
     IntToString(k.relKey), IntToString(k.qualKey), IntToString(k.evidKey), IntToString(k.refsKey),
     IntToString(k.userKey), IntToString(k.userKey), date, date]
  }

  function BcpRow(key: int, k: RelationshipKeys, date: string): string {
    Join(BcpRowFields(key, k, date), [TAB]) + [CRT]
  }

  /** A bcp row ends in a newline and, for a date without tabs, splits back
      into its twelve fields: the row key first, the user key and the date
      each twice at the end. */
  lemma BcpRowRoundTrip(key: int, k: RelationshipKeys, date: string)
    requires TAB !in date
    ensures var row := BcpRow(key, k, date);
      && row[|row| - 1] == CRT
      && Split(row[..|row| - 1], TAB) == BcpRowFields(key, k, date)
      && |BcpRowFields(key, k, date)| == 12
      && BcpRowFields(key, k, date)[0] == IntToString(key)
      && BcpRowFields(key, k, date)[8] == BcpRowFields(key, k, date)[9] == IntToString(k.userKey)
      && BcpRowFields(key, k, date)[10] == BcpRowFields(key, k, date)[11] == date
  {
    var row := BcpRow(key, k, date);
    var fields := BcpRowFields(key, k, date);
    assert row[..|row| - 1] == Join(fields, [TAB]);
    IntToStringNoBreaks(key);
    IntToStringNoBreaks(k.catKey);
    IntToStringNoBreaks(k.objKey1);
    IntToStringNoBreaks(k.objKey2);
    IntToStringNoBreaks(k.relKey);
    IntToStringNoBreaks(k.qualKey);
    IntToStringNoBreaks(k.evidKey);
    IntToStringNoBreaks(k.refsKey);
    IntToStringNoBreaks(k.userKey);
    SplitJoin(fields, TAB);
  }

  /** What the checks make of one input line. */
  function LineResult(lk: LoaderLookups, line: string): Resolution
    requires |Split(line, TAB)| == 14
  {
    ResolveLine(lk, Split(line, TAB))
  }

  /** The keys a line adds to the accepted ones. */
  function LineKeys(lk: LoaderLookups, line: string): seq<RelationshipKeys>
    requires |Split(line, TAB)| == 14
  {
    var r := LineResult(lk, line);
    if r.Resolved? then [r.keys] else []
  }

  /** The keys of the accepted lines, in file order. */
  function AcceptedKeys(lk: LoaderLookups, lines: seq<string>): seq<RelationshipKeys>
    requires forall i :: 0 <= i < |lines| ==> |Split(lines[i], TAB)| == 14
    decreases |lines|
  {
    if |lines| == 0 then []
    else
      var prefix := lines[..|lines| - 1];
      assert forall i :: 0 <= i < |prefix| ==> prefix[i] == lines[i];
      AcceptedKeys(lk, prefix) + LineKeys(lk, lines[|lines| - 1])
  }

  /** The rows for `accepted`, the i-th keyed `start + i`. */
  function NumberedRows(start: int, accepted: seq<RelationshipKeys>, date: string): seq<string> {
    seq(|accepted|, i requires 0 <= i < |accepted| => BcpRow(start + i, accepted[i], date))
  }

  lemma NumberedRowsAppend(start: int, accepted: seq<RelationshipKeys>, k: RelationshipKeys, date: string)
    ensures Concat(NumberedRows(start, accepted + [k], date)) ==
      Concat(NumberedRows(start, accepted, date)) + BcpRow(start + |accepted|, k, date)
  {
    assert NumberedRows(start, accepted + [k], date) ==
      NumberedRows(start, accepted, date) + [BcpRow(start + |accepted|, k, date)];
    ConcatAppend(NumberedRows(start, accepted, date), BcpRow(start + |accepted|, k, date));
  }

  /** The rows `createFiles` writes and the next key it leaves. */
  datatype LoadState = LoadState(text: string, nextKey: int)

  /** One turn of the loop of `createFiles`. */
  function LoadLine(lk: LoaderLookups, st: LoadState, line: string, date: string): LoadState
    requires |Split(line, TAB)| == 14
  {
    match LineResult(lk, line)
    case Rejected(_) => st
    case Resolved(k) => LoadState(st.text + BcpRow(st.nextKey, k, date), st.nextKey + 1)
  }

  /** The loop of `createFiles` over the data lines from key `start`. */
  function Load(lk: LoaderLookups, start: int, lines: seq<string>, date: string): LoadState
    requires forall i :: 0 <= i < |lines| ==> |Split(lines[i], TAB)| == 14
    decreases |lines|
  {
    if |lines| == 0 then LoadState("", start)
    else
      var prefix := lines[..|lines| - 1];
      assert forall i :: 0 <= i < |prefix| ==> prefix[i] == lines[i];
      LoadLine(lk, Load(lk, start, prefix, date), lines[|lines| - 1], date)
  }

  /** The loop over the first `i` data lines. */
  function LoadPrefix(lk: LoaderLookups, start: int, lines: seq<string>, i: nat, date: string): LoadState
    requires forall j :: 0 <= j < |lines| ==> |Split(lines[j], TAB)| == 14
    requires i <= |lines|
  {
    assert forall j :: 0 <= j < i ==> lines[..i][j] == lines[j];
    Load(lk, start, lines[..i], date)
  }

  lemma LoadPrefixStep(lk: LoaderLookups, start: int, lines: seq<string>, i: nat, date: string)
    requires forall j :: 0 <= j < |lines| ==> |Split(lines[j], TAB)| == 14
    requires i < |lines|
    ensures LoadPrefix(lk, start, lines, i + 1, date) == LoadLine(lk, LoadPrefix(lk, start, lines, i, date), lines[i], date)
  {
    assert lines[..i + 1][..i] == lines[..i];
  }

  lemma LoadPrefixAll(lk: LoaderLookups, start: int, lines: seq<string>, date: string)
    requires forall j :: 0 <= j < |lines| ==> |Split(lines[j], TAB)| == 14
    ensures LoadPrefix(lk, start, lines, |lines|, date) == Load(lk, start, lines, date)
  {
    assert lines[..|lines|] == lines;
  }

  lemma LoadLineSpec(lk: LoaderLookups, start: int, acc: seq<RelationshipKeys>, st: LoadState, line: string, date: string)
    requires |Split(line, TAB)| == 14
    requires st.nextKey == start + |acc| && st.text == Concat(NumberedRows(start, acc, date))
    ensures var st2 := LoadLine(lk, st, line, date);
      var acc2 := acc + LineKeys(lk, line);
      st2.nextKey == start + |acc2| && st2.text == Concat(NumberedRows(start, acc2, date))
  {
    var r := LineResult(lk, line);
    if r.Resolved? {
      NumberedRowsAppend(start, acc, r.keys, date);
    } else {
      assert acc + LineKeys(lk, line) == acc;
    }
  }

  /** The load writes one row per accepted line, in file order, keyed
      consecutively from `start`; rejected lines write nothing and use no
      key. */
  lemma {:induction false} LoadSpec(lk: LoaderLookups, start: int, lines: seq<string>, date: string)
    requires forall i :: 0 <= i < |lines| ==> |Split(lines[i], TAB)| == 14
    ensures var st := Load(lk, start, lines, date);
      && st.nextKey == start + |AcceptedKeys(lk, lines)|
      && st.text == Concat(NumberedRows(start, AcceptedKeys(lk, lines), date))
    decreases |lines|
  {
    if |lines| > 0 {
      var prefix := lines[..|lines| - 1];
      assert forall i :: 0 <= i < |prefix| ==> prefix[i] == lines[i];
      LoadSpec(lk, start, prefix, date);
      var last := lines[|lines| - 1];
      assert AcceptedKeys(lk, lines) == AcceptedKeys(lk, prefix) + LineKeys(lk, last);
      assert Load(lk, start, lines, date) == LoadLine(lk, Load(lk, start, prefix, date), last, date);
      LoadLineSpec(lk, start, AcceptedKeys(lk, prefix), Load(lk, start, prefix, date), last, date);
    }
  }

  /** `d[k] = v` over the rows of a query. */
  method FillMap<V>(entries: seq<(string, V)>) returns (d: map<string, V>)
    ensures d == LastWins(entries)
  {
    d := map[];
    var i := 0;
    while i < |entries|
      invariant 0 <= i <= |entries|
      invariant d == LastWins(entries[..i])
    {
      assert entries[..i + 1][..i] == entries[..i];
      d := d[entries[i].0 := entries[i].1];
      i := i + 1;
    }
    assert entries[..|entries|] == entries;
  }

  /** The loader's state: the lookups, the next free keys and the
      relationship bcp file written so far. */
  class FearLoader {
    var nextRelationshipKey: int
    var nextPropertyKey: int
    var lookups: LoaderLookups
    var relationshipBcp: string
    /** `mgi_utils.date("%m/%d/%Y")` when the script starts. */
    const date: string

    constructor(date: string)
      ensures this.date == date && relationshipBcp == ""
    {
      this.date := date;
      nextRelationshipKey := 1000;
      nextPropertyKey := 1000;
      lookups := LoaderLookups(map[], map[], map[], map[], map[], map[], map[]);
      relationshipBcp := "";
    }

    /** `init`: the next keys from the two key queries, then each lookup
        filled from its query's rows, a later row replacing an earlier one
        of the same spelling. */
    method Init(relNext: Option<int>, propNext: Option<int>, categoryRows: seq<CategoryRow>,
                relationshipRows: seq<(string, int)>, qualifierRows: seq<(string, int)>,
                evidenceRows: seq<(string, int)>, jNumRows: seq<(string, int)>,
                markerRows: seq<(string, int)>, userRows: seq<(string, int)>)
      modifies this`nextRelationshipKey, this`nextPropertyKey, this`lookups
      ensures nextRelationshipKey == NextKey(relNext) && nextPropertyKey == NextKey(propNext)
      ensures lookups.categories ==
        LastWins(seq(|categoryRows|, i requires 0 <= i < |categoryRows| =>
                     (categoryRows[i].name, CategoryOf(categoryRows[i]))))
      ensures lookups.relationships == LastWins(relationshipRows)
      ensures lookups.qualifiers == LastWins(qualifierRows)
      ensures lookups.evidence == LastWins(evidenceRows)
      ensures lookups.jNums == LastWins(jNumRows)
      ensures lookups.markers == LastWins(markerRows)
      ensures lookups.users == LastWins(userRows)
    {
      nextRelationshipKey := if relNext.None? then 1000 else relNext.value;
      nextPropertyKey := if propNext.None? then 1000 else propNext.value;
      var categories := FillMap(seq(|categoryRows|, i requires 0 <= i < |categoryRows| =>
                                    (categoryRows[i].name, CategoryOf(categoryRows[i]))));
      var relationships := FillMap(relationshipRows);
      var qualifiers := FillMap(qualifierRows);
      var evidence := FillMap(evidenceRows);
      var jNums := FillMap(jNumRows);
      var markers := FillMap(markerRows);
      var users := FillMap(userRows);
      lookups := LoaderLookups(categories, relationships, qualifiers, evidence, jNums, markers, users);
    }

    /** `createFiles`: every data line (the header already skipped) is
        checked, and a passing line's row is written with the next key,
        which then moves on by one. */
    method CreateFiles(lines: seq<string>)
      requires forall i :: 0 <= i < |lines| ==> |Split(lines[i], TAB)| == 14
      modifies this`nextRelationshipKey, this`relationshipBcp
      ensures var st := Load(lookups, old(nextRelationshipKey), lines, date);
        relationshipBcp == old(relationshipBcp) + st.text && nextRelationshipKey == st.nextKey
    {
      var i := 0;
      while i < |lines|
        invariant 0 <= i <= |lines|
        invariant var st := LoadPrefix(lookups, old(nextRelationshipKey), lines, i, date);
          relationshipBcp == old(relationshipBcp) + st.text && nextRelationshipKey == st.nextKey
      {
        ghost var st := LoadPrefix(lookups, old(nextRelationshipKey), lines, i, date);
        LoadPrefixStep(lookups, old(nextRelationshipKey), lines, i, date);
        ghost var r := LineResult(lookups, lines[i]);
        CreateLine(lines[i]);
        if r.Resolved? {
          AppendAssoc(old(relationshipBcp), st.text, BcpRow(st.nextKey, r.keys, date));
        }
        i := i + 1;
      }
      LoadPrefixAll(lookups, old(nextRelationshipKey), lines, date);
    }

    /** One turn of the loop of `createFiles`: the line's fields looked up
        in order, the line skipped at the first lookup that fails, an empty
        qualifier looked up as the default; a line that passes gets its row
        written with the next key, which then moves on by one. */
    method CreateLine(line: string)
      requires |Split(line, TAB)| == 14
      modifies this`nextRelationshipKey, this`relationshipBcp
      ensures LoadState(relationshipBcp, nextRelationshipKey) ==
        LoadLine(lookups, LoadState(old(relationshipBcp), old(nextRelationshipKey)), line, date)
    {
      var f := Split(line, TAB);
      var cat, obj1Id, relId, obj2Id, qual := f[1], f[2], f[4], f[6], f[8];
      var evid, jNum, creator := f[9], f[10], f[11];
      if cat !in lookups.categories {
        return;
      }
      var catKey := lookups.categories[cat].key;
      if obj1Id !in lookups.markers {
        return;
      }
      var objKey1 := lookups.markers[obj1Id];
      if obj2Id !in lookups.markers {
        return;
      }
      var objKey2 := lookups.markers[obj2Id];
      if relId !in lookups.relationships {
        return;
      }
      var relKey := lookups.relationships[relId];
      if qual == "" {
        qual := DEFAULT_QUALIFIER;
      }
      if qual !in lookups.qualifiers {
        return;
      }
      var qualKey := lookups.qualifiers[qual];
      if evid !in lookups.evidence {
        return;
      }
      var evidKey := lookups.evidence[evid];
      if jNum !in lookups.jNums {
        return;
      }
      var refsKey := lookups.jNums[jNum];
      if creator !in lookups.users {
        return;
      }
      var userKey := lookups.users[creator];
      relationshipBcp := relationshipBcp +
        BcpRow(nextRelationshipKey, RelationshipKeys(catKey, objKey1, objKey2, relKey, qualKey, evidKey, refsKey, userKey), date);
      nextRelationshipKey := nextRelationshipKey + 1;
    }
  }
}
