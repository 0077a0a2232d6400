/** fearQC.py as a program: its module-level state (the lookups, the fatal
    flag, the bad-ID table, the allele and marker lookups, the property
    columns, the error lists, the delete preview and the report texts) is
    the state of a `FearQc` object, and each of its functions is a method
    that updates that state, proved against the specification functions of
    the other modules. */
module FearQcProgram {
  import opened Text
  import opened Collections
  import opened MgiIds
  import opened QcTypes
  import opened Staging
  import opened Header
  import opened Deletes
  import opened Rows
  import opened Identity
  import opened Report

  /** A query's rows keyed by their lower-cased name. */
  function LoweredEntries<V>(rows: seq<(string, V)>): seq<(string, V)>
  {
    seq(|rows|, i requires 0 <= i < |rows| => (Lower(rows[i].0), rows[i].1))
  }

  /** `d[r[name].lower()] = r` over the rows of a query. */
  method FillLowered<V>(rows: seq<(string, V)>) returns (d: map<string, V>)
    ensures d == LastWins(LoweredEntries(rows))
  {
    d := map[];
    var i := 0;
    while i < |rows|
      invariant 0 <= i <= |rows|
      invariant d == LastWins(LoweredEntries(rows[..i]))
    {
      assert LoweredEntries(rows[..i + 1])[..i] == LoweredEntries(rows[..i]);
      d := d[Lower(rows[i].0) := rows[i].1];
      i := i + 1;
    }
    assert rows[..|rows|] == rows;
  }

  /** The lookups of `init`, each filled from its query's rows. */
  method FillLookups(categoryRows: seq<Category>, relationshipRows: seq<(string, RelTerm)>,
                     qualifierRows: seq<(string, int)>, evidenceRows: seq<(string, int)>,
                     jNumRows: seq<(string, int)>, userRows: seq<(string, int)>,
                     propertyRows: seq<(string, int)>) returns (lk: Lookups)
    ensures lk == InitLookups(categoryRows, relationshipRows, qualifierRows, evidenceRows,
                              jNumRows, userRows, propertyRows)
  {
    var categories := FillLowered(CategoryEntries(categoryRows));
    var relationships := FillLowered(relationshipRows);
    var qualifiers := FillLowered(qualifierRows);
    var evidence := FillLowered(evidenceRows);
    var jNums := FillLowered(jNumRows);
    var users := FillLowered(userRows);
    var validProps := FillLowered(propertyRows);
    lk := Lookups(categories, relationships, qualifiers, evidence, jNums, users, validProps);
  }

  /** Every key of a lower-cased lookup is in lower case, and is the
      lower-cased name of some row. */
  lemma LoweredKeys<V>(rows: seq<(string, V)>, k: string)
    requires k in LastWins(LoweredEntries(rows))
    ensures IsLower(k) && Lower(k) == k
    ensures exists i :: 0 <= i < |rows| && k == Lower(rows[i].0)
  {
    LastWinsSpec(LoweredEntries(rows));
    var i :| 0 <= i < |rows| && KeysOf(LoweredEntries(rows))[i] == k;
    LowerIsLower(rows[i].0);
  }

  /** The category rows keyed by name. */
  function CategoryEntries(rows: seq<Category>): seq<(string, Category)>
  {
    seq(|rows|, i requires 0 <= i < |rows| => (rows[i].name, rows[i]))
  }

  /** The lookups `init` builds from its queries' rows. */
  function InitLookups(categoryRows: seq<Category>, relationshipRows: seq<(string, RelTerm)>,
                       qualifierRows: seq<(string, int)>, evidenceRows: seq<(string, int)>,
                       jNumRows: seq<(string, int)>, userRows: seq<(string, int)>,
                       propertyRows: seq<(string, int)>): Lookups
  {
    Lookups(LastWins(LoweredEntries(CategoryEntries(categoryRows))),
            LastWins(LoweredEntries(relationshipRows)),
            LastWins(LoweredEntries(qualifierRows)),
            LastWins(LoweredEntries(evidenceRows)),
            LastWins(LoweredEntries(jNumRows)),
            LastWins(LoweredEntries(userRows)),
            LastWins(LoweredEntries(propertyRows)))
  }

  /** Staging stops at the first line that aborts it. */
  lemma {:induction false} StageLinesStops(categories: map<string, Category>, lines: seq<string>, j: nat)
    requires j <= |lines|
    requires !StageLines(categories, lines[..j]).Staged?
    ensures StageLines(categories, lines) == StageLines(categories, lines[..j])
    decreases |lines| - j
  {
    if j < |lines| {
      var p := lines[..|lines| - 1];
      assert p[..j] == lines[..j];
      StageLinesStops(categories, p, j);
    } else {
      assert lines[..j] == lines;
    }
  }

  /** When staging completes and the category lookup is lower-cased, every
      data line's stripped and lower-cased category is a key of it: the
      row loop's unknown-category check never fires after staging. */
  lemma StagedCategoryKnown(categoryRows: seq<Category>, lines: seq<string>, i: nat)
    requires StageLines(LastWins(LoweredEntries(CategoryEntries(categoryRows))), lines).Staged?
    requires i < |lines|
    ensures |Split(lines[i], TAB)| >= 13
    ensures FixedFields(lines[i])[1] in LastWins(LoweredEntries(CategoryEntries(categoryRows)))
  {
    var cats := LastWins(LoweredEntries(CategoryEntries(categoryRows)));
    StagedLinesWellFormed(cats, lines);
    var cat := Strip(Split(lines[i], TAB)[1]);
    LoweredKeys(CategoryEntries(categoryRows), cat);
  }

  /** One more line of a staging that has not aborted. */
  lemma StageStep(categories: map<string, Category>, lines: seq<string>, i: nat)
    requires i < |lines| && StageLines(categories, lines[..i]).Staged?
    requires |Split(lines[i], TAB)| >= 13 && StagingFields(lines[i])[1] in categories
    ensures var prev := StageLines(categories, lines[..i]);
      var f := StagingFields(lines[i]);
      StageLines(categories, lines[..i + 1]) ==
        Staged(prev.badIdWrites + BadIdWrites(f[2], f[6]),
               prev.records + OptionToSeq(StagedFor(categories[f[1]], f)))
  {
    assert lines[..i + 1][..i] == lines[..i];
    assert lines[..i + 1][i] == lines[i];
  }

  /** A line with fewer than thirteen fields ends staging. */
  lemma StageShort(categories: map<string, Category>, lines: seq<string>, i: nat)
    requires i < |lines| && StageLines(categories, lines[..i]).Staged?
    requires |Split(lines[i], TAB)| < 13
    ensures StageLines(categories, lines) == ShortLine(i)
  {
    assert lines[..i + 1][..i] == lines[..i];
    StageLinesStops(categories, lines, i + 1);
  }

  /** A line whose category is not in the lookup ends staging. */
  lemma StageUnknown(categories: map<string, Category>, lines: seq<string>, i: nat)
    requires i < |lines| && StageLines(categories, lines[..i]).Staged?
    requires |Split(lines[i], TAB)| >= 13 && StagingFields(lines[i])[1] !in categories
    ensures StageLines(categories, lines) == UnknownCategory(StagingFields(lines[i])[1])
  {
    assert lines[..i + 1][..i] == lines[..i];
    StageLinesStops(categories, lines, i + 1);
  }

  /** The record a line stages, in terms of its two ID checks. */
  lemma StagedForChecked(category: Category, f: seq<string>, c1: IdCheck, c2: IdCheck)
    requires |f| == 13 && c1 == CheckId(f[2]) && c2 == CheckId(f[6])
    ensures OptionToSeq(StagedFor(category, f)) ==
      if c1.WellFormed? || c2.WellFormed? then
        [StagedRecord(StagedNumber(c1), category.mgiTypeKey1, StagedNumber(c2), category.mgiTypeKey2, f[4], f[1])]
      else []
  {
  }

  /** The bcp text a line adds, in terms of its two ID checks. */
  lemma StagedBcp(category: Category, f: seq<string>, c1: IdCheck, c2: IdCheck)
    requires |f| == 13 && c1 == CheckId(f[2]) && c2 == CheckId(f[6])
    ensures BcpText(OptionToSeq(StagedFor(category, f))) ==
      if c1.WellFormed? || c2.WellFormed? then
        BcpLine(StagedRecord(StagedNumber(c1), category.mgiTypeKey1, StagedNumber(c2), category.mgiTypeKey2, f[4], f[1]))
      else ""
  {
    StagedForChecked(category, f, c1, c2);
    BcpTextSnoc([], OptionToSeq(StagedFor(category, f)));
  }

  /** The bad-ID table after one line's two checks. */
  lemma BadIdsStep(d: OrderedDict<Role>, obj1Id: string, c1: IdCheck, obj2Id: string, c2: IdCheck)
    requires d.Valid()
    ensures var d1 := if !c1.WellFormed? then d.Put(obj1Id, Organizer) else d;
      var d2 := if c2.BadFormat? then d1.Put(obj2Id, Participant)
                else if c2.BadSuffix? then d1.Put(obj2Id, Organizer) else d1;
      PutAll(d, CheckedIdWrites(obj1Id, c1, obj2Id, c2)) == d2
  {
    var e1 := (obj1Id, Organizer);
    var e2 := (obj2Id, if c2.BadFormat? then Participant else Organizer);
    if !c1.WellFormed? && !c2.WellFormed? {
      assert CheckedIdWrites(obj1Id, c1, obj2Id, c2) == [e1, e2];
      PutAllTwo(d, e1, e2);
    } else if !c1.WellFormed? {
      assert CheckedIdWrites(obj1Id, c1, obj2Id, c2) == [e1];
      PutAllOne(d, e1);
    } else if !c2.WellFormed? {
      assert CheckedIdWrites(obj1Id, c1, obj2Id, c2) == [e2];
      PutAllOne(d, e2);
    } else {
      assert CheckedIdWrites(obj1Id, c1, obj2Id, c2) == [];
    }
  }

  /** The identity bcp text of the records staged so far and at most one
      more. */
  lemma BcpTextSnoc(records: seq<StagedRecord>, more: seq<StagedRecord>)
    requires |more| <= 1
    ensures BcpText(records + more) == BcpText(records) + (if |more| == 1 then BcpLine(more[0]) else "")
  {
    if |more| == 1 {
      assert (records + more)[..|records|] == records;
    } else {
      assert records + more == records;
    }
  }

  lemma BcpTextAppend(records: seq<StagedRecord>, more: seq<StagedRecord>)
    requires |more| <= 1
    ensures BcpText(records + more) == BcpText(records) + BcpText(more)
  {
    if |more| == 1 {
      assert (records + more)[..|records|] == records;
      assert more[..0] == [];
    } else {
      assert records + more == records;
    }
  }

  lemma FirstWinsSnoc<V>(entries: seq<(string, V)>, e: (string, V))
    ensures FirstWins(entries + [e]) ==
      if e.0 in FirstWins(entries) then FirstWins(entries) else FirstWins(entries)[e.0 := e.1]
  {
    assert (entries + [e])[..|entries|] == entries;
  }

  lemma EntriesSnoc(am: seq<AlleleMarkerRow>, i: nat)
    requires i < |am|
    ensures AlleleEntries(am[..i + 1]) ==
      AlleleEntries(am[..i]) + [(LookupId(am[i].mgiId1), ObjInfo(am[i].alleleKey, am[i].alleleSymbol))]
    ensures MarkerEntries(am[..i + 1], []) ==
      MarkerEntries(am[..i], []) + [(LookupId(am[i].mgiId2), ObjInfo(am[i].markerKey, am[i].markerSymbol))]
  {
    AlleleEntriesSnoc(am, i);
    RowMarkersSnoc(am, i);
  }

  lemma AlleleEntriesSnoc(am: seq<AlleleMarkerRow>, i: nat)
    requires i < |am|
    ensures AlleleEntries(am[..i + 1]) ==
      AlleleEntries(am[..i]) + [(LookupId(am[i].mgiId1), ObjInfo(am[i].alleleKey, am[i].alleleSymbol))]
  {
    var p := am[..i];
    var q := am[..i + 1];
    var a := AlleleEntries(q);
    var b := AlleleEntries(p) + [(LookupId(am[i].mgiId1), ObjInfo(am[i].alleleKey, am[i].alleleSymbol))];
    forall k | 0 <= k < |a| ensures a[k] == b[k] {
      if k < i {
        assert q[k] == p[k];
      }
    }
  }

  lemma RowMarkersSnoc(am: seq<AlleleMarkerRow>, i: nat)
    requires i < |am|
    ensures MarkerEntries(am[..i + 1], []) ==
      MarkerEntries(am[..i], []) + [(LookupId(am[i].mgiId2), ObjInfo(am[i].markerKey, am[i].markerSymbol))]
  {
    var p := am[..i];
    var q := am[..i + 1];
    var m := MarkerEntries(q, []);
    var n := MarkerEntries(p, []) + [(LookupId(am[i].mgiId2), ObjInfo(am[i].markerKey, am[i].markerSymbol))];
    assert |m| == |n|;
    forall k | 0 <= k < |m| ensures m[k] == n[k] {
      if k < i {
        assert q[k] == p[k];
      }
    }
  }

  /** The marker lookup after one more marker/marker row: its organizer,
      then its participant, each entered unless already present. */
  lemma MarkerPairStep(am: seq<AlleleMarkerRow>, mm: seq<MarkerMarkerRow>, j: nat)
    requires j < |mm|
    ensures var m := FirstWins(MarkerEntries(am, mm[..j]));
      var k1 := LookupId(mm[j].mgiId1);
      var k2 := LookupId(mm[j].mgiId2);
      var m1 := if k1 in m then m else m[k1 := ObjInfo(mm[j].markerKey1, mm[j].symbol1)];
      FirstWins(MarkerEntries(am, mm[..j + 1])) ==
        if k2 in m1 then m1 else m1[k2 := ObjInfo(mm[j].markerKey2, mm[j].symbol2)]
  {
    var r := mm[j];
    var e := MarkerEntries(am, mm[..j]);
    var e1 := (LookupId(r.mgiId1), ObjInfo(r.markerKey1, r.symbol1));
    var e2 := (LookupId(r.mgiId2), ObjInfo(r.markerKey2, r.symbol2));
    MarkerEntriesSnoc(am, mm, j);
    FirstWinsSnoc(e, e1);
    FirstWinsSnoc(e + [e1], e2);
  }

  /** One more marker/marker row adds its organizer, then its participant. */
  lemma MarkerEntriesSnoc(am: seq<AlleleMarkerRow>, mm: seq<MarkerMarkerRow>, j: nat)
    requires j < |mm|
    ensures MarkerEntries(am, mm[..j + 1]) ==
      (MarkerEntries(am, mm[..j]) + [(LookupId(mm[j].mgiId1), ObjInfo(mm[j].markerKey1, mm[j].symbol1))])
        + [(LookupId(mm[j].mgiId2), ObjInfo(mm[j].markerKey2, mm[j].symbol2))]
  {
    assert mm[..j + 1][..j] == mm[..j];
  }

  /** The verdict on a header that starts with `action`, given its
      bad-property entries and property columns. */
  lemma CheckHeaderBy(validProps: map<string, int>, header: string, entries: seq<string>, columns: seq<PropColumn>)
    requires HeaderTokens(header)[0] == "action"
    requires var tokens := HeaderTokens(header); var cells := Classify(validProps, tokens);
      entries == ScanEntries(cells, tokens, |tokens|) && columns == ScanColumns(cells, |tokens|)
    ensures CheckHeader(validProps, header) == if |entries| > 0 then InvalidProperties(entries) else HeaderOk(columns)
  {
  }

  /** The entries of one allele/marker query, built row by row. */
  method ReasonEntries(rows: seq<IdentityRow>, reason: string) returns (entries: seq<string>)
    ensures entries == ReasonEntryList(rows, reason)
  {
    entries := [];
    var i := 0;
    while i < |rows|
      invariant 0 <= i <= |rows|
      invariant entries == ReasonEntryList(rows[..i], reason)
    {
      assert rows[..i + 1][..i] == rows[..i];
      var r := rows[i];
      entries := entries + [IdentityEntry(r, reason)];
      i := i + 1;
    }
    assert rows[..i] == rows;
  }

  /** The six queries' entries, concatenated, hold exactly the allele/marker
      entries. */
  lemma AlleleMarkerEntriesOf(res: AlleleMarkerResults, e1: seq<string>, e2: seq<string>, e3: seq<string>,
                              e4: seq<string>, e5: seq<string>, e6: seq<string>)
    requires e1 == ReasonEntryList(res.orgMissing, "Organizer does not exist")
    requires e2 == ReasonEntryList(res.orgNotAllele, "Organizer exists for non-allele")
    requires e3 == ReasonEntryList(res.orgBadStatus, "Organizer allele status is invalid")
    requires e4 == ReasonEntryList(res.partMissing, "Participant does not exist")
    requires e5 == ReasonEntryList(res.partNotMarker, "Participant exists for non-marker")
    requires e6 == ReasonEntryList(res.partBadStatus, "Participant marker status is invalid")
    ensures forall e :: e in e1 + e2 + e3 + e4 + e5 + e6 <==> e in AlleleMarkerEntries(res)
  {
    ReasonEntryListSet(res.orgMissing, "Organizer does not exist");
    ReasonEntryListSet(res.orgNotAllele, "Organizer exists for non-allele");
    ReasonEntryListSet(res.orgBadStatus, "Organizer allele status is invalid");
    ReasonEntryListSet(res.partMissing, "Participant does not exist");
    ReasonEntryListSet(res.partNotMarker, "Participant exists for non-marker");
    ReasonEntryListSet(res.partBadStatus, "Participant marker status is invalid");
  }

  /** The entries of the six allele/marker queries, each query's rows in
      order with its reason: exactly the allele/marker entries. */
  method AlleleMarkerErrorList(res: AlleleMarkerResults) returns (errorList: seq<string>)
    ensures forall e :: e in errorList <==> e in AlleleMarkerEntries(res)
  {
    var e1 := ReasonEntries(res.orgMissing, "Organizer does not exist");
    var e2 := ReasonEntries(res.orgNotAllele, "Organizer exists for non-allele");
    var e3 := ReasonEntries(res.orgBadStatus, "Organizer allele status is invalid");
    var e4 := ReasonEntries(res.partMissing, "Participant does not exist");
    var e5 := ReasonEntries(res.partNotMarker, "Participant exists for non-marker");
    var e6 := ReasonEntries(res.partBadStatus, "Participant marker status is invalid");
    errorList := e1 + e2 + e3 + e4 + e5 + e6;
    AlleleMarkerEntriesOf(res, e1, e2, e3, e4, e5, e6);
  }

  /** `list(s)` for a set `s`: its elements, each once, in whichever order
      the set yields them. */
  method ListOfSet(s: set<string>) returns (order: seq<string>)
    ensures Enumerates(order, s)
  {
    order := [];
    var rest := s;
    while rest != {}
      invariant rest <= s
      invariant NoDuplicates(order)
      invariant forall e :: e in order <==> e in s && e !in rest
      decreases |rest|
    {
      var e :| e in rest;
      order := order + [e];
      rest := rest - {e};
    }
  }

  /** One more row of the `delRelDict` loop: it is appended to its key's
      list, and its key is added to the keys when new. */
  lemma GroupRowsStep(rows: seq<DbRow>, i: nat)
    requires i < |rows|
    ensures var m := GroupMap(rows[..i]); var r := rows[i];
      GroupMap(rows[..i + 1]) == m[r.relKey := (if r.relKey in m then m[r.relKey] else []) + [r]]
    ensures var keys := Dedup(RelKeys(rows[..i]));
      Dedup(RelKeys(rows[..i + 1])) == if rows[i].relKey in keys then keys else keys + [rows[i].relKey]
  {
    assert rows[..i + 1][..i] == rows[..i];
    RowsWithKeySnoc(rows, i);
    DedupSnoc(RelKeys(rows[..i]), rows[i].relKey);
  }

  /** The `delRelDict` loop of `processDelete`: the relationship keys in
      the order first seen, each mapped to its rows in query order. */
  method GroupRows(rows: seq<DbRow>) returns (relKeys: seq<int>, delRelDict: map<int, seq<DbRow>>)
    ensures relKeys == Dedup(RelKeys(rows))
    ensures forall k :: k in delRelDict <==> k in relKeys
    ensures forall k :: k in delRelDict ==> delRelDict[k] == RowsWithKey(rows, k)
  {
    relKeys := [];
    delRelDict := map[];
    var i := 0;
    while i < |rows|
      invariant 0 <= i <= |rows|
      invariant relKeys == Dedup(RelKeys(rows[..i]))
      invariant delRelDict == GroupMap(rows[..i])
      invariant forall k :: k in delRelDict <==> k in relKeys
    {
      var r := rows[i];
      GroupRowsStep(rows, i);
      ghost var before := delRelDict;
      if r.relKey !in delRelDict {
        relKeys := relKeys + [r.relKey];
        delRelDict := delRelDict[r.relKey := []];
      }
      delRelDict := delRelDict[r.relKey := delRelDict[r.relKey] + [r]];
      assert delRelDict == before[r.relKey := (if r.relKey in before then before[r.relKey] else []) + [r]];
      i := i + 1;
    }
    assert rows[..i] == rows;
    GroupMapSpec(rows);
  }

  /** The inner loop of `processDelete` over one relationship's rows: its
      property strings and its stripped notes, each kept once in the order
      first seen. */
  method DedupLists(rList: seq<DbRow>) returns (propList: seq<string>, noteList: seq<string>)
    ensures propList == Dedup(PropStrings(rList))
    ensures noteList == Dedup(NoteStrings(rList))
  {
    propList := [];
    noteList := [];
    var i := 0;
    while i < |rList|
      invariant 0 <= i <= |rList|
      invariant propList == Dedup(PropStrings(rList[..i]))
      invariant noteList == Dedup(NoteStrings(rList[..i]))
    {
      var r := rList[i];
      assert rList[..i + 1][..i] == rList[..i];
      if r.propName.Some? {
        var prop := r.propName.value + ":\"" + r.value + "\"";
        assert PropStrings(rList[..i + 1]) == PropStrings(rList[..i]) + [prop];
        DedupSnoc(PropStrings(rList[..i]), prop);
        if prop !in propList {
          propList := propList + [prop];
        }
      } else {
        assert PropStrings(rList[..i + 1]) == PropStrings(rList[..i]);
      }
      if r.note.Some? {
        var note := Strip(r.note.value);
        assert NoteStrings(rList[..i + 1]) == NoteStrings(rList[..i]) + [note];
        DedupSnoc(NoteStrings(rList[..i]), note);
        if note !in noteList {
          noteList := noteList + [note];
        }
      } else {
        assert NoteStrings(rList[..i + 1]) == NoteStrings(rList[..i]);
      }
      i := i + 1;
    }
    assert rList[..i] == rList;
  }

  /** The rest of `processDelete`, given the delete query's rows: grouped
      by relationship, then either the line's not-in-database entry or, for
      each relationship found, a preview line and a DELETE statement. */
  method ResolveRows(lk: Lookups, alleles: map<string, ObjInfo>, markers: map<string, ObjInfo>,
                     d: DeleteRequest, results: seq<DbRow>) returns (r: DeleteResult)
    requires DeleteResolvable(lk, d) && d.obj2Id in markers
    ensures r == Found(lk, alleles, markers, d, results)
  {
    var relKeys, delRelDict := GroupRows(results);
    assert relKeys == DeleteKeys(results);
    if |relKeys| == 0 {
      return NotInDb(NotInDbEntry(d.lineCt, d.line));
    }
    // Every relationship takes the same symbols, so a missing one raises
    // before anything is written.
    var symbols := if IsMarkerMarkerCategory(d.category.key) then markers else alleles;
    if d.obj1Id !in symbols {
      return DeleteCrash;
    }
    var previewLines, sqlLines := DeleteLines(d, symbols[d.obj1Id].symbol, markers[d.obj2Id].symbol,
                                              lk.relationships[d.relId].term, results, relKeys, delRelDict);
    r := Resolved(previewLines, sqlLines);
  }

  /** The preview lines and statements for one more relationship key. */
  lemma PreviewLinesSnoc(d: DeleteRequest, obj1Symbol: string, obj2Symbol: string, relTerm: string,
                         results: seq<DbRow>, relKeys: seq<int>, t: nat)
    requires t < |relKeys|
    ensures var rel := RowsWithKey(results, relKeys[t]);
      PreviewLines(d, obj1Symbol, obj2Symbol, relTerm, results, relKeys[..t + 1]) ==
        PreviewLines(d, obj1Symbol, obj2Symbol, relTerm, results, relKeys[..t]) +
        [PreviewLine(d, obj1Symbol, obj2Symbol, relTerm, Dedup(PropStrings(rel)), Dedup(NoteStrings(rel)))]
    ensures MapSeq(SqlLine, relKeys[..t + 1]) == MapSeq(SqlLine, relKeys[..t]) + [SqlLine(relKeys[t])]
  {
    var p := relKeys[..t + 1];
    assert p[..|p| - 1] == relKeys[..t];
    assert p[|p| - 1] == relKeys[t];
  }

  /** The loop of `processDelete` over the relationships found. */
  method DeleteLines(d: DeleteRequest, obj1Symbol: string, obj2Symbol: string, relTerm: string,
                     results: seq<DbRow>, relKeys: seq<int>, delRelDict: map<int, seq<DbRow>>)
    returns (previewLines: seq<string>, sqlLines: seq<string>)
    requires forall k :: k in delRelDict <==> k in relKeys
    requires forall k :: k in delRelDict ==> delRelDict[k] == RowsWithKey(results, k)
    ensures previewLines == PreviewLines(d, obj1Symbol, obj2Symbol, relTerm, results, relKeys)
    ensures sqlLines == MapSeq(SqlLine, relKeys)
  {
    previewLines, sqlLines := [], [];
    var t := 0;
    while t < |relKeys|
      invariant 0 <= t <= |relKeys|
      invariant previewLines == PreviewLines(d, obj1Symbol, obj2Symbol, relTerm, results, relKeys[..t])
      invariant sqlLines == MapSeq(SqlLine, relKeys[..t])
    {
      var rKey := relKeys[t];
      PreviewLinesSnoc(d, obj1Symbol, obj2Symbol, relTerm, results, relKeys, t);
      var rList := delRelDict[rKey];
      assert rList == RowsWithKey(results, rKey);
      var propList, noteList := DedupLists(rList);
      previewLines := previewLines + [PreviewLine(d, obj1Symbol, obj2Symbol, relTerm, propList, noteList)];
      sqlLines := sqlLines + [SqlLine(rKey)];
      t := t + 1;
    }
    assert relKeys[..t] == relKeys;
  }

  /** The rows the identity queries return once the staged IDs are in the
      temporary table: the allele/marker checks, their secondary IDs and
      chromosome mismatches, then the marker/marker checks and their
      secondary IDs. */
  datatype IdentityResults = IdentityResults(
    alleleMarker: AlleleMarkerResults,
    amSecOrg: seq<SecondaryRow>, amSecPart: seq<SecondaryRow>,
    chromRows: seq<ChromosomeRow>,
    mmOrg: seq<IdentityRow>, mmPart: seq<IdentityRow>,
    mmSecOrg: seq<SecondaryRow>, mmSecPart: seq<SecondaryRow>)

  /** Some identity query found a fatal problem (chromosome mismatches are
      only a warning). */
  predicate IdentityErrors(q: IdentityResults) {
    || AnyAlleleMarkerErrors(q.alleleMarker) || |q.amSecOrg| > 0 || |q.amSecPart| > 0
    || |q.mmOrg| > 0 || |q.mmPart| > 0 || |q.mmSecOrg| > 0 || |q.mmSecPart| > 0
  }

  /** How a run ends: with an exit status, or by an exception. */
  datatype RunOutcome = Exit(status: int) | Raised

  class FearQc {
    const lookups: Lookups
    /** The delete query: the rows it returns for each uniqueness key. */
    const db: map<DeleteKey, seq<DbRow>>
    /** `float(s)` does not raise. */
    const isFloat: string -> bool

    var hasFatalErrors: bool
    var numHeaderColumns: nat
    var badIds: OrderedDict<Role>
    var idBcp: string
    var alleles: map<string, ObjInfo>
    var markers: map<string, ObjInfo>
    var badProps: seq<string>
    var props: seq<PropColumn>
    var errors: ErrorLists
    var deleteRptList: seq<string>
    var deleteSql: string
    var qcRpt: string
    var warnRpt: string
    var deleteRpt: string

    /** The part of the state the row loop changes. */
    function State(): RowState
      reads this
    {
      RowState(hasFatalErrors, errors, props, deleteRptList, deleteSql)
    }

    /** What the row checks consult. */
    function Env(): RowEnv
      reads this
    {
      RowEnv(lookups, alleles, markers, numHeaderColumns, db)
    }

    /** `init`'s lookups filled from their queries' rows, every key
        lower-cased and a later row replacing an earlier one; every list and
        table empty and no fatal error yet. */
    constructor(categoryRows: seq<Category>, relationshipRows: seq<(string, RelTerm)>,
                qualifierRows: seq<(string, int)>, evidenceRows: seq<(string, int)>,
                jNumRows: seq<(string, int)>, userRows: seq<(string, int)>,
                propertyRows: seq<(string, int)>, db: map<DeleteKey, seq<DbRow>>,
                isFloat: string -> bool)
      ensures lookups == InitLookups(categoryRows, relationshipRows, qualifierRows, evidenceRows,
                                     jNumRows, userRows, propertyRows)
      ensures this.db == db && this.isFloat == isFloat
      ensures !hasFatalErrors && badIds == EmptyDict() && idBcp == ""
      ensures alleles == map[] && markers == map[] && badProps == [] && props == []
      ensures errors == map[] && deleteRptList == [] && deleteSql == ""
      ensures qcRpt == "" && warnRpt == "" && deleteRpt == ""
    {
      var lk := FillLookups(categoryRows, relationshipRows, qualifierRows, evidenceRows,
                            jNumRows, userRows, propertyRows);
      lookups := lk;
      this.db := db;
      this.isFloat := isFloat;
      hasFatalErrors := false;
      numHeaderColumns := 0;
      badIds := EmptyDict();
      idBcp := "";
      alleles := map[];
      markers := map[];
      badProps := [];
      props := [];
      errors := map[];
      deleteRptList := [];
      deleteSql := "";
      qcRpt := "";
      warnRpt := "";
      deleteRpt := "";
    }

    /** The organizer ID check of `loadTempTables`: a rejected ID is
        entered in the bad-ID table as an organizer. */
    method CheckOrganizer(obj1Id: string) returns (c1: IdCheck)
      requires badIds.Valid()
      modifies this`badIds
      ensures c1 == CheckId(obj1Id)
      ensures badIds == if c1.WellFormed? then old(badIds) else old(badIds).Put(obj1Id, Organizer)
    {
      c1 := CheckId(obj1Id);
      if !c1.WellFormed? {
        badIds := badIds.Put(obj1Id, Organizer);
      }
    }

    /** The participant ID check of `loadTempTables`: a malformed ID is
        entered as a participant, but one whose suffix is not an integer
        as an organizer. */
    method CheckParticipant(obj2Id: string) returns (c2: IdCheck)
      requires badIds.Valid()
      modifies this`badIds
      ensures c2 == CheckId(obj2Id)
      ensures badIds == if c2.BadFormat? then old(badIds).Put(obj2Id, Participant)
                        else if c2.BadSuffix? then old(badIds).Put(obj2Id, Organizer) else old(badIds)
    {
      c2 := CheckId(obj2Id);
      if c2.BadFormat? {
        badIds := badIds.Put(obj2Id, Participant);
      } else if c2.BadSuffix? {
        badIds := badIds.Put(obj2Id, Organizer);
      }
    }

    /** The body of the `loadTempTables` loop for a line of known category:
        both IDs checked, the rejected ones entered in the bad-ID table, and
        the line's bcp record written when one of its IDs is accepted. */
    method StageLine(category: Category, f: seq<string>)
      requires |f| == 13 && badIds.Valid()
      modifies this`badIds, this`idBcp
      ensures badIds.Valid() && badIds == PutAll(old(badIds), BadIdWrites(f[2], f[6]))
      ensures idBcp == old(idBcp) + BcpText(OptionToSeq(StagedFor(category, f)))
    {
      var obj1Id, obj2Id := f[2], f[6];
      var c1 := CheckOrganizer(obj1Id);
      var c2 := CheckParticipant(obj2Id);
      BadIdsStep(old(badIds), obj1Id, c1, obj2Id, c2);
      StagedBcp(category, f, c1, c2);
      if c1.WellFormed? || c2.WellFormed? {
        var rec := StagedRecord(StagedNumber(c1), category.mgiTypeKey1, StagedNumber(c2),
                                category.mgiTypeKey2, f[4], f[1]);
        idBcp := idBcp + BcpLine(rec);
      } else {
        assert idBcp + "" == idBcp;
      }

    }

    /** `loadTempTables`: the header's column count, then each data line
        staged until a line is too short or names an unknown category. */
    method LoadTempTables(header: string, lines: seq<string>) returns (outcome: StageOutcome)
      requires badIds.Valid()
      modifies this`numHeaderColumns, this`badIds, this`idBcp
      ensures numHeaderColumns == |Split(header, TAB)|
      ensures badIds.Valid()
      ensures outcome == StageLines(lookups.categories, lines)
      ensures outcome.Staged? ==>
        badIds == PutAll(old(badIds), outcome.badIdWrites) && idBcp == old(idBcp) + BcpText(outcome.records)
    {
      numHeaderColumns := |Split(header, TAB)|;
      var i := 0;
      ghost var w: seq<(string, Role)> := [];
      ghost var recs: seq<StagedRecord> := [];
      while i < |lines|
        invariant 0 <= i <= |lines|
        invariant numHeaderColumns == |Split(header, TAB)|
        invariant StageLines(lookups.categories, lines[..i]) == Staged(w, recs)
        invariant badIds.Valid() && badIds == PutAll(old(badIds), w)
        invariant idBcp == old(idBcp) + BcpText(recs)
      {
        var line := lines[i];
        if |Split(line, TAB)| < 13 {
          StageShort(lookups.categories, lines, i);
          return ShortLine(i);
        }
        var f := StagingFields(line);
        if f[1] !in lookups.categories {
          StageUnknown(lookups.categories, lines, i);
          return UnknownCategory(f[1]);
        }
        ghost var more := OptionToSeq(StagedFor(lookups.categories[f[1]], f));
        StageStep(lookups.categories, lines, i);
        PutAllAppend(old(badIds), w, BadIdWrites(f[2], f[6]));
        BcpTextAppend(recs, more);
        AppendAssoc(old(idBcp), BcpText(recs), BcpText(more));
        StageLine(lookups.categories[f[1]], f);
        w := w + BadIdWrites(f[2], f[6]);
        recs := recs + more;
        i := i + 1;
      }
      assert lines[..|lines|] == lines;
      outcome := StageLines(lookups.categories, lines);
    }

    /** `loadTempTableLookups`: the allele and marker lookups of the staged
        IDs, filled from the two joins' rows; an ID already present keeps
        its first entry. */
    method LoadTempTableLookups(am: seq<AlleleMarkerRow>, mm: seq<MarkerMarkerRow>)
      requires alleles == map[] && markers == map[]
      modifies this`alleles, this`markers
      ensures alleles == FirstWins(AlleleEntries(am))
      ensures markers == FirstWins(MarkerEntries(am, mm))
    {
      LoadAlleleMarkerRows(am);
      LoadMarkerPairs(am, mm);
    }

    /** The first join of `loadTempTableLookups`: the allele and the marker
        of each allele/marker row. */
    method LoadAlleleMarkerRows(am: seq<AlleleMarkerRow>)
      requires alleles == map[] && markers == map[]
      modifies this`alleles, this`markers
      ensures alleles == FirstWins(AlleleEntries(am))
      ensures markers == FirstWins(MarkerEntries(am, []))
    {
      var i := 0;
      while i < |am|
        invariant 0 <= i <= |am|
        invariant alleles == FirstWins(AlleleEntries(am[..i]))
        invariant markers == FirstWins(MarkerEntries(am[..i], []))
      {
        LoadAlleleMarkerRow(am, i);
        i := i + 1;
      }
      assert am[..|am|] == am;
    }

    /** One allele/marker row: its allele and its marker, each entered
        unless already present. */
    method LoadAlleleMarkerRow(am: seq<AlleleMarkerRow>, i: nat)
      requires i < |am|
      requires alleles == FirstWins(AlleleEntries(am[..i]))
      requires markers == FirstWins(MarkerEntries(am[..i], []))
      modifies this`alleles, this`markers
      ensures alleles == FirstWins(AlleleEntries(am[..i + 1]))
      ensures markers == FirstWins(MarkerEntries(am[..i + 1], []))
    {
      var r := am[i];
      EntriesSnoc(am, i);
      var alleleId := LookupId(r.mgiId1);
      var markerId := LookupId(r.mgiId2);
      FirstWinsSnoc(AlleleEntries(am[..i]), (alleleId, ObjInfo(r.alleleKey, r.alleleSymbol)));
      FirstWinsSnoc(MarkerEntries(am[..i], []), (markerId, ObjInfo(r.markerKey, r.markerSymbol)));
      if alleleId !in alleles {
        alleles := alleles[alleleId := ObjInfo(r.alleleKey, r.alleleSymbol)];
      }
      if markerId !in markers {
        markers := markers[markerId := ObjInfo(r.markerKey, r.markerSymbol)];
      }
    }

    /** The second join of `loadTempTableLookups`: both markers of each
        marker/marker row, the organizer's first. */
    method LoadMarkerPairs(am: seq<AlleleMarkerRow>, mm: seq<MarkerMarkerRow>)
      requires markers == FirstWins(MarkerEntries(am, []))
      modifies this`markers
      ensures markers == FirstWins(MarkerEntries(am, mm))
    {
      var j := 0;
      while j < |mm|
        invariant 0 <= j <= |mm|
        invariant markers == FirstWins(MarkerEntries(am, mm[..j]))
      {
        var r := mm[j];
        var markerId1 := LookupId(r.mgiId1);
        var markerId2 := LookupId(r.mgiId2);
        MarkerPairStep(am, mm, j);
        if markerId1 !in markers {
          markers := markers[markerId1 := ObjInfo(r.markerKey1, r.symbol1)];
        }
        if markerId2 !in markers {
          markers := markers[markerId2 := ObjInfo(r.markerKey2, r.symbol2)];
        }
        j := j + 1;
      }
      assert mm[..|mm|] == mm;
    }

    /** The body of the `qcHeader` loop for the cell `h` in column `colCt`. */
    method QcHeaderCell(h: string, colCt: nat)
      modifies this`badProps, this`props
      ensures var c := ClassifyCell(lookups.validProps, colCt, h);
        badProps == old(badProps) + CellEntries(c, h) && props == old(props) + CellColumns(c, colCt)
    {
      ghost var c := ClassifyCell(lookups.validProps, colCt, h);
      if Find(h, ':') != 0 {
        var tokens := StripAll(Split(h, ':'));
        if tokens[0] == "property" {
          if |tokens| != 2 {
            assert c == BadPropertyFormat;
            badProps := badProps + [BadPropEntry(h, "Property header with invalid format")];
          } else if colCt <= NUM_NON_PROP_COLUMNS {
            assert c == PropertyInFixedColumn;
            badProps := badProps + [BadPropEntry(h, "Property header in column 1-13")];
          } else {
            var value := tokens[1];
            if value !in lookups.validProps {
              assert c == UnknownProperty;
              badProps := badProps + [BadPropEntry(Strip(h), "Invalid property value")];
            } else {
              assert c == KnownProperty(value);
              props := props + [PropColumn(colCt - 14, value, false)];
            }
          }
        } else {
          assert c == OtherCell;
        }
      } else {
        assert c == OtherCell;
      }
    }

    /** The `qcHeader` loop over the cells of the lower-cased header. */
    method ScanHeader(headerTokens: seq<string>)
      requires badProps == [] && props == []
      modifies this`badProps, this`props
      ensures var cells := Classify(lookups.validProps, headerTokens);
        badProps == ScanEntries(cells, headerTokens, |headerTokens|) && props == ScanColumns(cells, |headerTokens|)
    {
      ghost var cells := Classify(lookups.validProps, headerTokens);
      assert |cells| == |headerTokens| &&
        forall i :: 0 <= i < |headerTokens| ==> cells[i] == ClassifyCell(lookups.validProps, i + 1, headerTokens[i]);
      var colCt := 0;
      while colCt < |headerTokens|
        invariant 0 <= colCt <= |headerTokens|
        invariant badProps == ScanEntries(cells, headerTokens, colCt)
        invariant props == ScanColumns(cells, colCt)
      {
        var h := headerTokens[colCt];
        colCt := colCt + 1;
        assert cells[colCt - 1] == ClassifyCell(lookups.validProps, colCt, h);
        assert ScanEntries(cells, headerTokens, colCt) ==
          ScanEntries(cells, headerTokens, colCt - 1) + CellEntries(cells[colCt - 1], h);
        assert ScanColumns(cells, colCt) == ScanColumns(cells, colCt - 1) + CellColumns(cells[colCt - 1], colCt);
        QcHeaderCell(h, colCt);
      }
    }

    /** `qcHeader`: the cells of the lower-cased header judged in column
        order. A header that does not start with `action` or has a rejected
        cell gets its report written (the run then ends with status 2). */
    method QcHeader(header: string) returns (outcome: HeaderOutcome)
      requires badProps == [] && props == []
      modifies this`badProps, this`props, this`qcRpt
      ensures outcome == CheckHeader(lookups.validProps, header)
      ensures qcRpt == old(qcRpt) + HeaderReport(outcome)
      ensures outcome.InvalidProperties? ==> badProps == outcome.entries
      ensures outcome.HeaderOk? ==> badProps == [] && props == outcome.props
    {
      var headerTokens := Split(Lower(header), TAB);
      if headerTokens[0] != "action" {
        qcRpt := qcRpt + "!!!!No Header Line in File!!!!";
        return NoHeaderLine;
      }
      ScanHeader(headerTokens);
      CheckHeaderBy(lookups.validProps, header, badProps, props);
      if |badProps| > 0 {
        outcome := InvalidProperties(badProps);
        qcRpt := qcRpt + HeaderReport(outcome);
      } else {
        outcome := HeaderOk(props);
      }
    }

    /** The entries of the bad-ID table, built in table order. */
    method InvalidIdList() returns (badIdList: seq<string>)
      requires badIds.Valid()
      ensures badIdList == InvalidIdEntries(badIds)
    {
      badIdList := [];
      var i := 0;
      while i < |badIds.keys|
        invariant 0 <= i <= |badIds.keys|
        invariant badIdList == MapSeq(InvalidIdEntry, badIds.Items()[..i])
      {
        assert badIds.Items()[..i + 1][..i] == badIds.Items()[..i];
        var id := badIds.keys[i];
        badIdList := badIdList + [InvalidIdEntry((id, badIds.values[id]))];
        i := i + 1;
      }
      assert badIds.Items()[..i] == badIds.Items();
    }

    /** `qcInvalidMgiPrefix`: one entry per ID of the bad-ID table, in
        table order; when there is any, the run is fatal and the section is
        written. */
    method QcInvalidMgiPrefix()
      requires badIds.Valid()
      modifies this`hasFatalErrors, this`qcRpt
      ensures hasFatalErrors <==> old(hasFatalErrors) || |badIds.keys| > 0
      ensures qcRpt == old(qcRpt) + InvalidIdText(badIds)
    {
      var badIdList := InvalidIdList();
      InvalidIdEntriesSpec(badIds);
      if |badIdList| > 0 {
        hasFatalErrors := true;
        qcRpt := qcRpt + (InvalidIdHeading + Join(badIdList, [CRT]));
      }
    }

    /** The secondary-ID lines of one role, written one by one. */
    method WriteSecondaryLines(rows: seq<SecondaryRow>, which: Role)
      modifies this`qcRpt
      ensures qcRpt == old(qcRpt) + SecondaryLines(rows, which)
    {
      var i := 0;
      while i < |rows|
        invariant 0 <= i <= |rows|
        invariant qcRpt == old(qcRpt) + SecondaryLines(rows[..i], which)
      {
        SecondaryLinesSnoc(rows, i, which);
        var r := rows[i];
        AppendAssoc(old(qcRpt), SecondaryLines(rows[..i], which), SecondaryLine(r, which));
        qcRpt := qcRpt + SecondaryLine(r, which);
        i := i + 1;
      }
      assert rows[..|rows|] == rows;
    }

    /** The secondary-ID section both identity checks end with: fatal, and
        written, when either query found rows. */
    method QcSecondary(kind: string, orgRows: seq<SecondaryRow>, partRows: seq<SecondaryRow>)
      modifies this`hasFatalErrors, this`qcRpt
      ensures hasFatalErrors <==> old(hasFatalErrors) || |orgRows| > 0 || |partRows| > 0
      ensures qcRpt == old(qcRpt) + SecondaryText(kind, orgRows, partRows)
    {
      if |orgRows| > 0 || |partRows| > 0 {
        hasFatalErrors := true;
        var heading := SecondaryHeading(kind);
        qcRpt := qcRpt + heading;
        WriteSecondaryLines(orgRows, Organizer);
        WriteSecondaryLines(partRows, Participant);
        AppendAssoc(old(qcRpt) + heading, SecondaryLines(orgRows, Organizer), SecondaryLines(partRows, Participant));
        AppendAssoc(old(qcRpt), heading, SecondaryLines(orgRows, Organizer));
        AppendAssoc(old(qcRpt), heading + SecondaryLines(orgRows, Organizer), SecondaryLines(partRows, Participant));
      } else {
        assert old(qcRpt) + "" == old(qcRpt);
      }
    }

    /** The marker/marker lines of one role, written one by one. */
    method WriteMarkerLines(role: Role, rows: seq<IdentityRow>)
      modifies this`qcRpt
      ensures qcRpt == old(qcRpt) + MarkerLines(role, rows)
    {
      var text := "";
      var i := 0;
      while i < |rows|
        invariant 0 <= i <= |rows|
        invariant text == MarkerLines(role, rows[..i])
        invariant qcRpt == old(qcRpt)
      {
        MarkerLinesSnoc(role, rows, i);
        var reason := MarkerReason(role, rows[i]);
        var line := IdentityEntry(rows[i], reason) + [CRT];
        assert line == MarkerLine(role, rows[i]);
        text := text + line;
        i := i + 1;
      }
      assert rows[..i] == rows;
      assert text == MarkerLines(role, rows);
      qcRpt := qcRpt + text;
    }

    /** `qcOrgMarkerPartMarker`, its queries' rows given: the marker/marker
        section and the secondary-ID section, each making the run fatal
        when its queries found rows. */
    method QcOrgMarkerPartMarker(orgRows: seq<IdentityRow>, partRows: seq<IdentityRow>,
                                 secOrg: seq<SecondaryRow>, secPart: seq<SecondaryRow>)
      modifies this`hasFatalErrors, this`qcRpt
      ensures hasFatalErrors <==>
        old(hasFatalErrors) || |orgRows| > 0 || |partRows| > 0 || |secOrg| > 0 || |secPart| > 0
      ensures qcRpt == old(qcRpt) + MarkerMarkerText(orgRows, partRows) + SecondaryText("Marker/Marker", secOrg, secPart)
    {
      QcMarkerMarkerEntries(orgRows, partRows);
      QcSecondary("Marker/Marker", secOrg, secPart);
    }

    /** The marker/marker section of `qcOrgMarkerPartMarker`: the heading
        when either query found rows, which makes the run fatal, then the
        organizer lines and the participant lines. */
    method QcMarkerMarkerEntries(orgRows: seq<IdentityRow>, partRows: seq<IdentityRow>)
      modifies this`hasFatalErrors, this`qcRpt
      ensures hasFatalErrors <==> old(hasFatalErrors) || |orgRows| > 0 || |partRows| > 0
      ensures qcRpt == old(qcRpt) + MarkerMarkerText(orgRows, partRows)
    {
      var heading := "";
      if |orgRows| > 0 || |partRows| > 0 {
        hasFatalErrors := true;
        heading := MarkerMarkerHeading;
        qcRpt := qcRpt + heading;
      }
      WriteMarkerLines(Organizer, orgRows);
      WriteMarkerLines(Participant, partRows);
      AppendAssoc3(old(qcRpt), heading, MarkerLines(Organizer, orgRows), MarkerLines(Participant, partRows));
    }

    /** The chromosome warning of `qcOrgAllelePartMarker`: one entry per row
        of the chromosome query, built row by row, written when there is
        any. */
    method QcChromosomes(chromRows: seq<ChromosomeRow>)
      modifies this`warnRpt
      ensures warnRpt == old(warnRpt) + ChromosomeWarning(chromRows)
    {
      if |chromRows| == 0 {
        assert old(warnRpt) + "" == old(warnRpt);
        return;
      }
      var rptList: seq<string> := [];
      var i := 0;
      while i < |chromRows|
        invariant 0 <= i <= |chromRows|
        invariant rptList == MapSeq(ChromosomeEntry, chromRows[..i])
        invariant |rptList| == i
      {
        assert chromRows[..i + 1][..i] == chromRows[..i];
        var r := chromRows[i];
        rptList := rptList + [ChromosomeEntry(r)];
        i := i + 1;
      }
      assert chromRows[..i] == chromRows;
      if |rptList| > 0 {
        var text := ChromosomeHeading + Join(rptList, [CRT]) + [CRT];
        warnRpt := warnRpt + text;
      }
    }

    /** `qcOrgAllelePartMarker`, its queries' rows given: the allele/marker
        section (its entries in the order `order` in which the set of them
        is listed), the secondary-ID section, and the chromosome warning.
        The first two make the run fatal when their queries found rows. */
    method QcOrgAllelePartMarker(res: AlleleMarkerResults, secOrg: seq<SecondaryRow>, secPart: seq<SecondaryRow>,
                                 chromRows: seq<ChromosomeRow>) returns (order: seq<string>)
      modifies this`hasFatalErrors, this`qcRpt, this`warnRpt
      ensures Enumerates(order, AlleleMarkerEntries(res))
      ensures hasFatalErrors <==> old(hasFatalErrors) || AnyAlleleMarkerErrors(res) || |secOrg| > 0 || |secPart| > 0
      ensures qcRpt == old(qcRpt) + AlleleMarkerText(res, order) + SecondaryText("Allele/Marker", secOrg, secPart)
      ensures warnRpt == old(warnRpt) + ChromosomeWarning(chromRows)
    {
      order := QcAlleleMarkerEntries(res);
      QcSecondary("Allele/Marker", secOrg, secPart);
      QcChromosomes(chromRows);
    }

    /** The allele/marker section of `qcOrgAllelePartMarker`: the heading
        when some query found rows, which makes the run fatal, then the
        set of entries in the order `order` in which the set yields them. */
    method QcAlleleMarkerEntries(res: AlleleMarkerResults) returns (order: seq<string>)
      modifies this`hasFatalErrors, this`qcRpt
      ensures Enumerates(order, AlleleMarkerEntries(res))
      ensures hasFatalErrors <==> old(hasFatalErrors) || AnyAlleleMarkerErrors(res)
      ensures qcRpt == old(qcRpt) + AlleleMarkerText(res, order)
    {
      var heading := "";
      if AnyAlleleMarkerErrors(res) {
        hasFatalErrors := true;
        heading := AlleleMarkerHeading;
        qcRpt := qcRpt + heading;
      }
      var errorList := AlleleMarkerErrorList(res);
      assert (set e | e in errorList) == AlleleMarkerEntries(res);
      order := ListOfSet(set e | e in errorList);
      qcRpt := qcRpt + Join(order, [CRT]);
      AppendAssoc(old(qcRpt), heading, Join(order, [CRT]));
    }

    /** `processDelete`: the line's uniqueness key resolved to database keys
        (an organizer or participant missing from its lookup raises), then
        the delete query's rows handled. */
    method ProcessDelete(d: DeleteRequest) returns (crashed: bool)
      requires DeleteResolvable(lookups, d)
      modifies this`errors, this`deleteRptList, this`deleteSql
      ensures var r := ResolveDelete(lookups, alleles, markers, db, d);
        && (crashed <==> r.DeleteCrash?)
        && (!crashed ==> State() == ApplyDelete(old(State()), r).st)
    {
      var orgLookup := if d.category.mgiTypeKey1 == ALLELE_TYPE then alleles else markers;
      if d.obj1Id !in orgLookup || d.obj2Id !in markers {
        assert QueryKey(lookups, alleles, markers, d) == None;
        return true;
      }
      var key := DeleteKey(d.category.key, orgLookup[d.obj1Id].key, lookups.relationships[d.relId].objectKey,
                           markers[d.obj2Id].key, lookups.qualifiers[d.qual], lookups.evidence[d.evid],
                           lookups.jNums[d.jNum]);
      assert QueryKey(lookups, alleles, markers, d) == Some(key);
      var r := ResolveRows(lookups, alleles, markers, d, Query(db, key));
      crashed := ApplyResult(r);
    }

    /** A resolved delete line's outcome: the not-in-database entry or the
        preview and SQL lines added to what the run has gathered. */
    method ApplyResult(r: DeleteResult) returns (crashed: bool)
      modifies this`errors, this`deleteRptList, this`deleteSql
      ensures crashed <==> r.DeleteCrash?
      ensures !crashed ==> State() == ApplyDelete(old(State()), r).st
    {
      match r
      case DeleteCrash =>
        crashed := true;
      case NotInDb(entry) =>
        errors := Append(errors, DeleteNotInDbSec, entry);
        crashed := false;
      case Resolved(previewLines, sqlLines) =>
        deleteRptList := deleteRptList + previewLines;
        deleteSql := deleteSql + Concat(sqlLines);
        crashed := false;
    }

    /** A failed check: its entry appended and the run made fatal. */
    method Record(s: Section, entry: string)
      modifies this`hasFatalErrors, this`errors
      ensures State() == Flag(old(State()), s, entry)
    {
      hasFatalErrors := true;
      errors := Append(errors, s, entry);
    }

    /** The property pass of an add line: each column that has a value is
        marked as having data, and a score value that is not a number once
        a leading sign is removed is entered as invalid. */
    method QcProperties(lineCt: nat, values: seq<string>)
      requires PropsFit(props, values)
      modifies this`props, this`errors, this`hasFatalErrors
      ensures State() == CheckProperties(old(State()), isFloat, lineCt, values)
    {
      ghost var p0 := props;
      var k := 0;
      while k < |props|
        invariant 0 <= k <= |props| == |p0|
        invariant forall j :: 0 <= j < k ==> props[j] == MarkColumn(p0[j], values)
        invariant forall j :: k <= j < |props| ==> props[j] == p0[j]
        invariant errors == AppendAll(old(errors), BadPropValueSec, ScoreEntries(p0[..k], values, isFloat, lineCt))
        invariant hasFatalErrors == (old(hasFatalErrors) || |ScoreEntries(p0[..k], values, isFloat, lineCt)| > 0)
      {
        ScoreEntriesSnoc(p0, values, isFloat, lineCt, k);
        ghost var bad := ScoreEntries(p0[..k], values, isFloat, lineCt);
        ghost var more := if BadScore(p0[k], values, isFloat)
          then [BadScoreEntry(lineCt, p0[k].name, ScoreValue(values[p0[k].index]))] else [];
        AppendAllTwice(old(errors), BadPropValueSec, bad, more);
        QcProperty(k, lineCt, values);
        k := k + 1;
      }
      assert p0[..k] == p0;
      assert props == MarkColumns(p0, values);
    }

    /** One property column of an add line. */
    method QcProperty(k: nat, lineCt: nat, values: seq<string>)
      requires k < |props| && props[k].index < |values|
      modifies this`props, this`errors, this`hasFatalErrors
      ensures props == old(props)[k := MarkColumn(old(props)[k], values)]
      ensures var bad := BadScore(old(props)[k], values, isFloat);
        && errors == AppendAll(old(errors), BadPropValueSec,
             if bad then [BadScoreEntry(lineCt, old(props)[k].name, ScoreValue(values[old(props)[k].index]))] else [])
        && (hasFatalErrors <==> old(hasFatalErrors) || bad)
    {
      var p := props[k];
      var propertyValue := values[p.index];
      if propertyValue != "" {
        props := props[k := p.(hasData := true)];
      } else {
        assert props == props[k := MarkColumn(p, values)];
      }
      if p.name == "score" && propertyValue != "" {
        if Find(propertyValue, '+') == 0 || Find(propertyValue, '-') == 0 {
          propertyValue := propertyValue[1..];
        }
        if !isFloat(propertyValue) {
          hasFatalErrors := true;
          errors := Append(errors, BadPropValueSec, BadScoreEntry(lineCt, p.name, propertyValue));
        }
      }
    }

    /** One data line of `runQcChecks`, number `lineCt`: the column count,
        the action, the category (the rest skipped when unknown), the
        lookups, then a delete resolved when no fatal error is recorded or
        an add's properties checked. `crashed` when the delete raises. */
    method QcLine(lineCt: nat, line: string) returns (crashed: bool)
      requires |Split(line, TAB)| >= 13
      requires PropsWithin(props, numHeaderColumns)
      modifies this`hasFatalErrors, this`errors, this`props, this`deleteRptList, this`deleteSql
      ensures var r := CheckRow(Env(), isFloat, old(State()), lineCt, line);
        && (crashed <==> r.RowCrash?)
        && (!crashed ==> State() == r.st)
    {
      var values := PropertyValues(line);
      if |values| + NUM_NON_PROP_COLUMNS < numHeaderColumns {
        Record(MissingPropColumnSec, LineEntry(lineCt, line));
        return false;
      }
      var f := FixedFields(line);
      if f[1] !in lookups.categories {
        QcAction(lineCt, f[0]);
        Record(CategorySec, LineEntry(lineCt, f[1]));
        return false;
      }
      crashed := QcCategorized(lineCt, line, f, values);
    }

    /** A line of a known category: the action and the lookups, then the
        delete or the property pass. */
    method QcCategorized(lineCt: nat, line: string, f: seq<string>, values: seq<string>) returns (crashed: bool)
      requires |f| == 13 && f[1] in lookups.categories
      requires PropsFit(props, values)
      modifies this`hasFatalErrors, this`errors, this`props, this`deleteRptList, this`deleteSql
      ensures var r := CheckedRow(Env(), isFloat, Validated(Env(), old(State()), lineCt, f), lineCt, line, f, values);
        && (crashed <==> r.RowCrash?)
        && (!crashed ==> State() == r.st)
    {
      var c := lookups.categories[f[1]];
      QcAction(lineCt, f[0]);
      var qual := if f[8] == "" then "not specified" else f[8];
      QcTerms(lineCt, qual, f[9], f[10], f[11]);
      QcRelationship(c, lineCt, f[4]);
      crashed := QcChecked(lineCt, line, f, values);
    }

    /** The action check of a line. */
    method QcAction(lineCt: nat, action: string)
      modifies this`hasFatalErrors, this`errors
      ensures State() == CheckAction(old(State()), lineCt, action)
    {
      if action != "add" && action != "delete" {
        Record(ActionSec, LineEntry(lineCt, action));
      }
    }

    /** After the lookups: a delete processed only while the run has no
        fatal error; the properties of an add line checked. */
    method QcChecked(lineCt: nat, line: string, f: seq<string>, values: seq<string>) returns (crashed: bool)
      requires |f| == 13 && f[1] in lookups.categories
      requires PropsFit(props, values)
      requires !hasFatalErrors ==>
        && DefaultQualifier(f[8]) in lookups.qualifiers && f[9] in lookups.evidence
        && f[10] in lookups.jNums && f[4] in lookups.relationships
      modifies this`hasFatalErrors, this`errors, this`props, this`deleteRptList, this`deleteSql
      ensures var r := CheckedRow(Env(), isFloat, old(State()), lineCt, line, f, values);
        && (crashed <==> r.RowCrash?)
        && (!crashed ==> State() == r.st)
    {
      crashed := false;
      if f[0] == "delete" && !hasFatalErrors {
        crashed := ProcessDelete(RequestOf(lookups.categories[f[1]], f, line, lineCt));
      } else if f[0] == "add" {
        QcProperties(lineCt, values);
      }
    }

    /** The qualifier, evidence, J number and creator lookups of a line. */
    method QcTerms(lineCt: nat, qual: string, evid: string, jNum: string, creator: string)
      modifies this`hasFatalErrors, this`errors
      ensures State() == CheckTerms(lookups, old(State()), lineCt, qual, evid, jNum, creator)
    {
      if qual !in lookups.qualifiers {
        Record(QualifierSec, LineEntry(lineCt, qual));
      }
      if evid !in lookups.evidence {
        Record(EvidenceSec, LineEntry(lineCt, evid));
      }
      if jNum !in lookups.jNums {
        Record(JNumSec, LineEntry(lineCt, jNum));
      }
      if creator !in lookups.users {
        Record(UserSec, LineEntry(lineCt, creator));
      }
    }

    /** The relationship ID lookup of a line and, for a known term, its
        obsolete flag, vocabulary and DAG against the category's. */
    method QcRelationship(c: Category, lineCt: nat, relId: string)
      modifies this`hasFatalErrors, this`errors
      ensures State() == CheckRelationship(lookups, c, old(State()), lineCt, relId)
    {
      if relId !in lookups.relationships {
        Record(RelIdSec, LineEntry(lineCt, relId));
        return;
      }
      var t := lookups.relationships[relId];
      if t.isObsolete != 0 {
        Record(ObsoleteSec, LineEntry(lineCt, relId));
      }
      if t.vocabKey != c.vocabKey {
        Record(RelVocabSec, LineEntry(lineCt, relId));
      }
      if t.dagKey != c.dagKey {
        Record(RelDagSec, LineEntry(lineCt, relId));
      }
    }

    /** The data-line loop of `runQcChecks`, the first data line being line
        2 of the file: `crashLine` is the number of the line whose delete
        raised, if any. */
    method QcLines(lines: seq<string>) returns (crashLine: Option<nat>)
      requires forall i :: 0 <= i < |lines| ==> |Split(lines[i], TAB)| >= 13
      requires PropsWithin(props, numHeaderColumns)
      modifies this`hasFatalErrors, this`errors, this`props, this`deleteRptList, this`deleteSql
      ensures var r := RunRows(Env(), isFloat, old(State()), lines);
        && (crashLine.Some? <==> r.RowsCrash?)
        && (r.RowsCrash? ==> crashLine.value == r.lineCt)
        && (r.RowsDone? ==> State() == r.st)
    {
      ghost var env, st0 := Env(), State();
      var i := 0;
      while i < |lines|
        invariant 0 <= i <= |lines|
        invariant Env() == env
        invariant RunRows(env, isFloat, st0, lines[..i]) == RowsDone(State())
        invariant PropsWithin(st0.props, numHeaderColumns)
        invariant PropsWithin(props, numHeaderColumns)
      {
        var crashed := QcNextLine(lines, i, st0);
        if crashed {
          return Some(i + 2);
        }
        i := i + 1;
      }
      assert lines[..i] == lines;
      return None;
    }

    /** One turn of the data-line loop: line `i` checked after the lines
        before it. */
    method QcNextLine(lines: seq<string>, i: nat, ghost st0: RowState) returns (crashed: bool)
      requires i < |lines|
      requires forall j :: 0 <= j < |lines| ==> |Split(lines[j], TAB)| >= 13
      requires PropsWithin(st0.props, numHeaderColumns)
      requires RunRows(Env(), isFloat, st0, lines[..i]) == RowsDone(State())
      modifies this`hasFatalErrors, this`errors, this`props, this`deleteRptList, this`deleteSql
      ensures crashed ==> RunRows(Env(), isFloat, st0, lines) == RowsCrash(i + 2)
      ensures !crashed ==> RunRows(Env(), isFloat, st0, lines[..i + 1]) == RowsDone(State())
      ensures !crashed ==> PropsWithin(props, numHeaderColumns)
    {
      ghost var before := State();
      RunRowsWithin(Env(), isFloat, st0, lines, i, before);
      crashed := QcLine(i + 2, lines[i]);
      ghost var out := CheckRow(Env(), isFloat, before, i + 2, lines[i]);
      RunRowsNext(Env(), isFloat, st0, lines, i, before, out);
    }

    /** The empty-property-column warning of `runQcChecks`: when the last
        data line is an add, the names of the columns no add line gave a
        value, each on its own indented line. */
    method WarnEmptyColumns(lastAction: string)
      modifies this`warnRpt
      ensures warnRpt == old(warnRpt) + EmptyColumnsWarning(lastAction, props)
    {
      if lastAction != "add" {
        assert old(warnRpt) + "" == old(warnRpt);
        return;
      }
      var emptyPropColumnList: seq<string> := [];
      var k := 0;
      while k < |props|
        invariant 0 <= k <= |props|
        invariant emptyPropColumnList == EmptyColumns(props[..k])
      {
        assert props[..k + 1][..k] == props[..k];
        if !props[k].hasData {
          emptyPropColumnList := emptyPropColumnList + [props[k].name];
        }
        k := k + 1;
      }
      assert props[..k] == props;
      if |emptyPropColumnList| == 0 {
        assert old(warnRpt) + "" == old(warnRpt);
        return;
      }
      var heading := "\nProperty Columns with no Data: " + [CRT];
      warnRpt := warnRpt + heading;
      var j := 0;
      while j < |emptyPropColumnList|
        invariant 0 <= j <= |emptyPropColumnList|
        invariant warnRpt == old(warnRpt) + heading + IndentedLines(emptyPropColumnList[..j])
      {
        assert emptyPropColumnList[..j + 1][..j] == emptyPropColumnList[..j];
        AppendAssoc(old(warnRpt) + heading, IndentedLines(emptyPropColumnList[..j]),
                    "    " + emptyPropColumnList[j] + [CRT]);
        warnRpt := warnRpt + ("    " + emptyPropColumnList[j] + [CRT]);
        j := j + 1;
      }
      assert emptyPropColumnList[..j] == emptyPropColumnList;
      AppendAssoc(old(warnRpt), heading, IndentedLines(emptyPropColumnList));
    }

    /** `writeReport`: each error list's section, a delete not in the
        database making the run fatal, then the delete preview when there
        is something to delete and the run is not fatal. */
    method WriteReportOut(deleteRptFile: string)
      modifies this`hasFatalErrors, this`qcRpt, this`warnRpt, this`deleteRpt
      ensures var o := WriteReport(errors, old(hasFatalErrors), deleteRptList, deleteRptFile);
        && qcRpt == old(qcRpt) + o.qcText
        && hasFatalErrors == o.fatal
        && warnRpt == old(warnRpt) + o.warnText
        && deleteRpt == old(deleteRpt) + o.deleteText
    {
      qcRpt := qcRpt + SectionsText(errors, ReportOrder);
      if |Entries(errors, DeleteNotInDbSec)| > 0 {
        hasFatalErrors := true;
      }
      if |deleteRptList| > 0 && !hasFatalErrors {
        warnRpt := warnRpt + PreviewWarning(|deleteRptList|, deleteRptFile);
        deleteRpt := deleteRpt + PreviewText(deleteRptList);
      } else {
        assert old(warnRpt) + "" == old(warnRpt) && old(deleteRpt) + "" == old(deleteRpt);
      }
    }

    /** No error list holds an entry. */
    predicate NoErrorEntries()
      reads this
    {
      forall s :: Entries(errors, s) == []
    }

    /** `runQcChecks`, the header and data lines given: the header check
        (exit status 2 when it fails), the ID checks, the data-line loop,
        the empty-column warning (the last line's action consulted, so that
        a file without data lines raises), then `writeReport`; the program
        then exits with status 2 when the run is fatal, else 0. */
    method RunQcChecks(header: string, lines: seq<string>, q: IdentityResults, deleteRptFile: string) returns (outcome: RunOutcome)
      requires badIds.Valid() && badProps == [] && props == []
      requires errors == map[] && deleteRptList == [] && deleteSql == ""
      requires numHeaderColumns == |Split(header, TAB)|
      requires forall i :: 0 <= i < |lines| ==> |Split(lines[i], TAB)| >= 13
      modifies this`hasFatalErrors, this`errors, this`props, this`badProps, this`deleteRptList,
        this`deleteSql, this`qcRpt, this`warnRpt, this`deleteRpt
      ensures var h := CheckHeader(lookups.validProps, header);
        !h.HeaderOk? ==> outcome == Exit(2) && qcRpt == old(qcRpt) + HeaderReport(h)
      ensures CheckHeader(lookups.validProps, header).HeaderOk? && |lines| == 0 ==> outcome == Raised
      ensures outcome.Exit? ==> outcome.status == 0 || outcome.status == 2
      ensures CheckHeader(lookups.validProps, header).HeaderOk? && outcome.Exit? ==>
        (outcome.status == 0 <==>
           !old(hasFatalErrors) && |badIds.keys| == 0 && !IdentityErrors(q) && NoErrorEntries())
      ensures |deleteRpt| > |old(deleteRpt)| ==> outcome == Exit(0)
    {
      var ok := QcHeaderPhase(header);
      if !ok {
        return Exit(2);
      }
      outcome := QcAfterHeader(lines, q, deleteRptFile);
    }

    /** What `runQcChecks` does once the header is accepted: the ID checks,
        then the data lines and the report. */
    method QcAfterHeader(lines: seq<string>, q: IdentityResults, deleteRptFile: string) returns (outcome: RunOutcome)
      requires badIds.Valid() && errors == map[]
      requires PropsWithin(props, numHeaderColumns)
      requires forall i :: 0 <= i < |lines| ==> |Split(lines[i], TAB)| >= 13
      modifies this`hasFatalErrors, this`errors, this`props, this`deleteRptList,
        this`deleteSql, this`qcRpt, this`warnRpt, this`deleteRpt
      ensures |lines| == 0 ==> outcome == Raised
      ensures outcome.Exit? ==> outcome.status == 0 || outcome.status == 2
      ensures outcome.Exit? ==>
        (outcome.status == 0 <==> !old(hasFatalErrors) && |badIds.keys| == 0 && !IdentityErrors(q) && NoErrorEntries())
      ensures |deleteRpt| > |old(deleteRpt)| ==> outcome == Exit(0)
    {
      QcIdentity(q);
      outcome := QcRowsAndReport(lines, deleteRptFile);
    }

    /** The program after its lookups are filled: the rest of `init`
        (`loadTempTables`, which exits with status 1 on an unknown
        category, then `loadTempTableLookups`), then `runQcChecks`, then
        the exit status. A run ends with status 0 exactly when the header
        is right, the bad-ID table is empty (no ID was rejected, as
        `LoadAll` states), no identity query found rows and no error list
        has an entry; only such a run writes the delete report. */
    method Run(header: string, lines: seq<string>, am: seq<AlleleMarkerRow>, mm: seq<MarkerMarkerRow>,
               q: IdentityResults, deleteRptFile: string) returns (outcome: RunOutcome)
      requires !hasFatalErrors && badIds == EmptyDict()
      requires alleles == map[] && markers == map[] && badProps == [] && props == []
      requires errors == map[] && deleteRptList == [] && deleteSql == ""
      modifies this`hasFatalErrors, this`numHeaderColumns, this`badIds, this`idBcp, this`alleles, this`markers,
        this`badProps, this`props, this`errors, this`deleteRptList, this`deleteSql, this`qcRpt,
        this`warnRpt, this`deleteRpt
      ensures var staged := StageLines(lookups.categories, lines);
        && (outcome == Exit(1) <==> staged.UnknownCategory?)
        && (staged.ShortLine? ==> outcome == Raised)
      ensures outcome.Exit? ==> outcome.status == 0 || outcome.status == 1 || outcome.status == 2
      ensures var staged := StageLines(lookups.categories, lines);
        staged.Staged? && !CheckHeader(lookups.validProps, header).HeaderOk? ==> outcome == Exit(2)
      ensures var staged := StageLines(lookups.categories, lines);
        staged.Staged? && CheckHeader(lookups.validProps, header).HeaderOk? && outcome.Exit? ==>
          (outcome.status == 0 <==> |badIds.keys| == 0 && !IdentityErrors(q) && NoErrorEntries())
      ensures |deleteRpt| > |old(deleteRpt)| ==> outcome == Exit(0)
    {
      var staged := LoadAll(header, lines, am, mm);
      if staged.ShortLine? {
        return Raised;
      }
      if staged.UnknownCategory? {
        return Exit(1);
      }
      outcome := RunQcChecks(header, lines, q, deleteRptFile);
    }

    /** The loading part of `init` on a fresh run: the staging of the data
        lines, then, when every line was staged, the allele and marker
        lookups. */
    method LoadAll(header: string, lines: seq<string>, am: seq<AlleleMarkerRow>, mm: seq<MarkerMarkerRow>)
      returns (staged: StageOutcome)
      requires badIds == EmptyDict() && alleles == map[] && markers == map[]
      modifies this`numHeaderColumns, this`badIds, this`idBcp, this`alleles, this`markers
      ensures staged == StageLines(lookups.categories, lines)
      ensures numHeaderColumns == |Split(header, TAB)| && badIds.Valid()
      ensures staged.Staged? ==> badIds == PutAll(EmptyDict(), staged.badIdWrites)
      ensures staged.Staged? ==> (|badIds.keys| == 0 <==> |staged.badIdWrites| == 0)
      ensures staged.Staged? ==> forall i :: 0 <= i < |lines| ==> |Split(lines[i], TAB)| >= 13
    {
      staged := LoadTempTables(header, lines);
      if staged.Staged? {
        LoadTempTableLookups(am, mm);
        StagedLinesWellFormed(lookups.categories, lines);
        BadIdsEmpty(staged.badIdWrites);
      }
    }

    /** The header check of `runQcChecks`: it passes exactly when the
        header does, and then leaves a column list that fits the header. */
    method QcHeaderPhase(header: string) returns (ok: bool)
      requires badProps == [] && props == []
      requires numHeaderColumns == |Split(header, TAB)|
      modifies this`badProps, this`props, this`qcRpt
      ensures ok <==> CheckHeader(lookups.validProps, header).HeaderOk?
      ensures qcRpt == old(qcRpt) + HeaderReport(CheckHeader(lookups.validProps, header))
      ensures ok ==> PropsWithin(props, numHeaderColumns)
    {
      var h := QcHeader(header);
      ok := h.HeaderOk?;
      if ok {
        HeaderPropsWithin(lookups.validProps, header);
      }
    }

    /** The ID checks of `runQcChecks`: the invalid MGI IDs, then the
        allele/marker and the marker/marker checks; each section with
        entries makes the run fatal. */
    method QcIdentity(q: IdentityResults)
      requires badIds.Valid()
      modifies this`hasFatalErrors, this`qcRpt, this`warnRpt
      ensures hasFatalErrors <==> old(hasFatalErrors) || |badIds.keys| > 0 || IdentityErrors(q)
    {
      QcInvalidMgiPrefix();
      var _ := QcOrgAllelePartMarker(q.alleleMarker, q.amSecOrg, q.amSecPart, q.chromRows);
      QcOrgMarkerPartMarker(q.mmOrg, q.mmPart, q.mmSecOrg, q.mmSecPart);
    }

    /** The data-line loop of `runQcChecks` and what follows it. */
    method QcRowsAndReport(lines: seq<string>, deleteRptFile: string) returns (outcome: RunOutcome)
      requires errors == map[]
      requires PropsWithin(props, numHeaderColumns)
      requires forall i :: 0 <= i < |lines| ==> |Split(lines[i], TAB)| >= 13
      modifies this`hasFatalErrors, this`errors, this`props, this`deleteRptList,
        this`deleteSql, this`warnRpt, this`deleteRpt, this`qcRpt
      ensures |lines| == 0 ==> outcome == Raised
      ensures outcome.Exit? ==> outcome.status == 0 || outcome.status == 2
      ensures outcome.Exit? ==> (outcome.status == 0 <==> !old(hasFatalErrors) && NoErrorEntries())
      ensures |deleteRpt| > |old(deleteRpt)| ==> outcome == Exit(0)
    {
      var crashed := QcRows(lines);
      if crashed {
        return Raised;
      }
      if |lines| == 0 {
        // the last line's `action` is read, and no line set it
        return Raised;
      }
      WarnEmptyColumns(FixedFields(lines[|lines| - 1])[0]);
      ghost var fatal := hasFatalErrors;
      outcome := Finish(deleteRptFile);
      if outcome.status == 0 {
        forall s ensures Entries(errors, s) == [] {
          assert s != DeleteNotInDbSec ==> |Entries(errors, s)| == 0;
        }
      }
    }

    /** The data-line loop, the error lists empty before it: unless a
        delete raises, the run is fatal after it exactly when it was
        before or some list other than the deletes-not-in-database list
        has an entry. */
    method QcRows(lines: seq<string>) returns (crashed: bool)
      requires errors == map[]
      requires PropsWithin(props, numHeaderColumns)
      requires forall i :: 0 <= i < |lines| ==> |Split(lines[i], TAB)| >= 13
      modifies this`hasFatalErrors, this`errors, this`props, this`deleteRptList, this`deleteSql
      ensures !crashed ==>
        (hasFatalErrors <==> old(hasFatalErrors) || exists s :: s != DeleteNotInDbSec && |Entries(errors, s)| > 0)
    {
      ghost var st := State();
      var crashLine := QcLines(lines);
      crashed := crashLine.Some?;
      if !crashed {
        RunRowsFatal(Env(), isFloat, st, lines);
      }
    }

    /** `writeReport` and the exit status: 2 when the run is fatal. */
    method Finish(deleteRptFile: string) returns (outcome: RunOutcome)
      modifies this`hasFatalErrors, this`qcRpt, this`warnRpt, this`deleteRpt
      ensures outcome.Exit? && (outcome.status == 0 || outcome.status == 2)
      ensures outcome.status == 0 <==> !old(hasFatalErrors) && |Entries(errors, DeleteNotInDbSec)| == 0
      ensures |deleteRpt| > |old(deleteRpt)| ==> outcome == Exit(0)
    {
      WriteReportOut(deleteRptFile);
      WriteReportSpec(errors, old(hasFatalErrors), deleteRptList, deleteRptFile);
      outcome := if hasFatalErrors then Exit(2) else Exit(0);
    }
  }
}
