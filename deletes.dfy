/** Resolving a `delete` line against the database (fearQC.py
    `processDelete`): the line's uniqueness key is turned into database keys,
    the relationships matching it are fetched with their properties and
    notes, and each relationship found yields one line of the delete preview
    and one DELETE statement; a key matching nothing is reported as a delete
    not in the database. */
module Deletes {
  import opened Text
  import opened Collections
  import opened QcTypes

  /** A row of the delete query: the relationship key and, from the outer
      joins, a property name (NULL when the relationship has no property),
      its value, and a note (NULL when it has none). */
  datatype DbRow = DbRow(relKey: int, propName: Option<string>, value: string, note: Option<string>)

  /** The uniqueness key the delete query selects on. */
  datatype DeleteKey = DeleteKey(
    catKey: int, orgKey: int, rvKey: int, partKey: int,
    qualKey: int, evidKey: int, refKey: int)

  /** The rows the delete query returns for a key (none when absent). */
  function Query(db: map<DeleteKey, seq<DbRow>>, key: DeleteKey): seq<DbRow> {
    if key in db then db[key] else []
  }

  function RelKeys(rows: seq<DbRow>): (r: seq<int>)
    ensures |r| == |rows| && forall i :: 0 <= i < |rows| ==> r[i] == rows[i].relKey
  {
    seq(|rows|, i requires 0 <= i < |rows| => rows[i].relKey)
  }

  /** The rows of relationship `k`, in query order. */
  function RowsWithKey(rows: seq<DbRow>, k: int): seq<DbRow>
    decreases |rows|
  {
    if |rows| == 0 then []
    else
      var prev := RowsWithKey(rows[..|rows| - 1], k);
      if rows[|rows| - 1].relKey == k then prev + [rows[|rows| - 1]] else prev
  }

  /** One more row of the query. */
  lemma RowsWithKeySnoc(rows: seq<DbRow>, i: nat)
    requires i < |rows|
    ensures RelKeys(rows[..i + 1]) == RelKeys(rows[..i]) + [rows[i].relKey]
    ensures forall k ::
      RowsWithKey(rows[..i + 1], k) ==
      (if k == rows[i].relKey then RowsWithKey(rows[..i], k) + [rows[i]] else RowsWithKey(rows[..i], k))
  {
    assert rows[..i + 1][..i] == rows[..i];
  }

  /** The dictionary of rows by relationship key that a loop over the rows
      fills, appending each row to its key's list. */
  function GroupMap(rows: seq<DbRow>): map<int, seq<DbRow>>
    decreases |rows|
  {
    if |rows| == 0 then map[]
    else
      var m := GroupMap(rows[..|rows| - 1]);
      var r := rows[|rows| - 1];
      m[r.relKey := (if r.relKey in m then m[r.relKey] else []) + [r]]
  }

  /** The dictionary holds exactly the keys of the rows, each bound to that
      key's rows in query order. */
  lemma {:induction false} GroupMapSpec(rows: seq<DbRow>)
    ensures forall k :: k in GroupMap(rows) <==> k in RelKeys(rows)
    ensures forall k :: k in GroupMap(rows) ==> GroupMap(rows)[k] == RowsWithKey(rows, k)
    ensures forall k :: k !in GroupMap(rows) ==> RowsWithKey(rows, k) == []
    decreases |rows|
  {
    if |rows| > 0 {
      var p := rows[..|rows| - 1];
      GroupMapSpec(p);
      RowsWithKeySnoc(rows, |rows| - 1);
      assert rows[..|rows|] == rows;
    }
  }

  /** `delRelDict`'s keys: the relationship keys of the rows, each once,
      in the order they first appear. */
  function DeleteKeys(rows: seq<DbRow>): seq<int> {
    Dedup(RelKeys(rows))
  }

  /** `'%s:"%s"' % (propName, value)` for each row that carries a property. */
  function PropStrings(rows: seq<DbRow>): seq<string>
    decreases |rows|
  {
    if |rows| == 0 then []
    else
      var r := rows[|rows| - 1];
      PropStrings(rows[..|rows| - 1]) +
        (if r.propName.Some? then [r.propName.value + ":\"" + r.value + "\""] else [])
  }

  /** The stripped note of each row that carries one. */
  function NoteStrings(rows: seq<DbRow>): seq<string>
    decreases |rows|
  {
    if |rows| == 0 then []
    else
      var r := rows[|rows| - 1];
      NoteStrings(rows[..|rows| - 1]) + (if r.note.Some? then [Strip(r.note.value)] else [])
  }

  /** What a delete line names, after lower-casing and the qualifier
      default. */
  datatype DeleteRequest = DeleteRequest(
    category: Category,
    cat: string, obj1Id: string, obj2Id: string, relId: string,
    qual: string, evid: string, jNum: string,
    line: string, lineCt: nat)

  /** The line of the delete preview for one relationship found. */
  function PreviewLine(d: DeleteRequest, obj1Symbol: string, obj2Symbol: string, relTerm: string,
                       props: seq<string>, notes: seq<string>): string
  {
    d.cat + [TAB] + d.obj1Id + [TAB] + obj1Symbol + [TAB] + d.relId + [TAB] + relTerm + [TAB] +
      d.obj2Id + [TAB] + obj2Symbol + [TAB] + d.qual + [TAB] + d.evid + [TAB] + d.jNum + [TAB] +
      Join(props, [TAB]) + [TAB] + Concat(notes)
  }

  /** The statement written to the delete SQL file for one relationship. */
  function SqlLine(relKey: int): string {
    "delete from MGI_Relationship where _Relationship_key = " + IntToString(relKey) + ";" + [CRT]
  }

  /** `'%-12s   %-68s' % (lineCt, line.strip())` */
  function NotInDbEntry(lineCt: nat, line: string): string {
    PadRight(NatToString(lineCt), 12) + "   " + PadRight(Strip(line), 68)
  }

  /** How a delete resolves: a failed allele or marker lookup raises
      (`KeyError`), no matching relationship gives a not-in-database entry,
      otherwise preview lines and DELETE statements, one of each per
      relationship. */
  datatype DeleteResult =
    | DeleteCrash
    | NotInDb(entry: string)
    | Resolved(previewLines: seq<string>, sqlLines: seq<string>)

  /** Marker/marker categories take the organizer's symbol from the marker
      lookup. */
  predicate IsMarkerMarkerCategory(catKey: int) {
    catKey == 1001 || catKey == 1002
  }

  /** The lookups a delete needs from the row's other fields are exactly the
      ones the row checks have confirmed when no fatal error is recorded. */
  predicate DeleteResolvable(lk: Lookups, d: DeleteRequest) {
    d.qual in lk.qualifiers && d.evid in lk.evidence && d.jNum in lk.jNums && d.relId in lk.relationships
  }

  /** The database uniqueness key of a delete line; `None` when its
      organizer (from the allele or marker lookup, by the category's
      organizer type) or its participant (from the marker lookup) is not
      found, where the source raises `KeyError`. */
  function QueryKey(lk: Lookups, alleles: map<string, ObjInfo>, markers: map<string, ObjInfo>,
                    d: DeleteRequest): Option<DeleteKey>
    requires DeleteResolvable(lk, d)
  {
    var orgLookup := if d.category.mgiTypeKey1 == ALLELE_TYPE then alleles else markers;
    if d.obj1Id !in orgLookup || d.obj2Id !in markers then None
    else Some(DeleteKey(d.category.key, orgLookup[d.obj1Id].key, lk.relationships[d.relId].objectKey,
                        markers[d.obj2Id].key, lk.qualifiers[d.qual], lk.evidence[d.evid], lk.jNums[d.jNum]))
  }

  /** The preview lines of the relationships `keys`, one per key, each
      listing that relationship's properties and notes. */
  function PreviewLines(d: DeleteRequest, obj1Symbol: string, obj2Symbol: string, relTerm: string,
                        rows: seq<DbRow>, keys: seq<int>): (r: seq<string>)
    ensures |r| == |keys|
    decreases |keys|
  {
    if |keys| == 0 then []
    else
      var rel := RowsWithKey(rows, keys[|keys| - 1]);
      PreviewLines(d, obj1Symbol, obj2Symbol, relTerm, rows, keys[..|keys| - 1]) +
        [PreviewLine(d, obj1Symbol, obj2Symbol, relTerm, Dedup(PropStrings(rel)), Dedup(NoteStrings(rel)))]
  }

  /** The preview line of each relationship lists that relationship's
      distinct properties and notes, in key order. */
  lemma {:induction false} PreviewLinesSpec(d: DeleteRequest, obj1Symbol: string, obj2Symbol: string,
                                            relTerm: string, rows: seq<DbRow>, keys: seq<int>)
    ensures var r := PreviewLines(d, obj1Symbol, obj2Symbol, relTerm, rows, keys);
      forall i :: 0 <= i < |keys| ==>
        r[i] == PreviewLine(d, obj1Symbol, obj2Symbol, relTerm,
                            Dedup(PropStrings(RowsWithKey(rows, keys[i]))),
                            Dedup(NoteStrings(RowsWithKey(rows, keys[i]))))
    decreases |keys|
  {
    if |keys| > 0 {
      PreviewLinesSpec(d, obj1Symbol, obj2Symbol, relTerm, rows, keys[..|keys| - 1]);
    }
  }

  /** The preview lines and DELETE statements for the relationships `keys`
      found; the organizer's symbol comes from the marker lookup for
      marker/marker categories and from the allele lookup otherwise, and a
      symbol not found raises. */
  function Report(lk: Lookups, alleles: map<string, ObjInfo>, markers: map<string, ObjInfo>,
                  d: DeleteRequest, rows: seq<DbRow>, keys: seq<int>): (r: DeleteResult)
    requires DeleteResolvable(lk, d)
    ensures !r.NotInDb?
  {
    var symbols := if IsMarkerMarkerCategory(d.category.key) then markers else alleles;
    if d.obj1Id !in symbols || d.obj2Id !in markers then DeleteCrash
    else
      Resolved(PreviewLines(d, symbols[d.obj1Id].symbol, markers[d.obj2Id].symbol,
                            lk.relationships[d.relId].term, rows, keys),
               MapSeq(SqlLine, keys))
  }

  /** What the rows the delete query returned resolve to. */
  function Found(lk: Lookups, alleles: map<string, ObjInfo>, markers: map<string, ObjInfo>,
                 d: DeleteRequest, rows: seq<DbRow>): DeleteResult
    requires DeleteResolvable(lk, d)
  {
    var keys := DeleteKeys(rows);
    if |keys| == 0 then NotInDb(NotInDbEntry(d.lineCt, d.line))
    else Report(lk, alleles, markers, d, rows, keys)
  }

  function ResolveDelete(lk: Lookups, alleles: map<string, ObjInfo>, markers: map<string, ObjInfo>,
                         db: map<DeleteKey, seq<DbRow>>, d: DeleteRequest): DeleteResult
    requires DeleteResolvable(lk, d)
  {
    match QueryKey(lk, alleles, markers, d)
    case None => DeleteCrash
    case Some(key) => Found(lk, alleles, markers, d, Query(db, key))
  }

  /** The rows of relationship `k` are the rows carrying key `k`, and there
      is at least one when `k` occurs. */
  lemma {:induction false} RowsWithKeySpec(rows: seq<DbRow>, k: int)
    ensures forall r :: r in RowsWithKey(rows, k) ==> r in rows && r.relKey == k
    ensures k in RelKeys(rows) ==> |RowsWithKey(rows, k)| > 0
    decreases |rows|
  {
    if |rows| > 0 {
      var p := rows[..|rows| - 1];
      RowsWithKeySpec(p, k);
      assert RelKeys(rows) == RelKeys(p) + [rows[|rows| - 1].relKey];
    }
  }

  /** Grouping finds each distinct relationship key once, each with at
      least one row; there are no keys exactly when the query returned no
      rows. */
  lemma DeleteKeysSpec(rows: seq<DbRow>)
    ensures var keys := DeleteKeys(rows);
      && NoDuplicates(keys)
      && (forall r :: r in rows ==> r.relKey in keys)
      && (forall k :: k in keys ==> k in RelKeys(rows) && |RowsWithKey(rows, k)| > 0)
      && (|keys| == 0 <==> |rows| == 0)
  {
    var keys := DeleteKeys(rows);
    DedupMembers(RelKeys(rows));
    forall r | r in rows ensures r.relKey in keys {
      var n :| 0 <= n < |rows| && rows[n] == r;
      assert RelKeys(rows)[n] == r.relKey;
    }
    forall k | k in keys ensures k in RelKeys(rows) && |RowsWithKey(rows, k)| > 0 {
      RowsWithKeySpec(rows, k);
    }
    if |rows| > 0 {
      assert rows[0] in rows;
    }
  }

  /** The relationships come in the order their keys first appear. */
  lemma DeleteKeysOrdered(rows: seq<DbRow>)
    ensures var keys := DeleteKeys(rows);
      forall i, j :: 0 <= i < j < |keys| ==>
        keys[i] in RelKeys(rows) && keys[j] in RelKeys(rows) &&
        FirstIndex(RelKeys(rows), keys[i]) < FirstIndex(RelKeys(rows), keys[j])
  {
    DedupOrdered(RelKeys(rows));
  }

  /** An organizer or participant missing from the lookup its uniqueness
      key is read from raises. A delete is reported as not in the database
      exactly when its key matches no rows, and then nothing is written for
      it. When rows match, the delete is resolved exactly when both symbols
      are found, the organizer's in the lookup its category key selects;
      a resolved delete writes one DELETE statement per distinct
      relationship key among the rows, in the order the keys first appear,
      and a preview line for each naming both symbols, the relationship
      term and that relationship's properties and notes. */
  lemma ResolveDeleteSpec(lk: Lookups, alleles: map<string, ObjInfo>, markers: map<string, ObjInfo>,
                          db: map<DeleteKey, seq<DbRow>>, d: DeleteRequest)
    requires DeleteResolvable(lk, d)
    ensures var r := ResolveDelete(lk, alleles, markers, db, d);
      var key := QueryKey(lk, alleles, markers, d);
      var symbols := if IsMarkerMarkerCategory(d.category.key) then markers else alleles;
      && (key.None? ==> r.DeleteCrash?)
      && (r.NotInDb? <==> key.Some? && |Query(db, key.value)| == 0)
      && (r.NotInDb? ==> r.entry == NotInDbEntry(d.lineCt, d.line))
      && (key.Some? && |Query(db, key.value)| > 0 ==>
            (r.Resolved? <==> d.obj1Id in symbols && d.obj2Id in markers))
      && (r.Resolved? ==>
            key.Some? && d.obj1Id in symbols && d.obj2Id in markers &&
            ResolvedAs(r, lk, markers, symbols, d, Query(db, key.value)))
  {
    var key := QueryKey(lk, alleles, markers, d);
    if key.Some? {
      FoundSpec(lk, alleles, markers, d, Query(db, key.value));
    }
  }

  /** What a resolved delete writes for the rows found: one DELETE statement
      per distinct relationship key, in the order the keys first appear, and
      a preview line for each naming both symbols, the relationship term and
      that relationship's properties and notes. */
  ghost predicate ResolvedAs(r: DeleteResult, lk: Lookups, markers: map<string, ObjInfo>,
                             symbols: map<string, ObjInfo>, d: DeleteRequest, rows: seq<DbRow>)
    requires d.relId in lk.relationships
  {
    var keys := DeleteKeys(rows);
    && r.Resolved? && d.obj1Id in symbols && d.obj2Id in markers
    && |r.previewLines| == |r.sqlLines| == |keys|
    && NoDuplicates(keys)
    && (forall i :: 0 <= i < |keys| ==> r.sqlLines[i] == SqlLine(keys[i]))
    && (forall i :: 0 <= i < |keys| ==>
          r.previewLines[i] ==
            PreviewLine(d, symbols[d.obj1Id].symbol, markers[d.obj2Id].symbol,
                        lk.relationships[d.relId].term,
                        Dedup(PropStrings(RowsWithKey(rows, keys[i]))),
                        Dedup(NoteStrings(RowsWithKey(rows, keys[i])))))
    && (forall row :: row in rows ==> SqlLine(row.relKey) in r.sqlLines)
  }

  /** The rows a delete query returned: none give the not-in-database entry;
      otherwise the delete is resolved exactly when both symbols are found. */
  lemma FoundSpec(lk: Lookups, alleles: map<string, ObjInfo>, markers: map<string, ObjInfo>,
                  d: DeleteRequest, rows: seq<DbRow>)
    requires DeleteResolvable(lk, d)
    ensures var r := Found(lk, alleles, markers, d, rows);
      var symbols := if IsMarkerMarkerCategory(d.category.key) then markers else alleles;
      && (r.NotInDb? <==> |rows| == 0)
      && (r.NotInDb? ==> r.entry == NotInDbEntry(d.lineCt, d.line))
      && (|rows| > 0 ==> (r.Resolved? <==> d.obj1Id in symbols && d.obj2Id in markers))
      && (r.Resolved? ==> ResolvedAs(r, lk, markers, symbols, d, rows))
  {
    DeleteKeysSpec(rows);
    var symbols := if IsMarkerMarkerCategory(d.category.key) then markers else alleles;
    if |rows| > 0 && d.obj1Id in symbols && d.obj2Id in markers {
      FoundResolved(lk, alleles, markers, d, rows);
    }
  }

  /** Rows found and both symbols found: the delete is resolved as
      `ResolvedAs` describes. */
  lemma FoundResolved(lk: Lookups, alleles: map<string, ObjInfo>, markers: map<string, ObjInfo>,
                      d: DeleteRequest, rows: seq<DbRow>)
    requires DeleteResolvable(lk, d) && |rows| > 0
    requires var symbols := if IsMarkerMarkerCategory(d.category.key) then markers else alleles;
      d.obj1Id in symbols && d.obj2Id in markers
    ensures var symbols := if IsMarkerMarkerCategory(d.category.key) then markers else alleles;
      ResolvedAs(Found(lk, alleles, markers, d, rows), lk, markers, symbols, d, rows)
  {
    var symbols := if IsMarkerMarkerCategory(d.category.key) then markers else alleles;
    var keys := DeleteKeys(rows);
    DeleteKeysSpec(rows);
    var o1, o2, term := symbols[d.obj1Id].symbol, markers[d.obj2Id].symbol, lk.relationships[d.relId].term;
    var sql := MapSeq(SqlLine, keys);
    assert Found(lk, alleles, markers, d, rows) == Resolved(PreviewLines(d, o1, o2, term, rows, keys), sql);
    MapSeqSpec(SqlLine, keys);
    SqlLinesCover(rows, keys, sql);
    PreviewLinesSpec(d, o1, o2, term, rows, keys);
  }

  /** A DELETE statement for each key covers every row whose key is among
      them. */
  lemma SqlLinesCover(rows: seq<DbRow>, keys: seq<int>, sqlLines: seq<string>)
    requires forall r :: r in rows ==> r.relKey in keys
    requires |sqlLines| == |keys| && forall i :: 0 <= i < |keys| ==> sqlLines[i] == SqlLine(keys[i])
    ensures forall row :: row in rows ==> SqlLine(row.relKey) in sqlLines
  {
    forall row | row in rows ensures SqlLine(row.relKey) in sqlLines {
      var i :| 0 <= i < |keys| && keys[i] == row.relKey;
      assert sqlLines[i] == SqlLine(row.relKey);
    }
  }

  /** The property list and the note list of a relationship hold each string
      once, in the order first seen, and exactly the strings its rows carry. */
  lemma PropAndNoteListsSpec(rows: seq<DbRow>)
    ensures NoDuplicates(Dedup(PropStrings(rows))) && NoDuplicates(Dedup(NoteStrings(rows)))
    ensures forall s :: s in Dedup(PropStrings(rows)) <==> s in PropStrings(rows)
    ensures forall s :: s in Dedup(NoteStrings(rows)) <==> s in NoteStrings(rows)
    ensures forall i, j :: 0 <= i < j < |Dedup(PropStrings(rows))| ==>
      FirstIndex(PropStrings(rows), Dedup(PropStrings(rows))[i]) <
      FirstIndex(PropStrings(rows), Dedup(PropStrings(rows))[j])
  {
    DedupMembers(PropStrings(rows));
    DedupOrdered(PropStrings(rows));
    DedupMembers(NoteStrings(rows));
  }

  /** Every property string comes from a row that carries a property, and
      every such row contributes its string. */
  lemma {:induction false} PropStringsSpec(rows: seq<DbRow>)
    ensures forall s :: s in PropStrings(rows) <==>
      exists r :: r in rows && r.propName.Some? && s == r.propName.value + ":\"" + r.value + "\""
    decreases |rows|
  {
    if |rows| > 0 {
      var p := rows[..|rows| - 1];
      var last := rows[|rows| - 1];
      PropStringsSpec(p);
      assert rows == p + [last];
      forall s | s in PropStrings(rows)
        ensures exists r :: r in rows && r.propName.Some? && s == r.propName.value + ":\"" + r.value + "\""
      {
        if s in PropStrings(p) {
          var r :| r in p && r.propName.Some? && s == r.propName.value + ":\"" + r.value + "\"";
          assert r in rows;
        } else {
          assert last in rows;
        }
      }
      forall r | r in rows && r.propName.Some?
        ensures r.propName.value + ":\"" + r.value + "\"" in PropStrings(rows)
      {
        if r in p {
        } else {
          assert r == last;
        }
      }
    }
  }
}
