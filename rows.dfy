/** The per-line checks of fearQC.py's `runQcChecks` loop. Each data line is
    split on tabs; its first thirteen fields are stripped and lower-cased,
    the rest (the property values) only stripped. The checks run in a fixed
    order, each failure adding one entry to its list and setting the fatal
    flag: too few columns (the rest of the line skipped), the action, the
    category (the rest skipped when unknown), qualifier (empty meaning
    `not specified`), evidence, J number, creator, relationship ID and then
    its obsolete flag, vocabulary and DAG. A delete line is resolved against
    the database only while no fatal error has been recorded anywhere; an
    add line has its property values inspected. */
module Rows {
  import opened Text
  import opened Collections
  import opened QcTypes
  import opened Deletes
  import opened Header

  /** What the loop changes: the fatal flag, the error lists, the property
      columns, the delete preview lines and the delete SQL text. */
  datatype RowState = RowState(
    fatal: bool,
    errors: ErrorLists,
    props: seq<PropColumn>,
    deletePreview: seq<string>,
    deleteSql: string)

  /** What the checks consult: the lookups, the allele and marker lookups of
      the staged IDs, the header's column count and the delete query. */
  datatype RowEnv = RowEnv(
    lookups: Lookups,
    alleles: map<string, ObjInfo>,
    markers: map<string, ObjInfo>,
    numHeaderColumns: nat,
    db: map<DeleteKey, seq<DbRow>>)

  /** A failed check: its entry appended and the fatal flag set. */
  function Flag(st: RowState, s: Section, entry: string): (r: RowState)
    ensures r.fatal && r.props == st.props
    ensures r.deletePreview == st.deletePreview && r.deleteSql == st.deleteSql
  {
    st.(fatal := true, errors := Append(st.errors, s, entry))
  }

  /** A flag leaves every other list as it was. */
  lemma FlagKeepsOthers(st: RowState, s: Section, entry: string)
    ensures forall t :: t != s ==> Entries(Flag(st, s, entry).errors, t) == Entries(st.errors, t)
  {
  }

  /** The thirteen fixed fields of a data line: stripped and lower-cased. */
  function FixedFields(line: string): (r: seq<string>)
    requires |Split(line, TAB)| >= 13
    ensures |r| == 13
  {
    seq(13, i requires 0 <= i < 13 => Lower(Strip(Split(line, TAB)[i])))
  }

  /** Lower-casing keeps white space and everything else apart. */
  lemma LowerKeepsSpace(c: char)
    ensures IsSpace(LowerChar(c)) <==> IsSpace(c)
  {
  }

  /** Each fixed field the row loop reads is lower case, has no white space
      at either end, and is made of the characters of its cell lower-cased. */
  lemma FixedFieldsNormalized(line: string)
    requires |Split(line, TAB)| >= 13
    ensures |FixedFields(line)| == 13
    ensures forall i :: 0 <= i < 13 ==> IsLower(FixedFields(line)[i])
    ensures forall i :: 0 <= i < 13 ==> var f := FixedFields(line)[i];
      f == [] || (!IsSpace(f[0]) && !IsSpace(f[|f| - 1]))
    ensures forall i, c :: 0 <= i < 13 && c in FixedFields(line)[i] ==>
      exists d :: d in Split(line, TAB)[i] && c == LowerChar(d)
  {
    var f := FixedFields(line);
    forall i | 0 <= i < 13
      ensures IsLower(f[i])
      ensures f[i] == [] || (!IsSpace(f[i][0]) && !IsSpace(f[i][|f[i]| - 1]))
      ensures forall c :: c in f[i] ==> exists d :: d in Split(line, TAB)[i] && c == LowerChar(d)
    {
      var cell := Split(line, TAB)[i];
      var t := Strip(cell);
      assert f[i] == Lower(t);
      LowerIsLower(t);
      StripSpec(cell);
      if |t| > 0 {
        LowerKeepsSpace(t[0]);
        LowerKeepsSpace(t[|t| - 1]);
      }
      forall c | c in f[i] ensures exists d :: d in cell && c == LowerChar(d) {
        var k :| 0 <= k < |f[i]| && f[i][k] == c;
        assert t[k] in t;
      }
    }
  }

  /** The fields after the thirteenth: stripped, case kept. */
  function PropertyValues(line: string): (r: seq<string>)
    ensures |r| + NUM_NON_PROP_COLUMNS == |Split(line, TAB)| ||
      (|r| == 0 && |Split(line, TAB)| < NUM_NON_PROP_COLUMNS)
  {
    var fields := Split(line, TAB);
    if |fields| < NUM_NON_PROP_COLUMNS then [] else StripAll(fields[NUM_NON_PROP_COLUMNS..])
  }

  /** An empty qualifier stands for `not specified`. */
  function DefaultQualifier(qual: string): string {
    if qual == "" then "not specified" else qual
  }

  function CheckAction(st: RowState, lineCt: nat, action: string): (r: RowState)
    ensures r.props == st.props && r.deletePreview == st.deletePreview && r.deleteSql == st.deleteSql
    ensures !r.fatal <==> !st.fatal && (action == "add" || action == "delete")
    ensures Entries(r.errors, ActionSec) ==
      Entries(st.errors, ActionSec) + (if action == "add" || action == "delete" then [] else [LineEntry(lineCt, action)])
    ensures Entries(r.errors, QualifierSec) == Entries(st.errors, QualifierSec)
    ensures Entries(r.errors, DeleteNotInDbSec) == Entries(st.errors, DeleteNotInDbSec)
  {
    if action != "add" && action != "delete" then Flag(st, ActionSec, LineEntry(lineCt, action)) else st
  }

  /** The qualifier, evidence, J number and creator lookups, in that order. */
  function CheckTerms(lk: Lookups, st: RowState, lineCt: nat,
                      qual: string, evid: string, jNum: string, creator: string): (r: RowState)
    ensures r.props == st.props && r.deletePreview == st.deletePreview && r.deleteSql == st.deleteSql
    ensures !r.fatal <==>
      !st.fatal && qual in lk.qualifiers && evid in lk.evidence && jNum in lk.jNums && creator in lk.users
    ensures Entries(r.errors, QualifierSec) ==
      Entries(st.errors, QualifierSec) + (if qual in lk.qualifiers then [] else [LineEntry(lineCt, qual)])
    ensures Entries(r.errors, DeleteNotInDbSec) == Entries(st.errors, DeleteNotInDbSec)
  {
    var s1 := if qual !in lk.qualifiers then Flag(st, QualifierSec, LineEntry(lineCt, qual)) else st;
    var s2 := if evid !in lk.evidence then Flag(s1, EvidenceSec, LineEntry(lineCt, evid)) else s1;
    var s3 := if jNum !in lk.jNums then Flag(s2, JNumSec, LineEntry(lineCt, jNum)) else s2;
    if creator !in lk.users then Flag(s3, UserSec, LineEntry(lineCt, creator)) else s3
  }

  /** The checks of a known relationship term: its obsolete flag, then its
      vocabulary and its DAG against the category's. */
  function CheckTerm(c: Category, st: RowState, lineCt: nat, relId: string, t: RelTerm): (r: RowState)
    ensures r.props == st.props && r.deletePreview == st.deletePreview && r.deleteSql == st.deleteSql
    ensures !r.fatal <==> !st.fatal && t.isObsolete == 0 && t.vocabKey == c.vocabKey && t.dagKey == c.dagKey
    ensures Entries(r.errors, QualifierSec) == Entries(st.errors, QualifierSec)
    ensures Entries(r.errors, DeleteNotInDbSec) == Entries(st.errors, DeleteNotInDbSec)
  {
    var e := LineEntry(lineCt, relId);
    var s1 := if t.isObsolete != 0 then Flag(st, ObsoleteSec, e) else st;
    var s2 := if t.vocabKey != c.vocabKey then Flag(s1, RelVocabSec, e) else s1;
    if t.dagKey != c.dagKey then Flag(s2, RelDagSec, e) else s2
  }

  /** The relationship ID lookup and, for a known term, the term's checks. */
  function CheckRelationship(lk: Lookups, c: Category, st: RowState, lineCt: nat, relId: string): (r: RowState)
    ensures r.props == st.props && r.deletePreview == st.deletePreview && r.deleteSql == st.deleteSql
    ensures !r.fatal <==>
      && !st.fatal && relId in lk.relationships
      && lk.relationships[relId].isObsolete == 0
      && lk.relationships[relId].vocabKey == c.vocabKey
      && lk.relationships[relId].dagKey == c.dagKey
    ensures Entries(r.errors, QualifierSec) == Entries(st.errors, QualifierSec)
    ensures Entries(r.errors, DeleteNotInDbSec) == Entries(st.errors, DeleteNotInDbSec)
  {
    if relId !in lk.relationships then Flag(st, RelIdSec, LineEntry(lineCt, relId))
    else CheckTerm(c, st, lineCt, relId, lk.relationships[relId])
  }

  /** A score value with one leading `+` or `-` removed, as handed to the
      numeric test. */
  function ScoreValue(v: string): string {
    if Find(v, '+') == 0 || Find(v, '-') == 0 then v[1..] else v
  }

  /** `'%-12s   %-20s  %-20s' % (lineCt, propertyName, propertyValue)` */
  function BadScoreEntry(lineCt: nat, name: string, value: string): string {
    PadRight(NatToString(lineCt), 12) + "   " + PadRight(name, 20) + "  " + PadRight(value, 20)
  }

  /** Every property column indexes into the line's property values. */
  predicate PropsFit(props: seq<PropColumn>, values: seq<string>) {
    forall k :: 0 <= k < |props| ==> props[k].index < |values|
  }

  /** Every property column lies inside the header's columns. */
  predicate PropsWithin(props: seq<PropColumn>, numHeaderColumns: nat) {
    forall k :: 0 <= k < |props| ==> props[k].index + 14 <= numHeaderColumns
  }

  /** The property columns a valid header declares lie inside its columns,
      counted on the header as read. */
  lemma HeaderPropsWithin(validProps: map<string, int>, header: string)
    requires CheckHeader(validProps, header).HeaderOk?
    ensures PropsWithin(CheckHeader(validProps, header).props, |Split(header, TAB)|)
  {
    var tokens := HeaderTokens(header);
    var props := CheckHeader(validProps, header).props;
    HeaderColumnCount(header);
    ScanColumnsDeclared(Classify(validProps, tokens), |tokens|);
    assert forall k :: 0 <= k < |props| ==> props[k] in props;
  }

  /** Two lists of property columns that differ at most in their data marks. */
  predicate SameColumns(p: seq<PropColumn>, q: seq<PropColumn>) {
    |p| == |q| && forall k :: 0 <= k < |p| ==> p[k].index == q[k].index && p[k].name == q[k].name
  }

  /** A property column after an add line: marked as having data when the
      line has a value in it. */
  function MarkColumn(p: PropColumn, values: seq<string>): PropColumn
    requires p.index < |values|
  {
    p.(hasData := p.hasData || values[p.index] != "")
  }

  /** A score value that the numeric test rejects. */
  predicate BadScore(p: PropColumn, values: seq<string>, isFloat: string -> bool)
    requires p.index < |values|
  {
    p.name == "score" && values[p.index] != "" && !isFloat(ScoreValue(values[p.index]))
  }

  /** The invalid-property-value entries of an add line, column by column. */
  function ScoreEntries(props: seq<PropColumn>, values: seq<string>, isFloat: string -> bool, lineCt: nat): seq<string>
    requires PropsFit(props, values)
    decreases |props|
  {
    if |props| == 0 then []
    else
      var p := props[|props| - 1];
      ScoreEntries(props[..|props| - 1], values, isFloat, lineCt) +
        (if BadScore(p, values, isFloat)
         then [BadScoreEntry(lineCt, p.name, ScoreValue(values[p.index]))] else [])
  }

  /** The entries after one more column. */
  lemma ScoreEntriesSnoc(props: seq<PropColumn>, values: seq<string>, isFloat: string -> bool, lineCt: nat, k: nat)
    requires PropsFit(props, values) && k < |props|
    ensures PropsFit(props[..k], values) && PropsFit(props[..k + 1], values)
    ensures ScoreEntries(props[..k + 1], values, isFloat, lineCt) ==
      ScoreEntries(props[..k], values, isFloat, lineCt) +
        (if BadScore(props[k], values, isFloat)
         then [BadScoreEntry(lineCt, props[k].name, ScoreValue(values[props[k].index]))] else [])
  {
    var p := props[..k + 1];
    assert p[..|p| - 1] == props[..k];
    assert p[|p| - 1] == props[k];
  }

  function MarkColumns(props: seq<PropColumn>, values: seq<string>): seq<PropColumn>
    requires PropsFit(props, values)
  {
    seq(|props|, k requires 0 <= k < |props| => MarkColumn(props[k], values))
  }

  /** A batch of entries appended to one list; no batch, no change. */
  function AppendAll(lists: ErrorLists, s: Section, entries: seq<string>): (r: ErrorLists)
    ensures Entries(r, s) == Entries(lists, s) + entries
    ensures forall t :: t != s ==> Entries(r, t) == Entries(lists, t)
  {
    if |entries| == 0 then lists else lists[s := Entries(lists, s) + entries]
  }

  lemma AppendAllTwice(lists: ErrorLists, s: Section, a: seq<string>, b: seq<string>)
    ensures AppendAll(AppendAll(lists, s, a), s, b) == AppendAll(lists, s, a + b)
  {
    if |a| == 0 {
      assert a + b == b;
    } else if |b| == 0 {
      assert a + b == a;
    } else {
      assert Entries(lists, s) + a + b == Entries(lists, s) + (a + b);
    }
  }

  /** The property pass of an add line. */
  function CheckProperties(st: RowState, isFloat: string -> bool, lineCt: nat, values: seq<string>): (r: RowState)
    requires PropsFit(st.props, values)
    ensures SameColumns(st.props, r.props)
  {
    var bad := ScoreEntries(st.props, values, isFloat, lineCt);
    st.(props := MarkColumns(st.props, values),
        errors := AppendAll(st.errors, BadPropValueSec, bad),
        fatal := st.fatal || |bad| > 0)
  }

  datatype RowOutcome = Continue(st: RowState) | RowCrash

  /** Recording what a delete resolved to. */
  function ApplyDelete(st: RowState, r: DeleteResult): RowOutcome {
    match r
    case DeleteCrash => RowCrash
    case NotInDb(entry) => Continue(st.(errors := Append(st.errors, DeleteNotInDbSec, entry)))
    case Resolved(preview, sql) =>
      Continue(st.(deletePreview := st.deletePreview + preview, deleteSql := st.deleteSql + Concat(sql)))
  }

  /** The request a delete line makes. */
  function RequestOf(c: Category, f: seq<string>, line: string, lineCt: nat): DeleteRequest
    requires |f| == 13
  {
    DeleteRequest(c, f[1], f[2], f[6], f[4], DefaultQualifier(f[8]), f[9], f[10], line, lineCt)
  }

  /** The lookups of a line that has passed the short-row and category
      checks. */
  function Validated(env: RowEnv, st: RowState, lineCt: nat, f: seq<string>): (r: RowState)
    requires |f| == 13 && f[1] in env.lookups.categories
    ensures r.props == st.props
    ensures r.deletePreview == st.deletePreview && r.deleteSql == st.deleteSql
    ensures !r.fatal ==>
      && !st.fatal && DefaultQualifier(f[8]) in env.lookups.qualifiers && f[9] in env.lookups.evidence
      && f[10] in env.lookups.jNums && f[11] in env.lookups.users && f[4] in env.lookups.relationships
    ensures Entries(r.errors, DeleteNotInDbSec) == Entries(st.errors, DeleteNotInDbSec)
  {
    var c := env.lookups.categories[f[1]];
    var s1 := CheckAction(st, lineCt, f[0]);
    var s2 := CheckTerms(env.lookups, s1, lineCt, DefaultQualifier(f[8]), f[9], f[10], f[11]);
    CheckRelationship(env.lookups, c, s2, lineCt, f[4])
  }

  /** A line of a known category after its lookups: a delete resolved when
      no fatal error is recorded, an add's properties checked. */
  function CheckedRow(env: RowEnv, isFloat: string -> bool, s: RowState, lineCt: nat, line: string,
                      f: seq<string>, values: seq<string>): (r: RowOutcome)
    requires |f| == 13 && f[1] in env.lookups.categories
    requires PropsFit(s.props, values)
    requires !s.fatal ==>
      && DefaultQualifier(f[8]) in env.lookups.qualifiers && f[9] in env.lookups.evidence
      && f[10] in env.lookups.jNums && f[4] in env.lookups.relationships
    ensures r.Continue? ==> SameColumns(s.props, r.st.props)
  {
    if f[0] == "delete" && !s.fatal then
      ApplyDelete(s, ResolveDelete(env.lookups, env.alleles, env.markers, env.db,
                                   RequestOf(env.lookups.categories[f[1]], f, line, lineCt)))
    else if f[0] == "add" then Continue(CheckProperties(s, isFloat, lineCt, values))
    else Continue(s)
  }

  /** One data line, number `lineCt`. */
  function CheckRow(env: RowEnv, isFloat: string -> bool, st: RowState, lineCt: nat, line: string): (r: RowOutcome)
    requires |Split(line, TAB)| >= 13
    requires PropsWithin(st.props, env.numHeaderColumns)
    ensures r.Continue? ==> SameColumns(st.props, r.st.props)
  {
    var values := PropertyValues(line);
    if |values| + NUM_NON_PROP_COLUMNS < env.numHeaderColumns then
      Continue(Flag(st, MissingPropColumnSec, LineEntry(lineCt, line)))
    else
      var f := FixedFields(line);
      if f[1] !in env.lookups.categories then
        Continue(Flag(CheckAction(st, lineCt, f[0]), CategorySec, LineEntry(lineCt, f[1])))
      else
        CheckedRow(env, isFloat, Validated(env, st, lineCt, f), lineCt, line, f, values)
  }

  datatype RowsOutcome = RowsDone(st: RowState) | RowsCrash(lineCt: nat)

  /** The loop over the data lines, the first of them being line 2 of the
      file; it stops at a line whose delete raises. */
  function RunRows(env: RowEnv, isFloat: string -> bool, st: RowState, lines: seq<string>): (r: RowsOutcome)
    requires forall i :: 0 <= i < |lines| ==> |Split(lines[i], TAB)| >= 13
    requires PropsWithin(st.props, env.numHeaderColumns)
    ensures r.RowsDone? ==> SameColumns(st.props, r.st.props)
    decreases |lines|
  {
    if |lines| == 0 then RowsDone(st)
    else
      var prefix := lines[..|lines| - 1];
      assert forall i :: 0 <= i < |prefix| ==> prefix[i] == lines[i];
      match RunRows(env, isFloat, st, prefix)
      case RowsCrash(n) => RowsCrash(n)
      case RowsDone(s) =>
        match CheckRow(env, isFloat, s, |lines| + 1, lines[|lines| - 1])
        case RowCrash => RowsCrash(|lines| + 1)
        case Continue(s2) => RowsDone(s2)
  }

  /** Every list of `b` extends the same list of `a`. */
  predicate ListsGrow(a: ErrorLists, b: ErrorLists) {
    forall s :: Entries(a, s) <= Entries(b, s)
  }

  /** Some list whose entries are fatal gained an entry; only the
      deletes-not-in-database list is not fatal while the rows are read. */
  predicate FatalListGrew(a: ErrorLists, b: ErrorLists) {
    exists s :: s != DeleteNotInDbSec && |Entries(a, s)| < |Entries(b, s)|
  }

  /** What one or more lines may do to the state: lists and delete output
      only grow, the fatal flag is set exactly when it already was or a
      fatal list grew, and the property columns keep their indices and
      names. */
  predicate Step(a: RowState, b: RowState) {
    && ListsGrow(a.errors, b.errors)
    && (b.fatal <==> a.fatal || FatalListGrew(a.errors, b.errors))
    && SameColumns(a.props, b.props)
    && a.deletePreview <= b.deletePreview
    && a.deleteSql <= b.deleteSql
  }

  lemma StepRefl(a: RowState)
    ensures Step(a, a)
  {
    forall s ensures Entries(a.errors, s) <= Entries(a.errors, s) {}
  }

  lemma StepTrans(a: RowState, b: RowState, c: RowState)
    requires Step(a, b) && Step(b, c)
    ensures Step(a, c)
  {
    ListsGrowTrans(a.errors, b.errors, c.errors);
    FatalGrewTrans(a.errors, b.errors, c.errors);
  }

  lemma ListsGrowTrans(a: ErrorLists, b: ErrorLists, c: ErrorLists)
    requires ListsGrow(a, b) && ListsGrow(b, c)
    ensures ListsGrow(a, c)
  {
    forall s ensures Entries(a, s) <= Entries(c, s) {
      assert Entries(a, s) <= Entries(b, s);
      assert Entries(b, s) <= Entries(c, s);
    }
  }

  /** Over two steps in which the lists only grow, a fatal list grew
      exactly when it grew in one of them. */
  lemma FatalGrewTrans(a: ErrorLists, b: ErrorLists, c: ErrorLists)
    requires ListsGrow(a, b) && ListsGrow(b, c)
    ensures FatalListGrew(a, c) <==> FatalListGrew(a, b) || FatalListGrew(b, c)
  {
    if FatalListGrew(a, b) {
      var s :| s != DeleteNotInDbSec && |Entries(a, s)| < |Entries(b, s)|;
      assert Entries(b, s) <= Entries(c, s);
      assert |Entries(a, s)| < |Entries(c, s)|;
    }
    if FatalListGrew(b, c) {
      var s :| s != DeleteNotInDbSec && |Entries(b, s)| < |Entries(c, s)|;
      assert Entries(a, s) <= Entries(b, s);
      assert |Entries(a, s)| < |Entries(c, s)|;
    }
    if FatalListGrew(a, c) {
      var s :| s != DeleteNotInDbSec && |Entries(a, s)| < |Entries(c, s)|;
      assert Entries(a, s) <= Entries(b, s);
      assert Entries(b, s) <= Entries(c, s);
      assert |Entries(a, s)| < |Entries(b, s)| || |Entries(b, s)| < |Entries(c, s)|;
    }
  }

  /** A failed check on a fatal list is a step. */
  lemma FlagStep(st: RowState, s: Section, entry: string)
    requires s != DeleteNotInDbSec
    ensures Step(st, Flag(st, s, entry))
  {
    var r := Flag(st, s, entry);
    assert |Entries(st.errors, s)| < |Entries(r.errors, s)|;
    forall t ensures Entries(st.errors, t) <= Entries(r.errors, t) {}
  }

  /** A check that either passes or flags a fatal list is a step. */
  lemma MaybeFlagStep(st: RowState, cond: bool, s: Section, entry: string)
    requires s != DeleteNotInDbSec
    ensures Step(st, if cond then Flag(st, s, entry) else st)
  {
    if cond { FlagStep(st, s, entry); } else { StepRefl(st); }
  }

  lemma CheckTermsStep(lk: Lookups, st: RowState, lineCt: nat,
                       qual: string, evid: string, jNum: string, creator: string)
    ensures Step(st, CheckTerms(lk, st, lineCt, qual, evid, jNum, creator))
  {
    var s1 := if qual !in lk.qualifiers then Flag(st, QualifierSec, LineEntry(lineCt, qual)) else st;
    var s2 := if evid !in lk.evidence then Flag(s1, EvidenceSec, LineEntry(lineCt, evid)) else s1;
    var s3 := if jNum !in lk.jNums then Flag(s2, JNumSec, LineEntry(lineCt, jNum)) else s2;
    var s4 := if creator !in lk.users then Flag(s3, UserSec, LineEntry(lineCt, creator)) else s3;
    MaybeFlagStep(st, qual !in lk.qualifiers, QualifierSec, LineEntry(lineCt, qual));
    MaybeFlagStep(s1, evid !in lk.evidence, EvidenceSec, LineEntry(lineCt, evid));
    MaybeFlagStep(s2, jNum !in lk.jNums, JNumSec, LineEntry(lineCt, jNum));
    MaybeFlagStep(s3, creator !in lk.users, UserSec, LineEntry(lineCt, creator));
    StepTrans(st, s1, s2);
    StepTrans(st, s2, s3);
    StepTrans(st, s3, s4);
  }

  lemma CheckTermStep(c: Category, st: RowState, lineCt: nat, relId: string, t: RelTerm)
    ensures Step(st, CheckTerm(c, st, lineCt, relId, t))
  {
    var e := LineEntry(lineCt, relId);
    var s1 := if t.isObsolete != 0 then Flag(st, ObsoleteSec, e) else st;
    var s2 := if t.vocabKey != c.vocabKey then Flag(s1, RelVocabSec, e) else s1;
    var s3 := if t.dagKey != c.dagKey then Flag(s2, RelDagSec, e) else s2;
    MaybeFlagStep(st, t.isObsolete != 0, ObsoleteSec, e);
    MaybeFlagStep(s1, t.vocabKey != c.vocabKey, RelVocabSec, e);
    MaybeFlagStep(s2, t.dagKey != c.dagKey, RelDagSec, e);
    StepTrans(st, s1, s2);
    StepTrans(st, s2, s3);
  }

  lemma CheckRelationshipStep(lk: Lookups, c: Category, st: RowState, lineCt: nat, relId: string)
    ensures Step(st, CheckRelationship(lk, c, st, lineCt, relId))
  {
    if relId !in lk.relationships {
      FlagStep(st, RelIdSec, LineEntry(lineCt, relId));
    } else {
      CheckTermStep(c, st, lineCt, relId, lk.relationships[relId]);
    }
  }

  lemma ValidatedStep(env: RowEnv, st: RowState, lineCt: nat, f: seq<string>)
    requires |f| == 13 && f[1] in env.lookups.categories
    ensures Step(st, Validated(env, st, lineCt, f))
  {
    var c := env.lookups.categories[f[1]];
    var s1 := CheckAction(st, lineCt, f[0]);
    var s2 := CheckTerms(env.lookups, s1, lineCt, DefaultQualifier(f[8]), f[9], f[10], f[11]);
    MaybeFlagStep(st, f[0] != "add" && f[0] != "delete", ActionSec, LineEntry(lineCt, f[0]));
    CheckTermsStep(env.lookups, s1, lineCt, DefaultQualifier(f[8]), f[9], f[10], f[11]);
    CheckRelationshipStep(env.lookups, c, s2, lineCt, f[4]);
    StepTrans(st, s1, s2);
    StepTrans(st, s2, Validated(env, st, lineCt, f));
  }

  /** Appending a batch to the invalid-property-value list, fatal when the
      batch is not empty, is a step. */
  lemma AppendAllStep(st: RowState, bad: seq<string>, props: seq<PropColumn>)
    requires SameColumns(st.props, props)
    ensures Step(st, st.(props := props, errors := AppendAll(st.errors, BadPropValueSec, bad),
                         fatal := st.fatal || |bad| > 0))
  {
    var lists := AppendAll(st.errors, BadPropValueSec, bad);
    forall t ensures Entries(st.errors, t) <= Entries(lists, t) {}
    forall t | t != BadPropValueSec ensures Entries(lists, t) == Entries(st.errors, t) {}
    if |bad| > 0 {
      assert |Entries(st.errors, BadPropValueSec)| < |Entries(lists, BadPropValueSec)|;
    }
  }

  lemma CheckPropertiesStep(st: RowState, isFloat: string -> bool, lineCt: nat, values: seq<string>)
    requires PropsFit(st.props, values)
    ensures Step(st, CheckProperties(st, isFloat, lineCt, values))
  {
    AppendAllStep(st, ScoreEntries(st.props, values, isFloat, lineCt), MarkColumns(st.props, values));
  }

  lemma ApplyDeleteStep(st: RowState, d: DeleteResult)
    requires ApplyDelete(st, d).Continue?
    ensures Step(st, ApplyDelete(st, d).st)
  {
    var r := ApplyDelete(st, d).st;
    forall t ensures Entries(st.errors, t) <= Entries(r.errors, t) {}
    forall t | t != DeleteNotInDbSec ensures Entries(r.errors, t) == Entries(st.errors, t) {}
  }

  /** Every line is a step. */
  lemma CheckRowStep(env: RowEnv, isFloat: string -> bool, st: RowState, lineCt: nat, line: string)
    requires |Split(line, TAB)| >= 13
    requires PropsWithin(st.props, env.numHeaderColumns)
    requires CheckRow(env, isFloat, st, lineCt, line).Continue?
    ensures Step(st, CheckRow(env, isFloat, st, lineCt, line).st)
  {
    var values := PropertyValues(line);
    if |values| + NUM_NON_PROP_COLUMNS < env.numHeaderColumns {
      FlagStep(st, MissingPropColumnSec, LineEntry(lineCt, line));
    } else {
      var f := FixedFields(line);
      if f[1] !in env.lookups.categories {
        var s1 := CheckAction(st, lineCt, f[0]);
        MaybeFlagStep(st, f[0] != "add" && f[0] != "delete", ActionSec, LineEntry(lineCt, f[0]));
        FlagStep(s1, CategorySec, LineEntry(lineCt, f[1]));
        StepTrans(st, s1, Flag(s1, CategorySec, LineEntry(lineCt, f[1])));
      } else {
        var s := Validated(env, st, lineCt, f);
        ValidatedStep(env, st, lineCt, f);
        CheckedRowStep(env, isFloat, s, lineCt, line, f, values);
        StepTrans(st, s, CheckRow(env, isFloat, st, lineCt, line).st);
      }
    }
  }

  lemma CheckedRowStep(env: RowEnv, isFloat: string -> bool, s: RowState, lineCt: nat, line: string,
                       f: seq<string>, values: seq<string>)
    requires |f| == 13 && f[1] in env.lookups.categories
    requires PropsFit(s.props, values)
    requires !s.fatal ==>
      && DefaultQualifier(f[8]) in env.lookups.qualifiers && f[9] in env.lookups.evidence
      && f[10] in env.lookups.jNums && f[4] in env.lookups.relationships
    requires CheckedRow(env, isFloat, s, lineCt, line, f, values).Continue?
    ensures Step(s, CheckedRow(env, isFloat, s, lineCt, line, f, values).st)
  {
    if f[0] == "delete" && !s.fatal {
      ApplyDeleteStep(s, ResolveDelete(env.lookups, env.alleles, env.markers, env.db,
                                       RequestOf(env.lookups.categories[f[1]], f, line, lineCt)));
    } else if f[0] == "add" {
      CheckPropertiesStep(s, isFloat, lineCt, values);
    } else {
      StepRefl(s);
    }
  }

  /** A completed loop is the completed loop over all lines but the last,
      followed by the last line. */
  lemma RunRowsLast(env: RowEnv, isFloat: string -> bool, st: RowState, lines: seq<string>)
    requires |lines| > 0
    requires forall i :: 0 <= i < |lines| ==> |Split(lines[i], TAB)| >= 13
    requires PropsWithin(st.props, env.numHeaderColumns)
    requires RunRows(env, isFloat, st, lines).RowsDone?
    ensures var prefix := lines[..|lines| - 1];
      && (forall i :: 0 <= i < |prefix| ==> |Split(prefix[i], TAB)| >= 13)
      && RunRows(env, isFloat, st, prefix).RowsDone?
      && var s := RunRows(env, isFloat, st, prefix).st;
      && PropsWithin(s.props, env.numHeaderColumns)
      && CheckRow(env, isFloat, s, |lines| + 1, lines[|lines| - 1]).Continue?
      && RunRows(env, isFloat, st, lines).st == CheckRow(env, isFloat, s, |lines| + 1, lines[|lines| - 1]).st
  {
    var prefix := lines[..|lines| - 1];
    assert forall i :: 0 <= i < |prefix| ==> prefix[i] == lines[i];
    var r0 := RunRows(env, isFloat, st, prefix);
    assert r0.RowsDone?;
    SameColumnsWithin(st.props, r0.st.props, env.numHeaderColumns);
  }

  /** The state after the first `i` data lines fits the header. */
  lemma RunRowsWithin(env: RowEnv, isFloat: string -> bool, st: RowState, lines: seq<string>, i: nat, s: RowState)
    requires i <= |lines|
    requires forall j :: 0 <= j < |lines| ==> |Split(lines[j], TAB)| >= 13
    requires PropsWithin(st.props, env.numHeaderColumns)
    requires RunRows(env, isFloat, st, lines[..i]) == RowsDone(s)
    ensures PropsWithin(s.props, env.numHeaderColumns)
  {
    SameColumnsWithin(st.props, s.props, env.numHeaderColumns);
  }

  /** The loop over one more line, the `i + 1`-th data line being line
      `i + 2` of the file: a line that raises ends the whole loop there. */
  lemma RunRowsNext(env: RowEnv, isFloat: string -> bool, st: RowState, lines: seq<string>, i: nat,
                    s: RowState, out: RowOutcome)
    requires i < |lines|
    requires forall j :: 0 <= j < |lines| ==> |Split(lines[j], TAB)| >= 13
    requires PropsWithin(st.props, env.numHeaderColumns)
    requires RunRows(env, isFloat, st, lines[..i]) == RowsDone(s)
    requires PropsWithin(s.props, env.numHeaderColumns)
    requires out == CheckRow(env, isFloat, s, i + 2, lines[i])
    ensures out.RowCrash? ==> RunRows(env, isFloat, st, lines) == RowsCrash(i + 2)
    ensures out.Continue? ==>
      RunRows(env, isFloat, st, lines[..i + 1]) == RowsDone(out.st) &&
      PropsWithin(out.st.props, env.numHeaderColumns)
  {
    RunRowsSnoc(env, isFloat, st, lines, i, s);
    if out.RowCrash? {
      RunRowsStops(env, isFloat, st, lines, i + 1);
    } else {
      SameColumnsWithin(s.props, out.st.props, env.numHeaderColumns);
    }
  }

  /** The loop over the first `i + 1` lines is the loop over the first
      `i` followed by line `i + 2` of the file. */
  lemma RunRowsSnoc(env: RowEnv, isFloat: string -> bool, st: RowState, lines: seq<string>, i: nat, s: RowState)
    requires i < |lines|
    requires forall j :: 0 <= j < |lines| ==> |Split(lines[j], TAB)| >= 13
    requires PropsWithin(st.props, env.numHeaderColumns)
    requires RunRows(env, isFloat, st, lines[..i]) == RowsDone(s)
    requires PropsWithin(s.props, env.numHeaderColumns)
    ensures RunRows(env, isFloat, st, lines[..i + 1]) ==
      match CheckRow(env, isFloat, s, i + 2, lines[i])
      case RowCrash => RowsCrash(i + 2)
      case Continue(s2) => RowsDone(s2)
  {
    assert lines[..i + 1][..i] == lines[..i];
    assert lines[..i + 1][i] == lines[i];
  }

  /** Columns with the same places fit the same header. */
  lemma SameColumnsWithin(p: seq<PropColumn>, q: seq<PropColumn>, numHeaderColumns: nat)
    requires SameColumns(p, q) && PropsWithin(p, numHeaderColumns)
    ensures PropsWithin(q, numHeaderColumns)
  {
    forall k | 0 <= k < |q|
      ensures q[k].index + 14 <= numHeaderColumns
    {
      assert p[k].index == q[k].index;
    }
  }

  /** The loop stops at the first line whose delete raises. */
  lemma {:induction false} RunRowsStops(env: RowEnv, isFloat: string -> bool, st: RowState, lines: seq<string>, j: nat)
    requires j <= |lines|
    requires forall i :: 0 <= i < |lines| ==> |Split(lines[i], TAB)| >= 13
    requires PropsWithin(st.props, env.numHeaderColumns)
    requires RunRows(env, isFloat, st, lines[..j]).RowsCrash?
    ensures RunRows(env, isFloat, st, lines) == RunRows(env, isFloat, st, lines[..j])
    decreases |lines| - j
  {
    if j < |lines| {
      var p := lines[..|lines| - 1];
      assert p[..j] == lines[..j];
      RunRowsStops(env, isFloat, st, p, j);
    } else {
      assert lines[..j] == lines;
    }
  }

  /** The whole loop is a step. */
  lemma {:induction false} RunRowsStep(env: RowEnv, isFloat: string -> bool, st: RowState, lines: seq<string>)
    requires forall i :: 0 <= i < |lines| ==> |Split(lines[i], TAB)| >= 13
    requires PropsWithin(st.props, env.numHeaderColumns)
    requires RunRows(env, isFloat, st, lines).RowsDone?
    ensures Step(st, RunRows(env, isFloat, st, lines).st)
    decreases |lines|
  {
    if |lines| == 0 {
      StepRefl(st);
    } else {
      var prefix := lines[..|lines| - 1];
      RunRowsLast(env, isFloat, st, lines);
      RunRowsStep(env, isFloat, st, prefix);
      var s := RunRows(env, isFloat, st, prefix).st;
      CheckRowStep(env, isFloat, s, |lines| + 1, lines[|lines| - 1]);
      StepTrans(st, s, RunRows(env, isFloat, st, lines).st);
    }
  }

  /** Starting from empty lists, the fatal flag after the loop is set exactly
      when it was set before the loop (by the ID checks) or some fatal list
      holds an entry. */
  lemma RunRowsFatal(env: RowEnv, isFloat: string -> bool, st: RowState, lines: seq<string>)
    requires forall i :: 0 <= i < |lines| ==> |Split(lines[i], TAB)| >= 13
    requires PropsWithin(st.props, env.numHeaderColumns)
    requires st.errors == map[]
    requires RunRows(env, isFloat, st, lines).RowsDone?
    ensures var r := RunRows(env, isFloat, st, lines).st;
      r.fatal <==> st.fatal || exists s :: s != DeleteNotInDbSec && |Entries(r.errors, s)| > 0
  {
    RunRowsStep(env, isFloat, st, lines);
    var r := RunRows(env, isFloat, st, lines).st;
    assert forall s :: Entries(st.errors, s) == [];
  }

  /** A line with fewer columns than the header is entered in the
      missing-property-columns list, sets the fatal flag and is checked no
      further. */
  lemma ShortRowSkipped(env: RowEnv, isFloat: string -> bool, st: RowState, lineCt: nat, line: string)
    requires |Split(line, TAB)| >= 13
    requires PropsWithin(st.props, env.numHeaderColumns)
    requires |Split(line, TAB)| < env.numHeaderColumns
    ensures var r := CheckRow(env, isFloat, st, lineCt, line);
      && r.Continue? && r.st.fatal
      && Entries(r.st.errors, MissingPropColumnSec) == Entries(st.errors, MissingPropColumnSec) + [LineEntry(lineCt, line)]
      && (forall s :: s != MissingPropColumnSec ==> Entries(r.st.errors, s) == Entries(st.errors, s))
      && r.st.props == st.props && r.st.deletePreview == st.deletePreview && r.st.deleteSql == st.deleteSql
  {
  }

  /** A line of an unknown category gets at most the action entry before its
      category entry; no later check sees it and it changes nothing else. */
  lemma UnknownCategorySkipped(env: RowEnv, isFloat: string -> bool, st: RowState, lineCt: nat, line: string)
    requires |Split(line, TAB)| >= 13
    requires PropsWithin(st.props, env.numHeaderColumns)
    requires |Split(line, TAB)| >= env.numHeaderColumns
    requires FixedFields(line)[1] !in env.lookups.categories
    ensures var r := CheckRow(env, isFloat, st, lineCt, line);
      && r.Continue? && r.st.fatal
      && Entries(r.st.errors, CategorySec) == Entries(st.errors, CategorySec) + [LineEntry(lineCt, FixedFields(line)[1])]
      && (forall s :: s != CategorySec && s != ActionSec ==> Entries(r.st.errors, s) == Entries(st.errors, s))
      && r.st.props == st.props && r.st.deletePreview == st.deletePreview && r.st.deleteSql == st.deleteSql
  {
    var f := FixedFields(line);
    var a := CheckAction(st, lineCt, f[0]);
    assert CheckRow(env, isFloat, st, lineCt, line) == Continue(Flag(a, CategorySec, LineEntry(lineCt, f[1])));
    FlagKeepsOthers(st, ActionSec, LineEntry(lineCt, f[0]));
    FlagKeepsOthers(a, CategorySec, LineEntry(lineCt, f[1]));
  }

  /** An empty qualifier is checked as `not specified`: a line reaching the
      qualifier check adds a qualifier entry exactly when the defaulted
      qualifier is unknown. */
  lemma QualifierDefaulted(env: RowEnv, st: RowState, lineCt: nat, f: seq<string>)
    requires |f| == 13 && f[1] in env.lookups.categories
    ensures var q := if f[8] == "" then "not specified" else f[8];
      var r := Validated(env, st, lineCt, f);
      Entries(r.errors, QualifierSec) ==
        Entries(st.errors, QualifierSec) + (if q in env.lookups.qualifiers then [] else [LineEntry(lineCt, q)])
  {
  }

  /** A line changes the delete output (preview, SQL or the deletes not in
      the database) only when it is a delete, no fatal error was recorded
      before it or by it, and so its category, qualifier, evidence, J
      number, creator and relationship ID are all known. */
  lemma DeleteGate(env: RowEnv, isFloat: string -> bool, st: RowState, lineCt: nat, line: string)
    requires |Split(line, TAB)| >= 13
    requires PropsWithin(st.props, env.numHeaderColumns)
    ensures var r := CheckRow(env, isFloat, st, lineCt, line);
      var f := FixedFields(line);
      (r.RowCrash? ||
       r.st.deletePreview != st.deletePreview || r.st.deleteSql != st.deleteSql ||
       Entries(r.st.errors, DeleteNotInDbSec) != Entries(st.errors, DeleteNotInDbSec)) ==>
        && f[0] == "delete" && !st.fatal
        && |Split(line, TAB)| >= env.numHeaderColumns
        && f[1] in env.lookups.categories
        && DefaultQualifier(f[8]) in env.lookups.qualifiers && f[9] in env.lookups.evidence
        && f[10] in env.lookups.jNums && f[11] in env.lookups.users && f[4] in env.lookups.relationships
  {
    var values := PropertyValues(line);
    if |values| + NUM_NON_PROP_COLUMNS >= env.numHeaderColumns {
      var f := FixedFields(line);
      if f[1] in env.lookups.categories {
        CheckedRowGate(env, isFloat, Validated(env, st, lineCt, f), lineCt, line, f, values);
      }
    }
  }

  /** After the lookups, only a delete with no fatal error recorded touches
      the delete output or raises. */
  lemma CheckedRowGate(env: RowEnv, isFloat: string -> bool, s: RowState, lineCt: nat, line: string,
                       f: seq<string>, values: seq<string>)
    requires |f| == 13 && f[1] in env.lookups.categories
    requires PropsFit(s.props, values)
    requires !s.fatal ==>
      && DefaultQualifier(f[8]) in env.lookups.qualifiers && f[9] in env.lookups.evidence
      && f[10] in env.lookups.jNums && f[4] in env.lookups.relationships
    ensures var r := CheckedRow(env, isFloat, s, lineCt, line, f, values);
      (r.RowCrash? ||
       r.st.deletePreview != s.deletePreview || r.st.deleteSql != s.deleteSql ||
       Entries(r.st.errors, DeleteNotInDbSec) != Entries(s.errors, DeleteNotInDbSec)) ==>
        f[0] == "delete" && !s.fatal
  {
    if f[0] == "add" {
      var c := CheckProperties(s, isFloat, lineCt, values);
      assert Entries(c.errors, DeleteNotInDbSec) == Entries(s.errors, DeleteNotInDbSec);
    }
  }

  /** One leading sign, `+` or `-`, is removed from a score before the
      numeric test, and nothing else. */
  lemma ScoreValueSpec(v: string)
    ensures |v| > 0 && (v[0] == '+' || v[0] == '-') ==> ScoreValue(v) == v[1..]
    ensures !(|v| > 0 && (v[0] == '+' || v[0] == '-')) ==> ScoreValue(v) == v
  {
    if |v| > 0 && (v[0] == '+' || v[0] == '-') {
      assert Find(v, v[0]) == 0;
    }
  }

  /** The invalid-value entries of an add line: one per score column whose
      value is not empty and not a number once its sign is removed, in
      column order. */
  lemma {:induction false} ScoreEntriesSpec(props: seq<PropColumn>, values: seq<string>,
                                            isFloat: string -> bool, lineCt: nat)
    requires PropsFit(props, values)
    ensures var bad := ScoreEntries(props, values, isFloat, lineCt);
      && (|bad| == 0 <==> forall k :: 0 <= k < |props| ==> !BadScore(props[k], values, isFloat))
      && (forall e :: e in bad ==>
            exists k :: 0 <= k < |props| && BadScore(props[k], values, isFloat) &&
              e == BadScoreEntry(lineCt, props[k].name, ScoreValue(values[props[k].index])))
      && |bad| <= |props|
    decreases |props|
  {
    if |props| > 0 {
      var p := props[..|props| - 1];
      assert forall k :: 0 <= k < |p| ==> p[k] == props[k];
      ScoreEntriesSpec(p, values, isFloat, lineCt);
    }
  }

  /** An add line marks every property column it has a value in; its bad
      scores go to the invalid-property-value list and make the run fatal. */
  lemma CheckPropertiesSpec(st: RowState, isFloat: string -> bool, lineCt: nat, values: seq<string>)
    requires PropsFit(st.props, values)
    ensures var r := CheckProperties(st, isFloat, lineCt, values);
      && |r.props| == |st.props|
      && (forall k :: 0 <= k < |st.props| ==>
            r.props[k].hasData == (st.props[k].hasData || values[st.props[k].index] != ""))
      && Entries(r.errors, BadPropValueSec) ==
           Entries(st.errors, BadPropValueSec) + ScoreEntries(st.props, values, isFloat, lineCt)
      && (r.fatal <==> st.fatal || exists k :: 0 <= k < |st.props| && BadScore(st.props[k], values, isFloat))
  {
    ScoreEntriesSpec(st.props, values, isFloat, lineCt);
  }
}
