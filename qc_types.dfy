/** The records fearQC.py reads from the database and the error lists it
    accumulates while it checks an input file. */
module QcTypes {
  import opened Text
  import opened Collections

  /** A row of MGI_Relationship_Category. */
  datatype Category = Category(
    name: string,
    key: int,
    vocabKey: int,
    dagKey: int,
    mgiTypeKey1: int,
    mgiTypeKey2: int)

  /** A relationship vocabulary term, looked up by its accession ID. */
  datatype RelTerm = RelTerm(objectKey: int, term: string, isObsolete: int, dagKey: int, vocabKey: int)

  /** An allele or marker: database key and symbol (`[key, symbol]` in the
      source's lookups). */
  datatype ObjInfo = ObjInfo(key: int, symbol: string)

  /** MGI type of alleles; the organizer type that selects the allele lookup. */
  const ALLELE_TYPE: int := 11

  /** The lookups `init` builds, every key lower-cased. */
  datatype Lookups = Lookups(
    categories: map<string, Category>,
    relationships: map<string, RelTerm>,
    qualifiers: map<string, int>,
    evidence: map<string, int>,
    jNums: map<string, int>,
    users: map<string, int>,
    validProps: map<string, int>)

  /** The qc.rpt sections that collect one entry per offending data line, in
      the order the report writes them. */
  datatype Section =
    | ActionSec | CategorySec | QualifierSec | EvidenceSec | JNumSec | UserSec
    | RelIdSec | ObsoleteSec | RelVocabSec | RelDagSec
    | BadPropValueSec | MissingPropColumnSec | DeleteNotInDbSec

  const ReportOrder: seq<Section> := [
    ActionSec, CategorySec, QualifierSec, EvidenceSec, JNumSec, UserSec,
    RelIdSec, ObsoleteSec, RelVocabSec, RelDagSec,
    BadPropValueSec, MissingPropColumnSec, DeleteNotInDbSec]

  /** The module-level error lists, one per section; a section never appended
      to is empty. */
  type ErrorLists = map<Section, seq<string>>

  function Entries(lists: ErrorLists, s: Section): seq<string> {
    if s in lists then lists[s] else []
  }

  function Append(lists: ErrorLists, s: Section, entry: string): (r: ErrorLists)
    ensures Entries(r, s) == Entries(lists, s) + [entry]
  {
    lists[s := Entries(lists, s) + [entry]]
  }

  /** Appending to one error list adds the entry at its end and leaves every
      other list as it was. */
  lemma AppendSpec(lists: ErrorLists, s: Section, entry: string)
    ensures Entries(Append(lists, s, entry), s) == Entries(lists, s) + [entry]
    ensures forall t :: t != s ==> Entries(Append(lists, s, entry), t) == Entries(lists, t)
  {
  }

  /** A property column found in the header: its index in the columns after
      the thirteenth, its name, and whether some add row has a value in it
      (`propIndexDict[index] = [name, hasData]`). */
  datatype PropColumn = PropColumn(index: nat, name: string, hasData: bool)

  /** `'%-12s  %-20s' % (lineCt, value)`: the entry most sections use. */
  function LineEntry(lineCt: nat, value: string): (r: string)
    ensures StartsWith(r, NatToString(lineCt))
  {
    PadRight(NatToString(lineCt), 12) + "  " + PadRight(value, 20)
  }

  /** The head of a report section: two blank lines, the title centred,
      the column header line and the dashes line. */
  function Heading(title: string, width: nat, columns: string, dashes: string): string {
    [CRT, CRT] + Center(title, width) + [CRT] + columns + dashes
  }

  /** A report section whose entries are joined by newlines, with no newline
      after the last. */
  function Block(title: string, width: nat, columns: string, dashes: string, entries: seq<string>): string {
    Heading(title, width, columns, dashes) + Join(entries, [CRT])
  }
}
