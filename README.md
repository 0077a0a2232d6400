# FeaR load: a Dafny model of the QC checker and the loader

FeaR is the MGI pipeline that loads feature relationships. Each relationship is
an organizer and a participant (alleles or markers) related by a term of a
relationship vocabulary, with a qualifier, an evidence code, a reference (J
number), a creator and optional properties. Curators supply them as a
tab-separated file: a header line, then one line per relationship, whose
action is `add` or `delete`.

This project models the two programs that handle that file.

**`fearQC.py` (mixed).** It checks the file before anything is loaded:

- `init` fills its lookups from the database.
- `loadTempTables` stages each line's two MGI IDs into a temporary table and
  enters each malformed ID in a bad-ID table.
- `loadTempTableLookups` fills the allele and marker lookups, first row
  wins.
- `runQcChecks` then does the rest:
  - checks the header for property columns (`qcHeader`);
  - reports the invalid IDs (`qcInvalidMgiPrefix`);
  - writes the identity sections of the two database checks
    (`qcOrgAllelePartMarker`, `qcOrgMarkerPartMarker`);
  - runs every data line through its checks in a fixed order: short line,
    action, category, qualifier after its default, evidence, J number,
    creator, relationship term, then a delete resolved against the database
    (`processDelete`) or the score property of an add;
  - writes the qc, warning and delete reports (`writeReport`).
- The exit status is 2 when any fatal error was found.

**`fearload.py` (imperative).** The loader:

- takes the next free relationship key (`max + 1`, or 1000 for an empty
  table);
- checks each line's lookups in order, skipping the line at the first that
  fails;
- writes one MGI_Relationship bcp row per accepted line, keys counting up
  from the next free key.

The model's layout:

- **`FearQc` class.** The module-level state of `fearQC.py` becomes the
  fields of this class:
  - the lookups and the fatal flag;
  - the bad-ID table, an insertion-ordered dictionary;
  - the property columns;
  - the error lists;
  - the delete preview and the report texts.
- **Methods.** Each Python function becomes a method with the source's
  loops. It is proved against pure specification functions:
  - `StageLines` for staging;
  - `CheckHeader` for the header;
  - `CheckRow` and `RunRows` for the data lines;
  - `ResolveDelete` for deletes;
  - `WriteReport` for the report.
- **Lemmas.** They state what the source promises about those functions.
- **`FearLoader` class.** The loader is built the same way, with `Load` as
  its specification.

Database queries, the clock and `float()` are inputs:

- A query's result rows are given as sequences.
- The database the delete query reads is a map from the uniqueness key to
  the rows found.
- The numeric test is a function parameter.

Strings are `seq<char>`. Python's `str.strip`, `str.split`, `str.join`,
`str.find`, `str.center`, `'%-Ns'` padding, `str(n)`, `int()` acceptance and
insertion-ordered `dict` are written out in `Text` and `Collections`.

Where the code and its documentation disagree, the model follows the code:

- `qcHeader` tests `str.find(h, ':')` for truth. So a cell without a colon is
  examined like any other, and a bare `property` cell is an invalid format,
  not an ordinary column (`BarePropertyBadFormat`).
- A participant ID whose suffix is not an integer is entered in the bad-ID
  table as `Organizer` (`ParticipantSuffixLabelledOrganizer`).
- The organizer's marker-status reason contains a tab: `Organizer<TAB>marker
  status is invalid`.
- The chromosome comparison is plain inequality, with no X/XY equivalence.
- Staging compares the stripped category case-sensitively (and exits with
  status 1 when it is unknown), while the row loop compares it lower-cased.
  After a completed staging and with the lower-cased lookup,
  the row loop's unknown-category branch is therefore never taken
  (`StagedCategoryKnown`).
- `writeReport` leaves the fatal flag standing while qc.rpt is being written,
  so deletes not found in the database make the run fatal. The empty-column
  warning reads the action of the last data line only. With no data line at
  all, that variable is unbound and the program raises.

## Model

| member | source | states |
|---|---|---|
| Text.TrimLeftSpec | bin/fearQC.py:1666 | `str.strip`'s left half removes exactly the leading white space: a suffix of the input that does not start with white space, everything cut being white space |
| Text.TrimRightSpec | bin/fearQC.py:1666 | the right half removes exactly the trailing white space: a prefix that does not end with white space |
| Text.StripSpec | bin/fearQC.py:1376-1379 | a stripped field neither starts nor ends with white space and holds only characters of the input |
| Text.Lower | bin/fearQC.py:1376-1379 | lower-casing keeps the length of the field |
| Text.LowerIsLower | bin/fearQC.py:1117 | lower-casing yields a lower-case string and leaves a lower-case string unchanged |
| Text.LowerIdempotent | bin/fearQC.py:1117 | lower-casing twice is lower-casing once |
| Text.Find | bin/fearQC.py:1683 | `find` gives -1 exactly when the character is absent, else the index of its first occurrence |
| Text.Split | bin/fearQC.py:1666 | a split has at least one piece, and more than one exactly when the separator occurs |
| Text.SplitNoSeparator | bin/fearQC.py:1666 | no piece of a split holds the separator |
| Text.JoinSplit | bin/fearQC.py:1666 | joining the pieces of a split with the separator gives back the line |
| Text.SplitJoin | bin/fearQC.py:1725 | splitting the join of separator-free fields gives back the fields |
| Text.SplitPlain | bin/fearQC.py:1683 | a string without the separator splits into itself |
| Text.SplitCons | bin/fearQC.py:1683 | splitting `a:b` with `a` colon-free starts with the piece `a` |
| Text.SplitFirst | bin/fearQC.py:1683 | the first piece is the text before the first separator, the rest is the split of what follows it |
| Text.TwoPiecesOneSeparator | bin/fearQC.py:1143 | a cell that splits into two parts has exactly one separator |
| Text.SplitFirstPiece | bin/fearQC.py:1683 | the first piece is a separator-free prefix of the string |
| Text.SplitLower | bin/fearQC.py:1117 | lower-casing the header does not change how many cells it splits into |
| Text.JoinAppend | bin/fearQC.py:1293 | joining one more piece adds the separator and the piece, or gives the piece alone when there was nothing before |
| Text.ConcatAppend | bin/fearQC.py:1293 | joining one more piece appends it |
| Text.Spaces | bin/fearQC.py:1090 | the padding is as long as asked |
| Text.SpacesBlank | bin/fearQC.py:1090 | the padding holds nothing but blanks |
| Text.PadRight | bin/fearQC.py:1090 | `'%-ws'` has width `w`, or the text's length when that is longer |
| Text.PadRightSpec | bin/fearQC.py:1090 | a padded field starts with its text and continues with blanks only |
| Text.ColumnsStartsWith | bin/fearQC.py:1024 | a line of left-justified fields two blanks apart starts with its first field's text |
| Text.Center | bin/fearQC.py:1097 | `str.center(w)` has width `w`, or the text's length when that is longer |
| Text.NatToStringDigits | bin/fearQC.py:1384 | `str(n)` of a line number is a non-empty run of decimal digits |
| Text.IntToStringNoBreaks | bin/fearQC.py:1725 | `str(n)` of a key holds neither a tab nor a newline |
| Text.NatToStringRoundTrip | bin/fearload.py:352-353 | reading back the digits `str(n)` wrote gives `n` |
| Collections.FirstIndexAppend | bin/fearQC.py:1264-1265 | appending keeps the first index of an element already present; a new one gets the last index |
| Collections.DedupMembers | bin/fearQC.py:1264-1265 | `if x not in l: l.append(x)` keeps each element of the input once and nothing else |
| Collections.DedupOrdered | bin/fearQC.py:1264-1265 | the de-duplicated list keeps the order of first occurrence |
| Collections.DedupSnoc | bin/fearQC.py:1264-1265 | one more element is appended exactly when it is not yet in the list |
| Collections.MapSeqSpec | bin/fearQC.py:1089-1090 | a list built by one append per element holds one result per element, in order |
| Collections.FirstWinsSpec | bin/fearQC.py:356-359 | a `if k not in d: d[k] = v` fill holds exactly the keys written, each bound to the value of the first entry that carries it |
| Collections.LastWinsSpec | bin/fearQC.py:219-220 | a `d[k] = v` fill holds exactly the keys written, each bound to the value of an entry no later entry overrides |
| Collections.OrderedDict.Put | bin/fearQC.py:1684 | `d[k] = v` rebinds the key; a new key goes to the end of the key order, an old one keeps its place |
| Collections.PutAllSpec | bin/fearQC.py:1684-1713 | filling the bad-ID table keeps each ID once, in the order first rejected, bound to its last label |
| Collections.PutAllAppend | bin/fearQC.py:1665-1727 | filling in two runs is filling with the runs one after the other |
| MgiIds.CheckIdSpec | bin/fearQC.py:1683-1696 | an ID is accepted exactly when it starts with `MGI:` and its second colon-piece is an integer literal `int()` accepts; then that piece is the staged number |
| MgiIds.SplitMgiPrefix | bin/fearQC.py:1683 | an ID starting with `MGI:` splits into `MGI` and the pieces of the rest |
| MgiIds.SplitOtherPrefix | bin/fearQC.py:1683 | an ID with a colon but not starting with `MGI:` has a first piece other than `MGI` |
| MgiIds.DigitsArePyInt | bin/fearQC.py:1690-1691 | a run of decimal digits is accepted by `int()` |
| MgiIds.SplitMgiSuffix | bin/fearQC.py:1683-1688 | `MGI:` and a colon-free suffix split into `MGI` and the suffix |
| MgiIds.CheckIdOfPieces | bin/fearQC.py:1683-1696 | an ID whose pieces are `MGI` and a non-empty suffix is judged on the suffix alone |
| MgiIds.CanonicalIdAccepted | bin/fearQC.py:1683-1691 | `MGI:` followed by decimal digits is accepted with the digits as its number |
| MgiIds.StagedNumberIsInt | bin/fearQC.py:1674-1696 | the number staged for any ID is one `int()` accepts: the integer text after `MGI:` of an accepted ID, `0` for a rejected one |
| QcTypes.AppendSpec | bin/fearQC.py:1390-1391 | appending to one error list adds the entry at its end and leaves every other list unchanged |
| QcTypes.LineEntry | bin/fearQC.py:1391 | `'%-12s  %-20s' % (lineCt, value)` starts with the line number |
| Staging.BcpLineRoundTrip | bin/fearQC.py:1725 | a staged bcp line ends in a newline and splits on tabs back into the record's six fields |
| Staging.StagedRecordSpec | bin/fearQC.py:1720-1725 | a record is staged exactly when not both IDs are rejected; a rejected ID is staged as `0`, with the category's two MGI types, the relationship ID and the category as written |
| Staging.BadIdWritesSpec | bin/fearQC.py:1683-1715 | each rejected ID of a line is entered once, organizer first; an organizer is labelled `Organizer`, a participant `Participant` only when its shape is wrong |
| Staging.ParticipantSuffixLabelledOrganizer | bin/fearQC.py:1713 | a participant `MGI:` ID with a non-integer suffix is labelled `Organizer` |
| Staging.StagedLinesWellFormed | bin/fearQC.py:1665-1669 | when staging completes, every line has at least thirteen fields and a category the lookup knows |
| Staging.StagedLastLine | bin/fearQC.py:1665-1669 | a completed staging completed on the lines before the last, and the last has at least thirteen fields and a known category |
| Staging.StagedRecordsTabFree | bin/fearQC.py:1666-1725 | no staged record holds a tab, so each bcp line reads back as its record |
| Staging.StagedIdTabFree | bin/fearQC.py:1688 | the number staged for a tab-free ID is tab-free |
| Staging.LookupKeysCanonical | bin/fearQC.py:352-354 | every allele/marker lookup key is `mgi:` followed by `str()` of a number |
| Text.NatToStringNoLeadingZero | bin/fearQC.py:352-354 | `str(n)` starts with `0` only for zero, which is written `0` |
| Staging.LeadingZerosNotFound | bin/fearQC.py:352-354 | an ID whose number is written with a leading zero and more than one digit is never found in the allele or marker lookup |
| Header.CellEntries | bin/fearQC.py:1143-1155 | a cell adds one bad-property entry exactly when it is rejected |
| Header.HeaderColumnCount | bin/fearQC.py:1117 | the lower-cased header has as many cells as the header as read |
| Header.KnownPropertyShape | bin/fearQC.py:1134-1157 | a cell `a:b` declares a property exactly when `a` strips to `property`, the column is 14 or later and `b` strips to a known name; the name is `b` stripped |
| Header.KnownPropertyOutsideFixed | bin/fearQC.py:1147-1157 | no property is declared in columns 1-13 |
| Header.KnownPropertyTwoParts | bin/fearQC.py:1143 | a declared property splits into exactly two colon-parts |
| Header.KnownPropertyHasOneColon | bin/fearQC.py:1137-1143 | only a cell with exactly one colon declares a property |
| Header.BarePropertyBadFormat | bin/fearQC.py:1134-1144 | a bare `property` cell, without a colon, is an invalid format |
| Header.ScanColumnsDeclared | bin/fearQC.py:1157 | each property column comes from a cell that declares it, at position `column - 14` of the property values, and has no data yet |
| Header.ScanColumnsOrdered | bin/fearQC.py:1130-1157 | the property columns are in column order, each at most once |
| Header.ScanColumnsComplete | bin/fearQC.py:1130-1157 | every property declared in the header is among the property columns |
| Header.ScanEntriesSpec | bin/fearQC.py:1160-1166 | the bad-property list is empty exactly when no cell is rejected |
| Deletes.RowsWithKeySnoc | bin/fearQC.py:1239-1243 | one more query row is appended to its own key's list only |
| Deletes.GroupMapSpec | bin/fearQC.py:1238-1243 | `delRelDict` holds exactly the keys of the rows, each bound to its rows in query order |
| Deletes.PreviewLines | bin/fearQC.py:1253-1294 | one preview line per relationship found |
| Deletes.PreviewLinesSpec | bin/fearQC.py:1253-1294 | the preview line of each relationship, in key order, lists that relationship's distinct properties and notes |
| Deletes.Report | bin/fearQC.py:1253-1298 | found rows never give the not-in-database entry |
| Deletes.RowsWithKeySpec | bin/fearQC.py:1239-1243 | the rows of a key are the query rows carrying it, and a key that occurs has some |
| Deletes.DeleteKeysSpec | bin/fearQC.py:1238-1253 | the relationships deleted are exactly the keys of the rows, each once, and there are none exactly when no row was found |
| Deletes.DeleteKeysOrdered | bin/fearQC.py:1253 | the relationships come in the order their keys first appear |
| Deletes.ResolveDeleteSpec | bin/fearQC.py:1182-1298 | an organizer or participant missing from the lookup of the uniqueness key raises; a delete with no rows gives the not-in-database entry and nothing else; with rows, it is resolved exactly when both symbols are found (the organizer's in the marker lookup for categories 1001 and 1002, the allele lookup otherwise), and then writes one DELETE statement and one preview line, with the symbols, the term and that relationship's properties and notes, per relationship |
| Deletes.FoundSpec | bin/fearQC.py:1245-1298 | no rows give the not-in-database entry; with rows, the delete is resolved exactly when both symbols are found, and is then written as the preview lines and DELETE statements described |
| Deletes.FoundResolved | bin/fearQC.py:1250-1298 | rows and both symbols found: one DELETE statement per distinct relationship key in first-seen order, and one preview line each with the symbols, the term and that relationship's properties and notes |
| Deletes.SqlLinesCover | bin/fearQC.py:1297-1298 | every row found is covered by a DELETE statement for its key |
| Deletes.PropAndNoteListsSpec | bin/fearQC.py:1255-1274 | a relationship's property and note lists hold each string once, in the order first seen, and exactly the strings its rows carry |
| Deletes.PropStringsSpec | bin/fearQC.py:1259-1265 | every property string is `name:"value"` of a row that has a property, and every such row contributes one |
| Rows.Flag | bin/fearQC.py:1390-1391 | a failed check sets the fatal flag and leaves the properties and the delete output unchanged |
| Rows.FlagKeepsOthers | bin/fearQC.py:1390-1391 | a failed check leaves every other error list unchanged |
| Rows.FixedFieldsNormalized | bin/fearQC.py:1376-1379 | the row loop reads thirteen fields, each lower case, without white space at either end, and made of its cell's characters lower-cased |
| Rows.PropertyValues | bin/fearQC.py:1381 | one property value per field after the thirteenth |
| Rows.CheckAction | bin/fearQC.py:1389-1391 | the line stays non-fatal exactly when it was and the action is `add` or `delete`; any other action is entered in the action list |
| Rows.CheckTerms | bin/fearQC.py:1406-1427 | the line stays non-fatal exactly when it was and the qualifier, the evidence, the J number and the creator are all known; an unknown qualifier is entered in its list |
| Rows.CheckTerm | bin/fearQC.py:1437-1452 | a known term stays non-fatal exactly when it is not obsolete and its vocabulary and DAG match the category's |
| Rows.CheckRelationship | bin/fearQC.py:1430-1452 | the line stays non-fatal exactly when the relationship ID is known and its term passes all three checks |
| Rows.HeaderPropsWithin | bin/fearQC.py:1124-1157 | the property columns of an accepted header lie inside its columns |
| Rows.ScoreEntriesSnoc | bin/fearQC.py:1466-1487 | one more property column adds its bad-score entry, if any, at the end |
| Rows.AppendAll | bin/fearQC.py:1487 | a batch of entries is appended to one list and no other list changes |
| Rows.AppendAllTwice | bin/fearQC.py:1487 | appending two batches is appending their concatenation |
| Rows.CheckProperties | bin/fearQC.py:1466-1487 | the property pass keeps the property columns and their places |
| Rows.Validated | bin/fearQC.py:1406-1452 | a line that stays non-fatal through its lookups has a known qualifier, evidence, J number, creator and relationship |
| Rows.CheckedRow | bin/fearQC.py:1455-1487 | the delete or property part of a line keeps the property columns and their places |
| Rows.CheckRow | bin/fearQC.py:1376-1487 | a line that does not raise keeps the property columns and their places |
| Rows.RunRows | bin/fearQC.py:1370-1490 | the loop over the data lines keeps the property columns and their places |
| Rows.StepTrans | bin/fearQC.py:1373-1490 | the row-loop invariant holds over two steps when it holds over each |
| Rows.ListsGrowTrans | bin/fearQC.py:1373-1490 | error lists that only grow over two steps only grow over both |
| Rows.FatalGrewTrans | bin/fearQC.py:1373-1490 | over two steps a fatal list grew exactly when it grew in one of them |
| Rows.FlagStep | bin/fearQC.py:1390-1391 | a failed check on any list but deletes-not-in-database keeps the row-loop invariant |
| Rows.MaybeFlagStep | bin/fearQC.py:1410-1427 | a check that passes or flags keeps the row-loop invariant |
| Rows.CheckTermsStep | bin/fearQC.py:1406-1427 | the four lookups keep the row-loop invariant |
| Rows.CheckTermStep | bin/fearQC.py:1437-1452 | the three term checks keep the row-loop invariant |
| Rows.CheckRelationshipStep | bin/fearQC.py:1430-1452 | the relationship checks keep the row-loop invariant |
| Rows.ValidatedStep | bin/fearQC.py:1406-1452 | all the lookups of a line keep the row-loop invariant |
| Rows.AppendAllStep | bin/fearQC.py:1482-1487 | adding bad scores, fatal when there are any, keeps the row-loop invariant |
| Rows.CheckPropertiesStep | bin/fearQC.py:1459-1487 | the property pass keeps the row-loop invariant |
| Rows.ApplyDeleteStep | bin/fearQC.py:1245-1298 | a resolved delete keeps the row-loop invariant |
| Rows.CheckRowStep | bin/fearQC.py:1376-1487 | every data line that does not raise keeps the row-loop invariant: lists only grow, the fatal flag is set exactly when a fatal list grew, the delete output only grows |
| Rows.CheckedRowStep | bin/fearQC.py:1455-1487 | the delete or property part of a line keeps the row-loop invariant |
| Rows.RunRowsLast | bin/fearQC.py:1370-1490 | a completed loop is the loop over all lines but the last, then the last line |
| Rows.RunRowsWithin | bin/fearQC.py:1370-1490 | the property columns after any number of lines fit the header |
| Rows.RunRowsNext | bin/fearQC.py:1370-1490 | one more line either raises, ending the loop there, or extends the loop by its outcome |
| Rows.RunRowsSnoc | bin/fearQC.py:1370-1490 | the loop over `i + 1` lines is the loop over `i` lines, then line `i + 2` of the file |
| Rows.SameColumnsWithin | bin/fearQC.py:1470-1472 | marking columns does not move them out of the header |
| Rows.RunRowsStops | bin/fearQC.py:1455-1456 | the loop stops at the first line whose delete raises |
| Rows.RunRowsStep | bin/fearQC.py:1370-1490 | the whole loop keeps the row-loop invariant |
| Rows.RunRowsFatal | bin/fearQC.py:1370-1490 | from empty lists, the run is fatal after the loop exactly when it was before or some list except the deletes-not-in-database list has an entry |
| Rows.ShortRowSkipped | bin/fearQC.py:1382-1387 | a line shorter than the header is entered in the missing-columns list, is fatal and is checked no further |
| Rows.UnknownCategorySkipped | bin/fearQC.py:1389-1401 | a line of unknown category gets at most its action entry before its category entry and no later check |
| Rows.QualifierDefaulted | bin/fearQC.py:1406-1412 | an empty qualifier is checked as `not specified`, and the line is entered in the qualifier list exactly when that qualifier is unknown |
| Rows.DeleteGate | bin/fearQC.py:1455-1456 | only a delete line, while no fatal error is recorded and all its lookups are known, touches the delete output or raises |
| Rows.CheckedRowGate | bin/fearQC.py:1455-1459 | after the lookups, only a delete with no fatal error recorded touches the delete output |
| Rows.ScoreValueSpec | bin/fearQC.py:1478-1480 | one leading `+` or `-` is removed before the numeric test, and nothing else |
| Rows.ScoreEntriesSpec | bin/fearQC.py:1475-1487 | an add line has bad-score entries exactly when some non-empty score fails the numeric test; each entry names such a column |
| Rows.CheckPropertiesSpec | bin/fearQC.py:1466-1487 | an add line marks every column it has a value in, its bad scores are appended in column order, and they make the run fatal |
| Identity.ReasonEntryListSet | bin/fearQC.py:705-717 | the list built row by row holds exactly the query's entries |
| Identity.AlleleMarkerEntriesSpec | bin/fearQC.py:695-789 | there are allele/marker entries exactly when some of the six queries found rows, and every row of each query is entered with that query's reason |
| Identity.MarkerReasonIgnoresNull | bin/fearQC.py:1012-1022 | a NULL type or status is judged like an empty one, and the ID plays no part in the reason |
| Identity.MarkerLine | bin/fearQC.py:1024 | each marker/marker entry ends in a newline |
| Identity.MarkerLinesSnoc | bin/fearQC.py:1007-1024 | one more marker/marker row appends its line |
| Identity.MarkerLinesCount | bin/fearQC.py:998-1046 | the marker/marker lines of a role are empty exactly when its query is, and end with the last row's line |
| Identity.SecondaryLinesSnoc | bin/fearQC.py:1055-1068 | one more secondary-ID row appends its line |
| Identity.SecondaryLinesSpec | bin/fearQC.py:1048-1068 | one line per secondary ID, labelled with its role; none exactly when the query found none |
| Identity.ChromosomeCandidates | bin/fearQC.py:659-674 | the chromosome comparison considers exactly the staged records that are not `expresses_component` and not RV:0001555 |
| Report.Present | bin/fearQC.py:1526-1603 | the sections written are exactly those of the report order whose list has entries |
| Report.SectionsTextSpec | bin/fearQC.py:1526-1603 | qc.rpt gets the block of each section with entries, in report order, and nothing else |
| Report.PresentOrdered | bin/fearQC.py:1526-1603 | the sections written keep the report order, each once |
| Report.ReportOrderDistinct | bin/fearQC.py:1526-1603 | no section is listed twice in the report order |
| Report.WriteReportSpec | bin/fearQC.py:1521-1611 | the sections in report order; fatal afterwards exactly when fatal before or some delete was not in the database; the delete preview and its warning exactly when there is something to delete and the run is not fatal |
| Report.InvalidIdEntriesSpec | bin/fearQC.py:1088-1090 | one invalid-ID entry per ID of the bad-ID table, in table order, naming the ID and its label |
| Report.BadIdsEmpty | bin/fearQC.py:1095 | the bad-ID table is empty exactly when no ID was rejected |
| Report.BadIdTableSpec | bin/fearQC.py:1082-1102 | the table lists each rejected ID once in the order first rejected, with its last label; the section is written exactly when some ID was rejected |
| Report.EmptyColumns | bin/fearQC.py:1496-1499 | the empty columns are exactly the names of the columns no add line gave data |
| Report.EmptyColumnsWarningSpec | bin/fearQC.py:1496-1503 | the warning is written exactly when the last line is an add and some property column never received data |
| FearQcProgram.FillLowered | bin/fearQC.py:219-220 | a lookup filled with lower-cased names, a later row replacing an earlier one |
| FearQcProgram.FillLookups | bin/fearQC.py:215-305 | every lookup of `init` is filled from its query's rows |
| FearQcProgram.LoweredKeys | bin/fearQC.py:220 | every key of a lower-cased lookup is lower case and the lower-cased name of some row |
| FearQcProgram.StageLinesStops | bin/fearQC.py:1665-1669 | staging stops at the first line that aborts it |
| FearQcProgram.StagedCategoryKnown | bin/fearQC.py:1394-1401 | after a completed staging, every line's lower-cased category is in the lower-cased lookup, so the row loop never finds it unknown |
| FearQcProgram.StageStep | bin/fearQC.py:1665-1727 | one more line of a staging that has not aborted: too short, unknown category, or its ID checks and record |
| FearQcProgram.StageShort | bin/fearQC.py:1666 | a line of fewer than thirteen fields ends staging |
| FearQcProgram.StageUnknown | bin/fearQC.py:1667-1669 | a line whose category is unknown ends staging with exit status 1 |
| FearQcProgram.StagedForChecked | bin/fearQC.py:1720-1725 | the record a line stages, given its two ID checks |
| FearQcProgram.StagedBcp | bin/fearQC.py:1720-1725 | the bcp text a line adds, given its two ID checks |
| FearQcProgram.BadIdsStep | bin/fearQC.py:1683-1715 | the bad-ID table after one line's two checks |
| FearQcProgram.BcpTextSnoc | bin/fearQC.py:1725 | a line adds its bcp line when it stages a record, and nothing otherwise |
| FearQcProgram.BcpTextAppend | bin/fearQC.py:1725 | the bcp text of two runs of records is their concatenation |
| FearQcProgram.FirstWinsSnoc | bin/fearQC.py:356-359 | one more entry is entered unless its key is present |
| FearQcProgram.EntriesSnoc | bin/fearQC.py:351-359 | one more allele/marker row adds its allele and its marker |
| FearQcProgram.AlleleEntriesSnoc | bin/fearQC.py:352-357 | one more allele/marker row adds its allele |
| FearQcProgram.RowMarkersSnoc | bin/fearQC.py:354-359 | one more allele/marker row adds its marker |
| FearQcProgram.MarkerPairStep | bin/fearQC.py:384-391 | one more marker/marker row enters its organizer, then its participant, each unless present |
| FearQcProgram.MarkerEntriesSnoc | bin/fearQC.py:384-391 | one more marker/marker row adds its organizer, then its participant |
| FearQcProgram.CheckHeaderBy | bin/fearQC.py:1117-1166 | the verdict on a header starting with `action`, given its bad-property entries and property columns |
| FearQcProgram.ReasonEntries | bin/fearQC.py:705-717 | one allele/marker query's entries, built row by row |
| FearQcProgram.AlleleMarkerEntriesOf | bin/fearQC.py:705-785 | the six queries' entries together are exactly the allele/marker entries |
| FearQcProgram.AlleleMarkerErrorList | bin/fearQC.py:705-785 | `errorList` holds exactly the allele/marker entries |
| FearQcProgram.ListOfSet | bin/fearQC.py:787-788 | `list(set(errorList))` lists every entry once, in whichever order the set yields |
| FearQcProgram.GroupRows | bin/fearQC.py:1238-1243 | the grouping loop gives the keys in the order first seen, each bound to its rows in query order |
| FearQcProgram.DedupLists | bin/fearQC.py:1255-1274 | the inner loop's property and note lists are the de-duplicated property strings and stripped notes |
| FearQcProgram.ResolveRows | bin/fearQC.py:1238-1298 | the rest of `processDelete`, given the rows, computes what the delete resolves to |
| FearQcProgram.PreviewLinesSnoc | bin/fearQC.py:1253-1298 | one more relationship adds its preview line and its DELETE statement |
| FearQcProgram.DeleteLines | bin/fearQC.py:1253-1298 | one preview line and one DELETE statement per relationship, in key order |
| FearQcProgram.FearQc.constructor | bin/fearQC.py:201-315 | the lookups filled from their queries, every list and table empty, the run not fatal |
| FearQcProgram.FearQc.CheckOrganizer | bin/fearQC.py:1683-1696 | a rejected organizer is entered in the bad-ID table as `Organizer` |
| FearQcProgram.FearQc.CheckParticipant | bin/fearQC.py:1702-1715 | a malformed participant is entered as `Participant`, one with a non-integer suffix as `Organizer` |
| FearQcProgram.FearQc.StageLine | bin/fearQC.py:1666-1725 | a line's rejected IDs are entered in the bad-ID table and its record, if any, is appended to the bcp text |
| FearQcProgram.FearQc.LoadTempTables | bin/fearQC.py:1642-1727 | the header's column count, then the staging of the data lines until one is too short or its category is unknown |
| FearQcProgram.FearQc.LoadTempTableLookups | bin/fearQC.py:326-393 | the allele and marker lookups are the first-wins fills of the two joins' rows |
| FearQcProgram.FearQc.LoadAlleleMarkerRows | bin/fearQC.py:351-359 | the first join fills the alleles and the participants' markers |
| FearQcProgram.FearQc.LoadAlleleMarkerRow | bin/fearQC.py:352-359 | one allele/marker row enters its allele and its marker, each unless present |
| FearQcProgram.FearQc.LoadMarkerPairs | bin/fearQC.py:384-391 | the second join enters both markers of each row, the organizer's first |
| FearQcProgram.FearQc.QcHeaderCell | bin/fearQC.py:1130-1157 | one header cell adds its bad-property entry or its property column |
| FearQcProgram.FearQc.ScanHeader | bin/fearQC.py:1117-1157 | the loop over the header cells builds the bad-property list and the property columns |
| FearQcProgram.FearQc.QcHeader | bin/fearQC.py:1113-1168 | the outcome is the header verdict; a failed header has its report written |
| FearQcProgram.FearQc.InvalidIdList | bin/fearQC.py:1088-1090 | the invalid-ID entries, built in table order |
| FearQcProgram.FearQc.QcInvalidMgiPrefix | bin/fearQC.py:1082-1102 | the run is fatal exactly when the bad-ID table has an ID, and then the section is written |
| FearQcProgram.FearQc.WriteSecondaryLines | bin/fearQC.py:1055-1068 | the secondary-ID lines of one role, written one by one |
| FearQcProgram.FearQc.QcSecondary | bin/fearQC.py:1048-1068 | the secondary-ID section is fatal, and written, exactly when either query found rows |
| FearQcProgram.FearQc.WriteMarkerLines | bin/fearQC.py:1007-1046 | the marker/marker lines of one role, written one by one |
| FearQcProgram.FearQc.QcOrgMarkerPartMarker | bin/fearQC.py:998-1070 | the marker/marker and secondary-ID sections; fatal exactly when a query found rows |
| FearQcProgram.FearQc.QcMarkerMarkerEntries | bin/fearQC.py:998-1046 | the heading when either query found rows, which makes the run fatal, then the organizer lines and the participant lines |
| FearQcProgram.FearQc.QcChromosomes | bin/fearQC.py:813-826 | the chromosome warning: one entry per row, written when there is any |
| FearQcProgram.FearQc.QcOrgAllelePartMarker | bin/fearQC.py:695-828 | the allele/marker entries in set order, the secondary-ID section and the chromosome warning; fatal exactly when a query other than the chromosome one found rows |
| FearQcProgram.FearQc.QcAlleleMarkerEntries | bin/fearQC.py:695-789 | the heading when some query found rows, which makes the run fatal, then every entry once |
| FearQcProgram.FearQc.ProcessDelete | bin/fearQC.py:1178-1300 | the delete resolves as `ResolveDelete` states |
| FearQcProgram.FearQc.ApplyResult | bin/fearQC.py:1245-1298 | the not-in-database entry, or the preview and SQL lines, are added to what the run has gathered |
| FearQcProgram.FearQc.Record | bin/fearQC.py:1390-1391 | a failed check: its entry appended and the run made fatal |
| FearQcProgram.FearQc.QcProperties | bin/fearQC.py:1466-1487 | the property pass of an add line updates the state as `CheckProperties` states |
| FearQcProgram.FearQc.QcProperty | bin/fearQC.py:1468-1487 | one property column is marked on its value, and a bad score is entered and made fatal |
| FearQcProgram.FearQc.QcLine | bin/fearQC.py:1376-1490 | one data line updates the state as `CheckRow` states, or raises |
| FearQcProgram.FearQc.QcCategorized | bin/fearQC.py:1389-1487 | a line of known category: the action and the lookups, then the delete or the property pass |
| FearQcProgram.FearQc.QcAction | bin/fearQC.py:1389-1391 | the action check of a line |
| FearQcProgram.FearQc.QcChecked | bin/fearQC.py:1455-1487 | a delete only while the run is not fatal, the properties of an add |
| FearQcProgram.FearQc.QcTerms | bin/fearQC.py:1406-1427 | the qualifier, evidence, J number and creator lookups |
| FearQcProgram.FearQc.QcRelationship | bin/fearQC.py:1430-1452 | the relationship ID lookup and the term's three checks |
| FearQcProgram.FearQc.QcLines | bin/fearQC.py:1370-1490 | the data-line loop ends as `RunRows` states, with the number of the line that raised |
| FearQcProgram.FearQc.QcNextLine | bin/fearQC.py:1373-1490 | one turn of the loop: the state after `i + 1` lines, or the line that raised |
| FearQcProgram.FearQc.WarnEmptyColumns | bin/fearQC.py:1496-1503 | the empty-property-column warning after the loop |
| FearQcProgram.FearQc.WriteReportOut | bin/fearQC.py:1521-1613 | `writeReport` writes and sets what `WriteReport` states |
| FearQcProgram.FearQc.RunQcChecks | bin/fearQC.py:1311-1509 | a failed header ends with status 2 and its report; otherwise status 0 exactly when the run was not fatal, no ID was rejected, no identity query found rows and no error list has an entry; only then is the delete report written |
| FearQcProgram.FearQc.QcAfterHeader | bin/fearQC.py:1357-1509 | after an accepted header: status 0 exactly when nothing fatal was found; with no data line the program raises |
| FearQcProgram.FearQc.Run | bin/fearQC.py:1757-1782 | an unknown category at staging exits with status 1, a short line raises, a bad header exits with 2; otherwise status 0 exactly when no ID was rejected, no identity query found rows and no error list has an entry, and only such a run writes the delete report |
| FearQcProgram.FearQc.LoadAll | bin/fearQC.py:311-315 | staging, then the lookups; after a completed staging the bad-ID table is built from the rejected IDs and is empty exactly when none was rejected, and every line has at least thirteen fields |
| FearQcProgram.FearQc.QcHeaderPhase | bin/fearQC.py:1349-1352 | the header check passes exactly when the header does, writes its report, and leaves columns that fit the header |
| FearQcProgram.FearQc.QcIdentity | bin/fearQC.py:1357-1365 | the ID checks make the run fatal exactly when the bad-ID table has an ID or an identity query found a fatal problem |
| FearQcProgram.FearQc.QcRowsAndReport | bin/fearQC.py:1370-1509 | the loop and the report: status 0 exactly when the run was not fatal and no list has an entry; with no data line the program raises |
| FearQcProgram.FearQc.QcRows | bin/fearQC.py:1370-1490 | unless a delete raises, fatal after the loop exactly when fatal before or some list except deletes-not-in-database has an entry |
| FearQcProgram.FearQc.Finish | bin/fearQC.py:1779-1782 | status 0 exactly when the run was not fatal before the report and no delete was missing from the database, else 2; a delete report is written only with status 0 |
| FearLoad.NextKeyFresh | bin/fearload.py:157-169 | the next key exceeds every key in the table: `max + 1`, or 1000 for an empty table |
| FearLoad.ResolveLineSpec | bin/fearload.py:307-349 | a line is accepted exactly when every lookup succeeds, then with the keys its fields name; otherwise it is rejected at the first lookup in order that fails |
| FearLoad.QualifierDefaultSpec | bin/fearload.py:328-334 | an empty qualifier is looked up as `Not Specified`, any other as written, case and all |
| FearLoad.BcpRowRoundTrip | bin/fearload.py:352-353 | a bcp row splits back into its twelve fields: the key, the eight keys with the user key twice, and the date twice |
| FearLoad.NumberedRowsAppend | bin/fearload.py:352-354 | one more accepted line appends its row with the next key |
| FearLoad.LoadLineSpec | bin/fearload.py:305-354 | an accepted line writes its row with the current key and moves the key on by one; a rejected line writes nothing and uses no key |
| FearLoad.LoadSpec | bin/fearload.py:303-354 | the load writes one row per accepted line, in file order, keyed consecutively from the next free key |
| FearLoad.FillMap | bin/fearload.py:195-196 | a lookup filled with `d[k] = v`, a later row replacing an earlier one |
| FearLoad.FearLoader.constructor | bin/fearload.py:74-97 | the date of the run and an empty relationship bcp file |
| FearLoad.FearLoader.Init | bin/fearload.py:135-242 | the next keys from the two key queries; each lookup filled from its query's rows, keyed by the database's own spelling |
| FearLoad.FearLoader.CreateFiles | bin/fearload.py:293-354 | the loop writes what `Load` states and leaves the next key past the rows written |
| FearLoad.FearLoader.CreateLine | bin/fearload.py:305-354 | one turn of the loop does what `LoadLine` states |

## Left out

- `checkArgs`, `openFiles` and `closeFiles` in both programs are left out, as are file handles and environment variables: they are I/O. Each output file is a string the methods extend.
- The SQL of every query is not modelled. The model takes the result rows as inputs, and the delete query is a map from the uniqueness key to its rows. The only filter modelled is the one that decides which records the chromosome check considers (`ChromosomeCandidates`).
- The bcp shell command of `loadTempTables` and its exit with status 1 on failure are left out; the temporary table is the staged records.
- The index creation on the temporary tables and the `nonExpComp` table are left out: they are database side effects.
- `print`, `sys.stdout.flush` and the timing messages are left out, including the `print` of each relationship's DAG keys in the row loop.
- `hasWarnErrors` is left out: it is set but never read.
- `egSymbolDict` is left out: `init` fills it and nothing reads it.
- `float()` is the parameter `isFloat`: its IEEE semantics are not modelled.
- `list(set(errorList))` in `qcOrgAllelePartMarker` has no fixed order. The model takes the order as a parameter that must list every entry once (`Enumerates`).
- Unicode: `str.lower` is modelled on ASCII letters only, other characters unchanged, and `int()` on ASCII digits. `str.isspace` uses Python's set of white-space characters.
- fearload.py: a data line is required to split into exactly fourteen fields. The source's tuple unpacking raises on any other count, and that error path is not modelled.
- fearload.py: `nextPropertyKey` is computed (as `Init` states) but nothing uses it. The property bcp file is opened and never written, so it is not modelled.
- fearload.py: `DATE` is a parameter, since it comes from the clock; the skip messages are `print`s.
- FearQcProgram.FearQc.QcIdentity: states the fatal flag but not the report texts. The sub-methods state the texts (`QcInvalidMgiPrefix`, `QcOrgAllelePartMarker`, `QcOrgMarkerPartMarker`).
- FearQcProgram.FearQc.Run: states the exit status in terms of the bad-ID table. `LoadAll` links that table to the IDs rejected at staging.
- FearQcProgram.FearQc.QcAfterHeader: states the exit status but not the report texts, which its sub-methods state.
