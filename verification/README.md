# cksr: ClickHouse to StarRocks catalog views, modelled in Dafny

cksr moves reads from a ClickHouse database to a StarRocks database without a flag day. For each table the two engines share, it does four things:

- It adds shim columns on the ClickHouse side. Each shim column, named `<column>_TmpSrConverter`, is an `ALIAS` that turns an IP address or an array into a type the StarRocks catalog can read.
- It renames the StarRocks table to `<table><suffix>`.
- It creates a StarRocks view under the original name. The view is a `UNION ALL` of the ClickHouse rows before a timestamp boundary, read through an external catalog, and the StarRocks rows from the boundary on.
- It pads columns that exist on one side only with typed `CAST`s.

A scheduled auto-updater moves the boundary forward. A rollback undoes all of it: it drops the views, renames the tables back, drops the shim columns and finally drops each catalog once.

The model covers these parts:

- **The builders:** field conversion, shim DDL, the view builder and its SQL, the rollback statements, and the StarRocks column/index builder.
- **The DDL line parser.**
- **The run logic of three commands:** init, rollback (current and legacy) and the auto-updater's boundary and running flag.
- **Supporting pieces:** configuration defaulting and validation, the logger's levels, schema-file paths, and the lock identity.

The two databases are an abstract state, `Warehouse.World`:

- StarRocks tables with their types;
- ClickHouse tables with their columns;
- catalogs;
- sets that say which statements and lookups fail.

Every statement the tool sends is a `Warehouse.Stmt`, and its effect is a transition on that state. The run logic is imperative, as in the source. Classes hold the state. Methods update it and are proved against specification functions over the state (`RollbackRun.RollbackTable`, `InitRun.ProcessRun`, `LegacyRollback.SuffixRun`, …). Lemmas state what those functions guarantee.

Modules follow the source files:

| module | source |
|---|---|
| `FieldConverter` | builder/ckFieldConverter.go |
| `CkAddColumn` | builder/ckAddColumnBuilder.go |
| `ViewClauses`, `ViewBuilderModel`, `ViewSql` | builder/viewBuilder.go |
| `DdlParser`, `DdlTable`, `Schema` | parser/parser.go, parser/table.go, parser/comm.go |
| `RollbackSql` | builder/rollbackBuilder.go |
| `Warehouse` | the statements database/database.go executes |
| `RollbackRun`, `RollbackAll` | internal/rollbackrun/run.go |
| `LegacyRollback` | rollback.go |
| `InitRun` | internal/initrun/run.go |
| `AutoUpdate` | internal/autoupdaterun/run.go |
| `SrAddColumn` | builder/srAddColumnBuilder.go |
| `Configuration` | config/config.go |
| `Logger` | logger/logger.go |
| `Common` | internal/common/common.go |
| `FileOps` | fileops/fileops.go |
| `Text`, `Wrappers` | string helpers (ASCII) and `Option`/`Result` |

## Model

| member | source | states |
|---|---|---|
| Common.BaseOrDefault | internal/common/common.go:42-44 | never empty; a non-empty base is kept |
| Common.BuildIdentity | internal/common/common.go:41-49 | never empty and starts with the defaulted base; equals it iff the role is empty, otherwise is followed by `-` and the role |
| Common.IdentityDeterminesRole | internal/common/common.go:41-49 | for one base, equal identities imply equal roles |
| Common.UpdaterAndRollbackDiffer | internal/common/common.go:12-15 | the updater and rollback identities of a base differ |
| FieldConverter.OriginName | builder/ckFieldConverter.go:24-30 | the origin field's name when a converter has an origin, otherwise its own field's name |
| FieldConverter.OriginType | builder/ckFieldConverter.go:32-38 | the origin field's type when a converter has an origin, otherwise its own field's type |
| FieldConverter.TypePredicatesConsistent | builder/ckFieldConverter.go:257-279 | the specific array kinds are all arrays; no type is both IPv4 and IPv6, and no array is a scalar IP type |
| FieldConverter.Reformat | builder/ckFieldConverter.go:188-214 | the byte loop of reformat computes the reference result, with `None` where the slice `w[:5]` panics |
| FieldConverter.ReformatSkipsPlain | builder/ckFieldConverter.go:209-211 | bytes other than brackets are only accumulated into the buffer |
| FieldConverter.ReformatSkipsSegment | builder/ckFieldConverter.go:209-211 | a bracket-free segment is accumulated as a whole |
| FieldConverter.ReformatNoParens | builder/ckFieldConverter.go:213 | a type without brackets comes back unchanged |
| FieldConverter.NotArrayPrefix | builder/ckFieldConverter.go:197 | bracket-free text never starts with `Array(` |
| FieldConverter.ReformatPanicsOnEmptyInner | builder/ckFieldConverter.go:204-205 | a `)` reached with an empty buffer panics |
| FieldConverter.ReformatKeepsFlatArray | builder/ckFieldConverter.go:194-208 | `Array(X)` with a bracket-free X is kept whole, whatever follows |
| FieldConverter.ReformatRejectsNestedArray | builder/ckFieldConverter.go:195-199 | a second `(` after `Array(` rejects the type with "" |
| FieldConverter.ReformatUnwraps | builder/ckFieldConverter.go:194-208 | any other wrapper is stripped to its bracketed text, case-sensitively |
| FieldConverter.ReformatUnwrapsTwice | builder/ckFieldConverter.go:194-208 | two nested wrappers are both stripped, leaving the innermost text |
| FieldConverter.ReformatArrayStringExample | builder/ckFieldConverter.go:188-214 | `Array(String)` is kept |
| FieldConverter.ReformatNestedExample | builder/ckFieldConverter.go:195-199 | `Array(Array(Int32))` is rejected with "" |
| FieldConverter.ReformatWrapperExamples | builder/ckFieldConverter.go:188-214 | `Nullable(String)` gives `String`; `DateTime64(3)` gives the precision `3` |
| FieldConverter.ReformatLowerCaseArrayExample | builder/ckFieldConverter.go:195 | `array(string)` is treated as a wrapper and gives `string` |
| FieldConverter.ReformatDoubleWrapperExample | builder/ckFieldConverter.go:188-214 | `LowCardinality(Nullable(String))` gives `String` |
| FieldConverter.ReformatEmptyParensExample | builder/ckFieldConverter.go:204-205 | `Tuple()` panics |
| FieldConverter.TypeCheck | builder/ckFieldConverter.go:218-255 | an error, when there is one, is the not-supported error naming the type |
| FieldConverter.TypeCheckAccepts | builder/ckFieldConverter.go:218-255 | a type is accepted iff it is Int/UInt with an empty or numeric width, or, not starting with Int/UInt, an array or one of the seven scalars |
| FieldConverter.TypeCheckIntegerExamples | builder/ckFieldConverter.go:219-232 | `Int32`, `UInt8` and bare `Int` are accepted |
| FieldConverter.TypeCheckRejectExamples | builder/ckFieldConverter.go:226-254 | `Int32x`, `3` and `Decimal` are rejected with the not-supported error |
| FieldConverter.TypeCheckArrayExample | builder/ckFieldConverter.go:235-237 | an array is accepted whatever its element type |
| FieldConverter.NameWithSuffix | builder/ckFieldConverter.go:170-185 | the name with `_TmpSrConverter` appended, taken or not; the result is recognised as an added column |
| FieldConverter.CkNameMap | builder/ckFieldConverter.go:135-168 | a shim is made exactly for the types that need one, named with the suffix and typed String, UInt32 or UInt128 |
| FieldConverter.NewFieldConverter | builder/ckFieldConverter.go:54-87 | fails iff reformat panics or gives "" or the type check fails; on success the origin name and reformatted type are kept, and a shim exists exactly when the type needs one |
| FieldConverter.NewFieldConverterIPv4Example | builder/ckFieldConverter.go:152-158 | an IPv4 column gets a UInt32 shim whose origin is the column |
| FieldConverter.NewFieldConverterStringExample | builder/ckFieldConverter.go:75-81 | a String column passes through without a shim |
| FieldConverter.Eligible | builder/ckFieldConverter.go:107-117 | the fields kept have no materialised or added column, and are no more than the table has |
| FieldConverter.EligibleInOrder | builder/ckFieldConverter.go:107-117 | the fields kept are exactly those that are neither materialised nor added, each at its own position, in table order |
| FieldConverter.ConvertFieldsErrSticks | builder/ckFieldConverter.go:120-124 | once a prefix of the fields fails, the whole list fails with the same error |
| FieldConverter.NewConverters | builder/ckFieldConverter.go:89-133 | the loop computes the reference conversion of the table's fields against the table's own name set |
| FieldConverter.ConvertFieldsSpec | builder/ckFieldConverter.go:89-133 | succeeds iff every eligible field converts, then the k-th converter is the k-th eligible field's; on failure the error names the first eligible field that fails |
| CkAddColumn.KindOf | builder/ckAddColumnBuilder.go:28-57 | the shim kind follows the dispatch priority Array(IPv6), Array(String), other array, IPv6, IPv4, each iff its predicate holds; no kind iff the type needs no shim |
| CkAddColumn.BuildLine | builder/ckAddColumnBuilder.go:17-84 | "" iff there is no origin or its type needs no shim; otherwise `ADD COLUMN IF NOT EXISTS <shim> <type> ALIAS <transform of the origin name>` |
| CkAddColumn.BuildLineMatchesConverter | builder/ckAddColumnBuilder.go:60-76 | for a converter built from a field, the line aliases `<field>_TmpSrConverter` to a transform of the field's own name, and is "" when no shim was made |
| CkAddColumn.ArrayAliasesJoinWithSeparator | builder/ckAddColumnBuilder.go:86-92 | every array alias joins its elements with `'CKTOSRFRAGEMENT'` |
| CkAddColumn.ScalarAliases | builder/ckAddColumnBuilder.go:102-112 | the IPv4 alias is exactly `toUInt32(<orig>)`; the IPv6 alias has the double minus `- -`, the Array(IPv6) element form a single one |
| CkAddColumn.Shimmed | builder/ckAddColumnBuilder.go:120-133 | the kept converters are those with an origin, each drawn from the input, and none with an origin is dropped |
| CkAddColumn.NewCKAddColumnsBuilder | builder/ckAddColumnBuilder.go:120-133 | the filter loop keeps exactly the converters with an origin, in order |
| CkAddColumn.ValidLines | builder/ckAddColumnBuilder.go:147-160 | no more lines than builders |
| CkAddColumn.ValidLinesShape | builder/ckAddColumnBuilder.go:150-160 | every collected line starts with `ADD COLUMN IF NOT EXISTS `, one per builder whose type needs a shim |
| CkAddColumn.CollectLines | builder/ckAddColumnBuilder.go:147-160 | the loop collects the non-empty per-field lines in order |
| CkAddColumn.WriteStatement | builder/ckAddColumnBuilder.go:172-192 | the header, the lines joined by `,\n`, then one `;` |
| CkAddColumn.Build | builder/ckAddColumnBuilder.go:135-197 | computes the reference statement of the builder |
| CkAddColumn.BuildWithExistenceCheck | builder/ckAddColumnBuilder.go:201-203 | equals Build |
| CkAddColumn.StatementShape | builder/ckAddColumnBuilder.go:140-196 | "" iff no builder needs a shim; otherwise starts with `ALTER TABLE db.table on cluster '{cluster}'` and a newline, and ends with `;` |
| DdlParser.PassCharacterises | parser/parser.go:24-35 | a line is skipped iff it is empty, starts with `#` or `--`, or is a lone `(` or `)` |
| DdlParser.Strip | parser/parser.go:50-65 | the scan after the first `(` never produces more text than it reads (None for a push outside the 50-slot stack) |
| DdlParser.FetchVal | parser/parser.go:37-71 | a collapsed value never contains `(`; text without `(` comes back unchanged |
| DdlParser.FetchValIdempotent | parser/parser.go:66-70 | collapsing a collapsed value changes nothing |
| DdlParser.StripLoop | parser/parser.go:41-65 | the loop over the fixed 50-slot array computes the reference scan, with None exactly where an index would fall outside the array |
| DdlParser.FetchValFromFunc | parser/parser.go:37-71 | the recursive procedure computes the reference collapse |
| DdlParser.StripPlain | parser/parser.go:64 | bracket-free text is copied through unchanged |
| DdlParser.TrimSpaceNoBlanks | parser/parser.go:66 | trimming text with no blank at either end leaves it as it is |
| DdlParser.FetchValRound | parser/parser.go:44-70 | one round drops everything up to the first `(`, trims the scanned text and recurses iff a `(` remains |
| DdlParser.StripCallExample | parser/parser.go:50-65 | the scan of `toDate(x)` after its `(` gives `x` |
| DdlParser.FetchValUnwrapsCall | parser/parser.go:37-71 | `toDate(x)` collapses to `x` |
| DdlParser.StripInnerExample | parser/parser.go:50-65 | the scan of `g(x)` gives `x` |
| DdlParser.StripOuterExample | parser/parser.go:57-60 | the scan of `f(g(x))` keeps the inner call, `g(x)` |
| DdlParser.FetchValUnwrapsNested | parser/parser.go:37-71 | `f(g(x))` collapses to `x` |
| DdlParser.StripCloseAt | parser/parser.go:57-64 | at the outermost call level, a bracket-free run, the closing `)` and a bracket-free rest: the scan keeps the run and the rest and drops that `)` |
| DdlParser.StripCallTail | parser/parser.go:57-64 | after the `(` of a call whose argument and trailing text hold no brackets, the scan keeps both and drops the `)` that closes the call |
| DdlParser.FetchValKeepsTail | parser/parser.go:37-71 | a call with a bracket-free argument followed by bracket-free text, such as `toDate(ts) + 1`, collapses to the argument and that text, trimmed |
| DdlTable.Scan | parser/table.go:85-133 | the scan stops at an index between its start and the end of the line, or reports the unbalanced stack |
| DdlTable.SkipSpaces | parser/table.go:72-77 | the first non-space index from the start: everything skipped is a space, and what it stops on is not |
| DdlTable.FetchWordSpec | parser/table.go:70-134 | the returned index never precedes the start; a non-empty word is exactly the slice from the first non-space character to the returned index |
| DdlTable.StepStack | parser/table.go:96-126 | one character moves the array stack and the double-quote flag as Step says, keeping slot 0 empty, or reports the push that would overflow the 100 slots |
| DdlTable.FetchWord | parser/table.go:70-134 | the loop over a 100-slot array stack and a quote flag computes the reference scan, with the final non-empty stack as the error |
| DdlTable.ScanNeutral | parser/table.go:90-94 | bracket- and quote-free characters, and spaces inside an open bracket, are consumed without changing the state |
| DdlTable.ScanPlain | parser/table.go:85-128 | a plain word with no trailing comma is consumed to its end with an empty stack |
| DdlTable.FetchWordPlain | parser/table.go:70-134 | a plain word read from 0 is the whole line |
| DdlTable.FetchWordKeepsGroup | parser/table.go:90-119 | a space inside brackets does not end the word: `f(a b) c` reads `f(a b)` |
| DdlTable.FetchWordUnclosed | parser/table.go:129-132 | an unclosed bracket is the fatal unbalanced-stack error |
| DdlTable.StepIgnoresUnmatchedCloser | parser/table.go:109-126 | a closer whose opener is not on top of the stack leaves the stack unchanged |
| DdlTable.Before | parser/table.go:45 | the text before the first occurrence of a character: free of it, the whole text when absent, and a prefix that the character follows |
| DdlTable.After | parser/table.go:58 | the text after the first occurrence, so that before, the character and after rebuild the text |
| DdlTable.FirstToken | parser/table.go:40-42 | the first whitespace-free token, a prefix of the text |
| DdlTable.RawTableName | parser/table.go:16-55 | a name is found only on a line starting with `CREATE TABLE`, and it is never empty |
| DdlTable.WithName | parser/table.go:56-65 | a dotted name sets the database and table from the first two `.`-parts with backquotes trimmed; otherwise only the table is set; the TTL is kept |
| DdlTable.RawTableNameFrom | parser/table.go:31-48 | a backquoted name is the text between the first two backquotes; an unquoted one is the first token cut at its first `(` |
| DdlTable.CreateLineTrim | parser/table.go:25 | on `CREATE TABLE <rest>` the trimmed remainder is `rest` |
| DdlTable.QualifiedToken | parser/table.go:40-42 | the first token of `db.t (` is `db.t` |
| DdlTable.QualifiedSplit | parser/table.go:57-61 | `db.t` splits into `db` and `t` |
| DdlTable.TableNameQualified | parser/table.go:16-68 | `CREATE TABLE db.t (` names `db.t`, which sets database `db` and table `t` |
| DdlTable.QualifiedNameSets | parser/table.go:57-62 | the name `db.t` sets database `db` and table `t` |
| DdlTable.BackquotedNameStops | parser/table.go:32-37 | after a backquote, the name is the text up to the next backquote, whatever follows it |
| DdlTable.PlainNameSetsTable | parser/table.go:56-65 | a name without dots or backquotes sets only the table name, to itself |
| DdlTable.TableNameBackquotedQualified | parser/table.go:32-37 | a backquoted qualified name is read as the table `db` alone |
| DdlTable.FieldOf | parser/table.go:136-171 | a line not starting with a backquote declares nothing, and one starting with one never reads as nothing; the name is the first word without backquotes, the type the second; the default kind is "" or `DEFAULT`; a failing first word is the error |
| DdlTable.Attrs | parser/table.go:148-167 | the words the DEFAULT loop reads until the first empty one; a plain word is neither empty nor DEFAULT |
| DdlTable.LastDefault | parser/table.go:148-167 | with no DEFAULT the starting kind and expression stay; otherwise the kind is DEFAULT and the expression that of the last DEFAULT |
| DdlTable.DefaultsIsLast | parser/table.go:148-167 | the DEFAULT loop fails iff reading its words fails and otherwise yields the last DEFAULT of those words |
| DdlTable.FieldDefaultIsLast | parser/table.go:136-171 | a parsed column's kind is DEFAULT iff a word after its type is DEFAULT in any case, and then its expression is the trimmed word after the last one; otherwise both are empty |
| DdlTable.DefaultsKind | parser/table.go:148-167 | the default kind found by the token loop is "" or `DEFAULT` |
| DdlTable.DefaultsKindFrom | parser/table.go:148-167 | the same, from any point of the loop where it already holds |
| DdlTable.ScanRun | parser/table.go:85-128 | a run of plain characters does not change the scan's outcome |
| DdlTable.FetchWordAt | parser/table.go:70-134 | after leading spaces, a plain run ending at a space or the line's end is the word, and the index is that end |
| DdlTable.SkipTo | parser/table.go:72-77 | skipping spaces stops at the first non-space |
| DdlTable.FieldWord0 | parser/table.go:143 | the first word of `` `a` Int32 DEFAULT 5 `` is `` `a` `` |
| DdlTable.FieldWord1 | parser/table.go:144 | its second word is the type `Int32` |
| DdlTable.FieldWord2 | parser/table.go:149 | its next word is `DEFAULT` |
| DdlTable.FieldWord3 | parser/table.go:158 | the word after `DEFAULT` is `5` |
| DdlTable.FieldWordEnd | parser/table.go:149-152 | at the end of the line the word is empty |
| DdlTable.FieldDefaults | parser/table.go:148-167 | the token loop on that line finds kind `DEFAULT` and expression `5` |
| DdlTable.FieldWithDefault | parser/table.go:136-171 | the line declares field `a` of type `Int32` with default `5` |
| DdlTable.TtlAfter | parser/table.go:174-186 | a line starting with `ttl ` in any case becomes the TTL |
| DdlTable.TtlCollapseStable | parser/table.go:181-184 | after one non-TTL line has collapsed the TTL, further non-TTL lines leave it unchanged |
| DdlTable.ScanDefaults | parser/table.go:148-167 | the token loop computes the reference default kind and expression |
| DdlTable.TableParser.constructor | parser/table.go:16 | an empty table: no name, no TTL, no fields |
| DdlTable.TableParser.Value | parser/table.go:16 | the table built so far |
| DdlTable.TableParser.ParseTableName | parser/table.go:16-68 | true iff a name is found; then the name is applied, otherwise the DDL is unchanged; fields untouched |
| DdlTable.TableParser.ParseField | parser/table.go:136-171 | a field line appends exactly its field and reports true; any other line changes nothing and reports false; the DDL is untouched |
| DdlTable.TableParser.ParseTTL | parser/table.go:174-186 | reports whether the line is a TTL line, and sets the TTL to the reference value; fields untouched |
| ViewClauses.NameMapOf | builder/viewBuilder.go:113-131 | the name map's keys are exactly the target field names, and each key maps to a field of that name |
| ViewClauses.NameMapOfLastWins | builder/viewBuilder.go:123-130 | a name maps to the last field that declares it: a later duplicate overwrites an earlier one |
| ViewClauses.BuildNameMap | builder/viewBuilder.go:113-143 | the loop builds the reference name map |
| ViewClauses.SRNameFor | builder/viewBuilder.go:683-688 | the target name looked up is `<origin>_int` for IPv4, IPv6, Array(IPv4) and Array(IPv6), and the origin name for every other type |
| ViewClauses.MapSRField | builder/viewBuilder.go:682-695 | succeeds iff that name is a key, with the field stored under it; otherwise the `map failed` error naming it |
| ViewClauses.SRBasicType | builder/viewBuilder.go:666-679 | the byte loop computes the reference basic type |
| ViewClauses.BasicSkipsNoCloser | builder/viewBuilder.go:669-677 | a stretch without `>` only changes the buffer |
| ViewClauses.BasicSkipsPlain | builder/viewBuilder.go:675 | a bracket-free stretch is accumulated |
| ViewClauses.BasicTypeNoCloser | builder/viewBuilder.go:678 | a type without `>` is returned unchanged |
| ViewClauses.BasicTypeInnermost | builder/viewBuilder.go:666-679 | the text between the last `<` before the first `>` and that `>` |
| ViewClauses.BasicTypeExamples | builder/viewBuilder.go:666-679 | `ARRAY<INT>` gives `INT`, `ARRAY<ARRAY<VARCHAR(20)>>` gives `VARCHAR(20)`, `BIGINT` itself |
| ViewClauses.CKClause | builder/viewBuilder.go:639-652 | arrays and shim columns are aliased to the target column's name; any other column is selected under its own backquoted name |
| ViewClauses.ArrayIPV6BodySplits | builder/viewBuilder.go:662-664 | the Array(IPv6) clause splits the shim on `'CKTOSRFRAGEMENT'` |
| ViewClauses.ArrayBodySplits | builder/viewBuilder.go:658-660 | the Array(String) clause splits on the same separator |
| ViewClauses.ArrayMapBodySplits | builder/viewBuilder.go:654-656 | every other array clause splits on the same separator |
| ViewClauses.ClauseProjectsTargetName | builder/viewBuilder.go:639-652 | for a converter built from a column without the shim suffix, the origin clause yields exactly the target column it was mapped to |
| ViewClauses.DefaultCKClause | builder/viewBuilder.go:375-386 | `CAST(<default> AS <trimmed type>)` when the kind is DEFAULT in any case and the expression is not blank, else `CAST(NULL AS <trimmed type>)`; always named after the column |
| ViewClauses.Placeholder | builder/viewBuilder.go:284-292 | the placeholder of a target-only column selects that column, carries no converter, and is named after it |
| ViewClauses.MatchedEntry | builder/viewBuilder.go:241-261 | a matched entry carries its converter and the target field it maps to |
| ViewBuilderModel.Matched | builder/viewBuilder.go:234-265 | one entry per converter whose target column exists, in converter order, each carrying that column |
| ViewBuilderModel.Unmatched | builder/viewBuilder.go:267-293 | the target columns no converter feeds are columns of the map |
| ViewBuilderModel.MatchAll | builder/viewBuilder.go:234-265 | the converter loop produces the matched entries and keeps both lists aligned |
| ViewBuilderModel.MatchedStep | builder/viewBuilder.go:238-262 | one more converter adds its entry exactly when its target column exists |
| ViewBuilderModel.MappedNames | builder/viewBuilder.go:270-273 | the loop records exactly the names of the selected target fields |
| ViewBuilderModel.PadSr | builder/viewBuilder.go:276-285 | one target entry per padded name |
| ViewBuilderModel.PadCk | builder/viewBuilder.go:288-292 | one placeholder per padded name |
| ViewBuilderModel.PadAll | builder/viewBuilder.go:267-294 | after padding the lists are aligned, start with the matched entries, and add the placeholder of every unselected column exactly once |
| ViewBuilderModel.UnmappedNames | builder/viewBuilder.go:276-280 | the names visited and kept are the map's keys outside the selected ones, each once |
| ViewBuilderModel.ElemsSnoc | builder/viewBuilder.go:276-293 | appending a name adds it to the set of names |
| ViewBuilderModel.AlignedNames | builder/viewBuilder.go:254-261 | aligned lists select the same target names |
| ViewBuilderModel.PadAligned | builder/viewBuilder.go:283-292 | each placeholder lines up with its target entry |
| ViewBuilderModel.PadTail | builder/viewBuilder.go:276-293 | every appended entry is the placeholder of a map column under its own name |
| ViewBuilderModel.PadNames | builder/viewBuilder.go:276-293 | the appended entries select exactly the padded names |
| ViewBuilderModel.PaddedShapeFromNames | builder/viewBuilder.go:267-294 | padding every unselected name once gives the padded shape |
| ViewBuilderModel.Extra | builder/viewBuilder.go:333-338 | the selected fields the map does not know |
| ViewBuilderModel.CoverageError | builder/viewBuilder.go:343-363 | with no extra and no missing field the error is the bare count mismatch; with both, it lists both |
| ViewBuilderModel.CheckCoverage | builder/viewBuilder.go:326-351 | the loop finds the unknown selected fields and the map keys not selected |
| ViewBuilderModel.MatchedTargetsKnown | builder/viewBuilder.go:244-255 | matched entries select map columns, each under the name its converter looks up |
| ViewBuilderModel.TargetNamesCard | builder/viewBuilder.go:326 | a list has as many target names as entries iff its names are distinct |
| ViewBuilderModel.MatchedOnEmptyMap | builder/viewBuilder.go:244-249 | without target columns nothing matches |
| ViewBuilderModel.VerdictEmptyIffNoColumns | builder/viewBuilder.go:299-302 | `ck field is empty` is reported iff the target table has no columns |
| ViewBuilderModel.VerdictRefusesSharedTargets | builder/viewBuilder.go:326-367 | with target columns, the view is refused iff two origin columns feed the same target column, and then with the count mismatch |
| ViewBuilderModel.PaddedKnown | builder/viewBuilder.go:267-294 | every padded entry selects a map column |
| ViewBuilderModel.PaddedComplete | builder/viewBuilder.go:267-294 | every map column is selected by the padded lists |
| ViewBuilderModel.PreparedLeavesNoGap | builder/viewBuilder.go:326-363 | after preparation no selected field is unknown and every column is selected, so only the bare count mismatch can be reported |
| ViewBuilderModel.VerdictOfPrepared | builder/viewBuilder.go:299-367 | the checks run on the prepared lists reach the reference verdict |
| ViewBuilderModel.VerdictFromCounts | builder/viewBuilder.go:299-367 | the verdict follows from the counts of matched and padded entries |
| ViewBuilderModel.AllKnownNoExtra | builder/viewBuilder.go:333-338 | when every selected name is known there is no extra field |
| ViewBuilderModel.CkClauses | builder/viewBuilder.go:147-155 | one clause per origin entry, in order |
| ViewBuilderModel.SrClauses | builder/viewBuilder.go:162-170 | one clause per target entry, in order |
| ViewBuilderModel.ViewBuilder.constructor | builder/viewBuilder.go:175-191 | the view is named after the origin table in the target database; the name map is built and the select lists start empty |
| ViewBuilderModel.ViewBuilder.PrepareAndValidate | builder/viewBuilder.go:226-371 | rebuilds both lists into the prepared state and returns the reference verdict |
| ViewBuilderModel.ViewBuilder.CkGenQuerySQL | builder/viewBuilder.go:145-158 | the origin arm over the current clauses |
| ViewBuilderModel.ViewBuilder.SrGenQuerySQL | builder/viewBuilder.go:160-173 | the target arm over the current clauses |
| ViewBuilderModel.ViewBuilder.BuildWithType | builder/viewBuilder.go:200-223 | a refused verdict is returned first; otherwise the statement built from both arms and the query outcome, or its error |
| ViewBuilderModel.ViewBuilder.BuildAlterWithPartition | builder/viewBuilder.go:396-443 | a refused verdict first; otherwise an ALTER VIEW at the checked partition boundary, or the boundary's error |
| ViewSql.ClauseLines | builder/viewBuilder.go:147-155 | one line per clause |
| ViewSql.BuildSelectList | builder/viewBuilder.go:146-156 | the loop computes the reference select list |
| ViewSql.Tabbed | builder/viewBuilder.go:150-152 | one tabbed clause per clause |
| ViewSql.SelectListPrefix | builder/viewBuilder.go:147-156 | the first n lines join to the written prefix of the list |
| ViewSql.SelectListIsJoin | builder/viewBuilder.go:146-156 | the select list is the tabbed clauses joined by `, \n` and closed by ` \n`: each clause once, in order |
| ViewSql.CkQuery | builder/viewBuilder.go:145-158 | starts with `select` and ends with `from catalog.db.table` |
| ViewSql.SrQuery | builder/viewBuilder.go:160-173 | starts with `select` and ends with ` from db.table` and a newline |
| ViewSql.SuffixEntry | builder/viewBuilder.go:456-464 | an entry found through a non-empty pair suffix that ends the table and whose stripped name is configured; none only when no such suffix exists |
| ViewSql.TimestampEntry | builder/viewBuilder.go:446-465 | the table's own key first, then a suffix-stripped key |
| ViewSql.LookupTimestamp | builder/viewBuilder.go:447-465 | the search loop finds the reference entry |
| ViewSql.TimestampColumnName | builder/viewBuilder.go:446-468 | the entry's column, even an empty one, else `recordTimestamp` |
| ViewSql.TimestampColumnType | builder/viewBuilder.go:471-492 | the entry's type, even an empty one, else `bigint` |
| ViewSql.TimestampPrecedence | builder/viewBuilder.go:449-452 | a table's own entry wins over its base's; with no entries the default column applies |
| ViewSql.TimestampFromBase | builder/viewBuilder.go:456-463 | a suffixed table without an entry uses its base table's entry |
| ViewSql.DefaultTimestampValue | builder/viewBuilder.go:495-506 | `'9999-12-31'`, `'9999-12-31 23:59:59'` and `9999999999999` for date, datetime and bigint in any case; an error iff the type is none of them |
| ViewSql.FormatTimestampValue | builder/viewBuilder.go:509-523 | date values are single-quoted unless already quoted; bigint values pass through; an error iff the type is none of the three |
| ViewSql.FormatTimestampIdempotent | builder/viewBuilder.go:513-516 | a formatted date value starts with a quote and formats to itself |
| ViewSql.Boundary | builder/viewBuilder.go:554-620 | a connection failure or an unknown type is an error; no rows or NULL give the type's default; any other query failure is an error; a date or datetime minimum is formatted for its type; a bigint minimum is printed as the int64 it scans to, and one that does not scan is an error |
| ViewSql.BoundaryBigintRoundTrip | builder/viewBuilder.go:605-615 | a bigint boundary reads back as the same 64-bit minimum |
| ViewSql.BoundaryQuotesDates | builder/viewBuilder.go:584-589 | a date minimum is always quoted |
| ViewSql.PartitionBoundary | builder/viewBuilder.go:417-438 | accepted iff the quote-trimmed value parses in the type's layout, or as an int64 for bigint; dates come back quoted, bigints bare |
| ViewSql.PartitionIgnoresQuotes | builder/viewBuilder.go:417 | a quoted and an unquoted partition value give the same boundary |
| ViewSql.ViewHead | builder/viewBuilder.go:632-635 | `alter view` for the ALTER type, `create view if not exists` otherwise |
| ViewSql.ComposeFinalSQL | builder/viewBuilder.go:629-636 | the statement opens with the verb of its type and ends with the target arm |
| ViewSql.PrefixPreserved | builder/viewBuilder.go:633-635 | appending text keeps the statement's opening |
| ViewSql.ComposeSplitsAtBoundary | builder/viewBuilder.go:630-631 | the origin arm keeps `ts < B` and the target arm `ts >= B`, on the same column and boundary |
| ViewSql.GenViewSQL | builder/viewBuilder.go:538-626 | succeeds iff the boundary does, then the statement at that boundary on the resolved column |
| ViewSql.EmptyTargetUsesMaximum | builder/viewBuilder.go:598-604 | with no configuration and no rows the boundary is `9999999999999` on `recordTimestamp` |
| RollbackSql.DropViewSQL | builder/rollbackBuilder.go:26-31 | starts with ``DROP VIEW IF EXISTS ` `` |
| RollbackSql.DropCatalogSQL | builder/rollbackBuilder.go:34-39 | ``DROP CATALOG IF EXISTS `c` ``: the guarded drop of the backquoted catalog |
| RollbackSql.DropCKColumnSQL | builder/rollbackBuilder.go:42-47 | always contains `on cluster '{cluster}' DROP COLUMN IF EXISTS`, directly followed by the backquoted column at the end |
| RollbackSql.DropSRSQL | builder/rollbackBuilder.go:50-63 | the qualified table followed directly by `DROP`, the kind of object and the backquoted name, without IF EXISTS |
| RollbackSql.DropSRColumnSQL | builder/rollbackBuilder.go:50-55 | the qualified table followed directly by `DROP COLUMN` and the column, without IF EXISTS |
| RollbackSql.DropSRIndexSQL | builder/rollbackBuilder.go:58-63 | the qualified table followed directly by `DROP INDEX` and the index, without IF EXISTS |
| RollbackSql.RenameSQL | builder/rollbackBuilder.go:72-76 | ends with `RENAME` and the backquoted new name |
| RollbackSql.RenameSRTableSQL | builder/rollbackBuilder.go:66-77 | "" iff the name does not end in the suffix; otherwise a rename to the name with one trailing suffix removed |
| RollbackSql.RenameStripsSuffix | builder/rollbackBuilder.go:66-77 | `base + suffix` is renamed to `base` |
| RollbackSql.RenameEmptySuffixIsSelfRename | builder/rollbackBuilder.go:66-77 | an empty suffix renames the table to itself |
| RollbackSql.SplitAtTick | builder/rollbackBuilder.go:26-63 | two backquote-free identifiers joined at a backquote split back uniquely |
| RollbackSql.QualifiedInjective | builder/rollbackBuilder.go:26-63 | a statement prefix and a qualified name determine the database, the table and what follows |
| RollbackSql.DropViewInjective | builder/rollbackBuilder.go:26-31 | distinct views give distinct DROP VIEW statements |
| RollbackSql.DropCKColumnInjective | builder/rollbackBuilder.go:42-47 | a CK column drop determines its database, table and column |
| RollbackSql.Names | builder/rollbackBuilder.go:97-110 | the field names, in order |
| RollbackSql.Keep | builder/rollbackBuilder.go:97-110 | the names the filter keeps, and only those, never more than given |
| RollbackSql.KeepSnoc | builder/rollbackBuilder.go:97-110 | filtering one more name appends it iff it is kept |
| RollbackSql.KeepAll | builder/rollbackBuilder.go:97-110 | a filter that accepts every name keeps the whole list |
| RollbackSql.NamesSnoc | builder/rollbackBuilder.go:97-110 | the names of one more field extend the list by its name |
| RollbackSql.RenderCKDrops | builder/rollbackBuilder.go:95-113 | one CK column drop per name, in order |
| RollbackSql.RenderSRDrops | builder/rollbackBuilder.go:116-135 | one SR column drop per name, in order |
| RollbackSql.CKDropStep | builder/rollbackBuilder.go:99-110 | each loop step adds a drop exactly for a shim column |
| RollbackSql.SRDropStep | builder/rollbackBuilder.go:120-132 | each loop step adds a drop exactly for an added SR column |
| RollbackSql.BuildDropCKColumnsSQL | builder/rollbackBuilder.go:95-113 | one drop per field containing `_TmpSrConverter`, in field order |
| RollbackSql.BuildDropSRColumnsSQL | builder/rollbackBuilder.go:116-145 | one drop per field whose name contains `sync_from_ck`, `_added` or `_new`, in field order |
| RollbackSql.SyncFlagNotAddedSRColumn | builder/rollbackBuilder.go:139-145 | the `syncFromCK` column of the SR column builder is not recognised as added |
| RollbackSql.NotContainedShort | builder/rollbackBuilder.go:139-145 | text shorter than a pattern does not contain it |
| RollbackSql.NoUnderscoreNotContained | builder/rollbackBuilder.go:139-145 | a pattern starting with `_` is absent from text without `_` |
| RollbackSql.BuildDropAllViewsSQL | builder/rollbackBuilder.go:162-176 | one DROP VIEW per name, in order |
| RollbackSql.BuildRenameSRTablesSQL | builder/rollbackBuilder.go:191-205 | one rename per name ending in the suffix, in order, each to the stripped name |
| Warehouse.StmtSQL | builder/rollbackBuilder.go:26-77 | a view drop is guarded by IF EXISTS, a column drop is cluster-wide and guarded, a rename ends with its target |
| Warehouse.TableType | internal/rollbackrun/run.go:201-216 | no rows iff the lookup does not fail and the name is absent; a found type is the table's |
| Warehouse.Without | internal/rollbackrun/run.go:253-258 | exactly the other columns remain |
| Warehouse.Apply | database/database.go:164-177 | a failing statement has no effect; a successful one keeps the fault sets |
| Warehouse.ExecuteAll | database/database.go:200-219 | the statements sent are a prefix of the batch; all are sent on success, and at least one on failure; faults are kept |
| Warehouse.ExecuteSingle | database/database.go:200-219 | a batch of one is that statement's effect |
| Warehouse.ExecuteColumnDrops | internal/rollbackrun/run.go:250-258 | column drops on one table leave StarRocks, the catalogs and other tables alone and keep every column they do not drop; on success they remove exactly the dropped columns |
| Warehouse.ExecuteAllSucceeds | database/database.go:200-219 | a batch with no rename and no failing statement succeeds |
| Warehouse.ExecuteOkNotFailing | database/database.go:200-219 | a batch that succeeds contains no failing statement |
| Warehouse.Database.constructor | database/database.go:28-30 | a manager over a given state, nothing sent yet |
| Warehouse.Database.TableNames | rollback.go:86-90 | the StarRocks tables, each once, or an error iff the listing fails |
| Warehouse.Database.IsView | rollback.go:93-97 | whether the table exists with a view type, or an error iff its lookup fails |
| Warehouse.Database.IsNative | rollback.go:153-157 | whether the table is native, or an error iff its lookup fails |
| Warehouse.Database.CkTables | database/database.go:61-98 | the ClickHouse tables, or an error iff the ClickHouse export fails |
| Warehouse.Database.GetTableType | internal/rollbackrun/run.go:201-216 | the reference type lookup |
| Warehouse.Database.GetColumns | internal/rollbackrun/run.go:243-248 | the table's columns, or an error iff its lookup fails |
| Warehouse.Database.CatalogExists | internal/rollbackrun/run.go:363-368 | whether the catalog exists, or an error iff its check fails |
| Warehouse.Database.Execute | database/database.go:200-219 | the batch moves the state and the sent log as the reference execution does |
| RollbackRun.CommonSet | internal/rollbackrun/run.go:138-188 | the common tables are ClickHouse tables and none is ignored |
| RollbackRun.IsCommonCases | internal/rollbackrun/run.go:169-184 | a table is common iff its suffixed table exists and the base is present or not a view, or, with no suffixed table, the base is a non-view table and the ClickHouse table has a shim column |
| RollbackRun.CommonHasState | internal/rollbackrun/run.go:169-184 | a common table has a suffixed StarRocks table or a shim column to roll back |
| RollbackRun.CkHasAdded | internal/rollbackrun/run.go:157-166 | the inner loop finds whether any column of the table contains `_TmpSrConverter` |
| RollbackRun.FindCommonTables | internal/rollbackrun/run.go:111-189 | an error iff a StarRocks listing, the ClickHouse DDL export or the ClickHouse column-map fetch fails, reported in that order; otherwise exactly the common tables, each once |
| RollbackRun.Prechecked | internal/rollbackrun/run.go:198-222 | a failure is a precheck failure; a rename is asked for only when the suffixed table is a BASE TABLE and the base is absent or a view |
| RollbackRun.CkDrops | internal/rollbackrun/run.go:247-253 | a drop for every shim column of the table and nothing else |
| RollbackRun.DropAddedColumns | internal/rollbackrun/run.go:242-259 | only column drops on that table are sent; a failure is tagged with the column step |
| RollbackRun.RollbackChecked | internal/rollbackrun/run.go:224-261 | the view drop is sent first; a rename is sent only when asked for, from the suffixed name to the base; failures are tagged with their step |
| RollbackRun.RollbackTable | internal/rollbackrun/run.go:193-262 | a precheck failure sends nothing and changes nothing; otherwise the view drop is sent first, and a rename only when the precheck asked for it; no failure is untagged |
| RollbackRun.RollbackClearsAddedColumns | internal/rollbackrun/run.go:242-259 | after a successful table rollback no shim column is left, and every column that is not a shim is still there |
| RollbackRun.RollbackRestoresBaseName | internal/rollbackrun/run.go:231-240 | after a successful rollback that renamed, the base name holds the former suffixed table and the suffixed name is gone |
| RollbackRun.PrecheckRefusesConflict | internal/rollbackrun/run.go:209-221 | a suffixed BASE TABLE whose base is a real table stops at the precheck before any statement |
| RollbackRun.RenameIsBuilderSQL | internal/rollbackrun/run.go:233 | the rename statement is the rollback builder's for the suffixed table |
| RollbackRun.CollectCkDrops | internal/rollbackrun/run.go:247-253 | the loop collects the reference drops |
| RollbackRun.RunTables | internal/rollbackrun/run.go:86-103 | successes plus failures never exceed the tables, and equal them unless stopped; under continue it never stops; under stop at most one failure, and it stops iff there is one |
| RollbackRun.RunTablesStep | internal/rollbackrun/run.go:88-102 | one more table adds either a success or one failure record |
| RollbackRun.StoppedStays | internal/rollbackrun/run.go:100 | once the stop strategy has ended the loop, later tables change nothing |
| RollbackRun.ContinueCountsAll | internal/rollbackrun/run.go:96-98 | under continue every table is counted once |
| RollbackRun.StopCountsAttempted | internal/rollbackrun/run.go:100 | under stop a failure ends the loop with exactly one record |
| RollbackRun.PairRun | internal/rollbackrun/run.go:74-107 | a failing up-front fetch (StarRocks listing, ClickHouse export or column map) ends the pair with an error, zero stats and nothing sent; otherwise the total is the number of common tables and successes plus failures account for all of them unless stopped; under continue it errs only on such a fetch |
| RollbackRun.RollbackSteps | internal/rollbackrun/run.go:224-261 | the steps move the state and the sent log as the reference run does |
| RollbackRun.DropAddedColumnsOn | internal/rollbackrun/run.go:242-259 | the column step moves the state as the reference does |
| RollbackRun.RollbackManager.constructor | internal/rollbackrun/run.go:65-71 | a manager for one pair with zero stats |
| RollbackRun.RollbackManager.ExecuteRollbackForTable | internal/rollbackrun/run.go:193-262 | moves the state, the sent log and the failed step as the reference table rollback does |
| RollbackRun.RollbackManager.ExecuteRollback | internal/rollbackrun/run.go:74-107 | a failing up-front fetch returns the error with the stats, state and sent log untouched; otherwise finds the common tables, each once, and leaves the stats, state and error of the reference pair run |
| RollbackRun.RollbackManager.RollbackNext | internal/rollbackrun/run.go:87-102 | one pass of the loop extends the reference table loop by the next table: a success adds one to the count, a failure appends its record and sets the stop flag under the stop strategy |
| RollbackRun.RollbackManager.RollbackTables | internal/rollbackrun/run.go:86-103 | the loop leaves the stats, state and stop flag of the reference table loop |
| RollbackAll.Tagged | internal/rollbackrun/run.go:312-314 | the pair's failure records, one for one, with the pair's name filled in |
| RollbackAll.AppendTagged | internal/rollbackrun/run.go:312-314 | the loop appends the tagged records to the global list |
| RollbackAll.PairNames | internal/rollbackrun/run.go:304 | the pair names in configuration order |
| RollbackAll.Aggregate | internal/rollbackrun/run.go:299-314 | every global failure record names one of the pairs |
| RollbackAll.AggregateSnoc | internal/rollbackrun/run.go:310-314 | one more pair adds its totals, its successes and its tagged failures |
| RollbackAll.PairRunBalanced | internal/rollbackrun/run.go:74-107 | every pair outcome accounts for its tables |
| RollbackAll.AggregateCounts | internal/rollbackrun/run.go:299-314 | global successes plus failures never exceed the global total, and equal it when no pair errored |
| RollbackAll.CatalogSet | internal/rollbackrun/run.go:346-352 | exactly the non-empty configured catalog names |
| RollbackAll.DropAtSite | internal/rollbackrun/run.go:361-376 | one pair's pass checks each pending catalog and drops the existing ones, stopping at the first error |
| RollbackAll.SiteDrops | internal/rollbackrun/run.go:367-374 | one drop record per name dropped through that pair, in order |
| RollbackAll.CatalogStep | internal/rollbackrun/run.go:360-377 | one pair's pass keeps the drop log's properties and, without error, the pending names absent from the pairs visited |
| RollbackAll.DropAllCatalogs | internal/rollbackrun/run.go:345-379 | no configured catalog is an error with no drop; each catalog is dropped at most once, through the first pair where it exists and only there; without error every catalog was dropped or exists nowhere |
| RollbackAll.RollbackOnePair | internal/rollbackrun/run.go:307-308 | one pair's rollback is recorded with its outcome, over the common tables listed once each |
| RollbackAll.PhaseStep | internal/rollbackrun/run.go:304-318 | recording the next pair keeps the phase state |
| RollbackAll.RecordedSnoc | internal/rollbackrun/run.go:304-318 | recording one more pair keeps every earlier record |
| RollbackAll.PairNamesSnoc | internal/rollbackrun/run.go:304 | the names of one more pair extend the list |
| RollbackAll.RollbackPairs | internal/rollbackrun/run.go:299-323 | pairs run in order, each one's stats are added before its error is looked at, and the first pair error ends the phase |
| RollbackAll.ExecuteRollbackForAllPairs | internal/rollbackrun/run.go:279-342 | a pair error returns at once and skips the catalog phase; the totals add up; catalogs are dropped at most once each, through a pair where they existed; without error every pair ran and the totals balance; a catalog dropped through a pair existed in no earlier pair, and without error every configured catalog was dropped or exists in no pair after its rollback |
| RollbackAll.Catalogs | internal/rollbackrun/run.go:348-352 | the catalog names of the pairs, in configuration order |
| LegacyRollback.StepsInOrder | rollback.go:30-54 | batches of the four steps, sent one after the other, are in step order |
| LegacyRollback.RunShape | rollback.go:30-54 | a run keeps what was sent before it and adds only statements of its steps, in step order |
| LegacyRollback.LegacyViews | rollback.go:91-101 | a listed name is dropped as a view iff its type check succeeds and reports a view; a failing check skips the name |
| LegacyRollback.DropViews | builder/rollbackBuilder.go:162-176 | one DROP VIEW per view, in order, all of the view step |
| LegacyRollback.DropViewsAreBuilderSQL | rollback.go:105-106 | what the view step sends renders as the view builder's DROP VIEW of that view |
| LegacyRollback.CatalogsKept | rollback.go:30-54 | steps other than the catalog step never touch the catalogs |
| LegacyRollback.DropViewsKeep | rollback.go:103-109 | the drops remove nothing but views: every remaining table was there with the same type, and every non-view table remains |
| LegacyRollback.DropViewsGone | rollback.go:103-109 | when every drop succeeds none of the listed names is left as a view |
| LegacyRollback.DropViewsRemove | rollback.go:103-109 | the drops remove nothing but views, keep every table, and on success leave none of the listed views |
| LegacyRollback.ViewsRun | rollback.go:83-116 | a failed listing is an error with nothing sent; otherwise only views go, tables stay, and on success no listed view remains |
| LegacyRollback.DropViewsKeepCk | rollback.go:103-109 | dropping views leaves the ClickHouse side and the table kinds unchanged |
| LegacyRollback.CatalogRun | rollback.go:57-80 | an empty catalog name is an error with nothing sent; otherwise one DROP CATALOG, which fails iff the statement fails and on success removes that catalog only |
| LegacyRollback.RenameCandidates | rollback.go:138-164 | a listed name is a candidate iff it ends in the suffix, its checks succeed, and it is a native table and not a view |
| LegacyRollback.CandidatesSnoc | rollback.go:138-164 | each loop step appends the name iff it is a candidate |
| LegacyRollback.KeepDistinct | rollback.go:135-164 | filtering a listing without repeats keeps it without repeats |
| LegacyRollback.Stripped | rollback.go:167 | each candidate with its suffix removed |
| LegacyRollback.ConflictsOf | rollback.go:166-173 | a name is a conflict iff it is listed and is a candidate's suffix-free name |
| LegacyRollback.NoConflictIff | rollback.go:185-187 | the step goes ahead iff no candidate's suffix-free name is already listed |
| LegacyRollback.ConflictsSnoc | rollback.go:166-173 | each candidate adds its suffix-free name iff that name is listed |
| LegacyRollback.Renames | builder/rollbackBuilder.go:191-205 | one rename per candidate, to its suffix-free name, all of the suffix step |
| LegacyRollback.RenamesAreBuilderSQL | rollback.go:190-191 | the builder's filter keeps every candidate, so one rename is sent per candidate |
| LegacyRollback.StrippedInjective | rollback.go:167 | two suffixed names with the same suffix-free name are the same name |
| LegacyRollback.RenamesReadyRest | rollback.go:194 | the first rename succeeds and leaves the rest of the batch able to succeed without touching its names |
| LegacyRollback.RenamesCons | builder/rollbackBuilder.go:191-205 | the batch is the first candidate's rename followed by the rest's |
| LegacyRollback.RenamesApply | rollback.go:189-199 | without conflicts the renames all succeed; each candidate's table moves to its suffix-free name and every other name is untouched |
| LegacyRollback.SuffixRun | rollback.go:119-200 | an empty suffix does nothing; a failed listing is an error; only renames are sent; catalogs and the ClickHouse side are untouched; no new view appears |
| LegacyRollback.RenamesMakeNoView | rollback.go:189-199 | renaming tables that are not views creates no view |
| LegacyRollback.RenamesKeepCk | rollback.go:189-199 | renames leave the ClickHouse side and the table kinds unchanged |
| LegacyRollback.SuffixRunRestores | rollback.go:119-200 | over a full listing, with no conflict and no failing rename, every suffixed native table gets its original name back and nothing else changes |
| LegacyRollback.SuffixRunRefusesConflict | rollback.go:185-187 | one conflict refuses the whole step and sends nothing |
| LegacyRollback.SuffixRunSucceeded | rollback.go:119-200 | when the suffix step succeeds over the full listing, every rename candidate has left its suffixed name for its suffix-free name, with its type |
| LegacyRollback.CollectViews | rollback.go:91-101 | the loop collects exactly the legacy views, in listing order |
| LegacyRollback.Listed | rollback.go:168-173 | the inner loop finds a name iff it is listed |
| LegacyRollback.CollectCandidates | rollback.go:135-175 | the loop collects exactly the candidates and their conflicts |
| LegacyRollback.DropTableAddedColumns | rollback.go:215-244 | only this table's columns change, only drop statements of the column step are sent, every column that is not an added one stays, and when its DDL parses none of its added columns remains |
| LegacyRollback.LegacyRollbackManager.constructor | rollback.go:21-27 | a manager for one pair over its database connection |
| LegacyRollback.LegacyRollbackManager.DropAllViews | rollback.go:83-116 | the new state and the statements sent are those of ViewsRun on the full listing |
| LegacyRollback.LegacyRollbackManager.DropCatalog | rollback.go:57-80 | the new state and the statements sent are those of CatalogRun |
| LegacyRollback.LegacyRollbackManager.RemoveSRTableSuffix | rollback.go:119-200 | the new state and the statements sent are those of SuffixRun on the full listing |
| LegacyRollback.LegacyRollbackManager.DropCKAddedColumns | rollback.go:203-249 | an error iff the ClickHouse export fails; every column that is not an added one stays; otherwise every ClickHouse table whose DDL parses is left without added columns, and a table whose drop fails is skipped |
| LegacyRollback.LegacyRollbackManager.ExecuteRollback | rollback.go:30-54 | the four steps run in order and the first failure ends the run, naming its step; the column step fails only on the ClickHouse export, and that export failing always fails the run; an empty catalog always fails; non-added ClickHouse columns always stay; a complete run leaves the catalog gone, no readable view, every rename candidate under its suffix-free name and no added column in a cleanable table |
| LegacyRollback.LegacyRollbackManager.ViewsThenCatalog | rollback.go:33-41 | the catalog step runs only when the view step succeeds; a failed listing fails the view step with nothing sent; an empty catalog always fails; only views are dropped and the ClickHouse side is untouched; on success the catalog is gone and no readable view is left |
| LegacyRollback.LegacyRollbackManager.RenameThenDropColumns | rollback.go:43-50 | the column step runs only when the suffix step succeeds and fails iff the ClickHouse export fails; on success of each step its renames and its column cleanup are in place; no view appears and non-added columns stay |
| LegacyRollback.ExecuteRollbackForAllPairs | rollback.go:252-269 | pairs run in order; when pair i fails, every pair before it completed with its catalog gone and the later pairs are untouched; without failure every pair's catalog is gone |
| InitRun.PlanFor | internal/initrun/run.go:135-179 | an unignored CK table gets a plan iff its base or suffixed name is in StarRocks and its base is not a view; a plan renames iff the base name exists, always to base + suffix |
| InitRun.PlanSuffixStrips | internal/initrun/run.go:151-171 | the suffixed name of a plan trims back to the base name under the trimmed suffix it was planned with, and under the configured suffix when that has no surrounding blanks |
| InitRun.PaddedSuffixNotStripped | internal/rollbackrun/run.go:112 | with a configured suffix "_x " init plans t_x, which does not end with the untrimmed suffix the rollback uses |
| InitRun.FindInitPlans | internal/initrun/run.go:105-182 | an empty trimmed suffix is an error, a failed type prefetch is an error, and otherwise the plans are exactly PlanFor's, one per CK table |
| InitRun.ApplyInit | internal/initrun/run.go:217-257 | a statement fails iff it is a failing one or a rename from a missing name or onto a taken one; `create view if not exists` creates a view on a free name and leaves a taken name as it was, touching no other name; a rename moves the table to the new name |
| InitRun.RenameRun | internal/initrun/run.go:209-226 | without rename nothing is sent; errors are the ALTER's or the rename's; on success the base table is now under the suffixed name, which was free, and only those two names change |
| InitRun.ViewRun | internal/initrun/run.go:228-259 | a missing suffixed table fails the DDL read; on success the base name is a view unless the view SQL is empty, or keeps what it held when it was already taken, in which case nothing changes; no other name changes |
| InitRun.ProcessRun | internal/initrun/run.go:185-261 | the statements sent are a prefix of the table's script, and all of it on success; a CK parse failure sends nothing; on success the table moved to the suffixed name and, unless its view builder produced an empty statement, the base name is a view when the plan renamed or the name was free; a plan that renames nothing over a taken base name changes nothing; other tables untouched |
| InitRun.InitIsIdempotent | internal/initrun/run.go:142-179 | a table the run has processed, whose base name was free for its view, gets no plan on the next run |
| InitRun.TakenBaseIsPlannedAgain | internal/initrun/run.go:142-259 | with tables `a` and `a_x`, suffix `_x`, `a` processed first: both succeed, `a_x` is still a BASE TABLE, and the next run plans it again |
| InitRun.PlannedTableProcesses | internal/initrun/run.go:105-261 | a plan made from the current state goes through when no statement fails |
| InitRun.NamesOf | internal/initrun/run.go:80 | each StarRocks table name is listed |
| InitRun.InitManager.constructor | internal/initrun/run.go:38-45 | a manager for one pair, nothing sent yet |
| InitRun.InitManager.Send | internal/initrun/run.go:217-257 | one statement is sent and changes the tables as ApplyInit says (a view statement on a taken name succeeds and changes nothing), nothing when it fails |
| InitRun.InitManager.RenameStep | internal/initrun/run.go:209-226 | the new state and what was sent are RenameRun's |
| InitRun.InitManager.ViewStep | internal/initrun/run.go:228-259 | the new state and what was sent are ViewRun's |
| InitRun.InitManager.ProcessTable | internal/initrun/run.go:185-261 | the new state and what was sent are ProcessRun's |
| InitRun.InitManager.CreateCatalogStep | internal/initrun/run.go:73-77 | one CREATE CATALOG is sent; it succeeds iff it is not failing, and then the catalog exists |
| InitRun.InitManager.ExecuteInit | internal/initrun/run.go:61-102 | a failed export sends nothing; a failing catalog creation or an empty suffix is an error; on success the catalog exists, the plans are those of the starting state, and every planned table whose view statement is not empty has a view under its base name, unless the plan renamed nothing and an earlier plan's rename had already put a table under that name |
| InitRun.InitManager.ProcessPlans | internal/initrun/run.go:92-98 | catalogs are untouched, only a table can fail, and on success every plan whose view statement is not empty has a view under its base name, unless the plan renamed nothing and an earlier plan's rename had already put a table under that name |
| InitRun.ProcessPlansStep | internal/initrun/run.go:92-98 | one more successful table keeps every earlier plan's base name a view or taken by an earlier rename, and adds its own |
| InitRun.EarlierPlansKept | internal/initrun/run.go:92-98 | a successful table leaves every earlier plan's base name a view or taken by an earlier rename, since base names are distinct |
| InitRun.NewNamesStep | internal/initrun/run.go:92-98 | after one more successful table, every name not there at the start is the base name or the suffixed name of a processed plan |
| InitRun.RunAll | internal/initrun/run.go:48-58 | pairs run in order; when pair i fails, every pair before it completed with its catalog present and the later pairs are untouched; without failure every pair's catalog exists |
| SrAddColumn.ColumnDefShape | builder/srAddColumnBuilder.go:86-97 | a definition starts with the quoted name and type, then DEFAULT only when a default is set, then COMMENT only when a comment is set, and holds nothing else |
| SrAddColumn.ColumnDefinition | builder/srAddColumnBuilder.go:86-97 | the text built piece by piece is ColumnDef of the column |
| SrAddColumn.ColumnDefs | builder/srAddColumnBuilder.go:84-98 | one definition per column, in order |
| SrAddColumn.AlterStatement | builder/srAddColumnBuilder.go:79-102 | empty iff there are no columns; otherwise one ALTER on the quoted table whose parenthesised list closes the statement |
| SrAddColumn.IndexStatement | builder/srAddColumnBuilder.go:112-119 | UNIQUE iff the type is exactly "UNIQUE INDEX"; the index is on the quoted table and its one column |
| SrAddColumn.IndexDefinition | builder/srAddColumnBuilder.go:112-119 | the text written for one index is IndexStatement of it |
| SrAddColumn.IndexStatements | builder/srAddColumnBuilder.go:105-124 | one statement per index, in order |
| SrAddColumn.IfNotExistsStatementShape | builder/srAddColumnBuilder.go:152-166 | the conditional statement is ADD COLUMN IF NOT EXISTS on the unquoted table, ending with the column's definition |
| SrAddColumn.ConditionalAdd | builder/srAddColumnBuilder.go:152-165 | the statement written for one column is IfNotExistsStatement of it |
| SrAddColumn.IfNotExistsStatements | builder/srAddColumnBuilder.go:150-167 | one conditional statement per column, in order |
| SrAddColumn.IfNotExistsScript | builder/srAddColumnBuilder.go:145-170 | empty iff there are no columns; a single column gives its statement alone |
| SrAddColumn.AddColumnExtendsAlter | builder/srAddColumnBuilder.go:50-102 | one more column widens the single ALTER by one definition inside the parentheses |
| SrAddColumn.AddColumnExtendsScript | builder/srAddColumnBuilder.go:145-170 | one more column appends exactly one conditional statement |
| SrAddColumn.SyncColumnStatement | builder/srAddColumnBuilder.go:71-76 | the sync column is a BOOLEAN defaulting to 'false' with its comment |
| SrAddColumn.SyncIndexStatement | builder/srAddColumnBuilder.go:71-76 | the sync index is one plain (not UNIQUE) index named idx_syncFromCK on that column of the quoted table |
| SrAddColumn.SRAddColumnBuilder.constructor | builder/srAddColumnBuilder.go:40-47 | an empty builder for the table |
| SrAddColumn.SRAddColumnBuilder.AddColumn | builder/srAddColumnBuilder.go:50-58 | appends the column, keeps the indexes, returns the receiver |
| SrAddColumn.SRAddColumnBuilder.AddIndex | builder/srAddColumnBuilder.go:61-68 | appends the index, keeps the columns, returns the receiver |
| SrAddColumn.SRAddColumnBuilder.AddSyncFromCKColumn | builder/srAddColumnBuilder.go:71-76 | appends the sync column and its index |
| SrAddColumn.SRAddColumnBuilder.Build | builder/srAddColumnBuilder.go:79-102 | the loop's result is AlterStatement of the columns |
| SrAddColumn.SRAddColumnBuilder.BuildIndexes | builder/srAddColumnBuilder.go:105-124 | the loop's result is IndexStatements of the indexes |
| SrAddColumn.SRAddColumnBuilder.BuildWithIndexes | builder/srAddColumnBuilder.go:127-141 | the ALTER only when there are columns, then every index statement; one statement per index plus one for the columns |
| SrAddColumn.SRAddColumnBuilder.BuildIfNotExists | builder/srAddColumnBuilder.go:145-170 | the loop's result is IfNotExistsScript of the columns |
| Configuration.DefaultsShape | config/config.go:158-197 | after the defaults every defaulted field is set, a value given is kept, and the pairs and the other sections are untouched |
| Configuration.DefaultValues | config/config.go:158-197 | each empty or zero field takes its own default: ./temp, the 2 a.m. cron, olap, cksr-lock, cksr-instance, 300 s, stop_on_error, 3 retries, 100 ms, 60 s |
| Configuration.DefaultsIdempotent | config/config.go:158-197 | applying the defaults a second time changes nothing |
| Configuration.PairError | config/config.go:205-262 | a pair passes iff its names, suffix, hosts and databases are set, its ports are positive and no timeout is negative; a missing name is reported first |
| Configuration.FirstPairError | config/config.go:204-272 | no error iff every pair passes; otherwise the error of the first failing pair, named |
| Configuration.LoadOkIff | config/config.go:147-288 | loading succeeds iff there is a pair, every pair passes, the strategy is empty or one of the two allowed, and the parse timeout is not negative; the result is the document with the top-level defaults |
| Configuration.LoadReportsFirstPair | config/config.go:204-272 | a pair error names the first failing pair |
| Configuration.CheckPair | config/config.go:205-271 | the loop body's verdict is PairError and, when it passes, its copy carries the pair defaults |
| Configuration.SecondTimeoutDefaults | config/config.go:231-239 | a zero connect timeout becomes 30 s and a zero read or write timeout 60 s; a non-zero one is kept |
| Configuration.CkTimeoutDefaults | config/config.go:231-239 | a zero ClickHouse connect timeout becomes 30 s and a zero read or write timeout 60 s; every other field is kept |
| Configuration.JdbcTimeoutDefaults | config/config.go:243-248 | a zero JDBC socket timeout becomes 300000 ms and a zero JDBC connection timeout 30000 ms; every other field is kept |
| Configuration.SrTimeoutDefaults | config/config.go:263-271 | a zero StarRocks connect timeout becomes 30 s and a zero read or write timeout 60 s; every other field is kept |
| Configuration.ApplyDefaults | config/config.go:158-197 | the result is the document with the top-level defaults |
| Configuration.ApplyLockDefaults | config/config.go:167-179 | the lock section with its defaults |
| Configuration.ApplyRetryDefaults | config/config.go:186-192 | the retry section with its defaults |
| Configuration.LoadConfig | config/config.go:147-288 | the result is Load of the decoded document, whose pairs keep zero timeouts |
| Configuration.DefaultedPairs | config/config.go:230-271 | every pair with its zero timeouts replaced by the defaults |
| Configuration.LoadDefaultingPairs | config/config.go:147-288 | succeeds exactly when Load does, with the same errors, and with each pair's defaults applied |
| Configuration.DefaultedPairsHaveTimeouts | config/config.go:230-271 | every loaded pair has all its timeouts set, and each of the eight timeouts (ClickHouse connect, read, write, JDBC socket and connection; StarRocks connect, read, write) that was given is kept |
| Configuration.LoadKeepsZeroTimeouts | config/config.go:204-307 | a document whose pair leaves the connect timeout at zero loads with that zero, and the ClickHouse DSN then ends in `&timeout=0` |
| Configuration.CheckPairsDefaulting | config/config.go:205-271 | the pair loop refuses with the first failing pair, in list order; when none fails, every pair carries its defaults |
| Configuration.LoadConfigDefaultingPairs | config/config.go:147-288 | the result is LoadDefaultingPairs of the decoded document |
| Configuration.ClickHouseDSN | config/config.go:291-307 | empty iff the index is past the pairs; otherwise the tcp DSN of that pair's host, port and database, ending in its connect timeout |
| Configuration.StarRocksDSN | config/config.go:310-326 | empty iff the index is past the pairs; otherwise the MySQL DSN of that pair's credentials, host, port and database, ending in its write timeout |
| Configuration.ClickHouseJDBCURI | config/config.go:329-342 | empty iff the index is past the pairs; otherwise the JDBC URI of that pair's host, HTTP port and database with the fixed options |
| Configuration.PairByName | config/config.go:345-352 | none iff no pair has the name; otherwise the first pair with it |
| Logger.ParseLogLevel | logger/logger.go:99-114 | always one of the five levels |
| Logger.LogLevelString | logger/logger.go:117-132 | a value outside the five reads as INFO |
| Logger.NamesRoundTrip | logger/logger.go:99-132 | each level parses back from its name; a level name in any case parses to the level of that name; WARNING parses to WARN |
| Logger.ParseIgnoresCase | logger/logger.go:100 | parsing the lower-cased text gives the same level |
| Logger.Gating | logger/logger.go:135-160 | SILENT writes no message, DEBUG writes all, and a higher level writes everything a lower one does |
| Logger.LogState.constructor | logger/logger.go:28-33 | level INFO, nothing written |
| Logger.LogState.SetLogLevel | logger/logger.go:39-41 | the level is set and nothing is written |
| Logger.LogState.GetCurrentLevel | logger/logger.go:163-165 | the current level |
| Logger.LogState.LogError | logger/logger.go:135-139 | appends the prefixed message to the error stream iff the level admits errors |
| Logger.LogState.LogWarn | logger/logger.go:142-146 | appends the prefixed message to the log iff the level admits warnings |
| Logger.LogState.LogInfo | logger/logger.go:149-153 | appends the message to the log iff the level admits info |
| Logger.LogState.LogDebug | logger/logger.go:156-160 | appends the prefixed message to the log iff the level admits debug |
| AutoUpdate.SRTableFromView | internal/autoupdaterun/run.go:302-304 | the table name ends in the suffix and trims back to the view name |
| AutoUpdate.Override | internal/autoupdaterun/run.go:242-255 | each default is replaced by the entry's value exactly when that value is not empty |
| AutoUpdate.ResolveTimestamp | internal/autoupdaterun/run.go:238-257 | the table's entry wins over the view's, the view's over the defaults; column and type are never empty |
| AutoUpdate.TableEntryWins | internal/autoupdaterun/run.go:242-249 | once the table has an entry, the view's entry does not matter |
| AutoUpdate.EmptyEntryIsDefault | internal/autoupdaterun/run.go:242-248 | an entry with both values empty acts as no entry |
| AutoUpdate.MinQuery | internal/autoupdaterun/run.go:260 | a min() of the column over the qualified table |
| AutoUpdate.QuoteLiteral | internal/autoupdaterun/run.go:276-281 | always starts with a quote; a value already quoted is kept, any other is the value between two quotes |
| AutoUpdate.TextPartition | internal/autoupdaterun/run.go:263-282 | an error iff the query fails; a NULL or empty minimum gives the date or datetime maximum; any other minimum is quoted unless it already starts with a quote |
| AutoUpdate.BigintPartition | internal/autoupdaterun/run.go:283-292 | an error iff the query fails; NULL gives the bigint maximum; a 64-bit minimum is written in decimal and reads back as itself |
| AutoUpdate.PartitionValue | internal/autoupdaterun/run.go:262-295 | the type, in any case, picks the date, datetime or bigint reading; any other type is refused, and only those |
| AutoUpdate.ViewBoundary | internal/autoupdaterun/run.go:234-299 | the StarRocks table's timestamp entry, else the view's entry, else bigint recordTimestamp, picks the column whose minimum is read from db.<view+suffix> and the type that reads it |
| AutoUpdate.BoundaryFrom | internal/autoupdaterun/run.go:258-296 | date and datetime read the minimum of the column as text, bigint as an integer; any other type is refused |
| AutoUpdate.DefaultBoundaryIsBigint | internal/autoupdaterun/run.go:239-240 | without configuration the boundary is the bigint minimum of recordTimestamp over the view's suffixed table |
| AutoUpdate.ViewUpdater.constructor | internal/autoupdaterun/run.go:71-80 | a stopped updater with no job and a live context |
| AutoUpdate.ViewUpdater.Start | internal/autoupdaterun/run.go:84-109 | refused when running; refused when the scheduler rejects the expression; otherwise one more job, the scheduler started and the flag set |
| AutoUpdate.ViewUpdater.Stop | internal/autoupdaterun/run.go:112-130 | nothing when stopped; otherwise the scheduler stopped, the context cancelled and the flag cleared; jobs stay registered |
| AutoUpdate.ViewUpdater.IsRunning | internal/autoupdaterun/run.go:133-137 | the running flag |
| AutoUpdate.NewViewUpdater | internal/autoupdaterun/run.go:54-81 | none iff disabled or the lock manager fails; otherwise a stopped updater with the updater-role identity |
| AutoUpdate.StartStopStart | internal/autoupdaterun/run.go:84-130 | a second start fails, and a restart after stop registers the job again under a cancelled context |
| FileOps.JoinPathCons | fileops/fileops.go:37 | joining puts each earlier non-empty element and a separator before the rest |
| FileOps.SchemaPathShape | fileops/fileops.go:36-43 | the directories, each followed by "/", then the engine and the table's file name |
| FileOps.ClickHouseSchemaPath | fileops/fileops.go:36-38 | tempDir/clickhouse/db/table.sql, empty directories dropped |
| FileOps.StarRocksSchemaPath | fileops/fileops.go:41-43 | tempDir/starrocks/db/table.sql, empty directories dropped |
| FileOps.SchemaPathsDiffer | fileops/fileops.go:36-43 | a table's two schema files are distinct and share their database and file name |
| FileOps.CommonBounds | fileops/fileops.go:54-62 | a list without repeats drawn from both maps is no longer than either, and empty when either is |
| FileOps.ListCommonTables | fileops/fileops.go:54-62 | exactly the tables in both maps, each once, no more than either map holds |

Some members are definitions the code above is written in terms of; their bodies are the source's own tests, and they carry no contract of their own. Each is characterised by the member named with it:

- `FieldConverter.IsStringArray`, `IsArray`, `IsIPV4`, `IsIPV6`, `IsArrayIPV6`, `IsArrayIPV4` (builder/ckFieldConverter.go:257-279): `FieldConverter.TypePredicatesConsistent` and `CkAddColumn.KindOf`.
- `FieldConverter.IsAddedColumn`, `IsAddedColumnByName` (builder/ckFieldConverter.go:40-49): `FieldConverter.NameWithSuffix`, `RollbackSql.BuildDropCKColumnsSQL` and `RollbackRun.CkHasAdded`.
- `CkAddColumn.BuildAddLine` and the alias helpers `StringAlias`, `UInt32Alias`, `UInt128Alias`, `AliasMapStringConcat`, `AliasStringConcat`, `AliasToUInt32`, `AliasReinterpretAsUInt128`, `AliasArrayIPV6StringConcat` (builder/ckAddColumnBuilder.go:60-112): `CkAddColumn.BuildLine`, `CkAddColumn.ArrayAliasesJoinWithSeparator` and `CkAddColumn.ScalarAliases`.
- `DdlParser.Pass` (parser/parser.go:24-35): `DdlParser.PassCharacterises`.
- `RollbackSql.IsAddedSRName` (builder/rollbackBuilder.go:139-145): `RollbackSql.BuildDropSRColumnsSQL` and `RollbackSql.SyncFlagNotAddedSRColumn`.
- `RollbackRun.IsCommon` (internal/rollbackrun/run.go:169-184): `RollbackRun.IsCommonCases` and `RollbackRun.CommonHasState`.
- `RollbackRun.PrefetchFails` (internal/rollbackrun/run.go:115-136): `RollbackRun.FindCommonTables` and `RollbackRun.PairRun`.
- `Configuration.Load` (config/config.go:159-285): `Configuration.LoadOkIff` and `Configuration.LoadReportsFirstPair`.

## Left out

**Effects and environment**

- **Database I/O:** connections, pooling, the retry wrapper (retry/retry.go) and the SQL drivers. The databases are the abstract `Warehouse.World`. A statement's failure is an input: a set of failing statements or lookups.
- **The lock:** lock/lock.go (Kubernetes lease, renewal goroutine, mutex) is not part of this model. Only the identity string it is given (`Common.BuildIdentity`) is modelled, and `AutoUpdate.NewViewUpdater` takes the lock manager's success as a parameter.
- **Scheduling:** the cron scheduler, the mutex and signal handling of the auto-updater. The scheduler is reduced to a job count, a started flag and whether it accepts the expression.
- **The orchestration behind the updater's boundary:** internal/updaterun/run.go (export, parse, build, execute per view) and the updater's `updateAllViews`/`updateViewsForPair`/`getAllViews`. Its pair lookup cannot fail, because the index starts at 0 and its `< 0` check is dead.
- **ParseTableFromString (internal/common/common.go:17-38):** its goroutine and timeout. Where the run logic parses a DDL, a parse failure is an input (`InitRun.InitFaults`, `LegacyRollback`'s `Cleanable`).
- **The CLI:** main.go and cmd/* (flags, cobra wiring, exit codes, the legacy loop in main.go).
- **Configuration input:** reading the file and JSON decoding. `Configuration.LoadConfig` starts from the decoded document, in which a missing list or map is empty.
- **Logger output:** the log file (`InitFileLogging`, `CloseLogFile`) and `Fprintf` formatting. A message is the already-formatted text, one line per message.

**Inputs taken as parameters**

- **Foreign code:**
  - The `migrationLab` packages used by init (converters, CK ALTER builder, parser): their outcomes are inputs of `InitRun`.
  - The delegation to a foreign parser at parser/parser.go:88.
  - The converter package `example.com/migrationLib/convert` that builder/viewBuilder.go imports (line 15) for `CKField` and the type tests of `GenClause` and `MapSRField`: it is taken to behave like builder/ckFieldConverter.go, whose `FieldConverter` the view clauses use.
- **`time.Parse`:** a parameter `parses(layout, value)` of `ViewSql.PartitionBoundary` and `ViewBuilderModel.ViewBuilder.BuildAlterWithPartition`.
- **`database.StarRocksTableTypeView`:** this constant is not part of the sources modelled, so it is a parameter `viewType` in `InitRun`. The current rollback's table filter compares the type with `VIEW` exactly (internal/rollbackrun/run.go:154); only its precheck upper-cases the type first (internal/rollbackrun/run.go:217).
- **`ExecuteRollbackSQL`:** the database pair manager's method is not part of this model. It is taken to run its statements in order and stop at the first failure, like `ExecuteBatchSQL` in database/database.go:200-219.
- **The min-timestamp query:** only its outcome is modelled (error, no rows, NULL or a value), as an input.

**Order and representation**

- **Go map iteration order:** the order of `nameMap`, the schema maps and the catalog set is not modelled. These are sets. Results built by iterating them are stated up to order: membership, no repeats, counts.
- **Strings:** strings are ASCII `seq<char>`. Go's Unicode case folding and space trimming are modelled for ASCII only. `fetchWord`'s byte/rune index mix matters only for non-ASCII input.
- **ViewBuilderModel.ViewBuilder.BuildWithType:** it also stands for `Build` (builder/viewBuilder.go:195-197) and `BuildAlter` (builder/viewBuilder.go:389-391). Those two only pass the statement type, so they have no members of their own.

**Weaker or narrower contracts**

- **InitRun.InitIsIdempotent:** holds only for a table whose base name was free when its view statement ran. A plan that renamed nothing can meet a table an earlier plan renamed onto its base name; `create view if not exists` then leaves that table in place, and the next run plans it again (`InitRun.TakenBaseIsPlannedAgain`).
- **FileOps.ClickHouseSchemaPath, FileOps.StarRocksSchemaPath:** `filepath.Join` drops empty elements but is not modelled cleaning `.`/`..` or repeated separators. The components are assumed clean.
- **Configuration.ClickHouseDSN, Configuration.StarRocksDSN, Configuration.ClickHouseJDBCURI:**
  - They state the prefix up to the database and the final option. The options in between (credentials, read/write timeouts) are not stated.
  - The index is a `nat`. A negative index, on which the Go getters panic, is not modelled.
- **AutoUpdate.BigintPartition:** the decimal text of the minimum is proved to read back as itself only within the 64-bit range, which is the range of the scanned `int64`.
- **InitRun.FindInitPlans:** the plans are stated as a set: one per planned table, no repeats. Their order, which follows the ClickHouse schema map, is not.
- **RollbackAll.DropAllCatalogs:** the order of the drops within one pair's pass follows the catalog set and is not stated. When a drop fails, which catalogs of that pass were already dropped depends on that order. The contract states only that each drop happened through the first pair where the catalog exists.

## Findings

| source | as written | input that shows it | evidently intended | confidence | as-written member | corrected member |
|---|---|---|---|---|---|---|
| config/config.go:204-271 | the zero-timeout defaults of each database pair are assigned to the `range` copy `pair`, so the returned configuration keeps the zeros | a valid document whose pair leaves `conn_timeout_seconds` at 0 (`Configuration.ZeroTimeoutDocument`) loads with connect timeout 0, and the ClickHouse DSN ends in `&timeout=0` | each returned pair carries the defaults (30 s connect, 60 s read and write, JDBC 300000/30000 ms) | high, not executed | Configuration.LoadKeepsZeroTimeouts | Configuration.DefaultedPairsHaveTimeouts |

The as-written behaviour is `Configuration.LoadConfig`, which the rest of the model uses as the source's loader. `Configuration.LoadConfigDefaultingPairs` and `Configuration.LoadDefaultingPairs` are the corrected loader.

## Behaviour notes

These follow from the code as written. Each is stated by the member named.

- **`DdlTable.TableNameBackquotedQualified`:** a backquoted qualified name such as `` `db`.`t` `` is read as the table `db`, because the name stops at the second backquote.
- **`RollbackSql.RenameEmptySuffixIsSelfRename`:** an empty suffix makes `BuildRenameSRTableSQL` rename a table to itself.
- **`RollbackSql.SyncFlagNotAddedSRColumn`:** the `syncFromCK` column added by the StarRocks column builder is not among the columns the rollback drops.
- **`FieldConverter.ReformatWrapperExamples`, `FieldConverter.ReformatPanicsOnEmptyInner`:**
  - `reformat` on `DateTime64(3)` returns `3`. Slicing `w[:5]` stays within the buffer's capacity, so it does not panic.
  - It panics only when `)` is reached with an empty buffer, as in `Tuple()`.
- **`ViewBuilderModel.VerdictRefusesSharedTargets`, `ViewBuilderModel.AllKnownNoExtra`:**
  - After `PrepareAndValidate` the extra and missing name lists are always empty.
  - The count check fails only when two ClickHouse fields map to the same StarRocks column, and it then reports only the count mismatch.
- **`AutoUpdate.StartStopStart`:** a restart after `Stop` registers the job a second time on the scheduler, and the context stays cancelled.
- **`InitRun.PaddedSuffixNotStripped`:** init plans with the trimmed suffix, while the rollback reads the configured suffix untrimmed (internal/rollbackrun/run.go:112, rollback.go:122). A suffix with surrounding blanks therefore renames t to t_x, and the rollback then looks for a name ending in the untrimmed suffix and finds none.
- **`InitRun.TakenBaseIsPlannedAgain`:** with ClickHouse tables `a` and `a_x` and the suffix `_x`, processing `a` first renames it to `a_x`. The view statement for `a_x` then finds that table, succeeds as `create view if not exists` without creating a view, and init reports success while `a_x` is still a native table.
