/** The text of the view (builder/viewBuilder.go): the two select queries, the boundary column
    and value, and the final CREATE/ALTER VIEW statement. */
module ViewSql {
  import opened Wrappers
  import opened Text
  import Configuration

  const SQLTypeCreate: string := "CREATE"
  const SQLTypeAlter: string := "ALTER"

  // ---------------------------------------------------------------------------
  // GenQuerySQL

  /** The select-list lines: each clause after a tab, every one but the last followed by ",". */
  function ClauseLines(clauses: seq<string>): (r: seq<string>)
    ensures |r| == |clauses|
  {
    seq(|clauses|, i requires 0 <= i < |clauses| =>
      if i == |clauses| - 1 then "\t" + clauses[i] + " \n" else "\t" + clauses[i] + ", \n")
  }

  /** The select list both GenQuerySQL variants build. */
  function SelectList(clauses: seq<string>): string {
    Join(ClauseLines(clauses), "")
  }

  /** The loop both GenQuerySQL variants share: it collects the lines, then joins them. */
  method BuildSelectList(clauses: seq<string>) returns (r: string)
    ensures r == SelectList(clauses)
  {
    var fieldsClause: seq<string> := [];
    var i := 0;
    while i < |clauses|
      invariant 0 <= i <= |clauses|
      invariant fieldsClause == ClauseLines(clauses)[..i]
    {
      var clause: string;
      if i == |clauses| - 1 {
        clause := "\t" + clauses[i] + " \n";
      } else {
        clause := "\t" + clauses[i] + ", \n";
      }
      fieldsClause := fieldsClause + [clause];
      i := i + 1;
    }
    assert ClauseLines(clauses)[..i] == ClauseLines(clauses);
    r := Join(fieldsClause, "");
  }

  /** The tabbed clauses. */
  function Tabbed(clauses: seq<string>): (r: seq<string>)
    ensures |r| == |clauses|
  {
    seq(|clauses|, i requires 0 <= i < |clauses| => "\t" + clauses[i])
  }

  lemma {:induction false} SelectListPrefix(clauses: seq<string>, n: nat)
    requires n <= |clauses|
    ensures Join(ClauseLines(clauses)[..n], "") == Written(Tabbed(clauses), n, ", \n", " \n")
    decreases n
  {
    if n > 0 {
      SelectListPrefix(clauses, n - 1);
      var lines := ClauseLines(clauses);
      assert lines[..n] == lines[..n - 1] + [lines[n - 1]];
      if n == 1 {
        assert lines[..n] == [lines[0]];
      } else {
        JoinSnoc(lines[..n - 1], lines[n - 1], "");
      }
    }
  }

  /** The select list is the tabbed clauses joined by ", \n", closed by " \n": every clause
      appears once, in order. */
  lemma SelectListIsJoin(clauses: seq<string>)
    requires clauses != []
    ensures SelectList(clauses) == Join(Tabbed(clauses), ", \n") + " \n"
  {
    SelectListPrefix(clauses, |clauses|);
    assert ClauseLines(clauses)[..|clauses|] == ClauseLines(clauses);
    WrittenIsJoin(Tabbed(clauses), |clauses|, ", \n", " \n");
    assert Tabbed(clauses)[..|clauses|] == Tabbed(clauses);
  }

  /** CKTableBuilder.GenQuerySQL: the origin arm reads through the catalog. */
  function CkQuery(catalog: string, db: string, table: string, clauses: seq<string>): (r: string)
    ensures HasPrefix(r, "select \n ")
    ensures HasSuffix(r, "from " + catalog + "." + db + "." + table)
  {
    var head := "select \n " + SelectList(clauses);
    var tail := "from " + catalog + "." + db + "." + table;
    PrefixOfConcat("select \n ", SelectList(clauses) + tail);
    SuffixOfConcat(head, tail);
    "select \n " + SelectList(clauses) + "from " + catalog + "." + db + "." + table
  }

  /** SRTableBuilder.GenQuerySQL: the target arm reads the suffixed table directly. */
  function SrQuery(db: string, table: string, clauses: seq<string>): (r: string)
    ensures HasPrefix(r, "select \n ")
    ensures HasSuffix(r, " from " + db + "." + table + " \n")
  {
    var head := "select \n " + SelectList(clauses);
    var tail := " from " + db + "." + table + " \n";
    PrefixOfConcat("select \n ", SelectList(clauses) + tail);
    SuffixOfConcat(head, tail);
    "select \n " + SelectList(clauses) + " from " + db + "." + table + " \n"
  }

  // ---------------------------------------------------------------------------
  // Timestamp column

  /** One configured timestamp column. */
  type TsColumn = Configuration.TimestampColumnConfig

  /** The configuration the view builder consults: the TimestampColumns map and the
      SRTableSuffix of every database pair, in order. A nil config reads as an empty map. */
  datatype TsConfig = TsConfig(columns: map<string, TsColumn>, suffixes: seq<string>)

  /** The entry found through the first pair whose non-empty suffix ends the table name and
      whose stripped name is configured. */
  function SuffixEntry(columns: map<string, TsColumn>, suffixes: seq<string>, table: string): (r: Option<TsColumn>)
    ensures r.Some? ==> (exists i :: 0 <= i < |suffixes| && suffixes[i] != "" && HasSuffix(table, suffixes[i])
                                && TrimSuffix(table, suffixes[i]) in columns && r.value == columns[TrimSuffix(table, suffixes[i])])
    ensures r.None? ==> (forall i :: 0 <= i < |suffixes| && suffixes[i] != "" && HasSuffix(table, suffixes[i])
                                ==> TrimSuffix(table, suffixes[i]) !in columns)
  {
    if suffixes == [] then None
    else
      var s := suffixes[0];
      if s != "" && HasSuffix(table, s) && TrimSuffix(table, s) in columns then
        Some(columns[TrimSuffix(table, s)])
      else
        var rest := SuffixEntry(columns, suffixes[1..], table);
        assert forall i :: 1 <= i < |suffixes| ==> suffixes[i] == suffixes[1..][i - 1];
        rest
  }

  /** The configured entry for a table: its own key first, then a suffix-stripped key. */
  function TimestampEntry(cfg: TsConfig, table: string): (r: Option<TsColumn>)
    ensures table in cfg.columns ==> r == Some(cfg.columns[table])
    ensures table !in cfg.columns ==> r == SuffixEntry(cfg.columns, cfg.suffixes, table)
  {
    if table in cfg.columns then Some(cfg.columns[table])
    else SuffixEntry(cfg.columns, cfg.suffixes, table)
  }

  /** The search loop getTimestampColumnName and getTimestampColumnType both run. */
  method LookupTimestamp(cfg: TsConfig, table: string) returns (r: Option<TsColumn>)
    ensures r == TimestampEntry(cfg, table)
  {
    if table in cfg.columns {
      return Some(cfg.columns[table]);
    }
    var i := 0;
    while i < |cfg.suffixes|
      invariant 0 <= i <= |cfg.suffixes|
      invariant SuffixEntry(cfg.columns, cfg.suffixes[i..], table) == SuffixEntry(cfg.columns, cfg.suffixes, table)
    {
      var s := cfg.suffixes[i];
      assert cfg.suffixes[i..][0] == s;
      if s != "" && HasSuffix(table, s) {
        var original := TrimSuffix(table, s);
        if original in cfg.columns {
          return Some(cfg.columns[original]);
        }
      }
      assert cfg.suffixes[i..][1..] == cfg.suffixes[i + 1..];
      i := i + 1;
    }
    return None;
  }

  /** getTimestampColumnName: the configured column (even an empty one), else recordTimestamp. */
  function TimestampColumnName(cfg: TsConfig, table: string): (r: string)
    ensures TimestampEntry(cfg, table).Some? ==> r == TimestampEntry(cfg, table).value.column
    ensures TimestampEntry(cfg, table).None? ==> r == "recordTimestamp"
  {
    match TimestampEntry(cfg, table)
    case Some(e) => e.column
    case None => "recordTimestamp"
  }

  /** getTimestampColumnType: the configured type (even an empty one), else bigint. */
  function TimestampColumnType(cfg: TsConfig, table: string): (r: string)
    ensures TimestampEntry(cfg, table).Some? ==> r == TimestampEntry(cfg, table).value.typ
    ensures TimestampEntry(cfg, table).None? ==> r == "bigint"
  {
    match TimestampEntry(cfg, table)
    case Some(e) => e.typ
    case None => "bigint"
  }

  /** A table's own entry wins over every suffix-stripped entry, and without any entry the
      defaults apply. */
  lemma TimestampPrecedence(cfg: TsConfig, base: string, suffix: string)
    requires suffix != "" && base in cfg.columns && base + suffix in cfg.columns
    ensures TimestampColumnName(cfg, base + suffix) == cfg.columns[base + suffix].column
    ensures cfg.columns == map[] ==> TimestampColumnName(cfg, base) == "recordTimestamp"
  {
  }

  /** A suffixed table with no entry of its own uses its base table's entry, when its suffix
      is the first configured one. */
  lemma TimestampFromBase(cfg: TsConfig, base: string, suffix: string)
    requires suffix != "" && |cfg.suffixes| > 0 && cfg.suffixes[0] == suffix
    requires base in cfg.columns && base + suffix !in cfg.columns
    ensures TimestampEntry(cfg, base + suffix) == Some(cfg.columns[base])
  {
    var t := base + suffix;
    assert t[|t| - |suffix|..] == suffix;
    assert t[..|t| - |suffix|] == base;
  }

  // ---------------------------------------------------------------------------
  // Boundary value

  /** Why a view statement could not be produced after validation. */
  datatype SqlError =
    | ConnectionFailed(msg: string)
    | QueryFailed(msg: string)
    | UnsupportedTimestampType(typ: string)
    | UnknownTimestampType(typ: string)
    | PartitionParseFailed(layout: string)
    | PartitionNotInteger
    | UnsupportedPartitionType(typ: string)

  /** getDefaultTimestampValue: the largest value of each supported type. */
  function DefaultTimestampValue(dataType: string): (r: Result<string, SqlError>)
    ensures ToLower(dataType) == "date" ==> r == Ok("'9999-12-31'")
    ensures ToLower(dataType) == "datetime" ==> r == Ok("'9999-12-31 23:59:59'")
    ensures ToLower(dataType) == "bigint" ==> r == Ok("9999999999999")
    ensures r.Err? <==> ToLower(dataType) !in {"date", "datetime", "bigint"}
  {
    var t := ToLower(dataType);
    if t == "date" then Ok("'9999-12-31'")
    else if t == "datetime" then Ok("'9999-12-31 23:59:59'")
    else if t == "bigint" then Ok("9999999999999")
    else Err(UnsupportedTimestampType(dataType))
  }

  /** formatTimestampValue: date and datetime values are single-quoted once; bigint values
      pass through. */
  function FormatTimestampValue(value: string, dataType: string): (r: Result<string, SqlError>)
    ensures ToLower(dataType) in {"date", "datetime"} ==>
      r == Ok(if HasPrefix(value, "'") then value else "'" + value + "'")
    ensures ToLower(dataType) == "bigint" ==> r == Ok(value)
    ensures r.Err? <==> ToLower(dataType) !in {"date", "datetime", "bigint"}
  {
    var t := ToLower(dataType);
    if t == "date" || t == "datetime" then
      if !HasPrefix(value, "'") then Ok("'" + value + "'") else Ok(value)
    else if t == "bigint" then Ok(value)
    else Err(UnsupportedTimestampType(dataType))
  }

  /** A quoted value starts with a quote: formatting is idempotent. */
  lemma FormatTimestampIdempotent(value: string, dataType: string)
    requires ToLower(dataType) in {"date", "datetime"}
    ensures FormatTimestampValue(value, dataType).Ok?
    ensures var v := FormatTimestampValue(value, dataType).value;
      HasPrefix(v, "'") && FormatTimestampValue(v, dataType) == Ok(v)
  {
    var v := FormatTimestampValue(value, dataType).value;
    if !HasPrefix(value, "'") {
      assert v[..1] == "'";
    }
  }

  /** The outcome of reaching the target database and running `select min(ts)` there, which
      is outside the model: no connection, the query failed, there were no rows, the minimum
      was NULL, or the raw text of the minimum. */
  datatype MinOutcome = NoConnection(msg: string) | MinQueryFailed(msg: string) | NoRows | NullMin | MinValue(raw: string)

  /** The boundary GenViewSQLWithType derives from the query outcome. For bigint the raw value
      is scanned into an int64, as database/sql does, and printed with %d. */
  function Boundary(tsType: string, outcome: MinOutcome): (r: Result<string, SqlError>)
    ensures outcome.NoConnection? ==> r == Err(ConnectionFailed(outcome.msg))
    ensures !outcome.NoConnection? && ToLower(tsType) !in {"date", "datetime", "bigint"} ==> r == Err(UnknownTimestampType(tsType))
    ensures ToLower(tsType) in {"date", "datetime", "bigint"} && (outcome.NoRows? || outcome.NullMin?) ==> r == DefaultTimestampValue(tsType) && r.Ok?
    ensures outcome.MinQueryFailed? ==> r.Err?
    ensures ToLower(tsType) in {"date", "datetime"} && outcome.MinValue? ==> r == FormatTimestampValue(outcome.raw, tsType)
    ensures ToLower(tsType) == "bigint" && outcome.MinValue? ==>
      match ParseInt64(outcome.raw)
      case Some(n) => r == Ok(IntToString(n))
      case None => r.Err?
  {
    var t := ToLower(tsType);
    if outcome.NoConnection? then Err(ConnectionFailed(outcome.msg))
    else if t == "datetime" || t == "date" then
      match outcome
      case NoConnection(m) => Err(ConnectionFailed(m))
      case MinQueryFailed(m) => Err(QueryFailed(m))
      case NoRows => DefaultTimestampValue(tsType)
      case NullMin => DefaultTimestampValue(tsType)
      case MinValue(raw) => FormatTimestampValue(raw, tsType)
    else if t == "bigint" then
      match outcome
      case NoConnection(m) => Err(ConnectionFailed(m))
      case MinQueryFailed(m) => Err(QueryFailed(m))
      case NoRows => DefaultTimestampValue(tsType)
      case NullMin => DefaultTimestampValue(tsType)
      case MinValue(raw) =>
        match ParseInt64(raw)
        case None => Err(QueryFailed("converting " + raw + " to int64"))
        case Some(n) => Ok(IntToString(n))
    else Err(UnknownTimestampType(tsType))
  }

  /** A bigint minimum survives into the statement: the boundary reads back as the same
      64-bit value. */
  lemma BoundaryBigintRoundTrip(tsType: string, raw: string)
    requires ToLower(tsType) == "bigint" && ParseInt64(raw).Some?
    ensures Boundary(tsType, MinValue(raw)).Ok?
    ensures ParseInt64(Boundary(tsType, MinValue(raw)).value) == ParseInt64(raw)
  {
    IntToStringParses(ParseInt64(raw).value);
  }

  /** A date-like minimum is always single-quoted in the statement. */
  lemma BoundaryQuotesDates(tsType: string, raw: string)
    requires ToLower(tsType) in {"date", "datetime"}
    ensures Boundary(tsType, MinValue(raw)).Ok? && HasPrefix(Boundary(tsType, MinValue(raw)).value, "'")
  {
    FormatTimestampIdempotent(raw, tsType);
  }

  // ---------------------------------------------------------------------------
  // BuildAlterWithPartition's value check

  const DateTimeLayout: string := "2006-01-02 15:04:05"
  const DateLayout: string := "2006-01-02"

  /** The boundary BuildAlterWithPartition accepts for a (lower-cased) column type.
      `parses(layout, value)` stands for time.Parse succeeding. */
  function PartitionBoundary(tsType: string, partitionValue: string, parses: (string, string) -> bool)
    : (r: Result<string, SqlError>)
    ensures r.Ok? && tsType in {"date", "datetime"} ==> r.value == "'" + TrimChar(partitionValue, '\'') + "'"
    ensures r.Ok? && tsType == "bigint" ==>
      r.value == TrimChar(partitionValue, '\'') && ParseInt64(r.value).Some?
    ensures r.Ok? <==>
      (tsType == "datetime" && parses(DateTimeLayout, TrimChar(partitionValue, '\'')))
      || (tsType == "date" && parses(DateLayout, TrimChar(partitionValue, '\'')))
      || (tsType == "bigint" && ParseInt64(TrimChar(partitionValue, '\'')).Some?)
  {
    var trimmed := TrimChar(partitionValue, '\'');
    if tsType == "datetime" then
      if !parses(DateTimeLayout, trimmed) then Err(PartitionParseFailed(DateTimeLayout))
      else Ok("'" + trimmed + "'")
    else if tsType == "date" then
      if !parses(DateLayout, trimmed) then Err(PartitionParseFailed(DateLayout))
      else Ok("'" + trimmed + "'")
    else if tsType == "bigint" then
      if ParseInt64(trimmed).None? then Err(PartitionNotInteger)
      else Ok(trimmed)
    else Err(UnsupportedPartitionType(tsType))
  }

  /** Quotes around a partition value are stripped, so a quoted and an unquoted date give the
      same statement. */
  lemma PartitionIgnoresQuotes(tsType: string, v: string, parses: (string, string) -> bool)
    requires v == TrimChar(v, '\'')
    ensures PartitionBoundary(tsType, "'" + v + "'", parses) == PartitionBoundary(tsType, v, parses)
  {
    var q := "'" + v + "'";
    if |v| == 0 {
      assert TrimChar(q, '\'') == TrimChar(q[1..], '\'');
      assert q[1..] == "'";
      assert TrimChar("'", '\'') == TrimChar("", '\'');
    } else {
      assert q[1..] == v + "'";
      assert (v + "'")[..|v|] == v;
      assert v[0] != '\'' && v[|v| - 1] != '\'';
      assert TrimChar(q, '\'') == TrimChar(v + "'", '\'');
      assert TrimChar(v + "'", '\'') == TrimChar(v, '\'');
    }
  }

  // ---------------------------------------------------------------------------
  // ComposeFinalSQL

  /** The statement's opening: the verb and the view's name. */
  function ViewHead(sqlType: string, dbName: string, viewName: string): (r: string)
    ensures sqlType == SQLTypeAlter ==> HasPrefix(r, "alter view ")
    ensures sqlType != SQLTypeAlter ==> HasPrefix(r, "create view if not exists ")
  {
    var name := dbName + "." + viewName + " as \n";
    PrefixOfConcat("alter view ", name);
    PrefixOfConcat("create view if not exists ", name);
    (if sqlType == SQLTypeAlter then "alter view " else "create view if not exists ") + name
  }

  /** The origin arm: rows strictly below the boundary. */
  function OriginArm(ckQ: string, tsColumn: string, minTs: string): string {
    ckQ + " \nwhere " + tsColumn + " < " + minTs + " \nunion all \n"
  }

  /** The target arm: rows at or above the boundary. */
  function TargetArm(srQ: string, tsColumn: string, minTs: string): string {
    srQ + " \nwhere " + tsColumn + " >= " + minTs + "; \n"
  }

  /** ComposeFinalSQL: origin rows below the boundary, target rows at or above it. */
  function ComposeFinalSQL(sqlType: string, dbName: string, viewName: string, ckQ: string, srQ: string,
                           tsColumn: string, minTs: string): (r: string)
    ensures sqlType == SQLTypeAlter ==> HasPrefix(r, "alter view ")
    ensures sqlType != SQLTypeAlter ==> HasPrefix(r, "create view if not exists ")
    ensures HasSuffix(r, TargetArm(srQ, tsColumn, minTs))
  {
    var head := ViewHead(sqlType, dbName, viewName);
    var arms := OriginArm(ckQ, tsColumn, minTs) + TargetArm(srQ, tsColumn, minTs);
    PrefixPreserved(head, arms, if sqlType == SQLTypeAlter then "alter view " else "create view if not exists ");
    SuffixOfConcat(head + OriginArm(ckQ, tsColumn, minTs), TargetArm(srQ, tsColumn, minTs));
    head + OriginArm(ckQ, tsColumn, minTs) + TargetArm(srQ, tsColumn, minTs)
  }

  lemma PrefixPreserved(a: string, b: string, p: string)
    requires HasPrefix(a, p)
    ensures HasPrefix(a + b, p)
  {
    assert (a + b)[..|p|] == a[..|p|];
  }

  /** The two arms split on the same column and the same boundary: the origin arm keeps
      `ts < B`, the target arm `ts >= B`, so every row comes from exactly one side. */
  lemma ComposeSplitsAtBoundary(sqlType: string, dbName: string, viewName: string, ckQ: string, srQ: string,
                                tsColumn: string, minTs: string)
    ensures Contains(ComposeFinalSQL(sqlType, dbName, viewName, ckQ, srQ, tsColumn, minTs),
                     ckQ + " \nwhere " + tsColumn + " < " + minTs + " \nunion all \n")
    ensures Contains(ComposeFinalSQL(sqlType, dbName, viewName, ckQ, srQ, tsColumn, minTs),
                     srQ + " \nwhere " + tsColumn + " >= " + minTs + "; \n")
  {
    var head := ViewHead(sqlType, dbName, viewName);
    var ck := OriginArm(ckQ, tsColumn, minTs);
    var sr := TargetArm(srQ, tsColumn, minTs);
    var r := ComposeFinalSQL(sqlType, dbName, viewName, ckQ, srQ, tsColumn, minTs);
    ContainsInfix(head, ck, sr, r);
    assert r == (head + ck) + sr + [];
    ContainsInfix(head + ck, sr, [], r);
  }

  /** The post-query part of GenViewSQLWithType. */
  function GenViewSQL(sqlType: string, dbName: string, viewName: string, ckQ: string, srQ: string,
                      cfg: TsConfig, srTable: string, outcome: MinOutcome): (r: Result<string, SqlError>)
    ensures r.Ok? <==> Boundary(TimestampColumnType(cfg, srTable), outcome).Ok?
    ensures r.Ok? ==> r.value == ComposeFinalSQL(sqlType, dbName, viewName, ckQ, srQ,
      TimestampColumnName(cfg, srTable), Boundary(TimestampColumnType(cfg, srTable), outcome).value)
  {
    var col := TimestampColumnName(cfg, srTable);
    var typ := TimestampColumnType(cfg, srTable);
    match Boundary(typ, outcome)
    case Err(e) => Err(e)
    case Ok(b) => Ok(ComposeFinalSQL(sqlType, dbName, viewName, ckQ, srQ, col, b))
  }

  /** An empty or NULL-only target table puts the boundary at the type's maximum, so the
      origin arm carries (almost) every row. */
  lemma EmptyTargetUsesMaximum(sqlType: string, dbName: string, viewName: string, ckQ: string, srQ: string,
                               cfg: TsConfig, srTable: string)
    requires TimestampEntry(cfg, srTable).None?
    ensures GenViewSQL(sqlType, dbName, viewName, ckQ, srQ, cfg, srTable, NoRows)
      == Ok(ComposeFinalSQL(sqlType, dbName, viewName, ckQ, srQ, "recordTimestamp", "9999999999999"))
  {
    assert ToLower("bigint") == "bigint";
  }
}
