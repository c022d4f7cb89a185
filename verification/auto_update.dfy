/** The view updater of internal/autoupdaterun/run.go: the StarRocks table behind a view, the
    timestamp column and type that bound the view, the partition value computed from the
    column's minimum, and the running flag of the scheduler. */
module AutoUpdate {
  import opened Wrappers
  import opened Text
  import opened Common
  import Configuration

  /** getStarRocksTableNameFromView: the view name with the pair's suffix. */
  function SRTableFromView(view: string, suffix: string): (r: string)
    ensures HasSuffix(r, suffix) && TrimSuffix(r, suffix) == view
  {
    SuffixOfConcat(view, suffix);
    TrimSuffixOfConcat(view, suffix);
    view + suffix
  }

  // ---------------------------------------------------------------------------
  // Timestamp resolution

  /** A timestamp_columns entry of the configuration. */
  type TimestampColumnConfig = Configuration.TimestampColumnConfig

  /** The resolved timestamp column and its type. */
  datatype Timestamp = Timestamp(column: string, typ: string)

  const DefaultTimestampColumn: string := "recordTimestamp"
  const DefaultTimestampType: string := "bigint"

  /** The defaults, each replaced by the entry's value when that value is not empty. */
  function Override(e: TimestampColumnConfig): (r: Timestamp)
    ensures r.column == (if e.column != "" then e.column else DefaultTimestampColumn)
    ensures r.typ == (if e.typ != "" then e.typ else DefaultTimestampType)
  {
    Timestamp(if e.column != "" then e.column else DefaultTimestampColumn,
              if e.typ != "" then e.typ else DefaultTimestampType)
  }

  /** The timestamp of a view: the entry keyed by the StarRocks table name if there is one,
      else the entry keyed by the view name, else the defaults. A missing map reads as an
      empty one. */
  function ResolveTimestamp(columns: map<string, TimestampColumnConfig>, srTable: string, view: string): (r: Timestamp)
    ensures r.column != "" && r.typ != ""
    ensures srTable !in columns && view !in columns ==> r == Timestamp(DefaultTimestampColumn, DefaultTimestampType)
    ensures srTable in columns ==> r == Override(columns[srTable])
    ensures srTable !in columns && view in columns ==> r == Override(columns[view])
  {
    if srTable in columns then Override(columns[srTable])
    else if view in columns then Override(columns[view])
    else Timestamp(DefaultTimestampColumn, DefaultTimestampType)
  }

  /** The entry of the StarRocks table takes precedence: the view's entry, whatever it holds,
      does not matter once the table has one. */
  lemma TableEntryWins(columns: map<string, TimestampColumnConfig>, srTable: string, view: string,
                       other: TimestampColumnConfig)
    requires srTable in columns && view != srTable
    ensures ResolveTimestamp(columns[view := other], srTable, view) == ResolveTimestamp(columns, srTable, view)
  {
  }

  /** An entry with both values empty resolves to the defaults, like no entry. */
  lemma EmptyEntryIsDefault(columns: map<string, TimestampColumnConfig>, srTable: string, view: string)
    requires srTable in columns && columns[srTable] == Configuration.TimestampColumnConfig("", "")
    ensures ResolveTimestamp(columns, srTable, view) == ResolveTimestamp(map[], srTable, view)
  {
  }

  /** The query for the smallest timestamp: select min(col) from db.table. */
  function MinQuery(column: string, db: string, table: string): (r: string)
    ensures HasPrefix(r, "select min(" + column + ") from ")
    ensures HasSuffix(r, db + "." + table)
  {
    var r := "select min(" + column + ") from " + db + "." + table;
    assert r == "select min(" + column + ") from " + (db + "." + table);
    PrefixOfConcat("select min(" + column + ") from ", db + "." + table);
    SuffixOfConcat("select min(" + column + ") from ", db + "." + table);
    r
  }

  // ---------------------------------------------------------------------------
  // Partition value

  /** Why no partition value was computed. */
  datatype PartitionError = QueryFailed | UnsupportedType(typ: string)

  /** What the minimum query returned: an error (no rows included), NULL, or a value. */
  datatype MinRow<T> = RowError | RowNull | RowValue(value: T)

  const MaxDate: string := "'9999-12-31'"
  const MaxDateTime: string := "'9999-12-31 23:59:59'"
  const MaxBigint: string := "9999999999999"

  /** A text minimum as a SQL literal: kept when it already starts with a quote, otherwise
      wrapped in quotes. */
  function QuoteLiteral(v: string): (r: string)
    ensures HasPrefix(r, "'")
    ensures !HasPrefix(v, "'") ==> |r| == |v| + 2 && r[1..|r| - 1] == v && r[|r| - 1] == '\''
    ensures HasPrefix(v, "'") ==> r == v
  {
    if HasPrefix(v, "'") then v
    else
      var r := "'" + v + "'";
      assert r[1..|r| - 1] == v;
      assert r[..1] == "'";
      r
  }

  /** The partition value for a date or datetime column; `isDate` picks the maximum used when
      the minimum is NULL or empty. */
  function TextPartition(isDate: bool, min: MinRow<string>): (r: Result<string, PartitionError>)
    ensures min.RowError? <==> r == Err(QueryFailed)
    ensures r.Ok? ==> HasPrefix(r.value, "'")
    ensures (min.RowNull? || min == RowValue("")) ==> r == Ok(if isDate then MaxDate else MaxDateTime)
    ensures min.RowValue? && min.value != "" ==> r == Ok(QuoteLiteral(min.value))
  {
    match min
    case RowError => Err(QueryFailed)
    case RowNull => Ok(if isDate then MaxDate else MaxDateTime)
    case RowValue(v) =>
      if v == "" then
        assert MaxDate[..1] == "'" && MaxDateTime[..1] == "'";
        Ok(if isDate then MaxDate else MaxDateTime)
      else Ok(QuoteLiteral(v))
  }

  /** The partition value for a bigint column: the decimal minimum, or the maximum when it is
      NULL. */
  function BigintPartition(min: MinRow<int>): (r: Result<string, PartitionError>)
    ensures min.RowError? <==> r == Err(QueryFailed)
    ensures min.RowNull? ==> r == Ok(MaxBigint)
    ensures min.RowValue? && MinInt64 <= min.value <= MaxInt64 ==> r.Ok? && ParseInt64(r.value) == Some(min.value)
  {
    match min
    case RowError => Err(QueryFailed)
    case RowNull => Ok(MaxBigint)
    case RowValue(n) =>
      assert MinInt64 <= n <= MaxInt64 ==> ParseInt64(IntToString(n)) == Some(n) by {
        if MinInt64 <= n <= MaxInt64 {
          IntToStringParses(n);
        }
      }
      Ok(IntToString(n))
  }

  /** The partition value UpdateSingleView computes: the type, case-insensitively, picks how the
      minimum is read and formatted; any other type is refused before any query. Only the row
      read for the chosen type matters. */
  function PartitionValue(tsType: string, textMin: MinRow<string>, intMin: MinRow<int>): (r: Result<string, PartitionError>)
    ensures ToLower(tsType) !in {"datetime", "date", "bigint"} <==> r == Err(UnsupportedType(tsType))
    ensures ToLower(tsType) in {"datetime", "date"} ==> r == TextPartition(ToLower(tsType) == "date", textMin)
    ensures ToLower(tsType) == "bigint" ==> r == BigintPartition(intMin)
  {
    var t := ToLower(tsType);
    if t == "datetime" || t == "date" then TextPartition(t == "date", textMin)
    else if t == "bigint" then BigintPartition(intMin)
    else Err(UnsupportedType(tsType))
  }

  /** The boundary UpdateSingleView hands to the one-off updater. `textRows` and `intRows` are
      what StarRocks answers to a query, read as text or as a 64-bit integer. The timestamp
      entry of the view's StarRocks table, else the view's own entry, else the defaults, name
      the column whose minimum is read from db.<view + suffix> and the type that picks how it
      is read. */
  function ViewBoundary(columns: map<string, TimestampColumnConfig>, db: string, view: string, suffix: string,
                        textRows: string -> MinRow<string>, intRows: string -> MinRow<int>): (r: Result<string, PartitionError>)
    ensures view + suffix in columns ==> r == BoundaryFrom(Override(columns[view + suffix]), db, view + suffix, textRows, intRows)
    ensures view + suffix !in columns && view in columns ==>
      r == BoundaryFrom(Override(columns[view]), db, view + suffix, textRows, intRows)
    ensures view + suffix !in columns && view !in columns ==>
      r == BigintPartition(intRows(MinQuery(DefaultTimestampColumn, db, view + suffix)))
  {
    var srTable := SRTableFromView(view, suffix);
    var ts := ResolveTimestamp(columns, srTable, view);
    var query := MinQuery(ts.column, db, srTable);
    assert ToLower(DefaultTimestampType) == "bigint";
    PartitionValue(ts.typ, textRows(query), intRows(query))
  }

  /** The boundary read with one resolved timestamp: its type picks the reading, its column the
      query over `table`. */
  function BoundaryFrom(ts: Timestamp, db: string, table: string,
                        textRows: string -> MinRow<string>, intRows: string -> MinRow<int>): (r: Result<string, PartitionError>)
    ensures ToLower(ts.typ) in {"datetime", "date"} ==>
      r == TextPartition(ToLower(ts.typ) == "date", textRows(MinQuery(ts.column, db, table)))
    ensures ToLower(ts.typ) == "bigint" ==> r == BigintPartition(intRows(MinQuery(ts.column, db, table)))
    ensures ToLower(ts.typ) !in {"datetime", "date", "bigint"} <==> r == Err(UnsupportedType(ts.typ))
  {
    var query := MinQuery(ts.column, db, table);
    PartitionValue(ts.typ, textRows(query), intRows(query))
  }

  /** With no configuration at all the boundary is the minimum of a bigint recordTimestamp
      column. */
  lemma DefaultBoundaryIsBigint(db: string, view: string, suffix: string,
                                textRows: string -> MinRow<string>, intRows: string -> MinRow<int>)
    ensures ViewBoundary(map[], db, view, suffix, textRows, intRows)
      == BigintPartition(intRows("select min(recordTimestamp) from " + db + "." + view + suffix))
  {
    assert MinQuery(DefaultTimestampColumn, db, view + suffix) == "select min(recordTimestamp) from " + db + "." + view + suffix;
  }

  // ---------------------------------------------------------------------------
  // The scheduler's running flag

  /** The updater's own configuration. */
  datatype ViewUpdaterConfig = ViewUpdaterConfig(cronExpression: string, enabled: bool)

  /** A view updater. The cron scheduler is reduced to the jobs registered on it and whether it
      is started; `cronAccepts` says whether the scheduler takes the configured expression. */
  class ViewUpdater {
    const cronExpression: string
    const cronAccepts: bool
    /** The lock identity, with the updater role. */
    const identity: string
    var running: bool
    var jobs: nat
    var cronStarted: bool
    var cancelled: bool

    constructor (cronExpression: string, cronAccepts: bool, identity: string)
      ensures this.cronExpression == cronExpression && this.cronAccepts == cronAccepts && this.identity == identity
      ensures !running && jobs == 0 && !cronStarted && !cancelled
    {
      this.cronExpression := cronExpression;
      this.cronAccepts := cronAccepts;
      this.identity := identity;
      running := false;
      jobs := 0;
      cronStarted := false;
      cancelled := false;
    }

    /** Start: refuses when already running; registers the job, starts the scheduler and only
        then sets the flag. */
    method Start() returns (ok: bool)
      modifies this
      ensures old(running) ==> !ok && running && jobs == old(jobs) && cronStarted == old(cronStarted)
      ensures !old(running) && !cronAccepts ==> !ok && !running && jobs == old(jobs) && cronStarted == old(cronStarted)
      ensures !old(running) && cronAccepts ==> ok && running && cronStarted && jobs == old(jobs) + 1
      ensures cancelled == old(cancelled)
    {
      if running {
        return false;
      }
      if !cronAccepts {
        return false;
      }
      jobs := jobs + 1;
      cronStarted := true;
      running := true;
      return true;
    }

    /** Stop: nothing when not running; otherwise stops the scheduler, cancels the context and
        clears the flag. The registered jobs stay registered. */
    method Stop()
      modifies this
      ensures !old(running) ==> running == old(running) && cronStarted == old(cronStarted) && cancelled == old(cancelled)
      ensures old(running) ==> !running && !cronStarted && cancelled
      ensures jobs == old(jobs)
    {
      if !running {
        return;
      }
      cronStarted := false;
      cancelled := true;
      running := false;
    }

    /** IsRunning */
    function IsRunning(): (r: bool)
      reads this
      ensures r == running
    {
      running
    }
  }

  /** NewViewUpdater: refuses a disabled updater, and fails when the lock manager cannot be
      created; otherwise a stopped updater holding the updater identity. */
  method NewViewUpdater(cfg: ViewUpdaterConfig, cronAccepts: bool, lockIdentity: string, lockCreated: bool)
    returns (r: Option<ViewUpdater>)
    ensures r.None? <==> !cfg.enabled || !lockCreated
    ensures r.Some? ==> (fresh(r.value) && !r.value.running && r.value.jobs == 0
                         && r.value.identity == BuildIdentity(lockIdentity, RoleUpdater)
                         && r.value.cronExpression == cfg.cronExpression)
  {
    if !cfg.enabled {
      return None;
    }
    if !lockCreated {
      return None;
    }
    var vu := new ViewUpdater(cfg.cronExpression, cronAccepts, BuildIdentity(lockIdentity, RoleUpdater));
    return Some(vu);
  }

  /** Starting twice fails the second time and leaves one job; stopping and starting again
      registers the job a second time. */
  method StartStopStart(vu: ViewUpdater) returns (first: bool, second: bool, third: bool)
    requires !vu.running && vu.jobs == 0 && vu.cronAccepts
    modifies vu
    ensures first && !second && third
    ensures vu.running && vu.jobs == 2 && vu.cancelled
  {
    first := vu.Start();
    second := vu.Start();
    vu.Stop();
    third := vu.Start();
  }
}
