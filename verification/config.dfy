/** The configuration of config/config.go: the decoded document, the defaults and validation
    LoadConfig applies after decoding, the connection strings of each database pair, and the
    lookup of a pair by name. */
module Configuration {
  import opened Wrappers
  import opened Text
  import Common

  // ---------------------------------------------------------------------------
  // The decoded document

  datatype ClickHouseConfig = ClickHouseConfig(
    host: string, port: int, httpPort: int, username: string, password: string, database: string,
    distributedDDLTaskTimeoutSeconds: int, connTimeoutSeconds: int, readTimeoutSeconds: int,
    writeTimeoutSeconds: int, jdbcSocketTimeoutMs: int, jdbcConnectionTimeoutMs: int)

  datatype StarRocksConfig = StarRocksConfig(
    host: string, port: int, username: string, password: string, database: string,
    connTimeoutSeconds: int, readTimeoutSeconds: int, writeTimeoutSeconds: int)

  /** A ClickHouse database and the StarRocks database its views live in. */
  datatype DatabasePair = DatabasePair(
    name: string, catalogName: string, srTableSuffix: string,
    clickHouse: ClickHouseConfig, starRocks: StarRocksConfig)

  datatype LogConfig = LogConfig(enableFileLog: bool, logFilePath: string, logLevel: string)

  /** One timestamp_columns entry. */
  datatype TimestampColumnConfig = TimestampColumnConfig(column: string, typ: string)

  datatype RetryConfig = RetryConfig(maxRetries: int, delayMs: int)

  datatype LockConfig = LockConfig(debugMode: bool, k8sNamespace: string, leaseName: string,
                                   identity: string, lockDurationSeconds: int)

  /** The whole document. A missing list or map decodes as an empty one. */
  datatype Config = Config(
    databasePairs: seq<DatabasePair>, ignoreTables: seq<string>,
    timestampColumns: map<string, TimestampColumnConfig>,
    tempDir: string, driverURL: string, log: LogConfig, retry: RetryConfig,
    cronExpression: string, lock: LockConfig, rollbackStrategy: string,
    ddlParseTimeoutSeconds: int)

  // ---------------------------------------------------------------------------
  // Defaults

  const DefaultTempDir: string := "./temp"
  const DefaultCron: string := "0 0 2 * * *"
  const DefaultNamespace: string := "olap"
  const DefaultLeaseName: string := "cksr-lock"
  const DefaultLockDuration: int := 300
  const StopOnError: string := "stop_on_error"
  const ContinueOnError: string := "continue_on_error"
  const DefaultMaxRetries: int := 3
  const DefaultDelayMs: int := 100
  const DefaultParseTimeout: int := 60

  function OrString(s: string, d: string): string { if s == "" then d else s }
  function OrInt(n: int, d: int): int { if n == 0 then d else n }

  function LockDefaults(l: LockConfig): LockConfig {
    l.(k8sNamespace := OrString(l.k8sNamespace, DefaultNamespace),
       leaseName := OrString(l.leaseName, DefaultLeaseName),
       identity := OrString(l.identity, Common.DefaultIdentity),
       lockDurationSeconds := OrInt(l.lockDurationSeconds, DefaultLockDuration))
  }

  function RetryDefaults(r: RetryConfig): RetryConfig {
    RetryConfig(OrInt(r.maxRetries, DefaultMaxRetries), OrInt(r.delayMs, DefaultDelayMs))
  }

  /** The top-level defaults: every empty string or zero number among these fields takes its
      default; nothing else changes. */
  function WithDefaults(c: Config): Config {
    c.(tempDir := OrString(c.tempDir, DefaultTempDir),
       cronExpression := OrString(c.cronExpression, DefaultCron),
       lock := LockDefaults(c.lock),
       rollbackStrategy := OrString(c.rollbackStrategy, StopOnError),
       retry := RetryDefaults(c.retry),
       ddlParseTimeoutSeconds := OrInt(c.ddlParseTimeoutSeconds, DefaultParseTimeout))
  }

  /** After the defaults the defaulted fields are set, a field that was already set is kept,
      and the pairs and the other fields are untouched. */
  lemma DefaultsShape(c: Config)
    ensures var r := WithDefaults(c);
      r.tempDir != "" && r.cronExpression != "" && r.lock.k8sNamespace != "" && r.lock.leaseName != ""
      && r.lock.identity != "" && r.lock.lockDurationSeconds != 0 && r.rollbackStrategy != ""
      && r.retry.maxRetries != 0 && r.retry.delayMs != 0 && r.ddlParseTimeoutSeconds != 0
    ensures var r := WithDefaults(c);
      (c.tempDir != "" ==> r.tempDir == c.tempDir) && (c.cronExpression != "" ==> r.cronExpression == c.cronExpression)
      && (c.rollbackStrategy != "" ==> r.rollbackStrategy == c.rollbackStrategy)
      && (c.ddlParseTimeoutSeconds != 0 ==> r.ddlParseTimeoutSeconds == c.ddlParseTimeoutSeconds)
      && (c.lock.identity != "" ==> r.lock.identity == c.lock.identity)
    ensures var r := WithDefaults(c);
      r.databasePairs == c.databasePairs && r.ignoreTables == c.ignoreTables
      && r.timestampColumns == c.timestampColumns && r.driverURL == c.driverURL && r.log == c.log
      && r.lock.debugMode == c.lock.debugMode
  {
  }

  /** Each empty or zero field takes its own default. */
  lemma DefaultValues(c: Config)
    ensures var r := WithDefaults(c);
      (c.tempDir == "" ==> r.tempDir == DefaultTempDir) && (c.cronExpression == "" ==> r.cronExpression == DefaultCron)
      && (c.lock.k8sNamespace == "" ==> r.lock.k8sNamespace == DefaultNamespace)
      && (c.lock.leaseName == "" ==> r.lock.leaseName == DefaultLeaseName)
      && (c.lock.identity == "" ==> r.lock.identity == Common.DefaultIdentity)
      && (c.lock.lockDurationSeconds == 0 ==> r.lock.lockDurationSeconds == DefaultLockDuration)
      && (c.rollbackStrategy == "" ==> r.rollbackStrategy == StopOnError)
      && (c.retry.maxRetries == 0 ==> r.retry.maxRetries == DefaultMaxRetries)
      && (c.retry.delayMs == 0 ==> r.retry.delayMs == DefaultDelayMs)
      && (c.ddlParseTimeoutSeconds == 0 ==> r.ddlParseTimeoutSeconds == DefaultParseTimeout)
  {
  }

  /** Applying the defaults a second time changes nothing. */
  lemma DefaultsIdempotent(c: Config)
    ensures WithDefaults(WithDefaults(c)) == WithDefaults(c)
  {
  }

  // ---------------------------------------------------------------------------
  // Validation

  /** What is wrong with a database pair, in the order the checks run. */
  datatype PairProblem =
    | MissingName | MissingCatalogName | MissingSuffix
    | CkHostEmpty | CkPortInvalid | CkDatabaseEmpty | CkDDLTimeoutNegative | CkTimeoutNegative
    | CkJDBCTimeoutNegative
    | SrHostEmpty | SrPortInvalid | SrDatabaseEmpty | SrTimeoutNegative

  /** Why LoadConfig refused the document. */
  datatype ConfigError =
    | NoDatabasePairs
    | PairInvalid(pairName: string, problem: PairProblem)
    | InvalidStrategy(strategy: string)
    | InvalidParseTimeout

  /** The first check a pair fails. */
  function PairError(p: DatabasePair): (r: Option<PairProblem>)
    ensures r.None? <==>
      (p.name != "" && p.catalogName != "" && p.srTableSuffix != ""
       && p.clickHouse.host != "" && p.clickHouse.port > 0 && p.clickHouse.database != ""
       && p.clickHouse.distributedDDLTaskTimeoutSeconds >= 0
       && p.clickHouse.connTimeoutSeconds >= 0 && p.clickHouse.readTimeoutSeconds >= 0
       && p.clickHouse.writeTimeoutSeconds >= 0
       && p.clickHouse.jdbcSocketTimeoutMs >= 0 && p.clickHouse.jdbcConnectionTimeoutMs >= 0
       && p.starRocks.host != "" && p.starRocks.port > 0 && p.starRocks.database != ""
       && p.starRocks.connTimeoutSeconds >= 0 && p.starRocks.readTimeoutSeconds >= 0
       && p.starRocks.writeTimeoutSeconds >= 0)
    ensures p.name == "" ==> r == Some(MissingName)
  {
    var ck := p.clickHouse;
    var sr := p.starRocks;
    if p.name == "" then Some(MissingName)
    else if p.catalogName == "" then Some(MissingCatalogName)
    else if p.srTableSuffix == "" then Some(MissingSuffix)
    else if ck.host == "" then Some(CkHostEmpty)
    else if ck.port <= 0 then Some(CkPortInvalid)
    else if ck.database == "" then Some(CkDatabaseEmpty)
    else if ck.distributedDDLTaskTimeoutSeconds < 0 then Some(CkDDLTimeoutNegative)
    else if ck.connTimeoutSeconds < 0 || ck.readTimeoutSeconds < 0 || ck.writeTimeoutSeconds < 0 then Some(CkTimeoutNegative)
    else if ck.jdbcSocketTimeoutMs < 0 || ck.jdbcConnectionTimeoutMs < 0 then Some(CkJDBCTimeoutNegative)
    else if sr.host == "" then Some(SrHostEmpty)
    else if sr.port <= 0 then Some(SrPortInvalid)
    else if sr.database == "" then Some(SrDatabaseEmpty)
    else if sr.connTimeoutSeconds < 0 || sr.readTimeoutSeconds < 0 || sr.writeTimeoutSeconds < 0 then Some(SrTimeoutNegative)
    else None
  }

  /** The zero timeouts of a pair replaced by their defaults. */
  function PairDefaults(p: DatabasePair): DatabasePair {
    var ck := p.clickHouse;
    var sr := p.starRocks;
    p.(clickHouse := ck.(connTimeoutSeconds := OrInt(ck.connTimeoutSeconds, 30),
                         readTimeoutSeconds := OrInt(ck.readTimeoutSeconds, 60),
                         writeTimeoutSeconds := OrInt(ck.writeTimeoutSeconds, 60),
                         jdbcSocketTimeoutMs := OrInt(ck.jdbcSocketTimeoutMs, 300000),
                         jdbcConnectionTimeoutMs := OrInt(ck.jdbcConnectionTimeoutMs, 30000)),
       starRocks := sr.(connTimeoutSeconds := OrInt(sr.connTimeoutSeconds, 30),
                        readTimeoutSeconds := OrInt(sr.readTimeoutSeconds, 60),
                        writeTimeoutSeconds := OrInt(sr.writeTimeoutSeconds, 60)))
  }

  /** The error for the first pair, from index `i` on, that fails a check. */
  function FirstPairError(pairs: seq<DatabasePair>, i: nat): (r: Option<ConfigError>)
    requires i <= |pairs|
    ensures r.None? <==> forall j :: i <= j < |pairs| ==> PairError(pairs[j]).None?
    ensures r.Some? ==> exists j :: i <= j < |pairs| && PairError(pairs[j]).Some? && r.value == PairInvalid(pairs[j].name, PairError(pairs[j]).value)
                                  && forall k :: i <= k < j ==> PairError(pairs[k]).None?
    decreases |pairs| - i
  {
    if i == |pairs| then None
    else match PairError(pairs[i])
      case Some(e) => Some(PairInvalid(pairs[i].name, e))
      case None => FirstPairError(pairs, i + 1)
  }

  predicate ValidStrategy(s: string) { s == StopOnError || s == ContinueOnError }

  /** What LoadConfig returns for a decoded document, as written: the top-level defaults, then
      the checks in order. The per-pair defaults are written to the loop's copy of the pair, so
      the returned pairs are the decoded ones. */
  function Load(decoded: Config): (r: Result<Config, ConfigError>)
  {
    var c := WithDefaults(decoded);
    if c.databasePairs == [] then Err(NoDatabasePairs)
    else match FirstPairError(c.databasePairs, 0)
      case Some(e) => Err(e)
      case None =>
        if !ValidStrategy(c.rollbackStrategy) then Err(InvalidStrategy(c.rollbackStrategy))
        else if c.ddlParseTimeoutSeconds <= 0 then Err(InvalidParseTimeout)
        else Ok(c)
  }

  /** A document loads exactly when it has a pair, every pair passes its checks, the strategy is
      empty or one of the two names, and the parse timeout is not negative (zero becomes 60). On
      success the result is the defaulted document. */
  lemma LoadOkIff(decoded: Config)
    ensures Load(decoded).Ok? <==>
      (decoded.databasePairs != [] && (forall p :: p in decoded.databasePairs ==> PairError(p).None?)
       && (decoded.rollbackStrategy == "" || ValidStrategy(decoded.rollbackStrategy))
       && decoded.ddlParseTimeoutSeconds >= 0)
    ensures Load(decoded).Ok? ==> Load(decoded).value == WithDefaults(decoded)
  {
    var ps := decoded.databasePairs;
    assert (forall j :: 0 <= j < |ps| ==> PairError(ps[j]).None?) <==> (forall p :: p in ps ==> PairError(p).None?) by {
      if forall j :: 0 <= j < |ps| ==> PairError(ps[j]).None? {
        forall p | p in ps ensures PairError(p).None? {
          var j :| 0 <= j < |ps| && ps[j] == p;
        }
      }
    }
  }

  /** A refused pair is reported by the first pair that fails, with its own name and the first
      check it fails; the strategy and the parse timeout are only judged once every pair passes. */
  lemma LoadReportsFirstPair(decoded: Config)
    requires Load(decoded).Err? && Load(decoded).error.PairInvalid?
    ensures var ps := decoded.databasePairs;
      exists j :: 0 <= j < |ps| && PairError(ps[j]).Some? && Load(decoded).error == PairInvalid(ps[j].name, PairError(ps[j]).value)
                && forall k :: 0 <= k < j ==> PairError(ps[k]).None?
  {
  }

  /** A connect, read and write timeout triple: a zero connect timeout becomes 30 s and a zero
      read or write timeout 60 s. */
  method SecondTimeoutDefaults(conn: int, read: int, write: int) returns (conn': int, read': int, write': int)
    ensures conn' == OrInt(conn, 30) && read' == OrInt(read, 60) && write' == OrInt(write, 60)
  {
    conn', read', write' := conn, read, write;
    if conn' == 0 { conn' := 30; }
    if read' == 0 { read' := 60; }
    if write' == 0 { write' := 60; }
  }

  /** The ClickHouse connect, read and write timeouts: each zero one takes its default. */
  method CkTimeoutDefaults(ck: ClickHouseConfig) returns (r: ClickHouseConfig)
    ensures r == ck.(connTimeoutSeconds := OrInt(ck.connTimeoutSeconds, 30),
                     readTimeoutSeconds := OrInt(ck.readTimeoutSeconds, 60),
                     writeTimeoutSeconds := OrInt(ck.writeTimeoutSeconds, 60))
  {
    var conn, read, write := SecondTimeoutDefaults(ck.connTimeoutSeconds, ck.readTimeoutSeconds, ck.writeTimeoutSeconds);
    r := ck.(connTimeoutSeconds := conn, readTimeoutSeconds := read, writeTimeoutSeconds := write);
  }

  /** The ClickHouse JDBC socket and connection timeouts: each zero one takes its default. */
  method JdbcTimeoutDefaults(ck: ClickHouseConfig) returns (r: ClickHouseConfig)
    ensures r == ck.(jdbcSocketTimeoutMs := OrInt(ck.jdbcSocketTimeoutMs, 300000),
                     jdbcConnectionTimeoutMs := OrInt(ck.jdbcConnectionTimeoutMs, 30000))
  {
    r := ck;
    if r.jdbcSocketTimeoutMs == 0 { r := r.(jdbcSocketTimeoutMs := 300000); }
    if r.jdbcConnectionTimeoutMs == 0 { r := r.(jdbcConnectionTimeoutMs := 30000); }
  }

  /** The StarRocks connect, read and write timeouts: each zero one takes its default. */
  method SrTimeoutDefaults(sr: StarRocksConfig) returns (r: StarRocksConfig)
    ensures r == sr.(connTimeoutSeconds := OrInt(sr.connTimeoutSeconds, 30),
                     readTimeoutSeconds := OrInt(sr.readTimeoutSeconds, 60),
                     writeTimeoutSeconds := OrInt(sr.writeTimeoutSeconds, 60))
  {
    var conn, read, write := SecondTimeoutDefaults(sr.connTimeoutSeconds, sr.readTimeoutSeconds, sr.writeTimeoutSeconds);
    r := sr.(connTimeoutSeconds := conn, readTimeoutSeconds := read, writeTimeoutSeconds := write);
  }

  /** The refusal checks, in the order LoadConfig runs them, for a pair the loop holds. The
      defaults it assigns are written to `pair`, the loop's copy; the caller decides what to do
      with it. */
  method CheckPair(p: DatabasePair) returns (err: Option<PairProblem>, pair: DatabasePair)
    ensures err == PairError(p)
    ensures err.None? ==> pair == PairDefaults(p)
  {
    pair := p;
    if pair.name == "" { return Some(MissingName), pair; }
    if pair.catalogName == "" { return Some(MissingCatalogName), pair; }
    if pair.srTableSuffix == "" { return Some(MissingSuffix), pair; }
    if pair.clickHouse.host == "" { return Some(CkHostEmpty), pair; }
    if pair.clickHouse.port <= 0 { return Some(CkPortInvalid), pair; }
    if pair.clickHouse.database == "" { return Some(CkDatabaseEmpty), pair; }
    if pair.clickHouse.distributedDDLTaskTimeoutSeconds < 0 { return Some(CkDDLTimeoutNegative), pair; }
    if pair.clickHouse.connTimeoutSeconds < 0 || pair.clickHouse.readTimeoutSeconds < 0
      || pair.clickHouse.writeTimeoutSeconds < 0 {
      return Some(CkTimeoutNegative), pair;
    }
    var ck := CkTimeoutDefaults(pair.clickHouse);
    pair := pair.(clickHouse := ck);
    if pair.clickHouse.jdbcSocketTimeoutMs < 0 || pair.clickHouse.jdbcConnectionTimeoutMs < 0 {
      return Some(CkJDBCTimeoutNegative), pair;
    }
    ck := JdbcTimeoutDefaults(pair.clickHouse);
    pair := pair.(clickHouse := ck);
    if pair.starRocks.host == "" { return Some(SrHostEmpty), pair; }
    if pair.starRocks.port <= 0 { return Some(SrPortInvalid), pair; }
    if pair.starRocks.database == "" { return Some(SrDatabaseEmpty), pair; }
    if pair.starRocks.connTimeoutSeconds < 0 || pair.starRocks.readTimeoutSeconds < 0
      || pair.starRocks.writeTimeoutSeconds < 0 {
      return Some(SrTimeoutNegative), pair;
    }
    var sr := SrTimeoutDefaults(pair.starRocks);
    pair := pair.(starRocks := sr);
    return None, pair;
  }

  /** The defaults of LoadConfig, field by field. */
  method ApplyDefaults(decoded: Config) returns (config: Config)
    ensures config == WithDefaults(decoded)
  {
    config := decoded;
    if config.tempDir == "" { config := config.(tempDir := DefaultTempDir); }
    if config.cronExpression == "" { config := config.(cronExpression := DefaultCron); }
    var lock := ApplyLockDefaults(config.lock);
    config := config.(lock := lock);
    if config.rollbackStrategy == "" { config := config.(rollbackStrategy := StopOnError); }
    var retry := ApplyRetryDefaults(config.retry);
    config := config.(retry := retry);
    if config.ddlParseTimeoutSeconds == 0 { config := config.(ddlParseTimeoutSeconds := DefaultParseTimeout); }
  }

  method ApplyLockDefaults(l: LockConfig) returns (lock: LockConfig)
    ensures lock == LockDefaults(l)
  {
    lock := l;
    if lock.k8sNamespace == "" { lock := lock.(k8sNamespace := DefaultNamespace); }
    if lock.leaseName == "" { lock := lock.(leaseName := DefaultLeaseName); }
    if lock.identity == "" { lock := lock.(identity := Common.DefaultIdentity); }
    if lock.lockDurationSeconds == 0 { lock := lock.(lockDurationSeconds := DefaultLockDuration); }
  }

  method ApplyRetryDefaults(r: RetryConfig) returns (retry: RetryConfig)
    ensures retry == RetryDefaults(r)
  {
    retry := r;
    if retry.maxRetries == 0 { retry := retry.(maxRetries := DefaultMaxRetries); }
    if retry.delayMs == 0 { retry := retry.(delayMs := DefaultDelayMs); }
  }

  /** LoadConfig after decoding, as written: the defaults, the checks of every pair in order
      (their defaults land on the loop's copy and are dropped), the strategy, the parse timeout. */
  method LoadConfig(decoded: Config) returns (r: Result<Config, ConfigError>)
    ensures r == Load(decoded)
  {
    var config := ApplyDefaults(decoded);
    if |config.databasePairs| == 0 {
      return Err(NoDatabasePairs);
    }
    var i := 0;
    while i < |config.databasePairs|
      invariant 0 <= i <= |config.databasePairs|
      invariant config == WithDefaults(decoded)
      invariant FirstPairError(config.databasePairs, 0) == FirstPairError(config.databasePairs, i)
    {
      var err, pair := CheckPair(config.databasePairs[i]);
      if err.Some? {
        return Err(PairInvalid(config.databasePairs[i].name, err.value));
      }
      i := i + 1;
    }
    if !(config.rollbackStrategy == StopOnError || config.rollbackStrategy == ContinueOnError) {
      return Err(InvalidStrategy(config.rollbackStrategy));
    }
    if config.ddlParseTimeoutSeconds <= 0 {
      return Err(InvalidParseTimeout);
    }
    return Ok(config);
  }

  // ---------------------------------------------------------------------------
  // The pair defaults, written back

  /** Every pair with its defaults. */
  function DefaultedPairs(ps: seq<DatabasePair>): (r: seq<DatabasePair>)
    ensures |r| == |ps| && forall k :: 0 <= k < |ps| ==> r[k] == PairDefaults(ps[k])
  {
    seq(|ps|, k requires 0 <= k < |ps| => PairDefaults(ps[k]))
  }

  /** What LoadConfig evidently intends: the same checks, with each pair's defaults kept. */
  function LoadDefaultingPairs(decoded: Config): (r: Result<Config, ConfigError>)
    ensures r.Ok? <==> Load(decoded).Ok?
    ensures r.Err? ==> r == Load(decoded)
    ensures r.Ok? ==> r.value == Load(decoded).value.(databasePairs := DefaultedPairs(decoded.databasePairs))
  {
    match Load(decoded)
    case Err(e) => Err(e)
    case Ok(c) => Ok(c.(databasePairs := DefaultedPairs(c.databasePairs)))
  }

  predicate TimeoutsSet(p: DatabasePair) {
    p.clickHouse.connTimeoutSeconds > 0 && p.clickHouse.readTimeoutSeconds > 0 && p.clickHouse.writeTimeoutSeconds > 0
    && p.clickHouse.jdbcSocketTimeoutMs > 0 && p.clickHouse.jdbcConnectionTimeoutMs > 0
    && p.starRocks.connTimeoutSeconds > 0 && p.starRocks.readTimeoutSeconds > 0 && p.starRocks.writeTimeoutSeconds > 0
  }

  /** Each of the eight timeouts of `p` is the one of `given` when that one was set. */
  ghost predicate KeepsGivenTimeouts(given: DatabasePair, p: DatabasePair) {
    var gc, c := given.clickHouse, p.clickHouse;
    var gs, s := given.starRocks, p.starRocks;
    (gc.connTimeoutSeconds != 0 ==> c.connTimeoutSeconds == gc.connTimeoutSeconds)
    && (gc.readTimeoutSeconds != 0 ==> c.readTimeoutSeconds == gc.readTimeoutSeconds)
    && (gc.writeTimeoutSeconds != 0 ==> c.writeTimeoutSeconds == gc.writeTimeoutSeconds)
    && (gc.jdbcSocketTimeoutMs != 0 ==> c.jdbcSocketTimeoutMs == gc.jdbcSocketTimeoutMs)
    && (gc.jdbcConnectionTimeoutMs != 0 ==> c.jdbcConnectionTimeoutMs == gc.jdbcConnectionTimeoutMs)
    && (gs.connTimeoutSeconds != 0 ==> s.connTimeoutSeconds == gs.connTimeoutSeconds)
    && (gs.readTimeoutSeconds != 0 ==> s.readTimeoutSeconds == gs.readTimeoutSeconds)
    && (gs.writeTimeoutSeconds != 0 ==> s.writeTimeoutSeconds == gs.writeTimeoutSeconds)
  }

  /** With the defaults kept, every loaded pair has positive timeouts, and each of its eight
      timeouts that was configured keeps its value. */
  lemma DefaultedPairsHaveTimeouts(decoded: Config)
    requires LoadDefaultingPairs(decoded).Ok?
    ensures forall p :: p in LoadDefaultingPairs(decoded).value.databasePairs ==> TimeoutsSet(p)
    ensures var ps := LoadDefaultingPairs(decoded).value.databasePairs;
      |ps| == |decoded.databasePairs|
      && forall k :: 0 <= k < |ps| ==> KeepsGivenTimeouts(decoded.databasePairs[k], ps[k])
  {
    LoadOkIff(decoded);
    var ps := LoadDefaultingPairs(decoded).value.databasePairs;
    forall p | p in ps ensures TimeoutsSet(p) {
      var k :| 0 <= k < |ps| && ps[k] == p;
      assert decoded.databasePairs[k] in decoded.databasePairs;
    }
  }

  /** A document whose one pair leaves every timeout unset. */
  function ZeroTimeoutDocument(): Config {
    var ck := ClickHouseConfig("ck-host", 9000, 8123, "default", "", "ck_db", 0, 0, 0, 0, 0, 0);
    var sr := StarRocksConfig("sr-host", 9030, "root", "", "sr_db", 0, 0, 0);
    Config([DatabasePair("pair", "ck_catalog", "_local", ck, sr)], [], map[], "", "",
           LogConfig(false, "", ""), RetryConfig(0, 0), "", LockConfig(false, "", "", "", 0), "", 0)
  }

  /** As written, that document loads with its zero timeouts, so the ClickHouse DSN of the pair
      asks for a connect timeout of 0; with the defaults written back it is 30 seconds. */
  lemma LoadKeepsZeroTimeouts()
    ensures Load(ZeroTimeoutDocument()).Ok?
    ensures Load(ZeroTimeoutDocument()).value.databasePairs[0].clickHouse.connTimeoutSeconds == 0
    ensures HasSuffix(ClickHouseDSN(Load(ZeroTimeoutDocument()).value, 0), "&timeout=0")
    ensures LoadDefaultingPairs(ZeroTimeoutDocument()).value.databasePairs[0].clickHouse.connTimeoutSeconds == 30
  {
    var d := ZeroTimeoutDocument();
    assert PairError(d.databasePairs[0]).None?;
    assert FirstPairError(d.databasePairs, 1) == None;
    assert IntToString(0) == "0";
  }

  /** The pair loop with each pair's defaults written back: the first pair that fails refuses
      the list; when none fails, every pair carries its defaults. */
  method CheckPairsDefaulting(ps: seq<DatabasePair>) returns (err: Option<ConfigError>, pairs: seq<DatabasePair>)
    ensures err == FirstPairError(ps, 0)
    ensures err.None? ==> pairs == DefaultedPairs(ps)
  {
    pairs := ps;
    var i := 0;
    while i < |pairs|
      invariant 0 <= i <= |pairs| == |ps|
      invariant forall k :: 0 <= k < i ==> pairs[k] == PairDefaults(ps[k])
      invariant forall k :: i <= k < |pairs| ==> pairs[k] == ps[k]
      invariant FirstPairError(ps, 0) == FirstPairError(ps, i)
    {
      var e, pair := CheckPair(pairs[i]);
      if e.Some? {
        return Some(PairInvalid(pairs[i].name, e.value)), pairs;
      }
      pairs := pairs[i := pair];
      i := i + 1;
    }
    return None, pairs;
  }

  /** LoadConfig with the defaults of each pair written back into the list. */
  method LoadConfigDefaultingPairs(decoded: Config) returns (r: Result<Config, ConfigError>)
    ensures r == LoadDefaultingPairs(decoded)
  {
    var config := ApplyDefaults(decoded);
    if |config.databasePairs| == 0 {
      return Err(NoDatabasePairs);
    }
    var err, pairs := CheckPairsDefaulting(config.databasePairs);
    if err.Some? {
      return Err(err.value);
    }
    if !(config.rollbackStrategy == StopOnError || config.rollbackStrategy == ContinueOnError) {
      return Err(InvalidStrategy(config.rollbackStrategy));
    }
    if config.ddlParseTimeoutSeconds <= 0 {
      return Err(InvalidParseTimeout);
    }
    return Ok(config.(databasePairs := pairs));
  }

  // ---------------------------------------------------------------------------
  // Connection strings and lookups

  /** GetClickHouseDSNByIndex: "" past the end of the list, else the native-protocol DSN of that
      pair, ending with its connect timeout. */
  function ClickHouseDSN(c: Config, index: nat): (r: string)
    ensures r == "" <==> index >= |c.databasePairs|
    ensures index < |c.databasePairs| ==>
      var ck := c.databasePairs[index].clickHouse;
      HasPrefix(r, "tcp://" + ck.host + ":" + IntToString(ck.port) + "?database=" + ck.database + "&")
      && HasSuffix(r, "&timeout=" + IntToString(ck.connTimeoutSeconds))
  {
    if index >= |c.databasePairs| then ""
    else
      var ck := c.databasePairs[index].clickHouse;
      var head := "tcp://" + ck.host + ":" + IntToString(ck.port) + "?database=" + ck.database + "&";
      var mid := "username=" + ck.username + "&password=" + ck.password
        + "&read_timeout=" + IntToString(ck.readTimeoutSeconds)
        + "&write_timeout=" + IntToString(ck.writeTimeoutSeconds);
      var tail := "&timeout=" + IntToString(ck.connTimeoutSeconds);
      Framed(head, mid, tail)
  }

  /** GetStarRocksDSNByIndex: "" past the end of the list, else the MySQL-protocol DSN of that
      pair, with the three timeouts in seconds. */
  function StarRocksDSN(c: Config, index: nat): (r: string)
    ensures r == "" <==> index >= |c.databasePairs|
    ensures index < |c.databasePairs| ==>
      var sr := c.databasePairs[index].starRocks;
      HasPrefix(r, sr.username + ":" + sr.password + "@tcp(" + sr.host + ":" + IntToString(sr.port) + ")/"
                   + sr.database + "?")
      && HasSuffix(r, "&writeTimeout=" + IntToString(sr.writeTimeoutSeconds) + "s")
  {
    if index >= |c.databasePairs| then ""
    else
      var sr := c.databasePairs[index].starRocks;
      var head := sr.username + ":" + sr.password + "@tcp(" + sr.host + ":" + IntToString(sr.port) + ")/"
        + sr.database + "?";
      var mid := "timeout=" + IntToString(sr.connTimeoutSeconds) + "s&readTimeout="
        + IntToString(sr.readTimeoutSeconds) + "s";
      var tail := "&writeTimeout=" + IntToString(sr.writeTimeoutSeconds) + "s";
      Framed(head, mid, tail)
  }

  const JDBCOptions: string := "&compress=true&allow_jdbctemplate_transactions=0"

  /** GetClickHouseJDBCURIByIndex: "" past the end of the list, else the JDBC URI of that pair,
      which goes to the HTTP port, not the native one. */
  function ClickHouseJDBCURI(c: Config, index: nat): (r: string)
    ensures r == "" <==> index >= |c.databasePairs|
    ensures index < |c.databasePairs| ==>
      var ck := c.databasePairs[index].clickHouse;
      HasPrefix(r, "jdbc:clickhouse://" + ck.host + ":" + IntToString(ck.httpPort) + "/?database=" + ck.database + "&")
      && HasSuffix(r, JDBCOptions)
  {
    if index >= |c.databasePairs| then ""
    else
      var ck := c.databasePairs[index].clickHouse;
      var head := "jdbc:clickhouse://" + ck.host + ":" + IntToString(ck.httpPort) + "/?database=" + ck.database + "&";
      var mid := "autoCommit=true&socket_timeout=" + IntToString(ck.jdbcSocketTimeoutMs)
        + "&connection_timeout=" + IntToString(ck.jdbcConnectionTimeoutMs);
      Framed(head, mid, JDBCOptions)
  }

  /** Three pieces in order: the result starts with the first and ends with the last. */
  function Framed(head: string, mid: string, tail: string): (r: string)
    ensures r != "" <==> head + mid + tail != ""
    ensures HasPrefix(r, head) && HasSuffix(r, tail)
  {
    PrefixOfConcat(head, mid + tail);
    SuffixOfConcat(head + mid, tail);
    assert head + mid + tail == head + (mid + tail);
    head + mid + tail
  }

  /** GetDatabasePairByName: the first pair with that name, if any. */
  function PairByName(pairs: seq<DatabasePair>, name: string): (r: Option<DatabasePair>)
    ensures r.None? <==> forall k :: 0 <= k < |pairs| ==> pairs[k].name != name
    ensures r.Some? ==> exists k :: 0 <= k < |pairs| && r.value == pairs[k] && r.value.name == name
                                  && forall j :: 0 <= j < k ==> pairs[j].name != name
  {
    if pairs == [] then None
    else if pairs[0].name == name then Some(pairs[0])
    else
      var r := PairByName(pairs[1..], name);
      assert forall k :: 1 <= k < |pairs| ==> pairs[k] == pairs[1..][k - 1];
      r
  }
}
