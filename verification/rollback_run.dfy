/** The two-phase rollback of internal/rollbackrun/run.go: find the tables of a pair that carry
    migration state, roll each back (drop the view, strip the suffix, drop the shim columns),
    keep per-pair and global statistics, and drop every configured catalog once at the end. */
module RollbackRun {
  import opened Wrappers
  import opened Text
  import opened FieldConverter
  import opened RollbackSql
  import opened Warehouse

  /** The step a table's rollback failed at. */
  datatype Step = Precheck | DropViewStep | RenameSuffix | DropCKCols | UnknownStep

  /** A failed table. The per-pair records leave `pair` empty; the global list fills it in. */
  datatype FailureRecord = FailureRecord(pair: string, table: string, step: Step)

  datatype Stats = Stats(pairName: string, totalTables: nat, successTables: nat, failed: seq<FailureRecord>)

  /** What the rollback needs of a configured pair. */
  datatype RollbackPair = RollbackPair(name: string, srDB: string, ckDB: string, suffix: string)

  /** The strategy that keeps going after a failed table; every other value stops. */
  const ContinueOnError: string := "continue_on_error"

  // ---------------------------------------------------------------------------
  // findCommonTables

  /** The CK table has a column added by the migration. */
  predicate HasAddedColumn(ck: map<string, seq<string>>, table: string) {
    table in ck && exists c :: c in ck[table] && IsAddedColumnByName(c)
  }

  /** The rule findCommonTables applies to a CK table: the suffixed SR table exists and the
      base name is a view or not a view-typed missing name; or the SR table was not renamed,
      its base is a table, and CK already has an added column. */
  predicate IsCommon(w: World, table: string, suffix: string) {
    var suffixedExists := table + suffix in w.sr;
    var baseExists := table in w.sr;
    var baseIsView := TypeOf(w.sr, table) == "VIEW";
    (suffixedExists && baseExists && baseIsView)
    || (suffixedExists && !baseIsView)
    || (!suffixedExists && baseExists && !baseIsView && HasAddedColumn(w.ck, table))
  }

  /** The tables findCommonTables keeps: CK tables, not ignored, matching the rule. */
  function CommonSet(w: World, ignore: set<string>, suffix: string): (r: set<string>)
    ensures r <= w.ck.Keys && r !! ignore
  {
    set t | t in w.ck.Keys && t !in ignore && IsCommon(w, t, suffix)
  }

  /** The three cases collapse to: a suffixed table exists and the base is not a dangling view
      type, or only CK shows the migration. */
  lemma IsCommonCases(w: World, table: string, suffix: string)
    ensures IsCommon(w, table, suffix) <==>
      if table + suffix in w.sr then table in w.sr || TypeOf(w.sr, table) != "VIEW"
      else table in w.sr && w.sr[table] != "VIEW" && HasAddedColumn(w.ck, table)
  {
  }

  /** A common table always has something to roll back on one side. */
  lemma CommonHasState(w: World, table: string, suffix: string)
    requires IsCommon(w, table, suffix)
    ensures table + suffix in w.sr || HasAddedColumn(w.ck, table)
  {
  }

  /** The inner loop of findCommonTables: whether any column of the table is an added one. */
  method CkHasAdded(ck: map<string, seq<string>>, table: string) returns (found: bool)
    ensures found == HasAddedColumn(ck, table)
  {
    found := false;
    if table in ck {
      var cols := ck[table];
      var j := 0;
      while j < |cols|
        invariant j <= |cols|
        invariant !found
        invariant forall k :: 0 <= k < j ==> !IsAddedColumnByName(cols[k])
      {
        if IsAddedColumnByName(cols[j]) {
          found := true;
          break;
        }
        j := j + 1;
      }
    }
  }

  /** Whether one of the four up-front fetches of findCommonTables fails: the StarRocks table
      names and types, the ClickHouse DDL export, or the ClickHouse column map. */
  predicate PrefetchFails(w: World) {
    w.listingFails || w.ckExportFails || w.ckColumnsFails
  }

  /** findCommonTables: the common tables, each once, in an unspecified order (the order of a
      Go map). A failing up-front fetch is an error, reported in the order the fetches run. */
  method FindCommonTables(w: World, ignore: set<string>, suffix: string) returns (r: Result<seq<string>, string>)
    ensures r.Err? <==> PrefetchFails(w)
    ensures r.Err? ==> r.error == (if w.listingFails then "listing failed"
                                   else if w.ckExportFails then "export failed"
                                   else "columns failed")
    ensures r.Ok? ==> (forall t :: t in r.value <==> t in CommonSet(w, ignore, suffix)) && Distinct(r.value)
  {
    if w.listingFails {
      return Err("listing failed");
    }
    if w.ckExportFails {
      return Err("export failed");
    }
    if w.ckColumnsFails {
      return Err("columns failed");
    }
    var common: seq<string> := [];
    var remaining := w.ck.Keys;
    while remaining != {}
      invariant remaining <= w.ck.Keys
      invariant forall t :: t in common <==> t in CommonSet(w, ignore, suffix) && t !in remaining
      invariant Distinct(common)
      decreases |remaining|
    {
      var table :| table in remaining;
      remaining := remaining - {table};
      if table in ignore {
        continue;
      }
      var suffixed := table + suffix;
      var srSuffixedExists := suffixed in w.sr;
      var srBaseExists := table in w.sr;
      var srBaseIsView := TypeOf(w.sr, table) == "VIEW";
      var ckHasAdded := CkHasAdded(w.ck, table);
      if srSuffixedExists && srBaseExists && srBaseIsView {
        common := common + [table];
        continue;
      }
      if srSuffixedExists && !srBaseIsView {
        common := common + [table];
        continue;
      }
      if !srSuffixedExists && srBaseExists && !srBaseIsView && ckHasAdded {
        common := common + [table];
        continue;
      }
    }
    return Ok(common);
  }

  // ---------------------------------------------------------------------------
  // executeRollbackForTable

  /** The precheck: Ok(whether the suffixed table must be renamed back) or the precheck
      failure. A rename is needed when the suffixed name is a BASE TABLE; it is refused when the
      base name then exists and is not a view. */
  function Prechecked(w: World, base: string, suffix: string): (r: Result<bool, Step>)
    ensures r.Err? ==> r.error == Precheck
    ensures r == Ok(true) ==> base + suffix in w.sr && ToUpper(w.sr[base + suffix]) == "BASE TABLE"
    ensures r == Ok(true) ==> base !in w.sr || IsViewType(w.sr[base])
  {
    match TableType(w, base + suffix)
    case LookupFailed => Err(Precheck)
    case NoRows => Ok(false)
    case Found(t) =>
      if ToUpper(t) != "BASE TABLE" then Ok(false)
      else
        match TableType(w, base)
        case LookupFailed => Err(Precheck)
        case NoRows => Ok(true)
        case Found(bt) => if !IsViewType(bt) then Err(Precheck) else Ok(true)
  }

  /** One DROP COLUMN per added column, in column order. */
  function CkDrops(table: string, cols: seq<string>): (r: seq<Stmt>)
    ensures forall s :: s in r ==> s.DropCkColumn? && s.table == table && s.column in cols && IsAddedColumnByName(s.column)
    ensures forall c :: c in cols && IsAddedColumnByName(c) ==> DropCkColumn(table, c) in r
  {
    if cols == [] then []
    else
      var last := cols[|cols| - 1];
      assert forall c :: c in cols ==> c in cols[..|cols| - 1] || c == last;
      CkDrops(table, cols[..|cols| - 1]) + (if IsAddedColumnByName(last) then [DropCkColumn(table, last)] else [])
  }

  /** What rolling back one table does: the state after it, the statements sent, and the step
      that failed. */
  datatype TableRun = TableRun(world: World, sent: seq<Stmt>, failure: Option<Step>)

  /** The last step of executeRollbackForTable: read the CK columns and drop the added ones. */
  function DropAddedColumns(w: World, base: string): (r: TableRun)
    ensures r.failure.Some? ==> r.failure.value == DropCKCols
    ensures forall s :: s in r.sent ==> s.DropCkColumn? && s.table == base
    ensures SameFaults(r.world, w)
  {
    if base in w.columnLookupFails then TableRun(w, [], Some(DropCKCols))
    else
      var drops := CkDrops(base, ColumnsOf(w, base));
      var e := if |drops| > 0 then ExecuteAll(w, drops) else Executed(w, [], true);
      assert forall s :: s in e.sent ==> s in drops;
      TableRun(e.world, e.sent, if e.ok then None else Some(DropCKCols))
  }

  /** executeRollbackForTable once the precheck has passed: DROP VIEW IF EXISTS, the rename back
      when the precheck asked for it, then the column drops. */
  function RollbackChecked(w: World, p: RollbackPair, base: string, rename: bool): (r: TableRun)
    ensures r.failure.Some? ==> r.failure.value in {DropViewStep, RenameSuffix, DropCKCols}
    ensures r.sent != [] && r.sent[0] == DropView(base)
    ensures forall s :: s in r.sent && s.RenameTable? ==> rename && s == RenameTable(base + p.suffix, base)
    ensures SameFaults(r.world, w)
  {
    var e1 := ExecuteAll(w, [DropView(base)]);
    if !e1.ok then TableRun(e1.world, e1.sent, Some(DropViewStep))
    else
      var e2 := if rename then ExecuteAll(e1.world, [RenameTable(base + p.suffix, base)]) else Executed(e1.world, [], true);
      if !e2.ok then TableRun(e2.world, e1.sent + e2.sent, Some(RenameSuffix))
      else
        var d := DropAddedColumns(e2.world, base);
        TableRun(d.world, e1.sent + e2.sent + d.sent, d.failure)
  }

  /** executeRollbackForTable: precheck, then DROP VIEW IF EXISTS, then the rename back when the
      precheck asked for it, then the drop of every added CK column when there is one. Each
      failure stops the table and names its step. */
  function RollbackTable(w: World, p: RollbackPair, base: string): (r: TableRun)
    ensures r.failure.Some? ==> r.failure.value != UnknownStep
    ensures r.failure == Some(Precheck) ==> r.sent == [] && r.world == w
    ensures r.sent != [] ==> r.sent[0] == DropView(base)
    ensures Prechecked(w, base, p.suffix).Ok? ==> r.sent != []
    ensures forall s :: s in r.sent && s.RenameTable? ==>
      Prechecked(w, base, p.suffix) == Ok(true) && s == RenameTable(base + p.suffix, base)
    ensures SameFaults(r.world, w)
  {
    match Prechecked(w, base, p.suffix)
    case Err(s) => TableRun(w, [], Some(s))
    case Ok(rename) => RollbackChecked(w, p, base, rename)
  }

  /** After a successful rollback no added column is left in the CK table. */
  lemma RollbackClearsAddedColumns(w: World, p: RollbackPair, base: string)
    requires RollbackTable(w, p, base).failure.None?
    ensures forall c :: c in ColumnsOf(RollbackTable(w, p, base).world, base) ==> !IsAddedColumnByName(c)
    ensures forall c :: c in ColumnsOf(w, base) && !IsAddedColumnByName(c) ==> c in ColumnsOf(RollbackTable(w, p, base).world, base)
  {
    var rename := Prechecked(w, base, p.suffix).value;
    var e1 := ExecuteAll(w, [DropView(base)]);
    ExecuteSingle(w, DropView(base));
    var e2 := if rename then ExecuteAll(e1.world, [RenameTable(base + p.suffix, base)]) else Executed(e1.world, [], true);
    if rename {
      ExecuteSingle(e1.world, RenameTable(base + p.suffix, base));
    }
    assert e2.world.ck == w.ck;
    var drops := CkDrops(base, ColumnsOf(e2.world, base));
    if |drops| > 0 {
      ExecuteColumnDrops(e2.world, base, drops);
    }
  }

  /** After a successful rollback that renamed, the base name holds the former suffixed table
      and the suffixed name is gone. */
  lemma RollbackRestoresBaseName(w: World, p: RollbackPair, base: string)
    requires Prechecked(w, base, p.suffix) == Ok(true)
    requires RollbackTable(w, p, base).failure.None?
    ensures var r := RollbackTable(w, p, base).world;
      base in r.sr && r.sr[base] == w.sr[base + p.suffix] && base + p.suffix !in r.sr
  {
    var suffixed := base + p.suffix;
    var e1 := ExecuteAll(w, [DropView(base)]);
    ExecuteSingle(w, DropView(base));
    assert base !in e1.world.sr;
    assert suffixed in e1.world.sr && e1.world.sr[suffixed] == w.sr[suffixed];
    var e2 := ExecuteAll(e1.world, [RenameTable(suffixed, base)]);
    ExecuteSingle(e1.world, RenameTable(suffixed, base));
    var drops := CkDrops(base, ColumnsOf(e2.world, base));
    if |drops| > 0 {
      ExecuteColumnDrops(e2.world, base, drops);
    }
  }

  /** A suffixed BASE TABLE whose base name is a real table stops at the precheck, before any
      statement is sent. */
  lemma PrecheckRefusesConflict(w: World, p: RollbackPair, base: string)
    requires base + p.suffix !in w.typeLookupFails && base !in w.typeLookupFails
    requires base + p.suffix in w.sr && ToUpper(w.sr[base + p.suffix]) == "BASE TABLE"
    requires base in w.sr && !IsViewType(w.sr[base])
    ensures RollbackTable(w, p, base) == TableRun(w, [], Some(Precheck))
  {
  }

  /** The rename statement is the one the rollback builder renders for the suffixed table. */
  lemma RenameIsBuilderSQL(p: RollbackPair, base: string)
    ensures StmtSQL(p.srDB, p.ckDB, RenameTable(base + p.suffix, base)) == RenameSRTableSQL(p.srDB, base + p.suffix, p.suffix)
  {
    RenameStripsSuffix(p.srDB, base, p.suffix);
  }

  /** The loop of executeRollbackForTable that collects the DROP COLUMN statements. */
  method CollectCkDrops(table: string, cols: seq<string>) returns (drops: seq<Stmt>)
    ensures drops == CkDrops(table, cols)
  {
    drops := [];
    var i := 0;
    while i < |cols|
      invariant i <= |cols|
      invariant drops == CkDrops(table, cols[..i])
    {
      assert cols[..i + 1][..i] == cols[..i];
      if IsAddedColumnByName(cols[i]) {
        drops := drops + [DropCkColumn(table, cols[i])];
      }
      i := i + 1;
    }
    assert cols[..i] == cols;
  }

  // ---------------------------------------------------------------------------
  // ExecuteRollback

  /** The outcome of a pair's table loop so far: the state, the statements sent, the counts, and
      whether the stop strategy ended the loop. */
  datatype RunState = RunState(world: World, sent: seq<Stmt>, success: nat, failed: seq<FailureRecord>, stopped: bool)

  /** The table loop of ExecuteRollback over `tables` in order. Each table either succeeds or
      appends one failure record; under the stop strategy the first failure ends the loop. */
  function RunTables(w: World, p: RollbackPair, cont: bool, tables: seq<string>): (r: RunState)
    ensures r.success + |r.failed| <= |tables|
    ensures !r.stopped ==> r.success + |r.failed| == |tables|
    ensures cont ==> !r.stopped
    ensures !cont ==> |r.failed| <= 1 && (r.stopped <==> r.failed != [])
    ensures forall f :: f in r.failed ==> f.pair == "" && f.table in tables && f.step != UnknownStep
    ensures SameFaults(r.world, w)
    decreases |tables|
  {
    if tables == [] then RunState(w, [], 0, [], false)
    else
      var prefix := tables[..|tables| - 1];
      var last := tables[|tables| - 1];
      var prev := RunTables(w, p, cont, prefix);
      assert forall t :: t in prefix ==> t in tables;
      if prev.stopped then prev
      else
        var t := RollbackTable(prev.world, p, last);
        if t.failure.None? then
          prev.(world := t.world, sent := prev.sent + t.sent, success := prev.success + 1)
        else
          prev.(world := t.world, sent := prev.sent + t.sent,
                failed := prev.failed + [FailureRecord("", last, t.failure.value)], stopped := !cont)
  }

  /** One more table extends the loop by that table's rollback. */
  lemma RunTablesStep(w: World, p: RollbackPair, cont: bool, tables: seq<string>, i: nat)
    requires i < |tables| && !RunTables(w, p, cont, tables[..i]).stopped
    ensures var prev := RunTables(w, p, cont, tables[..i]);
      var t := RollbackTable(prev.world, p, tables[i]);
      RunTables(w, p, cont, tables[..i + 1]) ==
        if t.failure.None? then prev.(world := t.world, sent := prev.sent + t.sent, success := prev.success + 1)
        else prev.(world := t.world, sent := prev.sent + t.sent,
                   failed := prev.failed + [FailureRecord("", tables[i], t.failure.value)], stopped := !cont)
  {
    assert tables[..i + 1][..i] == tables[..i];
  }

  /** Once the stop strategy has ended the loop, later tables change nothing. */
  lemma {:induction false} StoppedStays(w: World, p: RollbackPair, cont: bool, tables: seq<string>, n: nat)
    requires n <= |tables|
    requires RunTables(w, p, cont, tables[..n]).stopped
    ensures RunTables(w, p, cont, tables) == RunTables(w, p, cont, tables[..n])
    decreases |tables| - n
  {
    if n < |tables| {
      var m := |tables| - 1;
      assert tables[..m][..n] == tables[..n];
      StoppedStays(w, p, cont, tables[..m], n);
    } else {
      assert tables[..n] == tables;
    }
  }

  /** `run` is the table loop over the first `i` tables. */
  ghost predicate RanTo(run: RunState, w: World, p: RollbackPair, cont: bool, tables: seq<string>, i: nat) {
    i <= |tables| && run == RunTables(w, p, cont, tables[..i])
  }

  /** The loop ends with the whole run once every table is done or the stop strategy ended it. */
  lemma RunFinished(run: RunState, w: World, p: RollbackPair, cont: bool, tables: seq<string>, i: nat)
    requires RanTo(run, w, p, cont, tables, i) && (i == |tables| || run.stopped)
    ensures run == RunTables(w, p, cont, tables)
  {
    if run.stopped {
      StoppedStays(w, p, cont, tables, i);
    } else {
      assert tables[..i] == tables;
    }
  }

  /** Under the continue strategy every table is counted once, as a success or as a failure. */
  lemma ContinueCountsAll(w: World, p: RollbackPair, tables: seq<string>)
    ensures var r := RunTables(w, p, true, tables); r.success + |r.failed| == |tables| && !r.stopped
  {
  }

  /** Under the stop strategy a failure ends the loop with exactly one record, after the
      successes before it. */
  lemma StopCountsAttempted(w: World, p: RollbackPair, tables: seq<string>)
    ensures var r := RunTables(w, p, false, tables);
      r.stopped ==> |r.failed| == 1 && r.success < |tables|
  {
  }

  /** A pair's result as ExecuteForAllPairs sees it: the stats, whether ExecuteRollback
      returned an error, and the state left behind. */
  datatype PairOutcome = PairOutcome(stats: Stats, err: bool, world: World)

  /** The outcome of a pair whose common tables were found in the order `common`. A failing
      up-front fetch errors out before the stats are set, so they keep their zero value and no
      statement is sent. */
  function PairRun(w: World, p: RollbackPair, cont: bool, common: seq<string>): (r: PairOutcome)
    ensures PrefetchFails(w) ==> r == PairOutcome(Stats("", 0, 0, []), true, w)
    ensures !PrefetchFails(w) ==> r.stats.pairName == p.name && r.stats.totalTables == |common|
    ensures r.stats.successTables + |r.stats.failed| <= r.stats.totalTables
    ensures !r.err ==> r.stats.successTables + |r.stats.failed| == r.stats.totalTables
    ensures cont ==> (r.err <==> PrefetchFails(w))
  {
    if PrefetchFails(w) then PairOutcome(Stats("", 0, 0, []), true, w)
    else
      var run := RunTables(w, p, cont, common);
      PairOutcome(Stats(p.name, |common|, run.success, run.failed), run.stopped, run.world)
  }

  /** The statements of executeRollbackForTable after its precheck. */
  method RollbackSteps(db: Database, p: RollbackPair, base: string, renameNeeded: bool) returns (failure: Option<Step>)
    modifies db
    ensures var r := RollbackChecked(old(db.world), p, base, renameNeeded);
      db.world == r.world && db.sent == old(db.sent) + r.sent && failure == r.failure
  {
    ghost var w0 := db.world;
    ghost var sent0 := db.sent;
    ghost var e1 := ExecuteAll(w0, [DropView(base)]);
    var ok := db.Execute([DropView(base)]);
    if !ok {
      return Some(DropViewStep);
    }
    var suffixed := base + p.suffix;
    ghost var e2 := if renameNeeded then ExecuteAll(e1.world, [RenameTable(suffixed, base)]) else Executed(e1.world, [], true);
    if renameNeeded {
      SuffixOfConcat(base, p.suffix);
      TrimSuffixOfConcat(base, p.suffix);
      var renameSQL := RenameSRTableSQL(p.srDB, suffixed, p.suffix);
      if renameSQL != "" {
        ok := db.Execute([RenameTable(suffixed, TrimSuffix(suffixed, p.suffix))]);
        if !ok {
          return Some(RenameSuffix);
        }
      }
    }
    assert db.world == e2.world && db.sent == sent0 + e1.sent + e2.sent;
    failure := DropAddedColumnsOn(db, base);
    ghost var d := DropAddedColumns(e2.world, base);
    assert RollbackChecked(w0, p, base, renameNeeded) == TableRun(d.world, e1.sent + e2.sent + d.sent, d.failure);
    AppendAssoc(sent0, e1.sent, e2.sent, d.sent);
  }

  lemma AppendAssoc3<T>(a: seq<T>, b: seq<T>, c: seq<T>)
    ensures a + b + c == a + (b + c)
  {
  }

  lemma AppendAssoc<T>(a: seq<T>, b: seq<T>, c: seq<T>, d: seq<T>)
    ensures a + b + c + d == a + (b + c + d)
  {
  }

  /** The column step of executeRollbackForTable. */
  method DropAddedColumnsOn(db: Database, base: string) returns (failure: Option<Step>)
    modifies db
    ensures var r := DropAddedColumns(old(db.world), base);
      db.world == r.world && db.sent == old(db.sent) + r.sent && failure == r.failure
  {
    var cols := db.GetColumns(base);
    if cols.None? {
      return Some(DropCKCols);
    }
    var drops := CollectCkDrops(base, cols.value);
    if |drops| > 0 {
      var ok := db.Execute(drops);
      if !ok {
        return Some(DropCKCols);
      }
    }
    return None;
  }

  /** A rollback manager for one pair: the pair's database connection, the pair, the strategy
      and the ignored tables, and the statistics of its run. */
  class RollbackManager {
    const db: Database
    const pair: RollbackPair
    const strategy: string
    const ignore: set<string>
    var stats: Stats

    constructor (db: Database, pair: RollbackPair, strategy: string, ignore: set<string>)
      ensures this.db == db && this.pair == pair && this.strategy == strategy && this.ignore == ignore
      ensures stats == Stats("", 0, 0, [])
    {
      this.db := db;
      this.pair := pair;
      this.strategy := strategy;
      this.ignore := ignore;
      stats := Stats("", 0, 0, []);
    }

    /** executeRollbackForTable: None on success, otherwise the failed step. */
    method ExecuteRollbackForTable(base: string) returns (failure: Option<Step>)
      modifies db
      ensures var r := RollbackTable(old(db.world), pair, base);
        db.world == r.world && db.sent == old(db.sent) + r.sent && failure == r.failure
    {
      var suffixed := base + pair.suffix;
      var renameNeeded := false;
      var suffixedLookup := db.GetTableType(suffixed);
      if suffixedLookup.LookupFailed? {
        return Some(Precheck);
      }
      var suffixedType := if suffixedLookup.Found? then suffixedLookup.typ else "";
      if ToUpper(suffixedType) == "BASE TABLE" {
        renameNeeded := true;
        var baseLookup := db.GetTableType(base);
        if baseLookup.LookupFailed? {
          return Some(Precheck);
        }
        if baseLookup.Found? && !IsViewType(baseLookup.typ) {
          return Some(Precheck);
        }
      }
      assert Prechecked(db.world, base, pair.suffix) == Ok(renameNeeded);
      failure := RollbackSteps(db, pair, base, renameNeeded);
    }

    /** ExecuteRollback: find the common tables, then roll back each in the found order,
        counting successes and recording failures. `err` says whether it returned an error;
        `common` is the order the tables were found in. */
    method ExecuteRollback() returns (err: bool, ghost common: seq<string>)
      modifies this, db
      ensures !PrefetchFails(old(db.world)) ==>
        (forall t :: t in common <==> t in CommonSet(old(db.world), ignore, pair.suffix)) && Distinct(common)
      ensures PrefetchFails(old(db.world)) ==>
        err && stats == old(stats) && common == [] && db.world == old(db.world) && db.sent == old(db.sent)
      ensures PairRun(old(db.world), pair, strategy == ContinueOnError, common).world == db.world
      ensures !PrefetchFails(old(db.world)) ==>
        PairRun(old(db.world), pair, strategy == ContinueOnError, common) == PairOutcome(stats, err, db.world)
      ensures !PrefetchFails(old(db.world)) ==>
        db.sent == old(db.sent) + RunTables(old(db.world), pair, strategy == ContinueOnError, common).sent
      ensures err <==> PairRun(old(db.world), pair, strategy == ContinueOnError, common).err
    {
      var found := FindCommonTables(db.world, ignore, pair.suffix);
      if found.Err? {
        return true, [];
      }
      common := found.value;
      stats := Stats(pair.name, |found.value|, 0, []);
      err := RollbackTables(found.value);
    }

    /** One pass of the table loop: the next table's rollback extends the run by it. */
    method RollbackNext(tables: seq<string>, i: nat, ghost w0: World, ghost sent0: seq<Stmt>, ghost run: RunState)
      returns (failure: Option<Step>, ghost run': RunState)
      requires i < |tables| && RanTo(run, w0, pair, strategy == ContinueOnError, tables, i)
      requires !run.stopped && db.world == run.world && db.sent == sent0 + run.sent
      modifies db
      ensures RanTo(run', w0, pair, strategy == ContinueOnError, tables, i + 1)
      ensures db.world == run'.world && db.sent == sent0 + run'.sent
      ensures failure.None? ==> run'.success == run.success + 1 && run'.failed == run.failed && !run'.stopped
      ensures failure.Some? ==> run'.success == run.success && run'.stopped == (strategy != ContinueOnError)
                                && run'.failed == run.failed + [FailureRecord("", tables[i], failure.value)]
    {
      ghost var t := RollbackTable(run.world, pair, tables[i]);
      RunTablesStep(w0, pair, strategy == ContinueOnError, tables, i);
      failure := ExecuteRollbackForTable(tables[i]);
      AppendAssoc3(sent0, run.sent, t.sent);
      run' := RunTables(w0, pair, strategy == ContinueOnError, tables[..i + 1]);
    }

    /** The table loop of ExecuteRollback, from freshly reset stats. */
    method RollbackTables(tables: seq<string>) returns (stopped: bool)
      requires stats == Stats(pair.name, |tables|, 0, [])
      modifies this, db
      ensures var r := RunTables(old(db.world), pair, strategy == ContinueOnError, tables);
        stopped == r.stopped && db.world == r.world && db.sent == old(db.sent) + r.sent
        && stats == Stats(pair.name, |tables|, r.success, r.failed)
    {
      ghost var w0 := db.world;
      ghost var sent0 := db.sent;
      ghost var run := RunTables(w0, pair, strategy == ContinueOnError, []);
      assert RanTo(run, w0, pair, strategy == ContinueOnError, tables, 0) by { assert tables[..0] == []; }
      var i := 0;
      stopped := false;
      while i < |tables| && !stopped
        invariant RanTo(run, w0, pair, strategy == ContinueOnError, tables, i)
        invariant stopped == run.stopped && db.world == run.world && db.sent == sent0 + run.sent
        invariant stats == Stats(pair.name, |tables|, run.success, run.failed)
      {
        var failure;
        failure, run := RollbackNext(tables, i, w0, sent0, run);
        if failure.Some? {
          stats := stats.(failed := stats.failed + [FailureRecord("", tables[i], failure.value)]);
          stopped := strategy != ContinueOnError;
        } else {
          stats := stats.(successTables := stats.successTables + 1);
        }
        i := i + 1;
      }
      RunFinished(run, w0, pair, strategy == ContinueOnError, tables, i);
    }
  }
}
