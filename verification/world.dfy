/** An abstract view of one database pair as the rollback and init runs see it: the StarRocks
    tables of the pair's database with their types, the ClickHouse columns per table, the
    external catalogs, and the faults a statement or lookup may meet. Statements are a datatype
    whose SQL text is the one the rollback builders render. */
module Warehouse {
  import opened Wrappers
  import opened Text
  import opened FieldConverter
  import opened RollbackSql

  /** The statements the rollback issues. */
  datatype Stmt =
    | DropView(view: string)
    | RenameTable(from: string, to: string)
    | DropCkColumn(table: string, column: string)
    | DropCatalog(catalog: string)

  /** The SQL text of a statement, in the pair's StarRocks and ClickHouse databases. */
  function StmtSQL(srDB: string, ckDB: string, s: Stmt): (r: string)
    ensures s.DropView? ==> HasPrefix(r, "DROP VIEW IF EXISTS `")
    ensures s.DropCkColumn? ==> Contains(r, OnClusterDropIfExists)
    ensures s.RenameTable? ==> HasSuffix(r, " RENAME " + Tick(s.to))
  {
    match s
    case DropView(v) => DropViewSQL(srDB, v)
    case RenameTable(f, t) => RenameSQL(srDB, f, t)
    case DropCkColumn(t, c) => DropCKColumnSQL(ckDB, t, c)
    case DropCatalog(c) => DropCatalogSQL(c)
  }

  /** The state of a pair. `sr` maps each StarRocks table or view name to its table_type, and
      `nonNative` holds the StarRocks tables that are not native (external) tables;
      `ck` maps each ClickHouse table to its column names. The fault sets say which statements
      fail and which lookups error out (per table name, or per catalog name for the catalog
      existence check); `listingFails` makes the up-front StarRocks listings fail,
      `ckExportFails` the export of the ClickHouse tables' DDL and `ckColumnsFails` the fetch of
      every ClickHouse table's column list. */
  datatype World = World(
    sr: map<string, string>,
    nonNative: set<string>,
    ck: map<string, seq<string>>,
    catalogs: set<string>,
    failing: set<Stmt>,
    typeLookupFails: set<string>,
    columnLookupFails: set<string>,
    catalogCheckFails: set<string>,
    listingFails: bool,
    ckExportFails: bool,
    ckColumnsFails: bool)

  predicate Distinct<T(==)>(s: seq<T>) {
    forall i, j :: 0 <= i < j < |s| ==> s[i] != s[j]
  }

  /** The type a prefetched type map yields: "" for a missing key, as a Go map does. */
  function TypeOf(sr: map<string, string>, name: string): string {
    if name in sr then sr[name] else ""
  }

  /** Whether a table_type names a view. */
  predicate IsViewType(t: string) {
    ToUpper(t) == "VIEW"
  }

  /** The answer of a one-table type query: an error, no rows, or the type. */
  datatype Lookup = LookupFailed | NoRows | Found(typ: string)

  function TableType(w: World, name: string): (r: Lookup)
    ensures r.NoRows? <==> name !in w.typeLookupFails && name !in w.sr
    ensures r.Found? ==> name in w.sr && r.typ == w.sr[name]
  {
    if name in w.typeLookupFails then LookupFailed
    else if name in w.sr then Found(w.sr[name])
    else NoRows
  }

  /** The column list without any occurrence of `c`. */
  function Without(cols: seq<string>, c: string): (r: seq<string>)
    ensures forall x :: x in r <==> x in cols && x != c
  {
    if cols == [] then []
    else (if cols[0] == c then [] else [cols[0]]) + Without(cols[1..], c)
  }

  /** Two states that meet the same faults. */
  predicate SameFaults(a: World, b: World) {
    a.failing == b.failing && a.typeLookupFails == b.typeLookupFails
      && a.columnLookupFails == b.columnLookupFails && a.catalogCheckFails == b.catalogCheckFails
      && a.listingFails == b.listingFails && a.ckExportFails == b.ckExportFails
      && a.ckColumnsFails == b.ckColumnsFails
  }

  /** The columns the per-table CK query returns; a missing table has none. */
  function ColumnsOf(w: World, table: string): seq<string> {
    if table in w.ck then w.ck[table] else []
  }

  /** The effect of one statement; None when it fails. A DROP VIEW IF EXISTS removes a view and
      leaves anything else alone; a rename needs its source present and its target free; a
      DROP COLUMN IF EXISTS removes the column wherever it is. */
  function Apply(w: World, s: Stmt): (r: Option<World>)
    ensures s in w.failing ==> r.None?
    ensures r.Some? ==> SameFaults(r.value, w)
  {
    if s in w.failing then None
    else match s
      case DropView(v) =>
        Some(if v in w.sr && IsViewType(w.sr[v]) then w.(sr := w.sr - {v}) else w)
      case RenameTable(f, t) =>
        if f in w.sr && t !in w.sr then Some(w.(sr := (w.sr - {f})[t := w.sr[f]])) else None
      case DropCkColumn(t, c) =>
        Some(if t in w.ck then w.(ck := w.ck[t := Without(w.ck[t], c)]) else w)
      case DropCatalog(c) =>
        Some(w.(catalogs := w.catalogs - {c}))
  }

  /** The result of sending a batch: the state after it, the statements that reached the
      server, and whether all of them succeeded. */
  datatype Executed = Executed(world: World, sent: seq<Stmt>, ok: bool)

  /** A batch runs in order and stops at its first failing statement. */
  function ExecuteAll(w: World, ss: seq<Stmt>): (r: Executed)
    ensures r.sent <= ss
    ensures forall s :: s in r.sent ==> s in ss
    ensures r.ok ==> r.sent == ss
    ensures !r.ok ==> r.sent != []
    ensures SameFaults(r.world, w)
    decreases |ss|
  {
    if ss == [] then Executed(w, [], true)
    else
      match Apply(w, ss[0])
      case None => Executed(w, [ss[0]], false)
      case Some(w1) =>
        var rest := ExecuteAll(w1, ss[1..]);
        Executed(rest.world, [ss[0]] + rest.sent, rest.ok)
  }

  /** A batch of one statement is that statement's effect. */
  lemma ExecuteSingle(w: World, s: Stmt)
    ensures ExecuteAll(w, [s]) ==
      if Apply(w, s).Some? then Executed(Apply(w, s).value, [s], true) else Executed(w, [s], false)
  {
    assert [s][1..] == [];
  }

  /** A batch of column drops on one table leaves the StarRocks side, the catalogs and every
      other table alone, and keeps every column of the table it does not drop; when it
      succeeds it removes exactly the dropped columns. */
  lemma ExecuteColumnDrops(w: World, table: string, ss: seq<Stmt>)
    requires forall s :: s in ss ==> s.DropCkColumn? && s.table == table
    ensures var r := ExecuteAll(w, ss).world;
      r.sr == w.sr && r.nonNative == w.nonNative && r.catalogs == w.catalogs
      && forall u :: u != table ==> ColumnsOf(r, u) == ColumnsOf(w, u)
    ensures forall x :: x in ColumnsOf(w, table) && DropCkColumn(table, x) !in ss ==>
      x in ColumnsOf(ExecuteAll(w, ss).world, table)
    ensures ExecuteAll(w, ss).ok ==> forall x :: x in ColumnsOf(ExecuteAll(w, ss).world, table) ==>
      x in ColumnsOf(w, table) && DropCkColumn(table, x) !in ss
  {
    ColumnDropsFrame(w, table, ss);
    ColumnDropsKeep(w, table, ss);
    ColumnDropsOnly(w, table, ss);
  }

  /** Column drops on one table touch nothing else. */
  lemma {:induction false} ColumnDropsFrame(w: World, table: string, ss: seq<Stmt>)
    requires forall s :: s in ss ==> s.DropCkColumn? && s.table == table
    ensures var r := ExecuteAll(w, ss).world;
      r.sr == w.sr && r.nonNative == w.nonNative && r.catalogs == w.catalogs
      && forall u :: u != table ==> ColumnsOf(r, u) == ColumnsOf(w, u)
    decreases |ss|
  {
    if ss != [] {
      assert ss[0] in ss;
      assert forall s :: s in ss[1..] ==> s in ss;
      if Apply(w, ss[0]).Some? {
        var w1 := Apply(w, ss[0]).value;
        ColumnDropsFrame(w1, table, ss[1..]);
        assert ExecuteAll(w, ss).world == ExecuteAll(w1, ss[1..]).world;
      }
    }
  }

  /** Successful column drops leave only columns that were there and were not dropped. */
  lemma {:induction false} ColumnDropsOnly(w: World, table: string, ss: seq<Stmt>)
    requires forall s :: s in ss ==> s.DropCkColumn? && s.table == table
    ensures ExecuteAll(w, ss).ok ==> forall x :: x in ColumnsOf(ExecuteAll(w, ss).world, table) ==>
      x in ColumnsOf(w, table) && DropCkColumn(table, x) !in ss
    decreases |ss|
  {
    if ss != [] {
      assert ss[0] in ss;
      assert forall s :: s in ss[1..] ==> s in ss;
      if Apply(w, ss[0]).Some? {
        var w1 := Apply(w, ss[0]).value;
        assert ColumnsOf(w1, table) == Without(ColumnsOf(w, table), ss[0].column);
        ColumnDropsOnly(w1, table, ss[1..]);
        assert ExecuteAll(w, ss).world == ExecuteAll(w1, ss[1..]).world && ExecuteAll(w, ss).ok == ExecuteAll(w1, ss[1..]).ok;
        assert forall s :: s in ss ==> s == ss[0] || s in ss[1..];
      }
    }
  }

  /** Column drops keep every column of the table that they do not drop. */
  lemma {:induction false} ColumnDropsKeep(w: World, table: string, ss: seq<Stmt>)
    requires forall s :: s in ss ==> s.DropCkColumn? && s.table == table
    ensures forall x :: x in ColumnsOf(w, table) && DropCkColumn(table, x) !in ss ==>
      x in ColumnsOf(ExecuteAll(w, ss).world, table)
    decreases |ss|
  {
    if ss != [] {
      assert ss[0] in ss;
      assert forall s :: s in ss[1..] ==> s in ss;
      if Apply(w, ss[0]).Some? {
        var w1 := Apply(w, ss[0]).value;
        assert ColumnsOf(w1, table) == Without(ColumnsOf(w, table), ss[0].column);
        ColumnDropsKeep(w1, table, ss[1..]);
        assert ExecuteAll(w, ss).world == ExecuteAll(w1, ss[1..]).world;
      } else {
        assert ExecuteAll(w, ss).world == w;
      }
    }
  }

  /** A batch that succeeds met no failing statement. */
  lemma {:induction false} ExecuteOkNotFailing(w: World, ss: seq<Stmt>)
    requires ExecuteAll(w, ss).ok
    ensures forall s :: s in ss ==> s !in w.failing
    decreases |ss|
  {
    if ss != [] {
      var w1 := Apply(w, ss[0]).value;
      ExecuteOkNotFailing(w1, ss[1..]);
      assert forall s :: s in ss ==> s == ss[0] || s in ss[1..];
    }
  }

  /** A batch none of whose statements is a rename or fails succeeds. */
  lemma {:induction false} ExecuteAllSucceeds(w: World, ss: seq<Stmt>)
    requires forall s :: s in ss ==> !s.RenameTable? && s !in w.failing
    ensures ExecuteAll(w, ss).ok
    decreases |ss|
  {
    if ss != [] {
      assert ss[0] in ss;
      assert forall s :: s in ss[1..] ==> s in ss;
      ExecuteAllSucceeds(Apply(w, ss[0]).value, ss[1..]);
    }
  }

  /** The connection to a pair's databases: the state it changes and the statements it has
      sent so far. */
  class Database {
    var world: World
    var sent: seq<Stmt>

    constructor (w: World)
      ensures world == w && sent == []
    {
      world := w;
      sent := [];
    }

    /** GetStarRocksTableNames: the StarRocks tables, each once, in an unspecified order. */
    method TableNames() returns (r: Option<seq<string>>)
      ensures r.None? <==> world.listingFails
      ensures r.Some? ==> (forall n :: n in r.value <==> n in world.sr) && Distinct(r.value)
    {
      if world.listingFails {
        return None;
      }
      var names: seq<string> := [];
      var remaining := world.sr.Keys;
      while remaining != {}
        invariant remaining <= world.sr.Keys
        invariant forall n :: n in names <==> n in world.sr && n !in remaining
        invariant Distinct(names)
        decreases |remaining|
      {
        var n :| n in remaining;
        remaining := remaining - {n};
        names := names + [n];
      }
      return Some(names);
    }

    /** CheckStarRocksTableIsView: whether a table is a view, or an error. */
    method IsView(name: string) returns (r: Option<bool>)
      ensures r.None? <==> name in world.typeLookupFails
      ensures r.Some? ==> (r.value <==> name in world.sr && IsViewType(world.sr[name]))
    {
      if name in world.typeLookupFails {
        r := None;
      } else {
        r := Some(name in world.sr && IsViewType(world.sr[name]));
      }
    }

    /** CheckStarRocksTableIsNative: whether a table is a native table, or an error. */
    method IsNative(name: string) returns (r: Option<bool>)
      ensures r.None? <==> name in world.typeLookupFails
      ensures r.Some? ==> (r.value <==> name !in world.nonNative)
    {
      if name in world.typeLookupFails {
        r := None;
      } else {
        r := Some(name !in world.nonNative);
      }
    }

    /** ExportClickHouseTables: the ClickHouse tables, or an error. */
    method CkTables() returns (r: Option<set<string>>)
      ensures r.None? <==> world.ckExportFails
      ensures r.Some? ==> r.value == world.ck.Keys
    {
      if world.ckExportFails {
        r := None;
      } else {
        r := Some(world.ck.Keys);
      }
    }

    /** GetStarRocksTableType: the table_type of one name, ErrNoRows when it is absent. */
    method GetTableType(name: string) returns (r: Lookup)
      ensures r == TableType(world, name)
    {
      r := TableType(world, name);
    }

    /** GetClickHouseTableColumns: the column names of one table, or an error. */
    method GetColumns(table: string) returns (r: Option<seq<string>>)
      ensures r.None? <==> table in world.columnLookupFails
      ensures r.Some? ==> r.value == ColumnsOf(world, table)
    {
      if table in world.columnLookupFails {
        r := None;
      } else {
        r := Some(ColumnsOf(world, table));
      }
    }

    /** CheckStarRocksCatalogExists: whether a catalog exists, or an error. */
    method CatalogExists(name: string) returns (r: Option<bool>)
      ensures r.None? <==> name in world.catalogCheckFails
      ensures r.Some? ==> (r.value <==> name in world.catalogs)
    {
      if name in world.catalogCheckFails {
        r := None;
      } else {
        r := Some(name in world.catalogs);
      }
    }

    /** ExecuteRollbackSQL: the batch runs in order and stops at the first failure. */
    method Execute(ss: seq<Stmt>) returns (ok: bool)
      modifies this
      ensures world == ExecuteAll(old(world), ss).world
      ensures sent == old(sent) + ExecuteAll(old(world), ss).sent
      ensures ok == ExecuteAll(old(world), ss).ok
    {
      var r := ExecuteAll(world, ss);
      world := r.world;
      sent := sent + r.sent;
      ok := r.ok;
    }
  }
}
