/** The rollback statement builders (builder/rollbackBuilder.go): one statement per object to
    drop or rename, and the batch builders that filter a list and render one statement per kept
    name, in order. */
module RollbackSql {
  import opened Text
  import opened Schema
  import opened FieldConverter

  /** A backquoted identifier. */
  function Tick(name: string): string {
    "`" + name + "`"
  }

  /** `db`.`name` */
  function Qualified(db: string, name: string): string {
    Tick(db) + "." + Tick(name)
  }

  /** An identifier the backquoted rendering keeps apart from its neighbours. */
  predicate Plain(name: string) {
    '`' !in name
  }

  // ---------------------------------------------------------------------------
  // Single statements

  /** RollbackBuilder.BuildDropViewSQL */
  function DropViewSQL(db: string, view: string): (r: string)
    ensures HasPrefix(r, "DROP VIEW IF EXISTS `")
  {
    PrefixOfConcat("DROP VIEW IF EXISTS `", db + "`.`" + view + "`");
    assert "DROP VIEW IF EXISTS " + Qualified(db, view) == "DROP VIEW IF EXISTS `" + (db + "`.`" + view + "`");
    "DROP VIEW IF EXISTS " + Qualified(db, view)
  }

  /** RollbackBuilder.BuildDropCatalogSQL */
  function DropCatalogSQL(catalog: string): (r: string)
    ensures HasPrefix(r, "DROP CATALOG IF EXISTS `") && HasSuffix(r, "`")
  {
    PrefixOfConcat("DROP CATALOG IF EXISTS `", catalog + "`");
    SuffixOfConcat("DROP CATALOG IF EXISTS `" + catalog, "`");
    assert "DROP CATALOG IF EXISTS " + Tick(catalog) == "DROP CATALOG IF EXISTS `" + (catalog + "`");
    "DROP CATALOG IF EXISTS " + Tick(catalog)
  }

  const OnClusterDropIfExists: string := " on cluster '{cluster}' DROP COLUMN IF EXISTS "

  /** RollbackBuilder.BuildDropCKColumnSQL: always cluster-wide and guarded by IF EXISTS. */
  function DropCKColumnSQL(db: string, table: string, column: string): (r: string)
    ensures Contains(r, OnClusterDropIfExists)
    ensures HasSuffix(r, OnClusterDropIfExists + Tick(column))
  {
    ContainsInfix("ALTER TABLE " + Qualified(db, table), OnClusterDropIfExists, Tick(column),
      "ALTER TABLE " + Qualified(db, table) + OnClusterDropIfExists + Tick(column));
    SuffixOfConcat("ALTER TABLE " + Qualified(db, table), OnClusterDropIfExists + Tick(column));
    "ALTER TABLE " + Qualified(db, table) + OnClusterDropIfExists + Tick(column)
  }

  /** An unguarded StarRocks drop: `ALTER TABLE db.table DROP <what> <name>`. */
  function DropSRSQL(db: string, table: string, what: string, name: string): (r: string)
    ensures HasSuffix(r, Qualified(db, table) + " DROP " + what + " " + Tick(name))
  {
    SuffixOfConcat("ALTER TABLE ", Qualified(db, table) + " DROP " + what + " " + Tick(name));
    "ALTER TABLE " + Qualified(db, table) + " DROP " + what + " " + Tick(name)
  }

  /** RollbackBuilder.BuildDropSRColumnSQL: the column follows DROP COLUMN directly, without
      IF EXISTS. */
  function DropSRColumnSQL(db: string, table: string, column: string): (r: string)
    ensures HasSuffix(r, Qualified(db, table) + " DROP COLUMN " + Tick(column))
  {
    DropSRSQL(db, table, "COLUMN", column)
  }

  /** RollbackBuilder.BuildDropSRIndexSQL: likewise without IF EXISTS. */
  function DropSRIndexSQL(db: string, table: string, index: string): (r: string)
    ensures HasSuffix(r, Qualified(db, table) + " DROP INDEX " + Tick(index))
  {
    DropSRSQL(db, table, "INDEX", index)
  }

  /** ALTER TABLE `db`.`from` RENAME `to` */
  function RenameSQL(db: string, from: string, to: string): (r: string)
    ensures HasSuffix(r, " RENAME " + Tick(to))
  {
    SuffixOfConcat("ALTER TABLE " + Qualified(db, from), " RENAME " + Tick(to));
    "ALTER TABLE " + Qualified(db, from) + " RENAME " + Tick(to)
  }

  /** RollbackBuilder.BuildRenameSRTableSQL: "" unless the table name ends in the suffix;
      otherwise a rename to the name with one trailing suffix removed. */
  function RenameSRTableSQL(db: string, table: string, suffix: string): (r: string)
    ensures r == "" <==> !HasSuffix(table, suffix)
    ensures HasSuffix(table, suffix) ==> r == RenameSQL(db, table, TrimSuffix(table, suffix))
  {
    if !HasSuffix(table, suffix) then "" else RenameSQL(db, table, TrimSuffix(table, suffix))
  }

  /** Renaming `base + suffix` targets `base`. */
  lemma RenameStripsSuffix(db: string, base: string, suffix: string)
    ensures RenameSRTableSQL(db, base + suffix, suffix) == RenameSQL(db, base + suffix, base)
  {
    SuffixOfConcat(base, suffix);
    var t := TrimSuffix(base + suffix, suffix);
    assert t + suffix == base + suffix;
    assert t == (t + suffix)[..|t|] == (base + suffix)[..|base|] == base;
  }

  /** An empty suffix yields a rename of the table to itself. */
  lemma RenameEmptySuffixIsSelfRename(db: string, table: string)
    ensures RenameSRTableSQL(db, table, "") == RenameSQL(db, table, table)
  {
    assert table[|table| - 0..] == "";
    assert table + "" == table;
  }

  // ---------------------------------------------------------------------------
  // The rendering is unambiguous

  /** Text that joins two plain identifiers at their first backquote splits back into them. */
  lemma SplitAtTick(a: string, x: string, b: string, y: string)
    requires Plain(a) && Plain(b) && a + "`" + x == b + "`" + y
    ensures a == b && x == y
  {
    var s := a + "`" + x;
    assert s[|a|] == '`' && s[..|a|] == a;
    IndexOfCharFirst(s, '`', |a|);
    assert s == b + "`" + y && s[|b|] == '`' && s[..|b|] == b;
    IndexOfCharFirst(s, '`', |b|);
    assert |a| == |b|;
    assert x == s[|a| + 1..] == y;
  }

  /** A statement prefix followed by a qualified name determines the database, the name and
      what follows. */
  lemma QualifiedInjective(p: string, d1: string, t1: string, rest1: string, d2: string, t2: string, rest2: string)
    requires Plain(d1) && Plain(t1) && Plain(d2) && Plain(t2)
    requires p + Qualified(d1, t1) + rest1 == p + Qualified(d2, t2) + rest2
    ensures d1 == d2 && t1 == t2 && rest1 == rest2
  {
    var s1 := p + Qualified(d1, t1) + rest1;
    var s2 := p + Qualified(d2, t2) + rest2;
    var q1 := s1[|p| + 1..];
    var q2 := s2[|p| + 1..];
    assert q1 == d1 + "`" + (".`" + t1 + "`" + rest1);
    assert q2 == d2 + "`" + (".`" + t2 + "`" + rest2);
    SplitAtTick(d1, ".`" + t1 + "`" + rest1, d2, ".`" + t2 + "`" + rest2);
    var u1 := (".`" + t1 + "`" + rest1)[2..];
    var u2 := (".`" + t2 + "`" + rest2)[2..];
    assert u1 == t1 + "`" + rest1 && u2 == t2 + "`" + rest2;
    SplitAtTick(t1, rest1, t2, rest2);
  }

  /** Distinct views get distinct DROP VIEW statements. */
  lemma DropViewInjective(d1: string, v1: string, d2: string, v2: string)
    requires Plain(d1) && Plain(v1) && Plain(d2) && Plain(v2)
    requires DropViewSQL(d1, v1) == DropViewSQL(d2, v2)
    ensures d1 == d2 && v1 == v2
  {
    assert DropViewSQL(d1, v1) == "DROP VIEW IF EXISTS " + Qualified(d1, v1) + "";
    assert DropViewSQL(d2, v2) == "DROP VIEW IF EXISTS " + Qualified(d2, v2) + "";
    QualifiedInjective("DROP VIEW IF EXISTS ", d1, v1, "", d2, v2, "");
  }

  /** The pieces of a CK column drop. */
  lemma DropCKColumnParts(d: string, t: string, c: string)
    ensures DropCKColumnSQL(d, t, c) == "ALTER TABLE " + Qualified(d, t) + (OnClusterDropIfExists + Tick(c))
  {
  }

  /** The column is the text between the backquotes after the fixed clause. */
  lemma TickedColumnInjective(c1: string, c2: string)
    requires OnClusterDropIfExists + Tick(c1) == OnClusterDropIfExists + Tick(c2)
    ensures c1 == c2
  {
    var n := |OnClusterDropIfExists|;
    assert Tick(c1) == (OnClusterDropIfExists + Tick(c1))[n..];
    assert Tick(c2) == (OnClusterDropIfExists + Tick(c2))[n..];
    assert c1 == Tick(c1)[1..|Tick(c1)| - 1];
    assert c2 == Tick(c2)[1..|Tick(c2)| - 1];
  }

  /** A CK column drop names its table and column unambiguously. */
  lemma DropCKColumnInjective(d1: string, t1: string, c1: string, d2: string, t2: string, c2: string)
    requires Plain(d1) && Plain(t1) && Plain(d2) && Plain(t2)
    requires DropCKColumnSQL(d1, t1, c1) == DropCKColumnSQL(d2, t2, c2)
    ensures d1 == d2 && t1 == t2 && c1 == c2
  {
    DropCKColumnParts(d1, t1, c1);
    DropCKColumnParts(d2, t2, c2);
    QualifiedInjective("ALTER TABLE ", d1, t1, OnClusterDropIfExists + Tick(c1), d2, t2, OnClusterDropIfExists + Tick(c2));
    TickedColumnInjective(c1, c2);
  }

  // ---------------------------------------------------------------------------
  // Batch builders

  /** The names of a field list, in order. */
  function Names(fs: seq<Field>): (r: seq<string>)
    ensures |r| == |fs| && forall i :: 0 <= i < |fs| ==> r[i] == fs[i].name
  {
    seq(|fs|, i requires 0 <= i < |fs| => fs[i].name)
  }

  /** The names that satisfy `keep`, in their original order. */
  function Keep(ns: seq<string>, keep: string -> bool): (r: seq<string>)
    ensures |r| <= |ns|
    ensures forall n :: n in r <==> n in ns && keep(n)
  {
    if ns == [] then []
    else Keep(ns[..|ns| - 1], keep) + (if keep(ns[|ns| - 1]) then [ns[|ns| - 1]] else [])
  }

  /** Keep on a list one element longer. */
  lemma KeepSnoc(ns: seq<string>, n: string, keep: string -> bool)
    ensures Keep(ns + [n], keep) == Keep(ns, keep) + (if keep(n) then [n] else [])
  {
    assert (ns + [n])[..|ns|] == ns;
  }

  /** Every name is kept when the filter accepts everything on the list. */
  lemma KeepAll(ns: seq<string>, keep: string -> bool)
    requires forall n :: n in ns ==> keep(n)
    ensures Keep(ns, keep) == ns
  {
    if ns != [] {
      KeepAll(ns[..|ns| - 1], keep);
      assert ns[|ns| - 1] in ns;
      assert ns[..|ns| - 1] + [ns[|ns| - 1]] == ns;
    }
  }

  /** RollbackColumnsBuilder.isAddedSRColumn, on the column name. */
  predicate IsAddedSRName(name: string) {
    Contains(name, "sync_from_ck") || Contains(name, "_added") || Contains(name, "_new")
  }

  /** The CK columns the batch drop targets: those carrying the converter suffix. */
  function AddedCKNames(fs: seq<Field>): seq<string> {
    Keep(Names(fs), IsAddedColumnByName)
  }

  /** The SR columns the batch drop targets. */
  function AddedSRNames(fs: seq<Field>): seq<string> {
    Keep(Names(fs), IsAddedSRName)
  }

  /** Names(fs[..i+1]) extends Names(fs[..i]) by one. */
  lemma NamesSnoc(fs: seq<Field>, i: nat)
    requires i < |fs|
    ensures Names(fs[..i + 1]) == Names(fs[..i]) + [fs[i].name]
  {
  }

  /** One CK column drop per name, in order. */
  function RenderCKDrops(db: string, table: string, ns: seq<string>): (r: seq<string>)
    ensures |r| == |ns| && forall i :: 0 <= i < |ns| ==> r[i] == DropCKColumnSQL(db, table, ns[i])
  {
    seq(|ns|, i requires 0 <= i < |ns| => DropCKColumnSQL(db, table, ns[i]))
  }

  /** One SR column drop per name, in order. */
  function RenderSRDrops(db: string, table: string, ns: seq<string>): (r: seq<string>)
    ensures |r| == |ns| && forall i :: 0 <= i < |ns| ==> r[i] == DropSRColumnSQL(db, table, ns[i])
  {
    seq(|ns|, i requires 0 <= i < |ns| => DropSRColumnSQL(db, table, ns[i]))
  }

  /** One loop step of BuildDropCKColumnsSQL. */
  lemma CKDropStep(db: string, table: string, fields: seq<Field>, i: nat)
    requires i < |fields|
    ensures RenderCKDrops(db, table, AddedCKNames(fields[..i + 1])) ==
      RenderCKDrops(db, table, AddedCKNames(fields[..i]))
        + (if IsAddedColumnByName(fields[i].name) then [DropCKColumnSQL(db, table, fields[i].name)] else [])
  {
    NamesSnoc(fields, i);
    KeepSnoc(Names(fields[..i]), fields[i].name, IsAddedColumnByName);
  }

  /** One loop step of BuildDropSRColumnsSQL. */
  lemma SRDropStep(db: string, table: string, fields: seq<Field>, i: nat)
    requires i < |fields|
    ensures RenderSRDrops(db, table, AddedSRNames(fields[..i + 1])) ==
      RenderSRDrops(db, table, AddedSRNames(fields[..i]))
        + (if IsAddedSRName(fields[i].name) then [DropSRColumnSQL(db, table, fields[i].name)] else [])
  {
    NamesSnoc(fields, i);
    KeepSnoc(Names(fields[..i]), fields[i].name, IsAddedSRName);
  }

  /** RollbackColumnsBuilder.BuildDropCKColumnsSQL: one statement per suffixed column, in
      field order. */
  method BuildDropCKColumnsSQL(db: string, table: string, fields: seq<Field>) returns (sqls: seq<string>)
    ensures sqls == RenderCKDrops(db, table, AddedCKNames(fields))
  {
    sqls := [];
    for i := 0 to |fields|
      invariant sqls == RenderCKDrops(db, table, AddedCKNames(fields[..i]))
    {
      CKDropStep(db, table, fields, i);
      if IsAddedColumnByName(fields[i].name) {
        var sql := DropCKColumnSQL(db, table, fields[i].name);
        assert |sql| >= |OnClusterDropIfExists|;
        if sql != "" {
          sqls := sqls + [sql];
        }
      }
    }
    assert fields[..|fields|] == fields;
  }

  /** RollbackColumnsBuilder.BuildDropSRColumnsSQL: one statement per column isAddedSRColumn
      accepts, in field order. */
  method BuildDropSRColumnsSQL(db: string, table: string, fields: seq<Field>) returns (sqls: seq<string>)
    ensures sqls == RenderSRDrops(db, table, AddedSRNames(fields))
  {
    sqls := [];
    for i := 0 to |fields|
      invariant sqls == RenderSRDrops(db, table, AddedSRNames(fields[..i]))
    {
      SRDropStep(db, table, fields, i);
      if IsAddedSRName(fields[i].name) {
        var sql := DropSRColumnSQL(db, table, fields[i].name);
        assert |sql| >= |" DROP COLUMN "|;
        if sql != "" {
          sqls := sqls + [sql];
        }
      }
    }
    assert fields[..|fields|] == fields;
  }

  /** The column AddSyncFromCKColumn adds on the StarRocks side is not one isAddedSRColumn
      recognises, so the SR batch drop never removes it. */
  lemma SyncFlagNotAddedSRColumn()
    ensures !IsAddedSRName("syncFromCK")
  {
    var s := "syncFromCK";
    assert '_' !in s;
    NotContainedShort(s, "sync_from_ck");
    NoUnderscoreNotContained(s, "_added");
    NoUnderscoreNotContained(s, "_new");
  }

  /** Text shorter than a pattern does not contain it. */
  lemma {:induction false} NotContainedShort(s: string, p: string)
    requires |s| < |p|
    ensures !Contains(s, p)
    decreases |s|
  {
    if |s| > 0 {
      NotContainedShort(s[1..], p);
    }
  }

  /** A pattern starting with `_` is absent from text without `_`. */
  lemma {:induction false} NoUnderscoreNotContained(s: string, p: string)
    requires '_' !in s && p != [] && p[0] == '_'
    ensures !Contains(s, p)
    decreases |s|
  {
    if |s| > 0 {
      assert s[0] in s;
      assert forall c :: c in s[1..] ==> c in s;
      NoUnderscoreNotContained(s[1..], p);
    }
  }

  /** ViewRollbackBuilder.BuildDropAllViewsSQL: one DROP VIEW per name, in order. */
  method BuildDropAllViewsSQL(db: string, views: seq<string>) returns (sqls: seq<string>)
    ensures |sqls| == |views|
    ensures forall i :: 0 <= i < |views| ==> sqls[i] == DropViewSQL(db, views[i])
  {
    sqls := [];
    for i := 0 to |views|
      invariant |sqls| == i
      invariant forall j :: 0 <= j < i ==> sqls[j] == DropViewSQL(db, views[j])
    {
      var sql := DropViewSQL(db, views[i]);
      if sql != "" {
        sqls := sqls + [sql];
      }
    }
  }

  /** The names a suffix rename applies to. */
  function Suffixed(names: seq<string>, suffix: string): seq<string> {
    Keep(names, n => HasSuffix(n, suffix))
  }

  /** TableRollbackBuilder.BuildRenameSRTablesSQL: one rename per name ending in the suffix, in
      order. */
  method BuildRenameSRTablesSQL(db: string, names: seq<string>, suffix: string) returns (sqls: seq<string>)
    ensures |sqls| == |Suffixed(names, suffix)|
    ensures forall i :: 0 <= i < |sqls| ==>
      (var n := Suffixed(names, suffix)[i]; sqls[i] == RenameSQL(db, n, TrimSuffix(n, suffix)))
  {
    sqls := [];
    for i := 0 to |names|
      invariant |sqls| == |Suffixed(names[..i], suffix)|
      invariant forall j :: 0 <= j < |sqls| ==>
        (var n := Suffixed(names[..i], suffix)[j]; sqls[j] == RenameSQL(db, n, TrimSuffix(n, suffix)))
    {
      assert names[..i + 1] == names[..i] + [names[i]];
      KeepSnoc(names[..i], names[i], n => HasSuffix(n, suffix));
      var sql := RenameSRTableSQL(db, names[i], suffix);
      if sql != "" {
        sqls := sqls + [sql];
      }
    }
    assert names[..|names|] == names;
  }
}
