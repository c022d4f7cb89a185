/** The schema file paths and the common-table listing of fileops/fileops.go. */
module FileOps {
  import opened Text

  /** A file manager rooted at the temporary directory. */
  datatype FileManager = FileManager(tempDir: string)

  /** The non-empty elements of a path, in order. */
  function NonEmpty(elems: seq<string>): (r: seq<string>)
    ensures forall k :: 0 <= k < |r| ==> r[k] != ""
  {
    if elems == [] then []
    else (if elems[0] != "" then [elems[0]] else []) + NonEmpty(elems[1..])
  }

  /** filepath.Join without the cleaning of "." and ".." elements: the non-empty elements
      joined by "/". */
  function JoinPath(elems: seq<string>): string {
    Join(NonEmpty(elems), "/")
  }

  /** A directory element followed by its separator, or nothing for an empty element. */
  function Dir(s: string): string { if s == "" then "" else s + "/" }

  /** Joining a list whose last element is not empty puts each earlier non-empty element and a
      separator in front of it. */
  lemma {:induction false} JoinPathCons(d: string, rest: seq<string>)
    requires rest != [] && rest[|rest| - 1] != ""
    ensures JoinPath([d] + rest) == Dir(d) + JoinPath(rest)
  {
    assert ([d] + rest)[1..] == rest;
    LastSurvives(rest);
    if d != "" {
      assert NonEmpty([d] + rest) == [d] + NonEmpty(rest);
      assert Join([d] + NonEmpty(rest), "/") == d + "/" + Join(NonEmpty(rest), "/");
    } else {
      assert NonEmpty([d] + rest) == NonEmpty(rest);
    }
  }

  /** The last element, when not empty, survives the filter. */
  lemma {:induction false} LastSurvives(elems: seq<string>)
    requires elems != [] && elems[|elems| - 1] != ""
    ensures NonEmpty(elems) != []
    decreases |elems|
  {
    if |elems| > 1 && elems[0] == "" {
      assert elems[1..][|elems[1..]| - 1] == elems[|elems| - 1];
      LastSurvives(elems[1..]);
    }
  }

  /** The schema file of a table for one engine: tempDir/engine/db/table.sql, with empty
      directory elements dropped. */
  function SchemaPath(fm: FileManager, engine: string, dbName: string, tableName: string): string {
    JoinPath([fm.tempDir, engine, dbName, tableName + ".sql"])
  }

  /** The path is the directories, each followed by "/", then the table's file name; the two
      engines' paths differ only in the engine element. */
  lemma SchemaPathShape(fm: FileManager, engine: string, dbName: string, tableName: string)
    requires engine != ""
    ensures SchemaPath(fm, engine, dbName, tableName) == Dir(fm.tempDir) + engine + "/" + Dir(dbName) + tableName + ".sql"
    ensures HasSuffix(SchemaPath(fm, engine, dbName, tableName), tableName + ".sql")
  {
    var f := tableName + ".sql";
    assert [fm.tempDir, engine, dbName, f] == [fm.tempDir] + [engine, dbName, f];
    assert [engine, dbName, f] == [engine] + [dbName, f];
    assert [dbName, f] == [dbName] + [f];
    assert JoinPath([f]) == f by { assert NonEmpty([f]) == [f]; }
    JoinPathCons(dbName, [f]);
    JoinPathCons(engine, [dbName, f]);
    JoinPathCons(fm.tempDir, [engine, dbName, f]);
    var r := SchemaPath(fm, engine, dbName, tableName);
    assert r == (Dir(fm.tempDir) + engine + "/" + Dir(dbName)) + f;
    SuffixOfConcat(Dir(fm.tempDir) + engine + "/" + Dir(dbName), f);
  }

  /** GetClickHouseSchemaPath */
  function ClickHouseSchemaPath(fm: FileManager, dbName: string, tableName: string): (r: string)
    ensures r == Dir(fm.tempDir) + "clickhouse/" + Dir(dbName) + tableName + ".sql"
  {
    SchemaPathShape(fm, "clickhouse", dbName, tableName);
    SchemaPath(fm, "clickhouse", dbName, tableName)
  }

  /** GetStarRocksSchemaPath */
  function StarRocksSchemaPath(fm: FileManager, dbName: string, tableName: string): (r: string)
    ensures r == Dir(fm.tempDir) + "starrocks/" + Dir(dbName) + tableName + ".sql"
  {
    SchemaPathShape(fm, "starrocks", dbName, tableName);
    SchemaPath(fm, "starrocks", dbName, tableName)
  }

  /** The two schema files of a table are distinct, share the directory prefix, and share the
      trailing database and file name. */
  lemma SchemaPathsDiffer(fm: FileManager, dbName: string, tableName: string)
    ensures ClickHouseSchemaPath(fm, dbName, tableName) != StarRocksSchemaPath(fm, dbName, tableName)
    ensures HasSuffix(ClickHouseSchemaPath(fm, dbName, tableName), "/" + Dir(dbName) + tableName + ".sql")
    ensures HasSuffix(StarRocksSchemaPath(fm, dbName, tableName), "/" + Dir(dbName) + tableName + ".sql")
  {
    var p := Dir(fm.tempDir);
    var rest := "/" + Dir(dbName) + tableName + ".sql";
    var ck := ClickHouseSchemaPath(fm, dbName, tableName);
    var sr := StarRocksSchemaPath(fm, dbName, tableName);
    assert ck == p + "clickhouse" + rest by {
      assert ck == p + "clickhouse/" + Dir(dbName) + tableName + ".sql";
    }
    assert sr == p + "starrocks" + rest by {
      assert sr == p + "starrocks/" + Dir(dbName) + tableName + ".sql";
    }
    assert ck[|p|] == 'c' && sr[|p|] == 's';
    SuffixOfConcat(p + "clickhouse", rest);
    SuffixOfConcat(p + "starrocks", rest);
  }

  /** A list without repeats has as many elements as its set. */
  lemma {:induction false} DistinctCard(s: seq<string>)
    requires forall i, j :: 0 <= i < j < |s| ==> s[i] != s[j]
    ensures |set x | x in s| == |s|
    decreases |s|
  {
    if s != [] {
      var init := s[..|s| - 1];
      DistinctCard(init);
      assert (set x | x in s) == (set x | x in init) + {s[|s| - 1]};
      assert s[|s| - 1] !in init;
    }
  }

  /** A subset is no larger than the set. */
  lemma {:induction false} SubsetCard(a: set<string>, b: set<string>)
    requires a <= b
    ensures |a| <= |b|
    decreases |a|
  {
    if a != {} {
      var x :| x in a;
      SubsetCard(a - {x}, b - {x});
    }
  }

  /** A list without repeats drawn from both key sets is no longer than either, and is empty
      when either is. */
  lemma CommonBounds(common: seq<string>, a: set<string>, b: set<string>)
    requires forall i, j :: 0 <= i < j < |common| ==> common[i] != common[j]
    requires forall x :: x in common ==> x in a && x in b
    ensures |common| <= |a| && |common| <= |b|
    ensures a == {} || b == {} ==> common == []
  {
    DistinctCard(common);
    SubsetCard((set t | t in common), a);
    SubsetCard((set t | t in common), b);
    if common != [] {
      assert common[0] in a && common[0] in b;
    }
  }

  /** ListCommonTables: every ClickHouse table that StarRocks also has, once each, in the map's
      (unspecified) iteration order. */
  method ListCommonTables(ckSchemas: map<string, string>, srSchemas: map<string, string>)
    returns (common: seq<string>)
    ensures forall t :: t in common <==> t in ckSchemas && t in srSchemas
    ensures forall i, j :: 0 <= i < j < |common| ==> common[i] != common[j]
    ensures |common| <= |ckSchemas| && |common| <= |srSchemas|
    ensures ckSchemas == map[] || srSchemas == map[] ==> common == []
  {
    common := [];
    var remaining := ckSchemas.Keys;
    while remaining != {}
      invariant remaining <= ckSchemas.Keys
      invariant forall x :: x in common <==> x in ckSchemas && x !in remaining && x in srSchemas
      invariant forall i, j :: 0 <= i < j < |common| ==> common[i] != common[j]
      decreases |remaining|
    {
      var t :| t in remaining;
      if t in srSchemas {
        common := common + [t];
      }
      remaining := remaining - {t};
    }
    CommonBounds(common, ckSchemas.Keys, srSchemas.Keys);
  }
}
