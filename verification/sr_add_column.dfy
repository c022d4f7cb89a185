/** The StarRocks `ALTER TABLE … ADD COLUMN` and `CREATE INDEX` statements
    (builder/srAddColumnBuilder.go): a builder collects column and index definitions in place,
    and its Build methods format them. */
module SrAddColumn {
  import opened Text

  /** A column to add. */
  datatype SRColumnDef = SRColumnDef(name: string, typ: string, defaultValue: string, comment: string)

  /** An index to create; `indexType` is "INDEX" or "UNIQUE INDEX". */
  datatype SRIndexDef = SRIndexDef(indexName: string, columnName: string, indexType: string)

  const UniqueIndex: string := "UNIQUE INDEX"

  /** The column and index AddSyncFromCKColumn adds. */
  const SyncColumnName: string := "syncFromCK"
  const SyncComment: string := "标识数据是否来自ClickHouse同步"
  const SyncColumn: SRColumnDef := SRColumnDef(SyncColumnName, "BOOLEAN", "'false'", SyncComment)
  const SyncIndex: SRIndexDef := SRIndexDef("idx_syncFromCK", SyncColumnName, "INDEX")

  // ---------------------------------------------------------------------------
  // The statements, as functions of the collected definitions

  function NamePart(c: SRColumnDef): string { "`" + c.name + "` " + c.typ }
  function DefaultPart(c: SRColumnDef): string { if c.defaultValue != "" then " DEFAULT " + c.defaultValue else "" }
  function CommentPart(c: SRColumnDef): string { if c.comment != "" then " COMMENT '" + c.comment + "'" else "" }

  /** One column definition: the quoted name and the type, then the default and the comment,
      each only when it is not empty. */
  function ColumnDef(c: SRColumnDef): string {
    NamePart(c) + DefaultPart(c) + CommentPart(c)
  }

  /** The definition text both builders write for a column, piece by piece. */
  method ColumnDefinition(col: SRColumnDef) returns (colDef: string)
    ensures colDef == ColumnDef(col)
  {
    colDef := "`" + col.name + "` " + col.typ;
    if col.defaultValue != "" {
      colDef := colDef + " DEFAULT " + col.defaultValue;
    }
    if col.comment != "" {
      colDef := colDef + " COMMENT '" + col.comment + "'";
    }
  }

  /** A column definition starts with the quoted name and type, ends with the comment when there
      is one, else with the default when there is one, and is exactly the name and type when
      neither is set; its length counts each optional part only when that part is not empty. */
  lemma ColumnDefShape(c: SRColumnDef)
    ensures HasPrefix(ColumnDef(c), "`" + c.name + "` " + c.typ)
    ensures c.comment != "" ==> HasSuffix(ColumnDef(c), " COMMENT '" + c.comment + "'")
    ensures c.comment == "" && c.defaultValue != "" ==> HasSuffix(ColumnDef(c), " DEFAULT " + c.defaultValue)
    ensures c.comment == "" && c.defaultValue == "" ==> ColumnDef(c) == "`" + c.name + "` " + c.typ
    ensures |ColumnDef(c)| == |c.name| + |c.typ| + 3 + (if c.defaultValue != "" then 9 + |c.defaultValue| else 0)
                               + (if c.comment != "" then 11 + |c.comment| else 0)
  {
    var r := ColumnDef(c);
    assert r == NamePart(c) + (DefaultPart(c) + CommentPart(c));
    PrefixOfConcat(NamePart(c), DefaultPart(c) + CommentPart(c));
    SuffixOfConcat(NamePart(c) + DefaultPart(c), CommentPart(c));
    if c.comment == "" {
      assert r == NamePart(c) + DefaultPart(c);
      SuffixOfConcat(NamePart(c), DefaultPart(c));
    }
  }

  /** `f` applied to each element, in order. */
  function Each<A>(f: A -> string, xs: seq<A>): (r: seq<string>)
    ensures |r| == |xs| && forall k :: 0 <= k < |xs| ==> r[k] == f(xs[k])
  {
    if xs == [] then [] else Each(f, xs[..|xs| - 1]) + [f(xs[|xs| - 1])]
  }

  /** One more element adds its own image at the end. */
  lemma EachSnoc<A>(f: A -> string, xs: seq<A>, i: nat)
    requires i < |xs|
    ensures Each(f, xs[..i + 1]) == Each(f, xs[..i]) + [f(xs[i])]
  {
    assert xs[..i + 1][..i] == xs[..i];
  }

  /** The definitions of the columns, in order. */
  function ColumnDefs(cols: seq<SRColumnDef>): (r: seq<string>)
    ensures |r| == |cols| && forall k :: 0 <= k < |cols| ==> r[k] == ColumnDef(cols[k])
  {
    Each(ColumnDef, cols)
  }

  function AlterHead(db: string, table: string): string {
    "ALTER TABLE `" + db + "`.`" + table + "` ADD COLUMN ("
  }

  /** What Build returns: nothing without columns, else one ALTER TABLE adding all of them in
      parentheses, separated by ", ". */
  function AlterStatement(db: string, table: string, cols: seq<SRColumnDef>): (r: string)
    ensures r == "" <==> cols == []
    ensures cols != [] ==> HasPrefix(r, AlterHead(db, table)) && HasSuffix(r, ")")
  {
    if cols == [] then ""
    else
      var body := Join(ColumnDefs(cols), ", ");
      var r := AlterHead(db, table) + body + ")";
      assert r == AlterHead(db, table) + (body + ")");
      PrefixOfConcat(AlterHead(db, table), body + ")");
      SuffixOfConcat(AlterHead(db, table) + body, ")");
      r
  }

  /** One CREATE INDEX statement; UNIQUE only for the type "UNIQUE INDEX". */
  function IndexStatement(db: string, table: string, idx: SRIndexDef): (r: string)
    ensures idx.indexType == UniqueIndex ==> HasPrefix(r, "CREATE UNIQUE INDEX `" + idx.indexName + "` ON ")
    ensures idx.indexType != UniqueIndex ==> HasPrefix(r, "CREATE INDEX `" + idx.indexName + "` ON ")
    ensures HasPrefix(r, "CREATE UNIQUE ") <==> idx.indexType == UniqueIndex
    ensures HasSuffix(r, "`" + db + "`.`" + table + "` (`" + idx.columnName + "`)")
  {
    var kind := if idx.indexType == UniqueIndex then "CREATE UNIQUE INDEX `" else "CREATE INDEX `";
    var head := kind + idx.indexName + "` ON ";
    var tail := "`" + db + "`.`" + table + "` (`" + idx.columnName + "`)";
    var r := head + tail;
    assert r == kind + (idx.indexName + "` ON " + tail);
    PrefixOfConcat(head, tail);
    SuffixOfConcat(head, tail);
    assert r[7] == kind[7];
    r
  }

  /** The statement BuildIndexes writes for one index. */
  method IndexDefinition(db: string, table: string, idx: SRIndexDef) returns (sql: string)
    ensures sql == IndexStatement(db, table, idx)
  {
    if idx.indexType == UniqueIndex {
      sql := "CREATE UNIQUE INDEX `" + idx.indexName + "` ON `" + db + "`.`" + table
        + "` (`" + idx.columnName + "`)";
    } else {
      sql := "CREATE INDEX `" + idx.indexName + "` ON `" + db + "`.`" + table
        + "` (`" + idx.columnName + "`)";
    }
  }

  /** What BuildIndexes returns: one statement per index, in order (none without indexes). */
  function IndexStatements(db: string, table: string, idxs: seq<SRIndexDef>): (r: seq<string>)
    ensures |r| == |idxs| && forall k :: 0 <= k < |idxs| ==> r[k] == IndexStatement(db, table, idxs[k])
  {
    Each((idx: SRIndexDef) => IndexStatement(db, table, idx), idxs)
  }

  /** The conditional statement for one column. The table is not quoted here. */
  function IfNotExistsStatement(db: string, table: string, c: SRColumnDef): string {
    "ALTER TABLE " + db + "." + table + " ADD COLUMN IF NOT EXISTS " + ColumnDef(c)
  }

  /** The conditional statement adds the column to the table by its unquoted name, and ends
      with the column's definition. */
  lemma IfNotExistsStatementShape(db: string, table: string, c: SRColumnDef)
    ensures HasPrefix(IfNotExistsStatement(db, table, c), "ALTER TABLE " + db + "." + table + " ADD COLUMN IF NOT EXISTS ")
    ensures HasSuffix(IfNotExistsStatement(db, table, c), ColumnDef(c))
  {
    var head := "ALTER TABLE " + db + "." + table + " ADD COLUMN IF NOT EXISTS ";
    PrefixOfConcat(head, ColumnDef(c));
    SuffixOfConcat(head, ColumnDef(c));
  }

  /** The statement BuildIfNotExists writes for one column. */
  method ConditionalAdd(db: string, table: string, col: SRColumnDef) returns (statement: string)
    ensures statement == IfNotExistsStatement(db, table, col)
  {
    var colDef := ColumnDefinition(col);
    statement := "ALTER TABLE " + db + "." + table + " ADD COLUMN IF NOT EXISTS " + colDef;
  }

  function IfNotExistsStatements(db: string, table: string, cols: seq<SRColumnDef>): (r: seq<string>)
    ensures |r| == |cols| && forall k :: 0 <= k < |cols| ==> r[k] == IfNotExistsStatement(db, table, cols[k])
  {
    Each((c: SRColumnDef) => IfNotExistsStatement(db, table, c), cols)
  }

  /** One more column adds its own statement at the end. */
  lemma IfNotExistsStatementsSnoc(db: string, table: string, cols: seq<SRColumnDef>, i: nat)
    requires i < |cols|
    ensures IfNotExistsStatements(db, table, cols[..i + 1])
         == IfNotExistsStatements(db, table, cols[..i]) + [IfNotExistsStatement(db, table, cols[i])]
  {
    EachSnoc((c: SRColumnDef) => IfNotExistsStatement(db, table, c), cols, i);
  }

  /** One more column adds its own definition at the end. */
  lemma ColumnDefsSnoc(cols: seq<SRColumnDef>, i: nat)
    requires i < |cols|
    ensures ColumnDefs(cols[..i + 1]) == ColumnDefs(cols[..i]) + [ColumnDef(cols[i])]
  {
    EachSnoc(ColumnDef, cols, i);
  }

  /** One more index adds its own statement at the end. */
  lemma IndexStatementsSnoc(db: string, table: string, idxs: seq<SRIndexDef>, i: nat)
    requires i < |idxs|
    ensures IndexStatements(db, table, idxs[..i + 1])
         == IndexStatements(db, table, idxs[..i]) + [IndexStatement(db, table, idxs[i])]
  {
    EachSnoc((idx: SRIndexDef) => IndexStatement(db, table, idx), idxs, i);
  }

  /** What BuildIfNotExists returns: the per-column statements joined by ";\n". */
  function IfNotExistsScript(db: string, table: string, cols: seq<SRColumnDef>): (r: string)
    ensures r == "" <==> cols == []
    ensures |cols| == 1 ==> r == IfNotExistsStatement(db, table, cols[0])
  {
    var ss := IfNotExistsStatements(db, table, cols);
    assert cols != [] ==> HasPrefix(Join(ss, ";\n"), ss[0]) by {
      if cols != [] {
        JoinHead(ss, ";\n");
      }
    }
    Join(ss, ";\n")
  }

  /** A join of a non-empty list starts with its first element. */
  lemma JoinHead(parts: seq<string>, sep: string)
    requires parts != []
    ensures HasPrefix(Join(parts, sep), parts[0])
  {
    if |parts| > 1 {
      PrefixOfConcat(parts[0], sep + Join(parts[1..], sep));
      assert Join(parts, sep) == parts[0] + (sep + Join(parts[1..], sep));
    }
  }

  // ---------------------------------------------------------------------------
  // Properties relating the statements to the builder's operations

  /** Adding one more column to a builder that has some widens the single ALTER by ", " and
      the new definition inside the parentheses. */
  lemma AddColumnExtendsAlter(db: string, table: string, cols: seq<SRColumnDef>, c: SRColumnDef)
    requires cols != []
    ensures AlterStatement(db, table, cols + [c])
         == AlterHead(db, table) + (Join(ColumnDefs(cols), ", ") + ", " + ColumnDef(c)) + ")"
  {
    assert ColumnDefs(cols + [c]) == ColumnDefs(cols) + [ColumnDef(c)];
    JoinSnoc(ColumnDefs(cols), ColumnDef(c), ", ");
  }

  /** Adding one more column appends exactly one conditional statement after ";\n". */
  lemma AddColumnExtendsScript(db: string, table: string, cols: seq<SRColumnDef>, c: SRColumnDef)
    requires cols != []
    ensures IfNotExistsScript(db, table, cols + [c])
         == IfNotExistsScript(db, table, cols) + ";\n" + IfNotExistsStatement(db, table, c)
  {
    assert IfNotExistsStatements(db, table, cols + [c])
        == IfNotExistsStatements(db, table, cols) + [IfNotExistsStatement(db, table, c)];
    JoinSnoc(IfNotExistsStatements(db, table, cols), IfNotExistsStatement(db, table, c), ";\n");
  }

  /** The ALTER a builder given only AddSyncFromCKColumn produces adds the boolean column with
      its default and comment. */
  lemma SyncColumnStatement(db: string, table: string)
    ensures AlterStatement(db, table, [SyncColumn]) == AlterHead(db, table) + ColumnDef(SyncColumn) + ")"
    ensures ColumnDef(SyncColumn) == "`syncFromCK` BOOLEAN" + " DEFAULT 'false'" + (" COMMENT '" + SyncComment + "'")
  {
    assert AlterStatement(db, table, [SyncColumn]) == AlterHead(db, table) + ColumnDef(SyncColumn) + ")" by {
      assert ColumnDefs([SyncColumn]) == [ColumnDef(SyncColumn)];
    }
    SyncColumnHead();
  }

  /** The name and type, and the default, of the sync column, as text. */
  lemma SyncColumnHead()
    ensures NamePart(SyncColumn) == "`syncFromCK` BOOLEAN"
    ensures DefaultPart(SyncColumn) == " DEFAULT 'false'"
  {
    assert NamePart(SyncColumn) == "`syncFromCK` BOOLEAN" by {
      assert NamePart(SyncColumn) == "`" + "syncFromCK" + "` " + "BOOLEAN";
    }
  }

  /** The index statement of that builder is one plain index on the column. */
  lemma SyncIndexStatement(db: string, table: string)
    ensures |IndexStatements(db, table, [SyncIndex])| == 1
    ensures var s := IndexStatements(db, table, [SyncIndex])[0];
      && HasPrefix(s, "CREATE INDEX `" + "idx_syncFromCK" + "` ON ")
      && !HasPrefix(s, "CREATE UNIQUE ")
      && HasSuffix(s, "`" + db + "`.`" + table + "` (`" + "syncFromCK" + "`)")
  {
    var s := IndexStatements(db, table, [SyncIndex])[0];
    assert s == IndexStatement(db, table, SyncIndex);
    assert SyncIndex.indexType != UniqueIndex;
  }

  // ---------------------------------------------------------------------------
  // The builder

  class SRAddColumnBuilder {
    const database: string
    const tableName: string
    var columns: seq<SRColumnDef>
    var indexes: seq<SRIndexDef>

    /** NewSRAddColumnBuilder: an empty builder for one table. */
    constructor (database: string, tableName: string)
      ensures this.database == database && this.tableName == tableName
      ensures columns == [] && indexes == []
    {
      this.database := database;
      this.tableName := tableName;
      columns := [];
      indexes := [];
    }

    /** AddColumn: appends one column and returns the receiver. */
    method AddColumn(name: string, dataType: string, defaultValue: string, comment: string)
      returns (r: SRAddColumnBuilder)
      modifies this
      ensures r == this
      ensures columns == old(columns) + [SRColumnDef(name, dataType, defaultValue, comment)]
      ensures indexes == old(indexes)
    {
      columns := columns + [SRColumnDef(name, dataType, defaultValue, comment)];
      return this;
    }

    /** AddIndex: appends one index and returns the receiver. */
    method AddIndex(indexName: string, columnName: string, indexType: string) returns (r: SRAddColumnBuilder)
      modifies this
      ensures r == this
      ensures indexes == old(indexes) + [SRIndexDef(indexName, columnName, indexType)]
      ensures columns == old(columns)
    {
      indexes := indexes + [SRIndexDef(indexName, columnName, indexType)];
      return this;
    }

    /** AddSyncFromCKColumn: the syncFromCK column and a plain index on it. */
    method AddSyncFromCKColumn() returns (r: SRAddColumnBuilder)
      modifies this
      ensures r == this
      ensures columns == old(columns) + [SyncColumn]
      ensures indexes == old(indexes) + [SyncIndex]
    {
      var _ := AddColumn(SyncColumnName, "BOOLEAN", "'false'", SyncComment);
      var _ := AddIndex("idx_syncFromCK", SyncColumnName, "INDEX");
      return this;
    }

    /** Build: formats each column in a loop and joins the definitions. */
    method Build() returns (r: string)
      ensures r == AlterStatement(database, tableName, columns)
    {
      if |columns| == 0 {
        return "";
      }
      var defs: seq<string> := [];
      var i := 0;
      while i < |columns|
        invariant 0 <= i <= |columns|
        invariant defs == ColumnDefs(columns[..i])
      {
        var col := columns[i];
        var colDef := ColumnDefinition(col);
        ColumnDefsSnoc(columns, i);
        defs := defs + [colDef];
        i := i + 1;
      }
      assert columns[..i] == columns;
      return AlterHead(database, tableName) + Join(defs, ", ") + ")";
    }

    /** BuildIndexes: one statement per index, in order. */
    method BuildIndexes() returns (r: seq<string>)
      ensures r == IndexStatements(database, tableName, indexes)
    {
      if |indexes| == 0 {
        return [];
      }
      r := [];
      var i := 0;
      while i < |indexes|
        invariant 0 <= i <= |indexes|
        invariant r == IndexStatements(database, tableName, indexes[..i])
      {
        var sql := IndexDefinition(database, tableName, indexes[i]);
        IndexStatementsSnoc(database, tableName, indexes, i);
        r := r + [sql];
        i := i + 1;
      }
      assert indexes[..i] == indexes;
    }

    /** BuildWithIndexes: the ALTER when there is one, then every index statement. */
    method BuildWithIndexes() returns (r: seq<string>)
      ensures r == (if columns == [] then [] else [AlterStatement(database, tableName, columns)])
                   + IndexStatements(database, tableName, indexes)
      ensures |r| == |indexes| + (if columns == [] then 0 else 1)
    {
      r := [];
      var columnSQL := Build();
      if columnSQL != "" {
        r := r + [columnSQL];
      }
      var indexSQLs := BuildIndexes();
      r := r + indexSQLs;
    }

    /** BuildIfNotExists: one conditional statement per column, joined by ";\n". */
    method BuildIfNotExists() returns (r: string)
      ensures r == IfNotExistsScript(database, tableName, columns)
    {
      if |columns| == 0 {
        return "";
      }
      var statements: seq<string> := [];
      var i := 0;
      while i < |columns|
        invariant 0 <= i <= |columns|
        invariant statements == IfNotExistsStatements(database, tableName, columns[..i])
      {
        var statement := ConditionalAdd(database, tableName, columns[i]);
        IfNotExistsStatementsSnoc(database, tableName, columns, i);
        statements := statements + [statement];
        i := i + 1;
      }
      assert columns[..i] == columns;
      return Join(statements, ";\n");
    }
  }
}
