/** The parsed-DDL records shared by the parser, the converters and the builders (parser/comm.go). */
module Schema {

  /** One column declaration. `defaultKind`/`defaultExpr` are the DEFAULT clause the line parser extracts. */
  datatype Field = Field(
    name: string,
    typ: string,
    defaultKind: string,
    defaultExpr: string,
    isMaterialized: bool)

  /** The table-level part of a parsed CREATE TABLE statement. */
  datatype Ddl = Ddl(tableName: string, dbName: string, ttl: string)

  /** A parsed table: its DDL header and its columns in declaration order. */
  datatype Table = Table(ddl: Ddl, fields: seq<Field>)

  /** A field that carries only a name and a type, as the converters build them. */
  function NamedField(name: string, typ: string): Field {
    Field(name, typ, "", "", false)
  }

  /** The set of column names of a field list (the `names` map of the converters). */
  function NameSet(fs: seq<Field>): set<string> {
    set i | 0 <= i < |fs| :: fs[i].name
  }
}
