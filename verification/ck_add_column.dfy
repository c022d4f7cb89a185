/** The ClickHouse `ALTER TABLE … ADD COLUMN IF NOT EXISTS … ALIAS …` statement that creates
    the shim columns (builder/ckAddColumnBuilder.go). */
module CkAddColumn {
  import opened Wrappers
  import opened Text
  import opened Schema
  import opened FieldConverter

  /** The separator every array alias joins its elements with. */
  const JoinSeparator: string := "'CKTOSRFRAGEMENT'"

  /** The five shapes of shim, in the priority order `Build` tests them. */
  datatype ShimKind = ArrayIPv6Shim | StringArrayShim | OtherArrayShim | IPv6Shim | IPv4Shim

  /** The dispatch of `CKAddColumnBuilder.Build` on the origin type. */
  function KindOf(t: string): (r: Option<ShimKind>)
    ensures r.None? <==> !NeedsShim(t)
    ensures r == Some(ArrayIPv6Shim) <==> IsArrayIPV6(t)
    ensures r == Some(StringArrayShim) <==> IsStringArray(t)
    ensures r == Some(OtherArrayShim) <==> IsArray(t) && !IsArrayIPV6(t) && !IsStringArray(t)
    ensures r == Some(IPv6Shim) <==> IsIPV6(t)
    ensures r == Some(IPv4Shim) <==> IsIPV4(t)
  {
    TypePredicatesConsistent(t);
    if IsArrayIPV6(t) then
      assert !IsStringArray(t) by { assert ToLower(t)[6] != "array(string)"[6]; }
      Some(ArrayIPv6Shim)
    else if IsStringArray(t) then Some(StringArrayShim)
    else if IsArray(t) then Some(OtherArrayShim)
    else if IsIPV6(t) then Some(IPv6Shim)
    else if IsIPV4(t) then Some(IPv4Shim)
    else None
  }

  /** The column type a shim of each kind is declared with. */
  function AliasType(k: ShimKind): string {
    match k
    case IPv6Shim => TypeUInt128
    case IPv4Shim => TypeUInt32
    case _ => TypeString
  }

  /** The declaration `<name> <type> ALIAS <expr>` the three alias helpers format, each with
      its own type. */
  function AliasDecl(name: string, typ: string, remain: string): string {
    name + " " + typ + " ALIAS " + remain
  }

  function StringAlias(name: string, remain: string): string { AliasDecl(name, TypeString, remain) }
  function UInt32Alias(name: string, remain: string): string { AliasDecl(name, TypeUInt32, remain) }
  function UInt128Alias(name: string, remain: string): string { AliasDecl(name, TypeUInt128, remain) }

  /** The offset the IPv6 aliases apply: 2^127 as a UInt128. */
  const Offset: string := "toUInt128('170141183460469231731687303715884105728')"
  const ReinterpretOpen: string := "reinterpretAsUInt128(reverse(reinterpretAsFixedString("

  function AliasMapStringConcat(arrayName: string): string {
    "arrayStringConcat(arrayMap(x -> toString(x), " + arrayName + "), " + JoinSeparator + ")"
  }

  function AliasStringConcat(arrayName: string): string {
    "arrayStringConcat(" + arrayName + ", " + JoinSeparator + ")"
  }

  function AliasToUInt32(name: string): string {
    "toUInt32(" + name + ")"
  }

  function AliasReinterpretAsUInt128(name: string): string {
    ReinterpretOpen + name + "))) - - " + Offset
  }

  function AliasArrayIPV6StringConcat(arrayName: string): string {
    "arrayStringConcat(arrayMap(x -> " + ReinterpretOpen + "x))) - " + Offset + ", "
      + arrayName + "), " + JoinSeparator + ")"
  }

  function AddColumn(s: string): string { "ADD COLUMN IF NOT EXISTS " + s }

  /** The alias expression over the origin column for each kind. */
  function Transform(k: ShimKind, origin: string): string {
    match k
    case ArrayIPv6Shim => AliasArrayIPV6StringConcat(origin)
    case StringArrayShim => AliasStringConcat(origin)
    case OtherArrayShim => AliasMapStringConcat(origin)
    case IPv6Shim => AliasReinterpretAsUInt128(origin)
    case IPv4Shim => AliasToUInt32(origin)
  }

  /** buildAddLine with the alias and transform the kind selects. */
  function BuildAddLine(k: ShimKind, shim: string, origin: string): string {
    var expr := Transform(k, origin);
    var alias := match k
      case IPv6Shim => UInt128Alias(shim, expr)
      case IPv4Shim => UInt32Alias(shim, expr)
      case _ => StringAlias(shim, expr);
    AddColumn(alias)
  }

  /** CKAddColumnBuilder.Build: one ADD COLUMN clause for a shim, "" otherwise; the clause
      declares the shim under the converter's name with the kind's type, as an alias over the
      origin column. */
  function BuildLine(c: Converter): (r: string)
    ensures r == "" <==> c.origin.None? || !NeedsShim(c.origin.value.typ)
    ensures r != "" ==>
      r == AddColumn(AliasDecl(c.field.name, AliasType(KindOf(c.origin.value.typ).value),
                               Transform(KindOf(c.origin.value.typ).value, c.origin.value.name)))
  {
    if c.origin.None? then ""
    else match KindOf(c.origin.value.typ)
      case None => ""
      case Some(k) => BuildAddLine(k, c.field.name, c.origin.value.name)
  }

  /** The clause for a converter that NewFieldConverter produced adds the shim column under
      its own name with exactly the type the converter gave it: the DDL and the converter agree. */
  lemma BuildLineMatchesConverter(f: Field, names: set<string>)
    requires NewFieldConverter(f, names).Ok?
    ensures var c := NewFieldConverter(f, names).value;
      c.origin.Some? ==>
        BuildLine(c) == AddColumn(AliasDecl(f.name + NameSuffix, c.field.typ,
                                            Transform(KindOf(c.origin.value.typ).value, f.name)))
    ensures var c := NewFieldConverter(f, names).value;
      c.origin.None? ==> BuildLine(c) == ""
  {
    var c := NewFieldConverter(f, names).value;
    if c.origin.Some? {
      var t := c.origin.value.typ;
      TypePredicatesConsistent(t);
    }
  }

  /** Every array alias joins with the separator the view side splits on. */
  lemma ArrayAliasesJoinWithSeparator(k: ShimKind, origin: string)
    requires k == ArrayIPv6Shim || k == StringArrayShim || k == OtherArrayShim
    ensures Contains(Transform(k, origin), JoinSeparator)
  {
    var s := Transform(k, origin);
    match k
    case ArrayIPv6Shim =>
      ContainsInfix("arrayStringConcat(arrayMap(x -> " + ReinterpretOpen + "x))) - " + Offset + ", "
        + origin + "), ", JoinSeparator, ")", s);
    case StringArrayShim =>
      ContainsInfix("arrayStringConcat(" + origin + ", ", JoinSeparator, ")", s);
    case OtherArrayShim =>
      ContainsInfix("arrayStringConcat(arrayMap(x -> toString(x), " + origin + "), ", JoinSeparator, ")", s);
  }

  /** The IPv4 alias is exactly `toUInt32(<origin>)`; the scalar IPv6 alias applies the offset
      after a double minus, the Array(IPv6) element alias after a single one. */
  lemma ScalarAliases(origin: string)
    ensures Transform(IPv4Shim, origin) == "toUInt32(" + origin + ")"
    ensures Contains(Transform(IPv6Shim, origin), "))) - - " + Offset)
    ensures Contains(Transform(ArrayIPv6Shim, origin), "x))) - " + Offset)
  {
    IPv6TransformParts(origin);
    ContainsInfix(ReinterpretOpen + origin, "))) - - " + Offset, "", Transform(IPv6Shim, origin));
    ArrayIPv6TransformParts(origin);
    ContainsInfix("arrayStringConcat(arrayMap(x -> " + ReinterpretOpen, "x))) - " + Offset,
                  ", " + origin + "), " + JoinSeparator + ")", Transform(ArrayIPv6Shim, origin));
  }

  /** The IPv6 shim around its offset. */
  lemma IPv6TransformParts(origin: string)
    ensures Transform(IPv6Shim, origin) == (ReinterpretOpen + origin) + ("))) - - " + Offset) + ""
  {
  }

  /** The Array(IPv6) shim around its offset. */
  lemma ArrayIPv6TransformParts(origin: string)
    ensures Transform(ArrayIPv6Shim, origin)
      == ("arrayStringConcat(arrayMap(x -> " + ReinterpretOpen) + ("x))) - " + Offset) + (", " + origin + "), " + JoinSeparator + ")")
  {
  }

  // ---------------------------------------------------------------------------
  // CKAddColumnsBuilder

  /** The statement builder for one table: the shimmed converters and the table. */
  datatype AddColumnsBuilder = AddColumnsBuilder(builders: seq<Converter>, dbName: string, tableName: string)

  /** The converters with an origin column, in order. */
  function Shimmed(cs: seq<Converter>): (r: seq<Converter>)
    ensures |r| <= |cs|
    ensures forall k :: 0 <= k < |r| ==> r[k].origin.Some? && r[k] in cs
    ensures forall c :: c in cs && c.origin.Some? ==> c in r
  {
    if cs == [] then []
    else
      var last := cs[|cs| - 1];
      var init := Shimmed(cs[..|cs| - 1]);
      assert forall c :: c in cs ==> c in cs[..|cs| - 1] || c == last;
      init + (if last.origin.Some? then [last] else [])
  }

  /** NewCKAddColumnsBuilder: keeps the converters with an origin column, in input order. */
  method NewCKAddColumnsBuilder(cs: seq<Converter>, dbName: string, tableName: string)
    returns (b: AddColumnsBuilder)
    ensures b == AddColumnsBuilder(Shimmed(cs), dbName, tableName)
  {
    var builders: seq<Converter> := [];
    var i := 0;
    while i < |cs|
      invariant 0 <= i <= |cs|
      invariant builders == Shimmed(cs[..i])
    {
      assert cs[..i + 1][..i] == cs[..i];
      if cs[i].origin.Some? {
        builders := builders + [cs[i]];
      }
      i := i + 1;
    }
    assert cs[..i] == cs;
    return AddColumnsBuilder(builders, dbName, tableName);
  }

  /** The non-empty per-field clauses, in order. */
  function ValidLines(bs: seq<Converter>): (r: seq<string>)
    ensures |r| <= |bs|
  {
    if bs == [] then []
    else
      var line := BuildLine(bs[|bs| - 1]);
      ValidLines(bs[..|bs| - 1]) + (if line != "" then [line] else [])
  }

  /** Every collected clause is an `ADD COLUMN IF NOT EXISTS` clause, and there is one per
      converter whose origin type needs a shim. */
  lemma {:induction false} ValidLinesShape(bs: seq<Converter>)
    ensures forall k :: 0 <= k < |ValidLines(bs)| ==> HasPrefix(ValidLines(bs)[k], "ADD COLUMN IF NOT EXISTS ")
    ensures |ValidLines(bs)| == CountShims(bs)
    decreases |bs|
  {
    if bs != [] {
      ValidLinesShape(bs[..|bs| - 1]);
      var line := BuildLine(bs[|bs| - 1]);
      if line != "" {
        PrefixOfConcat("ADD COLUMN IF NOT EXISTS ", line[25..]);
        assert line == "ADD COLUMN IF NOT EXISTS " + line[25..];
      }
    }
  }

  /** The number of converters with an origin column whose type needs a shim. */
  function CountShims(bs: seq<Converter>): nat {
    if bs == [] then 0
    else
      var c := bs[|bs| - 1];
      CountShims(bs[..|bs| - 1]) + (if c.origin.Some? && NeedsShim(c.origin.value.typ) then 1 else 0)
  }

  function Header(dbName: string, tableName: string): string {
    "ALTER TABLE " + dbName + "." + tableName + " on cluster '{cluster}'\n"
  }

  /** The statement CKAddColumnsBuilder.Build returns. */
  function Statement(b: AddColumnsBuilder): string {
    var lines := ValidLines(b.builders);
    if lines == [] then "" else Header(b.dbName, b.tableName) + Join(lines, ",\n") + ";"
  }

  /** The collecting loop of CKAddColumnsBuilder.Build: the non-empty clauses, in order. */
  method CollectLines(bs: seq<Converter>) returns (validFields: seq<string>)
    ensures validFields == ValidLines(bs)
  {
    validFields := [];
    var i := 0;
    while i < |bs|
      invariant 0 <= i <= |bs|
      invariant validFields == ValidLines(bs[..i])
    {
      var s := BuildLine(bs[i]);
      assert bs[..i + 1][..i] == bs[..i] && bs[..i + 1][i] == bs[i];
      assert ValidLines(bs[..i + 1]) == ValidLines(bs[..i]) + (if s != "" then [s] else []);
      if s != "" {
        validFields := validFields + [s];
      }
      i := i + 1;
    }
    assert bs[..i] == bs;
  }

  /** The writing loop of CKAddColumnsBuilder.Build: the header, then the clauses joined by
      ",\n" and closed by one ";". */
  method WriteStatement(header: string, lines: seq<string>) returns (result: string)
    requires lines != []
    ensures result == header + Join(lines, ",\n") + ";"
  {
    result := header;
    var i := 0;
    while i < |lines|
      invariant 0 <= i <= |lines|
      invariant result == header + Written(lines, i, ",\n", ";")
    {
      if i == |lines| - 1 {
        result := result + (lines[i] + ";");
      } else {
        result := result + (lines[i] + ",\n");
      }
      i := i + 1;
    }
    WrittenIsJoin(lines, |lines|, ",\n", ";");
    assert lines[..|lines|] == lines;
  }

  /** CKAddColumnsBuilder.Build */
  method Build(b: AddColumnsBuilder) returns (r: string)
    ensures r == Statement(b)
  {
    if |b.builders| == 0 {
      return "";
    }
    var validFields := CollectLines(b.builders);
    if |validFields| == 0 {
      return "";
    }
    r := WriteStatement(Header(b.dbName, b.tableName), validFields);
  }

  /** BuildWithExistenceCheck is Build. */
  method BuildWithExistenceCheck(b: AddColumnsBuilder) returns (r: string)
    ensures r == Statement(b)
  {
    r := Build(b);
  }

  /** The statement is empty exactly when no converter needs a shim; otherwise it is one
      ALTER TABLE on the cluster, one clause per shim, ending in exactly one ";". */
  lemma StatementShape(b: AddColumnsBuilder)
    ensures Statement(b) == "" <==> CountShims(b.builders) == 0
    ensures Statement(b) != "" ==>
      HasPrefix(Statement(b), Header(b.dbName, b.tableName)) && HasSuffix(Statement(b), ";")
  {
    ValidLinesShape(b.builders);
    var lines := ValidLines(b.builders);
    if lines != [] {
      var s := Statement(b);
      var h := Header(b.dbName, b.tableName);
      assert s == h + (Join(lines, ",\n") + ";");
      assert s[..|h|] == h;
    }
  }
}
