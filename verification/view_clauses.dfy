/** The per-column pieces of the view (builder/viewBuilder.go): which target column an origin
    converter maps to, the select clause each side contributes, and the placeholder for a
    target-only column. */
module ViewClauses {
  import opened Wrappers
  import opened Text
  import opened Schema
  import opened FieldConverter

  /** The separator the target side splits a joined array on. */
  const SplitSeparator: string := "'CKTOSRFRAGEMENT'"

  /** A target (StarRocks) column together with its select clause. */
  datatype SRField = SRField(field: Field, clause: string)

  /** An origin (ClickHouse) select entry: its converter, the target column it feeds, and its
      select clause. */
  datatype CKField = CKField(conv: Converter, srField: SRField, clause: string)

  /** The zero FieldConverter a placeholder entry carries. */
  const ZeroConverter: Converter := Converter(Field("", "", "", "", false), None)

  /** A name in backquotes. */
  function Quoted(name: string): string {
    "`" + name + "`"
  }

  // ---------------------------------------------------------------------------
  // NewSRTableBuilder's nameMap

  /** The nameMap over a prefix of the target fields: a later duplicate overwrites. */
  function NameMapOf(fs: seq<Field>): (m: map<string, Field>)
    ensures m.Keys == NameSet(fs)
    ensures forall n :: n in m ==> m[n].name == n
  {
    if fs == [] then map[]
    else
      var f := fs[|fs| - 1];
      var prev := NameMapOf(fs[..|fs| - 1]);
      assert NameSet(fs) == NameSet(fs[..|fs| - 1]) + {f.name} by {
        assert forall i :: 0 <= i < |fs| - 1 ==> fs[..|fs| - 1][i] == fs[i];
      }
      prev[f.name := f]
  }

  /** Each name maps to the last field that declares it. */
  lemma {:induction false} NameMapOfLastWins(fs: seq<Field>, j: nat)
    requires j < |fs|
    requires forall k :: j < k < |fs| ==> fs[k].name != fs[j].name
    ensures NameMapOf(fs)[fs[j].name] == fs[j]
    decreases |fs|
  {
    if j < |fs| - 1 {
      NameMapOfLastWins(fs[..|fs| - 1], j);
    }
  }

  /** NewSRTableBuilder's loop. */
  method BuildNameMap(fields: seq<Field>) returns (m: map<string, Field>)
    ensures m == NameMapOf(fields)
  {
    m := map[];
    var i := 0;
    while i < |fields|
      invariant 0 <= i <= |fields|
      invariant m == NameMapOf(fields[..i])
    {
      assert fields[..i + 1][..i] == fields[..i];
      m := m[fields[i].name := fields[i]];
      i := i + 1;
    }
    assert fields[..i] == fields;
  }

  // ---------------------------------------------------------------------------
  // MapSRField

  /** The target column name a converter looks up: `<origin>_int` for the IP kinds. */
  function SRNameFor(c: Converter): (r: string)
    ensures (IsArrayIPV6(OriginType(c)) || IsArrayIPV4(OriginType(c)) || IsIPV6(OriginType(c)) || IsIPV4(OriginType(c)))
      ==> r == OriginName(c) + "_int"
    ensures !(IsArrayIPV6(OriginType(c)) || IsArrayIPV4(OriginType(c)) || IsIPV6(OriginType(c)) || IsIPV4(OriginType(c)))
      ==> r == OriginName(c)
  {
    var t := OriginType(c);
    if IsArrayIPV6(t) || IsArrayIPV4(t) then OriginName(c) + "_int"
    else if IsIPV6(t) || IsIPV4(t) then OriginName(c) + "_int"
    else OriginName(c)
  }

  /** MapSRField: the target field of that name, or the "map failed" error naming it. */
  function MapSRField(c: Converter, m: map<string, Field>): (r: Result<Field, string>)
    ensures r.Ok? <==> SRNameFor(c) in m
    ensures r.Ok? ==> r.value == m[SRNameFor(c)]
    ensures r.Err? ==> r.error == "map failed, column " + SRNameFor(c) + " not exists in sr"
  {
    var name := SRNameFor(c);
    if name in m then Ok(m[name]) else Err("map failed, column " + name + " not exists in sr")
  }

  // ---------------------------------------------------------------------------
  // CKField.GenClause

  /** SRBasicType's scan from byte `i` with buffer `buf`. */
  function BasicFrom(t: string, i: nat, buf: string): string
    requires i <= |t|
    decreases |t| - i
  {
    if i == |t| then t
    else if t[i] == '<' then BasicFrom(t, i + 1, [])
    else if t[i] == '>' then buf
    else BasicFrom(t, i + 1, buf + [t[i]])
  }

  /** The element type of a target array type: the text between the last `<` before the
      first `>` and that `>`; the type itself when it has no `>`. */
  function BasicType(t: string): string {
    BasicFrom(t, 0, [])
  }

  /** SRBasicType's loop, proved to compute BasicType. */
  method SRBasicType(t: string) returns (r: string)
    ensures r == BasicType(t)
  {
    var basicType: string := [];
    var i := 0;
    while i < |t|
      invariant 0 <= i <= |t|
      invariant BasicFrom(t, i, basicType) == BasicType(t)
    {
      if t[i] == '<' {
        basicType := [];
      } else if t[i] == '>' {
        return basicType;
      } else {
        basicType := basicType + [t[i]];
      }
      i := i + 1;
    }
    return t;
  }

  /** A stretch without `>` only moves the buffer. */
  lemma {:induction false} BasicSkipsNoCloser(t: string, i: nat, j: nat, buf: string)
    requires i <= j <= |t|
    requires '>' !in t[i..j]
    ensures exists b :: BasicFrom(t, i, buf) == BasicFrom(t, j, b)
    decreases j - i
  {
    if i == j {
      assert BasicFrom(t, i, buf) == BasicFrom(t, j, buf);
    } else {
      assert t[i] == t[i..j][0];
      assert t[i + 1..j] == t[i..j][1..];
      if t[i] == '<' {
        BasicSkipsNoCloser(t, i + 1, j, []);
      } else {
        BasicSkipsNoCloser(t, i + 1, j, buf + [t[i]]);
      }
    }
  }

  /** A stretch without brackets is accumulated. */
  lemma {:induction false} BasicSkipsPlain(t: string, i: nat, j: nat, buf: string)
    requires i <= j <= |t|
    requires '<' !in t[i..j] && '>' !in t[i..j]
    ensures BasicFrom(t, i, buf) == BasicFrom(t, j, buf + t[i..j])
    decreases j - i
  {
    if i < j {
      assert t[i] == t[i..j][0];
      assert t[i + 1..j] == t[i..j][1..];
      BasicSkipsPlain(t, i + 1, j, buf + [t[i]]);
      assert buf + [t[i]] + t[i + 1..j] == buf + t[i..j];
    } else {
      assert buf + t[i..j] == buf;
    }
  }

  /** A type without `>` is its own basic type. */
  lemma BasicTypeNoCloser(t: string)
    requires '>' !in t
    ensures BasicType(t) == t
  {
    assert t[0..|t|] == t;
    BasicSkipsNoCloser(t, 0, |t|, []);
  }

  /** `P<X>…` with no `>` in P and a bracket-free X has basic type X, however deeply P nests. */
  lemma BasicTypeInnermost(p: string, x: string, y: string)
    requires '>' !in p && '<' !in x && '>' !in x
    ensures BasicType(p + "<" + x + ">" + y) == x
  {
    var t := p + "<" + x + ">" + y;
    assert t[0..|p|] == p;
    BasicSkipsNoCloser(t, 0, |p|, []);
    var b :| BasicFrom(t, 0, []) == BasicFrom(t, |p|, b);
    assert t[|p|] == '<';
    var a := |p| + 1;
    assert t[a..a + |x|] == x;
    BasicSkipsPlain(t, a, a + |x|, []);
    assert t[a + |x|] == '>';
    assert [] + x == x;
  }

  lemma ArrayIntBasic()
    ensures BasicType("ARRAY<INT>") == "INT"
  {
    BasicTypeInnermost("ARRAY", "INT", "");
    assert "ARRAY" + "<" + "INT" + ">" + "" == "ARRAY<INT>";
  }

  lemma NestedVarcharBasic()
    ensures BasicType("ARRAY<ARRAY<VARCHAR(20)>>") == "VARCHAR(20)"
  {
    BasicTypeInnermost("ARRAY<ARRAY", "VARCHAR(20)", ">");
    assert "ARRAY<ARRAY" + "<" + "VARCHAR(20)" + ">" + ">" == "ARRAY<ARRAY<VARCHAR(20)>>";
  }

  lemma BasicTypeExamples()
    ensures BasicType("ARRAY<INT>") == "INT"
    ensures BasicType("ARRAY<ARRAY<VARCHAR(20)>>") == "VARCHAR(20)"
    ensures BasicType("BIGINT") == "BIGINT"
  {
    ArrayIntBasic();
    NestedVarcharBasic();
    BasicTypeNoCloser("BIGINT");
  }

  /** ArrayMap without its alias: split the joined text and cast each element to the
      target element type. */
  function ArrayMapBody(fieldName: string, srType: string, basic: string): string {
    "CASE \n\t\tWHEN " + Quoted(fieldName) + " = '' THEN " + srType
      + "[]\n\t\tELSE array_map(x -> CAST(x AS " + basic + "), split(" + Quoted(fieldName) + ", "
      + SplitSeparator + "))\n\tEND"
  }

  /** Array without its alias: split the joined text into strings. */
  function ArrayBody(fieldName: string): string {
    "CASE \n\t\tWHEN " + Quoted(fieldName) + " = '' THEN ARRAY<String>[]\n\t\tELSE split("
      + Quoted(fieldName) + ", " + SplitSeparator + ")\n\tEND"
  }

  /** ArrayIPV6 without its alias: split the joined text and cast each element to LARGEINT. */
  function ArrayIPV6Body(fieldName: string): string {
    "CASE \n\t\tWHEN " + Quoted(fieldName) + " = '' THEN ARRAY<LARGEINT>[]\n\t\tELSE array_map(x -> CAST(x AS LARGEINT), split("
      + Quoted(fieldName) + ", " + SplitSeparator + "))\n\tEND"
  }

  /** The shapes of origin clause that carry an alias. */
  predicate Renames(c: Converter) {
    IsArrayIPV6(OriginType(c)) || IsStringArray(OriginType(c)) || IsArray(OriginType(c)) || IsAddedColumn(c)
  }

  /** The expression part of a renaming clause, in GenClause's priority order. */
  function RenamedExpr(c: Converter, sr: SRField): string {
    var t := OriginType(c);
    var n := c.field.name;
    if IsArrayIPV6(t) then ArrayIPV6Body(n)
    else if IsStringArray(t) then ArrayBody(n)
    else if IsArray(t) then ArrayMapBody(n, sr.field.typ, BasicType(sr.field.typ))
    else Quoted(n)
  }

  /** CKField.GenClause: the select clause of an origin column mapped to target field `sr`.
      Arrays and shims are aliased to the target column's name; a plain column is selected
      under its own name. */
  function CKClause(c: Converter, sr: SRField): (r: string)
    ensures Renames(c) ==> HasSuffix(r, " as " + Quoted(sr.field.name))
    ensures !Renames(c) ==> r == Quoted(c.field.name)
  {
    if Renames(c) then
      SuffixOfConcat(RenamedExpr(c, sr), " as " + Quoted(sr.field.name));
      RenamedExpr(c, sr) + (" as " + Quoted(sr.field.name))
    else Quoted(c.field.name)
  }


  /** The Array(IPv6) clause around its split call. */
  lemma ArrayIPV6BodyParts(n: string)
    ensures ArrayIPV6Body(n)
      == "CASE \n\t\tWHEN " + Quoted(n) + " = '' THEN ARRAY<LARGEINT>[]\n\t\tELSE array_map(x -> CAST(x AS LARGEINT), "
         + ("split(" + Quoted(n) + ", " + SplitSeparator) + "))\n\tEND"
  {
  }

  /** The Array(IPv6) clause splits on the separator the origin side joined with. */
  lemma ArrayIPV6BodySplits(n: string)
    ensures Contains(ArrayIPV6Body(n), "split(" + Quoted(n) + ", " + SplitSeparator)
  {
    ArrayIPV6BodyParts(n);
    ContainsInfix("CASE \n\t\tWHEN " + Quoted(n) + " = '' THEN ARRAY<LARGEINT>[]\n\t\tELSE array_map(x -> CAST(x AS LARGEINT), ",
                  "split(" + Quoted(n) + ", " + SplitSeparator, "))\n\tEND", ArrayIPV6Body(n));
  }

  /** The Array(String) clause around its split call. */
  lemma ArrayBodyParts(n: string)
    ensures ArrayBody(n)
      == "CASE \n\t\tWHEN " + Quoted(n) + " = '' THEN ARRAY<String>[]\n\t\tELSE "
         + ("split(" + Quoted(n) + ", " + SplitSeparator) + ")\n\tEND"
  {
  }

  /** The Array(String) clause splits on the same separator. */
  lemma ArrayBodySplits(n: string)
    ensures Contains(ArrayBody(n), "split(" + Quoted(n) + ", " + SplitSeparator)
  {
    ArrayBodyParts(n);
    ContainsInfix("CASE \n\t\tWHEN " + Quoted(n) + " = '' THEN ARRAY<String>[]\n\t\tELSE ",
                  "split(" + Quoted(n) + ", " + SplitSeparator, ")\n\tEND", ArrayBody(n));
  }

  /** Every other array clause around its split call. */
  lemma ArrayMapBodyParts(n: string, srType: string, basic: string)
    ensures ArrayMapBody(n, srType, basic)
      == "CASE \n\t\tWHEN " + Quoted(n) + " = '' THEN " + srType + "[]\n\t\tELSE array_map(x -> CAST(x AS " + basic + "), "
         + ("split(" + Quoted(n) + ", " + SplitSeparator) + "))\n\tEND"
  {
  }

  /** Every other array clause splits on the same separator. */
  lemma ArrayMapBodySplits(n: string, srType: string, basic: string)
    ensures Contains(ArrayMapBody(n, srType, basic), "split(" + Quoted(n) + ", " + SplitSeparator)
  {
    ArrayMapBodyParts(n, srType, basic);
    ContainsInfix("CASE \n\t\tWHEN " + Quoted(n) + " = '' THEN " + srType + "[]\n\t\tELSE array_map(x -> CAST(x AS " + basic + "), ",
                  "split(" + Quoted(n) + ", " + SplitSeparator, "))\n\tEND", ArrayMapBody(n, srType, basic));
  }

  /** For a converter built by NewFieldConverter from an origin column whose own name carries
      no shim suffix, the origin clause projects exactly the target column it was mapped to: the
      two arms of the view line up by name. */
  lemma ClauseProjectsTargetName(f: Field, names: set<string>, m: map<string, Field>)
    requires NewFieldConverter(f, names).Ok? && !IsAddedColumnByName(f.name)
    requires forall n :: n in m ==> m[n].name == n
    requires MapSRField(NewFieldConverter(f, names).value, m).Ok?
    ensures var c := NewFieldConverter(f, names).value;
      var sf := MapSRField(c, m).value;
      var r := CKClause(c, SRField(sf, Quoted(sf.name)));
      r == Quoted(sf.name) || HasSuffix(r, " as " + Quoted(sf.name))
  {
    var c := NewFieldConverter(f, names).value;
    TypePredicatesConsistent(OriginType(c));
  }

  // ---------------------------------------------------------------------------
  // defaultCKClauseForSRField

  /** Whether the target column declares a usable DEFAULT. */
  predicate HasUsableDefault(sf: Field) {
    EqualFold(sf.defaultKind, "DEFAULT") && TrimSpace(sf.defaultExpr) != ""
  }

  /** defaultCKClauseForSRField: the placeholder select clause for a target-only column, a
      CAST of its DEFAULT expression (or of NULL) to its trimmed type, named after it. */
  function DefaultCKClause(sf: Field): (r: string)
    ensures HasUsableDefault(sf) ==> HasPrefix(r, "CAST(" + sf.defaultExpr + " AS " + TrimSpace(sf.typ) + ")")
    ensures !HasUsableDefault(sf) ==> HasPrefix(r, "CAST(NULL AS " + TrimSpace(sf.typ) + ")")
    ensures HasSuffix(r, " as " + Quoted(sf.name))
  {
    var t := TrimSpace(sf.typ);
    var v := if HasUsableDefault(sf) then sf.defaultExpr else "NULL";
    var head := "CAST(" + v + " AS " + t + ")";
    PrefixOfConcat(head, " as " + Quoted(sf.name));
    SuffixOfConcat(head, " as " + Quoted(sf.name));
    if HasUsableDefault(sf) then "CAST(" + sf.defaultExpr + " AS " + t + ") as `" + sf.name + "`"
    else "CAST(NULL AS " + t + ") as `" + sf.name + "`"
  }

  /** The placeholder entry for a target-only column. */
  function Placeholder(sf: Field): (r: CKField)
    ensures r.srField == SRField(sf, Quoted(sf.name))
    ensures r.conv == ZeroConverter
    ensures HasSuffix(r.clause, " as " + Quoted(sf.name))
  {
    CKField(ZeroConverter, SRField(sf, Quoted(sf.name)), DefaultCKClause(sf))
  }

  /** The matched entry for a converter whose target field is `sf`. */
  function MatchedEntry(c: Converter, sf: Field): (r: CKField)
    ensures r.srField == SRField(sf, Quoted(sf.name)) && r.conv == c
  {
    var srf := SRField(sf, Quoted(sf.name));
    CKField(c, srf, CKClause(c, srf))
  }
}
