/** Type classification and per-field shim decisions for origin (ClickHouse) columns
    (builder/ckFieldConverter.go). */
module FieldConverter {
  import opened Wrappers
  import opened Text
  import opened Schema

  /** Suffix that marks a generated shim column. */
  const NameSuffix: string := "_TmpSrConverter"
  const TypeString: string := "String"
  const TypeUInt32: string := "UInt32"
  const TypeUInt128: string := "UInt128"

  /** A field together with the real column it shims. `origin == None` means the field
      passes through unchanged; otherwise `field` is the shim and `origin` the real column. */
  datatype Converter = Converter(field: Field, origin: Option<Field>)

  /** The name of the real origin column behind a converter. */
  function OriginName(c: Converter): (r: string)
    ensures c.origin.Some? ==> r == c.origin.value.name
    ensures c.origin.None? ==> r == c.field.name
  {
    if c.origin.Some? then c.origin.value.name else c.field.name
  }

  /** The (reformatted) type of the real origin column behind a converter. */
  function OriginType(c: Converter): (r: string)
    ensures c.origin.Some? ==> r == c.origin.value.typ
    ensures c.origin.None? ==> r == c.field.typ
  {
    if c.origin.Some? then c.origin.value.typ else c.field.typ
  }

  /** A column name produced by an earlier ADD COLUMN run. */
  predicate IsAddedColumnByName(name: string) {
    Contains(name, NameSuffix)
  }

  predicate IsAddedColumn(c: Converter) {
    IsAddedColumnByName(c.field.name)
  }

  // ---------------------------------------------------------------------------
  // Type predicates (all compare case-insensitively)

  predicate IsStringArray(t: string) { ToLower(t) == "array(string)" }
  predicate IsArray(t: string) { HasPrefix(ToLower(t), "array(") }
  predicate IsIPV4(t: string) { ToLower(t) == "ipv4" }
  predicate IsIPV6(t: string) { ToLower(t) == "ipv6" }
  predicate IsArrayIPV6(t: string) { ToLower(t) == "array(ipv6)" }
  predicate IsArrayIPV4(t: string) { ToLower(t) == "array(ipv4)" }

  /** The specific array kinds are arrays, and no type is both IPv4 and IPv6. */
  lemma TypePredicatesConsistent(t: string)
    ensures IsArrayIPV6(t) ==> IsArray(t)
    ensures IsArrayIPV4(t) ==> IsArray(t)
    ensures IsStringArray(t) ==> IsArray(t)
    ensures !(IsIPV4(t) && IsIPV6(t))
    ensures !(IsArray(t) && (IsIPV4(t) || IsIPV6(t)))
  {
    var l := ToLower(t);
    if IsArrayIPV6(t) { assert l[..6] == "array(ipv6)"[..6]; }
    if IsArrayIPV4(t) { assert l[..6] == "array(ipv4)"[..6]; }
    if IsStringArray(t) { assert l[..6] == "array(string)"[..6]; }
  }

  // ---------------------------------------------------------------------------
  // reformat

  /** The scan `reformat` performs, from byte `i` with buffer `w`. `None` is the runtime
      panic of slicing `w[:5]` when `w` has no capacity: in Go a slice may be re-sliced up to
      its capacity, `w` has capacity 0 exactly when it is empty (initially nil, after a reset
      `[]byte{}`), and the first append gives it a capacity of at least 8 with zeroed spare
      bytes, so a non-empty `w` shorter than 5 bytes compares unequal to "Array" instead. */
  function ReformatFrom(t: string, i: nat, w: string): Option<string>
    requires i <= |t|
    decreases |t| - i
  {
    if i == |t| then Some(t)
    else if t[i] == '(' then
      if w != "Array" then
        if HasPrefix(w, "Array(") then Some("") else ReformatFrom(t, i + 1, [])
      else ReformatFrom(t, i + 1, w + ['('])
    else if t[i] == ')' then
      if w == [] then None
      else if |w| >= 5 && w[..5] == "Array" then Some(w + [')'])
      else Some(w)
    else ReformatFrom(t, i + 1, w + [t[i]])
  }

  /** What `reformat(t)` returns; `None` where it panics. */
  function Reformatted(t: string): Option<string> {
    ReformatFrom(t, 0, [])
  }

  /** The byte loop of `reformat`, proved to compute `Reformatted`. */
  method Reformat(t: string) returns (r: Option<string>)
    ensures r == Reformatted(t)
  {
    var w: string := [];
    var i := 0;
    while i < |t|
      invariant 0 <= i <= |t|
      invariant ReformatFrom(t, i, w) == Reformatted(t)
    {
      if t[i] == '(' {
        if w != "Array" {
          if HasPrefix(w, "Array(") {
            return Some("");
          }
          w := [];
        } else {
          w := w + ['('];
        }
      } else if t[i] == ')' {
        if w == [] {
          return None;
        }
        if |w| >= 5 && w[..5] == "Array" {
          w := w + [')'];
        }
        return Some(w);
      } else {
        w := w + [t[i]];
      }
      i := i + 1;
    }
    return Some(t);
  }

  predicate NoParens(s: string) {
    '(' !in s && ')' !in s
  }

  /** Bytes other than brackets are only accumulated. */
  lemma {:induction false} ReformatSkipsPlain(t: string, i: nat, j: nat, w: string)
    requires i <= j <= |t|
    requires NoParens(t[i..j])
    ensures ReformatFrom(t, i, w) == ReformatFrom(t, j, w + t[i..j])
    decreases j - i
  {
    if i < j {
      assert t[i] == t[i..j][0];
      assert t[i + 1..j] == t[i..j][1..];
      ReformatSkipsPlain(t, i + 1, j, w + [t[i]]);
      assert w + [t[i]] + t[i + 1..j] == w + t[i..j];
    } else {
      assert w + t[i..j] == w;
    }
  }

  /** The same, for a known bracket-free segment `seg` starting at byte `i`. */
  lemma ReformatSkipsSegment(t: string, i: nat, seg: string, w: string)
    requires i + |seg| <= |t| && t[i..i + |seg|] == seg
    requires NoParens(seg)
    ensures ReformatFrom(t, i, w) == ReformatFrom(t, i + |seg|, w + seg)
  {
    ReformatSkipsPlain(t, i, i + |seg|, w);
  }

  /** A type without brackets is returned unchanged. */
  lemma ReformatNoParens(t: string)
    requires NoParens(t)
    ensures Reformatted(t) == Some(t)
  {
    assert t[0..|t|] == t;
    ReformatSkipsSegment(t, 0, t, []);
  }

  lemma NotArrayPrefix(p: string)
    requires NoParens(p)
    ensures !HasPrefix(p, "Array(")
  {
    if |p| >= 6 {
      assert p[5] in p;
      assert p[..6][5] == p[5];
    }
  }

  /** A `)` reached with an empty buffer is the runtime panic: `p()` panics. */
  lemma ReformatPanicsOnEmptyInner(p: string, y: string)
    requires NoParens(p) && p != "Array"
    ensures Reformatted(p + "()" + y) == None
  {
    var t := p + "()" + y;
    assert t[0..|p|] == p;
    ReformatSkipsSegment(t, 0, p, []);
    NotArrayPrefix(p);
    assert [] + p == p;
    assert t[|p|] == '(' && t[|p| + 1] == ')';
  }

  /** `Array(X)` with a bracket-free X is kept whole. */
  lemma ReformatKeepsFlatArray(x: string, y: string)
    requires NoParens(x)
    ensures Reformatted("Array(" + x + ")" + y) == Some("Array(" + x + ")")
  {
    var t := "Array(" + x + ")" + y;
    assert t[0..5] == "Array";
    ReformatSkipsSegment(t, 0, "Array", []);
    assert [] + "Array" == "Array";
    assert t[5] == '(';
    assert t[6..6 + |x|] == x;
    ReformatSkipsSegment(t, 6, x, "Array(");
    assert t[6 + |x|] == ')';
    var w := "Array(" + x;
    assert w[..5] == "Array";
    assert "Array" + ['('] == "Array(";
  }

  /** A second `(` after an `Array(` prefix rejects the type with "". */
  lemma ReformatRejectsNestedArray(x: string, y: string)
    requires NoParens(x)
    ensures Reformatted("Array(" + x + "(" + y) == Some("")
  {
    var t := "Array(" + x + "(" + y;
    assert t[0..5] == "Array";
    ReformatSkipsSegment(t, 0, "Array", []);
    assert [] + "Array" == "Array";
    assert t[5] == '(';
    assert "Array" + ['('] == "Array(";
    assert t[6..6 + |x|] == x;
    ReformatSkipsSegment(t, 6, x, "Array(");
    assert t[6 + |x|] == '(';
    var w := "Array(" + x;
    assert w != "Array" by { assert |w| >= 6; }
    assert HasPrefix(w, "Array(") by { assert w[..6] == "Array("; }
  }

  /** A non-Array wrapper is stripped down to its bracketed text (case-sensitively:
      `array(` is a wrapper like any other). */
  lemma ReformatUnwraps(p: string, x: string, y: string)
    requires NoParens(p) && p != "Array" && NoParens(x) && x != []
    requires !(|x| >= 5 && x[..5] == "Array")
    ensures Reformatted(p + "(" + x + ")" + y) == Some(x)
  {
    var t := p + "(" + x + ")" + y;
    assert t[0..|p|] == p;
    ReformatSkipsSegment(t, 0, p, []);
    assert [] + p == p;
    NotArrayPrefix(p);
    assert t[|p|] == '(';
    assert t[|p| + 1..|p| + 1 + |x|] == x;
    ReformatSkipsSegment(t, |p| + 1, x, []);
    assert [] + x == x;
    assert t[|p| + 1 + |x|] == ')';
  }

  /** A `(` after a non-Array wrapper name clears the buffer. */
  lemma ReformatOpens(t: string, i: nat, w: string)
    requires i < |t| && t[i] == '(' && w != "Array" && !HasPrefix(w, "Array(")
    ensures ReformatFrom(t, i, w) == ReformatFrom(t, i + 1, [])
  {
  }

  /** A `)` after a non-empty, non-Array buffer returns that buffer. */
  lemma ReformatCloses(t: string, i: nat, w: string)
    requires i < |t| && t[i] == ')' && w != [] && !(|w| >= 5 && w[..5] == "Array")
    ensures ReformatFrom(t, i, w) == Some(w)
  {
  }

  /** Two nested non-Array wrappers are both stripped: only the innermost text remains. */
  lemma ReformatUnwrapsTwice(p: string, q: string, x: string, y: string)
    requires NoParens(p) && p != "Array" && NoParens(q) && q != "Array"
    requires NoParens(x) && x != [] && !(|x| >= 5 && x[..5] == "Array")
    ensures Reformatted(p + "(" + q + "(" + x + ")" + y) == Some(x)
  {
    var t := p + "(" + q + "(" + x + ")" + y;
    var a := |p| + 1;
    var b := a + |q| + 1;
    assert t[0..|p|] == p && t[|p|] == '(';
    ReformatSkipsWrapper(t, 0, p);
    assert t[a..a + |q|] == q && t[a + |q|] == '(';
    ReformatSkipsWrapper(t, a, q);
    assert ReformatFrom(t, b, []) == Some(x) by {
      assert t[b..b + |x|] == x && t[b + |x|] == ')';
      assert [] + x == x;
      ReformatSkipsSegment(t, b, x, []);
      ReformatCloses(t, b + |x|, x);
    }
  }

  /** A wrapper name other than Array, with its opening parenthesis, is skipped over. */
  lemma ReformatSkipsWrapper(t: string, i: nat, w: string)
    requires NoParens(w) && w != "Array"
    requires i + |w| < |t| && t[i..i + |w|] == w && t[i + |w|] == '('
    ensures ReformatFrom(t, i, []) == ReformatFrom(t, i + |w| + 1, [])
  {
    assert [] + w == w;
    ReformatSkipsSegment(t, i, w, []);
    NotArrayPrefix(w);
    ReformatOpens(t, i + |w|, w);
  }

  /** `Array(String)` is kept. */
  lemma ReformatArrayStringExample()
    ensures Reformatted("Array(String)") == Some("Array(String)")
  {
    ReformatKeepsFlatArray("String", "");
    assert "Array(" + "String" + ")" == "Array(String)";
    assert "Array(" + "String" + ")" + "" == "Array(String)";
  }

  /** A nested array is rejected with "". */
  lemma ReformatNestedExample()
    ensures Reformatted("Array(Array(Int32))") == Some("")
  {
    ReformatRejectsNestedArray("Array", "Int32))");
    assert "Array(" + "Array" + "(" + "Int32))" == "Array(Array(Int32))";
  }

  /** Wrappers are stripped, and `DateTime64(3)` yields its precision digit "3". */
  lemma ReformatWrapperExamples()
    ensures Reformatted("Nullable(String)") == Some("String")
    ensures Reformatted("DateTime64(3)") == Some("3")
  {
    assert "String"[..5] == "Strin";
    ReformatUnwraps("Nullable", "String", "");
    assert "Nullable" + "(" + "String" + ")" + "" == "Nullable(String)";
    ReformatUnwraps("DateTime64", "3", "");
    assert "DateTime64" + "(" + "3" + ")" + "" == "DateTime64(3)";
  }

  /** The lower-case spelling is not recognised as an array: the wrapper is stripped. */
  lemma ReformatLowerCaseArrayExample()
    ensures Reformatted("array(string)") == Some("string")
  {
    ReformatUnwraps("array", "string", "");
    assert "array" + "(" + "string" + ")" + "" == "array(string)";
  }

  lemma ReformatDoubleWrapperExample()
    ensures Reformatted("LowCardinality(Nullable(String))") == Some("String")
  {
    assert "String"[..5] == "Strin";
    ReformatUnwrapsTwice("LowCardinality", "Nullable", "String", ")");
    assert "LowCardinality" + "(" + "Nullable" + "(" + "String" + ")" + ")"
      == "LowCardinality(Nullable(String))" by {
      assert "LowCardinality" + "(" + "Nullable" + "(" == "LowCardinality(Nullable(";
      assert "LowCardinality(Nullable(" + "String" + ")" + ")" == "LowCardinality(Nullable(String))";
    }
  }

  /** An empty parenthesis panics. */
  lemma ReformatEmptyParensExample()
    ensures Reformatted("Tuple()") == None
  {
    ReformatPanicsOnEmptyInner("Tuple", "");
    assert "Tuple" + "()" + "" == "Tuple()";
  }

  // ---------------------------------------------------------------------------
  // typeCheck

  /** The error `typeCheck` returns: it wraps NotSupportTypeErr and names the type. */
  datatype TypeError = NotSupportType(typ: string)

  const SupportedScalars: set<string> :=
    {"Float32", "Float64", "String", "DateTime", "IPv4", "IPv6", "Bool"}

  /** An integer family name: `prefix` followed by nothing or by text strconv.Atoi accepts. */
  predicate IntegerSpelling(t: string, prefix: string) {
    HasPrefix(t, prefix) && (t[|prefix|..] == "" || ParseInt64(t[|prefix|..]).Some?)
  }

  /** typeCheck: `None` is the nil error. */
  function TypeCheck(t: string): (r: Option<TypeError>)
    ensures r.Some? ==> r.value == NotSupportType(t)
  {
    if HasPrefix(t, "Int") then
      if IntegerSpelling(t, "Int") then None else Some(NotSupportType(t))
    else if HasPrefix(t, "UInt") then
      if IntegerSpelling(t, "UInt") then None else Some(NotSupportType(t))
    else if IsArray(t) then None
    else if t in SupportedScalars then None
    else Some(NotSupportType(t))
  }

  /** The accepted types, stated as one condition: integers of any width, any array
      (element type unchecked) and the fixed scalar list. */
  lemma TypeCheckAccepts(t: string)
    ensures TypeCheck(t).None? <==>
      IntegerSpelling(t, "Int") || IntegerSpelling(t, "UInt")
      || (!HasPrefix(t, "Int") && !HasPrefix(t, "UInt") && (IsArray(t) || t in SupportedScalars))
  {
    if HasPrefix(t, "UInt") {
      assert !HasPrefix(t, "Int") by { assert t[0] == 'U'; }
    }
  }

  /** Integer families of any width are accepted. */
  lemma TypeCheckIntegerExamples()
    ensures TypeCheck("Int32").None? && TypeCheck("UInt8").None? && TypeCheck("Int").None?
  {
    assert "Int32"[..3] == "Int" && "Int32"[3..] == "32";
    assert DigitsValue("3") == 3 by { assert "3"[..0] == ""; }
    assert DigitsValue("32") == 32 by { assert "32"[..1] == "3"; }
    assert "UInt8"[..3] == "UIn" && "UInt8"[..4] == "UInt" && "UInt8"[4..] == "8";
    assert DigitsValue("8") == 8 by { assert "8"[..0] == ""; }
    assert "Int"[..3] == "Int" && "Int"[3..] == "";
  }

  /** A width that is not a number, a bare digit and an unknown scalar are all rejected. */
  lemma TypeCheckRejectExamples()
    ensures TypeCheck("Int32x") == Some(NotSupportType("Int32x"))
    ensures TypeCheck("3") == Some(NotSupportType("3"))
    ensures TypeCheck("Decimal") == Some(NotSupportType("Decimal"))
  {
    assert "Int32x"[..3] == "Int" && "Int32x"[3..] == "32x";
    assert !AllDigits("32x") by { assert !IsDigit("32x"[2]); }
    assert ToLower("Decimal")[0] == 'd';
    assert "Decimal"[..3] == "Dec" && "Decimal"[..4] == "Deci";
  }

  /** Any array is accepted, whatever its element type. */
  lemma TypeCheckArrayExample()
    ensures TypeCheck("Array(Whatever)").None?
  {
    assert "Array(Whatever)"[..3] == "Arr" && "Array(Whatever)"[..4] == "Arra";
    assert ToLower("Array(Whatever)")[..6] == "array(";
  }

  // ---------------------------------------------------------------------------
  // ckNameMap / nameWithSuffix / NewFieldConverter

  /** nameWithSuffix: the name with the shim suffix, whether or not it is already taken
      (there is no numeric disambiguator). */
  function NameWithSuffix(name: string, names: set<string>): (r: string)
    ensures r == name + NameSuffix
    ensures IsAddedColumnByName(r)
  {
    var newName := name + NameSuffix;
    assert newName == name + NameSuffix + [];
    ContainsInfix(name, NameSuffix, [], newName);
    if newName !in names then newName else newName
  }

  /** Whether a (reformatted) type needs a shim column. */
  predicate NeedsShim(t: string) {
    IsArray(t) || IsIPV4(t) || IsIPV6(t)
  }

  /** The type of the shim column of a type that needs one. */
  function ShimType(t: string): string {
    if IsArray(t) then TypeString else if IsIPV4(t) then TypeUInt32 else TypeUInt128
  }

  /** ckNameMap: `None` where the source returns the very same field (no shim). */
  function CkNameMap(f: Field, names: set<string>): (r: Option<Field>)
    ensures r.None? <==> !NeedsShim(f.typ)
    ensures r.Some? ==> r.value == NamedField(f.name + NameSuffix, ShimType(f.typ))
  {
    if IsArrayIPV6(f.typ) then
      TypePredicatesConsistent(f.typ);
      Some(NamedField(NameWithSuffix(f.name, names), TypeString))
    else if IsArray(f.typ) then Some(NamedField(NameWithSuffix(f.name, names), TypeString))
    else if IsIPV4(f.typ) then Some(NamedField(NameWithSuffix(f.name, names), TypeUInt32))
    else if IsIPV6(f.typ) then Some(NamedField(NameWithSuffix(f.name, names), TypeUInt128))
    else None
  }

  /** Why a single field could not be converted. `ReformatPanic` stands for the runtime panic
      of `reformat`. */
  datatype ConvertError =
    | ReformatPanic(field: string, typ: string)
    | InvalidType(field: string, typ: string)
    | Unsupported(cause: TypeError)

  /** NewFieldConverter */
  function NewFieldConverter(f: Field, names: set<string>): (r: Result<Converter, ConvertError>)
    ensures r.Ok? ==> Reformatted(f.typ).Some? && Reformatted(f.typ).value != ""
    ensures r.Ok? ==> OriginName(r.value) == f.name && OriginType(r.value) == Reformatted(f.typ).value
    ensures r.Ok? ==> (r.value.origin.None? <==> !NeedsShim(OriginType(r.value)))
    ensures r.Ok? && r.value.origin.Some? ==>
      r.value.field == NamedField(f.name + NameSuffix, ShimType(OriginType(r.value)))
    ensures r.Err? <==>
      Reformatted(f.typ).None? || Reformatted(f.typ) == Some("")
      || TypeCheck(Reformatted(f.typ).value).Some?
  {
    match Reformatted(f.typ)
    case None => Err(ReformatPanic(f.name, f.typ))
    case Some(realType) =>
      if realType == "" then Err(InvalidType(f.name, f.typ))
      else match TypeCheck(realType)
        case Some(e) => Err(Unsupported(e))
        case None =>
          var fp := f.(typ := realType);
          match CkNameMap(fp, names)
          case None => Ok(Converter(fp, None))
          case Some(newF) => Ok(Converter(newF, Some(fp)))
  }

  /** An IPv4 column gets a UInt32 shim that names the original column. */
  lemma NewFieldConverterIPv4Example(names: set<string>)
    ensures NewFieldConverter(NamedField("col", "IPv4"), names)
      == Ok(Converter(NamedField("col_TmpSrConverter", "UInt32"), Some(NamedField("col", "IPv4"))))
  {
    ReformatNoParens("IPv4");
    assert "IPv4"[..3] == "IPv" && "IPv4"[..4] == "IPv4";
    assert ToLower("IPv4") == "ipv4";
    assert "col" + NameSuffix == "col_TmpSrConverter";
  }

  /** A String column passes through without a shim. */
  lemma NewFieldConverterStringExample(names: set<string>)
    ensures NewFieldConverter(NamedField("s", "String"), names) == Ok(Converter(NamedField("s", "String"), None))
  {
    ReformatNoParens("String");
    assert "String"[..3] == "Str" && "String"[..4] == "Stri";
    assert ToLower("String")[0] == 's';
  }

  // ---------------------------------------------------------------------------
  // NewConverters

  /** Fields NewConverters leaves out: materialized ones and shims from an earlier run. */
  predicate Skipped(f: Field) {
    f.isMaterialized || IsAddedColumnByName(f.name)
  }

  /** `idx` lists, in increasing order, exactly the positions of the fields of `fs` that are
      not skipped, and `r` holds the fields at those positions. */
  ghost predicate PicksUnskipped(idx: seq<nat>, r: seq<Field>, fs: seq<Field>) {
    |idx| == |r|
    && (forall k :: 0 <= k < |idx| ==> idx[k] < |fs| && r[k] == fs[idx[k]] && !Skipped(fs[idx[k]]))
    && (forall k, l :: 0 <= k < l < |idx| ==> idx[k] < idx[l])
    && (forall i :: 0 <= i < |fs| && !Skipped(fs[i]) ==> i in idx)
  }

  /** The fields NewConverters converts, in order. */
  function Eligible(fs: seq<Field>): (r: seq<Field>)
    ensures |r| <= |fs|
    ensures forall k :: 0 <= k < |r| ==> !Skipped(r[k])
  {
    if fs == [] then []
    else Eligible(fs[..|fs| - 1]) + (if Skipped(fs[|fs| - 1]) then [] else [fs[|fs| - 1]])
  }

  /** The eligible fields are every field that is not skipped, each at its own position and in
      the order of the table. */
  lemma {:induction false} EligibleInOrder(fs: seq<Field>)
    ensures exists idx :: PicksUnskipped(idx, Eligible(fs), fs)
    ensures forall f :: f in Eligible(fs) <==> f in fs && !Skipped(f)
    decreases |fs|
  {
    var idx: seq<nat>;
    if fs == [] {
      idx := [];
      assert PicksUnskipped(idx, Eligible(fs), fs);
    } else {
      var n := |fs| - 1;
      var prev := Eligible(fs[..n]);
      EligibleInOrder(fs[..n]);
      var idx0 :| PicksUnskipped(idx0, prev, fs[..n]);
      PicksSnoc(idx0, prev, fs);
      if Skipped(fs[n]) {
        assert Eligible(fs) == prev;
        idx := idx0;
      } else {
        assert Eligible(fs) == prev + [fs[n]];
        idx := idx0 + [n];
      }
    }
    PicksMembers(idx, Eligible(fs), fs);
  }

  /** Picked positions give the membership of the picked fields. */
  lemma PicksMembers(idx: seq<nat>, r: seq<Field>, fs: seq<Field>)
    requires PicksUnskipped(idx, r, fs)
    ensures forall f :: f in r <==> f in fs && !Skipped(f)
  {
    forall f | f in fs && !Skipped(f)
      ensures f in r
    {
      var i :| 0 <= i < |fs| && fs[i] == f;
      var k :| 0 <= k < |idx| && idx[k] == i;
      assert r[k] == f;
    }
  }

  /** One more field keeps the picked positions: unchanged when it is skipped, extended by its
      own position when it is not. */
  lemma PicksSnoc(idx: seq<nat>, prev: seq<Field>, fs: seq<Field>)
    requires fs != [] && PicksUnskipped(idx, prev, fs[..|fs| - 1])
    ensures Skipped(fs[|fs| - 1]) ==> PicksUnskipped(idx, prev, fs)
    ensures !Skipped(fs[|fs| - 1]) ==> PicksUnskipped(idx + [|fs| - 1], prev + [fs[|fs| - 1]], fs)
  {
    var n := |fs| - 1;
    assert forall i :: 0 <= i < n ==> fs[..n][i] == fs[i];
    if !Skipped(fs[n]) {
      var idx' := idx + [n];
      assert forall k :: 0 <= k < |idx| ==> idx'[k] == idx[k];
      assert forall i :: 0 <= i < |fs| && !Skipped(fs[i]) ==> i in idx' by {
        forall i | 0 <= i < |fs| && !Skipped(fs[i])
          ensures i in idx'
        {
          if i < n {
            assert fs[..n][i] == fs[i];
          }
        }
      }
    }
  }

  /** The error NewConverters returns: the failing field and the table, and the cause. */
  datatype TableConvertError = BuildFailed(field: string, db: string, table: string, cause: ConvertError)

  /** What NewConverters computes over a prefix of the fields: converters in order, or the
      first failure. */
  function ConvertFields(fs: seq<Field>, names: set<string>, db: string, table: string)
    : Result<seq<Converter>, TableConvertError>
  {
    if fs == [] then Ok([])
    else
      match ConvertFields(fs[..|fs| - 1], names, db, table)
      case Err(e) => Err(e)
      case Ok(prev) =>
        var f := fs[|fs| - 1];
        if Skipped(f) then Ok(prev)
        else match NewFieldConverter(f, names)
          case Err(e) => Err(BuildFailed(f.name, db, table, e))
          case Ok(c) => Ok(prev + [c])
  }

  /** Once a prefix fails, every longer prefix fails with the same error. */
  lemma {:induction false} ConvertFieldsErrSticks(fs: seq<Field>, i: nat, names: set<string>, db: string, table: string)
    requires i <= |fs|
    requires ConvertFields(fs[..i], names, db, table).Err?
    ensures ConvertFields(fs, names, db, table) == ConvertFields(fs[..i], names, db, table)
    decreases |fs| - i
  {
    if i < |fs| {
      assert fs[..i + 1][..i] == fs[..i];
      ConvertFieldsErrSticks(fs, i + 1, names, db, table);
    } else {
      assert fs[..i] == fs;
    }
  }

  /** One more field: skipped, converted and appended, or the failure. */
  lemma ConvertFieldsStep(fs: seq<Field>, i: nat, names: set<string>, db: string, table: string, res: seq<Converter>)
    requires i < |fs| && ConvertFields(fs[..i], names, db, table) == Ok(res)
    ensures Skipped(fs[i]) ==> ConvertFields(fs[..i + 1], names, db, table) == Ok(res)
    ensures !Skipped(fs[i]) && NewFieldConverter(fs[i], names).Ok? ==>
      ConvertFields(fs[..i + 1], names, db, table) == Ok(res + [NewFieldConverter(fs[i], names).value])
    ensures !Skipped(fs[i]) && NewFieldConverter(fs[i], names).Err? ==>
      ConvertFields(fs[..i + 1], names, db, table)
        == Err(BuildFailed(fs[i].name, db, table, NewFieldConverter(fs[i], names).error))
  {
    assert fs[..i + 1][..i] == fs[..i];
  }

  /** NewConverters: converts every eligible field in order; stops at the first failure. */
  method NewConverters(table: Table) returns (r: Result<seq<Converter>, TableConvertError>)
    ensures r == ConvertFields(table.fields, NameSet(table.fields), table.ddl.dbName, table.ddl.tableName)
  {
    var fs := table.fields;
    var names: set<string> := {};
    var i := 0;
    while i < |fs|
      invariant 0 <= i <= |fs|
      invariant names == NameSet(fs[..i])
    {
      assert fs[..i + 1] == fs[..i] + [fs[i]];
      names := names + {fs[i].name};
      i := i + 1;
    }
    assert fs[..i] == fs;
    var db, tn := table.ddl.dbName, table.ddl.tableName;
    var res: seq<Converter> := [];
    i := 0;
    while i < |fs|
      invariant 0 <= i <= |fs|
      invariant ConvertFields(fs[..i], names, db, tn) == Ok(res)
    {
      ConvertFieldsStep(fs, i, names, db, tn, res);
      var f := fs[i];
      if !f.isMaterialized && !IsAddedColumnByName(f.name) {
        var c := NewFieldConverter(f, names);
        if c.Err? {
          ConvertFieldsErrSticks(fs, i + 1, names, db, tn);
          return Err(BuildFailed(f.name, db, tn, c.error));
        }
        res := res + [c.value];
      }
      i := i + 1;
    }
    assert fs[..i] == fs;
    return Ok(res);
  }

  /** `k` is the first eligible field whose conversion fails. */
  predicate FirstFailure(es: seq<Field>, names: set<string>, k: int) {
    0 <= k < |es| && NewFieldConverter(es[k], names).Err?
    && forall j :: 0 <= j < k ==> NewFieldConverter(es[j], names).Ok?
  }

  /** NewConverters keeps order and skips exactly the ineligible fields: it succeeds exactly
      when every eligible field converts, and then the k-th converter is that of the k-th
      eligible field (so no shim from an earlier run is shimmed again); on failure the error
      names the first eligible field that cannot be converted, with the table. */
  lemma {:induction false} ConvertFieldsSpec(fs: seq<Field>, names: set<string>, db: string, table: string)
    ensures ConvertFields(fs, names, db, table).Ok?
      <==> forall k :: 0 <= k < |Eligible(fs)| ==> NewFieldConverter(Eligible(fs)[k], names).Ok?
    ensures ConvertFields(fs, names, db, table).Ok? ==>
      var cs := ConvertFields(fs, names, db, table).value;
      |cs| == |Eligible(fs)|
      && forall k :: 0 <= k < |cs| ==>
        NewFieldConverter(Eligible(fs)[k], names).Ok?
        && cs[k] == NewFieldConverter(Eligible(fs)[k], names).value
        && OriginName(cs[k]) == Eligible(fs)[k].name
    ensures ConvertFields(fs, names, db, table).Err? ==>
      exists k :: FirstFailure(Eligible(fs), names, k)
        && ConvertFields(fs, names, db, table).error
           == BuildFailed(Eligible(fs)[k].name, db, table, NewFieldConverter(Eligible(fs)[k], names).error)
    decreases |fs|
  {
    if fs != [] {
      var init := fs[..|fs| - 1];
      ConvertFieldsSpec(init, names, db, table);
      var f := fs[|fs| - 1];
      var e0 := Eligible(init);
      var e := Eligible(fs);
      assert e == e0 + (if Skipped(f) then [] else [f]);
      var r0 := ConvertFields(init, names, db, table);
      if r0.Err? {
        var k :| FirstFailure(e0, names, k)
          && r0.error == BuildFailed(e0[k].name, db, table, NewFieldConverter(e0[k], names).error);
        assert e[k] == e0[k];
        assert FirstFailure(e, names, k);
      } else if !Skipped(f) {
        var c := NewFieldConverter(f, names);
        assert e[|e0|] == f;
        if c.Err? {
          assert FirstFailure(e, names, |e0|);
        }
      }
    }
  }
}
