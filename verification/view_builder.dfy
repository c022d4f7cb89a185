/** The view builder (builder/viewBuilder.go): it pairs every origin converter with the target
    column it feeds, pads target-only columns with typed placeholders, validates the pairing
    and assembles the CREATE/ALTER VIEW statement. */
module ViewBuilderModel {
  import opened Wrappers
  import opened Text
  import opened Schema
  import opened FieldConverter
  import opened ViewClauses
  import opened ViewSql

  /** A name map in which every key names its own field, as NewSRTableBuilder builds it. */
  predicate WellKeyed(m: map<string, Field>) {
    forall n :: n in m ==> m[n].name == n
  }

  // ---------------------------------------------------------------------------
  // Specification of the two passes of PrepareAndValidate

  /** The entries the converter loop appends: one per converter whose target column exists,
      in converter order; the others are skipped. */
  function Matched(cs: seq<Converter>, m: map<string, Field>): (r: seq<CKField>)
    ensures |r| <= |cs|
    ensures forall i :: 0 <= i < |r| ==>
              SRNameFor(r[i].conv) in m && r[i] == MatchedEntry(r[i].conv, m[SRNameFor(r[i].conv)])
  {
    if cs == [] then []
    else
      var prev := Matched(cs[..|cs| - 1], m);
      var c := cs[|cs| - 1];
      match MapSRField(c, m)
      case Ok(sf) => prev + [MatchedEntry(c, sf)]
      case Err(_) => prev
  }

  /** The target names a list of entries selects. */
  function TargetNames(es: seq<CKField>): set<string> {
    set i | 0 <= i < |es| :: es[i].srField.field.name
  }

  /** The target names the select list of the target arm carries. */
  function FieldNames(sr: seq<SRField>): set<string> {
    set i | 0 <= i < |sr| :: sr[i].field.name
  }

  /** No two entries select the same target column. */
  predicate DistinctTargets(es: seq<CKField>) {
    forall i, j :: 0 <= i < j < |es| ==> es[i].srField.field.name != es[j].srField.field.name
  }

  /** The target columns no converter feeds. */
  function Unmatched(cs: seq<Converter>, m: map<string, Field>): (r: set<string>)
    ensures r <= m.Keys
  {
    m.Keys - TargetNames(Matched(cs, m))
  }

  /** The select entries after padding: aligned entry by entry, starting with `mt` and
      ending with one placeholder per target column `mt` does not select, each exactly once,
      in map order. */
  predicate PaddedShape(mt: seq<CKField>, m: map<string, Field>, ck: seq<CKField>, sr: seq<SRField>) {
    |ck| == |sr| && |mt| <= |ck|
    && ck[..|mt|] == mt
    && (forall i :: 0 <= i < |ck| ==> ck[i].srField == sr[i])
    && (forall i :: |mt| <= i < |sr| ==>
          sr[i].field.name in m && sr[i] == SRField(m[sr[i].field.name], Quoted(sr[i].field.name))
          && ck[i] == Placeholder(m[sr[i].field.name]))
    && (set i | |mt| <= i < |sr| :: sr[i].field.name) == m.Keys - TargetNames(mt)
    && |sr| == |mt| + |m.Keys - TargetNames(mt)|
  }

  /** The state PrepareAndValidate leaves behind: the matched entries in converter order, then
      the placeholders of the unmatched target columns. */
  predicate PreparedShape(cs: seq<Converter>, m: map<string, Field>, ck: seq<CKField>, sr: seq<SRField>) {
    PaddedShape(Matched(cs, m), m, ck, sr)
  }

  /** Two select lists of the same length whose entries correspond. */
  predicate Aligned(ck: seq<CKField>, sr: seq<SRField>) {
    |ck| == |sr| && forall i :: 0 <= i < |ck| ==> ck[i].srField == sr[i]
  }

  /** One more converter adds its entry when its target column exists, and nothing otherwise. */
  lemma MatchedStep(cs: seq<Converter>, i: nat, m: map<string, Field>)
    requires i < |cs|
    ensures Matched(cs[..i + 1], m) == Matched(cs[..i], m)
      + (if SRNameFor(cs[i]) in m then [MatchedEntry(cs[i], m[SRNameFor(cs[i])])] else [])
  {
    assert cs[..i + 1][..i] == cs[..i];
    assert cs[..i + 1][i] == cs[i];
  }

  /** The converter loop of PrepareAndValidate. */
  method MatchAll(cs: seq<Converter>, m: map<string, Field>) returns (ck: seq<CKField>, sr: seq<SRField>)
    ensures ck == Matched(cs, m)
    ensures Aligned(ck, sr)
  {
    ck, sr := [], [];
    var i := 0;
    while i < |cs|
      invariant 0 <= i <= |cs|
      invariant ck == Matched(cs[..i], m)
      invariant Aligned(ck, sr)
    {
      var c := cs[i];
      MatchedStep(cs, i, m);
      var mapped := MapSRField(c, m);
      if mapped.Ok? {
        // the target field with its clause, and the origin field pointing at it with its own
        var entry := MatchedEntry(c, mapped.value);
        sr := sr + [entry.srField];
        ck := ck + [entry];
      }
      i := i + 1;
    }
    assert cs[..i] == cs;
  }

  /** The loop that records the names of the matched target fields. */
  method MappedNames(sr: seq<SRField>) returns (mapped: set<string>)
    ensures mapped == FieldNames(sr)
  {
    mapped := {};
    var i := 0;
    while i < |sr|
      invariant 0 <= i <= |sr|
      invariant mapped == FieldNames(sr[..i])
    {
      assert FieldNames(sr[..i + 1]) == FieldNames(sr[..i]) + {sr[i].field.name} by {
        assert forall k :: 0 <= k < i ==> sr[..i + 1][k] == sr[..i][k];
        assert sr[..i + 1][i] == sr[i];
      }
      mapped := mapped + {sr[i].field.name};
      i := i + 1;
    }
    assert sr[..i] == sr;
  }

  /** The target entries appended for the names `ns`, in that order. */
  function PadSr(m: map<string, Field>, ns: seq<string>): (r: seq<SRField>)
    requires forall k :: 0 <= k < |ns| ==> ns[k] in m
    ensures |r| == |ns|
  {
    seq(|ns|, k requires 0 <= k < |ns| => SRField(m[ns[k]], Quoted(ns[k])))
  }

  /** The origin placeholders appended for the names `ns`, in that order. */
  function PadCk(m: map<string, Field>, ns: seq<string>): (r: seq<CKField>)
    requires forall k :: 0 <= k < |ns| ==> ns[k] in m
    ensures |r| == |ns|
  {
    seq(|ns|, k requires 0 <= k < |ns| => Placeholder(m[ns[k]]))
  }

  /** The names of a sequence, as a set. */
  function Elems(ns: seq<string>): set<string> {
    set k | 0 <= k < |ns| :: ns[k]
  }

  /** The padding loop of PrepareAndValidate: every target column not yet selected gets a
      placeholder, visited in the map's (unspecified) order. */
  method PadAll(mt: seq<CKField>, sr0: seq<SRField>, m: map<string, Field>) returns (ck: seq<CKField>, sr: seq<SRField>)
    requires WellKeyed(m) && Aligned(mt, sr0)
    ensures PaddedShape(mt, m, ck, sr)
  {
    var mapped := MappedNames(sr0);
    AlignedNames(mt, sr0);
    var padded := UnmappedNames(m.Keys, mapped);
    assert forall k :: 0 <= k < |padded| ==> padded[k] in Elems(padded);
    sr := sr0 + PadSr(m, padded);
    ck := mt + PadCk(m, padded);
    PaddedShapeFromNames(mt, sr0, m, padded);
  }

  /** The names the padding loop visits and keeps: each key outside `mapped`, once. */
  method UnmappedNames(keys: set<string>, mapped: set<string>) returns (padded: seq<string>)
    ensures Elems(padded) == keys - mapped
    ensures |padded| == |keys - mapped|
  {
    padded := [];
    var todo := keys;
    ghost var kept: set<string> := {};
    while todo != {}
      invariant todo <= keys && kept <= keys - mapped && kept !! todo
      invariant (keys - mapped) - todo <= kept
      invariant Elems(padded) == kept && |padded| == |kept|
      decreases |todo|
    {
      var name :| name in todo;
      todo := todo - {name};
      if name !in mapped {
        ElemsSnoc(padded, name);
        padded := padded + [name];
        kept := kept + {name};
      }
    }
  }

  lemma ElemsSnoc(ns: seq<string>, x: string)
    ensures Elems(ns + [x]) == Elems(ns) + {x}
  {
    assert forall k :: 0 <= k < |ns| ==> (ns + [x])[k] == ns[k];
    assert (ns + [x])[|ns|] == x;
  }

  /** Aligned lists select the same target names. */
  lemma AlignedNames(mt: seq<CKField>, sr: seq<SRField>)
    requires Aligned(mt, sr)
    ensures FieldNames(sr) == TargetNames(mt)
  {
    forall n | n in FieldNames(sr) ensures n in TargetNames(mt) {
      var i :| 0 <= i < |sr| && sr[i].field.name == n;
      assert mt[i].srField.field.name == n;
    }
    forall n | n in TargetNames(mt) ensures n in FieldNames(sr) {
      var i :| 0 <= i < |mt| && mt[i].srField.field.name == n;
      assert sr[i].field.name == n;
    }
  }

  /** The placeholders line up with their target entries. */
  lemma PadAligned(mt: seq<CKField>, sr0: seq<SRField>, m: map<string, Field>, padded: seq<string>)
    requires WellKeyed(m) && Aligned(mt, sr0)
    requires forall k :: 0 <= k < |padded| ==> padded[k] in m
    ensures Aligned(mt + PadCk(m, padded), sr0 + PadSr(m, padded))
  {
    var ck := mt + PadCk(m, padded);
    var sr := sr0 + PadSr(m, padded);
    forall i | 0 <= i < |ck| ensures ck[i].srField == sr[i] {
      if i < |mt| {
        assert ck[i] == mt[i] && sr[i] == sr0[i];
      } else {
        assert ck[i] == PadCk(m, padded)[i - |mt|];
        assert sr[i] == PadSr(m, padded)[i - |mt|];
      }
    }
  }

  /** Every appended entry is the placeholder of a column of the map, under its own name. */
  lemma PadTail(mt: seq<CKField>, sr0: seq<SRField>, m: map<string, Field>, padded: seq<string>)
    requires WellKeyed(m) && |mt| == |sr0|
    requires forall k :: 0 <= k < |padded| ==> padded[k] in m
    ensures var ck := mt + PadCk(m, padded); var sr := sr0 + PadSr(m, padded);
      forall i :: |mt| <= i < |sr| ==>
        sr[i].field.name == padded[i - |mt|] && sr[i].field.name in m
        && sr[i] == SRField(m[sr[i].field.name], Quoted(sr[i].field.name))
        && ck[i] == Placeholder(m[sr[i].field.name])
  {
    var ck := mt + PadCk(m, padded);
    var sr := sr0 + PadSr(m, padded);
    forall i | |mt| <= i < |sr|
      ensures sr[i].field.name == padded[i - |mt|]
      ensures sr[i] == SRField(m[padded[i - |mt|]], Quoted(padded[i - |mt|]))
      ensures ck[i] == Placeholder(m[padded[i - |mt|]])
    {
      assert sr[i] == PadSr(m, padded)[i - |mt|];
      assert ck[i] == PadCk(m, padded)[i - |mt|];
    }
  }

  /** The appended entries select exactly the appended names. */
  lemma PadNames(mt: seq<CKField>, sr0: seq<SRField>, m: map<string, Field>, padded: seq<string>)
    requires WellKeyed(m) && |mt| == |sr0|
    requires forall k :: 0 <= k < |padded| ==> padded[k] in m
    ensures var sr := sr0 + PadSr(m, padded);
      (set i | |mt| <= i < |sr| :: sr[i].field.name) == Elems(padded)
  {
    var sr := sr0 + PadSr(m, padded);
    PadTail(mt, sr0, m, padded);
    forall k | 0 <= k < |padded|
      ensures padded[k] in (set i | |mt| <= i < |sr| :: sr[i].field.name)
    {
      assert sr[|mt| + k].field.name == padded[k];
    }
  }

  /** Appending the placeholders of every unselected name, once each, gives the padded shape. */
  lemma PaddedShapeFromNames(mt: seq<CKField>, sr0: seq<SRField>, m: map<string, Field>, padded: seq<string>)
    requires WellKeyed(m) && Aligned(mt, sr0)
    requires forall k :: 0 <= k < |padded| ==> padded[k] in m
    requires Elems(padded) == m.Keys - TargetNames(mt)
    requires |padded| == |m.Keys - TargetNames(mt)|
    ensures PaddedShape(mt, m, mt + PadCk(m, padded), sr0 + PadSr(m, padded))
  {
    assert (mt + PadCk(m, padded))[..|mt|] == mt;
    PadAligned(mt, sr0, m, padded);
    PadTail(mt, sr0, m, padded);
    PadNames(mt, sr0, m, padded);
  }

  // ---------------------------------------------------------------------------
  // Validation

  /** Why PrepareAndValidate refuses to build a view. */
  datatype PrepareError =
    | CkFieldEmpty
    | NotInDdl(extra: seq<SRField>)
    | NotInSelect(lacking: set<string>)
    | NotInDdlNorSelect(extra: seq<SRField>, lacking: set<string>)
    | CountMismatch(fields: nat, names: nat)

  /** The selected target fields the name map does not know. */
  function Extra(sr: seq<SRField>, m: map<string, Field>): (r: seq<SRField>)
    ensures forall i :: 0 <= i < |r| ==> r[i].field.name !in m
    ensures |r| <= |sr|
  {
    if sr == [] then []
    else Extra(sr[..|sr| - 1], m) + (if sr[|sr| - 1].field.name in m then [] else [sr[|sr| - 1]])
  }

  /** The count check's diagnosis: fields outside the DDL, DDL columns outside the select
      list, both, or, when it finds neither, the bare count mismatch. */
  function CoverageError(extra: seq<SRField>, lacking: set<string>, fields: nat, names: nat): (r: PrepareError)
    ensures extra == [] && lacking == {} ==> r == CountMismatch(fields, names)
    ensures extra != [] && lacking != {} ==> r == NotInDdlNorSelect(extra, lacking)
  {
    if extra != [] && lacking != {} then NotInDdlNorSelect(extra, lacking)
    else if extra != [] then NotInDdl(extra)
    else if lacking != {} then NotInSelect(lacking)
    else CountMismatch(fields, names)
  }

  /** The verdict of PrepareAndValidate as a function of its inputs. */
  function Verdict(cs: seq<Converter>, m: map<string, Field>): Option<PrepareError> {
    var n := |Matched(cs, m)| + |Unmatched(cs, m)|;
    if n == 0 then Some(CkFieldEmpty)
    else if n != |m| then Some(CountMismatch(n, |m|))
    else None
  }

  /** The count check's loop. */
  method CheckCoverage(sr: seq<SRField>, m: map<string, Field>) returns (extra: seq<SRField>, lacking: set<string>)
    ensures extra == Extra(sr, m)
    ensures lacking == m.Keys - FieldNames(sr)
  {
    extra := [];
    lacking := m.Keys;
    var i := 0;
    while i < |sr|
      invariant 0 <= i <= |sr|
      invariant extra == Extra(sr[..i], m)
      invariant lacking == m.Keys - FieldNames(sr[..i])
    {
      assert sr[..i + 1][..i] == sr[..i];
      assert FieldNames(sr[..i + 1]) == FieldNames(sr[..i]) + {sr[i].field.name} by {
        assert forall k :: 0 <= k < i ==> sr[..i + 1][k] == sr[..i][k];
        assert sr[..i + 1][i] == sr[i];
      }
      if sr[i].field.name !in m {
        extra := extra + [sr[i]];
      } else {
        lacking := lacking - {sr[i].field.name};
      }
      i := i + 1;
    }
    assert sr[..i] == sr;
  }

  // ---------------------------------------------------------------------------
  // Lemmas about the specification

  /** The matched entries select columns of the name map. */
  lemma MatchedTargetsKnown(cs: seq<Converter>, m: map<string, Field>)
    requires WellKeyed(m)
    ensures TargetNames(Matched(cs, m)) <= m.Keys
    ensures forall i :: 0 <= i < |Matched(cs, m)| ==>
              Matched(cs, m)[i].srField.field.name == SRNameFor(Matched(cs, m)[i].conv)
  {
  }

  /** The set of the names in a list. */
  function NameSet(s: seq<string>): set<string> {
    set i | 0 <= i < |s| :: s[i]
  }

  predicate DistinctNames(s: seq<string>) {
    forall i, j :: 0 <= i < j < |s| ==> s[i] != s[j]
  }

  lemma NameSetSnoc(p: seq<string>, x: string)
    ensures NameSet(p + [x]) == NameSet(p) + {x}
  {
    var s := p + [x];
    forall n | n in NameSet(s) ensures n in NameSet(p) + {x} {
      var i :| 0 <= i < |s| && s[i] == n;
      if i < |p| {
        assert p[i] == n;
      }
    }
    forall n | n in NameSet(p) ensures n in NameSet(s) {
      var i :| 0 <= i < |p| && p[i] == n;
      assert s[i] == n;
    }
    assert s[|p|] == x;
  }

  /** A list has at most as many distinct names as entries, and exactly as many when no name
      repeats. */
  lemma {:induction false} NameSetCard(s: seq<string>)
    ensures |NameSet(s)| <= |s|
    ensures |NameSet(s)| == |s| <==> DistinctNames(s)
    decreases |s|
  {
    if s != [] {
      var p := s[..|s| - 1];
      var x := s[|s| - 1];
      assert s == p + [x];
      NameSetSnoc(p, x);
      NameSetCard(p);
      if x in NameSet(p) {
        var i :| 0 <= i < |p| && p[i] == x;
        assert s[i] == s[|s| - 1];
      } else {
        assert DistinctNames(s) <==> DistinctNames(p) by {
          if DistinctNames(p) {
            forall i, j | 0 <= i < j < |s| ensures s[i] != s[j] {
              if j < |p| {
                assert p[i] != p[j];
              } else {
                assert p[i] in NameSet(p);
              }
            }
          }
          if DistinctNames(s) {
            forall i, j | 0 <= i < j < |p| ensures p[i] != p[j] {
              assert s[i] != s[j];
            }
          }
        }
      }
    }
  }

  /** Distinct names, and only distinct names, give as many names as entries. */
  lemma TargetNamesCard(es: seq<CKField>)
    ensures |TargetNames(es)| <= |es|
    ensures |TargetNames(es)| == |es| <==> DistinctTargets(es)
  {
    var s := seq(|es|, i requires 0 <= i < |es| => es[i].srField.field.name);
    assert TargetNames(es) == NameSet(s) by {
      forall n | n in TargetNames(es) ensures n in NameSet(s) {
        var i :| 0 <= i < |es| && es[i].srField.field.name == n;
        assert s[i] == n;
      }
    }
    assert forall i :: 0 <= i < |es| ==> s[i] == es[i].srField.field.name;
    assert DistinctTargets(es) <==> DistinctNames(s);
    NameSetCard(s);
  }

  /** Without target columns nothing matches. */
  lemma {:induction false} MatchedOnEmptyMap(cs: seq<Converter>)
    ensures Matched(cs, map[]) == []
    decreases |cs|
  {
    if cs != [] {
      MatchedOnEmptyMap(cs[..|cs| - 1]);
    }
  }

  /** "ck field is empty" is reported exactly when the target table has no columns. */
  lemma VerdictEmptyIffNoColumns(cs: seq<Converter>, m: map<string, Field>)
    requires WellKeyed(m)
    ensures Verdict(cs, m) == Some(CkFieldEmpty) <==> m == map[]
  {
    if m == map[] {
      MatchedOnEmptyMap(cs);
    } else {
      var n :| n in m;
      if n !in TargetNames(Matched(cs, m)) {
        assert n in Unmatched(cs, m);
      }
    }
  }

  /** Once the target table has columns, the view is refused exactly when two origin columns
      feed the same target column. */
  lemma VerdictRefusesSharedTargets(cs: seq<Converter>, m: map<string, Field>)
    requires WellKeyed(m) && m != map[]
    ensures Verdict(cs, m).Some? <==> !DistinctTargets(Matched(cs, m))
    ensures Verdict(cs, m).Some? ==> Verdict(cs, m).value.CountMismatch?
  {
    var mt := Matched(cs, m);
    MatchedTargetsKnown(cs, m);
    VerdictEmptyIffNoColumns(cs, m);
    TargetNamesCard(mt);
    assert m.Keys == TargetNames(mt) + Unmatched(cs, m);
    assert |m.Keys| == |TargetNames(mt)| + |Unmatched(cs, m)|;
  }

  /** Every entry of a padded list selects a column of the map. */
  lemma PaddedKnown(mt: seq<CKField>, m: map<string, Field>, ck: seq<CKField>, sr: seq<SRField>)
    requires TargetNames(mt) <= m.Keys && PaddedShape(mt, m, ck, sr)
    ensures forall i :: 0 <= i < |sr| ==> sr[i].field.name in m
  {
    forall i | 0 <= i < |mt| ensures sr[i].field.name in m {
      assert ck[..|mt|][i] == mt[i];
      assert mt[i].srField.field.name in TargetNames(mt);
    }
  }

  /** Every column of the map is selected by a padded list. */
  lemma PaddedComplete(mt: seq<CKField>, m: map<string, Field>, ck: seq<CKField>, sr: seq<SRField>)
    requires PaddedShape(mt, m, ck, sr)
    ensures m.Keys <= FieldNames(sr)
  {
    forall n | n in m ensures n in FieldNames(sr) {
      if n in TargetNames(mt) {
        var i :| 0 <= i < |mt| && mt[i].srField.field.name == n;
        assert ck[..|mt|][i] == mt[i];
        assert sr[i].field.name == n;
      } else {
        assert n in m.Keys - TargetNames(mt);
        assert n in (set i | |mt| <= i < |sr| :: sr[i].field.name);
        var i :| |mt| <= i < |sr| && sr[i].field.name == n;
        assert sr[i].field.name in FieldNames(sr);
      }
    }
  }

  /** In the prepared state every selected target field is a column of the DDL and every
      column of the DDL is selected, so the count check can only report the bare mismatch. */
  lemma PreparedLeavesNoGap(cs: seq<Converter>, m: map<string, Field>, ck: seq<CKField>, sr: seq<SRField>)
    requires WellKeyed(m) && PreparedShape(cs, m, ck, sr)
    ensures Extra(sr, m) == []
    ensures FieldNames(sr) == m.Keys
    ensures |sr| == |ck| == |Matched(cs, m)| + |Unmatched(cs, m)|
  {
    var mt := Matched(cs, m);
    MatchedTargetsKnown(cs, m);
    PaddedKnown(mt, m, ck, sr);
    PaddedComplete(mt, m, ck, sr);
    AllKnownNoExtra(sr, m);
  }

  /** The checks PrepareAndValidate runs on the prepared lists reach the verdict: "ck field
      is empty" for no entries, the count check's diagnosis when the lengths differ. */
  lemma VerdictOfPrepared(cs: seq<Converter>, m: map<string, Field>, ck: seq<CKField>, sr: seq<SRField>)
    requires WellKeyed(m) && PreparedShape(cs, m, ck, sr)
    ensures Verdict(cs, m) == if |ck| == 0 then Some(CkFieldEmpty)
      else if |sr| != |m| then Some(CoverageError(Extra(sr, m), m.Keys - FieldNames(sr), |sr|, |m|))
      else None
  {
    PreparedLeavesNoGap(cs, m, ck, sr);
    VerdictFromCounts(cs, m, ck, sr);
  }

  lemma VerdictFromCounts(cs: seq<Converter>, m: map<string, Field>, ck: seq<CKField>, sr: seq<SRField>)
    requires Extra(sr, m) == [] && FieldNames(sr) == m.Keys
    requires |sr| == |ck| == |Matched(cs, m)| + |Unmatched(cs, m)|
    ensures Verdict(cs, m) == if |ck| == 0 then Some(CkFieldEmpty)
      else if |sr| != |m| then Some(CoverageError(Extra(sr, m), m.Keys - FieldNames(sr), |sr|, |m|))
      else None
  {
    assert m.Keys - FieldNames(sr) == {};
    assert |m.Keys| == |m|;
  }

  lemma {:induction false} AllKnownNoExtra(sr: seq<SRField>, m: map<string, Field>)
    requires forall i :: 0 <= i < |sr| ==> sr[i].field.name in m
    ensures Extra(sr, m) == []
    decreases |sr|
  {
    if sr != [] {
      AllKnownNoExtra(sr[..|sr| - 1], m);
    }
  }

  // ---------------------------------------------------------------------------
  // The builder

  /** The select clauses of the origin arm. */
  function CkClauses(ck: seq<CKField>): (r: seq<string>)
    ensures |r| == |ck| && forall i :: 0 <= i < |ck| ==> r[i] == ck[i].clause
  {
    seq(|ck|, i requires 0 <= i < |ck| => ck[i].clause)
  }

  /** The select clauses of the target arm. */
  function SrClauses(sr: seq<SRField>): (r: seq<string>)
    ensures |r| == |sr| && forall i :: 0 <= i < |sr| ==> r[i] == sr[i].clause
  {
    seq(|sr|, i requires 0 <= i < |sr| => sr[i].clause)
  }

  /** Why BuildWithType or BuildAlterWithPartition produced no statement. */
  datatype ViewError = Invalid(invalid: PrepareError) | SqlFailed(failure: SqlError)

  /** ViewBuilder with its two table builders folded in: the origin (ClickHouse) table read
      through the catalog, the target (StarRocks) table and its name map, and the select
      entries PrepareAndValidate rebuilds. */
  class ViewBuilder {
    const converters: seq<Converter>
    const ckDBName: string
    const ckName: string
    const catalogName: string
    const srDBName: string
    const srName: string
    const srColumns: seq<Field>
    const nameMap: map<string, Field>
    const viewName: string
    const dbName: string
    const tsConfig: TsConfig
    var ckFields: seq<CKField>
    var srFields: seq<SRField>

    /** The name map is the one built from the target DDL's columns. */
    predicate Valid() {
      nameMap == NameMapOf(srColumns)
    }

    /** The select entries are those of the prepared state. */
    predicate Prepared()
      reads this
    {
      PreparedShape(converters, nameMap, ckFields, srFields)
    }

    /** NewBuilder: the view takes the origin table's name and the target database. */
    constructor (fieldConverters: seq<Converter>, srFieldList: seq<Field>,
                 ckDB: string, ckTable: string, ckCatalog: string, srDB: string, srTable: string, cfg: TsConfig)
      ensures Valid()
      ensures converters == fieldConverters && srColumns == srFieldList
      ensures ckDBName == ckDB && ckName == ckTable && catalogName == ckCatalog
      ensures srDBName == srDB && srName == srTable && tsConfig == cfg
      ensures viewName == ckTable && dbName == srDB
      ensures ckFields == [] && srFields == []
    {
      var m := BuildNameMap(srFieldList);
      converters := fieldConverters;
      srColumns := srFieldList;
      nameMap := m;
      ckDBName := ckDB;
      ckName := ckTable;
      catalogName := ckCatalog;
      srDBName := srDB;
      srName := srTable;
      tsConfig := cfg;
      viewName := ckTable;
      dbName := srDB;
      ckFields := [];
      srFields := [];
    }

    /** PrepareAndValidate: rebuilds both select lists and validates them. */
    method PrepareAndValidate() returns (err: Option<PrepareError>)
      requires Valid()
      modifies this
      ensures Prepared()
      ensures err == Verdict(converters, nameMap)
    {
      ckFields := [];
      srFields := [];
      var ck, sr := MatchAll(converters, nameMap);
      ck, sr := PadAll(ck, sr, nameMap);
      ckFields, srFields := ck, sr;
      VerdictOfPrepared(converters, nameMap, ck, sr);
      if |ck| == 0 {
        return Some(CkFieldEmpty);
      }
      if |sr| != |nameMap| {
        var extra, lacking := CheckCoverage(sr, nameMap);
        return Some(CoverageError(extra, lacking, |sr|, |nameMap|));
      }
      return None;
    }

    /** CKTableBuilder.GenQuerySQL */
    method CkGenQuerySQL() returns (q: string)
      ensures q == CkQuery(catalogName, ckDBName, ckName, CkClauses(ckFields))
    {
      var clauses := CkClauses(ckFields);
      var list := BuildSelectList(clauses);
      q := "select \n " + list + "from " + catalogName + "." + ckDBName + "." + ckName;
    }

    /** SRTableBuilder.GenQuerySQL */
    method SrGenQuerySQL() returns (q: string)
      ensures q == SrQuery(srDBName, srName, SrClauses(srFields))
    {
      var clauses := SrClauses(srFields);
      var list := BuildSelectList(clauses);
      q := "select \n " + list + " from " + srDBName + "." + srName + " \n";
    }

    /** BuildWithType: validation first, then the two queries and the statement; `outcome`
        is what the minimum-timestamp query on the target table returned. */
    method BuildWithType(sqlType: string, outcome: MinOutcome) returns (r: Result<string, ViewError>)
      requires Valid()
      modifies this
      ensures Prepared()
      ensures Verdict(converters, nameMap).Some? ==> r == Err(Invalid(Verdict(converters, nameMap).value))
      ensures Verdict(converters, nameMap).None? ==>
        var view := GenViewSQL(sqlType, dbName, viewName, CkQuery(catalogName, ckDBName, ckName, CkClauses(ckFields)),
                               SrQuery(srDBName, srName, SrClauses(srFields)), tsConfig, srName, outcome);
        (view.Ok? ==> r == Ok(view.value)) && (view.Err? ==> r == Err(SqlFailed(view.error)))
    {
      var err := PrepareAndValidate();
      if err.Some? {
        return Err(Invalid(err.value));
      }
      var ckQ := CkGenQuerySQL();
      var srQ := SrGenQuerySQL();
      var view := GenViewSQL(sqlType, dbName, viewName, ckQ, srQ, tsConfig, srName, outcome);
      if view.Err? {
        return Err(SqlFailed(view.error));
      }
      return Ok(view.value);
    }

    /** BuildAlterWithPartition: an ALTER VIEW whose boundary is the given partition value,
        checked against the timestamp column's type; `parses` stands for time.Parse. */
    method BuildAlterWithPartition(partitionValue: string, parses: (string, string) -> bool)
      returns (r: Result<string, ViewError>)
      requires Valid()
      modifies this
      ensures Prepared()
      ensures Verdict(converters, nameMap).Some? ==> r == Err(Invalid(Verdict(converters, nameMap).value))
      ensures Verdict(converters, nameMap).None? ==>
        var b := PartitionBoundary(ToLower(TimestampColumnType(tsConfig, srName)), partitionValue, parses);
        (b.Err? ==> r == Err(SqlFailed(b.error)))
        && (b.Ok? ==> r == Ok(ComposeFinalSQL(SQLTypeAlter, dbName, viewName,
                                 CkQuery(catalogName, ckDBName, ckName, CkClauses(ckFields)),
                                 SrQuery(srDBName, srName, SrClauses(srFields)),
                                 TimestampColumnName(tsConfig, srName), b.value)))
    {
      var err := PrepareAndValidate();
      if err.Some? {
        return Err(Invalid(err.value));
      }
      var ckQ := CkGenQuerySQL();
      var srQ := SrGenQuerySQL();
      var entry := LookupTimestamp(tsConfig, srName);
      var column := if entry.Some? then entry.value.column else "recordTimestamp";
      var typ := ToLower(if entry.Some? then entry.value.typ else "bigint");
      var b := PartitionBoundary(typ, partitionValue, parses);
      if b.Err? {
        return Err(SqlFailed(b.error));
      }
      return Ok(ComposeFinalSQL(SQLTypeAlter, dbName, viewName, ckQ, srQ, column, b.value));
    }
  }
}
