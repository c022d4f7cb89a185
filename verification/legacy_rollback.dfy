/** The single-phase rollback of rollback.go: drop every StarRocks view, drop the pair's
    catalog, rename the suffixed native tables back, and drop the added ClickHouse columns, in
    that order, the first failing step ending the run. */
module LegacyRollback {
  import opened Wrappers
  import opened Text
  import opened FieldConverter
  import opened RollbackSql
  import opened Warehouse
  import opened RollbackRun

  /** What the legacy rollback needs of a configured pair. */
  datatype LegacyPair = LegacyPair(name: string, srDB: string, ckDB: string, suffix: string, catalog: string)

  /** The four steps, in the order they run. */
  datatype LegacyStep = ViewsStep | CatalogStep | SuffixStep | ColumnsStep

  /** The step a statement belongs to, as a position in the step order. */
  function Rank(s: Stmt): nat {
    match s
    case DropView(_) => 0
    case DropCatalog(_) => 1
    case RenameTable(_, _) => 2
    case DropCkColumn(_, _) => 3
  }

  function StepRank(k: LegacyStep): nat {
    match k
    case ViewsStep => 0
    case CatalogStep => 1
    case SuffixStep => 2
    case ColumnsStep => 3
  }

  /** Statements sent in step order. */
  predicate InStepOrder(ss: seq<Stmt>) {
    forall i, j :: 0 <= i < j < |ss| ==> Rank(ss[i]) <= Rank(ss[j])
  }

  /** Every statement belongs to step `k`. */
  predicate AllOfStep(ss: seq<Stmt>, k: nat) {
    forall s :: s in ss ==> Rank(s) == k
  }

  /** Batches of successive steps, one after the other, are in step order. */
  lemma StepsInOrder(a: seq<Stmt>, b: seq<Stmt>, c: seq<Stmt>, d: seq<Stmt>)
    requires AllOfStep(a, 0) && AllOfStep(b, 1) && AllOfStep(c, 2) && AllOfStep(d, 3)
    ensures InStepOrder(a + b + c + d)
  {
    var ss := a + b + c + d;
    forall i, j | 0 <= i < j < |ss|
      ensures Rank(ss[i]) <= Rank(ss[j])
    {
      assert ss[i] in a || ss[i] in b || ss[i] in c || ss[i] in d;
      assert ss[j] in a || ss[j] in b || ss[j] in c || ss[j] in d;
      if j < |a| {
        assert ss[i] == a[i] && ss[j] == a[j];
      } else if j < |a| + |b| {
        assert ss[j] == b[j - |a|];
      } else if j < |a| + |b| + |c| {
        assert ss[j] == c[j - |a| - |b|];
        assert i < |a| + |b| ==> ss[i] in a + b;
      } else {
        assert ss[j] == d[j - |a| - |b| - |c|];
      }
    }
  }

  /** A run that appends the batches of successive steps: they follow what was sent before,
      in step order, and each statement comes from one of them. */
  lemma RunShape(sent0: seq<Stmt>, a: seq<Stmt>, b: seq<Stmt>, c: seq<Stmt>, d: seq<Stmt>)
    requires AllOfStep(a, 0) && AllOfStep(b, 1) && AllOfStep(c, 2) && AllOfStep(d, 3)
    ensures var x := a + b + c + d;
      (sent0 + x)[..|sent0|] == sent0 && (sent0 + x)[|sent0|..] == x && InStepOrder(x)
      && forall s :: s in x ==> s in a || s in b || s in c || s in d
  {
    StepsInOrder(a, b, c, d);
    var x := a + b + c + d;
    assert (sent0 + x)[|sent0|..] == x;
    assert (sent0 + x)[..|sent0|] == sent0;
  }

  // ---------------------------------------------------------------------------
  // dropAllViews, dropCatalog

  /** What one step did: the state after it, the statements it sent, and whether it failed. */
  datatype StepRun = StepRun(world: World, sent: seq<Stmt>, err: bool)

  /** The listed names whose view check succeeds and reports a view, in listing order. */
  function LegacyViews(w: World, names: seq<string>): (r: seq<string>)
    ensures forall n :: n in r <==>
      (n in names && n !in w.typeLookupFails && n in w.sr && IsViewType(w.sr[n]))
  {
    Keep(names, n => n !in w.typeLookupFails && n in w.sr && IsViewType(w.sr[n]))
  }

  /** One more name on the listing: kept when it is a view whose type was read. */
  lemma LegacyViewsSnoc(w: World, names: seq<string>, i: nat)
    requires i < |names|
    ensures LegacyViews(w, names[..i + 1]) == LegacyViews(w, names[..i])
      + (if names[i] !in w.typeLookupFails && names[i] in w.sr && IsViewType(w.sr[names[i]]) then [names[i]] else [])
  {
    KeepSnoc(names[..i], names[i], n => n !in w.typeLookupFails && n in w.sr && IsViewType(w.sr[n]));
    assert names[..i + 1] == names[..i] + [names[i]];
  }

  /** One DROP VIEW per name, in order. */
  function DropViews(views: seq<string>): (r: seq<Stmt>)
    ensures |r| == |views| && forall i :: 0 <= i < |views| ==> r[i] == DropView(views[i])
    ensures AllOfStep(r, 0)
  {
    seq(|views|, i requires 0 <= i < |views| => DropView(views[i]))
  }

  /** The statements the view step sends are the ones the view builder renders. */
  lemma DropViewsAreBuilderSQL(srDB: string, ckDB: string, views: seq<string>, i: nat)
    requires i < |views|
    ensures StmtSQL(srDB, ckDB, DropViews(views)[i]) == DropViewSQL(srDB, views[i])
  {
  }

  /** A batch without DROP CATALOG leaves the catalogs alone. */
  lemma {:induction false} CatalogsKept(w: World, ss: seq<Stmt>)
    requires forall s :: s in ss ==> !s.DropCatalog?
    ensures ExecuteAll(w, ss).world.catalogs == w.catalogs
    decreases |ss|
  {
    if ss != [] {
      assert ss[0] in ss;
      assert forall s :: s in ss[1..] ==> s in ss;
      if Apply(w, ss[0]).Some? {
        CatalogsKept(Apply(w, ss[0]).value, ss[1..]);
      }
    }
  }

  /** A batch of DROP VIEWs removes nothing but views. */
  lemma {:induction false} DropViewsKeep(w: World, views: seq<string>)
    ensures var e := ExecuteAll(w, DropViews(views));
      (forall n :: n in e.world.sr ==> n in w.sr && e.world.sr[n] == w.sr[n])
      && (forall n :: n in w.sr && !IsViewType(w.sr[n]) ==> n in e.world.sr)
    decreases |views|
  {
    if views != [] {
      var ss := DropViews(views);
      assert ss[1..] == DropViews(views[1..]);
      if Apply(w, ss[0]).Some? {
        var w1 := Apply(w, ss[0]).value;
        DropViewsKeep(w1, views[1..]);
        assert ExecuteAll(w, ss).world == ExecuteAll(w1, ss[1..]).world;
      }
    }
  }

  /** A batch of DROP VIEWs that succeeds leaves none of its views behind. */
  lemma {:induction false} DropViewsGone(w: World, views: seq<string>)
    ensures var e := ExecuteAll(w, DropViews(views));
      e.ok ==> forall v :: v in views ==> !(v in e.world.sr && IsViewType(e.world.sr[v]))
    decreases |views|
  {
    if views != [] {
      var ss := DropViews(views);
      assert ss[1..] == DropViews(views[1..]);
      if Apply(w, ss[0]).Some? {
        var w1 := Apply(w, ss[0]).value;
        var rest := ExecuteAll(w1, ss[1..]);
        assert ExecuteAll(w, ss) == Executed(rest.world, [ss[0]] + rest.sent, rest.ok);
        DropViewsGone(w1, views[1..]);
        DropViewsKeep(w1, views[1..]);
        assert forall v :: v in views ==> v == views[0] || v in views[1..];
      }
    }
  }

  /** A batch of DROP VIEWs that succeeds leaves none of its views behind, and removes
      nothing but views. */
  lemma DropViewsRemove(w: World, views: seq<string>)
    ensures var e := ExecuteAll(w, DropViews(views));
      (forall n :: n in e.world.sr ==> n in w.sr && e.world.sr[n] == w.sr[n])
      && (forall n :: n in w.sr && !IsViewType(w.sr[n]) ==> n in e.world.sr)
      && (e.ok ==> forall v :: v in views ==> !(v in e.world.sr && IsViewType(e.world.sr[v])))
  {
    DropViewsKeep(w, views);
    DropViewsGone(w, views);
  }

  /** dropAllViews: fails on a failed listing; otherwise drops the views, sending nothing when
      there are none. */
  function ViewsRun(w: World, names: seq<string>): (r: StepRun)
    ensures AllOfStep(r.sent, 0)
    ensures w.listingFails ==> r == StepRun(w, [], true)
    ensures r.world.catalogs == w.catalogs && r.world.nonNative == w.nonNative
      && r.world.ck == w.ck && SameFaults(r.world, w)
    ensures forall n :: n in r.world.sr ==> n in w.sr && r.world.sr[n] == w.sr[n]
    ensures forall n :: n in w.sr && !IsViewType(w.sr[n]) ==> n in r.world.sr
    ensures !r.err ==> forall v :: v in names && v !in w.typeLookupFails ==> !(v in r.world.sr && IsViewType(r.world.sr[v]))
  {
    if w.listingFails then StepRun(w, [], true)
    else
      var views := LegacyViews(w, names);
      if views == [] then StepRun(w, [], false)
      else
        var e := ExecuteAll(w, DropViews(views));
        CatalogsKept(w, DropViews(views));
        DropViewsRemove(w, views);
        DropViewsKeepCk(w, views);
        StepRun(e.world, e.sent, !e.ok)
  }

  /** DROP VIEWs leave the ClickHouse side and the table kinds alone. */
  lemma {:induction false} DropViewsKeepCk(w: World, views: seq<string>)
    ensures ExecuteAll(w, DropViews(views)).world.ck == w.ck
    ensures ExecuteAll(w, DropViews(views)).world.nonNative == w.nonNative
    decreases |views|
  {
    if views != [] {
      assert DropViews(views)[1..] == DropViews(views[1..]);
      if Apply(w, DropViews(views)[0]).Some? {
        DropViewsKeepCk(Apply(w, DropViews(views)[0]).value, views[1..]);
      }
    }
  }

  /** dropCatalog: an empty catalog name is an error and sends nothing; otherwise one
      DROP CATALOG IF EXISTS, which on success leaves the catalog gone. */
  function CatalogRun(w: World, catalog: string): (r: StepRun)
    ensures AllOfStep(r.sent, 1)
    ensures catalog == "" ==> r == StepRun(w, [], true)
    ensures catalog != "" ==> r.sent == [Stmt.DropCatalog(catalog)]
    ensures r.world.sr == w.sr && r.world.nonNative == w.nonNative && r.world.ck == w.ck && SameFaults(r.world, w)
    ensures !r.err ==> catalog !in r.world.catalogs && r.world.catalogs == w.catalogs - {catalog}
    ensures catalog != "" ==> (r.err <==> Stmt.DropCatalog(catalog) in w.failing)
  {
    if catalog == "" then StepRun(w, [], true)
    else
      ExecuteSingle(w, Stmt.DropCatalog(catalog));
      var e := ExecuteAll(w, [Stmt.DropCatalog(catalog)]);
      StepRun(e.world, e.sent, !e.ok)
  }

  // ---------------------------------------------------------------------------
  // removeSRTableSuffix

  /** The rename candidates: listed names ending in the suffix whose checks succeed and report
      a native table that is not a view, in listing order. */
  function RenameCandidates(w: World, names: seq<string>, suffix: string): (r: seq<string>)
    ensures forall n :: n in r <==>
      (n in names && HasSuffix(n, suffix) && n !in w.typeLookupFails
       && !(n in w.sr && IsViewType(w.sr[n])) && n !in w.nonNative)
  {
    Keep(names, n => IsCandidate(w, n, suffix))
  }

  predicate IsCandidate(w: World, n: string, suffix: string) {
    HasSuffix(n, suffix) && n !in w.typeLookupFails && !(n in w.sr && IsViewType(w.sr[n])) && n !in w.nonNative
  }

  /** The candidates among one more listed name. */
  lemma CandidatesSnoc(w: World, names: seq<string>, i: nat, suffix: string)
    requires i < |names|
    ensures RenameCandidates(w, names[..i + 1], suffix) ==
      RenameCandidates(w, names[..i], suffix) + (if IsCandidate(w, names[i], suffix) then [names[i]] else [])
  {
    assert names[..i + 1] == names[..i] + [names[i]];
    KeepSnoc(names[..i], names[i], n => IsCandidate(w, n, suffix));
  }

  /** Filtering a list of distinct names keeps them distinct. */
  lemma {:induction false} KeepDistinct(ns: seq<string>, keep: string -> bool)
    requires Distinct(ns)
    ensures Distinct(Keep(ns, keep))
    decreases |ns|
  {
    if ns != [] {
      var init := ns[..|ns| - 1];
      var last := ns[|ns| - 1];
      assert Distinct(init) by {
        forall i, j | 0 <= i < j < |init| ensures init[i] != init[j] {
          assert init[i] == ns[i] && init[j] == ns[j];
        }
      }
      KeepDistinct(init, keep);
      assert last !in init by {
        forall i | 0 <= i < |init| ensures init[i] != last {
          assert init[i] == ns[i];
        }
      }
      var k := Keep(init, keep);
      assert last !in k;
      var r := Keep(ns, keep);
      if keep(last) {
        assert r == k + [last];
        forall i, j | 0 <= i < j < |r| ensures r[i] != r[j] {
          if j == |k| {
            assert r[i] == k[i];
            assert k[i] in k;
          } else {
            assert r[i] == k[i] && r[j] == k[j];
          }
        }
      }
    }
  }

  /** Each candidate with the suffix removed. */
  function Stripped(cands: seq<string>, suffix: string): (r: seq<string>)
    ensures |r| == |cands| && forall i :: 0 <= i < |cands| ==> r[i] == TrimSuffix(cands[i], suffix)
  {
    seq(|cands|, i requires 0 <= i < |cands| => TrimSuffix(cands[i], suffix))
  }

  /** The conflicting names: stripped candidates that are already listed, one per candidate. */
  function ConflictsOf(names: seq<string>, cands: seq<string>, suffix: string): (r: seq<string>)
    ensures forall n :: n in r <==> n in names && n in Stripped(cands, suffix)
  {
    Keep(Stripped(cands, suffix), n => n in names)
  }

  /** There is no conflict exactly when no candidate's suffix-free name is listed. */
  lemma NoConflictIff(names: seq<string>, cands: seq<string>, suffix: string)
    ensures ConflictsOf(names, cands, suffix) == [] <==>
      forall i :: 0 <= i < |cands| ==> TrimSuffix(cands[i], suffix) !in names
  {
    var r := ConflictsOf(names, cands, suffix);
    var st := Stripped(cands, suffix);
    if r != [] {
      assert r[0] in r;
      var k :| 0 <= k < |st| && st[k] == r[0];
      assert TrimSuffix(cands[k], suffix) in names;
    } else {
      forall i | 0 <= i < |cands| ensures TrimSuffix(cands[i], suffix) !in names {
        assert st[i] in st;
      }
    }
  }

  /** The conflicts of one more candidate. */
  lemma ConflictsSnoc(names: seq<string>, cands: seq<string>, c: string, suffix: string)
    ensures ConflictsOf(names, cands + [c], suffix) ==
      ConflictsOf(names, cands, suffix) + (if TrimSuffix(c, suffix) in names then [TrimSuffix(c, suffix)] else [])
  {
    assert Stripped(cands + [c], suffix) == Stripped(cands, suffix) + [TrimSuffix(c, suffix)];
    KeepSnoc(Stripped(cands, suffix), TrimSuffix(c, suffix), n => n in names);
  }

  /** One rename per candidate, to the name without the suffix. */
  function Renames(cands: seq<string>, suffix: string): (r: seq<Stmt>)
    ensures |r| == |cands| && forall i :: 0 <= i < |cands| ==> r[i] == RenameTable(cands[i], TrimSuffix(cands[i], suffix))
    ensures AllOfStep(r, 2)
  {
    seq(|cands|, i requires 0 <= i < |cands| => RenameTable(cands[i], TrimSuffix(cands[i], suffix)))
  }

  /** The renames are the ones the table builder renders for the candidates: every candidate
      ends in the suffix, so the builder keeps all of them. */
  lemma RenamesAreBuilderSQL(w: World, names: seq<string>, suffix: string)
    ensures Suffixed(RenameCandidates(w, names, suffix), suffix) == RenameCandidates(w, names, suffix)
  {
    KeepAll(RenameCandidates(w, names, suffix), n => HasSuffix(n, suffix));
  }

  /** The suffix-free name of a suffixed table determines the table. */
  lemma StrippedInjective(a: string, b: string, suffix: string)
    requires HasSuffix(a, suffix) && HasSuffix(b, suffix) && TrimSuffix(a, suffix) == TrimSuffix(b, suffix)
    ensures a == b
  {
  }

  /** The renames can all run: every candidate is present, no suffix-free name is taken, and no
      rename fails. */
  ghost predicate RenamesReady(w: World, cands: seq<string>, suffix: string) {
    Distinct(cands)
    && (forall c :: c in cands ==> HasSuffix(c, suffix) && c in w.sr && TrimSuffix(c, suffix) !in w.sr)
    && (forall c :: c in cands ==> RenameTable(c, TrimSuffix(c, suffix)) !in w.failing)
  }

  /** The first rename keeps the rest ready, and the rest touches neither of its names. */
  lemma RenamesReadyRest(w: World, cands: seq<string>, suffix: string)
    requires cands != [] && RenamesReady(w, cands, suffix)
    ensures var c0 := cands[0]; var s0 := TrimSuffix(c0, suffix);
      Apply(w, RenameTable(c0, s0)) == Some(w.(sr := (w.sr - {c0})[s0 := w.sr[c0]]))
      && RenamesReady(w.(sr := (w.sr - {c0})[s0 := w.sr[c0]]), cands[1..], suffix)
      && c0 !in cands[1..] && s0 !in cands[1..]
      && c0 !in Stripped(cands[1..], suffix) && s0 !in Stripped(cands[1..], suffix)
  {
    var c0 := cands[0];
    var s0 := TrimSuffix(c0, suffix);
    var rest := cands[1..];
    assert c0 in cands;
    var w1 := w.(sr := (w.sr - {c0})[s0 := w.sr[c0]]);
    assert c0 !in rest by {
      forall k | 0 <= k < |rest| ensures rest[k] != c0 {
        assert rest[k] == cands[k + 1];
      }
    }
    assert forall c :: c in rest ==> c in cands;
    forall c | c in rest
      ensures HasSuffix(c, suffix) && c in w1.sr && TrimSuffix(c, suffix) !in w1.sr
    {
      if TrimSuffix(c, suffix) == s0 {
        StrippedInjective(c, c0, suffix);
      }
    }
    assert Distinct(rest) by {
      forall i, j | 0 <= i < j < |rest| ensures rest[i] != rest[j] {
        assert rest[i] == cands[i + 1] && rest[j] == cands[j + 1];
      }
    }
    forall k | 0 <= k < |rest|
      ensures Stripped(rest, suffix)[k] != c0 && Stripped(rest, suffix)[k] != s0
    {
      assert rest[k] in rest;
    }
  }

  /** The first rename and the rest of the batch. */
  lemma RenamesCons(cands: seq<string>, suffix: string)
    requires cands != []
    ensures Renames(cands, suffix)[0] == RenameTable(cands[0], TrimSuffix(cands[0], suffix))
    ensures Renames(cands, suffix)[1..] == Renames(cands[1..], suffix)
    ensures forall n :: n in Stripped(cands, suffix) <==> n == TrimSuffix(cands[0], suffix) || n in Stripped(cands[1..], suffix)
  {
    var st := Stripped(cands, suffix);
    var st1 := Stripped(cands[1..], suffix);
    assert st == [st[0]] + st1;
  }

  /** The renames, applied to a state where they are ready, all succeed: each candidate is gone
      and its suffix-free name holds its type; every other name is left alone. */
  lemma {:induction false} RenamesApply(w: World, cands: seq<string>, suffix: string)
    requires RenamesReady(w, cands, suffix)
    ensures var e := ExecuteAll(w, Renames(cands, suffix));
      e.ok
      && (forall c :: c in cands ==>
            c !in e.world.sr && TrimSuffix(c, suffix) in e.world.sr && e.world.sr[TrimSuffix(c, suffix)] == w.sr[c])
      && (forall n :: n !in cands && n !in Stripped(cands, suffix) ==>
            (n in e.world.sr <==> n in w.sr) && (n in w.sr ==> e.world.sr[n] == w.sr[n]))
    decreases |cands|
  {
    if cands != [] {
      var c0 := cands[0];
      var s0 := TrimSuffix(c0, suffix);
      var rest := cands[1..];
      RenamesCons(cands, suffix);
      RenamesReadyRest(w, cands, suffix);
      var w1 := w.(sr := (w.sr - {c0})[s0 := w.sr[c0]]);
      RenamesApply(w1, rest, suffix);
      var e := ExecuteAll(w1, Renames(rest, suffix));
      assert ExecuteAll(w, Renames(cands, suffix)) == Executed(e.world, [RenameTable(c0, s0)] + e.sent, e.ok);
      forall c | c in cands
        ensures c !in e.world.sr && TrimSuffix(c, suffix) in e.world.sr && e.world.sr[TrimSuffix(c, suffix)] == w.sr[c]
      {
        if c != c0 {
          assert c in rest;
          assert w1.sr[c] == w.sr[c];
        }
      }
      forall n | n !in cands && n !in Stripped(cands, suffix)
        ensures (n in e.world.sr <==> n in w.sr) && (n in w.sr ==> e.world.sr[n] == w.sr[n])
      {
        assert n != c0 && n != s0 && n !in rest;
      }
    }
  }

  /** removeSRTableSuffix: nothing to do without a suffix; a failed listing is an error; no
      candidates is success; a conflict refuses the whole step; otherwise one rename batch. */
  function SuffixRun(w: World, names: seq<string>, suffix: string): (r: StepRun)
    ensures AllOfStep(r.sent, 2)
    ensures suffix == "" ==> r == StepRun(w, [], false)
    ensures suffix != "" && w.listingFails ==> r == StepRun(w, [], true)
    ensures r.world.catalogs == w.catalogs && r.world.nonNative == w.nonNative
      && r.world.ck == w.ck && SameFaults(r.world, w)
    ensures forall v :: v in r.world.sr && IsViewType(r.world.sr[v]) ==> v in w.sr && IsViewType(w.sr[v])
  {
    if suffix == "" then StepRun(w, [], false)
    else if w.listingFails then StepRun(w, [], true)
    else
      var cands := RenameCandidates(w, names, suffix);
      if cands == [] then StepRun(w, [], false)
      else if ConflictsOf(names, cands, suffix) != [] then StepRun(w, [], true)
      else
        var e := ExecuteAll(w, Renames(cands, suffix));
        CatalogsKept(w, Renames(cands, suffix));
        RenamesKeepCk(w, Renames(cands, suffix));
        RenamesMakeNoView(w, cands, suffix);
        StepRun(e.world, e.sent, !e.ok)
  }

  /** Renames leave the ClickHouse side and the table kinds alone. */
  lemma {:induction false} RenamesKeepCk(w: World, ss: seq<Stmt>)
    requires forall s :: s in ss ==> s.RenameTable?
    ensures ExecuteAll(w, ss).world.ck == w.ck && ExecuteAll(w, ss).world.nonNative == w.nonNative
    decreases |ss|
  {
    if ss != [] {
      assert ss[0] in ss;
      assert forall s :: s in ss[1..] ==> s in ss;
      if Apply(w, ss[0]).Some? {
        RenamesKeepCk(Apply(w, ss[0]).value, ss[1..]);
      }
    }
  }

  /** Renaming tables that are not views creates no view: every view after the batch was a
      view under the same name before it. */
  lemma {:induction false} RenamesMakeNoView(w: World, cands: seq<string>, suffix: string)
    requires forall c :: c in cands ==> !(c in w.sr && IsViewType(w.sr[c]))
    ensures var e := ExecuteAll(w, Renames(cands, suffix));
      forall v :: v in e.world.sr && IsViewType(e.world.sr[v]) ==> v in w.sr && IsViewType(w.sr[v])
    decreases |cands|
  {
    if cands != [] {
      RenamesCons(cands, suffix);
      var ss := Renames(cands, suffix);
      if Apply(w, ss[0]).Some? {
        var w1 := Apply(w, ss[0]).value;
        assert cands[0] in cands;
        assert forall v :: v in w1.sr && IsViewType(w1.sr[v]) ==> v in w.sr && IsViewType(w.sr[v]);
        assert forall c :: c in cands[1..] ==> c in cands;
        RenamesMakeNoView(w1, cands[1..], suffix);
        assert ExecuteAll(w, ss).world == ExecuteAll(w1, ss[1..]).world;
      }
    }
  }

  /** When the suffix step succeeds on a listing of the whole database, every candidate has
      moved to its suffix-free name with its type, and the suffixed name is gone. */
  lemma SuffixRunSucceeded(w: World, names: seq<string>, suffix: string)
    requires suffix != "" && !w.listingFails
    requires (forall n :: n in names <==> n in w.sr) && Distinct(names)
    requires !SuffixRun(w, names, suffix).err
    ensures var r := SuffixRun(w, names, suffix).world;
      forall c :: c in w.sr && IsCandidate(w, c, suffix) ==>
        c !in r.sr && TrimSuffix(c, suffix) in r.sr && r.sr[TrimSuffix(c, suffix)] == w.sr[c]
  {
    var cands := RenameCandidates(w, names, suffix);
    if cands != [] {
      assert ConflictsOf(names, cands, suffix) == [];
      var ss := Renames(cands, suffix);
      ExecuteOkNotFailing(w, ss);
      forall c | c in cands ensures RenameTable(c, TrimSuffix(c, suffix)) !in w.failing {
        var i :| 0 <= i < |cands| && cands[i] == c;
        assert ss[i] in ss;
      }
      KeepDistinct(names, n => IsCandidate(w, n, suffix));
      NoConflictIff(names, cands, suffix);
      forall c | c in cands ensures TrimSuffix(c, suffix) !in w.sr {
        var i :| 0 <= i < |cands| && cands[i] == c;
      }
      RenamesApply(w, cands, suffix);
    }
  }

  /** On a listing of the whole database with no conflict and no failing rename, the suffix
      step succeeds, and every candidate ends up under its suffix-free name with its type while
      every other table keeps its name. */
  lemma SuffixRunRestores(w: World, names: seq<string>, suffix: string)
    requires suffix != "" && !w.listingFails
    requires (forall n :: n in names <==> n in w.sr) && Distinct(names)
    requires ConflictsOf(names, RenameCandidates(w, names, suffix), suffix) == []
    requires forall n :: n in w.sr ==> RenameTable(n, TrimSuffix(n, suffix)) !in w.failing
    ensures var r := SuffixRun(w, names, suffix); var cands := RenameCandidates(w, names, suffix);
      !r.err
      && (forall c :: c in cands ==>
            c !in r.world.sr && TrimSuffix(c, suffix) in r.world.sr && r.world.sr[TrimSuffix(c, suffix)] == w.sr[c])
      && (forall n :: n !in cands && n !in Stripped(cands, suffix) ==>
            (n in r.world.sr <==> n in w.sr) && (n in w.sr ==> r.world.sr[n] == w.sr[n]))
  {
    var cands := RenameCandidates(w, names, suffix);
    if cands != [] {
      KeepDistinct(names, n => IsCandidate(w, n, suffix));
      NoConflictIff(names, cands, suffix);
      forall c | c in cands ensures TrimSuffix(c, suffix) !in w.sr {
        var i :| 0 <= i < |cands| && cands[i] == c;
      }
      RenamesApply(w, cands, suffix);
    }
  }

  /** A conflict refuses the step and sends nothing. */
  lemma SuffixRunRefusesConflict(w: World, names: seq<string>, suffix: string, c: string)
    requires suffix != "" && !w.listingFails
    requires c in RenameCandidates(w, names, suffix) && TrimSuffix(c, suffix) in names
    ensures SuffixRun(w, names, suffix) == StepRun(w, [], true)
  {
    var cands := RenameCandidates(w, names, suffix);
    var i :| 0 <= i < |cands| && cands[i] == c;
    NoConflictIff(names, cands, suffix);
  }

  // ---------------------------------------------------------------------------
  // dropCKAddedColumns

  /** A column list without added columns. */
  predicate NoAddedColumns(cols: seq<string>) {
    forall c :: c in cols ==> !IsAddedColumnByName(c)
  }

  /** A CK table the column step can clean: its DDL parses and none of its drops fail. */
  predicate Cleanable(w: World, t: string) {
    t !in w.columnLookupFails
    && forall c :: c in ColumnsOf(w, t) && IsAddedColumnByName(c) ==> DropCkColumn(t, c) !in w.failing
  }

  /** Filtering the listing for views, as the view step does. */
  method CollectViews(db: Database, names: seq<string>) returns (views: seq<string>)
    ensures views == LegacyViews(db.world, names)
  {
    ghost var w := db.world;
    views := [];
    for i := 0 to |names|
      invariant views == LegacyViews(w, names[..i])
    {
      var isView := db.IsView(names[i]);
      LegacyViewsSnoc(w, names, i);
      if isView.Some? && isView.value {
        views := views + [names[i]];
      }
    }
    assert names[..|names|] == names;
  }

  /** Whether a name is on the listing. */
  method Listed(names: seq<string>, x: string) returns (found: bool)
    ensures found <==> x in names
  {
    found := false;
    for j := 0 to |names|
      invariant found <==> x in names[..j]
    {
      assert names[..j + 1] == names[..j] + [names[j]];
      if names[j] == x {
        found := true;
        assert x in names[..j + 1];
        break;
      }
    }
    if !found {
      assert names[..|names|] == names;
    }
  }

  /** Filtering the listing for rename candidates and collecting their conflicts, as the
      suffix step does. */
  method CollectCandidates(db: Database, names: seq<string>, suffix: string)
    returns (cands: seq<string>, conflicts: seq<string>)
    ensures cands == RenameCandidates(db.world, names, suffix)
    ensures conflicts == ConflictsOf(names, cands, suffix)
  {
    ghost var w := db.world;
    cands := [];
    conflicts := [];
    for i := 0 to |names|
      invariant cands == RenameCandidates(w, names[..i], suffix)
      invariant conflicts == ConflictsOf(names, cands, suffix)
    {
      var name := names[i];
      CandidatesSnoc(w, names, i, suffix);
      if HasSuffix(name, suffix) {
        var isView := db.IsView(name);
        if isView.Some? && !isView.value {
          var isNative := db.IsNative(name);
          if isNative.Some? && isNative.value {
            ConflictsSnoc(names, cands, name, suffix);
            cands := cands + [name];
            var original := TrimSuffix(name, suffix);
            var found := Listed(names, original);
            if found {
              conflicts := conflicts + [original];
            }
          }
        }
      }
    }
    assert names[..|names|] == names;
  }

  /** The column step part way: the tables still to visit are untouched, and every visited
      cleanable table has no added column left. */
  ghost predicate ColumnsProgress(w0: World, w: World, remaining: set<string>) {
    w.sr == w0.sr && w.nonNative == w0.nonNative && w.catalogs == w0.catalogs && SameFaults(w, w0)
    && (forall t :: t in remaining ==> ColumnsOf(w, t) == ColumnsOf(w0, t))
    && (forall t :: t in w0.ck && t !in remaining && Cleanable(w0, t) ==> NoAddedColumns(ColumnsOf(w, t)))
    && (forall t, x :: x in ColumnsOf(w0, t) && !IsAddedColumnByName(x) ==> x in ColumnsOf(w, t))
  }

  /** One table of the column step: when its columns can be read, drop its added columns in one
      batch. `added` is what it sent. */
  method DropTableAddedColumns(db: Database, table: string) returns (ghost added: seq<Stmt>)
    modifies db
    ensures db.world.sr == old(db.world).sr && db.world.nonNative == old(db.world).nonNative
      && db.world.catalogs == old(db.world).catalogs && SameFaults(db.world, old(db.world))
    ensures forall u :: u != table ==> ColumnsOf(db.world, u) == ColumnsOf(old(db.world), u)
    ensures Cleanable(old(db.world), table) ==> NoAddedColumns(ColumnsOf(db.world, table))
    ensures forall x :: x in ColumnsOf(old(db.world), table) && !IsAddedColumnByName(x) ==> x in ColumnsOf(db.world, table)
    ensures db.sent == old(db.sent) + added && AllOfStep(added, 3)
  {
    added := [];
    var cols := db.GetColumns(table);
    if cols.None? {
      return;
    }
    var drops := CollectCkDrops(table, cols.value);
    if |drops| > 0 {
      ExecuteColumnDrops(db.world, table, drops);
      if Cleanable(db.world, table) {
        ExecuteAllSucceeds(db.world, drops);
      }
      added := ExecuteAll(db.world, drops).sent;
      var ok := db.Execute(drops);
    } else {
      assert NoAddedColumns(cols.value);
    }
  }

  /** A legacy rollback manager for one pair. */
  class LegacyRollbackManager {
    const db: Database
    const pair: LegacyPair

    constructor (db: Database, pair: LegacyPair)
      ensures this.db == db && this.pair == pair
    {
      this.db := db;
      this.pair := pair;
    }

    /** dropAllViews, proved against ViewsRun; `names` is the listing. */
    method DropAllViews() returns (err: bool, names: seq<string>)
      modifies db
      ensures !old(db.world).listingFails ==> (forall n :: n in names <==> n in old(db.world).sr) && Distinct(names)
      ensures var r := ViewsRun(old(db.world), names);
        db.world == r.world && db.sent == old(db.sent) + r.sent && err == r.err
    {
      var listing := db.TableNames();
      if listing.None? {
        return true, [];
      }
      names := listing.value;
      var views := CollectViews(db, names);
      if |views| > 0 {
        var ok := db.Execute(DropViews(views));
        err := !ok;
      } else {
        err := false;
      }
    }

    /** dropCatalog, proved against CatalogRun. */
    method DropCatalog() returns (err: bool)
      modifies db
      ensures var r := CatalogRun(old(db.world), pair.catalog);
        db.world == r.world && db.sent == old(db.sent) + r.sent && err == r.err
    {
      if pair.catalog == "" {
        return true;
      }
      var ok := db.Execute([Stmt.DropCatalog(pair.catalog)]);
      err := !ok;
    }

    /** removeSRTableSuffix, proved against SuffixRun; `names` is the listing. */
    method RemoveSRTableSuffix() returns (err: bool, names: seq<string>)
      modifies db
      ensures pair.suffix != "" && !old(db.world).listingFails ==>
        (forall n :: n in names <==> n in old(db.world).sr) && Distinct(names)
      ensures var r := SuffixRun(old(db.world), names, pair.suffix);
        db.world == r.world && db.sent == old(db.sent) + r.sent && err == r.err
    {
      var suffix := pair.suffix;
      if suffix == "" {
        return false, [];
      }
      var listing := db.TableNames();
      if listing.None? {
        return true, [];
      }
      names := listing.value;
      var cands, conflicts := CollectCandidates(db, names, suffix);
      if |cands| == 0 {
        return false, names;
      }
      if |conflicts| > 0 {
        return true, names;
      }
      var ok := db.Execute(Renames(cands, suffix));
      err := !ok;
    }

    /** dropCKAddedColumns: for each CK table whose DDL parses, drop its added columns in one
        batch; a failed batch is skipped. Only a failed export of the ClickHouse tables is an
        error. Every column that is not an added one stays. `added` is what it sent. */
    method DropCKAddedColumns() returns (err: bool, ghost added: seq<Stmt>)
      modifies db
      ensures err <==> old(db.world).ckExportFails
      ensures err ==> db.world == old(db.world) && added == []
      ensures db.world.sr == old(db.world).sr && db.world.catalogs == old(db.world).catalogs
      ensures db.world.nonNative == old(db.world).nonNative && SameFaults(db.world, old(db.world))
      ensures !err ==> forall t :: t in old(db.world).ck && Cleanable(old(db.world), t) ==> NoAddedColumns(ColumnsOf(db.world, t))
      ensures forall t, x :: x in ColumnsOf(old(db.world), t) && !IsAddedColumnByName(x) ==> x in ColumnsOf(db.world, t)
      ensures db.sent == old(db.sent) + added && AllOfStep(added, 3)
    {
      added := [];
      var tables := db.CkTables();
      if tables.None? {
        return true, added;
      }
      ghost var w0 := db.world;
      var remaining := tables.value;
      while remaining != {}
        invariant remaining <= w0.ck.Keys
        invariant ColumnsProgress(w0, db.world, remaining)
        invariant db.sent == old(db.sent) + added && AllOfStep(added, 3)
        decreases |remaining|
      {
        var table :| table in remaining;
        ghost var w1 := db.world;
        assert Cleanable(w0, table) ==> Cleanable(w1, table);
        ghost var more := DropTableAddedColumns(db, table);
        remaining := remaining - {table};
        assert forall s :: s in added + more ==> s in added || s in more;
        added := added + more;
      }
      err := false;
    }

    /** ExecuteRollback: the four steps in order; the first failing one is named and ends the
        run. Only the ClickHouse export fails the column step. A complete run leaves no view it
        could read as one, every rename candidate under its suffix-free name, and no added
        column in a table it could clean; every other ClickHouse column stays. */
    method ExecuteRollback() returns (failedAt: Option<LegacyStep>)
      modifies db
      ensures |db.sent| >= |old(db.sent)| && db.sent[..|old(db.sent)|] == old(db.sent)
      ensures InStepOrder(db.sent[|old(db.sent)|..])
      ensures failedAt.Some? ==> forall s :: s in db.sent[|old(db.sent)|..] ==> Rank(s) <= StepRank(failedAt.value)
      ensures failedAt == Some(ColumnsStep) ==> old(db.world).ckExportFails
      ensures old(db.world).ckExportFails ==> failedAt.Some?
      ensures old(db.world).listingFails ==> failedAt == Some(ViewsStep) && db.sent == old(db.sent)
      ensures pair.catalog == "" ==> failedAt == Some(ViewsStep) || failedAt == Some(CatalogStep)
      ensures forall t, x :: x in ColumnsOf(old(db.world), t) && !IsAddedColumnByName(x) ==> x in ColumnsOf(db.world, t)
      ensures failedAt.None? ==> pair.catalog !in db.world.catalogs
      ensures failedAt.None? ==> forall v ::
        v in old(db.world).sr && v !in old(db.world).typeLookupFails && IsViewType(old(db.world).sr[v]) ==>
        !(v in db.world.sr && IsViewType(db.world.sr[v]))
      ensures failedAt.None? && pair.suffix != "" ==> forall c :: c in old(db.world).sr && IsCandidate(old(db.world), c, pair.suffix) ==>
        c !in db.world.sr && TrimSuffix(c, pair.suffix) in db.world.sr
        && db.world.sr[TrimSuffix(c, pair.suffix)] == old(db.world).sr[c]
      ensures failedAt.None? ==> forall t :: t in old(db.world).ck && Cleanable(old(db.world), t) ==> NoAddedColumns(ColumnsOf(db.world, t))
    {
      ghost var sent0 := db.sent;
      ghost var w0 := db.world;
      ghost var a, b;
      failedAt, a, b := ViewsThenCatalog();
      if failedAt.Some? {
        RunShape(sent0, a, b, [], []);
        assert a + b + [] + [] == a + b;
        return;
      }
      ghost var w2 := db.world;
      assert forall c :: c in w0.sr && IsCandidate(w0, c, pair.suffix) ==> c in w2.sr && IsCandidate(w2, c, pair.suffix) && w2.sr[c] == w0.sr[c];
      var suffixErr, colErr;
      ghost var c, d;
      suffixErr, colErr, c, d := RenameThenDropColumns();
      RunShape(sent0, a, b, c, d);
      assert db.sent == sent0 + (a + b + c + d);
      if suffixErr {
        assert a + b + c + d == a + b + c;
        return Some(SuffixStep);
      }
      if colErr {
        return Some(ColumnsStep);
      }
    }

    /** The first two steps of ExecuteRollback: the catalog step runs only when the view step
        succeeds. `a` and `b` are what each sent. Neither step touches the ClickHouse side or
        the table kinds; they drop views only, and after both succeed no view they could read
        as one is left. */
    method ViewsThenCatalog() returns (failedAt: Option<LegacyStep>, ghost a: seq<Stmt>, ghost b: seq<Stmt>)
      modifies db
      ensures db.sent == old(db.sent) + (a + b) && AllOfStep(a, 0) && AllOfStep(b, 1)
      ensures failedAt == None || failedAt == Some(ViewsStep) || failedAt == Some(CatalogStep)
      ensures failedAt == Some(ViewsStep) ==> b == []
      ensures old(db.world).listingFails ==> failedAt == Some(ViewsStep) && a == []
      ensures pair.catalog == "" ==> failedAt.Some?
      ensures db.world.ck == old(db.world).ck && db.world.nonNative == old(db.world).nonNative
        && SameFaults(db.world, old(db.world))
      ensures forall n :: n in old(db.world).sr && !IsViewType(old(db.world).sr[n]) ==>
        n in db.world.sr && db.world.sr[n] == old(db.world).sr[n]
      ensures forall n :: n in db.world.sr ==> n in old(db.world).sr && db.world.sr[n] == old(db.world).sr[n]
      ensures failedAt.None? ==> pair.catalog !in db.world.catalogs
      ensures failedAt.None? ==> forall v ::
        v in old(db.world).sr && v !in old(db.world).typeLookupFails && IsViewType(old(db.world).sr[v]) ==>
        !(v in db.world.sr && IsViewType(db.world.sr[v]))
    {
      ghost var w0 := db.world;
      var err, names := DropAllViews();
      a := ViewsRun(w0, names).sent;
      b := [];
      if err {
        assert a + b == a;
        return Some(ViewsStep), a, b;
      }
      ghost var w1 := db.world;
      err := DropCatalog();
      b := CatalogRun(w1, pair.catalog).sent;
      AppendAssoc3(old(db.sent), a, b);
      if err {
        return Some(CatalogStep), a, b;
      }
      return None, a, b;
    }

    /** The last two steps of ExecuteRollback: the column step runs only when the suffix step
        succeeds, and fails only on the ClickHouse export. `c` and `d` are what each sent. */
    method RenameThenDropColumns() returns (suffixErr: bool, colErr: bool, ghost c: seq<Stmt>, ghost d: seq<Stmt>)
      modifies db
      ensures db.sent == old(db.sent) + (c + d) && AllOfStep(c, 2) && AllOfStep(d, 3)
      ensures suffixErr ==> d == [] && !colErr
      ensures colErr <==> !suffixErr && old(db.world).ckExportFails
      ensures old(db.world).listingFails && pair.suffix != "" ==> suffixErr
      ensures db.world.catalogs == old(db.world).catalogs && SameFaults(db.world, old(db.world))
      ensures forall v :: v in db.world.sr && IsViewType(db.world.sr[v]) ==> v in old(db.world).sr && IsViewType(old(db.world).sr[v])
      ensures forall t, x :: x in ColumnsOf(old(db.world), t) && !IsAddedColumnByName(x) ==> x in ColumnsOf(db.world, t)
      ensures !suffixErr && pair.suffix != "" ==> forall n :: n in old(db.world).sr && IsCandidate(old(db.world), n, pair.suffix) ==>
        n !in db.world.sr && TrimSuffix(n, pair.suffix) in db.world.sr
        && db.world.sr[TrimSuffix(n, pair.suffix)] == old(db.world).sr[n]
      ensures !suffixErr && !colErr ==> forall t :: t in old(db.world).ck && Cleanable(old(db.world), t) ==> NoAddedColumns(ColumnsOf(db.world, t))
    {
      ghost var w2 := db.world;
      var names;
      suffixErr, names := RemoveSRTableSuffix();
      ghost var r := SuffixRun(w2, names, pair.suffix);
      c := r.sent;
      d := [];
      colErr := false;
      if !suffixErr {
        if pair.suffix != "" {
          SuffixRunSucceeded(w2, names, pair.suffix);
        }
        ghost var w3 := db.world;
        assert forall t :: Cleanable(w2, t) ==> Cleanable(w3, t);
        colErr, d := DropCKAddedColumns();
        AppendAssoc3(old(db.sent), c, d);
      } else {
        assert c + d == c;
      }
    }
  }

  /** ExecuteRollbackForAllPairs: roll the pairs back one after the other; the first pair that
      fails ends the run, and the pairs after it are not touched. */
  method ExecuteRollbackForAllPairs(managers: seq<LegacyRollbackManager>) returns (failedPair: Option<nat>)
    requires forall i, j :: 0 <= i < j < |managers| ==> managers[i].db != managers[j].db
    modifies set m | m in managers :: m.db
    ensures failedPair.Some? ==> failedPair.value < |managers|
    ensures failedPair.Some? ==> forall k :: failedPair.value < k < |managers| ==>
      managers[k].db.world == old(managers[k].db.world) && managers[k].db.sent == old(managers[k].db.sent)
    ensures failedPair.Some? ==> forall k :: 0 <= k < failedPair.value ==> managers[k].pair.catalog !in managers[k].db.world.catalogs
    ensures failedPair.None? ==> forall k :: 0 <= k < |managers| ==> managers[k].pair.catalog !in managers[k].db.world.catalogs
  {
    for i := 0 to |managers|
      invariant forall k :: i <= k < |managers| ==>
        managers[k].db.world == old(managers[k].db.world) && managers[k].db.sent == old(managers[k].db.sent)
      invariant forall k :: 0 <= k < i ==> managers[k].pair.catalog !in managers[k].db.world.catalogs
    {
      var failedAt := managers[i].ExecuteRollback();
      if failedAt.Some? {
        return Some(i);
      }
    }
    return None;
  }
}
