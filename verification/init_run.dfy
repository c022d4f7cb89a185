/** The init run of internal/initrun/run.go: plan, for every ClickHouse table of a pair, whether
    its StarRocks table still has to be renamed to the suffixed name, then per table add the
    alias columns on ClickHouse, rename the StarRocks table and create the view under the base
    name, the first failure ending the pair. */
module InitRun {
  import opened Wrappers
  import opened Text

  /** The plan for one table: the StarRocks table the view reads is `suffixedTable`, and
      `needRename` says whether it still sits under the base name. */
  datatype TableInitPlan = TableInitPlan(baseTable: string, suffixedTable: string, needRename: bool)

  /** What the init run needs of a configured pair. */
  datatype InitPair = InitPair(name: string, srDB: string, ckDB: string, suffix: string, catalog: string)

  /** The table_type StarRocks reports for a view. */
  const ViewTableType: string := "VIEW"

  /** The type a prefetched type map yields: "" for a missing key, as a Go map does. */
  function TypeIn(types: map<string, string>, name: string): string {
    if name in types then types[name] else ""
  }

  // ---------------------------------------------------------------------------
  // findInitPlans

  /** The decision for one CK table, from the set of StarRocks names, the prefetched types, the
      ignore set, the trimmed suffix and the view type constant: a base table that is not a view
      is renamed; a table already renamed whose base is not a view only gets its view. */
  function PlanFor(t: string, srSet: set<string>, srTypes: map<string, string>, ignore: set<string>,
                   suffix: string, viewType: string): (r: Option<TableInitPlan>)
    ensures r.Some? <==>
      t !in ignore && (t in srSet || t + suffix in srSet) && ToUpper(TypeIn(srTypes, t)) != viewType
    ensures r.Some? ==> r.value.baseTable == t && r.value.suffixedTable == t + suffix
    ensures r.Some? ==> (r.value.needRename <==> t in srSet)
  {
    if t in ignore then None
    else if t in srSet then
      if ToUpper(TypeIn(srTypes, t)) == viewType then None
      else Some(TableInitPlan(t, t + suffix, true))
    else if t + suffix in srSet then
      if ToUpper(TypeIn(srTypes, t)) != viewType then Some(TableInitPlan(t, t + suffix, false))
      else None
    else None
  }

  /** The suffixed name of a plan gives its base name back once the trimmed suffix it was
      planned with is trimmed; the configured suffix itself does so when it has no surrounding
      blanks, which is what the rollback, reading it untrimmed, relies on. */
  lemma PlanSuffixStrips(t: string, srSet: set<string>, srTypes: map<string, string>, ignore: set<string>,
                         configured: string, viewType: string)
    requires PlanFor(t, srSet, srTypes, ignore, TrimSpace(configured), viewType).Some?
    ensures var p := PlanFor(t, srSet, srTypes, ignore, TrimSpace(configured), viewType).value;
      HasSuffix(p.suffixedTable, TrimSpace(configured)) && TrimSuffix(p.suffixedTable, TrimSpace(configured)) == p.baseTable
      && (TrimSpace(configured) == configured ==> HasSuffix(p.suffixedTable, configured) && TrimSuffix(p.suffixedTable, configured) == p.baseTable)
  {
    SuffixOfConcat(t, TrimSpace(configured));
    TrimSuffixOfConcat(t, TrimSpace(configured));
  }

  /** A configured suffix with a trailing blank: init renames t to t_x, and the name t_x does
      not end with the untrimmed "_x ", so the rollback does not see it as suffixed. */
  lemma PaddedSuffixNotStripped()
    ensures TrimSpace("_x ") == "_x"
    ensures PlanFor("t", {"t"}, map[], {}, TrimSpace("_x "), "VIEW") == Some(TableInitPlan("t", "t_x", true))
    ensures !HasSuffix("t_x", "_x ")
  {
    assert !IsSpace('_') && IsSpace(' ') && !IsSpace('x');
    assert TrimLeftSpace("_x ") == "_x ";
    assert "_x "[..2] == "_x";
    assert TrimRightSpace("_x ") == "_x";
    assert "t" + "_x" == "t_x";
  }

  /** Why findInitPlans refuses to plan. */
  datatype PlanError = EmptySuffix | TypesQueryFailed

  /** The plans findInitPlans returns: each is PlanFor's decision for a distinct CK table, and
      every table with a decision has its plan. */
  ghost predicate PlansOf(plans: seq<TableInitPlan>, ckTables: set<string>, srSet: set<string>,
                          srTypes: map<string, string>, ignore: set<string>, suffix: string, viewType: string) {
    (forall p :: p in plans ==> p.baseTable in ckTables && PlanFor(p.baseTable, srSet, srTypes, ignore, suffix, viewType) == Some(p))
    && (forall t :: t in ckTables && PlanFor(t, srSet, srTypes, ignore, suffix, viewType).Some? ==>
          PlanFor(t, srSet, srTypes, ignore, suffix, viewType).value in plans)
    && (forall i, j :: 0 <= i < j < |plans| ==> plans[i].baseTable != plans[j].baseTable)
  }

  /** findInitPlans: an empty trimmed suffix or a failed type prefetch is an error; otherwise one
      plan per CK table that has one, in an unspecified order. */
  method FindInitPlans(pair: InitPair, ckTables: set<string>, srTableNames: seq<string>,
                       srTypes: Option<map<string, string>>, ignoreTables: seq<string>, viewType: string)
    returns (r: Result<seq<TableInitPlan>, PlanError>)
    ensures TrimSpace(pair.suffix) == "" <==> r == Err(EmptySuffix)
    ensures r == Err(TypesQueryFailed) <==> TrimSpace(pair.suffix) != "" && srTypes.None?
    ensures r.Ok? ==> srTypes.Some? && PlansOf(r.value, ckTables, (set n | n in srTableNames), srTypes.value,
                                               (set t | t in ignoreTables), TrimSpace(pair.suffix), viewType)
  {
    var suffix := TrimSpace(pair.suffix);
    if suffix == "" {
      return Err(EmptySuffix);
    }
    if srTypes.None? {
      return Err(TypesQueryFailed);
    }
    var types := srTypes.value;
    var ignore := set t | t in ignoreTables;
    var srSet := set n | n in srTableNames;
    var plans: seq<TableInitPlan> := [];
    var remaining := ckTables;
    while remaining != {}
      invariant remaining <= ckTables
      invariant forall p :: p in plans ==>
        p.baseTable in ckTables && p.baseTable !in remaining && PlanFor(p.baseTable, srSet, types, ignore, suffix, viewType) == Some(p)
      invariant forall t :: t in ckTables && t !in remaining && PlanFor(t, srSet, types, ignore, suffix, viewType).Some? ==>
        PlanFor(t, srSet, types, ignore, suffix, viewType).value in plans
      invariant forall i, j :: 0 <= i < j < |plans| ==> plans[i].baseTable != plans[j].baseTable
      decreases |remaining|
    {
      var ckTable :| ckTable in remaining;
      remaining := remaining - {ckTable};
      if ckTable in ignore {
        continue;
      }
      if ckTable in srSet {
        var t := ToUpper(TypeIn(types, ckTable));
        if t == viewType {
          continue;
        }
        plans := plans + [TableInitPlan(ckTable, ckTable + suffix, true)];
        continue;
      }
      var renamed := ckTable + suffix;
      if renamed in srSet {
        var t := ToUpper(TypeIn(types, ckTable));
        if t != viewType {
          plans := plans + [TableInitPlan(ckTable, renamed, false)];
        }
      }
    }
    return Ok(plans);
  }

  // ---------------------------------------------------------------------------
  // processTable

  /** The statements the init run sends: the ClickHouse ALTER adding the alias columns, the
      StarRocks rename, the CREATE VIEW, and the catalog creation. */
  datatype InitAction =
    | AlterCk(table: string)
    | RenameSr(from: string, to: string)
    | CreateView(view: string, source: string)
    | CreateCatalog(catalog: string)

  /** The outcomes the model does not compute: which DDLs fail to parse (the parser and the
      converters come from outside this repository), which ALTER or view SQL comes out empty,
      which SR DDL reads fail, and which statements the servers reject. */
  datatype InitFaults = InitFaults(
    ckParseFails: set<string>,
    converterFails: set<string>,
    emptyAlter: set<string>,
    srDDLFails: set<string>,
    srParseFails: set<string>,
    viewBuildFails: set<string>,
    emptyView: set<string>,
    failing: set<InitAction>,
    exportFails: bool,
    listingFails: bool,
    typesFail: bool)

  /** The effect of one statement on the StarRocks tables; None when it fails. A rename needs
      its source present and its target free. The view statement is `create view if not exists`:
      on a free name it creates the view, on a taken name it succeeds and changes nothing. */
  function ApplyInit(sr: map<string, string>, a: InitAction, failing: set<InitAction>): (r: Option<map<string, string>>)
    ensures r.None? <==> a in failing || (a.RenameSr? && (a.from !in sr || a.to in sr))
    ensures r.Some? && a.CreateView? ==>
      a.view in r.value && r.value[a.view] == (if a.view in sr then sr[a.view] else ViewTableType)
      && forall n :: n != a.view ==> (n in r.value <==> n in sr) && (n in sr ==> r.value[n] == sr[n])
    ensures r.Some? && a.RenameSr? ==> a.to in r.value && r.value[a.to] == sr[a.from] && a.from !in r.value
  {
    if a in failing then None
    else match a
      case AlterCk(_) => Some(sr)
      case RenameSr(f, t) => if f in sr && t !in sr then Some((sr - {f})[t := sr[f]]) else None
      case CreateView(v, _) => if v !in sr then Some(sr[v := ViewTableType]) else Some(sr)
      case CreateCatalog(_) => Some(sr)
  }

  /** Where processTable stopped. */
  datatype TableError =
    | ParseCkFailed | ConvertersFailed | AlterFailed | RenameFailed
    | ReadSrDDLFailed | ParseSrFailed | BuildViewFailed | CreateViewFailed

  /** What processing one table did: the StarRocks tables after it, the statements sent, and
      the error that stopped it. */
  datatype TableRun = TableRun(sr: map<string, string>, sent: seq<InitAction>, err: Option<TableError>)

  /** The statements processing a plan sends when nothing fails. */
  function Script(plan: TableInitPlan, f: InitFaults): seq<InitAction> {
    (if plan.needRename then
       (if plan.baseTable in f.emptyAlter then [] else [AlterCk(plan.baseTable)]) + [RenameSr(plan.baseTable, plan.suffixedTable)]
     else [])
    + (if plan.baseTable in f.emptyView then [] else [CreateView(plan.baseTable, plan.suffixedTable)])
  }

  /** Names other than `a` and `b` are the same in both maps. */
  ghost predicate SameElsewhere(m: map<string, string>, m0: map<string, string>, a: string, b: string) {
    forall n :: n != a && n != b ==> (n in m <==> n in m0) && (n in m ==> m[n] == m0[n])
  }

  /** The rename part of processTable: only for a plan that needs it, the ALTER (unless it comes
      out empty) and then the rename. */
  function RenameRun(sr: map<string, string>, plan: TableInitPlan, f: InitFaults): (r: TableRun)
    ensures !plan.needRename ==> r == TableRun(sr, [], None)
    ensures r.err.Some? ==> r.err == Some(AlterFailed) || r.err == Some(RenameFailed)
    ensures r.err.None? && plan.needRename ==>
      plan.baseTable in sr && plan.baseTable !in r.sr && plan.suffixedTable in r.sr
      && r.sr[plan.suffixedTable] == sr[plan.baseTable]
    ensures r.err.None? ==> r.sent + (if plan.baseTable in f.emptyView then [] else [CreateView(plan.baseTable, plan.suffixedTable)]) == Script(plan, f)
    ensures r.sent <= Script(plan, f)
    ensures SameElsewhere(r.sr, sr, plan.baseTable, plan.suffixedTable)
    ensures r.err.None? && plan.needRename ==> plan.suffixedTable !in sr
  {
    if !plan.needRename then TableRun(sr, [], None)
    else
      var base := plan.baseTable;
      var alter := if base in f.emptyAlter then [] else [AlterCk(base)];
      if base !in f.emptyAlter && AlterCk(base) in f.failing then TableRun(sr, [AlterCk(base)], Some(AlterFailed))
      else
        var rename := RenameSr(base, plan.suffixedTable);
        match ApplyInit(sr, rename, f.failing)
        case None => TableRun(sr, alter + [rename], Some(RenameFailed))
        case Some(sr1) => TableRun(sr1, alter + [rename], None)
  }

  /** The view part of processTable: read and parse the DDL of the suffixed table, build the
      view, and create it unless its SQL comes out empty. */
  function ViewRun(sr: map<string, string>, plan: TableInitPlan, f: InitFaults): (r: TableRun)
    ensures r.err.Some? ==> r.err.value in {ReadSrDDLFailed, ParseSrFailed, BuildViewFailed, CreateViewFailed}
    ensures plan.suffixedTable !in sr ==> r == TableRun(sr, [], Some(ReadSrDDLFailed))
    ensures r.err.None? ==> r.sent == (if plan.baseTable in f.emptyView then [] else [CreateView(plan.baseTable, plan.suffixedTable)])
    ensures r.sent <= [CreateView(plan.baseTable, plan.suffixedTable)]
    ensures r.err.None? && plan.baseTable !in f.emptyView ==>
      plan.baseTable in r.sr && r.sr[plan.baseTable] == (if plan.baseTable in sr then sr[plan.baseTable] else ViewTableType)
    ensures plan.baseTable in sr ==> r.sr == sr
    ensures SameElsewhere(r.sr, sr, plan.baseTable, plan.baseTable)
  {
    var base := plan.baseTable;
    var sfx := plan.suffixedTable;
    if sfx in f.srDDLFails || sfx !in sr then TableRun(sr, [], Some(ReadSrDDLFailed))
    else if sfx in f.srParseFails then TableRun(sr, [], Some(ParseSrFailed))
    else if base in f.viewBuildFails then TableRun(sr, [], Some(BuildViewFailed))
    else if base in f.emptyView then TableRun(sr, [], None)
    else
      var cv := CreateView(base, sfx);
      match ApplyInit(sr, cv, f.failing)
      case None => TableRun(sr, [cv], Some(CreateViewFailed))
      case Some(sr1) => TableRun(sr1, [cv], None)
  }

  /** processTable: parse the CK DDL and build its converters, then the rename part, then the
      view part; the first failure ends it. */
  function ProcessRun(sr: map<string, string>, plan: TableInitPlan, f: InitFaults): (r: TableRun)
    ensures r.sent <= Script(plan, f)
    ensures r.err.None? ==> r.sent == Script(plan, f)
    ensures !plan.needRename ==> forall a :: a in r.sent ==> a.CreateView?
    ensures plan.baseTable in f.ckParseFails ==> r == TableRun(sr, [], Some(ParseCkFailed))
    ensures r.err.None? && plan.needRename ==>
      plan.baseTable in sr && plan.suffixedTable in r.sr && r.sr[plan.suffixedTable] == sr[plan.baseTable]
    ensures r.err.None? && plan.baseTable !in f.emptyView && (plan.needRename || plan.baseTable !in sr) ==>
      plan.baseTable in r.sr && r.sr[plan.baseTable] == ViewTableType
    ensures !plan.needRename && plan.baseTable in sr ==> r.sr == sr
    ensures SameElsewhere(r.sr, sr, plan.baseTable, plan.suffixedTable)
    ensures !plan.needRename ==> SameElsewhere(r.sr, sr, plan.baseTable, plan.baseTable)
    ensures r.err.None? ==> forall n :: n != plan.baseTable && n in sr ==> n in r.sr && r.sr[n] == sr[n]
  {
    if plan.baseTable in f.ckParseFails then TableRun(sr, [], Some(ParseCkFailed))
    else if plan.baseTable in f.converterFails then TableRun(sr, [], Some(ConvertersFailed))
    else
      var pre := RenameRun(sr, plan, f);
      if pre.err.Some? then pre
      else
        var v := ViewRun(pre.sr, plan, f);
        assert pre.sent + v.sent <= Script(plan, f) by {
          assert v.sent <= (if plan.baseTable in f.emptyView then [] else [CreateView(plan.baseTable, plan.suffixedTable)]);
        }
        TableRun(v.sr, pre.sent + v.sent, v.err)
  }

  /** A table the init run has processed, whose base name was free for its view, gets no plan
      on the next run: its base name is now a view. */
  lemma InitIsIdempotent(sr: map<string, string>, plan: TableInitPlan, f: InitFaults,
                         ignore: set<string>, suffix: string)
    requires ProcessRun(sr, plan, f).err.None? && plan.baseTable !in f.emptyView
    requires plan.needRename || plan.baseTable !in sr
    ensures PlanFor(plan.baseTable, ProcessRun(sr, plan, f).sr.Keys, ProcessRun(sr, plan, f).sr, ignore, suffix, ViewTableType).None?
  {
    assert ToUpper(ViewTableType) == ViewTableType;
  }

  /** Two ClickHouse tables `a` and `a_x` with the suffix `_x`, over StarRocks tables `a` and
      `a_x_x`: `a` is renamed to `a_x`, and then the view statement for `a_x` meets that table,
      succeeds without creating anything, and the run reports success. The base name `a_x` is
      still a table, so the next run plans it again. */
  lemma TakenBaseIsPlannedAgain(f: InitFaults)
    requires f.ckParseFails == {} && f.converterFails == {} && f.srDDLFails == {} && f.srParseFails == {}
      && f.viewBuildFails == {} && f.emptyView == {} && f.failing == {}
    ensures var sr0 := map["a" := "BASE TABLE", "a_x_x" := "BASE TABLE"];
      var pa := PlanFor("a", sr0.Keys, sr0, {}, "_x", ViewTableType);
      var pb := PlanFor("a_x", sr0.Keys, sr0, {}, "_x", ViewTableType);
      pa == Some(TableInitPlan("a", "a_x", true)) && pb == Some(TableInitPlan("a_x", "a_x_x", false))
      && var r1 := ProcessRun(sr0, pa.value, f);
         var r2 := ProcessRun(r1.sr, pb.value, f);
         r1.err.None? && r2.err.None? && "a_x" in r2.sr && r2.sr["a_x"] == "BASE TABLE"
         && PlanFor("a_x", r2.sr.Keys, r2.sr, {}, "_x", ViewTableType).Some?
  {
    var sr0 := map["a" := "BASE TABLE", "a_x_x" := "BASE TABLE"];
    assert "a" + "_x" == "a_x" && "a_x" + "_x" == "a_x_x";
    assert ToUpper("BASE TABLE") != ViewTableType by {
      assert ToUpper("BASE TABLE")[0] == 'B';
    }
    assert ToUpper("") != ViewTableType;
    var pa := TableInitPlan("a", "a_x", true);
    var pb := TableInitPlan("a_x", "a_x_x", false);
    assert PlanFor("a", sr0.Keys, sr0, {}, "_x", ViewTableType) == Some(pa);
    assert "a_x" !in sr0;
    assert PlanFor("a_x", sr0.Keys, sr0, {}, "_x", ViewTableType) == Some(pb);
    var r1 := ProcessRun(sr0, pa, f);
    assert "a_x" in r1.sr && r1.sr["a_x"] == "BASE TABLE";
    var r2 := ProcessRun(r1.sr, pb, f);
    assert r2.sr == r1.sr;
  }

  /** With the plan findInitPlans made from the same state, processing it goes through unless a
      fault stops it: the ALTER, the rename and the CREATE VIEW all find their names as they
      need them. */
  lemma PlannedTableProcesses(sr: map<string, string>, t: string, ignore: set<string>, suffix: string,
                              viewType: string, f: InitFaults)
    requires PlanFor(t, sr.Keys, sr, ignore, suffix, viewType).Some?
    requires suffix != ""
    requires var p := PlanFor(t, sr.Keys, sr, ignore, suffix, viewType).value;
      p.needRename ==> p.suffixedTable !in sr
    requires f.ckParseFails == {} && f.converterFails == {} && f.srDDLFails == {} && f.srParseFails == {}
      && f.viewBuildFails == {} && f.failing == {}
    ensures ProcessRun(sr, PlanFor(t, sr.Keys, sr, ignore, suffix, viewType).value, f).err.None?
  {
    var p := PlanFor(t, sr.Keys, sr, ignore, suffix, viewType).value;
    assert |p.suffixedTable| > |t|;
    var pre := RenameRun(sr, p, f);
    if !p.needRename {
      assert t + suffix in sr && t !in sr;
    }
    assert p.suffixedTable in pre.sr;
    assert p.baseTable !in pre.sr;
  }

  /** Why the init run of a pair stopped. */
  datatype InitError =
    | ExportFailed | CatalogFailed | ListingFailed
    | PlanFailed(planError: PlanError)
    | TableFailed(table: string, tableError: TableError)

  /** GetStarRocksTableNames: the names of the StarRocks tables, each once. */
  method NamesOf(sr: map<string, string>) returns (names: seq<string>)
    ensures forall n :: n in names <==> n in sr
  {
    names := [];
    var remaining := sr.Keys;
    while remaining != {}
      invariant remaining <= sr.Keys
      invariant forall n :: n in names <==> n in sr && n !in remaining
      decreases |remaining|
    {
      var n :| n in remaining;
      remaining := remaining - {n};
      names := names + [n];
    }
  }

  /** After the init run, the base name of plan k holds a view, or the plan renamed nothing
      and an earlier plan's rename had already put its table under that name, so the
      `create view if not exists` left it in place. */
  ghost predicate ViewOrTaken(sr: map<string, string>, plans: seq<TableInitPlan>, k: nat)
    requires k < |plans|
  {
    plans[k].baseTable in sr
    && (sr[plans[k].baseTable] == ViewTableType
        || (!plans[k].needRename
            && exists j :: 0 <= j < k && plans[j].needRename && plans[j].suffixedTable == plans[k].baseTable))
  }

  /** A name the first i plans brought into StarRocks: one's base name, or one's suffixed name
      when it renamed. */
  ghost predicate NewName(plans: seq<TableInitPlan>, i: nat, n: string)
    requires i <= |plans|
  {
    exists j :: 0 <= j < i && (n == plans[j].baseTable || (plans[j].needRename && n == plans[j].suffixedTable))
  }

  /** One successful table of the plan loop keeps what the earlier tables established and
      establishes it for this one. */
  lemma ProcessPlansStep(before: map<string, string>, after: map<string, string>, sr0: map<string, string>,
                         plans: seq<TableInitPlan>, i: nat, f: InitFaults)
    requires i < |plans|
    requires forall a, b :: 0 <= a < b < |plans| ==> plans[a].baseTable != plans[b].baseTable
    requires !plans[i].needRename ==> plans[i].baseTable !in sr0
    requires ProcessRun(before, plans[i], f).err.None? && after == ProcessRun(before, plans[i], f).sr
    requires forall k :: 0 <= k < i && plans[k].baseTable !in f.emptyView ==> ViewOrTaken(before, plans, k)
    requires forall n :: n in before && n !in sr0 ==> NewName(plans, i, n)
    ensures forall k :: 0 <= k < i + 1 && plans[k].baseTable !in f.emptyView ==> ViewOrTaken(after, plans, k)
    ensures forall n :: n in after && n !in sr0 ==> NewName(plans, i + 1, n)
  {
    EarlierPlansKept(before, after, plans, i, f);
    NewNamesStep(before, after, sr0, plans, i, f);
    var p := plans[i];
    if p.baseTable !in f.emptyView && !p.needRename && p.baseTable in before {
      assert NewName(plans, i, p.baseTable);
      var j :| 0 <= j < i && (p.baseTable == plans[j].baseTable || (plans[j].needRename && p.baseTable == plans[j].suffixedTable));
      assert ViewOrTaken(after, plans, i);
    }
  }

  /** A successful table leaves the base names of the earlier plans as they were. */
  lemma EarlierPlansKept(before: map<string, string>, after: map<string, string>,
                         plans: seq<TableInitPlan>, i: nat, f: InitFaults)
    requires i < |plans|
    requires forall a, b :: 0 <= a < b < |plans| ==> plans[a].baseTable != plans[b].baseTable
    requires ProcessRun(before, plans[i], f).err.None? && after == ProcessRun(before, plans[i], f).sr
    requires forall k :: 0 <= k < i && plans[k].baseTable !in f.emptyView ==> ViewOrTaken(before, plans, k)
    ensures forall k :: 0 <= k < i && plans[k].baseTable !in f.emptyView ==> ViewOrTaken(after, plans, k)
  {
    forall k | 0 <= k < i && plans[k].baseTable !in f.emptyView
      ensures ViewOrTaken(after, plans, k)
    {
      assert ViewOrTaken(before, plans, k);
      assert plans[k].baseTable != plans[i].baseTable;
    }
  }

  /** A successful table brings in only its own base name and, when it renames, its suffixed
      name. */
  lemma NewNamesStep(before: map<string, string>, after: map<string, string>, sr0: map<string, string>,
                     plans: seq<TableInitPlan>, i: nat, f: InitFaults)
    requires i < |plans|
    requires ProcessRun(before, plans[i], f).err.None? && after == ProcessRun(before, plans[i], f).sr
    requires forall n :: n in before && n !in sr0 ==> NewName(plans, i, n)
    ensures forall n :: n in after && n !in sr0 ==> NewName(plans, i + 1, n)
  {
    var p := plans[i];
    forall n | n in after && n !in sr0
      ensures NewName(plans, i + 1, n)
    {
      if n == p.baseTable || (p.needRename && n == p.suffixedTable) {
        assert 0 <= i < i + 1;
      } else {
        assert n in before;
        var j :| 0 <= j < i && (n == plans[j].baseTable || (plans[j].needRename && n == plans[j].suffixedTable));
        assert 0 <= j < i + 1;
      }
    }
  }

  /** An init manager for one pair, holding the StarRocks tables and catalogs it changes and the
      statements it has sent. */
  class InitManager {
    const pair: InitPair
    const ignoreTables: seq<string>
    /** The table_type value that marks a view for the planner. */
    const viewType: string
    const faults: InitFaults
    /** The ClickHouse tables the export returns. */
    const ck: set<string>
    var sr: map<string, string>
    var catalogs: set<string>
    var sent: seq<InitAction>

    constructor (pair: InitPair, ignoreTables: seq<string>, viewType: string, faults: InitFaults,
                 ck: set<string>, sr: map<string, string>, catalogs: set<string>)
      ensures this.pair == pair && this.ignoreTables == ignoreTables && this.viewType == viewType
      ensures this.faults == faults && this.ck == ck && this.sr == sr && this.catalogs == catalogs && this.sent == []
    {
      this.pair := pair;
      this.ignoreTables := ignoreTables;
      this.viewType := viewType;
      this.faults := faults;
      this.ck := ck;
      this.sr := sr;
      this.catalogs := catalogs;
      this.sent := [];
    }

    /** Send one statement; ok when it succeeded. */
    method Send(a: InitAction) returns (ok: bool)
      modifies this
      ensures sent == old(sent) + [a] && catalogs == old(catalogs)
      ensures ok == ApplyInit(old(sr), a, faults.failing).Some?
      ensures sr == if ok then ApplyInit(old(sr), a, faults.failing).value else old(sr)
    {
      sent := sent + [a];
      var r := ApplyInit(sr, a, faults.failing);
      ok := r.Some?;
      if ok {
        sr := r.value;
      }
    }

    /** The rename part of processTable, proved against RenameRun. */
    method RenameStep(plan: TableInitPlan) returns (err: Option<TableError>)
      requires plan.needRename
      modifies this
      ensures var r := RenameRun(old(sr), plan, faults);
        sr == r.sr && sent == old(sent) + r.sent && err == r.err && catalogs == old(catalogs)
    {
      if plan.baseTable !in faults.emptyAlter {
        var ok := Send(AlterCk(plan.baseTable));
        if !ok {
          return Some(AlterFailed);
        }
      }
      var ok := Send(RenameSr(plan.baseTable, plan.suffixedTable));
      if !ok {
        return Some(RenameFailed);
      }
      return None;
    }

    /** The view part of processTable, proved against ViewRun. */
    method ViewStep(plan: TableInitPlan) returns (err: Option<TableError>)
      modifies this
      ensures var r := ViewRun(old(sr), plan, faults);
        sr == r.sr && sent == old(sent) + r.sent && err == r.err && catalogs == old(catalogs)
    {
      if plan.suffixedTable in faults.srDDLFails || plan.suffixedTable !in sr {
        return Some(ReadSrDDLFailed);
      }
      if plan.suffixedTable in faults.srParseFails {
        return Some(ParseSrFailed);
      }
      if plan.baseTable in faults.viewBuildFails {
        return Some(BuildViewFailed);
      }
      if plan.baseTable in faults.emptyView {
        return None;
      }
      var ok := Send(CreateView(plan.baseTable, plan.suffixedTable));
      if !ok {
        return Some(CreateViewFailed);
      }
      return None;
    }

    /** processTable, proved against ProcessRun. */
    method ProcessTable(plan: TableInitPlan) returns (err: Option<TableError>)
      modifies this
      ensures var r := ProcessRun(old(sr), plan, faults);
        sr == r.sr && sent == old(sent) + r.sent && err == r.err && catalogs == old(catalogs)
    {
      if plan.baseTable in faults.ckParseFails {
        return Some(ParseCkFailed);
      }
      if plan.baseTable in faults.converterFails {
        return Some(ConvertersFailed);
      }
      ghost var sent0 := sent;
      if plan.needRename {
        err := RenameStep(plan);
        if err.Some? {
          return;
        }
      }
      ghost var sent1 := sent;
      err := ViewStep(plan);
      assert sent == sent0 + (sent1[|sent0|..] + sent[|sent1|..]);
    }
  
    /** CreateStarRocksCatalog: CREATE EXTERNAL CATALOG IF NOT EXISTS; on success the catalog
        exists. */
    method CreateCatalogStep() returns (ok: bool)
      modifies this
      ensures sent == old(sent) + [CreateCatalog(pair.catalog)] && sr == old(sr)
      ensures ok <==> CreateCatalog(pair.catalog) !in faults.failing
      ensures catalogs == if ok then old(catalogs) + {pair.catalog} else old(catalogs)
    {
      sent := sent + [CreateCatalog(pair.catalog)];
      ok := CreateCatalog(pair.catalog) !in faults.failing;
      if ok {
        catalogs := catalogs + {pair.catalog};
      }
    }

    /** ExecuteInit: export the CK tables, make sure the catalog exists, list the StarRocks
        tables, plan, and process the plans in order; the first failure ends the pair. On
        success every planned table whose view SQL is not empty is a view under its base name.
        `plans` are the plans made. */
    method ExecuteInit() returns (err: Option<InitError>, plans: seq<TableInitPlan>)
      modifies this
      ensures faults.exportFails ==> err == Some(ExportFailed) && sent == old(sent) && sr == old(sr)
      ensures !faults.exportFails && CreateCatalog(pair.catalog) in faults.failing ==> err == Some(CatalogFailed)
      ensures (TrimSpace(pair.suffix) == "" && !faults.exportFails && !faults.listingFails
        && CreateCatalog(pair.catalog) !in faults.failing) ==> err == Some(PlanFailed(EmptySuffix))
      ensures err.None? ==> pair.catalog in catalogs
      ensures err.None? ==>
        PlansOf(plans, ck, old(sr).Keys, old(sr), (set t | t in ignoreTables), TrimSpace(pair.suffix), viewType)
        && forall k :: 0 <= k < |plans| && plans[k].baseTable !in faults.emptyView ==> ViewOrTaken(sr, plans, k)
    {
      plans := [];
      if faults.exportFails {
        return Some(ExportFailed), plans;
      }
      var ok := CreateCatalogStep();
      if !ok {
        return Some(CatalogFailed), plans;
      }
      if faults.listingFails {
        return Some(ListingFailed), plans;
      }
      var names := NamesOf(sr);
      assert (set n | n in names) == sr.Keys;
      var types := if faults.typesFail then None else Some(sr);
      var planned := FindInitPlans(pair, ck, names, types, ignoreTables, viewType);
      if planned.Err? {
        return Some(PlanFailed(planned.error)), plans;
      }
      plans := planned.value;
      forall k | 0 <= k < |plans| && !plans[k].needRename
        ensures plans[k].baseTable !in sr
      {
        assert plans[k] in plans;
      }
      err := ProcessPlans(plans);
    }

    /** The loop of ExecuteInit over the plans of distinct tables; a plan that renames nothing
        was made for a base name StarRocks did not have. */
    method ProcessPlans(plans: seq<TableInitPlan>) returns (err: Option<InitError>)
      requires forall i, j :: 0 <= i < j < |plans| ==> plans[i].baseTable != plans[j].baseTable
      requires forall k :: 0 <= k < |plans| && !plans[k].needRename ==> plans[k].baseTable !in sr
      modifies this
      ensures catalogs == old(catalogs)
      ensures err.Some? ==> err.value.TableFailed?
      ensures err.None? ==> forall k :: 0 <= k < |plans| && plans[k].baseTable !in faults.emptyView ==>
        ViewOrTaken(sr, plans, k)
    {
      ghost var sr0 := sr;
      for i := 0 to |plans|
        invariant catalogs == old(catalogs)
        invariant forall k :: 0 <= k < i && plans[k].baseTable !in faults.emptyView ==> ViewOrTaken(sr, plans, k)
        invariant forall n :: n in sr && n !in sr0 ==> NewName(plans, i, n)
      {
        ghost var before := sr;
        var e := ProcessTable(plans[i]);
        if e.Some? {
          return Some(TableFailed(plans[i].baseTable, e.value));
        }
        ProcessPlansStep(before, sr, sr0, plans, i, faults);
      }
      return None;
    }
  }

  /** Run: initialise the pairs one after the other; the first pair that fails ends the run, and
      the pairs after it are not touched. */
  method RunAll(managers: seq<InitManager>) returns (failedPair: Option<nat>)
    requires forall i, j :: 0 <= i < j < |managers| ==> managers[i] != managers[j]
    modifies set m | m in managers
    ensures failedPair.Some? ==> failedPair.value < |managers|
    ensures failedPair.Some? ==> forall k :: failedPair.value < k < |managers| ==>
      managers[k].sr == old(managers[k].sr) && managers[k].sent == old(managers[k].sent)
    ensures failedPair.Some? ==> forall k :: 0 <= k < failedPair.value ==> managers[k].pair.catalog in managers[k].catalogs
    ensures failedPair.None? ==> forall k :: 0 <= k < |managers| ==> managers[k].pair.catalog in managers[k].catalogs
  {
    for i := 0 to |managers|
      invariant forall k :: i <= k < |managers| ==>
        managers[k].sr == old(managers[k].sr) && managers[k].sent == old(managers[k].sent)
      invariant forall k :: 0 <= k < i ==> managers[k].pair.catalog in managers[k].catalogs
    {
      var err, plans := managers[i].ExecuteInit();
      if err.Some? {
        return Some(i);
      }
    }
    return None;
  }
}
