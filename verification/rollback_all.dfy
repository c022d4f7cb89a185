/** The outer level of internal/rollbackrun/run.go: every configured pair is rolled back in
    order with global statistics, and once all pairs are done every configured catalog is
    dropped once, from the first pair whose StarRocks side still has it. */
module RollbackAll {
  import opened Wrappers
  import opened Warehouse
  import opened RollbackRun

  /** A configured pair with its catalog name and the state of its databases. */
  datatype PairSetup = PairSetup(pair: RollbackPair, catalog: string, world: World)

  /** The global statistics: tables, successes and the failures tagged with their pair. */
  datatype Totals = Totals(total: nat, success: nat, failed: seq<FailureRecord>)

  /** A pair's failure records with the pair's name filled in. */
  function Tagged(name: string, fs: seq<FailureRecord>): (r: seq<FailureRecord>)
    ensures |r| == |fs|
    ensures forall i :: 0 <= i < |fs| ==> r[i] == FailureRecord(name, fs[i].table, fs[i].step)
  {
    seq(|fs|, i requires 0 <= i < |fs| => FailureRecord(name, fs[i].table, fs[i].step))
  }

  /** The loop that copies a pair's failures into the global list. */
  method AppendTagged(failedAll: seq<FailureRecord>, name: string, fs: seq<FailureRecord>) returns (r: seq<FailureRecord>)
    ensures r == failedAll + Tagged(name, fs)
  {
    r := failedAll;
    for i := 0 to |fs|
      invariant r == failedAll + Tagged(name, fs[..i])
    {
      assert Tagged(name, fs[..i + 1]) == Tagged(name, fs[..i]) + [FailureRecord(name, fs[i].table, fs[i].step)];
      r := r + [FailureRecord(name, fs[i].table, fs[i].step)];
    }
    assert fs[..|fs|] == fs;
  }

  /** The names of the pairs, in configuration order. */
  function PairNames(setups: seq<PairSetup>): (r: seq<string>)
    ensures |r| == |setups| && forall k :: 0 <= k < |setups| ==> r[k] == setups[k].pair.name
  {
    seq(|setups|, k requires 0 <= k < |setups| => setups[k].pair.name)
  }

  /** The global statistics after the given pairs: each pair's stats added in order, its
      failures tagged with its name. */
  function Aggregate(names: seq<string>, outs: seq<PairOutcome>): (r: Totals)
    requires |names| == |outs|
    ensures forall f :: f in r.failed ==> f.pair in names
    decreases |outs|
  {
    if outs == [] then Totals(0, 0, [])
    else
      var n := |outs| - 1;
      var prev := Aggregate(names[..n], outs[..n]);
      var s := outs[n].stats;
      assert forall x :: x in names[..n] ==> x in names;
      var tagged := Tagged(names[n], s.failed);
      assert forall f :: f in tagged ==> f.pair == names[n];
      Totals(prev.total + s.totalTables, prev.success + s.successTables, prev.failed + tagged)
  }

  /** One more pair adds its stats and its tagged failures. */
  lemma AggregateSnoc(names: seq<string>, outs: seq<PairOutcome>, name: string, out: PairOutcome)
    requires |names| == |outs|
    ensures Aggregate(names + [name], outs + [out]) ==
      var prev := Aggregate(names, outs);
      Totals(prev.total + out.stats.totalTables, prev.success + out.stats.successTables,
             prev.failed + Tagged(name, out.stats.failed))
  {
    assert (names + [name])[..|names|] == names;
    assert (outs + [out])[..|outs|] == outs;
  }

  /** Stats whose successes and failures account for at most all tables, and for exactly all
      of them when the pair did not error. */
  predicate Balanced(o: PairOutcome) {
    o.stats.successTables + |o.stats.failed| <= o.stats.totalTables
    && (!o.err ==> o.stats.successTables + |o.stats.failed| == o.stats.totalTables)
  }

  /** Every pair outcome is balanced. */
  lemma PairRunBalanced(w: World, p: RollbackPair, cont: bool, common: seq<string>)
    ensures Balanced(PairRun(w, p, cont, common))
  {
  }

  /** The global counts add up as the per-pair ones do. */
  lemma {:induction false} AggregateCounts(names: seq<string>, outs: seq<PairOutcome>)
    requires |names| == |outs|
    requires forall k :: 0 <= k < |outs| ==> Balanced(outs[k])
    ensures Aggregate(names, outs).success + |Aggregate(names, outs).failed| <= Aggregate(names, outs).total
    ensures (forall k :: 0 <= k < |outs| ==> !outs[k].err) ==>
      Aggregate(names, outs).success + |Aggregate(names, outs).failed| == Aggregate(names, outs).total
    decreases |outs|
  {
    if outs != [] {
      var n := |outs| - 1;
      assert forall k :: 0 <= k < n ==> outs[..n][k] == outs[k];
      AggregateCounts(names[..n], outs[..n]);
      assert Balanced(outs[n]);
    }
  }

  // ---------------------------------------------------------------------------
  // dropAllCatalogsAfterAllPairs

  /** A catalog dropped through the pair at index `site`. */
  datatype CatalogDrop = CatalogDrop(site: nat, name: string)

  /** The distinct non-empty catalog names configured. */
  function CatalogSet(catalogs: seq<string>): (r: set<string>)
    ensures forall c :: c in r <==> c in catalogs && c != ""
  {
    set c | c in catalogs && c != ""
  }

  predicate DistinctNames(drops: seq<CatalogDrop>) {
    forall a, b :: 0 <= a < b < |drops| ==> drops[a].name != drops[b].name
  }

  /** What one pair's pass over the pending catalogs did: the names dropped there are distinct,
      pending, existed there, passed their check and their drop; without an error, every
      pending name not dropped there is absent there. */
  ghost predicate SiteDone(w: World, pending: set<string>, err: bool, here: seq<string>) {
    (forall a, b :: 0 <= a < b < |here| ==> here[a] != here[b])
    && (forall c :: c in here ==>
          (c in pending && c in w.catalogs && c !in w.catalogCheckFails && DropCatalog(c) !in w.failing))
    && (!err ==> forall c :: c in pending && c !in here ==> c !in w.catalogs)
  }

  /** The inner loop for one pair: check each pending catalog and drop the ones that exist. */
  method DropAtSite(dm: Database, pending: set<string>) returns (err: bool, dropped: seq<string>)
    modifies dm
    ensures SiteDone(old(dm.world), pending, err, dropped)
  {
    ghost var w0 := dm.world;
    dropped := [];
    var todo := pending;
    while todo != {}
      invariant todo <= pending
      invariant SameFaults(dm.world, w0)
      invariant forall c :: c in todo ==> (c in dm.world.catalogs <==> c in w0.catalogs)
      invariant forall c :: c in dropped ==> c !in todo
      invariant SiteDone(w0, pending - todo, false, dropped)
      decreases |todo|
    {
      var name :| name in todo;
      todo := todo - {name};
      var present := dm.CatalogExists(name);
      if present.None? {
        return true, dropped;
      }
      if present.value {
        ExecuteSingle(dm.world, DropCatalog(name));
        var ok := dm.Execute([DropCatalog(name)]);
        if !ok {
          return true, dropped;
        }
        dropped := dropped + [name];
      }
    }
    return false, dropped;
  }

  /** The drops made through the pair at index `site`, in the order they were made. */
  function SiteDrops(site: nat, names: seq<string>): (r: seq<CatalogDrop>)
    ensures |r| == |names| && forall m :: 0 <= m < |names| ==> r[m] == CatalogDrop(site, names[m])
  {
    seq(|names|, m requires 0 <= m < |names| => CatalogDrop(site, names[m]))
  }

  /** The drops so far: each name once, from the configured set and no longer pending, made
      through the first pair (among the first `i`) whose side had it, where it passed its
      check and its drop. */
  ghost predicate DropsSoFar(all: set<string>, worlds: seq<World>, i: nat, pending: set<string>, drops: seq<CatalogDrop>) {
    i <= |worlds| && pending <= all && DistinctNames(drops)
    && (forall d :: d in drops ==>
          (d.site < i && d.name in all && d.name !in pending
           && d.name in worlds[d.site].catalogs && DropCatalog(d.name) !in worlds[d.site].failing))
    && (forall d, j :: d in drops && 0 <= j < d.site ==> d.name !in worlds[j].catalogs)
    && (forall c :: c in all && c !in pending ==> exists d :: d in drops && d.name == c)
  }

  /** Every name still pending is absent from the first `i` pairs. */
  ghost predicate PendingAbsent(worlds: seq<World>, i: nat, pending: set<string>) {
    i <= |worlds| && forall c, j :: c in pending && 0 <= j < i ==> c !in worlds[j].catalogs
  }

  /** Recording one pair's pass keeps the drop log's properties, and without an error also
      keeps every pending name absent from the pairs visited. */
  lemma CatalogStep(all: set<string>, worlds: seq<World>, i: nat, pending: set<string>, drops: seq<CatalogDrop>,
                    err: bool, here: seq<string>)
    requires i < |worlds| && DropsSoFar(all, worlds, i, pending, drops) && PendingAbsent(worlds, i, pending)
    requires SiteDone(worlds[i], pending, err, here)
    ensures DropsSoFar(all, worlds, i + 1, pending - (set c | c in here), drops + SiteDrops(i, here))
    ensures !err ==> PendingAbsent(worlds, i + 1, pending - (set c | c in here))
  {
    var drops' := drops + SiteDrops(i, here);
    var pending' := pending - (set c | c in here);
    assert DropsSoFar(all, worlds, i + 1, pending', drops') by {
      assert forall d :: d in drops' ==> d in drops || (d.site == i && d.name in here);
      forall c | c in all && c !in pending'
        ensures exists d :: d in drops' && d.name == c
      {
        if c in here {
          var m :| 0 <= m < |here| && here[m] == c;
          assert drops'[|drops| + m] == CatalogDrop(i, c);
        }
      }
      forall a, b | 0 <= a < b < |drops'|
        ensures drops'[a].name != drops'[b].name
      {
        if b >= |drops| && a < |drops| {
          assert drops'[a] in drops;
        }
      }
    }
  }

  /** dropAllCatalogsAfterAllPairs over the pairs' states after the rollback. */
  method DropAllCatalogs(catalogs: seq<string>, worlds: seq<World>) returns (err: bool, drops: seq<CatalogDrop>)
    requires |catalogs| == |worlds|
    ensures CatalogSet(catalogs) == {} ==> err && drops == []
    ensures DistinctNames(drops)
    ensures forall d :: d in drops ==>
      (d.site < |worlds| && d.name in CatalogSet(catalogs)
       && d.name in worlds[d.site].catalogs && DropCatalog(d.name) !in worlds[d.site].failing)
    ensures forall d, j :: d in drops && 0 <= j < d.site ==> d.name !in worlds[j].catalogs
    ensures !err ==> forall c :: c in CatalogSet(catalogs) ==>
      (exists d :: d in drops && d.name == c) || (forall j :: 0 <= j < |worlds| ==> c !in worlds[j].catalogs)
  {
    var pending := CatalogSet(catalogs);
    drops := [];
    if pending == {} {
      return true, [];
    }
    ghost var all := pending;
    for i := 0 to |worlds|
      invariant DropsSoFar(all, worlds, i, pending, drops) && PendingAbsent(worlds, i, pending)
    {
      var dm := new Database(worlds[i]);
      var here;
      err, here := DropAtSite(dm, pending);
      CatalogStep(all, worlds, i, pending, drops, err, here);
      drops := drops + SiteDrops(i, here);
      pending := pending - (set c | c in here);
      if err {
        return true, drops;
      }
    }
    return false, drops;
  }

  // ---------------------------------------------------------------------------
  // ExecuteRollbackForAllPairs

  /** A pair's recorded outcome is its rollback run over the common tables, found in the order
      `common`, each listed once. */
  ghost predicate Recorded(setup: PairSetup, strategy: string, ignore: set<string>, out: PairOutcome, common: seq<string>) {
    out == PairRun(setup.world, setup.pair, strategy == ContinueOnError, common)
    && (!PrefetchFails(setup.world) ==>
          (forall t :: t in common <==> t in CommonSet(setup.world, ignore, setup.pair.suffix)) && Distinct(common))
  }

  /** One iteration of the pair loop: a fresh connection and manager for the pair, its rollback,
      and its outcome. */
  method RollbackOnePair(setup: PairSetup, strategy: string, ignore: set<string>)
    returns (out: PairOutcome, ghost common: seq<string>)
    ensures Recorded(setup, strategy, ignore, out, common)
  {
    var db := new Database(setup.world);
    var rm := new RollbackManager(db, setup.pair, strategy, ignore);
    var pairErr;
    pairErr, common := rm.ExecuteRollback();
    out := PairOutcome(rm.stats, pairErr, db.world);
  }

  /** The pair phase after the pairs recorded in `outs`: each recorded pair ran its rollback,
      and the totals aggregate their stats. */
  ghost predicate PhaseState(setups: seq<PairSetup>, strategy: string, ignore: set<string>,
                             outs: seq<PairOutcome>, commons: seq<seq<string>>, totals: Totals) {
    |outs| == |commons| <= |setups|
    && (forall k :: 0 <= k < |outs| ==> Recorded(setups[k], strategy, ignore, outs[k], commons[k]))
    && totals == Aggregate(PairNames(setups[..|outs|]), outs)
  }

  /** Recording the next pair keeps the phase state. */
  lemma PhaseStep(setups: seq<PairSetup>, strategy: string, ignore: set<string>, outs: seq<PairOutcome>,
                  commons: seq<seq<string>>, totals: Totals, out: PairOutcome, common: seq<string>)
    requires PhaseState(setups, strategy, ignore, outs, commons, totals) && |outs| < |setups|
    requires Recorded(setups[|outs|], strategy, ignore, out, common)
    ensures PhaseState(setups, strategy, ignore, outs + [out], commons + [common],
      Totals(totals.total + out.stats.totalTables, totals.success + out.stats.successTables,
             totals.failed + Tagged(setups[|outs|].pair.name, out.stats.failed)))
  {
    var i := |outs|;
    RecordedSnoc(setups, strategy, ignore, outs, commons, out, common);
    PairNamesSnoc(setups, i);
    AggregateSnoc(PairNames(setups[..i]), outs, setups[i].pair.name, out);
  }

  lemma RecordedSnoc(setups: seq<PairSetup>, strategy: string, ignore: set<string>, outs: seq<PairOutcome>,
                     commons: seq<seq<string>>, out: PairOutcome, common: seq<string>)
    requires |outs| == |commons| < |setups|
    requires forall k :: 0 <= k < |outs| ==> Recorded(setups[k], strategy, ignore, outs[k], commons[k])
    requires Recorded(setups[|outs|], strategy, ignore, out, common)
    ensures forall k :: 0 <= k < |outs| + 1 ==>
      Recorded(setups[k], strategy, ignore, (outs + [out])[k], (commons + [common])[k])
  {
    forall k | 0 <= k < |outs| + 1
      ensures Recorded(setups[k], strategy, ignore, (outs + [out])[k], (commons + [common])[k])
    {
      if k < |outs| {
        assert (outs + [out])[k] == outs[k] && (commons + [common])[k] == commons[k];
      }
    }
  }

  lemma PairNamesSnoc(setups: seq<PairSetup>, i: nat)
    requires i < |setups|
    ensures PairNames(setups[..i + 1]) == PairNames(setups[..i]) + [setups[i].pair.name]
  {
  }

  /** The pair phase of ExecuteRollbackForAllPairs: each pair in configuration order, its stats
      added to the totals before its error is looked at, the first pair error ending the phase.
      `outs` and `commons` record each attempted pair; `finals` is each pair's state after it. */
  method RollbackPairs(setups: seq<PairSetup>, strategy: string, ignore: set<string>)
    returns (pairErr: bool, totals: Totals, ghost outs: seq<PairOutcome>, ghost commons: seq<seq<string>>,
             finals: seq<World>)
    ensures PhaseState(setups, strategy, ignore, outs, commons, totals)
    ensures forall k :: 0 <= k < |outs| - 1 ==> !outs[k].err
    ensures pairErr <==> outs != [] && outs[|outs| - 1].err
    ensures !pairErr ==> |outs| == |setups| == |finals| && forall k :: 0 <= k < |outs| ==> finals[k] == outs[k].world
  {
    totals := Totals(0, 0, []);
    outs := [];
    commons := [];
    finals := [];
    for i := 0 to |setups|
      invariant |outs| == i == |finals|
      invariant PhaseState(setups, strategy, ignore, outs, commons, totals)
      invariant forall k :: 0 <= k < i ==> !outs[k].err && finals[k] == outs[k].world
    {
      var out, common := RollbackOnePair(setups[i], strategy, ignore);
      var failedAll := AppendTagged(totals.failed, setups[i].pair.name, out.stats.failed);
      PhaseStep(setups, strategy, ignore, outs, commons, totals, out, common);
      totals := Totals(totals.total + out.stats.totalTables, totals.success + out.stats.successTables, failedAll);
      outs := outs + [out];
      commons := commons + [common];
      if out.err {
        return true, totals, outs, commons, finals;
      }
      finals := finals + [out.world];
    }
    return false, totals, outs, commons, finals;
  }

  /** ExecuteRollbackForAllPairs once the lock is held: the pair phase, then, when no pair
      errored, the catalog phase over the pairs' states after their rollback. */
  method ExecuteRollbackForAllPairs(setups: seq<PairSetup>, strategy: string, ignore: set<string>)
    returns (err: bool, totals: Totals, ghost outs: seq<PairOutcome>, ghost commons: seq<seq<string>>,
             drops: seq<CatalogDrop>)
    ensures PhaseState(setups, strategy, ignore, outs, commons, totals)
    ensures forall k :: 0 <= k < |outs| - 1 ==> !outs[k].err
    ensures totals.success + |totals.failed| <= totals.total
    ensures (outs != [] && outs[|outs| - 1].err) ==> err && drops == []
    ensures |outs| < |setups| ==> err && drops == []
    ensures DistinctNames(drops)
    ensures forall d :: d in drops ==>
      (d.site < |setups| && d.name in CatalogSet(Catalogs(setups)) && d.name in outs[d.site].world.catalogs)
    ensures forall d, j :: d in drops && 0 <= j < d.site ==> d.name !in outs[j].world.catalogs
    ensures !err ==> |outs| == |setups| && totals.success + |totals.failed| == totals.total
    ensures !err ==> forall c :: c in CatalogSet(Catalogs(setups)) ==>
      (exists d :: d in drops && d.name == c) || (forall j :: 0 <= j < |setups| ==> c !in outs[j].world.catalogs)
  {
    var pairErr, finals;
    pairErr, totals, outs, commons, finals := RollbackPairs(setups, strategy, ignore);
    forall k | 0 <= k < |outs| {
      PairRunBalanced(setups[k].world, setups[k].pair, strategy == ContinueOnError, commons[k]);
    }
    AggregateCounts(PairNames(setups[..|outs|]), outs);
    if pairErr {
      return true, totals, outs, commons, [];
    }
    err, drops := DropAllCatalogs(Catalogs(setups), finals);
    assert forall j :: 0 <= j < |setups| ==> finals[j] == outs[j].world;
  }

  /** The catalog names of the pairs, in configuration order. */
  function Catalogs(setups: seq<PairSetup>): (r: seq<string>)
    ensures |r| == |setups| && forall k :: 0 <= k < |setups| ==> r[k] == setups[k].catalog
  {
    seq(|setups|, k requires 0 <= k < |setups| => setups[k].catalog)
  }
}
