/**
 * What read-your-writes does not cover: a run of two instances in which Sync
 * misses an acknowledged deletion because its mark was pruned before.
 *
 * Instance 1 loads namespace 1 and is done with it; the namespace is deleted and its
 * mark bumped; two full reloads of instance 0 prune the mark; then instance 1 calls
 * Sync, which finds no mark, returns, and keeps showing the deleted namespace.
 */
module CatalogPruning {
  import opened Common
  import opened Catalog
  import opened CatalogRuns
  import opened CatalogPaths
  import opened CatalogLoads

  // ------------------------------------------------------------ the shared states

  function Created(): Global {
    Contents([Some(10)])
  }

  function Gone(): Global {
    Contents([Some(10), None])
  }

  function Marked(): Global {
    Gone().(marks := map[1 := 1], bumps := map[1 := [2]])
  }

  function Pruned(): Global {
    Gone().(bumps := map[1 := [2]], pruned := {1})
  }

  lemma SharedSteps()
    ensures Committed(Created(), 1, None) == Gone() && !Dead(Created(), 1)
    ensures Bumped(Gone(), 1) == Marked() && Version(Gone(), 1) == 2
    ensures Deleted(Marked(), {1}) == Pruned() && Dead(Pruned(), 1)
  {
    assert [Some(10)] + [None] == [Some(10), None];
    assert Committed(Created(), 1, None).db == Gone().db;
    assert Bumps(Gone(), 1) + [2] == [2];
    assert Bumped(Gone(), 1).marks == Marked().marks && Bumped(Gone(), 1).bumps == Marked().bumps;
    assert Deleted(Marked(), {1}).marks == Pruned().marks;
  }

  /** Instance 1 after it loaded the namespace. */
  function Loaded(fp: Fingerprint): Instance {
    Rested(fp, NewInstance(), 1, 10)
  }

  // ------------------------------------------- instance 0 reloads everything, twice

  function Reloading(missing: set<NamespaceId>, fulls: map<nat, Full>): Instance {
    NewInstance().(missing := missing, fulls := fulls)
  }

  const MARK: map<NamespaceId, nat> := map[1 := 1]

  lemma FullReload(fp: Fingerprint, t: nat, missing: set<NamespaceId>, fulls: map<nat, Full>)
    requires t !in fulls
    ensures var x := Reloading(missing, fulls);
            Enabled(Marked(), x, FullMarks(t))
            && Do(fp, Marked(), x, FullMarks(t)) == Reloading(missing, fulls[t := FullMarked(MARK)])
    ensures var x := Reloading(missing, fulls[t := FullMarked(MARK)]);
            Enabled(Marked(), x, FullList(t))
            && Do(fp, Marked(), x, FullList(t)) == Reloading(missing, fulls[t := FullListed(MARK, {})])
  {
    assert fulls[t := FullMarked(MARK)][t := FullListed(MARK, {})] == fulls[t := FullListed(MARK, {})];
    assert (set ns | ns in Marked().db && Version(Marked(), ns) > 0 && !Dead(Marked(), ns)) == {};
  }

  lemma FullPrunes(fp: Fingerprint, t: nat, seen: bool, fulls: map<nat, Full>)
    requires t !in fulls
    ensures var missing: set<NamespaceId> := if seen then {1} else {};
            var x := Reloading(missing, fulls[t := FullListed(MARK, {})]);
            Enabled(Marked(), x, FullPrune(t))
            && Do(fp, Marked(), x, FullPrune(t)) == Reloading({1} - missing, fulls[t := FullDeleting(missing)])
  {
    var missing: set<NamespaceId> := if seen then {1} else {};
    assert fulls[t := FullListed(MARK, {})][t := FullDeleting(missing)] == fulls[t := FullDeleting(missing)];
    assert Prunable(MARK, {}, missing) == missing && NowMissing(MARK, {}, missing) == {1} - missing;
    var none: map<NamespaceId, nat> := map[];
    assert none - missing == none;
  }

  // ------------------------------------------------------- instance 1 calls Sync

  function Calling(fp: Fingerprint, sync: Sync): Instance {
    Loaded(fp).(syncs := map[0 := sync])
  }

  const GOAL: map<NamespaceId, nat> := map[1 := 2]
  const MARKED: Sync := SyncMarked(map[], map[])
  const WAITING: Sync := SyncWaiting(map[], {}, map[])

  lemma SyncFindsNoMark(fp: Fingerprint)
    ensures Enabled(Pruned(), Loaded(fp), SyncBegin(0))
    ensures Do(fp, Pruned(), Loaded(fp), SyncBegin(0)) == Calling(fp, SyncBegun(GOAL))
    ensures Enabled(Pruned(), Calling(fp, SyncBegun(GOAL)), SyncMarks(0))
    ensures Do(fp, Pruned(), Calling(fp, SyncBegun(GOAL)), SyncMarks(0)) == Calling(fp, MARKED)
  {
    assert (map ns | ns in Pruned().bumps :: Acknowledged(Pruned(), ns)) == GOAL;
    var none: map<nat, Sync> := map[];
    assert none[0 := SyncBegun(GOAL)] == map[0 := SyncBegun(GOAL)];
    assert GOAL - {1} == map[];
    assert map[0 := SyncBegun(GOAL)][0 := MARKED] == map[0 := MARKED];
  }

  lemma SyncReturnsAtOnce(fp: Fingerprint)
    ensures Enabled(Pruned(), Calling(fp, MARKED), SyncStale(0))
    ensures Do(fp, Pruned(), Calling(fp, MARKED), SyncStale(0)) == Calling(fp, WAITING)
    ensures Enabled(Pruned(), Calling(fp, WAITING), SyncReturn(0))
    ensures Do(fp, Pruned(), Calling(fp, WAITING), SyncReturn(0)) == Calling(fp, SyncReturned(map[]))
  {
    assert Stale(Loaded(fp).applied, map[]) == {};
    assert map[0 := MARKED][0 := WAITING] == map[0 := WAITING];
    assert map[0 := WAITING][0 := SyncReturned(map[])] == map[0 := SyncReturned(map[])];
  }

  // ---------------------------------------------------------------------- the run

  ghost function Pair(g: Global, a: Instance, b: Instance): State {
    Beside([a], g, b)
  }

  lemma StepOf0(fp: Fingerprint, g: Global, a: Instance, b: Instance, step: LocalStep, n: Instance)
    requires Enabled(g, a, step) && Do(fp, g, a, step) == n
    ensures Leads(fp, Pair(g, a, b), Local(0, step), Pair(g, n, b))
  {
    assert ([a] + [b])[0 := n] == [n] + [b];
  }

  lemma StepOf1(fp: Fingerprint, g: Global, a: Instance, b: Instance, step: LocalStep, n: Instance)
    requires Enabled(g, b, step) && Do(fp, g, b, step) == n
    ensures Leads(fp, Pair(g, a, b), Local(1, step), Pair(g, a, n))
  {
    StepBeside(fp, [a], g, b, step, n);
  }

  // Part one: instance 1 loads the namespace, which is then deleted and bumped.

  ghost function DeleteStates(b: Instance): seq<State> {
    [Pair(Created(), NewInstance(), b), Pair(Gone(), NewInstance(), b), Pair(Marked(), NewInstance(), b)]
  }

  const DELETE_STEPS: seq<Step> := [Commit(1, None), Bump(1)]

  lemma DeletePath(fp: Fingerprint, b: Instance)
    ensures Path(fp, DeleteStates(b), DELETE_STEPS)
  {
    SharedSteps();
  }

  /** The whole of part one, in one path. */
  lemma FirstPath(fp: Fingerprint) returns (run: seq<State>, steps: seq<Step>)
    ensures Path(fp, run, steps) && |steps| == 10
    ensures run[0] == Initial(2) && run[9].g == Gone() && run[10] == Pair(Marked(), NewInstance(), Loaded(fp))
    ensures steps[9] == Bump(1)
  {
    var a := NewInstance();
    var first, loading := CommitAndLoad(fp, [a], Initial(2).g, a, [], 10);
    assert [] + [Some(10)] == [Some(10)] && Initial(2).instances == [a] + [a];
    DeletePath(fp, Loaded(fp));
    Join(fp, first, loading, DeleteStates(Loaded(fp)), DELETE_STEPS);
    run, steps := first + DeleteStates(Loaded(fp))[1..], loading + DELETE_STEPS;
  }

  // Part two: a full reload of instance 0 notes the mark as missing, the next one prunes it.

  ghost function ReloadStates(t: nat, missing: set<NamespaceId>, fulls: map<nat, Full>, prunable: set<NamespaceId>,
                              b: Instance): seq<State> {
    [Pair(Marked(), Reloading(missing, fulls), b),
     Pair(Marked(), Reloading(missing, fulls[t := FullMarked(MARK)]), b),
     Pair(Marked(), Reloading(missing, fulls[t := FullListed(MARK, {})]), b),
     Pair(Marked(), Reloading({1} - prunable, fulls[t := FullDeleting(prunable)]), b)]
  }

  function ReloadSteps(t: nat): seq<Step> {
    [Local(0, FullMarks(t)), Local(0, FullList(t)), Local(0, FullPrune(t))]
  }

  lemma ReloadPath(fp: Fingerprint, t: nat, seen: bool, fulls: map<nat, Full>, b: Instance)
    requires t !in fulls
    ensures var missing: set<NamespaceId> := if seen then {1} else {};
            Path(fp, ReloadStates(t, missing, fulls, missing, b), ReloadSteps(t))
  {
    var missing: set<NamespaceId> := if seen then {1} else {};
    FullReload(fp, t, missing, fulls);
    FullPrunes(fp, t, seen, fulls);
    StepOf0(fp, Marked(), Reloading(missing, fulls), b, FullMarks(t), Reloading(missing, fulls[t := FullMarked(MARK)]));
    StepOf0(fp, Marked(), Reloading(missing, fulls[t := FullMarked(MARK)]), b, FullList(t),
            Reloading(missing, fulls[t := FullListed(MARK, {})]));
    StepOf0(fp, Marked(), Reloading(missing, fulls[t := FullListed(MARK, {})]), b, FullPrune(t),
            Reloading({1} - missing, fulls[t := FullDeleting(missing)]));
  }

  const ONCE: map<nat, Full> := map[0 := FullDeleting({})]

  ghost function PruneStates(b: Instance): seq<State> {
    [Pair(Marked(), Reloading({}, ONCE[1 := FullDeleting({1})]), b), Pair(Pruned(), Reloading({}, ONCE), b)]
  }

  lemma PrunePath(fp: Fingerprint, b: Instance)
    ensures Path(fp, PruneStates(b), [DeleteMarks(0, 1)])
  {
    SharedSteps();
    var x := Reloading({}, ONCE[1 := FullDeleting({1})]);
    assert x.fulls - {1} == ONCE;
    assert ([x] + [b])[0 := x.(fulls := ONCE)] == [Reloading({}, ONCE)] + [b];
  }

  // Part three: instance 1 calls Sync.

  ghost function AskStates(fp: Fingerprint, a: Instance): seq<State> {
    [Pair(Pruned(), a, Loaded(fp)), Pair(Pruned(), a, Calling(fp, SyncBegun(GOAL))),
     Pair(Pruned(), a, Calling(fp, MARKED))]
  }

  const ASK_STEPS: seq<Step> := [Local(1, SyncBegin(0)), Local(1, SyncMarks(0))]

  lemma AskPath(fp: Fingerprint, a: Instance)
    ensures Path(fp, AskStates(fp, a), ASK_STEPS)
  {
    SyncFindsNoMark(fp);
    StepOf1(fp, Pruned(), a, Loaded(fp), SyncBegin(0), Calling(fp, SyncBegun(GOAL)));
    StepOf1(fp, Pruned(), a, Calling(fp, SyncBegun(GOAL)), SyncMarks(0), Calling(fp, MARKED));
  }

  ghost function ReturnStates(fp: Fingerprint, a: Instance): seq<State> {
    [Pair(Pruned(), a, Calling(fp, MARKED)), Pair(Pruned(), a, Calling(fp, WAITING)),
     Pair(Pruned(), a, Calling(fp, SyncReturned(map[])))]
  }

  const RETURN_STEPS: seq<Step> := [Local(1, SyncStale(0)), Local(1, SyncReturn(0))]

  lemma ReturnPath(fp: Fingerprint, a: Instance)
    ensures Path(fp, ReturnStates(fp, a), RETURN_STEPS)
  {
    SyncReturnsAtOnce(fp);
    StepOf1(fp, Pruned(), a, Calling(fp, MARKED), SyncStale(0),
            Calling(fp, WAITING));
    StepOf1(fp, Pruned(), a, Calling(fp, WAITING), SyncReturn(0), Calling(fp, SyncReturned(map[])));
  }

  /** The whole call, in one path. */
  lemma SyncPath(fp: Fingerprint, a: Instance) returns (run: seq<State>, steps: seq<Step>)
    ensures Path(fp, run, steps) && steps == ASK_STEPS + RETURN_STEPS
    ensures run[0] == Pair(Pruned(), a, Loaded(fp)) && run[1].g == Pruned()
    ensures run[4] == Pair(Pruned(), a, Calling(fp, SyncReturned(map[])))
  {
    AskPath(fp, a);
    ReturnPath(fp, a);
    Join(fp, AskStates(fp, a), ASK_STEPS, ReturnStates(fp, a), RETURN_STEPS);
    run, steps := AskStates(fp, a) + ReturnStates(fp, a)[1..], ASK_STEPS + RETURN_STEPS;
  }

  /** The two full reloads and the deletion, in one path. */
  lemma PruningPath(fp: Fingerprint, b: Instance) returns (run: seq<State>, steps: seq<Step>)
    ensures Path(fp, run, steps) && |steps| == 7
    ensures run[0] == Pair(Marked(), NewInstance(), b) && run[7] == Pair(Pruned(), Reloading({}, ONCE), b)
  {
    var none: map<nat, Full> := map[];
    ReloadPath(fp, 0, false, none, b);
    ReloadPath(fp, 1, true, ONCE, b);
    PrunePath(fp, b);
    assert none[0 := FullDeleting({})] == ONCE;
    var first := ReloadStates(0, {}, none, {}, b);
    var second := ReloadStates(1, {1}, ONCE, {1}, b);
    assert {1} - {} == {1} && {1} - {1} == {};
    assert first[3] == second[0] && second[3] == PruneStates(b)[0];
    Join(fp, first, ReloadSteps(0), second, ReloadSteps(1));
    Join(fp, first + second[1..], ReloadSteps(0) + ReloadSteps(1), PruneStates(b), [DeleteMarks(0, 1)]);
    run, steps := first + second[1..] + PruneStates(b)[1..], ReloadSteps(0) + ReloadSteps(1) + [DeleteMarks(0, 1)];
  }

  /**
   * For every fingerprint function: the deletion of namespace 1 is committed before
   * the bump at step 9, the call of Sync begins at step 17 and returns at step 20,
   * and the caller's snapshot still holds the namespace with no load on its way.
   */
  lemma PrunedDeletionIsMissed(fp: Fingerprint) returns (run: seq<State>, steps: seq<Step>)
    ensures IsRun(fp, run, steps) && |steps| == 21
    ensures steps[9] == Bump(1) && Dead(run[9].g, 1)
    ensures steps[17] == Local(1, SyncBegin(0)) && steps[18] == Local(1, SyncMarks(0)) && 1 !in run[18].g.marks
    ensures steps[20] == Local(1, SyncReturn(0))
    ensures |run[21].instances| == 2 && 1 in run[21].instances[1].index && Dead(run[21].g, 1)
    ensures run[21].instances[1].flights.entries == map[] && run[21].instances[1].loads == map[]
  {
    var first, loading := FirstPath(fp);
    var middle, pruning := PruningPath(fp, Loaded(fp));
    var last, syncing := SyncPath(fp, Reloading({}, ONCE));
    Join(fp, first, loading, middle, pruning);
    Join(fp, first + middle[1..], loading + pruning, last, syncing);
    run, steps := first + middle[1..] + last[1..], loading + pruning + syncing;
    PathIsRun(fp, run, steps, 2);
    assert run[9] == first[9] && run[18] == last[1] && run[21] == last[4];
    assert steps[9] == loading[9] && steps[17] == syncing[0] && steps[18] == syncing[1] && steps[20] == syncing[3];
  }
}
