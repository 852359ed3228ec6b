/**
 * Snapshots and fingerprints (internal/catalog/store.go, internal/catalog/loader.go): the
 * rows an instance shows are always rows that were committed, and they are the current
 * ones unless two committed contents of the namespace have the same fingerprint.
 */
module CatalogSnapshots {
  import opened Common
  import F = Flights
  import opened Catalog
  import opened CatalogRuns
  import opened CatalogPaths
  import opened CatalogLoads
  import opened CatalogSync

  // ------------------------------------------------------- only committed rows are shown

  ghost predicate WasCommitted(g: Global, ns: NamespaceId, raw: Raw) {
    exists v :: 0 < v <= Version(g, ns) && ContentAt(g, ns, v) == Some(raw)
  }

  ghost predicate IndexCommitted(g: Global, index: map<NamespaceId, Raw>) {
    forall ns :: ns in index ==> WasCommitted(g, ns, index[ns])
  }

  lemma CommittedStays(g: Global, h: Global, ns: NamespaceId, raw: Raw)
    requires ExtendsAt(g, h, ns) && WasCommitted(g, ns, raw)
    ensures WasCommitted(h, ns, raw)
  {
    var v :| 0 < v <= Version(g, ns) && ContentAt(g, ns, v) == Some(raw);
    assert ContentAt(h, ns, v) == Some(raw);
  }

  lemma ApplyIndexCommitted(fp: Fingerprint, g: Global, x: Instance, r: nat)
    requires CanApply(g, x, r) && IndexCommitted(g, x.index)
    ensures IndexCommitted(g, ApplyLoad(fp, g, x, r).index)
  {
    var content := ContentAt(g, x.flights.runners[r].ns, x.loads[r].version);
    assert content.Some? ==> WasCommitted(g, x.flights.runners[r].ns, content.value);
  }

  lemma LocalIndexCommitted(fp: Fingerprint, g: Global, x: Instance, step: LocalStep)
    requires Enabled(g, x, step) && IndexCommitted(g, x.index)
    ensures IndexCommitted(g, Do(fp, g, x, step).index)
  {
    if step.Apply? {
      ApplyIndexCommitted(fp, g, x, step.r);
    } else {
      assert Do(fp, g, x, step).index == x.index;
    }
  }

  lemma StepIndexCommitted(fp: Fingerprint, s: State, step: Step, k: nat)
    requires Inv(fp, s) && CanStep(s, step) && k < |s.instances| && IndexCommitted(s.g, s.instances[k].index)
    ensures k < |Take(fp, s, step).instances|
    ensures IndexCommitted(Take(fp, s, step).g, Take(fp, s, step).instances[k].index)
  {
    var n := Take(fp, s, step);
    SharedStepExtends(fp, s, step);
    if step.Local? && step.k == k {
      LocalIndexCommitted(fp, s.g, s.instances[k], step.step);
    } else {
      forall ns | ns in n.instances[k].index
        ensures WasCommitted(n.g, ns, n.instances[k].index[ns])
      {
        assert ExtendsAt(s.g, n.g, ns);
        CommittedStays(s.g, n.g, ns, s.instances[k].index[ns]);
      }
    }
  }

  /** In every run, whatever an instance shows for a namespace was committed for it at some time. */
  lemma {:induction false} OnlyCommittedIsShown(fp: Fingerprint, run: seq<State>, steps: seq<Step>, i: nat, k: nat)
    requires IsRun(fp, run, steps) && i < |run| && k < |run[0].instances|
    ensures k < |run[i].instances| && IndexCommitted(run[i].g, run[i].instances[k].index)
  {
    if i > 0 {
      OnlyCommittedIsShown(fp, run, steps, i - 1, k);
      RunKeeps(fp, run, steps, i - 1);
      StepIndexCommitted(fp, run[i - 1], steps[i - 1], k);
    }
  }

  /** Two different committed contents of the namespace have the same fingerprint. */
  ghost predicate Collides(fp: Fingerprint, g: Global, ns: NamespaceId) {
    exists a, b :: a != b && WasCommitted(g, ns, a) && WasCommitted(g, ns, b) && fp(a).Some? && fp(a) == fp(b)
  }

  /** The snapshot of the namespace is exactly the content of the version it stands for. */
  ghost predicate ExactAt(s: State, k: nat, ns: NamespaceId) {
    && k < |s.instances| && Shows(s.instances[k], ns) <= Version(s.g, ns)
    && ContentAt(s.g, ns, Shows(s.instances[k], ns))
         == if ns in s.instances[k].index then Some(s.instances[k].index[ns]) else None
  }

  /**
   * While no two committed contents of a namespace collide, the snapshot is exactly the
   * content of the version it stands for, on every instance in every run.
   */
  lemma SnapshotIsExact(fp: Fingerprint, run: seq<State>, steps: seq<Step>, i: nat, k: nat, ns: NamespaceId)
    requires IsRun(fp, run, steps) && i < |run| && k < |run[0].instances| && !Collides(fp, run[i].g, ns)
    ensures ExactAt(run[i], k, ns)
  {
    OnlyCommittedIsShown(fp, run, steps, i, k);
    RunKeeps(fp, run, steps, i);
    var g, x := run[i].g, run[i].instances[k];
    assert InstanceOk(fp, g, x);
    assert NamespaceOk(fp, g, ns, x.index, x.fingerprints, x.applied, x.shows);
    var content := ContentAt(g, ns, Shows(x, ns));
    if content.Some? {
      assert WasCommitted(g, ns, content.value) && WasCommitted(g, ns, x.index[ns]);
    }
  }

  /**
   * Read-your-writes with the rows themselves: while no two committed contents of the
   * namespace collide, a returned call of Sync leaves exactly the rows of a version at
   * least as new as everything committed before the bump.
   */
  lemma ReadYourRows(fp: Fingerprint, run: seq<State>, steps: seq<Step>, k: nat, t: nat, c: nat, b: nat, m: nat, s: nat,
                     j: nat, ns: NamespaceId)
    requires IsRun(fp, run, steps) && IsCall(run, steps, k, t, b, m, s, j) && c < b && steps[c] == Bump(ns)
    requires ns !in run[m].g.pruned || !Dead(run[m].g, ns)
    requires !Collides(fp, run[j].g, ns)
    ensures Version(run[c].g, ns) <= Shows(run[j].instances[k], ns) && ExactAt(run[j], k, ns)
  {
    ReadYourWrites(fp, run, steps, k, t, c, b, m, s, j, ns);
    RunKeeps(fp, run, steps, j);
    SnapshotIsExact(fp, run, steps, j, k, ns);
  }

  // ----------------------------------------------------------- a collision in a run

  /** What two loads leave when the second content has the fingerprint of the first. */
  lemma StaleAfterCollision(fp: Fingerprint, a: Raw, b: Raw)
    requires fp(a).Some? && fp(a) == fp(b)
    ensures var x := Rested(fp, Rested(fp, NewInstance(), 1, a), 2, b);
            && x.flights.flights == [F.Flight(1, F.Done(true)), F.Flight(1, F.Done(true))]
            && Shows(x, 1) == 2 && 1 in x.index && x.index[1] == a
  {
  }

  /**
   * For any two contents with the same fingerprint there is a run in which a load that
   * read the second one finished without error and the snapshot still holds the first.
   */
  lemma CollisionKeepsOldRows(fp: Fingerprint, a: Raw, b: Raw) returns (run: seq<State>, steps: seq<Step>)
    requires a != b && fp(a).Some? && fp(a) == fp(b)
    ensures IsRun(fp, run, steps) && |steps| == 16 && |run[0].instances| == |run[16].instances| == 1
    ensures var g, x := run[16].g, run[16].instances[0];
            && x.flights.flights == [F.Flight(1, F.Done(true)), F.Flight(1, F.Done(true))]
            && Shows(x, 1) == Version(g, 1) == 2 && ContentAt(g, 1, 2) == Some(b)
            && 1 in x.index && x.index[1] == a
    ensures !ExactAt(run[16], 0, 1)
  {
    var x0 := NewInstance();
    var x1 := Rested(fp, x0, 1, a);
    var r1, s1 := CommitAndLoad(fp, [], Initial(1).g, x0, [], a);
    var r2, s2 := CommitAndLoad(fp, [], Contents([Some(a)]), x1, [Some(a)], b);
    assert [] + [Some(a)] == [Some(a)] && [Some(a)] + [Some(b)] == [Some(a), Some(b)];
    Join(fp, r1, s1, r2, s2);
    run, steps := r1 + r2[1..], s1 + s2;
    assert Initial(1).instances == [] + [x0];
    PathIsRun(fp, run, steps, 1);
    assert run[0] == r1[0] && run[16] == r2[8];
    StaleAfterCollision(fp, a, b);
  }

  ghost predicate Injective(fp: Fingerprint) {
    forall a, b :: fp(a).Some? && fp(a) == fp(b) ==> a == b
  }

  ghost predicate AlwaysExact(fp: Fingerprint) {
    forall run: seq<State>, steps: seq<Step>, i: nat, k: nat, ns: NamespaceId ::
      IsRun(fp, run, steps) && i < |run| && k < |run[0].instances| ==> ExactAt(run[i], k, ns)
  }

  /** Snapshots are exact in every run if and only if the fingerprint tells all rows apart. */
  lemma ExactIffInjective(fp: Fingerprint)
    ensures AlwaysExact(fp) <==> Injective(fp)
  {
    if !Injective(fp) {
      var a, b :| fp(a).Some? && fp(a) == fp(b) && a != b;
      var run, steps := CollisionKeepsOldRows(fp, a, b);
      var k: nat := 0;
      assert IsRun(fp, run, steps) && 16 < |run| && k < |run[0].instances| && !ExactAt(run[16], k, 1);
    }
    if Injective(fp) {
      forall run: seq<State>, steps: seq<Step>, i: nat, k: nat, ns: NamespaceId
        | IsRun(fp, run, steps) && i < |run| && k < |run[0].instances|
        ensures ExactAt(run[i], k, ns)
      {
        SnapshotIsExact(fp, run, steps, i, k, ns);
      }
    }
  }
}
