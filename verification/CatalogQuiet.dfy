/**
 * What Sync does not do (internal/catalog/marks.go): it asks for no namespace whose latest
 * change a load of the instance has already taken in.
 */
module CatalogQuiet {
  import F = Flights
  import opened Catalog
  import opened CatalogRuns
  import opened CatalogSync

  /** The load of runner r has observed this mark of the namespace and is not applied yet. */
  predicate Carries(x: Instance, r: nat, ns: NamespaceId, mark: nat) {
    && r in x.loads && r < |x.flights.runners| && x.flights.runners[r].ns == ns
    && (x.loads[r].Observed? || x.loads[r].Read?) && x.loads[r].mark == mark && x.loads[r].known
  }

  lemma RequestKeepsRunners(t: F.Table, ns: NamespaceId)
    requires ns in t.entries ==> t.entries[ns] < |t.cells|
    ensures t.runners <= F.Request(t, ns).0.runners
  {
  }

  lemma RequestCarries(g: Global, x: Instance, ms: NamespaceId, r: nat, ns: NamespaceId, mark: nat)
    requires CanRequest(x, ms) && Carries(x, r, ns, mark)
    ensures Carries(RequestFlight(g, x, ms).0, r, ns, mark)
  {
    RequestKeepsRunners(x.flights, ms);
  }

  /** Steps of loads: Begin, Observe, ReadDatabase, Apply, Finish and Advance. */
  predicate OfLoad(step: LocalStep) {
    step.Begin? || step.Observe? || step.ReadDatabase? || step.Apply? || step.Finish? || step.Advance?
  }

  lemma RunnerStays(g: Global, x: Instance, step: LocalStep, n: F.Table, r: nat)
    requires OfLoad(step) && Enabled(g, x, step) && r < |x.flights.runners|
    requires n == match step
                  case Begin(q) => F.Begin(x.flights, q)
                  case Finish(q) => F.Finish(x.flights, q, x.loads[q].Applied?)
                  case Advance(q) => F.Advance(x.flights, q)
                  case _ => x.flights
    ensures |n.runners| == |x.flights.runners| && n.runners[r].ns == x.flights.runners[r].ns
  {
  }

  lemma LoadCarries(fp: Fingerprint, g: Global, x: Instance, step: LocalStep, r: nat, ns: NamespaceId, mark: nat)
    requires RunnersOk(g, x.flights.runners, x.loads, x.shows, x.floors) && OfLoad(step) && Enabled(g, x, step)
    requires Carries(x, r, ns, mark) && step != Apply(r) && step != Finish(r)
    ensures Carries(Do(fp, g, x, step), r, ns, mark)
  {
    var n := Do(fp, g, x, step);
    RunnerStays(g, x, step, n.flights, r);
    if step.r == r {
      assert step.ReadDatabase? || step.Advance?;
    } else {
      assert r in n.loads && n.loads[r] == x.loads[r];
    }
  }

  lemma LocalCarries(fp: Fingerprint, g: Global, x: Instance, step: LocalStep, r: nat, ns: NamespaceId, mark: nat)
    requires RunnersOk(g, x.flights.runners, x.loads, x.shows, x.floors) && Enabled(g, x, step)
    requires Carries(x, r, ns, mark) && step != Apply(r) && step != Finish(r)
    ensures Carries(Do(fp, g, x, step), r, ns, mark)
  {
    if OfLoad(step) {
      LoadCarries(fp, g, x, step, r, ns, mark);
    } else if step.Request? {
      RequestCarries(g, x, step.ns, r, ns, mark);
    } else if step.SyncRequest? {
      RequestCarries(g, x, step.stale, r, ns, mark);
    } else {
      assert Do(fp, g, x, step).flights == x.flights && Do(fp, g, x, step).loads == x.loads;
    }
  }

  lemma ObserveCarries(fp: Fingerprint, g: Global, x: Instance, r: nat, n: Instance)
    requires Enabled(g, x, Observe(r, true)) && n == Do(fp, g, x, Observe(r, true))
    ensures Carries(n, r, x.flights.runners[r].ns, Lookup(g.marks, x.flights.runners[r].ns))
  {
  }

  lemma ApplyRecords(fp: Fingerprint, g: Global, x: Instance, r: nat, ns: NamespaceId, mark: nat, n: Instance)
    requires Enabled(g, x, Apply(r)) && n == Do(fp, g, x, Apply(r)) && Carries(x, r, ns, mark)
    ensures mark <= Lookup(n.applied, ns)
  {
  }

  /** The recorded mark never falls below this while the namespace exists. */
  lemma LocalRecorded(fp: Fingerprint, g: Global, x: Instance, step: LocalStep, ns: NamespaceId, mark: nat)
    requires Enabled(g, x, step) && mark <= Lookup(x.applied, ns) && !Dead(g, ns)
    requires forall t :: t in x.fulls ==> FullOk(g, x.fulls[t])
    ensures mark <= Lookup(Do(fp, g, x, step).applied, ns)
  {
    if step.FullPrune? {
      assert FullOk(g, x.fulls[step.t]);
      assert ns !in Prunable(x.fulls[step.t].marks, x.fulls[step.t].present, x.missing);
    }
  }

  lemma StepCarries(fp: Fingerprint, s: State, step: Step, n: State, k: nat, r: nat, ns: NamespaceId, mark: nat)
    requires Inv(fp, s) && CanStep(s, step) && n == Take(fp, s, step) && k < |s.instances| == |n.instances|
    requires Carries(s.instances[k], r, ns, mark) && step != Local(k, Apply(r)) && step != Local(k, Finish(r))
    ensures Carries(n.instances[k], r, ns, mark)
  {
    assert InstanceOk(fp, s.g, s.instances[k]);
    if step.Local? && step.k == k {
      LocalCarries(fp, s.g, s.instances[k], step.step, r, ns, mark);
    }
  }

  lemma StepRecorded(fp: Fingerprint, s: State, step: Step, n: State, k: nat, ns: NamespaceId, mark: nat)
    requires Inv(fp, s) && CanStep(s, step) && n == Take(fp, s, step) && k < |s.instances| == |n.instances|
    requires mark <= Lookup(s.instances[k].applied, ns) && !Dead(s.g, ns)
    ensures mark <= Lookup(n.instances[k].applied, ns)
  {
    assert InstanceOk(fp, s.g, s.instances[k]);
    if step.Local? && step.k == k {
      LocalRecorded(fp, s.g, s.instances[k], step.step, ns, mark);
    }
  }

  lemma {:induction false} CarriesUntil(fp: Fingerprint, run: seq<State>, steps: seq<Step>, i: nat, j: nat, k: nat,
                                        r: nat, ns: NamespaceId, mark: nat)
    requires IsRun(fp, run, steps) && i <= j < |run| && k < |run[i].instances|
    requires Carries(run[i].instances[k], r, ns, mark)
    requires forall q :: i <= q < j ==> steps[q] != Local(k, Apply(r)) && steps[q] != Local(k, Finish(r))
    ensures k < |run[j].instances| && Carries(run[j].instances[k], r, ns, mark)
    decreases j - i
  {
    if i < j {
      RunKeeps(fp, run, steps, i);
      RunKeeps(fp, run, steps, i + 1);
      StepCarries(fp, run[i], steps[i], run[i + 1], k, r, ns, mark);
      CarriesUntil(fp, run, steps, i + 1, j, k, r, ns, mark);
    }
  }

  lemma {:induction false} RecordedUntil(fp: Fingerprint, run: seq<State>, steps: seq<Step>, i: nat, j: nat, k: nat,
                                         ns: NamespaceId, mark: nat)
    requires IsRun(fp, run, steps) && i <= j < |run| && k < |run[i].instances| && !Dead(run[j].g, ns)
    requires mark <= Lookup(run[i].instances[k].applied, ns)
    ensures k < |run[j].instances| && mark <= Lookup(run[j].instances[k].applied, ns)
    decreases j - i
  {
    if i < j {
      RunKeeps(fp, run, steps, i);
      RunKeeps(fp, run, steps, i + 1);
      SharedGrows(fp, run, steps, i, j, ns);
      StepRecorded(fp, run[i], steps[i], run[i + 1], k, ns, mark);
      RecordedUntil(fp, run, steps, i + 1, j, k, ns, mark);
    }
  }

  /** A load of runner r on instance k observed the mark of the namespace at step o and was applied at step a. */
  ghost predicate TookIn(run: seq<State>, steps: seq<Step>, k: nat, r: nat, ns: NamespaceId, o: nat, a: nat) {
    && o < a < |steps| < |run| && k < |run[o].instances|
    && steps[o] == Local(k, Observe(r, true)) && steps[a] == Local(k, Apply(r))
    && r < |run[o].instances[k].flights.runners| && run[o].instances[k].flights.runners[r].ns == ns
    && forall q :: o < q < a ==> steps[q] != Local(k, Apply(r)) && steps[q] != Local(k, Finish(r))
  }

  /** From then on the instance has recorded at least the mark it observed. */
  lemma TakenInIsRecorded(fp: Fingerprint, run: seq<State>, steps: seq<Step>, k: nat, r: nat, ns: NamespaceId, o: nat,
                          a: nat, i: nat)
    requires IsRun(fp, run, steps) && TookIn(run, steps, k, r, ns, o, a) && a < i < |run| && !Dead(run[i].g, ns)
    ensures k < |run[i].instances| && Lookup(run[o].g.marks, ns) <= Lookup(run[i].instances[k].applied, ns)
  {
    var mark := Lookup(run[o].g.marks, ns);
    RunKeeps(fp, run, steps, o);
    RunKeeps(fp, run, steps, o + 1);
    ObserveCarries(fp, run[o].g, run[o].instances[k], r, run[o + 1].instances[k]);
    CarriesUntil(fp, run, steps, o + 1, a, k, r, ns, mark);
    RunKeeps(fp, run, steps, a + 1);
    ApplyRecords(fp, run[a].g, run[a].instances[k], r, ns, mark, run[a + 1].instances[k]);
    RecordedUntil(fp, run, steps, a + 1, i, k, ns, mark);
  }

  lemma {:induction false} NoBump(fp: Fingerprint, run: seq<State>, steps: seq<Step>, i: nat, j: nat, ns: NamespaceId)
    requires IsRun(fp, run, steps) && i <= j < |run| && forall q :: i <= q < j ==> steps[q] != Bump(ns)
    ensures Bumps(run[j].g, ns) == Bumps(run[i].g, ns)
    decreases j - i
  {
    if i < j {
      assert run[i + 1] == Take(fp, run[i], steps[i]);
      NoBump(fp, run, steps, i + 1, j, ns);
    }
  }

  /**
   * A call of Sync never asks for a namespace that exists and was not bumped since a load
   * of the instance, applied before the call compares the marks, observed its mark.
   */
  lemma QuietSyncNeverAsks(fp: Fingerprint, run: seq<State>, steps: seq<Step>, k: nat, t: nat, b: nat, m: nat, s: nat,
                           j: nat, r: nat, ns: NamespaceId, o: nat, a: nat, q: nat)
    requires IsRun(fp, run, steps) && IsCall(run, steps, k, t, b, m, s, j) && b < q < j
    requires TookIn(run, steps, k, r, ns, o, a) && a < s && !Dead(run[s].g, ns)
    requires forall i :: o <= i < m ==> steps[i] != Bump(ns)
    ensures steps[q] != Local(k, SyncRequest(t, ns))
  {
    TakenInIsRecorded(fp, run, steps, k, r, ns, o, a, s);
    MarkNotAhead(fp, run, steps, o, m, s, ns);
    CallIsTrace(fp, run, steps, k, t, b, m, s, j);
    NeverAsked(run, steps, k, t, b, m, s, j, ns, q);
  }

  /** The mark read at m is not ahead of the one observed at o. */
  lemma MarkNotAhead(fp: Fingerprint, run: seq<State>, steps: seq<Step>, o: nat, m: nat, s: nat, ns: NamespaceId)
    requires IsRun(fp, run, steps) && m < s < |run| && o < s && !Dead(run[s].g, ns)
    requires forall i :: o <= i < m ==> steps[i] != Bump(ns)
    ensures Lookup(run[m].g.marks, ns) <= Lookup(run[o].g.marks, ns)
  {
    RunKeeps(fp, run, steps, m);
    RunKeeps(fp, run, steps, o);
    assert GlobalOk(run[m].g, ns) && GlobalOk(run[o].g, ns);
    SharedGrows(fp, run, steps, m, s, ns);
    SharedGrows(fp, run, steps, o, s, ns);
    if m <= o {
      SharedGrows(fp, run, steps, m, o, ns);
    } else {
      NoBump(fp, run, steps, o, m, ns);
    }
  }

  /**
   * The end of a full reload: exactly the marks that are missing now and were missing in the
   * one before are to be deleted and their recorded marks are forgotten; the marks that are
   * missing for the first time are remembered; no other recorded mark changes.
   */
  lemma PruneIsExact(fp: Fingerprint, run: seq<State>, steps: seq<Step>, i: nat, k: nat, t: nat, ns: NamespaceId)
    requires IsRun(fp, run, steps) && i < |steps| && steps[i] == Local(k, FullPrune(t))
    ensures k < |run[i].instances| == |run[i + 1].instances|
    ensures t in run[i].instances[k].fulls && run[i].instances[k].fulls[t].FullListed?
    ensures var x, y := run[i].instances[k], run[i + 1].instances[k];
            var absent := ns in x.fulls[t].marks && ns !in x.fulls[t].present;
            && t in y.fulls && y.fulls[t].FullDeleting?
            && (ns in y.fulls[t].prune <==> absent && ns in x.missing)
            && (ns in y.missing <==> absent && ns !in x.missing)
            && Lookup(y.applied, ns) == if absent && ns in x.missing then 0 else Lookup(x.applied, ns)
  {
    assert run[i + 1] == Take(fp, run[i], steps[i]);
  }
}
