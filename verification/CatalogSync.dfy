/**
 * What a call of Sync guarantees (internal/catalog/marks.go): read-your-writes when the
 * mark is there as the call reads the marks, and exactly when otherwise.
 */
module CatalogSync {
  import opened Common
  import opened Catalog
  import opened CatalogRuns

  function Phase(sync: Sync): nat {
    match sync
    case SyncBegun(_) => 0
    case SyncMarked(_, _) => 1
    case SyncWaiting(_, _, _) => 2
    case SyncReturned(_) => 3
  }

  predicate OfCall(step: LocalStep, t: nat) {
    || step == SyncMarks(t) || step == SyncStale(t) || step == SyncReturn(t) || step == SyncFail(t)
    || (step.SyncRequest? && step.t == t)
  }

  /** Steps that are not of a call leave it alone. */
  lemma OthersLeaveCall(fp: Fingerprint, g: Global, x: Instance, step: LocalStep, t: nat)
    requires Enabled(g, x, step) && t in x.syncs && !OfCall(step, t)
    ensures t in Do(fp, g, x, step).syncs && Do(fp, g, x, step).syncs[t] == x.syncs[t]
  {
    if !AboutSync(step) {
      SyncsUntouched(fp, g, x, step);
    }
  }

  predicate AboutSync(step: LocalStep) {
    step.SyncBegin? || step.SyncMarks? || step.SyncStale? || step.SyncRequest? || step.SyncReturn? || step.SyncFail?
  }

  lemma SyncsUntouched(fp: Fingerprint, g: Global, x: Instance, step: LocalStep)
    requires Enabled(g, x, step) && !AboutSync(step)
    ensures Do(fp, g, x, step).syncs == x.syncs
  {
  }

  /** What a step makes of a call, n, whose instance has these applied marks. */
  ghost predicate Moves(g: Global, applied: map<NamespaceId, nat>, sync: Sync, step: LocalStep, n: Sync) {
    match step
    case SyncMarks(_) => sync.SyncBegun? && n == SyncMarked(sync.goal - g.pruned, g.marks)
    case SyncStale(_) => sync.SyncMarked? && n == SyncWaiting(sync.goal, Stale(applied, sync.marks), map[])
    case SyncRequest(_, ns) =>
      && sync.SyncWaiting? && ns in sync.stale && n.SyncWaiting? && n.stale == sync.stale - {ns}
      && n.goal == sync.goal[ns := Max(Lookup(sync.goal, ns), Version(g, ns))]
    case SyncReturn(_) => sync.SyncWaiting? && sync.stale == {} && n == SyncReturned(sync.goal)
    case _ => n == sync
  }

  lemma CallGoesOn(fp: Fingerprint, g: Global, x: Instance, step: LocalStep, t: nat)
    requires Enabled(g, x, step) && t in x.syncs && OfCall(step, t) && step != SyncFail(t)
    ensures t in Do(fp, g, x, step).syncs && Moves(g, x.applied, x.syncs[t], step, Do(fp, g, x, step).syncs[t])
  {
  }

  ghost predicate InCall(s: State, k: nat, t: nat) {
    k < |s.instances| && t in s.instances[k].syncs
  }

  function CallOf(s: State, k: nat, t: nat): Sync
    requires k < |s.instances| && t in s.instances[k].syncs
  {
    s.instances[k].syncs[t]
  }

  predicate OfStep(step: Step, k: nat, t: nat) {
    step.Local? && step.k == k && OfCall(step.step, t)
  }

  /** One step of the system, as the call sees it. */
  ghost predicate CallStep(s: State, step: Step, n: State, k: nat, t: nat) {
    && InCall(s, k, t) && InCall(n, k, t)
    && if OfStep(step, k, t) then Moves(s.g, s.instances[k].applied, CallOf(s, k, t), step.step, CallOf(n, k, t))
       else CallOf(n, k, t) == CallOf(s, k, t)
  }

  lemma TakeInCall(fp: Fingerprint, s: State, step: Step, n: State, k: nat, t: nat)
    requires CanStep(s, step) && n == Take(fp, s, step) && step != Local(k, SyncFail(t)) && InCall(s, k, t)
    ensures CallStep(s, step, n, k, t)
  {
    if step.Local? && step.k == k {
      if OfCall(step.step, t) {
        CallGoesOn(fp, s.g, s.instances[k], step.step, t);
      } else {
        OthersLeaveCall(fp, s.g, s.instances[k], step.step, t);
      }
    }
  }

  /**
   * Call t of Sync on instance k: it begins at step b, reads the marks at step m, compares
   * them with the applied ones at step s, and has returned without error in state j.
   */
  ghost predicate IsCall(run: seq<State>, steps: seq<Step>, k: nat, t: nat, b: nat, m: nat, s: nat, j: nat) {
    && b < m < s < j < |run| == |steps| + 1
    && steps[b] == Local(k, SyncBegin(t)) && steps[m] == Local(k, SyncMarks(t)) && steps[s] == Local(k, SyncStale(t))
    && (forall q :: b < q < j ==> steps[q] != Local(k, SyncFail(t)))
    && InCall(run[j], k, t) && CallOf(run[j], k, t).SyncReturned?
  }

  /** The call from its begin to its return, step by step. */
  ghost predicate Trace(run: seq<State>, steps: seq<Step>, k: nat, t: nat, b: nat, m: nat, s: nat, j: nat) {
    && IsCall(run, steps, k, t, b, m, s, j) && InCall(run[b + 1], k, t)
    && CallOf(run[b + 1], k, t) == SyncBegun(map ns | ns in run[b].g.bumps :: Acknowledged(run[b].g, ns))
    && forall i :: b < i < j ==> CallStep(run[i], steps[i], run[i + 1], k, t)
  }

  lemma TakeBegins(fp: Fingerprint, s: State, k: nat, t: nat)
    requires CanStep(s, Local(k, SyncBegin(t)))
    ensures var n := Take(fp, s, Local(k, SyncBegin(t)));
            InCall(n, k, t) && CallOf(n, k, t) == SyncBegun(map ns | ns in s.g.bumps :: Acknowledged(s.g, ns))
  {
  }

  lemma {:induction false} StaysInCall(fp: Fingerprint, run: seq<State>, steps: seq<Step>, p: nat, i: nat, k: nat,
                                       t: nat)
    requires IsRun(fp, run, steps) && p <= i < |run| && InCall(run[p], k, t)
    requires forall q :: p <= q < i ==> steps[q] != Local(k, SyncFail(t))
    ensures InCall(run[i], k, t)
    decreases i - p
  {
    if p < i {
      TakeInCall(fp, run[p], steps[p], run[p + 1], k, t);
      StaysInCall(fp, run, steps, p + 1, i, k, t);
    }
  }

  lemma CallIsTrace(fp: Fingerprint, run: seq<State>, steps: seq<Step>, k: nat, t: nat, b: nat, m: nat, s: nat, j: nat)
    requires IsRun(fp, run, steps) && IsCall(run, steps, k, t, b, m, s, j)
    ensures Trace(run, steps, k, t, b, m, s, j)
  {
    TakeBegins(fp, run[b], k, t);
    forall i | b < i < j
      ensures CallStep(run[i], steps[i], run[i + 1], k, t)
    {
      StaysInCall(fp, run, steps, b + 1, i, k, t);
      TakeInCall(fp, run[i], steps[i], run[i + 1], k, t);
    }
  }

  lemma {:induction false} PhaseRises(run: seq<State>, steps: seq<Step>, k: nat, t: nat, b: nat, m: nat, s: nat, j: nat,
                                      i: nat, q: nat)
    requires Trace(run, steps, k, t, b, m, s, j) && b < i <= q <= j
    ensures InCall(run[i], k, t) && InCall(run[q], k, t) && Phase(CallOf(run[i], k, t)) <= Phase(CallOf(run[q], k, t))
    decreases q - i
  {
    if i < q {
      assert CallStep(run[i], steps[i], run[i + 1], k, t);
      PhaseRises(run, steps, k, t, b, m, s, j, i + 1, q);
    } else if b + 1 < i {
      assert CallStep(run[i - 1], steps[i - 1], run[i], k, t);
    }
  }

  /** The marks that step s compares are those that step m read. */
  lemma {:induction false} MarksAreKept(run: seq<State>, steps: seq<Step>, k: nat, t: nat, b: nat, m: nat, s: nat,
                                        j: nat, i: nat)
    requires Trace(run, steps, k, t, b, m, s, j) && m < i <= s
    ensures InCall(run[i], k, t) && CallOf(run[i], k, t).SyncMarked? && CallOf(run[i], k, t).marks == run[m].g.marks
  {
    assert CallStep(run[i - 1], steps[i - 1], run[i], k, t);
    if i > m + 1 {
      MarksAreKept(run, steps, k, t, b, m, s, j, i - 1);
      assert CallStep(run[s], steps[s], run[s + 1], k, t);
      PhaseRises(run, steps, k, t, b, m, s, j, i, s);
    }
  }

  /** The marks are read once. */
  lemma MarksReadOnce(run: seq<State>, steps: seq<Step>, k: nat, t: nat, b: nat, m: nat, s: nat, j: nat, q: nat)
    requires Trace(run, steps, k, t, b, m, s, j) && b < q < j && steps[q] == Local(k, SyncMarks(t))
    ensures q == m
  {
    assert CallStep(run[q], steps[q], run[q + 1], k, t) && CallStep(run[m], steps[m], run[m + 1], k, t);
    if q < m {
      PhaseRises(run, steps, k, t, b, m, s, j, q + 1, m);
    } else if m < q {
      PhaseRises(run, steps, k, t, b, m, s, j, m + 1, q);
    }
  }

  /** A namespace that step s found stale stays to be asked for, or will be shown as of then. */
  predicate Owes(sync: Sync, ns: NamespaceId, v: nat) {
    && Phase(sync) >= 2
    && ((sync.SyncWaiting? && ns in sync.stale) || (ns in sync.goal && v <= sync.goal[ns]))
  }

  lemma OwesStays(s: State, step: Step, n: State, k: nat, t: nat, ns: NamespaceId, v: nat)
    requires CallStep(s, step, n, k, t) && Owes(CallOf(s, k, t), ns, v) && v <= Version(s.g, ns)
    ensures Owes(CallOf(n, k, t), ns, v)
  {
  }

  lemma {:induction false} StaleIsOwed(run: seq<State>, steps: seq<Step>, k: nat, t: nat, b: nat, m: nat, s: nat,
                                       j: nat, i: nat, ns: NamespaceId, v: nat)
    requires Trace(run, steps, k, t, b, m, s, j) && s < i <= j && k < |run[s].instances|
    requires ns in Stale(run[s].instances[k].applied, run[m].g.marks)
    requires forall q :: s <= q < j ==> v <= Version(run[q].g, ns)
    ensures InCall(run[i], k, t) && Owes(CallOf(run[i], k, t), ns, v)
  {
    assert CallStep(run[i - 1], steps[i - 1], run[i], k, t);
    if i == s + 1 {
      MarksAreKept(run, steps, k, t, b, m, s, j, s);
    } else {
      StaleIsOwed(run, steps, k, t, b, m, s, j, i - 1, ns, v);
      OwesStays(run[i - 1], steps[i - 1], run[i], k, t, ns, v);
    }
  }

  /** Goals only rise, except that reading the marks gives up the namespaces whose mark was pruned. */
  lemma {:induction false} GoalRises(run: seq<State>, steps: seq<Step>, k: nat, t: nat, b: nat, m: nat, s: nat, j: nat,
                                     i: nat, ns: NamespaceId)
    requires Trace(run, steps, k, t, b, m, s, j) && b < i <= j && ns in run[b].g.bumps && ns !in run[m].g.pruned
    ensures InCall(run[i], k, t) && ns in CallOf(run[i], k, t).goal
    ensures Acknowledged(run[b].g, ns) <= CallOf(run[i], k, t).goal[ns]
  {
    if i > b + 1 {
      GoalRises(run, steps, k, t, b, m, s, j, i - 1, ns);
      assert CallStep(run[i - 1], steps[i - 1], run[i], k, t);
      if steps[i - 1] == Local(k, SyncMarks(t)) {
        MarksReadOnce(run, steps, k, t, b, m, s, j, i - 1);
      }
    }
  }

  /** When the call returned, what it pursued is shown. */
  lemma ReturnedShowsGoal(fp: Fingerprint, run: seq<State>, steps: seq<Step>, j: nat, k: nat, t: nat, ns: NamespaceId)
    requires IsRun(fp, run, steps) && j < |run| && InCall(run[j], k, t) && CallOf(run[j], k, t).SyncReturned?
    ensures ns in CallOf(run[j], k, t).goal ==> CallOf(run[j], k, t).goal[ns] <= Shows(run[j].instances[k], ns)
    ensures Reflects(fp, run[j].g, run[j].instances[k].index, ns, Shows(run[j].instances[k], ns))
  {
    RunKeeps(fp, run, steps, j);
    var x := run[j].instances[k];
    assert InstanceOk(fp, run[j].g, x);
    assert NamespaceOk(fp, run[j].g, ns, x.index, x.fingerprints, x.applied, x.shows);
    if ns in x.syncs[t].goal {
      assert Pursues(run[j].g, x.syncs[t], ns);
      assert GoalOk(run[j].g, x.syncs[t], ns, x.flights.flights, x.shows, x.floors);
    }
  }

  /**
   * Read-your-writes: when a call of Sync on any instance returns without error, the
   * snapshot of every namespace whose mark was not pruned when the call read the marks
   * (in particular of every namespace that existed then) stands for a version at least as
   * new as everything committed before a bump that preceded the call, on whichever
   * instance, even if the mark is pruned later during the call.
   */
  lemma ReadYourWrites(fp: Fingerprint, run: seq<State>, steps: seq<Step>, k: nat, t: nat, c: nat, b: nat, m: nat,
                       s: nat, j: nat, ns: NamespaceId)
    requires IsRun(fp, run, steps) && IsCall(run, steps, k, t, b, m, s, j) && c < b && steps[c] == Bump(ns)
    requires ns !in run[m].g.pruned || !Dead(run[m].g, ns)
    ensures var x := run[j].instances[k];
            && Version(run[c].g, ns) <= Shows(x, ns)
            && Reflects(fp, run[j].g, x.index, ns, Shows(x, ns))
  {
    RunKeeps(fp, run, steps, m);
    assert GlobalOk(run[m].g, ns);
    BumpAcknowledges(fp, run, steps, c, b, ns);
    CallIsTrace(fp, run, steps, k, t, b, m, s, j);
    GoalRises(run, steps, k, t, b, m, s, j, j, ns);
    ReturnedShowsGoal(fp, run, steps, j, k, t, ns);
  }

  // ------------------------------------------------------ exactly when it is shown

  /** The step publishes a load of the namespace on instance k. */
  predicate Publishes(s: State, step: Step, k: nat, ns: NamespaceId) {
    && step.Local? && step.k == k && step.step.Apply? && k < |s.instances|
    && step.step.r < |s.instances[k].flights.runners| && s.instances[k].flights.runners[step.step.r].ns == ns
  }

  lemma LocalShowsSame(fp: Fingerprint, g: Global, x: Instance, step: LocalStep, ns: NamespaceId)
    requires Enabled(g, x, step) && (step.Apply? ==> x.flights.runners[step.r].ns != ns)
    ensures Shows(Do(fp, g, x, step), ns) == Shows(x, ns)
  {
    if !step.Apply? {
      assert Do(fp, g, x, step).shows == x.shows;
    }
  }

  lemma ShowsSame(fp: Fingerprint, s: State, step: Step, k: nat, ns: NamespaceId)
    requires CanStep(s, step) && k < |s.instances| && !Publishes(s, step, k, ns)
    ensures k < |Take(fp, s, step).instances|
    ensures Shows(Take(fp, s, step).instances[k], ns) == Shows(s.instances[k], ns)
  {
    if step.Local? && step.k == k {
      LocalShowsSame(fp, s.g, s.instances[k], step.step, ns);
    }
  }

  lemma {:induction false} ShowsStay(fp: Fingerprint, run: seq<State>, steps: seq<Step>, i: nat, j: nat, k: nat,
                                     ns: NamespaceId)
    requires IsRun(fp, run, steps) && i <= j < |run| && k < |run[i].instances|
    requires forall q :: i <= q < j ==> !Publishes(run[q], steps[q], k, ns)
    ensures k < |run[j].instances| && Shows(run[j].instances[k], ns) == Shows(run[i].instances[k], ns)
  {
    if i < j {
      ShowsStay(fp, run, steps, i, j - 1, k, ns);
      ShowsSame(fp, run[j - 1], steps[j - 1], k, ns);
    }
  }

  /** A call asks only for what it found stale. */
  lemma {:induction false} OnlyStaleIsAsked(run: seq<State>, steps: seq<Step>, k: nat, t: nat, b: nat, m: nat, s: nat,
                                            j: nat, i: nat, ns: NamespaceId)
    requires Trace(run, steps, k, t, b, m, s, j) && s < i <= j && k < |run[s].instances|
    requires ns !in Stale(run[s].instances[k].applied, run[m].g.marks)
    ensures InCall(run[i], k, t) && Phase(CallOf(run[i], k, t)) >= 2
    ensures CallOf(run[i], k, t).SyncWaiting? ==> ns !in CallOf(run[i], k, t).stale
  {
    assert CallStep(run[i - 1], steps[i - 1], run[i], k, t);
    if i == s + 1 {
      MarksAreKept(run, steps, k, t, b, m, s, j, s);
    } else {
      OnlyStaleIsAsked(run, steps, k, t, b, m, s, j, i - 1, ns);
    }
  }

  /**
   * Exactly when a returned call shows a change bumped before it: if and only if the
   * snapshot showed it already when the call began, or the call found the mark ahead of
   * the applied one and so asked for the namespace. Loads that others asked for may do the
   * same, so none is published meanwhile unless the call asked itself. A mark that is
   * gone when the call reads the marks is never found ahead.
   */
  lemma ShownIff(fp: Fingerprint, run: seq<State>, steps: seq<Step>, k: nat, t: nat, c: nat, b: nat, m: nat, s: nat,
                 j: nat,
                 ns: NamespaceId)
    requires IsRun(fp, run, steps) && IsCall(run, steps, k, t, b, m, s, j) && c < b && steps[c] == Bump(ns)
    requires k < |run[s].instances| && k < |run[b].instances|
    requires ns !in Stale(run[s].instances[k].applied, run[m].g.marks) ==>
               forall q :: b <= q < j ==> !Publishes(run[q], steps[q], k, ns)
    ensures Version(run[c].g, ns) <= Shows(run[j].instances[k], ns) <==>
            || Version(run[c].g, ns) <= Shows(run[b].instances[k], ns)
            || ns in Stale(run[s].instances[k].applied, run[m].g.marks)
    ensures ns !in run[m].g.pruned ==> Version(run[c].g, ns) <= Shows(run[j].instances[k], ns)
    ensures ns !in run[m].g.marks ==>
              (Version(run[c].g, ns) <= Shows(run[j].instances[k], ns) <==>
               Version(run[c].g, ns) <= Shows(run[b].instances[k], ns))
  {
    if ns !in run[m].g.pruned {
      ReadYourWrites(fp, run, steps, k, t, c, b, m, s, j, ns);
    }
    if ns in Stale(run[s].instances[k].applied, run[m].g.marks) {
      CallIsTrace(fp, run, steps, k, t, b, m, s, j);
      forall q | s <= q < j
        ensures Version(run[c].g, ns) <= Version(run[q].g, ns)
      {
        SharedGrows(fp, run, steps, c, q, ns);
      }
      StaleIsOwed(run, steps, k, t, b, m, s, j, j, ns, Version(run[c].g, ns));
      ReturnedShowsGoal(fp, run, steps, j, k, t, ns);
    } else {
      ShowsStay(fp, run, steps, b, j, k, ns);
    }
  }

  /** When the mark is gone as the call reads the marks, the call never asks for the namespace. */
  lemma GoneMarkIsNeverAsked(fp: Fingerprint, run: seq<State>, steps: seq<Step>, k: nat, t: nat, b: nat, m: nat, s: nat,
                             j: nat, ns: NamespaceId, q: nat)
    requires IsRun(fp, run, steps) && IsCall(run, steps, k, t, b, m, s, j) && ns !in run[m].g.marks && b < q < j
    ensures steps[q] != Local(k, SyncRequest(t, ns))
  {
    CallIsTrace(fp, run, steps, k, t, b, m, s, j);
    assert CallStep(run[s], steps[s], run[s + 1], k, t);
    NeverAsked(run, steps, k, t, b, m, s, j, ns, q);
  }

  /** What the call did not find stale it never asks for. */
  lemma NeverAsked(run: seq<State>, steps: seq<Step>, k: nat, t: nat, b: nat, m: nat, s: nat, j: nat, ns: NamespaceId,
                   q: nat)
    requires Trace(run, steps, k, t, b, m, s, j) && b < q < j && k < |run[s].instances|
    requires ns !in Stale(run[s].instances[k].applied, run[m].g.marks)
    ensures steps[q] != Local(k, SyncRequest(t, ns))
  {
    assert CallStep(run[q], steps[q], run[q + 1], k, t) && CallStep(run[s], steps[s], run[s + 1], k, t);
    if s < q {
      OnlyStaleIsAsked(run, steps, k, t, b, m, s, j, q, ns);
    } else {
      PhaseRises(run, steps, k, t, b, m, s, j, q, s);
    }
  }
}
