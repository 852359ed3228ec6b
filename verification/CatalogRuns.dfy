/**
 * Read-your-writes of the catalog in every run: what every step of every instance
 * keeps, and what a returned Sync, a finished reload and the pruning of marks
 * guarantee.
 */
module CatalogRuns {
  import opened Common
  import F = Flights
  import opened Catalog

  // ------------------------------------------------------------------ invariant

  /** The rows are the same, or indistinguishable by their fingerprint. */
  ghost predicate SameRows(fp: Fingerprint, a: Raw, b: Raw) {
    a == b || (fp(a).Some? && fp(a) == fp(b))
  }

  /** The published snapshot stands for the version v of the database. */
  ghost predicate Reflects(fp: Fingerprint, g: Global, index: map<NamespaceId, Raw>, ns: NamespaceId, v: nat) {
    v <= Version(g, ns) &&
    match ContentAt(g, ns, v)
    case None => ns !in index
    case Some(raw) => ns in index && SameRows(fp, index[ns], raw)
  }

  ghost predicate GlobalOk(g: Global, ns: NamespaceId) {
    var b := Bumps(g, ns);
    && (forall i :: 0 <= i < |b| ==> 0 < b[i] <= Version(g, ns))
    && (forall i, j :: 0 <= i < j < |b| ==> b[i] <= b[j])
    && (ns in g.marks ==> Version(g, ns) > 0)
    && (ns in g.pruned ==> Dead(g, ns))
    && Lookup(g.marks, ns) <= |b|
    && (ns !in g.pruned ==> Lookup(g.marks, ns) == |b| && (ns in g.marks <==> b != []))
  }

  /** Marks that an instance recorded vouch only for what its snapshot shows. */
  ghost predicate MarkCovered(g: Global, ns: NamespaceId, mark: nat, v: nat) {
    mark <= |Bumps(g, ns)| && (mark > 0 ==> Bumps(g, ns)[mark - 1] <= v)
  }

  ghost predicate NamespaceOk(fp: Fingerprint, g: Global, ns: NamespaceId, index: map<NamespaceId, Raw>,
                              fingerprints: map<NamespaceId, nat>, applied: map<NamespaceId, nat>,
                              shows: map<NamespaceId, nat>) {
    && Reflects(fp, g, index, ns, Lookup(shows, ns))
    && (ns in fingerprints ==> ns in index && fp(index[ns]) == Some(fingerprints[ns]))
    && MarkCovered(g, ns, Lookup(applied, ns), Lookup(shows, ns))
  }

  function FloorOf(floors: map<nat, nat>, f: nat): nat {
    if f in floors then floors[f] else 0
  }

  ghost predicate LoadOk(g: Global, runner: F.Runner, load: Load, shows: map<NamespaceId, nat>, floors: map<nat, nat>)
    requires runner.point.Loading?
  {
    var ns, floor := runner.ns, FloorOf(floors, runner.point.flight);
    match load
    case Begun => true
    case Observed(mark, known) => known ==> MarkCovered(g, ns, mark, Version(g, ns))
    case Read(mark, known, version) =>
      && Lookup(shows, ns) <= version <= Version(g, ns) && floor <= version
      && (known ==> MarkCovered(g, ns, mark, version))
    case Applied => floor <= Lookup(shows, ns)
  }

  ghost predicate RunnersOk(g: Global, runners: seq<F.Runner>, loads: map<nat, Load>, shows: map<NamespaceId, nat>,
                            floors: map<nat, nat>) {
    && (forall r :: r in loads ==> r < |runners|)
    && (forall r :: 0 <= r < |runners| ==>
          && (r in loads <==> runners[r].point.Loading?)
          && (r in loads ==> LoadOk(g, runners[r], loads[r], shows, floors)))
  }

  /** A finished flight made the snapshot at least as new as its requests asked for. */
  ghost predicate FlightsOk(g: Global, flights: seq<F.Flight>, shows: map<NamespaceId, nat>, floors: map<nat, nat>) {
    && (forall f :: f in floors ==> f < |flights|)
    && (forall f :: 0 <= f < |flights| ==>
          && FloorOf(floors, f) <= Version(g, flights[f].ns)
          && (flights[f].status == F.Done(true) ==> FloorOf(floors, f) <= Lookup(shows, flights[f].ns)))
  }

  ghost predicate GoalOk(g: Global, sync: Sync, ns: NamespaceId, flights: seq<F.Flight>, shows: map<NamespaceId, nat>,
                         floors: map<nat, nat>)
    requires ns in sync.goal
  {
    var goal := sync.goal[ns];
    goal <= Version(g, ns) &&
    match sync
    case SyncBegun(_) => goal <= Acknowledged(g, ns)
    case SyncMarked(_, marks) =>
      goal == 0 || (ns in marks && 0 < marks[ns] <= |Bumps(g, ns)| && goal <= Bumps(g, ns)[marks[ns] - 1])
    case SyncWaiting(_, stale, waiting) =>
      || goal <= Lookup(shows, ns)
      || ns in stale
      || (ns in waiting && waiting[ns] < |flights| && flights[waiting[ns]].ns == ns
          && goal <= FloorOf(floors, waiting[ns]))
    case SyncReturned(_) => goal <= Lookup(shows, ns)
  }

  ghost predicate SyncsOk(g: Global, syncs: map<nat, Sync>, flights: seq<F.Flight>, shows: map<NamespaceId, nat>,
                          floors: map<nat, nat>) {
    forall t, ns :: t in syncs && Pursues(g, syncs[t], ns) ==> GoalOk(g, syncs[t], ns, flights, shows, floors)
  }

  /** The call will show this goal: its mark was there when the marks were read, or is there until then. */
  predicate Pursues(g: Global, sync: Sync, ns: NamespaceId) {
    ns in sync.goal && (sync.SyncBegun? ==> ns !in g.pruned)
  }

  /** pruneMarks only ever picks namespaces that were deleted. */
  ghost predicate FullOk(g: Global, full: Full) {
    match full
    case FullMarked(marks) => forall ns :: ns in marks ==> Version(g, ns) > 0
    case FullListed(marks, present) => forall ns :: ns in marks && ns !in present ==> Dead(g, ns)
    case FullDeleting(prune) => forall ns :: ns in prune ==> Dead(g, ns)
  }

  ghost predicate InstanceOk(fp: Fingerprint, g: Global, x: Instance) {
    && F.Inv(x.flights)
    && (forall ns :: NamespaceOk(fp, g, ns, x.index, x.fingerprints, x.applied, x.shows))
    && RunnersOk(g, x.flights.runners, x.loads, x.shows, x.floors)
    && FlightsOk(g, x.flights.flights, x.shows, x.floors)
    && SyncsOk(g, x.syncs, x.flights.flights, x.shows, x.floors)
    && (forall t :: t in x.fulls ==> FullOk(g, x.fulls[t]))
  }

  // ------------------------------------------------- other instances and writers

  /** What any step may do to the shared state: contents and bumps only grow, deleted namespaces stay deleted. */
  ghost predicate ExtendsAt(g: Global, h: Global, ns: NamespaceId) {
    && (ns in g.db ==> ns in h.db && g.db[ns] <= h.db[ns])
    && (Dead(g, ns) ==> Dead(h, ns))
    && (ns in g.pruned ==> ns in h.pruned)
    && Bumps(g, ns) <= Bumps(h, ns)
  }

  ghost predicate Extends(g: Global, h: Global) {
    forall ns :: ExtendsAt(g, h, ns)
  }

  lemma CoveredStays(g: Global, h: Global, ns: NamespaceId, mark: nat, v: nat)
    requires ExtendsAt(g, h, ns) && MarkCovered(g, ns, mark, v)
    ensures MarkCovered(h, ns, mark, v)
  {
  }

  lemma NamespaceStays(fp: Fingerprint, g: Global, h: Global, ns: NamespaceId, x: Instance)
    requires ExtendsAt(g, h, ns) && NamespaceOk(fp, g, ns, x.index, x.fingerprints, x.applied, x.shows)
    ensures NamespaceOk(fp, h, ns, x.index, x.fingerprints, x.applied, x.shows)
  {
    CoveredStays(g, h, ns, Lookup(x.applied, ns), Shows(x, ns));
  }

  lemma LoadStays(g: Global, h: Global, runner: F.Runner, load: Load, shows: map<NamespaceId, nat>,
                  floors: map<nat, nat>)
    requires ExtendsAt(g, h, runner.ns) && runner.point.Loading? && LoadOk(g, runner, load, shows, floors)
    ensures LoadOk(h, runner, load, shows, floors)
  {
    match load
    case Observed(mark, known) =>
      if known {
        CoveredStays(g, h, runner.ns, mark, Version(g, runner.ns));
      }
    case Read(mark, known, version) =>
      if known {
        CoveredStays(g, h, runner.ns, mark, version);
      }
    case _ =>
  }

  lemma GoalStays(g: Global, h: Global, sync: Sync, ns: NamespaceId, flights: seq<F.Flight>,
                  shows: map<NamespaceId, nat>, floors: map<nat, nat>)
    requires ExtendsAt(g, h, ns) && ns in sync.goal
    requires GlobalOk(h, ns) && GoalOk(g, sync, ns, flights, shows, floors)
    ensures GoalOk(h, sync, ns, flights, shows, floors)
  {
    if Bumps(g, ns) != [] {
      assert Bumps(h, ns)[|Bumps(g, ns)| - 1] == Bumps(g, ns)[|Bumps(g, ns)| - 1];
    }
  }

  lemma InstanceStays(fp: Fingerprint, g: Global, h: Global, x: Instance)
    requires Extends(g, h) && (forall ns :: GlobalOk(h, ns)) && InstanceOk(fp, g, x)
    ensures InstanceOk(fp, h, x)
  {
    forall ns
      ensures NamespaceOk(fp, h, ns, x.index, x.fingerprints, x.applied, x.shows)
    {
      assert ExtendsAt(g, h, ns);
      NamespaceStays(fp, g, h, ns, x);
    }
    var t := x.flights;
    assert RunnersOk(h, t.runners, x.loads, x.shows, x.floors) by {
      forall r | 0 <= r < |t.runners| && r in x.loads
        ensures LoadOk(h, t.runners[r], x.loads[r], x.shows, x.floors)
      {
        assert ExtendsAt(g, h, t.runners[r].ns);
        LoadStays(g, h, t.runners[r], x.loads[r], x.shows, x.floors);
      }
    }
    assert FlightsOk(h, t.flights, x.shows, x.floors) by {
      forall f | 0 <= f < |t.flights|
        ensures FloorOf(x.floors, f) <= Version(h, t.flights[f].ns)
      {
        assert ExtendsAt(g, h, t.flights[f].ns);
      }
    }
    SyncsStay(g, h, x);
    FullsStay(g, h, x);
  }

  lemma SyncsStay(g: Global, h: Global, x: Instance)
    requires Extends(g, h) && (forall ns :: GlobalOk(h, ns))
    requires SyncsOk(g, x.syncs, x.flights.flights, x.shows, x.floors)
    ensures SyncsOk(h, x.syncs, x.flights.flights, x.shows, x.floors)
  {
    forall t, ns | t in x.syncs && Pursues(h, x.syncs[t], ns)
      ensures GoalOk(h, x.syncs[t], ns, x.flights.flights, x.shows, x.floors)
    {
      assert ExtendsAt(g, h, ns) && GlobalOk(h, ns);
      GoalStays(g, h, x.syncs[t], ns, x.flights.flights, x.shows, x.floors);
    }
  }

  lemma FullsStay(g: Global, h: Global, x: Instance)
    requires Extends(g, h) && forall t :: t in x.fulls ==> FullOk(g, x.fulls[t])
    ensures forall t :: t in x.fulls ==> FullOk(h, x.fulls[t])
  {
    assert forall ns :: ExtendsAt(g, h, ns) ==>
             (Version(g, ns) > 0 ==> Version(h, ns) > 0) && (Dead(g, ns) ==> Dead(h, ns));
    forall t | t in x.fulls
      ensures FullOk(h, x.fulls[t])
    {
      assert FullOk(g, x.fulls[t]);
    }
  }

  // --------------------------------------------------------- steps of an instance

  /** Flights are only added, snapshots and floors only rise. */
  ghost predicate Grows(flights: seq<F.Flight>, shows: map<NamespaceId, nat>, floors: map<nat, nat>,
                        flights': seq<F.Flight>, shows': map<NamespaceId, nat>, floors': map<nat, nat>) {
    && |flights| <= |flights'|
    && (forall f :: 0 <= f < |flights| ==> flights'[f].ns == flights[f].ns && FloorOf(floors, f) <= FloorOf(floors', f))
    && (forall ns :: Lookup(shows, ns) <= Lookup(shows', ns))
  }

  lemma SyncsGrow(g: Global, syncs: map<nat, Sync>,
                  flights: seq<F.Flight>, shows: map<NamespaceId, nat>, floors: map<nat, nat>,
                  flights': seq<F.Flight>, shows': map<NamespaceId, nat>, floors': map<nat, nat>)
    requires SyncsOk(g, syncs, flights, shows, floors) && Grows(flights, shows, floors, flights', shows', floors')
    ensures SyncsOk(g, syncs, flights', shows', floors')
  {
    forall t, ns | t in syncs && Pursues(g, syncs[t], ns)
      ensures GoalOk(g, syncs[t], ns, flights', shows', floors')
    {
      assert GoalOk(g, syncs[t], ns, flights, shows, floors);
    }
  }

  /** The flight of a loading runner is running. */
  lemma RunningFlight(t: F.Table, r: nat)
    requires F.Inv(t) && r < |t.runners| && t.runners[r].point.Loading?
    ensures var f := t.runners[r].point.flight;
            f < |t.flights| && t.flights[f] == F.Flight(t.runners[r].ns, F.Running)
  {
    assert F.RunnerOk(t, r);
    assert F.EntryOk(t, t.runners[r].ns);
  }

  lemma JoinKeepsRunners(g: Global, x: Instance, n: F.Table, ns: NamespaceId, f: nat, floor: nat)
    requires F.Inv(x.flights) && F.Joined(x.flights, n, ns, f)
    requires RunnersOk(g, x.flights.runners, x.loads, x.shows, x.floors)
    ensures RunnersOk(g, n.runners, x.loads, x.shows, x.floors[f := floor])
  {
    var t := x.flights;
    forall r | 0 <= r < |n.runners| && r in x.loads
      ensures n.runners[r].point.Loading? && LoadOk(g, n.runners[r], x.loads[r], x.shows, x.floors[f := floor])
    {
      assert n.runners[r] == n.runners[..|t.runners|][r] == t.runners[r];
      RunningFlight(t, r);
      assert LoadOk(g, t.runners[r], x.loads[r], x.shows, x.floors);
    }
    assert forall r :: 0 <= r < |t.runners| ==> n.runners[r] == n.runners[..|t.runners|][r];
  }

  lemma JoinKeepsFlights(g: Global, x: Instance, n: F.Table, ns: NamespaceId, f: nat)
    requires F.Joined(x.flights, n, ns, f) && FlightsOk(g, x.flights.flights, x.shows, x.floors)
    ensures var y := JoinFlight(g, x, ns, n, f);
            && FlightsOk(g, n.flights, x.shows, y.floors)
            && Grows(x.flights.flights, x.shows, x.floors, n.flights, x.shows, y.floors)
            && FloorOf(y.floors, f) >= Version(g, ns)
  {
  }

  /** Joining a flight that has not started keeps everything; the flight will read everything committed so far. */
  lemma JoinKeeps(fp: Fingerprint, g: Global, x: Instance, n: F.Table, ns: NamespaceId, f: nat)
    requires InstanceOk(fp, g, x) && F.Inv(n) && F.Joined(x.flights, n, ns, f)
    ensures InstanceOk(fp, g, JoinFlight(g, x, ns, n, f))
  {
    var y := JoinFlight(g, x, ns, n, f);
    JoinKeepsRunners(g, x, n, ns, f, y.floors[f]);
    JoinKeepsFlights(g, x, n, ns, f);
    SyncsGrow(g, x.syncs, x.flights.flights, x.shows, x.floors, n.flights, x.shows, y.floors);
  }

  /** A call of Sync asks for one stale namespace and waits for the flight it gets. */
  lemma JoinSyncKeeps(fp: Fingerprint, g: Global, x: Instance, n: F.Table, ns: NamespaceId, f: nat, t: nat)
    requires InstanceOk(fp, g, x) && F.Inv(n) && F.Joined(x.flights, n, ns, f)
    requires t in x.syncs && x.syncs[t].SyncWaiting?
    ensures var sync := x.syncs[t];
            InstanceOk(fp, g, JoinFlight(g, x, ns, n, f).(syncs := x.syncs[t := Asked(g, sync, ns, f)]))
  {
    var y, sync := JoinFlight(g, x, ns, n, f), x.syncs[t];
    JoinKeeps(fp, g, x, n, ns, f);
    JoinKeepsFlights(g, x, n, ns, f);
    var next := Asked(g, sync, ns, f);
    forall ms | Pursues(g, next, ms)
      ensures GoalOk(g, next, ms, y.flights.flights, y.shows, y.floors)
    {
      assert ms in sync.goal ==> GoalOk(g, y.syncs[t], ms, y.flights.flights, y.shows, y.floors);
    }
    SyncKeeps(fp, g, y, t, next);
  }

  lemma BeginKeeps(fp: Fingerprint, g: Global, x: Instance, r: nat)
    requires InstanceOk(fp, g, x) && Enabled(g, x, Begin(r))
    ensures InstanceOk(fp, g, Do(fp, g, x, Begin(r)))
  {
    var y := Do(fp, g, x, Begin(r));
    F.BeginKeeps(x.flights, r);
    SyncsGrow(g, x.syncs, x.flights.flights, x.shows, x.floors, y.flights.flights, y.shows, y.floors);
  }

  /** Progress of r's own load is judged on its own. */
  lemma LoadKeeps(fp: Fingerprint, g: Global, x: Instance, r: nat, load: Load)
    requires InstanceOk(fp, g, x) && InLoad(x, r)
    requires LoadOk(g, x.flights.runners[r], load, x.shows, x.floors)
    ensures InstanceOk(fp, g, x.(loads := x.loads[r := load]))
  {
  }

  lemma ObserveKeeps(fp: Fingerprint, g: Global, x: Instance, r: nat, available: bool)
    requires InstanceOk(fp, g, x) && Enabled(g, x, Observe(r, available))
    requires GlobalOk(g, x.flights.runners[r].ns)
    ensures InstanceOk(fp, g, Do(fp, g, x, Observe(r, available)))
  {
    LoadKeeps(fp, g, x, r, Do(fp, g, x, Observe(r, available)).loads[r]);
  }

  lemma ReadKeeps(fp: Fingerprint, g: Global, x: Instance, r: nat)
    requires InstanceOk(fp, g, x) && Enabled(g, x, ReadDatabase(r))
    ensures InstanceOk(fp, g, Do(fp, g, x, ReadDatabase(r)))
  {
    var ns := x.flights.runners[r].ns;
    RunningFlight(x.flights, r);
    assert NamespaceOk(fp, g, ns, x.index, x.fingerprints, x.applied, x.shows);
    assert LoadOk(g, x.flights.runners[r], x.loads[r], x.shows, x.floors);
    LoadKeeps(fp, g, x, r, Do(fp, g, x, ReadDatabase(r)).loads[r]);
  }

  /** Whichever way the index is swapped, the snapshot stands for the content that was read. */
  lemma ContentReflected(fp: Fingerprint, index: map<NamespaceId, Raw>, fingerprints: map<NamespaceId, nat>,
                         ns: NamespaceId, content: Option<Raw>, h: Option<nat>)
    requires h == if content.Some? then fp(content.value) else None
    requires ns in fingerprints ==> ns in index && fp(index[ns]) == Some(fingerprints[ns])
    ensures var i := NewIndex(index, fingerprints, ns, content, h);
            var p := NewFingerprints(index, fingerprints, ns, content, h);
            && (content.None? ==> ns !in i)
            && (content.Some? ==> ns in i && SameRows(fp, i[ns], content.value))
            && (ns in p ==> ns in i && fp(i[ns]) == Some(p[ns]))
  {
  }

  lemma ContentElsewhere(index: map<NamespaceId, Raw>, fingerprints: map<NamespaceId, nat>, ns: NamespaceId,
                         content: Option<Raw>, h: Option<nat>, ms: NamespaceId)
    requires ms != ns
    ensures var i := NewIndex(index, fingerprints, ns, content, h);
            var p := NewFingerprints(index, fingerprints, ns, content, h);
            && (ms in i <==> ms in index) && (ms in index ==> i[ms] == index[ms])
            && (ms in p <==> ms in fingerprints) && (ms in fingerprints ==> p[ms] == fingerprints[ms])
  {
  }

  lemma RecordedCovered(g: Global, ns: NamespaceId, applied: map<NamespaceId, nat>, mark: nat, known: bool, was: nat,
                        v: nat)
    requires MarkCovered(g, ns, Lookup(applied, ns), was) && was <= v
    requires known ==> MarkCovered(g, ns, mark, v)
    ensures MarkCovered(g, ns, Lookup(Recorded(applied, ns, mark, known), ns), v)
  {
  }

  /** The namespace a load was for, after its index swap. */
  lemma SwapKeepsOwn(fp: Fingerprint, g: Global, ns: NamespaceId, index: map<NamespaceId, Raw>,
                     fingerprints: map<NamespaceId, nat>, applied: map<NamespaceId, nat>, shows: map<NamespaceId, nat>,
                     v: nat, mark: nat, known: bool, content: Option<Raw>, h: Option<nat>)
    requires NamespaceOk(fp, g, ns, index, fingerprints, applied, shows)
    requires Lookup(shows, ns) <= v <= Version(g, ns) && (known ==> MarkCovered(g, ns, mark, v))
    requires content == ContentAt(g, ns, v) && h == if content.Some? then fp(content.value) else None
    ensures NamespaceOk(fp, g, ns, NewIndex(index, fingerprints, ns, content, h),
                        NewFingerprints(index, fingerprints, ns, content, h),
                        Recorded(applied, ns, mark, known), shows[ns := v])
  {
    ContentReflected(fp, index, fingerprints, ns, content, h);
    RecordedCovered(g, ns, applied, mark, known, Lookup(shows, ns), v);
  }

  /** Every other namespace, after that swap. */
  lemma SwapKeepsOthers(fp: Fingerprint, g: Global, ns: NamespaceId, index: map<NamespaceId, Raw>,
                        fingerprints: map<NamespaceId, nat>, applied: map<NamespaceId, nat>,
                        shows: map<NamespaceId, nat>, v: nat, mark: nat, known: bool, content: Option<Raw>,
                        h: Option<nat>, ms: NamespaceId)
    requires ms != ns && NamespaceOk(fp, g, ms, index, fingerprints, applied, shows)
    ensures NamespaceOk(fp, g, ms, NewIndex(index, fingerprints, ns, content, h),
                        NewFingerprints(index, fingerprints, ns, content, h),
                        Recorded(applied, ns, mark, known), shows[ns := v])
  {
    ContentElsewhere(index, fingerprints, ns, content, h, ms);
  }

  lemma ApplyKeepsRunners(g: Global, x: Instance, r: nat, v: nat)
    requires F.Inv(x.flights) && RunnersOk(g, x.flights.runners, x.loads, x.shows, x.floors)
    requires InLoad(x, r) && x.loads[r].Read? && v == x.loads[r].version
    ensures RunnersOk(g, x.flights.runners, x.loads[r := Applied], x.shows[x.flights.runners[r].ns := v], x.floors)
  {
    var t := x.flights;
    assert LoadOk(g, t.runners[r], x.loads[r], x.shows, x.floors);
    forall q | 0 <= q < |t.runners| && q in x.loads && q != r
      ensures LoadOk(g, t.runners[q], x.loads[q], x.shows[t.runners[r].ns := v], x.floors)
    {
      assert F.RunnerOk(t, q) && F.RunnerOk(t, r);
      assert LoadOk(g, t.runners[q], x.loads[q], x.shows, x.floors);
    }
  }

  lemma RisingKeepsFlights(g: Global, flights: seq<F.Flight>, shows: map<NamespaceId, nat>, floors: map<nat, nat>,
                           shows': map<NamespaceId, nat>)
    requires FlightsOk(g, flights, shows, floors) && forall ns :: Lookup(shows, ns) <= Lookup(shows', ns)
    ensures FlightsOk(g, flights, shows', floors) && Grows(flights, shows, floors, flights, shows', floors)
  {
  }

  lemma ApplyKeepsSnapshot(fp: Fingerprint, g: Global, x: Instance, r: nat, y: Instance, ms: NamespaceId)
    requires InstanceOk(fp, g, x) && CanApply(g, x, r) && y == ApplyLoad(fp, g, x, r)
    ensures NamespaceOk(fp, g, ms, y.index, y.fingerprints, y.applied, y.shows)
  {
    var ns, l := x.flights.runners[r].ns, x.loads[r];
    var content := ContentAt(g, ns, l.version);
    var h := if content.Some? then fp(content.value) else None;
    assert LoadOk(g, x.flights.runners[r], l, x.shows, x.floors);
    assert NamespaceOk(fp, g, ms, x.index, x.fingerprints, x.applied, x.shows);
    if ms == ns {
      SwapKeepsOwn(fp, g, ns, x.index, x.fingerprints, x.applied, x.shows, l.version, l.mark, l.known, content, h);
    } else {
      SwapKeepsOthers(fp, g, ns, x.index, x.fingerprints, x.applied, x.shows, l.version, l.mark, l.known, content, h,
                      ms);
    }
  }

  lemma ApplyKeeps(fp: Fingerprint, g: Global, x: Instance, r: nat)
    requires InstanceOk(fp, g, x) && CanApply(g, x, r)
    ensures InstanceOk(fp, g, ApplyLoad(fp, g, x, r))
  {
    var y := ApplyLoad(fp, g, x, r);
    var l := x.loads[r];
    assert LoadOk(g, x.flights.runners[r], l, x.shows, x.floors);
    forall ms
      ensures NamespaceOk(fp, g, ms, y.index, y.fingerprints, y.applied, y.shows)
    {
      ApplyKeepsSnapshot(fp, g, x, r, y, ms);
    }
    ApplyKeepsRunners(g, x, r, l.version);
    RisingKeepsFlights(g, x.flights.flights, x.shows, x.floors, y.shows);
    SyncsGrow(g, x.syncs, x.flights.flights, x.shows, x.floors, x.flights.flights, y.shows, x.floors);
  }

  lemma FinishKeeps(fp: Fingerprint, g: Global, x: Instance, r: nat)
    requires InstanceOk(fp, g, x) && Enabled(g, x, Finish(r))
    ensures InstanceOk(fp, g, Do(fp, g, x, Finish(r)))
  {
    var y := Do(fp, g, x, Finish(r));
    F.FinishKeeps(x.flights, r, x.loads[r].Applied?);
    RunningFlight(x.flights, r);
    assert LoadOk(g, x.flights.runners[r], x.loads[r], x.shows, x.floors);
    SyncsGrow(g, x.syncs, x.flights.flights, x.shows, x.floors, y.flights.flights, y.shows, y.floors);
  }

  lemma AdvanceKeeps(fp: Fingerprint, g: Global, x: Instance, r: nat)
    requires InstanceOk(fp, g, x) && Enabled(g, x, Advance(r))
    ensures InstanceOk(fp, g, Do(fp, g, x, Advance(r)))
  {
    F.AdvanceKeeps(x.flights, r);
  }

  // ------------------------------------------------------------- Sync and pruning

  lemma BeginGoal(g: Global, t: nat, ns: NamespaceId, x: Instance, y: Instance)
    requires GlobalOk(g, ns) && Enabled(g, x, SyncBegin(t))
    requires y.syncs == x.syncs[t := SyncBegun(map ms | ms in g.bumps :: Acknowledged(g, ms))]
    requires ns in y.syncs[t].goal
    ensures GoalOk(g, y.syncs[t], ns, x.flights.flights, x.shows, x.floors)
  {
  }

  /** Marks read after the call began are at least the acknowledged ones. */
  lemma MarkedGoal(g: Global, sync: Sync, ns: NamespaceId, flights: seq<F.Flight>, shows: map<NamespaceId, nat>,
                   floors: map<nat, nat>)
    requires GlobalOk(g, ns) && sync.SyncBegun? && ns in sync.goal && ns !in g.pruned
    requires GoalOk(g, sync, ns, flights, shows, floors)
    ensures GoalOk(g, SyncMarked(sync.goal - g.pruned, g.marks), ns, flights, shows, floors)
  {
  }

  /** A namespace whose recorded mark is not behind already shows what Sync is after. */
  lemma StaleGoal(fp: Fingerprint, g: Global, x: Instance, sync: Sync, ns: NamespaceId)
    requires GlobalOk(g, ns) && sync.SyncMarked? && ns in sync.goal
    requires NamespaceOk(fp, g, ns, x.index, x.fingerprints, x.applied, x.shows)
    requires GoalOk(g, sync, ns, x.flights.flights, x.shows, x.floors)
    ensures GoalOk(g, SyncWaiting(sync.goal, Stale(x.applied, sync.marks), map[]), ns, x.flights.flights, x.shows,
                   x.floors)
  {
    var b := Bumps(g, ns);
    if sync.goal[ns] > 0 && ns !in Stale(x.applied, sync.marks) {
      assert sync.marks[ns] <= Lookup(x.applied, ns) <= |b|;
      assert b[sync.marks[ns] - 1] <= b[Lookup(x.applied, ns) - 1];
    }
  }

  /** A change of one call of Sync is judged goal by goal. */
  lemma SyncKeeps(fp: Fingerprint, g: Global, x: Instance, t: nat, sync: Sync)
    requires InstanceOk(fp, g, x)
    requires forall ns :: Pursues(g, sync, ns) ==> GoalOk(g, sync, ns, x.flights.flights, x.shows, x.floors)
    ensures InstanceOk(fp, g, x.(syncs := x.syncs[t := sync]))
  {
  }

  lemma SyncStepKeeps(fp: Fingerprint, g: Global, x: Instance, step: LocalStep)
    requires InstanceOk(fp, g, x) && Enabled(g, x, step) && forall ns :: GlobalOk(g, ns)
    requires step.SyncBegin? || step.SyncMarks? || step.SyncStale? || step.SyncReturn?
    ensures InstanceOk(fp, g, Do(fp, g, x, step))
  {
    var y := Do(fp, g, x, step);
    var sync := y.syncs[step.t];
    forall ns | Pursues(g, sync, ns)
      ensures GoalOk(g, sync, ns, x.flights.flights, x.shows, x.floors)
    {
      assert GlobalOk(g, ns);
      if step.SyncBegin? {
        BeginGoal(g, step.t, ns, x, y);
      } else {
        assert GoalOk(g, x.syncs[step.t], ns, x.flights.flights, x.shows, x.floors);
        if step.SyncMarks? {
          MarkedGoal(g, x.syncs[step.t], ns, x.flights.flights, x.shows, x.floors);
        } else if step.SyncStale? {
          assert NamespaceOk(fp, g, ns, x.index, x.fingerprints, x.applied, x.shows);
          StaleGoal(fp, g, x, x.syncs[step.t], ns);
        }
      }
    }
    SyncKeeps(fp, g, x, step.t, sync);
  }

  lemma FullKeeps(fp: Fingerprint, g: Global, x: Instance, step: LocalStep)
    requires InstanceOk(fp, g, x) && Enabled(g, x, step) && forall ns :: GlobalOk(g, ns)
    requires step.FullMarks? || step.FullList? || step.FullPrune?
    ensures InstanceOk(fp, g, Do(fp, g, x, step))
  {
    var y := Do(fp, g, x, step);
    assert FullOk(g, y.fulls[step.t]) by {
      if !step.FullMarks? {
        assert FullOk(g, x.fulls[step.t]);
      } else {
        assert forall ns :: ns in g.marks ==> GlobalOk(g, ns);
      }
    }
    forall ns
      ensures NamespaceOk(fp, g, ns, y.index, y.fingerprints, y.applied, y.shows)
    {
      assert NamespaceOk(fp, g, ns, x.index, x.fingerprints, x.applied, x.shows);
    }
  }

  lemma LocalKeeps(fp: Fingerprint, g: Global, x: Instance, step: LocalStep)
    requires InstanceOk(fp, g, x) && Enabled(g, x, step) && forall ns :: GlobalOk(g, ns)
    ensures InstanceOk(fp, g, Do(fp, g, x, step))
  {
    match step
    case Request(ns) =>
      F.RequestKeeps(x.flights, ns);
      F.RequestJoins(x.flights, ns);
      JoinKeeps(fp, g, x, F.Request(x.flights, ns).0, ns, F.Request(x.flights, ns).1);
    case Begin(r) => BeginKeeps(fp, g, x, r);
    case Observe(r, available) =>
      assert GlobalOk(g, x.flights.runners[r].ns);
      ObserveKeeps(fp, g, x, r, available);
    case ReadDatabase(r) => ReadKeeps(fp, g, x, r);
    case Apply(r) => ApplyKeeps(fp, g, x, r);
    case Finish(r) => FinishKeeps(fp, g, x, r);
    case Advance(r) => AdvanceKeeps(fp, g, x, r);
    case SyncRequest(t, ns) =>
      F.RequestKeeps(x.flights, ns);
      F.RequestJoins(x.flights, ns);
      JoinSyncKeeps(fp, g, x, F.Request(x.flights, ns).0, ns, F.Request(x.flights, ns).1, t);
    case SyncFail(t) =>
    case FullMarks(_) => FullKeeps(fp, g, x, step);
    case FullList(_) => FullKeeps(fp, g, x, step);
    case FullPrune(_) => FullKeeps(fp, g, x, step);
    case _ => SyncStepKeeps(fp, g, x, step);
  }

  // ----------------------------------------------------------------- whole system

  datatype State = State(g: Global, instances: seq<Instance>)

  datatype Step =
    | Commit(ns: NamespaceId, content: Option<Raw>)
    | Bump(ns: NamespaceId)
    | Local(k: nat, step: LocalStep)
    | DeleteMarks(k: nat, full: nat)

  function NewInstance(): Instance {
    Instance(F.Empty(), map[], map[], map[], map[], {}, map[], map[], map[], map[])
  }

  function Initial(n: nat): State {
    State(Global(map[], map[], map[], {}), seq(n, _ => NewInstance()))
  }

  /**
   * A namespace is created by its first change and its ID is not used again after
   * its deletion; a mark is bumped for a namespace that was changed before.
   */
  predicate CanStep(s: State, step: Step) {
    match step
    case Commit(ns, content) => !Dead(s.g, ns) && (Version(s.g, ns) == 0 ==> content.Some?)
    case Bump(ns) => Version(s.g, ns) > 0
    case Local(k, local) => k < |s.instances| && Enabled(s.g, s.instances[k], local)
    case DeleteMarks(k, full) => && k < |s.instances| && full in s.instances[k].fulls
                                 && s.instances[k].fulls[full].FullDeleting?
  }

  function Committed(g: Global, ns: NamespaceId, content: Option<Raw>): Global {
    g.(db := g.db[ns := (if ns in g.db then g.db[ns] else []) + [content]])
  }

  function Bumped(g: Global, ns: NamespaceId): Global {
    g.(marks := g.marks[ns := Lookup(g.marks, ns) + 1], bumps := g.bumps[ns := Bumps(g, ns) + [Version(g, ns)]])
  }

  function Deleted(g: Global, prune: set<NamespaceId>): Global {
    g.(marks := g.marks - prune, pruned := g.pruned + prune)
  }

  function Take(fp: Fingerprint, s: State, step: Step): State
    requires CanStep(s, step)
  {
    match step
    case Commit(ns, content) => s.(g := Committed(s.g, ns, content))
    case Bump(ns) => s.(g := Bumped(s.g, ns))
    case Local(k, local) => s.(instances := s.instances[k := Do(fp, s.g, s.instances[k], local)])
    case DeleteMarks(k, full) =>
      var x := s.instances[k];
      State(Deleted(s.g, x.fulls[full].prune), s.instances[k := x.(fulls := x.fulls - {full})])
  }

  ghost predicate Inv(fp: Fingerprint, s: State) {
    && (forall ns :: GlobalOk(s.g, ns))
    && (forall k :: 0 <= k < |s.instances| ==> InstanceOk(fp, s.g, s.instances[k]))
  }

  lemma CommittedExtends(g: Global, ns: NamespaceId, content: Option<Raw>, ms: NamespaceId)
    requires GlobalOk(g, ms) && !Dead(g, ns)
    ensures ExtendsAt(g, Committed(g, ns, content), ms) && GlobalOk(Committed(g, ns, content), ms)
  {
  }

  lemma BumpedIsOk(g: Global, ns: NamespaceId)
    requires GlobalOk(g, ns) && Version(g, ns) > 0
    ensures GlobalOk(Bumped(g, ns), ns)
  {
    assert Bumps(Bumped(g, ns), ns) == Bumps(g, ns) + [Version(g, ns)];
  }

  lemma BumpedExtends(g: Global, ns: NamespaceId, ms: NamespaceId)
    requires GlobalOk(g, ms) && Version(g, ns) > 0
    ensures ExtendsAt(g, Bumped(g, ns), ms) && GlobalOk(Bumped(g, ns), ms)
  {
    if ms == ns {
      BumpedIsOk(g, ns);
    }
  }

  lemma DeletedExtends(g: Global, prune: set<NamespaceId>, ms: NamespaceId)
    requires GlobalOk(g, ms) && (ms in prune ==> Dead(g, ms))
    ensures ExtendsAt(g, Deleted(g, prune), ms) && GlobalOk(Deleted(g, prune), ms)
  {
  }

  lemma SharedStepExtends(fp: Fingerprint, s: State, step: Step)
    requires Inv(fp, s) && CanStep(s, step)
    ensures Extends(s.g, Take(fp, s, step).g) && forall ns :: GlobalOk(Take(fp, s, step).g, ns)
  {
    var h := Take(fp, s, step).g;
    forall ms
      ensures ExtendsAt(s.g, h, ms) && GlobalOk(h, ms)
    {
      assert GlobalOk(s.g, ms);
      match step
      case Commit(ns, content) => CommittedExtends(s.g, ns, content, ms);
      case Bump(ns) => BumpedExtends(s.g, ns, ms);
      case Local(_, _) =>
      case DeleteMarks(k, full) =>
        assert InstanceOk(fp, s.g, s.instances[k]);
        assert FullOk(s.g, s.instances[k].fulls[full]);
        DeletedExtends(s.g, s.instances[k].fulls[full].prune, ms);
    }
  }

  lemma StepKeeps(fp: Fingerprint, s: State, step: Step)
    requires Inv(fp, s) && CanStep(s, step)
    ensures Inv(fp, Take(fp, s, step))
  {
    var n := Take(fp, s, step);
    SharedStepExtends(fp, s, step);
    forall k | 0 <= k < |n.instances|
      ensures InstanceOk(fp, n.g, n.instances[k])
    {
      assert InstanceOk(fp, s.g, s.instances[k]);
      if step.Local? && step.k == k {
        LocalKeeps(fp, s.g, s.instances[k], step.step);
      } else {
        InstanceStays(fp, s.g, n.g, s.instances[k]);
      }
    }
  }

  ghost predicate IsRun(fp: Fingerprint, run: seq<State>, steps: seq<Step>) {
    && |run| == |steps| + 1
    && run[0] == Initial(|run[0].instances|)
    && forall i :: 0 <= i < |steps| ==> CanStep(run[i], steps[i]) && run[i + 1] == Take(fp, run[i], steps[i])
  }

  lemma {:induction false} RunKeeps(fp: Fingerprint, run: seq<State>, steps: seq<Step>, i: nat)
    requires IsRun(fp, run, steps) && i < |run|
    ensures Inv(fp, run[i]) && |run[i].instances| == |run[0].instances|
  {
    if i > 0 {
      RunKeeps(fp, run, steps, i - 1);
      StepKeeps(fp, run[i - 1], steps[i - 1]);
    }
  }

  /** The next step of a runner on an instance, if only the failure of its load. */
  predicate CanGoOn(g: Global, x: Instance, r: nat)
    requires r < |x.flights.runners|
  {
    match x.flights.runners[r].point
    case Fetching => Enabled(g, x, Begin(r))
    case Finished(_) => Enabled(g, x, Advance(r))
    case Exited => true
    case Loading(_) =>
      && r in x.loads
      && match x.loads[r]
         case Begun => Enabled(g, x, Observe(r, false)) && Enabled(g, x, Observe(r, true))
         case Observed(_, _) => Enabled(g, x, ReadDatabase(r))
         case Read(_, _, _) => Enabled(g, x, Apply(r))
         case Applied => Enabled(g, x, Finish(r))
  }

  lemma GoesOn(fp: Fingerprint, g: Global, x: Instance, r: nat)
    requires InstanceOk(fp, g, x) && r < |x.flights.runners|
    ensures CanGoOn(g, x, r)
  {
    F.GoesOn(x.flights, r);
    assert r in x.loads ==> LoadOk(g, x.flights.runners[r], x.loads[r], x.shows, x.floors);
  }

  /** No guard of a step ever holds up a load or a request. */
  lemma NobodyIsStuck(fp: Fingerprint, run: seq<State>, steps: seq<Step>, i: nat, k: nat, r: nat, ns: NamespaceId)
    requires IsRun(fp, run, steps) && i < |run| && k < |run[i].instances|
    ensures var x := run[i].instances[k];
            CanRequest(x, ns) && (r < |x.flights.runners| ==> CanGoOn(run[i].g, x, r))
  {
    RunKeeps(fp, run, steps, i);
    var x := run[i].instances[k];
    assert InstanceOk(fp, run[i].g, x);
    assert ns in x.flights.entries ==> F.EntryOk(x.flights, ns);
    if r < |x.flights.runners| {
      GoesOn(fp, run[i].g, x, r);
    }
  }

  /** A full reload never takes a namespace created after its listing for a deleted one: live marks stay. */
  lemma LiveMarksStay(fp: Fingerprint, run: seq<State>, steps: seq<Step>, i: nat, ns: NamespaceId)
    requires IsRun(fp, run, steps) && i < |run|
    requires Version(run[i].g, ns) > 0 && !Dead(run[i].g, ns)
    ensures ns !in run[i].g.pruned && Lookup(run[i].g.marks, ns) == |Bumps(run[i].g, ns)|
  {
    RunKeeps(fp, run, steps, i);
    assert GlobalOk(run[i].g, ns);
  }

  lemma {:induction false} SharedGrows(fp: Fingerprint, run: seq<State>, steps: seq<Step>, i: nat, j: nat,
                                       ns: NamespaceId)
    requires IsRun(fp, run, steps) && i <= j < |run|
    ensures ExtendsAt(run[i].g, run[j].g, ns)
    decreases j - i
  {
    if i < j {
      RunKeeps(fp, run, steps, i);
      SharedStepExtends(fp, run[i], steps[i]);
      assert ExtendsAt(run[i].g, run[i + 1].g, ns);
      SharedGrows(fp, run, steps, i + 1, j, ns);
    }
  }

  /** A bump acknowledges everything committed before it. */
  lemma BumpAcknowledges(fp: Fingerprint, run: seq<State>, steps: seq<Step>, c: nat, b: nat, ns: NamespaceId)
    requires IsRun(fp, run, steps) && c < b < |run| && steps[c] == Bump(ns)
    ensures ns in run[b].g.bumps && Version(run[c].g, ns) <= Acknowledged(run[b].g, ns)
  {
    RunKeeps(fp, run, steps, b);
    assert GlobalOk(run[b].g, ns);
    SharedGrows(fp, run, steps, c + 1, b, ns);
    assert run[c + 1].g == Bumped(run[c].g, ns);
    var before, after := Bumps(run[c + 1].g, ns), Bumps(run[b].g, ns);
    assert before[|before| - 1] == Version(run[c].g, ns) == after[|before| - 1];
  }

  // ------------------------------------------------------------------- one reload

  lemma JoinGrows(g: Global, x: Instance, ns: NamespaceId, n: F.Table, f: nat)
    requires F.Joined(x.flights, n, ns, f) && FlightsOk(g, x.flights.flights, x.shows, x.floors)
    ensures var y := JoinFlight(g, x, ns, n, f);
            Grows(x.flights.flights, x.shows, x.floors, y.flights.flights, y.shows, y.floors)
  {
    JoinKeepsFlights(g, x, n, ns, f);
  }

  lemma OtherGrows(fp: Fingerprint, g: Global, x: Instance, step: LocalStep)
    requires Enabled(g, x, step) && !step.Request? && !step.SyncRequest?
    requires step.Apply? ==> LoadOk(g, x.flights.runners[step.r], x.loads[step.r], x.shows, x.floors)
    ensures var y := Do(fp, g, x, step);
            Grows(x.flights.flights, x.shows, x.floors, y.flights.flights, y.shows, y.floors)
  {
  }

  lemma RequestGrows(fp: Fingerprint, g: Global, x: Instance, ns: NamespaceId)
    requires InstanceOk(fp, g, x)
    ensures var t := F.Request(x.flights, ns);
            var y := JoinFlight(g, x, ns, t.0, t.1);
            Grows(x.flights.flights, x.shows, x.floors, y.flights.flights, y.shows, y.floors)
  {
    F.RequestJoins(x.flights, ns);
    JoinGrows(g, x, ns, F.Request(x.flights, ns).0, F.Request(x.flights, ns).1);
  }

  lemma LocalGrows(fp: Fingerprint, g: Global, x: Instance, step: LocalStep)
    requires InstanceOk(fp, g, x) && Enabled(g, x, step)
    ensures var y := Do(fp, g, x, step);
            Grows(x.flights.flights, x.shows, x.floors, y.flights.flights, y.shows, y.floors)
  {
    match step
    case Request(ns) => RequestGrows(fp, g, x, ns);
    case SyncRequest(_, ns) => RequestGrows(fp, g, x, ns);
    case Apply(r) =>
      assert LoadOk(g, x.flights.runners[r], x.loads[r], x.shows, x.floors);
      OtherGrows(fp, g, x, step);
    case _ => OtherGrows(fp, g, x, step);
  }

  lemma StepGrows(fp: Fingerprint, s: State, step: Step, n: State, k: nat)
    requires Inv(fp, s) && CanStep(s, step) && n == Take(fp, s, step) && k < |s.instances|
    ensures |n.instances| == |s.instances|
    ensures var x, y := s.instances[k], n.instances[k];
            Grows(x.flights.flights, x.shows, x.floors, y.flights.flights, y.shows, y.floors)
  {
    assert InstanceOk(fp, s.g, s.instances[k]);
    if step.Local? && step.k == k {
      LocalGrows(fp, s.g, s.instances[k], step.step);
    }
  }

  lemma {:induction false} InstanceGrows(fp: Fingerprint, run: seq<State>, steps: seq<Step>, i: nat, j: nat, k: nat)
    requires IsRun(fp, run, steps) && i <= j < |run| && k < |run[0].instances|
    ensures |run[i].instances| == |run[j].instances| == |run[0].instances|
    ensures var x, y := run[i].instances[k], run[j].instances[k];
            Grows(x.flights.flights, x.shows, x.floors, y.flights.flights, y.shows, y.floors)
    decreases j - i
  {
    RunKeeps(fp, run, steps, i);
    RunKeeps(fp, run, steps, j);
    if i < j {
      StepGrows(fp, run[i], steps[i], run[i + 1], k);
      InstanceGrows(fp, run, steps, i + 1, j, k);
    }
  }

  /**
   * A reload that finished without error shows everything committed before it was
   * requested, and the snapshot never goes back to an older version.
   */
  lemma ReloadSeesCommitted(fp: Fingerprint, run: seq<State>, steps: seq<Step>, c: nat, j: nat, k: nat,
                            ns: NamespaceId, f: nat)
    requires IsRun(fp, run, steps) && c < j < |run| && steps[c] == Local(k, Request(ns))
    requires f == RequestFlight(run[c].g, run[c].instances[k], ns).1
    requires k < |run[j].instances| && f < |run[j].instances[k].flights.flights|
    requires run[j].instances[k].flights.flights[f].status == F.Done(true)
    ensures var x := run[j].instances[k];
            Version(run[c].g, ns) <= Shows(x, ns) && Reflects(fp, run[j].g, x.index, ns, Shows(x, ns))
  {
    RunKeeps(fp, run, steps, c);
    RunKeeps(fp, run, steps, j);
    var w, x, y := run[c].instances[k], run[c + 1].instances[k], run[j].instances[k];
    assert InstanceOk(fp, run[c].g, w) && InstanceOk(fp, run[j].g, y);
    F.RequestJoins(w.flights, ns);
    JoinKeepsFlights(run[c].g, w, F.Request(w.flights, ns).0, ns, f);
    assert x == JoinFlight(run[c].g, w, ns, F.Request(w.flights, ns).0, f);
    InstanceGrows(fp, run, steps, c + 1, j, k);
    assert NamespaceOk(fp, run[j].g, ns, y.index, y.fingerprints, y.applied, y.shows);
  }
}
