/**
 * The catalog's change marks (internal/catalog/marks.go, internal/catalog/store.go):
 * loads, Sync and the pruning of marks on any number of instances that share a
 * database and a hash of marks.
 */
module Catalog {
  import opened Common
  import F = Flights

  type NamespaceId = F.NamespaceId

  /** The rows of one namespace, as loadRaw reads them in one transaction. */
  type Raw = nat

  /** fingerprint: a content hash, None when encoding failed. */
  type Fingerprint = Raw -> Option<nat>

  // --------------------------------------------------------------- shared state

  /**
   * What the instances share. db lists the committed contents of a namespace, one
   * version per change (None: the namespace does not exist). marks is the Redis
   * hash. bumps and pruned are history: the version committed when the mark was
   * bumped for the n-th time, and the namespaces whose mark was deleted.
   */
  datatype Global = Global(
    db: map<NamespaceId, seq<Option<Raw>>>,
    marks: map<NamespaceId, nat>,
    bumps: map<NamespaceId, seq<nat>>,
    pruned: set<NamespaceId>)

  function Version(g: Global, ns: NamespaceId): nat {
    if ns in g.db then |g.db[ns]| else 0
  }

  function ContentAt(g: Global, ns: NamespaceId, v: nat): Option<Raw>
    requires v <= Version(g, ns)
  {
    if v == 0 then None else g.db[ns][v - 1]
  }

  function Bumps(g: Global, ns: NamespaceId): seq<nat> {
    if ns in g.bumps then g.bumps[ns] else []
  }

  /** The version a completed bump vouches for: everything committed before the latest bump. */
  function Acknowledged(g: Global, ns: NamespaceId): nat {
    var b := Bumps(g, ns);
    if b == [] then 0 else b[|b| - 1]
  }

  /** The namespace was created and deleted again. */
  predicate Dead(g: Global, ns: NamespaceId) {
    Version(g, ns) > 0 && ContentAt(g, ns, Version(g, ns)).None?
  }

  function Lookup(m: map<NamespaceId, nat>, ns: NamespaceId): nat {
    if ns in m then m[ns] else 0
  }

  // -------------------------------------------------------------- one instance

  /** How far the load of a runner got. known is false when the mark could not be read. */
  datatype Load =
    | Begun
    | Observed(mark: nat, known: bool)
    | Read(mark: nat, known: bool, version: nat)
    | Applied

  /**
   * How far a call of Sync got. goal is history: the versions the call will have shown
   * when it returns. It starts as what was acknowledged when the call began, loses the
   * namespaces whose mark is gone when the call reads the marks, and rises with every
   * namespace the call asks for.
   */
  datatype Sync =
    | SyncBegun(goal: map<NamespaceId, nat>)
    | SyncMarked(goal: map<NamespaceId, nat>, marks: map<NamespaceId, nat>)
    | SyncWaiting(goal: map<NamespaceId, nat>, stale: set<NamespaceId>, waiting: map<NamespaceId, nat>)
    | SyncReturned(goal: map<NamespaceId, nat>)

  /** How far a full reload got; only what pruneMarks depends on. */
  datatype Full =
    | FullMarked(marks: map<NamespaceId, nat>)
    | FullListed(marks: map<NamespaceId, nat>, present: set<NamespaceId>)
    | FullDeleting(prune: set<NamespaceId>)

  /**
   * One store. shows and floors are history: the database version the published
   * snapshot of a namespace stands for, and for a flight the latest version
   * committed when a request returned it.
   */
  datatype Instance = Instance(
    flights: F.Table,
    loads: map<nat, Load>,
    index: map<NamespaceId, Raw>,
    fingerprints: map<NamespaceId, nat>,
    applied: map<NamespaceId, nat>,
    missing: set<NamespaceId>,
    syncs: map<nat, Sync>,
    fulls: map<nat, Full>,
    shows: map<NamespaceId, nat>,
    floors: map<nat, nat>)

  function Shows(x: Instance, ns: NamespaceId): nat {
    Lookup(x.shows, ns)
  }

  function Floor(x: Instance, f: nat): nat {
    if f in x.floors then x.floors[f] else 0
  }

  /** recordMarkLocked */
  function Recorded(applied: map<NamespaceId, nat>, ns: NamespaceId, mark: nat, known: bool): map<NamespaceId, nat> {
    if known && mark > Lookup(applied, ns) then applied[ns := mark] else applied
  }

  /** The namespaces Sync reloads. */
  function Stale(applied: map<NamespaceId, nat>, marks: map<NamespaceId, nat>): set<NamespaceId> {
    set ns | ns in marks && marks[ns] > Lookup(applied, ns)
  }

  /** The marks pruneMarks deletes: missing now and missing from the full reload before. */
  function Prunable(marks: map<NamespaceId, nat>, present: set<NamespaceId>, missing: set<NamespaceId>)
      : set<NamespaceId> {
    set ns | ns in marks && ns !in present && ns in missing
  }

  function NowMissing(marks: map<NamespaceId, nat>, present: set<NamespaceId>, missing: set<NamespaceId>)
      : set<NamespaceId> {
    set ns | ns in marks && ns !in present && ns !in missing
  }

  /** unchanged: the published snapshot was built from rows with this fingerprint. */
  predicate Unchanged(index: map<NamespaceId, Raw>, fingerprints: map<NamespaceId, nat>, ns: NamespaceId,
                      h: Option<nat>) {
    h.Some? && ns in index && ns in fingerprints && fingerprints[ns] == h.value
  }

  /** The index after a load read content with fingerprint h: remove, unchanged, or publish. */
  function NewIndex(index: map<NamespaceId, Raw>, fingerprints: map<NamespaceId, nat>, ns: NamespaceId,
                    content: Option<Raw>, h: Option<nat>): map<NamespaceId, Raw> {
    if content.None? then index - {ns}
    else if Unchanged(index, fingerprints, ns, h) then index
    else index[ns := content.value]
  }

  function NewFingerprints(index: map<NamespaceId, Raw>, fingerprints: map<NamespaceId, nat>, ns: NamespaceId,
                           content: Option<Raw>, h: Option<nat>): map<NamespaceId, nat> {
    if content.None? || h.None? then fingerprints - {ns}
    else if Unchanged(index, fingerprints, ns, h) then fingerprints
    else fingerprints[ns := h.value]
  }

  /** The instance after a request for ns returned flight f and left the table t. */
  function JoinFlight(g: Global, x: Instance, ns: NamespaceId, t: F.Table, f: nat): Instance {
    x.(flights := t, floors := x.floors[f := if Floor(x, f) < Version(g, ns) then Version(g, ns) else Floor(x, f)])
  }

  function RequestFlight(g: Global, x: Instance, ns: NamespaceId): (r: (Instance, nat))
    requires CanRequest(x, ns)
  {
    var (t, f) := F.Request(x.flights, ns);
    (JoinFlight(g, x, ns, t, f), f)
  }

  predicate CanRequest(x: Instance, ns: NamespaceId) {
    ns in x.flights.entries ==> x.flights.entries[ns] < |x.flights.cells|
  }

  datatype LocalStep =
    | Request(ns: NamespaceId)
    | Begin(r: nat)
    | Observe(r: nat, available: bool)
    | ReadDatabase(r: nat)
    | Apply(r: nat)
    | Finish(r: nat)
    | Advance(r: nat)
    | SyncBegin(t: nat)
    | SyncMarks(t: nat)
    | SyncStale(t: nat)
    | SyncRequest(t: nat, stale: NamespaceId)
    | SyncReturn(t: nat)
    | SyncFail(t: nat)
    | FullMarks(t: nat)
    | FullList(t: nat)
    | FullPrune(t: nat)

  predicate InLoad(x: Instance, r: nat) {
    r in x.loads && F.CanFinish(x.flights, r)
  }

  predicate CanApply(g: Global, x: Instance, r: nat) {
    InLoad(x, r) && x.loads[r].Read? && x.loads[r].version <= Version(g, x.flights.runners[r].ns)
  }

  predicate Enabled(g: Global, x: Instance, step: LocalStep) {
    match step
    case Request(ns) => CanRequest(x, ns)
    case Begin(r) => F.CanBegin(x.flights, r)
    case Observe(r, _) => InLoad(x, r) && x.loads[r].Begun?
    case ReadDatabase(r) => InLoad(x, r) && x.loads[r].Observed?
    case Apply(r) => CanApply(g, x, r)
    case Finish(r) => InLoad(x, r)
    case Advance(r) => F.CanAdvance(x.flights, r)
    case SyncBegin(t) => t !in x.syncs
    case SyncMarks(t) => t in x.syncs && x.syncs[t].SyncBegun?
    case SyncStale(t) => t in x.syncs && x.syncs[t].SyncMarked?
    case SyncRequest(t, ns) => t in x.syncs && x.syncs[t].SyncWaiting? && ns in x.syncs[t].stale && CanRequest(x, ns)
    case SyncReturn(t) => && t in x.syncs && x.syncs[t].SyncWaiting? && x.syncs[t].stale == {}
                          && forall ns :: ns in x.syncs[t].waiting ==>
                               var f := x.syncs[t].waiting[ns];
                               f < |x.flights.flights| && x.flights.flights[f].status == F.Done(true)
    case SyncFail(t) => t in x.syncs
    case FullMarks(t) => t !in x.fulls
    case FullList(t) => t in x.fulls && x.fulls[t].FullMarked?
    case FullPrune(t) => t in x.fulls && x.fulls[t].FullListed?
  }

  function ApplyLoad(fp: Fingerprint, g: Global, x: Instance, r: nat): Instance
    requires CanApply(g, x, r)
  {
    var ns, l := x.flights.runners[r].ns, x.loads[r];
    var content := ContentAt(g, ns, l.version);
    var h := if content.Some? then fp(content.value) else None;
    x.(index := NewIndex(x.index, x.fingerprints, ns, content, h),
      fingerprints := NewFingerprints(x.index, x.fingerprints, ns, content, h),
      applied := Recorded(x.applied, ns, l.mark, l.known),
      shows := x.shows[ns := l.version],
      loads := x.loads[r := Applied])
  }

  /** The call has asked for a stale namespace and waits for flight f. */
  function Asked(g: Global, sync: Sync, ns: NamespaceId, f: nat): Sync
    requires sync.SyncWaiting?
  {
    SyncWaiting(sync.goal[ns := Max(Lookup(sync.goal, ns), Version(g, ns))], sync.stale - {ns}, sync.waiting[ns := f])
  }

  function Do(fp: Fingerprint, g: Global, x: Instance, step: LocalStep): Instance
    requires Enabled(g, x, step)
  {
    match step
    case Request(ns) => RequestFlight(g, x, ns).0
    case Begin(r) => x.(flights := F.Begin(x.flights, r), loads := x.loads[r := Begun])
    case Observe(r, available) =>
      var mark := if available then Lookup(g.marks, x.flights.runners[r].ns) else 0;
      x.(loads := x.loads[r := Observed(mark, available)])
    case ReadDatabase(r) =>
      x.(loads := x.loads[r := Read(x.loads[r].mark, x.loads[r].known, Version(g, x.flights.runners[r].ns))])
    case Apply(r) => ApplyLoad(fp, g, x, r)
    case Finish(r) =>
      x.(flights := F.Finish(x.flights, r, x.loads[r].Applied?), loads := x.loads - {r})
    case Advance(r) => x.(flights := F.Advance(x.flights, r))
    case SyncBegin(t) => x.(syncs := x.syncs[t := SyncBegun(map ns | ns in g.bumps :: Acknowledged(g, ns))])
    case SyncMarks(t) => x.(syncs := x.syncs[t := SyncMarked(x.syncs[t].goal - g.pruned, g.marks)])
    case SyncStale(t) =>
      x.(syncs := x.syncs[t := SyncWaiting(x.syncs[t].goal, Stale(x.applied, x.syncs[t].marks), map[])])
    case SyncRequest(t, ns) =>
      var (y, f) := RequestFlight(g, x, ns);
      y.(syncs := x.syncs[t := Asked(g, x.syncs[t], ns, f)])
    case SyncReturn(t) => x.(syncs := x.syncs[t := SyncReturned(x.syncs[t].goal)])
    case SyncFail(t) => x.(syncs := x.syncs - {t})
    case FullMarks(t) => x.(fulls := x.fulls[t := FullMarked(g.marks)])
    case FullList(t) =>
      var present := set ns | ns in g.db && Version(g, ns) > 0 && !Dead(g, ns);
      x.(fulls := x.fulls[t := FullListed(x.fulls[t].marks, present)])
    case FullPrune(t) =>
      var marks, present := x.fulls[t].marks, x.fulls[t].present;
      var prune := Prunable(marks, present, x.missing);
      x.(applied := x.applied - prune, missing := NowMissing(marks, present, x.missing),
         fulls := x.fulls[t := FullDeleting(prune)])
  }

  // ------------------------------------------------------------ under writeMu

  /** The part of Store that writeMu guards for the marks. */
  class MarkStore {
    var applied: map<NamespaceId, nat>
    var missing: set<NamespaceId>

    constructor ()
      ensures applied == map[] && missing == {}
    {
      applied, missing := map[], {};
    }

    /** Sync's scan, in any order: every stale namespace once. */
    method CollectStale(marks: map<NamespaceId, nat>) returns (stale: seq<NamespaceId>)
      ensures (set ns | ns in stale) == Stale(applied, marks)
      ensures forall ns :: ns in stale <==> ns in marks && marks[ns] > (if ns in applied then applied[ns] else 0)
      ensures forall i, j :: 0 <= i < j < |stale| ==> stale[i] != stale[j]
    {
      stale := [];
      var todo := marks.Keys;
      while todo != {}
        invariant todo <= marks.Keys
        invariant forall ns :: ns in stale <==> ns in Stale(applied, marks) && ns !in todo
        invariant forall i, j :: 0 <= i < j < |stale| ==> stale[i] != stale[j]
        decreases todo
      {
        var id :| id in todo;
        todo := todo - {id};
        if marks[id] > Lookup(applied, id) {
          stale := stale + [id];
        }
      }
    }

    method RecordMark(ns: NamespaceId, mark: nat, known: bool)
      modifies this`applied
      ensures applied == Recorded(old(applied), ns, mark, known)
      ensures forall ms :: Lookup(old(applied), ms) <= Lookup(applied, ms)
    {
      if known && mark > Lookup(applied, ns) {
        applied := applied[ns := mark];
      }
    }

    /** pruneMarks up to the deletion: what to delete, and what is missing for the next time. */
    method CollectPrunable(marks: map<NamespaceId, nat>, present: set<NamespaceId>) returns (prune: seq<NamespaceId>)
      modifies this
      ensures (set ns | ns in prune) == Prunable(marks, present, old(missing))
      ensures applied == old(applied) - Prunable(marks, present, old(missing))
      ensures missing == NowMissing(marks, present, old(missing))
    {
      prune := [];
      var absent: set<NamespaceId> := {};
      var todo := marks.Keys;
      ghost var before := applied;
      while todo != {}
        modifies this`applied
        invariant todo <= marks.Keys
        invariant forall ns :: ns in prune <==> ns in Prunable(marks, present, missing) && ns !in todo
        invariant forall ns :: ns in absent <==> ns in NowMissing(marks, present, missing) && ns !in todo
        invariant applied == before - (set ns | ns in prune)
        decreases todo
      {
        var id :| id in todo;
        todo := todo - {id};
        if id in present {
          continue;
        }
        if id in missing {
          prune := prune + [id];
          applied := applied - {id};
          continue;
        }
        absent := absent + {id};
      }
      missing := absent;
    }
  }
}
