/**
 * The breakers document of a namespace (internal/breaker/runtime.go): its version is
 * read first, then its content by several separate reads, and the result is cached
 * under that version while changes go on.
 */
module RuntimeDocument {
  import opened Common

  type SiteKey = nat
  datatype Group = Group(site: SiteKey, key: nat)

  /** A breaker hash: closed, or anything else with its details (open or half open, until, manual, reason). */
  datatype Breaker = Closed | NonClosed(details: nat)

  // ------------------------------------------------------------------ runtimeCache

  datatype Entry<T> = Entry(version: int, content: T)

  const MAX_ENTRIES: nat := 10_000

  /** One document's cell of the cache. */
  function EntryOf<K(==), T>(entries: map<K, Entry<T>>, k: K): Option<Entry<T>> {
    if k in entries then Some(entries[k]) else None
  }

  /** Only an exact version match is served. */
  function Served<T>(entry: Option<Entry<T>>, version: int): Option<T> {
    if entry.Some? && entry.value.version == version then Some(entry.value.content) else None
  }

  class RuntimeCache<K(==), T> {
    var entries: map<K, Entry<T>>

    constructor ()
      ensures entries == map[]
    {
      entries := map[];
    }

    method Get(k: K, version: int) returns (content: Option<T>)
      ensures content.Some? <==> k in entries && entries[k].version == version
      ensures content.Some? ==> content.value == entries[k].content
      ensures content == Served(EntryOf(entries, k), version)
    {
      content := if k in entries && entries[k].version == version then Some(entries[k].content) else None;
    }

    /** Always replaces the entry; a new key makes room by dropping at most one other one. */
    method Put(k: K, version: int, content: T)
      requires |entries| <= MAX_ENTRIES
      modifies this
      ensures |entries| <= MAX_ENTRIES
      ensures EntryOf(entries, k) == Some(Entry(version, content))
      ensures forall j :: j != k ==> EntryOf(entries, j) == EntryOf(old(entries), j) || EntryOf(entries, j).None?
      ensures k in old(entries) || |old(entries)| < MAX_ENTRIES ==>
        entries == old(entries)[k := Entry(version, content)]
      ensures |old(entries).Keys - entries.Keys| <= 1
    {
      ghost var before := entries;
      if k !in entries && |entries| >= MAX_ENTRIES {
        assert |entries.Keys| == |entries| && entries.Keys != {};
        var victim :| victim in entries.Keys;
        entries := entries - {victim};
        assert entries.Keys == before.Keys - {victim};
      }
      ghost var room := entries;
      entries := entries[k := Entry(version, content)];
      assert entries.Keys == room.Keys + {k};
      assert |entries.Keys| <= |room.Keys| + 1;
      assert before.Keys - entries.Keys <= before.Keys - room.Keys;
      SubsetSize(before.Keys - entries.Keys, before.Keys - room.Keys);
      if room != before {
        assert |before.Keys - room.Keys| <= 1;
      } else {
        assert before.Keys - room.Keys == {};
      }
    }
  }

  // --------------------------------------------------------- changes and renderings

  /** What a change sets: the paused flag of a site, or the breaker of a group. */
  datatype Target = OfSite(site: SiteKey) | OfGroup(group: Group)

  /** A change: the value it put at this index of its target's history. */
  datatype Change = Change(target: Target, index: nat)

  /**
   * A document: the version it carries, the sites with their paused flag and the
   * non-closed groups. siteIndex and groupIndex say which value of each history it
   * shows (0 for a group it says nothing about).
   */
  datatype Document = Document(
    version: nat, sites: map<SiteKey, bool>, groups: map<Group, Breaker>,
    siteIndex: map<SiteKey, nat>, groupIndex: map<Group, nat>)

  /**
   * A RuntimeContent call: with its version, after the sites query (unread: sites whose
   * open set is still to be read, members: the groups found open), after the names query
   * (unread: members whose hash is still to be read), and returned.
   */
  datatype Rendering =
    | Versioned(version: nat)
    | ReadingMembers(doc: Document, sites: set<SiteKey>, members: set<Group>)
    | ReadingHashes(doc: Document, names: set<Group>, members: set<Group>)
    | Returned(doc: Document)

  /** Every value so far, oldest first. */
  type Flags = h: seq<bool> | |h| > 0 witness [false]
  type Breakers = h: seq<Breaker> | |h| > 0 witness [Closed]

  /**
   * A group without a history has always been closed. applied: changes whose bump is
   * still to come. bumped: the change whose bump produced version i + 1, for every i.
   * known: the groups in PostgreSQL.
   */
  datatype World = World(
    paused: map<SiteKey, Flags>, breakers: map<Group, Breakers>, known: set<Group>, deleted: set<Group>,
    applied: map<nat, Change>, bumped: seq<Change>)

  /** The calls of RuntimeContent, and the cache entry of this document. */
  datatype State = State(w: World, renderings: map<nat, Rendering>, cached: Option<Entry<Document>>)

  function History(breakers: map<Group, Breakers>, g: Group): Breakers {
    if g in breakers then breakers[g] else [Closed]
  }

  /** The hash of the group now. */
  function Now(breakers: map<Group, Breakers>, g: Group): Breaker {
    History(breakers, g)[|History(breakers, g)| - 1]
  }

  /** The open set of the site: its non-closed groups, as the scripts keep it with every hash they write. */
  function OpenSet(breakers: map<Group, Breakers>, site: SiteKey): set<Group> {
    set g | g in breakers && g.site == site && Now(breakers, g) != Closed
  }

  datatype Step =
    | CreateSite(site: SiteKey, flag: bool)
    | CreateGroup(g: Group)
    | DeleteGroup(g: Group)
    | Pause(c: nat, site: SiteKey, flag: bool)
    | Transition(c: nat, g: Group, value: Breaker)
    | Bump(c: nat)
    | ReadVersion(r: nat)
    | ServeCached(r: nat)
    | ReadSites(r: nat)
    | ReadMembers(r: nat, site: SiteKey)
    | ReadNames(r: nat)
    | ReadHash(r: nat, g: Group)
    | Put(r: nat)
    | Evict

  predicate Enabled(s: State, step: Step) {
    match step
    case CreateSite(site, _) => site !in s.w.paused
    case CreateGroup(g) => g.site in s.w.paused && g !in s.w.known && g !in s.w.deleted
    case DeleteGroup(g) => g in s.w.known
    case Pause(c, site, _) => c !in s.w.applied && site in s.w.paused
    case Transition(c, g, _) => c !in s.w.applied && (g in s.w.known || g in s.w.deleted)
    case Bump(c) => c in s.w.applied
    case ReadVersion(r) => r !in s.renderings
    case ServeCached(r) =>
      && r in s.renderings && s.renderings[r].Versioned?
      && Served(s.cached, s.renderings[r].version).Some?
    case ReadSites(r) => r in s.renderings && s.renderings[r].Versioned?
    case ReadMembers(r, site) =>
      r in s.renderings && s.renderings[r].ReadingMembers? && site in s.renderings[r].sites
    case ReadNames(r) =>
      r in s.renderings && s.renderings[r].ReadingMembers? && s.renderings[r].sites == {}
    case ReadHash(r, g) =>
      r in s.renderings && s.renderings[r].ReadingHashes? && g in s.renderings[r].members
    case Put(r) =>
      r in s.renderings && s.renderings[r].ReadingHashes? && s.renderings[r].members == {}
    case Evict => true
  }

  /** The document after the sites query. */
  function WithSites(paused: map<SiteKey, Flags>, version: nat): Document {
    Document(version, map k | k in paused :: paused[k][|paused[k]| - 1], map[],
             map k | k in paused :: |paused[k]| - 1, map[])
  }

  /** The groups of the site that were not in its open set are shown as closed. */
  function WithClosed(doc: Document, breakers: map<Group, Breakers>, site: SiteKey): Document {
    doc.(groupIndex := doc.groupIndex +
                       map g | g in breakers && g.site == site && g !in OpenSet(breakers, site) :: |breakers[g]| - 1)
  }

  /** A member's hash is shown when the group has a name and is not closed any more. */
  function WithHash(doc: Document, breakers: map<Group, Breakers>, names: set<Group>, g: Group): Document {
    doc.(groups := if g in names && Now(breakers, g) != Closed then doc.groups[g := Now(breakers, g)] else doc.groups,
         groupIndex := doc.groupIndex[g := |History(breakers, g)| - 1])
  }

  function Moved(s: State, r: nat, n: Rendering): State {
    s.(renderings := s.renderings[r := n])
  }

  function Do(s: State, step: Step): State
    requires Enabled(s, step)
  {
    var w := s.w;
    match step
    case CreateSite(site, flag) => s.(w := w.(paused := w.paused[site := [flag]]))
    case CreateGroup(g) => s.(w := w.(known := w.known + {g}))
    case DeleteGroup(g) => s.(w := w.(known := w.known - {g}, deleted := w.deleted + {g}))
    case Pause(c, site, flag) =>
      s.(w := w.(paused := w.paused[site := w.paused[site] + [flag]],
                 applied := w.applied[c := Change(OfSite(site), |w.paused[site]|)]))
    case Transition(c, g, value) =>
      s.(w := w.(breakers := w.breakers[g := History(w.breakers, g) + [value]],
                 applied := w.applied[c := Change(OfGroup(g), |History(w.breakers, g)|)]))
    case Bump(c) => s.(w := w.(bumped := w.bumped + [w.applied[c]], applied := w.applied - {c}))
    case ReadVersion(r) => Moved(s, r, Versioned(|w.bumped|))
    case ServeCached(r) => Moved(s, r, Returned(Served(s.cached, s.renderings[r].version).value))
    case ReadSites(r) => Moved(s, r, ReadingMembers(WithSites(w.paused, s.renderings[r].version), w.paused.Keys, {}))
    case ReadMembers(r, site) =>
      var x := s.renderings[r];
      var members := x.members + OpenSet(w.breakers, site);
      Moved(s, r, ReadingMembers(WithClosed(x.doc, w.breakers, site), x.sites - {site}, members))
    case ReadNames(r) => Moved(s, r, ReadingHashes(s.renderings[r].doc, w.known, s.renderings[r].members))
    case ReadHash(r, g) =>
      var x := s.renderings[r];
      Moved(s, r, ReadingHashes(WithHash(x.doc, w.breakers, x.names, g), x.names, x.members - {g}))
    case Put(r) =>
      var doc := s.renderings[r].doc;
      Moved(s.(cached := Some(Entry(doc.version, doc))), r, Returned(doc))
    case Evict => s.(cached := None)
  }

  function Initial(): State {
    State(World(map[], map[], {}, {}, map[], []), map[], None)
  }

  // ----------------------------------------------------------------- what documents show

  function SiteShown(doc: Document, site: SiteKey): int {
    if site in doc.siteIndex then doc.siteIndex[site] else -1
  }

  function GroupShown(doc: Document, g: Group): int {
    if g in doc.groupIndex then doc.groupIndex[g] else 0
  }

  /** Every value in the document is a value its target really had. */
  ghost predicate SitesTrue(doc: Document, paused: map<SiteKey, Flags>) {
    && doc.sites.Keys == doc.siteIndex.Keys
    && forall k :: k in doc.siteIndex ==>
         k in paused && doc.siteIndex[k] < |paused[k]| && doc.sites[k] == paused[k][doc.siteIndex[k]]
  }

  /** The group is shown with the value of its history at that index; closed groups are left out. */
  predicate GroupTrue(doc: Document, breakers: map<Group, Breakers>, g: Group) {
    var h := History(breakers, g);
    0 <= GroupShown(doc, g) < |h| && (if g in doc.groups then doc.groups[g] else Closed) == h[GroupShown(doc, g)]
  }

  /** The document shows this change or a later value of its target. */
  predicate Reflects(doc: Document, c: Change) {
    match c.target
    case OfSite(site) => c.index <= SiteShown(doc, site)
    case OfGroup(g) => c.index <= GroupShown(doc, g)
  }

  /**
   * A document under construction: sites and members are still to be read. Every value
   * in it is one its target had, and every change up to its version is reflected or
   * belongs to something still to be read. Groups deleted from PostgreSQL are not claimed.
   */
  ghost predicate Building(doc: Document, sites: set<SiteKey>, members: set<Group>, w: World) {
    && doc.version <= |w.bumped|
    && SitesTrue(doc, w.paused)
    && (forall g :: g !in w.deleted ==> GroupTrue(doc, w.breakers, g))
    && (forall g :: g in members ==> g !in doc.groups)
    && forall i :: 0 <= i < doc.version ==> Accounted(doc, w.bumped[i], sites, members, w.deleted)
  }

  predicate Accounted(doc: Document, c: Change, sites: set<SiteKey>, members: set<Group>, deleted: set<Group>) {
    || Reflects(doc, c)
    || (c.target.OfGroup? && (c.target.group in deleted || c.target.group.site in sites || c.target.group in members))
  }

  /** The coherence of a finished document with its version. */
  ghost predicate Coherent(doc: Document, w: World) {
    Building(doc, {}, {}, w)
  }

  // --------------------------------------------------------------------- invariants

  predicate Applied(c: Change, w: World) {
    match c.target
    case OfSite(site) => site in w.paused && c.index < |w.paused[site]|
    case OfGroup(g) => g.site in w.paused && c.index < |History(w.breakers, g)|
  }

  ghost predicate WorldOk(w: World) {
    && (forall i :: 0 <= i < |w.bumped| ==> Applied(w.bumped[i], w))
    && (forall c :: c in w.applied ==> Applied(w.applied[c], w))
    && (forall g :: g in w.known || g in w.deleted ==> g.site in w.paused)
    && (forall g :: g in w.breakers ==> (g in w.known || g in w.deleted) && w.breakers[g][0] == Closed)
  }

  ghost predicate RenderingOk(x: Rendering, w: World) {
    match x
    case Versioned(v) => v <= |w.bumped|
    case ReadingMembers(doc, sites, members) =>
      Building(doc, sites, members, w) && doc.groups == map[] && members <= w.known + w.deleted
    case ReadingHashes(doc, names, members) =>
      Building(doc, {}, members, w) && members <= names + w.deleted
    case Returned(doc) => Coherent(doc, w)
  }

  ghost predicate CacheOk(cached: Option<Entry<Document>>, w: World) {
    cached.Some? ==> Coherent(cached.value.content, w) && cached.value.version == cached.value.content.version
  }

  ghost predicate Inv(s: State) {
    WorldOk(s.w) && CacheOk(s.cached, s.w) && forall r :: r in s.renderings ==> RenderingOk(s.renderings[r], s.w)
  }

  // ------------------------------------------------------------- the world only grows

  ghost predicate Grows(w: World, n: World) {
    && w.bumped <= n.bumped && w.deleted <= n.deleted && w.known <= n.known + n.deleted
    && (forall k :: k in w.paused ==> k in n.paused && w.paused[k] <= n.paused[k])
    && forall g :: History(w.breakers, g) <= History(n.breakers, g)
  }

  lemma BuildingStays(doc: Document, sites: set<SiteKey>, members: set<Group>, w: World, n: World)
    requires Building(doc, sites, members, w) && Grows(w, n)
    ensures Building(doc, sites, members, n)
  {
    forall g | g !in n.deleted
      ensures GroupTrue(doc, n.breakers, g)
    {
      assert History(w.breakers, g) <= History(n.breakers, g);
      assert GroupTrue(doc, w.breakers, g);
    }
    forall i | 0 <= i < doc.version
      ensures Accounted(doc, n.bumped[i], sites, members, n.deleted)
    {
      assert Accounted(doc, w.bumped[i], sites, members, w.deleted);
    }
  }

  lemma RenderingStays(x: Rendering, w: World, n: World)
    requires RenderingOk(x, w) && Grows(w, n)
    ensures RenderingOk(x, n)
  {
    match x
    case Versioned(_) =>
    case ReadingMembers(doc, sites, members) => BuildingStays(doc, sites, members, w, n);
    case ReadingHashes(doc, _, members) => BuildingStays(doc, {}, members, w, n);
    case Returned(doc) => BuildingStays(doc, {}, {}, w, n);
  }

  predicate Changes(step: Step) {
    step.CreateSite? || step.CreateGroup? || step.DeleteGroup? || step.Pause? || step.Transition? || step.Bump?
  }

  lemma WorldGrows(s: State, step: Step)
    requires WorldOk(s.w) && Enabled(s, step) && Changes(step)
    ensures Grows(s.w, Do(s, step).w)
  {
  }

  lemma WorldKept(s: State, step: Step)
    requires WorldOk(s.w) && Enabled(s, step) && Changes(step)
    ensures WorldOk(Do(s, step).w)
  {
    var w, n := s.w, Do(s, step).w;
    WorldGrows(s, step);
    assert forall c: Change :: Applied(c, w) ==> Applied(c, n) by {
      forall c: Change | Applied(c, w)
        ensures Applied(c, n)
      {
        if c.target.OfGroup? {
          assert History(w.breakers, c.target.group) <= History(n.breakers, c.target.group);
        }
      }
    }
  }

  lemma ChangeKeeps(s: State, step: Step)
    requires Inv(s) && Enabled(s, step) && Changes(step)
    ensures Inv(Do(s, step))
  {
    var n := Do(s, step);
    WorldKept(s, step);
    WorldGrows(s, step);
    if s.cached.Some? {
      BuildingStays(s.cached.value.content, {}, {}, s.w, n.w);
    }
    forall r | r in n.renderings
      ensures RenderingOk(n.renderings[r], n.w)
    {
      RenderingStays(s.renderings[r], s.w, n.w);
    }
  }

  // ------------------------------------------------------------- the reads of a rendering

  lemma SitesAreRead(w: World, version: nat)
    requires WorldOk(w) && version <= |w.bumped|
    ensures Building(WithSites(w.paused, version), w.paused.Keys, {}, w)
  {
    var doc := WithSites(w.paused, version);
    forall i | 0 <= i < version
      ensures Accounted(doc, w.bumped[i], w.paused.Keys, {}, w.deleted)
    {
      assert Applied(w.bumped[i], w);
    }
  }

  lemma MembersAreRead(doc: Document, sites: set<SiteKey>, members: set<Group>, w: World, site: SiteKey)
    requires WorldOk(w) && Building(doc, sites, members, w) && doc.groups == map[]
    ensures Building(WithClosed(doc, w.breakers, site), sites - {site}, members + OpenSet(w.breakers, site), w)
  {
    var d, unread, found := WithClosed(doc, w.breakers, site), sites - {site}, members + OpenSet(w.breakers, site);
    forall g | g !in w.deleted
      ensures GroupTrue(d, w.breakers, g)
    {
      assert GroupTrue(doc, w.breakers, g);
    }
    forall i | 0 <= i < d.version
      ensures Accounted(d, w.bumped[i], unread, found, w.deleted)
    {
      assert Accounted(doc, w.bumped[i], sites, members, w.deleted) && Applied(w.bumped[i], w);
    }
  }

  lemma HashIsRead(doc: Document, names: set<Group>, members: set<Group>, w: World, g: Group)
    requires WorldOk(w) && Building(doc, {}, members, w) && g in members && members <= names + w.deleted
    ensures Building(WithHash(doc, w.breakers, names, g), {}, members - {g}, w)
  {
    var d := WithHash(doc, w.breakers, names, g);
    forall k | k !in w.deleted
      ensures GroupTrue(d, w.breakers, k)
    {
      assert GroupTrue(doc, w.breakers, k);
    }
    forall i | 0 <= i < d.version
      ensures Accounted(d, w.bumped[i], {}, members - {g}, w.deleted)
    {
      assert Accounted(doc, w.bumped[i], {}, members, w.deleted) && Applied(w.bumped[i], w);
    }
  }

  /** Only rendering r changes, and the cache perhaps. */
  lemma RenderingKeeps(s: State, step: Step)
    requires Inv(s) && Enabled(s, step) && !Changes(step) && !step.Evict?
    ensures RenderingOk(Do(s, step).renderings[step.r], s.w)
  {
    if !step.ReadVersion? {
      assert RenderingOk(s.renderings[step.r], s.w);
    }
    match step
    case ReadSites(r) => SitesAreRead(s.w, s.renderings[r].version);
    case ReadMembers(r, site) =>
      var x := s.renderings[r];
      MembersAreRead(x.doc, x.sites, x.members, s.w, site);
    case ReadHash(r, g) =>
      var x := s.renderings[r];
      HashIsRead(x.doc, x.names, x.members, s.w, g);
    case _ =>
  }

  lemma StepKeeps(s: State, step: Step)
    requires Inv(s) && Enabled(s, step)
    ensures Inv(Do(s, step))
  {
    if Changes(step) {
      ChangeKeeps(s, step);
    } else if !step.Evict? {
      RenderingKeeps(s, step);
      assert step.Put? ==> RenderingOk(s.renderings[step.r], s.w);
    }
  }

  // ------------------------------------------------------------------------ whole runs

  ghost predicate IsRun(run: seq<State>, steps: seq<Step>) {
    && |run| == |steps| + 1 && run[0] == Initial()
    && forall i :: 0 <= i < |steps| ==> Enabled(run[i], steps[i]) && run[i + 1] == Do(run[i], steps[i])
  }

  lemma {:induction false} RunKeeps(run: seq<State>, steps: seq<Step>, i: nat)
    requires IsRun(run, steps) && i < |run|
    ensures Inv(run[i])
  {
    if i > 0 {
      RunKeeps(run, steps, i - 1);
      StepKeeps(run[i - 1], steps[i - 1]);
    }
  }

  /** A document that RuntimeContent returned or that the cache holds. */
  ghost predicate Available(s: State, doc: Document) {
    || (exists r :: r in s.renderings && s.renderings[r] == Returned(doc))
    || (s.cached.Some? && s.cached.value.content == doc)
  }

  /**
   * Whatever is returned or cached at version v shows, for every site and every group
   * that was not deleted, a value the target really had, and one no older than each
   * change whose bump produced a version up to v.
   */
  lemma DocumentsAreCoherent(run: seq<State>, steps: seq<Step>, i: nat, doc: Document)
    requires IsRun(run, steps) && i < |run| && Available(run[i], doc)
    ensures Coherent(doc, run[i].w)
  {
    RunKeeps(run, steps, i);
  }

  /** The change of step a waits for the bump of step b. */
  ghost predicate BumpedBy(steps: seq<Step>, c: nat, a: nat, b: nat) {
    && a < b < |steps| && steps[b] == Bump(c)
    && forall k :: a < k < b ==> steps[k] != Bump(c)
  }

  lemma {:induction false} ChangeWaits(run: seq<State>, steps: seq<Step>, c: nat, a: nat, b: nat, i: nat)
    requires IsRun(run, steps) && BumpedBy(steps, c, a, b) && a < i <= b
    requires c in run[a + 1].w.applied
    ensures c in run[i].w.applied && run[i].w.applied[c] == run[a + 1].w.applied[c]
  {
    if i > a + 1 {
      ChangeWaits(run, steps, c, a, b, i - 1);
      assert run[i] == Do(run[i - 1], steps[i - 1]);
    }
  }

  lemma BumpedGrows(s: State, step: Step)
    requires Enabled(s, step)
    ensures s.w.bumped <= Do(s, step).w.bumped
  {
  }

  lemma {:induction false} BumpsStay(run: seq<State>, steps: seq<Step>, b: nat, i: nat)
    requires IsRun(run, steps) && b <= i < |run|
    ensures run[b].w.bumped <= run[i].w.bumped
  {
    if i > b {
      BumpsStay(run, steps, b, i - 1);
      BumpedGrows(run[i - 1], steps[i - 1]);
    }
  }

  /** The change of step a reached version |bumped| + 1 at step b; later documents of that version on show it. */
  lemma BumpedChangeIsShown(run: seq<State>, steps: seq<Step>, c: nat, a: nat, b: nat, i: nat, doc: Document)
    requires IsRun(run, steps) && BumpedBy(steps, c, a, b) && b < i < |run|
    requires steps[a].Pause? || steps[a].Transition?
    requires steps[a].c == c
    requires Available(run[i], doc) && |run[b].w.bumped| + 1 <= doc.version
    ensures steps[a].Transition? && steps[a].g !in run[i].w.deleted ==>
              |History(run[a].w.breakers, steps[a].g)| <= GroupShown(doc, steps[a].g)
    ensures steps[a].Pause? ==>
              steps[a].site in run[a].w.paused && |run[a].w.paused[steps[a].site]| <= SiteShown(doc, steps[a].site)
  {
    assert run[a + 1] == Do(run[a], steps[a]);
    ChangeWaits(run, steps, c, a, b, b);
    var w := |run[b].w.bumped|;
    assert run[b + 1].w.bumped == run[b].w.bumped + [run[b].w.applied[c]];
    BumpsStay(run, steps, b + 1, i);
    assert run[i].w.bumped[w] == run[a + 1].w.applied[c];
    DocumentsAreCoherent(run, steps, i, doc);
    assert Accounted(doc, run[i].w.bumped[w], {}, {}, run[i].w.deleted);
  }
}
