/**
 * Calls of RuntimeContent from the version they read to the document they return
 * (internal/breaker/runtime.go), cached or rendered.
 */
module RuntimeCalls {
  import opened Common
  import opened RuntimeDocument

  function VersionOf(x: Rendering): nat {
    match x
    case Versioned(version) => version
    case ReadingMembers(doc, _, _) => doc.version
    case ReadingHashes(doc, _, _) => doc.version
    case Returned(doc) => doc.version
  }

  lemma VersionStays(s: State, step: Step, n: State, r: nat)
    requires Inv(s) && Enabled(s, step) && n == Do(s, step) && r in s.renderings
    ensures r in n.renderings && VersionOf(n.renderings[r]) == VersionOf(s.renderings[r])
  {
  }

  lemma {:induction false} VersionStaysUntil(run: seq<State>, steps: seq<Step>, i: nat, j: nat, r: nat)
    requires IsRun(run, steps) && i <= j < |run| && r in run[i].renderings
    ensures r in run[j].renderings && VersionOf(run[j].renderings[r]) == VersionOf(run[i].renderings[r])
    decreases j - i
  {
    if i < j {
      RunKeeps(run, steps, i);
      VersionStays(run[i], steps[i], run[i + 1], r);
      VersionStaysUntil(run, steps, i + 1, j, r);
    }
  }

  /** The call r read its version at step i and has returned the document in state j. */
  ghost predicate Returns(run: seq<State>, steps: seq<Step>, i: nat, j: nat, r: nat, doc: Document) {
    && i < j < |run| == |steps| + 1 && steps[i] == ReadVersion(r)
    && r in run[j].renderings && run[j].renderings[r] == Returned(doc)
  }

  /** A call returns a document of exactly the version it read, the number of bumps before it. */
  lemma DocumentHasVersion(run: seq<State>, steps: seq<Step>, i: nat, j: nat, r: nat, doc: Document)
    requires IsRun(run, steps) && Returns(run, steps, i, j, r, doc)
    ensures doc.version == |run[i].w.bumped|
  {
    assert run[i + 1] == Do(run[i], steps[i]);
    VersionStaysUntil(run, steps, i + 1, j, r);
  }

  /** A call that begins after a change was bumped returns a document that shows it, or a later value. */
  lemma CallShowsChange(run: seq<State>, steps: seq<Step>, c: nat, a: nat, b: nat, i: nat, j: nat, r: nat,
                        doc: Document)
    requires IsRun(run, steps) && BumpedBy(steps, c, a, b) && b < i && Returns(run, steps, i, j, r, doc)
    requires steps[a].Pause? || steps[a].Transition?
    requires steps[a].c == c
    ensures steps[a].Transition? && steps[a].g !in run[j].w.deleted ==>
              |History(run[a].w.breakers, steps[a].g)| <= GroupShown(doc, steps[a].g)
    ensures steps[a].Pause? ==>
              steps[a].site in run[a].w.paused && |run[a].w.paused[steps[a].site]| <= SiteShown(doc, steps[a].site)
  {
    DocumentHasVersion(run, steps, i, j, r, doc);
    assert run[b + 1] == Do(run[b], steps[b]);
    BumpsStay(run, steps, b + 1, i);
    assert Available(run[j], doc);
    BumpedChangeIsShown(run, steps, c, a, b, j, doc);
  }

  /** While no later change of the site was made, such a call returns the flag the change set. */
  lemma CallShowsFlag(run: seq<State>, steps: seq<Step>, c: nat, a: nat, b: nat, i: nat, j: nat, r: nat,
                      doc: Document)
    requires IsRun(run, steps) && BumpedBy(steps, c, a, b) && b < i && Returns(run, steps, i, j, r, doc)
    requires steps[a].Pause? && steps[a].c == c
    requires steps[a].site in run[j].w.paused && run[j].w.paused[steps[a].site] == run[a + 1].w.paused[steps[a].site]
    ensures steps[a].site in doc.sites && doc.sites[steps[a].site] == steps[a].flag
  {
    CallShowsChange(run, steps, c, a, b, i, j, r, doc);
    assert run[a + 1] == Do(run[a], steps[a]);
    assert Available(run[j], doc);
    DocumentsAreCoherent(run, steps, j, doc);
  }

  /** The same for groups: a non-closed breaker is shown with its details, a closed one is not shown. */
  lemma CallShowsBreaker(run: seq<State>, steps: seq<Step>, c: nat, a: nat, b: nat, i: nat, j: nat, r: nat,
                         doc: Document)
    requires IsRun(run, steps) && BumpedBy(steps, c, a, b) && b < i && Returns(run, steps, i, j, r, doc)
    requires steps[a].Transition? && steps[a].c == c && steps[a].g !in run[j].w.deleted
    requires History(run[j].w.breakers, steps[a].g) == History(run[a + 1].w.breakers, steps[a].g)
    ensures (if steps[a].g in doc.groups then doc.groups[steps[a].g] else Closed) == steps[a].value
  {
    CallShowsChange(run, steps, c, a, b, i, j, r, doc);
    assert run[a + 1] == Do(run[a], steps[a]);
    assert Available(run[j], doc);
    DocumentsAreCoherent(run, steps, j, doc);
    assert GroupTrue(doc, run[j].w.breakers, steps[a].g);
  }

  // ----------------------------------------------------------------------------- the cache

  lemma CacheStays(s: State, step: Step, n: State)
    requires Enabled(s, step) && n == Do(s, step) && !step.Put? && !step.Evict?
    ensures n.cached == s.cached
  {
  }

  lemma {:induction false} CacheStaysUntil(run: seq<State>, steps: seq<Step>, i: nat, j: nat)
    requires IsRun(run, steps) && i <= j < |run| && forall q :: i <= q < j ==> !steps[q].Put? && !steps[q].Evict?
    ensures run[j].cached == run[i].cached
    decreases j - i
  {
    if i < j {
      CacheStays(run[i], steps[i], run[i + 1]);
      CacheStaysUntil(run, steps, i + 1, j);
    }
  }

  /**
   * A rendered document is returned and cached: until it is replaced or evicted, a call that
   * read its version can be answered with it, and no other call can.
   */
  lemma RenderedIsServed(run: seq<State>, steps: seq<Step>, i: nat, j: nat, r: nat, q: nat)
    requires IsRun(run, steps) && i < j < |run| && steps[i] == Put(r)
    requires forall k :: i < k < j ==> !steps[k].Put? && !steps[k].Evict?
    requires q in run[j].renderings && run[j].renderings[q].Versioned?
    ensures r in run[i + 1].renderings && run[i + 1].renderings[r].Returned?
    ensures var doc := run[i + 1].renderings[r].doc;
            && (Enabled(run[j], ServeCached(q)) <==> run[j].renderings[q].version == doc.version)
            && (Enabled(run[j], ServeCached(q)) ==>
                  Do(run[j], ServeCached(q)).renderings == run[j].renderings[q := Returned(doc)])
  {
    assert run[i + 1] == Do(run[i], steps[i]);
    CacheStaysUntil(run, steps, i + 1, j);
  }

  // ------------------------------------------------------------------- the groups it shows

  /** The groups of the document are not closed, and were in PostgreSQL when step q read the names. */
  ghost predicate GroupsFrom(run: seq<State>, steps: seq<Step>, doc: Document, q: nat) {
    && q < |steps| < |run| && steps[q].ReadNames?
    && forall g :: g in doc.groups ==> doc.groups[g] != Closed && g in run[q].w.known
  }

  ghost predicate HasSource(run: seq<State>, steps: seq<Step>, doc: Document) {
    exists q: nat :: GroupsFrom(run, steps, doc, q)
  }

  /** Documents that are done come from a read of the names; the others have no groups, or those of the names. */
  ghost predicate Sourced(run: seq<State>, steps: seq<Step>, x: Rendering) {
    match x
    case Versioned(_) => true
    case ReadingMembers(doc, _, _) => doc.groups == map[]
    case ReadingHashes(doc, names, _) =>
      exists q: nat :: GroupsFrom(run, steps, doc, q) && names == run[q].w.known
    case Returned(doc) => HasSource(run, steps, doc)
  }

  ghost predicate AllSourced(run: seq<State>, steps: seq<Step>, s: State) {
    && (forall r :: r in s.renderings ==> Sourced(run, steps, s.renderings[r]))
    && (s.cached.Some? ==> HasSource(run, steps, s.cached.value.content))
  }

  lemma HashSourced(run: seq<State>, steps: seq<Step>, i: nat, r: nat, g: Group, n: Rendering)
    requires IsRun(run, steps) && i < |steps| && steps[i] == ReadHash(r, g)
    requires r in run[i].renderings && Sourced(run, steps, run[i].renderings[r])
    requires r in run[i + 1].renderings && n == run[i + 1].renderings[r]
    ensures Sourced(run, steps, n)
  {
    var x := run[i].renderings[r];
    assert run[i + 1] == Do(run[i], steps[i]);
    var q: nat :| GroupsFrom(run, steps, x.doc, q) && x.names == run[q].w.known;
    assert GroupsFrom(run, steps, n.doc, q);
  }

  lemma HashesHaveSource(run: seq<State>, steps: seq<Step>, x: Rendering)
    requires Sourced(run, steps, x) && x.ReadingHashes?
    ensures HasSource(run, steps, x.doc)
  {
    var q: nat :| GroupsFrom(run, steps, x.doc, q) && x.names == run[q].w.known;
  }

  lemma SourcedStep(run: seq<State>, steps: seq<Step>, i: nat)
    requires IsRun(run, steps) && i < |steps| && AllSourced(run, steps, run[i])
    ensures AllSourced(run, steps, run[i + 1])
  {
    var s, step, n := run[i], steps[i], run[i + 1];
    assert n == Do(s, step);
    if step.Put? {
      HashesHaveSource(run, steps, s.renderings[step.r]);
    }
    forall r | r in n.renderings
      ensures Sourced(run, steps, n.renderings[r])
    {
      if r in s.renderings {
        assert Sourced(run, steps, s.renderings[r]);
      }
      if step == ReadNames(r) {
        assert GroupsFrom(run, steps, n.renderings[r].doc, i);
      } else if step.ReadHash? && step.r == r {
        HashSourced(run, steps, i, r, step.g, n.renderings[r]);
      }
    }
  }

  lemma {:induction false} SourcedUntil(run: seq<State>, steps: seq<Step>, i: nat)
    requires IsRun(run, steps) && i < |run|
    ensures AllSourced(run, steps, run[i])
  {
    if i > 0 {
      SourcedUntil(run, steps, i - 1);
      SourcedStep(run, steps, i - 1);
    }
  }

  /** Whatever document is returned or cached shows only groups that are not closed and that were in PostgreSQL. */
  lemma ShownGroupsWereKnown(run: seq<State>, steps: seq<Step>, i: nat, doc: Document) returns (q: nat)
    requires IsRun(run, steps) && i < |run| && Available(run[i], doc)
    ensures q < |steps| && steps[q].ReadNames?
    ensures forall g :: g in doc.groups ==> doc.groups[g] != Closed && g in run[q].w.known
  {
    SourcedUntil(run, steps, i);
    if s :| s in run[i].renderings && run[i].renderings[s] == Returned(doc) {
      assert Sourced(run, steps, run[i].renderings[s]);
    }
    q :| GroupsFrom(run, steps, doc, q);
  }
}
