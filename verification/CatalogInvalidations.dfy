/**
 * Invalidations from their arrival to the snapshot: the invalidation loop of an instance
 * and the catalog it reloads (internal/catalog/run.go, internal/catalog/store.go) in one run.
 */
module CatalogInvalidations {
  import F = Flights
  import opened Catalog
  import C = CatalogRuns
  import L = RunLoops

  /**
   * A run of the loop and a run of the catalog with any number of instances, side by side:
   * turn i of the loop of instance k happens when at[i] steps of the catalog are done. A
   * reload that fireDue starts is a request to the instance at that moment.
   */
  datatype Joint = Joint(
    fp: Fingerprint, cfg: L.Timing, k: nat, run: seq<C.State>, steps: seq<C.Step>,
    loop: seq<L.State>, turns: seq<L.Step>, at: seq<nat>)

  ghost predicate IsJoint(x: Joint) {
    && C.IsRun(x.fp, x.run, x.steps) && L.IsRun(x.cfg, x.loop, x.turns)
    && x.k < |x.run[0].instances| && |x.at| == |x.turns|
    && (forall i :: 0 <= i < |x.at| ==> x.at[i] <= |x.steps|)
    && (forall i, j :: 0 <= i < j < |x.at| ==> x.at[i] <= x.at[j])
    && (forall i :: 0 <= i < |x.at| && x.turns[i].FireOne? ==>
          x.at[i] < |x.steps| && x.steps[x.at[i]] == C.Local(x.k, Request(x.turns[i].ns)))
  }

  /** A reload of the namespace requested at step c has finished without error in state j. */
  ghost predicate Reloaded(x: Joint, ns: NamespaceId, c: nat, j: nat)
    requires IsJoint(x)
  {
    && c < j < |x.run| && x.steps[c] == C.Local(x.k, Request(ns))
    && x.k < |x.run[c].instances| && x.k < |x.run[j].instances| && CanRequest(x.run[c].instances[x.k], ns)
    && var f := RequestFlight(x.run[c].g, x.run[c].instances[x.k], ns).1;
       && f < |x.run[j].instances[x.k].flights.flights|
       && x.run[j].instances[x.k].flights.flights[f].status == F.Done(true)
  }

  /** The snapshot in state j is of a version at least as new as everything committed before state i. */
  ghost predicate ShowsSince(x: Joint, ns: NamespaceId, i: nat, j: nat)
    requires i < |x.run| && j < |x.run|
  {
    && x.k < |x.run[j].instances| && Version(x.run[i].g, ns) <= Shows(x.run[j].instances[x.k], ns)
    && C.Reflects(x.fp, x.run[j].g, x.run[j].instances[x.k].index, ns, Shows(x.run[j].instances[x.k], ns))
  }

  /** A reload requested at or after a state shows what was committed before it. */
  lemma ReloadShows(x: Joint, ns: NamespaceId, i: nat, c: nat, j: nat)
    requires IsJoint(x) && i <= c && Reloaded(x, ns, c, j)
    ensures ShowsSince(x, ns, i, j)
  {
    C.SharedGrows(x.fp, x.run, x.steps, i, c, ns);
    C.ReloadSeesCommitted(x.fp, x.run, x.steps, c, j, x.k, ns,
                          RequestFlight(x.run[c].g, x.run[c].instances[x.k], ns).1);
  }

  /** The loop still has the invalidation. */
  ghost predicate Kept(s: L.State, ns: NamespaceId) {
    || L.InHand(s.hands, ns)
    || ns in s.loop.queue
    || (ns in s.loop.due && (s.point.Firing? || L.TimerSet(s.loop.due, s.loop.timer, s.clock)))
    || L.FlagHeld(s.loop.overflow, s.point)
  }

  /** Turn f starts a reload of the namespace, and reloads requested from then on show what came before state i. */
  ghost predicate Serves(x: Joint, ns: NamespaceId, f: nat, i: nat)
    requires IsJoint(x) && f < |x.turns| && i < |x.run|
  {
    && L.Covers(x.loop[f], x.turns[f], ns)
    && forall c, j :: x.at[f] <= c && Reloaded(x, ns, c, j) ==> ShowsSince(x, ns, i, j)
  }

  /**
   * An invalidation that arrives at turn i is still with the loop at turn n, or a reload
   * that covers it has started since: every reload of the namespace requested from then on
   * that succeeds shows everything committed before the invalidation arrived. A debounced
   * reload is such a request itself.
   */
  lemma InvalidationIsServed(x: Joint, i: nat, n: nat) returns (f: nat)
    requires IsJoint(x) && i < n < |x.loop| && x.turns[i].Arrive?
    ensures || Kept(x.loop[n], x.turns[i].ns)
            || (i < f < n && Serves(x, x.turns[i].ns, f, x.at[i]))
    ensures i < f < n && x.turns[f].FireOne? ==>
              x.at[f] < |x.steps| && x.steps[x.at[f]] == C.Local(x.k, Request(x.turns[i].ns))
  {
    var ns := x.turns[i].ns;
    f := 0;
    if q: nat :| i < q < n && L.Covers(x.loop[q], x.turns[q], ns) {
      f := q;
      forall c, j | x.at[f] <= c && Reloaded(x, ns, c, j)
        ensures ShowsSince(x, ns, x.at[i], j)
      {
        ReloadShows(x, ns, x.at[i], c, j);
      }
    } else {
      L.InvalidationNeverLost(x.cfg, x.loop, x.turns, i, n);
    }
  }

  /**
   * A full reload asks for every namespace it listed and every one the instance shows. It
   * is right to leave out the others: a namespace that existed when the invalidation
   * arrived and is missing from the listing is deleted by then, for good.
   */
  lemma LeftOutIsGone(x: Joint, i: nat, f: nat, p: nat, t: nat, ns: NamespaceId)
    requires IsJoint(x) && i < f < |x.turns| && x.turns[i].Arrive? && x.turns[i].ns == ns
    requires L.Covers(x.loop[f], x.turns[f], ns) && x.at[f] <= p < |x.steps|
    requires x.steps[p] == C.Local(x.k, FullList(t))
    requires x.k < |x.run[p + 1].instances| && t in x.run[p + 1].instances[x.k].fulls
    requires x.run[p + 1].instances[x.k].fulls[t].FullListed?
    requires ns !in x.run[p + 1].instances[x.k].fulls[t].present
    ensures Version(x.run[x.at[i]].g, ns) > 0 ==> Dead(x.run[p].g, ns)
    ensures forall q :: p <= q < |x.run| && Dead(x.run[p].g, ns) ==> Dead(x.run[q].g, ns)
  {
    C.SharedGrows(x.fp, x.run, x.steps, x.at[i], p, ns);
    assert x.run[p + 1] == C.Take(x.fp, x.run[p], x.steps[p]);
    forall q | p <= q < |x.run| && Dead(x.run[p].g, ns)
      ensures Dead(x.run[q].g, ns)
    {
      C.SharedGrows(x.fp, x.run, x.steps, p, q, ns);
    }
  }
}
