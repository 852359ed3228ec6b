/**
 * The retry set of the expiry job (internal/action/hotretry.go): subjects whose push
 * to the hot state failed after their release was committed, and the catch-up from
 * the event log that covers what the bounded set rejects.
 */
module HotRetries {
  import opened Common
  import opened StateChanges

  type Scope = nat
  type Id = nat

  /** Nanoseconds; zero is the zero time. */
  type Time = int

  datatype Entry = Entry(kind: Kind, scope: Scope, id: Id)

  const SECOND: int := 1_000_000_000
  const INTERVAL: int := 10 * SECOND
  const TIMEOUT: int := 60 * SECOND
  const WINDOW: int := 600 * SECOND

  /** The set as a value: its entries, and when one was first rejected (zero: never). */
  datatype Retry = Retry(limit: int, entries: set<Entry>, overflowAt: Time)

  function AddOne(r: Retry, e: Entry, now: Time): Retry {
    if e in r.entries then r
    else if |r.entries| >= r.limit then r.(overflowAt := if r.overflowAt == 0 then now else r.overflowAt)
    else r.(entries := r.entries + {e})
  }

  function Added(r: Retry, kind: Kind, scope: Scope, ids: seq<Id>, now: Time): Retry {
    if ids == [] then r
    else AddOne(Added(r, kind, scope, ids[..|ids| - 1], now), Entry(kind, scope, ids[|ids| - 1]), now)
  }

  lemma AddedOne(r: Retry, kind: Kind, scope: Scope, ids: seq<Id>, now: Time, i: nat)
    requires i < |ids|
    ensures Added(r, kind, scope, ids[..i + 1], now)
            == AddOne(Added(r, kind, scope, ids[..i], now), Entry(kind, scope, ids[i]), now)
  {
    assert ids[..i + 1][..i] == ids[..i];
  }

  function Removed(r: Retry, kind: Kind, scope: Scope, ids: seq<Id>): Retry {
    r.(entries := set e | e in r.entries && !(e.kind == kind && e.scope == scope && e.id in ids))
  }

  lemma RemoveOne(r: Retry, kind: Kind, scope: Scope, ids: seq<Id>, i: nat)
    requires i < |ids|
    ensures Removed(r, kind, scope, ids[..i + 1]).entries
            == Removed(r, kind, scope, ids[..i]).entries - {Entry(kind, scope, ids[i])}
  {
    assert ids[..i + 1] == ids[..i] + [ids[i]];
  }

  /** A pass that starts at now re-synchronizes the releases since this time, if any. */
  datatype CatchUp = Nothing | Since(at: Time)

  function BaseSince(prev: Time, now: Time): Time {
    if prev == 0 then now - WINDOW
    else if now - prev > 3 * INTERVAL then prev - TIMEOUT
    else 0
  }

  function CatchUpFrom(prev: Time, now: Time, overflowAt: Time): CatchUp {
    var base := BaseSince(prev, now);
    var since := if overflowAt != 0 && (base == 0 || overflowAt < base) then overflowAt - TIMEOUT else base;
    if since == 0 then Nothing
    else if since < now - WINDOW then Since(now - WINDOW)
    else Since(since)
  }

  // ------------------------------------------------------------------- the object

  /** Whether one of the maps holds the subject. */
  predicate Holds(m: map<Scope, set<Id>>, scope: Scope, id: Id) {
    scope in m && id in m[scope]
  }

  class HotRetry {
    const limit: int
    var size: int
    var identities: map<Scope, set<Id>>
    var accounts: map<Scope, set<Id>>
    var proxies: map<Scope, set<Id>>
    var overflowAt: Time
    ghost var entries: set<Entry>

    /** The entries are those of the three maps; size is their number and stays within the limit. */
    ghost predicate Valid()
      reads this
    {
      && (forall kind: Kind, scope, id ::
            Entry(kind, scope, id) in entries <==> Holds(ByKind(kind), scope, id))
      && size == |entries| && (limit >= 0 ==> size <= limit)
    }

    ghost function Value(): Retry
      reads this
    {
      Retry(limit, entries, overflowAt)
    }

    constructor (limit: int)
      ensures Valid() && Value() == Retry(limit, {}, 0)
    {
      this.limit := limit;
      size, overflowAt, entries := 0, 0, {};
      identities, accounts, proxies := map[], map[], map[];
    }

    function ByKind(kind: Kind): map<Scope, set<Id>>
      reads this
    {
      match kind
      case Account => accounts
      case Proxy => proxies
      case Identity => identities
    }

    method Store(kind: Kind, m: map<Scope, set<Id>>)
      modifies this`identities, this`accounts, this`proxies
      ensures ByKind(kind) == m
      ensures forall k: Kind :: k != kind ==> ByKind(k) == old(ByKind(k))
    {
      match kind
      case Account => accounts := m;
      case Proxy => proxies := m;
      case Identity => identities := m;
    }

    method AddId(kind: Kind, scope: Scope, id: Id, now: Time)
      requires Valid() && scope in ByKind(kind)
      modifies this
      ensures Valid() && scope in ByKind(kind)
      ensures Value() == AddOne(old(Value()), Entry(kind, scope, id), now)
    {
      var m := ByKind(kind);
      assert Holds(m, scope, id) <==> Entry(kind, scope, id) in entries;
      if id in m[scope] {
        return;
      }
      if size >= limit {
        overflowAt := if overflowAt == 0 then now else overflowAt;
        return;
      }
      Insert(kind, scope, id);
    }

    /** Records a subject that is not held yet. */
    method Insert(kind: Kind, scope: Scope, id: Id)
      requires Valid() && scope in ByKind(kind) && id !in ByKind(kind)[scope] && size < limit
      modifies this
      ensures Valid() && scope in ByKind(kind) && id in ByKind(kind)[scope]
      ensures Value() == old(Value()).(entries := old(entries) + {Entry(kind, scope, id)})
      ensures Entry(kind, scope, id) !in old(entries)
    {
      var m := ByKind(kind);
      assert Entry(kind, scope, id) !in entries;
      Store(kind, m[scope := m[scope] + {id}]);
      entries := entries + {Entry(kind, scope, id)};
      size := size + 1;
    }

    /** Records subjects in the order given; what the full set rejects is only noted by its time. */
    method Add(kind: Kind, scope: Scope, ids: seq<Id>, now: Time)
      requires Valid()
      modifies this
      ensures Valid() && Value() == Added(old(Value()), kind, scope, ids, now)
    {
      if |ids| == 0 {
        return;
      }
      ghost var before := Value();
      if scope !in ByKind(kind) {
        var m := ByKind(kind);
        Store(kind, m[scope := {}]);
      }
      for i := 0 to |ids|
        invariant Valid() && scope in ByKind(kind)
        invariant Value() == Added(before, kind, scope, ids[..i], now)
      {
        AddedOne(before, kind, scope, ids, now, i);
        AddId(kind, scope, ids[i], now);
      }
      assert ids[..|ids|] == ids;
    }

    method RemoveId(kind: Kind, scope: Scope, id: Id)
      requires Valid()
      modifies this
      ensures Valid() && Value() == old(Value()).(entries := old(entries) - {Entry(kind, scope, id)})
    {
      var m := ByKind(kind);
      assert Holds(m, scope, id) <==> Entry(kind, scope, id) in entries;
      if scope in m && id in m[scope] {
        Store(kind, m[scope := m[scope] - {id}]);
        entries := entries - {Entry(kind, scope, id)};
        size := size - 1;
      }
    }

    /** Forgets subjects, and the scope when nothing is left of it. */
    method Remove(kind: Kind, scope: Scope, ids: seq<Id>)
      requires Valid()
      modifies this
      ensures Valid() && Value() == Removed(old(Value()), kind, scope, ids)
      ensures scope in ByKind(kind) ==> ByKind(kind)[scope] != {}
    {
      RemoveIds(kind, scope, ids);
      Tidy(kind, scope);
    }

    method RemoveIds(kind: Kind, scope: Scope, ids: seq<Id>)
      requires Valid()
      modifies this
      ensures Valid() && Value() == Removed(old(Value()), kind, scope, ids)
    {
      ghost var before := Value();
      for i := 0 to |ids|
        invariant Valid() && Value() == Removed(before, kind, scope, ids[..i])
      {
        RemoveOne(before, kind, scope, ids, i);
        RemoveId(kind, scope, ids[i]);
      }
      assert ids[..|ids|] == ids;
    }

    method Tidy(kind: Kind, scope: Scope)
      requires Valid()
      modifies this`identities, this`accounts, this`proxies
      ensures Valid() && (scope in ByKind(kind) ==> ByKind(kind)[scope] != {})
    {
      var m := ByKind(kind);
      if scope in m && |m[scope]| == 0 {
        Store(kind, m - {scope});
      }
    }

    /** catchUpSince: takes the overflow time and decides what the pass re-synchronizes. */
    method CatchUpSince(prev: Time, now: Time) returns (c: CatchUp)
      modifies this`overflowAt
      ensures c == CatchUpFrom(prev, now, old(overflowAt)) && overflowAt == 0
    {
      var floor := now - WINDOW;
      var since := 0;
      if prev == 0 {
        since := floor;
      } else if now - prev > 3 * INTERVAL {
        since := prev - TIMEOUT;
      }
      var at := overflowAt;
      overflowAt := 0;
      if at != 0 && (since == 0 || at < since) {
        since := at - TIMEOUT;
      }
      if since == 0 {
        return Nothing;
      }
      if since < floor {
        since := floor;
      }
      c := Since(since);
    }
  }

  // ----------------------------------------------------------------- what adds do

  /** An added subject is in the set, or the overflow time is no later than its stamp. */
  lemma {:induction false} AddedCovers(r: Retry, kind: Kind, scope: Scope, ids: seq<Id>, now: Time)
    requires now != 0 && r.overflowAt <= now
    ensures var n := Added(r, kind, scope, ids, now);
            && n.limit == r.limit && r.entries <= n.entries
            && (r.limit >= 0 && |r.entries| <= r.limit ==> |n.entries| <= r.limit)
            && (r.overflowAt != 0 ==> n.overflowAt == r.overflowAt)
            && (n.overflowAt == r.overflowAt || n.overflowAt == now)
            && forall id :: id in ids ==>
                 Entry(kind, scope, id) in n.entries || (n.overflowAt != 0 && n.overflowAt <= now)
  {
    if ids != [] {
      var prefix := ids[..|ids| - 1];
      AddedCovers(r, kind, scope, prefix, now);
      assert forall id :: id in ids ==> id in prefix || id == ids[|ids| - 1];
    }
  }

  /** With room for all of them the subjects are added, and nothing else, and nothing is noted. */
  lemma {:induction false} RoomMeansAdded(r: Retry, kind: Kind, scope: Scope, ids: seq<Id>, now: Time)
    requires |r.entries| + |ids| <= r.limit
    ensures var n := Added(r, kind, scope, ids, now);
            && n.limit == r.limit && n.overflowAt == r.overflowAt && |n.entries| <= |r.entries| + |ids|
            && forall e :: e in n.entries <==> e in r.entries || (e.kind == kind && e.scope == scope && e.id in ids)
  {
    if ids != [] {
      var prefix := ids[..|ids| - 1];
      RoomMeansAdded(r, kind, scope, prefix, now);
      assert forall id :: id in ids <==> id in prefix || id == ids[|ids| - 1];
    }
  }

  // ------------------------------------------------------------------ passes of the job

  /** A release at this time whose push failed in the pass that committed it. */
  datatype Release = Release(entry: Entry, at: Time)

  /** now: the time of the current pass (zero before the first). owed: failed pushes nothing made up for yet. */
  datatype State = State(retry: Retry, prev: Time, now: Time, owed: set<Release>)

  datatype Step =
    | Begin(now: Time)
    | FailPush(kind: Kind, scope: Scope, ids: seq<Id>)
    | Resync(kind: Kind, scope: Scope, ids: seq<Id>)
    | ReAdd(kind: Kind, scope: Scope, ids: seq<Id>)

  /** No pass runs in the first twenty minutes after the zero time. */
  const EPOCH: Time := 1200 * SECOND

  predicate Enabled(s: State, step: Step) {
    match step
    case Begin(now) => s.now <= now && EPOCH <= now
    case _ => s.now != 0
  }

  function CatchUpOf(s: State, now: Time): CatchUp {
    CatchUpFrom(s.prev, now, s.retry.overflowAt)
  }

  predicate Covered(c: CatchUp, at: Time) {
    c.Since? && c.at <= at
  }

  function Failed(s: State, kind: Kind, scope: Scope, ids: seq<Id>): set<Release> {
    set id | id in ids :: Release(Entry(kind, scope, id), s.now)
  }

  predicate Among(e: Entry, kind: Kind, scope: Scope, ids: seq<Id>) {
    e.kind == kind && e.scope == scope && e.id in ids
  }

  /** The catch-up of a new pass takes over what is not in the set; a resync settles its subjects. */
  function Do(s: State, step: Step): State
    requires Enabled(s, step)
  {
    match step
    case Begin(now) =>
      State(s.retry.(overflowAt := 0), now, now, set o | o in s.owed && o.entry in s.retry.entries)
    case FailPush(kind, scope, ids) =>
      s.(retry := Added(s.retry, kind, scope, ids, s.now), owed := s.owed + Failed(s, kind, scope, ids))
    case Resync(kind, scope, ids) =>
      s.(retry := Removed(s.retry, kind, scope, ids), owed := set o | o in s.owed && !Among(o.entry, kind, scope, ids))
    case ReAdd(kind, scope, ids) => s.(retry := Added(s.retry, kind, scope, ids, s.now))
  }

  predicate OwedOk(r: Retry, now: Time, o: Release) {
    && EPOCH <= o.at <= now
    && (o.entry in r.entries || (r.overflowAt != 0 && r.overflowAt <= o.at))
  }

  ghost predicate Inv(s: State) {
    && s.prev == s.now && (s.now == 0 || EPOCH <= s.now)
    && (s.retry.overflowAt == 0 || s.retry.overflowAt == s.now)
    && (s.retry.limit >= 0 ==> |s.retry.entries| <= s.retry.limit)
    && forall o :: o in s.owed ==> OwedOk(s.retry, s.now, o)
  }

  lemma StepKeeps(s: State, step: Step)
    requires Inv(s) && Enabled(s, step)
    ensures Inv(Do(s, step))
  {
    match step
    case Begin(_) =>
    case FailPush(kind, scope, ids) => AddedCovers(s.retry, kind, scope, ids, s.now);
    case ReAdd(kind, scope, ids) => AddedCovers(s.retry, kind, scope, ids, s.now);
    case Resync(kind, scope, ids) =>
      var n := Removed(s.retry, kind, scope, ids);
      assert n.entries <= s.retry.entries;
      SubsetSize(n.entries, s.retry.entries);
  }

  /** Exactly the releases a pass re-synchronizes, by what was known before it. */
  lemma CatchUpCovers(prev: Time, now: Time, overflowAt: Time, at: Time)
    requires EPOCH <= now && prev <= now && (prev == 0 || EPOCH <= prev) && (overflowAt == 0 || EPOCH <= overflowAt)
    ensures Covered(CatchUpFrom(prev, now, overflowAt), at) <==>
            && now - WINDOW <= at
            && (|| prev == 0
                || (now - prev > 3 * INTERVAL && prev - TIMEOUT <= at)
                || (overflowAt != 0 && overflowAt - TIMEOUT <= at
                    && (now - prev <= 3 * INTERVAL || overflowAt < prev - TIMEOUT)))
  {
  }

  ghost predicate IsRun(run: seq<State>, steps: seq<Step>) {
    && |run| == |steps| + 1
    && run[0] == State(Retry(run[0].retry.limit, {}, 0), 0, 0, {})
    && forall i :: 0 <= i < |steps| ==> Enabled(run[i], steps[i]) && run[i + 1] == Do(run[i], steps[i])
  }

  lemma {:induction false} RunKeeps(run: seq<State>, steps: seq<Step>, i: nat)
    requires IsRun(run, steps) && i < |run|
    ensures Inv(run[i])
  {
    if i > 0 {
      RunKeeps(run, steps, i - 1);
      StepKeeps(run[i - 1], steps[i - 1]);
    }
  }

  lemma {:induction false} StaysOwed(run: seq<State>, steps: seq<Step>, i: nat, j: nat, id: Id)
    requires IsRun(run, steps) && i < j < |run| && steps[i].FailPush? && id in steps[i].ids
    requires forall k :: i < k < j ==> !steps[k].Begin?
    requires forall k :: i < k < j && steps[k].Resync? ==>
               !Among(Entry(steps[i].kind, steps[i].scope, id), steps[k].kind, steps[k].scope, steps[k].ids)
    ensures Release(Entry(steps[i].kind, steps[i].scope, id), run[i].now) in run[j].owed
  {
    assert run[j] == Do(run[j - 1], steps[j - 1]);
    if j > i + 1 {
      StaysOwed(run, steps, i, j - 1, id);
    }
  }

  /**
   * A release whose push failed in pass i is, when the next pass begins at step j, in the
   * retry set, or the catch-up of that pass reaches back to it if it begins within ten
   * minutes, unless a resync of the subject succeeded meanwhile.
   */
  lemma FailedPushIsCovered(run: seq<State>, steps: seq<Step>, i: nat, j: nat, id: Id)
    requires IsRun(run, steps) && i < j < |steps| && steps[i].FailPush? && id in steps[i].ids
    requires steps[j].Begin? && forall k :: i < k < j ==> !steps[k].Begin?
    requires forall k :: i < k < j && steps[k].Resync? ==>
               !Among(Entry(steps[i].kind, steps[i].scope, id), steps[k].kind, steps[k].scope, steps[k].ids)
    ensures || Entry(steps[i].kind, steps[i].scope, id) in run[j].retry.entries
            || Covered(CatchUpOf(run[j], steps[j].now), run[i].now)
            || steps[j].now - run[i].now > WINDOW
  {
    StaysOwed(run, steps, i, j, id);
    RunKeeps(run, steps, j);
    var o := Release(Entry(steps[i].kind, steps[i].scope, id), run[i].now);
    assert OwedOk(run[j].retry, run[j].now, o);
    CatchUpCovers(run[j].prev, steps[j].now, run[j].retry.overflowAt, o.at);
  }

  // ----------------------------------------------------------- re-adds of a catch-up

  lemma NotedStays(s: State, step: Step, n: State, e: Entry)
    requires Inv(s) && Enabled(s, step) && n == Do(s, step) && !step.Begin?
    requires step.Resync? ==> !Among(e, step.kind, step.scope, step.ids)
    requires || e in s.retry.entries || s.retry.overflowAt != 0
             || (step.ReAdd? && Among(e, step.kind, step.scope, step.ids))
    ensures n.now == s.now && (e in n.retry.entries || n.retry.overflowAt != 0)
  {
    if !step.Resync? {
      AddedCovers(s.retry, step.kind, step.scope, step.ids, s.now);
    }
  }

  /** Within a pass a recorded subject is in the set, or the set has overflowed. */
  lemma {:induction false} KeptOrNoted(run: seq<State>, steps: seq<Step>, i: nat, j: nat, e: Entry)
    requires IsRun(run, steps) && i < j < |run| && steps[i].ReAdd?
    requires Among(e, steps[i].kind, steps[i].scope, steps[i].ids)
    requires forall k :: i < k < j ==> !steps[k].Begin?
    requires forall k :: i < k < j && steps[k].Resync? ==> !Among(e, steps[k].kind, steps[k].scope, steps[k].ids)
    ensures run[j].now == run[i].now && (e in run[j].retry.entries || run[j].retry.overflowAt != 0)
  {
    if j > i + 1 {
      KeptOrNoted(run, steps, i, j - 1, e);
    }
    RunKeeps(run, steps, j - 1);
    NotedStays(run[j - 1], steps[j - 1], run[j], e);
  }

  /**
   * The re-adds of catchUpExpiry stamp a release of an earlier time with the time of the
   * current pass. When the set rejects one, the next pass reaches the release if and only
   * if it is at most ten minutes old by then and at most a minute older than the pass
   * that re-added it.
   */
  lemma ReAddIsReachedIff(run: seq<State>, steps: seq<Step>, i: nat, j: nat, e: Entry, at: Time)
    requires IsRun(run, steps) && i < j < |steps| && steps[i].ReAdd?
    requires Among(e, steps[i].kind, steps[i].scope, steps[i].ids)
    requires steps[j].Begin? && forall k :: i < k < j ==> !steps[k].Begin?
    requires forall k :: i < k < j && steps[k].Resync? ==> !Among(e, steps[k].kind, steps[k].scope, steps[k].ids)
    requires e !in run[j].retry.entries
    ensures Covered(CatchUpOf(run[j], steps[j].now), at) <==>
            steps[j].now - WINDOW <= at && run[i].now - TIMEOUT <= at
  {
    KeptOrNoted(run, steps, i, j, e);
    RunKeeps(run, steps, j);
    CatchUpCovers(run[j].prev, steps[j].now, run[j].retry.overflowAt, at);
  }

  /** The rows one batch of a pass releases at most. */
  const EXPIRY_BATCH: nat := 1000

  function Range(from: nat, to: nat): (ids: seq<Id>)
    requires from <= to
    ensures |ids| == to - from && forall i :: 0 <= i < |ids| ==> ids[i] == from + i
  {
    seq(to - from, i requires 0 <= i => from + i)
  }

  /** The set holds n accounts and has rejected nothing. */
  ghost predicate Filled(r: Retry, limit: nat, n: nat) {
    && r.limit == limit && r.overflowAt == 0 && |r.entries| == n
    && forall e :: e in r.entries ==> e.kind == Account && e.id < n
  }

  lemma FillOne(r: Retry, limit: nat, n: nat, now: Time)
    requires Filled(r, limit, n) && n < limit
    ensures Filled(AddOne(r, Entry(Account, 0, n), now), limit, n + 1)
  {
  }

  lemma {:induction false} FillsUp(r: Retry, limit: nat, n: nat, ids: seq<Id>, now: Time)
    requires Filled(r, limit, n) && n + |ids| <= limit && forall i :: 0 <= i < |ids| ==> ids[i] == n + i
    ensures Filled(Added(r, Account, 0, ids, now), limit, n + |ids|)
  {
    if ids != [] {
      var before, last := ids[..|ids| - 1], ids[|ids| - 1];
      FillsUp(r, limit, n, before, now);
      FillOne(Added(r, Account, 0, before, now), limit, last, now);
    }
  }

  lemma AddToFull(r: Retry, limit: nat, id: Id, now: Time)
    requires Filled(r, limit, limit)
    ensures Added(r, Identity, 0, [id], now) == r.(overflowAt := now)
  {
    var none: seq<Id> := [];
    assert [id][..0] == none;
  }

  function Last(run: seq<State>): State
    requires run != []
  {
    run[|run| - 1]
  }

  lemma OneMore(run: seq<State>, steps: seq<Step>, step: Step)
    requires IsRun(run, steps) && Enabled(Last(run), step)
    ensures IsRun(run + [Do(Last(run), step)], steps + [step])
  {
    var r, t := run + [Do(Last(run), step)], steps + [step];
    forall i | 0 <= i < |t|
      ensures Enabled(r[i], t[i]) && r[i + 1] == Do(r[i], t[i])
    {
      if i < |steps| {
        assert r[i] == run[i] && r[i + 1] == run[i + 1] && t[i] == steps[i];
      }
    }
  }

  /** Every failed push follows the begin of its pass and is of one batch at most. */
  ghost predicate OneBatchPerPass(steps: seq<Step>) {
    forall i :: 0 <= i < |steps| && steps[i].FailPush? ==>
      0 < i && steps[i - 1].Begin? && |steps[i].ids| <= EXPIRY_BATCH
  }

  /** One more pass: it begins, and one push of it fails or is re-added. */
  lemma Pass(run: seq<State>, steps: seq<Step>, now: Time, step: Step) returns (r: seq<State>, t: seq<Step>)
    requires IsRun(run, steps) && OneBatchPerPass(steps) && EPOCH <= now && Last(run).now <= now
    requires step.FailPush? || step.ReAdd?
    requires step.FailPush? ==> |step.ids| <= EXPIRY_BATCH
    ensures IsRun(r, t) && OneBatchPerPass(t) && t == steps + [Begin(now), step] && run <= r
    ensures r[|run|].now == now && r[|run|].retry == Last(run).retry.(overflowAt := 0)
    ensures Last(r).prev == Last(r).now == now
    ensures Last(r).retry == Added(r[|run|].retry, step.kind, step.scope, step.ids, now)
  {
    var a := Do(Last(run), Begin(now));
    OneMore(run, steps, Begin(now));
    OneMore(run + [a], steps + [Begin(now)], step);
    r, t := run + [a] + [Do(a, step)], steps + [Begin(now)] + [step];
    assert t == steps + [Begin(now), step];
  }

  /** A pass in which the pushes of the accounts from..n fail. */
  lemma FillPass(limit: nat, from: nat, n: nat, r: seq<State>, s: seq<Step>, now: Time)
    returns (run: seq<State>, steps: seq<Step>)
    requires IsRun(r, s) && OneBatchPerPass(s) && Filled(Last(r).retry, limit, from)
    requires from <= n <= limit && n - from <= EXPIRY_BATCH && EPOCH <= now && Last(r).now <= now
    ensures IsRun(run, steps) && OneBatchPerPass(steps) && run[0] == r[0]
    ensures Filled(Last(run).retry, limit, n) && Last(run).now == now
  {
    FillsUp(Last(r).retry, limit, from, Range(from, n), now);
    run, steps := Pass(r, s, now, FailPush(Account, 0, Range(from, n)));
    assert Last(r).retry.(overflowAt := 0) == Last(r).retry;
  }

  /** Passes at least ten seconds apart in which the pushes of n accounts fail, a batch in each pass. */
  lemma {:induction false} FillRun(limit: nat, n: nat) returns (run: seq<State>, steps: seq<Step>)
    requires n <= limit
    ensures IsRun(run, steps) && OneBatchPerPass(steps) && run[0].retry.limit == limit
    ensures Filled(Last(run).retry, limit, n) && Last(run).now <= EPOCH + n * INTERVAL
  {
    if n == 0 {
      run, steps := [State(Retry(limit, {}, 0), 0, 0, {})], [];
    } else {
      var from := if n < EXPIRY_BATCH then 0 else n - EXPIRY_BATCH;
      var r, s := FillRun(limit, from);
      run, steps := FillPass(limit, from, n, r, s, EPOCH + from * INTERVAL);
    }
  }

  /**
   * With any limit: passes fill the set, the release of the next pass is rejected and then
   * rejected again by the catch-up of the pass after it, and the pass after that, still
   * within ten minutes, does not reach back to the release.
   */
  lemma ReAddIsMissed(limit: nat) returns (run: seq<State>, steps: seq<Step>, f: nat)
    ensures IsRun(run, steps) && OneBatchPerPass(steps) && run[0].retry.limit == limit && |steps| == f + 4
    ensures steps[f] == FailPush(Identity, 0, [7]) && steps[f + 1].Begin? && steps[f + 2] == ReAdd(Identity, 0, [7])
    ensures steps[f + 3].Begin? && steps[f + 3].now - run[f].now <= WINDOW
    ensures Covered(CatchUpOf(run[f + 1], steps[f + 1].now), run[f].now)
    ensures Entry(Identity, 0, 7) !in run[f + 3].retry.entries
    ensures !Covered(CatchUpOf(run[f + 3], steps[f + 3].now), run[f].now)
  {
    var r1, s1 := FillRun(limit, limit);
    var full, now := Last(r1).retry, EPOCH + limit * INTERVAL;
    f := |s1| + 1;
    AddToFull(full, limit, 7, now);
    AddToFull(full, limit, 7, now + 300 * SECOND);
    assert full.(overflowAt := 0) == full;
    var r2, s2 := Pass(r1, s1, now, FailPush(Identity, 0, [7]));
    assert Last(r2).retry == full.(overflowAt := now);
    var r3, s3 := Pass(r2, s2, now + 300 * SECOND, ReAdd(Identity, 0, [7]));
    assert Last(r3).retry == full.(overflowAt := now + 300 * SECOND);
    var third := Begin(now + 310 * SECOND);
    OneMore(r3, s3, third);
    run, steps := r3 + [Do(Last(r3), third)], s3 + [third];
    assert run[f] == r2[f] && run[f + 1] == Last(r2) && run[f + 3] == Last(r3);
  }
}
