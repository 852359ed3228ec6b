/**
 * Prompt evaluations after a notification (internal/breaker/notify.go): merged
 * notifications pass through a bounded queue to a limiter that spaces the
 * evaluations of each group and defers the ones that come too early.
 */
module Notifications {

  /** A groupRef: site key and group key. */
  datatype Ref = Ref(site: int, group: int)

  /** Nanoseconds after Go's zero time, which a missing start time reads as. */
  type Time = int

  const MAX_DEFERRED: nat := 100_000

  datatype Limiter = Limiter(interval: int, last: map<Ref, Time>, deferred: map<Ref, Time>)

  function DueAt(l: Limiter, ref: Ref): Time {
    (if ref in l.last then l.last[ref] else 0) + l.interval
  }

  /** The notification starts its group now. */
  predicate Starts(l: Limiter, ref: Ref, now: Time, accept: bool) {
    ref !in l.deferred && now >= DueAt(l, ref) && accept
  }

  function Offered(l: Limiter, ref: Ref, now: Time, accept: bool): Limiter {
    if ref in l.deferred then l
    else if Starts(l, ref, now, accept) then l.(last := l.last[ref := now])
    else if |l.deferred| < MAX_DEFERRED then l.(deferred := l.deferred[ref := DueAt(l, ref)])
    else l
  }

  function Due(deferred: map<Ref, Time>, now: Time): set<Ref> {
    set ref | ref in deferred && deferred[ref] <= now
  }

  function Stamped(last: map<Ref, Time>, started: set<Ref>, now: Time): map<Ref, Time> {
    last + map ref | ref in started :: now
  }

  /** What start says when it is called after n starts of this tick. */
  predicate Answer(accepts: seq<bool>, n: nat) {
    n < |accepts| && accepts[n]
  }

  /** The second loop of tick: entries that limit nothing any more are forgotten. */
  function Pruned(l: Limiter, now: Time): Limiter {
    l.(last := map ref | ref in l.last && (now - l.last[ref] < l.interval || ref in l.deferred) :: l.last[ref])
  }

  function Ticked(l: Limiter, now: Time, started: set<Ref>): Limiter {
    Pruned(l.(last := Stamped(l.last, started, now), deferred := l.deferred - started), now)
  }

  /** The first loop of tick with the groups in keys still to be looked at. */
  ghost predicate Starting(before: Limiter, now: Time, keys: set<Ref>, started: set<Ref>, last: map<Ref, Time>,
                           deferred: map<Ref, Time>) {
    && (forall ref :: ref in keys ==> ref in before.deferred && ref !in started)
    && (forall ref :: ref in started ==> ref in before.deferred && before.deferred[ref] <= now)
    && (forall ref :: ref in before.deferred && before.deferred[ref] <= now ==> ref in keys || ref in started)
    && last == Stamped(before.last, started, now) && deferred == before.deferred - started
  }

  lemma StartNone(l: Limiter, now: Time)
    ensures Starting(l, now, l.deferred.Keys, {}, l.last, l.deferred)
  {
  }

  lemma StartOne(before: Limiter, now: Time, keys: set<Ref>, started: set<Ref>, last: map<Ref, Time>,
                 deferred: map<Ref, Time>, ref: Ref)
    requires Starting(before, now, keys, started, last, deferred) && ref in keys
    ensures ref in deferred && deferred[ref] == before.deferred[ref]
    ensures deferred[ref] <= now ==>
              Starting(before, now, keys - {ref}, started + {ref}, last[ref := now], deferred - {ref})
    ensures deferred[ref] > now ==> Starting(before, now, keys - {ref}, started, last, deferred)
    ensures deferred[ref] <= now ==> started != Due(before.deferred, now)
  {
    assert Stamped(before.last, started + {ref}, now) == Stamped(before.last, started, now)[ref := now];
    assert before.deferred - (started + {ref}) == (before.deferred - started) - {ref};
  }

  /** The limiter object. start answers each of its calls; accepts lists the answers of a tick. */
  class NotifyLimiter {
    const interval: int
    var last: map<Ref, Time>
    var deferred: map<Ref, Time>

    ghost function Value(): Limiter
      reads this
    {
      Limiter(interval, last, deferred)
    }

    constructor (interval: int)
      ensures Value() == Limiter(interval, map[], map[])
    {
      this.interval := interval;
      last, deferred := map[], map[];
    }

    method Offer(ref: Ref, now: Time, accept: bool) returns (started: bool)
      modifies this
      ensures started == Starts(old(Value()), ref, now, accept)
      ensures Value() == Offered(old(Value()), ref, now, accept)
    {
      started := false;
      if ref in deferred {
        return;
      }
      var at := if ref in last then last[ref] else 0;
      var due := at + interval;
      if !(now < due) && accept {
        last := last[ref := now];
        started := true;
        return;
      }
      if |deferred| < MAX_DEFERRED {
        deferred := deferred[ref := due];
      }
    }

    /** The first loop of tick: starts due groups, in any order, until one is refused. */
    method StartDue(now: Time, accepts: seq<bool>) returns (started: set<Ref>)
      modifies this`last, this`deferred
      ensures started <= Due(old(deferred), now)
      ensures last == Stamped(old(last), started, now) && deferred == old(deferred) - started
      ensures started != Due(old(deferred), now) ==> !Answer(accepts, |started|)
    {
      started := {};
      ghost var before := Value();
      var keys := deferred.Keys;
      StartNone(before, now);
      while keys != {}
        invariant Starting(before, now, keys, started, last, deferred)
        decreases |keys|
      {
        var ref :| ref in keys;
        StartOne(before, now, keys, started, last, deferred, ref);
        if deferred[ref] <= now {
          if !Answer(accepts, |started|) {
            break;
          }
          Begin(ref, now);
          started := started + {ref};
        }
        keys := keys - {ref};
      }
    }

    method Begin(ref: Ref, now: Time)
      modifies this`last, this`deferred
      ensures last == old(last)[ref := now] && deferred == old(deferred) - {ref}
    {
      last := last[ref := now];
      deferred := deferred - {ref};
    }

    /** The second loop of tick. */
    method Prune(now: Time)
      modifies this`last
      ensures Value() == Pruned(old(Value()), now)
      ensures forall ref :: ref in last <==>
        ref in old(last) && (now - old(last)[ref] < interval || ref in deferred)
    {
      ghost var before := last;
      var keys := last.Keys;
      while keys != {}
        invariant keys <= before.Keys
        invariant forall ref :: ref in last <==>
          ref in before && (ref in keys || now - before[ref] < interval || ref in deferred)
        invariant forall ref :: ref in last ==> last[ref] == before[ref]
        decreases |keys|
      {
        var ref :| ref in keys;
        keys := keys - {ref};
        if !(now - last[ref] < interval) && ref !in deferred {
          last := last - {ref};
        }
      }
    }

    method Tick(now: Time, accepts: seq<bool>) returns (started: set<Ref>)
      modifies this
      ensures started <= Due(old(deferred), now)
      ensures Value() == Ticked(old(Value()), now, started)
      ensures started != Due(old(deferred), now) ==> !Answer(accepts, |started|)
    {
      started := StartDue(now, accepts);
      Prune(now);
    }
  }

  // ------------------------------------------------------------------ notifications

  /** NotifyRisk on the queue and the pending set: merged when pending, dropped when the queue is full. */
  function Notified(size: nat, queue: seq<Ref>, pending: set<Ref>, ref: Ref): (seq<Ref>, set<Ref>) {
    if ref in pending || |queue| >= size then (queue, pending) else (queue + [ref], pending + {ref})
  }

  /** The service object: what NotifyRisk changes. */
  class Notifier {
    const size: nat
    var queue: seq<Ref>
    var pending: set<Ref>

    constructor (size: nat)
      ensures this.size == size && queue == [] && pending == {}
    {
      this.size := size;
      queue, pending := [], {};
    }

    method NotifyRisk(ref: Ref)
      modifies this
      ensures (queue, pending) == Notified(size, old(queue), old(pending), ref)
    {
      if ref in pending {
        return;
      }
      if |queue| < size {
        queue := queue + [ref];
        pending := pending + {ref};
      }
    }
  }

  // ------------------------------------------------------- notifiers and the loop together

  /** Where Run stands: selecting, holding a received reference, or about to offer it. */
  datatype Point = Selecting | Received(ref: Ref) | Offering(ref: Ref)

  /** starts: every evaluation started so far. */
  datatype State = State(
    size: nat, queue: seq<Ref>, pending: set<Ref>, point: Point, limiter: Limiter, clock: Time, starts: seq<Start>)

  datatype Start = Start(ref: Ref, at: Time)

  datatype Step =
    | Notify(ref: Ref)
    | Receive
    | Unmark
    | Offer(accept: bool)
    | Tick(started: set<Ref>, order: seq<Ref>)
    | Elapse(d: nat)

  ghost predicate Enabled(s: State, step: Step) {
    match step
    case Notify(_) => true
    case Receive => s.point.Selecting? && s.queue != []
    case Unmark => s.point.Received?
    case Offer(_) => s.point.Offering?
    case Tick(started, order) =>
      && s.point.Selecting? && started <= Due(s.limiter.deferred, s.clock)
      && (forall ref :: ref in started <==> ref in order)
      && forall i, j :: 0 <= i < j < |order| ==> order[i] != order[j]
    case Elapse(_) => true
  }

  function StartsOf(order: seq<Ref>, at: Time): seq<Start> {
    seq(|order|, i requires 0 <= i < |order| => Start(order[i], at))
  }

  ghost function Do(s: State, step: Step): State
    requires Enabled(s, step)
  {
    match step
    case Notify(ref) =>
      var n := Notified(s.size, s.queue, s.pending, ref);
      s.(queue := n.0, pending := n.1)
    case Receive => s.(queue := s.queue[1..], point := Received(s.queue[0]))
    case Unmark => s.(pending := s.pending - {s.point.ref}, point := Offering(s.point.ref))
    case Offer(accept) =>
      s.(point := Selecting, limiter := Offered(s.limiter, s.point.ref, s.clock, accept),
         starts := if Starts(s.limiter, s.point.ref, s.clock, accept) then s.starts + [Start(s.point.ref, s.clock)]
                   else s.starts)
    case Tick(started, order) =>
      s.(limiter := Ticked(s.limiter, s.clock, started), starts := s.starts + StartsOf(order, s.clock))
    case Elapse(d) => s.(clock := s.clock + d)
  }

  function Initial(size: nat, interval: int, clock: Time): State {
    State(size, [], {}, Selecting, Limiter(interval, map[], map[]), clock, [])
  }

  // --------------------------------------------------------------------- invariants

  predicate Distinct(queue: seq<Ref>) {
    forall i, j :: 0 <= i < j < |queue| ==> queue[i] != queue[j]
  }

  /** The queue holds each pending reference once, except the one in the loop's hand. */
  ghost predicate QueueOk(s: State) {
    && |s.queue| <= s.size && Distinct(s.queue)
    && (s.point.Received? ==> s.point.ref in s.pending && s.point.ref !in s.queue)
    && forall ref :: ref in s.pending <==> ref in s.queue || (s.point.Received? && ref == s.point.ref)
  }

  /** The start does not restrict its group any more, or the limiter remembers that it does. */
  predicate Remembered(l: Limiter, clock: Time, start: Start) {
    || start.at + l.interval <= clock
    || (&& start.ref in l.last && start.at <= l.last[start.ref]
        && (start.ref in l.deferred ==> start.at + l.interval <= l.deferred[start.ref]))
  }

  predicate SpacedFrom(interval: int, a: Start, b: Start) {
    a.ref == b.ref ==> a.at + interval <= b.at
  }

  ghost predicate Spaced(interval: int, starts: seq<Start>) {
    forall i, j :: 0 <= i < j < |starts| ==> SpacedFrom(interval, starts[i], starts[j])
  }

  ghost predicate StartsOk(s: State) {
    && (forall i :: 0 <= i < |s.starts| ==> s.starts[i].at <= s.clock && Remembered(s.limiter, s.clock, s.starts[i]))
    && Spaced(s.limiter.interval, s.starts)
  }

  ghost predicate Inv(s: State) {
    QueueOk(s) && StartsOk(s) && |s.limiter.deferred| <= MAX_DEFERRED
  }

  lemma QueueKept(s: State, step: Step)
    requires QueueOk(s) && Enabled(s, step)
    ensures QueueOk(Do(s, step))
  {
    if step.Receive? {
      assert s.queue == [s.queue[0]] + s.queue[1..];
      assert forall ref :: ref in s.queue <==> ref == s.queue[0] || ref in s.queue[1..];
    }
  }

  lemma OfferKeeps(s: State, accept: bool)
    requires StartsOk(s) && Enabled(s, Offer(accept))
    ensures StartsOk(Do(s, Offer(accept)))
  {
    var n := Do(s, Offer(accept));
    forall i | 0 <= i < |s.starts|
      ensures Remembered(n.limiter, n.clock, s.starts[i])
      ensures Starts(s.limiter, s.point.ref, s.clock, accept) ==>
                SpacedFrom(s.limiter.interval, s.starts[i], Start(s.point.ref, s.clock))
    {
      assert Remembered(s.limiter, s.clock, s.starts[i]);
    }
  }

  /** A tick remembers earlier starts, and starts no group too early. */
  lemma TickAfterStart(l: Limiter, now: Time, started: set<Ref>, start: Start)
    requires Remembered(l, now, start) && started <= Due(l.deferred, now)
    ensures Remembered(Ticked(l, now, started), now, start)
    ensures start.ref in started ==> start.at + l.interval <= now
  {
  }

  lemma TickStarts(l: Limiter, now: Time, started: set<Ref>, ref: Ref)
    requires ref in started
    ensures Remembered(Ticked(l, now, started), now, Start(ref, now))
  {
  }

  lemma TickRemembers(s: State, started: set<Ref>, order: seq<Ref>, n: State, i: nat)
    requires StartsOk(s) && Enabled(s, Tick(started, order)) && n == Do(s, Tick(started, order)) && i < |n.starts|
    ensures n.starts[i].at <= n.clock && Remembered(n.limiter, n.clock, n.starts[i])
  {
    if i < |s.starts| {
      assert n.starts[i] == s.starts[i];
      TickAfterStart(s.limiter, s.clock, started, s.starts[i]);
    } else {
      assert n.starts[i] == Start(order[i - |s.starts|], s.clock) && order[i - |s.starts|] in order;
      TickStarts(s.limiter, s.clock, started, order[i - |s.starts|]);
    }
  }

  lemma TickSpaces(s: State, started: set<Ref>, order: seq<Ref>, n: State, i: nat, j: nat)
    requires StartsOk(s) && Enabled(s, Tick(started, order)) && n == Do(s, Tick(started, order)) && i < j < |n.starts|
    ensures SpacedFrom(s.limiter.interval, n.starts[i], n.starts[j])
  {
    if j < |s.starts| {
      assert n.starts[i] == s.starts[i] && n.starts[j] == s.starts[j];
    } else {
      assert n.starts[j] == Start(order[j - |s.starts|], s.clock) && order[j - |s.starts|] in order;
      if i < |s.starts| {
        assert n.starts[i] == s.starts[i];
        TickAfterStart(s.limiter, s.clock, started, s.starts[i]);
      } else {
        assert n.starts[i] == Start(order[i - |s.starts|], s.clock);
      }
    }
  }

  lemma TickKeeps(s: State, started: set<Ref>, order: seq<Ref>)
    requires StartsOk(s) && Enabled(s, Tick(started, order))
    ensures StartsOk(Do(s, Tick(started, order)))
  {
    var n := Do(s, Tick(started, order));
    forall i | 0 <= i < |n.starts|
      ensures n.starts[i].at <= n.clock && Remembered(n.limiter, n.clock, n.starts[i])
    {
      TickRemembers(s, started, order, n, i);
    }
    forall i, j | 0 <= i < j < |n.starts|
      ensures SpacedFrom(s.limiter.interval, n.starts[i], n.starts[j])
    {
      TickSpaces(s, started, order, n, i, j);
    }
  }

  lemma StepKeeps(s: State, step: Step)
    requires Inv(s) && Enabled(s, step)
    ensures Inv(Do(s, step))
  {
    QueueKept(s, step);
    match step
    case Offer(accept) => OfferKeeps(s, accept);
    case Tick(started, order) =>
      TickKeeps(s, started, order);
      assert s.limiter.deferred.Keys - started <= s.limiter.deferred.Keys;
    case _ =>
  }

  // ------------------------------------------------------------------------ whole runs

  ghost predicate IsRun(run: seq<State>, steps: seq<Step>) {
    && |run| == |steps| + 1
    && run[0] == Initial(run[0].size, run[0].limiter.interval, run[0].clock)
    && forall i :: 0 <= i < |steps| ==> Enabled(run[i], steps[i]) && run[i + 1] == Do(run[i], steps[i])
  }

  lemma {:induction false} RunKeeps(run: seq<State>, steps: seq<Step>, i: nat)
    requires IsRun(run, steps) && i < |run|
    ensures Inv(run[i]) && run[i].limiter.interval == run[0].limiter.interval
  {
    if i > 0 {
      RunKeeps(run, steps, i - 1);
      StepKeeps(run[i - 1], steps[i - 1]);
    }
  }

  /** Two starts of one group are at least the interval apart, whatever was offered, ticked and refused. */
  lemma StartsAreSpaced(run: seq<State>, steps: seq<Step>, i: nat, a: nat, b: nat)
    requires IsRun(run, steps) && i < |run|
    requires a < b < |run[i].starts| && run[i].starts[a].ref == run[i].starts[b].ref
    ensures run[i].starts[a].at + run[0].limiter.interval <= run[i].starts[b].at
  {
    RunKeeps(run, steps, i);
    assert SpacedFrom(run[i].limiter.interval, run[i].starts[a], run[i].starts[b]);
  }

  /** Between receives, the queue holds exactly the pending references, each once. */
  lemma QueueIsPending(run: seq<State>, steps: seq<Step>, i: nat)
    requires IsRun(run, steps) && i < |run|
    ensures Distinct(run[i].queue) && |run[i].queue| <= run[i].size
    ensures (set ref | ref in run[i].queue) ==
            if run[i].point.Received? then run[i].pending - {run[i].point.ref} else run[i].pending
  {
    RunKeeps(run, steps, i);
  }

  /** Step k offers the reference. */
  ghost predicate Offers(run: seq<State>, steps: seq<Step>, k: nat, ref: Ref)
    requires IsRun(run, steps)
  {
    k < |steps| && steps[k].Offer? && run[k].point.Offering? && run[k].point.ref == ref
  }

  predicate Waits(s: State, ref: Ref) {
    ref in s.queue || (!s.point.Selecting? && s.point.ref == ref)
  }

  /** A notification that found room, or was merged, waits until it is offered. */
  lemma {:induction false} NotificationWaits(run: seq<State>, steps: seq<Step>, i: nat, j: nat)
    requires IsRun(run, steps) && i < j < |run| && steps[i].Notify?
    requires steps[i].ref in run[i].pending || |run[i].queue| < run[i].size
    requires forall k :: i < k < j ==> !Offers(run, steps, k, steps[i].ref)
    ensures Waits(run[j], steps[i].ref)
  {
    RunKeeps(run, steps, j - 1);
    assert run[j] == Do(run[j - 1], steps[j - 1]);
    if j > i + 1 {
      NotificationWaits(run, steps, i, j - 1);
      assert !Offers(run, steps, j - 1, steps[i].ref);
    }
  }

  function Receives(steps: seq<Step>): nat {
    if steps == [] then 0
    else Receives(steps[..|steps| - 1]) + if steps[|steps| - 1].Receive? then 1 else 0
  }

  /** How many receives until the reference is in hand. */
  ghost predicate Ahead(s: State, ref: Ref, n: int) {
    (0 < n <= |s.queue| && s.queue[n - 1] == ref) || (n == 0 && !s.point.Selecting? && s.point.ref == ref)
  }

  lemma MovesUp(s: State, step: Step, t: State, ref: Ref, n: int)
    requires Enabled(s, step) && t == Do(s, step) && Ahead(s, ref, n)
    requires !(step.Offer? && s.point.ref == ref)
    ensures Ahead(t, ref, if step.Receive? then n - 1 else n)
  {
  }

  lemma OneMoreReceive(steps: seq<Step>, i: nat, j: nat)
    requires i < j <= |steps|
    ensures Receives(steps[i..j]) == Receives(steps[i..j - 1]) + if steps[j - 1].Receive? then 1 else 0
  {
    assert steps[i..j][..j - i - 1] == steps[i..j - 1] && steps[i..j][j - i - 1] == steps[j - 1];
  }

  lemma {:induction false} QueueMovesUp(run: seq<State>, steps: seq<Step>, i: nat, j: nat, ref: Ref, n: int)
    requires IsRun(run, steps) && i <= j < |run| && Ahead(run[i], ref, n)
    requires forall k :: i <= k < j ==> !Offers(run, steps, k, ref)
    ensures Ahead(run[j], ref, n - Receives(steps[i..j]))
  {
    if j > i {
      QueueMovesUp(run, steps, i, j - 1, ref, n);
      assert !Offers(run, steps, j - 1, ref);
      MovesUp(run[j - 1], steps[j - 1], run[j], ref, n - Receives(steps[i..j - 1]));
      OneMoreReceive(steps, i, j);
    }
  }

  /**
   * A queued reference is offered in its turn: with n - 1 references before it, the loop
   * cannot receive n + 1 times without offering it.
   */
  lemma OfferedInTurn(run: seq<State>, steps: seq<Step>, i: nat, j: nat, ref: Ref, n: int) returns (k: nat)
    requires IsRun(run, steps) && i <= j < |run| && Ahead(run[i], ref, n)
    requires Receives(steps[i..j]) > n
    ensures i <= k < j && Offers(run, steps, k, ref)
  {
    if forall k :: i <= k < j ==> !Offers(run, steps, k, ref) {
      QueueMovesUp(run, steps, i, j, ref, n);
      assert false;
    }
    k :| i <= k < j && Offers(run, steps, k, ref);
  }

  /** What an offer does for its group: it starts now, or is deferred, unless the deferred map is full. */
  lemma OfferOutcome(s: State, accept: bool)
    requires Enabled(s, Offer(accept))
    ensures var n, ref := Do(s, Offer(accept)), s.point.ref;
            || n.starts == s.starts + [Start(ref, s.clock)]
            || (ref in n.limiter.deferred && n.starts == s.starts)
            || |s.limiter.deferred| >= MAX_DEFERRED
    ensures accept && s.point.ref !in s.limiter.deferred && s.clock >= DueAt(s.limiter, s.point.ref) ==>
              Do(s, Offer(accept)).starts == s.starts + [Start(s.point.ref, s.clock)]
  {
  }

  /** A deferred group stays deferred, with the same due time, until a tick starts it. */
  lemma {:induction false} DeferredUntilStarted(run: seq<State>, steps: seq<Step>, i: nat, j: nat, ref: Ref)
    requires IsRun(run, steps) && i <= j < |run| && ref in run[i].limiter.deferred
    requires forall k :: i <= k < j && steps[k].Tick? ==> ref !in steps[k].started
    ensures ref in run[j].limiter.deferred && run[j].limiter.deferred[ref] == run[i].limiter.deferred[ref]
  {
    if j > i {
      DeferredUntilStarted(run, steps, i, j - 1, ref);
      assert run[j] == Do(run[j - 1], steps[j - 1]);
    }
  }

  lemma {:induction false} StartsGrow(run: seq<State>, steps: seq<Step>, i: nat, j: nat)
    requires IsRun(run, steps) && i <= j < |run|
    ensures run[i].starts <= run[j].starts
  {
    if i < j {
      StartsGrow(run, steps, i, j - 1);
      assert run[j] == Do(run[j - 1], steps[j - 1]);
    }
  }

  ghost predicate StartedSince(s: State, n: State, ref: Ref) {
    exists a :: |s.starts| <= a < |n.starts| && n.starts[a].ref == ref
  }

  /** A start at step k of a run is one since any earlier state, in any later one. */
  lemma StartCounts(run: seq<State>, steps: seq<Step>, i: nat, k: nat, j: nat, a: nat)
    requires IsRun(run, steps) && i <= k < j < |run|
    requires |run[k].starts| <= a < |run[k + 1].starts|
    ensures StartedSince(run[i], run[j], run[k + 1].starts[a].ref)
  {
    StartsGrow(run, steps, i, k);
    StartsGrow(run, steps, k + 1, j);
    assert run[j].starts[a] == run[k + 1].starts[a];
  }

  lemma DeferredOrStarted(run: seq<State>, steps: seq<Step>, i: nat, k: nat, j: nat, ref: Ref)
    requires IsRun(run, steps) && i <= k <= j < |run| && ref in run[k].limiter.deferred
    ensures ref in run[j].limiter.deferred || StartedSince(run[i], run[j], ref)
  {
    if m: nat :| k <= m < j && steps[m].Tick? && ref in steps[m].started {
      var order := steps[m].order;
      assert Enabled(run[m], steps[m]) && ref in order;
      var a :| 0 <= a < |order| && order[a] == ref;
      assert run[m + 1].starts == run[m].starts + StartsOf(order, run[m].clock);
      StartCounts(run, steps, i, m, j, |run[m].starts| + a);
    } else {
      DeferredUntilStarted(run, steps, k, j, ref);
    }
  }

  lemma WaitsAhead(s: State, ref: Ref) returns (n: nat)
    requires Waits(s, ref)
    ensures n <= |s.queue| && Ahead(s, ref, n)
  {
    if ref in s.queue {
      var a :| 0 <= a < |s.queue| && s.queue[a] == ref;
      n := a + 1;
    } else {
      n := 0;
    }
  }

  /**
   * A notification that found room or was merged: once the loop has received more often
   * than the queue was long, its group has been offered, and since then it was started or
   * is still deferred, unless the deferred map was full when it was offered.
   */
  lemma NotificationIsServed(run: seq<State>, steps: seq<Step>, i: nat, j: nat) returns (k: nat)
    requires IsRun(run, steps) && i < j < |run| && steps[i].Notify?
    requires steps[i].ref in run[i].pending || |run[i].queue| < run[i].size
    requires Receives(steps[i + 1..j]) > |run[i + 1].queue|
    ensures i < k < j && Offers(run, steps, k, steps[i].ref)
    ensures || |run[k].limiter.deferred| >= MAX_DEFERRED
            || steps[i].ref in run[j].limiter.deferred
            || StartedSince(run[i], run[j], steps[i].ref)
  {
    var ref := steps[i].ref;
    NotificationWaits(run, steps, i, i + 1);
    var n := WaitsAhead(run[i + 1], ref);
    k := OfferedInTurn(run, steps, i + 1, j, ref, n);
    OfferOutcome(run[k], steps[k].accept);
    if ref in run[k + 1].limiter.deferred {
      DeferredOrStarted(run, steps, i, k + 1, j, ref);
    } else if |run[k].limiter.deferred| < MAX_DEFERRED {
      StartCounts(run, steps, i, k, j, |run[k].starts|);
    }
  }

  // ------------------------------------------------------------- how long a group is deferred

  /** The times the limiter remembers are those of starts. */
  ghost predicate LastsAreStarts(s: State) {
    forall ref :: ref in s.limiter.last ==> Start(ref, s.limiter.last[ref]) in s.starts
  }

  lemma LastsStep(s: State, step: Step, n: State)
    requires Enabled(s, step) && n == Do(s, step) && LastsAreStarts(s)
    ensures LastsAreStarts(n)
  {
    if step.Tick? {
      var added := StartsOf(step.order, s.clock);
      forall ref | ref in n.limiter.last
        ensures Start(ref, n.limiter.last[ref]) in n.starts
      {
        if ref in step.started {
          var a :| 0 <= a < |step.order| && step.order[a] == ref;
          assert added[a] == Start(ref, s.clock) && added[a] in added;
        }
      }
    }
  }

  lemma {:induction false} LastsUntil(run: seq<State>, steps: seq<Step>, i: nat)
    requires IsRun(run, steps) && i < |run|
    ensures LastsAreStarts(run[i])
  {
    if i > 0 {
      LastsUntil(run, steps, i - 1);
      LastsStep(run[i - 1], steps[i - 1], run[i]);
    }
  }

  /**
   * An offer that defers a group makes it due one interval after a start of that group, and
   * at once when no start limits it: never more than an interval after the offer.
   */
  lemma DeferralIsBounded(run: seq<State>, steps: seq<Step>, k: nat, ref: Ref)
    requires IsRun(run, steps) && k < |steps|
    requires ref !in run[k].limiter.deferred && ref in run[k + 1].limiter.deferred
    ensures Offers(run, steps, k, ref)
    ensures var due, interval := run[k + 1].limiter.deferred[ref], run[0].limiter.interval;
            && (due == interval || Start(ref, due - interval) in run[k].starts)
            && (run[k].clock >= 0 ==> due <= run[k].clock + interval)
  {
    RunKeeps(run, steps, k);
    LastsUntil(run, steps, k);
    assert run[k + 1] == Do(run[k], steps[k]);
    var l := run[k].limiter;
    if ref in l.last {
      var a :| 0 <= a < |run[k].starts| && run[k].starts[a] == Start(ref, l.last[ref]);
      assert run[k].starts[a].at <= run[k].clock;
    }
  }
}
