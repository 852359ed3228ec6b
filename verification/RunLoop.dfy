/**
 * The invalidation loop of the catalog (internal/catalog/run.go): invalidations
 * of peers pass through a bounded queue, are debounced per namespace, and fall
 * back to a full reload when the queue was full.
 */
module RunLoops {
  import opened Common
  import opened Flights

  /** Nanoseconds after Go's zero time. */
  type Time = int

  /** A timer that is stopped, or whose channel delivers from `at` on. */
  datatype Timer = Stopped | Armed(at: Time)

  datatype Timing = Timing(debounce: nat, fullInterval: nat, retryBackoff: int)

  const QUEUE_SIZE: nat := 1024

  /** DefaultRetryBackoff: one second. */
  const DEFAULT_BACKOFF: int := 1_000_000_000

  datatype Loop = Loop(
    queue: seq<NamespaceId>, overflow: bool, due: map<NamespaceId, Time>, timer: Timer,
    running: bool, done: Option<bool>, retry: Timer, backoff: int)

  function InitialBackoff(cfg: Timing): (r: int)
    ensures r > 0 && (cfg.retryBackoff > 0 ==> r == cfg.retryBackoff)
  {
    if cfg.retryBackoff <= 0 then DEFAULT_BACKOFF else cfg.retryBackoff
  }

  ghost predicate IsFirst(due: map<NamespaceId, Time>, ns: NamespaceId) {
    ns in due && forall k :: k in due ==> due[ns] <= due[k]
  }

  lemma {:induction false} FirstExists(due: map<NamespaceId, Time>) returns (ns: NamespaceId)
    requires due != map[]
    ensures IsFirst(due, ns)
    decreases |due|
  {
    assert due.Keys != {};
    ns :| ns in due;
    var rest := due - {ns};
    assert rest.Keys == due.Keys - {ns};
    assert forall j :: j in due ==> j == ns || (j in rest && rest[j] == due[j]);
    if rest != map[] {
      var k := FirstExists(rest);
      if due[k] < due[ns] {
        ns := k;
      }
    }
  }

  /** When a timer reset at `now` to the earliest due time fires: at once if that has passed. */
  ghost function Deadline(due: map<NamespaceId, Time>, now: Time): Time
    requires due != map[]
  {
    var first := EarliestDue(due);
    Max(first, now)
  }

  ghost function EarliestDue(due: map<NamespaceId, Time>): (t: Time)
    requires due != map[]
    ensures exists ns :: ns in due && due[ns] == t
    ensures forall k :: k in due ==> t <= due[k]
  {
    assert exists ns :: IsFirst(due, ns) by {
      var ns := FirstExists(due);
    }
    var ns :| IsFirst(due, ns);
    due[ns]
  }

  // ------------------------------------------------------------ the loop's operations

  function Queued(l: Loop, ns: NamespaceId): Loop {
    if |l.queue| < QUEUE_SIZE then l.(queue := l.queue + [ns]) else l.(overflow := true)
  }

  function WithDue(cfg: Timing, due: map<NamespaceId, Time>, ns: NamespaceId, now: Time): map<NamespaceId, Time> {
    if ns in due then due else due[ns := now + cfg.debounce]
  }

  ghost function Scheduled(cfg: Timing, l: Loop, ns: NamespaceId, now: Time): Loop {
    var due := WithDue(cfg, l.due, ns, now);
    assert ns in due;
    l.(due := due, timer := Armed(Deadline(due, now)))
  }

  function NotDue(due: map<NamespaceId, Time>, now: Time): map<NamespaceId, Time> {
    map ns | ns in due && due[ns] > now :: due[ns]
  }

  /** The end of fireDue, once the elapsed entries are gone. */
  ghost function Rearmed(l: Loop, now: Time): Loop {
    if l.due == map[] then l else l.(timer := Armed(Deadline(l.due, now)))
  }

  /** fullAfterOverflow without interference: the flag survives only while a full reload runs. */
  function OverflowHandled(l: Loop): Loop {
    if l.overflow then l.(overflow := l.running, running := true) else l
  }

  /** onFullDone up to its call of fullAfterOverflow. */
  function AfterFull(cfg: Timing, l: Loop, ok: bool, loaded: bool, now: Time): Loop {
    if ok then l.(backoff := InitialBackoff(cfg))
    else if !loaded then
      l.(retry := Armed(now + l.backoff), backoff := Min(2 * l.backoff, Max(cfg.fullInterval, l.backoff)))
    else l
  }

  /** The runLoop object; its methods are proved against the functions above. */
  class RunLoop {
    const cfg: Timing
    var queue: seq<NamespaceId>
    var overflow: bool
    var due: map<NamespaceId, Time>
    var timer: Timer
    var running: bool
    var done: Option<bool>
    var retry: Timer
    var backoff: int

    ghost function Value(): Loop
      reads this
    {
      Loop(queue, overflow, due, timer, running, done, retry, backoff)
    }

    constructor (cfg: Timing)
      ensures this.cfg == cfg && Value() == Loop([], false, map[], Stopped, false, None, Stopped, InitialBackoff(cfg))
    {
      this.cfg := cfg;
      queue, overflow, due, timer := [], false, map[], Stopped;
      running, done, retry := false, None, Stopped;
      backoff := if cfg.retryBackoff <= 0 then DEFAULT_BACKOFF else cfg.retryBackoff;
    }

    method OnEvent(ns: NamespaceId)
      modifies this
      ensures Value() == Queued(old(Value()), ns)
      ensures |old(queue)| < QUEUE_SIZE ==> queue == old(queue) + [ns] && overflow == old(overflow)
      ensures |old(queue)| >= QUEUE_SIZE ==> queue == old(queue) && overflow
    {
      if |queue| < QUEUE_SIZE {
        queue := queue + [ns];
      } else {
        overflow := true;
      }
    }

    method Schedule(ns: NamespaceId, now: Time)
      requires forall k :: k in due ==> due[k] > 0
      requires now > 0
      modifies this
      ensures Value() == Scheduled(cfg, old(Value()), ns, now)
    {
      if ns !in due {
        due := due[ns := now + cfg.debounce];
      }
      assert ns in due;
      var d := Earliest(due, now);
      timer := Armed(now + d);
    }

    /** The range loop of fireDue: starts the reloads whose delay elapsed, in any order. */
    method TakeDue(now: Time) returns (requested: seq<NamespaceId>)
      modifies this`due
      ensures due == NotDue(old(due), now)
      ensures forall i, j :: 0 <= i < j < |requested| ==> requested[i] != requested[j]
      ensures forall ns :: ns in requested <==> ns in old(due) && old(due)[ns] <= now
    {
      requested := [];
      ghost var before := due;
      var keys := due.Keys;
      while keys != {}
        invariant forall ns :: ns in due <==> ns in before && (ns in keys || before[ns] > now)
        invariant forall ns :: ns in due ==> due[ns] == before[ns]
        invariant forall ns :: ns in requested <==> ns in before && ns !in keys && before[ns] <= now
        invariant forall i, j :: 0 <= i < j < |requested| ==> requested[i] != requested[j]
        invariant keys <= before.Keys
        decreases |keys|
      {
        var ns :| ns in keys;
        keys := keys - {ns};
        if due[ns] <= now {
          due := due - {ns};
          assert ns !in requested;
          requested := requested + [ns];
        }
      }
    }

    /** Starts the elapsed reloads and re-arms the timer for the rest. */
    method FireDue(now: Time) returns (requested: seq<NamespaceId>)
      requires forall k :: k in due ==> due[k] > 0
      modifies this
      ensures Value() == Rearmed(old(Value()).(due := NotDue(old(due), now)), now)
      ensures forall i, j :: 0 <= i < j < |requested| ==> requested[i] != requested[j]
      ensures forall ns :: ns in requested <==> ns in old(due) && old(due)[ns] <= now
    {
      requested := TakeDue(now);
      if |due| > 0 {
        var d := Earliest(due, now);
        timer := Armed(now + d);
      }
    }

    method StartFull() returns (started: bool)
      modifies this
      ensures started == !old(running) && Value() == old(Value()).(running := true)
    {
      started := !running;
      running := true;
    }

    method FullAfterOverflow()
      modifies this
      ensures Value() == OverflowHandled(old(Value()))
    {
      var dropped := overflow;
      overflow := false;
      if dropped {
        var started := StartFull();
        if !started {
          overflow := true;
        }
      }
    }

    method OnFullDone(ok: bool, loaded: bool, now: Time)
      modifies this
      ensures Value() == OverflowHandled(AfterFull(cfg, old(Value()), ok, loaded, now))
    {
      if ok {
        backoff := if cfg.retryBackoff <= 0 then DEFAULT_BACKOFF else cfg.retryBackoff;
      } else if !loaded {
        retry := Armed(now + backoff);
        backoff := Min(2 * backoff, Max(cfg.fullInterval, backoff));
      }
      FullAfterOverflow();
    }
  }

  /**
   * The delay until the earliest due time. The zero time marks "none yet", so the
   * minimum is found whenever no entry is itself the zero time.
   */
  method Earliest(due: map<NamespaceId, Time>, now: Time) returns (d: int)
    ensures d >= 0
    ensures due != map[] && (forall k :: k in due ==> due[k] != 0) ==> now + d == Deadline(due, now)
    ensures due == map[] && now >= 0 ==> d == 0
  {
    var first: Time := 0;
    var keys := due.Keys;
    while keys != {}
      invariant keys <= due.Keys
      invariant keys == due.Keys ==> first == 0
      invariant keys != due.Keys && (forall k :: k in due ==> due[k] != 0) ==>
                  (exists k :: k in due && due[k] == first) && first != 0
      invariant (forall k :: k in due ==> due[k] != 0) ==> forall k :: k in due && k !in keys ==> first <= due[k]
      decreases |keys|
    {
      var k :| k in keys;
      if first == 0 || due[k] < first {
        first := due[k];
      }
      keys := keys - {k};
    }
    d := if first - now > 0 then first - now else 0;
    if due != map[] && (forall k :: k in due ==> due[k] != 0) {
      var least := EarliestDue(due);
      assert exists k :: k in due && due[k] == least;
    }
  }

  // ------------------------------------------------------ handlers and loop together

  /** A bus handler inside onEvent: about to send, or having found the queue full. */
  datatype Hand = Holding(ns: NamespaceId) | Dropping(ns: NamespaceId)

  /**
   * Where Run stands: in its select, inside fireDue, or inside fullAfterOverflow
   * (before the swap, holding the swapped flag, or about to raise it again). tick:
   * the periodic startFull follows.
   */
  datatype Point =
    | Selecting
    | Firing(now: Time)
    | Checking(tick: bool)
    | Swapped(tick: bool)
    | Raising(tick: bool)
    | Periodic

  /**
   * results: full reloads that cleared fullRunning but did not yet offer their result.
   * uncovered: namespaces with an invalidation that no reload was started after.
   * kept: the flag is up because the loop raised it again.
   */
  datatype State = State(
    loop: Loop, hands: map<nat, Hand>, point: Point, results: multiset<bool>, clock: Time,
    uncovered: set<NamespaceId>, kept: bool)

  datatype Step =
    | Arrive(h: nat, ns: NamespaceId)
    | Send(h: nat)
    | FindFull(h: nat)
    | Raise(h: nat)
    | Elapse(d: nat)
    | Receive
    | DebounceFires
    | FireOne(ns: NamespaceId)
    | FireEnd
    | TickFires
    | RetryFires
    | TakeResult(loaded: bool)
    | Swap
    | TryFull
    | RaiseAgain
    | StartPeriodic
    | FullEnds(ok: bool)
    | OfferResult(ok: bool)

  predicate Expired(t: Timer, clock: Time) {
    t.Armed? && t.at <= clock
  }

  predicate Enabled(s: State, step: Step) {
    match step
    case Arrive(h, ns) => h !in s.hands
    case Send(h) => h in s.hands && s.hands[h].Holding? && |s.loop.queue| < QUEUE_SIZE
    case FindFull(h) => h in s.hands && s.hands[h].Holding? && |s.loop.queue| >= QUEUE_SIZE
    case Raise(h) => h in s.hands && s.hands[h].Dropping?
    case Elapse(d) => true
    case Receive => s.point.Selecting? && |s.loop.queue| > 0
    case DebounceFires => s.point.Selecting? && Expired(s.loop.timer, s.clock)
    case FireOne(ns) => s.point.Firing? && ns in s.loop.due && s.loop.due[ns] <= s.point.now
    case FireEnd => s.point.Firing? && forall ns :: ns in s.loop.due ==> s.loop.due[ns] > s.point.now
    case TickFires => s.point.Selecting?
    case RetryFires => s.point.Selecting? && Expired(s.loop.retry, s.clock)
    case TakeResult(loaded) => s.point.Selecting? && s.loop.done.Some?
    case Swap => s.point.Checking?
    case TryFull => s.point.Swapped?
    case RaiseAgain => s.point.Raising?
    case StartPeriodic => s.point.Periodic?
    case FullEnds(ok) => s.loop.running
    case OfferResult(ok) => ok in s.results
  }

  function Next(tick: bool): Point {
    if tick then Periodic else Selecting
  }

  /** startFull: a full reload that starts covers every invalidation so far. */
  function FullStarted(s: State): State {
    if s.loop.running then s else s.(loop := s.loop.(running := true), uncovered := {})
  }

  ghost function Do(cfg: Timing, s: State, step: Step): State
    requires Enabled(s, step)
  {
    var l := s.loop;
    match step
    case Arrive(h, ns) => s.(hands := s.hands[h := Holding(ns)], uncovered := s.uncovered + {ns})
    case Send(h) => s.(loop := Queued(l, s.hands[h].ns), hands := s.hands - {h})
    case FindFull(h) => s.(hands := s.hands[h := Dropping(s.hands[h].ns)])
    case Raise(h) => s.(loop := l.(overflow := true), hands := s.hands - {h})
    case Elapse(d) => s.(clock := s.clock + d)
    case Receive => s.(loop := Scheduled(cfg, l.(queue := l.queue[1..]), l.queue[0], s.clock), point := Checking(false))
    case DebounceFires => s.(loop := l.(timer := Stopped), point := Firing(s.clock))
    case FireOne(ns) => s.(loop := l.(due := l.due - {ns}), uncovered := s.uncovered - {ns})
    case FireEnd => s.(loop := Rearmed(l, s.point.now), point := Selecting)
    case TickFires => s.(point := Checking(true))
    case RetryFires => FullStarted(s.(loop := l.(retry := Stopped)))
    case TakeResult(loaded) =>
      s.(loop := AfterFull(cfg, l.(done := None), l.done.value, loaded, s.clock), point := Checking(false))
    case Swap => s.(loop := l.(overflow := false), kept := false,
                    point := if l.overflow then Swapped(s.point.tick) else Next(s.point.tick))
    case TryFull =>
      if l.running then s.(point := Raising(s.point.tick)) else FullStarted(s.(point := Next(s.point.tick)))
    case RaiseAgain => s.(loop := l.(overflow := true), kept := true, point := Next(s.point.tick))
    case StartPeriodic => FullStarted(s.(point := Selecting))
    case FullEnds(ok) => s.(loop := l.(running := false), results := s.results + multiset{ok})
    case OfferResult(ok) =>
      s.(loop := if l.done.None? then l.(done := Some(ok)) else l, results := s.results - multiset{ok})
  }

  // ------------------------------------------- the steps and the methods do the same

  /** Undisturbed, the steps of fullAfterOverflow do what the method does. */
  lemma FlagStepsAreMethod(cfg: Timing, s: State, tick: bool)
    requires s.point == Checking(tick)
    ensures var a := Do(cfg, s, Swap);
            if !s.loop.overflow then a.loop == OverflowHandled(s.loop) && a.point == Next(tick)
            else
              var b := Do(cfg, a, TryFull);
              if !s.loop.running then b.loop == OverflowHandled(s.loop) && b.point == Next(tick) && b.uncovered == {}
              else var c := Do(cfg, b, RaiseAgain); c.loop == OverflowHandled(s.loop) && c.point == Next(tick)
  {
  }

  /** The reloads of fireDue, in any order, leave what the method leaves. */
  lemma FireStepsAreMethod(cfg: Timing, s: State, ns: NamespaceId)
    requires s.point.Firing?
    ensures Enabled(s, FireOne(ns)) ==>
              NotDue(Do(cfg, s, FireOne(ns)).loop.due, s.point.now) == NotDue(s.loop.due, s.point.now)
    ensures Enabled(s, FireEnd) ==>
              s.loop.due == NotDue(s.loop.due, s.point.now) && Do(cfg, s, FireEnd).loop == Rearmed(s.loop, s.point.now)
  {
  }

  // --------------------------------------------------------------------- invariants

  ghost predicate InHand(hands: map<nat, Hand>, ns: NamespaceId) {
    exists h :: h in hands && hands[h].ns == ns
  }

  predicate FlagHeld(overflow: bool, point: Point) {
    overflow || point.Swapped? || point.Raising?
  }

  /** Somewhere the loop will find the invalidation again. */
  ghost predicate Watched(s: State, ns: NamespaceId) {
    InHand(s.hands, ns) || ns in s.loop.queue || ns in s.loop.due || FlagHeld(s.loop.overflow, s.point)
  }

  /** The debounce timer fires at the earliest due time, or at once when that has passed. */
  ghost predicate TimerSet(due: map<NamespaceId, Time>, timer: Timer, clock: Time) {
    && timer.Armed?
    && (forall ns :: ns in due ==> timer.at <= due[ns] || timer.at <= clock)
    && exists ns :: ns in due && due[ns] <= timer.at
  }

  ghost predicate DueOk(cfg: Timing, due: map<NamespaceId, Time>, clock: Time) {
    forall ns :: ns in due ==> 0 < due[ns] <= clock + cfg.debounce
  }

  /** A full reload is running, or its result is on its way to the loop. */
  predicate ResultComing(l: Loop, results: multiset<bool>) {
    l.running || results != multiset{} || l.done.Some?
  }

  ghost predicate Inv(cfg: Timing, s: State) {
    && |s.loop.queue| <= QUEUE_SIZE
    && s.clock > 0
    && DueOk(cfg, s.loop.due, s.clock)
    && (s.point.Firing? ==> s.point.now <= s.clock)
    && (s.loop.due != map[] && !s.point.Firing? ==> TimerSet(s.loop.due, s.loop.timer, s.clock))
    && (forall ns :: ns in s.uncovered ==> Watched(s, ns))
    && (s.point.Raising? || (s.kept && !s.point.Checking?) ==> ResultComing(s.loop, s.results))
    && (s.kept ==> s.loop.overflow)
    && InitialBackoff(cfg) <= s.loop.backoff <= Max(cfg.fullInterval, InitialBackoff(cfg))
  }

  /** Run begins with a full reload unless the store was loaded before. */
  function Initial(cfg: Timing, clock: Time, loaded: bool): State {
    State(Loop([], false, map[], Stopped, false, None, Stopped, InitialBackoff(cfg)),
          map[], Next(!loaded), multiset{}, clock, {}, false)
  }

  lemma DeadlineSets(due: map<NamespaceId, Time>, now: Time, clock: Time)
    requires due != map[] && now <= clock
    requires forall ns :: ns in due ==> due[ns] > 0
    ensures TimerSet(due, Armed(Deadline(due, now)), clock)
  {
    var least :| least in due && due[least] == EarliestDue(due);
  }

  // -------------------------------------------------------- each step keeps the invariant

  lemma HandlerKeeps(cfg: Timing, s: State, step: Step)
    requires Inv(cfg, s) && Enabled(s, step)
    requires step.Arrive? || step.Send? || step.FindFull? || step.Raise?
    ensures Inv(cfg, Do(cfg, s, step))
  {
    var n := Do(cfg, s, step);
    forall ns | ns in n.uncovered
      ensures Watched(n, ns)
    {
      if step.Arrive? && ns == step.ns {
        assert n.hands[step.h].ns == ns;
      } else if InHand(s.hands, ns) {
        var h :| h in s.hands && s.hands[h].ns == ns;
        assert h != step.h || step.FindFull? ==> h in n.hands && n.hands[h].ns == ns;
      }
    }
  }

  lemma ReceiveKeeps(cfg: Timing, s: State)
    requires Inv(cfg, s) && Enabled(s, Receive)
    ensures Inv(cfg, Do(cfg, s, Receive))
  {
    var n := Do(cfg, s, Receive);
    assert s.loop.queue[0] in n.loop.due;
    DeadlineSets(n.loop.due, s.clock, s.clock);
  }

  lemma FireKeeps(cfg: Timing, s: State, step: Step)
    requires Inv(cfg, s) && Enabled(s, step)
    requires step.DebounceFires? || step.FireOne? || step.FireEnd?
    ensures Inv(cfg, Do(cfg, s, step))
  {
    if step.FireEnd? && s.loop.due != map[] {
      DeadlineSets(s.loop.due, s.point.now, s.clock);
    }
  }

  lemma LoopKeeps(cfg: Timing, s: State, step: Step)
    requires Inv(cfg, s) && Enabled(s, step)
    requires step.TickFires? || step.RetryFires? || step.TakeResult? || step.Swap? || step.TryFull? || step.RaiseAgain?
             || step.StartPeriodic?
    ensures Inv(cfg, Do(cfg, s, step))
  {
  }

  lemma ElapseKeeps(cfg: Timing, s: State, d: nat)
    requires Inv(cfg, s)
    ensures Inv(cfg, Do(cfg, s, Elapse(d)))
  {
    var n := Do(cfg, s, Elapse(d));
    assert forall ns :: Watched(s, ns) ==> Watched(n, ns);
  }

  /** Steps of a full reload touch nothing an invalidation waits in. */
  lemma SameWatch(cfg: Timing, s: State, running: bool, done: Option<bool>, results: multiset<bool>)
    requires Inv(cfg, s)
    requires ResultComing(s.loop.(running := running, done := done), results)
    ensures Inv(cfg, s.(loop := s.loop.(running := running, done := done), results := results))
  {
    var n := s.(loop := s.loop.(running := running, done := done), results := results);
    assert forall ns :: Watched(s, ns) ==> Watched(n, ns);
  }

  lemma ResultKeeps(cfg: Timing, s: State, step: Step)
    requires Inv(cfg, s) && Enabled(s, step)
    requires step.FullEnds? || step.OfferResult?
    ensures Inv(cfg, Do(cfg, s, step))
  {
    if step.FullEnds? {
      var results := s.results + multiset{step.ok};
      assert step.ok in results;
      SameWatch(cfg, s, false, s.loop.done, results);
    } else {
      var done := if s.loop.done.None? then Some(step.ok) else s.loop.done;
      SameWatch(cfg, s, s.loop.running, done, s.results - multiset{step.ok});
      assert s.loop.done.Some? ==> s.loop.(done := done) == s.loop;
    }
  }

  lemma StepKeeps(cfg: Timing, s: State, step: Step)
    requires Inv(cfg, s) && Enabled(s, step)
    ensures Inv(cfg, Do(cfg, s, step))
  {
    match step
    case Arrive(_, _) => HandlerKeeps(cfg, s, step);
    case Send(_) => HandlerKeeps(cfg, s, step);
    case FindFull(_) => HandlerKeeps(cfg, s, step);
    case Raise(_) => HandlerKeeps(cfg, s, step);
    case Receive => ReceiveKeeps(cfg, s);
    case DebounceFires => FireKeeps(cfg, s, step);
    case FireOne(_) => FireKeeps(cfg, s, step);
    case FireEnd => FireKeeps(cfg, s, step);
    case Elapse(d) => ElapseKeeps(cfg, s, d);
    case FullEnds(_) => ResultKeeps(cfg, s, step);
    case OfferResult(_) => ResultKeeps(cfg, s, step);
    case _ => LoopKeeps(cfg, s, step);
  }

  // ------------------------------------------------------------------------ whole runs

  ghost predicate IsRun(cfg: Timing, run: seq<State>, steps: seq<Step>) {
    && |run| == |steps| + 1
    && run[0].clock > 0 && run[0] == Initial(cfg, run[0].clock, run[0].point.Selecting?)
    && forall i :: 0 <= i < |steps| ==> Enabled(run[i], steps[i]) && run[i + 1] == Do(cfg, run[i], steps[i])
  }

  lemma {:induction false} RunKeeps(cfg: Timing, run: seq<State>, steps: seq<Step>, i: nat)
    requires IsRun(cfg, run, steps) && i < |run|
    ensures Inv(cfg, run[i])
  {
    if i > 0 {
      RunKeeps(cfg, run, steps, i - 1);
      StepKeeps(cfg, run[i - 1], steps[i - 1]);
    }
  }

  /** Step i starts a reload of the namespace: its own, or a full one. */
  predicate Covers(s: State, step: Step, ns: NamespaceId) {
    || step == FireOne(ns)
    || (!s.loop.running && (step.TryFull? || step.StartPeriodic? || step.RetryFires?))
  }

  /** An invalidation stays uncovered until a reload that covers it starts. */
  lemma {:induction false} UncoveredUntil(cfg: Timing, run: seq<State>, steps: seq<Step>, i: nat, j: nat)
    requires IsRun(cfg, run, steps) && i < j < |run|
    requires steps[i].Arrive?
    requires forall k :: i < k < j ==> !Covers(run[k], steps[k], steps[i].ns)
    ensures steps[i].ns in run[j].uncovered
  {
    if j == i + 1 {
      assert run[j] == Do(cfg, run[i], steps[i]);
    } else {
      UncoveredUntil(cfg, run, steps, i, j - 1);
      assert run[j] == Do(cfg, run[j - 1], steps[j - 1]);
      assert !Covers(run[j - 1], steps[j - 1], steps[i].ns);
    }
  }

  /**
   * No invalidation is lost: until a reload that covers it starts, it is in a handler's
   * hand, in the queue, in due with the timer set for the earliest entry (or fireDue at
   * work on due), or recorded by the flag or by the loop that is about to raise it again.
   */
  lemma InvalidationNeverLost(cfg: Timing, run: seq<State>, steps: seq<Step>, i: nat, j: nat)
    requires IsRun(cfg, run, steps) && i < j < |run|
    requires steps[i].Arrive?
    requires forall k :: i < k < j ==> !Covers(run[k], steps[k], steps[i].ns)
    ensures var s, ns := run[j], steps[i].ns;
            || InHand(s.hands, ns)
            || ns in s.loop.queue
            || (ns in s.loop.due && (s.point.Firing? || TimerSet(s.loop.due, s.loop.timer, s.clock)))
            || s.loop.overflow || s.point.Swapped? || s.point.Raising?
  {
    UncoveredUntil(cfg, run, steps, i, j);
    RunKeeps(cfg, run, steps, j);
  }

  /**
   * A flag that the loop raised again is never left without a wakeup: until the loop
   * looks at it once more, a full reload runs or its result is on its way.
   */
  lemma KeptFlagIsRetried(cfg: Timing, run: seq<State>, steps: seq<Step>, i: nat, j: nat)
    requires IsRun(cfg, run, steps) && i < j < |run|
    requires steps[i].RaiseAgain?
    requires forall k :: i < k < j ==> !steps[k].Swap?
    ensures run[j].loop.overflow
    ensures run[j].point.Checking? || ResultComing(run[j].loop, run[j].results)
  {
    KeptUntil(cfg, run, steps, i, j);
    RunKeeps(cfg, run, steps, j);
  }

  lemma {:induction false} KeptUntil(cfg: Timing, run: seq<State>, steps: seq<Step>, i: nat, j: nat)
    requires IsRun(cfg, run, steps) && i < j < |run|
    requires steps[i].RaiseAgain?
    requires forall k :: i < k < j ==> !steps[k].Swap?
    ensures run[j].kept
  {
    if j > i + 1 {
      KeptUntil(cfg, run, steps, i, j - 1);
      assert !steps[j - 1].Swap?;
    }
    assert run[j] == Do(cfg, run[j - 1], steps[j - 1]);
  }

  // --------------------------------------------------- a flag that a handler raised

  /** The steps after which the loop looks at the flag: an event, a result, a tick. */
  predicate Looks(step: Step) {
    step.Receive? || step.TakeResult? || step.TickFires?
  }

  lemma FlagWaits(cfg: Timing, s: State, step: Step, n: State)
    requires Enabled(s, step) && n == Do(cfg, s, step) && !Looks(step) && s.loop.overflow && !s.point.Checking?
    ensures n.loop.overflow && !n.point.Checking?
  {
  }

  lemma {:induction false} FlagWaitsUntil(cfg: Timing, run: seq<State>, steps: seq<Step>, i: nat, j: nat)
    requires IsRun(cfg, run, steps) && i <= j < |run| && run[i].loop.overflow && !run[i].point.Checking?
    requires forall k :: i <= k < j ==> !Looks(steps[k])
    ensures run[j].loop.overflow && !run[j].point.Checking?
    decreases j - i
  {
    if i < j {
      FlagWaits(cfg, run[i], steps[i], run[i + 1]);
      FlagWaitsUntil(cfg, run, steps, i + 1, j);
    }
  }

  /** Without an event, a result or a tick nobody looks at a raised flag: it waits. */
  lemma RaisedFlagWaits(cfg: Timing, run: seq<State>, steps: seq<Step>, i: nat, j: nat)
    requires IsRun(cfg, run, steps) && i < j < |run| && steps[i].Raise? && !run[i].point.Checking?
    requires forall k :: i < k < j ==> !Looks(steps[k])
    ensures run[j].loop.overflow && !run[j].point.Checking?
  {
    assert run[i + 1] == Do(cfg, run[i], steps[i]);
    FlagWaitsUntil(cfg, run, steps, i + 1, j);
  }

  /** The step starts a full reload because of the flag. */
  predicate StartsFull(s: State, step: Step) {
    step.TryFull? && !s.loop.running
  }

  lemma {:induction false} FlagHeldUntil(cfg: Timing, run: seq<State>, steps: seq<Step>, i: nat, j: nat)
    requires IsRun(cfg, run, steps) && i <= j < |run| && FlagHeld(run[i].loop.overflow, run[i].point)
    requires forall k :: i <= k < j ==> !StartsFull(run[k], steps[k])
    ensures FlagHeld(run[j].loop.overflow, run[j].point)
    decreases j - i
  {
    if i < j {
      FlagStays(cfg, run[i], steps[i], run[i + 1]);
      FlagHeldUntil(cfg, run, steps, i + 1, j);
    }
  }

  lemma FlagStays(cfg: Timing, s: State, step: Step, n: State)
    requires Enabled(s, step) && n == Do(cfg, s, step) && !StartsFull(s, step)
    ensures FlagHeld(s.loop.overflow, s.point) ==> FlagHeld(n.loop.overflow, n.point)
  {
  }

  /** The loop is at work on the flag, or raised it again itself. */
  predicate Noticed(s: State) {
    FlagHeld(s.loop.overflow, s.point) && (s.point.Checking? || s.point.Swapped? || s.point.Raising? || s.kept)
  }

  lemma NoticedStays(cfg: Timing, s: State, step: Step, n: State)
    requires Inv(cfg, s) && Enabled(s, step) && n == Do(cfg, s, step) && !StartsFull(s, step) && Noticed(s)
    ensures Noticed(n)
  {
  }

  lemma {:induction false} NoticedUntil(cfg: Timing, run: seq<State>, steps: seq<Step>, i: nat, j: nat)
    requires IsRun(cfg, run, steps) && i <= j < |run| && Noticed(run[i])
    requires forall k :: i <= k < j ==> !StartsFull(run[k], steps[k])
    ensures Noticed(run[j])
    decreases j - i
  {
    if i < j {
      RunKeeps(cfg, run, steps, i);
      NoticedStays(cfg, run[i], steps[i], run[i + 1]);
      NoticedUntil(cfg, run, steps, i + 1, j);
    }
  }

  /**
   * From the next event, result or tick on, a raised flag is never left alone: until it
   * has started a full reload, the loop is at work on it, or a full reload is running or
   * its result is on its way, which makes the loop look again.
   */
  lemma RaisedFlagIsServed(cfg: Timing, run: seq<State>, steps: seq<Step>, i: nat, k: nat, j: nat)
    requires IsRun(cfg, run, steps) && i < k < j < |run| && steps[i].Raise? && Looks(steps[k])
    requires forall q :: i < q < j ==> !StartsFull(run[q], steps[q])
    ensures FlagHeld(run[j].loop.overflow, run[j].point)
    ensures || run[j].point.Checking? || run[j].point.Swapped? || run[j].point.Raising?
            || ResultComing(run[j].loop, run[j].results)
  {
    assert run[i + 1] == Do(cfg, run[i], steps[i]);
    FlagHeldUntil(cfg, run, steps, i + 1, k);
    assert run[k + 1] == Do(cfg, run[k], steps[k]);
    NoticedUntil(cfg, run, steps, k + 1, j);
    RunKeeps(cfg, run, steps, j);
  }

  lemma FlagStaysDown(cfg: Timing, s: State, step: Step, n: State)
    requires Enabled(s, step) && n == Do(cfg, s, step) && !s.loop.overflow && s.point.Swapped?
    requires !step.Raise? && !step.TryFull?
    ensures !n.loop.overflow && n.point == s.point
  {
  }

  lemma {:induction false} FlagStaysDownUntil(cfg: Timing, run: seq<State>, steps: seq<Step>, i: nat, j: nat)
    requires IsRun(cfg, run, steps) && i <= j < |run| && !run[i].loop.overflow && run[i].point.Swapped?
    requires forall q :: i <= q < j ==> !steps[q].Raise? && !steps[q].TryFull?
    ensures !run[j].loop.overflow && run[j].point == run[i].point
    decreases j - i
  {
    if i < j {
      FlagStaysDown(cfg, run[i], steps[i], run[i + 1]);
      FlagStaysDownUntil(cfg, run, steps, i + 1, j);
    }
  }

  /**
   * A flag the loop took is used up: it starts a full reload, or is raised again exactly
   * when one was running; it is down afterwards unless it was raised again or a handler did.
   */
  lemma FlagIsUsedUp(cfg: Timing, run: seq<State>, steps: seq<Step>, i: nat, j: nat)
    requires IsRun(cfg, run, steps) && i < j < |steps| && steps[i] == Swap && run[i].loop.overflow
    requires steps[j] == TryFull && forall q :: i < q < j ==> !steps[q].Raise? && !steps[q].TryFull?
    ensures !run[j].loop.running ==> run[j + 1].loop.running && !run[j + 1].loop.overflow && run[j + 1].uncovered == {}
    ensures run[j].loop.running ==> run[j + 1].point.Raising?
  {
    assert run[i + 1] == Do(cfg, run[i], steps[i]);
    FlagStaysDownUntil(cfg, run, steps, i + 1, j);
    assert run[j + 1] == Do(cfg, run[j], steps[j]);
  }
}
