/**
 * When the invalidation loop of the catalog acts (internal/catalog/run.go): the debounce
 * delay, the retries of a failed first load, and the periodic reload.
 */
module RunLoopTimers {
  import opened Common
  import F = Flights
  import opened RunLoops

  // ------------------------------------------------------------------- the debounce delay

  /** What a receive makes of the due times: only a namespace without one gets one. */
  lemma ReceiveSetsDue(cfg: Timing, s: State, n: State)
    requires Enabled(s, Receive) && n == Do(cfg, s, Receive)
    ensures var ns := s.loop.queue[0];
            && n.loop.queue == s.loop.queue[1..] && ns in n.loop.due
            && n.loop.due[ns] == if ns in s.loop.due then s.loop.due[ns] else s.clock + cfg.debounce
    ensures forall k :: k != s.loop.queue[0] ==>
              (k in n.loop.due <==> k in s.loop.due) && (k in n.loop.due ==> n.loop.due[k] == s.loop.due[k])
  {
  }

  lemma DueStays(cfg: Timing, s: State, step: Step, n: State, ns: F.NamespaceId)
    requires Enabled(s, step) && n == Do(cfg, s, step) && ns in s.loop.due && step != FireOne(ns)
    ensures ns in n.loop.due && n.loop.due[ns] == s.loop.due[ns]
  {
    if step.Receive? {
      ReceiveSetsDue(cfg, s, n);
    } else {
      assert n.loop.due == s.loop.due || n.loop.due == s.loop.due - {step.ns};
    }
  }

  lemma {:induction false} DueStaysUntil(cfg: Timing, run: seq<State>, steps: seq<Step>, i: nat, j: nat,
                                         ns: F.NamespaceId)
    requires IsRun(cfg, run, steps) && i <= j < |run| && ns in run[i].loop.due
    requires forall q :: i <= q < j ==> steps[q] != FireOne(ns)
    ensures ns in run[j].loop.due && run[j].loop.due[ns] == run[i].loop.due[ns]
    decreases j - i
  {
    if i < j {
      DueStays(cfg, run[i], steps[i], run[i + 1], ns);
      DueStaysUntil(cfg, run, steps, i + 1, j, ns);
    }
  }

  /**
   * An invalidation the loop received stays due, until its reload is started, at the debounce
   * delay after the first one of its namespace: later ones never put it off, so it is due at
   * most the delay after it was received itself.
   */
  lemma DebounceIsBounded(cfg: Timing, run: seq<State>, steps: seq<Step>, i: nat, j: nat)
    requires IsRun(cfg, run, steps) && i < j < |run| && steps[i] == Receive
    requires forall q :: i < q < j ==> steps[q] != FireOne(run[i].loop.queue[0])
    ensures var ns := run[i].loop.queue[0];
            && ns in run[j].loop.due && run[j].loop.due[ns] <= run[i].clock + cfg.debounce
            && (ns !in run[i].loop.due ==> run[j].loop.due[ns] == run[i].clock + cfg.debounce)
            && (ns in run[i].loop.due ==> run[j].loop.due[ns] == run[i].loop.due[ns])
            && (run[j].point.Firing? || TimerSet(run[j].loop.due, run[j].loop.timer, run[j].clock))
  {
    RunKeeps(cfg, run, steps, i);
    RunKeeps(cfg, run, steps, j);
    ReceiveSetsDue(cfg, run[i], run[i + 1]);
    DueStaysUntil(cfg, run, steps, i + 1, j, run[i].loop.queue[0]);
  }

  /** A handler that finds room queues the namespace last and leaves the flag alone. */
  lemma SendQueues(cfg: Timing, run: seq<State>, steps: seq<Step>, i: nat)
    requires IsRun(cfg, run, steps) && i < |steps| && steps[i].Send?
    ensures run[i + 1].loop.queue == run[i].loop.queue + [run[i].hands[steps[i].h].ns]
    ensures run[i + 1].loop.overflow == run[i].loop.overflow && run[i + 1].loop.due == run[i].loop.due
  {
    assert run[i + 1] == Do(cfg, run[i], steps[i]);
  }

  // --------------------------------------------------------------- retries of a failed load

  /** What a result of a full reload does to the retry timer and the next delay. */
  lemma ResultArmsRetry(cfg: Timing, run: seq<State>, steps: seq<Step>, i: nat)
    requires IsRun(cfg, run, steps) && i < |steps| && steps[i].TakeResult?
    ensures var l, n := run[i].loop, run[i + 1].loop;
            if l.done == Some(false) && !steps[i].loaded then
              && n.retry == Armed(run[i].clock + l.backoff)
              && l.backoff <= n.backoff <= 2 * l.backoff
              && (n.backoff == 2 * l.backoff || n.backoff == Max(cfg.fullInterval, l.backoff))
            else
              && n.retry == l.retry
              && n.backoff == (if l.done == Some(true) then InitialBackoff(cfg) else l.backoff)
    ensures InitialBackoff(cfg) <= run[i].loop.backoff <= Max(cfg.fullInterval, InitialBackoff(cfg))
  {
    RunKeeps(cfg, run, steps, i);
    assert run[i + 1] == Do(cfg, run[i], steps[i]);
  }

  lemma RetryStays(cfg: Timing, s: State, step: Step, n: State)
    requires Enabled(s, step) && n == Do(cfg, s, step) && !step.RetryFires? && !step.TakeResult?
    ensures n.loop.retry == s.loop.retry
  {
  }

  lemma {:induction false} RetryStaysUntil(cfg: Timing, run: seq<State>, steps: seq<Step>, i: nat, j: nat)
    requires IsRun(cfg, run, steps) && i <= j < |run|
    requires forall q :: i <= q < j ==> !steps[q].RetryFires? && !steps[q].TakeResult?
    ensures run[j].loop.retry == run[i].loop.retry
    decreases j - i
  {
    if i < j {
      RetryStays(cfg, run[i], steps[i], run[i + 1]);
      RetryStaysUntil(cfg, run, steps, i + 1, j);
    }
  }

  /**
   * After a failed result while nothing is loaded the retry timer is armed, for a time the
   * backoff bounds, and stays armed until it fires or another result comes in.
   */
  lemma FailedLoadIsRetried(cfg: Timing, run: seq<State>, steps: seq<Step>, i: nat, j: nat)
    requires IsRun(cfg, run, steps) && i < j < |run|
    requires steps[i] == TakeResult(false) && run[i].loop.done == Some(false)
    requires forall q :: i < q < j ==> !steps[q].RetryFires? && !steps[q].TakeResult?
    ensures run[j].loop.retry.Armed?
    ensures run[i].clock + InitialBackoff(cfg) <= run[j].loop.retry.at
              <= run[i].clock + Max(cfg.fullInterval, InitialBackoff(cfg))
  {
    ResultArmsRetry(cfg, run, steps, i);
    RetryStaysUntil(cfg, run, steps, i + 1, j);
  }

  // ------------------------------------------------------------------- the periodic reload

  /** A retry and the periodic start leave a full reload running. */
  lemma StartsRun(cfg: Timing, run: seq<State>, steps: seq<Step>, i: nat)
    requires IsRun(cfg, run, steps) && i < |steps| && (steps[i].RetryFires? || steps[i].StartPeriodic?)
    ensures run[i + 1].loop.running
  {
    assert run[i + 1] == Do(cfg, run[i], steps[i]);
  }

  predicate InTick(p: Point) {
    match p
    case Checking(tick) => tick
    case Swapped(tick) => tick
    case Raising(tick) => tick
    case Periodic => true
    case _ => false
  }

  lemma TickStays(cfg: Timing, s: State, step: Step, n: State)
    requires Enabled(s, step) && n == Do(cfg, s, step) && InTick(s.point) && !step.StartPeriodic?
    ensures InTick(n.point)
  {
  }

  lemma {:induction false} TickStaysUntil(cfg: Timing, run: seq<State>, steps: seq<Step>, i: nat, j: nat)
    requires IsRun(cfg, run, steps) && i <= j < |run| && InTick(run[i].point)
    requires forall q :: i <= q < j ==> !steps[q].StartPeriodic?
    ensures InTick(run[j].point)
    decreases j - i
  {
    if i < j {
      TickStays(cfg, run[i], steps[i], run[i + 1]);
      TickStaysUntil(cfg, run, steps, i + 1, j);
    }
  }

  /** After a tick the loop does not select again before it has seen to a running full reload. */
  lemma TickStartsFull(cfg: Timing, run: seq<State>, steps: seq<Step>, i: nat, j: nat) returns (q: nat)
    requires IsRun(cfg, run, steps) && i < j < |run| && steps[i].TickFires? && run[j].point.Selecting?
    ensures i < q < j && steps[q].StartPeriodic? && run[q + 1].loop.running
  {
    assert run[i + 1] == Do(cfg, run[i], steps[i]);
    if forall k :: i < k < j ==> !steps[k].StartPeriodic? {
      TickStaysUntil(cfg, run, steps, i + 1, j);
      assert false;
    }
    q :| i < q < j && steps[q].StartPeriodic?;
    StartsRun(cfg, run, steps, q);
  }
}
