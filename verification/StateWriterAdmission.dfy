/**
 * What enqueue and drain do to the queue of the state writer, in every run and in terms of
 * the queue's contents alone (internal/action/statewriter.go).
 */
module StateWriterAdmission {
  import opened Common
  import opened StateChanges
  import opened StateWriters
  import opened StateWriterRuns

  /** The change updates a subject row. */
  predicate UpdatesRow(c: Change) {
    c.updateSubject && !c.shadow
  }

  /** c is the newest of its class in the queue n, which otherwise holds what these lists hold. */
  predicate Appended(lifecycle: seq<Change>, events: seq<Change>, c: Change, n: Queue) {
    && n.lifecycle == (if UpdatesRow(c) then lifecycle + [c] else lifecycle)
    && n.events == (if UpdatesRow(c) then events else events + [c])
    && n.queued == |n.lifecycle| + |n.events|
  }

  predicate SameQueue(q: Queue, n: Queue) {
    n.lifecycle == q.lifecycle && n.events == q.events && n.queued == q.queued
  }

  predicate NothingLost(s: State, n: State) {
    && n.lost == s.lost && n.spills == s.spills && n.uncounted == s.uncounted
    && n.uncountedSpills == s.uncountedSpills
  }

  /** c is given up: it counts as lost, and as spilled when it makes room or finds none. */
  predicate GivesUp(s: State, n: State, c: Change, spilled: bool) {
    && n.lost == s.lost + [c] && n.uncounted == s.uncounted + 1
    && n.spills == (if spilled then s.spills + [c] else s.spills)
    && n.uncountedSpills == (if spilled then s.uncountedSpills + 1 else s.uncountedSpills)
  }

  /** With room the change is accepted: it is the last of its class and nobody loses anything. */
  lemma RoomMeansAccepted(cfg: Config, run: seq<State>, steps: seq<Step>, i: nat, c: Change)
    requires IsRun(cfg, run, steps) && i < |steps| && steps[i] == Try(c)
    requires |run[i].q.lifecycle| + |run[i].q.events| < cfg.capacity
    ensures Appended(run[i].q.lifecycle, run[i].q.events, c, run[i + 1].q)
    ensures NothingLost(run[i], run[i + 1]) && run[i + 1].callers == run[i].callers - {c}
    ensures run[i + 1].q.waiters == run[i].q.waiters && run[i + 1].q.generation == run[i].q.generation
  {
    assert run[i + 1] == Do(cfg, run[i], steps[i]);
  }

  /**
   * Without room: the oldest event makes room when there is one; otherwise an event is given
   * up itself, and a lifecycle change waits, unless the writer is closed.
   */
  lemma FullQueueOutcome(cfg: Config, run: seq<State>, steps: seq<Step>, i: nat, c: Change)
    requires IsRun(cfg, run, steps) && i < |steps| && steps[i] == Try(c)
    requires |run[i].q.lifecycle| + |run[i].q.events| >= cfg.capacity
    ensures |run[i].q.lifecycle| + |run[i].q.events| == cfg.capacity
    ensures var s, n := run[i], run[i + 1];
            if s.q.events != [] then
              && Appended(s.q.lifecycle, s.q.events[1..], c, n.q) && GivesUp(s, n, s.q.events[0], true)
              && n.callers == s.callers - {c}
            else if !UpdatesRow(c) then
              SameQueue(s.q, n.q) && GivesUp(s, n, c, true) && n.callers == s.callers - {c}
            else if s.q.closed then
              SameQueue(s.q, n.q) && GivesUp(s, n, c, false) && n.callers == s.callers - {c}
            else
              && SameQueue(s.q, n.q) && NothingLost(s, n) && n.q.waiters == s.q.waiters + 1
              && n.callers == s.callers[c := Blocked(s.q.generation)]
  {
    RunKeeps(cfg, run, steps, i);
    assert run[i + 1] == Do(cfg, run[i], steps[i]);
  }

  /** Something is lost or somebody has to wait exactly when the queue is full. */
  lemma LossesOnlyWhenFull(cfg: Config, run: seq<State>, steps: seq<Step>, i: nat, c: Change)
    requires IsRun(cfg, run, steps) && i < |steps| && steps[i] == Try(c)
    ensures run[i + 1].lost != run[i].lost || c in run[i + 1].callers <==>
            |run[i].q.lifecycle| + |run[i].q.events| == cfg.capacity
  {
    RunKeeps(cfg, run, steps, i);
    if |run[i].q.lifecycle| + |run[i].q.events| < cfg.capacity {
      RoomMeansAccepted(cfg, run, steps, i, c);
    } else {
      FullQueueOutcome(cfg, run, steps, i, c);
    }
  }

  /** No other step of a run touches an enqueuer's change or loses one, but a wait that was given up. */
  lemma LossesHaveReasons(cfg: Config, run: seq<State>, steps: seq<Step>, i: nat)
    requires IsRun(cfg, run, steps) && i < |steps| && run[i + 1].lost != run[i].lost
    ensures steps[i].Try? || (steps[i].Leave? && run[i].callers[steps[i].c] == Leaving(true))
  {
    assert run[i + 1] == Do(cfg, run[i], steps[i]);
  }

  /** l changes leave the front of the one list and e the front of the other. */
  predicate TakesFront(q: Queue, n: Queue, l: nat, e: nat, batch: seq<Change>) {
    && l <= |q.lifecycle| && e <= |q.events|
    && batch == q.lifecycle[..l] + q.events[..e]
    && n.lifecycle == q.lifecycle[l..] && n.events == q.events[e..]
  }

  /**
   * A flush that finds nothing kept takes as many changes as a batch holds, the oldest ones,
   * and events only once no lifecycle change is left.
   */
  lemma FlushTakesOldest(cfg: Config, run: seq<State>, steps: seq<Step>, i: nat) returns (l: nat, e: nat)
    requires IsRun(cfg, run, steps) && i < |steps| && steps[i] == FlushTake && run[i].carry == []
    ensures TakesFront(run[i].q, run[i + 1].q, l, e, InHand(run[i + 1].flush))
    ensures l + e == cfg.batchSize || (run[i + 1].q.lifecycle == [] && run[i + 1].q.events == [])
    ensures l + e <= cfg.batchSize && (e > 0 ==> run[i + 1].q.lifecycle == [])
    ensures run[i + 1].q.queued == |run[i + 1].q.lifecycle| + |run[i + 1].q.events|
    ensures run[i + 1].flush.Idle? <==> InHand(run[i + 1].flush) == []
  {
    RunKeeps(cfg, run, steps, i);
    var q := run[i].q;
    var n := Min(cfg.batchSize, Length(q));
    l := Min(n, |q.lifecycle|);
    e := n - l;
    assert run[i + 1] == Do(cfg, run[i], steps[i]);
  }

  /** A kept batch is taken before anything is drained. */
  lemma CarryGoesFirst(cfg: Config, run: seq<State>, steps: seq<Step>, i: nat)
    requires IsRun(cfg, run, steps) && i < |steps| && steps[i] == FlushTake && run[i].carry != []
    ensures run[i + 1].flush.Writing? && InHand(run[i + 1].flush) == run[i].carry && run[i + 1].carry == []
    ensures run[i + 1].q == run[i].q
  {
    assert run[i + 1] == Do(cfg, run[i], steps[i]);
  }

  /** How a wait ends: it was woken and tries again, or it was given up and the change is lost and counted. */
  lemma LeaveOutcome(cfg: Config, run: seq<State>, steps: seq<Step>, i: nat, c: Change)
    requires IsRun(cfg, run, steps) && i < |steps| && steps[i] == Leave(c)
    ensures var s, n := run[i], run[i + 1];
            && SameQueue(s.q, n.q) && n.q.waiters + 1 == s.q.waiters
            && if s.callers[c] == Leaving(true) then GivesUp(s, n, c, false) && n.callers == s.callers - {c}
               else NothingLost(s, n) && n.callers == s.callers[c := Trying]
  {
    assert run[i + 1] == Do(cfg, run[i], steps[i]);
  }

  /** A blocked call leaves because the channel it waits on was closed, or because it gave up. */
  lemma UnblockedBy(cfg: Config, run: seq<State>, steps: seq<Step>, i: nat, c: Change)
    requires IsRun(cfg, run, steps) && i < |steps| && c in run[i].callers && run[i].callers[c].Blocked?
    requires c in run[i + 1].callers ==> run[i + 1].callers[c] != run[i].callers[c]
    ensures c in run[i + 1].callers
    ensures || (steps[i] == GiveUp(c) && run[i + 1].callers[c] == Leaving(true))
            || (steps[i] == Wake(c) && run[i + 1].callers[c] == Leaving(false)
                && run[i].callers[c].generation < run[i].q.generation)
  {
    EveryChangeInOnePlace(cfg, run, steps, i, c);
    assert run[i + 1] == Do(cfg, run[i], steps[i]);
  }
}
