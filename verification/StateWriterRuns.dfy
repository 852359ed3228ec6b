/**
 * Every interleaving of enqueuers, flushes and shutdown of the state writer.
 *
 * A step is one critical section, one channel operation or one database
 * transaction of the source; callers, the flush and the database interleave
 * freely. History variables (arrived, accepted, settled, lost, spills,
 * committed) record what happened and influence nothing.
 */
module StateWriterRuns {
  import opened Common
  import opened Salvaging
  import opened StateChanges
  import opened StateWriters

  /** Where a call of enqueue stands, until its change is accepted or lost. */
  datatype Caller =
    | Trying
    | Blocked(generation: nat)
    | Leaving(failed: bool)

  /** Where the flush holding flushMu stands. */
  datatype Flush =
    | Idle
    | Looping
    | Writing(batch: seq<Change>, attempt: nat)
    | Splitting(stack: seq<seq<Change>>)

  /** How one attempt of writeWithRetry ends; `canceled` says whether ctx has ended by then. */
  datatype Attempt =
    | AttemptCommitted
    | AttemptCanceled
    | AttemptUnavailable(applied: bool)
    | AttemptDataError(canceled: bool)
    | AttemptMissingPartition(canceled: bool)
    | AttemptOther(canceled: bool)

  datatype State = State(
    q: Queue,
    callers: map<Change, Caller>,
    flush: Flush,
    carry: seq<Change>, carried: nat,
    written: nat, dropped: nat, spilled: nat,
    uncounted: nat, uncountedSpills: nat,
    arrived: set<Change>,
    accepted: seq<Change>,
    settled: seq<Settled<Change>>,
    lost: seq<Change>,
    spills: seq<Change>,
    committed: seq<seq<Change>>)

  datatype Step =
    | Arrive(c: Change)
    | Try(c: Change)
    | Wake(c: Change)
    | GiveUp(c: Change)
    | Leave(c: Change)
    | CountLoss(spill: bool)
    | Open
    | Close
    | FlushBegin
    | FlushStop
    | FlushTake
    | WriteAttempt(result: Attempt)
    | SplitTurn(canceled: bool, outcome: Outcome, applied: bool)

  function Initial(): State {
    State(Queue([], [], 0, 0, false, 0), map[], Idle, [], 0, 0, 0, 0, 0, 0, {}, [], [], [], [], [])
  }

  function InHand(f: Flush): seq<Change> {
    match f
    case Writing(batch, _) => batch
    case Splitting(stack) => Flatten(stack)
    case _ => []
  }

  function CountWritten(s: seq<Settled<Change>>): (n: nat)
    ensures n <= |s|
  {
    if s == [] then 0 else CountWritten(s[..|s| - 1]) + if s[|s| - 1].written then 1 else 0
  }

  /** The lifecycle changes of a sequence, in order. */
  function Life(s: seq<Change>): seq<Change> {
    if s == [] then [] else
      var before := Life(s[..|s| - 1]);
      if s[|s| - 1].Lifecycle() then before + [s[|s| - 1]] else before
  }

  // --------------------------------------------------------------- transitions

  predicate Enabled(cfg: Config, s: State, step: Step) {
    match step
    case Arrive(c) => c !in s.arrived
    case Try(c) => c in s.callers && s.callers[c].Trying?
    case Wake(c) => c in s.callers && s.callers[c].Blocked? && s.callers[c].generation < s.q.generation
    case GiveUp(c) => c in s.callers && s.callers[c].Blocked?
    case Leave(c) => c in s.callers && s.callers[c].Leaving? && s.q.waiters > 0
    case CountLoss(spill) => s.uncounted > 0 && (spill ==> s.uncountedSpills > 0)
                             && (!spill ==> s.uncounted > s.uncountedSpills)
    case Open => true
    case Close => true
    case FlushBegin => s.flush.Idle?
    case FlushStop => s.flush.Looping?
    case FlushTake => s.flush.Looping?
    case WriteAttempt(_) => s.flush.Writing?
    case SplitTurn(canceled, outcome, applied) =>
      && s.flush.Splitting? && s.flush.stack != []
      && (applied ==> outcome == Unavailable && !(canceled && |s.flush.stack[|s.flush.stack| - 1]| > 1))
  }

  /** The calls in progress after decision d for c. */
  function CallersAfter(q: Queue, d: Decision, c: Change, callers: map<Change, Caller>): map<Change, Caller> {
    if d.MustWait? then callers[c := Blocked(q.generation)] else callers - {c}
  }

  /** What decision d for c loses: the oldest event, or c itself. */
  function LostBy(d: Decision, c: Change): seq<Change> {
    match d
    case AcceptedSpilling(victim) => [victim]
    case SpilledItself => [c]
    case RefusedClosed => [c]
    case _ => []
  }

  function SpilledBy(d: Decision, c: Change): seq<Change> {
    if d.RefusedClosed? then [] else LostBy(d, c)
  }

  function AcceptedBy(d: Decision, c: Change): seq<Change> {
    if d.Accepted? || d.AcceptedSpilling? then Life([c]) else []
  }

  /** One pass under mu; the caller counts a loss after unlocking (CountLoss). */
  function DoTry(cfg: Config, s: State, c: Change): State {
    var d := Decide(s.q, cfg.capacity, c);
    s.(q := AfterTry(s.q, cfg.capacity, c),
       callers := CallersAfter(s.q, d, c, s.callers),
       accepted := s.accepted + AcceptedBy(d, c),
       lost := s.lost + LostBy(d, c), uncounted := s.uncounted + |LostBy(d, c)|,
       spills := s.spills + SpilledBy(d, c), uncountedSpills := s.uncountedSpills + |SpilledBy(d, c)|)
  }

  /** waiters-- after the wait; a failed wait drops the change. */
  function DoLeave(s: State, c: Change): State
    requires c in s.callers && s.callers[c].Leaving? && s.q.waiters > 0
  {
    var n := s.(q := s.q.(waiters := s.q.waiters - 1));
    if s.callers[c].failed then
      n.(callers := s.callers - {c}, lost := s.lost + [c], uncounted := s.uncounted + 1)
    else
      n.(callers := s.callers[c := Trying])
  }

  function KeepCarry(s: State, batch: seq<Change>): State {
    s.(carry := batch, carried := |batch|, flush := Idle)
  }

  function SettleAll(s: State, part: seq<Settled<Change>>): State {
    s.(settled := s.settled + part, written := s.written + CountWritten(part),
       dropped := s.dropped + |part| - CountWritten(part))
  }

  /** takeCarry, or drain when nothing was kept. */
  function DoTake(cfg: Config, s: State): State {
    if s.carry != [] then s.(carry := [], carried := 0, flush := Writing(s.carry, 1))
    else
      var batch := NextBatch(s.q, cfg.batchSize);
      s.(q := AfterDrain(s.q, cfg.batchSize), carried := 0,
         flush := if batch == [] then Idle else Writing(batch, 1))
  }

  function DoAttempt(cfg: Config, s: State, result: Attempt): State
    requires s.flush.Writing?
  {
    var batch := s.flush.batch;
    match result
    case AttemptCommitted =>
      SettleAll(s, Settle(batch, true)).(committed := s.committed + [batch], flush := Looping)
    case AttemptCanceled => KeepCarry(s, batch)
    case AttemptUnavailable(applied) =>
      KeepCarry(s.(committed := if applied then s.committed + [batch] else s.committed), batch)
    case AttemptDataError(canceled) =>
      if canceled then KeepCarry(s, batch) else s.(flush := Splitting([batch]))
    case AttemptMissingPartition(canceled) =>
      if canceled then KeepCarry(s, batch)
      else if s.flush.attempt < cfg.maxAttempts then s.(flush := Writing(batch, s.flush.attempt + 1))
      else s.(flush := Splitting([batch]))
    case AttemptOther(canceled) =>
      if canceled then KeepCarry(s, batch)
      else if s.flush.attempt < cfg.maxAttempts then s.(flush := Writing(batch, s.flush.attempt + 1))
      else SettleAll(s, Settle(batch, false)).(flush := Looping)
  }

  function DoSplit(s: State, canceled: bool, outcome: Outcome, applied: bool): State
    requires s.flush.Splitting? && s.flush.stack != []
  {
    var tried := Attempted(s.flush.stack);
    match NextTurn(s.flush.stack, canceled, outcome)
    case Interrupted(rest) =>
      KeepCarry(s.(committed := if applied then s.committed + [tried] else s.committed), rest)
    case Continue(stack, settled) =>
      SettleAll(s, settled).(
        committed := if outcome == Committed then s.committed + [tried] else s.committed,
        flush := if stack == [] then Looping else Splitting(stack))
  }

  function Do(cfg: Config, s: State, step: Step): State
    requires Enabled(cfg, s, step)
  {
    match step
    case Arrive(c) => s.(arrived := s.arrived + {c}, callers := s.callers[c := Trying])
    case Try(c) => DoTry(cfg, s, c)
    case Wake(c) => s.(callers := s.callers[c := Leaving(false)])
    case GiveUp(c) => s.(callers := s.callers[c := Leaving(true)])
    case Leave(c) => DoLeave(s, c)
    case CountLoss(spill) =>
      s.(dropped := s.dropped + 1, uncounted := s.uncounted - 1,
         spilled := if spill then s.spilled + 1 else s.spilled,
         uncountedSpills := if spill then s.uncountedSpills - 1 else s.uncountedSpills)
    case Open => s.(q := Opened(s.q))
    case Close => s.(q := Closed(s.q))
    case FlushBegin => s.(flush := Looping)
    case FlushStop => s.(flush := Idle)
    case FlushTake => DoTake(cfg, s)
    case WriteAttempt(result) => DoAttempt(cfg, s, result)
    case SplitTurn(canceled, outcome, applied) => DoSplit(s, canceled, outcome, applied)
  }

  // ---------------------------------------------------------------- invariants

  /** The calls that waiters counts. */
  ghost function Counted(callers: map<Change, Caller>): set<Change> {
    set c | c in callers && !callers[c].Trying?
  }

  ghost predicate QueueShape(cfg: Config, q: Queue) {
    && q.queued == Length(q) <= cfg.capacity
    && (forall c :: c in q.lifecycle ==> c.Lifecycle())
    && (forall c :: c in q.events ==> !c.Lifecycle())
  }

  /** A kept batch is never overwritten: nothing is kept while a batch is in hand. */
  ghost predicate FlushShape(f: Flush, carry: seq<Change>, carried: nat) {
    && carried == |carry|
    && (InHand(f) != [] ==> carry == [])
    && (f.Splitting? ==> f.stack != [] && NonEmptyParts(f.stack))
    && (f.Writing? ==> f.batch != [])
  }

  /** Written counts the written changes; Dropped and Spilled the lost ones, once counted. */
  ghost predicate CountersMatch(settled: seq<Settled<Change>>, written: nat, dropped: nat, uncounted: nat, lost: nat,
                                spilled: nat, uncountedSpills: nat, spills: nat) {
    && written == CountWritten(settled)
    && dropped + uncounted == lost + |settled| - CountWritten(settled)
    && spilled + uncountedSpills == spills
    && uncountedSpills <= uncounted
  }

  ghost predicate OnlyEventsSpilled(spills: seq<Change>) {
    forall c :: c in spills ==> !c.Lifecycle()
  }

  /** A call blocked on the open channel found the queue full of lifecycle changes, and it still is. */
  ghost predicate NoLostWakeup(cfg: Config, q: Queue, callers: map<Change, Caller>) {
    && q.waiters == |Counted(callers)|
    && (forall c :: c in callers && callers[c].Blocked? ==>
          && callers[c].generation <= q.generation
          && (callers[c].generation == q.generation ==>
                !q.closed && q.events == [] && |q.lifecycle| == cfg.capacity))
  }

  ghost function InQueue(q: Queue): multiset<Change> {
    multiset(q.lifecycle) + multiset(q.events)
  }

  /** Every change that arrived is in exactly one place. */
  ghost predicate Conserved(callers: map<Change, Caller>, q: Queue, hand: seq<Change>, carry: seq<Change>,
                            settled: seq<Change>, lost: seq<Change>, arrived: set<Change>) {
    multiset(callers.Keys) + InQueue(q) + (multiset(hand) + multiset(carry)) + (multiset(settled) + multiset(lost))
    == multiset(arrived)
  }

  /** Lifecycle changes settled, in hand, kept and queued are the accepted ones, in their order. */
  ghost predicate Ordered(accepted: seq<Change>, settled: seq<Change>, hand: seq<Change>, carry: seq<Change>,
                          queued: seq<Change>) {
    accepted == Life(settled) + Life(hand) + Life(carry) + queued
  }

  ghost predicate IsCommitted(committed: seq<seq<Change>>, c: Change) {
    exists i :: 0 <= i < |committed| && c in committed[i]
  }

  ghost predicate Durable(settled: seq<Settled<Change>>, committed: seq<seq<Change>>) {
    forall i :: 0 <= i < |settled| && settled[i].written ==> IsCommitted(committed, settled[i].change)
  }

  ghost predicate Inv(cfg: Config, s: State) {
    && QueueShape(cfg, s.q)
    && FlushShape(s.flush, s.carry, s.carried)
    && CountersMatch(s.settled, s.written, s.dropped, s.uncounted, |s.lost|, s.spilled, s.uncountedSpills, |s.spills|)
    && OnlyEventsSpilled(s.spills)
    && NoLostWakeup(cfg, s.q, s.callers)
    && Conserved(s.callers, s.q, InHand(s.flush), s.carry, Changes(s.settled), s.lost, s.arrived)
    && Ordered(s.accepted, Changes(s.settled), InHand(s.flush), s.carry, s.q.lifecycle)
    && Durable(s.settled, s.committed)
  }

  // -------------------------------------------------------------- small lemmas

  lemma {:induction false} LifeAppend(a: seq<Change>, b: seq<Change>)
    ensures Life(a + b) == Life(a) + Life(b)
  {
    if b == [] {
      assert a + b == a;
    } else {
      LifeAppend(a, b[..|b| - 1]);
      assert (a + b)[..|a + b| - 1] == a + b[..|b| - 1];
    }
  }

  lemma {:induction false} LifeOfLifecycle(a: seq<Change>)
    requires forall c :: c in a ==> c.Lifecycle()
    ensures Life(a) == a
  {
    if a != [] {
      LifeOfLifecycle(a[..|a| - 1]);
      assert a[|a| - 1] in a;
    }
  }

  lemma {:induction false} LifeOfEvents(a: seq<Change>)
    requires forall c :: c in a ==> !c.Lifecycle()
    ensures Life(a) == []
  {
    if a != [] {
      LifeOfEvents(a[..|a| - 1]);
      assert a[|a| - 1] in a;
    }
  }

  lemma CountWrittenAppend(a: seq<Settled<Change>>, b: seq<Settled<Change>>)
    ensures CountWritten(a + b) == CountWritten(a) + CountWritten(b)
  {
    if b == [] {
      assert a + b == a;
    } else {
      CountWrittenAppend(a, b[..|b| - 1]);
      assert (a + b)[..|a + b| - 1] == a + b[..|b| - 1];
    }
  }

  lemma RemoveKey(callers: map<Change, Caller>, c: Change)
    requires c in callers
    ensures multiset(callers.Keys) == multiset((callers - {c}).Keys) + multiset{c}
  {
    assert callers.Keys == (callers - {c}).Keys + {c};
  }

  lemma SplitFirst(s: seq<Change>)
    requires s != []
    ensures multiset(s) == multiset{s[0]} + multiset(s[1..])
  {
    assert s == [s[0]] + s[1..];
  }

  // ------------------------------------------------- one pass under mu (enqueue)

  lemma TryKeepsQueue(cfg: Config, q: Queue, c: Change)
    requires QueueShape(cfg, q)
    ensures QueueShape(cfg, AfterTry(q, cfg.capacity, c))
    ensures OnlyEventsSpilled(SpilledBy(Decide(q, cfg.capacity, c), c))
  {
    if q.events != [] {
      assert forall x :: x in q.events[1..] ==> x in q.events;
    }
  }

  lemma TryKeepsWaiters(cfg: Config, q: Queue, callers: map<Change, Caller>, c: Change)
    requires q.queued == Length(q) <= cfg.capacity && NoLostWakeup(cfg, q, callers)
    requires c in callers && callers[c].Trying?
    ensures NoLostWakeup(cfg, AfterTry(q, cfg.capacity, c), CallersAfter(q, Decide(q, cfg.capacity, c), c, callers))
  {
    var n := CallersAfter(q, Decide(q, cfg.capacity, c), c, callers);
    if Decide(q, cfg.capacity, c) == MustWait {
      assert Counted(n) == Counted(callers) + {c};
    } else {
      assert Counted(n) == Counted(callers);
    }
  }

  lemma PushMoves(q: Queue, c: Change)
    ensures InQueue(Pushed(q, c)) == InQueue(q) + multiset{c}
    ensures Pushed(q, c).lifecycle == q.lifecycle + Life([c])
  {
    assert Life([c]) == if c.Lifecycle() then [c] else [];
  }

  /** The queue grows by what was accepted. */
  lemma TryAccepts(q: Queue, d: Decision, c: Change)
    requires d.AcceptedSpilling? ==> q.events != [] && d.victim == q.events[0]
    ensures AfterDecision(q, d, c).lifecycle == q.lifecycle + AcceptedBy(d, c)
  {
    if d.Accepted? {
      PushMoves(q, c);
    } else if d.AcceptedSpilling? {
      PushMoves(q.(events := q.events[1..]), c);
    }
  }

  lemma SpillMoves(q: Queue, c: Change)
    requires q.events != []
    ensures InQueue(q) + multiset{c} == InQueue(Pushed(q.(events := q.events[1..]), c)) + multiset{q.events[0]}
  {
    var rest := q.(events := q.events[1..]);
    SplitFirst(q.events);
    assert InQueue(q) == InQueue(rest) + multiset{q.events[0]};
    PushMoves(rest, c);
  }

  /** What a decision takes from the callers: the change, unless it has to wait. */
  function TakenBy(d: Decision, c: Change): multiset<Change> {
    if d.MustWait? then multiset{} else multiset{c}
  }

  lemma CallersMove(q: Queue, callers: map<Change, Caller>, d: Decision, c: Change)
    requires c in callers
    ensures multiset(callers.Keys) == multiset(CallersAfter(q, d, c, callers).Keys) + TakenBy(d, c)
  {
    if d.MustWait? {
      assert callers[c := Blocked(q.generation)].Keys == callers.Keys;
    } else {
      RemoveKey(callers, c);
    }
  }

  lemma QueueMoves(q: Queue, d: Decision, c: Change)
    requires d.AcceptedSpilling? ==> q.events != [] && d.victim == q.events[0]
    ensures InQueue(q) + TakenBy(d, c) == InQueue(AfterDecision(q, d, c)) + multiset(LostBy(d, c))
  {
    match d
    case Accepted => PushMoves(q, c);
    case AcceptedSpilling(_) => SpillMoves(q, c);
    case _ =>
  }

  lemma Combine(a: multiset<Change>, b: multiset<Change>, a': multiset<Change>, b': multiset<Change>,
                taken: multiset<Change>, lost: multiset<Change>)
    requires a == a' + taken && b + taken == b' + lost
    ensures a + b == a' + b' + lost
  {
    assert a + b == a' + (b + taken);
  }

  /** Whatever is decided, the caller's change and the queued ones stay accounted for. */
  lemma TryMoves(q: Queue, callers: map<Change, Caller>, d: Decision, c: Change)
    requires c in callers
    requires d.AcceptedSpilling? ==> q.events != [] && d.victim == q.events[0]
    ensures multiset(callers.Keys) + InQueue(q)
            == multiset(CallersAfter(q, d, c, callers).Keys) + InQueue(AfterDecision(q, d, c)) + multiset(LostBy(d, c))
  {
    CallersMove(q, callers, d, c);
    QueueMoves(q, d, c);
    Combine(multiset(callers.Keys), InQueue(q), multiset(CallersAfter(q, d, c, callers).Keys),
            InQueue(AfterDecision(q, d, c)), TakenBy(d, c), multiset(LostBy(d, c)));
  }

  lemma Regroup(a: multiset<Change>, b: multiset<Change>, c: multiset<Change>, d: multiset<Change>, e: multiset<Change>,
                a': multiset<Change>, b': multiset<Change>, gone: multiset<Change>)
    requires a + b == a' + b' + gone
    ensures a + b + c + (d + e) == a' + b' + c + (d + (e + gone))
  {
  }

  lemma TryConserves(s: State, d: Decision, c: Change)
    requires Conserved(s.callers, s.q, InHand(s.flush), s.carry, Changes(s.settled), s.lost, s.arrived)
    requires c in s.callers
    requires d.AcceptedSpilling? ==> s.q.events != [] && d.victim == s.q.events[0]
    ensures Conserved(CallersAfter(s.q, d, c, s.callers), AfterDecision(s.q, d, c), InHand(s.flush), s.carry,
                      Changes(s.settled), s.lost + LostBy(d, c), s.arrived)
  {
    TryMoves(s.q, s.callers, d, c);
    Regroup(multiset(s.callers.Keys), InQueue(s.q), multiset(InHand(s.flush)) + multiset(s.carry),
            multiset(Changes(s.settled)), multiset(s.lost),
            multiset(CallersAfter(s.q, d, c, s.callers).Keys), InQueue(AfterDecision(s.q, d, c)),
            multiset(LostBy(d, c)));
  }

  lemma OrderedAfter(accepted: seq<Change>, settled: seq<Change>, hand: seq<Change>, carry: seq<Change>,
                     queued: seq<Change>, more: seq<Change>)
    requires Ordered(accepted, settled, hand, carry, queued)
    ensures Ordered(accepted + more, settled, hand, carry, queued + more)
  {
    var before := Life(settled) + Life(hand) + Life(carry);
    assert before + queued + more == before + (queued + more);
  }

  lemma TryOrdered(s: State, d: Decision, c: Change)
    requires Ordered(s.accepted, Changes(s.settled), InHand(s.flush), s.carry, s.q.lifecycle)
    requires d.AcceptedSpilling? ==> s.q.events != [] && d.victim == s.q.events[0]
    ensures Ordered(s.accepted + AcceptedBy(d, c), Changes(s.settled), InHand(s.flush), s.carry,
                    AfterDecision(s.q, d, c).lifecycle)
  {
    TryAccepts(s.q, d, c);
    OrderedAfter(s.accepted, Changes(s.settled), InHand(s.flush), s.carry, s.q.lifecycle, AcceptedBy(d, c));
  }

  lemma TryKeeps(cfg: Config, s: State, c: Change)
    requires Inv(cfg, s) && Enabled(cfg, s, Try(c))
    ensures Inv(cfg, DoTry(cfg, s, c))
  {
    var d := Decide(s.q, cfg.capacity, c);
    TryKeepsQueue(cfg, s.q, c);
    TryKeepsWaiters(cfg, s.q, s.callers, c);
    TryConserves(s, d, c);
    TryOrdered(s, d, c);
  }

  // ------------------------------------------------------- waiting and arriving

  lemma ArriveKeepsWaiters(cfg: Config, q: Queue, callers: map<Change, Caller>, c: Change)
    requires NoLostWakeup(cfg, q, callers) && c !in callers
    ensures NoLostWakeup(cfg, q, callers[c := Trying])
  {
    assert Counted(callers[c := Trying]) == Counted(callers);
  }

  lemma ArriveKeeps(cfg: Config, s: State, c: Change)
    requires Inv(cfg, s) && Enabled(cfg, s, Arrive(c))
    ensures Inv(cfg, Do(cfg, s, Arrive(c)))
  {
    assert multiset(s.arrived)[c] == 0;
    assert multiset(s.callers.Keys)[c] == 0;
    ArriveKeepsWaiters(cfg, s.q, s.callers, c);
    RemoveKey(s.callers[c := Trying], c);
    assert s.callers[c := Trying] - {c} == s.callers;
    assert multiset(s.arrived + {c}) == multiset(s.arrived) + multiset{c};
  }

  /** Wake and GiveUp: a blocked call starts leaving and is still counted. */
  lemma UnblockKeeps(cfg: Config, s: State, c: Change, failed: bool)
    requires Inv(cfg, s) && c in s.callers && s.callers[c].Blocked?
    ensures Inv(cfg, s.(callers := s.callers[c := Leaving(failed)]))
  {
    var n := s.callers[c := Leaving(failed)];
    assert n.Keys == s.callers.Keys;
    assert NoLostWakeup(cfg, s.q, n) by {
      assert Counted(n) == Counted(s.callers);
    }
  }

  lemma LeaveKeepsWaiters(cfg: Config, q: Queue, callers: map<Change, Caller>, c: Change, n: map<Change, Caller>)
    requires NoLostWakeup(cfg, q, callers) && q.waiters > 0
    requires c in callers && callers[c].Leaving?
    requires n == callers - {c} || n == callers[c := Trying]
    ensures NoLostWakeup(cfg, q.(waiters := q.waiters - 1), n)
  {
    assert Counted(n) == Counted(callers) - {c};
  }

  lemma LeaveKeeps(cfg: Config, s: State, c: Change)
    requires Inv(cfg, s) && Enabled(cfg, s, Leave(c))
    ensures Inv(cfg, DoLeave(s, c))
  {
    var n := DoLeave(s, c);
    LeaveKeepsWaiters(cfg, s.q, s.callers, c, n.callers);
    if s.callers[c].failed {
      RemoveKey(s.callers, c);
    } else {
      assert n.callers.Keys == s.callers.Keys;
    }
  }

  // ------------------------------------------------------------------- flushing

  lemma DrainMoves(q: Queue, batchSize: nat)
    ensures InQueue(q) == InQueue(AfterDrain(q, batchSize)) + multiset(NextBatch(q, batchSize))
  {
    var n := Min(batchSize, Length(q));
    var a := Min(n, |q.lifecycle|);
    assert q.lifecycle == q.lifecycle[..a] + q.lifecycle[a..];
    assert q.events == q.events[..n - a] + q.events[n - a..];
  }

  lemma DrainKeepsQueue(cfg: Config, q: Queue, batchSize: nat)
    requires QueueShape(cfg, q)
    ensures QueueShape(cfg, AfterDrain(q, batchSize))
  {
  }

  /** Lifecycle changes leave the queue first and in order. */
  lemma DrainOrder(q: Queue, batchSize: nat)
    requires forall c :: c in q.lifecycle ==> c.Lifecycle()
    requires forall c :: c in q.events ==> !c.Lifecycle()
    ensures q.lifecycle == Life(NextBatch(q, batchSize)) + AfterDrain(q, batchSize).lifecycle
  {
    var n := Min(batchSize, Length(q));
    var a := Min(n, |q.lifecycle|);
    var first, second := q.lifecycle[..a], q.events[..n - a];
    assert q.lifecycle == first + q.lifecycle[a..];
    assert NextBatch(q, batchSize) == first + second;
    assert Life(first + second) == first by {
      LifeAppend(first, second);
      LifeOfLifecycle(first);
      LifeOfEvents(second);
    }
  }

  /** A drain that frees a slot while somebody waits replaces the channel. */
  lemma DrainKeepsWaiters(cfg: Config, q: Queue, callers: map<Change, Caller>, batchSize: nat)
    requires NoLostWakeup(cfg, q, callers)
    ensures NoLostWakeup(cfg, AfterDrain(q, batchSize), callers)
  {
    var n := AfterDrain(q, batchSize);
    forall c | c in callers && callers[c].Blocked?
      ensures callers[c].generation <= n.generation
      ensures callers[c].generation == n.generation ==> n == q
    {
      assert c in Counted(callers);
    }
  }

  lemma DrainConserves(cfg: Config, s: State)
    requires Conserved(s.callers, s.q, [], [], Changes(s.settled), s.lost, s.arrived)
    ensures Conserved(s.callers, AfterDrain(s.q, cfg.batchSize), NextBatch(s.q, cfg.batchSize), [],
                      Changes(s.settled), s.lost, s.arrived)
  {
    DrainMoves(s.q, cfg.batchSize);
  }

  lemma DrainOrdered(cfg: Config, s: State)
    requires QueueShape(cfg, s.q) && Ordered(s.accepted, Changes(s.settled), [], [], s.q.lifecycle)
    ensures Ordered(s.accepted, Changes(s.settled), NextBatch(s.q, cfg.batchSize), [],
                    AfterDrain(s.q, cfg.batchSize).lifecycle)
  {
    DrainOrder(s.q, cfg.batchSize);
  }

  lemma TakeKeeps(cfg: Config, s: State)
    requires Inv(cfg, s) && Enabled(cfg, s, FlushTake)
    ensures Inv(cfg, DoTake(cfg, s))
  {
    if s.carry == [] {
      DrainConserves(cfg, s);
      DrainOrdered(cfg, s);
      DrainKeepsQueue(cfg, s.q, cfg.batchSize);
      DrainKeepsWaiters(cfg, s.q, s.callers, cfg.batchSize);
      assert InHand(DoTake(cfg, s).flush) == NextBatch(s.q, cfg.batchSize);
    }
  }

  lemma DurableGrows(settled: seq<Settled<Change>>, committed: seq<seq<Change>>, more: seq<seq<Change>>)
    requires Durable(settled, committed) && committed <= more
    ensures Durable(settled, more)
  {
    forall i | 0 <= i < |settled| && settled[i].written
      ensures IsCommitted(more, settled[i].change)
    {
      assert IsCommitted(committed, settled[i].change);
      var j :| 0 <= j < |committed| && settled[i].change in committed[j];
      assert more[j] == committed[j];
    }
  }

  lemma SettleConserves(s: State, part: seq<Settled<Change>>, rest: seq<Change>)
    requires Conserved(s.callers, s.q, Changes(part) + rest, [], Changes(s.settled), s.lost, s.arrived)
    ensures Conserved(s.callers, s.q, rest, [], Changes(s.settled + part), s.lost, s.arrived)
  {
    ChangesAppend(s.settled, part);
  }

  lemma SettleOrdered(s: State, part: seq<Settled<Change>>, rest: seq<Change>)
    requires Ordered(s.accepted, Changes(s.settled), Changes(part) + rest, [], s.q.lifecycle)
    ensures Ordered(s.accepted, Changes(s.settled + part), rest, [], s.q.lifecycle)
  {
    ChangesAppend(s.settled, part);
    LifeAppend(Changes(s.settled), Changes(part));
    LifeAppend(Changes(part), rest);
  }

  /** Settling a prefix of what is in hand keeps every account of the changes. */
  lemma SettleKeeps(cfg: Config, s: State, part: seq<Settled<Change>>, committed: seq<seq<Change>>, f: Flush)
    requires Inv(cfg, s) && s.carry == []
    requires InHand(s.flush) == Changes(part) + InHand(f)
    requires FlushShape(f, [], 0)
    requires s.committed <= committed && Durable(part, committed)
    ensures Inv(cfg, SettleAll(s, part).(committed := committed, flush := f))
  {
    CountWrittenAppend(s.settled, part);
    SettleConserves(s, part, InHand(f));
    SettleOrdered(s, part, InHand(f));
    DurableGrows(s.settled, s.committed, committed);
    assert Durable(s.settled + part, committed);
  }

  /** Keeping what is in hand for the next flush moves it, and only it. */
  lemma CarryKeeps(cfg: Config, s: State, committed: seq<seq<Change>>)
    requires Inv(cfg, s) && s.carry == [] && s.committed <= committed
    ensures Inv(cfg, KeepCarry(s.(committed := committed), InHand(s.flush)))
  {
    DurableGrows(s.settled, s.committed, committed);
    assert Life([]) == [];
  }

  lemma SettleDurable(part: seq<Change>, written: bool, committed: seq<seq<Change>>)
    requires written ==> committed != [] && committed[|committed| - 1] == part
    ensures Durable(Settle(part, written), committed)
  {
    forall i | 0 <= i < |part| && written
      ensures IsCommitted(committed, part[i])
    {
      assert part[i] in committed[|committed| - 1];
    }
  }

  lemma FlattenOne(batch: seq<Change>)
    ensures Flatten([batch]) == batch
  {
    FlattenAppend([], batch);
    assert [batch] == [] + [batch];
  }

  lemma CommitKeeps(cfg: Config, s: State)
    requires Inv(cfg, s) && s.flush.Writing?
    ensures Inv(cfg, DoAttempt(cfg, s, AttemptCommitted))
  {
    var batch := s.flush.batch;
    var committed := s.committed + [batch];
    SettleDurable(batch, true, committed);
    SettleKeeps(cfg, s, Settle(batch, true), committed, Looping);
  }

  lemma GiveUpKeeps(cfg: Config, s: State)
    requires Inv(cfg, s) && s.flush.Writing?
    ensures Inv(cfg, SettleAll(s, Settle(s.flush.batch, false)).(flush := Looping))
  {
    var batch := s.flush.batch;
    SettleDurable(batch, false, s.committed);
    SettleKeeps(cfg, s, Settle(batch, false), s.committed, Looping);
  }

  lemma RetryKeeps(cfg: Config, s: State, f: Flush)
    requires Inv(cfg, s) && s.flush.Writing?
    requires f == Splitting([s.flush.batch]) || f == Writing(s.flush.batch, s.flush.attempt + 1)
    ensures Inv(cfg, s.(flush := f))
  {
    FlattenOne(s.flush.batch);
  }

  lemma InterruptedKeeps(cfg: Config, s: State)
    requires Inv(cfg, s) && s.flush.Writing?
    ensures Inv(cfg, KeepCarry(s, s.flush.batch))
  {
    CarryKeeps(cfg, s, s.committed);
    assert s.(committed := s.committed) == s;
  }

  lemma RejectedKeeps(cfg: Config, s: State, result: Attempt)
    requires Inv(cfg, s) && s.flush.Writing? && (result.AttemptDataError? || result.AttemptMissingPartition?)
    ensures Inv(cfg, DoAttempt(cfg, s, result))
  {
    if result.canceled {
      InterruptedKeeps(cfg, s);
    } else if result.AttemptMissingPartition? && s.flush.attempt < cfg.maxAttempts {
      RetryKeeps(cfg, s, Writing(s.flush.batch, s.flush.attempt + 1));
    } else {
      RetryKeeps(cfg, s, Splitting([s.flush.batch]));
    }
  }

  lemma FailedKeeps(cfg: Config, s: State, canceled: bool)
    requires Inv(cfg, s) && s.flush.Writing?
    ensures Inv(cfg, DoAttempt(cfg, s, AttemptOther(canceled)))
  {
    if canceled {
      InterruptedKeeps(cfg, s);
    } else if s.flush.attempt < cfg.maxAttempts {
      RetryKeeps(cfg, s, Writing(s.flush.batch, s.flush.attempt + 1));
    } else {
      GiveUpKeeps(cfg, s);
    }
  }

  lemma AttemptKeeps(cfg: Config, s: State, result: Attempt)
    requires Inv(cfg, s) && Enabled(cfg, s, WriteAttempt(result))
    ensures Inv(cfg, DoAttempt(cfg, s, result))
  {
    match result
    case AttemptCommitted => CommitKeeps(cfg, s);
    case AttemptCanceled => InterruptedKeeps(cfg, s);
    case AttemptUnavailable(applied) =>
      CarryKeeps(cfg, s, if applied then s.committed + [s.flush.batch] else s.committed);
    case AttemptDataError(_) => RejectedKeeps(cfg, s, result);
    case AttemptMissingPartition(_) => RejectedKeeps(cfg, s, result);
    case AttemptOther(canceled) => FailedKeeps(cfg, s, canceled);
  }

  /** What a turn settled as written is the part it committed. */
  lemma TurnDurable(stack: seq<seq<Change>>, canceled: bool, outcome: Outcome, committed: seq<seq<Change>>)
    requires stack != [] && NonEmptyParts(stack)
    requires outcome == Committed ==> committed != [] && committed[|committed| - 1] == Attempted(stack)
    ensures var turn := NextTurn(stack, canceled, outcome);
            turn.Continue? ==> Durable(turn.settled, committed)
  {
    SettleDurable(Attempted(stack), outcome == Committed, committed);
  }

  /** While a batch is being split nothing is kept. */
  lemma SplitHasNoCarry(cfg: Config, s: State)
    requires Inv(cfg, s) && s.flush.Splitting?
    ensures s.carry == []
  {
    TurnConserves(s.flush.stack, true, Unavailable);
  }

  lemma SplitInterruptedKeeps(cfg: Config, s: State, canceled: bool, outcome: Outcome, applied: bool)
    requires Inv(cfg, s) && s.flush.Splitting? && NextTurn(s.flush.stack, canceled, outcome).Interrupted?
    ensures Inv(cfg, DoSplit(s, canceled, outcome, applied))
  {
    TurnConserves(s.flush.stack, canceled, outcome);
    SplitHasNoCarry(cfg, s);
    CarryKeeps(cfg, s, if applied then s.committed + [Attempted(s.flush.stack)] else s.committed);
  }

  lemma SplitContinueKeeps(cfg: Config, s: State, canceled: bool, outcome: Outcome, applied: bool)
    requires Inv(cfg, s) && s.flush.Splitting? && NextTurn(s.flush.stack, canceled, outcome).Continue?
    ensures Inv(cfg, DoSplit(s, canceled, outcome, applied))
  {
    var n, turn := DoSplit(s, canceled, outcome, applied), NextTurn(s.flush.stack, canceled, outcome);
    TurnConserves(s.flush.stack, canceled, outcome);
    SplitHasNoCarry(cfg, s);
    TurnDurable(s.flush.stack, canceled, outcome, n.committed);
    SettleKeeps(cfg, s, turn.settled, n.committed, n.flush);
  }

  lemma SplitKeeps(cfg: Config, s: State, canceled: bool, outcome: Outcome, applied: bool)
    requires Inv(cfg, s) && Enabled(cfg, s, SplitTurn(canceled, outcome, applied))
    ensures Inv(cfg, DoSplit(s, canceled, outcome, applied))
  {
    if NextTurn(s.flush.stack, canceled, outcome).Interrupted? {
      SplitInterruptedKeeps(cfg, s, canceled, outcome, applied);
    } else {
      SplitContinueKeeps(cfg, s, canceled, outcome, applied);
    }
  }

  lemma StepKeeps(cfg: Config, s: State, step: Step)
    requires Inv(cfg, s) && Enabled(cfg, s, step)
    ensures Inv(cfg, Do(cfg, s, step))
  {
    match step
    case Arrive(c) => ArriveKeeps(cfg, s, c);
    case Try(c) => TryKeeps(cfg, s, c);
    case Wake(c) => UnblockKeeps(cfg, s, c, false);
    case GiveUp(c) => UnblockKeeps(cfg, s, c, true);
    case Leave(c) => LeaveKeeps(cfg, s, c);
    case FlushTake => TakeKeeps(cfg, s);
    case WriteAttempt(result) => AttemptKeeps(cfg, s, result);
    case SplitTurn(canceled, outcome, applied) => SplitKeeps(cfg, s, canceled, outcome, applied);
    case _ =>
  }

  // ------------------------------------------------------- theorems on every run

  /** run is an execution from the empty writer taking the given steps. */
  ghost predicate IsRun(cfg: Config, run: seq<State>, steps: seq<Step>) {
    && |run| == |steps| + 1
    && run[0] == Initial()
    && forall i :: 0 <= i < |steps| ==> Enabled(cfg, run[i], steps[i]) && run[i + 1] == Do(cfg, run[i], steps[i])
  }

  lemma {:induction false} RunKeeps(cfg: Config, run: seq<State>, steps: seq<Step>, i: nat)
    requires IsRun(cfg, run, steps) && i < |run|
    ensures Inv(cfg, run[i])
  {
    if i == 0 {
      assert Counted(map[]) == {};
    } else {
      RunKeeps(cfg, run, steps, i - 1);
      StepKeeps(cfg, run[i - 1], steps[i - 1]);
    }
  }

  /** How often c occurs among waiting, queued, in-hand, kept, settled and lost changes. */
  ghost function Occurrences(s: State, c: Change): nat {
    multiset(s.callers.Keys)[c] + multiset(s.q.lifecycle)[c] + multiset(s.q.events)[c] + multiset(InHand(s.flush))[c]
    + multiset(s.carry)[c] + multiset(Changes(s.settled))[c] + multiset(s.lost)[c]
  }

  /**
   * Conservation: in every reachable state each change that arrived is in exactly
   * one place (and no other change anywhere), the queue is within capacity, no
   * lifecycle change was spilled and every change counted as written was committed.
   */
  lemma EveryChangeInOnePlace(cfg: Config, run: seq<State>, steps: seq<Step>, i: nat, c: Change)
    requires IsRun(cfg, run, steps) && i < |run|
    ensures Occurrences(run[i], c) == if c in run[i].arrived then 1 else 0
    ensures Length(run[i].q) <= cfg.capacity
    ensures c in run[i].spills ==> !c.Lifecycle()
    ensures Settled(c, true) in run[i].settled ==> IsCommitted(run[i].committed, c)
  {
    RunKeeps(cfg, run, steps, i);
    var s := run[i];
    assert multiset(s.arrived)[c]
        == (multiset(s.callers.Keys) + InQueue(s.q) + (multiset(InHand(s.flush)) + multiset(s.carry))
            + (multiset(Changes(s.settled)) + multiset(s.lost)))[c];
  }

  lemma CardinalitySum(a: multiset<Change>, b: multiset<Change>)
    ensures |a + b| == |a| + |b|
  {
  }

  /** The counters account for every change: what arrived waits, is pending or in hand, was written, or was dropped. */
  lemma CountersBalance(cfg: Config, run: seq<State>, steps: seq<Step>, i: nat)
    requires IsRun(cfg, run, steps) && i < |run|
    ensures var s := run[i];
            |s.arrived|
              == |s.callers| + (s.q.queued + s.carried) + |InHand(s.flush)| + s.written + s.dropped + s.uncounted
    ensures run[i].spilled + run[i].uncountedSpills == |run[i].spills|
  {
    RunKeeps(cfg, run, steps, i);
    var s := run[i];
    var a, b := multiset(s.callers.Keys) + InQueue(s.q), multiset(InHand(s.flush)) + multiset(s.carry);
    var c := multiset(Changes(s.settled)) + multiset(s.lost);
    assert multiset(s.arrived) == a + b + c;
    CardinalitySum(a + b, c);
    CardinalitySum(a, b);
    assert |multiset(s.arrived)| == |s.arrived| && |multiset(s.callers.Keys)| == |s.callers.Keys| == |s.callers|;
  }

  /** No lost wakeup: an enqueuer waits on the open channel only while the queue is full of lifecycle changes. */
  lemma BlockedMeansFull(cfg: Config, run: seq<State>, steps: seq<Step>, i: nat, c: Change)
    requires IsRun(cfg, run, steps) && i < |run|
    requires c in run[i].callers && run[i].callers[c].Blocked?
    ensures var q := run[i].q;
            Enabled(cfg, run[i], Wake(c)) || (!q.closed && q.events == [] && |q.lifecycle| == cfg.capacity)
  {
    RunKeeps(cfg, run, steps, i);
  }

  /** The count of waiters is that of the calls that wait or leave, so no leaving call is held up. */
  lemma WaitersAreCounted(cfg: Config, run: seq<State>, steps: seq<Step>, i: nat, c: Change)
    requires IsRun(cfg, run, steps) && i < |run|
    ensures run[i].q.waiters == |Counted(run[i].callers)|
    ensures c in run[i].callers && run[i].callers[c].Leaving? ==> Enabled(cfg, run[i], Leave(c))
  {
    RunKeeps(cfg, run, steps, i);
    assert c in run[i].callers && run[i].callers[c].Leaving? ==> c in Counted(run[i].callers);
  }

  /** A flush that takes changes out of the queue, and close, wake every enqueuer that was waiting. */
  lemma FreedSpaceWakesAll(cfg: Config, run: seq<State>, steps: seq<Step>, i: nat, c: Change)
    requires IsRun(cfg, run, steps) && i < |steps|
    requires steps[i] == Close || (steps[i] == FlushTake && Length(run[i + 1].q) < Length(run[i].q))
    requires c in run[i + 1].callers && run[i + 1].callers[c].Blocked?
    ensures Enabled(cfg, run[i + 1], Wake(c))
  {
    RunKeeps(cfg, run, steps, i);
    assert c in Counted(run[i].callers);
  }

  /** History only grows, and a kept batch leaves carry only by being taken in hand as a whole. */
  ghost predicate Continues(s: State, n: State, step: Step) {
    && s.settled <= n.settled && s.accepted <= n.accepted
    && (s.carry != [] && n.carry != s.carry ==> step == FlushTake && n.carry == [] && InHand(n.flush) == s.carry)
  }

  lemma FlushHistory(cfg: Config, s: State, step: Step)
    requires Inv(cfg, s) && Enabled(cfg, s, step) && (step.WriteAttempt? || step.SplitTurn?)
    ensures Continues(s, Do(cfg, s, step), step)
  {
    if step.SplitTurn? {
      SplitHasNoCarry(cfg, s);
    }
  }

  lemma StepHistory(cfg: Config, s: State, step: Step)
    requires Inv(cfg, s) && Enabled(cfg, s, step)
    ensures Continues(s, Do(cfg, s, step), step)
  {
    if step.WriteAttempt? || step.SplitTurn? {
      FlushHistory(cfg, s, step);
    }
  }

  lemma {:induction false} HistoryGrows(cfg: Config, run: seq<State>, steps: seq<Step>, i: nat, j: nat)
    requires IsRun(cfg, run, steps) && i <= j < |run|
    ensures run[i].settled <= run[j].settled && run[i].accepted <= run[j].accepted
    decreases j - i
  {
    if i < j {
      RunKeeps(cfg, run, steps, i);
      StepHistory(cfg, run[i], steps[i]);
      HistoryGrows(cfg, run, steps, i + 1, j);
    }
  }

  /**
   * Lifecycle changes are settled in exactly the order the queue accepted them,
   * across drains, interrupted flushes, kept batches and salvage splitting: at any
   * later moment the settled ones are a prefix of the accepted ones.
   */
  lemma LifecycleInOrder(cfg: Config, run: seq<State>, steps: seq<Step>, i: nat, j: nat)
    requires IsRun(cfg, run, steps) && i <= j < |run|
    ensures Life(Changes(run[i].settled)) <= run[i].accepted <= run[j].accepted
    ensures run[i].settled <= run[j].settled
  {
    RunKeeps(cfg, run, steps, i);
    HistoryGrows(cfg, run, steps, i, j);
  }

  /** A non-empty carry is never overwritten. */
  lemma CarryNeverOverwritten(cfg: Config, run: seq<State>, steps: seq<Step>, i: nat)
    requires IsRun(cfg, run, steps) && i < |steps|
    requires run[i].carry != [] && run[i + 1].carry != run[i].carry
    ensures steps[i] == FlushTake && run[i + 1].carry == [] && InHand(run[i + 1].flush) == run[i].carry
  {
    RunKeeps(cfg, run, steps, i);
    StepHistory(cfg, run[i], steps[i]);
  }
}
