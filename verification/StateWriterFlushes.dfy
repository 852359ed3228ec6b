/**
 * Flushes of the state writer from taking a batch to being done with it
 * (internal/action/statewriter.go): what is settled is settled rightly, everything taken is
 * settled, and a batch is done with after a bounded number of writes.
 */
module StateWriterFlushes {
  import opened Salvaging
  import opened StateChanges
  import opened StateWriters
  import opened StateWriterRuns

  // ------------------------------------------------------------- exactness of salvage

  ghost predicate HasBad(batch: seq<Change>, bad: iset<Change>) {
    exists i :: 0 <= i < |batch| && batch[i] in bad
  }

  /** The database commits no bad change, and a turn of salvage is rejected exactly when it tries one. */
  ghost predicate Judges(s: State, step: Step, bad: iset<Change>) {
    match step
    case WriteAttempt(result) => s.flush.Writing? && result.AttemptCommitted? ==> !HasBad(s.flush.batch, bad)
    case SplitTurn(canceled, outcome, _) =>
      && s.flush.Splitting? && s.flush.stack != [] && NextTurn(s.flush.stack, canceled, outcome).Continue?
      ==> (outcome == Rejected <==> HasBad(Attempted(s.flush.stack), bad))
    case _ => true
  }

  /** Step q gives up the change with its batch after the last attempt. */
  predicate RunsOut(cfg: Config, s: State, step: Step, c: Change) {
    && step == WriteAttempt(AttemptOther(false)) && s.flush.Writing? && s.flush.attempt >= cfg.maxAttempts
    && c in s.flush.batch
  }

  /** What a step newly settles is settled rightly, or its batch ran out of retries. */
  lemma StepSettles(cfg: Config, s: State, step: Step, n: State, bad: iset<Change>, x: Settled<Change>)
    requires Inv(cfg, s) && Enabled(cfg, s, step) && n == Do(cfg, s, step) && Judges(s, step, bad)
    requires x in n.settled && x !in s.settled
    ensures x.written ==> x.change !in bad
    ensures !x.written ==> x.change in bad || RunsOut(cfg, s, step, x.change)
  {
    match step
    case WriteAttempt(result) => AttemptSettles(cfg, s, result, bad, x);
    case SplitTurn(canceled, outcome, _) =>
      var turn := NextTurn(s.flush.stack, canceled, outcome);
      assert turn.Continue? && n.settled == s.settled + turn.settled;
      SplitSettles(s.flush.stack, canceled, outcome, bad, x);
    case _ =>
  }

  lemma AttemptSettles(cfg: Config, s: State, result: Attempt, bad: iset<Change>, x: Settled<Change>)
    requires s.flush.Writing? && (result.AttemptCommitted? ==> !HasBad(s.flush.batch, bad))
    requires x in DoAttempt(cfg, s, result).settled && x !in s.settled
    ensures x.written ==> x.change !in bad
    ensures !x.written ==> RunsOut(cfg, s, WriteAttempt(result), x.change)
  {
    var part := Settle(s.flush.batch, result.AttemptCommitted?);
    assert DoAttempt(cfg, s, result).settled == s.settled + part;
    var i :| 0 <= i < |part| && part[i] == x;
    assert x.change == s.flush.batch[i];
  }

  lemma SplitSettles(stack: seq<seq<Change>>, canceled: bool, outcome: Outcome, bad: iset<Change>, x: Settled<Change>)
    requires stack != [] && NonEmptyParts(stack) && NextTurn(stack, canceled, outcome).Continue?
    requires outcome == Rejected <==> HasBad(Attempted(stack), bad)
    requires x in NextTurn(stack, canceled, outcome).settled
    ensures x.written <==> x.change !in bad
  {
    TurnSettles(stack, canceled, outcome);
    SettleExact(Attempted(stack), outcome == Committed, bad, x);
  }

  /** A turn settles nothing, or what it tried, which is a single change when it was rejected. */
  lemma TurnSettles(stack: seq<seq<Change>>, canceled: bool, outcome: Outcome)
    requires stack != [] && NonEmptyParts(stack) && NextTurn(stack, canceled, outcome).Continue?
    requires NextTurn(stack, canceled, outcome).settled != []
    ensures NextTurn(stack, canceled, outcome).settled == Settle(Attempted(stack), outcome == Committed)
    ensures outcome == Committed || (outcome == Rejected && |Attempted(stack)| == 1)
  {
  }

  lemma SettleExact(tried: seq<Change>, written: bool, bad: iset<Change>, x: Settled<Change>)
    requires x in Settle(tried, written) && (written <==> !HasBad(tried, bad)) && (!written ==> |tried| == 1)
    ensures x.written <==> x.change !in bad
  {
    var i :| 0 <= i < |tried| && Settle(tried, written)[i] == x;
    assert x == Settled(tried[i], written);
  }

  /** The step at which a settled change was settled. */
  lemma {:induction false} FirstSettled(run: seq<State>, i: nat, x: Settled<Change>) returns (q: nat)
    requires i < |run| && run[0].settled == [] && x in run[i].settled
    ensures q < i && x !in run[q].settled && x in run[q + 1].settled
  {
    if x in run[i - 1].settled {
      q := FirstSettled(run, i - 1, x);
    } else {
      q := i - 1;
    }
  }

  ghost predicate RanOut(cfg: Config, run: seq<State>, steps: seq<Step>, i: nat, c: Change)
    requires |run| == |steps| + 1
  {
    exists q :: 0 <= q < i && q < |steps| && RunsOut(cfg, run[q], steps[q], c)
  }

  /**
   * Over whole runs: when the database rejects exactly the bad changes, no bad change counts
   * as written, and a change settled unwritten is bad or was in a batch that ran out of
   * retries, however drains, kept batches and salvage interleave.
   */
  lemma SettledIsExact(cfg: Config, run: seq<State>, steps: seq<Step>, bad: iset<Change>, i: nat, x: Settled<Change>)
    requires IsRun(cfg, run, steps) && i < |run| && x in run[i].settled
    requires forall q :: 0 <= q < |steps| ==> Judges(run[q], steps[q], bad)
    ensures x.written ==> x.change !in bad
    ensures !x.written ==> x.change in bad || RanOut(cfg, run, steps, i, x.change)
  {
    var q := FirstSettled(run, i, x);
    RunKeeps(cfg, run, steps, q);
    assert Judges(run[q], steps[q], bad);
    StepSettles(cfg, run[q], steps[q], run[q + 1], bad, x);
  }

  // ------------------------------------------------- everything taken is settled

  /** The step finds its context ended or the database unavailable. */
  predicate Interrupts(step: Step) {
    match step
    case WriteAttempt(result) =>
      (match result
       case AttemptCommitted => false
       case AttemptCanceled => true
       case AttemptUnavailable(_) => true
       case AttemptDataError(canceled) => canceled
       case AttemptMissingPartition(canceled) => canceled
       case AttemptOther(canceled) => canceled)
    case SplitTurn(canceled, outcome, _) => canceled || outcome == Unavailable
    case _ => false
  }

  /** A batch is kept for the next flush only when the context ended or the database was unavailable. */
  lemma CarryOnlyWhenInterrupted(cfg: Config, run: seq<State>, steps: seq<Step>, i: nat)
    requires IsRun(cfg, run, steps) && i < |steps|
    requires run[i + 1].carry != [] && run[i + 1].carry != run[i].carry
    ensures Interrupts(steps[i]) && run[i + 1].carry == InHand(run[i].flush)
  {
    RunKeeps(cfg, run, steps, i);
    assert run[i + 1] == Do(cfg, run[i], steps[i]);
    if steps[i].SplitTurn? {
      TurnConserves(run[i].flush.stack, steps[i].canceled, steps[i].outcome);
    }
  }

  /** An interrupted write keeps all that is in hand, and a turn of salvage too unless it tries a single change. */
  lemma InterruptedIsKept(cfg: Config, run: seq<State>, steps: seq<Step>, i: nat)
    requires IsRun(cfg, run, steps) && i < |steps| && Interrupts(steps[i])
    requires steps[i].SplitTurn? && steps[i].outcome != Unavailable ==>
               |run[i].flush.stack[|run[i].flush.stack| - 1]| > 1
    ensures run[i + 1].carry == InHand(run[i].flush) && run[i + 1].flush.Idle?
    ensures run[i + 1].settled == run[i].settled
  {
    assert run[i + 1] == Do(cfg, run[i], steps[i]);
  }

  lemma InSettle(part: seq<Change>, written: bool, c: Change)
    requires c in part
    ensures Settled(c, written) in Settle(part, written)
  {
    var i :| 0 <= i < |part| && part[i] == c;
    assert Settle(part, written)[i] == Settled(c, written);
  }

  lemma InChanges(settled: seq<Settled<Change>>, c: Change) returns (x: Settled<Change>)
    requires c in Changes(settled)
    ensures x in settled && x.change == c
  {
    var i :| 0 <= i < |settled| && Changes(settled)[i] == c;
    x := settled[i];
  }

  /** The change is still in hand, or settled as it should be. */
  ghost predicate Handled(s: State, c: Change, bad: iset<Change>) {
    c in InHand(s.flush) || Settled(c, c !in bad) in s.settled
  }

  lemma AttemptHandles(cfg: Config, s: State, result: Attempt, bad: iset<Change>, c: Change)
    requires s.flush.Writing? && c in s.flush.batch && !Interrupts(WriteAttempt(result))
    requires result.AttemptCommitted? ==> !HasBad(s.flush.batch, bad)
    requires !RunsOut(cfg, s, WriteAttempt(result), c)
    ensures Handled(DoAttempt(cfg, s, result), c, bad)
  {
    FlattenOne(s.flush.batch);
    if result.AttemptCommitted? {
      InSettle(s.flush.batch, true, c);
      assert c !in bad;
    }
  }

  lemma SplitHandles(s: State, canceled: bool, outcome: Outcome, applied: bool, bad: iset<Change>, c: Change)
    requires s.flush.Splitting? && s.flush.stack != [] && NonEmptyParts(s.flush.stack)
    requires c in Flatten(s.flush.stack) && !canceled && outcome != Unavailable
    requires outcome == Rejected <==> HasBad(Attempted(s.flush.stack), bad)
    ensures Handled(DoSplit(s, canceled, outcome, applied), c, bad)
  {
    var turn := NextTurn(s.flush.stack, canceled, outcome);
    TurnHandles(s.flush.stack, outcome, bad, c);
    assert c in Flatten(turn.stack) || Settled(c, c !in bad) in turn.settled;
  }

  lemma TurnHandles(stack: seq<seq<Change>>, outcome: Outcome, bad: iset<Change>, c: Change)
    requires stack != [] && NonEmptyParts(stack) && c in Flatten(stack) && outcome != Unavailable
    requires outcome == Rejected <==> HasBad(Attempted(stack), bad)
    ensures var turn := NextTurn(stack, false, outcome);
            turn.Continue? && (c in Flatten(turn.stack) || Settled(c, c !in bad) in turn.settled)
  {
    var turn := NextTurn(stack, false, outcome);
    TurnConserves(stack, false, outcome);
    assert c in Changes(turn.settled) + Flatten(turn.stack);
    if c in Changes(turn.settled) {
      var x := InChanges(turn.settled, c);
      SplitSettles(stack, false, outcome, bad, x);
      assert x == Settled(c, c !in bad);
    }
  }

  lemma StepHandles(cfg: Config, s: State, step: Step, n: State, bad: iset<Change>, c: Change)
    requires Inv(cfg, s) && Enabled(cfg, s, step) && n == Do(cfg, s, step) && Judges(s, step, bad)
    requires !Interrupts(step) && !RunsOut(cfg, s, step, c) && Handled(s, c, bad)
    ensures Handled(n, c, bad)
  {
    StepHistory(cfg, s, step);
    if c in InHand(s.flush) {
      match step
      case WriteAttempt(result) => AttemptHandles(cfg, s, result, bad, c);
      case SplitTurn(canceled, outcome, applied) => SplitHandles(s, canceled, outcome, applied, bad, c);
      case _ =>
    }
  }

  lemma {:induction false} HandledUntil(cfg: Config, run: seq<State>, steps: seq<Step>, bad: iset<Change>, i: nat,
                                        j: nat, c: Change)
    requires IsRun(cfg, run, steps) && i <= j < |run| && Handled(run[i], c, bad)
    requires forall q :: i <= q < j ==>
               Judges(run[q], steps[q], bad) && !Interrupts(steps[q]) && !RunsOut(cfg, run[q], steps[q], c)
    ensures Handled(run[j], c, bad)
    decreases j - i
  {
    if i < j {
      RunKeeps(cfg, run, steps, i);
      assert Judges(run[i], steps[i], bad) && !Interrupts(steps[i]) && !RunsOut(cfg, run[i], steps[i], c);
      StepHandles(cfg, run[i], steps[i], run[i + 1], bad, c);
      HandledUntil(cfg, run, steps, bad, i + 1, j, c);
    }
  }

  /**
   * Completeness of a flush: when nothing interrupts it and no batch runs out of retries,
   * every change it had in hand is settled once it looks for the next batch, written if and
   * only if it is not bad.
   */
  lemma TakenIsSettled(cfg: Config, run: seq<State>, steps: seq<Step>, bad: iset<Change>, i: nat, j: nat, c: Change)
    requires IsRun(cfg, run, steps) && i < j < |run| && c in InHand(run[i].flush) && run[j].flush.Looping?
    requires forall q :: i <= q < j ==>
               Judges(run[q], steps[q], bad) && !Interrupts(steps[q]) && !RunsOut(cfg, run[q], steps[q], c)
    ensures Settled(c, c !in bad) in run[j].settled
  {
    HandledUntil(cfg, run, steps, bad, i, j, c);
  }

  // ------------------------------------------------------ and after boundedly many writes

  /** The writes that are left for what is in hand. */
  ghost function Work(cfg: Config, f: Flush): nat {
    match f
    case Writing(batch, attempt) => (if attempt < cfg.maxAttempts then cfg.maxAttempts - attempt else 0) + 2 * |batch|
    case Splitting(stack) => if NonEmptyParts(stack) then Rank(stack) else 0
    case _ => 0
  }

  predicate IsWrite(step: Step) {
    step.WriteAttempt? || step.SplitTurn?
  }

  lemma RankOne(batch: seq<Change>)
    requires batch != []
    ensures NonEmptyParts([batch]) && Rank([batch]) == 2 * |batch| - 1
  {
    RankAppend([], batch);
    assert [batch] == [] + [batch];
  }

  lemma AttemptProgresses(cfg: Config, s: State, result: Attempt, f: Flush)
    requires s.flush.Writing? && s.flush.batch != [] && !Interrupts(WriteAttempt(result))
    requires f == DoAttempt(cfg, s, result).flush
    ensures Work(cfg, f) < Work(cfg, s.flush)
  {
    RankOne(s.flush.batch);
  }

  lemma SplitProgresses(cfg: Config, s: State, outcome: Outcome, applied: bool, f: Flush)
    requires s.flush.Splitting? && s.flush.stack != [] && NonEmptyParts(s.flush.stack) && outcome != Unavailable
    requires f == DoSplit(s, false, outcome, applied).flush
    ensures Work(cfg, f) < Work(cfg, s.flush)
  {
    var turn := NextTurn(s.flush.stack, false, outcome);
    TurnConserves(s.flush.stack, false, outcome);
    assert NonEmptyParts(turn.stack) && Rank(turn.stack) < Rank(s.flush.stack);
  }

  lemma StepProgresses(cfg: Config, s: State, step: Step, n: State)
    requires Enabled(cfg, s, step) && n == Do(cfg, s, step) && FlushShape(s.flush, s.carry, s.carried)
    requires !Interrupts(step) && step != FlushTake
    ensures Work(cfg, n.flush) + (if IsWrite(step) then 1 else 0) <= Work(cfg, s.flush)
  {
    match step
    case WriteAttempt(result) => AttemptProgresses(cfg, s, result, n.flush);
    case SplitTurn(_, outcome, applied) => SplitProgresses(cfg, s, outcome, applied, n.flush);
    case _ =>
  }

  function Writes(steps: seq<Step>, i: nat, j: nat): nat
    requires j <= |steps|
  {
    if i >= j then 0 else Writes(steps, i, j - 1) + if IsWrite(steps[j - 1]) then 1 else 0
  }

  /** run goes on with less and less work from state i to state j. */
  ghost predicate Progresses(cfg: Config, run: seq<State>, steps: seq<Step>, i: nat, j: nat)
    requires i <= j <= |steps| < |run|
  {
    forall q :: i <= q < j ==>
      Work(cfg, run[q + 1].flush) + (if IsWrite(steps[q]) then 1 else 0) <= Work(cfg, run[q].flush)
  }

  lemma {:induction false} WritesAreWork(cfg: Config, run: seq<State>, steps: seq<Step>, i: nat, j: nat)
    requires i <= j <= |steps| < |run| && Progresses(cfg, run, steps, i, j)
    ensures Writes(steps, i, j) + Work(cfg, run[j].flush) <= Work(cfg, run[i].flush)
  {
    if i < j {
      WritesAreWork(cfg, run, steps, i, j - 1);
    }
  }

  /**
   * A flush that is not interrupted is done with a batch of n changes after at most
   * maxAttempts + 2n writes, whatever the database answers.
   */
  lemma FlushIsBounded(cfg: Config, run: seq<State>, steps: seq<Step>, i: nat, j: nat)
    requires IsRun(cfg, run, steps) && i < j < |run| && steps[i] == FlushTake
    requires forall q :: i < q < j ==> steps[q] != FlushTake && !Interrupts(steps[q])
    ensures Writes(steps, i + 1, j) + Work(cfg, run[j].flush) <= cfg.maxAttempts + 2 * |InHand(run[i + 1].flush)|
    ensures run[j].flush.Writing? || run[j].flush.Splitting? ==> Work(cfg, run[j].flush) > 0
  {
    forall q | i < q < j
      ensures Work(cfg, run[q + 1].flush) + (if IsWrite(steps[q]) then 1 else 0) <= Work(cfg, run[q].flush)
    {
      RunKeeps(cfg, run, steps, q);
      StepProgresses(cfg, run[q], steps[q], run[q + 1]);
    }
    WritesAreWork(cfg, run, steps, i + 1, j);
    TakeWork(cfg, run[i], run[i + 1]);
    RunKeeps(cfg, run, steps, j);
    WorkToDo(cfg, run[j].flush);
  }

  lemma TakeWork(cfg: Config, s: State, n: State)
    requires Enabled(cfg, s, FlushTake) && n == Do(cfg, s, FlushTake)
    ensures Work(cfg, n.flush) <= cfg.maxAttempts + 2 * |InHand(n.flush)|
  {
  }

  lemma WorkToDo(cfg: Config, f: Flush)
    requires f.Writing? ==> f.batch != []
    requires f.Splitting? ==> f.stack != [] && NonEmptyParts(f.stack)
    ensures f.Writing? || f.Splitting? ==> Work(cfg, f) > 0
  {
    if f.Splitting? {
      assert f.stack == f.stack[..|f.stack| - 1] + [f.stack[|f.stack| - 1]];
    }
  }

  // ------------------------------------------------------------- retries are used up

  function Attempts(steps: seq<Step>, i: nat, j: nat): nat
    requires j <= |steps|
  {
    if i >= j then 0 else Attempts(steps, i, j - 1) + if steps[j - 1].WriteAttempt? then 1 else 0
  }

  lemma AttemptCounts(cfg: Config, s: State, step: Step, n: State)
    requires Enabled(cfg, s, step) && n == Do(cfg, s, step) && step != FlushTake && n.flush.Writing?
    ensures s.flush.Writing? && n.flush.batch == s.flush.batch
    ensures n.flush.attempt == s.flush.attempt + if step.WriteAttempt? then 1 else 0
  {
  }

  /** The step after k leaves a batch that is being written alone and counts its attempts. */
  ghost predicate CountsAt(run: seq<State>, steps: seq<Step>, k: nat)
    requires k < |steps| < |run|
  {
    steps[k] != FlushTake && run[k + 1].flush.Writing? ==>
      && run[k].flush.Writing? && run[k + 1].flush.batch == run[k].flush.batch
      && run[k + 1].flush.attempt == run[k].flush.attempt + if steps[k].WriteAttempt? then 1 else 0
  }

  lemma {:induction false} CountedSince(run: seq<State>, steps: seq<Step>, i: nat, j: nat)
    requires |run| == |steps| + 1 && i <= j < |run| && run[j].flush.Writing?
    requires forall k :: i <= k < j ==> steps[k] != FlushTake && CountsAt(run, steps, k)
    ensures run[i].flush.Writing? && run[j].flush.batch == run[i].flush.batch
    ensures run[j].flush.attempt == run[i].flush.attempt + Attempts(steps, i, j)
  {
    if i < j {
      assert CountsAt(run, steps, j - 1);
      CountedSince(run, steps, i, j - 1);
    }
  }

  lemma AttemptsAreCounted(cfg: Config, run: seq<State>, steps: seq<Step>, i: nat, j: nat)
    requires IsRun(cfg, run, steps) && i < j < |run| && steps[i] == FlushTake && run[j].flush.Writing?
    requires forall q :: i < q < j ==> steps[q] != FlushTake
    ensures run[i + 1].flush.Writing? && run[j].flush.batch == run[i + 1].flush.batch
    ensures run[j].flush.attempt == 1 + Attempts(steps, i + 1, j)
  {
    forall k | i + 1 <= k < j
      ensures CountsAt(run, steps, k)
    {
      if run[k + 1].flush.Writing? {
        AttemptCounts(cfg, run[k], steps[k], run[k + 1]);
      }
    }
    CountedSince(run, steps, i + 1, j);
    TakeStartsCount(cfg, run[i], run[i + 1]);
  }

  lemma TakeStartsCount(cfg: Config, s: State, n: State)
    requires Enabled(cfg, s, FlushTake) && n == Do(cfg, s, FlushTake) && n.flush.Writing?
    ensures n.flush.attempt == 1
  {
  }

  /**
   * A batch that fails for a reason that may pass is tried again if and only if it had fewer
   * than maxAttempts attempts; after the last one it is salvaged when a partition is missing
   * and given up otherwise.
   */
  lemma RetriedIff(cfg: Config, run: seq<State>, steps: seq<Step>, i: nat, j: nat)
    requires IsRun(cfg, run, steps) && i < j < |steps| && steps[i] == FlushTake && run[j].flush.Writing?
    requires forall q :: i < q < j ==> steps[q] != FlushTake
    requires steps[j] == WriteAttempt(AttemptOther(false)) || steps[j] == WriteAttempt(AttemptMissingPartition(false))
    ensures run[j + 1].flush.Writing? <==> Attempts(steps, i + 1, j + 1) < cfg.maxAttempts
    ensures run[j + 1].flush.Writing? ==> InHand(run[j + 1].flush) == InHand(run[i + 1].flush)
    ensures !run[j + 1].flush.Writing? && steps[j].result.AttemptMissingPartition? ==>
              run[j + 1].flush == Splitting([InHand(run[i + 1].flush)])
  {
    AttemptsAreCounted(cfg, run, steps, i, j);
    assert run[j + 1] == Do(cfg, run[j], steps[j]);
  }

  /** A batch that is rejected is salvaged at once. */
  lemma RejectedIsSalvaged(cfg: Config, run: seq<State>, steps: seq<Step>, i: nat)
    requires IsRun(cfg, run, steps) && i < |steps| && steps[i] == WriteAttempt(AttemptDataError(false))
    ensures run[i + 1].flush == Splitting([InHand(run[i].flush)]) && run[i + 1].settled == run[i].settled
  {
    assert run[i + 1] == Do(cfg, run[i], steps[i]);
  }
}
