/**
 * Salvaging a rejected batch: the batch is split until the rejected changes are
 * isolated (internal/action/statewriter.go, salvage and flatten).
 */
module Salvaging {

  /** How one write transaction ends, by failure class. */
  datatype Outcome = Committed | Rejected | Unavailable

  /** A change that left the writer: written, or dropped as rejected. */
  datatype Settled<T> = Settled(change: T, written: bool)

  /** One turn of the loop: it goes on with a new stack, or keeps the rest. */
  datatype Turn<T> = Continue(stack: seq<seq<T>>, settled: seq<Settled<T>>) | Interrupted(carry: seq<T>)

  /** The stack in write order: the top part comes first. */
  function Flatten<T>(stack: seq<seq<T>>): seq<T> {
    if stack == [] then [] else stack[|stack| - 1] + Flatten(stack[..|stack| - 1])
  }

  function Changes<T>(settled: seq<Settled<T>>): (r: seq<T>)
    ensures |r| == |settled|
  {
    seq(|settled|, i requires 0 <= i < |settled| => settled[i].change)
  }

  lemma ChangesAppend<T>(a: seq<Settled<T>>, b: seq<Settled<T>>)
    ensures Changes(a + b) == Changes(a) + Changes(b)
  {
  }

  /** `part` settled as a whole. */
  function Settle<T>(part: seq<T>, written: bool): (r: seq<Settled<T>>)
    ensures Changes(r) == part
  {
    seq(|part|, i requires 0 <= i < |part| => Settled(part[i], written))
  }

  ghost predicate NonEmptyParts<T>(stack: seq<seq<T>>) {
    forall i :: 0 <= i < |stack| ==> stack[i] != []
  }

  /** The turns that are left: each part of n changes takes at most 2n - 1. */
  ghost function Rank<T>(stack: seq<seq<T>>): nat
    requires NonEmptyParts(stack)
  {
    if stack == [] then 0
    else Rank(stack[..|stack| - 1]) + 2 * |stack[|stack| - 1]| - 1
  }

  /** The changes the next turn tries to write. */
  function Attempted<T>(stack: seq<seq<T>>): seq<T>
    requires stack != []
  {
    var part := stack[|stack| - 1];
    if |part| > 1 then part[..|part| / 2] else part
  }

  /** One turn on a stack, given whether ctx ended and how its write ended. */
  function NextTurn<T>(stack: seq<seq<T>>, canceled: bool, outcome: Outcome): (turn: Turn<T>)
    requires stack != []
  {
    var rest, part := stack[..|stack| - 1], stack[|stack| - 1];
    var mid := |part| / 2;
    if (canceled && |part| > 1) || outcome == Unavailable then Interrupted(Flatten(stack))
    else if |part| > 1 then
      if outcome == Rejected then Continue(rest + [part[mid..], part[..mid]], [])
      else Continue(rest + [part[mid..]], Settle(part[..mid], true))
    else Continue(rest, Settle(part, outcome == Committed))
  }

  lemma FlattenAppend<T>(stack: seq<seq<T>>, part: seq<T>)
    ensures Flatten(stack + [part]) == part + Flatten(stack)
  {
    assert (stack + [part])[..|stack|] == stack;
  }

  lemma RankAppend<T>(stack: seq<seq<T>>, part: seq<T>)
    requires NonEmptyParts(stack) && part != []
    ensures NonEmptyParts(stack + [part])
    ensures Rank(stack + [part]) == Rank(stack) + 2 * |part| - 1
  {
    assert (stack + [part])[..|stack|] == stack;
  }

  /** Splitting the top part keeps the write order and takes one turn off the rank. */
  lemma SplitTop<T>(rest: seq<seq<T>>, part: seq<T>, mid: nat)
    requires NonEmptyParts(rest) && 0 < mid < |part|
    ensures NonEmptyParts(rest + [part[mid..], part[..mid]])
    ensures Flatten(rest + [part[mid..], part[..mid]]) == Flatten(rest + [part])
    ensures part[..mid] + Flatten(rest + [part[mid..]]) == Flatten(rest + [part])
    ensures Rank(rest + [part[mid..], part[..mid]]) == Rank(rest) + 2 * |part| - 2
    ensures Rank(rest + [part[mid..]]) < Rank(rest) + 2 * |part| - 2
  {
    var first, second := part[..mid], part[mid..];
    assert first + second == part;
    FlattenAppend(rest, part);
    FlattenAppend(rest, second);
    RankAppend(rest, second);
    assert rest + [second, first] == rest + [second] + [first];
    FlattenAppend(rest + [second], first);
    RankAppend(rest + [second], first);
    assert first + (second + Flatten(rest)) == (first + second) + Flatten(rest);
  }

  /** What a turn must do to a stack, whatever the database answers. */
  ghost predicate Conserves<T>(stack: seq<seq<T>>, turn: Turn<T>)
    requires NonEmptyParts(stack)
  {
    match turn
    case Interrupted(carry) => carry == Flatten(stack) && carry != []
    case Continue(next, settled) =>
      && Changes(settled) + Flatten(next) == Flatten(stack)
      && NonEmptyParts(next)
      && Rank(next) < Rank(stack)
  }

  /**
   * Whatever the database answers, a turn loses and reorders nothing: what it
   * settled followed by what is left is what there was, and fewer turns remain.
   */
  lemma TurnConserves<T>(stack: seq<seq<T>>, canceled: bool, outcome: Outcome)
    requires stack != [] && NonEmptyParts(stack)
    ensures Conserves(stack, NextTurn(stack, canceled, outcome))
  {
    var rest, part := stack[..|stack| - 1], stack[|stack| - 1];
    assert stack == rest + [part];
    FlattenAppend(rest, part);
    RankAppend(rest, part);
    if NextTurn(stack, canceled, outcome).Continue? && |part| > 1 {
      var mid := |part| / 2;
      SplitTop(rest, part, mid);
      RankAppend(rest, part[mid..]);
      assert Changes(Settle(part[..mid], true)) == part[..mid];
    } else {
      assert Changes(Settle(part, outcome == Committed)) == part;
    }
  }

  /** The database rejects a batch exactly when it holds a bad change, unless it is unavailable. */
  ghost predicate RejectsBad<T(!new)>(db: (nat, seq<T>) -> Outcome, bad: iset<T>) {
    forall k, part :: db(k, part) != Unavailable ==>
      (db(k, part) == Rejected <==> exists i :: 0 <= i < |part| && part[i] in bad)
  }

  /** Good changes were written and bad ones dropped. */
  ghost predicate Exact<T>(settled: seq<Settled<T>>, bad: iset<T>) {
    forall i :: 0 <= i < |settled| ==> (settled[i].written <==> settled[i].change !in bad)
  }

  lemma TurnExact<T(!new)>(stack: seq<seq<T>>, canceled: bool, db: (nat, seq<T>) -> Outcome, k: nat, bad: iset<T>)
    requires stack != [] && NonEmptyParts(stack) && RejectsBad(db, bad)
    ensures var turn := NextTurn(stack, canceled, db(k, Attempted(stack)));
            turn.Continue? ==> Exact(turn.settled, bad)
  {
    var part, tried := stack[|stack| - 1], Attempted(stack);
    var outcome := db(k, tried);
    if outcome == Rejected && |part| == 1 {
      assert tried[0] in bad;
    } else if outcome == Committed {
      assert forall i :: 0 <= i < |tried| ==> tried[i] !in bad;
    }
  }

  /** One turn from a state of the loop leads to another one, or keeps exactly the unsettled rest. */
  lemma TurnKeeps<T(!new)>(batch: seq<T>, settled: seq<Settled<T>>, stack: seq<seq<T>>, canceled: bool,
                           db: (nat, seq<T>) -> Outcome, k: nat, bad: iset<T>)
    requires stack != [] && LoopState(batch, settled, stack, db, bad)
    ensures var turn := NextTurn(stack, canceled, db(k, Attempted(stack)));
            match turn
            case Interrupted(carry) => Changes(settled) + carry == batch && carry != []
            case Continue(next, more) =>
              LoopState(batch, settled + more, next, db, bad) && Rank(next) < Rank(stack)
  {
    var turn := NextTurn(stack, canceled, db(k, Attempted(stack)));
    TurnConserves(stack, canceled, db(k, Attempted(stack)));
    if turn.Continue? {
      ChangesAppend(settled, turn.settled);
      assert Changes(settled) + (Changes(turn.settled) + Flatten(turn.stack))
          == Changes(settled + turn.settled) + Flatten(turn.stack);
      if RejectsBad(db, bad) {
        TurnExact(stack, canceled, db, k, bad);
      }
    }
  }

  ghost predicate LoopState<T(!new)>(batch: seq<T>, settled: seq<Settled<T>>, stack: seq<seq<T>>,
                                     db: (nat, seq<T>) -> Outcome, bad: iset<T>) {
    && NonEmptyParts(stack)
    && Changes(settled) + Flatten(stack) == batch
    && (RejectsBad(db, bad) ==> Exact(settled, bad))
  }

  /** flatten: the loop over the stack from its top down. */
  method FlattenStack<T>(stack: seq<seq<T>>) returns (out: seq<T>)
    ensures out == Flatten(stack)
  {
    out := [];
    var i := |stack|;
    assert stack[..i] == stack;
    while i > 0
      invariant 0 <= i <= |stack|
      invariant out + Flatten(stack[..i]) == Flatten(stack)
    {
      i := i - 1;
      FlattenAppend(stack[..i], stack[i]);
      assert stack[..i + 1] == stack[..i] + [stack[i]];
      out := out + stack[i];
    }
  }

  /**
   * salvage: `db` answers the k-th write and `canceled` says whether ctx has
   * ended at the k-th turn, so every environment is covered. The settled
   * changes followed by the kept ones are the batch in its order; nothing is
   * kept unless the loop was interrupted; and a database that rejects exactly
   * the batches holding a bad change makes the result exact.
   */
  method Salvage<T(!new)>(batch: seq<T>, db: (nat, seq<T>) -> Outcome, canceled: nat -> bool, ghost bad: iset<T>)
      returns (settled: seq<Settled<T>>, carry: seq<T>, interrupted: bool)
    requires batch != []
    ensures Changes(settled) + carry == batch
    ensures interrupted <==> carry != []
    ensures RejectsBad(db, bad) ==> Exact(settled, bad)
    ensures interrupted ==> exists k, part :: canceled(k) || db(k, part) == Unavailable
  {
    var stack := [batch];
    settled, carry, interrupted := [], [], false;
    FlattenAppend([], batch);
    assert [batch] == [] + [batch];
    var k := 0;
    while stack != []
      invariant LoopState(batch, settled, stack, db, bad)
      decreases Rank(stack)
    {
      ghost var before, start := settled, stack;
      ghost var turn := NextTurn(stack, canceled(k), db(k, Attempted(stack)));
      TurnKeeps(batch, settled, stack, canceled(k), db, k, bad);
      var part := stack[|stack| - 1];
      stack := stack[..|stack| - 1];
      var mid := |part| / 2;
      var outcome := db(k, if |part| > 1 then part[..mid] else part);
      assert start == stack + [part];
      if |part| > 1 {
        if canceled(k) {
          carry := FlattenStack(stack + [part]);
          return settled, carry, true;
        }
        if outcome == Unavailable {
          carry := FlattenStack(stack + [part]);
          return settled, carry, true;
        }
        if outcome == Rejected {
          stack := stack + [part[mid..], part[..mid]];
        } else {
          settled := settled + Settle(part[..mid], true);
          stack := stack + [part[mid..]];
        }
      } else {
        if outcome == Unavailable {
          carry := FlattenStack(stack + [part]);
          return settled, carry, true;
        }
        settled := settled + Settle(part, outcome == Committed);
      }
      assert turn.Continue? && turn.stack == stack && settled == before + turn.settled;
      assert LoopState(batch, settled, stack, db, bad);
      k := k + 1;
    }
  }
}
