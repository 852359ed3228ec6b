/**
 * The state writer's bounded queue (internal/action/statewriter.go): what happens
 * under its lock as functions, and the queue as a class over two fifos.
 */
module StateWriters {
  import opened Common
  import opened Fifos
  import opened StateChanges

  datatype Config = Config(capacity: nat, batchSize: nat, maxAttempts: nat)

  // ---------------------------------------------------------------- the queue

  /**
   * What mu guards. `generation` numbers the space channel: the channels before
   * it are closed, it is open. `queued` is the published length.
   */
  datatype Queue = Queue(
    lifecycle: seq<Change>, events: seq<Change>,
    generation: nat, waiters: nat, closed: bool, queued: nat)

  function Length(q: Queue): nat {
    |q.lifecycle| + |q.events|
  }

  datatype Decision =
    | Accepted
    | AcceptedSpilling(victim: Change)
    | SpilledItself
    | RefusedClosed
    | MustWait

  /** What one pass through enqueue's critical section decides. */
  function Decide(q: Queue, capacity: nat, c: Change): Decision {
    if Length(q) < capacity then Accepted
    else if q.events != [] then AcceptedSpilling(q.events[0])
    else if !c.Lifecycle() then SpilledItself
    else if q.closed then RefusedClosed
    else MustWait
  }

  function Pushed(q: Queue, c: Change): Queue {
    var n := if c.Lifecycle() then q.(lifecycle := q.lifecycle + [c]) else q.(events := q.events + [c]);
    n.(queued := Length(n))
  }

  /** The queue after decision d for c. */
  function AfterDecision(q: Queue, d: Decision, c: Change): Queue {
    match d
    case Accepted => Pushed(q, c)
    case AcceptedSpilling(_) => Pushed(if q.events == [] then q else q.(events := q.events[1..]), c)
    case MustWait => q.(waiters := q.waiters + 1)
    case _ => q
  }

  function AfterTry(q: Queue, capacity: nat, c: Change): Queue {
    AfterDecision(q, Decide(q, capacity, c), c)
  }

  /** The batch the next drain takes: lifecycle changes first. */
  function NextBatch(q: Queue, batchSize: nat): seq<Change> {
    var n := Min(batchSize, Length(q));
    var a := Min(n, |q.lifecycle|);
    q.lifecycle[..a] + q.events[..n - a]
  }

  function AfterDrain(q: Queue, batchSize: nat): Queue {
    var n := Min(batchSize, Length(q));
    var a := Min(n, |q.lifecycle|);
    if n == 0 then q
    else q.(lifecycle := q.lifecycle[a..], events := q.events[n - a..], queued := Length(q) - n,
            generation := if q.waiters > 0 then q.generation + 1 else q.generation)
  }

  /** open and close of the queue: close also closes the space channel. */
  function Opened(q: Queue): Queue {
    q.(closed := false)
  }

  function Closed(q: Queue): Queue {
    q.(closed := true, generation := q.generation + 1)
  }

  /** Publishes the length and replaces the space channel when somebody waits on it. */
  function Signalled(q: Queue): Queue {
    q.(queued := Length(q), generation := if q.waiters > 0 then q.generation + 1 else q.generation)
  }

  /** The queue without its first lifecycle changes and its first events. */
  function Rest(q: Queue, lifecycle: nat, events: nat): Queue
    requires lifecycle <= |q.lifecycle| && events <= |q.events|
  {
    q.(lifecycle := q.lifecycle[lifecycle..], events := q.events[events..])
  }

  /** What drain leaves, by the two pieces it takes. */
  lemma DrainIs(q: Queue, batchSize: nat, n: nat, a: nat)
    requires n == Min(batchSize, Length(q)) > 0 && a == Min(n, |q.lifecycle|)
    ensures n - a <= |q.events| && NextBatch(q, batchSize) == q.lifecycle[..a] + q.events[..n - a]
    ensures AfterDrain(q, batchSize) == Signalled(Rest(q, a, n - a))
  {
  }

  class StateQueue {
    const capacity: nat
    const batchSize: nat
    const lifecycle: Fifo<Change>
    const events: Fifo<Change>
    var generation: nat
    var waiters: nat
    var closed: bool
    var queued: nat

    ghost predicate Valid()
      reads this, lifecycle, events, lifecycle.items, events.items
    {
      && lifecycle.Valid() && events.Valid()
      && lifecycle != events && lifecycle.items != events.items
    }

    ghost function Value(): Queue
      requires Valid()
      reads this, lifecycle, events, lifecycle.items, events.items
    {
      Queue(lifecycle.Contents(), events.Contents(), generation, waiters, closed, queued)
    }

    constructor (capacity: nat, batchSize: nat, none: Change)
      ensures Valid() && Value() == Queue([], [], 0, 0, false, 0)
      ensures this.capacity == capacity && this.batchSize == batchSize
    {
      this.capacity, this.batchSize := capacity, batchSize;
      lifecycle := new Fifo(none);
      events := new Fifo(none);
      generation, waiters, closed, queued := 0, 0, false, 0;
    }

    method PushChange(c: Change)
      requires Valid()
      modifies this`queued, lifecycle, events, lifecycle.items, events.items
      ensures Valid() && Value() == Pushed(old(Value()), c)
      ensures lifecycle.items == old(lifecycle.items) || fresh(lifecycle.items)
      ensures events.items == old(events.items) || fresh(events.items)
    {
      if c.Lifecycle() {
        lifecycle.Push(c);
      } else {
        events.Push(c);
      }
      queued := lifecycle.Size() + events.Size();
    }

    /** One pass of enqueue's loop under mu. */
    method TryEnqueue(c: Change) returns (d: Decision)
      requires Valid()
      modifies this`queued, this`waiters, lifecycle, events, lifecycle.items, events.items
      ensures Valid()
      ensures d == Decide(old(Value()), capacity, c)
      ensures Value() == AfterTry(old(Value()), capacity, c)
      ensures d.Accepted? <==> old(|lifecycle.Contents()| + |events.Contents()|) < capacity
      ensures d.AcceptedSpilling? <==> !d.Accepted? && old(events.Contents()) != []
      ensures d.AcceptedSpilling? ==> d.victim == old(events.Contents())[0]
      ensures d.SpilledItself? <==> !d.Accepted? && !d.AcceptedSpilling? && !(c.updateSubject && !c.shadow)
      ensures d.RefusedClosed? ==> closed
      ensures d.MustWait? ==> !closed
    {
      if lifecycle.Size() + events.Size() < capacity {
        PushChange(c);
        return Accepted;
      }
      if events.Size() > 0 {
        var victim := events.Pop();
        PushChange(c);
        return AcceptedSpilling(victim);
      }
      if !c.Lifecycle() {
        return SpilledItself;
      }
      if closed {
        return RefusedClosed;
      }
      waiters := waiters + 1;
      return MustWait;
    }

    /** drain: takes up to batchSize changes and wakes the waiting enqueuers. */
    method Drain() returns (batch: seq<Change>)
      requires Valid()
      modifies this`queued, this`generation, lifecycle, events, lifecycle.items, events.items
      ensures Valid()
      ensures batch == NextBatch(old(Value()), batchSize)
      ensures Value() == AfterDrain(old(Value()), batchSize)
    {
      var n := Min(batchSize, lifecycle.Size() + events.Size());
      if n == 0 {
        return [];
      }
      DrainIs(Value(), batchSize, n, Min(n, |Value().lifecycle|));
      batch := TakeBatch(n);
      SignalSpace();
    }

    method SignalSpace()
      requires Valid()
      modifies this`queued, this`generation
      ensures Valid() && Value() == Signalled(old(Value()))
    {
      queued := lifecycle.Size() + events.Size();
      if waiters > 0 {
        generation := generation + 1;
      }
    }

    /** Takes n changes, lifecycle changes first. */
    method TakeBatch(n: nat) returns (batch: seq<Change>)
      requires Valid() && n <= Length(Value())
      modifies lifecycle, events, lifecycle.items, events.items
      ensures Valid() && lifecycle.items == old(lifecycle.items) && events.items == old(events.items)
      ensures var q, a := old(Value()), Min(n, |old(Value()).lifecycle|);
              batch == q.lifecycle[..a] + q.events[..n - a] && Value() == Rest(q, a, n - a)
    {
      batch := TakeLifecycle(n);
      var second := TakeEvents(n - |batch|);
      batch := batch + second;
    }

    method TakeLifecycle(n: nat) returns (taken: seq<Change>)
      requires Valid()
      modifies lifecycle, lifecycle.items
      ensures Valid() && lifecycle.items == old(lifecycle.items) && events.items == old(events.items)
      ensures |taken| == Min(n, |old(lifecycle.Contents())|)
      ensures taken == old(lifecycle.Contents())[..|taken|]
      ensures lifecycle.Contents() == old(lifecycle.Contents())[|taken|..]
      ensures events.Contents() == old(events.Contents())
    {
      taken := TakeFrom(lifecycle, n);
    }

    method TakeEvents(n: nat) returns (taken: seq<Change>)
      requires Valid()
      modifies events, events.items
      ensures Valid() && lifecycle.items == old(lifecycle.items) && events.items == old(events.items)
      ensures |taken| == Min(n, |old(events.Contents())|)
      ensures taken == old(events.Contents())[..|taken|]
      ensures events.Contents() == old(events.Contents())[|taken|..]
      ensures lifecycle.Contents() == old(lifecycle.Contents())
    {
      taken := TakeFrom(events, n);
    }

    /** Pops up to n items of one fifo. */
    static method TakeFrom(f: Fifo<Change>, n: nat) returns (taken: seq<Change>)
      requires f.Valid()
      modifies f, f.items
      ensures f.Valid() && f.items == old(f.items)
      ensures |taken| == Min(n, |old(f.Contents())|)
      ensures taken == old(f.Contents())[..|taken|]
      ensures f.Contents() == old(f.Contents())[|taken|..]
    {
      ghost var was := f.Contents();
      taken := [];
      while |taken| < n && f.Size() > 0
        invariant f.Valid() && f.items == old(f.items)
        invariant |taken| <= n && |taken| <= |was|
        invariant taken == was[..|taken|] && f.Contents() == was[|taken|..]
        decreases n - |taken|
      {
        var v := f.Pop();
        taken := taken + [v];
      }
    }

    /** After open no change is refused for good, whatever the queue holds. */
    method Open()
      requires Valid()
      modifies this`closed
      ensures Valid() && Value() == Opened(old(Value()))
      ensures forall c :: !Decide(Value(), capacity, c).RefusedClosed?
    {
      closed := false;
    }

    /** After close no change waits for space, and every earlier space channel is closed. */
    method Close()
      requires Valid()
      modifies this`closed, this`generation
      ensures Valid() && Value() == Closed(old(Value())) && old(generation) < generation
      ensures forall c :: !Decide(Value(), capacity, c).MustWait?
    {
      closed := true;
      generation := generation + 1;
    }
  }
}
