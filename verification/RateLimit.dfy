/**
 * The per-token rate limiter (internal/auth/ratelimit.go): token buckets that are
 * created full on first use and swept when idle. Tokens are real numbers here;
 * times are nanoseconds.
 */
module RateLimits {
  import C = Common

  type Key = nat
  type Time = int

  const SECOND: int := 1_000_000_000
  const MILLISECOND: int := 1_000_000
  const IDLE_TTL: int := 300 * SECOND
  const SWEEP_INTERVAL: int := 60 * SECOND
  const MAX_BUCKETS: nat := 100_000

  datatype Bucket = Bucket(rate: int, tokens: real, last: Time)

  datatype Limiter = Limiter(buckets: map<Key, Bucket>, lastSweep: Time)

  function Seconds(d: int): real {
    d as real / 1_000_000_000.0
  }

  function Min(a: real, b: real): real {
    if a < b then a else b
  }

  function Ceil(x: real): int {
    -((-x).Floor)
  }

  /** The bucket after the refill for the time since its last use. */
  function Refilled(b: Bucket, now: Time): Bucket {
    if now <= b.last then b
    else b.(tokens := Min(b.rate as real, b.tokens + Seconds(now - b.last) * b.rate as real), last := now)
  }

  /** The delay reported with a refusal. */
  function Wait(tokens: real, rate: int): int
    requires rate > 0
  {
    var w := Ceil((1.0 - tokens) / rate as real * 1_000_000_000.0);
    if w < MILLISECOND then MILLISECOND else w
  }

  function Swept(l: Limiter, now: Time): Limiter {
    Limiter(map k | k in l.buckets && now - l.buckets[k].last < IDLE_TTL :: l.buckets[k], now)
  }

  predicate SweepDue(l: Limiter, now: Time) {
    now - l.lastSweep >= SWEEP_INTERVAL || (|l.buckets| >= MAX_BUCKETS && now - l.lastSweep >= SECOND)
  }

  function AfterSweep(l: Limiter, now: Time): Limiter {
    if SweepDue(l, now) then Swept(l, now) else l
  }

  /** The bucket a call works on, full when it is new or its rate changed. */
  function BucketFor(l: Limiter, key: Key, rps: int, now: Time): Bucket {
    if key in l.buckets && l.buckets[key].rate == rps then l.buckets[key] else Bucket(rps, rps as real, now)
  }

  datatype Answer = Answer(ok: bool, wait: int)

  /** The bucket after one call, and the answer. */
  function Taken(b: Bucket, now: Time): (Bucket, Answer)
    requires b.rate > 0
  {
    var r := Refilled(b, now);
    if r.tokens >= 1.0 then (r.(tokens := r.tokens - 1.0), Answer(true, 0))
    else (r, Answer(false, Wait(r.tokens, r.rate)))
  }

  function Allowed(l: Limiter, key: Key, rps: int, now: Time): (Limiter, Answer) {
    if rps <= 0 then (l, Answer(true, 0)) else
      var s := AfterSweep(l, now);
      if key !in s.buckets && |s.buckets| >= MAX_BUCKETS then (s, Answer(true, 0)) else
        var r := Taken(BucketFor(s, key, rps, now), now);
        (s.(buckets := s.buckets[key := r.0]), r.1)
  }

  function Forgotten(l: Limiter, key: Key): Limiter {
    l.(buckets := l.buckets - {key})
  }

  class RateLimiter {
    var buckets: map<Key, Bucket>
    var lastSweep: Time

    ghost function Value(): Limiter
      reads this
    {
      Limiter(buckets, lastSweep)
    }

    constructor ()
      ensures Value() == Limiter(map[], 0)
    {
      buckets, lastSweep := map[], 0;
    }

    method Sweep(now: Time)
      modifies this
      ensures Value() == Swept(old(Value()), now)
    {
      lastSweep := now;
      ghost var before := buckets;
      var keys := buckets.Keys;
      while keys != {}
        modifies this`buckets
        invariant forall k :: k in keys ==> k in before
        invariant forall k :: k in buckets <==> k in before && (k in keys || now - before[k].last < IDLE_TTL)
        invariant forall k :: k in buckets ==> buckets[k] == before[k]
        decreases |keys|
      {
        var k :| k in keys;
        keys := keys - {k};
        if now - buckets[k].last >= IDLE_TTL {
          buckets := buckets - {k};
        }
      }
    }

    method SweepIfDue(now: Time)
      modifies this
      ensures Value() == AfterSweep(old(Value()), now)
    {
      var since := now - lastSweep;
      if since >= SWEEP_INTERVAL || (|buckets| >= MAX_BUCKETS && since >= SECOND) {
        Sweep(now);
      }
    }

    /** Refill, then consume a token or report the delay. */
    static method Take(bucket: Bucket, now: Time) returns (b: Bucket, answer: Answer)
      requires bucket.rate > 0
      ensures b == Taken(bucket, now).0 && answer == Taken(bucket, now).1
    {
      b := bucket;
      var elapsed := now - b.last;
      if elapsed > 0 {
        b := b.(tokens := Min(b.rate as real, b.tokens + Seconds(elapsed) * b.rate as real), last := now);
      }
      assert b == Refilled(bucket, now);
      if b.tokens >= 1.0 {
        b := b.(tokens := b.tokens - 1.0);
        answer := Answer(true, 0);
      } else {
        answer := Answer(false, Wait(b.tokens, b.rate));
      }
    }

    method Allow(key: Key, rps: int, now: Time) returns (answer: Answer)
      modifies this
      ensures (Value(), answer) == Allowed(old(Value()), key, rps, now)
    {
      if rps <= 0 {
        return Answer(true, 0);
      }
      SweepIfDue(now);
      if key !in buckets && |buckets| >= MAX_BUCKETS {
        return Answer(true, 0);
      }
      var b := if key in buckets && buckets[key].rate == rps then buckets[key] else Bucket(rps, rps as real, now);
      b, answer := Take(b, now);
      buckets := buckets[key := b];
    }

    /** The key's next call is allowed, whenever it comes and whatever its rate is then. */
    method Forget(key: Key)
      modifies this`buckets
      ensures Value() == Forgotten(old(Value()), key)
      ensures forall rps, now :: Allowed(Value(), key, rps, now).1.ok
    {
      buckets := buckets - {key};
    }
  }

  // --------------------------------------------- one bucket that is never removed

  /** A key's tokens in a limiter that keeps every bucket forever. */
  datatype Ideal = Ideal(level: real, at: Time)

  /** The tokens at a later time. */
  function Level(i: Ideal, rate: int, now: Time): real {
    Min(rate as real, i.level + Seconds(now - i.at) * rate as real)
  }

  predicate Grants(i: Ideal, rate: int, now: Time) {
    Level(i, rate, now) >= 1.0
  }

  function IdealAnswer(i: Ideal, rate: int, now: Time): Answer
    requires rate > 0
  {
    if Grants(i, rate, now) then Answer(true, 0) else Answer(false, Wait(Level(i, rate, now), rate))
  }

  function IdealStep(i: Ideal, rate: int, now: Time): Ideal {
    Ideal(Level(i, rate, now) - if Grants(i, rate, now) then 1.0 else 0.0, now)
  }

  datatype Call = Call(key: Key, rps: int, now: Time)

  /** The key's tokens after these calls: full at first, then only its own calls count. */
  function IdealAfter(rate: int, start: Time, calls: seq<Call>, key: Key): Ideal {
    if calls == [] then Ideal(rate as real, start) else
      var i := IdealAfter(rate, start, calls[..|calls| - 1], key);
      var c := calls[|calls| - 1];
      if c.key == key then IdealStep(i, rate, c.now) else i
  }

  /** Call n is allowed by the limiter that keeps every bucket. */
  ghost predicate IdealGrants(rate: int, start: Time, calls: seq<Call>, n: nat)
    requires n < |calls|
  {
    Grants(IdealAfter(rate, start, calls[..n], calls[n].key), rate, calls[n].now)
  }

  ghost predicate Ordered(start: Time, calls: seq<Call>) {
    && (forall i :: 0 <= i < |calls| ==> start <= calls[i].now)
    && forall i, j :: 0 <= i < j < |calls| ==> calls[i].now <= calls[j].now
  }

  // ---------------------------------------------------------------- refill arithmetic

  lemma Scaled(d: int, e: int, rate: int)
    requires 0 <= d <= e && rate > 0
    ensures 0.0 <= Seconds(d) * rate as real <= Seconds(e) * rate as real
  {
    var a, b, r := Seconds(d), Seconds(e), rate as real;
    assert 0.0 <= a <= b;
    assert 0.0 <= a * r <= b * r;
  }

  lemma Adds(d: int, e: int, rate: int)
    ensures Seconds(d + e) * rate as real == Seconds(d) * rate as real + Seconds(e) * rate as real
  {
    assert Seconds(d + e) == Seconds(d) + Seconds(e);
  }

  /** The level at a later time follows from the level now. */
  lemma LevelLater(i: Ideal, rate: int, now: Time, later: Time)
    requires i.at <= now <= later && rate > 0
    ensures Level(i, rate, later) == Level(Ideal(Level(i, rate, now), now), rate, later)
    ensures Level(i, rate, now) <= Level(i, rate, later) <= Level(i, rate, now) + Seconds(later - now) * rate as real
  {
    Adds(now - i.at, later - now, rate);
    Scaled(0, later - now, rate);
    assert (now - i.at) + (later - now) == later - i.at;
  }

  lemma FullAfterIdle(i: Ideal, rate: int, now: Time, later: Time)
    requires 0.0 <= i.level && rate > 0 && now - i.at >= IDLE_TTL && now <= later
    ensures Level(i, rate, later) == rate as real
  {
    Scaled(SECOND, later - i.at, rate);
    assert Seconds(SECOND) == 1.0;
  }

  lemma LevelBounds(i: Ideal, rate: int, now: Time)
    requires 0.0 <= i.level && i.at <= now && rate > 0
    ensures 0.0 <= Level(i, rate, now) <= rate as real
  {
    Scaled(0, now - i.at, rate);
    var gained := Seconds(now - i.at) * rate as real;
    assert 0.0 <= gained && Level(i, rate, now) == Min(rate as real, i.level + gained);
  }

  lemma {:induction false} IdealSound(rate: int, start: Time, calls: seq<Call>, key: Key)
    requires Ordered(start, calls) && rate > 0
    ensures var i := IdealAfter(rate, start, calls, key);
            && 0.0 <= i.level <= rate as real && start <= i.at
            && (forall n :: 0 <= n < |calls| && calls[n].key == key ==> calls[n].now <= i.at)
            && (calls == [] || i.at <= calls[|calls| - 1].now)
  {
    if calls != [] {
      var prefix := calls[..|calls| - 1];
      IdealSound(rate, start, prefix, key);
      var i := IdealAfter(rate, start, prefix, key);
      var c := calls[|calls| - 1];
      if c.key == key {
        assert prefix != [] ==> prefix[|prefix| - 1].now <= c.now;
        LevelBounds(i, rate, c.now);
      }
    }
  }

  // ---------------------------------------------- sweeping never changes an answer

  /** The key's bucket is the ideal one, or there is none of that rate and the ideal one is full. */
  predicate Tracks(buckets: map<Key, Bucket>, key: Key, rate: int, i: Ideal, now: Time) {
    && 0.0 <= i.level <= rate as real && i.at <= now
    && if key in buckets && buckets[key].rate == rate then buckets[key] == Bucket(rate, i.level, i.at)
       else Level(i, rate, now) == rate as real
  }

  lemma SweepTracks(l: Limiter, key: Key, rate: int, i: Ideal, now: Time, later: Time)
    requires rate > 0 && now <= later && Tracks(l.buckets, key, rate, i, now)
    ensures Tracks(AfterSweep(l, later).buckets, key, rate, i, later)
  {
    LevelLater(i, rate, now, later);
    if later - i.at >= IDLE_TTL {
      FullAfterIdle(i, rate, later, later);
    }
  }

  /** On a tracked key, the refilled bucket holds the ideal level. */
  lemma RefillTracks(l: Limiter, key: Key, rate: int, i: Ideal, now: Time)
    requires rate > 0 && Tracks(l.buckets, key, rate, i, now)
    ensures Refilled(BucketFor(l, key, rate, now), now) == Bucket(rate, Level(i, rate, now), now)
  {
    Scaled(0, now - i.at, rate);
    assert Seconds(0) * rate as real == 0.0;
  }

  /** On a tracked key, a call answers like the ideal bucket and stays tracked. */
  lemma CallTracks(l: Limiter, key: Key, rate: int, i: Ideal, now: Time)
    requires rate > 0 && Tracks(l.buckets, key, rate, i, now)
    ensures var b := Taken(BucketFor(l, key, rate, now), now);
            && b.1 == IdealAnswer(i, rate, now)
            && Tracks(l.buckets[key := b.0], key, rate, IdealStep(i, rate, now), now)
  {
    RefillTracks(l, key, rate, i, now);
    LevelBounds(i, rate, now);
  }

  /** A forgotten key starts again with a full bucket; every other key is tracked as before. */
  lemma ForgetTracks(l: Limiter, forgotten: Key, key: Key, rate: int, i: Ideal, now: Time)
    requires rate > 0 && Tracks(l.buckets, key, rate, i, now)
    ensures Tracks(Forgotten(l, forgotten).buckets, key, rate,
                   if key == forgotten then Ideal(rate as real, now) else i, now)
  {
    assert Seconds(0) * rate as real == 0.0;
  }

  /** The limiter before and after each of the calls, whatever it held at first. */
  ghost predicate IsRun(calls: seq<Call>, run: seq<Limiter>) {
    && |run| == |calls| + 1
    && forall i :: 0 <= i < |calls| ==> run[i + 1] == Allowed(run[i], calls[i].key, calls[i].rps, calls[i].now).0
  }

  /**
   * The key is used at one rate and starts without a bucket of that rate: new, forgotten,
   * swept, or used at another rate before. The bound of the map never turns it away: its
   * calls find its bucket or room for it. Other keys may do anything.
   */
  ghost predicate Regular(calls: seq<Call>, run: seq<Limiter>, key: Key, rate: int)
    requires |run| == |calls| + 1
  {
    && rate > 0 && !(key in run[0].buckets && run[0].buckets[key].rate == rate)
    && (forall i :: 0 <= i < |calls| && calls[i].key == key ==> calls[i].rps == rate)
    && forall i :: 0 <= i < |calls| && calls[i].key == key ==> HasRoom(AfterSweep(run[i], calls[i].now), key)
  }

  predicate HasRoom(l: Limiter, key: Key) {
    key in l.buckets || |l.buckets| < MAX_BUCKETS
  }

  function TimeOf(start: Time, calls: seq<Call>): Time {
    if calls == [] then start else calls[|calls| - 1].now
  }

  lemma TracksLater(buckets: map<Key, Bucket>, key: Key, rate: int, i: Ideal, now: Time, later: Time)
    requires rate > 0 && now <= later && Tracks(buckets, key, rate, i, now)
    ensures Tracks(buckets, key, rate, i, later)
  {
    LevelLater(i, rate, now, later);
  }

  /** One call, whatever its key and rate, keeps a key tracked. */
  lemma StepTracks(l: Limiter, key: Key, rate: int, i: Ideal, t: Time, c: Call, rps: int)
    requires rate > 0 && t <= c.now && Tracks(l.buckets, key, rate, i, t)
    requires c.key == key ==> rps == rate && HasRoom(AfterSweep(l, c.now), key)
    ensures Tracks(Allowed(l, c.key, rps, c.now).0.buckets, key, rate,
                   if c.key == key then IdealStep(i, rate, c.now) else i, c.now)
    ensures c.key == key ==> Allowed(l, c.key, rps, c.now).1 == IdealAnswer(i, rate, c.now)
  {
    TracksLater(l.buckets, key, rate, i, t, c.now);
    SweepTracks(l, key, rate, i, t, c.now);
    if c.key == key {
      CallTracks(AfterSweep(l, c.now), key, rate, i, c.now);
    }
  }

  lemma {:induction false} RunTracks(rate: int, start: Time, calls: seq<Call>, run: seq<Limiter>, n: nat,
                                     key: Key)
    requires IsRun(calls, run) && Regular(calls, run, key, rate) && Ordered(start, calls) && n <= |calls|
    requires rate > 0
    ensures Tracks(run[n].buckets, key, rate, IdealAfter(rate, start, calls[..n], key), TimeOf(start, calls[..n]))
  {
    if n == 0 {
      assert Seconds(0) * rate as real == 0.0;
    } else {
      RunTracks(rate, start, calls, run, n - 1, key);
      var c, i := calls[n - 1], IdealAfter(rate, start, calls[..n - 1], key);
      assert calls[..n][..n - 1] == calls[..n - 1] && calls[..n][n - 1] == c;
      assert c.key == key ==> HasRoom(AfterSweep(run[n - 1], c.now), key);
      StepTracks(run[n - 1], key, rate, i, TimeOf(start, calls[..n - 1]), c, c.rps);
    }
  }

  /**
   * From the first call of a key at a rate on, with a clock that never goes back, no forget
   * and room in the map, every call of the key at that rate is answered as if buckets were
   * never removed, whatever other keys do and whatever the key's earlier rate was.
   */
  lemma SweepingNeverShows(rate: int, start: Time, calls: seq<Call>, run: seq<Limiter>, n: nat)
    requires IsRun(calls, run) && Ordered(start, calls) && n < |calls|
    requires Regular(calls, run, calls[n].key, rate) && rate > 0
    ensures var c := calls[n];
            Allowed(run[n], c.key, rate, c.now).1
              == IdealAnswer(IdealAfter(rate, start, calls[..n], c.key), rate, c.now)
  {
    var c := calls[n];
    RunTracks(rate, start, calls, run, n, c.key);
    assert HasRoom(AfterSweep(run[n], c.now), c.key);
    StepTracks(run[n], c.key, rate, IdealAfter(rate, start, calls[..n], c.key), TimeOf(start, calls[..n]), c,
               c.rps);
  }

  /** The first call at a new rate finds a full bucket of that rate: it is allowed and takes one token. */
  lemma NewRateStartsFull(l: Limiter, key: Key, rps: int, now: Time)
    requires rps > 0 && !(key in l.buckets && l.buckets[key].rate == rps) && HasRoom(AfterSweep(l, now), key)
    ensures Allowed(l, key, rps, now).1 == Answer(true, 0)
    ensures key in Allowed(l, key, rps, now).0.buckets
    ensures Allowed(l, key, rps, now).0.buckets[key] == Bucket(rps, rps as real - 1.0, now)
  {
  }

  // ------------------------------------------------------------------ the map of buckets

  lemma {:induction false} BucketsAreBounded(calls: seq<Call>, run: seq<Limiter>, n: nat)
    requires IsRun(calls, run) && n < |run| && |run[0].buckets| <= MAX_BUCKETS
    ensures |run[n].buckets| <= MAX_BUCKETS
  {
    if n > 0 {
      BucketsAreBounded(calls, run, n - 1);
      CallIsBounded(run[n - 1], calls[n - 1].key, calls[n - 1].rps, calls[n - 1].now);
    }
  }

  lemma CallIsBounded(l: Limiter, key: Key, rps: int, now: Time)
    requires |l.buckets| <= MAX_BUCKETS
    ensures |Allowed(l, key, rps, now).0.buckets| <= MAX_BUCKETS
  {
    var s := AfterSweep(l, now);
    assert s.buckets.Keys <= l.buckets.Keys;
    C.SubsetSize(s.buckets.Keys, l.buckets.Keys);
    assert |s.buckets.Keys| == |s.buckets| && |l.buckets.Keys| == |l.buckets|;
  }

  /**
   * A limited call a minute after the last sweep, or a second after it when the map is full,
   * leaves no bucket that was idle for five minutes, and only such a call removes any.
   */
  lemma IdleBucketsGo(l: Limiter, key: Key, rps: int, now: Time, k: Key)
    requires rps > 0 && k != key && k in l.buckets
    ensures k !in Allowed(l, key, rps, now).0.buckets <==>
            && now - l.buckets[k].last >= 300 * SECOND
            && (now - l.lastSweep >= 60 * SECOND || (|l.buckets| >= MAX_BUCKETS && now - l.lastSweep >= SECOND))
    ensures k in Allowed(l, key, rps, now).0.buckets ==> Allowed(l, key, rps, now).0.buckets[k] == l.buckets[k]
  {
  }

  // --------------------------------------------------------------- the window bound

  /** How many of the calls i..j of the key are allowed. */
  ghost function Granted(rate: int, start: Time, calls: seq<Call>, key: Key, i: nat, j: nat): nat
    requires i <= j <= |calls|
    decreases j
  {
    if i == j then 0
    else Granted(rate, start, calls, key, i, j - 1)
         + if calls[j - 1].key == key && IdealGrants(rate, start, calls, j - 1) then 1 else 0
  }

  /** What call j - 1 takes from the key's level. */
  lemma CallTakes(rate: int, start: Time, calls: seq<Call>, key: Key, j: nat)
    requires Ordered(start, calls) && 0 < j <= |calls| && rate > 0
    ensures var p, n := IdealAfter(rate, start, calls[..j - 1], key), IdealAfter(rate, start, calls[..j], key);
            && p.at <= calls[j - 1].now && (j > 1 ==> p.at <= calls[j - 2].now)
            && Level(n, rate, calls[j - 1].now) == Level(p, rate, calls[j - 1].now)
                 - if calls[j - 1].key == key && IdealGrants(rate, start, calls, j - 1) then 1.0 else 0.0
  {
    var p, c := IdealAfter(rate, start, calls[..j - 1], key), calls[j - 1];
    assert calls[..j][..j - 1] == calls[..j - 1] && calls[..j][j - 1] == c;
    IdealSound(rate, start, calls[..j - 1], key);
    OneCall(p, rate, c.now);
  }

  lemma OneCall(p: Ideal, rate: int, now: Time)
    requires p.at <= now && rate > 0 && 0.0 <= p.level <= rate as real
    ensures Level(IdealStep(p, rate, now), rate, now) == Level(p, rate, now) - if Grants(p, rate, now) then 1.0 else 0.0
  {
    assert Seconds(0) * rate as real == 0.0;
  }

  /** The refill of d, capped by nothing. */
  function Inflow(d: int, rate: int): real {
    Seconds(d) * rate as real
  }

  /** What was granted and what is left never exceed what was there and what flowed in. */
  lemma {:induction false} Budget(rate: int, start: Time, calls: seq<Call>, key: Key, i: nat, j: nat)
    requires Ordered(start, calls) && i < j <= |calls| && rate > 0
    ensures Granted(rate, start, calls, key, i, j) as real
            + Level(IdealAfter(rate, start, calls[..j], key), rate, calls[j - 1].now)
            <= rate as real + Inflow(calls[j - 1].now - calls[i].now, rate)
    decreases j
  {
    CallTakes(rate, start, calls, key, j);
    var p := IdealAfter(rate, start, calls[..j - 1], key);
    if i == j - 1 {
      assert Granted(rate, start, calls, key, i, j - 1) == 0;
      assert Inflow(0, rate) == 0.0;
    } else {
      Budget(rate, start, calls, key, i, j - 1);
      Flow(p, rate, calls[i].now, calls[j - 2].now, calls[j - 1].now);
    }
  }

  lemma Flow(p: Ideal, rate: int, first: Time, t: Time, now: Time)
    requires p.at <= t <= now && rate > 0
    ensures Level(p, rate, now) - Level(p, rate, t) <= Inflow(now - first, rate) - Inflow(t - first, rate)
  {
    LevelLater(p, rate, t, now);
    Adds(t - first, now - t, rate);
  }

  /** In any window of d, a key is allowed at most d * rate + rate calls. */
  lemma WindowBound(rate: int, start: Time, calls: seq<Call>, key: Key, i: nat, j: nat, d: int)
    requires Ordered(start, calls) && i < j <= |calls| && rate > 0
    requires calls[j - 1].now - calls[i].now <= d
    ensures Granted(rate, start, calls, key, i, j) as real <= Inflow(d, rate) + rate as real
  {
    var granted, span := Granted(rate, start, calls, key, i, j), calls[j - 1].now - calls[i].now;
    assert granted as real <= rate as real + Inflow(span, rate) by {
      Budget(rate, start, calls, key, i, j);
      NotNegative(rate, start, calls, key, j);
    }
    InflowGrows(span, d, rate);
  }

  lemma InflowGrows(d: int, e: int, rate: int)
    requires 0 <= d <= e && rate > 0
    ensures Inflow(d, rate) <= Inflow(e, rate)
  {
    Scaled(d, e, rate);
  }

  lemma NotNegative(rate: int, start: Time, calls: seq<Call>, key: Key, j: nat)
    requires Ordered(start, calls) && 0 < j <= |calls| && rate > 0
    ensures Level(IdealAfter(rate, start, calls[..j], key), rate, calls[j - 1].now) >= 0.0
  {
    IdealSound(rate, start, calls[..j], key);
    LevelBounds(IdealAfter(rate, start, calls[..j], key), rate, calls[j - 1].now);
  }

  /** How many of the calls i..j of the key the limiter itself allowed. */
  ghost function Allowances(rate: int, calls: seq<Call>, run: seq<Limiter>, key: Key, i: nat, j: nat): nat
    requires i <= j <= |calls| && |run| == |calls| + 1
    decreases j
  {
    if i == j then 0
    else Allowances(rate, calls, run, key, i, j - 1)
         + if calls[j - 1].key == key && Allowed(run[j - 1], key, rate, calls[j - 1].now).1.ok then 1 else 0
  }

  lemma {:induction false} AllowancesAreIdeal(rate: int, start: Time, calls: seq<Call>, run: seq<Limiter>,
                                              key: Key, i: nat, j: nat)
    requires IsRun(calls, run) && Regular(calls, run, key, rate) && Ordered(start, calls) && i <= j <= |calls|
    requires rate > 0
    ensures Allowances(rate, calls, run, key, i, j) == Granted(rate, start, calls, key, i, j)
    decreases j
  {
    if i < j {
      AllowancesAreIdeal(rate, start, calls, run, key, i, j - 1);
      if calls[j - 1].key == key {
        SweepingNeverShows(rate, start, calls, run, j - 1);
      }
    }
  }

  /** The limiter allows a key at most rate * d + rate calls in any window of d. */
  lemma LimiterWindowBound(rate: int, start: Time, calls: seq<Call>, run: seq<Limiter>, key: Key,
                           i: nat, j: nat, d: int)
    requires IsRun(calls, run) && Regular(calls, run, key, rate) && Ordered(start, calls) && i < j <= |calls|
    requires rate > 0 && calls[j - 1].now - calls[i].now <= d
    ensures Allowances(rate, calls, run, key, i, j) as real <= Inflow(d, rate) + rate as real
  {
    AllowancesAreIdeal(rate, start, calls, run, key, i, j);
    WindowBound(rate, start, calls, key, i, j, d);
  }

  // ------------------------------------------------------------- the reported delay

  lemma CeilBounds(x: real)
    ensures x <= Ceil(x) as real < x + 1.0
  {
  }

  lemma EnoughTime(need: real, rate: real, gone: real)
    requires rate > 0.0
    ensures need / rate <= gone <==> need <= gone * rate
  {
    assert need == need / rate * rate;
    if need / rate <= gone {
      assert need / rate * rate <= gone * rate;
    } else {
      assert gone * rate < need / rate * rate;
    }
  }

  /** After a refusal and d more nanoseconds, the bucket holds a token again iff d reached the need. */
  lemma TokenAfter(level: real, rate: int, now: Time, d: int)
    requires rate > 0 && level < 1.0
    ensures Grants(Ideal(level, now), rate, now + d) <==> (1.0 - level) / rate as real * 1_000_000_000.0 <= d as real
  {
    EnoughTime(1.0 - level, rate as real, Seconds(d));
    assert rate as real >= 1.0;
  }

  lemma {:induction false} Untouched(rate: int, start: Time, calls: seq<Call>, key: Key, n: nat, m: nat)
    requires n <= m <= |calls| && forall k :: n <= k < m ==> calls[k].key != key
    ensures IdealAfter(rate, start, calls[..m], key) == IdealAfter(rate, start, calls[..n], key)
  {
    if n < m {
      Untouched(rate, start, calls, key, n, m - 1);
      assert calls[..m][..m - 1] == calls[..m - 1] && calls[..m][m - 1] == calls[m - 1];
    }
  }

  /** What a refusal leaves behind: less than one token, and the delay computed from it. */
  lemma RefusedCall(rate: int, start: Time, calls: seq<Call>, run: seq<Limiter>, n: nat) returns (level: real)
    requires IsRun(calls, run) && Ordered(start, calls) && n < |calls|
    requires Regular(calls, run, calls[n].key, rate) && rate > 0
    requires !Allowed(run[n], calls[n].key, rate, calls[n].now).1.ok
    ensures level < 1.0 && IdealAfter(rate, start, calls[..n + 1], calls[n].key) == Ideal(level, calls[n].now)
    ensures Allowed(run[n], calls[n].key, rate, calls[n].now).1.wait == Wait(level, rate)
  {
    var key, r := calls[n].key, rate;
    var i := IdealAfter(rate, start, calls[..n], key);
    RunTracks(rate, start, calls, run, n, key);
    assert HasRoom(AfterSweep(run[n], calls[n].now), key);
    StepTracks(run[n], key, r, i, TimeOf(start, calls[..n]), calls[n], r);
    assert calls[..n + 1][..n] == calls[..n] && calls[..n + 1][n] == calls[n];
    level := Level(i, r, calls[n].now);
  }

  /**
   * A refused caller that comes back after the reported delay is allowed when nobody else
   * used its key meanwhile. One that comes back earlier is refused again, unless the delay
   * is the minimum of a millisecond.
   */
  lemma RetryAfterWait(rate: int, start: Time, calls: seq<Call>, run: seq<Limiter>, n: nat, m: nat)
    requires IsRun(calls, run) && Ordered(start, calls) && n < m < |calls|
    requires Regular(calls, run, calls[n].key, rate) && rate > 0 && calls[m].key == calls[n].key
    requires forall k :: n < k < m ==> calls[k].key != calls[n].key
    requires !Allowed(run[n], calls[n].key, rate, calls[n].now).1.ok
    ensures var wait := Allowed(run[n], calls[n].key, rate, calls[n].now).1.wait;
            var again := Allowed(run[m], calls[m].key, rate, calls[m].now).1.ok;
            && (calls[m].now >= calls[n].now + wait ==> again)
            && (calls[m].now < calls[n].now + wait && wait > MILLISECOND ==> !again)
  {
    var key := calls[n].key;
    var level := RefusedCall(rate, start, calls, run, n);
    var again := Grants(Ideal(level, calls[n].now), rate, calls[m].now);
    assert Allowed(run[m], key, rate, calls[m].now).1.ok == again by {
      SweepingNeverShows(rate, start, calls, run, m);
      Untouched(rate, start, calls, key, n + 1, m);
    }
    RetryLaw(level, rate, calls[n].now, calls[m].now);
  }

  lemma RetryLaw(level: real, rate: int, now: Time, later: Time)
    requires rate > 0 && level < 1.0
    ensures later >= now + Wait(level, rate) ==> Grants(Ideal(level, now), rate, later)
    ensures later < now + Wait(level, rate) && Wait(level, rate) > MILLISECOND ==>
              !Grants(Ideal(level, now), rate, later)
  {
    TokenAfter(level, rate, now, later - now);
    WaitIsNeed(level, rate, later - now);
  }

  lemma WaitIsNeed(level: real, rate: int, d: int)
    requires rate > 0
    ensures d >= Wait(level, rate) ==> (1.0 - level) / rate as real * 1_000_000_000.0 <= d as real
    ensures d < Wait(level, rate) && Wait(level, rate) > MILLISECOND ==>
              (1.0 - level) / rate as real * 1_000_000_000.0 > d as real
  {
    CeilBounds((1.0 - level) / rate as real * 1_000_000_000.0);
  }
}
