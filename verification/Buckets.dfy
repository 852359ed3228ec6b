/**
 * Epoch-aligned time buckets (internal/analytics/timerange.go) and the series built
 * over them (internal/analytics/timeseries.go). Times are nanoseconds since the Unix
 * epoch and may be negative.
 */
module Buckets {

  type Time = int

  const SECOND: int := 1_000_000_000
  const MINUTE: int := 60 * SECOND
  const HOUR: int := 60 * MINUTE
  const DAY: int := 24 * HOUR

  const MAX_POINTS: int := 720
  const MAX_RANGE: int := 31 * DAY

  /** The supported steps, smallest first. */
  const STEPS: seq<int> := [MINUTE, 5 * MINUTE, 15 * MINUTE, HOUR, 6 * HOUR, DAY]

  /** A step of whole seconds. */
  predicate IsStep(step: int) {
    step > 0 && step % SECOND == 0
  }

  // ---------------------------------------------------------------------- alignment

  /** Go's division of integers: towards zero. */
  function Quotient(a: int, b: int): int
    requires b > 0
  {
    if a >= 0 then a / b else -((-a) / b)
  }

  function Remainder(a: int, b: int): int
    requires b > 0
  {
    a - Quotient(a, b) * b
  }

  /** time.Unix: whole seconds, rounded down. */
  function UnixSeconds(t: Time): int {
    t / SECOND
  }

  function AlignDown(t: Time, step: int): Time
    requires IsStep(step)
  {
    StepSeconds(step);
    var sec := step / SECOND;
    var unix := UnixSeconds(t);
    var q := Quotient(unix, sec) - if Remainder(unix, sec) != 0 && unix < 0 then 1 else 0;
    q * sec * SECOND
  }

  function AlignUp(t: Time, step: int): Time
    requires IsStep(step)
  {
    var down := AlignDown(t, step);
    if down == t then down else down + step
  }

  function BucketCount(start: Time, end: Time, step: int): int
    requires IsStep(step)
  {
    Quotient(AlignUp(end, step) - AlignDown(start, step), step)
  }

  lemma StepSeconds(step: int)
    requires IsStep(step)
    ensures step / SECOND > 0 && step == step / SECOND * SECOND
  {
  }

  /** The corrected quotient is the floor. */
  lemma FloorQuotient(a: int, b: int)
    requires b > 0
    ensures Quotient(a, b) - (if Remainder(a, b) != 0 && a < 0 then 1 else 0) == a / b
  {
    if a < 0 {
      var q, r := (-a) / b, (-a) % b;
      assert -a == q * b + r;
      if r == 0 {
        DivIs(a, b, -q);
      } else {
        DivIs(a, b, -q - 1);
      }
    }
  }

  lemma Monotone(a: int, b: int, c: int)
    requires c > 0
    ensures a < b <==> a * c < b * c
    ensures a <= b <==> a * c <= b * c
    ensures a < b ==> a * c + c <= b * c
  {
    assert a <= b ==> a * c <= b * c;
    assert b <= a ==> b * c <= a * c;
    assert (a + 1) * c == a * c + c;
    assert a < b ==> (a + 1) * c <= b * c;
  }

  lemma DivIs(a: int, b: int, q: int)
    requires b > 0 && q * b <= a < q * b + b
    ensures a / b == q
  {
    var d := a / b;
    assert d * b <= a < d * b + b;
    Monotone(d, q, b);
    Monotone(q, d, b);
  }

  /** The bucket of t starts at the last multiple of the step not after t. */
  lemma AlignDownIsFloor(t: Time, step: int)
    requires IsStep(step)
    ensures AlignDown(t, step) == t / step * step
    ensures AlignDown(t, step) <= t < AlignDown(t, step) + step
  {
    StepSeconds(step);
    var sec, unix := step / SECOND, UnixSeconds(t);
    FloorQuotient(unix, sec);
    var q := unix / sec;
    assert AlignDown(t, step) == q * sec * SECOND;
    assert q * sec <= unix <= q * sec + sec - 1;
    assert q * step == q * sec * SECOND;
    DivIs(t, step, q);
  }

  /** The multiple of the step that alignUp returns. */
  function UpIndex(t: Time, step: int): int
    requires step > 0
  {
    if t == t / step * step then t / step else t / step + 1
  }

  lemma AlignUpIsCeiling(t: Time, step: int)
    requires IsStep(step)
    ensures AlignUp(t, step) == UpIndex(t, step) * step
    ensures t <= AlignUp(t, step) < t + step
  {
    AlignDownIsFloor(t, step);
    var q := t / step;
    assert (q + 1) * step == q * step + step;
  }

  /** No multiple of the step in front of alignUp reaches t. */
  lemma AlignUpIsLeast(t: Time, step: int, m: int)
    requires IsStep(step) && t <= m * step
    ensures AlignUp(t, step) <= m * step
  {
    AlignUpIsCeiling(t, step);
    var u := UpIndex(t, step);
    Monotone(u, m, step);
    Monotone(m, u, step);
  }

  // ---------------------------------------------------------------------- partition

  predicate InBucket(t: Time, from: Time, step: int, i: int) {
    from + i * step <= t < from + i * step + step
  }

  lemma StepsApart(from: int, to: int, step: int, a: int, b: int)
    requires step > 0 && from == a * step && to == b * step && from <= to
    ensures Quotient(to - from, step) == b - a >= 0
    ensures from + (b - a) * step == to
  {
    assert b * step - a * step == (b - a) * step;
    Monotone(b, a, step);
    DivIs((b - a) * step, step, b - a);
  }

  /** The number of buckets is exact: from and to are that many steps apart. */
  lemma CountIsExact(start: Time, end: Time, step: int)
    requires IsStep(step) && start <= end
    ensures var n := BucketCount(start, end, step);
            && n >= 0 && AlignDown(start, step) + n * step == AlignUp(end, step)
            && n * step < end - start + 2 * step
  {
    AlignDownIsFloor(start, step);
    AlignUpIsCeiling(end, step);
    var from, to := AlignDown(start, step), AlignUp(end, step);
    StepsApart(from, to, step, start / step, UpIndex(end, step));
  }

  /** bucketIndex: the position of ts among the buckets from `from` on, or -1. */
  function BucketIndex(ts: Time, from: Time, step: int, buckets: nat): (r: int)
    requires step > 0
    ensures -1 <= r < buckets
  {
    var d := ts - from;
    if d < 0 then -1 else
      var i := Quotient(d, step);
      if i >= buckets then -1 else i
  }

  /** The index is the one bucket that holds ts, and -1 exactly when none does. */
  lemma IndexIsBucket(ts: Time, from: Time, step: int, buckets: nat, i: nat)
    requires step > 0 && i < buckets
    ensures BucketIndex(ts, from, step, buckets) == i <==> InBucket(ts, from, step, i)
  {
    var d := ts - from;
    if d >= 0 {
      var q := d / step;
      assert q * step <= d < q * step + step;
      Monotone(q, i, step);
      Monotone(i, q, step);
    } else {
      Monotone(0, i, step);
    }
  }

  lemma IndexInRange(ts: Time, from: Time, step: int, buckets: nat)
    requires step > 0
    ensures BucketIndex(ts, from, step, buckets) != -1 <==> from <= ts < from + buckets * step
  {
    var d := ts - from;
    if d >= 0 {
      var q := d / step;
      assert q * step <= d < q * step + step;
      Monotone(q, buckets, step);
      Monotone(buckets, q, step);
    }
  }

  /**
   * The aligned buckets partition the range: every instant from start up to end, negative
   * or with a fraction of a second too, lies in exactly one of them.
   */
  lemma BucketsPartition(start: Time, end: Time, step: int, ts: Time) returns (i: nat)
    requires IsStep(step) && start <= ts < end
    ensures i < BucketCount(start, end, step) && InBucket(ts, AlignDown(start, step), step, i)
    ensures forall j: nat ::
              j < BucketCount(start, end, step) && InBucket(ts, AlignDown(start, step), step, j) ==> j == i
  {
    CountIsExact(start, end, step);
    AlignDownIsFloor(start, step);
    AlignUpIsCeiling(end, step);
    var from, n := AlignDown(start, step), BucketCount(start, end, step);
    IndexInRange(ts, from, step, n);
    i := BucketIndex(ts, from, step, n);
    forall j: nat | j < n
      ensures BucketIndex(ts, from, step, n) == j <==> InBucket(ts, from, step, j)
    {
      IndexIsBucket(ts, from, step, n, j);
    }
  }

  // ------------------------------------------------------------------ choosing a step

  datatype Choice = TooLong | Chosen(step: int)

  predicate Suits(start: Time, end: Time, requested: int, step: int)
    requires IsStep(step)
  {
    requested <= step && BucketCount(start, end, step) <= MAX_POINTS
  }

  method ChooseStep(start: Time, end: Time, requested: int) returns (c: Choice)
    ensures c.Chosen? ==> c.step in STEPS && IsStep(c.step) && Suits(start, end, requested, c.step)
    ensures forall s :: s in STEPS && IsStep(s) && Suits(start, end, requested, s) ==> c.Chosen? && c.step <= s
  {
    for i := 0 to |STEPS|
      invariant forall k :: 0 <= k < i ==> IsStep(STEPS[k]) && !Suits(start, end, requested, STEPS[k])
    {
      var st := STEPS[i];
      assert forall k :: i <= k < |STEPS| ==> STEPS[i] <= STEPS[k];
      if st < requested {
        continue;
      }
      if BucketCount(start, end, st) <= MAX_POINTS {
        return Chosen(st);
      }
    }
    c := TooLong;
  }

  /** Up to 31 days the longest step always suits, so no supported or automatic request fails. */
  lemma DayAlwaysSuits(start: Time, end: Time, requested: int)
    requires start <= end && end - start <= MAX_RANGE && (requested == 0 || requested in STEPS)
    ensures DAY in STEPS && IsStep(DAY) && Suits(start, end, requested, DAY)
  {
    assert STEPS[5] == DAY;
    CountIsExact(start, end, DAY);
    var n := BucketCount(start, end, DAY);
  }
}
