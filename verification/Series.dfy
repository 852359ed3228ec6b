/**
 * The series over aligned buckets (internal/analytics/timeseries.go): rows are
 * counted into buckets, in one rate series, in one series per result, or as ratios.
 */
module Series {
  import opened Buckets
  import opened Sorting

  /** The result or outcome of a row, numbered in sort order. */
  type Name = nat

  datatype Row = Row(ts: Time, name: Name, count: int)

  /** The buckets of a query. */
  datatype Grid = Grid(from: Time, step: int, buckets: nat)

  predicate IsGrid(g: Grid) {
    g.step > 0
  }

  datatype Point = Point(ts: Time, value: real)

  datatype Series = Series(name: Name, points: seq<Point>)

  function IndexOf(r: Row, g: Grid): (i: int)
    requires IsGrid(g)
    ensures -1 <= i < g.buckets
  {
    BucketIndex(r.ts, g.from, g.step, g.buckets)
  }

  /** The count of the rows in bucket i. */
  function Tally(rows: seq<Row>, g: Grid, i: int): int
    requires IsGrid(g)
  {
    if rows == [] then 0 else
      var r := rows[|rows| - 1];
      Tally(rows[..|rows| - 1], g, i) + if IndexOf(r, g) == i then r.count else 0
  }

  /** The count of the rows in the range of the grid. */
  function Total(rows: seq<Row>, g: Grid): int
    requires IsGrid(g)
  {
    if rows == [] then 0 else
      var r := rows[|rows| - 1];
      Total(rows[..|rows| - 1], g) + if g.from <= r.ts < g.from + g.buckets * g.step then r.count else 0
  }

  function Named(rows: seq<Row>, name: Name): seq<Row> {
    if rows == [] then [] else
      var r := rows[|rows| - 1];
      var before := Named(rows[..|rows| - 1], name);
      if r.name == name then before + [r] else before
  }

  // ---------------------------------------------------------------------- building

  method NewPoints(g: Grid) returns (points: array<Point>)
    ensures fresh(points) && points.Length == g.buckets
    ensures forall i :: 0 <= i < g.buckets ==> points[i] == Point(g.from + i * g.step, 0.0)
  {
    points := new Point[g.buckets](_ => Point(0, 0.0));
    for i := 0 to g.buckets
      invariant forall k :: 0 <= k < i ==> points[k] == Point(g.from + k * g.step, 0.0)
    {
      points[i] := Point(g.from + i * g.step, 0.0);
    }
  }

  /** The seconds of a step. */
  function StepLength(g: Grid): (r: real)
    requires IsGrid(g)
    ensures r > 0.0
  {
    g.step as real / SECOND as real
  }

  /** Every point is the count of the rows in its bucket. */
  ghost predicate AreCounts(points: seq<Point>, rows: seq<Row>, g: Grid)
    requires IsGrid(g)
  {
    && |points| == g.buckets
    && forall i :: 0 <= i < g.buckets ==> points[i] == Point(g.from + i * g.step, Tally(rows, g, i) as real)
  }

  /** There is a point for the start of every bucket. */
  ghost predicate AtStarts(points: seq<Point>, g: Grid) {
    |points| == g.buckets && forall i :: 0 <= i < g.buckets ==> points[i].ts == g.from + i * g.step
  }

  /** Every point has the count of the rows in its bucket over the seconds of a step. */
  ghost predicate HaveRates(points: seq<Point>, rows: seq<Row>, g: Grid)
    requires IsGrid(g)
  {
    && |points| == g.buckets
    && forall i :: 0 <= i < g.buckets ==> points[i].value == Tally(rows, g, i) as real / StepLength(g)
  }

  /** The first loop of acquireSeries for acquire_rate. */
  method BucketCounts(rows: seq<Row>, g: Grid) returns (points: array<Point>)
    requires IsGrid(g)
    ensures fresh(points) && AreCounts(points[..], rows, g)
  {
    points := NewPoints(g);
    for n := 0 to |rows|
      invariant forall i :: 0 <= i < g.buckets ==>
        points[i] == Point(g.from + i * g.step, Tally(rows[..n], g, i) as real)
    {
      assert rows[..n + 1][..n] == rows[..n];
      var i := BucketIndex(rows[n].ts, g.from, g.step, g.buckets);
      if i >= 0 {
        points[i] := points[i].(value := points[i].value + rows[n].count as real);
      }
    }
    assert rows[..|rows|] == rows;
  }

  function Divided(points: seq<Point>, seconds: real): seq<Point>
    requires seconds != 0.0
  {
    seq(|points|, i requires 0 <= i < |points| => points[i].(value := points[i].value / seconds))
  }

  /** Its second loop. */
  method DividePoints(points: array<Point>, seconds: real)
    requires seconds != 0.0
    modifies points
    ensures points[..] == Divided(old(points[..]), seconds)
  {
    for i := 0 to points.Length
      invariant forall k :: i <= k < points.Length ==> points[k] == old(points[k])
      invariant forall k :: 0 <= k < i ==> points[k] == old(points[k]).(value := old(points[k]).value / seconds)
    {
      points[i] := points[i].(value := points[i].value / seconds);
    }
  }

  lemma DividedCounts(counts: seq<Point>, rows: seq<Row>, g: Grid)
    requires IsGrid(g) && AreCounts(counts, rows, g)
    ensures AtStarts(Divided(counts, StepLength(g)), g) && HaveRates(Divided(counts, StepLength(g)), rows, g)
  {
  }

  /** The acquire_rate series. */
  method AcquireRate(rows: seq<Row>, g: Grid) returns (points: array<Point>)
    requires IsGrid(g)
    ensures fresh(points) && AtStarts(points[..], g) && HaveRates(points[..], rows, g)
  {
    points := BucketCounts(rows, g);
    DividedCounts(points[..], rows, g);
    DividePoints(points, StepLength(g));
  }

  /** A zero point per bucket. */
  function Zeros(g: Grid): (z: seq<Point>)
    ensures |z| == g.buckets
    ensures forall i :: 0 <= i < g.buckets ==> z[i] == Point(g.from + i * g.step, 0.0)
  {
    seq(g.buckets, i => Point(g.from + i * g.step, 0.0))
  }

  /** The points of one name. */
  ghost predicate Counts(points: seq<Point>, rows: seq<Row>, g: Grid, name: Name)
    requires IsGrid(g)
  {
    && |points| == g.buckets
    && forall i :: 0 <= i < g.buckets ==>
         points[i] == Point(g.from + i * g.step, Tally(Named(rows, name), g, i) as real)
  }

  /** Some row of this name lies in the range. */
  ghost predicate Occurs(rows: seq<Row>, g: Grid, name: Name)
    requires IsGrid(g)
  {
    exists k :: 0 <= k < |rows| && rows[k].name == name && IndexOf(rows[k], g) >= 0
  }

  /** The series of every name that occurs, and of no other. */
  ghost predicate ByName(byName: map<Name, seq<Point>>, rows: seq<Row>, g: Grid)
    requires IsGrid(g)
  {
    && (forall name :: name in byName <==> Occurs(rows, g, name))
    && forall name :: name in byName ==> Counts(byName[name], rows, g, name)
  }

  lemma {:induction false} AbsentTally(rows: seq<Row>, g: Grid, name: Name, i: int)
    requires IsGrid(g) && !Occurs(rows, g, name) && 0 <= i
    ensures Tally(Named(rows, name), g, i) == 0
  {
    if rows != [] {
      var prefix, r := rows[..|rows| - 1], rows[|rows| - 1];
      assert forall k :: 0 <= k < |prefix| ==> prefix[k] == rows[k];
      assert !Occurs(prefix, g, name);
      AbsentTally(prefix, g, name, i);
      assert r.name == name ==> (Named(prefix, name) + [r])[..|Named(prefix, name)|] == Named(prefix, name);
    }
  }

  lemma NamedTally(rows: seq<Row>, r: Row, g: Grid, name: Name, i: int)
    requires IsGrid(g)
    ensures Tally(Named(rows + [r], name), g, i) ==
            Tally(Named(rows, name), g, i) + if r.name == name && IndexOf(r, g) == i then r.count else 0
  {
    assert (rows + [r])[..|rows|] == rows;
    var before := Named(rows, name);
    assert (before + [r])[..|before|] == before;
  }

  lemma OccursMore(rows: seq<Row>, r: Row, g: Grid, name: Name)
    requires IsGrid(g)
    ensures Occurs(rows + [r], g, name) <==> Occurs(rows, g, name) || (r.name == name && IndexOf(r, g) >= 0)
  {
    var all := rows + [r];
    if Occurs(rows, g, name) {
      var k :| 0 <= k < |rows| && rows[k].name == name && IndexOf(rows[k], g) >= 0;
      assert all[k] == rows[k];
    }
    if r.name == name && IndexOf(r, g) >= 0 {
      assert all[|rows|] == r;
    }
  }

  lemma CountsOther(points: seq<Point>, rows: seq<Row>, r: Row, g: Grid, name: Name)
    requires IsGrid(g) && Counts(points, rows, g, name) && (r.name != name || IndexOf(r, g) < 0)
    ensures Counts(points, rows + [r], g, name)
  {
    forall i | 0 <= i < g.buckets
      ensures points[i] == Point(g.from + i * g.step, Tally(Named(rows + [r], name), g, i) as real)
    {
      NamedTally(rows, r, g, name, i);
    }
  }

  lemma CountsOne(points: seq<Point>, rows: seq<Row>, r: Row, g: Grid)
    requires IsGrid(g) && Counts(points, rows, g, r.name) && IndexOf(r, g) >= 0
    ensures var i := IndexOf(r, g);
            Counts(points[i := points[i].(value := points[i].value + r.count as real)], rows + [r], g, r.name)
  {
    var k := IndexOf(r, g);
    var n := points[k := points[k].(value := points[k].value + r.count as real)];
    forall i | 0 <= i < g.buckets
      ensures n[i] == Point(g.from + i * g.step, Tally(Named(rows + [r], r.name), g, i) as real)
    {
      NamedTally(rows, r, g, r.name, i);
    }
  }

  lemma CountsZero(rows: seq<Row>, g: Grid, name: Name)
    requires IsGrid(g) && !Occurs(rows, g, name)
    ensures Counts(Zeros(g), rows, g, name)
  {
    forall i | 0 <= i < g.buckets
      ensures Zeros(g)[i] == Point(g.from + i * g.step, Tally(Named(rows, name), g, i) as real)
    {
      AbsentTally(rows, g, name, i);
    }
  }

  /** One turn of the loop: the row is counted in the series of its name. */
  lemma OneRow(byName: map<Name, seq<Point>>, after: map<Name, seq<Point>>, rows: seq<Row>, r: Row, g: Grid)
    requires IsGrid(g) && ByName(byName, rows, g)
    requires if IndexOf(r, g) < 0 then after == byName
             else var points := if r.name in byName then byName[r.name] else Zeros(g);
                  var i := IndexOf(r, g);
                  |points| == g.buckets
                  && after == byName[r.name := points[i := points[i].(value := points[i].value + r.count as real)]]
    ensures ByName(after, rows + [r], g)
  {
    forall name
      ensures name in after <==> Occurs(rows + [r], g, name)
      ensures name in after ==> Counts(after[name], rows + [r], g, name)
    {
      OccursMore(rows, r, g, name);
      if IndexOf(r, g) >= 0 && r.name == name {
        if r.name in byName {
          CountsOne(byName[r.name], rows, r, g);
        } else {
          CountsZero(rows, g, name);
          CountsOne(Zeros(g), rows, r, g);
        }
      } else if name in byName {
        CountsOther(byName[name], rows, r, g, name);
      }
    }
  }

  /** acquire_results and outcomes: one list of points per name that occurs in the range. */
  method PointsByName(rows: seq<Row>, g: Grid) returns (byName: map<Name, seq<Point>>)
    requires IsGrid(g)
    ensures ByName(byName, rows, g)
  {
    byName := map[];
    for n := 0 to |rows|
      invariant ByName(byName, rows[..n], g)
    {
      var r := rows[n];
      ghost var before := byName;
      assert rows[..n + 1] == rows[..n] + [r];
      var i := BucketIndex(r.ts, g.from, g.step, g.buckets);
      if i >= 0 {
        var points := if r.name in byName then byName[r.name] else Zeros(g);
        assert r.name in byName ==> Counts(byName[r.name], rows[..n], g, r.name);
        byName := byName[r.name := points[i := points[i].(value := points[i].value + r.count as real)]];
      }
      OneRow(before, byName, rows[..n], r, g);
    }
    assert rows[..|rows|] == rows;
  }

  /** namedSeries: one series per name, ordered by name. */
  method NamedSeries(byName: map<Name, seq<Point>>) returns (out: seq<Series>)
    ensures Increasing(seq(|out|, i requires 0 <= i < |out| => out[i].name))
    ensures forall name :: name in byName <==> exists i :: 0 <= i < |out| && out[i].name == name
    ensures forall i :: 0 <= i < |out| ==> out[i].name in byName && out[i].points == byName[out[i].name]
  {
    var names: seq<Name> := [];
    var keys := byName.Keys;
    while keys != {}
      invariant forall name :: name in byName <==> name in keys || name in names
      decreases |keys|
    {
      var name :| name in keys;
      names := names + [name];
      keys := keys - {name};
    }
    var sorted := Sort(names);
    sorted := Compact(sorted);
    out := [];
    for i := 0 to |sorted|
      invariant |out| == i
      invariant forall k :: 0 <= k < i ==> out[k].name == sorted[k] && out[k].points == byName[sorted[k]]
    {
      assert sorted[i] in byName;
      out := out + [Series(sorted[i], byName[sorted[i]])];
    }
    assert forall name :: name in byName ==> name in sorted;
  }

  // ------------------------------------------------------------------- conservation

  function Sum(points: seq<Point>): real {
    if points == [] then 0.0 else Sum(points[..|points| - 1]) + points[|points| - 1].value
  }

  /** The count in the first n buckets. */
  function TallySum(rows: seq<Row>, g: Grid, n: nat): int
    requires IsGrid(g)
  {
    if n == 0 then 0 else TallySum(rows, g, n - 1) + Tally(rows, g, n - 1)
  }

  lemma {:induction false} TallySumRow(rows: seq<Row>, g: Grid, n: nat)
    requires IsGrid(g) && rows != []
    ensures var r := rows[|rows| - 1];
            TallySum(rows, g, n) == TallySum(rows[..|rows| - 1], g, n) + if 0 <= IndexOf(r, g) < n then r.count else 0
  {
    if n > 0 {
      TallySumRow(rows, g, n - 1);
    }
  }

  lemma {:induction false} NoRows(g: Grid, n: nat)
    requires IsGrid(g)
    ensures TallySum([], g, n) == 0
  {
    if n > 0 {
      NoRows(g, n - 1);
    }
  }

  /** Every row in range is counted in one bucket, and no other row anywhere. */
  lemma {:induction false} BucketsHoldTotal(rows: seq<Row>, g: Grid)
    requires IsGrid(g)
    ensures TallySum(rows, g, g.buckets) == Total(rows, g)
  {
    if rows == [] {
      NoRows(g, g.buckets);
    } else {
      var r := rows[|rows| - 1];
      BucketsHoldTotal(rows[..|rows| - 1], g);
      TallySumRow(rows, g, g.buckets);
      IndexInRange(r.ts, g.from, g.step, g.buckets);
    }
  }

  lemma {:induction false} SumIsTally(points: seq<Point>, rows: seq<Row>, g: Grid, scale: real)
    requires IsGrid(g) && |points| <= g.buckets
    requires forall i :: 0 <= i < |points| ==> Times(points[i].value, scale) == Tally(rows, g, i) as real
    ensures Times(Sum(points), scale) == TallySum(rows, g, |points|) as real
    decreases |points|
  {
    if points != [] {
      var rest, p := points[..|points| - 1], points[|points| - 1];
      assert forall i :: 0 <= i < |rest| ==> rest[i] == points[i];
      SumIsTally(rest, rows, g, scale);
      Distributes(Sum(rest), p.value, scale);
    }
  }

  function Times(a: real, b: real): real {
    a * b
  }

  lemma Distributes(a: real, b: real, scale: real)
    ensures Times(a + b, scale) == Times(a, scale) + Times(b, scale)
  {
  }

  lemma DivideBack(a: real, scale: real)
    requires scale != 0.0
    ensures Times(a / scale, scale) == a
  {
  }

  /** The rate series times the step is the count of the rows in range. */
  lemma RateTimesStep(points: seq<Point>, rows: seq<Row>, g: Grid)
    requires IsGrid(g) && HaveRates(points, rows, g)
    ensures Sum(points) * StepLength(g) == Total(rows, g) as real
  {
    forall i | 0 <= i < |points|
      ensures Times(points[i].value, StepLength(g)) == Tally(rows, g, i) as real
    {
      RateBack(points, rows, g, i);
    }
    SumIsTally(points, rows, g, StepLength(g));
    BucketsHoldTotal(rows, g);
  }

  lemma RateBack(points: seq<Point>, rows: seq<Row>, g: Grid, i: nat)
    requires IsGrid(g) && HaveRates(points, rows, g) && i < g.buckets
    ensures Times(points[i].value, StepLength(g)) == Tally(rows, g, i) as real
  {
    DivideBack(Tally(rows, g, i) as real, StepLength(g));
  }

  /** acquire_rate from the rows to the answer: the rates times the step hold the count of the rows in range. */
  method RateSeries(rows: seq<Row>, g: Grid) returns (out: seq<Point>)
    requires IsGrid(g)
    ensures AtStarts(out, g) && Sum(out) * StepLength(g) == Total(rows, g) as real
  {
    var points := AcquireRate(rows, g);
    out := points[..];
    RateTimesStep(out, rows, g);
  }

  function GrandSum(out: seq<Series>): real {
    if out == [] then 0.0 else GrandSum(out[..|out| - 1]) + Sum(out[|out| - 1].points)
  }

  /** The counts in range of the names of these series. */
  function NamesTotal(out: seq<Series>, rows: seq<Row>, g: Grid): int
    requires IsGrid(g)
  {
    if out == [] then 0 else NamesTotal(out[..|out| - 1], rows, g) + Total(Named(rows, out[|out| - 1].name), g)
  }

  ghost predicate Distinct(out: seq<Series>) {
    forall i, j :: 0 <= i < j < |out| ==> out[i].name != out[j].name
  }

  ghost predicate Has(out: seq<Series>, name: Name) {
    exists i :: 0 <= i < |out| && out[i].name == name
  }

  predicate InRange(r: Row, g: Grid) {
    g.from <= r.ts < g.from + g.buckets * g.step
  }

  lemma NamedTotal(rows: seq<Row>, g: Grid, name: Name)
    requires IsGrid(g) && rows != []
    ensures var r := rows[|rows| - 1];
            Total(Named(rows, name), g) ==
            Total(Named(rows[..|rows| - 1], name), g) + if r.name == name && InRange(r, g) then r.count else 0
  {
    var before, r := Named(rows[..|rows| - 1], name), rows[|rows| - 1];
    assert (before + [r])[..|before|] == before;
  }

  lemma HasLast(out: seq<Series>, name: Name)
    requires out != []
    ensures Has(out, name) <==> Has(out[..|out| - 1], name) || out[|out| - 1].name == name
  {
    var rest := out[..|out| - 1];
    if Has(rest, name) {
      var i :| 0 <= i < |rest| && rest[i].name == name;
      assert out[i].name == name;
    }
  }

  lemma {:induction false} NamesTotalRow(out: seq<Series>, rows: seq<Row>, g: Grid)
    requires IsGrid(g) && Distinct(out) && rows != []
    ensures var r := rows[|rows| - 1];
            NamesTotal(out, rows, g) ==
            NamesTotal(out, rows[..|rows| - 1], g) + if Has(out, r.name) && InRange(r, g) then r.count else 0
    decreases |out|
  {
    if out != [] {
      var rest, r := out[..|out| - 1], rows[|rows| - 1];
      NamesTotalRow(rest, rows, g);
      NamedTotal(rows, g, out[|out| - 1].name);
      HasLast(out, r.name);
      assert out[|out| - 1].name == r.name ==> !Has(rest, r.name);
    }
  }

  lemma {:induction false} NoNamedRows(out: seq<Series>, g: Grid)
    requires IsGrid(g)
    ensures NamesTotal(out, [], g) == 0
  {
    if out != [] {
      NoNamedRows(out[..|out| - 1], g);
    }
  }

  /** Series with distinct names, one for every name in range, hold the whole count between them. */
  lemma {:induction false} NamesHoldTotal(out: seq<Series>, rows: seq<Row>, g: Grid)
    requires IsGrid(g) && Distinct(out)
    requires forall k :: 0 <= k < |rows| && InRange(rows[k], g) ==> Has(out, rows[k].name)
    ensures NamesTotal(out, rows, g) == Total(rows, g)
    decreases |rows|
  {
    if rows == [] {
      NoNamedRows(out, g);
    } else {
      var prefix := rows[..|rows| - 1];
      assert forall k :: 0 <= k < |prefix| ==> prefix[k] == rows[k];
      NamesHoldTotal(out, prefix, g);
      NamesTotalRow(out, rows, g);
      assert InRange(rows[|rows| - 1], g) ==> Has(out, rows[|rows| - 1].name);
    }
  }

  lemma {:induction false} GrandSumIsNamesTotal(out: seq<Series>, rows: seq<Row>, g: Grid)
    requires IsGrid(g) && forall i :: 0 <= i < |out| ==> Counts(out[i].points, rows, g, out[i].name)
    ensures GrandSum(out) == NamesTotal(out, rows, g) as real
    decreases |out|
  {
    if out != [] {
      var rest, last := out[..|out| - 1], out[|out| - 1];
      GrandSumIsNamesTotal(rest, rows, g);
      var named := Named(rows, last.name);
      assert forall i :: 0 <= i < g.buckets ==> Times(last.points[i].value, 1.0) == Tally(named, g, i) as real;
      SumIsTally(last.points, named, g, 1.0);
      BucketsHoldTotal(named, g);
    }
  }

  /** All result series together hold exactly the count of the rows in range. */
  lemma SeriesHoldTotal(byName: map<Name, seq<Point>>, out: seq<Series>, rows: seq<Row>, g: Grid)
    requires IsGrid(g) && ByName(byName, rows, g) && Distinct(out)
    requires forall name :: name in byName <==> Has(out, name)
    requires forall i :: 0 <= i < |out| ==> out[i].name in byName && out[i].points == byName[out[i].name]
    ensures GrandSum(out) == Total(rows, g) as real
  {
    forall k | 0 <= k < |rows| && InRange(rows[k], g)
      ensures Has(out, rows[k].name)
    {
      IndexInRange(rows[k].ts, g.from, g.step, g.buckets);
      assert Occurs(rows, g, rows[k].name);
    }
    NamesHoldTotal(out, rows, g);
    GrandSumIsNamesTotal(out, rows, g);
  }

  lemma IncreasingIsDistinct(out: seq<Series>)
    requires Increasing(seq(|out|, i requires 0 <= i < |out| => out[i].name))
    ensures Distinct(out)
  {
    var names := seq(|out|, i requires 0 <= i < |out| => out[i].name);
    forall i, j | 0 <= i < j < |out|
      ensures out[i].name != out[j].name
    {
      assert names[i] == out[i].name && names[j] == out[j].name;
    }
  }

  /**
   * acquire_results and outcomes from the rows to the answer: series ordered by name that
   * together hold exactly the count of the rows in range.
   */
  method ResultSeries(rows: seq<Row>, g: Grid) returns (out: seq<Series>)
    requires IsGrid(g)
    ensures GrandSum(out) == Total(rows, g) as real
    ensures Increasing(seq(|out|, i requires 0 <= i < |out| => out[i].name))
    ensures forall name :: Has(out, name) <==> Occurs(rows, g, name)
    ensures forall i :: 0 <= i < |out| ==> Counts(out[i].points, rows, g, out[i].name)
  {
    var byName := PointsByName(rows, g);
    out := NamedSeries(byName);
    IncreasingIsDistinct(out);
    assert forall name :: name in byName <==> Has(out, name);
    SeriesHoldTotal(byName, out, rows, g);
  }

  // ------------------------------------------------------------------------- ratios

  datatype Metric = SuccessRatio | RiskRatio | LatencyAvg

  /** A row of the outcome query; success and risk classify its outcome. */
  datatype OutcomeRow = OutcomeRow(ts: Time, success: bool, risk: bool, count: int, latencySum: int)

  function Part(r: OutcomeRow, metric: Metric): int {
    match metric
    case SuccessRatio => if r.success then r.count else 0
    case RiskRatio => if r.risk then r.count else 0
    case LatencyAvg => r.latencySum
  }

  /** The count of the rows in bucket i, and what the metric counts of them. */
  function CountTally(rows: seq<OutcomeRow>, g: Grid, i: int): int
    requires IsGrid(g)
  {
    if rows == [] then 0 else
      var r := rows[|rows| - 1];
      CountTally(rows[..|rows| - 1], g, i) + if BucketIndex(r.ts, g.from, g.step, g.buckets) == i then r.count else 0
  }

  function PartTally(rows: seq<OutcomeRow>, metric: Metric, g: Grid, i: int): int
    requires IsGrid(g)
  {
    if rows == [] then 0 else
      var r := rows[|rows| - 1];
      PartTally(rows[..|rows| - 1], metric, g, i)
      + if BucketIndex(r.ts, g.from, g.step, g.buckets) == i then Part(r, metric) else 0
  }

  function Ratio(part: int, total: int): real {
    if total <= 0 then 0.0 else part as real / total as real
  }

  /** The first loop of outcomeSeries: the total and the counted part of every bucket. */
  method Totals(rows: seq<OutcomeRow>, metric: Metric, g: Grid) returns (total: array<int>, part: array<int>)
    requires IsGrid(g)
    ensures fresh(total) && fresh(part) && total.Length == g.buckets && part.Length == g.buckets
    ensures forall i :: 0 <= i < g.buckets ==> total[i] == CountTally(rows, g, i)
    ensures forall i :: 0 <= i < g.buckets ==> part[i] == PartTally(rows, metric, g, i)
  {
    total := new int[g.buckets](_ => 0);
    part := new int[g.buckets](_ => 0);
    for n := 0 to |rows|
      invariant forall i :: 0 <= i < g.buckets ==> total[i] == CountTally(rows[..n], g, i)
      invariant forall i :: 0 <= i < g.buckets ==> part[i] == PartTally(rows[..n], metric, g, i)
    {
      assert rows[..n + 1][..n] == rows[..n];
      var i := BucketIndex(rows[n].ts, g.from, g.step, g.buckets);
      if i >= 0 {
        total[i] := total[i] + rows[n].count;
        part[i] := part[i] + Part(rows[n], metric);
      }
    }
    assert rows[..|rows|] == rows;
  }

  /** success_ratio, risk_ratio and latency_avg: the quotient of the two totals per bucket. */
  method RatioSeries(rows: seq<OutcomeRow>, metric: Metric, g: Grid) returns (points: array<Point>)
    requires IsGrid(g)
    ensures fresh(points) && points.Length == g.buckets
    ensures forall i :: 0 <= i < g.buckets ==>
      points[i] == Point(g.from + i * g.step, Ratio(PartTally(rows, metric, g, i), CountTally(rows, g, i)))
  {
    var total, part := Totals(rows, metric, g);
    points := NewPoints(g);
    for i := 0 to g.buckets
      modifies points
      invariant forall k :: 0 <= k < i ==> points[k] == Point(g.from + k * g.step, Ratio(part[k], total[k]))
      invariant forall k :: i <= k < g.buckets ==> points[k] == Point(g.from + k * g.step, 0.0)
    {
      points[i] := points[i].(value := Ratio(part[i], total[i]));
    }
  }

  lemma {:induction false} PartWithinWhole(rows: seq<OutcomeRow>, metric: Metric, g: Grid, i: int)
    requires IsGrid(g) && !metric.LatencyAvg? && forall k :: 0 <= k < |rows| ==> rows[k].count >= 0
    ensures 0 <= PartTally(rows, metric, g, i) <= CountTally(rows, g, i)
    decreases |rows|
  {
    if rows != [] {
      PartWithinWhole(rows[..|rows| - 1], metric, g, i);
    }
  }

  /** With counts that are not negative, a success or risk ratio lies between 0 and 1. */
  lemma RatioIsFraction(rows: seq<OutcomeRow>, metric: Metric, g: Grid, i: int)
    requires IsGrid(g) && !metric.LatencyAvg? && forall k :: 0 <= k < |rows| ==> rows[k].count >= 0
    ensures 0.0 <= Ratio(PartTally(rows, metric, g, i), CountTally(rows, g, i)) <= 1.0
  {
    PartWithinWhole(rows, metric, g, i);
    Fraction(PartTally(rows, metric, g, i), CountTally(rows, g, i));
  }

  lemma Fraction(part: int, total: int)
    requires 0 <= part <= total
    ensures 0.0 <= Ratio(part, total) <= 1.0
  {
  }

  // ------------------------------------------------------------------ what ratios mean

  /** A ratio times its total is the part. */
  lemma RatioTimesTotal(part: int, total: int)
    ensures total > 0 ==> Ratio(part, total) * total as real == part as real
    ensures total <= 0 ==> Ratio(part, total) == 0.0
  {
  }

  /** The row lies in bucket i and counts. */
  predicate CountsIn(r: OutcomeRow, g: Grid, i: int)
    requires IsGrid(g)
  {
    BucketIndex(r.ts, g.from, g.step, g.buckets) == i && r.count > 0
  }

  /** What a success or a risk is to the metric. */
  predicate Scores(r: OutcomeRow, metric: Metric) {
    (metric.SuccessRatio? && r.success) || (metric.RiskRatio? && r.risk)
  }

  ghost predicate AllScore(rows: seq<OutcomeRow>, metric: Metric, g: Grid, i: int)
    requires IsGrid(g)
  {
    forall k :: 0 <= k < |rows| && CountsIn(rows[k], g, i) ==> Scores(rows[k], metric)
  }

  ghost predicate NoneScores(rows: seq<OutcomeRow>, metric: Metric, g: Grid, i: int)
    requires IsGrid(g)
  {
    forall k :: 0 <= k < |rows| && CountsIn(rows[k], g, i) ==> !Scores(rows[k], metric)
  }

  ghost predicate NonePresent(rows: seq<OutcomeRow>, g: Grid, i: int)
    requires IsGrid(g)
  {
    forall k :: 0 <= k < |rows| ==> !CountsIn(rows[k], g, i)
  }

  lemma {:induction false} PartMeans(rows: seq<OutcomeRow>, metric: Metric, g: Grid, i: int)
    requires IsGrid(g) && !metric.LatencyAvg? && forall k :: 0 <= k < |rows| ==> rows[k].count >= 0
    ensures 0 <= PartTally(rows, metric, g, i) <= CountTally(rows, g, i)
    ensures PartTally(rows, metric, g, i) == CountTally(rows, g, i) <==> AllScore(rows, metric, g, i)
    ensures PartTally(rows, metric, g, i) == 0 <==> NoneScores(rows, metric, g, i)
    ensures CountTally(rows, g, i) == 0 <==> NonePresent(rows, g, i)
    decreases |rows|
  {
    if rows != [] {
      var prefix, r := rows[..|rows| - 1], rows[|rows| - 1];
      assert forall k :: 0 <= k < |prefix| ==> prefix[k] == rows[k];
      PartMeans(prefix, metric, g, i);
      assert AllScore(rows, metric, g, i) <==>
             AllScore(prefix, metric, g, i) && (CountsIn(r, g, i) ==> Scores(r, metric));
      assert NoneScores(rows, metric, g, i) <==>
             NoneScores(prefix, metric, g, i) && (CountsIn(r, g, i) ==> !Scores(r, metric));
      assert NonePresent(rows, g, i) <==> NonePresent(prefix, g, i) && !CountsIn(r, g, i);
    }
  }

  /**
   * A success or risk ratio is 0 exactly when no row that counts in its bucket scores, and 1
   * exactly when there is one and all of them do.
   */
  lemma RatioExtremes(rows: seq<OutcomeRow>, metric: Metric, g: Grid, i: int)
    requires IsGrid(g) && !metric.LatencyAvg? && forall k :: 0 <= k < |rows| ==> rows[k].count >= 0
    ensures var ratio := Ratio(PartTally(rows, metric, g, i), CountTally(rows, g, i));
            && (ratio == 0.0 <==> NoneScores(rows, metric, g, i))
            && (ratio == 1.0 <==> !NonePresent(rows, g, i) && AllScore(rows, metric, g, i))
  {
    PartMeans(rows, metric, g, i);
    Extremes(PartTally(rows, metric, g, i), CountTally(rows, g, i));
  }

  lemma Extremes(part: int, total: int)
    requires 0 <= part <= total
    ensures Ratio(part, total) == 0.0 <==> part == 0
    ensures Ratio(part, total) == 1.0 <==> part == total && total > 0
  {
    RatioTimesTotal(part, total);
  }

  /** Rows that all have the same average latency average to it. */
  lemma {:induction false} LatencyTally(rows: seq<OutcomeRow>, g: Grid, i: int, average: int)
    requires IsGrid(g)
    requires forall k :: 0 <= k < |rows| && BucketIndex(rows[k].ts, g.from, g.step, g.buckets) == i ==>
               rows[k].latencySum == average * rows[k].count
    ensures PartTally(rows, LatencyAvg, g, i) == average * CountTally(rows, g, i)
    decreases |rows|
  {
    if rows != [] {
      var prefix := rows[..|rows| - 1];
      assert forall k :: 0 <= k < |prefix| ==> prefix[k] == rows[k];
      LatencyTally(prefix, g, i, average);
      TimesAdds(average, CountTally(prefix, g, i), rows[|rows| - 1].count);
    }
  }

  lemma TimesAdds(a: int, b: int, c: int)
    ensures a * (b + c) == a * b + a * c
  {
  }

  lemma LatencyAverages(rows: seq<OutcomeRow>, g: Grid, i: int, average: int)
    requires IsGrid(g) && CountTally(rows, g, i) > 0
    requires forall k :: 0 <= k < |rows| && BucketIndex(rows[k].ts, g.from, g.step, g.buckets) == i ==>
               rows[k].latencySum == average * rows[k].count
    ensures Ratio(PartTally(rows, LatencyAvg, g, i), CountTally(rows, g, i)) == average as real
  {
    LatencyTally(rows, g, i, average);
    Quotient(average, CountTally(rows, g, i));
  }

  lemma Quotient(a: int, b: int)
    requires b > 0
    ensures (a * b) as real / b as real == a as real
  {
  }

  /** The outcome rows as plain rows with these counts. */
  function AsRows(rows: seq<OutcomeRow>, metric: Metric, total: bool): (out: seq<Row>)
    ensures |out| == |rows|
  {
    seq(|rows|, k requires 0 <= k < |rows| =>
      Row(rows[k].ts, 0, if total then rows[k].count else Part(rows[k], metric)))
  }

  /** Totals and parts are counted like the rows of the other series. */
  lemma {:induction false} TotalsAreTallies(rows: seq<OutcomeRow>, metric: Metric, g: Grid, i: int)
    requires IsGrid(g)
    ensures CountTally(rows, g, i) == Tally(AsRows(rows, metric, true), g, i)
    ensures PartTally(rows, metric, g, i) == Tally(AsRows(rows, metric, false), g, i)
    decreases |rows|
  {
    if rows != [] {
      var prefix := rows[..|rows| - 1];
      TotalsAreTallies(prefix, metric, g, i);
      assert AsRows(rows, metric, true)[..|prefix|] == AsRows(prefix, metric, true);
      assert AsRows(rows, metric, false)[..|prefix|] == AsRows(prefix, metric, false);
    }
  }
}
