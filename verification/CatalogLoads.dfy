/** Runs in which one instance, beside others, loads namespace 1 and comes to rest again. */
module CatalogLoads {
  import opened Common
  import F = Flights
  import opened Catalog
  import opened CatalogRuns
  import opened CatalogPaths

  /** The namespace's contents one after the other; no marks. */
  function Contents(contents: seq<Option<Raw>>): Global {
    Global(map[1 := contents], map[], map[], {})
  }

  /** An instance that no load of the namespace is running on. */
  predicate Resting(x: Instance) {
    x.flights.entries == map[] && x.loads == map[] && |x.flights.flights| !in x.floors
  }

  /** The instance with one more flight of namespace 1 and its runner, at version v when asked. */
  function Serving(x: Instance, v: nat, point: F.Point, status: F.Status): Instance {
    var t := x.flights;
    x.(flights := F.Table(map[1 := |t.cells|], t.cells + [F.Cell(Some(|t.flights|), None, |t.runners|)],
                          t.runners + [F.Runner(1, |t.cells|, point)], t.flights + [F.Flight(1, status)]),
       floors := x.floors[|t.flights| := v])
  }

  function Loading(x: Instance, v: nat, load: Load): Instance {
    Serving(x, v, F.Loading(|x.flights.flights|), F.Running).(loads := map[|x.flights.runners| := load])
  }

  /** The snapshot after a load read these rows at version v. */
  function Swapped(fp: Fingerprint, x: Instance, v: nat, raw: Raw): Instance {
    x.(index := NewIndex(x.index, x.fingerprints, 1, Some(raw), fp(raw)),
       fingerprints := NewFingerprints(x.index, x.fingerprints, 1, Some(raw), fp(raw)), shows := x.shows[1 := v])
  }

  /** The instance after the load: rested, swapped, and with the flight done. */
  function Rested(fp: Fingerprint, x: Instance, v: nat, raw: Raw): Instance {
    var t := x.flights;
    Swapped(fp, x, v, raw).(
      flights := F.Table(map[], t.cells + [F.Cell(None, None, |t.runners|)],
                         t.runners + [F.Runner(1, |t.cells|, F.Exited)], t.flights + [F.Flight(1, F.Done(true))]),
      floors := x.floors[|t.flights| := v])
  }

  lemma Asks(fp: Fingerprint, g: Global, x: Instance)
    requires Resting(x)
    ensures Enabled(g, x, Request(1)) && Do(fp, g, x, Request(1)) == Serving(x, Version(g, 1), F.Fetching, F.Waiting)
  {
    var t := x.flights;
    assert t.entries[1 := |t.cells|] == map[1 := |t.cells|];
    var cells := t.cells + [F.Cell(None, None, 0)];
    assert cells[|t.cells| := F.Cell(Some(|t.flights|), None, |t.runners|)]
        == t.cells + [F.Cell(Some(|t.flights|), None, |t.runners|)];
  }

  lemma Begins(fp: Fingerprint, g: Global, x: Instance, v: nat)
    requires Resting(x)
    ensures var y, r := Serving(x, v, F.Fetching, F.Waiting), |x.flights.runners|;
            Enabled(g, y, Begin(r)) && Do(fp, g, y, Begin(r)) == Loading(x, v, Begun)
  {
    var t, y, r := x.flights, Serving(x, v, F.Fetching, F.Waiting), |x.flights.runners|;
    assert y.flights.runners[r := F.Runner(1, |t.cells|, F.Loading(|t.flights|))]
        == t.runners + [F.Runner(1, |t.cells|, F.Loading(|t.flights|))];
    assert y.flights.flights[|t.flights| := F.Flight(1, F.Running)] == t.flights + [F.Flight(1, F.Running)];
    assert x.loads[r := Begun] == map[r := Begun];
  }

  lemma Reads(fp: Fingerprint, x: Instance, contents: seq<Option<Raw>>)
    requires Resting(x)
    ensures var g, v, r := Contents(contents), |contents|, |x.flights.runners|;
            && Enabled(g, Loading(x, v, Begun), Observe(r, true))
            && Do(fp, g, Loading(x, v, Begun), Observe(r, true)) == Loading(x, v, Observed(0, true))
            && Enabled(g, Loading(x, v, Observed(0, true)), ReadDatabase(r))
            && Do(fp, g, Loading(x, v, Observed(0, true)), ReadDatabase(r)) == Loading(x, v, Read(0, true, v))
  {
    var v, r := |contents|, |x.flights.runners|;
    assert map[r := Begun][r := Observed(0, true)] == map[r := Observed(0, true)];
    assert map[r := Observed(0, true)][r := Read(0, true, v)] == map[r := Read(0, true, v)];
  }

  lemma Applies(fp: Fingerprint, x: Instance, contents: seq<Option<Raw>>, raw: Raw)
    requires Resting(x) && contents != [] && contents[|contents| - 1] == Some(raw)
    ensures var g, v, r := Contents(contents), |contents|, |x.flights.runners|;
            && Enabled(g, Loading(x, v, Read(0, true, v)), Apply(r))
            && Do(fp, g, Loading(x, v, Read(0, true, v)), Apply(r)) == Loading(Swapped(fp, x, v, raw), v, Applied)
  {
    var v, r := |contents|, |x.flights.runners|;
    assert map[r := Read(0, true, v)][r := Applied] == map[r := Applied];
  }

  lemma Ends(fp: Fingerprint, g: Global, x: Instance, v: nat, raw: Raw)
    requires Resting(x)
    ensures var y, r, f := Swapped(fp, x, v, raw), |x.flights.runners|, |x.flights.flights|;
            var z := Serving(y, v, F.Finished(f), F.Done(true));
            && Enabled(g, Loading(y, v, Applied), Finish(r)) && Do(fp, g, Loading(y, v, Applied), Finish(r)) == z
            && Enabled(g, z, Advance(r)) && Do(fp, g, z, Advance(r)) == Rested(fp, x, v, raw)
  {
    var y, t, r, f := Swapped(fp, x, v, raw), x.flights, |x.flights.runners|, |x.flights.flights|;
    var busy, z := Loading(y, v, Applied).flights, Serving(y, v, F.Finished(f), F.Done(true)).flights;
    assert busy.runners[r := F.Runner(1, |t.cells|, F.Finished(f))] == z.runners;
    assert busy.flights[f := F.Flight(1, F.Done(true))] == z.flights;
    assert map[r := Applied] - {r} == map[];
    assert z.cells[|t.cells| := F.Cell(None, None, r)] == t.cells + [F.Cell(None, None, r)];
    assert z.runners[r := F.Runner(1, |t.cells|, F.Exited)] == t.runners + [F.Runner(1, |t.cells|, F.Exited)];
    assert z.entries - {1} == map[];
  }

  /** The instance as the last one of several. */
  ghost function Beside(others: seq<Instance>, g: Global, x: Instance): State {
    State(g, others + [x])
  }

  lemma StepBeside(fp: Fingerprint, others: seq<Instance>, g: Global, x: Instance, step: LocalStep, n: Instance)
    requires Enabled(g, x, step) && Do(fp, g, x, step) == n
    ensures Leads(fp, Beside(others, g, x), Local(|others|, step), Beside(others, g, n))
  {
    assert (others + [x])[|others| := n] == others + [n];
  }

  lemma AskPath(fp: Fingerprint, others: seq<Instance>, g: Global, x: Instance)
    returns (run: seq<State>, steps: seq<Step>)
    requires Resting(x)
    ensures Path(fp, run, steps) && |steps| == 2
    ensures run[0] == Beside(others, g, x) && run[2] == Beside(others, g, Loading(x, Version(g, 1), Begun))
  {
    var v, r := Version(g, 1), |x.flights.runners|;
    Asks(fp, g, x);
    StepBeside(fp, others, g, x, Request(1), Serving(x, v, F.Fetching, F.Waiting));
    Begins(fp, g, x, v);
    StepBeside(fp, others, g, Serving(x, v, F.Fetching, F.Waiting), Begin(r), Loading(x, v, Begun));
    run := [Beside(others, g, x), Beside(others, g, Serving(x, v, F.Fetching, F.Waiting)),
            Beside(others, g, Loading(x, v, Begun))];
    steps := [Local(|others|, Request(1)), Local(|others|, Begin(r))];
  }

  lemma ReadPath(fp: Fingerprint, others: seq<Instance>, x: Instance, contents: seq<Option<Raw>>)
    returns (run: seq<State>, steps: seq<Step>)
    requires Resting(x)
    ensures Path(fp, run, steps) && |steps| == 2
    ensures var g, v := Contents(contents), |contents|;
            && run[0] == Beside(others, g, Loading(x, v, Begun))
            && run[2] == Beside(others, g, Loading(x, v, Read(0, true, v)))
  {
    var g, v, r := Contents(contents), |contents|, |x.flights.runners|;
    Reads(fp, x, contents);
    StepBeside(fp, others, g, Loading(x, v, Begun), Observe(r, true), Loading(x, v, Observed(0, true)));
    StepBeside(fp, others, g, Loading(x, v, Observed(0, true)), ReadDatabase(r), Loading(x, v, Read(0, true, v)));
    run := [Beside(others, g, Loading(x, v, Begun)), Beside(others, g, Loading(x, v, Observed(0, true))),
            Beside(others, g, Loading(x, v, Read(0, true, v)))];
    steps := [Local(|others|, Observe(r, true)), Local(|others|, ReadDatabase(r))];
  }

  lemma EndPath(fp: Fingerprint, others: seq<Instance>, x: Instance, contents: seq<Option<Raw>>, raw: Raw)
    returns (run: seq<State>, steps: seq<Step>)
    requires Resting(x) && contents != [] && contents[|contents| - 1] == Some(raw)
    ensures Path(fp, run, steps) && |steps| == 3
    ensures var g, v := Contents(contents), |contents|;
            && run[0] == Beside(others, g, Loading(x, v, Read(0, true, v)))
            && run[3] == Beside(others, g, Rested(fp, x, v, raw))
  {
    var g, v, r := Contents(contents), |contents|, |x.flights.runners|;
    var y := Swapped(fp, x, v, raw);
    var z := Serving(y, v, F.Finished(|x.flights.flights|), F.Done(true));
    Applies(fp, x, contents, raw);
    StepBeside(fp, others, g, Loading(x, v, Read(0, true, v)), Apply(r), Loading(y, v, Applied));
    Ends(fp, g, x, v, raw);
    StepBeside(fp, others, g, Loading(y, v, Applied), Finish(r), z);
    StepBeside(fp, others, g, z, Advance(r), Rested(fp, x, v, raw));
    run := [Beside(others, g, Loading(x, v, Read(0, true, v))), Beside(others, g, Loading(y, v, Applied)),
            Beside(others, g, z), Beside(others, g, Rested(fp, x, v, raw))];
    steps := [Local(|others|, Apply(r)), Local(|others|, Finish(r)), Local(|others|, Advance(r))];
  }

  /** A finished load of the last content, in one path. */
  lemma LoadPath(fp: Fingerprint, others: seq<Instance>, x: Instance, contents: seq<Option<Raw>>, raw: Raw)
    returns (run: seq<State>, steps: seq<Step>)
    requires Resting(x) && contents != [] && contents[|contents| - 1] == Some(raw)
    ensures Path(fp, run, steps) && |steps| == 7
    ensures run[0] == Beside(others, Contents(contents), x)
    ensures run[7] == Beside(others, Contents(contents), Rested(fp, x, |contents|, raw))
  {
    var r1, s1 := AskPath(fp, others, Contents(contents), x);
    var r2, s2 := ReadPath(fp, others, x, contents);
    var r3, s3 := EndPath(fp, others, x, contents, raw);
    Join(fp, r1, s1, r2, s2);
    Join(fp, r1 + r2[1..], s1 + s2, r3, s3);
    run, steps := r1 + r2[1..] + r3[1..], s1 + s2 + s3;
  }

  lemma CommitPath(fp: Fingerprint, others: seq<Instance>, g: Global, x: Instance, contents: seq<Option<Raw>>, raw: Raw)
    requires g == (if contents == [] then Global(map[], map[], map[], {}) else Contents(contents))
    requires contents != [] ==> contents[|contents| - 1].Some?
    ensures Path(fp, [Beside(others, g, x), Beside(others, Contents(contents + [Some(raw)]), x)],
                 [Commit(1, Some(raw))])
  {
    assert Committed(g, 1, Some(raw)).db == Contents(contents + [Some(raw)]).db;
  }

  lemma CommitAndLoad(fp: Fingerprint, others: seq<Instance>, g: Global, x: Instance, contents: seq<Option<Raw>>,
                      raw: Raw)
    returns (run: seq<State>, steps: seq<Step>)
    requires g == (if contents == [] then Global(map[], map[], map[], {}) else Contents(contents))
    requires Resting(x) && (contents != [] ==> contents[|contents| - 1].Some?)
    ensures Path(fp, run, steps) && |steps| == 8 && run[0] == Beside(others, g, x)
    ensures var all := contents + [Some(raw)]; run[8] == Beside(others, Contents(all), Rested(fp, x, |all|, raw))
  {
    var all := contents + [Some(raw)];
    CommitPath(fp, others, g, x, contents, raw);
    var r, s := LoadPath(fp, others, x, all, raw);
    Join(fp, [Beside(others, g, x), Beside(others, Contents(all), x)], [Commit(1, Some(raw))], r, s);
    run, steps := [Beside(others, g, x), Beside(others, Contents(all), x)] + r[1..], [Commit(1, Some(raw))] + s;
  }
}
