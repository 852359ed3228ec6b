/**
 * Load coalescing per namespace (internal/catalog/flight.go): the flight table as
 * a class, and every interleaving of requests and runners as a step system.
 */
module Flights {
  import opened Common

  type NamespaceId = nat

  /** A flight's load has not started, is running, or has finished (ok: without error). */
  datatype Status = Waiting | Running | Done(ok: bool)

  datatype Flight = Flight(ns: NamespaceId, status: Status)

  /** nsFlights: flights by number. runner notes the goroutine last started for it; nothing reads it. */
  datatype Cell = Cell(current: Option<nat>, next: Option<nat>, runner: nat)

  /** Where a runFlights goroutine stands in its loop. */
  datatype Point = Fetching | Loading(flight: nat) | Finished(flight: nat) | Exited

  datatype Runner = Runner(ns: NamespaceId, cell: nat, point: Point)

  /** The flights map, and everything allocated so far: nsFlights objects, runners and flights. */
  datatype Table = Table(
    entries: map<NamespaceId, nat>, cells: seq<Cell>, runners: seq<Runner>, flights: seq<Flight>)

  function Empty(): Table {
    Table(map[], [], [], [])
  }

  // ------------------------------------------------------- the critical sections

  /** The cell a request works on: the namespace's, or a new one. */
  function WithCell(t: Table, ns: NamespaceId): Table {
    if ns in t.entries then t
    else t.(entries := t.entries[ns := |t.cells|], cells := t.cells + [Cell(None, None, 0)])
  }

  /** request: the table after it, with the flight it returns. */
  function Request(t: Table, ns: NamespaceId): (r: (Table, nat))
    requires ns in t.entries ==> t.entries[ns] < |t.cells|
  {
    var u := WithCell(t, ns);
    var id := u.entries[ns];
    var cell := u.cells[id];
    var f := |u.flights|;
    var n := u.(flights := u.flights + [Flight(ns, Waiting)]);
    if cell.next.Some? then (u, cell.next.value)
    else if cell.current.Some? then (n.(cells := u.cells[id := cell.(next := Some(f))]), f)
    else (n.(cells := u.cells[id := cell.(current := Some(f), runner := |u.runners|)],
             runners := u.runners + [Runner(ns, id, Fetching)]), f)
  }

  predicate CanBegin(t: Table, r: nat) {
    && r < |t.runners| && t.runners[r].point.Fetching? && t.runners[r].cell < |t.cells|
    && t.cells[t.runners[r].cell].current.Some?
    && t.cells[t.runners[r].cell].current.value < |t.flights|
  }

  /** The runner reads st.current and starts its load. */
  function Begin(t: Table, r: nat): Table
    requires CanBegin(t, r)
  {
    var f := t.cells[t.runners[r].cell].current.value;
    t.(runners := t.runners[r := t.runners[r].(point := Loading(f))],
       flights := t.flights[f := t.flights[f].(status := Running)])
  }

  predicate CanFinish(t: Table, r: nat) {
    r < |t.runners| && t.runners[r].point.Loading? && t.runners[r].point.flight < |t.flights|
  }

  /** The load returns; err is set and done is closed. */
  function Finish(t: Table, r: nat, ok: bool): Table
    requires CanFinish(t, r)
  {
    var f := t.runners[r].point.flight;
    t.(runners := t.runners[r := t.runners[r].(point := Finished(f))],
       flights := t.flights[f := t.flights[f].(status := Done(ok))])
  }

  predicate CanAdvance(t: Table, r: nat) {
    r < |t.runners| && t.runners[r].point.Finished? && t.runners[r].cell < |t.cells|
  }

  /** The queued flight becomes the current one, or the namespace is forgotten. */
  function Advance(t: Table, r: nat): Table
    requires CanAdvance(t, r)
  {
    var runner := t.runners[r];
    var cell := t.cells[runner.cell];
    var next := cell.next;
    var n := t.(cells := t.cells[runner.cell := cell.(current := next, next := None)]);
    if next.None? then
      n.(entries := t.entries - {runner.ns}, runners := t.runners[r := runner.(point := Exited)])
    else
      n.(runners := t.runners[r := runner.(point := Fetching)])
  }

  /** The flight table with its critical sections as methods. */
  class FlightTable {
    var entries: map<NamespaceId, nat>
    var cells: seq<Cell>
    var runners: seq<Runner>
    var flights: seq<Flight>

    ghost function Value(): Table
      reads this
    {
      Table(entries, cells, runners, flights)
    }

    constructor ()
      ensures Value() == Empty()
    {
      entries, cells, runners, flights := map[], [], [], [];
    }

    method RequestLoad(ns: NamespaceId) returns (f: nat)
      requires Inv(Value())
      modifies this
      ensures Inv(Value())
      ensures old(ns in entries ==> entries[ns] < |cells|)
      ensures (Value(), f) == Request(old(Value()), ns)
    {
      RequestKeeps(Value(), ns);
      if ns !in entries {
        entries := entries[ns := |cells|];
        cells := cells + [Cell(None, None, 0)];
      }
      var id := entries[ns];
      var st := cells[id];
      if st.next.Some? {
        return st.next.value;
      }
      f := |flights|;
      flights := flights + [Flight(ns, Waiting)];
      if st.current.Some? {
        cells := cells[id := st.(next := Some(f))];
        return;
      }
      cells := cells[id := st.(current := Some(f), runner := |runners|)];
      runners := runners + [Runner(ns, id, Fetching)];
    }

    /** The runner reads st.current under flightMu; its load starts. */
    method FetchCurrent(r: nat) returns (f: nat)
      requires Inv(Value()) && r < |runners| && runners[r].point.Fetching?
      modifies this
      ensures Inv(Value()) && CanBegin(old(Value()), r)
      ensures Value() == Begin(old(Value()), r) && runners[r].point == Loading(f)
    {
      BeginKeeps(Value(), r);
      f := cells[runners[r].cell].current.value;
      flights := flights[f := flights[f].(status := Running)];
      runners := runners[r := runners[r].(point := Loading(f))];
    }

    /** f.err is set and f.done is closed. */
    method FinishLoad(r: nat, ok: bool)
      requires Inv(Value()) && r < |runners| && runners[r].point.Loading?
      modifies this
      ensures Inv(Value()) && CanFinish(old(Value()), r)
      ensures Value() == Finish(old(Value()), r, ok)
    {
      FinishKeeps(Value(), r, ok);
      var f := runners[r].point.flight;
      flights := flights[f := flights[f].(status := Done(ok))];
      runners := runners[r := runners[r].(point := Finished(f))];
    }

    /** The end of the runner's loop body under flightMu; live is false when it returns. */
    method AdvanceRunner(r: nat) returns (live: bool)
      requires Inv(Value()) && r < |runners| && runners[r].point.Finished?
      modifies this
      ensures Inv(Value()) && CanAdvance(old(Value()), r)
      ensures Value() == Advance(old(Value()), r) && (live <==> Live(Value(), r))
    {
      AdvanceKeeps(Value(), r);
      var id := runners[r].cell;
      cells := cells[id := cells[id].(current := cells[id].next, next := None)];
      if cells[id].current.None? {
        entries := entries - {runners[r].ns};
        runners := runners[r := runners[r].(point := Exited)];
        return false;
      }
      runners := runners[r := runners[r].(point := Fetching)];
      return true;
    }
  }

  // ------------------------------------------------------------------ invariant

  predicate Live(t: Table, r: int) {
    0 <= r < |t.runners| && !t.runners[r].point.Exited?
  }

  /**
   * A namespace in the map has a current flight, possibly a queued one that has
   * not started, and the runner that works on the current one.
   */
  ghost predicate EntryOk(t: Table, ns: NamespaceId)
    requires ns in t.entries
  {
    var id := t.entries[ns];
    && id < |t.cells|
    && var cell := t.cells[id];
       && Live(t, cell.runner) && t.runners[cell.runner].ns == ns && t.runners[cell.runner].cell == id
       && cell.current.Some? && cell.current.value < |t.flights|
       && t.flights[cell.current.value].ns == ns
       && OnFlight(t.runners[cell.runner].point, cell.current.value, t.flights[cell.current.value].status)
       && (cell.next.Some? ==> && cell.next.value < |t.flights|
                               && t.flights[cell.next.value] == Flight(ns, Waiting)
                               && cell.next != cell.current)
  }

  /** What a runner's point says about the current flight. */
  predicate OnFlight(point: Point, f: nat, status: Status) {
    match point
    case Fetching => status == Waiting
    case Loading(g) => g == f && status == Running
    case Finished(g) => g == f && status.Done?
    case Exited => false
  }

  /** A live runner is the one its namespace's cell names. */
  ghost predicate RunnerOk(t: Table, r: int)
    requires 0 <= r < |t.runners|
  {
    var runner := t.runners[r];
    !runner.point.Exited? ==>
      && runner.ns in t.entries && t.entries[runner.ns] == runner.cell
      && runner.cell < |t.cells| && t.cells[runner.cell].runner == r
  }

  /** An unfinished flight is the current or the queued one of its namespace. */
  ghost predicate FlightOk(t: Table, f: int)
    requires 0 <= f < |t.flights|
  {
    var ns := t.flights[f].ns;
    !t.flights[f].status.Done? ==>
      && ns in t.entries && t.entries[ns] < |t.cells|
      && (t.cells[t.entries[ns]].current == Some(f) || t.cells[t.entries[ns]].next == Some(f))
  }

  ghost predicate Inv(t: Table) {
    && (forall ns :: ns in t.entries ==> EntryOk(t, ns))
    && (forall r :: 0 <= r < |t.runners| ==> RunnerOk(t, r))
    && (forall f :: 0 <= f < |t.flights| ==> FlightOk(t, f))
  }

  // --------------------------------------------------------------- preservation

  lemma RequestKeepsEntry(t: Table, ns: NamespaceId, ms: NamespaceId)
    requires Inv(t) && (ns in t.entries ==> t.entries[ns] < |t.cells|) && ms in Request(t, ns).0.entries
    ensures EntryOk(Request(t, ns).0, ms)
  {
    assert ns in t.entries ==> EntryOk(t, ns);
    assert ms in t.entries ==> EntryOk(t, ms);
  }

  lemma RequestKeepsRunner(t: Table, ns: NamespaceId, r: int)
    requires Inv(t) && (ns in t.entries ==> t.entries[ns] < |t.cells|) && 0 <= r < |Request(t, ns).0.runners|
    ensures RunnerOk(Request(t, ns).0, r)
  {
    assert ns in t.entries ==> EntryOk(t, ns);
    assert r < |t.runners| ==> RunnerOk(t, r);
  }

  lemma RequestKeepsFlight(t: Table, ns: NamespaceId, f: int)
    requires Inv(t) && (ns in t.entries ==> t.entries[ns] < |t.cells|) && 0 <= f < |Request(t, ns).0.flights|
    ensures FlightOk(Request(t, ns).0, f)
  {
    assert ns in t.entries ==> EntryOk(t, ns);
    assert f < |t.flights| ==> FlightOk(t, f);
  }

  lemma RequestKeeps(t: Table, ns: NamespaceId)
    requires Inv(t)
    ensures ns in t.entries ==> t.entries[ns] < |t.cells|
    ensures Inv(Request(t, ns).0)
    ensures var (n, f) := Request(t, ns); f < |n.flights| && n.flights[f] == Flight(ns, Waiting)
  {
    assert ns in t.entries ==> EntryOk(t, ns);
    var n := Request(t, ns).0;
    forall ms | ms in n.entries
      ensures EntryOk(n, ms)
    {
      RequestKeepsEntry(t, ns, ms);
    }
    forall r | 0 <= r < |n.runners|
      ensures RunnerOk(n, r)
    {
      RequestKeepsRunner(t, ns, r);
    }
    forall f | 0 <= f < |n.flights|
      ensures FlightOk(n, f)
    {
      RequestKeepsFlight(t, ns, f);
    }
  }

  /** A request adds at most one waiting flight and one runner that has not begun; f is waiting. */
  ghost predicate Joined(t: Table, n: Table, ns: NamespaceId, f: nat) {
    && f < |n.flights| && n.flights[f] == Flight(ns, Waiting)
    && (n.flights == t.flights || n.flights == t.flights + [Flight(ns, Waiting)])
    && |t.runners| <= |n.runners| && n.runners[..|t.runners|] == t.runners
    && forall r :: |t.runners| <= r < |n.runners| ==> n.runners[r].point.Fetching?
  }

  lemma RequestJoins(t: Table, ns: NamespaceId)
    requires Inv(t)
    ensures ns in t.entries ==> t.entries[ns] < |t.cells|
    ensures Joined(t, Request(t, ns).0, ns, Request(t, ns).1)
  {
    assert ns in t.entries ==> EntryOk(t, ns);
  }

  /** A runner moving to its next point changes the status of its own current flight only. */
  lemma PointKeeps(t: Table, n: Table, r: nat, f: nat)
    requires Inv(t) && Live(t, r) && f < |t.flights| && t.runners[r].cell < |t.cells|
    requires t.cells[t.runners[r].cell].current == Some(f)
    requires n.entries == t.entries && n.cells == t.cells
    requires |n.runners| == |t.runners| && n.runners == t.runners[r := t.runners[r].(point := n.runners[r].point)]
    requires |n.flights| == |t.flights| && n.flights == t.flights[f := t.flights[f].(status := n.flights[f].status)]
    requires !n.runners[r].point.Fetching? && OnFlight(n.runners[r].point, f, n.flights[f].status)
    ensures Inv(n)
  {
    assert RunnerOk(t, r);
    assert EntryOk(t, t.runners[r].ns);
    forall ms | ms in n.entries
      ensures EntryOk(n, ms)
    {
      assert EntryOk(t, ms);
    }
    forall q | 0 <= q < |n.runners|
      ensures RunnerOk(n, q)
    {
      assert RunnerOk(t, q);
    }
    forall g | 0 <= g < |n.flights|
      ensures FlightOk(n, g)
    {
      assert FlightOk(t, g);
    }
  }

  lemma BeginKeeps(t: Table, r: nat)
    requires Inv(t) && Live(t, r) && t.runners[r].point.Fetching?
    ensures CanBegin(t, r) && Inv(Begin(t, r)) && CanFinish(Begin(t, r), r)
  {
    assert RunnerOk(t, r);
    assert EntryOk(t, t.runners[r].ns);
    PointKeeps(t, Begin(t, r), r, t.cells[t.runners[r].cell].current.value);
  }

  lemma FinishKeeps(t: Table, r: nat, ok: bool)
    requires Inv(t) && Live(t, r) && t.runners[r].point.Loading?
    ensures CanFinish(t, r) && Inv(Finish(t, r, ok)) && CanAdvance(Finish(t, r, ok), r)
  {
    assert RunnerOk(t, r);
    assert EntryOk(t, t.runners[r].ns);
    PointKeeps(t, Finish(t, r, ok), r, t.runners[r].point.flight);
  }

  lemma AdvanceKeepsEntry(t: Table, r: nat, ms: NamespaceId)
    requires Inv(t) && Live(t, r) && CanAdvance(t, r) && ms in Advance(t, r).entries
    ensures EntryOk(Advance(t, r), ms)
  {
    assert RunnerOk(t, r);
    assert EntryOk(t, t.runners[r].ns) && EntryOk(t, ms);
  }

  lemma AdvanceKeeps(t: Table, r: nat)
    requires Inv(t) && Live(t, r) && t.runners[r].point.Finished?
    ensures CanAdvance(t, r) && Inv(Advance(t, r))
  {
    assert RunnerOk(t, r);
    assert EntryOk(t, t.runners[r].ns);
    var n := Advance(t, r);
    forall ms | ms in n.entries
      ensures EntryOk(n, ms)
    {
      AdvanceKeepsEntry(t, r, ms);
    }
    forall q | 0 <= q < |n.runners|
      ensures RunnerOk(n, q)
    {
      assert RunnerOk(t, q);
    }
    forall f | 0 <= f < |n.flights|
      ensures FlightOk(n, f)
    {
      assert FlightOk(t, f);
    }
  }

  // ------------------------------------------------------- theorems on every run

  datatype Step = RequestStep(ns: NamespaceId) | BeginStep(r: nat) | FinishStep(r: nat, ok: bool) | AdvanceStep(r: nat)

  predicate Enabled(t: Table, step: Step) {
    match step
    case RequestStep(ns) => ns in t.entries ==> t.entries[ns] < |t.cells|
    case BeginStep(r) => CanBegin(t, r)
    case FinishStep(r, _) => CanFinish(t, r)
    case AdvanceStep(r) => CanAdvance(t, r)
  }

  function Do(t: Table, step: Step): Table
    requires Enabled(t, step)
  {
    match step
    case RequestStep(ns) => Request(t, ns).0
    case BeginStep(r) => Begin(t, r)
    case FinishStep(r, ok) => Finish(t, r, ok)
    case AdvanceStep(r) => Advance(t, r)
  }

  ghost predicate IsRun(run: seq<Table>, steps: seq<Step>) {
    && |run| == |steps| + 1
    && run[0] == Empty()
    && forall i :: 0 <= i < |steps| ==> Enabled(run[i], steps[i]) && run[i + 1] == Do(run[i], steps[i])
  }

  lemma StepKeeps(t: Table, step: Step)
    requires Inv(t) && Enabled(t, step)
    ensures Inv(Do(t, step))
  {
    match step
    case RequestStep(ns) => RequestKeeps(t, ns);
    case BeginStep(r) => BeginKeeps(t, r);
    case FinishStep(r, ok) => FinishKeeps(t, r, ok);
    case AdvanceStep(r) => AdvanceKeeps(t, r);
  }

  lemma {:induction false} RunKeeps(run: seq<Table>, steps: seq<Step>, i: nat)
    requires IsRun(run, steps) && i < |run|
    ensures Inv(run[i])
  {
    if i > 0 {
      RunKeeps(run, steps, i - 1);
      StepKeeps(run[i - 1], steps[i - 1]);
    }
  }

  /** The next step of a runner. */
  predicate CanGoOn(t: Table, r: nat)
    requires r < |t.runners|
  {
    match t.runners[r].point
    case Fetching => CanBegin(t, r)
    case Loading(_) => CanFinish(t, r)
    case Finished(_) => CanAdvance(t, r)
    case Exited => true
  }

  lemma GoesOn(t: Table, r: nat)
    requires Inv(t) && r < |t.runners|
    ensures CanGoOn(t, r)
  {
    assert RunnerOk(t, r);
    if Live(t, r) {
      assert EntryOk(t, t.runners[r].ns);
    }
  }

  /** No guard of a step ever holds up a runner or a request: current is set whenever a runner reads it. */
  lemma NobodyIsStuck(run: seq<Table>, steps: seq<Step>, i: nat, r: nat, ns: NamespaceId)
    requires IsRun(run, steps) && i < |run|
    ensures r < |run[i].runners| ==> CanGoOn(run[i], r)
    ensures Enabled(run[i], RequestStep(ns))
  {
    RunKeeps(run, steps, i);
    if r < |run[i].runners| {
      GoesOn(run[i], r);
    }
    assert ns in run[i].entries ==> EntryOk(run[i], ns);
  }

  /** At most one load of a namespace runs at a time. */
  lemma OneLoadPerNamespace(run: seq<Table>, steps: seq<Step>, i: nat, r: nat, q: nat)
    requires IsRun(run, steps) && i < |run|
    requires Live(run[i], r) && Live(run[i], q) && run[i].runners[r].ns == run[i].runners[q].ns
    ensures r == q
  {
    RunKeeps(run, steps, i);
    assert RunnerOk(run[i], r) && RunnerOk(run[i], q);
  }

  /**
   * None is orphaned: an unfinished flight is the current or the queued flight of
   * its namespace, a live runner serves that namespace, and no other one does.
   */
  lemma UnfinishedFlightHasRunner(run: seq<Table>, steps: seq<Step>, i: nat, f: nat)
    requires IsRun(run, steps) && i < |run| && f < |run[i].flights| && !run[i].flights[f].status.Done?
    ensures var t := run[i];
            var ns := t.flights[f].ns;
            && ns in t.entries && t.entries[ns] < |t.cells|
            && var cell := t.cells[t.entries[ns]];
               && (cell.current == Some(f) || cell.next == Some(f))
               && forall r :: Live(t, r) && t.runners[r].ns == ns <==> r == cell.runner
  {
    RunKeeps(run, steps, i);
    var t := run[i];
    assert FlightOk(t, f);
    assert EntryOk(t, t.flights[f].ns);
    forall r | Live(t, r) && t.runners[r].ns == t.flights[f].ns
      ensures r == t.cells[t.entries[t.flights[f].ns]].runner
    {
      assert RunnerOk(t, r);
    }
  }

  /** A flight that has started stays started. */
  lemma {:induction false} StartedStays(run: seq<Table>, steps: seq<Step>, i: nat, j: nat, f: nat)
    requires IsRun(run, steps) && i <= j < |run| && f < |run[i].flights|
    ensures f < |run[j].flights| && run[j].flights[f].ns == run[i].flights[f].ns
    ensures run[j].flights[f].status == Waiting ==> run[i].flights[f].status == Waiting
    decreases j - i
  {
    if i < j {
      RunKeeps(run, steps, i);
      assert Enabled(run[i], steps[i]) && run[i + 1] == Do(run[i], steps[i]);
      StartedStays(run, steps, i + 1, j, f);
    }
  }

  /**
   * Every request gets a flight of its namespace whose load starts after the call:
   * neither the call nor anything before it started that load.
   */
  lemma LoadStartsAfterRequest(run: seq<Table>, steps: seq<Step>, i: nat, j: nat)
    requires IsRun(run, steps) && i < |steps| && steps[i].RequestStep?
    requires j < |steps| && steps[j].BeginStep?
    requires Request(run[i], steps[i].ns).1 == run[j].cells[run[j].runners[steps[j].r].cell].current.value
    ensures var f := Request(run[i], steps[i].ns).1;
            f < |run[i + 1].flights| && run[i + 1].flights[f].ns == steps[i].ns
    ensures i < j
  {
    RunKeeps(run, steps, i);
    RequestKeeps(run[i], steps[i].ns);
    var f := Request(run[i], steps[i].ns).1;
    if j <= i {
      assert run[j + 1] == Do(run[j], steps[j]);
      assert run[j + 1].flights[f].status == Running;
      StartedStays(run, steps, j + 1, i + 1, f);
    }
  }
}
