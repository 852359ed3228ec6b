/**
 * What lookups of the token cache are told (internal/auth/tokencache.go): every answer is
 * what some query of the caller's own key found.
 */
module TokenAnswers {
  import opened Common
  import opened TokenCache

  /** rec is what the database holds for the key: the token of its row, revoked or not, or no token. */
  predicate Found(s: State, key: Key, rec: Option<Record>) {
    && (rec.Some? <==> key in s.rows)
    && (rec.Some? ==> rec.value.id == s.rows[key].id && rec.value.data == s.rows[key].data)
    && (rec.Some? ==> (rec.value.revoked <==> rec.value.id in s.revokedAt))
  }

  ghost predicate FailedBefore(steps: seq<Step>, key: Key, i: nat) {
    exists q :: 0 <= q < i && q < |steps| && steps[q] == Fail(key)
  }

  /** A shared flight that returned an error did so because a query of its key failed. */
  ghost predicate ErrorsOk(s: State, steps: seq<Step>, i: nat) {
    && (forall k :: k in s.flights && s.flights[k] == Returned(None) ==> FailedBefore(steps, k, i))
    && (forall c :: c in s.callers && s.callers[c].Answered? && s.callers[c].reply.None? ==>
          FailedBefore(steps, s.callers[c].key, i))
  }

  ghost predicate NegativesQueried(run: seq<State>, steps: seq<Step>, s: State)
    requires |run| == |steps| + 1
  {
    forall k :: k in s.negative ==> QueriedAt(run, steps, k, s.negative[k])
  }

  ghost predicate AnswersQueried(run: seq<State>, steps: seq<Step>, s: State)
    requires |run| == |steps| + 1
  {
    forall c :: c in s.callers && s.callers[c].Answered? && s.callers[c].reply.Some? ==>
      QueriedAt(run, steps, s.callers[c].key, s.callers[c].reply.value)
  }

  /** A lookup that waits has a flight to wait for. */
  predicate WaitersServed(s: State) {
    forall c :: c in s.callers && s.callers[c].Waiting? ==> s.callers[c].key in s.flights
  }

  lemma NegativesStep(run: seq<State>, steps: seq<Step>, i: nat, n: State)
    requires IsRun(run, steps) && i < |steps| && n == run[i + 1] && NegativesQueried(run, steps, run[i])
    requires forall k :: k in run[i].flights ==> FlightQueried(run, steps, k, run[i].flights[k])
    ensures NegativesQueried(run, steps, n)
  {
    forall k | k in n.negative
      ensures QueriedAt(run, steps, k, n.negative[k])
    {
      if steps[i] == Add(k) {
        assert FlightQueried(run, steps, k, run[i].flights[k]);
      }
    }
  }

  lemma AnswersStep(run: seq<State>, steps: seq<Step>, i: nat, n: State)
    requires IsRun(run, steps) && i < |steps| && n == run[i + 1]
    requires NegativesQueried(run, steps, run[i]) && AnswersQueried(run, steps, run[i])
    requires forall k :: k in run[i].positive ==> QueriedAt(run, steps, k, run[i].positive[k])
    requires forall k :: k in run[i].flights ==> FlightQueried(run, steps, k, run[i].flights[k])
    ensures AnswersQueried(run, steps, n)
  {
    forall c | c in n.callers && n.callers[c].Answered? && n.callers[c].reply.Some?
      ensures QueriedAt(run, steps, n.callers[c].key, n.callers[c].reply.value)
    {
      if steps[i].Deliver? {
        assert FlightQueried(run, steps, steps[i].key, run[i].flights[steps[i].key]);
      }
    }
  }

  lemma {:induction false} AllQueried(run: seq<State>, steps: seq<Step>, i: nat)
    requires IsRun(run, steps) && i < |run|
    ensures NegativesQueried(run, steps, run[i]) && AnswersQueried(run, steps, run[i])
  {
    if i > 0 {
      AllQueried(run, steps, i - 1);
      EverythingWasQueried(run, steps, i - 1);
      NegativesStep(run, steps, i - 1, run[i]);
      AnswersStep(run, steps, i - 1, run[i]);
    }
  }

  /**
   * Whatever a lookup is told, by a hit, a negative hit or a flight it joined, is what a
   * query of its own key found in the database: the token of the row, or that there is none.
   */
  lemma AnswerIsQueried(run: seq<State>, steps: seq<Step>, i: nat, c: nat) returns (q: nat)
    requires IsRun(run, steps) && i < |run|
    requires c in run[i].callers && run[i].callers[c].Answered? && run[i].callers[c].reply.Some?
    ensures q < |steps| && steps[q] == Query(run[i].callers[c].key)
    ensures run[i].callers[c].reply.value.at == q + 1
    ensures Found(run[q], run[i].callers[c].key, run[i].callers[c].reply.value.rec)
  {
    AllQueried(run, steps, i);
    q := run[i].callers[c].reply.value.at - 1;
  }

  lemma AnswerStays(s: State, step: Step, n: State, c: nat)
    requires Enabled(s, step) && n == Do(s, step) && c in s.callers && s.callers[c].Answered?
    ensures c in n.callers && n.callers[c] == s.callers[c]
  {
  }

  lemma {:induction false} AnswerStaysUntil(run: seq<State>, steps: seq<Step>, i: nat, j: nat, c: nat)
    requires IsRun(run, steps) && i <= j < |run| && c in run[i].callers && run[i].callers[c].Answered?
    ensures c in run[j].callers && run[j].callers[c] == run[i].callers[c]
    decreases j - i
  {
    if i < j {
      AnswerStays(run[i], steps[i], run[i + 1], c);
      AnswerStaysUntil(run, steps, i + 1, j, c);
    }
  }

  /** A hit is answered with the record the cache held for the key. */
  lemma HitAnswers(run: seq<State>, steps: seq<Step>, j: nat, i: nat, c: nat, key: Key)
    requires IsRun(run, steps) && j < i < |run| && steps[j] == Hit(c, key)
    ensures key in run[j].positive && run[j].positive[key].rec.Some?
    ensures c in run[i].callers && run[i].callers[c] == Answered(key, j + 1, Some(run[j].positive[key]))
  {
    RunKeeps(run, steps, j);
    EveryEntryIsRecord(run[j]);
    assert run[j + 1] == Do(run[j], steps[j]);
    AnswerStaysUntil(run, steps, j + 1, i, c);
  }

  /** A negative hit is answered "unknown", as a query of the key found after the latest handled purge. */
  lemma NegativeHitAnswers(run: seq<State>, steps: seq<Step>, b: nat, d: nat, j: nat, i: nat, c: nat, key: Key)
    returns (q: nat)
    requires IsRun(run, steps) && b < d < j < i < |run| && steps[j] == NegativeHit(c, key)
    requires steps[b] == PurgeBegin && steps[d] == PurgeEnd && forall k :: b < k < d ==> steps[k] != PurgeEnd
    ensures c in run[i].callers && run[i].callers[c].Answered? && run[i].callers[c].key == key
    ensures run[i].callers[c].reply.Some? && run[i].callers[c].reply.value.rec.None?
    ensures b < q < j && steps[q] == Query(key) && key !in run[q].rows
  {
    RunKeeps(run, steps, j);
    EmptiedStays(run, steps, b, d, j);
    assert run[j].negative[key].rec.None? && run[j].inv.emptied < run[j].negative[key].at < run[j].time;
    assert run[j + 1] == Do(run[j], steps[j]);
    AnswerStaysUntil(run, steps, j + 1, i, c);
    q := AnswerIsQueried(run, steps, i, c);
  }

  /** A negative hit without a purge before it is answered "unknown" as well. */
  lemma UnknownIsQueried(run: seq<State>, steps: seq<Step>, j: nat, i: nat, c: nat, key: Key) returns (q: nat)
    requires IsRun(run, steps) && j < i < |run| && steps[j] == NegativeHit(c, key)
    ensures c in run[i].callers && run[i].callers[c].Answered? && run[i].callers[c].key == key
    ensures run[i].callers[c].reply.Some? && run[i].callers[c].reply.value.rec.None?
    ensures q < j && steps[q] == Query(key) && key !in run[q].rows
  {
    RunKeeps(run, steps, j);
    assert run[j].negative[key].rec.None? && run[j].negative[key].at < run[j].time;
    assert run[j + 1] == Do(run[j], steps[j]);
    AnswerStaysUntil(run, steps, j + 1, i, c);
    q := AnswerIsQueried(run, steps, i, c);
  }

  // -------------------------------------------------------------------- joined flights

  lemma ErrorsStep(s: State, step: Step, n: State, steps: seq<Step>, i: nat)
    requires Enabled(s, step) && n == Do(s, step) && i < |steps| && steps[i] == step && ErrorsOk(s, steps, i)
    ensures ErrorsOk(n, steps, i + 1)
  {
    forall k | FailedBefore(steps, k, i)
      ensures FailedBefore(steps, k, i + 1)
    {
      var q :| 0 <= q < i && steps[q] == Fail(k);
    }
    forall k | k in n.flights && n.flights[k] == Returned(None)
      ensures FailedBefore(steps, k, i + 1)
    {
      assert step == Fail(k) ==> steps[i] == Fail(k);
    }
    if step.Deliver? && s.flights[step.key] == Returned(None) {
      assert FailedBefore(steps, step.key, i);
    }
  }

  lemma WaitersStep(s: State, step: Step, n: State)
    requires Enabled(s, step) && n == Do(s, step) && WaitersServed(s)
    ensures WaitersServed(n)
  {
  }

  lemma {:induction false} FlightsServe(run: seq<State>, steps: seq<Step>, i: nat)
    requires IsRun(run, steps) && i < |run|
    ensures ErrorsOk(run[i], steps, i) && WaitersServed(run[i])
  {
    if i > 0 {
      FlightsServe(run, steps, i - 1);
      ErrorsStep(run[i - 1], steps[i - 1], run[i], steps, i - 1);
      WaitersStep(run[i - 1], steps[i - 1], run[i]);
    }
  }

  /** A lookup is told of an error only when a query of its key failed. */
  lemma ErrorMeansFailure(run: seq<State>, steps: seq<Step>, i: nat, c: nat)
    requires IsRun(run, steps) && i < |run|
    requires c in run[i].callers && run[i].callers[c].Answered? && run[i].callers[c].reply.None?
    ensures FailedBefore(steps, run[i].callers[c].key, i)
  {
    FlightsServe(run, steps, i);
  }

  /** A waiting lookup has a flight, and the delivery of that flight tells it what the flight found. */
  lemma WaiterIsAnswered(run: seq<State>, steps: seq<Step>, i: nat, c: nat)
    requires IsRun(run, steps) && i < |run| && c in run[i].callers && run[i].callers[c].Waiting?
    ensures var key := run[i].callers[c].key;
            && key in run[i].flights
            && (i < |steps| && steps[i] == Deliver(key) ==>
                  && run[i].flights[key].Returned? && c in run[i + 1].callers
                  && run[i + 1].callers[c] == Answered(key, run[i].callers[c].since, run[i].flights[key].reply))
  {
    FlightsServe(run, steps, i);
    if i < |steps| {
      assert run[i + 1] == Do(run[i], steps[i]);
    }
  }

  // ------------------------------------------------------------------- negative adds

  /** A negative add of the object is an Add step and then the eviction of what made room for it. */
  lemma AddNegativeStepsAreMethod(s: State, key: Key, after: set<Key>)
    requires Enabled(s, Add(key)) && Stores(s, Add(key)) && s.flights[key].reading.rec.None?
    requires AddedNegative(s.negative.Keys, key, after)
    ensures NegativeAfter(Do(s, Add(key)), EvictNegative(s.negative.Keys - after)).Keys == after
    ensures NegativeAfter(s, Add(key))[key] == s.flights[key].reading && PositiveAfter(s, Add(key)) == s.positive
  {
    assert NegativeAfter(s, Add(key)) == s.negative[key := s.flights[key].reading];
  }

  // ------------------------------------------------------------ what is stored, exactly

  predicate Invalidates(step: Step) {
    step.DropBegin? || step.PurgeBegin?
  }

  lemma {:induction false} GenerationGrows(run: seq<State>, steps: seq<Step>, i: nat, j: nat)
    requires IsRun(run, steps) && i <= j < |run|
    ensures run[i].generation <= run[j].generation
    ensures run[i].generation == run[j].generation <==> forall q :: i <= q < j ==> !Invalidates(steps[q])
    decreases j - i
  {
    if i < j {
      GenerationGrows(run, steps, i + 1, j);
      assert run[i + 1] == Do(run[i], steps[i]);
    }
  }

  /** The flight of the key took this generation. */
  predicate TookGeneration(s: State, key: Key, gen: nat) {
    key in s.flights && (s.flights[key].Current? || s.flights[key].Got?) && s.flights[key].gen == gen
  }

  lemma GenerationKept(s: State, step: Step, n: State, key: Key, gen: nat)
    requires Enabled(s, step) && n == Do(s, step) && TookGeneration(s, key, gen)
    requires step != Add(key) && step != Fail(key)
    ensures TookGeneration(n, key, gen)
  {
  }

  lemma {:induction false} GenerationKeptUntil(run: seq<State>, steps: seq<Step>, i: nat, j: nat, key: Key, gen: nat)
    requires IsRun(run, steps) && i <= j < |run| && TookGeneration(run[i], key, gen)
    requires forall q :: i <= q < j ==> steps[q] != Add(key) && steps[q] != Fail(key)
    ensures TookGeneration(run[j], key, gen)
    decreases j - i
  {
    if i < j {
      GenerationKept(run[i], steps[i], run[i + 1], key, gen);
      GenerationKeptUntil(run, steps, i + 1, j, key, gen);
    }
  }

  /**
   * What a flight found is stored, a record or "unknown", if and only if no dropToken and no
   * purge began since the flight read the generation; otherwise the caches stay as they are.
   */
  lemma StoredIff(run: seq<State>, steps: seq<Step>, l: nat, i: nat, key: Key)
    requires IsRun(run, steps) && l < i < |steps| && steps[l] == LoadGeneration(key) && steps[i] == Add(key)
    requires forall q :: l < q < i ==> steps[q] != Add(key) && steps[q] != Fail(key)
    ensures run[i].flights[key].Got?
    ensures var reading := run[i].flights[key].reading;
            if forall q :: l < q < i ==> !Invalidates(steps[q]) then
              && (reading.rec.Some? ==> key in run[i + 1].positive && run[i + 1].positive[key] == reading)
              && (reading.rec.None? ==> key in run[i + 1].negative && run[i + 1].negative[key] == reading)
            else run[i + 1].positive == run[i].positive && run[i + 1].negative == run[i].negative
  {
    assert run[l + 1] == Do(run[l], steps[l]);
    GenerationKeptUntil(run, steps, l + 1, i, key, run[l].generation);
    GenerationGrows(run, steps, l + 1, i);
    assert run[i + 1] == Do(run[i], steps[i]);
  }
}
