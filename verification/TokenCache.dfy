/**
 * The token cache (internal/auth/tokencache.go): lookups that share one database
 * read per hash, a fill guarded by a generation, and invalidations that race with
 * both.
 */
module TokenCache {
  import opened Common

  /** A token hash. */
  type Key = nat
  type TokenId = nat

  /** tokenRecord: the token, whether it is revoked, and everything else read with it. */
  datatype Record = Record(id: TokenId, revoked: bool, data: nat)

  const POSITIVE_SIZE: nat := 100_000
  const NEGATIVE_SIZE: nat := 20_000

  // ---------------------------------------------------------------- the cache object

  /** The records that survive dropToken. */
  function WithoutToken(positive: map<Key, Record>, id: TokenId): map<Key, Record> {
    map k | k in positive && positive[k].id != id :: positive[k]
  }

  /** The LRU after an Add: the new entry is there, at most one other entry made room for it. */
  ghost predicate Added(before: map<Key, Record>, key: Key, rec: Record, after: map<Key, Record>) {
    && key in after && after[key] == rec
    && (forall k :: k in after ==> k in before[key := rec] && after[k] == before[key := rec][k])
    && |before[key := rec]| <= |after| + 1
    && (|before| <= POSITIVE_SIZE ==> |after| <= POSITIVE_SIZE)
    && (|before[key := rec]| <= POSITIVE_SIZE ==> after == before[key := rec])
  }

  ghost predicate AddedNegative(before: set<Key>, key: Key, after: set<Key>) {
    && key in after && after <= before + {key} && |before + {key}| <= |after| + 1
    && (|before| <= NEGATIVE_SIZE ==> |after| <= NEGATIVE_SIZE)
    && (|before + {key}| <= NEGATIVE_SIZE ==> after == before + {key})
  }

  class Cache {
    var positive: map<Key, Record>
    var negative: set<Key>
    var generation: nat

    constructor ()
      ensures positive == map[] && negative == {} && generation == 0
    {
      positive, negative, generation := map[], {}, 0;
    }

    /** addIfCurrent with either add of lookup: stores nothing when the generation moved on. */
    method AddIfCurrent(gen: nat, key: Key, rec: Option<Record>)
      modifies this`positive, this`negative
      ensures generation != gen || rec.None? ==> positive == old(positive)
      ensures generation != gen || rec.Some? ==> negative == old(negative)
      ensures generation == gen && rec.Some? ==> Added(old(positive), key, rec.value, positive)
      ensures generation == gen && rec.None? ==> AddedNegative(old(negative), key, negative)
    {
      if generation == gen {
        if rec.Some? {
          AddPositive(key, rec.value);
        } else {
          AddNegative(key);
        }
      }
    }

    method AddPositive(key: Key, rec: Record)
      modifies this`positive
      ensures Added(old(positive), key, rec, positive)
    {
      positive := positive[key := rec];
      if |positive| > POSITIVE_SIZE {
        assert |positive.Keys - {key}| == |positive| - 1;
        var victim :| victim in positive.Keys - {key};
        ghost var grown := positive;
        positive := positive - {victim};
        assert grown.Keys == positive.Keys + {victim};
      }
    }

    method AddNegative(key: Key)
      modifies this`negative
      ensures AddedNegative(old(negative), key, negative)
    {
      negative := negative + {key};
      if |negative| > NEGATIVE_SIZE {
        assert |negative - {key}| == |negative| - 1;
        var victim :| victim in negative - {key};
        negative := negative - {victim};
      }
    }

    method DropToken(id: TokenId)
      modifies this`positive, this`generation
      ensures generation == old(generation) + 1
      ensures positive == WithoutToken(old(positive), id)
    {
      generation := generation + 1;
      var keys := positive.Keys;
      while keys != {}
        modifies this`positive
        invariant keys <= old(positive).Keys
        invariant forall k :: k in positive <==> k in old(positive) && (k in keys || old(positive)[k].id != id)
        invariant forall k :: k in positive ==> positive[k] == old(positive)[k]
        decreases |keys|
      {
        var key :| key in keys;
        if key in positive && positive[key].id == id {
          positive := positive - {key};
        }
        keys := keys - {key};
      }
    }

    method Purge()
      modifies this
      ensures generation == old(generation) + 1 && positive == map[] && negative == {}
    {
      generation := generation + 1;
      positive := map[];
      negative := {};
    }
  }

  // ---------------------------------------------------- lookups and invalidations together

  datatype Row = Row(id: TokenId, data: nat)

  /** A cached answer, with the step at which it was read from the database. */
  datatype Reading = Reading(rec: Option<Record>, at: nat)

  /** A shared flight: before the generation is read, before the query, before the add, and done. */
  datatype Flight =
    | Begun
    | Current(gen: nat)
    | Got(gen: nat, reading: Reading)
    | Returned(reply: Option<Reading>)

  /** A caller of lookup, with the step at which it called. */
  datatype Caller = Waiting(key: Key, since: nat) | Answered(key: Key, since: nat, reply: Option<Reading>)

  /** Who holds mu: nobody, a dropToken with the keys it has still to look at, or a purge. */
  datatype Lock = Free | Dropping(id: TokenId, todo: set<Key>) | Purging

  /**
   * The invalidations so far, by the step at which they began: dropped and purged are
   * the latest ones, handled and emptied the latest that finished, bumped the latest of
   * any kind.
   */
  datatype Invalidations = Invalidations(
    dropped: map<TokenId, nat>, purged: nat, handled: map<TokenId, nat>, emptied: nat, bumped: nat)

  /**
   * time counts the steps taken. revokedAt: the step at which each token was revoked.
   */
  datatype State = State(
    rows: map<Key, Row>, revokedAt: map<TokenId, nat>,
    positive: map<Key, Reading>, negative: map<Key, Reading>, generation: nat, mu: Lock,
    flights: map<Key, Flight>, callers: map<nat, Caller>,
    time: nat, inv: Invalidations)

  datatype Step =
    | Write(key: Key, row: Row)
    | Delete(key: Key)
    | Revoke(id: TokenId)
    | Hit(c: nat, key: Key)
    | NegativeHit(c: nat, key: Key)
    | Join(c: nat, key: Key)
    | LoadGeneration(key: Key)
    | Query(key: Key)
    | Fail(key: Key)
    | Add(key: Key)
    | Deliver(key: Key)
    | Evict(keys: set<Key>)
    | EvictNegative(keys: set<Key>)
    | DropBegin(id: TokenId)
    | DropOne(key: Key)
    | DropEnd
    | PurgeBegin
    | PurgeEnd

  predicate Enabled(s: State, step: Step) {
    match step
    case Write(_, _) => true
    case Delete(_) => true
    case Revoke(id) => id !in s.revokedAt
    case Hit(c, key) => c !in s.callers && key in s.positive
    case NegativeHit(c, key) => c !in s.callers && key in s.negative
    case Join(c, key) => c !in s.callers
    case LoadGeneration(key) => key in s.flights && s.flights[key].Begun?
    case Query(key) => key in s.flights && s.flights[key].Current?
    case Fail(key) => key in s.flights && s.flights[key].Current?
    case Add(key) => key in s.flights && s.flights[key].Got? && s.mu.Free?
    case Deliver(key) => key in s.flights && s.flights[key].Returned?
    case Evict(_) => true
    case EvictNegative(_) => true
    case DropBegin(_) => s.mu.Free?
    case DropOne(key) => s.mu.Dropping? && key in s.mu.todo
    case DropEnd => s.mu.Dropping? && s.mu.todo == {}
    case PurgeBegin => s.mu.Free?
    case PurgeEnd => s.mu.Purging?
  }

  /** The record of the query: revoked when the token was revoked by now. */
  function ReadRow(s: State, key: Key): Reading {
    if key !in s.rows then Reading(None, s.time) else
      var row := s.rows[key];
      Reading(Some(Record(row.id, row.id in s.revokedAt, row.data)), s.time)
  }

  function Answer(callers: map<nat, Caller>, key: Key, reply: Option<Reading>): map<nat, Caller> {
    map c | c in callers ::
      if callers[c] == Waiting(key, callers[c].since) then Answered(key, callers[c].since, reply) else callers[c]
  }

  function RevokedAfter(s: State, step: Step): map<TokenId, nat> {
    if step.Revoke? then s.revokedAt[step.id := s.time] else s.revokedAt
  }

  function RowsAfter(s: State, step: Step): map<Key, Row> {
    match step
    case Write(key, row) => s.rows[key := row]
    case Delete(key) => s.rows - {key}
    case _ => s.rows
  }

  /** addIfCurrent stores this reading. */
  predicate Stores(s: State, step: Step)
    requires Enabled(s, step)
  {
    step.Add? && s.generation == s.flights[step.key].gen
  }

  function PositiveAfter(s: State, step: Step): map<Key, Reading>
    requires Enabled(s, step)
  {
    match step
    case Add(key) =>
      var reading := s.flights[key].reading;
      if Stores(s, step) && reading.rec.Some? then s.positive[key := reading] else s.positive
    case Evict(keys) => s.positive - keys
    case DropOne(key) =>
      if key in s.positive && s.positive[key].rec.Some? && s.positive[key].rec.value.id == s.mu.id
      then s.positive - {key} else s.positive
    case PurgeEnd => map[]
    case _ => s.positive
  }

  function NegativeAfter(s: State, step: Step): map<Key, Reading>
    requires Enabled(s, step)
  {
    match step
    case Add(key) =>
      var reading := s.flights[key].reading;
      if Stores(s, step) && reading.rec.None? then s.negative[key := reading] else s.negative
    case EvictNegative(keys) => s.negative - keys
    case PurgeEnd => map[]
    case _ => s.negative
  }

  function GenerationAfter(s: State, step: Step): nat {
    if step.DropBegin? || step.PurgeBegin? then s.generation + 1 else s.generation
  }

  function LockAfter(s: State, step: Step): Lock
    requires Enabled(s, step)
  {
    match step
    case DropBegin(id) => Dropping(id, s.positive.Keys)
    case DropOne(key) => Dropping(s.mu.id, s.mu.todo - {key})
    case PurgeBegin => Purging
    case DropEnd => Free
    case PurgeEnd => Free
    case _ => s.mu
  }

  function InvalidationsAfter(s: State, step: Step): Invalidations
    requires Enabled(s, step)
  {
    match step
    case DropBegin(id) => s.inv.(dropped := s.inv.dropped[id := s.time], bumped := s.time)
    case PurgeBegin => s.inv.(purged := s.time, bumped := s.time)
    case DropEnd => s.inv.(handled := Finished(s.inv, s.mu.id))
    case PurgeEnd => s.inv.(emptied := s.inv.purged)
    case _ => s.inv
  }

  function Finished(inv: Invalidations, id: TokenId): map<TokenId, nat> {
    if id in inv.dropped then inv.handled[id := inv.dropped[id]] else inv.handled
  }

  function FlightsAfter(s: State, step: Step): map<Key, Flight>
    requires Enabled(s, step)
  {
    match step
    case Join(_, key) => if key in s.flights then s.flights else s.flights[key := Begun]
    case LoadGeneration(key) => s.flights[key := Current(s.generation)]
    case Query(key) => s.flights[key := Got(s.flights[key].gen, ReadRow(s, key))]
    case Fail(key) => s.flights[key := Returned(None)]
    case Add(key) => s.flights[key := Returned(Some(s.flights[key].reading))]
    case Deliver(key) => s.flights - {key}
    case _ => s.flights
  }

  function CallersAfter(s: State, step: Step): map<nat, Caller>
    requires Enabled(s, step)
  {
    match step
    case Hit(c, key) => s.callers[c := Answered(key, s.time, Some(s.positive[key]))]
    case NegativeHit(c, key) => s.callers[c := Answered(key, s.time, Some(s.negative[key]))]
    case Join(c, key) => s.callers[c := Waiting(key, s.time)]
    case Deliver(key) => Answer(s.callers, key, s.flights[key].reply)
    case _ => s.callers
  }

  /** One step, part by part. */
  function Do(s: State, step: Step): State
    requires Enabled(s, step)
  {
    State(RowsAfter(s, step), RevokedAfter(s, step), PositiveAfter(s, step), NegativeAfter(s, step),
          GenerationAfter(s, step), LockAfter(s, step), FlightsAfter(s, step), CallersAfter(s, step),
          s.time + 1, InvalidationsAfter(s, step))
  }

  function Initial(rows: map<Key, Row>): State {
    State(rows, map[], map[], map[], 0, Free, map[], map[], 1, Invalidations(map[], 0, map[], 0, 0))
  }

  // --------------------------------------------------------------------- invariants

  /** What a reading shows is what the database held when it was read. */
  predicate Truthful(reading: Reading, revokedAt: map<TokenId, nat>, time: nat) {
    && reading.at < time
    && (reading.rec.Some? ==>
          (reading.rec.value.revoked <==>
             reading.rec.value.id in revokedAt && revokedAt[reading.rec.value.id] < reading.at))
  }

  /** Read after the latest dropToken of its token and after the latest purge. */
  predicate Fresh(reading: Reading, dropped: map<TokenId, nat>, purged: nat) {
    && purged < reading.at
    && (reading.rec.Some? && reading.rec.value.id in dropped ==> dropped[reading.rec.value.id] < reading.at)
  }

  /** The running invalidation still has to look at this entry. */
  predicate Doomed(mu: Lock, key: Key, reading: Reading) {
    mu.Purging? || (mu.Dropping? && key in mu.todo && reading.rec.Some? && reading.rec.value.id == mu.id)
  }

  predicate EntryOk(key: Key, reading: Reading, revokedAt: map<TokenId, nat>, time: nat,
                    inv: Invalidations, mu: Lock) {
    && reading.rec.Some? && Truthful(reading, revokedAt, time)
    && Fresh(reading, inv.handled, inv.emptied)
    && (Fresh(reading, inv.dropped, inv.purged) || Doomed(mu, key, reading))
  }

  ghost predicate EntriesOk(positive: map<Key, Reading>, revokedAt: map<TokenId, nat>, time: nat,
                            inv: Invalidations, mu: Lock) {
    forall k :: k in positive ==> EntryOk(k, positive[k], revokedAt, time, inv, mu)
  }

  ghost predicate NegativesOk(negative: map<Key, Reading>, time: nat, inv: Invalidations, mu: Lock) {
    forall k :: k in negative ==>
      && negative[k].rec.None? && negative[k].at < time
      && inv.emptied < negative[k].at && (inv.purged < negative[k].at || mu.Purging?)
  }

  /** A flight whose generation is still current read the database after the latest invalidation. */
  predicate FlightOk(f: Flight, generation: nat, bumped: nat, revokedAt: map<TokenId, nat>, time: nat) {
    match f
    case Begun => true
    case Current(gen) => gen <= generation
    case Got(gen, reading) =>
      gen <= generation && Truthful(reading, revokedAt, time) && (gen == generation ==> bumped < reading.at)
    case Returned(reply) => reply.Some? ==> Truthful(reply.value, revokedAt, time)
  }

  ghost predicate FlightsOk(flights: map<Key, Flight>, generation: nat, bumped: nat,
                            revokedAt: map<TokenId, nat>, time: nat) {
    forall k :: k in flights ==> FlightOk(flights[k], generation, bumped, revokedAt, time)
  }

  ghost predicate ClocksOk(inv: Invalidations, revokedAt: map<TokenId, nat>, time: nat) {
    && inv.bumped < time && inv.emptied <= inv.purged <= inv.bumped
    && (forall id :: id in inv.dropped ==> inv.dropped[id] <= inv.bumped)
    && (forall id :: id in inv.handled ==> id in inv.dropped && inv.handled[id] <= inv.dropped[id])
    && (forall id :: id in revokedAt ==> revokedAt[id] < time)
  }

  ghost predicate Inv(s: State) {
    && ClocksOk(s.inv, s.revokedAt, s.time)
    && EntriesOk(s.positive, s.revokedAt, s.time, s.inv, s.mu)
    && NegativesOk(s.negative, s.time, s.inv, s.mu)
    && FlightsOk(s.flights, s.generation, s.inv.bumped, s.revokedAt, s.time)
  }

  /** What was read before a step stays truthful after it. */
  lemma TruthStays(s: State, step: Step, reading: Reading)
    requires Enabled(s, step) && Truthful(reading, s.revokedAt, s.time)
    ensures Truthful(reading, RevokedAfter(s, step), s.time + 1)
  {
  }

  lemma ClocksKept(s: State, step: Step)
    requires ClocksOk(s.inv, s.revokedAt, s.time) && Enabled(s, step)
    ensures ClocksOk(InvalidationsAfter(s, step), RevokedAfter(s, step), s.time + 1)
  {
  }

  /** An invalidation begins, goes on or ends: an entry stays fresh, is doomed, or is gone. */
  lemma EntryStays(s: State, step: Step, k: Key)
    requires ClocksOk(s.inv, s.revokedAt, s.time) && Enabled(s, step)
    requires k in s.positive && EntryOk(k, s.positive[k], s.revokedAt, s.time, s.inv, s.mu)
    requires k in PositiveAfter(s, step) && PositiveAfter(s, step)[k] == s.positive[k]
    ensures EntryOk(k, s.positive[k], RevokedAfter(s, step), s.time + 1, InvalidationsAfter(s, step),
                    LockAfter(s, step))
  {
    TruthStays(s, step, s.positive[k]);
  }

  /** What is added was read after every invalidation. */
  lemma EntryAdded(s: State, step: Step, k: Key)
    requires ClocksOk(s.inv, s.revokedAt, s.time) && Enabled(s, step) && step == Add(k) && Stores(s, step)
    requires FlightOk(s.flights[k], s.generation, s.inv.bumped, s.revokedAt, s.time)
    ensures var reading := s.flights[k].reading;
            && Truthful(reading, s.revokedAt, s.time + 1)
            && Fresh(reading, s.inv.handled, s.inv.emptied) && Fresh(reading, s.inv.dropped, s.inv.purged)
  {
  }

  lemma EntriesKept(s: State, step: Step)
    requires Inv(s) && Enabled(s, step)
    ensures EntriesOk(PositiveAfter(s, step), RevokedAfter(s, step), s.time + 1, InvalidationsAfter(s, step),
                      LockAfter(s, step))
  {
    var after := PositiveAfter(s, step);
    forall k | k in after
      ensures EntryOk(k, after[k], RevokedAfter(s, step), s.time + 1, InvalidationsAfter(s, step), LockAfter(s, step))
    {
      if step == Add(k) && Stores(s, step) {
        assert FlightOk(s.flights[k], s.generation, s.inv.bumped, s.revokedAt, s.time);
        EntryAdded(s, step, k);
      }
      if k in s.positive && after[k] == s.positive[k] {
        assert EntryOk(k, s.positive[k], s.revokedAt, s.time, s.inv, s.mu);
        EntryStays(s, step, k);
      }
    }
  }

  lemma NegativesKept(s: State, step: Step)
    requires Inv(s) && Enabled(s, step)
    ensures NegativesOk(NegativeAfter(s, step), s.time + 1, InvalidationsAfter(s, step), LockAfter(s, step))
  {
    if step.Add? && Stores(s, step) {
      assert FlightOk(s.flights[step.key], s.generation, s.inv.bumped, s.revokedAt, s.time);
      EntryAdded(s, step, step.key);
    }
  }

  lemma FlightsKept(s: State, step: Step)
    requires ClocksOk(s.inv, s.revokedAt, s.time) && Enabled(s, step)
    requires FlightsOk(s.flights, s.generation, s.inv.bumped, s.revokedAt, s.time)
    ensures FlightsOk(FlightsAfter(s, step), GenerationAfter(s, step), InvalidationsAfter(s, step).bumped,
                      RevokedAfter(s, step), s.time + 1)
  {
    var after := FlightsAfter(s, step);
    forall k | k in after
      ensures FlightOk(after[k], GenerationAfter(s, step), InvalidationsAfter(s, step).bumped, RevokedAfter(s, step),
                       s.time + 1)
    {
      if k in s.flights {
        assert FlightOk(s.flights[k], s.generation, s.inv.bumped, s.revokedAt, s.time);
      }
    }
  }

  lemma StepKeeps(s: State, step: Step)
    requires Inv(s) && Enabled(s, step)
    ensures Inv(Do(s, step))
  {
    ClocksKept(s, step);
    EntriesKept(s, step);
    NegativesKept(s, step);
    FlightsKept(s, step);
  }

  // ------------------------------------------------------------------------ whole runs

  ghost predicate IsRun(run: seq<State>, steps: seq<Step>) {
    && |run| == |steps| + 1
    && run[0] == Initial(run[0].rows)
    && forall i :: 0 <= i < |steps| ==> Enabled(run[i], steps[i]) && run[i + 1] == Do(run[i], steps[i])
  }

  lemma {:induction false} RunKeeps(run: seq<State>, steps: seq<Step>, i: nat)
    requires IsRun(run, steps) && i < |run|
    ensures Inv(run[i]) && run[i].time == i + 1
  {
    if i > 0 {
      RunKeeps(run, steps, i - 1);
      StepKeeps(run[i - 1], steps[i - 1]);
    }
  }

  lemma {:induction false} TimeIs(run: seq<State>, steps: seq<Step>, i: nat)
    requires IsRun(run, steps) && i < |run|
    ensures run[i].time == i + 1
  {
    if i > 0 {
      TimeIs(run, steps, i - 1);
    }
  }

  /** The reading is what the query at step at - 1 found for the key. */
  ghost predicate QueriedAt(run: seq<State>, steps: seq<Step>, key: Key, reading: Reading)
    requires |run| == |steps| + 1
  {
    1 <= reading.at <= |steps| && steps[reading.at - 1] == Query(key) && reading == ReadRow(run[reading.at - 1], key)
  }

  ghost predicate FlightQueried(run: seq<State>, steps: seq<Step>, key: Key, f: Flight)
    requires |run| == |steps| + 1
  {
    && (f.Got? ==> QueriedAt(run, steps, key, f.reading))
    && (f.Returned? && f.reply.Some? ==> QueriedAt(run, steps, key, f.reply.value))
  }

  lemma {:induction false} EverythingWasQueried(run: seq<State>, steps: seq<Step>, i: nat)
    requires IsRun(run, steps) && i < |run|
    ensures forall k :: k in run[i].positive ==> QueriedAt(run, steps, k, run[i].positive[k])
    ensures forall k :: k in run[i].flights ==> FlightQueried(run, steps, k, run[i].flights[k])
  {
    if i > 0 {
      EverythingWasQueried(run, steps, i - 1);
      RunKeeps(run, steps, i - 1);
      StepQueried(run, steps, i - 1, run[i]);
    }
  }

  /** Where the entry of a key comes from in one step. */
  lemma EntrySource(s: State, step: Step, k: Key)
    requires Enabled(s, step) && k in PositiveAfter(s, step)
    ensures || (k in s.positive && PositiveAfter(s, step)[k] == s.positive[k])
            || (k in s.flights && s.flights[k].Got? && PositiveAfter(s, step)[k] == s.flights[k].reading)
  {
  }

  /** Where the flight of a key comes from in one step. */
  lemma FlightSource(s: State, step: Step, k: Key)
    requires Enabled(s, step) && k in FlightsAfter(s, step)
    ensures var f := FlightsAfter(s, step)[k];
            || (k in s.flights && f == s.flights[k])
            || f.Begun? || f.Current?
            || f == Returned(None)
            || (step == Query(k) && f.Got? && f.reading == ReadRow(s, k))
            || (k in s.flights && s.flights[k].Got? && f == Returned(Some(s.flights[k].reading)))
  {
  }

  lemma StepQueried(run: seq<State>, steps: seq<Step>, i: nat, n: State)
    requires IsRun(run, steps) && i < |steps| && run[i].time == i + 1 && n == run[i + 1]
    requires forall k :: k in run[i].positive ==> QueriedAt(run, steps, k, run[i].positive[k])
    requires forall k :: k in run[i].flights ==> FlightQueried(run, steps, k, run[i].flights[k])
    ensures forall k :: k in n.positive ==> QueriedAt(run, steps, k, n.positive[k])
    ensures forall k :: k in n.flights ==> FlightQueried(run, steps, k, n.flights[k])
  {
    forall k | k in n.positive
      ensures QueriedAt(run, steps, k, n.positive[k])
    {
      EntrySource(run[i], steps[i], k);
      assert k in run[i].flights ==> FlightQueried(run, steps, k, run[i].flights[k]);
    }
    forall k | k in n.flights
      ensures FlightQueried(run, steps, k, n.flights[k])
    {
      FlightSource(run[i], steps[i], k);
      assert k in run[i].flights ==> FlightQueried(run, steps, k, run[i].flights[k]);
    }
  }

  lemma HandledGrows(s: State, step: Step, id: TokenId)
    requires ClocksOk(s.inv, s.revokedAt, s.time) && Enabled(s, step) && id in s.inv.handled
    ensures var n := InvalidationsAfter(s, step); id in n.handled && s.inv.handled[id] <= n.handled[id]
  {
  }

  /** Step b begins a dropToken of the token and step d ends it. */
  ghost predicate Handled(steps: seq<Step>, id: TokenId, b: nat, d: nat) {
    b < d < |steps| && steps[b] == DropBegin(id) && steps[d] == DropEnd && forall k :: b < k < d ==> steps[k] != DropEnd
  }

  lemma {:induction false} DropRuns(run: seq<State>, steps: seq<Step>, id: TokenId, b: nat, d: nat, i: nat)
    requires IsRun(run, steps) && Handled(steps, id, b, d) && b < i <= d
    ensures run[i].mu.Dropping? && run[i].mu.id == id && id in run[i].inv.dropped && run[i].inv.dropped[id] == b + 1
  {
    if i == b + 1 {
      TimeIs(run, steps, b);
      assert run[i] == Do(run[b], steps[b]);
    } else {
      DropRuns(run, steps, id, b, d, i - 1);
      assert run[i] == Do(run[i - 1], steps[i - 1]);
    }
  }

  lemma {:induction false} HandledStays(run: seq<State>, steps: seq<Step>, id: TokenId, b: nat, d: nat, i: nat)
    requires IsRun(run, steps) && Handled(steps, id, b, d) && d < i < |run|
    ensures id in run[i].inv.handled && b + 1 <= run[i].inv.handled[id]
  {
    if i == d + 1 {
      DropRuns(run, steps, id, b, d, d);
    } else {
      HandledStays(run, steps, id, b, d, i - 1);
      RunKeeps(run, steps, i - 1);
      HandledGrows(run[i - 1], steps[i - 1], id);
    }
  }

  lemma EntryIsFresh(s: State, key: Key)
    requires Inv(s) && key in s.positive
    ensures Fresh(s.positive[key], s.inv.handled, s.inv.emptied) && s.positive[key].at < s.time
  {
    assert EntryOk(key, s.positive[key], s.revokedAt, s.time, s.inv, s.mu);
  }

  lemma QueryOf(run: seq<State>, steps: seq<Step>, i: nat, key: Key) returns (q: nat)
    requires IsRun(run, steps) && i < |run| && key in run[i].positive
    ensures q + 1 == run[i].positive[key].at && q < |steps|
    ensures steps[q] == Query(key) && run[i].positive[key] == ReadRow(run[q], key)
  {
    EverythingWasQueried(run, steps, i);
    assert QueriedAt(run, steps, key, run[i].positive[key]);
    q := run[i].positive[key].at - 1;
  }

  /**
   * After a dropToken was handled, every positive entry of that token is what some
   * database query after the start of that dropToken found.
   */
  lemma EntryReadAfterDrop(run: seq<State>, steps: seq<Step>, id: TokenId, b: nat, d: nat, i: nat, key: Key)
    returns (q: nat)
    requires IsRun(run, steps) && Handled(steps, id, b, d) && d < i < |run|
    requires key in run[i].positive && run[i].positive[key].rec.Some? && run[i].positive[key].rec.value.id == id
    ensures b < q < i && steps[q] == Query(key) && run[i].positive[key] == ReadRow(run[q], key)
  {
    HandledStays(run, steps, id, b, d, i);
    RunKeeps(run, steps, i);
    EntryIsFresh(run[i], key);
    q := QueryOf(run, steps, i, key);
  }

  /** The same for purge: every entry, whatever its token. */
  lemma EntryReadAfterPurge(run: seq<State>, steps: seq<Step>, b: nat, d: nat, i: nat, key: Key) returns (q: nat)
    requires IsRun(run, steps) && b < d < i < |run|
    requires steps[b] == PurgeBegin && steps[d] == PurgeEnd && forall k :: b < k < d ==> steps[k] != PurgeEnd
    requires key in run[i].positive
    ensures b < q < i && steps[q] == Query(key) && run[i].positive[key] == ReadRow(run[q], key)
  {
    EmptiedStays(run, steps, b, d, i);
    RunKeeps(run, steps, i);
    EntryIsFresh(run[i], key);
    q := QueryOf(run, steps, i, key);
  }

  lemma {:induction false} PurgeRuns(run: seq<State>, steps: seq<Step>, b: nat, d: nat, i: nat)
    requires IsRun(run, steps) && b < i <= d < |steps|
    requires steps[b] == PurgeBegin && forall k :: b < k < d ==> steps[k] != PurgeEnd
    ensures run[i].mu.Purging? && run[i].inv.purged == b + 1
  {
    assert run[i] == Do(run[i - 1], steps[i - 1]);
    if i == b + 1 {
      TimeIs(run, steps, b);
    } else {
      PurgeRuns(run, steps, b, d, i - 1);
    }
  }

  lemma {:induction false} EmptiedStays(run: seq<State>, steps: seq<Step>, b: nat, d: nat, i: nat)
    requires IsRun(run, steps) && b < d < i < |run|
    requires steps[b] == PurgeBegin && steps[d] == PurgeEnd && forall k :: b < k < d ==> steps[k] != PurgeEnd
    ensures b + 1 <= run[i].inv.emptied
  {
    if i == d + 1 {
      PurgeRuns(run, steps, b, d, d);
    } else {
      EmptiedStays(run, steps, b, d, i - 1);
      RunKeeps(run, steps, i - 1);
    }
  }

  lemma {:induction false} RevocationStays(run: seq<State>, steps: seq<Step>, id: TokenId, r: nat, i: nat)
    requires IsRun(run, steps) && r < i < |run| && steps[r] == Revoke(id)
    ensures id in run[i].revokedAt && run[i].revokedAt[id] == r + 1
  {
    TimeIs(run, steps, i - 1);
    if i > r + 1 {
      RevocationStays(run, steps, id, r, i - 1);
    }
  }

  /** Once a revocation was handled, no unrevoked copy of the token is ever in the cache again. */
  lemma NoUnrevokedCopy(run: seq<State>, steps: seq<Step>, id: TokenId, r: nat, b: nat, d: nat, i: nat, key: Key)
    requires IsRun(run, steps) && Handled(steps, id, b, d) && d < i < |run|
    requires r < b && steps[r] == Revoke(id)
    requires key in run[i].positive
    ensures run[i].positive[key].rec.Some?
    ensures run[i].positive[key].rec.value.id == id ==> run[i].positive[key].rec.value.revoked
  {
    RunKeeps(run, steps, i);
    assert EntryOk(key, run[i].positive[key], run[i].revokedAt, run[i].time, run[i].inv, run[i].mu);
    if run[i].positive[key].rec.value.id == id {
      HandledStays(run, steps, id, b, d, i);
      RevocationStays(run, steps, id, r, i);
    }
  }

  // ------------------------------------------------- the object's methods as steps

  /** The records of the readings, as the cache object holds them. */
  function Records(positive: map<Key, Reading>): map<Key, Record> {
    map k | k in positive && positive[k].rec.Some? :: positive[k].rec.value
  }

  lemma EveryEntryIsRecord(s: State)
    requires Inv(s)
    ensures forall k :: k in s.positive ==> s.positive[k].rec.Some?
  {
    forall k | k in s.positive
      ensures s.positive[k].rec.Some?
    {
      assert EntryOk(k, s.positive[k], s.revokedAt, s.time, s.inv, s.mu);
    }
  }

  /** An add of the object is an Add step and then the Evict step of what made room for it. */
  lemma AddStepsAreMethod(s: State, key: Key, after: map<Key, Record>)
    requires Inv(s) && Enabled(s, Add(key)) && Stores(s, Add(key)) && s.flights[key].reading.rec.Some?
    requires Added(Records(s.positive), key, s.flights[key].reading.rec.value, after)
    ensures Records(PositiveAfter(Do(s, Add(key)), Evict(s.positive.Keys - after.Keys))) == after
  {
    EveryEntryIsRecord(s);
    assert PositiveAfter(s, Add(key)) == s.positive[key := s.flights[key].reading];
  }

  /** Between its begin and its end a dropToken has dealt with the keys that are not left to do. */
  lemma {:induction false} DropProgress(run: seq<State>, steps: seq<Step>, id: TokenId, b: nat, d: nat, i: nat)
    requires IsRun(run, steps) && Handled(steps, id, b, d) && b < i <= d
    requires forall k :: b < k < d ==> !steps[k].Evict?
    ensures run[i].mu.Dropping? && run[i].mu.id == id
    ensures forall k :: k in run[i].positive ==> k in run[b].positive && run[i].positive[k] == run[b].positive[k]
    ensures forall k :: k in Records(run[b].positive) ==>
              (k in run[i].positive <==> k in run[i].mu.todo || Records(run[b].positive)[k].id != id)
  {
    if i > b + 1 {
      DropProgress(run, steps, id, b, d, i - 1);
    }
  }

  /** The steps of a dropToken that nothing is evicted beside leave what the object's DropToken leaves. */
  lemma DropStepsAreMethod(run: seq<State>, steps: seq<Step>, id: TokenId, b: nat, d: nat)
    requires IsRun(run, steps) && Handled(steps, id, b, d)
    requires forall k :: b < k < d ==> !steps[k].Evict?
    ensures Records(run[d + 1].positive) == WithoutToken(Records(run[b].positive), id)
  {
    DropProgress(run, steps, id, b, d, d);
    RunKeeps(run, steps, b);
    assert run[d + 1].positive == run[d].positive && run[d].mu.todo == {};
  }

  // ------------------------------------------- which lookups return an unrevoked record

  /** An unrevoked record of the token. */
  predicate Unrevoked(reading: Option<Reading>, id: TokenId) {
    && reading.Some? && reading.value.rec.Some?
    && reading.value.rec.value.id == id && !reading.value.rec.value.revoked
  }

  /** The shared flight of the key has already read an unrevoked record of the token. */
  predicate FlightHolds(flights: map<Key, Flight>, key: Key, id: TokenId) {
    key in flights &&
    match flights[key]
    case Got(_, reading) => Unrevoked(Some(reading), id)
    case Returned(reply) => Unrevoked(reply, id)
    case _ => false
  }

  /** The lookup waits for the key's flight, or it was answered; whether by an unrevoked record is decided. */
  predicate Decided(s: State, c: nat, key: Key, id: TokenId, unrevoked: bool) {
    && c in s.callers && id in s.revokedAt && s.callers[c].key == key
    && match s.callers[c]
       case Waiting(_, _) => key in s.flights && FlightHolds(s.flights, key, id) == unrevoked
       case Answered(_, _, reply) => Unrevoked(reply, id) == unrevoked
  }

  /** Once the token is revoked, no step changes what a waiting lookup will be told. */
  lemma DecidedStays(s: State, step: Step, n: State, c: nat, key: Key, id: TokenId, unrevoked: bool)
    requires Enabled(s, step) && n == Do(s, step) && Decided(s, c, key, id, unrevoked)
    ensures Decided(n, c, key, id, unrevoked)
  {
  }

  lemma {:induction false} DecidedUntil(run: seq<State>, steps: seq<Step>, j: nat, i: nat, c: nat, key: Key,
                                        id: TokenId, unrevoked: bool)
    requires IsRun(run, steps) && j <= i < |run| && Decided(run[j], c, key, id, unrevoked)
    ensures Decided(run[i], c, key, id, unrevoked)
    decreases i - j
  {
    if j < i {
      DecidedStays(run[j], steps[j], run[j + 1], c, key, id, unrevoked);
      DecidedUntil(run, steps, j + 1, i, c, key, id, unrevoked);
    }
  }

  /**
   * A lookup that joins a flight after the revocation is answered with an unrevoked
   * record if and only if, when it joined, the flight had already read one.
   */
  lemma JoinedAnswerIff(run: seq<State>, steps: seq<Step>, id: TokenId, r: nat, j: nat, c: nat, key: Key, i: nat)
    requires IsRun(run, steps) && r < j < i < |run|
    requires steps[r] == Revoke(id) && steps[j] == Join(c, key)
    ensures c in run[i].callers
    ensures run[i].callers[c].Answered? ==>
              (Unrevoked(run[i].callers[c].reply, id) <==> FlightHolds(run[j].flights, key, id))
  {
    RevocationStays(run, steps, id, r, j + 1);
    assert run[j + 1] == Do(run[j], steps[j]);
    DecidedUntil(run, steps, j + 1, i, c, key, id, FlightHolds(run[j].flights, key, id));
  }

  /** Step j begins the lookup: a hit, a negative hit, or a flight it joins. */
  predicate Begins(step: Step, c: nat, key: Key) {
    step == Hit(c, key) || step == NegativeHit(c, key) || step == Join(c, key)
  }

  /**
   * A lookup that begins after a revocation was handled is answered with an unrevoked
   * record if and only if it joins a flight that had already read one.
   */
  lemma RevokedLookupIff(run: seq<State>, steps: seq<Step>, id: TokenId, r: nat, b: nat, d: nat, j: nat, c: nat,
                         key: Key, i: nat)
    requires IsRun(run, steps) && Handled(steps, id, b, d) && r < b && steps[r] == Revoke(id)
    requires d < j < i < |run| && Begins(steps[j], c, key)
    ensures c in run[i].callers
    ensures run[i].callers[c].Answered? ==>
              (Unrevoked(run[i].callers[c].reply, id) <==>
               steps[j].Join? && FlightHolds(run[j].flights, key, id))
  {
    if steps[j].Join? {
      JoinedAnswerIff(run, steps, id, r, j, c, key, i);
    } else {
      RunKeeps(run, steps, j);
      if steps[j].Hit? {
        NoUnrevokedCopy(run, steps, id, r, b, d, j, key);
      }
      RevocationStays(run, steps, id, r, j + 1);
      assert run[j + 1] == Do(run[j], steps[j]);
      DecidedUntil(run, steps, j + 1, i, c, key, id, false);
    }
  }

  // ---------------------------------------- a lookup that joins an older shared flight

  ghost predicate Path(run: seq<State>, steps: seq<Step>) {
    && |run| == |steps| + 1
    && forall i :: 0 <= i < |steps| ==> Enabled(run[i], steps[i]) && run[i + 1] == Do(run[i], steps[i])
  }

  lemma Connect(r1: seq<State>, s1: seq<Step>, r2: seq<State>, s2: seq<Step>)
    requires Path(r1, s1) && Path(r2, s2) && r1[|s1|] == r2[0]
    ensures Path(r1 + r2[1..], s1 + s2)
  {
    var run, steps := r1 + r2[1..], s1 + s2;
    forall i | 0 <= i < |steps|
      ensures Enabled(run[i], steps[i]) && run[i + 1] == Do(run[i], steps[i])
    {
      if i < |s1| {
        assert run[i] == r1[i] && run[i + 1] == r1[i + 1] && steps[i] == s1[i];
      } else {
        var j := i - |s1|;
        assert run[i] == r2[j] && run[i + 1] == r2[j + 1] && steps[i] == s2[j];
      }
    }
  }

  const OLD: Reading := Reading(Some(Record(7, false, 0)), 3)

  function Queried(): State {
    Initial(map[0 := Row(7, 0)]).(callers := map[0 := Waiting(0, 1)], flights := map[0 := Got(0, OLD)], time := 4)
  }

  function AfterDrop(): State {
    Queried().(revokedAt := map[7 := 4], generation := 1, time := 7,
               inv := Invalidations(map[7 := 5], 0, map[7 := 5], 0, 5))
  }

  lemma OldQuery() returns (run: seq<State>, steps: seq<Step>)
    ensures Path(run, steps) && steps == [Join(0, 0), LoadGeneration(0), Query(0)]
    ensures run[0] == Initial(map[0 := Row(7, 0)]) && run[3] == Queried()
  {
    steps := [Join(0, 0), LoadGeneration(0), Query(0)];
    var r0 := Initial(map[0 := Row(7, 0)]);
    var r1 := r0.(callers := map[0 := Waiting(0, 1)], flights := map[0 := Begun], time := 2);
    var r2 := r1.(flights := map[0 := Current(0)], time := 3);
    assert Do(r0, steps[0]) == r1 && Do(r1, steps[1]) == r2 && Do(r2, steps[2]) == Queried();
    run := [r0, r1, r2, Queried()];
  }

  lemma RevokedAndDropped() returns (run: seq<State>, steps: seq<Step>)
    ensures Path(run, steps) && steps == [Revoke(7), DropBegin(7), DropEnd]
    ensures run[0] == Queried() && run[3] == AfterDrop()
  {
    steps := [Revoke(7), DropBegin(7), DropEnd];
    var r0 := Queried();
    var r1 := r0.(revokedAt := map[7 := 4], time := 5);
    var r2 := r1.(generation := 1, mu := Dropping(7, {}), inv := r1.inv.(dropped := map[7 := 5], bumped := 5),
                  time := 6);
    assert r1.positive.Keys == {};
    assert Do(r0, steps[0]) == r1 && Do(r1, steps[1]) == r2 && Do(r2, steps[2]) == AfterDrop();
    run := [r0, r1, r2, AfterDrop()];
  }

  function AfterJoin(): State {
    AfterDrop().(callers := map[0 := Waiting(0, 1), 1 := Waiting(0, 7)], time := 8)
  }

  function AfterAdd(): State {
    AfterJoin().(flights := map[0 := Returned(Some(OLD))], time := 9)
  }

  lemma LateJoiner() returns (run: seq<State>, steps: seq<Step>)
    ensures Path(run, steps) && steps == [Join(1, 0), Add(0)]
    ensures run[0] == AfterDrop() && run[2] == AfterAdd()
  {
    run, steps := [AfterDrop(), AfterJoin(), AfterAdd()], [Join(1, 0), Add(0)];
    assert Do(AfterDrop(), Join(1, 0)) == AfterJoin();
    assert Do(AfterJoin(), Add(0)) == AfterAdd();
  }

  lemma LateAnswer() returns (run: seq<State>, steps: seq<Step>)
    ensures Path(run, steps) && steps == [Deliver(0)] && run[0] == AfterAdd()
    ensures 1 in run[1].callers && run[1].callers[1] == Answered(0, 7, Some(OLD)) && 0 !in run[1].positive
  {
    run, steps := [AfterAdd(), Do(AfterAdd(), Deliver(0))], [Deliver(0)];
  }

  /**
   * The claim is about the cache only: a lookup that begins after the revocation of its
   * token was handled can still be answered with the unrevoked record of a shared flight.
   */
  lemma JoinerSeesOldRecord() returns (run: seq<State>, steps: seq<Step>)
    ensures IsRun(run, steps) && |steps| == 9
    ensures steps[3] == Revoke(7) && Handled(steps, 7, 4, 5) && steps[6] == Join(1, 0)
    ensures 1 in run[9].callers && run[9].callers[1] == Answered(0, 7, Some(OLD)) && !OLD.rec.value.revoked
    ensures 0 !in run[9].positive
  {
    var r1, s1 := OldQuery();
    var r2, s2 := RevokedAndDropped();
    var r3, s3 := LateJoiner();
    var r4, s4 := LateAnswer();
    Connect(r1, s1, r2, s2);
    Connect(r3, s3, r4, s4);
    Connect(r1 + r2[1..], s1 + s2, r3 + r4[1..], s3 + s4);
    run, steps := r1 + r2[1..] + (r3 + r4[1..])[1..], s1 + s2 + (s3 + s4);
    assert run[0] == r1[0] && run[9] == r4[1];
  }
}
