# Spinneret: verified models of its concurrent cores

Spinneret is a control plane whose hot paths are small concurrent protocols. This
project models the ones whose comments promise something about every interleaving,
and proves those promises for all runs and all inputs.

Each protocol is written three times over, and the three are tied together:

- the critical sections as functions on values (what one step under a lock does);
- the object the source updates in place as a class whose methods, with their loops,
  are proved against those functions;
- the interleavings as a step system over the same functions, with an invariant kept
  by every step and theorems over whole runs (`IsRun(run, steps)`).

Where a method is several steps of its system, a lemma says that the steps amount to the
method (`RunLoops.FlagStepsAreMethod`, `RunLoops.FireStepsAreMethod`,
`TokenCache.AddStepsAreMethod`, `TokenCache.DropStepsAreMethod`). The step system of the
runtime document follows the cache cell of one document, which is what `Get` and `Put` of
its class say about each cell.

What the parts model:

- **Catalog** (`Flights`, `Catalog`, `CatalogRuns`, `CatalogSync`, `CatalogSnapshots`,
  `CatalogQuiet`, `CatalogPaths`, `CatalogLoads`, `CatalogPruning`, `RunLoop`,
  `RunLoopTimers`, `CatalogInvalidations`): load coalescing per namespace, change marks and
  `Sync` on any number of instances, what it asks for and what it leaves alone, what the
  snapshots hold, the pruning of marks, the debounce and overflow loop with its timers, and
  that loop together with the reloads it starts.
- **State writer** (`StateChanges`, `Fifo`, `StateWriter`, `Salvage`, `StateWriterRuns`,
  `StateWriterAdmission`, `StateWriterFlushes`, `StateUpdates`, `StateRows`,
  `StateWriterRows`): the bounded two-class queue with its wakeups and what it accepts,
  flushing with carry, retries and salvage from taking a batch to being done with it, the
  de-duplicated last-writer-wins updates under any batching and replay, and all together:
  no change is lost silently.
- **Caches** (`TokenCache`, `TokenAnswers`, `RuntimeDocument`, `RuntimeCalls`): the
  generation-guarded token cache and what its lookups are told, and the versioned runtime
  document from the version a call reads to the document it returns.
- **Limiters** (`Notify`, `RateLimit`): spaced evaluations and the token bucket.
- **Supporting cores** (`HotRetry`, `Authz`, `AuthzLaws`, `Glob`, `Sorting`, `Buckets`,
  `Series`, `Common`): the retry set with catch-up, authorization and its laws, wildcard
  matching, and time buckets.

The database, Redis, the network and the clock appear as steps or parameters that may
answer anything. Times are integers in nanoseconds, durations too; token counts of the
rate limiter and series values are real numbers.

## What turned out false

For each of these the project holds a concrete counterexample, and the exact condition
under which the promise does hold.

- *Replays of state changes converge when ties are excluded.* Not for identities:
  `activated_at` keeps its old value when the newest change is no activation, so it
  depends on whether an activation was batched with a later change
  (`StateRows.ActivatedAtDependsOnBatching`; exactly when: `StateRows.ConvergesIff`).
  All other columns do converge (`StateRows.DistinctTimesConverge`), and ties below the
  newest time do no harm. For accounts see
  `StateRows.AccountConvergesIff`: an event that is only recorded, as
  internal/action/operator.go:239-262 can enqueue, counts for the guard without
  updating the row (`StateRows.RecordedOnlyEventMatters`).
- *Marks are pruned only once every instance removed the namespace* (comment at
  internal/catalog/marks.go:182-187). The two full reloads that prune a mark may both be
  of one instance, so another instance's `Sync` can miss a deletion
  (`CatalogPruning.PrunedDeletionIsMissed`). A mark that is there when `Sync` reads the
  marks is enough, even if it is pruned later during the call
  (`CatalogSync.ReadYourWrites`), so no change of a namespace that exists is missed; when
  it is gone the call does not ask for the namespace (`CatalogSync.GoneMarkIsNeverAsked`).
  Exactly when a change is shown: `CatalogSync.ShownIff`.
- *Two loads with the same fingerprint produce equivalent snapshots* (comment at
  internal/catalog/loader.go:34-35). For any two contents with one fingerprint there is
  a run in which a finished reload keeps the old rows
  (`CatalogSnapshots.CollisionKeepsOldRows`). Snapshots are exact in all runs if and only
  if the fingerprint is injective (`CatalogSnapshots.ExactIffInjective`); in one run it is
  enough that no two committed contents of the namespace collide
  (`CatalogSnapshots.SnapshotIsExact`).
- *A revoked token is rejected once the revocation was handled.* The cache holds no
  unrevoked copy any more, but a lookup may join an older shared flight
  (`TokenCache.JoinerSeesOldRecord`). Exactly when: it joins a flight that has already
  read an unrevoked record (`TokenCache.RevokedLookupIff`).
- *A rejected entry of the retry set is covered by the next catch-up.* Not a re-add of
  `catchUpExpiry`, which is stamped with the time of the pass (`HotRetries.ReAddIsMissed`,
  for every limit). Exactly when the next pass reaches a rejected re-add:
  `HotRetries.ReAddIsReachedIff`.
- *`SiteFilter` admits a site exactly when `Can` does.* Not for the empty namespace
  (`Authorization.EmptyNamespaceDiffers`; exactly when: `Authorization.EmptyNamespaceIff`).

## Model

| member | source | states |
|---|---|---|
| Flights.FlightTable.constructor | internal/catalog/flight.go:28-35 | a new store has no flights |
| Flights.FlightTable.RequestLoad | internal/catalog/flight.go:42-62 | the table becomes Request of the old one and the returned flight is the one Request names: the queued one, a new queued one, or a new current one with a runner |
| Flights.FlightTable.FetchCurrent | internal/catalog/flight.go:67-71 | the runner takes the current flight of its namespace and that flight is running |
| Flights.FlightTable.FinishLoad | internal/catalog/flight.go:73-74 | the flight is done with the load's result, nothing else changes |
| Flights.FlightTable.AdvanceRunner | internal/catalog/flight.go:76-82 | the queued flight becomes current, or the map entry goes and the runner exits |
| Flights.RequestKeeps | internal/catalog/flight.go:42-62 | a request keeps the invariant of the flight table and returns a waiting flight of its namespace |
| Flights.RequestJoins | internal/catalog/flight.go:42-62 | a request adds at most one waiting flight and one runner that has not begun, and changes no earlier flight |
| Flights.BeginKeeps | internal/catalog/flight.go:67-71 | starting a load keeps the invariant |
| Flights.FinishKeeps | internal/catalog/flight.go:73-74 | finishing a load keeps the invariant |
| Flights.AdvanceKeeps | internal/catalog/flight.go:76-82 | advancing or deleting the entry keeps the invariant |
| Flights.RunKeeps | internal/catalog/flight.go:42-87 | the invariant holds in every state of every interleaving of requests and runners |
| Flights.NobodyIsStuck | internal/catalog/flight.go:67-87 | a runner can always take its next step (current is set whenever it reads it) and a request is always possible |
| Flights.OneLoadPerNamespace | internal/catalog/flight.go:28-35 | at most one live runner per namespace in every reachable state |
| Flights.UnfinishedFlightHasRunner | internal/catalog/flight.go:67-87 | an unfinished flight is the current or next one of its namespace, which exactly one live runner serves |
| Flights.LoadStartsAfterRequest | internal/catalog/flight.go:37-42 | the load of a returned flight starts after the request that returned it |
| Catalog.MarkStore.CollectStale | internal/catalog/marks.go:118-124 | Sync's scan yields each namespace whose mark is ahead of the applied one exactly once |
| Catalog.MarkStore.RecordMark | internal/catalog/marks.go:176-180 | only a known, higher mark is recorded; no applied mark ever falls |
| Catalog.MarkStore.CollectPrunable | internal/catalog/marks.go:188-207 | marks missing twice in a row are pruned and forgotten, marks missing now are remembered |
| CatalogRuns.ApplyKeeps | internal/catalog/store.go:324-399 | publishing, removing or keeping a snapshot under writeMu keeps the instance's invariant, the recorded mark included |
| CatalogRuns.SyncStepKeeps | internal/catalog/marks.go:109-147 | every step of Sync keeps what the call will have waited for |
| CatalogRuns.FullKeeps | internal/catalog/store.go:192-245 | the steps of a full reload that read marks, list namespaces and prune keep the invariant |
| CatalogRuns.StepKeeps | internal/catalog/marks.go:109-211 | every step of any instance, of the database and of the shared marks keeps the invariant of the whole system |
| CatalogRuns.RunKeeps | internal/catalog/marks.go:15-25 | the invariant holds in every reachable state, with any number of instances |
| CatalogRuns.NobodyIsStuck | internal/catalog/store.go:324-364 | on every instance each load can always take its next step, whatever the others did meanwhile |
| CatalogRuns.LiveMarksStay | internal/catalog/marks.go:182-188 | the mark of a namespace that exists is never pruned and counts all its bumps |
| CatalogRuns.ReloadSeesCommitted | internal/catalog/store.go:182-187 | a reload that succeeded shows everything committed before it was requested, and the snapshot never goes back |
| CatalogSync.ReadYourWrites | internal/catalog/marks.go:105-147 | when Sync returns nil, the snapshot of every namespace that existed, or whose mark was not pruned, when the call read the marks is at least as new as every change committed before a bump that preceded the call, even if the mark is pruned later during the call |
| CatalogSync.ShownIff | internal/catalog/marks.go:109-147 | a returned Sync shows a change bumped before it if and only if the snapshot showed it when the call began or the call found the mark ahead of the applied one; without that, and with nobody else's load published meanwhile, the snapshot stays what it was |
| CatalogSync.GoneMarkIsNeverAsked | internal/catalog/marks.go:109-124 | a call that finds no mark of a namespace never requests its load |
| CatalogQuiet.QuietSyncNeverAsks | internal/catalog/marks.go:115-124 | Sync never requests a namespace that exists and was not bumped since a load of the instance, applied before the comparison, observed its mark |
| CatalogQuiet.TakenInIsRecorded | internal/catalog/marks.go:160-180 | once a load that observed a mark was applied, the instance has at least that mark recorded as long as the namespace exists |
| CatalogQuiet.PruneIsExact | internal/catalog/marks.go:188-211 | the end of a full reload deletes exactly the marks missing twice in a row, forgets their recorded marks, and remembers those missing for the first time |
| CatalogSnapshots.OnlyCommittedIsShown | internal/catalog/store.go:324-399 | in every run, the rows an instance shows for a namespace were committed for it at some time |
| CatalogSnapshots.SnapshotIsExact | internal/catalog/loader.go:34-45 | in every run, while no two committed contents of a namespace collide, the snapshot is exactly the content of the version it stands for |
| CatalogSnapshots.ReadYourRows | internal/catalog/marks.go:105-147 | without a collision, a returned Sync leaves exactly the rows of a version at least as new as everything committed before the bump |
| CatalogSnapshots.CollisionKeepsOldRows | internal/catalog/store.go:366-382 | for any two contents with one fingerprint, a run in which a reload of the second finishes without error and the snapshot still holds the first |
| CatalogSnapshots.ExactIffInjective | internal/catalog/loader.go:34-45 | snapshots are exact in every state of every run if and only if the fingerprint is injective |
| CatalogPruning.PrunedDeletionIsMissed | internal/catalog/marks.go:182-211 | for every fingerprint function, a run in which an acknowledged deletion is missed by a later Sync because two full reloads of another instance pruned its mark |
| RunLoops.RunLoop.OnEvent | internal/catalog/run.go:97-107 | the namespace is queued, or the overflow flag is raised when the queue of 1024 is full |
| RunLoops.RunLoop.Schedule | internal/catalog/run.go:110-116 | a pending entry keeps its time, a new one is due after the debounce delay, and the timer is armed for the earliest entry |
| RunLoops.RunLoop.TakeDue | internal/catalog/run.go:121-126 | exactly the elapsed entries are requested, each once, and removed |
| RunLoops.RunLoop.FireDue | internal/catalog/run.go:119-130 | the elapsed entries are requested and the timer is armed for the earliest of the rest |
| RunLoops.RunLoop.StartFull | internal/catalog/run.go:134-138 | a full reload starts exactly when none is running |
| RunLoops.RunLoop.FullAfterOverflow | internal/catalog/run.go:159-163 | a raised flag starts a full reload, and stays raised exactly when one is running |
| RunLoops.RunLoop.OnFullDone | internal/catalog/run.go:167-176 | backoff and retry timer after a result, then the overflow handling |
| RunLoops.Earliest | internal/catalog/run.go:221-232 | the delay until the least due time, zero when it has passed |
| RunLoops.FlagStepsAreMethod | internal/catalog/run.go:159-163 | undisturbed, the atomic steps of fullAfterOverflow amount to the method |
| RunLoops.FireStepsAreMethod | internal/catalog/run.go:119-130 | the single reloads of fireDue, in any order, amount to the method |
| RunLoops.StepKeeps | internal/catalog/run.go:44-61 | every step of the handlers, the loop and the reloads keeps the invariant (watched invalidations, timer, pending result, backoff bounds) |
| RunLoops.InvalidationNeverLost | internal/catalog/run.go:97-176 | until a reload that covers it starts, an invalidation is in a hand, queued, due with the timer set for the earliest entry, or recorded by the flag or the loop re-raising it |
| RunLoops.KeptFlagIsRetried | internal/catalog/run.go:156-163 | a flag the loop raised again has a running full reload or a result on its way until the loop looks at it again |
| RunLoops.RaisedFlagWaits | internal/catalog/run.go:97-107 | a flag raised by a handler while the loop is not about to look at it waits, untouched, until the next event, result or tick |
| RunLoops.RaisedFlagIsServed | internal/catalog/run.go:156-176 | from the next event, result or tick on, until a raised flag has started a full reload, the loop is at work on it or a full reload is running or its result on its way |
| RunLoops.FlagIsUsedUp | internal/catalog/run.go:159-163 | a flag the loop took starts a full reload, which covers everything dropped, and stays down; when one was running the loop goes on to raise it again |
| RunLoopTimers.DebounceIsBounded | internal/catalog/run.go:110-116 | an invalidation stays due, until its reload is started, at the debounce delay after the first one of its namespace: later ones never put it off |
| RunLoopTimers.SendQueues | internal/catalog/run.go:97-107 | a handler that finds room queues the namespace last and leaves the flag alone |
| RunLoopTimers.ResultArmsRetry | internal/catalog/run.go:167-176 | a failed result while nothing is loaded arms the retry for the backoff and doubles it up to the full interval; a success resets it |
| RunLoopTimers.FailedLoadIsRetried | internal/catalog/run.go:165-176 | after a failed first load the retry timer is armed for a bounded time and stays so until it fires or another result comes in |
| RunLoopTimers.TickStartsFull | internal/catalog/run.go:53-55 | after a tick the loop does not select again before a full reload runs |
| CatalogInvalidations.InvalidationIsServed | internal/catalog/run.go:97-163 | with the loop and the catalog in one run, an invalidation is still with the loop, or a reload covering it has started and every later reload of the namespace that succeeds shows everything committed before the invalidation arrived |
| CatalogInvalidations.LeftOutIsGone | internal/catalog/store.go:205-226 | a namespace that existed when the invalidation arrived and is missing from the listing of a covering full reload is deleted for good |
| Fifos.Fifo.Push | internal/action/statewriter.go:633-633 | the contents grow by the item at the end |
| Fifos.Fifo.Pop | internal/action/statewriter.go:636-650 | the oldest item leaves, the rest stays in order, the dead prefix stays within max(1024, live length) and is cleared, and all moves together never exceed the pops |
| Fifos.Fifo.Compact | internal/action/statewriter.go:644-647 | the live items move to the front in order and everything behind them is cleared |
| StateWriters.StateQueue.PushChange | internal/action/statewriter.go:226-237 | the change is appended to the queue of its class and the length is published |
| StateWriters.StateQueue.TryEnqueue | internal/action/statewriter.go:172-202 | one pass under mu: accepted exactly when there is room, for the oldest event exactly when there is one, given up exactly when it is no lifecycle change, refused only when closed |
| StateWriters.StateQueue.Drain | internal/action/statewriter.go:496-516 | the batch is the oldest lifecycle changes and then the oldest events, and waiting enqueuers are signalled |
| StateWriters.StateQueue.Open | internal/action/statewriter.go:353-358 | after it no change is refused for being closed |
| StateWriters.StateQueue.Close | internal/action/statewriter.go:361-367 | after it no change waits for space and every earlier waiter was woken |
| StateWriterAdmission.RoomMeansAccepted | internal/action/statewriter.go:173-178 | in every run, while the queue has room a change becomes the last of its class, nothing else in the queue changes and nothing is lost or spilled |
| StateWriterAdmission.FullQueueOutcome | internal/action/statewriter.go:179-202 | in every run, a full queue gives up its oldest event for the change; without events an event is given up itself, and a lifecycle change waits, or is refused when the writer is closed |
| StateWriterAdmission.LossesOnlyWhenFull | internal/action/statewriter.go:172-202 | an attempt loses something or blocks its caller if and only if the queue holds exactly capacity changes |
| StateWriterAdmission.LossesHaveReasons | internal/action/statewriter.go:168-222 | nothing is lost but by an attempt on a full queue or by a wait that was given up |
| StateWriterAdmission.LeaveOutcome | internal/action/statewriter.go:214-221 | a woken wait tries again; a wait that was given up loses its change and counts it |
| StateWriterAdmission.UnblockedBy | internal/action/statewriter.go:206-213 | a blocked call leaves only because its channel was closed or because it gave up |
| StateWriterAdmission.FlushTakesOldest | internal/action/statewriter.go:496-516 | a drain takes a full batch or everything, the oldest changes of each class, and events only once no lifecycle change is left |
| StateWriterAdmission.CarryGoesFirst | internal/action/statewriter.go:384-390 | a kept batch is taken whole before anything is drained |
| Salvaging.TurnConserves | internal/action/statewriter.go:417-450 | whatever the database answers, what a turn settles followed by what is left is what there was, and 2·len−1 summed over the stack falls |
| Salvaging.TurnExact | internal/action/statewriter.go:412-450 | when the database rejects exactly the batches with a bad row, a turn writes only good rows and drops only bad ones |
| Salvaging.FlattenStack | internal/action/statewriter.go:453-459 | the parts of the stack in write order |
| Salvaging.Salvage | internal/action/statewriter.go:417-450 | it terminates; settled changes followed by the carry are the batch in order; nothing is carried unless interrupted; good rows are written and bad ones dropped when rejections are exact |
| StateWriterRuns.TryKeeps | internal/action/statewriter.go:172-202 | one pass of an enqueuer keeps the invariant |
| StateWriterRuns.TakeKeeps | internal/action/statewriter.go:376-392 | taking the carry or draining keeps the invariant |
| StateWriterRuns.AttemptKeeps | internal/action/statewriter.go:522-549 | every outcome of a write attempt keeps the invariant |
| StateWriterRuns.SplitKeeps | internal/action/statewriter.go:417-450 | every turn of salvage keeps the invariant |
| StateWriterRuns.StepKeeps | internal/action/statewriter.go:168-516 | every step of enqueuers, flushes, open and close keeps the invariant |
| StateWriterRuns.EveryChangeInOnePlace | internal/action/statewriter.go:168-516 | each change that arrived is in exactly one place, the queue never exceeds capacity, no lifecycle change is spilled, and what counts as written is in a committed batch |
| StateWriterRuns.CountersBalance | internal/action/statewriter.go:247-276 | arrived equals waiting plus pending plus in hand plus written plus dropped plus losses still to be counted; spilled counts the spills |
| StateWriterRuns.BlockedMeansFull | internal/action/statewriter.go:173-206 | an enqueuer waits on the open channel only while the writer runs and the queue is full of lifecycle changes |
| StateWriterRuns.WaitersAreCounted | internal/action/statewriter.go:198-215 | waiters counts exactly the enqueuers that wait or are leaving, so it never goes below zero |
| StateWriterRuns.FreedSpaceWakesAll | internal/action/statewriter.go:361-367 | a drain that takes changes, and close, let every waiting enqueuer proceed |
| StateWriterRuns.LifecycleInOrder | internal/action/statewriter.go:376-516 | lifecycle changes are settled in the order the queue accepted them, across drains, kept batches and salvage |
| StateWriterRuns.CarryNeverOverwritten | internal/action/statewriter.go:480-492 | a kept batch leaves carry only by being taken in hand as a whole |
| StateWriterFlushes.CarryOnlyWhenInterrupted | internal/action/statewriter.go:392-396 | a batch is kept for the next flush only when the context ended or the database was unavailable |
| StateWriterFlushes.InterruptedIsKept | internal/action/statewriter.go:392-435 | an interrupted write or turn keeps all that is in hand, nothing settled |
| StateWriterFlushes.TakenIsSettled | internal/action/statewriter.go:376-450 | when nothing interrupts a flush and no batch runs out of retries, every change in hand is settled when the flush looks for the next batch, written if and only if it is not bad |
| StateWriterFlushes.FlushIsBounded | internal/action/statewriter.go:376-549 | an uninterrupted flush is done with a batch of n changes after at most maxAttempts + 2n writes, whatever the database answers |
| StateWriterFlushes.RetriedIff | internal/action/statewriter.go:522-549 | a batch that fails for a passing reason is tried again if and only if it had fewer than maxAttempts attempts, and is salvaged after the last one when a partition is missing |
| StateWriterFlushes.RejectedIsSalvaged | internal/action/statewriter.go:397-400 | a rejected batch is salvaged at once |
| StateWriterFlushes.SettledIsExact | internal/action/statewriter.go:412-549 | in every run against a database that rejects exactly the bad changes, no bad change counts as written, and a change settled unwritten is bad or was in a batch that ran out of retries |
| StateUpdates.LatestIsNewest | internal/action/statewriter_sql.go:63-79 | the winner of a subject is a newest update, the last one among equals |
| StateUpdates.SeenIsUpdated | internal/action/statewriter_sql.go:63-86 | the subjects of a batch are listed once each, exactly those with a winner |
| StateUpdates.LatestUpdates | internal/action/statewriter_sql.go:63-86 | the result holds the winner of every subject the batch updates, each once and under its kind, in first-seen order, and nothing else |
| StateUpdates.UpdateIsLatest | internal/action/statewriter_sql.go:65-107 | whatever such a result is, the change it holds about a subject is the newest update of that subject |
| StateRows.UpdatesReplay | internal/action/statewriter_sql.go:13-107 | the rows after the updates built from a history of batches are the rows after the history |
| StateRows.RowShowsNewest | internal/action/statewriter_sql.go:16-132 | through those updates no update is newer than the row, and a row that changed shows the state, the deadline that belongs to it, the reason and the time of one of them |
| StateRows.AccountUpdatesReplay | internal/action/statewriter_sql.go:30-49 | the same for accounts and their event log |
| StateRows.AccountTakesIff | internal/action/statewriter_sql.go:35-49 | an account takes a change unless a newer event of it is stored that is neither a shadow nor a cooldown |
| StateRows.NewestWins | internal/action/statewriter_sql.go:16-29 | under every batching, order and replay the row carries a newest change, or is the original row when none is newer |
| StateRows.DistinctTimesConverge | internal/action/statewriter_sql.go:13-64 | with distinct times every batching, order and replay of the same changes leaves the same state, reason, times and deadlines |
| StateRows.ConvergesIff | internal/action/statewriter_sql.go:16-29 | all histories of a set of changes leave the same row if and only if the newest changes agree and either activate or no newer change does |
| StateRows.ActivationNeverAhead | internal/action/statewriter_sql.go:16-29 | activated_at never passes state_changed_at |
| StateRows.ActivatedAtDependsOnBatching | internal/action/statewriter_sql.go:23-23 | an activation and a later ban leave different rows depending on whether they were one batch |
| StateRows.LogRuleIsTimestampRule | internal/action/statewriter_sql.go:31-51 | the account rule over the event log gives the row the strict timestamp guard gives |
| StateRows.GuardsAgree | internal/action/statewriter_sql.go:31-51 | the log holds a change back exactly when it is older than the row |
| StateRows.AccountNewestWins | internal/action/statewriter_sql.go:35-51 | a live change that no counted event is newer than ends up in the account row |
| StateRows.AccountNotBehind | internal/action/statewriter_sql.go:35-51 | under every batching, order and replay an account carries an update of the time of any given one, or the log has a newer counted event |
| StateRows.AccountConvergesIff | internal/action/statewriter_sql.go:35-51 | all histories leave the same account if and only if the newest live changes agree and no counted event is newer than them unless live changes are idle |
| StateRows.RecordedOnlyEventMatters | internal/action/operator.go:239-262 | with an event that is recorded without updating the row, the order of commits decides |
| StateWriterRows.WrittenReachesRow | internal/action/statewriter.go:557-590 | in every run, the row of an identity or proxy, updated through the de-duplicated batches, is at least as new as each change of it that counts as written |
| StateWriterRows.WrittenIsLogged | internal/action/stateevents.go:105-126 | in every run, a change of a known subject that counts as written is in the event log |
| StateWriterRows.WrittenReachesAccount | internal/action/statewriter.go:557-590 | in every run, a change of an account that counts as written is in its row up to ties, or a newer counted event is in the log |
| StateWriterRows.NothingLostSilently | internal/action/statewriter.go:44-64 | in every run, each change that arrived is on its way, was given up, or has reached its identity, proxy or account; Dropped and the losses about to be counted are exactly the changes given up |
| TokenCache.Cache.AddIfCurrent | internal/auth/tokencache.go:139-145 | stores nothing when the generation moved on; otherwise the record, or the negative entry, is in, within the bound, at most one other entry is gone, and the other cache is untouched |
| TokenCache.Cache.DropToken | internal/auth/tokencache.go:149-158 | the generation grows and exactly the entries of the token are gone |
| TokenCache.Cache.Purge | internal/auth/tokencache.go:161-167 | the generation grows and both caches are empty |
| TokenCache.StepKeeps | internal/auth/tokencache.go:78-167 | every step of lookups, evictions, invalidations and the database keeps the invariant |
| TokenCache.EntryReadAfterDrop | internal/auth/tokencache.go:147-158 | after a handled dropToken every positive entry of the token is what a query after its start found |
| TokenCache.EntryReadAfterPurge | internal/auth/tokencache.go:160-167 | after a handled purge every positive entry is what a query after its start found |
| TokenCache.NoUnrevokedCopy | internal/auth/tokencache.go:57-63 | once a revocation was handled no unrevoked copy of the token is in the cache again |
| TokenAnswers.AnswerIsQueried | internal/auth/tokencache.go:78-105 | whatever a lookup is told, by a hit, a negative hit or a joined flight, is what a query of its own key found in the database |
| TokenAnswers.HitAnswers | internal/auth/tokencache.go:80-82 | a hit is answered with the record the cache held for the key, and that answer stays |
| TokenAnswers.NegativeHitAnswers | internal/auth/tokencache.go:83-85 | a negative hit is answered "unknown", as a query of the key after the latest handled purge found |
| TokenAnswers.UnknownIsQueried | internal/auth/tokencache.go:83-85 | a negative hit is answered "unknown" only when a query found no row of the key |
| TokenAnswers.ErrorMeansFailure | internal/auth/tokencache.go:95-97 | a lookup is told of an error only when a query of its key failed |
| TokenAnswers.WaiterIsAnswered | internal/auth/tokencache.go:86-105 | a waiting lookup has a flight, and its delivery tells it what that flight found |
| TokenAnswers.StoredIff | internal/auth/tokencache.go:86-99 | what a flight found is stored, a record or "unknown", if and only if no invalidation began since it read the generation |
| TokenAnswers.AddNegativeStepsAreMethod | internal/auth/tokencache.go:91-93 | a negative add of the object is the Add step and the eviction of what made room |
| TokenCache.AddStepsAreMethod | internal/auth/tokencache.go:139-145 | an add of the object is the Add step and the eviction of what made room |
| TokenCache.DropStepsAreMethod | internal/auth/tokencache.go:149-158 | in every run, the steps of a dropToken beside which nothing is evicted leave what the method leaves |
| TokenCache.JoinedAnswerIff | internal/auth/tokencache.go:86-105 | a lookup that joins a flight after a revocation is answered with an unrevoked record if and only if the flight had already read one when it joined |
| TokenCache.RevokedLookupIff | internal/auth/tokencache.go:78-105 | a lookup that begins after a revocation was handled is answered with an unrevoked record if and only if it joins a flight that had already read one |
| TokenCache.JoinerSeesOldRecord | internal/auth/tokencache.go:86-105 | a run in which a lookup that begins after a handled revocation gets the unrevoked record of an older shared flight |
| RuntimeDocument.RuntimeCache.Get | internal/breaker/runtime.go:49-57 | a document is served if and only if one is stored for the key with exactly that version, and it is that one |
| RuntimeDocument.RuntimeCache.Put | internal/breaker/runtime.go:63-73 | the entry is replaced, the bound is kept, at most one other entry goes and only when the map was full |
| RuntimeDocument.SitesAreRead | internal/breaker/runtime.go:182-221 | the sites query, made after the version was read, accounts for every change up to that version |
| RuntimeDocument.MembersAreRead | internal/breaker/runtime.go:226-256 | reading a site's open set accounts for its groups: closed ones are shown closed, the others are still to be read |
| RuntimeDocument.HashIsRead | internal/breaker/runtime.go:276-311 | reading a member's hash shows a value no older than every change up to the version |
| RuntimeDocument.StepKeeps | internal/breaker/runtime.go:153-179 | every step of changes, bumps and renderings keeps the invariant |
| RuntimeDocument.DocumentsAreCoherent | internal/breaker/runtime.go:139-179 | every document returned or cached shows values its targets had, none older than a change whose bump produced a version up to its own |
| RuntimeDocument.BumpedChangeIsShown | internal/breaker/transition.go:116-201 | a change applied, then bumped to version w, is shown by every later document of version w or more |
| RuntimeCalls.DocumentHasVersion | internal/breaker/runtime.go:139-179 | a call returns a document of exactly the version it read, cached or rendered |
| RuntimeCalls.CallShowsChange | internal/breaker/runtime.go:139-179 | a call that begins after a change was bumped returns a document that shows it or a later value |
| RuntimeCalls.CallShowsFlag | internal/breaker/runtime.go:182-221 | such a call returns the paused flag the change set, while no later change of the site was made |
| RuntimeCalls.CallShowsBreaker | internal/breaker/runtime.go:226-311 | such a call returns the breaker the transition set, or leaves a closed one out |
| RuntimeCalls.RenderedIsServed | internal/breaker/runtime.go:49-73 | until it is replaced or evicted, a rendered document answers exactly the calls that read its version |
| RuntimeCalls.ShownGroupsWereKnown | internal/breaker/runtime.go:258-311 | a document shows only groups that are not closed and that were in PostgreSQL when the names were read |
| Notifications.NotifyLimiter.Offer | internal/breaker/notify.go:102-114 | starts at once, defers once, or leaves a deferred group to tick |
| Notifications.NotifyLimiter.StartDue | internal/breaker/notify.go:119-128 | starts due groups in any order until one is refused; all of them when none is |
| Notifications.NotifyLimiter.Prune | internal/breaker/notify.go:129-136 | forgets exactly the start times that limit nothing any more |
| Notifications.NotifyLimiter.Tick | internal/breaker/notify.go:118-137 | the state after both loops, for whatever set of due groups was started |
| Notifications.Notifier.NotifyRisk | internal/breaker/notify.go:20-32 | merged when pending, dropped when the queue is full, queued otherwise |
| Notifications.StepKeeps | internal/breaker/notify.go:20-137 | every step keeps the invariant of queue, pending and start times |
| Notifications.StartsAreSpaced | internal/breaker/notify.go:34-36 | two starts of one group are at least the interval apart |
| Notifications.QueueIsPending | internal/breaker/notify.go:20-32 | the queue holds each pending reference once, except the one in hand |
| Notifications.NotificationWaits | internal/breaker/notify.go:63-72 | a notification that found room or was merged waits until it is offered |
| Notifications.OfferedInTurn | internal/breaker/notify.go:63-72 | with n−1 references ahead, the loop cannot receive n+1 times without offering it |
| Notifications.OfferOutcome | internal/breaker/notify.go:98-114 | an offer starts its group or leaves it deferred unless the deferred map is full |
| Notifications.NotificationIsServed | internal/breaker/notify.go:20-137 | a notification that found room or was merged: once the loop received more often than the queue was long, its group was offered, and since then it was started or is still deferred, unless the deferred map was full |
| Notifications.DeferredUntilStarted | internal/breaker/notify.go:116-128 | a deferred group keeps its due time until a tick starts it |
| Notifications.DeferralIsBounded | internal/breaker/notify.go:102-114 | an offer that defers a group makes it due one interval after a start of that group, or at once, never more than an interval after the offer |
| RateLimits.RateLimiter.Sweep | internal/auth/ratelimit.go:80-87 | exactly the buckets idle for five minutes are removed |
| RateLimits.RateLimiter.Allow | internal/auth/ratelimit.go:41-70 | the new buckets and the answer are those of Allowed: sweep when due, refill, consume or report the delay |
| RateLimits.ForgetTracks | internal/auth/ratelimit.go:73-77 | a forgotten key goes on like a full bucket, every other key as before |
| RateLimits.RateLimiter.Forget | internal/auth/ratelimit.go:73-77 | only that key's bucket is gone, so its next call is allowed at any rate |
| RateLimits.NewRateStartsFull | internal/auth/ratelimit.go:51-58 | the first call at a new rate finds a full bucket of that rate |
| RateLimits.BucketsAreBounded | internal/auth/ratelimit.go:54-56 | the map never holds more than 100 000 buckets |
| RateLimits.IdleBucketsGo | internal/auth/ratelimit.go:47-50 | a call removes another key's bucket if and only if it was idle for five minutes and a sweep is due |
| RateLimits.SweepingNeverShows | internal/auth/ratelimit.go:41-87 | from the first call of a key at a rate on, with a clock that never goes back, no forget and room in the map, every answer to that key at that rate, its delay included, is that of a limiter that never removes a bucket, whatever other keys do |
| RateLimits.LimiterWindowBound | internal/auth/ratelimit.go:19-24 | from its first call at a rate on, a key is allowed at most rate·d + rate calls in any window of d, whatever its earlier rate and other keys |
| RateLimits.RetryAfterWait | internal/auth/ratelimit.go:38-70 | a refused caller that returns after the reported delay is allowed when nobody used the key meanwhile, and refused when it returns earlier, unless the delay is the one-millisecond minimum |
| HotRetries.HotRetry.Add | internal/action/hotretry.go:56-81 | subjects are added in order while there is room; the first rejection is noted by its time; size is the number of subjects in the three maps and within the limit |
| HotRetries.HotRetry.Remove | internal/action/hotretry.go:84-98 | exactly the given subjects go, and no scope is left with an empty set |
| HotRetries.HotRetry.CatchUpSince | internal/action/hotretry.go:227-246 | the catch-up start is CatchUpFrom of the passes and the overflow time, which is cleared |
| HotRetries.RoomMeansAdded | internal/action/hotretry.go:68-80 | with room the given subjects are added, nothing else, and no overflow is noted |
| HotRetries.AddedCovers | internal/action/hotretry.go:68-80 | every added subject is in the set, or the overflow time is no later than its stamp |
| HotRetries.CatchUpCovers | internal/action/hotretry.go:223-246 | a pass reaches back to a release if and only if it lies within ten minutes and one of the three reasons reaches back to it |
| HotRetries.FailedPushIsCovered | internal/action/expiry.go:44-55 | a release whose push failed is in the set when the next pass begins, or that pass's catch-up reaches back to it when it begins within ten minutes |
| HotRetries.ReAddIsReachedIff | internal/action/hotretry.go:211-246 | in every run, when the set rejects a re-add of a catch-up, the next pass reaches the release if and only if it is at most ten minutes old by then and at most a minute older than the pass that re-added it |
| HotRetries.ReAddIsMissed | internal/action/hotretry.go:211-219 | for every limit, a run with at most one batch of 1000 failed pushes per pass in which a re-add of a catch-up is rejected and the next pass, within ten minutes, does not reach back to the release |
| Authorization.UserSiteFilter | internal/authz/principal.go:245-269 | all is true exactly for an unrestricted matching binding; otherwise the IDs are strictly increasing and exactly those some matching binding lists |
| Authorization.SiteFilter | internal/authz/principal.go:213-243 | the answer for every kind of principal |
| Authorization.UserFilterIsCan | internal/authz/principal.go:192-205 | for users, in every namespace and on every site, the filter admits the site if and only if Can holds |
| Authorization.EmptyNamespaceIff | internal/authz/principal.go:245-257 | without a namespace filter and check agree if and only if no unrestricted tenant-wide binding grants the permission, or one of the early answers applies |
| Authorization.EmptyNamespaceDiffers | internal/authz/principal.go:338-342 | a viewer of a whole tenant for whom the two differ |
| Authorization.TokenFilterIsCan | internal/authz/principal.go:228-239 | for tokens, outside config and secret scopes, Can holds if and only if the filter says all or a scope names the site |
| AuthorizationLaws.PlatformPermissions | internal/authz/principal.go:118-150 | tenant:manage and kek:manage are held by the system and platform admins only, unknown permissions by nobody |
| AuthorizationLaws.MalformedResource | internal/authz/principal.go:150-162 | nobody else holds anything on a resource without a tenant or with a site but no namespace |
| AuthorizationLaws.OneBindingDecides | internal/authz/principal.go:146-158 | a user holds a permission if and only if one binding alone gives it |
| AuthorizationLaws.RankDecides | internal/authz/permission.go:101-130 | where a binding reaches, its role decides by the least role of the permission, up to the listed extras |
| AuthorizationLaws.ExtraDecides | internal/authz/principal.go:27-35 | for viewers and operators the four extra permissions depend on the binding's list alone |
| AuthorizationLaws.OtherExtrasMeanNothing | internal/authz/principal.go:27-35 | no other listed permission changes anything |
| AuthorizationLaws.UnknownRoleGivesNothing | internal/authz/principal.go:27-31 | a binding with an unknown role gives nothing |
| AuthorizationLaws.RolesAreNested | internal/authz/permission.go:101-122 | a higher role never loses a permission |
| AuthorizationLaws.UsersAreIsolated | internal/authz/principal.go:39-46 | a user without a binding for the tenant and namespace holds nothing there |
| AuthorizationLaws.SiteRestrictedAllowance | internal/authz/principal.go:49-66 | on namespace-level resources site-restricted bindings give proxy:read and namespace:read where they are pinned to the namespace, and nothing else |
| AuthorizationLaws.SiteRestrictionIsExact | internal/authz/principal.go:49-60 | on a site such a binding gives what an unrestricted one gives, on its sites only |
| AuthorizationLaws.TokensAreIsolated | internal/authz/principal.go:159-162 | a token holds nothing outside its tenant and namespace |
| AuthorizationLaws.UnboundTokens | internal/authz/principal.go:159-162 | a token without a tenant or namespace of its own holds nothing and sees no site |
| AuthorizationLaws.TokenConfig | internal/authz/scope.go:191-200 | config permissions of a token: an admin scope, or a config scope whose pattern covers the group |
| AuthorizationLaws.TokenSecrets | internal/authz/scope.go:201-209 | secrets of a token: only a secret scope whose pattern matches name and path, in its own namespace, for a path in canonical form |
| AuthorizationLaws.TokenNodes | internal/authz/scope.go:191-198 | leases and reports of a token: a scope of that name, for the site it names if it names one |
| AuthorizationLaws.TokenOperations | internal/authz/scope.go:162-198 | identities and proxies of a token: an admin scope or the scope for them |
| AuthorizationLaws.SegmentsJoin | internal/authz/scope.go:215-228 | the segments of a path, none with a slash in it, make up the path again |
| AuthorizationLaws.CleanIff | internal/authz/scope.go:215-228 | a path is in canonical form if and only if none of its segments is empty, "." or ".." |
| Authorization.SplitLosesNothing | internal/authz/scope.go:230-245 | name and argument make up the scope again |
| Authorization.SplitFindsName | internal/authz/scope.go:230-245 | every name comes back from the scope it was put into, with any argument |
| Globs.MatchesConcat | internal/pkg/glob/glob.go:15-20 | a text matches two patterns in a row if and only if it can be cut into a match of each |
| Globs.SingleRunes | internal/pkg/glob/glob.go:1-20 | '*' matches every text, '?' every single rune, any other rune itself |
| Globs.NewStar | internal/pkg/glob/glob.go:31-34 | at a new star the earlier star need not be moved any more |
| Globs.Backtrack | internal/pkg/glob/glob.go:50-56 | after a mismatch only matches with a longer star remain |
| Globs.Exhausted | internal/pkg/glob/glob.go:58-61 | when the text is used up the pattern matches if and only if only stars are left |
| Globs.Match | internal/pkg/glob/glob.go:16-62 | the loop with one remembered star decides the meaning of the wildcards, within (len(s)+1)·(len(pattern)+1) turns |
| Sorting.Sort | internal/authz/principal.go:267-267 | sorted, and a permutation |
| Sorting.Compact | internal/authz/principal.go:268-268 | strictly increasing, with the same elements |
| Buckets.AlignDownIsFloor | internal/analytics/timerange.go:105-115 | alignDown is the last multiple of the step not after t, for negative and sub-second times too |
| Buckets.AlignUpIsLeast | internal/analytics/timerange.go:117-124 | alignUp is the least multiple of the step not before t |
| Buckets.CountIsExact | internal/analytics/timerange.go:126-129 | that many steps lie between the aligned ends |
| Buckets.IndexIsBucket | internal/analytics/timeseries.go:186-197 | the index is i if and only if the instant lies in bucket i |
| Buckets.IndexInRange | internal/analytics/timeseries.go:186-197 | the index is −1 if and only if the instant lies outside all buckets |
| Buckets.BucketsPartition | internal/analytics/timerange.go:105-129 | every instant of the range lies in exactly one bucket |
| Buckets.ChooseStep | internal/analytics/timerange.go:131-144 | the least supported step not below the request with at most 720 buckets; it fails only when there is none |
| Buckets.DayAlwaysSuits | internal/analytics/timerange.go:11-26 | up to 31 days a supported or automatic request never fails |
| Series.NewPoints | internal/analytics/timeseries.go:199-206 | one zero point per bucket at its start |
| Series.AcquireRate | internal/analytics/timeseries.go:208-221 | every point is the count of the rows in its bucket over the seconds of a step |
| Series.PointsByName | internal/analytics/timeseries.go:222-234 | one list of points per result that occurs in range, with the counts of its rows |
| Series.NamedSeries | internal/analytics/timeseries.go:284-296 | one series per name, strictly ordered by name |
| Series.BucketsHoldTotal | internal/analytics/timeseries.go:208-236 | the buckets together hold exactly the count of the rows in range |
| Series.RateTimesStep | internal/analytics/timeseries.go:210-221 | the rate series times the step is the count of the rows in range |
| Series.SeriesHoldTotal | internal/analytics/timeseries.go:222-236 | all result series together hold exactly the count of the rows in range |
| Series.RateSeries | internal/analytics/timeseries.go:208-221 | acquire_rate from the rows to the answer: the rates times the step hold exactly the count of the rows in range |
| Series.ResultSeries | internal/analytics/timeseries.go:222-236 | acquire_results and outcomes from the rows to the answer: series strictly ordered by name, one for each name in range, that together hold exactly the count of the rows in range |
| Series.RatioSeries | internal/analytics/timeseries.go:256-282 | every point is the ratio of the counted part to the total of its bucket |
| Series.RatioExtremes | internal/analytics/timeseries.go:256-282 | a success or risk ratio is 0 exactly when no counted row of its bucket scores, and 1 exactly when there is one and all of them do |
| Series.LatencyAverages | internal/analytics/timeseries.go:256-282 | rows with one average latency average to it |
| Series.TotalsAreTallies | internal/analytics/timeseries.go:256-276 | totals and parts of a bucket are counted like the rows of the other series |
| Series.RatioIsFraction | internal/analytics/hotstate.go:138-144 | with counts that are not negative a success or risk ratio lies between 0 and 1 |

## Left out

- Lua scripts: their trip, scheduling and apply logic; only that they keep a site's set of open breakers with every hash they write is used.
- Error classification, logging, metrics, context values and timeouts: abstracted to outcomes that may be anything.
- nextBackoff and the Run loop of the state writer: when a flush is made is free, so any schedule is covered.
- resolveSubjects: a change skipped for an unknown subject counts as written, as in the source.
- parseInvalidation: invalidations arrive already parsed; those of the store itself are not modelled as arriving.
- Redis data loss that resets marks or runtime versions, and reused namespace IDs: counters of live namespaces only grow.
- Wrap-around of generations and counters: 64-bit counters are unbounded here.
- RunLoops.InvalidationNeverLost: a reload counts as covering when it starts; that it succeeds is not claimed (what it shows when it does: CatalogInvalidations.InvalidationIsServed), a failed one is made up for by the periodic reload.
- CatalogInvalidations.InvalidationIsServed: the requests of a full reload are any requests made after it started; its loop over the namespaces is not modelled.
- RunLoops.RunLoop.Schedule: reading the clock and arming the timer happen at one instant, after the zero time that marks "none".
- CatalogSync.ReadYourWrites: up to equal fingerprints (without collisions: CatalogSnapshots.ReadYourRows), and not for a deleted namespace whose mark was pruned before the call read it.
- TokenCache.Cache.AddIfCurrent: the entry that makes room is any other one, not the least recently used; expiry and eviction are steps of their own.
- StateWriterRows.WrittenReachesAccount: for accounts whose committed updates all count for the account rule, that is, none of them is a cooldown, as internal/action/executor.go:340 sees to.
- RuntimeDocument.DocumentsAreCoherent: the reads of breakersContent are steps in any order rather than its loops, documents are not encoded as JSON, and groups deleted from PostgreSQL are not claimed. The site_switches document, which is one read, is not modelled.
- RateLimits.RateLimiter.Allow: tokens are real numbers, so nothing is said about floating-point rounding; differences of times do not saturate.
- HotRetries.FailedPushIsCovered: the row limit of the catch-up query, and passes in the first twenty minutes after the zero time, are not modelled; snapshot and retryHotPushes appear only as resync steps.
- HotRetries.ReAddIsMissed: the row limit of the catch-up query is not modelled; it would not be reached, since at most a thousand releases fall into the time the query asks for.
- Authorization.SiteFilter: IDs are numbers in their sort order with 0 for the empty ID; parsing and validating scopes beyond splitting them, TenantIDs, Require and Actor are not modelled.
- Globs.Match: texts are sequences of runes; decoding UTF-8 is not modelled.
- Sorting.Sort: insertion into a sorted sequence stands for the library's sort.
- Series.AcquireRate: names are numbers in their sort order, labels are left out.
- usercache.go and audit/write.go: the same ideas as the token cache and salvage.
