# Verified models of octo-server's queues, allocators and gateway primitives

A Dafny model of the parts of octo-server whose guarantees span many steps, with proofs over every
input and every interleaving. `dafny verify dfyconfig.toml` checks it.

**Card-action dispatch.** `QueueScripts` gives the eleven Lua scripts as functions on the nine Redis keys
and their deadlines; `RedisQueue` updates the keys in place and is proved equal to them.
`QueueRefinement` shows that the keys refine one map from event id to Waiting, InFlight or Dead, and
`QueueExpiry` that expiry respects it. `ProcessOne` is the dispatcher's worker, both as the straight-line
method and cut into the steps between which other workers, reclaims and crashes can fall. `DispatchRuns`
interleaves any number of workers with producers, reclaims, prunes, replays and expiry and carries the
invariant of every run, built on what one call does to its own and to other events (`WorkerEffects`).
`WorkerOutcomes` says what each step and each whole handling does to the event it holds, and
`QueueLifetimes` how long keys live. `DispatchTheorems`, `DispatchConservation` and `RouteAbsence` draw
the results over runs. `DispatchDelivery` bounds the Deliver calls, and `StaleMark` treats the one write
without a fence, which that bound depends on.

**Version allocator and card writer.** `VersionStore` is the allocator and the flip for one transaction.
`VersionRuns` interleaves transactions statement by statement under InnoDB's row locks, with existence
and bootstrap reads as stale as any snapshot may be. `VersionTheorems` states no skipped version, cutover
safety and card confluence, `VersionGaps` that committed versions are consecutive, `LockOrder` deadlock
freedom. `CardWriter` is the compare-and-set transaction with its retry, as a run of the same system.

**Bot events.** `LongPoll` is the paged read and the hold loop, `HoldSlots` the budget of holds,
`EvidenceScan` the paged duplicate count and maximum while consumers delete.

**Mail gateway.** `Watchdog` is the progress watchdog as a race between timer goroutines, touches and
stops; `BoundedBody` the bounded readers and copy; `Localpart` the local-part sanitiser and normaliser.

## What does not hold as stated

- Bounded delivery. The first-miss stamp is the one queue write without a lease token;
  `queue.go:222-231` names the corner. In `StaleMark.StaleStampBreaksTheBound` a stale stamp makes a route
  with MaxAttempts 1 be called twice. `StaleMark.StampIsSafeIff` says exactly which stamps can lead to a
  repeated delivery: those on an event whose current attempt was delivered or is about to be. The holder
  of the current lease token never makes one (`StaleMark.CurrentHolderIsHarmless`). Runs without such a
  stamp are called careful; `DispatchDelivery` is about them, everything else about all runs.
- The 15-minute route-missing window is measured from a stamp in whole milliseconds, so it can end almost
  a millisecond early (`RouteAbsence.WindowEndsEarly`), and never does if and only if the first miss falls
  on a whole millisecond (`RouteAbsence.WindowIsExactIff`).
- The watchdog's callback can start after a Stop has returned: a touch that overtakes a pending firing
  re-arms the timer, and the second firing closes the channel before the first one cancels
  (`Watchdog.LateCancel`). `Watchdog.DecisionIsSafeIff` gives the exact condition.
- The package comment at `store.go:12-15` says production callers still call GenSeq directly; the call
  sites use ReserveTx, and the model follows them.

## Assumptions

- Lease tokens are fresh. The delivery bound of an event is a bound on the MaxAttempts of the routes found
  for that event during the run; other events may have other bounds.
- A legacy GenSeq value is at most the boundary its channel's `seq.min_seq` row shows by then; before the
  cutover every stored version is such a value. Messages live in one storage channel.
- Bot event ids are unique, equal to their scores, and published in ascending order.
- strings.TrimSpace and strings.ToLower leave lower-case ASCII words alone.

## Model

| member | source | states |
|---|---|---|
| SortedSets.RangeUnique | internal/cardactiondispatch/queue.go:74 | what ZRANGEBYSCORE -inf max LIMIT 0 n answers (least members first, ties by bytes, cut only by n) determines the list completely |
| SortedSets.RangeByScore | internal/cardactiondispatch/queue.go:164 | selecting least members one by one produces exactly that range |
| SortedSets.TiesGoByBytes | internal/cardactiondispatch/queue.go:74 | equal scores are ordered by the first differing byte, and a prefix comes first |
| SortedSets.FirstDue | internal/cardactiondispatch/queue.go:74-75 | LIMIT 0 1 gives the least due member, or says that nothing is due |
| RedisQueue.NewRedisQueue | internal/cardactiondispatch/queue.go:273-304 | refuses a nil client, a bad prefix, non-positive durations and a LiveTTL under 20 seconds, each with its own error; else a queue over whatever the nine keys hold, its durations truncated to milliseconds and still valid |
| RedisQueue.Queue.Expire | internal/cardactiondispatch/queue.go:69 | PEXPIRE over a key range sets one common deadline on the keys that exist, and an emptied key loses its own |
| RedisQueue.Queue.Enqueue | internal/cardactiondispatch/queue.go:62-71 | in-place updates leave exactly the state of the enqueue script; an id already live or dead is refused |
| RedisQueue.Queue.Claim | internal/cardactiondispatch/queue.go:322-328 | refuses a non-positive lease, else leaves the state of the claim script at the first due member |
| RedisQueue.Queue.Take | internal/cardactiondispatch/queue.go:76-88 | claim from its due member on, including the missing-payload branch |
| RedisQueue.Queue.Ack | internal/cardactiondispatch/queue.go:91-99 | state and answer of the ack script |
| RedisQueue.Queue.Renew | internal/cardactiondispatch/queue.go:373-383 | refuses a non-positive lease, else state and answer of the renew script |
| RedisQueue.Queue.Defer | internal/cardactiondispatch/queue.go:109-118 | state and answer of the defer script with its guarded decrement |
| RedisQueue.Queue.Nack | internal/cardactiondispatch/queue.go:400-425 | refuses a bad policy before any write, else state and outcome of the nack script |
| RedisQueue.Queue.Bury | internal/cardactiondispatch/queue.go:126-140 | the dead-letter branch: prune, move, PEXPIRE with a zero retention deleting the group |
| RedisQueue.Queue.PruneKeys | internal/cardactiondispatch/queue.go:207-212 | the HDEL loop and ZREMRANGEBYSCORE remove exactly the overdue ids from all three keys |
| RedisQueue.Queue.Prune | internal/cardactiondispatch/queue.go:206-214 | state of the prune script |
| RedisQueue.Queue.ReclaimExpired | internal/cardactiondispatch/queue.go:427-436 | refuses limits outside 1..1000, else the state of the reclaim loop over exactly the expired range |
| RedisQueue.Queue.ReplayDLQ | internal/cardactiondispatch/queue.go:188-204 | state and answer of the replay script; a past-retention entry is refused and kept |
| RedisQueue.Queue.RouteMissingSeenAt | internal/cardactiondispatch/queue.go:232-240 | first miss stamps, later misses read the stamp |
| RedisQueue.Queue.ClearRouteMissing | internal/cardactiondispatch/queue.go:247-251 | clearing is fenced by the lease token |
| QueueRefinement.EnqueueRefines | internal/cardactiondispatch/queue.go:62-71 | on the abstract map id -> Waiting/InFlight/Dead: adds a fresh Waiting entry if and only if the id is nowhere in the queue; key domains stay exact |
| QueueRefinement.ClaimRefines | internal/cardactiondispatch/queue.go:73-89 | leases the first due entry with its attempt raised by one; the missing-payload branch is unreachable |
| QueueRefinement.AckRefines | internal/cardactiondispatch/queue.go:91-99 | removes the entry and its marker if and only if the token owns the lease |
| QueueRefinement.RenewRefines | internal/cardactiondispatch/queue.go:101-107 | moves only the lease expiry, if and only if the token owns the lease |
| QueueRefinement.DeferRefines | internal/cardactiondispatch/queue.go:109-118 | returns the entry with the claim's attempt given back; the floor at zero is never needed |
| QueueRefinement.NackRefines | internal/cardactiondispatch/queue.go:120-145 | token mismatch, requeue below the limit, dead-letter at it after pruning; never the failing HSET |
| QueueRefinement.ReclaimRefines | internal/cardactiondispatch/queue.go:163-179 | returns every listed lease to Waiting and refunds exactly the marked ones |
| QueueRefinement.ReplayRefines | internal/cardactiondispatch/queue.go:188-204 | restarts a retained dead entry with attempt 0 and no marker, else changes nothing |
| QueueRefinement.PruneRefines | internal/cardactiondispatch/queue.go:206-214 | removes exactly the overdue dead entries |
| QueueRefinement.MarkerScriptsRefine | internal/cardactiondispatch/queue.go:232-251 | the marker scripts change one marker and nothing else; only clearing is fenced |
| QueueRefinement.DepthsAddUp | internal/cardactiondispatch/queue.go:451-472 | ready + leased + dlq depths equal the number of abstract entries |
| QueueExpiry.WithKeepsDeadlines | internal/cardactiondispatch/queue.go:69 | every script refreshes a whole key group or creates no key in it, so the keys of a group keep one deadline |
| QueueExpiry.NackKeepsInv | internal/cardactiondispatch/queue.go:120-145 | domains and common deadlines survive a nack, also with a zero retention |
| QueueExpiry.ReclaimKeepsInv | internal/cardactiondispatch/queue.go:163-179 | domains and common deadlines survive a reclaim pass |
| QueueExpiry.ReplayKeepsInv | internal/cardactiondispatch/queue.go:188-204 | domains and common deadlines survive a replay |
| QueueExpiry.LiveCoExpiry | internal/cardactiondispatch/queue.go:62-204 | the five live keys vanish together at their common deadline or not at all |
| QueueExpiry.DeadCoExpiry | internal/cardactiondispatch/queue.go:120-214 | so do the three dead-letter keys |
| QueueExpiry.TickRefines | internal/cardactiondispatch/queue.go:62-251 | expiry removes all live entries or none, all dead ones or none, and keeps the domains exact: a payload never expires before its ready entry |
| ProcessOne.RetryBackoff | internal/cardactiondispatch/dispatcher.go:381-396 | the doubling loop returns min(MaxBackoff, BaseBackoff * 2^(attempt-1)) without ever doubling past the cap |
| ProcessOne.Heartbeats | internal/cardactiondispatch/dispatcher.go:310-342 | the heartbeat loop is a sequence of renew steps ending at the first refusal |
| ProcessOne.Fail | internal/cardactiondispatch/dispatcher.go:365-374 | a permanent failure uses the lease's own attempt as the limit, a retryable one the backoff |
| ProcessOne.HandleMissing | internal/cardactiondispatch/dispatcher.go:134-183 | the route-missing branch is the stamp step followed by the window decision, with a clock reading of its own for the test and for the call |
| ProcessOne.HandleCleared | internal/cardactiondispatch/dispatcher.go:205-252 | budget check, capacity check and delivery in the worker's steps, with the number of Deliver calls |
| ProcessOne.ProcessOne | internal/cardactiondispatch/dispatcher.go:114-293 | run without interference, the method as written equals the worker's steps from claim to idle |
| ProcessOne.DriveConcat | internal/cardactiondispatch/dispatcher.go:114-293 | driving a worker through two step lists in turn is driving it through their concatenation, delivery counts added |
| WorkerEffects.StaleCallIsNoop | internal/cardactiondispatch/queue.go:91-121 | an ack, nack, renew, defer or clear with a token that is not current leaves the whole store unchanged and answers false |
| WorkerEffects.HolderEffect | internal/cardactiondispatch/queue.go:91-145 | under the current token a call makes exactly its own move of the event's entry and marker |
| WorkerEffects.OtherEffect | internal/cardactiondispatch/queue.go:91-251 | no worker call, current or stale, touches another event, except a nack that prunes overdue dead entries |
| WorkerEffects.NackElsewhere | internal/cardactiondispatch/queue.go:126-140 | a nack at the limit removes exactly the dead entries past retention besides its own, below it nothing else changes |
| WorkerEffects.ReclaimOutcome | internal/cardactiondispatch/queue.go:163-179 | id by id: a listed lease goes back due now, with its attempt given back exactly if its route was missing |
| WorkerEffects.PruneOutcome | internal/cardactiondispatch/queue.go:206-214 | id by id: exactly the dead entries at or before the cutoff go |
| WorkerOutcomes.HolderOutcome | internal/cardactiondispatch/dispatcher.go:134-293 | in any reachable state the current holder's step sends the event exactly where its case says: permanent failure, closed window and exhausted budget to the dead letters, a retryable failure back with min(MaxBackoff, BaseBackoff doubled per attempt) until MaxAttempts, a busy slot or a missing route back with the attempt returned, a finalized delivery out of the queue |
| WorkerOutcomes.HolderGoesOn | internal/cardactiondispatch/dispatcher.go:134-293 | and the worker's next phase, the marker, the Deliver calls and the acks follow: called exactly past the route, within budget and with a free slot; acked exactly when finalized with the lease held |
| WorkerOutcomes.StaleOutcome | internal/cardactiondispatch/dispatcher.go:134-293 | a worker whose lease is gone changes no table but for a first-miss stamp, and learns of it at its next call |
| WorkerOutcomes.HandlingSettles | internal/cardactiondispatch/dispatcher.go:114-293 | run alone, a handling ends the lease, and the event ends as a table of its inputs says, with the number of Deliver calls |
| WorkerOutcomes.ClaimedSettles | internal/cardactiondispatch/dispatcher.go:114-293 | the same from the claim on: the first due event under its next attempt, with at most one Deliver call |
| WorkerOutcomes.BackoffDoubles | internal/cardactiondispatch/dispatcher.go:381-396 | the delay doubles from BaseBackoff with each attempt and stays at MaxBackoff |
| QueueLifetimes.LiveRenewals | internal/cardactiondispatch/queue.go:62-204 | a successful enqueue, claim, renew, defer, replay or reclaim pass gives exactly the live keys a full LiveTTL |
| QueueLifetimes.NackRenewals | internal/cardactiondispatch/queue.go:120-145 | a requeue does the same, a burial gives exactly the dead-letter keys the full retention |
| QueueLifetimes.MissRenewal | internal/cardactiondispatch/queue.go:232-240 | a miss gives exactly the markers a full LiveTTL |
| QueueLifetimes.RenewedOutlives | internal/cardactiondispatch/queue.go:62-251 | in every continuation a tick short of a group's life since its renewal leaves all of the group alone |
| QueueLifetimes.BurialOutlives | internal/cardactiondispatch/queue.go:126-140 | a dead-lettered event outlives every tick short of one retention after the last burial |
| QueueLifetimes.MissOutlives | internal/cardactiondispatch/queue.go:232-240 | a marker outlives every tick short of one LiveTTL after the last miss |
| QueueLifetimes.HeartbeatOutlives | internal/cardactiondispatch/queue.go:101-107 | a heartbeat keeps every live key for another LiveTTL |
| DispatchRuns.StepKeepsSound | internal/cardactiondispatch/dispatcher.go:114-293 | every step of any number of workers, producers, reclaims, prunes, replays, crashes and key expiry keeps the run invariant, wherever first-miss stamps land |
| DispatchRuns.WorkStep | internal/cardactiondispatch/dispatcher.go:134-293 | a worker's step between any two queue calls keeps the run invariant, also when its lease is long gone |
| DispatchTheorems.AttemptAgreement | internal/cardactiondispatch/queue.go:84-88 | after every run whoever holds the current token knows the stored counter, which is at least 1 |
| DispatchTheorems.PermanentNeverRequeues | internal/cardactiondispatch/dispatcher.go:205-213 | after every run a non-retryable nack or over-budget lease is dead-lettered, or answered with a token mismatch if and only if its lease is gone |
| DispatchTheorems.StepFences | internal/cardactiondispatch/queue.go:73-179 | only a claim installs a token, and only its own fresh one |
| DispatchTheorems.FencedForever | internal/cardactiondispatch/queue.go:91-121 | once a lease is gone, every call carrying its token is a no-op after any further run |
| DispatchTheorems.EndedOnceAckedOnce | internal/cardactiondispatch/queue.go:91-179 | each lease causes at most one ending, each enqueue or replay is acked at most once |
| DispatchTheorems.PayloadPreserved | internal/cardactiondispatch/queue.go:62-204 | every entry still carries the bytes its enqueue stored, through claims, defers, dead-lettering and replay |
| DispatchDelivery.BoundedDelivery | internal/cardactiondispatch/dispatcher.go:184-253 | in every careful interleaving the leases of one enqueue or replay call Deliver at most as often as that event's own routes allow, never twice with one attempt |
| DispatchDelivery.ClearedAttemptsIncrease | internal/cardactiondispatch/dispatcher.go:184-204 | a lease cleared for delivery carries a greater attempt than every Deliver call made or about to be made for the same enqueue or replay |
| DispatchDelivery.StepKeepsUnrepeated | internal/cardactiondispatch/dispatcher.go:134-253 | every careful step keeps that nothing called or about to be called can be called again: the current attempt, once out, is unmarked and its lease cleared |
| DispatchConservation.NackSize | internal/cardactiondispatch/queue.go:120-145 | a nack neither creates nor loses its event |
| DispatchConservation.Conservation | internal/cardactiondispatch/queue.go:62-214 | accepted enqueues = acks + prunes + expiries + ready + leased + dlq after every run |
| DispatchConservation.NoEventExpires | internal/cardactiondispatch/queue.go:163-179 | over any run whose server clock stays within one LiveTTL of the last reclaim pass, expiry removes no live event |
| DispatchConservation.ReclaimKeepsEventsAlive | internal/cardactiondispatch/dispatcher.go:495-531 | from an empty queue, a reclaim pass at least once per LiveTTL means no live event ever expires |
| RouteAbsence.MissStartsRiding | internal/cardactiondispatch/dispatcher.go:156-161 | the first miss stamps the event, a later one joins the wait; the attempts consumed so far are the lease's minus one |
| RouteAbsence.AbsenceIsNeutral | internal/cardactiondispatch/dispatcher.go:134-183 | through any claims, misses, defers, crashes and reclaims the attempt counter and the first-miss stamp stay the same |
| RouteAbsence.DecisionAtWindow | internal/cardactiondispatch/dispatcher.go:162-183 | when the window test reads less than 15 minutes since the stamp the event is deferred unharmed, from then on the first decision dead-letters it and drops the marker |
| RouteAbsence.WindowInNanos | internal/cardactiondispatch/dispatcher.go:417-419 | the nanosecond comparison equals the one on truncated milliseconds, and ends the window early by exactly the truncated part of the first miss |
| RouteAbsence.WindowEndsEarly | internal/cardactiondispatch/dispatcher.go:417-419 | an input where the window ends almost a millisecond early |
| RouteAbsence.WindowIsExactIff | internal/cardactiondispatch/dispatcher.go:417-419 | the window is never early if and only if the first miss falls on a whole millisecond |
| StaleMark.StampIsSafeIff | internal/cardactiondispatch/queue.go:222-231 | after any careful run, a first-miss stamp by a current or stale worker leaves no continuation with a repeated Deliver if and only if no Deliver was made with the event's current attempt and no worker is about to make it |
| StaleMark.CurrentHolderIsHarmless | internal/cardactiondispatch/dispatcher.go:134-161 | so a stamp by the holder of the current lease token never leads to a repeated Deliver |
| StaleMark.ReclaimedAttempt | internal/cardactiondispatch/queue.go:163-179 | after a reclaim the next claim repeats the attempt if and only if the marker is there |
| StaleMark.StaleStampBreaksTheBound | internal/cardactiondispatch/queue.go:222-231 | a concrete run in which a stale stamp makes a route with MaxAttempts 1 be called twice |
| VersionStore.GuardStopsDowngrade | internal/msgextraseq/store.go:258-288 | with the transactional mode expected, the read resolves if and only if the row says transactional; a malformed guard never resolves |
| VersionStore.ModeRead | internal/msgextraseq/store.go:228-288 | the mode read answers the row, or legacy for a missing one, and refuses exactly an unknown mode, a malformed guard and another mode than the expected one |
| VersionStore.ReservationGrants | internal/msgextraseq/store.go:310-347 | a reservation succeeds if and only if the greatest of row (or first-use evidence) and floor plus count is at most 2^53-1, and is then exactly the next count numbers, with the row at the last |
| VersionStore.ReservedIsFresh | internal/msgextraseq/store.go:310-347 | a reservation is consecutive versions above the old row and the floor, ending at the new row and at most 2^53-1; a refusal changes no existing row |
| VersionStore.Session.ComputeBootstrap | internal/msgextraseq/store.go:446-472 | the running maximum is the greatest of floor, stored versions and legacy boundary, unless a read fails |
| VersionStore.Session.LockSequenceRow | internal/msgextraseq/store.go:360-400 | an existing row keeps its value whatever the stale existence read said, a missing one starts at the baseline; what stays behind when a statement fails |
| VersionStore.Session.ReserveTransactional | internal/msgextraseq/store.go:310-347 | granted exactly when it fits, as the next count numbers above row and floor, with the row at the last; and what stays behind whichever statement fails |
| VersionStore.InterruptedIsSafe | internal/msgextraseq/store.go:310-400 | whichever statement of a reservation fails, no version gets out and no existing row changes |
| VersionStore.Session.ReserveLegacy | internal/msgextraseq/store.go:294-305 | count values of the legacy allocator in its order, or its first error |
| VersionStore.Session.ReserveTx | internal/msgextraseq/store.go:153-190 | count bounds, mode, guard, statement and legacy allocator errors, and exactly count versions in either mode; every refusal leaves existing rows alone |
| VersionStore.MaxOf | internal/msgextraseq/activation.go:271-281 | COALESCE(MAX(..), 0) |
| VersionStore.ObservedMaximum | internal/msgextraseq/activation.go:245-262 | the maximum of stored versions and legacy boundaries; cached cursors within the issued ceiling never move it |
| VersionStore.Activate | internal/msgextraseq/activation.go:190-239 | flips exactly when the row is legacy and the floor lies between every issued version and the ceiling, to the next epoch and that floor; which refusal means what |
| VersionRuns.StepKeepsInv | internal/msgextraseq/store.go:228-400 | every statement of every interleaved transaction keeps the lock, log, row and card invariants |
| VersionRuns.TakeTx | internal/msgextraseq/store.go:310-347 | a range taken under the row lock is above everything committed or held on its channel |
| VersionRuns.InsertTx | internal/msgextraseq/store.go:360-380 | the race-safe upsert, behind an arbitrarily stale existence read, keeps the invariant |
| VersionRuns.JudgeTx | internal/carddispatch/mutation.go:585-600 | the card gate decides by the stored frame, with or without a row to lock |
| VersionRuns.CommittedWorld | internal/carddispatch/mutation.go:562-568 | a commit appends its versions in order and its card frame as the newest |
| VersionRuns.CommittedOther | internal/msgextraseq/store.go:310-347 | exclusive rows keep every other running transaction's claim valid across a commit |
| VersionRuns.FlippedWorld | pkg/cutover/flip.go:126-211 | the flip keeps the invariant and makes the floor bound everything issued |
| VersionGaps.TakeGrants | internal/msgextraseq/store.go:310-347 | under the row lock of any interleaving a reservation succeeds if and only if it fits, with exactly the next numbers above the row and the floor |
| VersionGaps.VersionsAreConsecutive | internal/msgextraseq/store.go:310-400 | over every run the versions a channel commits are consecutive, from one above the floor or the greater surviving row: rollbacks leave no gap |
| VersionTheorems.NoSkippedVersion | internal/msgextraseq/store.go:310-400 | over any continuation, committed versions of a channel only grow strictly upwards: nothing commits at or below the greatest committed version |
| VersionTheorems.RunningAbove | internal/msgextraseq/store.go:310-347 | versions a running transaction still has to commit exceed everything committed on the channel |
| VersionTheorems.CommittedVersions | internal/msgextraseq/store.go:64-77 | committed versions are ascending in commit order, above the floor and at most 2^53-1 |
| VersionTheorems.SyncMissesNothing | internal/msgextraseq/store.go:15-22 | after the cutover every later change of a row carries a version above all its channel showed, so a cursor-based reader sees it |
| VersionTheorems.OneWay | internal/msgextraseq/activation.go:16-25 | the mode and floor never change back, and no legacy value is handed out after the flip |
| VersionTheorems.CutoverSafety | internal/msgextraseq/activation.go:183-239 | every version committed after the flip exceeds every value the legacy allocator ever handed out, on any channel, committed or not |
| VersionTheorems.SecondReadAgrees | internal/msgextraseq/store.go:203-211 | reading the mode again inside a transaction gives the same answer until it ends |
| VersionTheorems.FirstUseFits | internal/msgextraseq/store.go:71-77 | first use of a channel starts at the floor exactly and any batch up to 1000 fits, whatever stale reads preceded it |
| VersionTheorems.RaisedRowFits | internal/msgextraseq/store.go:315-325 | so does the first batch on a surviving row at or below the floor |
| VersionTheorems.CardOrder | internal/carddispatch/mutation.go:514-600 | per message, commit order, version order and card_seq order coincide and the row shows the last accepted frame |
| VersionTheorems.GreatestFrameWins | internal/carddispatch/mutation.go:585-600 | the row ends with the greatest card_seq frame that ran |
| VersionTheorems.CardConfluence | internal/carddispatch/mutation.go:494-600 | however the same frames with distinct card_seq are ordered, interleaved or retried, the row ends the same |
| VersionTheorems.WriteOutcome | internal/carddispatch/mutation.go:561-568 | a card write puts its frame and version in the row, a plain write its version with the frame kept |
| VersionTheorems.CommitOutcome | internal/carddispatch/mutation.go:514-568 | a commit shows exactly what its transaction wrote, moves the rows it held and appends its versions |
| VersionTheorems.JudgedByRow | internal/carddispatch/mutation.go:585-600 | over every run the gate answers by the last accepted frame: replay exactly for the same frame, conflict for another at or below its card_seq, admission for a newer one; no table changes |
| VersionTheorems.AcceptedAgainIsReplay | internal/carddispatch/mutation.go:593-597 | over every run the last accepted frame sent again is a replay, with only a rollback left and nothing changed |
| LockOrder.WaitingDescends | internal/carddispatch/mutation.go:526-560 | a wait always goes down the order state row, channel sequence, message row, or to an earlier request |
| LockOrder.NoDeadlock | internal/carddispatch/mutation.go:526-560 | the wait-for graph of card writers, plain reservers and pending flips has no cycle |
| LockOrder.SomeoneMoves | internal/carddispatch/mutation.go:526-560 | whatever is held and wanted, some transaction can go forward |
| LockOrder.TwoChannelsDeadlock | internal/msgextraseq/store.go:192-201 | reserving on two channels in opposite orders deadlocks: one channel per transaction is needed |
| CardWriter.Backend.CasWriteOnce | internal/carddispatch/mutation.go:514-568 | replay if and only if the row holds exactly this frame, conflict if and only if another one at or above its card_seq, and an acceptance changes exactly the row and, when transactional, its channel to the next version; all or nothing whichever statement fails |
| CardWriter.Backend.CASWrite | internal/carddispatch/mutation.go:494-512 | the same answers over at most five attempts on tables other writers change in between; each but the last met a lock error and left no trace, the last is all or nothing, and a lock error is given up on only after five |
| CardWriter.WriteAnswers | internal/carddispatch/mutation.go:514-600 | what an answer means for the row before and the tables after, and exactly when there is one |
| CardWriter.RewriteIsReplay | internal/carddispatch/mutation.go:593-597 | an accepted frame written again is a replay that changes nothing, unless the channel ran out of versions |
| CardWriter.OnlyAcceptedFramesWrite | internal/carddispatch/mutation.go:541-567 | conflicts, replays and errors consume no version; an acceptance raises only its own channel, by a version above the old row |
| CardWriter.CardWriteIsARun | internal/carddispatch/mutation.go:514-568 | the straight-line method is one run of the interleaved system with nobody else in it |
| LongPoll.ClampEventWait | modules/bot_api/events_wait.go:143-151 | 0 exactly for non-positive requests, the request itself up to 30 seconds, 30 seconds beyond |
| LongPoll.EventWaitChunkFor | modules/bot_api/events_wait.go:167-178 | whole seconds, 0 only when the hold is over, never short of the deadline and less than a second past it |
| LongPoll.ClampLimit | modules/bot_api/events.go:67-73 | the requested limit when in range, 20 for none, 100 beyond |
| LongPoll.PageIsFull | modules/bot_api/events.go:268-277 | a page is the first members above the cursor, as many as there are up to the limit |
| LongPoll.ShownMembers | modules/bot_api/events.go:118-140 | an App Bot is shown exactly the decodable events without a message or from a personal chat, any other bot everything decodable |
| LongPoll.PageIsGapless | modules/bot_api/events.go:268-277 | up to any of its ids a page holds every queued member above the cursor |
| LongPoll.ReadIsLossless | modules/bot_api/events.go:240-262 | what a read shows is everything showable up to the cursor it leaves |
| LongPoll.AcksAreIrrelevant | modules/bot_api/events.go:167-171 | removing members at or below the cursor changes no later page |
| LongPoll.Bot.GetEventsResult | modules/bot_api/events.go:268-329 | the decoded members of the page and the raw count |
| LongPoll.Bot.FilterAppBotEvents | modules/bot_api/events.go:118-140 | keeps exactly the showable events; auto-acks may fail without consequence |
| LongPoll.Bot.ReadEventPage | modules/bot_api/events.go:240-262 | visible part, cursor, advanced and full of a page, independent of which auto-acks ever succeeded |
| LongPoll.Bot.WaitForEvents | modules/bot_api/events_wait.go:400-519 | a refused hold reads nothing; a granted one answers with the first page that shows anything, re-reading at once behind a full page, and ends empty only when the caller has gone or the time is up and everything published by then was read; it ends without any write succeeding |
| LongPoll.Bot.GetEvents | modules/bot_api/events.go:55-103 | the answer is exactly what may be shown between the caller's cursor and the last read's; an event met by a read is in it; with a hold granted an empty answer comes only after min(wait, 30) seconds or to a caller who has gone |
| LongPoll.Lossless | modules/bot_api/events.go:163-216 | along any succession of reads the cursor never passes an unread member |
| LongPoll.AnswerIsDetermined | modules/bot_api/events.go:163-172 | the answer is fixed by what was published at each read |
| LongPoll.UndecodablePageStalls | modules/bot_api/events_wait.go:508-516 | a page in which nothing decodes leaves the cursor where it was |
| LongPoll.DecodablePageAdvances | modules/bot_api/events.go:254-259 | with decodable members every non-empty read moves the cursor to its last member |
| HoldSlots.StepKeepsInv | modules/bot_api/events_wait.go:292-325 | each step of acquiring or releasing keeps the marked bots and the semaphore in agreement with the requests |
| HoldSlots.HoldsAreBounded | modules/bot_api/events_wait.go:292-325 | however requests interleave: at most the cap in all, at most one hold per bot, and both budgets whole again when all are idle |
| HoldSlots.HoldsAreGranted | modules/bot_api/events_wait.go:292-325 | and a hold is granted exactly when no other request of the bot is under way and fewer than the cap are out |
| EvidenceScan.RanksMoveDown | cutover_botevent.go:265-268 | deletions only move ranks down, so the next page never repeats a member |
| EvidenceScan.RepeatsAreDuplicates | cutover_botevent.go:288-291 | adjacent equal scores count exactly members minus distinct scores, across page boundaries |
| EvidenceScan.DuplicatesAreALowerBound | cutover_botevent.go:292-294 | seeing fewer members never reports more duplicates |
| EvidenceScan.Tally | cutover_botevent.go:305-314 | the inner loop continues over a page what the earlier pages began |
| EvidenceScan.ScanQueueScores | cutover_botevent.go:295-320 | terminates, sees no member twice, and sees everything when nothing is deleted |
| EvidenceScan.InspectQueueScores | cutover_botevent.go:270-285 | the maximum is exactly that of the queue at the first read and bounds every survivor; duplicates are a lower bound, exact without deletions |
| Watchdog.ProgressWatchdog.Fire | modules/agentmailgateway/gateway.go:601-620 | the critical section of expire: quit when stopped, re-arm for the deadline before it, stop and cancel from it on |
| Watchdog.ProgressWatchdog.Touch | modules/agentmailgateway/gateway.go:622-632 | moves the deadline and re-arms, unless stopped |
| Watchdog.ProgressWatchdog.Stop | modules/agentmailgateway/gateway.go:634-650 | stops once, and closes the channel itself exactly when it disarmed a live timer |
| Watchdog.CancelsOnceNeverEarly | modules/agentmailgateway/gateway.go:601-620 | in every interleaving the callback starts at most once, never before a full timeout since the last effective touch, and an unstopped watchdog is armed or firing |
| Watchdog.FiringDecides | modules/agentmailgateway/gateway.go:601-620 | after every run a firing cancels exactly when nothing is stopped and a full timeout has passed since the last effective touch, however late it comes, and otherwise re-arms for exactly that moment |
| Watchdog.StallIsCancelled | modules/agentmailgateway/gateway.go:601-620 | from every reachable unstopped state, without touch or stop, the callback starts by the end of the interval plus the clock's slack, or at once if that is past |
| Watchdog.RestHasCancelled | modules/agentmailgateway/gateway.go:601-620 | a watchdog at rest without any Stop has started its callback exactly once |
| Watchdog.StopIsFinal | modules/agentmailgateway/gateway.go:634-650 | after a Stop that precedes every decision the timer never fires and the callback never starts |
| Watchdog.StopCanReturn | modules/agentmailgateway/gateway.go:634-650 | after every run a waiting Stop may return once a pending firing, or the Stop that disarmed the timer, has gone on by itself |
| Watchdog.StopIsReleased | modules/agentmailgateway/gateway.go:634-650 | once pending firings have run, every waiting Stop may return |
| Watchdog.DecisionIsSafeIff | modules/agentmailgateway/gateway.go:601-620 | after a firing decides to cancel, no interleaving can start the callback after a Stop returned if and only if no other firing is pending and the timer is not armed |
| Watchdog.PromptTouchesAreSafe | modules/agentmailgateway/gateway.go:622-632 | while no touch overtakes a pending firing the callback never starts after a Stop has returned |
| Watchdog.LateCancel | modules/agentmailgateway/gateway.go:601-650 | a concrete interleaving in which it does |
| BoundedBody.ReadBoundedBody | modules/agentmailgateway/gateway.go:478-490 | the verdict on a stream under a limit, however it is split into reads and wherever its end is reported |
| BoundedBody.BoundedVerdicts | modules/agentmailgateway/gateway.go:478-536 | a body exactly when the stream ends well within the limit, too large only beyond it, failed only by the stream's own fault |
| BoundedBody.Fill | modules/agentmailgateway/gateway.go:509-523 | fills one chunk in place or as much as there is |
| BoundedBody.ReadBoundedResponseBody | modules/agentmailgateway/gateway.go:495-536 | the same verdict as the simple reader, the same bytes in chunks of at most 256 KiB, and their exact length |
| BoundedBody.CopyBoundedBody | modules/agentmailgateway/gateway.go:538-559 | writes the first min(length, limit) bytes as far as the destination takes them; refused if and only if the stream is longer and all of them went through; failed exactly on a full destination or a fault within the limit |
| BoundedBody.CopyLimited | modules/agentmailgateway/gateway.go:542-545 | the limited copy stops short only when the destination is full or the source fails |
| BoundedBody.Probe | modules/agentmailgateway/gateway.go:549-550 | the one-byte probe tells a longer stream from an ended or broken one |
| Localpart.SanitizeGatewayLocalpart | modules/agentmailgateway/provisioning.go:137-175 | the byte loop with its early stop at 64 bytes equals the fold over the whole string |
| Localpart.SanitizedIsALocalpart | modules/agentmailgateway/provisioning.go:137-175 | on every byte string idempotent, at most 64 octets, and a Dot-string of section 4.1.2 of RFC 5321 when non-empty |
| Localpart.SanitizedKeepsWords | modules/agentmailgateway/provisioning.go:137-175 | the alphanumeric runs of the input come out the same, in order and apart, up to the 64th byte |
| Localpart.DotsBecomeOne | modules/agentmailgateway/provisioning.go:156-161 | a run of dots after a word becomes one dot |
| Localpart.ForeignBecomesDash | modules/agentmailgateway/provisioning.go:166-171 | a run of other bytes after a word becomes one dash |
| Localpart.DashesStay | modules/agentmailgateway/provisioning.go:162-165 | dashes and underscores stay as they are |
| Localpart.HexReadsBack | modules/agentmailgateway/provisioning.go:134 | the digest's digits read back as its bytes, high half first |
| Localpart.JoinKeepsApart | modules/agentmailgateway/provisioning.go:133 | candidates without zero bytes are told apart by what is hashed |
| Localpart.NeighboursMakeDotString | modules/agentmailgateway/provisioning.go:137-175 | no leading, trailing or doubled dot is the Dot-string grammar |
| Localpart.NormalizeGatewayLocalpart | modules/agentmailgateway/provisioning.go:127-135 | first non-empty candidate or the digest name; never empty, a fixed point of the sanitiser, a valid local part |
| Localpart.AsciiPrepareKeepsAscii | modules/agentmailgateway/provisioning.go:138 | trimming and lower-casing ASCII leaves sanitised strings alone |

## Left out

- DispatchDelivery.BoundedDelivery: does not order the Deliver calls themselves, because a stalled worker may call late; the order is stated of the clears (ClearedAttemptsIncrease).
- DispatchConservation.Conservation: counts dead entries dropped by a zero retention as pruned, since they disappear in the same script.
- LockOrder.NoDeadlock: covers record locks of transactional-mode writers with one channel per transaction; gap locks and the legacy card path's message-row-first order are not modelled.
- VersionTheorems.CardConfluence: covers the transactional mode; content written by raw edits outside the compare-and-set is not modelled, plain writers change only the version.
- LongPoll.Bot.GetEvents: does not model other clients acknowledging visible events while the request runs, nor the allocate-then-publish reordering window, where the source itself says losslessness does not hold.
- EvidenceScan.ScanQueueScores: treats scores as integers, since every producer scores with an integer id inside the exact range of a double.
- BoundedBody.ReadBoundedBody: requires a limit below 2^63-1, where limit + 1 would wrap; the gateway's limits are far smaller.
- Localpart.SanitizedIsALocalpart: takes the Unicode tables of TrimSpace and ToLower as a parameter.
- HTTP delivery, signing, JSON encoding, metrics and logs; Deliver and Finalize are outcomes the environment picks.
- Redis and MySQL connection errors beyond their effect on control flow: a worker whose call fails behaves as one that crashed there, a failed transaction of the interleaved system as one rolled back.
- Route slots as channels: whether a slot is free is an input of the capacity step; the poll timers of the dispatcher's run loop are left to the environment.
- Validation of events in Enqueue (positive id, non-empty fields) and truncation of the nack reason.
- Preflight's report fields beyond the recommended floor, the Redis cursor scan itself, and the session lock-wait timeout around the flip.
- The missing state table (every write fails) and gap locks on a missing state row.
- Mutate's checks before the compare-and-set (lifecycle, content hash, column width), revision history and command fan-out.
- judgeMirror, the key scan over all queues and the report around the evidence scan; parseMaxEventHolds and the refused-hold pause, which would only add easy members.
- The request and response body wrappers around the watchdog, and the gateway's header, path and budget handling.
- OBO grants, AI team and app bot handlers, backup, file upload, group endpoints and route wiring.
