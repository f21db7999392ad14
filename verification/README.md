# A model of chronos-go in Dafny

chronos-go is a Redis-backed task queue with chains, groups and a distributed scheduler. Every Lua
script and every MULTI/EXEC pipeline is one atomic step; between two steps anything may crash,
be redelivered or interleave. The project models Redis as maps, sets and sequences, the scripts
as steps on them, and the Go code around them as workers that take those steps one at a time.

| file | what it models |
|---|---|
| `Base.dfy`, `Ids.dfy` | messages, chain links, task states; the derived task IDs as a datatype and as strings |
| `Store.dfy` | one queue of the store and the effect of every script on it |
| `StoreRuns.dfy`, `RetryBudget.dfy`, `LapsedLease.dfy` | all interleavings of clients, workers, recoverers, forwarders, operators and janitors on one queue |
| `Scripts.dfy`, `Janitor.dfy` | the scripts, pipelines and loops as methods of a class, each proved equal to its step; convergence of trims |
| `Laws.dfy` | what the steps mean to a reader of the queue: delayed tasks over any run, and sequences of scripts with the same effect |
| `GroupState.dfy`, `GroupRounds.dfy` | the pending SET and the result HASH of all groups, each key with its deadline; one group's keys as a class, and every history of them |
| `Flow.dfy` | workflows, their direct evaluation, and the message every task of a workflow is created with |
| `World.dfy` | the workflow protocol as a machine: any number of workers, one Redis call per step, and time that expires group keys |
| `Shape.dfy`, `WellFormed.dfy` | what holds in every run: the shape of all messages; no succeeded task is stuck |
| `Meaning.dfy`, `Leases.dfy`, `Deadlines.dfy` | when handlers are called with exactly the inputs of the direct evaluation |
| `Misses.dfy` | what follows, for every plan, when one of the conditions is broken |
| `Runs.dfy`, `RetainedLink.dfy`, `DrainRace.dfy`, `LateRefresh.dfy` | three whole runs the program can make, each breaking one condition |
| `Continuity.dfy`, `Delivery.dfy` | no crash point loses the rest of a workflow, and what is stored is delivered |
| `Outcomes.dfy` | where the tasks of a workflow go after a success, a failure or a lapsed lease, and when new ones start |
| `Stage.dfy` | `process` and `enqueueNextGroup` as uninterrupted methods, and as walks of the machine |
| `Builder.dfy`, `Unique.dfy` | the client's builders and dispatch; the unique lock over runs |
| `Wrr.dfy`, `Fetch.dfy` | the weighted round-robin picker; queue order and slot accounting of the fetch loop |
| `Fires.dfy`, `Leader.dfy`, `Scheduler.dfy`, `SchedulerPass.dfy` | `computeFires`, the leader lock, `fireDue`, and firing by any number of self-believed leaders |
| `Firing.dfy` | what the passes of `fireDue` enqueue over time, by the triggers alone |

Runs are sequences of states linked by enabled events, so a statement about `ws[k]` is a
statement about every reachable state.

## Where the code is narrower than its comments

- **Counters of the picker.** `wrr.go` says they stay within `total` in magnitude. That is true of
  all pickers over n queues exactly for n <= 3 (`Wrr.WithinTotalExactly`); they always stay above
  `-total` and at most `(n-1)(total-1)`, which is what keeps them from overflowing.
- **Retained links of member chains.** A retained link has lost its tail, so an operator's re-run
  reports to the group too early (`RetainedLink.MidLinkMisreports` for every plan,
  `RetainedLink.RetainedMidLinkBreaksMeaning` for a whole run).
- **Drain of a completed member.** It reads the state and the message in two calls. A second
  worker of the same member, whose lease lapsed, can write back a copy without the result in
  between (`Misses.StaleCopyMisses`); retries and redeliveries are enough for it
  (`DrainRace.DrainRaceBreaksMeaning`).
- **Refresh of a stage.** A re-attempt extends the pending SET but not the result HASH, so results
  can be lost although both keys are refreshed by every report (`GroupRounds.LostExactlyWhen`,
  `GroupRounds.WholeRoundCollected`, `LateRefresh.LateRefreshBreaksMeaning`).
- **Delays of member chains.** `group.go` bounds the sum of the delays by the group TTL, and a start
  in the past counts as negative in it, so later delays can exceed the TTL
  (`Builder.PastStartHidesDelay`); `Builder.AcceptedFitsTtl` says exactly when they do not.
- **Lapsed leases.** A task can then be in two ZSETs and lose its body to the janitor
  (`LapsedLease.LapseLosesBody`).
- **Unreadable registers.** A read error of `lastFired` resets the register to now, as if the
  schedule had never been seen; the model follows the code.
- **Scheduler gaps.** At-most-once firing needs completed passes closer together than the dedup
  TTL (`Scheduler.GapMatters`).
- **Colons in roots.** Derived IDs are injective for roots without a colon, which UUIDs are, and
  not in general (`Ids.ColonRootsClash`).
- **Recover ignores `NoArchive`**; the model follows the code.

## Model

| member | source | states |
|---|---|---|
| Leases.MeaningPreserved | server.go:473-546 | In every run of a valid plan without retained member-chain mid-links, whatever crashes, is redelivered, retried, deleted or re-run, each handler call is a call of the direct evaluation of its workflow, with the same PrevResult and GroupResults, if no task is handed out while a worker holds it and no result HASH expires before its SET |
| Leases.LeasedReads | server.go:710-730 | While leases hold, the message a drain reads after it found the member completed has the member's result |
| Leases.StepFrom | server.go:668-730 | Every step keeps: no two holders of a task, a holder without the result holds a task nobody completed, and a member a drain is about to read has its result wherever it is |
| Leases.OnePredecessor | server.go:633-640 | A parallel stage is handed over by one task only |
| Meaning.MeaningWhileSound | server.go:710-730 | The same without leases, for any number of holders, in every run where each drain that found its member completed reads a message with the result and no HASH expires before its SET |
| Meaning.StepInv | server.go:591-705 | Every single Redis call of every actor then keeps: stored and held messages are birth messages up to retry count, right result and dropped tail; recorded results are right and complete |
| Meaning.LinkSuccessor | server.go:596-615 | The successor a succeeded task builds, link or stage member, is the birth message of that position of the workflow |
| Meaning.ReporterMessage | internal/rdb/group.go:184-211 | A reporting message names its group, slot, index, size and callback correctly, and the callback it builds is the birth message of the callback |
| Meaning.ReportKeepsGroup | internal/rdb/group.go:46-89 | A report keeps the recorded results right and complete, and a firing report collects exactly the members' results in order |
| Meaning.CreateStageOk | internal/rdb/group.go:131-145 | Registering a stage starts from all slots and no results |
| Deadlines.OutlivesInTime | internal/rdb/group.go:131-145 | In every run in which no stage with results is re-attempted, no result HASH expires before its SET |
| Deadlines.MeaningPreservedWithoutLateRefresh | internal/rdb/group.go:21-29 | Meaning is preserved in every such run whose leases hold |
| Flow.BirthCalled | server.go:591-705 | The message of every task of a workflow carries the inputs of its call in the direct recursive evaluation of the chain or group |
| Flow.CalledExactly | server.go:591-705 | The calls of the direct evaluation are exactly the inputs of those messages |
| Flow.LastCall | server.go:506-520 | The result a member chain reports is that of its last stage in the direct evaluation |
| Misses.WrongReport | internal/rdb/group.go:46-89 | For every plan: a report that leaves the group without its member's result leaves the slot out of the SET with a wrong result, or creates the callback with wrong inputs |
| Misses.WrongStays | internal/rdb/group.go:46-89 | What is wrong for one member stays wrong under the reports of all others, and the last one creates the callback with wrong inputs |
| Misses.WrongCallIsMade | server.go:473-475 | A callback stored with wrong inputs, once delivered, is called with inputs the direct evaluation does not have |
| Misses.DrainMisses | server.go:710-730 | Whenever a drain reads a message without the result the group waits for, its report misses the result |
| Misses.StaleCopyMisses | server.go:531-545 | Whenever another holder without the result writes its copy back between the two reads of a drain, for a retry or to the archive, the drain's report misses the result |
| Misses.ExpiryLoses | internal/rdb/group.go:135-138 | Whenever the HASH expires while the SET lives, every recorded result of a member that has left is lost |
| RetainedLink.MidLinkMisreports | server.go:504-514 | For every plan, result and group state: re-running a link stored without its tail removes the member's slot, creates the callback when it was the last, and misses the chain's result unless the group has it afterwards |
| RetainedLink.RetainedMidLinkBreaksMeaning | internal/rdb/inspect.go:233-244 | A run the program can make, meeting all the other conditions, with a retained first link and one RunTask, in which the callback is called with the wrong group results |
| DrainRace.DrainRaceBreaksMeaning | server.go:710-730 | A run the program can make, with retries and redeliveries only, in which a drain reports a completed member without its result and the callback is called without it |
| LateRefresh.LateRefreshBreaksMeaning | internal/rdb/group.go:135-138 | A run the program can make, with every lease held, in which a stage re-attempted just before the TTL keeps its SET, loses its HASH, and the callback is called without a reported result |
| Shape.AlwaysShaped | internal/rdb/rdb.go:252-304 | In every run of every valid plan: each stored and held message is its birth message except for the retry count, the results in it, and a tail that is whole or dropped; only a retained grouped task is stored without its tail; a completed body has a message |
| Shape.NextNewborn | server.go:591-620 | What a message with a tail creates next, link or stage member, has the fields and the whole tail of that position, whatever the results |
| Shape.GroupedKnows | internal/rdb/group.go:184-211 | Every grouped message in shape can report, to its own slot, and creates its group's callback with the callback's whole tail |
| Continuity.ChainContinuity | server.go:484-526 | In every run that removes no unsettled task, writes no state for a task that was never created and expires no SET: for every stage whose task was created, the chain has ended, or that stage or a later one (a later one once it is settled) is stored with exactly the stages after it: as a message with that tail, or as a pending SET whose every pending slot has a stored member carrying that tail |
| Continuity.GroupContinuity | group.go:176-188 | In such a run a registered group has its callback stored or done with, or its SET is not empty and, for every member still in it, each created task is stored with the rest of its chain, or a later link is |
| Continuity.StepCInv | internal/rdb/chain.go:22-42 | Every step keeps: a task stays stored with its whole tail until its successor exists or its report was made |
| Continuity.TailAtHand | server.go:501-505 | A message that still has a tail has the whole tail of its birth |
| Continuity.DiscardIsLast | chain.go:252-296 | Only a task without successor and without group can be one that is discarded |
| Delivery.StoredAndDelivered | internal/rdb/rdb.go:67-104 | In every such run whose tasks are handed out and acknowledged with their own entries, a created unsettled task of a workflow is stored with its whole tail and led to by the stream or a ZSET |
| Delivery.ChainDelivered | server.go:484-526 | Chain continuity where the stored stage is also led to, every pending member of it included |
| Delivery.ApplyReferenced | internal/rdb/retry.go:17-51 | No script leaves a stored task without an entry in the stream or a ZSET |
| WellFormed.NeverStuck | internal/rdb/group.go:185-194 | In every run a task whose handler succeeded can hand on, report or finish; the error returns for a missing or foreign callback are never taken |
| WellFormed.LastLinkReports | server.go:511-520 | In every run a member chain's slot is reported by its last link, or by a retained link that is run again |
| Stage.Hub.EnqueueNextGroup | server.go:633-705 | The loop equals the specification of the hand-off, error returns included; on a sound store it succeeds, slots of a stage in flight only leave, and afterwards the callback exists or every pending slot has a stored member that is not completed; a completed stage, and a member whose slot has left, is not touched |
| Stage.Hub.StageMember | server.go:668-703 | Creates one member, or drains it when it exists and is completed; an error exactly for a stored message that cannot report |
| Stage.Hub.Process | server.go:473-546 | Whatever the state: a failure ends in the archive, or nowhere for a discarding task, when it is not to be retried or its budget is spent, and otherwise waits for its retry with one attempt more; a success without successor or group is kept for its retention or gone; both give up the lock where the task is done; a hand-off or report comes before the acknowledgement, and nothing is acknowledged after an error |
| Stage.Hub.Fail | server.go:531-545 | Archived, discarded or retried, by the error and the budget alone, as entry, body, ZSET and score show |
| Stage.Hub.Acknowledge | internal/rdb/rdb.go:285-304 | Kept as completed until its retention ends, or gone; the entry is acknowledged and the lock free |
| Stage.StageHandsOver | server.go:633-705 | On a sound store the hand-off succeeds and leaves the callback, or every pending slot with a stored member that will report |
| Stage.ShapedIsSound | server.go:710-730 | What any run stores under a stage's member IDs is sound: it reports to that stage and slot, and a completed one has a message |
| Stage.HandsOverInEveryRun | server.go:484-505 | In every run a worker that succeeded before a parallel stage and is not interrupted hands everything over |
| Stage.StageIsWalk | server.go:633-705 | A successful hand-off is a walk of the machine's worker to the point where it has handed off, with the same Redis state |
| Stage.AckedStageIsFinished | server.go:521-523 | `process` before a parallel stage is that walk and the machine's finish, and the lock released |
| Stage.AckedIsFinished | server.go:521-523 | `process` before a single link, or with a report, is one advance and the finish, and the lock released |
| Stage.MissedIsRetired | server.go:531-545 | A failed one leaves the state of the machine's retire step, and the lock released |
| Stage.MissedEnds | server.go:531-545 | A failed attempt ends as its error and its budget say, and a task that is done has no lock |
| Stage.AckedEnds | internal/rdb/rdb.go:285-304 | A success ends as its retention says, and has no lock |
| Stage.NoLockInWorkflows | chain.go:257-269 | Tasks of workflows have no lock to release |
| Stage.StageSparesDone | server.go:642-672 | A hand-off does nothing to a stage whose callback exists, and does not touch the body of a member whose slot has left the SET |
| Outcomes.FailureEnds | server.go:531-545 | For every state of the machine: a handler error, then the retire step, end in the archive (nowhere for a discarding task) if it is not to be retried or the budget is spent, else in the retry set at its time with one attempt more; no other task, entry or queue changes |
| Outcomes.SuccessEnds | internal/rdb/rdb.go:285-304 | A finished task is in the completed set until its retention ends, or gone, and its entry is acknowledged; nothing else changes |
| Outcomes.LapseEnds | internal/rdb/recover.go:46-86 | A reclaimed task waits for a retry at once with one attempt more, or is archived with its budget spent |
| Outcomes.StartsAsPlanned | internal/rdb/chain.go:44-80 | In every run every link, stage member and callback a server creates starts as its plan says: with a delay it is scheduled for the creating call's time plus that delay and on no stream, without one it is pending and on the stream exactly once more |
| Outcomes.CallbackStarts | internal/rdb/group.go:218-227 | The report of the last pending member starts the callback after the callback's own delay, from any state |
| Outcomes.OnlyPendingIsCreated | server.go:640-672 | In every run a member of a parallel stage is created, for the first time or again, only by a hand-off during which its slot was pending |
| Stage.DrainMember | server.go:710-730 | Draining a completed member removes its slot and disturbs no other member |
| GroupRounds.CallbackSafety | internal/rdb/group.go:46-89 | In every history of a group, of reports, re-attempts, new registrations, expiries and deletions: the callback is created exactly by a report that removes the last slot, after every slot reported in this round, and at most once in a round even when its hash is gone again |
| GroupRounds.PendingIsUnreported | internal/rdb/group.go:46-61 | While the SET lives it holds exactly the slots that have not reported in this round |
| GroupRounds.ResultCollection | internal/rdb/group.go:50-78 | In every history the callback gets, index by index, the latest non-empty result reported since the HASH was lost last, or else in this round, nil where there was none, and nothing when nobody produced one |
| GroupRounds.WholeRoundCollected | internal/rdb/group.go:50-78 | It gets the latest results of its whole round if and only if every member whose result went with a lost HASH reported a result again |
| GroupRounds.LostExactlyWhen | internal/rdb/group.go:131-145 | A recorded HASH is gone while the SET lives if and only if the last report is a TTL ago and the last re-attempt is not |
| GroupRounds.CollectsWithoutReattempt | internal/rdb/group.go:91-108 | In a round without re-attempts, as of every standalone group, it gets the results of the whole round |
| GroupRounds.ResultsOutliveSet | internal/rdb/group.go:94-145 | The HASH's deadline is at least the SET's if and only if no re-attempt refreshed the SET after the last report |
| GroupRounds.LateRefreshLosesResult | internal/rdb/group.go:135-138 | A history in which a late re-attempt makes the callback miss a recorded result |
| GroupRounds.ReportRefines | internal/rdb/group.go:46-89 | The script on one group's keys is the report of the workflow machine, deadlines included |
| GroupRounds.ReattemptRefines | internal/rdb/group.go:131-145 | The stage script on one group's keys is the one of the workflow machine, deadlines included |
| GroupRounds.PassRefines | internal/rdb/group.go:94-108 | Expiry of one group's keys is the passing of time in the workflow machine |
| GroupRounds.Keys.constructor | internal/rdb/group.go:91-108 | No keys exist |
| GroupRounds.Keys.CreateGroup | internal/rdb/group.go:94-108 | An error for no members; else the SET gains the slots and a full TTL |
| GroupRounds.Keys.CreateIfAbsent | internal/rdb/group.go:131-178 | Fenced by the callback hash, then by the SET; creates the SET and drops leftover results; says which it found |
| GroupRounds.Keys.Complete | internal/rdb/group.go:46-89 | The completion script with its assembly loop equals the specification, and returns true exactly when it created the callback |
| StoreRuns.NeverStranded | internal/rdb/rdb.go:73-79 | In every run, with lapsed leases, reused IDs and deletes: a hash with a message is referenced by a ZSET or by a stream entry nobody is about to drop, and every stream entry is undelivered or pending |
| StoreRuns.ActorAnchors | internal/rdb/retry.go:17-23 | Acting on a stale entry cannot unreference another task |
| StoreRuns.ForwardAnchors | internal/rdb/forward.go:22-30 | Forwarding keeps every stored message referenced |
| StoreRuns.RunTaskAnchors | internal/rdb/inspect.go:233-244 | RunTask keeps every stored message referenced |
| StoreRuns.DeleteAnchors | internal/rdb/inspect.go:286-304 | DeleteTask keeps every other stored message referenced |
| StoreRuns.TrimAnchors | internal/rdb/janitor.go:19-48 | A trim keeps every remaining stored message referenced |
| StoreRuns.AlwaysSingleLocation | internal/rdb/retry.go:17-51 | With leases held, IDs reused only after a terminal state and deletes of waiting tasks only, every task is in one place, named by its state |
| StoreRuns.ExactlyOnePlace | internal/rdb/schedule.go:19-25 | That place is exactly one of the stream and the four ZSETs |
| StoreRuns.JanitorSparesThePipeline | internal/rdb/janitor.go:19-48 | A trim then deletes no body of a task that is queued, waiting to run, or held by a worker |
| LapsedLease.LapseLosesBody | internal/rdb/recover.go:46-86 | A run in which a reclaim of a task still being processed puts it into two ZSETs and a trim deletes the body of the coming retry |
| RetryBudget.BudgetNeverExceeded | internal/rdb/recover.go:69-86 | In every run, stale writers included, Retried stays within MaxRetry |
| RetryBudget.DeliveriesBounded | server.go:531-545 | With leases held and no re-run of finished tasks, a stored task has had at most MaxRetry+1 deliveries that were not handed back |
| RetryBudget.LastDeliveryBounded | internal/rdb/rdb.go:252-304 | The delivery that removes the body is within the same bound |
| RetryBudget.AlwaysTallied | server.go:538-542 | Resolved deliveries are Retried, plus one once the task is terminal, and a worker's copy is the stored message |
| Scripts.Redis.Enqueue | internal/rdb/rdb.go:73-79 | Its commands in order make exactly the store step that the run theorems are about |
| Scripts.Redis.Schedule | internal/rdb/schedule.go:19-25 | Its commands in order make exactly the store step that the run theorems and `Laws.NotBefore` are about |
| Scripts.Redis.EnqueueUnique | internal/rdb/unique.go:26-35 | Its commands make exactly that store step; false exactly when the lock is held |
| Scripts.Redis.ScheduleUnique | internal/rdb/unique.go:43-52 | Its commands make exactly that store step; false exactly when the lock is held; `Laws.NotBefore` says when the task comes back |
| Scripts.Redis.EnqueuePeriodic | internal/rdb/periodic.go:25-66 | Its commands make exactly that store step; false exactly when the dedup key lives |
| Scripts.Redis.EnqueueChainLink | internal/rdb/chain.go:22-80 | Its commands make exactly that store step, a delay counted from the caller's clock; true exactly when the task did not exist |
| Scripts.Redis.Requeue | internal/rdb/rdb.go:252-260 | Its commands in order make exactly the store step that the run theorems are about |
| Scripts.Redis.MoveToZSet | internal/rdb/retry.go:17-51 | Its commands in order make exactly the store step that the run theorems are about |
| Scripts.Redis.Release | internal/rdb/rdb.go:272-277 | Removes the lock only while it points at this task |
| Scripts.Redis.Done | internal/rdb/rdb.go:285-304 | Moves to the completed set until completed-at plus retention, or deletes; releases the lock either way |
| Scripts.Redis.RunTask | internal/rdb/inspect.go:233-276 | Its commands make exactly that store step; promotes exactly a task that was waiting and has a body |
| Scripts.Redis.DeleteTask | internal/rdb/inspect.go:286-304 | Removes the task everywhere and releases the lock its message names |
| Scripts.Redis.RenewUnique | internal/rdb/heartbeat.go:33-63 | Equals one renewal step per key |
| Scripts.Redis.ReadGroup | internal/rdb/rdb.go:168-184 | Delivers the next undelivered entries in order, up to the count, and leaves none when it returns fewer |
| Scripts.Redis.DequeueBatch | internal/rdb/rdb.go:152-244 | Returns, in order, the delivered tasks that have a body; drops the others' entries and marks the returned ones active |
| Scripts.LoadedOrOrphan | internal/rdb/rdb.go:200-229 | Every delivered entry is either returned as a task or dropped as an orphan, never both |
| Scripts.Redis.Reclaim | internal/rdb/recover.go:46-86 | One reclaimed entry: orphan dropped, archived at an exhausted budget, or one attempt used up; reports which |
| Scripts.Redis.Recover | internal/rdb/recover.go:25-88 | The loop equals reclaiming its entries in order; it returns the number of retried tasks and, in order, the messages of the archived ones, by their state before the pass |
| Scripts.RecoverSettles | internal/rdb/recover.go:46-86 | After a pass every claimed entry is acknowledged and its task waits for a retry now with one attempt used up, or is archived now, whatever the other entries were |
| Scripts.ReclaimFrees | internal/rdb/retry.go:35-40 | A reclaimed task that is archived gives up its own lock and no other; one that is retried keeps it |
| Scripts.Redis.Range | internal/rdb/forward.go:22-24 | The lowest-scored members up to the cutoff, as many as there are up to the limit, in score order |
| Scripts.Redis.Forward | internal/rdb/forward.go:22-56 | Moves exactly such a range to the stream and returns its size |
| Scripts.Redis.Trim | internal/rdb/janitor.go:19-48 | Removes such a range by age, then one by size, and returns how many |
| Laws.NotBefore | internal/rdb/forward.go:22-30 | Over any operations that do not name it, a task put off until a time, by a client, by a workflow or for a retry, is in no range of due tasks before that time, and in every one from then on whose limit covers what is due |
| Laws.PutOffWaits | internal/rdb/schedule.go:19-25 | A task put off has its message, its waiting state and that time as its score, and is on no stream entry that was not there before |
| Laws.OthersKept | internal/rdb/rdb.go:67-104 | No script changes the body, place or score of a task it does not name |
| Laws.ForwardSends | internal/rdb/forward.go:22-30 | Each forwarded task is on exactly one new stream entry, pending, with its message, and out of its ZSET |
| Laws.DelayedIsEnqueue | internal/rdb/schedule.go:19-25 | A delayed enqueue of a task that was not scheduled yet, once forwarded, leaves the queue as an enqueue at once would |
| Laws.DelayedIsEnqueueUnique | internal/rdb/unique.go:43-52 | The same for unique tasks, lock included |
| Laws.DelayedIsEnqueueLink | internal/rdb/chain.go:22-42 | The same for workflow tasks |
| Laws.RerunIsRequeue | internal/rdb/inspect.go:233-244 | A delivery that ended in any ZSET and is run again leaves the queue as handing the task back would |
| Laws.RunIsForward | internal/rdb/inspect.go:233-244 | Running a waiting task by hand is forwarding it |
| Laws.FinishUndoesEnqueue | internal/rdb/rdb.go:252-304 | A new task that is delivered and finished, nothing else being undelivered, leaves nothing but a used entry number |
| Laws.TrimIsDelete | internal/rdb/janitor.go:19-48 | A trim of one task is its deletion: no body and no place remain |
| Janitor.TrimReturnsDrop | internal/rdb/janitor.go:19-48 | A trim returns exactly the drop in size, at most two batches |
| Janitor.TrimRemovesOldest | internal/rdb/janitor.go:31-45 | What goes is past the cutoff or scored no higher than anything that stays, and its body goes too |
| Janitor.TrimMakesProgress | internal/rdb/janitor.go:19-48 | A trim removes nothing if and only if nothing is past the cutoff and the size is within the cap |
| Janitor.TrimsConverge | internal/rdb/janitor.go:50-57 | With a batch of at least one and no arrivals, repeated trims end with no score up to the cutoff and the size within the cap |
| Store.Append | internal/rdb/forward.go:22-30 | The stream after one XADD per ID |
| Store.TtlMillis | internal/rdb/unique.go:56-62 | A TTL of at least one millisecond |
| Store.ApplyBodies | internal/rdb/rdb.go:67-104 | Any script leaves each body as written by it, or as an old message whose state is unchanged or back in the pipeline |
| Unique.DuplicatesRejected | internal/rdb/unique.go:26-52 | In every run, from the step that takes a lock until its deadline or its holder's release, every identical enqueue or schedule is rejected without effect |
| Unique.LockStep | internal/rdb/heartbeat.go:33-39 | No operation but the holder's release ends an unexpired lock, and none shortens it |
| Unique.NoRevival | internal/rdb/heartbeat.go:33-39 | A released or expired lock comes back only when a task takes it |
| Unique.StaysFree | internal/rdb/unique.go:26-52 | In every run a free lock stays free until a task takes it |
| Unique.HeartbeatKeepsLock | internal/rdb/heartbeat.go:27-63 | In every run a lock whose renewals each come before the ttl they ask for is over stays with its holder, for at least that ttl after the last renewal, unless the holder releases it |
| Unique.LockLapses | internal/rdb/unique.go:26-52 | In every run, once a lock's ttl is over and nobody renewed or took it, the next identical enqueue or schedule stores its task and takes the lock |
| Unique.ReleaseFrees | internal/rdb/rdb.go:272-277 | A release frees its own lock, leaves a lock held by another task, and touches no other key |
| Unique.DelayedLockCoversDelay | chronos.go:291-307 | A delayed unique task's lock lasts until its time plus the ttl |
| Builder.Chain.Enqueue | chain.go:64-109 | Succeeds exactly for accepted chains, and then starts the chain of the built links: scheduled for the time its first task's options say if that is in the future, and at once otherwise |
| Builder.BuiltChainIsValid | chain.go:112-122 | An accepted chain is a valid workflow: single first stage, no discard before the last |
| Builder.BuiltChainStarts | chain.go:93-104 | Its first message is the one the workflow machine launches |
| Builder.SnapshotChainLink | chain.go:272-296 | Succeeds exactly without task ID, uniqueness, absolute delay and, before the last stage, discard |
| Builder.SnapshotGroupStage | chain.go:200-250 | Succeeds exactly for a non-empty group of single tasks with a callback, and freezes each member |
| Builder.SnapshotTail | chain.go:112-122 | Freezes every stage after the first, or fails |
| Builder.SnapshotForMember | chain.go:139-182 | Accepts exactly non-empty chains of single, never discarding links |
| Builder.ResolveChainOptions | chain.go:257-269 | The options in order; an error exactly when the last task ID is not empty or some unique TTL is positive |
| Builder.LastOptionWins | chronos.go:163-245 | Of the options of one kind the last one holds, in any mix, and the default where there is none: queue, task ID, retries, start, unique TTL and retention with their clamping; a discard anywhere holds |
| Builder.BuiltAsDescribed | chain.go:184-315 | Stage by stage a built chain has the kind, payload and options its tasks describe, every member of a parallel stage in order, and delays rounded to the nearest second but never to nothing |
| Builder.GroupAsDescribed | group.go:102-174 | So has a built group, for every member, every link of a member chain, and the callback |
| Builder.DispatchSeen | chronos.go:287-307 | After a dispatch the store shows the task scheduled for the time its last time option says if that is in the future, else pending on one new stream entry; a unique one with its lock until the ttl after that time; a duplicate changes nothing |
| Builder.RelativeDelay | chain.go:302-315 | Nearest whole second, never less than one for a positive delay |
| Builder.Group.SnapshotMember | group.go:109-174 | Accepts a member exactly when its links are allowed and the sum of its delays, a start in the past counting as negative, is within the group TTL |
| Builder.AcceptedFitsTtl | group.go:113-132 | An accepted member's delays let it report within the TTL if and only if its start is not in the past or its later delays fit on their own; single members always do |
| Builder.PastStartHidesDelay | group.go:119-129 | An accepted member chain whose second link waits twice the TTL, because its first starts one TTL in the past |
| Builder.Group.Enqueue | group.go:82-195 | Succeeds exactly for accepted groups, and then starts every member with its reporting fields, each at the time its first task's options say, or at once |
| Builder.BuiltGroupIsValid | group.go:102-174 | An accepted group is a valid workflow |
| Builder.BuiltGroupStarts | group.go:133-173 | Its members start with the messages the workflow machine launches |
| Wrr.NormalizeWeight | wrr.go:16-24 | Any weight is mapped into 1..2^20, valid ones unchanged |
| Wrr.SumIsZero | wrr.go:62-75 | After every pick the counters sum to zero |
| Wrr.CounterMeaning | wrr.go:62-75 | Over any stretch of k picks a counter moves by k times its weight minus total times its picks |
| Wrr.LowerBound | wrr.go:31-32 | Counters stay above minus the total |
| Wrr.UpperBound | wrr.go:31-32 | Counters stay at most (n-1)(total-1) |
| Wrr.NeverOverflows | wrr.go:5-9 | No intermediate value of the arithmetic leaves 64 bits |
| Wrr.NeverOverServed | wrr.go:29-31 | In the first total picks no queue is picked more often than its weight |
| Wrr.FullCycle | wrr.go:29-31 | After total picks every queue was picked exactly its weight times and all counters are zero |
| Wrr.Periodic | wrr.go:26-31 | Counters and choices repeat with period total |
| Wrr.WindowFairness | wrr.go:29-31 | Every window of total picks at any offset contains each queue exactly its weight times |
| Wrr.NoStarvation | wrr.go:30-31 | Every such window picks every queue |
| Wrr.WithinTotal | wrr.go:31-32 | With at most three queues counters stay within the total in magnitude |
| Wrr.AboveTotal | wrr.go:31-32 | For every n >= 4 there are n weights with which a counter exceeds the total |
| Wrr.WithinTotalExactly | wrr.go:31-32 | All counters of all pickers over n queues stay within the total if and only if n <= 3 |
| Wrr.SortedNames | wrr.go:43-47 | The queue names, sorted |
| Wrr.Picker.constructor | wrr.go:42-59 | Sorted names, normalized weights and their total, counters at zero |
| Wrr.Picker.Pick | wrr.go:62-75 | The in-place loop carries out one pick of the specification: it serves the queue that is owed most, of several the first by name, every queue earns its weight, and the one served pays the total |
| Fetch.QueuesByWeight | server.go:219-232 | All queues by weight descending, then by name |
| Fetch.ByWeightUnique | server.go:217-219 | That order is unique, whatever the map's iteration order |
| Fetch.ComputeOrder | server.go:320-345 | The round's order without the paused queues: by weight when strict, otherwise the picked one first and the rest by weight |
| Fetch.RoundOrderByWeight | server.go:320-345 | A strict round goes by weight descending, then by name; any other starts with the picked queue if it is not paused, and what follows goes by weight |
| Fetch.RoundAsksEveryQueue | server.go:271-276 | Every queue that is not paused is asked exactly once per round, the picked one first |
| Fetch.SlotsAreExact | server.go:306-466 | In every run, workers finishing at any time: workers never exceed the concurrency, every claimed task can start at once, none is put back for want of a slot, and outside a round the semaphore counts workers only |
| Fetch.Slots.Dispatch | server.go:425-465 | Starts the tasks in order; a batch sized to the free slots is started completely whoever finishes meanwhile |
| Fetch.BatchFillsSlots | server.go:359-370 | In every run a round asks for as many tasks as there are slots without a worker, at most 128 |
| Fires.ComputeFires | schedule.go:33-62 | The bounded loop moves the register by the elapsed triggers up to 100,001 and fires at most the last one: the single one under either policy, the last of several when firing once, none when skipping |
| Fires.TickByTriggers | schedule.go:22-62 | By the set of triggers in (last, now] alone: none does nothing, one is fired, of several the last is fired once or all are skipped, and the register ends at the last, or at the 100,001st |
| Fires.CatchesUp | schedule.go:39-51 | Within the bound the register ends at the greatest trigger up to now |
| Fires.ElapsedCounts | schedule.go:22-30 | The elapsed triggers are exactly the first ones after the register |
| Fires.FiresStrictlyIncrease | schedule.go:31-62 | Over any run of ticks, whatever the clock does, fired triggers are genuine, in (last, now], one per tick at most, and strictly increasing |
| Fires.CatchUpIsFinite | schedule.go:39-43 | Ticks at a fixed instant work off any backlog, 100,001 triggers per tick |
| Scheduler.AtMostOnce | scheduler.go:279-337 | In every run of any number of passes by self-believed leaders, stale writes included, each trigger is enqueued at most once and only genuine ones are, if 2 skew + 2 delay + gap is at most the dedup TTL and 2 skew + delay + gap at most the 100,001 triggers one pass can scan; failing register reads included |
| Scheduler.StepOk | internal/rdb/periodic.go:69-71 | Every step keeps: the register covers every trigger older than the last completed pass allows, although writes can move it back |
| Scheduler.GapMatters | internal/rdb/periodic.go:13-18 | With exact clocks and instantaneous passes, a gap longer than the dedup TTL lets a trigger be enqueued twice |
| SchedulerPass.PassRefines | scheduler.go:279-323 | An uninterrupted pass over one schedule, its register readable or not, is a run of the cluster machine |
| SchedulerPass.TriggerIsScript | internal/rdb/periodic.go:25-66 | An enqueue of the pass is the periodic script on the queue: rejected together, or one key and one trigger each |
| Leader.Registry.FireDue | scheduler.go:279-309 | The loop equals the schedules' passes in order, an enqueue error leaving the register alone and a read error resetting it |
| Firing.FiresWhatIsOwed | scheduler.go:279-323 | Over any passes of any number of schedules, whatever fails for the others: a trigger is enqueued exactly once if some pass owes it and can enqueue it, and otherwise never; a pass owes the last trigger since the last pass that dealt with the schedule, and when skipping only if there is no other |
| Firing.PassSettles | scheduler.go:282-308 | One pass enqueues what is owed, once, and leaves nothing due; if the enqueue fails, what is owed stays owed |
| Leader.Registry.FireEntry | scheduler.go:282-323 | One schedule's baseline, also after a read error, or its tick, enqueue and write |
| Leader.Registry.EnqueuePeriodic | internal/rdb/periodic.go:25-34 | Enqueues and sets the dedup key exactly when it was free |
| Leader.EachOnItsOwn | scheduler.go:281-308 | Schedules with different IDs do not disturb each other's register, dedup keys or enqueues |
| Leader.LeaderKey.AcquireOrRenew | internal/rdb/leader.go:14-25 | Succeeds exactly when no other instance holds an unexpired term; then the caller holds it until now plus the ttl, and otherwise nothing changes |
| Leader.LeaderKey.Resign | internal/rdb/leader.go:29-35 | Afterwards the caller does not lead, and another instance's unexpired term is left alone |
| Leader.NoSecondLeader | internal/rdb/leader.go:14-35 | In every history no other instance wins the lock inside an unexpired, unresigned term |
| Leader.LeadsWhileCalling | internal/rdb/leader.go:14-25 | In every history an instance that calls within each of its terms leads until it resigns, and nobody else does |
| Leader.FreeAfterwards | internal/rdb/leader.go:29-35 | In every history the next instance to ask leads once the leader has resigned or its term has run out |
| Ids.DecimalRoundTrip | server.go:597 | Decimal rendering of an index can be read back |
| Ids.RenderInjectiveWithinRoot | server.go:634-640 | Link, stage member, callback, group member and member-chain link IDs of one root are pairwise distinct strings |
| Ids.RenderInjective | group.go:96-100 | So are those of different colon-free roots |
| Ids.ColonRootsClash | scheduler.go:329 | Two different tasks with the same ID string, when a root contains a colon |

## Left out

- Leases.MeaningPreserved: sufficient for whole runs; that each condition matters is shown step by step for every plan (`Misses`, `RetainedLink.MidLinkMisreports`) and by one whole run each, because a broken condition is harmless when its task is never delivered again.
- Scheduler.AtMostOnce: sufficient bounds; that the gap must fit the TTL is shown for exact clocks and instantaneous passes.
- Continuity.ChainContinuity: messages of corrupt JSON and hashes that never had a message are not chains and are not covered.
- Fires.ComputeFires: a schedule is "the least trigger strictly after t"; the zero time robfig/cron returns for impossible specifications is not modelled.
- Firing.FiresWhatIsOwed: one scheduler whose clock does not go back, whose reads of the register fail in no pass after the first, and whose passes have at most 100,001 triggers each to scan; failing reads, several leaders and stale writes are the subject of `Scheduler.AtMostOnce`.
- Fetch.SlotsAreExact: the loop is a machine of its steps, because the source loop does not terminate; the channel itself is a counter.
- Stage.Hub.Process: the three attempts with backoff around a failing Redis call are the machine's `Again` and `Vanish` events.
- Heartbeats and leases: that a live worker's lease is extended in time is the hypothesis of the meaning, single-location and delivery-count results, not a result.
- The local `isLeader` flag of `tryElect`: any instance may believe it leads at any time, which is all the firing result needs.
- Network errors, context deadlines, logging, metrics and goroutine plumbing: a step succeeds, fails or never happens.
- JSON, base64 and cjson encoding; LastErr, CompletedAt and the State field inside the stored JSON.
- Handlers, generics and payload types: a handler is a function from its input to an optional result, and may fail at any call.
- Retry delays and their jitter: any score.
- Redis stream IDs and consumer names: entry numbers grow, and reclaims name their actor.
- Key strings, prefixes and cluster slots: one map per key family.
- Schedule registry, pause set, Inspector views, CLI, web console and Prometheus collectors: input and output, or easy members.
- Order among equal ZSET scores: any.
