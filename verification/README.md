# VolPE scheduling and reconciliation, in Dafny

VolPE's master packs *problems* (containers with a memory need) onto volunteer *workers*. Every five
seconds it computes a schedule and sends each worker one message per schedule entry; workers start and
stop containers until their counts match. This project models four connected parts and proves what they
keep, over every input and every run.

**Packing** (`Packing`, `Halting`, `Placement`, `Sorting`, `Scheduler`, `Guarantees`). `Packing` is the
greedy packing of one worker as a function. `Scheduler.PrelimScheduler` is the imperative code: a loop
over passes, workers and problems that writes a shared schedule, the workers' records and the instance
counts. `FillSchedule` is proved to make exactly what `Placement.Filled` says, in which every worker is
packed alone; the pass loop over all workers is thereby shown to be the per-worker function. The
guarantees (capacity, saturation, fairness, stability, instance counts) are about every result of
`Filled`. `Halting` says exactly when the loop ends if problems may need no memory.

**Schedule keys** (`Schedules`). The flat map keyed by `problemID + "@" + workerID` is a map on pairs as
long as no ID holds the separator; a key decodes to its own pair exactly then.

**Reconciliation** (`Protocol`, `Cluster`, `Convergence`, `MemoryUse`, `Bookkeeping`, `Sessions`,
`MasterComms`, `WorkerNode`, `EndToEnd`). `Cluster` is a state machine of sessions, problem changes, fills, single sends
and single message deliveries, in any order. Its invariant is a simulation: the master's
record of a worker is what the worker runs once everything on its way has been handled. `Convergence` draws
the conclusions for every run: no send misses its channel, and removed problems stop for good.
`MemoryUse` says when a worker stays within its memory. `Bookkeeping` says what the master reports, when
listed IDs stay distinct, and that the memory it packs is the memory that the worker announced.
`Sessions` is a machine of its own for sessions that overlap and ticks that wait: it says when a tick can
end. `EndToEnd` joins the cluster to the containers that run on a worker node. `MasterComms` is the code of
a tick and of the sessions, `WorkerNode` the code that handles a message; both are proved against the same
functions that `Cluster` steps by.

**Containers and images** (`Contexts`, `Containers`, `ContainerGuarantees`, `ContainerManagers`,
`ProblemStores`, `ImageTransfer`). The container manager draws random container IDs, which may collide;
what runs is decided by a tree of cancellation contexts. The image transfer is a sender with one reused
buffer and a receiver with an `int32` counter.

## Conventions

- Memory is counted in integer units. `int32` values wrap explicitly (`Int32.Wrap`).
- What the program gets from outside is a parameter: byte counts of reads, drawn numbers, outcomes of
  container starts and of fetches. Go's map iteration order is any order.
- Lemmas switch automatic induction off; every induction is written out.
- Classes carry the fields of the Go structs that their methods update. A ghost function gives the value
  of the whole object (`State`), and each method's contract relates old and new value.

## Where the code differs from what one might expect

- sched.md speaks of target instance counts per problem. The packing loop has no such cap
  (scheduler/prelim_scheduler.go:100-109), so none is claimed.
- A problem that is packed to zero instances gets no entry, and a worker that runs it goes on running it:
  memory can be exceeded across fills (`MemoryUse.OverloadAcrossFills`; exactly when, in
  `MemoryUse.StaysWithinMemory`).
- A worker's channel stays registered after it has left. A tick that is to send to it waits; it can end
  if the worker reconnects before the call is made (`Sessions.ReconnectFrees`), and never ends if the call
  already waits on the old channel (`Sessions.DeadForever`, `Sessions.CanEndUnlessDead`).
- The buffer is sent whole after every read, so a received image is padded to whole chunks, and a short
  read in the middle corrupts it (`ImageTransfer.PrefixArrivesIff`, `ImageTransfer.TransferIsExact`).
- A container whose random ID is taken replaces the other one's entry and leaves it running until the
  problem is untracked (`ContainerGuarantees.RunningIsCounted`).
- A problem that is removed and added again before the next fill is packed and counted, but its entries
  are zeroed (`Guarantees.InstanceCountIsSum`, `Guarantees.ReaddedIsMiscounted`).

## Model

| member | source | states |
|---|---|---|
| Schedules.RoundTrip | scheduler/schedule.go:16-26 | Decoding a key gives back the worker and the problem it was made from if and only if neither ID holds `@` |
| Schedules.KeyInjective | scheduler/schedule.go:16-18 | Two pairs of `@`-free IDs share a key only if they are the same pair |
| Schedules.KeyIsShared | scheduler/schedule.go:16-18 | A pair shares its key with some other pair if and only if one of its IDs holds `@` |
| Schedules.KeyClash | scheduler/schedule.go:16-18 | A concrete pair of pairs that share a key once an ID holds `@` |
| Schedules.JoinSplit | scheduler/schedule.go:20-26 | Encoding inverts decoding on every key that splits in two |
| Schedules.PairsCount | scheduler/schedule.go:5-18 | A schedule with clean keys stands for a map on pairs with exactly as many entries |
| Schedules.Schedule.Get | scheduler/schedule.go:7-14 | On `@`-free IDs a lookup is a lookup in the map on pairs, absent meaning 0 |
| Schedules.Schedule.Set | scheduler/schedule.go:16-18 | On `@`-free IDs a write updates that pair of the map and no other |
| Schedules.Schedule.Reset | scheduler/schedule.go:29-33 | The loop of deletions leaves the empty map |
| Schedules.Schedule.Apply | scheduler/schedule.go:20-27 | The callback is called once for every stored pair, with its value, and for nothing else, in whatever order the keys come |
| Schedules.Schedule.ToDictOfDicts | scheduler/schedule.go:35-44 | The nested map holds exactly the stored pairs with their values, and a row only for a worker that has one |
| Sorting.SortFunc | scheduler/prelim_scheduler.go:69-75 | Some permutation of the input in descending order of the key; ties in any order |
| Packing.MisfitForever | scheduler/prelim_scheduler.go:115-140 | A problem that fails to fit in one pass over a worker fits in no later pass |
| Packing.CountIsPrefix | scheduler/prelim_scheduler.go:115-140 | The passes that give a problem an instance are the first ones: a count says exactly which passes placed it |
| Packing.ProductivePrefix | scheduler/prelim_scheduler.go:113-140 | The passes that place something on a worker are exactly the first `Passes` ones |
| Packing.NothingFitsInNothing | scheduler/prelim_scheduler.go:118-121 | Skipping a worker without memory has the effect of a whole pass over it |
| Packing.Stable | scheduler/prelim_scheduler.go:113-140 | Once a worker is packed no further pass, whole or partial, changes its counts or its remaining memory |
| Packing.Conservation | scheduler/prelim_scheduler.go:117-138 | At every point of the loop a worker's memory is what remains plus what its instances use |
| Packing.Saturated | scheduler/prelim_scheduler.go:113-140 | A packed worker is not over its memory, and no further instance of any problem fits |
| Packing.HalfUtilised | scheduler/prelim_scheduler.go:113-140 | If any problem fits in the whole worker then more than half of the worker is allocated |
| Packing.Fair | scheduler/prelim_scheduler.go:115-140 | A problem that needs at least as much memory as another gets at most one instance more |
| Packing.FairShare | scheduler/prelim_scheduler.go:115-140 | Every problem gets at least as many instances as whole sets of all problems fit in the worker |
| Packing.PassesIsLargestCount | scheduler/prelim_scheduler.go:113-140 | The productive passes on a worker are as many as the instances of its most replicated problem |
| Packing.PassBound | scheduler/prelim_scheduler.go:113-140 | There are at most `memory / smallest problem` productive passes on a worker, and none with negative memory |
| Packing.OneDescendingOrder | scheduler/prelim_scheduler.go:69-75 | A multiset of memories has one descending order, so ties cannot change counts by position |
| Halting.EndsIffSettled | scheduler/prelim_scheduler.go:113-140 | For problem memories of any sign in sorted order: the loop ends if and only if every worker has no memory, or every problem needs some, or the least demanding needs exactly none and the others fill the worker to the last unit |
| Halting.QuietStays | scheduler/prelim_scheduler.go:116-139 | A worker on which a pass changes nothing changes in no later pass |
| Halting.PositiveEnds | scheduler/prelim_scheduler.go:113-140 | Positive problem memories are enough for the loop to end, whatever the workers have |
| Halting.FreeProblemNeverEnds | scheduler/prelim_scheduler.go:113-140 | With one problem that needs no memory and a worker with memory the loop never ends |
| Placement.TallyIsCount | scheduler/prelim_scheduler.go:122-135 | With distinct IDs the instances counted by ID are those of the problem's position |
| Placement.PlacedInFirstPass | scheduler/prelim_scheduler.go:115-140 | A problem ID gets instances on a worker if and only if a problem with it fits in the first pass, duplicate IDs included |
| Placement.PackBoardMatches | scheduler/prelim_scheduler.go:122-135 | One worker's turn writes schedule entries, worker record and instance counts that all agree with the instances placed |
| Placement.LoopBoardMatches | scheduler/prelim_scheduler.go:113-140 | After any number of passes over all workers, entries, records and counts agree with what each worker would get if it were packed alone |
| Placement.LoopPacks | scheduler/prelim_scheduler.go:113-140 | At the end of the loop they agree with the packed workers |
| Placement.MaxIsPassesMade | scheduler/prelim_scheduler.go:113-116 | The loop makes one pass more than the largest number of productive passes on a worker |
| Scheduler.PrelimScheduler.FillSchedule | scheduler/prelim_scheduler.go:63-153 | The new state and the schedule are exactly a filled schedule of the old state: sorted problems, every worker packed on its own memory, records overridden, removed problems zeroed and dropped, counts totalled; and the exact number of passes |
| Scheduler.PrelimScheduler.Place | scheduler/prelim_scheduler.go:128-131 | One more instance in the schedule, in the worker's record and in the instance count |
| Scheduler.PrelimScheduler.PackWorker | scheduler/prelim_scheduler.go:122-135 | One pass over a worker leaves the memory, the entries and the change count that the packing function says |
| Scheduler.PrelimScheduler.VisitWorker | scheduler/prelim_scheduler.go:118-138 | The same with the skip of workers without memory |
| Scheduler.PrelimScheduler.PackPass | scheduler/prelim_scheduler.go:116-139 | A pass over all workers: every worker's turn, its remaining memory, and whether anything changed |
| Scheduler.PrelimScheduler.Pack | scheduler/prelim_scheduler.go:113-140 | The loop ends after one unproductive pass, with the board of that many passes |
| Scheduler.PrelimScheduler.ResetCounts | scheduler/prelim_scheduler.go:77-79 | The counts of the listed problems are 0 and no other count changes |
| Scheduler.PrelimScheduler.SortedWorkers | scheduler/prelim_scheduler.go:81-98 | Every registered worker once, in descending order of memory |
| Scheduler.PrelimScheduler.ClearRemoved | scheduler/prelim_scheduler.go:142-150 | Every removed problem is zero in the schedule and absent from the record of every worker; the list is empty |
| Scheduler.PrelimScheduler.AddWorker | scheduler/prelim_scheduler.go:31-43 | A new record with the given memory and CPU count and an empty schedule is registered under the ID, in place of any old one; the records of all other workers, the problems, the remove list and the counts stay |
| Scheduler.PrelimScheduler.RemoveWorker | scheduler/prelim_scheduler.go:56-61 | The record under the ID goes; the records of all other workers stay |
| Scheduler.PrelimScheduler.AddProblem | scheduler/prelim_scheduler.go:203-213 | The problem is appended unless the very same metadata is listed; its instance count reads 0 afterwards, and no other count changes |
| Scheduler.PrelimScheduler.RemoveProblem | scheduler/prelim_scheduler.go:185-195 | The first problem with the ID leaves the list, the others keep their order; the ID joins the remove list, its instance count reads 0 and every other count stays; an unknown ID changes nothing |
| Scheduler.PrelimScheduler.GetWorkers | scheduler/prelim_scheduler.go:155-177 | One copy of every worker's record, with its memory, CPU count and schedule, and no other |
| Guarantees.EntryMeaning | scheduler/prelim_scheduler.go:127-148 | The entries of a filled schedule are exactly the positive placements and the removal zeros |
| Guarantees.WorkersAreIndependent | scheduler/prelim_scheduler.go:81-140 | For one problem order, what a worker gets depends on its memory alone: not on other workers, their order, or what ran before |
| Guarantees.Capacity | scheduler/prelim_scheduler.go:106-140 | The schedule of a worker fits in its memory; with nothing removed, no problem fits on top and more than half is used if any problem fits at all |
| Guarantees.LoopBound | scheduler/prelim_scheduler.go:113-140 | The whole fill makes at most `1 + most / least` passes |
| Guarantees.ScheduleIsFair | scheduler/prelim_scheduler.go:115-140 | In a filled schedule a problem has at most one instance more on a worker than any problem that needs no more memory |
| Guarantees.ScheduleShare | scheduler/prelim_scheduler.go:115-140 | In a filled schedule every problem has its full share on every worker |
| Guarantees.TiesDoNotMatter | scheduler/prelim_scheduler.go:69-140 | Two fills of one state that break ties differently agree position by position, and leave every worker the same memory |
| Guarantees.RefillIsStable | scheduler/prelim_scheduler.go:63-153 | With distinct memories and nothing to remove, filling again changes neither order, records nor schedule |
| Guarantees.InstanceCountIsSum | scheduler/prelim_scheduler.go:197-201 | A scheduled problem's instance count equals the sum of its entries over all workers if and only if it was not waiting for removal or fits in no worker's first pass |
| Guarantees.ReaddedIsMiscounted | scheduler/prelim_scheduler.go:77-148 | A problem that is removed and added again before the fill has a count that differs from the sum of its entries |
| Guarantees.SmallCountsFit | scheduler/prelim_scheduler.go:127-131 | Counts fit in `int32` if the worker has room for at most that many instances of the smallest problem |
| Protocol.LastMessageWins | worker/worker.go:195-236 | After any messages each problem has the count of its last message, zero meaning untracked |
| Protocol.BatchOrderDoesNotMatter | master/master.go:169-185 | Two orders of a batch about distinct problems have the same effect |
| Protocol.BatchOf | master/master.go:169-185 | The calls of a tick give each worker one message per entry it has, with the entry's value |
| Cluster.FillDelivers | scheduler/prelim_scheduler.go:128-148 | The messages of a fill turn a worker's old record into its new one, stale entries and removal zeros included |
| Cluster.EntryOrRecord | scheduler/prelim_scheduler.go:127-148 | After a fill a record agrees with the entries where there are any, a zero meaning absent, and is as before where there are none |
| Cluster.RecordedAfterFill | scheduler/prelim_scheduler.go:127-148 | After a fill a worker's record holds listed problems only, and none that was removed |
| Cluster.ConnectKeeps | comms/volpe/master.go:194-198 | A new session keeps the invariant |
| Cluster.RegisterKeeps | comms/volpe/master.go:200-204 | Adding the worker to the scheduler keeps the invariant |
| Cluster.BreakKeeps | comms/volpe/master.go:80-85 | The end of a stream keeps the invariant |
| Cluster.UnregisterKeeps | comms/volpe/master.go:224-225 | Removing the worker from the scheduler keeps the invariant |
| Cluster.AddKeeps | scheduler/prelim_scheduler.go:203-213 | Adding a problem keeps the invariant |
| Cluster.RemoveKeeps | scheduler/prelim_scheduler.go:185-195 | Removing a problem keeps the invariant |
| Cluster.FillKeeps | master/master.go:158-167 | The fill of a tick keeps the invariant |
| Cluster.SendKeeps | master/master.go:169-185 | Each send of a tick keeps the invariant |
| Cluster.HandleKeeps | worker/worker.go:195-236 | A worker's handling of a message keeps the invariant |
| Cluster.NextKeeps | master/master.go:158-194 | Every step of master, sessions and workers keeps the invariant: what a worker runs once its pending messages are handled is what the master records |
| Cluster.RunKeeps | master/master.go:189-194 | So it holds in every reachable state |
| Convergence.EverySendFindsItsChannel | comms/volpe/master.go:317-321 | In every reachable state every registered worker, and every worker of an unsent entry, has a channel: no send reports an unknown worker |
| Convergence.WorkersConverge | scheduler/prelim_scheduler.go:128-131 | In every reachable state the master's record of a live worker is its container counts after all pending messages, and its actual counts once none is pending |
| Convergence.RejoinDuringTick | master/master.go:169-185 | A session that starts while a tick still holds calls for its worker agrees with the record if and only if those calls ask for nothing |
| Convergence.RemoveWaits | scheduler/prelim_scheduler.go:185-195 | A removal takes an ID off the problem list if and only if it was listed once |
| Convergence.RemovalIsSent | scheduler/prelim_scheduler.go:142-150 | The first fill after a removal carries a zero for every registered worker |
| Convergence.NextWhenGone | scheduler/prelim_scheduler.go:142-150 | Later fills carry no entry for the problem unless it is added again |
| Convergence.NoEntryAfterRemoval | scheduler/prelim_scheduler.go:142-150 | In every run, the fills after the first one that follows a removal carry no entry for the problem unless it is added again |
| Convergence.RemovalIsFinal | scheduler/prelim_scheduler.go:142-150 | Once a fill has followed the removal, a worker with nothing pending does not run the problem |
| Convergence.SendUnlessStuck | comms/volpe/master.go:317-325 | In a tick the next send can be made if and only if it is not for a known worker whose session takes no messages |
| Convergence.TickCanFinish | master/master.go:169-185 | A tick can be finished by its sends if and only if each of its calls is for an unknown worker or one with a live session |
| Convergence.NextWhenStuck | comms/volpe/master.go:317-325 | Short of a reconnect of the worker, no step of any kind frees a send that cannot be made |
| Convergence.StuckWithoutReconnect | master/master.go:158-194 | In runs without reconnects during a tick, no send and no fill happens any more, and the unsent calls stay as they are |
| Convergence.StuckIsReached | comms/volpe/master.go:205-224 | A run that gets there: a removal, a fill, and the worker leaves before the send |
| Sessions.NextKeeps | comms/volpe/master.go:195-225 | Every step keeps the invariant of sessions and channels, with any reconnects: known workers and the workers of calls have a channel, and a waiting send is for the worker in front |
| Sessions.EveryCallFindsAChannel | comms/volpe/master.go:317-321 | In every run, whoever reconnects when, no call is for an unknown worker |
| Sessions.DeadForever | comms/volpe/master.go:317-325 | A send made on the channel of a session that is over stays, whoever reconnects: no other send is made and no tick begins |
| Sessions.CanEndUnlessDead | master/master.go:158-187 | A tick can come to its end, with reconnects as needed, if and only if its send does not wait on the channel of a session that is over |
| Sessions.CanEndAsIsUnlessDoomed | master/master.go:158-187 | Without reconnects a tick can come to its end if and only if none of its calls is for a session that is over |
| Sessions.DeadIsReached | comms/volpe/master.go:317-325 | A run that ends in such a send: the worker leaves while its call waits |
| Sessions.ReconnectFrees | comms/volpe/master.go:195-204 | A run in which the worker leaves with its call still to be made, is back before that, and the tick ends |
| MemoryUse.OrderInAdvance | scheduler/prelim_scheduler.go:69-75 | With distinct memories the order of packing is known before the fill |
| MemoryUse.EntryInAdvance | scheduler/prelim_scheduler.go:115-148 | A problem gets an entry on a worker if and only if it is being removed or fits in the first pass: known before the fill |
| MemoryUse.ScheduledLoad | scheduler/prelim_scheduler.go:106-148 | What is scheduled on a worker, what is withheld because it waits for removal, and the rest make up its memory |
| MemoryUse.RecordedLoad | scheduler/prelim_scheduler.go:127-148 | The load a fill records for a worker is what it schedules plus what it leaves running without an entry |
| MemoryUse.RecordsArePositive | scheduler/prelim_scheduler.go:130-145 | In every reachable state every recorded count is positive |
| MemoryUse.MemoryInUse | scheduler/prelim_scheduler.go:127-148 | With nothing pending, a worker runs listed problems only, and its memory in use, what is withheld and the rest add up to its memory plus what the last fill left running |
| MemoryUse.StaysWithinMemory | scheduler/prelim_scheduler.go:106-148 | With nothing pending, and for the order in which the fill breaks ties, a worker stays within its memory if and only if what the fill leaves running fits in the rest and what is withheld; with no problem added again while it waits for removal, if and only if every problem it had recorded is being removed or fits in the first pass |
| MemoryUse.OverloadAcrossFills | scheduler/prelim_scheduler.go:127-148 | For any two problems that fit a worker singly but not together, adding the larger one after the smaller one was packed ends with the worker over its memory |
| MemoryUse.ReaddedLeavesRoom | scheduler/prelim_scheduler.go:142-148 | With a problem added again while it waits for removal, a worker can stay within its memory although a recorded problem fits in no first pass |
| Bookkeeping.FillKeepsOtherCounts | scheduler/prelim_scheduler.go:77-79 | A fill does not change the instance count of a problem that is not listed |
| Bookkeeping.RemovedCounts | scheduler/prelim_scheduler.go:185-201 | A removal sets the removed problem's count to 0 and changes no other; an unknown ID changes nothing |
| Bookkeeping.UnlistedReportsNone | scheduler/prelim_scheduler.go:197-201 | In every reachable state a problem that is not listed is reported with no instances |
| Bookkeeping.RemovedReportsNone | scheduler/prelim_scheduler.go:185-201 | After the removal of a problem that was listed once, it is reported with no instances until it is added again, whatever is filled in between |
| Bookkeeping.ReportsWhatIsScheduled | scheduler/prelim_scheduler.go:197-201 | From one fill to the next, a listed problem is reported with the instances that the fill has scheduled, unless it waited for removal or is added or removed in between |
| Bookkeeping.AddKeepsDistinct | scheduler/prelim_scheduler.go:203-213 | Adding a problem keeps the listed IDs distinct if and only if the very same problem is listed or the ID is not |
| Bookkeeping.IdsStayDistinct | scheduler/prelim_scheduler.go:185-213 | The listed IDs are distinct throughout a run if and only if no problem is added under an ID listed with other metadata |
| Bookkeeping.RegisteredAsAnnounced | comms/volpe/master.go:200-204 | In every reachable state the memory and CPU count of a registered worker are those of its last hello message |
| Bookkeeping.ScheduledWithinAnnounced | scheduler/prelim_scheduler.go:106-140 | With distinct problem IDs, no fill schedules more on a worker than the memory that it announced |
| Bookkeeping.StaysWithinAnnounced | scheduler/prelim_scheduler.go:106-148 | With distinct problem IDs and no problem added again while it waits for removal, a worker with nothing pending stays within the memory it announced if and only if every problem it had recorded is being removed or fits in the first pass over that memory |
| Contexts.CancelMore | container_mgr/contmanager.go:338-345 | Cancelling one context after others cancels exactly what hangs below any of them |
| Contexts.NothingUnderDone | container_mgr/contmanager.go:134-145 | Nothing runs under a cancelled context |
| Containers.GroupSize | container_mgr/contmanager.go:325-332 | Growing by `n` adds `n` entries less the collisions of the drawn IDs |
| Containers.GroupLive | container_mgr/contmanager.go:325-332 | Growing by `n` adds `n` running containers, collisions or not |
| Containers.FreshIsNoCollision | container_mgr/contmanager.go:326-331 | There is no collision if and only if the drawn IDs are new and distinct |
| Containers.SameID | container_mgr/contmanager.go:326 | Two draws give the same container ID if and only if they agree modulo 2048; a draw below 2048 is its own ID |
| Containers.TrackKeeps | container_mgr/contmanager.go:112-132 | Tracking keeps the invariant of contexts and entries |
| Containers.UntrackKeeps | container_mgr/contmanager.go:134-145 | Untracking keeps it and cancels the problem's context |
| Containers.GrowKeeps | container_mgr/contmanager.go:318-333 | Growing keeps it after any number of starts |
| Containers.ShrinkKeeps | container_mgr/contmanager.go:334-346 | Shrinking keeps it whichever containers go |
| Containers.DestroyKeeps | container_mgr/contmanager.go:417-419 | Destroying keeps it and cancels the manager's context |
| Containers.NextKeeps | container_mgr/contmanager.go:112-145 | Every operation keeps the invariant, failures included |
| Containers.RunKeeps | container_mgr/contmanager.go:50-56 | So it holds in every reachable state |
| ContainerGuarantees.EventReachesTarget | container_mgr/contmanager.go:351-374 | A successful event leaves exactly as many entries as it asks for if and only if the drawn IDs were new and distinct; otherwise fewer by the number of collisions; none for a negative number |
| ContainerGuarantees.DrawsReachTarget | container_mgr/contmanager.go:325-332 | A successful growing event leaves exactly as many entries as it asks for if and only if the numbers drawn are pairwise different modulo 2048 and none is a used ID modulo 2048 |
| ContainerGuarantees.DrawsAreIDs | container_mgr/contmanager.go:325-332 | After a successful growing event the container IDs are the old ones and the drawn numbers modulo 2048 |
| ContainerGuarantees.TooManyInstances | container_mgr/contmanager.go:325-332 | Above 2048 instances at least the surplus collides in every such event |
| ContainerGuarantees.CollisionLosesAContainer | container_mgr/contmanager.go:325-332 | Two concrete draws after which two containers run and one has an entry |
| ContainerGuarantees.ShrinkStopsRemoved | container_mgr/contmanager.go:334-346 | Shrinking stops exactly the containers whose entries it drops |
| ContainerGuarantees.NextSurplus | container_mgr/contmanager.go:315-348 | What each operation adds to the running containers that have no entry |
| ContainerGuarantees.RunningIsCounted | container_mgr/contmanager.go:315-348 | In every run without `Destroy` a tracked problem has as many running containers as entries plus entries overwritten since it was tracked |
| ContainerGuarantees.UntrackedStaysStopped | container_mgr/contmanager.go:134-145 | After an untrack nothing of that tracking runs in any later state, overwritten containers included |
| ContainerGuarantees.NothingRunsUntracked | container_mgr/contmanager.go:126-129 | In every reachable state each running container belongs to a tracked problem |
| ContainerGuarantees.DestroyIsFinal | container_mgr/contmanager.go:417-419 | After `Destroy` nothing runs, nor anything started later |
| ContainerManagers.ContainerManager.TrackProblem | container_mgr/contmanager.go:112-132 | An unknown problem is an error, a tracked one stays as it is, a new one gets a record without containers and a new context below the manager's |
| ContainerManagers.ContainerManager.UntrackProblem | container_mgr/contmanager.go:134-152 | The record goes and its context is cancelled; an unknown problem is an error and changes nothing |
| ContainerManagers.ContainerManager.Grow | container_mgr/contmanager.go:325-332 | The loop makes the missing starts and stops at the first that fails, with the earlier ones kept; the new container IDs are the drawn numbers modulo 2048 |
| ContainerManagers.ContainerManager.Shrink | container_mgr/contmanager.go:336-345 | The loop stops and drops as many containers as are too many: exactly the number asked for stay, none for a negative number |
| ContainerManagers.ContainerManager.AdjustInstances | container_mgr/contmanager.go:315-348 | Fewer instances always succeed and leave exactly that many entries; more fail without a change for a problem that is not stored, and else add the IDs drawn modulo 2048 up to the first failed start; the invariant holds |
| ContainerManagers.ContainerManager.HandleInstancesEvent | container_mgr/contmanager.go:351-374 | Zero untracks and succeeds even for an untracked problem, any other number is an error for an untracked problem and else adjusts |
| ContainerManagers.ContainerManager.Destroy | container_mgr/contmanager.go:417-419 | Everything below the manager's context is cancelled, so that no context of it is live; the records stay |
| WorkerNode.Worker.HandleAdjust | worker/worker.go:202-234 | One message: fetch only if the stored problem is missing or names no image, track if untracked, adjust; a failed fetch changes nothing, and otherwise the problem is tracked afterwards if and only if the number is not zero |
| WorkerNode.Worker.HandleAll | worker/worker.go:196-235 | The handler's loop makes one such step per message, in order |
| WorkerNode.OthersUntouched | worker/worker.go:202-234 | Whatever fails, a message does not change the containers of another problem |
| WorkerNode.StoreIsFetched | worker/worker.go:205-218 | From an empty store on, the stored problems are those with an earlier message whose fetch worked, and each names its image |
| WorkerNode.FetchedOnce | worker/worker.go:205-206 | Once a message about a problem had a fetch that works, every later message about it leaves the store as it is and adjusts the containers, whether or not a fetch would work; zero untracks, a negative number leaves no container |
| WorkerNode.NotYetFetched | worker/worker.go:207-219 | Before that, a message about the problem whose fetch fails changes nothing, and one whose fetch works stores the problem and tracks it unless the number is zero |
| WorkerNode.SmoothStepDelivers | worker/worker.go:202-234 | A message without failures or collisions has exactly the effect that the master counts on |
| WorkerNode.NodeDeliversAll | worker/worker.go:195-236 | So have any number of messages |
| WorkerNode.NodeConverges | worker/worker.go:195-236 | After smooth messages with non-negative counts each problem has the count of its last message |
| WorkerNode.NodeRunsWhatIsAsked | worker/worker.go:195-236 | After smooth messages the running containers, counted by their contexts, are those that the messages ask for |
| EndToEnd.CountsAreHandled | worker/worker.go:195-236 | Since its connection, a worker of the cluster has the counts that the messages it handled make |
| EndToEnd.WorkerRunsTheRecord | worker/worker.go:195-236 | A worker node that handles its session's messages smoothly runs, by its containers' contexts, what the master has recorded once nothing is pending |
| ImageTransfer.SendChunks | comms/volpe/master.go:261-274 | The sending loop sends the whole reused buffer after every read: as many chunks as reads, of 512 bytes each |
| ImageTransfer.SendProblemData | comms/volpe/master.go:228-276 | An unknown problem is an error, an image that cannot be opened an empty stream, else the details and the chunks |
| ImageTransfer.ReceiveChunks | comms/volpe/worker.go:153-168 | The receiving loop appends chunks until its wrapped `int32` counter reaches the announced size, or fails |
| ImageTransfer.ReceiveProblemData | comms/volpe/worker.go:118-176 | The metadata of a successful transfer, none otherwise, and what is in the image file in both cases |
| ImageTransfer.TransferOutcome | comms/volpe/worker.go:142-168 | For every file and every pattern of reads: whether the receiver succeeds, and what it then has, which after a failure is all the chunks |
| ImageTransfer.FullReadsStop | comms/volpe/master.go:261-274 | With full reads and at most 2^31 - 512 bytes both loops stop after the same `ceil(size / 512)` chunks, the file is a prefix of what arrives, and that is whole chunks long |
| ImageTransfer.FullReadsArrive | comms/volpe/master.go:246-274 | Every byte that arrives after full reads: the file, then the previous chunk's bytes, or zeros for a file of one chunk |
| ImageTransfer.ShortReadCorrupts | comms/volpe/master.go:261-274 | After any short read before the last one there is a file that arrives wrong |
| ImageTransfer.TooLarge | comms/volpe/worker.go:142-168 | A file above the limit never arrives: below 2^31 bytes the receiver fails, above it fails or stops too early |
| ImageTransfer.PrefixArrivesIff | comms/volpe/master.go:244-274 | Every file of a size is at the start of what arrives if and only if the size is at most 2^31 - 512 and every read but the last returns 512 bytes |
| ImageTransfer.TransferIsExact | comms/volpe/master.go:244-274 | Every file of a size arrives byte by byte with nothing after it if and only if, in addition, the size is a multiple of 512 |
| ImageTransfer.FetchProblem | comms/volpe/worker.go:118-176 | Sender and receiver together: when metadata is fetched, which, and what is in the file; with full reads, the image at the start of `512 * ceil(size / 512)` bytes |
| MasterComms.MasterComms.OpenSession | comms/volpe/master.go:194-204 | The channel is registered before the worker, with the announced memory and CPU count, so every known worker has a channel |
| MasterComms.MasterComms.CloseSession | comms/volpe/master.go:224-225 | The worker leaves the scheduler and its channel stays |
| MasterComms.UnknownIsCount | master/master.go:182-185 | The failures counted among the first calls are the calls whose worker has no channel |
| MasterComms.MasterComms.SendAll | master/master.go:169-185 | The calls are made up to the first one for a known worker that takes no messages; every known worker's queue grew by its own messages in order, and the failures are the calls for unknown workers |
| MasterComms.MasterComms.FillAndVisit | master/master.go:158-169 | The schedule is filled and each of its entries visited once; all are for workers that have a channel |
| MasterComms.MasterComms.UpdateAndSendSchedOnce | master/master.go:158-187 | A tick fills the schedule and sends one message per entry, none for an unknown worker, and all of them unless one waits for a worker that takes none |
| MasterComms.TickDelivers | master/master.go:158-187 | A worker that handles a tick's messages after all earlier ones runs what the master then records |

## Left out

- Scheduler.PrelimScheduler.FillSchedule: requires positive problem memories; `Halting.EndsIffSettled` gives the exact condition under which the loop ends without them. It also requires `@`-free IDs, without which keys are shared (`Schedules.KeyIsShared`).
- Guarantees.Capacity: assumes counts that fit in `int32`; beyond that the schedule's values wrap as in the code, and no capacity is claimed for wrapped values. `Guarantees.SmallCountsFit` gives a condition on the input. The same holds for the fill step of `Cluster`.
- Guarantees.ScheduleIsFair: assumes counts that fit in `int32`, as `Guarantees.Capacity` does.
- Guarantees.ScheduleShare: assumes counts that fit in `int32`, as `Guarantees.Capacity` does.
- Cluster.FillKeeps: a fill step has positive problem memories and counts that fit in `int32`.
- Scheduler.PrelimScheduler.GetWorkers: the metrics in the copies are not part of the model.
- Cluster.ConnectKeeps: a session starts only when no other session uses its ID and the current tick holds no call for it, and with an empty worker; `Convergence.RejoinDuringTick` says when the record would still agree, and `Sessions` allows any overlap.
- Cluster.SendKeeps: a send to a worker that is not live has no step, as it blocks there in the code; `Convergence.StuckWithoutReconnect` and `Sessions` state the consequences.
- Cluster.HandleKeeps: a worker of the cluster handles every message successfully and without ID collisions; `WorkerNode` and `ContainerGuarantees` state what failures and collisions do on one node.
- Convergence.RemovalIsFinal: for a problem listed once under its ID; `Convergence.RemoveWaits` shows that this is needed.
- ImageTransfer.SendChunks: a file that shrinks while it is sent, on which the loop would go on sending, and failing reads or sends.
- ImageTransfer.SendProblemData: as for `ImageTransfer.SendChunks`.
- ImageTransfer.ReceiveChunks: failing writes.
- ContainerManagers.ContainerManager.Grow: a start that fails after its image is running, which leaves a container that nothing stops.
- ContainerManagers.ContainerManager.Shrink: failing removals of stopped containers.
- Floating-point memory and its rounding; overflow of the 64-bit instance counts.
- Metrics, the event stream, result listeners, the HTTP interface, configuration, and the generated protocol code.
- Podman and gRPC: a container start succeeds or fails, a stream is a queue.
- Migration of populations between containers.
- The `IslandCount` and `CpuCount` of problems and workers, which the packing loop does not read.
- Mutexes: each locked operation is one step, except a tick, whose sends are steps of their own.
- Go's sorting algorithm, whose comparator never reports a tie: any descending permutation is allowed.
