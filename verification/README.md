# norn: timer wheel, tasks and io_uring protocols

A Dafny model of the parts of the norn runtime on which everything else rests, with proofs
about all inputs, all runs and all reachable states.

* **Timer wheel** (`norn-timer`). Six levels of 64 slots, one 64-bit occupancy word a level.
  `Words` and `Ticks` tie the bit operations to base-64 arithmetic. `WheelSpec` states the
  operations on values; `WheelPlacement` and `WheelAdvance` prove where timers are and that
  the search finds the earliest slot, also while `advance` moves time in mid-loop;
  `WheelRefinement` proves that the wheel behaves as a plain map from timer to deadline, and
  `WheelHorizon` exactly when; `WheelCascade` bounds how often a timer moves. `Wheels` holds
  the classes with the slots and words. `Sleeps` states what the polls of sleeping futures
  answer over whole runs, and `TimerDriver` holds the driver that keeps them on the wheel.
* **Tasks** (`norn-task`). `TaskModel` describes the task system by the handles that exist,
  without counting them: runnables, the task set, join handles, wakers held outside and
  wakers stored in other cells. The future is an arbitrary environment: a poll is a `Begin`
  and a later `End`, and anything may happen in between except a shutdown. `TaskInvariant`,
  `TaskSteps` and `TaskKeeps` prove the invariant, `TaskProgress` and `TaskJoins` what every
  step respects, `TaskRuns`, `TaskAborts`, `TaskShutdown`, `TaskResults`,
  `TaskCancels`, `TaskHandles` and `TaskOrder` the theorems about whole runs. `TaskCells`
  holds the state transitions with the assertions of the program as preconditions, and the
  class of `TaskRuntime` runs them on counted cells; it is proved to do to the handles what
  the model says, with the count in every cell equal to the number of its handles
  (`TaskCounts`). That no assertion can fail is part of this proof.
* **io_uring protocols** (`norn-uring`). Four state machines, each with a class that keeps the
  fields of the program: the waiter list (`Notifies`), the buffer ring with its wrapping
  16-bit tail (`BufferRings`), the cross-thread unparker (`Unparking`), and the operation cell
  shared with the kernel (`Operations`). The kernel is an environment that takes any step the
  protocol allows.

Five places where the program is not what it seems, each with its exact condition:

* A timer 64 or more top-level slots ahead is accepted, and hides nearer timers when its
  slot becomes the current one. `WheelHorizon.HorizonIsExact` shows that being at most 63
  slots of 2^30 ms ahead at registration is both enough and needed;
  `WheelHorizon.SecondTimerIsMissed` is a run from a new wheel that fails.
* A wake that finds the park bit clear is not followed by a write, before the first park or
  between two later ones. The remote bit then stays set, and the reactor never blocks again.
  `Unparking.UnparkedWakeTraps` shows that the park bit at the wake decides it, in every run.
  It loses no wake by that.
* The comment on `JoinHandle::abort` says that a task aborted before it completed resolves
  to an error. That holds if and only if its future was not being polled when it was aborted
  (`TaskAborts.AbortDecides`); a poll in progress that returns ready still delivers its
  output (`TaskAborts.AbortedTaskFinishes`).
* The comment on `Notify::wait` promises that n notified waiters complete their wait. A call
  with fewer than n waiters issues fewer than n permits (`Notifies.ShortOfWaiters`), and the
  permits issued all complete a wait or can do so if and only if no fired waiter was dropped
  while none was linked (`Notifies.PermitsCompleteUnlessLost`, `Notifies.PermitIsLost`).
* The comment on `Sleep::reset` says that the next poll starts the sleep over. The state is
  left as it is, so a sleep that has fired is ready at once, and one that was registered is
  pending without a timer. `Sleeps.ResetStartsOver` shows that the promise holds if and only
  if the sleep was never polled, or has fired and has no length.

The calendar of the wheel counts milliseconds since its creation; deadlines are relative to
its elapsed time, which can lag the clock.

## Model

| member | source | states |
|---|---|---|
| `Words.RotationFindsFirst` | norn-timer/src/level.rs:123-133 | rotating the occupancy word right by the current slot, truncated to 32 bits, and counting trailing zeros gives the distance to the first set bit, going round from the current one |
| `Words.TrailingZerosIsLowest` | norn-timer/src/level.rs:128-130 | no bit below the number of trailing zeros is set, and the bit there is, unless the word is zero |
| `Words.LeadingZerosIsHighest` | norn-timer/src/wheels.rs:170-174 | no bit above 63 less the number of leading zeros is set, and the bit there is, unless the word is zero |
| `Ticks.LevelIsLeast` | norn-timer/src/wheels.rs:158-175 | the level of a timer is 5 or the least level at which both times agree after division by 64^(level+1) |
| `Ticks.WheelForIsLevelFor` | norn-timer/src/wheels.rs:158-175 | for all 64-bit times the XOR, mask, cap and leading-zero computation gives that level |
| `Ticks.SlotIsBlockDigit` | norn-timer/src/level.rs:176-178 | the slot of a deadline on a level is its base-64 digit there |
| `Ticks.LevelNeverRises` | norn-timer/src/wheels.rs:158-175 | as time moves towards a deadline the level of the timer does not rise |
| `WheelPlacement.FirstOccupiedIsFirst` | norn-timer/src/level.rs:123-133 | the slot the search on one level finds is the first occupied one from the current slot on, going round |
| `WheelPlacement.LevelDeadline` | norn-timer/src/level.rs:69-121 | on a level whose timers are in place the expiration is the start of the first occupied slot, 1 to 63 slots ahead |
| `WheelPlacement.LowerLevelsDoNotWrap` | norn-timer/src/level.rs:79-106 | below the top level the slot found starts later in the current rotation, in every sound wheel, so the debug assertion that only the top level wraps holds |
| `WheelPlacement.EarliestOverall` | norn-timer/src/wheels.rs:114-123 | the lowest-level-first search finds the earliest occupied slot of the whole wheel, the wrapped top level included: every timer of another slot starts later, and time can move to the slot found with all other timers staying in place |
| `WheelPlacement.EarliestBeforeDeadline` | norn-timer/src/wheels.rs:114-123 | what the search finds passes no deadline, and is strictly before those in other slots |
| `WheelPlacement.TimeMovesFreely` | norn-timer/src/wheels.rs:129-139 | time may move to anything before the next expiration and all timers stay in place |
| `WheelPlacement.TimeMovesToSlot` | norn-timer/src/wheels.rs:76-77 | time may move to the next expiration itself, its slot being emptied, and all other timers stay in place |
| `WheelAdvance.FoundWherePlaced` | norn-timer/src/wheels.rs:108-112 | a registered timer is in the slot computed from the current elapsed time, however far that moved since the insertion, so removal finds it |
| `WheelAdvance.InsertKeeps` | norn-timer/src/wheels.rs:94-106 | inserting keeps the placement of all timers |
| `WheelAdvance.AddKeepsSound` | norn-timer/src/wheels.rs:22-31 | adding a timer of any duration, in the horizon or not, keeps the weaker placement that does not speak of the top level |
| `WheelAdvance.RemoveKeeps` | norn-timer/src/wheels.rs:108-112 | removing takes exactly one timer out and keeps the placement of the others |
| `WheelAdvance.TurnKeeps` | norn-timer/src/wheels.rs:61-78 | every turn of the loop, between two moves of the elapsed time, keeps the placement, what is held back and what has fired |
| `WheelAdvance.TurnConserves` | norn-timer/src/wheels.rs:65-75 | a turn loses and duplicates no timer: held, fired and registered ones together stay the same |
| `WheelAdvance.AdvanceKeeps` | norn-timer/src/wheels.rs:56-88 | advancing keeps the placement, conserves the timers and fires only due ones |
| `WheelAdvance.ReturnedExpirationIsFresh` | norn-timer/src/wheels.rs:80-87 | the expiration returned is what a fresh search on the final state finds, also when nothing was held back and it was not searched again |
| `WheelRefinement.AdvanceIsExact` | norn-timer/src/wheels.rs:56-88 | `advance(now)` fires exactly the timers with deadline up to `now`, each once, and the others stay registered with their deadlines |
| `WheelRefinement.AdvanceComposes` | norn-timer/src/wheels.rs:56-88 | advancing to a and then to b fires in total, and leaves, what advancing to b does |
| `WheelRefinement.AdvanceReturnsBound` | norn-timer/src/wheels.rs:80-87 | the returned deadline is after `now` and not after any remaining deadline, and there is none exactly when no timer remains |
| `WheelRefinement.DrainTakesAll` | norn-timer/src/wheels.rs:145-153 | shutting down fails every registered timer once and leaves none |
| `WheelRefinement.ParkPassesNoDeadline` | norn-timer/src/lib.rs:162-177 | while timers remain the inner park gets a timeout up to the next slot that is due, which passes no deadline, or the shorter one asked for if nothing fired; without timers the mode is the one asked for, or no park when timers fired |
| `WheelRefinement.StartHolds` | norn-timer/src/wheels.rs:22-31 | a timer of any duration is registered, fired or refused as by the map, and the wheel then holds the timers of the map; in the horizon it stays exact |
| `WheelRefinement.StepRefines` | norn-timer/src/wheels.rs:17-31 | each operation answers as the plain map from timer to deadline does and keeps representing it |
| `WheelRefinement.RunRefines` | norn-timer/src/wheels.rs:56-153 | over every run of starting, cancelling, advancing and shutting down all answers are those of the plain map |
| `WheelRefinement.NewWheelIsAMap` | norn-timer/src/wheels.rs:34-42 | the same from a new wheel |
| `WheelRefinement.ShortDurationsAreAllowed` | norn-timer/src/wheels.rs:27 | durations of at most 63 * 2^30 ms are in the horizon the refinement needs, at any time |
| `WheelRefinement.TimerFiresWhenDue` | norn-timer/src/wheels.rs:22-88 | a timer of d ms and a rest of less than one, the constants written out, in the horizon of an open wheel, fires at once if d is zero; otherwise it is registered, and an advance fires it if and only if it is given a time at least d later, and keeps it if and only if not |
| `WheelHorizon.HiddenTimerIsMissed` | norn-timer/src/level.rs:123-133 | with a timer one rotation of the top level ahead, a timer of 2^30 ms is hidden behind it and does not fire when due |
| `WheelHorizon.SecondTimerIsMissed` | norn-timer/src/wheels.rs:22-31 | from a new wheel: a timer of 2^36 ms, then one of 2^30 ms; at 2^30 ms the map fires the second and the wheel does not |
| `WheelHorizon.FarTimerBreaksMap` | norn-timer/src/wheels.rs:158-175 | once a timer out of the horizon is registered some run answers otherwise than the map |
| `WheelHorizon.HorizonIsExact` | norn-timer/src/wheels.rs:22-31 | a registered timer leaves the wheel a map for all further runs if and only if `(deadline >> 30) - (elapsed >> 30) <= 63` at its registration |
| `WheelCascade.HeldBackMovesDown` | norn-timer/src/wheels.rs:68-70 | a timer held back belongs on a strictly lower level from then on, so the assertion that nothing is held back from level 0 holds |
| `WheelCascade.LevelsOnlyFall` | norn-timer/src/wheels.rs:79-83 | advancing never raises the level of a timer, and a timer that changes place changes to a lower level |
| `WheelCascade.AtMostFiveMoves` | norn-timer/src/wheels.rs:56-112 | in every run of starting, cancelling, advancing and shutting down a timer changes slots, until it leaves the wheel, at most as often as the level it starts on, so at most five times in its life |
| `WheelCascade.AdvanceWeighsLess` | norn-timer/src/wheels.rs:56-88 | the sum of level + 1 over the timers falls by at least the number fired, and whenever a slot was due |
| `WheelCascade.FireAllFiresAll` | norn-timer/src/tests/prop.rs:60-92 | repeatedly advancing to the returned deadline fires every timer, within six rounds per timer |
| `Wheels.Level.NextOccupiedSlot` | norn-timer/src/level.rs:123-133 | by the occupancy word the method finds the first occupied slot of the level going round; the word has a bit set exactly for each occupied slot, which every method keeps |
| `Wheels.Level.NextExpiration` | norn-timer/src/level.rs:69-121 | the expiration of the level, as the specification of the wheel has it |
| `Wheels.Level.AddEntry` | norn-timer/src/level.rs:136-141 | the timer is put in front of its slot and its bit set |
| `Wheels.Level.RemoveEntry` | norn-timer/src/level.rs:143-159 | the timer is taken out of its slot, the XOR clearing the bit exactly when the slot becomes empty |
| `Wheels.Level.TakeSlot` | norn-timer/src/level.rs:161-164 | the slot is emptied, its bit cleared and its timers returned in order |
| `Wheels.Wheels.NextExpiration` | norn-timer/src/wheels.rs:114-123 | the search over the levels from the lowest up |
| `Wheels.Wheels.Insert` | norn-timer/src/wheels.rs:94-106 | the timer fires if due, is refused after a shutdown, and is placed otherwise |
| `Wheels.Wheels.Add` | norn-timer/src/wheels.rs:22-31 | a zero duration fires at once; any other is inserted with the elapsed time plus its whole milliseconds, cut to 64 bits, as deadline |
| `Wheels.Wheels.Remove` | norn-timer/src/wheels.rs:108-112 | the timer is taken out of the slot computed from the current time, and no other |
| `Wheels.Wheels.SortEntries` | norn-timer/src/wheels.rs:66-75 | of a slot taken, the due timers fire in order and the others are held back, newest first |
| `Wheels.Wheels.Advance` | norn-timer/src/wheels.rs:56-88 | the loop in place computes the specified `advance`: the state, the number fired, the expiration and the timers fired |
| `Wheels.Wheels.Shutdown` | norn-timer/src/wheels.rs:145-153 | every slot is taken and every timer failed |
| `Sleeps.SleepAnswers` | norn-timer/src/entry.rs:41-73 | in every run, from the first poll to the first ready one: a sleep of d ms first polled at t is ready with success exactly from t + d on, and with an error exactly if a shutdown comes before that; until then it is pending and keeps the waker of its last poll |
| `Sleeps.UnpolledStays` | norn-timer/src/entry.rs:75-86 | a sleep that has not been polled stays as created, however much time passes: its time begins with the first poll |
| `Sleeps.ResetStartsOver` | norn-timer/src/entry.rs:88-102 | a reset makes the next poll, whenever it comes, answer like the first of a new sleep of the same length, as documented, if and only if the sleep was never polled, or has fired and has no length |
| `TimerDriver.RegisterIsStart` | norn-timer/src/entry.rs:54-58 | registering a sleep is starting its timer on the plain map, and the sleep hears the outcome of that |
| `TimerDriver.FireDueIsTick` | norn-timer/src/entry.rs:150-156 | firing the due sleeps is a tick of the plain map |
| `TimerDriver.FireListedIsFireDue` | norn-timer/src/wheels.rs:66-75 | firing the sleeps of the timers the wheel lets go fires exactly those registered with deadline up to `now` |
| `TimerDriver.FireListedIsFailAll` | norn-timer/src/wheels.rs:145-153 | failing the sleeps of the timers a shutdown takes fails exactly the registered ones |
| `TimerDriver.Driver.PollSleep` | norn-timer/src/entry.rs:48-73 | a poll is pending exactly if the sleep is registered then, and leaves its waker; a fired sleep answers with what it was fired with; a new one is ready with success at once if it has no length, with an error on a closed wheel, with success if it is shorter than a millisecond, and otherwise pending, its deadline its whole milliseconds from now; the registered sleeps stay the timers of the wheel, and in the horizon the wheel stays exact |
| `TimerDriver.Driver.FireEach` | norn-timer/src/entry.rs:150-156 | firing the sleeps of a list fires those and no others, and each that had kept a waker is woken by it once |
| `TimerDriver.Driver.DropSleep` | norn-timer/src/entry.rs:27-38 | dropping a registered sleep takes its timer out of the wheel, which always has it |
| `TimerDriver.Driver.Park` | norn-timer/src/lib.rs:162-178 | parking fires exactly the sleeps that are due, wakes each of them that had kept a waker, once and by it; its timeout passes no deadline of a sleep still registered and is otherwise up to the next slot due or as asked for |
| `TimerDriver.Driver.Shutdown` | norn-timer/src/lib.rs:195-198 | shutting down fails every registered sleep and no other, and wakes each of them that had kept a waker |
| `TaskInvariant.ReleaseKeeps` | norn-task/src/task_cell.rs:142-152 | dropping a handle frees exactly the cells left without any: the cell itself if this was the last one, and the cells its stored waker was the last handle of; no handle is counted that does not exist, no future is dropped with a cell, and every result is accounted for |
| `TaskSteps.WakeByIsCalm` | norn-task/src/task_cell.rs:106-124 | a wake by value changes nothing of any task but its mark and place in the queue, and frees what it held |
| `TaskSteps.WakeJoinIsCalm` | norn-task/src/header.rs:42-52 | waking the join handle keeps handles, tasks and results in order |
| `TaskKeeps.CompleteKeeps` | norn-task/src/task_cell.rs:211-234 | completing a task, with the wake of the join handle and the leaving of the task set in the middle, ends in a state where every task is in order again |
| `TaskKeeps.BeginKeeps` | norn-task/src/task_cell.rs:167-209 | running a runnable keeps the invariant, whether the task is complete, aborted or polled |
| `TaskKeeps.EndKeeps` | norn-task/src/task_cell.rs:181-209 | the return of a poll keeps the invariant for ready, pending and panic, nested polls and tasks that woke or aborted themselves included |
| `TaskKeeps.ClaimKeeps` | norn-task/src/task_cell.rs:268-282 | the first join poll of a complete task finds a result and takes it |
| `TaskKeeps.CancelAllKeeps` | norn-task/src/tasks.rs:85-93 | shutting down the task set ends with no task in it and only complete tasks left |
| `TaskKeeps.ShutdownKeeps` | norn-task/src/taskqueue.rs:86-90 | a shutdown outside polls keeps the invariant and leaves task set and queue empty |
| `TaskKeeps.StepKeeps` | norn-task/src/task_cell.rs:29-299 | every step of the task system keeps the invariant: the cells that exist are those with a handle, flags, queue, poll stack and task set agree, every future and result is accounted for |
| `TaskProgress.StepIsOnward` | norn-task/src/state.rs:83-229 | every step keeps resolved tasks resolved, freed cells freed and aborted tasks unpolled, and forgets no poll that is owed |
| `TaskRuns.RunKeeps` | norn-task/src/task_cell.rs:29-299 | the same for whole runs |
| `TaskRuns.ReachableIsSound` | norn-task/src/tasks.rs:57-107 | in every reachable state a cell exists exactly while it has a handle, a task has at most one runnable, an incomplete one exactly when it is notified and not running, and the task set holds exactly the incomplete tasks, each once |
| `TaskRuns.NoLostWake` | norn-task/src/state.rs:162-175 | once nothing is left to run, a wake was followed by a poll that started after it, or the task is done |
| `TaskRuns.SpawnedIsPolled` | norn-task/src/taskqueue.rs:56-69 | once nothing is left to run, a spawned task was polled or is done |
| `TaskAborts.AbortStops` | norn-task/src/state.rs:198-221 | after an abort no poll of the task starts in any run; once nothing is left to run it is done; if it was not running its only possible result is cancelled |
| `TaskAborts.AbortDuringPoll` | norn-task/src/state.rs:105-119 | a task aborted during its poll ends cancelled when that poll returns pending |
| `TaskAborts.AbortDecides` | norn-task/src/state.rs:198-221 | an abort leaves an unfinished task no result but cancelled, whatever follows, if and only if its future was not being polled when it was aborted |
| `TaskAborts.RunningCanFinish` | norn-task/src/task_cell.rs:181-209 | a task being polled, aborted or not, can still finish with its output: a run in which the polls inside return pending and its own returns ready |
| `TaskAborts.AbortedTaskFinishes` | norn-task/src/join.rs:25-33 | such a state is reached from a new queue: a task aborted during its first poll finishes when that poll returns ready |
| `TaskAborts.AbortedPollResult` | norn-task/src/join.rs:25-33 | with an abort during a poll, the result left to the join handle is cancelled if and only if that poll returns pending |
| `TaskRuns.OutputHandledOnce` | norn-task/src/future_cell.rs:51-78 | in every run the future of a task is dropped at most once, its result delivered or dropped, never both and never twice, and both have happened when the cell is freed |
| `TaskRuns.JoinFindsResult` | norn-task/src/future_cell.rs:72-78 | a join poll that sees a complete task before any result was taken finds a result, so taking the output cannot panic, and takes it: it is delivered then for the first time, and was not dropped |
| `TaskResults.RunnableIsPolled` | norn-task/src/task_cell.rs:167-209 | running the runnable of an unfinished task that was not aborted starts one poll of it, its future in place; an aborted one is done without a poll, and a complete one starts nothing |
| `TaskResults.PollLeavesResult` | norn-task/src/future_cell.rs:121-132 | a poll that is ready leaves its output to the join handle, one that panics the panic, and one that is pending a cancellation if the task was aborted meanwhile |
| `TaskResults.PendingPollWaits` | norn-task/src/task_cell.rs:181-209 | a poll that is pending, the task not aborted, leaves all as it was, but that the task is not running and is queued again exactly if it was notified meanwhile |
| `TaskResults.OutputReachesJoiner` | norn-task/src/task_cell.rs:268-276 | whatever follows a poll that returned for good, a shutdown included, its result waits for the next poll of the join handle |
| `TaskResults.PollDiscardsOutput` | norn-task/src/task_cell.rs:211-225 | without a join handle the output of the poll is dropped at once, once, and never delivered |
| `TaskResults.DropJoinLetsGo` | norn-task/src/task_cell.rs:401-405 | dropping the join handle frees the cell exactly if it was the last handle |
| `TaskResults.HandlesWakeNobody` | norn-task/src/task_cell.rs:97-104 | cloning and dropping wakers, and polling and dropping join handles, queues nothing and marks no task |
| `TaskCancels.OnlyAbortsCancel` | norn-task/src/state.rs:182-221 | a task spawned in an open queue that is neither aborted nor found by a shutdown never ends cancelled, loses its future only after a poll, and is polled once nothing is left to run |
| `TaskHandles.StepMovesHandles` | norn-task/src/task_cell.rs:97-152 | every step makes and uses up exactly the wakers and runnables it is given, and no join handle appears but that of a task it spawns |
| `TaskHandles.NoCellLeaks` | norn-task/src/task_cell.rs:142-152 | in every run, once nothing is left to run, a done task whose join handle was dropped, all whose wakers were used up and none of whose wakers is stored in another cell is freed |
| `TaskHandles.WakerKeepsCell` | norn-task/src/task_cell.rs:97-104 | in every run a task of which more wakers were cloned than used up is still allocated |
| `TaskJoins.PendingJoinAttends` | norn-task/src/header.rs:54-63 | a join poll of an unfinished task leaves the waker it was given in the cell, in place of any other |
| `TaskRuns.AwaiterIsAnswered` | norn-task/src/header.rs:42-63 | the waker with which a join handle was polled before its task is complete is woken when the task ends, in every run that leaves that join handle alone and does not shut down, and the task the waker belongs to is polled after that or done; what a shutdown does instead is `TaskShutdown.ShutdownLeavesAwaiters` |
| `TaskShutdown.ShutdownEnds` | norn-task/src/taskqueue.rs:86-90 | after a shutdown and whatever follows it all tasks are complete, later ones from the start; those it found unfinished and the later ones have no result but cancelled; no poll starts, nothing is queued, and a cell is kept only by its join handle, a waker, or a runnable popped before |
| `TaskShutdown.ShutdownLeavesAwaiters` | norn-task/src/task_cell.rs:255-266 | a shutdown completes tasks without waking the wakers their pending join handles left |
| `TaskOrder.PoppedInOrder` | norn-task/src/taskqueue.rs:73-76 | whatever happens short of a shutdown, runnables are popped in the order in which they were queued |
| `TaskCells.State.PreparePoll` | norn-task/src/state.rs:83-98 | the flags and the answer for a complete, an aborted and any other task; the assertions are required |
| `TaskCells.State.CompletePoll` | norn-task/src/state.rs:105-119 | an aborted task stays running, any other stops, with the answer whether it was notified; the assertions are required |
| `TaskCells.State.CompleteTask` | norn-task/src/state.rs:124-137 | the task is complete and not running, and the answer says whether a join handle is there; the assertions are required |
| `TaskCells.State.DropRef` | norn-task/src/state.rs:142-150 | the count falls by one and the answer says whether it is zero, which requires that the join handle is gone |
| `TaskCells.State.CloneRef` | norn-task/src/state.rs:153-156 | the count rises by one from a count that is not zero |
| `TaskCells.State.Notify` | norn-task/src/state.rs:162-175 | an incomplete task is marked, and to be queued exactly when it was neither marked nor running |
| `TaskCells.State.Shutdown` | norn-task/src/state.rs:182-192 | the task is aborted and complete; it must not be running |
| `TaskCells.State.Abort` | norn-task/src/state.rs:198-221 | an incomplete task is aborted and marked, and to be queued exactly when it was neither marked nor running; the join handle must be there |
| `TaskCells.State.DropJoinHandle` | norn-task/src/state.rs:225-229 | the flag of the join handle, which must be set, is cleared |
| `TaskRuntime.TaskQueue.constructor` | norn-task/src/taskqueue.rs:42-51 | a new queue has no tasks |
| `TaskRuntime.TaskQueue.CloneRef` | norn-task/src/task_cell.rs:359-364 | one more handle, the count in the cell with it |
| `TaskRuntime.TaskQueue.DropRef` | norn-task/src/task_cell.rs:366-378 | the count falls; at zero the cell is freed and the waker stored there dropped, which may free further cells; throughout, every count is the number of handles, and no freed cell is touched |
| `TaskRuntime.TaskQueue.WakeByRef` | norn-task/src/task_cell.rs:126-140 | a wake by reference does what the handle model says, counting the new runnable |
| `TaskRuntime.TaskQueue.WakeByVal` | norn-task/src/task_cell.rs:106-124 | a wake by value also drops the waker, in a state in which no assertion can fail |
| `TaskRuntime.TaskQueue.NotifyJoinHandle` | norn-task/src/header.rs:42-52 | the waker is taken out of the cell and woken by value |
| `TaskRuntime.TaskQueue.SetWaker` | norn-task/src/header.rs:54-63 | a clone of the waker is in the cell then; one that would wake another task gives way and is dropped; the counts of both tasks follow |
| `TaskRuntime.TaskQueue.Remove` | norn-task/src/tasks.rs:100-107 | the task leaves the list, the size counter falls with it and the handle of the list is dropped |
| `TaskRuntime.TaskQueue.CompleteTask` | norn-task/src/task_cell.rs:211-234 | completing in steps of flags, wake or drop of the output, and unbinding gives the completion of the handle model |
| `TaskRuntime.TaskQueue.Run` | norn-task/src/task_cell.rs:167-209 | a popped runnable runs up to the poll of its future with no assertion failing, counts exact |
| `TaskRuntime.TaskQueue.PollReturns` | norn-task/src/task_cell.rs:181-209 | the return of the poll leaves to the join handle the output, the panic or the cancellation, or the future not running; no assertion fails, counts exact |
| `TaskRuntime.TaskQueue.WakeRef` | norn-task/src/task_cell.rs:126-140 | waking from outside or from a poll context keeps invariant and counts |
| `TaskRuntime.TaskQueue.WakeVal` | norn-task/src/task_cell.rs:106-124 | waking by a waker held outside keeps invariant and counts |
| `TaskRuntime.TaskQueue.CloneWaker` | norn-task/src/task_cell.rs:97-104 | cloning a waker keeps invariant and counts |
| `TaskRuntime.TaskQueue.DropWaker` | norn-task/src/task_cell.rs:142-152 | dropping a waker keeps invariant and counts |
| `TaskRuntime.TaskQueue.Abort` | norn-task/src/task_cell.rs:241-253 | aborting keeps invariant and counts |
| `TaskRuntime.TaskQueue.DropJoinHandle` | norn-task/src/task_cell.rs:401-405 | dropping the join handle, flag first and count second, keeps invariant and counts |
| `TaskRuntime.TaskQueue.PollJoin` | norn-task/src/task_cell.rs:268-282 | a join poll returns the stored result of a complete task; otherwise it returns nothing and its waker is in the cell then |
| `TaskRuntime.TaskQueue.ShutdownTask` | norn-task/src/task_cell.rs:255-266 | a cell is shut down: its future, if any is left, gives way to the result cancelled |
| `TaskRuntime.TaskQueue.Spawn` | norn-task/src/tasks.rs:57-76 | spawning binds and queues the task, or after a shutdown hands out a cancelled one at once; counts exact |
| `TaskRuntime.TaskQueue.Next` | norn-task/src/taskqueue.rs:73-76 | the oldest runnable is popped |
| `TaskRuntime.TaskQueue.ShutdownTasks` | norn-task/src/tasks.rs:85-93 | the popping loop shuts every task down, the size counter ending with the list |
| `TaskRuntime.TaskQueue.Shutdown` | norn-task/src/taskqueue.rs:86-90 | shutting down the queue is the shutdown of the handle model, counts exact |
| `Notifies.FiresInOrder` | norn-uring/src/util/notify.rs:66-80 | notifying fires the first waiters in order, as many as asked for or as there are, and no others |
| `Notifies.FiresTheFirst` | norn-uring/src/util/notify.rs:183-188 | exactly those waiters are in the fired state then |
| `Notifies.FirstComeFirstServed` | norn-uring/src/util/notify.rs:49-95 | in every run the waiters fired and those waiting are the registered ones in order, cancelled ones left out, and the permits issued are those completed, discarded or held by a fired waiter |
| `Notifies.FiresWake` | norn-uring/src/util/notify.rs:183-188 | each is woken by the waker it left last, in the same order |
| `Notifies.PermitsCompleteUnlessLost` | norn-uring/src/util/notify.rs:49-80 | in every run all permits issued have completed a wait or are held by a waiter that can, if and only if no fired waiter was dropped while none was linked |
| `Notifies.ShortOfWaiters` | norn-uring/src/util/notify.rs:62-80 | notifying issues as many permits as asked for if and only if there are as many waiters |
| `Notifies.OnlyNotifyIssues` | norn-uring/src/util/notify.rs:49-153 | permits are issued by notifying only, as many as asked for or as there are waiters, and a wait completes only by polling a fired waiter |
| `Notifies.ServedInTurn` | norn-uring/src/util/notify.rs:66-95 | in every run a waiter with p others before it in the list is fired once more than p permits have been issued, unless it is dropped |
| `Notifies.PermitIsLost` | norn-uring/src/util/notify.rs:106-122 | a run from a new list that loses a permit: the only waiter is fired and dropped |
| `Notifies.StepKeeps` | norn-uring/src/util/notify.rs:106-153 | every step keeps list, states and permits in agreement |
| `Notifies.NotifyList.Notify` | norn-uring/src/util/notify.rs:66-81 | the loop fires as specified and wakes the first waiters by the wakers they left, and `count` stays the number of linked waiters and never underflows |
| `Notifies.NotifyList.Poll` | norn-uring/src/util/notify.rs:127-153 | a new waiter is linked at the end, a fired one completes, and after a pending poll the waiter is in the list with its newest waker |
| `Notifies.NotifyList.Cancel` | norn-uring/src/util/notify.rs:87-95 | a linked waiter leaves the list and `count` falls |
| `Notifies.NotifyList.Drop` | norn-uring/src/util/notify.rs:106-122 | dropping cancels a linked waiter; a fired one passes its permit on to the first in the list, which is woken by the waker it left; no other is fired or woken |
| `BufferRings.NextPowerIsLeast` | norn-uring/src/bufring.rs:208 | the next power of two is one, not below, and the least such |
| `BufferRings.PowerByBits` | norn-uring/src/bufring.rs:256 | a number and its predecessor share no bit exactly when it is a power of two |
| `BufferRings.Build` | norn-uring/src/bufring.rs:185-215 | building succeeds exactly when the larger of both settings is between 1 and 2^15 and buffers are not empty; the ring is then the least power of two with room for that |
| `BufferRings.IndexOfTail` | norn-uring/src/bufring.rs:406-408 | the masked, wrapped 16-bit tail indexes the entry of the unbounded tail |
| `BufferRings.RoomToPush` | norn-uring/src/bufring.rs:398-399 | while the application holds a buffer the ring is not full and the buffer number is in range, so the assertion holds |
| `BufferRings.PushAppends` | norn-uring/src/bufring.rs:398-418 | a push appends to what the kernel may take and overwrites nothing of it |
| `BufferRings.RegistersTell` | norn-uring/src/bufring.rs:401-404 | the 16-bit registers of head and tail are equal exactly when nothing is left to take, wrapped or not |
| `BufferRings.TakeIsOldest` | norn-uring/src/bufring.rs:401-404 | what the kernel takes is the oldest buffer pushed |
| `BufferRings.EveryBufferOnce` | norn-uring/src/bufring.rs:339-357 | in every run each buffer is in exactly one place: the ring, the kernel or the application |
| `BufferRings.BufRing.constructor` | norn-uring/src/bufring.rs:245-299 | a new ring, nothing pushed, the application holding all buffers |
| `BufferRings.BufRing.Push` | norn-uring/src/bufring.rs:398-418 | the entry at the masked tail is written and the local tail moves, wrapping |
| `BufferRings.BufRing.Sync` | norn-uring/src/bufring.rs:423-427 | the kernel sees what was written |
| `BufferRings.BufRing.DroppingBid` | norn-uring/src/bufring.rs:354-357 | a dropped buffer goes back to the ring |
| `BufferRings.BufRing.Register` | norn-uring/src/bufring.rs:339-342 | registration pushes every buffer once, ending with all in the ring |
| `BufferRings.BufRing.GetBuf` | norn-uring/src/bufring.rs:366-377 | the buffer a completion names passes from the kernel to the application |
| `Unparking.WokenReactorHears` | norn-uring/src/driver/unpark.rs:99-128 | in every interleaving at most one read of the eventfd is in flight, and a waiting reactor with the remote bit set has a write under way, a counter that is not zero or a completion posted |
| `Unparking.WokenReactorWakesUp` | norn-uring/src/driver/unpark.rs:117-128 | from such a state the write and the read under way lead to a posted completion without any step of the reactor |
| `Unparking.UnparkedWakeTraps` | norn-uring/src/driver/unpark.rs:117-128 | in every run a wake leaves a reactor that could wait unable ever to wait again if and only if it finds the park bit clear |
| `Unparking.SleeplessExactly` | norn-uring/src/driver/mod.rs:158-181 | the reactor can come to wait again if and only if the remote bit is clear, a wake is on its way, or it waits already or is about to |
| `Unparking.EarlyWakeNeverSleeps` | norn-uring/src/driver/mod.rs:158-181 | a wake before the first park: the reactor never waits again, in any run |
| `Unparking.LaterWakeNeverSleeps` | norn-uring/src/driver/mod.rs:158-181 | the same after a wait that was woken and reaped: the next wake before the next park |
| `Unparking.Unparker.SetParked` | norn-uring/src/driver/unpark.rs:99-105 | the park bit is set and the bits before are returned, as in the protocol |
| `Unparking.Unparker.Reset` | norn-uring/src/driver/unpark.rs:108-113 | reaping the completion clears both bits |
| `Unparking.Unparker.SetWoken` | norn-uring/src/driver/unpark.rs:117-125 | the remote bit is set, and the caller is to write exactly if it was clear and the park bit set |
| `Unparking.Unparker.Wake` | norn-uring/src/driver/unpark.rs:116-128 | both steps of a wake |
| `Unparking.Unparker.PreparePark` | norn-uring/src/driver/mod.rs:158-181 | the reactor may wait exactly when it had not been woken, and one read is then in flight or completed |
| `Operations.KernelKeepsData` | norn-uring/src/operation/raw.rs:41-70 | in every run, while the kernel or an unsubmitted entry refers to the cell it is allocated and holds the data; the data leaves only after the final completion, or with the cell when nobody refers to it |
| `Operations.EveryCompletionOnce` | norn-uring/src/operation/raw.rs:52-70 | every completion is handled at most once, as a result, an update or a cleanup, and exactly once when the cell is gone |
| `Operations.PendingIsWoken` | norn-uring/src/operation/raw.rs:81-95 | in every run a poll that would not be pending finds the waker of an earlier pending poll already woken, and a poll leaves its waker exactly when it is pending |
| `Operations.StreamEndsLast` | norn-uring/src/operation/mod.rs:370-391 | a stream that has ended got its final completion and made an item of every completion, each as often as it arrived |
| `Operations.FutureEndsLast` | norn-uring/src/operation/mod.rs:317-336 | a future that has returned got its final completion, updated its data with all others in the order of arrival and completed it with the final one; before that nothing was done with any |
| `Operations.PollFutureKeeps` | norn-uring/src/operation/mod.rs:317-336 | when a future finds its operation complete, data is there, the last completion is the final one and all others announced more, so no assertion, `expect` or panic there can fail |
| `Operations.StepKeeps` | norn-uring/src/operation/raw.rs:81-95 | every step keeps ownership, announcements and accounts; without data no completion is left, so destroying never panics |
| `Operations.RawOp.constructor` | norn-uring/src/operation/raw.rs:28-39 | a new operation has the handle of the application and that of its entry |
| `Operations.RawOp.Submit` | norn-uring/src/operation/mod.rs:52-55 | the handle of the entry becomes that of the kernel, uncounted |
| `Operations.RawOp.Complete` | norn-uring/src/operation/raw.rs:144-153 | a completion is stored; the final one marks the operation and drops the handle of the kernel |
| `Operations.RawOp.Destroy` | norn-uring/src/operation/raw.rs:52-70 | data left in the cell cleans up every completion left, in order |
| `Operations.RawOp.DropHandle` | norn-uring/src/operation/raw.rs:213-218 | dropping the handle frees the cell exactly when the kernel and the entry have none |
| `Operations.RawOp.DropEntry` | norn-uring/src/operation/mod.rs:52-60 | dropping the entry unsubmitted frees the cell |
| `Operations.RawOp.Feed` | norn-uring/src/operation/mod.rs:325-334 | the loop updates with all completions but the last and completes with the last |
| `Operations.RawOp.TryComplete` | norn-uring/src/operation/mod.rs:317-336 | the future is ready exactly when the operation is complete, with the final completion |
| `Operations.RawOp.PollNext` | norn-uring/src/operation/mod.rs:339-346 | the item returned is made of the newest completion, which leaves the cell; the stream ends exactly when complete with none left |

## Left out

- `Sleep::reset` in the driver: resetting a registered sleep fails a debug assertion, or leaves a sleep that counts as registered with no timer; the driver has no such operation, and `Sleeps.ResetStartsOver` is about the sleep alone.
- The clock, and the conversion of ticks to durations and back: ticks are parameters below 2^64.
- The time moving backwards: `advance` asserts that it does not, and the model requires it.
- Parking asked not to block may block until the next slot that is due, as the program has it.
- Wakers called while a slot is being fired or a task set is shut down: what they do happens in the model before or after the whole operation.
- Destructors of futures and outputs that spawn, wake or poll by themselves: dropping has no effect but the drop.
- Popped runnables that are dropped without being run: the program then never polls the task again; the model runs every popped runnable, or keeps it.
- The abort of the process when a reference count would exceed 32 bits: counts are unbounded.
- Thread identity checks, abort-on-panic guards, pinning and the layout of cells; intrusive lists are sequences with removal.
- TaskRuntime.TaskQueue.Run: the poll of the future itself is the environment; the steps between the start and the return of a poll are separate calls.
- `block_on`, executor fairness and `needs_park`.
- Shutting down while a task is being polled: the state transition asserts against it, and the model does not allow it.
- Unparking.Unparker.PreparePark: the push of the read is taken to succeed, and the driver to be running; a failed push leaves the park bit set with no read, as the program has it.
- Weak memory: the steps of the unparker interleave atomically in some order.
- The cancellation request sent when a pending operation is dropped.
- Wheels.Wheels.Add: a sum of elapsed time and duration beyond 64 bits, which panics or wraps depending on the build, is not modelled; the truncation of the duration to 64 bits is.
- TimerDriver.Driver.PollSleep: the same sum beyond 64 bits.
- TimerDriver.Driver.Park: which sleeps fire is stated for wheels into which no timer out of the horizon was started; `WheelHorizon.HorizonIsExact` shows that it fails otherwise.
- TimerDriver.Driver.DropSleep: likewise for wheels into which no timer out of the horizon was started.
- The order of the items of a stream: `pop` takes the newest completion first, so no order is stated.
- BufferRings.BufRing.constructor: memory mapping, buffer contents and the registration call with its errors are not modelled.
- `PollSet`, files, directories, sockets, TCP and UDP, open flags, thread-local contexts, parkers and benches.
