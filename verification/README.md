# bunnyds, modelled in Dafny

bunnyds is a small asynchronous runtime for the Nintendo 3DS: an executor thread
that polls tasks, two semaphore-guarded queues that tell it what to do, and
synchronisation primitives that talk to it only through shared words and the wake
queue. This project models that machinery and proves that nothing is lost,
duplicated or torn in it, for every interleaving, and where the code does lose
something, exactly when.

## How the model is built

Each component is a labelled step system over explicit state: `Init`, `Enabled`,
`Step`, and `Next`, which joins the last two. `Runs` defines what a run is, once for
all of them, and every main theorem is about each state or each action of each run.
Where the original code changes memory in place there is also a class, whose methods
state what they answer and store and are proved against the same functions that
define the steps; code of several steps is shown to be a path of the system
(`Runs.Leads`).

| file | what it models |
|---|---|
| `Tokens.dfy`, `Runs.dfy`, `Collections.dfy` | words and sentinels; runs, invariants, paths, detours and the runs of parts; lists without repetition |
| `Queues.dfy` | `SyncQueue`: two-step add, newest-first remove, a semaphore of at most 255 |
| `WorkerPool.dfy` | any number of adders and workers on the file-operation queue |
| `Executor.dfy`, `ExecutorLoop.dfy` | the executor as a step system; spawn, wake and the drain loops as code |
| `Oneshot.dfy`, `Notification.dfy` | the two channels, the first one atomic operation at a time |
| `FileOp.dfy`, `Cursor.dfy` | a Read, Write or Flush future with its worker; `AsyncFile`'s cursor |
| `Reactor.dfy`, `Sleep.dfy` | handles and the tasks waiting for them; the Sleep future with clock and timer |
| `Socket.dfy` | the socket worker and its interest lists |
| `Lock.dfy`, `LockCode.dfy` | `DsLock` with the kernel's address arbiter as a step system; `DsLock`, `lock_sync` and `LockFut` as code |
| `Join.dfy` | the join slot between wrapper, JoinHandle and blocked thread |
| `Sources.dfy` | channels, file operations, notifications, sleeps and joins seen alike: what completes, what wakes, what polls |
| `Waits.dfy` | what each task of the executor is blocked on |
| `EndToEnd.dfy` | the executor, any number of such sources and the worker pool in one system |
| `Witnesses.dfy` | runs of that system that end with somebody waiting, for each thing that is left to wait for |
| `LockTasks.dfy`, `SocketTasks.dfy` | the executor with a lock that tasks and threads share; the executor with a socket |

Assumptions. Memory is sequentially consistent. A future is not dropped before it is
Ready and not polled after. A receiver, notification waiter, file future, sleep or
join handle is polled by one task; a poll of a task polls the lock acquisitions it
awaits. Each method of `DsLock` and of the notification is one step, as the original
relies on cooperative scheduling; a thread's entry into the arbiter is a step of its
own. The kernel enters through small specifications: a counting semaphore whose
release at the maximum has no effect; an address arbiter whose signal resumes one of
the threads asleep in it, any one, or nobody; a one-shot event; a timer that does not
go off early. A write that is answered with an error changes no byte of the file.
`R_FAILED` is "negative", `R_SUMMARY` is bits 21 to 26 and `RS_SUCCESS` is 0, as
libctru defines them. Futures are arbitrary: during a poll, and from other threads at
any time, tokens and futures may be queued.

## Where the code gives less than one might expect

Each of these is kept as it is in the code, with the exact condition proved and,
where it is not obvious, a run that shows it.

- A task popped by an unlock is not listed again if the retry on that wake finds the
  lock taken; a signal for a thread that has not gone to sleep yet reaches nobody; and
  a task whose token is u32::MAX is taken for a thread. A run strands somebody if and
  only if it has such a lost retry, a thread that goes to sleep when the list has no
  signal to spare for it, or the pop of such a task (`Lock.StrandingExactly`,
  `Lock.BargingStrandsTask`, `Lock.EarlySignalStrandsThread`,
  `Lock.MisreadTaskIsStranded`). A retry that finds the lock taken while
  that wake is still to come does no harm (`LockTasks.SpuriousRetryIsHarmless`).
- A notify before the first poll leaves no trace (`Notification.Monotone`), so a task
  can sleep on a notification that was given (`Witnesses.SomebodyWaitsInVain`).
- The token counter runs through the sentinels of the notification: a task under one
  of them is told Ready unnotified, or its notify is lost, exactly as
  `Notification.ReadyUnnotifiedExactly`, `Notification.NotifyLostExactly` and
  `Executor.SentinelTokensExactly` say; `Executor.SentinelIsReached` gets there.
- The join wrapper tests for an awaiter after it has overwritten the slot, so it never
  wakes one (`Join.NobodyIsWoken`, `Join.AwaiterForgotten`,
  `Witnesses.SomebodyIsForgotten`).
- The pool executes everything if and only if no semaphore release was refused;
  256 queued operations are one too many (`WorkerPool.StrandedAreRefused`,
  `WorkerPool.OneTooMany`, `Witnesses.SomebodyIsLeftInTheQueue`). The executor's
  queues do not share this limit.
- A file operation reports its outcome unchanged if and only if the count is not
  u32::MAX and an error code looks like one (`FileOp.RoundTrip`, `FileOp.Completion`,
  `Witnesses.SomebodyMissesTheMaximum`).
- A sleep of 2^63 ns or more can sleep for ever; a shorter one cannot
  (`Sleep.ForsakenExactly`, `Sleep.ForsakenForGood`, `Witnesses.SomebodyOversleeps`).
- The cursor is the true position if and only if fewer than 2^32 bytes were moved
  (`Cursor.CursorWraps`).

## Model

| member | source | states |
|---|---|---|
| `Queues.SyncQueue.Add` | src/ctru_utils.rs:122-126 | the value becomes the newest and the permits grow by one unless they are at 255 |
| `Queues.SyncQueue.PushValue` | src/ctru_utils.rs:123 | the first half of an addition: the value becomes the newest |
| `Queues.SyncQueue.ReleaseOne` | src/ctru_utils.rs:124-125 | the second half: one permit more unless there are 255 |
| `Queues.SyncQueue.AddEach` | src/ctru_utils.rs:122-126 | additions one after another |
| `Queues.AddAllAppends` | src/ctru_utils.rs:113-126 | a batch of additions ends up in the queue in order, with as many permits as fit under 255 |
| `Queues.SyncQueue.Remove` | src/ctru_utils.rs:128-130 | takes the newest value, or nothing from an empty queue; permits untouched |
| `Queues.SyncQueue.TryWait` | src/ctru_utils.rs:132-135 | returns exactly if there is a permit and takes it |
| `WorkerPool.PermitConservation` | src/fs/async_pool.rs:48-55 | in every run, queue length = permits + workers about to remove + adders about to release + refused releases; removes never miss; operations added = queued + executed |
| `WorkerPool.StrandedAreRefused` | src/fs/async_pool.rs:48-55 | in a quiet pool as many operations are left as releases were refused, so all were executed iff none was |
| `WorkerPool.SmallQueueLosesNothing` | src/ctru_utils.rs:113-126 | while at most 255 operations are queued, no release is refused |
| `WorkerPool.ExecutedAtMostOnce` | src/fs/async_pool.rs:51-57 | an operation added once is executed at most once, and not while queued |
| `WorkerPool.OneWorkerEach` | src/fs/async_pool.rs:51-57 | a worker works on the operation that was newest when it removed one; an operation added once is in one worker's hands at most, and not queued |
| `WorkerPool.OneTooMany` | src/ctru_utils.rs:115 | a reachable quiet pool after 256 additions, with one release refused, 255 operations executed and one left behind |
| `Executor.NeverSleepsOnWork` | src/executor.rs:169-184 | in every run, outside its drain loop a nonempty queue with no adder before its release has a permit, for both queues and despite the cap |
| `Executor.AsleepMeansEmpty` | src/executor.rs:171-183 | a blocked executor has empty queues |
| `Executor.SpawnConservation` | src/executor.rs:178-187 | in every run, futures submitted = queued + started, as multisets, each under its own spawn; a blocked executor has started all |
| `Executor.TaskLifecycle` | src/executor.rs:186-220 | in every run of at most 2^32 - 2 spawns, tokens below the counter are exactly the live, the finished and the one in its first poll, disjointly; the counter wraps at 2^32 |
| `Executor.TokensAreSound` | src/executor.rs:186-220 | no poll after Ready; a new task's token was never used and is no sentinel; stale wakes change nothing but the queue |
| `Executor.TaskKeepsItsFuture` | src/executor.rs:186-220 | the future taken by a spawn is the one polled ever after under its token, in the first poll and on every wake, and the only one kept under it |
| `Executor.SentinelTokensExactly` | src/executor.rs:187-188 | a task started after n others polls under n modulo 2^32, so its token is a sentinel iff that is one of the last two |
| `Executor.SentinelIsReached` | src/executor.rs:187-188 | for every n a reachable executor polls the task started after n others, under n modulo 2^32; after 2^32 - 2 others that is READY |
| `Executor.NoWakeDropped` | src/executor.rs:169-220 | a token pushed for an unfinished task, even in its first poll, is followed by a poll that starts later, or the task is finished, before the executor waits with no wakes queued |
| `ExecutorLoop.ExecutorHandler.RunAdditions` | src/executor.rs:194 | what the polled future and other threads add meanwhile, as push and release halves of anybody, is the system's steps |
| `ExecutorLoop.ExecutorHandler.Spawn` | src/executor.rs:186-200 | first poll under the next token; Pending puts that very future in the map under that token, Ready leaves the map alone; the new state is the system's |
| `ExecutorLoop.ExecutorHandler.Wake` | src/executor.rs:203-220 | polls the task under the token if there is one; Ready removes it, and nothing else changes in the map; the new state is the system's |
| `ExecutorLoop.ExecutorHandler.WakeTurn` | src/executor.rs:175-176 | one turn of the wake loop, with additions by anybody before and during it, is the system's NextWake step and the poll it starts |
| `ExecutorLoop.ExecutorHandler.SpawnTurn` | src/executor.rs:179-180 | likewise for the spawn loop and NextSpawn |
| `ExecutorLoop.ExecutorHandler.DrainWakes` | src/executor.rs:174-177 | the wake loop, with others adding throughout, takes the system's steps, for as many turns as are supplied |
| `ExecutorLoop.ExecutorHandler.DrainSpawns` | src/executor.rs:178-181 | likewise for the spawn loop |
| `ExecutorLoop.ExecutorHandler.RunOnce` | src/executor.rs:171-183 | one turn of the outer loop: semaphore 0 is the spawn queue, 1 the wake queue |
| `ExecutorLoop.OneTurnLeads` | src/executor.rs:174-183 | a turn is exactly: what others add, the removal, and, unless the queue was empty, what is added meanwhile and the end of the poll it started |
| `ExecutorLoop.DrainTakesTurns` | src/executor.rs:174-181 | the loops take the supplied turns one after another, all of them unless one finds the queue empty, which is the last |
| `ExecutorLoop.DrainReached` | src/executor.rs:169-220 | from reachable states the loops reach only reachable states, whatever others add meanwhile; a loop that is over has emptied its queue |
| `Oneshot.ExactDelivery` | src/sync.rs:51-106 | in every interleaving the cell is written only while the flag is down and taken only while it is up; Ready is Some(v) iff send(v) was called, None iff dropped unsent; send never answers false |
| `Oneshot.SentIsHistory` | src/sync.rs:74-89 | the recorded value is that of the send action in the run |
| `Oneshot.PollsDoNotMatter` | src/sync.rs:95-106 | two Ready runs with the same sends have the same result |
| `Oneshot.ExtraPolls` | src/sync.rs:95-106 | any number of polls put into a run where the receiver rests with the flag down gives a run, with the same states and actions before and after |
| `Oneshot.SpuriousPollChangesNothing` | src/sync.rs:98-105 | an extra poll before completion is the identity |
| `Oneshot.FlagIsSeen` | src/sync.rs:98-105 | a poll begun after the flag went up is Ready with what was sent |
| `Oneshot.WholePoll` | src/sync.rs:98-106 | a poll registers the owner unless somebody was, is Ready with the cell's content iff the flag is up, and is the steps of the system |
| `Oneshot.OneshotState.Send` | src/sync.rs:52-64 | unless the flag was up: value and flag stored, and the registered task's token added to the wake queue |
| `Oneshot.OneshotState.DropSender` | src/sync.rs:80-86 | flag up, and the registered task's token added to the wake queue |
| `Oneshot.OneshotState.Poll` | src/sync.rs:98-106 | registers the task unless one is; with the flag up takes the value and is Ready with it, else Pending |
| `Oneshot.SendIsItsSteps` | src/sync.rs:52-64 | the method is the sender's atomic steps run without interference, with the wakes they push |
| `Oneshot.DropIsItsSteps` | src/sync.rs:80-86 | likewise for the drop |
| `Notification.Monotone` | src/sync.rs:288-340 | if the first poll is under no sentinel: the word goes UNINIT, first poller's token, READY; Ready exactly after the first notify following the first poll, which alone pushes a wake, for that poller; an earlier notify has no effect |
| `Notification.ReadyUnnotifiedExactly` | src/sync.rs:329-340 | without a notify, a poll after the first is Ready iff the token is READY |
| `Notification.NotifyLostExactly` | src/sync.rs:315-323 | the first notify after the first poll pushes no wake iff the token is a sentinel, and then changes nothing |
| `Notification.NotificationState.NotifyWaiter` | src/sync.rs:315-323 | the notify step and its wake |
| `Notification.NotificationState.PollWaiter` | src/sync.rs:329-340 | the poll step and its answer |
| `FileOp.RoundTrip` | src/fs/async_pool.rs:246-258 | an outcome is recognised as complete and decoded to itself iff it is faithful |
| `FileOp.FailedExactly` | src/fs/async_pool.rs:349-356 | the codes delivered as errors, with their value, are the negative ones and those with one of bits 21 to 26 set; code 0 is success with the count |
| `FileOp.Completion` | src/fs/async_pool.rs:383-508 | in every interleaving at most one operation is enqueued, Ready comes only after both stores and is the worker's outcome iff that is faithful; what happens to the others |
| `FileOp.WokenOnce` | src/fs/async_pool.rs:57-82 | the task is woken exactly once, after both stores |
| `FileOp.CompleteIsSeen` | src/fs/async_pool.rs:349-356 | a poll of a registered future begun after the word was stored is Ready |
| `FileOp.WholePoll` | src/fs/async_pool.rs:383-408 | a whole poll: registered and complete is Ready with what the words say; unregistered enqueues one operation and registers; otherwise nothing changes |
| `FileOp.PollIsItsSteps` | src/fs/async_pool.rs:383-408 | that poll is the steps of the system from its start to its answer |
| `FileOp.SpuriousPollChangesNothing` | src/fs/async_pool.rs:387-407 | an extra poll of a registered, incomplete future is the identity |
| `FileOp.PollsDoNotMatter` | src/fs/async_pool.rs:380-463 | two Ready runs with the same outcome have the same result and one operation enqueued each |
| `FileOp.ExtraPolls` | src/fs/async_pool.rs:380-463 | any number of polls put into a run where the future is registered and incomplete gives a run, with the same states and actions before and after |
| `FileOp.FileFuture.Poll` | src/fs/async_pool.rs:383-408 | the poll of Read and Write (440-462) and of Flush (486-508): what it answers, what it adds to the pool and what it stores, for each case |
| `FileOp.Serve` | src/fs/async_pool.rs:51-82 | a worker's turn stores code and count of the outcome to exactly the removed operation and wakes its task; every other future is unchanged |
| `Cursor.CursorRefinesPlain` | src/fs/async_pool.rs:139-160 | below 2^32 the cursor file is a plain file with a position: same bytes, same reads, same position |
| `Cursor.CursorWraps` | src/fs/async_pool.rs:139-160 | the cursor is the bytes moved modulo 2^32, the true position iff below 2^32 |
| `Cursor.WritesAreAppended` | src/fs/async_pool.rs:151-160 | writes leave their accepted prefixes one after another and nothing else changed |
| `Cursor.OverwriteExactly` | src/fs/async_pool.rs:151-160 | byte by byte: the written stretch holds the data, every other byte is kept, and the file grows only as far as the stretch sticks out |
| `Cursor.WrittenFromTheStart` | src/fs/async_pool.rs:151-160 | the bytes before the cursor are the accepted prefixes |
| `Cursor.ReadsAreContiguous` | src/fs/async_pool.rs:139-148 | reads deliver the stretch the position moved over |
| `Cursor.ReadBack` | src/fs/async_pool.rs:139-160 | what was written is read back, whatever the sizes of the pieces |
| `Cursor.AsyncFile.ReadSome` | src/fs/async_pool.rs:140-148 | reads at the cursor and advances it by the count, not on error |
| `Cursor.AsyncFile.WriteSome` | src/fs/async_pool.rs:152-160 | writes at the cursor and advances it by the count, not on error |
| `Lock.MutualExclusion` | src/sync.rs:145-186 | in every run the word is never 0, negative iff there is a guard, then exactly one; magnitude - 1 registered parties; list length bounded by the word |
| `Lock.WordFits` | src/sync.rs:145-171 | no store leaves the i32 range before 2^31 - 1 lock calls |
| `Lock.NoDeadBranch` | src/sync.rs:158-171 | an unlock always sees a negative word and a retry never stores 0 |
| `Lock.FifoHandoff` | src/sync.rs:168-184 | in handoff-respecting runs, whichever thread the arbiter resumes: arrivals = granted, then the one handed the lock, then the list; nobody is stranded but a task with token u32::MAX just popped |
| `Lock.StrandingExactly` | src/sync.rs:168-186 | a run strands nobody (no waiting task unlisted without a wake to come, no more threads asleep than the list has signals) iff it has no lost retry, no lost park and no lost pop (also 230-242 and 264-269) |
| `Lock.StrandedByLoss` | src/sync.rs:264-269 | a stranded task is so by an earlier lost retry of its own or by the lost pop of its entry |
| `Lock.PopWakesExactly` | src/sync.rs:177-184 | an unlock that pops a waiting task strands it iff its token is u32::MAX, and otherwise has a wake coming for it |
| `Lock.MisreadTaskIsStranded` | src/sync.rs:180-181 | a run that strands a task with that token on a free lock, without any lost retry or park |
| `Lock.StrandedForGood` | src/sync.rs:264-269 | a stranded task stays so until a poll that is due to no wake of an unlock |
| `Lock.SurplusForGood` | src/sync.rs:180-181 | until another entry under the threads' token is listed, the surplus of sleeping threads over signals never shrinks, whichever the arbiter resumes |
| `Lock.NoDeadlock` | src/sync.rs:168-186 | without lost retries, parks and pops, barging or not, a free lock that is waited for has a waiting thread awake or a waiting task with its wake coming, unless a task with token u32::MAX is listed |
| `Lock.BargingStrandsTask` | src/sync.rs:172-177 | a run that strands a task with the lock free and nobody else left |
| `Lock.EarlySignalStrandsThread` | src/sync.rs:236-241 | a run that leaves a thread asleep on a free lock, its signal having come before it slept |
| `Lock.SignalFindsItsThread` | src/sync.rs:180-181 | in handoff-respecting runs where threads sleep at once, the arbiter is first come, first served, and no task has token u32::MAX, the signal resumes the very thread whose entry was popped |
| `LockCode.DsLock.TryLockAndRegister` | src/sync.rs:145-155 | the register step |
| `LockCode.DsLock.TryLockReleaseWaiter` | src/sync.rs:158-166 | the retry step |
| `LockCode.DsLock.Unlock` | src/sync.rs:168-186 | the unlock step; a popped task's token is in the wake queue, for a popped thread the arbiter has resumed one of its sleepers, if any |
| `LockCode.LockSync` | src/sync.rs:230-242 | the objects end up as after that run; it reports success iff the lock was free or a wait finds it so, and then the thread has the only guard |
| `LockCode.LockRunLeads` | src/sync.rs:230-242 | lock_sync is one registration, then waits and retries with the others' steps in between, up to the first success: the thread has a guard, the only one, iff the lock was free or a wait finds it so; else all waits are used and it is still registered |
| `LockCode.LockFut.Poll` | src/sync.rs:260-282 | the first poll registers, later polls only retry |
| `LockCode.MethodsAreSteps` | src/sync.rs:145-186 | the methods on tokens are the system's steps on parties |
| `Join.ResultSafety` | src/executor.rs:237-268 | in every interleaving the result is stored at most once, kept until handed out, handed out at most once and unchanged; a blocked thread is signalled or awake once the wrapper is over; the panic of spawn_and_block is unreachable |
| `Join.StoredIsDelivered` | src/executor.rs:240-251 | a poll or take after the store gets the output; a poll before it registers its task |
| `Join.NobodyIsWoken` | src/executor.rs:259-264 | the wrapper wakes nobody; a task is forgotten iff it awaited when the result was stored and the handle was not polled since |
| `Join.AwaiterForgotten` | src/executor.rs:259-264 | a run that forgets the awaiting task |
| `Join.JoinCell.PollHandle` | src/executor.rs:240-251 | takes the result or registers the waker; panics after Ready |
| `Join.JoinCell.Complete` | src/executor.rs:260-267 | the wrapper's three steps on slot, wake queue and signal: the result stored, the wake queue as it was whoever awaited, the signal raised |
| `Join.JoinCell.TakeResult` | src/executor.rs:304-309 | takes the result, or panics |
| `Socket.InterestConservation` | src/net.rs:73-131 | in every run, registrations = queued + readers + writers + woken, as multisets of task and interest |
| `Socket.NeverSleepsOnInterest` | src/net.rs:78-95 | a blocked worker holds nothing, and nothing fully registered is queued: all were woken |
| `Socket.WokenOnItsEvent` | src/net.rs:115-129 | readers are woken only on POLLIN, writers only on POLLOUT, of the latest poll, having been collected before it |
| `Socket.SortingKeepsEntries` | src/net.rs:83-95 | collecting the queue keeps every registration |
| `Socket.TasksAppend` | src/net.rs:83-95 | collecting keeps the order of registration |
| `Socket.FirstComeFirstServed` | src/net.rs:73-131 | in every run and for each interest, those woken, then those held, then those queued are all who registered, in order |
| `Socket.SocketWorker.Collect` | src/net.rs:83-95 | the collecting loop is the system's step |
| `Socket.SocketWorker.Answer` | src/net.rs:119-129 | who is woken, in order, and who stays: the system's steps up to the top of the loop |
| `Socket.AnswerAllWakes` | src/net.rs:119-129 | after a poll the steps wake the writers on POLLOUT and the readers on POLLIN, each registration once, and touch nothing else |
| `Socket.SocketWorker.Iterate` | src/net.rs:77-130 | one whole turn of the loop, waiting only without interests, with registrations arriving at every stage, is the system's steps from top to top; the wakes it pushes, in order |
| `Socket.SocketWorker.RunAdditions` | src/net.rs:177-179 | halves of registrations by anybody are steps of the system |
| `Socket.TurnReached` | src/net.rs:77-130 | from reachable states a turn reaches only reachable states, whatever is registered meanwhile |
| `Socket.TurnLeads` | src/net.rs:77-130 | a turn is exactly: wait if there is no interest, drain, poll, wake, with what others add at each stage |
| `Reactor.FireWakesTheAdded` | src/reactor.rs:80-88 | a signal wakes exactly the tokens added for its handle since its previous signal, in order |
| `Reactor.TokenConservation` | src/reactor.rs:64-88 | per handle, tokens woken followed by tokens waiting are all tokens added, in order |
| `Reactor.FireSucceedsExactly` | src/reactor.rs:85 | the lookup succeeds iff something was added since the previous signal |
| `Reactor.ReactorHandler.AddHandle` | src/reactor.rs:71-75 | the add step |
| `Reactor.ReactorHandler.HandleSignalled` | src/reactor.rs:80-88 | the signal step and its wakes |
| `Sleep.SleepIsSound` | src/reactor.rs:133-159 | in every run at most one timer, never Ready early; below 2^63 ns always Ready, or timer armed, or wake coming, and Ready on the wake |
| `Sleep.PollExactly` | src/reactor.rs:137-158 | a poll is Ready iff at or after the deadline; a late one sets no timer; an early one sets one to the remaining time unless there is one |
| `Sleep.AsI64Exactly` | src/reactor.rs:143 | the time given to the kernel is the remaining nanoseconds modulo 2^64, read as signed; unchanged iff below 2^63 |
| `Sleep.ForsakenExactly` | src/reactor.rs:143 | a sleep can be left waiting for ever iff it is of 2^63 ns or more |
| `Sleep.ForsakenForGood` | src/reactor.rs:138-158 | a forsaken sleep stays so, its timer never going off, until something else has it polled after the deadline |
| `Sleep.SleepFuture.PollAt` | src/reactor.rs:133-159 | Ready iff at or after the deadline; the first early poll makes one timer, set to the remaining time, and registers the task for it |
| `Sources.CompletionIsAnnounced` | src/sync.rs:52-86 | whatever completes a registered source owes or pushes the wake of its task, except a join, a sleep of 2^63 ns or more, or a notification under a sentinel token (also src/fs/async_pool.rs:57-82, src/sync.rs:315-323, src/reactor.rs:80-88, src/executor.rs:259-267) |
| `Sources.PollIsQuiet` | src/sync.rs:98-106 | polls forget no owed wake and register before they decide |
| `Waits.BlockedIsHistory` | src/executor.rs:203-220 | a task is recorded as blocked iff its latest poll ended Pending, and on what that poll had found not ready |
| `EndToEnd.BlockedExactly` | src/executor.rs:203-220 | a task is blocked on a source iff its latest poll ended Pending and that poll's last load of the source found it incomplete |
| `EndToEnd.NoLostWakeup` | src/executor.rs:169-220 | in every interleaving, when the executor is blocked and no addition is half done, no live task waits for a complete source whose completing side is idle, if that kind of source announces completion; for a join exactly the forgotten wait so; the tasks spoken of are all live ones up to 2^32 - 2 spawns |
| `EndToEnd.NobodyWaitsForTheGone` | src/executor.rs:169-220 | so nobody waits for a sender that is gone, a notification given after the first poll (unless under a sentinel), a timer gone off (unless the sleep is forsaken) or a file operation carried out (unless it moved u32::MAX bytes) |
| `EndToEnd.WaitsAtRest` | src/fs/async_pool.rs:48-91 | with executor asleep, pool quiet and no completing side busy, a live task can only wait for an unused sender; a notification not given, given before the first poll, or awaited under a sentinel; a sleep not over, or forsaken and of 2^63 ns or more; a joined task that is unfinished or has forgotten it; a file only if a release was refused or u32::MAX bytes moved |
| `EndToEnd.DeliveredIntact` | src/sync.rs:98-106 | in the whole system too, what a task gets is what was put in, joins included; a notification is Ready iff it was given after the first poll (or the task asks again under READY) |
| `EndToEnd.ExecutorRun` | src/executor.rs:169-220 | within every run of the whole there is a run of the executor's system, action for action |
| `EndToEnd.PoolRun` | src/fs/async_pool.rs:48-91 | likewise for the pool |
| `EndToEnd.NoWakeDropped` | src/executor.rs:169-220 | in the whole system every wake pushed by a source or anybody for an unfinished task is followed by a poll of it, or the task is finished, before the executor waits with no wakes queued |
| `Witnesses.SomebodyCanWait` | src/executor.rs:194-199 | a reachable sleeping runtime with a waiting task |
| `Witnesses.SomebodyWaitsInVain` | src/sync.rs:315-323 | a reachable runtime at rest with a task waiting for a notification given before its first poll |
| `Witnesses.SomebodyOversleeps` | src/reactor.rs:143 | the same with a sleep of 2^63 ns that is over |
| `Witnesses.SomebodyIsForgotten` | src/executor.rs:259-264 | the same with a join whose task, polled by the same executor, has finished |
| `Witnesses.SomebodyMissesTheMaximum` | src/fs/async_pool.rs:246-258 | the same with a file operation that moved u32::MAX bytes |
| `Witnesses.SomebodyIsLeftInTheQueue` | src/ctru_utils.rs:115 | the same with a file operation still queued in an idle pool, after 256 were added in one poll and 255 carried out |
| `LockTasks.WaitingTasksAreListed` | src/sync.rs:168-186 | with tasks and threads on one lock: when the executor is blocked and no unlock is half done, a task that waits for the lock is alive, and on the waiter list iff it is not stranded; if it is, an earlier retry of it was lost |
| `LockTasks.FreeLockIsTaken` | src/sync.rs:168-186 | in runs without lost retries and parks: when the executor is blocked, a free lock that is waited for has a waiting thread awake; nobody waits for a free lock that only tasks use |
| `LockTasks.SpuriousRetryIsHarmless` | src/sync.rs:264-269 | a run in which a task, popped and polled for another reason, finds the lock taken and is still served by the wake to come |
| `SocketTasks.BlockedExactly` | src/net.rs:167-207 | a task is blocked on an interest iff its latest poll ended Pending and the last future it polled for that interest met EAGAIN |
| `SocketTasks.NoLostInterest` | src/net.rs:167-207 | in every interleaving, when the executor is blocked, every live task whose latest receive or send poll was Pending has its registration queued or held by the worker |
| `SocketTasks.NobodyWaitsWhileTheWorkerSleeps` | src/net.rs:73-95 | so when the socket's worker sleeps too, no live task waits for the socket |

## Left out

- LockCode.LockSync: the original waits without limit; the loop here ends with the supplied waits, and unlimited retrying is in the step system.
- ExecutorLoop.ExecutorHandler.DrainWakes: the loop ends with the supplied turns if its queue is not empty by then; unlimited draining is in the step system.
- ExecutorLoop.ExecutorHandler.DrainSpawns: as for the wake loop.
- ExecutorLoop.ExecutorHandler.RunOnce: the outer loop is endless in the original; one turn is modelled, and endless operation is in the step system.
- Locks and sockets are not sources of `EndToEnd`; each has its own system with the executor.
- LockTasks.FreeLockIsTaken: it is about the first 2^32 - 2 spawns, while tokens are unique; and acquisitions are not cancelled; one that is dropped while it waits stays counted in the lock word for ever.
- Fairness and timing: nothing says that a task is polled soon, only that nothing is lost when the executor sleeps.
- Kernel and libctru calls, which appear only through the small specifications above.
- The Close future and the `todo!()` arms for errors that are not OS result codes.
- IPC sessions and servers (ds_ipc); the reactor is a handler of one request or signal at a time.
- The synchronous socket and file layers, the error table, thread creation and the ARM intrinsics.
- Weak-memory reorderings, and the lifetimes of raw pointers held by cancelled futures.
- Error flags of a socket poll (hang-up, error), which wake nobody in the original either.
