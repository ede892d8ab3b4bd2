# Model of the acl concurrency and codec core

A Dafny 4.11 model of the parts of the acl C library, and of the sliced Redis list
built on it, whose correctness is not visible from any one function: the worker
thread pool, the condition variable made from semaphores, the writer-preferring
lock, the sliced list, the timer ring and descriptor table of the event engine, and
the formatter, codecs and scanners with real bounds. `dafny verify dfyconfig.toml`
checks the whole project.

## Modules

| module | models |
|---|---|
| `CondVar` | the condition variable of `acl_pthread_cond.c`: an object and a protocol of any number of waiters, signallers and broadcasters |
| `RwLock` | the lock of `acl_pthread_rwlock.c`: a monitor and a protocol with spurious wake-ups and barging writers |
| `PoolSpec`, `ThreadPool` | the critical sections of `acl_pthread_pool.c` as functions, and the pool with its intrusive list proved against them |
| `PoolProtocol`, `PoolInvariant`, `PoolLists`, `PoolSafety`, `PoolProgress` | the pool as a step system: workers, submitters, batches and a draining shutdown, its invariant, safety over all runs, and progress |
| `SliceList` | `mwredisslicelist.cpp`: tickets, the search loops, and producers and consumers interleaved |
| `TimerRing` | `events_timer_thr.c`: the sorted ring, and one trigger with callbacks that change it |
| `FdTable`, `ReadyList` | the descriptor table of `events_epoll_thr.c`, with `event_thr_prepare` and `event_thr_fire`; the length of its ready list |
| `Printf`, `Formats`, `Base64`, `HostName`, `UrlCode` | the formatter and what its formats mean, the two Base64 codecs, the host and address scanners, percent-encoding |
| `Tally`, `Collections` | sums over threads; an option type, an associativity law, characters of C strings |

A protocol is a state, actions with a guard, and a step function; its main results
hold for every run from the initial state. One action is one stretch of code under
the mutex. A class method is one such stretch, step by step as the code goes, and its
contract ties the fields to a function of the old state; the laws are proved about
that function.

## Where the code does not do what its callers may expect

- Condition variable: the comment at `acl_pthread_cond.c:217` lets a timed-out waiter
  eat a token. It does so with the lock held, and if another waiter has the token it
  waits for ever, and so does the signaller (`CondVar.WedgeReachable`,
  `CondVar.CompletesExactlyUnlessWedged`). A thread that begins to wait after a
  broadcast can take the token of one that waited before (`CondVar.TokenStolen`).
- Pool: a job stays queued when its only thread cannot be created or initialised
  (`PoolSafety.StrandedJob`, `PoolSafety.StrandedExactly`), and a failed worker
  initialisation does not wake the drainer (`PoolProgress.ForgottenDrainer`,
  `PoolProgress.ForgottenExactly`). `idle` drifts upwards by one for each private
  delivery of a batch (`PoolSafety.IdleListExact`).
- Sliced list: an empty element is lost (`SliceList.EmptyStringLost`,
  `SliceList.LostExactly`); only the vector overload of `listrpush` lets one in.
- Timers: the `keep` argument of `event_timer_request_thr` is not used, a new timer's
  flag is whatever its memory held, and a repeated request keeps the old delay
  (`TimerRing.RepeatForgotten`, `TimerRing.OldDelayKept`; `TimerRing.AgainAsAsked`
  says when the caller gets what was asked). The comment before the trigger says that
  it pops one request at a time; it queues all that are due first, so a callback must
  not cancel one of those (`TimerRing.ReachedExactly`).
- Descriptor table: an entry with the FIRE flag that becomes a listener is never
  heard of again (`FdTable.DeafListener`). The ready list can overflow
  (`ReadyList.ReadyOverflows`).
- Base64: three letters left over make the decoder write one byte beyond its buffer
  before it rejects them (`Base64.WritesFit`), and the reverse tables have no entry
  for the byte 255 (`Base64.AclDecode`).
- Percent-decoding: the comment at `acl_urlcode.c:100` says "keep it", but the
  character after a percent sign in the last place but one is overwritten by the NUL
  (`UrlCode.LostExactly`).

## Model

| member | source | states |
|---|---|---|
| `CondVar.Cond.BeginWait` | acllib/src/thread/acl_pthread_cond.c:187-189 | entering a wait counts one waiter more and touches nothing else |
| `CondVar.Cond.Signal` | acllib/src/thread/acl_pthread_cond.c:104-111 | a signal opens one handshake and posts one token exactly if there is a waiter not yet signalled, and is then owed one `wait_done`; otherwise it does nothing |
| `CondVar.Cond.Broadcast` | acllib/src/thread/acl_pthread_cond.c:130-146 | a broadcast opens a handshake and posts a token for every waiter not yet signalled, and is owed as many `wait_done` |
| `CondVar.Cond.EndWait` | acllib/src/thread/acl_pthread_cond.c:215-228 | leaving a wait answers an open handshake; a timed-out waiter that finds one open goes for a token with the lock held instead |
| `CondVar.Cond.EatToken` | acllib/src/thread/acl_pthread_cond.c:216-228 | that waiter, once it has its token, leaves as the others do |
| `CondVar.StepInv` | acllib/src/thread/acl_pthread_cond.c:104-228 | every atomic step of any thread keeps the token invariant and the single lock holder |
| `CondVar.HandshakeConservation` | acllib/src/thread/acl_pthread_cond.c:91-228 | in every reachable state, timed waits included: 0 <= signals <= waiting, each open signal is a token in `wait_sem`, with a waiter or still to be posted, and the `wait_done` that signallers are owed are the open signals plus `wait_done` |
| `CondVar.StuckExactlyWhenWedged` | acllib/src/thread/acl_pthread_cond.c:91-228 | a signal or broadcast under way has no step to carry it on if and only if a timed-out waiter waits for a token under the lock with no token left and none finished |
| `CondVar.WedgedForever` | acllib/src/thread/acl_pthread_cond.c:215-219 | from such a state no schedule ever gets the signaller out |
| `CondVar.WedgeEntry` | acllib/src/thread/acl_pthread_cond.c:195-219 | a step leads into such a state if and only if a timed-out waiter gets the lock while all tokens are taken, or the last token is taken beside such a waiter |
| `CondVar.WedgeReachable` | acllib/src/thread/acl_pthread_cond.c:195-219 | one timed waiter, one untimed waiter and one signal reach it |
| `CondVar.UntimedRuns` | acllib/src/thread/acl_pthread_cond.c:195-196 | with untimed waits only, no thread ever waits for a token under the lock, so the wedge never comes |
| `CondVar.HandshakeCompletes` | acllib/src/thread/acl_pthread_cond.c:91-228 | from any state without the wedge, timed waits or not, every signal and broadcast under way can be brought home within a bound read off the state |
| `CondVar.CompletesExactlyUnlessWedged` | acllib/src/thread/acl_pthread_cond.c:91-228 | so some schedule gets every signaller out if and only if the state is not wedged |
| `CondVar.HandshakesBounded` | acllib/src/thread/acl_pthread_cond.c:91-228 | and no schedule makes more handshake steps than that bound while no new signal starts and no timer expires |
| `CondVar.BroadcastReleases` | acllib/src/thread/acl_pthread_cond.c:126-165 | what a broadcast is for: over any run after it, once all signallers are home again no more threads are left in the wait than have begun to wait since, and none if none has |
| `CondVar.SignalsRelease` | acllib/src/thread/acl_pthread_cond.c:91-122 | what a signal is for: over any run, once all signallers are home again at least as many waiters have left the wait as had open signals or were addressed |
| `CondVar.TokenStolen` | acllib/src/thread/acl_pthread_cond.c:187-195 | not always the waiters addressed: a thread that begins to wait after a broadcast takes the token, and the earlier waiter sleeps on |
| `RwLock.Lock.ReadLock` | acllib/src/thread/acl_pthread_rwlock.c:107-123 | a reader waits while a writer is blocked or holds the lock, fails at 65535 readers, and otherwise is counted |
| `RwLock.Lock.TryReadLock` | acllib/src/thread/acl_pthread_rwlock.c:154-160 | the same without waiting |
| `RwLock.Lock.WriteLock` | acllib/src/thread/acl_pthread_rwlock.c:253-269 | a writer waits, counted as blocked, until the state is 0, and then takes it alone |
| `RwLock.Lock.TryWriteLock` | acllib/src/thread/acl_pthread_rwlock.c:186-190 | takes a free lock even past blocked writers |
| `RwLock.Lock.Unlock` | acllib/src/thread/acl_pthread_rwlock.c:216-227 | the last reader or the writer frees the lock and wakes one writer if any is blocked, all readers otherwise |
| `RwLock.StepInv` | acllib/src/thread/acl_pthread_rwlock.c:89-275 | every step keeps exact counting and both no-lost-wake-up properties |
| `RwLock.RunInv` | acllib/src/thread/acl_pthread_rwlock.c:89-275 | for every interleaving: a reader that sleeps un-notified has a writer blocked or holding, and a free lock with blocked writers has one whose wake-up is pending |
| `RwLock.StateWordIsExact` | acllib/src/thread/acl_pthread_rwlock.c:89-275 | in every reachable state, state is -1 exactly for one writer and no reader, n exactly for n readers and no writer, within -1..65535, and `blocked_writers` counts the writers inside the wait |
| `RwLock.Exclusion` | acllib/src/thread/acl_pthread_rwlock.c:89-275 | while one thread writes, no other holds the lock in any way |
| `RwLock.FreeLockIsTaken` | acllib/src/thread/acl_pthread_rwlock.c:108-117 | beside a free lock with anyone waiting, some waiter has its wake-up pending and takes the lock when it runs |
| `RwLock.ReadersNeverGrow` | acllib/src/thread/acl_pthread_rwlock.c:107-117 | over any run in which a writer stays blocked, the number of readers does not grow |
| `ThreadPool.Pool.constructor` | acllib/src/thread/acl_pthread_pool.c:205-231 | a worker sits out idle timeouts only if both settings are positive, 1000 * idle / wait of them |
| `ThreadPool.Pool.WorkerCreate` | acllib/src/thread/acl_pthread_pool.c:205-231 | a new worker takes a condition variable from the free list, or a new one, and joins the crew with an empty private queue |
| `ThreadPool.Pool.LinkFirst` | acllib/src/thread/acl_pthread_pool.c:326-337 | pushing a worker in front keeps the doubly linked list well formed and prepends it to the list |
| `ThreadPool.Pool.Unlink` | acllib/src/thread/acl_pthread_pool.c:395-405 | unlinking a worker at any position keeps the list well formed and removes just that worker |
| `ThreadPool.Pool.Leave` | acllib/src/thread/acl_pthread_pool.c:395-407 | a waiter leaves the list wherever it stands, and the idle count goes down by one |
| `ThreadPool.Pool.Loop` | acllib/src/thread/acl_pthread_pool.c:449-485 | the worker loop takes the private job first, then the oldest pooled job, quits if told to, and otherwise parks itself at the head of the list |
| `ThreadPool.Pool.AfterWait` | acllib/src/thread/acl_pthread_pool.c:359-413 | after a wait, whatever woke it: private job, pooled job, quit, last timeout or another wait; it is still listed exactly if it waits on |
| `ThreadPool.Pool.Retire` | acllib/src/thread/acl_pthread_pool.c:487-498 | a worker at its end returns its condition variable, is uncounted, and signals the drainer exactly if the pool quits |
| `ThreadPool.Pool.AddToQueue` | acllib/src/thread/acl_pthread_pool.c:577-599 | a job goes to the end of the pool queue, and a thread is asked for exactly below the limit |
| `ThreadPool.Pool.JobDeliver` | acllib/src/thread/acl_pthread_pool.c:510-531 | the head of the idle list gets the job as its only private one and leaves the list |
| `ThreadPool.Pool.JobAdd` | acllib/src/thread/acl_pthread_pool.c:571-608 | a job goes straight to the head of the idle list if its private queue is empty, else to the pool queue; and who is signalled |
| `PoolSpec.FirstFree` | acllib/src/thread/acl_pthread_pool.c:727-755 | the batch iterator stops at the first listed worker without a private job |
| `ThreadPool.Pool.FindFree` | acllib/src/thread/acl_pthread_pool.c:727-747 | the scan over the `next` pointers finds that worker |
| `ThreadPool.Pool.JobAppend` | acllib/src/thread/acl_pthread_pool.c:719-782 | one job of a batch goes to exactly one private slot, in list order, or to the pool queue |
| `ThreadPool.Pool.SweepOut` | acllib/src/thread/acl_pthread_pool.c:883-891 | leaving the list at the end of a batch keeps it well formed although the `prev` of a new head is left stale |
| `ThreadPool.Pool.Sweep` | acllib/src/thread/acl_pthread_pool.c:872-917 | the sweep leaves exactly the workers without a private job, in order, and signals those with one and as many others as the queue has jobs |
| `ThreadPool.Pool.BatAddEnd` | acllib/src/thread/acl_pthread_pool.c:862-927 | the end of a batch as one step, the idle counter untouched |
| `ThreadPool.Pool.WaitWorkerExit` | acllib/src/thread/acl_pthread_pool.c:1192-1219 | the shutdown sets the quit flag, fails on a negative count, is done at zero, and otherwise signals the whole idle list |
| `PoolInvariant.InitInv` | acllib/src/thread/acl_pthread_pool.c:929-950 | a new pool satisfies the invariant |
| `PoolInvariant.AdoptConds` | acllib/src/thread/acl_pthread_pool.c:223-227 | taking a condition variable keeps each one with a single live worker or in the free list |
| `PoolInvariant.RetireConds` | acllib/src/thread/acl_pthread_pool.c:233-238 | so does giving it back |
| `PoolLists.BatchSignalsAll` | acllib/src/thread/acl_pthread_pool.c:872-917 | whom the end of a batch signals: every worker with a private job |
| `PoolSafety.NoIdlerBesideWork` | acllib/src/thread/acl_pthread_pool.c:359-413 | a worker that waits without a private job finds the pool queue empty |
| `PoolSafety.IdleTimeoutExact` | acllib/src/thread/acl_pthread_pool.c:377-381 | beside an empty queue an idle worker sits out exactly `wait_count` timed waits in a row and then quits |
| `PoolSafety.AppendAllInv` | acllib/src/thread/acl_pthread_pool.c:700-782 | in the middle of a batch nothing is lost either: the invariant holds at the position that the batch has reached |
| `PoolSafety.BatchEndInv` | acllib/src/thread/acl_pthread_pool.c:862-927 | at its end no listed worker holds a private job, a non-empty idle list again means an empty queue, and every delivered worker has its signal |
| `PoolSafety.StepInv` | acllib/src/thread/acl_pthread_pool.c:318-635 | every critical section of workers, submitters, batches and the shutdown keeps the whole invariant, spurious wake-ups, timeouts and failures included |
| `PoolSafety.InOrderExactlyOnce` | acllib/src/thread/acl_pthread_pool.c:318-635 | in every reachable state the submitted jobs are the assigned jobs followed by the pool queue, in order, and each assigned job is in one private slot, running or finished, just as often |
| `PoolSafety.IdleListExact` | acllib/src/thread/acl_pthread_pool.c:326-339 | in every reachable state the idle list is exactly the waiting workers without a private job, each once; it is non-empty only with an empty queue; `idle` is its length plus the private deliveries of all batches; length <= count = live threads <= limit |
| `PoolSafety.EmptyPoolIsDone` | acllib/src/thread/acl_pthread_pool.c:1194-1203 | with no thread left, everything submitted has finished if and only if nothing is queued; and nothing is, unless a thread could not be created or initialised |
| `PoolSafety.GracefulDrain` | acllib/src/thread/acl_pthread_pool.c:1179-1254 | for every run: when the shutdown returns no thread is left, and every job submitted so far has finished, as often as it was submitted, if and only if no job is stranded in the pool queue |
| `PoolSafety.StrandedExactly` | acllib/src/thread/acl_pthread_pool.c:577-608 | a step strands jobs if and only if it submits to a pool without threads while none can be created, or is the failed initialisation of the last thread beside queued jobs; a worker that quits never does |
| `PoolSafety.StrandedJob` | acllib/src/thread/acl_pthread_pool.c:586-608 | it happens: if the only `pthread_create` fails, the shutdown returns at once and the job never runs |
| `PoolProgress.HandOverReaches` | acllib/src/thread/acl_pthread_pool.c:533-545 | a worker with a private job is notified, or the signal sent after the unlock is still to come and is sent to it; notified, it runs that job |
| `PoolProgress.WorkIsOwed` | acllib/src/thread/acl_pthread_pool.c:449-498 | while a job is queued, in a private slot or running, some thread has a step that needs no luck and decreases a measure, unless the queued ones have no thread |
| `PoolProgress.JobsFinish` | acllib/src/thread/acl_pthread_pool.c:449-498 | without any shutdown, all jobs submitted so far finish within that measure by such steps, unless they are stranded |
| `PoolProgress.JobsFinishExactly` | acllib/src/thread/acl_pthread_pool.c:449-498 | and stranded jobs do not: such steps finish everything if and only if nothing is stranded |
| `PoolProgress.QuitStepCounts` | acllib/src/thread/acl_pthread_pool.c:449-498 | once the quit flag is set every worker step decreases one measure, spurious or not |
| `PoolProgress.ShutdownBounded` | acllib/src/thread/acl_pthread_pool.c:1205-1244 | so the steps left before the shutdown ends are bounded, whatever the schedule |
| `PoolProgress.SomeoneIsOwed` | acllib/src/thread/acl_pthread_pool.c:359-375 | while a thread is left, some thread has a step that needs no luck |
| `PoolProgress.ShutdownCompletes` | acllib/src/thread/acl_pthread_pool.c:1205-1244 | a shutdown under way ends within that bound by steps none of which is a matter of luck, unless the drainer sleeps un-notified with no thread left |
| `PoolProgress.ForgottenExactly` | acllib/src/thread/acl_pthread_pool.c:425-435 | a step makes the drainer so forgotten if and only if the last thread fails to initialise while the drainer sleeps un-notified |
| `PoolProgress.ShutdownEndsExactly` | acllib/src/thread/acl_pthread_pool.c:1205-1244 | such steps end a shutdown under way if and only if the drainer is not forgotten |
| `PoolProgress.ForgottenDrainer` | acllib/src/thread/acl_pthread_pool.c:425-435 | it happens: the only worker fails to initialise once the shutdown has begun |
| `PoolProgress.OwedWorks` | acllib/src/thread/acl_pthread_pool.c:449-498 | every step that needs no luck, whether or not there is a shutdown, decreases one measure |
| `PoolProgress.EveryScheduleEnds` | acllib/src/thread/acl_pthread_pool.c:449-498 | so whichever of these steps are made, in whatever order, there are at most so many; and when none is left, all jobs submitted so far have finished unless some were stranded at the start, and a shutdown under way has returned unless it was forgotten at the start |
| `SliceList.ListLPop` | aclredis/include/mw/mwredisslicelist.cpp:236-261 | one search makes at most N probes in rotation order, returns the first answer that is not empty, and reports empty only after N probes that were |
| `SliceList.ListBatchLPop` | aclredis/include/mw/mwredisslicelist.cpp:280-309 | the same for the batch pop |
| `SliceList.RotationEnds` | aclredis/include/mw/mwredisslicelist.cpp:239-259 | the search comes back to its start at probe N and not before |
| `SliceList.EverySliceOnce` | aclredis/include/mw/mwredisslicelist.cpp:239-259 | N probes visit every slice, each exactly once |
| `SliceList.TicketsBalanced` | aclredis/include/mw/mwredisslicelist.cpp:131-133 | below 2^64 tickets, any two slices have had equally many pushes up to one; and for ever if and only if N divides 2^64 |
| `SliceList.RotationSurvivesWrap` | aclredis/include/mw/mwredisslicelist.cpp:132-133 | past the wrap-around of the 64-bit counter the rotation goes on undisturbed if and only if N divides 2^64 |
| `SliceList.StepInv` | aclredis/include/mw/mwredisslicelist.cpp:115-310 | every atomic step of a producer or consumer keeps conservation and the probe history |
| `SliceList.SliceIsFifo` | aclredis/include/mw/mwredisslicelist.cpp:115-310 | for any interleaving, what was pushed to a slice is what was popped from it, in order, followed by what it stores; without empty strings all of it reached a consumer |
| `SliceList.EmptyMeansAllSeen` | aclredis/include/mw/mwredisslicelist.cpp:236-258 | for any interleaving, a client that was told "empty" has probed each slice exactly once since its call, and found nothing in it at that moment (an empty string counts as nothing for `listlpop`) |
| `SliceList.LostExactly` | aclredis/include/mw/mwredisslicelist.cpp:244-258 | for any interleaving, what is popped and not delivered is one empty string for each `listlpop` probe that finds the slice headed by one; so a slice is a FIFO between producers and consumers if and only if there is no such probe |
| `SliceList.EmptyStringLost` | aclredis/include/mw/mwredisslicelist.cpp:244-258 | it happens: an empty element is popped and lost, as its length is the code for an empty slice |
| `TimerRing.Engine.TimerRequest` | acllib/src/event/events_timer_thr.c:25-83 | a request takes an existing timer of the same callback and context off, keeps its old delay, and puts it behind all timers due no later |
| `TimerRing.Engine.TimerCancel` | acllib/src/event/events_timer_thr.c:87-119 | a cancel removes the timer and returns the time left, 0 if overdue and -1 if there is none |
| `TimerRing.Engine.TimerKeep` | acllib/src/event/events_timer_thr.c:121-137 | sets the repeat flag of one timer |
| `TimerRing.RequestLaws` | acllib/src/event/events_timer_thr.c:40-79 | a request keeps the ring sorted with one timer per key, changes no other timer, and leaves only later ones behind the one it armed |
| `TimerRing.RemoveLaws` | acllib/src/event/events_timer_thr.c:104-114 | so does a cancel, which takes off just its own key |
| `TimerRing.DueExact` | acllib/src/event/events_timer_thr.c:174-183 | the queue of due timers holds exactly the timers due at entry, each once, in the order of their times |
| `TimerRing.Engine.TimerTrigger` | acllib/src/event/events_timer_thr.c:165-202 | one trigger makes exactly the callbacks of that queue, in order, up to the first timer that an earlier callback of it has cancelled, whose memory is freed |
| `TimerRing.ReachedExactly` | acllib/src/event/events_timer_thr.c:185-200 | it gets to the end of its queue if and only if no callback cancels a timer still queued, else just to the first one cancelled |
| `TimerRing.OpKeepsQueue` | acllib/src/event/events_timer_thr.c:185-200 | what a callback does leaves all queued timers on the ring if and only if it cancels none of them |
| `TimerRing.TriggerExact` | acllib/src/event/events_timer_thr.c:165-202 | whatever the callbacks do to other timers, the ring stays sorted with one timer per key, and a timer that none names is as its turn left it |
| `TimerRing.TriggerOutcome` | acllib/src/event/events_timer_thr.c:189-197 | for such a timer: untouched if not due, gone if it fired once, back later than the trigger and counted once if it repeats |
| `TimerRing.KeyFate` | acllib/src/event/events_timer_thr.c:165-202 | every timer goes its own way through a trigger: what becomes of it follows from its own turn and the operations that name it, whatever the callbacks do to others |
| `TimerRing.LastRequest` | acllib/src/event/events_timer_thr.c:185-200 | a request made by a callback and the last operation to name its timer: what it armed is there after the trigger, unless a later turn of the same trigger fires it, and then what that leaves |
| `TimerRing.OneShotAgain` | acllib/src/event/events_timer_thr.c:189-200 | a timer that fires once and arms itself again in its own callback is a new one afterwards, with the delay asked for and the flag of its memory |
| `TimerRing.ArmedAsAsked` | acllib/src/event/events_timer_thr.c:49-70 | the armed timer has the time asked for; it has the delay asked for if and only if it is new or had it, and the flag asked for if and only if the old timer, or the memory of a new one, had it |
| `TimerRing.AgainAsAsked` | acllib/src/event/events_timer_thr.c:189-197 | after the trigger that fires it, whatever other timers do, it is due again as asked if and only if old timer or memory were so |
| `TimerRing.RepeatForgotten` | acllib/src/event/events_timer_thr.c:58-70 | a timer asked to repeat that fires once |
| `TimerRing.OldDelayKept` | acllib/src/event/events_timer_thr.c:49-56 | a timer that repeats goes on with its old delay, whatever delay and flag are asked for |
| `FdTable.Engine.EnableRead` | acllib/src/event/events_epoll_thr.c:47-162 | enabling for reading: panics exactly on a stream enabled for writing, refreshes handler and timeout of one already enabled, and otherwise appends the entry, takes one reference, and asks the kernel unless data is pending |
| `FdTable.Engine.EnableListen` | acllib/src/event/events_epoll_thr.c:164-228 | the same for a listener, which always asks the kernel |
| `FdTable.Engine.EnableWrite` | acllib/src/event/events_epoll_thr.c:230-325 | the same for writing |
| `FdTable.Engine.DisableReadWrite` | acllib/src/event/events_epoll_thr.c:329-398 | disabling moves the last entry of the table into the gap with its index, drops one reference and the interest, and resets the entry |
| `FdTable.EnlistCoherent` | acllib/src/event/events_epoll_thr.c:91-159 | enabling a stream that is off keeps the table coherent, and its socket is not in the interest set yet, so the kernel does not refuse it |
| `FdTable.DisableCoherent` | acllib/src/event/events_epoll_thr.c:366-397 | the swap-remove keeps every back-index right and the interest set in step |
| `FdTable.Room` | acllib/src/event/events_epoll_thr.c:111-112 | the append stays inside the array, which is as long as the socket numbers reach |
| `FdTable.TableExact` | acllib/src/event/events_epoll_thr.c:47-398 | in every reachable state the table holds each enabled stream exactly once at the index its entry knows, the interest set is the enabled streams without the FIRE flag, and an enabled stream has exactly one reference more than at the start |
| `FdTable.Engine.ThrPrepare` | acllib/src/event/events.c:189-240 | the scan resets the events of every entry and returns how many wait |
| `FdTable.PreparedOnce` | acllib/src/event/events.c:195-237 | each enabled entry is put on the ready list once or counted as waiting once, never both |
| `FdTable.Engine.Report` | acllib/src/event/events_epoll_thr.c:506-530 | one report of the kernel sets event bits and lists the stream, a second time if it is listed already; it says whether the list had room, which the code does not check |
| `ReadyList.ListedTimes` | acllib/src/event/events_epoll_thr.c:465-530 | in one round of the loop a stream is listed at most twice, and twice if and only if the scan picked it to be read and the kernel then reports it failed without input |
| `ReadyList.ReadyFits` | acllib/src/event/events_epoll_thr.c:506-530 | so the ready list is long enough if no stream is listed twice, as when the scan is skipped; and with the scan its length is the streams picked plus those that the reports add |
| `ReadyList.ReadyOverflows` | acllib/src/event/events_epoll_thr.c:524-528 | it can overflow: one watched stream with something to read and then an error takes two entries of a list of one |
| `FdTable.Engine.FireTurn` | acllib/src/event/events.c:254-310 | one turn of the dispatch: which callback, and that a stream that is no listener is disabled first |
| `FdTable.FireLaws` | acllib/src/event/events.c:254-310 | a turn calls back exactly if an event is set, with the non-null handler registered for the enabled direction; unless it listens, the stream is then off, out of the table and out of the interest set |
| `FdTable.CalledOnce` | acllib/src/event/events.c:254-310 | whatever is on the ready list how often, and whatever callbacks enable or disable, one pass calls a stream at most once, a listener at most once for each kind of event |
| `FdTable.Engine.ThrFire` | acllib/src/event/events.c:242-315 | the dispatch loop makes exactly the calls of its turns |
| `FdTable.EnabledIsHeard` | acllib/src/event/events_epoll_thr.c:94-145 | a stream just enabled for reading is watched by the kernel or picked by the next scan |
| `FdTable.TimeoutExact` | acllib/src/event/events.c:222-236 | a stream enabled with nothing pending is picked exactly when it has a timeout and that is over |
| `FdTable.Unheard` | acllib/src/event/events.c:202-236 | an enabled entry is neither picked nor watched if and only if it has the FIRE flag and became a listener or lost what was pending |
| `FdTable.DeafListener` | acllib/src/event/events_epoll_thr.c:180-204 | a stream enabled with data pending and then turned into a listener stays enabled and is never called back, over every run and whatever arrives, until an operation enables or disables it again |
| `Printf.DigitTables` | acllib/src/stdlib/acl_vsprintf.c:31-35 | both digit tables, and the x of the hexadecimal prefix |
| `Printf.DigitsLaws` | acllib/src/stdlib/acl_vsprintf.c:61-71 | the digits of a number stand for it, without a leading zero |
| `Printf.NumeralFits` | acllib/src/stdlib/acl_vsprintf.c:61-71 | 64 bits give at most 64 digits, so the scratch array is long enough |
| `Printf.NumberWidth` | acllib/src/stdlib/acl_vsprintf.c:72-122 | a number takes exactly max(width, sign + prefix + max(precision, digits)) characters |
| `Printf.NumberLayout` | acllib/src/stdlib/acl_vsprintf.c:74-122 | the fill goes behind the rest of the field, between prefix and digits, or in front, as the flags say |
| `Printf.BodyValue` | acllib/src/stdlib/acl_vsprintf.c:72-117 | its digits, with the zeros of the precision, have its value |
| `Printf.Number` | acllib/src/stdlib/acl_vsprintf.c:26-124 | `number` prints sign, prefix, zeros, digits and fill in the places that the flags say |
| `Printf.AtoiReadsBack` | acllib/src/stdlib/acl_vsprintf.c:126-133 | `skip_atoi` reads decimal digits back to the number and stops behind them |
| `Printf.ArgumentRead` | acllib/src/stdlib/acl_vsprintf.c:338-354 | an argument of the width that its qualifier names is read as the number it was |
| `Formats.DirectiveScanned` | acllib/src/stdlib/acl_vsprintf.c:178-228 | whatever directive is written down, with any flags, width, precision (also as arguments), qualifier and conversion, and whatever follows: the formatter reads just these back |
| `Formats.IntegerDirective` | acllib/src/stdlib/acl_vsprintf.c:319-355 | and an integer directive prints its argument as they say |
| `Formats.FormatShift` | acllib/src/stdlib/acl_vsprintf.c:170-356 | a format is read the same wherever it stands in a longer one |
| `Formats.PartsPrinted` | acllib/src/stdlib/acl_vsprintf.c:170-356 | whatever texts and directives a format is put together from, the formatter gives what they mean, in order, stored positions and arguments taken included |
| `Formats.DecimalRoundTrip` | acllib/src/stdlib/acl_vsprintf.c:319-355 | `%d` prints every int in decimal, and a non-negative one reads back |
| `Printf.PlainText` | acllib/src/stdlib/acl_vsprintf.c:170-176 | text without directives is copied whatever surrounds it |
| `Printf.Output.Put` | acllib/src/stdlib/acl_vsprintf.c:172-174 | a character goes into the buffer only while there is room, but always counts |
| `Printf.Vsnprintf` | acllib/src/stdlib/acl_vsprintf.c:145-367 | the result is the length of the whole output, which depends on format and arguments only; the buffer holds what fits before a NUL; no byte beyond the size changes; and which positions are stored through which pointers |
| `Printf.StoreAt` | acllib/src/stdlib/acl_vsprintf.c:285-298 | the position that a conversion `n` stores is the length of the whole output before it, whatever the size of the buffer |
| `Printf.FinishedIs` | acllib/src/stdlib/acl_vsprintf.c:358-362 | byte by byte: the first size - 1 characters, the NUL, and every other byte as it was |
| `Base64.TablesInverse` | acllib/src/code/acl_base64.c:17-37 | the two tables are inverse to each other |
| `Base64.EncodedShape` | acllib/src/code/acl_base64.c:45-74 | 4 * ceil(n / 3) characters, all of the alphabet except the padding at the end |
| `Base64.RoundTrip` | acllib/src/code/acl_base64.c:39-129 | decoding what was encoded gives the bytes back, for every byte string |
| `Base64.TextRoundTrip` | acllib/src/code/acl_vstring_base64.c:55-149 | the same through the text, for both decoders |
| `Base64.AclEncode` | acllib/src/code/acl_base64.c:39-79 | the array encoder produces that text and a NUL, and its buffer is filled exactly |
| `Base64.VstringEncode` | acllib/src/code/acl_vstring_base64.c:55-91 | the string encoder produces the same text |
| `Base64.AclDecode` | acllib/src/code/acl_base64.c:81-129 | the decoder returns the number of bytes written exactly for well-formed strings, and -1 for all others; and when it reads beyond its table, which is by a second character 255 of a group only |
| `Base64.AcceptsExactly` | acllib/src/code/acl_base64.c:99-125 | well-formed: groups of four letters, except for one or two padding characters at the very end; then three bytes for each group, less one for each padding |
| `Base64.AcceptedFits` | acllib/src/code/acl_base64.c:96-127 | on an accepted string the bytes and the NUL fit the allocated buffer |
| `Base64.WritesFit` | acllib/src/code/acl_base64.c:96-123 | the bytes written before a rejection fit it if and only if not three letters are left over at the end of a string of letters |
| `Base64.ThreeLetters` | acllib/src/code/acl_base64.c:96-115 | "AAA" is such a string |
| `Base64.VstringDecoding` | acllib/src/code/acl_vstring_base64.c:95-149 | the string decoder: null for a length that is not a multiple of four or a bad character, and it stops at the first padding; and when it reads beyond its table, by any character 255 that it comes to |
| `Base64.BeyondIsBad` | acllib/src/code/acl_base64.c:20-37 | a string on which a decoder reads beyond its table is one that it should reject |
| `Base64.DecodersAgree` | acllib/src/code/acl_vstring_base64.c:131-146 | it gives the same bytes on everything that the other accepts, and accepts more exactly by strings with padding before the end |
| `Base64.TextAfterPadding` | acllib/src/code/acl_vstring_base64.c:136-137 | "QQ==QQ==" is one |
| `Base64.Canonical` | acllib/src/code/acl_base64.c:39-129 | an accepted string is what encoding its bytes gives if and only if the bits left over by the padding are zero |
| `Base64.CanonicalText` | acllib/src/code/acl_base64.c:39-129 | the same for the text: decoding and encoding gives it back |
| `HostName.ValidHostName` | acllib/src/net/acl_valid_hostname.c:23-102 | accepts exactly names of at most 255 characters whose parts between dots are non-empty, at most 63 long, over letters, digits, underscore and hyphen, without a hyphen first or last, with a letter or underscore somewhere |
| `HostName.Hyphen` | acllib/src/net/acl_valid_hostname.c:65-72 | the branch without a length check: a label never ends there, so the bound of 63 holds all the same |
| `HostName.ValidIpv4` | acllib/src/net/acl_valid_hostname.c:212-281 | accepts exactly "0" and four decimal octets up to 255, the first zero only if all are, in the first 127 characters cut off at the last bar or else the last colon |
| `HostName.ZerosAre` | acllib/src/net/acl_valid_hostname.c:256-262 | the test for nothing but zeros and dots means that all octets are zero |
| `HostName.InetNtop4` | acllib/src/net/acl_sane_inet.c:40-67 | with room for 16 it writes the dotted text and a NUL, at most 16 characters and nothing else; with less it writes nothing |
| `HostName.AddressParts` | acllib/src/net/acl_sane_inet.c:49-65 | that text splits at the dots into the four octets again |
| `HostName.AddressAccepted` | acllib/src/net/acl_valid_hostname.c:212-281 | and the scanner accepts it if and only if the first octet is not zero or all are |
| `UrlCode.RoundTrip` | acllib/src/code/acl_urlcode.c:17-117 | decoding what was encoded gives the bytes back, for every byte string |
| `UrlCode.EncodedBytes` | acllib/src/code/acl_urlcode.c:35-48 | an encoded string has only letters, digits, `_`, `-`, `.` and percent signs |
| `UrlCode.EncodedLength` | acllib/src/code/acl_urlcode.c:30-50 | it is longer by two for each escape |
| `UrlCode.UrlEncode` | acllib/src/code/acl_urlcode.c:17-54 | the encoder on both allocation paths: every write, the NUL included, is inside the buffer as it has grown by then |
| `UrlCode.UrlDecode` | acllib/src/code/acl_urlcode.c:75-117 | the decoder inside its buffer |
| `UrlCode.LostExactly` | acllib/src/code/acl_urlcode.c:99-104 | it loses a character if and only if the one before the last is a percent sign, and then the last one |
| `UrlCode.EscapeCutShort` | acllib/src/code/acl_urlcode.c:99-104 | "%4" decodes to "%" |

## Left out

- TimerRing.Engine.TimerTrigger: stops where a queued pointer leads to freed memory,
  because C defines nothing from there on.
- Base64.AclDecode: the outcome once the table is read beyond its end, which C does not
  define.
- Base64.VstringDecoding: the same.
- Printf.Vsnprintf: widths, precisions and the result are unbounded integers; pointers
  of `%n` that lead into the buffer or the format, the wrap-around of a huge size and
  arguments of the wrong type are not modelled. The absolute value of the least long is
  taken as 2^63.
- SliceList.ListBatchLPop: an error of Redis is a negative code.
- FdTable.Engine.Report: the kernel reports only what it was asked for; what a write
  beyond the ready list destroys is not modelled.
- Failing mutexes, condition variables, semaphores and `epoll_ctl`; the wall clock,
  which is a parameter and does not run backwards within a trigger.
- Pool: the poller thread, overload sleeps and warnings, logging, the disabled
  `USE_SLOT` code, and setters called while workers run. The snapshot of `thr_iter`
  is taken inside the locked step, although `acl_pthread_pool_bat_add_begin` reads it
  just before it locks (lines 709-711). A private queue holds at most one job, which
  the model keeps as an option. Freed workers are not modelled as freed memory.
- Sliced list: `list_totallen`, `list_len`, the `_by_index` variants and `list_lrange`
  (its guard rejects every useful range), whose members would be easy.
- Timer ring: the intrusive ring is a sequence of timers and a queued pointer is the
  key of its timer, so aliasing of freed timers is not captured.
- Descriptor table: entries are records named by the socket of their stream, so
  aliasing between entries is not captured; `fdidx_ready`, `maxfd`, the dog thread and
  the reset of `last_check` are left out; streams are not closed during a pass; a
  panic leaves the state as it was, since the program ends. The ways the other event
  engines keep their tables are not modelled.
- Base64, percent-encoding: allocation failures; lengths beyond an int.
- Host scanners: `acl_valid_ipv6_hostaddr`, whose language is not that of section 2.2
  of RFC 4291, Unix-domain addresses, and warnings.
- `escape.cpp`, whose pair is not an inverse, `acl_mbox`, the AVL trees, the private
  containers, and all Redis command wrappers.
