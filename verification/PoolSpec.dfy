/**
 What each critical section of the worker thread pool (acl_pthread_pool.c) does
 to the fields that worker_mutex protects, as functions. ThreadPool.dfy proves
 the pointer-linked pool against them; PoolProtocol.dfy runs them as the atomic
 steps of any number of workers, submitters and a draining shutdown.
 */
module PoolSpec {

  import opened Collections

  type Job = nat

  /** The pool under its mutex. Workers are numbered in the order their threads
      are created. `slots[w]` is worker w's private job, `idleList` the idle list
      from its head on, `waitCount` the timed waits an idle worker sits out
      before it quits (0: its waits have no timeout). `submitted` and `handedOut`
      are history, oldest first: all jobs submitted so far, and those of them that
      have been assigned to a worker. */
  datatype Shared = Shared(
    limit: nat,
    waitCount: nat,
    queue: seq<Job>,
    idleList: seq<nat>,
    slots: seq<Option<Job>>,
    count: int,
    idle: int,
    quit: bool,
    freeConds: seq<nat>,
    conds: nat,
    submitted: seq<Job>,
    handedOut: seq<Job>)

  predicate HasJob(p: Shared, w: nat) { w < |p.slots| && p.slots[w].Some? }

  // worker_create: timed waits only when both settings are positive and at least
  // one wait fits into the idle timeout.
  function WaitCount(idleTimeout: int, scheduleWait: int): nat {
    if idleTimeout > 0 && scheduleWait > 0 then 1000 * idleTimeout / scheduleWait else 0
  }

  function Fresh(limit: nat, waitCount: nat): Shared {
    Shared(limit, waitCount, [], [], [], 0, 0, false, [], 0, [], [])
  }

  // ------------------------------------------------------------------- workers

  // How a worker leaves a critical section: with a job to run, parked on the
  // idle list, back in the same wait, or on its way out.
  datatype Outcome = Run(job: Job) | Park | Sleep(idleCount: nat) | Quit

  datatype Status = Signalled | TimedOut | Failed

  // worker_create: a condition variable from the free list, or a new one.
  function Adopt(p: Shared): (Shared, nat) {
    if p.freeConds != []
    then (p.(freeConds := p.freeConds[1..]), p.freeConds[0])
    else (p.(conds := p.conds + 1), p.conds)
  }

  // The worker loop from its head to the next unlock, wait or exit.
  function Next(p: Shared, w: nat): (Shared, Outcome) {
    if HasJob(p, w) then
      (p.(slots := p.slots[w := None]), Run(p.slots[w].value))
    else if p.queue != [] then
      (p.(queue := p.queue[1..], handedOut := p.handedOut + [p.queue[0]]), Run(p.queue[0]))
    else if p.quit then
      (p, Quit)
    else
      (p.(idleList := [w] + p.idleList, idle := p.idle + 1), Park)
  }

  function Without(list: seq<nat>, w: nat): seq<nat> {
    if list == [] then []
    else if list[0] == w then list[1..]
    else [list[0]] + Without(list[1..], w)
  }

  function Unlist(p: Shared, w: nat): Shared {
    p.(idleList := Without(p.idleList, w), idle := p.idle - 1)
  }

  // worker_wait after its condition variable returned, and the loop after it.
  function Wake(p: Shared, w: nat, status: Status, idleCount: nat): (Shared, Outcome) {
    if HasJob(p, w) then Next(p, w)
    else if p.queue != [] then Next(Unlist(p, w), w)
    else if p.quit then (Unlist(p, w), Quit)
    else match status
      case TimedOut => if idleCount + 1 < p.waitCount then (p, Sleep(idleCount + 1)) else (Unlist(p, w), Quit)
      case Signalled => (p, Sleep(0))
      case Failed => (Unlist(p, w), Quit)
  }

  // The end of worker_thread, with worker_free.
  function Retire(p: Shared, cond: nat): Shared {
    p.(freeConds := [cond] + p.freeConds, count := p.count - 1)
  }

  // ---------------------------------------------------------------- submission

  // A job at the end of the pool queue, and a new thread below the limit.
  // `created` is whether pthread_create would succeed.
  predicate Spawns(p: Shared, created: bool) { p.count < p.limit && created }

  function Enqueue(p: Shared, job: Job, created: bool): Shared {
    var q := p.(queue := p.queue + [job], submitted := p.submitted + [job]);
    if Spawns(p, created) then q.(count := p.count + 1, slots := p.slots + [None]) else q
  }

  // A job in the private slot of worker w.
  function Deliver(p: Shared, w: nat, job: Job): Shared
    requires w < |p.slots|
  {
    p.(slots := p.slots[w := Some(job)], submitted := p.submitted + [job], handedOut := p.handedOut + [job])
  }

  // Listed workers are workers of the pool.
  predicate Listed(p: Shared) { forall i :: 0 <= i < |p.idleList| ==> p.idleList[i] < |p.slots| }

  predicate HandsOver(p: Shared) { p.idleList != [] && !HasJob(p, p.idleList[0]) }

  // job_add with job_deliver.
  function JobAdd(p: Shared, job: Job, created: bool): Shared
    requires Listed(p)
  {
    if HandsOver(p)
    then Deliver(p, p.idleList[0], job).(idleList := p.idleList[1..], idle := p.idle - 1)
    else Enqueue(p, job, created)
  }

  // ------------------------------------------------------------------- batches

  // The first listed worker from position `iter` on that has no private job.
  function FirstFree(p: Shared, iter: nat): (k: nat)
    ensures iter <= |p.idleList| ==> iter <= k <= |p.idleList|
    ensures k < |p.idleList| ==> !HasJob(p, p.idleList[k])
    ensures forall i :: iter <= i < k && i < |p.idleList| ==> HasJob(p, p.idleList[i])
    decreases |p.idleList| - iter
  {
    if iter < |p.idleList| && HasJob(p, p.idleList[iter]) then FirstFree(p, iter + 1) else iter
  }

  // job_append; the second result is the new thr_iter as a position.
  function JobAppend(p: Shared, iter: nat, job: Job, created: bool): (Shared, nat)
    requires Listed(p)
  {
    var k := FirstFree(p, iter);
    if k < |p.idleList| then (Deliver(p, p.idleList[k], job), k + 1)
    else (Enqueue(p, job, created), k)
  }

  // The listed workers that hold no private job, in list order.
  function Idlers(p: Shared, list: seq<nat>): seq<nat> {
    if list == [] then []
    else if HasJob(p, list[0]) then Idlers(p, list[1..])
    else [list[0]] + Idlers(p, list[1..])
  }

  // acl_pthread_pool_bat_add_end: workers with a private job leave the list. The
  // idle counter is not adjusted.
  function BatchEnd(p: Shared): Shared { p.(idleList := Idlers(p, p.idleList)) }

  // Whom it signals: every worker with a private job, and as many others from
  // the head on as the pool queue has jobs.
  function BatchSignals(p: Shared, list: seq<nat>, qlen: nat): seq<nat> {
    if list == [] then []
    else if HasJob(p, list[0]) then [list[0]] + BatchSignals(p, list[1..], qlen)
    else if qlen > 0 then [list[0]] + BatchSignals(p, list[1..], qlen - 1)
    else BatchSignals(p, list[1..], qlen)
  }
}
