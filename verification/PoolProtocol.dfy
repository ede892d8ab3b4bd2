/**
 The worker pool as a step system: workers, job submitters, batches and one
 draining shutdown take turns under worker_mutex. Condition variables may wake a
 waiter at any time, timed waits may expire at any time, and creating or
 initialising a thread may fail.
 */
module PoolProtocol {
  import opened Collections
  import opened Tally
  import opened PoolSpec

  // A worker between two of its critical sections.
  datatype Worker =
    | Starting                                               // thread created, mutex not yet taken
    | Waiting(cond: nat, idleCount: nat, notified: bool)     // in worker_wait
    | Running(cond: nat, job: Job)                           // in the user's function
    | Returning(cond: nat)                                   // job finished, mutex not yet taken
    | Gone

  // The thread in wait_worker_exit.
  datatype Drainer = Absent | Draining(notified: bool) | Drained

  // `pending` lists the condition variables that some job_deliver has yet to
  // signal: it does so after it has released the mutex. `batched` counts the
  // private deliveries of all batches so far.
  datatype State = State(
    pool: Shared,
    workers: seq<Worker>,
    pending: seq<nat>,
    drainer: Drainer,
    finished: seq<Job>,
    createFailures: nat,
    initFailures: nat,
    batched: nat)

  datatype Action =
    | Enter(w: nat)
    | InitFail(w: nat)
    | Finish(w: nat)
    | Reenter(w: nat)
    | WakeUp(w: nat, status: Status)
    | Submit(job: Job, created: bool)
    | Signal(k: nat, w: nat)
    | Batch(jobs: seq<(Job, bool)>)
    | DrainBegin
    | DrainWake

  function Init(limit: nat, waitCount: nat): State {
    State(Fresh(limit, waitCount), [], [], Absent, [], 0, 0, 0)
  }

  predicate WaitsOn(s: State, w: nat, cond: nat) {
    w < |s.workers| && s.workers[w].Waiting? && s.workers[w].cond == cond
  }

  ghost predicate Enabled(s: State, a: Action) {
    match a
    case Enter(w) => w < |s.workers| && s.workers[w].Starting?
    case InitFail(w) => w < |s.workers| && s.workers[w].Starting?
    case Finish(w) => w < |s.workers| && s.workers[w].Running?
    case Reenter(w) => w < |s.workers| && s.workers[w].Returning?
    case WakeUp(w, status) =>
      w < |s.workers| && s.workers[w].Waiting? && (status.TimedOut? ==> s.pool.waitCount > 0)
    case Submit(_, _) => true
    case Signal(k, w) =>
      k < |s.pending| &&
      ((exists u :: WaitsOn(s, u, s.pending[k])) ==> WaitsOn(s, w, s.pending[k]))
    case Batch(_) => true
    case DrainBegin => !s.drainer.Draining?
    case DrainWake => s.drainer.Draining?
  }

  function Notify(pc: Worker): Worker { if pc.Waiting? then pc.(notified := true) else pc }

  function NotifyAll(workers: seq<Worker>, targets: seq<nat>): seq<Worker> {
    seq(|workers|, w requires 0 <= w < |workers| =>
      if w in targets then Notify(workers[w]) else workers[w])
  }

  // Worker w leaves its critical section.
  function Settle(s: State, w: nat, cond: nat, r: (Shared, Outcome)): State
    requires w < |s.workers|
  {
    match r.1
    case Run(job) => s.(pool := r.0, workers := s.workers[w := Running(cond, job)])
    case Park => s.(pool := r.0, workers := s.workers[w := Waiting(cond, 0, false)])
    case Sleep(n) => s.(pool := r.0, workers := s.workers[w := Waiting(cond, n, false)])
    case Quit =>
      s.(pool := Retire(r.0, cond), workers := s.workers[w := Gone],
         drainer := if r.0.quit && s.drainer.Draining? then Draining(true) else s.drainer)
  }

  function Spawned(s: State, created: bool): seq<Worker> {
    if Spawns(s.pool, created) then s.workers + [Starting] else s.workers
  }

  function CreateFailed(s: State, created: bool): nat {
    if s.pool.count < s.pool.limit && !created then 1 else 0
  }

  function Submitted(s: State, job: Job, created: bool): State
    requires Listed(s.pool)
  {
    var pool := JobAdd(s.pool, job, created);
    if HandsOver(s.pool) then
      var h := s.pool.idleList[0];
      s.(pool := pool,
         pending := if h < |s.workers| && s.workers[h].Waiting? then s.pending + [s.workers[h].cond] else s.pending)
    else
      s.(pool := pool, workers := Spawned(s, created),
         createFailures := s.createFailures + CreateFailed(s, created))
  }

  function Appended(s: State, iter: nat, job: Job, created: bool): (State, nat)
    requires Listed(s.pool)
  {
    var (pool, k) := JobAppend(s.pool, iter, job, created);
    if FirstFree(s.pool, iter) < |s.pool.idleList| then
      (s.(pool := pool), k)
    else
      (s.(pool := pool, workers := Spawned(s, created),
          createFailures := s.createFailures + CreateFailed(s, created)), k)
  }

  function AppendedAll(s: State, iter: nat, jobs: seq<(Job, bool)>): (State, nat)
    requires Listed(s.pool)
    decreases |jobs|
  {
    if jobs == [] then (s, iter)
    else
      var (s', k) := Appended(s, iter, jobs[0].0, jobs[0].1);
      AppendedAll(s', k, jobs[1..])
  }

  function BatchEnded(s: State): State {
    var pool := BatchEnd(s.pool);
    s.(pool := pool,
       workers := NotifyAll(s.workers, BatchSignals(s.pool, s.pool.idleList, |s.pool.queue|)),
       batched := s.batched + if |pool.idleList| <= |s.pool.idleList| then |s.pool.idleList| - |pool.idleList| else 0)
  }

  // A whole batch, from bat_add_begin to bat_add_end, runs under the mutex.
  function Batched(s: State, jobs: seq<(Job, bool)>): State
    requires Listed(s.pool)
  {
    BatchEnded(AppendedAll(s, 0, jobs).0)
  }

  function DrainBegun(s: State): State {
    if s.pool.count == 0
    then s.(pool := s.pool.(quit := true), drainer := Drained)
    else s.(pool := s.pool.(quit := true), drainer := Draining(false),
            workers := NotifyAll(s.workers, s.pool.idleList))
  }

  function Do(s: State, a: Action): State
    requires Enabled(s, a) && Listed(s.pool)
  {
    match a
    case Enter(w) =>
      var (pool, cond) := Adopt(s.pool);
      Settle(s, w, cond, Next(pool, w))
    case InitFail(w) =>
      s.(pool := s.pool.(count := s.pool.count - 1), workers := s.workers[w := Gone],
         initFailures := s.initFailures + 1)
    case Finish(w) =>
      s.(workers := s.workers[w := Returning(s.workers[w].cond)],
         finished := s.finished + [s.workers[w].job])
    case Reenter(w) => Settle(s, w, s.workers[w].cond, Next(s.pool, w))
    case WakeUp(w, status) =>
      Settle(s, w, s.workers[w].cond, Wake(s.pool, w, status, s.workers[w].idleCount))
    case Submit(job, created) => Submitted(s, job, created)
    case Signal(k, w) =>
      s.(pending := s.pending[..k] + s.pending[k + 1..],
         workers := if WaitsOn(s, w, s.pending[k]) then s.workers[w := Notify(s.workers[w])] else s.workers)
    case Batch(jobs) => Batched(s, jobs)
    case DrainBegin => DrainBegun(s)
    case DrainWake => s.(drainer := if s.pool.count > 0 then Draining(false) else Drained)
  }
}
