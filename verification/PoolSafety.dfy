/**
 Safety of the worker pool over every run, and what a drained pool has done.
 */
module PoolSafety {
  import opened Collections
  import opened Tally
  import opened PoolSpec
  import opened PoolProtocol
  import opened PoolInvariant
  import opened PoolLists

  // ----------------------------------------------------------- the atomic steps

  lemma InvListed(s: State, iter: nat)
    requires ListInv(s, iter)
    ensures Listed(s.pool)
  {
  }

  // A worker at the head of its loop.
  lemma NextInv(s: State, w: nat)
    requires Inv(s) && w < |s.workers| && s.workers[w].Returning?
    ensures Inv(Settle(s, w, s.workers[w].cond, Next(s.pool, w)))
  {
    var s' := Settle(s, w, s.workers[w].cond, Next(s.pool, w));
    assert !IsWaiting(s, w) && !HasJob(s.pool, w);
    if s.pool.queue != [] {
      assert s' == TookQueued(s, w);
      TakeQueuedJobs(s, w);
      ListKept(s, s', 0);
      CondsKept(s, s');
    } else if s.pool.quit {
      assert s' == Retired(s, w);
      RetireInv(s, w);
    } else {
      assert s' == Parked(s, w);
      JobsKept(s, s');
      ParkList(s, w);
      CondsKept(s, s');
    }
  }

  lemma RetireInv(s: State, w: nat)
    requires Inv(s) && w < |s.workers| && s.workers[w].Returning? && s.pool.queue == []
    ensures Inv(Retired(s, w))
  {
    RetireJobs(s, w);
    ListKept(s, Retired(s, w), 0);
    RetireConds(s, w);
  }

  lemma UnlistInv(s: State, w: nat)
    requires Inv(s) && IsWaiting(s, w) && !HasJob(s.pool, w)
    ensures Inv(Unlisted(s, w))
  {
    JobsKept(s, Unlisted(s, w));
    UnlistList(s, w);
    CondsKept(s, Unlisted(s, w));
  }

  lemma AdoptInv(s: State, w: nat)
    requires Inv(s) && w < |s.workers| && s.workers[w].Starting?
    ensures Inv(Adopted(s, w))
  {
    JobsKept(s, Adopted(s, w));
    ListKept(s, Adopted(s, w), 0);
    AdoptConds(s, w);
  }

  lemma EnterAdopts(s: State, w: nat)
    requires Listed(s.pool) && Enabled(s, Enter(w))
    ensures var s1 := Adopted(s, w);
            Do(s, Enter(w)) == Settle(s1, w, s1.workers[w].cond, Next(s1.pool, w))
  {
    assert Adopted(s, w).workers[w := Gone] == s.workers[w := Gone];
  }

  lemma EnterInv(s: State, w: nat)
    requires Inv(s) && w < |s.workers| && s.workers[w].Starting? && Listed(s.pool)
    ensures Inv(Do(s, Enter(w)))
  {
    AdoptInv(s, w);
    NextInv(Adopted(s, w), w);
    EnterAdopts(s, w);
  }

  lemma TakeOwnInv(s: State, w: nat)
    requires Inv(s) && IsWaiting(s, w) && HasJob(s.pool, w)
    ensures Inv(TookOwn(s, w))
  {
    TakeOwnJobs(s, w);
    TakeOwnList(s, w);
    CondsKept(s, TookOwn(s, w));
  }

  lemma SleepInv(s: State, w: nat, n: nat)
    requires Inv(s) && IsWaiting(s, w) && !HasJob(s.pool, w) && !s.pool.quit
    ensures Inv(Slept(s, w, n))
  {
    JobsKept(s, Slept(s, w, n));
    SleepList(s, w, n);
    CondsKept(s, Slept(s, w, n));
  }

  // Work conservation: no worker sits idle while jobs wait in the pool queue.
  lemma NoIdlerBesideWork(s: State, w: nat)
    requires ListInv(s, 0) && IsWaiting(s, w)
    ensures HasJob(s.pool, w) || s.pool.queue == []
  {
  }

  lemma QuitRetires(s: State, w: nat, status: Status)
    requires IsWaiting(s, w) && Listed(s.pool) && Enabled(s, WakeUp(w, status))
    requires !HasJob(s.pool, w) && s.pool.queue == []
    requires !Wake(s.pool, w, status, s.workers[w].idleCount).1.Sleep?
    ensures Do(s, WakeUp(w, status)) == Retired(Unlisted(s, w), w)
  {
    assert Do(s, WakeUp(w, status)).workers == Retired(Unlisted(s, w), w).workers;
  }

  lemma WakeInv(s: State, w: nat, status: Status)
    requires Inv(s) && IsWaiting(s, w) && Listed(s.pool)
    requires Enabled(s, WakeUp(w, status))
    ensures Inv(Do(s, WakeUp(w, status)))
  {
    var s' := Do(s, WakeUp(w, status));
    NoIdlerBesideWork(s, w);
    if HasJob(s.pool, w) {
      TakeOwnInv(s, w);
      assert s' == TookOwn(s, w);
    } else {
      var (pool, outcome) := Wake(s.pool, w, status, s.workers[w].idleCount);
      if outcome.Sleep? {
        SleepInv(s, w, outcome.idleCount);
        assert s' == Slept(s, w, outcome.idleCount);
      } else {
        UnlistInv(s, w);
        RetireInv(Unlisted(s, w), w);
        QuitRetires(s, w, status);
      }
    }
  }

  // What the k-th of k timed-out waits in a row leads to, beside an empty queue.
  function TimedOutAgain(p: Shared, w: nat, idleCount: nat, k: nat): Outcome
    requires k > 0
    decreases k
  {
    var r := Wake(p, w, TimedOut, idleCount);
    if k == 1 || !r.1.Sleep? then r.1 else TimedOutAgain(r.0, w, r.1.idleCount, k - 1)
  }

  // An idle worker sits out as many timed waits in a row as its idle timeout has
  // room for, and then quits.
  lemma {:induction false} IdleTimeoutExact(p: Shared, w: nat, idleCount: nat, k: nat)
    requires !HasJob(p, w) && p.queue == [] && !p.quit && 0 < k && idleCount < p.waitCount
    ensures TimedOutAgain(p, w, idleCount, k) ==
            if idleCount + k < p.waitCount then Sleep(idleCount + k) else Quit
    decreases k
  {
    if k > 1 && idleCount + 1 < p.waitCount {
      IdleTimeoutExact(p, w, idleCount + 1, k - 1);
    }
  }

  lemma FinishInv(s: State, w: nat)
    requires Inv(s) && w < |s.workers| && s.workers[w].Running?
    ensures Inv(Ended(s, w))
  {
    EndJobs(s, w);
    ListKept(s, Ended(s, w), 0);
    CondsKept(s, Ended(s, w));
  }

  lemma FailInv(s: State, w: nat)
    requires Inv(s) && w < |s.workers| && s.workers[w].Starting?
    ensures Inv(FailedInit(s, w))
  {
    FailJobs(s, w);
    ListKept(s, FailedInit(s, w), 0);
    CondsKept(s, FailedInit(s, w));
  }

  lemma SignalInv(s: State, k: nat, w: nat)
    requires Inv(s) && Listed(s.pool) && Enabled(s, Signal(k, w))
    ensures Inv(Do(s, Signal(k, w)))
  {
    JobsKept(s, Do(s, Signal(k, w)));
    SignalList(s, k, w);
    CondsKept(s, Do(s, Signal(k, w)));
  }

  lemma QueueInv(s: State, job: Job, created: bool, iter: nat)
    requires InvAt(s, iter) && iter == |s.pool.idleList|
    ensures InvAt(Queued(s, job, created), iter)
  {
    QueueJobs(s, job, created);
    QueueList(s, job, created, iter);
    CondsKept(s, Queued(s, job, created));
  }

  lemma SubmitInv(s: State, job: Job, created: bool)
    requires Inv(s) && Listed(s.pool)
    ensures Inv(Submitted(s, job, created))
  {
    var s' := Submitted(s, job, created);
    if s.pool.idleList != [] {
      assert IsWaiting(s, s.pool.idleList[0]);
      DeliverJobs(s, s.pool.idleList[0], job, s');
      HandOverList(s, job, created);
      CondsKept(s, s');
    } else {
      QueueInv(s, job, created, 0);
    }
  }

  lemma ServeInv(s: State, iter: nat, job: Job)
    requires InvAt(s, iter) && Listed(s.pool) && iter < |s.pool.idleList|
    ensures InvAt(Served(s, iter, job), iter + 1)
  {
    var h := s.pool.idleList[iter];
    assert !HasJob(s.pool, h) && IsWaiting(s, h);
    DeliverJobs(s, h, job, Served(s, iter, job));
    ServeList(s, iter, job);
    CondsKept(s, Served(s, iter, job));
  }

  lemma AppendInv(s: State, iter: nat, job: Job, created: bool)
    requires InvAt(s, iter) && Listed(s.pool)
    ensures InvAt(Appended(s, iter, job, created).0, Appended(s, iter, job, created).1)
    ensures Appended(s, iter, job, created).0.pool.idleList == s.pool.idleList
    ensures Appended(s, iter, job, created).0.batched == s.batched
  {
    if iter < |s.pool.idleList| {
      assert !HasJob(s.pool, s.pool.idleList[iter]);
      assert FirstFree(s.pool, iter) == iter;
      ServeInv(s, iter, job);
      assert Appended(s, iter, job, created) == (Served(s, iter, job), iter + 1);
    } else {
      QueueInv(s, job, created, iter);
    }
  }

  // In the middle of a batch, too, nothing is lost: the invariant holds at the
  // position that the batch has reached in the idle list.
  lemma {:induction false} AppendAllInv(s: State, iter: nat, jobs: seq<(Job, bool)>)
    requires InvAt(s, iter) && Listed(s.pool)
    ensures InvAt(AppendedAll(s, iter, jobs).0, AppendedAll(s, iter, jobs).1)
    decreases |jobs|
  {
    if jobs != [] {
      var (s', k) := Appended(s, iter, jobs[0].0, jobs[0].1);
      AppendInv(s, iter, jobs[0].0, jobs[0].1);
      AppendAllInv(s', k, jobs[1..]);
    }
  }

  lemma BatchEndInv(s: State, iter: nat)
    requires InvAt(s, iter)
    ensures Inv(BatchEnded(s))
  {
    JobsKept(s, BatchEnded(s));
    BatchEndList(s, iter);
    CondsKept(s, BatchEnded(s));
  }

  lemma DrainBeginInv(s: State)
    requires Inv(s)
    ensures Inv(DrainBegun(s))
  {
    JobsKept(s, DrainBegun(s));
    DrainBeginList(s);
    CondsKept(s, DrainBegun(s));
  }

  lemma StepInv(s: State, a: Action)
    requires Inv(s) && Listed(s.pool) && Enabled(s, a)
    ensures Inv(Do(s, a)) && Listed(Do(s, a).pool)
  {
    match a {
      case Enter(w) => EnterInv(s, w);
      case InitFail(w) => FailInv(s, w);
      case Finish(w) => FinishInv(s, w);
      case Reenter(w) => NextInv(s, w);
      case WakeUp(w, status) => WakeInv(s, w, status);
      case Submit(job, created) => SubmitInv(s, job, created);
      case Signal(k, w) => SignalInv(s, k, w);
      case Batch(jobs) =>
        var (s1, k) := AppendedAll(s, 0, jobs);
        AppendAllInv(s, 0, jobs);
        BatchEndInv(s1, k);
      case DrainBegin => DrainBeginInv(s);
      case DrainWake =>
        JobsKept(s, Do(s, a));
        ListKept(s, Do(s, a), 0);
        CondsKept(s, Do(s, a));
    }
    InvListed(Do(s, a), 0);
  }

  // ------------------------------------------------------------------- all runs

  // In every reachable state the idle list names workers (InvListed), so the
  // first conjunct never stops a run.
  ghost predicate CanRun(s: State, run: seq<Action>)
    decreases |run|
  {
    run == [] || (Listed(s.pool) && Enabled(s, run[0]) && CanRun(Do(s, run[0]), run[1..]))
  }

  ghost function After(s: State, run: seq<Action>): State
    requires CanRun(s, run)
    decreases |run|
  {
    if run == [] then s else After(Do(s, run[0]), run[1..])
  }

  function JobsOf(jobs: seq<(Job, bool)>): seq<Job> {
    if jobs == [] then [] else [jobs[0].0] + JobsOf(jobs[1..])
  }

  // The jobs that a step, and all steps of a run, hand to the pool.
  function SubmittedIn(a: Action): seq<Job> {
    match a
    case Submit(job, _) => [job]
    case Batch(jobs) => JobsOf(jobs)
    case _ => []
  }

  function SubmittedBy(run: seq<Action>): seq<Job> {
    if run == [] then [] else SubmittedIn(run[0]) + SubmittedBy(run[1..])
  }

  lemma AppendHistory(s: State, iter: nat, job: Job, created: bool)
    requires Listed(s.pool)
    ensures var p := Appended(s, iter, job, created).0.pool;
            Listed(p) && p.submitted == s.pool.submitted + [job] && p.limit == s.pool.limit
  {}

  lemma {:induction false} BatchHistory(s: State, iter: nat, jobs: seq<(Job, bool)>)
    requires Listed(s.pool)
    ensures AppendedAll(s, iter, jobs).0.pool.submitted == s.pool.submitted + JobsOf(jobs)
    ensures AppendedAll(s, iter, jobs).0.pool.limit == s.pool.limit
    decreases |jobs|
  {
    if jobs != [] {
      var r := Appended(s, iter, jobs[0].0, jobs[0].1);
      AppendHistory(s, iter, jobs[0].0, jobs[0].1);
      BatchHistory(r.0, r.1, jobs[1..]);
      Assoc(s.pool.submitted, [jobs[0].0], JobsOf(jobs[1..]));
    }
  }

  lemma StepHistory(s: State, a: Action)
    requires Listed(s.pool) && Enabled(s, a)
    ensures Do(s, a).pool.submitted == s.pool.submitted + SubmittedIn(a)
    ensures Do(s, a).pool.limit == s.pool.limit
  {
    if a.Batch? {
      BatchHistory(s, 0, a.jobs);
    }
  }

  lemma {:induction false} RunHistory(s: State, run: seq<Action>)
    requires CanRun(s, run)
    ensures After(s, run).pool.submitted == s.pool.submitted + SubmittedBy(run)
    ensures After(s, run).pool.limit == s.pool.limit
    decreases |run|
  {
    if run != [] {
      StepHistory(s, run[0]);
      RunHistory(Do(s, run[0]), run[1..]);
      Assoc(s.pool.submitted, SubmittedIn(run[0]), SubmittedBy(run[1..]));
    }
  }

  lemma {:induction false} RunInv(s: State, run: seq<Action>)
    requires Inv(s) && CanRun(s, run)
    ensures Inv(After(s, run))
    decreases |run|
  {
    if run != [] {
      StepInv(s, run[0]);
      RunInv(Do(s, run[0]), run[1..]);
    }
  }

  lemma ReachableInv(limit: nat, waitCount: nat, run: seq<Action>)
    requires limit > 0 && CanRun(Init(limit, waitCount), run)
    ensures var s := After(Init(limit, waitCount), run);
            Inv(s) && s.pool.submitted == SubmittedBy(run) && s.pool.limit == limit
  {
    InitInv(limit, waitCount);
    RunInv(Init(limit, waitCount), run);
    RunHistory(Init(limit, waitCount), run);
    assert [] + SubmittedBy(run) == SubmittedBy(run);
  }

  lemma {:induction false} SumCounts(list: seq<Job>, j: Job)
    ensures Sum(list, Is(j)) == multiset(list)[j]
  {
    if list != [] {
      assert list == [list[0]] + list[1..];
      SumCounts(list[1..], j);
    }
  }

  // How often job j is with a worker: in a private slot or running.
  function InHand(s: State, j: Job): nat { Sum(s.pool.slots, Holds(j)) + Sum(s.workers, Runs(j)) }

  // In order and exactly once, whatever wakes up, times out or fails: the jobs
  // submitted are the jobs handed out, in the same order, followed by the pool
  // queue; and a job handed out is in hand or finished, just as often.
  lemma InOrderExactlyOnce(limit: nat, waitCount: nat, run: seq<Action>, j: Job)
    requires limit > 0 && CanRun(Init(limit, waitCount), run)
    ensures var s := After(Init(limit, waitCount), run);
            && SubmittedBy(run) == s.pool.handedOut + s.pool.queue
            && multiset(s.pool.handedOut)[j] == InHand(s, j) + multiset(s.finished)[j]
  {
    ReachableInv(limit, waitCount, run);
    var s := After(Init(limit, waitCount), run);
    SumCounts(s.pool.handedOut, j);
    SumCounts(s.finished, j);
  }

  // The idle list against the workers: its members are the idle waiters, each
  // once, none with a private job; the queue is empty while it is not; the idle
  // counter is ahead of its length by the private deliveries of all batches.
  lemma IdleListExact(limit: nat, waitCount: nat, run: seq<Action>, w: nat)
    requires limit > 0 && CanRun(Init(limit, waitCount), run)
    ensures var s := After(Init(limit, waitCount), run);
            && (w in s.pool.idleList <==> IsWaiting(s, w) && !HasJob(s.pool, w))
            && Distinct(s.pool.idleList)
            && (s.pool.idleList != [] ==> s.pool.queue == [])
            && s.pool.idle == |s.pool.idleList| + s.batched
            && |s.pool.idleList| <= s.pool.count == Sum(s.workers, IsLive) <= limit
  {
    ReachableInv(limit, waitCount, run);
    ListWithinCount(After(Init(limit, waitCount), run));
  }

  lemma {:induction false} DistinctWithin(list: seq<nat>, workers: seq<Worker>)
    requires Distinct(list)
    requires forall i :: 0 <= i < |list| ==> list[i] < |workers| && workers[list[i]].Waiting?
    ensures |list| <= Sum(workers, IsLive)
    decreases |list|
  {
    if list != [] {
      var w, rest := list[0], list[1..];
      assert forall i :: 0 <= i < |rest| ==> rest[i] == list[i + 1];
      DistinctWithin(rest, workers[w := Gone]);
      SumShifted(workers, w, Gone, IsLive);
    }
  }

  lemma ListWithinCount(s: State)
    requires Inv(s)
    ensures |s.pool.idleList| <= s.pool.count
  {
    assert forall i :: 0 <= i < |s.pool.idleList| ==> IsWaiting(s, s.pool.idleList[i]);
    DistinctWithin(s.pool.idleList, s.workers);
  }

  // --------------------------------------------------------------------- drained

  // Nothing is queued, in a private slot or running.
  ghost predicate AtRest(s: State) {
    && s.pool.queue == []
    && (forall w: nat :: w < |s.workers| ==> !s.workers[w].Running?)
    && (forall w: nat :: !HasJob(s.pool, w))
  }

  ghost predicate AllFinished(s: State) { multiset(s.finished) == multiset(s.pool.submitted) }

  lemma HandedOutFinished(s: State)
    requires Inv(s)
    requires forall w: nat :: w < |s.workers| ==> !s.workers[w].Running?
    requires forall w: nat :: !HasJob(s.pool, w)
    ensures multiset(s.finished) == multiset(s.pool.handedOut)
    ensures AllFinished(s) <==> s.pool.queue == []
  {
    forall w | 0 <= w < |s.pool.slots|
      ensures s.pool.slots[w].None?
    {
      assert !HasJob(s.pool, w);
    }
    forall j: Job
      ensures multiset(s.finished)[j] == multiset(s.pool.handedOut)[j]
    {
      SumZero(s.workers, Runs(j));
      SumZero(s.pool.slots, Holds(j));
      SumCounts(s.finished, j);
      SumCounts(s.pool.handedOut, j);
    }
    assert multiset(s.pool.submitted) == multiset(s.pool.handedOut) + multiset(s.pool.queue);
    if s.pool.queue != [] {
      assert s.pool.queue[0] in multiset(s.pool.queue);
      assert multiset(s.pool.submitted)[s.pool.queue[0]] > multiset(s.finished)[s.pool.queue[0]];
    }
  }

  lemma NobodyLeft(s: State)
    requires Inv(s) && s.pool.count == 0
    ensures forall w: nat :: w < |s.workers| ==> s.workers[w].Gone?
    ensures forall w: nat :: !IsWaiting(s, w) && !HasJob(s.pool, w)
    ensures s.pool.idleList == []
  {
    forall w: nat | w < |s.workers|
      ensures s.workers[w].Gone?
    {
      SumAtLeast(s.workers, IsLive, w);
    }
    assert forall w: nat :: !IsWaiting(s, w);
    ListWithinCount(s);
  }

  // With no thread left, everything submitted has finished exactly when nothing
  // is queued; and that is so unless some thread could not be created or
  // initialised.
  lemma EmptyPoolIsDone(s: State)
    requires Inv(s) && s.pool.count == 0
    ensures AllFinished(s) <==> s.pool.queue == []
    ensures s.createFailures + s.initFailures == 0 ==> s.pool.queue == []
  {
    NobodyLeft(s);
    HandedOutFinished(s);
  }

  // Graceful drain: when the shutdown returns it has found no thread left, and
  // every job submitted so far has finished, each as often as it was submitted,
  // if and only if no job is stranded in the pool queue.
  lemma GracefulDrain(limit: nat, waitCount: nat, run: seq<Action>, a: Action)
    requires limit > 0 && CanRun(Init(limit, waitCount), run)
    requires var s := After(Init(limit, waitCount), run);
             && Listed(s.pool) && Enabled(s, a) && (a.DrainBegin? || a.DrainWake?)
             && Do(s, a).drainer.Drained?
    ensures var s := After(Init(limit, waitCount), run);
            && s.pool.count == 0
            && (multiset(s.finished) == multiset(SubmittedBy(run)) <==> !Stranded(s))
            && (s.createFailures + s.initFailures == 0 ==> !Stranded(s))
  {
    ReachableInv(limit, waitCount, run);
    EmptyPoolIsDone(After(Init(limit, waitCount), run));
  }

  // ------------------------------------------------------------------- stranded

  // Jobs are queued, and there is no thread to take them.
  ghost predicate Stranded(s: State) { s.pool.queue != [] && s.pool.count == 0 }

  lemma {:induction false} BatchCounts(s: State, iter: nat, jobs: seq<(Job, bool)>)
    requires Listed(s.pool)
    ensures var s' := AppendedAll(s, iter, jobs).0;
            s'.pool.count >= s.pool.count && s'.drainer == s.drainer
    decreases |jobs|
  {
    if jobs != [] {
      var (s', k) := Appended(s, iter, jobs[0].0, jobs[0].1);
      AppendHistory(s, iter, jobs[0].0, jobs[0].1);
      BatchCounts(s', k, jobs[1..]);
    }
  }

  // A batch for a pool without threads goes to the pool queue, and leaves it
  // without threads exactly if none could be created.
  lemma {:induction false} BatchWithoutThreads(s: State, iter: nat, jobs: seq<(Job, bool)>)
    requires Listed(s.pool) && s.pool.idleList == [] && s.pool.count == 0 && s.pool.limit > 0
    ensures var s' := AppendedAll(s, iter, jobs).0;
            && s'.pool.count >= 0
            && (s'.pool.count == 0 <==> forall i :: 0 <= i < |jobs| ==> !jobs[i].1)
            && (s'.pool.count == 0 ==> |s'.pool.queue| == |s.pool.queue| + |jobs|)
    decreases |jobs|
  {
    if jobs != [] {
      var (s', k) := Appended(s, iter, jobs[0].0, jobs[0].1);
      AppendHistory(s, iter, jobs[0].0, jobs[0].1);
      if jobs[0].1 {
        BatchCounts(s', k, jobs[1..]);
      } else {
        BatchWithoutThreads(s', k, jobs[1..]);
        assert forall i :: 0 <= i < |jobs[1..]| ==> jobs[1..][i] == jobs[i + 1];
      }
    }
  }

  // The steps that strand a job: a submission or batch to a pool without threads,
  // none of which can be created, and a last thread that fails to initialise
  // while jobs are queued. A worker that quits never does.
  predicate Strands(s: State, a: Action) {
    match a
    case Submit(_, created) => s.pool.count == 0 && !created
    case Batch(jobs) => s.pool.count == 0 && jobs != [] && forall i :: 0 <= i < |jobs| ==> !jobs[i].1
    case InitFail(_) => s.pool.count == 1 && s.pool.queue != []
    case _ => false
  }

  lemma StrandedWithout(s: State, a: Action)
    requires Inv(s) && Listed(s.pool) && Enabled(s, a) && s.pool.count == 0 && s.pool.queue == []
    ensures Stranded(Do(s, a)) <==> Strands(s, a)
  {
    NobodyLeft(s);
    if a.Batch? {
      BatchWithoutThreads(s, 0, a.jobs);
    }
  }

  lemma StrandedExactly(s: State, a: Action)
    requires Inv(s) && Listed(s.pool) && Enabled(s, a) && !Stranded(s)
    ensures Stranded(Do(s, a)) <==> Strands(s, a)
  {
    if s.pool.count == 0 {
      StrandedWithout(s, a);
    } else if a.Batch? {
      BatchCounts(s, 0, a.jobs);
    } else if a.WakeUp? {
      NoIdlerBesideWork(s, a.w);
    }
  }

  // It happens: a pool whose only pthread_create fails keeps the job queued, and
  // the shutdown returns at once without it.
  lemma StrandedJob(limit: nat, waitCount: nat, job: Job) returns (run: seq<Action>)
    requires limit > 0
    ensures CanRun(Init(limit, waitCount), run)
    ensures var s := After(Init(limit, waitCount), run);
            s.drainer.Drained? && s.pool.submitted == [job] && s.finished == []
  {
    var s0 := Init(limit, waitCount);
    var s1 := s0.(pool := Enqueue(s0.pool, job, false), createFailures := 1);
    var s2 := s1.(pool := s1.pool.(quit := true), drainer := Drained);
    assert Do(s0, Submit(job, false)) == s1 && Do(s1, DrainBegin) == s2;
    RunPrepend(s1, DrainBegin, []);
    RunPrepend(s0, Submit(job, false), [DrainBegin]);
    run := [Submit(job, false)] + [DrainBegin];
    assert [DrainBegin] + [] == [DrainBegin];
  }

  lemma RunPrepend(s: State, a: Action, run: seq<Action>)
    requires Listed(s.pool) && Enabled(s, a) && CanRun(Do(s, a), run)
    ensures CanRun(s, [a] + run) && After(s, [a] + run) == After(Do(s, a), run)
  {
  }
}
