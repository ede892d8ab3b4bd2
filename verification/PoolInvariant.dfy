/**
 The invariant of the worker pool, and what each move of a worker or a submitter
 does to its three parts: where the jobs are, what the idle list says, and who
 owns the condition variables.
 */
module PoolInvariant {
  import opened Collections
  import opened Tally
  import opened PoolSpec
  import opened PoolProtocol

  function IsLive(pc: Worker): nat { if pc.Gone? then 0 else 1 }
  function Is(j: Job): Job -> nat { (k: Job) => if k == j then 1 else 0 }
  function Holds(j: Job): Option<Job> -> nat { (slot: Option<Job>) => if slot == Some(j) then 1 else 0 }
  function Runs(j: Job): Worker -> nat { (pc: Worker) => if pc.Running? && pc.job == j then 1 else 0 }

  // ---------------------------------------------------------------------- jobs

  // Jobs are handed out in the order in which they were submitted.
  ghost predicate Ordered(s: State) { s.pool.submitted == s.pool.handedOut + s.pool.queue }

  // A job handed out as often as j is as often in a private slot, running or
  // finished: nothing is lost, and nothing runs twice.
  ghost predicate ExactlyOnce(s: State) {
    forall j: Job :: Sum(s.pool.handedOut, Is(j)) ==
      Sum(s.pool.slots, Holds(j)) + Sum(s.workers, Runs(j)) + Sum(s.finished, Is(j))
  }

  ghost predicate Counted(s: State) {
    && |s.pool.slots| == |s.workers|
    && s.pool.count == Sum(s.workers, IsLive) <= s.pool.limit
    && 0 < s.pool.limit
  }

  ghost predicate Drainable(s: State) {
    s.pool.queue != [] ==> s.pool.count > 0 || s.createFailures + s.initFailures > 0
  }

  ghost predicate DrainerSound(s: State) {
    && (!s.drainer.Absent? ==> s.pool.quit)
    && (s.drainer == Draining(false) ==> s.pool.count > 0 || s.initFailures > 0)
  }

  ghost predicate JobsInv(s: State) {
    Ordered(s) && ExactlyOnce(s) && Counted(s) && Drainable(s) && DrainerSound(s)
  }

  // ----------------------------------------------------------------- idle list

  ghost predicate Distinct(list: seq<nat>) {
    forall i, j :: 0 <= i < j < |list| ==> list[i] != list[j]
  }

  predicate IsWaiting(s: State, w: nat) { w < |s.workers| && s.workers[w].Waiting? }

  // The idle list holds exactly the waiting workers that have no private job,
  // once each; during a batch the first `iter` of them already have one.
  ghost predicate ListSound(s: State, iter: nat) {
    && |s.pool.slots| == |s.workers|
    && iter <= |s.pool.idleList|
    && Distinct(s.pool.idleList)
    && (forall i :: 0 <= i < |s.pool.idleList| ==>
          IsWaiting(s, s.pool.idleList[i]) && (HasJob(s.pool, s.pool.idleList[i]) <==> i < iter))
    && (forall w: nat :: IsWaiting(s, w) && !HasJob(s.pool, w) ==> w in s.pool.idleList)
    && (forall w: nat :: HasJob(s.pool, w) ==> IsWaiting(s, w))
  }

  ghost predicate IdleCounter(s: State) { s.pool.idle == |s.pool.idleList| + s.batched }

  ghost predicate WorkConserving(s: State, iter: nat) { iter < |s.pool.idleList| ==> s.pool.queue == [] }

  // A waiter that should run has its wake-up, or somebody is about to send it.
  ghost predicate NoLostSignal(s: State) {
    && (forall w: nat :: IsWaiting(s, w) && !s.workers[w].notified && HasJob(s.pool, w) ==>
          s.workers[w].cond in s.pending || w in s.pool.idleList)
    && (s.pool.quit ==> forall w: nat :: IsWaiting(s, w) && !HasJob(s.pool, w) ==> s.workers[w].notified)
  }

  ghost predicate ListInv(s: State, iter: nat) {
    ListSound(s, iter) && IdleCounter(s) && WorkConserving(s, iter) && NoLostSignal(s)
  }

  // ------------------------------------------------------- condition variables

  predicate OwnsCond(pc: Worker) { pc.Waiting? || pc.Running? || pc.Returning? }

  predicate Owns(s: State, w: nat) { w < |s.workers| && OwnsCond(s.workers[w]) }

  // Each condition variable belongs to one live worker, or lies in the free list.
  ghost predicate CondsOwned(s: State) {
    && Distinct(s.pool.freeConds)
    && (forall c :: c in s.pool.freeConds ==> c < s.pool.conds)
    && (forall w: nat :: Owns(s, w) ==> s.workers[w].cond < s.pool.conds && s.workers[w].cond !in s.pool.freeConds)
    && (forall u: nat, v: nat :: Owns(s, u) && Owns(s, v) && u != v ==> s.workers[u].cond != s.workers[v].cond)
    && (forall c: nat :: c < s.pool.conds ==>
          c in s.pool.freeConds || exists w: nat :: Owns(s, w) && s.workers[w].cond == c)
  }

  ghost predicate InvAt(s: State, iter: nat) { JobsInv(s) && ListInv(s, iter) && CondsOwned(s) }

  ghost predicate Inv(s: State) { InvAt(s, 0) }

  lemma InitInv(limit: nat, waitCount: nat)
    requires limit > 0
    ensures Inv(Init(limit, waitCount))
  {
    var s := Init(limit, waitCount);
    assert JobsInv(s);
    assert ListInv(s, 0) by {
      assert forall w: nat :: !IsWaiting(s, w) && !HasJob(s.pool, w);
    }
    assert CondsOwned(s) by {
      assert forall w: nat :: !Owns(s, w);
    }
  }

  // ------------------------------------------- moves and the condition variables

  lemma CondsKept(s: State, s': State)
    requires CondsOwned(s) && |s.workers| <= |s'.workers|
    requires forall w: nat :: w < |s.workers| ==>
               OwnsCond(s.workers[w]) == OwnsCond(s'.workers[w])
               && (OwnsCond(s.workers[w]) ==> s.workers[w].cond == s'.workers[w].cond)
    requires forall w: nat :: |s.workers| <= w < |s'.workers| ==> !OwnsCond(s'.workers[w])
    requires s'.pool.freeConds == s.pool.freeConds && s'.pool.conds == s.pool.conds
    ensures CondsOwned(s')
  {
  }

  function Adopted(s: State, w: nat): State
    requires w < |s.workers|
  {
    var (pool, cond) := Adopt(s.pool);
    s.(pool := pool, workers := s.workers[w := Returning(cond)])
  }

  lemma AdoptConds(s: State, w: nat)
    requires CondsOwned(s) && w < |s.workers| && !OwnsCond(s.workers[w])
    ensures CondsOwned(Adopted(s, w))
  {
    var s' := Adopted(s, w);
    var cond := s'.workers[w].cond;
    assert forall u: nat :: Owns(s', u) <==> Owns(s, u) || u == w;
    if s.pool.freeConds != [] {
      assert cond in s.pool.freeConds;
    }
    forall c | c in s'.pool.freeConds
      ensures c in s.pool.freeConds && c != cond
    {
      var i :| 0 <= i < |s'.pool.freeConds| && s'.pool.freeConds[i] == c;
      if s.pool.freeConds != [] {
        assert s.pool.freeConds[i + 1] == c;
      }
    }
    forall c: nat | c < s'.pool.conds && c !in s'.pool.freeConds
      ensures exists u: nat :: Owns(s', u) && s'.workers[u].cond == c
    {
      if c == cond {
        assert Owns(s', w);
      } else {
        assert c !in s.pool.freeConds;
        var u: nat :| Owns(s, u) && s.workers[u].cond == c;
        assert Owns(s', u);
      }
    }
  }

  function Retired(s: State, w: nat): State
    requires w < |s.workers| && OwnsCond(s.workers[w])
  {
    s.(pool := Retire(s.pool, s.workers[w].cond), workers := s.workers[w := Gone],
       drainer := if s.pool.quit && s.drainer.Draining? then Draining(true) else s.drainer)
  }

  lemma RetireConds(s: State, w: nat)
    requires CondsOwned(s) && w < |s.workers| && OwnsCond(s.workers[w])
    ensures CondsOwned(Retired(s, w))
  {
    var s' := Retired(s, w);
    assert Owns(s, w);
    assert forall u: nat :: Owns(s', u) <==> Owns(s, u) && u != w;
    forall c: nat | c < s'.pool.conds && c !in s'.pool.freeConds
      ensures exists u: nat :: Owns(s', u) && s'.workers[u].cond == c
    {
      var u: nat :| Owns(s, u) && s.workers[u].cond == c;
      assert Owns(s', u);
    }
  }

  // --------------------------------------------------------- moves and the jobs

  // One worker moves to pc.
  lemma MoveWorker(s: State, w: nat, pc: Worker, j: Job)
    requires w < |s.workers|
    ensures Shifted(s.workers, w, pc, IsLive) && Shifted(s.workers, w, pc, Runs(j))
  {
    SumShifted(s.workers, w, pc, IsLive);
    SumShifted(s.workers, w, pc, Runs(j));
  }

  // A move that only hides or shows jobs that nobody gains or loses.
  lemma JobsKept(s: State, s': State)
    requires JobsInv(s)
    requires s'.pool.submitted == s.pool.submitted && s'.pool.handedOut == s.pool.handedOut
    requires s'.pool.queue == s.pool.queue && s'.pool.slots == s.pool.slots && s'.finished == s.finished
    requires s'.pool.count == s.pool.count && s'.pool.limit == s.pool.limit
    requires s'.createFailures >= s.createFailures && s'.initFailures >= s.initFailures
    requires |s'.workers| == |s.workers|
    requires forall w :: 0 <= w < |s.workers| ==>
               IsLive(s'.workers[w]) == IsLive(s.workers[w])
               && s'.workers[w].Running? == s.workers[w].Running?
               && (s.workers[w].Running? ==> s'.workers[w].job == s.workers[w].job)
    requires DrainerSound(s')
    ensures JobsInv(s')
  {
    SumSame(s.workers, s'.workers, IsLive);
    forall j: Job
      ensures Sum(s'.workers, Runs(j)) == Sum(s.workers, Runs(j))
    {
      SumSame(s.workers, s'.workers, Runs(j));
    }
  }

  lemma RetireJobs(s: State, w: nat)
    requires JobsInv(s) && w < |s.workers| && s.pool.queue == []
    requires s.workers[w].Returning? || (s.workers[w].Waiting? && !HasJob(s.pool, w))
    ensures JobsInv(Retired(s, w))
  {
    forall j: Job
      ensures Sum(Retired(s, w).workers, Runs(j)) == Sum(s.workers, Runs(j))
    {
      MoveWorker(s, w, Gone, j);
    }
    MoveWorker(s, w, Gone, 0);
  }

  function TookQueued(s: State, w: nat): State
    requires w < |s.workers| && OwnsCond(s.workers[w]) && s.pool.queue != []
  {
    var job := s.pool.queue[0];
    s.(pool := s.pool.(queue := s.pool.queue[1..], handedOut := s.pool.handedOut + [job]),
       workers := s.workers[w := Running(s.workers[w].cond, job)])
  }

  lemma TakeQueuedJobs(s: State, w: nat)
    requires JobsInv(s) && w < |s.workers| && s.pool.queue != []
    requires s.workers[w].Returning? || s.workers[w].Waiting?
    ensures JobsInv(TookQueued(s, w))
  {
    var s', job := TookQueued(s, w), s.pool.queue[0];
    assert s.pool.queue == [job] + s'.pool.queue;
    forall j: Job
      ensures Sum(s'.workers, Runs(j)) == Sum(s.workers, Runs(j)) + Is(j)(job)
      ensures Sum(s'.pool.handedOut, Is(j)) == Sum(s.pool.handedOut, Is(j)) + Is(j)(job)
    {
      MoveWorker(s, w, s'.workers[w], j);
      SumAppend(s.pool.handedOut, Is(j), job);
    }
    MoveWorker(s, w, s'.workers[w], 0);
  }

  function TookOwn(s: State, w: nat): State
    requires w < |s.workers| && OwnsCond(s.workers[w]) && HasJob(s.pool, w)
  {
    s.(pool := s.pool.(slots := s.pool.slots[w := None]),
       workers := s.workers[w := Running(s.workers[w].cond, s.pool.slots[w].value)])
  }

  lemma TakeOwnJobs(s: State, w: nat)
    requires JobsInv(s) && IsWaiting(s, w) && HasJob(s.pool, w)
    ensures JobsInv(TookOwn(s, w))
  {
    var s', job := TookOwn(s, w), s.pool.slots[w].value;
    forall j: Job
      ensures Sum(s'.workers, Runs(j)) == Sum(s.workers, Runs(j)) + Is(j)(job)
      ensures Sum(s.pool.slots, Holds(j)) == Sum(s'.pool.slots, Holds(j)) + Is(j)(job)
    {
      MoveWorker(s, w, s'.workers[w], j);
      SumShifted(s.pool.slots, w, None, Holds(j));
    }
    MoveWorker(s, w, s'.workers[w], 0);
  }

  function Ended(s: State, w: nat): State
    requires w < |s.workers| && s.workers[w].Running?
  {
    s.(workers := s.workers[w := Returning(s.workers[w].cond)],
       finished := s.finished + [s.workers[w].job])
  }

  lemma EndJobs(s: State, w: nat)
    requires JobsInv(s) && w < |s.workers| && s.workers[w].Running?
    ensures JobsInv(Ended(s, w))
  {
    var s', job := Ended(s, w), s.workers[w].job;
    forall j: Job
      ensures Sum(s.workers, Runs(j)) == Sum(s'.workers, Runs(j)) + Is(j)(job)
      ensures Sum(s'.finished, Is(j)) == Sum(s.finished, Is(j)) + Is(j)(job)
    {
      MoveWorker(s, w, s'.workers[w], j);
      SumAppend(s.finished, Is(j), job);
    }
    MoveWorker(s, w, s'.workers[w], 0);
  }

  function FailedInit(s: State, w: nat): State
    requires w < |s.workers|
  {
    s.(pool := s.pool.(count := s.pool.count - 1), workers := s.workers[w := Gone],
       initFailures := s.initFailures + 1)
  }

  lemma FailJobs(s: State, w: nat)
    requires JobsInv(s) && w < |s.workers| && s.workers[w].Starting?
    ensures JobsInv(FailedInit(s, w))
  {
    forall j: Job
      ensures Sum(FailedInit(s, w).workers, Runs(j)) == Sum(s.workers, Runs(j))
    {
      MoveWorker(s, w, Gone, j);
    }
    MoveWorker(s, w, Gone, 0);
  }

  // A job goes into the private slot of worker w.
  lemma DeliverJobs(s: State, w: nat, job: Job, s': State)
    requires JobsInv(s) && w < |s.pool.slots| && !HasJob(s.pool, w) && s.pool.queue == []
    requires s'.pool.submitted == s.pool.submitted + [job] && s'.pool.handedOut == s.pool.handedOut + [job]
    requires s'.pool.slots == s.pool.slots[w := Some(job)] && s'.pool.queue == s.pool.queue
    requires s'.pool.count == s.pool.count && s'.pool.limit == s.pool.limit && s'.pool.quit == s.pool.quit
    requires s' == s.(pool := s'.pool, pending := s'.pending)
    ensures JobsInv(s')
  {
    forall j: Job
      ensures Sum(s'.pool.slots, Holds(j)) == Sum(s.pool.slots, Holds(j)) + Is(j)(job)
      ensures Sum(s'.pool.handedOut, Is(j)) == Sum(s.pool.handedOut, Is(j)) + Is(j)(job)
    {
      SumShifted(s.pool.slots, w, Some(job), Holds(j));
      SumAppend(s.pool.handedOut, Is(j), job);
    }
  }

  function Queued(s: State, job: Job, created: bool): State {
    s.(pool := Enqueue(s.pool, job, created), workers := Spawned(s, created),
       createFailures := s.createFailures + CreateFailed(s, created))
  }

  lemma QueueJobs(s: State, job: Job, created: bool)
    requires JobsInv(s)
    ensures JobsInv(Queued(s, job, created))
  {
    SumAppend(s.workers, IsLive, Starting);
    forall j: Job
      ensures Sum(s.workers + [Starting], Runs(j)) == Sum(s.workers, Runs(j))
      ensures Sum(s.pool.slots + [None], Holds(j)) == Sum(s.pool.slots, Holds(j))
    {
      SumAppend(s.workers, Runs(j), Starting);
      SumAppend(s.pool.slots, Holds(j), None);
    }
  }
}
