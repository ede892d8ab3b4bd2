/**
 The worker pool as acl_pthread_pool.c keeps it: counters, the job queue, and the
 idle workers in an intrusive doubly linked list. Every method is one critical
 section of worker_mutex and is proved against the functions of PoolSpec: `spec`
 is the pool in their terms, and Valid ties it to the fields.
 */
module ThreadPool {
  import opened Collections
  import opened PoolSpec

  // thread_worker. `id` numbers the thread; `qlen` and `job` are its own queue,
  // which never holds more than one job.
  class Worker {
    const id: nat
    const cond: nat
    var next: Worker?
    var prev: Worker?
    var job: Option<Job>
    var qlen: int

    constructor (id: nat, cond: nat)
      ensures this.id == id && this.cond == cond && job == None && qlen == 0
    {
      this.id, this.cond := id, cond;
      next, prev, job, qlen := null, null, None, 0;
    }
  }

  ghost function At(list: seq<Worker>, i: nat): Worker? { if i < |list| then list[i] else null }

  // `next` chains the list from its head to its end. `prev` is right for every
  // worker but the head, whose `prev` the code may leave stale.
  ghost predicate Linked(list: seq<Worker>, first: Worker?, crew: set<Worker>)
    reads crew`next, crew`prev
  {
    && (forall t :: t in list ==> t in crew)
    && (forall i, j :: 0 <= i < j < |list| ==> list[i] != list[j])
    && first == At(list, 0)
    && (forall i {:trigger list[i].next} :: 0 <= i < |list| ==> list[i].next == At(list, i + 1))
    && (forall i {:trigger list[i].prev} :: 0 < i < |list| ==> list[i].prev == list[i - 1])
  }

  // The links go past the k-th worker.
  ghost predicate Bypassed(list: seq<Worker>, k: nat, first: Worker?, crew: set<Worker>)
    requires k < |list|
    reads crew`next, crew`prev
  {
    && (forall t :: t in list ==> t in crew)
    && (forall i, j :: 0 <= i < j < |list| ==> list[i] != list[j])
    && first == (if k == 0 then At(list, 1) else list[0])
    && (forall i {:trigger list[i].next} :: 0 <= i < |list| && i != k ==>
          list[i].next == At(list, if i == k - 1 then k + 1 else i + 1))
    && (forall i {:trigger list[i].prev} :: 0 < i < |list| && i != k && (i == k + 1 ==> k > 0) ==>
          list[i].prev == list[if i == k + 1 then k - 1 else i - 1])
  }

  lemma UnlinkedIs(list: seq<Worker>, k: nat, first: Worker?, crew: set<Worker>)
    requires k < |list| && Bypassed(list, k, first, crew)
    ensures Linked(list[..k] + list[k + 1..], first, crew)
  {
    var left := list[..k] + list[k + 1..];
    assert forall i :: 0 <= i < |left| ==> left[i] == list[if i < k then i else i + 1];
  }

  // The private slots are those of the workers, who have different numbers.
  ghost predicate Slotted(slots: seq<Option<Job>>, crew: set<Worker>)
    reads crew`job, crew`qlen
  {
    && (forall t :: t in crew ==> t.id < |slots| && slots[t.id] == t.job)
    && (forall t :: t in crew ==> t.qlen == if t.job.Some? then 1 else 0)
    && (forall t, u :: t in crew && u in crew && t.id == u.id ==> t == u)
  }

  ghost predicate Names(ids: seq<nat>, workers: seq<Worker>) {
    |ids| == |workers| && forall i :: 0 <= i < |ids| ==> ids[i] == workers[i].id
  }

  ghost predicate AllDifferent(workers: seq<Worker>) {
    forall i, j :: 0 <= i < j < |workers| ==> workers[i] != workers[j] && workers[i].id != workers[j].id
  }

  lemma DropLater<T>(q: seq<T>, k: nat)
    requires 0 < k < |q|
    ensures q[..k] + q[k + 1..] == [q[0]] + (q[1..][..k - 1] + q[1..][k..])
  {
  }

  lemma {:induction false} NamesWithout(ids: seq<nat>, workers: seq<Worker>, k: nat)
    requires Names(ids, workers) && AllDifferent(workers) && k < |ids|
    ensures Without(ids, workers[k].id) == ids[..k] + ids[k + 1..]
    decreases k
  {
    if k > 0 {
      assert ids[0] != workers[k].id == workers[1..][k - 1].id;
      NamesWithout(ids[1..], workers[1..], k - 1);
      DropLater(ids, k);
    }
  }

  lemma OthersDiffer(workers: seq<Worker>, k: nat)
    requires AllDifferent(workers) && k < |workers|
    ensures workers[k] !in workers[..k] + workers[k + 1..]
  {
    var others := workers[..k] + workers[k + 1..];
    forall i | 0 <= i < |others|
      ensures others[i] != workers[k]
    {
      assert others[i] == workers[if i < k then i else i + 1];
    }
  }

  class Pool {
    const limit: nat
    const waitCount: nat
    var queue: seq<Job>
    var qlen: int
    var thrFirst: Worker?
    var thrIter: Worker?
    var condFirst: seq<nat>
    var conds: nat
    var count: int
    var idle: int
    var quit: bool

    ghost var spec: Shared
    ghost var list: seq<Worker>          // the idle list, head first
    ghost var crew: set<Worker>          // the workers that have been created and not freed

    ghost predicate Fields()
      reads this
    {
      && spec.limit == limit && spec.waitCount == waitCount
      && spec.queue == queue && qlen == |queue|
      && spec.freeConds == condFirst && spec.conds == conds
      && spec.count == count && spec.idle == idle && spec.quit == quit
    }

    ghost predicate Valid()
      reads this, crew
    {
      && Fields()
      && Linked(list, thrFirst, crew)
      && Names(spec.idleList, list)
      && Slotted(spec.slots, crew)
    }

    constructor (threadsLimit: nat, idleTimeout: int, scheduleWait: int)
      ensures Valid() && spec == Fresh(threadsLimit, WaitCount(idleTimeout, scheduleWait))
      ensures list == [] && crew == {} && thrIter == null
    {
      limit := threadsLimit;
      waitCount := if idleTimeout > 0 && scheduleWait > 0 then 1000 * idleTimeout / scheduleWait else 0;
      queue, qlen, thrFirst, thrIter, condFirst, conds := [], 0, null, null, [], 0;
      count, idle, quit := 0, 0, false;
      spec := Fresh(threadsLimit, WaitCount(idleTimeout, scheduleWait));
      list, crew := [], {};
    }

    // worker_create, run by thread `id` when it first gets the mutex.
    method WorkerCreate(id: nat) returns (thr: Worker)
      requires Valid() && id < |spec.slots| && spec.slots[id] == None && (forall t :: t in crew ==> t.id != id)
      modifies this
      ensures Valid() && (spec, thr.cond) == Adopt(old(spec))
      ensures fresh(thr) && thr.id == id && crew == old(crew) + {thr} && list == old(list)
    {
      var c: nat;
      if condFirst != [] {
        c := condFirst[0];
        condFirst := condFirst[1..];
      } else {
        c := conds;
        conds := conds + 1;
      }
      thr := new Worker(id, c);
      spec := Adopt(spec).0;
      crew := crew + {thr};
    }

    // Lines 328-337: in front of the list.
    method LinkFirst(thr: Worker)
      requires Linked(list, thrFirst, crew) && thr in crew && thr !in list
      modifies this`thrFirst, this`list, crew`next, crew`prev
      ensures Linked(list, thrFirst, crew) && list == [thr] + old(list)
    {
      if thrFirst == null {
        thrFirst := thr;
        thr.next := null;
        thr.prev := null;
      } else {
        thrFirst.prev := thr;
        thr.next := thrFirst;
        thr.prev := null;
        thrFirst := thr;
      }
      list := [thr] + list;
    }

    // Lines 397-405 and 521-529: out of the list, wherever it is.
    method Unlink(thr: Worker, ghost k: nat)
      requires Linked(list, thrFirst, crew) && k < |list| && list[k] == thr
      modifies this`thrFirst, this`list, crew`next, crew`prev
      ensures Linked(list, thrFirst, crew) && list == old(list)[..k] + old(list)[k + 1..]
    {
      ghost var was := list;
      assert thr.next == At(list, k + 1);
      if thrFirst == thr {
        assert k == 0;
        if thr.next != null {
          thr.next.prev := null;
        }
        thrFirst := thr.next;
      } else {
        if thr.next != null {
          thr.next.prev := thr.prev;
        }
        assert thr.prev == list[k - 1];
        thr.prev.next := thr.next;
      }
      list := was[..k] + was[k + 1..];
      UnlinkedIs(was, k, thrFirst, crew);
    }

    // worker_wait, up to its first wait.
    method Park(thr: Worker)
      requires Valid() && thr in crew && thr !in list
      modifies this`thrFirst, this`list, this`idle, this`spec, crew`next, crew`prev
      ensures Valid() && list == [thr] + old(list)
      ensures spec == old(spec).(idleList := [thr.id] + old(spec.idleList), idle := old(spec.idle) + 1)
    {
      LinkFirst(thr);
      idle := idle + 1;
      spec := spec.(idleList := [thr.id] + spec.idleList, idle := spec.idle + 1);
    }

    // Off the list, and one idle worker fewer.
    method TakeOff(thr: Worker, ghost k: nat)
      requires Valid() && k < |list| && list[k] == thr
      modifies this`thrFirst, this`list, this`idle, this`spec, crew`next, crew`prev
      ensures Valid() && list == old(list)[..k] + old(list)[k + 1..]
      ensures spec == old(spec).(idleList := old(spec.idleList)[..k] + old(spec.idleList)[k + 1..],
                                 idle := old(spec.idle) - 1)
    {
      NamesDrop(spec.idleList, list, k);
      Unlink(thr, k);
      idle := idle - 1;
      spec := spec.(idleList := spec.idleList[..k] + spec.idleList[k + 1..], idle := spec.idle - 1);
    }

    lemma ListDiffers()
      requires Valid()
      ensures AllDifferent(list)
    {}

    // worker_wait, from line 395 on: a waiter takes itself off the list.
    method Leave(thr: Worker)
      requires Valid() && thr in list
      modifies this`thrFirst, this`list, this`idle, this`spec, crew`next, crew`prev
      ensures Valid() && spec == Unlist(old(spec), thr.id)
      ensures thr !in list
    {
      ghost var k :| 0 <= k < |list| && list[k] == thr;
      ListDiffers();
      NamesWithout(spec.idleList, list, k);
      OthersDiffer(list, k);
      TakeOff(thr, k);
    }

    // Lines 452-459: its own job first.
    method TakeOwn(thr: Worker) returns (job: Job)
      requires Valid() && thr in crew && thr.job.Some?
      modifies this`spec, thr`job, thr`qlen
      ensures Valid() && (spec, Run(job)) == Next(old(spec), thr.id)
    {
      job := thr.job.value;
      thr.job := None;
      thr.qlen := thr.qlen - 1;
      spec := Next(spec, thr.id).0;
    }

    // Lines 463-470: then the oldest one of the pool.
    method TakeQueued(ghost thr: Worker) returns (job: Job)
      requires Valid() && thr in crew && thr.job.None? && queue != []
      modifies this`spec, this`queue, this`qlen
      ensures Valid() && (spec, Run(job)) == Next(old(spec), thr.id)
    {
      job := queue[0];
      queue := queue[1..];
      qlen := qlen - 1;
      spec := Next(spec, thr.id).0;
    }

    // The worker loop from its head on (lines 449-485).
    method Loop(thr: Worker) returns (o: Outcome)
      requires Valid() && thr in crew && thr !in list
      modifies this`thrFirst, this`list, this`idle, this`spec, this`queue, this`qlen
      modifies crew`next, crew`prev, thr`job, thr`qlen
      ensures Valid() && (spec, o) == Next(old(spec), thr.id)
      ensures list == if o.Park? then [thr] + old(list) else old(list)
    {
      if thr.job.Some? {
        var job := TakeOwn(thr);
        o := Run(job);
      } else if queue != [] {
        var job := TakeQueued(thr);
        o := Run(job);
      } else if quit {
        o := Quit;
      } else {
        Park(thr);
        o := Outcome.Park;
      }
    }

    // worker_wait after its condition variable has returned (lines 359-413), and
    // the loop from there on.
    method AfterWait(thr: Worker, status: Status, idleCount: nat) returns (o: Outcome)
      requires Valid() && thr in crew && (thr in list <==> thr.job.None?)
      modifies this`thrFirst, this`list, this`idle, this`spec, this`queue, this`qlen
      modifies crew`next, crew`prev, thr`job, thr`qlen
      ensures Valid() && (spec, o) == Wake(old(spec), thr.id, status, idleCount)
      ensures thr in list <==> o.Sleep?
    {
      if thr.job.Some? {
        o := Loop(thr);
        return;
      }
      if queue != [] {
        Leave(thr);
        o := Loop(thr);
        return;
      }
      if !quit {
        match status {
          case TimedOut =>
            if idleCount + 1 < waitCount {
              return Sleep(idleCount + 1);
            }
          case Signalled =>
            return Sleep(0);
          case Failed =>
        }
      }
      Leave(thr);
      o := Quit;
    }

    // The end of worker_thread; `tellDrainer` is the signal to wait_worker_exit.
    method Retire(thr: Worker) returns (tellDrainer: bool)
      requires Valid() && thr in crew && thr !in list
      modifies this`condFirst, this`count, this`spec, this`crew
      ensures Valid() && spec == PoolSpec.Retire(old(spec), thr.cond)
      ensures tellDrainer == quit && crew == old(crew) - {thr}
    {
      condFirst := [thr.cond] + condFirst;
      count := count - 1;
      tellDrainer := quit;
      spec := PoolSpec.Retire(spec, thr.cond);
      crew := crew - {thr};
    }

    // The end of the pool queue, and a new thread below the limit; `spawn` asks
    // for one, `created` says whether pthread_create succeeds.
    method AddToQueue(job: Job, created: bool) returns (spawn: bool)
      requires Valid()
      modifies this`queue, this`qlen, this`count, this`spec
      ensures Valid() && spec == Enqueue(old(spec), job, created)
      ensures spawn == (old(count) < limit)
    {
      queue := queue + [job];
      qlen := qlen + 1;
      spawn := count < limit;
      if spawn && created {
        count := count + 1;
      }
      spec := Enqueue(spec, job, created);
    }

    // A job for an empty private queue.
    method GiveJob(thr: Worker, job: Job)
      requires Valid() && thr in crew && thr.qlen == 0
      modifies thr`job, thr`qlen, this`spec
      ensures Valid() && thr.qlen == 1 && spec == Deliver(old(spec), thr.id, job)
    {
      thr.job := Some(job);
      thr.qlen := thr.qlen + 1;
      spec := Deliver(spec, thr.id, job);
    }

    // job_deliver, for the head of the idle list.
    method JobDeliver(thr: Worker, job: Job)
      requires Valid() && thr == thrFirst && thr.qlen == 0
      modifies this`thrFirst, this`list, this`idle, this`spec
      modifies crew`next, crew`prev, thr`job, thr`qlen
      ensures Valid() && list == old(list)[1..]
      ensures spec == Deliver(old(spec), thr.id, job)
                      .(idleList := old(spec.idleList)[1..], idle := old(spec.idle) - 1)
    {
      GiveJob(thr, job);
      TakeOff(thr, 0);
      assert spec.idleList == old(spec.idleList)[1..] && list == old(list)[1..];
    }

    lemma ListedWorkers()
      requires Valid()
      ensures Listed(spec) && |spec.idleList| == |list|
      ensures forall i :: 0 <= i < |list| ==> (HasJob(spec, spec.idleList[i]) <==> list[i].qlen != 0)
    {}

    // job_add. `signal` is the worker whose condition variable is signalled once
    // the mutex is released.
    method JobAdd(job: Job, created: bool) returns (signal: Worker?)
      requires Valid()
      modifies this`thrFirst, this`list, this`idle, this`spec, this`queue, this`qlen, this`count
      modifies crew`next, crew`prev, crew`job, crew`qlen
      ensures Valid() && Listed(old(spec)) && spec == PoolSpec.JobAdd(old(spec), job, created)
      ensures signal == if HandsOver(old(spec)) then old(thrFirst) else null
    {
      ListedWorkers();
      signal := thrFirst;
      if signal != null && signal.qlen == 0 {
        JobDeliver(signal, job);
      } else {
        var _ := AddToQueue(job, created);
        signal := null;
      }
    }

    // -------------------------------------------------------------------- batches

    method BatAddBegin()
      requires Valid()
      modifies this`thrIter
      ensures Valid() && thrIter == At(list, 0)
    {
      thrIter := thrFirst;
    }

    // The search of job_append. `at` and `k` are positions of thr_iter in the list.
    method FindFree(ghost at: nat) returns (ghost k: nat)
      requires Valid() && thrIter == At(list, at) && at <= |list|
      modifies this`thrIter
      ensures Valid() && k == FirstFree(spec, at) <= |list| && thrIter == At(list, k)
    {
      ListedWorkers();
      k := at;
      while thrIter != null && thrIter.qlen > 0
        invariant at <= k <= |list| && thrIter == At(list, k)
        invariant FirstFree(spec, at) == FirstFree(spec, k)
        decreases |list| - k
      {
        thrIter := thrIter.next;
        k := k + 1;
      }
    }

    // A job for the worker at thr_iter, which then moves on.
    method ServeIter(job: Job, ghost k: nat)
      requires Valid() && k < |list| && thrIter == list[k] && list[k].qlen == 0
      modifies this`thrIter, this`spec, crew`job, crew`qlen
      ensures Valid() && spec == Deliver(old(spec), list[k].id, job) && thrIter == At(list, k + 1)
    {
      var thr: Worker := thrIter;
      thrIter := thrIter.next;
      GiveJob(thr, job);
    }

    method JobAppend(job: Job, created: bool, ghost at: nat) returns (spawn: bool, ghost at': nat)
      requires Valid() && thrIter == At(list, at) && at <= |list|
      modifies this`thrIter, this`spec, this`queue, this`qlen, this`count
      modifies crew`job, crew`qlen
      ensures Valid() && Listed(old(spec)) && (spec, at') == PoolSpec.JobAppend(old(spec), at, job, created)
      ensures thrIter == At(list, at') && at' <= |list|
      ensures spawn == (FirstFree(old(spec), at) == |list| && old(count) < limit)
    {
      ListedWorkers();
      spawn := false;
      ghost var k := FindFree(at);
      if thrIter != null {
        at' := k + 1;
        ServeIter(job, k);
      } else {
        at' := k;
        spawn := AddToQueue(job, created);
      }
    }

    // Lines 883-891: the way a worker leaves the list at the end of a batch. At
    // the head it is not the new head whose `prev` is cleared.
    method SweepOut(thr: Worker, ghost k: nat)
      requires Linked(list, thrFirst, crew) && k < |list| && list[k] == thr
      modifies this`thrFirst, this`list, crew`next, crew`prev
      ensures Linked(list, thrFirst, crew) && list == old(list)[..k] + old(list)[k + 1..]
    {
      ghost var was := list;
      assert thr.next == At(list, k + 1);
      if thrFirst == thr {
        assert k == 0;
        if thr.next != null {
          thr.prev := null;
        }
        thrFirst := thr.next;
      } else {
        if thr.next != null {
          thr.next.prev := thr.prev;
        }
        assert thr.prev == list[k - 1];
        thr.prev.next := thr.next;
      }
      list := was[..k] + was[k + 1..];
      UnlinkedIs(was, k, thrFirst, crew);
    }

    // One turn of the loop of bat_add_end, at position k of the list.
    method SweepStep(thr: Worker, ghost k: nat) returns (next: Worker?)
      requires Linked(list, thrFirst, crew) && k < |list| && list[k] == thr
      modifies this`thrFirst, this`list, crew`next, crew`prev
      ensures Linked(list, thrFirst, crew)
      ensures if thr.qlen > 0
              then list == old(list)[..k] + old(list)[k + 1..] && next == At(list, k)
              else list == old(list) && next == At(list, k + 1)
    {
      next := thr.next;
      if thr.qlen > 0 {
        SweepOut(thr, k);
      }
    }

    // In the middle of the sweep: `kept` have been passed and stay, `ahead` are still
    // to come, `sig` names those signalled so far.
    ghost predicate Sweeping(it: Worker?, n: int, signalled: seq<Worker>,
                             kept: seq<nat>, ahead: seq<nat>, sig: seq<nat>)
      reads this, crew
    {
      && Linked(list, thrFirst, crew) && Slotted(spec.slots, crew)
      && Names(kept + ahead, list) && it == At(list, |kept|) && Names(sig, signalled)
      && Idlers(spec, spec.idleList) == kept + Idlers(spec, ahead)
      && n >= 0 && BatchSignals(spec, spec.idleList, |queue|) == sig + BatchSignals(spec, ahead, n)
    }

    method SweepTurn(thr: Worker, left: int, given: seq<Worker>, ghost kept: seq<nat>, ghost ahead: seq<nat>,
                     ghost sig: seq<nat>)
      returns (next: Worker?, n: int, signalled: seq<Worker>, ghost kept': seq<nat>, ghost sig': seq<nat>)
      requires Sweeping(thr, left, given, kept, ahead, sig)
      modifies this`thrFirst, this`list, crew`next, crew`prev
      ensures ahead != [] && Sweeping(next, n, signalled, kept', ahead[1..], sig')
    {
      n, signalled, kept', sig' := left, given, kept, sig;
      SweepFacts(spec, kept, ahead, sig, n);
      NamesDrop(kept + ahead, list, |kept|);
      assert (kept + ahead)[|kept|] == ahead[0];
      assert HasJob(spec, thr.id) <==> thr.qlen > 0;
      next := SweepStep(thr, |kept|);
      var told := thr.qlen > 0 || n > 0;
      if thr.qlen == 0 {
        kept' := kept + [ahead[0]];
        n := if told then n - 1 else n;
      }
      if told {
        signalled := signalled + [thr];
        sig' := sig + [ahead[0]];
      }
    }

    // The loop of acl_pthread_pool_bat_add_end.
    method Sweep() returns (signalled: seq<Worker>)
      requires Valid()
      modifies this`thrFirst, this`list, crew`next, crew`prev
      ensures Linked(list, thrFirst, crew) && Names(Idlers(spec, spec.idleList), list)
      ensures Names(BatchSignals(spec, spec.idleList, |queue|), signalled)
    {
      ghost var ahead := spec.idleList;
      ghost var kept: seq<nat>, sig: seq<nat> := [], [];
      var it, n := thrFirst, qlen;
      signalled := [];
      assert [] + ahead == ahead && kept + Idlers(spec, ahead) == Idlers(spec, ahead);
      while it != null
        invariant Sweeping(it, n, signalled, kept, ahead, sig)
        decreases |ahead|
      {
        it, n, signalled, kept, sig := SweepTurn(it, n, signalled, kept, ahead, sig);
        ahead := ahead[1..];
      }
      assert ahead == [] && kept + [] == kept && sig + [] == sig;
    }

    // acl_pthread_pool_bat_add_end. `signalled` are the workers it signals.
    method BatAddEnd() returns (signalled: seq<Worker>)
      requires Valid()
      modifies this`thrFirst, this`list, this`thrIter, this`spec, crew`next, crew`prev
      ensures Valid() && spec == BatchEnd(old(spec)) && thrIter == null
      ensures Names(BatchSignals(old(spec), old(spec.idleList), |old(queue)|), signalled)
    {
      signalled := Sweep();
      thrIter := null;
      spec := BatchEnd(spec);
    }

    // wait_worker_exit up to its first wait on the pool's own condition variable:
    // it fails on a negative count, is done when no thread is left, and otherwise
    // signals all idle workers.
    method WaitWorkerExit() returns (failed: bool, done: bool, signalled: seq<Worker>)
      requires Valid()
      modifies this`quit, this`spec
      ensures Valid() && spec == old(spec).(quit := true)
      ensures failed == (count < 0) && done == (count == 0) && signalled == if count > 0 then list else []
    {
      quit := true;
      spec := spec.(quit := true);
      failed, done, signalled := count < 0, count == 0, [];
      if !failed && !done {
        var thr := thrFirst;
        while thr != null
          invariant |signalled| <= |list| && signalled == list[..|signalled|]
          invariant thr == At(list, |signalled|)
          decreases |list| - |signalled|
        {
          signalled := signalled + [thr];
          thr := thr.next;
        }
      }
    }
  }

  lemma NamesDrop(ids: seq<nat>, workers: seq<Worker>, k: nat)
    requires Names(ids, workers) && k < |ids|
    ensures Names(ids[..k] + ids[k + 1..], workers[..k] + workers[k + 1..])
    ensures forall t :: t in workers[..k] + workers[k + 1..] ==> t in workers
  {}

  // What one turn of the sweep adds to the two results.
  lemma SweepFacts(p: Shared, kept: seq<nat>, ahead: seq<nat>, sig: seq<nat>, n: nat)
    requires ahead != []
    ensures var w, rest := ahead[0], ahead[1..];
            && kept + ahead == (kept + [w]) + rest
            && (kept + ahead)[..|kept|] + (kept + ahead)[|kept| + 1..] == kept + rest
            && (HasJob(p, w) ==>
                  kept + Idlers(p, ahead) == kept + Idlers(p, rest)
                  && sig + BatchSignals(p, ahead, n) == (sig + [w]) + BatchSignals(p, rest, n))
            && (!HasJob(p, w) ==> kept + Idlers(p, ahead) == (kept + [w]) + Idlers(p, rest))
            && (!HasJob(p, w) && n > 0 ==>
                  sig + BatchSignals(p, ahead, n) == (sig + [w]) + BatchSignals(p, rest, n - 1))
            && (!HasJob(p, w) && n == 0 ==> BatchSignals(p, ahead, n) == BatchSignals(p, rest, n))
  {}
}
