/**
 Progress of the worker pool: wake-ups are not lost, and a shutdown that has set
 the quit flag is over after a bounded number of steps.
 */
module PoolProgress {
  import opened Collections
  import opened Tally
  import opened PoolSpec
  import opened PoolProtocol
  import opened PoolInvariant
  import opened PoolLists
  import opened PoolSafety

  // A step of a worker or of a job_deliver that finishes its hand-over.
  predicate WorkerStep(a: Action) {
    a.Enter? || a.InitFail? || a.Finish? || a.Reenter? || a.WakeUp? || a.Signal?
  }

  // One that does not rely on luck: no spurious wake-up, no timeout, no failure.
  ghost predicate Owed(s: State, a: Action) {
    Enabled(s, a) &&
    (a.Enter? || a.Finish? || a.Reenter? || a.Signal?
     || (a.WakeUp? && a.status.Signalled? && s.workers[a.w].notified))
  }

  // An owed step, or the drainer's own after its notification.
  ghost predicate Due(s: State, a: Action) { Owed(s, a) || (a.DrainWake? && s.drainer == Draining(true)) }

  // A run that never relies on luck.
  ghost predicate OwedRun(s: State, run: seq<Action>)
    requires CanRun(s, run)
    decreases |run|
  {
    run != [] ==> Due(s, run[0]) && OwedRun(Do(s, run[0]), run[1..])
  }

  // Hand-over is safe although the signal is sent after the mutex is released: a
  // waiter with a private job is notified, or its own signal is still to come.
  lemma HandOverReaches(s: State, w: nat) returns (a: Action)
    requires Inv(s) && IsWaiting(s, w) && HasJob(s.pool, w) && Listed(s.pool)
    ensures Owed(s, a)
    ensures !s.workers[w].notified ==> a.Signal? && Do(s, a).workers[w].notified
    ensures s.workers[w].notified ==> a == WakeUp(w, Signalled)
    ensures s.workers[w].notified ==> Do(s, a).workers[w] == Running(s.workers[w].cond, s.pool.slots[w].value)
  {
    if s.workers[w].notified {
      a := WakeUp(w, Signalled);
    } else {
      assert w !in s.pool.idleList;
      var k :| 0 <= k < |s.pending| && s.pending[k] == s.workers[w].cond;
      a := Signal(k, w);
      assert WaitsOn(s, w, s.pending[k]);
    }
  }

  // ------------------------------------------------------------ jobs come to an end

  function Rank(pc: Worker): nat {
    match pc
    case Starting => 1
    case Waiting(_, _, _) => 1
    case Running(_, _) => 2
    case Returning(_) => 1
    case Gone => 0
  }

  function Full(slot: Option<Job>): nat { if slot.Some? then 1 else 0 }

  function Left(s: State): nat {
    2 * |s.pool.queue| + Sum(s.workers, Rank) + 2 * Sum(s.pool.slots, Full) + |s.pending|
  }

  lemma RankMoves(s: State, w: nat, pc: Worker)
    requires w < |s.workers| && |s.pool.slots| == |s.workers|
    ensures Shifted(s.workers, w, pc, Rank) && Shifted(s.pool.slots, w, None, Full)
  {
    SumShifted(s.workers, w, pc, Rank);
    SumShifted(s.pool.slots, w, None, Full);
  }

  lemma SignalCounts(s: State, a: Action)
    requires Listed(s.pool) && |s.pool.slots| == |s.workers| && a.Signal? && Enabled(s, a)
    ensures Left(Do(s, a)) < Left(s)
  {
    if WaitsOn(s, a.w, s.pending[a.k]) {
      RankMoves(s, a.w, Do(s, a).workers[a.w]);
    }
  }

  lemma WorkerWithWork(s: State) returns (w: nat)
    requires Inv(s) && !AtRest(s) && !Stranded(s)
    ensures w < |s.workers| && !s.workers[w].Gone?
    ensures s.workers[w].Running? || HasJob(s.pool, w) || s.pool.queue != []
  {
    if v: nat :| v < |s.workers| && s.workers[v].Running? {
      w := v;
    } else if v: nat :| HasJob(s.pool, v) {
      assert IsWaiting(s, v);
      w := v;
    } else {
      w := SumWitness(s.workers, IsLive);
    }
  }

  // While jobs are queued, in a private slot or running, an owed step brings them
  // nearer to their end, provided the queued ones have a thread.
  lemma WorkIsOwed(s: State) returns (a: Action)
    requires Inv(s) && Listed(s.pool) && !AtRest(s) && !Stranded(s)
    ensures Owed(s, a) && WorkerStep(a) && Left(Do(s, a)) < Left(s)
  {
    var w := WorkerWithWork(s);
    if IsWaiting(s, w) {
      NoIdlerBesideWork(s, w);
      a := HandOverReaches(s, w);
      if a.Signal? {
        SignalCounts(s, a);
      } else {
        RankMoves(s, w, Do(s, a).workers[w]);
      }
    } else {
      assert !HasJob(s.pool, w);
      a := match s.workers[w] case Starting => Enter(w) case Running(_, _) => Finish(w) case _ => Reenter(w);
      RankMoves(s, w, Do(s, a).workers[w]);
    }
  }

  // Without any shutdown, and whatever has failed before: the jobs submitted so
  // far can all be finished within Left(s) owed steps, unless they are stranded.
  lemma {:induction false} JobsFinish(s: State) returns (run: seq<Action>)
    requires Inv(s) && Listed(s.pool) && !Stranded(s)
    ensures CanRun(s, run) && OwedRun(s, run) && |run| <= Left(s)
    ensures After(s, run).pool.submitted == s.pool.submitted && AllFinished(After(s, run))
    decreases Left(s)
  {
    run := [];
    if AtRest(s) {
      HandedOutFinished(s);
    } else {
      var a := WorkIsOwed(s);
      StepInv(s, a);
      StepHistory(s, a);
      StrandedExactly(s, a);
      run := JobsFinish(Do(s, a));
      RunPrepend(s, a, run);
      assert ([a] + run)[1..] == run;
      run := [a] + run;
    }
  }

  lemma {:induction false} StrandedForGood(s: State, run: seq<Action>)
    requires Inv(s) && Listed(s.pool) && Stranded(s) && CanRun(s, run) && OwedRun(s, run)
    ensures Stranded(After(s, run)) && Inv(After(s, run))
    decreases |run|
  {
    if run != [] {
      NobodyLeft(s);
      StepInv(s, run[0]);
      StrandedForGood(Do(s, run[0]), run[1..]);
    }
  }

  // Everything submitted can finish without luck exactly if nothing is stranded.
  lemma JobsFinishExactly(s: State)
    requires Inv(s) && Listed(s.pool)
    ensures (exists run :: CanRun(s, run) && OwedRun(s, run) && AllFinished(After(s, run))) <==> !Stranded(s)
  {
    if Stranded(s) {
      forall run | CanRun(s, run) && OwedRun(s, run)
        ensures !AllFinished(After(s, run))
      {
        StrandedForGood(s, run);
        EmptyPoolIsDone(After(s, run));
      }
    } else {
      var run := JobsFinish(s);
    }
  }

  // ------------------------------------------------------------------- shutdown

  // The steps of a worker that does not wait.
  predicate Moves(a: Action) { a.Enter? || a.Reenter? || a.Finish? || a.InitFail? }

  lemma MoverCounts(s: State, a: Action)
    requires ListInv(s, 0) && s.pool.quit && Listed(s.pool) && Enabled(s, a) && Moves(a)
    ensures Left(Do(s, a)) < Left(s)
  {
    assert !IsWaiting(s, a.w) && !HasJob(s.pool, a.w);
    RankMoves(s, a.w, Do(s, a).workers[a.w]);
  }

  // Once the quit flag is set, every step of every worker, spurious or not,
  // brings the shutdown nearer.
  lemma QuitStepCounts(s: State, a: Action)
    requires ListInv(s, 0) && s.pool.quit && Listed(s.pool) && Enabled(s, a) && WorkerStep(a)
    ensures Left(Do(s, a)) < Left(s) && Do(s, a).pool.quit
  {
    if a.Signal? {
      SignalCounts(s, a);
    } else if a.WakeUp? {
      QuitWakeCounts(s, a);
    } else {
      MoverCounts(s, a);
    }
  }

  lemma QuitWakeCounts(s: State, a: Action)
    requires ListInv(s, 0) && s.pool.quit && Listed(s.pool) && Enabled(s, a) && a.WakeUp?
    ensures Left(Do(s, a)) < Left(s)
  {
    RankMoves(s, a.w, Do(s, a).workers[a.w]);
    NoIdlerBesideWork(s, a.w);
  }

  function CountWorkerSteps(run: seq<Action>): nat {
    if run == [] then 0 else (if WorkerStep(run[0]) then 1 else 0) + CountWorkerSteps(run[1..])
  }

  // However the shutdown is scheduled: while nothing more is submitted, Left(s)
  // bounds the steps that workers can still make.
  lemma {:induction false} ShutdownBounded(s: State, run: seq<Action>)
    requires Inv(s) && s.pool.quit && CanRun(s, run)
    requires forall i :: 0 <= i < |run| ==> !run[i].Submit? && !run[i].Batch?
    ensures CountWorkerSteps(run) + Left(After(s, run)) <= Left(s)
    decreases |run|
  {
    if run != [] {
      var a := run[0];
      StepInv(s, a);
      if WorkerStep(a) {
        QuitStepCounts(s, a);
      } else {
        DrainLeaves(s, a);
      }
      ShutdownBounded(Do(s, a), run[1..]);
    }
  }

  lemma DrainLeaves(s: State, a: Action)
    requires Listed(s.pool) && Enabled(s, a) && s.pool.quit && (a.DrainBegin? || a.DrainWake?)
    ensures Left(Do(s, a)) == Left(s) && Do(s, a).pool.quit
  {
    SumSame(s.workers, Do(s, a).workers, Rank);
  }

  // While a thread is left, one of them has a step to make that nobody has to
  // wait for.
  lemma SomeoneIsOwed(s: State) returns (a: Action)
    requires Inv(s) && Listed(s.pool) && s.pool.quit && s.pool.count > 0
    ensures Owed(s, a) && WorkerStep(a)
  {
    var w := SumWitness(s.workers, IsLive);
    match s.workers[w] {
      case Starting => a := Enter(w);
      case Running(_, _) => a := Finish(w);
      case Returning(_) => a := Reenter(w);
      case Waiting(_, _, _) =>
        assert IsWaiting(s, w);
        if HasJob(s.pool, w) {
          a := HandOverReaches(s, w);
        } else {
          a := WakeUp(w, Signalled);
        }
    }
  }

  // The drainer sleeps, and no thread is left to wake it.
  ghost predicate Forgotten(s: State) { s.drainer == Draining(false) && s.pool.count == 0 }

  lemma ShutdownStep(s: State) returns (a: Action)
    requires Inv(s) && Listed(s.pool) && s.drainer.Draining? && s.pool.count > 0
    ensures Owed(s, a) && Left(Do(s, a)) < Left(s)
    ensures Inv(Do(s, a)) && Listed(Do(s, a).pool) && Do(s, a).pool.submitted == s.pool.submitted
    ensures Do(s, a).drainer.Draining? && !Forgotten(Do(s, a))
  {
    a := SomeoneIsOwed(s);
    QuitStepCounts(s, a);
    StepInv(s, a);
    StepHistory(s, a);
    ForgottenExactly(s, a);
    assert SubmittedIn(a) == [];
  }

  // A shutdown under way that is not forgotten comes to its end in at most
  // Left(s) + 1 steps, none of them a matter of luck.
  lemma {:induction false} ShutdownCompletes(s: State) returns (run: seq<Action>)
    requires Inv(s) && Listed(s.pool) && s.drainer.Draining? && !Forgotten(s)
    ensures CanRun(s, run) && After(s, run).drainer.Drained? && |run| <= Left(s) + 1
    ensures OwedRun(s, run)
    ensures After(s, run).pool.submitted == s.pool.submitted
    decreases Left(s)
  {
    var a, rest: seq<Action> := DrainWake, [];
    if s.pool.count > 0 {
      a := ShutdownStep(s);
      rest := ShutdownCompletes(Do(s, a));
    }
    RunPrepend(s, a, rest);
    run := [a] + rest;
    assert run[1..] == rest;
  }

  // What makes it forgotten: the last thread fails to initialise, which does not
  // signal the drainer, while the drainer has no signal left from another one.
  lemma ForgottenExactly(s: State, a: Action)
    requires Inv(s) && Listed(s.pool) && Enabled(s, a) && !Forgotten(s)
    ensures Forgotten(Do(s, a)) <==> a.InitFail? && s.pool.count == 1 && s.drainer == Draining(false)
  {
    if a.Batch? {
      BatchCounts(s, 0, a.jobs);
    }
  }

  // Then no owed step ends the shutdown.
  lemma {:induction false} ForgottenForGood(s: State, run: seq<Action>)
    requires Inv(s) && Listed(s.pool) && Forgotten(s) && CanRun(s, run) && OwedRun(s, run)
    ensures Forgotten(After(s, run))
    decreases |run|
  {
    if run != [] {
      NobodyLeft(s);
      StepInv(s, run[0]);
      ForgottenForGood(Do(s, run[0]), run[1..]);
    }
  }

  // A shutdown under way ends without luck exactly if it is not forgotten.
  lemma ShutdownEndsExactly(s: State)
    requires Inv(s) && Listed(s.pool) && s.drainer.Draining?
    ensures (exists run :: CanRun(s, run) && OwedRun(s, run) && After(s, run).drainer.Drained?) <==> !Forgotten(s)
  {
    if Forgotten(s) {
      forall run | CanRun(s, run) && OwedRun(s, run)
        ensures !After(s, run).drainer.Drained?
      {
        ForgottenForGood(s, run);
      }
    } else {
      var run := ShutdownCompletes(s);
    }
  }

  // It happens: the only worker fails to initialise after the shutdown has begun.
  lemma ForgottenDrainer(limit: nat, waitCount: nat, job: Job) returns (run: seq<Action>)
    requires limit > 0
    ensures CanRun(Init(limit, waitCount), run)
    ensures var s := After(Init(limit, waitCount), run);
            Forgotten(s) && (forall a :: !(Owed(s, a) && WorkerStep(a)))
  {
    var s0 := Init(limit, waitCount);
    var s1 := s0.(pool := Enqueue(s0.pool, job, true), workers := [Starting]);
    assert Do(s0, Submit(job, true)) == s1;
    run := ForgottenFrom(s1);
    RunPrepend(s0, Submit(job, true), run);
    run := [Submit(job, true)] + run;
  }

  lemma ForgottenFrom(s: State) returns (run: seq<Action>)
    requires s.workers == [Starting] && s.pool.count == 1 && s.drainer.Absent?
    requires s.pool.idleList == [] && s.pending == []
    ensures CanRun(s, run) && Forgotten(After(s, run))
    ensures forall a :: !(Owed(After(s, run), a) && WorkerStep(a))
  {
    var s1 := s.(pool := s.pool.(quit := true), drainer := Draining(false));
    var s2 := s1.(pool := s1.pool.(count := 0), workers := [Gone], initFailures := s.initFailures + 1);
    assert NotifyAll(s.workers, s.pool.idleList) == s.workers;
    assert Do(s, DrainBegin) == s1;
    assert s1.workers[0 := Gone] == [Gone];
    assert Do(s1, InitFail(0)) == s2;
    RunPrepend(s1, InitFail(0), []);
    RunPrepend(s, DrainBegin, [InitFail(0)] + []);
    run := [DrainBegin] + ([InitFail(0)] + []);
  }

  // ------------------------------------------------------------- every schedule

  // What a worker has to do of its own accord: a waiter nothing until it is notified.
  function Pull(pc: Worker): nat {
    match pc
    case Starting => 1
    case Waiting(_, _, notified) => if notified then 1 else 0
    case Running(_, _) => 2
    case Returning(_) => 1
    case Gone => 0
  }

  function Work(s: State): nat {
    2 * |s.pool.queue| + Sum(s.workers, Pull) + 2 * Sum(s.pool.slots, Full) + 2 * |s.pending|
  }

  // The same with the drainer's wake-up, which the end of a worker may bring about.
  function Pace(s: State): nat { 2 * Work(s) + if s.drainer == Draining(true) then 1 else 0 }

  lemma PullMoves(s: State, w: nat, pc: Worker)
    requires w < |s.workers| && |s.pool.slots| == |s.workers|
    ensures Shifted(s.workers, w, pc, Pull) && Shifted(s.pool.slots, w, None, Full)
  {
    SumShifted(s.workers, w, pc, Pull);
    SumShifted(s.pool.slots, w, None, Full);
  }

  lemma SignalWorks(s: State, a: Action)
    requires Listed(s.pool) && |s.pool.slots| == |s.workers| && a.Signal? && Enabled(s, a)
    ensures Work(Do(s, a)) < Work(s)
  {
    if WaitsOn(s, a.w, s.pending[a.k]) {
      PullMoves(s, a.w, Do(s, a).workers[a.w]);
    }
  }

  lemma WakeWorks(s: State, a: Action)
    requires ListInv(s, 0) && Listed(s.pool) && Owed(s, a) && a.WakeUp?
    ensures Work(Do(s, a)) < Work(s)
  {
    PullMoves(s, a.w, Do(s, a).workers[a.w]);
    NoIdlerBesideWork(s, a.w);
  }

  lemma MoverWorks(s: State, a: Action)
    requires ListInv(s, 0) && Listed(s.pool) && Owed(s, a) && Moves(a)
    ensures Work(Do(s, a)) < Work(s)
  {
    assert !IsWaiting(s, a.w) && !HasJob(s.pool, a.w);
    PullMoves(s, a.w, Do(s, a).workers[a.w]);
  }

  lemma OwedWorks(s: State, a: Action)
    requires ListInv(s, 0) && Listed(s.pool) && Owed(s, a)
    ensures Work(Do(s, a)) < Work(s)
  {
    if a.Signal? {
      SignalWorks(s, a);
    } else if a.WakeUp? {
      WakeWorks(s, a);
    } else {
      MoverWorks(s, a);
    }
  }

  lemma DuePace(s: State, a: Action)
    requires ListInv(s, 0) && Listed(s.pool) && Due(s, a)
    ensures Enabled(s, a) && Pace(Do(s, a)) < Pace(s)
    ensures !s.drainer.Absent? ==> !Do(s, a).drainer.Absent?
  {
    if Owed(s, a) {
      OwedWorks(s, a);
    } else {
      SumSame(s.workers, Do(s, a).workers, Pull);
    }
  }

  lemma DueKeeps(s: State, a: Action)
    requires Inv(s) && Listed(s.pool) && Due(s, a)
    ensures Enabled(s, a) && Inv(Do(s, a)) && Listed(Do(s, a).pool)
    ensures Do(s, a).pool.submitted == s.pool.submitted
    ensures !Stranded(s) ==> !Stranded(Do(s, a))
    ensures !Forgotten(s) ==> !Forgotten(Do(s, a))
  {
    assert Enabled(s, a) && !a.Submit? && !a.Batch? && !a.InitFail?;
    StepInv(s, a);
    StepHistory(s, a);
    assert SubmittedIn(a) == [];
    if !Stranded(s) {
      StrandedExactly(s, a);
    }
    if !Forgotten(s) {
      ForgottenExactly(s, a);
    }
  }

  // Nothing more is due.
  ghost predicate Quiet(s: State) { forall a :: !Due(s, a) }

  lemma SomethingIsDue(s: State) returns (a: Action)
    requires Inv(s) && Listed(s.pool)
    requires !(Stranded(s) || AllFinished(s)) || (s.drainer.Draining? && !Forgotten(s))
    ensures Due(s, a)
  {
    if s.drainer.Draining? && !Forgotten(s) {
      if s.pool.count > 0 {
        a := SomeoneIsOwed(s);
      } else {
        a := DrainWake;
      }
    } else {
      if AtRest(s) {
        HandedOutFinished(s);
      }
      a := WorkIsOwed(s);
    }
  }

  // Whichever of the due steps are made, in whatever order: there are at most
  // Pace(s) of them, and when none is left all jobs submitted so far have finished,
  // unless some were stranded to begin with, and a shutdown under way has returned,
  // unless it was forgotten to begin with.
  lemma {:induction false} EveryScheduleEnds(s: State, run: seq<Action>)
    requires Inv(s) && Listed(s.pool) && CanRun(s, run) && OwedRun(s, run)
    ensures |run| + Pace(After(s, run)) <= Pace(s)
    ensures After(s, run).pool.submitted == s.pool.submitted
    ensures Quiet(After(s, run)) && !Stranded(s) ==> AllFinished(After(s, run))
    ensures Quiet(After(s, run)) && !Forgotten(s) && !s.drainer.Absent? ==> After(s, run).drainer.Drained?
    decreases |run|
  {
    if run == [] {
      if !(Stranded(s) || AllFinished(s)) || (s.drainer.Draining? && !Forgotten(s)) {
        var a := SomethingIsDue(s);
      }
    } else {
      DuePace(s, run[0]);
      DueKeeps(s, run[0]);
      EveryScheduleEnds(Do(s, run[0]), run[1..]);
    }
  }
}
