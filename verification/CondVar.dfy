/**
 The condition variable built from a mutex and two counting semaphores
 (acl_pthread_cond.c). `Cond` is the object itself, one method for each stretch
 of code between two points where the thread may block. `State` and `Do` are the
 protocol it makes with any number of threads that wait, signal and broadcast.
 */
module CondVar {
  import opened Tally

  // ---------------------------------------------------------------- the object

  // The fields of acl_pthread_cond_t; `locked` is its protection mutex.
  datatype Shared = Shared(locked: bool, waiting: int, signals: int, waitSem: nat, waitDone: nat)

  function EnterWait(c: Shared): Shared { c.(waiting := c.waiting + 1) }

  // How many tokens a broadcast owes: all waiters not yet signalled.
  function Unsignalled(c: Shared): nat {
    if c.waiting > c.signals then c.waiting - c.signals else 0
  }

  // The lock is kept while the tokens are posted.
  function Announce(c: Shared, n: nat): Shared { c.(locked := n > 0, signals := c.signals + n) }

  function Post(c: Shared): Shared { c.(waitSem := c.waitSem + 1) }

  // A waiter that holds no token of its own must eat one before it leaves.
  predicate MustEat(c: Shared, timedOut: bool) { c.signals > 0 && timedOut }

  function Leave(c: Shared): Shared {
    if c.signals > 0
    then c.(locked := false, waiting := c.waiting - 1, signals := c.signals - 1, waitDone := c.waitDone + 1)
    else c.(locked := false, waiting := c.waiting - 1)
  }

  class Cond {
    var locked: bool
    var waiting: int
    var signals: int
    var waitSem: nat
    var waitDone: nat

    ghost function View(): Shared
      reads this
    {
      Shared(locked, waiting, signals, waitSem, waitDone)
    }

    constructor ()
      ensures View() == Shared(false, 0, 0, 0, 0)
    {
      locked, waiting, signals, waitSem, waitDone := false, 0, 0, 0, 0;
    }

    // acl_pthread_cond_timedwait up to the semaphore wait.
    method BeginWait()
      requires !locked
      modifies this
      ensures View() == EnterWait(old(View()))
    {
      waiting := waiting + 1;
    }

    // acl_sem_wait(wait_sem), which returns only when a token is there.
    method TakeToken()
      requires waitSem > 0
      modifies this
      ensures View() == old(View()).(waitSem := old(waitSem) - 1)
    {
      waitSem := waitSem - 1;
    }

    // acl_pthread_cond_timedwait after the semaphore wait. With `mustEat` it is
    // about to wait for a token with the lock held; EatToken goes on from there.
    method EndWait(timedOut: bool) returns (mustEat: bool)
      requires !locked
      modifies this
      ensures mustEat == MustEat(old(View()), timedOut)
      ensures View() == if mustEat then old(View()).(locked := true) else Leave(old(View()))
    {
      locked := true;
      if signals > 0 {
        if timedOut {
          return true;
        }
        waitDone := waitDone + 1;
        signals := signals - 1;
      }
      waiting := waiting - 1;
      locked := false;
      return false;
    }

    method EatToken()
      requires locked && waitSem > 0 && signals > 0
      modifies this
      ensures View() == Leave(old(View()).(waitSem := old(waitSem) - 1))
    {
      waitSem := waitSem - 1;
      waitDone := waitDone + 1;
      signals := signals - 1;
      waiting := waiting - 1;
      locked := false;
    }

    // The locked part of acl_pthread_cond_signal. `owed` is the number of
    // wait_done tokens the caller then has to collect.
    method Signal() returns (owed: nat)
      requires !locked
      modifies this
      ensures owed == if old(waiting) > old(signals) then 1 else 0
      ensures View() == if owed == 0 then old(View())
                        else Post(Announce(old(View()), 1)).(locked := false)
    {
      locked := true;
      if waiting > signals {
        signals := signals + 1;
        waitSem := waitSem + 1;
        locked := false;
        return 1;
      }
      locked := false;
      return 0;
    }

    // The locked part of acl_pthread_cond_broadcast, with its posting loop.
    method Broadcast() returns (owed: nat)
      requires !locked
      modifies this
      ensures owed == Unsignalled(old(View()))
      ensures View() == Announce(old(View()), owed)
                        .(locked := false, waitSem := old(waitSem) + owed)
    {
      locked := true;
      owed := 0;
      if waiting > signals {
        owed := waiting - signals;
        signals := waiting;
        var i := 0;
        while i < owed
          invariant 0 <= i <= owed
          invariant View() == Announce(old(View()), owed).(waitSem := old(waitSem) + i)
        {
          waitSem := waitSem + 1;
          i := i + 1;
        }
      }
      locked := false;
    }

    // acl_sem_wait(wait_done)
    method Collect()
      requires waitDone > 0
      modifies this
      ensures View() == old(View()).(waitDone := old(waitDone) - 1)
    {
      waitDone := waitDone - 1;
    }
  }

  // -------------------------------------------------------------- the protocol

  // Where a thread stands. Woken(token) has left the semaphore wait with or
  // without a token and goes for the lock; Eating and Posting hold the lock.
  datatype Thread =
    | Idle
    | Sleeping(timed: bool)
    | Woken(token: bool)
    | Eating
    | Posting(left: nat, owed: nat)
    | Collecting(owed: nat)

  datatype State = State(c: Shared, threads: seq<Thread>)

  datatype Action =
    | Wait(t: nat, timed: bool)
    | Take(t: nat)
    | TimeOut(t: nat)
    | Finish(t: nat)
    | Eat(t: nat)
    | Signal(t: nat)
    | Broadcast(t: nat)
    | PostOne(t: nat)
    | Unlock(t: nat)
    | Collect(t: nat)

  function Init(n: nat): State { State(Shared(false, 0, 0, 0, 0), seq(n, _ => Idle)) }

  predicate Enabled(s: State, a: Action) {
    a.t < |s.threads| &&
    var pc := s.threads[a.t];
    match a
    case Wait(_, _) => pc.Idle? && !s.c.locked
    case Take(_) => pc.Sleeping? && s.c.waitSem > 0
    case TimeOut(_) => pc == Sleeping(true)
    case Finish(_) => pc.Woken? && !s.c.locked
    case Eat(_) => pc.Eating? && s.c.waitSem > 0
    case Signal(_) => pc.Idle? && !s.c.locked
    case Broadcast(_) => pc.Idle? && !s.c.locked
    case PostOne(_) => pc.Posting? && pc.left > 0
    case Unlock(_) => pc.Posting? && pc.left == 0
    case Collect(_) => pc.Collecting? && s.c.waitDone > 0
  }

  function Announcing(s: State, t: nat, n: nat): State
    requires t < |s.threads|
  {
    if n == 0 then s else State(Announce(s.c, n), s.threads[t := Posting(n, n)])
  }

  function Do(s: State, a: Action): State
    requires Enabled(s, a)
  {
    var pc := s.threads[a.t];
    match a
    case Wait(t, timed) => State(EnterWait(s.c), s.threads[t := Sleeping(timed)])
    case Take(t) => State(s.c.(waitSem := s.c.waitSem - 1), s.threads[t := Woken(true)])
    case TimeOut(t) => s.(threads := s.threads[t := Woken(false)])
    case Finish(t) =>
      if MustEat(s.c, !pc.token)
      then State(s.c.(locked := true), s.threads[t := Eating])
      else State(Leave(s.c), s.threads[t := Idle])
    case Eat(t) => State(Leave(s.c.(waitSem := s.c.waitSem - 1)), s.threads[t := Idle])
    case Signal(t) => Announcing(s, t, if s.c.waiting > s.c.signals then 1 else 0)
    case Broadcast(t) => Announcing(s, t, Unsignalled(s.c))
    case PostOne(t) => State(Post(s.c), s.threads[t := Posting(pc.left - 1, pc.owed)])
    case Unlock(t) =>
      State(s.c.(locked := false), s.threads[t := if pc.owed == 0 then Idle else Collecting(pc.owed)])
    case Collect(t) =>
      State(s.c.(waitDone := s.c.waitDone - 1),
            s.threads[t := if pc.owed <= 1 then Idle else Collecting(pc.owed - 1)])
  }

  predicate CanRun(s: State, run: seq<Action>)
    decreases |run|
  {
    run == [] || (Enabled(s, run[0]) && CanRun(Do(s, run[0]), run[1..]))
  }

  function After(s: State, run: seq<Action>): State
    requires CanRun(s, run)
    decreases |run|
  {
    if run == [] then s else After(Do(s, run[0]), run[1..])
  }

  // ------------------------------------------------------------- the invariant

  function InWait(pc: Thread): nat { if pc.Sleeping? || pc.Woken? || pc.Eating? then 1 else 0 }
  function HasToken(pc: Thread): nat { if pc == Woken(true) then 1 else 0 }
  function Unposted(pc: Thread): nat { if pc.Posting? then pc.left else 0 }
  function Owed(pc: Thread): nat { if pc.Posting? || pc.Collecting? then pc.owed else 0 }
  function HoldsLock(pc: Thread): nat { if pc.Posting? || pc.Eating? then 1 else 0 }
  function IsPosting(pc: Thread): nat { if pc.Posting? then 1 else 0 }

  // Token conservation. The third line: every signal still open is a token in
  // wait_sem, or with a waiter that has not finished, or not posted yet. The
  // fourth: signallers are owed one wait_done for every open or finished signal.
  ghost predicate Counts(s: State) {
    && 0 <= s.c.signals <= s.c.waiting
    && s.c.waiting == Sum(s.threads, InWait)
    && s.c.signals == s.c.waitSem + Sum(s.threads, HasToken) + Sum(s.threads, Unposted)
    && Sum(s.threads, Owed) == s.c.signals + s.c.waitDone
    && Sum(s.threads, HoldsLock) == (if s.c.locked then 1 else 0)
  }

  ghost predicate Inv(s: State) {
    && Counts(s)
    && (forall t :: 0 <= t < |s.threads| && s.threads[t].Eating? ==> s.c.signals > 0)
    && (forall t :: 0 <= t < |s.threads| && s.threads[t].Collecting? ==> s.threads[t].owed > 0)
  }

  lemma InitInv(n: nat)
    ensures Inv(Init(n))
  {
    var th := Init(n).threads;
    SumZero(th, InWait);
    SumZero(th, HasToken);
    SumZero(th, Unposted);
    SumZero(th, Owed);
    SumZero(th, HoldsLock);
  }

  // Every tally after thread t moved to pc.
  lemma Moved(th: seq<Thread>, t: nat, pc: Thread)
    requires t < |th|
    ensures Shifted(th, t, pc, InWait) && Shifted(th, t, pc, HasToken) && Shifted(th, t, pc, Unposted)
    ensures Shifted(th, t, pc, Owed) && Shifted(th, t, pc, HoldsLock) && Shifted(th, t, pc, IsPosting)
  {
    SumShifted(th, t, pc, InWait);
    SumShifted(th, t, pc, HasToken);
    SumShifted(th, t, pc, Unposted);
    SumShifted(th, t, pc, Owed);
    SumShifted(th, t, pc, HoldsLock);
    SumShifted(th, t, pc, IsPosting);
  }

  lemma OneLockHolder(s: State, t: nat, u: nat)
    requires Inv(s) && t < |s.threads| && u < |s.threads|
    requires HoldsLock(s.threads[t]) == 1 && HoldsLock(s.threads[u]) == 1
    ensures t == u && s.c.locked
  {
    SumAtLeast(s.threads, HoldsLock, t);
    if t < u {
      SumAtLeastTwo(s.threads, HoldsLock, t, u);
    } else if u < t {
      SumAtLeastTwo(s.threads, HoldsLock, u, t);
    }
  }

  // The steps of waiters, and those of signallers.
  lemma WaiterCounts(s: State, a: Action)
    requires Counts(s) && Enabled(s, a) && (a.Wait? || a.Take? || a.TimeOut? || a.Finish? || a.Eat?)
    requires s.threads[a.t].Eating? ==> s.c.signals > 0
    ensures Counts(Do(s, a))
  {
    Moved(s.threads, a.t, Do(s, a).threads[a.t]);
  }

  lemma SignallerCounts(s: State, a: Action)
    requires Counts(s) && Enabled(s, a) && !(a.Wait? || a.Take? || a.TimeOut? || a.Finish? || a.Eat?)
    requires s.threads[a.t].Collecting? ==> s.threads[a.t].owed > 0
    ensures Counts(Do(s, a))
  {
    Moved(s.threads, a.t, Do(s, a).threads[a.t]);
  }

  lemma StepCounts(s: State, a: Action)
    requires Counts(s) && Enabled(s, a)
    requires s.threads[a.t].Eating? ==> s.c.signals > 0
    requires s.threads[a.t].Collecting? ==> s.threads[a.t].owed > 0
    ensures Counts(Do(s, a))
  {
    if a.Wait? || a.Take? || a.TimeOut? || a.Finish? || a.Eat? {
      WaiterCounts(s, a);
    } else {
      SignallerCounts(s, a);
    }
  }

  lemma EaterKeeps(s: State, a: Action, u: nat)
    requires Inv(s) && Enabled(s, a) && u < |s.threads| && Do(s, a).threads[u].Eating?
    ensures Do(s, a).c.signals > 0
  {
    if u != a.t {
      SumAtLeast(s.threads, HoldsLock, u);
      if HoldsLock(s.threads[a.t]) == 1 {
        OneLockHolder(s, a.t, u);
      }
    }
  }

  lemma StepInv(s: State, a: Action)
    requires Inv(s) && Enabled(s, a)
    ensures Inv(Do(s, a))
  {
    StepCounts(s, a);
    forall u | 0 <= u < |s.threads| && Do(s, a).threads[u].Eating?
      ensures Do(s, a).c.signals > 0
    {
      EaterKeeps(s, a, u);
    }
  }

  // Handshake conservation, for every interleaving of timed and untimed waits,
  // signals and broadcasts.
  lemma {:induction false} HandshakeConservation(s: State, run: seq<Action>)
    requires Inv(s) && CanRun(s, run)
    ensures Inv(After(s, run))
    decreases |run|
  {
    if run != [] {
      StepInv(s, run[0]);
      HandshakeConservation(Do(s, run[0]), run[1..]);
    }
  }

  // ----------------------------------------------------------------- progress

  // The steps that carry a handshake on, as opposed to those that begin a new
  // wait or signal, or let a timer expire.
  predicate Handshake(a: Action) {
    a.Take? || a.Finish? || a.Eat? || a.PostOne? || a.Unlock? || a.Collect?
  }

  // Some thread is still inside signal or broadcast.
  ghost predicate SignallerPending(s: State) {
    exists t :: 0 <= t < |s.threads| && (s.threads[t].Posting? || s.threads[t].Collecting?)
  }

  ghost predicate SomeEater(s: State) {
    exists t :: 0 <= t < |s.threads| && s.threads[t].Eating?
  }

  // A timed-out waiter waits for a token while it holds the lock, and the
  // tokens are all with waiters that need this lock to finish.
  ghost predicate Wedged(s: State) { SomeEater(s) && s.c.waitSem == 0 }

  ghost predicate HandshakeEnabled(s: State) {
    exists a :: Handshake(a) && Enabled(s, a)
  }

  function Waking(pc: Thread): nat { if pc.Woken? then 2 else if pc.Eating? then 1 else 0 }

  function Work(s: State): nat {
    4 * Sum(s.threads, Unposted) + 3 * s.c.waitSem + Sum(s.threads, Waking)
    + s.c.waitDone + Sum(s.threads, IsPosting)
  }

  lemma WaiterWorks(s: State, a: Action)
    requires Inv(s) && Enabled(s, a) && (a.Take? || a.Finish? || a.Eat?)
    ensures Work(Do(s, a)) < Work(s)
  {
    var pc := Do(s, a).threads[a.t];
    Moved(s.threads, a.t, pc);
    SumShifted(s.threads, a.t, pc, Waking);
  }

  lemma SignallerWorks(s: State, a: Action)
    requires Inv(s) && Enabled(s, a) && (a.PostOne? || a.Unlock? || a.Collect?)
    ensures Work(Do(s, a)) < Work(s)
  {
    var pc := Do(s, a).threads[a.t];
    Moved(s.threads, a.t, pc);
    SumShifted(s.threads, a.t, pc, Waking);
  }

  lemma HandshakeWorks(s: State, a: Action)
    requires Inv(s) && Enabled(s, a) && Handshake(a)
    ensures Work(Do(s, a)) < Work(s)
  {
    if a.Take? || a.Finish? || a.Eat? {
      WaiterWorks(s, a);
    } else {
      SignallerWorks(s, a);
    }
  }

  // A waiter asleep or just woken exists when a token lies in wait_sem.
  lemma TokenHasTaker(s: State) returns (a: Action)
    requires Inv(s) && !s.c.locked && s.c.signals > 0
    ensures Handshake(a) && Enabled(s, a)
    ensures a.Take? || (a.Finish? && (s.threads[a.t].token || s.c.waitSem > 0))
  {
    if Sum(s.threads, HasToken) > 0 {
      var t := SumWitness(s.threads, HasToken);
      a := Finish(t);
    } else {
      forall t | 0 <= t < |s.threads| ensures Unposted(s.threads[t]) == 0 {
        SumAtLeast(s.threads, HoldsLock, t);
      }
      SumZero(s.threads, Unposted);
      var t := SumWitness(s.threads, InWait);
      SumAtLeast(s.threads, HoldsLock, t);
      a := if s.threads[t].Sleeping? then Take(t) else Finish(t);
    }
  }

  lemma NoEaterUnlocked(s: State)
    requires Inv(s) && !s.c.locked
    ensures forall t :: 0 <= t < |s.threads| ==> HoldsLock(s.threads[t]) == 0
  {
    forall t | 0 <= t < |s.threads|
      ensures HoldsLock(s.threads[t]) == 0
    {
      SumAtLeast(s.threads, HoldsLock, t);
    }
  }

  // The step to make next: that of whoever holds the lock, else one that collects
  // a wait_done, else one of a waiter with a token or going for one.
  lemma NextHandshake(s: State) returns (a: Action)
    requires Inv(s) && SignallerPending(s) && !Wedged(s)
    ensures Handshake(a) && Enabled(s, a) && !Wedged(Do(s, a))
  {
    if s.c.locked {
      var u := SumWitness(s.threads, HoldsLock);
      a := if s.threads[u].Eating? then Eat(u)
           else if s.threads[u].left > 0 then PostOne(u) else Unlock(u);
    } else {
      NoEaterUnlocked(s);
      var t :| 0 <= t < |s.threads| && (s.threads[t].Posting? || s.threads[t].Collecting?);
      if s.c.waitDone > 0 {
        a := Collect(t);
      } else {
        SumAtLeast(s.threads, Owed, t);
        a := TokenHasTaker(s);
      }
    }
    WedgeEntry(s, a);
  }

  // A signal or broadcast under way can be carried on unless the wedge holds and
  // no finished waiter is left to collect; the wedge is the only way to block it.
  lemma StuckExactlyWhenWedged(s: State)
    requires Inv(s) && SignallerPending(s)
    ensures !HandshakeEnabled(s) <==> Wedged(s) && s.c.waitDone == 0
  {
    if !Wedged(s) {
      var a := NextHandshake(s);
    } else if s.c.waitDone > 0 {
      var t :| 0 <= t < |s.threads| && (s.threads[t].Posting? || s.threads[t].Collecting?);
      assert Enabled(s, PostOne(t)) || Enabled(s, Unlock(t)) || Enabled(s, Collect(t));
    } else {
      var e :| 0 <= e < |s.threads| && s.threads[e].Eating?;
      SumAtLeast(s.threads, HoldsLock, e);
      forall a | Handshake(a) ensures !Enabled(s, a) {
        if a.t < |s.threads| && s.threads[a.t].Posting? {
          OneLockHolder(s, a.t, e);
        }
      }
    }
  }

  // The wedge is for ever: whatever the threads do, some signaller stays inside.
  lemma {:induction false} WedgedForever(s: State, run: seq<Action>)
    requires Inv(s) && Wedged(s) && CanRun(s, run)
    ensures Wedged(After(s, run)) && SignallerPending(After(s, run))
    decreases |run|
  {
    var e :| 0 <= e < |s.threads| && s.threads[e].Eating?;
    SumAtLeast(s.threads, HoldsLock, e);
    if run == [] {
      var t := SumWitness(s.threads, Owed);
    } else {
      var a := run[0];
      if s.threads[a.t].Posting? {
        OneLockHolder(s, a.t, e);
      }
      assert Do(s, a).threads[e].Eating?;
      StepInv(s, a);
      WedgedForever(Do(s, a), run[1..]);
    }
  }

  // How the wedge comes about: a timed-out waiter gets the lock when all tokens
  // are taken, or the last token is taken while such a waiter reaches for it.
  lemma WedgeEntry(s: State, a: Action)
    requires Inv(s) && !Wedged(s) && Enabled(s, a)
    ensures Wedged(Do(s, a)) <==>
            (a.Finish? && !s.threads[a.t].token && s.c.signals > 0 && s.c.waitSem == 0)
            || (a.Take? && s.c.waitSem == 1 && SomeEater(s))
  {
    var s' := Do(s, a);
    if a.Finish? && !s.threads[a.t].token && s.c.signals > 0 && s.c.waitSem == 0 {
      assert s'.threads[a.t].Eating?;
    }
    if a.Take? && s.c.waitSem == 1 && SomeEater(s) {
      var e :| 0 <= e < |s.threads| && s.threads[e].Eating?;
      assert s'.threads[e].Eating?;
    }
    if Wedged(s') {
      var e :| 0 <= e < |s'.threads| && s'.threads[e].Eating?;
      if e != a.t {
        assert s.threads[e].Eating?;
        SumAtLeast(s.threads, HoldsLock, e);
        if a.Eat? {
          OneLockHolder(s, a.t, e);
        }
      }
    }
  }

  lemma RunPrepend(s: State, a: Action, s': State, run: seq<Action>)
    requires Enabled(s, a) && Do(s, a) == s' && CanRun(s', run)
    ensures CanRun(s, [a] + run) && After(s, [a] + run) == After(s', run)
  {
  }

  // One timed and one untimed waiter and one signal are enough.
  lemma WedgeReachable() returns (run: seq<Action>)
    ensures CanRun(Init(3), run) && Wedged(After(Init(3), run))
  {
    var s0 := State(Shared(false, 0, 0, 0, 0), [Idle, Idle, Idle]);
    var s1 := State(Shared(false, 1, 0, 0, 0), [Sleeping(true), Idle, Idle]);
    var s2 := State(Shared(false, 2, 0, 0, 0), [Sleeping(true), Sleeping(false), Idle]);
    assert Init(3).threads == s0.threads;
    assert s1.threads == s0.threads[0 := Sleeping(true)];
    assert s2.threads == s1.threads[1 := Sleeping(false)];
    run := WedgeFromWaits();
    RunPrepend(s1, Wait(1, false), s2, run);
    run := [Wait(1, false)] + run;
    RunPrepend(s0, Wait(0, true), s1, run);
    run := [Wait(0, true)] + run;
  }

  // A third thread signals the two waiters.
  lemma WedgeFromWaits() returns (run: seq<Action>)
    ensures var s := State(Shared(false, 2, 0, 0, 0), [Sleeping(true), Sleeping(false), Idle]);
            CanRun(s, run) && Wedged(After(s, run))
  {
    var s2 := State(Shared(false, 2, 0, 0, 0), [Sleeping(true), Sleeping(false), Idle]);
    var s3 := State(Shared(true, 2, 1, 0, 0), [Sleeping(true), Sleeping(false), Posting(1, 1)]);
    var s4 := State(Shared(true, 2, 1, 1, 0), [Sleeping(true), Sleeping(false), Posting(0, 1)]);
    assert s3.threads == s2.threads[2 := Posting(1, 1)];
    assert s4.threads == s3.threads[2 := Posting(0, 1)];
    run := WedgeFromPosting();
    RunPrepend(s3, PostOne(2), s4, run);
    run := [PostOne(2)] + run;
    RunPrepend(s2, Signal(2), s3, run);
    run := [Signal(2)] + run;
  }

  // The untimed waiter takes the token, the timed one expires and gets the lock first.
  lemma WedgeFromPosting() returns (run: seq<Action>)
    ensures var s := State(Shared(true, 2, 1, 1, 0), [Sleeping(true), Sleeping(false), Posting(0, 1)]);
            CanRun(s, run) && Wedged(After(s, run))
  {
    var s4 := State(Shared(true, 2, 1, 1, 0), [Sleeping(true), Sleeping(false), Posting(0, 1)]);
    var s5 := State(Shared(false, 2, 1, 1, 0), [Sleeping(true), Sleeping(false), Collecting(1)]);
    var s6 := State(Shared(false, 2, 1, 0, 0), [Sleeping(true), Woken(true), Collecting(1)]);
    var s7 := State(Shared(false, 2, 1, 0, 0), [Woken(false), Woken(true), Collecting(1)]);
    var s8 := State(Shared(true, 2, 1, 0, 0), [Eating, Woken(true), Collecting(1)]);
    assert s5.threads == s4.threads[2 := Collecting(1)];
    assert s6.threads == s5.threads[1 := Woken(true)];
    assert s7.threads == s6.threads[0 := Woken(false)];
    assert s8.threads == s7.threads[0 := Eating] && s8.threads[0].Eating?;
    run := [];
    RunPrepend(s7, Finish(0), s8, run);
    run := [Finish(0)] + run;
    RunPrepend(s6, TimeOut(0), s7, run);
    run := [TimeOut(0)] + run;
    RunPrepend(s5, Take(1), s6, run);
    run := [Take(1)] + run;
    RunPrepend(s4, Unlock(2), s5, run);
    run := [Unlock(2)] + run;
  }

  // ------------------------------------------------------- when no wait is timed

  ghost predicate Untimed(s: State) {
    forall t :: 0 <= t < |s.threads| ==>
      s.threads[t] != Sleeping(true) && s.threads[t] != Woken(false) && !s.threads[t].Eating?
  }

  // Then there is no wedge, now or later.
  lemma {:induction false} UntimedRuns(s: State, run: seq<Action>)
    requires Inv(s) && Untimed(s) && CanRun(s, run)
    requires forall i :: 0 <= i < |run| && run[i].Wait? ==> !run[i].timed
    ensures Untimed(After(s, run)) && !Wedged(After(s, run))
    decreases |run|
  {
    if run != [] {
      StepInv(s, run[0]);
      assert Untimed(Do(s, run[0]));
      UntimedRuns(Do(s, run[0]), run[1..]);
    }
  }

  // Every signal and broadcast under way in a state without the wedge is brought
  // home by at most Work(s) handshake steps, timed waits or not.
  lemma {:induction false} HandshakeCompletes(s: State) returns (run: seq<Action>)
    requires Inv(s) && !Wedged(s)
    ensures CanRun(s, run) && |run| <= Work(s)
    ensures forall i :: 0 <= i < |run| ==> Handshake(run[i])
    ensures !SignallerPending(After(s, run))
    decreases Work(s)
  {
    if !SignallerPending(s) {
      run := [];
    } else {
      var a := NextHandshake(s);
      HandshakeWorks(s, a);
      StepInv(s, a);
      var rest := HandshakeCompletes(Do(s, a));
      run := [a] + rest;
      assert run[1..] == rest;
    }
  }

  // So the wedge is all that can keep a signaller inside: some schedule gets every
  // one of them out exactly from the states without it.
  lemma CompletesExactlyUnlessWedged(s: State)
    requires Inv(s)
    ensures (exists run :: CanRun(s, run) && !SignallerPending(After(s, run))) <==> !Wedged(s)
  {
    if Wedged(s) {
      forall run | CanRun(s, run)
        ensures SignallerPending(After(s, run))
      {
        WedgedForever(s, run);
      }
    } else {
      var run := HandshakeCompletes(s);
    }
  }

  // --------------------------------------------------------- whom a signal releases

  function CountWaits(run: seq<Action>): nat {
    if run == [] then 0 else (if run[0].Wait? then 1 else 0) + CountWaits(run[1..])
  }

  // How many waiters the signals and broadcasts of a run address, and how many
  // waiters leave the wait in it.
  function Addressed(s: State, a: Action): nat {
    if a.Signal? then if s.c.waiting > s.c.signals then 1 else 0
    else if a.Broadcast? then Unsignalled(s.c)
    else 0
  }

  predicate Leaves(s: State, a: Action) {
    a.Eat? || (a.Finish? && a.t < |s.threads| && s.threads[a.t].Woken? && !MustEat(s.c, !s.threads[a.t].token))
  }

  function CountAddressed(s: State, run: seq<Action>): nat
    requires CanRun(s, run)
    decreases |run|
  {
    if run == [] then 0 else Addressed(s, run[0]) + CountAddressed(Do(s, run[0]), run[1..])
  }

  function CountLeaves(s: State, run: seq<Action>): nat
    requires CanRun(s, run)
    decreases |run|
  {
    if run == [] then 0 else (if Leaves(s, run[0]) then 1 else 0) + CountLeaves(Do(s, run[0]), run[1..])
  }

  lemma HomeMeansAnswered(s: State)
    requires Inv(s) && !SignallerPending(s)
    ensures s.c.signals == 0 && s.c.waitDone == 0
  {
    SumZero(s.threads, Owed);
  }

  // The waiters not addressed yet: a wait adds one, and only a wait.
  lemma UnaddressedStep(s: State, a: Action)
    requires Inv(s) && Enabled(s, a)
    ensures Unsignalled(Do(s, a).c) <= Unsignalled(s.c) + if a.Wait? then 1 else 0
  {
    if a.Finish? || a.Eat? {
      SumAtLeast(s.threads, InWait, a.t);
    }
  }

  lemma {:induction false} UnaddressedRun(s: State, run: seq<Action>)
    requires Inv(s) && CanRun(s, run)
    ensures Inv(After(s, run)) && Unsignalled(After(s, run).c) <= Unsignalled(s.c) + CountWaits(run)
    decreases |run|
  {
    if run != [] {
      UnaddressedStep(s, run[0]);
      StepInv(s, run[0]);
      UnaddressedRun(Do(s, run[0]), run[1..]);
    }
  }

  // What a broadcast is for: once all signallers are home again, no more threads are
  // left in the wait than have begun to wait since; none, if none has.
  lemma BroadcastReleases(s: State, t: nat, run: seq<Action>)
    requires Inv(s) && Enabled(s, Broadcast(t)) && CanRun(Do(s, Broadcast(t)), run)
    ensures var after := After(Do(s, Broadcast(t)), run);
            !SignallerPending(after) ==>
              && Sum(after.threads, InWait) <= CountWaits(run)
              && (CountWaits(run) == 0 ==> forall u :: 0 <= u < |after.threads| ==> InWait(after.threads[u]) == 0)
  {
    var s1 := Do(s, Broadcast(t));
    StepInv(s, Broadcast(t));
    UnaddressedRun(s1, run);
    var after := After(s1, run);
    if !SignallerPending(after) {
      HomeMeansAnswered(after);
      forall u | 0 <= u < |after.threads| && CountWaits(run) == 0
        ensures InWait(after.threads[u]) == 0
      {
        SumAtLeast(after.threads, InWait, u);
      }
    }
  }

  // What a signal is for: once all signallers are home again, at least as many
  // waiters have left the wait as had open signals or were addressed since.
  lemma {:induction false} SignalsRelease(s: State, run: seq<Action>)
    requires Inv(s) && CanRun(s, run)
    ensures s.c.signals + CountAddressed(s, run) <= CountLeaves(s, run) + After(s, run).c.signals
    ensures !SignallerPending(After(s, run)) ==> s.c.signals + CountAddressed(s, run) <= CountLeaves(s, run)
    decreases |run|
  {
    if run == [] {
      if !SignallerPending(s) {
        HomeMeansAnswered(s);
      }
    } else {
      StepInv(s, run[0]);
      SignalsRelease(Do(s, run[0]), run[1..]);
    }
  }

  // But not always the waiters addressed: a thread that begins to wait after the
  // broadcast can take the token, and the one that waited before it sleeps on.
  lemma TokenStolen() returns (run: seq<Action>)
    ensures var s := State(Shared(true, 1, 1, 0, 0), [Sleeping(false), Idle, Posting(1, 1)]);
            && BroadcastLeadsTo(s)
            && CanRun(s, run) && After(s, run).threads == [Sleeping(false), Idle, Idle]
  {
    var s1 := State(Shared(true, 1, 1, 0, 0), [Sleeping(false), Idle, Posting(1, 1)]);
    var s2 := State(Shared(true, 1, 1, 1, 0), [Sleeping(false), Idle, Posting(0, 1)]);
    assert s2.threads == s1.threads[2 := Posting(0, 1)];
    BroadcastToOne();
    run := StolenFromPosted();
    RunPrepend(s1, PostOne(2), s2, run);
    run := [PostOne(2)] + run;
  }

  // A broadcast by thread 2 of three, with thread 0 in an untimed wait, makes this.
  predicate BroadcastLeadsTo(after: State) {
    var s := State(Shared(false, 1, 0, 0, 0), [Sleeping(false), Idle, Idle]);
    Enabled(s, Broadcast(2)) && Do(s, Broadcast(2)) == after
  }

  lemma BroadcastToOne()
    ensures BroadcastLeadsTo(State(Shared(true, 1, 1, 0, 0), [Sleeping(false), Idle, Posting(1, 1)]))
  {
    assert [Sleeping(false), Idle, Idle][2 := Posting(1, 1)] == [Sleeping(false), Idle, Posting(1, 1)];
  }

  lemma StolenFromPosted() returns (run: seq<Action>)
    ensures var s := State(Shared(true, 1, 1, 1, 0), [Sleeping(false), Idle, Posting(0, 1)]);
            CanRun(s, run) && After(s, run).threads == [Sleeping(false), Idle, Idle]
  {
    var s2 := State(Shared(true, 1, 1, 1, 0), [Sleeping(false), Idle, Posting(0, 1)]);
    var s3 := State(Shared(false, 1, 1, 1, 0), [Sleeping(false), Idle, Collecting(1)]);
    var s4 := State(Shared(false, 2, 1, 1, 0), [Sleeping(false), Sleeping(false), Collecting(1)]);
    var s5 := State(Shared(false, 2, 1, 0, 0), [Sleeping(false), Woken(true), Collecting(1)]);
    var s6 := State(Shared(false, 1, 0, 0, 1), [Sleeping(false), Idle, Collecting(1)]);
    var s7 := State(Shared(false, 1, 0, 0, 0), [Sleeping(false), Idle, Idle]);
    assert s3.threads == s2.threads[2 := Collecting(1)];
    assert s4.threads == s3.threads[1 := Sleeping(false)];
    assert s5.threads == s4.threads[1 := Woken(true)];
    assert s6.threads == s5.threads[1 := Idle];
    assert s7.threads == s6.threads[2 := Idle];
    run := [];
    RunPrepend(s6, Collect(2), s7, run);
    run := [Collect(2)] + run;
    RunPrepend(s5, Finish(1), s6, run);
    run := [Finish(1)] + run;
    RunPrepend(s4, Take(1), s5, run);
    run := [Take(1)] + run;
    RunPrepend(s3, Wait(1, false), s4, run);
    run := [Wait(1, false)] + run;
    RunPrepend(s2, Unlock(2), s3, run);
    run := [Unlock(2)] + run;
  }

  // ----------------------------------------------------------------- a bound

  function CountHandshakes(run: seq<Action>): nat {
    if run == [] then 0 else (if Handshake(run[0]) then 1 else 0) + CountHandshakes(run[1..])
  }

  // And no schedule can drag it out: while no new signal starts and no timer
  // expires, waits may begin freely but Work(s) bounds the handshake steps.
  lemma {:induction false} HandshakesBounded(s: State, run: seq<Action>)
    requires Inv(s) && CanRun(s, run)
    requires forall i :: 0 <= i < |run| ==> Handshake(run[i]) || run[i].Wait?
    ensures CountHandshakes(run) + Work(After(s, run)) <= Work(s)
    decreases |run|
  {
    if run != [] {
      var a := run[0];
      StepInv(s, a);
      if Handshake(a) {
        HandshakeWorks(s, a);
      } else {
        Moved(s.threads, a.t, Do(s, a).threads[a.t]);
        SumShifted(s.threads, a.t, Do(s, a).threads[a.t], Waking);
      }
      HandshakesBounded(Do(s, a), run[1..]);
    }
  }
}
