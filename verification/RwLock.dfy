/**
 The writer-preferring read/write lock (acl_pthread_rwlock.c): a monitor with a
 state word, a count of blocked writers and two condition variables. `Lock` is
 the monitor, one method for each stretch run under its mutex; `State` and `Do`
 are the lock with any number of threads, spurious wake-ups included.
 */
module RwLock {
  import opened Tally

  const MAX_READ_LOCKS := 65535

  // ---------------------------------------------------------------- the monitor

  datatype Shared = Shared(state: int, blocked: int)

  // What a stretch of code ends in: the lock taken, a wait on the condition
  // variable, or a return without the lock.
  datatype Outcome = Taken | MustWait | WouldBlock | TooMany

  // Whom unlock has to wake.
  datatype Wakeup = Nobody | OneWriter | AllReaders

  function ReadSection(l: Shared): (Shared, Outcome) {
    if l.blocked != 0 || l.state < 0 then (l, MustWait)
    else if l.state == MAX_READ_LOCKS then (l, TooMany)
    else (l.(state := l.state + 1), Taken)
  }

  function TryReadSection(l: Shared): (Shared, Outcome) {
    var (l', o) := ReadSection(l);
    (l', if o.MustWait? then WouldBlock else o)
  }

  function WriteSection(l: Shared): (Shared, Outcome) {
    if l.state != 0 then (l.(blocked := l.blocked + 1), MustWait) else (l.(state := -1), Taken)
  }

  function WriteResume(l: Shared): (Shared, Outcome) { WriteSection(l.(blocked := l.blocked - 1)) }

  function TryWriteSection(l: Shared): (Shared, Outcome) {
    if l.state != 0 then (l, WouldBlock) else (l.(state := -1), Taken)
  }

  function UnlockSection(l: Shared): (Shared, Wakeup) {
    if l.state > 0 then
      (l.(state := l.state - 1), if l.state == 1 && l.blocked != 0 then OneWriter else Nobody)
    else if l.state < 0 then
      (l.(state := 0), if l.blocked != 0 then OneWriter else AllReaders)
    else
      (l, Nobody)
  }

  class Lock {
    var state: int
    var blockedWriters: int

    ghost function View(): Shared
      reads this
    {
      Shared(state, blockedWriters)
    }

    constructor ()
      ensures View() == Shared(0, 0)
    {
      state, blockedWriters := 0, 0;
    }

    // One turn of the loop of acl_pthread_rwlock_rdlock.
    method ReadLock() returns (o: Outcome)
      modifies this
      ensures (View(), o) == ReadSection(old(View()))
    {
      if blockedWriters != 0 || state < 0 {
        return MustWait;
      }
      if state == MAX_READ_LOCKS {
        return TooMany;
      }
      state := state + 1;
      return Taken;
    }

    method TryReadLock() returns (o: Outcome)
      modifies this
      ensures (View(), o) == TryReadSection(old(View()))
    {
      if blockedWriters != 0 || state < 0 {
        return WouldBlock;
      } else if state == MAX_READ_LOCKS {
        return TooMany;
      }
      state := state + 1;
      return Taken;
    }

    // acl_pthread_rwlock_wrlock up to its first wait, or after a wait.
    method WriteLock(resumed: bool) returns (o: Outcome)
      modifies this
      ensures (View(), o) == if resumed then WriteResume(old(View())) else WriteSection(old(View()))
    {
      if resumed {
        blockedWriters := blockedWriters - 1;
      }
      if state != 0 {
        blockedWriters := blockedWriters + 1;
        return MustWait;
      }
      state := -1;
      return Taken;
    }

    method TryWriteLock() returns (o: Outcome)
      modifies this
      ensures (View(), o) == TryWriteSection(old(View()))
    {
      if state != 0 {
        return WouldBlock;
      }
      state := -1;
      return Taken;
    }

    // `invalid` is the EINVAL of an unlock that nobody owes.
    method Unlock() returns (wake: Wakeup, invalid: bool)
      modifies this
      ensures (View(), wake) == UnlockSection(old(View()))
      ensures invalid == (old(state) == 0)
    {
      wake, invalid := Nobody, false;
      if state > 0 {
        state := state - 1;
        if state == 0 && blockedWriters != 0 {
          wake := OneWriter;
        }
      } else if state < 0 {
        state := 0;
        wake := if blockedWriters != 0 then OneWriter else AllReaders;
      } else {
        invalid := true;
      }
    }
  }

  // ------------------------------------------------------------- the interleaving

  // One entry for each lock request. A waiter is notified once its condition
  // variable has released it; it may also wake up without that.
  datatype Thread =
    | Idle
    | ReadWait(notified: bool)
    | WriteWait(notified: bool)
    | Reading
    | Writing

  datatype State = State(l: Shared, threads: seq<Thread>)

  datatype Action =
    | ReadLock(t: nat)
    | TryReadLock(t: nat)
    | WakeReader(t: nat)
    | WriteLock(t: nat)
    | TryWriteLock(t: nat)
    | WakeWriter(t: nat)
    | Unlock(t: nat, woken: nat)

  function Init(n: nat): State { State(Shared(0, 0), seq(n, _ => Idle)) }

  ghost predicate UnnotifiedWriter(s: State) {
    exists w :: 0 <= w < |s.threads| && s.threads[w] == WriteWait(false)
  }

  // Only holders unlock. A signal releases one waiter that is still blocked on
  // the condition variable, `woken`, if there is any.
  ghost predicate Enabled(s: State, a: Action) {
    a.t < |s.threads| &&
    var pc := s.threads[a.t];
    match a
    case ReadLock(_) => pc.Idle?
    case TryReadLock(_) => pc.Idle?
    case WakeReader(_) => pc.ReadWait?
    case WriteLock(_) => pc.Idle?
    case TryWriteLock(_) => pc.Idle?
    case WakeWriter(_) => pc.WriteWait?
    case Unlock(_, w) =>
      (pc.Reading? || pc.Writing?)
      && (UnlockSection(s.l).1.OneWriter? && UnnotifiedWriter(s) ==>
            w < |s.threads| && s.threads[w] == WriteWait(false))
  }

  function Settle(s: State, t: nat, r: (Shared, Outcome), held: Thread, waiting: Thread): State
    requires t < |s.threads|
  {
    State(r.0, s.threads[t := if r.1.Taken? then held else if r.1.MustWait? then waiting else Idle])
  }

  function NotifyReader(pc: Thread): Thread { if pc.ReadWait? then ReadWait(true) else pc }

  function NotifyReaders(th: seq<Thread>): seq<Thread> {
    seq(|th|, i requires 0 <= i < |th| => NotifyReader(th[i]))
  }

  function NotifyWriter(th: seq<Thread>, w: nat): seq<Thread> {
    if w < |th| && th[w].WriteWait? then th[w := WriteWait(true)] else th
  }

  function Do(s: State, a: Action): State
    requires a.t < |s.threads|
  {
    match a
    case ReadLock(t) => Settle(s, t, ReadSection(s.l), Reading, ReadWait(false))
    case TryReadLock(t) => Settle(s, t, TryReadSection(s.l), Reading, Idle)
    case WakeReader(t) => Settle(s, t, ReadSection(s.l), Reading, ReadWait(false))
    case WriteLock(t) => Settle(s, t, WriteSection(s.l), Writing, WriteWait(false))
    case TryWriteLock(t) => Settle(s, t, TryWriteSection(s.l), Writing, Idle)
    case WakeWriter(t) => Settle(s, t, WriteResume(s.l), Writing, WriteWait(false))
    case Unlock(t, w) =>
      var (l', wake) := UnlockSection(s.l);
      var th := s.threads[t := Idle];
      State(l', match wake
                case Nobody => th
                case OneWriter => NotifyWriter(th, w)
                case AllReaders => NotifyReaders(th))
  }

  ghost predicate CanRun(s: State, run: seq<Action>)
    decreases |run|
  {
    run == [] || (Enabled(s, run[0]) && CanRun(Do(s, run[0]), run[1..]))
  }

  ghost function After(s: State, run: seq<Action>): State
    requires CanRun(s, run)
    decreases |run|
  {
    if run == [] then s else After(Do(s, run[0]), run[1..])
  }

  // -------------------------------------------------------------- the invariant

  function IsReader(pc: Thread): nat { if pc.Reading? then 1 else 0 }
  function IsWriter(pc: Thread): nat { if pc.Writing? then 1 else 0 }
  function IsBlockedWriter(pc: Thread): nat { if pc.WriteWait? then 1 else 0 }

  function Readers(s: State): nat { Sum(s.threads, IsReader) }
  function Writers(s: State): nat { Sum(s.threads, IsWriter) }

  ghost predicate ExactCounts(s: State) {
    && -1 <= s.l.state <= MAX_READ_LOCKS
    && Writers(s) == (if s.l.state < 0 then 1 else 0)
    && Readers(s) == (if s.l.state < 0 then 0 else s.l.state)
    && s.l.blocked == Sum(s.threads, IsBlockedWriter)
  }

  // A reader that sleeps on has a writer to wait for.
  ghost predicate NoForgottenReader(s: State) {
    forall t :: 0 <= t < |s.threads| && s.threads[t] == ReadWait(false) ==>
      s.l.blocked > 0 || s.l.state < 0
  }

  // A free lock with blocked writers has one of them on its way.
  ghost predicate NoForgottenWriter(s: State) {
    s.l.state == 0 && s.l.blocked > 0 ==>
      exists t :: 0 <= t < |s.threads| && s.threads[t] == WriteWait(true)
  }

  ghost predicate Inv(s: State) {
    ExactCounts(s) && NoForgottenReader(s) && NoForgottenWriter(s)
  }

  lemma InitInv(n: nat)
    ensures Inv(Init(n))
  {
    SumZero(Init(n).threads, IsReader);
    SumZero(Init(n).threads, IsWriter);
    SumZero(Init(n).threads, IsBlockedWriter);
  }

  lemma Moved(th: seq<Thread>, t: nat, pc: Thread)
    requires t < |th|
    ensures Shifted(th, t, pc, IsReader) && Shifted(th, t, pc, IsWriter) && Shifted(th, t, pc, IsBlockedWriter)
  {
    SumShifted(th, t, pc, IsReader);
    SumShifted(th, t, pc, IsWriter);
    SumShifted(th, t, pc, IsBlockedWriter);
  }

  lemma {:induction false} NotifyingKeepsCounts(th: seq<Thread>)
    ensures Sum(NotifyReaders(th), IsReader) == Sum(th, IsReader)
    ensures Sum(NotifyReaders(th), IsWriter) == Sum(th, IsWriter)
    ensures Sum(NotifyReaders(th), IsBlockedWriter) == Sum(th, IsBlockedWriter)
  {
    if th != [] {
      assert NotifyReaders(th)[1..] == NotifyReaders(th[1..]);
      NotifyingKeepsCounts(th[1..]);
    }
  }

  lemma UnlockCounts(s: State, a: Action)
    requires ExactCounts(s) && Enabled(s, a) && a.Unlock?
    ensures ExactCounts(Do(s, a))
  {
    var th := s.threads[a.t := Idle];
    Moved(s.threads, a.t, Idle);
    if a.woken < |th| && th[a.woken].WriteWait? {
      Moved(th, a.woken, WriteWait(true));
    }
    NotifyingKeepsCounts(th);
  }

  lemma StepCounts(s: State, a: Action)
    requires ExactCounts(s) && Enabled(s, a)
    ensures ExactCounts(Do(s, a))
  {
    if a.Unlock? {
      UnlockCounts(s, a);
    } else {
      Moved(s.threads, a.t, Do(s, a).threads[a.t]);
    }
  }

  // A blocked writer that nobody notified exists, or all blocked writers are notified.
  lemma SignalReachesWriter(s: State, a: Action)
    requires ExactCounts(s) && Enabled(s, a) && a.Unlock? && UnlockSection(s.l).1.OneWriter?
    ensures exists t :: 0 <= t < |Do(s, a).threads| && Do(s, a).threads[t] == WriteWait(true)
  {
    var w := SumWitness(s.threads, IsBlockedWriter);
    if UnnotifiedWriter(s) {
      assert Do(s, a).threads[a.woken] == WriteWait(true);
    } else {
      assert s.threads[w] == WriteWait(true);
      assert Do(s, a).threads[w] == WriteWait(true);
    }
  }

  lemma StepInv(s: State, a: Action)
    requires Inv(s) && Enabled(s, a)
    ensures Inv(Do(s, a))
  {
    var s' := Do(s, a);
    StepCounts(s, a);
    if s'.l.state == 0 && s'.l.blocked > 0 {
      if a.Unlock? {
        SumAtLeast(s.threads, IsReader, a.t);
        SumAtLeast(s.threads, IsWriter, a.t);
        SignalReachesWriter(s, a);
      } else {
        var w :| 0 <= w < |s.threads| && s.threads[w] == WriteWait(true);
        assert s'.threads[w] == WriteWait(true);
      }
    }
    forall t | 0 <= t < |s'.threads| && s'.threads[t] == ReadWait(false)
      ensures s'.l.blocked > 0 || s'.l.state < 0
    {
      assert t != a.t ==> s.threads[t] == ReadWait(false);
      if a.Unlock? {
        SumAtLeast(s.threads, IsReader, a.t);
        SumAtLeast(s.threads, IsWriter, a.t);
      }
    }
  }

  // Exact counting and no lost wake-up, for every interleaving.
  lemma {:induction false} RunInv(s: State, run: seq<Action>)
    requires Inv(s) && CanRun(s, run)
    ensures Inv(After(s, run))
    decreases |run|
  {
    if run != [] {
      StepInv(s, run[0]);
      RunInv(Do(s, run[0]), run[1..]);
    }
  }

  // --------------------------------------------------------------- consequences

  // The state word says exactly who holds the lock; the blocked-writer count is
  // the number of writers inside the wait; writers exclude everyone.
  lemma StateWordIsExact(n: nat, run: seq<Action>, k: nat)
    requires CanRun(Init(n), run)
    ensures var s := After(Init(n), run);
            && (s.l.state == -1 <==> Writers(s) == 1 && Readers(s) == 0)
            && (s.l.state == k <==> Writers(s) == 0 && Readers(s) == k)
            && -1 <= s.l.state <= MAX_READ_LOCKS
            && s.l.blocked == Sum(s.threads, IsBlockedWriter)
  {
    InitInv(n);
    RunInv(Init(n), run);
  }

  lemma Exclusion(s: State, t: nat, u: nat)
    requires Inv(s) && t < |s.threads| && u < |s.threads| && t != u
    requires s.threads[t].Writing?
    ensures !s.threads[u].Writing? && !s.threads[u].Reading?
  {
    SumAtLeast(s.threads, IsWriter, t);
    SumAtLeast(s.threads, IsReader, u);
    SumAtLeastTwo(s.threads, IsWriter, if t < u then t else u, if t < u then u else t);
  }

  predicate Wakes(a: Action) { a.WakeReader? || a.WakeWriter? }

  // Nobody waits for ever beside a free lock: some waiter has its wake-up pending,
  // and the lock is taken when that waiter runs.
  lemma FreeLockIsTaken(s: State, t: nat) returns (a: Action)
    requires Inv(s) && s.l.state == 0
    requires t < |s.threads| && (s.threads[t].ReadWait? || s.threads[t].WriteWait?)
    ensures Enabled(s, a) && Wakes(a) && s.threads[a.t].notified
    ensures Do(s, a).threads[a.t] == if a.WakeWriter? then Writing else Reading
    ensures Do(s, a).l.state != 0
  {
    if s.l.blocked > 0 {
      var w :| 0 <= w < |s.threads| && s.threads[w] == WriteWait(true);
      a := WakeWriter(w);
    } else {
      SumAtLeast(s.threads, IsBlockedWriter, t);
      a := WakeReader(t);
    }
  }

  // Writer preference: while some writer stays blocked, no reader gets in.
  ghost predicate BlockedThroughout(s: State, run: seq<Action>)
    requires CanRun(s, run)
    decreases |run|
  {
    s.l.blocked > 0 && (run != [] ==> BlockedThroughout(Do(s, run[0]), run[1..]))
  }

  lemma {:induction false} ReadersNeverGrow(s: State, run: seq<Action>)
    requires Inv(s) && CanRun(s, run) && BlockedThroughout(s, run)
    ensures Readers(After(s, run)) <= Readers(s)
    decreases |run|
  {
    if run != [] {
      var a := run[0];
      StepInv(s, a);
      assert Readers(Do(s, a)) <= Readers(s) by {
        if a.Unlock? {
          SumAtLeast(s.threads, IsReader, a.t);
          SumAtLeast(s.threads, IsWriter, a.t);
        }
      }
      ReadersNeverGrow(Do(s, a), run[1..]);
    }
  }
}
