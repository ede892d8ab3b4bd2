/**
 The sorted timer ring of the threaded event engine (events_timer_thr.c). The
 ring is kept as the sequence of its timers from the head on; a timer is found by
 its callback and context, its key.
 */
module TimerRing {

  import opened Collections

  datatype Key = Key(callback: nat, context: nat)

  // The delays that a request accepts; it panics on any other.
  const MAX_DELAY := 4294963950

  type Delay = d: int | 0 <= d < MAX_DELAY witness 0

  datatype Timer = Timer(key: Key, when: int, delay: Delay, keep: bool, ncount: nat)

  // The fields that a new timer takes from the memory it is put in.
  datatype Junk = Junk(keep: bool, ncount: nat)

  const NO_JUNK := Junk(false, 0)

  // ------------------------------------------------------------- specification

  function At(ring: seq<Timer>, i: nat): Timer
    requires i < |ring|
  {
    ring[i]
  }

  ghost predicate Sorted(ring: seq<Timer>) {
    forall i: nat, j: nat {:trigger At(ring, i), At(ring, j)} ::
      i < j < |ring| ==> At(ring, i).when <= At(ring, j).when
  }

  ghost predicate Unique(ring: seq<Timer>) {
    forall i: nat, j: nat {:trigger At(ring, i), At(ring, j)} ::
      i < j < |ring| ==> At(ring, i).key != At(ring, j).key
  }

  // The position from `i` on of the timer with this key, or the length of the ring.
  function IndexFrom(ring: seq<Timer>, key: Key, i: nat): (k: nat)
    requires i <= |ring|
    ensures i <= k <= |ring|
    ensures forall j: nat {:trigger At(ring, j)} :: i <= j < k ==> At(ring, j).key != key
    ensures k < |ring| ==> ring[k].key == key
    decreases |ring| - i
  {
    if i == |ring| || ring[i].key == key then i else IndexFrom(ring, key, i + 1)
  }

  function IndexOf(ring: seq<Timer>, key: Key): nat { IndexFrom(ring, key, 0) }

  function Find(ring: seq<Timer>, key: Key): Option<Timer> {
    var i := IndexOf(ring, key);
    if i < |ring| then Some(ring[i]) else None
  }

  function Remove(ring: seq<Timer>, key: Key): seq<Timer> {
    var i := IndexOf(ring, key);
    if i < |ring| then ring[..i] + ring[i + 1..] else ring
  }

  // The first position from `i` on whose timer is due later than `when`.
  function PlaceFrom(ring: seq<Timer>, when: int, i: nat): (k: nat)
    requires i <= |ring|
    ensures i <= k <= |ring|
    ensures forall j: nat {:trigger At(ring, j)} :: i <= j < k ==> At(ring, j).when <= when
    ensures k < |ring| ==> when < ring[k].when
    decreases |ring| - i
  {
    if i == |ring| || when < ring[i].when then i else PlaceFrom(ring, when, i + 1)
  }

  function Place(ring: seq<Timer>, when: int): nat { PlaceFrom(ring, when, 0) }

  function Put(ring: seq<Timer>, p: nat, t: Timer): seq<Timer>
    requires p <= |ring|
  {
    ring[..p] + [t] + ring[p..]
  }

  function Insert(ring: seq<Timer>, t: Timer): seq<Timer> {
    Put(ring, Place(ring, t.when), t)
  }

  // The timer that a request arms, given the one with its key. That one keeps its old
  // `delay`, and the `keep` of a new one is whatever its memory held (`junk`): the
  // argument of that name is not used.
  function Armed(was: Option<Timer>, key: Key, delay: Delay, now: int, junk: Junk): Timer {
    match was
    case Some(t) => t.(when := now + delay)
    case None => Timer(key, now + delay, delay, junk.keep, junk.ncount)
  }

  function Requested(ring: seq<Timer>, key: Key, delay: Delay, now: int, junk: Junk): seq<Timer> {
    Insert(Remove(ring, key), Armed(Find(ring, key), key, delay, now, junk))
  }

  function Kept(ring: seq<Timer>, key: Key, keep: bool): seq<Timer> {
    var i := IndexOf(ring, key);
    if i < |ring| then ring[i := ring[i].(keep := keep)] else ring
  }

  // ------------------------------------------------------------ laws of the ring

  ghost predicate RingOk(ring: seq<Timer>) { Sorted(ring) && Unique(ring) }

  lemma IndexIs(ring: seq<Timer>, key: Key, i: nat)
    requires i <= |ring| && (i < |ring| ==> ring[i].key == key)
    requires forall j :: 0 <= j < i ==> ring[j].key != key
    ensures IndexOf(ring, key) == i
  {
    assert i < |ring| ==> At(ring, i).key == key;
  }

  lemma PlaceIs(ring: seq<Timer>, when: int, i: nat)
    requires i <= |ring| && (i < |ring| ==> when < ring[i].when)
    requires forall j :: 0 <= j < i ==> ring[j].when <= when
    ensures Place(ring, when) == i
  {
    assert i < |ring| ==> when < At(ring, i).when;
  }

  lemma FindIs(ring: seq<Timer>, i: nat)
    requires Unique(ring) && i < |ring|
    ensures IndexOf(ring, ring[i].key) == i && Find(ring, ring[i].key) == Some(ring[i])
  {
    forall j: nat | j < i ensures ring[j].key != ring[i].key {
      assert At(ring, j).key != At(ring, i).key;
    }
    IndexIs(ring, ring[i].key, i);
  }

  lemma FindNone(ring: seq<Timer>, key: Key)
    requires forall j :: 0 <= j < |ring| ==> ring[j].key != key
    ensures Find(ring, key) == None
  {
  }

  lemma DropOk(ring: seq<Timer>, i: nat)
    requires RingOk(ring) && i < |ring|
    ensures RingOk(ring[..i] + ring[i + 1..])
  {
    var left := ring[..i] + ring[i + 1..];
    forall j: nat, k: nat | j < k < |left|
      ensures At(left, j).when <= At(left, k).when && At(left, j).key != At(left, k).key
    {
      assert At(left, j) == At(ring, if j < i then j else j + 1);
      assert At(left, k) == At(ring, if k < i then k else k + 1);
    }
  }

  lemma RemoveLaws(ring: seq<Timer>, key: Key, other: Key)
    requires RingOk(ring)
    ensures RingOk(Remove(ring, key))
    ensures Find(Remove(ring, key), other) == if other == key then None else Find(ring, other)
  {
    var i, j, left := IndexOf(ring, key), IndexOf(ring, other), Remove(ring, key);
    if i < |ring| {
      DropOk(ring, i);
      if other != key && j < |ring| {
        assert left[if j < i then j else j - 1] == ring[j];
        FindIs(left, if j < i then j else j - 1);
      } else {
        forall k: nat | k < |left| ensures left[k].key != other {
          var k' := if k < i then k else k + 1;
          assert left[k] == At(ring, k') && At(ring, i).key == key;
        }
        FindNone(left, other);
      }
    }
  }

  lemma PutOk(ring: seq<Timer>, p: nat, t: Timer)
    requires RingOk(ring) && p <= |ring|
    requires forall j :: 0 <= j < |ring| ==> ring[j].key != t.key
    requires forall j :: 0 <= j < p ==> ring[j].when <= t.when
    requires p < |ring| ==> t.when < ring[p].when
    ensures RingOk(Put(ring, p, t))
    ensures forall j :: p < j < |ring| + 1 ==> Put(ring, p, t)[j].when > t.when
  {
    var more := Put(ring, p, t);
    forall j: nat | p <= j < |ring| ensures t.when < ring[j].when {
      assert At(ring, p).when <= At(ring, j).when || j == p;
    }
    forall j: nat, k: nat | j < k < |more|
      ensures At(more, j).when <= At(more, k).when && At(more, j).key != At(more, k).key
    {
      assert j != p ==> At(more, j) == At(ring, if j < p then j else j - 1);
      assert k != p ==> At(more, k) == At(ring, if k < p then k else k - 1);
    }
  }

  lemma InsertLaws(ring: seq<Timer>, t: Timer, other: Key)
    requires RingOk(ring) && Find(ring, t.key) == None
    ensures var p := Place(ring, t.when);
            var more := Insert(ring, t);
            && RingOk(more)
            && Find(more, other) == (if other == t.key then Some(t) else Find(ring, other))
            && IndexOf(more, t.key) == p
            && forall j :: p < j < |more| ==> more[j].when > t.when
  {
    var p, j, more := Place(ring, t.when), IndexOf(ring, other), Insert(ring, t);
    assert forall k: nat :: k < |ring| ==> At(ring, k) == ring[k];
    PutOk(ring, p, t);
    FindIs(more, p);
    if j < |ring| {
      assert more[if j < p then j else j + 1] == ring[j];
      FindIs(more, if j < p then j else j + 1);
    } else if other != t.key {
      forall k: nat | k < |more| ensures more[k].key != other {
        assert k != p ==> more[k] == At(ring, if k < p then k else k - 1);
      }
      FindNone(more, other);
    }
  }

  // A request keeps the ring sorted with one timer per key, and changes nothing
  // but the timer it arms. That one goes behind all timers due no later: ties
  // fire in the order in which they were requested.
  lemma RequestLaws(ring: seq<Timer>, key: Key, delay: Delay, now: int, junk: Junk, other: Key)
    requires RingOk(ring)
    ensures var after := Requested(ring, key, delay, now, junk);
            && RingOk(after)
            && Find(after, other) ==
               (if other == key then Some(Armed(Find(ring, key), key, delay, now, junk)) else Find(ring, other))
            && (forall j :: IndexOf(after, key) < j < |after| ==> after[j].when > now + delay)
  {
    RemoveLaws(ring, key, key);
    RemoveLaws(ring, key, other);
    InsertLaws(Remove(ring, key), Armed(Find(ring, key), key, delay, now, junk), other);
  }

  // Replacing a timer by one with the same key and time.
  lemma SwapLaws(ring: seq<Timer>, i: nat, t: Timer, other: Key)
    requires RingOk(ring) && i < |ring| && t.key == ring[i].key && t.when == ring[i].when
    ensures RingOk(ring[i := t])
    ensures Find(ring[i := t], other) == if other == t.key then Some(t) else Find(ring, other)
  {
    var after, j := ring[i := t], IndexOf(ring, other);
    forall k: nat | k < |ring| ensures At(after, k).key == At(ring, k).key && At(after, k).when == At(ring, k).when {
    }
    FindIs(ring, i);
    if j < |ring| {
      FindIs(after, j);
    } else {
      assert forall k: nat :: k < |ring| ==> At(ring, k).key == after[k].key;
      FindNone(after, other);
    }
  }

  lemma KeepLaws(ring: seq<Timer>, key: Key, keep: bool, other: Key)
    requires RingOk(ring)
    ensures RingOk(Kept(ring, key, keep))
    ensures other != key ==> Find(Kept(ring, key, keep), other) == Find(ring, other)
    ensures Find(Kept(ring, key, keep), key).Some? <==> Find(ring, key).Some?
  {
    var i := IndexOf(ring, key);
    if i < |ring| {
      SwapLaws(ring, i, ring[i].(keep := keep), other);
      SwapLaws(ring, i, ring[i].(keep := keep), key);
    }
  }

  // --------------------------------------------------------------------- trigger

  // What a callback may do to the ring.
  datatype Op =
    | Request(key: Key, delay: Delay, now: int, junk: Junk)
    | Cancel(key: Key)
    | Keep(key: Key, keep: bool)

  function DoOp(ring: seq<Timer>, op: Op): seq<Timer> {
    match op
    case Request(key, delay, now, junk) => Requested(ring, key, delay, now, junk)
    case Cancel(key) => Remove(ring, key)
    case Keep(key, keep) => Kept(ring, key, keep)
  }

  function DoOps(ring: seq<Timer>, ops: seq<Op>): seq<Timer>
    decreases |ops|
  {
    if ops == [] then ring else DoOps(DoOp(ring, ops[0]), ops[1..])
  }

  // The k-th timer that a trigger fires: the clock when it is re-armed, and what
  // its callback then does.
  datatype Turn = Turn(now: int, ops: seq<Op>)

  predicate Repeats(t: Timer) { t.delay > 0 && t.keep }

  // The timer is taken off the ring, or re-armed if it repeats. The pointer in
  // the queue of due timers still leads to the timer on the ring.
  function Fired(ring: seq<Timer>, key: Key, now: int): seq<Timer> {
    var i := IndexOf(ring, key);
    if i == |ring| then ring
    else if Repeats(ring[i]) then Requested(ring[i := Counted(ring[i])], key, ring[i].delay, now, NO_JUNK)
    else Remove(ring, key)
  }

  function Counted(t: Timer): Timer { t.(ncount := t.ncount + 1) }

  function Triggered(ring: seq<Timer>, due: seq<Key>, turns: seq<Turn>): seq<Timer>
    requires |turns| == |due|
    decreases |due|
  {
    if due == [] then ring
    else Triggered(DoOps(Fired(ring, due[0], turns[0].now), turns[0].ops), due[1..], turns[1..])
  }

  function KeysOf(ring: seq<Timer>): seq<Key> { seq(|ring|, i requires 0 <= i < |ring| => ring[i].key) }

  function DueKeys(ring: seq<Timer>, present: int): seq<Key> { KeysOf(ring[..Place(ring, present)]) }

  // The keys that callbacks cancel.
  function Cancelled(ops: seq<Op>): set<Key> {
    if ops == [] then {} else (if ops[0].Cancel? then {ops[0].key} else {}) + Cancelled(ops[1..])
  }

  // The timers fired before the trigger comes to one in `freed`: a queued pointer
  // whose timer an earlier callback has cancelled leads to freed memory.
  function Reached(due: seq<Key>, turns: seq<Turn>, freed: set<Key>): (n: nat)
    requires |turns| == |due|
    ensures n <= |due|
    decreases |due|
  {
    if due == [] || due[0] in freed then 0
    else 1 + Reached(due[1..], turns[1..], freed + Cancelled(turns[0].ops))
  }

  // The clock does not run backwards, and no callback cancels a timer still queued.
  ghost predicate TurnOk(turn: Turn, queued: seq<Key>, present: int) {
    && turn.now >= present
    && (forall j :: 0 <= j < |turn.ops| && turn.ops[j].Request? ==> turn.ops[j].now >= present)
    && (forall j :: 0 <= j < |queued| ==> queued[j] !in Cancelled(turn.ops))
  }

  ghost predicate TurnsOk(due: seq<Key>, turns: seq<Turn>, present: int) {
    |turns| == |due| && forall i :: 0 <= i < |due| ==> TurnOk(turns[i], due[i + 1..], present)
  }

  lemma TurnsTail(due: seq<Key>, turns: seq<Turn>, present: int)
    requires TurnsOk(due, turns, present) && due != []
    ensures TurnOk(turns[0], due[1..], present) && TurnsOk(due[1..], turns[1..], present)
  {
  }

  // No callback of the trigger names this key.
  ghost predicate Leaves(ops: seq<Op>, key: Key) { forall j :: 0 <= j < |ops| ==> ops[j].key != key }

  ghost predicate Untouched(turns: seq<Turn>, key: Key) {
    forall i :: 0 <= i < |turns| ==> Leaves(turns[i].ops, key)
  }

  // What is left of a timer that has fired: a repeating one is armed again.
  function Rest(t: Timer, now: int): Option<Timer> {
    if Repeats(t) then Some(Counted(t).(when := now + t.delay)) else None
  }

  // Different timers, on the ring but for those freed.
  ghost predicate Alive(ring: seq<Timer>, due: seq<Key>, freed: set<Key>) {
    && (forall i :: 0 <= i < |due| ==> due[i] in freed || Find(ring, due[i]).Some?)
    && (forall i, j :: 0 <= i < j < |due| ==> due[i] != due[j])
  }

  ghost predicate Queue(ring: seq<Timer>, due: seq<Key>) { Alive(ring, due, {}) }

  // What a trigger leaves of timer t.
  function Left(due: seq<Key>, turns: seq<Turn>, t: Timer): Option<Timer>
    requires |turns| == |due|
    decreases |due|
  {
    if due == [] then Some(t)
    else if due[0] == t.key then Rest(t, turns[0].now)
    else Left(due[1..], turns[1..], t)
  }

  // The timers that are due are the first of the ring, in the order of their
  // times, each once.
  lemma DueExact(ring: seq<Timer>, present: int, key: Key)
    requires RingOk(ring)
    ensures key in DueKeys(ring, present) <==> Find(ring, key).Some? && Find(ring, key).value.when <= present
    ensures var due := DueKeys(ring, present);
            Queue(ring, due)
            && forall i, j :: 0 <= i < j < |due| ==> Find(ring, due[i]).value.when <= Find(ring, due[j]).value.when
  {
    var n, due, k := Place(ring, present), DueKeys(ring, present), IndexOf(ring, key);
    forall i: nat | i < n ensures due[i] == At(ring, i).key && Find(ring, due[i]) == Some(At(ring, i)) {
      FindIs(ring, i);
    }
    if k < |ring| && At(ring, k).when <= present {
      assert n < |ring| ==> At(ring, n).when > present;
      assert k < n;
      assert due[k] == key;
    }
  }

  lemma RearmLaws(ring: seq<Timer>, i: nat, t: Timer, now: int, other: Key)
    requires RingOk(ring) && i < |ring| && t.key == ring[i].key && t.when == ring[i].when
    ensures var after := Requested(ring[i := t], t.key, t.delay, now, NO_JUNK);
            && RingOk(after)
            && Find(after, other) == if other == t.key then Some(t.(when := now + t.delay)) else Find(ring, other)
  {
    var counted := ring[i := t];
    SwapLaws(ring, i, t, t.key);
    SwapLaws(ring, i, t, other);
    assert Armed(Find(counted, t.key), t.key, t.delay, now, NO_JUNK) == t.(when := now + t.delay);
    RequestLaws(counted, t.key, t.delay, now, NO_JUNK, other);
  }

  lemma FiredLaws(ring: seq<Timer>, key: Key, now: int, other: Key)
    requires RingOk(ring) && Find(ring, key).Some?
    ensures RingOk(Fired(ring, key, now))
    ensures Find(Fired(ring, key, now), other) ==
            if other == key then Rest(Find(ring, key).value, now) else Find(ring, other)
  {
    var i := IndexOf(ring, key);
    var t := ring[i];
    if Repeats(t) {
      RearmLaws(ring, i, Counted(t), now, other);
      assert Fired(ring, key, now) == Requested(ring[i := Counted(t)], key, t.delay, now, NO_JUNK);
    } else {
      RemoveLaws(ring, key, other);
    }
  }

  lemma {:induction false} OpsLaws(ring: seq<Timer>, ops: seq<Op>, other: Key)
    requires RingOk(ring)
    ensures RingOk(DoOps(ring, ops))
    ensures Leaves(ops, other) ==> Find(DoOps(ring, ops), other) == Find(ring, other)
    decreases |ops|
  {
    if ops != [] {
      match ops[0] {
        case Request(key, delay, now, junk) => RequestLaws(ring, key, delay, now, junk, other);
        case Cancel(key) => RemoveLaws(ring, key, other);
        case Keep(key, keep) => KeepLaws(ring, key, keep, other);
      }
      OpsLaws(DoOp(ring, ops[0]), ops[1..], other);
    }
  }

  function Turned(ring: seq<Timer>, key: Key, turn: Turn): seq<Timer> {
    DoOps(Fired(ring, key, turn.now), turn.ops)
  }

  // The queued timers stay on the ring exactly as long as none of them is cancelled.
  lemma OpKeepsQueue(ring: seq<Timer>, op: Op, due: seq<Key>)
    requires RingOk(ring) && Queue(ring, due)
    ensures RingOk(DoOp(ring, op)) && (Queue(DoOp(ring, op), due) <==> !(op.Cancel? && op.key in due))
  {
    OpFinds(ring, op, op.key);
    forall i | 0 <= i < |due|
      ensures Find(DoOp(ring, op), due[i]).Some? <==> !(op.Cancel? && op.key == due[i])
    {
      OpFinds(ring, op, due[i]);
    }
  }

  lemma OpFinds(ring: seq<Timer>, op: Op, other: Key)
    requires RingOk(ring)
    ensures RingOk(DoOp(ring, op))
    ensures Find(ring, other).Some? ==> (Find(DoOp(ring, op), other).Some? <==> !(op.Cancel? && op.key == other))
  {
    match op {
      case Request(key, delay, now, junk) => RequestLaws(ring, key, delay, now, junk, other);
      case Cancel(key) => RemoveLaws(ring, key, other);
      case Keep(key, keep) => KeepLaws(ring, key, keep, other);
    }
  }

  lemma {:induction false} OpsKeepAlive(ring: seq<Timer>, ops: seq<Op>, due: seq<Key>, freed: set<Key>)
    requires RingOk(ring) && Alive(ring, due, freed)
    ensures Alive(DoOps(ring, ops), due, freed + Cancelled(ops))
    decreases |ops|
  {
    if ops != [] {
      var freed' := freed + if ops[0].Cancel? then {ops[0].key} else {};
      OpFinds(ring, ops[0], ops[0].key);
      forall i | 0 <= i < |due| && due[i] !in freed'
        ensures Find(DoOp(ring, ops[0]), due[i]).Some?
      {
        OpFinds(ring, ops[0], due[i]);
      }
      OpsKeepAlive(DoOp(ring, ops[0]), ops[1..], due, freed');
      assert freed' + Cancelled(ops[1..]) == freed + Cancelled(ops);
    }
  }

  lemma TurnOkay(ring: seq<Timer>, key: Key, turn: Turn)
    requires RingOk(ring) && Find(ring, key).Some?
    ensures RingOk(Turned(ring, key, turn))
  {
    FiredLaws(ring, key, turn.now, key);
    OpsLaws(Fired(ring, key, turn.now), turn.ops, key);
  }

  // One turn, and what it leaves for the timers still queued.
  lemma TurnKeepsAlive(ring: seq<Timer>, due: seq<Key>, turn: Turn, freed: set<Key>)
    requires RingOk(ring) && due != [] && Alive(ring, due, freed) && due[0] !in freed
    ensures RingOk(Turned(ring, due[0], turn))
    ensures Alive(Turned(ring, due[0], turn), due[1..], freed + Cancelled(turn.ops))
  {
    var fired, rest := Fired(ring, due[0], turn.now), due[1..];
    TurnOkay(ring, due[0], turn);
    FiredLaws(ring, due[0], turn.now, due[0]);
    assert forall i :: 0 <= i < |rest| ==> rest[i] == due[i + 1];
    forall i | 0 <= i < |rest| ensures Find(fired, rest[i]) == Find(ring, rest[i]) {
      FiredLaws(ring, due[0], turn.now, rest[i]);
    }
    OpsKeepAlive(fired, turn.ops, rest, freed);
  }

  lemma TurnLaws(ring: seq<Timer>, due: seq<Key>, turn: Turn, present: int)
    requires RingOk(ring) && due != [] && Queue(ring, due) && TurnOk(turn, due[1..], present)
    ensures RingOk(Turned(ring, due[0], turn)) && Queue(Turned(ring, due[0], turn), due[1..])
  {
    TurnKeepsAlive(ring, due, turn, {});
  }

  lemma TurnLeaves(ring: seq<Timer>, key: Key, turn: Turn, other: Key)
    requires RingOk(ring) && Find(ring, key).Some? && Leaves(turn.ops, other)
    ensures Find(Turned(ring, key, turn), other) ==
            if other == key then Rest(Find(ring, key).value, turn.now) else Find(ring, other)
  {
    FiredLaws(ring, key, turn.now, other);
    OpsLaws(Fired(ring, key, turn.now), turn.ops, other);
  }

  lemma {:induction false} LeftAlone(due: seq<Key>, turns: seq<Turn>, t: Timer)
    requires |turns| == |due| && t.key !in due
    ensures Left(due, turns, t) == Some(t)
    decreases |due|
  {
    if due != [] {
      LeftAlone(due[1..], turns[1..], t);
    }
  }

  // One trigger: whatever the callbacks do to other timers, the ring stays sorted
  // with one timer per key; a timer that no callback names is left as it was
  // unless it was due, and then it is gone or armed again.
  lemma {:induction false} TriggerExact(ring: seq<Timer>, due: seq<Key>, turns: seq<Turn>, present: int, key: Key)
    requires RingOk(ring) && Queue(ring, due) && TurnsOk(due, turns, present)
    ensures RingOk(Triggered(ring, due, turns))
    ensures Untouched(turns, key) ==>
              Find(Triggered(ring, due, turns), key) ==
              match Find(ring, key)
              case None => None
              case Some(t) => Left(due, turns, t)
    decreases |due|
  {
    if due != [] {
      var after := Turned(ring, due[0], turns[0]);
      TurnsTail(due, turns, present);
      TurnLaws(ring, due, turns[0], present);
      TriggerExact(after, due[1..], turns[1..], present, key);
      if Untouched(turns, key) {
        assert Leaves(turns[0].ops, key);
        TurnLeaves(ring, due[0], turns[0], key);
        if key == due[0] && Find(after, key).Some? {
          LeftAlone(due[1..], turns[1..], Find(after, key).value);
        }
      }
    }
  }

  lemma {:induction false} LeftOver(due: seq<Key>, turns: seq<Turn>, present: int, t: Timer)
    requires TurnsOk(due, turns, present) && t.key in due
    ensures Repeats(t) <==> Left(due, turns, t).Some?
    ensures Repeats(t) ==> Left(due, turns, t).value.when >= present + t.delay
    ensures Repeats(t) ==> Left(due, turns, t).value.(when := t.when) == Counted(t)
    decreases |due|
  {
    TurnsTail(due, turns, present);
    if due[0] != t.key {
      LeftOver(due[1..], turns[1..], present, t);
    }
  }

  // What one trigger does to a timer whose key no callback names: if it is not yet
  // due it stays as it was, if it fires once it is gone, and if it repeats it is
  // back, due later than the trigger and counted once.
  lemma TriggerOutcome(ring: seq<Timer>, turns: seq<Turn>, present: int, key: Key)
    requires RingOk(ring) && TurnsOk(DueKeys(ring, present), turns, present) && Untouched(turns, key)
    ensures var after := Find(Triggered(ring, DueKeys(ring, present), turns), key);
            match Find(ring, key)
            case None => after == None
            case Some(t) =>
              if t.when > present then after == Some(t)
              else if !Repeats(t) then after == None
              else after.Some? && after.value.when > present && after.value.(when := t.when) == Counted(t)
  {
    var due := DueKeys(ring, present);
    DueExact(ring, present, key);
    TriggerExact(ring, due, turns, present, key);
    match Find(ring, key) {
      case None =>
      case Some(t) =>
        if key in due {
          LeftOver(due, turns, present, t);
        } else {
          LeftAlone(due, turns, t);
        }
    }
  }

  // ------------------------------------------------------- one timer on its own

  predicate Keyed(t: Option<Timer>, key: Key) { t.Some? ==> t.value.key == key }

  // What callbacks make of the timer with this key.
  function AfterOp(t: Option<Timer>, key: Key, op: Op): (r: Option<Timer>)
    ensures Keyed(t, key) ==> Keyed(r, key)
  {
    if op.key != key then t
    else match op
      case Request(_, delay, now, junk) => Some(Armed(t, key, delay, now, junk))
      case Cancel(_) => None
      case Keep(_, keep) => match t case None => None case Some(t) => Some(t.(keep := keep))
  }

  function AfterOps(t: Option<Timer>, key: Key, ops: seq<Op>): (r: Option<Timer>)
    ensures Keyed(t, key) ==> Keyed(r, key)
    decreases |ops|
  {
    if ops == [] then t else AfterOps(AfterOp(t, key, ops[0]), key, ops[1..])
  }

  // What a trigger makes of it: it fires when its turn comes, and every turn may
  // touch it.
  function Fate(t: Option<Timer>, key: Key, due: seq<Key>, turns: seq<Turn>): Option<Timer>
    requires |turns| == |due|
    decreases |due|
  {
    if due == [] then t
    else
      var fired := if due[0] == key && t.Some? then Rest(t.value, turns[0].now) else t;
      Fate(AfterOps(fired, key, turns[0].ops), key, due[1..], turns[1..])
  }

  lemma OpOnKey(ring: seq<Timer>, key: Key, op: Op)
    requires RingOk(ring)
    ensures RingOk(DoOp(ring, op)) && Find(DoOp(ring, op), key) == AfterOp(Find(ring, key), key, op)
  {
    match op {
      case Request(k, delay, now, junk) => RequestLaws(ring, k, delay, now, junk, key);
      case Cancel(k) => RemoveLaws(ring, k, key);
      case Keep(k, keep) =>
        KeepLaws(ring, k, keep, key);
        var i := IndexOf(ring, k);
        if k == key && i < |ring| {
          SwapLaws(ring, i, ring[i].(keep := keep), key);
        }
    }
  }

  lemma {:induction false} OpsOnKey(ring: seq<Timer>, key: Key, ops: seq<Op>)
    requires RingOk(ring)
    ensures RingOk(DoOps(ring, ops)) && Find(DoOps(ring, ops), key) == AfterOps(Find(ring, key), key, ops)
    decreases |ops|
  {
    if ops != [] {
      OpOnKey(ring, key, ops[0]);
      OpsOnKey(DoOp(ring, ops[0]), key, ops[1..]);
    }
  }

  // Every timer goes its own way through a trigger: what becomes of it follows from
  // its own turn and the operations that name it, whatever happens to the others.
  lemma {:induction false} KeyFate(ring: seq<Timer>, due: seq<Key>, turns: seq<Turn>, present: int, key: Key)
    requires RingOk(ring) && Queue(ring, due) && TurnsOk(due, turns, present)
    ensures Find(Triggered(ring, due, turns), key) == Fate(Find(ring, key), key, due, turns)
    decreases |due|
  {
    if due != [] {
      var fired := Fired(ring, due[0], turns[0].now);
      TurnsTail(due, turns, present);
      FiredLaws(ring, due[0], turns[0].now, key);
      OpsOnKey(fired, key, turns[0].ops);
      TurnLaws(ring, due, turns[0], present);
      KeyFate(Turned(ring, due[0], turns[0]), due[1..], turns[1..], present, key);
    }
  }

  lemma {:induction false} OpsLeave(t: Option<Timer>, key: Key, ops: seq<Op>)
    requires Leaves(ops, key)
    ensures AfterOps(t, key, ops) == t
    decreases |ops|
  {
    if ops != [] {
      assert forall j :: 0 <= j < |ops[1..]| ==> ops[1..][j] == ops[j + 1];
      OpsLeave(t, key, ops[1..]);
    }
  }

  // The last request in a callback that nothing follows is the timer afterwards.
  lemma {:induction false} LastOp(t: Option<Timer>, key: Key, ops: seq<Op>, j: nat) returns (was: Option<Timer>)
    requires j < |ops| && ops[j].Request? && ops[j].key == key && Leaves(ops[j + 1..], key)
    ensures AfterOps(t, key, ops) == Some(Armed(was, key, ops[j].delay, ops[j].now, ops[j].junk))
    ensures Leaves(ops[..j], key) ==> was == t
    decreases |ops|
  {
    if j == 0 {
      was := t;
      OpsLeave(AfterOp(t, key, ops[0]), key, ops[1..]);
    } else {
      assert ops[1..][j..] == ops[j + 1..];
      was := LastOp(AfterOp(t, key, ops[0]), key, ops[1..], j - 1);
      if Leaves(ops[..j], key) {
        assert ops[..j][0] == ops[0];
        assert ops[1..][..j - 1] == ops[..j][1..];
      }
    }
  }

  ghost predicate Different(due: seq<Key>) { forall i, j :: 0 <= i < j < |due| ==> due[i] != due[j] }

  lemma {:induction false} FateLeft(t: Timer, due: seq<Key>, turns: seq<Turn>)
    requires |turns| == |due| && Untouched(turns, t.key)
    requires Different(due)
    ensures Fate(Some(t), t.key, due, turns) == Left(due, turns, t)
    decreases |due|
  {
    if due != [] {
      var fired := if due[0] == t.key then Rest(t, turns[0].now) else Some(t);
      assert Leaves(turns[0].ops, t.key);
      OpsLeave(fired, t.key, turns[0].ops);
      if fired.Some? {
        FateLeft(fired.value, due[1..], turns[1..]);
        if due[0] == t.key {
          LeftAlone(due[1..], turns[1..], fired.value);
        }
      } else {
        FateNone(t.key, due[1..], turns[1..]);
      }
    }
  }

  lemma {:induction false} FateNone(key: Key, due: seq<Key>, turns: seq<Turn>)
    requires |turns| == |due| && Untouched(turns, key)
    ensures Fate(None, key, due, turns) == None
    decreases |due|
  {
    if due != [] {
      assert Leaves(turns[0].ops, key);
      OpsLeave(None, key, turns[0].ops);
      FateNone(key, due[1..], turns[1..]);
    }
  }

  // Operation j of turn m is a request, and the last operation to name its key.
  ghost predicate LastNamed(due: seq<Key>, turns: seq<Turn>, key: Key, m: nat, j: nat) {
    && |turns| == |due| && Different(due)
    && m < |turns| && j < |turns[m].ops| && turns[m].ops[j].Request? && turns[m].ops[j].key == key
    && Leaves(turns[m].ops[j + 1..], key) && Untouched(turns[m + 1..], key)
  }

  function ArmedBy(was: Option<Timer>, op: Op): Timer
    requires op.Request?
  {
    Armed(was, op.key, op.delay, op.now, op.junk)
  }

  lemma LastNamedTail(due: seq<Key>, turns: seq<Turn>, key: Key, m: nat, j: nat)
    requires LastNamed(due, turns, key, m, j) && m > 0
    ensures LastNamed(due[1..], turns[1..], key, m - 1, j) && turns[1..][m - 1] == turns[m]
    ensures due[1..][m - 1 + 1..] == due[m + 1..] && turns[1..][m - 1 + 1..] == turns[m + 1..]
  {
  }

  lemma {:induction false} FateAfter(t: Option<Timer>, key: Key, due: seq<Key>, turns: seq<Turn>, m: nat, j: nat)
    returns (was: Option<Timer>)
    requires LastNamed(due, turns, key, m, j) && Keyed(t, key)
    ensures Keyed(was, key)
    ensures Fate(t, key, due, turns) == Left(due[m + 1..], turns[m + 1..], ArmedBy(was, turns[m].ops[j]))
    decreases m
  {
    var fired := if due[0] == key && t.Some? then Rest(t.value, turns[0].now) else t;
    if m == 0 {
      was := LastOp(fired, key, turns[0].ops, j);
      FateLeft(ArmedBy(was, turns[0].ops[j]), due[1..], turns[1..]);
    } else {
      LastNamedTail(due, turns, key, m, j);
      was := FateAfter(AfterOps(fired, key, turns[0].ops), key, due[1..], turns[1..], m - 1, j);
    }
  }

  // A request by a callback, the last operation of the trigger to name its key: the
  // timer it arms is there afterwards, unless a later turn of the trigger fires it,
  // and then what that leaves of it.
  lemma LastRequest(ring: seq<Timer>, due: seq<Key>, turns: seq<Turn>, present: int, key: Key, m: nat, j: nat)
    returns (was: Option<Timer>)
    requires RingOk(ring) && Queue(ring, due) && TurnsOk(due, turns, present) && LastNamed(due, turns, key, m, j)
    ensures var op, armed := turns[m].ops[j], ArmedBy(was, turns[m].ops[j]);
            && armed.key == key && armed.when == op.now + op.delay
            && (was.None? ==> armed == Timer(key, op.now + op.delay, op.delay, op.junk.keep, op.junk.ncount))
            && Find(Triggered(ring, due, turns), key) == Left(due[m + 1..], turns[m + 1..], armed)
            && (key !in due[m + 1..] ==> Find(Triggered(ring, due, turns), key) == Some(armed))
  {
    KeyFate(ring, due, turns, present, key);
    was := FateAfter(Find(ring, key), key, due, turns, m, j);
    if key !in due[m + 1..] {
      LeftAlone(due[m + 1..], turns[m + 1..], ArmedBy(was, turns[m].ops[j]));
    }
  }

  lemma {:induction false} FreshFate(t: Timer, due: seq<Key>, turns: seq<Turn>, m: nat, j: nat)
    requires LastNamed(due, turns, t.key, m, j) && due[m] == t.key && !Repeats(t)
    requires Leaves(turns[m].ops[..j], t.key) && Untouched(turns[..m], t.key)
    ensures Fate(Some(t), t.key, due, turns) == Some(ArmedBy(None, turns[m].ops[j]))
    decreases m
  {
    if m == 0 {
      var was := LastOp(None, t.key, turns[0].ops, j);
      var armed := ArmedBy(None, turns[0].ops[j]);
      FateLeft(armed, due[1..], turns[1..]);
      LeftAlone(due[1..], turns[1..], armed);
    } else {
      assert turns[..m][0] == turns[0] && turns[1..][..m - 1] == turns[..m][1..];
      OpsLeave(Some(t), t.key, turns[0].ops);
      LastNamedTail(due, turns, t.key, m, j);
      FreshFate(t, due[1..], turns[1..], m - 1, j);
    }
  }

  // A timer that fires once and arms itself again in its own callback is a new timer
  // afterwards, with the delay asked for and the flag of its memory.
  lemma OneShotAgain(ring: seq<Timer>, due: seq<Key>, turns: seq<Turn>, present: int, t: Timer, m: nat, j: nat)
    requires RingOk(ring) && Queue(ring, due) && TurnsOk(due, turns, present)
    requires Find(ring, t.key) == Some(t) && !Repeats(t)
    requires LastNamed(due, turns, t.key, m, j) && due[m] == t.key
    requires Leaves(turns[m].ops[..j], t.key) && Untouched(turns[..m], t.key)
    ensures Find(Triggered(ring, due, turns), t.key) == Some(ArmedBy(None, turns[m].ops[j]))
  {
    FreshFate(t, due, turns, m, j);
    KeyFate(ring, due, turns, present, t.key);
  }

  // ---------------------------------------------- what a caller gets that asked

  // The armed timer is due when asked for. It has the delay and the flag asked for
  // only if the timer that was there, or the memory of a new one, had them.
  lemma ArmedAsAsked(ring: seq<Timer>, key: Key, delay: Delay, keep: bool, now: int, junk: Junk)
    requires RingOk(ring)
    ensures var was, got := Find(ring, key), Find(Requested(ring, key, delay, now, junk), key);
            && got.Some? && got.value.when == now + delay
            && (got.value.delay == delay <==> was.None? || was.value.delay == delay)
            && (got.value.keep == keep <==> (if was.Some? then was.value.keep else junk.keep) == keep)
  {
    RequestLaws(ring, key, delay, now, junk, key);
  }

  // When a timer requested with this delay and flag, and fired at time `fired`, is
  // due again; and when it is, if at all.
  function Asked(delay: Delay, keep: bool, fired: int): Option<int> {
    if delay > 0 && keep then Some(fired + delay) else None
  }

  function DueAgain(t: Option<Timer>): Option<int> {
    match t
    case None => None
    case Some(t) => Some(t.when)
  }

  // The request will be honoured beyond its first firing.
  predicate Honoured(ring: seq<Timer>, key: Key, delay: Delay, keep: bool, junk: Junk) {
    match Find(ring, key)
    case None => delay == 0 || junk.keep == keep
    case Some(t) => if delay > 0 && keep then t.keep && t.delay == delay else !Repeats(t)
  }

  lemma {:induction false} LeftAt(due: seq<Key>, turns: seq<Turn>, t: Timer, i: nat)
    requires |turns| == |due| && i < |due| && due[i] == t.key
    requires forall j, k :: 0 <= j < k < |due| ==> due[j] != due[k]
    ensures Left(due, turns, t) == Rest(t, turns[i].now)
    decreases |due|
  {
    if i > 0 {
      LeftAt(due[1..], turns[1..], t, i - 1);
    }
  }

  // What is left of timer number i of a trigger, if no callback names its key.
  lemma RestOf(ring: seq<Timer>, turns: seq<Turn>, present: int, t: Timer, i: nat)
    requires RingOk(ring) && Find(ring, t.key) == Some(t)
    requires TurnsOk(DueKeys(ring, present), turns, present) && Untouched(turns, t.key)
    requires i < |turns| && DueKeys(ring, present)[i] == t.key
    ensures Find(Triggered(ring, DueKeys(ring, present), turns), t.key) == Rest(t, turns[i].now)
  {
    var due := DueKeys(ring, present);
    DueExact(ring, present, t.key);
    TriggerExact(ring, due, turns, present, t.key);
    LeftAt(due, turns, t, i);
  }

  lemma HonouredExactly(ring: seq<Timer>, key: Key, delay: Delay, keep: bool, now: int, junk: Junk, fired: int)
    ensures DueAgain(Rest(Armed(Find(ring, key), key, delay, now, junk), fired)) == Asked(delay, keep, fired)
            <==> Honoured(ring, key, delay, keep, junk)
  {
  }

  // A request, and the trigger in which it fires as number i, whatever the other
  // timers do: afterwards the timer is due again as asked exactly if honoured.
  lemma {:induction false} AgainAsAsked(ring: seq<Timer>, key: Key, delay: Delay, keep: bool, now: int, junk: Junk,
                                        turns: seq<Turn>, present: int, i: nat)
    requires RingOk(ring)
    requires var due := DueKeys(Requested(ring, key, delay, now, junk), present);
             TurnsOk(due, turns, present) && Untouched(turns, key) && i < |due| && due[i] == key
    ensures var after := Requested(ring, key, delay, now, junk);
            DueAgain(Find(Triggered(after, DueKeys(after, present), turns), key)) == Asked(delay, keep, turns[i].now)
            <==> Honoured(ring, key, delay, keep, junk)
  {
    var t := Armed(Find(ring, key), key, delay, now, junk);
    assert t.key == key by {
      assert Find(ring, key).Some? ==> Find(ring, key).value.key == key;
    }
    RequestLaws(ring, key, delay, now, junk, key);
    RestOf(Requested(ring, key, delay, now, junk), turns, present, t, i);
    HonouredExactly(ring, key, delay, keep, now, junk, turns[i].now);
  }

  lemma Alone(t: Timer, delay: Delay, now: int, junk: Junk)
    ensures Requested([t], t.key, delay, now, junk) == [t.(when := now + delay)]
    ensures DueKeys([t], t.when) == [t.key] && Remove([t], t.key) == []
  {
    assert IndexOf([t], t.key) == 0 && Place([t], t.when) == 1;
    assert Remove([t], t.key) == [];
    assert KeysOf([t]) == [t.key];
  }

  lemma AloneNew(key: Key, delay: Delay, now: int, junk: Junk)
    ensures Requested([], key, delay, now, junk) == [Timer(key, now + delay, delay, junk.keep, junk.ncount)]
  {
  }

  lemma FiredAlone(t: Timer, now: int)
    ensures Fired([t], t.key, now) == if Repeats(t) then [Counted(t).(when := now + t.delay)] else []
  {
    assert IndexOf([t], t.key) == 0;
    if Repeats(t) {
      Alone(Counted(t), t.delay, now, NO_JUNK);
      assert [t][0 := Counted(t)] == [Counted(t)];
    } else {
      Alone(t, 0, now, NO_JUNK);
    }
  }

  lemma OneTurn(ring: seq<Timer>, key: Key, now: int)
    ensures Triggered(ring, [key], [Turn(now, [])]) == Fired(ring, key, now)
  {
    assert [key][1..] == [];
  }

  // A trigger of a timer alone on the ring.
  lemma AloneFired(t: Timer, now: int)
    ensures Triggered([t], [t.key], [Turn(now, [])]) ==
            if Repeats(t) then [Counted(t).(when := now + t.delay)] else []
  {
    FiredAlone(t, now);
    OneTurn([t], t.key, now);
  }

  // A timer asked to repeat fires once, when its memory does not say so.
  lemma RepeatForgotten(key: Key, now: int)
    ensures var after := Requested([], key, 10, now, Junk(false, 0));
            && DueKeys(after, now + 10) == [key]
            && Triggered(after, [key], [Turn(now + 10, [])]) == []
    ensures Asked(10, true, now + 10) == Some(now + 20)
  {
    var t := Timer(key, now + 10, 10, false, 0);
    AloneNew(key, 10, now, Junk(false, 0));
    Alone(t, 10, now, NO_JUNK);
    AloneFired(t, now + 10);
  }

  // A timer that repeats every 10 goes on doing so, whether asked to fire every 20
  // or once, in 20.
  lemma OldDelayKept(key: Key, now: int)
    ensures var after := Requested([Timer(key, now, 10, true, 0)], key, 20, now, NO_JUNK);
            && DueKeys(after, now + 20) == [key]
            && Triggered(after, [key], [Turn(now + 20, [])]) == [Timer(key, now + 30, 10, true, 1)]
    ensures Asked(20, true, now + 20) == Some(now + 40) && Asked(20, false, now + 20) == None
  {
    var t := Timer(key, now + 20, 10, true, 0);
    Alone(Timer(key, now, 10, true, 0), 20, now, NO_JUNK);
    Alone(t, 10, now, NO_JUNK);
    AloneFired(t, now + 20);
  }

  // ----------------------------------------------------------- how far it gets

  lemma {:induction false} ReachedFrom(due: seq<Key>, turns: seq<Turn>, freed: set<Key>)
    requires |turns| == |due|
    ensures var n := Reached(due, turns, freed);
            && (forall i :: 0 <= i < n ==> due[i] !in freed)
            && (forall i, j :: 0 <= i < j < n ==> due[j] !in Cancelled(turns[i].ops))
            && (n < |due| ==> due[n] in freed || exists i :: 0 <= i < n && due[n] in Cancelled(turns[i].ops))
    decreases |due|
  {
    if due != [] && due[0] !in freed {
      var n := Reached(due, turns, freed);
      ReachedFrom(due[1..], turns[1..], freed + Cancelled(turns[0].ops));
      assert forall i :: 0 < i < n ==> due[i] == due[1..][i - 1] && turns[i] == turns[1..][i - 1];
      if n < |due| && due[n] !in freed && due[n] !in Cancelled(turns[0].ops) {
        var i :| 0 <= i < n - 1 && due[1..][n - 1] in Cancelled(turns[1..][i].ops);
        assert due[n] in Cancelled(turns[i + 1].ops);
      }
    }
  }

  // The trigger gets to the end of its queue exactly if no callback cancels a
  // timer still queued; else it gets to the first one cancelled.
  lemma ReachedExactly(due: seq<Key>, turns: seq<Turn>)
    requires |turns| == |due|
    ensures var n := Reached(due, turns, {});
            && (n == |due| <==> forall i, j :: 0 <= i < j < |due| ==> due[j] !in Cancelled(turns[i].ops))
            && (n < |due| ==> exists i :: 0 <= i < n && due[n] in Cancelled(turns[i].ops))
            && (forall i, j :: 0 <= i < j < n ==> due[j] !in Cancelled(turns[i].ops))
  {
    ReachedFrom(due, turns, {});
  }

  // In the middle of a trigger: the timers still queued and the turns to come,
  // which lead to `final`.
  ghost predicate Serving(ring: seq<Timer>, due: seq<Key>, turns: seq<Turn>, freed: set<Key>, final: seq<Timer>) {
    && RingOk(ring) && Alive(ring, due, freed) && |turns| == |due|
    && var n := Reached(due, turns, freed);
       Triggered(ring, due[..n], turns[..n]) == final
  }

  lemma ServingStep(ring: seq<Timer>, due: seq<Key>, turns: seq<Turn>, freed: set<Key>, final: seq<Timer>)
    requires Serving(ring, due, turns, freed, final) && due != [] && due[0] !in freed
    ensures Find(ring, due[0]).Some?
    ensures Serving(Turned(ring, due[0], turns[0]), due[1..], turns[1..], freed + Cancelled(turns[0].ops), final)
  {
    var n := Reached(due, turns, freed);
    TurnKeepsAlive(ring, due, turns[0], freed);
    assert due[..n][1..] == due[1..][..n - 1] && turns[..n][1..] == turns[1..][..n - 1];
  }

  // ---------------------------------------------------------------- the engine

  class Engine {
    var ring: seq<Timer>
    var present: int
    var timers: seq<Key>   // the queue of due timers

    constructor ()
      ensures ring == [] && timers == []
    {
      ring, timers, present := [], [], 0;
    }

    // Lines 49-70: the timer of this key, off the ring, or a new one.
    method TakeTimer(key: Key, delay: Delay, junk: Junk) returns (t: Timer)
      modifies this`ring
      ensures ring == Remove(old(ring), key)
      ensures t == Armed(Find(old(ring), key), key, delay, present, junk)
    {
      var i := 0;
      while i < |ring| && ring[i].key != key
        invariant 0 <= i <= |ring| && ring == old(ring)
        invariant forall j :: 0 <= j < i ==> ring[j].key != key
      {
        i := i + 1;
      }
      IndexIs(ring, key, i);
      if i < |ring| {
        t := ring[i].(when := present + delay);
        ring := ring[..i] + ring[i + 1..];
      } else {
        t := Timer(key, present + delay, delay, junk.keep, junk.ncount);
      }
    }

    // Lines 76-79: in front of the first timer that is due later.
    method PutTimer(t: Timer)
      modifies this`ring
      ensures ring == Insert(old(ring), t)
    {
      var i := 0;
      while i < |ring| && !(t.when < ring[i].when)
        invariant 0 <= i <= |ring| && ring == old(ring)
        invariant forall j :: 0 <= j < i ==> ring[j].when <= t.when
      {
        i := i + 1;
      }
      PlaceIs(ring, t.when, i);
      ring := ring[..i] + [t] + ring[i..];
    }

    // event_timer_request_thr
    method TimerRequest(key: Key, delay: Delay, now: int, junk: Junk) returns (when: int)
      modifies this`ring, this`present
      ensures ring == Requested(old(ring), key, delay, now, junk) && when == now + delay
      ensures present == now
    {
      present := now;
      var t := TakeTimer(key, delay, junk);
      PutTimer(t);
      when := t.when;
    }

    // event_timer_cancel_thr: the time left, or -1 if there is no such timer.
    method TimerCancel(key: Key, now: int) returns (left: int)
      modifies this`ring, this`present
      ensures ring == Remove(old(ring), key)
      ensures match Find(old(ring), key)
              case None => left == -1
              case Some(t) => left == if t.when > now then t.when - now else 0
    {
      present := now;
      left := -1;
      var i := 0;
      while i < |ring|
        invariant 0 <= i <= |ring| && ring == old(ring) && left == -1
        invariant forall j :: 0 <= j < i ==> ring[j].key != key
      {
        if ring[i].key == key {
          IndexIs(ring, key, i);
          left := ring[i].when - present;
          if left < 0 {
            left := 0;
          }
          ring := ring[..i] + ring[i + 1..];
          return;
        }
        i := i + 1;
      }
      IndexIs(ring, key, i);
    }

    // event_timer_keep_thr
    method TimerKeep(key: Key, keep: bool)
      modifies this`ring
      ensures ring == Kept(old(ring), key, keep)
    {
      var i := 0;
      while i < |ring| && ring[i].key != key
        invariant 0 <= i <= |ring| && ring == old(ring)
        invariant forall j :: 0 <= j < i ==> ring[j].key != key
      {
        i := i + 1;
      }
      IndexIs(ring, key, i);
      if i < |ring| {
        ring := ring[i := ring[i].(keep := keep)];
      }
    }

    method RunCallback(ops: seq<Op>)
      modifies this`ring, this`present
      ensures ring == DoOps(old(ring), ops)
    {
      var j := 0;
      while j < |ops|
        invariant 0 <= j <= |ops| && DoOps(ring, ops[j..]) == DoOps(old(ring), ops)
      {
        assert ops[j..][1..] == ops[j + 1..];
        match ops[j] {
          case Request(key, delay, now, junk) => var _ := TimerRequest(key, delay, now, junk);
          case Cancel(key) => var _ := TimerCancel(key, present);
          case Keep(key, keep) => TimerKeep(key, keep);
        }
        j := j + 1;
      }
    }

    // event_timer_trigger_thr at time `now`: first the due timers are queued, then
    // they are fired one by one. `fired` are the callbacks made, in order. It stops
    // short at a pointer to freed memory: from there on C defines nothing.
    method TimerTrigger(now: int, turns: seq<Turn>) returns (fired: seq<Key>)
      requires RingOk(ring) && timers == [] && |turns| == |DueKeys(ring, now)|
      modifies this
      ensures var due := DueKeys(old(ring), now);
              fired == due[..Reached(due, turns, {})] && timers == due[|fired|..]
      ensures ring == Triggered(old(ring), fired, turns[..|fired|]) && RingOk(ring)
    {
      present := now;
      QueueDue();
      ghost var n := Reached(timers, turns, {});
      fired := ServeAll(turns, Triggered(ring, timers[..n], turns[..n]));
    }

    method ServeAll(turns: seq<Turn>, ghost final: seq<Timer>) returns (fired: seq<Key>)
      requires Serving(ring, timers, turns, {}, final)
      modifies this
      ensures fired == old(timers)[..Reached(old(timers), turns, {})] && timers == old(timers)[|fired|..]
      ensures ring == final && RingOk(ring)
    {
      fired := [];
      var left, freed := turns, {};
      while timers != [] && timers[0] !in freed
        invariant |fired| <= |old(timers)| && fired == old(timers)[..|fired|] && timers == old(timers)[|fired|..]
        invariant Serving(ring, timers, left, freed, final)
        invariant Reached(old(timers), turns, {}) == |fired| + Reached(timers, left, freed)
        decreases |timers|
      {
        fired := fired + [timers[0]];
        ServeNext(left, freed, final);
        left, freed := left[1..], freed + Cancelled(left[0].ops);
      }
    }

    // The first queued timer is fired, then its callback runs.
    method ServeNext(turns: seq<Turn>, freed: set<Key>, ghost final: seq<Timer>)
      requires timers != [] && timers[0] !in freed && Serving(ring, timers, turns, freed, final)
      modifies this
      ensures timers == old(timers)[1..]
      ensures Serving(ring, timers, turns[1..], freed + Cancelled(turns[0].ops), final)
    {
      ServingStep(ring, timers, turns, freed, final);
      FireOne(timers[0], turns[0].now);
      RunCallback(turns[0].ops);
      timers := timers[1..];
    }

    // A due timer that is still on the ring.
    method FireOne(key: Key, now: int)
      requires Find(ring, key).Some?
      modifies this`ring, this`present
      ensures ring == Fired(old(ring), key, now)
    {
      var i := IndexOf(ring, key);
      var t := ring[i];
      if t.delay > 0 && t.keep {
        ring := ring[i := Counted(t)];
        var _ := TimerRequest(key, t.delay, now, NO_JUNK);
      } else {
        ring := ring[..i] + ring[i + 1..];
      }
    }

    method QueueDue()
      requires RingOk(ring) && timers == []
      modifies this`timers
      ensures timers == DueKeys(ring, present) && Queue(ring, timers)
    {
      var i := 0;
      while i < |ring| && !(ring[i].when > present)
        invariant 0 <= i <= |ring| && |timers| == i
        invariant forall j :: 0 <= j < i ==> ring[j].when <= present && timers[j] == ring[j].key
      {
        timers := timers + [ring[i].key];
        i := i + 1;
      }
      PlaceIs(ring, present, i);
      assert timers == DueKeys(ring, present);
      DueExact(ring, present, Key(0, 0));
    }
  }
}
