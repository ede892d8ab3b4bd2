/**
 The sliced Redis list (mwredisslicelist.cpp): N FIFO lists behind two atomic
 ticket counters, shared by any number of producers and consumers. Redis itself
 is N sequences with atomic RPUSH, LPOP and the batch-pop script.
 */
module SliceList {

  const TICKETS := 0x1_0000_0000_0000_0000 // the counters are 64 bits wide

  // The slice that ticket t (counted without wrap-around) leads to.
  function SliceOf(t: nat, n: nat): (i: nat)
    requires n > 0
    ensures i < n
  {
    t % TICKETS % n
  }

  // ------------------------------------------------------------- the search loop

  // What Redis answers to a probe: an element that it removed, nothing, or an error.
  datatype Reply = Popped(value: string) | Nothing | Failed(code: int)

  // The return code of MWRedisClient::lpop.
  function Code(r: Reply): int {
    match r
    case Popped(value) => |value|
    case Nothing => 0
    case Failed(code) => if code < 0 then code else -1
  }

  // The slice that the k-th probe (from 0) of a search looks at.
  function ProbeSlice(start: nat, n: nat, k: nat): (i: nat)
    requires n > 0
    ensures i < n
  {
    (start + 1 + k) % n
  }

  // listlpop after it drew its ticket. The other clients are free to act between
  // two probes: `redis(k, i)` is what Redis answers when probe k asks slice i.
  method ListLPop(start: nat, n: nat, redis: (nat, nat) -> Reply)
    returns (ret: int, buf: string, slot: nat, probes: nat)
    requires start < n
    ensures 1 <= probes <= n && slot == ProbeSlice(start, n, probes - 1)
    ensures ret == Code(redis(probes - 1, slot))
    ensures forall k :: 0 <= k < probes - 1 ==> Code(redis(k, ProbeSlice(start, n, k))) == 0
    ensures ret == 0 ==> probes == n
    ensures ret > 0 ==> redis(probes - 1, slot) == Popped(buf)
  {
    slot, probes, buf := start, 0, "";
    while true
      invariant 0 <= probes < n && slot == (start + probes) % n
      invariant forall k :: 0 <= k < probes ==> Code(redis(k, ProbeSlice(start, n, k))) == 0
      decreases n - probes
    {
      ModStep(start + probes, n);
      slot := (slot + 1) % n;
      var reply := redis(probes, slot);
      ret := Code(reply);
      probes := probes + 1;
      if ret > 0 {
        buf := reply.value;
        break;
      } else if ret < 0 {
        break;
      }
      RotationEnds(start, n, probes - 1);
      if slot == start {
        ret := 0;
        break;
      }
    }
  }

  datatype BatchReply = Batch(values: seq<string>) | BatchFailed(code: int)

  // listbatchlpop after it drew its ticket.
  method ListBatchLPop(start: nat, n: nat, redis: (nat, nat) -> BatchReply)
    returns (ret: int, buflist: seq<string>, slot: nat, probes: nat)
    requires start < n && forall k, i :: redis(k, i).BatchFailed? ==> redis(k, i).code < 0
    ensures 1 <= probes <= n && slot == ProbeSlice(start, n, probes - 1)
    ensures redis(probes - 1, slot) == if ret == 0 then Batch(buflist) else BatchFailed(ret)
    ensures forall k :: 0 <= k < probes - 1 ==> redis(k, ProbeSlice(start, n, k)) == Batch([])
    ensures ret == 0 && buflist == [] ==> probes == n
  {
    slot, probes, buflist := start, 0, [];
    while true
      invariant 0 <= probes < n && slot == (start + probes) % n
      invariant forall k :: 0 <= k < probes ==> redis(k, ProbeSlice(start, n, k)) == Batch([])
      decreases n - probes
    {
      ModStep(start + probes, n);
      slot := (slot + 1) % n;
      match redis(probes, slot) {
        case Batch(values) => ret, buflist := 0, values;
        case BatchFailed(code) => ret, buflist := code, [];
      }
      probes := probes + 1;
      if ret < 0 || buflist != [] {
        break;
      }
      RotationEnds(start, n, probes - 1);
      if slot == start {
        ret := 0;
        break;
      }
    }
  }

  lemma ModStep(a: nat, n: nat)
    requires n > 0
    ensures (a % n + 1) % n == (a + 1) % n
  {
    var q, r := a / n, a % n;
    assert a == q * n + r;
    if r + 1 < n {
      DivModIs(a + 1, n, q, r + 1);
      DivModIs(r + 1, n, 0, r + 1);
    } else {
      assert a + 1 == (q + 1) * n;
      DivModIs(a + 1, n, q + 1, 0);
      DivModIs(r + 1, n, 1, 0);
    }
  }

  lemma Multiple(d: int, n: nat)
    ensures d >= 1 ==> d * n >= n
    ensures d <= -1 ==> d * n <= 0 - n
  {
  }

  lemma DivModIs(a: nat, n: nat, q: nat, r: nat)
    requires r < n && a == q * n + r
    ensures a / n == q && a % n == r
  {
    var q', r' := a / n, a % n;
    assert (q - q') * n == r' - r;
    Multiple(q - q', n);
  }

  // The search comes back to its start at the n-th probe and not before.
  lemma RotationEnds(start: nat, n: nat, k: nat)
    requires start < n && k < n
    ensures ProbeSlice(start, n, k) == start <==> k == n - 1
  {
  }

  // The n probes of a full search visit every slice, and each only once.
  lemma EverySliceOnce(start: nat, n: nat, i: nat) returns (k: nat)
    requires start < n && i < n
    ensures k < n && ProbeSlice(start, n, k) == i
    ensures forall k' :: 0 <= k' < n && ProbeSlice(start, n, k') == i ==> k' == k
  {
    k := if i > start then i - start - 1 else i + n - start - 1;
    forall k' | 0 <= k' < n
      ensures ProbeSlice(start, n, k') == i <==> k' == k
    {
      if start + 1 + k' < n {
        DivModIs(start + 1 + k', n, 0, start + 1 + k');
      } else {
        DivModIs(start + 1 + k', n, 1, start + 1 + k' - n);
      }
    }
  }

  // -------------------------------------------------------------------- tickets

  // How many of the first t tickets lead to slice i.
  function Issued(t: nat, n: nat, i: nat): nat
    requires n > 0
  {
    if t == 0 then 0 else Issued(t - 1, n, i) + if SliceOf(t - 1, n) == i then 1 else 0
  }

  lemma NextTicket(t: nat, n: nat)
    requires n > 0
    ensures t % n + 1 < n ==> (t + 1) / n == t / n && (t + 1) % n == t % n + 1
    ensures t % n + 1 == n ==> (t + 1) / n == t / n + 1 && (t + 1) % n == 0
  {
    var q, r := t / n, t % n;
    assert t == q * n + r;
    if r + 1 < n {
      DivModIs(t + 1, n, q, r + 1);
    } else {
      assert (q + 1) * n == q * n + n;
      DivModIs(t + 1, n, q + 1, 0);
    }
  }

  lemma ModOfMod(t: nat, n: nat, d: nat)
    requires n > 0 && d > 0
    ensures d * n > 0 && t % (d * n) % n == t % n
  {
    Multiple(d, n);
    ModOfModAt(t, n, d, t / (d * n), t % (d * n) / n, t % (d * n) % n);
  }

  lemma ModOfModAt(t: nat, n: nat, d: nat, q: nat, q': nat, r': nat)
    requires r' < n && t == q * (d * n) + (q' * n + r')
    ensures t % n == r'
  {
    calc {
      t;
      (q * d) * n + (q' * n + r');
      (q * d + q') * n + r';
    }
    DivModIs(t, n, q * d + q', r');
  }

  lemma TicketSlice(t: nat, n: nat)
    requires n > 0 && (t < TICKETS || TICKETS % n == 0)
    ensures SliceOf(t, n) == t % n
  {
    if t < TICKETS {
      DivModIs(t, TICKETS, 0, t);
    } else {
      assert TICKETS == TICKETS / n * n;
      ModOfMod(t, n, TICKETS / n);
    }
  }

  lemma {:induction false} IssuedIs(t: nat, n: nat, i: nat)
    requires i < n && (t <= TICKETS || TICKETS % n == 0)
    ensures Issued(t, n, i) == t / n + if i < t % n then 1 else 0
  {
    if t > 0 {
      IssuedIs(t - 1, n, i);
      NextTicket(t - 1, n);
      TicketSlice(t - 1, n);
    } else {
      DivModIs(0, n, 0, 0);
    }
  }

  // Past the wrap-around the rotation goes on undisturbed exactly for the slice
  // counts that divide 2^64.
  lemma RotationSurvivesWrap(n: nat)
    requires n > 0
    ensures (forall t: nat :: SliceOf(t, n) == t % n) <==> TICKETS % n == 0
  {
    DivModIs(0, n, 0, 0);
    DivModIs(TICKETS, TICKETS, 1, 0);
    assert SliceOf(TICKETS, n) == 0;
    if TICKETS % n == 0 {
      forall t: nat
        ensures SliceOf(t, n) == t % n
      {
        TicketSlice(t, n);
      }
    }
  }

  ghost predicate Balanced(t: nat, n: nat)
    requires n > 0
  {
    forall i: nat, j: nat :: i < n && j < n ==> -1 <= Issued(t, n, i) - Issued(t, n, j) <= 1
  }

  lemma {:induction false} IssuedAgain(k: nat, n: nat, i: nat)
    requires n > 0 && k <= TICKETS
    ensures Issued(TICKETS + k, n, i) == Issued(TICKETS, n, i) + Issued(k, n, i)
  {
    if k > 0 {
      IssuedAgain(k - 1, n, i);
      DivModIs(TICKETS + k - 1, TICKETS, 1, k - 1);
      DivModIs(k - 1, TICKETS, 0, k - 1);
    }
  }

  // Producers spread evenly: until the counter wraps, any two slices have had equally
  // many pushes, up to one; and for ever exactly for those slice counts.
  lemma TicketsBalanced(n: nat)
    requires n > 0
    ensures forall t: nat :: t <= TICKETS ==> Balanced(t, n)
    ensures (forall t: nat :: Balanced(t, n)) <==> TICKETS % n == 0
  {
    forall t: nat, i: nat, j: nat | i < n && j < n && (t <= TICKETS || TICKETS % n == 0)
      ensures -1 <= Issued(t, n, i) - Issued(t, n, j) <= 1
    {
      IssuedIs(t, n, i);
      IssuedIs(t, n, j);
    }
    if TICKETS % n != 0 {
      IssuedAgain(TICKETS, n, 0);
      IssuedAgain(TICKETS, n, n - 1);
      IssuedIs(TICKETS, n, 0);
      IssuedIs(TICKETS, n, n - 1);
      assert !Balanced(TICKETS + TICKETS, n);
    }
  }

  // ------------------------------------------------------------- the interleaving

  // A client between two of its atomic steps. `seen` are the slices that have
  // answered a search with nothing, in probe order; `batch` is 0 for listlpop.
  datatype Client =
    | Idle
    | Pushing(slice: nat, values: seq<string>)
    | Probing(start: nat, last: nat, batch: nat, seen: seq<nat>)
    | Got(slice: nat, values: seq<string>)
    | Empty(start: nat, seen: seq<nat>)

  // `pushed`, `popped` and `delivered` are history, slice by slice: what RPUSH
  // appended, what was removed, and what a consumer was handed.
  datatype State = State(
    slices: seq<seq<string>>,
    pushes: nat,
    pops: nat,
    clients: seq<Client>,
    pushed: seq<seq<string>>,
    popped: seq<seq<string>>,
    delivered: seq<seq<string>>)

  datatype Action =
    | BeginPush(c: nat, values: seq<string>)
    | Push(c: nat)
    | BeginPop(c: nat, batch: nat)
    | Probe(c: nat)
    | Return(c: nat)

  function Init(n: nat, clients: nat): State {
    var none := seq(n, _ => []);
    State(none, 0, 0, seq(clients, _ => Idle), none, none, none)
  }

  predicate Shape(s: State) {
    |s.slices| == |s.pushed| == |s.popped| == |s.delivered| && |s.slices| > 0
  }

  predicate Enabled(s: State, a: Action) {
    Shape(s) && a.c < |s.clients| &&
    var pc := s.clients[a.c];
    match a
    case BeginPush(_, values) => pc.Idle? && values != []
    case Push(_) => pc.Pushing? && pc.slice < |s.slices|
    case BeginPop(_, _) => pc.Idle?
    case Probe(_) => pc.Probing?
    case Return(_) => pc.Got? || pc.Empty?
  }

  // What one probe removes: LPOP takes the first element, the script of the batch
  // pop at most `batch` of them.
  function Taken(list: seq<string>, batch: nat): seq<string> {
    var k := if batch == 0 then 1 else batch;
    if k <= |list| then list[..k] else list
  }

  // A search ends with what it removed, except that listlpop takes an empty string
  // for an empty slice.
  predicate Ends(values: seq<string>, batch: nat) {
    values != [] && (batch == 0 ==> values[0] != "")
  }

  // The slice that the next probe of client c looks at.
  function Target(s: State, c: nat): (i: nat)
    requires c < |s.clients| && s.clients[c].Probing? && |s.slices| > 0
    ensures i < |s.slices|
  {
    (s.clients[c].last + 1) % |s.slices|
  }

  function Do(s: State, a: Action): State
    requires Enabled(s, a)
  {
    var n := |s.slices|;
    var pc := s.clients[a.c];
    match a
    case BeginPush(c, values) =>
      s.(pushes := s.pushes + 1, clients := s.clients[c := Pushing(SliceOf(s.pushes, n), values)])
    case Push(c) =>
      var i := pc.slice;
      s.(slices := s.slices[i := s.slices[i] + pc.values],
         pushed := s.pushed[i := s.pushed[i] + pc.values],
         clients := s.clients[c := Idle])
    case BeginPop(c, batch) =>
      var start := SliceOf(s.pops, n);
      s.(pops := s.pops + 1, clients := s.clients[c := Probing(start, start, batch, [])])
    case Probe(c) =>
      var i := Target(s, c);
      var values := Taken(s.slices[i], pc.batch);
      var s1 := s.(slices := s.slices[i := s.slices[i][|values|..]],
                   popped := s.popped[i := s.popped[i] + values]);
      if Ends(values, pc.batch) then
        s1.(delivered := s.delivered[i := s.delivered[i] + values],
            clients := s.clients[c := Got(i, values)])
      else if i == pc.start then
        s1.(clients := s.clients[c := Empty(pc.start, pc.seen + [i])])
      else
        s1.(clients := s.clients[c := Probing(pc.start, i, pc.batch, pc.seen + [i])])
    case Return(c) => s.(clients := s.clients[c := Idle])
  }

  predicate CanRun(s: State, run: seq<Action>)
    decreases |run|
  {
    run == [] || (Enabled(s, run[0]) && CanRun(Do(s, run[0]), run[1..]))
  }

  function After(s: State, run: seq<Action>): State
    requires CanRun(s, run)
    decreases |run|
  {
    if run == [] then s else After(Do(s, run[0]), run[1..])
  }

  ghost predicate NoEmpties(values: seq<string>) { forall k :: 0 <= k < |values| ==> values[k] != "" }

  // Conservation, slice by slice and in order; and nothing without empty strings
  // is popped without being delivered.
  ghost predicate Conserved(s: State) {
    && Shape(s)
    && (forall i :: 0 <= i < |s.slices| ==> s.pushed[i] == s.popped[i] + s.slices[i])
    && (forall i :: 0 <= i < |s.slices| && NoEmpties(s.pushed[i]) ==> s.delivered[i] == s.popped[i])
  }

  ghost predicate SearchSound(pc: Client, n: nat)
    requires n > 0
  {
    match pc
    case Pushing(i, values) => i < n && values != []
    case Probing(start, last, _, seen) =>
      start < n && |seen| < n && last == (start + |seen|) % n
      && forall k :: 0 <= k < |seen| ==> seen[k] == ProbeSlice(start, n, k)
    case Empty(start, seen) =>
      start < n && |seen| == n && forall k :: 0 <= k < n ==> seen[k] == ProbeSlice(start, n, k)
    case _ => true
  }

  ghost predicate Inv(s: State) {
    && Conserved(s)
    && forall c :: 0 <= c < |s.clients| ==> SearchSound(s.clients[c], |s.slices|)
  }

  lemma ProbeConserves(s: State, a: Action)
    requires Inv(s) && Enabled(s, a) && a.Probe?
    ensures Conserved(Do(s, a))
  {
    var s', i := Do(s, a), Target(s, a.c);
    var values := Taken(s.slices[i], s.clients[a.c].batch);
    assert s.slices[i] == values + s.slices[i][|values|..];
    assert s'.pushed[i] == s'.popped[i] + s'.slices[i];
    if NoEmpties(s.pushed[i]) && values != [] {
      assert values[0] == s.pushed[i][|s.popped[i]|];
    }
    assert s.popped[i] + [] == s.popped[i];
    forall j | 0 <= j < |s'.slices| && NoEmpties(s'.pushed[j])
      ensures s'.delivered[j] == s'.popped[j]
    {
      assert s.delivered[j] == s.popped[j];
    }
  }

  lemma ProbeSearches(s: State, a: Action)
    requires Inv(s) && Enabled(s, a) && a.Probe?
    ensures SearchSound(Do(s, a).clients[a.c], |s.slices|)
  {
    var pc, n := s.clients[a.c], |s.slices|;
    ModStep(pc.start + |pc.seen|, n);
    RotationEnds(pc.start, n, |pc.seen|);
  }

  lemma PushConserves(s: State, a: Action)
    requires Inv(s) && Enabled(s, a) && a.Push?
    ensures Conserved(Do(s, a))
  {
    var s', i, values := Do(s, a), s.clients[a.c].slice, s.clients[a.c].values;
    assert s.popped[i] + (s.slices[i] + values) == (s.popped[i] + s.slices[i]) + values;
    forall j | 0 <= j < |s'.slices| && NoEmpties(s'.pushed[j])
      ensures s'.delivered[j] == s'.popped[j]
    {
      assert forall k :: 0 <= k < |s.pushed[j]| ==> s.pushed[j][k] == s'.pushed[j][k];
      assert NoEmpties(s.pushed[j]);
    }
  }

  lemma StepInv(s: State, a: Action)
    requires Inv(s) && Enabled(s, a)
    ensures Inv(Do(s, a))
  {
    if a.Probe? {
      ProbeConserves(s, a);
      ProbeSearches(s, a);
    } else if a.Push? {
      PushConserves(s, a);
    } else if a.BeginPop? {
      DivModIs(SliceOf(s.pops, |s.slices|), |s.slices|, 0, SliceOf(s.pops, |s.slices|));
    }
  }

  lemma {:induction false} RunInv(s: State, run: seq<Action>)
    requires Inv(s) && CanRun(s, run)
    ensures Inv(After(s, run)) && |After(s, run).slices| == |s.slices| && |After(s, run).clients| == |s.clients|
    decreases |run|
  {
    if run != [] {
      StepInv(s, run[0]);
      RunInv(Do(s, run[0]), run[1..]);
    }
  }

  // Per-slice FIFO and conservation for every interleaving: what was pushed to a
  // slice is what was popped from it, in order, followed by what it still stores;
  // with no empty string among it, all that was popped reached a consumer.
  lemma SliceIsFifo(n: nat, clients: nat, run: seq<Action>, i: nat)
    requires i < n && CanRun(Init(n, clients), run)
    ensures var s := After(Init(n, clients), run);
            && |s.slices| == |s.pushed| == |s.popped| == |s.delivered| == n
            && s.pushed[i] == s.popped[i] + s.slices[i]
            && (NoEmpties(s.pushed[i]) ==> s.pushed[i] == s.delivered[i] + s.slices[i])
  {
    RunInv(Init(n, clients), run);
  }

  // ------------------------------------------------------ what "empty" stands for

  predicate Begins(a: Action, c: nat) { a.BeginPop? && a.c == c }

  // Step k of the run is a probe of slice i in the latest search of client c.
  ghost predicate ProbesAt(s: State, run: seq<Action>, c: nat, i: nat, k: nat)
    requires CanRun(s, run)
  {
    && k < |run| && run[k] == Probe(c)
    && (forall j :: k < j < |run| ==> !Begins(run[j], c))
    && CanRun(s, run[..k])
    && var s1 := After(s, run[..k]);
       Enabled(s1, Probe(c)) && Target(s1, c) == i
  }

  // What such a probe finds when it finds nothing: listlpop cannot tell an empty
  // string from an empty slice.
  predicate FindsNothing(s: State, c: nat)
    requires Enabled(s, Probe(c))
  {
    var list := s.slices[Target(s, c)];
    list == [] || (s.clients[c].batch == 0 && list[0] == "")
  }

  lemma ProbesLater(s: State, run: seq<Action>, c: nat, i: nat, k: nat)
    requires CanRun(s, run) && run != [] && 0 < k <= |run|
    requires CanRun(Do(s, run[0]), run[1..])
    ensures CanRun(Do(s, run[0]), run[1..][..k - 1]) <==> CanRun(s, run[..k])
    ensures CanRun(s, run[..k]) ==> After(s, run[..k]) == After(Do(s, run[0]), run[1..][..k - 1])
    ensures ProbesAt(s, run, c, i, k) <==> ProbesAt(Do(s, run[0]), run[1..], c, i, k - 1)
  {
    assert run[..k][1..] == run[1..][..k - 1];
    assert forall j :: 0 <= j < |run[1..]| ==> run[1..][j] == run[j + 1];
    assert forall j :: 0 < j < |run| ==> run[j] == run[1..][j - 1];
  }

  ghost predicate HasSeen(s: State, c: nat, i: nat) {
    c < |s.clients| && (s.clients[c].Probing? || s.clients[c].Empty?) && i in s.clients[c].seen
  }

  lemma SeenStep(s: State, a: Action, c: nat, i: nat)
    requires Enabled(s, a) && HasSeen(Do(s, a), c, i)
    ensures (HasSeen(s, c, i) && !Begins(a, c))
            || (a == Probe(c) && Target(s, c) == i && FindsNothing(s, c))
  {
  }

  // The slices seen by client c at the end were seen in its present search: before
  // the run began, or by a probe in the run that found nothing.
  lemma {:induction false} SeenBefore(s: State, run: seq<Action>, c: nat, i: nat) returns (k: nat)
    requires CanRun(s, run) && HasSeen(After(s, run), c, i)
    ensures (HasSeen(s, c, i) && forall j :: 0 <= j < |run| ==> !Begins(run[j], c))
            || (ProbesAt(s, run, c, i, k) && FindsNothing(After(s, run[..k]), c))
    decreases |run|
  {
    k := 0;
    if run != [] {
      var s1, rest := Do(s, run[0]), run[1..];
      k := SeenBefore(s1, rest, c, i);
      if ProbesAt(s1, rest, c, i, k) && FindsNothing(After(s1, rest[..k]), c) {
        k := k + 1;
        ProbesLater(s, run, c, i, k);
      } else {
        assert forall j :: 0 < j < |run| ==> run[j] == rest[j - 1];
        SeenStep(s, run[0], c, i);
        k := 0;
      }
    }
  }

  lemma TargetUnseen(pc: Client, n: nat)
    requires n > 0 && pc.Probing? && SearchSound(pc, n)
    ensures (pc.last + 1) % n !in pc.seen
  {
    ModStep(pc.start + |pc.seen|, n);
    var i := ProbeSlice(pc.start, n, |pc.seen|);
    var at := EverySliceOnce(pc.start, n, i);
    assert at == |pc.seen|;
  }

  // One not seen after a step was not seen before it, in the same search.
  lemma StillUnseen(s: State, a: Action, c: nat, i: nat)
    requires Enabled(s, a) && !Begins(a, c) && c < |s.clients|
    requires var pc := Do(s, a).clients[c]; pc.Probing? && i !in pc.seen
    ensures s.clients[c].Probing? && i !in s.clients[c].seen
  {
  }

  lemma ProbeSees(s: State, c: nat)
    requires Enabled(s, Probe(c))
    ensures var pc := Do(s, Probe(c)).clients[c]; pc.Probing? ==> Target(s, c) in pc.seen
  {
  }

  // A slice once seen is not probed again in the same search.
  lemma {:induction false} NotProbedAgain(s: State, run: seq<Action>, c: nat, i: nat, k: nat)
    requires Inv(s) && CanRun(s, run) && c < |s.clients| && ProbesAt(s, run, c, i, k)
    requires forall j :: 0 <= j < |run| ==> !Begins(run[j], c)
    ensures s.clients[c].Probing? && i !in s.clients[c].seen
    decreases |run|
  {
    if k == 0 {
      TargetUnseen(s.clients[c], |s.slices|);
    } else {
      ProbesLater(s, run, c, i, k);
      StepInv(s, run[0]);
      assert forall j :: 0 <= j < |run[1..]| ==> run[1..][j] == run[j + 1];
      NotProbedAgain(Do(s, run[0]), run[1..], c, i, k - 1);
      StillUnseen(s, run[0], c, i);
    }
  }

  // The slice probed first is not probed again.
  lemma ProbedFirst(s: State, run: seq<Action>, c: nat, i: nat, k: nat)
    requires Inv(s) && CanRun(s, run) && c < |s.clients|
    requires ProbesAt(s, run, c, i, 0) && k > 0
    ensures !ProbesAt(s, run, c, i, k)
  {
    if ProbesAt(s, run, c, i, k) {
      StepInv(s, run[0]);
      ProbesLater(s, run, c, i, k);
      assert forall j :: 0 <= j < |run[1..]| ==> run[1..][j] == run[j + 1];
      ProbeSees(s, c);
      NotProbedAgain(Do(s, run[0]), run[1..], c, i, k - 1);
      assert false;
    }
  }

  lemma {:induction false} ProbedOnce(s: State, run: seq<Action>, c: nat, i: nat, k: nat, k': nat)
    requires Inv(s) && CanRun(s, run) && c < |s.clients|
    requires ProbesAt(s, run, c, i, k) && ProbesAt(s, run, c, i, k') && k <= k'
    ensures k == k'
    decreases |run|
  {
    if k < k' {
      StepInv(s, run[0]);
      ProbesLater(s, run, c, i, k');
      if k == 0 {
        ProbedFirst(s, run, c, i, k');
        assert false;
      } else {
        ProbesLater(s, run, c, i, k);
        ProbedOnce(Do(s, run[0]), run[1..], c, i, k - 1, k' - 1);
      }
    }
  }

  lemma AllSeenFrom(s: State, run: seq<Action>, c: nat, i: nat) returns (k: nat)
    requires Inv(s) && i < |s.slices| && CanRun(s, run) && c < |s.clients| && s.clients[c].Idle?
    requires c < |After(s, run).clients| && After(s, run).clients[c].Empty?
    ensures ProbesAt(s, run, c, i, k) && FindsNothing(After(s, run[..k]), c)
    ensures forall k': nat :: ProbesAt(s, run, c, i, k') ==> k' == k
  {
    RunInv(s, run);
    var pc := After(s, run).clients[c];
    var at := EverySliceOnce(pc.start, |s.slices|, i);
    assert pc.seen[at] == i;
    k := SeenBefore(s, run, c, i);
    forall k': nat | ProbesAt(s, run, c, i, k')
      ensures k' == k
    {
      if k' < k {
        ProbedOnce(s, run, c, i, k', k);
      } else {
        ProbedOnce(s, run, c, i, k, k');
      }
    }
  }

  // A search that reports an empty list has, since its call, probed every slice
  // exactly once, each at a moment when nothing was in it.
  lemma EmptyMeansAllSeen(n: nat, clients: nat, run: seq<Action>, c: nat, i: nat) returns (k: nat)
    requires i < n && CanRun(Init(n, clients), run)
    requires c < |After(Init(n, clients), run).clients| && After(Init(n, clients), run).clients[c].Empty?
    ensures ProbesAt(Init(n, clients), run, c, i, k)
    ensures FindsNothing(After(Init(n, clients), run[..k]), c)
    ensures forall k': nat :: ProbesAt(Init(n, clients), run, c, i, k') ==> k' == k
  {
    RunInv(Init(n, clients), run);
    k := AllSeenFrom(Init(n, clients), run, c, i);
  }

  // -------------------------------------------------------------- what gets lost

  // Probe a pops an empty string and takes it for an empty slice.
  predicate Loses(s: State, a: Action, i: nat)
    requires Enabled(s, a)
  {
    a.Probe? && s.clients[a.c].batch == 0 && Target(s, a.c) == i && s.slices[i] != [] && s.slices[i][0] == ""
  }

  function Losses(s: State, run: seq<Action>, i: nat): nat
    requires CanRun(s, run)
    decreases |run|
  {
    if run == [] then 0 else (if Loses(s, run[0], i) then 1 else 0) + Losses(Do(s, run[0]), run[1..], i)
  }

  // The elements of a list without the empty ones.
  function Filled(values: seq<string>): seq<string> {
    if values == [] then []
    else Filled(values[..|values| - 1]) + (if values[|values| - 1] == "" then [] else [values[|values| - 1]])
  }

  lemma {:induction false} FilledConcat(a: seq<string>, b: seq<string>)
    ensures Filled(a + b) == Filled(a) + Filled(b)
    decreases |b|
  {
    if b == [] {
      assert a + b == a;
    } else {
      var b' := b[..|b| - 1];
      assert (a + b)[..|a + b| - 1] == a + b';
      FilledConcat(a, b');
    }
  }

  // How a step moves slice i away from what was delivered of it.
  ghost predicate LossCounted(s: State, a: Action, i: nat)
    requires Enabled(s, a) && i < |s.slices|
  {
    var s' := Do(s, a);
    && |s'.popped[i]| - |s'.delivered[i]| == |s.popped[i]| - |s.delivered[i]| + (if Loses(s, a, i) then 1 else 0)
    && (!Loses(s, a, i) && s.popped[i] == s.delivered[i] ==> s'.popped[i] == s'.delivered[i])
    && (Filled(s.popped[i]) == Filled(s.delivered[i]) ==> Filled(s'.popped[i]) == Filled(s'.delivered[i]))
  }

  lemma ProbeMoves(s: State, a: Action)
    requires Enabled(s, a) && a.Probe?
    ensures var s', i := Do(s, a), Target(s, a.c);
            var values := Taken(s.slices[i], s.clients[a.c].batch);
            && s'.popped[i] == s.popped[i] + values
            && s'.delivered[i] ==
               (if Ends(values, s.clients[a.c].batch) then s.delivered[i] + values else s.delivered[i])
            && (if Ends(values, s.clients[a.c].batch) then !Loses(s, a, i)
                else values == if Loses(s, a, i) then [""] else [])
  {
  }

  lemma ProbeLoses(s: State, a: Action)
    requires Enabled(s, a) && a.Probe?
    ensures LossCounted(s, a, Target(s, a.c))
  {
    var i := Target(s, a.c);
    var values := Taken(s.slices[i], s.clients[a.c].batch);
    ProbeMoves(s, a);
    FilledConcat(s.popped[i], values);
    FilledConcat(s.delivered[i], values);
    assert Filled([""]) == [];
  }

  lemma StepLoses(s: State, a: Action, i: nat)
    requires Enabled(s, a) && i < |s.slices|
    ensures LossCounted(s, a, i)
  {
    if a.Probe? && Target(s, a.c) == i {
      ProbeLoses(s, a);
    } else {
      assert Do(s, a).popped[i] == s.popped[i] && Do(s, a).delivered[i] == s.delivered[i];
    }
  }

  lemma {:induction false} RunLoses(s: State, run: seq<Action>, i: nat)
    requires Shape(s) && CanRun(s, run) && i < |s.slices|
    requires Filled(s.popped[i]) == Filled(s.delivered[i])
    ensures var s' := After(s, run);
            && |s'.slices| == |s'.popped| == |s'.delivered| == |s.slices|
            && |s'.popped[i]| - |s'.delivered[i]| == |s.popped[i]| - |s.delivered[i]| + Losses(s, run, i)
            && (s.popped[i] == s.delivered[i] && Losses(s, run, i) == 0 ==> s'.popped[i] == s'.delivered[i])
            && Filled(s'.popped[i]) == Filled(s'.delivered[i])
    decreases |run|
  {
    if run != [] {
      StepLoses(s, run[0], i);
      RunLoses(Do(s, run[0]), run[1..], i);
    }
  }

  // What is lost, exactly: one element for each listlpop probe that finds the
  // slice headed by an empty string, and never one that is not empty. So the
  // slice is a FIFO between its producers and consumers, whole and in order, if
  // and only if the run has no such probe.
  lemma LostExactly(n: nat, clients: nat, run: seq<Action>, i: nat)
    requires i < n && CanRun(Init(n, clients), run)
    ensures var s, lost := After(Init(n, clients), run), Losses(Init(n, clients), run, i);
            && |s.slices| == |s.pushed| == |s.popped| == |s.delivered| == n
            && |s.pushed[i]| == |s.delivered[i]| + lost + |s.slices[i]|
            && Filled(s.popped[i]) == Filled(s.delivered[i])
            && (s.popped[i] == s.delivered[i] <==> lost == 0)
            && (s.pushed[i] == s.delivered[i] + s.slices[i] <==> lost == 0)
  {
    RunInv(Init(n, clients), run);
    RunLoses(Init(n, clients), run, i);
  }

  // It happens: one client pushes an empty string, another pops it with listlpop
  // and is told that the list is empty.
  lemma EmptyStringLost() returns (run: seq<Action>)
    ensures CanRun(Init(1, 2), run)
    ensures var s := After(Init(1, 2), run);
            |s.slices| == |s.pushed| == |s.delivered| == 1 && |s.clients| == 2
            && s.slices[0] == [] && s.pushed[0] == [""] && s.delivered[0] == [] && s.clients[1].Empty?
  {
    var a0, a1, a2, a3 := BeginPush(0, [""]), Push(0), BeginPop(1, 0), Probe(1);
    var s0 := Init(1, 2);
    var s1 := Do(s0, a0);
    var s2 := Do(s1, a1);
    assert s2.slices[0] == [""] && s2.pushed[0] == [""];
    var s3 := Do(s2, a2);
    assert Taken(s3.slices[0], 0) == [""];
    var s4 := Do(s3, a3);
    RunPrepend(s3, a3, []);
    RunPrepend(s2, a2, [a3] + []);
    RunPrepend(s1, a1, [a2] + ([a3] + []));
    RunPrepend(s0, a0, [a1] + ([a2] + ([a3] + [])));
    run := [a0] + ([a1] + ([a2] + ([a3] + [])));
  }

  lemma RunPrepend(s: State, a: Action, run: seq<Action>)
    requires Enabled(s, a) && CanRun(Do(s, a), run)
    ensures CanRun(s, [a] + run) && After(s, [a] + run) == After(Do(s, a), run)
  {
  }
}
