/**
 The descriptor table of the threaded epoll engine (events_epoll_thr.c,
 events_fdtable.c, and event_thr_prepare and event_thr_fire of events.c): an array
 of the enabled entries, each of which knows its index, beside the interest set of
 the kernel. A stream is named by its socket number, and so is its entry.
 */
module FdTable {

  import opened Collections

  // ------------------------------------------------------------------ the records

  // The bits of `flag` and of `event_type`.
  datatype Flags = Flags(read: bool, write: bool, expt: bool, fire: bool)

  datatype Events = Events(read: bool, accept: bool, write: bool, connect: bool, xcpt: bool, timeout: bool)

  const NO_FLAGS := Flags(false, false, false, false)
  const NO_EVENTS := Events(false, false, false, false, false, false)

  datatype Handler = NoHandler | Handler(callback: nat, context: nat)

  // ACL_EVENT_FDTABLE; `attached` says that its stream pointer is set.
  datatype Entry = Entry(
    attached: bool, listener: bool, flag: Flags, eventType: Events, reader: Handler, writer: Handler,
    rTtl: int, rTimeout: int, wTtl: int, wTimeout: int, fdidx: int)
  {
    predicate On() { flag.read || flag.write }

    predicate Watched() { On() && !flag.fire }

    // An enabled entry waits for one direction and has the handler of that one.
    ghost predicate Sound() {
      && attached && flag.read != flag.write && (flag.fire ==> flag.read)
      && (flag.read ==> reader.Handler? && writer == NoHandler)
      && (flag.write ==> writer.Handler? && reader == NoHandler && !listener)
      && (eventType.read || eventType.accept ==> flag.read)
      && (eventType.write || eventType.connect ==> flag.write)
    }
  }

  // An entry just allocated, or reset.
  const CLEAN := Entry(false, false, NO_FLAGS, NO_EVENTS, NoHandler, NoHandler, 0, 0, 0, 0, -1)

  // `fdp` is null until the stream is first enabled.
  datatype Stream = Stream(fdp: Option<Entry>, nrefer: int, buffered: nat, readReady: bool, bad: bool) {
    function Held(): Entry { if fdp.Some? then fdp.value else CLEAN }

    function With(e: Entry): Stream { this.(fdp := Some(e)) }
  }

  // The table in use, the streams by socket, the interest set and the ready list.
  datatype State = State(table: seq<nat>, streams: seq<Stream>, kernel: set<nat>, present: int, ready: seq<nat>)

  // -------------------------------------------------------------- the operations

  function Micros(timeout: int): int { if timeout > 0 then timeout * 1000000 else 0 }

  function Deadline(timeout: int, present: int): int { if timeout > 0 then present + timeout * 1000000 else 0 }

  function ForRead(e: Entry, listener: bool, timeout: int, h: Handler, present: int): Entry {
    e.(attached := true, listener := listener, reader := h,
       rTimeout := Micros(timeout), rTtl := Deadline(timeout, present))
  }

  function ForWrite(e: Entry, timeout: int, h: Handler, present: int): Entry {
    e.(attached := true, listener := false, writer := h,
       wTimeout := Micros(timeout), wTtl := Deadline(timeout, present))
  }

  // Stream n, off so far, is enabled with entry e: it goes to the end of the table.
  function Enlist(st: State, n: nat, e: Entry, flag: Flags): State
    requires n < |st.streams|
  {
    var s := st.streams[n];
    st.(table := st.table + [n],
        streams := st.streams[n := s.With(e.(flag := flag, fdidx := |st.table|)).(nrefer := s.nrefer + 1)],
        kernel := if flag.fire then st.kernel else st.kernel + {n})
  }

  // There is something to read, or an error to report, without asking the kernel.
  predicate Pending(s: Stream) { s.buffered > 0 || s.readReady || s.bad }

  // A stream enabled in the other direction makes the program panic, and the
  // state no longer matters.
  function ReadEnabled(st: State, n: nat, timeout: int, h: Handler): State
    requires n < |st.streams|
  {
    var s := st.streams[n];
    var e := ForRead(s.Held(), false, timeout, h, st.present);
    if s.Held().flag.write then st
    else if s.Held().flag.read then st.(streams := st.streams[n := s.With(e)])
    else Enlist(st, n, e, Flags(true, false, true, Pending(s)))
  }

  function ListenEnabled(st: State, n: nat, timeout: int, h: Handler): State
    requires n < |st.streams|
  {
    var s := st.streams[n];
    var e := ForRead(s.Held(), true, timeout, h, st.present);
    if s.Held().flag.write then st
    else if s.Held().flag.read then st.(streams := st.streams[n := s.With(e)])
    else Enlist(st, n, e, Flags(true, false, true, false))
  }

  function WriteEnabled(st: State, n: nat, timeout: int, h: Handler): State
    requires n < |st.streams|
  {
    var s := st.streams[n];
    var e := ForWrite(s.Held(), timeout, h, st.present);
    if s.Held().flag.read then st
    else if s.Held().flag.write then st.(streams := st.streams[n := s.With(e)])
    else Enlist(st, n, e, Flags(false, true, true, false))
  }

  // What removing position i by moving the last element there leaves.
  function SwapRemove<T>(table: seq<T>, i: nat): seq<T>
    requires i < |table|
  {
    if i < |table| - 1 then table[..|table| - 1][i := table[|table| - 1]] else table[..|table| - 1]
  }

  function Moved(streams: seq<Stream>, table: seq<nat>, i: nat): seq<Stream>
    requires i < |table| && table[|table| - 1] < |streams|
  {
    var m := table[|table| - 1];
    streams[m := streams[m].With(streams[m].Held().(fdidx := i))]
  }

  function Disabled(st: State, n: nat): State
    requires Coherent(st) && n < |st.streams|
  {
    var e := st.streams[n].Held();
    if !e.On() then st
    else
      assert Placed(st, n) && InTable(st, |st.table| - 1);
      var streams := Moved(st.streams, st.table, e.fdidx);
      st.(table := SwapRemove(st.table, e.fdidx),
          streams := streams[n := st.streams[n].With(CLEAN).(nrefer := st.streams[n].nrefer - 1)],
          kernel := st.kernel - {n})
  }

  // ------------------------------------------------------------------- coherence

  ghost predicate InTable(st: State, i: int)
    requires 0 <= i < |st.table|
  {
    && st.table[i] < |st.streams|
    && st.streams[st.table[i]].Held().On()
    && st.streams[st.table[i]].Held().fdidx == i
  }

  ghost predicate Placed(st: State, n: int)
    requires 0 <= n < |st.streams|
  {
    var e := st.streams[n].Held();
    && (n in st.kernel <==> e.Watched())
    && if e.On() then e.Sound() && 0 <= e.fdidx < |st.table| && st.table[e.fdidx] == n else e == CLEAN
  }

  // The table holds exactly the enabled entries, each at its index, and the
  // interest set those of them without the FIRE flag.
  ghost predicate Coherent(st: State) {
    && (forall i {:trigger st.table[i]} :: 0 <= i < |st.table| ==> InTable(st, i))
    && (forall n :: 0 <= n < |st.streams| ==> Placed(st, n))
    && (forall n :: n in st.kernel ==> n < |st.streams|)
    && (forall i :: 0 <= i < |st.ready| ==> st.ready[i] < |st.streams|)
  }

  lemma EnlistCoherent(st: State, n: nat, e: Entry, flag: Flags)
    requires Coherent(st) && n < |st.streams| && !st.streams[n].Held().On()
    requires flag.read || flag.write
    requires e.(flag := flag).Sound()
    ensures Coherent(Enlist(st, n, e, flag)) && n !in st.kernel
  {
    var after := Enlist(st, n, e, flag);
    assert Placed(st, n);
    forall i | 0 <= i < |after.table| ensures InTable(after, i) {
      if i < |st.table| {
        assert InTable(st, i);
      }
    }
    forall k | 0 <= k < |after.streams| ensures Placed(after, k) {
      assert Placed(st, k);
    }
  }

  lemma DisabledPlaced(st: State, n: nat)
    requires Coherent(st) && n < |st.streams| && st.streams[n].Held().On()
    ensures |Disabled(st, n).streams| == |st.streams|
    ensures forall k :: 0 <= k < |st.streams| ==> Placed(Disabled(st, n), k)
  {
    var after := Disabled(st, n);
    assert Placed(st, n) && InTable(st, |st.table| - 1);
    forall k | 0 <= k < |after.streams| ensures Placed(after, k) {
      assert Placed(st, k);
    }
  }

  // Nothing is moved when the entry is the last of the table.
  lemma DisabledStreams(st: State, n: nat)
    requires Coherent(st) && n < |st.streams| && st.streams[n].Held().On()
    ensures Placed(st, n) && InTable(st, |st.table| - 1)
    ensures var i := st.streams[n].Held().fdidx;
            var others := if i < |st.table| - 1 then Moved(st.streams, st.table, i) else st.streams;
            Disabled(st, n).streams == others[n := st.streams[n].With(CLEAN).(nrefer := st.streams[n].nrefer - 1)]
  {
    assert Placed(st, n) && InTable(st, |st.table| - 1);
  }

  lemma DisableCoherent(st: State, n: nat)
    requires Coherent(st) && n < |st.streams|
    ensures Coherent(Disabled(st, n)) && |Disabled(st, n).streams| == |st.streams|
    ensures Disabled(st, n).streams[n].Held() == CLEAN
    ensures forall k :: 0 <= k < |st.streams| && k != n ==>
              Disabled(st, n).streams[k].Held().eventType == st.streams[k].Held().eventType
    ensures forall k :: 0 <= k < |st.streams| ==> Refs(Disabled(st, n).streams[k]) == Refs(st.streams[k])
  {
    var after := Disabled(st, n);
    assert Placed(st, n);
    if st.streams[n].Held().On() {
      assert InTable(st, |st.table| - 1);
      forall i | 0 <= i < |after.table| ensures InTable(after, i) {
        assert InTable(st, i);
      }
      DisabledPlaced(st, n);
    }
  }

  // -------------------------------------------------------------- one event loop

  // event_thr_prepare on one entry of the table: the stream afterwards, and whether
  // it is put on the ready list.
  function Prepared(s: Stream, present: int): (Stream, bool) {
    var e := s.Held().(eventType := NO_EVENTS);
    var reading := s.With(e.(eventType := NO_EVENTS.(read := true)));
    var late := s.With(e.(eventType := NO_EVENTS.(timeout := true)));
    if e.listener then (s.With(e), false)
    else if s.bad then (s.With(e.(eventType := NO_EVENTS.(xcpt := true))).(bad := false), true)
    else if e.flag.read && s.readReady then (reading, true)
    else if e.flag.read && s.buffered > 0 then (reading.(readReady := false), true)
    else if e.flag.read && e.rTtl > 0 && present > e.rTtl then (late, true)
    else if e.flag.read then (s.With(e), false)
    else if e.flag.write && e.wTtl > 0 && present > e.wTtl then (late, true)
    else (s.With(e), false)
  }

  // Which streams would be put on the ready list, by socket.
  function Picks(st: State): seq<bool> {
    seq(|st.streams|, n requires 0 <= n < |st.streams| => Prepared(st.streams[n], st.present).1)
  }

  ghost predicate Below(table: seq<nat>, n: nat) { forall i :: 0 <= i < |table| ==> table[i] < n }

  // Those of the sockets whose pick is `want`, in order.
  function Sift(table: seq<nat>, picks: seq<bool>, want: bool): seq<nat>
    requires Below(table, |picks|)
  {
    if table == [] then []
    else
      var n := table[|table| - 1];
      Sift(table[..|table| - 1], picks, want) + if picks[n] == want then [n] else []
  }

  function Prepare(st: State): State
    requires Below(st.table, |st.streams|)
  {
    st.(streams := seq(|st.streams|, n requires 0 <= n < |st.streams| =>
          if n in st.table then Prepared(st.streams[n], st.present).0 else st.streams[n]),
        ready := st.ready + Sift(st.table, Picks(st), true))
  }

  // What the kernel reports about one socket.
  datatype Report = Report(sock: nat, incoming: bool, outgoing: bool, failed: bool)

  // The kernel reports what it was asked to watch.
  predicate ReportOk(st: State, r: Report) {
    && r.sock < |st.streams| && r.sock in st.kernel
    && (r.incoming ==> st.streams[r.sock].Held().flag.read)
    && (r.outgoing ==> st.streams[r.sock].Held().flag.write)
  }

  // One turn of the loop over the reports of epoll_wait.
  function Reported(st: State, r: Report): State
    requires r.sock < |st.streams|
  {
    var s, e := st.streams[r.sock], st.streams[r.sock].Held();
    if e.eventType.xcpt || e.eventType.timeout then st
    else if r.incoming then
      var events := e.eventType.(read := true, accept := e.eventType.accept || e.listener);
      st.(streams := st.streams[r.sock := s.With(e.(eventType := events)).(readReady := true)],
          ready := if e.eventType.read then st.ready else st.ready + [r.sock])
    else if r.outgoing then
      st.(streams := st.streams[r.sock := s.With(e.(eventType := e.eventType.(write := true)))],
          ready := st.ready + [r.sock])
    else if r.failed then
      st.(streams := st.streams[r.sock := s.With(e.(eventType := e.eventType.(xcpt := true)))],
          ready := st.ready + [r.sock])
    else st
  }

  datatype Kind = KindRead | KindWrite | KindTimeout | KindXcpt

  // A callback made: `listening` says that the stream was a listener then.
  datatype Call = Call(sock: nat, kind: Kind, handler: Handler, listening: bool)

  function Reached(e: Entry): Handler { if e.reader.Handler? then e.reader else e.writer }

  // The callback that event_thr_fire chooses, and the event bits it clears.
  function Dispatch(e: Entry): Option<(Kind, Handler, Events)> {
    if e.eventType.read || e.eventType.accept then
      Some((KindRead, e.reader, e.eventType.(read := false, accept := false)))
    else if e.eventType.write || e.eventType.connect then
      Some((KindWrite, e.writer, e.eventType.(write := false, connect := false)))
    else if e.eventType.timeout then Some((KindTimeout, Reached(e), e.eventType.(timeout := false)))
    else if e.eventType.xcpt then Some((KindXcpt, Reached(e), e.eventType.(xcpt := false)))
    else None
  }

  // One turn of event_thr_fire up to the callback: a stream that is not a listener
  // is disabled first.
  function FireOne(st: State, n: nat): (State, seq<Call>)
    requires Coherent(st) && n < |st.streams|
  {
    var s, e := st.streams[n], st.streams[n].Held();
    if !e.attached then (st, [])
    else match Dispatch(e)
      case None => (st, [])
      case Some((kind, handler, events)) =>
        var calls := if handler.Handler? then [Call(n, kind, handler, e.listener)] else [];
        if e.listener
        then (st.(streams := st.streams[n := s.With(e.(eventType := events))]), calls)
        else (Disabled(st, n), calls)
  }

  predicate HasKind(e: Events, kind: Kind) {
    match kind
    case KindRead => e.read || e.accept
    case KindWrite => e.write || e.connect
    case KindTimeout => e.timeout
    case KindXcpt => e.xcpt
  }

  // The references that others hold on a stream.
  function Refs(s: Stream): int { s.nrefer - if s.Held().On() then 1 else 0 }

  // What a callback may do: enable and disable streams, and move data.
  datatype Op =
    | OpRead(n: nat, timeout: int, h: Handler)
    | OpListen(n: nat, timeout: int, h: Handler)
    | OpWrite(n: nat, timeout: int, h: Handler)
    | OpDisable(n: nat)
    | OpData(n: nat, buffered: nat, readReady: bool, bad: bool)

  ghost predicate OpOk(st: State, op: Op) {
    op.n < |st.streams| && (op.OpRead? || op.OpListen? || op.OpWrite? ==> op.h.Handler?)
  }

  function DoOp(st: State, op: Op): State
    requires Coherent(st) && op.n < |st.streams|
  {
    match op
    case OpRead(n, timeout, h) => ReadEnabled(st, n, timeout, h)
    case OpListen(n, timeout, h) => ListenEnabled(st, n, timeout, h)
    case OpWrite(n, timeout, h) => WriteEnabled(st, n, timeout, h)
    case OpDisable(n) => Disabled(st, n)
    case OpData(n, buffered, readReady, bad) =>
      st.(streams := st.streams[n := st.streams[n].(buffered := buffered, readReady := readReady, bad := bad)])
  }

  lemma OpCoherent(st: State, op: Op)
    requires Coherent(st) && OpOk(st, op)
    ensures Coherent(DoOp(st, op)) && |DoOp(st, op).streams| == |st.streams|
    ensures DoOp(st, op).ready == st.ready
    ensures forall k :: 0 <= k < |st.streams| ==>
              var f := DoOp(st, op).streams[k].Held();
              f.eventType == st.streams[k].Held().eventType || f.eventType == NO_EVENTS
    ensures forall k :: 0 <= k < |st.streams| ==> Refs(DoOp(st, op).streams[k]) == Refs(st.streams[k])
  {
    var s, after := st.streams[op.n], DoOp(st, op);
    assert Placed(st, op.n);
    match op {
      case OpRead(n, timeout, h) =>
        if !s.Held().On() {
          EnlistCoherent(st, n, ForRead(s.Held(), false, timeout, h, st.present), Flags(true, false, true, Pending(s)));
        } else {
          SteadyCoherent(st, after);
        }
      case OpListen(n, timeout, h) =>
        if !s.Held().On() {
          EnlistCoherent(st, n, ForRead(s.Held(), true, timeout, h, st.present), Flags(true, false, true, false));
        } else {
          SteadyCoherent(st, after);
        }
      case OpWrite(n, timeout, h) =>
        if !s.Held().On() {
          EnlistCoherent(st, n, ForWrite(s.Held(), timeout, h, st.present), Flags(false, true, true, false));
        } else {
          SteadyCoherent(st, after);
        }
      case OpDisable(n) => DisableCoherent(st, n);
      case OpData(n, buffered, readReady, bad) => SteadyCoherent(st, after);
    }
  }

  // The record of a stream changes, and its flags and index stay.
  ghost predicate Steady(s: Stream, t: Stream) {
    var e, f := s.Held(), t.Held();
    e.flag == f.flag && e.fdidx == f.fdidx && (e.On() && e.Sound() ==> f.Sound()) && (e == CLEAN ==> f == CLEAN)
  }

  lemma SteadyCoherent(st: State, after: State)
    requires Coherent(st) && |after.streams| == |st.streams|
    requires after.table == st.table && after.kernel == st.kernel && Below(after.ready, |st.streams|)
    requires forall k :: 0 <= k < |st.streams| ==> Steady(st.streams[k], after.streams[k])
    ensures Coherent(after)
  {
    forall k | 0 <= k < |after.streams| ensures Placed(after, k) {
      assert Placed(st, k) && Steady(st.streams[k], after.streams[k]);
    }
    forall i | 0 <= i < |after.table| ensures InTable(after, i) {
      assert InTable(st, i) && Steady(st.streams[st.table[i]], after.streams[st.table[i]]);
    }
  }

  // ------------------------------------------------------------- laws of the loop

  lemma InTableOnce(st: State, n: nat)
    requires Coherent(st) && n < |st.streams|
    ensures multiset(st.table)[n] == if st.streams[n].Held().On() then 1 else 0
    ensures n in st.table <==> st.streams[n].Held().On()
  {
    assert Placed(st, n);
    forall i | 0 <= i < |st.table| ensures InTable(st, i) {}
    OnceAtMost(st.table, n);
  }

  lemma {:induction false} OnceAtMost(q: seq<nat>, n: nat)
    requires forall i, j :: 0 <= i < j < |q| ==> q[i] != q[j]
    ensures multiset(q)[n] == if n in q then 1 else 0
    decreases |q|
  {
    if q != [] {
      assert q == [q[0]] + q[1..];
      OnceAtMost(q[1..], n);
    }
  }

  lemma CountLast(q: seq<nat>, x: nat, n: nat)
    ensures multiset(q + [x])[n] == multiset(q)[n] + if x == n then 1 else 0
  {
  }

  lemma SiftLast(front: seq<nat>, x: nat, picks: seq<bool>, want: bool)
    requires Below(front, |picks|) && x < |picks|
    ensures Below(front + [x], |picks|)
    ensures var sifted := Sift(front, picks, want);
            Sift(front + [x], picks, want) == if picks[x] == want then sifted + [x] else sifted
  {
    assert (front + [x])[..|front|] == front;
  }

  lemma {:induction false} SiftIs(table: seq<nat>, picks: seq<bool>, want: bool, n: nat)
    requires Below(table, |picks|) && n < |picks|
    ensures multiset(Sift(table, picks, want))[n] == if picks[n] == want then multiset(table)[n] else 0
    decreases |table|
  {
    if table != [] {
      var front, x := table[..|table| - 1], table[|table| - 1];
      assert table == front + [x];
      SiftIs(front, picks, want, n);
      SiftLast(front, x, picks, want);
      CountLast(front, x, n);
      CountLast(Sift(front, picks, want), x, n);
    }
  }

  lemma {:induction false} SiftBelow(table: seq<nat>, picks: seq<bool>, want: bool)
    requires Below(table, |picks|)
    ensures Below(Sift(table, picks, want), |picks|)
  {
    if table != [] {
      SiftBelow(table[..|table| - 1], picks, want);
    }
  }

  lemma JoinBelow(a: seq<nat>, b: seq<nat>, n: nat)
    requires Below(a, n) && Below(b, n)
    ensures Below(a + b, n)
  {
  }

  lemma {:induction false} SiftSplits(table: seq<nat>, picks: seq<bool>)
    requires Below(table, |picks|)
    ensures |Sift(table, picks, true)| + |Sift(table, picks, false)| == |table|
  {
    if table != [] {
      SiftSplits(table[..|table| - 1], picks);
    }
  }

  // event_thr_prepare treats each enabled entry exactly once: it is put on the
  // ready list, or counted as waiting.
  lemma PreparedOnce(st: State, n: nat)
    requires Coherent(st) && n < |st.streams|
    ensures var on, picked := st.streams[n].Held().On(), Prepared(st.streams[n], st.present).1;
            && multiset(Sift(st.table, Picks(st), true))[n] == (if on && picked then 1 else 0)
            && multiset(Sift(st.table, Picks(st), false))[n] == (if on && !picked then 1 else 0)
    ensures |Sift(st.table, Picks(st), true)| + |Sift(st.table, Picks(st), false)| == |st.table|
  {
    SiftIs(st.table, Picks(st), true, n);
    SiftIs(st.table, Picks(st), false, n);
    SiftSplits(st.table, Picks(st));
    InTableOnce(st, n);
  }

  lemma PreparedSteady(st: State, k: nat)
    requires Coherent(st) && k < |st.streams|
    ensures Steady(st.streams[k], if k in st.table then Prepared(st.streams[k], st.present).0 else st.streams[k])
  {
  }

  lemma PrepareCoherent(st: State)
    requires Coherent(st)
    ensures Coherent(Prepare(st)) && |Prepare(st).streams| == |st.streams|
  {
    var after := Prepare(st);
    forall k | 0 <= k < |st.streams| ensures Steady(st.streams[k], after.streams[k]) {
      PreparedSteady(st, k);
    }
    SiftBelow(st.table, Picks(st), true);
    JoinBelow(st.ready, Sift(st.table, Picks(st), true), |st.streams|);
    SteadyCoherent(st, after);
  }

  lemma ReportCoherent(st: State, r: Report)
    requires Coherent(st) && ReportOk(st, r)
    ensures Coherent(Reported(st, r)) && |Reported(st, r).streams| == |st.streams|
    ensures forall k :: 0 <= k < |st.streams| ==> Refs(Reported(st, r).streams[k]) == Refs(st.streams[k])
  {
    assert Placed(st, r.sock);
    SteadyCoherent(st, Reported(st, r));
  }

  // A turn of event_thr_fire calls back at most once, with the handler registered
  // for the direction that is enabled; a stream that is not a listener is off then.
  lemma FireLaws(st: State, n: nat)
    requires Coherent(st) && n < |st.streams|
    ensures var (after, calls) := FireOne(st, n);
            var e := st.streams[n].Held();
            && Coherent(after) && |after.streams| == |st.streams|
            && (if e.eventType == NO_EVENTS then calls == []
                else exists kind ::
                  && HasKind(e.eventType, kind)
                  && calls == [Call(n, kind, if e.flag.read then e.reader else e.writer, e.listener)]
                  && !HasKind(after.streams[n].Held().eventType, kind)
                  && (!e.listener ==> after.streams[n].Held() == CLEAN && n !in after.table && n !in after.kernel)
                  && (kind.KindRead? ==> e.flag.read) && (kind.KindWrite? ==> e.flag.write))
    ensures forall k :: 0 <= k < |st.streams| ==> Refs(FireOne(st, n).0.streams[k]) == Refs(st.streams[k])
    ensures forall k, kind :: 0 <= k < |st.streams| && !HasKind(st.streams[k].Held().eventType, kind) ==>
              !HasKind(FireOne(st, n).0.streams[k].Held().eventType, kind)
  {
    var (after, calls) := FireOne(st, n);
    var e := st.streams[n].Held();
    assert Placed(st, n);
    DisableCoherent(st, n);
    match Dispatch(e) {
      case None =>
      case Some((kind, handler, events)) =>
        assert HasKind(e.eventType, kind);
        if e.listener {
          SteadyCoherent(st, after);
        } else {
          assert Placed(after, n);
          InTableOnce(after, n);
        }
    }
  }

  // ------------------------------------------------------------------------- runs

  datatype Action =
    | Act(op: Op)
    | Clock(now: int)
    | Begin             // the ready list is emptied
    | Check             // event_thr_prepare
    | Poll(r: Report)   // one report of epoll_wait
    | Turn(i: nat)      // one turn of event_thr_fire

  ghost predicate CanDo(st: State, a: Action) {
    match a
    case Act(op) => OpOk(st, op)
    case Poll(r) => ReportOk(st, r)
    case Turn(i) => i < |st.ready|
    case _ => true
  }

  function Do(st: State, a: Action): State
    requires Coherent(st) && CanDo(st, a)
  {
    match a
    case Act(op) => DoOp(st, op)
    case Clock(now) => st.(present := now)
    case Begin => st.(ready := [])
    case Check => Prepare(st)
    case Poll(r) => Reported(st, r)
    case Turn(i) => FireOne(st, st.ready[i]).0
  }

  function CallsOf(st: State, a: Action): seq<Call>
    requires Coherent(st) && CanDo(st, a)
  {
    if a.Turn? then FireOne(st, st.ready[a.i]).1 else []
  }

  lemma StepCoherent(st: State, a: Action)
    requires Coherent(st) && CanDo(st, a)
    ensures Coherent(Do(st, a)) && |Do(st, a).streams| == |st.streams|
    ensures forall k :: 0 <= k < |st.streams| ==> Refs(Do(st, a).streams[k]) == Refs(st.streams[k])
  {
    match a {
      case Act(op) => OpCoherent(st, op);
      case Clock(now) => SteadyCoherent(st, st.(present := now));
      case Begin => SteadyCoherent(st, st.(ready := []));
      case Check =>
        PrepareCoherent(st);
      case Poll(r) => ReportCoherent(st, r);
      case Turn(i) => FireLaws(st, st.ready[i]);
    }
  }

  ghost predicate CanRun(st: State, run: seq<Action>)
    requires Coherent(st)
    decreases |run|
  {
    run == [] || (CanDo(st, run[0]) && (StepCoherent(st, run[0]); CanRun(Do(st, run[0]), run[1..])))
  }

  function After(st: State, run: seq<Action>): State
    requires Coherent(st) && CanRun(st, run)
    decreases |run|
  {
    if run == [] then st else (StepCoherent(st, run[0]); After(Do(st, run[0]), run[1..]))
  }

  function Calls(st: State, run: seq<Action>): seq<Call>
    requires Coherent(st) && CanRun(st, run)
    decreases |run|
  {
    if run == [] then []
    else (StepCoherent(st, run[0]); CallsOf(st, run[0]) + Calls(Do(st, run[0]), run[1..]))
  }

  ghost predicate NeverEnabled(streams: seq<Stream>) {
    forall n :: 0 <= n < |streams| ==> streams[n].fdp == None
  }

  // A table for streams that were never enabled.
  function Fresh(streams: seq<Stream>, present: int): (st: State)
    requires NeverEnabled(streams)
    ensures Coherent(st)
  {
    State([], streams, {}, present, [])
  }

  // In every reachable state the table holds each enabled stream exactly once, at
  // the index that its entry knows, and nothing else; the interest set is that of
  // the enabled streams without the FIRE flag; and an enabled stream has exactly
  // one reference more than when the run began.
  lemma {:induction false} RunCoherent(st: State, run: seq<Action>)
    requires Coherent(st) && CanRun(st, run)
    ensures Coherent(After(st, run)) && |After(st, run).streams| == |st.streams|
    ensures forall n :: 0 <= n < |st.streams| ==> Refs(After(st, run).streams[n]) == Refs(st.streams[n])
    decreases |run|
  {
    if run != [] {
      StepCoherent(st, run[0]);
      RunCoherent(Do(st, run[0]), run[1..]);
    }
  }

  lemma TableExact(streams: seq<Stream>, present: int, run: seq<Action>, n: nat)
    requires NeverEnabled(streams) && CanRun(Fresh(streams, present), run) && n < |streams|
    ensures var after := After(Fresh(streams, present), run);
            |after.streams| == |streams|
            && var s := after.streams[n];
            && multiset(after.table)[n] == (if s.Held().On() then 1 else 0)
            && (s.Held().On() ==> 0 <= s.Held().fdidx < |after.table| && after.table[s.Held().fdidx] == n)
            && (n in after.kernel <==> s.Held().On() && !s.Held().flag.fire)
            && s.nrefer == streams[n].nrefer + if s.Held().On() then 1 else 0
  {
    RunCoherent(Fresh(streams, present), run);
    var after := After(Fresh(streams, present), run);
    assert Placed(after, n);
    InTableOnce(after, n);
  }

  // ------------------------------------------------------------ at most one call

  // A pass of event_thr_fire: its turns, and what the callbacks do.
  ghost predicate Firing(run: seq<Action>) { forall i :: 0 <= i < |run| ==> run[i].Act? || run[i].Turn? }

  lemma StepSilent(st: State, a: Action, n: nat, kind: Kind)
    requires Coherent(st) && CanDo(st, a) && n < |st.streams| && (a.Act? || a.Turn?)
    requires !HasKind(st.streams[n].Held().eventType, kind)
    ensures |Do(st, a).streams| == |st.streams| && !HasKind(Do(st, a).streams[n].Held().eventType, kind)
    ensures forall c :: c in CallsOf(st, a) ==> c.sock != n || c.kind != kind
  {
    if a.Act? {
      OpCoherent(st, a.op);
    } else {
      FireLaws(st, st.ready[a.i]);
    }
  }

  lemma {:induction false} RunSilent(st: State, run: seq<Action>, n: nat, kind: Kind)
    requires Coherent(st) && CanRun(st, run) && Firing(run) && n < |st.streams|
    requires !HasKind(st.streams[n].Held().eventType, kind)
    ensures forall c :: c in Calls(st, run) ==> c.sock != n || c.kind != kind
    decreases |run|
  {
    if run != [] {
      StepCoherent(st, run[0]);
      StepSilent(st, run[0], n, kind);
      RunSilent(Do(st, run[0]), run[1..], n, kind);
    }
  }

  ghost predicate Apart(c: Call, d: Call) { c.sock == d.sock ==> c.listening && c.kind != d.kind }

  ghost predicate Once(calls: seq<Call>) { forall i, j :: 0 <= i < j < |calls| ==> Apart(calls[i], calls[j]) }

  // However often a stream is on the ready list, and whatever the callbacks enable
  // or disable: one pass calls a stream back at most once, a listener at most once
  // for each kind of event.
  lemma {:induction false} CalledOnce(st: State, run: seq<Action>)
    requires Coherent(st) && CanRun(st, run) && Firing(run)
    ensures Once(Calls(st, run))
    decreases |run|
  {
    if run != [] {
      var next, made := Do(st, run[0]), CallsOf(st, run[0]);
      StepCoherent(st, run[0]);
      CalledOnce(next, run[1..]);
      var later := Calls(next, run[1..]);
      assert Calls(st, run) == made + later;
      if run[0].Turn? && made != [] {
        var n, call := st.ready[run[0].i], made[0];
        FireLaws(st, n);
        assert made == [call] && call.sock == n;
        forall j | 0 <= j < |later| ensures Apart(call, later[j]) {
          assert later[j] in later;
          if call.listening {
            RunSilent(next, run[1..], n, call.kind);
          } else {
            RunSilent(next, run[1..], n, later[j].kind);
          }
        }
      }
    }
  }

  function Acts(ops: seq<Op>): seq<Action> { seq(|ops|, i requires 0 <= i < |ops| => Act(ops[i])) }

  // The turns from i on of a pass of event_thr_fire, each followed by what its
  // callback does.
  function Pass(script: seq<seq<Op>>, i: nat): seq<Action>
    requires i <= |script|
    decreases |script| - i
  {
    if i == |script| then [] else TurnOf(script, i) + Pass(script, i + 1)
  }

  function TurnOf(script: seq<seq<Op>>, i: nat): seq<Action>
    requires i < |script|
  {
    [Turn(i)] + Acts(script[i])
  }

  lemma {:induction false} PassFires(script: seq<seq<Op>>, i: nat)
    requires i <= |script|
    ensures Firing(Pass(script, i))
    decreases |script| - i
  {
    if i < |script| {
      PassFires(script, i + 1);
    }
  }

  lemma RunUnfolds(st: State, run: seq<Action>)
    requires Coherent(st) && CanRun(st, run) && run != []
    ensures CanDo(st, run[0]) && Coherent(Do(st, run[0])) && CanRun(Do(st, run[0]), run[1..])
    ensures After(st, run) == After(Do(st, run[0]), run[1..])
    ensures Calls(st, run) == CallsOf(st, run[0]) + Calls(Do(st, run[0]), run[1..])
  {
    StepCoherent(st, run[0]);
  }

  lemma {:induction false} RunSplits(st: State, a: seq<Action>, b: seq<Action>)
    requires Coherent(st) && CanRun(st, a + b)
    ensures CanRun(st, a) && Coherent(After(st, a)) && CanRun(After(st, a), b)
    ensures After(st, a + b) == After(After(st, a), b)
    ensures Calls(st, a + b) == Calls(st, a) + Calls(After(st, a), b)
    decreases |a|
  {
    if a == [] {
      assert a + b == b;
    } else {
      RunUnfolds(st, a + b);
      assert (a + b)[1..] == a[1..] + b;
      RunSplits(Do(st, a[0]), a[1..], b);
      Assoc(CallsOf(st, a[0]), Calls(Do(st, a[0]), a[1..]), Calls(After(st, a), b));
    }
  }

  // In the middle of a pass: the calls made so far, and what it leads to.
  ghost predicate Passing(st: State, script: seq<seq<Op>>, i: nat, calls: seq<Call>, end: State, all: seq<Call>) {
    && Coherent(st) && i <= |script| && CanRun(st, Pass(script, i))
    && After(st, Pass(script, i)) == end && calls + Calls(st, Pass(script, i)) == all
  }

  lemma PassingStep(st: State, script: seq<seq<Op>>, i: nat, calls: seq<Call>, end: State, all: seq<Call>)
    requires Passing(st, script, i, calls, end, all) && i < |script|
    ensures var turn := TurnOf(script, i);
            && Firing(turn) && CanRun(st, turn)
            && Passing(After(st, turn), script, i + 1, calls + Calls(st, turn), end, all)
  {
    var turn := TurnOf(script, i);
    RunSplits(st, turn, Pass(script, i + 1));
    Assoc(calls, Calls(st, turn), Calls(After(st, turn), Pass(script, i + 1)));
  }

  // ------------------------------------------------------------------ who is heard

  // A stream just enabled for reading is heard of: the kernel watches it, or the
  // next event_thr_prepare puts it on the ready list.
  lemma EnabledIsHeard(st: State, n: nat, timeout: int, h: Handler, now: int)
    requires Coherent(st) && n < |st.streams| && !st.streams[n].Held().On()
    ensures var after := ReadEnabled(st, n, timeout, h);
            n in after.kernel || Prepared(after.streams[n], now).1
  {
  }

  // A stream enabled with nothing pending is picked exactly once its timeout, if it
  // has one, is over.
  lemma TimeoutExact(st: State, n: nat, timeout: int, h: Handler, now: int)
    requires Coherent(st) && n < |st.streams| && !st.streams[n].Held().On() && !Pending(st.streams[n])
    requires st.present >= 0
    ensures var late := timeout > 0 && now > st.present + timeout * 1000000;
            && (Prepared(ReadEnabled(st, n, timeout, h).streams[n], now).1 <==> late)
            && (Prepared(WriteEnabled(st, n, timeout, h).streams[n], now).1 <==> late)
  {
    assert Placed(st, n);
  }

  // In general an entry that event_thr_prepare leaves waiting is watched by the
  // kernel, except exactly if it was enabled with the FIRE flag and became a
  // listener since, or lost what was pending.
  lemma Unheard(st: State, n: nat)
    requires Coherent(st) && n < |st.streams| && st.streams[n].Held().On()
    ensures var s := st.streams[n];
            var e := s.Held();
            !Prepared(s, st.present).1 && n !in st.kernel <==>
            e.flag.fire && (e.listener || (!Pending(s) && !(e.rTtl > 0 && st.present > e.rTtl)))
  {
    assert Placed(st, n);
  }

  // Enabled, but out of the sight of the kernel and of event_thr_prepare.
  ghost predicate Deaf(st: State, n: nat) {
    n < |st.streams| &&
    var e := st.streams[n].Held();
    e.On() && e.flag.fire && e.listener && e.eventType == NO_EVENTS
  }

  // An operation on stream n other than the arrival of data.
  ghost predicate Names(a: Action, n: nat) { a.Act? && !a.op.OpData? && a.op.n == n }

  lemma DeafStep(st: State, a: Action, n: nat)
    requires Coherent(st) && CanDo(st, a) && Deaf(st, n) && !Names(a, n)
    ensures Deaf(Do(st, a), n) && forall c :: c in CallsOf(st, a) ==> c.sock != n
  {
    assert Placed(st, n);
    if a.Turn? {
      DeafTurn(st, st.ready[a.i], n);
    }
  }

  lemma DeafTurn(st: State, k: nat, n: nat)
    requires Coherent(st) && k < |st.streams| && Deaf(st, n)
    ensures Deaf(FireOne(st, k).0, n) && forall c :: c in FireOne(st, k).1 ==> c.sock != n
  {
    assert Placed(st, n);
  }

  lemma {:induction false} DeafRun(st: State, run: seq<Action>, n: nat)
    requires Coherent(st) && CanRun(st, run) && Deaf(st, n)
    requires forall i :: 0 <= i < |run| ==> !Names(run[i], n)
    ensures Deaf(After(st, run), n) && Coherent(After(st, run))
    ensures forall c :: c in Calls(st, run) ==> c.sock != n
    decreases |run|
  {
    if run != [] {
      StepCoherent(st, run[0]);
      DeafStep(st, run[0], n);
      DeafRun(Do(st, run[0]), run[1..], n);
    }
  }

  // A stream enabled for reading with data pending and then turned into a listener
  // stays enabled but is never called back, whatever arrives and however long the
  // loop goes on, until it is enabled or disabled again.
  lemma DeafListener(st: State, n: nat, timeout: int, h: Handler, run: seq<Action>)
    requires Coherent(st) && n < |st.streams| && !st.streams[n].Held().On() && Pending(st.streams[n]) && h.Handler?
    requires forall i :: 0 <= i < |run| ==> !Names(run[i], n)
    ensures var deaf := ListenEnabled(ReadEnabled(st, n, timeout, h), n, timeout, h);
            Coherent(deaf) &&
            (CanRun(deaf, run) ==>
               var after := After(deaf, run);
               && n < |after.streams| && after.streams[n].Held().On()
               && n in after.table && n !in after.kernel
               && forall c :: c in Calls(deaf, run) ==> c.sock != n)
  {
    var reading := ReadEnabled(st, n, timeout, h);
    var deaf := ListenEnabled(reading, n, timeout, h);
    assert Placed(st, n);
    OpCoherent(st, OpRead(n, timeout, h));
    OpCoherent(reading, OpListen(n, timeout, h));
    if CanRun(deaf, run) {
      DeafRun(deaf, run, n);
      assert Placed(After(deaf, run), n);
      InTableOnce(After(deaf, run), n);
    }
  }

  // There is room in the array for a stream that is off: the array is as long as
  // the socket numbers reach, and each entry of the table has its own.
  lemma Room(st: State, n: nat)
    requires Coherent(st) && n < |st.streams| && !st.streams[n].Held().On()
    ensures |st.table| < |st.streams|
  {
    InTableOnce(st, n);
    var q := st.table + [n];
    forall i, j | 0 <= i < j < |q| ensures q[i] != q[j] {
      assert InTable(st, i);
      if j < |st.table| {
        assert InTable(st, j);
      }
    }
    DistinctBelow(q, |st.streams|);
  }

  lemma {:induction false} DistinctBelow(q: seq<nat>, n: nat)
    requires forall i, j :: 0 <= i < j < |q| ==> q[i] != q[j]
    requires Below(q, n)
    ensures |q| <= n
    decreases n
  {
    if q != [] {
      var k := if n - 1 in q then var k :| 0 <= k < |q| && q[k] == n - 1; k else 0;
      var rest := q[..k] + q[k + 1..];
      assert forall i :: 0 <= i < |rest| ==> rest[i] == q[if i < k then i else i + 1];
      DistinctBelow(rest, n - 1);
    }
  }

  lemma PrefixGrows(st: State, i: nat)
    requires Coherent(st) && i < |st.table|
    ensures var n, before, after := st.table[i], st.table[..i], st.table[..i + 1];
            && n !in before && (forall k :: k in after <==> k in before || k == n)
            && forall want :: Sift(after, Picks(st), want) ==
                 Sift(before, Picks(st), want) + if Picks(st)[n] == want then [n] else []
  {
    var before, after := st.table[..i], st.table[..i + 1];
    assert after == before + [st.table[i]] && after[..i] == before;
    assert InTable(st, i);
    forall j | 0 <= j < i ensures before[j] != st.table[i] {
      assert InTable(st, j);
    }
  }

  // event_thr_prepare after i entries of the table.
  function Partly(st: State, i: nat): State
    requires Below(st.table, |st.streams|) && i <= |st.table|
  {
    st.(streams := seq(|st.streams|, n requires 0 <= n < |st.streams| =>
          if n in st.table[..i] then Prepared(st.streams[n], st.present).0 else st.streams[n]),
        ready := st.ready + Sift(st.table[..i], Picks(st), true))
  }

  // The scan after i entries: the state it has reached, and how many wait.
  ghost predicate Scanned(now: State, st: State, i: nat, nwait: nat) {
    && Coherent(st) && i <= |st.table| && now == Partly(st, i)
    && nwait == |Sift(st.table[..i], Picks(st), false)|
  }

  lemma ScanBegins(st: State)
    requires Coherent(st)
    ensures Scanned(st, st, 0, 0)
  {
    assert Partly(st, 0).streams == st.streams;
  }

  lemma ScanEnds(now: State, st: State, nwait: nat)
    requires Scanned(now, st, |st.table|, nwait)
    ensures now == Prepare(st) && nwait == |Sift(st.table, Picks(st), false)| && Coherent(now)
  {
    assert st.table[..|st.table|] == st.table;
    assert Partly(st, |st.table|).streams == Prepare(st).streams;
    PrepareCoherent(st);
  }

  lemma PartlyGrows(st: State, i: nat)
    requires Coherent(st) && i < |st.table|
    ensures var n, before, after := st.table[i], Partly(st, i), Partly(st, i + 1);
            && n < |before.streams| && before.streams[n] == st.streams[n]
            && after == before.(streams := before.streams[n := Prepared(st.streams[n], st.present).0],
                                ready := if Picks(st)[n] then before.ready + [n] else before.ready)
  {
    var n, before, after := st.table[i], Partly(st, i), Partly(st, i + 1);
    PrefixGrows(st, i);
    assert after.streams == before.streams[n := Prepared(st.streams[n], st.present).0];
    Assoc(st.ready, Sift(st.table[..i], Picks(st), true), [n]);
  }

  lemma WaitersGrow(st: State, i: nat)
    requires Coherent(st) && i < |st.table| && st.table[i] < |st.streams|
    ensures |Sift(st.table[..i + 1], Picks(st), false)| ==
            |Sift(st.table[..i], Picks(st), false)| + if Picks(st)[st.table[i]] then 0 else 1
  {
    PrefixGrows(st, i);
  }

  // ------------------------------------------------------------------- the engine

  class Engine {
    var fdtabs: array<nat>
    var fdcnt: nat
    var streams: seq<Stream>
    var kernel: set<nat>
    var present: int
    var ready: array<nat>
    var readyCnt: nat

    ghost predicate Shaped()
      reads this
    {
      && fdtabs.Length == ready.Length == |streams| && fdtabs != ready
      && fdcnt <= fdtabs.Length && readyCnt <= ready.Length
    }

    ghost function View(): State
      requires Shaped()
      reads this, fdtabs, ready
    {
      State(fdtabs[..fdcnt], streams, kernel, present, ready[..readyCnt])
    }

    ghost predicate Valid()
      reads this, fdtabs, ready
    {
      Shaped() && Coherent(View())
    }

    // The socket numbers reach up to |streams|, which is also the size of the arrays.
    constructor (streams: seq<Stream>, now: int)
      requires NeverEnabled(streams)
      ensures Valid() && View() == Fresh(streams, now) && fresh(fdtabs) && fresh(ready)
    {
      fdtabs, ready := new nat[|streams|], new nat[|streams|];
      fdcnt, readyCnt, kernel, present := 0, 0, {}, now;
      this.streams := streams;
      new;
      assert forall k :: 0 <= k < |streams| ==> Placed(View(), k);
    }

    method Append(n: nat, e: Entry)
      requires Shaped() && fdcnt < fdtabs.Length && n < |streams|
      modifies this`fdcnt, this`streams, this`kernel, fdtabs
      ensures Shaped() && fdtabs == old(fdtabs) && View() == Enlist(old(View()), n, e, e.flag)
    {
      var s := streams[n];
      streams := streams[n := s.With(e.(fdidx := fdcnt)).(nrefer := s.nrefer + 1)];
      fdtabs[fdcnt] := n;
      fdcnt := fdcnt + 1;
      if e.flag.fire {
        return;
      }
      kernel := kernel + {n};
    }

    method SetRead(n: nat, listener: bool, timeout: int, h: Handler) returns (e: Entry)
      requires n < |streams|
      modifies this`streams
      ensures e == ForRead(old(streams[n]).Held(), listener, timeout, h, present)
      ensures streams == old(streams)[n := old(streams[n]).With(e)]
    {
      if streams[n].fdp == None {
        streams := streams[n := streams[n].With(CLEAN)];
      }
      e := streams[n].fdp.value;
      e := e.(attached := true, listener := listener, reader := h);
      if timeout > 0 {
        e := e.(rTimeout := timeout * 1000000);
        e := e.(rTtl := present + e.rTimeout);
      } else {
        e := e.(rTtl := 0, rTimeout := 0);
      }
      streams := streams[n := streams[n].With(e)];
    }

    // event_enable_read
    method EnableRead(n: nat, timeout: int, h: Handler) returns (panicked: bool)
      requires Valid() && n < |streams| && h.Handler?
      modifies this`fdcnt, this`streams, this`kernel, fdtabs
      ensures Shaped() && View() == ReadEnabled(old(View()), n, timeout, h)
      ensures Valid() && panicked == old(streams[n]).Held().flag.write
    {
      ghost var st := View();
      OpCoherent(st, OpRead(n, timeout, h));
      panicked := false;
      if streams[n].fdp.Some? && streams[n].fdp.value.flag.write {
        return true;
      }
      if !streams[n].Held().On() {
        Room(st, n);
      }
      var e := SetRead(n, false, timeout, h);
      if e.flag.read {
        return;
      }
      e := e.(flag := Flags(true, false, true, false));
      if streams[n].buffered > 0 || streams[n].readReady || streams[n].bad {
        e := e.(flag := e.flag.(fire := true));
      } else {
        e := e.(flag := e.flag.(fire := false));
      }
      Append(n, e);
    }

    // event_enable_listen
    method EnableListen(n: nat, timeout: int, h: Handler) returns (panicked: bool)
      requires Valid() && n < |streams| && h.Handler?
      modifies this`fdcnt, this`streams, this`kernel, fdtabs
      ensures Shaped() && View() == ListenEnabled(old(View()), n, timeout, h)
      ensures Valid() && panicked == old(streams[n]).Held().flag.write
    {
      ghost var st := View();
      OpCoherent(st, OpListen(n, timeout, h));
      panicked := false;
      if streams[n].fdp.Some? && streams[n].fdp.value.flag.write {
        return true;
      }
      if !streams[n].Held().On() {
        Room(st, n);
      }
      var e := SetRead(n, true, timeout, h);
      if e.flag.read {
        return;
      }
      Append(n, e.(flag := Flags(true, false, true, false)));
    }

    // event_enable_write
    method EnableWrite(n: nat, timeout: int, h: Handler) returns (panicked: bool)
      requires Valid() && n < |streams| && h.Handler?
      modifies this`fdcnt, this`streams, this`kernel, fdtabs
      ensures Shaped() && View() == WriteEnabled(old(View()), n, timeout, h)
      ensures Valid() && panicked == old(streams[n]).Held().flag.read
    {
      ghost var st := View();
      OpCoherent(st, OpWrite(n, timeout, h));
      panicked := false;
      if streams[n].fdp == None {
        streams := streams[n := streams[n].With(CLEAN)];
      } else if streams[n].fdp.value.flag.read {
        return true;
      }
      if !streams[n].Held().On() {
        Room(st, n);
      }
      var e := streams[n].fdp.value.(listener := false, attached := true, writer := h);
      if timeout > 0 {
        e := e.(wTimeout := timeout * 1000000);
        e := e.(wTtl := present + e.wTimeout);
      } else {
        e := e.(wTtl := 0, wTimeout := 0);
      }
      streams := streams[n := streams[n].With(e)];
      if e.flag.write {
        return;
      }
      Append(n, e.(flag := Flags(false, true, true, false)));
    }

    // The last entry of the table takes the place of entry i.
    method Unlist(n: nat, i: nat)
      requires Valid() && i < fdcnt
      modifies this`fdcnt, this`streams, fdtabs
      ensures Shaped() && fdcnt == old(fdcnt) - 1
      ensures fdtabs[..fdcnt] == SwapRemove(old(fdtabs[..fdcnt]), i)
      ensures old(fdtabs[fdcnt - 1]) < |old(streams)|
      ensures streams == if i < fdcnt then Moved(old(streams), old(fdtabs[..fdcnt]), i) else old(streams)
    {
      assert InTable(View(), fdcnt - 1);
      fdcnt := fdcnt - 1;
      if i < fdcnt {
        fdtabs[i] := fdtabs[fdcnt];
        var m := fdtabs[i];
        streams := streams[m := streams[m].With(streams[m].Held().(fdidx := i))];
      }
    }

    // event_disable_readwrite
    method DisableReadWrite(n: nat)
      requires Valid() && n < |streams|
      modifies this`fdcnt, this`streams, this`kernel, fdtabs
      ensures Shaped() && View() == Disabled(old(View()), n)
      ensures Valid()
    {
      ghost var st := View();
      DisableCoherent(st, n);
      if streams[n].fdp == None {
        return;
      }
      var e := streams[n].fdp.value;
      if !e.On() {
        return;
      }
      assert Placed(st, n);
      Unlist(n, e.fdidx);
      Release(n, e.flag);
      DisabledStreams(st, n);
    }

    // Lines 374-397: the references, the interest and the entry of a stream.
    method Release(n: nat, flag: Flags)
      requires n < |streams| && flag.read != flag.write
      modifies this`streams, this`kernel
      ensures kernel == if flag.fire then old(kernel) else old(kernel) - {n}
      ensures streams == old(streams)[n := old(streams[n]).With(CLEAN).(nrefer := old(streams[n]).nrefer - 1)]
    {
      var s := streams[n];
      if flag.read {
        s := s.(nrefer := s.nrefer - 1);
      }
      if flag.write {
        s := s.(nrefer := s.nrefer - 1);
      }
      if !flag.fire {
        kernel := kernel - {n};
      }
      streams := streams[n := s.With(CLEAN)];
    }

    method PrepareOne(n: nat) returns (picked: bool)
      requires n < |streams|
      modifies this`streams
      ensures streams == old(streams)[n := Prepared(old(streams[n]), present).0]
      ensures picked == Prepared(old(streams[n]), present).1
    {
      var s, e := streams[n], streams[n].Held();
      e := e.(eventType := NO_EVENTS);
      picked := false;
      if !e.listener {
        if s.bad {
          s := s.(bad := false);
          e := e.(eventType := e.eventType.(xcpt := true));
          picked := true;
        } else if e.flag.read {
          if s.readReady && !e.listener {
            e := e.(eventType := NO_EVENTS.(read := true));
            picked := true;
          } else if s.buffered > 0 {
            s := s.(readReady := false);
            e := e.(eventType := NO_EVENTS.(read := true));
            picked := true;
          } else if e.rTtl > 0 && present > e.rTtl {
            e := e.(eventType := NO_EVENTS.(timeout := true));
            picked := true;
          }
        } else if e.flag.write {
          if e.wTtl > 0 && present > e.wTtl {
            e := e.(eventType := NO_EVENTS.(timeout := true));
            picked := true;
          }
        }
      }
      streams := streams[n := s.With(e)];
    }

    method PrepareTurn(i: nat, given: nat, ghost st: State) returns (nwait: nat)
      requires Shaped() && readyCnt < ready.Length && i < fdcnt == |st.table| && Scanned(View(), st, i, given)
      modifies this`streams, this`readyCnt, ready
      ensures Shaped() && readyCnt <= old(readyCnt) + 1 && Scanned(View(), st, i + 1, nwait)
    {
      var n := fdtabs[i];
      assert n == View().table[i];
      PartlyGrows(st, i);
      WaitersGrow(st, i);
      var picked := PrepareOne(n);
      nwait := given;
      if picked {
        var _ := AddReady(n);
      } else {
        nwait := nwait + 1;
      }
    }

    // event_thr_prepare
    method ThrPrepare() returns (nwait: nat)
      requires Valid() && readyCnt + fdcnt <= ready.Length
      modifies this`streams, this`readyCnt, ready
      ensures Shaped() && View() == Prepare(old(View()))
      ensures Valid() && nwait == |Sift(old(View()).table, Picks(old(View())), false)|
    {
      ghost var st := View();
      ScanBegins(st);
      nwait := 0;
      var i := 0;
      while i < fdcnt
        invariant 0 <= i <= fdcnt == |st.table| && Shaped() && readyCnt + fdcnt - i <= ready.Length
        invariant Scanned(View(), st, i, nwait)
      {
        nwait := PrepareTurn(i, nwait, st);
        i := i + 1;
      }
      ScanEnds(View(), st, nwait);
    }

    // Without room, C defines nothing from here on; the model drops the entry.
    method AddReady(n: nat) returns (fits: bool)
      requires Shaped()
      modifies this`readyCnt, ready
      ensures Shaped() && fits == (old(readyCnt) < ready.Length)
      ensures ready[..readyCnt] == old(ready[..readyCnt]) + if fits then [n] else []
    {
      fits := readyCnt < ready.Length;
      if fits {
        ready[readyCnt] := n;
        readyCnt := readyCnt + 1;
      }
    }

    // The part of event_loop that takes one report of epoll_wait. It writes to the
    // ready list without looking at its length: `fits` says that there was room.
    method Report(r: Report) returns (fits: bool)
      requires Valid() && ReportOk(View(), r)
      modifies this`streams, this`readyCnt, ready
      ensures Shaped() && fits == (|Reported(old(View()), r).ready| <= |streams|)
      ensures fits ==> View() == Reported(old(View()), r) && Valid()
    {
      ReportCoherent(View(), r);
      fits := true;
      var s, e := streams[r.sock], streams[r.sock].Held();
      if e.eventType.xcpt || e.eventType.timeout {
        return;
      }
      if r.incoming {
        if !e.eventType.read {
          e := e.(eventType := e.eventType.(read := true));
          fits := AddReady(r.sock);
        }
        if e.listener {
          e := e.(eventType := e.eventType.(accept := true));
        }
        streams := streams[r.sock := s.With(e).(readReady := true)];
      } else if r.outgoing {
        streams := streams[r.sock := s.With(e.(eventType := e.eventType.(write := true)))];
        fits := AddReady(r.sock);
      } else if r.failed {
        streams := streams[r.sock := s.With(e.(eventType := e.eventType.(xcpt := true)))];
        fits := AddReady(r.sock);
      }
    }

    // One turn of event_thr_fire, up to what the callback does.
    method FireTurn(i: nat) returns (calls: seq<Call>)
      requires Valid() && i < readyCnt
      modifies this`fdcnt, this`streams, this`kernel, fdtabs
      ensures Shaped() && View() == FireOne(old(View()), old(ready[i])).0
      ensures Valid() && calls == FireOne(old(View()), old(ready[i])).1
    {
      var n := ready[i];
      assert n == View().ready[i];
      FireLaws(View(), n);
      var e := streams[n].Held();
      calls := [];
      if !e.attached {
        return;
      }
      var kind, handler;
      if e.eventType.read || e.eventType.accept {
        kind, handler := KindRead, e.reader;
        e := e.(eventType := e.eventType.(read := false, accept := false));
      } else if e.eventType.write || e.eventType.connect {
        kind, handler := KindWrite, e.writer;
        e := e.(eventType := e.eventType.(write := false, connect := false));
      } else if e.eventType.timeout {
        kind, handler := KindTimeout, if e.reader.Handler? then e.reader else e.writer;
        e := e.(eventType := e.eventType.(timeout := false));
      } else if e.eventType.xcpt {
        kind, handler := KindXcpt, if e.reader.Handler? then e.reader else e.writer;
        e := e.(eventType := e.eventType.(xcpt := false));
      } else {
        return;
      }
      if e.listener {
        streams := streams[n := streams[n].With(e)];
      } else {
        DisableReadWrite(n);
      }
      if handler.Handler? {
        calls := [Call(n, kind, handler, e.listener)];
      }
    }

    // What a callback, or another thread meanwhile, does to the table.
    method RunOp(op: Op)
      requires Valid() && OpOk(View(), op)
      modifies this`fdcnt, this`streams, this`kernel, fdtabs
      ensures Shaped() && View() == DoOp(old(View()), op)
      ensures Valid()
    {
      match op {
        case OpRead(n, timeout, h) => var _ := EnableRead(n, timeout, h);
        case OpListen(n, timeout, h) => var _ := EnableListen(n, timeout, h);
        case OpWrite(n, timeout, h) => var _ := EnableWrite(n, timeout, h);
        case OpDisable(n) => DisableReadWrite(n);
        case OpData(n, buffered, readReady, bad) =>
          OpCoherent(View(), op);
          streams := streams[n := streams[n].(buffered := buffered, readReady := readReady, bad := bad)];
      }
    }

    method Take(a: Action) returns (made: seq<Call>)
      requires Valid() && CanDo(View(), a) && (a.Act? || a.Turn?)
      modifies this`fdcnt, this`streams, this`kernel, fdtabs
      ensures Shaped() && View() == Do(old(View()), a)
      ensures Valid() && made == CallsOf(old(View()), a)
    {
      made := [];
      match a {
        case Turn(i) => made := FireTurn(i);
        case Act(op) => RunOp(op);
      }
    }

    // A stretch of a pass of event_thr_fire.
    method Stretch(run: seq<Action>) returns (calls: seq<Call>)
      requires Valid() && CanRun(View(), run) && Firing(run)
      modifies this`fdcnt, this`streams, this`kernel, fdtabs
      ensures Shaped() && View() == After(old(View()), run)
      ensures Valid() && calls == Calls(old(View()), run)
    {
      ghost var st := View();
      calls := [];
      var left := run;
      while left != []
        invariant Valid() && CanRun(View(), left) && Firing(left)
        invariant After(View(), left) == After(st, run) && calls + Calls(View(), left) == Calls(st, run)
        decreases |left|
      {
        ghost var now := View();
        RunUnfolds(now, left);
        var made := Take(left[0]);
        Assoc(calls, made, Calls(View(), left[1..]));
        calls := calls + made;
        left := left[1..];
      }
    }

    // event_thr_fire: the entries of the ready list take their turns, and after the
    // turn of entry i the operations script[i] happen, in its callback or elsewhere.
    method ThrFire(script: seq<seq<Op>>) returns (calls: seq<Call>)
      requires Valid() && |script| == readyCnt && CanRun(View(), Pass(script, 0))
      modifies this`fdcnt, this`streams, this`kernel, fdtabs
      ensures Shaped() && View() == After(old(View()), Pass(script, 0))
      ensures Valid() && calls == Calls(old(View()), Pass(script, 0)) && Once(calls)
    {
      PassFires(script, 0);
      CalledOnce(View(), Pass(script, 0));
      calls := FireAll(script, After(View(), Pass(script, 0)), Calls(View(), Pass(script, 0)));
    }

    method FireAll(script: seq<seq<Op>>, ghost end: State, ghost all: seq<Call>) returns (calls: seq<Call>)
      requires Valid() && |script| == readyCnt && Passing(View(), script, 0, [], end, all)
      modifies this`fdcnt, this`streams, this`kernel, fdtabs
      ensures Valid() && View() == end && calls == all
    {
      calls := [];
      var i := 0;
      while i < readyCnt
        invariant 0 <= i <= readyCnt && Valid() && Passing(View(), script, i, calls, end, all)
      {
        calls := FireStep(script, i, calls, end, all);
        i := i + 1;
      }
    }

    method FireStep(script: seq<seq<Op>>, i: nat, given: seq<Call>, ghost end: State, ghost all: seq<Call>)
      returns (calls: seq<Call>)
      requires Valid() && i < |script| && Passing(View(), script, i, given, end, all)
      modifies this`fdcnt, this`streams, this`kernel, fdtabs
      ensures Valid() && Passing(View(), script, i + 1, calls, end, all)
    {
      PassingStep(View(), script, i, given, end, all);
      var made := Stretch(TurnOf(script, i));
      calls := given + made;
    }
  }
}
