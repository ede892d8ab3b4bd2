/**
 The length of the ready list in one round of event_loop (events_epoll_thr.c). The
 list has room for one entry a socket, and nothing checks that it is enough.
 */
module ReadyList {

  import opened Collections
  import opened FdTable

  // A report puts its stream on the ready list.
  predicate Adds(s: Stream, r: Report) {
    var events := s.Held().eventType;
    !events.xcpt && !events.timeout && if r.incoming then !events.read else r.outgoing || r.failed
  }

  // Reports of one epoll_wait: about different streams that it watches.
  ghost predicate ReportsOk(st: State, reports: seq<Report>) {
    && (forall i :: 0 <= i < |reports| ==> ReportOk(st, reports[i]))
    && (forall i, j :: 0 <= i < j < |reports| ==> reports[i].sock != reports[j].sock)
  }

  function Polled(st: State, reports: seq<Report>): State
    requires forall i :: 0 <= i < |reports| ==> reports[i].sock < |st.streams|
    decreases |reports|
  {
    if reports == [] then st else Polled(Reported(st, reports[0]), reports[1..])
  }

  // One round of event_loop up to event_thr_fire.
  function Round(st: State, check: bool, reports: seq<Report>): State
    requires Coherent(st)
    requires forall i :: 0 <= i < |reports| ==> reports[i].sock < |st.streams|
  {
    var empty := st.(ready := []);
    Polled(if check then Prepare(empty) else empty, reports)
  }

  ghost predicate Added(st: State, reports: seq<Report>, n: nat) {
    n < |st.streams| && exists i :: 0 <= i < |reports| && reports[i].sock == n && Adds(st.streams[n], reports[i])
  }

  function Additions(st: State, reports: seq<Report>): nat
    requires forall i :: 0 <= i < |reports| ==> reports[i].sock < |st.streams|
  {
    if reports == [] then 0
    else Additions(st, reports[1..]) + if Adds(st.streams[reports[0].sock], reports[0]) then 1 else 0
  }

  lemma ReportOne(st: State, r: Report)
    requires Coherent(st) && ReportOk(st, r)
    ensures var after := Reported(st, r);
            && |after.streams| == |st.streams|
            && (forall k :: 0 <= k < |st.streams| && k != r.sock ==> after.streams[k] == st.streams[k])
            && after.ready == st.ready + if Adds(st.streams[r.sock], r) then [r.sock] else []
  {
  }

  lemma {:induction false} AdditionsSame(st: State, after: State, reports: seq<Report>)
    requires |st.streams| == |after.streams|
    requires forall i :: 0 <= i < |reports| ==>
               reports[i].sock < |st.streams| && st.streams[reports[i].sock] == after.streams[reports[i].sock]
    ensures Additions(st, reports) == Additions(after, reports)
  {
    if reports != [] {
      AdditionsSame(st, after, reports[1..]);
    }
  }

  lemma AddedFirst(st: State, reports: seq<Report>, n: nat)
    requires Coherent(st) && ReportsOk(st, reports) && n < |st.streams| && reports != []
    ensures ReportsOk(Reported(st, reports[0]), reports[1..])
    ensures Added(st, reports, n) <==>
            if n == reports[0].sock then Adds(st.streams[n], reports[0])
            else Added(Reported(st, reports[0]), reports[1..], n)
    ensures n == reports[0].sock ==> !Added(Reported(st, reports[0]), reports[1..], n)
  {
    var rest := reports[1..];
    ReportOne(st, reports[0]);
    assert forall i :: 0 <= i < |rest| ==> rest[i] == reports[i + 1];
    if n != reports[0].sock && Added(st, reports, n) {
      var i :| 0 <= i < |reports| && reports[i].sock == n && Adds(st.streams[n], reports[i]);
      assert rest[i - 1] == reports[i];
    }
  }

  lemma {:induction false} PolledIs(st: State, reports: seq<Report>, n: nat)
    requires Coherent(st) && ReportsOk(st, reports) && n < |st.streams|
    ensures multiset(Polled(st, reports).ready)[n] == multiset(st.ready)[n] + if Added(st, reports, n) then 1 else 0
    ensures |Polled(st, reports).ready| == |st.ready| + Additions(st, reports)
    decreases |reports|
  {
    if reports != [] {
      var next := Reported(st, reports[0]);
      AddedFirst(st, reports, n);
      ReportOne(st, reports[0]);
      ReportCoherent(st, reports[0]);
      AdditionsSame(st, next, reports[1..]);
      PolledIs(next, reports[1..], n);
    }
  }

  // Stream n is picked by event_thr_prepare because it has something to read.
  predicate PickedToRead(st: State, n: nat) {
    n < |st.streams| && st.streams[n].Held().On() && Prepared(st.streams[n], st.present).0.Held().eventType.read
  }

  // And then the kernel reports an error on it, and no input.
  ghost predicate Twice(st: State, check: bool, reports: seq<Report>, n: nat) {
    check && PickedToRead(st, n) &&
    exists i :: 0 <= i < |reports| && reports[i].sock == n && reports[i].failed && !reports[i].incoming
  }

  lemma CheckedReady(st: State, n: nat)
    requires Coherent(st) && n < |st.streams| && st.ready == []
    ensures Prepare(st).ready == Sift(st.table, Picks(st), true)
    ensures multiset(Prepare(st).ready)[n] ==
            if st.streams[n].Held().On() && Prepared(st.streams[n], st.present).1 then 1 else 0
  {
    PreparedOnce(st, n);
    assert [] + Sift(st.table, Picks(st), true) == Sift(st.table, Picks(st), true);
  }

  lemma CheckedStream(st: State, n: nat)
    requires Coherent(st) && n < |st.streams|
    ensures var after := Prepare(st);
            && |after.streams| == |st.streams|
            && after.streams[n].Held().flag == st.streams[n].Held().flag
            && (st.streams[n].Held().On() ==> after.streams[n] == Prepared(st.streams[n], st.present).0)
  {
    InTableOnce(st, n);
  }

  lemma AddsToPick(st: State, r: Report)
    requires Coherent(st) && ReportOk(st, r)
    ensures var (s, picked) := Prepared(st.streams[r.sock], st.present);
            picked && Adds(s, r) <==> PickedToRead(st, r.sock) && r.failed && !r.incoming
  {
    assert Placed(st, r.sock);
  }

  lemma TwicePicked(st: State, checked: State, reports: seq<Report>, n: nat)
    requires Coherent(st) && ReportsOk(st, reports) && n < |st.streams| == |checked.streams|
    requires st.streams[n].Held().On() ==> checked.streams[n] == Prepared(st.streams[n], st.present).0
    ensures st.streams[n].Held().On() && Prepared(st.streams[n], st.present).1 && Added(checked, reports, n)
            <==> Twice(st, true, reports, n)
  {
    if st.streams[n].Held().On() {
      forall i | 0 <= i < |reports| && reports[i].sock == n
        ensures Prepared(st.streams[n], st.present).1 && Adds(checked.streams[n], reports[i])
                <==> PickedToRead(st, n) && reports[i].failed && !reports[i].incoming
      {
        AddsToPick(st, reports[i]);
      }
    }
  }

  lemma CheckedReports(st: State, reports: seq<Report>)
    requires Coherent(st) && ReportsOk(st, reports) && st.ready == []
    ensures ReportsOk(Prepare(st), reports)
  {
    forall i | 0 <= i < |reports| ensures ReportOk(Prepare(st), reports[i]) {
      CheckedStream(st, reports[i].sock);
    }
  }

  lemma ListedChecked(st: State, reports: seq<Report>, n: nat)
    requires Coherent(st) && ReportsOk(st, reports) && n < |st.streams| && st.ready == []
    ensures var times := multiset(Polled(Prepare(st), reports).ready)[n];
            times <= 2 && (times == 2 <==> Twice(st, true, reports, n))
  {
    var checked := Prepare(st);
    CheckedReady(st, n);
    CheckedStream(st, n);
    PrepareCoherent(st);
    CheckedReports(st, reports);
    PolledIs(checked, reports, n);
    TwicePicked(st, checked, reports, n);
  }

  // In one round each stream is listed at most twice, and twice exactly if it was
  // picked to be read and then reported failed without input.
  lemma ListedTimes(st: State, check: bool, reports: seq<Report>, n: nat)
    requires Coherent(st) && ReportsOk(st, reports) && n < |st.streams|
    ensures var times := multiset(Round(st, check, reports).ready)[n];
            times <= 2 && (times == 2 <==> Twice(st, check, reports, n))
  {
    var empty := st.(ready := []);
    StepCoherent(st, Begin);
    if check {
      ListedChecked(empty, reports, n);
    } else {
      PolledIs(empty, reports, n);
    }
  }

  // So the ready list, which has room for one entry a socket, is long enough if
  // event_thr_prepare is skipped or no stream is listed twice; and with it exactly
  // if the streams picked and those that the reports add are no more than that.
  lemma ReadyFits(st: State, check: bool, reports: seq<Report>)
    requires Coherent(st) && ReportsOk(st, reports)
    ensures (forall n :: 0 <= n < |st.streams| ==> !Twice(st, check, reports, n)) ==>
              |Round(st, check, reports).ready| <= |st.streams|
    ensures check ==>
              |Round(st, check, reports).ready| ==
              |Sift(st.table, Picks(st), true)| + Additions(Prepare(st.(ready := [])), reports)
  {
    var ready := Round(st, check, reports).ready;
    RoundCoherent(st, check, reports);
    if forall n :: 0 <= n < |st.streams| ==> !Twice(st, check, reports, n) {
      forall i, j | 0 <= i < j < |ready| ensures ready[i] != ready[j] {
        if ready[i] == ready[j] {
          ListedTimes(st, check, reports, ready[i]);
          TwoPlaces(ready, i, j);
        }
      }
      DistinctBelow(ready, |st.streams|);
    }
  }

  lemma TwoPlaces(q: seq<nat>, i: nat, j: nat)
    requires i < j < |q| && q[i] == q[j]
    ensures multiset(q)[q[i]] >= 2
  {
    assert q == q[..j] + q[j..];
    assert q[i] in multiset(q[..j]) && q[j] in multiset(q[j..]);
  }

  lemma {:induction false} PolledCoherent(st: State, reports: seq<Report>)
    requires Coherent(st) && ReportsOk(st, reports)
    ensures Coherent(Polled(st, reports)) && |Polled(st, reports).streams| == |st.streams|
    decreases |reports|
  {
    if reports != [] {
      ReportOne(st, reports[0]);
      ReportCoherent(st, reports[0]);
      PolledCoherent(Reported(st, reports[0]), reports[1..]);
    }
  }

  lemma RoundCoherent(st: State, check: bool, reports: seq<Report>)
    requires Coherent(st) && ReportsOk(st, reports)
    ensures Coherent(Round(st, check, reports)) && |Round(st, check, reports).streams| == |st.streams|
    ensures check ==>
              |Round(st, check, reports).ready| ==
              |Sift(st.table, Picks(st), true)| + Additions(Prepare(st.(ready := [])), reports)
  {
    var empty := st.(ready := []);
    StepCoherent(st, Begin);
    if check {
      PrepareCoherent(empty);
      CheckedReports(empty, reports);
      PolledCoherent(Prepare(empty), reports);
      if 0 < |st.streams| {
        CheckedReady(empty, 0);
        PolledIs(Prepare(empty), reports, 0);
      }
    } else {
      PolledCoherent(empty, reports);
    }
  }

  // It does not always fit: with one watched stream that has something to read,
  // and then an error, the list of length one takes two entries.
  lemma ReadyOverflows(h: Handler) returns (run: seq<Action>)
    requires h.Handler?
    ensures var streams := [Stream(None, 0, 0, false, false)];
            && NeverEnabled(streams) && CanRun(Fresh(streams, 0), run)
            && After(Fresh(streams, 0), run).ready == [0, 0]
  {
    var streams := [Stream(None, 0, 0, false, false)];
    var e := CLEAN.(attached := true, reader := h, flag := Flags(true, false, true, false), fdidx := 0);
    var enabled := State([0], [Stream(Some(e), 1, 0, false, false)], {0}, 0, []);
    assert streams[0 := enabled.streams[0]] == enabled.streams;
    assert ReadEnabled(Fresh(streams, 0), 0, 0, h) == enabled;
    StepCoherent(Fresh(streams, 0), Act(OpRead(0, 0, h)));
    run := OverflowEnabled(enabled, e);
    RunPrepend(Fresh(streams, 0), Act(OpRead(0, 0, h)), run);
    run := [Act(OpRead(0, 0, h))] + run;
  }

  lemma OverflowEnabled(st: State, e: Entry) returns (run: seq<Action>)
    requires st == State([0], [Stream(Some(e), 1, 0, false, false)], {0}, 0, [])
    requires Coherent(st) && e.eventType == NO_EVENTS && e.flag.read && !e.listener
    ensures CanRun(st, run) && After(st, run).ready == [0, 0]
  {
    var arrived := st.(streams := [Stream(Some(e), 1, 0, true, false)]);
    assert Do(st, Act(OpData(0, 0, true, false))) == arrived;
    StepCoherent(st, Act(OpData(0, 0, true, false)));
    run := Overflow(arrived, e);
    RunPrepend(st, Act(OpData(0, 0, true, false)), run);
    run := [Act(OpData(0, 0, true, false))] + run;
  }

  lemma Overflow(st: State, e: Entry) returns (run: seq<Action>)
    requires st == State([0], [Stream(Some(e), 1, 0, true, false)], {0}, 0, [])
    requires Coherent(st) && e.eventType == NO_EVENTS && e.flag.read && !e.listener
    ensures CanRun(st, run) && After(st, run).ready == [0, 0]
  {
    assert st.table == [] + [0] && Sift([0], Picks(st), true) == [0];
    PrepareCoherent(st);
    assert Placed(st, 0);
    var checked := Do(st, Check);
    run := OverflowPolled(checked);
    RunPrepend(st, Check, run);
    run := [Check] + run;
  }

  lemma OverflowPolled(st: State) returns (run: seq<Action>)
    requires |st.streams| == 1 && st.ready == [0] && st.kernel == {0}
    requires Coherent(st) && var e := st.streams[0].Held(); !e.eventType.xcpt && !e.eventType.timeout
    ensures CanRun(st, run) && After(st, run).ready == [0, 0]
  {
    var r := Report(0, false, false, true);
    StepCoherent(st, Poll(r));
    RunPrepend(st, Poll(r), []);
    run := [Poll(r)] + [];
  }

  lemma RunPrepend(st: State, a: Action, run: seq<Action>)
    requires Coherent(st) && CanDo(st, a) && Coherent(Do(st, a)) && CanRun(Do(st, a), run)
    ensures CanRun(st, [a] + run) && After(st, [a] + run) == After(Do(st, a), run)
  {
  }
}
