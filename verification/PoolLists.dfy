/**
 What each move does to the idle list, the idle counter and the pending wake-ups.
 */
module PoolLists {
  import opened Collections
  import opened PoolSpec
  import opened PoolProtocol
  import opened PoolInvariant
  import Tally

  // -------------------------------------------------------------- list surgery

  lemma {:induction false} WithoutSound(list: seq<nat>, w: nat)
    requires Distinct(list) && w in list
    ensures Distinct(Without(list, w)) && |Without(list, w)| == |list| - 1
    ensures forall v :: v in Without(list, w) <==> v in list && v != w
  {
    assert list == [list[0]] + list[1..];
    assert forall i :: 0 <= i < |list[1..]| ==> list[1..][i] == list[i + 1];
    if list[0] != w {
      WithoutSound(list[1..], w);
      assert list[0] !in list[1..];
    }
  }

  lemma {:induction false} IdlersSound(p: Shared, list: seq<nat>)
    requires Distinct(list)
    ensures Distinct(Idlers(p, list)) && |Idlers(p, list)| <= |list|
    ensures forall v :: v in Idlers(p, list) <==> v in list && !HasJob(p, v)
  {
    if list != [] {
      assert forall i :: 0 <= i < |list[1..]| ==> list[1..][i] == list[i + 1];
      IdlersSound(p, list[1..]);
    }
  }

  // Everybody who leaves the list at the end of a batch is signalled.
  lemma {:induction false} BatchSignalsAll(p: Shared, list: seq<nat>, qlen: nat, w: nat)
    requires w in list && HasJob(p, w)
    ensures w in BatchSignals(p, list, qlen)
  {
    if list[0] != w {
      BatchSignalsAll(p, list[1..], if !HasJob(p, list[0]) && qlen > 0 then qlen - 1 else qlen, w);
    }
  }

  // --------------------------------------------------------------------- moves

  // Nobody enters or leaves worker_wait, and wake-ups only become more.
  lemma ListKept(s: State, s': State, iter: nat)
    requires ListInv(s, iter)
    requires s'.pool.idleList == s.pool.idleList && s'.pool.idle == s.pool.idle && s'.batched == s.batched
    requires s.pool.queue == [] ==> s'.pool.queue == []
    requires s'.pool.quit == s.pool.quit
    requires s'.pool.slots == s.pool.slots && |s'.workers| == |s.workers|
    requires forall w: nat :: w < |s.workers| ==>
               s'.workers[w].Waiting? == s.workers[w].Waiting?
               && (s.workers[w].Waiting? ==> s'.workers[w].cond == s.workers[w].cond
                                             && (s.workers[w].notified ==> s'.workers[w].notified))
    requires forall c :: c in s.pending ==> c in s'.pending
    ensures ListInv(s', iter)
  {
    assert forall w: nat :: IsWaiting(s', w) == IsWaiting(s, w);
    assert forall w: nat :: HasJob(s'.pool, w) == HasJob(s.pool, w);
  }

  function Parked(s: State, w: nat): State
    requires w < |s.workers| && OwnsCond(s.workers[w])
  {
    s.(pool := s.pool.(idleList := [w] + s.pool.idleList, idle := s.pool.idle + 1),
       workers := s.workers[w := Waiting(s.workers[w].cond, 0, false)])
  }

  lemma ParkList(s: State, w: nat)
    requires ListInv(s, 0) && w < |s.workers| && s.workers[w].Returning?
    requires s.pool.queue == [] && !s.pool.quit
    ensures ListInv(Parked(s, w), 0)
  {
    var s' := Parked(s, w);
    var list := s'.pool.idleList;
    assert !IsWaiting(s, w) && w !in s.pool.idleList && !HasJob(s.pool, w);
    assert forall u: nat :: IsWaiting(s', u) <==> IsWaiting(s, u) || u == w;
    assert forall u: nat :: HasJob(s'.pool, u) == HasJob(s.pool, u);
    forall i | 0 <= i < |list|
      ensures IsWaiting(s', list[i]) && !HasJob(s'.pool, list[i])
    {
      assert i > 0 ==> list[i] == s.pool.idleList[i - 1];
    }
  }

  function Unlisted(s: State, w: nat): State
    requires w < |s.workers| && OwnsCond(s.workers[w])
  {
    s.(pool := Unlist(s.pool, w), workers := s.workers[w := Returning(s.workers[w].cond)])
  }

  lemma UnlistList(s: State, w: nat)
    requires ListInv(s, 0) && IsWaiting(s, w) && !HasJob(s.pool, w)
    ensures ListInv(Unlisted(s, w), 0)
  {
    var s' := Unlisted(s, w);
    WithoutSound(s.pool.idleList, w);
    assert forall u: nat :: IsWaiting(s', u) <==> IsWaiting(s, u) && u != w;
    assert forall u: nat :: HasJob(s'.pool, u) == HasJob(s.pool, u);
    forall i | 0 <= i < |s'.pool.idleList|
      ensures IsWaiting(s', s'.pool.idleList[i]) && !HasJob(s'.pool, s'.pool.idleList[i])
    {
      assert s'.pool.idleList[i] in s.pool.idleList;
    }
  }

  lemma TakeOwnList(s: State, w: nat)
    requires ListInv(s, 0) && IsWaiting(s, w) && HasJob(s.pool, w)
    ensures ListInv(TookOwn(s, w), 0)
  {
    var s' := TookOwn(s, w);
    assert w !in s.pool.idleList;
    assert forall u: nat :: IsWaiting(s', u) <==> IsWaiting(s, u) && u != w;
    assert forall u: nat :: HasJob(s'.pool, u) <==> HasJob(s.pool, u) && u != w;
  }

  function Slept(s: State, w: nat, n: nat): State
    requires w < |s.workers| && OwnsCond(s.workers[w])
  {
    s.(workers := s.workers[w := Waiting(s.workers[w].cond, n, false)])
  }

  // A worker goes back to sleep only when it has nothing to do and may stay.
  lemma SleepList(s: State, w: nat, n: nat)
    requires ListInv(s, 0) && IsWaiting(s, w) && !HasJob(s.pool, w) && !s.pool.quit
    ensures ListInv(Slept(s, w, n), 0)
  {
    assert forall u: nat :: IsWaiting(Slept(s, w, n), u) == IsWaiting(s, u);
    assert forall u: nat :: HasJob(Slept(s, w, n).pool, u) == HasJob(s.pool, u);
  }

  lemma SignalList(s: State, k: nat, w: nat)
    requires ListInv(s, 0) && CondsOwned(s) && Enabled(s, Signal(k, w)) && Listed(s.pool)
    ensures ListInv(Do(s, Signal(k, w)), 0)
  {
    var s' := Do(s, Signal(k, w));
    assert forall u: nat :: IsWaiting(s', u) == IsWaiting(s, u);
    assert forall u: nat :: HasJob(s'.pool, u) == HasJob(s.pool, u);
    forall c | c in s.pending && c != s.pending[k]
      ensures c in s'.pending
    {
      var i :| 0 <= i < |s.pending| && s.pending[i] == c;
      assert s'.pending[if i < k then i else i - 1] == c;
    }
    forall u: nat | IsWaiting(s', u) && !s'.workers[u].notified && HasJob(s'.pool, u)
      ensures s'.workers[u].cond in s'.pending || u in s'.pool.idleList
    {
      assert IsWaiting(s, u);
      if s.workers[u].cond == s.pending[k] {
        assert WaitsOn(s, u, s.pending[k]) && Owns(s, u) && Owns(s, w);
      }
    }
  }

  lemma HandOverList(s: State, job: Job, created: bool)
    requires ListInv(s, 0) && Listed(s.pool) && HandsOver(s.pool)
    ensures ListInv(Submitted(s, job, created), 0)
  {
    var s' := Submitted(s, job, created);
    var h := s.pool.idleList[0];
    assert IsWaiting(s, h);
    assert forall i :: 0 <= i < |s'.pool.idleList| ==> s'.pool.idleList[i] == s.pool.idleList[i + 1];
    assert forall u: nat :: IsWaiting(s', u) == IsWaiting(s, u);
    assert forall u: nat :: HasJob(s'.pool, u) <==> HasJob(s.pool, u) || u == h;
    assert s.pool.idleList == [h] + s'.pool.idleList;
  }

  // A job for the pool queue; the whole list has been served before.
  lemma QueueList(s: State, job: Job, created: bool, iter: nat)
    requires ListInv(s, iter) && iter == |s.pool.idleList|
    ensures ListInv(Queued(s, job, created), iter)
  {
    var s' := Queued(s, job, created);
    assert forall u: nat :: IsWaiting(s', u) == IsWaiting(s, u);
    assert forall u: nat :: HasJob(s'.pool, u) == HasJob(s.pool, u);
  }

  function Served(s: State, iter: nat, job: Job): State
    requires Listed(s.pool) && iter < |s.pool.idleList|
  {
    s.(pool := Deliver(s.pool, s.pool.idleList[iter], job))
  }

  lemma ServeList(s: State, iter: nat, job: Job)
    requires ListInv(s, iter) && Listed(s.pool) && iter < |s.pool.idleList|
    ensures ListInv(Served(s, iter, job), iter + 1)
  {
    var s', h := Served(s, iter, job), s.pool.idleList[iter];
    assert IsWaiting(s, h);
    assert forall u: nat :: IsWaiting(s', u) == IsWaiting(s, u);
    assert forall u: nat :: HasJob(s'.pool, u) <==> HasJob(s.pool, u) || u == h;
  }

  lemma BatchEndList(s: State, iter: nat)
    requires ListInv(s, iter)
    ensures ListInv(BatchEnded(s), 0)
  {
    var s' := BatchEnded(s);
    IdlersSound(s.pool, s.pool.idleList);
    assert forall u: nat :: IsWaiting(s', u) == IsWaiting(s, u);
    assert forall u: nat :: HasJob(s'.pool, u) == HasJob(s.pool, u);
    forall i | 0 <= i < |s'.pool.idleList|
      ensures IsWaiting(s', s'.pool.idleList[i]) && !HasJob(s'.pool, s'.pool.idleList[i])
    {
      assert s'.pool.idleList[i] in s.pool.idleList;
    }
    if s'.pool.idleList != [] {
      assert s'.pool.idleList[0] in s.pool.idleList;
    }
    forall w: nat | IsWaiting(s', w) && !s'.workers[w].notified && HasJob(s'.pool, w)
      ensures s'.workers[w].cond in s'.pending
    {
      assert IsWaiting(s, w);
      if w in s.pool.idleList {
        BatchSignalsAll(s.pool, s.pool.idleList, |s.pool.queue|, w);
      }
    }
  }

  lemma DrainBeginList(s: State)
    requires ListInv(s, 0) && JobsInv(s)
    ensures ListInv(DrainBegun(s), 0)
  {
    var s' := DrainBegun(s);
    assert forall u: nat :: IsWaiting(s', u) == IsWaiting(s, u);
    assert forall u: nat :: HasJob(s'.pool, u) == HasJob(s.pool, u);
    if s.pool.count == 0 {
      forall w: nat | IsWaiting(s, w)
        ensures false
      {
        Tally.SumAtLeast(s.workers, IsLive, w);
      }
    }
  }
}
