/**
 The wait-die lock as a value: one step function per operation, written without the
 incremental bookkeeping of the implementation.
 */
module WaitDieModel {
  import opened LockQueue
  import opened LockEffects
  import opened LockModel

  /** A request may queue when it is older (smaller value) than everything it conflicts with. */
  predicate Admits(q: seq<Req>, ty: LockType, prio: int) {
    forall i | 0 <= i < |q| && Conflict(q[i].ty, ty) :: prio < q[i].prio
  }

  function VLock(s: State, txn: nat, ty: LockType, prio: int): State {
    var id := s.nextId;
    var s' := s.(nextId := id + 1);
    if s.done || !Admits(s.queue, ty, prio) then s'.(calls := s.calls + [No(id)])
    else
      var q := s.queue + [Req(id, txn, prio, ty, Waiting, false)];
      s'.(queue := Regrant(q), calls := s.calls + GrantCalls(q, |q|))
  }

  /** Conflicting requests are queued by strictly decreasing priority value. */
  ghost predicate Ordered(q: seq<Req>) {
    forall i, j | 0 <= i < j < |q| && Conflict(q[i].ty, q[j].ty) :: q[j].prio < q[i].prio
  }

  ghost predicate Inv(s: State) {
    Base(s) && Ordered(s.queue)
  }

  // ---------- preservation ----------

  lemma {:induction false} VLockPreserves(s: State, txn: nat, ty: LockType, prio: int)
    requires Inv(s)
    ensures Inv(VLock(s, txn, ty, prio))
  {
    if !s.done && Admits(s.queue, ty, prio) {
      var q := s.queue + [Req(s.nextId, txn, prio, ty, Waiting, false)];
      RegrantShaped(q);
    }
  }

  lemma {:induction false} AbortPreserves(s: State, id: nat)
    requires Inv(s)
    ensures Inv(Abort(s, id))
  {
    AbortBase(s, id);
    var k := IndexOf(s.queue, id);
    if !s.done && k < |s.queue| {
      RemoveOrdered(s.queue, k);
    }
  }

  lemma {:induction false} RemoveOrdered(q: seq<Req>, k: nat)
    requires k < |q| && Ordered(q)
    ensures Ordered(Remove(q, k))
  {
    var r := Remove(q, k);
    forall i, j | 0 <= i < j < |r| && Conflict(r[i].ty, r[j].ty) ensures r[j].prio < r[i].prio {
      var i', j' := if i < k then i else i + 1, if j < k then j else j + 1;
      assert r[i] == q[i'] && r[j] == q[j'] && i' < j';
    }
  }

  lemma {:induction false} VLockLedger(s: State, txn: nat, ty: LockType, prio: int)
    requires Inv(s) && Ledger(s)
    ensures Ledger(VLock(s, txn, ty, prio))
  {
    var s' := VLock(s, txn, ty, prio);
    var id' := s.nextId;
    forall id: nat
      ensures Answers(s'.calls, id) == if 1 <= id < s'.nextId && !WaitsIn(s'.queue, id) then 1 else 0
      ensures HoldsIn(s'.queue, id) ==> multiset(s'.calls)[Yes(id)] == 1
    {
      WaitersAreIssued(s, id);
      if !s.done && Admits(s.queue, ty, prio) {
        var q := s.queue + [Req(id', txn, prio, ty, Waiting, false)];
        AppendStanding(s.queue, Req(id', txn, prio, ty, Waiting, false), id);
        GrantCallsCount(q, |q|, id);
        RegrantStanding(q, id);
        assert multiset(s'.calls) == multiset(s.calls) + multiset(GrantCalls(q, |q|));
      } else {
        assert multiset(s'.calls) == multiset(s.calls) + multiset{No(id')};
      }
    }
  }

  /**
   What `vlock` does, on the two states alone. The request enters, behind all others, iff it is older than
   every queued request it conflicts with, and holds at once iff there is none; otherwise it is told no.
   */
  ghost predicate Asks(s: State, s': State, txn: nat, ty: LockType, prio: int) {
    && s'.nextId == s.nextId + 1 && s'.done == s.done
    && (if !s.done && forall x | x in s.queue && (x.ty == WLock || ty == WLock) :: prio < x.prio
        then
          var free := forall x | x in s.queue :: x.ty == RLock && ty == RLock;
          && s'.queue == s.queue + [Req(s.nextId, txn, prio, ty, if free then Granted else Waiting, false)]
          && s'.calls == s.calls + if free then [Yes(s.nextId)] else []
        else s'.queue == s.queue && s'.calls == s.calls + [No(s.nextId)])
  }

  lemma {:induction false} VLockMeaning(s: State, txn: nat, ty: LockType, prio: int)
    requires Inv(s)
    ensures Asks(s, VLock(s, txn, ty, prio), txn, ty, prio)
  {
    hide Regrant, GrantCalls, Unblocked, Shaped, Admits, Ordered;
    var q := s.queue;
    var r := Req(s.nextId, txn, prio, ty, Waiting, false);
    AdmitsIff(q, ty, prio);
    FreeIff(q, r);
    AppendOwes(q, r);
    assert GrantRange(q + [r], |q|, |q| + 1) == q + [r.(status := Granted)];
  }

  lemma {:induction false} AdmitsIff(q: seq<Req>, ty: LockType, prio: int)
    ensures Admits(q, ty, prio) <==> forall x | x in q && (x.ty == WLock || ty == WLock) :: prio < x.prio
  {
    if Admits(q, ty, prio) {
      forall x | x in q && (x.ty == WLock || ty == WLock) ensures prio < x.prio {
        var i :| 0 <= i < |q| && q[i] == x;
        assert Conflict(q[i].ty, ty);
      }
    }
  }

  lemma {:induction false} FreeIff(q: seq<Req>, r: Req)
    ensures Unblocked(q + [r], |q|) <==> forall x | x in q :: x.ty == RLock && r.ty == RLock
  {
    var p := q + [r];
    assert p[|q|] == r && forall i | 0 <= i < |q| :: p[i] == q[i];
    if Unblocked(p, |q|) {
      forall x | x in q ensures x.ty == RLock && r.ty == RLock {
        var i :| 0 <= i < |q| && q[i] == x;
        assert !Conflict(p[i].ty, p[|q|].ty);
      }
    }
  }

  // ---------- runs ----------

  datatype Op =
    | OpLock(txn: nat, ty: LockType, prio: int)
    | OpAbort(id: nat)
    | OpDestroy

  /** The destructor's own checks: it runs once, and not while the lock is read-locked. */
  predicate Enabled(s: State, op: Op) {
    op.OpDestroy? ==> !s.done && StatusOf(s.queue) != RLocked
  }

  function Step(s: State, op: Op): State {
    match op
    case OpLock(txn, ty, prio) => VLock(s, txn, ty, prio)
    case OpAbort(id) => Abort(s, id)
    case OpDestroy => Destroy(s)
  }

  function Run(ops: seq<Op>): State {
    if ops == [] then Init else Step(Run(ops[..|ops|-1]), ops[|ops|-1])
  }

  ghost predicate Legal(ops: seq<Op>) {
    forall n | 0 <= n < |ops| :: Enabled(Run(ops[..n]), ops[n])
  }

  /** Shape, priority order and the callback ledger hold after every run. */
  lemma {:induction false} RunsAreSafe(ops: seq<Op>)
    requires Legal(ops)
    ensures Inv(Run(ops)) && Ledger(Run(ops))
  {
    if ops != [] {
      var p := ops[..|ops|-1];
      assert forall n | 0 <= n < |p| :: p[..n] == ops[..n];
      RunsAreSafe(p);
      match ops[|ops|-1]
      case OpLock(txn, ty, prio) =>
        VLockPreserves(Run(p), txn, ty, prio);
        VLockLedger(Run(p), txn, ty, prio);
      case OpAbort(id) =>
        AbortPreserves(Run(p), id);
        AbortLedger(Run(p), id);
      case OpDestroy =>
        DestroyLedger(Run(p));
    }
  }
}

/** The wait-die lock as implemented, proved to take exactly the steps of `WaitDieModel`. */
module WaitDie {
  import opened LockQueue
  import opened LockEffects
  import LM = LockModel
  import M = WaitDieModel

  /** The fast test of `vlock` for an immediate grant is the grant rule itself. */
  lemma {:induction false} CanAcquire(q: seq<Req>, r: Req)
    ensures (StatusOf(q) == Free || (StatusOf(q) == RLocked && r.ty == RLock && Count(q, WLock) == 0))
            <==> Unblocked(q + [r], |q|)
    ensures Unblocked(q + [r], |q|) ==> forall prio :: M.Admits(q, r.ty, prio)
  {
    var p := q + [r];
    assert p[|q|] == r;
    assert forall i | 0 <= i < |q| :: p[i] == q[i];
    CountZero(q, WLock);
    if q != [] {
      if q[0].ty == WLock || r.ty == WLock {
        assert Conflict(p[0].ty, r.ty);
      } else if w :| 0 <= w < |q| && q[w].ty == WLock {
        assert Conflict(p[w].ty, r.ty);
      }
    }
  }

  class WaitDieLock {
    var requests: seq<Req>
    var status: LockStatus
    var nRLock: int
    var nRInQueue: int
    var nWInQueue: int
    var nextId: nat
    var done: bool
    var calls: seq<Call>

    function View(): LM.State
      reads this
    {
      LM.State(requests, nextId, done, calls)
    }

    /** `status_`, `n_rlock_` and the two queue counters agree with the list. */
    ghost predicate Counted()
      reads this
    {
      && status == StatusOf(requests)
      && nRLock == GrantedReaders(requests)
      && nRInQueue == Count(requests, RLock)
      && nWInQueue == Count(requests, WLock)
    }

    ghost predicate Valid()
      reads this
    {
      && M.Inv(View())
      && (!done ==> Counted())
    }

    constructor ()
      ensures Valid() && View() == LM.Init
    {
      requests, status, nRLock, nRInQueue, nWInQueue := [], Free, 0, 0, 0;
      nextId, done, calls := 1, false, [];
    }

    method WriteAcquire(k: nat)
      requires k < |requests| && requests[k].ty == WLock && requests[k].status == Waiting
      modifies `requests, `status, `calls
      ensures requests == GrantRange(old(requests), k, k + 1) && status == WLocked
      ensures calls == old(calls) + YesRange(old(requests), k, k + 1)
    {
      status := WLocked;
      calls := calls + [Yes(requests[k].id)];
      requests := requests[k := requests[k].(status := Granted)];
    }

    /** `read_acquire` on the run of requests collected by its caller. */
    method ReadAcquire(lo: nat, hi: nat)
      requires lo <= hi <= |requests|
      requires forall i | lo <= i < hi :: requests[i].ty == RLock && requests[i].status == Waiting
      modifies `requests, `status, `nRLock, `calls
      ensures requests == GrantRange(old(requests), lo, hi)
      ensures calls == old(calls) + YesRange(old(requests), lo, hi)
      ensures nRLock == old(nRLock) + (hi - lo)
      ensures status == if lo < hi && old(nRLock) == 0 then RLocked else old(status)
    {
      if lo == hi {
        assert GrantRange(requests, lo, hi) == requests;
        return;
      }
      if nRLock == 0 {
        status := RLocked;
      }
      nRLock := nRLock + (hi - lo);
      var i := lo;
      ghost var q, c, n, st := requests, calls, nRLock, status;
      while i < hi
        invariant lo <= i <= hi
        invariant requests == GrantRange(q, lo, i)
        invariant calls == c + YesRange(q, lo, i)
        invariant nRLock == n && status == st
      {
        calls := calls + [Yes(requests[i].id)];
        requests := requests[i := requests[i].(status := Granted)];
        assert YesRange(q, lo, i + 1) == YesRange(q, lo, i) + [Yes(q[i].id)];
        i := i + 1;
      }
    }

    /** `wait_die`: the scan from the back decides admission against the whole queue. */
    method DecideWait(ty: LockType, prio: int) returns (wait: bool)
      requires M.Ordered(requests) && Counted()
      requires status != Free && !(status == RLocked && ty == RLock && nWInQueue == 0)
      ensures wait == M.Admits(requests, ty, prio)
    {
      var i := |requests|;
      match ty
      case WLock =>
        while i > 0
          invariant 0 <= i <= |requests|
          invariant forall j | i <= j < |requests| :: prio < requests[j].prio && requests[j].ty == RLock
        {
          if prio >= requests[i-1].prio {
            return false;
          }
          if requests[i-1].ty == WLock {
            assert forall j | 0 <= j < i - 1 :: Conflict(requests[j].ty, requests[i-1].ty);
            return true;
          }
          i := i - 1;
        }
        return true;
      case RLock =>
        while i > 0
          invariant 0 <= i <= |requests|
          invariant forall j | i <= j < |requests| :: requests[j].ty == RLock
        {
          if requests[i-1].ty == WLock {
            assert forall j | 0 <= j < i - 1 :: Conflict(requests[j].ty, requests[i-1].ty);
            return prio < requests[i-1].prio;
          }
          i := i - 1;
        }
        // the source's verify(0): such a request acquires the lock and never gets here
        assert status == RLocked;
        CountZero(requests, WLock);
        assert false;
        return false;
    }

    /** Appends a request and grants it at once. */
    method EnqueueGranted(r: Req)
      requires Shaped(requests) && Counted() && r.status == Waiting
      requires Unblocked(requests + [r], |requests|)
      modifies `requests, `status, `nRLock, `nRInQueue, `nWInQueue, `calls
      ensures Counted()
      ensures var p := old(requests) + [r];
              requests == Regrant(p) && calls == old(calls) + GrantCalls(p, |p|)
    {
      AppendOwes(requests, r);
      AppendCounts(requests, r);
      requests := requests + [r];
      match r.ty {
        case RLock =>
          nRInQueue := nRInQueue + 1;
          ReadAcquire(|requests| - 1, |requests|);
        case WLock =>
          nWInQueue := nWInQueue + 1;
          WriteAcquire(|requests| - 1);
      }
    }

    /** Appends a request that has to wait. */
    method EnqueueWaiting(r: Req)
      requires Shaped(requests) && Counted() && r.status == Waiting && requests != []
      requires !Unblocked(requests + [r], |requests|)
      modifies `requests, `nRInQueue, `nWInQueue
      ensures Counted()
      ensures var p := old(requests) + [r]; requests == Regrant(p) && GrantCalls(p, |p|) == []
    {
      AppendOwes(requests, r);
      CountAppend(requests, r, RLock);
      CountAppend(requests, r, WLock);
      assert (requests + [r])[..|requests|] == requests;
      requests := requests + [r];
      if r.ty == RLock {
        nRInQueue := nRInQueue + 1;
      } else {
        nWInQueue := nWInQueue + 1;
      }
    }

    method VLock(txn: nat, ty: LockType, prio: int) returns (id: nat)
      requires Valid()
      modifies this
      ensures Valid() && View() == M.VLock(old(View()), txn, ty, prio)
      ensures id == old(nextId) && M.Asks(old(View()), View(), txn, ty, prio)
    {
      hide Count, GrantedReaders, Regrant, GrantCalls, M.Asks;
      M.VLockMeaning(View(), txn, ty, prio);
      M.VLockPreserves(View(), txn, ty, prio);
      id := nextId;
      nextId := nextId + 1;
      if done {
        calls := calls + [No(id)];
        return;
      }
      var r := Req(id, txn, prio, ty, Waiting, false);
      CanAcquire(requests, r);
      if status == Free || (status == RLocked && ty == RLock && nWInQueue == 0) {
        EnqueueGranted(r);
      } else {
        var wait := DecideWait(ty, prio);
        if wait {
          EnqueueWaiting(r);
        } else {
          calls := calls + [No(id)];
        }
      }
    }

    /** Erases a waiter that unblocks nobody. */
    method EraseQuietly(k: nat, ghost w: nat)
      requires Shaped(requests) && Counted() && k < |requests| && requests[k].status == Waiting
      requires w < k && requests[w].ty == WLock
      modifies `requests, `nRInQueue, `nWInQueue
      ensures Counted()
      ensures var r := Remove(old(requests), k);
              requests == Regrant(r) && calls == old(calls) + GrantCalls(r, |r|)
    {
      hide Shaped, Count, GrantedReaders, Regrant, GrantCalls, Unblocked;
      RemoveWaiterQuiet(requests, k, w);
      CountRemove(requests, k, RLock);
      CountRemove(requests, k, WLock);
      GrantedReadersRemove(requests, k);
      WaiterNotFirst(requests, k);
      match requests[k].ty {
        case RLock => nRInQueue := nRInQueue - 1;
        case WLock => nWInQueue := nWInQueue - 1;
      }
      requests := requests[..k] + requests[k+1..];
    }

    /** Erases the first writer of a read-locked queue and grants the readers behind it. */
    method EraseFirstWriter(k: nat)
      requires Shaped(requests) && Counted() && k < |requests| && requests[k].status == Waiting
      requires requests[k].ty == WLock && forall j | 0 <= j < k :: requests[j].ty == RLock
      modifies `requests, `status, `nRLock, `nWInQueue, `calls
      ensures Counted()
      ensures var r := Remove(old(requests), k);
              requests == Regrant(r) && calls == old(calls) + GrantCalls(r, |r|)
    {
      hide Shaped, Count, GrantedReaders, Regrant, GrantCalls, Unblocked;
      ghost var r := Remove(requests, k);
      RegrantKeeps(Remove(requests, k));
      CountRemove(requests, k, RLock);
      CountRemove(requests, k, WLock);
      GrantedReadersRemove(requests, k);
      RemoveFirstWriter(requests, k);
      requests := requests[..k] + requests[k+1..];
      nWInQueue := nWInQueue - 1;
      assert status == RLocked;
      GrantFollowingReaders(k);
    }

    method AbortWaiter(k: nat, nWBefore: int)
      requires Shaped(requests) && Counted() && k < |requests| && requests[k].status == Waiting
      requires nWBefore == Count(requests[..k], WLock)
      modifies `requests, `status, `nRLock, `nRInQueue, `nWInQueue, `calls
      ensures Counted()
      ensures var r := Remove(old(requests), k);
              && requests == Regrant(r)
              && calls == old(calls) + GrantCalls(r, |r|) + [No(old(requests)[k].id)]
    {
      NoWriterBefore(requests, k);
      var id := requests[k].id;
      if requests[k].ty == WLock && nWBefore == 0 {
        EraseFirstWriter(k);
      } else {
        ghost var w := WriterAhead(requests, k);
        EraseQuietly(k, w);
      }
      calls := calls + [No(id)];
    }

    method UnlockReader(k: nat)
      requires Shaped(requests) && Counted() && k < |requests|
      requires requests[k].status == Granted && requests[k].ty == RLock
      modifies `requests, `status, `nRLock, `nRInQueue, `calls
      ensures Counted()
      ensures var r := Remove(old(requests), k);
              requests == Regrant(r) && calls == old(calls) + GrantCalls(r, |r|)
    {
      ghost var q := requests;
      ghost var r := Remove(q, k);
      RegrantKeeps(Remove(requests, k));
      CountRemove(q, k, RLock);
      CountRemove(q, k, WLock);
      RemoveReader(q, k);
      nRInQueue := nRInQueue - 1;
      nRLock := nRLock - 1;
      requests := requests[..k] + requests[k+1..];
      if nRLock == 0 {
        if k == |requests| {
          status := Free;
          assert |requests| == 0;
        } else {
          PromotedWriter(r);
          WriteAcquire(k);
        }
      }
    }

    method UnlockWriter(k: nat)
      requires Shaped(requests) && Counted() && k < |requests|
      requires requests[k].status == Granted && requests[k].ty == WLock
      modifies `requests, `status, `nRLock, `nWInQueue, `calls
      ensures Counted()
      ensures var r := Remove(old(requests), k);
              requests == Regrant(r) && calls == old(calls) + GrantCalls(r, |r|)
    {
      ghost var q := requests;
      ghost var r := Remove(q, k);
      RegrantKeeps(Remove(requests, k));
      CountRemove(q, k, RLock);
      CountRemove(q, k, WLock);
      RemoveWriter(q, k);
      nWInQueue := nWInQueue - 1;
      requests := requests[..k] + requests[k+1..];
      if k == |requests| {
        status := Free;
        assert |requests| == 0;
      } else if requests[k].ty == WLock {
        PromotedWriter(r);
        WriteAcquire(k);
      } else {
        GrantFollowingReaders(k);
        assert status == RLocked;
      }
    }

    /** The position of request `id`, and the number of writers queued before it. */
    method Find(id: nat) returns (k: nat, nWBefore: int)
      ensures k == LM.IndexOf(requests, id)
      ensures nWBefore == Count(requests[..k], WLock)
    {
      nWBefore, k := 0, 0;
      while k < |requests| && requests[k].id != id
        invariant 0 <= k <= |requests|
        invariant forall i | 0 <= i < k :: requests[i].id != id
        invariant nWBefore == Count(requests[..k], WLock)
      {
        assert requests[..k+1][..k] == requests[..k];
        if requests[k].ty == WLock {
          nWBefore := nWBefore + 1;
        }
        k := k + 1;
      }
      if k < |requests| {
        LM.IndexOfUnique(requests, id, k);
      }
    }

    method Abort(id: nat)
      requires Valid()
      modifies this
      ensures Valid() && View() == LM.Abort(old(View()), id)
      ensures LM.Aborts(old(View()), View(), id)
    {
      hide LM.Aborts;
      M.AbortPreserves(View(), id);
      LM.AbortMeaning(View(), id);
      if done {
        return;
      }
      ghost var s := View();
      var k, nWBefore := Find(id);
      if k == |requests| {
        return;
      }
      if requests[k].status == Waiting {
        AbortWaiter(k, nWBefore);
      } else if requests[k].ty == RLock {
        UnlockReader(k);
      } else {
        UnlockWriter(k);
      }
      assert s.queue[k].status == Granted ==> calls == calls + [];
      assert View() == LM.Abort(s, id);
    }

    /** Collects the readers from `k` up to the next writer and grants them. */
    method GrantFollowingReaders(k: nat)
      requires k <= |requests|
      requires forall i | k <= i < RunEnd(requests, k) :: requests[i].status == Waiting
      requires nRLock == GrantedReaders(requests)
      modifies `requests, `status, `nRLock, `calls
      ensures var hi := RunEnd(old(requests), k);
              && requests == GrantRange(old(requests), k, hi)
              && calls == old(calls) + YesRange(old(requests), k, hi)
              && status == if k < hi && old(nRLock) == 0 then RLocked else old(status)
      ensures nRLock == GrantedReaders(requests)
    {
      var hi := k;
      while hi < |requests| && requests[hi].ty == RLock
        invariant k <= hi <= |requests|
        invariant RunEnd(requests, k) == RunEnd(requests, hi)
      {
        hi := hi + 1;
      }
      GrantedReadersRange(requests, k, hi);
      ReadAcquire(k, hi);
    }

    /** `~WaitDieALock`: answers no to every waiter. Its two checks are the caller's duty. */
    method Destroy()
      requires Valid()
      requires !done && status != RLocked
      modifies this
      ensures Valid() && View() == LM.Destroy(old(View()))
      ensures LM.Destroys(old(View()), View())
    {
      LM.DestroyMeaning(View());
      done := true;
      var i := 0;
      while i < |requests|
        invariant 0 <= i <= |requests|
        invariant requests == old(requests) && nextId == old(nextId) && done
        invariant calls == old(calls) + LM.NoCalls(requests, i)
      {
        if requests[i].status == Waiting {
          calls := calls + [No(requests[i].id)];
        }
        i := i + 1;
      }
      requests := [];
    }
  }
}
