/**
 What the wait-die and the wound-die lock have in common, as values: the state, releasing
 or cancelling a request, destruction, and the ledger of callbacks.
 */
module LockModel {
  import opened LockQueue

  datatype State = State(queue: seq<Req>, nextId: nat, done: bool, calls: seq<Call>)

  const Init := State([], 1, false, [])

  function IndexOf(q: seq<Req>, id: nat): (k: nat)
    ensures k <= |q|
    ensures k < |q| ==> q[k].id == id
    ensures forall i | 0 <= i < k :: q[i].id != id
  {
    if q == [] then 0
    else if IndexOf(q[..|q|-1], id) < |q| - 1 then IndexOf(q[..|q|-1], id)
    else if q[|q|-1].id == id then |q| - 1 else |q|
  }

  function Abort(s: State, id: nat): State {
    var k := IndexOf(s.queue, id);
    if s.done || k == |s.queue| then s
    else
      var q := Remove(s.queue, k);
      s.(queue := Regrant(q),
         calls := s.calls + GrantCalls(q, |q|) +
                  if s.queue[k].status == Waiting then [No(id)] else [])
  }

  /** The destructor answers no to every waiter; it may not run while readers hold the lock. */
  function Destroy(s: State): State {
    s.(queue := [], done := true, calls := s.calls + NoCalls(s.queue, |s.queue|))
  }

  function NoCalls(q: seq<Req>, n: nat): seq<Call>
    requires n <= |q|
  {
    if n == 0 then []
    else NoCalls(q, n - 1) + if q[n-1].status == Waiting then [No(q[n-1].id)] else []
  }

  /** Grants follow the grant rule, ids are distinct and were issued, and a destroyed lock is empty. */
  ghost predicate Base(s: State) {
    && (s.done ==> s.queue == [])
    && 1 <= s.nextId
    && Shaped(s.queue)
    && DistinctIds(s.queue)
    && (forall i | 0 <= i < |s.queue| :: 1 <= s.queue[i].id < s.nextId)
  }

  function Answers(calls: seq<Call>, id: nat): nat {
    multiset(calls)[Yes(id)] + multiset(calls)[No(id)]
  }

  ghost predicate WaitsBelow(q: seq<Req>, n: nat, id: nat)
    requires n <= |q|
  {
    exists i :: 0 <= i < n && q[i].id == id && q[i].status == Waiting
  }

  ghost predicate WaitsIn(q: seq<Req>, id: nat) {
    WaitsBelow(q, |q|, id)
  }

  ghost predicate HoldsIn(q: seq<Req>, id: nat) {
    exists i :: 0 <= i < |q| && q[i].id == id && q[i].status == Granted
  }

  /**
   Every issued request is answered exactly once, by yes or by no, unless it still waits, in
   which case it has not been answered; holders were answered yes; nobody else was answered.
   */
  ghost predicate Ledger(s: State) {
    && (forall id: nat :: Answers(s.calls, id) ==
                          if 1 <= id < s.nextId && !WaitsIn(s.queue, id) then 1 else 0)
    && (forall id: nat | HoldsIn(s.queue, id) :: multiset(s.calls)[Yes(id)] == 1)
  }

  /** Grants carry ids that the lock has issued, from 1 on; the next request gets one that nobody was granted. */
  lemma {:induction false} IssuedIds(s: State, id: nat)
    requires Ledger(s) && Yes(id) in s.calls
    ensures 1 <= id < s.nextId
  {
    assert multiset(s.calls)[Yes(id)] > 0;
    assert Answers(s.calls, id) > 0;
  }

  lemma {:induction false} IndexOfUnique(q: seq<Req>, id: nat, k: nat)
    requires k < |q| && q[k].id == id
    requires forall i | 0 <= i < k :: q[i].id != id
    ensures IndexOf(q, id) == k
  {
  }

  lemma {:induction false} AbortBase(s: State, id: nat)
    requires Base(s)
    ensures Base(Abort(s, id))
  {
    var k := IndexOf(s.queue, id);
    if !s.done && k < |s.queue| {
      RegrantShaped(Remove(s.queue, k));
      RemoveDistinct(s.queue, k);
    }
  }

  lemma {:induction false} RemoveDistinct(q: seq<Req>, k: nat)
    requires k < |q| && DistinctIds(q)
    ensures DistinctIds(Remove(q, k))
  {
    var r := Remove(q, k);
    forall i, j | 0 <= i < j < |r| ensures r[i].id != r[j].id {
      var i', j' := if i < k then i else i + 1, if j < k then j else j + 1;
      assert r[i] == q[i'] && r[j] == q[j'] && i' < j';
    }
  }

  /** Among the first `n` requests, `id` waits although nothing blocks it any more. */
  ghost predicate OwedIn(q: seq<Req>, n: nat, id: nat)
    requires n <= |q|
  {
    exists i :: 0 <= i < n && Owed(q, i) && q[i].id == id
  }

  /** The yes calls owed to a queue name each unblocked waiter once and nobody else. */
  lemma {:induction false} GrantCallsCount(q: seq<Req>, n: nat, id: nat)
    requires n <= |q| && DistinctIds(q)
    ensures multiset(GrantCalls(q, n))[No(id)] == 0
    ensures multiset(GrantCalls(q, n))[Yes(id)] ==
            if OwedIn(q, n, id) then 1 else 0
  {
    if n > 0 {
      GrantCallsCount(q, n - 1, id);
      OwedStep(q, n, id);
      assert multiset(GrantCalls(q, n)) == multiset(GrantCalls(q, n - 1)) +
             if Owed(q, n - 1) then multiset{Yes(q[n-1].id)} else multiset{};
    }
  }

  lemma {:induction false} OwedStep(q: seq<Req>, n: nat, id: nat)
    requires 0 < n <= |q| && DistinctIds(q)
    ensures var last := Owed(q, n - 1) && q[n-1].id == id;
            (OwedIn(q, n, id) <==> OwedIn(q, n - 1, id) || last) && !(OwedIn(q, n - 1, id) && last)
  {
  }

  lemma {:induction false} NoCallsCount(q: seq<Req>, n: nat, id: nat)
    requires n <= |q| && DistinctIds(q)
    ensures multiset(NoCalls(q, n))[Yes(id)] == 0
    ensures multiset(NoCalls(q, n))[No(id)] ==
            if WaitsBelow(q, n, id) then 1 else 0
  {
    if n > 0 {
      NoCallsCount(q, n - 1, id);
      var last := if q[n-1].status == Waiting then [No(q[n-1].id)] else [];
      assert multiset(NoCalls(q, n)) == multiset(NoCalls(q, n - 1)) + multiset(last);
      if WaitsBelow(q, n - 1, id) {
        var i :| 0 <= i < n - 1 && q[i].id == id && q[i].status == Waiting;
        assert q[n-1].id != id;
        assert WaitsBelow(q, n, id);
      }
    }
  }

  /** How a regrant moves one id between waiting, holding and gone. */
  lemma {:induction false} RegrantStanding(q: seq<Req>, id: nat)
    requires GrantsSound(q) && DistinctIds(q)
    ensures WaitsIn(q, id) <==>
              (WaitsIn(Regrant(q), id) ||
               OwedIn(q, |q|, id))
    ensures !(WaitsIn(Regrant(q), id) &&
              OwedIn(q, |q|, id))
    ensures HoldsIn(Regrant(q), id) ==>
              (HoldsIn(q, id) ||
               OwedIn(q, |q|, id))
  {
    var r := Regrant(q);
    if WaitsIn(q, id) {
      var i :| 0 <= i < |q| && q[i].id == id && q[i].status == Waiting;
      assert r[i].id == id;
      if !Unblocked(q, i) {
        assert r[i].status == Waiting;
      }
    }
    if WaitsIn(r, id) {
      var i :| 0 <= i < |r| && r[i].id == id && r[i].status == Waiting;
      assert q[i].id == id && q[i].status == Waiting;
    }
    if HoldsIn(r, id) {
      var i :| 0 <= i < |r| && r[i].id == id && r[i].status == Granted;
      assert q[i].id == id && Unblocked(q, i);
    }
  }

  lemma {:induction false} WaitersAreIssued(s: State, id: nat)
    requires Base(s)
    ensures WaitsIn(s.queue, id) || HoldsIn(s.queue, id) ==> 1 <= id < s.nextId
  {
    if WaitsIn(s.queue, id) {
      var i :| 0 <= i < |s.queue| && s.queue[i].id == id && s.queue[i].status == Waiting;
    }
    if HoldsIn(s.queue, id) {
      var i :| 0 <= i < |s.queue| && s.queue[i].id == id && s.queue[i].status == Granted;
    }
  }

  lemma {:induction false} AppendStanding(q: seq<Req>, r: Req, id: nat)
    requires r.status == Waiting && GrantsSound(q)
    ensures GrantsSound(q + [r])
    ensures WaitsIn(q + [r], id) <==> WaitsIn(q, id) || r.id == id
    ensures HoldsIn(q + [r], id) <==> HoldsIn(q, id)
  {
    var p := q + [r];
    assert p[|q|] == r;
    assert forall i | 0 <= i < |q| :: p[i] == q[i];
    forall i | 0 <= i < |p| && p[i].status == Granted ensures Unblocked(p, i) {
      assert Unblocked(q, i);
    }
  }

  lemma {:induction false} RemoveStanding(q: seq<Req>, k: nat, id: nat)
    requires k < |q| && DistinctIds(q)
    ensures WaitsIn(Remove(q, k), id) <==> WaitsIn(q, id) && id != q[k].id
    ensures HoldsIn(Remove(q, k), id) <==> HoldsIn(q, id) && id != q[k].id
  {
    var r := Remove(q, k);
    if WaitsIn(q, id) && id != q[k].id {
      var i :| 0 <= i < |q| && q[i].id == id && q[i].status == Waiting;
      var i' := if i < k then i else i - 1;
      assert r[i'] == q[i];
    }
    if HoldsIn(q, id) && id != q[k].id {
      var i :| 0 <= i < |q| && q[i].id == id && q[i].status == Granted;
      var i' := if i < k then i else i - 1;
      assert r[i'] == q[i];
    }
    if WaitsIn(r, id) {
      var i :| 0 <= i < |r| && r[i].id == id && r[i].status == Waiting;
      var i' := if i < k then i else i + 1;
      assert q[i'] == r[i];
    }
    if HoldsIn(r, id) {
      var i :| 0 <= i < |r| && r[i].id == id && r[i].status == Granted;
      var i' := if i < k then i else i + 1;
      assert q[i'] == r[i];
    }
  }

  // ---------- what the operations promise, on the two states alone ----------

  ghost predicate Queued(q: seq<Req>, id: nat) {
    exists i :: 0 <= i < |q| && q[i].id == id
  }

  /** The yes calls to those of the first `n` requests that wait in `q` and hold in `r`, in queue order. */
  function Promotions(q: seq<Req>, r: seq<Req>, n: nat): seq<Call>
    requires n <= |q| == |r|
  {
    if n == 0 then []
    else Promotions(q, r, n - 1) +
         if q[n-1].status == Waiting && r[n-1].status == Granted then [Yes(q[n-1].id)] else []
  }

  /** `r` is `q`, request by request, with nothing changed but that waiters nothing is in the way of now hold. */
  ghost predicate Promotes(q: seq<Req>, r: seq<Req>) {
    && |q| == |r| && Shaped(r)
    && (forall i | 0 <= i < |q| :: r[i] == q[i] || (q[i].status == Waiting && r[i] == q[i].(status := Granted)))
  }

  /** From `s` to `s'` request `k` has left, whoever this frees has been told yes, and it was told no if it waited. */
  ghost predicate Leaves(s: State, s': State, k: nat)
    requires k < |s.queue|
  {
    var q := s.queue[..k] + s.queue[k+1..];
    && Promotes(q, s'.queue) && !Queued(s'.queue, s.queue[k].id)
    && s'.calls == s.calls + Promotions(q, s'.queue, |q|) +
                   (if s.queue[k].status == Waiting then [No(s.queue[k].id)] else [])
  }

  /** What `abort(id)` does: request `id` leaves; without such a request, or once destroyed, nothing happens. */
  ghost predicate Aborts(s: State, s': State, id: nat) {
    && s'.nextId == s.nextId && s'.done == s.done
    && (s.done || !Queued(s.queue, id) ==> s' == s)
    && (forall k | 0 <= k < |s.queue| && s.queue[k].id == id && !s.done :: Leaves(s, s', k))
  }

  /** What the destructor does: the list is emptied, and those that waited in it are told no, in queue order. */
  ghost predicate Destroys(s: State, s': State) {
    && s'.done && s'.queue == [] && s'.nextId == s.nextId
    && s.calls <= s'.calls && TellsNo(s.queue, s'.calls[|s.calls|..])
  }

  ghost predicate TellsNo(q: seq<Req>, calls: seq<Call>) {
    if q == [] then calls == []
    else if q[0].status == Waiting then calls != [] && calls[0] == No(q[0].id) && TellsNo(q[1..], calls[1..])
    else TellsNo(q[1..], calls)
  }

  /** A regrant of a queue without unjustified grants promotes. */
  lemma {:induction false} RegrantPromotes(q: seq<Req>)
    requires GrantsSound(q)
    ensures Promotes(q, Regrant(q)) && GrantCalls(q, |q|) == Promotions(q, Regrant(q), |q|)
  {
    RegrantShaped(q);
    forall i | 0 <= i < |q| ensures q[i].status == Granted ==> Unblocked(q, i) {
    }
    CallsPromote(q, |q|);
  }

  lemma {:induction false} CallsPromote(q: seq<Req>, n: nat)
    requires n <= |q|
    ensures GrantCalls(q, n) == Promotions(q, Regrant(q), n)
  {
    if n > 0 {
      CallsPromote(q, n - 1);
    }
  }

  lemma {:induction false} AbortMeaning(s: State, id: nat)
    requires Base(s)
    ensures Aborts(s, Abort(s, id), id)
  {
    hide Regrant, GrantCalls, Promotes, Promotions;
    forall k | 0 <= k < |s.queue| && s.queue[k].id == id && !s.done
      ensures Leaves(s, Abort(s, id), k)
    {
      IndexOfUnique(s.queue, id, k);
      RemoveSound(s.queue, k);
      RegrantPromotes(Remove(s.queue, k));
      NoLongerQueued(s.queue, k);
    }
  }

  lemma {:induction false} NoLongerQueued(q: seq<Req>, k: nat)
    requires k < |q| && DistinctIds(q)
    ensures !Queued(Regrant(Remove(q, k)), q[k].id)
  {
  }

  lemma {:induction false} DestroyMeaning(s: State)
    ensures Destroys(s, Destroy(s))
  {
    assert s.queue[0..] == s.queue && Destroy(s).calls[|s.calls|..] == NoCalls(s.queue, |s.queue|);
    NosFrom(s.queue, 0);
  }

  lemma {:induction false} NosFrom(q: seq<Req>, k: nat)
    requires k <= |q|
    ensures NoCalls(q, k) <= NoCalls(q, |q|) && TellsNo(q[k..], NoCalls(q, |q|)[|NoCalls(q, k)|..])
    decreases |q| - k
  {
    if k < |q| {
      NosFrom(q, k + 1);
      assert q[k..][1..] == q[k+1..];
    }
  }

  lemma {:induction false} AbortLedger(s: State, id': nat)
    requires Base(s) && Ledger(s)
    ensures Ledger(Abort(s, id'))
  {
    var s' := Abort(s, id');
    var k := IndexOf(s.queue, id');
    if !s.done && k < |s.queue| {
      var q := Remove(s.queue, k);
      RemoveSound(s.queue, k);
      RemoveDistinct(s.queue, k);
      forall id: nat
        ensures Answers(s'.calls, id) == if 1 <= id < s'.nextId && !WaitsIn(s'.queue, id) then 1 else 0
        ensures HoldsIn(s'.queue, id) ==> multiset(s'.calls)[Yes(id)] == 1
      {
        RemoveStanding(s.queue, k, id);
        GrantCallsCount(q, |q|, id);
        RegrantStanding(q, id);
        assert WaitsIn(s.queue, id') <==> s.queue[k].status == Waiting;
      }
    }
  }

  lemma {:induction false} DestroyLedger(s: State)
    requires Base(s) && Ledger(s)
    ensures Ledger(Destroy(s))
  {
    forall id: nat
      ensures Answers(Destroy(s).calls, id) == if 1 <= id < s.nextId then 1 else 0
    {
      WaitersAreIssued(s, id);
      NoCallsCount(s.queue, |s.queue|, id);
      assert Answers(s.calls, id) == if 1 <= id < s.nextId && !WaitsIn(s.queue, id) then 1 else 0;
      assert multiset(Destroy(s).calls) == multiset(s.calls) + multiset(NoCalls(s.queue, |s.queue|));
    }
  }
}

/** How single queue edits relate to a full regrant. */
module LockEffects {
  import opened LockQueue

  /** Appending one waiter to a settled queue: it alone may be owed a grant. */
  lemma {:induction false} AppendOwes(q: seq<Req>, r: Req)
    requires Shaped(q) && r.status == Waiting
    ensures var p := q + [r];
            && GrantsSound(p)
            && (Unblocked(p, |q|) ==>
                  Regrant(p) == GrantRange(p, |q|, |p|) && GrantCalls(p, |p|) == [Yes(r.id)])
            && (!Unblocked(p, |q|) ==> Regrant(p) == p && GrantCalls(p, |p|) == [])
  {
    var p := q + [r];
    var n := |q|;
    assert p[n] == r;
    forall i | 0 <= i < n ensures Unblocked(p, i) <==> Unblocked(q, i) {
      assert forall j | 0 <= j <= i :: p[j] == q[j];
    }
    if Unblocked(p, n) {
      RegrantIsRange(p, n, n + 1);
    } else {
      RegrantIsRange(p, n + 1, n + 1);
      assert GrantRange(p, n + 1, n + 1) == p;
    }
  }

  /** The number of writers in the first `k` requests is zero exactly when they are all readers. */
  lemma {:induction false} NoWriterBefore(q: seq<Req>, k: nat)
    requires k <= |q|
    ensures Count(q[..k], WLock) == 0 ==> forall i | 0 <= i < k :: q[i].ty == RLock
  {
    CountZero(q[..k], WLock);
    forall i | 0 <= i < k ensures q[i].ty != WLock <==> q[i].ty == RLock {
      match q[i].ty
      case RLock =>
      case WLock =>
    }
    assert forall i | 0 <= i < k :: q[..k][i] == q[i];
  }

  /** A waiter has a writer ahead of it unless it is the first writer of the queue. */
  lemma {:induction false} WriterAhead(q: seq<Req>, k: nat) returns (w: nat)
    requires Shaped(q) && k < |q| && q[k].status == Waiting
    requires q[k].ty == WLock ==> Count(q[..k], WLock) != 0
    ensures w < k && q[w].ty == WLock
  {
    if q[k].ty == RLock {
      assert !Unblocked(q, k);
      w :| 0 <= w < k && Conflict(q[w].ty, q[k].ty);
    } else {
      CountZero(q[..k], WLock);
      w :| 0 <= w < k && q[..k][w].ty == WLock;
    }
  }

  /** Erasing a waiter that is not the first writer of the queue owes nobody a grant. */
  lemma {:induction false} RemoveWaiterQuiet(q: seq<Req>, k: nat, w: nat)
    requires Shaped(q) && w < k < |q| && q[w].ty == WLock
    ensures Regrant(Remove(q, k)) == Remove(q, k) && GrantCalls(Remove(q, k), |q| - 1) == []
  {
    var r := Remove(q, k);
    RemoveSound(q, k);
    forall i | 0 <= i < |r| ensures !Owed(r, i) {
      StillBlocked(q, k, w, i);
    }
    NothingOwed(r);
  }

  lemma {:induction false} StillBlocked(q: seq<Req>, k: nat, w: nat, i: nat)
    requires Shaped(q) && w < k < |q| && q[w].ty == WLock
    requires i < |q| - 1
    ensures !Owed(Remove(q, k), i)
  {
    var r := Remove(q, k);
    if i < k && q[i].status == Waiting {
      assert !Unblocked(q, i);
      var j :| 0 <= j < i && Conflict(q[j].ty, q[i].ty);
      assert Conflict(r[j].ty, r[i].ty);
    } else if k <= i {
      assert Conflict(r[w].ty, r[i].ty);
    }
  }

  /** Erasing the first writer while readers hold the lock grants the readers queued right behind it. */
  lemma {:induction false} RemoveFirstWriter(q: seq<Req>, k: nat)
    requires Shaped(q) && k < |q| && q[k].status == Waiting && q[k].ty == WLock
    requires forall i | 0 <= i < k :: q[i].ty == RLock
    ensures 0 < k && StatusOf(q) == RLocked && StatusOf(Remove(q, k)) == RLocked
    ensures var r := Remove(q, k);
            var hi := RunEnd(r, k);
            && Regrant(r) == GrantRange(r, k, hi) && GrantCalls(r, |r|) == YesRange(r, k, hi)
            && (forall i | k <= i < hi :: r[i].ty == RLock && r[i].status == Waiting)
  {
    var r := Remove(q, k);
    RemoveSound(q, k);
    assert Unblocked(q, 0);
    assert k > 0;
    RunIsOwed(q, r, k, k);
  }

  lemma {:induction false} RunIsOwed(q: seq<Req>, r: seq<Req>, k: nat, lo: nat)
    requires Shaped(q) && GrantsSound(r) && k < |q| && r == Remove(q, k) && lo == k
    requires q[k].ty == WLock
    requires forall i | 0 <= i < k :: q[i].ty == RLock
    requires k < |r| && k == 0 ==> r[0].ty == RLock
    ensures var hi := RunEnd(r, lo);
            && Regrant(r) == GrantRange(r, lo, hi) && GrantCalls(r, |r|) == YesRange(r, lo, hi)
            && (forall i | lo <= i < hi :: r[i].ty == RLock && r[i].status == Waiting)
  {
    var hi := RunEnd(r, lo);
    forall i | 0 <= i < |r| ensures Owed(r, i) <==> lo <= i < hi {
      if i < lo {
        assert r[i] == q[i] && Unblocked(q, i);
      } else {
        assert r[i] == q[i+1] && Conflict(q[k].ty, q[i+1].ty);
        assert !Unblocked(q, i + 1);
        assert r[i].status == Waiting;
        if i < hi {
          assert forall j | 0 <= j < i :: r[j].ty == RLock;
        } else if hi < i {
          assert Conflict(r[hi].ty, r[i].ty);
        } else if 0 < hi {
          assert Conflict(r[0].ty, r[hi].ty);
        }
      }
    }
    RegrantIsRange(r, lo, hi);
    forall i | lo <= i < hi ensures r[i].ty == RLock && r[i].status == Waiting {
      assert Owed(r, i);
    }
  }

  /** Erasing one of several read holders owes nobody a grant; erasing the last one promotes the next writer. */
  lemma {:induction false} RemoveReader(q: seq<Req>, k: nat)
    requires Shaped(q) && k < |q| && q[k].status == Granted && q[k].ty == RLock
    ensures var r := Remove(q, k);
            && GrantsSound(r)
            && StatusOf(q) == RLocked && GrantedReaders(r) == GrantedReaders(q) - 1
            && (GrantedReaders(r) != 0 ==>
                  StatusOf(r) == RLocked && Regrant(r) == r && GrantCalls(r, |r|) == [])
            && (GrantedReaders(r) == 0 ==>
                  k == 0 &&
                  (r != [] ==>
                     r[0].ty == WLock && r[0].status == Waiting &&
                     Regrant(r) == GrantRange(r, 0, 1) && GrantCalls(r, |r|) == YesRange(r, 0, 1)))
  {
    var r := Remove(q, k);
    RemoveSound(q, k);
    GrantedReadersRemove(q, k);
    assert Unblocked(q, k) && Unblocked(q, 0);
    assert q[0].ty == RLock by {
      if k > 0 {
        assert !Conflict(q[0].ty, q[k].ty);
      }
    }
    var n := RunEnd(q, 0);
    forall i | 0 <= i < n ensures q[i].status == Granted {
      assert Unblocked(q, i);
    }
    CountPrefix(q, n);
    assert k < n;
    if n == 1 {
      if r != [] {
        assert r[0] == q[1];
        assert Unblocked(r, 0);
        forall i | 0 <= i < |r| ensures Owed(r, i) <==> 0 <= i < 1 {
          assert r[i] == q[i+1];
          if i > 0 {
            assert Conflict(r[0].ty, r[i].ty);
          }
        }
        RegrantIsRange(r, 0, 1);
      }
    } else {
      assert r[0] == q[if k == 0 then 1 else 0];
      forall i | 0 <= i < |r| ensures !Owed(r, i) {
        assert r[i] == q[if i < k then i else i + 1];
        if i == n - 1 {
          assert r[i] == q[n] && Conflict(r[0].ty, r[i].ty);
        } else if n <= i {
          assert r[n-1] == q[n] && Conflict(r[n-1].ty, r[i].ty);
        }
      }
      NothingOwed(r);
    }
  }

  /** Erasing the write holder promotes the next writer, or the readers queued first. */
  lemma {:induction false} RemoveWriter(q: seq<Req>, k: nat)
    requires Shaped(q) && k < |q| && q[k].status == Granted && q[k].ty == WLock
    ensures k == 0 && StatusOf(q) == WLocked && GrantedReaders(q) == 0
    ensures var r := Remove(q, k);
            && (forall i | 0 <= i < |r| :: r[i].status == Waiting)
            && GrantedReaders(r) == 0
            && (r != [] ==>
                  var hi := if r[0].ty == WLock then 1 else RunEnd(r, 0);
                  Regrant(r) == GrantRange(r, 0, hi) && GrantCalls(r, |r|) == YesRange(r, 0, hi))
  {
    var r := Remove(q, k);
    assert Unblocked(q, k);
    if k > 0 {
      assert Conflict(q[0].ty, q[k].ty);
      assert false;
    }
    forall i | 0 <= i < |r| ensures r[i].status == Waiting {
      assert r[i] == q[i+1] && Conflict(q[0].ty, q[i+1].ty);
      assert !Unblocked(q, i + 1);
    }
    NoneGranted(r);
    GrantedReadersRemove(q, 0);
    if r != [] {
      if r[0].ty == WLock {
        assert Unblocked(r, 0);
        forall i | 0 < i < |r| ensures !Unblocked(r, i) {
          assert Conflict(r[0].ty, r[i].ty);
        }
        RegrantIsRange(r, 0, 1);
      } else {
        RunIsOwed(q, r, 0, 0);
      }
    }
  }

  lemma {:induction false} NoneGranted(q: seq<Req>)
    requires forall i | 0 <= i < |q| :: q[i].status == Waiting
    ensures GrantedReaders(q) == 0
  {
    if q != [] {
      NoneGranted(q[..|q|-1]);
    }
  }

  /** Counters and status after an append that is granted at once. */
  lemma {:induction false} AppendCounts(q: seq<Req>, r: Req)
    requires Shaped(q) && r.status == Waiting && Unblocked(q + [r], |q|)
    ensures var g := Regrant(q + [r]);
            && Count(g, RLock) == Count(q, RLock) + (if r.ty == RLock then 1 else 0)
            && Count(g, WLock) == Count(q, WLock) + (if r.ty == WLock then 1 else 0)
            && GrantedReaders(g) == GrantedReaders(q) + (if r.ty == RLock then 1 else 0)
            && StatusOf(g) == if r.ty == WLock then WLocked else RLocked
    ensures r.ty == RLock && GrantedReaders(q) != 0 ==> StatusOf(q) == RLocked
  {
    var p := q + [r];
    AppendOwes(q, r);
    CountAppend(q, r, RLock);
    CountAppend(q, r, WLock);
    RegrantKeeps(p);
    assert GrantRange(p, |q|, |p|)[..|q|] == q;
    if q != [] {
      assert !Conflict(p[0].ty, p[|q|].ty);
    }
  }

  lemma {:induction false} WaiterNotFirst(q: seq<Req>, k: nat)
    requires Shaped(q) && k < |q| && q[k].status == Waiting
    ensures 0 < k && StatusOf(Remove(q, k)) == StatusOf(q)
  {
    assert !Unblocked(q, k);
  }

  /** A queue whose only grant is the writer at its front has no granted reader. */
  lemma {:induction false} PromotedWriter(r: seq<Req>)
    requires r != [] && r[0].ty == WLock && r[0].status == Waiting
    requires GrantedReaders(r) == 0
    ensures GrantedReaders(GrantRange(r, 0, 1)) == 0
  {
    FrontGrantKeepsReaders(r);
  }

  lemma {:induction false} FrontGrantKeepsReaders(r: seq<Req>)
    requires r != [] && r[0].ty == WLock
    ensures GrantedReaders(GrantRange(r, 0, 1)) == GrantedReaders(r)
  {
    if |r| > 1 {
      var p := r[..|r|-1];
      FrontGrantKeepsReaders(p);
      assert GrantRange(r, 0, 1)[..|r|-1] == GrantRange(p, 0, 1);
    }
  }
}
