/**
 The request queue shared by the wait-die and the wound-die lock.

 A queued lock grants a request exactly when no earlier request in the queue conflicts
 with it. `Regrant` recomputes all grants from that rule; the locks themselves update
 grants incrementally, and their modules prove that the two agree.
 */
module LockQueue {

  datatype LockType = RLock | WLock

  datatype LockStatus = Free | WLocked | RLocked

  datatype ReqStatus = Waiting | Granted

  /**
   A queued request. `txn` identifies whoever supplied the callbacks; `refused` records
   that the wound callback has returned non-zero at least once (never set by wait-die).
   */
  datatype Req = Req(id: nat, txn: nat, prio: int, ty: LockType, status: ReqStatus, refused: bool)

  /** Callbacks made by a lock, in order. */
  datatype Call =
    | Yes(id: nat)
    | No(id: nat)
    | Wound(id: nat, ok: bool)

  predicate Conflict(a: LockType, b: LockType) {
    a == WLock || b == WLock
  }

  predicate Unblocked(q: seq<Req>, i: nat)
    requires i < |q|
  {
    forall j {:trigger Conflict(q[j].ty, q[i].ty)} | 0 <= j < i :: !Conflict(q[j].ty, q[i].ty)
  }

  /** Every grant in the queue is justified; some justified grants may still be missing. */
  ghost predicate GrantsSound(q: seq<Req>) {
    forall i {:trigger Unblocked(q, i)} | 0 <= i < |q| :: q[i].status == Granted ==> Unblocked(q, i)
  }

  /** Requests are granted exactly when unblocked. */
  ghost predicate Shaped(q: seq<Req>) {
    forall i {:trigger Unblocked(q, i)} | 0 <= i < |q| :: q[i].status == Granted <==> Unblocked(q, i)
  }

  /** Request `i` waits although nothing blocks it any more. */
  predicate Owed(q: seq<Req>, i: nat)
    requires i < |q|
  {
    q[i].status == Waiting && Unblocked(q, i)
  }

  function Regrant(q: seq<Req>): (r: seq<Req>)
    ensures |r| == |q|
    ensures forall i {:trigger r[i]} | 0 <= i < |q| ::
              r[i] == q[i].(status := if Unblocked(q, i) then Granted else Waiting)
  {
    seq(|q|, i requires 0 <= i < |q| => q[i].(status := if Unblocked(q, i) then Granted else Waiting))
  }

  /** The yes callbacks owed to the first `n` requests of `q`, in queue order. */
  function GrantCalls(q: seq<Req>, n: nat): seq<Call>
    requires n <= |q|
  {
    if n == 0 then []
    else
      GrantCalls(q, n - 1) +
      (if Owed(q, n - 1) then [Yes(q[n-1].id)] else [])
  }

  function Remove(q: seq<Req>, k: nat): (r: seq<Req>)
    requires k < |q|
    ensures |r| == |q| - 1
    ensures forall i | 0 <= i < k :: r[i] == q[i]
    ensures forall i | k <= i < |r| :: r[i] == q[i+1]
  {
    q[..k] + q[k+1..]
  }

  function StatusOf(q: seq<Req>): LockStatus {
    if q == [] then Free else if q[0].ty == WLock then WLocked else RLocked
  }

  function Count(q: seq<Req>, ty: LockType): nat {
    if q == [] then 0 else Count(q[..|q|-1], ty) + if q[|q|-1].ty == ty then 1 else 0
  }

  /** Granted readers: what `n_rlock_` counts. */
  function GrantedReaders(q: seq<Req>): nat {
    if q == [] then 0
    else GrantedReaders(q[..|q|-1]) + if q[|q|-1].ty == RLock && q[|q|-1].status == Granted then 1 else 0
  }

  ghost predicate DistinctIds(q: seq<Req>) {
    forall i, j | 0 <= i < j < |q| :: q[i].id != q[j].id
  }

  /** What `sanity_check` looks for, in terms of the grant rule. */
  lemma {:induction false} GrantShape(q: seq<Req>)
    requires Shaped(q)
    ensures StatusOf(q) == Free <==> q == []
    ensures StatusOf(q) == WLocked <==>
              q != [] && q[0].ty == WLock && q[0].status == Granted &&
              (forall i | 0 < i < |q| :: q[i].status == Waiting)
    ensures StatusOf(q) == RLocked <==>
              exists n :: 0 < n <= |q| && IsReaderPrefix(q, n) && GrantedReaders(q) == n
  {
    if q != [] && q[0].ty == RLock {
      var n := RunEnd(q, 0);
      forall i | 0 <= i < n ensures q[i].status == Granted {
        assert Unblocked(q, i);
      }
      CountPrefix(q, n);
      assert IsReaderPrefix(q, n) && GrantedReaders(q) == n;
    }
    if q != [] {
      assert Unblocked(q, 0);
      if q[0].ty == WLock {
        forall i | 0 < i < |q| ensures q[i].status == Waiting {
          assert Conflict(q[0].ty, q[i].ty);
          assert !Unblocked(q, i);
        }
      }
    }
  }

  /** The granted requests are exactly the first `n`, all readers, and the run of readers is maximal. */
  ghost predicate IsReaderPrefix(q: seq<Req>, n: nat)
    requires n <= |q|
  {
    && (forall i | 0 <= i < n :: q[i].ty == RLock)
    && (n < |q| ==> q[n].ty == WLock)
    && (forall i | 0 <= i < |q| :: q[i].status == Granted <==> i < n)
  }

  /** The end of the run of readers that starts at `lo`. */
  function RunEnd(q: seq<Req>, lo: nat): (n: nat)
    requires lo <= |q|
    ensures lo <= n <= |q|
    ensures forall i | lo <= i < n :: q[i].ty == RLock
    ensures n < |q| ==> q[n].ty == WLock
    decreases |q| - lo
  {
    if lo == |q| then lo
    else
      match q[lo].ty
      case RLock => RunEnd(q, lo + 1)
      case WLock => lo
  }

  lemma {:induction false} CountPrefix(q: seq<Req>, n: nat)
    requires n <= |q|
    requires forall i | 0 <= i < n :: q[i].ty == RLock
    requires GrantsSound(q)
    requires forall i | 0 <= i < n :: q[i].status == Granted
    requires n < |q| ==> q[n].ty == WLock
    requires 0 < n
    ensures GrantedReaders(q) == n
    ensures forall i | 0 <= i < |q| :: q[i].status == Granted <==> i < n
  {
    forall i | n <= i < |q| ensures q[i].status == Waiting {
      if i == n {
        assert Conflict(q[0].ty, q[i].ty);
      } else {
        assert Conflict(q[n].ty, q[i].ty);
      }
      assert !Unblocked(q, i);
    }
    var k := |q|;
    assert q[..|q|] == q;
    while k > n
      invariant n <= k <= |q|
      invariant GrantedReaders(q) == GrantedReaders(q[..k])
    {
      assert q[..k][..k-1] == q[..k-1];
      k := k - 1;
    }
    AllReaders(q[..n]);
  }

  lemma {:induction false} AllReaders(q: seq<Req>)
    requires forall i | 0 <= i < |q| :: q[i].ty == RLock && q[i].status == Granted
    ensures GrantedReaders(q) == |q|
  {
    if q != [] {
      AllReaders(q[..|q|-1]);
    }
  }

  lemma {:induction false} CountAppend(q: seq<Req>, r: Req, ty: LockType)
    ensures Count(q + [r], ty) == Count(q, ty) + if r.ty == ty then 1 else 0
  {
    assert (q + [r])[..|q|] == q;
  }

  /** Queue counters after an erase. */
  lemma {:induction false} CountRemove(q: seq<Req>, k: nat, ty: LockType)
    requires k < |q|
    ensures Count(Remove(q, k), ty) == Count(q, ty) - if q[k].ty == ty then 1 else 0
  {
    if k == |q| - 1 {
      assert Remove(q, k) == q[..k];
    } else {
      var p := q[..|q|-1];
      CountRemove(p, k, ty);
      assert Remove(q, k) == Remove(p, k) + [q[|q|-1]];
      CountAppend(Remove(p, k), q[|q|-1], ty);
    }
  }

  /** The counter depends only on the types in the queue, not on who is granted. */
  lemma {:induction false} CountSameTypes(q: seq<Req>, r: seq<Req>, ty: LockType)
    requires |q| == |r|
    requires forall i | 0 <= i < |q| :: q[i].ty == r[i].ty
    ensures Count(q, ty) == Count(r, ty)
  {
    if q != [] {
      CountSameTypes(q[..|q|-1], r[..|r|-1], ty);
    }
  }

  /** A zero counter means the type does not occur. */
  lemma {:induction false} CountZero(q: seq<Req>, ty: LockType)
    ensures Count(q, ty) == 0 <==> forall i | 0 <= i < |q| :: q[i].ty != ty
  {
    if q != [] {
      CountZero(q[..|q|-1], ty);
      assert forall i | 0 <= i < |q| - 1 :: q[..|q|-1][i] == q[i];
    }
  }

  lemma {:induction false} GrantedReadersRemove(q: seq<Req>, k: nat)
    requires k < |q|
    ensures GrantedReaders(Remove(q, k)) ==
            GrantedReaders(q) - if q[k].ty == RLock && q[k].status == Granted then 1 else 0
  {
    if k == |q| - 1 {
      assert Remove(q, k) == q[..k];
    } else {
      var p := q[..|q|-1];
      GrantedReadersRemove(p, k);
      assert Remove(q, k) == Remove(p, k) + [q[|q|-1]];
      assert Remove(q, k)[..|q|-2] == Remove(p, k);
    }
  }

  /** Marks the requests in [lo, hi) as granted: what `read_acquire` and `write_acquire` do. */
  function GrantRange(q: seq<Req>, lo: nat, hi: nat): (r: seq<Req>)
    requires lo <= hi <= |q|
    ensures |r| == |q|
    ensures forall i | 0 <= i < |q| :: r[i] == if lo <= i < hi then q[i].(status := Granted) else q[i]
  {
    seq(|q|, i requires 0 <= i < |q| => if lo <= i < hi then q[i].(status := Granted) else q[i])
  }

  function YesRange(q: seq<Req>, lo: nat, hi: nat): (c: seq<Call>)
    requires lo <= hi <= |q|
    ensures |c| == hi - lo
    ensures forall i | 0 <= i < hi - lo :: c[i] == Yes(q[lo+i].id)
  {
    seq(hi - lo, i requires 0 <= i < hi - lo => Yes(q[lo+i].id))
  }

  /** The requests that are owed a grant are those in [lo, hi). */
  ghost predicate OwedExactly(q: seq<Req>, lo: nat, hi: nat) {
    forall i | 0 <= i < |q| :: Owed(q, i) <==> lo <= i < hi
  }

  /** If the owed grants are one contiguous run, granting that run is a full regrant. */
  lemma {:induction false} RegrantIsRange(q: seq<Req>, lo: nat, hi: nat)
    requires lo <= hi <= |q|
    requires GrantsSound(q)
    requires OwedExactly(q, lo, hi)
    ensures Regrant(q) == GrantRange(q, lo, hi)
    ensures GrantCalls(q, |q|) == YesRange(q, lo, hi)
  {
    GrantCallsRange(q, lo, hi, |q|);
    forall i | 0 <= i < |q| ensures Regrant(q)[i] == GrantRange(q, lo, hi)[i] {
      assert q[i].status == Granted ==> Unblocked(q, i);
      assert Owed(q, i) <==> lo <= i < hi;
      match q[i].status
      case Waiting =>
      case Granted =>
    }
  }

  /** A queue that owes no grant is left alone by a regrant. */
  lemma {:induction false} NothingOwed(q: seq<Req>)
    requires GrantsSound(q)
    requires forall i | 0 <= i < |q| :: !Owed(q, i)
    ensures Regrant(q) == q && GrantCalls(q, |q|) == []
  {
    RegrantIsRange(q, |q|, |q|);
    assert GrantRange(q, |q|, |q|) == q;
  }

  lemma {:induction false} GrantCallsRange(q: seq<Req>, lo: nat, hi: nat, n: nat)
    requires lo <= hi <= |q| && n <= |q|
    requires OwedExactly(q, lo, hi)
    ensures GrantCalls(q, n) ==
            if n <= lo then [] else YesRange(q, lo, if n < hi then n else hi)
  {
    if n > 0 {
      GrantCallsRange(q, lo, hi, n - 1);
      if Owed(q, n - 1) {
        assert GrantCalls(q, n) == YesRange(q, lo, n - 1) + [Yes(q[n-1].id)];
        assert GrantCalls(q, n) == YesRange(q, lo, n);
      } else {
        assert GrantCalls(q, n) == GrantCalls(q, n - 1);
      }
    }
  }

  lemma {:induction false} GrantedReadersRange(q: seq<Req>, lo: nat, hi: nat)
    requires lo <= hi <= |q|
    requires forall i | lo <= i < hi :: q[i].ty == RLock && q[i].status == Waiting
    ensures GrantedReaders(GrantRange(q, lo, hi)) == GrantedReaders(q) + (hi - lo)
  {
    if q != [] {
      var n := |q| - 1;
      var p := q[..n];
      var hi' := if hi == |q| then n else hi;
      if lo == |q| {
        assert GrantRange(q, lo, hi) == q;
      } else {
        GrantedReadersRange(p, lo, hi');
        assert GrantRange(q, lo, hi)[..n] == GrantRange(p, lo, hi');
      }
    }
  }

  /** Regranting justifies every grant and leaves no justified one out. */
  lemma {:induction false} RegrantShaped(q: seq<Req>)
    ensures Shaped(Regrant(q))
  {
    var r := Regrant(q);
    forall i | 0 <= i < |r| ensures r[i].status == Granted <==> Unblocked(r, i) {
      assert Unblocked(r, i) <==> Unblocked(q, i) by {
        assert forall j | 0 <= j <= i :: r[j].ty == q[j].ty;
      }
    }
  }

  /** A regrant changes no type: counters and lock status stay as they are. */
  lemma {:induction false} RegrantKeeps(q: seq<Req>)
    ensures Count(Regrant(q), RLock) == Count(q, RLock)
    ensures Count(Regrant(q), WLock) == Count(q, WLock)
    ensures StatusOf(Regrant(q)) == StatusOf(q)
  {
    CountSameTypes(Regrant(q), q, RLock);
    CountSameTypes(Regrant(q), q, WLock);
  }

  /** Erasing a request never makes a held grant unjustified. */
  lemma {:induction false} RemoveSound(q: seq<Req>, k: nat)
    requires k < |q| && GrantsSound(q)
    ensures GrantsSound(Remove(q, k))
  {
    var r := Remove(q, k);
    forall i | 0 <= i < |r| && r[i].status == Granted ensures Unblocked(r, i) {
      var i' := if i < k then i else i + 1;
      assert q[i'] == r[i] && Unblocked(q, i');
      forall j | 0 <= j < i ensures !Conflict(r[j].ty, r[i].ty) {
        var j' := if j < k then j else j + 1;
        assert q[j'] == r[j] && j' < i';
      }
    }
  }
}
