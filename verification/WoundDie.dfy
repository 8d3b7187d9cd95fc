/**
 The wound-die lock as a value. `refuse` holds the ids of the requests whose wound callback
 returns non-zero during one call of `vlock`; every other holder lets itself be wounded.
 */
module WoundDieModel {
  import opened LockQueue
  import opened LockModel

  datatype Scan = Scan(queue: seq<Req>, calls: seq<Call>)

  /** Where the scan from the back ends. */
  predicate Stops(r: Req, ty: LockType, prio: int) {
    r.prio < prio && (ty == RLock || r.ty == WLock)
  }

  /** Whom the scan tries to wound: conflicting requests that are not older. */
  predicate Targets(r: Req, ty: LockType, prio: int) {
    prio <= r.prio && Conflict(r.ty, ty)
  }

  /** `wound_die`: waiters are answered no, holders are asked; whoever gives way leaves the queue. */
  function WoundDie(q: seq<Req>, ty: LockType, prio: int, refuse: set<nat>): Scan {
    if q == [] then Scan(q, [])
    else
      var r := q[|q|-1];
      if Stops(r, ty, prio) then Scan(q, [])
      else
        var rest := WoundDie(q[..|q|-1], ty, prio, refuse);
        if !Targets(r, ty, prio) then Scan(rest.queue + [r], rest.calls)
        else if r.status == Waiting then Scan(rest.queue, [No(r.id)] + rest.calls)
        else if r.id in refuse then
          Scan(rest.queue + [r.(refused := true)], [Wound(r.id, false)] + rest.calls)
        else Scan(rest.queue, [Wound(r.id, true)] + rest.calls)
  }

  function VLock(s: State, txn: nat, ty: LockType, prio: int, refuse: set<nat>): State {
    var id := s.nextId;
    var s' := s.(nextId := id + 1);
    if s.done then s'.(calls := s.calls + [No(id)])
    else
      var w := WoundDie(s.queue, ty, prio, refuse);
      var q := w.queue + [Req(id, txn, prio, ty, Waiting, false)];
      s'.(queue := Regrant(q), calls := s.calls + w.calls + GrantCalls(q, |q|))
  }

  /** `r` may stay ahead of a conflicting waiter of priority `prio`. */
  predicate MayPrecede(r: Req, prio: int) {
    r.prio < prio || (r.status == Granted && r.refused)
  }

  /** A waiter stands behind older conflicting requests and holders that refused to give way, only. */
  ghost predicate Ordered(q: seq<Req>) {
    forall i, j | 0 <= i < j < |q| && Conflict(q[i].ty, q[j].ty) && q[j].status == Waiting ::
      MayPrecede(q[i], q[j].prio)
  }

  ghost predicate Inv(s: State) {
    Base(s) && Ordered(s.queue)
  }

  /** `x` is a request of `q`, up to having refused a wound in the meantime. */
  ghost predicate From(q: seq<Req>, x: Req) {
    exists y :: y in q && x == y.(refused := x.refused) &&
                (y.refused ==> x.refused) && (x.refused && !y.refused ==> x.status == Granted)
  }

  lemma {:induction false} ScanFrom(q: seq<Req>, ty: LockType, prio: int, refuse: set<nat>, x: Req)
    requires x in WoundDie(q, ty, prio, refuse).queue
    ensures From(q, x)
  {
    if q != [] && !Stops(q[|q|-1], ty, prio) {
      var p := q[..|q|-1];
      if x in WoundDie(p, ty, prio, refuse).queue {
        ScanFrom(p, ty, prio, refuse, x);
        var y :| y in p && x == y.(refused := x.refused) &&
                 (y.refused ==> x.refused) && (x.refused && !y.refused ==> x.status == Granted);
        assert y in q;
      } else {
        assert q[|q|-1] in q;
      }
    }
  }

  /** What a request appended behind `q` must satisfy for the pairwise facts to carry over. */
  ghost predicate Good(q: seq<Req>) {
    && DistinctIds(q)
    && GrantsSound(q)
    && Ordered(q)
  }

  lemma {:induction false} GoodPrefix(q: seq<Req>, n: nat)
    requires n <= |q| && Good(q)
    ensures Good(q[..n])
  {
    var p := q[..n];
    forall i | 0 <= i < |p| && p[i].status == Granted ensures Unblocked(p, i) {
      assert Unblocked(q, i);
      forall j | 0 <= j < i ensures !Conflict(p[j].ty, p[i].ty) {
        assert !Conflict(q[j].ty, q[i].ty);
      }
    }
  }

  lemma {:induction false} GoodAppend(p: seq<Req>, r: Req)
    requires Good(p)
    requires forall x | x in p :: x.id != r.id
    requires r.status == Granted ==> forall x | x in p :: !Conflict(x.ty, r.ty)
    requires r.status == Waiting ==> forall x | x in p && Conflict(x.ty, r.ty) :: MayPrecede(x, r.prio)
    ensures Good(p + [r])
  {
    var q := p + [r];
    forall i | 0 <= i < |q| && q[i].status == Granted ensures Unblocked(q, i) {
      if i < |p| {
        assert Unblocked(p, i);
        forall j | 0 <= j < i ensures !Conflict(q[j].ty, q[i].ty) {
          assert !Conflict(p[j].ty, p[i].ty);
        }
      }
    }
  }

  /** The scan keeps every pairwise fact of the queue. */
  lemma {:induction false} ScanGood(q: seq<Req>, ty: LockType, prio: int, refuse: set<nat>)
    requires Good(q)
    ensures Good(WoundDie(q, ty, prio, refuse).queue)
  {
    if q != [] && !Stops(q[|q|-1], ty, prio) {
      var n := |q| - 1;
      var p, r := q[..n], q[n];
      GoodPrefix(q, n);
      ScanGood(p, ty, prio, refuse);
      var s := WoundDie(p, ty, prio, refuse).queue;
      forall x | x in s ensures x.id != r.id
                        ensures r.status == Granted ==> !Conflict(x.ty, r.ty)
                        ensures r.status == Waiting && Conflict(x.ty, r.ty) ==> MayPrecede(x, r.prio)
      {
        ScanFrom(p, ty, prio, refuse, x);
        var y :| y in p && x == y.(refused := x.refused) &&
                 (y.refused ==> x.refused) && (x.refused && !y.refused ==> x.status == Granted);
        var i :| 0 <= i < n && q[i] == y;
        if r.status == Granted {
          assert Unblocked(q, n);
          assert !Conflict(q[i].ty, q[n].ty);
        }
      }
      GoodAppend(s, r);
      if r.status == Granted {
        GoodAppend(s, r.(refused := true));
      }
    }
  }

  /** Everything still queued after the scan may precede the newcomer. */
  lemma {:induction false} ScanClearsWay(q: seq<Req>, ty: LockType, prio: int, refuse: set<nat>, x: Req)
    requires Good(q) && x in WoundDie(q, ty, prio, refuse).queue && Conflict(x.ty, ty)
    ensures MayPrecede(x, prio)
  {
    var n := |q| - 1;
    var p, r := q[..n], q[n];
    if Stops(r, ty, prio) {
      var i :| 0 <= i < |q| && q[i] == x;
      if i < n {
        assert Conflict(q[i].ty, q[n].ty);
        assert !Unblocked(q, n);
      }
    } else {
      GoodPrefix(q, n);
      if x in WoundDie(p, ty, prio, refuse).queue {
        ScanClearsWay(p, ty, prio, refuse, x);
      }
    }
  }

  lemma {:induction false} WaitsLast(q: seq<Req>, r: Req, id: nat)
    ensures WaitsIn(q + [r], id) <==> WaitsIn(q, id) || (r.id == id && r.status == Waiting)
    ensures HoldsIn(q + [r], id) <==> HoldsIn(q, id) || (r.id == id && r.status == Granted)
  {
    var p := q + [r];
    assert p[|q|] == r;
    if WaitsIn(q, id) {
      var i :| 0 <= i < |q| && q[i].id == id && q[i].status == Waiting;
      assert p[i] == q[i];
    }
    if HoldsIn(q, id) {
      var i :| 0 <= i < |q| && q[i].id == id && q[i].status == Granted;
      assert p[i] == q[i];
    }
  }

  lemma {:induction false} StandingUnique(q: seq<Req>, r: Req, id: nat)
    requires DistinctIds(q + [r]) && r.id == id
    ensures !WaitsIn(q, id) && !HoldsIn(q, id)
  {
    var p := q + [r];
    assert p[|q|] == r;
    forall i | 0 <= i < |q| ensures q[i].id != id {
      assert p[i] == q[i];
    }
  }

  /** The scan answers no exactly to the waiters it erases, and says yes to nobody. */
  lemma {:induction false} ScanLedger(q: seq<Req>, ty: LockType, prio: int, refuse: set<nat>, id: nat)
    requires DistinctIds(q)
    ensures var w := WoundDie(q, ty, prio, refuse);
            && multiset(w.calls)[Yes(id)] == 0
            && multiset(w.calls)[No(id)] == (if WaitsIn(q, id) && !WaitsIn(w.queue, id) then 1 else 0)
            && (WaitsIn(w.queue, id) ==> WaitsIn(q, id))
            && (HoldsIn(w.queue, id) ==> HoldsIn(q, id))
  {
    if q != [] && !Stops(q[|q|-1], ty, prio) {
      var p, r := q[..|q|-1], q[|q|-1];
      var rest := WoundDie(p, ty, prio, refuse);
      ScanLedger(p, ty, prio, refuse, id);
      assert q == p + [r];
      WaitsLast(p, r, id);
      WaitsLast(rest.queue, r, id);
      WaitsLast(rest.queue, r.(refused := true), id);
      if r.id == id {
        StandingUnique(p, r, id);
      }
      ScanCalls(q, ty, prio, refuse);
    }
  }

  lemma {:induction false} ScanCalls(q: seq<Req>, ty: LockType, prio: int, refuse: set<nat>)
    requires q != [] && !Stops(q[|q|-1], ty, prio)
    ensures var r := q[|q|-1];
            multiset(WoundDie(q, ty, prio, refuse).calls) ==
            multiset(WoundDie(q[..|q|-1], ty, prio, refuse).calls) +
            (if !Targets(r, ty, prio) then multiset{}
             else if r.status == Waiting then multiset{No(r.id)}
             else multiset{Wound(r.id, r.id !in refuse)})
  {
  }

  lemma {:induction false} RegrantKeepsOrder(q: seq<Req>)
    requires Ordered(q) && GrantsSound(q)
    ensures Ordered(Regrant(q))
  {
    var r := Regrant(q);
    forall i, j | 0 <= i < j < |r| && Conflict(r[i].ty, r[j].ty) && r[j].status == Waiting
      ensures MayPrecede(r[i], r[j].prio)
    {
      assert !Unblocked(q, j);
      assert q[i].status == Granted ==> Unblocked(q, i);
      assert MayPrecede(q[i], q[j].prio);
    }
  }

  lemma {:induction false} VLockPreserves(s: State, txn: nat, ty: LockType, prio: int, refuse: set<nat>)
    requires Inv(s)
    ensures Inv(VLock(s, txn, ty, prio, refuse))
  {
    if !s.done {
      var w := WoundDie(s.queue, ty, prio, refuse).queue;
      var r := Req(s.nextId, txn, prio, ty, Waiting, false);
      ScanAppend(s, r, refuse);
      RegrantShaped(w + [r]);
      RegrantKeepsOrder(w + [r]);
    }
  }

  /** The queue right before the grants of `vlock`. */
  lemma {:induction false} ScanAppend(s: State, r: Req, refuse: set<nat>)
    requires Inv(s) && r.status == Waiting && r.id == s.nextId
    ensures var w := WoundDie(s.queue, r.ty, r.prio, refuse).queue;
            Good(w) && Good(w + [r]) && forall x | x in w :: 1 <= x.id < s.nextId
  {
    var w := WoundDie(s.queue, r.ty, r.prio, refuse).queue;
    ScanGood(s.queue, r.ty, r.prio, refuse);
    forall x | x in w
      ensures 1 <= x.id < s.nextId
      ensures Conflict(x.ty, r.ty) ==> MayPrecede(x, r.prio)
    {
      ScanFrom(s.queue, r.ty, r.prio, refuse, x);
      if Conflict(x.ty, r.ty) {
        ScanClearsWay(s.queue, r.ty, r.prio, refuse, x);
      }
    }
    GoodAppend(w, r);
  }

  lemma {:induction false} VLockLedger(s: State, txn: nat, ty: LockType, prio: int, refuse: set<nat>)
    requires Inv(s) && Ledger(s)
    ensures Ledger(VLock(s, txn, ty, prio, refuse))
  {
    var s' := VLock(s, txn, ty, prio, refuse);
    var id' := s.nextId;
    var r := Req(id', txn, prio, ty, Waiting, false);
    if !s.done {
      ScanAppend(s, r, refuse);
    }
    forall id: nat
      ensures Answers(s'.calls, id) == if 1 <= id < s'.nextId && !WaitsIn(s'.queue, id) then 1 else 0
      ensures HoldsIn(s'.queue, id) ==> multiset(s'.calls)[Yes(id)] == 1
    {
      WaitersAreIssued(s, id);
      assert Answers(s.calls, id) == if 1 <= id < s.nextId && !WaitsIn(s.queue, id) then 1 else 0;
      if s.done {
        assert multiset(s'.calls) == multiset(s.calls) + multiset{No(id')};
      } else {
        var w := WoundDie(s.queue, ty, prio, refuse);
        var q := w.queue + [r];
        ScanLedger(s.queue, ty, prio, refuse, id);
        WaitsLast(w.queue, r, id);
        GrantCallsCount(q, |q|, id);
        RegrantStanding(q, id);
        assert multiset(s'.calls) == multiset(s.calls) + multiset(w.calls) + multiset(GrantCalls(q, |q|));
      }
    }
  }

  lemma {:induction false} AbortPreserves(s: State, id: nat)
    requires Inv(s)
    ensures Inv(Abort(s, id))
  {
    AbortBase(s, id);
    var k := IndexOf(s.queue, id);
    if !s.done && k < |s.queue| {
      RemoveOrdered(s.queue, k);
      RemoveSound(s.queue, k);
      RegrantKeepsOrder(Remove(s.queue, k));
    }
  }

  lemma {:induction false} RemoveOrdered(q: seq<Req>, k: nat)
    requires k < |q| && Ordered(q)
    ensures Ordered(Remove(q, k))
  {
    var r := Remove(q, k);
    forall i, j | 0 <= i < j < |r| && Conflict(r[i].ty, r[j].ty) && r[j].status == Waiting
      ensures MayPrecede(r[i], r[j].prio)
    {
      var i', j' := if i < k then i else i + 1, if j < k then j else j + 1;
      assert r[i] == q[i'] && r[j] == q[j'] && i' < j';
    }
  }

  // ---------- what `vlock` promises, on the two states alone ----------

  /**
   Request `i` is wounded: it conflicts with the newcomer, is not older, and the scan from the back gets to
   it. The scan ends at a request older than the newcomer; for a writer, at an older writer.
   */
  ghost predicate Hit(q: seq<Req>, i: nat, ty: LockType, prio: int)
    requires i < |q|
  {
    && q[i].prio >= prio && (ty == WLock || q[i].ty == WLock)
    && forall j | i <= j < |q| :: q[j].prio >= prio || (ty == WLock && q[j].ty == RLock)
  }

  /** What is left of the requests from `k` on: those hit give way, except holders that refuse. */
  ghost function Survivors(q: seq<Req>, k: nat, ty: LockType, prio: int, refuse: set<nat>): seq<Req>
    requires k <= |q|
    decreases |q| - k
  {
    if k == |q| then []
    else
      (if !Hit(q, k, ty, prio) then [q[k]]
       else if q[k].status == Granted && q[k].id in refuse then [q[k].(refused := true)] else []) +
      Survivors(q, k + 1, ty, prio, refuse)
  }

  /** The calls to those hit from `k` on, last first: waiters are told no, holders are asked to give way. */
  ghost function Blows(q: seq<Req>, k: nat, ty: LockType, prio: int, refuse: set<nat>): seq<Call>
    requires k <= |q|
    decreases |q| - k
  {
    if k == |q| then []
    else
      Blows(q, k + 1, ty, prio, refuse) +
      if !Hit(q, k, ty, prio) then []
      else if q[k].status == Waiting then [No(q[k].id)] else [Wound(q[k].id, q[k].id !in refuse)]
  }

  /** The newcomer wounds, enters behind those left, and whoever nothing is in the way of holds. */
  ghost predicate Asks(s: State, s': State, txn: nat, ty: LockType, prio: int, refuse: set<nat>) {
    && s'.nextId == s.nextId + 1 && s'.done == s.done
    && (if s.done then s'.queue == s.queue && s'.calls == s.calls + [No(s.nextId)]
        else
          var q := Survivors(s.queue, 0, ty, prio, refuse) + [Req(s.nextId, txn, prio, ty, Waiting, false)];
          && Promotes(q, s'.queue)
          && s'.calls == s.calls + Blows(s.queue, 0, ty, prio, refuse) + Promotions(q, s'.queue, |q|))
  }

  lemma {:induction false} VLockMeaning(s: State, txn: nat, ty: LockType, prio: int, refuse: set<nat>)
    requires Inv(s)
    ensures Asks(s, VLock(s, txn, ty, prio, refuse), txn, ty, prio, refuse)
  {
    if !s.done {
      var r := Req(s.nextId, txn, prio, ty, Waiting, false);
      ScanMeaning(s.queue, ty, prio, refuse);
      ScanAppend(s, r, refuse);
      RegrantPromotes(WoundDie(s.queue, ty, prio, refuse).queue + [r]);
    }
  }

  /** The scan from the back, with its early end, hits exactly those named by `Hit`. */
  lemma {:induction false} ScanMeaning(q: seq<Req>, ty: LockType, prio: int, refuse: set<nat>)
    ensures WoundDie(q, ty, prio, refuse).queue == Survivors(q, 0, ty, prio, refuse)
    ensures WoundDie(q, ty, prio, refuse).calls == Blows(q, 0, ty, prio, refuse)
  {
    if q != [] {
      var n := |q| - 1;
      if Stops(q[n], ty, prio) {
        Untouched(q, 0, ty, prio, refuse);
        assert q[0..] == q;
      } else {
        ScanMeaning(q[..n], ty, prio, refuse);
        SnocSurvivors(q, 0, ty, prio, refuse);
        SnocBlows(q, 0, ty, prio, refuse);
      }
    }
  }

  lemma {:induction false} Untouched(q: seq<Req>, k: nat, ty: LockType, prio: int, refuse: set<nat>)
    requires k <= |q| && q != [] && Stops(q[|q|-1], ty, prio)
    ensures Survivors(q, k, ty, prio, refuse) == q[k..] && Blows(q, k, ty, prio, refuse) == []
    decreases |q| - k
  {
    if k < |q| {
      Untouched(q, k + 1, ty, prio, refuse);
      assert !Hit(q, k, ty, prio);
    }
  }

  lemma {:induction false} SnocSurvivors(q: seq<Req>, k: nat, ty: LockType, prio: int, refuse: set<nat>)
    requires k < |q| && !Stops(q[|q|-1], ty, prio)
    ensures var n := |q| - 1;
            Survivors(q, k, ty, prio, refuse) ==
            Survivors(q[..n], k, ty, prio, refuse) + Survivors(q, n, ty, prio, refuse)
    decreases |q| - k
  {
    hide Hit;
    var n := |q| - 1;
    if k < n {
      SnocSurvivors(q, k + 1, ty, prio, refuse);
      HitSnoc(q, k, ty, prio);
    }
  }

  lemma {:induction false} SnocBlows(q: seq<Req>, k: nat, ty: LockType, prio: int, refuse: set<nat>)
    requires k < |q| && !Stops(q[|q|-1], ty, prio)
    ensures var n := |q| - 1;
            Blows(q, k, ty, prio, refuse) == Blows(q, n, ty, prio, refuse) + Blows(q[..n], k, ty, prio, refuse)
    decreases |q| - k
  {
    hide Hit;
    var n := |q| - 1;
    if k < n {
      SnocBlows(q, k + 1, ty, prio, refuse);
      HitSnoc(q, k, ty, prio);
    }
  }

  lemma {:induction false} HitSnoc(q: seq<Req>, k: nat, ty: LockType, prio: int)
    requires k < |q| - 1 && !Stops(q[|q|-1], ty, prio)
    ensures Hit(q, k, ty, prio) <==> Hit(q[..|q|-1], k, ty, prio)
  {
    var n := |q| - 1;
    if Hit(q[..n], k, ty, prio) {
      forall j | k <= j < |q| ensures q[j].prio >= prio || (ty == WLock && q[j].ty == RLock) {
        assert j < n ==> q[..n][j] == q[j];
      }
    }
    if Hit(q, k, ty, prio) {
      assert forall j | k <= j < n :: q[..n][j] == q[j];
    }
  }

  /** Nobody older than the newcomer is wounded, and nobody it does not conflict with. */
  lemma {:induction false} OlderStay(q: seq<Req>, k: nat, ty: LockType, prio: int, refuse: set<nat>, i: nat)
    requires k <= i < |q| && (q[i].prio < prio || (ty == RLock && q[i].ty == RLock))
    ensures q[i] in Survivors(q, k, ty, prio, refuse)
    decreases i - k
  {
    if k < i {
      OlderStay(q, k + 1, ty, prio, refuse, i);
    }
  }

  // ---------- runs ----------

  datatype Op =
    | OpLock(txn: nat, ty: LockType, prio: int, refuse: set<nat>)
    | OpAbort(id: nat)
    | OpDestroy

  predicate Enabled(s: State, op: Op) {
    op.OpDestroy? ==> !s.done && StatusOf(s.queue) != RLocked
  }

  function Step(s: State, op: Op): State {
    match op
    case OpLock(txn, ty, prio, refuse) => VLock(s, txn, ty, prio, refuse)
    case OpAbort(id) => Abort(s, id)
    case OpDestroy => Destroy(s)
  }

  function Run(ops: seq<Op>): State {
    if ops == [] then Init else Step(Run(ops[..|ops|-1]), ops[|ops|-1])
  }

  ghost predicate Legal(ops: seq<Op>) {
    forall n | 0 <= n < |ops| :: Enabled(Run(ops[..n]), ops[n])
  }

  /** Shape, wound-die order and the callback ledger hold after every run. */
  lemma {:induction false} RunsAreSafe(ops: seq<Op>)
    requires Legal(ops)
    ensures Inv(Run(ops)) && Ledger(Run(ops))
  {
    if ops != [] {
      var p := ops[..|ops|-1];
      assert forall n | 0 <= n < |p| :: p[..n] == ops[..n];
      RunsAreSafe(p);
      match ops[|ops|-1]
      case OpLock(txn, ty, prio, refuse) =>
        VLockPreserves(Run(p), txn, ty, prio, refuse);
        VLockLedger(Run(p), txn, ty, prio, refuse);
      case OpAbort(id) =>
        AbortPreserves(Run(p), id);
        AbortLedger(Run(p), id);
      case OpDestroy =>
        DestroyLedger(Run(p));
    }
  }
}

/** The wound-die lock as implemented, proved to take exactly the steps of `WoundDieModel`. */
module WoundDie {
  import opened LockQueue
  import opened LockEffects
  import LM = LockModel
  import M = WoundDieModel

  /** The number of holders, read off `status_` and `n_rlock_`. */
  function Holders(st: LockStatus, n: int): int {
    if st == WLocked then 1 else n
  }

  /** `status_` and `n_rlock_` describe the holders while wounding is under way. */
  ghost predicate Mid(q: seq<Req>, st: LockStatus, n: int) {
    && 0 <= Holders(st, n) <= |q|
    && (st == RLocked <==> n > 0)
    && (st == WLocked ==> n == 0 && q[0].ty == WLock)
    && (st == RLocked ==> forall i | 0 <= i < n :: q[i].ty == RLock)
    && (forall i | 0 <= i < |q| :: q[i].status == Granted <==> i < Holders(st, n))
  }

  lemma {:induction false} MidAtRest(q: seq<Req>)
    requires Shaped(q)
    ensures Mid(q, StatusOf(q), GrantedReaders(q))
  {
    GrantShape(q);
    if q != [] && q[0].ty == WLock {
      assert Unblocked(q, 0);
      RemoveWriter(q, 0);
    }
  }

  lemma {:induction false} MidSound(q: seq<Req>, st: LockStatus, n: int)
    requires Mid(q, st, n)
    ensures GrantsSound(q) && GrantedReaders(q) == n
  {
    forall i | 0 <= i < |q| && q[i].status == Granted ensures Unblocked(q, i) {
    }
    MidReaders(q, st, n);
  }

  lemma {:induction false} MidReaders(q: seq<Req>, st: LockStatus, n: int)
    requires Mid(q, st, n)
    ensures GrantedReaders(q) == n
  {
    if q != [] {
      var p := q[..|q|-1];
      if n == |q| {
        MidReaders(p, if n == 1 then Free else RLocked, n - 1);
      } else if st == WLocked && |q| == 1 {
      } else {
        MidReaders(p, st, n);
      }
    }
  }

  /** Erasing a wounded request leaves `status_` and `n_rlock_` as `wound` sets them. */
  lemma {:induction false} EraseMid(q: seq<Req>, st: LockStatus, n: int, k: nat)
    requires Mid(q, st, n) && k < |q|
    ensures var r := Remove(q, k);
            && (q[k].status == Waiting ==> Mid(r, st, n))
            && (q[k].status == Granted && q[k].ty == WLock ==> st == WLocked && Mid(r, Free, n))
            && (q[k].status == Granted && q[k].ty == RLock ==>
                  st == RLocked && Mid(r, if n == 1 then Free else RLocked, n - 1))
  {
  }

  lemma {:induction false} OwedAt(q: seq<Req>, st: LockStatus, n: int, lo: nat, hi: nat, i: nat)
    requires Mid(q, st, n) && i < |q| && lo == Holders(st, n)
    requires hi == if st == WLocked || (st == Free && q[0].ty == WLock) then 1 else RunEnd(q, lo)
    ensures Owed(q, i) <==> lo <= i < hi
  {
    if q[0].ty == WLock {
      if i > 0 {
        assert Conflict(q[0].ty, q[i].ty);
      }
    } else if i < hi {
      assert forall j | 0 <= j <= i :: q[j].ty == RLock;
    } else if i == hi {
      assert hi > 0 && Conflict(q[0].ty, q[i].ty);
    } else {
      assert Conflict(q[hi].ty, q[i].ty);
    }
  }

  /** What is owed when the newcomer has been appended, by lock status. */
  lemma {:induction false} OwedAfterScan(q: seq<Req>, st: LockStatus, n: int) returns (lo: nat, hi: nat)
    requires q != [] && Mid(q, st, n)
    ensures lo == Holders(st, n) <= hi <= |q|
    ensures hi == if st == WLocked || (st == Free && q[0].ty == WLock) then 1 else RunEnd(q, lo)
    ensures forall i | lo <= i < hi :: q[i].status == Waiting
    ensures Regrant(q) == GrantRange(q, lo, hi) && GrantCalls(q, |q|) == YesRange(q, lo, hi)
    ensures st == Free ==> hi > 0
  {
    lo := Holders(st, n);
    hi := if st == WLocked || (st == Free && q[0].ty == WLock) then 1 else RunEnd(q, lo);
    forall i | 0 <= i < |q| ensures Owed(q, i) <==> lo <= i < hi {
      OwedAt(q, st, n, lo, hi, i);
    }
    MidSound(q, st, n);
    RegrantIsRange(q, lo, hi);
    forall i | lo <= i < hi ensures q[i].status == Waiting {
      assert Owed(q, i);
    }
    if st == Free {
      assert Unblocked(q, 0) && Owed(q, 0);
    }
  }

  /** One iteration of the scan: what it keeps of request `k - 1`, and the call it makes. */
  lemma {:induction false} ScanStep(q: seq<Req>, k: nat, ty: LockType, prio: int, refuse: set<nat>)
    requires 0 < k <= |q| && !M.Stops(q[k-1], ty, prio)
    ensures var r := q[k-1];
            var w, rest := M.WoundDie(q[..k], ty, prio, refuse), M.WoundDie(q[..k-1], ty, prio, refuse);
            && w.queue == rest.queue + Kept(r, ty, prio, refuse)
            && w.calls == CallOf(r, ty, prio, refuse) + rest.calls
  {
    assert q[..k][..k-1] == q[..k-1] && q[..k][k-1] == q[k-1];
  }

  function Kept(r: Req, ty: LockType, prio: int, refuse: set<nat>): seq<Req> {
    if !M.Targets(r, ty, prio) then [r]
    else if r.status == Granted && r.id in refuse then [r.(refused := true)] else []
  }

  function CallOf(r: Req, ty: LockType, prio: int, refuse: set<nat>): seq<Call> {
    if !M.Targets(r, ty, prio) then []
    else if r.status == Waiting then [No(r.id)] else [Wound(r.id, r.id !in refuse)]
  }

  class WoundDieLock {
    var requests: seq<Req>
    var status: LockStatus
    var nRLock: int
    var nextId: nat
    var done: bool
    var calls: seq<Call>

    function View(): LM.State
      reads this
    {
      LM.State(requests, nextId, done, calls)
    }

    /** `status_` and `n_rlock_` agree with the list. */
    ghost predicate Counted()
      reads this
    {
      status == StatusOf(requests) && nRLock == GrantedReaders(requests)
    }

    ghost predicate Valid()
      reads this
    {
      M.Inv(View()) && (!done ==> Counted())
    }

    constructor ()
      ensures Valid() && View() == LM.Init
    {
      requests, status, nRLock, nextId, done, calls := [], Free, 0, 1, false, [];
    }

    method WriteAcquire(k: nat)
      requires k < |requests| && requests[k].ty == WLock && requests[k].status == Waiting
      modifies `requests, `status, `calls
      ensures requests == GrantRange(old(requests), k, k + 1) && status == WLocked
      ensures calls == old(calls) + YesRange(old(requests), k, k + 1)
    {
      status := WLocked;
      calls := calls + [Yes(requests[k].id)];
      requests := requests[k := requests[k].(status := Granted)];
    }

    method ReadAcquire(lo: nat, hi: nat)
      requires lo <= hi <= |requests|
      requires forall i | lo <= i < hi :: requests[i].ty == RLock && requests[i].status == Waiting
      modifies `requests, `status, `nRLock, `calls
      ensures requests == GrantRange(old(requests), lo, hi)
      ensures calls == old(calls) + YesRange(old(requests), lo, hi)
      ensures nRLock == old(nRLock) + (hi - lo)
      ensures status == if lo < hi && old(nRLock) == 0 then RLocked else old(status)
    {
      if lo == hi {
        assert GrantRange(requests, lo, hi) == requests;
        return;
      }
      if nRLock == 0 {
        status := RLocked;
      }
      nRLock := nRLock + (hi - lo);
      var i := lo;
      ghost var q, c, n, st := requests, calls, nRLock, status;
      while i < hi
        invariant lo <= i <= hi
        invariant requests == GrantRange(q, lo, i)
        invariant calls == c + YesRange(q, lo, i)
        invariant nRLock == n && status == st
      {
        calls := calls + [Yes(requests[i].id)];
        requests := requests[i := requests[i].(status := Granted)];
        assert YesRange(q, lo, i + 1) == YesRange(q, lo, i) + [Yes(q[i].id)];
        i := i + 1;
      }
    }

    /** Collects the readers from `k` up to the next writer and grants them. */
    method GrantFollowingReaders(k: nat)
      requires k <= |requests|
      requires forall i | k <= i < RunEnd(requests, k) :: requests[i].status == Waiting
      requires nRLock == GrantedReaders(requests)
      modifies `requests, `status, `nRLock, `calls
      ensures var hi := RunEnd(old(requests), k);
              && requests == GrantRange(old(requests), k, hi)
              && calls == old(calls) + YesRange(old(requests), k, hi)
              && status == if k < hi && old(nRLock) == 0 then RLocked else old(status)
      ensures nRLock == GrantedReaders(requests)
    {
      var hi := k;
      while hi < |requests| && requests[hi].ty == RLock
        invariant k <= hi <= |requests|
        invariant RunEnd(requests, k) == RunEnd(requests, hi)
      {
        hi := hi + 1;
      }
      GrantedReadersRange(requests, k, hi);
      ReadAcquire(k, hi);
    }

    /** `wound` on request `k`, erasing it when it gives way. */
    method WoundAt(k: nat, refuse: set<nat>) returns (gone: bool)
      requires k < |requests| && Mid(requests, status, nRLock)
      modifies `requests, `status, `nRLock, `calls
      ensures Mid(requests, status, nRLock)
      ensures var r := old(requests)[k];
              && gone == (r.status == Waiting || r.id !in refuse)
              && requests == (if gone then Remove(old(requests), k)
                              else old(requests)[k := r.(refused := true)])
              && calls == old(calls) + [if r.status == Waiting then No(r.id) else Wound(r.id, gone)]
    {
      var r := requests[k];
      EraseMid(requests, status, nRLock, k);
      if r.status == Waiting {
        calls := calls + [No(r.id)];
        requests := requests[..k] + requests[k+1..];
        return true;
      }
      calls := calls + [Wound(r.id, r.id !in refuse)];
      if r.id in refuse {
        requests := requests[k := r.(refused := true)];
        return false;
      }
      if r.ty == WLock {
        assert status == WLocked;
        status := Free;
      } else {
        assert status == RLocked;
        nRLock := nRLock - 1;
        if nRLock == 0 {
          status := Free;
        }
      }
      requests := requests[..k] + requests[k+1..];
      return true;
    }

    method ScanAndWound(ty: LockType, prio: int, refuse: set<nat>)
      requires Shaped(requests) && Counted()
      modifies `requests, `status, `nRLock, `calls
      ensures Mid(requests, status, nRLock)
      ensures var w := M.WoundDie(old(requests), ty, prio, refuse);
              requests == w.queue && calls == old(calls) + w.calls
    {
      ghost var q0, c0 := requests, calls;
      MidAtRest(requests);
      var k := |requests|;
      ghost var tail: seq<Req> := [];
      ghost var w := M.WoundDie(q0, ty, prio, refuse);
      assert q0[..k] == q0;
      while k > 0
        invariant 0 <= k <= |q0|
        invariant requests == q0[..k] + tail
        invariant Mid(requests, status, nRLock)
        invariant w.queue == M.WoundDie(q0[..k], ty, prio, refuse).queue + tail
        invariant c0 + w.calls == calls + M.WoundDie(q0[..k], ty, prio, refuse).calls
      {
        var r := requests[k-1];
        if M.Stops(r, ty, prio) {
          break;
        }
        ScanStep(q0, k, ty, prio, refuse);
        ghost var kept, call := Kept(r, ty, prio, refuse), CallOf(r, ty, prio, refuse);
        ghost var c := calls;
        WoundStep(k - 1, ty, prio, refuse);
        Splice(q0[..k-1], r, kept, tail);
        Regroup(M.WoundDie(q0[..k-1], ty, prio, refuse).queue, kept, tail);
        Regroup(c, call, M.WoundDie(q0[..k-1], ty, prio, refuse).calls);
        assert q0[..k] == q0[..k-1] + [r];
        tail := kept + tail;
        k := k - 1;
      }
      assert calls == calls + [];
    }

    /** The body of the scan loop at position `k`. */
    method WoundStep(k: nat, ty: LockType, prio: int, refuse: set<nat>)
      requires k < |requests| && Mid(requests, status, nRLock)
      modifies `requests, `status, `nRLock, `calls
      ensures Mid(requests, status, nRLock)
      ensures var q, r := old(requests), old(requests)[k];
              && requests == q[..k] + Kept(r, ty, prio, refuse) + q[k+1..]
              && calls == old(calls) + CallOf(r, ty, prio, refuse)
    {
      if M.Targets(requests[k], ty, prio) {
        var gone := WoundAt(k, refuse);
      }
    }

    method VLock(txn: nat, ty: LockType, prio: int, refuse: set<nat>) returns (id: nat)
      requires Valid()
      modifies this
      ensures Valid() && View() == M.VLock(old(View()), txn, ty, prio, refuse)
      ensures id == old(nextId) && M.Asks(old(View()), View(), txn, ty, prio, refuse)
    {
      hide M.Asks;
      ghost var s := View();
      M.VLockMeaning(s, txn, ty, prio, refuse);
      M.VLockPreserves(s, txn, ty, prio, refuse);
      id := nextId;
      nextId := nextId + 1;
      if done {
        calls := calls + [No(id)];
        return;
      }
      ScanAndWound(ty, prio, refuse);
      ghost var w := M.WoundDie(s.queue, ty, prio, refuse);
      var r := Req(id, txn, prio, ty, Waiting, false);
      requests := requests + [r];
      GrantAfterScan();
      assert View() == M.VLock(s, txn, ty, prio, refuse);
    }

    method FirstWaiting() returns (k: nat)
      requires Mid(requests, status, nRLock)
      ensures k == Holders(status, nRLock)
    {
      k := 0;
      while k < |requests| && requests[k].status == Granted
        invariant k <= Holders(status, nRLock)
      {
        k := k + 1;
      }
    }

    /** Grants at the end of `vlock` when no holder is left: the first writer or the first readers. */
    method GrantWhenFree()
      requires requests != [] && Mid(requests, Free, nRLock)
      modifies `requests, `status, `nRLock, `calls
      ensures Counted()
      ensures var q := old(requests); requests == Regrant(q) && calls == old(calls) + GrantCalls(q, |q|)
    {
      ghost var q := requests;
      RegrantKeeps(q);
      MidSound(q, Free, nRLock);
      ghost var lo, hi := OwedAfterScan(q, Free, nRLock);
      if requests[0].ty == WLock {
        FrontGrantKeepsReaders(q);
        WriteAcquire(0);
      } else {
        GrantFollowingReaders(0);
      }
    }

    /** Grants at the end of `vlock` when readers hold the lock: the readers next in line. */
    method GrantWhenReadLocked()
      requires requests != [] && status == RLocked && Mid(requests, RLocked, nRLock)
      modifies `requests, `status, `nRLock, `calls
      ensures Counted()
      ensures var q := old(requests); requests == Regrant(q) && calls == old(calls) + GrantCalls(q, |q|)
    {
      assert requests[0].ty == RLock && requests[0].status == Granted;
      var k := FirstWaiting();
      RegrantKeeps(requests);
      MidSound(requests, RLocked, nRLock);
      ghost var lo, hi := OwedAfterScan(requests, RLocked, nRLock);
      GrantFollowingReaders(k);
    }

    method GrantAfterScan()
      requires requests != [] && Mid(requests, status, nRLock)
      modifies `requests, `status, `nRLock, `calls
      ensures Counted()
      ensures var q := old(requests); requests == Regrant(q) && calls == old(calls) + GrantCalls(q, |q|)
    {
      match status {
        case Free => GrantWhenFree();
        case RLocked => GrantWhenReadLocked();
        case WLocked =>
          assert requests[0].ty == WLock && requests[0].status == Granted;
          MidSound(requests, WLocked, nRLock);
          ghost var lo, hi := OwedAfterScan(requests, WLocked, nRLock);
          assert GrantRange(requests, lo, hi) == requests;
      }
    }

    method Abort(id: nat)
      requires Valid()
      modifies this
      ensures Valid() && View() == LM.Abort(old(View()), id)
      ensures LM.Aborts(old(View()), View(), id)
    {
      hide LM.Aborts;
      ghost var s := View();
      LM.AbortMeaning(s, id);
      M.AbortPreserves(s, id);
      if done {
        return;
      }
      var k, nWBefore := Find(id);
      if k == |requests| {
        return;
      }
      if requests[k].status == Waiting {
        AbortWaiter(k, nWBefore);
      } else if requests[k].ty == RLock {
        UnlockReader(k);
      } else {
        UnlockWriter(k);
      }
      assert s.queue[k].status == Granted ==> calls == calls + [];
      assert View() == LM.Abort(s, id);
    }

    method Find(id: nat) returns (k: nat, nWBefore: int)
      ensures k == LM.IndexOf(requests, id)
      ensures nWBefore == Count(requests[..k], WLock)
    {
      nWBefore, k := 0, 0;
      while k < |requests| && requests[k].id != id
        invariant 0 <= k <= |requests|
        invariant forall i | 0 <= i < k :: requests[i].id != id
        invariant nWBefore == Count(requests[..k], WLock)
      {
        assert requests[..k+1][..k] == requests[..k];
        if requests[k].ty == WLock {
          nWBefore := nWBefore + 1;
        }
        k := k + 1;
      }
      if k < |requests| {
        LM.IndexOfUnique(requests, id, k);
      }
    }

    method AbortWaiter(k: nat, nWBefore: int)
      requires Shaped(requests) && Counted() && k < |requests| && requests[k].status == Waiting
      requires nWBefore == Count(requests[..k], WLock)
      modifies `requests, `status, `nRLock, `calls
      ensures Counted()
      ensures var r := Remove(old(requests), k);
              && requests == Regrant(r)
              && calls == old(calls) + GrantCalls(r, |r|) + [No(old(requests)[k].id)]
    {
      ghost var q := requests;
      var id, ty := requests[k].id, requests[k].ty;
      GrantedReadersRemove(q, k);
      RegrantKeeps(Remove(q, k));
      WaiterNotFirst(q, k);
      requests := requests[..k] + requests[k+1..];
      if ty == WLock && nWBefore == 0 {
        NoWriterBefore(q, k);
        RemoveFirstWriter(q, k);
        assert status == RLocked;
        GrantFollowingReaders(k);
      } else {
        ghost var w := WriterAhead(q, k);
        RemoveWaiterQuiet(q, k, w);
        assert calls == calls + [];
      }
      calls := calls + [No(id)];
    }

    method UnlockReader(k: nat)
      requires Shaped(requests) && Counted() && k < |requests|
      requires requests[k].status == Granted && requests[k].ty == RLock
      modifies `requests, `status, `nRLock, `calls
      ensures Counted()
      ensures var r := Remove(old(requests), k);
              requests == Regrant(r) && calls == old(calls) + GrantCalls(r, |r|)
    {
      ghost var r := Remove(requests, k);
      RegrantKeeps(r);
      RemoveReader(requests, k);
      nRLock := nRLock - 1;
      requests := requests[..k] + requests[k+1..];
      if nRLock == 0 {
        if k == |requests| {
          status := Free;
          assert |requests| == 0;
        } else {
          PromotedWriter(r);
          WriteAcquire(k);
        }
      }
    }

    method UnlockWriter(k: nat)
      requires Shaped(requests) && Counted() && k < |requests|
      requires requests[k].status == Granted && requests[k].ty == WLock
      modifies `requests, `status, `nRLock, `calls
      ensures Counted()
      ensures var r := Remove(old(requests), k);
              requests == Regrant(r) && calls == old(calls) + GrantCalls(r, |r|)
    {
      ghost var r := Remove(requests, k);
      RegrantKeeps(r);
      RemoveWriter(requests, k);
      requests := requests[..k] + requests[k+1..];
      if k == |requests| {
        status := Free;
        assert |requests| == 0;
      } else if requests[k].ty == WLock {
        PromotedWriter(r);
        WriteAcquire(k);
      } else {
        GrantFollowingReaders(k);
        assert status == RLocked;
      }
    }

    /** `~WoundDieALock`: answers no to every waiter. Its two checks are the caller's duty. */
    method Destroy()
      requires Valid()
      requires !done && status != RLocked
      modifies this
      ensures Valid() && View() == LM.Destroy(old(View()))
      ensures LM.Destroys(old(View()), View())
    {
      LM.DestroyMeaning(View());
      done := true;
      var i := 0;
      while i < |requests|
        invariant 0 <= i <= |requests|
        invariant requests == old(requests) && nextId == old(nextId) && done
        invariant calls == old(calls) + LM.NoCalls(requests, i)
      {
        if requests[i].status == Waiting {
          calls := calls + [No(requests[i].id)];
        }
        i := i + 1;
      }
      requests := [];
    }
  }

  lemma {:induction false} Splice(a: seq<Req>, r: Req, kept: seq<Req>, tail: seq<Req>)
    ensures var q := a + [r] + tail;
            q[..|a|] == a && q[|a|] == r && q[|a|+1..] == tail && a + kept + tail == a + (kept + tail)
  {
  }

  lemma {:induction false} Regroup<T>(a: seq<T>, b: seq<T>, c: seq<T>)
    ensures (a + b) + c == a + (b + c)
  {
  }
}
