/**
 The wait-for relation between transactions that queue on any number of locks.
 */
module WaitGraph {
  import opened LockQueue
  import LM = LockModel

  function Queues(s: seq<LM.State>): (qs: seq<seq<Req>>)
    ensures |qs| == |s| && forall l | 0 <= l < |s| :: qs[l] == s[l].queue
  {
    seq(|s|, l requires 0 <= l < |s| => s[l].queue)
  }

  /** In one queue, `t` waits behind a conflicting request of `u`. */
  ghost predicate WaitsIn(q: seq<Req>, t: nat, u: nat) {
    exists i, j :: 0 <= i < j < |q| && BlocksAt(q, i, j) && q[i].txn == u && q[j].txn == t
  }

  /** Every request carries its transaction's priority. */
  ghost predicate KeepsPriorities(q: seq<Req>, prio: nat -> int) {
    forall x | x in q :: x.prio == prio(x.txn)
  }

  lemma {:induction false} RegrantKeepsPriorities(q: seq<Req>, prio: nat -> int)
    requires KeepsPriorities(q, prio)
    ensures KeepsPriorities(Regrant(q), prio)
  {
    forall x | x in Regrant(q) ensures x.prio == prio(x.txn) {
      var i :| 0 <= i < |q| && Regrant(q)[i] == x;
      assert q[i] in q;
    }
  }

  predicate BlocksAt(q: seq<Req>, i: nat, j: nat)
    requires i < j < |q|
  {
    q[j].status == Waiting && Conflict(q[i].ty, q[j].ty)
  }

  ghost predicate WaitsFor(qs: seq<seq<Req>>, t: nat, u: nat) {
    exists l :: 0 <= l < |qs| && WaitsIn(qs[l], t, u)
  }

  ghost predicate Blocked(qs: seq<seq<Req>>, t: nat) {
    exists l, j :: 0 <= l < |qs| && 0 <= j < |qs[l]| && qs[l][j].txn == t && qs[l][j].status == Waiting
  }

  ghost predicate Chain(qs: seq<seq<Req>>, p: seq<nat>) {
    p != [] && forall k | 0 <= k < |p| - 1 :: WaitsFor(qs, p[k], p[k+1])
  }

  ghost predicate Deadlocked(qs: seq<seq<Req>>) {
    exists p :: |p| > 1 && p[0] == p[|p|-1] && Chain(qs, p)
  }

  function Txns(qs: seq<seq<Req>>): set<nat> {
    set l, i | 0 <= l < |qs| && 0 <= i < |qs[l]| :: qs[l][i].txn
  }

  /** Every wait-for edge climbs in `rank`, unless it leads to somebody who waits nowhere. */
  ghost predicate Climbs(qs: seq<seq<Req>>, rank: nat -> int) {
    forall x, y | WaitsFor(qs, x, y) :: rank(x) < rank(y) || !Blocked(qs, y)
  }

  lemma {:induction false} WaitingIsBlocked(qs: seq<seq<Req>>, t: nat, u: nat)
    requires WaitsFor(qs, t, u)
    ensures Blocked(qs, t)
  {
    var l :| 0 <= l < |qs| && WaitsIn(qs[l], t, u);
    var i, j :| 0 <= i < j < |qs[l]| && BlocksAt(qs[l], i, j) && qs[l][i].txn == u && qs[l][j].txn == t;
    assert qs[l][j].txn == t && qs[l][j].status == Waiting;
  }

  /** Along a chain that ends in a waiter, the last element is strictly above the first. */
  lemma {:induction false} ChainClimbs(qs: seq<seq<Req>>, p: seq<nat>, rank: nat -> int)
    requires Chain(qs, p) && |p| > 1 && Climbs(qs, rank) && Blocked(qs, p[|p|-1])
    ensures rank(p[0]) < rank(p[|p|-1])
  {
    var n := |p| - 1;
    assert WaitsFor(qs, p[n-1], p[n]);
    if n > 1 {
      WaitingIsBlocked(qs, p[n-1], p[n]);
      ChainClimbs(qs, p[..n], rank);
    }
  }

  lemma {:induction false} ClimbingNeverDeadlocks(qs: seq<seq<Req>>, rank: nat -> int)
    requires Climbs(qs, rank)
    ensures !Deadlocked(qs)
  {
    if p :| |p| > 1 && p[0] == p[|p|-1] && Chain(qs, p) {
      assert WaitsFor(qs, p[0], p[1]);
      WaitingIsBlocked(qs, p[0], p[1]);
      ChainClimbs(qs, p, rank);
    }
  }

  /** In settled queues, whoever waits is waiting for somebody. */
  lemma {:induction false} BlockedWaits(qs: seq<seq<Req>>, t: nat) returns (u: nat)
    requires forall l | 0 <= l < |qs| :: Shaped(qs[l])
    requires Blocked(qs, t)
    ensures WaitsFor(qs, t, u) && u in Txns(qs)
  {
    var l, j :| 0 <= l < |qs| && 0 <= j < |qs[l]| && qs[l][j].txn == t && qs[l][j].status == Waiting;
    var q := qs[l];
    assert !Unblocked(q, j);
    var i :| 0 <= i < j && Conflict(q[i].ty, q[j].ty);
    u := q[i].txn;
    assert BlocksAt(q, i, j);
    assert WaitsIn(qs[l], t, u);
  }

  /**
   If edges climb, following them from a waiting transaction ends at one that waits nowhere:
   somebody can always run and release.
   */
  lemma {:induction false} ChainToRunner(qs: seq<seq<Req>>, t: nat, rank: nat -> int) returns (p: seq<nat>)
    requires forall l | 0 <= l < |qs| :: Shaped(qs[l])
    requires Climbs(qs, rank)
    ensures Chain(qs, p) && p[0] == t && !Blocked(qs, p[|p|-1])
    decreases |set x | x in Txns(qs) && rank(x) > rank(t)|
  {
    if Blocked(qs, t) {
      var u := BlockedWaits(qs, t);
      if !Blocked(qs, u) {
        return [t, u];
      }
      var above := set x | x in Txns(qs) && rank(x) > rank(t);
      var above' := set x | x in Txns(qs) && rank(x) > rank(u);
      assert above' <= above - {u};
      SubsetSize(above', above - {u});
      var p' := ChainToRunner(qs, u, rank);
      p := [t] + p';
      ChainCons(qs, t, p');
    } else {
      p := [t];
    }
  }

  lemma {:induction false} ChainCons(qs: seq<seq<Req>>, t: nat, p: seq<nat>)
    requires Chain(qs, p) && WaitsFor(qs, t, p[0])
    ensures Chain(qs, [t] + p)
  {
    var r := [t] + p;
    forall k | 0 <= k < |r| - 1 ensures WaitsFor(qs, r[k], r[k+1]) {
      assert r[k+1] == p[k];
      if k > 0 {
        assert WaitsFor(qs, p[k-1], p[k-1+1]);
      }
    }
  }

  lemma {:induction false} SubsetSize<T>(a: set<T>, b: set<T>)
    requires a <= b
    ensures |a| <= |b|
  {
    if a != {} {
      var x :| x in a;
      SubsetSize(a - {x}, b - {x});
    }
  }
}

/** Any number of wait-die locks used by transactions that each keep one priority. */
module WaitDieSystem {
  import opened LockQueue
  import opened WaitGraph
  import LM = LockModel
  import M = WaitDieModel

  /** One operation on one of the locks. */
  datatype SysOp = On(lock: nat, op: M.Op)

  predicate OpAllowed(s: seq<LM.State>, prio: nat -> int, o: SysOp) {
    && o.lock < |s|
    && M.Enabled(s[o.lock], o.op)
    && (o.op.OpLock? ==> o.op.prio == prio(o.op.txn))
  }

  function SysStep(s: seq<LM.State>, o: SysOp): seq<LM.State> {
    if o.lock < |s| then s[o.lock := M.Step(s[o.lock], o.op)] else s
  }

  /** `n` fresh locks after a sequence of operations. */
  function SysRun(n: nat, ops: seq<SysOp>): seq<LM.State> {
    if ops == [] then seq(n, _ => LM.Init) else SysStep(SysRun(n, ops[..|ops|-1]), ops[|ops|-1])
  }

  ghost predicate Legal(n: nat, prio: nat -> int, ops: seq<SysOp>) {
    forall k | 0 <= k < |ops| :: OpAllowed(SysRun(n, ops[..k]), prio, ops[k])
  }

  ghost predicate SysInv(s: seq<LM.State>, prio: nat -> int) {
    forall l | 0 <= l < |s| :: M.Inv(s[l]) && KeepsPriorities(s[l].queue, prio)
  }

  lemma {:induction false} StepKeeps(s: LM.State, op: M.Op, prio: nat -> int)
    requires M.Inv(s) && KeepsPriorities(s.queue, prio) && M.Enabled(s, op)
    requires op.OpLock? ==> op.prio == prio(op.txn)
    ensures M.Inv(M.Step(s, op)) && KeepsPriorities(M.Step(s, op).queue, prio)
  {
    match op
    case OpLock(txn, ty, p) =>
      M.VLockPreserves(s, txn, ty, p);
    case OpAbort(id) =>
      M.AbortPreserves(s, id);
    case OpDestroy =>
  }

  lemma {:induction false} ReachableInv(n: nat, prio: nat -> int, ops: seq<SysOp>)
    requires Legal(n, prio, ops)
    ensures SysInv(SysRun(n, ops), prio)
  {
    if ops != [] {
      var p, o := ops[..|ops|-1], ops[|ops|-1];
      assert forall k | 0 <= k < |p| :: p[..k] == ops[..k];
      ReachableInv(n, prio, p);
      assert OpAllowed(SysRun(n, p), prio, o);
      StepKeeps(SysRun(n, p)[o.lock], o.op, prio);
    }
  }

  /** A transaction only ever waits for younger ones (larger priority value). */
  lemma {:induction false} WaitsForYounger(s: seq<LM.State>, prio: nat -> int, t: nat, u: nat)
    requires SysInv(s, prio) && WaitsFor(Queues(s), t, u)
    ensures prio(t) < prio(u)
  {
    var l :| 0 <= l < |s| && WaitGraph.WaitsIn(Queues(s)[l], t, u);
    var q := s[l].queue;
    var i, j :| 0 <= i < j < |q| && BlocksAt(q, i, j) && q[i].txn == u && q[j].txn == t;
    assert Conflict(q[i].ty, q[j].ty);
  }

  lemma {:induction false} WaitDieClimbs(n: nat, prio: nat -> int, ops: seq<SysOp>)
    requires Legal(n, prio, ops)
    ensures Climbs(Queues(SysRun(n, ops)), prio)
    ensures forall l | 0 <= l < |Queues(SysRun(n, ops))| :: Shaped(Queues(SysRun(n, ops))[l])
  {
    ReachableInv(n, prio, ops);
    var s := SysRun(n, ops);
    forall x, y | WaitsFor(Queues(s), x, y) ensures prio(x) < prio(y) {
      WaitsForYounger(s, prio, x, y);
    }
  }

  /** No run of any number of wait-die locks deadlocks. */
  lemma {:induction false} NeverDeadlocks(n: nat, prio: nat -> int, ops: seq<SysOp>)
    requires Legal(n, prio, ops)
    ensures !Deadlocked(Queues(SysRun(n, ops)))
  {
    WaitDieClimbs(n, prio, ops);
    ClimbingNeverDeadlocks(Queues(SysRun(n, ops)), prio);
  }

  /** In every reachable state each waiter is blocked, in the end, by a transaction that waits nowhere. */
  lemma {:induction false} SomebodyRuns(n: nat, prio: nat -> int, ops: seq<SysOp>, t: nat)
    returns (p: seq<nat>)
    requires Legal(n, prio, ops)
    ensures var qs := Queues(SysRun(n, ops));
            Chain(qs, p) && p[0] == t && !Blocked(qs, p[|p|-1])
  {
    WaitDieClimbs(n, prio, ops);
    p := ChainToRunner(Queues(SysRun(n, ops)), t, prio);
  }
}

/** Any number of wound-die locks used by transactions that each keep one priority. */
module WoundDieSystem {
  import opened LockQueue
  import opened WaitGraph
  import LM = LockModel
  import M = WoundDieModel

  datatype SysOp = On(lock: nat, op: M.Op)

  predicate OpAllowed(s: seq<LM.State>, prio: nat -> int, o: SysOp) {
    && o.lock < |s|
    && M.Enabled(s[o.lock], o.op)
    && (o.op.OpLock? ==> o.op.prio == prio(o.op.txn))
  }

  function SysStep(s: seq<LM.State>, o: SysOp): seq<LM.State> {
    if o.lock < |s| then s[o.lock := M.Step(s[o.lock], o.op)] else s
  }

  function SysRun(n: nat, ops: seq<SysOp>): seq<LM.State> {
    if ops == [] then seq(n, _ => LM.Init) else SysStep(SysRun(n, ops[..|ops|-1]), ops[|ops|-1])
  }

  ghost predicate Legal(n: nat, prio: nat -> int, ops: seq<SysOp>) {
    forall k | 0 <= k < |ops| :: OpAllowed(SysRun(n, ops[..k]), prio, ops[k])
  }

  ghost predicate SysInv(s: seq<LM.State>, prio: nat -> int) {
    forall l | 0 <= l < |s| :: M.Inv(s[l]) && KeepsPriorities(s[l].queue, prio)
  }

  /** `u` holds some lock and has refused to give it up. */
  ghost predicate Refuses(qs: seq<seq<Req>>, u: nat) {
    exists l, i :: 0 <= l < |qs| && 0 <= i < |qs[l]| &&
                   qs[l][i].txn == u && qs[l][i].status == Granted && qs[l][i].refused
  }

  lemma {:induction false} StepKeeps(s: LM.State, op: M.Op, prio: nat -> int)
    requires M.Inv(s) && KeepsPriorities(s.queue, prio) && M.Enabled(s, op)
    requires op.OpLock? ==> op.prio == prio(op.txn)
    ensures M.Inv(M.Step(s, op)) && KeepsPriorities(M.Step(s, op).queue, prio)
  {
    match op
    case OpLock(txn, ty, p, refuse) =>
      M.VLockPreserves(s, txn, ty, p, refuse);
      if !s.done {
        var w := M.WoundDie(s.queue, ty, p, refuse).queue;
        forall x | x in w ensures x.prio == prio(x.txn) {
          M.ScanFrom(s.queue, ty, p, refuse, x);
        }
        RegrantKeepsPriorities(w + [Req(s.nextId, txn, p, ty, Waiting, false)], prio);
      }
    case OpAbort(id) =>
      M.AbortPreserves(s, id);
      var k := LM.IndexOf(s.queue, id);
      if !s.done && k < |s.queue| {
        assert forall x | x in Remove(s.queue, k) :: x in s.queue;
        RegrantKeepsPriorities(Remove(s.queue, k), prio);
      }
    case OpDestroy =>
  }

  lemma {:induction false} ReachableInv(n: nat, prio: nat -> int, ops: seq<SysOp>)
    requires Legal(n, prio, ops)
    ensures SysInv(SysRun(n, ops), prio)
  {
    if ops != [] {
      var p, o := ops[..|ops|-1], ops[|ops|-1];
      assert forall k | 0 <= k < |p| :: p[..k] == ops[..k];
      ReachableInv(n, prio, p);
      assert OpAllowed(SysRun(n, p), prio, o);
      StepKeeps(SysRun(n, p)[o.lock], o.op, prio);
    }
  }

  /** A transaction waits for older ones, or for one that refused to be wounded. */
  lemma {:induction false} WaitsForOlder(s: seq<LM.State>, prio: nat -> int, t: nat, u: nat)
    requires SysInv(s, prio) && WaitsFor(Queues(s), t, u)
    ensures prio(u) < prio(t) || Refuses(Queues(s), u)
  {
    var qs := Queues(s);
    var l :| 0 <= l < |s| && WaitGraph.WaitsIn(qs[l], t, u);
    var q := s[l].queue;
    var i, j :| 0 <= i < j < |q| && BlocksAt(q, i, j) && q[i].txn == u && q[j].txn == t;
    assert Conflict(q[i].ty, q[j].ty);
    assert M.MayPrecede(q[i], q[j].prio);
    assert q[i] in q && q[j] in q;
    assert qs[l][i].txn == u;
  }

  ghost predicate RefusersRun(qs: seq<seq<Req>>) {
    forall u | Refuses(qs, u) :: !Blocked(qs, u)
  }

  /**
   As long as nobody who refused a wound is itself waiting somewhere, wound-die locks do not
   deadlock and every waiter is blocked, in the end, by a transaction that waits nowhere.
   */
  lemma {:induction false} NeverDeadlocks(n: nat, prio: nat -> int, ops: seq<SysOp>, t: nat) returns (p: seq<nat>)
    requires Legal(n, prio, ops) && RefusersRun(Queues(SysRun(n, ops)))
    ensures var qs := Queues(SysRun(n, ops));
            !Deadlocked(qs) && Chain(qs, p) && p[0] == t && !Blocked(qs, p[|p|-1])
  {
    ReachableInv(n, prio, ops);
    var s := SysRun(n, ops);
    var rank := (x: nat) => -prio(x);
    forall x, y | WaitsFor(Queues(s), x, y) ensures rank(x) < rank(y) || !Blocked(Queues(s), y) {
      WaitsForOlder(s, prio, x, y);
    }
    ClimbingNeverDeadlocks(Queues(s), rank);
    p := ChainToRunner(Queues(s), t, rank);
  }

  /** A holder that refuses stays in the queue. */
  lemma {:induction false} RefuserStays(q: seq<Req>, ty: LockType, prio: int, refuse: set<nat>, h: Req)
    returns (x: Req)
    requires h in q && h.status == Granted && h.id in refuse
    ensures x in M.WoundDie(q, ty, prio, refuse).queue && x.txn == h.txn
  {
    x := h;
    if !M.Stops(q[|q|-1], ty, prio) {
      if h == q[|q|-1] {
        x := if M.Targets(h, ty, prio) then h.(refused := true) else h;
      } else {
        x := RefuserStays(q[..|q|-1], ty, prio, refuse, h);
      }
    }
  }

  /** A writer that comes while `h` holds the lock and refuses to give it up waits for `h`. */
  lemma {:induction false} WaitsForRefuser(s: LM.State, txn: nat, prio: int, h: Req)
    requires !s.done && h in s.queue && h.status == Granted
    ensures WaitGraph.WaitsIn(M.VLock(s, txn, WLock, prio, {h.id}).queue, txn, h.txn)
  {
    var w := M.WoundDie(s.queue, WLock, prio, {h.id}).queue;
    var x := RefuserStays(s.queue, WLock, prio, {h.id}, h);
    var i :| 0 <= i < |w| && w[i] == x;
    var q := w + [Req(s.nextId, txn, prio, WLock, Waiting, false)];
    var r, n := Regrant(q), |w|;
    assert Conflict(q[i].ty, q[n].ty) && !Unblocked(q, n);
    assert BlocksAt(r, i, n) && r[i].txn == h.txn && r[n].txn == txn;
  }

  /** Nothing blocks whoever stands ahead of an unblocked request. */
  lemma {:induction false} AheadUnblocked(q: seq<Req>, j: nat, i: nat)
    requires j < |q| && i < |q| && Unblocked(q, i)
    ensures j <= i ==> Unblocked(q, j)
  {
    if j < i {
      assert !Conflict(q[j].ty, q[i].ty);
      forall k | 0 <= k < j ensures !Conflict(q[k].ty, q[j].ty) {
        assert !Conflict(q[k].ty, q[i].ty);
      }
    }
  }

  /** A transaction that holds a lock and also waits at it is part of a cycle. */
  lemma {:induction false} HoldsAndWaits(qs: seq<seq<Req>>, a: nat, i: nat, j: nat)
    requires a < |qs| && Shaped(qs[a]) && i < |qs[a]| && j < |qs[a]|
    requires qs[a][i].txn == qs[a][j].txn && qs[a][i].status == Granted && qs[a][j].status == Waiting
    ensures Deadlocked(qs)
  {
    var q, t := qs[a], qs[a][i].txn;
    assert Unblocked(q, i) && !Unblocked(q, j);
    var k :| 0 <= k < j && Conflict(q[k].ty, q[j].ty);
    AheadUnblocked(q, j, i);
    if Conflict(q[i].ty, q[j].ty) {
      assert i < j && BlocksAt(q, i, j);
      Cycle(qs, a, t, a, t);
    } else {
      assert i < k && Conflict(q[i].ty, q[k].ty);
      assert !Unblocked(q, k);
      assert BlocksAt(q, k, j) && BlocksAt(q, i, k);
      Cycle(qs, a, t, a, q[k].txn);
    }
  }

  /** Two transactions that wait for each other, or one that waits for itself. */
  lemma {:induction false} Cycle(qs: seq<seq<Req>>, a: nat, t: nat, b: nat, u: nat)
    requires a < |qs| && b < |qs| && WaitGraph.WaitsIn(qs[b], t, u) && WaitGraph.WaitsIn(qs[a], u, t)
    ensures Deadlocked(qs)
  {
    assert WaitsFor(qs, t, u) && WaitsFor(qs, u, t);
    var cycle := [t, u, t];
    assert Chain(qs, cycle);
    assert |cycle| > 1 && cycle[0] == cycle[|cycle|-1];
  }

  /**
   Whoever holds lock `a` by `h` waits at another lock `b`: if the transaction it waits for now
   wants to write `a` and is refused, the two wait for each other.
   */
  lemma {:induction false} RequestCloses(s: seq<LM.State>, prio: nat -> int, a: nat, h: Req, b: nat, j: nat)
    returns (o: SysOp)
    requires SysInv(s, prio) && a < |s| && b < |s| && a != b
    requires h in s[a].queue && h.status == Granted
    requires j < |s[b].queue| && s[b].queue[j].txn == h.txn && s[b].queue[j].status == Waiting
    ensures OpAllowed(s, prio, o) && Deadlocked(Queues(SysStep(s, o)))
  {
    hide M.VLock, M.Ordered, KeepsPriorities, Deadlocked;
    var q := s[b].queue;
    assert !Unblocked(q, j);
    var k :| 0 <= k < j && Conflict(q[k].ty, q[j].ty);
    var u := q[k].txn;
    assert BlocksAt(q, k, j) && WaitGraph.WaitsIn(q, h.txn, u);
    WaitsForRefuser(s[a], u, prio(u), h);
    o := On(a, M.OpLock(u, WLock, prio(u), {h.id}));
    Cycle(Queues(SysStep(s, o)), a, h.txn, b, u);
  }

  /**
   The condition of `NeverDeadlocks` cannot be weakened: wherever a transaction that refused a wound
   waits, there is a deadlock already or one more request makes one.
   */
  lemma {:induction false} WaitingRefuserDeadlocks(n: nat, prio: nat -> int, ops: seq<SysOp>) returns (more: seq<SysOp>)
    requires Legal(n, prio, ops) && !RefusersRun(Queues(SysRun(n, ops)))
    ensures |more| <= 1 && Legal(n, prio, ops + more) && Deadlocked(Queues(SysRun(n, ops + more)))
  {
    hide Legal, SysRun, Deadlocked, M.Step, M.Ordered, KeepsPriorities;
    ReachableInv(n, prio, ops);
    var s := SysRun(n, ops);
    var qs := Queues(s);
    var r :| Refuses(qs, r) && Blocked(qs, r);
    var a, i :| 0 <= a < |qs| && 0 <= i < |qs[a]| &&
                qs[a][i].txn == r && qs[a][i].status == Granted && qs[a][i].refused;
    var b, j :| 0 <= b < |qs| && 0 <= j < |qs[b]| && qs[b][j].txn == r && qs[b][j].status == Waiting;
    if a == b {
      HoldsAndWaits(qs, a, i, j);
      more := [];
      assert ops + more == ops;
    } else {
      var o := RequestCloses(s, prio, a, qs[a][i], b, j);
      LegalSnoc(n, prio, ops, o);
      more := [o];
    }
  }

  lemma {:induction false} LegalSnoc(n: nat, prio: nat -> int, ops: seq<SysOp>, o: SysOp)
    requires Legal(n, prio, ops) && OpAllowed(SysRun(n, ops), prio, o)
    ensures Legal(n, prio, ops + [o]) && SysRun(n, ops + [o]) == SysStep(SysRun(n, ops), o)
  {
    var all := ops + [o];
    assert all[..|ops|] == ops;
    forall k | 0 <= k < |all| ensures OpAllowed(SysRun(n, all[..k]), prio, all[k]) {
      if k < |ops| {
        assert all[..k] == ops[..k];
      }
    }
  }

  /** A fresh lock that is granted to a writer. */
  lemma {:induction false} FirstWriter(txn: nat, prio: int)
    ensures M.VLock(LM.Init, txn, WLock, prio, {}) ==
            LM.State([Req(1, txn, prio, WLock, Granted, false)], 2, false, [Yes(1)])
  {
    var q := [Req(1, txn, prio, WLock, Waiting, false)];
    assert Owed(q, 0);
    assert GrantCalls(q, 1) == GrantCalls(q, 0) + [Yes(1)];
    assert Regrant(q) == [Req(1, txn, prio, WLock, Granted, false)];
    assert M.WoundDie([], WLock, prio, {}).queue + q == q;
  }

  /** A second writer behind a holder that is older or refuses. */
  lemma {:induction false} SecondWriter(h: Req, c: seq<Call>, txn: nat, prio: int, refuse: set<nat>)
    requires h.status == Granted && h.ty == WLock && h.id == 1
    requires h.prio < prio || 1 in refuse
    ensures M.VLock(LM.State([h], 2, false, c), txn, WLock, prio, refuse).queue ==
            [h.(refused := h.refused || prio <= h.prio), Req(2, txn, prio, WLock, Waiting, false)]
  {
    var w := M.WoundDie([h], WLock, prio, refuse).queue;
    var h' := h.(refused := h.refused || prio <= h.prio);
    assert [h][..0] == [];
    if h.prio < prio {
      assert w == [h];
    } else {
      assert M.WoundDie([], WLock, prio, refuse).queue + [h.(refused := true)] == [h'];
    }
    var r := Req(2, txn, prio, WLock, Waiting, false);
    var q := w + [r];
    assert q == [h', r];
    assert Conflict(q[0].ty, q[1].ty);
    assert !Unblocked(q, 1) && Unblocked(q, 0);
    assert Regrant(q) == q;
  }

  /** Two queues in which two transactions wait for each other. */
  lemma {:induction false} CrossedQueues(qs: seq<seq<Req>>)
    requires |qs| == 2 && |qs[0]| == |qs[1]| == 2
    requires qs[0][0].txn == qs[1][1].txn == 1 && qs[0][1].txn == qs[1][0].txn == 2
    requires qs[0][0].ty == qs[1][0].ty == WLock
    requires qs[0][1].status == qs[1][1].status == Waiting
    ensures Deadlocked(qs)
  {
    assert BlocksAt(qs[0], 0, 1) && BlocksAt(qs[1], 0, 1);
    Cycle(qs, 0, 1, 1, 2);
  }

  const CROSSED := [On(0, M.OpLock(1, WLock, 1, {})), On(1, M.OpLock(2, WLock, 2, {})),
                    On(1, M.OpLock(1, WLock, 1, {1})), On(0, M.OpLock(2, WLock, 2, {}))]

  function OneHolder(txn: nat): LM.State {
    LM.State([Req(1, txn, txn, WLock, Granted, false)], 2, false, [Yes(1)])
  }

  lemma {:induction false} CrossedHalfway()
    ensures |SysRun(2, CROSSED[..0])| == |SysRun(2, CROSSED[..1])| == 2
    ensures SysRun(2, CROSSED[..2]) == [OneHolder(1), OneHolder(2)]
  {
    FirstWriter(1, 1);
    FirstWriter(2, 2);
    RunSnoc(CROSSED, 1);
    RunSnoc(CROSSED, 2);
  }

  lemma {:induction false} CrossedRun()
    ensures |SysRun(2, CROSSED[..3])| == 2
    ensures Deadlocked(Queues(SysRun(2, CROSSED)))
  {
    CrossedHalfway();
    RunSnoc(CROSSED, 3);
    RunSnoc(CROSSED, 4);
    assert CROSSED[..4] == CROSSED;
    SecondWriter(OneHolder(2).queue[0], [Yes(1)], 1, 1, {1});
    SecondWriter(OneHolder(1).queue[0], [Yes(1)], 2, 2, {});
    CrossedQueues(Queues(SysRun(2, CROSSED)));
  }

  /** The condition on refusers cannot be dropped: two locks, two transactions, one refusal. */
  lemma {:induction false} RefuserCanDeadlock(prio: nat -> int)
    requires prio(1) == 1 && prio(2) == 2
    ensures exists ops :: Legal(2, prio, ops) && Deadlocked(Queues(SysRun(2, ops)))
  {
    CrossedHalfway();
    CrossedRun();
    assert Legal(2, prio, CROSSED);
  }

  lemma {:induction false} RunSnoc(ops: seq<SysOp>, k: nat)
    requires 0 < k <= |ops|
    ensures SysRun(2, ops[..k]) == SysStep(SysRun(2, ops[..k-1]), ops[k-1])
  {
    assert ops[..k][..k-1] == ops[..k-1];
  }
}
