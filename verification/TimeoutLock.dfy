/**
 The timeout lock and the alarm that all timeout locks of a process share, as values.
 Each lock keeps every request in its list until it is aborted; a request whose alarm fires
 first stays in the list with status `TimedOut`.
 */
module TimeoutModel {
  import opened LockQueue

  datatype WaitStatus = Wait | Lock | TimedOut

  datatype TReq = TReq(id: nat, ty: LockType, status: WaitStatus, alarm: nat)

  datatype TLock = TLock(reqs: seq<TReq>, status: LockStatus, nRLock: int, nextId: nat, tmWait: nat, calls: seq<Call>)

  /** A pending alarm: when it is due, and the request it will time out. */
  datatype Entry = Entry(time: nat, lock: nat, req: nat)

  datatype Alarm = Alarm(waiting: map<nat, Entry>, nextId: nat)

  datatype Process = Process(locks: map<nat, TLock>, alarm: Alarm)

  const Start := Process(map[], Alarm(map[], 1))

  function NewLock(tmWait: nat): TLock {
    TLock([], Free, 0, 1, tmWait, [])
  }

  // ---------- operations on one lock and the alarm ----------

  function VLock(k: TLock, a: Alarm, me: nat, ty: LockType, now: nat): (TLock, Alarm) {
    var id := k.nextId;
    var k' := k.(nextId := id + 1);
    if k.status == Free || (k.status == RLocked && ty == RLock) then
      (k'.(reqs := k.reqs + [TReq(id, ty, Lock, 0)],
           status := if ty == RLock then RLocked else WLocked,
           nRLock := if ty == RLock then k.nRLock + 1 else k.nRLock,
           calls := k.calls + [Yes(id)]), a)
    else if k.tmWait > 0 then
      (k'.(reqs := k.reqs + [TReq(id, ty, Wait, a.nextId)]),
       Alarm(a.waiting[a.nextId := Entry(now + k.tmWait, me, id)], a.nextId + 1))
    else
      (k'.(calls := k.calls + [No(id)]), a)
  }

  function IndexOf(rs: seq<TReq>, id: nat): (i: nat)
    ensures i <= |rs|
    ensures i < |rs| ==> rs[i].id == id
    ensures forall j | 0 <= j < i :: rs[j].id != id
  {
    if rs == [] then 0
    else if IndexOf(rs[..|rs|-1], id) < |rs| - 1 then IndexOf(rs[..|rs|-1], id)
    else if rs[|rs|-1].id == id then |rs| - 1 else |rs|
  }

  function Erase(rs: seq<TReq>, i: nat): (r: seq<TReq>)
    requires i < |rs|
    ensures |r| == |rs| - 1
    ensures forall j {:trigger r[j]} | 0 <= j < |r| :: r[j] == rs[if j < i then j else j + 1]
  {
    rs[..i] + rs[i+1..]
  }

  function FirstWait(rs: seq<TReq>, i: nat): (w: nat)
    requires i <= |rs|
    ensures i <= w <= |rs|
    ensures w < |rs| ==> rs[w].status == Wait
    ensures forall j | i <= j < w :: rs[j].status != Wait
    decreases |rs| - i
  {
    if i == |rs| || rs[i].status == Wait then i else FirstWait(rs, i + 1)
  }

  /** `lock_all` serves the first waiter and, if it is a reader, every other waiting reader. */
  predicate Served(rs: seq<TReq>, i: nat)
    requires i < |rs|
  {
    var w := FirstWait(rs, 0);
    rs[i].status == Wait && (i == w || (rs[w].ty == RLock && rs[i].ty == RLock))
  }

  function Serve(rs: seq<TReq>, n: nat): (r: seq<TReq>)
    requires n <= |rs|
    ensures |r| == |rs|
    ensures forall i {:trigger r[i]} | 0 <= i < |rs| ::
              r[i] == if i < n && Served(rs, i) then rs[i].(status := Lock) else rs[i]
  {
    seq(|rs|, i requires 0 <= i < |rs| => if i < n && Served(rs, i) then rs[i].(status := Lock) else rs[i])
  }

  function ServeCalls(rs: seq<TReq>, n: nat): seq<Call>
    requires n <= |rs|
  {
    if n == 0 then [] else ServeCalls(rs, n - 1) + if Served(rs, n - 1) then [Yes(rs[n-1].id)] else []
  }

  function ServedAlarms(rs: seq<TReq>, n: nat): set<nat>
    requires n <= |rs|
  {
    set i | 0 <= i < n && Served(rs, i) :: rs[i].alarm
  }

  function StatusOf(rs: seq<TReq>): LockStatus {
    var w := FirstWait(rs, 0);
    if w == |rs| then Free else if rs[w].ty == RLock then RLocked else WLocked
  }

  function Readers(rs: seq<TReq>): nat {
    if rs == [] then 0
    else Readers(rs[..|rs|-1]) + if rs[|rs|-1].status == Lock && rs[|rs|-1].ty == RLock then 1 else 0
  }

  function Abort(k: TLock, a: Alarm, id: nat): (TLock, Alarm) {
    var i := IndexOf(k.reqs, id);
    if i == |k.reqs| then (k, a)
    else
      var r, rs := k.reqs[i], Erase(k.reqs, i);
      match r.status
      case Lock =>
        var n := if r.ty == RLock then k.nRLock - 1 else k.nRLock;
        if n != 0 then (k.(reqs := rs, nRLock := n), a)
        else
          (k.(reqs := Serve(rs, |rs|), status := StatusOf(rs), nRLock := Readers(Serve(rs, |rs|)),
              calls := k.calls + ServeCalls(rs, |rs|)),
           a.(waiting := a.waiting - ServedAlarms(rs, |rs|)))
      case Wait => (k.(reqs := rs), a.(waiting := a.waiting - {r.alarm}))
      case TimedOut => (k.(reqs := rs), a)
  }

  /** `do_timeout` on request `id`. */
  function TimeOut(k: TLock, id: nat): TLock {
    var i := IndexOf(k.reqs, id);
    if i < |k.reqs| && k.reqs[i].status == Wait then
      k.(reqs := k.reqs[i := k.reqs[i].(status := TimedOut)], calls := k.calls + [No(id)])
    else k
  }

  /** What the destructor tells the waiters among the first `n` requests, in queue order. */
  function Noes(rs: seq<TReq>, n: nat): seq<Call>
    requires n <= |rs|
  {
    if n == 0 then [] else Noes(rs, n - 1) + if rs[n-1].status == Wait then [No(rs[n-1].id)] else []
  }

  function Waiting(rs: seq<TReq>): set<nat> {
    set i | 0 <= i < |rs| && rs[i].status == Wait :: rs[i].alarm
  }

  // ---------- operations of the process ----------

  datatype Op =
    | OpNew(l: nat, tmWait: nat)
    | OpLock(l: nat, ty: LockType, now: nat)
    | OpAbort(l: nat, id: nat)
    | OpTick(now: nat)
    | OpDestroy(l: nat)

  ghost predicate Enabled(p: Process, op: Op) {
    match op
    case OpNew(l, _) => l !in p.locks
    case OpLock(l, _, _) => l in p.locks
    case OpAbort(l, _) => l in p.locks
    case OpTick(_) => true
    case OpDestroy(l) => l in p.locks
  }

  ghost predicate IsFirst(w: map<nat, Entry>, a: nat) {
    a in w && forall b | b in w :: a <= b
  }

  /** `exe_next`: fires the alarm with the smallest id if it is due. */
  ghost predicate TickTo(p: Process, now: nat, p': Process, fired: bool) {
    if p.alarm.waiting == map[] then p' == p && !fired
    else
      exists a :: IsFirst(p.alarm.waiting, a) && FireTo(p, now, a, p', fired)
  }

  ghost predicate FireTo(p: Process, now: nat, a: nat, p': Process, fired: bool)
    requires a in p.alarm.waiting
  {
    var e := p.alarm.waiting[a];
    if now <= e.time then p' == p && !fired
    else
      fired && e.lock in p.locks &&
      p' == Process(p.locks[e.lock := TimeOut(p.locks[e.lock], e.req)],
                    p.alarm.(waiting := p.alarm.waiting - {a}))
  }

  ghost predicate Next(p: Process, op: Op, p': Process) {
    Enabled(p, op) &&
    match op
    case OpNew(l, tm) => p' == p.(locks := p.locks[l := NewLock(tm)])
    case OpLock(l, ty, now) =>
      var (k, a) := VLock(p.locks[l], p.alarm, l, ty, now); p' == Process(p.locks[l := k], a)
    case OpAbort(l, id) =>
      var (k, a) := Abort(p.locks[l], p.alarm, id); p' == Process(p.locks[l := k], a)
    case OpTick(now) => exists fired :: TickTo(p, now, p', fired)
    case OpDestroy(l) =>
      p' == Process(p.locks - {l}, p.alarm.(waiting := p.alarm.waiting - Waiting(p.locks[l].reqs)))
  }

  // ---------- the invariant ----------

  /** `status_` and `n_rlock_` describe the granted requests; who waits has a reason to. */
  ghost predicate Agrees(k: TLock) {
    && k.nRLock == Readers(k.reqs)
    && (k.status == RLocked <==> k.nRLock > 0)
    && (k.status == Free ==> forall i | 0 <= i < |k.reqs| :: k.reqs[i].status == TimedOut)
    && (k.status == RLocked ==> forall i | 0 <= i < |k.reqs| ::
          (k.reqs[i].status == Lock ==> k.reqs[i].ty == RLock) &&
          (k.reqs[i].status == Wait ==> k.reqs[i].ty == WLock))
    && (k.status == WLocked ==> exists h :: 0 <= h < |k.reqs| && SoleWriter(k.reqs, h))
  }

  ghost predicate SoleWriter(rs: seq<TReq>, h: nat)
    requires h < |rs|
  {
    rs[h].ty == WLock && forall i | 0 <= i < |rs| :: rs[i].status == Lock <==> i == h
  }

  ghost predicate IdsOk(k: TLock) {
    && 1 <= k.nextId
    && (forall i | 0 <= i < |k.reqs| :: 1 <= k.reqs[i].id < k.nextId)
    && (forall i, j | 0 <= i < j < |k.reqs| :: k.reqs[i].id != k.reqs[j].id)
    && (k.tmWait == 0 ==> forall i | 0 <= i < |k.reqs| :: k.reqs[i].status != Wait)
  }

  /** Every waiting request of lock `l` has its own pending alarm, which will time out just that request. */
  ghost predicate Armed(rs: seq<TReq>, l: nat, w: map<nat, Entry>) {
    forall i | 0 <= i < |rs| && rs[i].status == Wait ::
      rs[i].alarm in w && w[rs[i].alarm].lock == l && w[rs[i].alarm].req == rs[i].id
  }

  /** Every pending alarm for lock `l` belongs to a waiting request. */
  ghost predicate Live(rs: seq<TReq>, l: nat, w: map<nat, Entry>) {
    forall a | a in w && w[a].lock == l :: a in Waiting(rs)
  }

  ghost predicate LockInv(k: TLock, l: nat, a: Alarm) {
    Agrees(k) && IdsOk(k) && Armed(k.reqs, l, a.waiting) && Live(k.reqs, l, a.waiting)
  }

  ghost predicate Inv(p: Process) {
    && (forall l | l in p.locks :: LockInv(p.locks[l], l, p.alarm))
    && (forall a | a in p.alarm.waiting :: a < p.alarm.nextId && p.alarm.waiting[a].lock in p.locks)
  }

  function Answers(calls: seq<Call>, id: nat): nat {
    multiset(calls)[Yes(id)] + multiset(calls)[No(id)]
  }

  /** At most one answer per request: none while it waits, yes for a holder, no after a timeout. */
  ghost predicate Ledger(k: TLock) {
    && (forall id: nat :: Answers(k.calls, id) <= 1)
    && (forall id: nat | id < 1 || k.nextId <= id :: Answers(k.calls, id) == 0)
    && (forall i | 0 <= i < |k.reqs| :: Answered(k.calls, k.reqs[i]))
  }

  /** Grants carry ids that the lock has issued, from 1 on; the next request gets one that nobody was granted. */
  lemma {:induction false} IssuedIds(k: TLock, id: nat)
    requires Ledger(k) && Yes(id) in k.calls
    ensures 1 <= id < k.nextId
  {
    assert multiset(k.calls)[Yes(id)] > 0;
    assert Answers(k.calls, id) > 0;
  }

  predicate Answered(calls: seq<Call>, r: TReq) {
    match r.status
    case Wait => Answers(calls, r.id) == 0
    case Lock => multiset(calls)[Yes(r.id)] == 1
    case TimedOut => multiset(calls)[No(r.id)] == 1
  }

  // ---------- preservation, lock by lock ----------

  /** Alarms of one lock come and go without touching those of another. */
  lemma {:induction false} OthersArmed(rs: seq<TReq>, l: nat, w: map<nat, Entry>, w': map<nat, Entry>)
    requires Armed(rs, l, w) && Live(rs, l, w)
    requires forall a | a in w && w[a].lock == l :: a in w' && w'[a] == w[a]
    requires forall a | a in w' && w'[a].lock == l :: a in w && w[a].lock == l
    ensures Armed(rs, l, w') && Live(rs, l, w')
  {
  }

  /** A reader that is granted at once. */
  lemma {:induction false} GrantedReader(k: TLock)
    requires Agrees(k) && (k.status == Free || k.status == RLocked)
    ensures Agrees(k.(reqs := k.reqs + [TReq(k.nextId, RLock, Lock, 0)], status := RLocked, nRLock := k.nRLock + 1))
  {
    var r := TReq(k.nextId, RLock, Lock, 0);
    AppendReaders(k.reqs, r);
    var p := k.reqs + [r];
    forall i | 0 <= i < |p| ensures (p[i].status == Lock ==> p[i].ty == RLock) &&
                                    (p[i].status == Wait ==> p[i].ty == WLock) {
      if i < |k.reqs| {
        assert p[i] == k.reqs[i];
      }
    }
  }

  /** A writer that is granted at once. */
  lemma {:induction false} GrantedWriter(k: TLock)
    requires Agrees(k) && k.status == Free
    ensures Agrees(k.(reqs := k.reqs + [TReq(k.nextId, WLock, Lock, 0)], status := WLocked))
  {
    var r := TReq(k.nextId, WLock, Lock, 0);
    AppendReaders(k.reqs, r);
    var p := k.reqs + [r];
    forall i | 0 <= i < |p| ensures p[i].status == Lock <==> i == |k.reqs| {
      if i < |k.reqs| {
        assert p[i] == k.reqs[i];
      }
    }
    assert SoleWriter(p, |k.reqs|);
  }

  /** A request that has to wait. */
  lemma {:induction false} QueuedAgrees(k: TLock, ty: LockType, alarm: nat)
    requires Agrees(k) && !(k.status == Free || (k.status == RLocked && ty == RLock))
    ensures Agrees(k.(reqs := k.reqs + [TReq(k.nextId, ty, Wait, alarm)]))
  {
    var r := TReq(k.nextId, ty, Wait, alarm);
    AppendReaders(k.reqs, r);
    if k.status == WLocked {
      var h :| 0 <= h < |k.reqs| && SoleWriter(k.reqs, h);
      assert SoleWriter(k.reqs + [r], h);
    }
  }

  lemma {:induction false} GrantedAlarms(rs: seq<TReq>, r: TReq, l: nat, w: map<nat, Entry>)
    requires Armed(rs, l, w) && Live(rs, l, w) && r.status == Lock
    ensures Armed(rs + [r], l, w) && Live(rs + [r], l, w)
  {
    AppendWaiting(rs, r);
  }

  lemma {:induction false} QueuedAlarms(rs: seq<TReq>, r: TReq, l: nat, w: map<nat, Entry>, e: Entry)
    requires Armed(rs, l, w) && Live(rs, l, w)
    requires r.status == Wait && r.alarm !in w && e.lock == l && e.req == r.id
    ensures Armed(rs + [r], l, w[r.alarm := e]) && Live(rs + [r], l, w[r.alarm := e])
  {
    AppendWaiting(rs, r);
  }

  lemma {:induction false} VLockIds(k: TLock, a: Alarm, l: nat, ty: LockType, now: nat)
    requires IdsOk(k)
    ensures IdsOk(VLock(k, a, l, ty, now).0)
  {
  }

  lemma {:induction false} VLockAgrees(k: TLock, a: Alarm, l: nat, ty: LockType, now: nat)
    requires Agrees(k)
    ensures Agrees(VLock(k, a, l, ty, now).0)
  {
    hide Agrees;
    var k' := VLock(k, a, l, ty, now).0;
    if k.status == Free || (k.status == RLocked && ty == RLock) {
      match ty {
        case RLock => GrantedReader(k);
        case WLock => GrantedWriter(k);
      }
      SameAgrees(k.(reqs := k'.reqs, status := k'.status, nRLock := k'.nRLock), k');
    } else if k.tmWait > 0 {
      QueuedAgrees(k, ty, a.nextId);
      SameAgrees(k.(reqs := k'.reqs), k');
    } else {
      SameAgrees(k, k');
    }
  }

  lemma {:induction false} SameAgrees(k: TLock, k': TLock)
    requires Agrees(k) && k'.reqs == k.reqs && k'.status == k.status && k'.nRLock == k.nRLock
    ensures Agrees(k')
  {
  }

  lemma {:induction false} VLockInv(k: TLock, a: Alarm, l: nat, ty: LockType, now: nat)
    requires LockInv(k, l, a) && a.nextId !in a.waiting
    ensures LockInv(VLock(k, a, l, ty, now).0, l, VLock(k, a, l, ty, now).1)
  {
    hide Agrees, IdsOk, Armed, Live;
    VLockIds(k, a, l, ty, now);
    VLockAgrees(k, a, l, ty, now);
    if k.status == Free || (k.status == RLocked && ty == RLock) {
      GrantedAlarms(k.reqs, TReq(k.nextId, ty, Lock, 0), l, a.waiting);
    } else if k.tmWait > 0 {
      QueuedAlarms(k.reqs, TReq(k.nextId, ty, Wait, a.nextId), l, a.waiting,
                   Entry(now + k.tmWait, l, k.nextId));
    }
  }

  lemma {:induction false} AppendReaders(rs: seq<TReq>, r: TReq)
    ensures Readers(rs + [r]) == Readers(rs) + if r.status == Lock && r.ty == RLock then 1 else 0
  {
    assert (rs + [r])[..|rs|] == rs;
  }

  lemma {:induction false} AppendWaiting(rs: seq<TReq>, r: TReq)
    ensures Waiting(rs + [r]) == Waiting(rs) + if r.status == Wait then {r.alarm} else {}
  {
    var q := rs + [r];
    forall x | x in Waiting(rs) ensures x in Waiting(q) {
      var i :| 0 <= i < |rs| && rs[i].status == Wait && rs[i].alarm == x;
      assert q[i].alarm == x;
    }
    if r.status == Wait {
      assert q[|rs|].alarm == r.alarm;
    }
    forall x | x in Waiting(q) ensures x in Waiting(rs) || (r.status == Wait && x == r.alarm) {
      var i :| 0 <= i < |q| && q[i].status == Wait && q[i].alarm == x;
      if i < |rs| {
        assert q[i] == rs[i];
      }
    }
  }

  /** Erasing request `i` of a lock: ids, alarms and the reader count. */
  lemma {:induction false} EraseFacts(rs: seq<TReq>, i: nat)
    requires i < |rs|
    ensures Readers(Erase(rs, i)) == Readers(rs) - if rs[i].status == Lock && rs[i].ty == RLock then 1 else 0
  {
    if i == |rs| - 1 {
      assert Erase(rs, i) == rs[..i];
    } else {
      var p := rs[..|rs|-1];
      EraseFacts(p, i);
      assert Erase(rs, i) == Erase(p, i) + [rs[|rs|-1]];
      assert Erase(rs, i)[..|rs|-2] == Erase(p, i);
    }
  }

  lemma {:induction false} EraseWaiting(rs: seq<TReq>, i: nat, l: nat, w: map<nat, Entry>)
    requires i < |rs| && Armed(rs, l, w)
    requires forall x, y | 0 <= x < y < |rs| :: rs[x].id != rs[y].id
    ensures Waiting(Erase(rs, i)) == Waiting(rs) - if rs[i].status == Wait then {rs[i].alarm} else {}
    ensures Armed(Erase(rs, i), l, w)
  {
    var r := Erase(rs, i);
    forall x | x in Waiting(rs) && !(rs[i].status == Wait && x == rs[i].alarm) ensures x in Waiting(r) {
      var j :| 0 <= j < |rs| && rs[j].status == Wait && rs[j].alarm == x;
      assert r[if j < i then j else j - 1] == rs[j];
    }
    forall x | x in Waiting(r) ensures x in Waiting(rs) && !(rs[i].status == Wait && x == rs[i].alarm) {
      var j :| 0 <= j < |r| && r[j].status == Wait && r[j].alarm == x;
      var j' := if j < i then j else j + 1;
      assert r[j] == rs[j'];
      assert rs[j'].id != rs[i].id;
    }
  }

  lemma {:induction false} EraseIds(k: TLock, i: nat)
    requires IdsOk(k) && i < |k.reqs|
    ensures IdsOk(k.(reqs := Erase(k.reqs, i)))
  {
    var rs, r := k.reqs, Erase(k.reqs, i);
    forall x, y | 0 <= x < y < |r| ensures r[x].id != r[y].id {
      var x', y' := if x < i then x else x + 1, if y < i then y else y + 1;
      assert r[x] == rs[x'] && r[y] == rs[y'] && x' < y';
    }
  }

  /** Serving the queue empties exactly the served alarms. */
  lemma {:induction false} ServeAlarms(rs: seq<TReq>, l: nat, w: map<nat, Entry>)
    requires Armed(rs, l, w) && Live(rs, l, w)
    requires forall x, y | 0 <= x < y < |rs| :: rs[x].id != rs[y].id
    ensures var w' := w - ServedAlarms(rs, |rs|);
            Armed(Serve(rs, |rs|), l, w') && Live(Serve(rs, |rs|), l, w')
  {
    var r, gone := Serve(rs, |rs|), ServedAlarms(rs, |rs|);
    forall i | 0 <= i < |r| && r[i].status == Wait ensures r[i].alarm !in gone {
      assert r[i] == rs[i] && !Served(rs, i);
      forall j | 0 <= j < |rs| && Served(rs, j) ensures rs[j].alarm != rs[i].alarm {
        assert rs[i].id != rs[j].id;
      }
    }
    forall a | a in w && a !in gone && w[a].lock == l ensures a in Waiting(r) {
      assert a in Waiting(rs);
      var i :| 0 <= i < |rs| && rs[i].status == Wait && rs[i].alarm == a;
      assert !Served(rs, i);
      assert r[i] == rs[i];
    }
  }

  /** Nothing is granted before `lock_all`; afterwards status and reader count fit what it granted. */
  lemma {:induction false} ServeAgrees(k: TLock, calls: seq<Call>)
    requires forall i | 0 <= i < |k.reqs| :: k.reqs[i].status != Lock
    ensures var r := Serve(k.reqs, |k.reqs|);
            Agrees(k.(reqs := r, status := StatusOf(k.reqs), nRLock := Readers(r), calls := calls))
  {
    var rs := k.reqs;
    var r := Serve(rs, |rs|);
    var w := FirstWait(rs, 0);
    if w == |rs| {
      forall i | 0 <= i < |rs| ensures r[i].status == TimedOut {
        match rs[i].status
        case Wait =>
        case Lock =>
        case TimedOut =>
      }
      NoReaders(r);
    } else if rs[w].ty == RLock {
      assert Served(rs, w) && r[w].status == Lock;
      SomeReader(r, w);
      forall i | 0 <= i < |r| ensures (r[i].status == Lock ==> r[i].ty == RLock) &&
                                      (r[i].status == Wait ==> r[i].ty == WLock) {
        assert r[i].status == Lock ==> Served(rs, i);
        match r[i].ty
        case RLock =>
        case WLock =>
      }
    } else {
      assert Served(rs, w);
      forall i | 0 <= i < |r| ensures r[i].status == Lock <==> i == w {
        assert r[i].status == Lock <==> Served(rs, i);
      }
      assert SoleWriter(r, w);
      NoReaders(r);
    }
  }

  lemma {:induction false} NoReaders(rs: seq<TReq>)
    requires forall i | 0 <= i < |rs| :: rs[i].status == Lock ==> rs[i].ty == WLock
    ensures Readers(rs) == 0
  {
    if rs != [] {
      NoReaders(rs[..|rs|-1]);
    }
  }

  lemma {:induction false} SomeReader(rs: seq<TReq>, i: nat)
    requires i < |rs| && rs[i].status == Lock && rs[i].ty == RLock
    ensures Readers(rs) > 0
  {
    if i < |rs| - 1 {
      SomeReader(rs[..|rs|-1], i);
    }
  }

  /** When the last holder leaves, no request in the list is granted any more. */
  lemma {:induction false} LastHolder(k: TLock, i: nat)
    requires Agrees(k) && i < |k.reqs| && k.reqs[i].status == Lock
    requires k.nRLock == if k.reqs[i].ty == RLock then 1 else 0
    ensures forall j | 0 <= j < |k.reqs| - 1 :: Erase(k.reqs, i)[j].status != Lock
  {
    var rs := Erase(k.reqs, i);
    EraseFacts(k.reqs, i);
    assert k.reqs[i].ty == WLock ==> k.status != RLocked;
    forall j | 0 <= j < |rs| ensures rs[j].status != Lock {
      var j' := if j < i then j else j + 1;
      assert rs[j] == k.reqs[j'];
      if rs[j].status == Lock && k.status == RLocked {
        SomeReader(rs, j);
      }
    }
  }

  lemma {:induction false} AbortInv(k: TLock, a: Alarm, l: nat, id: nat)
    requires LockInv(k, l, a)
    ensures LockInv(Abort(k, a, id).0, l, Abort(k, a, id).1)
  {
    hide Agrees, Armed, Live, Serve, ServeCalls, ServedAlarms, Readers;
    var i := IndexOf(k.reqs, id);
    if i < |k.reqs| {
      EraseIds(k, i);
      var r := k.reqs[i];
      match r.status
      case Lock =>
        if k.nRLock == if r.ty == RLock then 1 else 0 {
          ReleaseLast(k, i, l, a);
        } else {
          EraseAlarms(k.reqs, i, l, a.waiting);
          HolderLeft(k, i);
        }
      case Wait =>
        EraseWaiter(k.reqs, i, l, a.waiting);
        ErasedOther(k, i);
      case TimedOut =>
        EraseAlarms(k.reqs, i, l, a.waiting);
        ErasedOther(k, i);
    }
  }

  lemma {:induction false} EraseWaiter(rs: seq<TReq>, i: nat, l: nat, w: map<nat, Entry>)
    requires i < |rs| && rs[i].status == Wait && Armed(rs, l, w) && Live(rs, l, w)
    requires forall x, y | 0 <= x < y < |rs| :: rs[x].id != rs[y].id
    ensures var w' := w - {rs[i].alarm};
            Armed(Erase(rs, i), l, w') && Live(Erase(rs, i), l, w')
  {
    EraseWaiting(rs, i, l, w);
    var r := Erase(rs, i);
    forall j | 0 <= j < |r| && r[j].status == Wait ensures r[j].alarm != rs[i].alarm {
      assert r[j].alarm in Waiting(r);
    }
  }

  /** The last holder leaves and the queue is served. */
  lemma {:induction false} ReleaseLast(k: TLock, i: nat, l: nat, a: Alarm)
    requires LockInv(k, l, a) && i < |k.reqs| && k.reqs[i].status == Lock
    requires k.nRLock == if k.reqs[i].ty == RLock then 1 else 0
    ensures var rs := Erase(k.reqs, i);
            var r := Serve(rs, |rs|);
            LockInv(k.(reqs := r, status := StatusOf(rs), nRLock := Readers(r),
                       calls := k.calls + ServeCalls(rs, |rs|)),
                    l, a.(waiting := a.waiting - ServedAlarms(rs, |rs|)))
  {
    hide Agrees, Armed, Live;
    var rs := Erase(k.reqs, i);
    var k' := k.(reqs := rs);
    EraseIds(k, i);
    EraseAlarms(k.reqs, i, l, a.waiting);
    ServeIds(k', k.calls + ServeCalls(rs, |rs|));
    ServeAlarms(rs, l, a.waiting);
    LastHolder(k, i);
    ServeAgrees(k', k.calls + ServeCalls(rs, |rs|));
  }

  lemma {:induction false} EraseAlarms(rs: seq<TReq>, i: nat, l: nat, w: map<nat, Entry>)
    requires i < |rs| && rs[i].status != Wait && Armed(rs, l, w) && Live(rs, l, w)
    requires forall x, y | 0 <= x < y < |rs| :: rs[x].id != rs[y].id
    ensures Armed(Erase(rs, i), l, w) && Live(Erase(rs, i), l, w)
  {
    EraseWaiting(rs, i, l, w);
  }

  lemma {:induction false} ServeIds(k: TLock, calls: seq<Call>)
    requires IdsOk(k)
    ensures IdsOk(k.(reqs := Serve(k.reqs, |k.reqs|), calls := calls))
  {
    var r := Serve(k.reqs, |k.reqs|);
    forall x, y | 0 <= x < y < |r| ensures r[x].id != r[y].id {
      assert k.reqs[x].id != k.reqs[y].id;
    }
  }

  lemma {:induction false} HolderLeft(k: TLock, i: nat)
    requires Agrees(k) && i < |k.reqs| && k.reqs[i].status == Lock
    requires k.nRLock != if k.reqs[i].ty == RLock then 1 else 0
    ensures k.reqs[i].ty == RLock && k.status == RLocked
    ensures Agrees(k.(reqs := Erase(k.reqs, i), nRLock := k.nRLock - 1))
  {
    EraseFacts(k.reqs, i);
    var rs := Erase(k.reqs, i);
    if k.reqs[i].ty == RLock {
      SomeReader(k.reqs, i);
    }
    forall j | 0 <= j < |rs| ensures (rs[j].status == Lock ==> rs[j].ty == RLock) &&
                                     (rs[j].status == Wait ==> rs[j].ty == WLock) {
      assert rs[j] == k.reqs[if j < i then j else j + 1];
    }
  }

  lemma {:induction false} ErasedOther(k: TLock, i: nat)
    requires Agrees(k) && i < |k.reqs| && k.reqs[i].status != Lock
    ensures Agrees(k.(reqs := Erase(k.reqs, i)))
  {
    EraseFacts(k.reqs, i);
    var rs := Erase(k.reqs, i);
    forall j | 0 <= j < |rs| ensures rs[j] == k.reqs[if j < i then j else j + 1] {
    }
    if k.status == WLocked {
      var h :| 0 <= h < |k.reqs| && SoleWriter(k.reqs, h);
      assert SoleWriter(rs, if h < i then h else h - 1);
    }
  }

  /** A fired alarm leaves its request timed out and unarmed. */
  lemma {:induction false} TimeOutInv(k: TLock, a: Alarm, l: nat, x: nat)
    requires LockInv(k, l, a) && x in a.waiting && a.waiting[x].lock == l
    ensures LockInv(TimeOut(k, a.waiting[x].req), l, a.(waiting := a.waiting - {x}))
  {
    hide Agrees;
    var id := a.waiting[x].req;
    assert x in Waiting(k.reqs);
    var j :| 0 <= j < |k.reqs| && k.reqs[j].status == Wait && k.reqs[j].alarm == x;
    assert k.reqs[j].id == id;
    var i := IndexOf(k.reqs, id);
    assert i == j;
    TimedOutAgrees(k, i);
    SameAgrees(k.(reqs := TimeOut(k, id).reqs), TimeOut(k, id));
    TimedOutAlarms(k.reqs, i, l, a.waiting);
  }

  lemma {:induction false} TimedOutAgrees(k: TLock, i: nat)
    requires Agrees(k) && i < |k.reqs| && k.reqs[i].status == Wait
    ensures Agrees(k.(reqs := k.reqs[i := k.reqs[i].(status := TimedOut)]))
  {
    TimedOutReaders(k.reqs, i);
    if k.status == WLocked {
      var h :| 0 <= h < |k.reqs| && SoleWriter(k.reqs, h);
      assert SoleWriter(k.reqs[i := k.reqs[i].(status := TimedOut)], h);
    }
  }

  lemma {:induction false} TimedOutAlarms(rs: seq<TReq>, i: nat, l: nat, w: map<nat, Entry>)
    requires i < |rs| && rs[i].status == Wait && Armed(rs, l, w) && Live(rs, l, w)
    requires forall x, y | 0 <= x < y < |rs| :: rs[x].id != rs[y].id
    ensures var r := rs[i := rs[i].(status := TimedOut)];
            Armed(r, l, w - {rs[i].alarm}) && Live(r, l, w - {rs[i].alarm})
  {
    var r := rs[i := rs[i].(status := TimedOut)];
    forall b | b in w && b != rs[i].alarm && w[b].lock == l ensures b in Waiting(r) {
      assert b in Waiting(rs);
      var n :| 0 <= n < |rs| && rs[n].status == Wait && rs[n].alarm == b;
      assert r[n] == rs[n];
    }
    forall n | 0 <= n < |r| && r[n].status == Wait ensures r[n].alarm != rs[i].alarm {
      assert rs[n].id != rs[i].id;
    }
  }

  lemma {:induction false} TimedOutReaders(rs: seq<TReq>, i: nat)
    requires i < |rs| && rs[i].status == Wait
    ensures Readers(rs[i := rs[i].(status := TimedOut)]) == Readers(rs)
  {
    var n := |rs| - 1;
    var r := rs[i := rs[i].(status := TimedOut)];
    if i < n {
      TimedOutReaders(rs[..n], i);
      assert r[..n] == rs[..n][i := rs[i].(status := TimedOut)];
    } else {
      assert r[..n] == rs[..n];
    }
  }

  // ---------- the ledger ----------

  /** One more answer, for a request that had none. */
  lemma {:induction false} AnswerOnce(k: TLock, c: Call, id': nat, nextId: nat)
    requires Ledger(k) && (c == Yes(id') || c == No(id'))
    requires Answers(k.calls, id') == 0 && k.nextId <= nextId && 1 <= id' < nextId
    ensures var calls := k.calls + [c];
            && (forall id: nat :: Answers(calls, id) <= 1)
            && (forall id: nat | id < 1 || nextId <= id :: Answers(calls, id) == 0)
            && (forall r: TReq | r.id != id' && Answered(k.calls, r) :: Answered(calls, r))
            && multiset(calls)[c] == 1
  {
    var calls := k.calls + [c];
    assert multiset(calls) == multiset(k.calls) + multiset{c};
    forall id: nat ensures Answers(calls, id) <= 1
                   ensures id < 1 || nextId <= id ==> Answers(calls, id) == 0 {
      assert Answers(k.calls, id) <= 1;
    }
  }

  lemma {:induction false} VLockLedger(k: TLock, a: Alarm, l: nat, ty: LockType, now: nat)
    requires IdsOk(k) && Ledger(k)
    ensures Ledger(VLock(k, a, l, ty, now).0)
  {
    var k' := VLock(k, a, l, ty, now).0;
    var id' := k.nextId;
    assert Answers(k.calls, id') == 0;
    AnswerOnce(k, Yes(id'), id', id' + 1);
    AnswerOnce(k, No(id'), id', id' + 1);
    forall i | 0 <= i < |k'.reqs| ensures Answered(k'.calls, k'.reqs[i]) {
      if i < |k.reqs| {
        assert k'.reqs[i] == k.reqs[i] && Answered(k.calls, k.reqs[i]);
      }
    }
  }

  /** `id` is among the first `n` requests and is served. */
  ghost predicate ServedIn(rs: seq<TReq>, n: nat, id: nat)
    requires n <= |rs|
  {
    exists i :: 0 <= i < n && Served(rs, i) && rs[i].id == id
  }

  lemma {:induction false} ServeCallsCount(rs: seq<TReq>, n: nat, id: nat)
    requires n <= |rs| && forall x, y | 0 <= x < y < |rs| :: rs[x].id != rs[y].id
    ensures multiset(ServeCalls(rs, n))[No(id)] == 0
    ensures multiset(ServeCalls(rs, n))[Yes(id)] == if ServedIn(rs, n, id) then 1 else 0
  {
    if n > 0 {
      ServeCallsCount(rs, n - 1, id);
      ServedStep(rs, n, id);
      assert multiset(ServeCalls(rs, n)) == multiset(ServeCalls(rs, n - 1)) +
             if Served(rs, n - 1) then multiset{Yes(rs[n-1].id)} else multiset{};
    }
  }

  lemma {:induction false} ServedStep(rs: seq<TReq>, n: nat, id: nat)
    requires 0 < n <= |rs| && forall x, y | 0 <= x < y < |rs| :: rs[x].id != rs[y].id
    ensures var last := Served(rs, n - 1) && rs[n-1].id == id;
            (ServedIn(rs, n, id) <==> ServedIn(rs, n - 1, id) || last) && !(ServedIn(rs, n - 1, id) && last)
  {
  }

  lemma {:induction false} AbortLedger(k: TLock, a: Alarm, id: nat)
    requires IdsOk(k) && Ledger(k)
    ensures Ledger(Abort(k, a, id).0)
  {
    var i := IndexOf(k.reqs, id);
    var k' := Abort(k, a, id).0;
    if i < |k.reqs| {
      var rs := Erase(k.reqs, i);
      EraseIds(k, i);
      forall j | 0 <= j < |rs| ensures Answered(k.calls, rs[j]) {
        assert rs[j] == k.reqs[if j < i then j else j + 1];
      }
      if k.reqs[i].status == Lock && k.nRLock == if k.reqs[i].ty == RLock then 1 else 0 {
        ServeLedger(k.(reqs := rs));
      }
    }
  }

  lemma {:induction false} ServeLedger(k: TLock)
    requires IdsOk(k) && Ledger(k)
    ensures Ledger(k.(reqs := Serve(k.reqs, |k.reqs|), calls := k.calls + ServeCalls(k.reqs, |k.reqs|)))
  {
    var rs, calls := k.reqs, k.calls + ServeCalls(k.reqs, |k.reqs|);
    assert multiset(calls) == multiset(k.calls) + multiset(ServeCalls(rs, |rs|));
    forall id: nat ensures Answers(calls, id) <= 1
                   ensures id < 1 || k.nextId <= id ==> Answers(calls, id) == 0
    {
      ServeCallsCount(rs, |rs|, id);
      assert Answers(k.calls, id) <= 1;
      if ServedIn(rs, |rs|, id) {
        var i :| 0 <= i < |rs| && Served(rs, i) && rs[i].id == id;
        assert Answered(k.calls, rs[i]);
      }
    }
    var r := Serve(rs, |rs|);
    forall i | 0 <= i < |r| ensures Answered(calls, r[i]) {
      assert Answered(k.calls, rs[i]);
      ServeCallsCount(rs, |rs|, rs[i].id);
      assert ServedIn(rs, |rs|, rs[i].id) <==> Served(rs, i);
    }
  }

  lemma {:induction false} TimeOutLedger(k: TLock, id: nat)
    requires IdsOk(k) && Ledger(k)
    ensures Ledger(TimeOut(k, id))
  {
    var i := IndexOf(k.reqs, id);
    if i < |k.reqs| && k.reqs[i].status == Wait {
      assert Answered(k.calls, k.reqs[i]);
      AnswerOnce(k, No(id), id, k.nextId);
      var k' := TimeOut(k, id);
      forall j | 0 <= j < |k'.reqs| ensures Answered(k'.calls, k'.reqs[j]) {
        assert j != i ==> k'.reqs[j] == k.reqs[j] && k.reqs[j].id != id && Answered(k.calls, k.reqs[j]);
      }
    }
  }

  /** How often the destructor answers a request: once if it waits. */
  lemma {:induction false} NoesCount(rs: seq<TReq>, n: nat, id: nat)
    requires n <= |rs| && forall i, j | 0 <= i < j < |rs| :: rs[i].id != rs[j].id
    ensures multiset(Noes(rs, n))[Yes(id)] == 0
    ensures multiset(Noes(rs, n))[No(id)] ==
            if exists i :: 0 <= i < n && rs[i].id == id && rs[i].status == Wait then 1 else 0
  {
    if n > 0 {
      NoesCount(rs, n - 1, id);
      assert multiset(Noes(rs, n)) == multiset(Noes(rs, n - 1)) +
             multiset(if rs[n-1].status == Wait then [No(rs[n-1].id)] else []);
    }
  }

  /** After the destructor has spoken, every request of the list has been answered exactly once. */
  lemma {:induction false} DestroyLedger(k: TLock, i: nat)
    requires IdsOk(k) && Ledger(k) && i < |k.reqs|
    ensures Answers(k.calls + Noes(k.reqs, |k.reqs|), k.reqs[i].id) == 1
  {
    var id, noes := k.reqs[i].id, Noes(k.reqs, |k.reqs|);
    NoesCount(k.reqs, |k.reqs|, id);
    assert multiset(k.calls + noes) == multiset(k.calls) + multiset(noes);
    assert Answered(k.calls, k.reqs[i]) && Answers(k.calls, id) <= 1;
    assert forall j | 0 <= j < |k.reqs| && k.reqs[j].id == id :: j == i;
  }

  // ---------- runs of the process ----------

  ghost predicate Safe(p: Process) {
    Inv(p) && forall l | l in p.locks :: Ledger(p.locks[l])
  }

  /** Changing one lock together with its own alarms keeps the process safe. */
  lemma {:induction false} UpdateSafe(p: Process, l: nat, k: TLock, a: Alarm)
    requires Safe(p) && l in p.locks
    requires LockInv(k, l, a) && Ledger(k)
    requires forall x | x in a.waiting ::
               x < a.nextId && (a.waiting[x].lock == l || (x in p.alarm.waiting && p.alarm.waiting[x] == a.waiting[x]))
    requires forall x | x in p.alarm.waiting && p.alarm.waiting[x].lock != l ::
               x in a.waiting && a.waiting[x] == p.alarm.waiting[x]
    ensures Safe(Process(p.locks[l := k], a))
  {
    hide Agrees, IdsOk, Ledger;
    forall m | m in p.locks && m != l ensures LockInv(p.locks[m], m, a) {
      OthersArmed(p.locks[m].reqs, m, p.alarm.waiting, a.waiting);
    }
  }

  lemma {:induction false} LockSafe(p: Process, l: nat, ty: LockType, now: nat)
    requires Safe(p) && l in p.locks
    ensures var (k, a) := VLock(p.locks[l], p.alarm, l, ty, now); Safe(Process(p.locks[l := k], a))
  {
    hide Agrees, IdsOk, Armed, Live, Ledger;
    assert LockInv(p.locks[l], l, p.alarm) && p.alarm.nextId !in p.alarm.waiting;
    VLockInv(p.locks[l], p.alarm, l, ty, now);
    VLockLedger(p.locks[l], p.alarm, l, ty, now);
    var (k, a) := VLock(p.locks[l], p.alarm, l, ty, now);
    UpdateSafe(p, l, k, a);
  }

  lemma {:induction false} AbortSafe(p: Process, l: nat, id: nat)
    requires Safe(p) && l in p.locks
    ensures var (k, a) := Abort(p.locks[l], p.alarm, id); Safe(Process(p.locks[l := k], a))
  {
    hide Agrees, IdsOk, Armed, Live, Ledger, Abort;
    AbortInv(p.locks[l], p.alarm, l, id);
    AbortLedger(p.locks[l], p.alarm, id);
    AbortFrame(p.locks[l], p.alarm, l, id);
    var (k, a) := Abort(p.locks[l], p.alarm, id);
    UpdateSafe(p, l, k, a);
  }

  lemma {:induction false} NextSafe(p: Process, op: Op, p': Process)
    requires Safe(p) && Next(p, op, p')
    ensures Safe(p')
  {
    hide Safe, VLock, Abort, FireTo;
    match op
    case OpNew(l, tm) =>
      NewSafe(p, l, tm);
    case OpLock(l, ty, now) =>
      LockSafe(p, l, ty, now);
    case OpAbort(l, id) =>
      AbortSafe(p, l, id);
    case OpTick(now) =>
      var fired :| TickTo(p, now, p', fired);
      if p.alarm.waiting != map[] {
        var x :| IsFirst(p.alarm.waiting, x) && FireTo(p, now, x, p', fired);
        FireSafe(p, now, x, p', fired);
      }
    case OpDestroy(l) =>
      DestroySafe(p, l);
  }

  lemma {:induction false} NewSafe(p: Process, l: nat, tm: nat)
    requires Safe(p) && l !in p.locks
    ensures Safe(p.(locks := p.locks[l := NewLock(tm)]))
  {
    hide Agrees, IdsOk, Ledger, Armed, Live;
    NewLockInv(l, tm, p.alarm);
  }

  lemma {:induction false} NewLockInv(l: nat, tm: nat, a: Alarm)
    requires forall x | x in a.waiting :: a.waiting[x].lock != l
    ensures LockInv(NewLock(tm), l, a) && Ledger(NewLock(tm))
  {
  }

  /** Aborting removes alarms of its own lock only. */
  lemma {:induction false} AbortFrame(k: TLock, a: Alarm, l: nat, id: nat)
    requires LockInv(k, l, a)
    ensures var a' := Abort(k, a, id).1;
            && a'.nextId == a.nextId
            && (forall x | x in a'.waiting :: x in a.waiting && a'.waiting[x] == a.waiting[x])
            && (forall x | x in a.waiting && a.waiting[x].lock != l :: x in a'.waiting)
  {
    var i := IndexOf(k.reqs, id);
    if i < |k.reqs| && k.reqs[i].status == Lock && k.nRLock == if k.reqs[i].ty == RLock then 1 else 0 {
      var rs := Erase(k.reqs, i);
      forall x | x in ServedAlarms(rs, |rs|) ensures x in a.waiting && a.waiting[x].lock == l {
        var j :| 0 <= j < |rs| && Served(rs, j) && rs[j].alarm == x;
        assert rs[j] == k.reqs[if j < i then j else j + 1];
      }
    }
  }

  lemma {:induction false} FireSafe(p: Process, now: nat, x: nat, p': Process, fired: bool)
    requires Safe(p) && x in p.alarm.waiting && FireTo(p, now, x, p', fired)
    ensures Safe(p')
  {
    hide Agrees, Armed, Live, Ledger;
    var e := p.alarm.waiting[x];
    if now > e.time {
      TimeOutInv(p.locks[e.lock], p.alarm, e.lock, x);
      TimeOutLedger(p.locks[e.lock], e.req);
      UpdateSafe(p, e.lock, TimeOut(p.locks[e.lock], e.req), p.alarm.(waiting := p.alarm.waiting - {x}));
    }
  }

  lemma {:induction false} DestroySafe(p: Process, l: nat)
    requires Safe(p) && l in p.locks
    ensures Safe(Process(p.locks - {l}, p.alarm.(waiting := p.alarm.waiting - Waiting(p.locks[l].reqs))))
  {
    var w := p.alarm.waiting;
    var w' := w - Waiting(p.locks[l].reqs);
    forall x | x in Waiting(p.locks[l].reqs) ensures x in w && w[x].lock == l {
      var i :| 0 <= i < |p.locks[l].reqs| && p.locks[l].reqs[i].status == Wait && p.locks[l].reqs[i].alarm == x;
    }
    forall m | m in p.locks && m != l ensures LockInv(p.locks[m], m, p.alarm.(waiting := w')) {
      OthersArmed(p.locks[m].reqs, m, w, w');
    }
  }

  ghost predicate Trace(ps: seq<Process>, ops: seq<Op>) {
    && |ps| == |ops| + 1
    && ps[0] == Start
    && forall n | 0 <= n < |ops| :: Next(ps[n], ops[n], ps[n+1])
  }

  /** Every state of every run is safe. */
  lemma {:induction false} RunsAreSafe(ps: seq<Process>, ops: seq<Op>, n: nat)
    requires Trace(ps, ops) && n < |ps|
    ensures Safe(ps[n])
  {
    if n > 0 {
      RunsAreSafe(ps, ops, n - 1);
      NextSafe(ps[n-1], ops[n-1], ps[n-1+1]);
    }
  }

  /** In a safe process a pending alarm always finds its lock and its request, and that request waits. */
  lemma {:induction false} AlarmsNeverDangle(p: Process, x: nat)
    requires Safe(p) && x in p.alarm.waiting
    ensures var e := p.alarm.waiting[x];
            && e.lock in p.locks
            && exists i :: 0 <= i < |p.locks[e.lock].reqs| &&
                 p.locks[e.lock].reqs[i].id == e.req && p.locks[e.lock].reqs[i].status == Wait &&
                 p.locks[e.lock].reqs[i].alarm == x
  {
    var e := p.alarm.waiting[x];
    var rs := p.locks[e.lock].reqs;
    assert x in Waiting(rs);
    var i :| 0 <= i < |rs| && rs[i].status == Wait && rs[i].alarm == x;
    assert p.locks[e.lock].reqs[i].id == e.req;
  }
}

/** Which alarms one call of `Alarm::run` fires. */
module AlarmRun {
  import opened LockQueue
  import opened TimeoutModel

  /** `run` stops at the first alarm, in order of id, that is not due yet. */
  ghost predicate Fires(w: map<nat, Entry>, now: nat, a: nat) {
    a in w && forall b | b in w && b <= a :: w[b].time < now
  }

  ghost function Left(w: map<nat, Entry>, now: nat): map<nat, Entry> {
    map a | a in w && !Fires(w, now, a) :: w[a]
  }

  /** A lower-numbered alarm that is not yet due holds back every due alarm behind it, and nothing else does. */
  lemma {:induction false} AllDueFireIff(w: map<nat, Entry>, now: nat)
    ensures (forall a | a in Left(w, now) :: now <= w[a].time) <==>
            (forall a, b | a in w && b in w && a < b && w[b].time < now :: w[a].time < now)
  {
    var left := Left(w, now);
    if forall a | a in left :: now <= w[a].time {
      forall a, b | a in w && b in w && a < b && w[b].time < now ensures w[a].time < now {
        assert Fires(w, now, b) by {
          assert b !in left;
        }
      }
    }
    if forall a, b | a in w && b in w && a < b && w[b].time < now :: w[a].time < now {
      forall a | a in left ensures now <= w[a].time {
        assert w[a].time < now ==> Fires(w, now, a);
      }
    }
  }

  /** Two locks of different patience, each held by one writer with another one waiting. */
  function Busy(tmWait: nat, alarm: nat): TLock {
    TLock([TReq(1, WLock, Lock, 0), TReq(2, WLock, Wait, alarm)], WLocked, 0, 3, tmWait, [Yes(1)])
  }

  function Taken(tmWait: nat): TLock {
    TLock([TReq(1, WLock, Lock, 0)], WLocked, 0, 2, tmWait, [Yes(1)])
  }

  lemma {:induction false} BusyBegins(tmWait: nat, a: Alarm, l: nat)
    requires tmWait > 0
    ensures VLock(NewLock(tmWait), a, l, WLock, 0) == (Taken(tmWait), a)
    ensures VLock(Taken(tmWait), a, l, WLock, 0) ==
            (Busy(tmWait, a.nextId), Alarm(a.waiting[a.nextId := Entry(tmWait, l, 2)], a.nextId + 1))
  {
    assert NewLock(tmWait).reqs + [TReq(1, WLock, Lock, 0)] == Taken(tmWait).reqs;
    assert NewLock(tmWait).calls + [Yes(1)] == Taken(tmWait).calls;
    assert Taken(tmWait).reqs + [TReq(2, WLock, Wait, a.nextId)] == Busy(tmWait, a.nextId).reqs;
  }

  const ALARM := Alarm(map[1 := Entry(200, 0, 2)], 2)

  const HELD := Process(map[0 := Busy(200, 1), 1 := Busy(10, 2)],
                        Alarm(map[1 := Entry(200, 0, 2), 2 := Entry(10, 1, 2)], 3))

  lemma {:induction false} FirstBusy()
    ensures Next(Start, OpNew(0, 200), Process(map[0 := NewLock(200)], Start.alarm))
    ensures Next(Process(map[0 := NewLock(200)], Start.alarm), OpLock(0, WLock, 0),
                 Process(map[0 := Taken(200)], Start.alarm))
    ensures Next(Process(map[0 := Taken(200)], Start.alarm), OpLock(0, WLock, 0),
                 Process(map[0 := Busy(200, 1)], ALARM))
  {
    hide VLock;
    BusyBegins(200, Start.alarm, 0);
  }

  lemma {:induction false} SecondBusy()
    ensures Next(Process(map[0 := Busy(200, 1)], ALARM), OpNew(1, 10),
                 Process(map[0 := Busy(200, 1), 1 := NewLock(10)], ALARM))
    ensures Next(Process(map[0 := Busy(200, 1), 1 := NewLock(10)], ALARM), OpLock(1, WLock, 0),
                 Process(map[0 := Busy(200, 1), 1 := Taken(10)], ALARM))
    ensures Next(Process(map[0 := Busy(200, 1), 1 := Taken(10)], ALARM), OpLock(1, WLock, 0), HELD)
  {
    hide VLock;
    BusyBegins(10, ALARM, 1);
  }

  /** Requests can bring that about. */
  lemma {:induction false} HeldReached()
    ensures exists ps: seq<Process>, ops: seq<Op> :: Trace(ps, ops) && ps[|ops|] == HELD
  {
    hide Next;
    FirstBusy();
    SecondBusy();
    var one := map[0 := Busy(200, 1)];
    var ps := [Start, Process(map[0 := NewLock(200)], Start.alarm), Process(map[0 := Taken(200)], Start.alarm),
               Process(one, ALARM), Process(one[1 := NewLock(10)], ALARM), Process(one[1 := Taken(10)], ALARM), HELD];
    var ops := [OpNew(0, 200), OpLock(0, WLock, 0), OpLock(0, WLock, 0),
                OpNew(1, 10), OpLock(1, WLock, 0), OpLock(1, WLock, 0)];
    assert Trace(ps, ops);
  }

  /** And then `run` leaves the second alarm pending, forty ticks after it was due. */
  lemma {:induction false} DueAlarmCanBeHeldBack()
    ensures exists ps: seq<Process>, ops: seq<Op> ::
              && Trace(ps, ops)
              && var w := ps[|ops|].alarm.waiting; 2 in w && 2 in Left(w, 50) && w[2].time < 50
  {
    HeldReached();
    var w := HELD.alarm.waiting;
    assert !Fires(w, 50, 2) by {
      assert 1 in w && w[1].time >= 50;
    }
    assert 2 in Left(w, 50);
  }

  /** With one patience for all locks and a clock that does not run backwards, all due alarms fire. */
  lemma {:induction false} UniformPatienceFiresAll(w: map<nat, Entry>, now: nat)
    requires forall a, b | a in w && b in w && a < b :: w[a].time <= w[b].time
    ensures forall a | a in Left(w, now) :: now <= w[a].time
  {
    AllDueFireIff(w, now);
  }

  lemma {:induction false} FirstExists(keys: set<nat>) returns (a: nat)
    requires keys != {}
    ensures a in keys && forall b | b in keys :: a <= b
  {
    var x :| x in keys;
    var rest := keys - {x};
    a := x;
    if rest != {} {
      var y := FirstExists(rest);
      a := if x < y then x else y;
      forall b | b in keys ensures a <= b {
        assert b == x || b in rest;
      }
    } else {
      assert keys == {x};
    }
  }

  /** Firing the first alarm and running on is one run. */
  lemma {:induction false} FireThenRun(w: map<nat, Entry>, now: nat, a: nat)
    requires IsFirst(w, a)
    ensures w[a].time < now ==> Left(w - {a}, now) == Left(w, now)
    ensures now <= w[a].time ==> Left(w, now) == w
  {
    if w[a].time < now {
      assert Fires(w, now, a);
      forall b | b in w && b != a ensures Fires(w, now, b) <==> Fires(w - {a}, now, b) {
        if Fires(w - {a}, now, b) {
          forall c | c in w && c <= b ensures w[c].time < now {
            assert c != a ==> c in w - {a};
          }
        }
      }
    } else {
      forall b | b in w ensures !Fires(w, now, b) {
        assert a <= b;
      }
    }
  }
}

/** What firing alarms does to the requests of a lock. */
module Expiry {
  import opened LockQueue
  import opened TimeoutModel

  /** `k` has become `k2`: exactly the waiters whose alarm is no longer in `w` have timed out. */
  ghost predicate Expires(k: TLock, k2: TLock, w: map<nat, Entry>) {
    && k2 == k.(reqs := k2.reqs, calls := k2.calls)
    && k.calls <= k2.calls
    && |k2.reqs| == |k.reqs|
    && forall i {:trigger k2.reqs[i]} | 0 <= i < |k.reqs| ::
         k2.reqs[i] == if k.reqs[i].status == Wait && k.reqs[i].alarm !in w
                       then k.reqs[i].(status := TimedOut) else k.reqs[i]
  }

  ghost predicate AllExpire(p: Process, p2: Process) {
    && p2.locks.Keys == p.locks.Keys && p2.alarm.nextId == p.alarm.nextId
    && forall l | l in p.locks :: Expires(p.locks[l], p2.locks[l], p2.alarm.waiting)
  }

  lemma {:induction false} NothingExpires(p: Process)
    requires Safe(p)
    ensures AllExpire(p, p)
  {
    hide Agrees, IdsOk, Live, Ledger;
    assert forall l | l in p.locks :: LockInv(p.locks[l], l, p.alarm);
  }

  lemma {:induction false} ExpiryChains(p: Process, q: Process, r: Process)
    requires AllExpire(p, q) && AllExpire(q, r) && r.alarm.waiting.Keys <= q.alarm.waiting.Keys
    ensures AllExpire(p, r)
  {
    forall l | l in p.locks ensures Expires(p.locks[l], r.locks[l], r.alarm.waiting) {
      assert Expires(p.locks[l], q.locks[l], q.alarm.waiting) && Expires(q.locks[l], r.locks[l], r.alarm.waiting);
    }
  }

  lemma {:induction false} FireExpires(p: Process, now: nat, a: nat, p': Process, fired: bool)
    requires Safe(p) && a in p.alarm.waiting && FireTo(p, now, a, p', fired)
    ensures AllExpire(p, p') && p'.alarm.waiting.Keys <= p.alarm.waiting.Keys
  {
    hide Safe, Expires, TimeOut;
    if !fired {
      NothingExpires(p);
    } else {
      forall l | l in p.locks ensures Expires(p.locks[l], p'.locks[l], p'.alarm.waiting) {
        OneExpires(p, a, l);
      }
    }
  }

  lemma {:induction false} OneExpires(p: Process, a: nat, l: nat)
    requires Safe(p) && a in p.alarm.waiting && l in p.locks
    ensures var e := p.alarm.waiting[a];
            Expires(p.locks[l], if l == e.lock then TimeOut(p.locks[l], e.req) else p.locks[l],
                    p.alarm.waiting - {a})
  {
    hide Agrees, Ledger, IdsOk;
    var e, k := p.alarm.waiting[a], p.locks[l];
    assert LockInv(k, l, p.alarm);
    if l == e.lock {
      var i := AlarmIndex(k, p.alarm, l, a);
      assert IndexOf(k.reqs, e.req) == i;
    }
  }

  lemma {:induction false} AlarmIndex(k: TLock, al: Alarm, l: nat, a: nat) returns (i: nat)
    requires LockInv(k, l, al) && a in al.waiting && al.waiting[a].lock == l
    ensures i < |k.reqs| && k.reqs[i].status == Wait && k.reqs[i].alarm == a && IndexOf(k.reqs, al.waiting[a].req) == i
    ensures forall j | 0 <= j < |k.reqs| && j != i && k.reqs[j].status == Wait :: k.reqs[j].alarm != a
  {
    hide Agrees;
    assert a in TimeoutModel.Waiting(k.reqs);
    i :| 0 <= i < |k.reqs| && k.reqs[i].status == Wait && k.reqs[i].alarm == a;
  }
}

/** What the operations of a timeout lock promise, on the states before and after alone. */
module TimeoutPromises {
  import opened LockQueue
  import opened TimeoutModel

  /** A request of type `ty` meets no holder it conflicts with. */
  ghost predicate Lockable(rs: seq<TReq>, ty: LockType) {
    forall x | x in rs && x.status == Lock :: x.ty == RLock && ty == RLock
  }

  /**
   What `vlock` does: the request is granted iff no holder conflicts with it; otherwise it waits, behind all
   others and with an alarm set for the lock's patience from now, if the lock has any, and is told no if not.
   */
  ghost predicate Asks(k: TLock, a: Alarm, k': TLock, a': Alarm, l: nat, ty: LockType, now: nat) {
    && k'.nextId == k.nextId + 1 && k'.tmWait == k.tmWait
    && (if Lockable(k.reqs, ty) then
          k'.reqs == k.reqs + [TReq(k.nextId, ty, Lock, 0)] && k'.calls == k.calls + [Yes(k.nextId)] && a' == a
        else if k.tmWait > 0 then
          && k'.reqs == k.reqs + [TReq(k.nextId, ty, Wait, a.nextId)] && k'.calls == k.calls
          && a'.waiting == a.waiting[a.nextId := Entry(now + k.tmWait, l, k.nextId)] && a'.nextId == a.nextId + 1
        else k'.reqs == k.reqs && k'.calls == k.calls + [No(k.nextId)] && a' == a)
  }

  lemma {:induction false} VLockMeaning(k: TLock, a: Alarm, l: nat, ty: LockType, now: nat)
    requires Agrees(k)
    ensures var (k', a') := VLock(k, a, l, ty, now); Asks(k, a, k', a', l, ty, now)
  {
    LockableIff(k, ty);
  }

  /** The fast test of `vlock` decides whether a holder conflicts. */
  lemma {:induction false} LockableIff(k: TLock, ty: LockType)
    requires Agrees(k)
    ensures k.status == Free || (k.status == RLocked && ty == RLock) <==> Lockable(k.reqs, ty)
  {
    if k.status == WLocked {
      var h :| 0 <= h < |k.reqs| && SoleWriter(k.reqs, h);
      assert k.reqs[h] in k.reqs && k.reqs[h].status == Lock;
    } else if k.status == RLocked {
      ReaderHolds(k.reqs);
    }
  }

  lemma {:induction false} ReaderHolds(rs: seq<TReq>)
    requires Readers(rs) > 0
    ensures exists x :: x in rs && x.status == Lock && x.ty == RLock
  {
    var n := |rs| - 1;
    if rs[n].status == Lock && rs[n].ty == RLock {
      assert rs[n] in rs;
    } else {
      ReaderHolds(rs[..n]);
      var x :| x in rs[..n] && x.status == Lock && x.ty == RLock;
      assert x in rs;
    }
  }

  /** Request `i` is next: nobody ahead of it waits, or it is a reader and whoever waits first is a reader too. */
  ghost predicate IsNext(rs: seq<TReq>, i: nat)
    requires i < |rs|
  {
    && rs[i].status == Wait
    && forall j | 0 <= j < i && rs[j].status == Wait && (forall x | 0 <= x < j :: rs[x].status != Wait) ::
         rs[j].ty == RLock && rs[i].ty == RLock
  }

  /** The yes calls to those of the first `n` requests that came to hold, in queue order. */
  function Promotions(rs: seq<TReq>, rs': seq<TReq>, n: nat): seq<Call>
    requires n <= |rs| == |rs'|
  {
    if n == 0 then []
    else Promotions(rs, rs', n - 1) +
         if rs[n-1].status == Wait && rs'[n-1].status == Lock then [Yes(rs[n-1].id)] else []
  }

  /**
   What `abort` does when it finds request `i`: it leaves the list; if it was the last holder, those next in
   line are granted and told yes. Alarms of those who no longer wait, and no others, are disarmed.
   */
  ghost predicate Leaves(k: TLock, a: Alarm, k': TLock, a': Alarm, i: nat)
    requires i < |k.reqs|
  {
    var rs := k.reqs[..i] + k.reqs[i+1..];
    var last := k.reqs[i].status == Lock && forall x | x in rs :: x.status != Lock;
    && |k'.reqs| == |rs|
    && (forall j | 0 <= j < |rs| :: k'.reqs[j] == if last && IsNext(rs, j) then rs[j].(status := Lock) else rs[j])
    && k'.calls == k.calls + Promotions(rs, k'.reqs, |rs|)
    && (forall x :: x in a'.waiting <==>
          && x in a.waiting && (k.reqs[i].status == Wait ==> x != k.reqs[i].alarm)
          && forall j | 0 <= j < |rs| && rs[j].status == Wait && k'.reqs[j].status == Lock :: x != rs[j].alarm)
    && (forall x | x in a'.waiting :: a'.waiting[x] == a.waiting[x])
  }

  ghost predicate Aborts(k: TLock, a: Alarm, k': TLock, a': Alarm, id: nat) {
    && k'.nextId == k.nextId && k'.tmWait == k.tmWait && a'.nextId == a.nextId
    && ((forall i | 0 <= i < |k.reqs| :: k.reqs[i].id != id) ==> k' == k && a' == a)
    && (forall i | 0 <= i < |k.reqs| && k.reqs[i].id == id :: Leaves(k, a, k', a', i))
  }

  lemma {:induction false} NextIsServed(rs: seq<TReq>, i: nat)
    requires i < |rs|
    ensures IsNext(rs, i) <==> Served(rs, i)
  {
    var w := FirstWait(rs, 0);
    if rs[i].status == Wait && w < i {
      assert rs[w].status == Wait && forall x | 0 <= x < w :: rs[x].status != Wait;
    }
  }

  lemma {:induction false} ServePromotes(rs: seq<TReq>, n: nat)
    requires n <= |rs|
    ensures ServeCalls(rs, n) == Promotions(rs, Serve(rs, |rs|), n)
  {
    if n > 0 {
      ServePromotes(rs, n - 1);
    }
  }

  lemma {:induction false} NothingPromoted(rs: seq<TReq>, n: nat)
    requires n <= |rs|
    ensures Promotions(rs, rs, n) == []
  {
    if n > 0 {
      NothingPromoted(rs, n - 1);
    }
  }

  /** The counter decides whether the request that leaves is the last holder. */
  lemma {:induction false} LastIff(k: TLock, i: nat)
    requires Agrees(k) && i < |k.reqs| && k.reqs[i].status == Lock
    ensures (if k.reqs[i].ty == RLock then k.nRLock - 1 else k.nRLock) == 0 <==>
            forall x | x in Erase(k.reqs, i) :: x.status != Lock
  {
    var rs := Erase(k.reqs, i);
    EraseFacts(k.reqs, i);
    if k.status == WLocked {
      var h :| 0 <= h < |k.reqs| && SoleWriter(k.reqs, h);
      assert i == h;
      forall x | x in rs ensures x.status != Lock {
        var j :| 0 <= j < |rs| && rs[j] == x;
      }
    } else if Readers(rs) > 0 {
      ReaderHolds(rs);
    } else {
      forall x | x in rs ensures x.status != Lock {
        var j :| 0 <= j < |rs| && rs[j] == x;
        assert x in k.reqs;
        if x.status == Lock {
          SomeReader(rs, j);
        }
      }
    }
  }

  lemma {:induction false} AbortMeaning(k: TLock, a: Alarm, l: nat, id: nat)
    requires LockInv(k, l, a)
    ensures var (k', a') := Abort(k, a, id); Aborts(k, a, k', a', id)
  {
    hide Leaves, LockInv, Abort;
    AbortFixed(k, a, id);
    forall i | 0 <= i < |k.reqs| && k.reqs[i].id == id
      ensures var (k', a') := Abort(k, a, id); Leaves(k, a, k', a', i)
    {
      RequestLeaves(k, a, l, i);
    }
  }

  lemma {:induction false} AbortFixed(k: TLock, a: Alarm, id: nat)
    ensures var (k', a') := Abort(k, a, id);
            && k'.nextId == k.nextId && k'.tmWait == k.tmWait && a'.nextId == a.nextId
            && ((forall i | 0 <= i < |k.reqs| :: k.reqs[i].id != id) ==> k' == k && a' == a)
  {
  }

  lemma {:induction false} RequestLeaves(k: TLock, a: Alarm, l: nat, i: nat)
    requires LockInv(k, l, a) && i < |k.reqs|
    ensures var (k', a') := Abort(k, a, k.reqs[i].id); Leaves(k, a, k', a', i)
  {
    hide Leaves, Agrees, Armed, Live, Abort;
    assert IndexOf(k.reqs, k.reqs[i].id) == i;
    if k.reqs[i].status == Lock {
      HolderLeaves(k, a, i);
    } else {
      OtherLeaves(k, a, i);
    }
  }

  lemma {:induction false} OtherLeaves(k: TLock, a: Alarm, i: nat)
    requires i < |k.reqs| && IndexOf(k.reqs, k.reqs[i].id) == i && k.reqs[i].status != Lock
    ensures var (k', a') := Abort(k, a, k.reqs[i].id); Leaves(k, a, k', a', i)
  {
    var rs := Erase(k.reqs, i);
    NothingPromoted(rs, |rs|);
  }

  lemma {:induction false} HolderLeaves(k: TLock, a: Alarm, i: nat)
    requires Agrees(k) && i < |k.reqs| && IndexOf(k.reqs, k.reqs[i].id) == i && k.reqs[i].status == Lock
    ensures var (k', a') := Abort(k, a, k.reqs[i].id); Leaves(k, a, k', a', i)
  {
    hide Agrees, Served, IsNext, Readers;
    var rs := Erase(k.reqs, i);
    LastIff(k, i);
    if forall x | x in rs :: x.status != Lock {
      ServePromotes(rs, |rs|);
      forall j | 0 <= j < |rs| ensures IsNext(rs, j) <==> Served(rs, j) {
        NextIsServed(rs, j);
      }
      ServedCameToHold(rs);
    } else {
      NothingPromoted(rs, |rs|);
    }
  }

  lemma {:induction false} ServedCameToHold(rs: seq<TReq>)
    ensures forall x :: x in ServedAlarms(rs, |rs|) <==>
              exists j :: 0 <= j < |rs| && rs[j].status == Wait && Serve(rs, |rs|)[j].status == Lock && rs[j].alarm == x
  {
    var r := Serve(rs, |rs|);
    forall j | 0 <= j < |rs| ensures rs[j].status == Wait && r[j].status == Lock <==> Served(rs, j) {
    }
  }
}

/** When requests time out, over runs. */
module Deadlines {
  import opened LockQueue
  import opened TimeoutModel
  import opened AlarmRun
  import opened Expiry
  import P = TimeoutPromises

  /** Lock `l` lives from state `m` to state `n`. */
  ghost predicate Lives(ps: seq<Process>, l: nat, m: nat, n: nat) {
    forall j | m <= j <= n && j < |ps| :: l in ps[j].locks
  }

  /** Step `m` asks lock `l` for a request `id`. */
  ghost predicate AsksFor(ps: seq<Process>, ops: seq<Op>, m: nat, l: nat, id: nat) {
    m < |ops| && m < |ps| && ops[m].OpLock? && ops[m].l == l && l in ps[m].locks && id == ps[m].locks[l].nextId
  }

  /** The clock of that step plus the patience of the lock. */
  ghost function Deadline(ps: seq<Process>, ops: seq<Op>, m: nat, l: nat, id: nat): nat
    requires AsksFor(ps, ops, m, l, id)
  {
    ops[m].now + ps[m].locks[l].tmWait
  }

  /** Some tick between states `m` and `n` was later than `t`. */
  ghost predicate TickedLater(ops: seq<Op>, m: nat, n: nat, t: nat) {
    exists j :: m < j < n && j < |ops| && ops[j].OpTick? && t < ops[j].now
  }

  /** Request `i` of `p'` was request `i'` of `p`, with the same alarm if it waits. */
  ghost predicate Carried(p: Process, p': Process, l: nat, r: TReq, r': TReq) {
    && r'.id == r.id && r'.ty == r.ty && r'.alarm == r.alarm
    && (r'.status == Wait ==> r.status == Wait)
    && (r'.status == Wait && r.alarm in p.alarm.waiting ==>
          r.alarm in p'.alarm.waiting && p'.alarm.waiting[r.alarm] == p.alarm.waiting[r.alarm])
  }

  /** One step: where an old request comes from, and that only a tick past its alarm times it out. */
  ghost predicate Lasts(p: Process, op: Op, p': Process, l: nat, r': TReq)
    requires l in p.locks
  {
    exists i :: 0 <= i < |p.locks[l].reqs| &&
      var r := p.locks[l].reqs[i];
      && Carried(p, p', l, r, r')
      && (r'.status == TimedOut && r.status != TimedOut ==>
            r.status == Wait && r.alarm in p.alarm.waiting && op.OpTick? && p.alarm.waiting[r.alarm].time < op.now)
  }

  lemma {:induction false} LockLasts(p: Process, op: Op, p': Process, l: nat, i: nat)
    requires Safe(p) && Next(p, op, p') && op.OpLock? && l in p.locks && l in p'.locks
    requires i < |p'.locks[l].reqs| && p'.locks[l].reqs[i].id < p.locks[l].nextId
    ensures Lasts(p, op, p', l, p'.locks[l].reqs[i])
  {
    hide Safe;
    FreshAlarm(p);
    var rs := p.locks[l].reqs;
    assert i < |rs| && p'.locks[l].reqs[i] == rs[i];
    assert Carried(p, p', l, rs[i], rs[i]);
  }

  lemma {:induction false} FreshAlarm(p: Process)
    requires Safe(p)
    ensures p.alarm.nextId !in p.alarm.waiting
  {
  }

  lemma {:induction false} AbortLasts(p: Process, op: Op, p': Process, l: nat, i: nat)
    requires Safe(p) && Next(p, op, p') && op.OpAbort? && l in p.locks && l in p'.locks
    requires i < |p'.locks[l].reqs|
    ensures Lasts(p, op, p', l, p'.locks[l].reqs[i])
  {
    hide Agrees, IdsOk, Ledger, Live, Abort;
    var k, r' := p.locks[op.l], p'.locks[l].reqs[i];
    assert LockInv(k, op.l, p.alarm) && LockInv(p.locks[l], l, p.alarm);
    NextSafe(p, op, p');
    assert LockInv(p'.locks[l], l, p'.alarm);
    AbortFrame(k, p.alarm, op.l, op.id);
    var j := i;
    if l == op.l {
      j := AbortedFrom(k, p.alarm, op.id, i);
    }
    assert Carried(p, p', l, p.locks[l].reqs[j], r');
  }

  /** Where request `i` of the list after an abort stood before. */
  lemma {:induction false} AbortedFrom(k: TLock, a: Alarm, id: nat, i: nat) returns (j: nat)
    requires i < |Abort(k, a, id).0.reqs|
    ensures j < |k.reqs|
    ensures var r, r' := k.reqs[j], Abort(k, a, id).0.reqs[i];
            r' == r || (r.status == Wait && r' == r.(status := Lock))
  {
    var x := IndexOf(k.reqs, id);
    j := if i < x then i else i + 1;
    if x == |k.reqs| {
      j := i;
    }
  }

  lemma {:induction false} TickLasts(p: Process, op: Op, p': Process, l: nat, i: nat)
    requires Safe(p) && Next(p, op, p') && op.OpTick? && l in p.locks && l in p'.locks
    requires i < |p'.locks[l].reqs|
    ensures Lasts(p, op, p', l, p'.locks[l].reqs[i])
  {
    hide Safe, AllExpire;
    var fired :| TickTo(p, op.now, p', fired);
    if p' == p {
      assert Carried(p, p', l, p.locks[l].reqs[i], p.locks[l].reqs[i]);
    } else {
      var a :| IsFirst(p.alarm.waiting, a) && FireTo(p, op.now, a, p', fired);
      FireLasts(p, op, a, p', l, i);
    }
  }

  lemma {:induction false} FireLasts(p: Process, op: Op, a: nat, p': Process, l: nat, i: nat)
    requires Safe(p) && op.OpTick? && a in p.alarm.waiting && FireTo(p, op.now, a, p', true)
    requires l in p.locks && l in p'.locks && i < |p'.locks[l].reqs|
    ensures Lasts(p, op, p', l, p'.locks[l].reqs[i])
  {
    hide Safe, TimeOut;
    FireExpires(p, op.now, a, p', true);
    assert Expires(p.locks[l], p'.locks[l], p'.alarm.waiting);
    var r, r' := p.locks[l].reqs[i], p'.locks[l].reqs[i];
    if r.status == Wait {
      WaiterArmed(p, l, i);
    }
    assert Carried(p, p', l, r, r');
  }

  lemma {:induction false} StepLasts(p: Process, op: Op, p': Process, l: nat, i: nat)
    requires Safe(p) && Next(p, op, p') && l in p.locks && l in p'.locks
    requires i < |p'.locks[l].reqs| && p'.locks[l].reqs[i].id < p.locks[l].nextId
    ensures Lasts(p, op, p', l, p'.locks[l].reqs[i])
  {
    hide Safe, Next, Lasts;
    match op
    case OpNew(_, _) => NewLasts(p, op, p', l, i);
    case OpLock(_, _, _) => LockLasts(p, op, p', l, i);
    case OpAbort(_, _) => AbortLasts(p, op, p', l, i);
    case OpTick(_) => TickLasts(p, op, p', l, i);
    case OpDestroy(_) => DestroyLasts(p, op, p', l, i);
  }

  lemma {:induction false} NewLasts(p: Process, op: Op, p': Process, l: nat, i: nat)
    requires Next(p, op, p') && op.OpNew? && l in p.locks && l in p'.locks && i < |p'.locks[l].reqs|
    ensures Lasts(p, op, p', l, p'.locks[l].reqs[i])
  {
    assert Carried(p, p', l, p.locks[l].reqs[i], p.locks[l].reqs[i]);
  }

  lemma {:induction false} DestroyLasts(p: Process, op: Op, p': Process, l: nat, i: nat)
    requires Safe(p) && Next(p, op, p') && op.OpDestroy? && l in p.locks && l in p'.locks && i < |p'.locks[l].reqs|
    ensures Lasts(p, op, p', l, p'.locks[l].reqs[i])
  {
    hide Safe;
    NextSafe(p, op, p');
    var r := p.locks[l].reqs[i];
    if r.status == Wait {
      WaiterArmed(p', l, i);
    }
    assert Carried(p, p', l, r, r);
  }

  /** The patience of a lock never changes, and it issues ids upwards. */
  lemma {:induction false} StepKeepsPatience(p: Process, op: Op, p': Process, l: nat)
    requires Next(p, op, p') && l in p.locks && l in p'.locks
    ensures p'.locks[l].tmWait == p.locks[l].tmWait && p.locks[l].nextId <= p'.locks[l].nextId
  {
    hide Abort;
    if op.OpAbort? {
      P.AbortFixed(p.locks[op.l], p.alarm, op.id);
    } else if op.OpTick? {
      var fired :| TickTo(p, op.now, p', fired);
    }
  }

  lemma {:induction false} WaiterArmed(p: Process, l: nat, i: nat)
    requires Safe(p) && l in p.locks && i < |p.locks[l].reqs| && p.locks[l].reqs[i].status == Wait
    ensures var r := p.locks[l].reqs[i];
            r.alarm in p.alarm.waiting && p.alarm.waiting[r.alarm].lock == l && p.alarm.waiting[r.alarm].req == r.id
  {
    assert LockInv(p.locks[l], l, p.alarm);
  }

  /** What is known of a request in every later state. */
  ghost predicate OnTime(ps: seq<Process>, ops: seq<Op>, m: nat, n: nat, l: nat, id: nat, i: nat)
    requires AsksFor(ps, ops, m, l, id) && n < |ps| && l in ps[n].locks && i < |ps[n].locks[l].reqs|
  {
    var r, w := ps[n].locks[l].reqs[i], ps[n].alarm.waiting;
    && (r.status == Wait ==> r.alarm in w && w[r.alarm] == Entry(Deadline(ps, ops, m, l, id), l, id))
    && (r.status == TimedOut ==> TickedLater(ops, m, n, Deadline(ps, ops, m, l, id)))
  }

  /**
   While a request waits, its alarm is set for exactly the time it came plus the patience of its lock; it
   times out only if the clock read later than that at some tick since.
   */
  lemma {:induction false} NeverEarly(ps: seq<Process>, ops: seq<Op>, m: nat, n: nat, l: nat, id: nat, i: nat)
    requires Trace(ps, ops) && AsksFor(ps, ops, m, l, id) && m < n < |ps| && Lives(ps, l, m, n)
    requires l in ps[n].locks && i < |ps[n].locks[l].reqs| && ps[n].locks[l].reqs[i].id == id
    ensures OnTime(ps, ops, m, n, l, id, i)
    decreases n
  {
    hide Safe, Next;
    var q := n - 1;
    RunsAreSafe(ps, ops, q);
    assert Next(ps[q], ops[q], ps[q+1]);
    assert l in ps[q].locks && l in ps[n].locks;
    if q == m {
      Arrival(ps[m], ops[m], ps[n], l, i);
    } else {
      StillIssued(ps, ops, m, q, l);
      StepLasts(ps[q], ops[q], ps[n], l, i);
      var r' := ps[n].locks[l].reqs[i];
      var j :| 0 <= j < |ps[q].locks[l].reqs| &&
        var r := ps[q].locks[l].reqs[j];
        && Carried(ps[q], ps[n], l, r, r')
        && (r'.status == TimedOut && r.status != TimedOut ==>
              r.status == Wait && r.alarm in ps[q].alarm.waiting && ops[q].OpTick? &&
              ps[q].alarm.waiting[r.alarm].time < ops[q].now);
      assert Lives(ps, l, m, q);
      NeverEarly(ps, ops, m, q, l, id, j);
    }
  }

  lemma {:induction false} StillIssued(ps: seq<Process>, ops: seq<Op>, m: nat, n: nat, l: nat)
    requires Trace(ps, ops) && m < n < |ps| && Lives(ps, l, m, n)
    requires ops[m].OpLock? && ops[m].l == l
    ensures l in ps[m].locks && l in ps[n].locks
    ensures ps[m].locks[l].nextId < ps[n].locks[l].nextId && ps[n].locks[l].tmWait == ps[m].locks[l].tmWait
  {
    assert l in ps[m].locks && l in ps[n].locks;
    var q := n - 1;
    assert Next(ps[q], ops[q], ps[q+1]);
    if q > m {
      assert l in ps[q].locks;
      StillIssued(ps, ops, m, q, l);
      StepKeepsPatience(ps[q], ops[q], ps[n], l);
    }
  }

  /** The state right after the request has come. */
  lemma {:induction false} Arrival(p: Process, op: Op, p': Process, l: nat, i: nat)
    requires Safe(p) && Next(p, op, p') && op.OpLock? && op.l == l && l in p.locks && l in p'.locks
    requires i < |p'.locks[l].reqs| && p'.locks[l].reqs[i].id == p.locks[l].nextId
    ensures var r, w := p'.locks[l].reqs[i], p'.alarm.waiting;
            && r.status != TimedOut
            && (r.status == Wait ==>
                  r.alarm in w && w[r.alarm] == Entry(op.now + p.locks[l].tmWait, l, p.locks[l].nextId))
  {
    hide Agrees, Ledger, Armed, Live;
    assert LockInv(p.locks[l], l, p.alarm);
    P.VLockMeaning(p.locks[l], p.alarm, l, op.ty, op.now);
    assert i == |p.locks[l].reqs|;
  }

  /** What `Alarm::run` at time `now` makes of a process. */
  ghost predicate RanTo(p: Process, now: nat, p': Process) {
    AllExpire(p, p') && p'.alarm.waiting == Left(p.alarm.waiting, now)
  }

  /** All alarms set so far are due in the order in which they were set. */
  ghost predicate DueInOrder(w: map<nat, Entry>) {
    forall a, b | a in w && b in w && a < b :: w[a].time <= w[b].time
  }

  /**
   A run of the alarm times a waiter out iff no alarm set up to then is still to come; if alarms are due in
   the order they were set, iff the clock has passed its deadline.
   */
  lemma {:induction false} RunTimesOut(ps: seq<Process>, ops: seq<Op>, m: nat, n: nat, l: nat, id: nat, i: nat,
                                       now: nat, p': Process)
    requires Trace(ps, ops) && AsksFor(ps, ops, m, l, id) && m < n < |ps| && Lives(ps, l, m, n)
    requires l in ps[n].locks && i < |ps[n].locks[l].reqs| && ps[n].locks[l].reqs[i].id == id
    requires ps[n].locks[l].reqs[i].status == Wait && RanTo(ps[n], now, p')
    ensures l in p'.locks && i < |p'.locks[l].reqs| && p'.locks[l].reqs[i].id == id
    ensures var w, r := ps[n].alarm.waiting, ps[n].locks[l].reqs[i];
            p'.locks[l].reqs[i].status == TimedOut <==> forall b | b in w && b <= r.alarm :: w[b].time < now
    ensures DueInOrder(ps[n].alarm.waiting) ==>
              (p'.locks[l].reqs[i].status == TimedOut <==> Deadline(ps, ops, m, l, id) < now)
  {
    NeverEarly(ps, ops, m, n, l, id, i);
    assert Expires(ps[n].locks[l], p'.locks[l], p'.alarm.waiting);
    var w, r := ps[n].alarm.waiting, ps[n].locks[l].reqs[i];
    assert Fires(w, now, r.alarm) <==> forall b | b in w && b <= r.alarm :: w[b].time < now;
  }

  // ---------- one patience for all ----------

  ghost predicate OnePatience(ops: seq<Op>, w: nat) {
    forall j | 0 <= j < |ops| && ops[j].OpNew? :: ops[j].tmWait == w
  }

  /** The clock does not run backwards from request to request. */
  ghost predicate Forward(ops: seq<Op>) {
    forall i, j | 0 <= i < j < |ops| && ops[i].OpLock? && ops[j].OpLock? :: ops[i].now <= ops[j].now
  }

  /** No alarm is set for later than a request at time `t` would set it. */
  ghost predicate Before(p: Process, t: nat) {
    forall a | a in p.alarm.waiting :: p.alarm.waiting[a].time <= t
  }

  /** With one patience for all locks and a clock that does not run backwards, alarms are due in order. */
  lemma {:induction false} PatienceKeepsOrder(ps: seq<Process>, ops: seq<Op>, n: nat, w: nat)
    requires Trace(ps, ops) && n < |ps| && OnePatience(ops, w) && Forward(ops)
    ensures DueInOrder(ps[n].alarm.waiting) && (forall l | l in ps[n].locks :: ps[n].locks[l].tmWait == w)
    ensures forall j | n <= j < |ops| && ops[j].OpLock? :: Before(ps[n], ops[j].now + w)
    decreases n
  {
    hide Safe, Next, DueInOrder, Before;
    if n > 0 {
      var q := n - 1;
      PatienceKeepsOrder(ps, ops, q, w);
      RunsAreSafe(ps, ops, q);
      assert Next(ps[q], ops[q], ps[q+1]);
      StepKeepsOrder(ps[q], ops[q], ps[n], w);
      forall j | n <= j < |ops| && ops[j].OpLock? ensures Before(ps[n], ops[j].now + w) {
        assert Before(ps[q], ops[j].now + w);
        StepBefore(ps[q], ops[q], ps[n], ops[j].now + w);
      }
    } else {
      OrderAtStart(ps[0], ops, w);
    }
  }

  lemma {:induction false} OrderAtStart(p: Process, ops: seq<Op>, w: nat)
    requires p == Start
    ensures DueInOrder(p.alarm.waiting) && forall j | 0 <= j < |ops| && ops[j].OpLock? :: Before(p, ops[j].now + w)
  {
  }

  /** A step sets at most one alarm, the last one, and changes none. */
  ghost predicate Sets(p: Process, op: Op, p': Process) {
    forall a | a in p'.alarm.waiting ::
      || (a in p.alarm.waiting && p'.alarm.waiting[a] == p.alarm.waiting[a])
      || (op.OpLock? && op.l in p.locks && a == p.alarm.nextId &&
          p'.alarm.waiting[a].time == op.now + p.locks[op.l].tmWait)
  }

  lemma {:induction false} StepSets(p: Process, op: Op, p': Process)
    requires Safe(p) && Next(p, op, p')
    ensures Sets(p, op, p')
  {
    hide Safe, Abort, TimeOut;
    if op.OpAbort? {
      AbortSets(p, op.l, op.id);
    } else if op.OpTick? {
      var fired :| TickTo(p, op.now, p', fired);
    }
  }

  lemma {:induction false} AbortSets(p: Process, l: nat, id: nat)
    requires Safe(p) && l in p.locks
    ensures var a' := Abort(p.locks[l], p.alarm, id).1;
            forall x | x in a'.waiting :: x in p.alarm.waiting && a'.waiting[x] == p.alarm.waiting[x]
  {
    hide Abort;
    assert LockInv(p.locks[l], l, p.alarm);
    AbortFrame(p.locks[l], p.alarm, l, id);
  }

  lemma {:induction false} StepKeepsOrder(p: Process, op: Op, p': Process, w: nat)
    requires Safe(p) && Next(p, op, p') && DueInOrder(p.alarm.waiting)
    requires forall l | l in p.locks :: p.locks[l].tmWait == w
    requires op.OpNew? ==> op.tmWait == w
    requires op.OpLock? ==> Before(p, op.now + w)
    ensures DueInOrder(p'.alarm.waiting) && forall l | l in p'.locks :: p'.locks[l].tmWait == w
  {
    hide Safe;
    StepSets(p, op, p');
    AlarmsIssued(p);
    assert DueInOrder(p'.alarm.waiting) by {
      hide Next;
    }
    forall l | l in p'.locks ensures p'.locks[l].tmWait == w {
      if l in p.locks {
        StepKeepsPatience(p, op, p', l);
      } else {
        NewPatience(p, op, p', l);
      }
    }
  }

  lemma {:induction false} NewPatience(p: Process, op: Op, p': Process, l: nat)
    requires Next(p, op, p') && l !in p.locks && l in p'.locks
    ensures op.OpNew? && p'.locks[l].tmWait == op.tmWait
  {
    hide Abort, VLock, TickTo;
    TickKeepsLocks(p, if op.OpTick? then op.now else 0, p');
  }

  lemma {:induction false} TickKeepsLocks(p: Process, now: nat, p': Process)
    ensures forall fired | TickTo(p, now, p', fired) :: p'.locks.Keys == p.locks.Keys
  {
    hide TimeOut;
  }

  lemma {:induction false} AlarmsIssued(p: Process)
    requires Safe(p)
    ensures forall a | a in p.alarm.waiting :: a < p.alarm.nextId
  {
  }

  lemma {:induction false} StepBefore(p: Process, op: Op, p': Process, t: nat)
    requires Safe(p) && Next(p, op, p') && Before(p, t)
    requires op.OpLock? && op.l in p.locks ==> op.now + p.locks[op.l].tmWait <= t
    ensures Before(p', t)
  {
    hide Safe, Next;
    StepSets(p, op, p');
  }
}

/** The timeout locks of a process as implemented, together with the alarm they share. */
module TimeoutLocks {
  import opened LockQueue
  import opened TimeoutModel
  import opened AlarmRun
  import opened Expiry
  import opened Deadlines
  import P = TimeoutPromises

  lemma {:induction false} ReadersSetLock(rs: seq<TReq>, i: nat)
    requires i < |rs| && rs[i].status != Lock
    ensures Readers(rs[i := rs[i].(status := Lock)]) == Readers(rs) + if rs[i].ty == RLock then 1 else 0
  {
    var n := |rs| - 1;
    var r := rs[i := rs[i].(status := Lock)];
    if i < n {
      ReadersSetLock(rs[..n], i);
      assert r[..n] == rs[..n][i := rs[i].(status := Lock)];
    } else {
      assert r[..n] == rs[..n];
    }
  }

  /** One more request of the list considered by `lock_all`. */
  lemma {:induction false} ServeStep(rs: seq<TReq>, i: nat)
    requires i < |rs|
    ensures Serve(rs, i + 1) == if Served(rs, i) then Serve(rs, i)[i := rs[i].(status := Lock)] else Serve(rs, i)
    ensures Serve(rs, i)[i] == rs[i]
    ensures ServedAlarms(rs, i + 1) == ServedAlarms(rs, i) + if Served(rs, i) then {rs[i].alarm} else {}
    ensures ServeCalls(rs, i + 1) == ServeCalls(rs, i) + if Served(rs, i) then [Yes(rs[i].id)] else []
  {
    var r := Serve(rs, i + 1);
    forall j | 0 <= j < |rs|
      ensures r[j] == (if Served(rs, i) then Serve(rs, i)[i := rs[i].(status := Lock)] else Serve(rs, i))[j]
    {
    }
    assert forall x | x in ServedAlarms(rs, i + 1) :: x in ServedAlarms(rs, i) || (Served(rs, i) && x == rs[i].alarm);
  }

  /** Nobody from `lo` on is served: `lock_all` may stop there. */
  lemma {:induction false} ServeRest(rs: seq<TReq>, lo: nat)
    requires lo <= |rs| && forall i | lo <= i < |rs| :: !Served(rs, i)
    ensures Serve(rs, |rs|) == Serve(rs, lo)
    ensures ServedAlarms(rs, |rs|) == ServedAlarms(rs, lo)
    ensures ServeCalls(rs, |rs|) == ServeCalls(rs, lo)
  {
    forall i | 0 <= i < |rs| ensures Serve(rs, |rs|)[i] == Serve(rs, lo)[i] {
      if i >= lo {
        assert !Served(rs, i);
      }
    }
    ServeCallsRest(rs, lo, |rs|);
  }

  lemma {:induction false} ServeCallsRest(rs: seq<TReq>, lo: nat, n: nat)
    requires lo <= n <= |rs| && forall i | lo <= i < |rs| :: !Served(rs, i)
    ensures ServeCalls(rs, n) == ServeCalls(rs, lo)
  {
    if n > lo {
      ServeCallsRest(rs, lo, n - 1);
      assert !Served(rs, n - 1);
    }
  }

  /** The first entry of the ordered map. */
  method First(w: map<nat, Entry>) returns (a: nat)
    requires w != map[]
    ensures IsFirst(w, a)
  {
    ghost var first := FirstExists(w.Keys);
    a :| a in w.Keys && forall b | b in w.Keys :: a <= b;
  }

  class TimeoutLocks {
    var locks: map<nat, TLock>
    var waiting: map<nat, Entry>
    var nextAlarm: nat

    function View(): Process
      reads this
    {
      Process(locks, Alarm(waiting, nextAlarm))
    }

    ghost predicate Valid()
      reads this
    {
      Safe(View())
    }

    constructor ()
      ensures Valid() && View() == Start
    {
      locks, waiting, nextAlarm := map[], map[], 1;
    }

    method NewLock(l: nat, tmWait: nat)
      requires Valid() && l !in locks
      modifies this
      ensures Valid() && Next(old(View()), OpNew(l, tmWait), View())
      ensures l in locks && locks[l].reqs == [] && locks[l].tmWait == tmWait && locks == old(locks)[l := locks[l]]
    {
      hide Safe;
      ghost var p := View();
      locks := locks[l := TimeoutModel.NewLock(tmWait)];
      NextSafe(p, OpNew(l, tmWait), View());
    }

    method VLock(l: nat, ty: LockType, now: nat) returns (id: nat)
      requires Valid() && l in locks
      modifies this
      ensures Valid() && Next(old(View()), OpLock(l, ty, now), View())
      ensures id == old(locks[l].nextId) && l in locks && locks == old(locks)[l := locks[l]]
      ensures P.Asks(old(locks[l]), old(View()).alarm, locks[l], View().alarm, l, ty, now)
    {
      hide Safe;
      LockSafe(View(), l, ty, now);
      Asking(View(), l, ty, now);
      var k := locks[l];
      id := k.nextId;
      k := k.(nextId := id + 1);
      if k.status == Free || (k.status == RLocked && ty == RLock) {
        if ty == RLock {
          k := k.(status := RLocked, nRLock := k.nRLock + 1);
        } else {
          k := k.(status := WLocked);
        }
        k := k.(reqs := k.reqs + [TReq(id, ty, Lock, 0)], calls := k.calls + [Yes(id)]);
      } else if k.tmWait > 0 {
        k := k.(reqs := k.reqs + [TReq(id, ty, Wait, nextAlarm)]);
        waiting := waiting[nextAlarm := Entry(now + k.tmWait, l, id)];
        nextAlarm := nextAlarm + 1;
      } else {
        k := k.(calls := k.calls + [No(id)]);
      }
      locks := locks[l := k];
    }

    /** `lock_all` on a lock nobody holds: two passes over the list, then the callbacks. */
    method LockAll(k: TLock) returns (k': TLock)
      requires k.status == Free && k.nRLock == 0 && Readers(k.reqs) == 0
      modifies `waiting
      ensures var rs := k.reqs;
              k' == k.(reqs := Serve(rs, |rs|), status := TimeoutModel.StatusOf(rs), nRLock := Readers(Serve(rs, |rs|)),
                       calls := k.calls + ServeCalls(rs, |rs|))
      ensures waiting == old(waiting) - ServedAlarms(k.reqs, |k.reqs|)
    {
      hide Serve, ServedAlarms, ServeCalls, Readers;
      var rs, n, yes := k.reqs, 0, [];
      var i := 0;
      while i < |k.reqs| && k.reqs[i].status != Wait
        invariant 0 <= i <= FirstWait(k.reqs, 0)
      {
        i := i + 1;
      }
      ghost var w := FirstWait(k.reqs, 0);
      assert i == w;
      ServedFromFirst(k.reqs);
      if i == |k.reqs| {
        assert waiting == waiting - ServedAlarms(k.reqs, |k.reqs|);
        assert k.calls == k.calls + [];
        return k;
      }
      assert Served(k.reqs, i);
      ServeStep(k.reqs, i);
      ReadersSetLock(rs, i);
      waiting := waiting - {rs[i].alarm};
      yes := [Yes(rs[i].id)];
      var st := if rs[i].ty == RLock then RLocked else WLocked;
      if rs[i].ty == RLock {
        n := 1;
      }
      rs := rs[i := rs[i].(status := Lock)];
      i := i + 1;
      assert ServeCalls(k.reqs, i) == ServeCalls(k.reqs, w) + yes;
      while st == RLocked && i < |k.reqs|
        invariant w < i <= |k.reqs|
        invariant st == WLocked ==> i == w + 1
        invariant rs == Serve(k.reqs, i) && n == Readers(rs) && yes == ServeCalls(k.reqs, i)
        invariant waiting == old(waiting) - ServedAlarms(k.reqs, i)
      {
        ServeStep(k.reqs, i);
        if rs[i].ty == RLock && rs[i].status == Wait {
          assert Served(k.reqs, i);
          ReadersSetLock(rs, i);
          waiting := waiting - {rs[i].alarm};
          n := n + 1;
          yes := yes + [Yes(rs[i].id)];
          rs := rs[i := rs[i].(status := Lock)];
        }
        i := i + 1;
      }
      ServeRest(k.reqs, i);
      k' := k.(reqs := rs, status := st, nRLock := n, calls := k.calls + yes);
    }

    method Abort(l: nat, id: nat)
      requires Valid() && l in locks
      modifies this
      ensures Valid() && Next(old(View()), OpAbort(l, id), View()) && l in locks && locks == old(locks)[l := locks[l]]
      ensures P.Aborts(old(locks[l]), old(View()).alarm, locks[l], View().alarm, id)
    {
      hide Safe, P.Aborts, TimeoutModel.Abort;
      ghost var p := View();
      AbortSafe(p, l, id);
      Aborting(p, l, id);
      var k := Release(l, id);
      locks := locks[l := k];
    }

    /** The lock after request `id` has left, with its alarms disarmed. */
    method Release(l: nat, id: nat) returns (k': TLock)
      requires Valid() && l in locks
      modifies `waiting
      ensures (k', Alarm(waiting, nextAlarm)) == TimeoutModel.Abort(locks[l], Alarm(old(waiting), nextAlarm), id)
    {
      hide Safe, Serve, ServeCalls, ServedAlarms;
      ghost var p := View();
      var k := locks[l];
      var i := 0;
      while i < |k.reqs| && k.reqs[i].id != id
        invariant 0 <= i <= IndexOf(k.reqs, id)
      {
        i := i + 1;
      }
      assert i == IndexOf(k.reqs, id);
      if i == |k.reqs| {
        return k;
      }
      var r := k.reqs[i];
      LeavingHolder(p, l, i);
      match r.status {
        case Lock =>
          var n := if r.ty == RLock then k.nRLock - 1 else k.nRLock;
          if n != 0 {
            k := k.(reqs := k.reqs[..i] + k.reqs[i+1..], nRLock := n);
          } else {
            k := k.(reqs := k.reqs[..i] + k.reqs[i+1..], nRLock := n, status := Free);
            k := LockAll(k);
          }
        case Wait =>
          waiting := waiting - {r.alarm};
          k := k.(reqs := k.reqs[..i] + k.reqs[i+1..]);
        case TimedOut =>
          k := k.(reqs := k.reqs[..i] + k.reqs[i+1..]);
      }
      k' := k;
    }

    /** `do_timeout`. */
    method DoTimeout(k: TLock, id: nat) returns (k': TLock)
      ensures k' == TimeOut(k, id)
    {
      var i := 0;
      while i < |k.reqs| && k.reqs[i].id != id
        invariant 0 <= i <= IndexOf(k.reqs, id)
      {
        i := i + 1;
      }
      k' := k;
      if i < |k.reqs| && k.reqs[i].status == Wait {
        k' := k.(reqs := k.reqs[i := k.reqs[i].(status := TimedOut)], calls := k.calls + [No(id)]);
      }
    }

    /** The body of `exe_next` once the first alarm is known. */
    method Fire(now: nat, a: nat) returns (fired: bool)
      requires Valid() && a in waiting
      modifies this
      ensures Valid() && FireTo(old(View()), now, a, View(), fired)
      ensures AllExpire(old(View()), View())
    {
      hide Safe, TimeOut, AllExpire;
      ghost var p := View();
      var e := waiting[a];
      fired := now > e.time;
      if fired {
        Addressee(p, a);
        var k := DoTimeout(locks[e.lock], e.req);
        locks := locks[e.lock := k];
        waiting := waiting - {a};
      }
      FireSafe(p, now, a, View(), fired);
      FireExpires(p, now, a, View(), fired);
    }

    /** `exe_next`: fires the first alarm if it is due. */
    method ExeNext(now: nat) returns (fired: bool)
      requires Valid()
      modifies this
      ensures Valid() && TickTo(old(View()), now, View(), fired)
      ensures fired ==> |waiting| < |old(waiting)|
      ensures AllExpire(old(View()), View()) && waiting.Keys <= old(waiting).Keys
      ensures if fired then Left(waiting, now) == Left(old(waiting), now)
              else waiting == old(waiting) == Left(waiting, now)
    {
      hide Safe, TimeOut, AllExpire;
      if waiting == map[] {
        NothingExpires(View());
        return false;
      }
      hide Fires, Left;
      var a := First(waiting);
      FireThenRun(waiting, now, a);
      fired := Fire(now, a);
      assert fired ==> waiting.Keys == old(waiting).Keys - {a};
    }

    /** `run`: fires the due alarms up to the first one that is not due. */
    method Run(now: nat)
      requires Valid()
      modifies this
      ensures Valid() && RanTo(old(View()), now, View())
    {
      hide Safe, AllExpire, Left, TickTo;
      var fired := ExeNext(now);
      while fired
        invariant Valid() && AllExpire(old(View()), View())
        invariant if fired then Left(waiting, now) == Left(old(waiting), now) else waiting == Left(old(waiting), now)
        decreases fired, |waiting|
      {
        ghost var q := View();
        fired := ExeNext(now);
        ExpiryChains(old(View()), q, View());
      }
    }

    /** `~TimeoutALock`: answers no to every waiter and disarms it. */
    method Destroy(l: nat) returns (noes: seq<Call>)
      requires Valid() && l in locks
      modifies this
      ensures Valid() && Next(old(View()), OpDestroy(l), View())
      ensures noes == Noes(old(locks[l].reqs), |old(locks[l].reqs)|)
    {
      hide Safe;
      DestroySafe(View(), l);
      var rs := locks[l].reqs;
      ghost var all := rs;
      noes := [];
      ghost var n := 0;
      while rs != []
        invariant n <= |all| && rs == all[n..] && noes == Noes(all, n)
        invariant waiting == old(waiting) - TimeoutModel.Waiting(all[..n])
        invariant locks == old(locks) && nextAlarm == old(nextAlarm)
        decreases |rs|
      {
        WaitingSnoc(all, n);
        if rs[0].status == Wait {
          waiting := waiting - {rs[0].alarm};
          noes := noes + [No(rs[0].id)];
        }
        rs := rs[1..];
        n := n + 1;
      }
      assert all[..n] == all;
      locks := locks - {l};
    }
  }

  lemma {:induction false} Asking(p: Process, l: nat, ty: LockType, now: nat)
    requires Safe(p) && l in p.locks
    ensures var (k, a) := TimeoutModel.VLock(p.locks[l], p.alarm, l, ty, now);
            P.Asks(p.locks[l], p.alarm, k, a, l, ty, now)
  {
    assert LockInv(p.locks[l], l, p.alarm);
    P.VLockMeaning(p.locks[l], p.alarm, l, ty, now);
  }

  lemma {:induction false} Aborting(p: Process, l: nat, id: nat)
    requires Safe(p) && l in p.locks
    ensures var (k, a) := TimeoutModel.Abort(p.locks[l], p.alarm, id); P.Aborts(p.locks[l], p.alarm, k, a, id)
  {
    assert LockInv(p.locks[l], l, p.alarm);
    P.AbortMeaning(p.locks[l], p.alarm, l, id);
  }

  /** What `abort` relies on when a holder leaves. */
  lemma {:induction false} LeavingHolder(p: Process, l: nat, i: nat)
    requires Safe(p) && l in p.locks && i < |p.locks[l].reqs|
    ensures var k := p.locks[l];
            k.reqs[i].status == Lock && k.nRLock == (if k.reqs[i].ty == RLock then 1 else 0) ==>
              Readers(k.reqs[..i] + k.reqs[i+1..]) == 0
  {
    hide Ledger, IdsOk, Armed, Live;
    assert LockInv(p.locks[l], l, p.alarm);
    EraseFacts(p.locks[l].reqs, i);
  }

  lemma {:induction false} Addressee(p: Process, a: nat)
    requires Safe(p) && a in p.alarm.waiting
    ensures p.alarm.waiting[a].lock in p.locks
  {
    AlarmsNeverDangle(p, a);
  }

  lemma {:induction false} WaitingSnoc(rs: seq<TReq>, n: nat)
    requires n < |rs|
    ensures TimeoutModel.Waiting(rs[..n+1]) ==
            TimeoutModel.Waiting(rs[..n]) + if rs[n].status == Wait then {rs[n].alarm} else {}
  {
    assert rs[..n+1] == rs[..n] + [rs[n]];
    AppendWaiting(rs[..n], rs[n]);
  }

  lemma {:induction false} ServedFromFirst(rs: seq<TReq>)
    ensures var w := FirstWait(rs, 0);
            && Serve(rs, w) == rs && ServedAlarms(rs, w) == {} && ServeCalls(rs, w) == []
            && (w == |rs| ==> Readers(rs) == Readers(Serve(rs, w)))
            && (w < |rs| && rs[w].ty == WLock ==> forall i | w < i < |rs| :: !Served(rs, i))
  {
    var w := FirstWait(rs, 0);
    forall i | 0 <= i < w ensures !Served(rs, i) {
    }
    forall i | 0 <= i < |rs| ensures Serve(rs, w)[i] == rs[i] {
    }
    NoServeCalls(rs, w);
  }

  lemma {:induction false} NoServeCalls(rs: seq<TReq>, n: nat)
    requires n <= |rs| && forall i | 0 <= i < n :: !Served(rs, i)
    ensures ServeCalls(rs, n) == []
  {
    if n > 0 {
      NoServeCalls(rs, n - 1);
      assert !Served(rs, n - 1);
    }
  }
}
