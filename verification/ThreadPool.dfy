/** The queue that the workers share, and the death pill that ends a worker. */
module WorkQueue {
  import opened Basics

  datatype Item = Job(id: nat) | Pill

  /** Each call happens under the queue's own mutex, so it is one step. */
  class Queue {
    var q: seq<Item>

    constructor ()
      ensures q == []
    {
      q := [];
    }

    method Push(e: Item)
      modifies this
      ensures q == old(q) + [e]
    {
      q := q + [e];
    }

    method TryPop() returns (t: Option<Item>)
      modifies this
      ensures if old(q) == [] then t == None && q == old(q) else t == Some(old(q)[0]) && q == old(q)[1..]
    {
      t := None;
      if q != [] {
        t := Some(q[0]);
        q := q[1..];
      }
    }

    method TryPopButIgnore(ignore: Item) returns (t: Option<Item>)
      modifies this
      ensures if old(q) == [] || old(q)[0] == ignore then t == None && q == old(q)
              else t == Some(old(q)[0]) && q == old(q)[1..]
    {
      t := None;
      if q != [] && q[0] != ignore {
        t := Some(q[0]);
        q := q[1..];
      }
    }
  }
}

/** The pool: any number of callers, the workers and the destructor, one queue operation at a time. */
module ThreadPoolModel {
  import opened Basics
  import opened WorkQueue

  /** A worker goes through the stages try, sleep, try, steal, wait; while stealing, `k` is how far it got. */
  datatype Worker = Worker(stage: nat, k: nat, held: Option<nat>, exited: bool)

  /** How far the destructor has come. */
  datatype Phase = Open | Pilling(i: nat) | Joining(i: nat) | Draining(i: nat) | Closed

  /**
   `pending` are calls of `run_async` that have passed the check but not yet pushed, with their queue.
   `pushed` and `ran` record jobs in order; `late` are those pushed to a queue the destructor was through with;
   `ahead[i]` are the jobs that were in queue `i` when its pill was pushed.
   */
  datatype Pool = Pool(queues: seq<seq<Item>>, workers: seq<Worker>, order: seq<seq<nat>>, phase: Phase, round: nat,
                       pending: map<nat, nat>, nextJob: nat, pushed: seq<nat>, ran: seq<nat>, late: set<nat>,
                       ahead: seq<set<nat>>)

  /** Each worker tries the others' queues in an order of its own. */
  ghost predicate Initial(p: Pool, n: nat) {
    && n > 0
    && p.queues == seq(n, _ => []) && p.workers == seq(n, _ => Worker(0, 0, None, false))
    && |p.order| == n && (forall w, k | 0 <= w < n && 0 <= k < |p.order[w]| :: p.order[w][k] < n)
    && p.phase == Open && p.pending == map[] && p.pushed == [] && p.ran == [] && p.late == {}
    && p.ahead == seq(n, _ => {})
  }

  function N(p: Pool): nat { |p.queues| }

  datatype Op =
    | Enter                 // run_async up to the choice of a queue
    | PushJob(j: nat)       // run_async pushes
    | Work(w: nat)          // one step of worker w
    | Stop                  // the destructor sets the flag
    | PushPill
    | Join
    | Drain

  /** The destructor is through with queue `i`. */
  predicate Drained(p: Pool, i: nat) {
    match p.phase
    case Draining(k) => i < k
    case Closed => true
    case _ => false
  }

  predicate PillPushed(p: Pool, i: nat) {
    match p.phase
    case Open => false
    case Pilling(k) => i < k
    case _ => true
  }

  ghost predicate Enabled(p: Pool, op: Op) {
    match op
    case Enter => p.phase == Open && N(p) > 0
    case PushJob(j) => j in p.pending && p.pending[j] < N(p)
    case Work(w) =>
      && w < N(p) == |p.workers| == |p.order| && !p.workers[w].exited
      && (p.workers[w].held == None && p.workers[w].stage == 4 ==> p.queues[w] != [])
      && (p.workers[w].stage == 3 && p.workers[w].k < |p.order[w]| ==> p.order[w][p.workers[w].k] < N(p))
    case Stop => p.phase == Open
    case PushPill => p.phase.Pilling? && p.phase.i < N(p) == |p.ahead|
    case Join => p.phase.Joining? && p.phase.i < N(p) == |p.workers| && p.workers[p.phase.i].exited
    case Drain => p.phase.Draining? && p.phase.i < N(p)
  }

  /** How often job `j` is queued. */
  function Queued(queues: seq<seq<Item>>, j: nat): nat {
    if queues == [] then 0 else Queued(queues[..|queues|-1], j) + multiset(queues[|queues|-1])[Job(j)]
  }

  function Holds(w: Worker, j: nat): nat {
    if w.held == Some(j) then 1 else 0
  }

  /** How many workers hold job `j`. */
  function Held(ws: seq<Worker>, j: nat): nat {
    if ws == [] then 0 else Held(ws[..|ws|-1], j) + Holds(ws[|ws|-1], j)
  }

  function AfterPhase(n: nat, p: Phase): Phase {
    match p
    case Open => Pilling(0)
    case Pilling(i) => if i + 1 < n then Pilling(i + 1) else Joining(0)
    case Joining(i) => if i + 1 < n then Joining(i + 1) else Draining(0)
    case Draining(i) => if i + 1 < n then Draining(i + 1) else Closed
    case Closed => Closed
  }

  /** Worker `w` takes the front of queue `i`: a pill ends it, a job is held until it is run. */
  function Take(p: Pool, w: nat, i: nat): Pool
    requires w < |p.workers| && i < N(p) && p.queues[i] != []
  {
    var item := p.queues[i][0];
    p.(queues := p.queues[i := p.queues[i][1..]],
       workers := p.workers[w := if item.Pill? then Worker(0, 0, None, true) else Worker(0, 0, Some(item.id), false)])
  }

  function WorkStep(p: Pool, w: nat): Pool
    requires w < N(p) == |p.workers| == |p.order|
    requires p.workers[w].held == None && p.workers[w].stage == 4 ==> p.queues[w] != []
    requires p.workers[w].stage == 3 && p.workers[w].k < |p.order[w]| ==> p.order[w][p.workers[w].k] < N(p)
  {
    var me := p.workers[w];
    if me.held.Some? then
      p.(workers := p.workers[w := me.(held := None)], ran := p.ran + [me.held.value])
    else if me.stage == 0 || me.stage == 2 then
      if p.queues[w] != [] then Take(p, w, w) else p.(workers := p.workers[w := me.(stage := me.stage + 1)])
    else if me.stage == 1 then p.(workers := p.workers[w := me.(stage := 2)])
    else if me.stage == 3 then
      if me.k >= |p.order[w]| then p.(workers := p.workers[w := me.(stage := 4, k := 0)])
      else
        var v := p.order[w][me.k];
        if v != w && p.queues[v] != [] && p.queues[v][0] != Pill then Take(p, w, v)
        else p.(workers := p.workers[w := me.(k := me.k + 1)])
    else if me.stage == 4 then Take(p, w, w)
    else p
  }

  function JobIds(q: seq<Item>): set<nat> {
    set x | x in q && x.Job? :: x.id
  }

  ghost function Step(p: Pool, op: Op): Pool
    requires Enabled(p, op)
  {
    match op
    case Enter =>
      p.(pending := p.pending[p.nextJob := p.round % N(p)], nextJob := p.nextJob + 1, round := p.round + 1)
    case PushJob(j) =>
      var i := p.pending[j];
      p.(queues := p.queues[i := p.queues[i] + [Job(j)]], pending := p.pending - {j}, pushed := p.pushed + [j],
         late := if Drained(p, i) then p.late + {j} else p.late)
    case Work(w) => WorkStep(p, w)
    case Stop => p.(phase := AfterPhase(N(p), p.phase))
    case PushPill =>
      var i := p.phase.i;
      p.(queues := p.queues[i := p.queues[i] + [Pill]], phase := AfterPhase(N(p), p.phase),
         ahead := p.ahead[i := JobIds(p.queues[i])])
    case Join => p.(phase := AfterPhase(N(p), p.phase))
    case Drain =>
      var i := p.phase.i;
      if p.queues[i] == [] then p.(phase := AfterPhase(N(p), p.phase))
      else
        var item := p.queues[i][0];
        p.(queues := p.queues[i := p.queues[i][1..]], ran := if item.Job? then p.ran + [item.id] else p.ran)
  }

  // ---------- the invariant ----------

  /** What lies behind the first pill; everything when there is none. */
  function Behind(q: seq<Item>): seq<Item> {
    if Pill !in q then q else if q[0].Pill? then q[1..] else Behind(q[1..])
  }

  ghost predicate Shape(p: Pool) {
    && N(p) > 0 && |p.workers| == |p.order| == |p.ahead| == N(p)
    && (forall w, k | 0 <= w < N(p) && 0 <= k < |p.order[w]| :: p.order[w][k] < N(p))
    && (forall w | 0 <= w < N(p) :: p.workers[w].stage <= 4)
    && (forall j | j in p.pending :: p.pending[j] < N(p))
    && (p.phase.Pilling? || p.phase.Joining? || p.phase.Draining? ==> p.phase.i < N(p))
  }

  /** No job is lost or doubled. */
  ghost predicate Conserved(p: Pool) {
    forall j: nat :: multiset(p.pushed)[j] == multiset(p.ran)[j] + Queued(p.queues, j) + Held(p.workers, j)
  }

  ghost predicate FreshJobs(p: Pool) {
    && (forall j: nat | j in p.pushed :: j < p.nextJob && multiset(p.pushed)[j] == 1)
    && (forall j | j in p.pending :: j < p.nextJob && j !in p.pushed)
    && (forall i, j: nat | 0 <= i < |p.ahead| && j in p.ahead[i] :: j in p.pushed)
  }

  /** A pushed pill stays in its own queue until the worker it is meant for takes it and exits. */
  ghost predicate PillAt(p: Pool, i: nat)
    requires i < N(p) && i < |p.workers|
  {
    && multiset(p.queues[i])[Pill] == (if PillPushed(p, i) && !p.workers[i].exited then 1 else 0)
    && (p.workers[i].exited ==> PillPushed(p, i) && p.workers[i].held == None)
  }

  ghost predicate PillsInv(p: Pool)
    requires N(p) == |p.workers|
  {
    forall i | 0 <= i < N(p) :: PillAt(p, i)
  }

  ghost predicate Joined(p: Pool) {
    match p.phase
    case Joining(k) => forall i | 0 <= i < k && i < |p.workers| :: p.workers[i].exited
    case Draining(_) => forall i | 0 <= i < |p.workers| :: p.workers[i].exited
    case Closed => forall i | 0 <= i < |p.workers| :: p.workers[i].exited
    case _ => true
  }

  ghost predicate LateInv(p: Pool) {
    forall i, j: nat | 0 <= i < N(p) && Drained(p, i) && Job(j) in p.queues[i] :: j in p.late
  }

  ghost predicate AheadInv(p: Pool)
    requires N(p) == |p.ahead|
  {
    forall i, j: nat | 0 <= i < N(p) && PillPushed(p, i) && Job(j) in Behind(p.queues[i]) :: j !in p.ahead[i]
  }

  ghost predicate Inv(p: Pool) {
    Shape(p) && Conserved(p) && FreshJobs(p) && PillsInv(p) && Joined(p) && LateInv(p) && AheadInv(p)
  }

  // ---------- counting ----------

  lemma {:induction false} CountSnoc<T>(s: seq<T>, x: T, y: T)
    ensures multiset(s + [x])[y] == multiset(s)[y] + if x == y then 1 else 0
  {
    assert multiset(s + [x]) == multiset(s) + multiset{x};
  }

  lemma {:induction false} CountFront<T>(s: seq<T>, y: T)
    requires s != []
    ensures multiset(s)[y] == (if s[0] == y then 1 else 0) + multiset(s[1..])[y]
  {
    assert s == [s[0]] + s[1..];
    assert multiset(s) == multiset{s[0]} + multiset(s[1..]);
  }

  lemma {:induction false} QueuedUpdate(queues: seq<seq<Item>>, i: nat, q: seq<Item>, j: nat)
    requires i < |queues|
    ensures Queued(queues[i := q], j) + multiset(queues[i])[Job(j)] == Queued(queues, j) + multiset(q)[Job(j)]
  {
    var n := |queues| - 1;
    if i < n {
      QueuedUpdate(queues[..n], i, q, j);
      assert queues[i := q][..n] == queues[..n][i := q];
    } else {
      assert queues[i := q][..n] == queues[..n];
    }
  }

  lemma {:induction false} HeldUpdate(ws: seq<Worker>, i: nat, w: Worker, j: nat)
    requires i < |ws|
    ensures Held(ws[i := w], j) + Holds(ws[i], j) == Held(ws, j) + Holds(w, j)
  {
    var n := |ws| - 1;
    if i < n {
      HeldUpdate(ws[..n], i, w, j);
      assert ws[i := w][..n] == ws[..n][i := w];
    } else {
      assert ws[i := w][..n] == ws[..n];
    }
  }

  /** What is pushed behind the pill is new. */
  lemma {:induction false} BehindSnoc(q: seq<Item>, x: Item)
    ensures Pill in q || x.Job? ==> Behind(q + [x]) == Behind(q) + [x]
    ensures Pill !in q && x.Pill? ==> Behind(q + [x]) == []
  {
    if q == [] {
      assert q + [x] == [x];
    } else if q[0].Job? {
      BehindSnoc(q[1..], x);
      assert (q + [x])[1..] == q[1..] + [x];
      assert Pill in q <==> Pill in q[1..];
    } else {
      assert (q + [x])[1..] == q[1..] + [x];
    }
  }

  /** Taking the front off a queue with at most one pill brings nothing new behind the pill. */
  lemma {:induction false} BehindFront(q: seq<Item>, x: Item)
    requires q != [] && multiset(q)[Pill] <= 1
    ensures x in Behind(q[1..]) ==> x in Behind(q)
  {
    CountFront(q, Pill);
    if q[0].Pill? {
      assert Pill !in q[1..] by {
        assert multiset(q[1..])[Pill] == 0;
      }
    } else {
      assert Pill in q <==> Pill in q[1..];
    }
  }

  lemma {:induction false} QueuedAt(queues: seq<seq<Item>>, i: nat, j: nat)
    requires i < |queues| && Job(j) in queues[i]
    ensures Queued(queues, j) > 0
  {
    var n := |queues| - 1;
    if i < n {
      QueuedAt(queues[..n], i, j);
    } else {
      assert multiset(queues[n])[Job(j)] > 0;
    }
  }

  // ---------- preservation: a job is pushed ----------

  lemma {:induction false} PushConserved(p: Pool, j: nat)
    requires Shape(p) && Conserved(p) && Enabled(p, PushJob(j))
    ensures Conserved(Step(p, PushJob(j)))
  {
    hide Queued, Held;
    var p', i := Step(p, PushJob(j)), p.pending[j];
    forall k: nat ensures multiset(p'.pushed)[k] == multiset(p'.ran)[k] + Queued(p'.queues, k) + Held(p'.workers, k) {
      CountSnoc(p.pushed, j, k);
      CountSnoc(p.queues[i], Job(j), Job(k));
      QueuedUpdate(p.queues, i, p.queues[i] + [Job(j)], k);
    }
  }

  lemma {:induction false} PushFresh(p: Pool, j: nat)
    requires FreshJobs(p) && Enabled(p, PushJob(j))
    ensures FreshJobs(Step(p, PushJob(j)))
  {
    var p' := Step(p, PushJob(j));
    forall k: nat | k in p'.pushed ensures k < p'.nextJob && multiset(p'.pushed)[k] == 1 {
      CountSnoc(p.pushed, j, k);
    }
  }

  lemma {:induction false} PushPills(p: Pool, j: nat)
    requires Shape(p) && PillsInv(p) && Enabled(p, PushJob(j))
    ensures PillsInv(Step(p, PushJob(j)))
  {
    var p', i := Step(p, PushJob(j)), p.pending[j];
    CountSnoc(p.queues[i], Job(j), Pill);
    forall k | 0 <= k < N(p) ensures PillAt(p', k) {
      assert PillAt(p, k);
    }
  }

  lemma {:induction false} PushAhead(p: Pool, j: nat)
    requires Shape(p) && FreshJobs(p) && AheadInv(p) && LateInv(p) && Enabled(p, PushJob(j))
    ensures AheadInv(Step(p, PushJob(j))) && LateInv(Step(p, PushJob(j)))
  {
    hide Behind;
    var p', i := Step(p, PushJob(j)), p.pending[j];
    BehindSnoc(p.queues[i], Job(j));
    assert forall l | 0 <= l < |p.ahead| :: j !in p.ahead[l];
  }

  lemma {:induction false} PushKeeps(p: Pool, j: nat)
    requires Inv(p) && Enabled(p, PushJob(j))
    ensures Inv(Step(p, PushJob(j)))
  {
    hide Conserved, FreshJobs, PillsInv, AheadInv, LateInv;
    PushConserved(p, j);
    PushFresh(p, j);
    PushPills(p, j);
    PushAhead(p, j);
  }

  // ---------- preservation: a worker takes the front of a queue ----------

  /** A worker may take a pill from its own queue only. */
  ghost predicate MayTake(p: Pool, w: nat, i: nat) {
    && Shape(p) && w < N(p) && i < N(p) && !p.workers[w].exited && p.workers[w].held == None
    && p.queues[i] != [] && (i != w ==> p.queues[i][0].Job?)
  }

  lemma {:induction false} TakeConserved(p: Pool, w: nat, i: nat)
    requires MayTake(p, w, i) && Conserved(p)
    ensures Conserved(Take(p, w, i))
  {
    hide Queued, Held;
    var p', q := Take(p, w, i), p.queues[i];
    forall k: nat ensures multiset(p'.pushed)[k] == multiset(p'.ran)[k] + Queued(p'.queues, k) + Held(p'.workers, k) {
      CountFront(q, Job(k));
      QueuedUpdate(p.queues, i, q[1..], k);
      HeldUpdate(p.workers, w, p'.workers[w], k);
    }
  }

  lemma {:induction false} TakePills(p: Pool, w: nat, i: nat)
    requires MayTake(p, w, i) && PillsInv(p)
    ensures PillsInv(Take(p, w, i))
  {
    var p' := Take(p, w, i);
    CountFront(p.queues[i], Pill);
    forall k | 0 <= k < N(p) ensures PillAt(p', k) {
      assert PillAt(p, k) && PillAt(p, i);
    }
  }

  lemma {:induction false} TakeAhead(p: Pool, w: nat, i: nat)
    requires MayTake(p, w, i) && PillsInv(p) && AheadInv(p) && LateInv(p)
    ensures AheadInv(Take(p, w, i)) && LateInv(Take(p, w, i))
  {
    hide Behind;
    var p', q := Take(p, w, i), p.queues[i];
    assert PillAt(p, i);
    forall j: nat ensures Job(j) in Behind(q[1..]) ==> Job(j) in Behind(q) {
      BehindFront(q, Job(j));
    }
  }

  lemma {:induction false} TakeKeeps(p: Pool, w: nat, i: nat)
    requires Inv(p) && MayTake(p, w, i)
    ensures Inv(Take(p, w, i))
  {
    hide Conserved, PillsInv, AheadInv, LateInv;
    TakeConserved(p, w, i);
    TakePills(p, w, i);
    TakeAhead(p, w, i);
  }

  // ---------- preservation: the other steps ----------

  lemma {:induction false} RunKeeps(p: Pool, w: nat)
    requires Inv(p) && Enabled(p, Work(w)) && p.workers[w].held.Some?
    ensures Inv(WorkStep(p, w))
  {
    hide Queued, Held, Behind, AheadInv, LateInv, FreshJobs;
    var p' := WorkStep(p, w);
    forall k: nat ensures multiset(p'.pushed)[k] == multiset(p'.ran)[k] + Queued(p'.queues, k) + Held(p'.workers, k) {
      CountSnoc(p.ran, p.workers[w].held.value, k);
      HeldUpdate(p.workers, w, p'.workers[w], k);
    }
    forall k | 0 <= k < N(p) ensures PillAt(p', k) {
      assert PillAt(p, k);
    }
    SameAhead(p, p');
  }

  /** A worker that only moves on in its program changes nothing else. */
  lemma {:induction false} MoveKeeps(p: Pool, w: nat, me: Worker)
    requires Inv(p) && w < N(p) && !p.workers[w].exited && me.held == p.workers[w].held && !me.exited
    requires me.stage <= 4
    ensures Inv(p.(workers := p.workers[w := me]))
  {
    hide Queued, Held, Behind, AheadInv, LateInv, FreshJobs;
    var p' := p.(workers := p.workers[w := me]);
    forall k: nat ensures multiset(p'.pushed)[k] == multiset(p'.ran)[k] + Queued(p'.queues, k) + Held(p'.workers, k) {
      HeldUpdate(p.workers, w, me, k);
    }
    forall k | 0 <= k < N(p) ensures PillAt(p', k) {
      assert PillAt(p, k);
    }
    SameAhead(p, p');
  }

  lemma {:induction false} SameAhead(p: Pool, p': Pool)
    requires N(p) == |p.ahead| && FreshJobs(p) && AheadInv(p) && LateInv(p)
    requires p'.queues == p.queues && p'.phase == p.phase && p'.late == p.late && p'.ahead == p.ahead
    requires p'.pushed == p.pushed && p'.pending == p.pending && p'.nextJob == p.nextJob
    ensures FreshJobs(p') && AheadInv(p') && LateInv(p')
  {
    hide Behind;
  }

  lemma {:induction false} WorkKeeps(p: Pool, w: nat)
    requires Inv(p) && Enabled(p, Work(w))
    ensures Inv(WorkStep(p, w))
  {
    hide Inv, Take;
    ShapeOf(p);
    var me := p.workers[w];
    if me.held.Some? {
      RunKeeps(p, w);
    } else if (me.stage == 0 || me.stage == 2 || me.stage == 4) && p.queues[w] != [] {
      TakeKeeps(p, w, w);
    } else if me.stage == 0 || me.stage == 2 {
      MoveKeeps(p, w, me.(stage := me.stage + 1));
    } else if me.stage == 1 {
      MoveKeeps(p, w, me.(stage := 2));
    } else if me.stage == 3 && me.k < |p.order[w]| {
      var v := p.order[w][me.k];
      if v != w && p.queues[v] != [] && p.queues[v][0] != Pill {
        TakeKeeps(p, w, v);
      } else {
        MoveKeeps(p, w, me.(k := me.k + 1));
      }
    } else if me.stage == 3 {
      MoveKeeps(p, w, me.(stage := 4, k := 0));
    }
  }

  lemma {:induction false} ShapeOf(p: Pool)
    requires Inv(p)
    ensures Shape(p)
  {
  }

  lemma {:induction false} PillKeeps(p: Pool)
    requires Inv(p) && Enabled(p, PushPill)
    ensures Inv(Step(p, PushPill))
  {
    hide Queued, Held, Behind;
    var p', i := Step(p, PushPill), p.phase.i;
    var q := p.queues[i];
    forall k: nat ensures Queued(p'.queues, k) == Queued(p.queues, k) {
      CountSnoc(q, Pill, Job(k));
      QueuedUpdate(p.queues, i, q + [Pill], k);
    }
    PillAhead(p);
    PillPills(p);
    forall j: nat | j in p'.ahead[i] ensures j in p'.pushed {
      assert Job(j) in q;
      QueuedAt(p.queues, i, j);
      assert multiset(p.pushed)[j] > 0;
    }
  }

  lemma {:induction false} PillPills(p: Pool)
    requires Inv(p) && Enabled(p, PushPill)
    ensures PillsInv(Step(p, PushPill))
  {
    hide Conserved, FreshJobs, AheadInv, LateInv;
    var p', i := Step(p, PushPill), p.phase.i;
    CountSnoc(p.queues[i], Pill, Pill);
    forall k | 0 <= k < N(p) ensures PillAt(p', k) {
      assert PillAt(p, k);
    }
  }

  lemma {:induction false} PillAhead(p: Pool)
    requires Inv(p) && Enabled(p, PushPill)
    ensures AheadInv(Step(p, PushPill)) && LateInv(Step(p, PushPill))
  {
    hide Conserved, FreshJobs, Behind;
    var i := p.phase.i;
    assert PillAt(p, i);
    assert multiset(p.queues[i])[Pill] == 0;
    assert Pill !in p.queues[i];
    BehindSnoc(p.queues[i], Pill);
  }

  lemma {:induction false} DrainConserved(p: Pool)
    requires Inv(p) && Enabled(p, Drain) && p.queues[p.phase.i] != []
    ensures Conserved(Step(p, Drain))
  {
    hide Queued, Held, FreshJobs, PillsInv, AheadInv, LateInv, Joined;
    var p', i := Step(p, Drain), p.phase.i;
    var q := p.queues[i];
    forall k: nat ensures multiset(p'.pushed)[k] == multiset(p'.ran)[k] + Queued(p'.queues, k) + Held(p'.workers, k) {
      CountFront(q, Job(k));
      QueuedUpdate(p.queues, i, q[1..], k);
      if q[0].Job? {
        CountSnoc(p.ran, q[0].id, k);
      }
    }
  }

  lemma {:induction false} DrainAhead(p: Pool)
    requires Inv(p) && Enabled(p, Drain) && p.queues[p.phase.i] != []
    ensures PillsInv(Step(p, Drain)) && AheadInv(Step(p, Drain)) && LateInv(Step(p, Drain))
  {
    hide Conserved, FreshJobs, Behind;
    var p', i := Step(p, Drain), p.phase.i;
    var q := p.queues[i];
    CountFront(q, Pill);
    assert PillAt(p, i);
    forall k | 0 <= k < N(p) ensures PillAt(p', k) {
      assert PillAt(p, k);
    }
    forall j: nat ensures Job(j) in Behind(q[1..]) ==> Job(j) in Behind(q) {
      BehindFront(q, Job(j));
    }
  }

  lemma {:induction false} DrainKeeps(p: Pool)
    requires Inv(p) && Enabled(p, Drain)
    ensures Inv(Step(p, Drain))
  {
    if p.queues[p.phase.i] == [] {
      PhaseKeeps(p, Drain);
    } else {
      hide Conserved, PillsInv, AheadInv, LateInv;
      DrainConserved(p);
      DrainAhead(p);
    }
  }

  lemma {:induction false} StepKeeps(p: Pool, op: Op)
    requires Inv(p) && Enabled(p, op)
    ensures Inv(Step(p, op))
  {
    match op
    case Enter =>
      EnterKeeps(p);
    case PushJob(j) =>
      PushKeeps(p, j);
    case Work(w) =>
      WorkKeeps(p, w);
    case Stop =>
      PhaseKeeps(p, op);
    case PushPill =>
      PillKeeps(p);
    case Join =>
      PhaseKeeps(p, op);
    case Drain =>
      DrainKeeps(p);
  }

  lemma {:induction false} EnterKeeps(p: Pool)
    requires Inv(p) && Enabled(p, Enter)
    ensures Inv(Step(p, Enter))
  {
    hide Queued, Held, Behind;
    var p' := Step(p, Enter);
    assert p.nextJob !in p.pushed;
    forall k | 0 <= k < N(p) ensures PillAt(p', k) {
      assert PillAt(p, k);
    }
  }

  lemma {:induction false} PhaseKeeps(p: Pool, op: Op)
    requires Inv(p) && Enabled(p, op) && (op == Stop || op == Join || (op == Drain && p.queues[p.phase.i] == []))
    ensures Inv(Step(p, op))
  {
    hide Queued, Held, Behind;
    var p' := Step(p, op);
    forall k | 0 <= k < N(p) ensures PillAt(p', k) {
      assert PillAt(p, k);
    }
  }

  // ---------- runs ----------

  ghost predicate Run(ps: seq<Pool>, ops: seq<Op>, n: nat) {
    && |ps| == |ops| + 1 && Initial(ps[0], n)
    && forall k | 0 <= k < |ops| :: Enabled(ps[k], ops[k]) && ps[k+1] == Step(ps[k], ops[k])
  }

  lemma {:induction false} InitialInv(p: Pool, n: nat)
    requires Initial(p, n)
    ensures Inv(p)
  {
    forall j: nat ensures Queued(p.queues, j) == 0 && Held(p.workers, j) == 0 {
      NothingQueued(p.queues, j);
      NothingHeld(p.workers, j);
    }
    forall i | 0 <= i < N(p) ensures PillAt(p, i) {
    }
  }

  lemma {:induction false} NothingQueued(queues: seq<seq<Item>>, j: nat)
    requires forall i | 0 <= i < |queues| :: Job(j) !in queues[i]
    ensures Queued(queues, j) == 0
  {
    if queues != [] {
      NothingQueued(queues[..|queues|-1], j);
    }
  }

  lemma {:induction false} NothingHeld(ws: seq<Worker>, j: nat)
    requires forall i | 0 <= i < |ws| :: ws[i].held != Some(j)
    ensures Held(ws, j) == 0
  {
    if ws != [] {
      NothingHeld(ws[..|ws|-1], j);
    }
  }

  lemma {:induction false} RunsKeep(ps: seq<Pool>, ops: seq<Op>, n: nat, k: nat)
    requires Run(ps, ops, n) && k < |ps|
    ensures Inv(ps[k])
  {
    hide Inv, Initial, Step;
    if k == 0 {
      InitialInv(ps[0], n);
    } else {
      RunsKeep(ps, ops, n, k - 1);
      assert ps[k-1+1] == Step(ps[k-1], ops[k-1]);
      StepKeeps(ps[k-1], ops[k-1]);
    }
  }

  /** Some step before state `k` lets job `j` in. */
  ghost predicate LetIn(ps: seq<Pool>, ops: seq<Op>, k: nat, j: nat) {
    exists m :: 0 <= m < k && m < |ops| && m < |ps| && ops[m] == Enter && ps[m].nextJob == j
  }

  /** Some step before state `k` pushes job `j`. */
  ghost predicate PushDone(ops: seq<Op>, k: nat, j: nat) {
    exists m :: 0 <= m < k && m < |ops| && ops[m] == PushJob(j)
  }

  /** `pushed` has exactly the jobs that were pushed, and whoever was let in has pushed or is about to. */
  lemma {:induction false} NoneForgotten(ps: seq<Pool>, ops: seq<Op>, n: nat, k: nat, j: nat)
    requires Run(ps, ops, n) && k < |ps|
    ensures j in ps[k].pushed <==> PushDone(ops, k, j)
    ensures j in ps[k].pushed || j in ps[k].pending <==> LetIn(ps, ops, k, j)
    decreases k
  {
    hide WorkStep;
    if k > 0 {
      var m := k - 1;
      NoneForgotten(ps, ops, n, m, j);
      assert Enabled(ps[m], ops[m]) && ps[m+1] == Step(ps[m], ops[m]);
      BookkeepingStep(ps[m], ops[m], j);
      assert PushDone(ops, k, j) <==> PushDone(ops, m, j) || ops[m] == PushJob(j);
      assert LetIn(ps, ops, k, j) <==> LetIn(ps, ops, m, j) || (ops[m] == Enter && ps[m].nextJob == j);
    }
  }

  lemma {:induction false} BookkeepingStep(p: Pool, op: Op, j: nat)
    requires Enabled(p, op)
    ensures var p' := Step(p, op);
            && (j in p'.pushed <==> j in p.pushed || op == PushJob(j))
            && (j in p'.pushed || j in p'.pending <==>
                j in p.pushed || j in p.pending || (op == Enter && p.nextJob == j))
  {
  }

  function Enters(ops: seq<Op>): nat {
    if ops == [] then 0 else Enters(ops[..|ops|-1]) + if ops[|ops|-1] == Enter then 1 else 0
  }

  lemma {:induction false} Rounds(ps: seq<Pool>, ops: seq<Op>, n: nat, a: nat, b: nat)
    requires Run(ps, ops, n) && a <= b < |ps|
    ensures ps[b].round == ps[a].round + Enters(ops[a..b]) && N(ps[b]) == N(ps[a])
    decreases b
  {
    hide Step, Enabled;
    if a < b {
      var m := b - 1;
      Rounds(ps, ops, n, a, m);
      assert Enabled(ps[m], ops[m]) && ps[m+1] == Step(ps[m], ops[m]);
      RoundStep(ps[m], ops[m]);
      assert ops[a..b][..m - a] == ops[a..m];
    }
  }

  lemma {:induction false} RoundStep(p: Pool, op: Op)
    requires Enabled(p, op)
    ensures Step(p, op).round == p.round + (if op == Enter then 1 else 0) && N(Step(p, op)) == N(p)
  {
  }

  /** Calls go round the queues: `n` calls in a row, whatever happens in between, get `n` different ones. */
  lemma {:induction false} RoundRobin(ps: seq<Pool>, ops: seq<Op>, n: nat, a: nat, b: nat)
    requires Run(ps, ops, n) && a < b < |ops| && ops[a] == Enter && ops[b] == Enter && Enters(ops[a..b]) < n
    ensures var i, j := ps[a].nextJob, ps[b].nextJob;
            && i in ps[a+1].pending && j in ps[b+1].pending
            && ps[a+1].pending[i] != ps[b+1].pending[j] && ps[a+1].pending[i] < n && ps[b+1].pending[j] < n
  {
    hide Step, Enabled, Enters;
    assert N(ps[0]) == n;
    Rounds(ps, ops, n, 0, a);
    Rounds(ps, ops, n, a, b);
    assert Enabled(ps[a], ops[a]) && ps[a+1] == Step(ps[a], ops[a]);
    assert Enabled(ps[b], ops[b]) && ps[b+1] == Step(ps[b], ops[b]);
    EnterTarget(ps[a], n);
    EnterTarget(ps[b], n);
    EntersFirst(ops[a..b]);
    NotSame(ps[a].round, Enters(ops[a..b]), n);
  }

  lemma {:induction false} EnterTarget(p: Pool, n: nat)
    requires Enabled(p, Enter) && N(p) == n
    ensures n > 0 && p.nextJob in Step(p, Enter).pending && Step(p, Enter).pending[p.nextJob] == p.round % n < n
  {
  }

  lemma {:induction false} EntersFirst(ops: seq<Op>)
    requires ops != [] && ops[0] == Enter
    ensures Enters(ops) > 0
  {
    if |ops| > 1 {
      EntersFirst(ops[..|ops|-1]);
    }
  }

  lemma {:induction false} NotSame(r: nat, e: nat, n: nat)
    requires 0 < e < n
    ensures (r + e) % n != r % n
  {
    var q, x := r / n, r % n;
    assert r == n * q + x;
    if x + e < n {
      RemIs(r + e, n, q, x + e);
    } else {
      assert r + e == n * (q + 1) + (x + e - n);
      RemIs(r + e, n, q + 1, x + e - n);
    }
  }

  lemma {:induction false} RemIs(r: nat, n: nat, q: nat, x: nat)
    requires r == n * q + x && x < n
    ensures r % n == x
  {
    DivUnique(r, n, q, x);
  }

  /** Under every interleaving a job is run at most once, and never without having been pushed. */
  lemma {:induction false} AtMostOnce(ps: seq<Pool>, ops: seq<Op>, n: nat, k: nat, j: nat)
    requires Run(ps, ops, n) && k < |ps|
    ensures multiset(ps[k].ran)[j] <= (if j in ps[k].pushed then 1 else 0)
  {
    hide Run, Queued, Held;
    RunsKeep(ps, ops, n, k);
    assert j in ps[k].pushed <==> multiset(ps[k].pushed)[j] > 0;
  }

  /** Once the destructor is done, every job pushed before its queue was drained has run exactly once. */
  lemma {:induction false} EveryJobRuns(ps: seq<Pool>, ops: seq<Op>, n: nat, k: nat, j: nat)
    requires Run(ps, ops, n) && k < |ps| && ps[k].phase == Closed && j in ps[k].pushed && j !in ps[k].late
    ensures multiset(ps[k].ran)[j] == 1
  {
    hide Run, Queued, Held;
    var p := ps[k];
    RunsKeep(ps, ops, n, k);
    forall i | 0 <= i < N(p) ensures Job(j) !in p.queues[i] && p.workers[i].held != Some(j) {
      assert Drained(p, i) && PillAt(p, i);
    }
    NothingQueued(p.queues, j);
    NothingHeld(p.workers, j);
    assert multiset(p.pushed)[j] == 1;
  }

  /** A pill that disappears from a queue was taken by the worker it was meant for, which exits with that step. */
  lemma {:induction false} OwnPillOnly(ps: seq<Pool>, ops: seq<Op>, n: nat, k: nat, i: nat)
    requires Run(ps, ops, n) && k < |ops| && i < N(ps[k]) && i < N(ps[k+1])
    requires Pill in ps[k].queues[i] && Pill !in ps[k+1].queues[i]
    ensures ops[k] == Work(i) && i < |ps[k+1].workers| && ps[k+1].workers[i].exited
  {
    hide Queued, Held, Behind, Run;
    RunAt(ps, ops, n, k);
    RunsKeep(ps, ops, n, k);
    RunsKeep(ps, ops, n, k + 1);
    var p, p' := ps[k], ps[k+1];
    assert PillAt(p, i) && PillAt(p', i);
    assert multiset(p.queues[i])[Pill] > 0 && multiset(p'.queues[i])[Pill] == 0;
    assert PillPushed(p, i) && !p.workers[i].exited;
    StillPushed(p, ops[k], i);
    assert p'.workers[i].exited;
    ExitIsOwn(p, ops[k], i);
  }

  lemma {:induction false} RunAt(ps: seq<Pool>, ops: seq<Op>, n: nat, k: nat)
    requires Run(ps, ops, n) && k < |ops|
    ensures |ps| == |ops| + 1 && Enabled(ps[k], ops[k]) && ps[k+1] == Step(ps[k], ops[k])
  {
  }

  lemma {:induction false} StillPushed(p: Pool, op: Op, i: nat)
    requires Inv(p) && Enabled(p, op) && i < N(p) && PillPushed(p, i)
    ensures PillPushed(Step(p, op), i)
  {
    hide Queued, Held, Behind, Conserved, FreshJobs;
  }

  /** Only its own step makes a worker exit. */
  lemma {:induction false} ExitIsOwn(p: Pool, op: Op, i: nat)
    requires Inv(p) && Enabled(p, op) && i < N(p) && !p.workers[i].exited && Step(p, op).workers[i].exited
    ensures op == Work(i) && (p.workers[i].stage == 0 || p.workers[i].stage == 2 || p.workers[i].stage == 4)
    ensures p.queues[i] != [] && p.queues[i][0] == Pill
  {
    hide Queued, Held, Behind, Conserved, FreshJobs;
  }

  /** When a worker has exited, every job that was queued ahead of its pill has left its queue. */
  lemma {:induction false} ExitedAfterItsJobs(ps: seq<Pool>, ops: seq<Op>, n: nat, k: nat, i: nat, j: nat)
    requires Run(ps, ops, n) && k < |ps| && i < N(ps[k]) && i < |ps[k].workers| && i < |ps[k].ahead|
    requires ps[k].workers[i].exited && j in ps[k].ahead[i]
    ensures Job(j) !in ps[k].queues[i]
  {
    hide Run, Queued, Held, Conserved, FreshJobs;
    RunsKeep(ps, ops, n, k);
    var p := ps[k];
    assert PillAt(p, i);
    assert multiset(p.queues[i])[Pill] == 0;
    assert Pill !in p.queues[i];
    assert Behind(p.queues[i]) == p.queues[i];
  }

  // ---------- jobs that come too late ----------

  /** Job `j` lies in queue `i`, which nobody will look at again. */
  ghost predicate LiesIn(p: Pool, j: nat, i: nat) {
    i < N(p) && Drained(p, i) && Job(j) in p.queues[i]
  }

  ghost predicate LateLies(p: Pool) {
    forall j | j in p.late :: exists i :: LiesIn(p, j, i)
  }

  lemma {:induction false} LateStepKeeps(p: Pool, op: Op)
    requires Inv(p) && LateLies(p) && Enabled(p, op)
    ensures LateLies(Step(p, op))
  {
    hide Conserved, FreshJobs, AheadInv, PillsInv, Queued, Held, Behind;
    var p' := Step(p, op);
    forall j | j in p'.late ensures exists i :: LiesIn(p', j, i) {
      if j in p.late {
        var i :| LiesIn(p, j, i);
        assert LiesIn(p', j, i);
      } else {
        var i := p.pending[j];
        assert p'.queues[i] == p.queues[i] + [Job(j)];
        assert LiesIn(p', j, i);
      }
    }
  }

  lemma {:induction false} RunsKeepLate(ps: seq<Pool>, ops: seq<Op>, n: nat, k: nat)
    requires Run(ps, ops, n) && k < |ps|
    ensures LateLies(ps[k])
  {
    hide Inv, Initial, Step, LateLies;
    if k == 0 {
      NoneLate(ps[0], n);
    } else {
      RunsKeep(ps, ops, n, k - 1);
      RunsKeepLate(ps, ops, n, k - 1);
      assert ps[k-1+1] == Step(ps[k-1], ops[k-1]);
      LateStepKeeps(ps[k-1], ops[k-1]);
    }
  }

  lemma {:induction false} NoneLate(p: Pool, n: nat)
    requires Initial(p, n)
    ensures LateLies(p)
  {
  }

  /** When the destructor is done, a job has run exactly if it was pushed before its queue was drained. */
  lemma {:induction false} RunsIffNotLate(ps: seq<Pool>, ops: seq<Op>, n: nat, k: nat, j: nat)
    requires Run(ps, ops, n) && k < |ps| && ps[k].phase == Closed && j in ps[k].pushed
    ensures multiset(ps[k].ran)[j] == if j in ps[k].late then 0 else 1
  {
    hide Run, Queued, Held, LateLies;
    if j in ps[k].late {
      var p := ps[k];
      RunsKeep(ps, ops, n, k);
      RunsKeepLate(ps, ops, n, k);
      var i := LiesSomewhere(p, j);
      QueuedAt(p.queues, i, j);
      assert multiset(p.pushed)[j] == 1;
    } else {
      EveryJobRuns(ps, ops, n, k, j);
    }
  }

  lemma {:induction false} LiesSomewhere(p: Pool, j: nat) returns (i: nat)
    requires LateLies(p) && j in p.late
    ensures LiesIn(p, j, i)
  {
    i :| LiesIn(p, j, i);
  }

  /** One worker; a caller that is past the check when the destructor starts, and pushes when it is done. */
  function Stage(queue: seq<Item>, exited: bool, phase: Phase): Pool {
    Pool([queue], [Worker(0, 0, None, exited)], [[]], phase, 1, map[0 := 0], 1, [], [], {}, [{}])
  }

  const BEFORE := Stage([], false, Open).(pending := map[], nextJob := 0, round := 0)

  const AFTER := Stage([Job(0)], true, Closed).(pending := map[], pushed := [0], late := {0})

  lemma {:induction false} LateBegins()
    ensures Initial(BEFORE, 1)
    ensures Enabled(BEFORE, Enter) && Step(BEFORE, Enter) == Stage([], false, Open)
    ensures Enabled(Stage([], false, Open), Stop) && Step(Stage([], false, Open), Stop) == Stage([], false, Pilling(0))
  {
    var none: seq<Item> := [];
    assert BEFORE.queues == seq(1, _ => none) && BEFORE.ahead == seq(1, _ => {});
    assert BEFORE.workers == seq(1, _ => Worker(0, 0, None, false));
  }

  lemma {:induction false} LatePills()
    ensures var p := Stage([], false, Pilling(0));
            Enabled(p, PushPill) && Step(p, PushPill) == Stage([Pill], false, Joining(0))
    ensures var p := Stage([Pill], false, Joining(0));
            Enabled(p, Work(0)) && Step(p, Work(0)) == Stage([], true, Joining(0))
  {
    var none: seq<Item> := [];
    assert JobIds(none) == {};
    assert none + [Pill] == [Pill] && [Pill][1..] == none;
    OnlyOne([none], [Pill]);
    OnlyOne([[Pill]], none);
  }

  lemma {:induction false} LateEnds()
    ensures var p := Stage([], true, Joining(0)); Enabled(p, Join) && Step(p, Join) == Stage([], true, Draining(0))
    ensures var p := Stage([], true, Draining(0)); Enabled(p, Drain) && Step(p, Drain) == Stage([], true, Closed)
    ensures var p := Stage([], true, Closed); Enabled(p, PushJob(0)) && Step(p, PushJob(0)) == AFTER
  {
    var none: seq<Item> := [];
    assert none + [Job(0)] == [Job(0)];
    OnlyOne([none], [Job(0)]);
    assert Stage([], true, Closed).pending - {0} == map[];
  }

  lemma {:induction false} JobCanBeLate()
    ensures exists ps: seq<Pool>, ops: seq<Op> :: Run(ps, ops, 1) && 0 in ps[|ops|].late && ps[|ops|].phase == Closed
  {
    hide Enabled, Step, Initial;
    LateBegins();
    LatePills();
    LateEnds();
    var ps := [BEFORE, Stage([], false, Open), Stage([], false, Pilling(0)), Stage([Pill], false, Joining(0)),
               Stage([], true, Joining(0)), Stage([], true, Draining(0)), Stage([], true, Closed), AFTER];
    var ops := [Enter, Stop, PushPill, Work(0), Join, Drain, PushJob(0)];
    assert Run(ps, ops, 1);
  }

  lemma {:induction false} OnlyOne<T>(s: seq<T>, x: T)
    requires |s| == 1
    ensures s[0 := x] == [x]
  {
  }

  // ---------- shutdown cannot get stuck ----------

  /** What the destructor or the worker it waits for can do next. */
  ghost function NextStep(p: Pool): Op {
    match p.phase
    case Open => Stop
    case Pilling(_) => PushPill
    case Joining(i) => if i < |p.workers| && p.workers[i].exited then Join else Work(i)
    case Draining(_) => Drain
    case Closed => Stop
  }

  /** A worker that has not exited has its pill to come, so waiting for its queue ends. */
  lemma {:induction false} NeverStuck(p: Pool)
    requires Inv(p) && p.phase != Closed
    ensures Enabled(p, NextStep(p))
  {
    hide Conserved, FreshJobs, AheadInv, LateInv;
    if p.phase.Joining? && !p.workers[p.phase.i].exited {
      var i := p.phase.i;
      assert PillAt(p, i);
      assert multiset(p.queues[i])[Pill] == 1;
      assert Pill in p.queues[i];
    }
  }

  function Items(queues: seq<seq<Item>>): nat {
    if queues == [] then 0 else Items(queues[..|queues|-1]) + |queues[|queues|-1]|
  }

  lemma {:induction false} ItemsUpdate(queues: seq<seq<Item>>, i: nat, q: seq<Item>)
    requires i < |queues|
    ensures Items(queues[i := q]) + |queues[i]| == Items(queues) + |q|
  {
    var n := |queues| - 1;
    if i < n {
      ItemsUpdate(queues[..n], i, q);
      assert queues[i := q][..n] == queues[..n][i := q];
    } else {
      assert queues[i := q][..n] == queues[..n];
    }
  }

  /** How many phases are left. */
  function PhasesLeft(n: nat, p: Phase): int {
    match p
    case Open => 3 * n + 1
    case Pilling(i) => 3 * n - i
    case Joining(i) => 2 * n - i
    case Draining(i) => n - i
    case Closed => 0
  }

  /** How far a worker with `m` queues to try is from waiting for its own. */
  function StepsLeft(me: Worker, m: nat): nat {
    if me.stage < 3 then m + 5 - me.stage
    else if me.stage == 3 then if me.k <= m then m - me.k + 1 else 1
    else 0
  }

  function WorkerLeft(p: Pool): nat {
    match p.phase
    case Joining(i) => if i < |p.workers| && i < |p.order| then StepsLeft(p.workers[i], |p.order[i]|) else 0
    case _ => 0
  }

  function HeldLeft(p: Pool): nat {
    match p.phase
    case Joining(i) => if i < |p.workers| && p.workers[i].held.Some? then 1 else 0
    case _ => 0
  }

  /** `p'` is closer to the end of the shutdown than `p`. */
  ghost predicate Closer(p: Pool, p': Pool) {
    var a, b := PhasesLeft(N(p), p.phase), PhasesLeft(N(p'), p'.phase);
    || 0 <= b < a
    || (b == a && Items(p'.queues) < Items(p.queues))
    || (b == a && Items(p'.queues) == Items(p.queues) && HeldLeft(p') < HeldLeft(p))
    || (b == a && Items(p'.queues) == Items(p.queues) && HeldLeft(p') == HeldLeft(p) && WorkerLeft(p') < WorkerLeft(p))
  }

  lemma {:induction false} NextIsCloser(p: Pool)
    requires Inv(p) && p.phase != Closed
    ensures Enabled(p, NextStep(p)) && Closer(p, Step(p, NextStep(p)))
  {
    hide Conserved, FreshJobs, AheadInv, LateInv, PillsInv, Queued, Held, Items;
    NeverStuck(p);
    match p.phase
    case Joining(i) =>
      if !p.workers[i].exited {
        WorkIsCloser(p, i);
      }
    case Draining(i) =>
      if p.queues[i] != [] {
        ItemsUpdate(p.queues, i, p.queues[i][1..]);
      }
    case _ =>
  }

  lemma {:induction false} WorkIsCloser(p: Pool, i: nat)
    requires Shape(p) && p.phase == Joining(i) && Enabled(p, Work(i))
    ensures Closer(p, WorkStep(p, i))
  {
    hide Items;
    var me := p.workers[i];
    if !me.held.Some? {
      var v := if me.stage == 3 && me.k < |p.order[i]| then p.order[i][me.k] else i;
      if p.queues[v] != [] {
        ItemsUpdate(p.queues, v, p.queues[v][1..]);
      }
    }
  }

  /** From every reachable state the destructor and the workers alone can bring the shutdown to its end. */
  lemma {:induction false} ShutdownEnds(p: Pool) returns (ps: seq<Pool>)
    requires Inv(p)
    ensures |ps| > 0 && ps[0] == p && ps[|ps|-1].phase == Closed
    ensures forall k | 0 <= k < |ps| - 1 :: Enabled(ps[k], NextStep(ps[k])) && ps[k+1] == Step(ps[k], NextStep(ps[k]))
    decreases PhasesLeft(N(p), p.phase), Items(p.queues), HeldLeft(p), WorkerLeft(p)
  {
    hide Inv, Items, Step, Enabled, NextStep;
    if p.phase == Closed {
      ps := [p];
    } else {
      NextIsCloser(p);
      var p' := Step(p, NextStep(p));
      StepKeeps(p, NextStep(p));
      var rest := ShutdownEnds(p');
      ps := [p] + rest;
      forall k | 0 <= k < |ps| - 1
        ensures Enabled(ps[k], NextStep(ps[k])) && ps[k+1] == Step(ps[k], NextStep(ps[k]))
      {
        if k > 0 {
          assert ps[k] == rest[k-1] && ps[k+1] == rest[k-1+1];
        }
      }
    }
  }
}

/** A worker that has nothing to do finds work. */
module ThreadPoolProgress {
  import opened Basics
  import opened WorkQueue
  import opened ThreadPoolModel

  /** Each state follows from the one before by a step of worker `w`. */
  ghost predicate Alone(ps: seq<Pool>, w: nat) {
    forall k | 0 <= k < |ps| - 1 :: Enabled(ps[k], Work(w)) && ps[k+1] == Step(ps[k], Work(w))
  }

  /** A job is at the front of queue `i`. */
  predicate Front(p: Pool, i: nat) {
    i < N(p) && p.queues[i] != [] && p.queues[i][0].Job?
  }

  /** `ps` is the worker's way from `p` to having run one more job. */
  ghost predicate RunsOne(p: Pool, w: nat, ps: seq<Pool>) {
    |ps| > 0 && ps[0] == p && Alone(ps, w) && exists j :: ps[|ps|-1].ran == p.ran + [j]
  }

  lemma {:induction false} Prepend(p: Pool, w: nat, ps: seq<Pool>)
    requires Enabled(p, Work(w)) && RunsOne(Step(p, Work(w)), w, ps) && Step(p, Work(w)).ran == p.ran
    ensures RunsOne(p, w, [p] + ps)
  {
    hide Enabled, Step;
    var all := [p] + ps;
    forall k | 0 <= k < |all| - 1 ensures Enabled(all[k], Work(w)) && all[k+1] == Step(all[k], Work(w)) {
      if k > 0 {
        assert all[k] == ps[k-1] && all[k+1] == ps[k-1+1];
      }
    }
  }

  lemma {:induction false} RunsHeld(p: Pool, w: nat) returns (ps: seq<Pool>)
    requires Inv(p) && w < N(p) && !p.workers[w].exited && p.workers[w].held.Some?
    ensures RunsOne(p, w, ps)
  {
    assert Shape(p) && Enabled(p, Work(w));
    ps := [p, Step(p, Work(w))];
    assert ps[1].ran == p.ran + [p.workers[w].held.value];
  }

  /** The front of queue `i` is taken and run. */
  lemma {:induction false} TakesAndRuns(p: Pool, w: nat, i: nat) returns (ps: seq<Pool>)
    requires Inv(p) && Enabled(p, Work(w)) && Front(p, i) && Step(p, Work(w)) == Take(p, w, i)
    ensures RunsOne(p, w, ps)
  {
    hide Inv;
    StepKeeps(p, Work(w));
    ps := RunsHeld(Step(p, Work(w)), w);
    Prepend(p, w, ps);
    ps := [p] + ps;
  }

  /** Trying the others' queues from the `k`th on finds a job if there is one. */
  lemma {:induction false} StealsAndRuns(p: Pool, w: nat, v: nat) returns (ps: seq<Pool>)
    requires Inv(p) && w < N(p) && w < |p.workers| && w < |p.order|
    requires p.workers[w] == Worker(3, p.workers[w].k, None, false)
    requires p.workers[w].k <= v < |p.order[w]| && p.order[w][v] != w && Front(p, p.order[w][v])
    ensures RunsOne(p, w, ps)
    decreases v - p.workers[w].k
  {
    assert Shape(p) && Enabled(p, Work(w));
    var k := p.workers[w].k;
    var i := p.order[w][k];
    if i != w && Front(p, i) {
      ps := TakesAndRuns(p, w, i);
    } else {
      StepKeeps(p, Work(w));
      var p' := Step(p, Work(w));
      assert p'.workers[w] == Worker(3, k + 1, None, false);
      ps := StealsAndRuns(p', w, v);
      Prepend(p, w, ps);
      ps := [p] + ps;
    }
  }

  /**
   A worker that starts over, left to itself, runs a job if one is at the front of its own queue, or if that
   is empty and one is at the front of a queue it steals from.
   */
  lemma {:induction false} FindsWork(p: Pool, w: nat, v: nat) returns (ps: seq<Pool>)
    requires Inv(p) && w < N(p) && w < |p.workers| && w < |p.order| && p.workers[w] == Worker(0, 0, None, false)
    requires Front(p, w) || (p.queues[w] == [] && v < |p.order[w]| && p.order[w][v] != w && Front(p, p.order[w][v]))
    ensures RunsOne(p, w, ps)
  {
    assert Shape(p) && Enabled(p, Work(w));
    if Front(p, w) {
      ps := TakesAndRuns(p, w, w);
    } else {
      var p1 := Idles(p, w);
      var p2 := Idles(p1, w);
      var p3 := Idles(p2, w);
      ps := StealsAndRuns(p3, w, v);
      Prepend(p2, w, ps);
      Prepend(p1, w, [p2] + ps);
      Prepend(p, w, [p1] + ([p2] + ps));
      ps := [p] + ([p1] + ([p2] + ps));
    }
  }

  /** With an empty queue a worker goes from trying to sleeping to trying to stealing. */
  lemma {:induction false} Idles(p: Pool, w: nat) returns (p': Pool)
    requires Inv(p) && w < N(p) && w < |p.workers| && p.queues[w] == []
    requires p.workers[w].stage < 3 && p.workers[w] == Worker(p.workers[w].stage, 0, None, false)
    ensures Inv(p') && Enabled(p, Work(w)) && p' == Step(p, Work(w))
    ensures p' == p.(workers := p.workers[w := Worker(p.workers[w].stage + 1, 0, None, false)])
  {
    assert Shape(p) && Enabled(p, Work(w));
    StepKeeps(p, Work(w));
    p' := Step(p, Work(w));
  }
}

/** The pool as implemented, one queue operation of one thread at a time. */
module ThreadPoolWorkers {
  import opened Basics
  import opened WorkQueue
  import M = ThreadPoolModel

  class ThreadPool {
    const q: seq<Queue>
    const order: seq<seq<nat>>
    var workers: seq<M.Worker>
    var phase: M.Phase
    var round: nat
    var pending: map<nat, nat>
    var nextJob: nat
    var ran: seq<nat>
    ghost var pushed: seq<nat>
    ghost var late: set<nat>
    ghost var ahead: seq<set<nat>>

    ghost function Queues(): (s: seq<seq<Item>>)
      reads q
      ensures |s| == |q| && forall i | 0 <= i < |q| :: s[i] == q[i].q
    {
      seq(|q|, i requires 0 <= i < |q| reads q => q[i].q)
    }

    ghost function View(): M.Pool
      reads this, q
    {
      M.Pool(Queues(), workers, order, phase, round, pending, nextJob, pushed, ran, late, ahead)
    }

    ghost predicate Valid()
      reads this, q
    {
      Separate() && M.Inv(View())
    }

    ghost predicate Separate()
    {
      forall i, j | 0 <= i < j < |q| :: q[i] != q[j]
    }

    constructor (n: nat, order: seq<seq<nat>>)
      requires n > 0 && |order| == n && forall w, k | 0 <= w < n && 0 <= k < |order[w]| :: order[w][k] < n
      ensures Valid() && M.Initial(View(), n) && fresh(q)
    {
      var qs: seq<Queue> := [];
      while |qs| < n
        invariant |qs| <= n && fresh(qs)
        invariant forall i | 0 <= i < |qs| :: qs[i].q == []
        invariant forall i, j | 0 <= i < j < |qs| :: qs[i] != qs[j]
      {
        var one := new Queue();
        qs := qs + [one];
      }
      q, this.order := qs, order;
      workers := seq(n, _ => M.Worker(0, 0, None, false));
      phase, round, pending, nextJob, ran := M.Open, 0, map[], 0, [];
      pushed, late, ahead := [], {}, seq(n, _ => {});
      new;
      assert View().queues == seq(n, _ => []);
      M.InitialInv(View(), n);
    }

    /** `run_async` up to the choice of a queue: refused once the destructor has begun. */
    method RunAsync() returns (job: Option<nat>)
      requires Valid()
      modifies this
      ensures Valid()
      ensures if old(phase) == M.Open then job == Some(old(nextJob)) && View() == M.Step(old(View()), M.Enter)
              else job == None && View() == old(View())
    {
      ShapeHere();
      if phase != M.Open {
        return None;
      }
      ghost var p := View();
      M.StepKeeps(p, M.Enter);
      job := Some(nextJob);
      pending := pending[nextJob := round % |q|];
      nextJob, round := nextJob + 1, round + 1;
      assert Queues() == p.queues;
      assert View() == M.Step(p, M.Enter);
    }

    /** The push of `run_async`, which may come at any later time. */
    method PushJob(j: nat)
      requires Valid() && j in pending
      modifies this, q
      ensures Valid() && View() == M.Step(old(View()), M.PushJob(j))
    {
      ShapeHere();
      ghost var p := View();
      M.StepKeeps(p, M.PushJob(j));
      var i := pending[j];
      pushed, late := pushed + [j], if M.Drained(p, i) then late + {j} else late;
      q[i].Push(Job(j));
      pending := pending - {j};
      assert Queues() == p.queues[i := p.queues[i] + [Job(j)]];
      assert View() == M.Step(p, M.PushJob(j));
    }

    /** A worker goes on with what it took off a queue: the pill ends it. */
    method Got(w: nat, item: Item)
      requires w < |workers|
      modifies `workers
      ensures workers == old(workers)[w := if item.Pill? then M.Worker(0, 0, None, true)
                                           else M.Worker(0, 0, Some(item.id), false)]
    {
      match item
      case Pill => workers := workers[w := M.Worker(0, 0, None, true)];
      case Job(j) => workers := workers[w := M.Worker(0, 0, Some(j), false)];
    }

    /** One round of the loop in `run_thread`; while stealing, one round of the loop over the other queues. */
    method WorkerStep(w: nat)
      requires Valid() && w < |q| && w < |workers| && !workers[w].exited
      requires workers[w].held == None && workers[w].stage == 4 ==> q[w].q != []
      modifies this, q
      ensures Valid() && View() == M.Step(old(View()), M.Work(w))
    {
      hide M.Inv;
      ShapeHere();
      ghost var p := View();
      M.StepKeeps(p, M.Work(w));
      var me := workers[w];
      if me.held.Some? {
        workers := workers[w := me.(held := None)];
        ran := ran + [me.held.value];
        assert Queues() == p.queues;
      } else if me.stage == 0 || me.stage == 2 || me.stage == 4 {
        TryOwn(w);
      } else if me.stage == 1 {
        workers := workers[w := me.(stage := 2)];
        assert Queues() == p.queues;
      } else {
        TrySteal(w);
      }
      assert View() == M.Step(p, M.Work(w));
    }

    method TryOwn(w: nat)
      requires Separate() && w < |q| == |workers| == |order| && workers[w].held == None
      requires workers[w].stage == 0 || workers[w].stage == 2 || (workers[w].stage == 4 && q[w].q != [])
      modifies this, q
      ensures View() == M.WorkStep(old(View()), w)
    {
      ghost var p := View();
      var me := workers[w];
      var item := q[w].TryPop();
      if item.Some? {
        Got(w, item.value);
        assert Queues() == p.queues[w := p.queues[w][1..]];
      } else {
        workers := workers[w := me.(stage := me.stage + 1)];
        assert Queues() == p.queues;
      }
    }

    method TrySteal(w: nat)
      requires Separate() && w < |q| == |workers| == |order| && workers[w].held == None && workers[w].stage == 3
      requires workers[w].k < |order[w]| ==> order[w][workers[w].k] < |q|
      modifies this, q
      ensures View() == M.WorkStep(old(View()), w)
    {
      ghost var p := View();
      var me := workers[w];
      if me.k >= |order[w]| {
        workers := workers[w := me.(stage := 4, k := 0)];
        assert Queues() == p.queues;
        return;
      }
      var v := order[w][me.k];
      var item := None;
      if v != w {
        item := q[v].TryPopButIgnore(Pill);
      }
      if item.Some? {
        Got(w, item.value);
        assert Queues() == p.queues[v := p.queues[v][1..]];
      } else {
        workers := workers[w := me.(k := me.k + 1)];
        assert Queues() == p.queues;
      }
    }

    lemma {:induction false} ShapeHere()
      requires Valid()
      ensures M.Shape(View())
    {
      hide M.Conserved, M.FreshJobs, M.PillsInv, M.Joined, M.LateInv, M.AheadInv;
    }

    /** The destructor: no new jobs are taken from here on. */
    method Stop()
      requires Valid() && phase == M.Open
      modifies this
      ensures Valid() && View() == M.Step(old(View()), M.Stop)
    {
      hide M.Inv;
      ghost var p := View();
      M.StepKeeps(p, M.Stop);
      phase := M.AfterPhase(|q|, phase);
      assert Queues() == p.queues;
    }

    method PushPill()
      requires Valid() && phase.Pilling?
      modifies this, q
      ensures Valid() && View() == M.Step(old(View()), M.PushPill)
    {
      hide M.Inv;
      ShapeHere();
      ghost var p := View();
      M.StepKeeps(p, M.PushPill);
      var i := phase.i;
      ahead := ahead[i := M.JobIds(p.queues[i])];
      q[i].Push(Pill);
      phase := M.AfterPhase(|q|, phase);
      assert Queues() == p.queues[i := p.queues[i] + [Pill]];
    }

    method Join()
      requires Valid() && phase.Joining? && phase.i < |workers| && workers[phase.i].exited
      modifies this
      ensures Valid() && View() == M.Step(old(View()), M.Join)
    {
      hide M.Inv;
      ShapeHere();
      ghost var p := View();
      M.StepKeeps(p, M.Join);
      phase := M.AfterPhase(|q|, phase);
      assert Queues() == p.queues;
    }

    /** One round of the destructor's last loop: runs the oldest job left in a queue, or goes on to the next queue. */
    method DrainOne() returns (more: bool)
      requires Valid() && phase.Draining? && phase.i < |q|
      modifies this, q
      ensures Valid() && View() == M.Step(old(View()), M.Drain) && more == (old(q[phase.i].q) != [])
    {
      hide M.Inv;
      ghost var p := View();
      M.StepKeeps(p, M.Drain);
      var i := phase.i;
      var item := q[i].TryPop();
      more := item.Some?;
      if more {
        if item.value.Job? {
          ran := ran + [item.value.id];
        }
        assert Queues() == p.queues[i := p.queues[i][1..]];
      } else {
        phase := M.AfterPhase(|q|, phase);
        assert Queues() == p.queues;
      }
    }

    /** Runs what is left in one queue, oldest first, and goes on to the next. */
    method DrainQueue()
      requires Valid() && phase.Draining? && phase.i < |q|
      modifies this, q
      ensures Valid() && View() == Emptied(old(View()))
      ensures ran == old(ran) + JobsIn(old(q[phase.i].q)) && q[old(phase).i].q == []
    {
      hide M.Inv, M.Step, Emptied, JobsIn;
      EmptiedRuns(View());
      var more := true;
      while more
        invariant Valid() && if more then phase == old(phase) && Emptied(View()) == Emptied(old(View()))
                             else View() == Emptied(old(View()))
        decreases more, if more then |q[old(phase).i].q| else 0
      {
        DrainStep(View());
        more := DrainOne();
      }
    }
  }

  /** The destructor's steps on the queue it is at. */
  ghost function Emptied(p: M.Pool): M.Pool
    requires p.phase.Draining? && p.phase.i < M.N(p)
    decreases |p.queues[p.phase.i]|
  {
    var p' := M.Step(p, M.Drain);
    if p.queues[p.phase.i] == [] then p' else Emptied(p')
  }

  lemma {:induction false} DrainStep(p: M.Pool)
    requires p.phase.Draining? && p.phase.i < M.N(p)
    ensures M.Enabled(p, M.Drain)
    ensures var i, p' := p.phase.i, M.Step(p, M.Drain);
            if p.queues[i] == [] then p' == p.(phase := M.AfterPhase(M.N(p), p.phase)) && Emptied(p) == p'
            else
              var item := p.queues[i][0];
              && p' == p.(queues := p.queues[i := p.queues[i][1..]],
                          ran := if item.Job? then p.ran + [item.id] else p.ran)
              && Emptied(p) == Emptied(p')
  {
  }

  /** All of them together: every job left in the queue is run, in order, and nothing else changes. */
  lemma {:induction false} EmptiedRuns(p: M.Pool)
    requires p.phase.Draining? && p.phase.i < M.N(p)
    ensures Emptied(p) == p.(queues := p.queues[p.phase.i := []], phase := M.AfterPhase(M.N(p), p.phase),
                             ran := p.ran + JobsIn(p.queues[p.phase.i]))
    decreases |p.queues[p.phase.i]|
  {
    var i := p.phase.i;
    var items := p.queues[i];
    if items == [] {
      assert p.queues[i := []] == p.queues && p.ran + JobsIn(items) == p.ran;
    } else {
      var p' := M.Step(p, M.Drain);
      EmptiedRuns(p');
      assert p'.queues[i := []] == p.queues[i := []];
      assert items == [items[0]] + items[1..];
    }
  }

  function JobsIn(s: seq<Item>): seq<nat> {
    if s == [] then [] else (if s[0].Job? then [s[0].id] else []) + JobsIn(s[1..])
  }
}
