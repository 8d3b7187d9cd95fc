/** A queue that caches its first element, so that it can be looked at without taking it. */
module CachedQueue {
  import opened Basics

  datatype Queue = Queue(head: Option<nat>, rest: seq<nat>)

  const Fresh := Queue(None, [])

  function Contents(q: Queue): seq<nat> {
    (if q.head.Some? then [q.head.value] else []) + q.rest
  }

  /** `mpr_queue_trypop`: the new queue and what was taken, if anything. */
  function TryPop(q: Queue): (r: (Queue, Option<nat>))
    ensures if Contents(q) == [] then r == (q, None)
            else r.1 == Some(Contents(q)[0]) && Contents(r.0) == Contents(q)[1..]
  {
    if q.head.Some? then (q.(head := None), q.head)
    else if q.rest == [] then (q, None)
    else (q.(rest := q.rest[1..]), Some(q.rest[0]))
  }

  function Push(q: Queue, x: nat): (r: Queue)
    ensures Contents(r) == Contents(q) + [x]
  {
    q.(rest := q.rest + [x])
  }

  /** `mpr_queue_peek`: fills the cache, which nobody can tell from the contents. */
  function Peek(q: Queue): (r: (Queue, Option<nat>))
    ensures Contents(r.0) == Contents(q)
    ensures r.1 == if Contents(q) == [] then None else Some(Contents(q)[0])
  {
    if q.head.Some? then (q, q.head)
    else if q.rest == [] then (q, None)
    else
      var r := Queue(Some(q.rest[0]), q.rest[1..]);
      (r, r.head)
  }
}

/** The scheduler: a node may run when it is at the front of every queue it belongs to. */
module DagModel {
  datatype Color = Gray | White | Black

  datatype Node = Node(qids: seq<nat>, color: Color, live: bool)

  /**
   Nodes are numbered in the order they are pushed. `entered` and `popped` record, in order, which
   nodes ever entered the white queue and which were popped.
   */
  datatype Dag = Dag(nodes: seq<Node>, queues: map<nat, seq<nat>>, white: seq<nat>, entered: seq<nat>, popped: seq<nat>)

  const Empty := Dag([], map[], [], [], [])

  predicate Heads(queues: map<nat, seq<nat>>, q: nat, n: nat) {
    q in queues && queues[q] != [] && queues[q][0] == n
  }

  predicate HeadsAll(queues: map<nat, seq<nat>>, qids: seq<nat>, n: nat) {
    forall i | 0 <= i < |qids| :: Heads(queues, qids[i], n)
  }

  function QueueOf(queues: map<nat, seq<nat>>, q: nat): seq<nat> {
    if q in queues then queues[q] else []
  }

  function Enqueue(queues: map<nat, seq<nat>>, qids: seq<nat>, n: nat): map<nat, seq<nat>> {
    if qids == [] then queues
    else
      var k := |qids| - 1;
      var rest := Enqueue(queues, qids[..k], n);
      rest[qids[k] := QueueOf(rest, qids[k]) + [n]]
  }

  function Push(d: Dag, qids: seq<nat>): Dag {
    var n := |d.nodes|;
    var queues := Enqueue(d.queues, qids, n);
    if HeadsAll(queues, qids, n) then
      d.(nodes := d.nodes + [Node(qids, White, true)], queues := queues,
         white := d.white + [n], entered := d.entered + [n])
    else
      d.(nodes := d.nodes + [Node(qids, Black, true)], queues := queues)
  }

  function GetWhite(d: Dag): Dag
    requires d.white != [] && d.white[0] < |d.nodes|
  {
    var n := d.white[0];
    d.(white := d.white[1..], nodes := d.nodes[n := d.nodes[n].(color := Gray)])
  }

  /** Takes the front off queue `q` and, if that lets the next node run, moves it to the white queue. */
  function PopOne(d: Dag, q: nat): Dag
    requires q in d.queues && d.queues[q] != []
  {
    var queues := d.queues[q := d.queues[q][1..]];
    if queues[q] == [] || !(queues[q][0] < |d.nodes|) then d.(queues := queues)
    else
      var m := queues[q][0];
      if d.nodes[m].color != White && HeadsAll(queues, d.nodes[m].qids, m) then
        d.(queues := queues, nodes := d.nodes[m := d.nodes[m].(color := White)],
           white := d.white + [m], entered := d.entered + [m])
      else d.(queues := queues)
  }

  /** The first `k` queues of `qids` are popped. */
  function PopQueues(d: Dag, qids: seq<nat>, k: nat): Dag
    requires k <= |qids|
  {
    if k == 0 then d
    else
      var e := PopQueues(d, qids, k - 1);
      if qids[k-1] in e.queues && e.queues[qids[k-1]] != [] then PopOne(e, qids[k-1]) else e
  }

  function Pop(d: Dag, n: nat): Dag
    requires n < |d.nodes|
  {
    var e := PopQueues(d, d.nodes[n].qids, |d.nodes[n].qids|);
    if n < |e.nodes| then e.(nodes := e.nodes[n := e.nodes[n].(live := false)], popped := e.popped + [n]) else e
  }

  // ---------- the invariant ----------

  ghost predicate Distinct(s: seq<nat>) {
    forall i, j | 0 <= i < j < |s| :: s[i] != s[j]
  }

  ghost predicate Increasing(s: seq<nat>) {
    forall i, j | 0 <= i < j < |s| :: s[i] < s[j]
  }

  /** Node `n` waits in queue `q`; `gone` are the queues the node being popped has already left. */
  ghost predicate Waits(d: Dag, n: nat, q: nat, popping: int, gone: seq<nat>) {
    n < |d.nodes| && d.nodes[n].live && q in d.nodes[n].qids && !(n == popping && q in gone)
  }

  ghost predicate QueueInv(d: Dag, popping: int, gone: seq<nat>) {
    && (forall q | q in d.queues :: Increasing(d.queues[q]))
    && (forall q, n | q in d.queues && n in d.queues[q] :: Waits(d, n, q, popping, gone))
    && (forall q, n | Waits(d, n, q, popping, gone) :: q in d.queues && n in d.queues[q])
  }

  /** A node is out of the waiting colour exactly when it is at the front of all its queues. */
  ghost predicate ColorInv(d: Dag, popping: int) {
    forall n | 0 <= n < |d.nodes| && d.nodes[n].live && n != popping ::
      d.nodes[n].color != Black <==> HeadsAll(d.queues, d.nodes[n].qids, n)
  }

  ghost predicate WhiteInv(d: Dag) {
    && (forall i | 0 <= i < |d.white| ::
          d.white[i] < |d.nodes| && d.nodes[d.white[i]].live && d.nodes[d.white[i]].color == White)
    && (forall n | 0 <= n < |d.nodes| && d.nodes[n].live && d.nodes[n].color == White :: n in d.white)
    && Distinct(d.white)
  }

  /** Each node enters the white queue once: by the time it stops being black. */
  ghost predicate EnteredInv(d: Dag) {
    && Distinct(d.entered)
    && (forall i | 0 <= i < |d.entered| :: d.entered[i] < |d.nodes| && d.nodes[d.entered[i]].color != Black)
    && (forall n | 0 <= n < |d.nodes| && d.nodes[n].color != Black :: n in d.entered)
    && (forall n | 0 <= n < |d.nodes| && !d.nodes[n].live :: d.nodes[n].color != Black)
  }

  /** Nodes that share a queue leave in the order in which they came. */
  ghost predicate PoppedInv(d: Dag) {
    && (forall i | 0 <= i < |d.popped| :: d.popped[i] < |d.nodes| && !d.nodes[d.popped[i]].live)
    && (forall i, j, q | 0 <= i < j < |d.popped| && q in d.nodes[d.popped[i]].qids && q in d.nodes[d.popped[j]].qids ::
          d.popped[i] < d.popped[j])
    && (forall i, q, n | 0 <= i < |d.popped| && q in d.nodes[d.popped[i]].qids && q in d.queues && n in d.queues[q] ::
          d.popped[i] < n)
  }

  ghost predicate QidsDistinct(d: Dag) {
    forall n | 0 <= n < |d.nodes| :: Distinct(d.nodes[n].qids)
  }

  ghost predicate Inv(d: Dag) {
    QidsDistinct(d) && QueueInv(d, -1, []) && ColorInv(d, -1) && WhiteInv(d) && EnteredInv(d) && PoppedInv(d)
  }

  // ---------- push ----------

  lemma {:induction false} EnqueueAt(queues: map<nat, seq<nat>>, qids: seq<nat>, n: nat, q: nat)
    requires Distinct(qids)
    ensures QueueOf(Enqueue(queues, qids, n), q) == QueueOf(queues, q) + (if q in qids then [n] else [])
    ensures q in Enqueue(queues, qids, n) <==> q in queues || q in qids
  {
    if qids != [] {
      var k := |qids| - 1;
      EnqueueAt(queues, qids[..k], n, q);
      assert qids == qids[..k] + [qids[k]];
      assert qids[k] !in qids[..k];
    }
  }

  /** Who is at the front of its queues stays there when others line up behind. */
  lemma {:induction false} HeadsAfterPush(d: Dag, qids: seq<nat>, m: nat)
    requires Inv(d) && Distinct(qids) && m < |d.nodes| && d.nodes[m].live
    ensures var queues := Enqueue(d.queues, qids, |d.nodes|);
            HeadsAll(queues, d.nodes[m].qids, m) <==> HeadsAll(d.queues, d.nodes[m].qids, m)
  {
    hide Enqueue, ColorInv, WhiteInv, EnteredInv, PoppedInv;
    var queues := Enqueue(d.queues, qids, |d.nodes|);
    forall i | 0 <= i < |d.nodes[m].qids|
      ensures Heads(queues, d.nodes[m].qids[i], m) <==> Heads(d.queues, d.nodes[m].qids[i], m)
    {
      var q := d.nodes[m].qids[i];
      EnqueueAt(d.queues, qids, |d.nodes|, q);
      assert Waits(d, m, q, -1, []);
    }
  }

  lemma {:induction false} IncreasingSnoc(s: seq<nat>, n: nat)
    requires Increasing(s) && forall i | 0 <= i < |s| :: s[i] < n
    ensures Increasing(s + [n])
  {
  }

  lemma {:induction false} PushIncreasing(d: Dag, qids: seq<nat>, q: nat)
    requires QueueInv(d, -1, []) && Distinct(qids) && q in Enqueue(d.queues, qids, |d.nodes|)
    ensures Increasing(Enqueue(d.queues, qids, |d.nodes|)[q])
  {
    hide Enqueue;
    var n := |d.nodes|;
    EnqueueAt(d.queues, qids, n, q);
    var s := QueueOf(d.queues, q);
    if q in qids {
      forall i | 0 <= i < |s| ensures s[i] < n {
        assert s[i] in s && Waits(d, s[i], q, -1, []);
      }
      IncreasingSnoc(s, n);
    }
  }

  lemma {:induction false} PushWaits(d: Dag, qids: seq<nat>, q: nat, m: nat)
    requires QueueInv(d, -1, []) && Distinct(qids)
    ensures var d' := Push(d, qids); Waits(d', m, q, -1, []) <==> q in d'.queues && m in d'.queues[q]
    ensures var d' := Push(d, qids); q in d'.queues && m in d'.queues[q] ==> m in QueueOf(d.queues, q) || m == |d.nodes|
  {
    hide Enqueue, HeadsAll, Increasing;
    EnqueueAt(d.queues, qids, |d.nodes|, q);
    assert Waits(d, m, q, -1, []) <==> m in QueueOf(d.queues, q);
  }

  lemma {:induction false} PushQueues(d: Dag, qids: seq<nat>)
    requires Inv(d) && Distinct(qids)
    ensures QueueInv(Push(d, qids), -1, []) && PoppedInv(Push(d, qids))
  {
    hide Enqueue, ColorInv, WhiteInv, EnteredInv, HeadsAll, Waits, Increasing;
    var d', n := Push(d, qids), |d.nodes|;
    forall q | q in d'.queues ensures Increasing(d'.queues[q]) {
      PushIncreasing(d, qids, q);
    }
    forall q: nat, m: nat
      ensures Waits(d', m, q, -1, []) <==> q in d'.queues && m in d'.queues[q]
      ensures q in d'.queues && m in d'.queues[q] ==> m in QueueOf(d.queues, q) || m == n
    {
      PushWaits(d, qids, q, m);
    }
  }

  lemma {:induction false} PushColors(d: Dag, qids: seq<nat>)
    requires Inv(d) && Distinct(qids)
    ensures ColorInv(Push(d, qids), -1)
  {
    hide Enqueue, QueueInv, PoppedInv, HeadsAll, WhiteInv, EnteredInv;
    var d', n := Push(d, qids), |d.nodes|;
    forall m | 0 <= m < |d'.nodes| && d'.nodes[m].live
      ensures d'.nodes[m].color != Black <==> HeadsAll(d'.queues, d'.nodes[m].qids, m)
    {
      if m < n {
        HeadsAfterPush(d, qids, m);
      }
    }
  }

  lemma {:induction false} DistinctSnoc(s: seq<nat>, n: nat)
    requires Distinct(s) && n !in s
    ensures Distinct(s + [n])
  {
  }

  lemma {:induction false} PushWhite(d: Dag, qids: seq<nat>)
    requires QidsDistinct(d) && WhiteInv(d) && EnteredInv(d) && Distinct(qids)
    ensures var d' := Push(d, qids); WhiteInv(d') && EnteredInv(d') && QidsDistinct(d')
  {
    hide Enqueue, HeadsAll, Distinct;
    var n := |d.nodes|;
    assert n !in d.white && n !in d.entered;
    DistinctSnoc(d.white, n);
    DistinctSnoc(d.entered, n);
  }

  lemma {:induction false} PushKeeps(d: Dag, qids: seq<nat>)
    requires Inv(d) && Distinct(qids)
    ensures Inv(Push(d, qids))
  {
    hide Push, QueueInv, ColorInv, WhiteInv, EnteredInv, PoppedInv, QidsDistinct;
    PushQueues(d, qids);
    PushColors(d, qids);
    PushWhite(d, qids);
  }

  /** Colours do not matter to the queues. */
  lemma {:induction false} SameQueues(d: Dag, d': Dag, popping: int, gone: seq<nat>)
    requires QueueInv(d, popping, gone) && d'.queues == d.queues && |d'.nodes| == |d.nodes|
    requires forall n | 0 <= n < |d.nodes| :: d'.nodes[n].qids == d.nodes[n].qids && d'.nodes[n].live == d.nodes[n].live
    ensures QueueInv(d', popping, gone)
  {
    hide Increasing;
    forall q: nat, m: nat ensures Waits(d', m, q, popping, gone) <==> Waits(d, m, q, popping, gone) {
    }
  }

  lemma {:induction false} GetWhiteColors(d: Dag)
    requires WhiteInv(d) && EnteredInv(d) && d.white != []
    ensures d.white[0] < |d.nodes| && WhiteInv(GetWhite(d)) && EnteredInv(GetWhite(d))
  {
    var d' := GetWhite(d);
    forall m | 0 <= m < |d'.nodes| && d'.nodes[m].live && d'.nodes[m].color == White ensures m in d'.white {
      assert m in d.white && m != d.white[0];
    }
  }

  lemma {:induction false} GetWhiteKeeps(d: Dag)
    requires Inv(d) && d.white != []
    ensures d.white[0] < |d.nodes| && Inv(GetWhite(d))
  {
    GetWhiteColors(d);
    hide HeadsAll, QueueInv, EnteredInv, Distinct;
    SameQueues(d, GetWhite(d), -1, []);
  }

  // ---------- pop ----------

  /** While node `n` is being popped and has left the queues `gone`. */
  ghost predicate Mid(d: Dag, n: nat, gone: seq<nat>) {
    && n < |d.nodes| && d.nodes[n].live && d.nodes[n].color == Gray
    && QidsDistinct(d) && QueueInv(d, n, gone) && ColorInv(d, n) && WhiteInv(d) && EnteredInv(d) && PoppedInv(d)
    && Fronts(d, n, gone) && Behind(d, n, gone) && Before(d, n)
  }

  ghost predicate Fronts(d: Dag, n: nat, gone: seq<nat>)
    requires n < |d.nodes|
  {
    forall q | q in d.nodes[n].qids && q !in gone :: Heads(d.queues, q, n)
  }

  ghost predicate Behind(d: Dag, n: nat, gone: seq<nat>) {
    forall q, m | q in gone && q in d.queues && m in d.queues[q] :: n < m
  }

  ghost predicate Before(d: Dag, n: nat)
    requires n < |d.nodes|
  {
    forall i, q | 0 <= i < |d.popped| && d.popped[i] < |d.nodes| &&
                  q in d.nodes[d.popped[i]].qids && q in d.nodes[n].qids ::
      d.popped[i] < n
  }

  lemma {:induction false} MidStart(d: Dag, n: nat)
    requires Inv(d) && n < |d.nodes| && d.nodes[n].live && d.nodes[n].color == Gray
    ensures Mid(d, n, [])
  {
    hide WhiteInv, EnteredInv, Increasing;
    assert HeadsAll(d.queues, d.nodes[n].qids, n);
    forall q: nat, m: nat ensures Waits(d, m, q, n, []) <==> Waits(d, m, q, -1, []) {
    }
    forall i, q | 0 <= i < |d.popped| && d.popped[i] < |d.nodes| &&
                  q in d.nodes[d.popped[i]].qids && q in d.nodes[n].qids
      ensures d.popped[i] < n
    {
      assert Waits(d, n, q, -1, []);
      assert n in d.queues[q];
    }
  }

  /** Taking the front off an increasing queue removes just that element, the least. */
  lemma {:induction false} TailOf(s: seq<nat>)
    requires Increasing(s) && s != []
    ensures Increasing(s[1..]) && forall m | m in s[1..] :: m in s && s[0] < m
    ensures forall m | m in s && m != s[0] :: m in s[1..]
  {
  }

  function Dropped(d: Dag, q: nat): map<nat, seq<nat>>
    requires q in d.queues && d.queues[q] != []
  {
    d.queues[q := d.queues[q][1..]]
  }

  lemma {:induction false} DropQueues(d: Dag, n: nat, gone: seq<nat>, q: nat)
    requires Mid(d, n, gone) && q in d.nodes[n].qids && q !in gone
    ensures Heads(d.queues, q, n)
    ensures var d' := d.(queues := Dropped(d, q));
            QueueInv(d', n, gone + [q]) && PoppedInv(d') && Fronts(d', n, gone + [q]) && Behind(d', n, gone + [q])
  {
    hide ColorInv, WhiteInv, EnteredInv, Increasing;
    assert Heads(d.queues, q, n);
    TailOf(d.queues[q]);
    var d' := d.(queues := Dropped(d, q));
    forall p: nat, m: nat ensures Waits(d', m, p, n, gone + [q]) <==> p in d'.queues && m in d'.queues[p] {
      assert Waits(d, m, p, n, gone) <==> p in d.queues && m in d.queues[p];
    }
  }

  /** Only the new front of the queue can have come to the front of all its queues. */
  lemma {:induction false} DropHeads(d: Dag, n: nat, gone: seq<nat>, q: nat, m: nat)
    requires Mid(d, n, gone) && q in d.nodes[n].qids && q !in gone && Heads(d.queues, q, n)
    requires m < |d.nodes| && d.nodes[m].live && m != n
    ensures HeadsAll(d.queues, d.nodes[m].qids, m) ==> HeadsAll(Dropped(d, q), d.nodes[m].qids, m)
    ensures !Heads(Dropped(d, q), q, m) ==>
              (HeadsAll(Dropped(d, q), d.nodes[m].qids, m) <==> HeadsAll(d.queues, d.nodes[m].qids, m))
    ensures Heads(Dropped(d, q), q, m) ==> d.nodes[m].color == Black
  {
    hide WhiteInv, EnteredInv, PoppedInv, Increasing, QidsDistinct;
    var queues := Dropped(d, q);
    forall i | 0 <= i < |d.nodes[m].qids| && d.nodes[m].qids[i] != q
      ensures Heads(queues, d.nodes[m].qids[i], m) <==> Heads(d.queues, d.nodes[m].qids[i], m)
    {
    }
    if Heads(queues, q, m) {
      assert m in d.queues[q][1..] && m in d.queues[q];
      assert Waits(d, m, q, n, gone);
      var i :| 0 <= i < |d.nodes[m].qids| && d.nodes[m].qids[i] == q;
      assert !Heads(d.queues, d.nodes[m].qids[i], m);
    }
  }

  lemma {:induction false} PopOneColors(d: Dag, n: nat, gone: seq<nat>, q: nat)
    requires Mid(d, n, gone) && q in d.nodes[n].qids && q !in gone && Heads(d.queues, q, n)
    ensures ColorInv(PopOne(d, q), n)
  {
    hide WhiteInv, EnteredInv, PoppedInv, QueueInv, QidsDistinct, HeadsAll, Fronts, Behind, Before;
    var d' := PopOne(d, q);
    forall m | 0 <= m < |d'.nodes| && d'.nodes[m].live && m != n
      ensures d'.nodes[m].color != Black <==> HeadsAll(d'.queues, d'.nodes[m].qids, m)
    {
      DropHeads(d, n, gone, q, m);
    }
  }

  lemma {:induction false} PopOneWhite(d: Dag, n: nat, gone: seq<nat>, q: nat)
    requires Mid(d, n, gone) && q in d.nodes[n].qids && q !in gone && Heads(d.queues, q, n)
    ensures var d' := PopOne(d, q);
            && WhiteInv(d') && EnteredInv(d') && QidsDistinct(d') && d'.queues == Dropped(d, q) && d'.popped == d.popped
            && |d'.nodes| == |d.nodes| && d'.nodes[n] == d.nodes[n]
            && (forall m | 0 <= m < |d.nodes| ::
                  d'.nodes[m].qids == d.nodes[m].qids && d'.nodes[m].live == d.nodes[m].live)
  {
    hide PoppedInv, ColorInv, HeadsAll, Fronts, Behind, Before, Distinct;
    var queues := Dropped(d, q);
    if queues[q] != [] {
      var m := queues[q][0];
      assert m in d.queues[q];
      assert Waits(d, m, q, n, gone);
      assert m != n by {
        TailOf(d.queues[q]);
        assert m in d.queues[q][1..];
      }
      DropHeads(d, n, gone, q, m);
      assert m !in d.white && m !in d.entered;
      DistinctSnoc(d.white, m);
      DistinctSnoc(d.entered, m);
    }
  }

  lemma {:induction false} PopOneKeeps(d: Dag, n: nat, gone: seq<nat>, q: nat)
    requires Mid(d, n, gone) && q in d.nodes[n].qids && q !in gone
    ensures q in d.queues && d.queues[q] != [] && d.queues[q][0] == n
    ensures Mid(PopOne(d, q), n, gone + [q]) && PopOne(d, q).nodes[n] == d.nodes[n]
    ensures |PopOne(d, q).nodes| == |d.nodes| && PopOne(d, q).popped == d.popped
  {
    hide PopOne, QueueInv, ColorInv, WhiteInv, EnteredInv, HeadsAll, QidsDistinct;
    DropQueues(d, n, gone, q);
    PopOneColors(d, n, gone, q);
    PopOneWhite(d, n, gone, q);
    var d1, d' := d.(queues := Dropped(d, q)), PopOne(d, q);
    SameQueues(d1, d', n, gone + [q]);
  }

  lemma {:induction false} PopQueuesKeeps(d: Dag, n: nat, k: nat)
    requires Mid(d, n, []) && k <= |d.nodes[n].qids|
    ensures var e := PopQueues(d, d.nodes[n].qids, k);
            && Mid(e, n, d.nodes[n].qids[..k]) && e.nodes[n] == d.nodes[n]
            && |e.nodes| == |d.nodes| && e.popped == d.popped
  {
    hide PopOne, QueueInv, ColorInv, WhiteInv, EnteredInv, PoppedInv, Fronts, Behind, Before;
    var qids := d.nodes[n].qids;
    if k > 0 {
      PopQueuesKeeps(d, n, k - 1);
      var e := PopQueues(d, qids, k - 1);
      assert Distinct(qids);
      assert qids[k-1] !in qids[..k-1];
      PopOneKeeps(e, n, qids[..k-1], qids[k-1]);
      assert qids[..k-1] + [qids[k-1]] == qids[..k];
    } else {
      assert qids[..0] == [];
    }
  }

  lemma {:induction false} MidEnd(e: Dag, n: nat)
    requires n < |e.nodes| && Mid(e, n, e.nodes[n].qids)
    ensures Inv(e.(nodes := e.nodes[n := e.nodes[n].(live := false)], popped := e.popped + [n]))
  {
    hide HeadsAll, Increasing, Distinct;
    var d' := e.(nodes := e.nodes[n := e.nodes[n].(live := false)], popped := e.popped + [n]);
    forall q: nat, m: nat ensures Waits(d', m, q, -1, []) <==> Waits(e, m, q, n, e.nodes[n].qids) {
    }
    MidEndPopped(e, n);
  }

  lemma {:induction false} MidEndPopped(e: Dag, n: nat)
    requires n < |e.nodes| && Mid(e, n, e.nodes[n].qids)
    ensures PoppedInv(e.(nodes := e.nodes[n := e.nodes[n].(live := false)], popped := e.popped + [n]))
  {
    hide QueueInv, ColorInv, WhiteInv, EnteredInv, QidsDistinct, Fronts;
  }

  lemma {:induction false} PopKeeps(d: Dag, n: nat)
    requires Inv(d) && n < |d.nodes| && d.nodes[n].live && d.nodes[n].color == Gray
    ensures Inv(Pop(d, n))
  {
    hide Inv, Mid, PopQueues;
    MidStart(d, n);
    PopQueuesKeeps(d, n, |d.nodes[n].qids|);
    var qids := d.nodes[n].qids;
    assert qids[..|qids|] == qids;
    MidEnd(PopQueues(d, qids, |qids|), n);
  }

  // ---------- runs ----------

  datatype Op = OpPush(qids: seq<nat>) | OpGetWhite | OpPop(n: nat)

  /** A node is popped by whoever took it from the white queue. */
  ghost predicate Enabled(d: Dag, op: Op) {
    match op
    case OpPush(qids) => Distinct(qids)
    case OpGetWhite => d.white != [] && d.white[0] < |d.nodes|
    case OpPop(n) => n < |d.nodes| && d.nodes[n].live && d.nodes[n].color == Gray
  }

  ghost function Step(d: Dag, op: Op): Dag
    requires Enabled(d, op)
  {
    match op
    case OpPush(qids) => Push(d, qids)
    case OpGetWhite => GetWhite(d)
    case OpPop(n) => Pop(d, n)
  }

  ghost predicate Run(ds: seq<Dag>, ops: seq<Op>) {
    && |ds| == |ops| + 1 && ds[0] == Empty
    && forall n | 0 <= n < |ops| :: Enabled(ds[n], ops[n]) && ds[n+1] == Step(ds[n], ops[n])
  }

  lemma {:induction false} RunsKeep(ds: seq<Dag>, ops: seq<Op>, k: nat)
    requires Run(ds, ops) && k < |ds|
    ensures Inv(ds[k])
  {
    hide Push, GetWhite, Pop;
    if k == 0 {
      EmptyInv();
    } else {
      hide Inv;
      RunsKeep(ds, ops, k - 1);
      assert ds[k-1+1] == Step(ds[k-1], ops[k-1]);
      match ops[k-1]
      case OpPush(qids) => PushKeeps(ds[k-1], qids);
      case OpGetWhite => GetWhiteKeeps(ds[k-1]);
      case OpPop(n) => PopKeeps(ds[k-1], n);
    }
  }

  lemma {:induction false} EmptyInv()
    ensures Inv(Empty)
  {
    forall q: nat, n: nat ensures !Waits(Empty, n, q, -1, []) {
    }
  }

  /** A node may run exactly when it is at the front of all its queues. */
  lemma {:induction false} RunnableIffFront(ds: seq<Dag>, ops: seq<Op>, k: nat, n: nat)
    requires Run(ds, ops) && k < |ds| && n < |ds[k].nodes| && ds[k].nodes[n].live
    ensures ds[k].nodes[n].color != Black <==> HeadsAll(ds[k].queues, ds[k].nodes[n].qids, n)
  {
    hide Run, HeadsAll;
    RunsKeep(ds, ops, k);
  }

  /** Two nodes that share a queue are never runnable together. */
  lemma {:induction false} NeverTogether(ds: seq<Dag>, ops: seq<Op>, k: nat, m: nat, n: nat, q: nat)
    requires Run(ds, ops) && k < |ds|
    requires m < |ds[k].nodes| && ds[k].nodes[m].live && ds[k].nodes[m].color != Black && q in ds[k].nodes[m].qids
    requires n < |ds[k].nodes| && ds[k].nodes[n].live && ds[k].nodes[n].color != Black && q in ds[k].nodes[n].qids
    ensures m == n
  {
    hide Run;
    RunsKeep(ds, ops, k);
    assert HeadsAll(ds[k].queues, ds[k].nodes[m].qids, m) && HeadsAll(ds[k].queues, ds[k].nodes[n].qids, n);
  }

  /** As long as any node is left, some node may run. */
  lemma {:induction false} SomebodyRuns(ds: seq<Dag>, ops: seq<Op>, k: nat, n: nat) returns (m: nat)
    requires Run(ds, ops) && k < |ds| && n < |ds[k].nodes| && ds[k].nodes[n].live
    ensures m < |ds[k].nodes| && ds[k].nodes[m].live && ds[k].nodes[m].color != Black
  {
    hide Run;
    RunsKeep(ds, ops, k);
    m := Oldest(ds[k], n);
    OldestHeads(ds[k], m);
  }

  lemma {:induction false} Oldest(d: Dag, n: nat) returns (m: nat)
    requires n < |d.nodes| && d.nodes[n].live
    ensures m <= n && d.nodes[m].live && forall l | 0 <= l < m :: !d.nodes[l].live
  {
    if l: nat :| l < n && d.nodes[l].live {
      m := Oldest(d, l);
    } else {
      m := n;
    }
  }

  lemma {:induction false} OldestHeads(d: Dag, m: nat)
    requires Inv(d) && m < |d.nodes| && d.nodes[m].live && forall l | 0 <= l < m :: !d.nodes[l].live
    ensures HeadsAll(d.queues, d.nodes[m].qids, m)
  {
    hide ColorInv, WhiteInv, EnteredInv, PoppedInv;
    var qids := d.nodes[m].qids;
    forall i | 0 <= i < |qids| ensures Heads(d.queues, qids[i], m) {
      var q := qids[i];
      assert Waits(d, m, q, -1, []);
      var s := d.queues[q];
      assert m in s;
      assert Waits(d, s[0], q, -1, []) by {
        assert s[0] in s;
      }
    }
  }

  /** Each node enters the white queue exactly once. */
  lemma {:induction false} EntersOnce(ds: seq<Dag>, ops: seq<Op>, k: nat, n: nat)
    requires Run(ds, ops) && k < |ds| && n < |ds[k].nodes|
    ensures multiset(ds[k].entered)[n] == if ds[k].nodes[n].color != Black then 1 else 0
    ensures !ds[k].nodes[n].live ==> ds[k].nodes[n].color != Black
  {
    hide Run, HeadsAll;
    RunsKeep(ds, ops, k);
    DistinctCount(ds[k].entered, n);
  }

  lemma {:induction false} DistinctCount(s: seq<nat>, n: nat)
    requires Distinct(s)
    ensures multiset(s)[n] == if n in s then 1 else 0
  {
    if s != [] {
      var k := |s| - 1;
      DistinctCount(s[..k], n);
      assert s == s[..k] + [s[k]];
      assert s[k] !in s[..k];
    }
  }

  /** Nodes that share a queue are popped in the order in which they were pushed. */
  lemma {:induction false} PoppedInPushOrder(ds: seq<Dag>, ops: seq<Op>, k: nat, i: nat, j: nat, q: nat)
    requires Run(ds, ops) && k < |ds| && i < j < |ds[k].popped|
    ensures ds[k].popped[i] < |ds[k].nodes| && ds[k].popped[j] < |ds[k].nodes|
    ensures q in ds[k].nodes[ds[k].popped[i]].qids && q in ds[k].nodes[ds[k].popped[j]].qids ==>
              ds[k].popped[i] < ds[k].popped[j]
  {
    hide Run, HeadsAll;
    RunsKeep(ds, ops, k);
  }

  // ---------- nodes that name a queue more than once ----------

  /** In each of its queues node `n` stands first, as often as it names the queue, and nowhere else. */
  ghost predicate InFront(d: Dag, n: nat) {
    && n < |d.nodes|
    && forall q | q in d.nodes[n].qids :: q in d.queues && Block(d.queues[q], n, multiset(d.nodes[n].qids)[q])
  }

  ghost predicate Block(s: seq<nat>, n: nat, c: nat) {
    c <= |s| && (forall i | 0 <= i < c :: s[i] == n) && n !in s[c..]
  }

  predicate FirstAgain(qids: seq<nat>) {
    qids != [] && qids[0] in qids[1..]
  }

  lemma {:induction false} FirstCount(qids: seq<nat>)
    requires qids != []
    ensures FirstAgain(qids) <==> multiset(qids)[qids[0]] > 1
  {
    assert qids == [qids[0]] + qids[1..];
  }

  /** While `n` leaves its queues it is at the front of all of them again at once, or never. */
  lemma {:induction false} LeavesQueues(d: Dag, n: nat, k: nat)
    requires InFront(d, n) && d.nodes[n].color == Gray && 1 <= k <= |d.nodes[n].qids|
    ensures var e, qids := PopQueues(d, d.nodes[n].qids, k), d.nodes[n].qids;
            && |e.nodes| == |d.nodes| && e.nodes[n].qids == qids
            && multiset(e.entered)[n] == multiset(d.entered)[n] + (if FirstAgain(qids) then 1 else 0)
            && (if FirstAgain(qids) then e.nodes[n].color == White else n !in QueueOf(e.queues, qids[0]))
  {
    var qids := d.nodes[n].qids;
    FirstCount(qids);
    if k == 1 {
      assert PopQueues(d, qids, 0) == d;
      LeavesFirst(d, n);
    } else {
      hide InFront;
      LeavesQueues(d, n, k - 1);
      var e := PopQueues(d, qids, k - 1);
      if qids[k-1] in e.queues && e.queues[qids[k-1]] != [] {
        LeavesOne(e, n, qids[0], qids[k-1], FirstAgain(qids));
        assert !FirstAgain(qids) ==> qids[k-1] != qids[0] by { assert qids[k-1] == qids[1..][k-2]; }
      }
    }
  }

  lemma {:induction false} LeavesFirst(d: Dag, n: nat)
    requires InFront(d, n) && d.nodes[n].color == Gray && d.nodes[n].qids != []
    ensures var qids := d.nodes[n].qids;
            && qids[0] in d.queues && d.queues[qids[0]] != []
            && var e := PopOne(d, qids[0]);
            && |e.nodes| == |d.nodes| && e.nodes[n].qids == qids
            && multiset(e.entered)[n] == multiset(d.entered)[n] + (if FirstAgain(qids) then 1 else 0)
            && (if FirstAgain(qids) then e.nodes[n].color == White else n !in QueueOf(e.queues, qids[0]))
  {
    var qids := d.nodes[n].qids;
    var q := qids[0];
    FirstCount(qids);
    var queues := d.queues[q := d.queues[q][1..]];
    if FirstAgain(qids) {
      forall i | 0 <= i < |qids| ensures Heads(queues, qids[i], n) {
        assert qids[i] in qids && Block(d.queues[qids[i]], n, multiset(qids)[qids[i]]);
      }
    } else {
      assert n !in queues[q];
      assert !Heads(queues, qids[0], n);
    }
  }

  /** One more queue: `again` says that `n` is white by now; otherwise it has left queue `first` for good. */
  lemma {:induction false} LeavesOne(e: Dag, n: nat, first: nat, q: nat, again: bool)
    requires n < |e.nodes| && e.nodes[n].qids != [] && e.nodes[n].qids[0] == first && q in e.queues && e.queues[q] != []
    requires if again then e.nodes[n].color == White else n !in QueueOf(e.queues, first) && q != first
    ensures var f := PopOne(e, q);
            && |f.nodes| == |e.nodes| && f.nodes[n].qids == e.nodes[n].qids
            && multiset(f.entered)[n] == multiset(e.entered)[n]
            && (if again then f.nodes[n].color == White else n !in QueueOf(f.queues, first))
  {
    var queues := e.queues[q := e.queues[q][1..]];
    assert !again ==> !Heads(queues, e.nodes[n].qids[0], n);
  }

  /** A node that is popped goes back to the white queue exactly when it names its first queue again. */
  lemma {:induction false} EntersAgainIff(d: Dag, n: nat)
    requires InFront(d, n) && d.nodes[n].color == Gray
    ensures multiset(Pop(d, n).entered)[n] == multiset(d.entered)[n] + (if FirstAgain(d.nodes[n].qids) then 1 else 0)
  {
    if d.nodes[n].qids != [] {
      LeavesQueues(d, n, |d.nodes[n].qids|);
    }
  }

  function Copies(n: nat, c: nat): seq<nat> {
    if c == 0 then [] else Copies(n, c - 1) + [n]
  }

  lemma {:induction false} CopiesAt(n: nat, c: nat)
    ensures |Copies(n, c)| == c && forall i | 0 <= i < c :: Copies(n, c)[i] == n
  {
    if c > 0 {
      CopiesAt(n, c - 1);
    }
  }

  lemma {:induction false} EnqueueCopies(qids: seq<nat>, n: nat, q: nat)
    ensures QueueOf(Enqueue(map[], qids, n), q) == Copies(n, multiset(qids)[q])
    ensures q in Enqueue(map[], qids, n) <==> q in qids
  {
    if qids == [] {
      assert multiset(qids)[q] == 0;
    } else {
      var k := |qids| - 1;
      EnqueueCopies(qids[..k], n, q);
      assert qids == qids[..k] + [qids[k]];
      var c := multiset(qids[..k])[q];
      assert multiset(qids)[q] == if q == qids[k] then c + 1 else c;
      var rest := Enqueue(map[], qids[..k], n);
      assert Enqueue(map[], qids, n) == rest[qids[k] := QueueOf(rest, qids[k]) + [n]];
    }
  }

  /** From the empty scheduler on: pushed, taken and popped, a node has entered the white queue once or twice. */
  lemma {:induction false} AloneEntersTwiceIff(qids: seq<nat>)
    ensures var d := Push(Empty, qids);
            && d.white == [0] && |d.nodes| == 1
            && multiset(Pop(GetWhite(d), 0).entered)[0] == if FirstAgain(qids) then 2 else 1
  {
    var none: map<nat, seq<nat>> := map[];
    var queues := Enqueue(none, qids, 0);
    forall q | q in qids ensures Heads(queues, q, 0) && Block(queues[q], 0, multiset(qids)[q]) {
      EnqueueCopies(qids, 0, q);
      CopiesAt(0, multiset(qids)[q]);
      assert queues[q] == Copies(0, multiset(qids)[q]);
    }
    assert HeadsAll(queues, qids, 0);
    var d := GetWhite(Push(Empty, qids));
    assert d == Dag([Node(qids, Gray, true)], queues, [], [0], []);
    EntersAgainIff(d, 0);
  }

  lemma {:induction false} RepeatedQueueEntersTwice()
    ensures var d := Push(Empty, [7, 7]);
            d.white == [0] && |d.nodes| == 1 && multiset(Pop(GetWhite(d), 0).entered)[0] == 2
  {
    var qids: seq<nat> := [7, 7];
    assert qids[1..] == [7];
    AloneEntersTwiceIff(qids);
  }
}

/** What pushing and popping a node do, on the states before and after alone. */
module DagPromises {
  import opened DagModel

  /** Queues hold nodes that were pushed. */
  ghost predicate Sane(d: Dag) {
    forall q, x | q in d.queues && x in d.queues[q] :: x < |d.nodes|
  }

  lemma {:induction false} InvIsSane(d: Dag)
    requires Inv(d)
    ensures Sane(d)
  {
    hide ColorInv, WhiteInv, EnteredInv, PoppedInv, QidsDistinct, Increasing;
    forall q, x | q in d.queues && x in d.queues[q] ensures x < |d.nodes| {
      assert Waits(d, x, q, -1, []);
    }
  }

  /** The new node stands at the end of each queue, as often as it names it, and is white iff all were empty. */
  ghost predicate LinesUp(d: Dag, d': Dag, qids: seq<nat>) {
    var n := |d.nodes|;
    var free := forall q | q in qids :: QueueOf(d.queues, q) == [];
    && d'.nodes == d.nodes + [Node(qids, if free then White else Black, true)]
    && (forall q: nat :: QueueOf(d'.queues, q) == QueueOf(d.queues, q) + seq(multiset(qids)[q], _ => n))
    && d'.white == d.white + (if free then [n] else []) && d'.entered == d.entered + (if free then [n] else [])
    && d'.popped == d.popped
  }

  lemma {:induction false} EnqueueTimes(queues: map<nat, seq<nat>>, qids: seq<nat>, n: nat, q: nat)
    ensures QueueOf(Enqueue(queues, qids, n), q) == QueueOf(queues, q) + seq(multiset(qids)[q], _ => n)
  {
    if qids != [] {
      var k := |qids| - 1;
      EnqueueTimes(queues, qids[..k], n, q);
      assert qids == qids[..k] + [qids[k]];
      assert multiset(qids) == multiset(qids[..k]) + multiset{qids[k]};
    }
  }

  lemma {:induction false} FreeIff(d: Dag, qids: seq<nat>)
    requires Sane(d)
    ensures HeadsAll(Enqueue(d.queues, qids, |d.nodes|), qids, |d.nodes|) <==>
            forall q | q in qids :: QueueOf(d.queues, q) == []
  {
    hide Enqueue;
    var n := |d.nodes|;
    var queues := Enqueue(d.queues, qids, n);
    forall i | 0 <= i < |qids| ensures Heads(queues, qids[i], n) <==> QueueOf(d.queues, qids[i]) == [] {
      var q := qids[i];
      EnqueueTimes(d.queues, qids, n, q);
      assert q in multiset(qids);
      var s := QueueOf(d.queues, q);
      if s != [] {
        assert s[0] in s && QueueOf(queues, q)[0] == s[0];
      }
    }
    if forall q | q in qids :: QueueOf(d.queues, q) == [] {
      assert HeadsAll(queues, qids, n);
    }
    if HeadsAll(queues, qids, n) {
      forall q | q in qids ensures QueueOf(d.queues, q) == [] {
        var i :| 0 <= i < |qids| && qids[i] == q;
        assert Heads(queues, qids[i], n);
      }
    }
  }

  lemma {:induction false} PushMeaning(d: Dag, qids: seq<nat>)
    requires Sane(d)
    ensures LinesUp(d, Push(d, qids), qids) && Sane(Push(d, qids))
  {
    hide Enqueue, HeadsAll;
    var d', n := Push(d, qids), |d.nodes|;
    FreeIff(d, qids);
    forall q: nat ensures QueueOf(d'.queues, q) == QueueOf(d.queues, q) + seq(multiset(qids)[q], _ => n) {
      EnqueueTimes(d.queues, qids, n, q);
    }
    forall q, x | q in d'.queues && x in d'.queues[q] ensures x < |d'.nodes| {
      assert d'.queues[q] == QueueOf(d'.queues, q);
    }
  }

  /** While node `n` leaves the queues `gone`: only black nodes have changed, and those have become white. */
  ghost predicate Leaving(d: Dag, e: Dag, n: nat, gone: seq<nat>) {
    && |e.nodes| == |d.nodes| && n < |d.nodes| && e.nodes[n] == d.nodes[n] && e.popped == d.popped
    && (forall m | 0 <= m < |d.nodes| && m != n ::
          e.nodes[m] == d.nodes[m] || (d.nodes[m].color == Black && e.nodes[m] == d.nodes[m].(color := White)))
    && (forall q: nat :: q in gone ==> QueueOf(d.queues, q) != [] && QueueOf(d.queues, q)[0] == n)
    && (forall q: nat :: QueueOf(e.queues, q) ==
                         if q in gone then QueueOf(d.queues, q)[1..] else QueueOf(d.queues, q))
    && Joins(d, e)
  }

  /** The same nodes, all black before, have joined the two lists. */
  ghost predicate Joins(d: Dag, e: Dag) {
    && d.white <= e.white && d.entered <= e.entered && e.white[|d.white|..] == e.entered[|d.entered|..]
    && (forall m | m in e.white[|d.white|..] :: m < |d.nodes| && d.nodes[m].color == Black)
  }

  /** What a pop does: the node is gone from the front of each of its queues, and not much else changes. */
  ghost predicate Pops(d: Dag, d': Dag, n: nat) {
    && n < |d.nodes| == |d'.nodes| && d'.nodes[n] == d.nodes[n].(live := false) && d'.popped == d.popped + [n]
    && (forall m | 0 <= m < |d.nodes| && m != n ::
          d'.nodes[m] == d.nodes[m] || (d.nodes[m].color == Black && d'.nodes[m] == d.nodes[m].(color := White)))
    && (forall q: nat | q in d.nodes[n].qids :: QueueOf(d.queues, q) == [n] + QueueOf(d'.queues, q))
    && (forall q: nat | q !in d.nodes[n].qids :: QueueOf(d'.queues, q) == QueueOf(d.queues, q))
    && Joins(d, d')
  }

  lemma {:induction false} LeavesOne(d: Dag, e: Dag, n: nat, gone: seq<nat>, q: nat)
    requires Leaving(d, e, n, gone) && Mid(e, n, gone) && q in e.nodes[n].qids && q !in gone
    ensures q in e.queues && e.queues[q] != [] && Leaving(d, PopOne(e, q), n, gone + [q])
  {
    hide Mid, HeadsAll;
    PopOneKeeps(e, n, gone, q);
    NextIsBlack(e, n, gone, q);
    var e' := PopOne(e, q);
    assert e'.queues == e.queues[q := e.queues[q][1..]];
    forall p: nat ensures QueueOf(e'.queues, p) ==
                          if p in gone + [q] then QueueOf(d.queues, p)[1..] else QueueOf(d.queues, p)
    {
    }
    JoinsOne(d, e, e');
  }

  lemma {:induction false} NextIsBlack(e: Dag, n: nat, gone: seq<nat>, q: nat)
    requires Mid(e, n, gone) && q in e.nodes[n].qids && q !in gone && q in e.queues && e.queues[q] != []
    ensures var s := e.queues[q][1..];
            s != [] ==> s[0] < |e.nodes| && s[0] != n && e.nodes[s[0]].color == Black
  {
    hide WhiteInv, EnteredInv, PoppedInv, HeadsAll, ColorInv, QidsDistinct;
    var s := e.queues[q][1..];
    if s != [] {
      var m := s[0];
      assert m in e.queues[q] && Heads(e.queues, q, n);
      TailOf(e.queues[q]);
      assert m in s && m != n && Waits(e, m, q, n, gone);
      assert Heads(Dropped(e, q), q, m);
      DropHeads(e, n, gone, q, m);
    }
  }

  /** One more node, black until now, joins both lists, or none does. */
  lemma {:induction false} JoinsOne(d: Dag, e: Dag, e': Dag)
    requires Joins(d, e) && |d.nodes| == |e.nodes|
    requires forall m | 0 <= m < |d.nodes| && e.nodes[m].color == Black :: d.nodes[m].color == Black
    requires || (e'.white == e.white && e'.entered == e.entered)
             || (exists m: nat :: m < |e.nodes| && e.nodes[m].color == Black &&
                                  e'.white == e.white + [m] && e'.entered == e.entered + [m])
    ensures Joins(d, e')
  {
    if m: nat :| m < |e.nodes| && e.nodes[m].color == Black &&
                 e'.white == e.white + [m] && e'.entered == e.entered + [m] {
      assert e'.white[|d.white|..] == e.white[|d.white|..] + [m];
      assert e'.entered[|d.entered|..] == e.entered[|d.entered|..] + [m];
    }
  }

  lemma {:induction false} LeavesAll(d: Dag, n: nat, k: nat)
    requires Mid(d, n, []) && k <= |d.nodes[n].qids|
    ensures Leaving(d, PopQueues(d, d.nodes[n].qids, k), n, d.nodes[n].qids[..k])
  {
    hide Mid, PopOne;
    MidNode(d, n);
    var qids := d.nodes[n].qids;
    if k > 0 {
      LeavesAll(d, n, k - 1);
      PopQueuesKeeps(d, n, k - 1);
      OnceNamed(d, n, k - 1);
      LeavesOne(d, PopQueues(d, qids, k - 1), n, qids[..k-1], qids[k-1]);
      assert qids[..k-1] + [qids[k-1]] == qids[..k];
    }
  }

  lemma {:induction false} MidNode(d: Dag, n: nat)
    requires Mid(d, n, [])
    ensures n < |d.nodes|
  {
  }

  lemma {:induction false} OnceNamed(d: Dag, n: nat, k: nat)
    requires Mid(d, n, []) && k < |d.nodes[n].qids|
    ensures d.nodes[n].qids[k] !in d.nodes[n].qids[..k]
  {
    assert Distinct(d.nodes[n].qids);
  }

  lemma {:induction false} PopMeaning(d: Dag, n: nat)
    requires Inv(d) && n < |d.nodes| && d.nodes[n].live && d.nodes[n].color == Gray
    ensures Pops(d, Pop(d, n), n)
  {
    hide Inv, Mid, PopQueues;
    MidStart(d, n);
    var qids := d.nodes[n].qids;
    LeavesAll(d, n, |qids|);
    assert qids[..|qids|] == qids;
    var e := PopQueues(d, qids, |qids|);
    forall q: nat | q in qids ensures QueueOf(d.queues, q) == [n] + QueueOf(e.queues, q) {
      assert QueueOf(e.queues, q) == QueueOf(d.queues, q)[1..];
    }
  }
}

/**
 Nodes that name a queue more than once. Unless the first queue is named again, the scheduler does with them what it
 does with nodes that name each of these queues once.
 */
module DagRepeats {
  import opened DagModel

  // ---------- queue ids without repetition ----------

  /** Of the first `k` queue ids those that are not named again later. */
  function OnceUpTo(qids: seq<nat>, k: nat): seq<nat>
    requires k <= |qids|
  {
    if k == 0 then [] else OnceUpTo(qids, k - 1) + if qids[k-1] in qids[k..] then [] else [qids[k-1]]
  }

  function Once(qids: seq<nat>): seq<nat> {
    OnceUpTo(qids, |qids|)
  }

  lemma {:induction false} OnceIn(qids: seq<nat>, k: nat, q: nat)
    requires k <= |qids|
    ensures q in OnceUpTo(qids, k) <==> q in qids[..k] && q !in qids[k..]
  {
    if k > 0 {
      OnceIn(qids, k - 1, q);
      assert qids[..k] == qids[..k-1] + [qids[k-1]] && qids[k-1..] == [qids[k-1]] + qids[k..];
    }
  }

  lemma {:induction false} OnceDistinct(qids: seq<nat>, k: nat)
    requires k <= |qids|
    ensures Distinct(OnceUpTo(qids, k))
  {
    if k > 0 {
      OnceDistinct(qids, k - 1);
      OnceIn(qids, k - 1, qids[k-1]);
      assert qids[k-1] in qids[k-1..];
      var front := OnceUpTo(qids, k - 1);
      assert forall i | 0 <= i < |front| :: front[i] != qids[k-1];
    }
  }

  lemma {:induction false} OncePrefix(qids: seq<nat>, k: nat, m: nat)
    requires k <= m <= |qids|
    ensures OnceUpTo(qids, k) <= OnceUpTo(qids, m)
  {
    if k < m {
      OncePrefix(qids, k, m - 1);
    }
  }

  lemma {:induction false} OnceSame(qids: seq<nat>, q: nat)
    ensures q in Once(qids) <==> q in qids
  {
    OnceIn(qids, |qids|, q);
    assert qids[..|qids|] == qids;
  }

  // ---------- queues without repetition ----------

  /** A queue with equal neighbours merged. */
  function Plain(a: seq<nat>): (b: seq<nat>)
    ensures |b| <= |a| && (b == [] <==> a == []) && (a != [] ==> b[0] == a[0])
  {
    if |a| <= 1 then a else if a[0] == a[1] then Plain(a[1..]) else [a[0]] + Plain(a[1..])
  }

  lemma {:induction false} PlainIn(a: seq<nat>, n: nat)
    ensures n in Plain(a) <==> n in a
  {
    if |a| > 1 {
      PlainIn(a[1..], n);
      assert a == [a[0]] + a[1..];
    }
  }

  lemma {:induction false} PlainSnoc(a: seq<nat>, n: nat)
    ensures Plain(a + [n]) == if a != [] && a[|a|-1] == n then Plain(a) else Plain(a) + [n]
  {
    if |a| == 1 {
      assert (a + [n])[1..] == [n];
    } else if |a| > 1 {
      PlainSnoc(a[1..], n);
      assert (a + [n])[1..] == a[1..] + [n];
    }
  }

  /** Copies of a new element at the end count as one. */
  lemma {:induction false} PlainCopies(a: seq<nat>, n: nat, c: nat)
    requires n !in a
    ensures Plain(a + Copies(n, c)) == if c == 0 then Plain(a) else Plain(a) + [n]
  {
    if c == 0 {
      assert a + Copies(n, 0) == a;
    } else {
      CopiesAt(n, c - 1);
      PlainCopies(a, n, c - 1);
      var b := a + Copies(n, c - 1);
      assert a + Copies(n, c) == b + [n];
      PlainSnoc(b, n);
      assert c > 1 ==> b[|b|-1] == n;
      assert c == 1 ==> b == a && (a != [] ==> a[|a|-1] in a);
    }
  }

  /** Another copy of the front comes next exactly when there is another one at all. */
  lemma {:induction false} NextCopy(a: seq<nat>)
    requires a != [] && Increasing(Plain(a))
    ensures multiset(a)[a[0]] > 1 <==> |a| > 1 && a[1] == a[0]
    ensures Plain(a[1..]) == if |a| > 1 && a[1] == a[0] then Plain(a) else Plain(a)[1..]
    ensures multiset(a) == multiset{a[0]} + multiset(a[1..])
  {
    assert a == [a[0]] + a[1..];
    assert multiset(a) == multiset{a[0]} + multiset(a[1..]);
    if |a| > 1 && a[1] != a[0] {
      PlainIn(a[1..], a[0]);
      assert Plain(a) == [a[0]] + Plain(a[1..]);
      TailOf(Plain(a));
      assert Plain(a)[1..] == Plain(a[1..]);
    } else if |a| > 1 {
      assert a[0] in a[1..];
    }
  }

  // ---------- the two schedulers side by side ----------

  function Times(qids: seq<nat>, q: nat): nat {
    multiset(qids)[q]
  }

  ghost predicate SameNodes(d: Dag, s: Dag) {
    && |d.nodes| == |s.nodes|
    && (forall n | 0 <= n < |d.nodes| :: s.nodes[n] == d.nodes[n].(qids := Once(d.nodes[n].qids)))
    && d.white == s.white && d.entered == s.entered && d.popped == s.popped
  }

  ghost predicate SameQueues(d: Dag, s: Dag) {
    && d.queues.Keys == s.queues.Keys
    && forall q | q in d.queues :: s.queues[q] == Plain(d.queues[q])
  }

  /** How often node `n` still stands in queue `q` when the node `popping` has left the first `k` of its queues. */
  function Copied(d: Dag, n: nat, q: nat, popping: int, k: nat): nat
    requires n < |d.nodes|
  {
    if n == popping && k <= |d.nodes[n].qids| then Times(d.nodes[n].qids[k..], q) else Times(d.nodes[n].qids, q)
  }

  ghost predicate Counts(d: Dag, popping: int, k: nat) {
    forall q, n | q in d.queues && n in d.queues[q] ::
      n < |d.nodes| && multiset(d.queues[q])[n] == Copied(d, n, q, popping, k)
  }

  /** `s` is the scheduler as it would be had every node named each of its queues once. */
  ghost predicate Like(d: Dag, s: Dag, popping: int, k: nat) {
    SameNodes(d, s) && SameQueues(d, s) && Counts(d, popping, k)
  }

  lemma {:induction false} LikeHeads(d: Dag, s: Dag, q: nat, n: nat)
    requires SameQueues(d, s)
    ensures Heads(d.queues, q, n) <==> Heads(s.queues, q, n)
  {
  }

  lemma {:induction false} LikeHeadsAll(d: Dag, s: Dag, qids: seq<nat>, n: nat)
    requires SameQueues(d, s)
    ensures HeadsAll(d.queues, qids, n) <==> HeadsAll(s.queues, Once(qids), n)
  {
    hide Once;
    if HeadsAll(d.queues, qids, n) {
      forall i | 0 <= i < |Once(qids)| ensures Heads(s.queues, Once(qids)[i], n) {
        OnceSame(qids, Once(qids)[i]);
        LikeHeads(d, s, Once(qids)[i], n);
      }
    }
    if HeadsAll(s.queues, Once(qids), n) {
      forall i | 0 <= i < |qids| ensures Heads(d.queues, qids[i], n) {
        OnceSame(qids, qids[i]);
        LikeHeads(d, s, qids[i], n);
      }
    }
  }

  // ---------- push ----------

  lemma {:induction false} EnqueueMore(queues: map<nat, seq<nat>>, qids: seq<nat>, n: nat, q: nat)
    ensures QueueOf(Enqueue(queues, qids, n), q) == QueueOf(queues, q) + Copies(n, Times(qids, q))
    ensures q in Enqueue(queues, qids, n) <==> q in queues || q in qids
  {
    if qids != [] {
      var k := |qids| - 1;
      EnqueueMore(queues, qids[..k], n, q);
      var c := Times(qids[..k], q);
      assert qids == qids[..k] + [qids[k]];
      assert Times(qids, q) == if q == qids[k] then c + 1 else c;
      var rest := Enqueue(queues, qids[..k], n);
      assert Enqueue(queues, qids, n) == rest[qids[k] := QueueOf(rest, qids[k]) + [n]];
      MoreCopies(QueueOf(queues, q), n, c);
    } else {
      assert Times(qids, q) == 0;
    }
  }

  lemma {:induction false} MoreCopies(a: seq<nat>, n: nat, c: nat)
    ensures a + Copies(n, c) + [n] == a + Copies(n, c + 1) && a + Copies(n, 0) == a
  {
  }

  /** A queue of the plain scheduler holds older nodes only. */
  lemma {:induction false} OlderOnly(d: Dag, s: Dag, q: nat)
    requires Like(d, s, -1, 0)
    ensures |d.nodes| !in QueueOf(d.queues, q)
  {
  }

  lemma {:induction false} PushQueuesLike(d: Dag, s: Dag, qids: seq<nat>)
    requires Like(d, s, -1, 0)
    ensures SameQueues(d.(queues := Enqueue(d.queues, qids, |d.nodes|)),
                       s.(queues := Enqueue(s.queues, Once(qids), |d.nodes|)))
  {
    hide Enqueue, Plain, Once, Counts, SameNodes;
    var n := |d.nodes|;
    var a, b := Enqueue(d.queues, qids, n), Enqueue(s.queues, Once(qids), n);
    OnceDistinct(qids, |qids|);
    forall q ensures q in a <==> q in b {
      PushQueueLike(d, s, qids, q);
    }
    forall q | q in a ensures b[q] == Plain(a[q]) {
      PushQueueLike(d, s, qids, q);
    }
  }

  lemma {:induction false} PushQueueLike(d: Dag, s: Dag, qids: seq<nat>, q: nat)
    requires Like(d, s, -1, 0) && Distinct(OnceUpTo(qids, |qids|))
    ensures var a, b := Enqueue(d.queues, qids, |d.nodes|), Enqueue(s.queues, Once(qids), |d.nodes|);
            (q in a <==> q in b) && QueueOf(b, q) == Plain(QueueOf(a, q))
  {
    hide Enqueue, SameNodes;
    var n := |d.nodes|;
    EnqueueMore(d.queues, qids, n, q);
    EnqueueAt(s.queues, Once(qids), n, q);
    OnceSame(qids, q);
    OlderOnly(d, s, q);
    PlainCopies(QueueOf(d.queues, q), n, Times(qids, q));
    assert QueueOf(s.queues, q) == Plain(QueueOf(d.queues, q));
  }

  lemma {:induction false} CopiesCount(a: seq<nat>, n: nat, c: nat, m: nat)
    ensures multiset(a + Copies(n, c))[m] == multiset(a)[m] + if m == n then c else 0
  {
    if c == 0 {
      assert a + Copies(n, 0) == a;
    } else {
      CopiesCount(a, n, c - 1, m);
      assert a + Copies(n, c) == a + Copies(n, c - 1) + [n];
    }
  }

  lemma {:induction false} PushLike(d: Dag, s: Dag, qids: seq<nat>)
    requires Like(d, s, -1, 0)
    ensures Like(Push(d, qids), Push(s, Once(qids)), -1, 0)
  {
    hide Enqueue, Plain, Once, HeadsAll, Counts, Copied;
    var n := |d.nodes|;
    var d1, s1 := d.(queues := Enqueue(d.queues, qids, n)), s.(queues := Enqueue(s.queues, Once(qids), n));
    PushQueuesLike(d, s, qids);
    LikeHeadsAll(d1, s1, qids, n);
    PushCounts(d, s, qids);
  }

  lemma {:induction false} PushCounts(d: Dag, s: Dag, qids: seq<nat>)
    requires Like(d, s, -1, 0)
    ensures Counts(Push(d, qids), -1, 0)
  {
    hide Enqueue, Plain, Once, HeadsAll, SameNodes, SameQueues;
    var n := |d.nodes|;
    var d' := Push(d, qids);
    assert d'.queues == Enqueue(d.queues, qids, n) && d'.nodes[n].qids == qids;
    forall q, m | q in d'.queues && m in d'.queues[q]
      ensures m < |d'.nodes| && multiset(d'.queues[q])[m] == Copied(d', m, q, -1, 0)
    {
      EnqueueMore(d.queues, qids, n, q);
      CopiesCount(QueueOf(d.queues, q), n, Times(qids, q), m);
      CopiesAt(n, Times(qids, q));
      OlderOnly(d, s, q);
    }
  }

  // ---------- pop ----------

  /** What one more queue does to both: nothing to the plain one as long as another copy follows. */
  lemma {:induction false} PopOneLike(d: Dag, s: Dag, n: nat, k: nat)
    requires Like(d, s, n, k) && n < |d.nodes| && k < |d.nodes[n].qids| && !FirstAgain(d.nodes[n].qids)
    requires Mid(s, n, OnceUpTo(d.nodes[n].qids, k))
    ensures var q := d.nodes[n].qids[k];
            && q in d.queues && d.queues[q] != [] && q in s.queues && s.queues[q] != []
            && Like(PopOne(d, q), if q in d.nodes[n].qids[k+1..] then s else PopOne(s, q), n, k + 1)
  {
    hide Plain, Once, OnceUpTo, HeadsAll, Mid, Counts;
    var qids := d.nodes[n].qids;
    var q := qids[k];
    FrontIs(d, s, n, k);
    var a := d.queues[q];
    NextCopy(a);
    TimesFrom(qids, k);
    assert multiset(a)[n] == Times(qids[k..], q);
    var d1 := d.(queues := d.queues[q := a[1..]]);
    PopCounts(d, d1, n, k);
    if q in qids[k+1..] {
      assert |a| > 1 && a[1] == n;
      NotInFront(d, s, n, k);
      assert !Heads(d1.queues, qids[0], n);
      assert PopOne(d, q) == d1 by {
        NotAllHeads(d1.queues, qids, n);
      }
    } else {
      var s1 := s.(queues := s.queues[q := s.queues[q][1..]]);
      assert SameQueues(d1, s1);
      if a[1..] != [] {
        var m := a[1];
        NextIsOld(d, n, k, m);
        LikeHeadsAll(d1, s1, d.nodes[m].qids, m);
      }
      PopOneSame(d, s, d1, s1, q);
      var d' := PopOne(d, q);
      assert Counts(d', n, k + 1) by {
        SameCounts(d1, d', n, k + 1);
      }
    }
  }

  lemma {:induction false} NotAllHeads(queues: map<nat, seq<nat>>, qids: seq<nat>, n: nat)
    requires qids != [] && !Heads(queues, qids[0], n)
    ensures !HeadsAll(queues, qids, n)
  {
  }

  lemma {:induction false} FrontIs(d: Dag, s: Dag, n: nat, k: nat)
    requires Like(d, s, n, k) && n < |d.nodes| && k < |d.nodes[n].qids| && Mid(s, n, OnceUpTo(d.nodes[n].qids, k))
    ensures var q := d.nodes[n].qids[k];
            && q in d.queues && d.queues[q] != [] && d.queues[q][0] == n && q in s.queues && s.queues[q] != []
            && Increasing(Plain(d.queues[q])) && multiset(d.queues[q])[n] == Times(d.nodes[n].qids[k..], q)
  {
    hide Plain, Once, OnceUpTo, ColorInv, WhiteInv, EnteredInv, PoppedInv;
    var qids := d.nodes[n].qids;
    var q := qids[k];
    OnceSame(qids, q);
    OnceIn(qids, k, q);
    assert q == qids[k..][0];
    PopOneKeeps(s, n, OnceUpTo(qids, k), q);
    assert n in d.queues[q];
  }

  lemma {:induction false} TimesFrom(qids: seq<nat>, k: nat)
    requires k < |qids|
    ensures forall x :: Times(qids[k..], x) == Times(qids[k+1..], x) + if x == qids[k] then 1 else 0
    ensures qids[k] in qids[k+1..] <==> Times(qids[k+1..], qids[k]) > 0
  {
    assert qids[k..] == [qids[k]] + qids[k+1..];
    assert multiset(qids[k..]) == multiset{qids[k]} + multiset(qids[k+1..]);
  }

  lemma {:induction false} PopCounts(d: Dag, d': Dag, n: nat, k: nat)
    requires n < |d.nodes| && k < |d.nodes[n].qids| && Counts(d, n, k)
    requires var q := d.nodes[n].qids[k];
             && q in d.queues && d.queues[q] != [] && d.queues[q][0] == n
             && d' == d.(queues := d.queues[q := d.queues[q][1..]])
    ensures Counts(d', n, k + 1)
  {
    var q := d.nodes[n].qids[k];
    TimesFrom(d.nodes[n].qids, k);
    var a := d.queues[q];
    assert a == [a[0]] + a[1..];
    assert multiset(a) == multiset{a[0]} + multiset(a[1..]);
    forall x, m | x in d'.queues && m in d'.queues[x]
      ensures m < |d'.nodes| && multiset(d'.queues[x])[m] == Copied(d', m, x, n, k + 1)
    {
      assert m in d.queues[x];
    }
  }

  /** Having left its first queue for good, the node cannot be at the front of all its queues. */
  lemma {:induction false} NotInFront(d: Dag, s: Dag, n: nat, k: nat)
    requires Like(d, s, n, k) && n < |d.nodes| && k < |d.nodes[n].qids| && !FirstAgain(d.nodes[n].qids)
    requires Mid(s, n, OnceUpTo(d.nodes[n].qids, k)) && d.nodes[n].qids[k] in d.nodes[n].qids[k+1..]
    ensures var qids := d.nodes[n].qids; qids[0] != qids[k] && !Heads(d.queues, qids[0], n)
  {
    hide Plain, Once, OnceUpTo, QueueInv, ColorInv, WhiteInv, EnteredInv, PoppedInv, Counts, SameNodes;
    var qids := d.nodes[n].qids;
    FirstNotLater(qids, k);
    OnceIn(qids, k, qids[0]);
    LikeHeads(d, s, qids[0], n);
    var queue := QueueOf(s.queues, qids[0]);
    assert queue != [] ==> queue[0] in queue;
  }

  lemma {:induction false} FirstNotLater(qids: seq<nat>, k: nat)
    requires k < |qids| && !FirstAgain(qids) && qids[k] in qids[k+1..]
    ensures k > 0 && qids[0] in qids[..k] && qids[0] !in qids[k..] && qids[0] != qids[k]
  {
    assert forall j {:trigger qids[k+1..][j]} | 0 <= j < |qids[k+1..]| :: qids[k+1..][j] == qids[1..][k + j];
    assert k > 0;
    assert forall j {:trigger qids[k..][j]} | 0 <= j < |qids[k..]| :: qids[k..][j] == qids[1..][k - 1 + j];
    assert qids[..k][0] == qids[0];
  }

  lemma {:induction false} NextIsOld(d: Dag, n: nat, k: nat, m: nat)
    requires Counts(d, n, k) && n < |d.nodes| && k < |d.nodes[n].qids|
    requires var q := d.nodes[n].qids[k]; q in d.queues && |d.queues[q]| > 1 && d.queues[q][1] == m
    ensures m < |d.nodes|
  {
    assert m in d.queues[d.nodes[n].qids[k]];
  }

  /** Both let the same next node run, if any. */
  lemma {:induction false} PopOneSame(d: Dag, s: Dag, d1: Dag, s1: Dag, q: nat)
    requires SameNodes(d, s) && SameQueues(d1, s1)
    requires q in d.queues && d.queues[q] != [] && d1 == d.(queues := d.queues[q := d.queues[q][1..]])
    requires q in s.queues && s.queues[q] != [] && s1 == s.(queues := s.queues[q := s.queues[q][1..]])
    requires d1.queues[q] != [] ==>
               var m := d1.queues[q][0];
               && m < |d.nodes|
               && (HeadsAll(d1.queues, d.nodes[m].qids, m) <==> HeadsAll(s1.queues, Once(d.nodes[m].qids), m))
    ensures var d', s' := PopOne(d, q), PopOne(s, q);
            && SameNodes(d', s') && SameQueues(d', s') && d'.queues == d1.queues && |d'.nodes| == |d.nodes|
            && forall n | 0 <= n < |d.nodes| :: d'.nodes[n].qids == d.nodes[n].qids
  {
    hide Plain, Once, HeadsAll;
    assert d1.queues[q] == [] <==> s1.queues[q] == [];
  }

  lemma {:induction false} SameCounts(d: Dag, d': Dag, n: int, k: nat)
    requires Counts(d, n, k) && d'.queues == d.queues && |d'.nodes| == |d.nodes|
    requires forall m | 0 <= m < |d.nodes| :: d'.nodes[m].qids == d.nodes[m].qids
    ensures Counts(d', n, k)
  {
    forall q, m | q in d'.queues && m in d'.queues[q]
      ensures m < |d'.nodes| && multiset(d'.queues[q])[m] == Copied(d', m, q, n, k)
    {
      assert Copied(d', m, q, n, k) == Copied(d, m, q, n, k);
    }
  }

  lemma {:induction false} PopQueuesLike(d: Dag, s: Dag, n: nat, k: nat)
    requires Like(d, s, -1, 0) && n < |d.nodes| && k <= |d.nodes[n].qids| && !FirstAgain(d.nodes[n].qids)
    requires Mid(s, n, [])
    ensures var qids := d.nodes[n].qids;
            var e, j := PopQueues(d, qids, k), |OnceUpTo(qids, k)|;
            && j <= |Once(qids)| && |e.nodes| == |d.nodes| && e.nodes[n].qids == qids
            && Like(e, PopQueues(s, Once(qids), j), n, k) && Mid(PopQueues(s, Once(qids), j), n, OnceUpTo(qids, k))
  {
    hide Mid, Plain, HeadsAll, PopOne, Like, PopQueues, Once, OnceUpTo, FirstAgain;
    var qids := d.nodes[n].qids;
    WholeOnce(qids);
    OncePrefix(qids, k, |qids|);
    NodeOnce(d, s, n);
    if k == 0 {
      NothingPopped(d, qids);
      NothingPopped(s, Once(qids));
      LikeStart(d, s, n);
    } else {
      OnceStep(qids, k);
      PopQueuesLike(d, s, n, k - 1);
      var e, j := PopQueues(d, qids, k - 1), |OnceUpTo(qids, k - 1)|;
      var f := PopQueues(s, Once(qids), j);
      PopOneLike(e, f, n, k - 1);
      PopOneQids(e, qids[k-1], n);
      OnePopped(d, qids, k);
      if qids[k-1] !in qids[k..] {
        assert Once(qids)[j] == qids[k-1];
        OnePopped(s, Once(qids), j + 1);
        PopQueuesKeeps(s, n, j + 1);
        assert Once(qids)[..j+1] == OnceUpTo(qids, k);
      }
    }
  }

  lemma {:induction false} NothingPopped(d: Dag, qids: seq<nat>)
    ensures PopQueues(d, qids, 0) == d && OnceUpTo(qids, 0) == []
  {
  }

  lemma {:induction false} OnePopped(d: Dag, qids: seq<nat>, k: nat)
    requires 0 < k <= |qids|
    ensures var e := PopQueues(d, qids, k - 1);
            qids[k-1] in e.queues && e.queues[qids[k-1]] != [] ==> PopQueues(d, qids, k) == PopOne(e, qids[k-1])
  {
    hide PopOne;
  }

  lemma {:induction false} OnceStep(qids: seq<nat>, k: nat)
    requires 0 < k <= |qids|
    ensures OnceUpTo(qids, k) == if qids[k-1] in qids[k..] then OnceUpTo(qids, k - 1)
                                 else OnceUpTo(qids, k - 1) + [qids[k-1]]
  {
  }

  lemma {:induction false} NodeOnce(d: Dag, s: Dag, n: nat)
    requires Like(d, s, -1, 0) && n < |d.nodes|
    ensures n < |s.nodes| && s.nodes[n].qids == Once(d.nodes[n].qids)
  {
  }

  lemma {:induction false} LikeStart(d: Dag, s: Dag, n: nat)
    requires Like(d, s, -1, 0) && n < |d.nodes|
    ensures Like(d, s, n, 0)
  {
    hide Plain, Once;
    assert d.nodes[n].qids[0..] == d.nodes[n].qids;
  }

  lemma {:induction false} PopOneQids(e: Dag, q: nat, n: nat)
    requires q in e.queues && e.queues[q] != [] && n < |e.nodes|
    ensures |PopOne(e, q).nodes| == |e.nodes| && PopOne(e, q).nodes[n].qids == e.nodes[n].qids
  {
    hide HeadsAll;
  }

  lemma {:induction false} PopLike(d: Dag, s: Dag, n: nat)
    requires Like(d, s, -1, 0) && Inv(s) && n < |d.nodes| && d.nodes[n].live && d.nodes[n].color == Gray
    requires !FirstAgain(d.nodes[n].qids)
    ensures Like(Pop(d, n), Pop(s, n), -1, 0)
  {
    hide Inv, Mid, Plain, Once, OnceUpTo, PopQueues;
    var qids := d.nodes[n].qids;
    NodeOnce(d, s, n);
    MidStart(s, n);
    PopQueuesLike(d, s, n, |qids|);
    assert OnceUpTo(qids, |qids|) == Once(qids) by {
      WholeOnce(qids);
    }
    var e := PopQueues(d, qids, |qids|);
    assert qids[|qids|..] == [];
    assert Counts(e, -1, 0) by {
      forall q, m | q in e.queues && m in e.queues[q]
        ensures m < |e.nodes| && multiset(e.queues[q])[m] == Copied(e, m, q, -1, 0)
      {
        assert multiset(e.queues[q])[m] > 0;
      }
    }
    SameCounts(e, Pop(d, n), -1, 0);
  }

  lemma {:induction false} WholeOnce(qids: seq<nat>)
    ensures OnceUpTo(qids, |qids|) == Once(qids)
  {
  }

  // ---------- runs ----------

  /** No node may name its first queue again; apart from that queue ids may repeat. */
  ghost predicate Allowed(d: Dag, op: Op) {
    match op
    case OpPush(qids) => !FirstAgain(qids)
    case OpGetWhite => Enabled(d, op)
    case OpPop(_) => Enabled(d, op)
  }

  ghost function Do(d: Dag, op: Op): Dag
    requires Allowed(d, op)
  {
    match op
    case OpPush(qids) => Push(d, qids)
    case OpGetWhite => GetWhite(d)
    case OpPop(n) => Pop(d, n)
  }

  ghost predicate Trace(ds: seq<Dag>, ops: seq<Op>) {
    && |ds| == |ops| + 1 && ds[0] == Empty
    && forall n | 0 <= n < |ops| :: Allowed(ds[n], ops[n]) && ds[n+1] == Do(ds[n], ops[n])
  }

  /** The same operation on the plain scheduler. */
  function PlainOp(op: Op): Op {
    match op
    case OpPush(qids) => OpPush(Once(qids))
    case OpGetWhite => op
    case OpPop(_) => op
  }

  ghost predicate Tame(d: Dag) {
    forall n | 0 <= n < |d.nodes| :: !FirstAgain(d.nodes[n].qids)
  }

  lemma {:induction false} DoLike(d: Dag, s: Dag, op: Op)
    requires Like(d, s, -1, 0) && Inv(s) && Tame(d) && Allowed(d, op)
    ensures Enabled(s, PlainOp(op)) && Like(Do(d, op), Step(s, PlainOp(op)), -1, 0) && Tame(Do(d, op))
  {
    hide Inv, Plain, Once, Push, Pop, FirstAgain;
    match op
    case OpPush(qids) =>
      OnceDistinct(qids, |qids|);
      WholeOnce(qids);
      PushLike(d, s, qids);
      PushTame(d, qids);
    case OpGetWhite =>
      SameCounts(d, GetWhite(d), -1, 0);
    case OpPop(n) =>
      PopLike(d, s, n);
      PopTame(d, n);
  }

  lemma {:induction false} PushTame(d: Dag, qids: seq<nat>)
    requires Tame(d) && !FirstAgain(qids)
    ensures Tame(Push(d, qids))
  {
    hide Enqueue, HeadsAll, FirstAgain;
  }

  lemma {:induction false} PopTame(d: Dag, n: nat)
    requires Tame(d) && n < |d.nodes|
    ensures Tame(Pop(d, n))
  {
    hide FirstAgain, PopOne;
    PopQueuesTame(d, d.nodes[n].qids, |d.nodes[n].qids|);
  }

  lemma {:induction false} PopQueuesTame(d: Dag, qids: seq<nat>, k: nat)
    requires Tame(d) && k <= |qids|
    ensures Tame(PopQueues(d, qids, k))
  {
    hide FirstAgain, PopOne;
    if k > 0 {
      PopQueuesTame(d, qids, k - 1);
      var e := PopQueues(d, qids, k - 1);
      if qids[k-1] in e.queues && e.queues[qids[k-1]] != [] {
        var e' := PopOne(e, qids[k-1]);
        PopOneSize(e, qids[k-1]);
        forall m | 0 <= m < |e'.nodes| ensures !FirstAgain(e'.nodes[m].qids) {
          PopOneQids(e, qids[k-1], m);
        }
      }
    }
  }

  lemma {:induction false} PopOneSize(e: Dag, q: nat)
    requires q in e.queues && e.queues[q] != []
    ensures |PopOne(e, q).nodes| == |e.nodes|
  {
    hide HeadsAll;
  }

  /** Every such run is matched, step by step, by a run in which no node names a queue twice. */
  lemma {:induction false} Matched(ds: seq<Dag>, ops: seq<Op>, k: nat) returns (ss: seq<Dag>, os: seq<Op>)
    requires Trace(ds, ops) && k < |ds|
    ensures Run(ss, os) && |ss| == k + 1 && Like(ds[k], ss[k], -1, 0) && Tame(ds[k])
  {
    hide Inv, Like, Tame, Enabled, Step, Do, Allowed;
    if k == 0 {
      ss, os := [Empty], [];
      EmptyLike();
    } else {
      var ss', os' := Matched(ds, ops, k - 1);
      RunsKeep(ss', os', k - 1);
      assert ds[k-1+1] == Do(ds[k-1], ops[k-1]);
      DoLike(ds[k-1], ss'[k-1], ops[k-1]);
      ss, os := ss' + [Step(ss'[k-1], PlainOp(ops[k-1]))], os' + [PlainOp(ops[k-1])];
      forall n | 0 <= n < |os| ensures Enabled(ss[n], os[n]) && ss[n+1] == Step(ss[n], os[n]) {
        if n < |os'| {
          assert ss[n] == ss'[n] && ss[n+1] == ss'[n+1] && os[n] == os'[n];
        }
      }
    }
  }

  lemma {:induction false} EmptyLike()
    ensures Like(Empty, Empty, -1, 0) && Tame(Empty)
  {
  }

  /** A node may run exactly when it is at the front of all its queues. */
  lemma {:induction false} RunnableIffFront(ds: seq<Dag>, ops: seq<Op>, k: nat, n: nat)
    requires Trace(ds, ops) && k < |ds| && n < |ds[k].nodes| && ds[k].nodes[n].live
    ensures ds[k].nodes[n].color != Black <==> HeadsAll(ds[k].queues, ds[k].nodes[n].qids, n)
  {
    hide Trace, Run, HeadsAll, Once;
    var ss, os := Matched(ds, ops, k);
    DagModel.RunnableIffFront(ss, os, k, n);
    LikeHeadsAll(ds[k], ss[k], ds[k].nodes[n].qids, n);
  }

  /** Two nodes that share a queue are never runnable together. */
  lemma {:induction false} NeverTogether(ds: seq<Dag>, ops: seq<Op>, k: nat, m: nat, n: nat, q: nat)
    requires Trace(ds, ops) && k < |ds|
    requires m < |ds[k].nodes| && ds[k].nodes[m].live && ds[k].nodes[m].color != Black && q in ds[k].nodes[m].qids
    requires n < |ds[k].nodes| && ds[k].nodes[n].live && ds[k].nodes[n].color != Black && q in ds[k].nodes[n].qids
    ensures m == n
  {
    hide Trace, Run, Once;
    var ss, os := Matched(ds, ops, k);
    OnceSame(ds[k].nodes[m].qids, q);
    OnceSame(ds[k].nodes[n].qids, q);
    DagModel.NeverTogether(ss, os, k, m, n, q);
  }

  /** As long as any node is left, some node may run. */
  lemma {:induction false} SomebodyRuns(ds: seq<Dag>, ops: seq<Op>, k: nat, n: nat) returns (m: nat)
    requires Trace(ds, ops) && k < |ds| && n < |ds[k].nodes| && ds[k].nodes[n].live
    ensures m < |ds[k].nodes| && ds[k].nodes[m].live && ds[k].nodes[m].color != Black
  {
    hide Trace, Run, Once;
    var ss, os := Matched(ds, ops, k);
    m := DagModel.SomebodyRuns(ss, os, k, n);
  }

  /** Each node enters the white queue exactly once. */
  lemma {:induction false} EntersOnce(ds: seq<Dag>, ops: seq<Op>, k: nat, n: nat)
    requires Trace(ds, ops) && k < |ds| && n < |ds[k].nodes|
    ensures multiset(ds[k].entered)[n] == if ds[k].nodes[n].color != Black then 1 else 0
    ensures !ds[k].nodes[n].live ==> ds[k].nodes[n].color != Black
  {
    hide Trace, Run, Once;
    var ss, os := Matched(ds, ops, k);
    DagModel.EntersOnce(ss, os, k, n);
  }

  /** Nodes that share a queue are popped in the order in which they were pushed. */
  lemma {:induction false} PoppedInPushOrder(ds: seq<Dag>, ops: seq<Op>, k: nat, i: nat, j: nat, q: nat)
    requires Trace(ds, ops) && k < |ds| && i < j < |ds[k].popped|
    ensures ds[k].popped[i] < |ds[k].nodes| && ds[k].popped[j] < |ds[k].nodes|
    ensures q in ds[k].nodes[ds[k].popped[i]].qids && q in ds[k].nodes[ds[k].popped[j]].qids ==>
              ds[k].popped[i] < ds[k].popped[j]
  {
    hide Trace, Run, Once;
    var ss, os := Matched(ds, ops, k);
    DagModel.PoppedInPushOrder(ss, os, k, i, j, q);
    OnceSame(ds[k].nodes[ds[k].popped[i]].qids, q);
    OnceSame(ds[k].nodes[ds[k].popped[j]].qids, q);
  }
}

/** The scheduler as implemented, on queues with a cached head. */
module DagScheduler {
  import opened Basics
  import opened CachedQueue
  import opened DagModel
  import opened DagPromises

  function ViewQ(queues: map<nat, Queue>): map<nat, seq<nat>> {
    map q | q in queues :: Contents(queues[q])
  }

  predicate Filled(queues: map<nat, seq<nat>>, q: nat) {
    q in queues && queues[q] != []
  }

  class Scheduler {
    var nodes: seq<Node>
    var queues: map<nat, Queue>
    var white: seq<nat>
    ghost var entered: seq<nat>
    ghost var popped: seq<nat>

    ghost function View(): Dag
      reads this
    {
      Dag(nodes, ViewQ(queues), white, entered, popped)
    }

    constructor ()
      ensures View() == DagModel.Empty
    {
      nodes, queues, white, entered, popped := [], map[], [], [], [];
    }

    /** Looks at the front of queue `q`; this may fill its cache. */
    method PeekAt(q: nat) returns (head: Option<nat>)
      requires q in queues
      modifies `queues
      ensures ViewQ(queues) == old(ViewQ(queues)) && q in queues && queues.Keys == old(queues.Keys)
      ensures head == if ViewQ(queues)[q] == [] then None else Some(ViewQ(queues)[q][0])
    {
      var (qu, h) := Peek(queues[q]);
      queues := queues[q := qu];
      head := h;
    }

    /** Appends `n` to queue `q`, made on demand, and tells whether `n` is at its front. */
    method EnqueueOne(q: nat, n: nat) returns (first: bool)
      modifies `queues
      ensures ViewQ(queues) == old(ViewQ(queues))[q := QueueOf(old(ViewQ(queues)), q) + [n]]
      ensures first <==> Heads(ViewQ(queues), q, n)
    {
      ghost var before := ViewQ(queues);
      if q !in queues {
        queues := queues[q := CachedQueue.Fresh];
      }
      queues := queues[q := CachedQueue.Push(queues[q], n)];
      assert ViewQ(queues) == before[q := QueueOf(before, q) + [n]];
      var head := PeekAt(q);
      first := head == Some(n);
    }

    /** `mpr_dag_push`. */
    method PushNode(qids: seq<nat>)
      modifies this
      ensures View() == DagModel.Push(old(View()), qids)
      ensures old(Sane(View())) ==> Sane(View()) && LinesUp(old(View()), View(), qids)
    {
      hide Enqueue, HeadsAll, ViewQ, Sane, LinesUp;
      if Sane(View()) {
        PushMeaning(View(), qids);
      }
      var n := |nodes|;
      var gotoWhite := true;
      ghost var was := ViewQ(queues);
      var i := 0;
      NothingEnqueued(was, qids, n);
      while i < |qids|
        invariant 0 <= i <= |qids| && n == |nodes|
        invariant nodes == old(nodes) && white == old(white) && entered == old(entered) && popped == old(popped)
        invariant ViewQ(queues) == Enqueue(was, qids[..i], n)
        invariant gotoWhite <==> HeadsAll(ViewQ(queues), qids[..i], n)
        invariant forall j | 0 <= j < i :: Filled(ViewQ(queues), qids[j])
      {
        EnqueueStep(was, qids, i, n);
        HeadsAfterOne(ViewQ(queues), qids, i, n);
        var first := EnqueueOne(qids[i], n);
        if !first {
          gotoWhite := false;
        }
        i := i + 1;
      }
      assert qids[..i] == qids;
      if gotoWhite {
        nodes := nodes + [Node(qids, White, true)];
        white := white + [n];
        entered := entered + [n];
      } else {
        nodes := nodes + [Node(qids, Black, true)];
      }
    }

    /** `mpr_dag_getwhite` when a node is there. */
    method TakeWhite() returns (n: nat)
      requires white != [] && white[0] < |nodes|
      modifies `white, `nodes
      ensures n == old(white[0]) && View() == GetWhite(old(View()))
    {
      n := white[0];
      white := white[1..];
      nodes := nodes[n := nodes[n].(color := Gray)];
    }

    /** Whether node `m` is at the front of all its queues. */
    method AtFront(m: nat) returns (yes: bool)
      requires m < |nodes| && forall j | 0 <= j < |nodes[m].qids| :: nodes[m].qids[j] in queues
      modifies `queues
      ensures ViewQ(queues) == old(ViewQ(queues))
      ensures yes <==> HeadsAll(ViewQ(queues), nodes[m].qids, m)
    {
      yes := true;
      var j := 0;
      while j < |nodes[m].qids|
        invariant 0 <= j <= |nodes[m].qids| && ViewQ(queues) == old(ViewQ(queues)) && queues.Keys == old(queues.Keys)
        invariant yes <==> forall l | 0 <= l < j :: Heads(ViewQ(queues), nodes[m].qids[l], m)
      {
        var head := PeekAt(nodes[m].qids[j]);
        if head != Some(m) {
          yes := false;
        }
        j := j + 1;
      }
    }

    /** One queue of `mpr_dag_pop`. */
    method PopQueue(q: nat, ghost n: nat, ghost gone: seq<nat>) returns (taken: nat)
      requires Mid(View(), n, gone) && q in nodes[n].qids && q !in gone
      modifies this
      ensures taken == n && View() == PopOne(old(View()), q) && Mid(View(), n, gone + [q])
      ensures |nodes| == |old(nodes)| && nodes[n] == old(nodes[n])
    {
      hide Mid, HeadsAll;
      ghost var d := View();
      PopOneKeeps(d, n, gone, q);
      var (qu, t) := TryPop(queues[q]);
      assert t == Some(n);
      taken := t.value;
      queues := queues[q := qu];
      assert ViewQ(queues) == Dropped(d, q);
      NextIsNode(d, n, gone, q);
      var next := PeekAt(q);
      if next.Some? && nodes[next.value].color != White {
        var front := AtFront(next.value);
        if front {
          nodes := nodes[next.value := nodes[next.value].(color := White)];
          white := white + [next.value];
          entered := entered + [next.value];
        }
      }
    }

    /** `mpr_dag_pop` for the node taken from the white queue. */
    method PopNode(n: nat)
      requires Inv(View()) && n < |nodes| && nodes[n].live && nodes[n].color == Gray && nodes[n].qids != []
      modifies this
      ensures View() == Pop(old(View()), n) && Inv(View()) && Pops(old(View()), View(), n)
    {
      hide Inv, Mid, PopOne, Pops;
      ghost var d := View();
      PopMeaning(d, n);
      PopKeeps(d, n);
      MidStart(d, n);
      var qids := nodes[n].qids;
      var i := 0;
      assert qids[..0] == [];
      while i < |qids|
        invariant 0 <= i <= |qids| && View() == PopQueues(d, qids, i) && Mid(View(), n, qids[..i])
        invariant n < |nodes| && |nodes| == |d.nodes| && nodes[n] == d.nodes[n] && nodes[n].qids == qids
      {
        QidsOnce(View(), n, i);
        MidFront(View(), n, qids[..i], qids[i]);
        var taken := PopQueue(qids[i], n, qids[..i]);
        assert taken == n;
        assert qids[..i] + [qids[i]] == qids[..i+1];
        i := i + 1;
      }
      nodes := nodes[n := nodes[n].(live := false)];
      popped := popped + [n];
    }
  }

  lemma {:induction false} MidFront(d: Dag, n: nat, gone: seq<nat>, q: nat)
    requires Mid(d, n, gone) && q in d.nodes[n].qids && q !in gone
    ensures q in d.queues && d.queues[q] != []
  {
    PopOneKeeps(d, n, gone, q);
  }

  lemma {:induction false} QidsOnce(d: Dag, n: nat, i: nat)
    requires n < |d.nodes| && i < |d.nodes[n].qids| && Mid(d, n, d.nodes[n].qids[..i])
    ensures d.nodes[n].qids[i] in d.nodes[n].qids && d.nodes[n].qids[i] !in d.nodes[n].qids[..i]
  {
    assert Distinct(d.nodes[n].qids);
  }

  lemma {:induction false} NextIsNode(d: Dag, n: nat, gone: seq<nat>, q: nat)
    requires Mid(d, n, gone) && q in d.nodes[n].qids && q !in gone && q in d.queues && d.queues[q] != []
    ensures var s := d.queues[q][1..];
            s != [] ==>
              s[0] < |d.nodes| && forall j | 0 <= j < |d.nodes[s[0]].qids| :: d.nodes[s[0]].qids[j] in d.queues
  {
    hide ColorInv, WhiteInv, EnteredInv, PoppedInv, HeadsAll;
    var s := d.queues[q][1..];
    if s != [] {
      var m := s[0];
      assert m in d.queues[q] && Waits(d, m, q, n, gone);
      TailOf(d.queues[q]);
      assert Heads(d.queues, q, n) && m in s && m != n;
      forall j | 0 <= j < |d.nodes[m].qids| ensures d.nodes[m].qids[j] in d.queues {
        assert Waits(d, m, d.nodes[m].qids[j], n, gone);
      }
    }
  }

  lemma {:induction false} NothingEnqueued(was: map<nat, seq<nat>>, qids: seq<nat>, n: nat)
    ensures Enqueue(was, qids[..0], n) == was && HeadsAll(was, qids[..0], n)
  {
  }

  lemma {:induction false} EnqueueStep(was: map<nat, seq<nat>>, qids: seq<nat>, i: nat, n: nat)
    requires i < |qids|
    ensures var before := Enqueue(was, qids[..i], n);
            Enqueue(was, qids[..i+1], n) == before[qids[i] := QueueOf(before, qids[i]) + [n]]
  {
    assert qids[..i+1][..i] == qids[..i];
  }

  /** One more entry at the end of a queue does not change who is at the front of those already filled. */
  lemma {:induction false} HeadsAfterOne(before: map<nat, seq<nat>>, qids: seq<nat>, i: nat, n: nat)
    requires i < |qids| && forall j | 0 <= j < i :: Filled(before, qids[j])
    ensures var after := before[qids[i] := QueueOf(before, qids[i]) + [n]];
            && (HeadsAll(after, qids[..i+1], n) <==> HeadsAll(before, qids[..i], n) && Heads(after, qids[i], n))
            && forall j | 0 <= j <= i :: Filled(after, qids[j])
  {
    var after := before[qids[i] := QueueOf(before, qids[i]) + [n]];
    forall j | 0 <= j < i ensures Heads(after, qids[j], n) <==> Heads(before, qids[j], n) {
      assert Filled(before, qids[j]);
    }
    assert forall j | 0 <= j < i :: qids[..i+1][j] == qids[..i][j];
    assert qids[..i+1][i] == qids[i];
  }
}
