/** The growable byte buffer of the message queue. */
module GrowableBuffer {
  import opened Basics
  import Marshal

  const SZ_BUF := 0x10_0000

  class Buf {
    var raw: array<byte>
    var idxRead: nat
    var idxWrite: nat

    ghost predicate Valid()
      reads this
    {
      idxRead <= idxWrite <= raw.Length && raw.Length >= 2
    }

    ghost function Content(): seq<byte>
      requires Valid()
      reads this, raw
    {
      raw[idxRead..idxWrite]
    }

    constructor ()
      ensures Valid() && fresh(raw) && Content() == []
    {
      raw := new byte[SZ_BUF];
      idxRead, idxWrite := 0, 0;
    }

    /** `buf_realloc`: moves the content to the front of a new array. */
    method Realloc(sz: nat)
      requires Valid() && sz > idxWrite - idxRead && sz >= 2
      modifies this
      ensures Valid() && fresh(raw) && raw.Length == sz && idxRead == 0 && Content() == old(Content())
    {
      var n := idxWrite - idxRead;
      var nraw := new byte[sz];
      forall i | 0 <= i < n {
        nraw[i] := raw[idxRead + i];
      }
      assert nraw[0..n] == raw[idxRead..idxWrite];
      raw := nraw;
      idxWrite := n;
      idxRead := 0;
    }

    /** `buf_readjust`: ends for every size, and neither of its calls fails the assertion in `buf_realloc`. */
    method Readjust(n: nat)
      requires Valid()
      modifies this
      ensures Valid() && raw.Length - idxWrite >= n && Content() == old(Content())
      ensures raw == old(raw) || fresh(raw)
      ensures raw == old(raw) ==> idxWrite == old(idxWrite) && idxRead == old(idxRead)
      ensures raw.Length >= old(raw.Length)
    {
      ghost var size := idxWrite - idxRead;
      while raw.Length - idxWrite < n
        invariant Valid() && Content() == old(Content()) && idxWrite - idxRead == size
        invariant raw == old(raw) || fresh(raw)
        invariant raw == old(raw) ==> idxWrite == old(idxWrite) && idxRead == old(idxRead)
        invariant raw.Length >= old(raw.Length)
        decreases if size + n > raw.Length then size + n - raw.Length else 0, idxRead
      {
        if idxRead < raw.Length / 2 {
          Realloc(raw.Length * 2);
        } else {
          Realloc(raw.Length);
        }
      }
    }

    method Write(data: seq<byte>) returns (n: nat)
      requires Valid()
      modifies this, raw
      ensures Valid() && n == |data| && Content() == old(Content()) + data
      ensures raw == old(raw) || fresh(raw)
    {
      Readjust(|data|);
      ghost var before := Content();
      ghost var was := raw[..];
      n := |data|;
      Marshal.CopyIn(raw, idxWrite, data);
      Marshal.WindowGrows(raw[..], was, idxRead, idxWrite, data);
      idxWrite := idxWrite + n;
    }

    method Read(n: nat) returns (data: seq<byte>)
      requires Valid()
      modifies this
      ensures Valid() && raw == old(raw) && data + Content() == old(Content())
      ensures |data| == if n <= |old(Content())| then n else |old(Content())|
    {
      var size := idxWrite - idxRead;
      if size >= n {
        data := raw[idxRead..idxRead + n];
        idxRead := idxRead + n;
      } else {
        data := raw[idxRead..idxRead + size];
        idxRead := idxRead + size;
      }
    }

    method Peek(n: nat) returns (data: seq<byte>)
      requires Valid()
      ensures data <= Content() && |data| == if n <= |Content()| then n else |Content()|
    {
      var size := idxWrite - idxRead;
      data := raw[idxRead..idxRead + if size >= n then n else size];
    }
  }
}

/** The first entry of an ordered map. */
module LeastKey {
  ghost predicate IsMin(m: map<int, string>, k: int) {
    k in m && forall j | j in m :: k <= j
  }

  lemma {:induction false} NonEmpty(m: map<int, string>)
    ensures m == map[] || exists k :: k in m
  {
    if forall k :: k !in m {
      assert m == map[];
    }
  }

  lemma {:induction false} MinIn(m: map<int, string>)
    requires m != map[]
    ensures exists k :: IsMin(m, k)
    decreases |m|
  {
    NonEmpty(m);
    var x :| x in m;
    var rest := m - {x};
    assert rest.Keys == m.Keys - {x};
    var k := x;
    if rest != map[] {
      MinIn(rest);
      var y :| IsMin(rest, y);
      k := if x < y then x else y;
    } else {
      assert m.Keys == {x};
    }
    assert forall j | j in m :: j == x || j in rest;
    assert IsMin(m, k);
  }
}

/** The remote log puts messages of a source back into the order of their ids. */
module RemoteLog {
  import opened LeastKey

  /** Of one source: what waits, the last id in order, and what was written out. */
  datatype Log = State(buffer: map<int, string>, done: int, out: seq<(int, string)>)

  const Empty := State(map[], 0, [])

  ghost function Min(m: map<int, string>): (k: int)
    requires m != map[]
    ensures IsMin(m, k)
  {
    MinIn(m);
    var k :| IsMin(m, k);
    k
  }

  function Max(a: int, b: int): int {
    if a < b then b else a
  }

  /** Writes out the message with the least id. */
  ghost function Emit(l: Log): Log
    requires l.buffer != map[]
  {
    var k := Min(l.buffer);
    State(l.buffer - {k}, Max(l.done, k), l.out + [(k, l.buffer[k])])
  }

  ghost predicate Ready(l: Log) {
    l.buffer != map[] && Min(l.buffer) <= l.done + 1
  }

  /** The drain loop. */
  ghost function Drain(l: Log): Log
    decreases |l.buffer|
  {
    if Ready(l) then
      var e := Emit(l);
      assert e.buffer.Keys == l.buffer.Keys - {Min(l.buffer)};
      Drain(e)
    else l
  }

  /** `log`: a message whose id already waits is ignored. */
  ghost function Arrive(l: Log, id: int, msg: string): Log {
    Drain(if id in l.buffer then l else l.(buffer := l.buffer[id := msg]))
  }

  ghost predicate Waiting(l: Log) {
    forall k | k in l.buffer :: k > l.done + 1
  }

  // ---------- messages in order ----------

  /** Everything that arrived, by id. */
  ghost predicate InOrder(l: Log, arrived: map<int, string>) {
    && 0 <= l.done == |l.out|
    && (forall k | 1 <= k <= l.done :: k in arrived && l.out[k - 1] == (k, arrived[k]))
    && (forall k | k in l.buffer :: k > l.done && k in arrived && arrived[k] == l.buffer[k])
    && (forall k | k in arrived :: 1 <= k <= l.done || k in l.buffer)
  }

  lemma {:induction false} EmitInOrder(l: Log, arrived: map<int, string>)
    requires InOrder(l, arrived) && Ready(l)
    ensures InOrder(Emit(l), arrived) && Min(l.buffer) == l.done + 1
  {
    var k := Min(l.buffer);
    assert IsMin(l.buffer, k) && k > l.done;
  }

  lemma {:induction false} DrainInOrder(l: Log, arrived: map<int, string>)
    requires InOrder(l, arrived)
    ensures InOrder(Drain(l), arrived) && Waiting(Drain(l)) && l.out <= Drain(l).out
    decreases |l.buffer|
  {
    if Ready(l) {
      EmitInOrder(l, arrived);
      var e := Emit(l);
      assert e.buffer.Keys == l.buffer.Keys - {Min(l.buffer)};
      DrainInOrder(e, arrived);
    } else if l.buffer != map[] {
      assert IsMin(l.buffer, Min(l.buffer));
    }
  }

  datatype Message = Message(id: int, text: string)

  ghost function After(ms: seq<Message>): Log {
    if ms == [] then Empty else Arrive(After(ms[..|ms|-1]), ms[|ms|-1].id, ms[|ms|-1].text)
  }

  ghost function Arrived(ms: seq<Message>): map<int, string> {
    if ms == [] then map[] else Arrived(ms[..|ms|-1])[ms[|ms|-1].id := ms[|ms|-1].text]
  }

  ghost predicate DistinctIds(ms: seq<Message>) {
    && (forall i | 0 <= i < |ms| :: ms[i].id >= 1)
    && (forall i, j | 0 <= i < j < |ms| :: ms[i].id != ms[j].id)
  }

  lemma {:induction false} ArrivedIds(ms: seq<Message>, k: int)
    ensures k in Arrived(ms) <==> exists i :: 0 <= i < |ms| && ms[i].id == k
  {
    if ms != [] {
      var n := |ms| - 1;
      ArrivedIds(ms[..n], k);
      assert ms == ms[..n] + [ms[n]];
    }
  }

  /**
   For every order of arrival of distinct ids from 1 on, exactly the messages 1 to `done` are written
   out, in order; what waits are the ids above `done + 1`; and `done + 1` has not arrived.
   */
  lemma {:induction false} WritesInOrder(ms: seq<Message>)
    requires DistinctIds(ms)
    ensures InOrder(After(ms), Arrived(ms)) && Waiting(After(ms)) && After(ms).done + 1 !in Arrived(ms)
  {
    if ms != [] {
      var n := |ms| - 1;
      var l, m := After(ms[..n]), ms[n];
      WritesInOrder(ms[..n]);
      ArrivedIds(ms[..n], m.id);
      assert m.id !in Arrived(ms[..n]) by {
        assert forall i | 0 <= i < n :: ms[..n][i].id != m.id;
      }
      assert m.id !in l.buffer && !(1 <= m.id <= l.done);
      var next := l.(buffer := l.buffer[m.id := m.text]);
      assert InOrder(next, Arrived(ms));
      DrainInOrder(next, Arrived(ms));
    }
  }

  /** A message is written out of order exactly when its id was done with before it came. */
  lemma {:induction false} OutOfOrderIff(l: Log, id: int, msg: string, arrived: map<int, string>)
    requires InOrder(l, arrived) && Waiting(l)
    ensures (exists a :: InOrder(Arrive(l, id, msg), a)) <==> id > l.done
  {
    if id in l.buffer {
      DrainInOrder(l, arrived);
      assert InOrder(Arrive(l, id, msg), arrived);
    } else if id > l.done {
      var a := arrived[id := msg];
      assert InOrder(l.(buffer := l.buffer[id := msg]), a);
      DrainInOrder(l.(buffer := l.buffer[id := msg]), a);
      assert InOrder(Arrive(l, id, msg), a);
    } else {
      LateIsWritten(l, id, msg);
      var r := Arrive(l, id, msg);
      forall a ensures !InOrder(r, a) {
        assert r.out[|l.out|] == (id, msg);
      }
    }
  }

  /** One id twice: the second message follows the first, and no set of arrivals explains that as in order. */
  lemma {:induction false} RepeatBreaksOrder()
    ensures var l := After([Message(1, "a"), Message(1, "b")]);
            l.out == [(1, "a"), (1, "b")] && forall a :: !InOrder(l, a)
  {
    hide Drain;
    var ms := [Message(1, "a"), Message(1, "b")];
    var l0 := Empty;
    assert ms[..1] == [Message(1, "a")] && ms[..1][..0] == [];
    assert InOrder(l0, map[]) && Waiting(l0);
    var next := l0.(buffer := l0.buffer[1 := "a"]);
    var l1 := Arrive(l0, 1, "a");
    assert After(ms[..1]) == l1 && l1 == Drain(next);
    var arrived: map<int, string> := map[1 := "a"];
    assert InOrder(next, arrived);
    DrainInOrder(next, arrived);
    assert 1 in arrived && 2 !in arrived;
    assert l1.done < 2 by {
      assert l1.done >= 2 ==> 2 in arrived;
    }
    assert l1.done == 1 && l1.out == [(1, "a")];
    LateIsWritten(l1, 1, "b");
    assert After(ms) == Arrive(l1, 1, "b");
  }

  lemma {:induction false} LateIsWritten(l: Log, id: int, msg: string)
    requires Waiting(l) && id <= l.done
    ensures var r := Arrive(l, id, msg); r == l.(out := l.out + [(id, msg)])
  {
    assert id !in l.buffer;
    var next := l.(buffer := l.buffer[id := msg]);
    assert id in next.buffer;
    var k := Min(next.buffer);
    assert IsMin(next.buffer, k);
    assert k == id;
    var e := Emit(next);
    assert e.buffer == l.buffer && e == l.(out := l.out + [(id, msg)]);
    assert Ready(next) && Drain(next) == Drain(e);
    if l.buffer != map[] {
      assert IsMin(l.buffer, Min(l.buffer));
    }
    assert !Ready(e);
  }

  // ---------- the service ----------

  /** The id at the front of the ordered set. */
  method Least(m: map<int, string>) returns (k: int)
    requires m != map[]
    ensures k == Min(m) && k in m
  {
    MinIn(m);
    ghost var least := Min(m);
    assert IsMin(m, least);
    k :| k in m.Keys && forall j | j in m.Keys :: k <= j;
  }

  class RLogService {
    var buffers: map<string, map<int, string>>
    var done: map<string, int>
    var out: map<string, seq<(int, string)>>

    ghost function View(source: string): Log
      reads this
    {
      State(if source in buffers then buffers[source] else map[],
            if source in done then done[source] else 0,
            if source in out then out[source] else [])
    }

    constructor ()
      ensures forall s :: View(s) == Empty
    {
      buffers, done, out := map[], map[], map[];
    }

    method Log(source: string, id: int, msg: string)
      modifies this
      ensures View(source) == Arrive(old(View(source)), id, msg)
      ensures forall s | s != source :: View(s) == old(View(s))
    {
      hide Drain;
      var buffer := if source in buffers then buffers[source] else map[];
      var last := if source in done then done[source] else 0;
      var written := if source in out then out[source] else [];
      if id !in buffer {
        buffer := buffer[id := msg];
      }
      buffer, last, written := DrainAll(buffer, last, written);
      buffers := buffers[source := buffer];
      done := done[source := last];
      out := out[source := written];
    }
  }

  /** The drain loop of `log`. */
  method DrainAll(buffer: map<int, string>, done: int, out: seq<(int, string)>)
    returns (b: map<int, string>, d: int, o: seq<(int, string)>)
    ensures State(b, d, o) == Drain(State(buffer, done, out))
  {
    hide Min;
    b, d, o := buffer, done, out;
    var more := true;
    while more
      invariant Drain(State(b, d, o)) == Drain(State(buffer, done, out))
      invariant !more ==> !Ready(State(b, d, o))
      decreases more, |b|
    {
      more := false;
      if b != map[] {
        var k := Least(b);
        if k <= d + 1 {
          more := true;
          ghost var was := b;
          o := o + [(k, b[k])];
          d := Max(d, k);
          b := b - {k};
          assert b.Keys == was.Keys - {k};
        }
      }
    }
  }
}
