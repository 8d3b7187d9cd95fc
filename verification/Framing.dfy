/** Length-prefixed frames on a byte stream, and what arrives at the other end of it. */
module FramingModel {
  import opened Basics

  /** A message body whose length fits the 32-bit size field. */
  type Body = b: seq<byte> | |b| < LIMIT witness []

  /** The size field at the front of a stream. */
  function SizeOf(s: seq<byte>): nat
    requires |s| >= 4
  {
    FromLe(s[..4])
  }

  /** The size field reads back, whatever follows it. */
  lemma {:induction false} SizeRoundTrip(n: nat, s: seq<byte>)
    requires n < LIMIT
    ensures SizeOf(Le(n, 4) + s) == n
  {
    hide Le, FromLe, Pow256;
    SizeFits(n);
    LeRoundTrip(n, 4);
    assert (Le(n, 4) + s)[..4] == Le(n, 4);
  }

  function Frame(b: Body): seq<byte> {
    Le(|b|, 4) + b
  }

  function Encode(bs: seq<Body>): seq<byte> {
    if bs == [] then [] else Encode(bs[..|bs|-1]) + Frame(bs[|bs|-1])
  }

  /** A complete frame is at the front. */
  predicate Ready(s: seq<byte>) {
    |s| >= 4 && |s| >= SizeOf(s) + 4
  }

  function Head(s: seq<byte>): seq<byte>
    requires Ready(s)
  {
    s[4..4 + SizeOf(s)]
  }

  function Tail(s: seq<byte>): seq<byte>
    requires Ready(s)
  {
    s[4 + SizeOf(s)..]
  }

  /** What the parse loop takes off a buffer. */
  function Bodies(s: seq<byte>): seq<seq<byte>>
    decreases |s|
  {
    if Ready(s) then [Head(s)] + Bodies(Tail(s)) else []
  }

  /** What the parse loop leaves in the buffer. */
  function Rest(s: seq<byte>): (r: seq<byte>)
    ensures |r| <= |s|
    decreases |s|
  {
    if Ready(s) then Rest(Tail(s)) else s
  }

  lemma {:induction false} RestIncomplete(s: seq<byte>)
    ensures !Ready(Rest(s)) && Bodies(Rest(s)) == []
    decreases |s|
  {
    if Ready(s) {
      RestIncomplete(Tail(s));
    }
  }

  /** More bytes behind a complete frame do not change it. */
  lemma {:induction false} ReadyExtends(s: seq<byte>, t: seq<byte>)
    requires Ready(s)
    ensures Ready(s + t) && Head(s + t) == Head(s) && Tail(s + t) == Tail(s) + t
  {
    assert (s + t)[..4] == s[..4];
  }

  /** Fragmentation does not matter: parsing in two goes is parsing at once. */
  lemma {:induction false} ParseInPieces(s: seq<byte>, t: seq<byte>)
    ensures Bodies(s + t) == Bodies(s) + Bodies(Rest(s) + t)
    ensures Rest(s + t) == Rest(Rest(s) + t)
    decreases |s|
  {
    if Ready(s) {
      ReadyExtends(s, t);
      ParseInPieces(Tail(s), t);
    }
  }

  lemma {:induction false} FrameParses(b: Body, t: seq<byte>)
    ensures Bodies(Frame(b) + t) == [b] + Bodies(t) && Rest(Frame(b) + t) == Rest(t)
  {
    hide Le, FromLe;
    var s := Frame(b) + t;
    assert s == Le(|b|, 4) + (b + t);
    SizeRoundTrip(|b|, b + t);
    assert Ready(s) && Head(s) == b && Tail(s) == t;
  }

  /** Parsing undoes encoding, whatever follows. */
  lemma {:induction false} ParseEncode(bs: seq<Body>, t: seq<byte>)
    ensures Bodies(Encode(bs) + t) == bs + Bodies(t)
    ensures Rest(Encode(bs) + t) == Rest(t)
  {
    hide Frame, Bodies, Rest, Encode, Head, Tail, Ready;
    if bs == [] {
      NothingEncoded(t);
      assert bs + Bodies(t) == Bodies(t);
    } else {
      var n := |bs| - 1;
      var b, front := bs[n], bs[..n];
      EncodeLast(bs, t);
      FrameParses(b, t);
      ParseEncode(front, Frame(b) + t);
      assert bs == front + [b];
      Regroup(front, b, Bodies(t));
    }
  }

  lemma {:induction false} NothingEncoded(t: seq<byte>)
    ensures Encode([]) + t == t
  {
  }

  lemma {:induction false} EncodeLast(bs: seq<Body>, t: seq<byte>)
    requires bs != []
    ensures var n := |bs| - 1; Encode(bs) + t == Encode(bs[..n]) + (Frame(bs[n]) + t)
  {
    hide Frame;
  }

  lemma {:induction false} Regroup(front: seq<seq<byte>>, b: seq<byte>, later: seq<seq<byte>>)
    ensures front + ([b] + later) == front + [b] + later
  {
  }

  // ---------- client, connection, server ----------

  /** `out` and `buffer` are the two marshals, `wire` what the connection holds. */
  datatype Link = Link(submitted: seq<Body>, out: seq<byte>, wire: seq<byte>, buffer: seq<byte>,
                       delivered: seq<seq<byte>>)

  const Idle := Link([], [], [], [], [])

  datatype Step =
    | Submit(b: Body)          // begin_request .. end_request
    | Flush(k: nat)            // the socket takes k bytes
    | Receive(k: nat)          // the socket yields k bytes, then the parse loop runs

  ghost predicate Enabled(l: Link, s: Step) {
    match s
    case Submit(_) => true
    case Flush(k) => k <= |l.out|
    case Receive(k) => k <= |l.wire|
  }

  ghost function Do(l: Link, s: Step): Link
    requires Enabled(l, s)
  {
    match s
    case Submit(b) => l.(submitted := l.submitted + [b], out := l.out + Frame(b))
    case Flush(k) => l.(out := l.out[k..], wire := l.wire + l.out[..k])
    case Receive(k) =>
      var s := l.buffer + l.wire[..k];
      l.(wire := l.wire[k..], buffer := Rest(s), delivered := l.delivered + Bodies(s))
  }

  /** Nothing is lost or reordered on the way: all bytes together parse to what was submitted. */
  ghost predicate LinkInv(l: Link) {
    && !Ready(l.buffer)
    && l.delivered + Bodies(l.buffer + l.wire + l.out) == l.submitted
    && Rest(l.buffer + l.wire + l.out) == []
  }

  lemma {:induction false} SubmitKeeps(l: Link, b: Body)
    requires LinkInv(l)
    ensures LinkInv(Do(l, Submit(b)))
  {
    hide Frame, Bodies, Rest, Ready;
    var all := l.buffer + l.wire + l.out;
    ParseInPieces(all, Frame(b));
    assert l.buffer + l.wire + (l.out + Frame(b)) == all + Frame(b);
    FrameParses(b, []);
    assert Rest(all) + Frame(b) == Frame(b) + [];
    NothingToParse();
    assert l.delivered + (Bodies(all) + ([b] + [])) == l.submitted + [b];
  }

  lemma {:induction false} NothingToParse()
    ensures Bodies([]) == [] && Rest([]) == []
  {
  }

  lemma {:induction false} ReceiveKeeps(l: Link, k: nat)
    requires LinkInv(l) && k <= |l.wire|
    ensures LinkInv(Do(l, Receive(k)))
  {
    hide Frame, Bodies, Rest, Ready;
    var all := l.buffer + l.wire + l.out;
    var front, back := l.buffer + l.wire[..k], l.wire[k..] + l.out;
    assert front + back == all;
    ParseInPieces(front, back);
    RestIncomplete(front);
    assert Rest(front) + l.wire[k..] + l.out == Rest(front) + back;
    var first, later := Bodies(front), Bodies(Rest(front) + back);
    assert l.delivered + (first + later) == l.delivered + first + later;
  }

  lemma {:induction false} StepKeeps(l: Link, s: Step)
    requires LinkInv(l) && Enabled(l, s)
    ensures LinkInv(Do(l, s))
  {
    hide Frame, Bodies, Rest, Ready;
    match s
    case Submit(b) =>
      SubmitKeeps(l, b);
    case Flush(k) =>
      assert l.buffer + (l.wire + l.out[..k]) + l.out[k..] == l.buffer + l.wire + l.out;
    case Receive(k) =>
      ReceiveKeeps(l, k);
  }

  ghost predicate Run(ls: seq<Link>, steps: seq<Step>) {
    && |ls| == |steps| + 1 && ls[0] == Idle
    && forall n | 0 <= n < |steps| :: Enabled(ls[n], steps[n]) && ls[n+1] == Do(ls[n], steps[n])
  }

  lemma {:induction false} RunsKeep(ls: seq<Link>, steps: seq<Step>, n: nat)
    requires Run(ls, steps) && n < |ls|
    ensures LinkInv(ls[n])
  {
    if n > 0 {
      RunsKeep(ls, steps, n - 1);
      StepKeeps(ls[n-1], steps[n-1]);
      assert ls[n-1+1] == Do(ls[n-1], steps[n-1]);
    }
  }

  /**
   For every sequence of requests, every pattern of partial writes and every fragmentation of reads:
   the bodies delivered are the first of those submitted, in order, each once, and only an
   incomplete frame stays buffered. Once nothing is on the way, all are delivered.
   */
  lemma {:induction false} DeliveredInOrder(ls: seq<Link>, steps: seq<Step>, n: nat)
    requires Run(ls, steps) && n < |ls|
    ensures ls[n].delivered <= ls[n].submitted
    ensures !Ready(ls[n].buffer)
    ensures ls[n].out == [] && ls[n].wire == [] ==> ls[n].delivered == ls[n].submitted && ls[n].buffer == []
  {
    RunsKeep(ls, steps, n);
    var l := ls[n];
    assert l.out == [] && l.wire == [] ==> l.buffer + l.wire + l.out == l.buffer;
  }
}

/** Both ends of a TCP connection as implemented on marshals. */
module Tcp {
  import opened Basics
  import opened Chunks
  import opened FileDescriptor
  import opened Marshal
  import opened FramingModel

  /** Requests of a client, or replies of a server: `begin`, any number of writes, `end`. */
  class Sender {
    const out: Marshal
    var bm: seq<Slot>
    var open: bool
    /** Where the open message starts, and its body so far. */
    ghost var pos: nat
    ghost var body: seq<byte>

    ghost predicate Valid()
      reads this, out
    {
      && out.Valid()
      && if !open then out.writeCnt == 0
         else
           && Marks(out.chunks, bm, pos) && |bm| == 4
           && Size(out.chunks) == pos + 4 + |body| && out.writeCnt == |body|
    }

    /** The complete frames that still wait to be sent. */
    ghost function Pending(): seq<byte>
      requires Valid()
      reads this, out, set i | 0 <= i < |out.chunks| :: out.chunks[i].data
    {
      SizeIsLength(out.chunks);
      if open then out.Content()[..pos] else out.Content()
    }

    /** While a message is open its body is at the end of the marshal, behind the four bytes set aside. */
    ghost predicate BodyInPlace()
      requires Valid()
      reads this, out, set i | 0 <= i < |out.chunks| :: out.chunks[i].data
    {
      SizeIsLength(out.chunks);
      open ==> out.Content()[pos + 4..] == body
    }

    constructor ()
      ensures Valid() && BodyInPlace() && Pending() == [] && !open && fresh(out)
    {
      out := new Marshal();
      bm, open, pos, body := [], false, 0, [];
    }

    /** The beginning of `begin_request` and `begin_reply`. */
    method Begin()
      requires Valid() && !open
      modifies this, out
      ensures Valid() && BodyInPlace() && open && body == [] && Pending() == old(Pending())
      ensures out.WriteFrame() == old(out.WriteFrame()) || fresh(out.WriteFrame())
    {
      hide Bytes, Size, Marks, Behind, Extends, Shape;
      SizeIsLength(out.chunks);
      NobodyBehind(out.chunks);
      bm := out.SetBookmark(4, []);
      SizeIsLength(out.chunks);
      pos := |old(out.Content())|;
      open, body := true, [];
      assert out.Content()[..pos] == old(out.Content());
    }

    /** Any `<<` while the message is open. */
    method Put(p: seq<byte>)
      requires Valid() && BodyInPlace() && open
      modifies this, out, out.WriteFrame()
      ensures Valid() && BodyInPlace() && open && body == old(body) + p && Pending() == old(Pending())
      ensures out.WriteFrame() == old(out.WriteFrame()) || fresh(out.WriteFrame())
    {
      hide Bytes, Size, Marks, Behind, Extends, Shape;
      SizeIsLength(out.chunks);
      NobodyBehind(out.chunks);
      ghost var was := out.chunks;
      var n := out.Write(p, []);
      SizeIsLength(out.chunks);
      MarksStable(was, out.chunks, bm, pos);
      body := body + p;
    }

    /** `end_request`, `end_reply`: the size goes where it was left out. */
    method End()
      requires Valid() && BodyInPlace() && open && |body| < LIMIT
      modifies this, out, set i | 0 <= i < |bm| :: bm[i].data
      ensures Valid() && BodyInPlace() && !open && Pending() == old(Pending()) + Frame(old(body))
      ensures out.WriteFrame() == old(out.WriteFrame())
    {
      hide Bytes, Size, Marks, Shape, Le;
      SizeIsLength(out.chunks);
      ghost var was := out.Content();
      var n := out.GetAndResetWriteCnt();
      out.WriteBookmark(bm, Le(n, 4), pos);
      assert out.Content() == was[..pos] + Le(n, 4) + body;
      open := false;
    }

    /** `handle_write`: as much of what is pending goes out as the socket has room for. */
    method HandleWrite(fd: Fd) returns (n: nat)
      requires Valid() && !open
      modifies this, out, fd`sent, fd`room
      ensures Valid() && BodyInPlace() && !open && n == Min(old(fd.room), |old(Pending())|)
      ensures fd.sent == old(fd.sent) + old(Pending())[..n] && Pending() == old(Pending())[n..]
    {
      hide Bytes, Size, Marks, Shape;
      n := out.WriteToFd(fd);
    }
  }

  /** The receiving side: a buffer that holds at most an incomplete frame between calls. */
  class Receiver {
    const buffer: Marshal

    ghost predicate Valid()
      reads this, buffer, set i | 0 <= i < |buffer.chunks| :: buffer.chunks[i].data
    {
      buffer.Valid() && !Ready(buffer.Content())
    }

    constructor ()
      ensures Valid() && buffer.Content() == [] && fresh(buffer)
    {
      buffer := new Marshal();
    }

    /** Tests whether a complete frame is buffered. */
    method HasFrame() returns (ready: bool, size: nat)
      requires buffer.Valid()
      ensures ready <==> Ready(buffer.Content())
      ensures ready ==> size == SizeOf(buffer.Content())
    {
      hide Bytes, Size, Shape;
      var head := buffer.Peek(4);
      SizeIsLength(buffer.chunks);
      size := 0;
      ready := false;
      if |head| == 4 {
        assert head[..4] == head;
        size := SizeOf(head);
        assert head == buffer.Content()[..4];
        ready := buffer.contentSize >= size + 4;
      }
    }

    /** Takes the frame at the front into a marshal of its own. */
    method TakeFrame(size: nat) returns (req: Marshal)
      requires buffer.Valid() && Ready(buffer.Content()) && size == SizeOf(buffer.Content())
      modifies buffer
      ensures buffer.Valid() && buffer.Content() == Tail(old(buffer.Content()))
      ensures fresh(req) && req.Valid() && req.Content() == Head(old(buffer.Content()))
      ensures Apart(req.chunks, buffer.chunks) && Drained(old(buffer.chunks), buffer.chunks)
    {
      hide Bytes, Size, Shape, Drained;
      ghost var s, was := buffer.Content(), buffer.chunks;
      var head := buffer.Read(4);
      assert buffer.Content() == s[4..];
      ghost var mid := buffer.chunks;
      req := new Marshal();
      var n := req.ReadFromMarshal(buffer, size);
      DrainedTwice(was, mid, buffer.chunks);
      assert req.Content() == s[4..][..size];
    }

    /**
     `handle_read`: takes what the socket has and cuts complete frames off the buffer.
     Bytes of others that lie behind the buffer's end, such as requests handed out before, stay as they are
     and stay behind it.
     */
    method HandleRead(fd: Fd, ghost guard: seq<Chunk>) returns (reqs: seq<Marshal>, n: nat)
      requires Valid() && AllOk(guard) && Behind(guard, buffer.chunks)
      modifies buffer, buffer.WriteFrame(), fd`incoming, fd`ready
      ensures Valid() && Bytes(guard) == old(Bytes(guard)) && Behind(guard, buffer.chunks)
      ensures forall a | a in buffer.WriteFrame() :: a in old(buffer.WriteFrame()) || fresh(a)
      ensures n == Min(old(fd.ready), |old(fd.incoming)|) && fd.incoming == old(fd.incoming)[n..]
      ensures buffer.Content() == Rest(old(buffer.Content()) + old(fd.incoming)[..n])
      ensures Hands(reqs, Bodies(old(buffer.Content()) + old(fd.incoming)[..n]))
      ensures forall i | 0 <= i < |reqs| :: fresh(reqs[i]) && Apart(reqs[i].chunks, buffer.chunks)
    {
      hide Bytes, Size, Shape, Behind, Drained, Ready, Bodies, Rest, Head, Tail, Apart, Extends;
      ghost var start, all := buffer.Content(), fd.incoming;
      ghost var before := buffer.chunks;
      n := buffer.ReadFromFd(fd, guard);
      TailGrew(before, buffer.chunks);
      ghost var filled := buffer.chunks;
      assert fd.incoming == all[n..];
      ghost var total := start + all[..n];
      if n == 0 {
        assert total == start;
        Incomplete(start);
        reqs := [];
        return;
      }
      reqs := CutFrames();
      BehindDrained(guard, filled, buffer.chunks);
      RestIncomplete(total);
    }

    /** One more call: requests handed out before keep their bodies. */
    method ServeOnce(fd: Fd, reqs: seq<Marshal>, ghost total: seq<byte>) returns (more: seq<Marshal>, k: nat)
      requires Valid() && buffer !in reqs && buffer.Content() == Rest(total) && Hands(reqs, Bodies(total))
      requires AllOk(Flat(ChunksOf(reqs))) && Behind(Flat(ChunksOf(reqs)), buffer.chunks)
      modifies buffer, buffer.WriteFrame(), fd`incoming, fd`ready
      ensures Valid() && k == Min(old(fd.ready), |old(fd.incoming)|) && fd.incoming == old(fd.incoming)[k..]
      ensures forall a | a in buffer.WriteFrame() :: a in old(buffer.WriteFrame()) || fresh(a)
      ensures forall i | 0 <= i < |more| :: fresh(more[i])
      ensures buffer.Content() == Rest(total + old(fd.incoming)[..k])
      ensures Hands(reqs + more, Bodies(total + old(fd.incoming)[..k]))
      ensures AllOk(Flat(ChunksOf(reqs + more))) && Behind(Flat(ChunksOf(reqs + more)), buffer.chunks)
    {
      hide Bytes, Size, Shape, Behind, Drained, Ready, Bodies, Rest, Apart;
      ghost var parts, bytes := ChunksOf(reqs), fd.incoming;
      more, k := HandleRead(fd, Flat(parts));
      assert ChunksOf(reqs) == parts;
      ContentsKept(reqs);
      ParseInPieces(total, bytes[..k]);
      HandsMore(reqs, Bodies(total), more, Bodies(Rest(total) + bytes[..k]));
      FlatMore(reqs, more, buffer.chunks);
    }

    /** More bytes may become ready; requests handed out are none of the socket's business. */
    method Await(fd: Fd, ghost reqs: seq<Marshal>, ghost bodies: seq<seq<byte>>)
      requires Valid() && Hands(reqs, bodies)
      modifies fd`ready, fd`room
      ensures Valid() && Hands(reqs, bodies) && buffer.Content() == old(buffer.Content())
    {
      fd.Poll();
    }

    /** Any number of calls, bytes coming in between: at the end all requests handed out hold their bodies. */
    method Serve(fd: Fd, rounds: nat) returns (reqs: seq<Marshal>, n: nat)
      requires Valid()
      modifies buffer, buffer.WriteFrame(), fd`incoming, fd`ready, fd`room
      ensures Valid() && n <= |old(fd.incoming)| && fd.incoming == old(fd.incoming)[n..]
      ensures buffer.Content() == Rest(old(buffer.Content()) + old(fd.incoming)[..n])
      ensures Hands(reqs, Bodies(old(buffer.Content()) + old(fd.incoming)[..n]))
    {
      hide Bytes, Size, Shape, Behind, Drained, Ready, Bodies, Rest, Apart, Hands, Flat, ChunksOf;
      reqs, n := [], 0;
      ghost var start, all := buffer.Content(), fd.incoming;
      assert start + all[..0] == start;
      Incomplete(start);
      NothingHanded();
      NobodyBehind(buffer.chunks);
      var left := rounds;
      while left > 0
        invariant Valid() && n <= |all| && fd.incoming == all[n..]
        invariant buffer.Content() == Rest(start + all[..n]) && Hands(reqs, Bodies(start + all[..n]))
        invariant forall i | 0 <= i < |reqs| :: fresh(reqs[i])
        invariant forall a | a in buffer.WriteFrame() :: a in old(buffer.WriteFrame()) || fresh(a)
        invariant AllOk(Flat(ChunksOf(reqs))) && Behind(Flat(ChunksOf(reqs)), buffer.chunks)
      {
        Await(fd, reqs, Bodies(start + all[..n]));
        var more, k := ServeOnce(fd, reqs, start + all[..n]);
        assert start + all[..n] + all[n..][..k] == start + all[..n + k];
        reqs := reqs + more;
        n := n + k;
        left := left - 1;
      }
    }

    /** The parse loop. */
    method CutFrames() returns (reqs: seq<Marshal>)
      requires buffer.Valid()
      modifies buffer
      ensures buffer.Valid() && buffer.Content() == Rest(old(buffer.Content()))
      ensures Hands(reqs, Bodies(old(buffer.Content()))) && Drained(old(buffer.chunks), buffer.chunks)
      ensures forall i | 0 <= i < |reqs| :: fresh(reqs[i]) && Apart(reqs[i].chunks, buffer.chunks)
    {
      hide Bytes, Size, Shape, Drained, Bodies, Rest, Head, Tail, Apart;
      ghost var total := buffer.Content();
      ghost var done: seq<seq<byte>> := [];
      reqs := [];
      NothingHanded();
      DrainedSame(buffer.chunks);
      var ready, size := HasFrame();
      while ready
        invariant buffer.Valid() && (ready <==> Ready(buffer.Content())) && (ready ==> size == SizeOf(buffer.Content()))
        invariant Hands(reqs, done) && done + Bodies(buffer.Content()) == Bodies(total)
        invariant Rest(buffer.Content()) == Rest(total) && Drained(old(buffer.chunks), buffer.chunks)
        invariant forall i | 0 <= i < |reqs| :: fresh(reqs[i]) && Apart(reqs[i].chunks, buffer.chunks)
        decreases |buffer.Content()|
      {
        ghost var s, was := buffer.Content(), buffer.chunks;
        OneFrame(s, done);
        var req := TakeFrame(size);
        DrainedTwice(old(buffer.chunks), was, buffer.chunks);
        forall i | 0 <= i < |reqs| ensures Apart(reqs[i].chunks, buffer.chunks) {
          ApartDrained(reqs[i].chunks, was, buffer.chunks);
        }
        reqs := reqs + [req];
        done := done + [Head(s)];
        ready, size := HasFrame();
      }
      Incomplete(buffer.Content());
    }
  }

  ghost function ChunksOf(reqs: seq<Marshal>): (parts: seq<seq<Chunk>>)
    reads reqs
    ensures |parts| == |reqs| && forall i | 0 <= i < |reqs| :: parts[i] == reqs[i].chunks
  {
    seq(|reqs|, i requires 0 <= i < |reqs| reads reqs => reqs[i].chunks)
  }

  function Flat(parts: seq<seq<Chunk>>): seq<Chunk> {
    if parts == [] then [] else Flat(parts[..|parts|-1]) + parts[|parts|-1]
  }

  /** Bytes of two lists one after the other, before and after a change. */
  twostate lemma {:induction false} BytesJoin(p: (seq<Chunk>, seq<Chunk>))
    requires AllOk(p.0) && AllOk(p.1)
    ensures AllOk(p.0 + p.1) && Bytes(p.0 + p.1) == Bytes(p.0) + Bytes(p.1)
    ensures old(Bytes(p.0 + p.1)) == old(Bytes(p.0)) + old(Bytes(p.1)) && |Bytes(p.0)| == |old(Bytes(p.0))|
    decreases |p.1|
  {
    hide Bytes;
    var (a, b) := p;
    if b == [] {
      assert a + b == a;
      NoBytes(b);
      LengthKept(a);
    } else {
      var n := |b| - 1;
      BytesJoin((a, b[..n]));
      LastBytes((a + b, a + b[..n]));
      LastBytes((b, b[..n]));
    }
  }

  twostate lemma {:induction false} NoBytes(b: seq<Chunk>)
    requires b == []
    ensures Bytes(b) == [] && old(Bytes(b)) == []
  {
  }

  /** The last chunk's bytes come last, before and after a change. */
  twostate lemma {:induction false} LastBytes(p: (seq<Chunk>, seq<Chunk>))
    requires p.0 != [] && AllOk(p.0) && p.1 == p.0[..|p.0|-1]
    ensures var c := p.0[|p.0|-1];
            && Bytes(p.0) == Bytes(p.1) + c.data[c.rd..c.wr]
            && old(Bytes(p.0)) == old(Bytes(p.1)) + old(c.data[c.rd..c.wr])
  {
  }

  lemma {:induction false} Cancel(a: seq<byte>, b: seq<byte>, a': seq<byte>, b': seq<byte>)
    requires a + b == a' + b' && |a| == |a'|
    ensures a == a' && b == b'
  {
    assert a == (a + b)[..|a|] && b == (a + b)[|a|..];
  }

  twostate lemma {:induction false} LengthKept(a: seq<Chunk>)
    requires AllOk(a)
    ensures |Bytes(a)| == |old(Bytes(a))|
  {
    if a != [] {
      LengthKept(a[..|a|-1]);
    }
  }

  /** If the bytes of several marshals together are as before, so are those of each. */
  twostate lemma {:induction false} PartsKept(parts: seq<seq<Chunk>>)
    requires AllOk(Flat(parts)) && Bytes(Flat(parts)) == old(Bytes(Flat(parts)))
    ensures forall i | 0 <= i < |parts| :: AllOk(parts[i]) && Bytes(parts[i]) == old(Bytes(parts[i]))
  {
    hide Bytes, Size;
    if parts != [] {
      var n := |parts| - 1;
      var front, last := Flat(parts[..n]), parts[n];
      assert forall i | 0 <= i < |front| :: front[i] == Flat(parts)[i];
      assert forall i | 0 <= i < |last| :: last[i] == Flat(parts)[|front| + i];
      BytesJoin((front, last));
      Cancel(Bytes(front), Bytes(last), old(Bytes(front)), old(Bytes(last)));
      PartsKept(parts[..n]);
      assert forall i | 0 <= i < n :: parts[..n][i] == parts[i];
    }
  }

  twostate lemma {:induction false} ContentsKept(reqs: seq<Marshal>)
    requires unchanged(reqs) && AllOk(Flat(ChunksOf(reqs)))
    requires Bytes(Flat(ChunksOf(reqs))) == old(Bytes(Flat(ChunksOf(reqs))))
    requires forall i | 0 <= i < |reqs| :: old(reqs[i].Valid())
    ensures forall i | 0 <= i < |reqs| :: reqs[i].Valid() && reqs[i].Content() == old(reqs[i].Content())
  {
    hide Bytes, Size, Shape;
    assert ChunksOf(reqs) == old(ChunksOf(reqs));
    PartsKept(ChunksOf(reqs));
    forall i | 0 <= i < |reqs| ensures reqs[i].Valid() && reqs[i].Content() == old(reqs[i].Content()) {
      assert Bytes(ChunksOf(reqs)[i]) == old(Bytes(ChunksOf(reqs)[i]));
    }
  }

  lemma {:induction false} HandsMore(a: seq<Marshal>, x: seq<seq<byte>>, b: seq<Marshal>, y: seq<seq<byte>>)
    requires Hands(a, x) && Hands(b, y)
    ensures Hands(a + b, x + y)
  {
  }

  /** New requests join those that lie behind the end of the buffer. */
  lemma {:induction false} FlatMore(a: seq<Marshal>, b: seq<Marshal>, cs: seq<Chunk>)
    requires AllOk(Flat(ChunksOf(a))) && Behind(Flat(ChunksOf(a)), cs) && AllOk(cs)
    requires forall i | 0 <= i < |b| :: b[i].Valid() && Apart(b[i].chunks, cs)
    ensures AllOk(Flat(ChunksOf(a + b))) && Behind(Flat(ChunksOf(a + b)), cs)
  {
    hide Shape, Size;
    if b == [] {
      assert a + b == a;
    } else {
      var n := |b| - 1;
      FlatMore(a, b[..n], cs);
      assert a + b == a + b[..n] + [b[n]];
      assert ChunksOf(a + b)[..|a| + n] == ChunksOf(a + b[..n]);
      ApartIsBehind(b[n].chunks, cs);
    }
  }

  /** Taking bytes off the front does not move the end. */
  lemma {:induction false} BehindDrained(guard: seq<Chunk>, cs: seq<Chunk>, cs': seq<Chunk>)
    requires Behind(guard, cs) && Drained(cs, cs')
    ensures Behind(guard, cs') && (cs' != [] ==> cs != [] && Last(cs').data == Last(cs).data)
  {
    if cs' != [] {
      assert cs'[|cs'|-1].data == cs[|cs|-1].data;
    }
  }

  lemma {:induction false} TailGrew(cs: seq<Chunk>, cs': seq<Chunk>)
    requires Extends(cs, cs')
    ensures |cs| <= |cs'| && (|cs| == |cs'| && cs != [] ==> Last(cs').data == Last(cs).data)
  {
  }

  lemma {:induction false} NothingHanded()
    ensures Hands([], [])
  {
  }

  lemma {:induction false} Incomplete(s: seq<byte>)
    requires !Ready(s)
    ensures Bodies(s) == [] && Rest(s) == s
  {
  }

  lemma {:induction false} OneFrame(s: seq<byte>, done: seq<seq<byte>>)
    requires Ready(s)
    ensures done + Bodies(s) == done + [Head(s)] + Bodies(Tail(s)) && Rest(s) == Rest(Tail(s))
    ensures |Tail(s)| < |s|
  {
    hide Bodies, Rest;
    Unroll(s);
    Regroup(done, Head(s), Bodies(Tail(s)));
  }

  lemma {:induction false} Unroll(s: seq<byte>)
    requires Ready(s)
    ensures Bodies(s) == [Head(s)] + Bodies(Tail(s)) && Rest(s) == Rest(Tail(s))
  {
    hide Head, Tail;
  }

  /** Marshals `reqs` hold the given bodies. */
  ghost predicate Hands(reqs: seq<Marshal>, bodies: seq<seq<byte>>)
    reads reqs, set r, i | r in reqs && 0 <= i < |r.chunks| :: r.chunks[i].data
  {
    && |reqs| == |bodies|
    && forall i | 0 <= i < |reqs| :: reqs[i].Valid() && reqs[i].Content() == bodies[i]
  }

  lemma {:induction false} NobodyBehind(cs: seq<Chunk>)
    ensures AllOk([]) && Behind([], cs) && Flat(ChunksOf([])) == []
  {
  }
}
