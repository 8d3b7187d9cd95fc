/** Raw byte chunks and what a list of them stands for. */
module Chunks {
  import opened Basics

  const MIN_SIZE := 8192

  /** A window of unread bytes in an array that may be shared with a chunk of another marshal. */
  datatype Chunk = Chunk(data: array<byte>, rd: nat, wr: nat)

  predicate ChunkOk(c: Chunk) {
    c.rd <= c.wr <= c.data.Length
  }

  predicate FullyWritten(c: Chunk) {
    c.wr == c.data.Length
  }

  predicate FullyRead(c: Chunk) {
    c.rd == c.data.Length
  }

  ghost predicate AllOk(cs: seq<Chunk>) {
    forall i | 0 <= i < |cs| :: ChunkOk(cs[i])
  }

  function Arrays(cs: seq<Chunk>): set<array<byte>> {
    set i | 0 <= i < |cs| :: cs[i].data
  }

  /** The unread bytes of a list of chunks. */
  ghost function Bytes(cs: seq<Chunk>): seq<byte>
    requires AllOk(cs)
    reads set i | 0 <= i < |cs| :: cs[i].data
  {
    if cs == [] then [] else Bytes(cs[..|cs|-1]) + cs[|cs|-1].data[cs[|cs|-1].rd..cs[|cs|-1].wr]
  }

  function Size(cs: seq<Chunk>): int {
    if cs == [] then 0 else Size(cs[..|cs|-1]) + (cs[|cs|-1].wr - cs[|cs|-1].rd)
  }

  /**
   The shape the list keeps: every chunk but the last is full, no chunk is used up,
   and no two chunks share an array.
   */
  ghost predicate Shape(cs: seq<Chunk>) {
    && AllOk(cs)
    && (forall i | 0 <= i < |cs| :: !FullyRead(cs[i]))
    && (forall i | 0 <= i < |cs| - 1 :: FullyWritten(cs[i]))
    && (forall i, j | 0 <= i < j < |cs| :: cs[i].data != cs[j].data)
  }

  lemma {:induction false} SizeIsLength(cs: seq<Chunk>)
    requires AllOk(cs)
    ensures |Bytes(cs)| == Size(cs)
  {
    if cs != [] {
      SizeIsLength(cs[..|cs|-1]);
    }
  }

  /** The first chunk's bytes come first. */
  lemma {:induction false} BytesCons(cs: seq<Chunk>)
    requires AllOk(cs) && cs != []
    ensures Bytes(cs) == cs[0].data[cs[0].rd..cs[0].wr] + Bytes(cs[1..])
    ensures Size(cs) == cs[0].wr - cs[0].rd + Size(cs[1..])
  {
    var n := |cs| - 1;
    if n > 0 {
      BytesCons(cs[..n]);
      assert cs[..n][1..] == cs[1..][..n-1];
    } else {
      assert cs[..0] == [] && cs[1..] == [];
    }
  }

  lemma {:induction false} BytesSnoc(cs: seq<Chunk>, c: Chunk)
    requires AllOk(cs) && ChunkOk(c)
    ensures AllOk(cs + [c]) && Bytes(cs + [c]) == Bytes(cs) + c.data[c.rd..c.wr]
    ensures Size(cs + [c]) == Size(cs) + (c.wr - c.rd)
    ensures Arrays(cs + [c]) == Arrays(cs) + {c.data}
  {
    assert (cs + [c])[..|cs|] == cs;
    var all := cs + [c];
    forall a | a in Arrays(cs) ensures a in Arrays(all) {
      var i :| 0 <= i < |cs| && cs[i].data == a;
      assert all[i].data == a;
    }
    assert all[|cs|].data == c.data;
    forall a | a in Arrays(all) ensures a in Arrays(cs) || a == c.data {
      var i :| 0 <= i < |all| && all[i].data == a;
      if i < |cs| {
        assert all[i] == cs[i];
      }
    }
  }

  lemma {:induction false} BytesPrefix(cs: seq<Chunk>, i: nat)
    requires AllOk(cs) && i <= |cs|
    ensures Bytes(cs[..i]) <= Bytes(cs)
  {
    if i < |cs| {
      BytesPrefix(cs[..|cs|-1], i);
      assert cs[..|cs|-1][..i] == cs[..i];
    } else {
      assert cs[..i] == cs;
    }
  }

  /** A place in memory. */
  datatype Slot = Slot(data: array<byte>, idx: nat)

  /** Where the `k`th unread byte lives. */
  ghost function Where(cs: seq<Chunk>, k: nat): (s: Slot)
    requires AllOk(cs) && k < Size(cs)
    ensures s.data in Arrays(cs) && s.idx < s.data.Length
  {
    var n := |cs| - 1;
    if k >= Size(cs[..n]) then
      var c := cs[n];
      SizeNat(cs[..n]);
      Slot(c.data, c.rd + (k - Size(cs[..n])))
    else
      var s := Where(cs[..n], k);
      ArraysFront(cs);
      s
  }

  lemma {:induction false} SizeNat(cs: seq<Chunk>)
    requires AllOk(cs)
    ensures Size(cs) >= 0
  {
    SizeIsLength(cs);
  }

  lemma {:induction false} ArraysFront(cs: seq<Chunk>)
    requires cs != []
    ensures Arrays(cs[..|cs|-1]) <= Arrays(cs)
  {
    var front := cs[..|cs|-1];
    forall a | a in Arrays(front) ensures a in Arrays(cs) {
      var i :| 0 <= i < |front| && front[i].data == a;
      assert cs[i].data == a;
    }
  }

  lemma {:induction false} ByteAt(cs: seq<Chunk>, k: nat)
    requires AllOk(cs) && k < Size(cs)
    ensures |Bytes(cs)| == Size(cs) && Bytes(cs)[k] == Where(cs, k).data[Where(cs, k).idx]
  {
    var n := |cs| - 1;
    SizeIsLength(cs);
    SizeIsLength(cs[..n]);
    if k < Size(cs[..n]) {
      ByteAt(cs[..n], k);
    }
  }

  /** Different bytes live in different places. */
  lemma {:induction false} WhereInjective(cs: seq<Chunk>, j: nat, k: nat)
    requires Shape(cs) && j < k < Size(cs)
    ensures Where(cs, j) != Where(cs, k)
  {
    var n := |cs| - 1;
    var front := cs[..n];
    SizeNat(front);
    assert cs[n].data !in Arrays(front);
    if k < Size(front) {
      WhereInjective(front, j, k);
    }
  }

  /** Chunks keep their place and their start; the last one may grow and others may follow. */
  ghost predicate Extends(cs: seq<Chunk>, cs': seq<Chunk>) {
    && |cs| <= |cs'|
    && (forall i | 0 <= i < |cs| :: cs'[i].data == cs[i].data && cs'[i].rd == cs[i].rd && cs[i].wr <= cs'[i].wr)
    && (forall i | 0 <= i < |cs| - 1 :: cs'[i].wr == cs[i].wr)
  }

  lemma {:induction false} ExtendsSame(cs: seq<Chunk>)
    ensures Extends(cs, cs)
  {
  }

  lemma {:induction false} SameArrays(cs: seq<Chunk>, cs': seq<Chunk>)
    requires Extends(cs, cs')
    ensures |cs| <= |cs'| && forall i | 0 <= i < |cs| :: cs'[i].data == cs[i].data
  {
  }

  lemma {:induction false} ExtendsTwice(a: seq<Chunk>, b: seq<Chunk>, c: seq<Chunk>)
    requires Extends(a, b) && Extends(b, c)
    ensures Extends(a, c)
  {
  }

  /** Writing more does not move what is already there. */
  lemma {:induction false} WhereStable(cs: seq<Chunk>, cs': seq<Chunk>, k: nat)
    requires AllOk(cs) && AllOk(cs') && Extends(cs, cs') && k < Size(cs)
    ensures k < Size(cs') && Where(cs', k) == Where(cs, k)
    decreases |cs'|
  {
    var n := |cs'| - 1;
    if |cs| < |cs'| {
      WhereStable(cs, cs'[..n], k);
    } else {
      assert cs'[..n] == cs[..n] by {
        forall i | 0 <= i < n ensures cs'[i] == cs[i] {
        }
      }
    }
  }

  /** No chunk of `guard` reaches beyond the place where a list of chunks writes next. */
  ghost predicate Behind(guard: seq<Chunk>, cs: seq<Chunk>) {
    cs != [] ==> forall i | 0 <= i < |guard| && guard[i].data == cs[|cs|-1].data :: guard[i].wr <= cs[|cs|-1].wr
  }

  /** Putting `n` more bytes at the end of a list of chunks does not hit any window of `guard`. */
  ghost predicate Clear(guard: seq<Chunk>, cs: seq<Chunk>, n: nat) {
    cs != [] ==>
      var t := cs[|cs|-1];
      forall i | 0 <= i < |guard| && guard[i].data == t.data :: guard[i].wr <= t.wr || t.wr + n <= guard[i].rd
  }

  lemma {:induction false} BehindIsClear(guard: seq<Chunk>, cs: seq<Chunk>, n: nat)
    requires Behind(guard, cs)
    ensures Clear(guard, cs, n)
  {
  }

  twostate lemma {:induction false} BytesKept(cs: seq<Chunk>)
    requires AllOk(cs)
    requires forall i {:trigger cs[i]} | 0 <= i < |cs| ::
               cs[i].data[cs[i].rd..cs[i].wr] == old(cs[i].data[cs[i].rd..cs[i].wr])
    ensures Bytes(cs) == old(Bytes(cs))
  {
    if cs != [] {
      var front := cs[..|cs|-1];
      assert forall i {:trigger front[i]} | 0 <= i < |front| :: front[i] == cs[i];
      BytesKept(front);
    }
  }

  /** Nothing to read means that the list is empty or down to one drained chunk. */
  lemma {:induction false} HeadHasBytes(cs: seq<Chunk>)
    requires Shape(cs) && cs != []
    ensures |cs| > 1 ==> cs[0].wr > cs[0].rd
    ensures cs[0].wr == cs[0].rd ==> |cs| == 1
  {
    assert |cs| > 1 ==> FullyWritten(cs[0]);
  }
}

/**
 A file descriptor: the bytes that will arrive and those that were sent. `ready` of the former can be had
 now, and it takes `room` more of the latter now; a call may move fewer, but none only if there are none.
 */
module FileDescriptor {
  import opened Basics

  function Min(a: nat, b: nat): nat {
    if a < b then a else b
  }

  class Fd {
    var incoming: seq<byte>
    var ready: nat
    var sent: seq<byte>
    var room: nat

    constructor (incoming: seq<byte>)
      ensures this.incoming == incoming && sent == [] && ready == 0 && room == 0
    {
      this.incoming, sent, ready, room := incoming, [], 0, 0;
    }

    /** Time passes. */
    method Poll()
      modifies `ready, `room
    {
      ready, room := *, *;
    }

    method Read(cap: nat) returns (got: seq<byte>)
      modifies `incoming, `ready
      ensures |got| <= cap && old(incoming) == got + incoming && |got| <= old(ready) && ready == old(ready) - |got|
      ensures got == [] ==> cap == 0 || Min(old(ready), |old(incoming)|) == 0
    {
      var most := Min(cap, Min(ready, |incoming|));
      var k :| 0 <= k <= most && (most > 0 ==> k > 0);
      got := incoming[..k];
      incoming, ready := incoming[k..], ready - k;
    }

    method Write(bytes: seq<byte>) returns (cnt: nat)
      modifies `sent, `room
      ensures cnt <= |bytes| && sent == old(sent) + bytes[..cnt] && cnt <= old(room) && room == old(room) - cnt
      ensures cnt == 0 ==> bytes == [] || old(room) == 0
    {
      var most := Min(|bytes|, room);
      cnt :| 0 <= cnt <= most && (most > 0 ==> cnt > 0);
      sent, room := sent + bytes[..cnt], room - cnt;
    }
  }
}

/** The marshal: a list of chunks that behaves as a queue of bytes. */
module Marshal {
  import opened Basics
  import opened Chunks
  import opened FileDescriptor

  method NewChunk(p: seq<byte>) returns (c: Chunk)
    ensures fresh(c.data) && c.data.Length == (if |p| < MIN_SIZE then MIN_SIZE else |p|)
    ensures c.rd == 0 && c.wr == |p| && c.data[c.rd..c.wr] == p
  {
    var data := new byte[if |p| < MIN_SIZE then MIN_SIZE else |p|];
    forall i | 0 <= i < |p| {
      data[i] := p[i];
    }
    c := Chunk(data, 0, |p|);
  }

  /** Copies `p` into `data` from position `at` on. */
  method CopyIn(data: array<byte>, at: nat, p: seq<byte>)
    requires at + |p| <= data.Length
    modifies data
    ensures data[..] == old(data[..at]) + p + old(data[at + |p|..])
  {
    forall i | 0 <= i < |p| {
      data[at + i] := p[i];
    }
  }

  /** A chunk's window after its array took `p` at the end of the window. */
  lemma {:induction false} WindowGrows(now: seq<byte>, was: seq<byte>, rd: nat, wr: nat, p: seq<byte>)
    requires rd <= wr && wr + |p| <= |was| && now == Put(was, wr, p)
    ensures now[rd..wr + |p|] == was[rd..wr] + p
  {
  }

  lemma {:induction false} OutsideKept(now: seq<byte>, was: seq<byte>, at: nat, p: seq<byte>, rd: nat, wr: nat)
    requires rd <= wr <= |was| && (rd == wr || wr <= at || at + |p| <= rd)
    requires at + |p| <= |was| && now == Put(was, at, p)
    ensures now[rd..wr] == was[rd..wr]
  {
  }

  function Last(cs: seq<Chunk>): Chunk
    requires cs != []
  {
    cs[|cs|-1]
  }

  class Marshal {
    var chunks: seq<Chunk>
    var writeCnt: int
    var contentSize: int

    ghost predicate Valid()
      reads this
    {
      AllOk(chunks) && Shape(chunks) && contentSize == Size(chunks)
    }

    ghost function Content(): seq<byte>
      requires Valid()
      reads this, set i | 0 <= i < |chunks| :: chunks[i].data
    {
      Bytes(chunks)
    }

    /** The array the next write may go to, below its limit only. */
    ghost function WriteFrame(): set<array<byte>>
      reads this
    {
      if chunks == [] then {} else {Last(chunks).data}
    }

    constructor ()
      ensures Valid() && Content() == [] && writeCnt == 0 && chunks == []
    {
      chunks, writeCnt, contentSize := [], 0, 0;
    }

    predicate Empty()
      reads this
    {
      contentSize == 0
    }

    lemma {:induction false} EmptyIff()
      requires Valid()
      ensures Empty() <==> Content() == []
      ensures contentSize == |Content()|
    {
      SizeIsLength(chunks);
    }

    /** `content_size_slow`: adding up the chunks gives the size kept in the field. */
    method ContentSizeSlow() returns (sz: int)
      requires Valid()
      ensures sz == contentSize == |Content()|
    {
      hide Bytes;
      sz := 0;
      var i := 0;
      while i < |chunks|
        invariant 0 <= i <= |chunks| && sz == Size(chunks[..i])
      {
        assert chunks[..i+1][..i] == chunks[..i];
        sz := sz + (chunks[i].wr - chunks[i].rd);
        i := i + 1;
      }
      assert chunks[..i] == chunks;
      SizeIsLength(chunks);
    }

    /** Adds a chunk behind a list that is empty or whose last chunk is full. */
    method Append(c: Chunk)
      requires Valid() && (chunks == [] || FullyWritten(Last(chunks)))
      requires ChunkOk(c) && !FullyRead(c) && c.data !in Arrays(chunks)
      modifies this
      ensures Valid() && chunks == old(chunks) + [c] && writeCnt == old(writeCnt)
      ensures contentSize == old(contentSize) + (c.wr - c.rd)
      ensures Content() == old(Content()) + c.data[c.rd..c.wr]
      ensures Arrays(chunks) == old(Arrays(chunks)) + {c.data}
    {
      BytesSnoc(chunks, c);
      chunks := chunks + [c];
      contentSize := contentSize + (c.wr - c.rd);
    }

    /** Puts `p` behind the bytes of the last chunk. */
    method FillTail(p: seq<byte>, ghost guard: seq<Chunk>)
      requires Valid() && chunks != [] && Last(chunks).wr + |p| <= Last(chunks).data.Length
      requires AllOk(guard) && Clear(guard, chunks, |p|)
      modifies this, Last(chunks).data
      ensures Valid() && writeCnt == old(writeCnt)
      ensures chunks == old(chunks)[|old(chunks)| - 1 := old(Last(chunks)).(wr := old(Last(chunks)).wr + |p|)]
      ensures Extends(old(chunks), chunks)
      ensures Content() == old(Content()) + p && Arrays(chunks) == old(Arrays(chunks))
      ensures Bytes(guard) == old(Bytes(guard)) && (Behind(guard, old(chunks)) ==> Behind(guard, chunks))
      ensures old(Last(chunks)).data[..] == Put(old(Last(chunks).data[..]), old(Last(chunks)).wr, p)
    {
      hide Size, Shape, Bytes;
      var n := |chunks| - 1;
      var t := chunks[n];
      var t' := t.(wr := t.wr + |p|);
      ghost var was, front := t.data[..], chunks[..n];
      TailSplit(chunks, t');
      ghost var frontBytes := Bytes(front);
      CopyIn(t.data, t.wr, p);
      assert Bytes(front) == frontBytes;
      assert Bytes(guard) == old(Bytes(guard)) by {
        forall i | 0 <= i < |guard|
          ensures guard[i].data[guard[i].rd..guard[i].wr] == old(guard[i].data[guard[i].rd..guard[i].wr])
        {
          if guard[i].data == t.data {
            OutsideKept(t.data[..], was, t.wr, p, guard[i].rd, guard[i].wr);
          }
        }
        BytesKept(guard);
      }
      WindowGrows(t.data[..], was, t.rd, t.wr, p);
      TailGrown(front, t');
      chunks := chunks[n := t'];
      contentSize := contentSize + |p|;
      assert chunks == front + [t'];
    }

    /** Adds a chunk of its own for `p`. */
    method AppendNew(p: seq<byte>, ghost guard: seq<Chunk>)
      requires AllOk(guard) && Valid() && (chunks == [] || FullyWritten(Last(chunks)))
      modifies this
      ensures Valid() && writeCnt == old(writeCnt) && contentSize == old(contentSize) + |p|
      ensures Content() == old(Content()) + p
      ensures |chunks| == |old(chunks)| + 1 && chunks[..|old(chunks)|] == old(chunks) && Extends(old(chunks), chunks)
      ensures Last(chunks).rd == 0 && Last(chunks).wr == |p| && Last(chunks).data.Length >= MIN_SIZE
      ensures Arrays(chunks) == old(Arrays(chunks)) + {Last(chunks).data} && fresh(Last(chunks).data)
      ensures Behind(guard, chunks) && Bytes(guard) == old(Bytes(guard))
    {
      hide Bytes, Size, Shape;
      var c := NewChunk(p);
      Append(c);
    }

    /** `write`: appends; chunks of others that stay behind the last chunk do not notice. */
    method Write(p: seq<byte>, ghost guard: seq<Chunk>) returns (n: nat)
      requires Valid() && AllOk(guard) && Behind(guard, chunks)
      modifies this, WriteFrame()
      ensures Valid() && n == |p| && Content() == old(Content()) + p && writeCnt == old(writeCnt) + |p|
      ensures Extends(old(chunks), chunks) && forall i | |old(chunks)| <= i < |chunks| :: fresh(chunks[i].data)
      ensures Behind(guard, chunks) && Bytes(guard) == old(Bytes(guard))
      ensures WriteFrame() == old(WriteFrame()) || fresh(WriteFrame())
      ensures old(chunks) != [] ==>
                var t := old(Last(chunks));
                t.wr <= t.data.Length && t.data[..] == Put(old(Last(chunks).data[..]), t.wr, Spill(t, p))
      ensures old(chunks) == [] ==> |chunks| == 1 && chunks[0].rd == 0 && chunks[0].data.Length >= MIN_SIZE
    {
      hide Bytes, Size, Arrays, Behind, Clear, Shape, Extends, Put;
      n := |p|;
      writeCnt := writeCnt + n;
      if chunks == [] || FullyWritten(Last(chunks)) {
        if chunks != [] {
          PutNothing(Last(chunks).data[..]);
        }
        AppendNew(p, guard);
      } else {
        var t := Last(chunks);
        var room := t.data.Length - t.wr;
        var k := if n < room then n else room;
        assert n > 0 ==> k > 0;
        assert p[..k] == Spill(t, p);
        BehindIsClear(guard, chunks, k);
        FillTail(p[..k], guard);
        assert p == p[..k] + p[k..];
        if k < n {
          ghost var grown := chunks;
          AppendNew(p[k..], guard);
          ExtendsTwice(old(chunks), grown, chunks);
          assert old(Content()) + p[..k] + p[k..] == old(Content()) + (p[..k] + p[k..]);
        }
      }
    }

    /** Takes `cnt` bytes off the first chunk and drops the chunk once it is used up. */
    method TakeHead(cnt: nat)
      requires Valid() && chunks != [] && cnt <= chunks[0].wr - chunks[0].rd
      modifies this
      ensures Valid() && writeCnt == old(writeCnt)
      ensures old(Content()) == old(chunks[0].data[chunks[0].rd..chunks[0].rd + cnt]) + Content()
      ensures Drained(old(chunks), chunks)
      ensures var c := old(chunks)[0].(rd := old(chunks)[0].rd + cnt);
              chunks == if FullyRead(c) then old(chunks)[1..] else old(chunks)[0 := c]
    {
      hide Bytes, Size;
      var c := chunks[0].(rd := chunks[0].rd + cnt);
      var rest := if FullyRead(c) then chunks[1..] else chunks[0 := c];
      HeadTaken(chunks, cnt, rest);
      chunks := rest;
      contentSize := contentSize - cnt;
    }

    /** Reads from the first chunk only. */
    method Sip(n: nat) returns (piece: seq<byte>)
      requires Valid() && chunks != [] && chunks[0].wr > chunks[0].rd && n > 0
      modifies this
      ensures Valid() && writeCnt == old(writeCnt) && 0 < |piece| <= n
      ensures old(Content()) == piece + Content() && Drained(old(chunks), chunks)
    {
      hide Bytes, Size, Drained, Shape;
      var c := chunks[0];
      var cnt := if n < c.wr - c.rd then n else c.wr - c.rd;
      piece := c.data[c.rd..c.rd + cnt];
      TakeHead(cnt);
    }

    method Read(n: nat) returns (buf: seq<byte>)
      requires Valid()
      modifies this
      ensures Valid() && writeCnt == old(writeCnt)
      ensures |buf| == if n < |old(Content())| then n else |old(Content())|
      ensures buf + Content() == old(Content())
      ensures Drained(old(chunks), chunks)
    {
      hide Bytes, Size, Drained, Shape, AllOk;
      buf := [];
      DrainedSame(chunks);
      ghost var all := Content();
      while |buf| < n && chunks != [] && chunks[0].wr > chunks[0].rd
        invariant Valid() && |buf| <= n && writeCnt == old(writeCnt)
        invariant buf + Content() == all
        invariant Drained(old(chunks), chunks)
        decreases n - |buf|
      {
        ghost var was := chunks;
        var piece := Sip(n - |buf|);
        DrainedTwice(old(chunks), was, chunks);
        assert buf + (piece + Content()) == buf + piece + Content();
        buf := buf + piece;
      }
      if |buf| < n {
        NothingLeft(chunks);
      }
    }

    method Peek(n: nat) returns (buf: seq<byte>)
      requires Valid()
      ensures |buf| == if n < |Content()| then n else |Content()|
      ensures buf <= Content()
    {
      hide Size, Bytes;
      buf := [];
      var i := 0;
      assert chunks[..0] == [] && Bytes([]) == [] by {
        NothingLeft([]);
      }
      while i < |chunks| && |buf| < n
        invariant 0 <= i <= |chunks| && |buf| <= n
        invariant buf <= Bytes(chunks[..i])
        invariant |buf| < n ==> buf == Bytes(chunks[..i])
      {
        var c := chunks[i];
        var cnt := if n - |buf| < c.wr - c.rd then n - |buf| else c.wr - c.rd;
        assert chunks[..i+1] == chunks[..i] + [c];
        BytesSnoc(chunks[..i], c);
        assert c.data[c.rd..c.wr] == c.data[c.rd..c.rd + cnt] + c.data[c.rd + cnt..c.wr];
        buf := buf + c.data[c.rd..c.rd + cnt];
        i := i + 1;
        if cnt == 0 {
          break;
        }
      }
      BytesPrefix(chunks, i);
      assert i == |chunks| ==> chunks[..i] == chunks;
    }

    /** Makes sure there is room in the last chunk. */
    method MakeRoom(ghost guard: seq<Chunk>)
      requires Valid() && AllOk(guard) && Behind(guard, chunks)
      modifies this
      ensures Valid() && chunks != [] && !FullyWritten(Last(chunks)) && writeCnt == old(writeCnt)
      ensures Content() == old(Content()) && Size(chunks) == Size(old(chunks)) && Extends(old(chunks), chunks)
      ensures forall i | |old(chunks)| <= i < |chunks| :: fresh(chunks[i].data)
      ensures chunks == old(chunks) || fresh(Last(chunks).data)
      ensures Behind(guard, chunks) && Bytes(guard) == old(Bytes(guard))
    {
      hide Bytes, Size, Arrays;
      if chunks == [] || FullyWritten(Last(chunks)) {
        AppendNew([], guard);
        assert Content() == old(Content());
      }
    }

    /** One read into the last chunk. */
    method Gulp(fd: Fd, ghost guard: seq<Chunk>) returns (r: seq<byte>)
      requires Valid() && AllOk(guard) && Behind(guard, chunks)
      modifies this, WriteFrame(), fd`incoming, fd`ready
      ensures Valid() && writeCnt == old(writeCnt) + |r| && old(fd.incoming) == r + fd.incoming
      ensures |r| <= old(fd.ready) && fd.ready == old(fd.ready) - |r|
      ensures r == [] ==> Min(old(fd.ready), |old(fd.incoming)|) == 0
      ensures Content() == old(Content()) + r
      ensures Extends(old(chunks), chunks) && forall i | |old(chunks)| <= i < |chunks| :: fresh(chunks[i].data)
      ensures WriteFrame() == old(WriteFrame()) || fresh(WriteFrame())
      ensures Behind(guard, chunks) && Bytes(guard) == old(Bytes(guard))
    {
      hide Bytes, Size;
      MakeRoom(guard);
      var t := Last(chunks);
      r := fd.Read(t.data.Length - t.wr);
      ghost var before := Content();
      if r != [] {
        BehindIsClear(guard, chunks, |r|);
        FillTail(r, guard);
        writeCnt := writeCnt + |r|;
      }
      assert before + r == Content();
    }

    /** `read_from_fd`: takes all that the descriptor has ready. */
    method ReadFromFd(fd: Fd, ghost guard: seq<Chunk>) returns (n: nat)
      requires Valid() && AllOk(guard) && Behind(guard, chunks)
      modifies this, WriteFrame(), fd`incoming, fd`ready
      ensures Valid() && writeCnt == old(writeCnt) + n && n == Min(old(fd.ready), |old(fd.incoming)|)
      ensures old(fd.incoming) == old(fd.incoming)[..n] + fd.incoming
      ensures Content() == old(Content()) + old(fd.incoming)[..n]
      ensures Extends(old(chunks), chunks) && forall i | |old(chunks)| <= i < |chunks| :: fresh(chunks[i].data)
      ensures Behind(guard, chunks) && Bytes(guard) == old(Bytes(guard))
    {
      hide Bytes, Size, Arrays, Shape, Extends, Behind, AllOk;
      n := 0;
      var more := true;
      ghost var all, start := fd.incoming, Content();
      ExtendsSame(chunks);
      assert start == start + all[..0];
      while more
        invariant Valid() && writeCnt == old(writeCnt) + n && n <= |all| && fd.incoming == all[n..]
        invariant n <= old(fd.ready) && fd.ready == old(fd.ready) - n
        invariant !more ==> Min(fd.ready, |fd.incoming|) == 0
        invariant Content() == start + all[..n]
        invariant Extends(old(chunks), chunks)
        invariant forall i | |old(chunks)| <= i < |chunks| :: fresh(chunks[i].data)
        invariant WriteFrame() == old(WriteFrame()) || fresh(WriteFrame())
        invariant Behind(guard, chunks) && Bytes(guard) == old(Bytes(guard))
        decreases more, |all| - n
      {
        ghost var was := chunks;
        var r := Gulp(fd, guard);
        SameArrays(was, chunks);
        ExtendsTwice(old(chunks), was, chunks);
        AppendSlice(start, all, n, r);
        more := r != [];
        n := n + |r|;
      }
    }

    /** One write from the first chunk. */
    method Emit(fd: Fd) returns (cnt: nat)
      requires Valid() && !Empty()
      modifies this, fd`sent, fd`room
      ensures Valid() && writeCnt == old(writeCnt) && cnt <= |old(Content())|
      ensures fd.sent == old(fd.sent) + old(Content())[..cnt] && Content() == old(Content())[cnt..]
      ensures cnt <= old(fd.room) && fd.room == old(fd.room) - cnt && (cnt == 0 ==> old(fd.room) == 0)
    {
      hide Bytes, Size, Shape;
      EmptyIff();
      NonEmptyHead(chunks);
      var c := chunks[0];
      cnt := fd.Write(c.data[c.rd..c.wr]);
      ghost var out := c.data[c.rd..c.rd + cnt];
      assert c.data[c.rd..c.wr][..cnt] == out;
      TakeHead(cnt);
      assert old(Content()) == out + Content();
    }

    /** `write_to_fd`: hands over as many bytes as the descriptor has room for. */
    method WriteToFd(fd: Fd) returns (n: nat)
      requires Valid()
      modifies this, fd`sent, fd`room
      ensures Valid() && writeCnt == old(writeCnt) && n == Min(old(fd.room), |old(Content())|)
      ensures fd.sent == old(fd.sent) + old(Content())[..n] && Content() == old(Content())[n..]
    {
      hide Bytes, Size, Shape, AllOk;
      n := 0;
      var more := true;
      ghost var all, start := Content(), fd.sent;
      assert start + all[..0] == start;
      while more && !Empty()
        invariant Valid() && writeCnt == old(writeCnt) && n <= |all|
        invariant Content() == all[n..] && fd.sent == start + all[..n]
        invariant n <= old(fd.room) && fd.room == old(fd.room) - n && (!more ==> fd.room == 0)
        decreases more, |all| - n
      {
        var cnt := Emit(fd);
        AppendSlice(start, all, n, all[n..][..cnt]);
        more := cnt > 0;
        n := n + cnt;
      }
      EmptyIff();
    }

    /** Shares up to `want` bytes of the first chunk of `m` without copying them. */
    method ShareHead(m: Marshal, want: nat) returns (cnt: nat)
      requires Valid() && m.Valid() && m != this && 0 < want <= |m.Content()|
      requires chunks == [] || FullyWritten(Last(chunks))
      requires Apart(chunks, m.chunks)
      modifies this, m
      ensures Valid() && m.Valid() && Apart(chunks, m.chunks) && 0 < cnt <= want
      ensures writeCnt == old(writeCnt) + cnt && m.writeCnt == old(m.writeCnt)
      ensures Content() == old(Content()) + old(m.Content())[..cnt] && m.Content() == old(m.Content())[cnt..]
      ensures cnt < want ==> chunks != [] && FullyWritten(Last(chunks))
      ensures Drained(old(m.chunks), m.chunks) && Meets(old(m.chunks), chunks, m.chunks)
    {
      hide Bytes, Size, Shape, Apart, Arrays, Drained, Meets;
      NonEmptyHead(m.chunks);
      var c := m.chunks[0];
      var c' := if want < c.wr - c.rd then c.(wr := c.rd + want) else c;
      cnt := c'.wr - c'.rd;
      MoreThanHead(m.chunks, want);
      NotAmong(chunks, m.chunks);
      ghost var out := c.data[c.rd..c.rd + cnt];
      ghost var mine, theirs := Content(), m.Content();
      Append(c');
      assert m.Content() == theirs;
      ghost var shared := chunks;
      m.TakeHead(cnt);
      assert Content() == mine + out && theirs == out + m.Content();
      assert theirs[..cnt] == out;
      writeCnt := writeCnt + cnt;
      ApartAfterShare(old(chunks), c', old(m.chunks), m.chunks);
      MeetsAfterShare(old(chunks), c', old(m.chunks), m.chunks);
    }

    /** The part of `read_from_marshal` that copies pointers. */
    method ShareAll(m: Marshal, n: nat) returns (got: nat)
      requires Valid() && m.Valid() && m != this && n <= |m.Content()| && Apart(chunks, m.chunks)
      requires chunks == [] || FullyWritten(Last(chunks))
      modifies this, m
      ensures Valid() && m.Valid() && got == n
      ensures Content() == old(Content()) + old(m.Content())[..n] && m.Content() == old(m.Content())[n..]
      ensures writeCnt == old(writeCnt) + n && m.writeCnt == old(m.writeCnt)
      ensures Apart(chunks, m.chunks) && Drained(old(m.chunks), m.chunks)
      ensures n > 0 ==> Meets(old(m.chunks), chunks, m.chunks)
    {
      hide Bytes, Size, Apart, Shape, Arrays, AllOk, Drained, Meets;
      got := 0;
      DrainedSame(m.chunks);
      ghost var start, all := Content(), m.Content();
      assert start + all[..0] == start;
      while got < n
        invariant Valid() && m.Valid() && Apart(chunks, m.chunks) && got <= n <= |all|
        invariant Content() == start + all[..got] && m.Content() == all[got..]
        invariant writeCnt == old(writeCnt) + got && m.writeCnt == old(m.writeCnt)
        invariant Drained(old(m.chunks), m.chunks)
        invariant got < n ==> chunks == [] || FullyWritten(Last(chunks))
        invariant got > 0 ==> Meets(old(m.chunks), chunks, m.chunks)
      {
        ghost var now, was := m.Content(), m.chunks;
        var cnt := ShareHead(m, n - got);
        AppendSlice(start, all, got, now[..cnt]);
        DrainedTwice(old(m.chunks), was, m.chunks);
        MeetsTwice(old(m.chunks), was, chunks, m.chunks);
        got := got + cnt;
      }
    }

    /** The part of `read_from_marshal` that fills up the last chunk. */
    method CopyOver(m: Marshal, k: nat)
      requires Valid() && m.Valid() && m != this && k <= |m.Content()| && Apart(chunks, m.chunks)
      requires chunks != [] && k <= Last(chunks).data.Length - Last(chunks).wr
      modifies this, m, WriteFrame()
      ensures Valid() && m.Valid()
      ensures Content() == old(Content()) + old(m.Content())[..k] && m.Content() == old(m.Content())[k..]
      ensures writeCnt == old(writeCnt) + k && m.writeCnt == old(m.writeCnt)
      ensures Apart(chunks, m.chunks)
      ensures chunks == old(chunks)[|old(chunks)| - 1 := old(Last(chunks)).(wr := old(Last(chunks)).wr + k)]
      ensures Drained(old(m.chunks), m.chunks)
    {
      hide Bytes, Size, Shape, Arrays, Apart, Drained, Clear, Extends, Behind;
      writeCnt := writeCnt + k;
      ghost var mine, theirs := Content(), m.Content();
      var buf := Fetch(m, k);
      FillTail(buf, m.chunks);
      assert theirs[..k] == buf && m.Content() == theirs[k..];
    }

    /** Reads `k` bytes off `m`, after which they can be copied behind this marshal's bytes. */
    method Fetch(m: Marshal, k: nat) returns (buf: seq<byte>)
      requires Valid() && m.Valid() && m != this && k <= |m.Content()| && Apart(chunks, m.chunks) && chunks != []
      modifies m
      ensures Valid() && m.Valid() && m.writeCnt == old(m.writeCnt)
      ensures |buf| == k && buf + m.Content() == old(m.Content())
      ensures Content() == old(Content())
      ensures Clear(m.chunks, chunks, k) && Drained(old(m.chunks), m.chunks)
      ensures var n := |chunks| - 1; Apart(chunks[n := chunks[n].(wr := chunks[n].wr + k)], m.chunks)
    {
      hide Bytes, Size, Shape, Arrays, Apart, Drained, Clear;
      ghost var ms := m.chunks;
      SizeIsLength(ms);
      buf := m.Read(k);
      SizeIsLength(m.chunks);
      ApartAfterRead(chunks, ms, m.chunks, k);
    }

    /** `read_from_marshal`: moves `n` bytes from the front of `m` to the end of this marshal. */
    method ReadFromMarshal(m: Marshal, n: nat) returns (got: nat)
      requires Valid() && m.Valid() && m != this && n <= |m.Content()| && Apart(chunks, m.chunks)
      modifies this, m, WriteFrame()
      ensures Valid() && m.Valid() && got == n
      ensures Content() == old(Content()) + old(m.Content())[..n] && m.Content() == old(m.Content())[n..]
      ensures writeCnt == old(writeCnt) + n && m.writeCnt == old(m.writeCnt)
      ensures Apart(chunks, m.chunks) && Drained(old(m.chunks), m.chunks)
      ensures old(chunks) == [] && n > 0 ==> Meets(old(m.chunks), chunks, m.chunks)
    {
      hide Bytes, Size, Apart, Shape, Arrays, Behind, Drained;
      if chunks == [] || FullyWritten(Last(chunks)) {
        got := ShareAll(m, n);
      } else {
        var room := Last(chunks).data.Length - Last(chunks).wr;
        var k := if room < n then room else n;
        CopyOver(m, k);
        got := k;
        ghost var was := m.chunks;
        if k < n {
          var more := ShareAll(m, n - k);
          got := got + more;
          DrainedTwice(old(m.chunks), was, m.chunks);
        }
        assert old(m.Content())[..n] == old(m.Content())[..k] + old(m.Content())[k..][..n - k];
      }
    }

    /** What a write to this marshal does to the content of another one that it shares an array with. */
    method WriteBeside(m: Marshal, p: seq<byte>)
      requires Valid() && m.Valid() && m != this && Apart(chunks, m.chunks)
      modifies this, WriteFrame()
      ensures Valid() && m.Valid() && Content() == old(Content()) + p
      ensures m.Content() == old(Seen(chunks, m.chunks, p))
    {
      hide Bytes, Size, Shape, Extends, Behind;
      hide Overlaid;
      ghost var cs, ms := chunks, m.chunks;
      NobodyThere(chunks);
      ghost var was, rest := [], [];
      if Shares(cs, ms) {
        WindowsMeet(cs, ms);
        was, rest := ms[0].data[..], Bytes(ms[1..]);
      }
      var n := Write(p, []);
      if Shares(cs, ms) {
        assert Bytes(ms[1..]) == rest;
        BytesOverlaid(ms, was, rest, Last(cs).wr, Spill(Last(cs), p));
      }
    }

    /** Moves the end of the last chunk by one byte. */
    method Bump() returns (slot: Slot)
      requires Valid() && chunks != [] && !FullyWritten(Last(chunks))
      modifies this
      ensures Valid() && writeCnt == old(writeCnt) && Extends(old(chunks), chunks)
      ensures |chunks| == |old(chunks)|
      ensures Last(chunks).data == old(Last(chunks).data) && Last(chunks).wr == old(Last(chunks).wr) + 1
      ensures Size(chunks) == Size(old(chunks)) + 1 && old(Content()) <= Content()
      ensures Size(old(chunks)) >= 0 && slot == Where(chunks, Size(old(chunks)))
    {
      hide Bytes, Size, Shape, Extends, Where;
      var t := Last(chunks);
      slot := Slot(t.data, t.wr);
      TailSplit(chunks, t.(wr := t.wr + 1));
      ghost var front := chunks[..|chunks|-1];
      TailGrown(front, t.(wr := t.wr + 1));
      assert t.data[t.rd..t.wr + 1] == t.data[t.rd..t.wr] + [t.data[t.wr]];
      chunks := chunks[|chunks| - 1 := t.(wr := t.wr + 1)];
      contentSize := contentSize + 1;
      assert chunks == front + [t.(wr := t.wr + 1)];
      LastWhere(chunks);
      GrownExtends(old(chunks), chunks);
    }

    /** Sets one byte aside for later; what it holds meanwhile is arbitrary. */
    method Reserve(ghost guard: seq<Chunk>) returns (slot: Slot)
      requires Valid() && AllOk(guard) && Behind(guard, chunks)
      modifies this
      ensures Valid() && writeCnt == old(writeCnt) && Extends(old(chunks), chunks)
      ensures Size(chunks) == Size(old(chunks)) + 1 && old(Content()) <= Content()
      ensures Size(old(chunks)) >= 0 && slot == Where(chunks, Size(old(chunks)))
      ensures Behind(guard, chunks) && Bytes(guard) == old(Bytes(guard))
      ensures WriteFrame() == old(WriteFrame()) || fresh(WriteFrame())
    {
      hide Bytes, Size, Shape, Extends, Where;
      MakeRoom(guard);
      ghost var roomy := chunks;
      slot := Bump();
      ExtendsTwice(old(chunks), roomy, chunks);
    }

    /** `set_bookmark`: room for `n` bytes at the end of the content. */
    method SetBookmark(n: nat, ghost guard: seq<Chunk>) returns (bm: seq<Slot>)
      requires Valid() && writeCnt == 0 && AllOk(guard) && Behind(guard, chunks)
      modifies this
      ensures Valid() && writeCnt == 0 && Extends(old(chunks), chunks) && |bm| == n
      ensures Size(old(chunks)) >= 0 && Marks(chunks, bm, Size(old(chunks)))
      ensures Size(chunks) == Size(old(chunks)) + n && old(Content()) <= Content()
      ensures Behind(guard, chunks) && Bytes(guard) == old(Bytes(guard))
      ensures WriteFrame() == old(WriteFrame()) || fresh(WriteFrame())
    {
      hide Bytes, Size, Shape, Extends, Behind, AllOk, Marks;
      SizeNat(chunks);
      bm := [];
      ghost var pos := Size(chunks);
      ExtendsSame(chunks);
      NoMarks(chunks, pos);
      var i := 0;
      while i < n
        invariant 0 <= i <= n && |bm| == i && Valid() && writeCnt == 0 && Extends(old(chunks), chunks)
        invariant Size(chunks) == pos + i && Marks(chunks, bm, pos) && old(Content()) <= Content()
        invariant Behind(guard, chunks) && Bytes(guard) == old(Bytes(guard))
        invariant WriteFrame() == old(WriteFrame()) || fresh(WriteFrame())
      {
        ghost var was := chunks;
        var slot := Reserve(guard);
        ExtendsTwice(old(chunks), was, chunks);
        MarkOneMore(was, chunks, bm, pos, slot);
        bm := bm + [slot];
        i := i + 1;
      }
    }

    /** One byte of a bookmark is filled in. */
    method Poke(slot: Slot, b: byte, ghost k: nat)
      requires Valid() && k < Size(chunks) && slot == Where(chunks, k)
      modifies slot.data
      ensures Valid() && |old(Content())| == Size(chunks) && Content() == old(Content())[k := b]
    {
      hide Bytes, Size, Where;
      ghost var was := Content();
      SizeIsLength(chunks);
      forall j | 0 <= j < |was| ensures was[j] == old(Where(chunks, j).data[Where(chunks, j).idx]) {
        ByteAt(chunks, j);
      }
      slot.data[slot.idx] := b;
      SizeIsLength(chunks);
      forall j | 0 <= j < |was| ensures Content()[j] == was[k := b][j] {
        ByteAt(chunks, j);
        if j < k {
          WhereInjective(chunks, j, k);
        } else if k < j {
          WhereInjective(chunks, k, j);
        }
      }
    }

    /** `write_bookmark`: fills in the bytes set aside at `pos`. */
    method WriteBookmark(bm: seq<Slot>, p: seq<byte>, ghost pos: nat)
      requires Valid() && Marks(chunks, bm, pos) && |p| == |bm|
      modifies set i | 0 <= i < |bm| :: bm[i].data
      ensures Valid() && pos + |bm| <= |old(Content())|
      ensures Content() == old(Content())[..pos] + p + old(Content())[pos + |bm|..]
    {
      hide Bytes, Size, Shape, Where;
      SizeIsLength(chunks);
      var i := 0;
      ghost var was := Content();
      while i < |bm|
        invariant 0 <= i <= |bm| && Valid() && |was| == Size(chunks)
        invariant Content() == was[..pos] + p[..i] + was[pos + i..]
      {
        ghost var now := Content();
        Poke(bm[i], p[i], pos + i);
        assert now[pos + i := p[i]] == was[..pos] + p[..i + 1] + was[pos + i + 1..];
        i := i + 1;
      }
      assert p[..i] == p;
    }

    method GetAndResetWriteCnt() returns (n: int)
      requires Valid()
      modifies `writeCnt
      ensures Valid() && n == old(writeCnt) && writeCnt == 0 && Content() == old(Content())
    {
      n := writeCnt;
      writeCnt := 0;
    }
  }

  lemma {:induction false} NobodyThere(cs: seq<Chunk>)
    ensures AllOk([]) && Behind([], cs)
  {
  }

  /**
   The sharing at its worst: `a` and `b` are written, `a` is taken off into a slice, `c` is written to the slice,
   and what is left of the first marshal reads as `c`.
   */
  method Clobber(a: byte, b: byte, c: byte) returns (got: seq<byte>)
    ensures got == [c]
  {
    hide Bytes, Size;
    var m := new Marshal();
    NobodyThere(m.chunks);
    var n := m.Write([a, b], []);
    var slice := new Marshal();
    n := slice.ReadFromMarshal(m, 1);
    assert m.Content() == [b];
    NonEmptyHead(m.chunks);
    SizeIsLength(m.chunks);
    assert |m.chunks| == 1 && Joint(slice.chunks, m.chunks);
    slice.WriteBeside(m, [c]);
    got := m.Read(1);
  }

  /** The slots of a bookmark are where the bytes from `pos` on live. */
  ghost predicate Marks(cs: seq<Chunk>, bm: seq<Slot>, pos: nat) {
    && AllOk(cs) && pos + |bm| <= Size(cs)
    && forall j | 0 <= j < |bm| :: bm[j] == Where(cs, pos + j)
  }

  lemma {:induction false} NoMarks(cs: seq<Chunk>, pos: nat)
    requires AllOk(cs) && pos == Size(cs)
    ensures Marks(cs, [], pos)
  {
  }

  lemma {:induction false} MarkOneMore(cs: seq<Chunk>, cs': seq<Chunk>, bm: seq<Slot>, pos: nat, slot: Slot)
    requires Marks(cs, bm, pos) && AllOk(cs') && Extends(cs, cs') && Size(cs) == pos + |bm| && Size(cs') == Size(cs) + 1
    requires slot == Where(cs', Size(cs))
    ensures Marks(cs', bm + [slot], pos)
  {
    hide Where, Size;
    forall j | 0 <= j < |bm| ensures bm[j] == Where(cs', pos + j) {
      WhereStable(cs, cs', pos + j);
    }
  }

  /** A bookmark outlives later writes. */
  lemma {:induction false} MarksStable(cs: seq<Chunk>, cs': seq<Chunk>, bm: seq<Slot>, pos: nat)
    requires Marks(cs, bm, pos) && AllOk(cs') && Extends(cs, cs') && Size(cs) <= Size(cs')
    ensures Marks(cs', bm, pos)
  {
    hide Where, Size;
    forall j | 0 <= j < |bm| ensures bm[j] == Where(cs', pos + j) {
      WhereStable(cs, cs', pos + j);
    }
  }

  lemma {:induction false} LastWhere(cs: seq<Chunk>)
    requires AllOk(cs) && cs != [] && Last(cs).rd < Last(cs).wr
    ensures Size(cs) >= 1 && Where(cs, Size(cs) - 1) == Slot(Last(cs).data, Last(cs).wr - 1)
  {
    SizeNat(cs[..|cs|-1]);
  }

  lemma {:induction false} GrownExtends(cs: seq<Chunk>, cs': seq<Chunk>)
    requires cs != [] && cs' == cs[|cs| - 1 := Last(cs).(wr := Last(cs).wr + 1)]
    ensures Extends(cs, cs')
  {
  }

  /** Two lists share an array only where the end of the first meets the start of the second. */
  ghost predicate Apart(cs: seq<Chunk>, ms: seq<Chunk>) {
    forall i, j | 0 <= i < |cs| && 0 <= j < |ms| && cs[i].data == ms[j].data ::
      i == |cs| - 1 && j == 0 && cs[i].wr <= ms[0].rd
  }

  /**
   Having taken bytes off `was`, which left `ms`, a marshal with chunks `cs` ends where `ms` starts; only when the
   bytes taken end with a chunk it has that chunk to itself.
   */
  ghost predicate Meets(was: seq<Chunk>, cs: seq<Chunk>, ms: seq<Chunk>) {
    cs != [] && (Joint(cs, ms) || (FullyWritten(Last(cs)) && |ms| < |was|))
  }

  /** `cs` ends in the array, and at the place, where `ms` starts. */
  ghost predicate Joint(cs: seq<Chunk>, ms: seq<Chunk>) {
    cs != [] && ms != [] && Last(cs).data == ms[0].data && Last(cs).wr == ms[0].rd
  }

  lemma {:induction false} MeetsAfterShare(cs: seq<Chunk>, c: Chunk, ms: seq<Chunk>, ms': seq<Chunk>)
    requires ms != [] && c.data == ms[0].data
    requires var h := ms[0].(rd := c.wr); ms' == if FullyRead(h) then ms[1..] else ms[0 := h]
    ensures Meets(ms, cs + [c], ms')
  {
    assert Last(cs + [c]) == c;
  }

  lemma {:induction false} MeetsTwice(a: seq<Chunk>, b: seq<Chunk>, cs: seq<Chunk>, ms: seq<Chunk>)
    requires Meets(b, cs, ms) && Drained(a, b)
    ensures Meets(a, cs, ms)
  {
  }

  /** After `k` bytes have been read off `ms`, there is room for them before what is left of a shared array. */
  lemma {:induction false} ApartAfterRead(cs: seq<Chunk>, ms: seq<Chunk>, ms': seq<Chunk>, k: nat)
    requires Apart(cs, ms) && Shape(ms) && Shape(ms') && Drained(ms, ms') && Size(ms') == Size(ms) - k && cs != []
    ensures Clear(ms', cs, k)
    ensures var n := |cs| - 1; Apart(cs[n := cs[n].(wr := cs[n].wr + k)], ms')
  {
    hide Size, Shape;
    if |ms'| == |ms| && ms != [] {
      HeadAdvance(ms, ms');
    }
    forall i, j | 0 <= i < |cs| && 0 <= j < |ms'| && cs[i].data == ms'[j].data
      ensures i == |cs| - 1 && j == 0 && cs[i].wr + k <= ms'[0].rd
    {
      var j' := j + |ms| - |ms'|;
      assert ms'[j].data == ms[j'].data;
    }
  }

  lemma {:induction false} HeadAdvance(ms: seq<Chunk>, ms': seq<Chunk>)
    requires Shape(ms) && Shape(ms') && Drained(ms, ms') && |ms'| == |ms| && ms != []
    ensures ms'[0].rd - ms[0].rd == Size(ms) - Size(ms')
  {
    hide Size;
    BytesCons(ms);
    BytesCons(ms');
    forall i | 0 <= i < |ms| - 1 ensures ms[1..][i] == ms'[1..][i] {
      assert ms'[i+1].data == ms[i+1].data;
    }
    assert ms[1..] == ms'[1..];
  }

  /** Reading more off the source keeps the two apart. */
  lemma {:induction false} ApartDrained(cs: seq<Chunk>, ms: seq<Chunk>, ms': seq<Chunk>)
    requires Apart(cs, ms) && Drained(ms, ms')
    ensures Apart(cs, ms')
  {
    forall i, j | 0 <= i < |cs| && 0 <= j < |ms'| && cs[i].data == ms'[j].data
      ensures i == |cs| - 1 && j == 0 && cs[i].wr <= ms'[0].rd
    {
      var j' := j + |ms| - |ms'|;
      assert ms'[j].data == ms[j'].data;
    }
  }

  /** An array after `p` was put at position `at`. */
  function Put(was: seq<byte>, at: nat, p: seq<byte>): seq<byte>
    requires at + |p| <= |was|
  {
    was[..at] + p + was[at + |p|..]
  }

  lemma {:induction false} PutNothing(was: seq<byte>)
    ensures Put(was, |was|, []) == was
  {
  }

  /** What of `p` goes into the room left in chunk `t`. */
  function Spill(t: Chunk, p: seq<byte>): seq<byte>
    requires t.wr <= t.data.Length
  {
    if |p| <= t.data.Length - t.wr then p else p[..t.data.Length - t.wr]
  }

  /** `s` with its start overlaid by what of `put` lies beyond the first `gap` bytes, up to `n` bytes. */
  function Overlaid(s: seq<byte>, put: seq<byte>, gap: nat, n: nat): seq<byte>
    requires n <= |s|
  {
    if |put| <= gap then s
    else if |put| - gap <= n then put[gap..] + s[|put| - gap..]
    else put[gap..gap + n] + s[n..]
  }

  /** The first window of `ms` lies in the array that a marshal with chunks `cs` writes to next. */
  ghost predicate Shares(cs: seq<Chunk>, ms: seq<Chunk>) {
    cs != [] && ms != [] && Last(cs).data == ms[0].data
  }

  /** What the owner of `ms` reads after a marshal with chunks `cs` wrote `p`. */
  ghost function Seen(cs: seq<Chunk>, ms: seq<Chunk>, p: seq<byte>): seq<byte>
    requires AllOk(cs) && AllOk(ms) && Apart(cs, ms)
    reads set i | 0 <= i < |ms| :: ms[i].data
  {
    if !Shares(cs, ms) then Bytes(ms)
    else
      BytesCons(ms);
      assert ChunkOk(Last(cs)) && ChunkOk(ms[0]);
      Overlaid(Bytes(ms), Spill(Last(cs), p), ms[0].rd - Last(cs).wr, ms[0].wr - ms[0].rd)
  }

  /** A window after something was put before it, or into it from before. */
  lemma {:induction false} WindowOverlaid(was: seq<byte>, at: nat, put: seq<byte>, rd: nat, wr: nat)
    requires at + |put| <= |was| && at <= rd <= wr <= |was|
    ensures Put(was, at, put)[rd..wr] == Overlaid(was[rd..wr], put, rd - at, wr - rd)
  {
    var gap, n := rd - at, wr - rd;
    var now, s := Put(was, at, put), was[rd..wr];
    assert forall i | at <= i < at + |put| :: now[i] == put[i - at];
    assert forall i | at + |put| <= i < |was| :: now[i] == was[i];
    if |put| > gap {
      var k := if |put| - gap <= n then |put| - gap else n;
      assert now[rd..rd + k] == put[gap..gap + k];
      assert now[rd + k..wr] == was[rd + k..wr] == s[k..];
      assert now[rd..wr] == now[rd..rd + k] + now[rd + k..wr];
    } else {
      assert now[rd..wr] == s;
    }
  }

  /** Where the first window starts, and where the other chunks are. */
  lemma {:induction false} WindowsMeet(cs: seq<Chunk>, ms: seq<Chunk>)
    requires Shape(cs) && Shape(ms) && Apart(cs, ms) && Shares(cs, ms)
    ensures ChunkOk(ms[0]) && ChunkOk(Last(cs)) && Last(cs).wr <= ms[0].rd && AllOk(ms[1..])
    ensures forall i {:trigger ms[1..][i]} | 0 <= i < |ms| - 1 :: ms[1..][i].data != Last(cs).data
    ensures Bytes(ms) == ms[0].data[ms[0].rd..ms[0].wr] + Bytes(ms[1..])
  {
    hide Bytes, Size;
    BytesCons(ms);
    forall i {:trigger ms[1..][i]} | 0 <= i < |ms| - 1 ensures ms[1..][i].data != Last(cs).data {
      assert ms[1..][i] == ms[i+1];
    }
  }

  /** The bytes of `ms` after `put` went into its first array, which was `was`. */
  lemma {:induction false} BytesOverlaid(ms: seq<Chunk>, was: seq<byte>, rest: seq<byte>, at: nat, put: seq<byte>)
    requires ms != [] && AllOk(ms) && at <= ms[0].rd && |was| == ms[0].data.Length && at + |put| <= |was|
    requires ms[0].data[..] == Put(was, at, put) && Bytes(ms[1..]) == rest
    ensures var h := ms[0];
            ChunkOk(h) && Bytes(ms) == Overlaid(was[h.rd..h.wr] + rest, put, h.rd - at, h.wr - h.rd)
  {
    hide Bytes, Size, Overlaid;
    BytesCons(ms);
    var h := ms[0];
    assert ChunkOk(h);
    WindowOverlaid(was, at, put, h.rd, h.wr);
    assert h.data[h.rd..h.wr] == h.data[..][h.rd..h.wr];
    OverlaidLonger(was[h.rd..h.wr], rest, put, h.rd - at, h.wr - h.rd);
  }

  lemma {:induction false} OverlaidLonger(s: seq<byte>, more: seq<byte>, put: seq<byte>, gap: nat, n: nat)
    requires n <= |s|
    ensures Overlaid(s + more, put, gap, n) == Overlaid(s, put, gap, n) + more
  {
    if |put| > gap {
      var k := if |put| - gap <= n then |put| - gap else n;
      assert (s + more)[k..] == s[k..] + more;
      assert Overlaid(s, put, gap, n) == put[gap..gap + k] + s[k..];
      assert Overlaid(s + more, put, gap, n) == put[gap..gap + k] + (s[k..] + more);
    }
  }

  /**
   What the owner of `ms` has left survives whatever a marshal with chunks `cs` writes exactly when the two do not
   share an array in which `ms` still has bytes.
   */
  lemma {:induction false} SurvivesIff(cs: seq<Chunk>, ms: seq<Chunk>)
    requires Shape(cs) && Shape(ms) && Apart(cs, ms)
    ensures (forall p :: Seen(cs, ms, p) == Bytes(ms)) <==> !(Shares(cs, ms) && ms[0].rd < ms[0].wr)
  {
    hide Bytes, Size;
    if Shares(cs, ms) {
      BytesCons(ms);
      var t, h := Last(cs), ms[0];
      assert ChunkOk(t) && ChunkOk(h) && !FullyRead(h) && t.wr <= h.rd;
      if h.rd < h.wr {
        var x: byte := if Bytes(ms)[0] == 0 then 1 else 0;
        var p := seq(h.rd - t.wr + 1, _ => x);
        assert Spill(t, p) == p && p[h.rd - t.wr..] == [x];
        assert Seen(cs, ms, p) == [x] + Bytes(ms)[1..];
        assert Seen(cs, ms, p)[0] != Bytes(ms)[0];
      }
    }
  }

  /** Right after a move that is so exactly when the slice's last chunk has room and the source has bytes left. */
  lemma {:induction false} AfterMove(was: seq<Chunk>, cs: seq<Chunk>, ms: seq<Chunk>)
    requires Shape(cs) && Shape(ms) && Apart(cs, ms) && Meets(was, cs, ms)
    ensures Shares(cs, ms) && ms[0].rd < ms[0].wr <==> !FullyWritten(Last(cs)) && Bytes(ms) != []
  {
    hide Bytes, Size;
    if ms != [] {
      assert !FullyRead(ms[0]) && ChunkOk(ms[0]) && ChunkOk(Last(cs));
    }
    if Bytes(ms) != [] {
      NonEmptyHead(ms);
    }
    if ms != [] && ms[0].rd < ms[0].wr {
      BytesCons(ms);
    }
    assert ms == [] ==> Bytes(ms) == [] by {
      if ms == [] {
        NothingLeft(ms);
      }
    }
  }

  /** Whoever keeps apart this way stays out of the way of later writes. */
  lemma {:induction false} ApartIsBehind(cs: seq<Chunk>, ms: seq<Chunk>)
    requires Apart(cs, ms) && AllOk(cs) && AllOk(ms)
    ensures Behind(cs, ms)
  {
    if ms != [] {
      forall i | 0 <= i < |cs| && cs[i].data == ms[|ms|-1].data ensures cs[i].wr <= ms[|ms|-1].wr {
        assert ChunkOk(ms[0]);
      }
    }
  }

  lemma {:induction false} NotAmong(cs: seq<Chunk>, ms: seq<Chunk>)
    requires Apart(cs, ms) && Shape(cs) && Shape(ms) && ms != [] && (cs == [] || FullyWritten(Last(cs)))
    ensures ms[0].data !in Arrays(cs)
  {
    assert !FullyRead(ms[0]) && ChunkOk(ms[0]);
  }

  /** More is wanted than the first chunk has: then it is full, for others follow it. */
  lemma {:induction false} MoreThanHead(ms: seq<Chunk>, want: nat)
    requires Shape(ms) && ms != [] && want <= |Bytes(ms)|
    ensures want > ms[0].wr - ms[0].rd ==> FullyWritten(ms[0])
  {
    if |ms| == 1 {
      assert ms[..0] == [];
    }
  }

  lemma {:induction false} ApartAfterShare(cs: seq<Chunk>, c: Chunk, ms: seq<Chunk>, ms': seq<Chunk>)
    requires Shape(cs) && Shape(ms) && ms != [] && ms[0].data !in Arrays(cs) && Apart(cs, ms)
    requires cs == [] || FullyWritten(Last(cs))
    requires c.data == ms[0].data && c.rd == ms[0].rd && c.wr <= ms[0].wr
    requires var h := ms[0].(rd := c.wr); ms' == if FullyRead(h) then ms[1..] else ms[0 := h]
    ensures Apart(cs + [c], ms')
  {
    var all := cs + [c];
    forall i, j | 0 <= i < |all| && 0 <= j < |ms'| && all[i].data == ms'[j].data
      ensures i == |all| - 1 && j == 0 && all[i].wr <= ms'[0].rd
    {
      var j' := j + |ms| - |ms'|;
      assert ms'[j].data == ms[j'].data;
    }
  }

  lemma {:induction false} AppendSlice(start: seq<byte>, all: seq<byte>, n: nat, r: seq<byte>)
    requires n <= |all| && r <= all[n..]
    ensures n + |r| <= |all| && start + all[..n] + r == start + all[..n + |r|]
    ensures forall rest | all[n..] == r + rest :: rest == all[n + |r|..]
  {
    assert all[..n + |r|] == all[..n] + r;
    forall rest | all[n..] == r + rest ensures rest == all[n + |r|..] {
      assert rest == all[n..][|r|..];
    }
  }

  lemma {:induction false} NonEmptyHead(cs: seq<Chunk>)
    requires Shape(cs) && Bytes(cs) != []
    ensures cs != [] && cs[0].rd < cs[0].wr <= cs[0].data.Length
  {
    hide Bytes;
    assert cs != [] ==> ChunkOk(cs[0]);
    if cs == [] || cs[0].wr == cs[0].rd {
      NothingLeft(cs);
    }
  }

  /** The last chunk may grow. */
  lemma {:induction false} ShapeTail(front: seq<Chunk>, t: Chunk, t': Chunk)
    requires Shape(front + [t]) && t'.data == t.data && t'.rd == t.rd && t.wr <= t'.wr <= t.data.Length
    ensures Shape(front + [t']) && AllOk(front) && ChunkOk(t) && t.data !in Arrays(front)
  {
    var cs, cs' := front + [t], front + [t'];
    assert cs'[|front|] == t' && cs[|front|] == t;
    forall i | 0 <= i < |front| ensures ChunkOk(front[i]) && front[i].data != t.data && cs'[i] == cs[i] {
      assert front[i] == cs[i];
      assert cs[i].data != cs[|front|].data;
    }
  }

  lemma {:induction false} TailSplit(cs: seq<Chunk>, t': Chunk)
    requires Shape(cs) && cs != []
    requires var t := Last(cs); t'.data == t.data && t'.rd == t.rd && t.wr <= t'.wr <= t.data.Length
    ensures var front, t := cs[..|cs|-1], Last(cs);
            && cs == front + [t] && AllOk(front) && ChunkOk(t) && t.data !in Arrays(front) && Shape(front + [t'])
            && Bytes(cs) == Bytes(front) + t.data[t.rd..t.wr] && Size(cs) == Size(front) + (t.wr - t.rd)
            && Arrays(cs) == Arrays(front) + {t.data}
  {
    hide Bytes, Size;
    var front, t := cs[..|cs|-1], Last(cs);
    assert cs == front + [t];
    ShapeTail(front, t, t');
    BytesSnoc(front, t);
  }

  lemma {:induction false} TailGrown(front: seq<Chunk>, t: Chunk)
    requires Shape(front + [t])
    ensures AllOk(front) && (ChunkOk(t))
    ensures Bytes(front + [t]) == Bytes(front) + t.data[t.rd..t.wr] && Size(front + [t]) == Size(front) + (t.wr - t.rd)
    ensures Arrays(front + [t]) == Arrays(front) + {t.data}
  {
    hide Bytes, Size;
    assert ChunkOk((front + [t])[|front|]);
    ShapeTail(front, t, t);
    BytesSnoc(front, t);
  }

  lemma {:induction false} ShapeHead(cs: seq<Chunk>, cnt: nat)
    requires Shape(cs) && cs != [] && cnt <= cs[0].wr - cs[0].rd
    ensures var c := cs[0].(rd := cs[0].rd + cnt);
            && AllOk(cs) && ChunkOk(cs[0]) && ChunkOk(c) && AllOk(cs[0 := c])
            && Shape(if FullyRead(c) then cs[1..] else cs[0 := c])
  {
  }

  /** The first `cnt` bytes of the first chunk are taken. */
  lemma {:induction false} HeadTaken(cs: seq<Chunk>, cnt: nat, cs': seq<Chunk>)
    requires Shape(cs) && cs != [] && cnt <= cs[0].wr - cs[0].rd
    requires var c := cs[0].(rd := cs[0].rd + cnt); cs' == if FullyRead(c) then cs[1..] else cs[0 := c]
    ensures Shape(cs') && Size(cs') == Size(cs) - cnt
    ensures Bytes(cs) == cs[0].data[cs[0].rd..cs[0].rd + cnt] + Bytes(cs')
  {
    hide Bytes, Size, Shape;
    ShapeHead(cs, cnt);
    BytesCons(cs);
    var c := cs[0].(rd := cs[0].rd + cnt);
    var d, rest := c.data, cs[1..];
    var a, w := d[c.rd - cnt..c.rd], d[c.rd..c.wr];
    assert d[c.rd - cnt..c.wr] == a + w;
    assert a + w + Bytes(rest) == a + (w + Bytes(rest));
    if FullyRead(c) {
      assert w == [] && w + Bytes(rest) == Bytes(rest);
    } else {
      assert cs'[1..] == rest;
      BytesCons(cs');
    }
  }

  /** With nothing in the first chunk there is nothing at all. */
  lemma {:induction false} NothingLeft(cs: seq<Chunk>)
    requires Shape(cs) && (cs == [] || cs[0].wr <= cs[0].rd)
    ensures Bytes(cs) == []
  {
    if cs != [] {
      assert ChunkOk(cs[0]);
      HeadHasBytes(cs);
      assert cs[..0] == [];
    }
  }

  /** Reading drops chunks from the front and may have started on the first one left. */
  ghost predicate Drained(cs: seq<Chunk>, cs': seq<Chunk>) {
    && |cs'| <= |cs|
    && forall i {:trigger cs'[i]} | 0 <= i < |cs'| ::
         var c := cs[|cs| - |cs'| + i];
         cs'[i].data == c.data && cs'[i].wr == c.wr && (if i == 0 then c.rd <= cs'[i].rd else c.rd == cs'[i].rd)
  }

  lemma {:induction false} DrainedSame(cs: seq<Chunk>)
    ensures Drained(cs, cs)
  {
  }

  lemma {:induction false} DrainedTwice(a: seq<Chunk>, b: seq<Chunk>, c: seq<Chunk>)
    requires Drained(a, b) && Drained(b, c)
    ensures Drained(a, c)
  {
    forall i | 0 <= i < |c| ensures c[i].data == a[|a| - |c| + i].data && c[i].wr == a[|a| - |c| + i].wr {
      assert c[i].data == b[|b| - |c| + i].data;
    }
  }
}
