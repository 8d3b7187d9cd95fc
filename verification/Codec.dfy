/**
 How values of nested container types travel in a packet. Fixed-width integers are little-endian
 bit patterns; every string and container starts with its length in eight bytes.
 */
module Codec {
  import opened Basics

  /** Vectors and lists are `TSeq`; ordered and unordered sets and maps are `TSet` and `TMap`. */
  datatype Ty = TInt(width: nat) | TStr | TPair(a: Ty, b: Ty) | TSeq(e: Ty) | TSet(e: Ty) | TMap(k: Ty, v: Ty)

  /** A value as its owner walks through it: the elements of a set or map come in some order. */
  datatype Walk =
    | WInt(n: nat)
    | WStr(s: seq<byte>)
    | WPair(a: Walk, b: Walk)
    | WSeq(es: seq<Walk>)
    | WSet(es: seq<Walk>)
    | WMap(ks: seq<Walk>, vs: seq<Walk>)

  /** A value as such. */
  datatype Val =
    | VInt(n: nat)
    | VStr(s: seq<byte>)
    | VPair(a: Val, b: Val)
    | VSeq(es: seq<Val>)
    | VSet(members: set<Val>)
    | VMap(m: map<Val, Val>)

  /** How deeply a type is nested. */
  function Rank(t: Ty): nat {
    match t
    case TInt(_) => 0
    case TStr => 0
    case TPair(a, b) => Rank(a) + Rank(b) + 1
    case TSeq(e) => Rank(e) + 1
    case TSet(e) => Rank(e) + 1
    case TMap(k, v) => Rank(k) + Rank(v) + 2
  }

  ghost predicate HasType(w: Walk, t: Ty)
    decreases t
  {
    match t
    case TInt(width) => w.WInt? && w.n < Pow256(width)
    case TStr => w.WStr? && |w.s| < LIMIT
    case TPair(a, b) => w.WPair? && HasType(w.a, a) && HasType(w.b, b)
    case TSeq(e) => w.WSeq? && |w.es| < LIMIT && forall i | 0 <= i < |w.es| :: HasType(w.es[i], e)
    case TSet(e) => w.WSet? && |w.es| < LIMIT && forall i | 0 <= i < |w.es| :: HasType(w.es[i], e)
    case TMap(k, v) =>
      && w.WMap? && |w.ks| == |w.vs| < LIMIT
      && (forall i | 0 <= i < |w.ks| :: HasType(w.ks[i], k)) && (forall i | 0 <= i < |w.vs| :: HasType(w.vs[i], v))
  }

  function SetOf(es: seq<Val>): set<Val> {
    set x | x in es
  }

  /** Pairs inserted one after the other; the first value of a key stays. */
  function MapOf(ks: seq<Val>, vs: seq<Val>): map<Val, Val>
    requires |ks| == |vs|
  {
    if ks == [] then map[]
    else
      var n := |ks| - 1;
      var m := MapOf(ks[..n], vs[..n]);
      if ks[n] in m then m else m[ks[n] := vs[n]]
  }

  /** The value that was walked through. */
  function Meaning(w: Walk): Val
    decreases w, 0
  {
    match w
    case WInt(n) => VInt(n)
    case WStr(s) => VStr(s)
    case WPair(a, b) => VPair(Meaning(a), Meaning(b))
    case WSeq(es) => VSeq(Meanings(es))
    case WSet(es) => VSet(SetOf(Meanings(es)))
    case WMap(ks, vs) =>
      var a, b := Meanings(ks), Meanings(vs);
      if |a| == |b| then VMap(MapOf(a, b)) else VMap(map[])
  }

  function Meanings(es: seq<Walk>): (r: seq<Val>)
    ensures |r| == |es|
    decreases es, 1
  {
    if es == [] then [] else Meanings(es[..|es|-1]) + [Meaning(es[|es|-1])]
  }

  // ---------- writing ----------

  function Encode(t: Ty, w: Walk): seq<byte>
    requires HasType(w, t)
    decreases Rank(t), 0, 0
  {
    match t
    case TInt(width) => Le(w.n, width)
    case TStr => Le(|w.s|, 8) + w.s
    case TPair(a, b) => Encode(a, w.a) + Encode(b, w.b)
    case TSeq(e) => Le(|w.es|, 8) + EncodeAll(e, w.es)
    case TSet(e) => Le(|w.es|, 8) + EncodeAll(e, w.es)
    case TMap(k, v) => Le(|w.ks|, 8) + EncodePairs(k, v, w.ks, w.vs)
  }

  function EncodeAll(e: Ty, es: seq<Walk>): seq<byte>
    requires forall i | 0 <= i < |es| :: HasType(es[i], e)
    decreases Rank(e), 1, |es|
  {
    if es == [] then [] else EncodeAll(e, es[..|es|-1]) + Encode(e, es[|es|-1])
  }

  function EncodePairs(k: Ty, v: Ty, ks: seq<Walk>, vs: seq<Walk>): seq<byte>
    requires |ks| == |vs|
    requires (forall i | 0 <= i < |ks| :: HasType(ks[i], k)) && (forall i | 0 <= i < |vs| :: HasType(vs[i], v))
    decreases Rank(k) + Rank(v) + 1, 1, |ks|
  {
    if ks == [] then []
    else
      var n := |ks| - 1;
      EncodePairs(k, v, ks[..n], vs[..n]) + (Encode(k, ks[n]) + Encode(v, vs[n]))
  }

  // ---------- reading ----------

  function Decode(t: Ty, s: seq<byte>): (r: Option<(Val, seq<byte>)>)
    decreases Rank(t), 0, 0
  {
    match t
    case TInt(width) => if |s| < width then None else Some((VInt(FromLe(s[..width])), s[width..]))
    case TStr =>
      if |s| < 8 then None
      else
        var n := FromLe(s[..8]);
        if |s| < 8 + n then None else Some((VStr(s[8..8 + n]), s[8 + n..]))
    case TPair(a, b) =>
      var x := Decode(a, s);
      if x.None? then None
      else
        var y := Decode(b, x.value.1);
        if y.None? then None else Some((VPair(x.value.0, y.value.0), y.value.1))
    case TSeq(e) =>
      if |s| < 8 then None
      else
        var r := DecodeN(e, FromLe(s[..8]), s[8..]);
        if r.None? then None else Some((VSeq(r.value.0), r.value.1))
    case TSet(e) =>
      if |s| < 8 then None
      else
        var r := DecodeN(e, FromLe(s[..8]), s[8..]);
        if r.None? then None else Some((VSet(SetOf(r.value.0)), r.value.1))
    case TMap(k, v) =>
      if |s| < 8 then None
      else
        var r := DecodePairs(k, v, FromLe(s[..8]), s[8..]);
        if r.None? then None else Some((VMap(MapOf(r.value.0, r.value.1)), r.value.2))
  }

  function DecodeN(e: Ty, n: nat, s: seq<byte>): (r: Option<(seq<Val>, seq<byte>)>)
    ensures r.Some? ==> |r.value.0| == n
    decreases Rank(e), 1, n
  {
    if n == 0 then Some(([], s))
    else
      var front := DecodeN(e, n - 1, s);
      if front.None? then None
      else
        var x := Decode(e, front.value.1);
        if x.None? then None else Some((front.value.0 + [x.value.0], x.value.1))
  }

  function DecodePairs(k: Ty, v: Ty, n: nat, s: seq<byte>): (r: Option<(seq<Val>, seq<Val>, seq<byte>)>)
    ensures r.Some? ==> |r.value.0| == n && |r.value.1| == n
    decreases Rank(k) + Rank(v) + 1, 1, n
  {
    if n == 0 then Some(([], [], s))
    else
      var front := DecodePairs(k, v, n - 1, s);
      if front.None? then None
      else
        var x := Decode(k, front.value.2);
        if x.None? then None
        else
          var y := Decode(v, x.value.1);
          if y.None? then None else Some((front.value.0 + [x.value.0], front.value.1 + [y.value.0], y.value.1))
  }

  // ---------- round trip ----------

  /** The length at the front of an encoding. */
  lemma {:induction false} LengthFirst(n: nat, s: seq<byte>)
    requires n < LIMIT
    ensures var r := Le(n, 8) + s; |r| >= 8 && FromLe(r[..8]) == n && r[8..] == s
  {
    hide Pow256, Le, FromLe;
    SizeFits(n);
    LeRoundTrip(n, 8);
    assert (Le(n, 8) + s)[..8] == Le(n, 8);
  }

  /** Whatever follows, decoding gives back the value and exactly what follows. */
  lemma {:induction false} RoundTrip(t: Ty, w: Walk, s: seq<byte>)
    requires HasType(w, t)
    ensures Decode(t, Encode(t, w) + s) == Some((Meaning(w), s))
    decreases Rank(t), 0, 0
  {
    hide Le, FromLe, Pow256, EncodeAll, EncodePairs, DecodeN, DecodePairs, MapOf, SetOf;
    match t
    case TInt(width) =>
      LeRoundTrip(w.n, width);
      assert (Le(w.n, width) + s)[..width] == Le(w.n, width) && (Le(w.n, width) + s)[width..] == s;
    case TStr =>
      LengthFirst(|w.s|, w.s + s);
      assert Encode(t, w) + s == Le(|w.s|, 8) + (w.s + s);
    case TPair(a, b) =>
      assert Encode(t, w) + s == Encode(a, w.a) + (Encode(b, w.b) + s);
      RoundTrip(a, w.a, Encode(b, w.b) + s);
      RoundTrip(b, w.b, s);
    case TSeq(e) =>
      var body := EncodeAll(e, w.es);
      assert Encode(t, w) + s == Le(|w.es|, 8) + (body + s);
      LengthFirst(|w.es|, body + s);
      RoundTripAll(e, w.es, s);
    case TSet(e) =>
      var body := EncodeAll(e, w.es);
      assert Encode(t, w) + s == Le(|w.es|, 8) + (body + s);
      LengthFirst(|w.es|, body + s);
      RoundTripAll(e, w.es, s);
    case TMap(k, v) =>
      var body := EncodePairs(k, v, w.ks, w.vs);
      assert Encode(t, w) + s == Le(|w.ks|, 8) + (body + s);
      LengthFirst(|w.ks|, body + s);
      RoundTripPairs(k, v, w.ks, w.vs, s);
  }

  lemma {:induction false} RoundTripAll(e: Ty, es: seq<Walk>, s: seq<byte>)
    requires forall i | 0 <= i < |es| :: HasType(es[i], e)
    ensures DecodeN(e, |es|, EncodeAll(e, es) + s) == Some((Meanings(es), s))
    decreases Rank(e), 1, |es|
  {
    hide Encode, Decode, HasType, Meaning;
    if es == [] {
      assert EncodeAll(e, es) + s == s;
    } else {
      var n := |es| - 1;
      var last := Encode(e, es[n]);
      RoundTripAll(e, es[..n], last + s);
      assert EncodeAll(e, es) + s == EncodeAll(e, es[..n]) + (last + s);
      RoundTrip(e, es[n], s);
    }
  }

  lemma {:induction false} EncodePairsLast(k: Ty, v: Ty, ks: seq<Walk>, vs: seq<Walk>)
    requires |ks| == |vs|
    requires (forall i | 0 <= i < |ks| :: HasType(ks[i], k)) && (forall i | 0 <= i < |vs| :: HasType(vs[i], v))
    ensures var n := |ks| - 1;
            ks != [] ==>
              EncodePairs(k, v, ks, vs) == EncodePairs(k, v, ks[..n], vs[..n]) + (Encode(k, ks[n]) + Encode(v, vs[n]))
    ensures ks == [] ==> EncodePairs(k, v, ks, vs) == []
  {
    hide Encode;
  }

  lemma {:induction false} DecodePairsLast(k: Ty, v: Ty, n: nat, s: seq<byte>, xs: seq<Val>, ys: seq<Val>,
                                           s1: seq<byte>, x: Val, s2: seq<byte>, y: Val, s3: seq<byte>)
    requires DecodePairs(k, v, n, s) == Some((xs, ys, s1))
    requires Decode(k, s1) == Some((x, s2)) && Decode(v, s2) == Some((y, s3))
    ensures DecodePairs(k, v, n + 1, s) == Some((xs + [x], ys + [y], s3))
  {
    hide Decode;
  }

  lemma {:induction false} Regroup(x: seq<byte>, a: seq<byte>, b: seq<byte>, s: seq<byte>)
    ensures x + (a + b) + s == x + (a + (b + s))
  {
  }

  lemma {:induction false} RoundTripPairs(k: Ty, v: Ty, ks: seq<Walk>, vs: seq<Walk>, s: seq<byte>)
    requires |ks| == |vs|
    requires (forall i | 0 <= i < |ks| :: HasType(ks[i], k)) && (forall i | 0 <= i < |vs| :: HasType(vs[i], v))
    ensures DecodePairs(k, v, |ks|, EncodePairs(k, v, ks, vs) + s) == Some((Meanings(ks), Meanings(vs), s))
    decreases Rank(k) + Rank(v) + 1, 1, |ks|
  {
    hide Encode, Decode, HasType, Meaning;
    if ks == [] {
      assert EncodePairs(k, v, ks, vs) + s == s;
    } else {
      hide EncodePairs, DecodePairs;
      var n := |ks| - 1;
      var a, b, front := Encode(k, ks[n]), Encode(v, vs[n]), EncodePairs(k, v, ks[..n], vs[..n]);
      EncodePairsLast(k, v, ks, vs);
      RoundTripPairs(k, v, ks[..n], vs[..n], a + (b + s));
      Regroup(front, a, b, s);
      RoundTrip(k, ks[n], b + s);
      RoundTrip(v, vs[n], s);
      DecodePairsLast(k, v, n, front + (a + (b + s)), Meanings(ks[..n]), Meanings(vs[..n]), a + (b + s),
                      Meaning(ks[n]), b + s, Meaning(vs[n]), s);
    }
  }

  // ---------- the wire format, said without the encoder ----------

  /** `s` is how `w` travels: lengths and integers low byte first, parts one behind the other from the front. */
  ghost predicate Laid(t: Ty, w: Walk, s: seq<byte>)
    decreases Rank(t), 0, 0
  {
    match t
    case TInt(width) => w.WInt? && Digits(w.n, s, width)
    case TStr => w.WStr? && |s| >= 8 && Digits(|w.s|, s[..8], 8) && s[8..] == w.s
    case TPair(a, b) => w.WPair? && exists c :: 0 <= c <= |s| && Laid(a, w.a, s[..c]) && Laid(b, w.b, s[c..])
    case TSeq(e) => w.WSeq? && |s| >= 8 && Digits(|w.es|, s[..8], 8) && LaidAll(e, w.es, s[8..])
    case TSet(e) => w.WSet? && |s| >= 8 && Digits(|w.es|, s[..8], 8) && LaidAll(e, w.es, s[8..])
    case TMap(k, v) => w.WMap? && |s| >= 8 && Digits(|w.ks|, s[..8], 8) && LaidPairs(k, v, w.ks, w.vs, s[8..])
  }

  ghost predicate LaidAll(e: Ty, es: seq<Walk>, s: seq<byte>)
    decreases Rank(e), 1, |es|
  {
    if es == [] then s == []
    else exists c :: 0 <= c <= |s| && Laid(e, es[0], s[..c]) && LaidAll(e, es[1..], s[c..])
  }

  /** Key, value, key, value. */
  ghost predicate LaidPairs(k: Ty, v: Ty, ks: seq<Walk>, vs: seq<Walk>, s: seq<byte>)
    decreases Rank(k) + Rank(v) + 1, |ks|, 1
  {
    if ks == [] || vs == [] then ks == [] && vs == [] && s == []
    else exists c, d :: LaidEntry(k, v, ks, vs, s, c, d)
  }

  ghost predicate LaidEntry(k: Ty, v: Ty, ks: seq<Walk>, vs: seq<Walk>, s: seq<byte>, c: int, d: int)
    requires ks != [] && vs != []
    decreases Rank(k) + Rank(v) + 1, |ks|, 0
  {
    && 0 <= c <= d <= |s| && Laid(k, ks[0], s[..c]) && Laid(v, vs[0], s[c..d])
    && LaidPairs(k, v, ks[1..], vs[1..], s[d..])
  }

  /** The encoder writes the wire format. */
  lemma {:induction false} EncodeLaid(t: Ty, w: Walk)
    requires HasType(w, t)
    ensures Laid(t, w, Encode(t, w))
    decreases Rank(t), 0, 0
  {
    hide Le, Digits, EncodeAll, EncodePairs, LaidAll, LaidPairs;
    match t
    case TInt(width) => LeDigits(w.n, width);
    case TStr => LengthLaid(|w.s|, w.s);
    case TPair(a, b) =>
      EncodeLaid(a, w.a);
      EncodeLaid(b, w.b);
      var s, c := Encode(t, w), |Encode(a, w.a)|;
      assert s[..c] == Encode(a, w.a) && s[c..] == Encode(b, w.b);
    case TSeq(e) =>
      LengthLaid(|w.es|, EncodeAll(e, w.es));
      AllLaid(e, w.es);
    case TSet(e) =>
      LengthLaid(|w.es|, EncodeAll(e, w.es));
      AllLaid(e, w.es);
    case TMap(k, v) =>
      LengthLaid(|w.ks|, EncodePairs(k, v, w.ks, w.vs));
      PairsLaid(k, v, w.ks, w.vs);
  }

  lemma {:induction false} LengthLaid(n: nat, body: seq<byte>)
    ensures var s := Le(n, 8) + body; Digits(n, s[..8], 8) && s[8..] == body
  {
    hide Digits, Le;
    LeDigits(n, 8);
    assert (Le(n, 8) + body)[..8] == Le(n, 8);
  }

  lemma {:induction false} AllLaid(e: Ty, es: seq<Walk>)
    requires forall i | 0 <= i < |es| :: HasType(es[i], e)
    ensures LaidAll(e, es, EncodeAll(e, es))
    decreases Rank(e), 1, |es|
  {
    hide Laid, Encode, HasType;
    if es != [] {
      var n := |es| - 1;
      AllLaid(e, es[..n]);
      EncodeLaid(e, es[n]);
      LaidSnoc(e, es[..n], es[n], EncodeAll(e, es[..n]), Encode(e, es[n]));
      assert es[..n] + [es[n]] == es;
    }
  }

  lemma {:induction false} LaidSnoc(e: Ty, es: seq<Walk>, x: Walk, s: seq<byte>, r: seq<byte>)
    requires LaidAll(e, es, s) && Laid(e, x, r)
    ensures LaidAll(e, es + [x], s + r)
    decreases |es|
  {
    hide Laid;
    var all := es + [x];
    if es == [] {
      assert s + r == r && r[..|r|] == r && r[|r|..] == [];
      assert all[0] == x && all[1..] == [] && LaidAll(e, [], r[|r|..]);
    } else {
      var c :| 0 <= c <= |s| && Laid(e, es[0], s[..c]) && LaidAll(e, es[1..], s[c..]);
      LaidSnoc(e, es[1..], x, s[c..], r);
      assert all[0] == es[0] && all[1..] == es[1..] + [x];
      assert (s + r)[..c] == s[..c] && (s + r)[c..] == s[c..] + r;
    }
  }

  lemma {:induction false} PairsLaid(k: Ty, v: Ty, ks: seq<Walk>, vs: seq<Walk>)
    requires |ks| == |vs|
    requires (forall i | 0 <= i < |ks| :: HasType(ks[i], k)) && (forall i | 0 <= i < |vs| :: HasType(vs[i], v))
    ensures LaidPairs(k, v, ks, vs, EncodePairs(k, v, ks, vs))
    decreases Rank(k) + Rank(v) + 1, 1, |ks|
  {
    hide Laid, Encode, HasType;
    EncodePairsLast(k, v, ks, vs);
    if ks != [] {
      hide EncodePairs, LaidPairs;
      var n := |ks| - 1;
      PairsLaid(k, v, ks[..n], vs[..n]);
      EncodeLaid(k, ks[n]);
      EncodeLaid(v, vs[n]);
      EntrySnoc(k, v, ks[..n], vs[..n], EncodePairs(k, v, ks[..n], vs[..n]), ks[n], Encode(k, ks[n]), vs[n],
                Encode(v, vs[n]));
      assert ks[..n] + [ks[n]] == ks && vs[..n] + [vs[n]] == vs;
    }
  }

  lemma {:induction false} EntrySnoc(k: Ty, v: Ty, ks: seq<Walk>, vs: seq<Walk>, s: seq<byte>,
                                     x: Walk, a: seq<byte>, y: Walk, b: seq<byte>)
    requires LaidPairs(k, v, ks, vs, s) && Laid(k, x, a) && Laid(v, y, b)
    ensures LaidPairs(k, v, ks + [x], vs + [y], s + (a + b))
    decreases |ks|
  {
    hide Laid;
    var all, r := s + (a + b), a + b;
    if ks == [] {
      assert all == r && r[..|a|] == a && r[|a|..|r|] == b && r[|r|..] == [];
      assert ([] + [x])[1..] == [] && ([] + [y])[1..] == [];
      assert LaidEntry(k, v, ks + [x], vs + [y], all, |a|, |r|);
    } else {
      var c, d :| LaidEntry(k, v, ks, vs, s, c, d);
      EntrySnoc(k, v, ks[1..], vs[1..], s[d..], x, a, y, b);
      assert (ks + [x])[1..] == ks[1..] + [x] && (vs + [y])[1..] == vs[1..] + [y];
      assert all[..c] == s[..c] && all[c..d] == s[c..d] && all[d..] == s[d..] + (a + b);
      assert LaidEntry(k, v, ks + [x], vs + [y], all, c, d);
    }
  }

  // ---------- the order of a walk does not matter ----------

  /** Two walks through the same set, in whatever order, decode to that set. */
  lemma {:induction false} SetOrder(e: Ty, es: seq<Walk>, members: set<Val>, s: seq<byte>)
    requires HasType(WSet(es), TSet(e)) && forall x :: x in Meanings(es) <==> x in members
    ensures Decode(TSet(e), Encode(TSet(e), WSet(es)) + s) == Some((VSet(members), s))
  {
    hide Decode, Encode;
    RoundTrip(TSet(e), WSet(es), s);
    assert SetOf(Meanings(es)) == members;
  }

  /** `ks` and `vs` go through the entries of `m`, in some order, each once. */
  ghost predicate Enumerates(ks: seq<Val>, vs: seq<Val>, m: map<Val, Val>) {
    && |ks| == |vs|
    && (forall i, j | 0 <= i < j < |ks| :: ks[i] != ks[j])
    && (forall i | 0 <= i < |ks| :: ks[i] in m && m[ks[i]] == vs[i])
    && (forall x | x in m :: x in ks)
  }

  lemma {:induction false} MapOfEntries(ks: seq<Val>, vs: seq<Val>, x: Val)
    requires |ks| == |vs| && forall i, j | 0 <= i < j < |ks| :: ks[i] != ks[j]
    ensures x in MapOf(ks, vs) <==> x in ks
    ensures forall i | 0 <= i < |ks| && ks[i] == x :: x in MapOf(ks, vs) && MapOf(ks, vs)[x] == vs[i]
  {
    if ks != [] {
      var n := |ks| - 1;
      MapOfEntries(ks[..n], vs[..n], x);
      MapOfEntries(ks[..n], vs[..n], ks[n]);
      assert ks == ks[..n] + [ks[n]];
      assert ks[n] !in ks[..n];
    }
  }

  lemma {:induction false} MapOrder(k: Ty, v: Ty, ks: seq<Walk>, vs: seq<Walk>, m: map<Val, Val>, s: seq<byte>)
    requires HasType(WMap(ks, vs), TMap(k, v)) && Enumerates(Meanings(ks), Meanings(vs), m)
    ensures Decode(TMap(k, v), Encode(TMap(k, v), WMap(ks, vs)) + s) == Some((VMap(m), s))
  {
    hide Decode, Encode, MapOf;
    RoundTrip(TMap(k, v), WMap(ks, vs), s);
    var a, b := Meanings(ks), Meanings(vs);
    forall x ensures x in MapOf(a, b) <==> x in m {
      MapOfEntries(a, b, x);
    }
    forall x | x in m ensures MapOf(a, b)[x] == m[x] {
      MapOfEntries(a, b, x);
      var i :| 0 <= i < |a| && a[i] == x;
    }
    assert MapOf(a, b) == m;
  }
}

/** The packet marshal as implemented: a buffer and one offset for writing and reading. */
module TransportMarshal {
  import opened Basics
  import opened Codec

  class TransportMarshal {
    const buf: array<byte>
    var offset: nat

    ghost predicate Valid()
      reads this
    {
      offset <= buf.Length
    }

    /** What is left to be read. */
    ghost function Rest(): seq<byte>
      requires Valid()
      reads this, buf
    {
      buf[offset..]
    }

    constructor (buf: array<byte>, offset: nat)
      requires offset <= buf.Length
      ensures Valid() && this.buf == buf && this.offset == offset
    {
      this.buf, this.offset := buf, offset;
    }

    method Write(p: seq<byte>)
      requires Valid() && offset + |p| <= buf.Length
      modifies this, buf
      ensures Valid() && offset == old(offset) + |p|
      ensures buf[..offset] == old(buf[..offset]) + p && buf[offset..] == old(buf[offset + |p|..])
    {
      forall i | 0 <= i < |p| {
        buf[offset + i] := p[i];
      }
      offset := offset + |p|;
    }

    method Read(n: nat) returns (p: seq<byte>)
      requires Valid() && offset + n <= buf.Length
      modifies this
      ensures Valid() && p == old(Rest())[..n] && Rest() == old(Rest())[n..]
    {
      p := buf[offset..offset + n];
      offset := offset + n;
    }

    /** Every `<<`: writes the encoding of a value. */
    method Put(t: Ty, w: Walk)
      requires Valid() && HasType(w, t) && offset + |Encode(t, w)| <= buf.Length
      modifies this, buf
      ensures Valid() && offset == old(offset) + |Encode(t, w)|
      ensures buf[..offset] == old(buf[..offset]) + Encode(t, w)
      decreases Rank(t), 0
    {
      hide Le, EncodeAll, EncodePairs;
      match t {
        case TInt(width) =>
          Write(Le(w.n, width));
        case TStr =>
          PutStr(w.s);
        case TPair(a, b) =>
          Put(a, w.a);
          Put(b, w.b);
        case TSeq(e) =>
          Write(Le(|w.es|, 8));
          PutAll(e, w.es);
        case TSet(e) =>
          Write(Le(|w.es|, 8));
          PutAll(e, w.es);
        case TMap(k, v) =>
          Write(Le(|w.ks|, 8));
          PutPairs(k, v, w.ks, w.vs);
      }
    }

    method PutStr(s: seq<byte>)
      requires Valid() && offset + 8 + |s| <= buf.Length
      modifies this, buf
      ensures Valid() && offset == old(offset) + 8 + |s|
      ensures buf[..offset] == old(buf[..offset]) + (Le(|s|, 8) + s)
    {
      hide Le;
      Write(Le(|s|, 8));
      if |s| > 0 {
        Write(s);
      }
    }

    method PutAll(e: Ty, es: seq<Walk>)
      requires Valid() && (forall i | 0 <= i < |es| :: HasType(es[i], e)) && offset + |EncodeAll(e, es)| <= buf.Length
      modifies this, buf
      ensures Valid() && offset == old(offset) + |EncodeAll(e, es)|
      ensures buf[..offset] == old(buf[..offset]) + EncodeAll(e, es)
      decreases Rank(e), 1
    {
      hide Encode, HasType, EncodeAll;
      var i := 0;
      EncodeAllNone(e, es);
      while i < |es|
        invariant 0 <= i <= |es| && Valid() && offset == old(offset) + |EncodeAll(e, es[..i])|
        invariant buf[..offset] == old(buf[..offset]) + EncodeAll(e, es[..i])
      {
        EncodeAllStep(e, es, i);
        EncodeAllPrefix(e, es, i + 1);
        Put(e, es[i]);
        i := i + 1;
      }
      assert es[..i] == es;
    }

    method PutPair(k: Ty, v: Ty, a: Walk, b: Walk)
      requires Valid() && HasType(a, k) && HasType(b, v) && offset + |Encode(k, a) + Encode(v, b)| <= buf.Length
      modifies this, buf
      ensures Valid() && offset == old(offset) + |Encode(k, a) + Encode(v, b)|
      ensures buf[..offset] == old(buf[..offset]) + (Encode(k, a) + Encode(v, b))
      decreases Rank(k) + Rank(v) + 1, 0
    {
      hide Encode, HasType;
      Put(k, a);
      Put(v, b);
    }

    method PutPairs(k: Ty, v: Ty, ks: seq<Walk>, vs: seq<Walk>)
      requires Valid() && |ks| == |vs|
      requires (forall i | 0 <= i < |ks| :: HasType(ks[i], k)) && (forall i | 0 <= i < |vs| :: HasType(vs[i], v))
      requires offset + |EncodePairs(k, v, ks, vs)| <= buf.Length
      modifies this, buf
      ensures Valid() && offset == old(offset) + |EncodePairs(k, v, ks, vs)|
      ensures buf[..offset] == old(buf[..offset]) + EncodePairs(k, v, ks, vs)
      decreases Rank(k) + Rank(v) + 1, 1
    {
      hide Encode, HasType, EncodePairs;
      var i := 0;
      EncodePairsLast(k, v, [], []);
      assert ks[..0] == [] && vs[..0] == [];
      while i < |ks|
        invariant 0 <= i <= |ks| && Valid() && offset == old(offset) + |EncodePairs(k, v, ks[..i], vs[..i])|
        invariant buf[..offset] == old(buf[..offset]) + EncodePairs(k, v, ks[..i], vs[..i])
      {
        EncodePairsStep(k, v, ks, vs, i);
        EncodePairsPrefix(k, v, ks, vs, i + 1);
        PutPair(k, v, ks[i], vs[i]);
        i := i + 1;
      }
      assert ks[..i] == ks && vs[..i] == vs;
    }

    /** Every `>>`: reads a value off the packet. */
    method Get(t: Ty) returns (v: Val)
      requires Valid() && Decode(t, Rest()).Some?
      modifies this
      ensures Valid() && Decode(t, old(Rest())) == Some((v, Rest()))
      decreases Rank(t), 0
    {
      hide FromLe, DecodeN, DecodePairs, MapOf, SetOf;
      match t {
        case TInt(width) =>
          var p := Read(width);
          v := VInt(FromLe(p));
        case TStr =>
          ghost var all := Rest();
          var p := Read(8);
          var n := FromLe(p);
          assert all[8..][..n] == all[8..8 + n] && all[8..][n..] == all[8 + n..];
          var s := [];
          if n > 0 {
            s := Read(n);
          }
          v := VStr(s);
        case TPair(a, b) =>
          var x := Get(a);
          var y := Get(b);
          v := VPair(x, y);
        case TSeq(e) =>
          var p := Read(8);
          var es := GetN(e, FromLe(p));
          v := VSeq(es);
        case TSet(e) =>
          var p := Read(8);
          var es := GetN(e, FromLe(p));
          v := VSet(SetOf(es));
        case TMap(k, u) =>
          var p := Read(8);
          var m := GetPairs(k, u, FromLe(p));
          v := VMap(m);
      }
    }

    method GetN(e: Ty, n: nat) returns (es: seq<Val>)
      requires Valid() && DecodeN(e, n, Rest()).Some?
      modifies this
      ensures Valid() && DecodeN(e, n, old(Rest())) == Some((es, Rest()))
      decreases Rank(e), 1
    {
      hide Decode;
      es := [];
      var i := 0;
      while i < n
        invariant 0 <= i <= n && Valid() && DecodeN(e, i, old(Rest())) == Some((es, Rest()))
      {
        DecodeNMore(e, i + 1, n, old(Rest()));
        var x := Get(e);
        es := es + [x];
        i := i + 1;
      }
    }

    /** Entries are inserted as they come. */
    method GetPairs(k: Ty, u: Ty, n: nat) returns (m: map<Val, Val>)
      requires Valid() && DecodePairs(k, u, n, Rest()).Some?
      modifies this
      ensures Valid() && var r := DecodePairs(k, u, n, old(Rest())).value; m == MapOf(r.0, r.1) && Rest() == r.2
      decreases Rank(k) + Rank(u) + 1, 1
    {
      hide Decode, MapOf;
      m := map[];
      ghost var ks: seq<Val>, vs: seq<Val> := [], [];
      var i := 0;
      MapOfNone();
      while i < n
        invariant 0 <= i <= n && Valid() && DecodePairs(k, u, i, old(Rest())) == Some((ks, vs, Rest()))
        invariant m == MapOf(ks, vs)
      {
        DecodePairsMore(k, u, i + 1, n, old(Rest()));
        var x := Get(k);
        var y := Get(u);
        MapOfStep(ks, vs, x, y);
        if x !in m {
          m := m[x := y];
        }
        ks, vs := ks + [x], vs + [y];
        i := i + 1;
      }
    }
  }

  lemma {:induction false} MapOfNone()
    ensures MapOf([], []) == map[]
  {
  }

  lemma {:induction false} MapOfStep(ks: seq<Val>, vs: seq<Val>, x: Val, y: Val)
    requires |ks| == |vs|
    ensures MapOf(ks + [x], vs + [y]) == if x in MapOf(ks, vs) then MapOf(ks, vs) else MapOf(ks, vs)[x := y]
  {
    assert (ks + [x])[..|ks|] == ks && (vs + [y])[..|vs|] == vs;
  }

  lemma {:induction false} DecodeNMore(e: Ty, i: nat, n: nat, s: seq<byte>)
    requires i <= n && DecodeN(e, n, s).Some?
    ensures DecodeN(e, i, s).Some?
  {
    hide Decode;
    if i < n {
      DecodeNMore(e, i, n - 1, s);
    }
  }

  lemma {:induction false} DecodePairsMore(k: Ty, v: Ty, i: nat, n: nat, s: seq<byte>)
    requires i <= n && DecodePairs(k, v, n, s).Some?
    ensures DecodePairs(k, v, i, s).Some?
  {
    hide Decode;
    if i < n {
      DecodePairsMore(k, v, i, n - 1, s);
    }
  }

  lemma {:induction false} EncodeAllNone(e: Ty, es: seq<Walk>)
    requires forall n | 0 <= n < |es| :: HasType(es[n], e)
    ensures EncodeAll(e, es[..0]) == []
  {
  }

  lemma {:induction false} EncodeAllStep(e: Ty, es: seq<Walk>, i: nat)
    requires i < |es| && forall n | 0 <= n < |es| :: HasType(es[n], e)
    ensures EncodeAll(e, es[..i+1]) == EncodeAll(e, es[..i]) + Encode(e, es[i])
  {
    assert es[..i+1][..i] == es[..i];
  }

  lemma {:induction false} EncodeAllPrefix(e: Ty, es: seq<Walk>, i: nat)
    requires i <= |es| && forall n | 0 <= n < |es| :: HasType(es[n], e)
    ensures |EncodeAll(e, es[..i])| <= |EncodeAll(e, es)|
    decreases |es|
  {
    if i < |es| {
      var n := |es| - 1;
      EncodeAllPrefix(e, es[..n], i);
      assert es[..n][..i] == es[..i];
    } else {
      assert es[..i] == es;
    }
  }

  lemma {:induction false} EncodePairsStep(k: Ty, v: Ty, ks: seq<Walk>, vs: seq<Walk>, i: nat)
    requires i < |ks| == |vs|
    requires (forall n | 0 <= n < |ks| :: HasType(ks[n], k)) && (forall n | 0 <= n < |vs| :: HasType(vs[n], v))
    ensures EncodePairs(k, v, ks[..i+1], vs[..i+1]) ==
            EncodePairs(k, v, ks[..i], vs[..i]) + (Encode(k, ks[i]) + Encode(v, vs[i]))
  {
    assert ks[..i+1][..i] == ks[..i] && vs[..i+1][..i] == vs[..i];
  }

  lemma {:induction false} EncodePairsPrefix(k: Ty, v: Ty, ks: seq<Walk>, vs: seq<Walk>, i: nat)
    requires i <= |ks| == |vs|
    requires (forall n | 0 <= n < |ks| :: HasType(ks[n], k)) && (forall n | 0 <= n < |vs| :: HasType(vs[n], v))
    ensures |EncodePairs(k, v, ks[..i], vs[..i])| <= |EncodePairs(k, v, ks, vs)|
    decreases |ks|
  {
    if i < |ks| {
      var n := |ks| - 1;
      EncodePairsPrefix(k, v, ks[..n], vs[..n], i);
      assert ks[..n][..i] == ks[..i] && vs[..n][..i] == vs[..i];
    } else {
      assert ks[..i] == ks && vs[..i] == vs;
    }
  }
}

/** The same values read off a chunked marshal: `Marshal >>` for strings and containers. */
module MarshalReader {
  import opened Basics
  import opened Chunks
  import opened Marshal
  import opened Codec
  import T = TransportMarshal

  method ReadAll(m: Marshal, n: nat) returns (p: seq<byte>)
    requires m.Valid() && n <= |m.Content()|
    modifies m
    ensures m.Valid() && p == old(m.Content())[..n] && m.Content() == old(m.Content())[n..]
  {
    hide Bytes, Size, Shape;
    p := m.Read(n);
  }

  method ReadStr(m: Marshal) returns (s: seq<byte>)
    requires m.Valid() && Decode(TStr, m.Content()).Some?
    modifies m
    ensures m.Valid() && Decode(TStr, old(m.Content())) == Some((VStr(s), m.Content()))
  {
    hide Bytes, Size, Shape, FromLe;
    ghost var all := m.Content();
    var p := ReadAll(m, 8);
    var n := FromLe(p);
    assert all[8..][..n] == all[8..8 + n] && all[8..][n..] == all[8 + n..];
    s := [];
    if n > 0 {
      s := ReadAll(m, n);
    }
  }

  method Get(m: Marshal, t: Ty) returns (v: Val)
    requires m.Valid() && Decode(t, m.Content()).Some?
    modifies m
    ensures m.Valid() && Decode(t, old(m.Content())) == Some((v, m.Content()))
    decreases Rank(t), 0
  {
    hide Bytes, Size, Shape, FromLe, DecodeN, DecodePairs, MapOf, SetOf;
    match t {
      case TInt(width) =>
        var p := ReadAll(m, width);
        v := VInt(FromLe(p));
      case TStr =>
        var s := ReadStr(m);
        v := VStr(s);
      case TPair(a, b) =>
        var x := Get(m, a);
        var y := Get(m, b);
        v := VPair(x, y);
      case TSeq(e) =>
        var p := ReadAll(m, 8);
        var es := GetN(m, e, FromLe(p));
        v := VSeq(es);
      case TSet(e) =>
        var p := ReadAll(m, 8);
        var es := GetN(m, e, FromLe(p));
        v := VSet(SetOf(es));
      case TMap(k, u) =>
        var p := ReadAll(m, 8);
        var entries := GetPairs(m, k, u, FromLe(p));
        v := VMap(entries);
    }
  }

  method GetN(m: Marshal, e: Ty, n: nat) returns (es: seq<Val>)
    requires m.Valid() && DecodeN(e, n, m.Content()).Some?
    modifies m
    ensures m.Valid() && DecodeN(e, n, old(m.Content())) == Some((es, m.Content()))
    decreases Rank(e), 1
  {
    hide Bytes, Size, Shape, Decode;
    es := [];
    var i := 0;
    while i < n
      invariant 0 <= i <= n && m.Valid() && DecodeN(e, i, old(m.Content())) == Some((es, m.Content()))
    {
      T.DecodeNMore(e, i + 1, n, old(m.Content()));
      var x := Get(m, e);
      es := es + [x];
      i := i + 1;
    }
  }

  method GetPairs(m: Marshal, k: Ty, u: Ty, n: nat) returns (entries: map<Val, Val>)
    requires m.Valid() && DecodePairs(k, u, n, m.Content()).Some?
    modifies m
    ensures m.Valid() && var r := DecodePairs(k, u, n, old(m.Content())).value;
                         entries == MapOf(r.0, r.1) && m.Content() == r.2
    decreases Rank(k) + Rank(u) + 1, 1
  {
    hide Bytes, Size, Shape, Decode, MapOf;
    entries := map[];
    ghost var ks: seq<Val>, vs: seq<Val> := [], [];
    var i := 0;
    T.MapOfNone();
    while i < n
      invariant 0 <= i <= n && m.Valid() && DecodePairs(k, u, i, old(m.Content())) == Some((ks, vs, m.Content()))
      invariant entries == MapOf(ks, vs)
    {
      T.DecodePairsMore(k, u, i + 1, n, old(m.Content()));
      var x := Get(m, k);
      var y := Get(m, u);
      T.MapOfStep(ks, vs, x, y);
      if x !in entries {
        entries := entries[x := y];
      }
      ks, vs := ks + [x], vs + [y];
      i := i + 1;
    }
  }
}
