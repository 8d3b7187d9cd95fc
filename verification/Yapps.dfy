/** Grammars of the parser generator, and the token strings their nodes derive. */
module Grammar {
  type Token = string

  /** Nodes refer to their children by position; children come before their parents. */
  datatype Node =
    | Terminal(token: Token)
    | Eval
    | NonTerminal(name: string)
    | Sequence(children: seq<nat>)
    | Choice(children: seq<nat>)
    | Option(child: nat)
    | Plus(child: nat)
    | Star(child: nat)

  datatype Grammar = Grammar(nodes: seq<Node>, rules: map<string, nat>, goals: seq<string>)

  function Children(n: Node): seq<nat> {
    match n
    case Terminal(_) => []
    case Eval => []
    case NonTerminal(_) => []
    case Sequence(cs) => cs
    case Choice(cs) => cs
    case Option(c) => [c]
    case Plus(c) => [c]
    case Star(c) => [c]
  }

  /** Nodes form trees, each node in the tree of a rule. Rules may refer to each other at will, or to nothing. */
  ghost predicate WellFormed(g: Grammar) {
    && (forall i, k | 0 <= i < |g.nodes| && 0 <= k < |Children(g.nodes[i])| :: Children(g.nodes[i])[k] < i)
    && (forall r | r in g.rules :: g.rules[r] < |g.nodes| && r in g.goals)
    && (forall k | 0 <= k < |g.goals| :: g.goals[k] in g.rules)
    && (forall i | 0 <= i < |g.nodes| :: IsRoot(g, i) || exists p :: IsChild(g, i, p))
  }

  ghost predicate IsRoot(g: Grammar, i: nat) {
    exists r :: r in g.rules && g.rules[r] == i
  }

  ghost predicate IsChild(g: Grammar, i: nat, p: nat) {
    p < |g.nodes| && i in Children(g.nodes[p])
  }

  /** Where a nonterminal leads; to itself when no such rule exists. */
  function Target(g: Grammar, i: nat): (t: nat)
    requires i < |g.nodes| && g.nodes[i].NonTerminal?
    ensures WellFormed(g) ==> t < |g.nodes|
  {
    if g.nodes[i].name in g.rules then g.rules[g.nodes[i].name] else i
  }

  predicate Defined(g: Grammar, i: nat)
    requires i < |g.nodes| && g.nodes[i].NonTerminal?
  {
    g.nodes[i].name in g.rules
  }

  function Arity(g: Grammar, i: nat): nat
    requires i < |g.nodes|
  {
    |Children(g.nodes[i])|
  }

  function Child(g: Grammar, i: nat, k: nat): (c: nat)
    requires i < |g.nodes| && k < Arity(g, i)
    ensures WellFormed(g) ==> c < i
  {
    Children(g.nodes[i])[k]
  }

  /** Node `i` derives the token string `w` in a derivation of depth at most `d`. */
  ghost predicate Derives(g: Grammar, i: nat, w: seq<Token>, d: nat)
    requires WellFormed(g) && i < |g.nodes|
    decreases d, 1, 0
  {
    d > 0 &&
    match g.nodes[i]
    case Terminal(t) => w == [t]
    case Eval => w == []
    case NonTerminal(_) => Defined(g, i) && Derives(g, Target(g, i), w, d - 1)
    case Sequence(_) => DerivesAll(g, i, 0, w, d - 1)
    case Choice(_) => exists k :: 0 <= k < Arity(g, i) && Derives(g, Child(g, i, k), w, d - 1)
    case Option(_) => w == [] || Derives(g, Child(g, i, 0), w, d - 1)
    case Plus(_) => var e := d - 1; exists j: nat :: PlusAt(g, i, w, j, e)
    case Star(_) => var e := d - 1; w == [] || exists j: nat :: StarAt(g, i, w, j, e)
  }

  /** One or more: the child derives the first `j` tokens, and more rounds the rest, if any. */
  ghost predicate PlusAt(g: Grammar, i: nat, w: seq<Token>, j: nat, d: nat)
    requires WellFormed(g) && i < |g.nodes| && g.nodes[i].Plus?
    decreases d, 2, 0
  {
    j <= |w| && Derives(g, Child(g, i, 0), w[..j], d) && (w[j..] == [] || Derives(g, i, w[j..], d))
  }

  /** Zero or more, with at least one round left. */
  ghost predicate StarAt(g: Grammar, i: nat, w: seq<Token>, j: nat, d: nat)
    requires WellFormed(g) && i < |g.nodes| && g.nodes[i].Star?
    decreases d, 2, 0
  {
    j <= |w| && Derives(g, Child(g, i, 0), w[..j], d) && Derives(g, i, w[j..], d)
  }

  /** The children of node `i` from the `k`th on derive `w`, one piece each. */
  ghost predicate DerivesAll(g: Grammar, i: nat, k: nat, w: seq<Token>, d: nat)
    requires WellFormed(g) && i < |g.nodes| && k <= Arity(g, i)
    decreases d, 2, Arity(g, i) - k
  {
    if k == Arity(g, i) then w == []
    else exists j :: 0 <= j <= |w| && Derives(g, Child(g, i, k), w[..j], d) && DerivesAll(g, i, k + 1, w[j..], d)
  }

  ghost predicate Nullable(g: Grammar, i: nat)
    requires WellFormed(g) && i < |g.nodes|
  {
    exists d: nat :: Derives(g, i, [], d)
  }

  /**
   In a derivation from node `j`, node `i` occurs and what comes after it is `v`.
   What comes before it is left open, which only allows more.
   */
  ghost predicate After(g: Grammar, j: nat, i: nat, v: seq<Token>, d: nat)
    requires WellFormed(g) && j < |g.nodes|
    decreases d, 1
  {
    (j == i && v == []) ||
    (d > 0 &&
     var e := d - 1;
     match g.nodes[j]
     case Terminal(_) => false
     case Eval => false
     case NonTerminal(_) => Defined(g, j) && After(g, Target(g, j), i, v, e)
     case Sequence(_) => exists k: nat, m: nat :: AfterChild(g, j, i, v, k, m, e)
     case Choice(_) => exists k :: 0 <= k < Arity(g, j) && After(g, Child(g, j, k), i, v, e)
     case Option(_) => After(g, Child(g, j, 0), i, v, e)
     case Plus(_) => exists m: nat :: AfterRound(g, j, i, v, m, e)
     case Star(_) => exists m: nat :: AfterRound(g, j, i, v, m, e))
  }

  /** Node `i` occurs in the `k`th child of a sequence, `m` tokens of which follow it; then come the other children. */
  ghost predicate AfterChild(g: Grammar, j: nat, i: nat, v: seq<Token>, k: nat, m: nat, d: nat)
    requires WellFormed(g) && j < |g.nodes|
    decreases d, 2
  {
    k < Arity(g, j) && m <= |v| && After(g, Child(g, j, k), i, v[..m], d) && DerivesAll(g, j, k + 1, v[m..], d)
  }

  /** Node `i` occurs in one round of a repetition; more rounds may come. */
  ghost predicate AfterRound(g: Grammar, j: nat, i: nat, v: seq<Token>, m: nat, d: nat)
    requires WellFormed(g) && j < |g.nodes| && Arity(g, j) == 1
    decreases d, 2
  {
    m <= |v| && After(g, Child(g, j, 0), i, v[..m], d) && (v[m..] == [] || Derives(g, j, v[m..], d))
  }
}

/** Which nodes accept the empty string. */
module Epsilon {
  import opened Grammar

  lemma {:induction false} Deeper(g: Grammar, i: nat, w: seq<Token>, d: nat, e: nat)
    requires WellFormed(g) && i < |g.nodes| && Derives(g, i, w, d) && d <= e
    ensures Derives(g, i, w, e)
    decreases d, 1, 0
  {
    hide WellFormed, DerivesAll, PlusAt, StarAt;
    match g.nodes[i]
    case Terminal(_) =>
    case Eval =>
    case NonTerminal(_) => Deeper(g, Target(g, i), w, d - 1, e - 1);
    case Sequence(_) => DeeperAll(g, i, 0, w, d - 1, e - 1);
    case Choice(_) =>
      var k :| 0 <= k < Arity(g, i) && Derives(g, Child(g, i, k), w, d - 1);
      Deeper(g, Child(g, i, k), w, d - 1, e - 1);
    case Option(_) =>
      if w != [] {
        Deeper(g, Child(g, i, 0), w, d - 1, e - 1);
      }
    case Plus(_) =>
      var j: nat :| PlusAt(g, i, w, j, d - 1);
      DeeperPlus(g, i, w, j, d - 1, e - 1);
    case Star(_) =>
      if w != [] {
        var j: nat :| StarAt(g, i, w, j, d - 1);
        DeeperStar(g, i, w, j, d - 1, e - 1);
      }
  }

  lemma {:induction false} DeeperPlus(g: Grammar, i: nat, w: seq<Token>, j: nat, d: nat, e: nat)
    requires WellFormed(g) && i < |g.nodes| && g.nodes[i].Plus? && PlusAt(g, i, w, j, d) && d <= e
    ensures PlusAt(g, i, w, j, e)
    decreases d, 2, 0
  {
    hide WellFormed, DerivesAll;
    Deeper(g, Child(g, i, 0), w[..j], d, e);
    if w[j..] != [] {
      Deeper(g, i, w[j..], d, e);
    }
  }

  lemma {:induction false} DeeperStar(g: Grammar, i: nat, w: seq<Token>, j: nat, d: nat, e: nat)
    requires WellFormed(g) && i < |g.nodes| && g.nodes[i].Star? && StarAt(g, i, w, j, d) && d <= e
    ensures StarAt(g, i, w, j, e)
    decreases d, 2, 0
  {
    hide WellFormed, DerivesAll;
    Deeper(g, Child(g, i, 0), w[..j], d, e);
    Deeper(g, i, w[j..], d, e);
  }

  lemma {:induction false} DeeperAll(g: Grammar, i: nat, k: nat, w: seq<Token>, d: nat, e: nat)
    requires WellFormed(g) && i < |g.nodes| && k <= Arity(g, i) && DerivesAll(g, i, k, w, d) && d <= e
    ensures DerivesAll(g, i, k, w, e)
    decreases d, 2, Arity(g, i) - k
  {
    hide WellFormed;
    if k < Arity(g, i) {
      var j :| 0 <= j <= |w| && Derives(g, Child(g, i, k), w[..j], d) && DerivesAll(g, i, k + 1, w[j..], d);
      Deeper(g, Child(g, i, k), w[..j], d, e);
      DeeperAll(g, i, k + 1, w[j..], d, e);
    }
  }

  // ---------- soundness: a flag is set only on nodes that derive the empty string ----------

  ghost predicate Justified(g: Grammar, eps: seq<bool>)
    requires WellFormed(g)
  {
    |eps| == |g.nodes| && forall i | 0 <= i < |eps| && eps[i] :: Nullable(g, i)
  }

  /** Children that all derive the empty string do so within one depth. */
  lemma {:induction false} AllNullable(g: Grammar, i: nat, k: nat) returns (d: nat)
    requires WellFormed(g) && i < |g.nodes| && k <= Arity(g, i)
    requires forall n | k <= n < Arity(g, i) :: Nullable(g, Child(g, i, n))
    ensures DerivesAll(g, i, k, [], d)
    decreases Arity(g, i) - k
  {
    hide WellFormed;
    d := 0;
    if k < Arity(g, i) {
      var e := AllNullable(g, i, k + 1);
      assert Nullable(g, Child(g, i, k));
      var c: nat :| Derives(g, Child(g, i, k), [], c);
      d := if c < e then e else c;
      Deeper(g, Child(g, i, k), [], c, d);
      DeeperAll(g, i, k + 1, [], e, d);
      var w: seq<Token> := [];
      assert w[..0] == [] && w[0..] == [];
    }
  }

  lemma {:induction false} SequenceNullable(g: Grammar, i: nat)
    requires WellFormed(g) && i < |g.nodes| && g.nodes[i].Sequence?
    requires forall n | 0 <= n < Arity(g, i) :: Nullable(g, Child(g, i, n))
    ensures Nullable(g, i)
  {
    var d := AllNullable(g, i, 0);
    assert Derives(g, i, [], d + 1);
  }

  /** A node with a nullable child, or a nullable target, that makes it nullable. */
  lemma {:induction false} OneNullable(g: Grammar, i: nat, c: nat)
    requires WellFormed(g) && i < |g.nodes| && c < |g.nodes| && Nullable(g, c)
    requires match g.nodes[i]
             case NonTerminal(_) => Defined(g, i) && c == Target(g, i)
             case Choice(_) => exists k :: 0 <= k < Arity(g, i) && c == Child(g, i, k)
             case Plus(_) => c == Child(g, i, 0)
             case _ => false
    ensures Nullable(g, i)
  {
    var d: nat :| Derives(g, c, [], d);
    var w: seq<Token> := [];
    assert w[..0] == [] && w[0..] == [];
    if g.nodes[i].Plus? {
      assert PlusAt(g, i, w, 0, d);
    }
    assert Derives(g, i, [], d + 1);
  }

  // ---------- completeness: when nothing changes any more, all such nodes are flagged ----------

  /** The flag of node `i` is what its children's flags make it. */
  ghost predicate EpsOk(g: Grammar, eps: seq<bool>, i: nat)
    requires WellFormed(g) && |eps| == |g.nodes| && i < |g.nodes|
  {
    match g.nodes[i]
    case Terminal(_) => true
    case Eval => eps[i]
    case NonTerminal(_) => Defined(g, i) && eps[Target(g, i)] ==> eps[i]
    case Sequence(_) => (forall k | 0 <= k < Arity(g, i) :: eps[Child(g, i, k)]) ==> eps[i]
    case Choice(_) => (exists k :: 0 <= k < Arity(g, i) && eps[Child(g, i, k)]) ==> eps[i]
    case Option(_) => eps[i]
    case Plus(_) => eps[Child(g, i, 0)] ==> eps[i]
    case Star(_) => eps[i]
  }

  lemma {:induction false} NullableFlagged(g: Grammar, eps: seq<bool>, i: nat, d: nat)
    requires WellFormed(g) && |eps| == |g.nodes| && i < |g.nodes| && Derives(g, i, [], d)
    requires forall n | 0 <= n < |g.nodes| :: EpsOk(g, eps, n)
    ensures eps[i]
    decreases d, 1, 0
  {
    hide WellFormed;
    assert EpsOk(g, eps, i);
    var w: seq<Token> := [];
    match g.nodes[i]
    case Terminal(_) =>
    case Eval =>
    case NonTerminal(_) => NullableFlagged(g, eps, Target(g, i), d - 1);
    case Sequence(_) => AllFlagged(g, eps, i, 0, d - 1);
    case Choice(_) =>
      var k :| 0 <= k < Arity(g, i) && Derives(g, Child(g, i, k), [], d - 1);
      NullableFlagged(g, eps, Child(g, i, k), d - 1);
    case Option(_) =>
    case Plus(_) =>
      var j: nat :| PlusAt(g, i, w, j, d - 1);
      assert w[..j] == [];
      NullableFlagged(g, eps, Child(g, i, 0), d - 1);
    case Star(_) =>
  }

  lemma {:induction false} AllFlagged(g: Grammar, eps: seq<bool>, i: nat, k: nat, d: nat)
    requires WellFormed(g) && |eps| == |g.nodes| && i < |g.nodes| && k <= Arity(g, i) && DerivesAll(g, i, k, [], d)
    requires forall n | 0 <= n < |g.nodes| :: EpsOk(g, eps, n)
    ensures forall n | k <= n < Arity(g, i) :: eps[Child(g, i, n)]
    decreases d, 2, Arity(g, i) - k
  {
    hide WellFormed;
    if k < Arity(g, i) {
      var w: seq<Token> := [];
      var j :| 0 <= j <= |w| && Derives(g, Child(g, i, k), w[..j], d) && DerivesAll(g, i, k + 1, w[j..], d);
      assert w[..j] == [] && w[j..] == [];
      NullableFlagged(g, eps, Child(g, i, k), d);
      AllFlagged(g, eps, i, k + 1, d);
    }
  }

  /** At the fixpoint the flags are exact. */
  lemma {:induction false} EpsilonExact(g: Grammar, eps: seq<bool>, i: nat)
    requires WellFormed(g) && Justified(g, eps) && i < |g.nodes|
    requires forall n | 0 <= n < |g.nodes| :: EpsOk(g, eps, n)
    ensures eps[i] <==> Nullable(g, i)
  {
    if Nullable(g, i) {
      var d: nat :| Derives(g, i, [], d);
      NullableFlagged(g, eps, i, d);
    }
  }
}

/** The first and follow sets. */
module FirstFollow {
  import opened Grammar
  import opened Epsilon

  /** All lists of a grammar in one row: the first list of node `i` at `2 * i`, its follow list behind it. */
  type Lists = seq<seq<Token>>

  function First(i: nat): nat { 2 * i }

  function Follow(i: nat): nat { 2 * i + 1 }

  ghost predicate Sub(lists: Lists, q: nat, p: nat)
    requires q < |lists| && p < |lists|
  {
    forall x | x in lists[q] :: x in lists[p]
  }

  /** What a round of updates that changes nothing has checked at node `i`. */
  ghost predicate Sat(g: Grammar, eps: seq<bool>, lists: Lists, i: nat)
    requires WellFormed(g) && |eps| == |g.nodes| && |lists| == 2 * |g.nodes| && i < |g.nodes|
  {
    && (eps[i] ==> Sub(lists, Follow(i), First(i)))
    && match g.nodes[i]
       case Terminal(t) => lists[First(i)] == [t]
       case Eval => true
       case NonTerminal(_) =>
         var t := Target(g, i);
         && Sub(lists, First(t), First(i)) && Sub(lists, First(i), First(t))
         && Sub(lists, Follow(t), Follow(i)) && Sub(lists, Follow(i), Follow(t))
       case Sequence(_) =>
         && (forall k | 0 <= k < Arity(g, i) :: SequenceSat(g, eps, lists, i, k))
         && (Arity(g, i) > 0 ==> Sub(lists, Follow(Child(g, i, Arity(g, i) - 1)), Follow(i)))
       case Choice(_) => forall k | 0 <= k < Arity(g, i) :: ChoiceSat(g, lists, i, k)
       case Option(_) => WrapperSat(g, lists, i)
       case Plus(_) => WrapperSat(g, lists, i) && RepeatSat(g, lists, i)
       case Star(_) => WrapperSat(g, lists, i) && RepeatSat(g, lists, i)
  }

  ghost predicate SequenceSat(g: Grammar, eps: seq<bool>, lists: Lists, i: nat, k: nat)
    requires WellFormed(g) && |eps| == |g.nodes| && |lists| == 2 * |g.nodes| && i < |g.nodes| && k < Arity(g, i)
  {
    && ((forall m | 0 <= m < k :: eps[Child(g, i, m)]) ==> Sub(lists, First(Child(g, i, k)), First(i)))
    && Sub(lists, NextAfter(g, i, k), Follow(Child(g, i, k)))
  }

  /** The list that says what comes after the `k`th child of a sequence. */
  function NextAfter(g: Grammar, i: nat, k: nat): nat
    requires i < |g.nodes| && k < Arity(g, i)
  {
    if k == Arity(g, i) - 1 then Follow(i) else First(Child(g, i, k + 1))
  }

  ghost predicate ChoiceSat(g: Grammar, lists: Lists, i: nat, k: nat)
    requires WellFormed(g) && |lists| == 2 * |g.nodes| && i < |g.nodes| && k < Arity(g, i)
  {
    var c := Child(g, i, k);
    Sub(lists, First(c), First(i)) && Sub(lists, Follow(c), Follow(i)) && Sub(lists, Follow(i), Follow(c))
  }

  ghost predicate WrapperSat(g: Grammar, lists: Lists, i: nat)
    requires WellFormed(g) && |lists| == 2 * |g.nodes| && i < |g.nodes| && Arity(g, i) == 1
  {
    var c := Child(g, i, 0);
    Sub(lists, First(c), First(i)) && Sub(lists, Follow(c), Follow(i)) && Sub(lists, Follow(i), Follow(c))
  }

  ghost predicate RepeatSat(g: Grammar, lists: Lists, i: nat)
    requires WellFormed(g) && |lists| == 2 * |g.nodes| && i < |g.nodes| && Arity(g, i) == 1
  {
    Sub(lists, First(Child(g, i, 0)), Follow(Child(g, i, 0)))
  }

  ghost predicate AllSat(g: Grammar, eps: seq<bool>, lists: Lists)
    requires WellFormed(g) && |eps| == |g.nodes| && |lists| == 2 * |g.nodes|
  {
    forall n | 0 <= n < |g.nodes| :: Sat(g, eps, lists, n)
  }

  ghost predicate EpsExact(g: Grammar, eps: seq<bool>)
    requires WellFormed(g) && |eps| == |g.nodes|
  {
    forall n | 0 <= n < |g.nodes| :: eps[n] <==> Nullable(g, n)
  }

  /** Flags are exact and every node's equations hold. */
  ghost predicate Computed(g: Grammar, eps: seq<bool>, lists: Lists) {
    && WellFormed(g) && |eps| == |g.nodes| && |lists| == 2 * |g.nodes|
    && EpsExact(g, eps) && AllSat(g, eps, lists)
  }

  // ---------- completeness of the first sets ----------

  /** Every token that can begin a string derived from a node is in the node's first list. */
  lemma {:induction false} FirstComplete(g: Grammar, eps: seq<bool>, lists: Lists, i: nat, w: seq<Token>, d: nat)
    requires Computed(g, eps, lists)
    requires i < |g.nodes| && Derives(g, i, w, d) && w != []
    ensures w[0] in lists[First(i)]
    decreases d, 1, 0
  {
    hide WellFormed, EpsExact;
    assert Sat(g, eps, lists, i);
    match g.nodes[i]
    case Terminal(_) =>
    case Eval =>
    case NonTerminal(_) => FirstComplete(g, eps, lists, Target(g, i), w, d - 1);
    case Sequence(_) => FirstOfAll(g, eps, lists, i, 0, w, d - 1);
    case Choice(_) =>
      var k :| 0 <= k < Arity(g, i) && Derives(g, Child(g, i, k), w, d - 1);
      FirstComplete(g, eps, lists, Child(g, i, k), w, d - 1);
      assert ChoiceSat(g, lists, i, k);
    case Option(_) => FirstComplete(g, eps, lists, Child(g, i, 0), w, d - 1);
    case Plus(_) => FirstOfRepeat(g, eps, lists, i, w, d);
    case Star(_) => FirstOfRepeat(g, eps, lists, i, w, d);
  }

  lemma {:induction false} FirstOfRepeat(g: Grammar, eps: seq<bool>, lists: Lists, i: nat, w: seq<Token>, d: nat)
    requires Computed(g, eps, lists)
    requires i < |g.nodes| && (g.nodes[i].Plus? || g.nodes[i].Star?) && Derives(g, i, w, d) && w != []
    ensures w[0] in lists[First(i)]
    decreases d, 0, 0
  {
    hide WellFormed, EpsExact, AllSat;
    var j: nat :| if g.nodes[i].Plus? then PlusAt(g, i, w, j, d - 1) else StarAt(g, i, w, j, d - 1);
    if j == 0 {
      assert w[0..] == w;
      FirstComplete(g, eps, lists, i, w, d - 1);
    } else {
      FirstComplete(g, eps, lists, Child(g, i, 0), w[..j], d - 1);
      SatAt(g, eps, lists, i);
    }
  }

  lemma {:induction false} SatAt(g: Grammar, eps: seq<bool>, lists: Lists, i: nat)
    requires Computed(g, eps, lists) && i < |g.nodes|
    ensures Sat(g, eps, lists, i)
  {
  }

  lemma {:induction false} FirstOfAll(g: Grammar, eps: seq<bool>, lists: Lists, i: nat, k: nat, w: seq<Token>, d: nat)
    requires Computed(g, eps, lists)
    requires i < |g.nodes| && g.nodes[i].Sequence? && k <= Arity(g, i) && DerivesAll(g, i, k, w, d) && w != []
    requires forall m | 0 <= m < k :: eps[Child(g, i, m)]
    ensures w[0] in lists[First(i)]
    decreases d, 2, Arity(g, i) - k
  {
    hide WellFormed, AllSat;
    var j :| 0 <= j <= |w| && Derives(g, Child(g, i, k), w[..j], d) && DerivesAll(g, i, k + 1, w[j..], d);
    if j == 0 {
      assert w[..0] == [] && w[0..] == w;
      assert Nullable(g, Child(g, i, k));
      FirstOfAll(g, eps, lists, i, k + 1, w, d);
    } else {
      FirstComplete(g, eps, lists, Child(g, i, k), w[..j], d);
      SatAt(g, eps, lists, i);
      assert SequenceSat(g, eps, lists, i, k);
    }
  }

  /** What begins the rounds of a repetition begins its child. */
  lemma {:induction false} RoundBegins(g: Grammar, eps: seq<bool>, lists: Lists, i: nat, w: seq<Token>, d: nat)
    requires Computed(g, eps, lists)
    requires i < |g.nodes| && (g.nodes[i].Plus? || g.nodes[i].Star?) && Derives(g, i, w, d) && w != []
    ensures w[0] in lists[First(Child(g, i, 0))]
    decreases d
  {
    hide WellFormed, EpsExact, AllSat;
    var j: nat :| if g.nodes[i].Plus? then PlusAt(g, i, w, j, d - 1) else StarAt(g, i, w, j, d - 1);
    if j == 0 {
      assert w[0..] == w;
      RoundBegins(g, eps, lists, i, w, d - 1);
    } else {
      FirstComplete(g, eps, lists, Child(g, i, 0), w[..j], d - 1);
    }
  }

  // ---------- completeness of the follow sets ----------

  /** What the children behind the `k`th derive may come after it; if nothing, then what comes after the sequence. */
  lemma {:induction false} FollowsChild(g: Grammar, eps: seq<bool>, lists: Lists, i: nat, k: nat, w: seq<Token>, d: nat)
    requires Computed(g, eps, lists) && i < |g.nodes| && g.nodes[i].Sequence? && k < Arity(g, i)
    requires DerivesAll(g, i, k + 1, w, d)
    ensures w != [] ==> w[0] in lists[Follow(Child(g, i, k))]
    ensures w == [] ==> Sub(lists, Follow(i), Follow(Child(g, i, k)))
    decreases Arity(g, i) - k
  {
    hide WellFormed, AllSat;
    SatAt(g, eps, lists, i);
    assert SequenceSat(g, eps, lists, i, k);
    if k + 1 < Arity(g, i) {
      var c := Child(g, i, k + 1);
      var j :| 0 <= j <= |w| && Derives(g, c, w[..j], d) && DerivesAll(g, i, k + 2, w[j..], d);
      if j == 0 {
        assert w[..0] == [] && w[0..] == w;
        assert Nullable(g, c);
        SatAt(g, eps, lists, c);
        FollowsChild(g, eps, lists, i, k + 1, w, d);
      } else {
        FirstComplete(g, eps, lists, c, w[..j], d);
      }
    }
  }

  /**
   Every token that can come after a node, in whatever is derived from any node, is in its follow list; and where
   the node can come last, its follow list has all that the outer node's has.
   */
  lemma {:induction false} FollowComplete(g: Grammar, eps: seq<bool>, lists: Lists, j: nat, i: nat, v: seq<Token>,
                                          d: nat)
    requires Computed(g, eps, lists) && j < |g.nodes| && i < |g.nodes| && After(g, j, i, v, d)
    ensures v != [] ==> v[0] in lists[Follow(i)]
    ensures v == [] ==> Sub(lists, Follow(j), Follow(i))
    decreases d
  {
    hide WellFormed, EpsExact, AllSat, DerivesAll, Derives, SequenceSat;
    SatAt(g, eps, lists, j);
    if !(j == i && v == []) {
      match g.nodes[j]
      case NonTerminal(_) => FollowComplete(g, eps, lists, Target(g, j), i, v, d - 1);
      case Sequence(_) =>
        var k: nat, m: nat :| AfterChild(g, j, i, v, k, m, d - 1);
        FollowComplete(g, eps, lists, Child(g, j, k), i, v[..m], d - 1);
        FollowsChild(g, eps, lists, j, k, v[m..], d - 1);
      case Choice(_) =>
        var k :| 0 <= k < Arity(g, j) && After(g, Child(g, j, k), i, v, d - 1);
        FollowComplete(g, eps, lists, Child(g, j, k), i, v, d - 1);
        assert ChoiceSat(g, lists, j, k);
      case Option(_) => FollowComplete(g, eps, lists, Child(g, j, 0), i, v, d - 1);
      case Plus(_) => FollowsRound(g, eps, lists, j, i, v, d - 1);
      case Star(_) => FollowsRound(g, eps, lists, j, i, v, d - 1);
    }
  }

  lemma {:induction false} FollowsRound(g: Grammar, eps: seq<bool>, lists: Lists, j: nat, i: nat, v: seq<Token>, d: nat)
    requires Computed(g, eps, lists) && j < |g.nodes| && i < |g.nodes|
    requires (g.nodes[j].Plus? || g.nodes[j].Star?) && exists m: nat :: AfterRound(g, j, i, v, m, d)
    ensures v != [] ==> v[0] in lists[Follow(i)]
    ensures v == [] ==> Sub(lists, Follow(j), Follow(i))
    decreases d + 1, 0
  {
    hide WellFormed, EpsExact, AllSat, Derives;
    SatAt(g, eps, lists, j);
    var m: nat :| AfterRound(g, j, i, v, m, d);
    FollowComplete(g, eps, lists, Child(g, j, 0), i, v[..m], d);
    if v[m..] != [] {
      RoundBegins(g, eps, lists, j, v[m..], d);
    }
  }

  /** What the lists are good for: they have every token that can begin a node and every token that can follow it. */
  ghost predicate Complete(g: Grammar, lists: Lists)
    requires WellFormed(g) && |lists| == 2 * |g.nodes|
  {
    && (forall i, w, d | 0 <= i < |g.nodes| && w != [] && Derives(g, i, w, d) :: w[0] in lists[First(i)])
    && (forall j, i, v, d | 0 <= j < |g.nodes| && 0 <= i < |g.nodes| && v != [] && After(g, j, i, v, d) ::
          v[0] in lists[Follow(i)])
  }

  lemma {:induction false} ComputedIsComplete(g: Grammar, eps: seq<bool>, lists: Lists)
    requires Computed(g, eps, lists)
    ensures Complete(g, lists)
  {
    hide WellFormed, EpsExact, AllSat, Derives, After;
    forall i, w, d | 0 <= i < |g.nodes| && w != [] && Derives(g, i, w, d) ensures w[0] in lists[First(i)] {
      FirstComplete(g, eps, lists, i, w, d);
    }
    forall j, i, v, d | 0 <= j < |g.nodes| && 0 <= i < |g.nodes| && v != [] && After(g, j, i, v, d)
      ensures v[0] in lists[Follow(i)]
    {
      FollowComplete(g, eps, lists, j, i, v, d);
    }
  }

  // ---------- what every update keeps, and why the rounds end ----------

  ghost function Tokens(g: Grammar): set<Token> {
    set i | 0 <= i < |g.nodes| && g.nodes[i].Terminal? :: g.nodes[i].token
  }

  ghost predicate NoDup(s: seq<Token>) {
    forall a, b | 0 <= a < b < |s| :: s[a] != s[b]
  }

  ghost predicate ListsOk(g: Grammar, lists: Lists) {
    && |lists| == 2 * |g.nodes|
    && forall k | 0 <= k < |lists| :: ListOk(g, lists[k])
  }

  ghost predicate ListOk(g: Grammar, s: seq<Token>) {
    NoDup(s) && forall x | x in s :: x in Tokens(g)
  }

  /** Lists only grow, at their end. */
  ghost predicate Grown(a: Lists, b: Lists) {
    |a| == |b| && forall k | 0 <= k < |a| :: a[k] <= b[k]
  }

  function Total(lists: Lists): nat {
    if lists == [] then 0 else Total(lists[..|lists|-1]) + |lists[|lists|-1]|
  }

  lemma {:induction false} GrownTotal(a: Lists, b: Lists)
    requires Grown(a, b)
    ensures Total(a) <= Total(b) && (Total(a) == Total(b) ==> a == b)
  {
    if a != [] {
      var n := |a| - 1;
      GrownTotal(a[..n], b[..n]);
      assert a == a[..n] + [a[n]] && b == b[..n] + [b[n]];
      assert a[n] <= b[n];
      assert |a[n]| == |b[n]| ==> a[n] == b[n];
    }
  }

  lemma {:induction false} GrownTwice(a: Lists, b: Lists, c: Lists)
    requires Grown(a, b) && Grown(b, c)
    ensures Grown(a, c) && (a == c ==> b == a)
  {
    forall k | 0 <= k < |a| ensures a[k] <= c[k] {
      assert a[k] <= b[k] && b[k] <= c[k];
    }
    if a == c {
      forall k | 0 <= k < |a| ensures b[k] == a[k] {
        assert a[k] <= b[k] && b[k] <= c[k];
      }
    }
  }

  lemma {:induction false} NoDupBound(s: seq<Token>, t: set<Token>)
    requires NoDup(s) && forall x | x in s :: x in t
    ensures |s| <= |t|
  {
    if s != [] {
      var n := |s| - 1;
      assert forall x | x in s[..n] :: x in s && x != s[n];
      NoDupBound(s[..n], t - {s[n]});
    }
  }

  lemma {:induction false} TotalBound(g: Grammar, lists: Lists)
    requires forall k | 0 <= k < |lists| :: ListOk(g, lists[k])
    ensures Total(lists) <= |lists| * |Tokens(g)|
  {
    if lists != [] {
      var n := |lists| - 1;
      TotalBound(g, lists[..n]);
      assert ListOk(g, lists[n]);
      NoDupBound(lists[n], Tokens(g));
      assert (n + 1) * |Tokens(g)| == n * |Tokens(g)| + |Tokens(g)|;
    }
  }

  /** Counted growth: every element added counts once. */
  ghost predicate Step(a: Lists, ca: int, b: Lists, cb: int) {
    Grown(a, b) && cb - ca == Total(b) - Total(a)
  }

  lemma {:induction false} StepTwice(a: Lists, ca: int, b: Lists, cb: int, c: Lists, cc: int)
    requires Step(a, ca, b, cb) && Step(b, cb, c, cc)
    ensures Step(a, ca, c, cc) && (a == c ==> b == a)
  {
    GrownTwice(a, b, c);
  }

  lemma {:induction false} TotalUpdate(lists: Lists, p: nat, s: seq<Token>)
    requires p < |lists|
    ensures Total(lists[p := s]) == Total(lists) - |lists[p]| + |s|
  {
    var n := |lists| - 1;
    if p < n {
      TotalUpdate(lists[..n], p, s);
      assert lists[p := s][..n] == lists[..n][p := s];
    } else {
      assert lists[p := s][..n] == lists[..n];
    }
  }
}

/** Exactly which tokens the first and follow lists have, read off the grammar alone. */
module Exactness {
  import opened Grammar
  import opened Epsilon
  import opened FirstFollow

  /** Node `i` can open with node `c`: a target, an alternative, a wrapped child, or a child behind nullable ones. */
  ghost predicate OpensStep(g: Grammar, i: nat, c: nat)
    requires WellFormed(g) && i < |g.nodes|
  {
    match g.nodes[i]
    case Terminal(_) => false
    case Eval => false
    case NonTerminal(_) => Defined(g, i) && c == Target(g, i)
    case Sequence(_) => exists k: nat :: OpensChild(g, i, c, k)
    case Choice(_) => exists k: nat :: k < Arity(g, i) && c == Child(g, i, k)
    case Option(_) => c == Child(g, i, 0)
    case Plus(_) => c == Child(g, i, 0)
    case Star(_) => c == Child(g, i, 0)
  }

  ghost predicate OpensChild(g: Grammar, i: nat, c: nat, k: nat)
    requires WellFormed(g) && i < |g.nodes|
  {
    k < Arity(g, i) && c == Child(g, i, k) && forall m | 0 <= m < k :: Nullable(g, Child(g, i, m))
  }

  /** A chain of at most `d` such steps leads from `i` to `n`. */
  ghost predicate Opens(g: Grammar, i: nat, n: nat, d: nat)
    requires WellFormed(g) && i < |g.nodes|
    decreases d
  {
    i == n || (d > 0 && exists c: nat :: c < |g.nodes| && OpensStep(g, i, c) && Opens(g, c, n, d - 1))
  }

  /** `b` ends where its parent or user `a` ends. */
  ghost predicate EndsWith(g: Grammar, a: nat, b: nat)
    requires WellFormed(g) && a < |g.nodes|
  {
    match g.nodes[a]
    case Terminal(_) => false
    case Eval => false
    case NonTerminal(_) => Defined(g, a) && b == Target(g, a)
    case Sequence(_) => Arity(g, a) > 0 && b == Child(g, a, Arity(g, a) - 1)
    case Choice(_) => exists k: nat :: k < Arity(g, a) && b == Child(g, a, k)
    case Option(_) => b == Child(g, a, 0)
    case Plus(_) => b == Child(g, a, 0)
    case Star(_) => b == Child(g, a, 0)
  }

  ghost predicate Linked(g: Grammar, a: nat, b: nat)
    requires WellFormed(g)
  {
    a < |g.nodes| && b < |g.nodes| && (EndsWith(g, a, b) || EndsWith(g, b, a))
  }

  /** A chain of at most `d` links leads from `i` to `x`: the two have one follow list. */
  ghost predicate Same(g: Grammar, i: nat, x: nat, d: nat)
    requires WellFormed(g) && i < |g.nodes|
    decreases d
  {
    i == x || (d > 0 && exists j: nat :: Linked(g, i, j) && Same(g, j, x, d - 1))
  }

  /** `y` comes right after `x` in a sequence, or both are the child of a repetition. */
  ghost predicate NextTo(g: Grammar, x: nat, y: nat)
    requires WellFormed(g)
  {
    || (exists j: nat, k: nat :: Adjacent(g, x, y, j, k))
    || (exists j: nat :: Repeated(g, x, j) && x == y)
  }

  ghost predicate Adjacent(g: Grammar, x: nat, y: nat, j: nat, k: nat)
    requires WellFormed(g)
  {
    j < |g.nodes| && g.nodes[j].Sequence? && k + 1 < Arity(g, j) && x == Child(g, j, k) && y == Child(g, j, k + 1)
  }

  ghost predicate Repeated(g: Grammar, x: nat, j: nat)
    requires WellFormed(g)
  {
    j < |g.nodes| && (g.nodes[j].Plus? || g.nodes[j].Star?) && x == Child(g, j, 0)
  }

  /** Token `t` starts node `i`: it opens with that token, or with a nullable node that `t` trails. */
  ghost predicate Starts(g: Grammar, i: nat, t: Token, d: nat)
    requires WellFormed(g) && i < |g.nodes|
    decreases d, 0
  {
    d > 0 && var e := d - 1; exists n: nat, c: nat :: n < |g.nodes| && Opens(g, i, n, c) && StartsAt(g, n, t, e)
  }

  ghost predicate StartsAt(g: Grammar, n: nat, t: Token, d: nat)
    requires WellFormed(g) && n < |g.nodes|
    decreases d, 1
  {
    g.nodes[n] == Terminal(t) || (Nullable(g, n) && Trails(g, n, t, d))
  }

  /** Token `t` trails node `i`: it starts what comes next to a node with the same follow list. */
  ghost predicate Trails(g: Grammar, i: nat, t: Token, d: nat)
    requires WellFormed(g) && i < |g.nodes|
    decreases d, 0
  {
    d > 0 && var e := d - 1; exists x: nat, y: nat, c: nat :: Same(g, i, x, c) && TrailsAt(g, x, y, t, e)
  }

  ghost predicate TrailsAt(g: Grammar, x: nat, y: nat, t: Token, d: nat)
    requires WellFormed(g)
    decreases d, 1
  {
    y < |g.nodes| && NextTo(g, x, y) && Starts(g, y, t, d)
  }

  ghost predicate CanStart(g: Grammar, i: nat, t: Token)
    requires WellFormed(g) && i < |g.nodes|
  {
    exists d: nat :: Starts(g, i, t, d)
  }

  ghost predicate CanTrail(g: Grammar, i: nat, t: Token)
    requires WellFormed(g) && i < |g.nodes|
  {
    exists d: nat :: Trails(g, i, t, d)
  }

  /** What may be in list `p`. */
  ghost predicate May(g: Grammar, p: nat, t: Token)
    requires WellFormed(g) && p < 2 * |g.nodes|
  {
    if p % 2 == 0 then CanStart(g, p / 2, t) else CanTrail(g, p / 2, t)
  }

  /** Nothing is in a list without a reason. */
  ghost predicate Sound(g: Grammar, lists: Lists)
    requires WellFormed(g) && |lists| == 2 * |g.nodes|
  {
    forall p, x | 0 <= p < |lists| && x in lists[p] :: May(g, p, x)
  }

  /** What may be in list `q` may be in list `p`. */
  ghost predicate Flows(g: Grammar, q: nat, p: nat)
    requires WellFormed(g) && q < 2 * |g.nodes| && p < 2 * |g.nodes|
  {
    forall t | May(g, q, t) :: May(g, p, t)
  }

  /** The lists have exactly what the grammar calls for. */
  ghost predicate Exact(g: Grammar, lists: Lists)
    requires WellFormed(g) && |lists| == 2 * |g.nodes|
  {
    && (forall i, t | 0 <= i < |g.nodes| :: t in lists[First(i)] <==> CanStart(g, i, t))
    && (forall i, t | 0 <= i < |g.nodes| :: t in lists[Follow(i)] <==> CanTrail(g, i, t))
  }

  // ---------- where each list may flow ----------

  lemma {:induction false} ListNode(i: nat)
    ensures First(i) % 2 == 0 && First(i) / 2 == i && Follow(i) % 2 == 1 && Follow(i) / 2 == i
  {
  }

  lemma {:induction false} OwnStart(g: Grammar, i: nat)
    requires WellFormed(g) && i < |g.nodes| && g.nodes[i].Terminal?
    ensures CanStart(g, i, g.nodes[i].token)
  {
    assert Opens(g, i, i, 0) && StartsAt(g, i, g.nodes[i].token, 0);
    assert Starts(g, i, g.nodes[i].token, 1);
  }

  /** What opens a node starts it. */
  lemma {:induction false} FirstUp(g: Grammar, i: nat, c: nat)
    requires WellFormed(g) && i < |g.nodes| && c < |g.nodes| && OpensStep(g, i, c)
    ensures Flows(g, First(c), First(i))
  {
    hide WellFormed, OpensStep, StartsAt;
    ListNode(i);
    ListNode(c);
    forall t | CanStart(g, c, t) ensures CanStart(g, i, t) {
      var d: nat :| Starts(g, c, t, d);
      var e := d - 1;
      var n: nat, b: nat :| n < |g.nodes| && Opens(g, c, n, b) && StartsAt(g, n, t, e);
      assert Opens(g, i, n, b + 1);
      assert Starts(g, i, t, d);
    }
  }

  lemma {:induction false} FollowToFirst(g: Grammar, i: nat)
    requires WellFormed(g) && i < |g.nodes| && Nullable(g, i)
    ensures Flows(g, Follow(i), First(i))
  {
    hide WellFormed, Trails, Nullable;
    ListNode(i);
    forall t | CanTrail(g, i, t) ensures CanStart(g, i, t) {
      var d: nat :| Trails(g, i, t, d);
      assert Opens(g, i, i, 0) && StartsAt(g, i, t, d);
      assert Starts(g, i, t, d + 1);
    }
  }

  /** Linked nodes exchange their follow lists. */
  lemma {:induction false} FollowLinked(g: Grammar, a: nat, b: nat)
    requires WellFormed(g) && Linked(g, a, b)
    ensures Flows(g, Follow(a), Follow(b)) && Flows(g, Follow(b), Follow(a))
  {
    hide WellFormed, EndsWith;
    FollowOver(g, a, b);
    FollowOver(g, b, a);
  }

  lemma {:induction false} FollowOver(g: Grammar, a: nat, b: nat)
    requires WellFormed(g) && Linked(g, a, b)
    ensures Flows(g, Follow(a), Follow(b))
  {
    hide WellFormed, EndsWith, Same, Starts;
    ListNode(a);
    ListNode(b);
    forall t | CanTrail(g, a, t) ensures CanTrail(g, b, t) {
      var d: nat :| Trails(g, a, t, d);
      TrailsOver(g, a, b, t, d);
    }
  }

  lemma {:induction false} TrailsOver(g: Grammar, a: nat, b: nat, t: Token, d: nat)
    requires WellFormed(g) && Linked(g, a, b) && Trails(g, a, t, d)
    ensures Trails(g, b, t, d)
  {
    hide WellFormed, EndsWith, Same, Starts;
    var e := d - 1;
    var x: nat, y: nat, c: nat :| Same(g, a, x, c) && TrailsAt(g, x, y, t, e);
    SameThrough(g, b, a, x, c);
  }

  lemma {:induction false} SameThrough(g: Grammar, b: nat, a: nat, x: nat, c: nat)
    requires WellFormed(g) && Linked(g, b, a) && Same(g, a, x, c)
    ensures Same(g, b, x, c + 1)
  {
    hide WellFormed, EndsWith;
  }

  lemma {:induction false} TrailsHere(g: Grammar, n: nat, t: Token, d: nat)
    requires WellFormed(g) && n < |g.nodes| && !g.nodes[n].Terminal? && StartsAt(g, n, t, d)
    ensures Nullable(g, n) && CanTrail(g, n, t)
  {
  }

  lemma {:induction false} FirstToFollow(g: Grammar, x: nat, y: nat)
    requires WellFormed(g) && x < |g.nodes| && y < |g.nodes| && NextTo(g, x, y)
    ensures Flows(g, First(y), Follow(x))
  {
    hide WellFormed, NextTo, Starts;
    ListNode(x);
    ListNode(y);
    forall t | CanStart(g, y, t) ensures CanTrail(g, x, t) {
      var d: nat :| Starts(g, y, t, d);
      assert Same(g, x, x, 0) && TrailsAt(g, x, y, t, d);
      assert Trails(g, x, t, d + 1);
    }
  }

  /** A nonterminal starts with nothing its target does not start with. */
  lemma {:induction false} FirstDown(g: Grammar, i: nat)
    requires WellFormed(g) && i < |g.nodes| && g.nodes[i].NonTerminal? && Defined(g, i)
    ensures Flows(g, First(i), First(Target(g, i)))
  {
    hide WellFormed, Nullable, Trails;
    var u := Target(g, i);
    ListNode(i);
    ListNode(u);
    forall t | CanStart(g, i, t) ensures CanStart(g, u, t) {
      var d: nat :| Starts(g, i, t, d);
      var e := d - 1;
      var n: nat, b: nat :| n < |g.nodes| && Opens(g, i, n, b) && StartsAt(g, n, t, e);
      if n == i {
        TrailsHere(g, i, t, e);
        TrailTarget(g, i, t);
      } else {
        assert Opens(g, u, n, b - 1);
        assert Starts(g, u, t, d);
      }
    }
  }

  lemma {:induction false} TrailTarget(g: Grammar, i: nat, t: Token)
    requires WellFormed(g) && i < |g.nodes| && g.nodes[i].NonTerminal? && Defined(g, i)
    requires Nullable(g, i) && CanTrail(g, i, t)
    ensures CanStart(g, Target(g, i), t)
  {
    hide WellFormed, Nullable, CanTrail, CanStart;
    var u := Target(g, i);
    TargetNullable(g, i);
    assert EndsWith(g, i, u) && Linked(g, i, u);
    ListNode(i);
    ListNode(u);
    assert May(g, Follow(i), t);
    FollowOver(g, i, u);
    FollowToFirst(g, u);
    assert May(g, First(u), t);
  }

  lemma {:induction false} TargetNullable(g: Grammar, i: nat)
    requires WellFormed(g) && i < |g.nodes| && g.nodes[i].NonTerminal? && Nullable(g, i)
    ensures Nullable(g, Target(g, i))
  {
    var d: nat :| Derives(g, i, [], d);
    assert Derives(g, Target(g, i), [], d - 1);
  }

  lemma {:induction false} FlowsSelf(g: Grammar, p: nat)
    requires WellFormed(g) && p < 2 * |g.nodes|
    ensures Flows(g, p, p)
  {
  }

  /** The two lists of a nonterminal and its target may be equated. */
  lemma {:induction false} TargetFlows(g: Grammar, i: nat)
    requires WellFormed(g) && i < |g.nodes| && g.nodes[i].NonTerminal?
    ensures var u := Target(g, i);
            && Flows(g, First(i), First(u)) && Flows(g, First(u), First(i))
            && Flows(g, Follow(i), Follow(u)) && Flows(g, Follow(u), Follow(i))
  {
    hide WellFormed, Flows, May;
    var u := Target(g, i);
    if Defined(g, i) {
      assert OpensStep(g, i, u) && EndsWith(g, i, u) && Linked(g, i, u);
      FirstUp(g, i, u);
      FirstDown(g, i);
      FollowLinked(g, i, u);
    } else {
      FlowsSelf(g, First(i));
      FlowsSelf(g, Follow(i));
    }
  }

  /** So may the follow lists of a wrapper or a choice and a child; its first list may take the child's. */
  lemma {:induction false} ChildFlows(g: Grammar, i: nat, k: nat)
    requires WellFormed(g) && i < |g.nodes| && k < Arity(g, i) && !g.nodes[i].Sequence?
    ensures var c := Child(g, i, k);
            Flows(g, First(c), First(i)) && Flows(g, Follow(c), Follow(i)) && Flows(g, Follow(i), Follow(c))
  {
    hide WellFormed, Flows, May;
    var c := Child(g, i, k);
    assert OpensStep(g, i, c) && EndsWith(g, i, c) && Linked(g, i, c);
    FirstUp(g, i, c);
    FollowLinked(g, i, c);
  }

  lemma {:induction false} RoundFlows(g: Grammar, i: nat)
    requires WellFormed(g) && i < |g.nodes| && (g.nodes[i].Plus? || g.nodes[i].Star?)
    ensures Flows(g, First(Child(g, i, 0)), Follow(Child(g, i, 0)))
  {
    hide WellFormed, Flows, May;
    var c := Child(g, i, 0);
    assert Repeated(g, c, i) && NextTo(g, c, c);
    FirstToFollow(g, c, c);
  }

  lemma {:induction false} ElementFlows(g: Grammar, eps: seq<bool>, i: nat, k: nat)
    requires WellFormed(g) && |eps| == |g.nodes| && EpsExact(g, eps)
    requires i < |g.nodes| && g.nodes[i].Sequence? && k < Arity(g, i)
    ensures (forall m | 0 <= m < k :: eps[Child(g, i, m)]) ==> Flows(g, First(Child(g, i, k)), First(i))
    ensures Flows(g, NextAfter(g, i, k), Follow(Child(g, i, k)))
  {
    hide WellFormed, Flows, May, Nullable;
    var c := Child(g, i, k);
    if forall m | 0 <= m < k :: eps[Child(g, i, m)] {
      assert OpensChild(g, i, c, k);
      assert OpensStep(g, i, c);
      FirstUp(g, i, c);
    }
    if k == Arity(g, i) - 1 {
      LastFlows(g, i);
    } else {
      assert Adjacent(g, c, Child(g, i, k + 1), i, k) && NextTo(g, c, Child(g, i, k + 1));
      FirstToFollow(g, c, Child(g, i, k + 1));
    }
  }

  lemma {:induction false} LastFlows(g: Grammar, i: nat)
    requires WellFormed(g) && i < |g.nodes| && g.nodes[i].Sequence? && Arity(g, i) > 0
    ensures var c := Child(g, i, Arity(g, i) - 1);
            Flows(g, Follow(c), Follow(i)) && Flows(g, Follow(i), Follow(c))
  {
    hide WellFormed, Flows, May;
    var c := Child(g, i, Arity(g, i) - 1);
    assert EndsWith(g, i, c) && Linked(g, i, c);
    FollowLinked(g, i, c);
  }

  /** The first list of a terminal is empty or holds just its token, so resetting it never shrinks it. */
  lemma {:induction false} TerminalFirst(g: Grammar, lists: Lists, i: nat)
    requires WellFormed(g) && i < |g.nodes| && g.nodes[i].Terminal? && ListsOk(g, lists) && Sound(g, lists)
    ensures lists[First(i)] == [] || lists[First(i)] == [g.nodes[i].token]
  {
    hide WellFormed, Nullable;
    var t, s := g.nodes[i].token, lists[First(i)];
    ListNode(i);
    assert ListOk(g, s);
    forall a | 0 <= a < |s| ensures s[a] == t {
      assert s[a] in s && May(g, First(i), s[a]);
      OnlyOwn(g, i, s[a]);
    }
    NoDupBound(s, {t});
    assert s == seq(|s|, _ => t);
  }

  lemma {:induction false} OnlyOwn(g: Grammar, i: nat, x: Token)
    requires WellFormed(g) && i < |g.nodes| && g.nodes[i].Terminal? && CanStart(g, i, x)
    ensures x == g.nodes[i].token
  {
    hide WellFormed;
    var d: nat :| Starts(g, i, x, d);
    var e := d - 1;
    var n: nat, c: nat :| n < |g.nodes| && Opens(g, i, n, c) && StartsAt(g, n, x, e);
    assert n == i;
  }

  // ---------- at the fixpoint nothing is missing ----------

  lemma {:induction false} OpensSub(g: Grammar, eps: seq<bool>, lists: Lists, i: nat, n: nat, d: nat)
    requires Computed(g, eps, lists) && i < |g.nodes| && n < |g.nodes| && Opens(g, i, n, d)
    ensures Sub(lists, First(n), First(i))
    decreases d
  {
    hide WellFormed, AllSat, OpensStep;
    if i != n {
      var c: nat :| c < |g.nodes| && OpensStep(g, i, c) && Opens(g, c, n, d - 1);
      OpensSub(g, eps, lists, c, n, d - 1);
      OpensOne(g, eps, lists, i, c);
    }
  }

  lemma {:induction false} OpensOne(g: Grammar, eps: seq<bool>, lists: Lists, i: nat, c: nat)
    requires Computed(g, eps, lists) && i < |g.nodes| && c < |g.nodes| && OpensStep(g, i, c)
    ensures Sub(lists, First(c), First(i))
  {
    hide WellFormed, AllSat, Nullable;
    SatAt(g, eps, lists, i);
    if g.nodes[i].Sequence? {
      var k: nat :| OpensChild(g, i, c, k);
      assert SequenceSat(g, eps, lists, i, k);
    } else if g.nodes[i].Choice? {
      var k: nat :| k < Arity(g, i) && c == Child(g, i, k);
      assert ChoiceSat(g, lists, i, k);
    }
  }

  lemma {:induction false} SameSub(g: Grammar, eps: seq<bool>, lists: Lists, i: nat, x: nat, d: nat)
    requires Computed(g, eps, lists) && i < |g.nodes| && x < |g.nodes| && Same(g, i, x, d)
    ensures Sub(lists, Follow(x), Follow(i))
    decreases d
  {
    hide WellFormed, AllSat, EndsWith;
    if i != x {
      var j: nat :| Linked(g, i, j) && Same(g, j, x, d - 1);
      SameSub(g, eps, lists, j, x, d - 1);
      if EndsWith(g, i, j) {
        LinkSub(g, eps, lists, i, j);
      } else {
        LinkSub(g, eps, lists, j, i);
      }
    }
  }

  lemma {:induction false} LinkSub(g: Grammar, eps: seq<bool>, lists: Lists, a: nat, b: nat)
    requires Computed(g, eps, lists) && a < |g.nodes| && b < |g.nodes| && EndsWith(g, a, b)
    ensures Sub(lists, Follow(a), Follow(b)) && Sub(lists, Follow(b), Follow(a))
  {
    hide WellFormed, AllSat, Nullable;
    SatAt(g, eps, lists, a);
    if g.nodes[a].Sequence? {
      assert SequenceSat(g, eps, lists, a, Arity(g, a) - 1);
    } else if g.nodes[a].Choice? {
      var k: nat :| k < Arity(g, a) && b == Child(g, a, k);
      assert ChoiceSat(g, lists, a, k);
    }
  }

  lemma {:induction false} NextSub(g: Grammar, eps: seq<bool>, lists: Lists, x: nat, y: nat)
    requires Computed(g, eps, lists) && x < |g.nodes| && y < |g.nodes| && NextTo(g, x, y)
    ensures Sub(lists, First(y), Follow(x))
  {
    hide WellFormed, AllSat, Nullable;
    if j: nat, k: nat :| Adjacent(g, x, y, j, k) {
      SatAt(g, eps, lists, j);
      assert SequenceSat(g, eps, lists, j, k);
    } else {
      var j: nat :| Repeated(g, x, j) && x == y;
      SatAt(g, eps, lists, j);
    }
  }

  lemma {:induction false} StartsIn(g: Grammar, eps: seq<bool>, lists: Lists, i: nat, t: Token, d: nat)
    requires Computed(g, eps, lists) && i < |g.nodes| && Starts(g, i, t, d)
    ensures t in lists[First(i)]
    decreases d
  {
    hide WellFormed, AllSat, Nullable, Opens, Trails;
    var e := d - 1;
    var n: nat, c: nat :| n < |g.nodes| && Opens(g, i, n, c) && StartsAt(g, n, t, e);
    OpensSub(g, eps, lists, i, n, c);
    SatAt(g, eps, lists, n);
    if g.nodes[n] != Terminal(t) {
      TrailsIn(g, eps, lists, n, t, e);
    }
  }

  lemma {:induction false} TrailsIn(g: Grammar, eps: seq<bool>, lists: Lists, i: nat, t: Token, d: nat)
    requires Computed(g, eps, lists) && i < |g.nodes| && Trails(g, i, t, d)
    ensures t in lists[Follow(i)]
    decreases d
  {
    hide WellFormed, AllSat, EpsExact, Starts, Same;
    var e := d - 1;
    var x: nat, y: nat, c: nat :| Same(g, i, x, c) && TrailsAt(g, x, y, t, e);
    NextInRange(g, x, y);
    StartsIn(g, eps, lists, y, t, e);
    NextSub(g, eps, lists, x, y);
    SameSub(g, eps, lists, i, x, c);
  }

  lemma {:induction false} NextInRange(g: Grammar, x: nat, y: nat)
    requires WellFormed(g) && NextTo(g, x, y)
    ensures x < |g.nodes| && y < |g.nodes|
  {
  }

  /** At the fixpoint, lists that hold nothing without a reason are exact. */
  lemma {:induction false} ListsExact(g: Grammar, eps: seq<bool>, lists: Lists)
    requires Computed(g, eps, lists) && Sound(g, lists)
    ensures Exact(g, lists)
  {
    hide WellFormed, AllSat, EpsExact, Starts, Trails;
    forall i, t | 0 <= i < |g.nodes|
      ensures t in lists[First(i)] <==> CanStart(g, i, t)
      ensures t in lists[Follow(i)] <==> CanTrail(g, i, t)
    {
      ListNode(i);
      assert t in lists[First(i)] ==> May(g, First(i), t);
      assert t in lists[Follow(i)] ==> May(g, Follow(i), t);
      if CanStart(g, i, t) {
        var d: nat :| Starts(g, i, t, d);
        StartsIn(g, eps, lists, i, t, d);
      }
      if CanTrail(g, i, t) {
        var d: nat :| Trails(g, i, t, d);
        TrailsIn(g, eps, lists, i, t, d);
      }
    }
  }

  // ---------- what that says of the lists, and of strings ----------

  /** Node `i` opens with token `t`. */
  ghost predicate Begins(g: Grammar, i: nat, t: Token)
    requires WellFormed(g) && i < |g.nodes|
  {
    exists n: nat, c: nat :: BeginsAt(g, i, t, n, c)
  }

  ghost predicate BeginsAt(g: Grammar, i: nat, t: Token, n: nat, c: nat)
    requires WellFormed(g) && i < |g.nodes|
  {
    n < |g.nodes| && Opens(g, i, n, c) && g.nodes[n] == Terminal(t)
  }

  /** Node `i` opens with a nullable node whose follow list has `t`. */
  ghost predicate Borrows(g: Grammar, lists: Lists, i: nat, t: Token)
    requires WellFormed(g) && i < |g.nodes| && |lists| == 2 * |g.nodes|
  {
    exists n: nat, c: nat :: n < |g.nodes| && Opens(g, i, n, c) && Nullable(g, n) && t in lists[Follow(n)]
  }

  /** The first list has the tokens the node opens with and the follow lists of nullable nodes it opens with. */
  lemma {:induction false} FirstIs(g: Grammar, lists: Lists, i: nat, t: Token)
    requires WellFormed(g) && |lists| == 2 * |g.nodes| && Exact(g, lists) && i < |g.nodes|
    ensures t in lists[First(i)] <==> Begins(g, i, t) || Borrows(g, lists, i, t)
  {
    hide WellFormed, Nullable, Opens;
    if CanStart(g, i, t) {
      var d: nat :| Starts(g, i, t, d);
      var e := d - 1;
      var n: nat, c: nat :| n < |g.nodes| && Opens(g, i, n, c) && StartsAt(g, n, t, e);
      if g.nodes[n] == Terminal(t) {
        assert BeginsAt(g, i, t, n, c);
      } else {
        StartsByTrail(g, n, t, e);
      }
    }
    if Begins(g, i, t) {
      var n: nat, c: nat :| BeginsAt(g, i, t, n, c);
      assert StartsAt(g, n, t, 0) && Starts(g, i, t, 1);
    }
    if Borrows(g, lists, i, t) {
      var n: nat, c: nat :| n < |g.nodes| && Opens(g, i, n, c) && Nullable(g, n) && t in lists[Follow(n)];
      assert CanTrail(g, n, t);
      var d: nat :| Trails(g, n, t, d);
      assert StartsAt(g, n, t, d) && Starts(g, i, t, d + 1);
    }
  }

  lemma {:induction false} StartsByTrail(g: Grammar, n: nat, t: Token, d: nat)
    requires WellFormed(g) && n < |g.nodes| && g.nodes[n] != Terminal(t) && StartsAt(g, n, t, d)
    ensures Nullable(g, n) && CanTrail(g, n, t)
  {
  }

  /** Without nullable nodes the first list has just the tokens the node opens with. */
  lemma {:induction false} FirstWithoutNullable(g: Grammar, lists: Lists, i: nat, t: Token)
    requires WellFormed(g) && |lists| == 2 * |g.nodes| && Exact(g, lists) && i < |g.nodes|
    requires forall n | 0 <= n < |g.nodes| :: !Nullable(g, n)
    ensures t in lists[First(i)] <==> Begins(g, i, t)
  {
    hide WellFormed, Nullable, Exact;
    FirstIs(g, lists, i, t);
  }

  ghost predicate Trailed(g: Grammar, lists: Lists, i: nat, t: Token, x: nat, y: nat, c: nat)
    requires WellFormed(g) && i < |g.nodes| && |lists| == 2 * |g.nodes|
  {
    Same(g, i, x, c) && y < |g.nodes| && NextTo(g, x, y) && t in lists[First(y)]
  }

  /** The follow list has the first lists of what comes next to any node that ends where this one ends. */
  lemma {:induction false} FollowIs(g: Grammar, lists: Lists, i: nat, t: Token)
    requires WellFormed(g) && |lists| == 2 * |g.nodes| && Exact(g, lists) && i < |g.nodes|
    ensures t in lists[Follow(i)] <==> exists x: nat, y: nat, c: nat :: Trailed(g, lists, i, t, x, y, c)
  {
    hide WellFormed, Same, NextTo;
    if CanTrail(g, i, t) {
      var d: nat :| Trails(g, i, t, d);
      TrailedFrom(g, lists, i, t, d);
    }
    if x: nat, y: nat, c: nat :| Trailed(g, lists, i, t, x, y, c) {
      assert CanStart(g, y, t);
      var d: nat :| Starts(g, y, t, d);
      assert TrailsAt(g, x, y, t, d) && Trails(g, i, t, d + 1);
    }
  }

  lemma {:induction false} TrailedFrom(g: Grammar, lists: Lists, i: nat, t: Token, d: nat)
    requires WellFormed(g) && |lists| == 2 * |g.nodes| && Exact(g, lists) && i < |g.nodes| && Trails(g, i, t, d)
    ensures exists x: nat, y: nat, c: nat :: Trailed(g, lists, i, t, x, y, c)
  {
    hide WellFormed, Same, NextTo, Starts;
    var e := d - 1;
    var x: nat, y: nat, c: nat :| Same(g, i, x, c) && TrailsAt(g, x, y, t, e);
    StartsNext(g, x, y, t, e);
    assert Trailed(g, lists, i, t, x, y, c);
  }

  lemma {:induction false} StartsNext(g: Grammar, x: nat, y: nat, t: Token, d: nat)
    requires WellFormed(g) && TrailsAt(g, x, y, t, d)
    ensures y < |g.nodes| && NextTo(g, x, y) && CanStart(g, y, t)
  {
  }

  /** Every node derives something. */
  ghost predicate Productive(g: Grammar)
    requires WellFormed(g)
  {
    forall i | 0 <= i < |g.nodes| :: DerivesSome(g, i)
  }

  ghost predicate DerivesSome(g: Grammar, i: nat)
    requires WellFormed(g) && i < |g.nodes|
  {
    exists w: seq<Token>, d: nat :: Derives(g, i, w, d)
  }

  ghost predicate DerivesFrom(g: Grammar, i: nat, t: Token)
    requires WellFormed(g) && i < |g.nodes|
  {
    exists w: seq<Token>, d: nat :: Derives(g, i, w, d) && w != [] && w[0] == t
  }

  /** The tokens a node opens with are those that begin the strings it derives, if every node derives something. */
  lemma {:induction false} BeginsIff(g: Grammar, i: nat, t: Token)
    requires WellFormed(g) && Productive(g) && i < |g.nodes|
    ensures Begins(g, i, t) <==> DerivesFrom(g, i, t)
  {
    hide WellFormed, Productive, Derives, Opens;
    if Begins(g, i, t) {
      var n: nat, c: nat :| BeginsAt(g, i, t, n, c);
      var w, d := BeginsDerives(g, i, t, n, c);
    }
    if w: seq<Token>, d: nat :| Derives(g, i, w, d) && w != [] && w[0] == t {
      DerivesBegins(g, i, w, d);
    }
  }

  lemma {:induction false} BeginsDerives(g: Grammar, i: nat, t: Token, n: nat, c: nat)
    returns (w: seq<Token>, d: nat)
    requires WellFormed(g) && Productive(g) && i < |g.nodes| && BeginsAt(g, i, t, n, c)
    ensures Derives(g, i, w, d) && w != [] && w[0] == t
    decreases c
  {
    hide WellFormed, Productive, OpensStep;
    if i == n {
      w, d := [t], 1;
    } else {
      var b: nat :| b < |g.nodes| && OpensStep(g, i, b) && Opens(g, b, n, c - 1);
      assert BeginsAt(g, b, t, n, c - 1);
      var v, e := BeginsDerives(g, b, t, n, c - 1);
      w, d := StepDerives(g, i, b, v, e);
    }
  }

  /** What a node opens with can be completed to a string of the node. */
  lemma {:induction false} StepDerives(g: Grammar, i: nat, b: nat, v: seq<Token>, e: nat)
    returns (w: seq<Token>, d: nat)
    requires WellFormed(g) && Productive(g) && i < |g.nodes| && b < |g.nodes| && OpensStep(g, i, b)
    requires Derives(g, b, v, e) && v != []
    ensures Derives(g, i, w, d) && w != [] && w[0] == v[0]
  {
    hide WellFormed, Productive, Nullable;
    w, d := v, e + 1;
    if g.nodes[i].Sequence? {
      var k: nat :| OpensChild(g, i, b, k);
      var f: nat;
      w, f := SequenceDerives(g, i, k, v, e);
      d := f + 1;
    } else if g.nodes[i].Plus? {
      assert v[..|v|] == v && v[|v|..] == [];
      assert PlusAt(g, i, v, |v|, e);
    } else if g.nodes[i].Star? {
      assert v[..|v|] == v && v[|v|..] == [];
      assert Derives(g, i, [], e);
      assert StarAt(g, i, v, |v|, e);
    }
  }

  lemma {:induction false} SequenceDerives(g: Grammar, i: nat, k: nat, v: seq<Token>, e: nat)
    returns (w: seq<Token>, d: nat)
    requires WellFormed(g) && Productive(g) && i < |g.nodes| && k < Arity(g, i)
    requires forall m | 0 <= m < k :: Nullable(g, Child(g, i, m))
    requires Derives(g, Child(g, i, k), v, e) && v != []
    ensures DerivesAll(g, i, 0, w, d) && w != [] && w[0] == v[0]
  {
    hide WellFormed, Productive, Nullable, Derives;
    var r, f := RestDerives(g, i, k + 1);
    d := if e < f then f else e;
    Deeper(g, Child(g, i, k), v, e, d);
    DeeperAll(g, i, k + 1, r, f, d);
    w := v + r;
    assert w[..|v|] == v && w[|v|..] == r;
    assert DerivesAll(g, i, k, w, d);
    d := SkipNullable(g, i, k, w, d);
  }

  /** The children from `k` on derive something together. */
  lemma {:induction false} RestDerives(g: Grammar, i: nat, k: nat) returns (w: seq<Token>, d: nat)
    requires WellFormed(g) && Productive(g) && i < |g.nodes| && k <= Arity(g, i)
    ensures DerivesAll(g, i, k, w, d)
    decreases Arity(g, i) - k
  {
    hide WellFormed, Derives;
    w, d := [], 0;
    if k < Arity(g, i) {
      var r, f := RestDerives(g, i, k + 1);
      assert DerivesSome(g, Child(g, i, k));
      var v: seq<Token>, e: nat :| Derives(g, Child(g, i, k), v, e);
      d := if e < f then f else e;
      Deeper(g, Child(g, i, k), v, e, d);
      DeeperAll(g, i, k + 1, r, f, d);
      w := v + r;
      assert w[..|v|] == v && w[|v|..] == r;
    }
  }

  /** Nullable children ahead of the `k`th may derive nothing. */
  lemma {:induction false} SkipNullable(g: Grammar, i: nat, k: nat, w: seq<Token>, d: nat) returns (f: nat)
    requires WellFormed(g) && i < |g.nodes| && k <= Arity(g, i) && DerivesAll(g, i, k, w, d)
    requires forall m | 0 <= m < k :: Nullable(g, Child(g, i, m))
    ensures DerivesAll(g, i, 0, w, f)
    decreases k
  {
    hide WellFormed, Derives;
    f := d;
    if k > 0 {
      var c := Child(g, i, k - 1);
      assert Nullable(g, c);
      var e: nat :| Derives(g, c, [], e);
      var b := if e < d then d else e;
      Deeper(g, c, [], e, b);
      DeeperAll(g, i, k, w, d, b);
      assert w[..0] == [] && w[0..] == w;
      assert DerivesAll(g, i, k - 1, w, b);
      f := SkipNullable(g, i, k - 1, w, b);
    }
  }

  /** A node opens with the first token of every string it derives. */
  lemma {:induction false} DerivesBegins(g: Grammar, i: nat, w: seq<Token>, d: nat)
    requires WellFormed(g) && i < |g.nodes| && Derives(g, i, w, d) && w != []
    ensures Begins(g, i, w[0])
    decreases d, 1, 0
  {
    hide WellFormed, DerivesAll, PlusAt, StarAt, Begins, Nullable;
    match g.nodes[i]
    case Terminal(t) => BeginsSelf(g, i);
    case Eval =>
    case NonTerminal(_) =>
      DerivesBegins(g, Target(g, i), w, d - 1);
      BeginsUp(g, i, Target(g, i), w[0]);
    case Sequence(_) => AllBegins(g, i, 0, w, d - 1);
    case Choice(_) =>
      var k :| 0 <= k < Arity(g, i) && Derives(g, Child(g, i, k), w, d - 1);
      DerivesBegins(g, Child(g, i, k), w, d - 1);
      BeginsUp(g, i, Child(g, i, k), w[0]);
    case Option(_) =>
      DerivesBegins(g, Child(g, i, 0), w, d - 1);
      BeginsUp(g, i, Child(g, i, 0), w[0]);
    case Plus(_) => RoundsBegin(g, i, w, d);
    case Star(_) => RoundsBegin(g, i, w, d);
  }

  lemma {:induction false} BeginsSelf(g: Grammar, i: nat)
    requires WellFormed(g) && i < |g.nodes| && g.nodes[i].Terminal?
    ensures Begins(g, i, g.nodes[i].token)
  {
    assert BeginsAt(g, i, g.nodes[i].token, i, 0);
  }

  lemma {:induction false} BeginsUp(g: Grammar, i: nat, b: nat, t: Token)
    requires WellFormed(g) && i < |g.nodes| && b < |g.nodes| && OpensStep(g, i, b) && Begins(g, b, t)
    ensures Begins(g, i, t)
  {
    hide WellFormed, OpensStep;
    var n: nat, c: nat :| BeginsAt(g, b, t, n, c);
    assert BeginsAt(g, i, t, n, c + 1);
  }

  lemma {:induction false} RoundsBegin(g: Grammar, i: nat, w: seq<Token>, d: nat)
    requires WellFormed(g) && i < |g.nodes| && (g.nodes[i].Plus? || g.nodes[i].Star?) && Derives(g, i, w, d) && w != []
    ensures Begins(g, i, w[0])
    decreases d, 0, 0
  {
    hide WellFormed, Begins;
    var j: nat :| if g.nodes[i].Plus? then PlusAt(g, i, w, j, d - 1) else StarAt(g, i, w, j, d - 1);
    if j == 0 {
      assert w[0..] == w;
      DerivesBegins(g, i, w, d - 1);
    } else {
      DerivesBegins(g, Child(g, i, 0), w[..j], d - 1);
      BeginsUp(g, i, Child(g, i, 0), w[0]);
    }
  }

  lemma {:induction false} AllBegins(g: Grammar, i: nat, k: nat, w: seq<Token>, d: nat)
    requires WellFormed(g) && i < |g.nodes| && g.nodes[i].Sequence? && k <= Arity(g, i) && DerivesAll(g, i, k, w, d)
    requires w != [] && forall m | 0 <= m < k :: Nullable(g, Child(g, i, m))
    ensures Begins(g, i, w[0])
    decreases d, 2, Arity(g, i) - k
  {
    hide WellFormed, Begins;
    var j :| 0 <= j <= |w| && Derives(g, Child(g, i, k), w[..j], d) && DerivesAll(g, i, k + 1, w[j..], d);
    if j == 0 {
      assert w[..0] == [] && w[0..] == w;
      assert Nullable(g, Child(g, i, k));
      AllBegins(g, i, k + 1, w, d);
    } else {
      DerivesBegins(g, Child(g, i, k), w[..j], d);
      assert OpensChild(g, i, Child(g, i, k), k);
      BeginsUp(g, i, Child(g, i, k), w[0]);
    }
  }
}

/** The generator's two fixpoint computations. */
module Generator {
  import opened Grammar
  import opened Epsilon
  import opened FirstFollow
  import opened Exactness

  /** Flags that were copied from a child or target agree with it. */
  ghost predicate Backed(g: Grammar, eps: seq<bool>)
    requires WellFormed(g) && |eps| == |g.nodes|
  {
    forall i | 0 <= i < |eps| && eps[i] :: BackedAt(g, eps, i)
  }

  ghost predicate BackedAt(g: Grammar, eps: seq<bool>, i: nat)
    requires WellFormed(g) && |eps| == |g.nodes| && i < |g.nodes|
  {
    match g.nodes[i]
    case Terminal(_) => false
    case NonTerminal(_) => Defined(g, i) && eps[Target(g, i)]
    case Plus(_) => eps[Child(g, i, 0)]
    case _ => true
  }

  /** A pass that changed nothing has found the flags in order all the way down from node `i`. */
  ghost predicate EpsTree(g: Grammar, eps: seq<bool>, i: nat)
    requires WellFormed(g) && |eps| == |g.nodes| && i < |g.nodes|
    decreases i
  {
    EpsOk(g, eps, i) && forall k | 0 <= k < Arity(g, i) :: EpsTree(g, eps, Child(g, i, k))
  }

  ghost predicate More(a: seq<bool>, b: seq<bool>) {
    |a| == |b| && forall i | 0 <= i < |a| && a[i] :: b[i]
  }

  function Unset(eps: seq<bool>): nat {
    if eps == [] then 0 else Unset(eps[..|eps|-1]) + if eps[|eps|-1] then 0 else 1
  }

  lemma {:induction false} MoreUnset(a: seq<bool>, b: seq<bool>)
    requires More(a, b)
    ensures Unset(b) <= Unset(a) && (a != b ==> Unset(b) < Unset(a))
  {
    if a != [] {
      var n := |a| - 1;
      MoreUnset(a[..n], b[..n]);
      assert a == a[..n] + [a[n]] && b == b[..n] + [b[n]];
    }
  }

  lemma {:induction false} MoreTwice(a: seq<bool>, b: seq<bool>, c: seq<bool>)
    requires More(a, b) && More(b, c)
    ensures More(a, c) && (a == c ==> b == a)
  {
    if a == c {
      assert forall i | 0 <= i < |a| :: a[i] == b[i];
    }
  }

  lemma {:induction false} FlatNullable(g: Grammar, i: nat)
    requires WellFormed(g) && i < |g.nodes| && (g.nodes[i].Eval? || g.nodes[i].Option? || g.nodes[i].Star?)
    ensures Nullable(g, i)
  {
    assert Derives(g, i, [], 1);
  }

  /** A copied flag can only lag behind. */
  lemma {:induction false} Lags(g: Grammar, eps: seq<bool>, i: nat, c: nat)
    requires WellFormed(g) && |eps| == |g.nodes| && Justified(g, eps) && Backed(g, eps)
    requires i < |g.nodes| && c < |g.nodes| && eps[i] != eps[c]
    requires || (g.nodes[i].NonTerminal? && Defined(g, i) && c == Target(g, i))
             || (g.nodes[i].Plus? && c == Child(g, i, 0))
    ensures !eps[i] && eps[c] && Nullable(g, c)
  {
    hide WellFormed, Nullable;
  }

  class Generator {
    const g: Grammar
    var eps: seq<bool>
    var lists: Lists
    var changeCount: nat

    ghost predicate EpsValid()
      reads this
    {
      WellFormed(g) && |eps| == |g.nodes| && Justified(g, eps) && Backed(g, eps)
    }

    constructor (g: Grammar)
      requires WellFormed(g)
      ensures this.g == g && EpsValid() && changeCount == 0 && lists == seq(2 * |g.nodes|, _ => [])
    {
      this.g := g;
      eps := seq(|g.nodes|, _ => false);
      lists := seq(2 * |g.nodes|, _ => []);
      changeCount := 0;
    }

    /** Sets the flag of node `i`. */
    method Accept(i: nat)
      requires EpsValid() && i < |g.nodes| && !eps[i] && Nullable(g, i) && BackedAt(g, eps[i := true], i)
      modifies `eps, `changeCount
      ensures EpsValid() && eps == old(eps)[i := true] && changeCount == old(changeCount) + 1
    {
      ghost var was := eps;
      eps := eps[i := true];
      changeCount := changeCount + 1;
      forall n | 0 <= n < |eps| && eps[n] ensures BackedAt(g, eps, n) {
        assert n != i ==> BackedAt(g, was, n);
      }
    }

    /** Sets up the children of node `i`. */
    method SetupChildren(i: nat)
      requires EpsValid() && i < |g.nodes|
      modifies `eps, `changeCount
      ensures EpsValid() && More(old(eps), eps) && old(changeCount) <= changeCount
      ensures changeCount == old(changeCount) <==> eps == old(eps)
      ensures eps == old(eps) ==> forall k | 0 <= k < Arity(g, i) :: EpsTree(g, eps, Child(g, i, k))
      decreases i, 0
    {
      hide WellFormed, Justified, Backed, EpsTree;
      var k := 0;
      while k < Arity(g, i)
        invariant 0 <= k <= Arity(g, i) && EpsValid() && More(old(eps), eps) && old(changeCount) <= changeCount
        invariant changeCount == old(changeCount) <==> eps == old(eps)
        invariant eps == old(eps) ==> forall m | 0 <= m < k :: EpsTree(g, eps, Child(g, i, m))
      {
        ghost var was := eps;
        Setup(Child(g, i, k));
        MoreTwice(old(eps), was, eps);
        k := k + 1;
      }
    }

    /** A sequence accepts the empty string once all its children do. */
    method SetupSequence(i: nat)
      requires EpsValid() && i < |g.nodes| && g.nodes[i].Sequence? && !eps[i]
      modifies `eps, `changeCount
      ensures EpsValid() && More(old(eps), eps) && old(changeCount) <= changeCount
      ensures changeCount == old(changeCount) <==> eps == old(eps)
      ensures EpsOk(g, eps, i)
    {
      hide WellFormed, Backed, Nullable;
      var k := 0;
      while k < Arity(g, i) && eps[Child(g, i, k)]
        invariant 0 <= k <= Arity(g, i) && forall m | 0 <= m < k :: eps[Child(g, i, m)]
      {
        k := k + 1;
      }
      if k == Arity(g, i) {
        SequenceNullable(g, i);
        Accept(i);
      }
    }

    /** A choice accepts it once some child does; every such child counts as a change. */
    method SetupChoice(i: nat)
      requires EpsValid() && i < |g.nodes| && g.nodes[i].Choice? && !eps[i]
      modifies `eps, `changeCount
      ensures EpsValid() && More(old(eps), eps) && old(changeCount) <= changeCount
      ensures changeCount == old(changeCount) <==> eps == old(eps)
      ensures EpsOk(g, eps, i)
    {
      hide WellFormed, Backed, Nullable;
      var k := 0;
      while k < Arity(g, i)
        invariant 0 <= k <= Arity(g, i) && EpsValid() && old(changeCount) <= changeCount
        invariant changeCount == old(changeCount) <==> !eps[i]
        invariant eps == old(eps) || eps == old(eps)[i := true]
        invariant eps[i] || forall m | 0 <= m < k :: !eps[Child(g, i, m)]
      {
        if eps[Child(g, i, k)] {
          if eps[i] {
            changeCount := changeCount + 1;
          } else {
            OneNullable(g, i, Child(g, i, k));
            Accept(i);
          }
        }
        k := k + 1;
      }
    }

    /** `setup`. */
    method Setup(i: nat)
      requires EpsValid() && i < |g.nodes|
      modifies `eps, `changeCount
      ensures EpsValid() && More(old(eps), eps) && old(changeCount) <= changeCount
      ensures changeCount == old(changeCount) <==> eps == old(eps)
      ensures eps == old(eps) ==> EpsTree(g, eps, i)
      decreases i, 1
    {
      hide WellFormed, Justified, Backed, Nullable;
      SetupChildren(i);
      ghost var was := eps;
      match g.nodes[i] {
        case Terminal(_) =>
        case Eval =>
          if !eps[i] {
            FlatNullable(g, i);
            Accept(i);
          }
        case NonTerminal(name) =>
          if name in g.rules && eps[i] != eps[Target(g, i)] {
            Lags(g, eps, i, Target(g, i));
            OneNullable(g, i, Target(g, i));
            Accept(i);
          }
        case Sequence(_) =>
          if !eps[i] {
            SetupSequence(i);
          }
        case Choice(_) =>
          if !eps[i] {
            SetupChoice(i);
          }
        case Option(_) =>
          if !eps[i] {
            FlatNullable(g, i);
            Accept(i);
          }
        case Plus(_) =>
          var c := Child(g, i, 0);
          if eps[i] != eps[c] {
            Lags(g, eps, i, c);
            OneNullable(g, i, c);
            Accept(i);
          }
        case Star(_) =>
          if !eps[i] {
            FlatNullable(g, i);
            Accept(i);
          }
      }
    }

    /** One round over all rules. */
    method SetupRound()
      requires EpsValid()
      modifies `eps, `changeCount
      ensures EpsValid() && More(old(eps), eps) && old(changeCount) <= changeCount
      ensures changeCount == old(changeCount) <==> eps == old(eps)
      ensures eps == old(eps) ==> forall i | 0 <= i < |g.nodes| :: EpsOk(g, eps, i)
    {
      hide Justified, Backed, EpsTree;
      var k := 0;
      while k < |g.goals|
        invariant 0 <= k <= |g.goals| && EpsValid() && More(old(eps), eps) && old(changeCount) <= changeCount
        invariant changeCount == old(changeCount) <==> eps == old(eps)
        invariant eps == old(eps) ==> forall m | 0 <= m < k :: EpsTree(g, eps, g.rules[g.goals[m]])
      {
        ghost var was := eps;
        Setup(g.rules[g.goals[k]]);
        MoreTwice(old(eps), was, eps);
        k := k + 1;
      }
      if eps == old(eps) {
        EpsEverywhere(g, eps);
      }
    }

    /** The first loop of `calculate`: ends for every grammar, with exact flags. */
    method ComputeEpsilon()
      requires EpsValid() && changeCount == 0
      modifies `eps, `changeCount
      ensures EpsValid() && changeCount == 0 && EpsExact(g, eps)
    {
      hide WellFormed, Justified, Backed, EpsOk, Nullable;
      var done := false;
      while !done
        invariant EpsValid() && changeCount == 0
        invariant done ==> forall i | 0 <= i < |g.nodes| :: EpsOk(g, eps, i)
        decreases !done, Unset(eps)
      {
        ghost var was := eps;
        SetupRound();
        MoreUnset(was, eps);
        done := changeCount == 0;
        changeCount := 0;
      }
      forall n | 0 <= n < |g.nodes| ensures eps[n] <==> Nullable(g, n) {
        EpsilonExact(g, eps, n);
      }
    }

    ghost predicate ListsValid()
      reads this
    {
      && WellFormed(g) && |eps| == |g.nodes| && EpsExact(g, eps)
      && ListsOk(g, lists) && Sound(g, lists)
    }

    /** `add_to` with the elements of list `q`. */
    method AddTo(p: nat, q: nat)
      requires ListsValid() && p < |lists| && q < |lists| && Flows(g, q, p)
      modifies `lists, `changeCount
      ensures ListsValid() && Step(old(lists), old(changeCount), lists, changeCount)
      ensures lists == old(lists) ==> Sub(lists, q, p)
    {
      var additions := lists[q];
      var k := 0;
      while k < |additions|
        invariant 0 <= k <= |additions| && ListsValid() && Step(old(lists), old(changeCount), lists, changeCount)
        invariant forall m | 0 <= m < k :: additions[m] in lists[p]
      {
        if additions[k] !in lists[p] {
          Append(p, additions[k]);
        }
        k := k + 1;
      }
    }

    method Append(p: nat, x: Token)
      requires ListsValid() && p < |lists| && x !in lists[p] && x in Tokens(g) && May(g, p, x)
      modifies `lists, `changeCount
      ensures ListsValid() && Step(old(lists), old(changeCount), lists, changeCount) && x in lists[p]
      ensures lists == old(lists)[p := old(lists)[p] + [x]]
    {
      hide WellFormed, EpsExact;
      TotalUpdate(lists, p, lists[p] + [x]);
      lists := lists[p := lists[p] + [x]];
      changeCount := changeCount + 1;
    }

    /** `Node.update`. */
    method UpdateBase(i: nat)
      requires ListsValid() && i < |g.nodes|
      modifies `lists, `changeCount
      ensures ListsValid() && Step(old(lists), old(changeCount), lists, changeCount)
      ensures lists == old(lists) && eps[i] ==> Sub(lists, Follow(i), First(i))
    {
      hide WellFormed, Nullable, Sound;
      if eps[i] {
        FollowToFirst(g, i);
        AddTo(First(i), Follow(i));
      }
    }

    method UpdateTerminal(i: nat)
      requires ListsValid() && i < |g.nodes| && g.nodes[i].Terminal?
      modifies `lists, `changeCount
      ensures ListsValid() && Step(old(lists), old(changeCount), lists, changeCount)
      ensures lists[First(i)] == [g.nodes[i].token]
    {
      var t := g.nodes[i].token;
      TerminalFirst(g, lists, i);
      if lists[First(i)] != [t] {
        OwnStart(g, i);
        ListNode(i);
        assert [] + [t] == [t];
        Append(First(i), t);
      }
    }

    method UpdateNonTerminal(i: nat)
      requires ListsValid() && i < |g.nodes| && g.nodes[i].NonTerminal?
      modifies `lists, `changeCount
      ensures ListsValid() && Step(old(lists), old(changeCount), lists, changeCount)
      ensures var t := Target(g, i);
              lists == old(lists) ==>
                Sub(lists, First(t), First(i)) && Sub(lists, First(i), First(t)) &&
                Sub(lists, Follow(t), Follow(i)) && Sub(lists, Follow(i), Follow(t))
    {
      hide WellFormed, EpsExact, Sound, Step, Sub, Flows;
      var t := Target(g, i);
      TargetFlows(g, i);
      AddTo(First(i), First(t));
      ghost var l1, c1 := lists, changeCount;
      AddTo(First(t), First(i));
      ghost var l2, c2 := lists, changeCount;
      AddTo(Follow(i), Follow(t));
      ghost var l3, c3 := lists, changeCount;
      AddTo(Follow(t), Follow(i));
      StepTwice(l2, c2, l3, c3, lists, changeCount);
      StepTwice(l1, c1, l2, c2, lists, changeCount);
      StepTwice(old(lists), old(changeCount), l1, c1, lists, changeCount);
    }

    method UpdateWrapper(i: nat, repeats: bool)
      requires ListsValid() && i < |g.nodes| && (g.nodes[i].Option? || g.nodes[i].Plus? || g.nodes[i].Star?)
      requires repeats ==> !g.nodes[i].Option?
      modifies `lists, `changeCount
      ensures ListsValid() && Step(old(lists), old(changeCount), lists, changeCount)
      ensures lists == old(lists) ==> WrapperSat(g, lists, i) && (repeats ==> RepeatSat(g, lists, i))
    {
      hide WellFormed, EpsExact, Sound, Step, Sub, Flows;
      var c := Child(g, i, 0);
      ChildFlows(g, i, 0);
      AddTo(First(i), First(c));
      ghost var l1, c1 := lists, changeCount;
      AddTo(Follow(i), Follow(c));
      ghost var l2, c2 := lists, changeCount;
      AddTo(Follow(c), Follow(i));
      StepTwice(l1, c1, l2, c2, lists, changeCount);
      StepTwice(old(lists), old(changeCount), l1, c1, lists, changeCount);
      if repeats {
        ghost var l3, c3 := lists, changeCount;
        RoundFlows(g, i);
        AddTo(Follow(c), First(c));
        StepTwice(old(lists), old(changeCount), l3, c3, lists, changeCount);
      }
    }

    method UpdateSequence(i: nat)
      requires ListsValid() && i < |g.nodes| && g.nodes[i].Sequence?
      modifies `lists, `changeCount
      ensures ListsValid() && Step(old(lists), old(changeCount), lists, changeCount)
      ensures lists == old(lists) ==> forall k | 0 <= k < Arity(g, i) :: SequenceSat(g, eps, lists, i, k)
      ensures lists == old(lists) && Arity(g, i) > 0 ==> Sub(lists, Follow(Child(g, i, Arity(g, i) - 1)), Follow(i))
    {
      hide WellFormed, EpsExact, Sound, Step, SequenceSat;
      StepNone(lists, changeCount);
      var empty := true;
      var k := 0;
      while k < Arity(g, i)
        invariant 0 <= k <= Arity(g, i) && ListsValid() && Step(old(lists), old(changeCount), lists, changeCount)
        invariant empty <==> forall m | 0 <= m < k :: eps[Child(g, i, m)]
        invariant lists == old(lists) ==> forall m | 0 <= m < k :: SequenceSat(g, eps, lists, i, m)
      {
        ghost var l0, c0 := lists, changeCount;
        UpdateElement(i, k, empty);
        StepTwice(old(lists), old(changeCount), l0, c0, lists, changeCount);
        if !eps[Child(g, i, k)] {
          empty := false;
        }
        k := k + 1;
      }
      if Arity(g, i) > 0 {
        ghost var l0, c0 := lists, changeCount;
        LastFlows(g, i);
        AddTo(Follow(i), Follow(Child(g, i, Arity(g, i) - 1)));
        StepTwice(old(lists), old(changeCount), l0, c0, lists, changeCount);
      }
    }

    method UpdateElement(i: nat, k: nat, empty: bool)
      requires ListsValid() && i < |g.nodes| && g.nodes[i].Sequence? && k < Arity(g, i)
      requires empty <==> forall m | 0 <= m < k :: eps[Child(g, i, m)]
      modifies `lists, `changeCount
      ensures ListsValid() && Step(old(lists), old(changeCount), lists, changeCount)
      ensures lists == old(lists) ==> SequenceSat(g, eps, lists, i, k)
    {
      hide WellFormed, EpsExact, Sound, Step, Sub, Flows;
      StepNone(lists, changeCount);
      var c := Child(g, i, k);
      ElementFlows(g, eps, i, k);
      if empty {
        AddTo(First(i), First(c));
      }
      ghost var l1, c1 := lists, changeCount;
      AddTo(Follow(c), NextAfter(g, i, k));
      StepTwice(old(lists), old(changeCount), l1, c1, lists, changeCount);
    }

    method UpdateChoice(i: nat)
      requires ListsValid() && i < |g.nodes| && g.nodes[i].Choice?
      modifies `lists, `changeCount
      ensures ListsValid() && Step(old(lists), old(changeCount), lists, changeCount)
      ensures lists == old(lists) ==> forall k | 0 <= k < Arity(g, i) :: ChoiceSat(g, lists, i, k)
    {
      hide WellFormed, EpsExact, Sound, Step, Sub, Nullable;
      StepNone(lists, changeCount);
      var k := 0;
      while k < Arity(g, i)
        invariant 0 <= k <= Arity(g, i) && ListsValid() && Step(old(lists), old(changeCount), lists, changeCount)
        invariant lists == old(lists) ==> forall m | 0 <= m < k :: Collected(g, lists, i, m)
      {
        ghost var l0, c0 := lists, changeCount;
        Collect(i, k);
        StepTwice(old(lists), old(changeCount), l0, c0, lists, changeCount);
        k := k + 1;
      }
      k := 0;
      while k < Arity(g, i)
        invariant 0 <= k <= Arity(g, i) && ListsValid() && Step(old(lists), old(changeCount), lists, changeCount)
        invariant lists == old(lists) ==> forall m | 0 <= m < Arity(g, i) :: Collected(g, lists, i, m)
        invariant lists == old(lists) ==> forall m | 0 <= m < k :: Sub(lists, Follow(i), Follow(Child(g, i, m)))
      {
        ghost var l0, c0 := lists, changeCount;
        ChildFlows(g, i, k);
        AddTo(Follow(Child(g, i, k)), Follow(i));
        StepTwice(old(lists), old(changeCount), l0, c0, lists, changeCount);
        k := k + 1;
      }
      if eps[i] {
        ghost var l0, c0 := lists, changeCount;
        FlagMeans(g, eps, i);
        FollowToFirst(g, i);
        AddTo(First(i), Follow(i));
        StepTwice(old(lists), old(changeCount), l0, c0, lists, changeCount);
      }
      if lists == old(lists) {
        forall m | 0 <= m < Arity(g, i) ensures ChoiceSat(g, lists, i, m) {
          assert Collected(g, lists, i, m);
        }
      }
    }

    method Collect(i: nat, k: nat)
      requires ListsValid() && i < |g.nodes| && g.nodes[i].Choice? && k < Arity(g, i)
      modifies `lists, `changeCount
      ensures ListsValid() && Step(old(lists), old(changeCount), lists, changeCount)
      ensures lists == old(lists) ==> Collected(g, lists, i, k)
    {
      hide WellFormed, EpsExact, Sound, Step, Sub, Flows;
      var c := Child(g, i, k);
      ChildFlows(g, i, k);
      AddTo(First(i), First(c));
      ghost var l1, c1 := lists, changeCount;
      AddTo(Follow(i), Follow(c));
      StepTwice(old(lists), old(changeCount), l1, c1, lists, changeCount);
    }

    /** Updates the children of node `i`. */
    method UpdateChildren(i: nat)
      requires ListsValid() && i < |g.nodes|
      modifies `lists, `changeCount
      ensures ListsValid() && Step(old(lists), old(changeCount), lists, changeCount)
      ensures lists == old(lists) ==> forall k | 0 <= k < Arity(g, i) :: SatTree(g, eps, lists, Child(g, i, k))
      decreases i, 0
    {
      hide WellFormed, EpsExact, Sound, Step, SatTree;
      StepNone(lists, changeCount);
      var k := 0;
      while k < Arity(g, i)
        invariant 0 <= k <= Arity(g, i) && ListsValid() && Step(old(lists), old(changeCount), lists, changeCount)
        invariant lists == old(lists) ==> forall m | 0 <= m < k :: SatTree(g, eps, lists, Child(g, i, m))
      {
        ghost var l0, c0 := lists, changeCount;
        Update(Child(g, i, k));
        StepTwice(old(lists), old(changeCount), l0, c0, lists, changeCount);
        k := k + 1;
      }
    }

    /** `update`. */
    method Update(i: nat)
      requires ListsValid() && i < |g.nodes|
      modifies `lists, `changeCount
      ensures ListsValid() && Step(old(lists), old(changeCount), lists, changeCount)
      ensures lists == old(lists) ==> SatTree(g, eps, lists, i)
      decreases i, 1
    {
      hide WellFormed, EpsExact, Sound, Step, Sub, SequenceSat, ChoiceSat, WrapperSat, RepeatSat;
      UpdateBase(i);
      ghost var l1, c1 := lists, changeCount;
      UpdateChildren(i);
      ghost var l2, c2 := lists, changeCount;
      StepTwice(old(lists), old(changeCount), l1, c1, l2, c2);
      StepNone(lists, changeCount);
      match g.nodes[i] {
        case Terminal(_) => UpdateTerminal(i);
        case Eval =>
        case NonTerminal(_) => UpdateNonTerminal(i);
        case Sequence(_) => UpdateSequence(i);
        case Choice(_) => UpdateChoice(i);
        case Option(_) => UpdateWrapper(i, false);
        case Plus(_) => UpdateWrapper(i, true);
        case Star(_) => UpdateWrapper(i, true);
      }
      StepTwice(old(lists), old(changeCount), l2, c2, lists, changeCount);
    }

    /** One round over all rules. */
    method UpdateRound()
      requires ListsValid()
      modifies `lists, `changeCount
      ensures ListsValid() && Step(old(lists), old(changeCount), lists, changeCount)
      ensures lists == old(lists) ==> AllSat(g, eps, lists)
    {
      hide EpsExact, Sound, Step, SatTree, AllSat;
      StepNone(lists, changeCount);
      var k := 0;
      while k < |g.goals|
        invariant 0 <= k <= |g.goals| && ListsValid() && Step(old(lists), old(changeCount), lists, changeCount)
        invariant lists == old(lists) ==> forall m | 0 <= m < k :: SatTree(g, eps, lists, g.rules[g.goals[m]])
      {
        ghost var l0, c0 := lists, changeCount;
        Update(g.rules[g.goals[k]]);
        StepTwice(old(lists), old(changeCount), l0, c0, lists, changeCount);
        k := k + 1;
      }
      if lists == old(lists) {
        SatEverywhere(g, eps, lists);
      }
    }

    /** The second loop of `calculate`: ends for every grammar, in a state that satisfies every node's equations. */
    method ComputeFirstFollow()
      requires ListsValid() && changeCount == 0
      modifies `lists, `changeCount
      ensures ListsValid() && AllSat(g, eps, lists)
    {
      hide WellFormed, EpsExact, Sound, AllSat;
      var done := false;
      ghost var bound := |lists| * |Tokens(g)|;
      while !done
        invariant ListsValid() && changeCount == 0 && |lists| * |Tokens(g)| == bound
        invariant done ==> AllSat(g, eps, lists)
        decreases !done, bound - Total(lists)
      {
        ghost var was := lists;
        UpdateRound();
        GrownTotal(was, lists);
        TotalBound(g, lists);
        done := changeCount == 0;
        changeCount := 0;
      }
    }

    /** `calculate`. */
    method Calculate()
      requires EpsValid() && changeCount == 0 && lists == seq(2 * |g.nodes|, _ => [])
      modifies this
      ensures WellFormed(g) && |eps| == |g.nodes| && |lists| == 2 * |g.nodes|
      ensures EpsExact(g, eps) && AllSat(g, eps, lists) && Complete(g, lists) && Exact(g, lists)
    {
      hide WellFormed, EpsExact, AllSat, Justified, Backed, Complete, Exact, Sound;
      ComputeEpsilon();
      EmptyLists(g, lists);
      ComputeFirstFollow();
      ComputedIsComplete(g, eps, lists);
      ListsExact(g, eps, lists);
    }
  }

  lemma {:induction false} EmptyLists(g: Grammar, lists: Lists)
    requires WellFormed(g) && lists == seq(2 * |g.nodes|, _ => [])
    ensures ListsOk(g, lists) && Sound(g, lists)
  {
    hide WellFormed;
    assert forall p | 0 <= p < |lists| :: lists[p] == [];
  }

  lemma {:induction false} SatEverywhere(g: Grammar, eps: seq<bool>, lists: Lists)
    requires WellFormed(g) && |eps| == |g.nodes| && |lists| == 2 * |g.nodes|
    requires forall m | 0 <= m < |g.goals| :: SatTree(g, eps, lists, g.rules[g.goals[m]])
    ensures AllSat(g, eps, lists)
  {
    hide Sat;
    forall i | 0 <= i < |g.nodes| ensures Sat(g, eps, lists, i) {
      SatFromAbove(g, eps, lists, i);
    }
  }

  lemma {:induction false} SatFromAbove(g: Grammar, eps: seq<bool>, lists: Lists, i: nat)
    requires WellFormed(g) && |eps| == |g.nodes| && |lists| == 2 * |g.nodes| && i < |g.nodes|
    requires forall m | 0 <= m < |g.goals| :: SatTree(g, eps, lists, g.rules[g.goals[m]])
    ensures SatTree(g, eps, lists, i)
    decreases |g.nodes| - i
  {
    hide Sat;
    if IsRoot(g, i) {
      var r :| r in g.rules && g.rules[r] == i;
      var m :| 0 <= m < |g.goals| && g.goals[m] == r;
    } else {
      var p: nat :| IsChild(g, i, p);
      var k: nat :| 0 <= k < |Children(g.nodes[p])| && Children(g.nodes[p])[k] == i;
      assert Child(g, p, k) == i;
      SatFromAbove(g, eps, lists, p);
    }
  }

  /** What the first pass over the children of a choice has checked. */
  ghost predicate Collected(g: Grammar, lists: Lists, i: nat, k: nat)
    requires WellFormed(g) && |lists| == 2 * |g.nodes| && i < |g.nodes| && k < Arity(g, i)
  {
    Sub(lists, First(Child(g, i, k)), First(i)) && Sub(lists, Follow(Child(g, i, k)), Follow(i))
  }

  ghost predicate SatTree(g: Grammar, eps: seq<bool>, lists: Lists, i: nat)
    requires WellFormed(g) && |eps| == |g.nodes| && |lists| == 2 * |g.nodes| && i < |g.nodes|
    decreases i
  {
    Sat(g, eps, lists, i) && forall k | 0 <= k < Arity(g, i) :: SatTree(g, eps, lists, Child(g, i, k))
  }

  lemma {:induction false} FlagMeans(g: Grammar, eps: seq<bool>, i: nat)
    requires WellFormed(g) && |eps| == |g.nodes| && EpsExact(g, eps) && i < |g.nodes|
    ensures eps[i] <==> Nullable(g, i)
  {
  }

  lemma {:induction false} StepNone(a: Lists, c: int)
    ensures Step(a, c, a, c)
  {
  }

  lemma {:induction false} EpsEverywhere(g: Grammar, eps: seq<bool>)
    requires WellFormed(g) && |eps| == |g.nodes|
    requires forall m | 0 <= m < |g.goals| :: EpsTree(g, eps, g.rules[g.goals[m]])
    ensures forall i | 0 <= i < |g.nodes| :: EpsOk(g, eps, i)
  {
    forall i | 0 <= i < |g.nodes| ensures EpsOk(g, eps, i) {
      EpsFromAbove(g, eps, i);
    }
  }

  /** Every node is below the root of some rule. */
  lemma {:induction false} EpsFromAbove(g: Grammar, eps: seq<bool>, i: nat)
    requires WellFormed(g) && |eps| == |g.nodes| && i < |g.nodes|
    requires forall m | 0 <= m < |g.goals| :: EpsTree(g, eps, g.rules[g.goals[m]])
    ensures EpsTree(g, eps, i)
    decreases |g.nodes| - i
  {
    if IsRoot(g, i) {
      var r :| r in g.rules && g.rules[r] == i;
      var m :| 0 <= m < |g.goals| && g.goals[m] == r;
    } else {
      var p: nat :| IsChild(g, i, p);
      var k: nat :| 0 <= k < |Children(g.nodes[p])| && Children(g.nodes[p])[k] == i;
      assert Child(g, p, k) == i;
      EpsFromAbove(g, eps, p);
    }
  }
}
