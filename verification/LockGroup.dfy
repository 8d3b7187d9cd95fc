/**
 A group of locks taken all or nothing. The group asks every lock it was given, counts the
 answers with a countdown and reports once, when the last answer is in.
 */
module GroupModel {
  import opened LockQueue

  datatype Status = Init | Wait | Lock | Timeout | Unlock

  /** What a member lock tells the group. */
  datatype Answer = Grant(lock: nat, id: nat) | Deny(lock: nat)

  /** What the group does in reply. */
  datatype Event = YesCallback | NoCallback | AbortCall(lock: nat, id: nat)

  /** The countdown. */
  datatype Ball = Ball(nWait: nat, nReady: nat, called: bool)

  datatype Group = Group(status: Status, tolock: map<nat, LockType>, locked: map<nat, nat>, ball: Ball, log: seq<Event>)

  const Start := Group(Init, map[], map[], Ball(0, 0, false), [])

  /** `lock_all`: what was collected becomes the set of locks to wait for. */
  function LockAll(g: Group): Group {
    g.(status := Wait, tolock := map[], ball := Ball(|g.tolock|, 0, false))
  }

  /** `abort_all_locked` went through `locked` in some order. */
  ghost predicate AbortsAll(events: seq<Event>, locked: map<nat, nat>) {
    && (forall i, j | 0 <= i < j < |events| :: events[i] != events[j])
    && (forall i | 0 <= i < |events| :: events[i].AbortCall?)
    && (forall l, id :: AbortCall(l, id) in events <==> l in locked && locked[l] == id && id != 0)
  }

  function Recorded(g: Group, a: Answer): Group {
    match a
    case Grant(l, id) => g.(locked := g.locked[l := id])
    case Deny(_) => g.(status := Timeout)
  }

  /** One answer arrives and the countdown is triggered. */
  ghost predicate AnswerTo(g: Group, a: Answer, g': Group) {
    var r := Recorded(g, a);
    var n := g.ball.nReady + 1;
    if n != g.ball.nWait then g' == r.(ball := g.ball.(nReady := n))
    else
      var b := Ball(g.ball.nWait, n, true);
      if r.status == Wait then g' == r.(ball := b, status := Lock, log := g.log + [YesCallback])
      else exists aborts :: AbortsAll(aborts, r.locked) && g' == r.(ball := b, log := g.log + [NoCallback] + aborts)
  }

  // ---------- one round ----------

  /** Each of the members answered at most once, and nobody else did. */
  ghost predicate Answers(m: map<nat, LockType>, answers: seq<Answer>) {
    && (forall i | 0 <= i < |answers| :: answers[i].lock in m)
    && (forall i, j | 0 <= i < j < |answers| :: answers[i].lock != answers[j].lock)
  }

  ghost predicate Complete(m: map<nat, LockType>, answers: seq<Answer>) {
    Answers(m, answers) && forall l | l in m :: exists i :: 0 <= i < |answers| && answers[i].lock == l
  }

  ghost predicate AllGranted(answers: seq<Answer>) {
    forall i | 0 <= i < |answers| :: answers[i].Grant?
  }

  function LocksOf(answers: seq<Answer>): (r: set<nat>) {
    set i | 0 <= i < |answers| :: answers[i].lock
  }

  /** The locks held once the answers are in, each with the id of its last grant. */
  function Merge(before: map<nat, nat>, answers: seq<Answer>): map<nat, nat> {
    if answers == [] then before
    else
      var rest := Merge(before, answers[..|answers|-1]);
      match answers[|answers|-1]
      case Grant(l, id) => rest[l := id]
      case Deny(_) => rest
  }

  ghost predicate Round(gs: seq<Group>, answers: seq<Answer>) {
    && |gs| == |answers| + 1
    && forall n | 0 <= n < |answers| :: AnswerTo(gs[n], answers[n], gs[n+1])
  }

  /** A member that is asked once is counted once. */
  lemma {:induction false} AnswerCount(m: map<nat, LockType>, answers: seq<Answer>)
    requires Answers(m, answers)
    ensures |answers| <= |m|
    ensures |answers| == |m| <==> Complete(m, answers)
  {
    LocksCount(answers);
    var ls := LocksOf(answers);
    assert ls <= m.Keys;
    SubsetCount(ls, m.Keys);
    if |answers| == |m| {
      assert ls == m.Keys;
      forall l | l in m ensures exists i :: 0 <= i < |answers| && answers[i].lock == l {
        assert l in ls;
      }
    }
    if Complete(m, answers) {
      assert m.Keys <= ls && ls == m.Keys;
      assert |m| == |m.Keys|;
    }
  }

  lemma {:induction false} LocksCount(answers: seq<Answer>)
    requires forall i, j | 0 <= i < j < |answers| :: answers[i].lock != answers[j].lock
    ensures |LocksOf(answers)| == |answers|
  {
    if answers != [] {
      var n := |answers| - 1;
      LocksCount(answers[..n]);
      assert LocksOf(answers) == LocksOf(answers[..n]) + {answers[n].lock};
      assert answers[n].lock !in LocksOf(answers[..n]);
    }
  }

  lemma {:induction false} SubsetCount(a: set<nat>, b: set<nat>)
    requires a <= b
    ensures |a| <= |b| && (|a| == |b| ==> a == b)
  {
    assert |b| == |a| + |b - a| by {
      assert b == a + (b - a);
    }
  }

  /** As long as an answer is missing the group only takes notes. */
  lemma {:induction false} Collecting(g: Group, gs: seq<Group>, answers: seq<Answer>, n: nat)
    requires Answers(g.tolock, answers) && Round(gs, answers) && gs[0] == LockAll(g)
    requires n <= |answers| && n < |g.tolock|
    ensures gs[n] == Group(if AllGranted(answers[..n]) then Wait else Timeout, map[], Merge(g.locked, answers[..n]),
                           Ball(|g.tolock|, n, false), g.log)
  {
    if n > 0 {
      Collecting(g, gs, answers, n - 1);
      assert answers[..n][..n-1] == answers[..n-1];
      assert AnswerTo(gs[n-1], answers[n-1], gs[n-1+1]);
      assert AllGranted(answers[..n]) <==> AllGranted(answers[..n-1]) && answers[n-1].Grant?;
    } else {
      assert answers[..0] == [];
    }
  }

  /** The outcome of a round: one callback when, and only when, every member of a non-empty set has answered. */
  ghost predicate Outcome(g: Group, answers: seq<Answer>, g': Group) {
    var held := Merge(g.locked, answers);
    && g'.locked == held && g'.tolock == map[]
    && if g.tolock == map[] || !Complete(g.tolock, answers) then
         g'.log == g.log && g'.status == if AllGranted(answers) then Wait else Timeout
       else if AllGranted(answers) then
         g'.log == g.log + [YesCallback] && g'.status == Lock
       else
         g'.status == Timeout && exists aborts :: AbortsAll(aborts, held) && g'.log == g.log + [NoCallback] + aborts
  }

  /** All or nothing, for every order in which the members answer. */
  lemma {:induction false} RoundOutcome(g: Group, gs: seq<Group>, answers: seq<Answer>)
    requires Answers(g.tolock, answers) && Round(gs, answers) && gs[0] == LockAll(g)
    ensures Outcome(g, answers, gs[|answers|])
  {
    hide AbortsAll, Complete, AnswerTo;
    AnswerCount(g.tolock, answers);
    var n := |answers|;
    assert answers[..n] == answers;
    if n < |g.tolock| {
      Collecting(g, gs, answers, n);
    } else if n > 0 {
      Collecting(g, gs, answers, n - 1);
      assert AnswerTo(gs[n-1], answers[n-1], gs[n-1+1]);
      LastAnswer(g, answers, gs[n]);
    }
  }

  /** The answer that completes the round. */
  lemma {:induction false} LastAnswer(g: Group, answers: seq<Answer>, g': Group)
    requires answers != [] && Complete(g.tolock, answers) && |answers| == |g.tolock|
    requires var n := |answers| - 1;
             var sofar := Group(if AllGranted(answers[..n]) then Wait else Timeout, map[],
                                Merge(g.locked, answers[..n]), Ball(|g.tolock|, n, false), g.log);
             AnswerTo(sofar, answers[n], g')
    ensures Outcome(g, answers, g')
  {
    hide AbortsAll, Complete;
    var n := |answers| - 1;
    assert answers == answers[..n] + [answers[n]];
    assert AllGranted(answers) <==> AllGranted(answers[..n]) && answers[n].Grant?;
    assert g.tolock != map[];
  }

  /** The countdown can neither run over nor fire twice, and the group's status is what `verify` expects. */
  lemma {:induction false} VerifiesHold(g: Group, gs: seq<Group>, answers: seq<Answer>, n: nat)
    requires Answers(g.tolock, answers) && Round(gs, answers) && gs[0] == LockAll(g) && n < |answers|
    ensures gs[n].ball.nReady + 1 <= gs[n].ball.nWait && !gs[n].ball.called
    ensures Recorded(gs[n], answers[n]).status == Wait || Recorded(gs[n], answers[n]).status == Timeout
  {
    AnswerCount(g.tolock, answers);
    Collecting(g, gs, answers, n);
  }

  // ---------- no grant is forgotten ----------

  ghost predicate Holds(locked: map<nat, nat>, l: nat, id: nat) {
    l in locked && locked[l] == id
  }

  /** `l` is a lock the answers grant anew. */
  ghost predicate Regrants(answers: seq<Answer>, l: nat) {
    exists i :: 0 <= i < |answers| && answers[i].Grant? && answers[i].lock == l
  }

  /** After the answers the group knows of every grant it still has, old or new. */
  ghost predicate Tracks(before: map<nat, nat>, answers: seq<Answer>) {
    forall l: nat, id: nat :: Holds(Merge(before, answers), l, id) <==> Holds(before, l, id) || Grant(l, id) in answers
  }

  /** A lock never hands out an id twice. */
  ghost predicate FreshIds(before: map<nat, nat>, answers: seq<Answer>) {
    forall l | l in before :: Grant(l, before[l]) !in answers
  }

  lemma {:induction false} MergeAt(before: map<nat, nat>, answers: seq<Answer>, l: nat, id: nat)
    requires forall i, j | 0 <= i < j < |answers| :: answers[i].lock != answers[j].lock
    ensures Holds(Merge(before, answers), l, id) <==>
              Grant(l, id) in answers || (Holds(before, l, id) && !Regrants(answers, l))
  {
    if answers != [] {
      var n := |answers| - 1;
      MergeAt(before, answers[..n], l, id);
      assert answers == answers[..n] + [answers[n]];
      assert Regrants(answers, l) <==> Regrants(answers[..n], l) || (answers[n].Grant? && answers[n].lock == l);
    }
  }

  /** A grant is forgotten exactly when a lock that is already held is granted again. */
  lemma {:induction false} TracksIff(m: map<nat, LockType>, before: map<nat, nat>, answers: seq<Answer>)
    requires Answers(m, answers) && FreshIds(before, answers)
    ensures Tracks(before, answers) <==> forall l | l in before :: !Regrants(answers, l)
  {
    forall l: nat, id: nat
      ensures Holds(Merge(before, answers), l, id) <==>
                Grant(l, id) in answers || (Holds(before, l, id) && !Regrants(answers, l))
    {
      MergeAt(before, answers, l, id);
    }
    if Tracks(before, answers) {
      forall l | l in before ensures !Regrants(answers, l) {
        assert Holds(before, l, before[l]);
      }
    }
  }

  /** So nothing is ever forgotten, whatever the members answer, exactly when no lock is added twice. */
  lemma {:induction false} AlwaysTracksIff(m: map<nat, LockType>, before: map<nat, nat>)
    ensures (forall answers | Answers(m, answers) && FreshIds(before, answers) :: Tracks(before, answers)) <==>
            m.Keys !! before.Keys
  {
    if m.Keys !! before.Keys {
      forall answers | Answers(m, answers) && FreshIds(before, answers) ensures Tracks(before, answers) {
        TracksIff(m, before, answers);
      }
    } else {
      var l :| l in m && l in before;
      var answers := [Grant(l, before[l] + 1)];
      assert Answers(m, answers) && FreshIds(before, answers);
      assert answers[0].Grant? && Regrants(answers, l);
      TracksIff(m, before, answers);
    }
  }

  /** A reader lock that is added and granted twice keeps its first grant for ever when the group fails. */
  lemma {:induction false} ForgottenGrant()
    ensures var before, answers := map[7 := 1], [Grant(7, 2), Deny(8)];
            var m := map[7 := RLock, 8 := WLock];
            && Complete(m, answers) && FreshIds(before, answers)
            && forall aborts | AbortsAll(aborts, Merge(before, answers)) :: AbortCall(7, 1) !in aborts
  {
    var before, answers := map[7 := 1], [Grant(7, 2), Deny(8)];
    var m := map[7 := RLock, 8 := WLock];
    assert answers[0].lock == 7 && answers[1].lock == 8;
    assert answers[..1] == [Grant(7, 2)] && answers[..1][..0] == [];
    assert Merge(before, answers[..1]) == map[7 := 2];
    assert Merge(before, answers) == map[7 := 2];
  }

  // ---------- the life of a group ----------

  /** The locks of one round and what they answered. */
  datatype Episode = Episode(m: map<nat, LockType>, answers: seq<Answer>)

  function HeldAfter(life: seq<Episode>): map<nat, nat> {
    if life == [] then map[] else Merge(HeldAfter(life[..|life|-1]), life[|life|-1].answers)
  }

  /** No lock is added to the group again while the group holds it. */
  ghost predicate NeverTwice(life: seq<Episode>) {
    forall n | 0 <= n < |life| ::
      && Answers(life[n].m, life[n].answers)
      && life[n].m.Keys !! HeldAfter(life[..n]).Keys
  }

  ghost predicate EverGranted(life: seq<Episode>, l: nat, id: nat) {
    exists n :: 0 <= n < |life| && Grant(l, id) in life[n].answers
  }

  /** Locks number their requests from 1 on (`LockModel.IssuedIds`, `TimeoutModel.IssuedIds`). */
  ghost predicate RealIds(life: seq<Episode>) {
    forall l :: !EverGranted(life, l, 0)
  }

  lemma {:induction false} FrontNeverTwice(life: seq<Episode>)
    requires NeverTwice(life) && life != []
    ensures NeverTwice(life[..|life|-1])
  {
    hide HeldAfter, Answers;
    var front := life[..|life|-1];
    forall k | 0 <= k < |front|
      ensures Answers(front[k].m, front[k].answers) && front[k].m.Keys !! HeldAfter(front[..k]).Keys
    {
      assert front[..k] == life[..k] && front[k] == life[k];
    }
  }

  /** If no lock is added twice, what the group holds is everything it was ever granted. */
  lemma {:induction false} HoldsAllGrants(life: seq<Episode>, l: nat, id: nat)
    requires NeverTwice(life)
    ensures Holds(HeldAfter(life), l, id) <==> EverGranted(life, l, id)
  {
    if life != [] {
      hide Merge;
      var n := |life| - 1;
      var front := life[..n];
      FrontNeverTwice(life);
      HoldsAllGrants(front, l, id);
      var e := life[n];
      MergeAt(HeldAfter(front), e.answers, l, id);
      assert e.m.Keys !! HeldAfter(front).Keys;
      assert EverGranted(life, l, id) <==> EverGranted(front, l, id) || Grant(l, id) in e.answers by {
        assert life == front + [e];
      }
    }
  }

  /** The states of a group between its rounds; `Outcome` is what a round comes to by `RoundOutcome`. */
  ghost predicate Lives(gs: seq<Group>, life: seq<Episode>) {
    && |gs| == |life| + 1 && gs[0] == Start
    && forall n | 0 <= n < |life| :: Outcome(gs[n].(tolock := life[n].m), life[n].answers, gs[n+1])
  }

  lemma {:induction false} LifeHolds(gs: seq<Group>, life: seq<Episode>, n: nat)
    requires Lives(gs, life) && n <= |life|
    ensures gs[n].locked == HeldAfter(life[..n])
  {
    if n > 0 {
      LifeHolds(gs, life, n - 1);
      assert Outcome(gs[n-1].(tolock := life[n-1].m), life[n-1].answers, gs[n-1+1]);
      assert life[..n][..n-1] == life[..n-1];
    }
  }

  /** When the last round of a life fails, exactly the grants of all its rounds are aborted, each once. */
  lemma {:induction false} FailureReleasesAll(gs: seq<Group>, life: seq<Episode>) returns (aborts: seq<Event>)
    requires Lives(gs, life) && NeverTwice(life) && life != []
    requires var last := life[|life|-1]; Complete(last.m, last.answers) && !AllGranted(last.answers)
    ensures gs[|life|].log == gs[|life|-1].log + [NoCallback] + aborts
    ensures forall i, j | 0 <= i < j < |aborts| :: aborts[i] != aborts[j]
    ensures forall l: nat, id: nat | id != 0 :: AbortCall(l, id) in aborts <==> EverGranted(life, l, id)
    ensures RealIds(life) ==> forall l, id :: AbortCall(l, id) in aborts <==> EverGranted(life, l, id)
  {
    hide EverGranted, NeverTwice, Merge;
    var n := |life|;
    LifeHolds(gs, life, n);
    assert life[..n] == life;
    var g, last := gs[n-1].(tolock := life[n-1].m), life[n-1];
    assert Outcome(g, last.answers, gs[n-1+1]);
    assert last.m != map[];
    aborts :| AbortsAll(aborts, HeldAfter(life)) && gs[n].log == g.log + [NoCallback] + aborts;
    forall l: nat, id: nat | id != 0 ensures AbortCall(l, id) in aborts <==> EverGranted(life, l, id) {
      HoldsAllGrants(life, l, id);
    }
  }
}

/** The countdown and the group as implemented. */
module LockGroup {
  import opened LockQueue
  import opened GroupModel

  class DragonBall {
    var nWait: nat
    var nReady: nat
    var called: bool

    function View(): Ball
      reads this
    {
      Ball(nWait, nReady, called)
    }

    constructor (n: nat)
      ensures View() == Ball(n, 0, false)
    {
      nWait, nReady, called := n, 0, false;
    }

    /** `trigger`; the caller fulfils the wish when it returns true. */
    method Trigger() returns (ready: bool)
      requires nReady < nWait && !called
      modifies this
      ensures ready <==> nReady == nWait
      ensures View() == Ball(old(nWait), old(nReady) + 1, ready)
    {
      nReady := nReady + 1;
      assert nReady <= nWait;
      ready := nReady == nWait;
      if ready {
        assert !called;
        called := true;
      }
    }
  }

  class ALockGroup {
    var status: Status
    var locked: map<nat, nat>
    var tolock: map<nat, LockType>
    var db: DragonBall
    var log: seq<Event>

    function View(): Group
      reads this, db
    {
      Group(status, tolock, locked, db.View(), log)
    }

    constructor ()
      ensures View() == Start && fresh(db)
    {
      status, locked, tolock, log := Init, map[], map[], [];
      db := new DragonBall(0);
    }

    method Add(l: nat, ty: LockType)
      requires status == Init || status == Lock
      modifies this
      ensures db == old(db) && View() == old(View()).(tolock := old(tolock)[l := ty])
    {
      tolock := tolock[l := ty];
    }

    /** `lock_all` up to asking: returns the locks to ask and with which type. */
    method LockAll() returns (ask: map<nat, LockType>)
      requires status == Init || status == Lock
      modifies this
      ensures fresh(db) && ask == old(tolock)
      ensures View() == GroupModel.LockAll(old(View()))
    {
      status := Wait;
      db := new DragonBall(|tolock|);
      ask := tolock;
      tolock := map[];
    }

    /** The wish of the countdown. */
    method Finish()
      requires status == Wait || status == Timeout
      modifies this`status, this`log
      ensures old(status) == Wait ==> status == Lock && log == old(log) + [YesCallback]
      ensures old(status) == Timeout ==> status == Timeout
      ensures old(status) == Timeout ==>
                exists aborts :: AbortsAll(aborts, locked) && log == old(log) + [NoCallback] + aborts
    {
      if status == Wait {
        status := Lock;
        log := log + [YesCallback];
      } else {
        log := log + [NoCallback];
        ghost var before := log;
        ghost var aborts := AbortAllLocked();
        assert log == before + aborts;
      }
    }

    /** `abort_all_locked`, in any order. */
    method AbortAllLocked() returns (ghost aborts: seq<Event>)
      modifies this`log
      ensures log == old(log) + aborts && AbortsAll(aborts, locked)
    {
      var todo := locked.Keys;
      aborts := [];
      while todo != {}
        invariant todo <= locked.Keys
        invariant log == old(log) + aborts
        invariant AbortsAll(aborts, locked - todo)
        decreases |todo|
      {
        var l :| l in todo;
        AbortsStep(aborts, locked, todo, l);
        if locked[l] != 0 {
          log := log + [AbortCall(l, locked[l])];
          aborts := aborts + [AbortCall(l, locked[l])];
        }
        todo := todo - {l};
      }
      assert locked - {} == locked;
    }

    method OnYes(l: nat, id: nat)
      requires db.nReady < db.nWait && !db.called && (status == Wait || status == Timeout)
      modifies this, db
      ensures db == old(db) && AnswerTo(old(View()), Grant(l, id), View())
    {
      locked := locked[l := id];
      var ready := db.Trigger();
      if ready {
        Finish();
      }
    }

    method OnNo(l: nat)
      requires db.nReady < db.nWait && !db.called && (status == Wait || status == Timeout)
      modifies this, db
      ensures db == old(db) && AnswerTo(old(View()), Deny(l), View())
    {
      status := Timeout;
      var ready := db.Trigger();
      if ready {
        Finish();
      }
    }

    /** A member asks for its lock back; `agreed` is what the owner's callback said. */
    method OnWound(l: nat, agreed: bool)
      modifies this`locked
      ensures locked == if agreed then old(locked) - {l} else old(locked)
    {
      if agreed {
        locked := locked - {l};
      }
    }

    method UnlockAll()
      requires status == Lock
      modifies this
      ensures db == old(db) && locked == old(locked) && tolock == old(tolock) && status == Unlock
      ensures exists aborts :: AbortsAll(aborts, locked) && log == old(log) + aborts
    {
      status := Unlock;
      ghost var aborts := AbortAllLocked();
    }
  }

  lemma {:induction false} AbortsStep(aborts: seq<Event>, locked: map<nat, nat>, todo: set<nat>, l: nat)
    requires todo <= locked.Keys && l in todo && AbortsAll(aborts, locked - todo)
    ensures AbortsAll(if locked[l] != 0 then aborts + [AbortCall(l, locked[l])] else aborts, locked - (todo - {l}))
  {
    assert AbortCall(l, locked[l]) !in aborts;
  }
}
