/**
 * When a call of `UnblockingSafeSet` returns. `find` never leaves its inner loop after a failed snip:
 * it reads `cur` again, finds it marked again and tries the same compare-and-set. So a call running
 * alone returns exactly when it does not stand before a marked `cur` that `pre` no longer
 * points to, and some such calls never return, whatever the other threads do.
 */
module LockFreeSetProgress {
  import opened AbstractSet
  import opened LockFreeSet

  /** `k` steps of thread `t` alone. */
  function Solo(s: State, t: nat, k: nat): State {
    if k == 0 then s else Apply(Solo(s, t, k - 1), Step(t))
  }

  predicate Active(s: State, t: nat) {
    t < |s.threads| && !s.threads[t].pc.Idle?
  }

  predicate Finished(s: State, t: nat) {
    t < |s.threads| && s.threads[t].pc.Done?
  }

  /** The window `t` is working on; the sentinels when it has none. */
  function WindowOf(pc: Pc): (int, int) {
    match pc
    case Search(pre, cur, snip) => (pre, cur)
    case Snip(pre, cur, succ) => (pre, cur)
    case AddAlloc(pre, cur) => (pre, cur)
    case AddCas(pre, cur, node) => (pre, cur)
    case RemoveRead(pre, cur) => (pre, cur)
    case RemoveMark(pre, cur, succ) => (pre, cur)
    case RemoveSnip(pre, cur, succ) => (pre, cur)
    case _ => (HEAD, TAIL)
  }

  predicate WindowIn(s: State, t: nat) {
    && t < |s.threads|
    && var (pre, cur) := WindowOf(s.threads[t].pc); IsNode(s.heap, pre) && IsNode(s.heap, cur)
  }

  predicate Aligned(s: State, t: nat)
    requires WindowIn(s, t)
  {
    var (pre, cur) := WindowOf(s.threads[t].pc);
    s.heap[pre].next == Word(cur, false)
  }

  predicate CurMarked(s: State, t: nat)
    requires WindowIn(s, t)
  {
    s.heap[WindowOf(s.threads[t].pc).1].next.marked
  }

  predicate InFind(pc: Pc) {
    pc.Search? || pc.Snip?
  }

  /** Inside `find`, before a marked node that the predecessor no longer points to. */
  predicate Stuck(s: State, t: nat)
    requires WindowIn(s, t)
  {
    InFind(s.threads[t].pc) && CurMarked(s, t) && !Aligned(s, t)
  }

  lemma WindowNodes(s: State, t: nat)
    requires Inv(s) && t < |s.threads|
    ensures WindowIn(s, t)
  {
    assert ThreadOk(s, t);
  }

  // ---------- A stuck call stays stuck when it runs alone ----------

  lemma StuckStep(s: State, t: nat)
    requires Inv(s) && Active(s, t) && WindowIn(s, t) && Stuck(s, t)
    ensures var s' := Apply(s, Step(t)); Active(s', t) && WindowIn(s', t) && Stuck(s', t)
  {
    hide Inv, Shape, ThreadsOk, RecordOk;
    Facts(s, t);
  }

  lemma {:induction false} StuckStays(s: State, t: nat, k: nat)
    requires Inv(s) && Active(s, t) && WindowIn(s, t) && Stuck(s, t)
    ensures var s' := Solo(s, t, k); Inv(s') && Active(s', t) && WindowIn(s', t) && Stuck(s', t)
  {
    hide Inv, Apply, Stuck, WindowIn;
    if k > 0 {
      StuckStays(s, t, k - 1);
      StuckStep(Solo(s, t, k - 1), t);
      ApplyInv(Solo(s, t, k - 1), Step(t));
    }
  }

  // ---------- A call that is not stuck finishes when it runs alone ----------

  const FAR: int := INT32_MAX - INT32_MIN

  /** A bound on the steps `t` still needs when it runs alone and is not stuck. */
  function Rank(s: State, t: nat): (r: int)
    requires WindowIn(s, t)
  {
    var left := INT32_MAX - s.heap[WindowOf(s.threads[t].pc).1].key;
    match s.threads[t].pc
    case Idle => 0
    case Done(_) => 0
    case RemoveSnip(_, _, _) => 1
    case AddCas(_, _, _) => if Aligned(s, t) then 1 else 2 * FAR + 8
    case AddAlloc(_, _) => if Aligned(s, t) then 2 else 2 * FAR + 9
    case RemoveMark(_, cur, succ) => if s.heap[cur].next == Word(succ, false) then 2 else 2 * FAR + 8
    case RemoveRead(_, _) => if !CurMarked(s, t) then 3 else 2 * FAR + 9
    case Search(_, _, _) => if Aligned(s, t) then 2 * left + 5 else 2 * FAR + 10
    case Snip(_, _, _) => 2 * left + 4
    case FindStart => 2 * FAR + 7
  }

  lemma KeysInRange(s: State, p: int)
    requires Inv(s) && IsNode(s.heap, p)
    ensures INT32_MIN <= s.heap[p].key <= INT32_MAX
  {
    assert NodesOk(s.heap, s.linked);
  }

  /** The rank of a thread that has just arrived at a window whose `pre` points to `cur`. */
  lemma ArriveRank(s: State, t: nat, pre: int, cur: int)
    requires Inv(s) && HasCall(s, t) && IsNode(s.heap, pre) && IsNode(s.heap, cur)
      && s.heap[pre].next == Word(cur, false)
    ensures var s' := Arrive(s, t, pre, cur);
      && Active(s', t) && WindowIn(s', t) && !Stuck(s', t)
      && 0 <= Rank(s', t) == 2 * (INT32_MAX - s.heap[cur].key) + 5 <= 2 * FAR + 5
  {
    KeysInRange(s, cur);
  }

  lemma SearchRankFalls(s: State, t: nat)
    requires Inv(s) && Active(s, t) && s.threads[t].pc.Search? && WindowIn(s, t) && !Stuck(s, t)
    ensures var s' := Apply(s, Step(t));
      Active(s', t) && WindowIn(s', t) && !Stuck(s', t) && 0 <= Rank(s', t) < Rank(s, t)
  {
    hide Inv, Shape, ThreadsOk, RecordOk;
    Facts(s, t);
    var Search(pre, cur, snip) := s.threads[t].pc;
    KeysInRange(s, cur);
    if !s.heap[cur].next.marked && s.heap[cur].key < OpOf(s, t).key {
      NextOf(s.heap, s.linked, s.chain, cur);
      ArriveRank(s, t, cur, s.heap[cur].next.ref);
    }
  }

  lemma SnipRankFalls(s: State, t: nat)
    requires Inv(s) && Active(s, t) && s.threads[t].pc.Snip? && WindowIn(s, t) && !Stuck(s, t)
    ensures var s' := Apply(s, Step(t));
      Active(s', t) && WindowIn(s', t) && !Stuck(s', t) && 0 <= Rank(s', t) < Rank(s, t)
  {
    hide Inv, Shape, ThreadsOk, RecordOk;
    Facts(s, t);
    var Snip(pre, cur, succ) := s.threads[t].pc;
    NextOf(s.heap, s.linked, s.chain, cur);
    UnlinkInv(s, t, pre, cur, succ);
    ArriveRank(Unlink(s, pre, cur, succ), t, pre, succ);
  }

  lemma LateRankFalls(s: State, t: nat)
    requires Inv(s) && Active(s, t) && !Finished(s, t) && !InFind(s.threads[t].pc) && WindowIn(s, t)
    ensures var s' := Apply(s, Step(t));
      Active(s', t) && WindowIn(s', t) && !Stuck(s', t) && 0 <= Rank(s', t) < Rank(s, t)
  {
    hide Inv, Shape, ThreadsOk, RecordOk;
    Facts(s, t);
    if s.threads[t].pc.FindStart? {
      NextOf(s.heap, s.linked, s.chain, HEAD);
      ArriveRank(s, t, HEAD, s.heap[HEAD].next.ref);
    }
  }

  lemma RankFalls(s: State, t: nat)
    requires Inv(s) && Active(s, t) && !Finished(s, t) && WindowIn(s, t) && !Stuck(s, t)
    ensures var s' := Apply(s, Step(t));
      Active(s', t) && WindowIn(s', t) && !Stuck(s', t) && 0 <= Rank(s', t) < Rank(s, t)
  {
    hide Inv, Apply, Stuck, WindowIn, Rank;
    match s.threads[t].pc
    case Search(_, _, _) => SearchRankFalls(s, t);
    case Snip(_, _, _) => SnipRankFalls(s, t);
    case _ => LateRankFalls(s, t);
  }

  /** Steps of `t` compose. */
  lemma {:induction false} SoloSplit(s: State, t: nat, k: nat)
    requires Inv(s)
    ensures var s' := Apply(s, Step(t)); Inv(s') && Solo(s', t, k) == Solo(s, t, k + 1)
    decreases k
  {
    hide Inv, Apply;
    ApplyInv(s, Step(t));
    if k > 0 {
      SoloSplit(s, t, k - 1);
    } else {
      assert Solo(s, t, 0) == s;
    }
  }

  lemma {:induction false} RunsToEnd(s: State, t: nat) returns (k: nat)
    requires Inv(s) && Active(s, t) && WindowIn(s, t) && !Stuck(s, t)
    ensures Finished(Solo(s, t, k), t)
    decreases Rank(s, t)
  {
    hide Inv, Apply, Stuck, WindowIn, Rank;
    if Finished(s, t) {
      k := 0;
    } else {
      RankFalls(s, t);
      ApplyInv(s, Step(t));
      var k' := RunsToEnd(Apply(s, Step(t)), t);
      SoloSplit(s, t, k');
      k := k' + 1;
    }
  }

  /** From any reachable state a call left to run alone reaches its `return` if and only if it is not stuck. */
  lemma SoloReturnsIffNotStuck(n: nat, actions: seq<Action>, t: nat)
    requires Active(Run(n, actions), t)
    ensures WindowIn(Run(n, actions), t)
    ensures (exists k: nat :: Finished(Solo(Run(n, actions), t, k), t)) <==> !Stuck(Run(n, actions), t)
  {
    hide Inv, Apply, WindowIn, Rank;
    var s := Run(n, actions);
    RunInv(n, actions);
    WindowNodes(s, t);
    if Stuck(s, t) {
      forall k: nat ensures !Finished(Solo(s, t, k), t) { StuckStays(s, t, k); }
    } else {
      var k := RunsToEnd(s, t);
      assert Finished(Solo(s, t, k), t);
    }
  }

  // ---------- Some calls never return ----------

  /** Before a marked node that has left the list, or behind a marked predecessor. */
  predicate Doomed(s: State, t: nat)
    requires WindowIn(s, t)
  {
    var (pre, cur) := WindowOf(s.threads[t].pc);
    InFind(s.threads[t].pc) && CurMarked(s, t) && (s.heap[pre].next.marked || cur !in s.chain)
  }

  /** A node that has left the list never comes back. */
  lemma LeavesForGood(s: State, a: Action, p: int)
    requires Inv(s) && p in s.linked && p !in s.chain
    ensures p in Apply(s, a).linked && p !in Apply(s, a).chain
  {
    hide Inv, Shape, ThreadsOk, RecordOk;
    if Enabled(s, a) && a.Step? {
      Facts(s, a.thread);
    }
  }

  lemma OtherPcKept(s: State, a: Action, t: nat)
    requires Inv(s) && t < |s.threads| && (a.thread != t || !Enabled(s, a))
    ensures t < |Apply(s, a).threads| && Apply(s, a).threads[t] == s.threads[t]
  {
    hide Inv;
    if Enabled(s, a) { InvSafe(s, a.thread); }
  }

  lemma DoomedOwnStep(s: State, t: nat)
    requires Inv(s) && Active(s, t) && WindowIn(s, t) && Doomed(s, t)
    ensures var s' := Apply(s, Step(t)); Active(s', t) && WindowIn(s', t) && Doomed(s', t)
    ensures Apply(s, Step(t)).threads[t].call == s.threads[t].call
  {
    hide Inv, Shape, ThreadsOk, RecordOk;
    Facts(s, t);
    var (pre, cur) := WindowOf(s.threads[t].pc);
    NextOf(s.heap, s.linked, s.chain, pre);
  }

  lemma DoomedStep(s: State, a: Action, t: nat)
    requires Inv(s) && Active(s, t) && WindowIn(s, t) && Doomed(s, t)
    ensures var s' := Apply(s, a);
      Active(s', t) && WindowIn(s', t) && Doomed(s', t) && s'.threads[t].call == s.threads[t].call
  {
    hide Inv, Apply, Shape, ThreadsOk, RecordOk;
    var (pre, cur) := WindowOf(s.threads[t].pc);
    WindowLinked(s, t);
    if a == Step(t) {
      DoomedOwnStep(s, t);
    } else {
      OtherPcKept(s, a, t);
      ApplyInv(s, a);
      WindowNodes(Apply(s, a), t);
      StepFreezes(s, a, cur);
      if s.heap[pre].next.marked { StepFreezes(s, a, pre); } else { LeavesForGood(s, a, cur); }
    }
  }

  lemma WindowLinked(s: State, t: nat)
    requires Inv(s) && Active(s, t) && InFind(s.threads[t].pc)
    ensures WindowOf(s.threads[t].pc).1 in s.linked
    ensures forall a: Action :: a.thread == t && a != Step(t) ==> !Enabled(s, a)
  {
    assert ThreadOk(s, t);
  }

  /** A doomed call is still in the same loop after any further actions of any threads. */
  lemma {:induction false} DoomedCallNeverReturns(n: nat, before: seq<Action>, after: seq<Action>, t: nat)
    requires Active(Run(n, before), t) && WindowIn(Run(n, before), t) && Doomed(Run(n, before), t)
    ensures var s := Run(n, before + after);
      && Active(s, t) && WindowIn(s, t) && Doomed(s, t) && !Finished(s, t)
      && s.threads[t].call == Run(n, before).threads[t].call
    decreases |after|
  {
    hide Inv, Apply, WindowIn;
    if after == [] {
      assert before + after == before;
    } else {
      var most := after[..|after| - 1];
      DoomedCallNeverReturns(n, before, most, t);
      assert (before + after)[..|before + after| - 1] == before + most;
      RunInv(n, before + most);
      DoomedStep(Run(n, before + most), after[|after| - 1], t);
    }
  }

  // ---------- A run that dooms a call ----------

  /** Thread 1 adds 10; thread 0 starts to remove 10 and reads its node; thread 1 removes it first. */
  const RACE: seq<Action> := [
    Begin(1, Add(10)), Step(1), Step(1), Step(1), Step(1), Finish(1),
    Begin(0, Remove(10)), Step(0),
    Begin(1, Remove(10)), Step(1), Step(1), Step(1), Step(1), Step(1)]

  lemma RunSnoc(n: nat, actions: seq<Action>, a: Action)
    ensures Run(n, actions + [a]) == Apply(Run(n, actions), a)
  {
    assert (actions + [a])[..|actions + [a]| - 1] == actions;
  }

  /** The state, without its record, that the first `k` actions of the race lead to. */
  ghost predicate Reached(k: nat, heap: seq<Node>, chain: set<int>, a: Thread, b: Thread, ops: seq<Op>)
    requires k <= |RACE|
  {
    var s := Run(2, RACE[..k]);
    && s.heap == heap && s.chain == chain && s.threads == [a, b]
    && |s.record.calls| == |ops| && forall c :: 0 <= c < |ops| ==> s.record.calls[c].op == ops[c]
  }

  lemma RaceStep(k: nat)
    requires k < |RACE|
    ensures Run(2, RACE[..k + 1]) == Apply(Run(2, RACE[..k]), RACE[k])
    ensures var s, t := Run(2, RACE[..k]), RACE[k].thread; Active(s, t) ==> Safe(s, t)
  {
    hide Inv, Safe, Apply, Run;
    assert RACE[..k + 1] == RACE[..k] + [RACE[k]];
    RunSnoc(2, RACE[..k], RACE[k]);
    RunInv(2, RACE[..k]);
    if Active(Run(2, RACE[..k]), RACE[k].thread) { InvSafe(Run(2, RACE[..k]), RACE[k].thread); }
  }

  const EMPTY_LIST: seq<Node> := [Node(INT32_MIN, Word(TAIL, false)), Node(INT32_MAX, Word(NULL, false))]
  const TEN_ALLOCATED: seq<Node> := EMPTY_LIST + [Node(10, Word(TAIL, false))]
  const TEN_LINKED: seq<Node> :=
    [Node(INT32_MIN, Word(2, false)), Node(INT32_MAX, Word(NULL, false)), Node(10, Word(TAIL, false))]
  const TEN_MARKED: seq<Node> :=
    [Node(INT32_MIN, Word(2, false)), Node(INT32_MAX, Word(NULL, false)), Node(10, Word(TAIL, true))]
  const TEN_REMOVED: seq<Node> :=
    [Node(INT32_MIN, Word(TAIL, false)), Node(INT32_MAX, Word(NULL, false)), Node(10, Word(TAIL, true))]

  lemma Race1()
    ensures Reached(1, EMPTY_LIST, {HEAD, TAIL}, Thread(0, Idle), Thread(0, FindStart), [Add(10)])
  {
    hide Inv, Safe;
    assert RACE[..0] == [];
    RaceStep(0);
  }

  lemma Race2()
    ensures Reached(2, EMPTY_LIST, {HEAD, TAIL}, Thread(0, Idle), Thread(0, Search(HEAD, TAIL, true)), [Add(10)])
  {
    hide Inv, Safe, Run;
    Race1();
    RaceStep(1);
  }

  lemma Race3()
    ensures Reached(3, EMPTY_LIST, {HEAD, TAIL}, Thread(0, Idle), Thread(0, AddAlloc(HEAD, TAIL)), [Add(10)])
  {
    hide Inv, Safe, Run;
    Race2();
    RaceStep(2);
  }

  lemma Race4()
    ensures Reached(4, TEN_ALLOCATED, {HEAD, TAIL}, Thread(0, Idle), Thread(0, AddCas(HEAD, TAIL, 2)), [Add(10)])
  {
    hide Inv, Safe, Run;
    Race3();
    RaceStep(3);
  }

  lemma Race5()
    ensures Reached(5, TEN_LINKED, {HEAD, 2, TAIL}, Thread(0, Idle), Thread(0, Done(true)), [Add(10)])
  {
    hide Inv, Safe, Run;
    Race4();
    RaceStep(4);
  }

  lemma Race6()
    ensures Reached(6, TEN_LINKED, {HEAD, 2, TAIL}, Thread(0, Idle), Thread(0, Idle), [Add(10)])
  {
    hide Inv, Safe, Run;
    Race5();
    RaceStep(5);
  }

  lemma Race7()
    ensures Reached(7, TEN_LINKED, {HEAD, 2, TAIL}, Thread(1, FindStart), Thread(0, Idle), [Add(10), Remove(10)])
  {
    hide Inv, Safe, Run;
    Race6();
    RaceStep(6);
  }

  lemma Race8()
    ensures Reached(8, TEN_LINKED, {HEAD, 2, TAIL}, Thread(1, Search(HEAD, 2, true)), Thread(0, Idle),
                    [Add(10), Remove(10)])
  {
    hide Inv, Safe, Run;
    Race7();
    RaceStep(7);
  }

  lemma Race9()
    ensures Reached(9, TEN_LINKED, {HEAD, 2, TAIL}, Thread(1, Search(HEAD, 2, true)), Thread(2, FindStart),
                    [Add(10), Remove(10), Remove(10)])
  {
    hide Inv, Safe, Run;
    Race8();
    RaceStep(8);
  }

  lemma Race10()
    ensures Reached(10, TEN_LINKED, {HEAD, 2, TAIL}, Thread(1, Search(HEAD, 2, true)), Thread(2, Search(HEAD, 2, true)),
                    [Add(10), Remove(10), Remove(10)])
  {
    hide Inv, Safe, Run;
    Race9();
    RaceStep(9);
  }

  lemma Race11()
    ensures Reached(11, TEN_LINKED, {HEAD, 2, TAIL}, Thread(1, Search(HEAD, 2, true)), Thread(2, RemoveRead(HEAD, 2)),
                    [Add(10), Remove(10), Remove(10)])
  {
    hide Inv, Safe, Run;
    Race10();
    RaceStep(10);
  }

  lemma RemoveReadStep(s: State, t: nat)
    requires Safe(s, t) && Active(s, t) && s.threads[t].pc.RemoveRead? && IsNode(s.heap, s.threads[t].pc.cur)
    ensures var RemoveRead(pre, cur) := s.threads[t].pc;
      Apply(s, Step(t)) == Goto(s, t, RemoveMark(pre, cur, s.heap[cur].next.ref))
  {
    hide Inv;
  }

  lemma Race12()
    ensures Reached(12, TEN_LINKED, {HEAD, 2, TAIL}, Thread(1, Search(HEAD, 2, true)),
                    Thread(2, RemoveMark(HEAD, 2, TAIL)), [Add(10), Remove(10), Remove(10)])
  {
    hide Inv, Safe, Apply, Run;
    Race11();
    RaceStep(11);
    RemoveReadStep(Run(2, RACE[..11]), 1);
  }

  lemma Race13()
    ensures Reached(13, TEN_MARKED, {HEAD, 2, TAIL}, Thread(1, Search(HEAD, 2, true)),
                    Thread(2, RemoveSnip(HEAD, 2, TAIL)), [Add(10), Remove(10), Remove(10)])
  {
    hide Inv, Safe, Run;
    Race12();
    RaceStep(12);
  }

  lemma Race14()
    ensures Reached(14, TEN_REMOVED, {HEAD, TAIL}, Thread(1, Search(HEAD, 2, true)), Thread(2, Done(true)),
                    [Add(10), Remove(10), Remove(10)])
  {
    hide Inv, Safe, Run;
    Race13();
    RaceStep(13);
  }

  /** A call can lose its window to another thread and never return: its run is fourteen steps long. */
  lemma CallThatNeverReturns()
    ensures var s := Run(2, RACE);
      Active(s, 0) && HasCall(s, 0) && OpOf(s, 0) == Remove(10) && WindowIn(s, 0) && Doomed(s, 0)
    ensures forall after: seq<Action> :: !Finished(Run(2, RACE + after), 0)
  {
    Race14();
    assert RACE[..14] == RACE;
    hide Inv;
    var s := Run(2, RACE);
    assert s.threads[0].pc == Search(HEAD, 2, true);
    forall after: seq<Action> ensures !Finished(Run(2, RACE + after), 0) {
      DoomedCallNeverReturns(2, RACE, after, 0);
    }
  }
}
