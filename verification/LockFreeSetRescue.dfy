/**
 * The other half of `LockFreeSetProgress.DoomedCallNeverReturns`: a call of `UnblockingSafeSet` that is not doomed can
 * still return. Whoever runs alone before it removes the nodes between its predecessor and the marked node that
 * it stands before, until its own snip can succeed.
 */
module LockFreeSetRescue {
  import opened AbstractSet
  import opened LockFreeSet
  import opened LockFreeSetProgress

  // ---------- Going on from a state ----------

  /** The state after `actions`, from `s` on. */
  function Then(s: State, actions: seq<Action>): State {
    if actions == [] then s
    else Apply(Then(s, actions[..|actions| - 1]), actions[|actions| - 1])
  }

  lemma ThenOne(s: State, a: Action)
    ensures Then(s, [a]) == Apply(s, a)
  {
    assert [a][..0] == [];
  }

  lemma {:induction false} ThenJoins(s: State, first: seq<Action>, rest: seq<Action>)
    ensures Then(Then(s, first), rest) == Then(s, first + rest)
    decreases |rest|
  {
    hide Apply;
    if rest == [] {
      assert first + rest == first;
    } else {
      ThenJoins(s, first, rest[..|rest| - 1]);
      assert (first + rest)[..|first + rest| - 1] == first + rest[..|rest| - 1];
    }
  }

  lemma {:induction false} RunThen(n: nat, before: seq<Action>, after: seq<Action>)
    ensures Run(n, before + after) == Then(Run(n, before), after)
    decreases |after|
  {
    hide Apply;
    if after == [] {
      assert before + after == before;
    } else {
      RunThen(n, before, after[..|after| - 1]);
      assert (before + after)[..|before + after| - 1] == before + after[..|after| - 1];
    }
  }

  lemma {:induction false} SoloThen(s: State, t: nat, k: nat) returns (actions: seq<Action>)
    ensures Then(s, actions) == Solo(s, t, k)
  {
    hide Apply;
    if k == 0 {
      actions := [];
    } else {
      var most := SoloThen(s, t, k - 1);
      actions := most + [Step(t)];
      assert actions[..|actions| - 1] == most;
    }
  }

  // ---------- A call that waits for its window ----------

  /** `t` is inside `find` before the marked `cur`; both ends of its window are on the list, and `pre` is not marked. */
  ghost predicate Waits(s: State, t: nat, pre: int, cur: int) {
    && HasCall(s, t) && InFind(s.threads[t].pc) && WindowOf(s.threads[t].pc) == (pre, cur)
    && At(s.heap, s.chain, pre) && At(s.heap, s.chain, cur) && pre != TAIL
    && !s.heap[pre].next.marked && s.heap[cur].next.marked && s.heap[pre].key < s.heap[cur].key
  }

  ghost predicate Meets(s: State, pre: int, cur: int) {
    IsNode(s.heap, pre) && s.heap[pre].next == Word(cur, false)
  }

  lemma NotDoomedWaits(s: State, t: nat)
    requires Inv(s) && Active(s, t) && WindowIn(s, t) && Stuck(s, t) && !Doomed(s, t)
    ensures var (pre, cur) := WindowOf(s.threads[t].pc); Waits(s, t, pre, cur) && !Meets(s, pre, cur)
  {
    hide Inv, ThreadsOk, RecordOk;
    Facts(s, t);
  }

  // ---------- The removal that clears the way ----------

  /** The window of `u` is intact: its predecessor points to its current node. */
  ghost predicate Intact(s: State, u: nat) {
    WindowIn(s, u) && Aligned(s, u)
  }

  /**
   * `u` removes the key of `x`, the node that followed `pre` when the removal began. What follows `pre` now has no
   * smaller key, so `u` meets no unmarked node between `pre` and `cur` before it.
   */
  ghost predicate Clears(s: State, u: nat, pre: int, cur: int, x: int) {
    && HasCall(s, u)
    && IsNode(s.heap, pre) && IsNode(s.heap, cur) && IsNode(s.heap, x) && IsNode(s.heap, s.heap[pre].next.ref)
    && OpOf(s, u) == Remove(s.heap[x].key) && s.heap[pre].key < s.heap[x].key < s.heap[cur].key
    && s.heap[x].key <= s.heap[s.heap[pre].next.ref].key
    && match s.threads[u].pc
       case FindStart => true
       case Search(_, _, _) => Intact(s, u)
       case Snip(_, _, _) => Intact(s, u)
       case RemoveRead(_, c) => Intact(s, u) && !s.heap[c].next.marked
       case RemoveMark(_, c, succ) => Intact(s, u) && s.heap[c].next == Word(succ, false)
       case RemoveSnip(_, _, _) => Intact(s, u)
       case Done(_) => x !in s.chain
       case _ => false
  }

  /** What a step of `u` has to keep while it clears the way. */
  ghost predicate Cleared(s: State, s': State, t: nat, u: nat, pre: int, cur: int, x: int) {
    && Waits(s', t, pre, cur) && Clears(s', u, pre, cur, x) && s'.chain <= s.chain
    && t < |s.threads| && s'.threads[t] == s.threads[t]
  }

  ghost predicate Clearing(s: State, t: nat, u: nat, pre: int, cur: int, x: int) {
    Inv(s) && t != u && Waits(s, t, pre, cur) && Clears(s, u, pre, cur, x) && !Meets(s, pre, cur)
  }

  lemma ArriveClears(s: State, t: nat, u: nat, pre: int, cur: int, x: int, p: int, c: int)
    requires t != u && Waits(s, t, pre, cur) && IsNode(s.heap, x) && IsNode(s.heap, s.heap[pre].next.ref)
    requires HasCall(s, u) && OpOf(s, u) == Remove(s.heap[x].key)
    requires s.heap[pre].key < s.heap[x].key < s.heap[cur].key && s.heap[x].key <= s.heap[s.heap[pre].next.ref].key
    requires IsNode(s.heap, p) && IsNode(s.heap, c) && s.heap[p].next == Word(c, false)
    ensures Cleared(s, Arrive(s, u, p, c), t, u, pre, cur, x)
  {
  }

  /** The node that `u` unlinks is neither end of the window of `t`. */
  lemma OtherNode(s: State, pre: int, cur: int, k: int, p: int, c: int)
    requires Shape(s.heap, s.linked, s.chain) && At(s.heap, s.chain, pre) && At(s.heap, s.chain, cur) && pre != TAIL
    requires !s.heap[pre].next.marked && !Meets(s, pre, cur) && k <= s.heap[s.heap[pre].next.ref].key
    requires At(s.heap, s.linked, p) && p != TAIL && s.heap[p].next == Word(c, false) && s.heap[p].key < k
    requires s.heap[pre].key < s.heap[cur].key
    ensures c != cur && p in s.chain && c in s.chain
  {
    NextOf(s.heap, s.linked, s.chain, p);
    NextOf(s.heap, s.linked, s.chain, pre);
    assert Joined(s.heap, s.chain, p) && Joined(s.heap, s.chain, pre);
  }

  lemma SnipClears(s: State, t: nat, u: nat, pre: int, cur: int, x: int)
    requires Clearing(s, t, u, pre, cur, x) && s.threads[u].pc.Snip?
    ensures Cleared(s, Apply(s, Step(u)), t, u, pre, cur, x)
  {
    hide Inv, ThreadsOk, RecordOk, Cleared, Shape;
    Facts(s, u);
    var Snip(p, c, succ) := s.threads[u].pc;
    NextOf(s.heap, s.linked, s.chain, c);
    OtherNode(s, pre, cur, s.heap[x].key, p, c);
    ArriveClears(Unlink(s, p, c, succ), t, u, pre, cur, x, p, succ);
    assert Apply(s, Step(u)) == Arrive(Unlink(s, p, c, succ), u, p, succ);
    ClearedSooner(s, Unlink(s, p, c, succ), Apply(s, Step(u)), t, u, pre, cur, x);
  }

  lemma ClearedSooner(s: State, s1: State, s': State, t: nat, u: nat, pre: int, cur: int, x: int)
    requires Cleared(s1, s', t, u, pre, cur, x)
    requires s1.chain <= s.chain && s1.threads == s.threads
    ensures Cleared(s, s', t, u, pre, cur, x)
  {
  }

  lemma SearchClears(s: State, t: nat, u: nat, pre: int, cur: int, x: int)
    requires Clearing(s, t, u, pre, cur, x) && s.threads[u].pc.Search?
    ensures Cleared(s, Apply(s, Step(u)), t, u, pre, cur, x)
  {
    hide Inv, ThreadsOk, RecordOk, Shape;
    Facts(s, u);
    var Search(p, c, snip) := s.threads[u].pc;
    if !s.heap[c].next.marked {
      if s.heap[c].key < s.heap[x].key {
        NextOf(s.heap, s.linked, s.chain, c);
        ArriveClears(s, t, u, pre, cur, x, c, s.heap[c].next.ref);
      } else if s.heap[c].key > s.heap[x].key {
        KeyIsGone(s, p, c, x);
      }
    }
  }

  /** Between a node of the list and the one it points to there is no key. */
  lemma KeyIsGone(s: State, p: int, c: int, x: int)
    requires Shape(s.heap, s.linked, s.chain) && At(s.heap, s.linked, p) && p != TAIL && IsNode(s.heap, c)
    requires s.heap[p].next == Word(c, false) && IsNode(s.heap, x) && s.heap[p].key < s.heap[x].key < s.heap[c].key
    ensures x !in s.chain
  {
    NextOf(s.heap, s.linked, s.chain, p);
    assert Joined(s.heap, s.chain, p);
  }

  lemma SameKeySameNode(s: State, p: int, c: int, x: int)
    requires Shape(s.heap, s.linked, s.chain) && At(s.heap, s.linked, p) && p != TAIL && IsNode(s.heap, c)
    requires s.heap[p].next == Word(c, false) && IsNode(s.heap, x) && s.heap[x].key == s.heap[c].key
    ensures x in s.chain ==> x == c
  {
    NextOf(s.heap, s.linked, s.chain, p);
    assert Joined(s.heap, s.chain, c);
  }

  lemma RemoveSnipClears(s: State, t: nat, u: nat, pre: int, cur: int, x: int)
    requires Clearing(s, t, u, pre, cur, x) && s.threads[u].pc.RemoveSnip?
    ensures Cleared(s, Apply(s, Step(u)), t, u, pre, cur, x)
  {
    hide Inv, ThreadsOk, RecordOk, Shape;
    Facts(s, u);
    var RemoveSnip(p, c, succ) := s.threads[u].pc;
    NextOf(s.heap, s.linked, s.chain, c);
    SameKeySameNode(s, p, c, x);
  }

  lemma RestClears(s: State, t: nat, u: nat, pre: int, cur: int, x: int)
    requires Clearing(s, t, u, pre, cur, x)
    requires s.threads[u].pc.FindStart? || s.threads[u].pc.RemoveRead? || s.threads[u].pc.RemoveMark?
    ensures Cleared(s, Apply(s, Step(u)), t, u, pre, cur, x)
  {
    hide Inv, ThreadsOk, RecordOk, Shape;
    Facts(s, u);
    if s.threads[u].pc.FindStart? {
      NextOf(s.heap, s.linked, s.chain, HEAD);
      ArriveClears(s, t, u, pre, cur, x, HEAD, s.heap[HEAD].next.ref);
    }
  }

  lemma ClearStep(s: State, t: nat, u: nat, pre: int, cur: int, x: int)
    requires Clearing(s, t, u, pre, cur, x) && !s.threads[u].pc.Done?
    ensures Cleared(s, Apply(s, Step(u)), t, u, pre, cur, x)
  {
    hide Inv, Apply, Cleared, Waits;
    match s.threads[u].pc
    case Search(_, _, _) => SearchClears(s, t, u, pre, cur, x);
    case Snip(_, _, _) => SnipClears(s, t, u, pre, cur, x);
    case RemoveSnip(_, _, _) => RemoveSnipClears(s, t, u, pre, cur, x);
    case _ => RestClears(s, t, u, pre, cur, x);
  }

  lemma ClearsNotStuck(s: State, u: nat, pre: int, cur: int, x: int)
    requires Inv(s) && Clears(s, u, pre, cur, x)
    ensures Active(s, u) && WindowIn(s, u) && !Stuck(s, u)
    ensures Finished(s, u) <==> s.threads[u].pc.Done?
  {
    hide Inv;
    WindowNodes(s, u);
  }

  /** `u` runs until the way is clear or its removal has ended, and then the node that was in the way is gone. */
  lemma {:induction false} ClearRun(s: State, t: nat, u: nat, pre: int, cur: int, x: int) returns (k: nat)
    requires Inv(s) && t != u && Waits(s, t, pre, cur) && Clears(s, u, pre, cur, x) && WindowIn(s, u)
    ensures var s' := Solo(s, u, k);
      && Inv(s') && Cleared(s, s', t, u, pre, cur, x)
      && (Meets(s', pre, cur) || (s'.threads[u].pc.Done? && x !in s'.chain))
    decreases Rank(s, u)
  {
    hide Inv, Apply, Rank, Stuck, WindowIn;
    if Meets(s, pre, cur) || s.threads[u].pc.Done? {
      k := 0;
    } else {
      var s1 := Apply(s, Step(u));
      ClearStep(s, t, u, pre, cur, x);
      ClearsNotStuck(s, u, pre, cur, x);
      RankFalls(s, u);
      ApplyInv(s, Step(u));
      k := ClearRun(s1, t, u, pre, cur, x);
      SoloSplit(s, u, k);
      k := k + 1;
    }
  }

  // ---------- One removal after the other ----------

  /** The node that `pre` points to lies before `cur`. */
  lemma InTheWay(s: State, t: nat, pre: int, cur: int)
    requires Inv(s) && Waits(s, t, pre, cur) && !Meets(s, pre, cur)
    ensures var x := s.heap[pre].next.ref;
      At(s.heap, s.chain, x) && s.heap[pre].key < s.heap[x].key < s.heap[cur].key
        && INT32_MIN < s.heap[x].key < INT32_MAX
  {
    hide ThreadsOk, RecordOk;
    NextOf(s.heap, s.linked, s.chain, pre);
    assert Joined(s.heap, s.chain, pre) && Joined(s.heap, s.chain, s.heap[pre].next.ref);
  }

  lemma BeginClears(s: State, t: nat, u: nat, pre: int, cur: int)
    requires Inv(s) && Waits(s, t, pre, cur) && !Meets(s, pre, cur) && u < |s.threads| && s.threads[u].pc.Idle?
    ensures var x := s.heap[pre].next.ref;
      && At(s.heap, s.chain, x)
      && var s' := Apply(s, Begin(u, Remove(s.heap[x].key)));
      Inv(s') && Cleared(s, s', t, u, pre, cur, x) && WindowIn(s', u)
  {
    hide Inv, Cleared;
    InTheWay(s, t, pre, cur);
    var x := s.heap[pre].next.ref;
    var a := Begin(u, Remove(s.heap[x].key));
    ApplyInv(s, a);
    WindowNodes(Apply(s, a), u);
    CallBegins(s, t, u, pre, cur, x);
  }

  lemma CallBegins(s: State, t: nat, u: nat, pre: int, cur: int, x: int)
    requires Waits(s, t, pre, cur) && u < |s.threads| && s.threads[u].pc.Idle?
    requires IsNode(s.heap, x) && x == s.heap[pre].next.ref && INT32_MIN < s.heap[x].key < INT32_MAX
    requires s.heap[pre].key < s.heap[x].key < s.heap[cur].key
    ensures Cleared(s, Apply(s, Begin(u, Remove(s.heap[x].key))), t, u, pre, cur, x)
  {
  }

  lemma EndClears(s: State, t: nat, u: nat, pre: int, cur: int)
    requires Inv(s) && t != u && Waits(s, t, pre, cur) && u < |s.threads| && s.threads[u].pc.Done?
    ensures var s' := Apply(s, Finish(u));
      && Inv(s') && Waits(s', t, pre, cur) && s'.chain == s.chain
      && s'.threads[t] == s.threads[t] && u < |s'.threads| && s'.threads[u].pc.Idle?
  {
    hide Inv, Waits, Apply;
    ApplyInv(s, Finish(u));
    InvSafe(s, u);
    CallEnds(s, t, u, pre, cur);
  }

  lemma CallEnds(s: State, t: nat, u: nat, pre: int, cur: int)
    requires t != u && Waits(s, t, pre, cur) && HasCall(s, u) && s.threads[u].pc.Done?
    ensures var s' := Apply(s, Finish(u));
      && Waits(s', t, pre, cur) && s'.chain == s.chain
      && s'.threads[t] == s.threads[t] && u < |s'.threads| && s'.threads[u].pc.Idle?
  {
  }

  lemma FewerNodes(s: State, s': State, x: int)
    requires s'.chain <= s.chain && x in s.chain && x !in s'.chain
    ensures |s'.chain| < |s.chain|
  {
    assert s.chain == s'.chain + (s.chain - s'.chain);
    assert x in s.chain - s'.chain;
  }

  /** An idle thread can clear the way of a call that waits for its window. */
  lemma {:induction false} Rescue(s: State, t: nat, u: nat, pre: int, cur: int) returns (actions: seq<Action>)
    requires Inv(s) && Waits(s, t, pre, cur) && u < |s.threads| && s.threads[u].pc.Idle?
    ensures var s' := Then(s, actions);
      Inv(s') && Waits(s', t, pre, cur) && Meets(s', pre, cur) && s'.threads[t] == s.threads[t]
    decreases |s.chain|
  {
    hide Inv, Apply, Solo, Waits, Clears, WindowIn;
    assert t != u && IsNode(s.heap, pre) by { IdleIsOther(s, t, u, pre, cur); }
    if Meets(s, pre, cur) {
      actions := [];
    } else {
      var x := s.heap[pre].next.ref;
      BeginClears(s, t, u, pre, cur);
      var begin := Begin(u, Remove(s.heap[x].key));
      var s1 := Apply(s, begin);
      var k := ClearRun(s1, t, u, pre, cur, x);
      var steps := SoloThen(s1, u, k);
      var s2 := Solo(s1, u, k);
      ThenOne(s, begin);
      ThenJoins(s, [begin], steps);
      actions := [begin] + steps;
      if !Meets(s2, pre, cur) {
        assert u < |s2.threads| by { ClearedThreads(s1, s2, t, u, pre, cur, x); }
        EndClears(s2, t, u, pre, cur);
        var s3 := Apply(s2, Finish(u));
        FewerNodes(s, s3, x);
        var rest := Rescue(s3, t, u, pre, cur);
        ThenOne(s2, Finish(u));
        ThenJoins(s2, [Finish(u)], rest);
        ThenJoins(s, actions, [Finish(u)] + rest);
        actions := actions + ([Finish(u)] + rest);
      }
    }
  }

  lemma ClearedThreads(s: State, s': State, t: nat, u: nat, pre: int, cur: int, x: int)
    requires Cleared(s, s', t, u, pre, cur, x)
    ensures u < |s'.threads|
  {
  }

  lemma IdleIsOther(s: State, t: nat, u: nat, pre: int, cur: int)
    requires Waits(s, t, pre, cur) && u < |s.threads| && s.threads[u].pc.Idle?
    ensures t != u && IsNode(s.heap, pre)
  {
  }

  // ---------- Exactly the doomed calls never return ----------

  lemma {:induction false} SoloKeepsCall(s: State, t: nat, k: nat)
    requires t < |s.threads|
    ensures t < |Solo(s, t, k).threads| && Solo(s, t, k).threads[t].call == s.threads[t].call
  {
    hide Apply;
    if k > 0 {
      SoloKeepsCall(s, t, k - 1);
      StepKeepsCall(Solo(s, t, k - 1), t);
    }
  }

  lemma StepKeepsCall(s: State, t: nat)
    requires t < |s.threads|
    ensures t < |Apply(s, Step(t)).threads| && Apply(s, Step(t)).threads[t].call == s.threads[t].call
  {
  }

  lemma MeetsNotStuck(s: State, t: nat, pre: int, cur: int)
    requires Waits(s, t, pre, cur) && Meets(s, pre, cur)
    ensures Active(s, t) && WindowIn(s, t) && !Stuck(s, t)
  {
  }

  /** A call that is not doomed can return, if a thread is idle to clear its way. */
  lemma UndoomedCallCanReturn(n: nat, before: seq<Action>, t: nat, u: nat) returns (after: seq<Action>)
    requires Active(Run(n, before), t) && WindowIn(Run(n, before), t) && !Doomed(Run(n, before), t)
    requires u < |Run(n, before).threads| && Run(n, before).threads[u].pc.Idle?
    ensures var s' := Run(n, before + after);
      Finished(s', t) && s'.threads[t].call == Run(n, before).threads[t].call
  {
    hide Inv, Apply, Solo, WindowIn, Doomed;
    var s := Run(n, before);
    RunInv(n, before);
    var clear: seq<Action> := [];
    if Stuck(s, t) {
      NotDoomedWaits(s, t);
      var (pre, cur) := WindowOf(s.threads[t].pc);
      clear := Rescue(s, t, u, pre, cur);
      MeetsNotStuck(Then(s, clear), t, pre, cur);
    }
    var s1 := Then(s, clear);
    var k := RunsToEnd(s1, t);
    SoloKeepsCall(s1, t, k);
    var steps := SoloThen(s1, t, k);
    ThenJoins(s, clear, steps);
    after := clear + steps;
    RunThen(n, before, after);
  }

  /** With an idle thread about, a call can still return if and only if it is not doomed. */
  lemma CanReturnIffNotDoomed(n: nat, before: seq<Action>, t: nat, u: nat)
    requires Active(Run(n, before), t)
    requires u < |Run(n, before).threads| && Run(n, before).threads[u].pc.Idle?
    ensures WindowIn(Run(n, before), t)
    ensures (exists after :: Returns(n, before, after, t)) <==> !Doomed(Run(n, before), t)
  {
    hide Inv, WindowIn, Doomed, Run;
    RunInv(n, before);
    WindowNodes(Run(n, before), t);
    if Doomed(Run(n, before), t) {
      forall after ensures !Returns(n, before, after, t) { DoomedCallNeverReturns(n, before, after, t); }
    } else {
      var after := UndoomedCallCanReturn(n, before, t, u);
      assert Returns(n, before, after, t);
    }
  }

  /** After `after` the call that `t` was making after `before` has reached its `return`. */
  predicate Returns(n: nat, before: seq<Action>, after: seq<Action>, t: nat) {
    && t < |Run(n, before).threads| && Finished(Run(n, before + after), t)
    && Run(n, before + after).threads[t].call == Run(n, before).threads[t].call
  }
}
