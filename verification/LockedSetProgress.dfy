/** What a call of `FineSafeSet` does when nobody interferes, and what becomes of the nodes. */
module LockedSetProgress {
  import opened Options
  import opened Linearizability
  import opened AbstractSet
  import opened LockedSet
  import LockedSetTheorems

  // ---------- A call left to run alone ----------

  /** `k` steps of `t` alone. */
  function Solo(s: State, t: nat, space: int, k: nat): State {
    if k == 0 then s else Apply(Solo(s, t, space, k - 1), Step(t, space))
  }

  predicate Active(s: State, t: nat) {
    HasCall(s, t) && !s.threads[t].pc.Idle?
  }

  predicate Finished(s: State, t: nat) {
    t < |s.threads| && s.threads[t].pc.Done?
  }

  /** An `add` that has yet to allocate. */
  predicate MayAllocate(pc: Pc) {
    pc.LockHead? || pc.ReadFirst? || pc.LockCur? || pc.Test? || pc.Move? || pc.Advance? || pc.AddAlloc?
  }

  predicate HasSpace(s: State, t: nat, space: int)
    requires t < |s.threads|
  {
    space != NULL && (MayAllocate(s.threads[t].pc) ==> space !in s.heap)
  }

  /** The node at whose key the walk has arrived. */
  function Place(pc: Pc): int {
    match pc
    case LockCur(pre, cur) => cur
    case Test(pre, cur) => cur
    case Move(pre, cur) => cur
    case Advance(pre) => pre
    case _ => HEAD
  }

  const FAR: int := INT32_MAX - INT32_MIN

  /** A bound on the steps that `t` still needs when it runs alone: four for each key it may still pass. */
  function Rank(s: State, t: nat): (r: int)
    requires t < |s.threads| && Place(s.threads[t].pc) in s.heap
  {
    var left := INT32_MAX - s.heap[Place(s.threads[t].pc)].key;
    match s.threads[t].pc
    case Idle => 0
    case Done(_) => 0
    case LockHead => 4 * FAR + 9
    case ReadFirst => 4 * FAR + 8
    case LockCur(_, _) => 4 * left + 9
    case Test(_, _) => 4 * left + 8
    case Move(_, _) => 4 * left + 7
    case Advance(_) => 4 * left + 6
    case AddAlloc(_, _) => 5
    case AddLink(_, _, _) => 4
    case AddNext(_, _, _) => 3
    case RemoveLink(_, _) => 5
    case RemoveUnlock(_, _) => 4
    case RemoveFree(_, _) => 3
    case ReleaseFirst(_, _, _) => 2
    case ReleaseSecond(_, _) => 1
  }

  ghost predicate Alive(s: State, t: nat, space: int) {
    Inv(s) && Active(s, t) && HasSpace(s, t, space)
  }

  /** What the walk knows of the list. */
  lemma PlaceFacts(s: State, t: nat)
    requires Inv(s) && Active(s, t)
    ensures Safe(s, t) && Place(s.threads[t].pc) in s.heap
    ensures INT32_MIN <= s.heap[Place(s.threads[t].pc)].key <= INT32_MAX
    ensures s.threads[t].pc.ReadFirst? ==>
      s.heap[HEAD].next in s.heap && INT32_MIN < s.heap[s.heap[HEAD].next].key <= INT32_MAX
    ensures s.threads[t].pc.Advance? ==>
      var pre := s.threads[t].pc.pre;
      s.heap[pre].next in s.heap && s.heap[pre].key < s.heap[s.heap[pre].next].key <= INT32_MAX
  {
    hide OwnersOk, RecordOk, CallMatches, Holds;
    Facts(s, t);
    hide Inv, ThreadsOk;
    match s.threads[t].pc
    case ReadFirst => assert Joined(s.heap, s.succ, HEAD); assert Joined(s.heap, s.succ, s.succ[HEAD]);
    case LockCur(pre, cur) => assert Joined(s.heap, s.succ, pre); assert Joined(s.heap, s.succ, cur);
    case Advance(pre) => assert Joined(s.heap, s.succ, pre); assert Joined(s.heap, s.succ, s.succ[pre]);
    case _ =>
  }

  ghost predicate Nearer(s: State, s': State, t: nat, space: int)
    requires t < |s.threads| && Place(s.threads[t].pc) in s.heap
  {
    && Active(s', t) && HasSpace(s', t, space) && s'.threads[t].call == s.threads[t].call
    && Place(s'.threads[t].pc) in s'.heap && Rank(s', t) < Rank(s, t)
  }

  lemma WalkNearer(s: State, t: nat, space: int)
    requires Active(s, t) && Safe(s, t) && HasSpace(s, t, space) && MayAllocate(s.threads[t].pc) && HEAD in s.heap
    requires Place(s.threads[t].pc) in s.heap
    requires INT32_MIN <= s.heap[Place(s.threads[t].pc)].key <= INT32_MAX
    requires s.threads[t].pc.ReadFirst? ==>
      s.heap[HEAD].next in s.heap && INT32_MIN < s.heap[s.heap[HEAD].next].key
    requires s.threads[t].pc.Advance? ==>
      var pre := s.threads[t].pc.pre;
      s.heap[pre].next in s.heap && s.heap[pre].key < s.heap[s.heap[pre].next].key
    ensures Nearer(s, StepOf(s, t, space), t, space)
  {
  }

  lemma EndNearer(s: State, t: nat, space: int)
    requires Active(s, t) && Safe(s, t) && HasSpace(s, t, space) && HEAD in s.heap
    requires !MayAllocate(s.threads[t].pc) && !Finished(s, t)
    requires s.threads[t].pc.RemoveFree? ==> s.threads[t].pc.cur != HEAD
    ensures Nearer(s, StepOf(s, t, space), t, space)
  {
  }

  lemma RankFalls(s: State, t: nat, space: int)
    requires Alive(s, t, space) && !Finished(s, t) && !Blocked(s, t)
    ensures Place(s.threads[t].pc) in s.heap && Nearer(s, Apply(s, Step(t, space)), t, space)
  {
    PlaceFacts(s, t);
    HeadStays(s, t);
    assert Apply(s, Step(t, space)) == StepOf(s, t, space);
    hide Inv, Apply, Safe, StepOf, Nearer, Touches;
    if MayAllocate(s.threads[t].pc) {
      WalkNearer(s, t, space);
    } else {
      EndNearer(s, t, space);
    }
  }

  lemma HeadStays(s: State, t: nat)
    requires Inv(s) && Active(s, t)
    ensures HEAD in s.heap && (s.threads[t].pc.RemoveFree? ==> s.threads[t].pc.cur != HEAD)
  {
    hide OwnersOk, RecordOk, CallMatches, Wired;
    Facts(s, t);
  }

  lemma RankBound(s: State, t: nat)
    requires Inv(s) && Active(s, t)
    ensures Place(s.threads[t].pc) in s.heap && Rank(s, t) >= 0
  {
    PlaceFacts(s, t);
    hide Inv;
  }

  lemma StepEffect(s: State, t: nat, space: int)
    requires Inv(s) && Active(s, t)
    ensures OnlyEffect(s.record, Apply(s, Step(t, space)).record, s.threads[t].call)
  {
    hide Inv, ThreadsOk, RecordOk, OwnersOk, Shape, Wired, LocalsOk, Touches;
    Facts(s, t);
  }

  /** Steps of `t` compose. */
  lemma {:induction false} SoloSplit(s: State, t: nat, space: int, k: nat)
    ensures Solo(Apply(s, Step(t, space)), t, space, k) == Solo(s, t, space, k + 1)
    decreases k
  {
    hide Apply;
    if k > 0 {
      SoloSplit(s, t, space, k - 1);
    } else {
      assert Solo(s, t, space, 0) == s;
    }
  }

  /** `t` runs until its call is over or it needs a lock that another thread has. */
  lemma {:induction false} RunsOn(s: State, t: nat, space: int, r0: Record<Op, bool>) returns (k: nat)
    requires Alive(s, t, space) && Place(s.threads[t].pc) in s.heap
    ensures var s' := Solo(s, t, space, k);
      && Alive(s', t, space) && (Finished(s', t) || Blocked(s', t))
      && s'.threads[t].call == s.threads[t].call
      && (Alone(r0, s.record, s.threads[t].call) ==> Alone(r0, s'.record, s.threads[t].call))
      && (LocksFree(s, t) ==> LocksFree(s', t))
    decreases Rank(s, t)
  {
    hide Inv, Apply, Rank, Alone, OnlyEffect, HasSpace, Blocked, LocksFree, Place;
    if Finished(s, t) || Blocked(s, t) {
      k := 0;
    } else {
      var s1 := Apply(s, Step(t, space));
      RankFalls(s, t, space);
      RankBound(s, t);
      StepEffect(s, t, space);
      if Alone(r0, s.record, s.threads[t].call) { AloneStep(r0, s.record, s1.record, s.threads[t].call); }
      ApplyInv(s, Step(t, space));
      StepFree(s, t, space);
      k := RunsOn(s1, t, space, r0);
      SoloSplit(s, t, space, k);
      k := k + 1;
    }
  }

  // ---------- With the locks free ----------

  /** No other thread has a lock. */
  predicate LocksFree(s: State, t: nat) {
    forall p :: p in s.heap ==> s.heap[p].owner.None? || s.heap[p].owner == Some(t)
  }

  lemma StepFree(s: State, t: nat, space: int)
    requires Inv(s) && Active(s, t)
    ensures LocksFree(s, t) ==> LocksFree(Apply(s, Step(t, space)), t)
  {
    InvSafe(s, t);
    hide Inv;
  }

  /** A thread does not wait for a lock that it has itself. */
  lemma NotOwnLock(s: State, t: nat)
    requires Inv(s) && Active(s, t)
    ensures forall p :: Wanted(s.threads[t].pc) == Some(p) && p in s.heap ==> s.heap[p].owner != Some(t)
  {
    hide RecordOk, CallMatches, Wired;
    Facts(s, t);
    forall p | Wanted(s.threads[t].pc) == Some(p) && p in s.heap ensures s.heap[p].owner != Some(t) {
      assert OwnerOk(s, p);
      if s.threads[t].pc.LockCur? { assert Joined(s.heap, s.succ, s.threads[t].pc.pre); }
    }
  }

  lemma NotBlocked(s: State, t: nat)
    requires Inv(s) && Active(s, t) && LocksFree(s, t)
    ensures !Blocked(s, t)
  {
    NotOwnLock(s, t);
    hide Inv;
  }

  /** From any reachable state a call left to run alone returns, or comes to a lock that another thread has. */
  lemma SoloReturnsOrWaits(n: nat, actions: seq<Action>, t: nat, space: int) returns (k: nat)
    requires Active(Run(n, actions), t) && space !in Run(n, actions).heap && space != NULL
    ensures var s := Solo(Run(n, actions), t, space, k);
      && (Finished(s, t) || (t < |s.threads| && Blocked(s, t)))
      && (LocksFree(Run(n, actions), t) ==> Finished(s, t))
  {
    hide Inv, Apply, Rank, Alone, LocksFree, Blocked;
    var s := Run(n, actions);
    RunInv(n, actions);
    RankBound(s, t);
    k := RunsOn(s, t, space, s.record);
    if LocksFree(s, t) { NotBlocked(Solo(s, t, space, k), t); }
  }

  /** A finished call has taken effect, with the result that it returns. */
  lemma FinishedResult(s: State, t: nat)
    requires Inv(s) && Active(s, t) && Finished(s, t)
    ensures var call := s.record.calls[s.threads[t].call];
      && call.place.Some? && call.place.value < |s.record.log|
      && s.record.log[call.place.value].result == s.threads[t].pc.result
    ensures Legal(s.record.log, {}, SetSpec)
  {
    hide ThreadsOk, OwnersOk, Shape, Wired, Legal, Consistent;
    Facts(s, t);
  }

  /** With the locks free, a call that has not yet taken effect does its operation on the set as it is, and returns. */
  lemma SoloPerforms(n: nat, actions: seq<Action>, t: nat, space: int) returns (k: nat)
    requires var s := Run(n, actions);
      Active(s, t) && LocksFree(s, t) && s.record.calls[s.threads[t].call].place.None?
    requires space !in Run(n, actions).heap && space != NULL
    ensures var s, s' := Run(n, actions), Solo(Run(n, actions), t, space, k);
      var (after, result) := SetSpec(Contents(s), OpOf(s, t));
      Finished(s', t) && s'.threads[t].pc.result == result && Contents(s') == after
  {
    hide Inv, Rank, Apply, SetSpec, LocksFree, Blocked;
    var s := Run(n, actions);
    RunInv(n, actions);
    RankBound(s, t);
    k := RunsOn(s, t, space, s.record);
    var s' := Solo(s, t, space, k);
    NotBlocked(s', t);
    FinishedResult(s', t);
    AloneResult(s.record, s'.record, s.threads[t].call, {}, SetSpec);
  }

  // ---------- What becomes of the nodes ----------

  /** A node that is not, or no longer, in the list, but that its thread has still to link or to free. */
  ghost function Loose(pc: Pc): set<int> {
    match pc
    case AddLink(_, _, node) => {node}
    case RemoveUnlock(_, cur) => {cur}
    case RemoveFree(_, cur) => {cur}
    case _ => {}
  }

  ghost predicate InHand(s: State, p: int) {
    exists t :: 0 <= t < |s.threads| && p in Loose(s.threads[t].pc)
  }

  /** Every node is in the list or in the hands of one thread. */
  ghost predicate NoGarbage(s: State) {
    forall p :: p in s.heap ==> p in s.succ || InHand(s, p)
  }

  lemma StepHand(s: State, t: nat, space: int, p: int)
    requires Safe(s, t) && p in StepOf(s, t, space).heap
    ensures var s' := StepOf(s, t, space);
      p !in s.heap || p in s.succ || p in Loose(s.threads[t].pc) ==>
        p in s'.succ || p in Loose(s'.threads[t].pc)
  {
  }

  lemma StepNoGarbage(s: State, a: Action)
    requires Inv(s) && NoGarbage(s)
    ensures NoGarbage(Apply(s, a))
  {
    hide Inv, StepOf, Safe;
    var s', t := Apply(s, a), a.thread;
    if s' != s {
      if a.Step? { LockedSetTheorems.StepKeepsThreads(s, t, a.space); }
      forall p | p in s'.heap && p !in s'.succ ensures InHand(s', p) {
        if a.Step? { StepHand(s, t, a.space, p); }
        if p in s.heap && p !in s.succ && (!a.Step? || p !in Loose(s.threads[t].pc)) {
          assert InHand(s, p);
          var u :| 0 <= u < |s.threads| && p in Loose(s.threads[u].pc);
          assert p in Loose(s'.threads[u].pc);
        }
      }
    }
  }

  lemma {:induction false} RunNoGarbage(n: nat, actions: seq<Action>)
    ensures NoGarbage(Run(n, actions))
    decreases |actions|
  {
    hide Inv, Apply;
    if actions != [] {
      var most := actions[..|actions| - 1];
      RunNoGarbage(n, most);
      RunInv(n, most);
      StepNoGarbage(Run(n, most), actions[|actions| - 1]);
    }
  }

  /** With no call running, exactly the nodes of the list exist, and nobody has a lock. */
  lemma QuiescentSetHoldsNoGarbage(n: nat, actions: seq<Action>)
    requires forall t :: 0 <= t < |Run(n, actions).threads| ==> Run(n, actions).threads[t].pc.Idle?
    ensures var s := Run(n, actions);
      (forall p :: p in s.heap <==> p in s.succ) && (forall p :: p in s.heap ==> s.heap[p].owner.None?)
  {
    hide Inv, NoGarbage;
    RunInv(n, actions);
    RunNoGarbage(n, actions);
    QuietNodes(Run(n, actions));
    QuietLocks(Run(n, actions));
  }

  lemma QuietNodes(s: State)
    requires Inv(s) && NoGarbage(s) && forall t :: 0 <= t < |s.threads| ==> s.threads[t].pc.Idle?
    ensures forall p :: p in s.heap <==> p in s.succ
  {
    hide ThreadsOk, OwnersOk, RecordOk, Wired;
    forall p | p in s.heap ensures p in s.succ { assert !InHand(s, p); }
    forall p | p in s.succ ensures p in s.heap { assert Joined(s.heap, s.succ, p); }
  }

  lemma QuietLocks(s: State)
    requires Inv(s) && forall t :: 0 <= t < |s.threads| ==> s.threads[t].pc.Idle?
    ensures forall p :: p in s.heap ==> s.heap[p].owner.None?
  {
    hide ThreadsOk, RecordOk, Wired, Shape;
    forall p | p in s.heap ensures s.heap[p].owner.None? { assert OwnerOk(s, p); }
  }
}
