/** What holds of every run of `FineSafeSet`. */
module LockedSetTheorems {
  import opened Options
  import opened Linearizability
  import opened AbstractSet
  import opened LockedSet

  // ---------- What the callers see ----------

  /**
   * The call or return that an action is, to the callers: a call of an idle thread with a key between the sentinels,
   * or a return.
   */
  function Seen(s: State, a: Action): seq<Event<Op, bool>> {
    match a
    case Begin(t, op) =>
      if t < |s.threads| && s.threads[t].pc.Idle? && INT32_MIN < op.key < INT32_MAX then [Invoked(t, op)] else []
    case Step(t, space) => []
    case Finish(t) => if t < |s.threads| && s.threads[t].pc.Done? then [Returned(t, s.threads[t].pc.result)] else []
  }

  function History(n: nat, actions: seq<Action>): seq<Event<Op, bool>> {
    if actions == [] then []
    else
      var most := actions[..|actions| - 1];
      History(n, most) + Seen(Run(n, most), actions[|actions| - 1])
  }

  /** The calls that the threads have not returned from. */
  ghost function OpenCalls(s: State): seq<Option<nat>> {
    seq(|s.threads|, t requires 0 <= t < |s.threads| => if s.threads[t].pc.Idle? then None else Some(s.threads[t].call))
  }

  ghost predicate Tracks(s: State, h: seq<Event<Op, bool>>) {
    Records(s.record, h) && Open(s.record, h, OpenCalls(s))
  }

  lemma StepSeen(s: State, a: Action, h: seq<Event<Op, bool>>)
    requires Inv(s) && Tracks(s, h) && a.Step?
    ensures Tracks(Apply(s, a), h) && |Apply(s, a).threads| == |s.threads|
  {
    hide Inv, Records, Open;
    var s' := Apply(s, a);
    StepKeepsCalls(s, a);
    assert OpenCalls(s') == OpenCalls(s);
    hide Apply;
    SameSeen(s.record, s'.record, h, OpenCalls(s));
  }

  lemma StepKeepsCalls(s: State, a: Action)
    requires a.Step?
    ensures var s' := Apply(s, a);
      && SameCalls(s.record, s'.record) && |s'.threads| == |s.threads|
      && forall t :: 0 <= t < |s.threads| ==>
        s'.threads[t].call == s.threads[t].call && s'.threads[t].pc.Idle? == s.threads[t].pc.Idle?
  {
    hide StepOf, Safe;
    if Enabled(s, a) && Safe(s, a.thread) {
      StepKeepsRecord(s, a.thread, a.space);
      StepKeepsThreads(s, a.thread, a.space);
    }
  }

  lemma StepKeepsRecord(s: State, t: nat, space: int)
    requires Safe(s, t)
    ensures SameCalls(s.record, StepOf(s, t, space).record)
  {
  }

  lemma StepKeepsThreads(s: State, t: nat, space: int)
    requires Safe(s, t) && t < |s.threads| && !s.threads[t].pc.Idle?
    ensures var s' := StepOf(s, t, space);
      && |s'.threads| == |s.threads| && !s'.threads[t].pc.Idle?
      && s'.threads == s.threads[t := s.threads[t].(pc := s'.threads[t].pc)]
  {
    StepStaysBusy(s, t, space);
    var s' := StepOf(s, t, space);
    assert s'.threads == s.threads[t := s.threads[t].(pc := s'.threads[t].pc)];
  }

  lemma StepStaysBusy(s: State, t: nat, space: int)
    requires Safe(s, t) && t < |s.threads| && !s.threads[t].pc.Idle?
    ensures |StepOf(s, t, space).threads| == |s.threads| && !StepOf(s, t, space).threads[t].pc.Idle?
  {
  }

  lemma CallSeenBy(s: State, a: Action, h: seq<Event<Op, bool>>)
    requires Inv(s) && Tracks(s, h) && !a.Step?
    ensures Tracks(Apply(s, a), h + Seen(s, a)) && |Apply(s, a).threads| == |s.threads|
  {
    hide Inv, Records, Open;
    var s', t := Apply(s, a), a.thread;
    if Seen(s, a) == [] {
      assert s' == s && h + Seen(s, a) == h;
    } else if a.Begin? {
      InvokeSeen(s.record, h, OpenCalls(s), t, a.op);
      assert OpenCalls(s') == OpenCalls(s)[t := Some(|s.record.calls|)];
    } else {
      ReturnSeen(s.record, h, OpenCalls(s), t, s.threads[t].pc.result);
      assert OpenCalls(s') == OpenCalls(s)[t := None];
    }
  }

  lemma {:induction false} RunSeen(n: nat, actions: seq<Action>)
    ensures Tracks(Run(n, actions), History(n, actions)) && |Run(n, actions).threads| == n
  {
    hide Inv, Apply, Tracks, Seen;
    if actions == [] {
      InitSeen(n);
    } else {
      var most, a := actions[..|actions| - 1], actions[|actions| - 1];
      RunSeen(n, most);
      RunInv(n, most);
      if a.Step? {
        StepSeen(Run(n, most), a, History(n, most));
        assert Seen(Run(n, most), a) == [] by { StepUnseen(Run(n, most), a); }
        assert History(n, most) + [] == History(n, most);
      } else {
        CallSeenBy(Run(n, most), a, History(n, most));
      }
    }
  }

  lemma StepUnseen(s: State, a: Action)
    requires a.Step?
    ensures Seen(s, a) == []
  {
  }

  lemma InitSeen(n: nat)
    ensures Tracks(Init(n), []) && |Init(n).threads| == n
  {
    EmptySeen<Op, bool>(OpenCalls(Init(n)));
  }

  lemma Begins(s: State, t: nat, op: Op)
    requires t < |s.threads| && s.threads[t].pc.Idle?
    requires INT32_MIN < op.key < INT32_MAX
    ensures Seen(s, Begin(t, op)) == [Invoked(t, op)]
    ensures var s' := Apply(s, Begin(t, op));
      HasCall(s', t) && s'.threads[t].call == |s.record.calls| && OpOf(s', t) == op
  {
  }

  /** A call that begins on an idle thread runs the operation that it was begun with. */
  lemma BegunCall(n: nat, actions: seq<Action>, t: nat, op: Op)
    requires t < |Run(n, actions).threads| && Run(n, actions).threads[t].pc.Idle?
    requires INT32_MIN < op.key < INT32_MAX
    ensures var s, s' := Run(n, actions), Run(n, actions + [Begin(t, op)]);
      && History(n, actions + [Begin(t, op)]) == History(n, actions) + [Invoked(t, op)]
      && HasCall(s', t) && s'.threads[t].call == |s.record.calls| && OpOf(s', t) == op
  {
    hide Apply, Seen;
    Begins(Run(n, actions), t, op);
    assert (actions + [Begin(t, op)])[..|actions + [Begin(t, op)]| - 1] == actions;
  }

  // ---------- Linearizability ----------

  /** Every interleaving of any number of threads is linearizable to a set of keys, and the list holds that set. */
  lemma LockedSetLinearizable(n: nat, actions: seq<Action>)
    ensures var s := Run(n, actions);
      && Records(s.record, History(n, actions)) && Linearizable(s.record, {}, SetSpec)
      && forall k :: k in Contents(s) <==> Holds(s.heap, s.succ, k)
  {
    RunInv(n, actions);
    RunSeen(n, actions);
    ConsistentRespectsRealTime(Run(n, actions).record);
  }

  /**
   * No thread holds, waits for or touches a node that has been freed, and no two threads hold the same node:
   * everything a thread may use next is allocated.
   */
  lemma NoUseAfterFree(n: nat, actions: seq<Action>, t: nat, u: nat)
    requires var s := Run(n, actions); t < |s.threads| && u < |s.threads|
    ensures var s := Run(n, actions);
      var pc := s.threads[t].pc;
      && Held(pc) <= s.heap.Keys && Touches(pc) <= s.heap.Keys
      && (Wanted(pc).Some? ==> Wanted(pc).value in s.heap)
      && (t != u ==> Held(pc) !! Held(s.threads[u].pc))
  {
    var s := Run(n, actions);
    RunInv(n, actions);
    StateMemory(s, t);
    if t != u { assert Apart(s.threads[t], s.threads[u]); }
  }

  lemma StateMemory(s: State, t: nat)
    requires Inv(s) && t < |s.threads|
    ensures var pc := s.threads[t].pc;
      Held(pc) <= s.heap.Keys && Touches(pc) <= s.heap.Keys && (Wanted(pc).Some? ==> Wanted(pc).value in s.heap)
  {
    hide OwnersOk, RecordOk, Wired;
    assert ThreadOk(s, t);
    InvSafe(s, t);
    hide ThreadsOk, Shape, CallMatches;
  }

  // ---------- The list ----------

  /** `w` is the list from `p`, in strictly ascending order of keys, down to the tail sentinel. */
  ghost predicate IsWalk(s: State, p: int, w: seq<int>) {
    && |w| > 0 && w[0] == p && w[|w| - 1] == TAIL
    && (forall i :: 0 <= i < |w| ==> w[i] in s.succ && w[i] in s.heap)
    && (forall i :: 0 <= i < |w| - 1 ==> s.succ[w[i]] == w[i + 1])
    && (forall i, j :: 0 <= i < j < |w| ==> s.heap[w[i]].key < s.heap[w[j]].key)
  }

  lemma {:induction false} Walk(s: State, p: int) returns (w: seq<int>)
    requires Shape(s.heap, s.succ) && p in s.succ && p in s.heap
    ensures IsWalk(s, p, w)
    ensures forall q :: q in s.succ && q in s.heap && s.heap[p].key <= s.heap[q].key ==> q in w
    decreases INT32_MAX - s.heap[p].key
  {
    assert Joined(s.heap, s.succ, p);
    if p == TAIL {
      w := [TAIL];
      forall q | q in s.succ && q in s.heap && s.heap[p].key <= s.heap[q].key ensures q in w {
        assert Joined(s.heap, s.succ, q);
      }
    } else {
      var next := s.succ[p];
      KeyBelowMax(s, p);
      var rest := Walk(s, next);
      w := [p] + rest;
      hide Shape, Joined;
      Prepend(s, p, rest);
      forall q | q in s.succ && q in s.heap && s.heap[p].key <= s.heap[q].key ensures q in w {
        assert q == p || q in rest;
      }
    }
  }

  lemma KeyBelowMax(s: State, p: int)
    requires Shape(s.heap, s.succ) && p in s.succ && p != TAIL
    ensures p in s.heap && s.heap[p].key < INT32_MAX
  {
  }

  lemma Prepend(s: State, p: int, rest: seq<int>)
    requires p in s.succ && p in s.heap && IsWalk(s, s.succ[p], rest) && s.heap[p].key < s.heap[rest[0]].key
    ensures IsWalk(s, p, [p] + rest)
  {
    var w := [p] + rest;
    forall i | 0 <= i < |rest| ensures s.heap[p].key < s.heap[rest[i]].key {
      assert i == 0 || s.heap[rest[0]].key < s.heap[rest[i]].key;
    }
  }

  /**
   * In every reachable state the list from `head_` is strictly ascending and its keys are the abstract set. A `next`
   * field leads to the next node of the list, except that of a node which an `add` has linked in but not yet
   * connected; that `add` has both neighbours locked.
   */
  lemma ListFromHead(n: nat, actions: seq<Action>) returns (w: seq<int>)
    ensures var s := Run(n, actions);
      && IsWalk(s, HEAD, w)
      && (forall k :: k in Contents(s) <==>
            exists p :: p in w && p in s.heap && p != HEAD && p != TAIL && s.heap[p].key == k)
      && (forall i :: 0 <= i < |w| - 1 ==>
            w[i] in s.heap && (s.heap[w[i]].next == w[i + 1] || HalfLinked(s, w[i], w[i + 1])))
  {
    var s := Run(n, actions);
    RunInv(n, actions);
    w := Walk(s, HEAD);
    WalkKeys(s, w);
    forall i | 0 <= i < |w| - 1
      ensures w[i] in s.heap && (s.heap[w[i]].next == w[i + 1] || HalfLinked(s, w[i], w[i + 1]))
    {
      if w[i] in s.mending { HalfLinkedBy(s, w[i]); }
    }
  }

  ghost predicate HalfLinked(s: State, p: int, next: int) {
    exists t: nat :: t < |s.threads| && Linking(s, t, p, next)
  }

  ghost predicate Linking(s: State, t: nat, p: int, next: int)
    requires t < |s.threads|
  {
    var pc := s.threads[t].pc;
    pc.AddNext? && pc.node == p && pc.cur == next && Owns(s.heap, t, pc.pre) && Owns(s.heap, t, next)
  }

  lemma HalfLinkedBy(s: State, p: int)
    requires Inv(s) && p in s.mending && p in s.succ
    ensures HalfLinked(s, p, s.succ[p])
  {
    assert MendingOk(s, p);
    assert ThreadOk(s, s.mending[p]);
    assert Linking(s, s.mending[p], p, s.succ[p]);
  }

  lemma WalkKeys(s: State, w: seq<int>)
    requires Inv(s) && IsWalk(s, HEAD, w)
    requires forall q :: q in s.succ && q in s.heap && s.heap[HEAD].key <= s.heap[q].key ==> q in w
    ensures forall k :: k in Contents(s) <==>
      exists p :: p in w && p in s.heap && p != HEAD && p != TAIL && s.heap[p].key == k
  {
    forall k ensures k in Contents(s) <==>
      exists p :: p in w && p in s.heap && p != HEAD && p != TAIL && s.heap[p].key == k
    {
      assert k in Contents(s) <==> Holds(s.heap, s.succ, k);
      if Holds(s.heap, s.succ, k) {
        var p :| p in s.succ && p in s.heap && p != HEAD && p != TAIL && s.heap[p].key == k;
        assert Joined(s.heap, s.succ, p);
        assert p in w;
      }
    }
  }

  // ---------- Deadlock freedom ----------

  ghost predicate CanStep(s: State, t: nat) {
    t < |s.threads| && !s.threads[t].pc.Idle? && !Blocked(s, t)
  }

  /** From a waiting thread to the holder of its lock, to what that one waits for, and so on: keys only grow. */
  lemma {:induction false} FollowWaiters(s: State, t: nat) returns (u: nat)
    requires Inv(s) && t < |s.threads| && s.threads[t].pc.LockCur? && s.threads[t].pc.pre in s.heap
    ensures CanStep(s, u)
    decreases INT32_MAX - s.heap[s.threads[t].pc.pre].key
  {
    hide OwnersOk, RecordOk, Wired, CallMatches;
    assert ThreadOk(s, t);
    var pre, cur := s.threads[t].pc.pre, s.threads[t].pc.cur;
    InHeap(s, pre);
    KeyBelowMax(s, pre);
    if s.heap[cur].owner.None? {
      return t;
    }
    u := s.heap[cur].owner.value;
    HolderOf(s, cur);
    if s.threads[u].pc.LockCur? {
      StateMemory(s, u);
      u := FollowWaiters(s, u);
    }
  }

  lemma HolderOf(s: State, p: int)
    requires Inv(s) && p in s.heap && s.heap[p].owner.Some?
    ensures s.heap[p].owner.value < |s.threads| && p in Held(s.threads[s.heap[p].owner.value].pc)
  {
    assert OwnerOk(s, p);
  }

  /** Whenever a call is under way, some thread that is in a call can make its next step. */
  lemma DeadlockFree(n: nat, actions: seq<Action>, t: nat) returns (u: nat)
    requires var s := Run(n, actions); t < |s.threads| && !s.threads[t].pc.Idle?
    ensures CanStep(Run(n, actions), u)
  {
    var s := Run(n, actions);
    RunInv(n, actions);
    hide ThreadsOk, OwnersOk, RecordOk, Wired, Joined;
    if !Blocked(s, t) {
      return t;
    }
    if s.threads[t].pc.LockCur? {
      StateMemory(s, t);
      u := FollowWaiters(s, t);
    } else {
      HolderOf(s, HEAD);
      u := s.heap[HEAD].owner.value;
      if s.threads[u].pc.LockCur? {
        StateMemory(s, u);
        u := FollowWaiters(s, u);
      }
    }
  }
}
