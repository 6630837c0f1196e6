/**
 * What holds of every run of `UnblockingSafeSet`: linearizability, the shape of the list, and that marks are for
 * ever.
 */
module LockFreeSetTheorems {
  import opened Options
  import opened Linearizability
  import opened AbstractSet
  import opened LockFreeSet

  // ---------- What the callers see ----------

  /**
   * The call or return that an action is, to the callers: a call of an idle thread with a key between the sentinels,
   * or a return.
   */
  function Seen(s: State, a: Action): seq<Event<Op, bool>> {
    match a
    case Begin(t, op) =>
      if t < |s.threads| && s.threads[t].pc.Idle? && INT32_MIN < op.key < INT32_MAX then [Invoked(t, op)] else []
    case Step(t) => []
    case Finish(t) => if t < |s.threads| && s.threads[t].pc.Done? then [Returned(t, s.threads[t].pc.result)] else []
  }

  function History(n: nat, actions: seq<Action>): seq<Event<Op, bool>> {
    if actions == [] then []
    else
      var most := actions[..|actions| - 1];
      History(n, most) + Seen(Run(n, most), actions[|actions| - 1])
  }

  /** The calls that the threads have not returned from. */
  ghost function OpenCalls(s: State): seq<Option<nat>> {
    seq(|s.threads|, t requires 0 <= t < |s.threads| => if s.threads[t].pc.Idle? then None else Some(s.threads[t].call))
  }

  ghost predicate Tracks(s: State, h: seq<Event<Op, bool>>) {
    Records(s.record, h) && Open(s.record, h, OpenCalls(s))
  }

  lemma StepSeen(s: State, a: Action, h: seq<Event<Op, bool>>)
    requires Inv(s) && Tracks(s, h) && a.Step?
    ensures Tracks(Apply(s, a), h) && |Apply(s, a).threads| == |s.threads|
  {
    hide Inv, Records, Open;
    var s' := Apply(s, a);
    StepKeepsCalls(s, a);
    assert OpenCalls(s') == OpenCalls(s);
    hide Apply;
    SameSeen(s.record, s'.record, h, OpenCalls(s));
  }

  lemma StepKeepsCalls(s: State, a: Action)
    requires a.Step?
    ensures var s' := Apply(s, a);
      && SameCalls(s.record, s'.record) && |s'.threads| == |s.threads|
      && forall t :: 0 <= t < |s.threads| ==>
        s'.threads[t].call == s.threads[t].call && s'.threads[t].pc.Idle? == s.threads[t].pc.Idle?
  {
    hide StepOf, Safe;
    if Enabled(s, a) && Safe(s, a.thread) {
      StepKeepsRecord(s, a.thread);
      StepKeepsThreads(s, a.thread);
    }
  }

  lemma StepKeepsRecord(s: State, t: nat)
    requires Safe(s, t)
    ensures SameCalls(s.record, StepOf(s, t).record)
  {
  }

  lemma StepKeepsThreads(s: State, t: nat)
    requires Safe(s, t) && t < |s.threads| && !s.threads[t].pc.Idle?
    ensures var s' := StepOf(s, t);
      && |s'.threads| == |s.threads| && !s'.threads[t].pc.Idle?
      && s'.threads == s.threads[t := s.threads[t].(pc := s'.threads[t].pc)]
  {
  }

  lemma CallSeenBy(s: State, a: Action, h: seq<Event<Op, bool>>)
    requires Inv(s) && Tracks(s, h) && !a.Step?
    ensures Tracks(Apply(s, a), h + Seen(s, a)) && |Apply(s, a).threads| == |s.threads|
  {
    hide Inv, Records, Open;
    var s', t := Apply(s, a), a.thread;
    if Seen(s, a) == [] {
      assert s' == s && h + Seen(s, a) == h;
    } else if a.Begin? {
      InvokeSeen(s.record, h, OpenCalls(s), t, a.op);
      assert OpenCalls(s') == OpenCalls(s)[t := Some(|s.record.calls|)];
    } else {
      ReturnSeen(s.record, h, OpenCalls(s), t, s.threads[t].pc.result);
      assert OpenCalls(s') == OpenCalls(s)[t := None];
    }
  }

  lemma {:induction false} RunSeen(n: nat, actions: seq<Action>)
    ensures Tracks(Run(n, actions), History(n, actions)) && |Run(n, actions).threads| == n
  {
    hide Inv, Apply, Tracks, Seen;
    if actions == [] {
      InitSeen(n);
    } else {
      var most, a := actions[..|actions| - 1], actions[|actions| - 1];
      RunSeen(n, most);
      RunInv(n, most);
      if a.Step? {
        StepSeen(Run(n, most), a, History(n, most));
        assert Seen(Run(n, most), a) == [] by { StepUnseen(Run(n, most), a); }
        assert History(n, most) + [] == History(n, most);
      } else {
        CallSeenBy(Run(n, most), a, History(n, most));
      }
    }
  }

  lemma StepUnseen(s: State, a: Action)
    requires a.Step?
    ensures Seen(s, a) == []
  {
  }

  lemma InitSeen(n: nat)
    ensures Tracks(Init(n), []) && |Init(n).threads| == n
  {
    EmptySeen<Op, bool>(OpenCalls(Init(n)));
  }

  lemma Begins(s: State, t: nat, op: Op)
    requires t < |s.threads| && s.threads[t].pc.Idle?
    requires INT32_MIN < op.key < INT32_MAX
    ensures Seen(s, Begin(t, op)) == [Invoked(t, op)]
    ensures var s' := Apply(s, Begin(t, op));
      HasCall(s', t) && s'.threads[t].call == |s.record.calls| && OpOf(s', t) == op
  {
  }

  /** A call that begins on an idle thread runs the operation that it was begun with. */
  lemma BegunCall(n: nat, actions: seq<Action>, t: nat, op: Op)
    requires t < |Run(n, actions).threads| && Run(n, actions).threads[t].pc.Idle?
    requires INT32_MIN < op.key < INT32_MAX
    ensures var s, s' := Run(n, actions), Run(n, actions + [Begin(t, op)]);
      && History(n, actions + [Begin(t, op)]) == History(n, actions) + [Invoked(t, op)]
      && HasCall(s', t) && s'.threads[t].call == |s.record.calls| && OpOf(s', t) == op
  {
    hide Apply, Seen;
    Begins(Run(n, actions), t, op);
    assert (actions + [Begin(t, op)])[..|actions + [Begin(t, op)]| - 1] == actions;
  }

  // ---------- Linearizability ----------

  /** Every interleaving of any number of threads is linearizable to a set of keys. */
  lemma SetLinearizable(n: nat, actions: seq<Action>)
    ensures var r := Run(n, actions).record; Records(r, History(n, actions)) && Linearizable(r, {}, SetSpec)
  {
    RunInv(n, actions);
    RunSeen(n, actions);
    ConsistentRespectsRealTime(Run(n, actions).record);
  }

  // ---------- The list from the head ----------

  /** `w` lists, in order, the nodes met by following `next` from `p`; the last is the tail sentinel. */
  ghost predicate IsWalk(heap: seq<Node>, p: int, w: seq<int>) {
    && |w| > 0 && w[0] == p && w[|w| - 1] == TAIL
    && (forall i :: 0 <= i < |w| ==> 0 <= w[i] < |heap|)
    && (forall i :: 0 <= i < |w| - 1 ==> Follows(heap, w[i], w[i + 1]))
  }

  ghost predicate Follows(heap: seq<Node>, p: int, q: int)
    requires 0 <= p < |heap|
  {
    heap[p].next.ref == q
  }

  ghost predicate Ascending(heap: seq<Node>, w: seq<int>)
    requires forall i :: 0 <= i < |w| ==> 0 <= w[i] < |heap|
  {
    forall i, j :: 0 <= i < j < |w| ==> heap[w[i]].key < heap[w[j]].key
  }

  /** The walk from a node of the chain, and what it meets. */
  lemma {:induction false} Walk(heap: seq<Node>, linked: set<int>, chain: set<int>, p: int) returns (w: seq<int>)
    requires Shape(heap, linked, chain) && At(heap, chain, p)
    ensures IsWalk(heap, p, w) && Ascending(heap, w)
    ensures forall q :: q in chain && 0 <= q < |heap| && heap[p].key <= heap[q].key ==> q in w
    decreases INT32_MAX - heap[p].key
  {
    assert Joined(heap, chain, p) && p in linked;
    if p == TAIL {
      w := [TAIL];
      forall q | q in chain && 0 <= q < |heap| && heap[p].key <= heap[q].key ensures q in w {
        if q != TAIL { NextOf(heap, linked, chain, q); KeyBelowMax(heap, linked, q); }
      }
    } else {
      var succ := heap[p].next.ref;
      NextOf(heap, linked, chain, p);
      KeyBelowMax(heap, linked, p);
      var rest := Walk(heap, linked, chain, succ);
      w := [p] + rest;
      hide Shape, Joined;
      PrependWalk(heap, p, rest);
      forall q | q in chain && 0 <= q < |heap| && heap[p].key <= heap[q].key ensures q in w {
        assert q == p || q in rest;
      }
    }
  }

  lemma PrependWalk(heap: seq<Node>, p: int, rest: seq<int>)
    requires IsNode(heap, p) && IsWalk(heap, heap[p].next.ref, rest) && Ascending(heap, rest)
    requires heap[p].key < heap[rest[0]].key
    ensures IsWalk(heap, p, [p] + rest) && Ascending(heap, [p] + rest)
  {
    var w := [p] + rest;
    forall i | 0 <= i < |rest| ensures heap[p].key < heap[rest[i]].key {
      assert i == 0 || heap[rest[0]].key < heap[rest[i]].key;
    }
    forall i | 0 <= i < |w| - 1 ensures Follows(heap, w[i], w[i + 1]) {
      assert i == 0 || Follows(heap, rest[i - 1], rest[i]);
    }
  }

  lemma KeyBelowMax(heap: seq<Node>, linked: set<int>, p: int)
    requires NodesOk(heap, linked) && 0 <= p < |heap| && p != TAIL
    ensures heap[p].key < INT32_MAX
  {
  }

  /**
   * In every reachable state the list from `head_` is strictly ascending, ends at the tail sentinel
   * and contains every unmarked node ever put in the list; and its unmarked keys are exactly
   * the abstract set of the calls that have taken effect.
   */
  lemma ListFromHead(n: nat, actions: seq<Action>) returns (w: seq<int>)
    ensures var s := Run(n, actions);
      && IsWalk(s.heap, HEAD, w) && Ascending(s.heap, w)
      && (forall p :: p in s.linked ==> 0 <= p < |s.heap| && (s.heap[p].next.marked || p in w))
      && (forall k :: k in Contents(s) <==>
            exists p :: p in w && p != HEAD && p != TAIL && !s.heap[p].next.marked && s.heap[p].key == k)
  {
    var s := Run(n, actions);
    RunInv(n, actions);
    w := Walk(s.heap, s.linked, s.chain, HEAD);
    WalkInLinked(s, w);
    HoldsOnWalk(s, w);
  }

  /** The walk stays on the chain. */
  lemma WalkInLinked(s: State, w: seq<int>)
    requires Inv(s) && IsWalk(s.heap, HEAD, w) && Ascending(s.heap, w)
    ensures forall i :: 0 <= i < |w| ==> w[i] in s.chain
  {
    var i := 0;
    while i < |w| - 1
      invariant 0 <= i < |w| && forall j :: 0 <= j <= i ==> w[j] in s.chain
    {
      assert Follows(s.heap, w[i], w[i + 1]);
      assert w[i] != TAIL by {
        assert s.heap[w[i]].key < s.heap[w[|w| - 1]].key;
      }
      NextOf(s.heap, s.linked, s.chain, w[i]);
      i := i + 1;
    }
  }

  lemma HoldsOnWalk(s: State, w: seq<int>)
    requires Inv(s) && forall i :: 0 <= i < |w| ==> w[i] in s.chain
    requires forall q :: q in s.chain && 0 <= q < |s.heap| && s.heap[HEAD].key <= s.heap[q].key ==> q in w
    ensures forall p :: p in s.linked ==> 0 <= p < |s.heap| && (s.heap[p].next.marked || p in w)
    ensures forall k :: k in Contents(s) <==>
      exists p :: p in w && p != HEAD && p != TAIL && !s.heap[p].next.marked && s.heap[p].key == k
  {
    assert forall q :: q in s.chain ==> q in w && 0 <= q < |s.heap|;
    forall k ensures k in Contents(s) <==>
      exists p :: p in w && p != HEAD && p != TAIL && !s.heap[p].next.marked && s.heap[p].key == k
    {
      assert k in Contents(s) <==> Holds(s.heap, s.chain, k);
      if exists p :: p in w && p != HEAD && p != TAIL && !s.heap[p].next.marked && s.heap[p].key == k {
        var p :| p in w && p != HEAD && p != TAIL && !s.heap[p].next.marked && s.heap[p].key == k;
        assert p in s.chain && 0 <= p < |s.heap|;
      }
    }
  }

  // ---------- Marks are for ever ----------

  /** A marked node keeps its mark and its successor, whatever the threads do next. */
  lemma {:induction false} MarkedNodesNeverChange(n: nat, before: seq<Action>, after: seq<Action>, p: int)
    requires IsNode(Run(n, before).heap, p) && Run(n, before).heap[p].next.marked
    ensures IsNode(Run(n, before + after).heap, p)
    ensures Run(n, before + after).heap[p] == Run(n, before).heap[p]
    decreases |after|
  {
    hide Inv, Apply;
    if after == [] {
      assert before + after == before;
    } else {
      var most := after[..|after| - 1];
      MarkedNodesNeverChange(n, before, most, p);
      assert (before + after)[..|before + after| - 1] == before + most;
      RunInv(n, before + most);
      StepFreezes(Run(n, before + most), after[|after| - 1], p);
    }
  }
}
