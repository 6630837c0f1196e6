/** What holds of every run of `LockFreeStack`: linearizability, and safe and complete reclamation. */
module LockFreeStackTheorems {
  import opened Options
  import opened Linearizability
  import opened LockFreeStack

  // ---------- What the callers see ----------

  /** The call or return that an action is, to the callers: a call of an idle thread, or a return. */
  function Seen(s: State, a: Action): seq<Event<Op, Option<Value>>> {
    match a
    case Begin(t, op) => if t < |s.threads| && s.threads[t].pc.Idle? then [Invoked(t, op)] else []
    case Step(t, address, spurious) => []
    case Finish(t) => if t < |s.threads| && s.threads[t].pc.Done? then [Returned(t, s.threads[t].pc.result)] else []
  }

  function History(n: nat, actions: seq<Action>): seq<Event<Op, Option<Value>>> {
    if actions == [] then []
    else
      var most := actions[..|actions| - 1];
      History(n, most) + Seen(Run(n, most), actions[|actions| - 1])
  }

  /** The calls that the threads have not returned from. */
  ghost function OpenCalls(s: State): seq<Option<nat>> {
    seq(|s.threads|, t requires 0 <= t < |s.threads| => if s.threads[t].pc.Idle? then None else Some(s.threads[t].call))
  }

  ghost predicate Tracks(s: State, h: seq<Event<Op, Option<Value>>>) {
    Records(s.record, h) && Open(s.record, h, OpenCalls(s))
  }

  lemma StepSeen(s: State, a: Action, h: seq<Event<Op, Option<Value>>>)
    requires Inv(s) && Tracks(s, h) && a.Step?
    ensures Tracks(Apply(s, a), h) && |Apply(s, a).threads| == |s.threads|
  {
    hide Inv, Records, Open;
    var s' := Apply(s, a);
    StepKeepsCalls(s, a);
    assert OpenCalls(s') == OpenCalls(s);
    hide Apply;
    SameSeen(s.record, s'.record, h, OpenCalls(s));
  }

  lemma StepKeepsCalls(s: State, a: Action)
    requires a.Step?
    ensures var s' := Apply(s, a);
      && SameCalls(s.record, s'.record) && |s'.threads| == |s.threads|
      && forall t :: 0 <= t < |s.threads| ==>
        s'.threads[t].call == s.threads[t].call && s'.threads[t].pc.Idle? == s.threads[t].pc.Idle?
  {
    hide StepOf, Safe;
    if Enabled(s, a) && Safe(s, a.thread) {
      StepKeepsRecord(s, a.thread, a.address, a.spurious);
      StepKeepsThreads(s, a.thread, a.address, a.spurious);
    }
  }

  lemma StepKeepsRecord(s: State, t: nat, address: nat, spurious: bool)
    requires Safe(s, t)
    ensures SameCalls(s.record, StepOf(s, t, address, spurious).record)
  {
  }

  lemma StepKeepsThreads(s: State, t: nat, address: nat, spurious: bool)
    requires Safe(s, t) && t < |s.threads| && !s.threads[t].pc.Idle?
    ensures var s' := StepOf(s, t, address, spurious);
      && |s'.threads| == |s.threads| && !s'.threads[t].pc.Idle?
      && s'.threads == s.threads[t := s.threads[t].(pc := s'.threads[t].pc)]
  {
  }

  lemma CallSeenBy(s: State, a: Action, h: seq<Event<Op, Option<Value>>>)
    requires Inv(s) && Tracks(s, h) && !a.Step?
    ensures Tracks(Apply(s, a), h + Seen(s, a)) && |Apply(s, a).threads| == |s.threads|
  {
    hide Inv, Records, Open;
    var s', t := Apply(s, a), a.thread;
    if Seen(s, a) == [] {
      assert s' == s && h + Seen(s, a) == h;
    } else if a.Begin? {
      InvokeSeen(s.record, h, OpenCalls(s), t, a.op);
      assert OpenCalls(s') == OpenCalls(s)[t := Some(|s.record.calls|)];
    } else {
      ReturnSeen(s.record, h, OpenCalls(s), t, s.threads[t].pc.result);
      assert OpenCalls(s') == OpenCalls(s)[t := None];
    }
  }

  lemma {:induction false} RunSeen(n: nat, actions: seq<Action>)
    ensures Tracks(Run(n, actions), History(n, actions)) && |Run(n, actions).threads| == n
  {
    hide Inv, Apply, Tracks, Seen;
    if actions == [] {
      InitSeen(n);
    } else {
      var most, a := actions[..|actions| - 1], actions[|actions| - 1];
      RunSeen(n, most);
      RunInv(n, most);
      if a.Step? {
        StepSeen(Run(n, most), a, History(n, most));
        assert Seen(Run(n, most), a) == [] by { StepUnseen(Run(n, most), a); }
        assert History(n, most) + [] == History(n, most);
      } else {
        CallSeenBy(Run(n, most), a, History(n, most));
      }
    }
  }

  lemma StepUnseen(s: State, a: Action)
    requires a.Step?
    ensures Seen(s, a) == []
  {
  }

  lemma InitSeen(n: nat)
    ensures Tracks(Init(n), []) && |Init(n).threads| == n
  {
    EmptySeen<Op, Option<Value>>(OpenCalls(Init(n)));
  }

  lemma Begins(s: State, t: nat, op: Op)
    requires t < |s.threads| && s.threads[t].pc.Idle?
    ensures Seen(s, Begin(t, op)) == [Invoked(t, op)]
    ensures var s' := Apply(s, Begin(t, op));
      HasCall(s', t) && s'.threads[t].call == |s.record.calls| && OpOf(s', t) == op
  {
  }

  /** A call that begins on an idle thread runs the operation that it was begun with. */
  lemma BegunCall(n: nat, actions: seq<Action>, t: nat, op: Op)
    requires t < |Run(n, actions).threads| && Run(n, actions).threads[t].pc.Idle?
    ensures var s, s' := Run(n, actions), Run(n, actions + [Begin(t, op)]);
      && History(n, actions + [Begin(t, op)]) == History(n, actions) + [Invoked(t, op)]
      && HasCall(s', t) && s'.threads[t].call == |s.record.calls| && OpOf(s', t) == op
  {
    hide Apply, Seen;
    Begins(Run(n, actions), t, op);
    assert (actions + [Begin(t, op)])[..|actions + [Begin(t, op)]| - 1] == actions;
  }

  // ---------- Linearizability ----------

  /**
   * Every interleaving of any number of threads is linearizable to a sequential stack, also when freed addresses are
   * reused at once.
   */
  lemma StackLinearizable(n: nat, actions: seq<Action>)
    ensures var r := Run(n, actions).record; Records(r, History(n, actions)) && Linearizable(r, [], StackSpec)
  {
    RunInv(n, actions);
    RunSeen(n, actions);
    ConsistentRespectsRealTime(Run(n, actions).record);
  }

  // ---------- Conservation of values ----------

  function GivenBy(op: Op): multiset<Value> {
    match op
    case Push(v) => multiset{v}
    case Pop => multiset{}
  }

  function TakenBy(op: Op, result: Option<Value>): multiset<Value> {
    if op.Pop? && result.Some? then multiset{result.value} else multiset{}
  }

  lemma SpecConserves(values: seq<Value>, op: Op)
    ensures var (after, result) := StackSpec(values, op);
      multiset(after) + TakenBy(op, result) == multiset(values) + GivenBy(op)
  {
    if op.Pop? && values != [] { assert values == [values[0]] + values[1..]; }
  }

  lemma Regroup(pushed: multiset<Value>, popped: multiset<Value>, before: multiset<Value>, after: multiset<Value>,
                given: multiset<Value>, taken: multiset<Value>)
    requires pushed == popped + before && after + taken == before + given
    ensures pushed + given == popped + taken + after
  {
    forall v ensures (pushed + given)[v] == (popped + taken + after)[v] {
      assert (after + taken)[v] == (before + given)[v];
    }
  }

  function Pushed(log: seq<Entry<Op, Option<Value>>>): multiset<Value> {
    if log == [] then multiset{} else Pushed(log[..|log| - 1]) + GivenBy(log[|log| - 1].op)
  }

  function Popped(log: seq<Entry<Op, Option<Value>>>): multiset<Value> {
    if log == [] then multiset{} else Popped(log[..|log| - 1]) + TakenBy(log[|log| - 1].op, log[|log| - 1].result)
  }

  lemma LegalPrefix(log: seq<Entry<Op, Option<Value>>>)
    requires log != [] && Legal(log, [], StackSpec)
    ensures Legal(log[..|log| - 1], [], StackSpec)
  {
    var most := log[..|log| - 1];
    forall i | 0 <= i < |most| ensures most[i].result == StackSpec(Replay(most[..i], [], StackSpec), most[i].op).1 {
      assert most[..i] == log[..i] && most[i] == log[i];
    }
  }

  lemma {:induction false} PushedIsPoppedOrThere(log: seq<Entry<Op, Option<Value>>>)
    requires Legal(log, [], StackSpec)
    ensures Pushed(log) == Popped(log) + multiset(Replay(log, [], StackSpec))
  {
    if log != [] {
      var most, e := log[..|log| - 1], log[|log| - 1];
      LegalPrefix(log);
      PushedIsPoppedOrThere(most);
      var before := Replay(most, [], StackSpec);
      assert e.result == StackSpec(before, e.op).1;
      hide Legal, StackSpec, GivenBy, TakenBy;
      SpecConserves(before, e.op);
      Regroup(Pushed(most), Popped(most), multiset(before), multiset(Replay(log, [], StackSpec)), GivenBy(e.op),
              TakenBy(e.op, e.result));
    }
  }

  /** No pushed value is lost and none is returned twice. */
  lemma ValuesConserved(n: nat, actions: seq<Action>)
    ensures var s := Run(n, actions);
      Pushed(s.record.log) == Popped(s.record.log) + multiset(Values(s.heap, s.list))
  {
    RunInv(n, actions);
    PushedIsPoppedOrThere(Run(n, actions).record.log);
  }

  // ---------- The counts ----------

  /** The word that points to the `i`-th node of the stack: the head, or the `next` of the node above. */
  function WordTo(s: State, i: nat): CountedPtr
    requires i <= |s.list| && forall j :: 0 <= j < |s.list| ==> s.list[j] in s.heap
  {
    if i == 0 then s.head else s.heap[s.list[i - 1]].next
  }

  ghost predicate LinkAt(s: State, i: nat)
    requires i < |s.list|
  {
    && (forall j :: 0 <= j < |s.list| ==> s.list[j] in s.heap)
    && WordTo(s, i).ptr == s.list[i]
    && WordTo(s, i).count + s.heap[s.list[i]].internal == 1 + Holders(s.threads, s.list[i])
  }

  lemma {:induction false} ChainAt(heap: map<nat, Node>, threads: seq<Thread>, ptr: CountedPtr, list: seq<nat>, i: nat)
    requires Chain(heap, threads, ptr, list) && i <= |list|
    ensures forall j :: 0 <= j < |list| ==> list[j] in heap
    ensures var w := if i == 0 then ptr else heap[list[i - 1]].next;
      if i == |list| then w.ptr == NULL
      else w.ptr == list[i] && w.count + heap[list[i]].internal == 1 + Holders(threads, list[i])
    decreases i
  {
    ChainMembers(heap, threads, ptr, list);
    if i > 0 {
      ChainAt(heap, threads, heap[list[0]].next, list[1..], i - 1);
      assert i > 1 ==> list[1..][i - 2] == list[i - 1];
      assert i < |list| ==> list[1..][i - 1] == list[i];
    }
  }

  /**
   * For each node on the stack, the external count in the word that points to it and its internal count
   * sum to one more than the number of threads holding it; the last word is null.
   */
  lemma CountsBalance(n: nat, actions: seq<Action>)
    ensures var s := Run(n, actions);
      && (forall i: nat :: i < |s.list| ==> LinkAt(s, i))
      && (forall j :: 0 <= j < |s.list| ==> s.list[j] in s.heap)
      && WordTo(s, |s.list|).ptr == NULL
  {
    hide Inv;
    var s := Run(n, actions);
    RunInv(n, actions);
    StackParts(s);
    forall i: nat | i < |s.list| ensures LinkAt(s, i) {
      ChainAt(s.heap, s.threads, s.head, s.list, i);
    }
    ChainAt(s.heap, s.threads, s.head, s.list, |s.list|);
  }

  // ---------- Reclamation ----------

  predicate AboutToDelete(pc: Pc, p: nat) {
    (pc.PopDelete? || pc.PopReleaseDelete?) && pc.node == p
  }

  /** The popper of `p` has not yet added its count. */
  predicate PopperUnsettled(pc: Pc, p: nat) {
    (pc.PopTake? || pc.PopAdd?) && pc.seen.ptr == p
  }

  predicate PushingNode(pc: Pc, p: nat) {
    (pc.PushLoad? || pc.PushCas?) && pc.node == p
  }

  ghost predicate NothingElse(s: State, p: nat) {
    && p !in s.list
    && (forall t :: 0 <= t < |s.threads| ==> !Holds(s.threads[t].pc, p))
    && (forall t :: 0 <= t < |s.threads| ==> !PopperUnsettled(s.threads[t].pc, p) && !PushingNode(s.threads[t].pc, p))
  }

  lemma NodeOf(s: State, p: nat)
    requires Inv(s) && p in s.heap
    ensures NodeOk(s, p) && Chain(s.heap, s.threads, s.head, s.list) && Distinct(s.list)
  {
    hide Chain, ThreadsOk, RecordOk;
  }

  /** No thread touches a node that has been deleted, and the node a thread holds is there. */
  lemma NoUseAfterFree(n: nat, actions: seq<Action>, t: nat, p: nat)
    requires t < |Run(n, actions).threads| && p != NULL
    requires Concerns(Run(n, actions).threads[t].pc) == p || Holds(Run(n, actions).threads[t].pc, p)
    ensures p in Run(n, actions).heap
  {
    RunInv(n, actions);
    OtherConcern(Run(n, actions), t, p);
  }

  /** The thread about to delete a node is the only one concerned with it: no holder, no popper, no second deleter. */
  lemma DeleterIsAlone(n: nat, actions: seq<Action>, t: nat, u: nat, p: nat)
    requires t < |Run(n, actions).threads| && u < |Run(n, actions).threads| && t != u
    requires AboutToDelete(Run(n, actions).threads[t].pc, p)
    ensures p != NULL && p in Run(n, actions).heap && p !in Run(n, actions).list
    ensures Concerns(Run(n, actions).threads[u].pc) != p
  {
    var s := Run(n, actions);
    RunInv(n, actions);
    hide NodesOk, Chain, RecordOk;
    Facts(s, t);
    if Concerns(s.threads[u].pc) == p { OtherConcern(s, u, p); }
  }

  lemma LeftoverIsDying(s: State, p: nat)
    requires Inv(s) && NothingElse(s, p) && p in s.heap
    ensures exists t :: 0 <= t < |s.threads| && AboutToDelete(s.threads[t].pc, p)
  {
    hide Inv;
    NodeOf(s, p);
    HoldersZero(s.threads, p);
    match s.heap[p].stage
    case Dying(t) => assert AboutToDelete(s.threads[t].pc, p);
    case _ =>
  }

  /**
   * Once the popper of a node has settled its count and no holder remains, the node is gone or exactly one thread
   * is about to delete it.
   */
  lemma NothingIsLeaked(n: nat, actions: seq<Action>, p: nat)
    requires NothingElse(Run(n, actions), p) && p in Run(n, actions).heap
    ensures exists t :: 0 <= t < |Run(n, actions).threads| && AboutToDelete(Run(n, actions).threads[t].pc, p)
  {
    hide Inv, NothingElse;
    RunInv(n, actions);
    LeftoverIsDying(Run(n, actions), p);
  }

  /** No node is deleted twice, and no deleted node is still there. */
  lemma EachNodeDeletedOnce(n: nat, actions: seq<Action>)
    ensures var s := Run(n, actions);
      && (forall i, j :: 0 <= i < j < |s.freed| ==> s.freed[i] != s.freed[j])
      && (forall p :: p in s.heap ==> s.heap[p].id !in s.freed)
  {
    var s := Run(n, actions);
    RunInv(n, actions);
    forall p | p in s.heap ensures s.heap[p].id !in s.freed {
      assert NodeOk(s, p);
    }
  }

  /** Only allocation and deletion change which nodes there are. */
  lemma SameNodes(s: State, t: nat, address: nat, spurious: bool)
    requires Safe(s, t)
    requires !s.threads[t].pc.PopDelete? && !s.threads[t].pc.PopReleaseDelete? && !s.threads[t].pc.PushAlloc?
    requires s.threads[t].pc.PopCas? ==> Concerns(s.threads[t].pc) in s.heap
    ensures var s' := StepOf(s, t, address, spurious);
      s'.heap.Keys == s.heap.Keys && s'.freed == s.freed && s'.born == s.born
  {
  }

  lemma NamesOfStep(s: State, t: nat, address: nat, spurious: bool)
    requires Safe(s, t) && (s.threads[t].pc.PushAlloc? ==> address !in s.heap)
    requires s.threads[t].pc.PopCas? ==> Concerns(s.threads[t].pc) in s.heap
    ensures var s' := StepOf(s, t, address, spurious);
      |s'.heap| + |s'.freed| - s'.born == |s.heap| + |s.freed| - s.born
  {
    var s', p := StepOf(s, t, address, spurious), Concerns(s.threads[t].pc);
    if s.threads[t].pc.PopDelete? || s.threads[t].pc.PopReleaseDelete? {
      assert s.heap.Keys == (s.heap - {p}).Keys + {p};
    } else if s.threads[t].pc.PushAlloc? {
      assert s'.heap.Keys == s.heap.Keys + {address};
    } else {
      hide StepOf;
      SameNodes(s, t, address, spurious);
    }
  }

  lemma StepKeepsTally(s: State, a: Action)
    requires Inv(s) && |s.heap| + |s.freed| == s.born
    ensures var s' := Apply(s, a); |s'.heap| + |s'.freed| == s'.born
  {
    hide Inv, NodesOk, ThreadsOk, RecordOk, Chain, NodeOk, LocalsOk, CallMatches;
    if Enabled(s, a) && a.Step? {
      Facts(s, a.thread);
      hide Safe, Apply;
      NamesOfStep(s, a.thread, a.address, a.spurious);
    }
  }

  /** Nodes made are nodes there plus nodes deleted. */
  lemma {:induction false} NodeTally(n: nat, actions: seq<Action>)
    ensures var s := Run(n, actions); |s.heap| + |s.freed| == s.born
    decreases |actions|
  {
    hide Inv, Apply;
    if actions != [] {
      var most := actions[..|actions| - 1];
      NodeTally(n, most);
      RunInv(n, most);
      StepKeepsTally(Run(n, most), actions[|actions| - 1]);
    }
  }

  function Elements(list: seq<nat>): set<nat> {
    set p | p in list
  }

  lemma {:induction false} CountOfDistinct(list: seq<nat>)
    requires Distinct(list)
    ensures |Elements(list)| == |list|
  {
    if list != [] {
      var last, most := list[|list| - 1], list[..|list| - 1];
      CountOfDistinct(most);
      assert list == most + [last];
      assert Elements(list) == Elements(most) + {last};
      assert last !in Elements(most);
    }
  }

  lemma StackParts(s: State)
    requires Inv(s)
    ensures Chain(s.heap, s.threads, s.head, s.list)
    ensures Distinct(s.list) && forall i :: 0 <= i < |s.list| ==> s.list[i] in s.heap
  {
    hide NodeOk, ThreadsOk, RecordOk;
    ChainMembers(s.heap, s.threads, s.head, s.list);
  }

  lemma QuietNode(s: State, p: nat)
    requires Inv(s) && p in s.heap && forall t :: 0 <= t < |s.threads| ==> s.threads[t].pc.Idle?
    ensures p in s.list
  {
    hide Inv;
    NodeOf(s, p);
    HoldersZero(s.threads, p);
  }

  /** With no call running, exactly the nodes on the stack exist: every popped node has been deleted. */
  lemma QuiescentStackHoldsNoGarbage(n: nat, actions: seq<Action>)
    requires forall t :: 0 <= t < |Run(n, actions).threads| ==> Run(n, actions).threads[t].pc.Idle?
    ensures var s := Run(n, actions);
      s.heap.Keys == Elements(s.list) && |s.freed| + |s.list| == s.born
  {
    hide Inv;
    var s := Run(n, actions);
    RunInv(n, actions);
    NodeTally(n, actions);
    StackParts(s);
    forall p | p in s.heap ensures p in s.list {
      QuietNode(s, p);
    }
    CountOfDistinct(s.list);
    assert s.heap.Keys == Elements(s.list);
  }
}
