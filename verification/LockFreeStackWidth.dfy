/**
 * The width of the external count of `LockFreeStack`: the one bound that its counting needs, and that runs do reach.
 */
module LockFreeStackWidth {
  import opened LockFreeStack
  import LockFreeStackTheorems

  /** A popper about to count itself into the node at the head. */
  predicate CountsInto(s: State, t: nat) {
    HasCall(s, t) && s.threads[t].pc == PopCount(s.head) && s.head.ptr != NULL
  }

  ghost predicate HeadBalanced(s: State) {
    && s.head.ptr in s.heap
    && s.head.count + s.heap[s.head.ptr].internal == 1 + Holders(s.threads, s.head.ptr)
  }

  // ---------- Every count fits its 16 bits ----------

  predicate Fits(w: CountedPtr) {
    w.count < COUNT_LIMIT
  }

  predicate LocalsFit(pc: Pc) {
    match pc
    case PopCount(seen) => Fits(seen)
    case PopReadNext(seen) => Fits(seen)
    case PopCas(seen, next) => Fits(seen) && Fits(next)
    case PopTake(seen) => Fits(seen)
    case PopAdd(seen, _) => Fits(seen)
    case PopRelease(_, reload) => Fits(reload)
    case PopReleaseDelete(_, reload) => Fits(reload)
    case _ => true
  }

  predicate WordsFit(s: State) {
    && Fits(s.head)
    && (forall p :: p in s.heap ==> Fits(s.heap[p].next))
    && (forall t :: 0 <= t < |s.threads| ==> LocalsFit(s.threads[t].pc))
  }

  lemma StepWordsFit(s: State, t: nat, address: nat, spurious: bool)
    requires Safe(s, t) && WordsFit(s)
    ensures var s' := StepOf(s, t, address, spurious);
      Fits(s'.head) && forall p :: p in s'.heap ==> Fits(s'.heap[p].next)
  {
  }

  lemma StepLocalsFit(s: State, t: nat, address: nat, spurious: bool)
    requires Safe(s, t) && WordsFit(s)
    ensures var s' := StepOf(s, t, address, spurious);
      && |s'.threads| == |s.threads| && LocalsFit(s'.threads[t].pc)
      && forall u :: 0 <= u < |s.threads| && u != t ==> s'.threads[u] == s.threads[u]
  {
  }

  lemma StepFits(s: State, a: Action)
    requires WordsFit(s)
    ensures WordsFit(Apply(s, a))
  {
    hide StepOf, Safe;
    if a.Step? && Safe(s, a.thread) {
      StepWordsFit(s, a.thread, a.address, a.spurious);
      StepLocalsFit(s, a.thread, a.address, a.spurious);
    }
  }

  lemma {:induction false} RunFits(n: nat, actions: seq<Action>)
    ensures WordsFit(Run(n, actions))
    decreases |actions|
  {
    hide Apply;
    if actions != [] {
      var most := actions[..|actions| - 1];
      RunFits(n, most);
      StepFits(Run(n, most), actions[|actions| - 1]);
    }
  }

  lemma WrapStep(s: State, t: nat)
    requires Inv(s) && CountsInto(s, t) && s.head.count < COUNT_LIMIT
    ensures Safe(s, t) && (HeadBalanced(StepOf(s, t, 0, false)) <==> s.head.count + 1 < COUNT_LIMIT)
  {
    hide Inv, NodesOk, RecordOk, Chain, ThreadsOk, LocalsOk, CallMatches, NodeOk;
    Facts(s, t);
    HeadListed(s);
    var more := CountedPtr(s.head.ptr, (s.head.count + 1) % COUNT_LIMIT);
    HoldersUpdate(s.threads, t, s.threads[t].(pc := PopReadNext(more)), s.head.ptr);
  }

  /**
   * The source asks what happens when the external count passes 16 bits. From any reachable state the popper's
   * increment keeps the head node's counts balanced if and only if the count stays below 2^16.
   */
  lemma WrapBreaksCounting(n: nat, actions: seq<Action>, t: nat)
    requires CountsInto(Run(n, actions), t)
    ensures var s := Run(n, actions);
      Safe(s, t) && (HeadBalanced(StepOf(s, t, 0, false)) <==> s.head.count + 1 < COUNT_LIMIT)
  {
    hide Inv;
    RunInv(n, actions);
    RunFits(n, actions);
    WrapStep(Run(n, actions), t);
  }

  // ---------- The largest count is reached ----------

  /** `behind` holds the node at the head, whose count is `c`, and `ahead` is about to count itself in. */
  predicate Racing(s: State, behind: nat, ahead: nat, c: nat) {
    && HasCall(s, behind) && HasCall(s, ahead) && behind != ahead
    && s.head == CountedPtr(1, c) && 1 in s.heap && s.heap[1].internal == 2 - c
    && s.threads[behind].pc == PopReadNext(s.head) && s.threads[ahead].pc == PopCount(s.head)
  }

  lemma RunMore(n: nat, actions: seq<Action>, a: Action) returns (more: seq<Action>)
    ensures more == actions + [a] && Run(n, more) == Apply(Run(n, actions), a)
  {
    more := actions + [a];
    assert more[..|more| - 1] == actions;
  }

  /** A step that is made, added to a run. */
  lemma StepMore(n: nat, actions: seq<Action>, t: nat, address: nat) returns (more: seq<Action>)
    requires Safe(Run(n, actions), t) && Enabled(Run(n, actions), Step(t, address, false))
    ensures Run(n, more) == StepOf(Run(n, actions), t, address, false)
  {
    more := RunMore(n, actions, Step(t, address, false));
  }

  lemma BeginMore(n: nat, actions: seq<Action>, t: nat, op: Op) returns (more: seq<Action>)
    requires t < |Run(n, actions).threads| && Run(n, actions).threads[t].pc.Idle?
    ensures var s, s' := Run(n, actions), Run(n, more);
      && s' == s.(threads := s'.threads, record := s'.record)
      && s'.threads == s.threads[t := Thread(|s.record.calls|, if op.Push? then PushAlloc else PopLoad)]
      && |s'.record.calls| == |s.record.calls| + 1 && HasCall(s', t) && OpOf(s', t) == op
  {
    more := RunMore(n, actions, Begin(t, op));
  }

  /** Node 1, alone on the stack, with both counts as its pusher left them. */
  predicate Fresh(s: State) {
    s.head == CountedPtr(1, 1) && 1 in s.heap && s.heap[1].internal == 0 && |s.threads| == 2
  }

  lemma OnePush() returns (r: seq<Action>)
    ensures Fresh(Run(2, r)) && Run(2, r).threads[0].pc.Done? && Run(2, r).threads[1].pc.Idle? && HasCall(Run(2, r), 0)
  {
    assert Run(2, []) == Init(2);
    hide Run, Apply;
    r := BeginMore(2, [], 0, Push(0));
    r := StepMore(2, r, 0, 1);
    r := StepMore(2, r, 0, 0);
    r := StepMore(2, r, 0, 0);
  }

  /** Both threads have loaded the head, and thread 0 has counted itself in. */
  lemma RaceBegins() returns (r: seq<Action>)
    ensures Racing(Run(2, r), 0, 1, 2)
  {
    hide Run;
    var r0 := OnePush();
    r := RunMore(2, r0, Finish(0));
    assert Fresh(Run(2, r)) && Run(2, r).threads[0].pc.Idle? && Run(2, r).threads[1].pc.Idle?;
    hide Apply;
    r := BeginMore(2, r, 0, Pop);
    r := StepMore(2, r, 0, 0);
    r := BeginMore(2, r, 1, Pop);
    r := StepMore(2, r, 1, 0);
    r := StepMore(2, r, 0, 0);
    r := StepMore(2, r, 1, 0);
  }

  /** `ahead` counts itself in, so that `behind` fails at its compare-and-set and releases the node. */
  lemma Round(r: seq<Action>, behind: nat, ahead: nat, c: nat) returns (more: seq<Action>)
    requires Racing(Run(2, r), behind, ahead, c) && 2 <= c && c + 1 < COUNT_LIMIT
    ensures Racing(Run(2, more), ahead, behind, c + 1)
  {
    hide Run, Apply;
    more := StepMore(2, r, ahead, 0);
    more := StepMore(2, more, behind, 0);
    more := StepMore(2, more, behind, 0);
    more := StepMore(2, more, behind, 0);
  }

  /** Two poppers that fail in turn drive the head's count up to any value that fits. */
  lemma {:induction false} CountsUpTo(c: nat) returns (r: seq<Action>, behind: nat, ahead: nat)
    requires 2 <= c < COUNT_LIMIT
    ensures Racing(Run(2, r), behind, ahead, c)
  {
    if c == 2 {
      behind, ahead := 0, 1;
      r := RaceBegins();
    } else {
      r, ahead, behind := CountsUpTo(c - 1);
      r := Round(r, ahead, behind, c - 1);
    }
  }

  /** Every count that fits is reached with a popper about to count itself into the node at the head. */
  lemma EveryCountIsReached(c: nat)
    requires 2 <= c < COUNT_LIMIT
    ensures exists actions, t: nat :: CountsInto(Run(2, actions), t) && Run(2, actions).head.count == c
  {
    var actions, behind, ahead := CountsUpTo(c);
    assert CountsInto(Run(2, actions), ahead);
  }

  /** The increment of `t` would be one too many: the counts of the head node balance before it, and not after it. */
  ghost predicate LosesBalance(s: State, t: nat) {
    CountsInto(s, t) && Safe(s, t) && HeadBalanced(s) && !HeadBalanced(StepOf(s, t, 0, false))
  }

  /** There is a run of two threads after which the next increment loses the balance of the counts. */
  lemma WrapIsReachable()
    ensures exists actions, t: nat :: LosesBalance(Run(2, actions), t)
  {
    hide Run, Inv, StepOf, Chain;
    var actions, behind, ahead := CountsUpTo(COUNT_LIMIT - 1);
    var s := Run(2, actions);
    WrapBreaksCounting(2, actions, ahead);
    RunInv(2, actions);
    LockFreeStackTheorems.StackParts(s);
    HeadListed(s);
    assert LosesBalance(s, ahead);
  }
}
