/**
 * What a call of `SafeQueue` does when nobody interferes, when a blocking pop goes to sleep, and what becomes of the
 * nodes.
 */
module TwoLockQueueProgress {
  import opened Options
  import opened Linearizability
  import opened TwoLockQueue

  // ---------- A call left to run alone ----------

  const MOST_STEPS: nat := 15

  /** `k` steps of `t` alone. */
  function Solo(s: State, t: nat, space: int, k: nat): State {
    if k == 0 then s else Apply(Solo(s, t, space, k - 1), Step(t, space))
  }

  predicate Active(s: State, t: nat) {
    HasCall(s, t) && !s.threads[t].pc.Idle?
  }

  predicate Finished(s: State, t: nat) {
    t < |s.threads| && s.threads[t].pc.Done?
  }

  /** No other thread has a mutex. */
  predicate MutexesFree(s: State, t: nat) {
    && (s.headOwner.None? || s.headOwner == Some(t))
    && (s.tailOwner.None? || s.tailOwner == Some(t))
  }

  /** The call has not yet begun to take a value off. */
  predicate Looking(pc: Pc) {
    pc.HeadLock? || pc.TailLock? || pc.TailRead? || pc.TailUnlock? || pc.Compare? || pc.WaitUnlock? || pc.Asleep?
  }

  /** What the rest of the call needs: an address if it still has to allocate, a value if it is to wait for one. */
  predicate HasWhatItNeeds(s: State, t: nat, space: int)
    requires HasCall(s, t)
  {
    && (s.threads[t].pc.PushAlloc? ==> space !in s.heap && space != NULL)
    && (Waits(OpOf(s, t)) && Looking(s.threads[t].pc) ==> |s.nodes| > 1)
  }

  /** A blocking pop that has read an end which was the head then, and will sleep once before it looks again. */
  predicate LooksAgain(s: State, t: nat, end: int)
    requires HasCall(s, t)
  {
    Waits(OpOf(s, t)) && s.head == end
  }

  /** A bound on the steps that `t` still needs when it runs alone. */
  function Rank(s: State, t: nat): (r: nat)
    requires HasCall(s, t)
    ensures r <= MOST_STEPS
  {
    match s.threads[t].pc
    case Idle => 0
    case Done(_) => 0
    case PushAlloc => 6
    case PushLock(_) => 5
    case PushData(_) => 4
    case PushNext(_) => 3
    case PushTail(_) => 2
    case PushUnlock => 1
    case TailUnlock(end) => if LooksAgain(s, t, end) then 15 else 8
    case Compare(end) => if LooksAgain(s, t, end) then 14 else 7
    case WaitUnlock => 13
    case Asleep => 12
    case HeadLock => 11
    case TailLock => 10
    case TailRead => 9
    case ReadData => 6
    case MoveHead(_) => 5
    case SetHead(_, _) => 4
    case HeadUnlock(_, _) => 3
    case ReadOld(_) => 2
    case Free(_, _) => 1
    case Release(_) => 1
  }

  ghost predicate Alive(s: State, t: nat, space: int) {
    Inv(s) && Active(s, t) && MutexesFree(s, t) && HasWhatItNeeds(s, t, space)
  }

  /** A step of the call: it is nearer its end, and nothing but its own effect is recorded. */
  ghost predicate Nearer(s: State, s': State, t: nat, space: int)
    requires HasCall(s, t)
  {
    && Active(s', t) && MutexesFree(s', t) && HasWhatItNeeds(s', t, space) && Rank(s', t) < Rank(s, t)
    && s'.threads[t].call == s.threads[t].call
  }

  lemma NotBlocked(s: State, t: nat, space: int)
    requires Alive(s, t, space) && !Finished(s, t)
    ensures Safe(s, t) && Apply(s, Step(t, space)) == StepOf(s, t, space)
  {
    hide Inv, ThreadsOk, RecordOk, CallMatches, ListOk;
    Facts(s, t);
  }

  /** The list that the head mutex protects, for those that look at it. */
  lemma LookFacts(s: State, t: nat)
    requires Inv(s) && Active(s, t)
    ensures Safe(s, t) && LocalsOk(s, s.threads[t].pc, OpOf(s, t))
    ensures |s.nodes| > 0 && s.nodes[|s.nodes| - 1] == s.tail
    ensures |s.nodes| > 1 ==> s.nodes[0] != s.tail
    ensures HoldsHead(s.threads[t].pc) <==> s.headOwner == Some(t)
    ensures HoldsTail(s.threads[t].pc) <==> s.tailOwner == Some(t)
  {
    hide ThreadsOk, RecordOk, CallMatches;
    Facts(s, t);
  }

  lemma PushNearer(s: State, t: nat, space: int)
    requires Active(s, t) && Safe(s, t) && MutexesFree(s, t) && HasWhatItNeeds(s, t, space)
    requires OpOf(s, t).Push?
    requires match s.threads[t].pc
      case PushAlloc => true case PushLock(_) => true case PushData(_) => true case PushNext(_) => true
      case PushTail(_) => true case PushUnlock => true case _ => false
    ensures Nearer(s, StepOf(s, t, space), t, space)
  {
  }

  lemma LookNearer(s: State, t: nat, space: int)
    requires Active(s, t) && Safe(s, t) && MutexesFree(s, t) && HasWhatItNeeds(s, t, space)
    requires Looking(s.threads[t].pc)
    requires |s.nodes| > 1 && s.threads[t].pc.TailRead? ==> s.head != s.tail
    ensures Nearer(s, StepOf(s, t, space), t, space)
  {
  }

  lemma TakeNearer(s: State, t: nat, space: int)
    requires Active(s, t) && Safe(s, t) && MutexesFree(s, t) && HasWhatItNeeds(s, t, space)
    requires match s.threads[t].pc
      case ReadData => true case MoveHead(_) => true case SetHead(_, _) => true case HeadUnlock(_, _) => true
      case ReadOld(_) => true case Free(_, _) => true case Release(_) => true case _ => false
    ensures Nearer(s, StepOf(s, t, space), t, space)
  {
  }

  lemma RankFalls(s: State, t: nat, space: int)
    requires Alive(s, t, space) && !Finished(s, t)
    ensures Nearer(s, Apply(s, Step(t, space)), t, space)
  {
    NotBlocked(s, t, space);
    LookFacts(s, t);
    hide Inv, Apply, Safe, StepOf, Nearer, MutexesFree, HasWhatItNeeds;
    if Looking(s.threads[t].pc) {
      LookNearer(s, t, space);
    } else if OpOf(s, t).Push? {
      PushNearer(s, t, space);
    } else {
      TakeNearer(s, t, space);
    }
  }

  lemma StepEffect(s: State, t: nat, space: int)
    requires Inv(s) && Active(s, t)
    ensures OnlyEffect(s.record, Apply(s, Step(t, space)).record, s.threads[t].call)
  {
    hide Inv, ThreadsOk, RecordOk, ListOk, LocksOk;
    Facts(s, t);
  }

  lemma FinishedStays(s: State, t: nat, space: int)
    requires Finished(s, t)
    ensures Apply(s, Step(t, space)) == s
  {
  }

  lemma {:induction false} RunsToEnd(s: State, t: nat, space: int, k: nat)
    requires Alive(s, t, space)
    ensures var s' := Solo(s, t, space, k);
      && Alive(s', t, space) && (Finished(s', t) || Rank(s', t) + k <= Rank(s, t))
      && s'.threads[t].call == s.threads[t].call
      && (Alone(s.record, s.record, s.threads[t].call) ==> Alone(s.record, s'.record, s.threads[t].call))
  {
    hide Inv, Apply, Rank, HasWhatItNeeds, MutexesFree, Alone, OnlyEffect;
    if k > 0 {
      RunsToEnd(s, t, space, k - 1);
      var p := Solo(s, t, space, k - 1);
      ApplyInv(p, Step(t, space));
      if Finished(p, t) {
        FinishedStays(p, t, space);
      } else {
        RankFalls(p, t, space);
        StepEffect(p, t, space);
        if Alone(s.record, s.record, s.threads[t].call) {
          AloneStep(s.record, p.record, Apply(p, Step(t, space)).record, s.threads[t].call);
        }
      }
    }
  }

  lemma RankZero(s: State, t: nat)
    requires Active(s, t) && Rank(s, t) == 0
    ensures Finished(s, t)
  {
  }

  /** The queue holds a value exactly when a node lies before the dummy. */
  lemma ValuesAndNodes(s: State)
    requires Inv(s)
    ensures |Contents(s)| == |s.nodes| - 1
  {
    hide Consistent, Legal, ThreadsOk;
  }

  /**
   * From any reachable state in which no other thread has a mutex, a call left to run alone is back after at most
   * fifteen steps: a push if it gets an unused address, a blocking pop if the queue is not empty.
   */
  lemma SoloReturns(n: nat, actions: seq<Action>, t: nat, space: int)
    requires Active(Run(n, actions), t) && MutexesFree(Run(n, actions), t)
    requires space !in Run(n, actions).heap && space != NULL
    requires Waits(OpOf(Run(n, actions), t)) ==> Contents(Run(n, actions)) != []
    ensures Finished(Solo(Run(n, actions), t, space, MOST_STEPS), t)
  {
    hide Inv, MutexesFree, Contents;
    var s := Run(n, actions);
    RunInv(n, actions);
    ValuesAndNodes(s);
    RunsToEnd(s, t, space, MOST_STEPS);
    RankZero(Solo(s, t, space, MOST_STEPS), t);
  }

  /** A call that has taken effect is bound to the result in the log, and a finished one has. */
  lemma FinishedResult(s: State, t: nat)
    requires Inv(s) && Active(s, t) && Finished(s, t)
    ensures var call := s.record.calls[s.threads[t].call];
      && call.place.Some? && call.place.value < |s.record.log|
      && s.record.log[call.place.value].result == s.threads[t].pc.result
    ensures Legal(s.record.log, [], QueueSpec)
  {
    hide ThreadsOk, ListOk, LocksOk, Legal, Consistent;
    Facts(s, t);
  }

  /** If it had not taken effect before, it has then done its operation on the queue as it was. */
  lemma SoloPerforms(n: nat, actions: seq<Action>, t: nat, space: int)
    requires var s := Run(n, actions);
      Active(s, t) && MutexesFree(s, t) && s.record.calls[s.threads[t].call].place.None?
    requires space !in Run(n, actions).heap && space != NULL
    requires Waits(OpOf(Run(n, actions), t)) ==> Contents(Run(n, actions)) != []
    ensures var s, s' := Run(n, actions), Solo(Run(n, actions), t, space, MOST_STEPS);
      var (after, result) := QueueSpec(Contents(s), OpOf(s, t));
      Finished(s', t) && s'.threads[t].pc.result == result && Contents(s') == after
  {
    hide Inv, Rank, MutexesFree, Apply, QueueSpec;
    var s, s' := Run(n, actions), Solo(Run(n, actions), t, space, MOST_STEPS);
    RunInv(n, actions);
    SoloReturns(n, actions, t, space);
    ValuesAndNodes(s);
    RunsToEnd(s, t, space, MOST_STEPS);
    FinishedResult(s', t);
    AloneResult(s.record, s'.record, s.threads[t].call, [], QueueSpec);
  }

  // ---------- When a blocking pop goes to sleep ----------

  predicate Sleepy(pc: Pc) {
    pc.WaitUnlock? || pc.Asleep?
  }

  /** The `k`-th action was the last read of `tail_` by the call that `t` is still making. */
  ghost predicate LastLook(n: nat, actions: seq<Action>, t: nat, k: nat) {
    && k < |actions| && actions[k].Step? && actions[k].thread == t
    && t < |Run(n, actions[..k]).threads| && t < |Run(n, actions).threads|
    && Run(n, actions[..k]).threads[t] == Run(n, actions).threads[t].(pc := TailRead)
    && forall j :: k < j <= |actions| ==>
      t < |Run(n, actions[..j]).threads| && !Run(n, actions[..j]).threads[t].pc.TailRead?
  }

  /** What the last look saw. */
  ghost predicate Saw(s: State, look: State, pc: Pc) {
    match pc
    case TailUnlock(end) => look.tail == end && look.head == s.head
    case Compare(end) => look.tail == end && look.head == s.head
    case WaitUnlock => Contents(look) == []
    case Asleep => Contents(look) == []
    case _ => false
  }

  lemma OtherStep(s: State, a: Action, t: nat)
    requires Inv(s) && t < |s.threads| && !s.threads[t].pc.Idle? && !s.threads[t].pc.Done?
    requires a.thread != t || !a.Step?
    ensures var s' := Apply(s, a);
      && t < |s'.threads| && s'.threads[t] == s.threads[t]
      && (s.headOwner == Some(t) ==> s'.head == s.head)
  {
    hide Inv, RecordOk, ListOk, CallMatches;
    if Enabled(s, a) && a.Step? { Facts(s, a.thread); }
  }

  lemma OwnLook(s: State, t: nat, a: Action)
    requires Inv(s) && t < |s.threads| && a.Step? && a.thread == t
    requires AfterLook(s.threads[t].pc) || s.threads[t].pc.TailRead?
    ensures t < |Apply(s, a).threads| && Apply(s, a).head == s.head
    ensures Apply(s, a).threads[t].call == s.threads[t].call
    ensures var pc' := Apply(s, a).threads[t].pc;
      match s.threads[t].pc
      case TailRead => pc' == TailRead || pc' == TailUnlock(s.tail)
      case TailUnlock(end) => pc' == TailUnlock(end) || pc' == Compare(end)
      case Compare(end) => pc' == Compare(end) || (Sleepy(pc') && s.head == end) || !AfterLook(pc')
      case WaitUnlock => Sleepy(pc')
      case _ => Sleepy(pc') || pc'.HeadLock?
  {
    hide Inv, RecordOk, ListOk, CallMatches;
    Facts(s, t);
  }

  /** The state at a tail read that found the queue as `Saw` says. */
  lemma EmptyLook(s: State, t: nat)
    requires Inv(s) && t < |s.threads| && s.threads[t].pc.TailRead?
    ensures s.head == s.tail <==> Contents(s) == []
  {
    hide ThreadsOk, CallMatches, Consistent, Legal;
    Facts(s, t);
  }

  lemma SameLook(n: nat, actions: seq<Action>, t: nat, k: nat)
    requires actions != [] && LastLook(n, actions[..|actions| - 1], t, k)
    requires var s, s' := Run(n, actions[..|actions| - 1]), Run(n, actions);
      && t < |s.threads| && t < |s'.threads| && s'.threads[t].call == s.threads[t].call
      && !s'.threads[t].pc.TailRead?
    ensures LastLook(n, actions, t, k)
    ensures Run(n, actions[..k]) == Run(n, actions[..|actions| - 1][..k])
  {
    hide Run;
    var most := actions[..|actions| - 1];
    assert most[..k] == actions[..k];
    forall j | k < j <= |actions|
      ensures t < |Run(n, actions[..j]).threads| && !Run(n, actions[..j]).threads[t].pc.TailRead?
    {
      if j < |actions| { assert most[..j] == actions[..j]; } else { assert actions[..j] == actions; }
    }
  }

  lemma FreshLook(n: nat, actions: seq<Action>, t: nat)
    requires actions != [] && actions[|actions| - 1].Step? && actions[|actions| - 1].thread == t
    requires var s, s' := Run(n, actions[..|actions| - 1]), Run(n, actions);
      && t < |s.threads| && t < |s'.threads| && s'.threads[t].call == s.threads[t].call
      && s.threads[t].pc.TailRead? && !s'.threads[t].pc.TailRead?
    ensures LastLook(n, actions, t, |actions| - 1)
  {
    hide Run;
    assert actions[..|actions|] == actions;
  }

  lemma InitIdle(n: nat, t: nat)
    requires t < |Init(n).threads|
    ensures Init(n).threads[t].pc.Idle?
  {
  }

  predicate AfterLook(pc: Pc) {
    pc.TailUnlock? || pc.Compare? || Sleepy(pc)
  }

  /** How `t` came to where it is behind its look. */
  lemma CameFrom(s: State, a: Action, t: nat)
    requires t < |Apply(s, a).threads| && AfterLook(Apply(s, a).threads[t].pc)
    ensures t < |s.threads| && (AfterLook(s.threads[t].pc) || s.threads[t].pc.TailRead?)
    ensures !AfterLook(s.threads[t].pc) ==> a.Step? && a.thread == t
  {
  }

  /** The last look of a call that has looked, and what it saw. */
  lemma {:induction false} LookBehind(n: nat, actions: seq<Action>, t: nat) returns (k: nat)
    requires t < |Run(n, actions).threads| && AfterLook(Run(n, actions).threads[t].pc)
    ensures LastLook(n, actions, t, k) && Saw(Run(n, actions), Run(n, actions[..k]), Run(n, actions).threads[t].pc)
    decreases |actions|
  {
    hide Inv, Apply, Contents, LastLook;
    k := 0;
    if actions == [] {
      InitIdle(n, t);
    } else {
      var most, a := actions[..|actions| - 1], actions[|actions| - 1];
      var s, s' := Run(n, most), Run(n, actions);
      RunInv(n, most);
      CameFrom(s, a, t);
      if AfterLook(s.threads[t].pc) {
        k := LookBehind(n, most, t);
        LookInv(n, most, t, k);
        StepSaw(s, a, t, Run(n, most[..k]));
        SameLook(n, actions, t, k);
      } else {
        k := |actions| - 1;
        OwnLook(s, t, a);
        FreshLook(n, actions, t);
      }
    }
  }

  lemma LookInv(n: nat, actions: seq<Action>, t: nat, k: nat)
    requires LastLook(n, actions, t, k)
    ensures k <= |actions|
    ensures var look := Run(n, actions[..k]);
      t < |look.threads| && look.threads[t].pc.TailRead? && (look.head == look.tail <==> Contents(look) == [])
  {
    hide Inv;
    RunInv(n, actions[..k]);
    EmptyLook(Run(n, actions[..k]), t);
  }

  lemma StepSaw(s: State, a: Action, t: nat, look: State)
    requires Inv(s) && t < |s.threads| && AfterLook(s.threads[t].pc) && Saw(s, look, s.threads[t].pc)
    requires look.head == look.tail <==> Contents(look) == []
    requires t < |Apply(s, a).threads| && AfterLook(Apply(s, a).threads[t].pc)
    ensures Apply(s, a).threads[t].call == s.threads[t].call
    ensures Saw(Apply(s, a), look, Apply(s, a).threads[t].pc)
  {
    hide Inv, Apply, Contents;
    if a.Step? && a.thread == t {
      OwnLook(s, t, a);
    } else {
      if !Sleepy(s.threads[t].pc) { LooksUnderMutex(s, t); }
      OtherStep(s, a, t);
    }
  }

  lemma LooksUnderMutex(s: State, t: nat)
    requires Inv(s) && t < |s.threads| && (s.threads[t].pc.TailUnlock? || s.threads[t].pc.Compare?)
    ensures s.headOwner == Some(t)
  {
    hide ListOk, RecordOk, CallMatches;
    assert ThreadOk(s, t);
  }

  /** In every run a blocking pop goes to sleep only if the queue was empty when it last looked, during that call. */
  lemma SleepsOnlyOnEmpty(n: nat, actions: seq<Action>, t: nat) returns (k: nat)
    requires t < |Run(n, actions).threads| && Sleepy(Run(n, actions).threads[t].pc)
    ensures LastLook(n, actions, t, k) && Contents(Run(n, actions[..k])) == []
  {
    k := LookBehind(n, actions, t);
  }

  // ---------- What becomes of the nodes ----------

  /** Every node is in the queue, or one thread still has to append or to free it. */
  ghost predicate NoGarbage(s: State) {
    forall p :: p in s.heap ==> p in s.nodes || InHand(s, p)
  }

  ghost predicate InHand(s: State, p: int) {
    exists t :: 0 <= t < |s.threads| && p in Private(s.threads[t].pc)
  }

  /** What a step of `t` does to the nodes. */
  lemma StepHand(s: State, t: nat, space: int, p: int)
    requires Safe(s, t) && !s.threads[t].pc.Idle? && p in StepOf(s, t, space).heap
    requires LocalsOk(s, s.threads[t].pc, OpOf(s, t))
    ensures var s' := StepOf(s, t, space);
      && |s'.threads| == |s.threads| && s'.threads == s.threads[t := s'.threads[t]]
      && (p !in s.heap || p in s.nodes || p in Private(s.threads[t].pc) ==>
            p in s'.nodes || p in Private(s'.threads[t].pc))
  {
    hide New, Taken;
  }

  lemma StepNoGarbage(s: State, a: Action)
    requires Inv(s) && NoGarbage(s)
    ensures NoGarbage(Apply(s, a))
  {
    hide Inv, ThreadsOk, ListOk, RecordOk, CallMatches, LocalsOk, StepOf;
    var s', t := Apply(s, a), a.thread;
    if Enabled(s, a) {
      if a.Step? { Facts(s, t); }
      forall p | p in s'.heap && p !in s'.nodes ensures InHand(s', p) {
        if a.Step? { StepHand(s, t, a.space, p); }
        if p in s.heap && p !in s.nodes && (!a.Step? || p !in Private(s.threads[t].pc)) {
          assert InHand(s, p);
          var u :| 0 <= u < |s.threads| && p in Private(s.threads[u].pc);
          assert p in Private(s'.threads[u].pc);
        }
      }
    }
  }

  lemma {:induction false} RunNoGarbage(n: nat, actions: seq<Action>)
    ensures NoGarbage(Run(n, actions))
    decreases |actions|
  {
    hide Inv, Apply;
    if actions != [] {
      var most := actions[..|actions| - 1];
      RunNoGarbage(n, most);
      RunInv(n, most);
      StepNoGarbage(Run(n, most), actions[|actions| - 1]);
    }
  }

  /** With no call running, the nodes that exist are those of the queue: every popped node has been freed. */
  lemma QuiescentQueueHoldsNoGarbage(n: nat, actions: seq<Action>)
    requires forall t :: 0 <= t < |Run(n, actions).threads| ==> Run(n, actions).threads[t].pc.Idle?
    ensures var s := Run(n, actions);
      (forall p :: p in s.heap <==> p in s.nodes) && |s.heap| == |Contents(s)| + 1
  {
    var s := Run(n, actions);
    RunInv(n, actions);
    RunNoGarbage(n, actions);
    forall p | p in s.heap ensures p in s.nodes { assert !InHand(s, p); }
    ValuesAndNodes(s);
    NodesDistinct(s);
    CountOfDistinct(s.nodes);
    hide Inv;
    assert s.heap.Keys == Elements(s.nodes);
    assert |s.heap| == |s.heap.Keys|;
  }

  lemma NodesDistinct(s: State)
    requires Inv(s)
    ensures forall i, j :: 0 <= i < j < |s.nodes| ==> s.nodes[i] != s.nodes[j]
    ensures forall p :: p in s.nodes ==> p in s.heap
  {
    hide ThreadsOk, RecordOk;
  }

  function Elements(xs: seq<int>): set<int> {
    set x | x in xs
  }

  lemma {:induction false} CountOfDistinct(xs: seq<int>)
    requires forall i, j :: 0 <= i < j < |xs| ==> xs[i] != xs[j]
    ensures |Elements(xs)| == |xs|
  {
    if xs != [] {
      var last, most := xs[|xs| - 1], xs[..|xs| - 1];
      CountOfDistinct(most);
      assert xs == most + [last];
      assert Elements(xs) == Elements(most) + {last};
      assert last !in Elements(most);
    }
  }
}
