/** What holds of every run of `SafeQueue`. */
module TwoLockQueueTheorems {
  import opened Options
  import opened Linearizability
  import opened TwoLockQueue

  // ---------- What the callers see ----------

  /** The call or return that an action is, to the callers: a call of an idle thread, or a return. */
  function Seen(s: State, a: Action): seq<Event<Op, Result>> {
    match a
    case Begin(t, op) => if t < |s.threads| && s.threads[t].pc.Idle? then [Invoked(t, op)] else []
    case Step(t, space) => []
    case Finish(t) => if t < |s.threads| && s.threads[t].pc.Done? then [Returned(t, s.threads[t].pc.result)] else []
  }

  function History(n: nat, actions: seq<Action>): seq<Event<Op, Result>> {
    if actions == [] then []
    else
      var most := actions[..|actions| - 1];
      History(n, most) + Seen(Run(n, most), actions[|actions| - 1])
  }

  /** The calls that the threads have not returned from. */
  ghost function OpenCalls(s: State): seq<Option<nat>> {
    seq(|s.threads|, t requires 0 <= t < |s.threads| => if s.threads[t].pc.Idle? then None else Some(s.threads[t].call))
  }

  ghost predicate Tracks(s: State, h: seq<Event<Op, Result>>) {
    Records(s.record, h) && Open(s.record, h, OpenCalls(s))
  }

  lemma StepSeen(s: State, a: Action, h: seq<Event<Op, Result>>)
    requires Inv(s) && Tracks(s, h) && a.Step?
    ensures Tracks(Apply(s, a), h) && |Apply(s, a).threads| == |s.threads|
  {
    hide Inv, Records, Open;
    var s' := Apply(s, a);
    StepKeepsCalls(s, a);
    assert OpenCalls(s') == OpenCalls(s);
    hide Apply;
    SameSeen(s.record, s'.record, h, OpenCalls(s));
  }

  lemma StepKeepsCalls(s: State, a: Action)
    requires a.Step?
    ensures var s' := Apply(s, a);
      && SameCalls(s.record, s'.record) && |s'.threads| == |s.threads|
      && forall t :: 0 <= t < |s.threads| ==>
        s'.threads[t].call == s.threads[t].call && s'.threads[t].pc.Idle? == s.threads[t].pc.Idle?
  {
    hide StepOf, Safe;
    if Enabled(s, a) && Safe(s, a.thread) {
      StepKeepsRecord(s, a.thread, a.space);
      StepKeepsThreads(s, a.thread, a.space);
    }
  }

  lemma StepKeepsRecord(s: State, t: nat, space: int)
    requires Safe(s, t)
    ensures SameCalls(s.record, StepOf(s, t, space).record)
  {
  }

  lemma StepKeepsThreads(s: State, t: nat, space: int)
    requires Safe(s, t) && t < |s.threads| && !s.threads[t].pc.Idle?
    ensures var s' := StepOf(s, t, space);
      && |s'.threads| == |s.threads| && !s'.threads[t].pc.Idle?
      && s'.threads == s.threads[t := s.threads[t].(pc := s'.threads[t].pc)]
  {
    StepStaysBusy(s, t, space);
    var s' := StepOf(s, t, space);
    assert s'.threads == s.threads[t := s.threads[t].(pc := s'.threads[t].pc)];
  }

  lemma StepStaysBusy(s: State, t: nat, space: int)
    requires Safe(s, t) && t < |s.threads| && !s.threads[t].pc.Idle?
    ensures |StepOf(s, t, space).threads| == |s.threads| && !StepOf(s, t, space).threads[t].pc.Idle?
  {
  }

  lemma CallSeenBy(s: State, a: Action, h: seq<Event<Op, Result>>)
    requires Inv(s) && Tracks(s, h) && !a.Step?
    ensures Tracks(Apply(s, a), h + Seen(s, a)) && |Apply(s, a).threads| == |s.threads|
  {
    hide Inv, Records, Open;
    var s', t := Apply(s, a), a.thread;
    if Seen(s, a) == [] {
      assert s' == s && h + Seen(s, a) == h;
    } else if a.Begin? {
      InvokeSeen(s.record, h, OpenCalls(s), t, a.op);
      assert OpenCalls(s') == OpenCalls(s)[t := Some(|s.record.calls|)];
    } else {
      ReturnSeen(s.record, h, OpenCalls(s), t, s.threads[t].pc.result);
      assert OpenCalls(s') == OpenCalls(s)[t := None];
    }
  }

  lemma {:induction false} RunSeen(n: nat, actions: seq<Action>)
    ensures Tracks(Run(n, actions), History(n, actions)) && |Run(n, actions).threads| == n
  {
    hide Inv, Apply, Tracks, Seen;
    if actions == [] {
      InitSeen(n);
    } else {
      var most, a := actions[..|actions| - 1], actions[|actions| - 1];
      RunSeen(n, most);
      RunInv(n, most);
      if a.Step? {
        StepSeen(Run(n, most), a, History(n, most));
        assert Seen(Run(n, most), a) == [] by { StepUnseen(Run(n, most), a); }
        assert History(n, most) + [] == History(n, most);
      } else {
        CallSeenBy(Run(n, most), a, History(n, most));
      }
    }
  }

  lemma StepUnseen(s: State, a: Action)
    requires a.Step?
    ensures Seen(s, a) == []
  {
  }

  lemma InitSeen(n: nat)
    ensures Tracks(Init(n), []) && |Init(n).threads| == n
  {
    EmptySeen<Op, Result>(OpenCalls(Init(n)));
  }

  lemma Begins(s: State, t: nat, op: Op)
    requires t < |s.threads| && s.threads[t].pc.Idle?
    ensures Seen(s, Begin(t, op)) == [Invoked(t, op)]
    ensures var s' := Apply(s, Begin(t, op));
      HasCall(s', t) && s'.threads[t].call == |s.record.calls| && OpOf(s', t) == op
  {
  }

  /** A call that begins on an idle thread runs the operation that it was begun with. */
  lemma BegunCall(n: nat, actions: seq<Action>, t: nat, op: Op)
    requires t < |Run(n, actions).threads| && Run(n, actions).threads[t].pc.Idle?
    ensures var s, s' := Run(n, actions), Run(n, actions + [Begin(t, op)]);
      && History(n, actions + [Begin(t, op)]) == History(n, actions) + [Invoked(t, op)]
      && HasCall(s', t) && s'.threads[t].call == |s.record.calls| && OpOf(s', t) == op
  {
    hide Apply, Seen;
    Begins(Run(n, actions), t, op);
    assert (actions + [Begin(t, op)])[..|actions + [Begin(t, op)]| - 1] == actions;
  }

  // ---------- Linearizability ----------

  /**
   * Every interleaving of pushes, pops and `empty` is linearizable to a first-in first-out queue. In particular a
   * `try_pop` that returns nothing was in the middle of its call at a moment when the queue was empty.
   */
  lemma QueueLinearizable(n: nat, actions: seq<Action>)
    ensures var r := Run(n, actions).record; Records(r, History(n, actions)) && Linearizable(r, [], QueueSpec)
  {
    RunInv(n, actions);
    RunSeen(n, actions);
    ConsistentRespectsRealTime(Run(n, actions).record);
  }

  // ---------- The history of values ----------

  /** The values pushed, in the order of the pushes. */
  function Pushed(log: seq<Entry<Op, Result>>): seq<int> {
    if log == [] then []
    else
      var e := log[|log| - 1];
      Pushed(log[..|log| - 1]) + (if e.op.Push? then [e.op.value] else [])
  }

  /** The values returned by pops, in the order of the pops. */
  function Popped(log: seq<Entry<Op, Result>>): seq<int> {
    if log == [] then []
    else
      var e := log[|log| - 1];
      Popped(log[..|log| - 1]) + (if e.result.Got? then [e.result.value] else [])
  }

  lemma LegalPrefix(log: seq<Entry<Op, Result>>)
    requires Legal(log, [], QueueSpec) && log != []
    ensures Legal(log[..|log| - 1], [], QueueSpec)
    ensures log[|log| - 1].result == QueueSpec(Replay(log[..|log| - 1], [], QueueSpec), log[|log| - 1].op).1
  {
    hide QueueSpec;
    var most := log[..|log| - 1];
    forall i | 0 <= i < |most| ensures most[i].result == QueueSpec(Replay(most[..i], [], QueueSpec), most[i].op).1 {
      assert most[..i] == log[..i];
    }
  }

  /** One call keeps the balance between what went in, what came out and what is left. */
  lemma CallBalance(pushed: seq<int>, popped: seq<int>, q: seq<int>, op: Op)
    requires pushed == popped + q
    ensures var (q', r) := QueueSpec(q, op);
      pushed + (if op.Push? then [op.value] else []) == popped + (if r.Got? then [r.value] else []) + q'
  {
    if !op.Push? && !op.IsEmpty? && q != [] {
      assert q == [q[0]] + q[1..];
    }
  }

  lemma {:induction false} LogBalance(log: seq<Entry<Op, Result>>)
    requires Legal(log, [], QueueSpec)
    ensures Pushed(log) == Popped(log) + Replay(log, [], QueueSpec)
  {
    if log != [] {
      hide Legal, QueueSpec;
      var most, e := log[..|log| - 1], log[|log| - 1];
      LegalPrefix(log);
      LogBalance(most);
      CallBalance(Pushed(most), Popped(most), Replay(most, [], QueueSpec), e.op);
    }
  }

  /**
   * The pushed values are the popped ones, in the same order, followed by the data of the nodes from the head up to
   * the dummy: nothing is lost, nothing comes twice or out of order.
   */
  lemma PushedThenQueued(n: nat, actions: seq<Action>)
    ensures var s := Run(n, actions);
      && |s.nodes| > 0 && s.nodes[|s.nodes| - 1] == s.tail
      && |Contents(s)| == |s.nodes| - 1
      && (forall i :: 0 <= i < |s.nodes| - 1 ==>
            s.nodes[i] in s.heap && s.heap[s.nodes[i]].data == Some(Contents(s)[i])
            && s.heap[s.nodes[i]].next == s.nodes[i + 1])
      && (s.headOwner.None? ==> s.head == s.nodes[0])
      && Pushed(s.record.log) == Popped(s.record.log) + Contents(s)
  {
    var s := Run(n, actions);
    RunInv(n, actions);
    LogBalance(s.record.log);
    hide ThreadsOk, Consistent, Legal;
    forall i | 0 <= i < |s.nodes| - 1 ensures s.nodes[i] in s.heap && s.heap[s.nodes[i]].next == s.nodes[i + 1] {
      assert Follows(s.heap, s.nodes, i);
    }
  }

  // ---------- No two threads at one node ----------

  lemma TouchesWhere(s: State, t: nat)
    requires Inv(s) && t < |s.threads|
    ensures Touches(s, s.threads[t].pc) <= s.heap.Keys
    ensures forall p :: p in Touches(s, s.threads[t].pc) ==>
      || (p == s.tail && s.tailOwner == Some(t))
      || (|s.nodes| > 1 && p == s.nodes[0] && s.headOwner == Some(t))
      || (p in Private(s.threads[t].pc) && p !in s.nodes)
  {
    hide RecordOk, CallMatches, ListOk;
    assert ThreadOk(s, t);
    InvSafe(s, t);
  }

  /**
   * At no time are two threads about to access a field of the same node, be it to read, to write or to free it; and
   * every node accessed is allocated.
   */
  lemma NoSharedTouch(n: nat, actions: seq<Action>, t: nat, u: nat)
    requires var s := Run(n, actions); t < |s.threads| && u < |s.threads| && t != u
    ensures var s := Run(n, actions);
      && Touches(s, s.threads[t].pc) <= s.heap.Keys
      && Touches(s, s.threads[t].pc) !! Touches(s, s.threads[u].pc)
  {
    var s := Run(n, actions);
    RunInv(n, actions);
    TouchesWhere(s, t);
    TouchesWhere(s, u);
    TailIsLast(s);
    assert Apart(s.threads[t], s.threads[u]);
    FirstInList(s);
    hide Inv, Touches, Private;
  }

  // ---------- Returning ----------

  /** A blocking pop returns only with a value. */
  lemma BlockingPopReturnsValue(n: nat, actions: seq<Action>, t: nat)
    requires var s := Run(n, actions); t < |s.threads| && s.threads[t].pc.Done?
    ensures var s := Run(n, actions); HasCall(s, t) && (Waits(OpOf(s, t)) ==> s.threads[t].pc.result.Got?)
  {
    var s := Run(n, actions);
    RunInv(n, actions);
    hide ListOk, LocksOk, RecordOk, CallMatches, Apart, Settled;
    assert ThreadOk(s, t);
  }

  /** The thread can make a step and is not asleep on the condition variable. */
  ghost predicate Awake(s: State, t: nat) {
    t < |s.threads| && !s.threads[t].pc.Idle? && !s.threads[t].pc.Asleep? && !Blocked(s, s.threads[t].pc)
  }

  /** The two mutexes never lock each other out: the head mutex is always taken first. */
  lemma MutexesMakeProgress(n: nat, actions: seq<Action>, t: nat) returns (u: nat)
    requires var s := Run(n, actions); t < |s.threads| && !s.threads[t].pc.Idle? && !s.threads[t].pc.Asleep?
    ensures Awake(Run(n, actions), u)
  {
    var s := Run(n, actions);
    RunInv(n, actions);
    hide RecordOk, ListOk, LocalsOk, CallMatches, Apart;
    u := t;
    if s.threads[u].pc.HeadLock? && s.headOwner.Some? {
      u := s.headOwner.value;
      assert ThreadOk(s, u);
    }
    if Blocked(s, s.threads[u].pc) {
      u := s.tailOwner.value;
      assert ThreadOk(s, u);
    }
  }
}
