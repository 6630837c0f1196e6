/**
 * `SafeQueue`: a linked queue with a dummy node at its end, one mutex for the head and one for the tail.
 * Every lock, unlock and access to `head_`, `tail_` or a field of a node is one step. Waiting on the condition
 * variable releases the head mutex and may end at any time.
 *
 * `nodes` and `record` are bookkeeping: no branch of a step reads them. `nodes` lists the nodes from the head to
 * the dummy.
 */
module TwoLockQueue {
  import opened Options
  import opened Linearizability

  const NULL: int := -1

  datatype Node = Node(data: Option<int>, next: int)

  datatype Op = Push(value: int) | TryPop | TryPopInto | WaitPop | WaitPopInto | IsEmpty

  datatype Result = Ack | Got(value: int) | Nothing | Empty(empty: bool)

  datatype Pc =
    | Idle
    // push
    | PushAlloc
    | PushLock(node: int)
    | PushData(node: int)
    | PushNext(node: int)
    | PushTail(node: int)
    | PushUnlock
    // the pop family, and empty
    | HeadLock
    | TailLock
    | TailRead
    | TailUnlock(end: int)
    | Compare(end: int)
    | WaitUnlock
    | Asleep
    | ReadData
    | MoveHead(taken: Option<int>)
    | SetHead(node: int, taken: Option<int>)
    | HeadUnlock(node: int, taken: Option<int>)
    | ReadOld(node: int)
    | Free(node: int, value: int)
    | Release(result: Result)
    | Done(result: Result)

  datatype Thread = Thread(call: nat, pc: Pc)

  datatype State = State(
    heap: map<int, Node>,
    head: int,
    tail: int,
    headOwner: Option<nat>,
    tailOwner: Option<nat>,
    nodes: seq<int>,
    threads: seq<Thread>,
    record: Record<Op, Result>)

  /** `space` is the address that an allocation would get. */
  datatype Action = Begin(thread: nat, op: Op) | Step(thread: nat, space: int) | Finish(thread: nat)

  /**
   * The first-in first-out queue that the calls are measured against. A blocking pop takes effect only on a queue
   * with values.
   */
  function QueueSpec(q: seq<int>, op: Op): (seq<int>, Result) {
    match op
    case Push(v) => (q + [v], Ack)
    case IsEmpty => (q, Empty(q == []))
    case _ => if q == [] then (q, Nothing) else (q[1..], Got(q[0]))
  }

  // ---------- Steps ----------

  predicate HasCall(s: State, t: nat) {
    t < |s.threads| && s.threads[t].call < |s.record.calls|
  }

  function OpOf(s: State, t: nat): Op
    requires HasCall(s, t)
  {
    s.record.calls[s.threads[t].call].op
  }

  function Goto(s: State, t: nat, pc: Pc): State
    requires t < |s.threads|
  {
    s.(threads := s.threads[t := s.threads[t].(pc := pc)])
  }

  /** The call of `t` takes effect with `result`; its thread goes on at `pc`. */
  function EffectAt(s: State, t: nat, result: Result, pc: Pc): State
    requires HasCall(s, t)
  {
    Goto(s, t, pc).(record := TakeEffect(s.record, s.threads[t].call, result))
  }

  /** The node whose fields the next step of a thread reads, writes or frees. */
  function Touches(s: State, pc: Pc): set<int> {
    match pc
    case PushData(node) => {s.tail}
    case PushNext(node) => {s.tail}
    case ReadData => {s.head}
    case SetHead(node, taken) => {node}
    case ReadOld(node) => {node}
    case Free(node, value) => {node}
    case _ => {}
  }

  predicate Safe(s: State, t: nat) {
    && HasCall(s, t) && Touches(s, s.threads[t].pc) <= s.heap.Keys
    && var pc := s.threads[t].pc;
       && (pc.PushData? ==> OpOf(s, t).Push?)
       && (pc.ReadData? ==> s.head in s.heap && s.heap[s.head].data.Some?)
       && (pc.SetHead? ==> s.heap[pc.node].data.Some?)
       && (pc.ReadOld? ==> s.heap[pc.node].data.Some?)
       && (pc.HeadUnlock? ==> pc.taken.Some? || !Into(OpOf(s, t)))
  }

  predicate Into(op: Op) {
    op.TryPopInto? || op.WaitPopInto?
  }

  predicate Waits(op: Op) {
    op.WaitPop? || op.WaitPopInto?
  }

  predicate Blocked(s: State, pc: Pc) {
    match pc
    case PushLock(node) => s.tailOwner.Some?
    case HeadLock => s.headOwner.Some?
    case TailLock => s.tailOwner.Some?
    case _ => false
  }

  function StepOf(s: State, t: nat, space: int): State
    requires Safe(s, t)
  {
    var op := OpOf(s, t);
    match s.threads[t].pc
    case Idle => s
    case PushAlloc => Goto(s, t, PushLock(space)).(heap := s.heap[space := Node(None, NULL)])
    case PushLock(node) => Goto(s, t, PushData(node)).(tailOwner := Some(t))
    case PushData(node) =>
      Goto(s, t, PushNext(node)).(heap := s.heap[s.tail := s.heap[s.tail].(data := Some(op.value))])
    case PushNext(node) =>
      Goto(s, t, PushTail(node)).(heap := s.heap[s.tail := s.heap[s.tail].(next := node)])
    case PushTail(node) => EffectAt(s, t, Ack, PushUnlock).(tail := node, nodes := s.nodes + [node])
    case PushUnlock => Goto(s, t, Done(Ack)).(tailOwner := None)
    case HeadLock => Goto(s, t, TailLock).(headOwner := Some(t))
    case TailLock => Goto(s, t, TailRead).(tailOwner := Some(t))
    case TailRead =>
      if op.IsEmpty? then EffectAt(s, t, Empty(s.head == s.tail), TailUnlock(s.tail))
      else if s.head == s.tail && !Waits(op) then EffectAt(s, t, Nothing, TailUnlock(s.tail))
      else Goto(s, t, TailUnlock(s.tail))
    case TailUnlock(end) => Goto(s, t, Compare(end)).(tailOwner := None)
    case Compare(end) =>
      if op.IsEmpty? then Goto(s, t, Release(Empty(s.head == end)))
      else if s.head == end then Goto(s, t, if Waits(op) then WaitUnlock else Release(Nothing))
      else Goto(s, t, if Into(op) then ReadData else MoveHead(None))
    case WaitUnlock => Goto(s, t, Asleep).(headOwner := None)
    case Asleep => Goto(s, t, HeadLock)
    case ReadData => Goto(s, t, MoveHead(s.heap[s.head].data))
    case MoveHead(taken) => Goto(s, t, SetHead(s.head, taken)).(head := NULL)
    case SetHead(node, taken) =>
      EffectAt(s, t, Got(s.heap[node].data.value), HeadUnlock(node, taken)).(
        head := s.heap[node].next,
        heap := s.heap[node := s.heap[node].(next := NULL)],
        nodes := s.nodes[if |s.nodes| > 0 then 1 else 0..])
    case HeadUnlock(node, taken) =>
      Goto(s, t, if Into(op) then Free(node, taken.value) else ReadOld(node)).(headOwner := None)
    case ReadOld(node) => Goto(s, t, Free(node, s.heap[node].data.value))
    case Free(node, value) => Goto(s, t, Done(Got(value))).(heap := s.heap - {node})
    case Release(result) => Goto(s, t, Done(result)).(headOwner := None)
    case Done(result) => s
  }

  predicate Enabled(s: State, a: Action) {
    a.thread < |s.threads| &&
    var pc := s.threads[a.thread].pc;
    match a
    case Begin(t, op) => pc.Idle?
    case Step(t, space) =>
      !pc.Idle? && !pc.Done? && !Blocked(s, pc) && (pc.PushAlloc? ==> space !in s.heap && space != NULL)
    case Finish(t) => pc.Done?
  }

  /**
   * A step that would touch a node which is not allocated is not made; `InvSafe` and `RunInv` show that there is
   * none.
   */
  function Apply(s: State, a: Action): State {
    if !Enabled(s, a) || (!a.Begin? && !HasCall(s, a.thread)) then s else
    match a
    case Begin(t, op) =>
      s.(threads := s.threads[t := Thread(|s.record.calls|, if op.Push? then PushAlloc else HeadLock)],
         record := Invoke(s.record, op))
    case Step(t, space) => if Safe(s, t) then StepOf(s, t, space) else s
    case Finish(t) =>
      Goto(s, t, Idle).(record := Return(s.record, s.threads[t].call, s.threads[t].pc.result))
  }

  function Init(n: nat): State {
    State(map[0 := Node(None, NULL)], 0, 0, None, None, [0], seq(n, _ => Thread(0, Idle)), Record(0, [], []))
  }

  // ---------- The list ----------

  /** Node `i` is followed by node `i + 1`. */
  ghost predicate Follows(heap: map<int, Node>, nodes: seq<int>, i: nat)
    requires i < |nodes| - 1
  {
    nodes[i] in heap && heap[nodes[i]].next == nodes[i + 1] && heap[nodes[i]].data.Some?
  }

  ghost predicate ListOk(s: State) {
    && |s.nodes| > 0 && s.nodes[|s.nodes| - 1] == s.tail && NULL !in s.heap
    && (forall i :: 0 <= i < |s.nodes| ==> s.nodes[i] in s.heap)
    && (forall i, j :: 0 <= i < j < |s.nodes| ==> s.nodes[i] != s.nodes[j])
    && (forall i: nat :: i < |s.nodes| - 1 ==> Follows(s.heap, s.nodes, i))
  }

  ghost function Contents(s: State): seq<int> {
    Replay(s.record.log, [], QueueSpec)
  }

  /** The calls that have taken effect explain the data in the nodes before the dummy. */
  ghost predicate DataOk(s: State, q: seq<int>) {
    && |q| == |s.nodes| - 1
    && (forall i :: 0 <= i < |q| ==> s.nodes[i] in s.heap && s.heap[s.nodes[i]].data == Some(q[i]))
  }

  // ---------- The threads ----------

  ghost predicate HoldsHead(pc: Pc) {
    pc.TailLock? || pc.TailRead? || pc.TailUnlock? || pc.Compare? || pc.WaitUnlock? || pc.ReadData? || pc.MoveHead?
    || pc.SetHead? || pc.HeadUnlock? || pc.Release?
  }

  ghost predicate HoldsTail(pc: Pc) {
    pc.PushData? || pc.PushNext? || pc.PushTail? || pc.PushUnlock? || pc.TailRead? || pc.TailUnlock?
  }

  /** A node that only this thread can reach: one it has not yet appended, or one it has taken off. */
  ghost function Private(pc: Pc): set<int> {
    match pc
    case PushLock(node) => {node}
    case PushData(node) => {node}
    case PushNext(node) => {node}
    case PushTail(node) => {node}
    case HeadUnlock(node, taken) => {node}
    case ReadOld(node) => {node}
    case Free(node, value) => {node}
    case _ => {}
  }

  ghost predicate New(s: State, node: int) {
    node in s.heap && node !in s.nodes && s.heap[node] == Node(None, NULL)
  }

  /** A node taken off the queue, still with its value. */
  ghost predicate Taken(s: State, node: int) {
    node in s.heap && node !in s.nodes && s.heap[node].data.Some?
  }

  ghost predicate AtHead(s: State) {
    |s.nodes| > 0 && s.head == s.nodes[0]
  }

  ghost predicate LocalsOk(s: State, pc: Pc, op: Op) {
    match pc
    case Idle => true
    case PushAlloc => op.Push?
    case PushLock(node) => op.Push? && New(s, node)
    case PushData(node) => op.Push? && New(s, node)
    case PushNext(node) => op.Push? && New(s, node) && s.tail in s.heap && s.heap[s.tail].data == Some(op.value)
    case PushTail(node) =>
      op.Push? && New(s, node) && s.tail in s.heap && s.heap[s.tail] == Node(Some(op.value), node)
    case PushUnlock => op.Push?
    case HeadLock => !op.Push?
    case TailLock => !op.Push? && AtHead(s)
    case TailRead => !op.Push? && AtHead(s)
    case TailUnlock(end) => !op.Push? && AtHead(s) && (end == s.head || |s.nodes| > 1)
    case Compare(end) => !op.Push? && AtHead(s) && (end == s.head || |s.nodes| > 1)
    case WaitUnlock => Waits(op) && AtHead(s)
    case Asleep => Waits(op)
    case ReadData => Into(op) && AtHead(s) && |s.nodes| > 1
    case MoveHead(taken) =>
      && !op.Push? && !op.IsEmpty? && AtHead(s) && |s.nodes| > 1
      && (Into(op) ==> s.head in s.heap && s.heap[s.head].data == taken)
    case SetHead(node, taken) =>
      && !op.Push? && !op.IsEmpty? && |s.nodes| > 1 && node == s.nodes[0]
      && (Into(op) ==> node in s.heap && s.heap[node].data == taken)
    case HeadUnlock(node, taken) =>
      !op.Push? && !op.IsEmpty? && AtHead(s) && Taken(s, node) && (Into(op) ==> s.heap[node].data == taken)
    case ReadOld(node) => !op.Push? && !op.IsEmpty? && Taken(s, node)
    case Free(node, value) => !op.Push? && !op.IsEmpty? && Taken(s, node)
    case Release(result) => (op.IsEmpty? || (result.Nothing? && !Waits(op) && !op.Push?)) && AtHead(s)
    case Done(result) => Waits(op) ==> result.Got?
  }

  /** The result the call of a thread is already bound to, if it has taken effect. */
  ghost function Settled(s: State, pc: Pc, op: Op): Option<Result> {
    match pc
    case PushUnlock => Some(Ack)
    case TailUnlock(end) => Decided(s, end, op)
    case Compare(end) => Decided(s, end, op)
    case HeadUnlock(node, taken) => ValueIn(s, node)
    case ReadOld(node) => ValueIn(s, node)
    case Free(node, value) => Some(Got(value))
    case Release(result) => Some(result)
    case Done(result) => Some(result)
    case _ => None
  }

  ghost function Decided(s: State, end: int, op: Op): Option<Result> {
    if op.IsEmpty? then Some(Empty(s.head == end))
    else if s.head == end && !Waits(op) then Some(Nothing)
    else None
  }

  ghost function ValueIn(s: State, node: int): Option<Result> {
    if node in s.heap && s.heap[node].data.Some? then Some(Got(s.heap[node].data.value)) else None
  }

  ghost predicate CallMatches(r: Record<Op, Result>, c: nat, settled: Option<Result>) {
    && c < |r.calls|
    && r.calls[c].outcome.None?
    && match settled
       case None => r.calls[c].place.None?
       case Some(b) =>
         && r.calls[c].place.Some? && r.calls[c].place.value < |r.log|
         && r.log[r.calls[c].place.value].result == b
  }

  ghost predicate ThreadOk(s: State, t: nat)
    requires t < |s.threads|
  {
    var th := s.threads[t];
    && (HoldsHead(th.pc) <==> s.headOwner == Some(t))
    && (HoldsTail(th.pc) <==> s.tailOwner == Some(t))
    && (th.pc.Idle? ||
        (HasCall(s, t) && LocalsOk(s, th.pc, OpOf(s, t))
          && CallMatches(s.record, th.call, Settled(s, th.pc, OpOf(s, t)))))
  }

  /** Two active threads work on different calls and have no node to themselves in common. */
  ghost predicate Apart(a: Thread, b: Thread) {
    (a.pc.Idle? || b.pc.Idle? || a.call != b.call) && Private(a.pc) !! Private(b.pc)
  }

  ghost predicate ThreadsOk(s: State) {
    && (forall t: nat :: t < |s.threads| ==> ThreadOk(s, t))
    && (forall t: nat, u: nat :: t < |s.threads| && u < |s.threads| && t != u ==> Apart(s.threads[t], s.threads[u]))
  }

  /** A mutex that is held is held by a thread; between its uses `head_` is the first node. */
  ghost predicate LocksOk(s: State) {
    && (s.headOwner.Some? ==> s.headOwner.value < |s.threads|)
    && (s.tailOwner.Some? ==> s.tailOwner.value < |s.threads|)
    && (s.headOwner.None? ==> AtHead(s))
  }

  ghost predicate RecordOk(s: State) {
    Consistent(s.record) && Legal(s.record.log, [], QueueSpec) && DataOk(s, Contents(s))
  }

  ghost predicate Inv(s: State) {
    ListOk(s) && LocksOk(s) && ThreadsOk(s) && RecordOk(s)
  }

  lemma InitInv(n: nat)
    ensures Inv(Init(n))
  {
  }

  lemma InvSafe(s: State, t: nat)
    requires Inv(s) && t < |s.threads|
    ensures s.threads[t].pc.Idle? || Safe(s, t)
  {
    hide RecordOk, CallMatches;
    assert ThreadOk(s, t);
    hide ThreadsOk;
    if |s.nodes| > 1 { assert Follows(s.heap, s.nodes, 0); }
  }

  // ---------- Putting a step together ----------

  /** What a thread with the head mutex relies on. */
  ghost predicate HeadSide(s: State, l: State) {
    && l.head == s.head && |l.nodes| >= |s.nodes| > 0 && l.nodes[0] == s.nodes[0]
    && (|s.nodes| > 1 && s.nodes[0] in s.heap ==>
          l.nodes[0] in l.heap && l.heap[l.nodes[0]].data == s.heap[s.nodes[0]].data)
  }

  /** What a thread with the tail mutex relies on. */
  ghost predicate TailSide(s: State, l: State) {
    l.tail == s.tail && (s.tail in s.heap ==> l.tail in l.heap && l.heap[s.tail] == s.heap[s.tail])
  }

  ghost predicate KeepsNodes(s: State, l: State, nodes: set<int>) {
    forall p :: p in nodes ==>
      (p in s.heap ==> p in l.heap && l.heap[p] == s.heap[p]) && (p !in s.nodes ==> p !in l.nodes)
  }

  lemma LocalsStable(s: State, l: State, pc: Pc, op: Op)
    requires LocalsOk(s, pc, op) && KeepsNodes(s, l, Private(pc))
    requires HoldsHead(pc) ==> HeadSide(s, l)
    requires HoldsTail(pc) ==> TailSide(s, l)
    ensures LocalsOk(l, pc, op) && Settled(l, pc, op) == Settled(s, pc, op)
  {
  }

  ghost predicate RecordGrows(r: Record<Op, Result>, r': Record<Op, Result>, c: nat) {
    && |r.calls| <= |r'.calls| && r.log <= r'.log
    && (forall d :: 0 <= d < |r.calls| && d != c ==> r'.calls[d] == r.calls[d])
  }

  /** The mutexes after `t` went on to `pc`. */
  ghost function OwnerAfter(owner: Option<nat>, t: nat, holds: bool): Option<nat> {
    if holds then Some(t) else if owner == Some(t) then None else owner
  }

  /** What a step of `t` leaves to the other threads. */
  ghost predicate Yields(s: State, l: State, t: nat, pc: Pc) {
    && (s.headOwner != Some(t) ==> HeadSide(s, l))
    && (s.tailOwner != Some(t) ==> TailSide(s, l))
    && (HoldsHead(pc) ==> s.headOwner == None || s.headOwner == Some(t))
    && (HoldsTail(pc) ==> s.tailOwner == None || s.tailOwner == Some(t))
    && l.headOwner == OwnerAfter(s.headOwner, t, HoldsHead(pc))
    && l.tailOwner == OwnerAfter(s.tailOwner, t, HoldsTail(pc))
    && (forall u: nat :: u < |s.threads| && u != t ==>
          KeepsNodes(s, l, Private(s.threads[u].pc)) && Private(s.threads[u].pc) !! Private(pc))
  }

  lemma OtherOk(s: State, s': State, t: nat, u: nat)
    requires ThreadsOk(s) && t < |s.threads| == |s'.threads| && u < |s.threads| && u != t
      && s'.threads[u] == s.threads[u]
    requires Yields(s, s', t, s'.threads[t].pc)
    requires RecordGrows(s.record, s'.record, s'.threads[t].call)
    requires s'.threads[t].call >= |s.record.calls|
      || (!s.threads[t].pc.Idle? && s'.threads[t].call == s.threads[t].call)
    ensures ThreadOk(s', u)
  {
    hide KeepsNodes, LocalsOk, Settled, HoldsHead, HoldsTail, Private, HeadSide, TailSide;
    assert ThreadOk(s, u) && ThreadOk(s, t);
    assert Apart(s.threads[t], s.threads[u]);
    hide ThreadsOk;
    if !s.threads[u].pc.Idle? {
      LocalsStable(s, s', s.threads[u].pc, OpOf(s, u));
    }
  }

  lemma OtherCall(s: State, u: nat)
    requires u < |s.threads| && ThreadOk(s, u)
    ensures s.threads[u].pc.Idle? || s.threads[u].call < |s.record.calls|
  {
  }

  /** A step of `t` leaves the other threads as they were. */
  lemma ThreadsKept(s: State, s': State, t: nat)
    requires ThreadsOk(s) && t < |s.threads| == |s'.threads|
    requires forall u: nat :: u < |s.threads| && u != t ==> s'.threads[u] == s.threads[u]
    requires Yields(s, s', t, s'.threads[t].pc)
    requires RecordGrows(s.record, s'.record, s'.threads[t].call)
    requires s'.threads[t].call >= |s.record.calls|
      || (!s.threads[t].pc.Idle? && s'.threads[t].call == s.threads[t].call)
    requires ThreadOk(s', t)
    ensures ThreadsOk(s')
  {
    hide ThreadOk, KeepsNodes, HeadSide, TailSide, HoldsHead, HoldsTail, Private;
    forall u: nat | u < |s'.threads| ensures ThreadOk(s', u) {
      if u != t { OtherOk(s, s', t, u); }
    }
    forall a: nat, b: nat | a < |s'.threads| && b < |s'.threads| && a != b ensures Apart(s'.threads[a], s'.threads[b]) {
      assert Apart(s.threads[a], s.threads[b]) && ThreadOk(s, a) && ThreadOk(s, b);
      OtherCall(s, a);
      OtherCall(s, b);
    }
  }

  /** What the invariant says of one active thread. */
  lemma Facts(s: State, t: nat)
    requires Inv(s) && t < |s.threads| && !s.threads[t].pc.Idle?
    ensures Safe(s, t) && ListOk(s) && LocksOk(s) && ThreadsOk(s) && RecordOk(s)
    ensures LocalsOk(s, s.threads[t].pc, OpOf(s, t))
    ensures HoldsHead(s.threads[t].pc) <==> s.headOwner == Some(t)
    ensures HoldsTail(s.threads[t].pc) <==> s.tailOwner == Some(t)
    ensures CallMatches(s.record, s.threads[t].call, Settled(s, s.threads[t].pc, OpOf(s, t)))
  {
    InvSafe(s, t);
    assert ThreadOk(s, t);
  }

  lemma InvOf(s: State)
    requires ListOk(s) && LocksOk(s) && ThreadsOk(s) && RecordOk(s)
    ensures Inv(s)
  {
  }

  /** What a step has to show when it turns the shared state into that of `l` and goes on at `pc`. */
  ghost predicate Proper(s: State, l: State, t: nat, pc: Pc) {
    && t < |s.threads| && !pc.Idle? && !s.threads[t].pc.Idle? && HasCall(s, t)
    && l.threads == s.threads && l.record == s.record
    && Yields(s, l, t, pc) && LocalsOk(l, pc, OpOf(s, t)) && ListOk(l)
    && (l.headOwner.None? ==> AtHead(l))
  }

  /** What a thread knows of the queue does not depend on the other threads and the record. */
  lemma SameLocals(l: State, s': State, pc: Pc, op: Op)
    requires s'.(threads := l.threads, record := l.record) == l
    ensures LocalsOk(s', pc, op) == LocalsOk(l, pc, op) && Settled(s', pc, op) == Settled(l, pc, op)
    ensures ListOk(s') == ListOk(l) && AtHead(s') == AtHead(l)
  {
  }

  lemma SameYields(s: State, l: State, s': State, t: nat, pc: Pc)
    requires Yields(s, l, t, pc) && s'.(threads := l.threads, record := l.record) == l
    ensures Yields(s, s', t, pc)
  {
    hide Private, HoldsHead, HoldsTail;
    forall u: nat | u < |s.threads| && u != t
      ensures KeepsNodes(s, s', Private(s.threads[u].pc)) && Private(s.threads[u].pc) !! Private(pc)
    {
      assert KeepsNodes(s, l, Private(s.threads[u].pc));
    }
  }

  lemma LocksAfter(s: State, l: State, s': State, t: nat, pc: Pc)
    requires LocksOk(s) && Proper(s, l, t, pc) && s'.(threads := l.threads, record := l.record) == l
    requires |s'.threads| == |s.threads|
    ensures LocksOk(s') && ListOk(s')
  {
    hide HoldsHead, HoldsTail, LocalsOk, HeadSide, TailSide, KeepsNodes, Private, ListOk;
    SameLocals(l, s', pc, OpOf(s, t));
  }

  lemma ThreadsAfter(s: State, l: State, s': State, t: nat, pc: Pc)
    requires Inv(s) && Proper(s, l, t, pc)
    requires s'.threads == Goto(s, t, pc).threads && s'.(threads := l.threads, record := l.record) == l
    requires RecordGrows(s.record, s'.record, s.threads[t].call) && HasCall(s', t) && OpOf(s', t) == OpOf(s, t)
    requires CallMatches(s'.record, s.threads[t].call, Settled(l, pc, OpOf(s, t)))
    ensures ThreadsOk(s')
  {
    hide HoldsHead, HoldsTail, LocalsOk, HeadSide, TailSide, KeepsNodes, Private, ListOk, Settled, CallMatches,
         RecordOk, ThreadsOk, RecordGrows;
    Facts(s, t);
    SameLocals(l, s', pc, OpOf(s, t));
    SameYields(s, l, s', t, pc);
    OwnersMatch(s, s', t, pc);
    assert ThreadOk(s', t);
    ThreadsKept(s, s', t);
  }

  lemma OwnersMatch(s: State, l: State, t: nat, pc: Pc)
    requires Yields(s, l, t, pc)
    ensures HoldsHead(pc) <==> l.headOwner == Some(t)
    ensures HoldsTail(pc) <==> l.tailOwner == Some(t)
  {
    hide HoldsHead, HoldsTail, HeadSide, TailSide, KeepsNodes, Private;
  }

  lemma GotoInv(s: State, l: State, t: nat, pc: Pc)
    requires Inv(s) && Proper(s, l, t, pc) && DataOk(l, Contents(s))
    requires Settled(l, pc, OpOf(s, t)) == Settled(s, s.threads[t].pc, OpOf(s, t))
    ensures Inv(Goto(l, t, pc))
  {
    var s' := Goto(l, t, pc);
    hide Yields, LocalsOk, ListOk, LocksOk, ThreadsOk, Settled, CallMatches, Consistent, Legal;
    Facts(s, t);
    hide Inv;
    LocksAfter(s, l, s', t, pc);
    ThreadsAfter(s, l, s', t, pc);
    InvOf(s');
  }

  /** A call takes effect together with the write that turned `s` into `l`. */
  lemma EffectInv(s: State, l: State, t: nat, result: Result, pc: Pc)
    requires Inv(s) && Proper(s, l, t, pc)
    requires Settled(s, s.threads[t].pc, OpOf(s, t)) == None && Settled(l, pc, OpOf(s, t)) == Some(result)
    requires QueueSpec(Contents(s), OpOf(s, t)).1 == result && DataOk(l, QueueSpec(Contents(s), OpOf(s, t)).0)
    ensures HasCall(l, t) && Inv(EffectAt(l, t, result, pc))
  {
    hide Yields, LocalsOk, ListOk, LocksOk, ThreadsOk, Settled, Consistent, Legal, QueueSpec, DataOk;
    Facts(s, t);
    hide Inv;
    var s' := EffectAt(l, t, result, pc);
    EffectRecord(s, l, t, result, pc);
    hide RecordOk;
    LocksAfter(s, l, s', t, pc);
    ThreadsAfter(s, l, s', t, pc);
    InvOf(s');
  }

  lemma EffectRecord(s: State, l: State, t: nat, result: Result, pc: Pc)
    requires RecordOk(s) && HasCall(s, t) && l.threads == s.threads && l.record == s.record
    requires s.record.calls[s.threads[t].call].place.None? && s.record.calls[s.threads[t].call].outcome.None?
    requires QueueSpec(Contents(s), OpOf(s, t)).1 == result && DataOk(l, QueueSpec(Contents(s), OpOf(s, t)).0)
    ensures RecordOk(EffectAt(l, t, result, pc))
  {
    hide Consistent, Legal, QueueSpec, Replay, TakeEffect;
    TakeEffectConsistent(s.record, s.threads[t].call, result, [], QueueSpec);
  }

  // ---------- Steps that change no node ----------

  lemma OthersApart(s: State, t: nat, pc: Pc, u: nat)
    requires ThreadsOk(s) && t < |s.threads| && u < |s.threads| && u != t && Private(pc) <= Private(s.threads[t].pc)
    ensures Private(s.threads[u].pc) !! Private(pc)
  {
    assert Apart(s.threads[t], s.threads[u]);
  }

  /** The same queue with other owners of its mutexes. */
  ghost function Passed(s: State, t: nat, pc: Pc): State {
    s.(headOwner := OwnerAfter(s.headOwner, t, HoldsHead(pc)), tailOwner := OwnerAfter(s.tailOwner, t, HoldsTail(pc)))
  }

  ghost predicate CanPass(s: State, t: nat, pc: Pc) {
    && t < |s.threads| && !pc.Idle? && !s.threads[t].pc.Idle? && HasCall(s, t)
    && Private(pc) <= Private(s.threads[t].pc)
    && (HoldsHead(pc) ==> s.headOwner == None || s.headOwner == Some(t))
    && (HoldsTail(pc) ==> s.tailOwner == None || s.tailOwner == Some(t))
    && (Passed(s, t, pc).headOwner.None? ==> AtHead(s))
    && LocalsOk(s, pc, OpOf(s, t))
  }

  lemma PassedProper(s: State, t: nat, pc: Pc)
    requires Inv(s) && CanPass(s, t, pc)
    ensures Proper(s, Passed(s, t, pc), t, pc) && DataOk(Passed(s, t, pc), Contents(s))
    ensures Settled(Passed(s, t, pc), pc, OpOf(s, t)) == Settled(s, pc, OpOf(s, t))
  {
    var l := Passed(s, t, pc);
    hide LocalsOk, HoldsHead, HoldsTail, Private, Settled;
    forall u: nat | u < |s.threads| && u != t
      ensures KeepsNodes(s, l, Private(s.threads[u].pc)) && Private(s.threads[u].pc) !! Private(pc)
    {
      OthersApart(s, t, pc, u);
    }
    hide ThreadsOk, RecordOk;
    SameOwnersLocals(s, l, pc, OpOf(s, t));
    DataStays(s, l);
  }

  lemma SameOwnersLocals(s: State, l: State, pc: Pc, op: Op)
    requires l.(headOwner := s.headOwner, tailOwner := s.tailOwner) == s
    ensures LocalsOk(l, pc, op) == LocalsOk(s, pc, op) && Settled(l, pc, op) == Settled(s, pc, op)
    ensures ListOk(l) == ListOk(s) && AtHead(l) == AtHead(s)
  {
  }

  lemma DataStays(s: State, l: State)
    requires Inv(s) && l.nodes == s.nodes && l.record == s.record
    requires forall i :: 0 <= i < |s.nodes| - 1 && s.nodes[i] in s.heap ==>
      s.nodes[i] in l.heap && l.heap[s.nodes[i]].data == s.heap[s.nodes[i]].data
    ensures DataOk(l, Contents(s))
  {
    hide ListOk, ThreadsOk, LocksOk, Consistent, Legal;
  }

  lemma PassInv(s: State, t: nat, pc: Pc)
    requires Inv(s) && CanPass(s, t, pc)
    requires Settled(s, pc, OpOf(s, t)) == Settled(s, s.threads[t].pc, OpOf(s, t))
    ensures Inv(Goto(Passed(s, t, pc), t, pc))
  {
    hide Inv, CanPass, Proper, Settled, DataOk;
    PassedProper(s, t, pc);
    assert t < |s.threads| by { CanPassCall(s, t, pc); }
    GotoInv(s, Passed(s, t, pc), t, pc);
  }

  lemma CanPassCall(s: State, t: nat, pc: Pc)
    requires CanPass(s, t, pc)
    ensures t < |s.threads| && HasCall(s, t) && !s.threads[t].pc.Idle?
  {
  }

  /** A call takes effect at a read. */
  lemma ReadInv(s: State, t: nat, result: Result, pc: Pc)
    requires Inv(s) && CanPass(s, t, pc)
    requires Settled(s, s.threads[t].pc, OpOf(s, t)) == None && Settled(s, pc, OpOf(s, t)) == Some(result)
    requires QueueSpec(Contents(s), OpOf(s, t)) == (Contents(s), result)
    ensures HasCall(s, t) && Inv(EffectAt(Passed(s, t, pc), t, result, pc))
  {
    hide Inv, CanPass, Proper, Settled, DataOk, QueueSpec;
    PassedProper(s, t, pc);
    EffectInv(s, Passed(s, t, pc), t, result, pc);
  }

  /** The steps that only pass mutexes or values on: up to the decision, */
  lemma EarlyInv(s: State, t: nat)
    requires Inv(s) && t < |s.threads| && !Blocked(s, s.threads[t].pc) && Safe(s, t)
    requires match s.threads[t].pc
      case PushLock(_) => true case HeadLock => true case TailLock => true case TailUnlock(_) => true case _ => false
    ensures Inv(StepOf(s, t, NULL))
  {
    hide Inv, ThreadsOk, RecordOk, CallMatches, ListOk;
    Facts(s, t);
    match s.threads[t].pc
    case PushLock(node) => PassInv(s, t, PushData(node));
    case HeadLock => PassInv(s, t, TailLock);
    case TailLock => PassInv(s, t, TailRead);
    case TailUnlock(end) => PassInv(s, t, Compare(end));
  }

  /** the decision, */
  lemma CompareInv(s: State, t: nat)
    requires Inv(s) && t < |s.threads| && s.threads[t].pc.Compare? && Safe(s, t)
    ensures Inv(StepOf(s, t, NULL))
  {
    hide Inv, ThreadsOk, RecordOk, CallMatches, ListOk;
    Facts(s, t);
    var end, op := s.threads[t].pc.end, OpOf(s, t);
    if op.IsEmpty? {
      PassInv(s, t, Release(Empty(s.head == end)));
    } else if s.head == end {
      PassInv(s, t, if Waits(op) then WaitUnlock else Release(Nothing));
    } else {
      PassInv(s, t, if Into(op) then ReadData else MoveHead(None));
    }
  }

  /** after a push or a pop without a value, */
  lemma LeaveInv(s: State, t: nat)
    requires Inv(s) && t < |s.threads| && Safe(s, t)
    requires match s.threads[t].pc
      case PushUnlock => true case WaitUnlock => true case Asleep => true case Release(_) => true case _ => false
    ensures Inv(StepOf(s, t, NULL))
  {
    hide Inv, ThreadsOk, RecordOk, CallMatches, ListOk;
    Facts(s, t);
    match s.threads[t].pc
    case PushUnlock => PassInv(s, t, Done(Ack));
    case WaitUnlock => PassInv(s, t, Asleep);
    case Asleep => PassInv(s, t, HeadLock);
    case Release(result) => PassInv(s, t, Done(result));
  }

  /** and with one. */
  lemma ValueInv(s: State, t: nat)
    requires Inv(s) && t < |s.threads| && Safe(s, t)
    requires s.threads[t].pc.ReadData? || s.threads[t].pc.HeadUnlock? || s.threads[t].pc.ReadOld?
    ensures Inv(StepOf(s, t, NULL))
  {
    hide Inv, ThreadsOk, RecordOk, CallMatches, ListOk;
    Facts(s, t);
    match s.threads[t].pc
    case ReadData => PassInv(s, t, MoveHead(s.heap[s.head].data));
    case HeadUnlock(node, taken) =>
      PassInv(s, t, if Into(OpOf(s, t)) then Free(node, taken.value) else ReadOld(node));
    case ReadOld(node) => PassInv(s, t, Free(node, s.heap[node].data.value));
  }

  /** Under both mutexes, the queue is empty exactly when head and tail are the same node. */
  lemma EmptyIff(s: State)
    requires ListOk(s) && RecordOk(s) && AtHead(s)
    ensures s.head == s.tail <==> Contents(s) == []
    ensures s.head != s.tail ==> |s.nodes| > 1
  {
    hide Consistent, Legal;
  }

  lemma TailReadInv(s: State, t: nat)
    requires Inv(s) && t < |s.threads| && s.threads[t].pc.TailRead? && Safe(s, t)
    ensures Inv(StepOf(s, t, NULL))
  {
    hide Inv, ThreadsOk, CallMatches, ListOk;
    Facts(s, t);
    EmptyIff(s);
    hide RecordOk;
    var op, pc := OpOf(s, t), TailUnlock(s.tail);
    assert CanPass(s, t, pc) && Passed(s, t, pc) == s;
    hide CanPass, Passed;
    if op.IsEmpty? {
      ReadInv(s, t, Empty(s.head == s.tail), pc);
    } else if s.head == s.tail && !Waits(op) {
      ReadInv(s, t, Nothing, pc);
    } else {
      PassInv(s, t, pc);
    }
  }

  // ---------- Steps that change nodes ----------

  /** The nodes that only one thread can reach are allocated and not in the queue. */
  lemma PrivateOff(s: State, u: nat)
    requires ThreadsOk(s) && u < |s.threads|
    ensures forall p :: p in Private(s.threads[u].pc) ==> p in s.heap && p !in s.nodes
  {
    assert ThreadOk(s, u);
  }

  /** A step that changes, of all nodes, only one that no other thread has to itself. */
  lemma OthersKeep(s: State, l: State, t: nat, pc: Pc, node: int)
    requires ThreadsOk(s) && t < |s.threads|
    requires Private(pc) <= Private(s.threads[t].pc) || (Private(pc) == {node} && node !in s.heap)
    requires forall p :: p != node ==> (p in l.heap <==> p in s.heap) && (p in s.heap ==> l.heap[p] == s.heap[p])
    requires forall p :: p in l.nodes ==> p in s.nodes || p == node
    requires node !in s.heap || node in s.nodes || node in Private(s.threads[t].pc)
    ensures forall u: nat :: u < |s.threads| && u != t ==>
      KeepsNodes(s, l, Private(s.threads[u].pc)) && Private(s.threads[u].pc) !! Private(pc)
  {
    hide ThreadOk;
    forall u: nat | u < |s.threads| && u != t
      ensures KeepsNodes(s, l, Private(s.threads[u].pc)) && Private(s.threads[u].pc) !! Private(pc)
    {
      PrivateOff(s, u);
      assert Apart(s.threads[t], s.threads[u]);
    }
  }

  ghost function Written(s: State, p: int, n: Node): State {
    s.(heap := s.heap[p := n])
  }

  /** A write to a node outside the queue, or to the dummy, keeps the list. */
  lemma WriteList(s: State, p: int, n: Node)
    requires ListOk(s) && p != NULL && (p in s.nodes ==> p == s.tail)
    ensures ListOk(Written(s, p, n))
    ensures s.headOwner == None && LocksOk(s) ==> AtHead(Written(s, p, n))
  {
    var l := Written(s, p, n);
    forall i: nat | i < |l.nodes| - 1 ensures Follows(l.heap, l.nodes, i) && l.nodes[i] != s.tail {
      assert Follows(s.heap, s.nodes, i);
    }
  }

  /** `t` writes a node that no other thread relies on. */
  lemma WriteProper(s: State, t: nat, pc: Pc, p: int, n: Node)
    requires Inv(s) && t < |s.threads| && !pc.Idle? && !s.threads[t].pc.Idle? && HasCall(s, t)
    requires p != NULL && (p in s.nodes ==> p == s.tail && s.tailOwner == Some(t))
    requires p in s.heap ==> p in s.nodes || p in Private(s.threads[t].pc)
    requires Private(pc) <= Private(s.threads[t].pc) || (Private(pc) == {p} && p !in s.heap)
    requires (HoldsHead(pc) <==> HoldsHead(s.threads[t].pc)) && (HoldsTail(pc) <==> HoldsTail(s.threads[t].pc))
    requires LocalsOk(Written(s, p, n), pc, OpOf(s, t))
    ensures Proper(s, Written(s, p, n), t, pc) && DataOk(Written(s, p, n), Contents(s))
  {
    var l := Written(s, p, n);
    hide ThreadsOk, RecordOk, CallMatches, LocalsOk, HoldsHead, HoldsTail, Private, ListOk, DataOk;
    Facts(s, t);
    WriteList(s, p, n);
    OthersKeep(s, l, t, pc, p);
    TailIsLast(s);
    FirstInList(s);
    DataStays(s, l);
    hide Inv;
  }

  /** The tail is the last node and no other. */
  lemma TailIsLast(s: State)
    requires ListOk(s)
    ensures s.tail in s.heap && s.tail in s.nodes
    ensures forall i :: 0 <= i < |s.nodes| - 1 ==> s.nodes[i] != s.tail
  {
  }

  lemma WriteInv(s: State, t: nat, pc: Pc, p: int, n: Node)
    requires Inv(s) && t < |s.threads| && !pc.Idle? && !s.threads[t].pc.Idle? && HasCall(s, t)
    requires p != NULL && (p in s.nodes ==> p == s.tail && s.tailOwner == Some(t))
    requires p in s.heap ==> p in s.nodes || p in Private(s.threads[t].pc)
    requires Private(pc) <= Private(s.threads[t].pc) || (Private(pc) == {p} && p !in s.heap)
    requires (HoldsHead(pc) <==> HoldsHead(s.threads[t].pc)) && (HoldsTail(pc) <==> HoldsTail(s.threads[t].pc))
    requires LocalsOk(Written(s, p, n), pc, OpOf(s, t))
    requires Settled(Written(s, p, n), pc, OpOf(s, t)) == Settled(s, s.threads[t].pc, OpOf(s, t))
    ensures Inv(Goto(Written(s, p, n), t, pc))
  {
    hide Inv, LocalsOk, Settled, Proper, DataOk, Private, HoldsHead, HoldsTail;
    WriteProper(s, t, pc, p, n);
    GotoInv(s, Written(s, p, n), t, pc);
  }

  lemma PushWriteInv(s: State, t: nat, space: int)
    requires Inv(s) && t < |s.threads| && Safe(s, t)
    requires s.threads[t].pc.PushAlloc? || s.threads[t].pc.PushData? || s.threads[t].pc.PushNext?
    requires s.threads[t].pc.PushAlloc? ==> space !in s.heap && space != NULL
    ensures Inv(StepOf(s, t, space))
  {
    hide Inv, ThreadsOk, RecordOk, CallMatches;
    Facts(s, t);
    TailIsLast(s);
    match s.threads[t].pc
    case PushAlloc =>
      assert space !in s.nodes;
      hide ListOk;
      WriteInv(s, t, PushLock(space), space, Node(None, NULL));
    case PushData(node) =>
      hide ListOk;
      WriteInv(s, t, PushNext(node), s.tail, s.heap[s.tail].(data := Some(OpOf(s, t).value)));
    case PushNext(node) =>
      hide ListOk;
      WriteInv(s, t, PushTail(node), s.tail, s.heap[s.tail].(next := node));
  }

  // ---------- The appending write ----------

  ghost function Appended(s: State, node: int): State {
    s.(tail := node, nodes := s.nodes + [node])
  }

  lemma AppendList(s: State, node: int, v: int)
    requires ListOk(s) && New(s, node) && s.heap[s.tail] == Node(Some(v), node)
    ensures ListOk(Appended(s, node))
  {
    var l := Appended(s, node);
    forall i: nat | i < |l.nodes| - 1 ensures Follows(l.heap, l.nodes, i) {
      if i < |s.nodes| - 1 { assert Follows(s.heap, s.nodes, i); }
    }
  }

  lemma AppendData(s: State, node: int, v: int)
    requires ListOk(s) && RecordOk(s) && s.heap[s.tail].data == Some(v)
    ensures DataOk(Appended(s, node), Contents(s) + [v])
  {
    hide Consistent, Legal;
  }

  lemma PushTailInv(s: State, t: nat)
    requires Inv(s) && t < |s.threads| && s.threads[t].pc.PushTail? && Safe(s, t)
    ensures Inv(StepOf(s, t, NULL))
  {
    Facts(s, t);
    var node, v := s.threads[t].pc.node, OpOf(s, t).value;
    var l := Appended(s, node);
    hide Inv, ThreadsOk, CallMatches;
    AppendList(s, node, v);
    AppendData(s, node, v);
    hide RecordOk, DataOk;
    OthersKeep(s, l, t, PushUnlock, node);
    assert Proper(s, l, t, PushUnlock) by { hide ListOk; HeadStays(s, l); }
    hide Proper, ListOk;
    EffectInv(s, l, t, Ack, PushUnlock);
  }

  lemma HeadStays(s: State, l: State)
    requires l.head == s.head && l.heap == s.heap && |s.nodes| > 0 && |l.nodes| >= |s.nodes| && l.nodes[0] == s.nodes[0]
    ensures HeadSide(s, l)
  {
  }

  // ---------- Taking the head off ----------

  lemma MoveHeadInv(s: State, t: nat)
    requires Inv(s) && t < |s.threads| && s.threads[t].pc.MoveHead? && Safe(s, t)
    ensures Inv(StepOf(s, t, NULL))
  {
    var l, pc := s.(head := NULL), SetHead(s.head, s.threads[t].pc.taken);
    Facts(s, t);
    DataStays(s, l);
    hide Inv, CallMatches, RecordOk, DataOk;
    assert s.head in s.heap;
    OthersKeep(s, l, t, pc, s.head);
    hide ThreadsOk;
    assert Proper(s, l, t, pc);
    hide Proper, ListOk;
    GotoInv(s, l, t, pc);
  }

  ghost function TakenOff(s: State): State
    requires |s.nodes| > 0 && s.nodes[0] in s.heap
  {
    var node := s.nodes[0];
    s.(head := s.heap[node].next, heap := s.heap[node := s.heap[node].(next := NULL)], nodes := s.nodes[1..])
  }

  lemma TakeOffList(s: State)
    requires ListOk(s) && |s.nodes| > 1
    ensures ListOk(TakenOff(s)) && AtHead(TakenOff(s)) && TailSide(s, TakenOff(s))
    ensures Taken(TakenOff(s), s.nodes[0]) && s.nodes[0] != s.tail
  {
    var l := TakenOff(s);
    assert Follows(s.heap, s.nodes, 0);
    forall i: nat | i < |l.nodes| - 1 ensures Follows(l.heap, l.nodes, i) {
      assert Follows(s.heap, s.nodes, i + 1);
    }
  }

  lemma TakeOffData(s: State)
    requires ListOk(s) && RecordOk(s) && |s.nodes| > 1
    ensures Contents(s) != [] && s.heap[s.nodes[0]].data == Some(Contents(s)[0])
    ensures DataOk(TakenOff(s), Contents(s)[1..])
  {
    hide Consistent, Legal;
  }

  lemma SetHeadInv(s: State, t: nat)
    requires Inv(s) && t < |s.threads| && s.threads[t].pc.SetHead? && Safe(s, t)
    ensures Inv(StepOf(s, t, NULL))
  {
    var node, taken := s.threads[t].pc.node, s.threads[t].pc.taken;
    var pc, op := HeadUnlock(node, taken), OpOf(s, t);
    Facts(s, t);
    var l := TakenOff(s);
    hide Inv, CallMatches;
    TakeOffList(s);
    TakeOffData(s);
    SetHeadOthers(s, l, t, node, pc);
    hide RecordOk, DataOk, ThreadsOk, ListOk;
    assert Proper(s, l, t, pc) by { assert LocalsOk(l, pc, op); }
    hide Proper;
    EffectInv(s, l, t, Got(Contents(s)[0]), pc);
  }

  lemma SetHeadOthers(s: State, l: State, t: nat, node: int, pc: Pc)
    requires ThreadsOk(s) && ListOk(s) && t < |s.threads| && |s.nodes| > 1 && node == s.nodes[0] && l == TakenOff(s)
    requires Private(pc) == {node}
    ensures forall u: nat :: u < |s.threads| && u != t ==>
      KeepsNodes(s, l, Private(s.threads[u].pc)) && Private(s.threads[u].pc) !! Private(pc)
  {
    hide ThreadOk, Private;
    forall u: nat | u < |s.threads| && u != t
      ensures KeepsNodes(s, l, Private(s.threads[u].pc)) && Private(s.threads[u].pc) !! Private(pc)
    {
      PrivateOff(s, u);
    }
  }

  // ---------- Deletion ----------

  lemma FreeList(s: State, node: int)
    requires ListOk(s) && node !in s.nodes
    ensures ListOk(s.(heap := s.heap - {node}))
  {
    var l := s.(heap := s.heap - {node});
    forall i: nat | i < |l.nodes| - 1 ensures Follows(l.heap, l.nodes, i) {
      assert Follows(s.heap, s.nodes, i);
    }
  }

  lemma FreeInv(s: State, t: nat)
    requires Inv(s) && t < |s.threads| && s.threads[t].pc.Free? && Safe(s, t)
    ensures Inv(StepOf(s, t, NULL))
  {
    var node, value := s.threads[t].pc.node, s.threads[t].pc.value;
    var l, pc := s.(heap := s.heap - {node}), Done(Got(value));
    hide ThreadsOk, CallMatches, RecordOk, DataOk, ListOk;
    Facts(s, t);
    FreeList(s, node);
    DataStays(s, l);
    TailIsLast(s);
    hide Inv;
    OthersKeep(s, l, t, pc, node);
    assert HeadSide(s, l) by { FirstInList(s); }
    assert Proper(s, l, t, pc);
    hide Proper;
    GotoInv(s, l, t, pc);
  }

  lemma FirstInList(s: State)
    requires ListOk(s)
    ensures |s.nodes| > 0 && s.nodes[0] in s.heap && s.nodes[0] in s.nodes
  {
  }

  // ---------- Every step ----------

  lemma StepInv(s: State, t: nat, space: int)
    requires Inv(s) && Enabled(s, Step(t, space)) && Safe(s, t)
    ensures Inv(StepOf(s, t, space))
  {
    hide Inv;
    match s.threads[t].pc
    case PushAlloc => PushWriteInv(s, t, space);
    case PushData(_) => PushWriteInv(s, t, space);
    case PushNext(_) => PushWriteInv(s, t, space);
    case PushTail(_) => PushTailInv(s, t);
    case TailRead => TailReadInv(s, t);
    case MoveHead(_) => MoveHeadInv(s, t);
    case SetHead(_, _) => SetHeadInv(s, t);
    case Free(_, _) => FreeInv(s, t);
    case Compare(_) => CompareInv(s, t);
    case PushLock(_) => EarlyInv(s, t);
    case HeadLock => EarlyInv(s, t);
    case TailLock => EarlyInv(s, t);
    case TailUnlock(_) => EarlyInv(s, t);
    case ReadData => ValueInv(s, t);
    case HeadUnlock(_, _) => ValueInv(s, t);
    case ReadOld(_) => ValueInv(s, t);
    case _ => LeaveInv(s, t);
  }

  /** Between its calls a thread has neither mutex nor node. */
  lemma IdleKept(s: State, s': State, t: nat)
    requires ThreadsOk(s) && LocksOk(s) && ListOk(s) && t < |s.threads| == |s'.threads|
    requires forall u: nat :: u < |s.threads| && u != t ==> s'.threads[u] == s.threads[u]
    requires s'.(threads := s.threads, record := s.record) == s
    requires s.threads[t].pc.Idle? || s.threads[t].pc.Done?
    requires var pc := s'.threads[t].pc; Private(pc) == {} && !HoldsHead(pc) && !HoldsTail(pc)
    requires RecordGrows(s.record, s'.record, s'.threads[t].call)
    requires s'.threads[t].call >= |s.record.calls|
      || (!s.threads[t].pc.Idle? && s'.threads[t].call == s.threads[t].call)
    requires ThreadOk(s', t)
    ensures ThreadsOk(s') && LocksOk(s') && ListOk(s')
  {
    assert ThreadOk(s, t);
    assert Yields(s, s', t, s'.threads[t].pc);
    hide ThreadOk, RecordGrows, Yields;
    ThreadsKept(s, s', t);
    SameLocals(s, s', Idle, TryPop);
  }

  lemma BeginInv(s: State, t: nat, op: Op)
    requires Inv(s) && Enabled(s, Begin(t, op))
    ensures Inv(Apply(s, Begin(t, op)))
  {
    var s' := Apply(s, Begin(t, op));
    assert ThreadOk(s, t);
    InvokeConsistent(s.record, op);
    assert RecordOk(s') && ThreadOk(s', t);
    hide RecordOk, ListOk, LocksOk, ThreadsOk, ThreadOk;
    IdleKept(s, s', t);
  }

  lemma FinishInv(s: State, t: nat)
    requires Inv(s) && Enabled(s, Finish(t))
    ensures Inv(Apply(s, Finish(t)))
  {
    var s' := Apply(s, Finish(t));
    assert ThreadOk(s, t);
    ReturnConsistent(s.record, s.threads[t].call, s.threads[t].pc.result);
    assert RecordOk(s') && ThreadOk(s', t);
    hide RecordOk, ListOk, LocksOk, ThreadsOk, ThreadOk;
    IdleKept(s, s', t);
  }

  lemma ApplyInv(s: State, a: Action)
    requires Inv(s)
    ensures Inv(Apply(s, a))
  {
    hide Inv;
    if Enabled(s, a) {
      InvSafe(s, a.thread);
      match a
      case Begin(t, op) => BeginInv(s, t, op);
      case Step(t, space) => StepInv(s, t, space);
      case Finish(t) => FinishInv(s, t);
    }
  }

  /** The state after `actions`, with `n` threads on a new queue. */
  function Run(n: nat, actions: seq<Action>): State {
    if actions == [] then Init(n)
    else Apply(Run(n, actions[..|actions| - 1]), actions[|actions| - 1])
  }

  /** Every reachable state satisfies the invariant. */
  lemma {:induction false} RunInv(n: nat, actions: seq<Action>)
    ensures Inv(Run(n, actions))
  {
    hide Inv, Apply;
    if actions == [] {
      InitInv(n);
    } else {
      RunInv(n, actions[..|actions| - 1]);
      ApplyInv(Run(n, actions[..|actions| - 1]), actions[|actions| - 1]);
    }
  }
}
