/**
 * `FineSafeSet`: a sorted linked list with one mutex per node. A thread walks it hand over hand, holding
 * at most two locks. Every lock, unlock, read and write of a node is one step; `remove` frees the node it
 * takes out, and a later allocation may reuse the address.
 *
 * `succ`, `mending` and `record` are bookkeeping: no branch of a step reads them. `succ` is the list as the
 * calls see it; it differs from the `next` fields only at a node whose `add` is between its two writes,
 * and `mending` says which thread that is.
 */
module LockedSet {
  import opened Options
  import opened Linearizability
  import opened AbstractSet

  const NULL: int := -1
  const HEAD: int := 0
  const TAIL: int := 1

  datatype Node = Node(key: int, next: int, owner: Option<nat>)

  /** The next step of a thread and the locals that step uses. */
  datatype Pc =
    | Idle
    | LockHead
    | ReadFirst
    | LockCur(pre: int, cur: int)
    | Test(pre: int, cur: int)
    | Move(pre: int, cur: int)
    | Advance(pre: int)
    | AddAlloc(pre: int, cur: int)
    | AddLink(pre: int, cur: int, node: int)
    | AddNext(pre: int, cur: int, node: int)
    | RemoveLink(pre: int, cur: int)
    | RemoveUnlock(pre: int, cur: int)
    | RemoveFree(pre: int, cur: int)
    | ReleaseFirst(first: int, second: int, result: bool)
    | ReleaseSecond(second: int, result: bool)
    | Done(result: bool)

  datatype Thread = Thread(call: nat, pc: Pc)

  datatype State = State(
    heap: map<int, Node>,
    succ: map<int, int>,
    mending: map<int, nat>,
    threads: seq<Thread>,
    record: Record<Op, bool>)

  /** `space` is the address that an allocation would get. */
  datatype Action = Begin(thread: nat, op: Op) | Step(thread: nat, space: int) | Finish(thread: nat)

  // ---------- Steps ----------

  function SetNext(heap: map<int, Node>, p: int, next: int): map<int, Node>
    requires p in heap
  {
    heap[p := heap[p].(next := next)]
  }

  function SetOwner(heap: map<int, Node>, p: int, owner: Option<nat>): map<int, Node>
    requires p in heap
  {
    heap[p := heap[p].(owner := owner)]
  }

  predicate HasCall(s: State, t: nat) {
    t < |s.threads| && s.threads[t].call < |s.record.calls|
  }

  function OpOf(s: State, t: nat): Op
    requires HasCall(s, t)
  {
    s.record.calls[s.threads[t].call].op
  }

  function Goto(s: State, t: nat, pc: Pc): State
    requires t < |s.threads|
  {
    s.(threads := s.threads[t := s.threads[t].(pc := pc)])
  }

  /** The call of `t` takes effect with `result`; its thread goes on at `pc`. */
  function EffectAt(s: State, t: nat, result: bool, pc: Pc): State
    requires HasCall(s, t)
  {
    Goto(s, t, pc).(record := TakeEffect(s.record, s.threads[t].call, result))
  }

  /** The nodes that the next step of a thread reads or writes. */
  function Touches(pc: Pc): set<int> {
    match pc
    case Idle => {}
    case LockHead => {HEAD}
    case ReadFirst => {HEAD}
    case LockCur(pre, cur) => {cur}
    case Test(pre, cur) => {cur}
    case Move(pre, cur) => {pre}
    case Advance(pre) => {pre}
    case AddAlloc(pre, cur) => {}
    case AddLink(pre, cur, node) => {pre}
    case AddNext(pre, cur, node) => {node}
    case RemoveLink(pre, cur) => {pre, cur}
    case RemoveUnlock(pre, cur) => {cur}
    case RemoveFree(pre, cur) => {cur}
    case ReleaseFirst(first, second, result) => {first}
    case ReleaseSecond(second, result) => {second}
    case Done(result) => {}
  }

  /** The node that the next step of a thread locks. */
  function Wanted(pc: Pc): Option<int> {
    match pc
    case LockHead => Some(HEAD)
    case LockCur(pre, cur) => Some(cur)
    case _ => None
  }

  predicate Safe(s: State, t: nat) {
    HasCall(s, t) && Touches(s.threads[t].pc) <= s.heap.Keys
  }

  /** The next step waits for a lock that some thread holds. */
  predicate Blocked(s: State, t: nat)
    requires t < |s.threads|
  {
    var w := Wanted(s.threads[t].pc);
    w.Some? && w.value in s.heap && s.heap[w.value].owner.Some?
  }

  function StepOf(s: State, t: nat, space: int): State
    requires Safe(s, t)
  {
    var op := OpOf(s, t);
    match s.threads[t].pc
    case Idle => s
    case LockHead => Goto(s, t, ReadFirst).(heap := SetOwner(s.heap, HEAD, Some(t)))
    case ReadFirst => Goto(s, t, LockCur(HEAD, s.heap[HEAD].next))
    case LockCur(pre, cur) => Goto(s, t, Test(pre, cur)).(heap := SetOwner(s.heap, cur, Some(t)))
    case Test(pre, cur) =>
      var key := s.heap[cur].key;
      if key < op.key then Goto(s, t, Move(pre, cur))
      else if op.Add? then
        (if key == op.key then EffectAt(s, t, false, ReleaseFirst(pre, cur, false)) else Goto(s, t, AddAlloc(pre, cur)))
      else
        (if key == op.key then Goto(s, t, RemoveLink(pre, cur))
          else EffectAt(s, t, false, ReleaseFirst(cur, pre, false)))
    case Move(pre, cur) => Goto(s, t, Advance(cur)).(heap := SetOwner(s.heap, pre, None))
    case Advance(pre) => Goto(s, t, LockCur(pre, s.heap[pre].next))
    case AddAlloc(pre, cur) => Goto(s, t, AddLink(pre, cur, space)).(heap := s.heap[space := Node(op.key, NULL, None)])
    case AddLink(pre, cur, node) =>
      EffectAt(s, t, true, AddNext(pre, cur, node)).(
        heap := SetNext(s.heap, pre, node),
        succ := s.succ[pre := node][node := cur],
        mending := s.mending[node := t])
    case AddNext(pre, cur, node) =>
      Goto(s, t, ReleaseFirst(cur, pre, true)).(heap := SetNext(s.heap, node, cur), mending := s.mending - {node})
    case RemoveLink(pre, cur) =>
      EffectAt(s, t, true, RemoveUnlock(pre, cur)).(
        heap := SetNext(s.heap, pre, s.heap[cur].next),
        succ := (s.succ - {cur})[pre := s.heap[cur].next])
    case RemoveUnlock(pre, cur) => Goto(s, t, RemoveFree(pre, cur)).(heap := SetOwner(s.heap, cur, None))
    case RemoveFree(pre, cur) => Goto(s, t, ReleaseSecond(pre, true)).(heap := s.heap - {cur})
    case ReleaseFirst(first, second, result) =>
      Goto(s, t, ReleaseSecond(second, result)).(heap := SetOwner(s.heap, first, None))
    case ReleaseSecond(second, result) => Goto(s, t, Done(result)).(heap := SetOwner(s.heap, second, None))
    case Done(result) => s
  }

  /** A call is made only on an idle thread, with a key strictly between the sentinels. */
  predicate Enabled(s: State, a: Action) {
    a.thread < |s.threads| &&
    var pc := s.threads[a.thread].pc;
    match a
    case Begin(t, op) => pc.Idle? && INT32_MIN < op.key < INT32_MAX
    case Step(t, space) =>
      !pc.Idle? && !pc.Done? && !Blocked(s, t) && (pc.AddAlloc? ==> space !in s.heap && space != NULL)
    case Finish(t) => pc.Done?
  }

  /**
   * A step that would touch a node which is not allocated is not made; `InvSafe` and `RunInv` show that there is
   * none.
   */
  function Apply(s: State, a: Action): State {
    if !Enabled(s, a) || (!a.Begin? && !HasCall(s, a.thread)) then s else
    match a
    case Begin(t, op) =>
      s.(threads := s.threads[t := Thread(|s.record.calls|, LockHead)], record := Invoke(s.record, op))
    case Step(t, space) => if Safe(s, t) then StepOf(s, t, space) else s
    case Finish(t) =>
      Goto(s, t, Idle).(record := Return(s.record, s.threads[t].call, s.threads[t].pc.result))
  }

  function Init(n: nat): State {
    State(map[HEAD := Node(INT32_MIN, TAIL, None), TAIL := Node(INT32_MAX, NULL, None)],
          map[HEAD := TAIL, TAIL := NULL], map[], seq(n, _ => Thread(0, Idle)), Empty())
  }

  // ---------- The list ----------

  /** The successor of `p` is in the list and is the one with the next larger key. */
  ghost predicate Joined(heap: map<int, Node>, succ: map<int, int>, p: int)
    requires p in succ
  {
    && p in heap
    && (p != TAIL ==> succ[p] in succ && succ[p] in heap && heap[p].key < heap[succ[p]].key)
    && forall q :: q in succ ==>
      && q in heap
      && (heap[p].key == heap[q].key ==> p == q)
      && (p != TAIL && heap[p].key < heap[q].key ==> heap[succ[p]].key <= heap[q].key)
  }

  ghost predicate Shape(heap: map<int, Node>, succ: map<int, int>) {
    && HEAD in succ && TAIL in succ && HEAD in heap && TAIL in heap
    && heap[HEAD].key == INT32_MIN && heap[TAIL].key == INT32_MAX
    && (forall p :: p in succ ==> Joined(heap, succ, p) && (p == HEAD || p == TAIL || InRange(heap, p)))
  }

  ghost predicate InRange(heap: map<int, Node>, p: int) {
    p in heap && INT32_MIN < heap[p].key < INT32_MAX
  }

  /** `k` is the key of a node of the list. */
  ghost predicate Holds(heap: map<int, Node>, succ: map<int, int>, k: int) {
    exists p :: p in succ && p in heap && p != HEAD && p != TAIL && heap[p].key == k
  }

  /** The `next` field of a list node is its successor, unless an `add` has still to write it. */
  ghost predicate Wired(heap: map<int, Node>, succ: map<int, int>, mending: map<int, nat>) {
    && (forall p :: p in succ && p !in mending ==> p in heap && heap[p].next == succ[p])
    && (forall p :: p in mending ==> p in succ)
  }

  // ---------- The threads ----------

  /** The nodes that a thread has locked. */
  ghost function Held(pc: Pc): set<int> {
    match pc
    case ReadFirst => {HEAD}
    case LockCur(pre, cur) => {pre}
    case Test(pre, cur) => {pre, cur}
    case Move(pre, cur) => {pre, cur}
    case Advance(pre) => {pre}
    case AddAlloc(pre, cur) => {pre, cur}
    case AddLink(pre, cur, node) => {pre, cur}
    case AddNext(pre, cur, node) => {pre, cur}
    case RemoveLink(pre, cur) => {pre, cur}
    case RemoveUnlock(pre, cur) => {pre, cur}
    case RemoveFree(pre, cur) => {pre}
    case ReleaseFirst(first, second, result) => {first, second}
    case ReleaseSecond(second, result) => {second}
    case _ => {}
  }

  /** The nodes that only this thread can reach, besides those it has locked. */
  ghost function Private(pc: Pc): set<int> {
    match pc
    case AddLink(pre, cur, node) => {node}
    case AddNext(pre, cur, node) => {node}
    case RemoveFree(pre, cur) => {cur}
    case _ => {}
  }

  ghost function Stake(pc: Pc): set<int> {
    Held(pc) + Private(pc)
  }

  ghost predicate Owns(heap: map<int, Node>, t: nat, p: int) {
    p in heap && heap[p].owner == Some(t)
  }

  /** `pre` is a locked list node before the key, and `cur` its successor. */
  ghost predicate Window(s: State, t: nat, pre: int, cur: int, key: int) {
    pre in s.succ && pre != TAIL && s.succ[pre] == cur && Owns(s.heap, t, pre) && s.heap[pre].key < key
    && pre !in s.mending
  }

  ghost predicate Locked(s: State, t: nat, p: int) {
    p in s.succ && Owns(s.heap, t, p) && p !in s.mending
  }

  ghost predicate LocalsOk(s: State, t: nat, pc: Pc, op: Op) {
    match pc
    case Idle => true
    case LockHead => true
    case ReadFirst => Locked(s, t, HEAD)
    case LockCur(pre, cur) => Window(s, t, pre, cur, op.key)
    case Test(pre, cur) => Window(s, t, pre, cur, op.key) && Locked(s, t, cur)
    case Move(pre, cur) => Window(s, t, pre, cur, op.key) && Locked(s, t, cur) && s.heap[cur].key < op.key
    case Advance(pre) => Locked(s, t, pre) && s.heap[pre].key < op.key
    case AddAlloc(pre, cur) =>
      op.Add? && Window(s, t, pre, cur, op.key) && Locked(s, t, cur) && op.key < s.heap[cur].key
    case AddLink(pre, cur, node) =>
      && op.Add? && Window(s, t, pre, cur, op.key) && Locked(s, t, cur) && op.key < s.heap[cur].key
      && node in s.heap && node !in s.succ && s.heap[node] == Node(op.key, NULL, None)
    case AddNext(pre, cur, node) =>
      && op.Add? && Window(s, t, pre, node, op.key) && Locked(s, t, cur)
      && node in s.heap && node in s.succ && s.succ[node] == cur && s.heap[node] == Node(op.key, NULL, None)
      && node in s.mending && s.mending[node] == t && pre != cur
    case RemoveLink(pre, cur) =>
      op.Remove? && Window(s, t, pre, cur, op.key) && Locked(s, t, cur) && s.heap[cur].key == op.key
    case RemoveUnlock(pre, cur) => Locked(s, t, pre) && cur !in s.succ && Owns(s.heap, t, cur)
    case RemoveFree(pre, cur) => Locked(s, t, pre) && cur !in s.succ && cur in s.heap && s.heap[cur].owner == None
    case ReleaseFirst(first, second, result) => Locked(s, t, first) && Locked(s, t, second) && first != second
    case ReleaseSecond(second, result) => Locked(s, t, second)
    case Done(result) => true
  }

  /** The result the call of a thread is already bound to, if it has taken effect. */
  ghost function Settled(pc: Pc): Option<bool> {
    match pc
    case AddNext(pre, cur, node) => Some(true)
    case RemoveUnlock(pre, cur) => Some(true)
    case RemoveFree(pre, cur) => Some(true)
    case ReleaseFirst(first, second, result) => Some(result)
    case ReleaseSecond(second, result) => Some(result)
    case Done(result) => Some(result)
    case _ => None
  }

  ghost predicate CallMatches(r: Record<Op, bool>, c: nat, settled: Option<bool>) {
    && c < |r.calls|
    && INT32_MIN < r.calls[c].op.key < INT32_MAX
    && r.calls[c].outcome.None?
    && match settled
       case None => r.calls[c].place.None?
       case Some(b) =>
         && r.calls[c].place.Some? && r.calls[c].place.value < |r.log|
         && r.log[r.calls[c].place.value].result == b
  }

  ghost predicate ThreadOk(s: State, t: nat)
    requires t < |s.threads|
  {
    var th := s.threads[t];
    th.pc.Idle? ||
    (HasCall(s, t) && LocalsOk(s, t, th.pc, OpOf(s, t)) && CallMatches(s.record, th.call, Settled(th.pc)))
  }

  /** Two active threads work on different calls and have no node to themselves in common. */
  ghost predicate Apart(a: Thread, b: Thread) {
    (a.pc.Idle? || b.pc.Idle? || a.call != b.call) && Stake(a.pc) !! Stake(b.pc)
  }

  ghost predicate ThreadsOk(s: State) {
    && (forall t: nat :: t < |s.threads| ==> ThreadOk(s, t))
    && (forall t: nat, u: nat :: t < |s.threads| && u < |s.threads| && t != u ==> Apart(s.threads[t], s.threads[u]))
  }

  /** Every lock is held by the thread it names. */
  ghost predicate OwnerOk(s: State, p: int) {
    p in s.heap && s.heap[p].owner.Some? ==>
      s.heap[p].owner.value < |s.threads| && p in Held(s.threads[s.heap[p].owner.value].pc)
  }

  /** A node whose `next` is still to be written belongs to the `add` that will write it. */
  ghost predicate MendingOk(s: State, p: int) {
    p in s.mending ==>
      s.mending[p] < |s.threads| &&
      var pc := s.threads[s.mending[p]].pc;
      pc.AddNext? && pc.node == p
  }

  ghost predicate OwnersOk(s: State) {
    (forall p :: OwnerOk(s, p)) && (forall p :: MendingOk(s, p))
  }

  ghost function Contents(s: State): set<int> {
    Replay(s.record.log, {}, SetSpec)
  }

  /** The calls that have taken effect explain the list. */
  ghost predicate RecordOk(s: State) {
    && Consistent(s.record)
    && Legal(s.record.log, {}, SetSpec)
    && (forall k :: k in Contents(s) <==> Holds(s.heap, s.succ, k))
  }

  ghost predicate Inv(s: State) {
    && Shape(s.heap, s.succ) && Wired(s.heap, s.succ, s.mending) && NULL !in s.heap
    && ThreadsOk(s) && OwnersOk(s) && RecordOk(s)
  }

  lemma InitInv(n: nat)
    ensures Inv(Init(n))
  {
  }

  lemma InvSafe(s: State, t: nat)
    requires Inv(s) && t < |s.threads|
    ensures s.threads[t].pc.Idle? || Safe(s, t)
  {
    hide OwnersOk, RecordOk, Wired, Holds, CallMatches;
    assert ThreadOk(s, t);
    match s.threads[t].pc
    case LockCur(pre, cur) => assert Joined(s.heap, s.succ, pre);
    case _ =>
  }

  // ---------- Putting a step together ----------

  ghost predicate SameAt(s: State, l: State, p: int) {
    && (p in l.heap <==> p in s.heap) && (p in s.heap ==> l.heap[p] == s.heap[p])
    && (p in l.succ <==> p in s.succ) && (p in s.succ ==> l.succ[p] == s.succ[p])
    && (p in l.mending <==> p in s.mending) && (p in s.mending ==> l.mending[p] == s.mending[p])
  }

  /** Only the nodes in `nodes` changed. */
  ghost predicate SameOff(s: State, l: State, nodes: set<int>) {
    l.threads == s.threads && l.record == s.record && forall p :: p !in nodes ==> SameAt(s, l, p)
  }

  /** No other thread has a stake in these nodes. */
  ghost predicate Foreign(s: State, t: nat, nodes: set<int>) {
    forall u: nat :: u < |s.threads| && u != t ==> Stake(s.threads[u].pc) !! nodes
  }

  /** The changed nodes are locked, or half linked, by `t` at `pc` only. */
  ghost predicate Accounted(s: State, l: State, t: nat, pc: Pc, nodes: set<int>)
    requires t < |s.threads|
  {
    && Held(s.threads[t].pc) - nodes <= Held(pc)
    && (s.threads[t].pc.AddNext? ==> s.threads[t].pc.node in nodes)
    && (forall p :: p in nodes && p in l.heap && l.heap[p].owner.Some? ==> l.heap[p].owner == Some(t) && p in Held(pc))
    && (forall p :: p in nodes && p in l.mending ==> l.mending[p] == t && pc.AddNext? && pc.node == p)
  }

  lemma LocalsStable(s: State, l: State, t: nat, pc: Pc, op: Op, nodes: set<int>)
    requires SameOff(s, l, nodes) && Stake(pc) !! nodes && LocalsOk(s, t, pc, op)
    ensures LocalsOk(l, t, pc, op)
  {
    assert forall p :: p in Stake(pc) ==> SameAt(s, l, p);
    hide SameOff;
  }

  ghost predicate RecordGrows(r: Record<Op, bool>, r': Record<Op, bool>, c: nat) {
    && |r.calls| <= |r'.calls| && r.log <= r'.log
    && (forall d :: 0 <= d < |r.calls| && d != c ==> r'.calls[d] == r.calls[d])
  }

  lemma OtherOk(s: State, s': State, t: nat, u: nat, nodes: set<int>)
    requires ThreadsOk(s) && t < |s.threads| == |s'.threads| && u < |s.threads| && u != t
      && s'.threads[u] == s.threads[u]
    requires SameOff(s, s'.(threads := s.threads, record := s.record), nodes) && Foreign(s, t, nodes)
    requires RecordGrows(s.record, s'.record, s'.threads[t].call)
    requires s'.threads[t].call >= |s.record.calls|
      || (!s.threads[t].pc.Idle? && s'.threads[t].call == s.threads[t].call)
    ensures ThreadOk(s', u)
  {
    assert ThreadOk(s, u) && ThreadOk(s, t);
    assert Apart(s.threads[t], s.threads[u]);
    hide ThreadsOk;
    if !s.threads[u].pc.Idle? {
      LocalsStable(s, s'.(threads := s.threads, record := s.record), u, s.threads[u].pc, OpOf(s, u), nodes);
      SameLocals(s'.(threads := s.threads, record := s.record), s', u, s.threads[u].pc, OpOf(s, u));
    }
  }

  /** What a thread knows of the nodes does not depend on the other threads and the record. */
  lemma SameLocals(s: State, s': State, t: nat, pc: Pc, op: Op)
    requires s'.heap == s.heap && s'.succ == s.succ && s'.mending == s.mending
    ensures LocalsOk(s, t, pc, op) == LocalsOk(s', t, pc, op)
  {
  }

  /** A step of `t` leaves the other threads as they were. */
  lemma ThreadsKept(s: State, s': State, t: nat, nodes: set<int>)
    requires ThreadsOk(s) && t < |s.threads| == |s'.threads|
    requires forall u: nat :: u < |s.threads| && u != t ==> s'.threads[u] == s.threads[u]
    requires SameOff(s, s'.(threads := s.threads, record := s.record), nodes)
    requires Foreign(s, t, nodes) && Foreign(s, t, Stake(s'.threads[t].pc))
    requires RecordGrows(s.record, s'.record, s'.threads[t].call)
    requires s'.threads[t].call >= |s.record.calls|
      || (!s.threads[t].pc.Idle? && s'.threads[t].call == s.threads[t].call)
    requires ThreadOk(s', t)
    ensures ThreadsOk(s')
  {
    hide SameOff, ThreadOk, LocalsOk, Stake;
    forall u: nat | u < |s'.threads| ensures ThreadOk(s', u) {
      if u != t { OtherOk(s, s', t, u, nodes); }
    }
    forall a: nat, b: nat | a < |s'.threads| && b < |s'.threads| && a != b ensures Apart(s'.threads[a], s'.threads[b]) {
      assert Apart(s.threads[a], s.threads[b]) && ThreadOk(s, a) && ThreadOk(s, b);
      OtherCall(s, a);
      OtherCall(s, b);
    }
  }

  lemma OtherCall(s: State, u: nat)
    requires u < |s.threads| && ThreadOk(s, u)
    ensures s.threads[u].pc.Idle? || s.threads[u].call < |s.record.calls|
  {
  }

  lemma OwnersKept(s: State, l: State, t: nat, pc: Pc, nodes: set<int>)
    requires OwnersOk(s) && t < |s.threads| && SameOff(s, l, nodes) && Accounted(s, l, t, pc, nodes)
    ensures OwnersOk(Goto(l, t, pc))
  {
    var s' := Goto(l, t, pc);
    hide Held;
    forall p ensures OwnerOk(s', p) && MendingOk(s', p) {
      assert OwnerOk(s, p) && MendingOk(s, p);
      assert p in nodes || SameAt(s, l, p);
    }
  }

  /** What the invariant says of one active thread. */
  lemma Facts(s: State, t: nat)
    requires Inv(s) && t < |s.threads| && !s.threads[t].pc.Idle?
    ensures Safe(s, t) && Shape(s.heap, s.succ) && Wired(s.heap, s.succ, s.mending) && NULL !in s.heap
    ensures ThreadsOk(s) && OwnersOk(s) && RecordOk(s)
    ensures LocalsOk(s, t, s.threads[t].pc, OpOf(s, t))
    ensures CallMatches(s.record, s.threads[t].call, Settled(s.threads[t].pc))
    ensures INT32_MIN < OpOf(s, t).key < INT32_MAX
  {
    InvSafe(s, t);
    assert ThreadOk(s, t);
  }

  lemma InvOf(s: State)
    requires Shape(s.heap, s.succ) && Wired(s.heap, s.succ, s.mending) && NULL !in s.heap
    requires ThreadsOk(s) && OwnersOk(s) && RecordOk(s)
    ensures Inv(s)
  {
  }

  /** Nodes in which only `t` has a stake. */
  lemma OwnStake(s: State, t: nat, nodes: set<int>)
    requires ThreadsOk(s) && t < |s.threads| && nodes <= Stake(s.threads[t].pc)
    ensures Foreign(s, t, nodes)
  {
    hide ThreadOk, Stake;
    forall u: nat | u < |s.threads| && u != t ensures Stake(s.threads[u].pc) !! nodes {
      assert Apart(s.threads[t], s.threads[u]);
    }
  }

  /** What a step of `t` has to show when it changes `nodes` and goes on at `pc`. */
  ghost predicate Proper(s: State, l: State, t: nat, pc: Pc, nodes: set<int>) {
    && t < |s.threads| && !pc.Idle? && !s.threads[t].pc.Idle? && HasCall(s, t)
    && SameOff(s, l, nodes) && Accounted(s, l, t, pc, nodes)
    && Foreign(s, t, nodes) && Foreign(s, t, Stake(pc))
    && LocalsOk(l, t, pc, OpOf(s, t))
    && Shape(l.heap, l.succ) && Wired(l.heap, l.succ, l.mending) && NULL !in l.heap
  }

  ghost predicate SameKeys(s: State, l: State) {
    forall k :: Holds(s.heap, s.succ, k) <==> Holds(l.heap, l.succ, k)
  }

  lemma ThreadsAfter(s: State, l: State, s': State, t: nat, pc: Pc, nodes: set<int>)
    requires ThreadsOk(s) && t < |s.threads| && !s.threads[t].pc.Idle? && SameOff(s, l, nodes)
    requires Foreign(s, t, nodes) && Foreign(s, t, Stake(pc))
    requires s'.threads == Goto(l, t, pc).threads && s'.(threads := s.threads, record := s.record) == l
    requires RecordGrows(s.record, s'.record, s.threads[t].call) && ThreadOk(s', t)
    ensures ThreadsOk(s')
  {
    hide ThreadsOk, ThreadOk, Stake, RecordGrows;
    SameOffThreads(s, l, nodes);
    ThreadsKept(s, s', t, nodes);
  }

  lemma ProperParts(s: State, l: State, t: nat, pc: Pc, nodes: set<int>)
    requires Proper(s, l, t, pc, nodes)
    ensures t < |s.threads| && !pc.Idle? && !s.threads[t].pc.Idle? && HasCall(s, t)
    ensures SameOff(s, l, nodes) && Accounted(s, l, t, pc, nodes) && l.threads == s.threads && l.record == s.record
    ensures Foreign(s, t, nodes) && Foreign(s, t, Stake(pc)) && LocalsOk(l, t, pc, OpOf(s, t))
    ensures Shape(l.heap, l.succ) && Wired(l.heap, l.succ, l.mending) && NULL !in l.heap
  {
    hide Stake, LocalsOk, Shape, Wired, Foreign, Accounted, SameAt;
  }

  lemma GotoThreads(s: State, l: State, t: nat, pc: Pc, nodes: set<int>)
    requires Inv(s) && Proper(s, l, t, pc, nodes) && Settled(pc) == Settled(s.threads[t].pc)
    ensures ThreadsOk(Goto(l, t, pc))
  {
    hide Inv, SameOff, Foreign, Accounted, Stake, LocalsOk, Shape, Wired, ThreadsOk, Settled, CallMatches, OwnersOk,
         RecordOk;
    ProperParts(s, l, t, pc, nodes);
    Facts(s, t);
    hide Proper;
    SameLocals(l, Goto(l, t, pc), t, pc, OpOf(s, t));
    ThreadsAfter(s, l, Goto(l, t, pc), t, pc, nodes);
  }

  lemma GotoInv(s: State, l: State, t: nat, pc: Pc, nodes: set<int>)
    requires Inv(s) && Proper(s, l, t, pc, nodes) && SameKeys(s, l)
    requires Settled(pc) == Settled(s.threads[t].pc)
    ensures Inv(Goto(l, t, pc))
  {
    hide Inv, Proper, SameOff, Foreign, Accounted, Stake, LocalsOk, Shape, Wired, ThreadsOk, Settled, CallMatches,
         OwnersOk;
    hide Consistent, Legal, Holds;
    ProperParts(s, l, t, pc, nodes);
    Facts(s, t);
    GotoThreads(s, l, t, pc, nodes);
    OwnersKept(s, l, t, pc, nodes);
    InvOf(Goto(l, t, pc));
  }

  lemma EffectThreads(s: State, l: State, t: nat, result: bool, pc: Pc, nodes: set<int>)
    requires Inv(s) && Proper(s, l, t, pc, nodes)
    requires Settled(s.threads[t].pc) == None && Settled(pc) == Some(result)
    ensures HasCall(l, t) && ThreadsOk(EffectAt(l, t, result, pc))
  {
    hide Inv, SameOff, Foreign, Accounted, Stake, LocalsOk, Shape, Wired, ThreadsOk, Settled, OwnersOk, RecordOk;
    ProperParts(s, l, t, pc, nodes);
    Facts(s, t);
    hide Proper;
    SameLocals(l, EffectAt(l, t, result, pc), t, pc, OpOf(s, t));
    ThreadsAfter(s, l, EffectAt(l, t, result, pc), t, pc, nodes);
  }

  /** A call takes effect together with the write that turned `s` into `l`. */
  lemma EffectInv(s: State, l: State, t: nat, result: bool, pc: Pc, nodes: set<int>)
    requires Inv(s) && Proper(s, l, t, pc, nodes)
    requires Settled(s.threads[t].pc) == None && Settled(pc) == Some(result)
    requires SetSpec(Contents(s), OpOf(s, t)).1 == result
    requires forall k :: k in SetSpec(Contents(s), OpOf(s, t)).0 <==> Holds(l.heap, l.succ, k)
    ensures HasCall(l, t) && Inv(EffectAt(l, t, result, pc))
  {
    hide Inv, Proper, SameOff, Foreign, Accounted, Stake, LocalsOk, Shape, Wired, ThreadsOk, Settled, OwnersOk,
         RecordOk;
    hide Consistent, Legal, Holds, SetSpec;
    ProperParts(s, l, t, pc, nodes);
    Facts(s, t);
    EffectThreads(s, l, t, result, pc, nodes);
    EffectRecord(s, l, t, result, pc);
    OwnersKept(s, l, t, pc, nodes);
    OwnersRecord(Goto(l, t, pc), EffectAt(l, t, result, pc));
    InvOf(EffectAt(l, t, result, pc));
  }

  lemma SameOffThreads(s: State, l: State, nodes: set<int>)
    requires SameOff(s, l, nodes)
    ensures l.threads == s.threads && l.record == s.record
  {
  }

  lemma OwnersRecord(s: State, s': State)
    requires OwnersOk(s) && s'.heap == s.heap && s'.mending == s.mending && s'.threads == s.threads
    ensures OwnersOk(s')
  {
    forall p ensures OwnerOk(s', p) && MendingOk(s', p) {
      assert OwnerOk(s, p) && MendingOk(s, p);
    }
  }

  lemma EffectRecord(s: State, l: State, t: nat, result: bool, pc: Pc)
    requires RecordOk(s) && HasCall(s, t) && l.threads == s.threads && l.record == s.record
    requires s.record.calls[s.threads[t].call].place.None? && s.record.calls[s.threads[t].call].outcome.None?
    requires SetSpec(Contents(s), OpOf(s, t)).1 == result
    requires forall k :: k in SetSpec(Contents(s), OpOf(s, t)).0 <==> Holds(l.heap, l.succ, k)
    ensures RecordOk(EffectAt(l, t, result, pc))
  {
    hide Consistent, Legal, SetSpec, Holds, Replay, TakeEffect;
    TakeEffectConsistent(s.record, s.threads[t].call, result, {}, SetSpec);
  }

  // ---------- Steps that change no link ----------

  ghost predicate SameKeyAt(s: State, l: State, p: int) {
    p in s.heap && p in l.heap && l.heap[p].key == s.heap[p].key
  }

  lemma InHeap(s: State, p: int)
    requires Shape(s.heap, s.succ) && p in s.succ
    ensures p in s.heap && (p != TAIL ==> s.succ[p] in s.succ && s.succ[p] in s.heap)
    ensures p != TAIL ==> s.heap[p].key < s.heap[s.succ[p]].key
  {
    assert Joined(s.heap, s.succ, p);
  }

  /** The list only depends on the keys and the successors of its nodes. */
  lemma ShapeKept(s: State, l: State)
    requires Shape(s.heap, s.succ) && l.succ == s.succ
    requires forall p :: p in s.succ ==> SameKeyAt(s, l, p)
    ensures Shape(l.heap, l.succ) && SameKeys(s, l)
  {
    forall p | p in l.succ ensures Joined(l.heap, l.succ, p) && (p == HEAD || p == TAIL || InRange(l.heap, p)) {
      assert Joined(s.heap, s.succ, p) && SameKeyAt(s, l, p);
      if p != TAIL { assert SameKeyAt(s, l, s.succ[p]); }
      forall q | q in l.succ ensures
        && q in l.heap && (l.heap[p].key == l.heap[q].key ==> p == q)
        && (p != TAIL && l.heap[p].key < l.heap[q].key ==> l.heap[l.succ[p]].key <= l.heap[q].key)
      {
        assert SameKeyAt(s, l, q);
      }
    }
    assert SameKeyAt(s, l, HEAD) && SameKeyAt(s, l, TAIL);
    hide Joined;
    forall k ensures Holds(s.heap, s.succ, k) <==> Holds(l.heap, l.succ, k) {
      assert forall p :: p in s.succ ==> SameKeyAt(s, l, p);
    }
  }

  /** A thread moves on without touching a node. */
  lemma StillProper(s: State, t: nat, pc: Pc)
    requires Inv(s) && t < |s.threads| && !pc.Idle? && !s.threads[t].pc.Idle? && HasCall(s, t)
    requires Held(s.threads[t].pc) <= Held(pc) && Stake(pc) <= Stake(s.threads[t].pc) && !s.threads[t].pc.AddNext?
    requires LocalsOk(s, t, pc, OpOf(s, t))
    ensures Proper(s, s, t, pc, {})
  {
    OwnStake(s, t, Stake(pc));
  }

  lemma StillInv(s: State, t: nat, pc: Pc)
    requires Inv(s) && t < |s.threads| && !pc.Idle? && !s.threads[t].pc.Idle? && HasCall(s, t)
    requires Held(s.threads[t].pc) <= Held(pc) && Stake(pc) <= Stake(s.threads[t].pc) && !s.threads[t].pc.AddNext?
    requires LocalsOk(s, t, pc, OpOf(s, t)) && Settled(pc) == Settled(s.threads[t].pc)
    ensures Inv(Goto(s, t, pc))
  {
    hide Inv, Proper, LocalsOk, Stake, Held, Settled;
    StillProper(s, t, pc);
    GotoInv(s, s, t, pc, {});
  }

  ghost function Owned(s: State, p: int, owner: Option<nat>): State
    requires p in s.heap
  {
    s.(heap := SetOwner(s.heap, p, owner))
  }

  /** Locking and unlocking leave the list as it is. */
  lemma OwnedKept(s: State, p: int, owner: Option<nat>)
    requires Inv(s) && p in s.heap
    ensures var l := Owned(s, p, owner);
      && SameOff(s, l, {p}) && Shape(l.heap, l.succ) && Wired(l.heap, l.succ, l.mending) && NULL !in l.heap
      && SameKeys(s, l)
  {
    hide Joined, Holds, InRange, ThreadsOk, OwnersOk, RecordOk, SameKeys;
    forall q | q in s.succ ensures SameKeyAt(s, Owned(s, p, owner), q) { InHeap(s, q); }
    ShapeKept(s, Owned(s, p, owner));
  }

  /** A thread unlocks one of its nodes. */
  lemma ReleaseInv(s: State, t: nat, p: int, pc: Pc)
    requires Inv(s) && t < |s.threads| && !pc.Idle? && !s.threads[t].pc.Idle? && HasCall(s, t) && p in s.heap
    requires p in Held(s.threads[t].pc) && Held(s.threads[t].pc) - {p} <= Held(pc)
      && Stake(pc) <= Stake(s.threads[t].pc)
    requires !s.threads[t].pc.AddNext? && p !in s.mending
    requires LocalsOk(Owned(s, p, None), t, pc, OpOf(s, t)) && Settled(pc) == Settled(s.threads[t].pc)
    ensures Inv(Goto(Owned(s, p, None), t, pc))
  {
    hide Inv, LocalsOk, Stake, Held, Settled, Shape, Wired, SameOff, SameKeys, Foreign, ThreadsOk, OwnersOk, RecordOk;
    Facts(s, t);
    HeldStake(s.threads[t].pc, p);
    OwnedKept(s, p, None);
    OwnStake(s, t, Stake(pc));
    OwnStake(s, t, {p});
    GotoInv(s, Owned(s, p, None), t, pc, {p});
  }

  lemma HeldStake(pc: Pc, p: int)
    requires p in Held(pc)
    ensures {p} <= Stake(pc)
  {
  }

  /** A thread locks a free node of the list. */
  lemma AcquireInv(s: State, t: nat, p: int, pc: Pc)
    requires Inv(s) && t < |s.threads| && !pc.Idle? && !s.threads[t].pc.Idle? && HasCall(s, t) && p in s.heap
    requires p in s.succ && p !in s.mending && s.heap[p].owner == None
    requires Held(s.threads[t].pc) + {p} <= Held(pc) && Stake(pc) <= Stake(s.threads[t].pc) + {p}
    requires p in Held(pc) && !s.threads[t].pc.AddNext?
    requires LocalsOk(Owned(s, p, Some(t)), t, pc, OpOf(s, t)) && Settled(pc) == Settled(s.threads[t].pc)
    ensures Inv(Goto(Owned(s, p, Some(t)), t, pc))
  {
    hide LocalsOk, Stake, Held, Private, Settled, Shape, Wired, SameOff, SameKeys, Foreign, ThreadsOk, OwnersOk,
         RecordOk, Inv;
    Facts(s, t);
    FreeNode(s, t, p);
    OwnStake(s, t, Stake(s.threads[t].pc));
    PartForeign(s, t, Stake(s.threads[t].pc), {p}, Stake(pc));
    OwnedKept(s, p, Some(t));
    GotoInv(s, Owned(s, p, Some(t)), t, pc, {p});
  }

  lemma PartForeign(s: State, t: nat, a: set<int>, b: set<int>, part: set<int>)
    requires Foreign(s, t, a) && Foreign(s, t, b) && part <= a + b
    ensures Foreign(s, t, part)
  {
    hide Stake;
  }

  /** A list node that nobody has locked, and that is not half linked, is nobody's. */
  lemma FreeNode(s: State, t: nat, p: int)
    requires ThreadsOk(s) && p in s.succ && p in s.heap && s.heap[p].owner == None && p !in s.mending
    ensures Foreign(s, t, {p})
  {
    forall u: nat | u < |s.threads| && u != t ensures Stake(s.threads[u].pc) !! {p} {
      assert ThreadOk(s, u);
    }
  }

  /** A half linked node hangs behind the node that its `add` has locked. */
  lemma Mender(s: State, p: int)
    requires ThreadsOk(s) && OwnersOk(s) && p in s.mending
    ensures var v := s.mending[p];
      && v < |s.threads| && s.threads[v].pc.AddNext? && s.threads[v].pc.node == p
      && var pre := s.threads[v].pc.pre;
         pre in s.succ && pre != TAIL && s.succ[pre] == p && Owns(s.heap, v, pre) && pre !in s.mending
  {
    assert MendingOk(s, p) && ThreadOk(s, s.mending[p]);
  }

  /** Only one node leads to `cur`. */
  lemma OneWay(heap: map<int, Node>, succ: map<int, int>, p: int, q: int)
    requires Shape(heap, succ) && p in succ && q in succ && p != TAIL && q != TAIL && succ[p] == succ[q]
    ensures p == q
  {
    assert Joined(heap, succ, p) && Joined(heap, succ, q);
  }

  lemma HeadWhole(s: State)
    requires Shape(s.heap, s.succ) && ThreadsOk(s) && OwnersOk(s)
    ensures HEAD !in s.mending
  {
    hide ThreadsOk, OwnersOk;
    forall p | p in s.mending ensures p != HEAD {
      Mender(s, p);
      assert Joined(s.heap, s.succ, s.threads[s.mending[p]].pc.pre);
    }
  }

  /** The node behind a locked one is not half linked, unless by the thread with the lock. */
  lemma NextWhole(s: State, t: nat, pre: int)
    requires Shape(s.heap, s.succ) && ThreadsOk(s) && OwnersOk(s) && t < |s.threads| && !s.threads[t].pc.AddNext?
    requires pre in s.succ && pre != TAIL && Owns(s.heap, t, pre)
    ensures s.succ[pre] !in s.mending
  {
    hide ThreadsOk, OwnersOk, Shape;
    var cur := s.succ[pre];
    if cur in s.mending {
      Mender(s, cur);
      OneWay(s.heap, s.succ, pre, s.threads[s.mending[cur]].pc.pre);
      assert false;
    }
  }

  lemma LockHeadInv(s: State, t: nat)
    requires Inv(s) && t < |s.threads| && s.threads[t].pc.LockHead? && !Blocked(s, t) && Safe(s, t)
    ensures Inv(StepOf(s, t, NULL))
  {
    hide Inv, ThreadsOk, OwnersOk, RecordOk, Joined, Wired;
    Facts(s, t);
    HeadWhole(s);
    AcquireInv(s, t, HEAD, ReadFirst);
  }

  lemma ReadFirstInv(s: State, t: nat)
    requires Inv(s) && t < |s.threads| && s.threads[t].pc.ReadFirst? && Safe(s, t)
    ensures Inv(StepOf(s, t, NULL))
  {
    hide Inv, ThreadsOk, OwnersOk, RecordOk, Joined;
    Facts(s, t);
    StillInv(s, t, LockCur(HEAD, s.heap[HEAD].next));
  }

  lemma LockCurInv(s: State, t: nat)
    requires Inv(s) && t < |s.threads| && s.threads[t].pc.LockCur? && !Blocked(s, t) && Safe(s, t)
    ensures Inv(StepOf(s, t, NULL))
  {
    hide Inv, ThreadsOk, OwnersOk, RecordOk, Joined, Wired, Shape;
    Facts(s, t);
    var pre, cur := s.threads[t].pc.pre, s.threads[t].pc.cur;
    InHeap(s, pre);
    NextWhole(s, t, pre);
    AcquireInv(s, t, cur, Test(pre, cur));
  }

  lemma MoveInv(s: State, t: nat)
    requires Inv(s) && t < |s.threads| && s.threads[t].pc.Move? && Safe(s, t)
    ensures Inv(StepOf(s, t, NULL))
  {
    hide Inv, ThreadsOk, OwnersOk, RecordOk, Joined, Wired, Shape;
    Facts(s, t);
    InHeap(s, s.threads[t].pc.pre);
    ReleaseInv(s, t, s.threads[t].pc.pre, Advance(s.threads[t].pc.cur));
  }

  lemma AdvanceInv(s: State, t: nat)
    requires Inv(s) && t < |s.threads| && s.threads[t].pc.Advance? && Safe(s, t)
    ensures Inv(StepOf(s, t, NULL))
  {
    hide Inv, ThreadsOk, OwnersOk, RecordOk, Joined;
    Facts(s, t);
    var pre := s.threads[t].pc.pre;
    StillInv(s, t, LockCur(pre, s.heap[pre].next));
  }

  lemma RemoveUnlockInv(s: State, t: nat)
    requires Inv(s) && t < |s.threads| && s.threads[t].pc.RemoveUnlock? && Safe(s, t)
    ensures Inv(StepOf(s, t, NULL))
  {
    hide Inv, ThreadsOk, OwnersOk, RecordOk, Joined, Shape;
    Facts(s, t);
    var pre, cur := s.threads[t].pc.pre, s.threads[t].pc.cur;
    ReleaseInv(s, t, cur, RemoveFree(pre, cur));
  }

  lemma ReleaseFirstInv(s: State, t: nat)
    requires Inv(s) && t < |s.threads| && s.threads[t].pc.ReleaseFirst? && Safe(s, t)
    ensures Inv(StepOf(s, t, NULL))
  {
    hide Inv, ThreadsOk, OwnersOk, RecordOk, Joined, Wired, Shape;
    Facts(s, t);
    var pc := s.threads[t].pc;
    ReleaseInv(s, t, pc.first, ReleaseSecond(pc.second, pc.result));
  }

  lemma ReleaseSecondInv(s: State, t: nat)
    requires Inv(s) && t < |s.threads| && s.threads[t].pc.ReleaseSecond? && Safe(s, t)
    ensures Inv(StepOf(s, t, NULL))
  {
    hide Inv, ThreadsOk, OwnersOk, RecordOk, Joined, Wired, Shape;
    Facts(s, t);
    ReleaseInv(s, t, s.threads[t].pc.second, Done(s.threads[t].pc.result));
  }

  // ---------- The decision ----------

  /** A key between those of two neighbours is not in the list. */
  lemma AbsentBetween(heap: map<int, Node>, succ: map<int, int>, pre: int, k: int)
    requires Shape(heap, succ) && pre in succ && pre != TAIL && pre in heap && succ[pre] in heap
    requires heap[pre].key < k < heap[succ[pre]].key
    ensures !Holds(heap, succ, k)
  {
    assert Joined(heap, succ, pre);
  }

  lemma PresentAt(heap: map<int, Node>, succ: map<int, int>, p: int)
    requires Shape(heap, succ) && p in succ && p in heap && INT32_MIN < heap[p].key < INT32_MAX
    ensures Holds(heap, succ, heap[p].key)
  {
  }

  lemma FalseKeeps(s: State, t: nat)
    requires RecordOk(s) && HasCall(s, t)
    requires Holds(s.heap, s.succ, OpOf(s, t).key) <==> OpOf(s, t).Add?
    ensures !SetSpec(Contents(s), OpOf(s, t)).1
    ensures forall k :: k in SetSpec(Contents(s), OpOf(s, t)).0 <==> Holds(s.heap, s.succ, k)
  {
    hide Consistent, Legal, Holds;
    assert OpOf(s, t).key in Contents(s) <==> OpOf(s, t).Add?;
  }

  /** A call that leaves the set as it is takes effect. */
  lemma FalseInv(s: State, t: nat, pc: Pc)
    requires Inv(s) && t < |s.threads| && !pc.Idle? && !s.threads[t].pc.Idle? && HasCall(s, t)
    requires Held(s.threads[t].pc) <= Held(pc) && Stake(pc) <= Stake(s.threads[t].pc) && !s.threads[t].pc.AddNext?
    requires LocalsOk(s, t, pc, OpOf(s, t)) && Settled(s.threads[t].pc) == None && Settled(pc) == Some(false)
    requires Holds(s.heap, s.succ, OpOf(s, t).key) <==> OpOf(s, t).Add?
    ensures Inv(EffectAt(s, t, false, pc))
  {
    hide Inv, Proper, LocalsOk, Stake, Held, Settled, Holds, RecordOk, SetSpec;
    StillProper(s, t, pc);
    Facts(s, t);
    FalseKeeps(s, t);
    EffectInv(s, s, t, false, pc, {});
  }

  lemma TestInv(s: State, t: nat)
    requires Inv(s) && t < |s.threads| && s.threads[t].pc.Test? && Safe(s, t)
    ensures Inv(StepOf(s, t, NULL))
  {
    hide Inv, ThreadsOk, OwnersOk, RecordOk, Joined, Wired, Shape, Holds;
    Facts(s, t);
    var pre, cur, op := s.threads[t].pc.pre, s.threads[t].pc.cur, OpOf(s, t);
    var key := s.heap[cur].key;
    InHeap(s, pre);
    if key < op.key {
      StillInv(s, t, Move(pre, cur));
    } else if op.Add? {
      if key == op.key {
        PresentAt(s.heap, s.succ, cur);
        FalseInv(s, t, ReleaseFirst(pre, cur, false));
      } else {
        StillInv(s, t, AddAlloc(pre, cur));
      }
    } else {
      if key == op.key {
        StillInv(s, t, RemoveLink(pre, cur));
      } else {
        AbsentBetween(s.heap, s.succ, pre, op.key);
        FalseInv(s, t, ReleaseFirst(cur, pre, false));
      }
    }
  }

  // ---------- Allocation and deletion ----------

  lemma StakesInHeap(s: State, t: nat, p: int)
    requires ThreadsOk(s) && p !in s.heap && Shape(s.heap, s.succ)
    ensures Foreign(s, t, {p})
  {
    forall u: nat | u < |s.threads| && u != t ensures Stake(s.threads[u].pc) !! {p} {
      assert ThreadOk(s, u);
    }
  }

  ghost function Allocated(s: State, p: int, key: int): State {
    s.(heap := s.heap[p := Node(key, NULL, None)])
  }

  lemma AllocKept(s: State, p: int, key: int)
    requires Inv(s) && p !in s.heap && p != NULL
    ensures var l := Allocated(s, p, key);
      && SameOff(s, l, {p}) && Shape(l.heap, l.succ) && Wired(l.heap, l.succ, l.mending) && NULL !in l.heap
      && SameKeys(s, l)
      && p !in l.succ && p !in l.mending
  {
    hide Joined, Holds, InRange, ThreadsOk, OwnersOk, RecordOk, SameKeys;
    forall q | q in s.succ ensures SameKeyAt(s, Allocated(s, p, key), q) && q != p { InHeap(s, q); }
    ShapeKept(s, Allocated(s, p, key));
  }

  lemma AllocInv(s: State, t: nat, space: int)
    requires Inv(s) && t < |s.threads| && s.threads[t].pc.AddAlloc? && Safe(s, t) && space !in s.heap && space != NULL
    ensures Inv(StepOf(s, t, space))
  {
    hide Inv, ThreadsOk, OwnersOk, RecordOk, Shape, Wired, SameOff, SameKeys, Foreign;
    Facts(s, t);
    var pre, cur, op := s.threads[t].pc.pre, s.threads[t].pc.cur, OpOf(s, t);
    var pc, l := AddLink(pre, cur, space), Allocated(s, space, op.key);
    AllocKept(s, space, op.key);
    StakesInHeap(s, t, space);
    OwnStake(s, t, Stake(s.threads[t].pc));
    PartForeign(s, t, Stake(s.threads[t].pc), {space}, Stake(pc));
    GotoInv(s, l, t, pc, {space});
  }

  ghost function Freed(s: State, p: int): State {
    s.(heap := s.heap - {p})
  }

  lemma FreeKept(s: State, p: int)
    requires Inv(s) && p !in s.succ
    ensures var l := Freed(s, p);
      && SameOff(s, l, {p}) && Shape(l.heap, l.succ) && Wired(l.heap, l.succ, l.mending) && NULL !in l.heap
      && SameKeys(s, l)
      && p !in l.mending
  {
    hide Joined, Holds, InRange, ThreadsOk, OwnersOk, RecordOk, SameKeys;
    forall q | q in s.succ ensures SameKeyAt(s, Freed(s, p), q) { InHeap(s, q); }
    ShapeKept(s, Freed(s, p));
  }

  lemma RemoveFreeInv(s: State, t: nat)
    requires Inv(s) && t < |s.threads| && s.threads[t].pc.RemoveFree? && Safe(s, t)
    ensures Inv(StepOf(s, t, NULL))
  {
    hide Inv, ThreadsOk, OwnersOk, RecordOk, Shape, Wired, SameOff, SameKeys, Foreign;
    Facts(s, t);
    var pre, cur := s.threads[t].pc.pre, s.threads[t].pc.cur;
    FreeKept(s, cur);
    OwnStake(s, t, {cur});
    OwnStake(s, t, {pre});
    assert Stake(ReleaseSecond(pre, true)) == {pre};
    GotoInv(s, Freed(s, cur), t, ReleaseSecond(pre, true), {cur});
  }

  // ---------- The writes of `add` ----------

  ghost function LinkedIn(s: State, t: nat, pre: int, cur: int, node: int): State
    requires pre in s.heap
  {
    s.(heap := SetNext(s.heap, pre, node), succ := s.succ[pre := node][node := cur], mending := s.mending[node := t])
  }

  ghost predicate CanLink(s: State, pre: int, cur: int, node: int) {
    && Shape(s.heap, s.succ) && pre in s.succ && pre != TAIL && s.succ[pre] == cur
    && pre in s.heap && cur in s.heap && node in s.heap && node !in s.succ
    && s.heap[pre].key < s.heap[node].key < s.heap[cur].key
  }

  lemma LinkJoined(s: State, t: nat, pre: int, cur: int, node: int, p: int)
    requires CanLink(s, pre, cur, node) && (p == node || p in s.succ)
    ensures Joined(LinkedIn(s, t, pre, cur, node).heap, LinkedIn(s, t, pre, cur, node).succ, p)
  {
    InHeap(s, pre);
    assert Joined(s.heap, s.succ, pre);
    if p != node {
      assert Joined(s.heap, s.succ, p);
      InHeap(s, p);
    }
    assert Joined(s.heap, s.succ, cur);
  }

  lemma LinkShape(s: State, t: nat, pre: int, cur: int, node: int)
    requires CanLink(s, pre, cur, node) && INT32_MIN < s.heap[node].key < INT32_MAX
    ensures var l := LinkedIn(s, t, pre, cur, node); Shape(l.heap, l.succ)
  {
    var l := LinkedIn(s, t, pre, cur, node);
    hide Joined;
    forall p | p in l.succ ensures Joined(l.heap, l.succ, p) && (p == HEAD || p == TAIL || InRange(l.heap, p)) {
      LinkJoined(s, t, pre, cur, node, p);
    }
  }

  lemma LinkHolds(s: State, t: nat, pre: int, cur: int, node: int)
    requires CanLink(s, pre, cur, node)
    ensures var l := LinkedIn(s, t, pre, cur, node);
      forall k :: Holds(l.heap, l.succ, k) <==> Holds(s.heap, s.succ, k) || k == s.heap[node].key
  {
    var l := LinkedIn(s, t, pre, cur, node);
    forall k ensures Holds(l.heap, l.succ, k) <==> Holds(s.heap, s.succ, k) || k == s.heap[node].key {
      if Holds(s.heap, s.succ, k) {
        var p :| p in s.succ && p in s.heap && p != HEAD && p != TAIL && s.heap[p].key == k;
        assert p in l.succ && p in l.heap && l.heap[p].key == k;
      }
      if k == s.heap[node].key {
        assert node in l.succ && node in l.heap && l.heap[node].key == k;
      }
      if Holds(l.heap, l.succ, k) && k != s.heap[node].key {
        var p :| p in l.succ && p in l.heap && p != HEAD && p != TAIL && l.heap[p].key == k;
        assert p in s.succ && p in s.heap && s.heap[p].key == k;
      }
    }
  }

  lemma LinkWired(s: State, t: nat, pre: int, cur: int, node: int)
    requires Wired(s.heap, s.succ, s.mending) && pre in s.succ && pre in s.heap && pre != node && node !in s.succ
    ensures var l := LinkedIn(s, t, pre, cur, node);
      Wired(l.heap, l.succ, l.mending) && SameOff(s, l, {pre, node})
  {
  }

  /** `add` of an absent key takes effect when the predecessor is redirected. */
  lemma AddTakes(s: State, t: nat, pre: int, cur: int, node: int)
    requires RecordOk(s) && HasCall(s, t) && OpOf(s, t).Add? && CanLink(s, pre, cur, node)
    requires s.heap[node].key == OpOf(s, t).key
    ensures SetSpec(Contents(s), OpOf(s, t)).1
    ensures var l := LinkedIn(s, t, pre, cur, node);
      forall k :: k in SetSpec(Contents(s), OpOf(s, t)).0 <==> Holds(l.heap, l.succ, k)
  {
    LinkHolds(s, t, pre, cur, node);
    AbsentBetween(s.heap, s.succ, pre, s.heap[node].key);
    hide Consistent, Legal, Holds, Shape;
  }

  lemma AddLinkInv(s: State, t: nat)
    requires Inv(s) && t < |s.threads| && s.threads[t].pc.AddLink? && Safe(s, t)
    ensures Inv(StepOf(s, t, NULL))
  {
    hide Inv, ThreadsOk, OwnersOk, RecordOk, Shape, Wired, SameOff, SameKeys, Foreign, Holds, SetSpec;
    Facts(s, t);
    var pre, cur, node := s.threads[t].pc.pre, s.threads[t].pc.cur, s.threads[t].pc.node;
    var pc, l := AddNext(pre, cur, node), LinkedIn(s, t, pre, cur, node);
    InHeap(s, pre);
    LinkShape(s, t, pre, cur, node);
    LinkWired(s, t, pre, cur, node);
    AddTakes(s, t, pre, cur, node);
    OwnStake(s, t, {pre, node});
    OwnStake(s, t, Stake(pc));
    EffectInv(s, l, t, true, pc, {pre, node});
  }

  ghost function Mended(s: State, node: int, cur: int): State
    requires node in s.heap
  {
    s.(heap := SetNext(s.heap, node, cur), mending := s.mending - {node})
  }

  lemma MendKept(s: State, node: int, cur: int)
    requires Inv(s) && node in s.heap && node in s.succ && s.succ[node] == cur
    ensures var l := Mended(s, node, cur);
      && SameOff(s, l, {node}) && Shape(l.heap, l.succ) && Wired(l.heap, l.succ, l.mending) && NULL !in l.heap
      && SameKeys(s, l)
  {
    hide Joined, Holds, InRange, ThreadsOk, OwnersOk, RecordOk, SameKeys;
    forall q | q in s.succ ensures SameKeyAt(s, Mended(s, node, cur), q) { InHeap(s, q); }
    ShapeKept(s, Mended(s, node, cur));
  }

  lemma AddNextInv(s: State, t: nat)
    requires Inv(s) && t < |s.threads| && s.threads[t].pc.AddNext? && Safe(s, t)
    ensures Inv(StepOf(s, t, NULL))
  {
    hide Inv, ThreadsOk, OwnersOk, RecordOk, Shape, Wired, SameOff, SameKeys, Foreign;
    Facts(s, t);
    var pre, cur, node := s.threads[t].pc.pre, s.threads[t].pc.cur, s.threads[t].pc.node;
    var pc := ReleaseFirst(cur, pre, true);
    MendKept(s, node, cur);
    OwnStake(s, t, {node});
    OwnStake(s, t, Stake(pc));
    GotoInv(s, Mended(s, node, cur), t, pc, {node});
  }

  // ---------- The write of `remove` ----------

  ghost function Unlinked(s: State, pre: int, cur: int, next: int): State
    requires pre in s.heap
  {
    s.(heap := SetNext(s.heap, pre, next), succ := (s.succ - {cur})[pre := next])
  }

  ghost predicate CanUnlink(s: State, pre: int, cur: int, next: int) {
    && Shape(s.heap, s.succ) && pre in s.succ && pre != TAIL && s.succ[pre] == cur
    && cur in s.succ && cur != TAIL && s.succ[cur] == next && pre in s.heap && cur in s.heap
  }

  lemma UnlinkJoined(s: State, pre: int, cur: int, next: int, p: int)
    requires CanUnlink(s, pre, cur, next) && p in s.succ && p != cur
    ensures var l := Unlinked(s, pre, cur, next); p in l.succ && Joined(l.heap, l.succ, p)
  {
    InHeap(s, pre);
    InHeap(s, cur);
    InHeap(s, p);
    assert Joined(s.heap, s.succ, pre) && Joined(s.heap, s.succ, cur) && Joined(s.heap, s.succ, p);
    if p != TAIL && s.succ[p] == cur { OneWay(s.heap, s.succ, pre, p); }
  }

  lemma UnlinkShape(s: State, pre: int, cur: int, next: int)
    requires CanUnlink(s, pre, cur, next) && cur != HEAD
    ensures var l := Unlinked(s, pre, cur, next); Shape(l.heap, l.succ)
  {
    var l := Unlinked(s, pre, cur, next);
    InHeap(s, pre);
    InHeap(s, cur);
    hide Joined;
    forall p | p in l.succ ensures Joined(l.heap, l.succ, p) && (p == HEAD || p == TAIL || InRange(l.heap, p)) {
      UnlinkJoined(s, pre, cur, next, p);
    }
  }

  lemma UnlinkHolds(s: State, pre: int, cur: int, next: int)
    requires CanUnlink(s, pre, cur, next) && pre != cur
    ensures var l := Unlinked(s, pre, cur, next);
      forall k :: Holds(l.heap, l.succ, k) <==> Holds(s.heap, s.succ, k) && k != s.heap[cur].key
  {
    var l := Unlinked(s, pre, cur, next);
    assert Joined(s.heap, s.succ, cur);
    forall k ensures Holds(l.heap, l.succ, k) <==> Holds(s.heap, s.succ, k) && k != s.heap[cur].key {
      if Holds(s.heap, s.succ, k) && k != s.heap[cur].key {
        var p :| p in s.succ && p in s.heap && p != HEAD && p != TAIL && s.heap[p].key == k;
        assert p in l.succ && p in l.heap && l.heap[p].key == k;
      }
      if Holds(l.heap, l.succ, k) {
        var p :| p in l.succ && p in l.heap && p != HEAD && p != TAIL && l.heap[p].key == k;
        assert p in s.succ && p in s.heap && s.heap[p].key == k && p != cur;
      }
    }
  }

  lemma UnlinkWired(s: State, pre: int, cur: int, next: int)
    requires Wired(s.heap, s.succ, s.mending) && pre in s.succ && pre in s.heap && pre != cur && cur !in s.mending
    ensures var l := Unlinked(s, pre, cur, next);
      Wired(l.heap, l.succ, l.mending) && SameOff(s, l, {pre, cur})
  {
  }

  /** `remove` of a present key takes effect when the predecessor is redirected. */
  lemma RemoveTakes(s: State, t: nat, pre: int, cur: int, next: int)
    requires RecordOk(s) && HasCall(s, t) && OpOf(s, t).Remove? && CanUnlink(s, pre, cur, next) && pre != cur
    requires s.heap[cur].key == OpOf(s, t).key && INT32_MIN < OpOf(s, t).key < INT32_MAX
    ensures SetSpec(Contents(s), OpOf(s, t)).1
    ensures var l := Unlinked(s, pre, cur, next);
      forall k :: k in SetSpec(Contents(s), OpOf(s, t)).0 <==> Holds(l.heap, l.succ, k)
  {
    UnlinkHolds(s, pre, cur, next);
    PresentAt(s.heap, s.succ, cur);
    hide Consistent, Legal, Holds, Shape;
  }

  lemma RemoveLinkInv(s: State, t: nat)
    requires Inv(s) && t < |s.threads| && s.threads[t].pc.RemoveLink? && Safe(s, t)
    ensures Inv(StepOf(s, t, NULL))
  {
    hide Inv, ThreadsOk, OwnersOk, RecordOk, SameOff, SameKeys, Foreign, Holds, SetSpec, Joined;
    Facts(s, t);
    var pre, cur := s.threads[t].pc.pre, s.threads[t].pc.cur;
    var next := s.heap[cur].next;
    var pc, l := RemoveUnlock(pre, cur), Unlinked(s, pre, cur, next);
    InHeap(s, pre);
    assert CanUnlink(s, pre, cur, next) && cur != HEAD;
    hide Shape, Wired;
    UnlinkShape(s, pre, cur, next);
    UnlinkWired(s, pre, cur, next);
    RemoveTakes(s, t, pre, cur, next);
    OwnStake(s, t, {pre, cur});
    OwnStake(s, t, Stake(pc));
    EffectInv(s, l, t, true, pc, {pre, cur});
  }

  // ---------- Every step ----------

  lemma StepInv(s: State, t: nat, space: int)
    requires Inv(s) && Enabled(s, Step(t, space)) && Safe(s, t)
    ensures Inv(StepOf(s, t, space))
  {
    hide Inv;
    match s.threads[t].pc
    case LockHead => LockHeadInv(s, t);
    case ReadFirst => ReadFirstInv(s, t);
    case LockCur(_, _) => LockCurInv(s, t);
    case Test(_, _) => TestInv(s, t);
    case Move(_, _) => MoveInv(s, t);
    case Advance(_) => AdvanceInv(s, t);
    case AddAlloc(_, _) => AllocInv(s, t, space);
    case AddLink(_, _, _) => AddLinkInv(s, t);
    case AddNext(_, _, _) => AddNextInv(s, t);
    case RemoveLink(_, _) => RemoveLinkInv(s, t);
    case RemoveUnlock(_, _) => RemoveUnlockInv(s, t);
    case RemoveFree(_, _) => RemoveFreeInv(s, t);
    case ReleaseFirst(_, _, _) => ReleaseFirstInv(s, t);
    case ReleaseSecond(_, _) => ReleaseSecondInv(s, t);
  }

  lemma BeginInv(s: State, t: nat, op: Op)
    requires Inv(s) && Enabled(s, Begin(t, op))
    ensures Inv(Apply(s, Begin(t, op)))
  {
    var s' := Apply(s, Begin(t, op));
    InvokeConsistent(s.record, op);
    IdleKept(s, s', t);
  }

  lemma FinishInv(s: State, t: nat)
    requires Inv(s) && Enabled(s, Finish(t))
    ensures Inv(Apply(s, Finish(t)))
  {
    var s' := Apply(s, Finish(t));
    assert ThreadOk(s, t);
    ReturnConsistent(s.record, s.threads[t].call, s.threads[t].pc.result);
    IdleKept(s, s', t);
  }

  /** Between its calls a thread has no node. */
  lemma IdleKept(s: State, s': State, t: nat)
    requires ThreadsOk(s) && OwnersOk(s) && t < |s.threads| == |s'.threads|
    requires forall u: nat :: u < |s.threads| && u != t ==> s'.threads[u] == s.threads[u]
    requires s'.(threads := s.threads, record := s.record) == s
    requires Stake(s.threads[t].pc) == {} == Stake(s'.threads[t].pc) && !s.threads[t].pc.AddNext?
    requires RecordGrows(s.record, s'.record, s'.threads[t].call)
    requires s'.threads[t].call >= |s.record.calls|
      || (!s.threads[t].pc.Idle? && s'.threads[t].call == s.threads[t].call)
    requires ThreadOk(s', t)
    ensures ThreadsOk(s') && OwnersOk(s')
  {
    ThreadsKept(s, s', t, {});
    forall p ensures OwnerOk(s', p) && MendingOk(s', p) {
      assert OwnerOk(s, p) && MendingOk(s, p);
    }
  }

  lemma ApplyInv(s: State, a: Action)
    requires Inv(s)
    ensures Inv(Apply(s, a))
  {
    hide Inv;
    if Enabled(s, a) {
      InvSafe(s, a.thread);
      match a
      case Begin(t, op) => BeginInv(s, t, op);
      case Step(t, space) => StepInv(s, t, space);
      case Finish(t) => FinishInv(s, t);
    }
  }

  /** The state after `actions`, with `n` threads on a new set. */
  function Run(n: nat, actions: seq<Action>): State {
    if actions == [] then Init(n)
    else Apply(Run(n, actions[..|actions| - 1]), actions[|actions| - 1])
  }

  /** Every reachable state satisfies the invariant. */
  lemma {:induction false} RunInv(n: nat, actions: seq<Action>)
    ensures Inv(Run(n, actions))
  {
    hide Inv, Apply;
    if actions == [] {
      InitInv(n);
    } else {
      RunInv(n, actions[..|actions| - 1]);
      ApplyInv(Run(n, actions[..|actions| - 1]), actions[|actions| - 1]);
    }
  }
}
