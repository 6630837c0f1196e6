/**
 * `UnblockingSafeSet`: a sorted linked list whose `next` words carry a mark bit, changed only by
 * compare-and-set. Any number of threads run `add` and `remove`; every atomic read or
 * compare-and-set of a `next` word is one step.
 *
 * Nodes are never freed while the set is in use, so the heap is a sequence that only grows.
 * `linked`, `chain` and `record` are bookkeeping: no branch of a step reads them.
 */
module LockFreeSet {
  import opened Options
  import opened Linearizability
  import opened AbstractSet

  const NULL: int := -1
  const HEAD: int := 0
  const TAIL: int := 1

  datatype Word = Word(ref: int, marked: bool)

  datatype Node = Node(key: int, next: Word)

  /** Where a thread stands: the next atomic step it will make, and the locals that step uses. */
  datatype Pc =
    | Idle
    | FindStart
    | Search(pre: int, cur: int, snip: bool)
    | Snip(pre: int, cur: int, succ: int)
    | AddAlloc(pre: int, cur: int)
    | AddCas(pre: int, cur: int, node: int)
    | RemoveRead(pre: int, cur: int)
    | RemoveMark(pre: int, cur: int, succ: int)
    | RemoveSnip(pre: int, cur: int, succ: int)
    | Done(result: bool)

  datatype Thread = Thread(call: nat, pc: Pc)

  /** `linked`: the nodes ever put in the list; `chain`: the nodes now on it, marked or not. */
  datatype State = State(
    heap: seq<Node>,
    threads: seq<Thread>,
    linked: set<int>,
    chain: set<int>,
    record: Record<Op, bool>)

  datatype Action = Begin(thread: nat, op: Op) | Step(thread: nat) | Finish(thread: nat)

  // ---------- Steps ----------

  predicate IsNode(heap: seq<Node>, p: int) {
    0 <= p < |heap|
  }

  function SetNext(heap: seq<Node>, p: int, w: Word): seq<Node>
    requires IsNode(heap, p)
  {
    heap[p := heap[p].(next := w)]
  }

  predicate HasCall(s: State, t: nat) {
    t < |s.threads| && s.threads[t].call < |s.record.calls|
  }

  function OpOf(s: State, t: nat): Op
    requires HasCall(s, t)
  {
    s.record.calls[s.threads[t].call].op
  }

  function Goto(s: State, t: nat, pc: Pc): State
    requires t < |s.threads|
  {
    s.(threads := s.threads[t := s.threads[t].(pc := pc)])
  }

  /** The call of `t` takes effect with `result`; its thread goes on at `pc`. */
  function EffectAt(s: State, t: nat, result: bool, pc: Pc): State
    requires HasCall(s, t)
  {
    Goto(s, t, pc).(record := TakeEffect(s.record, s.threads[t].call, result))
  }

  predicate Pending(s: State, t: nat)
    requires HasCall(s, t)
  {
    s.record.calls[s.threads[t].call].place.None?
  }

  /**
   * The loop is about to read `cur->next`. A removal that has moved past its key has missed it: its `false` takes
   * effect here.
   */
  function Arrive(s: State, t: nat, pre: int, cur: int): State
    requires HasCall(s, t) && IsNode(s.heap, cur)
  {
    var op := OpOf(s, t);
    if op.Remove? && s.heap[cur].key > op.key && Pending(s, t)
    then EffectAt(s, t, false, Search(pre, cur, true))
    else Goto(s, t, Search(pre, cur, true))
  }

  /** `find` returned the window `(pre, cur)`. */
  function Found(s: State, t: nat, pre: int, cur: int): State
    requires HasCall(s, t) && IsNode(s.heap, cur)
  {
    match OpOf(s, t)
    case Add(k) =>
      if s.heap[cur].key == k then EffectAt(s, t, false, Done(false)) else Goto(s, t, AddAlloc(pre, cur))
    case Remove(k) =>
      if s.heap[cur].key != k then Goto(s, t, Done(false)) else Goto(s, t, RemoveRead(pre, cur))
  }

  /** Every pointer that the next step of `t` reads through is a node. */
  predicate Safe(s: State, t: nat) {
    && HasCall(s, t)
    && IsNode(s.heap, HEAD)
    && match s.threads[t].pc
       case Idle => true
       case FindStart => IsNode(s.heap, s.heap[HEAD].next.ref)
       case Search(pre, cur, snip) =>
         && IsNode(s.heap, cur)
         && (!s.heap[cur].next.marked && s.heap[cur].key < OpOf(s, t).key ==> IsNode(s.heap, s.heap[cur].next.ref))
       case Snip(pre, cur, succ) => IsNode(s.heap, pre) && IsNode(s.heap, succ)
       case AddAlloc(pre, cur) => IsNode(s.heap, cur)
       case AddCas(pre, cur, node) => IsNode(s.heap, pre) && IsNode(s.heap, node)
       case RemoveRead(pre, cur) => IsNode(s.heap, cur)
       case RemoveMark(pre, cur, succ) => IsNode(s.heap, cur)
       case RemoveSnip(pre, cur, succ) => IsNode(s.heap, pre)
       case Done(result) => true
  }

  function StepOf(s: State, t: nat): State
    requires Safe(s, t)
  {
    var op := OpOf(s, t);
    match s.threads[t].pc
    case Idle => s
    case FindStart => Arrive(s, t, HEAD, s.heap[HEAD].next.ref)
    case Search(pre, cur, snip) =>
      var w := s.heap[cur].next;
      if w.marked then Goto(s, t, Snip(pre, cur, w.ref))
      else if !snip then s
      else if s.heap[cur].key >= op.key then Found(s, t, pre, cur)
      else Arrive(s, t, cur, w.ref)
    case Snip(pre, cur, succ) =>
      if s.heap[pre].next == Word(cur, false)
      then Arrive(Unlink(s, pre, cur, succ), t, pre, succ)
      else Goto(s, t, Search(pre, cur, false))
    case AddAlloc(pre, cur) =>
      Goto(s, t, AddCas(pre, cur, |s.heap|)).(heap := s.heap + [Node(op.key, Word(cur, false))])
    case AddCas(pre, cur, node) =>
      if s.heap[pre].next == Word(cur, false)
      then EffectAt(Link(s, pre, node), t, true, Done(true))
      else Goto(s, t, FindStart)
    case RemoveRead(pre, cur) => Goto(s, t, RemoveMark(pre, cur, s.heap[cur].next.ref))
    case RemoveMark(pre, cur, succ) =>
      if s.heap[cur].next == Word(succ, false)
      then EffectAt(Mark(s, cur, succ), t, true, RemoveSnip(pre, cur, succ))
      else Goto(s, t, FindStart)
    case RemoveSnip(pre, cur, succ) =>
      var s' := if s.heap[pre].next == Word(cur, false) then Unlink(s, pre, cur, succ) else s;
      Goto(s', t, Done(true))
    case Done(result) => s
  }

  /** The successful compare-and-set of `pre->next` from `cur` to `succ`. */
  function Unlink(s: State, pre: int, cur: int, succ: int): State
    requires IsNode(s.heap, pre)
  {
    s.(heap := SetNext(s.heap, pre, Word(succ, false)), chain := s.chain - {cur})
  }

  /** The successful compare-and-set of `pre->next` to a new node. */
  function Link(s: State, pre: int, node: int): State
    requires IsNode(s.heap, pre)
  {
    s.(heap := SetNext(s.heap, pre, Word(node, false)),
       chain := s.chain + {node},
       linked := s.linked + {node})
  }

  /** The successful marking of `cur`. */
  function Mark(s: State, cur: int, succ: int): State
    requires IsNode(s.heap, cur)
  {
    s.(heap := SetNext(s.heap, cur, Word(succ, true)))
  }

  /** A call is made only on an idle thread, with a key strictly between the sentinels. */
  predicate Enabled(s: State, a: Action) {
    a.thread < |s.threads| &&
    var pc := s.threads[a.thread].pc;
    match a
    case Begin(t, op) => pc.Idle? && INT32_MIN < op.key < INT32_MAX
    case Step(t) => !pc.Idle? && !pc.Done?
    case Finish(t) => pc.Done?
  }

  /** A step that would touch anything but a node is not made; `InvSafe` and `RunInv` show that there is none. */
  function Apply(s: State, a: Action): State {
    if !Enabled(s, a) || (!a.Begin? && !HasCall(s, a.thread)) then s else
    match a
    case Begin(t, op) =>
      s.(threads := s.threads[t := Thread(|s.record.calls|, FindStart)], record := Invoke(s.record, op))
    case Step(t) => if Safe(s, t) then StepOf(s, t) else s
    case Finish(t) =>
      Goto(s, t, Idle).(record := Return(s.record, s.threads[t].call, s.threads[t].pc.result))
  }

  function Init(n: nat): State {
    State([Node(INT32_MIN, Word(TAIL, false)), Node(INT32_MAX, Word(NULL, false))],
          seq(n, _ => Thread(0, Idle)), {HEAD, TAIL}, {HEAD, TAIL}, Empty())
  }

  /** The state after `actions`, with `n` threads on a new set. */
  function Run(n: nat, actions: seq<Action>): State {
    if actions == [] then Init(n)
    else Apply(Run(n, actions[..|actions| - 1]), actions[|actions| - 1])
  }

  // ---------- The invariant ----------

  ghost predicate At(heap: seq<Node>, nodes: set<int>, p: int) {
    p in nodes && 0 <= p < |heap|
  }

  ghost predicate Shape(heap: seq<Node>, linked: set<int>, chain: set<int>) {
    NodesOk(heap, linked) && ChainOk(heap, linked, chain)
  }

  ghost predicate NodesOk(heap: seq<Node>, linked: set<int>) {
    && |heap| >= 2
    && heap[HEAD].key == INT32_MIN && !heap[HEAD].next.marked
    && heap[TAIL].key == INT32_MAX && heap[TAIL].next == Word(NULL, false)
    && (forall p :: 2 <= p < |heap| ==> INT32_MIN < heap[p].key < INT32_MAX)
    && (forall p :: p in linked ==> 0 <= p < |heap|)
    && (forall p :: 0 <= p < |heap| && p != TAIL ==> Ascends(heap, linked, p))
  }

  ghost predicate ChainOk(heap: seq<Node>, linked: set<int>, chain: set<int>) {
    && chain <= linked && HEAD in chain && TAIL in chain
    && (forall p :: p in linked ==> 0 <= p < |heap| && (heap[p].next.marked || p in chain))
    && (forall p :: p in chain ==> 0 <= p < |heap| && Joined(heap, chain, p))
  }

  /** The successor of `p` has been in the list and has a larger key. */
  ghost predicate Ascends(heap: seq<Node>, linked: set<int>, p: int)
    requires 0 <= p < |heap|
  {
    At(heap, linked, heap[p].next.ref) && heap[p].key < heap[heap[p].next.ref].key
  }

  /** The key of `p` is its own, and no key of the chain lies between it and that of its successor. */
  ghost predicate Joined(heap: seq<Node>, chain: set<int>, p: int)
    requires 0 <= p < |heap|
  {
    && (p != TAIL ==> At(heap, chain, heap[p].next.ref))
    && forall q :: q in chain ==>
      && 0 <= q < |heap|
      && (heap[p].key == heap[q].key ==> p == q)
      && (p != TAIL && heap[p].key < heap[q].key ==> heap[heap[p].next.ref].key <= heap[q].key)
  }

  /** `k` is the key of an unmarked node of the list. */
  ghost predicate Holds(heap: seq<Node>, chain: set<int>, k: int)
  {
    exists p :: p in chain && 0 <= p < |heap| && p != HEAD && p != TAIL && !heap[p].next.marked && heap[p].key == k
  }

  /** The locals of a thread, against the list. */
  ghost predicate LocalsOk(heap: seq<Node>, linked: set<int>, pc: Pc, op: Op) {
    match pc
    case Idle => true
    case FindStart => true
    case Search(pre, cur, snip) =>
      && At(heap, linked, pre) && At(heap, linked, cur) && pre != TAIL
      && heap[pre].key < op.key && heap[pre].key < heap[cur].key
      && (!snip ==> heap[cur].next.marked)
    case Snip(pre, cur, succ) =>
      && At(heap, linked, pre) && At(heap, linked, cur) && pre != TAIL
      && heap[pre].key < op.key && heap[pre].key < heap[cur].key
      && heap[cur].next == Word(succ, true)
    case AddAlloc(pre, cur) =>
      At(heap, linked, pre) && At(heap, linked, cur) && op.Add? && heap[pre].key < op.key < heap[cur].key
    case AddCas(pre, cur, node) =>
      && At(heap, linked, pre) && At(heap, linked, cur) && op.Add? && heap[pre].key < op.key < heap[cur].key
      && IsNode(heap, node) && node !in linked && heap[node] == Node(op.key, Word(cur, false))
    case RemoveRead(pre, cur) =>
      At(heap, linked, pre) && At(heap, linked, cur) && op.Remove? && heap[pre].key < op.key == heap[cur].key
    case RemoveMark(pre, cur, succ) =>
      At(heap, linked, pre) && At(heap, linked, cur) && op.Remove? && heap[pre].key < op.key == heap[cur].key
    case RemoveSnip(pre, cur, succ) =>
      && At(heap, linked, pre) && At(heap, linked, cur) && op.Remove? && heap[pre].key < op.key == heap[cur].key
      && heap[cur].next == Word(succ, true)
    case Done(result) => true
  }

  /** The result the call of a thread at `pc` is already bound to, if it has taken effect. */
  ghost function Settled(heap: seq<Node>, pc: Pc, op: Op): Option<bool>
  {
    match pc
    case Search(pre, cur, snip) =>
      if op.Remove? && IsNode(heap, cur) && heap[cur].key > op.key then Some(false) else None
    case Snip(pre, cur, succ) =>
      if op.Remove? && IsNode(heap, cur) && heap[cur].key > op.key then Some(false) else None
    case RemoveSnip(pre, cur, succ) => Some(true)
    case Done(result) => Some(result)
    case _ => None
  }

  ghost predicate CallMatches(r: Record<Op, bool>, c: nat, settled: Option<bool>) {
    && c < |r.calls|
    && INT32_MIN < r.calls[c].op.key < INT32_MAX
    && r.calls[c].outcome.None?
    && match settled
       case None => r.calls[c].place.None?
       case Some(b) =>
         && r.calls[c].place.Some? && r.calls[c].place.value < |r.log|
         && r.log[r.calls[c].place.value].result == b
  }

  ghost predicate ThreadOk(s: State, t: nat)
    requires t < |s.threads|
  {
    var th := s.threads[t];
    th.pc.Idle? ||
    (&& HasCall(s, t)
     && LocalsOk(s.heap, s.linked, th.pc, OpOf(s, t))
     && CallMatches(s.record, th.call, Settled(s.heap, th.pc, OpOf(s, t))))
  }

  /** Two active threads work on different calls and hold different new nodes. */
  ghost predicate Apart(a: Thread, b: Thread) {
    a.pc.Idle? || b.pc.Idle? || (a.call != b.call && (a.pc.AddCas? && b.pc.AddCas? ==> a.pc.node != b.pc.node))
  }

  ghost function Contents(s: State): set<int> {
    Replay(s.record.log, {}, SetSpec)
  }

  ghost predicate ThreadsOk(s: State) {
    && (forall t: nat :: t < |s.threads| ==> ThreadOk(s, t))
    && (forall t, u :: 0 <= t < u < |s.threads| ==> Apart(s.threads[t], s.threads[u]))
  }

  /** The calls that have taken effect explain the list: their set is the set of unmarked keys. */
  ghost predicate RecordOk(s: State) {
    && Consistent(s.record)
    && Legal(s.record.log, {}, SetSpec)
    && (forall k :: k in Contents(s) <==> Holds(s.heap, s.chain, k))
  }

  ghost predicate Inv(s: State) {
    Shape(s.heap, s.linked, s.chain) && ThreadsOk(s) && RecordOk(s)
  }

  lemma InitInv(n: nat)
    ensures Inv(Init(n))
  {
  }

  lemma InvSafe(s: State, t: nat)
    requires Inv(s) && t < |s.threads|
    ensures s.threads[t].pc.Idle? || Safe(s, t)
  {
    assert ThreadOk(s, t);
    match s.threads[t].pc
    case FindStart => NextOf(s.heap, s.linked, s.chain, HEAD);
    case Search(pre, cur, snip) => if cur != TAIL { NextOf(s.heap, s.linked, s.chain, cur); }
    case Snip(pre, cur, succ) => NextOf(s.heap, s.linked, s.chain, cur);
    case _ =>
  }

  // ---------- What the four kinds of write do to the list ----------

  /** Nothing a thread relies on is undone: keys stay, marked nodes are frozen, linked nodes stay linked. */
  ghost predicate Grows(heap: seq<Node>, linked: set<int>, heap': seq<Node>, linked': set<int>) {
    && |heap| <= |heap'| && linked <= linked'
    && (forall p :: 0 <= p < |heap| ==> heap'[p].key == heap[p].key)
    && (forall p :: 0 <= p < |heap| && heap[p].next.marked ==> heap'[p] == heap[p])
    && (forall p :: 0 <= p < |heap| && p !in linked' ==> heap'[p] == heap[p])
  }

  lemma NextOf(heap: seq<Node>, linked: set<int>, chain: set<int>, p: int)
    requires Shape(heap, linked, chain) && 0 <= p < |heap| && p != TAIL
    ensures heap[p].next.ref in linked && 0 <= heap[p].next.ref < |heap| && heap[p].key < heap[heap[p].next.ref].key
    ensures p in linked && !heap[p].next.marked ==> p in chain
    ensures p in chain ==> heap[p].next.ref in chain
  {
    assert Ascends(heap, linked, p);
    if p in chain { assert Joined(heap, chain, p); }
  }

  lemma UnlinkShape(s: State, pre: int, cur: int, succ: int)
    requires Shape(s.heap, s.linked, s.chain)
    requires pre in s.linked && cur in s.linked && pre != TAIL
    requires s.heap[pre].next == Word(cur, false) && s.heap[cur].next == Word(succ, true)
    ensures var s' := Unlink(s, pre, cur, succ);
      Shape(s'.heap, s'.linked, s'.chain) && Grows(s.heap, s.linked, s'.heap, s'.linked)
  {
    NextOf(s.heap, s.linked, s.chain, pre);
    NextOf(s.heap, s.linked, s.chain, cur);
    SwingNodes(s.heap, s.linked, pre, Word(succ, false));
    UnlinkChain(s.heap, s.linked, s.chain, pre, cur, succ);
  }

  /** Any write that keeps a word pointing to a linked node with a larger key. */
  lemma SwingNodes(heap: seq<Node>, linked: set<int>, p: int, w: Word)
    requires NodesOk(heap, linked) && 0 <= p < |heap| && p != TAIL && (p == HEAD ==> !w.marked)
    requires At(heap, linked, w.ref) && heap[p].key < heap[w.ref].key
    ensures NodesOk(SetNext(heap, p, w), linked)
  {
    forall q | 0 <= q < |heap| && q != TAIL ensures Ascends(SetNext(heap, p, w), linked, q) {
      assert Ascends(heap, linked, q);
    }
  }

  ghost predicate Window(heap: seq<Node>, chain: set<int>, pre: int, cur: int) {
    && pre in chain && 0 <= pre < |heap| && pre != TAIL && heap[pre].next == Word(cur, false) && 0 <= cur < |heap|
    && heap[pre].key < heap[cur].key
  }

  lemma UnlinkJoined(heap: seq<Node>, chain: set<int>, pre: int, cur: int, succ: int, p: int)
    requires Window(heap, chain, pre, cur) && cur in chain && cur != TAIL && heap[cur].next == Word(succ, true)
    requires p in chain && 0 <= p < |heap| && p != cur && (p != TAIL ==> heap[p].next.ref == cur ==> p == pre)
    requires Joined(heap, chain, p) && Joined(heap, chain, cur) && succ != cur
    ensures Joined(SetNext(heap, pre, Word(succ, false)), chain - {cur}, p)
  {
  }

  /** Only one node of the chain leads to `cur`. */
  lemma OneWay(heap: seq<Node>, chain: set<int>, p: int, q: int, cur: int)
    requires p in chain && q in chain && 0 <= p < |heap| && 0 <= q < |heap| && p != TAIL && q != TAIL
    requires Joined(heap, chain, p) && Joined(heap, chain, q) && IsNode(heap, cur)
    requires heap[p].next.ref == cur == heap[q].next.ref && heap[p].key < heap[cur].key && heap[q].key < heap[cur].key
    ensures p == q
  {
  }

  lemma UnlinkChain(heap: seq<Node>, linked: set<int>, chain: set<int>, pre: int, cur: int, succ: int)
    requires NodesOk(heap, linked) && ChainOk(heap, linked, chain)
    requires Window(heap, chain, pre, cur) && cur in chain && cur != TAIL && heap[cur].next == Word(succ, true)
    ensures ChainOk(SetNext(heap, pre, Word(succ, false)), linked, chain - {cur})
  {
    hide Joined;
    assert Ascends(heap, linked, cur);
    forall p | p in chain - {cur} ensures Joined(SetNext(heap, pre, Word(succ, false)), chain - {cur}, p) {
      if p != TAIL && heap[p].next.ref == cur {
        assert Ascends(heap, linked, p);
        OneWay(heap, chain, p, pre, cur);
      }
      UnlinkJoined(heap, chain, pre, cur, succ, p);
    }
  }

  /** A snip takes out a marked node, so it takes out no key. */
  lemma UnlinkHolds(s: State, pre: int, cur: int, succ: int)
    requires IsNode(s.heap, pre) && IsNode(s.heap, cur)
    requires s.heap[pre].next == Word(cur, false) && s.heap[cur].next.marked
    ensures var s' := Unlink(s, pre, cur, succ); forall k :: Holds(s.heap, s.chain, k) <==> Holds(s'.heap, s'.chain, k)
  {
    var s' := Unlink(s, pre, cur, succ);
    forall k ensures Holds(s.heap, s.chain, k) <==> Holds(s'.heap, s'.chain, k) {
      if Holds(s.heap, s.chain, k) {
        var p :| p in s.chain && 0 <= p < |s.heap| && p != HEAD && p != TAIL && !s.heap[p].next.marked
          && s.heap[p].key == k;
        assert p in s'.chain && !s'.heap[p].next.marked;
      }
    }
  }

  lemma LinkShape(s: State, pre: int, cur: int, node: int)
    requires Shape(s.heap, s.linked, s.chain)
    requires pre in s.linked && pre != TAIL && s.heap[pre].next == Word(cur, false)
    requires IsNode(s.heap, node) && node !in s.linked && s.heap[node].next == Word(cur, false)
    requires s.heap[pre].key < s.heap[node].key
    ensures var s' := Link(s, pre, node);
      Shape(s'.heap, s'.linked, s'.chain) && Grows(s.heap, s.linked, s'.heap, s'.linked)
  {
    NextOf(s.heap, s.linked, s.chain, pre);
    NextOf(s.heap, s.linked, s.chain, node);
    WidenNodes(s.heap, s.linked, node);
    SwingNodes(s.heap, s.linked + {node}, pre, Word(node, false));
    LinkChain(s.heap, s.linked, s.chain, pre, cur, node);
  }

  lemma WidenNodes(heap: seq<Node>, linked: set<int>, node: int)
    requires NodesOk(heap, linked) && 0 <= node < |heap|
    ensures NodesOk(heap, linked + {node})
  {
    forall q | 0 <= q < |heap| && q != TAIL ensures Ascends(heap, linked + {node}, q) {
      assert Ascends(heap, linked, q);
    }
  }

  lemma LinkJoined(heap: seq<Node>, chain: set<int>, pre: int, cur: int, node: int, p: int)
    requires Window(heap, chain, pre, cur) && IsNode(heap, node) && node !in chain
      && heap[node].next == Word(cur, false)
    requires heap[pre].key < heap[node].key < heap[cur].key && node != TAIL
    requires 0 <= p < |heap| && Joined(heap, chain, pre) && (p == node || (p in chain && Joined(heap, chain, p)))
    ensures Joined(SetNext(heap, pre, Word(node, false)), chain + {node}, p)
  {
  }

  lemma LinkChain(heap: seq<Node>, linked: set<int>, chain: set<int>, pre: int, cur: int, node: int)
    requires ChainOk(heap, linked, chain)
    requires Window(heap, chain, pre, cur) && IsNode(heap, node) && node !in linked
      && heap[node].next == Word(cur, false)
    requires heap[pre].key < heap[node].key < heap[cur].key && node != TAIL
    ensures ChainOk(SetNext(heap, pre, Word(node, false)), linked + {node}, chain + {node})
  {
    hide Joined;
    forall p | p in chain + {node} ensures Joined(SetNext(heap, pre, Word(node, false)), chain + {node}, p) {
      LinkJoined(heap, chain, pre, cur, node, p);
    }
  }

  lemma LinkHolds(s: State, pre: int, cur: int, node: int)
    requires IsNode(s.heap, pre) && IsNode(s.heap, node)
    requires s.heap[pre].next == Word(cur, false) && !s.heap[node].next.marked && pre != node && node > TAIL
    ensures var s' := Link(s, pre, node);
      forall k :: Holds(s'.heap, s'.chain, k) <==> Holds(s.heap, s.chain, k) || k == s.heap[node].key
  {
    var s' := Link(s, pre, node);
    forall k ensures Holds(s'.heap, s'.chain, k) <==> Holds(s.heap, s.chain, k) || k == s.heap[node].key {
      if Holds(s.heap, s.chain, k) {
        var p :| p in s.chain && 0 <= p < |s.heap| && p != HEAD && p != TAIL && !s.heap[p].next.marked
          && s.heap[p].key == k;
        assert p in s'.chain && !s'.heap[p].next.marked;
      }
      if k == s.heap[node].key {
        assert node in s'.chain && !s'.heap[node].next.marked;
      }
      if Holds(s'.heap, s'.chain, k) && k != s.heap[node].key {
        var p :| p in s'.chain && 0 <= p < |s'.heap| && p != HEAD && p != TAIL && !s'.heap[p].next.marked
          && s'.heap[p].key == k;
        assert p in s.chain;
      }
    }
  }

  lemma MarkShape(s: State, cur: int, succ: int)
    requires Shape(s.heap, s.linked, s.chain)
    requires cur in s.linked && cur != HEAD && cur != TAIL && s.heap[cur].next == Word(succ, false)
    ensures var s' := Mark(s, cur, succ);
      Shape(s'.heap, s'.linked, s'.chain) && Grows(s.heap, s.linked, s'.heap, s'.linked)
  {
    NextOf(s.heap, s.linked, s.chain, cur);
    SwingNodes(s.heap, s.linked, cur, Word(succ, true));
    MarkChain(s.heap, s.linked, s.chain, cur, succ);
  }

  lemma MarkChain(heap: seq<Node>, linked: set<int>, chain: set<int>, cur: int, succ: int)
    requires ChainOk(heap, linked, chain) && IsNode(heap, cur) && heap[cur].next.ref == succ
    ensures ChainOk(SetNext(heap, cur, Word(succ, true)), linked, chain)
  {
    forall p | p in chain ensures Joined(SetNext(heap, cur, Word(succ, true)), chain, p) {
      assert Joined(heap, chain, p);
    }
  }

  lemma MarkHolds(s: State, cur: int, succ: int)
    requires Shape(s.heap, s.linked, s.chain)
    requires cur in s.linked && cur != HEAD && cur != TAIL && s.heap[cur].next == Word(succ, false)
    ensures Holds(s.heap, s.chain, s.heap[cur].key)
    ensures var s' := Mark(s, cur, succ);
      forall k :: Holds(s'.heap, s'.chain, k) <==> Holds(s.heap, s.chain, k) && k != s.heap[cur].key
  {
    var s' := Mark(s, cur, succ);
    assert cur in s.chain && Joined(s.heap, s.chain, cur);
    forall k ensures Holds(s'.heap, s'.chain, k) <==> Holds(s.heap, s.chain, k) && k != s.heap[cur].key {
      if Holds(s'.heap, s'.chain, k) {
        var p :| p in s'.chain && 0 <= p < |s'.heap| && p != HEAD && p != TAIL && !s'.heap[p].next.marked
          && s'.heap[p].key == k;
        assert p != cur && p in s.chain;
      }
      if Holds(s.heap, s.chain, k) && k != s.heap[cur].key {
        var p :| p in s.chain && 0 <= p < |s.heap| && p != HEAD && p != TAIL && !s.heap[p].next.marked
          && s.heap[p].key == k;
        assert p in s'.chain && s'.heap[p] == s.heap[p];
      }
    }
  }

  /** Between an unmarked node and its successor there is no key. */
  lemma AbsentBetween(heap: seq<Node>, linked: set<int>, chain: set<int>, pre: int, cur: int, k: int)
    requires Shape(heap, linked, chain)
    requires pre in linked && pre != TAIL && heap[pre].next == Word(cur, false) && IsNode(heap, cur)
    requires heap[pre].key < k < heap[cur].key
    ensures !Holds(heap, chain, k)
  {
    NextOf(heap, linked, chain, pre);
    assert Joined(heap, chain, pre);
  }

  // ---------- Putting a step together ----------

  ghost predicate RecordGrows(r: Record<Op, bool>, r': Record<Op, bool>, c: nat) {
    && |r.calls| <= |r'.calls| && r.log <= r'.log
    && (forall d :: 0 <= d < |r.calls| && d != c ==> r'.calls[d] == r.calls[d])
  }

  /** A step of `t` leaves the other threads as they were. */
  lemma ThreadsKept(s: State, s': State, t: nat)
    requires ThreadsOk(s) && t < |s.threads| == |s'.threads|
    requires forall u :: 0 <= u < |s.threads| && u != t ==> s'.threads[u] == s.threads[u]
    requires Grows(s.heap, s.linked, s'.heap, s'.linked)
    requires s'.linked <= s.linked + (if s.threads[t].pc.AddCas? then {s.threads[t].pc.node} else {})
    requires RecordGrows(s.record, s'.record, s'.threads[t].call)
    requires s'.threads[t].call >= |s.record.calls|
      || (!s.threads[t].pc.Idle? && s'.threads[t].call == s.threads[t].call)
    requires s'.threads[t].pc.AddCas? ==> s'.threads[t].pc.node >= |s.heap|
    requires ThreadOk(s', t)
    ensures ThreadsOk(s')
  {
    forall u: nat | u < |s'.threads| ensures ThreadOk(s', u) {
      if u != t { OtherKept(s, s', t, u); }
    }
    hide Grows;
    forall a, b | 0 <= a < b < |s'.threads| ensures Apart(s'.threads[a], s'.threads[b]) {
      assert Apart(s.threads[a], s.threads[b]);
      assert ThreadOk(s, a) && ThreadOk(s, b);
    }
  }

  lemma OtherKept(s: State, s': State, t: nat, u: nat)
    requires ThreadsOk(s) && t < |s.threads| == |s'.threads| && u < |s.threads| && u != t
      && s'.threads[u] == s.threads[u]
    requires Grows(s.heap, s.linked, s'.heap, s'.linked)
    requires s'.linked <= s.linked + (if s.threads[t].pc.AddCas? then {s.threads[t].pc.node} else {})
    requires RecordGrows(s.record, s'.record, s'.threads[t].call)
    requires s'.threads[t].call >= |s.record.calls|
      || (!s.threads[t].pc.Idle? && s'.threads[t].call == s.threads[t].call)
    ensures ThreadOk(s', u)
  {
    assert ThreadOk(s, u) && ThreadOk(s, t);
    assert Apart(s.threads[if t < u then t else u], s.threads[if t < u then u else t]);
    if !s.threads[u].pc.Idle? {
      OtherOk(s, s', t, u);
    }
  }

  lemma OtherOk(s: State, s': State, t: nat, u: nat)
    requires u < |s.threads| == |s'.threads| && t < |s'.threads|
    requires s'.threads[u] == s.threads[u] && !s.threads[u].pc.Idle? && ThreadOk(s, u)
    requires Grows(s.heap, s.linked, s'.heap, s'.linked)
    requires s.threads[u].pc.AddCas? ==> s.threads[u].pc.node !in s'.linked
    requires RecordGrows(s.record, s'.record, s'.threads[t].call) && s'.threads[t].call != s.threads[u].call
    ensures ThreadOk(s', u)
  {
    LocalsStable(s.heap, s.linked, s'.heap, s'.linked, s.threads[u].pc, OpOf(s, u));
  }

  lemma LocalsStable(heap: seq<Node>, linked: set<int>, heap': seq<Node>, linked': set<int>, pc: Pc, op: Op)
    requires Grows(heap, linked, heap', linked') && LocalsOk(heap, linked, pc, op)
    requires pc.AddCas? ==> pc.node !in linked'
    ensures LocalsOk(heap', linked', pc, op) && Settled(heap', pc, op) == Settled(heap, pc, op)
  {
  }

  /** What the invariant says of one active thread. */
  lemma Facts(s: State, t: nat)
    requires Inv(s) && t < |s.threads| && !s.threads[t].pc.Idle?
    ensures Safe(s, t) && Shape(s.heap, s.linked, s.chain) && ThreadsOk(s) && RecordOk(s)
    ensures LocalsOk(s.heap, s.linked, s.threads[t].pc, OpOf(s, t))
    ensures INT32_MIN < OpOf(s, t).key < INT32_MAX
    ensures |s.heap| >= 2 && s.heap[HEAD].key == INT32_MIN && s.heap[TAIL].key == INT32_MAX
    ensures !s.heap[HEAD].next.marked && !s.heap[TAIL].next.marked
  {
    assert ThreadOk(s, t);
    InvSafe(s, t);
  }

  lemma GotoInv(s: State, t: nat, pc: Pc)
    requires Inv(s) && t < |s.threads| && !s.threads[t].pc.Idle? && !pc.Idle? && !pc.AddCas? && HasCall(s, t)
    requires LocalsOk(s.heap, s.linked, pc, OpOf(s, t))
    requires Settled(s.heap, pc, OpOf(s, t)) == Settled(s.heap, s.threads[t].pc, OpOf(s, t))
    ensures Inv(Goto(s, t, pc))
  {
    hide Shape, RecordOk;
    assert ThreadOk(s, t);
    ThreadsKept(s, Goto(s, t, pc), t);
    GotoRecord(s, t, pc);
  }

  lemma GotoRecord(s: State, t: nat, pc: Pc)
    requires RecordOk(s) && t < |s.threads|
    ensures RecordOk(Goto(s, t, pc))
  {
  }

  /** A call takes effect together with the write that turned `s` into `l`. */
  lemma EffectInv(s: State, l: State, t: nat, result: bool, pc: Pc)
    requires Inv(s) && t < |s.threads| && !s.threads[t].pc.Idle? && !pc.Idle? && !pc.AddCas? && HasCall(s, t)
    requires l.threads == s.threads && l.record == s.record
    requires Shape(l.heap, l.linked, l.chain) && Grows(s.heap, s.linked, l.heap, l.linked)
    requires l.linked <= s.linked + (if s.threads[t].pc.AddCas? then {s.threads[t].pc.node} else {})
    requires LocalsOk(l.heap, l.linked, pc, OpOf(s, t))
    requires Settled(s.heap, s.threads[t].pc, OpOf(s, t)) == None && Settled(l.heap, pc, OpOf(s, t)) == Some(result)
    requires SetSpec(Contents(s), OpOf(s, t)).1 == result
    requires forall k :: k in SetSpec(Contents(s), OpOf(s, t)).0 <==> Holds(l.heap, l.chain, k)
    ensures Inv(EffectAt(l, t, result, pc))
  {
    hide Shape, RecordOk, Grows, Consistent, Legal, SetSpec;
    assert ThreadOk(s, t);
    EffectRecord(s, l, t, result, pc);
    ThreadsKept(s, EffectAt(l, t, result, pc), t);
  }

  lemma EffectRecord(s: State, l: State, t: nat, result: bool, pc: Pc)
    requires RecordOk(s) && HasCall(s, t)
    requires s.record.calls[s.threads[t].call].place.None? && s.record.calls[s.threads[t].call].outcome.None?
    requires l.threads == s.threads && l.record == s.record
    requires SetSpec(Contents(s), OpOf(s, t)).1 == result
    requires forall k :: k in SetSpec(Contents(s), OpOf(s, t)).0 <==> Holds(l.heap, l.chain, k)
    ensures RecordOk(EffectAt(l, t, result, pc))
  {
    hide Consistent, Legal, SetSpec, Holds, Replay, TakeEffect;
    TakeEffectConsistent(s.record, s.threads[t].call, result, {}, SetSpec);
  }

  lemma FalseKeeps(s: State, t: nat)
    requires RecordOk(s) && HasCall(s, t)
    requires Holds(s.heap, s.chain, OpOf(s, t).key) <==> OpOf(s, t).Add?
    ensures !SetSpec(Contents(s), OpOf(s, t)).1
    ensures forall k :: k in SetSpec(Contents(s), OpOf(s, t)).0 <==> Holds(s.heap, s.chain, k)
  {
    hide Consistent, Legal;
    assert OpOf(s, t).key in Contents(s) <==> OpOf(s, t).Add?;
  }

  /** A call that leaves the set as it is takes effect. */
  lemma FalseInv(s: State, t: nat, pc: Pc)
    requires Inv(s) && t < |s.threads| && !s.threads[t].pc.Idle? && !pc.Idle? && !pc.AddCas? && HasCall(s, t)
    requires LocalsOk(s.heap, s.linked, pc, OpOf(s, t))
    requires Settled(s.heap, s.threads[t].pc, OpOf(s, t)) == None && Settled(s.heap, pc, OpOf(s, t)) == Some(false)
    requires Holds(s.heap, s.chain, OpOf(s, t).key) <==> OpOf(s, t).Add?
    ensures Inv(EffectAt(s, t, false, pc))
  {
    hide Inv, ThreadsOk, Shape, Consistent, Legal;
    Facts(s, t);
    FalseKeeps(s, t);
    EffectInv(s, s, t, false, pc);
  }

  /** A call is pending exactly while its result is open. */
  lemma SettledPending(s: State, t: nat)
    requires Inv(s) && t < |s.threads| && !s.threads[t].pc.Idle?
    ensures HasCall(s, t)
    ensures Pending(s, t) <==> Settled(s.heap, s.threads[t].pc, OpOf(s, t)) == None
  {
    assert ThreadOk(s, t);
  }

  lemma ArriveInv(s: State, t: nat, pre: int, cur: int)
    requires Inv(s) && t < |s.threads| && !s.threads[t].pc.Idle? && HasCall(s, t)
    requires pre in s.linked && IsNode(s.heap, pre) && pre != TAIL
    requires s.heap[pre].next == Word(cur, false) && s.heap[pre].key < OpOf(s, t).key
    requires IsNode(s.heap, cur)
    requires var settled := Settled(s.heap, s.threads[t].pc, OpOf(s, t));
      settled == None || (settled == Some(false) && OpOf(s, t).Remove? && s.heap[cur].key > OpOf(s, t).key)
    ensures Inv(Arrive(s, t, pre, cur))
  {
    hide Inv, ThreadsOk, RecordOk, Shape;
    Facts(s, t);
    NextOf(s.heap, s.linked, s.chain, pre);
    SettledPending(s, t);
    var op := OpOf(s, t);
    if op.Remove? && s.heap[cur].key > op.key && Pending(s, t) {
      AbsentBetween(s.heap, s.linked, s.chain, pre, cur, op.key);
      FalseInv(s, t, Search(pre, cur, true));
    } else {
      GotoInv(s, t, Search(pre, cur, true));
    }
  }

  lemma SearchInv(s: State, t: nat)
    requires Inv(s) && t < |s.threads| && s.threads[t].pc.Search?
    ensures Safe(s, t) && Inv(StepOf(s, t))
  {
    hide Inv, ThreadsOk, RecordOk, Shape;
    Facts(s, t);
    var Search(pre, cur, snip) := s.threads[t].pc;
    var op := OpOf(s, t);
    if s.heap[cur].next.marked {
      GotoInv(s, t, Snip(pre, cur, s.heap[cur].next.ref));
    } else if snip {
      if s.heap[cur].key >= op.key {
        FoundInv(s, t, pre, cur);
      } else {
        ArriveInv(s, t, cur, s.heap[cur].next.ref);
      }
    }
  }

  lemma HoldsAt(heap: seq<Node>, linked: set<int>, chain: set<int>, p: int)
    requires Shape(heap, linked, chain) && p in linked && 0 <= p < |heap| && p != HEAD && p != TAIL
      && !heap[p].next.marked
    ensures Holds(heap, chain, heap[p].key)
  {
    assert p in chain;
  }

  lemma FoundInv(s: State, t: nat, pre: int, cur: int)
    requires Inv(s) && t < |s.threads| && s.threads[t].pc == Search(pre, cur, true)
    requires IsNode(s.heap, cur) && !s.heap[cur].next.marked && HasCall(s, t) && s.heap[cur].key >= OpOf(s, t).key
    ensures Inv(Found(s, t, pre, cur))
  {
    hide Inv, ThreadsOk, RecordOk, Shape;
    Facts(s, t);
    var op := OpOf(s, t);
    match op {
      case Add(k) =>
        if s.heap[cur].key == k {
          HoldsAt(s.heap, s.linked, s.chain, cur);
          FalseInv(s, t, Done(false));
        } else {
          GotoInv(s, t, AddAlloc(pre, cur));
        }
      case Remove(k) =>
        if s.heap[cur].key != k { GotoInv(s, t, Done(false)); } else { GotoInv(s, t, RemoveRead(pre, cur)); }
    }
  }

  lemma InvOf(s: State)
    requires Shape(s.heap, s.linked, s.chain) && ThreadsOk(s) && RecordOk(s)
    ensures Inv(s)
  {
  }

  lemma UnlinkRecord(s: State, pre: int, cur: int, succ: int)
    requires RecordOk(s) && IsNode(s.heap, pre) && IsNode(s.heap, cur)
    requires s.heap[pre].next == Word(cur, false) && s.heap[cur].next.marked
    ensures RecordOk(Unlink(s, pre, cur, succ))
  {
    hide Consistent, Legal;
    UnlinkHolds(s, pre, cur, succ);
  }

  lemma UnlinkThreads(s: State, t: nat, pre: int, cur: int, succ: int)
    requires ThreadsOk(s) && t < |s.threads|
      && (s.threads[t].pc == Snip(pre, cur, succ) || s.threads[t].pc == RemoveSnip(pre, cur, succ))
    requires IsNode(s.heap, pre)
    requires var s' := Unlink(s, pre, cur, succ); Grows(s.heap, s.linked, s'.heap, s'.linked)
    ensures ThreadsOk(Unlink(s, pre, cur, succ))
  {
    var s' := Unlink(s, pre, cur, succ);
    assert ThreadOk(s, t);
    LocalsStable(s.heap, s.linked, s'.heap, s'.linked, s.threads[t].pc, OpOf(s, t));
    assert ThreadOk(s', t);
    hide Grows, ThreadOk;
    ThreadsKept(s, s', t);
  }

  /** The snip at the end of `find`'s inner loop, and the one that ends a removal. */
  lemma UnlinkInv(s: State, t: nat, pre: int, cur: int, succ: int)
    requires Inv(s) && t < |s.threads|
      && (s.threads[t].pc == Snip(pre, cur, succ) || s.threads[t].pc == RemoveSnip(pre, cur, succ))
    requires HasCall(s, t) && IsNode(s.heap, pre) && s.heap[pre].next == Word(cur, false)
    ensures Inv(Unlink(s, pre, cur, succ))
  {
    hide Inv, ThreadsOk, RecordOk, Shape, Grows;
    Facts(s, t);
    UnlinkShape(s, pre, cur, succ);
    UnlinkRecord(s, pre, cur, succ);
    UnlinkThreads(s, t, pre, cur, succ);
    InvOf(Unlink(s, pre, cur, succ));
  }

  lemma SnipInv(s: State, t: nat)
    requires Inv(s) && t < |s.threads| && s.threads[t].pc.Snip?
    ensures Safe(s, t) && Inv(StepOf(s, t))
  {
    hide Inv, ThreadsOk, RecordOk, Shape;
    Facts(s, t);
    var Snip(pre, cur, succ) := s.threads[t].pc;
    if s.heap[pre].next == Word(cur, false) {
      NextOf(s.heap, s.linked, s.chain, cur);
      UnlinkInv(s, t, pre, cur, succ);
      ArriveInv(Unlink(s, pre, cur, succ), t, pre, succ);
    } else {
      GotoInv(s, t, Search(pre, cur, false));
    }
  }

  lemma AllocShape(heap: seq<Node>, linked: set<int>, chain: set<int>, n: Node)
    requires Shape(heap, linked, chain)
    requires INT32_MIN < n.key < INT32_MAX && At(heap, linked, n.next.ref) && n.key < heap[n.next.ref].key
    ensures Shape(heap + [n], linked, chain) && Grows(heap, linked, heap + [n], linked)
  {
    forall p | 0 <= p < |heap + [n]| && p != TAIL ensures Ascends(heap + [n], linked, p) {
      assert p < |heap| ==> Ascends(heap, linked, p);
    }
    forall p | p in chain ensures Joined(heap + [n], chain, p) {
      assert Joined(heap, chain, p);
    }
  }

  lemma AllocHolds(heap: seq<Node>, linked: set<int>, chain: set<int>, n: Node)
    requires ChainOk(heap, linked, chain)
    ensures forall k :: Holds(heap + [n], chain, k) <==> Holds(heap, chain, k)
  {
    forall k ensures Holds(heap + [n], chain, k) <==> Holds(heap, chain, k) {
      if Holds(heap, chain, k) {
        var p :| p in chain && 0 <= p < |heap| && p != HEAD && p != TAIL && !heap[p].next.marked && heap[p].key == k;
        assert p in chain && (heap + [n])[p] == heap[p];
      }
    }
  }

  lemma AllocRecord(s: State, t: nat)
    requires RecordOk(s) && Shape(s.heap, s.linked, s.chain) && Safe(s, t) && s.threads[t].pc.AddAlloc?
    ensures RecordOk(StepOf(s, t))
  {
    hide Consistent, Legal;
    AllocHolds(s.heap, s.linked, s.chain, Node(OpOf(s, t).key, Word(s.threads[t].pc.cur, false)));
  }

  lemma AllocThread(s: State, t: nat)
    requires ThreadsOk(s) && Shape(s.heap, s.linked, s.chain) && Safe(s, t) && s.threads[t].pc.AddAlloc?
    requires var s' := StepOf(s, t); Grows(s.heap, s.linked, s'.heap, s'.linked)
    ensures ThreadOk(StepOf(s, t), t)
  {
    var s' := StepOf(s, t);
    assert ThreadOk(s, t);
    assert |s.heap| !in s.linked;
    hide ThreadsOk, Shape;
    LocalsStable(s.heap, s.linked, s'.heap, s'.linked, s.threads[t].pc, OpOf(s, t));
    hide Grows;
  }

  lemma AllocThreads(s: State, t: nat)
    requires ThreadsOk(s) && Shape(s.heap, s.linked, s.chain) && Safe(s, t) && s.threads[t].pc.AddAlloc?
    requires var s' := StepOf(s, t); Grows(s.heap, s.linked, s'.heap, s'.linked)
    ensures ThreadsOk(StepOf(s, t))
  {
    hide Grows, ThreadOk, Shape, ThreadsOk, LocalsOk;
    AllocThread(s, t);
    ThreadsKept(s, StepOf(s, t), t);
  }

  lemma AllocInv(s: State, t: nat)
    requires Inv(s) && t < |s.threads| && s.threads[t].pc.AddAlloc?
    ensures Safe(s, t) && Inv(StepOf(s, t))
  {
    hide Inv, ThreadsOk, RecordOk, Shape, Grows;
    Facts(s, t);
    var AddAlloc(pre, cur) := s.threads[t].pc;
    var n := Node(OpOf(s, t).key, Word(cur, false));
    AllocShape(s.heap, s.linked, s.chain, n);
    AllocRecord(s, t);
    AllocThreads(s, t);
    InvOf(StepOf(s, t));
  }

  /** Linking a new node is what the addition of its key does to the set. */
  lemma LinkEffect(s: State, t: nat, pre: int, cur: int, node: int)
    requires Shape(s.heap, s.linked, s.chain) && RecordOk(s) && HasCall(s, t)
    requires pre in s.linked && IsNode(s.heap, pre) && pre != TAIL && s.heap[pre].next == Word(cur, false)
    requires IsNode(s.heap, node) && node > TAIL && node != pre && s.heap[node].next == Word(cur, false)
    requires s.heap[pre].key < s.heap[node].key
    requires OpOf(s, t) == Add(s.heap[node].key)
    ensures SetSpec(Contents(s), OpOf(s, t)).1
    ensures var l := Link(s, pre, node);
      forall k :: k in SetSpec(Contents(s), OpOf(s, t)).0 <==> Holds(l.heap, l.chain, k)
  {
    hide Consistent, Legal;
    NextOf(s.heap, s.linked, s.chain, node);
    AbsentBetween(s.heap, s.linked, s.chain, pre, cur, s.heap[node].key);
    LinkHolds(s, pre, cur, node);
  }

  lemma AddCasInv(s: State, t: nat)
    requires Inv(s) && t < |s.threads| && s.threads[t].pc.AddCas?
    ensures Safe(s, t) && Inv(StepOf(s, t))
  {
    hide Inv, ThreadsOk, RecordOk, Shape, Grows, SetSpec;
    Facts(s, t);
    var AddCas(pre, cur, node) := s.threads[t].pc;
    if s.heap[pre].next == Word(cur, false) {
      LinkShape(s, pre, cur, node);
      LinkEffect(s, t, pre, cur, node);
      EffectInv(s, Link(s, pre, node), t, true, Done(true));
    } else {
      GotoInv(s, t, FindStart);
    }
  }

  /** Marking `cur` is what the removal of its key does to the set. */
  lemma MarkEffect(s: State, t: nat, cur: int, succ: int)
    requires Shape(s.heap, s.linked, s.chain) && RecordOk(s) && HasCall(s, t)
    requires cur in s.linked && cur != HEAD && cur != TAIL && s.heap[cur].next == Word(succ, false)
    requires OpOf(s, t) == Remove(s.heap[cur].key)
    ensures SetSpec(Contents(s), OpOf(s, t)).1
    ensures var l := Mark(s, cur, succ);
      forall k :: k in SetSpec(Contents(s), OpOf(s, t)).0 <==> Holds(l.heap, l.chain, k)
  {
    hide Consistent, Legal;
    MarkHolds(s, cur, succ);
  }

  lemma RemoveMarkInv(s: State, t: nat)
    requires Inv(s) && t < |s.threads| && s.threads[t].pc.RemoveMark?
    ensures Safe(s, t) && Inv(StepOf(s, t))
  {
    hide Inv, ThreadsOk, RecordOk, Shape, Grows, SetSpec;
    Facts(s, t);
    var RemoveMark(pre, cur, succ) := s.threads[t].pc;
    if s.heap[cur].next == Word(succ, false) {
      MarkShape(s, cur, succ);
      MarkEffect(s, t, cur, succ);
      EffectInv(s, Mark(s, cur, succ), t, true, RemoveSnip(pre, cur, succ));
    } else {
      GotoInv(s, t, FindStart);
    }
  }

  lemma RemoveSnipInv(s: State, t: nat)
    requires Inv(s) && t < |s.threads| && s.threads[t].pc.RemoveSnip?
    ensures Safe(s, t) && Inv(StepOf(s, t))
  {
    hide Inv, ThreadsOk, RecordOk, Shape;
    Facts(s, t);
    var RemoveSnip(pre, cur, succ) := s.threads[t].pc;
    if s.heap[pre].next == Word(cur, false) {
      UnlinkInv(s, t, pre, cur, succ);
      GotoInv(Unlink(s, pre, cur, succ), t, Done(true));
    } else {
      GotoInv(s, t, Done(true));
    }
  }

  lemma StepInv(s: State, t: nat)
    requires Inv(s) && t < |s.threads| && !s.threads[t].pc.Idle? && !s.threads[t].pc.Done?
    ensures Safe(s, t) && Inv(StepOf(s, t))
  {
    match s.threads[t].pc
    case FindStart =>
      assert ThreadOk(s, t);
      NextOf(s.heap, s.linked, s.chain, HEAD);
      ArriveInv(s, t, HEAD, s.heap[HEAD].next.ref);
    case Search(_, _, _) => SearchInv(s, t);
    case Snip(_, _, _) => SnipInv(s, t);
    case AddAlloc(_, _) => AllocInv(s, t);
    case AddCas(_, _, _) => AddCasInv(s, t);
    case RemoveRead(pre, cur) => assert ThreadOk(s, t); GotoInv(s, t, RemoveMark(pre, cur, s.heap[cur].next.ref));
    case RemoveMark(_, _, _) => RemoveMarkInv(s, t);
    case RemoveSnip(_, _, _) => RemoveSnipInv(s, t);
  }

  lemma ApplyInv(s: State, a: Action)
    requires Inv(s)
    ensures Inv(Apply(s, a))
  {
    if Enabled(s, a) {
      match a
      case Begin(t, op) => BeginInv(s, t, op);
      case Step(t) => hide Inv; StepInv(s, t);
      case Finish(t) => FinishInv(s, t);
    }
  }

  lemma BeginInv(s: State, t: nat, op: Op)
    requires Inv(s) && Enabled(s, Begin(t, op))
    ensures Inv(Apply(s, Begin(t, op)))
  {
    var s' := Apply(s, Begin(t, op));
    InvokeConsistent(s.record, op);
    assert RecordOk(s');
    hide Shape, RecordOk;
    ThreadsKept(s, s', t);
  }

  lemma FinishInv(s: State, t: nat)
    requires Inv(s) && Enabled(s, Finish(t))
    ensures Inv(Apply(s, Finish(t)))
  {
    var s' := Apply(s, Finish(t));
    assert ThreadOk(s, t);
    ReturnConsistent(s.record, s.threads[t].call, s.threads[t].pc.result);
    assert RecordOk(s');
    hide Shape, RecordOk;
    ThreadsKept(s, s', t);
  }

  /** No step writes to a marked word: every compare-and-set expects an unmarked one. */
  lemma StepFreezes(s: State, a: Action, p: int)
    requires Inv(s) && IsNode(s.heap, p) && s.heap[p].next.marked
    ensures IsNode(Apply(s, a).heap, p) && Apply(s, a).heap[p] == s.heap[p]
  {
    hide Inv;
    if Enabled(s, a) { InvSafe(s, a.thread); }
  }

  /** Every reachable state satisfies the invariant. */
  lemma {:induction false} RunInv(n: nat, actions: seq<Action>)
    ensures Inv(Run(n, actions))
  {
    hide Inv, Apply;
    if actions == [] {
      InitInv(n);
    } else {
      RunInv(n, actions[..|actions| - 1]);
      ApplyInv(Run(n, actions[..|actions| - 1]), actions[|actions| - 1]);
    }
  }
}
