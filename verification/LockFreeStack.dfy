/**
 * `LockFreeStack`: a linked stack whose head word packs a pointer with an external count, each node
 * holding an internal count. A popper counts itself in before it reads a node, and whoever
 * brings the total to zero deletes the node. Any number of threads push and pop; every atomic access and
 * every access to a shared node is one step.
 *
 * A deleted node leaves `heap`, and its address may be given to a new node at once. `list`, `born`, `freed`,
 * `record` and the node fields `id` and `stage` are bookkeeping: no branch of a step reads them.
 */
module LockFreeStack {
  import opened Options
  import opened Linearizability

  type Value = int

  const NULL: nat := 0

  /** External counts are 16 bits wide, addresses 48. */
  const COUNT_LIMIT: nat := 0x1_0000
  const ADDRESS_LIMIT: nat := 0x1_0000_0000_0000

  datatype CountedPtr = CountedPtr(ptr: nat, count: nat)

  /**
   * What has become of a node: owned by its pusher, on the stack, taken by its popper, left to its holders, or about
   * to be deleted.
   */
  datatype Stage = Private(owner: nat) | Listed | Popping(owner: nat) | Counted | Dying(owner: nat)

  datatype Node = Node(value: Option<Value>, internal: int, next: CountedPtr, id: nat, stage: Stage)

  datatype Op = Push(value: Value) | Pop

  datatype Pc =
    | Idle
    | PushAlloc
    | PushLoad(node: nat)
    | PushCas(node: nat)
    | PopLoad
    | PopCount(seen: CountedPtr)
    | PopReadNext(seen: CountedPtr)
    | PopCas(seen: CountedPtr, next: CountedPtr)
    | PopTake(seen: CountedPtr)
    | PopAdd(seen: CountedPtr, taken: Option<Value>)
    | PopDelete(node: nat, taken: Option<Value>)
    | PopRelease(node: nat, reload: CountedPtr)
    | PopReleaseDelete(node: nat, reload: CountedPtr)
    | Done(result: Option<Value>)

  datatype Thread = Thread(call: nat, pc: Pc)

  datatype State = State(
    heap: map<nat, Node>,
    head: CountedPtr,
    threads: seq<Thread>,
    list: seq<nat>,
    born: nat,
    freed: seq<nat>,
    record: Record<Op, Option<Value>>)

  /** A step may be told which address an allocation returns, and that a weak compare-and-set fails spuriously. */
  datatype Action = Begin(thread: nat, op: Op) | Step(thread: nat, address: nat, spurious: bool) | Finish(thread: nat)

  /** The sequential stack the calls are measured against; the top comes first. */
  function StackSpec(values: seq<Value>, op: Op): (seq<Value>, Option<Value>) {
    match op
    case Push(v) => ([v] + values, None)
    case Pop => if values == [] then ([], None) else (values[1..], Some(values[0]))
  }

  // ---------- Steps ----------

  predicate HasCall(s: State, t: nat) {
    t < |s.threads| && s.threads[t].call < |s.record.calls|
  }

  function OpOf(s: State, t: nat): Op
    requires HasCall(s, t)
  {
    s.record.calls[s.threads[t].call].op
  }

  function Goto(s: State, t: nat, pc: Pc): State
    requires t < |s.threads|
  {
    s.(threads := s.threads[t := s.threads[t].(pc := pc)])
  }

  function EffectAt(s: State, t: nat, result: Option<Value>, pc: Pc): State
    requires HasCall(s, t)
  {
    Goto(s, t, pc).(record := TakeEffect(s.record, s.threads[t].call, result))
  }

  function SetNode(s: State, p: nat, node: Node): State {
    s.(heap := s.heap[p := node])
  }

  function Delete(s: State, p: nat): State
    requires p in s.heap
  {
    s.(heap := s.heap - {p}, freed := s.freed + [s.heap[p].id])
  }

  /** The node the next step of a thread at `pc` reads, writes or deletes; null if none. */
  function Concerns(pc: Pc): nat {
    match pc
    case PushLoad(p) => p
    case PushCas(p) => p
    case PopReadNext(seen) => seen.ptr
    case PopCas(seen, next) => seen.ptr
    case PopTake(seen) => seen.ptr
    case PopAdd(seen, taken) => seen.ptr
    case PopDelete(p, taken) => p
    case PopRelease(p, reload) => p
    case PopReleaseDelete(p, reload) => p
    case _ => NULL
  }

  /** No step of `t` touches a node that is not there. */
  predicate Safe(s: State, t: nat) {
    && HasCall(s, t)
    && (Concerns(s.threads[t].pc) != NULL ==> Concerns(s.threads[t].pc) in s.heap)
    && (s.threads[t].pc.PopCas? && s.head == s.threads[t].pc.seen ==>
          s.list != [] && s.threads[t].pc.seen.ptr in s.heap)
    && (s.threads[t].pc.PushLoad? || s.threads[t].pc.PushCas?
        || s.threads[t].pc.PopDelete? || s.threads[t].pc.PopReleaseDelete? || s.threads[t].pc.PopRelease?
        || s.threads[t].pc.PopReadNext? || s.threads[t].pc.PopTake? || s.threads[t].pc.PopAdd?
        ==> Concerns(s.threads[t].pc) != NULL)
  }

  function StepOf(s: State, t: nat, address: nat, spurious: bool): State
    requires Safe(s, t)
  {
    match s.threads[t].pc
    case Idle => s
    case PushAlloc =>
      var value := match OpOf(s, t) case Push(v) => Some(v) case Pop => None;
      Goto(SetNode(s, address, Node(value, 0, CountedPtr(NULL, 0), s.born, Private(t))), t, PushLoad(address))
        .(born := s.born + 1)
    case PushLoad(p) =>
      Goto(SetNode(s, p, s.heap[p].(next := s.head)), t, PushCas(p))
    case PushCas(p) =>
      if s.head == s.heap[p].next && !spurious
      then
        var pushed := SetNode(s, p, s.heap[p].(stage := Listed)).(head := CountedPtr(p, 1), list := [p] + s.list);
        EffectAt(pushed, t, None, Done(None))
      else Goto(SetNode(s, p, s.heap[p].(next := s.head)), t, PushCas(p))
    case PopLoad => Goto(s, t, PopCount(s.head))
    case PopCount(seen) =>
      if s.head == seen then
        var more := CountedPtr(seen.ptr, (seen.count + 1) % COUNT_LIMIT);
        if seen.ptr == NULL
        then EffectAt(s.(head := more), t, None, Done(None))
        else Goto(s.(head := more), t, PopReadNext(more))
      else Goto(s, t, PopCount(s.head))
    case PopReadNext(seen) => Goto(s, t, PopCas(seen, s.heap[seen.ptr].next))
    case PopCas(seen, next) =>
      if s.head == seen
      then
        EffectAt(SetNode(s, seen.ptr, s.heap[seen.ptr].(stage := Popping(t))).(head := next, list := s.list[1..]),
                 t, s.heap[seen.ptr].value, PopTake(seen))
      else Goto(s, t, PopRelease(seen.ptr, s.head))
    case PopTake(seen) =>
      Goto(SetNode(s, seen.ptr, s.heap[seen.ptr].(value := None)), t, PopAdd(seen, s.heap[seen.ptr].value))
    case PopAdd(seen, taken) =>
      var p, increase := seen.ptr, seen.count - 2;
      var dead := s.heap[p].internal == -increase;
      var stage := if dead then Dying(t) else Counted;
      Goto(SetNode(s, p, s.heap[p].(internal := s.heap[p].internal + increase, stage := stage)),
           t, if dead then PopDelete(p, taken) else Done(taken))
    case PopDelete(p, taken) => Goto(Delete(s, p), t, Done(taken))
    case PopRelease(p, reload) =>
      var dead := s.heap[p].internal == 1;
      var stage := if dead then Dying(t) else s.heap[p].stage;
      Goto(SetNode(s, p, s.heap[p].(internal := s.heap[p].internal - 1, stage := stage)),
           t, if dead then PopReleaseDelete(p, reload) else PopCount(reload))
    case PopReleaseDelete(p, reload) => Goto(Delete(s, p), t, PopCount(reload))
    case Done(result) => s
  }

  /**
   * Allocation returns an unused address that fits its 48 bits, and the count of a node at the head does not run over
   * its 16 bits. The second is the source's own assumption; `WrapIsReachable` shows that it is needed. The count
   * beside a null head does wrap: nothing depends on it.
   */
  predicate Enabled(s: State, a: Action) {
    a.thread < |s.threads| &&
    var pc := s.threads[a.thread].pc;
    match a
    case Begin(t, op) => pc.Idle?
    case Step(t, address, spurious) =>
      && !pc.Idle? && !pc.Done?
      && (pc.PushAlloc? ==> NULL < address < ADDRESS_LIMIT && address !in s.heap)
      && (pc.PopCount? && s.head == pc.seen && s.head.ptr != NULL ==> s.head.count + 1 < COUNT_LIMIT)
    case Finish(t) => pc.Done?
  }

  /**
   * A step that would touch a node which is not allocated is not made; `InvSafe` and `RunInv` show that there is
   * none.
   */
  function Apply(s: State, a: Action): State {
    if !Enabled(s, a) || (!a.Begin? && !HasCall(s, a.thread)) then s else
    match a
    case Begin(t, op) =>
      s.(threads := s.threads[t := Thread(|s.record.calls|, if op.Push? then PushAlloc else PopLoad)],
         record := Invoke(s.record, op))
    case Step(t, address, spurious) => if Safe(s, t) then StepOf(s, t, address, spurious) else s
    case Finish(t) =>
      Goto(s, t, Idle).(record := Return(s.record, s.threads[t].call, s.threads[t].pc.result))
  }

  function Init(n: nat): State {
    State(map[], CountedPtr(NULL, 0), seq(n, _ => Thread(0, Idle)), [], 0, [], Empty())
  }

  function Run(n: nat, actions: seq<Action>): State {
    if actions == [] then Init(n)
    else Apply(Run(n, actions[..|actions| - 1]), actions[|actions| - 1])
  }

  // ---------- Holders ----------

  /** A thread at `pc` has counted itself into `p` and not yet out again. */
  predicate Holds(pc: Pc, p: nat) {
    match pc
    case PopReadNext(seen) => seen.ptr == p
    case PopCas(seen, next) => seen.ptr == p
    case PopRelease(q, reload) => q == p
    case _ => false
  }

  /** The number of threads holding `p`. */
  function Holders(threads: seq<Thread>, p: nat): nat {
    if threads == [] then 0
    else Holders(threads[..|threads| - 1], p) + (if Holds(threads[|threads| - 1].pc, p) then 1 else 0)
  }

  lemma {:induction false} HoldersUpdate(threads: seq<Thread>, t: nat, th: Thread, p: nat)
    requires t < |threads|
    ensures Holders(threads[t := th], p) + (if Holds(threads[t].pc, p) then 1 else 0)
         == Holders(threads, p) + (if Holds(th.pc, p) then 1 else 0)
  {
    var last := |threads| - 1;
    if t == last {
      assert threads[t := th][..last] == threads[..last];
    } else {
      assert threads[t := th][..last] == threads[..last][t := th];
      HoldersUpdate(threads[..last], t, th, p);
    }
  }

  lemma {:induction false} HolderCounts(threads: seq<Thread>, t: nat, p: nat)
    requires t < |threads| && Holds(threads[t].pc, p)
    ensures Holders(threads, p) >= 1
  {
    if t < |threads| - 1 { HolderCounts(threads[..|threads| - 1], t, p); }
  }

  // ---------- The invariant ----------

  /** From `ptr` the stack holds the nodes of `list`; each one's two counts sum to one more than its holders. */
  ghost predicate Chain(heap: map<nat, Node>, threads: seq<Thread>, ptr: CountedPtr, list: seq<nat>)
    decreases |list|
  {
    if list == [] then ptr.ptr == NULL
    else
      && ptr.ptr == list[0] && list[0] != NULL && list[0] in heap
      && heap[list[0]].stage == Listed
      && ptr.count + heap[list[0]].internal == 1 + Holders(threads, list[0])
      && Chain(heap, threads, heap[list[0]].next, list[1..])
  }

  ghost predicate Distinct(xs: seq<nat>) {
    forall i, j :: 0 <= i < j < |xs| ==> xs[i] != xs[j]
  }

  ghost predicate Shared(stage: Stage) {
    stage.Listed? || stage.Popping? || stage.Counted?
  }

  ghost predicate NodeOk(s: State, p: nat)
    requires p in s.heap
  {
    var node := s.heap[p];
    && p != NULL && node.id < s.born && node.id !in s.freed
    && match node.stage
       case Private(t) =>
         t < |s.threads| && (s.threads[t].pc == PushLoad(p) || s.threads[t].pc == PushCas(p))
         && node.internal == 0 && Holders(s.threads, p) == 0
       case Listed => p in s.list && node.internal <= 0 && node.value.Some?
       case Popping(t) =>
         && t < |s.threads| && (s.threads[t].pc.PopTake? || s.threads[t].pc.PopAdd?) && s.threads[t].pc.seen.ptr == p
         && node.internal <= 0
         && s.threads[t].pc.seen.count - 2 + node.internal == Holders(s.threads, p)
       case Counted => node.internal == Holders(s.threads, p) >= 1
       case Dying(t) =>
         && t < |s.threads| && (s.threads[t].pc.PopDelete? || s.threads[t].pc.PopReleaseDelete?)
         && s.threads[t].pc.node == p && Holders(s.threads, p) == 0
  }

  ghost predicate LocalsOk(heap: map<nat, Node>, t: nat, pc: Pc, op: Op) {
    var p := Concerns(pc);
    match pc
    case Idle => true
    case PushAlloc => op.Push?
    case PushLoad(_) => p in heap && p != NULL && op.Push? && heap[p].stage == Private(t)
      && heap[p].value == Some(op.value)
    case PushCas(_) => p in heap && p != NULL && op.Push? && heap[p].stage == Private(t)
      && heap[p].value == Some(op.value)
    case PopLoad => op.Pop?
    case PopCount(_) => op.Pop?
    case PopReadNext(_) => p in heap && p != NULL && op.Pop? && Shared(heap[p].stage)
    case PopCas(_, next) => p in heap && p != NULL && op.Pop? && Shared(heap[p].stage) && heap[p].next == next
    case PopRelease(_, _) => p in heap && p != NULL && op.Pop? && Shared(heap[p].stage)
    case PopTake(_) => p in heap && p != NULL && op.Pop? && heap[p].stage == Popping(t)
    case PopAdd(_, _) => p in heap && p != NULL && op.Pop? && heap[p].stage == Popping(t)
    case PopDelete(_, _) => p in heap && p != NULL && op.Pop? && heap[p].stage == Dying(t)
    case PopReleaseDelete(_, _) => p in heap && p != NULL && op.Pop? && heap[p].stage == Dying(t)
    case Done(_) => true
  }

  /** The result the call of a thread at `pc` is bound to, if it has taken effect. */
  ghost function Settled(heap: map<nat, Node>, pc: Pc): Option<Option<Value>> {
    match pc
    case PopTake(seen) => if seen.ptr in heap then Some(heap[seen.ptr].value) else None
    case PopAdd(_, taken) => Some(taken)
    case PopDelete(_, taken) => Some(taken)
    case Done(result) => Some(result)
    case _ => None
  }

  ghost predicate CallMatches(r: Record<Op, Option<Value>>, c: nat, settled: Option<Option<Value>>) {
    && c < |r.calls|
    && r.calls[c].outcome.None?
    && match settled
       case None => r.calls[c].place.None?
       case Some(b) =>
         && r.calls[c].place.Some? && r.calls[c].place.value < |r.log|
         && r.log[r.calls[c].place.value].result == b
  }

  ghost predicate ThreadOk(s: State, t: nat)
    requires t < |s.threads|
  {
    var th := s.threads[t];
    th.pc.Idle? ||
    (&& HasCall(s, t)
     && LocalsOk(s.heap, t, th.pc, OpOf(s, t))
     && CallMatches(s.record, th.call, Settled(s.heap, th.pc)))
  }

  ghost predicate Apart(a: Thread, b: Thread) {
    a.pc.Idle? || b.pc.Idle? || a.call != b.call
  }

  ghost predicate ThreadsOk(s: State) {
    && (forall t: nat :: t < |s.threads| ==> ThreadOk(s, t))
    && (forall t, u :: 0 <= t < u < |s.threads| ==> Apart(s.threads[t], s.threads[u]))
  }

  ghost predicate NodesOk(s: State) {
    && (forall p :: p in s.heap ==> NodeOk(s, p))
    && (forall p, q :: p in s.heap && q in s.heap && s.heap[p].id == s.heap[q].id ==> p == q)
    && Distinct(s.list) && Distinct(s.freed) && (forall i :: 0 <= i < |s.freed| ==> s.freed[i] < s.born)
  }

  /** The values on the stack, top first. */
  ghost function Values(heap: map<nat, Node>, list: seq<nat>): seq<Value> {
    if list == [] then []
    else
      var top := if list[0] in heap && heap[list[0]].value.Some? then heap[list[0]].value.value else 0;
      [top] + Values(heap, list[1..])
  }

  ghost function Contents(s: State): seq<Value> {
    Replay(s.record.log, [], StackSpec)
  }

  ghost predicate RecordOk(s: State) {
    && Consistent(s.record)
    && Legal(s.record.log, [], StackSpec)
    && Contents(s) == Values(s.heap, s.list)
  }

  ghost predicate Inv(s: State) {
    Chain(s.heap, s.threads, s.head, s.list) && NodesOk(s) && ThreadsOk(s) && RecordOk(s)
  }

  lemma {:induction false} NoHolders(n: nat, p: nat)
    ensures Holders(seq(n, _ => Thread(0, Idle)), p) == 0
  {
    if n > 0 {
      var threads := seq(n, _ => Thread(0, Idle));
      assert threads[..n - 1] == seq(n - 1, _ => Thread(0, Idle));
      NoHolders(n - 1, p);
    }
  }

  lemma InitInv(n: nat)
    ensures Inv(Init(n))
  {
  }

  lemma InvSafe(s: State, t: nat)
    requires Inv(s) && t < |s.threads|
    ensures s.threads[t].pc.Idle? || Safe(s, t)
  {
    assert ThreadOk(s, t);
  }

  // ---------- Frames: what a step of one thread on one node leaves alone ----------

  lemma {:induction false} ChainMembers(heap: map<nat, Node>, threads: seq<Thread>, ptr: CountedPtr, list: seq<nat>)
    requires Chain(heap, threads, ptr, list)
    ensures forall i :: 0 <= i < |list| ==> list[i] != NULL && list[i] in heap && heap[list[i]].stage == Listed
    decreases |list|
  {
    if list != [] {
      ChainMembers(heap, threads, heap[list[0]].next, list[1..]);
    }
  }

  ghost predicate SameLink(heap: map<nat, Node>, threads: seq<Thread>, heap': map<nat, Node>, threads': seq<Thread>,
                           q: nat) {
    && q in heap && q in heap'
    && heap'[q].stage == heap[q].stage && heap'[q].next == heap[q].next
    && heap'[q].internal - Holders(threads', q) == heap[q].internal - Holders(threads, q)
  }

  lemma {:induction false} ChainFrame(heap: map<nat, Node>, threads: seq<Thread>, heap': map<nat, Node>,
                                      threads': seq<Thread>, ptr: CountedPtr, list: seq<nat>)
    requires Chain(heap, threads, ptr, list)
    requires forall i :: 0 <= i < |list| ==> SameLink(heap, threads, heap', threads', list[i])
    ensures Chain(heap', threads', ptr, list)
    decreases |list|
  {
    if list != [] {
      assert SameLink(heap, threads, heap', threads', list[0]);
      forall i | 0 <= i < |list[1..]| ensures SameLink(heap, threads, heap', threads', list[1..][i]) {
        assert SameLink(heap, threads, heap', threads', list[i + 1]);
      }
      ChainFrame(heap, threads, heap', threads', heap[list[0]].next, list[1..]);
    }
  }

  lemma {:induction false} ValuesFrame(heap: map<nat, Node>, heap': map<nat, Node>, list: seq<nat>)
    requires forall i ::
      0 <= i < |list| ==>
        list[i] in heap && list[i] in heap' && heap'[list[i]].value == heap[list[i]].value
    ensures Values(heap', list) == Values(heap, list)
    decreases |list|
  {
    if list != [] {
      forall i | 0 <= i < |list[1..]|
        ensures list[1..][i] in heap && list[1..][i] in heap' && heap'[list[1..][i]].value == heap[list[1..][i]].value
      {
        assert list[1..][i] == list[i + 1];
      }
      ValuesFrame(heap, heap', list[1..]);
    }
  }

  /** Only `t` moved, and it touched no node but `p`; null stands for no node. */
  ghost predicate Touches(s: State, s': State, t: nat, p: nat) {
    && t < |s.threads| == |s'.threads|
    && s'.threads == s.threads[t := s'.threads[t]]
    && (Concerns(s.threads[t].pc) == NULL || Concerns(s.threads[t].pc) == p)
    && (Concerns(s'.threads[t].pc) == NULL || Concerns(s'.threads[t].pc) == p)
    && (forall q :: q != p ==> (q in s.heap <==> q in s'.heap))
    && (forall q :: q != p && q in s.heap ==> s'.heap[q] == s.heap[q])
  }

  lemma HoldersOff(s: State, s': State, t: nat, p: nat, q: nat)
    requires Touches(s, s', t, p) && q != p && q != NULL
    ensures Holders(s'.threads, q) == Holders(s.threads, q)
  {
    HoldersUpdate(s.threads, t, s'.threads[t], q);
  }

  /** Bookkeeping of names: ids are given once and freed once. */
  ghost predicate NamesKept(s: State, s': State, p: nat) {
    && s.born <= s'.born
    && (p in s.heap && p in s'.heap ==> s'.heap[p].id == s.heap[p].id && s'.freed == s.freed && s'.born == s.born)
    && (p !in s.heap && p in s'.heap ==> s'.heap[p].id == s.born && s'.born == s.born + 1 && s'.freed == s.freed)
    && (p in s.heap && p !in s'.heap ==> s'.freed == s.freed + [s.heap[p].id] && s'.born == s.born)
    && (p !in s.heap && p !in s'.heap ==> s'.freed == s.freed && s'.born == s.born)
  }

  lemma NodeFrame(s: State, s': State, t: nat, p: nat, q: nat)
    requires NodesOk(s) && Touches(s, s', t, p) && NamesKept(s, s', p)
    requires q in s.heap && q != p && (q in s.list ==> q in s'.list)
    ensures NodeOk(s', q)
  {
    assert NodeOk(s, q);
    HoldersOff(s, s', t, p, q);
  }

  lemma NodesFrame(s: State, s': State, t: nat, p: nat)
    requires NodesOk(s) && Touches(s, s', t, p) && NamesKept(s, s', p)
    requires forall q :: q in s.list && q != p ==> q in s'.list
    requires Distinct(s'.list)
    requires p in s'.heap ==> NodeOk(s', p)
    ensures NodesOk(s')
  {
    forall q | q in s'.heap ensures NodeOk(s', q) {
      if q != p { NodeFrame(s, s', t, p, q); }
    }
    assert p in s.heap ==> NodeOk(s, p);
    forall q, r | q in s'.heap && r in s'.heap && s'.heap[q].id == s'.heap[r].id ensures q == r {
      assert q != p ==> NodeOk(s, q);
      assert r != p ==> NodeOk(s, r);
    }
  }

  /** The node `p`, which `t` has touched, is still what thread `u` takes it for. */
  ghost predicate Compatible(s: State, s': State, u: nat, p: nat)
    requires u < |s.threads| && p in s.heap
  {
    && p in s'.heap
    && if Holds(s.threads[u].pc, p)
       then Shared(s'.heap[p].stage) && s'.heap[p].next == s.heap[p].next
       else s'.heap[p].stage == s.heap[p].stage && s'.heap[p].value == s.heap[p].value
  }

  ghost predicate RecordGrows(r: Record<Op, Option<Value>>, r': Record<Op, Option<Value>>, c: nat) {
    && |r.calls| <= |r'.calls| && r.log <= r'.log
    && (forall d :: 0 <= d < |r.calls| && d != c ==> r'.calls[d] == r.calls[d])
  }

  lemma OtherThread(s: State, s': State, t: nat, p: nat, u: nat)
    requires Touches(s, s', t, p) && u < |s.threads| && u != t && ThreadOk(s, u)
    requires !s.threads[u].pc.Idle? && s'.threads[t].call != s.threads[u].call
    requires RecordGrows(s.record, s'.record, s'.threads[t].call)
    requires Concerns(s.threads[u].pc) == p && p != NULL ==> p in s.heap && Compatible(s, s', u, p)
    ensures ThreadOk(s', u)
  {
  }

  lemma ThreadsFrame(s: State, s': State, t: nat, p: nat)
    requires ThreadsOk(s) && Touches(s, s', t, p)
    requires RecordGrows(s.record, s'.record, s'.threads[t].call)
    requires s'.threads[t].call >= |s.record.calls|
      || (!s.threads[t].pc.Idle? && s'.threads[t].call == s.threads[t].call)
    requires forall u: nat ::
      u < |s.threads| && u != t && Concerns(s.threads[u].pc) == p && p != NULL ==>
        p in s.heap && Compatible(s, s', u, p)
    requires ThreadOk(s', t)
    ensures ThreadsOk(s')
  {
    hide Compatible;
    assert ThreadOk(s, t);
    forall u: nat | u < |s'.threads| ensures ThreadOk(s', u) {
      if u != t && !s.threads[u].pc.Idle? {
        assert ThreadOk(s, u);
        assert Apart(s.threads[if t < u then t else u], s.threads[if t < u then u else t]);
        OtherThread(s, s', t, p, u);
      }
    }
    forall a, b | 0 <= a < b < |s'.threads| ensures Apart(s'.threads[a], s'.threads[b]) {
      assert Apart(s.threads[a], s.threads[b]);
      assert ThreadOk(s, a) && ThreadOk(s, b);
    }
  }

  // ---------- The steps ----------

  /** What the invariant says of one active thread and of the node it is about to touch. */
  lemma Facts(s: State, t: nat)
    requires Inv(s) && t < |s.threads| && !s.threads[t].pc.Idle?
    ensures Safe(s, t) && Chain(s.heap, s.threads, s.head, s.list) && NodesOk(s) && ThreadsOk(s) && RecordOk(s)
    ensures LocalsOk(s.heap, t, s.threads[t].pc, OpOf(s, t))
    ensures CallMatches(s.record, s.threads[t].call, Settled(s.heap, s.threads[t].pc))
    ensures Concerns(s.threads[t].pc) in s.heap ==> NodeOk(s, Concerns(s.threads[t].pc))
    ensures NULL !in s.heap && Distinct(s.list)
    ensures forall i ::
      0 <= i < |s.list| ==>
        s.list[i] != NULL && s.list[i] in s.heap && s.heap[s.list[i]].stage == Listed
    ensures forall q :: q in s.heap && s.heap[q].stage == Listed ==> q in s.list && s.heap[q].value.Some?
  {
    assert ThreadOk(s, t);
    InvSafe(s, t);
    ChainMembers(s.heap, s.threads, s.head, s.list);
    assert forall q :: q in s.heap ==> NodeOk(s, q);
  }

  /** A thread that concerns itself with a node is its holder or its owner. */
  lemma OtherConcern(s: State, u: nat, p: nat)
    requires ThreadsOk(s) && u < |s.threads| && Concerns(s.threads[u].pc) == p && p != NULL
    ensures p in s.heap
    ensures if Holds(s.threads[u].pc, p) then Shared(s.heap[p].stage) && Holders(s.threads, p) >= 1
            else s.heap[p].stage == Private(u) || s.heap[p].stage == Popping(u) || s.heap[p].stage == Dying(u)
  {
    assert ThreadOk(s, u);
    if Holds(s.threads[u].pc, p) { HolderCounts(s.threads, u, p); }
  }

  lemma Assemble(s: State, s': State, t: nat, p: nat)
    requires NodesOk(s) && ThreadsOk(s) && t < |s.threads| && !s.threads[t].pc.Idle? && Touches(s, s', t, p)
      && NamesKept(s, s', p)
    requires Chain(s'.heap, s'.threads, s'.head, s'.list) && RecordOk(s') && Distinct(s'.list)
    requires forall q :: q in s.list && q != p ==> q in s'.list
    requires p in s'.heap ==> NodeOk(s', p)
    requires RecordGrows(s.record, s'.record, s.threads[t].call) && s'.threads[t].call == s.threads[t].call
    requires forall u: nat ::
      u < |s.threads| && u != t && Concerns(s.threads[u].pc) == p && p != NULL ==>
        p in s.heap && Compatible(s, s', u, p)
    requires !s'.threads[t].pc.Idle? && HasCall(s', t) && LocalsOk(s'.heap, t, s'.threads[t].pc, OpOf(s', t))
    requires CallMatches(s'.record, s'.threads[t].call, Settled(s'.heap, s'.threads[t].pc))
    ensures Inv(s')
  {
    hide NodesOk, Chain, RecordOk, LocalsOk, CallMatches, Compatible, Touches, NamesKept, Settled, RecordGrows;
    NodesFrame(s, s', t, p);
    ThreadsFrame(s, s', t, p);
  }

  lemma SameRecord(s: State, s': State)
    requires RecordOk(s) && s'.record == s.record && Values(s'.heap, s'.list) == Values(s.heap, s.list)
    ensures RecordOk(s')
  {
  }

  /** A step that moves one thread and writes nothing. */
  lemma QuietInv(s: State, t: nat, pc: Pc)
    requires Inv(s) && t < |s.threads| && !s.threads[t].pc.Idle? && !pc.Idle? && HasCall(s, t)
    requires Concerns(pc) == Concerns(s.threads[t].pc)
    requires s.threads[t].pc.PopLoad? || s.threads[t].pc.PopCount? || s.threads[t].pc.PopReadNext?
      || s.threads[t].pc.PopCas?
    requires pc.PopCount? || pc.PopCas? || pc.PopRelease?
    requires LocalsOk(s.heap, t, pc, OpOf(s, t))
    ensures Inv(Goto(s, t, pc))
  {
    hide Inv, NodesOk, ThreadsOk, RecordOk, CallMatches;
    Facts(s, t);
    var s', p := Goto(s, t, pc), Concerns(pc);
    QuietHolders(s, t, pc);
    forall i | 0 <= i < |s.list| ensures SameLink(s.heap, s.threads, s'.heap, s'.threads, s.list[i]) {
    }
    ChainFrame(s.heap, s.threads, s'.heap, s'.threads, s.head, s.list);
    SameRecord(s, s');
    forall u: nat | u < |s.threads| && u != t && Concerns(s.threads[u].pc) == p && p != NULL
      ensures p in s.heap && Compatible(s, s', u, p)
    {
      OtherConcern(s, u, p);
    }
    Assemble(s, s', t, p);
  }

  lemma QuietHolders(s: State, t: nat, pc: Pc)
    requires t < |s.threads| && NULL !in s.heap && (forall q :: Holds(pc, q) ==> q == Concerns(pc))
    requires Concerns(pc) == Concerns(s.threads[t].pc)
    requires s.threads[t].pc.PopLoad? || s.threads[t].pc.PopCount? || s.threads[t].pc.PopReadNext?
      || s.threads[t].pc.PopCas?
    requires pc.PopCount? || pc.PopCas? || pc.PopRelease?
    ensures forall q :: q in s.heap ==> Holders(Goto(s, t, pc).threads, q) == Holders(s.threads, q)
  {
    forall q | q in s.heap ensures Holders(Goto(s, t, pc).threads, q) == Holders(s.threads, q) {
      HoldersUpdate(s.threads, t, s.threads[t].(pc := pc), q);
    }
  }

  /** A step on a node off the stack leaves the stack as it is. */
  lemma OffListChain(s: State, s': State, t: nat, p: nat)
    requires Chain(s.heap, s.threads, s.head, s.list) && Touches(s, s', t, p) && NULL !in s.heap
    requires s'.head == s.head && s'.list == s.list && p !in s.list
    ensures Chain(s'.heap, s'.threads, s'.head, s'.list) && Values(s'.heap, s'.list) == Values(s.heap, s.list)
  {
    ChainMembers(s.heap, s.threads, s.head, s.list);
    forall i | 0 <= i < |s.list| ensures SameLink(s.heap, s.threads, s'.heap, s'.threads, s.list[i]) {
      HoldersOff(s, s', t, p, s.list[i]);
    }
    ChainFrame(s.heap, s.threads, s'.heap, s'.threads, s.head, s.list);
    ValuesFrame(s.heap, s'.heap, s.list);
  }

  lemma {:induction false} HoldersZero(threads: seq<Thread>, p: nat)
    requires forall u :: 0 <= u < |threads| ==> !Holds(threads[u].pc, p)
    ensures Holders(threads, p) == 0
  {
    if threads != [] { HoldersZero(threads[..|threads| - 1], p); }
  }

  lemma AllocInv(s: State, t: nat, address: nat, spurious: bool)
    requires Inv(s) && Enabled(s, Step(t, address, spurious)) && s.threads[t].pc.PushAlloc?
    ensures Safe(s, t) && Inv(StepOf(s, t, address, spurious))
  {
    hide Inv, NodesOk, ThreadsOk, RecordOk, Chain;
    Facts(s, t);
    var s' := StepOf(s, t, address, spurious);
    forall u: nat | u < |s.threads| ensures Concerns(s.threads[u].pc) != address {
      if Concerns(s.threads[u].pc) == address { OtherConcern(s, u, address); }
    }
    HoldersZero(s'.threads, address);
    OffListChain(s, s', t, address);
    SameRecord(s, s');
    FreshId(s);
    Assemble(s, s', t, address);
  }

  lemma FreshId(s: State)
    requires NodesOk(s)
    ensures s.born !in s.freed
  {
  }

  /** The owner of a node that is off the stack writes to it. */
  lemma OwnWriteInv(s: State, s': State, t: nat, p: nat)
    requires Inv(s) && t < |s.threads| && !s.threads[t].pc.Idle? && p in s.heap && p != NULL
    requires s.heap[p].stage == Private(t) || s.heap[p].stage == Popping(t) || s.heap[p].stage == Dying(t)
    requires Touches(s, s', t, p) && NamesKept(s, s', p) && s'.head == s.head && s'.list == s.list
      && s'.record == s.record
    requires p in s'.heap ==> s'.heap[p].next == s.heap[p].next || s.heap[p].stage == Private(t)
    requires p in s'.heap ==> NodeOk(s', p)
    requires Holders(s.threads, p) >= 1 ==> p in s'.heap && Shared(s'.heap[p].stage)
    requires s.heap[p].stage == Private(t) ==> Holders(s.threads, p) == 0
    requires s'.threads[t].call == s.threads[t].call && !s'.threads[t].pc.Idle? && HasCall(s', t)
    requires LocalsOk(s'.heap, t, s'.threads[t].pc, OpOf(s', t))
    requires CallMatches(s'.record, s'.threads[t].call, Settled(s'.heap, s'.threads[t].pc))
    ensures Inv(s')
  {
    hide Inv, NodesOk, ThreadsOk, RecordOk, Chain, LocalsOk, CallMatches;
    Facts(s, t);
    OffListChain(s, s', t, p);
    SameRecord(s, s');
    forall u: nat | u < |s.threads| && u != t && Concerns(s.threads[u].pc) == p && p != NULL
      ensures p in s.heap && Compatible(s, s', u, p)
    {
      OtherConcern(s, u, p);
    }
    Assemble(s, s', t, p);
  }

  lemma PushWriteInv(s: State, t: nat, address: nat, spurious: bool)
    requires Inv(s) && t < |s.threads| && (s.threads[t].pc.PushLoad? || s.threads[t].pc.PushCas?)
    ensures Safe(s, t)
    ensures s.threads[t].pc.PushLoad? || s.head != s.heap[s.threads[t].pc.node].next || spurious
      ==> Inv(StepOf(s, t, address, spurious))
  {
    hide Inv, NodesOk, ThreadsOk, RecordOk, Chain;
    Facts(s, t);
    var p := s.threads[t].pc.node;
    if s.threads[t].pc.PushLoad? || s.head != s.heap[p].next || spurious {
      var s' := StepOf(s, t, address, spurious);
      HoldersUpdate(s.threads, t, s'.threads[t], p);
      OwnWriteInv(s, s', t, p);
    }
  }

  lemma TakeInv(s: State, t: nat, address: nat, spurious: bool)
    requires Inv(s) && t < |s.threads| && s.threads[t].pc.PopTake?
    ensures Safe(s, t) && Inv(StepOf(s, t, address, spurious))
  {
    hide Inv, NodesOk, ThreadsOk, RecordOk, Chain;
    Facts(s, t);
    var p := s.threads[t].pc.seen.ptr;
    var s' := StepOf(s, t, address, spurious);
    HoldersUpdate(s.threads, t, s'.threads[t], p);
    OwnWriteInv(s, s', t, p);
  }

  /** The popper settles the node's count; with no holder left it goes on to delete the node. */
  lemma AddInv(s: State, t: nat, address: nat, spurious: bool)
    requires Inv(s) && t < |s.threads| && s.threads[t].pc.PopAdd?
    ensures Safe(s, t) && Inv(StepOf(s, t, address, spurious))
  {
    hide Inv, NodesOk, ThreadsOk, RecordOk, Chain;
    Facts(s, t);
    var p := s.threads[t].pc.seen.ptr;
    var s' := StepOf(s, t, address, spurious);
    HoldersUpdate(s.threads, t, s'.threads[t], p);
    OwnWriteInv(s, s', t, p);
  }

  lemma DeleteInv(s: State, t: nat, address: nat, spurious: bool)
    requires Inv(s) && t < |s.threads| && (s.threads[t].pc.PopDelete? || s.threads[t].pc.PopReleaseDelete?)
    ensures Safe(s, t) && Inv(StepOf(s, t, address, spurious))
  {
    hide Inv, NodesOk, ThreadsOk, RecordOk, Chain;
    Facts(s, t);
    var p := s.threads[t].pc.node;
    var s' := StepOf(s, t, address, spurious);
    OwnWriteInv(s, s', t, p);
  }

  /** What a step of `t` on `p` establishes about its own node and locals. */
  ghost predicate OwnPart(s: State, s': State, t: nat, p: nat) {
    && Touches(s, s', t, p) && NamesKept(s, s', p) && (p in s'.heap ==> NodeOk(s', p))
    && s'.threads[t].call == s.threads[t].call && !s'.threads[t].pc.Idle? && HasCall(s', t)
    && RecordGrows(s.record, s'.record, s.threads[t].call)
    && LocalsOk(s'.heap, t, s'.threads[t].pc, OpOf(s', t))
    && CallMatches(s'.record, s'.threads[t].call, Settled(s'.heap, s'.threads[t].pc))
  }

  lemma ReleaseLocal(s: State, t: nat, address: nat, spurious: bool)
    requires Safe(s, t) && s.threads[t].pc.PopRelease? && LocalsOk(s.heap, t, s.threads[t].pc, OpOf(s, t))
    requires CallMatches(s.record, s.threads[t].call, Settled(s.heap, s.threads[t].pc))
    requires s.threads[t].pc.node in s.heap && NodeOk(s, s.threads[t].pc.node)
    ensures var s', p := StepOf(s, t, address, spurious), s.threads[t].pc.node;
      && OwnPart(s, s', t, p)
      && s'.head == s.head && s'.list == s.list && s'.record == s.record
      && p in s'.heap && s'.heap[p].next == s.heap[p].next && s'.heap[p].value == s.heap[p].value
      && s'.heap[p].internal - Holders(s'.threads, p) == s.heap[p].internal - Holders(s.threads, p)
      && s'.heap[p].stage ==
           if Holders(s'.threads, p) == 0 && s.heap[p].stage.Counted? then Dying(t) else s.heap[p].stage
  {
    HoldersUpdate(s.threads, t, StepOf(s, t, address, spurious).threads[t], s.threads[t].pc.node);
  }

  lemma ReleaseChain(s: State, s': State, t: nat, p: nat)
    requires Chain(s.heap, s.threads, s.head, s.list) && Touches(s, s', t, p) && NULL !in s.heap
    requires s'.head == s.head && s'.list == s.list
    requires p in s.list ==> SameLink(s.heap, s.threads, s'.heap, s'.threads, p) && s'.heap[p].value == s.heap[p].value
    ensures Chain(s'.heap, s'.threads, s'.head, s'.list) && Values(s'.heap, s'.list) == Values(s.heap, s.list)
  {
    ChainMembers(s.heap, s.threads, s.head, s.list);
    forall i | 0 <= i < |s.list| ensures SameLink(s.heap, s.threads, s'.heap, s'.threads, s.list[i]) {
      if s.list[i] != p { HoldersOff(s, s', t, p, s.list[i]); }
    }
    ChainFrame(s.heap, s.threads, s'.heap, s'.threads, s.head, s.list);
    ValuesFrame(s.heap, s'.heap, s.list);
  }

  lemma ReleaseOthers(s: State, s': State, t: nat, p: nat)
    requires ThreadsOk(s) && Touches(s, s', t, p) && p in s.heap && p in s'.heap && s'.heap[p].next == s.heap[p].next
    requires Shared(s.heap[p].stage)
    requires if Holders(s'.threads, p) == 0 && s.heap[p].stage.Counted? then s'.heap[p].stage == Dying(t)
             else s'.heap[p].stage == s.heap[p].stage && s'.heap[p].value == s.heap[p].value
    ensures forall u: nat ::
      u < |s.threads| && u != t && Concerns(s.threads[u].pc) == p && p != NULL ==>
        Compatible(s, s', u, p)
  {
    forall u: nat | u < |s.threads| && u != t && Concerns(s.threads[u].pc) == p && p != NULL
      ensures Compatible(s, s', u, p)
    {
      OtherConcern(s, u, p);
      if Holds(s.threads[u].pc, p) { HolderCounts(s'.threads, u, p); }
    }
  }

  /** A holder counts itself out; the last one after the popper has settled goes on to delete the node. */
  lemma ReleaseInv(s: State, t: nat, address: nat, spurious: bool)
    requires Inv(s) && t < |s.threads| && s.threads[t].pc.PopRelease?
    ensures Safe(s, t) && Inv(StepOf(s, t, address, spurious))
  {
    hide Inv, NodesOk, ThreadsOk, RecordOk, Chain, NodeOk, LocalsOk, CallMatches, StepOf, Touches, NamesKept,
         Compatible, Settled;
    Facts(s, t);
    var p := s.threads[t].pc.node;
    var s' := StepOf(s, t, address, spurious);
    ReleaseLocal(s, t, address, spurious);
    ReleaseChain(s, s', t, p);
    SameRecord(s, s');
    ReleaseOthers(s, s', t, p);
    Assemble(s, s', t, p);
  }

  lemma PushLocal(s: State, t: nat, address: nat)
    requires Safe(s, t) && s.threads[t].pc.PushCas? && LocalsOk(s.heap, t, s.threads[t].pc, OpOf(s, t))
    requires CallMatches(s.record, s.threads[t].call, Settled(s.heap, s.threads[t].pc))
    requires s.threads[t].pc.node in s.heap && NodeOk(s, s.threads[t].pc.node)
      && s.head == s.heap[s.threads[t].pc.node].next
    ensures s.heap[s.threads[t].pc.node].internal == 0 && Holders(s.threads, s.threads[t].pc.node) == 0
    ensures s.record.calls[s.threads[t].call].place.None? && s.record.calls[s.threads[t].call].outcome.None?
    ensures var s', p := StepOf(s, t, address, false), s.threads[t].pc.node;
      && OwnPart(s, s', t, p)
      && s'.head == CountedPtr(p, 1) && s'.list == [p] + s.list
      && s'.record == TakeEffect(s.record, s.threads[t].call, None)
      && p in s'.heap && s'.heap[p] == s.heap[p].(stage := Listed) && Holders(s'.threads, p) == 0
  {
    HoldersUpdate(s.threads, t, StepOf(s, t, address, false).threads[t], s.threads[t].pc.node);
  }

  /** The successful compare-and-set of a push. */
  lemma PushEffectInv(s: State, t: nat, address: nat)
    requires Inv(s) && t < |s.threads| && s.threads[t].pc.PushCas?
    ensures Safe(s, t)
    ensures s.head == s.heap[s.threads[t].pc.node].next ==> Inv(StepOf(s, t, address, false))
  {
    hide Inv, NodesOk, ThreadsOk, RecordOk, Chain, NodeOk, CallMatches, StepOf, Touches, NamesKept, Compatible, Settled;
    Facts(s, t);
    var p := s.threads[t].pc.node;
    if s.head == s.heap[p].next {
      var s' := StepOf(s, t, address, false);
      PushLocal(s, t, address);
      PushChain(s, s', t, p);
      PushRecord(s, s', t, p);
      forall u: nat | u < |s.threads| && u != t ensures Concerns(s.threads[u].pc) != p {
        if Concerns(s.threads[u].pc) == p { OtherConcern(s, u, p); }
      }
      assert s'.list[1..] == s.list;
      hide LocalsOk;
      Assemble(s, s', t, p);
    }
  }

  lemma PushChain(s: State, s': State, t: nat, p: nat)
    requires Chain(s.heap, s.threads, s.head, s.list) && Touches(s, s', t, p) && NULL !in s.heap
    requires p in s.heap && p !in s.list && s.heap[p].next == s.head && s.heap[p].internal == 0
    requires p in s'.heap && s'.heap[p].next == s.head && s'.heap[p].internal == 0 && s'.heap[p].stage == Listed
    requires Holders(s'.threads, p) == 0 && s'.head == CountedPtr(p, 1) && s'.list == [p] + s.list
    ensures Chain(s'.heap, s'.threads, s'.head, s'.list)
    ensures Values(s'.heap, s.list) == Values(s.heap, s.list)
  {
    ChainMembers(s.heap, s.threads, s.head, s.list);
    forall i | 0 <= i < |s.list| ensures SameLink(s.heap, s.threads, s'.heap, s'.threads, s.list[i]) {
      HoldersOff(s, s', t, p, s.list[i]);
    }
    ChainFrame(s.heap, s.threads, s'.heap, s'.threads, s.head, s.list);
    ValuesFrame(s.heap, s'.heap, s.list);
    assert s'.list[1..] == s.list;
  }

  lemma PushRecord(s: State, s': State, t: nat, p: nat)
    requires RecordOk(s) && HasCall(s, t) && OpOf(s, t).Push?
    requires s.record.calls[s.threads[t].call].place.None? && s.record.calls[s.threads[t].call].outcome.None?
    requires s'.record == TakeEffect(s.record, s.threads[t].call, None)
    requires p in s'.heap && s'.heap[p].value == Some(OpOf(s, t).value)
    requires s'.list == [p] + s.list && Values(s'.heap, s.list) == Values(s.heap, s.list)
    ensures RecordOk(s')
  {
    hide Consistent, Legal;
    TakeEffectConsistent(s.record, s.threads[t].call, None, [], StackSpec);
    assert s'.list[1..] == s.list;
  }

  /** A popper counts itself into the null head: the stack is empty. */
  lemma CountNullInv(s: State, t: nat, address: nat, spurious: bool)
    requires Inv(s) && t < |s.threads| && s.threads[t].pc == PopCount(s.head) && s.head.ptr == NULL
    ensures Safe(s, t) && Inv(StepOf(s, t, address, spurious))
  {
    hide Inv, NodesOk, ThreadsOk, RecordOk;
    Facts(s, t);
    var s' := StepOf(s, t, address, spurious);
    EmptyRecord(s, s', t);
    assert s.list == [] && Chain(s'.heap, s'.threads, s'.head, s'.list);
    Assemble(s, s', t, NULL);
  }

  lemma EmptyRecord(s: State, s': State, t: nat)
    requires RecordOk(s) && HasCall(s, t) && OpOf(s, t).Pop? && s.list == [] && s'.list == []
    requires s.record.calls[s.threads[t].call].place.None? && s.record.calls[s.threads[t].call].outcome.None?
    requires s'.record == TakeEffect(s.record, s.threads[t].call, None)
    ensures RecordOk(s')
  {
    hide Consistent, Legal;
    TakeEffectConsistent(s.record, s.threads[t].call, None, [], StackSpec);
  }

  /** The node at the head is a node of the stack. */
  lemma HeadListed(s: State)
    requires Chain(s.heap, s.threads, s.head, s.list) && s.head.ptr != NULL
    ensures s.list != [] && s.list[0] == s.head.ptr && s.head.ptr in s.heap && s.heap[s.head.ptr].stage == Listed
    ensures s.head.count + s.heap[s.head.ptr].internal == 1 + Holders(s.threads, s.head.ptr)
    ensures Chain(s.heap, s.threads, s.heap[s.head.ptr].next, s.list[1..])
  {
  }

  /** A popper counts itself into the node at the head. */
  lemma CountNodeInv(s: State, t: nat, address: nat, spurious: bool)
    requires Inv(s) && t < |s.threads| && s.threads[t].pc == PopCount(s.head) && s.head.ptr != NULL
    requires s.head.count + 1 < COUNT_LIMIT
    ensures Safe(s, t) && Inv(StepOf(s, t, address, spurious))
  {
    hide Inv, NodesOk, ThreadsOk, RecordOk, Chain;
    Facts(s, t);
    HeadListed(s);
    var p := s.head.ptr;
    var s' := StepOf(s, t, address, spurious);
    HoldersUpdate(s.threads, t, s'.threads[t], p);
    CountChain(s, s', t);
    SameRecord(s, s');
    forall u: nat | u < |s.threads| && u != t && Concerns(s.threads[u].pc) == p && p != NULL
      ensures p in s.heap && Compatible(s, s', u, p)
    {
      OtherConcern(s, u, p);
    }
    NodeAt(s, p);
    hide LocalsOk, CallMatches;
    Assemble(s, s', t, p);
  }

  lemma NodeAt(s: State, p: nat)
    requires NodesOk(s) && p in s.heap
    ensures NodeOk(s, p)
  {
  }

  lemma CountChain(s: State, s': State, t: nat)
    requires Chain(s.heap, s.threads, s.head, s.list) && s.head.ptr != NULL && Distinct(s.list) && NULL !in s.heap
    requires Touches(s, s', t, s.head.ptr) && s'.heap == s.heap && s'.list == s.list
    requires s'.head == CountedPtr(s.head.ptr, s.head.count + 1)
    requires Holders(s'.threads, s.head.ptr) == Holders(s.threads, s.head.ptr) + 1
    ensures Chain(s'.heap, s'.threads, s'.head, s'.list)
  {
    ChainMembers(s.heap, s.threads, s.head, s.list);
    var rest := s.list[1..];
    forall i | 0 <= i < |rest| ensures SameLink(s.heap, s.threads, s'.heap, s'.threads, rest[i]) {
      assert rest[i] == s.list[i + 1] != s.list[0];
      HoldersOff(s, s', t, s.head.ptr, rest[i]);
    }
    ChainFrame(s.heap, s.threads, s'.heap, s'.threads, s.heap[s.head.ptr].next, rest);
  }

  lemma PopLocal(s: State, t: nat, address: nat, spurious: bool)
    requires Safe(s, t) && s.threads[t].pc.PopCas? && s.head == s.threads[t].pc.seen
      && LocalsOk(s.heap, t, s.threads[t].pc, OpOf(s, t))
    requires CallMatches(s.record, s.threads[t].call, Settled(s.heap, s.threads[t].pc))
    requires s.head.ptr in s.heap && NodeOk(s, s.head.ptr) && s.heap[s.head.ptr].stage == Listed
    requires s.head.count + s.heap[s.head.ptr].internal == 1 + Holders(s.threads, s.head.ptr)
    ensures s.record.calls[s.threads[t].call].place.None? && s.record.calls[s.threads[t].call].outcome.None?
    ensures var s', p := StepOf(s, t, address, spurious), s.head.ptr;
      && OwnPart(s, s', t, p)
      && s'.head == s.heap[p].next && s'.list == s.list[1..]
      && s'.record == TakeEffect(s.record, s.threads[t].call, s.heap[p].value)
      && s'.heap == s.heap[p := s.heap[p].(stage := Popping(t))]
  {
    HoldersUpdate(s.threads, t, StepOf(s, t, address, spurious).threads[t], s.head.ptr);
  }

  lemma PopOthers(s: State, s': State, t: nat, p: nat)
    requires ThreadsOk(s) && p in s.heap && s.heap[p].stage == Listed && p in s'.heap
    requires s'.heap[p].stage.Popping? && s'.heap[p].next == s.heap[p].next
    ensures forall u: nat ::
      u < |s.threads| && u != t && Concerns(s.threads[u].pc) == p && p != NULL ==>
        Compatible(s, s', u, p)
  {
    forall u: nat | u < |s.threads| && u != t && Concerns(s.threads[u].pc) == p && p != NULL
      ensures Compatible(s, s', u, p)
    {
      OtherConcern(s, u, p);
    }
  }

  /** The successful compare-and-set of a pop: its node leaves the stack. */
  lemma PopEffectInv(s: State, t: nat, address: nat, spurious: bool)
    requires Inv(s) && t < |s.threads| && s.threads[t].pc.PopCas? && s.head == s.threads[t].pc.seen
    ensures Safe(s, t) && Inv(StepOf(s, t, address, spurious))
  {
    hide Inv, NodesOk, ThreadsOk, RecordOk, Chain, NodeOk, CallMatches, StepOf, Touches, NamesKept, Compatible, Settled;
    Facts(s, t);
    HeadListed(s);
    var p := s.head.ptr;
    var s' := StepOf(s, t, address, spurious);
    PopLocal(s, t, address, spurious);
    PopChain(s, s', t);
    PopRecord(s, s', t);
    PopOthers(s, s', t, p);
    PopKeepsRest(s.list);
    hide LocalsOk;
    Assemble(s, s', t, p);
  }

  lemma PopKeepsRest(list: seq<nat>)
    requires list != [] && Distinct(list)
    ensures Distinct(list[1..])
    ensures forall q :: q in list && q != list[0] ==> q in list[1..]
    ensures list[0] !in list[1..]
  {
    forall q | q in list && q != list[0] ensures q in list[1..] {
      var i :| 0 <= i < |list| && list[i] == q;
      assert list[1..][i - 1] == q;
    }
  }

  lemma PopChain(s: State, s': State, t: nat)
    requires Chain(s.heap, s.threads, s.head, s.list) && s.head.ptr != NULL && Distinct(s.list) && NULL !in s.heap
    requires Touches(s, s', t, s.head.ptr) && s'.list == s.list[1..] && s.head.ptr in s.heap
      && s'.head == s.heap[s.head.ptr].next
    ensures Chain(s'.heap, s'.threads, s'.head, s'.list) && Values(s'.heap, s'.list) == Values(s.heap, s'.list)
  {
    ChainMembers(s.heap, s.threads, s.head, s.list);
    var rest := s.list[1..];
    forall i | 0 <= i < |rest| ensures SameLink(s.heap, s.threads, s'.heap, s'.threads, rest[i]) {
      assert rest[i] == s.list[i + 1] != s.list[0];
      HoldersOff(s, s', t, s.head.ptr, rest[i]);
    }
    ChainFrame(s.heap, s.threads, s'.heap, s'.threads, s'.head, rest);
    ValuesFrame(s.heap, s'.heap, rest);
  }

  lemma PopRecord(s: State, s': State, t: nat)
    requires RecordOk(s) && HasCall(s, t) && OpOf(s, t).Pop?
    requires s.record.calls[s.threads[t].call].place.None? && s.record.calls[s.threads[t].call].outcome.None?
    requires s.list != [] && s.list[0] in s.heap && s.heap[s.list[0]].value.Some?
    requires s'.record == TakeEffect(s.record, s.threads[t].call, s.heap[s.list[0]].value)
    requires s'.list == s.list[1..] && Values(s'.heap, s'.list) == Values(s.heap, s'.list)
    ensures RecordOk(s')
  {
    hide Consistent, Legal;
    var v := s.heap[s.list[0]].value;
    assert Contents(s)[1..] == Values(s.heap, s.list[1..]);
    TakeEffectConsistent(s.record, s.threads[t].call, v, [], StackSpec);
  }

  lemma StepInv(s: State, t: nat, address: nat, spurious: bool)
    requires Inv(s) && Enabled(s, Step(t, address, spurious))
    ensures Safe(s, t) && Inv(StepOf(s, t, address, spurious))
  {
    hide Inv;
    Facts(s, t);
    match s.threads[t].pc
    case PushAlloc => AllocInv(s, t, address, spurious);
    case PushLoad(_) => PushWriteInv(s, t, address, spurious);
    case PushCas(p) =>
      if s.head == s.heap[p].next && !spurious {
        PushEffectInv(s, t, address);
      } else {
        PushWriteInv(s, t, address, spurious);
      }
    case PopLoad => QuietInv(s, t, PopCount(s.head));
    case PopCount(seen) =>
      if s.head != seen { QuietInv(s, t, PopCount(s.head)); }
      else if seen.ptr == NULL { CountNullInv(s, t, address, spurious); }
      else { CountNodeInv(s, t, address, spurious); }
    case PopReadNext(seen) => QuietInv(s, t, PopCas(seen, s.heap[seen.ptr].next));
    case PopCas(seen, next) =>
      if s.head == seen {
        PopEffectInv(s, t, address, spurious);
      } else {
        QuietInv(s, t, PopRelease(seen.ptr, s.head));
      }
    case PopTake(_) => TakeInv(s, t, address, spurious);
    case PopAdd(_, _) => AddInv(s, t, address, spurious);
    case PopDelete(_, _) => DeleteInv(s, t, address, spurious);
    case PopRelease(_, _) => ReleaseInv(s, t, address, spurious);
    case PopReleaseDelete(_, _) => DeleteInv(s, t, address, spurious);
  }

  lemma BeginInv(s: State, t: nat, op: Op)
    requires Inv(s) && Enabled(s, Begin(t, op))
    ensures Inv(Apply(s, Begin(t, op)))
  {
    hide NodesOk, Chain, Consistent, Legal;
    var s' := Apply(s, Begin(t, op));
    assert ThreadOk(s, t);
    InvokeConsistent(s.record, op);
    assert RecordOk(s');
    hide RecordOk;
    IdleFrame(s, s', t);
    ThreadsFrame(s, s', t, NULL);
  }

  lemma FinishInv(s: State, t: nat)
    requires Inv(s) && Enabled(s, Finish(t))
    ensures Inv(Apply(s, Finish(t)))
  {
    hide NodesOk, Chain, Consistent, Legal;
    var s' := Apply(s, Finish(t));
    assert ThreadOk(s, t);
    ReturnConsistent(s.record, s.threads[t].call, s.threads[t].pc.result);
    assert RecordOk(s');
    hide RecordOk;
    IdleFrame(s, s', t);
    ThreadsFrame(s, s', t, NULL);
  }

  /** Invocation and return change no node and no count. */
  lemma IdleFrame(s: State, s': State, t: nat)
    requires Chain(s.heap, s.threads, s.head, s.list) && NodesOk(s) && Touches(s, s', t, NULL)
    requires s'.heap == s.heap && s'.head == s.head && s'.list == s.list && s'.born == s.born && s'.freed == s.freed
    ensures Chain(s'.heap, s'.threads, s'.head, s'.list) && NodesOk(s')
  {
    ChainMembers(s.heap, s.threads, s.head, s.list);
    forall q | q in s.heap ensures q != NULL {
      assert NodeOk(s, q);
    }
    OffListChain(s, s', t, NULL);
    NodesFrame(s, s', t, NULL);
  }

  lemma ApplyInv(s: State, a: Action)
    requires Inv(s)
    ensures Inv(Apply(s, a))
  {
    hide Inv;
    if Enabled(s, a) {
      match a
      case Begin(t, op) => BeginInv(s, t, op);
      case Step(t, address, spurious) => StepInv(s, t, address, spurious);
      case Finish(t) => FinishInv(s, t);
    }
  }

  /** Every reachable state satisfies the invariant. */
  lemma {:induction false} RunInv(n: nat, actions: seq<Action>)
    ensures Inv(Run(n, actions))
  {
    hide Inv, Apply;
    if actions == [] {
      InitInv(n);
    } else {
      RunInv(n, actions[..|actions| - 1]);
      ApplyInv(Run(n, actions[..|actions| - 1]), actions[|actions| - 1]);
    }
  }
}
