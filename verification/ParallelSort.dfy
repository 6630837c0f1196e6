/**
 * `Sorter`: quick-sort whose calls hand their lower halves to a shared stack of chunks, and that sort other
 * calls' chunks while they wait for their own.
 *
 * A frame is one call of `do_sort`; frames are numbered in the order in which they start. The stack of chunks is the
 * sequential stack that the lock-free stack implements, so a push or a pop is one step.
 */
module ParallelSort {
  datatype Purpose = Whole | HigherOf(parent: nat) | ChunkOf(owner: nat)

  datatype Phase =
    | Begin
    | Pushing
    | Checking
    | Spawning
    | Calling
    | InHigher(child: nat)
    | Waiting
    | Returned

  /** The lower half of a frame: its promise is set when it is `Sorted`; where it is before that is bookkeeping. */
  datatype Chunk = Unpushed | Queued | Running(frame: nat) | Sorted(result: seq<int>)

  datatype Frame = Frame(
    thread: nat,
    purpose: Purpose,
    input: seq<int>,
    phase: Phase,
    lower: seq<int>,
    higher: seq<int>,
    chunk: Chunk,
    high: seq<int>,
    result: seq<int>)

  /** `stacks` holds the unfinished frames of each thread, innermost last; thread 0 is the caller's. */
  datatype State = State(frames: seq<Frame>, stacks: seq<seq<nat>>, chunks: seq<nat>, limit: nat)

  /** A step of a thread; `lower` and `higher` are how `std::partition` would arrange the rest. */
  datatype Action = Action(thread: nat, lower: seq<int>, higher: seq<int>)

  // ---------- Steps ----------

  /** The contract of `std::partition` on what follows the pivot `input[0]`. */
  predicate IsPartition(input: seq<int>, lower: seq<int>, higher: seq<int>) {
    && |input| > 1
    && multiset(lower) + multiset(higher) == multiset(input[1..])
    && (forall x <- lower :: x < input[0])
    && (forall x <- higher :: x >= input[0])
  }

  function NewFrame(thread: nat, purpose: Purpose, input: seq<int>): Frame {
    Frame(thread, purpose, input, Begin, [], [], Unpushed, [], [])
  }

  function SetFrame(s: State, f: nat, frame: Frame): State
    requires f < |s.frames|
  {
    s.(frames := s.frames[f := frame])
  }

  /** Thread `t` enters a call. */
  function Enter(s: State, t: nat, purpose: Purpose, input: seq<int>): State
    requires t < |s.stacks|
  {
    s.(frames := s.frames + [NewFrame(t, purpose, input)], stacks := s.stacks[t := s.stacks[t] + [|s.frames|]])
  }

  /** The topmost frame `f` of `t` returns `r`; whoever called it goes on with `r`. */
  function Leave(s: State, t: nat, f: nat, r: seq<int>): State
    requires t < |s.stacks| && f < |s.frames| && |s.stacks[t]| > 0
  {
    var s1 := SetFrame(s, f, s.frames[f].(phase := Returned, result := r));
    var s2 := s1.(stacks := s.stacks[t := s.stacks[t][..|s.stacks[t]| - 1]]);
    match s.frames[f].purpose
    case Whole => s2
    case HigherOf(p) => if p < |s.frames| then SetFrame(s2, p, s2.frames[p].(high := r, phase := Waiting)) else s2
    case ChunkOf(g) => if g < |s.frames| then SetFrame(s2, g, s2.frames[g].(chunk := Sorted(r))) else s2
  }

  /** `try_sort_chunk`: sorts the topmost chunk, if there is one. */
  function TrySortChunk(s: State, t: nat): State
    requires t < |s.stacks|
  {
    if s.chunks == [] || s.chunks[0] >= |s.frames| then s
    else
      var g := s.chunks[0];
      var s1 := SetFrame(s, g, s.frames[g].(chunk := Running(|s.frames|))).(chunks := s.chunks[1..]);
      Enter(s1, t, ChunkOf(g), s.frames[g].lower)
  }

  predicate HasTop(s: State, t: nat) {
    t < |s.stacks| && s.stacks[t] != [] && s.stacks[t][|s.stacks[t]| - 1] < |s.frames|
  }

  function TopOf(s: State, t: nat): nat
    requires HasTop(s, t)
  {
    s.stacks[t][|s.stacks[t]| - 1]
  }

  function StepOf(s: State, a: Action): State {
    var t := a.thread;
    if t >= |s.stacks| then s
    else if !HasTop(s, t) then (if t == 0 then s else TrySortChunk(s, t))
    else
      var f := TopOf(s, t);
      var frame := s.frames[f];
      match frame.phase
      case Begin =>
        if |frame.input| < 2 then Leave(s, t, f, frame.input)
        else if !IsPartition(frame.input, a.lower, a.higher) then s
        else SetFrame(s, f, frame.(phase := Pushing, lower := a.lower, higher := a.higher))
      case Pushing =>
        SetFrame(s, f, frame.(phase := Checking, chunk := Queued)).(chunks := [f] + s.chunks)
      case Checking =>
        SetFrame(s, f, frame.(phase := if |s.stacks| - 1 < s.limit then Spawning else Calling))
      case Spawning => SetFrame(s, f, frame.(phase := Calling)).(stacks := s.stacks + [[]])
      case Calling => Enter(SetFrame(s, f, frame.(phase := InHigher(|s.frames|))), t, HigherOf(f), frame.higher)
      case InHigher(child) => s
      case Waiting =>
        if frame.chunk.Sorted? && frame.input != []
        then Leave(s, t, f, frame.chunk.result + [frame.input[0]] + frame.high)
        else TrySortChunk(s, t)
      case Returned => s
  }

  function Init(input: seq<int>, limit: nat): State {
    State([NewFrame(0, Whole, input)], [[0]], [], limit)
  }

  /** The state after `actions`, on a new sorter of at most about `limit` threads. */
  function Run(input: seq<int>, limit: nat, actions: seq<Action>): State {
    if actions == [] then Init(input, limit)
    else StepOf(Run(input, limit, actions[..|actions| - 1]), actions[|actions| - 1])
  }

  // ---------- The invariant ----------

  ghost predicate InOrder(s: seq<int>) {
    forall i, j :: 0 <= i < j < |s| ==> s[i] <= s[j]
  }

  ghost predicate SortOf(s: seq<int>, input: seq<int>) {
    InOrder(s) && multiset(s) == multiset(input)
  }

  ghost predicate Live(s: State, f: nat) {
    f < |s.frames| && !s.frames[f].phase.Returned?
  }

  /** Who called a frame, and what that frame does meanwhile. */
  ghost predicate CallerOk(s: State, f: nat)
    requires f < |s.frames|
  {
    var frame := s.frames[f];
    match frame.purpose
    case Whole => f == 0
    case HigherOf(p) =>
      p < f && (Live(s, f) ==> s.frames[p].phase == InHigher(f) && s.frames[p].higher == frame.input)
    case ChunkOf(g) =>
      g < f && (Live(s, f) ==> Live(s, g) && s.frames[g].chunk == Running(f) && s.frames[g].lower == frame.input)
  }

  /** Where the two halves of a frame are. */
  ghost predicate HalvesOk(s: State, f: nat)
    requires f < |s.frames|
  {
    var frame := s.frames[f];
    && (!frame.phase.Begin? && !frame.phase.Returned? ==> IsPartition(frame.input, frame.lower, frame.higher))
    && (frame.phase.Begin? || frame.phase.Pushing? ==> frame.chunk.Unpushed?)
    && (frame.chunk.Unpushed? ==> frame.phase.Begin? || frame.phase.Pushing? || frame.phase.Returned?)
    && (frame.chunk.Sorted? ==> SortOf(frame.chunk.result, frame.lower))
    && (frame.chunk.Running? ==>
          var c := frame.chunk.frame; f < c && Live(s, c) && s.frames[c].purpose == ChunkOf(f))
    && (frame.phase.InHigher? ==>
          var c := frame.phase.child;
          f < c && Live(s, c) && s.frames[c].purpose == HigherOf(f) && s.frames[c].thread == frame.thread)
    && (frame.phase.Waiting? ==> SortOf(frame.high, frame.higher))
    && (frame.phase.Returned? ==> SortOf(frame.result, frame.input) && !frame.chunk.Queued? && !frame.chunk.Running?)
  }

  ghost predicate FrameOk(s: State, f: nat)
    requires f < |s.frames|
  {
    CallerOk(s, f) && HalvesOk(s, f)
  }

  /** Frame `f` is on its thread's stack. */
  ghost predicate Stacked(s: State, f: nat)
    requires f < |s.frames|
  {
    s.frames[f].thread < |s.stacks| && f in s.stacks[s.frames[f].thread]
  }

  /** The frames of one thread: unfinished, the later started further in. */
  ghost predicate StackOk(s: State, t: nat)
    requires t < |s.stacks|
  {
    && (forall j :: 0 <= j < |s.stacks[t]| ==> Live(s, s.stacks[t][j]) && s.frames[s.stacks[t][j]].thread == t)
    && (forall i, j :: 0 <= i < j < |s.stacks[t]| ==> s.stacks[t][i] < s.stacks[t][j])
  }

  ghost predicate ChunksOk(s: State) {
    && (forall i, j :: 0 <= i < j < |s.chunks| ==> s.chunks[i] != s.chunks[j])
    && (forall g :: g in s.chunks ==> g < |s.frames| && s.frames[g].chunk.Queued?)
    && (forall g: nat :: g < |s.frames| && s.frames[g].chunk.Queued? ==> g in s.chunks)
  }

  ghost predicate Inv(s: State) {
    && |s.frames| > 0 && |s.stacks| > 0
    && (forall f: nat :: f < |s.frames| ==> FrameOk(s, f))
    && (forall f: nat :: f < |s.frames| && Live(s, f) ==> Stacked(s, f))
    && (forall t: nat :: t < |s.stacks| ==> StackOk(s, t))
    && ChunksOk(s)
  }

  lemma InitInv(input: seq<int>, limit: nat)
    ensures Inv(Init(input, limit))
  {
  }

  /** What the invariant says of one frame. */
  lemma FrameFacts(s: State, f: nat)
    requires Inv(s) && f < |s.frames|
    ensures FrameOk(s, f) && (Live(s, f) ==> Stacked(s, f))
  {
  }

  lemma InvOf(s: State)
    requires |s.frames| > 0 && |s.stacks| > 0
    requires forall f: nat :: f < |s.frames| ==> FrameOk(s, f)
    requires forall f: nat :: f < |s.frames| && Live(s, f) ==> Stacked(s, f)
    requires forall t: nat :: t < |s.stacks| ==> StackOk(s, t)
    requires ChunksOk(s)
    ensures Inv(s)
  {
  }

  /** The innermost frame of a thread is unfinished and is not waiting for its higher half. */
  lemma TopFacts(s: State, t: nat)
    requires Inv(s) && HasTop(s, t)
    ensures Live(s, TopOf(s, t)) && s.frames[TopOf(s, t)].thread == t && !s.frames[TopOf(s, t)].phase.InHigher?
    ensures TopOf(s, t) in s.stacks[t]
  {
    hide ChunksOk, FrameOk;
    assert StackOk(s, t);
    forall f | f in s.stacks[t] && s.frames[f].phase.InHigher? ensures f != TopOf(s, t) {
      InnerChild(s, f);
    }
  }

  /** A call of the higher half runs further in on the same stack. */
  lemma InnerChild(s: State, f: nat)
    requires Inv(s) && f < |s.frames| && s.frames[f].phase.InHigher?
    ensures var c := s.frames[f].phase.child;
      f < c && Live(s, c) && Stacked(s, c) && s.frames[c].thread == s.frames[f].thread
  {
    FrameFacts(s, f);
    FrameFacts(s, s.frames[f].phase.child);
  }

  // ---------- Steps within one frame ----------

  /** Frame `f` goes on to a new phase of its own; `chunks` may change with it. */
  ghost predicate Changes(s: State, s': State, f: nat) {
    && f < |s.frames| == |s'.frames| && s'.stacks == s.stacks
    && (forall c: nat :: c < |s.frames| && c != f ==> s'.frames[c] == s.frames[c])
    && var (a, b) := (s.frames[f], s'.frames[f]);
    && b.thread == a.thread && b.purpose == a.purpose && b.input == a.input
    && !a.phase.Returned? && !b.phase.Returned? && !a.phase.InHigher? && !b.phase.InHigher?
    && (a.chunk.Running? || b.chunk.Running? ==> a.chunk == b.chunk && a.lower == b.lower)
  }

  lemma ChangeFrame(s: State, s': State, f: nat, c: nat)
    requires Inv(s) && Changes(s, s', f) && HalvesOk(s', f) && c < |s.frames|
    ensures FrameOk(s', c)
  {
    hide ChunksOk, StackOk, Stacked;
    assert FrameOk(s, c) && FrameOk(s, f);
    hide Inv, IsPartition, SortOf;
  }

  lemma ChangeInv(s: State, s': State, f: nat)
    requires Inv(s) && Changes(s, s', f) && HalvesOk(s', f) && ChunksOk(s')
    ensures Inv(s')
  {
    hide FrameOk, HalvesOk, ChunksOk;
    forall c: nat | c < |s'.frames| ensures FrameOk(s', c) {
      ChangeFrame(s, s', f, c);
    }
    forall c: nat | c < |s'.frames| && Live(s', c) ensures Stacked(s', c) {
      assert Stacked(s, c);
    }
    forall t: nat | t < |s'.stacks| ensures StackOk(s', t) {
      assert StackOk(s, t);
    }
    InvOf(s');
  }

  lemma OwnStepInv(s: State, a: Action)
    requires Inv(s) && HasTop(s, a.thread)
    requires var ph := s.frames[TopOf(s, a.thread)].phase; ph.Begin? || ph.Checking?
    requires s.frames[TopOf(s, a.thread)].phase.Begin? ==> |s.frames[TopOf(s, a.thread)].input| >= 2
    ensures Inv(StepOf(s, a))
  {
    var s', f := StepOf(s, a), TopOf(s, a.thread);
    TopFacts(s, a.thread);
    FrameFacts(s, f);
    if s' != s {
      assert ChunksOk(s') by { assert ChunksOk(s); hide FrameOk; }
      hide Inv, ChunksOk, IsPartition;
      ChangeInv(s, s', f);
    }
  }

  lemma PushInv(s: State, a: Action)
    requires Inv(s) && HasTop(s, a.thread) && s.frames[TopOf(s, a.thread)].phase.Pushing?
    ensures Inv(StepOf(s, a))
  {
    var s', f := StepOf(s, a), TopOf(s, a.thread);
    TopFacts(s, a.thread);
    FrameFacts(s, f);
    assert ChunksOk(s') by { assert ChunksOk(s); hide FrameOk; }
    hide Inv, ChunksOk, IsPartition;
    ChangeInv(s, s', f);
  }

  lemma SpawnInv(s: State, a: Action)
    requires Inv(s) && HasTop(s, a.thread) && s.frames[TopOf(s, a.thread)].phase.Spawning?
    ensures Inv(StepOf(s, a))
  {
    var s', f := StepOf(s, a), TopOf(s, a.thread);
    var s1 := SetFrame(s, f, s.frames[f].(phase := Calling));
    TopFacts(s, a.thread);
    FrameFacts(s, f);
    assert ChunksOk(s1) by { assert ChunksOk(s); hide FrameOk; }
    ChangeInv(s, s1, f);
    hide FrameOk, ChunksOk;
    forall c: nat | c < |s'.frames| ensures FrameOk(s', c) { MoreThreads(s1, c); }
    forall c: nat | c < |s'.frames| && Live(s', c) ensures Stacked(s', c) { assert Stacked(s1, c); }
    forall t: nat | t < |s'.stacks| ensures StackOk(s', t) {
      if t < |s.stacks| { assert StackOk(s1, t); }
    }
    MoreThreadsChunks(s1);
    InvOf(s');
  }

  lemma MoreThreads(s: State, c: nat)
    requires c < |s.frames| && FrameOk(s, c)
    ensures FrameOk(s.(stacks := s.stacks + [[]]), c)
  {
  }

  lemma MoreThreadsChunks(s: State)
    requires ChunksOk(s)
    ensures ChunksOk(s.(stacks := s.stacks + [[]]))
  {
  }

  // ---------- Steps that concern two frames ----------

  /** What frame `c` relies on in another frame `x` has not changed. */
  ghost predicate KeptFor(s: State, s': State, c: nat, x: nat) {
    x < |s.frames| && x < |s'.frames| &&
    var (a, b) := (s.frames[x], s'.frames[x]);
    && b.purpose == a.purpose && b.thread == a.thread
    && (a.phase == InHigher(c) ==> b.phase == a.phase && b.higher == a.higher)
    && (a.chunk == Running(c) ==> b.chunk == a.chunk && b.lower == a.lower)
    && (Live(s, x) ==> Live(s', x))
  }

  ghost predicate SameFrame(s: State, s': State, c: nat) {
    c < |s.frames| && c < |s'.frames| && s'.frames[c] == s.frames[c]
  }

  lemma FrameKept(s: State, s': State, c: nat)
    requires c < |s.frames| && FrameOk(s, c) && SameFrame(s, s', c)
    requires s.frames[c].purpose.HigherOf? && Live(s, c) ==> KeptFor(s, s', c, s.frames[c].purpose.parent)
    requires s.frames[c].purpose.ChunkOf? && Live(s, c) ==> KeptFor(s, s', c, s.frames[c].purpose.owner)
    requires s.frames[c].chunk.Running? ==> KeptFor(s, s', c, s.frames[c].chunk.frame)
    requires s.frames[c].phase.InHigher? ==> KeptFor(s, s', c, s.frames[c].phase.child)
    ensures FrameOk(s', c)
  {
    hide IsPartition, SortOf;
  }

  // ---------- Entering a call ----------

  lemma EnterStacks(s: State, s1: State, t: nat, purpose: Purpose, input: seq<int>)
    requires Inv(s) && t < |s.stacks| && s1.stacks == s.stacks && |s1.frames| == |s.frames|
    requires forall c: nat ::
      c < |s.frames| ==>
        s1.frames[c].thread == s.frames[c].thread && (Live(s1, c) <==> Live(s, c))
    ensures var s' := Enter(s1, t, purpose, input);
      && (forall c: nat :: c < |s'.frames| && Live(s', c) ==> Stacked(s', c))
      && (forall u: nat :: u < |s'.stacks| ==> StackOk(s', u))
  {
    hide FrameOk, ChunksOk;
    var s' := Enter(s1, t, purpose, input);
    forall c: nat | c < |s'.frames| && Live(s', c) ensures Stacked(s', c) {
      if c < |s.frames| { assert Stacked(s, c); }
    }
    forall u: nat | u < |s'.stacks| ensures StackOk(s', u) {
      assert StackOk(s, u);
    }
  }

  lemma CallingFrame(s: State, a: Action, c: nat)
    requires Inv(s) && HasTop(s, a.thread) && s.frames[TopOf(s, a.thread)].phase.Calling?
    requires c < |StepOf(s, a).frames|
    ensures FrameOk(StepOf(s, a), c)
  {
    hide ChunksOk, StackOk, Stacked, IsPartition, SortOf;
    var f, s' := TopOf(s, a.thread), StepOf(s, a);
    TopFacts(s, a.thread);
    FrameFacts(s, f);
    if c < |s.frames| { FrameFacts(s, c); }
    hide Inv;
    if c < |s.frames| && c != f {
      FrameKept(s, s', c);
    }
  }

  lemma CallingInv(s: State, a: Action)
    requires Inv(s) && HasTop(s, a.thread) && s.frames[TopOf(s, a.thread)].phase.Calling?
    ensures Inv(StepOf(s, a))
  {
    var t, f, s' := a.thread, TopOf(s, a.thread), StepOf(s, a);
    TopFacts(s, t);
    var s1 := SetFrame(s, f, s.frames[f].(phase := InHigher(|s.frames|)));
    EnterStacks(s, s1, t, HigherOf(f), s.frames[f].higher);
    assert ChunksOk(s') by { assert ChunksOk(s); hide FrameOk, StackOk, Stacked; }
    forall c: nat | c < |s'.frames| ensures FrameOk(s', c) { CallingFrame(s, a, c); }
    hide FrameOk, StackOk, Stacked, ChunksOk;
    InvOf(s');
  }

  lemma TakeChunkFrame(s: State, t: nat, c: nat)
    requires Inv(s) && t < |s.stacks| && s.chunks != [] && c < |TrySortChunk(s, t).frames|
    ensures FrameOk(TrySortChunk(s, t), c)
  {
    hide StackOk, Stacked, IsPartition, SortOf;
    var g, s' := s.chunks[0], TrySortChunk(s, t);
    assert g in s.chunks && g < |s.frames| && s.frames[g].chunk.Queued?;
    FrameFacts(s, g);
    if c < |s.frames| { FrameFacts(s, c); }
    hide Inv, ChunksOk;
    if c < |s.frames| && c != g {
      FrameKept(s, s', c);
    }
  }

  lemma TakeChunkChunks(s: State, t: nat)
    requires Inv(s) && t < |s.stacks| && s.chunks != []
    ensures ChunksOk(TrySortChunk(s, t))
  {
    hide FrameOk, StackOk, Stacked;
    var g, s' := s.chunks[0], TrySortChunk(s, t);
    assert s.chunks == [g] + s.chunks[1..];
    forall h | h in s'.chunks ensures h < |s'.frames| && s'.frames[h].chunk.Queued? {
      assert h in s.chunks && h != g;
    }
    forall h: nat | h < |s'.frames| && s'.frames[h].chunk.Queued? ensures h in s'.chunks {
      assert h < |s.frames| && h != g && h in s.chunks;
    }
  }

  lemma TakeChunkInv(s: State, t: nat)
    requires Inv(s) && t < |s.stacks|
    ensures Inv(TrySortChunk(s, t))
  {
    if s.chunks != [] {
      var g, s' := s.chunks[0], TrySortChunk(s, t);
      assert g in s.chunks && g < |s.frames|;
      var s1 := SetFrame(s, g, s.frames[g].(chunk := Running(|s.frames|))).(chunks := s.chunks[1..]);
      EnterStacks(s, s1, t, ChunkOf(g), s.frames[g].lower);
      TakeChunkChunks(s, t);
      forall c: nat | c < |s'.frames| ensures FrameOk(s', c) { TakeChunkFrame(s, t, c); }
      hide FrameOk, StackOk, Stacked, ChunksOk;
      InvOf(s');
    }
  }

  // ---------- Leaving a call ----------

  lemma LeaveLive(s: State, t: nat, r: seq<int>, c: nat)
    requires Inv(s) && HasTop(s, t) && c < |s.frames|
    ensures var s' := Leave(s, t, TopOf(s, t), r);
      && |s'.frames| == |s.frames| && s'.frames[c].thread == s.frames[c].thread
      && (Live(s', c) <==> Live(s, c) && c != TopOf(s, t))
      && s'.stacks == s.stacks[t := s.stacks[t][..|s.stacks[t]| - 1]]
  {
    TopFacts(s, t);
    CallerFacts(s, t);
    hide Inv;
  }

  lemma LeaveStacks(s: State, t: nat, r: seq<int>)
    requires Inv(s) && HasTop(s, t)
    ensures var s' := Leave(s, t, TopOf(s, t), r);
      && |s'.stacks| == |s.stacks| && |s'.frames| == |s.frames|
      && (forall c: nat :: c < |s'.frames| && Live(s', c) ==> Stacked(s', c))
      && (forall u: nat :: u < |s'.stacks| ==> StackOk(s', u))
  {
    var f, s' := TopOf(s, t), Leave(s, t, TopOf(s, t), r);
    LeaveLive(s, t, r, f);
    hide FrameOk, ChunksOk, Leave;
    forall c: nat | c < |s'.frames| && Live(s', c) ensures Stacked(s', c) {
      LeaveLive(s, t, r, c);
      assert Stacked(s, c);
    }
    assert StackOk(s, t);
    forall u: nat | u < |s'.stacks| ensures StackOk(s', u) {
      assert StackOk(s, u);
      forall j | 0 <= j < |s'.stacks[u]| ensures Live(s', s'.stacks[u][j]) && s'.frames[s'.stacks[u][j]].thread == u {
        assert s'.stacks[u][j] == s.stacks[u][j];
        LeaveLive(s, t, r, s.stacks[u][j]);
      }
    }
  }

  /** The caller of the innermost frame of a thread is unfinished. */
  lemma CallerFacts(s: State, t: nat)
    requires Inv(s) && HasTop(s, t)
    ensures match s.frames[TopOf(s, t)].purpose
      case Whole => true
      case HigherOf(p) => Live(s, p) && p < TopOf(s, t) && s.frames[p].phase == InHigher(TopOf(s, t))
      case ChunkOf(g) => Live(s, g) && g < TopOf(s, t) && s.frames[g].chunk == Running(TopOf(s, t))
  {
    TopFacts(s, t);
    FrameFacts(s, TopOf(s, t));
  }

  /** The frame that goes on when the innermost frame of `t` returns. */
  ghost predicate Calls(s: State, c: nat, f: nat)
    requires f < |s.frames|
  {
    s.frames[f].purpose == HigherOf(c) || s.frames[f].purpose == ChunkOf(c)
  }

  lemma LeaveOther(s: State, t: nat, r: seq<int>, c: nat)
    requires Inv(s) && HasTop(s, t) && c < |s.frames| && c != TopOf(s, t) && !Calls(s, c, TopOf(s, t))
    requires !s.frames[TopOf(s, t)].chunk.Running?
    ensures var s' := Leave(s, t, TopOf(s, t), r); c < |s'.frames| && FrameOk(s', c)
  {
    var f, s' := TopOf(s, t), Leave(s, t, TopOf(s, t), r);
    hide ChunksOk, StackOk, Stacked, IsPartition, SortOf;
    TopFacts(s, t);
    CallerFacts(s, t);
    FrameFacts(s, c);
    hide Inv;
    assert SameFrame(s, s', c);
    FrameKept(s, s', c);
  }

  lemma LeaveSelf(s: State, t: nat, r: seq<int>)
    requires Inv(s) && HasTop(s, t) && SortOf(r, s.frames[TopOf(s, t)].input)
    requires !s.frames[TopOf(s, t)].chunk.Queued? && !s.frames[TopOf(s, t)].chunk.Running?
    ensures var s' := Leave(s, t, TopOf(s, t), r); FrameOk(s', TopOf(s, t))
  {
    hide ChunksOk, StackOk, Stacked, IsPartition, SortOf;
    TopFacts(s, t);
    CallerFacts(s, t);
    FrameFacts(s, TopOf(s, t));
    hide Inv;
  }

  lemma LeaveCaller(s: State, t: nat, r: seq<int>, c: nat)
    requires Inv(s) && HasTop(s, t) && SortOf(r, s.frames[TopOf(s, t)].input) && Calls(s, c, TopOf(s, t))
    requires !s.frames[TopOf(s, t)].chunk.Running?
    ensures var s' := Leave(s, t, TopOf(s, t), r); c < |s'.frames| && FrameOk(s', c)
  {
    var f, s' := TopOf(s, t), Leave(s, t, TopOf(s, t), r);
    hide ChunksOk, StackOk, Stacked, IsPartition, SortOf;
    TopFacts(s, t);
    CallerFacts(s, t);
    FrameFacts(s, f);
    FrameFacts(s, c);
    hide Inv;
  }

  lemma LeaveFrame(s: State, t: nat, r: seq<int>, c: nat)
    requires Inv(s) && HasTop(s, t) && SortOf(r, s.frames[TopOf(s, t)].input) && c < |s.frames|
    requires !s.frames[TopOf(s, t)].chunk.Queued? && !s.frames[TopOf(s, t)].chunk.Running?
    ensures var s' := Leave(s, t, TopOf(s, t), r); c < |s'.frames| && FrameOk(s', c)
  {
    hide Inv, FrameOk, SortOf;
    if c == TopOf(s, t) {
      LeaveSelf(s, t, r);
    } else if Calls(s, c, TopOf(s, t)) {
      LeaveCaller(s, t, r, c);
    } else {
      LeaveOther(s, t, r, c);
    }
  }

  lemma LeaveChunks(s: State, t: nat, r: seq<int>)
    requires Inv(s) && HasTop(s, t)
    ensures ChunksOk(Leave(s, t, TopOf(s, t), r))
  {
    CallerFacts(s, t);
    hide FrameOk, StackOk, Stacked;
  }

  lemma LeaveInv(s: State, t: nat, r: seq<int>)
    requires Inv(s) && HasTop(s, t) && SortOf(r, s.frames[TopOf(s, t)].input)
    requires !s.frames[TopOf(s, t)].chunk.Queued? && !s.frames[TopOf(s, t)].chunk.Running?
    ensures Inv(Leave(s, t, TopOf(s, t), r))
  {
    var s' := Leave(s, t, TopOf(s, t), r);
    LeaveStacks(s, t, r);
    LeaveChunks(s, t, r);
    forall c: nat | c < |s'.frames| ensures FrameOk(s', c) { LeaveFrame(s, t, r, c); }
    hide FrameOk, StackOk, Stacked, ChunksOk;
    InvOf(s');
  }

  /** Lower half, pivot and upper half, each sorted, are the whole sorted. */
  lemma JoinedSorted(input: seq<int>, lower: seq<int>, higher: seq<int>, low: seq<int>, high: seq<int>)
    requires IsPartition(input, lower, higher) && SortOf(low, lower) && SortOf(high, higher)
    ensures SortOf(low + [input[0]] + high, input)
  {
    var s := low + [input[0]] + high;
    forall x | x in low ensures x < input[0] {
      assert x in multiset(low) && x in multiset(lower) && x in lower;
    }
    forall x | x in high ensures x >= input[0] {
      assert x in multiset(high) && x in multiset(higher) && x in higher;
    }
    forall i, j | 0 <= i < j < |s| ensures s[i] <= s[j] {
      if j < |low| {
      } else if j == |low| {
        assert low[i] in low;
      } else {
        assert high[j - |low| - 1] in high;
        if i < |low| { assert low[i] in low; }
      }
    }
    assert input == [input[0]] + input[1..];
  }

  lemma FinishInv(s: State, a: Action)
    requires Inv(s) && HasTop(s, a.thread)
    requires var frame := s.frames[TopOf(s, a.thread)];
      (frame.phase.Begin? && |frame.input| < 2) || (frame.phase.Waiting? && frame.chunk.Sorted?)
    ensures Inv(StepOf(s, a))
  {
    var t, f := a.thread, TopOf(s, a.thread);
    FrameFacts(s, f);
    hide Inv;
    var frame := s.frames[f];
    if frame.phase.Begin? {
      LeaveInv(s, t, frame.input);
    } else {
      JoinedSorted(frame.input, frame.lower, frame.higher, frame.chunk.result, frame.high);
      LeaveInv(s, t, frame.chunk.result + [frame.input[0]] + frame.high);
    }
  }

  lemma StepInv(s: State, a: Action)
    requires Inv(s)
    ensures Inv(StepOf(s, a))
  {
    var t := a.thread;
    if HasTop(s, t) {
      hide Inv;
      var frame := s.frames[TopOf(s, t)];
      match frame.phase
      case Begin => if |frame.input| < 2 { FinishInv(s, a); } else { OwnStepInv(s, a); }
      case Pushing => PushInv(s, a);
      case Checking => OwnStepInv(s, a);
      case Spawning => SpawnInv(s, a);
      case Calling => CallingInv(s, a);
      case InHigher(_) =>
      case Waiting => if frame.chunk.Sorted? && frame.input != [] { FinishInv(s, a); } else { TakeChunkInv(s, t); }
      case Returned =>
    } else if t < |s.stacks| && t != 0 {
      TakeChunkInv(s, t);
    }
  }

  lemma {:induction false} RunInv(input: seq<int>, limit: nat, actions: seq<Action>)
    ensures Inv(Run(input, limit, actions))
  {
    hide Inv, StepOf;
    if actions == [] {
      InitInv(input, limit);
    } else {
      RunInv(input, limit, actions[..|actions| - 1]);
      StepInv(Run(input, limit, actions[..|actions| - 1]), actions[|actions| - 1]);
    }
  }
}
