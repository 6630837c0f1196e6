/** What holds of every schedule of the parallel quick-sort. */
module ParallelSortTheorems {
  import opened ParallelSort

  // ---------- The result ----------

  /** From `s` to `s'`, frame `f` keeps its argument, and its promise keeps its value. */
  ghost predicate Keeps(s: State, s': State, f: nat) {
    && f < |s.frames| && f < |s'.frames|
    && s'.frames[f].input == s.frames[f].input && s'.frames[f].purpose == s.frames[f].purpose
    && (s.frames[f].chunk.Sorted? ==> s'.frames[f].chunk == s.frames[f].chunk)
    && (s'.frames[f].chunk.Sorted? ==> s.frames[f].chunk.Sorted? || s.frames[f].chunk.Running?)
  }

  lemma LeaveKeeps(s: State, t: nat, r: seq<int>, f: nat)
    requires Inv(s) && HasTop(s, t) && f < |s.frames|
    ensures Keeps(s, Leave(s, t, TopOf(s, t), r), f)
  {
    TopFacts(s, t);
    CallerFacts(s, t);
    hide Inv;
  }

  lemma TakeKeeps(s: State, t: nat, f: nat)
    requires Inv(s) && t < |s.stacks| && f < |s.frames|
    ensures Keeps(s, TrySortChunk(s, t), f)
  {
    ChunksFacts(s);
    hide Inv;
  }

  lemma PhaseKeeps(s: State, a: Action, f: nat)
    requires Inv(s) && HasTop(s, a.thread) && f < |s.frames|
    requires var frame := s.frames[TopOf(s, a.thread)];
      !(frame.phase.Begin? && |frame.input| < 2) && !frame.phase.Waiting?
    ensures Keeps(s, StepOf(s, a), f)
  {
    FrameFacts(s, TopOf(s, a.thread));
    hide Inv, IsPartition, SortOf;
  }

  /** Calls keep their arguments, and a promise that is set keeps its value. */
  lemma StepKeeps(s: State, a: Action, f: nat)
    requires Inv(s) && f < |s.frames|
    ensures Keeps(s, StepOf(s, a), f)
  {
    hide Inv, Keeps;
    var t := a.thread;
    assert Keeps(s, s, f) by { KeepsItself(s, f); }
    if HasTop(s, t) {
      var frame := s.frames[TopOf(s, t)];
      if frame.phase.Begin? && |frame.input| < 2 {
        LeaveKeeps(s, t, frame.input, f);
      } else if !frame.phase.Waiting? {
        PhaseKeeps(s, a, f);
      } else if frame.chunk.Sorted? && frame.input != [] {
        LeaveKeeps(s, t, frame.chunk.result + [frame.input[0]] + frame.high, f);
      } else {
        TakeKeeps(s, t, f);
      }
    } else if t < |s.stacks| {
      TakeKeeps(s, t, f);
    }
  }

  lemma KeepsItself(s: State, f: nat)
    requires f < |s.frames|
    ensures Keeps(s, s, f)
  {
  }

  lemma ChunksFacts(s: State)
    requires Inv(s)
    ensures forall g :: g in s.chunks ==> g < |s.frames| && s.frames[g].chunk.Queued?
    ensures s.chunks != [] ==> s.chunks[0] in s.chunks
  {
    hide FrameOk, StackOk, Stacked;
  }

  lemma {:induction false} FirstFrame(input: seq<int>, limit: nat, actions: seq<Action>)
    ensures var s := Run(input, limit, actions); |s.frames| > 0 && s.frames[0].input == input
  {
    hide Inv, StepOf;
    if actions != [] {
      var most := actions[..|actions| - 1];
      FirstFrame(input, limit, most);
      RunInv(input, limit, most);
      StepKeeps(Run(input, limit, most), actions[|actions| - 1], 0);
    }
  }

  /** Under every schedule, when the call of the user returns, it returns the input sorted. */
  lemma ResultIsSorted(input: seq<int>, limit: nat, actions: seq<Action>)
    ensures var s := Run(input, limit, actions);
      |s.frames| > 0 && (s.frames[0].phase.Returned? ==> SortOf(s.frames[0].result, input))
  {
    FirstFrame(input, limit, actions);
    RunInv(input, limit, actions);
    FrameFacts(Run(input, limit, actions), 0);
  }

  /** A promise that is set keeps its value, whatever the threads do after it. */
  lemma {:induction false} PromiseKeepsValue(input: seq<int>, limit: nat, before: seq<Action>, after: seq<Action>,
                                             f: nat)
    requires f < |Run(input, limit, before).frames| && Run(input, limit, before).frames[f].chunk.Sorted?
    ensures f < |Run(input, limit, before + after).frames|
    ensures Run(input, limit, before + after).frames[f].chunk == Run(input, limit, before).frames[f].chunk
    decreases |after|
  {
    hide Inv, StepOf;
    if after == [] {
      assert before + after == before;
    } else {
      var most := after[..|after| - 1];
      PromiseKeepsValue(input, limit, before, most, f);
      assert (before + after)[..|before + after| - 1] == before + most;
      RunInv(input, limit, before + most);
      StepKeeps(Run(input, limit, before + most), after[|after| - 1], f);
    }
  }

  /** The step in which the frame that sorts the chunk of `g` returns, and its thread calls `set_value`. */
  predicate SetsPromise(s: State, a: Action, g: nat) {
    && HasTop(s, a.thread) && s.frames[TopOf(s, a.thread)].purpose == ChunkOf(g)
    && TopOf(s, a.thread) < |StepOf(s, a).frames| && StepOf(s, a).frames[TopOf(s, a.thread)].phase.Returned?
  }

  ghost predicate IsSet(s: State, g: nat) {
    g < |s.frames| && s.frames[g].chunk.Sorted?
  }

  /** The number of calls of `set_value` on the promise of frame `g`. */
  ghost function TimesSet(input: seq<int>, limit: nat, actions: seq<Action>, g: nat): nat {
    if actions == [] then 0
    else
      var most, a := actions[..|actions| - 1], actions[|actions| - 1];
      TimesSet(input, limit, most, g) + (if SetsPromise(Run(input, limit, most), a, g) then 1 else 0)
  }

  lemma LeaveSets(s: State, t: nat, r: seq<int>, g: nat)
    requires Inv(s) && HasTop(s, t)
    ensures s.frames[TopOf(s, t)].purpose == ChunkOf(g) ==> !IsSet(s, g) && IsSet(Leave(s, t, TopOf(s, t), r), g)
    ensures s.frames[TopOf(s, t)].purpose != ChunkOf(g) ==> IsSet(Leave(s, t, TopOf(s, t), r), g) == IsSet(s, g)
    ensures TopOf(s, t) < |Leave(s, t, TopOf(s, t), r).frames|
    ensures Leave(s, t, TopOf(s, t), r).frames[TopOf(s, t)].phase.Returned?
  {
    TopFacts(s, t);
    CallerFacts(s, t);
    hide Inv;
  }

  lemma TakeSets(s: State, t: nat, g: nat)
    requires Inv(s) && t < |s.stacks|
    ensures IsSet(TrySortChunk(s, t), g) == IsSet(s, g)
    ensures HasTop(s, t) ==> !TrySortChunk(s, t).frames[TopOf(s, t)].phase.Returned?
  {
    ChunksFacts(s);
    if HasTop(s, t) { TopFacts(s, t); }
    hide Inv;
  }

  lemma PhaseSets(s: State, a: Action, g: nat)
    requires Inv(s) && HasTop(s, a.thread)
    requires var frame := s.frames[TopOf(s, a.thread)];
      !(frame.phase.Begin? && |frame.input| < 2) && !frame.phase.Waiting?
    ensures IsSet(StepOf(s, a), g) == IsSet(s, g)
    ensures TopOf(s, a.thread) < |StepOf(s, a).frames| && !StepOf(s, a).frames[TopOf(s, a.thread)].phase.Returned?
  {
    TopFacts(s, a.thread);
    FrameFacts(s, TopOf(s, a.thread));
    hide Inv, IsPartition, SortOf;
  }

  /** A call of `set_value` finds the promise not set and sets it; no other step does. */
  lemma StepSets(s: State, a: Action, g: nat)
    requires Inv(s)
    ensures SetsPromise(s, a, g) ==> !IsSet(s, g)
    ensures IsSet(StepOf(s, a), g) <==> IsSet(s, g) || SetsPromise(s, a, g)
  {
    hide Inv, IsSet, Leave, TrySortChunk;
    var t := a.thread;
    if HasTop(s, t) {
      var frame := s.frames[TopOf(s, t)];
      if frame.phase.Begin? && |frame.input| < 2 {
        LeaveSets(s, t, frame.input, g);
      } else if !frame.phase.Waiting? {
        PhaseSets(s, a, g);
      } else if frame.chunk.Sorted? && frame.input != [] {
        LeaveSets(s, t, frame.chunk.result + [frame.input[0]] + frame.high, g);
      } else {
        TakeSets(s, t, g);
      }
    } else if t < |s.stacks| {
      TakeSets(s, t, g);
    }
  }

  lemma {:induction false} TimesSetIsSet(input: seq<int>, limit: nat, actions: seq<Action>, g: nat)
    ensures TimesSet(input, limit, actions, g) == if IsSet(Run(input, limit, actions), g) then 1 else 0
    decreases |actions|
  {
    hide Inv, StepOf, SetsPromise;
    if actions != [] {
      var most := actions[..|actions| - 1];
      TimesSetIsSet(input, limit, most, g);
      RunInv(input, limit, most);
      StepSets(Run(input, limit, most), actions[|actions| - 1], g);
    }
  }

  /**
   * No schedule calls `set_value` twice on one promise, and when a call of `do_sort` has returned, the promise of the
   * chunk that it pushed has been set exactly once.
   */
  lemma PromiseSetOnce(input: seq<int>, limit: nat, actions: seq<Action>, g: nat)
    ensures TimesSet(input, limit, actions, g) <= 1
    ensures var s := Run(input, limit, actions);
      g < |s.frames| && !Live(s, g) && !s.frames[g].chunk.Unpushed? ==> TimesSet(input, limit, actions, g) == 1
  {
    TimesSetIsSet(input, limit, actions, g);
    RunInv(input, limit, actions);
    if g < |Run(input, limit, actions).frames| { FrameFacts(Run(input, limit, actions), g); }
  }

  // ---------- Frames that are still needed ----------

  /** The caller of an unfinished frame is unfinished, up to the call of the user. */
  lemma {:induction false} CallersLive(s: State, f: nat)
    requires Inv(s) && Live(s, f)
    ensures Live(s, 0)
    decreases f
  {
    FrameFacts(s, f);
    match s.frames[f].purpose
    case Whole =>
    case HigherOf(p) => CallersLive(s, p);
    case ChunkOf(g) => CallersLive(s, g);
  }

  /**
   * A queued chunk belongs to an unfinished frame; so nothing is queued or being sorted any more when the user's call
   * has returned, and the threads that the destructor joins are idle.
   */
  lemma QueuedChunksAreAwaited(input: seq<int>, limit: nat, actions: seq<Action>)
    ensures var s := Run(input, limit, actions);
      && (forall g :: g in s.chunks ==> Live(s, g) && s.frames[g].chunk.Queued?)
      && (!Live(s, 0) ==> forall f: nat :: !Live(s, f))
      && (!Live(s, 0) ==> s.chunks == [])
      && (!Live(s, 0) ==> forall t: nat :: t < |s.stacks| ==> s.stacks[t] == [])
  {
    var s := Run(input, limit, actions);
    RunInv(input, limit, actions);
    ChunksFacts(s);
    forall g | g in s.chunks ensures Live(s, g) { FrameFacts(s, g); }
    forall t: nat | t < |s.stacks| && s.stacks[t] != [] ensures Live(s, s.stacks[t][0]) {
      assert StackOk(s, t);
    }
    forall f: nat | Live(s, f) ensures Live(s, 0) { CallersLive(s, f); }
    hide Inv;
  }

  // ---------- Progress ----------

  /** The unfinished frame that started last. */
  lemma {:induction false} LastLive(s: State, n: nat) returns (f: nat)
    requires n <= |s.frames| && exists c: nat :: c < n && Live(s, c)
    ensures f < n && Live(s, f) && forall c: nat :: f < c < n ==> !Live(s, c)
  {
    if Live(s, n - 1) {
      f := n - 1;
    } else {
      f := LastLive(s, n - 1);
    }
  }

  /** Some arrangement meets the contract of `std::partition`. */
  lemma {:induction false} PartitionExists(pivot: int, rest: seq<int>) returns (lower: seq<int>, higher: seq<int>)
    ensures multiset(lower) + multiset(higher) == multiset(rest)
    ensures (forall x <- lower :: x < pivot) && (forall x <- higher :: x >= pivot)
  {
    if rest == [] {
      return [], [];
    }
    lower, higher := PartitionExists(pivot, rest[1..]);
    assert rest == [rest[0]] + rest[1..];
    if rest[0] < pivot {
      lower := [rest[0]] + lower;
    } else {
      higher := [rest[0]] + higher;
    }
  }

  /** The last started unfinished frame is innermost on its thread. */
  lemma LastIsTop(s: State, f: nat)
    requires Inv(s) && Live(s, f) && forall c: nat :: f < c < |s.frames| ==> !Live(s, c)
    ensures HasTop(s, s.frames[f].thread) && TopOf(s, s.frames[f].thread) == f
  {
    hide FrameOk, ChunksOk;
    assert Stacked(s, f);
    var t := s.frames[f].thread;
    assert StackOk(s, t);
    var n := |s.stacks[t]| - 1;
    assert Live(s, s.stacks[t][n]);
    forall j | 0 <= j < n ensures s.stacks[t][j] != f {
      assert s.stacks[t][j] < s.stacks[t][n] <= f;
    }
  }

  /** The step that the last started unfinished frame can make. */
  lemma LastMoves(s: State, f: nat) returns (a: Action)
    requires Inv(s) && Live(s, f) && forall c: nat :: f < c < |s.frames| ==> !Live(s, c)
    ensures StepOf(s, a) != s
  {
    LastIsTop(s, f);
    var t, frame := s.frames[f].thread, s.frames[f];
    TopFacts(s, t);
    FrameFacts(s, f);
    CallerFacts(s, t);
    ChunkWaits(s, f);
    hide Inv;
    var lower, higher := [], [];
    if frame.phase.Begin? && |frame.input| > 1 {
      lower, higher := PartitionExists(frame.input[0], frame.input[1..]);
    }
    a := Action(t, lower, higher);
    assert StepOf(s, a).frames != s.frames by {
      assert |StepOf(s, a).frames| > |s.frames| || StepOf(s, a).frames[f].phase != s.frames[f].phase;
    }
  }

  lemma ChunkWaits(s: State, f: nat)
    requires Inv(s) && Live(s, f)
    ensures s.frames[f].chunk.Queued? ==> s.chunks != [] && s.chunks[0] < |s.frames|
  {
    hide FrameOk, StackOk, Stacked;
    if s.frames[f].chunk.Queued? { assert f in s.chunks && s.chunks[0] in s.chunks; }
  }

  /** The sort is never stuck: until the user's call has returned, some thread has a step that changes something. */
  lemma NeverStuck(input: seq<int>, limit: nat, actions: seq<Action>) returns (a: Action)
    requires Live(Run(input, limit, actions), 0)
    ensures Run(input, limit, actions + [a]) != Run(input, limit, actions)
  {
    var s := Run(input, limit, actions);
    RunInv(input, limit, actions);
    assert 0 < |s.frames| && Live(s, 0);
    var f := LastLive(s, |s.frames|);
    a := LastMoves(s, f);
    assert (actions + [a])[..|actions + [a]| - 1] == actions;
  }

  // ---------- How much there is to do ----------

  /** The steps it takes to sort `m` values, with the step that starts the call. */
  function Cost(m: nat): nat {
    9 * m + 2
  }

  /** The steps still to be made for a frame, and for those halves of it that no frame has taken up. */
  function Weight(frame: Frame): nat {
    var low := if frame.chunk.Unpushed? || frame.chunk.Queued? then Cost(|frame.lower|) else 0;
    match frame.phase
    case Begin => 9 * |frame.input| + 1
    case Pushing => 5 + low + Cost(|frame.higher|)
    case Checking => 4 + low + Cost(|frame.higher|)
    case Spawning => 3 + low + Cost(|frame.higher|)
    case Calling => 2 + low + Cost(|frame.higher|)
    case InHigher(_) => 1 + low
    case Waiting => 1 + low
    case Returned => 0
  }

  function Total(frames: seq<Frame>, weight: Frame -> nat): nat {
    if frames == [] then 0 else Total(frames[..|frames| - 1], weight) + weight(frames[|frames| - 1])
  }

  lemma {:induction false} TotalSet(frames: seq<Frame>, weight: Frame -> nat, i: nat, frame: Frame)
    requires i < |frames|
    ensures Total(frames[i := frame], weight) + weight(frames[i]) == Total(frames, weight) + weight(frame)
  {
    var n := |frames| - 1;
    if i == n {
      assert frames[i := frame][..n] == frames[..n];
    } else {
      assert frames[i := frame][..n] == frames[..n][i := frame];
      TotalSet(frames[..n], weight, i, frame);
    }
  }

  lemma TotalAdd(frames: seq<Frame>, weight: Frame -> nat, frame: Frame)
    ensures Total(frames + [frame], weight) == Total(frames, weight) + weight(frame)
  {
    assert (frames + [frame])[..|frames|] == frames;
  }

  lemma TakeChunkWork(s: State, t: nat)
    requires Inv(s) && t < |s.stacks| && s.chunks != []
    ensures Total(TrySortChunk(s, t).frames, Weight) < Total(s.frames, Weight)
  {
    ChunksFacts(s);
    var g := s.chunks[0];
    var frame := s.frames[g].(chunk := Running(|s.frames|));
    FrameFacts(s, g);
    hide Inv, SortOf, IsPartition;
    TotalSet(s.frames, Weight, g, frame);
    TotalAdd(s.frames[g := frame], Weight, NewFrame(t, ChunkOf(g), s.frames[g].lower));
  }

  lemma ReturnWeights(frame: Frame, r: seq<int>)
    ensures !frame.phase.Returned? ==> Weight(frame) > 0
    ensures Weight(frame.(phase := Returned, result := r)) == 0
    ensures frame.phase.InHigher? ==> Weight(frame.(high := r, phase := Waiting)) == Weight(frame)
    ensures frame.chunk.Running? ==> Weight(frame.(chunk := Sorted(r))) == Weight(frame)
  {
  }

  lemma LeaveWork(s: State, t: nat, r: seq<int>)
    requires Inv(s) && HasTop(s, t)
    ensures Total(Leave(s, t, TopOf(s, t), r).frames, Weight) < Total(s.frames, Weight)
  {
    hide Inv, Total, Weight;
    var f := TopOf(s, t);
    TopFacts(s, t);
    CallerFacts(s, t);
    ReturnWeights(s.frames[f], r);
    var frames := s.frames[f := s.frames[f].(phase := Returned, result := r)];
    TotalSet(s.frames, Weight, f, frames[f]);
    match s.frames[f].purpose
    case Whole =>
    case HigherOf(p) =>
      ReturnWeights(s.frames[p], r);
      TotalSet(frames, Weight, p, frames[p].(high := r, phase := Waiting));
    case ChunkOf(g) =>
      ReturnWeights(s.frames[g], r);
      TotalSet(frames, Weight, g, frames[g].(chunk := Sorted(r)));
  }

  lemma OwnWork(s: State, a: Action)
    requires Inv(s) && HasTop(s, a.thread) && StepOf(s, a) != s
    requires var frame := s.frames[TopOf(s, a.thread)];
      && !frame.phase.InHigher? && !frame.phase.Waiting? && !frame.phase.Returned?
      && (frame.phase.Begin? ==> |frame.input| > 1)
    ensures Total(StepOf(s, a).frames, Weight) < Total(s.frames, Weight)
  {
    var f := TopOf(s, a.thread);
    FrameFacts(s, f);
    hide Inv, SortOf;
    var s' := StepOf(s, a);
    var frame := s.frames[f];
    if frame.phase.Begin? {
      PartitionSize(frame.input, a.lower, a.higher);
    }
    if frame.phase.Calling? {
      var called := frame.(phase := InHigher(|s.frames|));
      TotalSet(s.frames, Weight, f, called);
      TotalAdd(s.frames[f := called], Weight, NewFrame(a.thread, HigherOf(f), frame.higher));
    } else {
      assert s'.frames == s.frames[f := s'.frames[f]];
      TotalSet(s.frames, Weight, f, s'.frames[f]);
    }
  }

  lemma PartitionSize(input: seq<int>, lower: seq<int>, higher: seq<int>)
    requires IsPartition(input, lower, higher)
    ensures |lower| + |higher| == |input| - 1
  {
    assert |multiset(lower) + multiset(higher)| == |lower| + |higher|;
  }

  /** Every step that changes anything brings the end nearer. */
  lemma StepWork(s: State, a: Action)
    requires Inv(s) && StepOf(s, a) != s
    ensures Total(StepOf(s, a).frames, Weight) < Total(s.frames, Weight)
  {
    var t := a.thread;
    if HasTop(s, t) {
      TopFacts(s, t);
      var frame := s.frames[TopOf(s, t)];
      hide Inv;
      match frame.phase
      case Begin => if |frame.input| < 2 { LeaveWork(s, t, frame.input); } else { OwnWork(s, a); }
      case Waiting =>
        if frame.chunk.Sorted? && frame.input != [] {
          LeaveWork(s, t, frame.chunk.result + [frame.input[0]] + frame.high);
        } else {
          TakeChunkWork(s, t);
        }
      case Pushing => OwnWork(s, a);
      case Checking => OwnWork(s, a);
      case Spawning => OwnWork(s, a);
      case Calling => OwnWork(s, a);
    } else {
      TakeChunkWork(s, t);
    }
  }

  /** The number of steps of a run that changed something. */
  ghost function Moves(input: seq<int>, limit: nat, actions: seq<Action>): nat {
    if actions == [] then 0
    else
      var most := actions[..|actions| - 1];
      Moves(input, limit, most) + (if Run(input, limit, actions) == Run(input, limit, most) then 0 else 1)
  }

  /**
   * No run has more than `9 n + 1` steps that change something, `n` being the length of the input: polls apart, every
   * schedule ends.
   */
  lemma {:induction false} MovesBounded(input: seq<int>, limit: nat, actions: seq<Action>)
    ensures Moves(input, limit, actions) + Total(Run(input, limit, actions).frames, Weight) <= 9 * |input| + 1
  {
    hide Inv, StepOf;
    if actions == [] {
      TotalAdd([], Weight, NewFrame(0, Whole, input));
      assert [] + [NewFrame(0, Whole, input)] == Init(input, limit).frames;
    } else {
      var most := actions[..|actions| - 1];
      MovesBounded(input, limit, most);
      RunInv(input, limit, most);
      if Run(input, limit, actions) != Run(input, limit, most) {
        StepWork(Run(input, limit, most), actions[|actions| - 1]);
      }
    }
  }

  // ---------- How many chunks are started ----------

  /** The chunks that a call on `m` values can lead to: one for each value but the last. */
  function MostChunks(m: nat): nat {
    if m == 0 then 0 else m - 1
  }

  function ChunkStart(frame: Frame): nat {
    if frame.purpose.ChunkOf? then 1 else 0
  }

  /**
   * Whether a frame is a chunk's, with the chunks still to be started for it and for the halves that no frame has
   * taken up.
   */
  function ChunkWeight(frame: Frame): nat {
    var low := if frame.chunk.Unpushed? || frame.chunk.Queued? then 1 + MostChunks(|frame.lower|) else 0;
    ChunkStart(frame) +
    match frame.phase
    case Begin => MostChunks(|frame.input|)
    case Returned => 0
    case InHigher(_) => low
    case Waiting => low
    case _ => low + MostChunks(|frame.higher|)
  }

  lemma TakeChunkStarts(s: State, t: nat)
    requires Inv(s) && t < |s.stacks|
    ensures Total(TrySortChunk(s, t).frames, ChunkWeight) <= Total(s.frames, ChunkWeight)
  {
    ChunksFacts(s);
    if s.chunks != [] {
      var g := s.chunks[0];
      var frame := s.frames[g].(chunk := Running(|s.frames|));
      FrameFacts(s, g);
      hide Inv, SortOf, IsPartition;
      TotalSet(s.frames, ChunkWeight, g, frame);
      TotalAdd(s.frames[g := frame], ChunkWeight, NewFrame(t, ChunkOf(g), s.frames[g].lower));
    }
  }

  lemma ReturnStarts(frame: Frame, r: seq<int>)
    ensures ChunkWeight(frame.(phase := Returned, result := r)) <= ChunkWeight(frame)
    ensures frame.phase.InHigher? ==> ChunkWeight(frame.(high := r, phase := Waiting)) == ChunkWeight(frame)
    ensures frame.chunk.Running? ==> ChunkWeight(frame.(chunk := Sorted(r))) == ChunkWeight(frame)
  {
  }

  lemma LeaveStarts(s: State, t: nat, r: seq<int>)
    requires Inv(s) && HasTop(s, t)
    ensures Total(Leave(s, t, TopOf(s, t), r).frames, ChunkWeight) <= Total(s.frames, ChunkWeight)
  {
    hide Inv, Total, ChunkWeight;
    var f := TopOf(s, t);
    TopFacts(s, t);
    CallerFacts(s, t);
    ReturnStarts(s.frames[f], r);
    var frames := s.frames[f := s.frames[f].(phase := Returned, result := r)];
    TotalSet(s.frames, ChunkWeight, f, frames[f]);
    match s.frames[f].purpose
    case Whole =>
    case HigherOf(p) =>
      ReturnStarts(s.frames[p], r);
      TotalSet(frames, ChunkWeight, p, frames[p].(high := r, phase := Waiting));
    case ChunkOf(g) =>
      ReturnStarts(s.frames[g], r);
      TotalSet(frames, ChunkWeight, g, frames[g].(chunk := Sorted(r)));
  }

  lemma CallingStarts(s: State, a: Action)
    requires HasTop(s, a.thread) && s.frames[TopOf(s, a.thread)].phase.Calling?
    ensures Total(StepOf(s, a).frames, ChunkWeight) <= Total(s.frames, ChunkWeight)
  {
    var f := TopOf(s, a.thread);
    var frame := s.frames[f];
    var called := frame.(phase := InHigher(|s.frames|));
    TotalSet(s.frames, ChunkWeight, f, called);
    TotalAdd(s.frames[f := called], ChunkWeight, NewFrame(a.thread, HigherOf(f), frame.higher));
  }

  lemma OwnStarts(s: State, a: Action)
    requires Inv(s) && HasTop(s, a.thread) && StepOf(s, a) != s
    requires var frame := s.frames[TopOf(s, a.thread)];
      && !frame.phase.InHigher? && !frame.phase.Waiting? && !frame.phase.Returned? && !frame.phase.Calling?
      && (frame.phase.Begin? ==> |frame.input| > 1)
    ensures Total(StepOf(s, a).frames, ChunkWeight) <= Total(s.frames, ChunkWeight)
  {
    var f := TopOf(s, a.thread);
    FrameFacts(s, f);
    hide Inv, SortOf, Total;
    var s' := StepOf(s, a);
    var frame := s.frames[f];
    if frame.phase.Begin? {
      PartitionSize(frame.input, a.lower, a.higher);
    }
    hide IsPartition;
    assert s'.frames == s.frames[f := s'.frames[f]];
    TotalSet(s.frames, ChunkWeight, f, s'.frames[f]);
  }

  lemma StepStarts(s: State, a: Action)
    requires Inv(s)
    ensures Total(StepOf(s, a).frames, ChunkWeight) <= Total(s.frames, ChunkWeight)
  {
    var t := a.thread;
    if HasTop(s, t) && StepOf(s, a) != s {
      TopFacts(s, t);
      var frame := s.frames[TopOf(s, t)];
      hide Inv;
      match frame.phase
      case Begin => if |frame.input| < 2 { LeaveStarts(s, t, frame.input); } else { OwnStarts(s, a); }
      case Waiting =>
        if frame.chunk.Sorted? && frame.input != [] {
          LeaveStarts(s, t, frame.chunk.result + [frame.input[0]] + frame.high);
        } else {
          TakeChunkStarts(s, t);
        }
      case Pushing => OwnStarts(s, a);
      case Checking => OwnStarts(s, a);
      case Spawning => OwnStarts(s, a);
      case Calling => CallingStarts(s, a);
    } else if t < |s.stacks| && !HasTop(s, t) {
      TakeChunkStarts(s, t);
    }
  }

  lemma {:induction false} StartsAreCounted(frames: seq<Frame>)
    ensures Total(frames, ChunkStart) <= Total(frames, ChunkWeight)
  {
    if frames != [] { StartsAreCounted(frames[..|frames| - 1]); }
  }

  lemma {:induction false} StartsLeft(input: seq<int>, limit: nat, actions: seq<Action>)
    ensures Total(Run(input, limit, actions).frames, ChunkWeight) <= MostChunks(|input|)
  {
    hide Inv, StepOf;
    if actions == [] {
      TotalAdd([], ChunkWeight, NewFrame(0, Whole, input));
      assert [] + [NewFrame(0, Whole, input)] == Init(input, limit).frames;
    } else {
      var most := actions[..|actions| - 1];
      StartsLeft(input, limit, most);
      RunInv(input, limit, most);
      StepStarts(Run(input, limit, most), actions[|actions| - 1]);
    }
  }

  /** No schedule starts more chunks than the input has values, less one. */
  lemma ChunkStartsBounded(input: seq<int>, limit: nat, actions: seq<Action>)
    ensures Total(Run(input, limit, actions).frames, ChunkStart) <= if input == [] then 0 else |input| - 1
  {
    StartsLeft(input, limit, actions);
    StartsAreCounted(Run(input, limit, actions).frames);
  }
}
