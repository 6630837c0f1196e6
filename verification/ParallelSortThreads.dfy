/** How many threads the parallel quick-sort starts, and in which order it takes chunks. */
module ParallelSortThreads {
  import opened ParallelSort
  import opened ParallelSortTheorems

  // ---------- The frames of one thread ----------

  /** Below the innermost frame of a thread every frame waits, for its higher half or for its chunk. */
  ghost predicate WaitBelow(s: State, t: nat)
    requires t < |s.stacks|
  {
    forall j :: 0 <= j < |s.stacks[t]| - 1 ==>
      var f := s.stacks[t][j]; f < |s.frames| && (s.frames[f].phase.InHigher? || s.frames[f].phase.Waiting?)
  }

  ghost predicate Busy(s: State) {
    forall t: nat :: t < |s.stacks| ==> WaitBelow(s, t)
  }

  lemma LeaveBusy(s: State, t: nat, r: seq<int>)
    requires Inv(s) && Busy(s) && HasTop(s, t)
    ensures Busy(Leave(s, t, TopOf(s, t), r))
  {
    TopFacts(s, t);
    CallerFacts(s, t);
    var s' := Leave(s, t, TopOf(s, t), r);
    forall u: nat | u < |s'.stacks| ensures WaitBelow(s', u) {
      assert WaitBelow(s, u);
      assert StackOk(s, u);
    }
  }

  lemma TakeBusy(s: State, t: nat)
    requires Inv(s) && Busy(s) && t < |s.stacks|
    requires HasTop(s, t) ==> s.frames[TopOf(s, t)].phase.Waiting?
    ensures Busy(TrySortChunk(s, t))
  {
    ChunksFacts(s);
    TopIsLast(s, t);
    hide Inv;
    var s' := TrySortChunk(s, t);
    forall u: nat | u < |s'.stacks| ensures WaitBelow(s', u) {
      assert WaitBelow(s, u);
    }
  }

  lemma TopIsLast(s: State, t: nat)
    requires Inv(s) && t < |s.stacks|
    ensures s.stacks[t] != [] ==> HasTop(s, t)
  {
    hide FrameOk, ChunksOk, Stacked;
    assert StackOk(s, t);
  }

  /** A step within the innermost frame, the call of the higher half, or a new thread. */
  lemma PhaseBusy(s: State, a: Action)
    requires Inv(s) && Busy(s) && HasTop(s, a.thread)
    requires var frame := s.frames[TopOf(s, a.thread)];
      !(frame.phase.Begin? && |frame.input| < 2) && !frame.phase.Waiting?
    ensures Busy(StepOf(s, a))
  {
    TopFacts(s, a.thread);
    TopOnly(s, a.thread);
    hide Inv, IsPartition;
    var s' := StepOf(s, a);
    forall u: nat | u < |s'.stacks| ensures WaitBelow(s', u) {
      if u < |s.stacks| { assert WaitBelow(s, u); }
    }
  }

  /** The innermost frame of `t` is nowhere else on a stack. */
  lemma TopOnly(s: State, t: nat)
    requires Inv(s) && HasTop(s, t)
    ensures forall u: nat, j :: u < |s.stacks| && 0 <= j < |s.stacks[u]| && s.stacks[u][j] == TopOf(s, t) ==>
      u == t && j == |s.stacks[t]| - 1
  {
    hide FrameOk, ChunksOk, Stacked;
    TopFacts(s, t);
    forall u: nat, j | u < |s.stacks| && 0 <= j < |s.stacks[u]| && s.stacks[u][j] == TopOf(s, t)
      ensures u == t && j == |s.stacks[t]| - 1
    {
      assert StackOk(s, u);
    }
  }

  lemma StepBusy(s: State, a: Action)
    requires Inv(s) && Busy(s)
    ensures Busy(StepOf(s, a))
  {
    hide Inv, Busy, Leave, TrySortChunk;
    var t := a.thread;
    if HasTop(s, t) {
      var frame := s.frames[TopOf(s, t)];
      if frame.phase.Begin? && |frame.input| < 2 {
        LeaveBusy(s, t, frame.input);
      } else if !frame.phase.Waiting? {
        PhaseBusy(s, a);
      } else if frame.chunk.Sorted? && frame.input != [] {
        LeaveBusy(s, t, frame.chunk.result + [frame.input[0]] + frame.high);
      } else {
        TakeBusy(s, t);
      }
    } else if t < |s.stacks| {
      TakeBusy(s, t);
    }
  }

  // ---------- Threads about to start another ----------

  predicate AboutToSpawn(s: State, t: nat) {
    HasTop(s, t) && s.frames[TopOf(s, t)].phase.Spawning?
  }

  ghost function Spawners(s: State): set<nat> {
    set t: nat | t < |s.stacks| && AboutToSpawn(s, t)
  }

  /** 1 for a frame that has compared the number of threads with the limit. */
  function PastCheck(frame: Frame): nat {
    match frame.phase
    case Begin => 0
    case Pushing => 0
    case Checking => 0
    case Returned => if |frame.input| < 2 then 0 else 1
    case _ => 1
  }

  ghost predicate SameSpawners(s: State, s': State) {
    |s'.stacks| == |s.stacks| && s'.limit == s.limit && Spawners(s') == Spawners(s)
  }

  lemma LeaveSpawners(s: State, t: nat, r: seq<int>)
    requires Inv(s) && Busy(s) && HasTop(s, t) && !AboutToSpawn(s, t)
    requires var frame := s.frames[TopOf(s, t)]; frame.phase.Waiting? || |frame.input| < 2
    ensures SameSpawners(s, Leave(s, t, TopOf(s, t), r))
  {
    TopFacts(s, t);
    CallerFacts(s, t);
    TopOnly(s, t);
    assert WaitBelow(s, t);
    var s' := Leave(s, t, TopOf(s, t), r);
    hide Inv;
    forall u: nat ensures u < |s.stacks| && AboutToSpawn(s', u) <==> u < |s.stacks| && AboutToSpawn(s, u) {
    }
  }

  /** Nothing that the limit is about changes. */
  ghost predicate SameThreads(s: State, s': State) {
    SameSpawners(s, s') && Total(s'.frames, PastCheck) == Total(s.frames, PastCheck)
  }

  lemma LeaveThreads(s: State, t: nat, r: seq<int>)
    requires Inv(s) && Busy(s) && HasTop(s, t)
    requires var frame := s.frames[TopOf(s, t)];
      frame.phase.Waiting? || (frame.phase.Begin? && |frame.input| < 2)
    ensures SameThreads(s, Leave(s, t, TopOf(s, t), r))
  {
    var f := TopOf(s, t);
    LeaveSpawners(s, t, r);
    CallerFacts(s, t);
    FrameFacts(s, f);
    TopFacts(s, t);
    hide Inv, Busy, SameSpawners, SortOf, Total;
    var frames := s.frames[f := s.frames[f].(phase := Returned, result := r)];
    TotalSet(s.frames, PastCheck, f, frames[f]);
    match s.frames[f].purpose
    case Whole =>
    case HigherOf(p) => TotalSet(frames, PastCheck, p, frames[p].(high := r, phase := Waiting));
    case ChunkOf(g) => TotalSet(frames, PastCheck, g, frames[g].(chunk := Sorted(r)));
  }

  lemma TakeThreads(s: State, t: nat)
    requires Inv(s) && t < |s.stacks|
    requires HasTop(s, t) ==> s.frames[TopOf(s, t)].phase.Waiting?
    ensures SameThreads(s, TrySortChunk(s, t))
  {
    ChunksFacts(s);
    TopsInside(s);
    var s' := TrySortChunk(s, t);
    if s.chunks != [] {
      var g := s.chunks[0];
      var frame := s.frames[g].(chunk := Running(|s.frames|));
      hide Inv;
      TotalSet(s.frames, PastCheck, g, frame);
      TotalAdd(s.frames[g := frame], PastCheck, NewFrame(t, ChunkOf(g), s.frames[g].lower));
      forall u: nat ensures u < |s.stacks| && AboutToSpawn(s', u) <==> u < |s.stacks| && AboutToSpawn(s, u) {
      }
    }
  }

  lemma TopsInside(s: State)
    requires Inv(s)
    ensures forall u: nat :: u < |s.stacks| && s.stacks[u] != [] ==> s.stacks[u][|s.stacks[u]| - 1] < |s.frames|
  {
    forall u: nat | u < |s.stacks| && s.stacks[u] != [] ensures s.stacks[u][|s.stacks[u]| - 1] < |s.frames| {
      TopIsLast(s, u);
    }
  }

  lemma QuietThreads(s: State, a: Action)
    requires Inv(s) && HasTop(s, a.thread)
    requires var frame := s.frames[TopOf(s, a.thread)];
      || (frame.phase.Begin? && |frame.input| > 1) || frame.phase.Pushing?
      || frame.phase.InHigher? || frame.phase.Returned?
    ensures SameThreads(s, StepOf(s, a))
  {
    var f := TopOf(s, a.thread);
    TopOnly(s, a.thread);
    hide Inv, IsPartition;
    var s' := StepOf(s, a);
    assert s'.frames == s.frames[f := s'.frames[f]];
    TotalSet(s.frames, PastCheck, f, s'.frames[f]);
    forall u: nat ensures u < |s.stacks| && AboutToSpawn(s', u) <==> u < |s.stacks| && AboutToSpawn(s, u) {
    }
  }

  lemma CallThreads(s: State, a: Action)
    requires Inv(s) && HasTop(s, a.thread) && s.frames[TopOf(s, a.thread)].phase.Calling?
    ensures SameThreads(s, StepOf(s, a))
  {
    var f := TopOf(s, a.thread);
    TopOnly(s, a.thread);
    TopsInside(s);
    hide Inv;
    var s' := StepOf(s, a);
    var called := s.frames[f].(phase := InHigher(|s.frames|));
    TotalSet(s.frames, PastCheck, f, called);
    TotalAdd(s.frames[f := called], PastCheck, NewFrame(a.thread, HigherOf(f), s.frames[f].higher));
    forall u: nat ensures u < |s.stacks| && AboutToSpawn(s', u) <==> u < |s.stacks| && AboutToSpawn(s, u) {
    }
  }

  /** The comparison with the limit. */
  lemma CheckThreads(s: State, a: Action)
    requires Inv(s) && HasTop(s, a.thread) && s.frames[TopOf(s, a.thread)].phase.Checking?
    ensures var s' := StepOf(s, a);
      && |s'.stacks| == |s.stacks| && s'.limit == s.limit
      && Total(s'.frames, PastCheck) == Total(s.frames, PastCheck) + 1
      && (|s.stacks| - 1 < s.limit ==> a.thread !in Spawners(s) && Spawners(s') == Spawners(s) + {a.thread})
      && (|s.stacks| - 1 >= s.limit ==> Spawners(s') == Spawners(s))
  {
    var f := TopOf(s, a.thread);
    TopOnly(s, a.thread);
    hide Inv;
    var s' := StepOf(s, a);
    TotalSet(s.frames, PastCheck, f, s'.frames[f]);
    forall u: nat | u < |s.stacks| && u != a.thread ensures AboutToSpawn(s', u) <==> AboutToSpawn(s, u) {
    }
  }

  lemma SpawnThreads(s: State, a: Action)
    requires Inv(s) && AboutToSpawn(s, a.thread)
    ensures var s' := StepOf(s, a);
      && |s'.stacks| == |s.stacks| + 1 && s'.limit == s.limit
      && Total(s'.frames, PastCheck) == Total(s.frames, PastCheck)
      && a.thread in Spawners(s) && Spawners(s') == Spawners(s) - {a.thread}
  {
    var f := TopOf(s, a.thread);
    TopOnly(s, a.thread);
    hide Inv;
    var s' := StepOf(s, a);
    TotalSet(s.frames, PastCheck, f, s'.frames[f]);
    forall u: nat | u < |s'.stacks| && u != a.thread
      ensures AboutToSpawn(s', u) <==> u < |s.stacks| && AboutToSpawn(s, u)
    {
    }
  }

  // ---------- The number of threads ----------

  /** How far racing comparisons may pass the limit: of `limit` threads, each may have seen one too few. */
  function Most(limit: nat): nat {
    if limit == 0 then 0 else 2 * limit - 1
  }

  ghost predicate Limited(s: State) {
    && |s.stacks| > 0
    && (|s.stacks| - 1 >= s.limit ==> |s.stacks| - 1 + |Spawners(s)| <= Most(s.limit))
    && (|s.stacks| - 1 + |Spawners(s)| >= Total(s.frames, PastCheck) || |s.stacks| - 1 + |Spawners(s)| >= s.limit)
  }

  function Below(n: nat): (r: set<nat>)
    ensures |r| == n && forall t: nat :: t in r <==> t < n
  {
    if n == 0 then {} else Below(n - 1) + {n - 1}
  }

  lemma SpawnersBound(s: State)
    ensures |Spawners(s)| <= |s.stacks|
  {
    var all := Below(|s.stacks|);
    assert all == Spawners(s) + (all - Spawners(s));
  }

  lemma StepLimited(s: State, a: Action)
    requires Inv(s) && Busy(s) && Limited(s)
    ensures Limited(StepOf(s, a))
  {
    var t := a.thread;
    SpawnersBound(s);
    hide Inv, Busy, Leave, TrySortChunk, Spawners, Total, PastCheck;
    if HasTop(s, t) {
      TopFacts(s, t);
      var frame := s.frames[TopOf(s, t)];
      if frame.phase.Begin? && |frame.input| < 2 {
        LeaveThreads(s, t, frame.input);
      } else if frame.phase.Waiting? && frame.chunk.Sorted? && frame.input != [] {
        LeaveThreads(s, t, frame.chunk.result + [frame.input[0]] + frame.high);
      } else if frame.phase.Waiting? {
        TakeThreads(s, t);
      } else if frame.phase.Checking? {
        hide StepOf;
        CheckThreads(s, a);
      } else if frame.phase.Spawning? {
        hide StepOf;
        SpawnThreads(s, a);
      } else if frame.phase.Calling? {
        CallThreads(s, a);
      } else {
        QuietThreads(s, a);
      }
    } else if t < |s.stacks| && t != 0 {
      TakeThreads(s, t);
    }
  }

  lemma {:induction false} RunLimited(input: seq<int>, limit: nat, actions: seq<Action>)
    ensures var s := Run(input, limit, actions); Busy(s) && Limited(s) && s.limit == limit
    decreases |actions|
  {
    hide Inv, StepOf, Busy, Limited;
    if actions == [] {
      InitLimited(input, limit);
    } else {
      var most, a := actions[..|actions| - 1], actions[|actions| - 1];
      RunLimited(input, limit, most);
      RunInv(input, limit, most);
      StepBusy(Run(input, limit, most), a);
      StepLimited(Run(input, limit, most), a);
      LimitStays(Run(input, limit, most), a);
    }
  }

  lemma LimitStays(s: State, a: Action)
    ensures StepOf(s, a).limit == s.limit
  {
  }

  lemma InitLimited(input: seq<int>, limit: nat)
    ensures Busy(Init(input, limit)) && Limited(Init(input, limit))
  {
    var s := Init(input, limit);
    assert !AboutToSpawn(s, 0);
    assert Spawners(s) == {};
    TotalAdd([], PastCheck, NewFrame(0, Whole, input));
    assert [] + [NewFrame(0, Whole, input)] == s.frames;
  }

  /**
   * The size of `threads_` is compared with its limit outside the lock, so the limit can be passed; but under no
   * schedule do more than `2 * limit - 1` threads start, and none if the limit is 0. Those started and those about to
   * be are no fewer than the calls that have made the comparison, or than the limit.
   */
  lemma ThreadsStarted(input: seq<int>, limit: nat, actions: seq<Action>)
    ensures var s := Run(input, limit, actions);
      && 0 < |s.stacks| <= Most(limit) + 1
      && (|s.stacks| - 1 + |Spawners(s)| >= Total(s.frames, PastCheck) || |s.stacks| - 1 + |Spawners(s)| >= limit)
  {
    RunLimited(input, limit, actions);
  }

  // ---------- The limit is passed ----------

  lemma RunMore(input: seq<int>, limit: nat, actions: seq<Action>, a: Action) returns (more: seq<Action>)
    ensures more == actions + [a] && Run(input, limit, more) == StepOf(Run(input, limit, actions), a)
  {
    more := actions + [a];
    assert more[..|more| - 1] == actions;
  }

  /** Thread `t` is at `phase` of frame `f`. */
  predicate IsAt(s: State, t: nat, f: nat, phase: Phase) {
    HasTop(s, t) && TopOf(s, t) == f && s.frames[f].phase == phase
  }

  function Following(phase: Phase): Phase {
    match phase
    case Begin => Pushing
    case Pushing => Checking
    case Checking => Spawning
    case _ => Calling
  }

  /** A step within the innermost frame of a thread, while fewer threads run than may. */
  lemma OwnMore(input: seq<int>, limit: nat, actions: seq<Action>, a: Action, f: nat, phase: Phase)
    returns (more: seq<Action>)
    requires IsAt(Run(input, limit, actions), a.thread, f, phase)
    requires phase.Begin? || phase.Pushing? || phase.Checking? || phase.Spawning?
    requires phase.Begin? ==> IsPartition(Run(input, limit, actions).frames[f].input, a.lower, a.higher)
    requires var s := Run(input, limit, actions); phase.Checking? ==> |s.stacks| <= s.limit
    ensures var s, s' := Run(input, limit, actions), Run(input, limit, more);
      && s'.limit == s.limit
      && (if phase.Spawning? then s'.stacks == s.stacks + [[]] else s'.stacks == s.stacks)
      && (if phase.Pushing? then s'.chunks == [f] + s.chunks else s'.chunks == s.chunks)
      && |s'.frames| == |s.frames| && s'.frames == s.frames[f := s'.frames[f]]
      && s'.frames[f].phase == Following(phase) && s'.frames[f].input == s.frames[f].input
      && (phase.Begin? ==> s'.frames[f].lower == a.lower && s'.frames[f].higher == a.higher)
      && (!phase.Begin? ==> s'.frames[f].lower == s.frames[f].lower && s'.frames[f].higher == s.frames[f].higher)
  {
    more := RunMore(input, limit, actions, a);
  }

  function Five(): seq<int> {
    [3, 1, 2, 5, 4]
  }

  lemma FiveSplit()
    ensures Five() != [] && IsPartition(Five(), [1, 2], [5, 4])
    ensures IsPartition([1, 2], [], [2]) && IsPartition([5, 4], [4], [])
  {
    assert Five()[1..] == [1, 2] + [5, 4];
  }

  /** The user's call on five values is about to start a thread. */
  lemma StartsOne() returns (r: seq<Action>)
    ensures var s := Run(Five(), 2, r);
      && s.limit == 2 && s.stacks == [[0]] && s.chunks == [0] && |s.frames| == 1
      && s.frames[0].phase.Spawning? && s.frames[0].lower == [1, 2] && s.frames[0].higher == [5, 4]
  {
    assert Run(Five(), 2, []) == Init(Five(), 2);
    FiveSplit();
    hide Run, IsPartition, StepOf, Five;
    r := OwnMore(Five(), 2, [], Action(0, [1, 2], [5, 4]), 0, Begin);
    r := OwnMore(Five(), 2, r, Action(0, [], []), 0, Pushing);
    r := OwnMore(Five(), 2, r, Action(0, [], []), 0, Checking);
  }

  /** It has started it, and goes on to its higher half. */
  lemma OneStarted() returns (r: seq<Action>)
    ensures var s := Run(Five(), 2, r);
      && s.limit == 2 && s.stacks == [[0], []] && s.chunks == [0] && |s.frames| == 1
      && s.frames[0].phase.Calling? && s.frames[0].lower == [1, 2] && s.frames[0].higher == [5, 4]
  {
    r := StartsOne();
    hide Run, IsPartition, StepOf, Five;
    r := OwnMore(Five(), 2, r, Action(0, [], []), 0, Spawning);
  }

  /** Thread 0 is in the call on its higher half. */
  lemma HigherCalled() returns (r: seq<Action>)
    ensures var s := Run(Five(), 2, r);
      && s.limit == 2 && s.stacks == [[0, 1], []] && s.chunks == [0] && |s.frames| == 2
      && s.frames[0].lower == [1, 2] && s.frames[1].phase.Begin? && s.frames[1].input == [5, 4]
  {
    r := OneStarted();
    hide Run, Five;
    var s := Run(Five(), 2, r);
    assert s.stacks[0] + [1] == [0, 1];
    assert s.stacks[0 := [0, 1]] == [[0, 1], []];
    r := RunMore(Five(), 2, r, Action(0, [], []));
  }

  /** Thread 1 has taken the chunk. */
  lemma BothCalled() returns (r: seq<Action>)
    ensures var s := Run(Five(), 2, r);
      && s.limit == 2 && |s.stacks| == 2 && IsAt(s, 0, 1, Begin) && IsAt(s, 1, 2, Begin) && |s.frames| == 3
      && s.frames[1].input == [5, 4] && s.frames[2].input == [1, 2]
  {
    r := HigherCalled();
    hide Run, Five;
    r := RunMore(Five(), 2, r, Action(1, [], []));
  }

  /** Both threads have found one thread only. */
  lemma BothPassed() returns (r: seq<Action>)
    ensures var s := Run(Five(), 2, r); |s.stacks| == 2 && IsAt(s, 0, 1, Spawning) && IsAt(s, 1, 2, Spawning)
  {
    r := BothCalled();
    FiveSplit();
    hide Run, IsPartition, StepOf, Five;
    r := OwnMore(Five(), 2, r, Action(0, [4], []), 1, Begin);
    r := OwnMore(Five(), 2, r, Action(0, [], []), 1, Pushing);
    r := OwnMore(Five(), 2, r, Action(0, [], []), 1, Checking);
    r := OwnMore(Five(), 2, r, Action(1, [], [2]), 2, Begin);
    r := OwnMore(Five(), 2, r, Action(1, [], []), 2, Pushing);
    r := OwnMore(Five(), 2, r, Action(1, [], []), 2, Checking);
  }

  /** With a limit of two, three threads may start: the bound is met. */
  lemma LimitIsPassed() returns (r: seq<Action>)
    ensures |Run(Five(), 2, r).stacks| - 1 == 3 == Most(2)
  {
    r := BothPassed();
    hide Run, IsPartition, StepOf, Five;
    r := OwnMore(Five(), 2, r, Action(0, [], []), 1, Spawning);
    r := OwnMore(Five(), 2, r, Action(1, [], []), 2, Spawning);
  }

  // ---------- The order of the chunks ----------

  ghost predicate SameThread(frames: seq<Frame>, f: nat, g: nat) {
    f < |frames| && g < |frames| && frames[f].thread == frames[g].thread
  }

  /** Of two chunks of one thread, the one pushed later lies nearer to the top. */
  ghost predicate LaterFirst(frames: seq<Frame>, chunks: seq<nat>) {
    forall i, j :: 0 <= i < j < |chunks| && SameThread(frames, chunks[i], chunks[j]) ==> chunks[i] > chunks[j]
  }

  /** From `s` to `s'` frames stay on their threads. */
  ghost predicate ThreadsStay(s: State, s': State) {
    |s'.frames| >= |s.frames| && forall f :: 0 <= f < |s.frames| ==> s'.frames[f].thread == s.frames[f].thread
  }

  lemma OrderStays(s: State, s': State)
    requires LaterFirst(s.frames, s.chunks) && ThreadsStay(s, s') && forall g :: g in s.chunks ==> g < |s.frames|
    ensures LaterFirst(s'.frames, s.chunks)
    ensures s.chunks != [] ==> LaterFirst(s'.frames, s.chunks[1..])
  {
    forall i, j | 0 <= i < j < |s.chunks| && SameThread(s'.frames, s.chunks[i], s.chunks[j])
      ensures s.chunks[i] > s.chunks[j]
    {
      assert s.chunks[i] in s.chunks && s.chunks[j] in s.chunks;
      assert SameThread(s.frames, s.chunks[i], s.chunks[j]);
    }
  }

  lemma PushOrder(frames: seq<Frame>, chunks: seq<nat>, f: nat)
    requires LaterFirst(frames, chunks) && forall g :: g in chunks && SameThread(frames, f, g) ==> g < f
    ensures LaterFirst(frames, [f] + chunks)
  {
    var more := [f] + chunks;
    forall i, j | 0 <= i < j < |more| && SameThread(frames, more[i], more[j]) ensures more[i] > more[j] {
      assert more[j] == chunks[j - 1] && chunks[j - 1] in chunks;
      if i > 0 { assert more[i] == chunks[i - 1]; }
    }
  }

  lemma StepOrder(s: State, a: Action)
    requires Inv(s) && LaterFirst(s.frames, s.chunks)
    ensures LaterFirst(StepOf(s, a).frames, StepOf(s, a).chunks)
  {
    var t, s' := a.thread, StepOf(s, a);
    ChunksFacts(s);
    FramesStay(s, a);
    StepChunks(s, a);
    OrderStays(s, s');
    if HasTop(s, t) && s.frames[TopOf(s, t)].phase.Pushing? {
      var f := TopOf(s, t);
      TopFacts(s, t);
      forall g | g in s.chunks && SameThread(s'.frames, f, g) ensures g < f {
        QueuedBelow(s, t, g);
      }
      hide Inv, StepOf, LaterFirst;
      PushOrder(s'.frames, s.chunks, f);
    }
  }

  lemma LeaveStays(s: State, t: nat, r: seq<int>)
    requires HasTop(s, t)
    ensures ThreadsStay(s, Leave(s, t, TopOf(s, t), r))
  {
  }

  lemma TakeStays(s: State, t: nat)
    requires t < |s.stacks|
    ensures ThreadsStay(s, TrySortChunk(s, t))
  {
  }

  lemma FramesStay(s: State, a: Action)
    ensures ThreadsStay(s, StepOf(s, a))
  {
    hide Leave, TrySortChunk;
    if HasTop(s, a.thread) {
      var frame := s.frames[TopOf(s, a.thread)];
      LeaveStays(s, a.thread, frame.input);
      if frame.chunk.Sorted? && frame.input != [] {
        LeaveStays(s, a.thread, frame.chunk.result + [frame.input[0]] + frame.high);
      }
    }
    if a.thread < |s.stacks| { TakeStays(s, a.thread); }
  }

  lemma StepChunks(s: State, a: Action)
    ensures var s' := StepOf(s, a);
      if HasTop(s, a.thread) && s.frames[TopOf(s, a.thread)].phase.Pushing?
      then s'.chunks == [TopOf(s, a.thread)] + s.chunks
      else s'.chunks == s.chunks || (s.chunks != [] && s'.chunks == s.chunks[1..])
  {
  }

  /** A frame whose chunk is queued lies below the innermost frame of its thread, if that has yet to push. */
  lemma QueuedBelow(s: State, t: nat, g: nat)
    requires Inv(s) && HasTop(s, t) && s.frames[TopOf(s, t)].phase.Pushing?
    requires g < |s.frames| && s.frames[g].chunk.Queued? && s.frames[g].thread == t
    ensures g < TopOf(s, t)
  {
    FrameFacts(s, g);
    FrameFacts(s, TopOf(s, t));
    hide FrameOk, ChunksOk;
    assert StackOk(s, t);
  }

  /** Chunks are a stack: of those that one thread has pushed, every schedule takes the latest first. */
  lemma {:induction false} LastPushedFirst(input: seq<int>, limit: nat, actions: seq<Action>)
    ensures LaterFirst(Run(input, limit, actions).frames, Run(input, limit, actions).chunks)
    decreases |actions|
  {
    hide Inv, StepOf;
    if actions != [] {
      var most := actions[..|actions| - 1];
      LastPushedFirst(input, limit, most);
      RunInv(input, limit, most);
      StepOrder(Run(input, limit, most), actions[|actions| - 1]);
    }
  }
}
