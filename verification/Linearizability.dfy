/**
 * A record of the calls made on a concurrent object and of the order in which they took effect.
 *
 * The concurrent cores of this project are step systems. Each of them carries a `Record`: a call is
 * added to it when a thread invokes an operation, is stamped with a place in `log` at the one atomic
 * step where it takes effect, and is closed with its result when the thread returns. `Linearizable`
 * is the usual definition: the log is a sequential execution of the object, every finished call
 * is in it exactly once with the result it returned, and a call that returned before another was
 * invoked comes first.
 */
module Linearizability {
  import opened Options

  datatype Call<Op, Res> = Call(op: Op, invokedAt: nat, place: Option<nat>, outcome: Option<Outcome<Res>>)

  datatype Outcome<Res> = Outcome(returnedAt: nat, result: Res)

  datatype Entry<Op, Res> = Entry(call: nat, op: Op, result: Res, at: nat)

  /** `clock` counts invocations and returns; `log` is the order of effect. */
  datatype Record<Op, Res> = Record(clock: nat, calls: seq<Call<Op, Res>>, log: seq<Entry<Op, Res>>)

  function Empty<Op, Res>(): Record<Op, Res> {
    Record(0, [], [])
  }

  function Invoke<Op, Res>(r: Record<Op, Res>, op: Op): Record<Op, Res> {
    r.(clock := r.clock + 1, calls := r.calls + [Call(op, r.clock, None, None)])
  }

  /** Call `c` takes effect now, with result `result`. */
  function TakeEffect<Op, Res>(r: Record<Op, Res>, c: nat, result: Res): Record<Op, Res>
    requires c < |r.calls|
  {
    r.(calls := r.calls[c := r.calls[c].(place := Some(|r.log|))],
       log := r.log + [Entry(c, r.calls[c].op, result, r.clock)])
  }

  function Return<Op, Res>(r: Record<Op, Res>, c: nat, result: Res): Record<Op, Res>
    requires c < |r.calls|
  {
    r.(clock := r.clock + 1, calls := r.calls[c := r.calls[c].(outcome := Some(Outcome(r.clock, result)))])
  }

  // ---------- The definition ----------

  /** The abstract state after the calls of `log`, in order. */
  function Replay<S, Op, Res>(log: seq<Entry<Op, Res>>, init: S, spec: (S, Op) -> (S, Res)): S {
    if log == [] then init
    else spec(Replay(log[..|log| - 1], init, spec), log[|log| - 1].op).0
  }

  /** Every result in the log is the one the sequential object gives at that point. */
  ghost predicate Legal<S, Op, Res(!new)>(log: seq<Entry<Op, Res>>, init: S, spec: (S, Op) -> (S, Res)) {
    forall i :: 0 <= i < |log| ==> log[i].result == spec(Replay(log[..i], init, spec), log[i].op).1
  }

  ghost predicate EachFinishedCallTookEffectOnce<Op, Res(!new)>(r: Record<Op, Res>) {
    && (forall c :: 0 <= c < |r.calls| && r.calls[c].outcome.Some? ==>
          && r.calls[c].place.Some?
          && r.calls[c].place.value < |r.log|
          && r.log[r.calls[c].place.value].call == c
          && r.log[r.calls[c].place.value].result == r.calls[c].outcome.value.result)
    && (forall i :: 0 <= i < |r.log| ==>
          && r.log[i].call < |r.calls|
          && r.log[i].op == r.calls[r.log[i].call].op
          && r.calls[r.log[i].call].place == Some(i))
  }

  /** Real-time order: `a` returned before `b` was invoked, so `a` comes first in the log. */
  ghost predicate RespectsRealTime<Op, Res(!new)>(r: Record<Op, Res>) {
    forall a, b ::
      && 0 <= a < |r.calls| && 0 <= b < |r.calls|
      && r.calls[a].outcome.Some? && r.calls[b].place.Some?
      && r.calls[a].outcome.value.returnedAt < r.calls[b].invokedAt
      ==> r.calls[a].place.Some? && r.calls[a].place.value < r.calls[b].place.value
  }

  ghost predicate Linearizable<S, Op, Res(!new)>(r: Record<Op, Res>, init: S, spec: (S, Op) -> (S, Res)) {
    && Legal(r.log, init, spec)
    && EachFinishedCallTookEffectOnce(r)
    && RespectsRealTime(r)
  }

  // ---------- The invariant kept by Invoke, TakeEffect and Return ----------

  ghost predicate CallOk<Op, Res(!new)>(r: Record<Op, Res>, c: nat)
    requires c < |r.calls|
  {
    var call := r.calls[c];
    && call.invokedAt < r.clock
    && (call.place.Some? ==> call.place.value < |r.log| && r.log[call.place.value].call == c)
    && (call.outcome.Some? ==>
          && call.place.Some?
          && r.log[call.place.value].result == call.outcome.value.result
          && r.log[call.place.value].at <= call.outcome.value.returnedAt)
  }

  ghost predicate EntryOk<Op, Res(!new)>(r: Record<Op, Res>, i: nat)
    requires i < |r.log|
  {
    var e := r.log[i];
    && e.call < |r.calls|
    && e.op == r.calls[e.call].op
    && r.calls[e.call].place == Some(i)
    && r.calls[e.call].invokedAt < e.at <= r.clock
  }

  ghost predicate Consistent<Op, Res(!new)>(r: Record<Op, Res>) {
    && (forall c: nat :: c < |r.calls| ==> CallOk(r, c))
    && (forall i: nat :: i < |r.log| ==> EntryOk(r, i))
    && (forall i, j :: 0 <= i <= j < |r.log| ==> r.log[i].at <= r.log[j].at)
  }

  lemma ConsistentRespectsRealTime<Op, Res(!new)>(r: Record<Op, Res>)
    requires Consistent(r)
    ensures EachFinishedCallTookEffectOnce(r) && RespectsRealTime(r)
  {
    forall a, b |
      && 0 <= a < |r.calls| && 0 <= b < |r.calls|
      && r.calls[a].outcome.Some? && r.calls[b].place.Some?
      && r.calls[a].outcome.value.returnedAt < r.calls[b].invokedAt
      ensures r.calls[a].place.Some? && r.calls[a].place.value < r.calls[b].place.value
    {
      assert CallOk(r, a) && CallOk(r, b);
      assert EntryOk(r, r.calls[b].place.value);
    }
    forall c | 0 <= c < |r.calls| && r.calls[c].outcome.Some?
      ensures r.calls[c].place.Some? && r.calls[c].place.value < |r.log|
      ensures r.log[r.calls[c].place.value].call == c
      ensures r.log[r.calls[c].place.value].result == r.calls[c].outcome.value.result
    {
      assert CallOk(r, c);
    }
    forall i | 0 <= i < |r.log|
      ensures r.log[i].call < |r.calls| && r.log[i].op == r.calls[r.log[i].call].op
      ensures r.calls[r.log[i].call].place == Some(i)
    {
      assert EntryOk(r, i);
    }
  }

  lemma InvokeConsistent<Op, Res(!new)>(r: Record<Op, Res>, op: Op)
    requires Consistent(r)
    ensures Consistent(Invoke(r, op))
  {
    var r' := Invoke(r, op);
    forall c: nat | c < |r'.calls| ensures CallOk(r', c) {
      if c < |r.calls| { assert CallOk(r, c); }
    }
    forall i: nat | i < |r'.log| ensures EntryOk(r', i) {
      assert EntryOk(r, i);
    }
  }

  lemma ReturnConsistent<Op, Res(!new)>(r: Record<Op, Res>, c: nat, result: Res)
    requires Consistent(r) && c < |r.calls|
    requires r.calls[c].place.Some? && r.calls[c].place.value < |r.log|
    requires r.log[r.calls[c].place.value].result == result
    ensures Consistent(Return(r, c, result))
  {
    var r' := Return(r, c, result);
    forall d: nat | d < |r'.calls| ensures CallOk(r', d) {
      assert CallOk(r, d);
      if d == c { assert EntryOk(r, r.calls[c].place.value); }
    }
    forall i: nat | i < |r'.log| ensures EntryOk(r', i) {
      assert EntryOk(r, i);
    }
  }

  /** A pending call that has not taken effect may do so once, at a result the object allows. */
  lemma TakeEffectConsistent<S, Op, Res(!new)>(
    r: Record<Op, Res>, c: nat, result: Res, init: S, spec: (S, Op) -> (S, Res))
    requires Consistent(r) && Legal(r.log, init, spec) && c < |r.calls|
    requires r.calls[c].place.None? && r.calls[c].outcome.None?
    requires result == spec(Replay(r.log, init, spec), r.calls[c].op).1
    ensures Consistent(TakeEffect(r, c, result))
    ensures Legal(TakeEffect(r, c, result).log, init, spec)
    ensures Replay(TakeEffect(r, c, result).log, init, spec) == spec(Replay(r.log, init, spec), r.calls[c].op).0
  {
    var r' := TakeEffect(r, c, result);
    assert r'.log[..|r.log|] == r.log;
    forall i | 0 <= i < |r'.log|
      ensures r'.log[i].result == spec(Replay(r'.log[..i], init, spec), r'.log[i].op).1
    {
      if i < |r.log| { assert r'.log[..i] == r.log[..i]; }
    }
    forall d: nat | d < |r'.calls| ensures CallOk(r', d) {
      assert CallOk(r, d);
    }
    assert CallOk(r, c);
    forall i: nat | i < |r'.log| ensures EntryOk(r', i) {
      if i < |r.log| { assert EntryOk(r, i); }
    }
    forall i, j | 0 <= i <= j < |r'.log| ensures r'.log[i].at <= r'.log[j].at {
      if i < |r.log| { assert EntryOk(r, i); }
    }
  }

  // ---------- A call that runs alone ----------

  /** From `r0` on nothing has taken effect but, possibly, call `c`. */
  ghost predicate Alone<Op, Res(!new)>(r0: Record<Op, Res>, r: Record<Op, Res>, c: nat) {
    && c < |r0.calls| && c < |r.calls| && r.calls[c].op == r0.calls[c].op
    && match r.calls[c].place
       case None => r.log == r0.log
       case Some(i) =>
         && i == |r0.log| == |r.log| - 1 && r.log[..i] == r0.log
         && r.log[i].op == r.calls[c].op
  }

  /** A step that leaves the record as it is, or in which `c` takes effect. */
  ghost predicate OnlyEffect<Op, Res(!new)>(r: Record<Op, Res>, r': Record<Op, Res>, c: nat) {
    c < |r.calls| && (r' == r || (r.calls[c].place.None? && exists result :: r' == TakeEffect(r, c, result)))
  }

  lemma AloneStep<Op, Res(!new)>(r0: Record<Op, Res>, r: Record<Op, Res>, r': Record<Op, Res>, c: nat)
    requires Alone(r0, r, c) && OnlyEffect(r, r', c)
    ensures Alone(r0, r', c)
  {
    if r' != r {
      var result :| r' == TakeEffect(r, c, result);
      assert r'.log[..|r0.log|] == r0.log;
    }
  }

  /** What such a call answers and leaves is its operation on the object as it was. */
  lemma AloneResult<S, Op, Res(!new)>(
    r0: Record<Op, Res>, r: Record<Op, Res>, c: nat, init: S, spec: (S, Op) -> (S, Res))
    requires Alone(r0, r, c) && r.calls[c].place.Some? && Legal(r.log, init, spec)
    ensures var (after, result) := spec(Replay(r0.log, init, spec), r0.calls[c].op);
      r.log[r.calls[c].place.value].result == result && Replay(r.log, init, spec) == after
  {
  }

  // ---------- What the callers see ----------

  /** The calls and returns of the threads, in the order in which they happen. */
  datatype Event<Op, Res> = Invoked(thread: nat, op: Op) | Returned(thread: nat, result: Res)

  ghost predicate Quiet<Op, Res>(h: seq<Event<Op, Res>>, t: nat, from: int, to: int) {
    forall k :: 0 <= k < |h| && from < k < to ==> h[k].thread != t
  }

  /** Call `c` was invoked by some thread with its operation; that thread's next event is its return. */
  ghost predicate CallSeen<Op, Res(!new)>(r: Record<Op, Res>, h: seq<Event<Op, Res>>, c: nat)
    requires c < |r.calls|
  {
    var call := r.calls[c];
    && call.invokedAt < |h| && h[call.invokedAt] == Invoked(h[call.invokedAt].thread, call.op)
    && match call.outcome
       case None => Quiet(h, h[call.invokedAt].thread, call.invokedAt, |h|)
       case Some(end) =>
         && call.invokedAt < end.returnedAt < |h|
         && h[end.returnedAt] == Returned(h[call.invokedAt].thread, end.result)
         && Quiet(h, h[call.invokedAt].thread, call.invokedAt, end.returnedAt)
  }

  /** Event `i` belongs to a call. */
  ghost predicate EventSeen<Op, Res(!new)>(r: Record<Op, Res>, h: seq<Event<Op, Res>>, i: nat)
    requires i < |h|
  {
    exists c :: 0 <= c < |r.calls| && EventOf(r.calls[c], h[i], i)
  }

  ghost predicate EventOf<Op, Res(!new)>(call: Call<Op, Res>, e: Event<Op, Res>, i: nat) {
    match e
    case Invoked(_, _) => call.invokedAt == i
    case Returned(_, _) => call.outcome.Some? && call.outcome.value.returnedAt == i
  }

  /** The record holds the calls of the history: those and no others, in the order of their invocations. */
  ghost predicate Records<Op, Res(!new)>(r: Record<Op, Res>, h: seq<Event<Op, Res>>) {
    && r.clock == |h|
    && (forall c: nat :: c < |r.calls| ==> CallSeen(r, h, c))
    && (forall c, d :: 0 <= c < d < |r.calls| ==> r.calls[c].invokedAt < r.calls[d].invokedAt)
    && (forall i: nat :: i < |h| ==> EventSeen(r, h, i))
  }

  /** `pending` gives for each thread the call that it has not returned from. */
  ghost predicate Open<Op, Res(!new)>(r: Record<Op, Res>, h: seq<Event<Op, Res>>, pending: seq<Option<nat>>) {
    && (forall t: nat :: t < |pending| && pending[t].Some? ==>
          && pending[t].value < |r.calls| && r.calls[pending[t].value].outcome.None?
          && r.calls[pending[t].value].invokedAt < |h| && h[r.calls[pending[t].value].invokedAt].thread == t)
    && (forall c: nat :: c < |r.calls| && r.calls[c].outcome.None? ==>
          && r.calls[c].invokedAt < |h| && h[r.calls[c].invokedAt].thread < |pending|
          && pending[h[r.calls[c].invokedAt].thread] == Some(c))
  }

  lemma EmptySeen<Op, Res(!new)>(pending: seq<Option<nat>>)
    requires forall t :: 0 <= t < |pending| ==> pending[t].None?
    ensures Records(Empty<Op, Res>(), []) && Open(Empty<Op, Res>(), [], pending)
  {
  }

  lemma InvokeSeen<Op, Res(!new)>(
    r: Record<Op, Res>, h: seq<Event<Op, Res>>, pending: seq<Option<nat>>, t: nat, op: Op)
    requires Records(r, h) && Open(r, h, pending) && t < |pending| && pending[t].None?
    ensures Records(Invoke(r, op), h + [Invoked(t, op)])
    ensures Open(Invoke(r, op), h + [Invoked(t, op)], pending[t := Some(|r.calls|)])
  {
    var r', h' := Invoke(r, op), h + [Invoked(t, op)];
    forall c: nat | c < |r'.calls| ensures CallSeen(r', h', c) {
      if c < |r.calls| { assert CallSeen(r, h, c); }
    }
    forall i: nat | i < |h'| ensures EventSeen(r', h', i) {
      if i < |h| {
        assert EventSeen(r, h, i);
        var c :| 0 <= c < |r.calls| && EventOf(r.calls[c], h[i], i);
        assert EventOf(r'.calls[c], h'[i], i);
      } else {
        assert EventOf(r'.calls[|r.calls|], h'[i], i);
      }
    }
    forall c: nat | c < |r.calls| ensures r.calls[c].invokedAt < |h| { assert CallSeen(r, h, c); }
  }

  lemma ReturnSeen<Op, Res(!new)>(
    r: Record<Op, Res>, h: seq<Event<Op, Res>>, pending: seq<Option<nat>>, t: nat, result: Res)
    requires Records(r, h) && Open(r, h, pending) && t < |pending| && pending[t].Some?
    ensures pending[t].value < |r.calls|
    ensures Records(Return(r, pending[t].value, result), h + [Returned(t, result)])
    ensures Open(Return(r, pending[t].value, result), h + [Returned(t, result)], pending[t := None])
  {
    var r', h' := Return(r, pending[t].value, result), h + [Returned(t, result)];
    forall c: nat | c < |r'.calls| ensures CallSeen(r', h', c) {
      assert CallSeen(r, h, c);
    }
    forall i: nat | i < |h'| ensures EventSeen(r', h', i) {
      if i < |h| {
        assert EventSeen(r, h, i);
        var c :| 0 <= c < |r.calls| && EventOf(r.calls[c], h[i], i);
        assert EventOf(r'.calls[c], h'[i], i);
      } else {
        assert EventOf(r'.calls[pending[t].value], h'[i], i);
      }
    }
  }

  /** The callers do not see how the log grows. */
  ghost predicate SameCalls<Op, Res(!new)>(r: Record<Op, Res>, r': Record<Op, Res>) {
    && r'.clock == r.clock && |r'.calls| == |r.calls|
    && forall c :: 0 <= c < |r.calls| ==> r'.calls[c].(place := None) == r.calls[c].(place := None)
  }

  lemma SameSeen<Op, Res(!new)>(
    r: Record<Op, Res>, r': Record<Op, Res>, h: seq<Event<Op, Res>>, pending: seq<Option<nat>>)
    requires Records(r, h) && Open(r, h, pending) && SameCalls(r, r')
    ensures Records(r', h) && Open(r', h, pending)
  {
    assert forall c :: 0 <= c < |r.calls| ==>
      r'.calls[c].op == r.calls[c].op && r'.calls[c].invokedAt == r.calls[c].invokedAt
      && r'.calls[c].outcome == r.calls[c].outcome;
    forall c: nat | c < |r'.calls| ensures CallSeen(r', h, c) {
      assert CallSeen(r, h, c);
    }
    forall i: nat | i < |h| ensures EventSeen(r', h, i) {
      assert EventSeen(r, h, i);
      var c :| 0 <= c < |r.calls| && EventOf(r.calls[c], h[i], i);
      assert EventOf(r'.calls[c], h[i], i);
    }
  }
}
