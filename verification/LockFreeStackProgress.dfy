/** A call of `LockFreeStack` left to run alone returns within eleven steps, from any reachable state. */
module LockFreeStackProgress {
  import opened LockFreeStack

  const MOST_STEPS: nat := 11

  /** `k` steps of `t` alone, none failing spuriously. */
  function Solo(s: State, t: nat, address: nat, k: nat): State {
    if k == 0 then s else Apply(Solo(s, t, address, k - 1), Step(t, address, false))
  }

  predicate Active(s: State, t: nat) {
    t < |s.threads| && !s.threads[t].pc.Idle?
  }

  predicate Finished(s: State, t: nat) {
    t < |s.threads| && s.threads[t].pc.Done?
  }

  /** A bound on the steps `t` still needs when it runs alone. */
  function Rank(s: State, t: nat): (r: nat)
    requires t < |s.threads|
    ensures r <= MOST_STEPS
  {
    match s.threads[t].pc
    case Idle => 0
    case Done(_) => 0
    case PushAlloc => 4
    case PushLoad(_) => 3
    case PushCas(p) => if p in s.heap && s.head == s.heap[p].next then 1 else 2
    case PopLoad => 7
    case PopCount(seen) => if s.head == seen then 6 else 7
    case PopReadNext(seen) => if s.head == seen then 5 else 11
    case PopCas(seen, _) => if s.head == seen then 4 else 10
    case PopTake(_) => 3
    case PopAdd(_, _) => 2
    case PopDelete(_, _) => 1
    case PopRelease(_, _) => 9
    case PopReleaseDelete(_, _) => 8
  }

  /**
   * The room the rest of the call needs: an address while it still has to allocate, a count while it still has to
   * count.
   */
  predicate HasRoom(s: State, t: nat, address: nat)
    requires t < |s.threads|
  {
    && (s.threads[t].pc.PushAlloc? ==> NULL < address < ADDRESS_LIMIT && address !in s.heap)
    && (Rank(s, t) >= 6 && s.head.ptr != NULL ==> s.head.count + 1 < COUNT_LIMIT)
  }

  lemma RankFalls(s: State, t: nat, address: nat)
    requires Inv(s) && Active(s, t) && !Finished(s, t) && HasRoom(s, t, address)
    ensures var s' := Apply(s, Step(t, address, false));
      Active(s', t) && HasRoom(s', t, address) && Rank(s', t) < Rank(s, t)
  {
    hide Inv, NodesOk, ThreadsOk, RecordOk, Chain, NodeOk, CallMatches;
    Facts(s, t);
  }

  lemma {:induction false} RunsToEnd(s: State, t: nat, address: nat, k: nat)
    requires Inv(s) && Active(s, t) && HasRoom(s, t, address)
    ensures var s' := Solo(s, t, address, k);
      Inv(s') && Active(s', t) && HasRoom(s', t, address) && (Finished(s', t) || Rank(s', t) + k <= Rank(s, t))
  {
    hide Inv, Apply, Rank, HasRoom;
    if k > 0 {
      RunsToEnd(s, t, address, k - 1);
      var p := Solo(s, t, address, k - 1);
      ApplyInv(p, Step(t, address, false));
      if Finished(p, t) { FinishedStays(p, t, address); } else { RankFalls(p, t, address); }
    }
  }

  lemma FinishedStays(s: State, t: nat, address: nat)
    requires Inv(s) && Finished(s, t)
    ensures Apply(s, Step(t, address, false)) == s
  {
    hide Inv;
  }

  /**
   * An active call running alone is back after at most eleven steps, given an unused address and, at a node, a count
   * below its limit.
   */
  lemma SoloReturns(n: nat, actions: seq<Action>, t: nat, address: nat)
    requires Active(Run(n, actions), t)
    requires NULL < address < ADDRESS_LIMIT && address !in Run(n, actions).heap
    requires Run(n, actions).head.ptr != NULL ==> Run(n, actions).head.count + 1 < COUNT_LIMIT
    ensures Finished(Solo(Run(n, actions), t, address, MOST_STEPS), t)
  {
    hide Inv;
    var s := Run(n, actions);
    RunInv(n, actions);
    RunsToEnd(s, t, address, MOST_STEPS);
    RankZero(Solo(s, t, address, MOST_STEPS), t);
  }

  lemma RankZero(s: State, t: nat)
    requires Active(s, t) && Rank(s, t) == 0
    ensures Finished(s, t)
  {
  }
}
