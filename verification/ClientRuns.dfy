/** Runs of the client: joining them, counting the user's cancelRequest calls, building witnesses. */
module ClientRuns {
  import opened ClientModel

  lemma {:induction false} JoinRuns(from: State, acts: seq<Action>, mid: State, more: seq<Action>, to: State)
    requires Runs(from, acts, mid) && Runs(mid, more, to)
    ensures Runs(from, acts + more, to)
    decreases |acts|
  {
    if acts == [] {
      assert acts + more == more;
    } else {
      JoinRuns(Apply(from, acts[0]), acts[1..], mid, more, to);
      assert (acts + more)[1..] == acts[1..] + more;
    }
  }

  lemma StaysReachable(s: State, acts: seq<Action>, z: State)
    requires Reachable(s) && Runs(s, acts, z)
    ensures Reachable(z)
  {
    var n: nat, u: nat, before: seq<Action> :| Runs(Init(n, u), before, s);
    JoinRuns(Init(n, u), before, s, acts, z);
  }

  function CancelOf(a: Action, id: nat): nat {
    if a.CallCancel? && a.id == id then 1 else 0
  }

  /** How often a schedule calls `cancelRequest(id)`. */
  function CancelCalls(acts: seq<Action>, id: nat): nat {
    if acts == [] then 0 else CancelOf(acts[0], id) + CancelCalls(acts[1..], id)
  }

  /** No request id is passed to `cancelRequest` more than `k` times. */
  ghost predicate CancelsAtMost(acts: seq<Action>, k: nat) {
    forall id: nat :: CancelCalls(acts, id) <= k
  }

  lemma {:induction false} JoinCancels(acts: seq<Action>, more: seq<Action>, id: nat)
    ensures CancelCalls(acts + more, id) == CancelCalls(acts, id) + CancelCalls(more, id)
  {
    if acts == [] {
      assert acts + more == more;
    } else {
      assert (acts + more)[1..] == acts[1..] + more;
      JoinCancels(acts[1..], more, id);
    }
  }

  /** Reached by a schedule with at most `k` cancelRequest calls per id. */
  ghost predicate ReachableBy(s: State, k: nat) {
    exists n: nat, u: nat, acts: seq<Action> :: Runs(Init(n, u), acts, s) && CancelsAtMost(acts, k)
  }

  lemma ReachableByRuns(s: State, k: nat)
    requires ReachableBy(s, k)
    ensures Reachable(s)
  {
    var n: nat, u: nat, acts: seq<Action> :| Runs(Init(n, u), acts, s) && CancelsAtMost(acts, k);
  }

  lemma Initially(n: nat, u: nat)
    ensures ReachableBy(Init(n, u), 0)
  {
    assert Runs(Init(n, u), [], Init(n, u)) && CancelsAtMost([], 0);
  }

  /** One more action; a cancelRequest call may need one more in `k`. */
  lemma ReachableOn(s: State, k: nat, a: Action)
    requires ReachableBy(s, k) && Enabled(s, a)
    ensures ReachableBy(Apply(s, a), k + if a.CallCancel? then 1 else 0)
  {
    var n: nat, u: nat, acts: seq<Action> :| Runs(Init(n, u), acts, s) && CancelsAtMost(acts, k);
    assert [a][1..] == [];
    JoinRuns(Init(n, u), acts, s, [a], Apply(s, a));
    forall id: nat ensures CancelCalls(acts + [a], id) <= k + if a.CallCancel? then 1 else 0 {
      JoinCancels(acts, [a], id);
      assert CancelCalls(acts, id) <= k;
    }
    assert CancelsAtMost(acts + [a], k + if a.CallCancel? then 1 else 0);
  }

  predicate Next(s: State, a: Action, z: State) {
    Enabled(s, a) && Apply(s, a) == z
  }

  lemma Go(s: State, k: nat, a: Action, b: Action, c: Action, s1: State, s2: State, z: State)
    requires ReachableBy(s, k) && Next(s, a, s1) && Next(s1, b, s2) && Next(s2, c, z)
    requires !a.CallCancel? && !c.CallCancel?
    ensures ReachableBy(z, k + if b.CallCancel? then 1 else 0)
  {
    ReachableOn(s, k, a);
    ReachableOn(s1, k, b);
    ReachableOn(s2, k + if b.CallCancel? then 1 else 0, c);
  }

  /** The first connect of a client, in flight. */
  const CONNECTING: map<nat, Op> := map[0 := Op(0, Connect, Pending(false))]
}
