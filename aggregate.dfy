/** The bookkeeping of MultipleDeferredObject (the promise returned by `all`):
    an index-addressed results array with one slot per input promise and a done
    counter.  The done callback registered on input i writes slot i, bumps the
    counter, and asks for the aggregate to be resolved with the whole array when
    the counter reaches the number of inputs.  The `synchronized` blocks of the
    source become plain sequential steps. */
module Aggregate {
  import opened Promises

  /** `results` (its length is numberOfPromises) and `doneCount`. */
  datatype Join = Join(results: seq<Value>, doneCount: nat)

  /** The state the constructor leaves: `new Object[n]` (every slot null), counter 0. */
  function Fresh(n: nat): (j: Join)
    ensures |j.results| == n && j.doneCount == 0
    ensures forall i :: 0 <= i < n ==> j.results[i] == Null
  {
    Join(seq(n, _ => Null), 0)
  }

  /** What one run of input `index`'s done callback leaves behind, and whether it
      calls `resolve(results)` on the aggregate. */
  datatype InputDone = InputDone(join: Join, resolve: bool)

  /** The done callback of input `index` receiving `v`; `aggResolved` is the
      aggregate's `isResolved()` at that moment.  Only slot `index` is written,
      and the aggregate is asked to resolve exactly when the counter reaches N. */
  function OnInputDone(j: Join, aggResolved: bool, index: nat, v: Value): (r: InputDone)
    requires index < |j.results|
    ensures |r.join.results| == |j.results|
    ensures aggResolved ==> r == InputDone(j, false)
    ensures !aggResolved ==> r.join.results[index] == v && r.join.doneCount == j.doneCount + 1
    ensures forall k :: 0 <= k < |j.results| && k != index ==> r.join.results[k] == j.results[k]
    ensures r.resolve <==> !aggResolved && j.doneCount + 1 == |j.results|
  {
    if aggResolved then InputDone(j, false)
    else
      var j' := Join(j.results[index := v], j.doneCount + 1);
      InputDone(j', j'.doneCount == |j'.results|)
  }

  /** No index occurs twice: each input fires its done callback at most once. */
  predicate Distinct(order: seq<nat>) {
    forall a, b :: 0 <= a < b < |order| ==> order[a] != order[b]
  }

  predicate InRange(order: seq<nat>, n: nat) {
    forall k :: 0 <= k < |order| ==> order[k] < n
  }

  /** Where a sequence of input successes leaves the aggregate when no input
      fails: the bookkeeping, and the value the aggregate was resolved with
      (None while it is still pending).  `order` lists the inputs in the order
      their done callbacks ran; `vals[i]` is the result of input i. */
  datatype Run = Run(join: Join, resolvedWith: Option<Value>)

  function Replay(n: nat, order: seq<nat>, vals: seq<Value>): (r: Run)
    requires |vals| == n && InRange(order, n)
    ensures |r.join.results| == n
    decreases |order|
  {
    if order == [] then Run(Fresh(n), None)
    else
      var before := Replay(n, order[..|order| - 1], vals);
      var last := order[|order| - 1];
      var s := OnInputDone(before.join, before.resolvedWith.Some?, last, vals[last]);
      Run(s.join, if s.resolve then Some(Joined(s.join.results)) else before.resolvedWith)
  }

  /** Pigeonhole: distinct elements drawn from `s` are at most |s| many. */
  lemma {:induction false} DistinctWithin(order: seq<nat>, s: set<nat>)
    requires Distinct(order)
    requires forall k :: 0 <= k < |order| ==> order[k] in s
    ensures |order| <= |s|
  {
    if order != [] {
      var rest := order[1..];
      forall k | 0 <= k < |rest| ensures rest[k] in s - {order[0]} {
        assert rest[k] == order[k + 1];
      }
      DistinctWithin(rest, s - {order[0]});
    }
  }

  /** The indices below n. */
  function Below(n: nat): (s: set<nat>)
    ensures forall x: nat :: x in s <==> x < n
    ensures |s| == n
  {
    if n == 0 then {} else Below(n - 1) + {n - 1}
  }

  /** Distinct indices below n number at most n; if they number exactly n, every
      index below n occurs among them. */
  lemma Pigeonhole(order: seq<nat>, n: nat)
    requires Distinct(order) && InRange(order, n)
    ensures |order| <= n
    ensures |order| == n ==> forall i :: 0 <= i < n ==> i in order
  {
    DistinctWithin(order, Below(n));
    if |order| == n {
      forall i | 0 <= i < n ensures i in order {
        if i !in order {
          DistinctWithin(order, Below(n) - {i});
        }
      }
    }
  }

  /** Result order matches input order, not completion order: after the done
      callbacks of distinct inputs ran in any order, slot i holds input i's result
      (or null if input i has not completed), the counter equals the number of
      completed inputs and never exceeds N, and the aggregate is resolved exactly
      when all N inputs have completed, with the results in input order.  (N is
      positive: the constructor refuses an empty array.) */
  lemma {:induction false} ReplayFillsByIndex(n: nat, order: seq<nat>, vals: seq<Value>)
    requires n > 0 && |vals| == n && InRange(order, n) && Distinct(order)
    ensures Replay(n, order, vals).join.doneCount == |order| <= n
    ensures forall i :: 0 <= i < n ==>
      Replay(n, order, vals).join.results[i] == if i in order then vals[i] else Null
    ensures Replay(n, order, vals).resolvedWith.Some? <==> |order| == n
    ensures |order| == n ==> Replay(n, order, vals).resolvedWith == Some(Joined(vals))
  {
    Pigeonhole(order, n);
    if order != [] {
      var prefix := order[..|order| - 1];
      var last := order[|order| - 1];
      ReplayFillsByIndex(n, prefix, vals);
      assert last !in prefix;
      assert Replay(n, prefix, vals).resolvedWith == None;
      forall i | 0 <= i < n
        ensures Replay(n, order, vals).join.results[i] == if i in order then vals[i] else Null
      {
        assert i in order <==> i in prefix || i == last;
      }
      if |order| == n {
        assert Replay(n, order, vals).join.results == vals;
      }
    }
  }
}
