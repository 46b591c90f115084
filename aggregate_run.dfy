/** `all` at the level of the store: after all(promises...) over distinct
    pending inputs, resolving the inputs one by one, in any order, drives the
    aggregate through MultipleDeferredObject's bookkeeping exactly as
    Aggregate.Replay describes, so the aggregate resolves with the results in
    input order when, and only when, the N-th input resolves; and the first
    input that fails rejects the aggregate at once with its cause. */
module AggregateRun {
  import opened Promises
  import opened Aggregate
  import opened Settlement
  import AggregateLemmas

  /** Only done, fail and always callbacks: running them only appends to the log. */
  predicate Plain(ls: seq<Listener>) {
    forall k :: 0 <= k < |ls| ==> ls[k].OnDone? || ls[k].OnFail? || ls[k].OnAlways?
  }

  /** The listener list of input `j` once `all` has wired it: its own plain
      callbacks, then the aggregate's done callback for slot j and its fail
      callback. */
  predicate WiredInput(ls: seq<Listener>, agg: DId, j: nat) {
    |ls| >= 2 && Plain(ls[..|ls| - 2]) && ls[|ls| - 2] == JoinDone(agg, j) && ls[|ls| - 1] == JoinFail(agg)
  }

  /** A Pending aggregate with a slot j, carrying only plain callbacks. */
  predicate Waiting(ds: seq<Deferred>, agg: DId, j: nat) {
    agg < |ds| && ds[agg].join.Some? && j < |ds[agg].join.value.results| &&
    ds[agg].state == Pending && ds[agg].cell.Incomplete? && Plain(ds[agg].listeners)
  }

  /** Input `x` is pending and wired to slot j of the Waiting aggregate `agg`. */
  predicate WiredPending(ds: seq<Deferred>, x: DId, agg: DId, j: nat) {
    x < |ds| && x != agg && ds[x].state == Pending && ds[x].cell.Incomplete? &&
    WiredInput(ds[x].listeners, agg, j) && Waiting(ds, agg, j)
  }

  /** A resolved deferred: its callbacks ran, so its list is empty. */
  function ResolvedRecord(a: Deferred, v: Value): Deferred {
    a.(state := Resolved, cell := Succeeded(v), listeners := [])
  }

  /** The aggregate after one done callback of an input, while it was Pending:
      the new bookkeeping, and the resolution when the counter reached N. */
  function AfterInput(a: Deferred, s: InputDone): Deferred {
    if s.resolve then ResolvedRecord(a.(join := Some(s.join)), Joined(s.join.results))
    else a.(join := Some(s.join))
  }

  /** Plain callbacks leave every record of the store as it was. */
  lemma {:induction false} NotifyAllPlain(w: World, o: Oracles, src: DId, ls: seq<Listener>, c: Cell)
    requires Wf(w) && src < |w.ds| && w.ds[src].cell == c && !c.Incomplete? && TargetsOk(ls, w.ds)
    requires Plain(ls)
    ensures NotifyAll(w, o, src, ls, c).ds == w.ds
    decreases |ls|
  {
    if ls != [] {
      var w1 := Notify(w, o, src, ls[0], c);
      assert w1.ds == w.ds;
      TargetsStable(ls[1..], w.ds, w1.ds);
      NotifyAllPlain(w1, o, src, ls[1..], c);
    }
  }

  /** The notification loop over `ls1 + ls2` runs `ls1`, then `ls2`. */
  lemma {:induction false} NotifyAllAppend(w: World, o: Oracles, src: DId, ls1: seq<Listener>, ls2: seq<Listener>, c: Cell)
    requires Wf(w) && src < |w.ds| && w.ds[src].cell == c && !c.Incomplete?
    requires TargetsOk(ls1, w.ds) && TargetsOk(ls2, w.ds)
    ensures TargetsOk(ls1 + ls2, w.ds)
    ensures var m := NotifyAll(w, o, src, ls1, c);
      m.ds[src].cell == c && TargetsOk(ls2, m.ds) &&
      NotifyAll(w, o, src, ls1 + ls2, c) == NotifyAll(m, o, src, ls2, c)
    decreases |ls1|
  {
    assert TargetsOk(ls1 + ls2, w.ds) by {
      forall k | 0 <= k < |ls1 + ls2| ensures TargetOk((ls1 + ls2)[k], w.ds) {
        if k >= |ls1| {
          assert (ls1 + ls2)[k] == ls2[k - |ls1|];
        }
      }
    }
    if ls1 == [] {
      assert ls1 + ls2 == ls2;
    } else {
      var w1 := Notify(w, o, src, ls1[0], c);
      assert (ls1 + ls2)[0] == ls1[0];
      assert (ls1 + ls2)[1..] == ls1[1..] + ls2;
      assert Evolves(w.ds[src], w1.ds[src]);
      TargetsStable(ls1[1..], w.ds, w1.ds);
      TargetsStable(ls2, w.ds, w1.ds);
      NotifyAllAppend(w1, o, src, ls1[1..], ls2, c);
    }
  }

  /** Notifying an input's wired list: its plain callbacks change no record,
      then the aggregate's two callbacks run. */
  lemma WiredListRunsJoins(w: World, o: Oracles, x: DId, ls: seq<Listener>, agg: DId, j: nat, c: Cell)
    requires Wf(w) && x < |w.ds| && w.ds[x].cell == c && !c.Incomplete? && TargetsOk(ls, w.ds)
    requires WiredInput(ls, agg, j)
    ensures var m := NotifyAll(w, o, x, ls[..|ls| - 2], c);
      Wf(m) && m.ds == w.ds &&
      NotifyAll(w, o, x, ls, c) == NotifyAll(m, o, x, [JoinDone(agg, j), JoinFail(agg)], c)
  {
    var p := ls[..|ls| - 2];
    var tail := [JoinDone(agg, j), JoinFail(agg)];
    assert ls == p + tail;
    assert TargetsOk(p, w.ds) && TargetsOk(tail, w.ds) by {
      assert forall k :: 0 <= k < |p| ==> p[k] == ls[k];
      assert forall k :: 0 <= k < |tail| ==> tail[k] == ls[|p| + k];
    }
    NotifyAllAppend(w, o, x, p, tail, c);
    NotifyAllPlain(w, o, x, p, c);
  }

  /** The aggregate's done callback on a Pending aggregate carrying only plain
      callbacks: the aggregate's record becomes AfterInput, nothing else changes. */
  lemma JoinInputDoneOnPending(w: World, o: Oracles, agg: DId, j: nat, v: Value)
    requires Wf(w) && Waiting(w.ds, agg, j)
    ensures JoinInputDone(w, o, agg, j, v).ds
         == w.ds[agg := AfterInput(w.ds[agg], OnInputDone(w.ds[agg].join.value, false, j, v))]
  {
    var s := OnInputDone(w.ds[agg].join.value, false, j, v);
    var rec := w.ds[agg].(join := Some(s.join));
    var w1 := World(w.ds[agg := rec], w.log);
    WfUpdate(w, agg, rec);
    if s.resolve {
      var c := Succeeded(Joined(s.join.results));
      var ls := w.ds[agg].listeners;
      var rec2 := ResolvedRecord(rec, Joined(s.join.results));
      var w2 := World(w1.ds[agg := rec2], w1.log);
      WfUpdate(w1, agg, rec2);
      TargetsStable(ls, w1.ds, w2.ds);
      assert JoinInputDone(w, o, agg, j, v) == Resolve(w1, o, agg, Joined(s.join.results));
      assert Resolve(w1, o, agg, Joined(s.join.results)) == NotifyAll(w2, o, agg, ls, c);
      NotifyAllPlain(w2, o, agg, ls, c);
      assert w2.ds == w.ds[agg := rec2];
    }
  }

  /** The two callbacks `all` added, run on a success `v` while the aggregate
      is Pending: the done callback updates the aggregate, the fail callback
      does nothing. */
  lemma JoinCallbacksOnSuccess(m: World, o: Oracles, x: DId, agg: DId, j: nat, v: Value)
    requires Wf(m) && x < |m.ds| && m.ds[x].cell == Succeeded(v) && x != agg && Waiting(m.ds, agg, j)
    ensures TargetsOk([JoinDone(agg, j), JoinFail(agg)], m.ds)
    ensures NotifyAll(m, o, x, [JoinDone(agg, j), JoinFail(agg)], Succeeded(v)).ds
         == m.ds[agg := AfterInput(m.ds[agg], OnInputDone(m.ds[agg].join.value, false, j, v))]
  {
    var c := Succeeded(v);
    var m2 := Notify(m, o, x, JoinDone(agg, j), c);
    assert m2 == JoinInputDone(m, o, agg, j, v);
    JoinInputDoneOnPending(m, o, agg, j, v);
    TargetsStable([JoinFail(agg)], m.ds, m2.ds);
    assert Evolves(m.ds[x], m2.ds[x]);
    var m3 := Notify(m2, o, x, JoinFail(agg), c);
    assert m3 == m2;
    assert NotifyAll(m2, o, x, [JoinFail(agg)], c) == NotifyAll(m3, o, x, [], c);
    assert [JoinDone(agg, j), JoinFail(agg)][1..] == [JoinFail(agg)];
  }

  /** resolve(v) on a Pending deferred runs its listener list on a store where
      only its own record changed. */
  lemma ResolveRunsList(w: World, o: Oracles, x: DId, v: Value)
    requires Wf(w) && x < |w.ds| && w.ds[x].state == Pending && w.ds[x].cell.Incomplete?
    ensures var w1 := World(w.ds[x := ResolvedRecord(w.ds[x], v)], w.log);
      Wf(w1) && w1.ds[x].cell == Succeeded(v) && TargetsOk(w.ds[x].listeners, w1.ds) &&
      Resolve(w, o, x, v) == NotifyAll(w1, o, x, w.ds[x].listeners, Succeeded(v))
  {
    var rec := ResolvedRecord(w.ds[x], v);
    WfUpdate(w, x, rec);
    TargetsStable(w.ds[x].listeners, w.ds, w.ds[x := rec]);
  }

  /** resolve(v) on an input that `all` wired to slot j of a Pending aggregate:
      the input becomes Resolved with v, slot j of the aggregate receives v, its
      counter goes up by one, and it resolves with the whole results array
      exactly when the counter reaches N; no other record changes. */
  lemma ResolveWiredInput(w: World, o: Oracles, x: DId, agg: DId, j: nat, v: Value)
    requires Wf(w) && WiredPending(w.ds, x, agg, j)
    ensures var s := OnInputDone(w.ds[agg].join.value, false, j, v);
      Resolve(w, o, x, v).ds == w.ds[x := ResolvedRecord(w.ds[x], v)][agg := AfterInput(w.ds[agg], s)]
    ensures var before := w.ds[agg].join.value;
      var after := Resolve(w, o, x, v).ds[agg];
      after.join.Some? && after.join.value.results == before.results[j := v] &&
      after.join.value.doneCount == before.doneCount + 1 &&
      (after.state == Resolved <==> before.doneCount + 1 == |before.results|) &&
      (after.state == Resolved ==> after.cell == Succeeded(Joined(before.results[j := v])))
  {
    ResolveWiredRecords(w, o, x, agg, j, v);
    AfterInputOnPending(w.ds[agg], j, v);
  }

  /** A Pending aggregate after input j's done callback with v: slot j holds
      v, the counter went up by one, and it is Resolved with the results
      exactly when the counter reached N. */
  lemma AfterInputOnPending(a: Deferred, j: nat, v: Value)
    requires a.join.Some? && j < |a.join.value.results| && a.state == Pending
    ensures var before := a.join.value;
      var after := AfterInput(a, OnInputDone(before, false, j, v));
      after.join.Some? && after.join.value.results == before.results[j := v] &&
      after.join.value.doneCount == before.doneCount + 1 &&
      (after.state == Resolved <==> before.doneCount + 1 == |before.results|) &&
      (after.state == Resolved ==> after.cell == Succeeded(Joined(before.results[j := v])))
  {
  }

  /** The store after resolve(v) on a wired input, record by record. */
  lemma ResolveWiredRecords(w: World, o: Oracles, x: DId, agg: DId, j: nat, v: Value)
    requires Wf(w) && WiredPending(w.ds, x, agg, j)
    ensures var s := OnInputDone(w.ds[agg].join.value, false, j, v);
      Resolve(w, o, x, v).ds == w.ds[x := ResolvedRecord(w.ds[x], v)][agg := AfterInput(w.ds[agg], s)]
  {
    var c := Succeeded(v);
    var ls := w.ds[x].listeners;
    var w1 := World(w.ds[x := ResolvedRecord(w.ds[x], v)], w.log);
    ResolveRunsList(w, o, x, v);
    WiredListRunsJoins(w1, o, x, ls, agg, j, c);
    var m := NotifyAll(w1, o, x, ls[..|ls| - 2], c);
    JoinCallbacksOnSuccess(m, o, x, agg, j, v);
  }

  /** A rejected deferred: its callbacks ran, so its list is empty. */
  function RejectedRecord(a: Deferred, e: Cause): Deferred {
    a.(state := Rejected, cell := Failed(e), listeners := [])
  }

  /** reject(e) on a Pending deferred runs its listener list on a store where
      only its own record changed. */
  lemma RejectRunsList(w: World, o: Oracles, x: DId, e: Cause)
    requires Wf(w) && x < |w.ds| && w.ds[x].state == Pending && w.ds[x].cell.Incomplete?
    ensures var w1 := World(w.ds[x := RejectedRecord(w.ds[x], e)], w.log);
      Wf(w1) && w1.ds[x].cell == Failed(e) && TargetsOk(w.ds[x].listeners, w1.ds) &&
      Reject(w, o, x, e) == NotifyAll(w1, o, x, w.ds[x].listeners, Failed(e))
  {
    var rec := RejectedRecord(w.ds[x], e);
    WfUpdate(w, x, rec);
    TargetsStable(w.ds[x].listeners, w.ds, w.ds[x := rec]);
  }

  /** The two callbacks `all` added, run on a failure `e` while the aggregate
      is Pending: the done callback does nothing, the fail callback rejects
      the aggregate with the same cause. */
  lemma JoinCallbacksOnFailure(m: World, o: Oracles, x: DId, agg: DId, j: nat, e: Cause)
    requires Wf(m) && x < |m.ds| && m.ds[x].cell == Failed(e) && x != agg && Waiting(m.ds, agg, j)
    ensures TargetsOk([JoinDone(agg, j), JoinFail(agg)], m.ds)
    ensures NotifyAll(m, o, x, [JoinDone(agg, j), JoinFail(agg)], Failed(e)).ds
         == m.ds[agg := RejectedRecord(m.ds[agg], e)]
  {
    var c := Failed(e);
    assert Notify(m, o, x, JoinDone(agg, j), c) == m;
    var m3 := Notify(m, o, x, JoinFail(agg), c);
    FailCallbackRejects(m, o, x, agg, e);
    assert NotifyAll(m, o, x, [JoinFail(agg)], c) == NotifyAll(m3, o, x, [], c);
    assert [JoinDone(agg, j), JoinFail(agg)][1..] == [JoinFail(agg)];
  }

  /** The aggregate's fail callback on a failure `e` while the aggregate is
      Pending with only plain callbacks: it rejects the aggregate with e and
      changes no other record. */
  lemma FailCallbackRejects(m: World, o: Oracles, x: DId, agg: DId, e: Cause)
    requires Wf(m) && x < |m.ds| && m.ds[x].cell == Failed(e) && agg < |m.ds|
    requires m.ds[agg].state == Pending && m.ds[agg].cell.Incomplete? && Plain(m.ds[agg].listeners)
    ensures Notify(m, o, x, JoinFail(agg), Failed(e)).ds == m.ds[agg := RejectedRecord(m.ds[agg], e)]
  {
    assert Notify(m, o, x, JoinFail(agg), Failed(e)) == Reject(m, o, agg, e);
    RejectRunsList(m, o, agg, e);
    var m1 := World(m.ds[agg := RejectedRecord(m.ds[agg], e)], m.log);
    NotifyAllPlain(m1, o, agg, m.ds[agg].listeners, Failed(e));
  }

  /** reject(e) on an input that `all` wired to slot j of a Pending aggregate:
      the input and the aggregate both become Rejected with cause e, the
      aggregate's slots and counter stay as they were, and no other record
      changes, so every other input keeps waiting. */
  lemma RejectWiredInput(w: World, o: Oracles, x: DId, agg: DId, j: nat, e: Cause)
    requires Wf(w) && WiredPending(w.ds, x, agg, j)
    ensures Reject(w, o, x, e).ds == w.ds[x := RejectedRecord(w.ds[x], e)][agg := RejectedRecord(w.ds[agg], e)]
    ensures var after := Reject(w, o, x, e).ds[agg];
      after.state == Rejected && after.cell == Failed(e) && after.join == w.ds[agg].join
  {
    var c := Failed(e);
    var ls := w.ds[x].listeners;
    var w1 := World(w.ds[x := RejectedRecord(w.ds[x], e)], w.log);
    RejectRunsList(w, o, x, e);
    WiredListRunsJoins(w1, o, x, ls, agg, j, c);
    var m := NotifyAll(w1, o, x, ls[..|ls| - 2], c);
    JoinCallbacksOnFailure(m, o, x, agg, j, e);
  }

  /** The listener lists the constructor's loop leaves when every input is
      still pending: from index `k` on, input j gets the done callback for
      slot j and the fail callback appended. */
  function AppendJoins(ds: seq<Deferred>, agg: DId, inputs: seq<DId>, k: nat): (r: seq<Deferred>)
    requires AllIn(inputs, |ds|) && k <= |inputs|
    ensures |r| == |ds|
    decreases |inputs| - k
  {
    if k == |inputs| then ds
    else
      var d := inputs[k];
      AppendJoins(ds[d := ds[d].(listeners := ds[d].listeners + [JoinDone(agg, k), JoinFail(agg)])], agg, inputs, k + 1)
  }

  /** The constructor's loop over pending inputs is AppendJoins. */
  lemma {:induction false} WireInputsAppends(w: World, o: Oracles, agg: DId, inputs: seq<DId>, k: nat)
    requires Wf(w) && agg < |w.ds| && w.ds[agg].join.Some? && |w.ds[agg].join.value.results| == |inputs|
    requires AllIn(inputs, |w.ds|) && k <= |inputs|
    requires forall j :: k <= j < |inputs| ==> w.ds[inputs[j]].cell.Incomplete?
    ensures WireInputs(w, o, agg, inputs, k) == World(AppendJoins(w.ds, agg, inputs, k), w.log)
    decreases |inputs| - k
  {
    if k < |inputs| {
      var d := inputs[k];
      var w2 := World(w.ds[d := w.ds[d].(listeners := w.ds[d].listeners + [JoinDone(agg, k), JoinFail(agg)])], w.log);
      AggregateLemmas.WireInputOnPending(w, o, agg, d, k);
      assert forall j :: k + 1 <= j < |inputs| ==> w2.ds[inputs[j]].cell == w.ds[inputs[j]].cell;
      WireInputsAppends(w2, o, agg, inputs, k + 1);
    }
  }

  /** No input from index `k` on is `i`. */
  predicate NotFrom(inputs: seq<DId>, k: nat, i: DId) {
    forall j :: k <= j < |inputs| ==> inputs[j] != i
  }

  /** Over distinct inputs, AppendJoins gives each input from `k` on exactly
      its two callbacks and leaves every other record alone. */
  lemma {:induction false} AppendJoinsDistinct(ds: seq<Deferred>, agg: DId, inputs: seq<DId>, k: nat)
    requires AllIn(inputs, |ds|) && k <= |inputs| && Distinct(inputs)
    ensures var r := AppendJoins(ds, agg, inputs, k);
      (forall j :: k <= j < |inputs| ==>
        r[inputs[j]] == ds[inputs[j]].(listeners := ds[inputs[j]].listeners + [JoinDone(agg, j), JoinFail(agg)])) &&
      (forall i :: 0 <= i < |ds| && NotFrom(inputs, k, i) ==> r[i] == ds[i])
    decreases |inputs| - k
  {
    if k < |inputs| {
      var d := inputs[k];
      var ds2 := ds[d := ds[d].(listeners := ds[d].listeners + [JoinDone(agg, k), JoinFail(agg)])];
      AppendJoinsDistinct(ds2, agg, inputs, k + 1);
      var r := AppendJoins(ds2, agg, inputs, k + 1);
      forall j | k <= j < |inputs|
        ensures r[inputs[j]] == ds[inputs[j]].(listeners := ds[inputs[j]].listeners + [JoinDone(agg, j), JoinFail(agg)])
      {
        if j == k {
          assert NotFrom(inputs, k + 1, d);
        } else {
          assert inputs[j] != d;
        }
      }
    }
  }

  /** Resolves input `order[0]`, then `order[1]`, and so on, input i with `vals[i]`. */
  function ResolveEach(w: World, o: Oracles, inputs: seq<DId>, order: seq<nat>, vals: seq<Value>): (r: World)
    requires Wf(w) && AllIn(inputs, |w.ds|) && InRange(order, |inputs|) && |vals| == |inputs|
    ensures Wf(r) && Grows(w, r)
    decreases |order|
  {
    if order == [] then w
    else
      var before := ResolveEach(w, o, inputs, order[..|order| - 1], vals);
      var last := order[|order| - 1];
      var r := Resolve(before, o, inputs[last], vals[last]);
      GrowsTrans(w, before, r);
      r
  }

  /** The store while inputs resolve: the aggregate's bookkeeping is what
      Replay gives for the inputs resolved so far (`p`), it is Resolved with
      Replay's value once that exists and Pending before, and every input not
      yet resolved is still pending and wired. */
  predicate Wired(ds: seq<Deferred>, agg: DId, inputs: seq<DId>, p: seq<nat>, vals: seq<Value>)
    requires InRange(p, |inputs|) && |vals| == |inputs|
  {
    var run := Replay(|inputs|, p, vals);
    agg < |ds| && AllIn(inputs, |ds|) &&
    ds[agg].join == Some(run.join) &&
    (run.resolvedWith.None? ==>
      ds[agg].state == Pending && ds[agg].cell.Incomplete? && Plain(ds[agg].listeners)) &&
    (run.resolvedWith.Some? ==>
      ds[agg].state == Resolved && ds[agg].cell == Succeeded(run.resolvedWith.value)) &&
    forall j :: 0 <= j < |inputs| && j !in p ==>
      ds[inputs[j]].state == Pending && ds[inputs[j]].cell.Incomplete? &&
      WiredInput(ds[inputs[j]].listeners, agg, j)
  }

  /** One more input, `last`, resolving while the aggregate is Pending moves
      the store one step along Replay. */
  lemma WiredStep(ds: seq<Deferred>, agg: DId, inputs: seq<DId>, p: seq<nat>, last: nat, vals: seq<Value>)
    requires Distinct(inputs) && agg !in inputs && |vals| == |inputs| && InRange(p, |inputs|)
    requires last < |inputs| && last !in p && Replay(|inputs|, p, vals).resolvedWith.None?
    requires Wired(ds, agg, inputs, p, vals)
    ensures var x := inputs[last];
      var s := OnInputDone(ds[agg].join.value, false, last, vals[last]);
      InRange(p + [last], |inputs|) &&
      Wired(ds[x := ResolvedRecord(ds[x], vals[last])][agg := AfterInput(ds[agg], s)], agg, inputs, p + [last], vals)
  {
    ReplayExtends(|inputs|, p, last, vals);
    var x := inputs[last];
    forall j | 0 <= j < |inputs| && j !in p + [last]
      ensures inputs[j] != x && inputs[j] != agg && j !in p
    {
      assert j != last;
    }
  }

  /** Replay over one more input, while nothing has resolved the aggregate
      yet, is one done callback on the bookkeeping so far. */
  lemma ReplayExtends(n: nat, p: seq<nat>, last: nat, vals: seq<Value>)
    requires |vals| == n && InRange(p, n) && last < n && Replay(n, p, vals).resolvedWith.None?
    ensures var s := OnInputDone(Replay(n, p, vals).join, false, last, vals[last]);
      InRange(p + [last], n) &&
      Replay(n, p + [last], vals) == Run(s.join, if s.resolve then Some(Joined(s.join.results)) else None)
  {
    var q := p + [last];
    assert q[..|q| - 1] == p;
  }

  /** Resolving distinct inputs one after the other keeps the store Wired:
      each resolution is one step of Replay. */
  lemma {:induction false} ResolveEachWired(w: World, o: Oracles, agg: DId, inputs: seq<DId>, order: seq<nat>, vals: seq<Value>)
    requires Wf(w) && AllIn(inputs, |w.ds|) && Distinct(inputs) && agg !in inputs
    requires |vals| == |inputs| && InRange(order, |inputs|) && Distinct(order)
    requires Wired(w.ds, agg, inputs, [], vals)
    ensures Wired(ResolveEach(w, o, inputs, order, vals).ds, agg, inputs, order, vals)
    decreases |order|
  {
    if order != [] {
      var n := |inputs|;
      var p := order[..|order| - 1];
      var last := order[|order| - 1];
      assert order == p + [last];
      assert forall a :: 0 <= a < |p| ==> p[a] == order[a];
      ResolveEachWired(w, o, agg, inputs, p, vals);
      var b := ResolveEach(w, o, inputs, p, vals);
      Pigeonhole(order, n);
      ReplayFillsByIndex(n, p, vals);
      assert last !in p;
      var x := inputs[last];
      ResolveWiredInput(b, o, x, agg, last, vals[last]);
      WiredStep(b.ds, agg, inputs, p, last, vals);
      assert ResolveEach(w, o, inputs, order, vals) == Resolve(b, o, x, vals[last]);
    }
  }

  /** all(promises...) over distinct pending inputs carrying only plain
      callbacks leaves the store Wired with no input resolved yet. */
  lemma AllWired(w: World, o: Oracles, inputs: seq<DId>, vals: seq<Value>)
    requires Wf(w) && Coherent(w) && AllIn(inputs, |w.ds|) && inputs != [] && Distinct(inputs)
    requires forall j :: 0 <= j < |inputs| ==> w.ds[inputs[j]].state == Pending && Plain(w.ds[inputs[j]].listeners)
    requires |vals| == |inputs|
    ensures var a := All(w, o, inputs);
      a.promise == |w.ds| && a.promise !in inputs && Wf(a.world) && AllIn(inputs, |a.world.ds|) &&
      Wired(a.world.ds, a.promise, inputs, [], vals)
  {
    var n := |inputs|;
    var aggId := |w.ds|;
    var w1 := World(w.ds + [FreshAggregate(n)], w.log);
    AggregateLemmas.AllIsWiring(w, o, inputs);
    assert forall j :: 0 <= j < n ==> w1.ds[inputs[j]] == w.ds[inputs[j]];
    WireInputsAppends(w1, o, aggId, inputs, 0);
    AppendedWired(w, inputs, vals);
  }

  /** The records AppendJoins leaves over the store plus a fresh aggregate are Wired. */
  lemma AppendedWired(w: World, inputs: seq<DId>, vals: seq<Value>)
    requires Wf(w) && Coherent(w) && AllIn(inputs, |w.ds|) && inputs != [] && Distinct(inputs)
    requires forall j :: 0 <= j < |inputs| ==> w.ds[inputs[j]].state == Pending && Plain(w.ds[inputs[j]].listeners)
    requires |vals| == |inputs|
    ensures var ds1 := w.ds + [FreshAggregate(|inputs|)];
      AllIn(inputs, |ds1|) && Wired(AppendJoins(ds1, |w.ds|, inputs, 0), |w.ds|, inputs, [], vals)
  {
    var n := |inputs|;
    var aggId := |w.ds|;
    var ds1 := w.ds + [FreshAggregate(n)];
    assert forall j :: 0 <= j < n ==> ds1[inputs[j]] == w.ds[inputs[j]];
    AppendJoinsDistinct(ds1, aggId, inputs, 0);
    var ds := AppendJoins(ds1, aggId, inputs, 0);
    assert NotFrom(inputs, 0, aggId);
    forall j | 0 <= j < n
      ensures WiredInput(ds[inputs[j]].listeners, aggId, j)
    {
      var ls := ds[inputs[j]].listeners;
      assert ls[..|ls| - 2] == w.ds[inputs[j]].listeners;
    }
  }

  /** all(promises...) over distinct pending inputs carrying only done, fail
      and always callbacks, followed by resolve on distinct inputs in any
      order, input i with vals[i]: slot i holds vals[i] once input i resolved
      and null before, the counter is the number of inputs resolved, and the
      aggregate stays Pending until the N-th input resolves, when it becomes
      Resolved with the results in input order. */
  lemma AllResolvesWhenEveryInputResolves(w: World, o: Oracles, inputs: seq<DId>, order: seq<nat>, vals: seq<Value>)
    requires Wf(w) && Coherent(w) && AllIn(inputs, |w.ds|) && inputs != [] && Distinct(inputs)
    requires forall j :: 0 <= j < |inputs| ==> w.ds[inputs[j]].state == Pending && Plain(w.ds[inputs[j]].listeners)
    requires |vals| == |inputs| && InRange(order, |inputs|) && Distinct(order)
    ensures var a := All(w, o, inputs);
      var r := ResolveEach(a.world, o, inputs, order, vals);
      var agg := r.ds[a.promise];
      |order| <= |inputs| && agg.join.Some? && |agg.join.value.results| == |inputs| &&
      (forall i :: 0 <= i < |inputs| ==> agg.join.value.results[i] == if i in order then vals[i] else Null) &&
      agg.join.value.doneCount == |order| &&
      (|order| < |inputs| ==> agg.state == Pending && agg.cell.Incomplete?) &&
      (|order| == |inputs| ==> agg.state == Resolved && agg.cell == Succeeded(Joined(vals)))
  {
    var a := All(w, o, inputs);
    AllWired(w, o, inputs, vals);
    ResolveEachWired(a.world, o, a.promise, inputs, order, vals);
    ReplayFillsByIndex(|inputs|, order, vals);
  }

  /** A Wired store in which input j has not resolved yet: the aggregate is
      still Pending, and rejecting input j and then the aggregate with e leaves
      the aggregate Rejected with its slots as Replay gave them and every other
      unresolved input pending. */
  lemma WiredReject(ds: seq<Deferred>, agg: DId, inputs: seq<DId>, order: seq<nat>, vals: seq<Value>, j: nat, e: Cause)
    requires Distinct(inputs) && agg !in inputs && inputs != [] && |vals| == |inputs|
    requires InRange(order, |inputs|) && Distinct(order) && j < |inputs| && j !in order
    requires Wired(ds, agg, inputs, order, vals)
    ensures Replay(|inputs|, order, vals).resolvedWith.None?
    ensures var x := inputs[j];
      var r := ds[x := RejectedRecord(ds[x], e)][agg := RejectedRecord(ds[agg], e)];
      r[agg].state == Rejected && r[agg].cell == Failed(e) && r[agg].join.Some? &&
      |r[agg].join.value.results| == |inputs| &&
      (forall i :: 0 <= i < |inputs| ==> r[agg].join.value.results[i] == if i in order then vals[i] else Null) &&
      r[x].state == Rejected && r[x].cell == Failed(e) &&
      (forall i :: 0 <= i < |inputs| && i != j && i !in order ==> r[inputs[i]].state == Pending)
  {
    var n := |inputs|;
    Pigeonhole(order, n);
    ReplayFillsByIndex(n, order, vals);
    assert |order| < n;
    var x := inputs[j];
    var r := ds[x := RejectedRecord(ds[x], e)][agg := RejectedRecord(ds[agg], e)];
    forall i | 0 <= i < n && i != j && i !in order ensures r[inputs[i]].state == Pending {
      assert inputs[i] != x && inputs[i] != agg;
    }
  }

  /** all(promises...) over distinct pending inputs carrying only done, fail
      and always callbacks, some of them resolved (`order`), then reject(e) on
      an input j that has not resolved: the aggregate is Rejected with cause e
      at once, its slots still hold what the resolved inputs gave, and every
      other unresolved input is still pending. */
  lemma AllRejectsWhenAnInputFails(w: World, o: Oracles, inputs: seq<DId>, order: seq<nat>, vals: seq<Value>, j: nat, e: Cause)
    requires Wf(w) && Coherent(w) && AllIn(inputs, |w.ds|) && inputs != [] && Distinct(inputs)
    requires forall i :: 0 <= i < |inputs| ==> w.ds[inputs[i]].state == Pending && Plain(w.ds[inputs[i]].listeners)
    requires |vals| == |inputs| && InRange(order, |inputs|) && Distinct(order)
    requires j < |inputs| && j !in order
    ensures var a := All(w, o, inputs);
      var b := ResolveEach(a.world, o, inputs, order, vals);
      var r := Reject(b, o, inputs[j], e);
      var agg := r.ds[a.promise];
      agg.state == Rejected && agg.cell == Failed(e) && agg.join.Some? &&
      |agg.join.value.results| == |inputs| &&
      (forall i :: 0 <= i < |inputs| ==> agg.join.value.results[i] == if i in order then vals[i] else Null) &&
      r.ds[inputs[j]].state == Rejected && r.ds[inputs[j]].cell == Failed(e) &&
      (forall i :: 0 <= i < |inputs| && i != j && i !in order ==> r.ds[inputs[i]].state == Pending)
  {
    var a := All(w, o, inputs);
    AllWired(w, o, inputs, vals);
    ResolveEachWired(a.world, o, a.promise, inputs, order, vals);
    var b := ResolveEach(a.world, o, inputs, order, vals);
    WiredReject(b.ds, a.promise, inputs, order, vals, j, e);
    RejectWiredInput(b, o, inputs[j], a.promise, j, e);
  }
}
