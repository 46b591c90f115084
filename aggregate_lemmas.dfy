/** What `all` and MultipleDeferredObject's per-input callbacks do to the store:
    the wiring of one done and one fail callback per input, the done callback
    filling its own slot and resolving the aggregate on the N-th success, and
    the fail callback rejecting it with the input's cause. */
module AggregateLemmas {
  import opened Promises
  import opened Aggregate
  import opened Settlement

  /** Registering on a deferred whose cell is incomplete only appends to its list. */
  lemma RegisterOnPending(w: World, o: Oracles, d: DId, l: Listener)
    requires Wf(w) && d < |w.ds| && TargetOk(l, w.ds) && w.ds[d].cell.Incomplete?
    ensures Register(w, o, d, l) == World(w.ds[d := w.ds[d].(listeners := w.ds[d].listeners + [l])], w.log)
  {
  }

  /** `b` differs from `a` only by listeners appended to some lists. */
  predicate ListenersGrew(a: seq<Deferred>, b: seq<Deferred>) {
    |a| == |b| && forall i :: 0 <= i < |a| ==> b[i] == a[i].(listeners := b[i].listeners) && a[i].listeners <= b[i].listeners
  }

  lemma ListenersGrewTrans(a: seq<Deferred>, b: seq<Deferred>, c: seq<Deferred>)
    requires ListenersGrew(a, b) && ListenersGrew(b, c)
    ensures ListenersGrew(a, c)
  {
    forall i | 0 <= i < |a| ensures c[i] == a[i].(listeners := c[i].listeners) && a[i].listeners <= c[i].listeners {
      assert a[i].listeners <= b[i].listeners <= c[i].listeners;
    }
  }

  /** One round of the constructor's loop on a pending input only appends the
      done callback for index k and the fail callback to that input. */
  lemma WireInputOnPending(w: World, o: Oracles, agg: DId, d: DId, k: nat)
    requires Wf(w) && agg < |w.ds| && w.ds[agg].join.Some? && k < |w.ds[agg].join.value.results|
    requires d < |w.ds| && w.ds[d].cell.Incomplete?
    ensures WireInput(w, o, agg, d, k)
         == World(w.ds[d := w.ds[d].(listeners := w.ds[d].listeners + [JoinDone(agg, k), JoinFail(agg)])], w.log)
  {
    var w1 := Register(w, o, d, JoinDone(agg, k));
    RegisterOnPending(w, o, d, JoinDone(agg, k));
    RegisterOnPending(w1, o, d, JoinFail(agg));
    assert w1.ds[d].listeners + [JoinFail(agg)] == w.ds[d].listeners + [JoinDone(agg, k), JoinFail(agg)];
  }

  /** The constructor's loop over inputs that are all still pending: it only
      appends listeners, and every input from `k` on gets the done callback for
      its own index and the fail callback. */
  lemma {:induction false} WireInputsOnPending(w: World, o: Oracles, agg: DId, inputs: seq<DId>, k: nat)
    requires Wf(w) && agg < |w.ds| && w.ds[agg].join.Some? && |w.ds[agg].join.value.results| == |inputs|
    requires AllIn(inputs, |w.ds|) && k <= |inputs|
    requires forall j :: 0 <= j < |inputs| ==> w.ds[inputs[j]].cell.Incomplete?
    ensures var r := WireInputs(w, o, agg, inputs, k);
      r.log == w.log && ListenersGrew(w.ds, r.ds) &&
      forall j :: k <= j < |inputs| ==>
        JoinDone(agg, j) in r.ds[inputs[j]].listeners && JoinFail(agg) in r.ds[inputs[j]].listeners
    decreases |inputs| - k
  {
    if k < |inputs| {
      var d := inputs[k];
      var n := |w.ds[d].listeners|;
      var w2 := World(w.ds[d := w.ds[d].(listeners := w.ds[d].listeners + [JoinDone(agg, k), JoinFail(agg)])], w.log);
      WireInputOnPending(w, o, agg, d, k);
      assert WireInputs(w, o, agg, inputs, k) == WireInputs(w2, o, agg, inputs, k + 1);
      assert ListenersGrew(w.ds, w2.ds);
      WireInputsOnPending(w2, o, agg, inputs, k + 1);
      var r := WireInputs(w2, o, agg, inputs, k + 1);
      ListenersGrewTrans(w.ds, w2.ds, r.ds);
      assert w2.ds[d].listeners <= r.ds[d].listeners;
      forall j | k <= j < |inputs|
        ensures JoinDone(agg, j) in r.ds[inputs[j]].listeners && JoinFail(agg) in r.ds[inputs[j]].listeners
      {
        if j == k {
          assert r.ds[d].listeners[n] == w2.ds[d].listeners[n];
          assert r.ds[d].listeners[n + 1] == w2.ds[d].listeners[n + 1];
        }
      }
    }
  }

  /** all(promises...) over pending inputs: a new Pending aggregate with N
      null slots and a zero counter, and every input i carries the done
      callback that writes slot i and the fail callback. */
  lemma AllOnPending(w: World, o: Oracles, inputs: seq<DId>)
    requires Wf(w) && AllIn(inputs, |w.ds|) && inputs != []
    requires forall j :: 0 <= j < |inputs| ==> w.ds[inputs[j]].cell.Incomplete?
    ensures var r := All(w, o, inputs);
      r.Combined? && r.promise == |w.ds| && r.world.log == w.log &&
      r.world.ds[r.promise].state == Pending && r.world.ds[r.promise].cell.Incomplete? &&
      r.world.ds[r.promise].join == Some(Aggregate.Fresh(|inputs|)) &&
      forall j :: 0 <= j < |inputs| ==>
        JoinDone(r.promise, j) in r.world.ds[inputs[j]].listeners && JoinFail(r.promise) in r.world.ds[inputs[j]].listeners
  {
    var agg := |w.ds|;
    var w1 := World(w.ds + [FreshAggregate(|inputs|)], w.log);
    AllIsWiring(w, o, inputs);
    assert forall j :: 0 <= j < |inputs| ==> w1.ds[inputs[j]].cell.Incomplete?;
    WireInputsOnPending(w1, o, agg, inputs, 0);
    var r := WireInputs(w1, o, agg, inputs, 0);
    assert r.ds[agg] == w1.ds[agg].(listeners := r.ds[agg].listeners);
  }

  /** all over pending inputs changes nothing in the existing store but
      listener lists, which only grow. */
  lemma AllOnPendingOnlyAddsListeners(w: World, o: Oracles, inputs: seq<DId>)
    requires Wf(w) && AllIn(inputs, |w.ds|) && inputs != []
    requires forall j :: 0 <= j < |inputs| ==> w.ds[inputs[j]].cell.Incomplete?
    ensures var r := All(w, o, inputs);
      r.Combined? && |r.world.ds| == |w.ds| + 1 &&
      forall i :: 0 <= i < |w.ds| ==>
        r.world.ds[i] == w.ds[i].(listeners := r.world.ds[i].listeners) && w.ds[i].listeners <= r.world.ds[i].listeners
  {
    var agg := |w.ds|;
    var w1 := World(w.ds + [FreshAggregate(|inputs|)], w.log);
    AllIsWiring(w, o, inputs);
    assert forall j :: 0 <= j < |inputs| ==> w1.ds[inputs[j]].cell.Incomplete?;
    WireInputsOnPending(w1, o, agg, inputs, 0);
    var r := WireInputs(w1, o, agg, inputs, 0);
    assert ListenersGrew(w1.ds, r.ds);
    forall i | 0 <= i < |w.ds|
      ensures r.ds[i] == w.ds[i].(listeners := r.ds[i].listeners) && w.ds[i].listeners <= r.ds[i].listeners
    {
      assert w1.ds[i] == w.ds[i];
    }
  }

  /** all over a non-empty array is the fresh aggregate followed by the
      constructor's loop. */
  lemma AllIsWiring(w: World, o: Oracles, inputs: seq<DId>)
    requires Wf(w) && AllIn(inputs, |w.ds|) && inputs != []
    ensures var w1 := World(w.ds + [FreshAggregate(|inputs|)], w.log);
      Wf(w1) && AllIn(inputs, |w1.ds|) &&
      All(w, o, inputs) == Combined(WireInputs(w1, o, |w.ds|, inputs, 0), |w.ds|)
  {
    WfAppend(w, FreshAggregate(|inputs|));
  }

  /** An aggregate's done callback for input i with value v: while the
      aggregate is Pending it writes slot i, bumps the counter, and resolves the
      aggregate with the results exactly when the counter reaches N; once the
      aggregate is Resolved it changes nothing. */
  lemma InputDoneOnPending(w: World, o: Oracles, agg: DId, i: nat, v: Value)
    requires Wf(w) && Coherent(w) && agg < |w.ds| && w.ds[agg].join.Some? && i < |w.ds[agg].join.value.results|
    requires w.ds[agg].state == Pending
    ensures var j := w.ds[agg].join.value;
      var r := JoinInputDone(w, o, agg, i, v);
      (j.doneCount + 1 == |j.results| ==>
        r.ds[agg].state != Pending && r.ds[agg].cell == Succeeded(Joined(j.results[i := v]))) &&
      (j.doneCount + 1 != |j.results| ==>
        r == World(w.ds[agg := w.ds[agg].(join := Some(Join(j.results[i := v], j.doneCount + 1)))], w.log))
  {
    var j := w.ds[agg].join.value;
    var step := OnInputDone(j, false, i, v);
    var rec := w.ds[agg].(join := Some(step.join));
    var w1 := World(w.ds[agg := rec], w.log);
    WfUpdate(w, agg, rec);
    assert Coherent(w1);
    var r := JoinInputDone(w, o, agg, i, v);
    if step.resolve {
      assert r == Resolve(w1, o, agg, Joined(step.join.results));
      assert r == Settle(w1, o, agg, Resolved, Succeeded(Joined(step.join.results)));
      assert Evolves(w1.ds[agg], r.ds[agg]);
    }
  }

  /** A done callback reaching an aggregate that is already Resolved returns
      without touching the results or the counter. */
  lemma InputDoneOnResolved(w: World, o: Oracles, agg: DId, i: nat, v: Value)
    requires Wf(w) && agg < |w.ds| && w.ds[agg].join.Some? && i < |w.ds[agg].join.value.results|
    requires w.ds[agg].state == Resolved
    ensures JoinInputDone(w, o, agg, i, v) == w
  {
    assert w.ds[agg := w.ds[agg]] == w.ds;
  }

  /** A done callback reaching an aggregate that is already Rejected still
      writes its slot and bumps the counter, but cannot make the aggregate
      Resolved: its state stays Rejected, its cell keeps the cause, and no
      callback runs. */
  lemma InputDoneOnRejected(w: World, o: Oracles, agg: DId, i: nat, v: Value)
    requires Wf(w) && agg < |w.ds| && w.ds[agg].join.Some? && i < |w.ds[agg].join.value.results|
    requires w.ds[agg].state == Rejected
    ensures var j := w.ds[agg].join.value;
      var r := JoinInputDone(w, o, agg, i, v);
      r.ds == w.ds[agg := w.ds[agg].(join := Some(Join(j.results[i := v], j.doneCount + 1)))] &&
      r.log == w.log && r.ds[agg].state == Rejected && r.ds[agg].cell == w.ds[agg].cell
  {
  }

  /** An aggregate's fail callback with cause e: a Pending aggregate is
      rejected with the input's cause, even while other inputs are pending; an
      aggregate already Rejected is left alone.  (A Resolved aggregate would be
      turned Rejected by the loose guard of reject, keeping its success; no
      input can fail after all of them succeeded, since each completes once.) */
  lemma InputFail(w: World, o: Oracles, src: DId, agg: DId, e: Cause)
    requires Wf(w) && Coherent(w) && src < |w.ds| && w.ds[src].cell == Failed(e) && agg < |w.ds|
    ensures var r := Notify(w, o, src, JoinFail(agg), Failed(e));
      (w.ds[agg].state == Pending ==> r.ds[agg].state == Rejected && r.ds[agg].cell == Failed(e)) &&
      (w.ds[agg].state == Rejected ==> r == w) &&
      (w.ds[agg].state == Resolved ==> r.ds[agg].state == Rejected && r.ds[agg].cell == w.ds[agg].cell && r.log == w.log)
  {
    if w.ds[agg].state == Pending {
      assert Notify(w, o, src, JoinFail(agg), Failed(e)) == Reject(w, o, agg, e);
      assert Reject(w, o, agg, e) == Settle(w, o, agg, Rejected, Failed(e));
      var rec := w.ds[agg].(state := Rejected, cell := Failed(e), listeners := []);
      var w1 := World(w.ds[agg := rec], w.log);
      WfUpdate(w, agg, rec);
      TargetsStable(w.ds[agg].listeners, w.ds, w1.ds);
      var r := NotifyAll(w1, o, agg, w.ds[agg].listeners, Failed(e));
      assert Coherent(w1);
      StateStays(w1, r, agg);
    }
  }

  /** A Rejected deferred stays Rejected through any step that grows the store. */
  lemma StateStays(w: World, r: World, t: DId)
    requires Grows(w, r) && t < |w.ds| && w.ds[t].state == Rejected
    ensures r.ds[t].state == Rejected
  {
    assert Evolves(w.ds[t], r.ds[t]);
  }
}
