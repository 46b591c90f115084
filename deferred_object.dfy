/** DeferredObject and MultipleDeferredObject as imperative code: a store object
    whose fields are the deferred records and the log of callback invocations,
    and whose methods update them in place the way the Java methods do (set the
    state, complete the future, run its listeners one by one, append to the
    progress list, write one slot of the results and bump the counter).  Each
    method is proved to leave exactly the store that the matching function of
    module Settlement computes, so every lemma proved about those functions
    holds of the methods. */
module DeferredObjects {
  import opened Promises
  import Aggregate
  import opened Settlement
  import SettlementLemmas

  class DeferredStore {
    /** What the user callbacks do. */
    const oracles: Oracles
    /** Every DeferredObject, by id. */
    var deferreds: seq<Deferred>
    /** Every user callback invocation so far, in order. */
    var log: seq<Event>

    function Snapshot(): World
      reads this
    {
      World(deferreds, log)
    }

    /** Every listener refers to a deferred of the store. */
    predicate WellFormed()
      reads this
    {
      Wf(Snapshot())
    }

    /** What every public operation keeps: well-formed, state and future agree,
        and no callback has seen an outcome its promise does not have. */
    predicate Valid()
      reads this
    {
      Wf(Snapshot()) && Coherent(Snapshot()) && Consistent(Snapshot())
    }

    constructor (o: Oracles)
      ensures oracles == o && deferreds == [] && log == [] && Valid()
    {
      oracles := o;
      deferreds := [];
      log := [];
    }

    /** `new DeferredObject()`. */
    method NewDeferred() returns (d: DId)
      requires Valid()
      modifies this
      ensures Valid() && d == |old(deferreds)| && deferreds == old(deferreds) + [Fresh()] && log == old(log)
    {
      WfAppend(Snapshot(), Fresh());
      d := |deferreds|;
      ConsistentAppend(Snapshot(), Fresh());
      deferreds := deferreds + [Fresh()];
    }

    // -------------------------------------------------------------- the cascade

    /** Sets the state, completes the future and runs the listeners it had. */
    method Settle(d: DId, s: State, c: Cell)
      requires WellFormed() && d < |deferreds| && deferreds[d].cell.Incomplete? && !c.Incomplete?
      requires s != Pending && StateStep(deferreds[d].state, s) && (s == Resolved ==> c.Succeeded?)
      modifies this
      ensures Snapshot() == Settlement.Settle(old(Snapshot()), oracles, d, s, c)
      decreases Unsettled(Snapshot()), 0, 0, 0
    {
      var ls := deferreds[d].listeners;
      var rec := deferreds[d].(state := s, cell := c, listeners := []);
      CountUpdate(deferreds, d, rec);
      WfUpdate(Snapshot(), d, rec);
      TargetsStable(ls, deferreds, deferreds[d := rec]);
      deferreds := deferreds[d := rec];
      NotifyAll(d, ls, c);
    }

    /** The future's notification loop. */
    method NotifyAll(src: DId, ls: seq<Listener>, c: Cell)
      requires WellFormed() && src < |deferreds| && deferreds[src].cell == c && !c.Incomplete? && TargetsOk(ls, deferreds)
      modifies this
      ensures Snapshot() == Settlement.NotifyAll(old(Snapshot()), oracles, src, ls, c)
      decreases Unsettled(Snapshot()), 1, |ls|, 0
    {
      ghost var u := Unsettled(Snapshot());
      ghost var target := Settlement.NotifyAll(Snapshot(), oracles, src, ls, c);
      assert ls[0..] == ls;
      var i := 0;
      while i < |ls|
        invariant 0 <= i <= |ls|
        invariant NotifyingFrom(Snapshot(), oracles, src, ls[i..], c, u, target)
        decreases |ls| - i
      {
        NotifyUnfold(Snapshot(), oracles, src, ls, i, c, u, target);
        Notify(src, ls[i], c);
        i := i + 1;
      }
    }

    /** One listener of `src`, whose future has completed as `c`. */
    method Notify(src: DId, l: Listener, c: Cell)
      requires WellFormed() && src < |deferreds| && deferreds[src].cell == c && !c.Incomplete? && TargetOk(l, deferreds)
      modifies this
      ensures Snapshot() == Settlement.Notify(old(Snapshot()), oracles, src, l, c)
      decreases Unsettled(Snapshot()), 1, 0, Rank(l)
    {
      match l
      case OnDone(cb) =>
        if c.Succeeded? { log := log + [DoneCalled(src, cb, c.value)]; }
      case OnFail(cb) =>
        if c.Failed? { log := log + [FailCalled(src, cb, c.cause)]; }
      case OnAlways(cb) =>
        log := log + [AlwaysCalled(src, cb)];
      case Chain(child, step) =>
        // operationComplete
        if c.Failed? && deferreds[child].state == Pending {
          var _ := Reject(child, c.cause);
        } else if c.Failed? {
          var _ := Reject(child, ExecutionFailure(c.cause));
        } else {
          RunStep(src, child, step, c.value);
        }
      case PipeResolve(t) =>
        if c.Succeeded? { var _ := Resolve(t, c.value); }
      case PipeReject(t) =>
        if c.Failed? { var _ := Reject(t, c.cause); }
      case JoinDone(agg, i) =>
        if c.Succeeded? { JoinInputDone(agg, i, c.value); }
      case JoinFail(agg) =>
        if c.Failed? && deferreds[agg].state != Rejected { var _ := Reject(agg, c.cause); }
    }

    /** executeCallback, with pipePromise inlined. */
    method RunStep(src: DId, child: DId, step: Step, v: Value)
      requires WellFormed() && child < |deferreds| && src < |deferreds| && deferreds[src].cell == Succeeded(v)
      modifies this
      ensures Snapshot() == Settlement.RunStep(old(Snapshot()), oracles, src, child, step, v)
      decreases Unsettled(Snapshot()), 1, 0, 2
    {
      if step.NoCallback? {
        return;
      }
      log := log + [ChainCalled(src, step.cb, v)];
      match step {
        case Pipe(cb) =>
          match oracles.pipe(cb, v) {
            case NoPromise => var _ := Resolve(child, Null);
            case PipeThrows(e) => var _ := Reject(child, e);
            case PromiseOf(p) =>
              if p < |deferreds| {
                Register(p, PipeResolve(child));
                Register(p, PipeReject(child));
              }
          }
        case ThenDone(cb) =>
          match oracles.call(cb, v) {
            case Throws(e) => var _ := Reject(child, e);
            case Returns(_) => var _ := Resolve(child, Null);
          }
        case MapTo(cb) =>
          match oracles.call(cb, v) {
            case Throws(e) => var _ := Reject(child, e);
            case Returns(x) => var _ := Resolve(child, x);
          }
      }
    }

    /** MultipleDeferredObject's done callback for input `i`. */
    method JoinInputDone(agg: DId, i: nat, v: Value)
      requires WellFormed() && agg < |deferreds| && deferreds[agg].join.Some? && i < |deferreds[agg].join.value.results|
      modifies this
      ensures Snapshot() == Settlement.JoinInputDone(old(Snapshot()), oracles, agg, i, v)
      decreases Unsettled(Snapshot()), 0, 2, 0
    {
      if deferreds[agg].state == Resolved {
        assert deferreds[agg := deferreds[agg]] == deferreds;
        return;
      }
      var j := deferreds[agg].join.value;
      var results := j.results[i := v];
      var doneCount := j.doneCount + 1;
      var rec := deferreds[agg].(join := Some(Aggregate.Join(results, doneCount)));
      CountUpdate(deferreds, agg, rec);
      WfUpdate(Snapshot(), agg, rec);
      deferreds := deferreds[agg := rec];
      if doneCount == |results| {
        var _ := Resolve(agg, Joined(results));
      }
    }

    /** addListener on the future of `d`. */
    method Register(d: DId, l: Listener)
      requires WellFormed() && d < |deferreds| && TargetOk(l, deferreds)
      modifies this
      ensures Snapshot() == Settlement.Register(old(Snapshot()), oracles, d, l)
      decreases Unsettled(Snapshot()), 1, 0, Rank(l) + 1
    {
      if deferreds[d].cell.Incomplete? {
        var rec := deferreds[d].(listeners := deferreds[d].listeners + [l]);
        deferreds := deferreds[d := rec];
      } else {
        Notify(d, l, deferreds[d].cell);
      }
    }

    /** resolve(v); `resolve()` is `resolve(Null)`.  Returns `this`. */
    method Resolve(d: DId, v: Value) returns (self: DId)
      requires WellFormed() && d < |deferreds|
      modifies this
      ensures self == d && Snapshot() == Settlement.Resolve(old(Snapshot()), oracles, d, v)
      ensures old(Valid()) ==> Valid()
      decreases Unsettled(Snapshot()), 0, 1, 0
    {
      ghost var w := Snapshot();
      self := d;
      if deferreds[d].state == Pending {
        if deferreds[d].cell.Incomplete? {
          Settle(d, Resolved, Succeeded(v));
        } else {
          deferreds := deferreds[d := deferreds[d].(state := Resolved)];
        }
      }
      if Consistent(w) {
        GrowsConsistent(w, Snapshot());
      }
    }

    /** reject(e).  Returns `this`. */
    method Reject(d: DId, e: Cause) returns (self: DId)
      requires WellFormed() && d < |deferreds|
      modifies this
      ensures self == d && Snapshot() == Settlement.Reject(old(Snapshot()), oracles, d, e)
      ensures old(Valid()) ==> Valid()
      decreases Unsettled(Snapshot()), 0, 1, 0
    {
      ghost var w := Snapshot();
      self := d;
      if deferreds[d].state != Rejected {
        if deferreds[d].cell.Incomplete? {
          Settle(d, Rejected, Failed(e));
        } else {
          deferreds := deferreds[d := deferreds[d].(state := Rejected)];
        }
      }
      if Consistent(w) {
        GrowsConsistent(w, Snapshot());
      }
    }

    // -------------------------------------------------------------- the registration operations

    /** done(cb).  Returns `this`. */
    method Done(d: DId, cb: Option<CbId>) returns (self: DId)
      requires Valid() && d < |deferreds|
      modifies this
      ensures Valid() && self == d && Snapshot() == Settlement.Done(old(Snapshot()), oracles, d, cb)
    {
      self := d;
      if cb.Some? {
        Register(d, OnDone(cb.value));
      }
      GrowsConsistent(old(Snapshot()), Snapshot());
    }

    /** fail(cb).  Returns `this`. */
    method Fail(d: DId, cb: Option<CbId>) returns (self: DId)
      requires Valid() && d < |deferreds|
      modifies this
      ensures Valid() && self == d && Snapshot() == Settlement.Fail(old(Snapshot()), oracles, d, cb)
    {
      self := d;
      if cb.Some? {
        Register(d, OnFail(cb.value));
      }
      GrowsConsistent(old(Snapshot()), Snapshot());
    }

    /** always(cb).  Returns `this`. */
    method Always(d: DId, cb: Option<CbId>) returns (self: DId)
      requires Valid() && d < |deferreds|
      modifies this
      ensures Valid() && self == d && Snapshot() == Settlement.Always(old(Snapshot()), oracles, d, cb)
    {
      self := d;
      if cb.Some? {
        Register(d, OnAlways(cb.value));
      }
      GrowsConsistent(old(Snapshot()), Snapshot());
    }

    /** runProgressCallback: one invocation; what the callback throws is dropped. */
    method RunProgressCallback(d: DId, cb: CbId, percent: int)
      modifies this
      ensures deferreds == old(deferreds) && log == old(log) + [ProgressCalled(d, cb, percent)]
    {
      log := log + [ProgressCalled(d, cb, percent)];
    }

    /** progress(cb).  Returns `this`. */
    method Progress(d: DId, cb: Option<CbId>) returns (self: DId)
      requires Valid() && d < |deferreds|
      modifies this
      ensures Valid() && self == d && Snapshot() == Settlement.Progress(old(Snapshot()), d, cb)
    {
      self := d;
      SettlementLemmas.ProgressKeepsInvariants(Snapshot(), d, cb);
      if cb.None? {
        return;
      }
      if deferreds[d].state == Resolved {
        RunProgressCallback(d, cb.value, 100);
      } else if deferreds[d].state == Pending {
        deferreds := deferreds[d := deferreds[d].(progress := deferreds[d].progress + [cb.value])];
      }
    }

    /** setProgress(n): clamp, then call every progress callback in order.
        Returns `this`. */
    method SetProgress(d: DId, n: int) returns (self: DId)
      requires Valid() && d < |deferreds|
      modifies this
      ensures Valid() && self == d && Snapshot() == Settlement.SetProgress(old(Snapshot()), d, n)
    {
      self := d;
      var value := n;
      if value > 100 { value := 100; }
      if value < 0 { value := 0; }
      var cbs := deferreds[d].progress;
      for k := 0 to |cbs|
        invariant deferreds == old(deferreds)
        invariant |log| == |old(log)| + k && log[..|old(log)|] == old(log)
        invariant forall m :: 0 <= m < k ==> log[|old(log)| + m] == ProgressCalled(d, cbs[m], value)
      {
        RunProgressCallback(d, cbs[k], value);
      }
      assert value == Clamp(n);
      assert log == old(log) + seq(|cbs|, k requires 0 <= k < |cbs| => ProgressCalled(d, cbs[k], Clamp(n)));
      forall k | 0 <= k < |log| ensures Matches(log[k], deferreds) {
        if k < |old(log)| {
          assert log[k] == old(log)[k];
        }
      }
    }

    /** The common part of then and map: a new deferred, and a NettyFutureListener
        carrying `step` added to the future of `d`. */
    method Chained(d: DId, step: Step) returns (child: DId)
      requires WellFormed() && d < |deferreds|
      modifies this
      ensures var r := Settlement.Chained(old(Snapshot()), oracles, d, step);
        child == r.promise && Snapshot() == r.world
    {
      WfAppend(Snapshot(), Fresh());
      child := |deferreds|;
      deferreds := deferreds + [Fresh()];
      Register(d, Chain(child, step));
    }

    /** then(pipe-callback): the new promise. */
    method Then(d: DId, cb: Option<CbId>) returns (child: DId)
      requires Valid() && d < |deferreds|
      modifies this
      ensures var r := Settlement.Then(old(Snapshot()), oracles, d, cb);
        Valid() && child == r.promise && child != d && Snapshot() == r.world
    {
      child := Chained(d, if cb.None? then NoCallback else Pipe(cb.value));
      ChainedKeepsValid(old(Snapshot()), oracles, d, if cb.None? then NoCallback else Pipe(cb.value));
    }

    /** then(done-callback): the new promise. */
    method ThenDo(d: DId, cb: Option<CbId>) returns (child: DId)
      requires Valid() && d < |deferreds|
      modifies this
      ensures var r := Settlement.ThenDo(old(Snapshot()), oracles, d, cb);
        Valid() && child == r.promise && child != d && Snapshot() == r.world
    {
      child := Chained(d, if cb.None? then NoCallback else ThenDone(cb.value));
      ChainedKeepsValid(old(Snapshot()), oracles, d, if cb.None? then NoCallback else ThenDone(cb.value));
    }

    /** map(cb): the new promise. */
    method Map(d: DId, cb: Option<CbId>) returns (child: DId)
      requires Valid() && d < |deferreds|
      modifies this
      ensures var r := Settlement.Map(old(Snapshot()), oracles, d, cb);
        Valid() && child == r.promise && child != d && Snapshot() == r.world
    {
      child := Chained(d, if cb.None? then NoCallback else MapTo(cb.value));
      ChainedKeepsValid(old(Snapshot()), oracles, d, if cb.None? then NoCallback else MapTo(cb.value));
    }

    /** all(promises...): IllegalArgumentException (None) for an empty array;
        otherwise a new MultipleDeferredObject over the inputs, which is
        returned. */
    method All(inputs: seq<DId>) returns (agg: Option<DId>)
      requires Valid() && AllIn(inputs, |deferreds|)
      modifies this
      ensures Valid()
      ensures agg.None? <==> inputs == []
      ensures agg.None? ==> Snapshot() == old(Snapshot())
      ensures agg.Some? ==> Settlement.All(old(Snapshot()), oracles, inputs) == Combined(Snapshot(), agg.value)
    {
      if |inputs| == 0 {
        return None;
      }
      ghost var w0 := Snapshot();
      var a := |deferreds|;
      WfAppend(Snapshot(), FreshAggregate(|inputs|));
      ConsistentAppend(Snapshot(), FreshAggregate(|inputs|));
      deferreds := deferreds + [FreshAggregate(|inputs|)];
      assert Coherent(Snapshot());
      ghost var w1 := Snapshot();
      WireAggregate(a, inputs);
      GrowsConsistent(w1, Snapshot());
      agg := Some(a);
    }

    /** The loop of the MultipleDeferredObject constructor: input k gets the
        done callback for slot k, then the fail callback. */
    method WireAggregate(agg: DId, inputs: seq<DId>)
      requires WellFormed() && agg < |deferreds| && deferreds[agg].join.Some?
      requires |deferreds[agg].join.value.results| == |inputs| && AllIn(inputs, |deferreds|)
      modifies this
      ensures Snapshot() == WireInputs(old(Snapshot()), oracles, agg, inputs, 0)
    {
      ghost var target := WireInputs(Snapshot(), oracles, agg, inputs, 0);
      for k := 0 to |inputs|
        invariant WiringFrom(Snapshot(), oracles, agg, inputs, k, target)
      {
        WireInputsUnfold(Snapshot(), oracles, agg, inputs, k, target);
        WireInput(agg, inputs[k], k);
      }
    }

    /** One round of that loop. */
    method WireInput(agg: DId, d: DId, k: nat)
      requires WellFormed() && agg < |deferreds| && deferreds[agg].join.Some? && k < |deferreds[agg].join.value.results| && d < |deferreds|
      modifies this
      ensures Snapshot() == Settlement.WireInput(old(Snapshot()), oracles, agg, d, k)
    {
      Register(d, JoinDone(agg, k));
      Register(d, JoinFail(agg));
    }
  }

  /** The notification loop, over the listeners `rest` still to run, turns `w`
      into `target`; no step has settled more than `u` deferreds so far. */
  predicate NotifyingFrom(w: World, o: Oracles, src: DId, rest: seq<Listener>, c: Cell, u: nat, target: World) {
    Wf(w) && src < |w.ds| && w.ds[src].cell == c && !c.Incomplete? && TargetsOk(rest, w.ds) &&
    Unsettled(w) <= u && Settlement.NotifyAll(w, o, src, rest, c) == target
  }

  /** One round of the notification loop: the rest of the loop carries on from
      the store it leaves. */
  lemma NotifyUnfold(w: World, o: Oracles, src: DId, ls: seq<Listener>, i: nat, c: Cell, u: nat, target: World)
    requires i < |ls| && NotifyingFrom(w, o, src, ls[i..], c, u, target)
    ensures TargetOk(ls[i], w.ds)
    ensures NotifyingFrom(Settlement.Notify(w, o, src, ls[i], c), o, src, ls[i + 1..], c, u, target)
  {
    assert ls[i..][0] == ls[i] && ls[i..][1..] == ls[i + 1..];
    var w2 := Settlement.Notify(w, o, src, ls[i], c);
    assert Evolves(w.ds[src], w2.ds[src]);
    TargetsStable(ls[i + 1..], w.ds, w2.ds);
  }

  /** The constructor's loop, from input `k` on, turns `w` into `target`. */
  predicate WiringFrom(w: World, o: Oracles, agg: DId, inputs: seq<DId>, k: nat, target: World) {
    Wf(w) && agg < |w.ds| && w.ds[agg].join.Some? && |w.ds[agg].join.value.results| == |inputs| &&
    AllIn(inputs, |w.ds|) && k <= |inputs| && WireInputs(w, o, agg, inputs, k) == target
  }

  /** One round of the constructor's loop: the rest of the loop carries on from
      the store it leaves. */
  lemma WireInputsUnfold(w: World, o: Oracles, agg: DId, inputs: seq<DId>, k: nat, target: World)
    requires WiringFrom(w, o, agg, inputs, k, target) && k < |inputs|
    ensures WiringFrom(Settlement.WireInput(w, o, agg, inputs[k], k), o, agg, inputs, k + 1, target)
  {
    var w2 := Settlement.WireInput(w, o, agg, inputs[k], k);
    assert Evolves(w.ds[agg], w2.ds[agg]);
  }

  /** The invariant of the store survives then and map. */
  lemma ChainedKeepsValid(w: World, o: Oracles, d: DId, step: Step)
    requires Wf(w) && Coherent(w) && Consistent(w) && d < |w.ds|
    ensures var r := Settlement.Chained(w, o, d, step).world;
      Wf(r) && Coherent(r) && Consistent(r)
  {
    var w1 := World(w.ds + [Fresh()], w.log);
    WfAppend(w, Fresh());
    ConsistentAppend(w, Fresh());
    assert Coherent(w1);
    GrowsConsistent(w1, Settlement.Register(w1, o, d, Chain(|w.ds|, step)));
  }
}
