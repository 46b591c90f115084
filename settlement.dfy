/** The semantics of DeferredObject as functions over a closed store of deferred
    records.  Each record holds what a DeferredObject holds: its `state`, the
    underlying future (a settle-once cell with one shared listener list), its own
    `progressCallbacks`, and, for the promise built by `all`, the bookkeeping of
    MultipleDeferredObject.  The future runs listeners on the immediate executor:
    a listener added to a completed cell runs at once, and completing a cell runs
    its listeners in registration order, depth first (a listener that settles
    another deferred runs that deferred's listeners before returning).

    Every function here returns the whole new store; the log records every
    invocation of a user callback. */
module Settlement {
  import opened Promises
  import opened Aggregate

  /** The underlying future: not yet completed, or completed once, with a
      success value or with a failure cause.  `getResult` and `getCause` read it. */
  datatype Cell = Incomplete | Succeeded(value: Value) | Failed(cause: Cause)

  /** The callback a NettyFutureListener carries (at most one of the three
      fields is set; `NoCallback` when the callback passed in was null). */
  datatype Step = Pipe(cb: CbId) | ThenDone(cb: CbId) | MapTo(cb: CbId) | NoCallback

  /** An entry of the future's listener list. */
  datatype Listener =
    | OnDone(cb: CbId)                // registered by done(cb)
    | OnFail(cb: CbId)                // registered by fail(cb)
    | OnAlways(cb: CbId)              // registered by always(cb)
    | Chain(child: DId, step: Step)   // NettyFutureListener of then/map
    | PipeResolve(target: DId)        // done(deferred::resolve) of pipePromise
    | PipeReject(target: DId)         // fail(deferred::reject) of pipePromise
    | JoinDone(agg: DId, index: nat)  // MultipleDeferredObject's done callback for input `index`
    | JoinFail(agg: DId)              // MultipleDeferredObject's fail callback

  /** An invocation of a user callback, tagged with the deferred it was registered on. */
  datatype Event =
    | DoneCalled(on: DId, cb: CbId, value: Value)
    | FailCalled(on: DId, cb: CbId, cause: Cause)
    | AlwaysCalled(on: DId, cb: CbId)
    | ProgressCalled(on: DId, cb: CbId, percent: int)
    | ChainCalled(on: DId, cb: CbId, value: Value)

  /** One DeferredObject.  `join` is present exactly for an aggregate. */
  datatype Deferred = Deferred(state: State, cell: Cell, listeners: seq<Listener>,
                               progress: seq<CbId>, join: Option<Join>)

  datatype World = World(ds: seq<Deferred>, log: seq<Event>)

  /** `new DeferredObject()`: Pending, nothing registered. */
  function Fresh(): Deferred {
    Deferred(Pending, Incomplete, [], [], None)
  }

  /** `new MultipleDeferredObject(...)` over n inputs, before any callback is wired. */
  function FreshAggregate(n: nat): Deferred {
    Deferred(Pending, Incomplete, [], [], Some(Aggregate.Fresh(n)))
  }

  // ---------------------------------------------------------------- well-formedness

  /** Every deferred a listener refers to exists; an aggregate's done callback
      refers to one of its slots. */
  predicate TargetOk(l: Listener, ds: seq<Deferred>) {
    match l
    case Chain(child, _) => child < |ds|
    case PipeResolve(t) => t < |ds|
    case PipeReject(t) => t < |ds|
    case JoinDone(agg, i) => agg < |ds| && ds[agg].join.Some? && i < |ds[agg].join.value.results|
    case JoinFail(agg) => agg < |ds|
    case _ => true
  }

  predicate TargetsOk(ls: seq<Listener>, ds: seq<Deferred>) {
    forall k :: 0 <= k < |ls| ==> TargetOk(ls[k], ds)
  }

  predicate Wf(w: World) {
    forall i :: 0 <= i < |w.ds| ==> TargetsOk(w.ds[i].listeners, w.ds)
  }

  /** A deferred is Pending exactly while its cell is incomplete (resolve and
      reject change both together), a Resolved one holds a success, and a
      completed cell holds no listeners (they ran when it completed; later ones
      run at once). */
  predicate Coherent(w: World) {
    forall i :: 0 <= i < |w.ds| ==>
      (w.ds[i].state == Pending <==> w.ds[i].cell.Incomplete?) &&
      (w.ds[i].state == Resolved ==> w.ds[i].cell.Succeeded?) &&
      (!w.ds[i].cell.Incomplete? ==> w.ds[i].listeners == [])
  }

  // ---------------------------------------------------------------- how a store may change

  /** Resolve and reject allow Pending -> Resolved, Pending -> Rejected and, because
      reject only refuses an already Rejected promise, Resolved -> Rejected. */
  predicate StateStep(a: State, b: State) {
    a == Pending || a == b || (a == Resolved && b == Rejected)
  }

  predicate SameShape(a: Option<Join>, b: Option<Join>) {
    a.Some? == b.Some? && (a.Some? ==> |a.value.results| == |b.value.results|)
  }

  /** A completed cell never changes (so neither do getResult and getCause), a
      state never goes back, and aggregate bookkeeping keeps its size. */
  predicate Evolves(a: Deferred, b: Deferred) {
    (!a.cell.Incomplete? ==> b.cell == a.cell) && StateStep(a.state, b.state) && SameShape(a.join, b.join)
  }

  predicate Evolved(a: seq<Deferred>, b: seq<Deferred>) {
    |a| == |b| && forall i :: 0 <= i < |a| ==> Evolves(a[i], b[i])
  }

  /** A logged callback invocation agrees with the deferred it was registered on:
      a done or chained callback only ever receives the value the cell succeeded
      with, a fail callback only the cause it failed with, an always callback runs
      only once the cell has completed, and a progress callback only sees 0..100. */
  predicate Matches(e: Event, ds: seq<Deferred>) {
    e.on < |ds| &&
    match e
    case DoneCalled(d, _, v) => ds[d].cell == Succeeded(v)
    case ChainCalled(d, _, v) => ds[d].cell == Succeeded(v)
    case FailCalled(d, _, x) => ds[d].cell == Failed(x)
    case AlwaysCalled(d, _) => !ds[d].cell.Incomplete?
    case ProgressCalled(_, _, p) => 0 <= p <= 100
  }

  predicate Consistent(w: World) {
    forall k :: 0 <= k < |w.log| ==> Matches(w.log[k], w.ds)
  }

  lemma MatchesStable(e: Event, a: seq<Deferred>, b: seq<Deferred>)
    requires Matches(e, a) && Evolved(a, b)
    ensures Matches(e, b)
  {
    assert Evolves(a[e.on], b[e.on]);
  }

  /** What every dispatch step guarantees: no deferred appears or disappears,
      each one evolves as above, and the log only grows, by entries that agree
      with the cells they name. */
  predicate Grows(w: World, r: World) {
    Evolved(w.ds, r.ds) && w.log <= r.log &&
    forall k :: |w.log| <= k < |r.log| ==> Matches(r.log[k], r.ds)
  }

  lemma GrowsTrans(a: World, b: World, c: World)
    requires Grows(a, b) && Grows(b, c)
    ensures Grows(a, c)
  {
    forall i | 0 <= i < |a.ds| ensures Evolves(a.ds[i], c.ds[i]) {
      assert Evolves(a.ds[i], b.ds[i]) && Evolves(b.ds[i], c.ds[i]);
    }
    forall k | |a.log| <= k < |c.log| ensures Matches(c.log[k], c.ds) {
      if k < |b.log| {
        assert c.log[k] == b.log[k];
        MatchesStable(b.log[k], b.ds, c.ds);
      }
    }
  }

  /** A step that only grows keeps a consistent log consistent. */
  lemma GrowsConsistent(w: World, r: World)
    requires Consistent(w) && Grows(w, r)
    ensures Consistent(r)
  {
    forall k | 0 <= k < |r.log| ensures Matches(r.log[k], r.ds) {
      if k < |w.log| {
        assert r.log[k] == w.log[k];
        MatchesStable(w.log[k], w.ds, r.ds);
      }
    }
  }

  lemma TargetsStable(ls: seq<Listener>, a: seq<Deferred>, b: seq<Deferred>)
    requires TargetsOk(ls, a) && Evolved(a, b)
    ensures TargetsOk(ls, b)
  {
    forall k | 0 <= k < |ls| ensures TargetOk(ls[k], b) {
      match ls[k]
      case JoinDone(agg, i) => assert Evolves(a[agg], b[agg]);
      case _ =>
    }
  }

  /** Replacing one record by one that evolves from it and whose listeners are
      well targeted keeps the store well formed. */
  lemma WfUpdate(w: World, d: DId, rec: Deferred)
    requires Wf(w) && d < |w.ds| && Evolves(w.ds[d], rec) && TargetsOk(rec.listeners, w.ds)
    ensures Evolved(w.ds, w.ds[d := rec])
    ensures Wf(World(w.ds[d := rec], w.log))
  {
    var ds := w.ds[d := rec];
    assert Evolved(w.ds, ds);
    forall i | 0 <= i < |ds| ensures TargetsOk(ds[i].listeners, ds) {
      TargetsStable(ds[i].listeners, w.ds, ds);
    }
  }

  // ---------------------------------------------------------------- termination measure

  /** How many cells are still incomplete.  Every completion lowers it, which is
      what bounds a cascade of listeners settling further deferreds. */
  function CountIncomplete(ds: seq<Deferred>): nat {
    if ds == [] then 0
    else CountIncomplete(ds[..|ds| - 1]) + (if ds[|ds| - 1].cell.Incomplete? then 1 else 0)
  }

  function Unsettled(w: World): nat {
    CountIncomplete(w.ds)
  }

  lemma {:induction false} CountUpdate(ds: seq<Deferred>, d: nat, rec: Deferred)
    requires d < |ds|
    ensures CountIncomplete(ds[d := rec]) + (if ds[d].cell.Incomplete? then 1 else 0)
         == CountIncomplete(ds) + (if rec.cell.Incomplete? then 1 else 0)
  {
    var n := |ds|;
    if d < n - 1 {
      assert ds[d := rec][..n - 1] == ds[..n - 1][d := rec];
      CountUpdate(ds[..n - 1], d, rec);
    } else {
      assert ds[d := rec][..n - 1] == ds[..n - 1];
    }
  }

  lemma {:induction false} CountMono(a: seq<Deferred>, b: seq<Deferred>)
    requires Evolved(a, b)
    ensures CountIncomplete(b) <= CountIncomplete(a)
  {
    if a != [] {
      var n := |a|;
      assert Evolves(a[n - 1], b[n - 1]);
      CountMono(a[..n - 1], b[..n - 1]);
    }
  }

  /** The rank of a listener inside one dispatch step: a NettyFutureListener may
      register two further listeners (pipePromise), which rank lower. */
  function Rank(l: Listener): nat {
    if l.Chain? then 3 else 0
  }

  function Log(w: World, e: Event): World {
    World(w.ds, w.log + [e])
  }

  // ---------------------------------------------------------------- the cascade

  /** Completes the cell of `d` (which is incomplete), sets its state, and runs the
      listeners it had, in registration order; the list is emptied first, so each
      listener runs once. */
  function Settle(w: World, o: Oracles, d: DId, s: State, c: Cell): (r: World)
    requires Wf(w) && d < |w.ds| && w.ds[d].cell.Incomplete? && !c.Incomplete?
    requires s != Pending && StateStep(w.ds[d].state, s) && (s == Resolved ==> c.Succeeded?)
    ensures Wf(r) && Grows(w, r) && Unsettled(r) < Unsettled(w)
    ensures Coherent(w) ==> Coherent(r)
    ensures r.ds[d].cell == c
    decreases Unsettled(w), 0, 0, 0
  {
    var rec := w.ds[d].(state := s, cell := c, listeners := []);
    var w1 := World(w.ds[d := rec], w.log);
    CountUpdate(w.ds, d, rec);
    WfUpdate(w, d, rec);
    TargetsStable(w.ds[d].listeners, w.ds, w1.ds);
    var r := NotifyAll(w1, o, d, w.ds[d].listeners, c);
    GrowsTrans(w, w1, r);
    r
  }

  /** The future's notification loop: run `ls` (the listeners of `src`, whose cell
      is `c`) one after the other. */
  function NotifyAll(w: World, o: Oracles, src: DId, ls: seq<Listener>, c: Cell): (r: World)
    requires Wf(w) && src < |w.ds| && w.ds[src].cell == c && !c.Incomplete? && TargetsOk(ls, w.ds)
    ensures Wf(r) && Grows(w, r) && Unsettled(r) <= Unsettled(w)
    ensures Coherent(w) ==> Coherent(r)
    decreases Unsettled(w), 1, |ls|, 0
  {
    if ls == [] then w
    else
      var w1 := Notify(w, o, src, ls[0], c);
      TargetsStable(ls[1..], w.ds, w1.ds);
      var r := NotifyAll(w1, o, src, ls[1..], c);
      GrowsTrans(w, w1, r);
      r
  }

  /** Runs one listener of `src`, whose cell has completed as `c`. */
  function Notify(w: World, o: Oracles, src: DId, l: Listener, c: Cell): (r: World)
    requires Wf(w) && src < |w.ds| && w.ds[src].cell == c && !c.Incomplete? && TargetOk(l, w.ds)
    ensures Wf(r) && Grows(w, r) && Unsettled(r) <= Unsettled(w)
    ensures Coherent(w) ==> Coherent(r)
    decreases Unsettled(w), 1, 0, Rank(l)
  {
    match l
    case OnDone(cb) => if c.Succeeded? then Log(w, DoneCalled(src, cb, c.value)) else w
    case OnFail(cb) => if c.Failed? then Log(w, FailCalled(src, cb, c.cause)) else w
    case OnAlways(cb) => Log(w, AlwaysCalled(src, cb))
    case Chain(child, step) =>
      // operationComplete: a failure rejects a still-pending child with the same
      // cause; otherwise the future is read, which for a failure raises the
      // wrapped cause, and anything raised rejects the child
      if c.Failed? && w.ds[child].state == Pending then Reject(w, o, child, c.cause)
      else if c.Failed? then Reject(w, o, child, ExecutionFailure(c.cause))
      else RunStep(w, o, src, child, step, c.value)
    case PipeResolve(t) => if c.Succeeded? then Resolve(w, o, t, c.value) else w
    case PipeReject(t) => if c.Failed? then Reject(w, o, t, c.cause) else w
    case JoinDone(agg, i) => if c.Succeeded? then JoinInputDone(w, o, agg, i, c.value) else w
    case JoinFail(agg) =>
      if c.Failed? && w.ds[agg].state != Rejected then Reject(w, o, agg, c.cause) else w
  }

  /** executeCallback: runs the chained callback on the parent's result `v` and
      settles `child` from its outcome; a pipe callback's promise is wired to the
      child by registering done(child::resolve) and fail(child::reject) on it.  A
      promise outside the store never settles within the model, so the child
      then stays pending. */
  function RunStep(w: World, o: Oracles, src: DId, child: DId, step: Step, v: Value): (r: World)
    requires Wf(w) && child < |w.ds| && src < |w.ds| && w.ds[src].cell == Succeeded(v)
    ensures Wf(r) && Grows(w, r) && Unsettled(r) <= Unsettled(w)
    ensures Coherent(w) ==> Coherent(r)
    decreases Unsettled(w), 1, 0, 2
  {
    if step.NoCallback? then w
    else
      var w1 := Log(w, ChainCalled(src, step.cb, v));
      var r :=
        match step
        case Pipe(cb) =>
          (match o.pipe(cb, v)
           case NoPromise => Resolve(w1, o, child, Null)
           case PipeThrows(e) => Reject(w1, o, child, e)
           case PromiseOf(p) =>
             if p < |w1.ds| then
               var w2 := Register(w1, o, p, PipeResolve(child));
               var r := Register(w2, o, p, PipeReject(child));
               GrowsTrans(w1, w2, r);
               r
             else w1)
        case ThenDone(cb) =>
          (match o.call(cb, v)
           case Throws(e) => Reject(w1, o, child, e)
           case Returns(_) => Resolve(w1, o, child, Null))
        case MapTo(cb) =>
          (match o.call(cb, v)
           case Throws(e) => Reject(w1, o, child, e)
           case Returns(x) => Resolve(w1, o, child, x));
      GrowsTrans(w, w1, r);
      r
  }

  /** MultipleDeferredObject's done callback for input `i` receiving `v`. */
  function JoinInputDone(w: World, o: Oracles, agg: DId, i: nat, v: Value): (r: World)
    requires Wf(w) && agg < |w.ds| && w.ds[agg].join.Some? && i < |w.ds[agg].join.value.results|
    ensures Wf(r) && Grows(w, r) && Unsettled(r) <= Unsettled(w)
    ensures Coherent(w) ==> Coherent(r)
    decreases Unsettled(w), 0, 2, 0
  {
    var step := OnInputDone(w.ds[agg].join.value, w.ds[agg].state == Resolved, i, v);
    var rec := w.ds[agg].(join := Some(step.join));
    var w1 := World(w.ds[agg := rec], w.log);
    CountUpdate(w.ds, agg, rec);
    WfUpdate(w, agg, rec);
    if step.resolve then
      var r := Resolve(w1, o, agg, Joined(step.join.results));
      GrowsTrans(w, w1, r);
      r
    else w1
  }

  /** addListener: on a completed cell the listener runs at once (immediate
      executor), otherwise it is appended to the cell's list. */
  function Register(w: World, o: Oracles, d: DId, l: Listener): (r: World)
    requires Wf(w) && d < |w.ds| && TargetOk(l, w.ds)
    ensures Wf(r) && Grows(w, r) && Unsettled(r) <= Unsettled(w)
    ensures Coherent(w) ==> Coherent(r)
    decreases Unsettled(w), 1, 0, Rank(l) + 1
  {
    if w.ds[d].cell.Incomplete? then
      var rec := w.ds[d].(listeners := w.ds[d].listeners + [l]);
      CountUpdate(w.ds, d, rec);
      WfUpdate(w, d, rec);
      World(w.ds[d := rec], w.log)
    else Notify(w, o, d, l, w.ds[d].cell)
  }

  /** resolve(v): only a Pending deferred is resolved; then the cell completes
      with `v`.  (A completed cell ignores a second completion.) */
  function Resolve(w: World, o: Oracles, d: DId, v: Value): (r: World)
    requires Wf(w) && d < |w.ds|
    ensures Wf(r) && Grows(w, r) && Unsettled(r) <= Unsettled(w)
    ensures Coherent(w) ==> Coherent(r)
    decreases Unsettled(w), 0, 1, 0
  {
    if w.ds[d].state != Pending then w
    else if w.ds[d].cell.Incomplete? then Settle(w, o, d, Resolved, Succeeded(v))
    else
      var rec := w.ds[d].(state := Resolved);
      CountUpdate(w.ds, d, rec);
      WfUpdate(w, d, rec);
      World(w.ds[d := rec], w.log)
  }

  /** reject(e): refused only when already Rejected; otherwise the state becomes
      Rejected and the cell, if still incomplete, completes with `e`. */
  function Reject(w: World, o: Oracles, d: DId, e: Cause): (r: World)
    requires Wf(w) && d < |w.ds|
    ensures Wf(r) && Grows(w, r) && Unsettled(r) <= Unsettled(w)
    ensures Coherent(w) ==> Coherent(r)
    decreases Unsettled(w), 0, 1, 0
  {
    if w.ds[d].state == Rejected then w
    else if w.ds[d].cell.Incomplete? then Settle(w, o, d, Rejected, Failed(e))
    else
      var rec := w.ds[d].(state := Rejected);
      CountUpdate(w.ds, d, rec);
      WfUpdate(w, d, rec);
      World(w.ds[d := rec], w.log)
  }

  // ---------------------------------------------------------------- the operations of DeferredObject

  /** getResult: the future's success value, null while incomplete or after a failure. */
  function GetResult(w: World, d: DId): (r: Value)
    requires d < |w.ds|
    ensures w.ds[d].cell.Succeeded? ==> w.ds[d].cell == Succeeded(r)
    ensures !w.ds[d].cell.Succeeded? ==> r == Null
  {
    if w.ds[d].cell.Succeeded? then w.ds[d].cell.value else Null
  }

  /** getCause: the future's failure cause, absent (null) otherwise. */
  function GetCause(w: World, d: DId): (r: Option<Cause>)
    requires d < |w.ds|
    ensures r.Some? <==> w.ds[d].cell.Failed?
    ensures r.Some? ==> w.ds[d].cell == Failed(r.value)
  {
    if w.ds[d].cell.Failed? then Some(w.ds[d].cell.cause) else None
  }

  /** done(cb); a null callback registers nothing. */
  function Done(w: World, o: Oracles, d: DId, cb: Option<CbId>): (r: World)
    requires Wf(w) && d < |w.ds|
    ensures Wf(r) && Grows(w, r)
    ensures Coherent(w) ==> Coherent(r)
  {
    if cb.None? then w else Register(w, o, d, OnDone(cb.value))
  }

  /** fail(cb); a null callback registers nothing. */
  function Fail(w: World, o: Oracles, d: DId, cb: Option<CbId>): (r: World)
    requires Wf(w) && d < |w.ds|
    ensures Wf(r) && Grows(w, r)
    ensures Coherent(w) ==> Coherent(r)
  {
    if cb.None? then w else Register(w, o, d, OnFail(cb.value))
  }

  /** always(cb); a null callback registers nothing. */
  function Always(w: World, o: Oracles, d: DId, cb: Option<CbId>): (r: World)
    requires Wf(w) && d < |w.ds|
    ensures Wf(r) && Grows(w, r)
    ensures Coherent(w) ==> Coherent(r)
  {
    if cb.None? then w else Register(w, o, d, OnAlways(cb.value))
  }

  /** progress(cb): on a Resolved deferred the callback runs at once with 100, on a
      Pending one it is appended to progressCallbacks, on a Rejected one nothing
      happens; a null callback registers nothing. */
  function Progress(w: World, d: DId, cb: Option<CbId>): (r: World)
    requires d < |w.ds|
    ensures cb.None? ==> r == w
    ensures |r.ds| == |w.ds| && w.log <= r.log && |r.log| <= |w.log| + 1
    ensures forall i :: 0 <= i < |w.ds| && i != d ==> r.ds[i] == w.ds[i]
    ensures r.ds[d] == w.ds[d].(progress := r.ds[d].progress) && w.ds[d].progress <= r.ds[d].progress
  {
    if cb.None? then w
    else if w.ds[d].state == Resolved then Log(w, ProgressCalled(d, cb.value, 100))
    else if w.ds[d].state == Pending then
      World(w.ds[d := w.ds[d].(progress := w.ds[d].progress + [cb.value])], w.log)
    else w
  }

  /** The percentage setProgress hands to the callbacks: always in 0..100, the
      value itself when it is in range, 0 below, 100 above. */
  function Clamp(n: int): (r: int)
    ensures 0 <= r <= 100
    ensures 0 <= n <= 100 ==> r == n
    ensures n < 0 ==> r == 0
    ensures n > 100 ==> r == 100
  {
    if n > 100 then 100 else if n < 0 then 0 else n
  }

  /** setProgress(n): every registered progress callback, in list order, receives
      the clamped value; a callback that throws does not stop the loop, and the
      state is not consulted. */
  function SetProgress(w: World, d: DId, n: int): (r: World)
    requires d < |w.ds|
    ensures r.ds == w.ds && w.log <= r.log
    ensures forall k :: |w.log| <= k < |r.log| ==>
      r.log[k].ProgressCalled? && r.log[k].on == d && 0 <= r.log[k].percent <= 100
  {
    var cbs := w.ds[d].progress;
    var calls := seq(|cbs|, k requires 0 <= k < |cbs| => ProgressCalled(d, cbs[k], Clamp(n)));
    assert forall k :: 0 <= k < |calls| ==> calls[k].on == d && calls[k].percent == Clamp(n);
    World(w.ds, w.log + calls)
  }

  /** A store extended by a new deferred, and the id of that deferred. */
  datatype Derived = Derived(world: World, promise: DId)

  lemma WfAppend(w: World, rec: Deferred)
    requires Wf(w) && rec.listeners == []
    ensures Wf(World(w.ds + [rec], w.log))
  {
    var ds := w.ds + [rec];
    forall i | 0 <= i < |ds| ensures TargetsOk(ds[i].listeners, ds) {
      if i < |w.ds| {
        var ls := w.ds[i].listeners;
        assert ds[i] == w.ds[i];
        forall k | 0 <= k < |ls| ensures TargetOk(ls[k], ds) {
          assert TargetOk(ls[k], w.ds);
        }
      }
    }
  }

  /** A deferred added to the store leaves the logged invocations consistent. */
  lemma ConsistentAppend(w: World, rec: Deferred)
    requires Consistent(w)
    ensures Consistent(World(w.ds + [rec], w.log))
  {
    var ds := w.ds + [rec];
    forall k | 0 <= k < |w.log| ensures Matches(w.log[k], ds) {
      assert Matches(w.log[k], w.ds);
      assert ds[w.log[k].on] == w.ds[w.log[k].on];
    }
  }

  /** then/map: a fresh deferred, and a NettyFutureListener carrying `step`
      added to this deferred's future. */
  function Chained(w: World, o: Oracles, d: DId, step: Step): (r: Derived)
    requires Wf(w) && d < |w.ds|
    ensures r.promise == |w.ds| && |r.world.ds| == |w.ds| + 1 && Wf(r.world)
  {
    var child := |w.ds|;
    var w1 := World(w.ds + [Fresh()], w.log);
    WfAppend(w, Fresh());
    Derived(Register(w1, o, d, Chain(child, step)), child)
  }

  /** then(PipeCallback). */
  function Then(w: World, o: Oracles, d: DId, cb: Option<CbId>): (r: Derived)
    requires Wf(w) && d < |w.ds|
    ensures r.promise == |w.ds| && |r.world.ds| == |w.ds| + 1 && Wf(r.world)
  {
    Chained(w, o, d, if cb.None? then NoCallback else Pipe(cb.value))
  }

  /** then(DoneCallback). */
  function ThenDo(w: World, o: Oracles, d: DId, cb: Option<CbId>): (r: Derived)
    requires Wf(w) && d < |w.ds|
    ensures r.promise == |w.ds| && |r.world.ds| == |w.ds| + 1 && Wf(r.world)
  {
    Chained(w, o, d, if cb.None? then NoCallback else ThenDone(cb.value))
  }

  /** map(MapCallback). */
  function Map(w: World, o: Oracles, d: DId, cb: Option<CbId>): (r: Derived)
    requires Wf(w) && d < |w.ds|
    ensures r.promise == |w.ds| && |r.world.ds| == |w.ds| + 1 && Wf(r.world)
  {
    Chained(w, o, d, if cb.None? then NoCallback else MapTo(cb.value))
  }

  /** The outcome of `all`: IllegalArgumentException for an empty array, or the
      aggregate promise. */
  datatype AllResult = IllegalArgument | Combined(world: World, promise: DId)

  predicate AllIn(inputs: seq<DId>, n: nat) {
    forall k :: 0 <= k < |inputs| ==> inputs[k] < n
  }

  /** all(promises...): a fresh aggregate over |inputs| slots, then, input by
      input, its done callback and its fail callback. */
  function All(w: World, o: Oracles, inputs: seq<DId>): (r: AllResult)
    requires Wf(w) && AllIn(inputs, |w.ds|)
    ensures r.IllegalArgument? <==> inputs == []
    ensures r.Combined? ==> r.promise == |w.ds| && |r.world.ds| == |w.ds| + 1 && Wf(r.world)
  {
    if inputs == [] then IllegalArgument
    else
      var agg := |w.ds|;
      var w1 := World(w.ds + [FreshAggregate(|inputs|)], w.log);
      WfAppend(w, FreshAggregate(|inputs|));
      Combined(WireInputs(w1, o, agg, inputs, 0), agg)
  }

  /** The constructor's loop from input `k` on. */
  function WireInputs(w: World, o: Oracles, agg: DId, inputs: seq<DId>, k: nat): (r: World)
    requires Wf(w) && agg < |w.ds| && w.ds[agg].join.Some? && |w.ds[agg].join.value.results| == |inputs|
    requires AllIn(inputs, |w.ds|) && k <= |inputs|
    ensures Wf(r) && Grows(w, r)
    ensures Coherent(w) ==> Coherent(r)
    decreases |inputs| - k
  {
    if k == |inputs| then w
    else
      var w2 := WireInput(w, o, agg, inputs[k], k);
      assert Evolves(w.ds[agg], w2.ds[agg]);
      var r := WireInputs(w2, o, agg, inputs, k + 1);
      GrowsTrans(w, w2, r);
      r
  }

  /** One round of that loop: input `d`, at index `k`, gets the aggregate's done
      callback for slot k and then its fail callback. */
  function WireInput(w: World, o: Oracles, agg: DId, d: DId, k: nat): (r: World)
    requires Wf(w) && agg < |w.ds| && w.ds[agg].join.Some? && k < |w.ds[agg].join.value.results| && d < |w.ds|
    ensures Wf(r) && Grows(w, r)
    ensures Coherent(w) ==> Coherent(r)
  {
    var w1 := Register(w, o, d, JoinDone(agg, k));
    var w2 := Register(w1, o, d, JoinFail(agg));
    GrowsTrans(w, w1, w2);
    w2
  }
}
