/** What the chaining forms (then with a pipe callback, then with a done callback,
    map) promise: a fresh child whose outcome follows the parent's outcome and
    the callback's behaviour, whether the parent had completed before the
    chaining call or completes afterwards; and the pipelining rule that the
    child settles as the promise returned by the pipe callback settles. */
module ChainingLemmas {
  import opened Promises
  import Aggregate
  import opened Settlement

  // ---------------------------------------------------------------- who can touch a deferred

  /** The deferred a listener settles or updates, if any. */
  predicate Targets(l: Listener, t: DId) {
    match l
    case Chain(child, _) => child == t
    case PipeResolve(x) => x == t
    case PipeReject(x) => x == t
    case JoinDone(agg, _) => agg == t
    case JoinFail(agg) => agg == t
    case _ => false
  }

  /** Whether running `l` on a source that completed as `c` acts on `t`: the
      pipe listeners and the aggregate's listeners each react to one outcome
      only; a chain listener reacts to both. */
  predicate Affects(l: Listener, c: Cell, t: DId) {
    match l
    case Chain(child, _) => child == t
    case PipeResolve(x) => x == t && c.Succeeded?
    case PipeReject(x) => x == t && c.Failed?
    case JoinDone(agg, _) => agg == t && c.Succeeded?
    case JoinFail(agg) => agg == t && c.Failed?
    case _ => false
  }

  /** No listener anywhere in the store refers to `t`. */
  predicate Untouched(w: World, t: DId) {
    forall i, k :: 0 <= i < |w.ds| && 0 <= k < |w.ds[i].listeners| ==> !Targets(w.ds[i].listeners[k], t)
  }

  /** Only listeners of `d` refer to `t`. */
  predicate OnlyFrom(w: World, d: DId, t: DId) {
    forall i, k :: 0 <= i < |w.ds| && i != d && 0 <= k < |w.ds[i].listeners| ==> !Targets(w.ds[i].listeners[k], t)
  }

  predicate Kept(w: World, r: World, t: DId)
    requires t < |w.ds| && t < |r.ds|
  {
    r.ds[t].state == w.ds[t].state && r.ds[t].cell == w.ds[t].cell && Untouched(r, t)
  }

  // ---------------------------------------------------------------- the frame: nobody else settles t

  /** If no listener refers to `t` and `t` is not the deferred being settled,
      the whole cascade leaves the state and the cell of `t` alone, and still
      no listener refers to it.  The lemmas follow the cascade call for call. */
  lemma SettleFrame(w: World, o: Oracles, d: DId, s: State, c: Cell, t: DId)
    requires Wf(w) && d < |w.ds| && w.ds[d].cell.Incomplete? && !c.Incomplete?
    requires s != Pending && StateStep(w.ds[d].state, s) && (s == Resolved ==> c.Succeeded?)
    requires t < |w.ds| && t != d && Untouched(w, t)
    ensures Kept(w, Settle(w, o, d, s, c), t)
    decreases Unsettled(w), 0, 0, 0
  {
    var rec := w.ds[d].(state := s, cell := c, listeners := []);
    var w1 := World(w.ds[d := rec], w.log);
    CountUpdate(w.ds, d, rec);
    WfUpdate(w, d, rec);
    TargetsStable(w.ds[d].listeners, w.ds, w1.ds);
    forall k | 0 <= k < |w.ds[d].listeners| ensures !Affects(w.ds[d].listeners[k], c, t) {
      assert !Targets(w.ds[d].listeners[k], t);
    }
    NotifyAllFrame(w1, o, d, w.ds[d].listeners, c, t);
  }

  lemma NotifyAllFrame(w: World, o: Oracles, src: DId, ls: seq<Listener>, c: Cell, t: DId)
    requires Wf(w) && src < |w.ds| && w.ds[src].cell == c && !c.Incomplete? && TargetsOk(ls, w.ds)
    requires t < |w.ds| && Untouched(w, t) && forall k :: 0 <= k < |ls| ==> !Affects(ls[k], c, t)
    ensures Kept(w, NotifyAll(w, o, src, ls, c), t)
    decreases Unsettled(w), 1, |ls|, 0
  {
    if ls != [] {
      var w1 := Notify(w, o, src, ls[0], c);
      NotifyFrame(w, o, src, ls[0], c, t);
      TargetsStable(ls[1..], w.ds, w1.ds);
      NotifyAllFrame(w1, o, src, ls[1..], c, t);
    }
  }

  lemma NotifyFrame(w: World, o: Oracles, src: DId, l: Listener, c: Cell, t: DId)
    requires Wf(w) && src < |w.ds| && w.ds[src].cell == c && !c.Incomplete? && TargetOk(l, w.ds)
    requires t < |w.ds| && Untouched(w, t) && !Affects(l, c, t)
    ensures Kept(w, Notify(w, o, src, l, c), t)
    decreases Unsettled(w), 1, 0, Rank(l)
  {
    match l
    case Chain(child, step) =>
      if c.Failed? && w.ds[child].state == Pending {
        RejectFrame(w, o, child, c.cause, t);
      } else if c.Failed? {
        RejectFrame(w, o, child, ExecutionFailure(c.cause), t);
      } else {
        RunStepFrame(w, o, src, child, step, c.value, t);
      }
    case PipeResolve(x) => if c.Succeeded? { ResolveFrame(w, o, x, c.value, t); }
    case PipeReject(x) => if c.Failed? { RejectFrame(w, o, x, c.cause, t); }
    case JoinDone(agg, i) => if c.Succeeded? { JoinInputDoneFrame(w, o, agg, i, c.value, t); }
    case JoinFail(agg) => if c.Failed? && w.ds[agg].state != Rejected { RejectFrame(w, o, agg, c.cause, t); }
    case _ =>
  }

  lemma RunStepFrame(w: World, o: Oracles, src: DId, child: DId, step: Step, v: Value, t: DId)
    requires Wf(w) && child < |w.ds| && src < |w.ds| && w.ds[src].cell == Succeeded(v)
    requires t < |w.ds| && Untouched(w, t) && child != t
    ensures Kept(w, RunStep(w, o, src, child, step, v), t)
    decreases Unsettled(w), 1, 0, 2
  {
    if !step.NoCallback? {
      var w1 := Log(w, ChainCalled(src, step.cb, v));
      match step
      case Pipe(cb) =>
        match o.pipe(cb, v) {
          case NoPromise => ResolveFrame(w1, o, child, Null, t);
          case PipeThrows(e) => RejectFrame(w1, o, child, e, t);
          case PromiseOf(p) =>
            if p < |w1.ds| {
              var w2 := Register(w1, o, p, PipeResolve(child));
              RegisterFrame(w1, o, p, PipeResolve(child), t);
              RegisterFrame(w2, o, p, PipeReject(child), t);
            }
        }
      case ThenDone(cb) =>
        match o.call(cb, v) {
          case Throws(e) => RejectFrame(w1, o, child, e, t);
          case Returns(_) => ResolveFrame(w1, o, child, Null, t);
        }
      case MapTo(cb) =>
        match o.call(cb, v) {
          case Throws(e) => RejectFrame(w1, o, child, e, t);
          case Returns(x) => ResolveFrame(w1, o, child, x, t);
        }
    }
  }

  lemma JoinInputDoneFrame(w: World, o: Oracles, agg: DId, i: nat, v: Value, t: DId)
    requires Wf(w) && agg < |w.ds| && w.ds[agg].join.Some? && i < |w.ds[agg].join.value.results|
    requires t < |w.ds| && Untouched(w, t) && agg != t
    ensures Kept(w, JoinInputDone(w, o, agg, i, v), t)
    decreases Unsettled(w), 0, 2, 0
  {
    var step := Aggregate.OnInputDone(w.ds[agg].join.value, w.ds[agg].state == Resolved, i, v);
    var rec := w.ds[agg].(join := Some(step.join));
    var w1 := World(w.ds[agg := rec], w.log);
    CountUpdate(w.ds, agg, rec);
    WfUpdate(w, agg, rec);
    if step.resolve {
      ResolveFrame(w1, o, agg, Joined(step.join.results), t);
    }
  }

  lemma RegisterFrame(w: World, o: Oracles, d: DId, l: Listener, t: DId)
    requires Wf(w) && d < |w.ds| && TargetOk(l, w.ds)
    requires t < |w.ds| && Untouched(w, t) && !Targets(l, t)
    ensures Kept(w, Register(w, o, d, l), t)
    decreases Unsettled(w), 1, 0, Rank(l) + 1
  {
    if !w.ds[d].cell.Incomplete? {
      NotifyFrame(w, o, d, l, w.ds[d].cell, t);
    }
  }

  lemma ResolveFrame(w: World, o: Oracles, d: DId, v: Value, t: DId)
    requires Wf(w) && d < |w.ds| && t < |w.ds| && Untouched(w, t) && d != t
    ensures Kept(w, Resolve(w, o, d, v), t)
    decreases Unsettled(w), 0, 1, 0
  {
    if w.ds[d].state == Pending && w.ds[d].cell.Incomplete? {
      SettleFrame(w, o, d, Resolved, Succeeded(v), t);
    }
  }

  lemma RejectFrame(w: World, o: Oracles, d: DId, e: Cause, t: DId)
    requires Wf(w) && d < |w.ds| && t < |w.ds| && Untouched(w, t) && d != t
    ensures Kept(w, Reject(w, o, d, e), t)
    decreases Unsettled(w), 0, 1, 0
  {
    if w.ds[d].state != Rejected && w.ds[d].cell.Incomplete? {
      SettleFrame(w, o, d, Rejected, Failed(e), t);
    }
  }

  /** resolve of a Pending deferred that no listener refers to: it ends Resolved,
      with the given value if its cell was still incomplete; nothing the
      cascade runs can reject it afterwards. */
  lemma ResolveUntouched(w: World, o: Oracles, d: DId, v: Value)
    requires Wf(w) && d < |w.ds| && w.ds[d].state == Pending && Untouched(w, d)
    ensures Resolve(w, o, d, v).ds[d].state == Resolved
    ensures w.ds[d].cell.Incomplete? ==> Resolve(w, o, d, v).ds[d].cell == Succeeded(v)
    ensures Untouched(Resolve(w, o, d, v), d)
  {
    if w.ds[d].cell.Incomplete? {
      SettleUntouched(w, o, d, Resolved, Succeeded(v));
    } else {
      var r := Resolve(w, o, d, v);
      forall i, k | 0 <= i < |r.ds| && 0 <= k < |r.ds[i].listeners|
        ensures !Targets(r.ds[i].listeners[k], d)
      {
        assert r.ds[i].listeners == w.ds[i].listeners;
      }
    }
  }

  /** reject of a deferred that is not Rejected and that no listener refers to:
      it ends Rejected, with the cause if its cell was still incomplete, and
      still nothing refers to it. */
  lemma RejectUntouched(w: World, o: Oracles, d: DId, e: Cause)
    requires Wf(w) && d < |w.ds| && w.ds[d].state != Rejected && Untouched(w, d)
    ensures Reject(w, o, d, e).ds[d].state == Rejected
    ensures w.ds[d].cell.Incomplete? ==> Reject(w, o, d, e).ds[d].cell == Failed(e)
    ensures Untouched(Reject(w, o, d, e), d)
  {
    if w.ds[d].cell.Incomplete? {
      SettleUntouched(w, o, d, Rejected, Failed(e));
    } else {
      var r := Reject(w, o, d, e);
      forall i, k | 0 <= i < |r.ds| && 0 <= k < |r.ds[i].listeners|
        ensures !Targets(r.ds[i].listeners[k], d)
      {
        assert r.ds[i].listeners == w.ds[i].listeners;
      }
    }
  }

  /** Settling a deferred that no listener refers to: nothing the cascade runs
      touches it again. */
  lemma SettleUntouched(w: World, o: Oracles, d: DId, s: State, c: Cell)
    requires Wf(w) && d < |w.ds| && w.ds[d].cell.Incomplete? && !c.Incomplete?
    requires s != Pending && StateStep(w.ds[d].state, s) && (s == Resolved ==> c.Succeeded?)
    requires Untouched(w, d)
    ensures Kept(World(w.ds[d := w.ds[d].(state := s, cell := c, listeners := [])], w.log), Settle(w, o, d, s, c), d)
    ensures Settle(w, o, d, s, c).ds[d].state == s
  {
    var ls := w.ds[d].listeners;
    var rec := w.ds[d].(state := s, cell := c, listeners := []);
    var w1 := World(w.ds[d := rec], w.log);
    WfUpdate(w, d, rec);
    TargetsStable(ls, w.ds, w1.ds);
    forall i, k | 0 <= i < |w1.ds| && 0 <= k < |w1.ds[i].listeners|
      ensures !Targets(w1.ds[i].listeners[k], d)
    {
      assert w1.ds[i] == w.ds[i];
    }
    forall k | 0 <= k < |ls| ensures !Affects(ls[k], c, d) {
      assert !Targets(w.ds[d].listeners[k], d);
    }
    NotifyAllFrame(w1, o, d, ls, c, d);
    assert Settle(w, o, d, s, c) == NotifyAll(w1, o, d, ls, c);
  }

  // ---------------------------------------------------------------- what a listener does to its target

  /** Reference definition: the outcome a pending target gets from listener `l`
      when its source completes as `c` (None when the listener does not settle
      it on its own: no callback, a pipe callback returning a promise, or an
      aggregate input's success).  A parent failure rejects the child with the
      same cause and runs no callback; map resolves with the callback's value;
      then-done and a pipe returning null resolve with null; a throw rejects. */
  function Fires(o: Oracles, l: Listener, c: Cell): Option<Cell> {
    match l
    case Chain(_, step) =>
      if c.Failed? then Some(Failed(c.cause))
      else if c.Incomplete? then None
      else
        (match step
         case NoCallback => None
         case MapTo(cb) =>
           (match o.call(cb, c.value)
            case Returns(x) => Some(Succeeded(x))
            case Throws(e) => Some(Failed(e)))
         case ThenDone(cb) =>
           (match o.call(cb, c.value)
            case Returns(_) => Some(Succeeded(Null))
            case Throws(e) => Some(Failed(e)))
         case Pipe(cb) =>
           (match o.pipe(cb, c.value)
            case NoPromise => Some(Succeeded(Null))
            case PipeThrows(e) => Some(Failed(e))
            case PromiseOf(_) => None))
    case PipeResolve(_) => if c.Succeeded? then Some(c) else None
    case PipeReject(_) => if c.Failed? then Some(c) else None
    case JoinFail(_) => if c.Failed? then Some(c) else None
    case _ => None
  }

  /** A completed cell stays as it is through any step that grows the store. */
  lemma CellKept(w: World, r: World, t: DId)
    requires Grows(w, r) && t < |w.ds| && !w.ds[t].cell.Incomplete?
    ensures r.ds[t].cell == w.ds[t].cell
  {
    assert Evolves(w.ds[t], r.ds[t]);
  }

  /** One listener acting on its pending target gives it the outcome Fires names. */
  lemma NotifyFires(w: World, o: Oracles, src: DId, l: Listener, c: Cell, t: DId)
    requires Wf(w) && Coherent(w) && src < |w.ds| && w.ds[src].cell == c && !c.Incomplete? && TargetOk(l, w.ds)
    requires t < |w.ds| && w.ds[t].cell.Incomplete? && Affects(l, c, t) && Fires(o, l, c).Some?
    ensures Notify(w, o, src, l, c).ds[t].cell == Fires(o, l, c).value
  {
    assert w.ds[t].state == Pending;
    match l
    case Chain(child, step) =>
      if c.Succeeded? {
        var v := c.value;
        var w1 := Log(w, ChainCalled(src, step.cb, v));
        assert Coherent(w1);
        assert Notify(w, o, src, l, c) == RunStep(w, o, src, child, step, v);
        match step
        case Pipe(cb) =>
          match o.pipe(cb, v) {
            case NoPromise => assert RunStep(w, o, src, child, step, v) == Resolve(w1, o, child, Null);
            case PipeThrows(e) => assert RunStep(w, o, src, child, step, v) == Reject(w1, o, child, e);
            case PromiseOf(_) =>
          }
        case ThenDone(cb) =>
          match o.call(cb, v) {
            case Throws(e) => assert RunStep(w, o, src, child, step, v) == Reject(w1, o, child, e);
            case Returns(_) => assert RunStep(w, o, src, child, step, v) == Resolve(w1, o, child, Null);
          }
        case MapTo(cb) =>
          match o.call(cb, v) {
            case Throws(e) => assert RunStep(w, o, src, child, step, v) == Reject(w1, o, child, e);
            case Returns(x) => assert RunStep(w, o, src, child, step, v) == Resolve(w1, o, child, x);
          }
        case NoCallback =>
      }
    case _ =>
  }

  /** Running a listener list: the first listener in it that acts on a pending
      target `t`, nobody else referring to `t`, settles it as Fires names, and
      nothing later changes that. */
  lemma {:induction false} NotifyAllFires(w: World, o: Oracles, src: DId, ls: seq<Listener>, c: Cell, k: nat, t: DId)
    requires Wf(w) && Coherent(w) && src < |w.ds| && w.ds[src].cell == c && !c.Incomplete? && TargetsOk(ls, w.ds)
    requires t < |w.ds| && w.ds[t].cell.Incomplete? && Untouched(w, t)
    requires k < |ls| && Affects(ls[k], c, t) && Fires(o, ls[k], c).Some?
    requires forall j :: 0 <= j < k ==> !Affects(ls[j], c, t)
    ensures NotifyAll(w, o, src, ls, c).ds[t].cell == Fires(o, ls[k], c).value
    decreases k
  {
    var w1 := Notify(w, o, src, ls[0], c);
    TargetsStable(ls[1..], w.ds, w1.ds);
    var r := NotifyAll(w1, o, src, ls[1..], c);
    assert NotifyAll(w, o, src, ls, c) == r;
    if k == 0 {
      NotifyFires(w, o, src, ls[0], c, t);
      CellKept(w1, r, t);
    } else {
      NotifyFrame(w, o, src, ls[0], c, t);
      NotifyAllFires(w1, o, src, ls[1..], c, k - 1, t);
    }
  }

  /** Settling `d` whose listener `k` is the first to act on a pending `t` that
      only `d`'s listeners refer to: `t` gets the outcome Fires names. */
  lemma SettleFires(w: World, o: Oracles, d: DId, s: State, c: Cell, k: nat, t: DId)
    requires Wf(w) && Coherent(w) && d < |w.ds| && w.ds[d].state == Pending && !c.Incomplete?
    requires s != Pending && (s == Resolved <==> c.Succeeded?)
    requires t < |w.ds| && t != d && w.ds[t].cell.Incomplete? && OnlyFrom(w, d, t)
    requires k < |w.ds[d].listeners| && Affects(w.ds[d].listeners[k], c, t) && Fires(o, w.ds[d].listeners[k], c).Some?
    requires forall j :: 0 <= j < k ==> !Affects(w.ds[d].listeners[j], c, t)
    ensures Settle(w, o, d, s, c).ds[t].cell == Fires(o, w.ds[d].listeners[k], c).value
  {
    var ls := w.ds[d].listeners;
    var rec := w.ds[d].(state := s, cell := c, listeners := []);
    var w1 := World(w.ds[d := rec], w.log);
    WfUpdate(w, d, rec);
    TargetsStable(ls, w.ds, w1.ds);
    assert Coherent(w1);
    assert Untouched(w1, t);
    NotifyAllFires(w1, o, d, ls, c, k, t);
  }

  /** resolve of a Pending parent runs the listener that acts first on `t`. */
  lemma ResolveFires(w: World, o: Oracles, d: DId, v: Value, k: nat, t: DId)
    requires Wf(w) && Coherent(w) && d < |w.ds| && w.ds[d].state == Pending
    requires t < |w.ds| && t != d && w.ds[t].cell.Incomplete? && OnlyFrom(w, d, t)
    requires k < |w.ds[d].listeners| && Affects(w.ds[d].listeners[k], Succeeded(v), t)
    requires Fires(o, w.ds[d].listeners[k], Succeeded(v)).Some?
    requires forall j :: 0 <= j < k ==> !Affects(w.ds[d].listeners[j], Succeeded(v), t)
    ensures Resolve(w, o, d, v).ds[t].cell == Fires(o, w.ds[d].listeners[k], Succeeded(v)).value
  {
    SettleFires(w, o, d, Resolved, Succeeded(v), k, t);
  }

  /** reject of a Pending parent runs the listener that acts first on `t`. */
  lemma RejectFires(w: World, o: Oracles, d: DId, e: Cause, k: nat, t: DId)
    requires Wf(w) && Coherent(w) && d < |w.ds| && w.ds[d].state == Pending
    requires t < |w.ds| && t != d && w.ds[t].cell.Incomplete? && OnlyFrom(w, d, t)
    requires k < |w.ds[d].listeners| && Affects(w.ds[d].listeners[k], Failed(e), t)
    requires Fires(o, w.ds[d].listeners[k], Failed(e)).Some?
    requires forall j :: 0 <= j < k ==> !Affects(w.ds[d].listeners[j], Failed(e), t)
    ensures Reject(w, o, d, e).ds[t].cell == Fires(o, w.ds[d].listeners[k], Failed(e)).value
  {
    SettleFires(w, o, d, Rejected, Failed(e), k, t);
  }

  /** The state a pending target ends in when a listener completes it with `c`. */
  function SettledState(c: Cell): State {
    if c.Succeeded? then Resolved else Rejected
  }

  /** One listener acting on its pending target, which no listener refers to,
      settles it for good as Fires says: Resolved on a success, Rejected on a
      failure; and still nothing refers to it. */
  lemma NotifySettles(w: World, o: Oracles, src: DId, l: Listener, c: Cell, t: DId)
    requires Wf(w) && src < |w.ds| && w.ds[src].cell == c && !c.Incomplete? && TargetOk(l, w.ds)
    requires t < |w.ds| && w.ds[t].state == Pending && w.ds[t].cell.Incomplete? && Untouched(w, t)
    requires Affects(l, c, t) && Fires(o, l, c).Some?
    ensures var r := Notify(w, o, src, l, c);
      r.ds[t].state == SettledState(Fires(o, l, c).value) && r.ds[t].cell == Fires(o, l, c).value &&
      Untouched(r, t)
  {
    match l
    case Chain(child, step) =>
      if c.Failed? {
        RejectUntouched(w, o, child, c.cause);
      } else {
        var v := c.value;
        var w1 := Log(w, ChainCalled(src, step.cb, v));
        assert Untouched(w1, t);
        assert Notify(w, o, src, l, c) == RunStep(w, o, src, child, step, v);
        match step
        case Pipe(cb) =>
          match o.pipe(cb, v) {
            case NoPromise =>
              assert RunStep(w, o, src, child, step, v) == Resolve(w1, o, child, Null);
              ResolveUntouched(w1, o, child, Null);
            case PipeThrows(e) =>
              assert RunStep(w, o, src, child, step, v) == Reject(w1, o, child, e);
              RejectUntouched(w1, o, child, e);
            case PromiseOf(_) =>
          }
        case ThenDone(cb) =>
          match o.call(cb, v) {
            case Throws(e) =>
              assert RunStep(w, o, src, child, step, v) == Reject(w1, o, child, e);
              RejectUntouched(w1, o, child, e);
            case Returns(_) =>
              assert RunStep(w, o, src, child, step, v) == Resolve(w1, o, child, Null);
              ResolveUntouched(w1, o, child, Null);
          }
        case MapTo(cb) =>
          match o.call(cb, v) {
            case Throws(e) =>
              assert RunStep(w, o, src, child, step, v) == Reject(w1, o, child, e);
              RejectUntouched(w1, o, child, e);
            case Returns(x) =>
              assert RunStep(w, o, src, child, step, v) == Resolve(w1, o, child, x);
              ResolveUntouched(w1, o, child, x);
          }
        case NoCallback =>
      }
    case PipeResolve(x) => ResolveUntouched(w, o, x, c.value);
    case PipeReject(x) => RejectUntouched(w, o, x, c.cause);
    case JoinFail(agg) => RejectUntouched(w, o, agg, c.cause);
    case _ =>
  }

  /** Running a listener list in which exactly one listener acts on a pending
      target that no listener refers to: the target ends in the state and the
      cell Fires names for that listener. */
  lemma {:induction false} NotifyAllSettles(w: World, o: Oracles, src: DId, ls: seq<Listener>, c: Cell, k: nat, t: DId)
    requires Wf(w) && src < |w.ds| && w.ds[src].cell == c && !c.Incomplete? && TargetsOk(ls, w.ds)
    requires t < |w.ds| && w.ds[t].state == Pending && w.ds[t].cell.Incomplete? && Untouched(w, t)
    requires k < |ls| && Affects(ls[k], c, t) && Fires(o, ls[k], c).Some?
    requires forall j :: 0 <= j < |ls| && j != k ==> !Affects(ls[j], c, t)
    ensures var r := NotifyAll(w, o, src, ls, c);
      r.ds[t].state == SettledState(Fires(o, ls[k], c).value) && r.ds[t].cell == Fires(o, ls[k], c).value
    decreases k
  {
    var w1 := Notify(w, o, src, ls[0], c);
    TargetsStable(ls[1..], w.ds, w1.ds);
    assert Evolves(w.ds[src], w1.ds[src]);
    var r := NotifyAll(w1, o, src, ls[1..], c);
    assert NotifyAll(w, o, src, ls, c) == r;
    if k == 0 {
      NotifySettles(w, o, src, ls[0], c, t);
      forall j | 0 <= j < |ls[1..]| ensures !Affects(ls[1..][j], c, t) {
        assert ls[1..][j] == ls[j + 1];
      }
      NotifyAllFrame(w1, o, src, ls[1..], c, t);
    } else {
      NotifyFrame(w, o, src, ls[0], c, t);
      forall j | 0 <= j < |ls[1..]| && j != k - 1 ensures !Affects(ls[1..][j], c, t) {
        assert ls[1..][j] == ls[j + 1];
      }
      NotifyAllSettles(w1, o, src, ls[1..], c, k - 1, t);
    }
  }

  /** Settling `d` when exactly one of its listeners acts on a pending `t` that
      only `d`'s listeners refer to: `t` ends as Fires names for it. */
  lemma SettleSettles(w: World, o: Oracles, d: DId, s: State, c: Cell, k: nat, t: DId)
    requires Wf(w) && d < |w.ds| && w.ds[d].state == Pending && w.ds[d].cell.Incomplete? && !c.Incomplete?
    requires s != Pending && (s == Resolved <==> c.Succeeded?)
    requires t < |w.ds| && t != d && w.ds[t].state == Pending && w.ds[t].cell.Incomplete? && OnlyFrom(w, d, t)
    requires k < |w.ds[d].listeners| && Affects(w.ds[d].listeners[k], c, t) && Fires(o, w.ds[d].listeners[k], c).Some?
    requires forall j :: 0 <= j < |w.ds[d].listeners| && j != k ==> !Affects(w.ds[d].listeners[j], c, t)
    ensures var r := Settle(w, o, d, s, c);
      r.ds[t].state == SettledState(Fires(o, w.ds[d].listeners[k], c).value) &&
      r.ds[t].cell == Fires(o, w.ds[d].listeners[k], c).value
  {
    var ls := w.ds[d].listeners;
    var rec := w.ds[d].(state := s, cell := c, listeners := []);
    var w1 := World(w.ds[d := rec], w.log);
    WfUpdate(w, d, rec);
    TargetsStable(ls, w.ds, w1.ds);
    assert Untouched(w1, t);
    NotifyAllSettles(w1, o, d, ls, c, k, t);
  }

  /** resolve of a Pending parent whose listener `k` alone acts on `t`, which
      only the parent's listeners refer to: `t` ends as Fires names. */
  lemma ResolveSettles(w: World, o: Oracles, d: DId, v: Value, k: nat, t: DId)
    requires Wf(w) && d < |w.ds| && w.ds[d].state == Pending && w.ds[d].cell.Incomplete?
    requires t < |w.ds| && t != d && w.ds[t].state == Pending && w.ds[t].cell.Incomplete? && OnlyFrom(w, d, t)
    requires k < |w.ds[d].listeners| && Affects(w.ds[d].listeners[k], Succeeded(v), t)
    requires Fires(o, w.ds[d].listeners[k], Succeeded(v)).Some?
    requires forall j :: 0 <= j < |w.ds[d].listeners| && j != k ==> !Affects(w.ds[d].listeners[j], Succeeded(v), t)
    ensures var r := Resolve(w, o, d, v);
      r.ds[t].state == SettledState(Fires(o, w.ds[d].listeners[k], Succeeded(v)).value) &&
      r.ds[t].cell == Fires(o, w.ds[d].listeners[k], Succeeded(v)).value
  {
    SettleSettles(w, o, d, Resolved, Succeeded(v), k, t);
  }

  /** reject of a Pending parent whose listener `k` alone acts on `t`, which
      only the parent's listeners refer to: `t` ends as Fires names. */
  lemma RejectSettles(w: World, o: Oracles, d: DId, e: Cause, k: nat, t: DId)
    requires Wf(w) && d < |w.ds| && w.ds[d].state == Pending && w.ds[d].cell.Incomplete?
    requires t < |w.ds| && t != d && w.ds[t].state == Pending && w.ds[t].cell.Incomplete? && OnlyFrom(w, d, t)
    requires k < |w.ds[d].listeners| && Affects(w.ds[d].listeners[k], Failed(e), t)
    requires Fires(o, w.ds[d].listeners[k], Failed(e)).Some?
    requires forall j :: 0 <= j < |w.ds[d].listeners| && j != k ==> !Affects(w.ds[d].listeners[j], Failed(e), t)
    ensures var r := Reject(w, o, d, e);
      r.ds[t].state == SettledState(Fires(o, w.ds[d].listeners[k], Failed(e)).value) &&
      r.ds[t].cell == Fires(o, w.ds[d].listeners[k], Failed(e)).value
  {
    SettleSettles(w, o, d, Rejected, Failed(e), k, t);
  }

  // ---------------------------------------------------------------- then and map

  /** A fresh deferred appended to a well-formed store is referred to by no
      listener, and a coherent store stays coherent. */
  lemma AppendFresh(w: World, rec: Deferred)
    requires Wf(w) && rec.listeners == [] && rec.state == Pending && rec.cell.Incomplete?
    ensures var w1 := World(w.ds + [rec], w.log);
      Wf(w1) && Untouched(w1, |w.ds|) && (Coherent(w) ==> Coherent(w1))
  {
    WfAppend(w, rec);
    var w1 := World(w.ds + [rec], w.log);
    forall i, k | 0 <= i < |w1.ds| && 0 <= k < |w1.ds[i].listeners|
      ensures !Targets(w1.ds[i].listeners[k], |w.ds|)
    {
      assert w1.ds[i] == w.ds[i];
      assert TargetsOk(w.ds[i].listeners, w.ds);
      assert TargetOk(w.ds[i].listeners[k], w.ds);
    }
  }

  /** then/map on a parent that has already completed: the child is new, and
      it at once gets the outcome the parent's result and the callback call
      for (a failed parent rejects it with the same cause). */
  lemma ChainedOnCompleted(w: World, o: Oracles, d: DId, step: Step)
    requires Wf(w) && Coherent(w) && d < |w.ds| && !w.ds[d].cell.Incomplete?
    requires Fires(o, Chain(|w.ds|, step), w.ds[d].cell).Some?
    ensures var r := Chained(w, o, d, step);
      r.promise != d && r.world.ds[r.promise].cell == Fires(o, Chain(|w.ds|, step), w.ds[d].cell).value &&
      r.world.ds[r.promise].state == SettledState(Fires(o, Chain(|w.ds|, step), w.ds[d].cell).value)
  {
    var child := |w.ds|;
    var w1 := World(w.ds + [Fresh()], w.log);
    AppendFresh(w, Fresh());
    assert Chained(w, o, d, step).world == Register(w1, o, d, Chain(child, step));
    assert Register(w1, o, d, Chain(child, step)) == Notify(w1, o, d, Chain(child, step), w1.ds[d].cell);
    NotifySettles(w1, o, d, Chain(child, step), w1.ds[d].cell, child);
  }

  /** then/map on a Pending parent: the child is new and pending, the listener
      is the last one of the parent, and only it refers to the child. */
  lemma ChainedOnPending(w: World, o: Oracles, d: DId, step: Step)
    requires Wf(w) && Coherent(w) && d < |w.ds| && w.ds[d].state == Pending
    ensures var r := Chained(w, o, d, step);
      r.promise == |w.ds| && r.promise != d && r.world.log == w.log &&
      r.world.ds[r.promise].cell.Incomplete? && Coherent(r.world) &&
      r.world.ds[d].listeners == w.ds[d].listeners + [Chain(r.promise, step)] &&
      r.world.ds[d].state == Pending && OnlyFrom(r.world, d, r.promise)
  {
    var child := |w.ds|;
    var w1 := World(w.ds + [Fresh()], w.log);
    AppendFresh(w, Fresh());
    var r := Chained(w, o, d, step);
    assert r.world == Register(w1, o, d, Chain(child, step));
    assert r.world.ds == w1.ds[d := w1.ds[d].(listeners := w1.ds[d].listeners + [Chain(child, step)])];
    forall i, k | 0 <= i < |r.world.ds| && i != d && 0 <= k < |r.world.ds[i].listeners|
      ensures !Targets(r.world.ds[i].listeners[k], child)
    {
      assert r.world.ds[i] == w1.ds[i];
    }
  }

  /** then/map on a Pending parent that later completes as `c`: the child gets
      the outcome Fires names, exactly as if the parent had completed first. */
  lemma ChainedThenSettled(w: World, o: Oracles, d: DId, step: Step, c: Cell)
    requires Wf(w) && Coherent(w) && d < |w.ds| && w.ds[d].state == Pending && !c.Incomplete?
    requires Fires(o, Chain(|w.ds|, step), c).Some?
    ensures var r := Chained(w, o, d, step);
      var after := if c.Succeeded? then Resolve(r.world, o, d, c.value) else Reject(r.world, o, d, c.cause);
      after.ds[r.promise].cell == Fires(o, Chain(|w.ds|, step), c).value &&
      after.ds[r.promise].state == SettledState(Fires(o, Chain(|w.ds|, step), c).value)
  {
    ChainedOnPending(w, o, d, step);
    var r := Chained(w, o, d, step);
    var k := |w.ds[d].listeners|;
    var ls := r.world.ds[d].listeners;
    assert ls[k] == Chain(r.promise, step);
    forall j | 0 <= j < k ensures !Affects(ls[j], c, r.promise) {
      assert ls[j] == w.ds[d].listeners[j];
      assert !Targets(ls[j], r.promise) by {
        assert TargetsOk(w.ds[d].listeners, w.ds);
        assert TargetOk(w.ds[d].listeners[j], w.ds);
      }
    }
    assert r.world.ds[r.promise].state == Pending && r.world.ds[d].cell.Incomplete?;
    if c.Succeeded? {
      ResolveSettles(r.world, o, d, c.value, k, r.promise);
    } else {
      RejectSettles(r.world, o, d, c.cause, k, r.promise);
    }
  }

  /** executeCallback logs the chained callback's call on the parent's result
      before anything else; the rest of the cascade only appends to the log. */
  lemma RunStepLogsCall(w: World, o: Oracles, src: DId, child: DId, step: Step, v: Value)
    requires Wf(w) && child < |w.ds| && src < |w.ds| && w.ds[src].cell == Succeeded(v)
    requires !step.NoCallback?
    ensures ChainCalled(src, step.cb, v) in RunStep(w, o, src, child, step, v).log
  {
    var w1 := Log(w, ChainCalled(src, step.cb, v));
    var r := RunStep(w, o, src, child, step, v);
    assert Grows(w1, r) by {
      match step
      case Pipe(cb) =>
        match o.pipe(cb, v) {
          case NoPromise =>
          case PipeThrows(e) =>
          case PromiseOf(p) =>
            if p < |w1.ds| {
              var w2 := Register(w1, o, p, PipeResolve(child));
              GrowsTrans(w1, w2, Register(w2, o, p, PipeReject(child)));
            }
        }
      case ThenDone(cb) =>
      case MapTo(cb) =>
    }
    assert r.log[|w.log|] == w1.log[|w.log|];
  }

  /** Running a listener list on a success: every chain listener with a callback
      in it gets the callback's call logged. */
  lemma {:induction false} NotifyAllLogsChain(w: World, o: Oracles, src: DId, ls: seq<Listener>, c: Cell, k: nat)
    requires Wf(w) && src < |w.ds| && w.ds[src].cell == c && c.Succeeded? && TargetsOk(ls, w.ds)
    requires k < |ls| && ls[k].Chain? && !ls[k].step.NoCallback?
    ensures ChainCalled(src, ls[k].step.cb, c.value) in NotifyAll(w, o, src, ls, c).log
    decreases k
  {
    var w1 := Notify(w, o, src, ls[0], c);
    TargetsStable(ls[1..], w.ds, w1.ds);
    var r := NotifyAll(w1, o, src, ls[1..], c);
    assert NotifyAll(w, o, src, ls, c) == r;
    if k == 0 {
      assert w1 == RunStep(w, o, src, ls[0].child, ls[0].step, c.value);
      RunStepLogsCall(w, o, src, ls[0].child, ls[0].step, c.value);
      var j :| 0 <= j < |w1.log| && w1.log[j] == ChainCalled(src, ls[k].step.cb, c.value);
      assert r.log[j] == w1.log[j];
    } else {
      NotifyAllLogsChain(w1, o, src, ls[1..], c, k - 1);
    }
  }

  /** then/map with a callback on a parent that succeeds with `v`, before or
      after the call: the callback runs on `v`. */
  lemma ChainedRunsCallback(w: World, o: Oracles, d: DId, step: Step, v: Value)
    requires Wf(w) && Coherent(w) && d < |w.ds| && !step.NoCallback?
    requires w.ds[d].state == Pending || w.ds[d].cell == Succeeded(v)
    ensures var r := Chained(w, o, d, step);
      var after := if w.ds[d].cell.Incomplete? then Resolve(r.world, o, d, v) else r.world;
      ChainCalled(d, step.cb, v) in after.log
  {
    var child := |w.ds|;
    var w1 := World(w.ds + [Fresh()], w.log);
    AppendFresh(w, Fresh());
    var r := Chained(w, o, d, step);
    assert r.world == Register(w1, o, d, Chain(child, step));
    if w.ds[d].cell.Incomplete? {
      ChainedOnPending(w, o, d, step);
      var ls := r.world.ds[d].listeners;
      var k := |w.ds[d].listeners|;
      assert ls[k] == Chain(child, step);
      var rec := r.world.ds[d].(state := Resolved, cell := Succeeded(v), listeners := []);
      var w2 := World(r.world.ds[d := rec], r.world.log);
      WfUpdate(r.world, d, rec);
      TargetsStable(ls, r.world.ds, w2.ds);
      assert Resolve(r.world, o, d, v) == NotifyAll(w2, o, d, ls, Succeeded(v));
      NotifyAllLogsChain(w2, o, d, ls, Succeeded(v), k);
    } else {
      assert r.world == Notify(w1, o, d, Chain(child, step), Succeeded(v));
      assert r.world == RunStep(w1, o, d, child, step, v);
      RunStepLogsCall(w1, o, d, child, step, v);
    }
  }

  /** map: a failed parent rejects the child with the same cause; otherwise the
      child resolves with the callback's return value, or rejects with what it
      throws.  This holds whether the parent completed before or after map. */
  lemma MapOutcome(w: World, o: Oracles, d: DId, cb: CbId, c: Cell)
    requires Wf(w) && Coherent(w) && d < |w.ds| && !c.Incomplete?
    requires w.ds[d].state == Pending || w.ds[d].cell == c
    ensures var r := Map(w, o, d, Some(cb));
      var after := if !w.ds[d].cell.Incomplete? then r.world
                   else if c.Succeeded? then Resolve(r.world, o, d, c.value) else Reject(r.world, o, d, c.cause);
      r.promise != d &&
      (c.Failed? ==> after.ds[r.promise].state == Rejected && after.ds[r.promise].cell == Failed(c.cause)) &&
      (c.Succeeded? && o.call(cb, c.value).Returns? ==> after.ds[r.promise].state == Resolved && after.ds[r.promise].cell == Succeeded(o.call(cb, c.value).value)) &&
      (c.Succeeded? && o.call(cb, c.value).Throws? ==> after.ds[r.promise].state == Rejected && after.ds[r.promise].cell == Failed(o.call(cb, c.value).cause)) &&
      (c.Succeeded? ==> ChainCalled(d, cb, c.value) in after.log)
  {
    if w.ds[d].cell.Incomplete? {
      ChainedThenSettled(w, o, d, MapTo(cb), c);
    } else {
      ChainedOnCompleted(w, o, d, MapTo(cb));
    }
    if c.Succeeded? {
      ChainedRunsCallback(w, o, d, MapTo(cb), c.value);
    }
  }

  /** then(done-callback): the child resolves with null once the callback has run
      on the parent's result, and rejects if it throws or the parent failed. */
  lemma ThenDoOutcome(w: World, o: Oracles, d: DId, cb: CbId, c: Cell)
    requires Wf(w) && Coherent(w) && d < |w.ds| && !c.Incomplete?
    requires w.ds[d].state == Pending || w.ds[d].cell == c
    ensures var r := ThenDo(w, o, d, Some(cb));
      var after := if !w.ds[d].cell.Incomplete? then r.world
                   else if c.Succeeded? then Resolve(r.world, o, d, c.value) else Reject(r.world, o, d, c.cause);
      r.promise != d &&
      (c.Failed? ==> after.ds[r.promise].state == Rejected && after.ds[r.promise].cell == Failed(c.cause)) &&
      (c.Succeeded? && o.call(cb, c.value).Returns? ==> after.ds[r.promise].state == Resolved && after.ds[r.promise].cell == Succeeded(Null)) &&
      (c.Succeeded? && o.call(cb, c.value).Throws? ==> after.ds[r.promise].state == Rejected && after.ds[r.promise].cell == Failed(o.call(cb, c.value).cause)) &&
      (c.Succeeded? ==> ChainCalled(d, cb, c.value) in after.log)
  {
    if w.ds[d].cell.Incomplete? {
      ChainedThenSettled(w, o, d, ThenDone(cb), c);
    } else {
      ChainedOnCompleted(w, o, d, ThenDone(cb));
    }
    if c.Succeeded? {
      ChainedRunsCallback(w, o, d, ThenDone(cb), c.value);
    }
  }

  /** then(pipe-callback) when the callback returns null or throws: the child
      resolves with null, or rejects with what was thrown; a failed parent
      rejects it with the same cause. */
  lemma ThenPipeOutcome(w: World, o: Oracles, d: DId, cb: CbId, c: Cell)
    requires Wf(w) && Coherent(w) && d < |w.ds| && !c.Incomplete?
    requires w.ds[d].state == Pending || w.ds[d].cell == c
    ensures var r := Then(w, o, d, Some(cb));
      var after := if !w.ds[d].cell.Incomplete? then r.world
                   else if c.Succeeded? then Resolve(r.world, o, d, c.value) else Reject(r.world, o, d, c.cause);
      r.promise != d &&
      (c.Failed? ==> after.ds[r.promise].state == Rejected && after.ds[r.promise].cell == Failed(c.cause)) &&
      (c.Succeeded? && o.pipe(cb, c.value).NoPromise? ==> after.ds[r.promise].state == Resolved && after.ds[r.promise].cell == Succeeded(Null)) &&
      (c.Succeeded? && o.pipe(cb, c.value).PipeThrows? ==> after.ds[r.promise].state == Rejected && after.ds[r.promise].cell == Failed(o.pipe(cb, c.value).cause))
  {
    if c.Succeeded? && o.pipe(cb, c.value).PromiseOf? {
      assert Then(w, o, d, Some(cb)).promise == |w.ds|;
    } else if w.ds[d].cell.Incomplete? {
      ChainedThenSettled(w, o, d, Pipe(cb), c);
    } else {
      ChainedOnCompleted(w, o, d, Pipe(cb));
    }
  }

  /** A pipe callback returning a pending promise `p` of the store: the chained
      callback is logged, and done(child::resolve) then fail(child::reject) are
      appended to `p`'s listeners. */
  lemma RunStepWiresPipe(w: World, o: Oracles, src: DId, child: DId, cb: CbId, v: Value, p: DId)
    requires Wf(w) && child < |w.ds| && src < |w.ds| && w.ds[src].cell == Succeeded(v)
    requires o.pipe(cb, v) == PromiseOf(p) && p < |w.ds| && w.ds[p].cell.Incomplete?
    ensures RunStep(w, o, src, child, Pipe(cb), v).ds
         == w.ds[p := w.ds[p].(listeners := w.ds[p].listeners + [PipeResolve(child), PipeReject(child)])]
    ensures RunStep(w, o, src, child, Pipe(cb), v).log == w.log + [ChainCalled(src, cb, v)]
  {
    var w1 := Log(w, ChainCalled(src, cb, v));
    var w2 := Register(w1, o, p, PipeResolve(child));
    assert w2.ds == w1.ds[p := w1.ds[p].(listeners := w1.ds[p].listeners + [PipeResolve(child)])];
    var w3 := Register(w2, o, p, PipeReject(child));
    assert w3.ds == w2.ds[p := w2.ds[p].(listeners := w2.ds[p].listeners + [PipeReject(child)])];
    assert RunStep(w, o, src, child, Pipe(cb), v) == w3;
    assert w2.ds[p].listeners + [PipeReject(child)] == w.ds[p].listeners + [PipeResolve(child), PipeReject(child)];
  }

  /** then(pipe-callback) on a resolved parent whose callback returns a pending
      promise `p` of the store: the only change besides the new child is that
      done(child::resolve) and then fail(child::reject) are added to `p`. */
  lemma PipeWiresReturnedPromise(w: World, o: Oracles, d: DId, cb: CbId, p: DId)
    requires Wf(w) && Coherent(w) && d < |w.ds| && w.ds[d].cell.Succeeded?
    requires o.pipe(cb, w.ds[d].cell.value) == PromiseOf(p) && p < |w.ds| && w.ds[p].state == Pending
    ensures var r := Then(w, o, d, Some(cb));
      r.promise == |w.ds| &&
      r.world.ds == (w.ds + [Fresh()])[p := w.ds[p].(listeners := w.ds[p].listeners + [PipeResolve(r.promise), PipeReject(r.promise)])]
  {
    var w1 := World(w.ds + [Fresh()], w.log);
    ChainedOnSucceeded(w, o, d, Pipe(cb));
    assert w1.ds[p] == w.ds[p];
    RunStepWiresPipe(w1, o, d, |w.ds|, cb, w.ds[d].cell.value, p);
  }

  /** then/map on a parent that has already succeeded: the new child is
      appended, and the chained callback step runs at once on the result. */
  lemma ChainedOnSucceeded(w: World, o: Oracles, d: DId, step: Step)
    requires Wf(w) && d < |w.ds| && w.ds[d].cell.Succeeded?
    ensures var w1 := World(w.ds + [Fresh()], w.log);
      Wf(w1) && Chained(w, o, d, step).world == RunStep(w1, o, d, |w.ds|, step, w.ds[d].cell.value)
  {
    var child := |w.ds|;
    var w1 := World(w.ds + [Fresh()], w.log);
    WfAppend(w, Fresh());
    assert Chained(w, o, d, step).world == Register(w1, o, d, Chain(child, step));
    assert Register(w1, o, d, Chain(child, step)) == Notify(w1, o, d, Chain(child, step), w1.ds[d].cell);
  }

  /** then(pipe-callback) on a resolved parent whose callback returns a pending
      promise `p`: the child stays pending, with done(child::resolve) and
      fail(child::reject) added to `p`, and it then settles as `p` settles:
      it resolves with p's result, or rejects with p's cause. */
  lemma PipeFollowsReturnedPromise(w: World, o: Oracles, d: DId, cb: CbId, p: DId, x: Cell)
    requires Wf(w) && Coherent(w) && d < |w.ds| && w.ds[d].cell.Succeeded?
    requires o.pipe(cb, w.ds[d].cell.value) == PromiseOf(p) && p < |w.ds| && w.ds[p].state == Pending
    requires !x.Incomplete?
    ensures var r := Then(w, o, d, Some(cb));
      var after := if x.Succeeded? then Resolve(r.world, o, p, x.value) else Reject(r.world, o, p, x.cause);
      r.world.ds[r.promise].cell.Incomplete? &&
      r.world.ds[p].listeners == w.ds[p].listeners + [PipeResolve(r.promise), PipeReject(r.promise)] &&
      after.ds[r.promise].cell == x && after.ds[r.promise].state == SettledState(x)
  {
    PipeWiresReturnedPromise(w, o, d, cb, p);
    AppendFresh(w, Fresh());
    var r := Then(w, o, d, Some(cb));
    var child := r.promise;
    var w4 := r.world;
    assert Coherent(w4);
    forall i, k | 0 <= i < |w4.ds| && i != p && 0 <= k < |w4.ds[i].listeners|
      ensures !Targets(w4.ds[i].listeners[k], child)
    {
      assert w4.ds[i] == (w.ds + [Fresh()])[i];
    }
    var ls := w4.ds[p].listeners;
    var n := |w.ds[p].listeners|;
    forall j | 0 <= j < n ensures !Affects(ls[j], x, child) {
      assert ls[j] == w.ds[p].listeners[j];
      assert TargetsOk(w.ds[p].listeners, w.ds);
      assert TargetOk(w.ds[p].listeners[j], w.ds);
    }
    assert w4.ds[child].state == Pending && w4.ds[p].cell.Incomplete?;
    if x.Succeeded? {
      assert !Affects(ls[n + 1], x, child);
      ResolveSettles(w4, o, p, x.value, n, child);
    } else {
      assert !Affects(ls[n], x, child);
      RejectSettles(w4, o, p, x.cause, n + 1, child);
    }
  }

  /** `p` carries done(t::resolve) and then fail(t::reject) as its last two
      listeners, no other listener refers to `t`, and `p` is still pending. */
  predicate PipedTo(w: World, p: DId, t: DId) {
    p < |w.ds| && t < |w.ds| && p != t &&
    w.ds[p].state == Pending && w.ds[p].cell.Incomplete? &&
    |w.ds[p].listeners| >= 2 &&
    w.ds[p].listeners[|w.ds[p].listeners| - 2..] == [PipeResolve(t), PipeReject(t)] &&
    (forall j :: 0 <= j < |w.ds[p].listeners| - 2 ==> !Targets(w.ds[p].listeners[j], t)) &&
    OnlyFrom(w, p, t)
  }

  /** Notifying a resolved parent's listeners, whose last one chains `child`
      through a pipe callback returning the pending promise `p`: the earlier
      listeners leave `child` and `p` alone, and the chain listener wires `p`
      to `child`, which stays as it was. */
  lemma {:induction false} NotifyAllWiresPipe(w: World, o: Oracles, src: DId, ls: seq<Listener>, v: Value,
                                              child: DId, cb: CbId, p: DId)
    requires Wf(w) && src < |w.ds| && w.ds[src].cell == Succeeded(v) && TargetsOk(ls, w.ds)
    requires |ls| > 0 && ls[|ls| - 1] == Chain(child, Pipe(cb)) && o.pipe(cb, v) == PromiseOf(p)
    requires child < |w.ds| && p < |w.ds| && child != p
    requires w.ds[p].state == Pending && w.ds[p].cell.Incomplete? && Untouched(w, child) && Untouched(w, p)
    requires forall j :: 0 <= j < |ls| - 1 ==> !Targets(ls[j], child) && !Targets(ls[j], p)
    ensures var r := NotifyAll(w, o, src, ls, Succeeded(v));
      r.ds[child].state == w.ds[child].state && r.ds[child].cell == w.ds[child].cell && PipedTo(r, p, child)
    decreases |ls|
  {
    var c := Succeeded(v);
    var w1 := Notify(w, o, src, ls[0], c);
    TargetsStable(ls[1..], w.ds, w1.ds);
    assert NotifyAll(w, o, src, ls, c) == NotifyAll(w1, o, src, ls[1..], c);
    if |ls| == 1 {
      assert w1 == RunStep(w, o, src, child, Pipe(cb), v);
      RunStepWiresPipe(w, o, src, child, cb, v, p);
      assert NotifyAll(w1, o, src, [], c) == w1;
      var n := |w1.ds[p].listeners|;
      forall j | 0 <= j < n - 2 ensures !Targets(w1.ds[p].listeners[j], child) {
        assert w1.ds[p].listeners[j] == w.ds[p].listeners[j];
      }
      forall i, k | 0 <= i < |w1.ds| && i != p && 0 <= k < |w1.ds[i].listeners|
        ensures !Targets(w1.ds[i].listeners[k], child)
      {
        assert w1.ds[i] == w.ds[i];
      }
    } else {
      NotifyFrame(w, o, src, ls[0], c, child);
      NotifyFrame(w, o, src, ls[0], c, p);
      assert ls[1..][|ls| - 2] == ls[|ls| - 1];
      NotifyAllWiresPipe(w1, o, src, ls[1..], v, child, cb, p);
    }
  }

  /** A child wired to the pending promise `p` settles as `p` settles. */
  lemma PipedSettles(w: World, o: Oracles, p: DId, t: DId, x: Cell)
    requires Wf(w) && PipedTo(w, p, t) && w.ds[t].state == Pending && w.ds[t].cell.Incomplete? && !x.Incomplete?
    ensures var after := if x.Succeeded? then Resolve(w, o, p, x.value) else Reject(w, o, p, x.cause);
      after.ds[t].cell == x && after.ds[t].state == SettledState(x)
  {
    var lp := w.ds[p].listeners;
    var n := |lp|;
    assert lp[n - 2] == PipeResolve(t) && lp[n - 1] == PipeReject(t);
    if x.Succeeded? {
      ResolveSettles(w, o, p, x.value, n - 2, t);
    } else {
      RejectSettles(w, o, p, x.cause, n - 1, t);
    }
  }

  /** resolve of a pending parent whose last listener chains `child` through a
      pipe callback returning the pending promise `p`, when only that listener
      refers to `child` and none to `p`: `p` ends up wired to the child, which
      stays as it was. */
  lemma ResolveWiresPipe(w: World, o: Oracles, d: DId, v: Value, child: DId, cb: CbId, p: DId)
    requires Wf(w) && d < |w.ds| && w.ds[d].state == Pending && w.ds[d].cell.Incomplete?
    requires |w.ds[d].listeners| > 0 && w.ds[d].listeners[|w.ds[d].listeners| - 1] == Chain(child, Pipe(cb))
    requires forall j :: 0 <= j < |w.ds[d].listeners| - 1 ==> !Targets(w.ds[d].listeners[j], child)
    requires o.pipe(cb, v) == PromiseOf(p) && child < |w.ds| && p < |w.ds| && child != p && p != d && child != d
    requires w.ds[p].state == Pending && w.ds[p].cell.Incomplete? && OnlyFrom(w, d, child) && Untouched(w, p)
    ensures var r := Resolve(w, o, d, v);
      r.ds[d].cell == Succeeded(v) && r.ds[child].state == w.ds[child].state &&
      r.ds[child].cell == w.ds[child].cell && PipedTo(r, p, child)
  {
    var ls := w.ds[d].listeners;
    var rec := w.ds[d].(state := Resolved, cell := Succeeded(v), listeners := []);
    var w1 := World(w.ds[d := rec], w.log);
    WfUpdate(w, d, rec);
    TargetsStable(ls, w.ds, w1.ds);
    forall i, k | 0 <= i < |w1.ds| && 0 <= k < |w1.ds[i].listeners|
      ensures !Targets(w1.ds[i].listeners[k], child) && !Targets(w1.ds[i].listeners[k], p)
    {
      assert i != d && w1.ds[i] == w.ds[i];
    }
    assert Resolve(w, o, d, v) == Settle(w, o, d, Resolved, Succeeded(v)) == NotifyAll(w1, o, d, ls, Succeeded(v));
    NotifyAllWiresPipe(w1, o, d, ls, v, child, cb, p);
  }

  /** then(pipe-callback) on a pending parent, then resolve of the parent with
      `v`: the callback returns the pending promise `p` that no listener refers
      to yet, and the resolve wires `p` to the child, which stays pending. */
  lemma ResolveAfterThenWiresPipe(w: World, o: Oracles, d: DId, cb: CbId, v: Value, p: DId)
    requires Wf(w) && Coherent(w) && d < |w.ds| && w.ds[d].state == Pending
    requires o.pipe(cb, v) == PromiseOf(p) && p < |w.ds| && p != d && w.ds[p].state == Pending && Untouched(w, p)
    ensures var r := Then(w, o, d, Some(cb));
      var w2 := Resolve(r.world, o, d, v);
      w2.ds[d].cell == Succeeded(v) &&
      w2.ds[r.promise].state == Pending && w2.ds[r.promise].cell.Incomplete? && PipedTo(w2, p, r.promise)
  {
    var r := Then(w, o, d, Some(cb));
    var child := r.promise;
    ChainedOnPending(w, o, d, Pipe(cb));
    var w0 := r.world;
    var ls := w0.ds[d].listeners;
    forall j | 0 <= j < |ls| - 1 ensures !Targets(ls[j], child) {
      assert ls[j] == w.ds[d].listeners[j];
      assert TargetsOk(w.ds[d].listeners, w.ds);
      assert TargetOk(w.ds[d].listeners[j], w.ds);
    }
    forall i, k | 0 <= i < |w0.ds| && 0 <= k < |w0.ds[i].listeners| ensures !Targets(w0.ds[i].listeners[k], p) {
      if i == d && k == |ls| - 1 {
      } else if i == d {
        assert w0.ds[i].listeners[k] == w.ds[d].listeners[k];
      } else {
        assert w0.ds[i] == (w.ds + [Fresh()])[i];
      }
    }
    ResolveWiresPipe(w0, o, d, v, child, cb, p);
  }

  /** then(pipe-callback) on a parent that is still pending and later resolves
      with `v`, whose callback returns the pending promise `p` that no listener
      refers to yet: the child stays pending after the parent's resolve, and
      then settles as `p` settles, with p's result or p's cause. */
  lemma PipeFollowsReturnedPromiseAfterThen(w: World, o: Oracles, d: DId, cb: CbId, v: Value, p: DId, x: Cell)
    requires Wf(w) && Coherent(w) && d < |w.ds| && w.ds[d].state == Pending
    requires o.pipe(cb, v) == PromiseOf(p) && p < |w.ds| && p != d && w.ds[p].state == Pending && Untouched(w, p)
    requires !x.Incomplete?
    ensures var r := Then(w, o, d, Some(cb));
      var w2 := Resolve(r.world, o, d, v);
      var after := if x.Succeeded? then Resolve(w2, o, p, x.value) else Reject(w2, o, p, x.cause);
      w2.ds[d].cell == Succeeded(v) && w2.ds[r.promise].cell.Incomplete? &&
      after.ds[r.promise].cell == x && after.ds[r.promise].state == SettledState(x)
  {
    ResolveAfterThenWiresPipe(w, o, d, cb, v, p);
    var r := Then(w, o, d, Some(cb));
    PipedSettles(Resolve(r.world, o, d, v), o, p, r.promise, x);
  }
}
