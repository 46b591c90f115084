/** What resolve, reject and the registration operations of DeferredObject promise,
    proved about the functions of module Settlement. */
module SettlementLemmas {
  import opened Promises
  import opened Aggregate
  import opened Settlement

  // ---------------------------------------------------------------- resolve and reject

  /** resolve on a Pending deferred: the state leaves Pending for good, getResult
      returns the value (null for `resolve()`), getCause stays null, and nothing
      already completed changes. */
  lemma ResolvePending(w: World, o: Oracles, d: DId, v: Value)
    requires Wf(w) && Coherent(w) && d < |w.ds| && w.ds[d].state == Pending
    ensures var r := Resolve(w, o, d, v);
      r.ds[d].cell == Succeeded(v) && r.ds[d].state != Pending &&
      GetResult(r, d) == v && GetCause(r, d) == None && Coherent(r)
  {
  }

  /** resolve on a deferred that is not Pending changes nothing at all. */
  lemma ResolveSettledIsNoop(w: World, o: Oracles, d: DId, v: Value)
    requires Wf(w) && d < |w.ds| && w.ds[d].state != Pending
    ensures Resolve(w, o, d, v) == w
  {
  }

  /** reject on a Pending deferred: it becomes Rejected for good and the cell
      fails with the cause. */
  lemma RejectPending(w: World, o: Oracles, d: DId, e: Cause)
    requires Wf(w) && Coherent(w) && d < |w.ds| && w.ds[d].state == Pending
    ensures var r := Reject(w, o, d, e);
      r.ds[d].cell == Failed(e) && r.ds[d].state == Rejected &&
      GetCause(r, d) == Some(e) && GetResult(r, d) == Null
  {
    var rec := w.ds[d].(state := Rejected, cell := Failed(e), listeners := []);
    var w1 := World(w.ds[d := rec], w.log);
    WfUpdate(w, d, rec);
    TargetsStable(w.ds[d].listeners, w.ds, w1.ds);
    var r := NotifyAll(w1, o, d, w.ds[d].listeners, Failed(e));
    assert Reject(w, o, d, e) == r;
    assert Evolves(w1.ds[d], r.ds[d]);
  }

  /** reject is refused only by an already Rejected deferred. */
  lemma RejectRejectedIsNoop(w: World, o: Oracles, d: DId, e: Cause)
    requires Wf(w) && d < |w.ds| && w.ds[d].state == Rejected
    ensures Reject(w, o, d, e) == w
  {
  }

  /** The guard of reject does not exclude Resolved: rejecting a Resolved deferred
      turns its state to Rejected while the settle-once future keeps the success,
      so getResult still returns the value, getCause stays null and no callback
      runs. */
  lemma RejectAfterResolve(w: World, o: Oracles, d: DId, e: Cause)
    requires Wf(w) && Coherent(w) && d < |w.ds| && w.ds[d].state == Resolved
    ensures var r := Reject(w, o, d, e);
      r.ds == w.ds[d := w.ds[d].(state := Rejected)] && r.log == w.log &&
      GetResult(r, d) == GetResult(w, d) && GetCause(r, d) == None
  {
  }

  /** After resolve or reject, a result or cause that was already there is still
      there, and the state has not moved back (Pending is never re-entered,
      Rejected is never left). */
  lemma SettlementIsFinal(w: World, o: Oracles, d: DId, v: Value, e: Cause, i: DId)
    requires Wf(w) && d < |w.ds| && i < |w.ds| && !w.ds[i].cell.Incomplete?
    ensures GetResult(Resolve(w, o, d, v), i) == GetResult(w, i)
    ensures GetCause(Resolve(w, o, d, v), i) == GetCause(w, i)
    ensures GetResult(Reject(w, o, d, e), i) == GetResult(w, i)
    ensures GetCause(Reject(w, o, d, e), i) == GetCause(w, i)
    ensures w.ds[i].state != Pending ==> Resolve(w, o, d, v).ds[i].state != Pending
    ensures w.ds[i].state != Pending ==> Reject(w, o, d, e).ds[i].state != Pending
    ensures w.ds[i].state == Rejected ==> Reject(w, o, d, e).ds[i].state == Rejected
  {
    assert Evolves(w.ds[i], Resolve(w, o, d, v).ds[i]);
    assert Evolves(w.ds[i], Reject(w, o, d, e).ds[i]);
  }

  // ---------------------------------------------------------------- the log agrees with the cells

  /** Every operation keeps the log consistent: a done callback only ever received
      the value its promise resolved with, a fail callback only the cause it was
      rejected with, a then/map callback never ran on a rejected parent. */
  lemma ResolveRejectKeepLogConsistent(w: World, o: Oracles, d: DId, v: Value, e: Cause)
    requires Wf(w) && Consistent(w) && d < |w.ds|
    ensures Consistent(Resolve(w, o, d, v)) && Consistent(Reject(w, o, d, e))
  {
    GrowsConsistent(w, Resolve(w, o, d, v));
    GrowsConsistent(w, Reject(w, o, d, e));
  }

  /** Consequently, once a deferred has succeeded no fail callback of it has run or
      will run, and once it has failed no done or then/map callback of it has run. */
  lemma NoCallbackOfTheOtherOutcome(w: World, d: DId, k: nat)
    requires Consistent(w) && d < |w.ds| && k < |w.log| && w.log[k].on == d
    ensures w.ds[d].cell.Succeeded? ==> !w.log[k].FailCalled?
    ensures w.ds[d].cell.Failed? ==> !w.log[k].DoneCalled? && !w.log[k].ChainCalled?
    ensures w.ds[d].cell.Incomplete? ==> w.log[k].ProgressCalled?
  {
    assert Matches(w.log[k], w.ds);
  }

  // ---------------------------------------------------------------- registration

  /** done, fail and always with a null callback change nothing. */
  lemma NullCallbackIsNoop(w: World, o: Oracles, d: DId)
    requires Wf(w) && d < |w.ds|
    ensures Done(w, o, d, None) == w && Fail(w, o, d, None) == w
    ensures Always(w, o, d, None) == w && Progress(w, d, None) == w
  {
  }

  /** done(cb) on a Pending deferred appends to the future's listener list; on a
      resolved future the callback runs at once with the result; on a failed
      future it never runs. */
  lemma DoneRegistration(w: World, o: Oracles, d: DId, cb: CbId)
    requires Wf(w) && d < |w.ds|
    ensures w.ds[d].cell.Incomplete? ==>
      Done(w, o, d, Some(cb)) == World(w.ds[d := w.ds[d].(listeners := w.ds[d].listeners + [OnDone(cb)])], w.log)
    ensures w.ds[d].cell.Succeeded? ==>
      Done(w, o, d, Some(cb)) == World(w.ds, w.log + [DoneCalled(d, cb, w.ds[d].cell.value)])
    ensures w.ds[d].cell.Failed? ==> Done(w, o, d, Some(cb)) == w
  {
    assert Done(w, o, d, Some(cb)) == Register(w, o, d, OnDone(cb));
  }

  /** fail(cb) is symmetric to done: it runs at once with the cause on a failed
      future and never on a resolved one. */
  lemma FailRegistration(w: World, o: Oracles, d: DId, cb: CbId)
    requires Wf(w) && d < |w.ds|
    ensures w.ds[d].cell.Incomplete? ==>
      Fail(w, o, d, Some(cb)) == World(w.ds[d := w.ds[d].(listeners := w.ds[d].listeners + [OnFail(cb)])], w.log)
    ensures w.ds[d].cell.Failed? ==>
      Fail(w, o, d, Some(cb)) == World(w.ds, w.log + [FailCalled(d, cb, w.ds[d].cell.cause)])
    ensures w.ds[d].cell.Succeeded? ==> Fail(w, o, d, Some(cb)) == w
  {
    assert Fail(w, o, d, Some(cb)) == Register(w, o, d, OnFail(cb));
  }

  /** always(cb) runs at once on a completed future, whichever way it completed. */
  lemma AlwaysRegistration(w: World, o: Oracles, d: DId, cb: CbId)
    requires Wf(w) && d < |w.ds|
    ensures w.ds[d].cell.Incomplete? ==>
      Always(w, o, d, Some(cb)) == World(w.ds[d := w.ds[d].(listeners := w.ds[d].listeners + [OnAlways(cb)])], w.log)
    ensures !w.ds[d].cell.Incomplete? ==>
      Always(w, o, d, Some(cb)) == World(w.ds, w.log + [AlwaysCalled(d, cb)])
  {
    assert Always(w, o, d, Some(cb)) == Register(w, o, d, OnAlways(cb));
  }

  /** The event a plain listener of `d` logs when the cell completes as `c`. */
  function PlainEvent(d: DId, l: Listener, c: Cell): Option<Event> {
    match l
    case OnDone(cb) => if c.Succeeded? then Some(DoneCalled(d, cb, c.value)) else None
    case OnFail(cb) => if c.Failed? then Some(FailCalled(d, cb, c.cause)) else None
    case OnAlways(cb) => Some(AlwaysCalled(d, cb))
    case _ => None
  }

  /** Every done/fail/always listener in the list being notified gets its call
      logged (the rest of the cascade only appends to the log). */
  lemma {:induction false} NotifyAllRunsPlain(w: World, o: Oracles, src: DId, ls: seq<Listener>, c: Cell, k: nat)
    requires Wf(w) && src < |w.ds| && w.ds[src].cell == c && !c.Incomplete? && TargetsOk(ls, w.ds)
    requires k < |ls| && PlainEvent(src, ls[k], c).Some?
    ensures PlainEvent(src, ls[k], c).value in NotifyAll(w, o, src, ls, c).log[|w.log|..]
    decreases k
  {
    var w1 := Notify(w, o, src, ls[0], c);
    TargetsStable(ls[1..], w.ds, w1.ds);
    var r := NotifyAll(w1, o, src, ls[1..], c);
    assert NotifyAll(w, o, src, ls, c) == r;
    if k == 0 {
      assert w1.log == w.log + [PlainEvent(src, ls[0], c).value];
      assert r.log[|w.log|] == w1.log[|w.log|];
    } else {
      NotifyAllRunsPlain(w1, o, src, ls[1..], c, k - 1);
      assert r.log[|w1.log|..] == r.log[|w.log|..][|w1.log| - |w.log|..];
    }
  }

  /** Callbacks registered before resolve run when it happens: each done callback
      with the result, each always callback; no fail callback of it ever runs. */
  lemma ResolveRunsRegisteredCallbacks(w: World, o: Oracles, d: DId, v: Value, k: nat)
    requires Wf(w) && Coherent(w) && Consistent(w) && d < |w.ds| && w.ds[d].state == Pending
    requires k < |w.ds[d].listeners|
    ensures var r := Resolve(w, o, d, v);
      (w.ds[d].listeners[k].OnDone? ==> DoneCalled(d, w.ds[d].listeners[k].cb, v) in r.log) &&
      (w.ds[d].listeners[k].OnAlways? ==> AlwaysCalled(d, w.ds[d].listeners[k].cb) in r.log) &&
      forall j :: 0 <= j < |r.log| && r.log[j].on == d ==> !r.log[j].FailCalled?
  {
    var r := Resolve(w, o, d, v);
    var ls := w.ds[d].listeners;
    var rec := w.ds[d].(state := Resolved, cell := Succeeded(v), listeners := []);
    var w1 := World(w.ds[d := rec], w.log);
    WfUpdate(w, d, rec);
    TargetsStable(ls, w.ds, w1.ds);
    assert r == Settle(w, o, d, Resolved, Succeeded(v));
    assert r == NotifyAll(w1, o, d, ls, Succeeded(v));
    if ls[k].OnDone? || ls[k].OnAlways? {
      NotifyAllRunsPlain(w1, o, d, ls, Succeeded(v), k);
    }
    GrowsConsistent(w, r);
    forall j | 0 <= j < |r.log| && r.log[j].on == d ensures !r.log[j].FailCalled? {
      assert Matches(r.log[j], r.ds);
    }
  }

  /** Callbacks registered before reject run when it happens: each fail callback
      with the cause, each always callback; no done or then/map callback of it
      ever runs. */
  lemma RejectRunsRegisteredCallbacks(w: World, o: Oracles, d: DId, e: Cause, k: nat)
    requires Wf(w) && Coherent(w) && Consistent(w) && d < |w.ds| && w.ds[d].state == Pending
    requires k < |w.ds[d].listeners|
    ensures var r := Reject(w, o, d, e);
      (w.ds[d].listeners[k].OnFail? ==> FailCalled(d, w.ds[d].listeners[k].cb, e) in r.log) &&
      (w.ds[d].listeners[k].OnAlways? ==> AlwaysCalled(d, w.ds[d].listeners[k].cb) in r.log) &&
      forall j :: 0 <= j < |r.log| && r.log[j].on == d ==> !r.log[j].DoneCalled? && !r.log[j].ChainCalled?
  {
    var r := Reject(w, o, d, e);
    var ls := w.ds[d].listeners;
    var rec := w.ds[d].(state := Rejected, cell := Failed(e), listeners := []);
    var w1 := World(w.ds[d := rec], w.log);
    WfUpdate(w, d, rec);
    TargetsStable(ls, w.ds, w1.ds);
    assert r == Settle(w, o, d, Rejected, Failed(e));
    assert r == NotifyAll(w1, o, d, ls, Failed(e));
    if ls[k].OnFail? || ls[k].OnAlways? {
      NotifyAllRunsPlain(w1, o, d, ls, Failed(e), k);
    }
    GrowsConsistent(w, r);
    forall j | 0 <= j < |r.log| && r.log[j].on == d ensures !r.log[j].DoneCalled? && !r.log[j].ChainCalled? {
      assert Matches(r.log[j], r.ds);
    }
  }

  // ---------------------------------------------------------------- progress

  /** setProgress(n) calls every registered progress callback once, in list order,
      with the clamped value, whatever the state, and changes nothing else. */
  lemma SetProgressCallsEach(w: World, d: DId, n: int)
    requires d < |w.ds|
    ensures var r := SetProgress(w, d, n);
      r.ds == w.ds && |r.log| == |w.log| + |w.ds[d].progress| && r.log[..|w.log|] == w.log &&
      forall k :: 0 <= k < |w.ds[d].progress| ==>
        r.log[|w.log| + k] == ProgressCalled(d, w.ds[d].progress[k], Clamp(n))
  {
  }

  /** progress(cb): on a Resolved deferred the callback runs at once with 100; on
      a Pending one it is appended and does not run; on a Rejected one nothing
      happens. */
  lemma ProgressRegistration(w: World, d: DId, cb: CbId)
    requires d < |w.ds|
    ensures w.ds[d].state == Resolved ==> Progress(w, d, Some(cb)) == Log(w, ProgressCalled(d, cb, 100))
    ensures w.ds[d].state == Pending ==>
      Progress(w, d, Some(cb)) == World(w.ds[d := w.ds[d].(progress := w.ds[d].progress + [cb])], w.log)
    ensures w.ds[d].state == Rejected ==> Progress(w, d, Some(cb)) == w
  {
  }

  /** Registering a progress callback keeps the store well formed, coherent and
      its log consistent. */
  lemma ProgressKeepsInvariants(w: World, d: DId, cb: Option<CbId>)
    requires Wf(w) && Coherent(w) && Consistent(w) && d < |w.ds|
    ensures Wf(Progress(w, d, cb)) && Coherent(Progress(w, d, cb)) && Consistent(Progress(w, d, cb))
  {
    if cb.Some? && w.ds[d].state == Pending {
      var rec := w.ds[d].(progress := w.ds[d].progress + [cb.value]);
      WfUpdate(w, d, rec);
      assert Grows(w, Progress(w, d, cb));
      GrowsConsistent(w, Progress(w, d, cb));
    }
  }
}
