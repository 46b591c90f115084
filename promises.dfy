/** Vocabulary shared by the whole model: the three states of a promise, the values a
    promise can hold, the causes it can be rejected with, and what an (opaque) user
    callback does when it is invoked.  Java references become small ids: a deferred
    object is named by its index in the store, a callback object by a callback id. */
module Promises {

  /** Promise.State: a promise is in exactly one of these three states. */
  datatype State = Pending | Resolved | Rejected

  /** Identity of a deferred object (its index in the store). */
  type DId = nat

  /** Identity of a callback object supplied by user code. */
  type CbId = nat

  /** A Throwable.  `Thrown(id)` is an exception object raised by user code;
      `ExecutionFailure(inner)` is the wrapper the underlying future's `get()`
      raises when it is read after a failure. */
  datatype Cause = Thrown(id: nat) | ExecutionFailure(inner: Cause)

  /** A result object.  `Null` is Java's null (the result of `resolve()`),
      `Joined(items)` is the Object[] an aggregate resolves with. */
  datatype Value = Null | Data(n: int) | Joined(items: seq<Value>)

  /** What a map callback or a then-done callback does: return a value, or throw. */
  datatype Reply = Returns(value: Value) | Throws(cause: Cause)

  /** What a pipe callback does: return null, return a promise, or throw. */
  datatype PipeReply = NoPromise | PromiseOf(promise: DId) | PipeThrows(cause: Cause)

  /** The behaviour of every callback, as a function of the callback and its argument. */
  datatype Oracles = Oracles(call: (CbId, Value) -> Reply, pipe: (CbId, Value) -> PipeReply)

  datatype Option<T> = None | Some(value: T)
}
