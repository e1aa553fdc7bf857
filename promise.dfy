/** The part of JavaScript's Promise that every data-access method relies
    on: the executor's `resolve` and `reject` settle the promise once, the
    first call wins, and calling `reject` does not stop the executor, so the
    code after it still runs. */
module Promises {
  import opened Js

  /** What a promise is rejected with: a value the code passes to `reject`,
      or an exception of the named class thrown out of the executor. */
  datatype Reason = Value(value: JsValue) | Exception(name: string)

  datatype PromiseState = Pending | Fulfilled(value: JsValue) | Rejected(reason: Reason)

  /** The state after one more `resolve` or `reject`: a pending promise
      takes the new outcome, a settled one keeps its own. */
  function Settle(s: PromiseState, next: PromiseState): (r: PromiseState)
    ensures s.Pending? ==> r == next
    ensures !s.Pending? ==> r == s
  {
    if s.Pending? then next else s
  }

  /** The state after a sequence of settlement attempts, in order. */
  function SettleAll(s: PromiseState, attempts: seq<PromiseState>): PromiseState
    decreases |attempts|
  {
    if |attempts| == 0 then s else SettleAll(Settle(s, attempts[0]), attempts[1..])
  }

  /** Nothing changes a settled promise. */
  lemma {:induction false} SettledIsFinal(s: PromiseState, attempts: seq<PromiseState>)
    requires !s.Pending?
    ensures SettleAll(s, attempts) == s
    decreases |attempts|
  {
    if |attempts| > 0 {
      SettledIsFinal(s, attempts[1..]);
    }
  }

  /** Only the first settlement counts: from a pending promise, attempts
      that settle leave it in the state the first one chose. */
  lemma {:induction false} FirstSettlementWins(attempts: seq<PromiseState>)
    requires |attempts| > 0 && !attempts[0].Pending?
    ensures SettleAll(Pending, attempts) == attempts[0]
  {
    SettledIsFinal(attempts[0], attempts[1..]);
  }

  /** The promise object: its state is changed only through the executor's
      `resolve` and `reject`. */
  class PromiseCell {
    var state: PromiseState

    constructor ()
      ensures state == Pending
    {
      state := Pending;
    }

    /** `resolve(v)`: fulfils a pending promise, and does nothing otherwise. */
    method Resolve(v: JsValue)
      modifies this
      ensures state == Settle(old(state), Fulfilled(v))
    {
      if state.Pending? {
        state := Fulfilled(v);
      }
    }

    /** `reject(reason)`, and also an exception thrown out of the executor:
        rejects a pending promise, and does nothing otherwise. */
    method Reject(reason: Reason)
      modifies this
      ensures state == Settle(old(state), Rejected(reason))
    {
      if state.Pending? {
        state := Rejected(reason);
      }
    }
  }
}
