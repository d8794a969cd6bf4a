/**
 * `Build` of errm/errmon.go runs its action when `Build` is called, not when
 * the function it returns is called. The action is a Go function with side
 * effects, modelled as an object that counts its calls.
 */
module Builder {
  import opened Wrappers
  import opened Errors
  import opened Errm

  /** A zero-argument Go function returning `(T, error)`; its k-th call (from 0) returns `outcome(k)`. */
  class Generator<T> {
    const outcome: nat -> (T, Option<Error>)
    var calls: nat

    constructor (outcome: nat -> (T, Option<Error>))
      ensures this.outcome == outcome && calls == 0
    {
      this.outcome := outcome;
      calls := 0;
    }

    method Call() returns (t: T, err: Option<Error>)
      modifies this
      ensures calls == old(calls) + 1
      ensures (t, err) == outcome(old(calls))
    {
      t, err := outcome(calls).0, outcome(calls).1;
      calls := calls + 1;
    }
  }

  /**
   * Runs `action` once, now, and returns a thunk that replays that one
   * outcome. The value is kept even beside an error, so the thunk may yield
   * a monad holding both. The thunk reads no state, so calling it never runs
   * `action` again.
   */
  method Build<T>(action: Generator<T>) returns (thunk: () -> M<T>)
    modifies action
    ensures action.calls == old(action.calls) + 1
    ensures thunk() == M(Some(action.outcome(old(action.calls)).0), action.outcome(old(action.calls)).1)
  {
    var t, err := action.Call();
    thunk := () => M(Some(t), err);
  }

  /**
   * A fresh generator handed to `Build`: it has run exactly once whether the
   * thunk is called or not, and every call of the thunk yields its first
   * outcome; without an error that is `FromValue` of the value.
   */
  method BuildRunsOnce<T>(outcome: nat -> (T, Option<Error>)) returns (first: M<T>, second: M<T>, calls: nat)
    ensures calls == 1
    ensures first == second == M(Some(outcome(0).0), outcome(0).1)
    ensures outcome(0).1.None? ==> first == FromValue(outcome(0).0)()
  {
    var action := new Generator(outcome);
    var thunk := Build(action);
    calls := action.calls;
    first := thunk();
    second := thunk();
  }
}
