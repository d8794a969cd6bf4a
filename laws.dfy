/**
 * Laws the combinators of errm/errmon.go obey: short-circuiting, recovery,
 * the equivalences between the composition styles, and what decoration keeps.
 */
module ErrmLaws {
  import opened Wrappers
  import opened Errors
  import opened Errm

  /** A failed monad is passed on by `Bind` whatever the action: the action is never consulted. */
  lemma BindShortCircuits<T, U>(mt: M<T>, action: T -> M<U>, other: T -> M<U>)
    requires mt.err.Some?
    ensures Bind(mt, action) == Bind(mt, other) == Err(mt.err)
  {
  }

  /** A failed chain unpacks to Go's zero value and the error that stopped it. */
  lemma UnpackFailedBind<T, U>(mt: M<T>, action: T -> M<U>, zero: U)
    requires mt.err.Some?
    ensures Unpack(Bind(mt, action), zero) == (zero, mt.err)
  {
  }

  /** `Return` then `Bind` is just the action. */
  lemma BindReturnLeft<T, U>(v: T, action: T -> M<U>)
    ensures Bind(Return(v), action) == action(v)
  {
  }

  /**
   * Binding `Return` gives the monad back exactly when it does not hold a
   * value and an error at once (the state only `Build` produces): `Bind`
   * drops the value of a failure.
   */
  lemma BindReturnRight<T>(mt: M<T>)
    requires WellFormed(mt)
    ensures Bind(mt, (v: T) => Return(v)) == mt <==> !(mt.value.Some? && mt.err.Some?)
  {
  }

  /** Two binds in a row are one bind of the composed actions, as long as the first action never yields the zero monad. */
  lemma BindAssociative<T(!new), U, V>(mt: M<T>, f: T -> M<U>, g: U -> M<V>)
    requires WellFormed(mt)
    requires forall t :: WellFormed(f(t))
    ensures Bind(Bind(mt, f), g) == Bind(mt, Fish(f, g))
  {
  }

  /** Kleisli composition is binding the second action to the result of the first. */
  lemma FishIsBind<T(!new), U, V>(f: T -> M<U>, g: U -> M<V>, t: T)
    requires WellFormed(f(t))
    ensures Fish(f, g).requires(t) && Fish(f, g)(t) == Bind(f(t), g)
  {
  }

  /** The outer layer of `Raise` fails exactly when its input does; a success wraps the action's result. */
  lemma RaiseNesting<T(!new), U>(action: T -> M<U>, mt: M<T>)
    requires WellFormed(mt)
    ensures Raise(action).requires(mt)
    ensures Raise(action)(mt).err.Some? <==> mt.err.Some?
    ensures mt.err.Some? ==> Raise(action)(mt) == Err(mt.err)
    ensures mt.err.None? ==> Raise(action)(mt) == Return(action(mt.value.value))
  {
  }

  /** Flattening a raised action is binding it. */
  lemma JoinRaiseIsBind<T(!new), U>(action: T -> M<U>, mt: M<T>)
    requires WellFormed(mt)
    ensures Raise(action).requires(mt) && WellFormed(Raise(action)(mt))
    ensures Join(Raise(action)(mt)) == Bind(mt, action)
  {
  }

  /** `WithDefault` with `FromValue(d)` turns any failure into a success holding `d`. */
  lemma WithDefaultRecovers<T>(mt: M<T>, d: T)
    requires mt.err.Some?
    ensures WithDefault(mt, FromValue(d)) == Return(d)
  {
  }

  /** A monad without error passes `WithDefault` untouched whatever the fallback: the fallback is never consulted. */
  lemma WithDefaultKeepsSuccess<T>(mt: M<T>, action: () -> M<T>, other: () -> M<T>)
    requires mt.err.None?
    ensures WithDefault(mt, action) == WithDefault(mt, other) == mt
  {
  }

  /**
   * With decoration on, a wrapped failure still matches the original error,
   * its text starts with the function's name and rendered argument and ends
   * with the original text; with decoration off, it is the original error.
   */
  lemma WrapFailure<T(!new), U>(action: T -> (U, Option<Error>), name: string, render: T -> string,
                               decorate: bool, t: T)
    requires action(t).1.Some?
    ensures var w := Wrap(action, name, render, decorate)(t);
      w.value.None? && w.err.Some? && Is(w.err.value, action(t).1.value) &&
      EndsWith(Message(w.err.value), Message(action(t).1.value)) &&
      (decorate ==> StartsWith(Message(w.err.value), name + "(" + render(t) + "): ")) &&
      (!decorate ==> w.err == action(t).1)
  {
  }

  /**
   * A wrapped function that fails with an error from another wrapped function
   * (or any decorated chain) still matches every error of that chain, down to
   * its base error, and keeps the base error.
   */
  lemma WrapKeepsChain<T(!new), U>(action: T -> (U, Option<Error>), name: string, render: T -> string,
                                  decorate: bool, t: T, target: Error)
    requires action(t).1.Some? && Is(action(t).1.value, target)
    ensures var w := Wrap(action, name, render, decorate)(t);
      w.err.Some? && Is(w.err.value, target) && Is(w.err.value, Root(action(t).1.value)) &&
      Root(w.err.value) == Root(action(t).1.value)
  {
  }

  /** When the function reports no error, the name, rendering and flag given to `Wrap` make no difference. */
  lemma WrapIgnoresLabelOnSuccess<T(!new), U>(action: T -> (U, Option<Error>), name: string, render: T -> string,
                                             decorate: bool, t: T)
    requires action(t).1.None?
    ensures Wrap(action, name, render, decorate)(t) == Wrap(action, "", (_: T) => "", false)(t)
  {
  }

  /** A monad holding both a value and an error counts as a failure for `Bind` and `WithDefault`; `Unpack` shows both. */
  lemma DualStateIsFailure<T, U>(v: T, e: Error, action: T -> M<U>, fallback: () -> M<T>, zero: T)
    ensures Bind(M(Some(v), Some(e)), action) == Err(Some(e))
    ensures WithDefault(M(Some(v), Some(e)), fallback) == fallback()
    ensures Unpack(M(Some(v), Some(e)), zero) == (v, Some(e))
  {
  }

  /** No step of `steps` ever yields the zero monad. */
  ghost predicate StepsWellFormed<T(!new)>(steps: seq<T -> M<T>>) {
    forall i, t | 0 <= i < |steps| :: WellFormed(steps[i](t))
  }

  /** `Bind(...Bind(Bind(mt, steps[0]), steps[1])..., steps[n-1])`, the chains the package is used for. */
  function Chain<T(!new)>(mt: M<T>, steps: seq<T -> M<T>>): (r: M<T>)
    requires WellFormed(mt) && StepsWellFormed(steps)
    ensures WellFormed(r)
    decreases |steps|
  {
    if steps == [] then mt else Chain(Bind(mt, steps[0]), steps[1..])
  }

  /** Once a chain has failed, every later step is skipped and the error reaches the end unchanged. */
  lemma {:induction false} ChainShortCircuits<T(!new)>(mt: M<T>, steps: seq<T -> M<T>>)
    requires WellFormed(mt) && StepsWellFormed(steps)
    requires mt.err.Some?
    ensures Chain(mt, steps).err == mt.err
    ensures steps != [] ==> Chain(mt, steps) == Err(mt.err)
    decreases |steps|
  {
    if steps != [] {
      ChainShortCircuits(Bind(mt, steps[0]), steps[1..]);
    }
  }

  /** A chain fails at its first failing step: binding one more step to a chain is chaining that step. */
  lemma {:induction false} ChainSnoc<T(!new)>(mt: M<T>, steps: seq<T -> M<T>>, last: T -> M<T>)
    requires WellFormed(mt) && StepsWellFormed(steps + [last])
    ensures StepsWellFormed(steps)
    ensures Chain(mt, steps + [last]) == Bind(Chain(mt, steps), last)
    decreases |steps|
  {
    assert forall i | 0 <= i < |steps| :: steps[i] == (steps + [last])[i];
    if steps == [] {
      assert [last][1..] == [];
    } else {
      assert (steps + [last])[1..] == steps[1..] + [last];
      ChainSnoc(Bind(mt, steps[0]), steps[1..], last);
    }
  }
}
