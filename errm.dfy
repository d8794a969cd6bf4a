/**
 * The result container `Monad[T]` of errm/errmon.go and its combinators.
 * Every combinator returns a fresh value; none changes its arguments.
 */
module Errm {
  import opened Wrappers
  import opened Errors

  /**
   * `Monad[T]`: an optional pointer to a value and an optional error. The two
   * fields are independent: `Build` can set both at once.
   */
  datatype M<T> = M(value: Option<T>, err: Option<Error>)

  /**
   * A monad the combinators may dereference: when the error is nil, the value
   * pointer is not. Go's zero value `Monad[T]{}` breaks this and makes `Bind`,
   * `Fish`, `Join` and `Raise` dereference nil.
   */
  predicate WellFormed<T>(m: M<T>) {
    m.err.None? ==> m.value.Some?
  }

  /** A success: `Return` and `Some`, which it delegates to. */
  function Return<T>(v: T): (r: M<T>)
    ensures WellFormed(r) && r.err.None? && r.value == Some(v)
  {
    M(Some(v), None)
  }

  /**
   * A monad carrying `err` and no value. Go lets `err` be nil, which builds
   * the zero monad: well-formed exactly when an error is given.
   */
  function Err<T>(err: Option<Error>): (r: M<T>)
    ensures r.err == err && r.value.None?
    ensures WellFormed(r) <==> err.Some?
  {
    M(None, err)
  }

  /**
   * Sequencing: a failure is passed on with its value dropped and `action` is
   * not consulted; otherwise the result is whatever `action` makes of the value.
   * A Go function may panic; `action.requires` says where it does not.
   */
  function Bind<T, U>(mt: M<T>, action: T --> M<U>): (r: M<U>)
    requires WellFormed(mt)
    requires mt.err.None? ==> action.requires(mt.value.value)
    ensures mt.err.Some? ==> r == Err(mt.err)
    ensures mt.err.None? ==> r == action(mt.value.value)
  {
    if mt.err.Some? then M(None, mt.err) else action(mt.value.value)
  }

  /** `AndThen` is `Bind` under another name. */
  function AndThen<T, U>(mt: M<T>, action: T --> M<U>): (r: M<U>)
    requires WellFormed(mt)
    requires mt.err.None? ==> action.requires(mt.value.value)
    ensures r == Bind(mt, action)
  {
    Bind(mt, action)
  }

  /**
   * Recovery: a failure is replaced by whatever `action` yields (it is not
   * told the error); anything else, the zero monad included, is returned as is.
   */
  function WithDefault<T>(mt: M<T>, action: () -> M<T>): (r: M<T>)
    ensures mt.err.Some? ==> r == action()
    ensures mt.err.None? ==> r == mt
  {
    if mt.err.Some? then action() else mt
  }

  /** `OrElse` is `WithDefault` under another name. */
  function OrElse<T>(mt: M<T>, action: () -> M<T>): (r: M<T>)
    ensures r == WithDefault(mt, action)
  {
    WithDefault(mt, action)
  }

  /** A fallback that always yields a success holding `t`. */
  function FromValue<T>(t: T): (thunk: () -> M<T>)
    ensures thunk() == Return(t)
  {
    () => M(Some(t), None)
  }

  /**
   * Kleisli composition, written out as the source writes it rather than
   * through `Bind`: run `actionA`, stop at its error, else run `actionB`.
   * The closure dereferences `actionA`'s value, hence its precondition.
   */
  function Fish<T(!new), U, V>(actionA: T -> M<U>, actionB: U -> M<V>): (f: T --> M<V>)
    ensures forall t :: WellFormed(actionA(t)) ==> f.requires(t)
  {
    t requires WellFormed(actionA(t)) =>
      var mu := actionA(t);
      if mu.err.Some? then M(None, mu.err) else actionB(mu.value.value)
  }

  /** Flattening: an outer failure is passed on, an outer success yields its inner monad verbatim. */
  function Join<T>(mmt: M<M<T>>): (r: M<T>)
    requires WellFormed(mmt)
    ensures mmt.err.Some? ==> r == Err(mmt.err)
    ensures mmt.err.None? ==> r == mmt.value.value
  {
    if mmt.err.Some? then M(None, mmt.err) else mmt.value.value
  }

  /**
   * Lifting `action` over monads while keeping the nesting: the outer layer
   * fails exactly when the input does, the inner layer is what `action` made.
   */
  function Raise<T(!new), U>(action: T -> M<U>): (f: M<T> --> M<M<U>>)
    ensures forall mt | WellFormed(mt) :: f.requires(mt) && WellFormed(f(mt)) && f(mt).err == mt.err
  {
    mt requires WellFormed(mt) =>
      if mt.err.Some? then M(None, mt.err) else M(Some(action(mt.value.value)), None)
  }

  /**
   * The error a wrapped function reports when `action` failed with `e`: with
   * decoration on, `e` wrapped under the function's name and rendered argument.
   */
  function Decorate(e: Error, name: string, arg: string, decorate: bool): (d: Error)
    ensures Is(d, e)
    ensures !decorate ==> d == e
    ensures decorate ==> Message(d) == name + "(" + arg + "): " + Message(e)
  {
    if decorate then Decorated(name, arg, e) else e
  }

  /**
   * Adapting a Go function returning `(u, err)`. `name` is the function's name
   * as the runtime reports it and `render` Go's `%#v` formatting of the
   * argument; `decorate` is the package's decoration flag when the wrapped
   * function runs. The value returned beside an error is dropped.
   */
  function Wrap<T(!new), U>(action: T -> (U, Option<Error>), name: string, render: T -> string, decorate: bool)
    : (w: T -> M<U>)
    ensures forall t :: WellFormed(w(t))
    ensures forall t :: action(t).1.None? ==> w(t) == Return(action(t).0)
    ensures forall t :: action(t).1.Some? ==>
              w(t) == Err(Some(Decorate(action(t).1.value, name, render(t), decorate)))
  {
    t =>
      var (u, err) := action(t);
      if err.Some? then
        M(None, Some(if decorate then Decorated(name, render(t), err.value) else err.value))
      else
        M(Some(u), None)
  }

  /**
   * Adapting a Go function that cannot fail. It goes through `Wrap` with a nil
   * error, so the name, rendering and flag passed to `Wrap` are never consulted.
   */
  function Ensure<T(!new), U>(action: T -> U): (w: T -> M<U>)
    ensures forall t :: w(t) == Return(action(t))
  {
    var w := t => Wrap((_: T) => (action(t), None), "", (_: T) => "", false)(t);
    assert forall t :: w(t) == Return(action(t)) by {
      forall t ensures w(t) == Return(action(t)) {
        var nilError := (_: T) => (action(t), None);
        assert w(t) == Wrap(nilError, "", (_: T) => "", false)(t);
      }
    }
    w
  }

  /** `(value, err)` at the boundary: the stored error as is, and Go's zero value `zero` when no value is stored. */
  function Unpack<T>(m: M<T>, zero: T): (r: (T, Option<Error>))
    ensures r.1 == m.err
    ensures r.0 == if m.value.Some? then m.value.value else zero
  {
    if m.value.Some? then (m.value.value, m.err) else (zero, m.err)
  }

  /** Binding a plain Go function: `Bind(mt, Wrap(action))`. */
  function Transform<T(!new), U>(mt: M<T>, action: T -> (U, Option<Error>), name: string, render: T -> string,
                           decorate: bool): (r: M<U>)
    requires WellFormed(mt)
    ensures WellFormed(r)
    ensures mt.err.Some? ==> r == Err(mt.err)
    ensures mt.err.None? && action(mt.value.value).1.None? ==> r == Return(action(mt.value.value).0)
    ensures mt.err.None? && action(mt.value.value).1.Some? ==>
              r == Err(Some(Decorate(action(mt.value.value).1.value, name, render(mt.value.value), decorate)))
    ensures r == Bind(mt, Wrap(action, name, render, decorate))
  {
    Bind(mt, Wrap(action, name, render, decorate))
  }

  /** Fixing the leading context argument of a Go function `(ctx, t) -> (u, err)`; the context is opaque. */
  function WithCtx<C, T(!new), U>(ctx: C, action: (C, T) -> (U, Option<Error>)): (f: T -> (U, Option<Error>))
    ensures forall t :: f(t) == action(ctx, t)
  {
    t => action(ctx, t)
  }
}
