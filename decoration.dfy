/**
 * The package-level `decorateError` flag of errm/errmon.go, as an object:
 * enabled from the start, switched by `Disable` and `Enable`, and read by a
 * wrapped function at the moment it fails.
 */
module Decoration {
  import opened Wrappers
  import opened Errors
  import opened Errm

  class ErrorDecoration {
    /** `decorateError`. */
    var enabled: bool

    /** The package starts with decoration enabled. */
    constructor ()
      ensures enabled
    {
      enabled := true;
    }

    /** `DisableErrorDecoration`. */
    method Disable()
      modifies this
      ensures !enabled
    {
      enabled := false;
    }

    /** `EnableErrorDecoration`. */
    method Enable()
      modifies this
      ensures enabled
    {
      enabled := true;
    }

    /**
     * Running `Wrap(action)` on `t` under the current flag. A failure is
     * decorated exactly when the flag is on, and matches the original error
     * either way.
     */
    method RunWrapped<T(!new), U>(action: T -> (U, Option<Error>), name: string, render: T -> string, t: T)
      returns (m: M<U>)
      ensures m == Wrap(action, name, render, enabled)(t)
      ensures action(t).1.None? ==> m == Return(action(t).0)
      ensures action(t).1.Some? ==>
                m.value.None? && m.err.Some? && Is(m.err.value, action(t).1.value) &&
                (enabled <==> m.err != action(t).1)
    {
      m := Wrap(action, name, render, enabled)(t);
    }
  }

  /**
   * A failing wrapped function run with decoration on, then off, then on
   * again: the error is decorated, then passed through, then decorated again.
   */
  method ToggleDecoration<T(!new), U>(action: T -> (U, Option<Error>), name: string, render: T -> string, t: T)
    returns (enabled: M<U>, disabled: M<U>, reenabled: M<U>)
    requires action(t).1.Some?
    ensures enabled == Err(Some(Decorated(name, render(t), action(t).1.value)))
    ensures disabled == Err(action(t).1)
    ensures reenabled == enabled
  {
    var flag := new ErrorDecoration();
    enabled := flag.RunWrapped(action, name, render, t);
    flag.Disable();
    disabled := flag.RunWrapped(action, name, render, t);
    flag.Enable();
    reenabled := flag.RunWrapped(action, name, render, t);
  }
}
