/**
 * Go errors as the combinators in errm/errmon.go see them: either an error
 * created by user code, or an error that `Wrap` decorated with the name of
 * the failing function and the rendering of its argument, wrapping (`%w`)
 * the original one.
 */
module Errors {

  /**
   * `Base(id, text)` is an error made by user code (`fmt.Errorf("some-error")`);
   * `id` stands for its identity, since Go compares such errors by pointer.
   * `Decorated(name, arg, inner)` is `fmt.Errorf("%v(%#v): %w", name, arg, inner)`.
   */
  datatype Error =
    | Base(id: nat, text: string)
    | Decorated(name: string, arg: string, inner: Error)

  /** Go's `errors.Is(e, target)`: `target` is `e` or is reachable by unwrapping `e`. */
  predicate Is(e: Error, target: Error) {
    e == target || (e.Decorated? && Is(e.inner, target))
  }

  /** `s` ends with `suffix`. */
  predicate EndsWith(s: string, suffix: string) {
    |suffix| <= |s| && s[|s| - |suffix|..] == suffix
  }

  /** `s` starts with `prefix`. */
  predicate StartsWith(s: string, prefix: string) {
    |prefix| <= |s| && s[..|prefix|] == prefix
  }

  /** The text `Error()` returns: the decoration layers, outermost first, then the base text. */
  function Message(e: Error): (m: string)
    ensures e.Base? ==> m == e.text
    ensures e.Decorated? ==> StartsWith(m, e.name + "(" + e.arg + "): ")
  {
    match e
    case Base(_, text) => text
    case Decorated(name, arg, inner) => name + "(" + arg + "): " + Message(inner)
  }

  /** The error a chain of decorations was built on. */
  function Root(e: Error): (r: Error)
    ensures r.Base? && Is(e, r)
  {
    match e
    case Base(_, _) => e
    case Decorated(_, _, inner) => Root(inner)
  }

  /** Unwrapping never reaches an error that does not contain the target: `errors.Is` is transitive. */
  lemma {:induction false} IsTransitive(a: Error, b: Error, c: Error)
    requires Is(a, b) && Is(b, c)
    ensures Is(a, c)
  {
    if a != b {
      IsTransitive(a.inner, b, c);
    }
  }

  /** Every error in the chain of `e` has the same root as `e`. */
  lemma {:induction false} IsSameRoot(e: Error, target: Error)
    requires Is(e, target)
    ensures Root(target) == Root(e)
  {
    if e != target {
      IsSameRoot(e.inner, target);
    }
  }

  /** Decorating only adds text in front: the message of any error in the chain ends the message. */
  lemma {:induction false} IsMessageSuffix(e: Error, target: Error)
    requires Is(e, target)
    ensures EndsWith(Message(e), Message(target))
  {
    if e != target {
      IsMessageSuffix(e.inner, target);
      var prefix := e.name + "(" + e.arg + "): ";
      EndsWithExtended(prefix, Message(e.inner), Message(target));
    }
  }

  lemma EndsWithExtended(p: string, s: string, suffix: string)
    requires EndsWith(s, suffix)
    ensures EndsWith(p + s, suffix)
  {
  }
}
