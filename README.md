# errm: a verified model of gomonad's result container

This project models the Go package `errm` (errm/errmon.go): the generic
result container `Monad[T]` and its combinators. A monad holds an optional
pointer to a value and an optional error. The combinators sequence fallible
steps (`Bind`/`AndThen`, `Fish`, `Join`/`Raise`), recover from failures
(`WithDefault`/`OrElse` with `FromValue` or `Build`), adapt plain Go
functions (`Wrap`, `Ensure`, `Transform`, `WithCtx`) and unpack the result
at the boundary (`Unpack`). `Wrap` optionally decorates a failing function's
error with the function's name and argument while keeping the original
error matchable with `errors.Is`; a package-level flag switches that
decoration on and off.

Modules:

- `Wrappers`: `Option`, standing for Go's nil-able pointers and interfaces.
- `Errors`: errors as a chain `Base(id, text)` / `Decorated(name, arg, inner)`,
  `errors.Is` as "the chain contains the target", the text `Error()` returns,
  and lemmas about chains.
- `Errm`: `M<T> = M(value: Option<T>, err: Option<Error>)` and every
  combinator as a function. The two fields stay independent because `Build`
  can set both. Go's zero monad (no value, no error) makes `Bind`, `Fish`,
  `Join` and `Raise` dereference nil; `WellFormed` excludes it, as a
  precondition exactly where the source dereferences.
- `ErrmLaws`: the laws tying the combinators together: short-circuiting,
  recovery, `Fish` = `Bind`, `Join` after `Raise` = `Bind`, associativity,
  what decoration keeps, and chains of binds of any length.
- `Decoration`: the `decorateError` flag as a class with `Enable`/`Disable`.
  `Wrap` itself takes the flag as a parameter: the value in force when the
  wrapped function runs, which is when the source reads it.
- `Builder`: `Build` as a method over a side-effecting generator object, so
  that "runs once, when `Build` is called" is stated and proved.
- `Scenarios`: the cases of errm/errmon_test.go, for every function name,
  argument rendering and flag setting.

A monad holding both a value and an error (built by `Build` from a failing
action) is kept as the source builds it: `Bind` and `WithDefault` treat it
as a failure, and `Unpack` returns the stored value with the error rather
than the zero value.

## Model

| member | source | states |
|---|---|---|
| `Errm.Return` | errm/errmon.go:15-24 | `Return`/`Some` build a well-formed success holding exactly the value and no error |
| `Errm.Err` | errm/errmon.go:26-31 | `Err` builds a monad with the given error and no value; it is well-formed exactly when the error is non-nil (a nil error gives the zero monad) |
| `Errm.Bind` | errm/errmon.go:33-40 | a failure is passed on with its value dropped; otherwise the result is the action applied to the value; the input must not be the zero monad |
| `Errm.AndThen` | errm/errmon.go:51-55 | `AndThen` is `Bind` |
| `Errm.WithDefault` | errm/errmon.go:42-49 | a failure is replaced by the fallback's result; a monad without error (zero monad included) is returned unchanged |
| `Errm.OrElse` | errm/errmon.go:57-61 | `OrElse` is `WithDefault` |
| `Errm.FromValue` | errm/errmon.go:63-67 | the returned fallback always yields a success holding the value |
| `Errm.Fish` | errm/errmon.go:76-87 | the composed closure may be called on every input whose first monad is well-formed |
| `Errm.Join` | errm/errmon.go:89-94 | an outer failure is passed on without value; an outer success yields its inner monad verbatim |
| `Errm.Raise` | errm/errmon.go:96-104 | the lifted closure accepts every well-formed monad, yields a well-formed monad, and its outer error is exactly the input's error |
| `Errm.Decorate` | errm/errmon.go:109-112 | the reported error always matches the original under `errors.Is`; with decoration off it is the original; on, its text is `name(arg): ` followed by the original text |
| `Errm.Wrap` | errm/errmon.go:106-117 | a wrapped function never yields the zero monad; a nil error gives a success holding `u`; a non-nil error gives a failure without value carrying the (possibly decorated) error |
| `Errm.Ensure` | errm/errmon.go:119-126 | an ensured function always yields a success holding the function's result |
| `Errm.Unpack` | errm/errmon.go:128-134 | the error is returned as stored, never invented or dropped; the value is the stored one when present, else Go's zero value |
| `Errm.Transform` | errm/errmon.go:136-138 | equals `Bind(mt, Wrap(action))`: a failure is passed on; a success whose action succeeds gives a success holding `u`; an action failure gives a failure carrying the action's error, decorated with `name(arg): ` exactly when decoration is on |
| `Errm.WithCtx` | errm/errmon.go:144-150 | the curried function returns on every argument what the action returns with the fixed context |
| `Errors.Message` | errm/errmon.go:111 | a base error's text is its own text; a decorated error's text starts with `name(arg): ` |
| `Errors.Root` | errm/errmon.go:111 | every chain of decorations rests on a base error that `errors.Is` finds |
| `Errors.IsTransitive` | errm/errmon.go:111 | `errors.Is` through `%w` decorations is transitive |
| `Errors.IsSameRoot` | errm/errmon.go:111 | every error in a chain has the chain's base error |
| `Errors.IsMessageSuffix` | errm/errmon.go:111 | the text of any error matched by `errors.Is` ends the text of the error that matches it |
| `ErrmLaws.BindShortCircuits` | errm/errmon.go:36-37 | on a failure, `Bind` yields the same failure whatever the action, so the action is never consulted |
| `ErrmLaws.UnpackFailedBind` | errm/errmon_test.go:40-51 | a failed bind unpacks to Go's zero value and the error that stopped it |
| `ErrmLaws.BindReturnLeft` | errm/errmon.go:39 | binding a `Return` runs the action on the value |
| `ErrmLaws.BindReturnRight` | errm/errmon.go:36-39 | binding `Return` gives the monad back if and only if it does not hold a value and an error at once |
| `ErrmLaws.BindAssociative` | errm/errmon.go:76-87 | two binds in a row equal one bind of the `Fish` composition, when the first action never yields the zero monad |
| `ErrmLaws.FishIsBind` | errm/errmon.go:76-87 | `Fish(f, g)(t)` is defined and equals `Bind(f(t), g)` for all `f`, `g`, `t` with `f(t)` well-formed |
| `ErrmLaws.RaiseNesting` | errm/errmon.go:96-104 | `Raise`'s outer layer fails exactly when its input does; a success wraps the action's result as a success |
| `ErrmLaws.JoinRaiseIsBind` | errm/errmon.go:89-104 | `Join(Raise(f)(x))` equals `Bind(x, f)` for every well-formed `x` |
| `ErrmLaws.WithDefaultRecovers` | errm/errmon.go:42-67 | any failure followed by `WithDefault(FromValue(d))` becomes a success holding `d` |
| `ErrmLaws.WithDefaultKeepsSuccess` | errm/errmon.go:45-48 | a monad without error passes `WithDefault` unchanged whatever the fallback |
| `ErrmLaws.WrapFailure` | errm/errmon.go:108-113 | a wrapped failure has no value, matches the original error, its text ends with the original text and, with decoration on, starts with the name and rendered argument; with decoration off it is the original error |
| `ErrmLaws.WrapKeepsChain` | errm/errmon.go:108-113 | when the action's error is itself a decorated chain (nested `Wrap`s), the wrapped failure still matches every error of that chain, down to its base error, and has the same base error |
| `ErrmLaws.WrapIgnoresLabelOnSuccess` | errm/errmon.go:114-115 | on success, the name, rendering and flag given to `Wrap` make no difference |
| `ErrmLaws.DualStateIsFailure` | errm/errmon.go:69-74 | a monad holding both a value and an error is a failure for `Bind` and `WithDefault`, and `Unpack` returns both |
| `ErrmLaws.Chain` | errm/errmon_test.go:117-122 | a chain of binds over steps that never yield the zero monad is well-formed |
| `ErrmLaws.ChainShortCircuits` | errm/errmon.go:36-37 | once a chain has failed, its error reaches the end unchanged and every later step is skipped |
| `ErrmLaws.ChainSnoc` | errm/errmon_test.go:117-122 | binding one more step to a chain is the chain extended by that step |
| `Decoration.ErrorDecoration.constructor` | errm/errmon.go:152 | decoration starts enabled |
| `Decoration.ErrorDecoration.Disable` | errm/errmon.go:154-156 | `DisableErrorDecoration` turns the flag off |
| `Decoration.ErrorDecoration.Enable` | errm/errmon.go:158-160 | `EnableErrorDecoration` turns the flag on |
| `Decoration.ErrorDecoration.RunWrapped` | errm/errmon.go:107-115 | a wrapped function run under the current flag succeeds as the action does; a failure matches the original error and differs from it exactly when the flag is on |
| `Decoration.ToggleDecoration` | errm/errmon.go:152-160 | the same failure is decorated with decoration on, passed through unchanged after disabling, and decorated again after re-enabling |
| `Builder.Build` | errm/errmon.go:69-74 | the action runs exactly once, during `Build`; the thunk yields its value together with its error, possibly both |
| `Builder.BuildRunsOnce` | errm/errmon.go:69-74 | after `Build` the action has run once whether or not the thunk is called; every call of the thunk yields the same first outcome, which is `FromValue` of the value when there is no error |
| `Scenarios.BindStyleSuccessChaining` | errm/errmon_test.go:20-35 | `Bind(Bind(Return(3), Wrap(multiplyTwo)), Wrap(addThree))` unpacks to `(9, nil)` |
| `Scenarios.BindStyleAbortOnError` | errm/errmon_test.go:36-52 | with `multiplyTwo` failing, the chain unpacks to `0` and the (possibly decorated) multiply error, which `errors.Is` matches, whatever `addThree` would report |
| `Scenarios.FishStyleSuccessChaining` | errm/errmon_test.go:53-67 | `Fish(Wrap(multiplyTwo), Wrap(addThree))(3)` unpacks to `(9, nil)` |
| `Scenarios.FishStyleAbortOnError` | errm/errmon_test.go:68-83 | with `multiplyTwo` failing, the composition unpacks to `0` and an error matching the multiply error |
| `Scenarios.JoinStyleSuccessChaining` | errm/errmon_test.go:84-97 | `Join(Raise(Wrap(addThree))(Wrap(multiplyTwo)(3)))` unpacks to `(9, nil)` |
| `Scenarios.JoinStyleAbortOnError` | errm/errmon_test.go:98-112 | with `multiplyTwo` failing, the join unpacks to `0` and an error matching the multiply error |
| `Scenarios.LongerChain` | errm/errmon_test.go:115-129 | two wrapped steps and `Ensure(strconv.Itoa)` unpack to the decimal text of 9 and no error |
| `Scenarios.GotDefaultFromValue` | errm/errmon_test.go:132-144 | a failing step followed by `WithDefault(FromValue(-1))` unpacks to `(-1, nil)` |
| `Scenarios.GotDefaultFromGenerator` | errm/errmon_test.go:145-157 | a failing step followed by `WithDefault(Build(() => (-1, nil)))` unpacks to `(-1, nil)` |

## Left out

- `getFunctionName` (errm/errmon.go:140-142) names a function value through the Go runtime's reflection; the model takes the name as a string parameter of `Wrap`.
- Go's `%#v` formatting of the argument in the decorated message is library behaviour; the model takes the rendering as a parameter `render` of `Wrap`.
- `context.Context` has no meaning inside the package; `WithCtx` treats the context as an opaque value of any type.
- Data races on the unsynchronised `decorateError` variable are not modelled: the flag is sequential state, and `Wrap` receives the value in force when the wrapped function runs.
- Pointer identity and aliasing of `value *T` are not modelled: the pointer is an `Option`. Decorated errors are compared structurally, where Go compares the pointers `fmt.Errorf` returns; base errors carry an `id` standing for their identity.
- `errors.Is` is modelled for single-`%w` chains only; custom `Is` or multi-error `Unwrap` methods on user errors are not.
- Go panics (nil dereference of the zero monad, panics inside user functions) are preconditions: `WellFormed` and the `requires` of partial actions.
- `strconv.Itoa` in errm/errmon_test.go:121 is taken as a parameter.
- Errm.Fish: its contract states that the closure can be called wherever the first action's monad is well-formed, not the converse (Dafny exposes a lambda's precondition in one direction only); the value it computes is stated by `ErrmLaws.FishIsBind`.
- Errm.Raise: as for `Fish`, the closure's precondition is stated in one direction; its value is stated by `ErrmLaws.RaiseNesting`.
- Errm.Ensure: the inner `Wrap` receives an empty name, an empty rendering and a cleared flag instead of the runtime's name for the inner closure and the live flag; the error is always nil, so these are never consulted (`ErrmLaws.WrapIgnoresLabelOnSuccess`).
