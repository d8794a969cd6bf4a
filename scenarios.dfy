/**
 * The cases of errm/errmon_test.go, stated for every name the runtime could
 * report, every rendering of the argument and either setting of the
 * decoration flag.
 */
module Scenarios {
  import opened Wrappers
  import opened Errors
  import opened Errm
  import Builder

  /** `multiplyTwo`: doubles its input and reports `errorMultiply`, even beside a value. */
  function MultiplyTwo(errorMultiply: Option<Error>): int -> (int, Option<Error>) {
    n => (n * 2, errorMultiply)
  }

  /** `addThree`: adds three and reports `errorAdd`. */
  function AddThree(errorAdd: Option<Error>): int -> (int, Option<Error>) {
    n => (n + 3, errorAdd)
  }

  /** Bind style with both steps succeeding unpacks to `(9, nil)`. */
  lemma BindStyleSuccessChaining(mulName: string, addName: string, render: int -> string, decorate: bool)
    ensures Unpack(Bind(Bind(Return(3), Wrap(MultiplyTwo(None), mulName, render, decorate)),
                        Wrap(AddThree(None), addName, render, decorate)), 0) == (9, None)
  {
  }

  /**
   * Bind style with the first step failing unpacks to 0 and an error that
   * matches `errorMultiply`; what the second step would report is irrelevant.
   */
  lemma BindStyleAbortOnError(e: Error, errorAdd: Option<Error>, mulName: string, addName: string,
                              render: int -> string, decorate: bool)
    ensures var r := Unpack(Bind(Bind(Return(3), Wrap(MultiplyTwo(Some(e)), mulName, render, decorate)),
                                 Wrap(AddThree(errorAdd), addName, render, decorate)), 0);
      r == (0, Some(Decorate(e, mulName, render(3), decorate))) && Is(r.1.value, e)
  {
  }

  /** Fish style with both steps succeeding unpacks to `(9, nil)`. */
  lemma FishStyleSuccessChaining(mulName: string, addName: string, render: int -> string, decorate: bool)
    ensures var f := Fish(Wrap(MultiplyTwo(None), mulName, render, decorate),
                          Wrap(AddThree(None), addName, render, decorate));
      f.requires(3) && Unpack(f(3), 0) == (9, None)
  {
  }

  /** Fish style with the first step failing unpacks to 0 and an error matching `errorMultiply`. */
  lemma FishStyleAbortOnError(e: Error, errorAdd: Option<Error>, mulName: string, addName: string,
                              render: int -> string, decorate: bool)
    ensures var f := Fish(Wrap(MultiplyTwo(Some(e)), mulName, render, decorate),
                          Wrap(AddThree(errorAdd), addName, render, decorate));
      f.requires(3) && Unpack(f(3), 0).0 == 0 && Unpack(f(3), 0).1.Some? && Is(Unpack(f(3), 0).1.value, e)
  {
  }

  /** Join style with both steps succeeding unpacks to `(9, nil)`. */
  lemma JoinStyleSuccessChaining(mulName: string, addName: string, render: int -> string, decorate: bool)
    ensures var raised := Raise(Wrap(AddThree(None), addName, render, decorate));
      var mt := Wrap(MultiplyTwo(None), mulName, render, decorate)(3);
      raised.requires(mt) && WellFormed(raised(mt)) && Unpack(Join(raised(mt)), 0) == (9, None)
  {
  }

  /** Join style with the first step failing unpacks to 0 and an error matching `errorMultiply`. */
  lemma JoinStyleAbortOnError(e: Error, errorAdd: Option<Error>, mulName: string, addName: string,
                              render: int -> string, decorate: bool)
    ensures var raised := Raise(Wrap(AddThree(errorAdd), addName, render, decorate));
      var mt := Wrap(MultiplyTwo(Some(e)), mulName, render, decorate)(3);
      raised.requires(mt) && WellFormed(raised(mt)) &&
      Unpack(Join(raised(mt)), 0).0 == 0 && Unpack(Join(raised(mt)), 0).1.Some? &&
      Is(Unpack(Join(raised(mt)), 0).1.value, e)
  {
  }

  /** Two wrapped steps then `Ensure(strconv.Itoa)` unpack to the decimal text of 9. */
  lemma LongerChain(itoa: int -> string, name1: string, name2: string, render: int -> string, decorate: bool)
    ensures Unpack(Bind(Bind(Bind(Return(3),
                                  Wrap((n: int) => (n * 2, None), name1, render, decorate)),
                             Wrap((n: int) => (n + 3, None), name2, render, decorate)),
                        Ensure(itoa)), "") == (itoa(9), None)
  {
  }

  /** A failing step followed by `WithDefault(..., FromValue(-1))` unpacks to `(-1, nil)`. */
  lemma GotDefaultFromValue(e: Error, name: string, render: int -> string, decorate: bool)
    ensures Unpack(WithDefault(Bind(Return(3), Wrap((_: int) => (0, Some(e)), name, render, decorate)),
                               FromValue(-1)), 0) == (-1, None)
  {
  }

  /** A failing step followed by `WithDefault(..., Build(() => (-1, nil)))` unpacks to `(-1, nil)`. */
  method GotDefaultFromGenerator(e: Error, name: string, render: int -> string, decorate: bool)
    returns (r: (int, Option<Error>))
    ensures r == (-1, None)
  {
    var generator := new Builder.Generator((_: nat) => (-1, None));
    var fallback := Builder.Build(generator);
    r := Unpack(WithDefault(Bind(Return(3), Wrap((_: int) => (0, Some(e)), name, render, decorate)),
                            fallback), 0);
  }
}
