// The application's Rust-style Result type (util/Result.java): exactly one of
// Ok(value) or Err(error), with total combinators. The two unwrapping
// operations throw a RuntimeException on the wrong variant, modelled as an
// Outcome.
module ResultModel {
  import opened Wrappers

  datatype Result<T, E> = Ok(value: T) | Err(error: E)
  {
    predicate IsOk() { Ok? }

    predicate IsErr() { Err? }

    /** The Ok value; on Err the call throws. */
    function Unwrap(): (r: Outcome<T>)
      ensures r.Returned? <==> IsOk()
      ensures r.Returned? ==> r.value == value
      ensures r.Threw? ==> r.exception == "Called unwrap on Err"
    {
      if Ok? then Returned(value) else Threw("Called unwrap on Err")
    }

    /** The Ok value, or `default` for Err. */
    function UnwrapOr(default: T): (r: T)
      ensures IsOk() ==> r == value
      ensures IsErr() ==> r == default
    {
      if Ok? then value else default
    }

    /** The Err value; on Ok the call throws. */
    function UnwrapErr(): (r: Outcome<E>)
      ensures r.Returned? <==> IsErr()
      ensures r.Returned? ==> r.value == error
      ensures r.Threw? ==> r.exception == "Called unwrapErr on Ok"
    {
      if Err? then Returned(error) else Threw("Called unwrapErr on Ok")
    }

    /** Applies `f` to an Ok value; an Err passes through unchanged. */
    function Map<U>(f: T -> U): (r: Result<U, E>)
      ensures r.IsOk() == IsOk()
      ensures IsOk() ==> r.value == f(value)
      ensures IsErr() ==> r.error == error
    {
      if Ok? then Ok(f(value)) else Err(error)
    }

    /** Applies `f` to an Err value; an Ok passes through unchanged. */
    function MapErr<F>(f: E -> F): (r: Result<T, F>)
      ensures r.IsErr() == IsErr()
      ensures IsErr() ==> r.error == f(error)
      ensures IsOk() ==> r.value == value
    {
      if Err? then Err(f(error)) else Ok(value)
    }
  }

  /** Every Result is exactly one of Ok or Err. */
  lemma OkErrComplementary<T, E>(r: Result<T, E>)
    ensures r.IsOk() != r.IsErr()
  {
  }

  /** `unwrap` succeeds exactly when `unwrapErr` throws, and `unwrapOr` agrees with a successful `unwrap`. */
  lemma UnwrapMirror<T, E>(r: Result<T, E>, default: T)
    ensures r.Unwrap().Returned? <==> r.UnwrapErr().Threw?
    ensures r.Unwrap().Returned? ==> r.UnwrapOr(default) == r.Unwrap().value
    ensures r.Unwrap().Threw? ==> r.UnwrapOr(default) == default
  {
  }

  /** Mapping twice is mapping by the composition, and `mapErr` never disturbs an Ok. */
  lemma MapLaws<T, U, V, E, F>(r: Result<T, E>, f: T -> U, g: U -> V, h: E -> F)
    ensures r.Map(f).Map(g) == r.Map(x => g(f(x)))
    ensures r.Map(x => x) == r
    ensures r.IsOk() ==> r.MapErr(h).Map(f) == Ok(f(r.value))
  {
  }
}
