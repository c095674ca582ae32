/** Laws of the `Result` combinators (src/monads/result.py).

    The success-side combinators mirror the error-side ones, and most of them
    are what the `Option` from `ok()` (or `err()`) would give: the lemmas state
    those correspondences, the functor and monad laws on both sides, and the
    round trips through `Option`. */
module ResultLaws {
  import opened Exceptions
  import opened Monads

  /** `ok()` and `err()` are complementary: exactly one is `Some`, and each
      holds the payload of its side. Together they determine the result. */
  lemma SidesComplementary<T, E>(r: Result<T, E>, v: T, e: E)
    ensures r.OkSide().Bool() != r.ErrSide().Bool()
    ensures r.OkSide() == Some(v) <==> r == Ok(v)
    ensures r.ErrSide() == Some(e) <==> r == Err(e)
  {
  }

  lemma SidesDetermineResult<T, E>(r: Result<T, E>, s: Result<T, E>)
    ensures r == s <==> r.OkSide() == s.OkSide() && r.ErrSide() == s.ErrSide()
  {
  }

  /** `is_ok_and` and `is_err_and` are `is_some_and` on the matching side, so
      each is false on the other variant. */
  lemma PredicatesLaw<T, E>(r: Result<T, E>, p: T -> bool, q: E -> bool)
    ensures r.IsOkAnd(p) == r.OkSide().IsSomeAnd(p)
    ensures r.IsErrAnd(q) == r.ErrSide().IsSomeAnd(q)
    ensures r.Err? ==> !r.IsOkAnd(p)
    ensures r.Ok? ==> !r.IsErrAnd(q)
  {
  }

  /** `map` changes only the success payload and `map_err` only the error payload. */
  lemma MapLaw<T, E, U, F>(r: Result<T, E>, f: T -> U, g: E -> F)
    ensures r.Map(f).OkSide() == r.OkSide().Map(f)
    ensures r.Map(f).ErrSide() == r.ErrSide()
    ensures r.MapErr(g).OkSide() == r.OkSide()
    ensures r.MapErr(g).ErrSide() == r.ErrSide().Map(g)
  {
  }

  lemma MapIdentity<T, E>(r: Result<T, E>)
    ensures r.Map(x => x) == r
    ensures r.MapErr(x => x) == r
  {
  }

  lemma MapComposition<T, E, U, V>(r: Result<T, E>, g: T -> U, f: U -> V)
    ensures r.Map(g).Map(f) == r.Map(x => f(g(x)))
  {
  }

  lemma MapErrComposition<T, E, F, G>(r: Result<T, E>, g: E -> F, f: F -> G)
    ensures r.MapErr(g).MapErr(f) == r.MapErr(x => f(g(x)))
  {
  }

  /** Mapping the two sides is independent of the order. */
  lemma MapCommutesWithMapErr<T, E, U, F>(r: Result<T, E>, f: T -> U, g: E -> F)
    ensures r.Map(f).MapErr(g) == r.MapErr(g).Map(f)
  {
  }

  /** `map_into` is bind on the success side: `Ok` is its unit, it passes an
      `Err` through, and it is associative. */
  lemma MapIntoLaw<T, E, U, V>(v: T, r: Result<T, E>, f: T -> Result<U, E>, g: U -> Result<V, E>)
    ensures Result<T, E>.Ok(v).MapInto(f) == f(v)
    ensures r.Err? ==> r.MapInto(f) == Err(r.err_value)
    ensures r.MapInto(x => Ok(x)) == r
    ensures r.MapInto(f).MapInto(g) == r.MapInto(x => f(x).MapInto(g))
  {
  }

  /** `map_err_into` is bind on the error side. */
  lemma MapErrIntoLaw<T, E, F, G>(e: E, r: Result<T, E>, f: E -> Result<T, F>, g: F -> Result<T, G>)
    ensures Result<T, E>.Err(e).MapErrInto(f) == f(e)
    ensures r.Ok? ==> r.MapErrInto(f) == Ok(r.ok_value)
    ensures r.MapErrInto(x => Err(x)) == r
    ensures r.MapErrInto(f).MapErrInto(g) == r.MapErrInto(x => f(x).MapErrInto(g))
  {
  }

  /** `map` and `map_err` are the binds with a wrapped result. */
  lemma MapIsMapInto<T, E, U, F>(r: Result<T, E>, f: T -> U, g: E -> F)
    ensures r.Map(f) == r.MapInto(x => Ok(f(x)))
    ensures r.MapErr(g) == r.MapErrInto(x => Err(g(x)))
  {
  }

  /** `unwrap` returns the success payload or raises `UnwrapError` ("unwrap on
      Err" by default); `unwrap_err` returns the error payload or raises
      ("unwrap_err on Ok" by default). With the same message, each is the
      option `unwrap` of the matching side. */
  lemma UnwrapLaw<T, E>(r: Result<T, E>, msg: string)
    ensures r.Unwrap(msg) == r.OkSide().Unwrap(msg)
    ensures r.UnwrapErr(msg) == r.ErrSide().Unwrap(msg)
    ensures r.Unwrap(msg).Returned? != r.UnwrapErr(msg).Returned?
    ensures r.Err? ==> r.Unwrap() == Raised(Exception("UnwrapError", "unwrap on Err"))
    ensures r.Ok? ==> r.UnwrapErr() == Raised(Exception("UnwrapError", "unwrap_err on Ok"))
  {
  }

  /** The defaulting combinators: the success-derived value on `Ok`, the
      default (or the factory's value) on `Err`. */
  lemma DefaultsLaw<T, E, U>(r: Result<T, E>, f: T -> U, default: T, factory: () -> T, mdefault: U, mfactory: () -> U)
    ensures r.UnwrapOr(default) == r.OkSide().UnwrapOr(default)
    ensures r.UnwrapOrElse(factory) == r.UnwrapOr(factory())
    ensures r.MapOr(f, mdefault) == r.Map(f).UnwrapOr(mdefault)
    ensures r.MapOrElse(f, mfactory) == r.Map(f).UnwrapOrElse(mfactory)
  {
  }

  /** On `Ok` the factories' results are irrelevant: they are never called. */
  lemma OkIgnoresFactories<T, E, U>(v: T, f: T -> U, a: () -> T, b: () -> T, c: () -> U, d: () -> U)
    ensures Result<T, E>.Ok(v).UnwrapOrElse(a) == Result<T, E>.Ok(v).UnwrapOrElse(b) == v
    ensures Result<T, E>.Ok(v).MapOrElse(f, c) == Result<T, E>.Ok(v).MapOrElse(f, d) == f(v)
  {
  }

  /** `inspect` and `inspect_err` give back the receiver on both variants. */
  lemma InspectLaw<T, E, R, S>(r: Result<T, E>, f: T -> R, g: E -> S)
    ensures r.Inspect(f) == r
    ensures r.InspectErr(g) == r
  {
  }

  /** Truthiness and iteration are those of `ok()`. */
  lemma IterationLaw<T, E>(r: Result<T, E>)
    ensures r.Bool() == r.OkSide().Bool()
    ensures r.Items() == r.OkSide().Items()
  {
  }

  /** Round trips with `Option`: `o.ok_or(e).ok() == o`, and `r.ok().ok_or(e)`
      is `r` with its error replaced by `e`. */
  lemma OptionRoundTrip<T, E>(o: Option<T>, r: Result<T, E>, e: E)
    ensures o.OkOr(e).OkSide() == o
    ensures r.OkSide().OkOr(e) == r.MapErr(_ => e)
    ensures r.Ok? ==> r.OkSide().OkOr(e) == r
  {
  }
}
