/** Laws of the `Option` combinators (src/monads/option.py).

    Each lemma states what a combinator promises on both variants and, where
    the combinators are related, the law that connects them: functor and monad
    laws for `map` and `map_into`, the defaulting combinators as `map`
    followed by `unwrap_or`, the predicates as quantifiers over iteration, and
    the round trip through `Result`. */
module OptionLaws {
  import opened Exceptions
  import opened Monads

  /** `unwrap` returns the payload of `Some` and raises `UnwrapError` on `Null`,
      with the caller's message or "unwrap on Null". */
  lemma UnwrapLaw<T>(o: Option<T>, msg: string)
    ensures o.Unwrap(msg).Returned? <==> o.Bool()
    ensures o.Some? ==> o.Unwrap(msg) == Returned(o.value)
    ensures o.Null? ==> o.Unwrap(msg) == Raised(UnwrapError(msg))
    ensures o.Null? ==> o.Unwrap() == Raised(Exception("UnwrapError", "unwrap on Null"))
  {
  }

  /** `unwrap_or` and `unwrap_or_else` agree with `unwrap` wherever it returns,
      and fall back to the default (the factory's value) where it raises. */
  lemma UnwrapOrLaw<T>(o: Option<T>, default: T, factory: () -> T)
    ensures o.UnwrapOr(default) == (if o.Unwrap().Returned? then o.Unwrap().value else default)
    ensures o.UnwrapOrElse(factory) == o.UnwrapOr(factory())
  {
  }

  /** On `Some` the factory's result is irrelevant: it is never called. */
  lemma UnwrapOrElseIgnoresFactory<T>(v: T, f: () -> T, g: () -> T)
    ensures Some(v).UnwrapOrElse(f) == Some(v).UnwrapOrElse(g) == v
  {
  }

  /** `map` keeps the variant and applies `f` to the payload. */
  lemma MapLaw<T, U>(o: Option<T>, f: T -> U, msg: string)
    ensures o.Map(f).Bool() == o.Bool()
    ensures o.Map(f).Unwrap(msg) == o.Unwrap(msg).MapValue(f)
  {
  }

  lemma MapIdentity<T>(o: Option<T>)
    ensures o.Map(x => x) == o
  {
  }

  lemma MapComposition<T, U, V>(o: Option<T>, g: T -> U, f: U -> V)
    ensures o.Map(g).Map(f) == o.Map(x => f(g(x)))
  {
  }

  /** `map_into` is the monadic bind: `Some` is its unit on both sides and it is associative. */
  lemma MapIntoLaw<T, U, V>(v: T, o: Option<T>, f: T -> Option<U>, g: U -> Option<V>)
    ensures Some(v).MapInto(f) == f(v)
    ensures o.Null? ==> o.MapInto(f) == Null
    ensures o.MapInto(x => Some(x)) == o
    ensures o.MapInto(f).MapInto(g) == o.MapInto(x => f(x).MapInto(g))
  {
  }

  /** `map` is `map_into` with a result wrapped in `Some`. */
  lemma MapIsMapIntoSome<T, U>(o: Option<T>, f: T -> U)
    ensures o.Map(f) == o.MapInto(x => Some(f(x)))
  {
  }

  /** `flatten` unwraps one level of nesting: `map_into` with the identity. */
  lemma FlattenLaw<T>(inner: Option<T>, o: Option<Option<T>>)
    ensures Flatten(Some(inner)) == inner
    ensures o.Null? ==> Flatten(o) == Null
    ensures Flatten(o) == o.MapInto(x => x)
  {
  }

  /** `map_or` and `map_or_else` are `map` followed by the defaulting unwrap. */
  lemma MapOrLaw<T, U>(o: Option<T>, f: T -> U, default: U, factory: () -> U)
    ensures o.MapOr(f, default) == o.Map(f).UnwrapOr(default)
    ensures o.MapOrElse(f, factory) == o.Map(f).UnwrapOrElse(factory)
  {
  }

  /** `inspect` gives back the receiver on both variants. */
  lemma InspectLaw<T, R>(o: Option<T>, f: T -> R)
    ensures o.Inspect(f) == o
  {
  }

  /** `is_some_and(p)`: some element of the iteration satisfies `p`;
      `is_null_or(p)`: every element does. The two are dual. */
  lemma PredicatesLaw<T>(o: Option<T>, p: T -> bool)
    ensures o.IsSomeAnd(p) <==> exists i :: 0 <= i < |o.Items()| && p(o.Items()[i])
    ensures o.IsNullOr(p) <==> forall i :: 0 <= i < |o.Items()| ==> p(o.Items()[i])
    ensures o.IsNullOr(p) <==> !o.IsSomeAnd(x => !p(x))
    ensures o.Null? ==> !o.IsSomeAnd(p) && o.IsNullOr(p)
  {
    if o.Some? {
      assert o.Items()[0] == o.value;
    }
  }

  /** `ok_or(e)` and `ok_or_else(g)` turn `Some(v)` into `Ok(v)` and `Null`
      into `Err(e)` (`Err(g())`); `ok()` undoes the conversion. */
  lemma OkOrLaw<T, E>(o: Option<T>, e: E, g: () -> E)
    ensures o.OkOr(e).Bool() == o.Bool()
    ensures o.OkOr(e).OkSide() == o
    ensures o.OkOr(e).ErrSide() == (if o.Bool() then Null else Some(e))
    ensures o.OkOrElse(g) == o.OkOr(g())
  {
  }

  /** The truth table of `xor`. */
  lemma XorTable<T>(x: T, y: T, o: Option<T>)
    ensures Some(x).Xor(Null) == Some(x)
    ensures Some(x).Xor(Some(y)) == Null
    ensures Option<T>.Null.Xor(o) == o
  {
  }

  /** `xor` is symmetric and cancels an operand with itself. */
  lemma XorSymmetric<T>(a: Option<T>, b: Option<T>)
    ensures a.Xor(b) == b.Xor(a)
    ensures a.Xor(a) == Null
  {
  }
}
