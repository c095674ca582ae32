/** The two container types of the library and their combinators.

    `Option<T>` (src/monads/option.py) is `Some(value)` or the payload-less
    `Null`; `Result<T, E>` (src/monads/result.py) is `Ok(ok_value)` or
    `Err(err_value)`. Each Python method, written once per variant class in the
    source, is one function here defined by a match on the variant. The two
    types convert into each other (`ok_or`, `ok`, `err`), so they share a module.

    Callbacks are total pure functions; a factory (a callable taking no
    arguments) is a `() -> T`. A method that raises `UnwrapError` returns an
    `Outcome`. The laws these functions obey are proved in OptionLaws,
    OptionOrder and ResultLaws. */
module Monads {
  import opened Exceptions

  datatype Option<T> = Some(value: T) | Null {

    predicate IsSomeAnd(f: T -> bool) {
      match this
      case Some(v) => f(v)
      case Null => false
    }

    predicate IsNullOr(f: T -> bool) {
      match this
      case Some(v) => f(v)
      case Null => true
    }

    /** The message only matters on `Null`; its default is `Null`'s. */
    function Unwrap(msg: string := "unwrap on Null"): Outcome<T> {
      match this
      case Some(v) => Returned(v)
      case Null => Raised(UnwrapError(msg))
    }

    function UnwrapOr(default: T): T {
      match this
      case Some(v) => v
      case Null => default
    }

    function UnwrapOrElse(factory: () -> T): T {
      match this
      case Some(v) => v
      case Null => factory()
    }

    function Map<U>(f: T -> U): Option<U> {
      match this
      case Some(v) => Some(f(v))
      case Null => Null
    }

    function MapInto<U>(f: T -> Option<U>): Option<U> {
      match this
      case Some(v) => f(v)
      case Null => Null
    }

    function MapOr<U>(f: T -> U, default: U): U {
      match this
      case Some(v) => f(v)
      case Null => default
    }

    function MapOrElse<U>(f: T -> U, default: () -> U): U {
      match this
      case Some(v) => f(v)
      case Null => default()
    }

    /** The callback's side effect is not modelled; only the returned receiver is. */
    function Inspect<R>(f: T -> R): Option<T> {
      this
    }

    function OkOr<E>(err: E): Result<T, E> {
      match this
      case Some(v) => Ok(v)
      case Null => Err(err)
    }

    function OkOrElse<E>(err: () -> E): Result<T, E> {
      match this
      case Some(v) => Ok(v)
      case Null => Err(err())
    }

    /** Exclusive or: the one present operand when exactly one is present, else `Null`. */
    function Xor(other: Option<T>): (r: Option<T>)
      ensures r.Some? <==> (Bool() != other.Bool())
      ensures r.Some? ==> r == (if Bool() then this else other)
    {
      match this
      case Some(_) => if !other.Bool() then this else Null
      case Null => other
    }

    /** Truthiness, `bool(o)`. */
    predicate Bool() {
      match this
      case Some(_) => true
      case Null => false
    }

    /** The elements iteration yields, `list(o)`. */
    function Items(): (r: seq<T>)
      ensures |r| == (if Bool() then 1 else 0)
      ensures forall i :: 0 <= i < |r| ==> Some? && r[i] == value
    {
      match this
      case Some(v) => [v]
      case Null => []
    }

    /** `self < other`, where `lt` is the payloads' `<`. */
    predicate Less(other: Option<T>, lt: (T, T) -> bool) {
      match this
      case Some(v) => if other.Bool() then lt(v, other.value) else false
      case Null => other.Bool()
    }

    /** `self <= other`, where `le` is the payloads' `<=`. */
    predicate LessEq(other: Option<T>, le: (T, T) -> bool) {
      match this
      case Some(v) => if other.Bool() then le(v, other.value) else false
      case Null => true
    }

    /** `self > other`, where `gt` is the payloads' `>`. */
    predicate Greater(other: Option<T>, gt: (T, T) -> bool) {
      match this
      case Some(v) => if other.Bool() then gt(v, other.value) else true
      case Null => false
    }

    /** `self >= other`, where `ge` is the payloads' `>=`. */
    predicate GreaterEq(other: Option<T>, ge: (T, T) -> bool) {
      match this
      case Some(v) => if other.Bool() then ge(v, other.value) else true
      case Null => !other.Bool()
    }
  }

  /** `flatten`, defined only on an option of options. */
  function Flatten<T>(o: Option<Option<T>>): Option<T> {
    match o
    case Some(inner) => inner
    case Null => Null
  }

  datatype Result<T, E> = Ok(ok_value: T) | Err(err_value: E) {

    predicate IsOkAnd(f: T -> bool) {
      match this
      case Ok(v) => f(v)
      case Err(_) => false
    }

    predicate IsErrAnd(f: E -> bool) {
      match this
      case Ok(_) => false
      case Err(e) => f(e)
    }

    /** `ok()`: the success side as an option. */
    function OkSide(): Option<T> {
      match this
      case Ok(v) => Some(v)
      case Err(_) => Null
    }

    /** `err()`: the failure side as an option. */
    function ErrSide(): Option<E> {
      match this
      case Ok(_) => Null
      case Err(e) => Some(e)
    }

    function Map<U>(f: T -> U): Result<U, E> {
      match this
      case Ok(v) => Ok(f(v))
      case Err(e) => Err(e)
    }

    function MapInto<U>(f: T -> Result<U, E>): Result<U, E> {
      match this
      case Ok(v) => f(v)
      case Err(e) => Err(e)
    }

    function MapOr<U>(f: T -> U, default: U): U {
      match this
      case Ok(v) => f(v)
      case Err(_) => default
    }

    function MapOrElse<U>(f: T -> U, default: () -> U): U {
      match this
      case Ok(v) => f(v)
      case Err(_) => default()
    }

    function MapErr<F>(f: E -> F): Result<T, F> {
      match this
      case Ok(v) => Ok(v)
      case Err(e) => Err(f(e))
    }

    function MapErrInto<F>(f: E -> Result<T, F>): Result<T, F> {
      match this
      case Ok(v) => Ok(v)
      case Err(e) => f(e)
    }

    /** The callback's side effect is not modelled; only the returned receiver is. */
    function Inspect<R>(f: T -> R): Result<T, E> {
      this
    }

    /** The callback's side effect is not modelled; only the returned receiver is. */
    function InspectErr<R>(f: E -> R): Result<T, E> {
      this
    }

    /** The message only matters on `Err`; its default is `Err`'s. */
    function Unwrap(msg: string := "unwrap on Err"): Outcome<T> {
      match this
      case Ok(v) => Returned(v)
      case Err(_) => Raised(UnwrapError(msg))
    }

    /** The message only matters on `Ok`; its default is `Ok`'s. */
    function UnwrapErr(msg: string := "unwrap_err on Ok"): Outcome<E> {
      match this
      case Ok(_) => Raised(UnwrapError(msg))
      case Err(e) => Returned(e)
    }

    function UnwrapOr(default: T): T {
      match this
      case Ok(v) => v
      case Err(_) => default
    }

    function UnwrapOrElse(factory: () -> T): T {
      match this
      case Ok(v) => v
      case Err(_) => factory()
    }

    /** Truthiness, `bool(r)`. */
    predicate Bool() {
      match this
      case Ok(_) => true
      case Err(_) => false
    }

    /** The elements iteration yields, `list(r)`. */
    function Items(): (r: seq<T>)
      ensures |r| == (if Bool() then 1 else 0)
      ensures forall i :: 0 <= i < |r| ==> Ok? && r[i] == ok_value
    {
      match this
      case Ok(v) => [v]
      case Err(_) => []
    }
  }
}
