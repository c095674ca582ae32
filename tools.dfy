/** Adapters from exceptions to values (src/monads/tools.py).

    The callee of `try_result` / `try_option` is a function from its argument to
    an `Outcome`: it returns a value or raises an exception. An exception that
    the adapter does not watch propagates, which is again a `Raised` outcome.
    `isinstance(exc, kinds)` is membership of the exception's kind in a set
    (subclassing is not modelled). */
module Tools {
  import opened Exceptions
  import opened Monads

  /** The message of the `UnwrapError` raised by reading an unresolved `CatchResult`. */
  const NoResultMessage: string := "No exception caught and @= not called"

  /** What `catch @= value` rebinds `catch` to: an object whose `result` is `Ok(value)`. */
  datatype Success<T, E> = Success(result: Result<T, E>)

  /** The context manager: the watched kinds and a slot for the caught exception. */
  class CatchResult {
    const excs: set<Kind>
    var caught: Option<Exception>

    /** `CatchResult(*excs)`: nothing caught yet. */
    constructor (excs: set<Kind>)
      ensures this.excs == excs && caught == Null
    {
      this.excs := excs;
      caught := Null;
    }

    /** `__exit__`: an exception of a watched kind is stored and suppressed
        (the answer is true); no exception, or one of another kind, leaves
        the slot alone and is not suppressed. */
    method Exit(exc: Option<Exception>) returns (suppress: bool)
      modifies this
      ensures suppress <==> exc.Some? && exc.value.kind in excs
      ensures caught == (if suppress then exc else old(caught))
    {
      if exc.Some? && exc.value.kind in excs {
        caught := exc;
        return true;
      }
      return false;
    }

    /** `catch @= value`: leaves this object as it is and returns a fresh
        `Success` holding `Ok(value)`, to which the variable is rebound. */
    method AssignMatMul<U>(value: U) returns (s: Success<U, Exception>)
      ensures s.result == Ok(value)
    {
      s := Success(Ok(value));
    }

    /** The `result` property: `Err` of the caught exception, or `UnwrapError`
        when nothing was caught. It never yields `Ok`: an assignment rebinds
        the variable to a `Success` instead. */
    function ResultValue<T>(): (r: Outcome<Result<T, Exception>>)
      reads this
      ensures r.Returned? <==> caught.Some?
      ensures r.Returned? ==> r.value.Err? && r.value.err_value == caught.value
      ensures r.Raised? ==> r.exc == UnwrapError(NoResultMessage)
    {
      caught.Map(e => Err(e)).Unwrap(NoResultMessage)
    }
  }

  /** The message of the `TypeError` Python raises for `catch @= w` once
      `catch` names a `Success`, which has no `@=`. */
  const NoMatMulMessage: string := "unsupported operand type(s) for @=: '_Success'"

  /** The exception the body of a `CatchBlock` ends with. A second `@=`
      raises `TypeError` and the statements after it do not run. Otherwise
      the body's own `raise` is that exception, if it has one. */
  function BodyException<T>(assignments: seq<T>, raised: Option<Exception>): Option<Exception> {
    if |assignments| >= 2 then Some(Exception("TypeError", NoMatMulMessage)) else raised
  }

  /** The block
        with CatchResult(*excs) as catch:
            catch @= assignments[0]
            ...
            catch @= assignments[|assignments| - 1]
            raise exc             # only if `raised` is Some(exc)
        catch.result
      A watched exception is caught whether or not an assignment ran. Once the
      first assignment has run, `catch` names the `Success`, and the result is
      `Ok` of that first value. */
  method CatchBlock<T>(excs: set<Kind>, assignments: seq<T>, raised: Option<Exception>)
    returns (r: Outcome<Result<T, Exception>>)
    ensures var exc := BodyException(assignments, raised);
      exc.Some? && exc.value.kind !in excs ==> r == Raised(exc.value)
    ensures var exc := BodyException(assignments, raised);
      (exc.Null? || exc.value.kind in excs) && |assignments| > 0 ==> r == Returned(Ok(assignments[0]))
    ensures var exc := BodyException(assignments, raised);
      exc.Some? && exc.value.kind in excs && |assignments| == 0 ==> r == Returned(Err(exc.value))
    ensures BodyException(assignments, raised).Null? && |assignments| == 0 ==> r == Raised(UnwrapError(NoResultMessage))
  {
    var manager := new CatchResult(excs);
    var success: Option<Success<T, Exception>> := Null;
    var exc := raised;
    if |assignments| > 0 {
      var s := manager.AssignMatMul(assignments[0]);
      success := Some(s);
      if |assignments| > 1 {
        exc := Some(Exception("TypeError", NoMatMulMessage));
      }
    }
    var suppressed := manager.Exit(exc);
    if exc.Some? && !suppressed {
      return Raised(exc.value);
    }
    match success
    case Some(s) =>
      r := Returned(s.result);
    case Null =>
      r := manager.ResultValue();
  }

  /** `try_result(f, excs, arg)`: `Ok` of what `f` returns, `Err` of the very
      exception it raises when that is watched; any other exception propagates. */
  function TryResult<A, T>(f: A -> Outcome<T>, excs: set<Kind>, arg: A): (r: Outcome<Result<T, Exception>>)
    ensures r.Returned? && r.value.Ok? <==> f(arg).Returned?
    ensures f(arg).Returned? ==> r.value.ok_value == f(arg).value
    ensures r.Raised? <==> f(arg).Raised? && f(arg).exc.kind !in excs
    ensures f(arg).Raised? ==> r == Raised(f(arg).exc) || r == Returned(Err(f(arg).exc))
  {
    match f(arg)
    case Returned(v) => Returned(Ok(v))
    case Raised(e) => if e.kind in excs then Returned(Err(e)) else Raised(e)
  }

  /** `with CatchResult(*excs) as catch: catch @= f(arg)` gives the same
      result as `try_result(f, excs, arg)`. */
  method CatchCall<A, T>(f: A -> Outcome<T>, excs: set<Kind>, arg: A) returns (r: Outcome<Result<T, Exception>>)
    ensures r == TryResult(f, excs, arg)
  {
    match f(arg)
    case Returned(v) =>
      r := CatchBlock(excs, [v], Null);
    case Raised(e) =>
      r := CatchBlock(excs, [], Some(e));
  }

  /** `try_option(f, excs, arg)`: `Some` of what `f` returns, `Null` when it
      raises a watched exception; any other exception propagates. */
  function TryOption<A, T>(f: A -> Outcome<T>, excs: set<Kind>, arg: A): (r: Outcome<Option<T>>)
    ensures r.Returned? && r.value.Some? <==> f(arg).Returned?
    ensures f(arg).Returned? ==> r.value.value == f(arg).value
    ensures r.Raised? <==> f(arg).Raised? && f(arg).exc.kind !in excs
    ensures r.Raised? ==> r.exc == f(arg).exc
  {
    match f(arg)
    case Returned(v) => Returned(Some(v))
    case Raised(e) => if e.kind in excs then Returned(Null) else Raised(e)
  }

  /** `try_option` is `try_result` with the caught exception dropped by `ok()`. */
  lemma TryOptionIsTryResultOk<A, T>(f: A -> Outcome<T>, excs: set<Kind>, arg: A)
    ensures TryOption(f, excs, arg) == TryResult(f, excs, arg).MapValue((r: Result<T, Exception>) => r.OkSide())
  {
  }

  /** A Python value of type `T | None`. */
  datatype Nullable<T> = None | Value(v: T)

  /** `from_none(obj)`: `Null` for `None`, `Some(obj)` otherwise. */
  function FromNone<T>(obj: Nullable<T>): (r: Option<T>)
    ensures r.Null? <==> obj.None?
    ensures r.Some? ==> obj == Value(r.value)
  {
    if obj.None? then Null else Some(obj.v)
  }

  /** `from_none` is undone by `o.map(...).unwrap_or(None)`, and undoes it. */
  lemma FromNoneRoundTrip<T>(obj: Nullable<T>, o: Option<T>)
    ensures FromNone(obj).Map(x => Value(x)).UnwrapOr(None) == obj
    ensures FromNone(o.Map(x => Value(x)).UnwrapOr(None)) == o
  {
  }
}
