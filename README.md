# py-monads in Dafny

A model of the Python library `monads`. It provides two closed sum types and
the adapters that turn exceptions into them:

- `Option<T>` is `Some(value)` or the payload-less `Null`. It comes with about
  twenty combinators: `is_some_and`, `is_null_or`, the `unwrap` family, the
  `map` family, `inspect`, `ok_or`, `ok_or_else`, `xor` and `flatten`. It also
  has truthiness, iteration and an order in which `Null` comes first.
- `Result<T, E>` is `Ok(ok_value)` or `Err(err_value)`. Its combinators come in
  pairs, one for the success side and one for the error side. `ok()` and
  `err()` convert a result into an option.
- `CatchResult` is a context manager that catches exceptions of the watched
  kinds into an `Err`. `try_result`, `try_option` and `from_none` adapt a
  single call or value.

Files:

- `exceptions.dfy` (module `Exceptions`): exceptions as values. An
  `Exception` has a kind, which is its class name, and a message. Every
  operation that may raise returns an `Outcome<T> = Returned(value) |
  Raised(exc)`. `UnwrapError(msg)` is the exception the library raises.
- `monads.dfy` (module `Monads`): the datatypes `Option` and `Result`, with
  one function per Python method. The function is defined by a match on the
  variant, which replaces the method pair written once per variant class. The
  two types share a module because each converts into the other.
- `option_laws.dfy`, `option_order.dfy` and `result_laws.dfy`: what the
  combinators promise, stated and proved as lemmas. These include the functor
  and monad laws, the `xor` truth table, and the round trips between the two
  types. They also prove that the order of options is Python's tuple order on
  the keys `(0,)` for `Null` and `(1, v)` for `Some(v)`, for payload operators
  that are false (`<`, `>`) and true (`<=`, `>=`) on equal payloads. A payload
  such as `float('nan')`, for which `x <= x` is false, breaks that agreement:
  the option compares the payloads, while the tuple skips identical items.
- `tools.dfy` (module `Tools`): `CatchResult` is a class whose `caught` slot
  is updated by `Exit`. The `with` block around it is modelled by the method
  `CatchBlock`, and `CatchCall` proves that the block agrees with
  `try_result`. The module also holds `TryResult`, `TryOption` and
  `FromNone`.

Modelling choices:

- A callback is a total pure function, and a factory is a `() -> T`. The
  callee of the adapters is a function `A -> Outcome<T>`, applied to its
  argument.
- `isinstance(exc, kinds)` is modelled as membership of the exception's kind
  in a set.
- The default `unwrap` messages are Dafny default parameter values. Each is
  the default message of the variant that raises.
- The Python `None` accepted by `from_none` is the `None` of `Nullable<T>`,
  and `T` stands for the Python values other than `None`. Python has a single
  `None`, so a nested `Value(None)` has no Python counterpart.
- Each comparison method receives the payloads' own operator (`<`, `<=`, `>`,
  `>=`), because that is the operator the Python method applies.

Two behaviours of the code that the model keeps:

- `Result` has no order. `Ok` and `Err` are plain frozen `attrs` classes with
  no comparison methods (src/monads/result.py:28-30, 93-95).
- If the block runs `catch @= v` and then raises a watched exception,
  `__exit__` still stores the exception. But `catch` has already been rebound
  to the `_Success` object (src/monads/tools.py:22-24, 58-59), so
  `catch.result` is `Ok(v)`. A second `catch @= w` raises `TypeError`,
  because `_Success` has no `@=`; the statements after it do not run.
  `CatchBlock` states these cases.

## Model

| member | source | states |
|---|---|---|
| `Monads.Option.IsSomeAnd` | src/monads/option.py:48-49 | `Some(v)` gives `p(v)`, `Null` (option.py:137-138) gives false; `OptionLaws.PredicatesLaw` proves it is "some iterated element satisfies `p`" |
| `Monads.Option.IsNullOr` | src/monads/option.py:51-52 | `Some(v)` gives `p(v)`, `Null` (option.py:140-141) gives true; `OptionLaws.PredicatesLaw` proves it is "every iterated element satisfies `p`" and the dual of `is_some_and` |
| `Monads.Option.Unwrap` | src/monads/option.py:54-55 | the payload of `Some`, `UnwrapError(msg)` raised on `Null` (option.py:143-144); stated by `OptionLaws.UnwrapLaw` |
| `Monads.Option.UnwrapOr` | src/monads/option.py:57-58 | the payload of `Some`, the default on `Null` (option.py:146-147); stated by `OptionLaws.UnwrapOrLaw` |
| `Monads.Option.UnwrapOrElse` | src/monads/option.py:60-61 | the payload of `Some`, the factory's value on `Null` (option.py:149-150); stated by `OptionLaws.UnwrapOrLaw` and `OptionLaws.UnwrapOrElseIgnoresFactory` |
| `Monads.Option.Map` | src/monads/option.py:63-64 | `Some(f(v))` on `Some(v)`, `Null` on `Null` (option.py:152-153); stated by `OptionLaws.MapLaw`, `MapIdentity` and `MapComposition` |
| `Monads.Option.MapInto` | src/monads/option.py:66-67 | `f(v)` on `Some(v)`, `Null` on `Null` (option.py:155-156); stated by `OptionLaws.MapIntoLaw` |
| `Monads.Option.MapOr` | src/monads/option.py:69-70 | `f(v)` on `Some(v)`, the default on `Null` (option.py:158-159); stated by `OptionLaws.MapOrLaw` |
| `Monads.Option.MapOrElse` | src/monads/option.py:72-73 | `f(v)` on `Some(v)`, the factory's value on `Null` (option.py:161-162); stated by `OptionLaws.MapOrLaw` |
| `Monads.Option.Inspect` | src/monads/option.py:75-77 | the receiver itself on both variants (option.py:164-165); stated by `OptionLaws.InspectLaw` |
| `Monads.Option.OkOr` | src/monads/option.py:79-82 | `Ok(v)` on `Some(v)`, `Err(err)` on `Null` (option.py:167-170); stated by `OptionLaws.OkOrLaw` and `ResultLaws.OptionRoundTrip` |
| `Monads.Option.OkOrElse` | src/monads/option.py:84-87 | `Ok(v)` on `Some(v)`, `Err` of the factory's value on `Null` (option.py:172-175); stated by `OptionLaws.OkOrLaw` |
| `Monads.Option.Bool` | src/monads/option.py:106-107 | true on `Some`, false on `Null` (option.py:187-188); `Monads.Option.Items` and `OptionLaws.UnwrapLaw` state it against iteration and `unwrap` |
| `Monads.Option.Less` | src/monads/option.py:115-116 | `Some` compares payloads with `<`; `Null` is below exactly the `Some` (option.py:196-197); stated by `OptionOrder.NullIsLeast`, `SomeComparesPayloads`, `OrderMatchesKeys` and `LessIsStrictTotalOrder` |
| `Monads.Option.LessEq` | src/monads/option.py:118-119 | `Some` compares payloads with `<=` and is never `<=` `Null`; `Null <= o` always (option.py:199-200); stated by `OptionOrder.NullIsLeast`, `SomeComparesPayloads` and `OrderMatchesKeys` |
| `Monads.Option.Greater` | src/monads/option.py:109-110 | `Some` compares payloads with `>` and is above `Null`; `Null > o` never (option.py:190-191); stated by `OptionOrder.NullIsLeast`, `OrderMatchesKeys` and `ReflectedOperators` |
| `Monads.Option.GreaterEq` | src/monads/option.py:112-113 | `Some` compares payloads with `>=` and is `>=` `Null`; `Null >= o` exactly for `Null` (option.py:193-194); stated by `OptionOrder.NullIsLeast`, `OrderMatchesKeys` and `ReflectedOperators` |
| `Monads.Flatten` | src/monads/option.py:100-101 | the inner option of `Some(inner)`, `Null` on `Null` (option.py:180-181); stated by `OptionLaws.FlattenLaw` |
| `Monads.Result.IsOkAnd` | src/monads/result.py:33-34 | `p(v)` on `Ok(v)`, false on `Err` (result.py:98-99); stated by `ResultLaws.PredicatesLaw` |
| `Monads.Result.IsErrAnd` | src/monads/result.py:101-102 | `q(e)` on `Err(e)`, false on `Ok` (result.py:36-37); stated by `ResultLaws.PredicatesLaw` |
| `Monads.Result.OkSide` | src/monads/result.py:39-42 | `ok()`: `Some(v)` on `Ok(v)`, `Null` on `Err` (result.py:104-107); stated by `ResultLaws.SidesComplementary`, `SidesDetermineResult` and `OptionRoundTrip` |
| `Monads.Result.ErrSide` | src/monads/result.py:109-112 | `err()`: `Some(e)` on `Err(e)`, `Null` on `Ok` (result.py:44-47); stated by `ResultLaws.SidesComplementary` and `SidesDetermineResult` |
| `Monads.Result.Map` | src/monads/result.py:49-50 | `Ok(f(v))` on `Ok(v)`, the `Err` unchanged (result.py:114-115); stated by `ResultLaws.MapLaw`, `MapIdentity`, `MapComposition` and `MapCommutesWithMapErr` |
| `Monads.Result.MapInto` | src/monads/result.py:52-53 | `f(v)` on `Ok(v)`, the `Err` unchanged (result.py:117-118); stated by `ResultLaws.MapIntoLaw` and `MapIsMapInto` |
| `Monads.Result.MapOr` | src/monads/result.py:55-56 | `f(v)` on `Ok(v)`, the default on `Err` (result.py:120-121); stated by `ResultLaws.DefaultsLaw` |
| `Monads.Result.MapOrElse` | src/monads/result.py:58-59 | `f(v)` on `Ok(v)`, the factory's value on `Err` (result.py:123-124); stated by `ResultLaws.DefaultsLaw` and `OkIgnoresFactories` |
| `Monads.Result.MapErr` | src/monads/result.py:126-127 | `Err(f(e))` on `Err(e)`, the `Ok` unchanged (result.py:61-62); stated by `ResultLaws.MapLaw`, `MapIdentity`, `MapErrComposition` and `MapCommutesWithMapErr` |
| `Monads.Result.MapErrInto` | src/monads/result.py:129-130 | `f(e)` on `Err(e)`, the `Ok` unchanged (result.py:64-65); stated by `ResultLaws.MapErrIntoLaw` and `MapIsMapInto` |
| `Monads.Result.Inspect` | src/monads/result.py:67-69 | the receiver itself on both variants (result.py:132-133); stated by `ResultLaws.InspectLaw` |
| `Monads.Result.InspectErr` | src/monads/result.py:135-137 | the receiver itself on both variants (result.py:71-72); stated by `ResultLaws.InspectLaw` |
| `Monads.Result.Unwrap` | src/monads/result.py:74-75 | the payload of `Ok`, `UnwrapError(msg)` raised on `Err` (result.py:139-140); stated by `ResultLaws.UnwrapLaw` |
| `Monads.Result.UnwrapErr` | src/monads/result.py:142-143 | the payload of `Err`, `UnwrapError(msg)` raised on `Ok` (result.py:77-78); stated by `ResultLaws.UnwrapLaw` |
| `Monads.Result.UnwrapOr` | src/monads/result.py:80-81 | the payload of `Ok`, the default on `Err` (result.py:145-146); stated by `ResultLaws.DefaultsLaw` |
| `Monads.Result.UnwrapOrElse` | src/monads/result.py:83-84 | the payload of `Ok`, the factory's value on `Err` (result.py:148-149); stated by `ResultLaws.DefaultsLaw` and `OkIgnoresFactories` |
| `Monads.Result.Bool` | src/monads/result.py:89-90 | true on `Ok`, false on `Err` (result.py:155-156); stated by `ResultLaws.IterationLaw` |
| `Tools.Success` | src/monads/tools.py:22-24 | the object `@=` rebinds `catch` to, holding only `result`; `Tools.CatchResult.AssignMatMul` states that its `result` is `Ok(value)` |
| `Monads.Option.Xor` | src/monads/option.py:94-98 | the result is present exactly when exactly one operand is present, and then it is that operand |
| `Monads.Option.Items` | src/monads/option.py:103-107 | iteration yields one element, the payload, when the option is truthy (`Some`) and none otherwise |
| `Monads.Result.Items` | src/monads/result.py:86-90 | iteration yields `ok_value` once when the result is truthy (`Ok`) and nothing otherwise |
| `OptionLaws.UnwrapLaw` | src/monads/option.py:143-144 | `unwrap` returns exactly when the option is `Some`, giving the payload; on `Null` it raises `UnwrapError(msg)`, and the default message is "unwrap on Null" |
| `OptionLaws.UnwrapOrLaw` | src/monads/option.py:146-150 | `unwrap_or(d)` is what `unwrap` returns, or `d` where it raises; `unwrap_or_else(g)` is `unwrap_or(g())` |
| `OptionLaws.UnwrapOrElseIgnoresFactory` | src/monads/option.py:60-61 | on `Some(v)` the result is `v` whatever the factory, so the factory plays no part |
| `OptionLaws.MapLaw` | src/monads/option.py:63-64 | `map` keeps the variant, and unwrapping after `map(f)` is `f` applied to what `unwrap` returns |
| `OptionLaws.MapIdentity` | src/monads/option.py:152-153 | mapping the identity gives the option back |
| `OptionLaws.MapComposition` | src/monads/option.py:63-64 | `map(g).map(f)` equals `map(f∘g)` |
| `OptionLaws.MapIntoLaw` | src/monads/option.py:66-67 | `Some(v).map_into(f)` is `f(v)`; `Null.map_into(f)` is `Null` whatever `f` is; `Some` is a right unit; `map_into` is associative |
| `OptionLaws.MapIsMapIntoSome` | src/monads/option.py:155-156 | `map(f)` is `map_into` of `f` wrapped in `Some` |
| `OptionLaws.FlattenLaw` | src/monads/option.py:100-101 | `flatten` of `Some(inner)` is `inner`, and of `Null` is `Null`; `flatten` is `map_into` of the identity |
| `OptionLaws.MapOrLaw` | src/monads/option.py:69-73 | `map_or(f, d)` is `map(f).unwrap_or(d)`, and `map_or_else(f, g)` is `map(f).unwrap_or_else(g)` |
| `OptionLaws.InspectLaw` | src/monads/option.py:75-77 | `inspect` returns the receiver unchanged |
| `OptionLaws.PredicatesLaw` | src/monads/option.py:48-52 | `is_some_and(p)` holds iff some iterated element satisfies `p`, and `is_null_or(p)` holds iff every one does; the two are dual; on `Null` they are false and true |
| `OptionLaws.OkOrLaw` | src/monads/option.py:79-87 | `ok_or(e)` keeps truthiness; its `ok()` is the option again; its `err()` is `Some(e)` exactly for `Null`; `ok_or_else(g)` is `ok_or(g())` |
| `OptionLaws.XorTable` | src/monads/option.py:89-98 | `Some(x).xor(Null)` is `Some(x)`, `Some(x).xor(Some(y))` is `Null`, and `Null.xor(o)` is `o` |
| `OptionLaws.XorSymmetric` | src/monads/option.py:177-178 | `a.xor(b)` equals `b.xor(a)`, and `a.xor(a)` is `Null` |
| `OptionOrder.NullIsLeast` | src/monads/option.py:190-200 | `Null < o` iff `o` is `Some`; `Null <= o` always; `Null > o` never; `Null >= o` iff `o` is `Null`; `Some(x)` is `>` and `>=` `Null` and never `<` or `<=` it |
| `OptionOrder.SomeComparesPayloads` | src/monads/option.py:109-119 | two `Some` compare by their payloads under the same operator |
| `OptionOrder.OrderMatchesKeys` | src/monads/option.py:115-119 | under each operator, comparing options equals Python tuple comparison of `(0,)` / `(1, v)`, given that the payloads' strict operator is false and non-strict operator true on equal payloads |
| `OptionOrder.ReflectedOperators` | src/monads/option.py:109-119 | `a > b` is `b < a` when the payloads' `>` is their `<` reflected, and `a >= b` is `b <= a` when the payloads' `>=` is their `<=` reflected |
| `OptionOrder.LessIsStrictTotalOrder` | src/monads/option.py:196-197 | `<` on options is a strict total order whenever `<` on payloads is |
| `ResultLaws.SidesComplementary` | src/monads/result.py:39-47 | exactly one of `ok()` and `err()` is `Some`; `ok()` is `Some(v)` iff the result is `Ok(v)`, and `err()` is `Some(e)` iff it is `Err(e)` |
| `ResultLaws.SidesDetermineResult` | src/monads/result.py:104-112 | two results are equal iff their `ok()` and their `err()` are equal |
| `ResultLaws.PredicatesLaw` | src/monads/result.py:33-37 | `is_ok_and(p)` is `ok().is_some_and(p)` and `is_err_and(q)` is `err().is_some_and(q)`, so each is false on the other variant |
| `ResultLaws.MapLaw` | src/monads/result.py:49-50 | `map` transforms only the `ok()` side, and `map_err` only the `err()` side |
| `ResultLaws.MapIdentity` | src/monads/result.py:114-115 | `map` and `map_err` of the identity give the result back |
| `ResultLaws.MapComposition` | src/monads/result.py:49-50 | `map(g).map(f)` equals `map(f∘g)` |
| `ResultLaws.MapErrComposition` | src/monads/result.py:126-127 | `map_err(g).map_err(f)` equals `map_err(f∘g)` |
| `ResultLaws.MapCommutesWithMapErr` | src/monads/result.py:61-62 | `map(f).map_err(g)` equals `map_err(g).map(f)` |
| `ResultLaws.MapIntoLaw` | src/monads/result.py:52-53 | `Ok(v).map_into(f)` is `f(v)`; `Err(e).map_into(f)` is `Err(e)`; `Ok` is a right unit; `map_into` is associative |
| `ResultLaws.MapErrIntoLaw` | src/monads/result.py:129-130 | `Err(e).map_err_into(f)` is `f(e)`; `Ok(v).map_err_into(f)` is `Ok(v)`; `Err` is a right unit; `map_err_into` is associative |
| `ResultLaws.MapIsMapInto` | src/monads/result.py:117-118 | `map(f)` is `map_into` of `f` wrapped in `Ok`, and `map_err(g)` is `map_err_into` of `g` wrapped in `Err` |
| `ResultLaws.UnwrapLaw` | src/monads/result.py:74-78 | `unwrap` is `ok().unwrap` and `unwrap_err` is `err().unwrap` with the same message; exactly one of them returns; the default messages are "unwrap on Err" and "unwrap_err on Ok" |
| `ResultLaws.DefaultsLaw` | src/monads/result.py:145-149 | `unwrap_or` is `ok().unwrap_or`; `unwrap_or_else(g)` is `unwrap_or(g())`; `map_or` and `map_or_else` are `map` followed by the defaulting unwrap |
| `ResultLaws.OkIgnoresFactories` | src/monads/result.py:55-59 | on `Ok(v)` the results of `unwrap_or_else` and `map_or_else` are `v` and `f(v)` whatever the factory |
| `ResultLaws.InspectLaw` | src/monads/result.py:132-137 | `inspect` and `inspect_err` return the receiver unchanged |
| `ResultLaws.IterationLaw` | src/monads/result.py:151-156 | truthiness and iteration of a result are those of its `ok()` |
| `ResultLaws.OptionRoundTrip` | src/monads/result.py:39-42 | `o.ok_or(e).ok()` is `o`; `r.ok().ok_or(e)` is `r` with its error replaced by `e`, and on `Ok` it is `r` |
| `Tools.CatchResult.constructor` | src/monads/tools.py:44-46 | a new `CatchResult` holds the watched kinds and an empty slot |
| `Tools.CatchResult.Exit` | src/monads/tools.py:51-56 | an exception of a watched kind is stored in the slot and suppressed; no exception, or another kind, leaves the slot alone and propagates |
| `Tools.CatchResult.AssignMatMul` | src/monads/tools.py:58-59 | `@=` returns a new object whose `result` is `Ok(value)` and does not touch the `CatchResult` |
| `Tools.CatchResult.ResultValue` | src/monads/tools.py:61-63 | `result` returns exactly when an exception was caught, and then it is `Err` of that exception; otherwise it raises `UnwrapError("No exception caught and @= not called")` |
| `Tools.CatchBlock` | src/monads/tools.py:22-63 | the `with` block with any number of `@=` and an optional `raise`: a second `@=` raises `TypeError` and ends the body; an exception of an unwatched kind propagates; once an `@=` has run the result is `Ok` of its value, even if a watched exception follows; a caught exception without `@=` gives `Err` of it; with neither, reading `result` raises `UnwrapError` |
| `Tools.CatchCall` | src/monads/tools.py:28-40 | `with CatchResult(*excs) as catch: catch @= f(arg)` yields exactly `try_result(f, excs, arg)` |
| `Tools.TryResult` | src/monads/tools.py:66-78 | `Ok` of the returned value; the same exception in `Err` when its kind is watched; any other exception propagates |
| `Tools.TryOption` | src/monads/tools.py:81-93 | `Some` of the returned value; `Null` for a watched exception; any other exception propagates unchanged |
| `Tools.TryOptionIsTryResultOk` | src/monads/tools.py:89-93 | `try_option` is `try_result` followed by `ok()` |
| `Tools.FromNone` | src/monads/tools.py:100-102 | `Null` exactly for `None`, otherwise `Some` of the object itself, so never `Some(None)` for a `T` that excludes `None` |
| `Tools.FromNoneRoundTrip` | src/monads/tools.py:96-102 | `from_none` and `o.map(Value).unwrap_or(None)` are inverse to each other |

## Left out

- `collect_options` and `collect_results` are not part of this model. src/monads/tools.py does not define them: its `__all__` names only four functions and classes.
- An order on `Result`: the code defines no comparison methods on `Ok` or `Err`.
- The side effects of the callbacks given to `inspect` and `inspect_err`; only the returned receiver is modelled.
- Exceptions raised inside user callbacks (predicates, mappers, factories): callbacks are total pure functions.
- The context-manager protocol itself (`__enter__`) and the exception class hierarchy: a kind matches only itself, with no subclassing.
- `Null` as a singleton object, `Null.__new__` and `__repr__`: `Null` is a nullary constructor, and structural equality gives the same observable results.
- Mixed payload types. `xor` takes an option of the same payload type. `unwrap_or` and `map_or` defaults have the payload's or mapper's type. `map_into` and `map_err_into` keep the untouched side's type instead of Python's union of result types.
- Python's `*args`/`**kwargs` for the adapters' callee: the callee takes one argument, which may be a tuple.
- `Tools.CatchBlock`: the `TypeError` of a second `@=` carries a fixed message, and a value that defines `__rmatmul__` (which would make the second `@=` succeed) is not modelled.
- `OptionOrder.ItemCompare`: comparing a tag with a payload is false instead of raising `TypeError`; this never happens between the keys of two options.
- Type aliases, protocols and typing-only code (src/monads/_types.py, src/monads/types.py, `HasResult`, the `if False:` block of src/monads/result.py, the typing fixtures under tests/).
