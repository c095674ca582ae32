/** The order between options (src/monads/option.py, the comparison methods).

    `Null` sorts before every `Some`, and two `Some` compare by their payloads.
    The reference definition is Python's own tuple comparison applied to the
    keys `(0,)` for `Null` and `(1, v)` for `Some(v)`: find the first position
    where the tuples differ; compare the items there, or compare the lengths if
    one tuple is a prefix of the other. */
module OptionOrder {
  import opened Monads

  /** The four rich comparison operators. */
  datatype Operator = Lt | Le | Gt | Ge {

    predicate Strict() {
      this == Lt || this == Gt
    }

    predicate OnInts(a: int, b: int) {
      match this
      case Lt => a < b
      case Le => a <= b
      case Gt => a > b
      case Ge => a >= b
    }
  }

  /** `a op b` on two options: the left operand's method decides, and it is
      given the payloads' own operator `cmp`. */
  predicate Compare<T>(op: Operator, a: Option<T>, b: Option<T>, cmp: (T, T) -> bool) {
    match op
    case Lt => a.Less(b, cmp)
    case Le => a.LessEq(b, cmp)
    case Gt => a.Greater(b, cmp)
    case Ge => a.GreaterEq(b, cmp)
  }

  /** An item of a comparison key: an integer tag or the payload. */
  datatype Item<T> = Int(n: int) | Payload(v: T)

  /** `(0,)` for `Null`, `(1, v)` for `Some(v)`. */
  function Key<T>(o: Option<T>): seq<Item<T>> {
    match o
    case Null => [Int(0)]
    case Some(v) => [Int(1), Payload(v)]
  }

  /** Two items under `op`. Comparing a tag with a payload raises `TypeError`
      in Python; it never happens between keys, because keys differ first at
      their tags or agree there. */
  predicate ItemCompare<T>(op: Operator, a: Item<T>, b: Item<T>, cmp: (T, T) -> bool) {
    match (a, b)
    case (Int(m), Int(n)) => op.OnInts(m, n)
    case (Payload(x), Payload(y)) => cmp(x, y)
    case _ => false
  }

  /** Python's lexicographic tuple comparison under `op`. */
  predicate TupleCompare<T(==)>(op: Operator, a: seq<Item<T>>, b: seq<Item<T>>, cmp: (T, T) -> bool)
    decreases |a|
  {
    if |a| == 0 || |b| == 0 then op.OnInts(|a|, |b|)
    else if a[0] == b[0] then TupleCompare(op, a[1..], b[1..], cmp)
    else ItemCompare(op, a[0], b[0], cmp)
  }

  /** What tuple comparison assumes of the payloads' operator: on equal
      payloads a strict operator is false and a non-strict one is true. */
  ghost predicate AgreesWithEquality<T(!new)>(op: Operator, cmp: (T, T) -> bool) {
    forall x :: cmp(x, x) == !op.Strict()
  }

  /** `Null` is below every `Some` and equal to itself. */
  lemma NullIsLeast<T>(o: Option<T>, x: T, cmp: (T, T) -> bool)
    ensures Compare(Lt, Null, o, cmp) <==> o.Some?
    ensures Compare(Le, Null, o, cmp)
    ensures !Compare(Gt, Null, o, cmp)
    ensures Compare(Ge, Null, o, cmp) <==> o.Null?
    ensures Compare(Gt, Some(x), Null, cmp) && Compare(Ge, Some(x), Null, cmp)
    ensures !Compare(Lt, Some(x), Null, cmp) && !Compare(Le, Some(x), Null, cmp)
  {
  }

  /** Two `Some` compare as their payloads do. */
  lemma SomeComparesPayloads<T>(op: Operator, x: T, y: T, cmp: (T, T) -> bool)
    ensures Compare(op, Some(x), Some(y), cmp) == cmp(x, y)
  {
  }

  /** The order of options is the tuple order of their keys. */
  lemma {:induction false} OrderMatchesKeys<T(!new)>(op: Operator, a: Option<T>, b: Option<T>, cmp: (T, T) -> bool)
    requires AgreesWithEquality(op, cmp)
    ensures Compare(op, a, b, cmp) == TupleCompare(op, Key(a), Key(b), cmp)
  {
    match (a, b)
    case (Null, Null) =>
      assert Key(a)[1..] == [] && Key(b)[1..] == [];
    case (Null, Some(y)) =>
      assert Key(a)[0] != Key(b)[0];
    case (Some(x), Null) =>
      assert Key(a)[0] != Key(b)[0];
    case (Some(x), Some(y)) =>
      assert Key(a)[1..] == [Payload(x)] && Key(b)[1..] == [Payload(y)];
      assert TupleCompare(op, Key(a), Key(b), cmp) == TupleCompare(op, [Payload(x)], [Payload(y)], cmp);
      if x == y {
        assert [Payload(x)][1..] == [];
        assert TupleCompare(op, [Payload(x)], [Payload(y)], cmp) == op.OnInts(0, 0);
      } else {
        assert TupleCompare(op, [Payload(x)], [Payload(y)], cmp) == cmp(x, y);
      }
  }

  /** The reflected operators agree: `a > b` is `b < a` and `a >= b` is `b <= a`
      when the payloads' operators are related the same way. */
  lemma ReflectedOperators<T>(a: Option<T>, b: Option<T>,
                              lt: (T, T) -> bool, gt: (T, T) -> bool,
                              le: (T, T) -> bool, ge: (T, T) -> bool)
    requires forall x, y :: gt(x, y) == lt(y, x)
    requires forall x, y :: ge(x, y) == le(y, x)
    ensures a.Greater(b, gt) == b.Less(a, lt)
    ensures a.GreaterEq(b, ge) == b.LessEq(a, le)
  {
  }

  ghost predicate StrictTotalOrder<T(!new)>(lt: (T, T) -> bool) {
    && (forall x :: !lt(x, x))
    && (forall x, y, z :: lt(x, y) && lt(y, z) ==> lt(x, z))
    && (forall x, y :: x == y || lt(x, y) || lt(y, x))
  }

  /** `<` on options is a strict total order whenever the payloads' `<` is. */
  lemma LessIsStrictTotalOrder<T(!new)>(lt: (T, T) -> bool)
    requires StrictTotalOrder(lt)
    ensures StrictTotalOrder((a: Option<T>, b: Option<T>) => a.Less(b, lt))
  {
  }
}
