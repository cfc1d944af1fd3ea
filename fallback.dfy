/**
 * The horizon fallback of the collection loop: a longer-horizon average is
 * reported as `long or medium or short`, Python's short-circuit `or`, which
 * yields its first truthy operand and otherwise its last operand unchanged.
 * An average is either Python's `None` (never set) or a float; `None` and
 * `0.0` are both falsy.
 */
module Fallback {

  /** The value an averager's `avg` attribute holds. */
  datatype PyVal = PyNone | PyFloat(x: real)

  /** Python truthiness of an average: `None` and `0.0` are falsy. */
  predicate Truthy(v: PyVal)
    ensures Truthy(v) <==> v != PyNone && v != PyFloat(0.0)
  {
    v.PyFloat? && v.x != 0.0
  }

  /** Python's `a or b`. */
  function Or(a: PyVal, b: PyVal): (r: PyVal)
    ensures Truthy(r) <==> Truthy(a) || Truthy(b)
    ensures b.PyFloat? ==> r.PyFloat?
    ensures r == a || r == b
  {
    if Truthy(a) then a else b
  }

  /** Python's `a or b or c`, which parses as `(a or b) or c`. */
  function Or3(a: PyVal, b: PyVal, c: PyVal): (r: PyVal)
    ensures c.PyFloat? ==> r.PyFloat?
  {
    Or(Or(a, b), c)
  }

  /** The first truthy operand wins; if none is truthy the last one is returned as it is. */
  lemma Or3FirstTruthy(a: PyVal, b: PyVal, c: PyVal)
    ensures Truthy(a) ==> Or3(a, b, c) == a
    ensures !Truthy(a) && Truthy(b) ==> Or3(a, b, c) == b
    ensures !Truthy(a) && !Truthy(b) ==> Or3(a, b, c) == c
  {
  }

  /** Grouping does not matter: `(a or b) or c` equals `a or (b or c)`. */
  lemma OrAssociative(a: PyVal, b: PyVal, c: PyVal)
    ensures Or(Or(a, b), c) == Or(a, Or(b, c))
  {
  }

  /** A genuine average of exactly 0.0 at the longer horizon is replaced by the shorter one. */
  lemma ZeroIsMasked(short: PyVal)
    ensures Or(PyFloat(0.0), short) == short
    ensures Or3(PyFloat(0.0), PyFloat(0.0), short) == short
  {
  }

  /**
   * "Finest available" selection that tells an unset average from a zero one:
   * the first operand that is not `None`, else the last one.
   */
  function FirstSet(a: PyVal, b: PyVal): (r: PyVal)
    ensures r.PyNone? <==> a.PyNone? && b.PyNone?
    ensures a.PyFloat? ==> r == a
  {
    if a.PyFloat? then a else b
  }

  /** `or` picks what `FirstSet` picks, except exactly when the first operand is 0.0 and the second is something else. */
  lemma OrAgreesWithFirstSet(a: PyVal, b: PyVal)
    ensures Or(a, b) != FirstSet(a, b) <==> a == PyFloat(0.0) && b != PyFloat(0.0)
  {
  }
}
