/**
 * The slice of Python's value semantics that `check_status` relies on:
 * the values a caller may pass as `success_code`, Python's `==` between
 * such a value and an integer status code, and the `in` operator on a list.
 */
module PyValues {

  /** A Python value as it may be passed for `success_code`. The elements of
      a set are listed in its iteration order. */
  datatype Value =
    | Int(i: int)
    | Bool(b: bool)
    | Str(s: string)
    | NoneValue
    | List(items: seq<Value>)
    | Tuple(items: seq<Value>)
    | Set(items: seq<Value>)

  /** Python's `v == n` for an integer `n`: an int compares by value, a bool
      compares as 0 or 1 (`True == 1`), every other kind of value is unequal. */
  predicate EqualsInt(v: Value, n: int)
  {
    match v
    case Int(i) => i == n
    case Bool(b) => (if b then 1 else 0) == n
    case _ => false
  }

  /** Python's `n in xs` for a list `xs`: a scan from the front that stops at
      the first element equal to `n`. It finds `n` exactly when some element
      of the list equals `n`. */
  function Contains(xs: seq<Value>, n: int): (found: bool)
    ensures found <==> exists k :: 0 <= k < |xs| && EqualsInt(xs[k], n)
  {
    if xs == [] then false
    else if EqualsInt(xs[0], n) then true
    else
      assert forall k :: 0 < k < |xs| ==> xs[k] == xs[1..][k - 1];
      Contains(xs[1..], n)
  }

  /** A one-element list holds `n` exactly when its element equals `n`. */
  lemma ContainsSingleton(v: Value, n: int)
    ensures Contains([v], n) <==> EqualsInt(v, n)
  {
  }
}
