/** Swift's `Optional` as the prelude uses it: presence tests, `zip`, and safe indexing. */
module Optionals {

  /** `Wrapped?`: either `.none` or `.some(value)`. */
  datatype Option<T> = None | Some(value: T) {

    /** `isPresent`: a value is wrapped. */
    predicate IsPresent() {
      Some?
    }
  }

  /** `zip(a, b)`: the pair of both values when both are present, absent otherwise. */
  function Zip<A, B>(a: Option<A>, b: Option<B>): (o: Option<(A, B)>)
    ensures o.IsPresent() <==> a.IsPresent() && b.IsPresent()
    ensures o.IsPresent() ==> o.value.0 == a.value && o.value.1 == b.value
  {
    match (a, b)
    case (Some(x), Some(y)) => Some((x, y))
    case _ => None
  }

  /** `c[safe: i]`: the element at `i` when `i` is a valid index of `c`, absent otherwise. */
  function SafeIndex<T>(c: seq<T>, i: int): (o: Option<T>)
    ensures o.IsPresent() <==> 0 <= i < |c|
    ensures o.IsPresent() ==> o.value == c[i]
  {
    if 0 <= i < |c| then Some(c[i]) else None
  }
}
