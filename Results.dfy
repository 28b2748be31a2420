/** `Result<Success, Failure>`: a success value or a typed error, with `map` and `zip`. */
module Results {
  import opened Optionals

  /** Exactly one of a success value `v` or an error `e`. */
  datatype Result<T, E> = Success(v: T) | Failure(e: E) {

    predicate IsSuccess() {
      Success?
    }

    predicate IsFailure() {
      Failure?
    }

    /** `value`: present exactly on success. */
    function Value(): (o: Option<T>)
      ensures o.IsPresent() <==> IsSuccess()
      ensures IsSuccess() ==> o.value == v
    {
      match this
      case Success(x) => Some(x)
      case Failure(_) => None
    }

    /** `error`: present exactly on failure. */
    function Error(): (o: Option<E>)
      ensures o.IsPresent() <==> IsFailure()
      ensures IsFailure() ==> o.value == e
    {
      match this
      case Success(_) => None
      case Failure(x) => Some(x)
    }

    /** `map(f)`: transforms a success value and passes a failure through unchanged. */
    function Map<U>(f: T -> U): (res: Result<U, E>)
      ensures res.IsSuccess() <==> IsSuccess()
      ensures IsSuccess() ==> res.v == f(v)
      ensures IsFailure() ==> res.e == e
    {
      match this
      case Success(x) => Success(f(x))
      case Failure(x) => Failure(x)
    }
  }

  /** `Result.zip(a, b)`: both success values as a pair, or the first failure met (left-biased). */
  function Zip<A, B, E>(a: Result<A, E>, b: Result<B, E>): (res: Result<(A, B), E>)
    ensures res.IsSuccess() <==> a.IsSuccess() && b.IsSuccess()
    ensures res.IsSuccess() ==> res.v == (a.v, b.v)
    ensures a.IsFailure() ==> res.e == a.e
    ensures a.IsSuccess() && b.IsFailure() ==> res.e == b.e
  {
    match (a, b)
    case (Success(x), Success(y)) => Success((x, y))
    case (Failure(x), _) => Failure(x)
    case (Success(_), Failure(y)) => Failure(y)
  }

  /** A result is never both a success and a failure, and always one of them. */
  lemma ExactlyOneState<T, E>(r: Result<T, E>)
    ensures r.IsSuccess() != r.IsFailure()
    ensures r.Value().IsPresent() != r.Error().IsPresent()
  {
  }
}
