/** The symmetric sum `Either<Left, Right>` with its optional side accessors. */
module Eithers {
  import opened Optionals

  /** Exactly one of a left or a right payload. */
  datatype Either<L, R> = Left(l: L) | Right(r: R) {

    /** `left`: the left payload, absent when this holds a right one. */
    function LeftValue(): (o: Option<L>)
      ensures o.IsPresent() <==> Left?
      ensures Left? ==> o.value == l
    {
      match this
      case Left(x) => Some(x)
      case Right(_) => None
    }

    /** `right`: the right payload, absent when this holds a left one. */
    function RightValue(): (o: Option<R>)
      ensures o.IsPresent() <==> Right?
      ensures Right? ==> o.value == r
    {
      match this
      case Left(_) => None
      case Right(y) => Some(y)
    }
  }

  /** Inspection never yields both sides, nor neither. */
  lemma ExactlyOneSide<L, R>(e: Either<L, R>)
    ensures e.LeftValue().IsPresent() != e.RightValue().IsPresent()
  {
  }
}
