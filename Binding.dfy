/**
 * `pure`, the binds `>>-` / `-<<` and Kleisli composition `>->` / `<-<` for the three
 * container shapes the prelude supports: arrays (`seq`), optionals and results.
 */
module Binding {
  import opened Optionals
  import opened Results
  import opened Composition

  // ---------------------------------------------------------------- arrays

  /** `pure` into an array: the one-element array. */
  function PureSeq<A>(x: A): seq<A> {
    [x]
  }

  /** `xs >>- f`: apply `f` to every element in order and concatenate the results. */
  function BindSeq<A, B>(xs: seq<A>, f: A -> seq<B>): seq<B>
    decreases |xs|
  {
    if |xs| == 0 then [] else f(xs[0]) + BindSeq(xs[1..], f)
  }

  /** `f -<< xs`: `>>-` with its operands swapped. */
  function BindSeqBackward<A, B>(f: A -> seq<B>, xs: seq<A>): seq<B> {
    BindSeq(xs, f)
  }

  /** `f >-> g` on array-producing functions. */
  function KleisliSeq<A, B, C>(f: A -> seq<B>, g: B -> seq<C>): A -> seq<C> {
    x => BindSeq(f(x), g)
  }

  /** `g <-< f` on array-producing functions. */
  function KleisliSeqBackward<A, B, C>(g: B -> seq<C>, f: A -> seq<B>): A -> seq<C> {
    KleisliSeq(f, g)
  }

  /** Element-wise `map`, the reference a bind of `pure`-lifted functions is measured against. */
  function Map<A, B>(xs: seq<A>, f: A -> B): seq<B> {
    seq(|xs|, i requires 0 <= i < |xs| => f(xs[i]))
  }

  /** Binding over a concatenation is the concatenation of the binds. */
  lemma {:induction false} BindSeqConcat<A, B>(xs: seq<A>, ys: seq<A>, f: A -> seq<B>)
    ensures BindSeq(xs + ys, f) == BindSeq(xs, f) + BindSeq(ys, f)
    decreases |xs|
  {
    if |xs| == 0 {
      assert xs + ys == ys;
    } else {
      assert (xs + ys)[0] == xs[0];
      assert (xs + ys)[1..] == xs[1..] + ys;
      BindSeqConcat(xs[1..], ys, f);
    }
  }

  /** `xs >>- (f >-> pure)` maps `f` over `xs`, keeping order and length. */
  lemma {:induction false} BindSeqLiftedIsMap<A, B>(xs: seq<A>, f: A -> B)
    ensures BindSeq(xs, Forward(f, PureSeq)) == Map(xs, f)
    decreases |xs|
  {
    if |xs| > 0 {
      BindSeqLiftedIsMap(xs[1..], f);
      assert Forward(f, PureSeq)(xs[0]) == [f(xs[0])];
      assert Map(xs, f) == [f(xs[0])] + Map(xs[1..], f);
    }
  }

  /** Left identity: `pure(x) >>- f == f(x)`. */
  lemma BindSeqLeftIdentity<A, B>(x: A, f: A -> seq<B>)
    ensures BindSeq(PureSeq(x), f) == f(x)
  {
    assert PureSeq(x)[1..] == [];
  }

  /** Right identity: `xs >>- pure == xs`. */
  lemma {:induction false} BindSeqRightIdentity<A>(xs: seq<A>)
    ensures BindSeq(xs, PureSeq) == xs
    decreases |xs|
  {
    if |xs| > 0 {
      BindSeqRightIdentity(xs[1..]);
      assert xs == [xs[0]] + xs[1..];
    }
  }

  /** Associativity: binding in two steps equals binding once with the Kleisli composite. */
  lemma {:induction false} BindSeqAssociative<A, B, C>(xs: seq<A>, f: A -> seq<B>, g: B -> seq<C>)
    ensures BindSeq(BindSeq(xs, f), g) == BindSeq(xs, KleisliSeq(f, g))
    decreases |xs|
  {
    if |xs| > 0 {
      BindSeqConcat(f(xs[0]), BindSeq(xs[1..], f), g);
      BindSeqAssociative(xs[1..], f, g);
    }
  }

  /** Kleisli composition of array-producing functions chains the same however it is grouped. */
  lemma KleisliSeqAssociative<A, B, C, D>(f: A -> seq<B>, g: B -> seq<C>, h: C -> seq<D>, x: A)
    ensures KleisliSeq(KleisliSeq(f, g), h)(x) == KleisliSeq(f, KleisliSeq(g, h))(x)
  {
    BindSeqAssociative(f(x), g, h);
  }

  /** Kleisli composition of `pure`-lifted stages is `pure` of the plain composite. */
  lemma KleisliSeqOfLifted<A, B, C>(f: A -> B, g: B -> C, x: A)
    ensures KleisliSeq(Forward(f, PureSeq), Forward(g, PureSeq))(x) == PureSeq(Forward(f, g)(x))
  {
    BindSeqLeftIdentity(f(x), Forward(g, PureSeq));
  }

  /** A `-<<` chain binds from the rightmost container outward: `f -<< (g -<< xs) == (xs >>- g) >>- f`. */
  lemma BindSeqBackwardChain<A, B, C>(f: B -> seq<C>, g: A -> seq<B>, xs: seq<A>)
    ensures BindSeqBackward(f, BindSeqBackward(g, xs)) == BindSeq(xs, KleisliSeq(g, f))
  {
    BindSeqAssociative(xs, g, f);
  }

  // ------------------------------------------------------------- optionals

  /** `pure` into an optional: the present value. */
  function PureOption<A>(x: A): Option<A> {
    Some(x)
  }

  /** `m >>- f`: apply `f` to a present value; an absent value short-circuits. */
  function BindOption<A, B>(m: Option<A>, f: A -> Option<B>): Option<B> {
    match m
    case None => None
    case Some(x) => f(x)
  }

  /** `f -<< m`. */
  function BindOptionBackward<A, B>(f: A -> Option<B>, m: Option<A>): Option<B> {
    BindOption(m, f)
  }

  /** `f >-> g` on optional-producing functions. */
  function KleisliOption<A, B, C>(f: A -> Option<B>, g: B -> Option<C>): A -> Option<C> {
    x => BindOption(f(x), g)
  }

  /** `g <-< f` on optional-producing functions. */
  function KleisliOptionBackward<A, B, C>(g: B -> Option<C>, f: A -> Option<B>): A -> Option<C> {
    KleisliOption(f, g)
  }

  /** Bind yields a value exactly when the input is present and `f` yields one; absent stays absent. */
  lemma BindOptionShortCircuit<A, B>(m: Option<A>, f: A -> Option<B>)
    ensures m.None? ==> BindOption(m, f) == None
    ensures m.Some? ==> BindOption(m, f) == f(m.value)
    ensures BindOption(m, f).IsPresent() <==> m.IsPresent() && f(m.value).IsPresent()
  {
  }

  /** The monad laws for optionals. */
  lemma BindOptionLaws<A, B, C>(x: A, m: Option<A>, f: A -> Option<B>, g: B -> Option<C>)
    ensures BindOption(PureOption(x), f) == f(x)
    ensures BindOption(m, PureOption) == m
    ensures BindOption(BindOption(m, f), g) == BindOption(m, KleisliOption(f, g))
  {
  }

  /** Kleisli composition of optional-producing functions chains the same however it is grouped. */
  lemma KleisliOptionAssociative<A, B, C, D>(f: A -> Option<B>, g: B -> Option<C>, h: C -> Option<D>, x: A)
    ensures KleisliOption(KleisliOption(f, g), h)(x) == KleisliOption(f, KleisliOption(g, h))(x)
  {
    BindOptionShortCircuit(f(x), g);
  }

  /** Kleisli composition of `pure`-lifted stages is `pure` of the plain composite. */
  lemma KleisliOptionOfLifted<A, B, C>(f: A -> B, g: B -> C, x: A)
    ensures KleisliOption(Forward(f, PureOption), Forward(g, PureOption))(x) == PureOption(Forward(f, g)(x))
  {
  }

  // --------------------------------------------------------------- results

  /** `pure` into a result: the success. */
  function PureResult<A, E>(x: A): Result<A, E> {
    Success(x)
  }

  /** `m >>- f`: apply `f` to a success value; a failure is passed on with its original error. */
  function BindResult<A, B, E>(m: Result<A, E>, f: A -> Result<B, E>): Result<B, E> {
    match m
    case Failure(e) => Failure(e)
    case Success(x) => f(x)
  }

  /** `f -<< m`. */
  function BindResultBackward<A, B, E>(f: A -> Result<B, E>, m: Result<A, E>): Result<B, E> {
    BindResult(m, f)
  }

  /** `f >-> g` on result-producing functions. */
  function KleisliResult<A, B, C, E>(f: A -> Result<B, E>, g: B -> Result<C, E>): A -> Result<C, E> {
    x => BindResult(f(x), g)
  }

  /** `g <-< f` on result-producing functions. */
  function KleisliResultBackward<A, B, C, E>(g: B -> Result<C, E>, f: A -> Result<B, E>): A -> Result<C, E> {
    KleisliResult(f, g)
  }

  /** A failure is propagated unchanged; a success is handed to `f`. */
  lemma BindResultShortCircuit<A, B, E>(m: Result<A, E>, f: A -> Result<B, E>)
    ensures m.IsFailure() ==> BindResult(m, f) == Failure(m.e)
    ensures m.IsSuccess() ==> BindResult(m, f) == f(m.v)
  {
  }

  /** The monad laws for results. */
  lemma BindResultLaws<A, B, C, E>(x: A, m: Result<A, E>, f: A -> Result<B, E>, g: B -> Result<C, E>)
    ensures BindResult(PureResult(x), f) == f(x)
    ensures BindResult(m, PureResult) == m
    ensures BindResult(BindResult(m, f), g) == BindResult(m, KleisliResult(f, g))
  {
  }

  /** Kleisli composition of result-producing functions chains the same however it is grouped. */
  lemma KleisliResultAssociative<A, B, C, D, E>(f: A -> Result<B, E>, g: B -> Result<C, E>, h: C -> Result<D, E>, x: A)
    ensures KleisliResult(KleisliResult(f, g), h)(x) == KleisliResult(f, KleisliResult(g, h))(x)
  {
    BindResultShortCircuit(f(x), g);
  }

  /** Kleisli composition of `pure`-lifted stages is `pure` of the plain composite. */
  lemma KleisliResultOfLifted<A, B, C, E>(f: A -> B, g: B -> C, x: A)
    ensures KleisliResult(Forward(f, PureResult), Forward(g, PureResult))(x) == PureResult<C, E>(Forward(f, g)(x))
  {
  }
}
