/** Point-free composition `>->`, `<-<` and the pipe `|>` over plain functions. */
module Composition {

  /** `f >-> g`: apply `f`, then `g`. */
  function Forward<A, B, C>(f: A -> B, g: B -> C): A -> C {
    x => g(f(x))
  }

  /** `g <-< f`: the mirror of `>->`, applying the right operand `f` first. */
  function Backward<A, B, C>(g: B -> C, f: A -> B): A -> C {
    Forward(f, g)
  }

  /** `x |> f`: feed `x` into `f`. */
  function Pipe<A, B>(x: A, f: A -> B): B {
    f(x)
  }

  function Identity<A>(x: A): A {
    x
  }

  /** A forward composite behaves like piping the input through its stages left to right. */
  lemma ForwardIsPipeline<A, B, C>(f: A -> B, g: B -> C, x: A)
    ensures Forward(f, g)(x) == Pipe(Pipe(x, f), g)
  {
  }

  /** Forward composition chains the same however it is grouped. */
  lemma ForwardAssociative<A, B, C, D>(f: A -> B, g: B -> C, h: C -> D, x: A)
    ensures Forward(Forward(f, g), h)(x) == Forward(f, Forward(g, h))(x)
    ensures Forward(Forward(f, g), h)(x) == h(g(f(x)))
  {
  }

  /** Backward composition chains the same however it is grouped, applying the rightmost stage first. */
  lemma BackwardAssociative<A, B, C, D>(h: C -> D, g: B -> C, f: A -> B, x: A)
    ensures Backward(Backward(h, g), f)(x) == Backward(h, Backward(g, f))(x)
    ensures Backward(h, Backward(g, f))(x) == h(g(f(x)))
  {
  }

  /** Mirror law: `(f >-> g)(x) == (g <-< f)(x)`. */
  lemma Mirror<A, B, C>(f: A -> B, g: B -> C, x: A)
    ensures Forward(f, g)(x) == Backward(g, f)(x)
  {
  }

  /** `identity` is neutral for composition on either side, and for the pipe. */
  lemma IdentityNeutral<A, B>(f: A -> B, x: A)
    ensures Forward(Identity, f)(x) == f(x)
    ensures Forward(f, Identity)(x) == f(x)
    ensures Pipe(x, Identity) == x
  {
    assert Identity(x) == x;
  }
}
