/** `curry` and `uncurry` between two- and three-argument functions and chains of unary ones. */
module Currying {

  /** `curry` of a two-argument function. */
  function Curry2<A, B, C>(f: (A, B) -> C): A -> B -> C {
    a => b => f(a, b)
  }

  /** `uncurry` of a two-step chain. */
  function Uncurry2<A, B, C>(f: A -> B -> C): (A, B) -> C {
    (a, b) => f(a)(b)
  }

  /** `curry` of a three-argument function. */
  function Curry3<A, B, C, D>(f: (A, B, C) -> D): A -> B -> C -> D {
    a => b => c => f(a, b, c)
  }

  /** `uncurry` of a three-step chain. */
  function Uncurry3<A, B, C, D>(f: A -> B -> C -> D): (A, B, C) -> D {
    (a, b, c) => f(a)(b)(c)
  }

  /** Supplying the arguments one at a time to a curried function gives the original call. */
  lemma CurriedApplication2<A, B, C>(f: (A, B) -> C, a: A, b: B)
    ensures Curry2(f)(a)(b) == f(a, b)
  {
  }

  lemma CurriedApplication3<A, B, C, D>(f: (A, B, C) -> D, a: A, b: B, c: C)
    ensures Curry3(f)(a)(b)(c) == f(a, b, c)
  {
  }

  /** `uncurry` undoes `curry`, and `curry` undoes `uncurry`, for two arguments. */
  lemma RoundTrip2<A, B, C>(f: (A, B) -> C, g: A -> B -> C, a: A, b: B)
    ensures Uncurry2(Curry2(f))(a, b) == f(a, b)
    ensures Curry2(Uncurry2(g))(a)(b) == g(a)(b)
  {
  }

  /** `uncurry` undoes `curry`, and `curry` undoes `uncurry`, for three arguments. */
  lemma RoundTrip3<A, B, C, D>(f: (A, B, C) -> D, g: A -> B -> C -> D, a: A, b: B, c: C)
    ensures Uncurry3(Curry3(f))(a, b, c) == f(a, b, c)
    ensures Curry3(Uncurry3(g))(a)(b)(c) == g(a)(b)(c)
  {
  }
}
