/**
 * The behaviours the playground test pages assert, as lemmas with the exact expected values.
 * The operator page repeats the composition, pipe and bind cases of the main test page.
 */
module PlaygroundTests {
  import opened Optionals
  import opened Eithers
  import opened Results
  import opened Composition
  import opened Binding
  import opened Currying
  import opened Tagging
  import opened NonEmptyCollection

  function Add1(x: int): int { x + 1 }
  function Double(x: int): int { x + x }
  function Square(x: int): int { x * x }

  function Add(l: int, r: int): int { l + r }
  function Multiply(l: int, r: int): int { l * r }
  function AddAndMultiply(l: int, r: int, v: int): int { (l + r) * v }

  /** One `pure`-lifted stage at `x`: `(f >-> pure)(x) == (pure <-< f)(x) == pure(f(x))`. */
  lemma Steps<M>(pure: int -> M, f: int -> int, x: int)
    ensures Forward(f, pure)(x) == pure(f(x))
    ensures Backward(pure, f)(x) == pure(f(x))
  {
    ForwardIsPipeline(f, pure, x);
  }

  /** The test's `TestError`: an error type with a single value. */
  datatype TestError = TestError

  /** Collection+Safe: index 0 of `[1, 2, 3]` is present, index 10 is not. */
  lemma SafeIndexCase()
    ensures SafeIndex([1, 2, 3], 0).IsPresent()
    ensures !SafeIndex([1, 2, 3], 10).IsPresent()
  {
  }

  /** Optional+Present: `1` is present with value 1, `nil` is not present. */
  lemma PresentCase()
    ensures Some(1).IsPresent() && Some(1).value == 1
    ensures !Option<int>.None.IsPresent()
  {
  }

  /** Optional+Zip: zipping `1` and `2` is present with components 1 and 2. */
  lemma OptionalZipCase()
    ensures Optionals.Zip(Some(1), Some(2)).IsPresent()
    ensures Optionals.Zip(Some(1), Some(2)).value == (1, 2)
  {
  }

  /** `add1 >-> double >-> square` maps 1 to 16; `add1 <-< double <-< square` maps 1 to 3. */
  lemma ComposeCases()
    ensures Forward(Forward(Add1, Double), Square)(1) == 16
    ensures Backward(Add1, Backward(Double, Square))(1) == 3
  {
    ForwardAssociative(Add1, Double, Square, 1);
    BackwardAssociative(Add1, Double, Square, 1);
    assert Add1(1) == 2 && Double(2) == 4 && Square(4) == 16;
    assert Square(1) == 1 && Double(1) == 2 && Add1(2) == 3;
  }

  /** Array Kleisli composition of `pure`-lifted stages: `[16]` forward, `[3]` backward. */
  lemma ArrayComposeCases()
    ensures KleisliSeq(KleisliSeq(Forward(Add1, PureSeq), Forward(Double, PureSeq)), Forward(Square, PureSeq))(1) == [16]
    ensures KleisliSeqBackward(KleisliSeqBackward(Backward(PureSeq, Add1), Backward(PureSeq, Double)), Backward(PureSeq, Square))(1) == [3]
  {
    Steps(PureSeq, Add1, 1); Steps(PureSeq, Double, 2); Steps(PureSeq, Square, 4);
    Steps(PureSeq, Square, 1); Steps(PureSeq, Double, 1); Steps(PureSeq, Add1, 2);
    var add1, double, square := Forward(Add1, PureSeq), Forward(Double, PureSeq), Forward(Square, PureSeq);
    BindSeqLeftIdentity(2, double);
    assert KleisliSeq(add1, double)(1) == [4];
    BindSeqLeftIdentity(4, square);
    BindSeqLeftIdentity(1, double);
    assert KleisliSeq(square, double)(1) == [2];
    BindSeqLeftIdentity(2, add1);
  }

  /** Optional Kleisli composition of `pure`-lifted stages: 16 forward, 3 backward. */
  lemma OptionalComposeCases()
    ensures KleisliOption(KleisliOption(Forward(Add1, PureOption), Forward(Double, PureOption)), Forward(Square, PureOption))(1) == Some(16)
    ensures KleisliOptionBackward(KleisliOptionBackward(Backward(PureOption, Add1), Backward(PureOption, Double)), Backward(PureOption, Square))(1) == Some(3)
  {
    Steps(PureOption, Add1, 1); Steps(PureOption, Double, 2); Steps(PureOption, Square, 4);
    Steps(PureOption, Square, 1); Steps(PureOption, Double, 1); Steps(PureOption, Add1, 2);
  }

  /** Result Kleisli composition of `pure`-lifted stages: value 16 forward, 3 backward. */
  lemma ResultComposeCases()
    ensures KleisliResult(KleisliResult(Forward(Add1, PureResult), Forward(Double, PureResult)), Forward(Square, PureResult<int, TestError>))(1).Value() == Some(16)
    ensures KleisliResultBackward(KleisliResultBackward(Backward(PureResult<int, TestError>, Add1), Backward(PureResult, Double)), Backward(PureResult, Square))(1).Value() == Some(3)
  {
    Steps(PureResult<int, TestError>, Add1, 1); Steps(PureResult<int, TestError>, Double, 2);
    Steps(PureResult<int, TestError>, Square, 4); Steps(PureResult<int, TestError>, Square, 1);
    Steps(PureResult<int, TestError>, Double, 1); Steps(PureResult<int, TestError>, Add1, 2);
  }

  /** `1 |> add1 |> double |> square == 16`. */
  lemma PipeCase()
    ensures Pipe(Pipe(Pipe(1, Add1), Double), Square) == 16
  {
    assert Add1(1) == 2 && Double(2) == 4 && Square(4) == 16;
  }

  /** Array bind `>>-`: `[1, 2, 3]` through add1, double, square gives `[16, 36, 64]`. */
  lemma ArrayBindForwardCase()
    ensures BindSeq(BindSeq(BindSeq([1, 2, 3], Forward(Add1, PureSeq)), Forward(Double, PureSeq)), Forward(Square, PureSeq)) == [16, 36, 64]
  {
    BindSeqLiftedIsMap([1, 2, 3], Add1);
    MapOfThree(Add1, 1, 2, 3);
    BindSeqLiftedIsMap([2, 3, 4], Double);
    MapOfThree(Double, 2, 3, 4);
    BindSeqLiftedIsMap([4, 6, 8], Square);
    MapOfThree(Square, 4, 6, 8);
  }

  /** Array bind `-<<` is right-associative: the chain binds square, then double, then add1, giving `[3, 9, 19]`. */
  lemma ArrayBindBackwardCase()
    ensures BindSeqBackward(Backward(PureSeq, Add1), BindSeqBackward(Backward(PureSeq, Double), BindSeqBackward(Backward(PureSeq, Square), [1, 2, 3]))) == [3, 9, 19]
  {
    BindSeqLiftedIsMap([1, 2, 3], Square);
    MapOfThree(Square, 1, 2, 3);
    BindSeqLiftedIsMap([1, 4, 9], Double);
    MapOfThree(Double, 1, 4, 9);
    BindSeqLiftedIsMap([2, 8, 18], Add1);
    MapOfThree(Add1, 2, 8, 18);
  }

  /** `map` over a three-element array, element by element. */
  lemma MapOfThree(f: int -> int, a: int, b: int, c: int)
    ensures Map([a, b, c], f) == [f(a), f(b), f(c)]
  {
  }

  /** Optional bind of plain stages (promoted to optionals): `some(1)` gives 16 or 3, `none` stays `none`. */
  lemma OptionalBindCases()
    ensures BindOption(BindOption(BindOption(Some(1), Forward(Add1, PureOption)), Forward(Double, PureOption)), Forward(Square, PureOption)) == Some(16)
    ensures BindOption(BindOption(BindOption(None, Forward(Add1, PureOption)), Forward(Double, PureOption)), Forward(Square, PureOption)) == None
    ensures BindOptionBackward(Forward(Add1, PureOption), BindOptionBackward(Forward(Double, PureOption), BindOptionBackward(Forward(Square, PureOption), Some(1)))) == Some(3)
    ensures BindOptionBackward(Forward(Add1, PureOption), BindOptionBackward(Forward(Double, PureOption), BindOptionBackward(Forward(Square, PureOption), None))) == None
  {
    Steps(PureOption, Add1, 1); Steps(PureOption, Double, 2); Steps(PureOption, Square, 4);
    Steps(PureOption, Square, 1); Steps(PureOption, Double, 1); Steps(PureOption, Add1, 2);
  }

  /** Result bind: success gives value 16 or 3; a failure comes out with its original error. */
  lemma ResultBindCases()
    ensures BindResult(BindResult(BindResult(Success(1), Forward(Add1, PureResult)), Forward(Double, PureResult)), Forward(Square, PureResult<int, TestError>)).Value() == Some(16)
    ensures BindResult(BindResult(BindResult(Failure(TestError), Forward(Add1, PureResult)), Forward(Double, PureResult)), Forward(Square, PureResult<int, TestError>)).Error() == Some(TestError)
    ensures BindResultBackward(Forward(Add1, PureResult<int, TestError>), BindResultBackward(Forward(Double, PureResult), BindResultBackward(Forward(Square, PureResult), Success(1)))).Value() == Some(3)
    ensures BindResultBackward(Forward(Add1, PureResult<int, TestError>), BindResultBackward(Forward(Double, PureResult), BindResultBackward(Forward(Square, PureResult), Failure(TestError)))).Error() == Some(TestError)
  {
    Steps(PureResult<int, TestError>, Add1, 1); Steps(PureResult<int, TestError>, Double, 2);
    Steps(PureResult<int, TestError>, Square, 4); Steps(PureResult<int, TestError>, Square, 1);
    Steps(PureResult<int, TestError>, Double, 1); Steps(PureResult<int, TestError>, Add1, 2);
  }

  /** Curry: `1 |> curry(add)(1) |> curry(multiply)(2) |> curry(addAndMultiply)(1)(2) == 12`. */
  lemma CurryCase()
    ensures Pipe(Pipe(Pipe(1, Curry2(Add)(1)), Curry2(Multiply)(2)), Curry3(AddAndMultiply)(1)(2)) == 12
  {
    CurriedApplication2(Add, 1, 1);
    assert Add(1, 1) == 2;
    CurriedApplication2(Multiply, 2, 2);
    assert Multiply(2, 2) == 4;
    CurriedApplication3(AddAndMultiply, 1, 2, 4);
    assert AddAndMultiply(1, 2, 4) == 12;
  }

  /** Uncurry: `uncurry(add)(1, 1)`, then `uncurry(multiply)(2, _)`, then `uncurry(addAndMultiply)(1, 2, _)` gives 12. */
  lemma UncurryCase()
    ensures Uncurry3((l: int) => (r: int) => (v: int) => (l + r) * v)(1, 2,
              Uncurry2((l: int) => (r: int) => l * r)(2,
                Uncurry2((l: int) => (r: int) => l + r)(1, 1))) == 12
  {
  }

  /** NonEmpty: `NonEmpty(1)` has head 1 and an empty tail. */
  method NonEmptyCase() returns (n: NonEmpty<int>)
    ensures n.head == 1 && n.tail == []
    ensures n.GetAt(0) == 1 && n.Count() == 1
  {
    n := new NonEmpty.Single(1);
  }

  /** Tagged: `PersonId(rawValue: 1) == PersonId(rawValue: 1)`. */
  datatype Person = Person

  lemma TaggedCase()
    ensures Tagged<Person, int>.Tagged(1) == Tagged<Person, int>.Tagged(1)
    ensures Tagged<Person, int>.Tagged(1) != Tagged<Person, int>.Tagged(2)
  {
  }

  /** Either: built from 1 it is a left holding 1; built from "1" it is a right holding "1". */
  lemma EitherCase()
    ensures Either<int, string>.Left(1).LeftValue() == Some(1)
    ensures Either<int, string>.Right("1").RightValue() == Some("1")
  {
  }

  /** Never: a result built from 1 has value 1 and is a success, whatever the error type. */
  lemma NeverCase<E>()
    ensures Result<int, E>.Success(1).Value() == Some(1) && Result<int, E>.Success(1).IsSuccess()
  {
  }

  /** Result: built from 1 it is a success holding 1; built from an error it is a failure. */
  lemma ResultCase()
    ensures Result<int, TestError>.Success(1).Value() == Some(1) && Result<int, TestError>.Success(1).IsSuccess()
    ensures Result<int, TestError>.Failure(TestError).IsFailure()
  {
  }

  /** Result+Zip: `Result.zip(success 1, success 2).map(sum)` has value 3. */
  lemma ResultZipCase()
    ensures Results.Zip(Result<int, TestError>.Success(1), Result<int, TestError>.Success(2)).Map((p: (int, int)) => Add(p.0, p.1)).Value() == Some(3)
  {
  }
}
