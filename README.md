# FunctionalPlayground prelude, modelled in Dafny

This project models the core of a small Swift "functional prelude". It covers:

- **NonEmpty indexed access.** A non-empty collection is a mandatory `head` plus a `tail` container whose indices start at the tail's `startIndex`. You can read and write it through a two-region `Index` (`.head` / `.tail(i)`) or through an `Int` position: position 0 is the head, and position `p` is tail index `startIndex + p - 1`. The model is a class `NonEmptyCollection.NonEmpty` with fields `head`, `tail` (a `seq`) and `tailStart`. It has reading functions and writing methods. Every read and write is specified against the logical sequence `[head] + tail`.
- **Box / MutableBox.** These are one-value holders. `Box` exposes no mutator, so its value is a `const`. `MutableBox.Set` overwrites its `var value` in place.
- **The combinator layer.** This covers forward and backward composition (`>->` / `<-<`), the pipe (`|>`), `pure`, forward and backward bind (`>>-` / `-<<`) and Kleisli composition over arrays, optionals and results. It also covers `curry`/`uncurry` for arities 2 and 3, `zip` for optionals and results, `Either` and `Result` with their accessors, safe indexing, and `Tagged` equality. The operators are Dafny functions whose behaviour matches what the two playground test pages assert. The monad laws, the associativity laws and the `map` characterisation of binding `pure`-lifted functions over arrays are proved for all inputs. Each assertion of the test pages is a lemma with the exact expected values, in module `PlaygroundTests`.

Files: `Optionals.dfy`, `Eithers.dfy`, `Results.dfy`, `Composition.dfy`, `Currying.dfy` and `Binding.dfy` hold the combinators. `NonEmpty.dfy` holds the collection and `Boxes.dfy` the holders. `Tagged.dfy` holds the tagged wrapper and `PlaygroundTests.dfy` the pinned test values.

Notes on the model:

- `Box` and `MutableBox` are classes in `Template.playground/Sources/Utilities/Boxes.swift`, so they are Dafny classes.
- The test pages fix the results of composition chains only at input 1. The model proves that grouping does not matter for plain functions (`Composition.ForwardAssociative`, `Composition.BackwardAssociative`) and for Kleisli chains over arrays, optionals and results (`Binding.KleisliSeqAssociative`, `Binding.KleisliOptionAssociative`, `Binding.KleisliResultAssociative`).
- `-<<` must group to the right for the test page's chain to type-check. The model nests it that way, and `Binding.BindSeqBackwardChain` shows that the rightmost container is bound first.

## Model

| member | source | states |
|---|---|---|
| `Composition.Forward` | Template.playground/Pages/Tests.xcplaygroundpage/Contents.swift:37-45 | `f >-> g` is the function that applies `f`, then `g`. Its partners are `Composition.ForwardIsPipeline` and `Composition.ForwardAssociative` |
| `Composition.Backward` | Template.playground/Pages/Tests.xcplaygroundpage/Contents.swift:47-55 | `g <-< f` is `f >-> g` with the operands swapped, so the right operand runs first. Its partner is `Composition.BackwardAssociative` |
| `Composition.Pipe` | Template.playground/Pages/Tests.xcplaygroundpage/Contents.swift:133-141 | `x \|> f` is `f(x)`. Its partner is `Composition.ForwardIsPipeline` |
| `Binding.PureSeq` | Template.playground/Pages/Tests.xcplaygroundpage/Contents.swift:57-67 | `pure` into an array is the one-element array. Its partners are `Binding.BindSeqLeftIdentity` and `Binding.BindSeqRightIdentity` |
| `Binding.BindSeq` | Template.playground/Pages/Tests.xcplaygroundpage/Contents.swift:143-154 | `xs >>- f` applies `f` to each element in order and concatenates the results. It is characterised by `Binding.BindSeqConcat`, `Binding.BindSeqLiftedIsMap` and `Binding.BindSeqAssociative` |
| `Binding.BindSeqBackward` | Template.playground/Pages/Tests.xcplaygroundpage/Contents.swift:156-167 | `f -<< xs` is `xs >>- f`. Its partner is `Binding.BindSeqBackwardChain` |
| `Binding.KleisliSeq` | Template.playground/Pages/Tests.xcplaygroundpage/Contents.swift:57-67 | `f >-> g` on array-producing functions binds `g` over `f(x)`. Its partners are `Binding.KleisliSeqAssociative` and `Binding.KleisliSeqOfLifted` |
| `Binding.KleisliSeqBackward` | Template.playground/Pages/Tests.xcplaygroundpage/Contents.swift:69-79 | `g <-< f` on array-producing functions is `f >-> g` |
| `Binding.Map` | Template.playground/Pages/Tests.xcplaygroundpage/Contents.swift:143-154 | element-wise map. It is the independent reference that `Binding.BindSeqLiftedIsMap` relates array bind to |
| `Binding.PureOption` | Template.playground/Pages/Tests.xcplaygroundpage/Contents.swift:81-91 | `pure` into an optional is the present value. Its partner is `Binding.BindOptionLaws` |
| `Binding.BindOption` | Template.playground/Pages/Tests.xcplaygroundpage/Contents.swift:169-179 | `m >>- f` applies `f` to a present value, and `none` short-circuits to `none`. Its partners are `Binding.BindOptionShortCircuit` and `Binding.BindOptionLaws` |
| `Binding.BindOptionBackward` | Template.playground/Pages/Tests.xcplaygroundpage/Contents.swift:181-191 | `f -<< m` is `m >>- f` |
| `Binding.KleisliOption` | Template.playground/Pages/Tests.xcplaygroundpage/Contents.swift:81-91 | `f >-> g` on optional-producing functions binds `g` over `f(x)`. Its partners are `Binding.KleisliOptionAssociative` and `Binding.KleisliOptionOfLifted` |
| `Binding.KleisliOptionBackward` | Template.playground/Pages/Tests.xcplaygroundpage/Contents.swift:93-103 | `g <-< f` on optional-producing functions is `f >-> g` |
| `Binding.KleisliOptionAssociative` | Template.playground/Pages/Tests.xcplaygroundpage/Contents.swift:81-103 | Kleisli composition of optional-producing functions is the same however it is grouped |
| `Binding.PureResult` | Template.playground/Pages/Tests.xcplaygroundpage/Contents.swift:105-117 | `pure` into a result is the success. Its partner is `Binding.BindResultLaws` |
| `Binding.BindResult` | Template.playground/Pages/Tests.xcplaygroundpage/Contents.swift:193-211 | `m >>- f` applies `f` to a success value, and a failure is passed on with its original error. Its partners are `Binding.BindResultShortCircuit` and `Binding.BindResultLaws` |
| `Binding.BindResultBackward` | Template.playground/Pages/Tests.xcplaygroundpage/Contents.swift:213-231 | `f -<< m` is `m >>- f` |
| `Binding.KleisliResult` | Template.playground/Pages/Tests.xcplaygroundpage/Contents.swift:105-117 | `f >-> g` on result-producing functions binds `g` over `f(x)`. Its partners are `Binding.KleisliResultAssociative` and `Binding.KleisliResultOfLifted` |
| `Binding.KleisliResultBackward` | Template.playground/Pages/Tests.xcplaygroundpage/Contents.swift:119-131 | `g <-< f` on result-producing functions is `f >-> g` |
| `Binding.KleisliResultAssociative` | Template.playground/Pages/Tests.xcplaygroundpage/Contents.swift:105-131 | Kleisli composition of result-producing functions is the same however it is grouped |
| `Currying.Curry2` | Template.playground/Pages/Tests.xcplaygroundpage/Contents.swift:233-240 | `curry` turns a two-argument function into a chain of two unary functions. Its partners are `Currying.CurriedApplication2` and `Currying.RoundTrip2` |
| `Currying.Uncurry2` | Template.playground/Pages/Tests.xcplaygroundpage/Contents.swift:248-258 | `uncurry` turns a two-step chain into a two-argument function. Its partner is `Currying.RoundTrip2` |
| `Currying.Curry3` | Template.playground/Pages/Tests.xcplaygroundpage/Contents.swift:236-241 | `curry` turns a three-argument function into a chain of three unary functions. Its partners are `Currying.CurriedApplication3` and `Currying.RoundTrip3` |
| `Currying.Uncurry3` | Template.playground/Pages/Tests.xcplaygroundpage/Contents.swift:251-259 | `uncurry` turns a three-step chain into a three-argument function. Its partner is `Currying.RoundTrip3` |
| `NonEmptyCollection.Resolve` | Template.playground/Sources/Externals/NonEmpty/NonEmpty+MutableCollection.swift:70 | the `Int` position `p` maps to `.head` when `p == 0`, and otherwise to `.tail(startIndex + p - 1)`. Its partners are `NonEmptyCollection.ResolveValid`, `NonEmptyCollection.ResolveOffset` and `NonEmptyCollection.OffsetResolve` |
| `NonEmptyCollection.Offset` | Template.playground/Sources/Externals/NonEmpty/NonEmpty+MutableCollection.swift:46-54 | the place of an `Index` in `[head] + tail`: 0 for `.head`, and `i - startIndex + 1` for `.tail(i)`. `NonEmptyCollection.OffsetResolve` shows it inverts `Resolve` |
| `NonEmptyCollection.NonEmpty.Count` | Template.playground/Sources/Externals/NonEmpty/NonEmpty+MutableCollection.swift:56-62 | the logical length, one more than the tail length. `Set` and `SetAt` keep it |
| `Optionals.Option.IsPresent` | Template.playground/Pages/Tests.xcplaygroundpage/Contents.swift:13-22 | `isPresent` holds exactly for `.some` |
| `Results.Result.IsSuccess` | Template.playground/Pages/Tests.xcplaygroundpage/Contents.swift:301-311 | `isSuccess` holds exactly for a success. `Results.ExactlyOneState` relates it to `isFailure` |
| `Results.Result.IsFailure` | Template.playground/Pages/Tests.xcplaygroundpage/Contents.swift:312-313 | `isFailure` holds exactly for a failure |
| `NonEmptyCollection.NonEmpty.Elements` | Template.playground/Sources/Externals/NonEmpty/NonEmpty+MutableCollection.swift:46-54 | the logical sequence has one more element than `tail`, position 0 is `head` and the rest is `tail` |
| `NonEmptyCollection.NonEmpty.Get` | Template.playground/Sources/Externals/NonEmpty/NonEmpty+MutableCollection.swift:47-55 | reading at `.head` or at a valid `.tail(i)` yields the element at that index's place in `[head] + tail`, where `.tail(i)` is place `i - startIndex + 1` |
| `NonEmptyCollection.NonEmpty.GetAt` | Template.playground/Sources/Externals/NonEmpty/NonEmpty+MutableCollection.swift:68-71 | reading at any `Int` position `p` from 0 up to the length of `tail` yields element `p` of `[head] + tail` |
| `NonEmptyCollection.NonEmpty.Set` | Template.playground/Sources/Externals/NonEmpty/NonEmpty+MutableCollection.swift:56-63 | writing at an `Index` replaces exactly that slot of `[head] + tail`. A `.head` write leaves `tail` unchanged and a `.tail` write leaves `head` unchanged. The length and start index are kept. The value reads back at that index, and a head write reads back at `Int` 0 |
| `NonEmptyCollection.NonEmpty.SetAt` | Template.playground/Sources/Externals/NonEmpty/NonEmpty+MutableCollection.swift:72-74 | writing at `Int` position `p` replaces element `p` of `[head] + tail` and keeps the length. The value reads back at `p`, and for `p > 0` also through `.tail(startIndex + p - 1)` |
| `NonEmptyCollection.ResolveValid` | Template.playground/Sources/Externals/NonEmpty/NonEmpty+MutableCollection.swift:70 | an `Int` position resolves to a valid `Index` if and only if `p` lies from 0 up to the length of `tail`, so negative and past-the-end positions trap |
| `NonEmptyCollection.ResolveOffset` | Template.playground/Sources/Externals/NonEmpty/NonEmpty+MutableCollection.swift:70-73 | the `Int` mapping shared by get and set puts position `p` at place `p` of `[head] + tail` |
| `NonEmptyCollection.OffsetResolve` | Template.playground/Sources/Externals/NonEmpty/NonEmpty+MutableCollection.swift:46-76 | every valid `Index` is the resolution of exactly one in-range `Int` position, so the two addressing modes reach the same slots |
| `NonEmptyCollection.NonEmpty.constructor` | Template.playground/Sources/Externals/NonEmpty/NonEmpty+MutableCollection.swift:46-76 | construction stores exactly the given head, tail and tail start index, which are the three pieces of state both subscripts read. The general `init(head, tail)` source is not part of this model |
| `NonEmptyCollection.NonEmpty.Single` | Template.playground/Pages/Tests.xcplaygroundpage/Contents.swift:264-268 | `NonEmpty(head)` stores the head with an empty, zero-based tail |
| `Boxes.Box.constructor` | Template.playground/Sources/Utilities/Boxes.swift:3-10 | `init` stores exactly the given value. The value is a `const`, so no later operation changes it |
| `Boxes.MutableBox.constructor` | Template.playground/Sources/Utilities/Boxes.swift:7-12 | the inherited `init` stores exactly the given value |
| `Boxes.MutableBox.Set` | Template.playground/Sources/Utilities/Boxes.swift:14-16 | after `set(v)` the box holds `v`, and only this box is modified |
| `Boxes.LastWriteWins` | Template.playground/Sources/Utilities/Boxes.swift:14-16 | after an initial value and two `set` calls, the box holds the last value written |
| `Optionals.Zip` | Template.playground/Pages/Tests.xcplaygroundpage/Contents.swift:24-35 | the zip is present if and only if both inputs are, and then its components are the two values |
| `Optionals.SafeIndex` | Template.playground/Pages/Tests.xcplaygroundpage/Contents.swift:5-11 | `c[safe: i]` is present if and only if `i` is a valid index of `c`, and then it holds `c[i]` |
| `Eithers.Either.LeftValue` | Template.playground/Pages/Tests.xcplaygroundpage/Contents.swift:294-296 | `left` is present if and only if the value is a left, and then it holds the left payload |
| `Eithers.Either.RightValue` | Template.playground/Pages/Tests.xcplaygroundpage/Contents.swift:297-298 | `right` is present if and only if the value is a right, and then it holds the right payload |
| `Eithers.ExactlyOneSide` | Template.playground/Pages/Tests.xcplaygroundpage/Contents.swift:294-299 | exactly one of `left` and `right` is present |
| `Results.Result.Value` | Template.playground/Pages/Tests.xcplaygroundpage/Contents.swift:307-311 | `value` is present if and only if the result is a success, and then it holds the success value |
| `Results.Result.Error` | Template.playground/Pages/Tests.xcplaygroundpage/Contents.swift:312-313 | `error` is present if and only if the result is a failure, and then it holds the error |
| `Results.Result.Map` | Template.playground/Pages/Tests.xcplaygroundpage/Contents.swift:321-322 | `map(f)` keeps success or failure. It applies `f` to a success value and passes the error on unchanged |
| `Results.Zip` | Template.playground/Pages/Tests.xcplaygroundpage/Contents.swift:316-323 | the zip succeeds if and only if both inputs succeed, and then it holds both values as a pair. Otherwise it holds the first failure met (left-biased) |
| `Results.ExactlyOneState` | Template.playground/Pages/Tests.xcplaygroundpage/Contents.swift:301-314 | a result is exactly one of success or failure, and exactly one of `value` and `error` is present |
| `Composition.ForwardIsPipeline` | Template.playground/Pages/Tests.xcplaygroundpage/Contents.swift:133-141 | `(f >-> g)(x)` equals `x \|> f \|> g` |
| `Composition.ForwardAssociative` | Template.playground/Pages/Tests.xcplaygroundpage/Contents.swift:37-45 | a `>->` chain is the same however it is grouped, and applies its stages left to right |
| `Composition.BackwardAssociative` | Template.playground/Pages/Tests.xcplaygroundpage/Contents.swift:47-55 | a `<-<` chain is the same however it is grouped, and applies its stages right to left |
| `Composition.Mirror` | Template.playground/Pages/Tests.xcplaygroundpage/Contents.swift:37-55 | `(f >-> g)(x) == (g <-< f)(x)`. `Backward` is defined as the argument-swapped `Forward`, so this holds by definition; the behaviour of backward chains is stated by `Composition.BackwardAssociative` |
| `Composition.IdentityNeutral` | Template.playground/Pages/Tests.xcplaygroundpage/Contents.swift:133-141 | `identity` is neutral on either side of `>->`, and `x \|> identity == x`. `Composition.Identity` is a helper that this law is stated with; no identity function appears in the test pages |
| `Currying.CurriedApplication2` | Template.playground/Pages/Tests.xcplaygroundpage/Contents.swift:233-239 | supplying both arguments one at a time to `curry(f)` equals `f(a, b)`. This unfolds `Curry2`; the inverse relation is `Currying.RoundTrip2` |
| `Currying.CurriedApplication3` | Template.playground/Pages/Tests.xcplaygroundpage/Contents.swift:236-241 | supplying three arguments one at a time to `curry(f)` equals `f(a, b, c)`. This unfolds `Curry3`; the inverse relation is `Currying.RoundTrip3` |
| `Currying.RoundTrip2` | Template.playground/Pages/Tests.xcplaygroundpage/Contents.swift:248-262 | for two arguments, `uncurry(curry(f))` behaves as `f`, and `curry(uncurry(g))` behaves as `g` |
| `Currying.RoundTrip3` | Template.playground/Pages/Tests.xcplaygroundpage/Contents.swift:248-262 | for three arguments, `uncurry(curry(f))` behaves as `f`, and `curry(uncurry(g))` behaves as `g` |
| `Binding.BindSeqConcat` | Template.playground/Pages/Tests.xcplaygroundpage/Contents.swift:143-154 | array bind over `xs + ys` is the bind over `xs` followed by the bind over `ys` |
| `Binding.BindSeqLiftedIsMap` | Template.playground/Pages/Tests.xcplaygroundpage/Contents.swift:143-154 | `xs >>- (f >-> pure)` equals element-wise `map(f)`, so every element is transformed in order and the length is kept |
| `Binding.BindSeqLeftIdentity` | Template.playground/Pages/Tests.xcplaygroundpage/Contents.swift:57-67 | `pure(x) >>- f == f(x)` for arrays |
| `Binding.BindSeqRightIdentity` | Template.playground/Pages/Tests.xcplaygroundpage/Contents.swift:143-154 | `xs >>- pure == xs` |
| `Binding.BindSeqAssociative` | Template.playground/Pages/Tests.xcplaygroundpage/Contents.swift:143-167 | binding an array in two steps equals one bind with the Kleisli composite |
| `Binding.KleisliSeqAssociative` | Template.playground/Pages/Tests.xcplaygroundpage/Contents.swift:57-79 | Kleisli composition of array-producing functions is the same however it is grouped |
| `Binding.KleisliSeqOfLifted` | Template.playground/Pages/Tests.xcplaygroundpage/Contents.swift:57-79 | `(f >-> pure) >-> (g >-> pure)` on arrays equals `pure` of the plain composite |
| `Binding.BindSeqBackwardChain` | Template.playground/Pages/Tests.xcplaygroundpage/Contents.swift:156-167 | `f -<< (g -<< xs)` binds `g` first, then `f` |
| `Binding.BindOptionShortCircuit` | Template.playground/Pages/Tests.xcplaygroundpage/Contents.swift:169-191 | `none >>- f` is `none`, and `some(x) >>- f` is `f(x)`. The result is present if and only if the input is present and `f` yields a value |
| `Binding.BindOptionLaws` | Template.playground/Pages/Tests.xcplaygroundpage/Contents.swift:81-103 | left identity, right identity and associativity of optional bind |
| `Binding.KleisliOptionOfLifted` | Template.playground/Pages/Tests.xcplaygroundpage/Contents.swift:81-103 | Kleisli composition of `pure`-lifted stages on optionals equals `pure` of the plain composite |
| `Binding.BindResultShortCircuit` | Template.playground/Pages/Tests.xcplaygroundpage/Contents.swift:193-231 | a failure comes out of bind with its original error, and a success is handed to `f` |
| `Binding.BindResultLaws` | Template.playground/Pages/Tests.xcplaygroundpage/Contents.swift:105-131 | left identity, right identity and associativity of result bind |
| `Binding.KleisliResultOfLifted` | Template.playground/Pages/Tests.xcplaygroundpage/Contents.swift:105-131 | Kleisli composition of `pure`-lifted stages on results equals `pure` of the plain composite |
| `Tagging.EqualIffRawEqual` | Template.playground/Pages/Tests.xcplaygroundpage/Contents.swift:270-278 | two tagged values of one tag type are equal if and only if their raw values are |
| `PlaygroundTests.SafeIndexCase` | Template.playground/Pages/Tests.xcplaygroundpage/Contents.swift:5-11 | `[1, 2, 3][safe: 0]` is present and `[1, 2, 3][safe: 10]` is absent |
| `PlaygroundTests.PresentCase` | Template.playground/Pages/Tests.xcplaygroundpage/Contents.swift:13-22 | `1` as an optional is present and holds 1, and `nil` is not present |
| `PlaygroundTests.OptionalZipCase` | Template.playground/Pages/Tests.xcplaygroundpage/Contents.swift:24-35 | `zip(1, 2)` is present with components 1 and 2 |
| `PlaygroundTests.ComposeCases` | Template.playground/Pages/TestOperators.xcplaygroundpage/Contents.swift:5-23 | `(add1 >-> double >-> square)(1) == 16` and `(add1 <-< double <-< square)(1) == 3`. These cases also appear at Tests.xcplaygroundpage/Contents.swift:37-55 |
| `PlaygroundTests.ArrayComposeCases` | Template.playground/Pages/TestOperators.xcplaygroundpage/Contents.swift:25-47 | array Kleisli composition of the three lifted stages gives `[16]` forward and `[3]` backward. These cases also appear at Tests.xcplaygroundpage/Contents.swift:57-79 |
| `PlaygroundTests.OptionalComposeCases` | Template.playground/Pages/TestOperators.xcplaygroundpage/Contents.swift:49-71 | optional Kleisli composition gives 16 forward and 3 backward. These cases also appear at Tests.xcplaygroundpage/Contents.swift:81-103 |
| `PlaygroundTests.ResultComposeCases` | Template.playground/Pages/TestOperators.xcplaygroundpage/Contents.swift:73-99 | result Kleisli composition has value 16 forward and 3 backward. These cases also appear at Tests.xcplaygroundpage/Contents.swift:105-131 |
| `PlaygroundTests.PipeCase` | Template.playground/Pages/TestOperators.xcplaygroundpage/Contents.swift:101-109 | `1 \|> add1 \|> double \|> square == 16`. This case also appears at Tests.xcplaygroundpage/Contents.swift:133-141 |
| `PlaygroundTests.ArrayBindForwardCase` | Template.playground/Pages/TestOperators.xcplaygroundpage/Contents.swift:111-122 | `[1, 2, 3] >>- add1 >>- double >>- square`, with each stage lifted by `pure`, gives `[16, 36, 64]`. This case also appears at Tests.xcplaygroundpage/Contents.swift:143-154 |
| `PlaygroundTests.ArrayBindBackwardCase` | Template.playground/Pages/TestOperators.xcplaygroundpage/Contents.swift:124-135 | the right-grouped `-<<` chain over `[1, 2, 3]` gives `[3, 9, 19]`. This case also appears at Tests.xcplaygroundpage/Contents.swift:156-167 |
| `PlaygroundTests.OptionalBindCases` | Template.playground/Pages/TestOperators.xcplaygroundpage/Contents.swift:137-159 | `some(1)` gives 16 forward and 3 backward, and `none` stays `none` both ways. These cases also appear at Tests.xcplaygroundpage/Contents.swift:169-191 |
| `PlaygroundTests.ResultBindCases` | Template.playground/Pages/TestOperators.xcplaygroundpage/Contents.swift:161-199 | success gives value 16 forward and 3 backward, and a failure yields the same `TestError` both ways. These cases also appear at Tests.xcplaygroundpage/Contents.swift:193-231 |
| `PlaygroundTests.CurryCase` | Template.playground/Pages/Tests.xcplaygroundpage/Contents.swift:233-246 | piping 1 through the partially applied curried add, multiply and addAndMultiply gives 12 |
| `PlaygroundTests.UncurryCase` | Template.playground/Pages/Tests.xcplaygroundpage/Contents.swift:248-262 | `uncurry` applied to the hand-written curried add, multiply and addAndMultiply lambdas gives 12 through the chain |
| `PlaygroundTests.NonEmptyCase` | Template.playground/Pages/Tests.xcplaygroundpage/Contents.swift:264-268 | `NonEmpty(1)` has head 1, an empty tail, one element, and reads 1 at position 0 |
| `PlaygroundTests.TaggedCase` | Template.playground/Pages/Tests.xcplaygroundpage/Contents.swift:270-278 | `PersonId(rawValue: 1)` equals `PersonId(rawValue: 1)`, as the test asserts. The second clause, that it differs from `PersonId(rawValue: 2)`, goes beyond the test |
| `PlaygroundTests.EitherCase` | Template.playground/Pages/Tests.xcplaygroundpage/Contents.swift:294-299 | `Either(1).left == 1` and `Either("1").right == "1"` |
| `PlaygroundTests.NeverCase` | Template.playground/Pages/Tests.xcplaygroundpage/Contents.swift:301-305 | a result built from 1 has value 1 and is a success, for every error type, which includes the uninhabited `Never` |
| `PlaygroundTests.ResultCase` | Template.playground/Pages/Tests.xcplaygroundpage/Contents.swift:307-314 | a result built from 1 is a success holding 1, and one built from `TestError` is a failure |
| `PlaygroundTests.ResultZipCase` | Template.playground/Pages/Tests.xcplaygroundpage/Contents.swift:316-323 | `Result.zip(1, 2).map(sum)` has value 3 |

## Left out

- `WeakBox` (`Boxes.swift:19-38`) is not modelled. It relies on weak references, `ObjectIdentifier` hashing and reference identity, which are garbage-collector semantics with no Dafny counterpart.
- `MutableBox` is a subclass of `Box` in the source. Dafny classes cannot inherit without traits, so the model has two separate classes: `Box` with a `const` value and `MutableBox` with a `var` value.
- The commented-out Swift 5 block (`NonEmpty+MutableCollection.swift:1-43`) is dead code. Its `_modify` accessors mean the same as the live accessors at :46-76.
- `NonEmpty` is a value type in Swift. The class model captures update in place but not copy-on-assignment: two references to one `NonEmpty` object alias, while two Swift variables would not.
- The tail is a `seq` indexed from `tailStart`. This covers any Int-indexed tail container with contiguous indices, such as an array or an array slice.
- The unit conversions `TaggedMoney` and `TaggedTime` (Tests.xcplaygroundpage/Contents.swift:280-292) are not modelled. They use `Double` raw values and floating-point equality.
- `Tagged`'s phantom tag is a type parameter of the datatype. Its type-level distinction is Dafny's own type checking, and nothing about it is proved.
- `Never`: Dafny has no uninhabited type here, so `NeverCase` is stated for every error type, which includes the "always success" instance.
- `ifPresent` (Tests.xcplaygroundpage/Contents.swift:18-20) is not modelled. It runs a side-effecting closure, and the only observable part, whether the closure runs, is `IsPresent`.
- Partial functions: Dafny functions are total and pure, so "binding over `none` or a failure never invokes the function" is stated as an equality of results. Nothing about whether a call happens is stated.
- Swift implicitly promotes a plain `Int -> Int` stage to `Int -> Int?` in the optional-bind test. The model writes that promotion out as `f >-> pure`.
- The playground test harness (`test`, `expectEqual`, `expectTrue`, `expectFalse`, `runAllTests`) and the page markup are reporting plumbing and are not modelled.
- Swift's `Int` overflow traps are not modelled. All values are unbounded `int`, and the asserted values are small.
- The monoid extensions and the other `NonEmpty` operations (its initialisers, `Collection` conformance and the rest) are not part of this model.
