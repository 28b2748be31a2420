/**
 * Indexed access to a non-empty collection stored as a mandatory `head` and a `tail`
 * container whose own indices start at `tailStart` (the tail's `startIndex`).
 */
module NonEmptyCollection {

  /** A position addressed by region: the head, or an index of the tail container. */
  datatype Index = Head | Tail(index: int)

  /** The `Int` subscript's translation: 0 is the head, `p` is tail index `tailStart + p - 1`. */
  function Resolve(position: int, tailStart: int): Index {
    if position == 0 then Head else Tail(tailStart + position - 1)
  }

  /** Where an `Index` falls in the logical sequence `[head] + tail`. */
  function Offset(i: Index, tailStart: int): int {
    match i
    case Head => 0
    case Tail(k) => k - tailStart + 1
  }

  /** `i` addresses an element, given a tail of `count` elements indexed from `tailStart`. */
  predicate IsIndex(i: Index, tailStart: int, count: nat) {
    i.Head? || tailStart <= i.index < tailStart + count
  }

  /** An `Int` position resolves to a valid `Index` exactly when it lies in `0 ..< 1 + count`. */
  lemma ResolveValid(position: int, tailStart: int, count: nat)
    ensures IsIndex(Resolve(position, tailStart), tailStart, count) <==> 0 <= position <= count
  {
  }

  /** Resolving an `Int` position and taking its offset gives the position back. */
  lemma ResolveOffset(position: int, tailStart: int)
    ensures Offset(Resolve(position, tailStart), tailStart) == position
  {
  }

  /** Every valid `Index` is the resolution of exactly one in-range `Int` position. */
  lemma OffsetResolve(i: Index, tailStart: int, count: nat)
    requires IsIndex(i, tailStart, count)
    ensures 0 <= Offset(i, tailStart) <= count
    ensures Resolve(Offset(i, tailStart), tailStart) == i
  {
  }

  class NonEmpty<T> {
    var head: T
    var tail: seq<T>
    var tailStart: int

    /** `NonEmpty(head, tail)` over a tail container whose indices start at `tailStart`. */
    constructor (head: T, tail: seq<T>, tailStart: int)
      ensures this.head == head && this.tail == tail && this.tailStart == tailStart
    {
      this.head := head;
      this.tail := tail;
      this.tailStart := tailStart;
    }

    /** `NonEmpty(head)`: a single element over an empty array tail. */
    constructor Single(head: T)
      ensures this.head == head && tail == [] && tailStart == 0
    {
      this.head := head;
      tail := [];
      tailStart := 0;
    }

    /** The logical sequence: never empty, and position 0 is the head. */
    function Elements(): (s: seq<T>)
      reads this
      ensures |s| == Count() && s[0] == head && s[1..] == tail
    {
      [head] + tail
    }

    function Count(): nat
      reads this
    {
      1 + |tail|
    }

    predicate IsValidIndex(i: Index)
      reads this
    {
      IsIndex(i, tailStart, |tail|)
    }

    /** `self[position]` for an `Index`: the element at that index's place in `Elements()`. */
    function Get(position: Index): (x: T)
      reads this
      requires IsValidIndex(position)
      ensures x == Elements()[Offset(position, tailStart)]
    {
      match position
      case Head => head
      case Tail(k) => tail[k - tailStart]
    }

    /** `self[position]` for an `Int`: the element at that position of `Elements()`. */
    function GetAt(position: int): (x: T)
      reads this
      requires 0 <= position < Count()
      ensures x == Elements()[position]
    {
      ResolveValid(position, tailStart, |tail|);
      ResolveOffset(position, tailStart);
      Get(Resolve(position, tailStart))
    }

    /** `self[position] = v` for an `Index`: replaces one slot, in the head or in the tail. */
    method Set(position: Index, v: T)
      requires IsValidIndex(position)
      modifies this
      ensures tailStart == old(tailStart) && Count() == old(Count())
      ensures Elements() == old(Elements())[Offset(position, tailStart) := v]
      ensures position.Head? ==> head == v && tail == old(tail)
      ensures position.Tail? ==> head == old(head)
      ensures Get(position) == v
      ensures position.Head? ==> GetAt(0) == v
    {
      match position
      case Head =>
        head := v;
      case Tail(k) =>
        tail := tail[k - tailStart := v];
    }

    /** `self[position] = v` for an `Int`: the same slot the `Int` getter reads. */
    method SetAt(position: int, v: T)
      requires 0 <= position < Count()
      modifies this
      ensures tailStart == old(tailStart) && Count() == old(Count())
      ensures Elements() == old(Elements())[position := v]
      ensures GetAt(position) == v
      ensures position > 0 ==> IsValidIndex(Tail(tailStart + position - 1))
                               && Get(Tail(tailStart + position - 1)) == v
    {
      ResolveValid(position, tailStart, |tail|);
      ResolveOffset(position, tailStart);
      Set(Resolve(position, tailStart), v);
    }
  }
}
