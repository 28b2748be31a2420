/** Single-value holders: a `Box` whose value cannot be reassigned from outside, and a `MutableBox`. */
module Boxes {

  /** `Box<T>`: the value is fixed at initialisation (no mutator is exposed). */
  class Box<T> {
    const value: T

    constructor (value: T)
      ensures this.value == value
    {
      this.value := value;
    }
  }

  /** `MutableBox<T>`: a box whose value `set` overwrites in place. */
  class MutableBox<T> {
    var value: T

    constructor (value: T)
      ensures this.value == value
    {
      this.value := value;
    }

    /** `set(v)`: afterwards the box holds `v`; the box is the only object changed. */
    method Set(value: T)
      modifies this
      ensures this.value == value
    {
      this.value := value;
    }
  }

  /** The last `set` wins over the initial value and over every earlier write. */
  method LastWriteWins<T>(initial: T, first: T, last: T) returns (m: MutableBox<T>)
    ensures fresh(m)
    ensures m.value == last
  {
    m := new MutableBox(initial);
    m.Set(first);
    m.Set(last);
  }
}
