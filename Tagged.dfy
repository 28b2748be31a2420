/** `Tagged<Tag, RawValue>`: a raw value distinguished at the type level by a phantom `Tag`. */
module Tagging {

  datatype Tagged<Tag, RawValue> = Tagged(rawValue: RawValue)

  /** Two tagged values of the same tag type are equal exactly when their raw values are. */
  lemma EqualIffRawEqual<Tag, RawValue>(a: Tagged<Tag, RawValue>, b: Tagged<Tag, RawValue>)
    ensures a == b <==> a.rawValue == b.rawValue
  {
  }
}
