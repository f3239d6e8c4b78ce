/** The filter syntax tree of src/Tag.ts: a closed union of six immutable
    node kinds. Every field of the source classes is `readonly`, so a node is a
    value: a datatype constructor stores its arguments unchanged, in order. */
module Filters {

  datatype Filter =
    | Tag(key: string)
    | MetaTag(key: string, value: string)
    | TrueTag
    | OrTag(left: Filter, right: Filter)
    | AndTag(left: Filter, right: Filter)
    | NotTag(inner: Filter)
  {
    /** The leaves the tag-id cache accepts (`Tag | MetaTag` in the source). */
    predicate IsLeafTag() {
      Tag? || MetaTag?
    }
  }

  /** Number of nodes of a filter; a measure for proofs by induction. */
  function Size(f: Filter): (n: nat)
    ensures n >= 1
  {
    match f
    case Tag(_) => 1
    case MetaTag(_, _) => 1
    case TrueTag => 1
    case OrTag(l, r) => 1 + Size(l) + Size(r)
    case AndTag(l, r) => 1 + Size(l) + Size(r)
    case NotTag(i) => 1 + Size(i)
  }
}
