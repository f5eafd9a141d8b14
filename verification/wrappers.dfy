/** Small helpers shared by every store: an optional value and the two
    `Math.min`/`Math.max` operations on reals. */
module Wrappers {

  /** An optional value: a lookup that finds nothing, an omitted argument,
      an `undefined` field. */
  datatype Option<+T> = None | Some(value: T)

  /** `findIndex` on a key: the position of the FIRST element whose key is
      `id`, or none when no element has it. */
  function FirstIndex<T>(xs: seq<T>, key: T -> string, id: string): (r: Option<nat>)
    ensures r.Some? ==> r.value < |xs| && key(xs[r.value]) == id
    ensures r.Some? ==> forall j :: 0 <= j < r.value ==> key(xs[j]) != id
    ensures r.None? ==> forall j :: 0 <= j < |xs| ==> key(xs[j]) != id
  {
    if xs == [] then None
    else if key(xs[0]) == id then Some(0)
    else match FirstIndex(xs[1..], key, id)
      case None => None
      case Some(i) => Some(i + 1)
  }

  /** The search reads keys only: sequences with the same keys position by
      position give the same index. */
  lemma {:induction false} FirstIndexByKeys<T>(xs1: seq<T>, xs2: seq<T>, key: T -> string, id: string)
    requires |xs1| == |xs2|
    requires forall j :: 0 <= j < |xs1| ==> key(xs1[j]) == key(xs2[j])
    ensures FirstIndex(xs1, key, id) == FirstIndex(xs2, key, id)
  {
    if xs1 != [] && key(xs1[0]) != id {
      FirstIndexByKeys(xs1[1..], xs2[1..], key, id);
    }
  }

  function Min(a: real, b: real): real {
    if a <= b then a else b
  }

  function Max(a: real, b: real): real {
    if a >= b then a else b
  }

  /** A strictly positive number, for the catalog's intervals and
      recommended powers (every divisor in the engine is one of these). */
  type Positive = r: real | r > 0.0 witness 1.0
}
