/** Small value types shared by the Classroom and Users modules: an optional
    value (a dictionary key that may be missing, a null timestamp), a result
    that is either a value or the KeyError a Python dictionary or pandas
    index lookup raises, and an order-preserving map over a sequence (a
    Python list comprehension `[f(x) for x in xs]`). */
module Wrappers {

  datatype Option<+T> = None | Some(value: T) {
    /** `d.get(key, default)` once the lookup has produced this option */
    function GetOr(default: T): T {
      match this
      case Some(v) => v
      case None => default
    }
  }

  /** The exception raised by `d[key]` when `key` is absent */
  datatype KeyError = KeyError(key: string)

  datatype Result<+R> = Success(value: R) | Failure(error: KeyError)

  /** `[f(x) for x in xs]`: one result per element, in order */
  function MapSeq<A, B>(f: A -> B, xs: seq<A>): (ys: seq<B>)
    ensures |ys| == |xs|
    ensures forall i :: 0 <= i < |xs| ==> ys[i] == f(xs[i])
  {
    if xs == [] then [] else [f(xs[0])] + MapSeq(f, xs[1..])
  }

  /** Mapping distributes over concatenation, so a list split in two maps
      to the two mapped halves. */
  lemma MapSeqAppend<A, B>(f: A -> B, xs: seq<A>, ys: seq<A>)
    ensures MapSeq(f, xs + ys) == MapSeq(f, xs) + MapSeq(f, ys)
  {
  }
}
