/** `UnityEngine.Resources.ConvertObjects<T>`: turns the engine's untyped object array into a
    typed one. An element is `None` for a null reference; `isT` says whether an object's
    runtime type is `T` (or derives from it), i.e. whether the cast `(T)` succeeds. */
module Resources {
  import opened Wrappers

  datatype CastError = InvalidCast

  /** The cast of one element: null always casts, an object only when it is a `T`. */
  predicate Casts<X>(element: Option<X>, isT: X -> bool) {
    element.None? || isT(element.value)
  }

  /** A null array gives null; otherwise a new array of the same length holding the same
      elements in the same order, unless some element is not a `T`, which throws. The input
      array is only read. */
  method ConvertObjects<X>(rawObjects: array?<Option<X>>, isT: X -> bool) returns (r: Result<array?<Option<X>>, CastError>)
    ensures rawObjects == null ==> r == Success(null)
    ensures rawObjects != null && (forall i :: 0 <= i < rawObjects.Length ==> Casts(rawObjects[i], isT)) ==>
      && r.Success? && r.value != null && fresh(r.value)
      && r.value.Length == rawObjects.Length
      && r.value[..] == rawObjects[..]
    ensures rawObjects != null && (exists i :: 0 <= i < rawObjects.Length && !Casts(rawObjects[i], isT)) ==>
      r == Failure(InvalidCast)
  {
    if rawObjects == null {
      return Success(null);
    }
    var converted := new Option<X>[rawObjects.Length](_ => None);
    for i := 0 to converted.Length
      invariant forall k :: 0 <= k < i ==> converted[k] == rawObjects[k] && Casts(rawObjects[k], isT)
    {
      if !Casts(rawObjects[i], isT) {
        return Failure(InvalidCast);
      }
      converted[i] := rawObjects[i];
    }
    assert converted[..] == rawObjects[..];
    return Success(converted);
  }
}
