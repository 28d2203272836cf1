/** Shared value types: optional and fallible results, the safe-integer bound of
    JavaScript's number type, and the array filter used by several of its modules. */
module Prelude {

  datatype Option<+T> = None | Some(value: T)

  datatype Result<+T, +E> = Ok(value: T) | Err(error: E)

  /** Opaque identifiers (uuids, hashes, account bindings, owner and task ids). */
  type Id = nat

  /** Largest integer that `Number.isSafeInteger` accepts. */
  const MAX_SAFE_INTEGER: int := 9007199254740991

  function Max(a: int, b: int): int {
    if a < b then b else a
  }

  function Min(a: int, b: int): int {
    if a < b then a else b
  }

  /** The elements of `s` that satisfy `keep`, in order. */
  function Filter<T(!new)>(s: seq<T>, keep: T -> bool): (r: seq<T>)
    ensures forall x :: x in r <==> x in s && keep(x)
    ensures |r| <= |s|
  {
    if s == [] then
      []
    else
      var rest := Filter(s[..|s| - 1], keep);
      assert s == s[..|s| - 1] + [s[|s| - 1]];
      if keep(s[|s| - 1]) then rest + [s[|s| - 1]] else rest
  }
}
