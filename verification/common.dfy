/** Go's machine integers, byte slices and the small result types every component shares. */
module Common {

  /** Go `uint64`: connection IDs and routing keys. */
  newtype uint64 = x: int | 0 <= x < 0x1_0000_0000_0000_0000

  /** Go `int64`: the one property type `Connection.Int64` understands. */
  newtype int64 = x: int | -0x8000_0000_0000_0000 <= x < 0x8000_0000_0000_0000

  /** A non-nil Go `[]byte`. */
  type Bytes = seq<bv8>

  datatype Option<+T> = None | Some(value: T)

  /** A value or an error, as a Go `(T, error)` pair. */
  datatype Result<+T, +E> = Ok(value: T) | Err(error: E)

  /** An operation that either succeeds with no value or fails with an error. */
  datatype Outcome<+E> = Pass | Fail(error: E)

  /** Distinct elements, no repeats. */
  predicate NoDuplicates<T(==)>(s: seq<T>)
  {
    forall i, j :: 0 <= i < j < |s| ==> s[i] != s[j]
  }

  /**
   * Go's `for x := range m` over a map or a set: every element is visited
   * exactly once, in an order that the language leaves unspecified and the
   * model does not fix either.
   */
  method Enumerate<T(==)>(s: set<T>) returns (order: seq<T>)
    ensures |order| == |s|
    ensures forall x :: x in s <==> x in order
    ensures NoDuplicates(order)
  {
    order := [];
    var rest := s;
    while rest != {}
      invariant forall x :: x in s <==> x in rest || x in order
      invariant forall x :: x in rest ==> x !in order
      invariant NoDuplicates(order)
      invariant |order| + |rest| == |s|
      decreases |rest|
    {
      var x :| x in rest;
      order := order + [x];
      rest := rest - {x};
    }
  }
}
