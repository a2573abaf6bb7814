/** Small helpers shared by the modules of the cluster model. */
module Common {

  /** An optional value: JavaScript's `undefined` on one side, a value on the other. */
  datatype Option<T> = None | Some(value: T)

  /** Message data, which is passed on without being looked at. */
  type Payload = string

  /** The elements of a sequence, as a set. */
  function Elems<T>(s: seq<T>): set<T>
  {
    set x | x in s
  }

  /** No element of `s` occurs twice. */
  predicate Distinct<T(==)>(s: seq<T>)
  {
    forall i, j | 0 <= i < j < |s| :: s[i] != s[j]
  }

  /** `s` with its element at position `i` taken out. */
  function RemoveAt<T>(s: seq<T>, i: nat): (r: seq<T>)
    requires i < |s|
    ensures |r| == |s| - 1
    ensures forall j | 0 <= j < i :: r[j] == s[j]
    ensures forall j | i <= j < |r| :: r[j] == s[j + 1]
    ensures forall x | x in r :: x in s
  {
    s[..i] + s[i + 1..]
  }
}
