/** Sample sequences used to state properties of repeated updates. */
module Traces {

  /** `n` copies of `x`. */
  function Repeat<T>(x: T, n: nat): (xs: seq<T>)
    ensures |xs| == n
    ensures forall i :: 0 <= i < n ==> xs[i] == x
  {
    if n == 0 then [] else [x] + Repeat(x, n - 1)
  }

  /** A run of copies followed by a last element, with its first copy split off. */
  lemma RepeatThen<T>(x: T, n: nat, last: T)
    requires n >= 1
    ensures Repeat(x, n) + [last] == [x] + (Repeat(x, n - 1) + [last])
  {
    assert Repeat(x, n) == [x] + Repeat(x, n - 1);
  }
}
