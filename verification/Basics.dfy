/** Small types shared by the component models. */
module Basics {

  datatype Option<+T> = None | Some(value: T)

  type Byte = b: int | 0 <= b < 256

  type Bytes = seq<Byte>

  /** The numbers below n in order: the indices of a preallocated storage vector. */
  function Indices(n: nat): seq<nat> {
    seq(n, i requires 0 <= i < n => i)
  }

  lemma IndicesOccurOnce(n: nat, x: nat)
    ensures multiset(Indices(n))[x] <= 1
    decreases n
  {
    if n == 0 {
      assert Indices(0) == [];
    } else {
      assert Indices(n) == Indices(n - 1) + [n - 1];
      assert n - 1 !in Indices(n - 1);
      IndicesOccurOnce(n - 1, x);
    }
  }
}
