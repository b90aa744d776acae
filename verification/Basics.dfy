// Small shared vocabulary.

module Basics {

  datatype Option<+T> = None | Some(value: T)

  /** The value `m` holds for `k`, or `d` when it holds none. */
  function At<K, V>(m: map<K, V>, k: K, d: V): V {
    if k in m then m[k] else d
  }

  function Min(a: int, b: int): int {
    if a <= b then a else b
  }

  function Max(a: int, b: int): int {
    if a >= b then a else b
  }

  /** 2 to the `n`. */
  function Pow2(n: nat): (p: int)
    ensures p >= 1
  {
    if n == 0 then 1 else 2 * Pow2(n - 1)
  }

  lemma NonEmpty(s: set<int>)
    requires s != {}
    ensures exists x :: x in s
  {
    assert (forall x :: x !in s) ==> s == {};
  }
}
