/** Failure-carrying datatypes shared by every module. */
module Wrappers {
  datatype Option<+T> = None | Some(value: T)

  datatype Result<+T, +E> = Ok(value: T) | Err(error: E)

  /** Induction from 0 to `n` over a property given as a function. */
  lemma {:induction false} HoldsUpTo(n: nat, p: nat -> bool)
    requires p(0) && forall k: nat | k < n && p(k) :: p(k + 1)
    ensures p(n)
  {
    if n != 0 {
      HoldsUpTo(n - 1, p);
      assert p(n - 1 + 1);
    }
  }
}
