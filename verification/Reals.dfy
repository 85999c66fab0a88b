/** Sums of n equal reals, by recursion and as a product. */
module Reals {
  function Repeat(n: nat, x: real): real {
    if n == 0 then 0.0 else Repeat(n - 1, x) + x
  }

  lemma {:induction false} RepeatMonotone(m: nat, n: nat, x: real)
    requires m <= n && 0.0 <= x
    ensures Repeat(m, x) + (if m < n then x else 0.0) <= Repeat(n, x)
  {
    if m < n { RepeatMonotone(m, n - 1, x); }
  }

  lemma {:induction false} RepeatProduct(n: nat, x: real)
    ensures Repeat(n, x) == n as real * x
  {
    if n > 0 {
      RepeatProduct(n - 1, x);
      OneMore(n - 1, x);
    }
  }

  lemma {:induction false} OneMore(n: nat, x: real)
    ensures (n + 1) as real * x == n as real * x + x
  {
  }
}
