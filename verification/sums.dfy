/** Finite sums indexed by row number, and the laws the ledger proofs need of them. */
module Sums {

  /** f(0) + ... + f(n-1). */
  function SumTo(n: nat, f: nat -> int): int {
    if n == 0 then 0 else SumTo(n - 1, f) + f(n - 1)
  }

  lemma {:induction false} SumToSame(n: nat, f: nat -> int, g: nat -> int)
    requires forall i: nat | i < n :: f(i) == g(i)
    ensures SumTo(n, f) == SumTo(n, g)
  {
    if n > 0 {
      SumToSame(n - 1, f, g);
    }
  }

  /** Changing one summand changes the sum by the difference. */
  lemma {:induction false} SumToChange(n: nat, f: nat -> int, g: nat -> int, k: nat)
    requires k < n
    requires forall i: nat | i < n && i != k :: f(i) == g(i)
    ensures SumTo(n, g) == SumTo(n, f) - f(k) + g(k)
  {
    if k == n - 1 {
      SumToSame(n - 1, f, g);
    } else {
      SumToChange(n - 1, f, g, k);
    }
  }

  lemma {:induction false} SumToZero(n: nat, f: nat -> int)
    requires forall i: nat | i < n :: f(i) == 0
    ensures SumTo(n, f) == 0
  {
    if n > 0 {
      SumToZero(n - 1, f);
    }
  }

  /** Summands beyond m that vanish may be dropped. */
  lemma {:induction false} SumToExtend(m: nat, n: nat, f: nat -> int)
    requires m <= n
    requires forall i: nat | m <= i < n :: f(i) == 0
    ensures SumTo(n, f) == SumTo(m, f)
  {
    if m < n {
      SumToExtend(m, n - 1, f);
    }
  }

  lemma {:induction false} SumToAdd(n: nat, f: nat -> int, g: nat -> int, h: nat -> int)
    requires forall i: nat | i < n :: h(i) == f(i) + g(i)
    ensures SumTo(n, h) == SumTo(n, f) + SumTo(n, g)
  {
    if n > 0 {
      SumToAdd(n - 1, f, g, h);
    }
  }

  lemma {:induction false} SumToScale(n: nat, f: nat -> int, g: nat -> int, c: int)
    requires forall i: nat | i < n :: g(i) == c * f(i)
    ensures SumTo(n, g) == c * SumTo(n, f)
  {
    if n > 0 {
      SumToScale(n - 1, f, g, c);
      assert c * (SumTo(n - 1, f) + f(n - 1)) == c * SumTo(n - 1, f) + c * f(n - 1);
    }
  }

  /** Pointwise |f| <= g sums to |sum f| <= sum g. */
  lemma {:induction false} SumToBound(n: nat, f: nat -> int, g: nat -> int)
    requires forall i: nat | i < n :: -g(i) <= f(i) <= g(i)
    ensures -SumTo(n, g) <= SumTo(n, f) <= SumTo(n, g)
  {
    if n > 0 {
      SumToBound(n - 1, f, g);
    }
  }

  /** A double sum may be taken by rows or by columns. */
  lemma {:induction false} SumToSwap(m: nat, n: nat, f: (nat, nat) -> int, rows: nat -> int, cols: nat -> int)
    requires forall i: nat | i < m :: rows(i) == SumTo(n, (j: nat) => f(i, j))
    requires forall j: nat | j < n :: cols(j) == SumTo(m, (i: nat) => f(i, j))
    ensures SumTo(m, rows) == SumTo(n, cols)
  {
    if m == 0 {
      SumToZero(n, cols);
    } else {
      var less := (j: nat) => SumTo(m - 1, (i: nat) => f(i, j));
      var last := (j: nat) => f(m - 1, j);
      SumToSwap(m - 1, n, f, rows, less);
      SumToAdd(n, less, last, cols);
    }
  }
}
