/** Facts about integer division used by the lane loop and the row chunking. */
module Division {

  lemma MultipleAwayFromZero(k: int, n: int)
    requires n > 0
    ensures k >= 1 ==> k * n >= n
    ensures k <= -1 ==> k * n <= -n
  {
  }

  /** Quotient and remainder are unique: if a == q * n + r with 0 <= r < n, they are a / n and a % n. */
  lemma DivModUnique(a: int, n: int, q: int, r: int)
    requires n > 0 && 0 <= r < n && a == q * n + r
    ensures a / n == q && a % n == r
  {
    var d := a / n;
    assert a == d * n + a % n;
    assert (d - q) * n == r - a % n;
    MultipleAwayFromZero(d - q, n);
  }
}
