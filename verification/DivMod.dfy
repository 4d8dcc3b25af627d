/** Quotient and remainder under counting: the arithmetic of eviction cycles and
    of round-robin shares. */
module DivMod {

  lemma MulMonotone(a: int, b: int, k: nat)
    requires a <= b
    ensures a * k <= b * k
  {
    assert (b - a) * k >= 0;
  }

  lemma MultipleIsFar(d: int, e: nat)
    ensures d >= 1 ==> d * e >= e
    ensures d <= -1 ==> d * e <= 0 - e
  {
    if d >= 1 { MulMonotone(1, d, e); }
    if d <= -1 { MulMonotone(d, -1, e); }
  }

  lemma DivModUnique(x: nat, q: nat, r: nat, e: nat)
    requires r < e && x == q * e + r
    ensures x % e == r && x / e == q
  {
    var d := x / e - q;
    assert x == (x / e) * e + x % e;
    assert d * e == r - x % e;
    MultipleIsFar(d, e);
  }

  lemma DivModStep(x: nat, e: nat)
    requires 1 <= e
    ensures (x + 1) % e == if x % e + 1 == e then 0 else x % e + 1
    ensures (x + 1) / e == if x % e + 1 == e then x / e + 1 else x / e
  {
    var q, r := x / e, x % e;
    assert x + 1 == q * e + (r + 1);
    if r + 1 == e {
      assert x + 1 == (q + 1) * e;
      DivModUnique(x + 1, q + 1, 0, e);
    } else {
      DivModUnique(x + 1, q, r + 1, e);
    }
  }

  lemma ModAddOne(x: nat, n: nat)
    requires 1 <= n
    ensures (x % n + 1) % n == (x + 1) % n
  {
    DivModStep(x, n);
    if x % n + 1 < n { DivModUnique(x % n + 1, 0, x % n + 1, n); }
  }

  /** k / n rounded up. */
  lemma DivUp(k: nat, n: nat)
    requires 1 <= n
    ensures (k + n - 1) / n == if k % n == 0 then k / n else k / n + 1
  {
    var q, r := k / n, k % n;
    assert k == q * n + r;
    if r == 0 {
      DivModUnique(k + n - 1, q, n - 1, n);
    } else {
      assert (q + 1) * n == q * n + n;
      DivModUnique(k + n - 1, q + 1, r - 1, n);
    }
  }

  lemma MulDistributes(a: int, b: int, c: int, n: int)
    ensures (a + b + c) * n == a * n + b * n + c * n
  {
  }

  lemma DivSum(x: nat, k: nat, n: nat)
    requires 1 <= n
    ensures (x + k) / n == x / n + k / n + if x % n + k % n >= n then 1 else 0
  {
    DivSumParts(x, x / n, x % n, k, k / n, k % n, n);
  }

  lemma DivSumParts(x: nat, q: nat, r: nat, k: nat, q': nat, r': nat, n: nat)
    requires x == q * n + r && r < n && k == q' * n + r' && r' < n
    ensures (x + k) / n == q + q' + if r + r' >= n then 1 else 0
  {
    var carry := if r + r' >= n then 1 else 0;
    MulDistributes(q, q', carry, n);
    DivModUnique(x + k, q + q' + carry, r + r' - carry * n, n);
  }

  /** How far a quotient moves over `k` steps: k / n, rounded down or up. */
  lemma DivSpan(x: nat, k: nat, n: nat)
    requires 1 <= n
    ensures k / n <= (x + k) / n - x / n <= (k + n - 1) / n
  {
    DivSum(x, k, n);
    DivUp(k, n);
  }
}
