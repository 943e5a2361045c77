/** Counting up, and division and multiplication by a variable, which the solver needs spelled out. */
module Arithmetic {

  /** 0, 1, ..., n - 1. */
  function Range(n: nat): (r: seq<nat>)
    ensures |r| == n && forall i :: 0 <= i < n ==> r[i] == i
  {
    if n == 0 then [] else Range(n - 1) + [n - 1]
  }

  lemma DivStep(x: nat, m: nat)
    requires m > 0
    ensures (x + 1) / m == x / m + if (x + 1) % m == 0 then 1 else 0
  {
    var q, r := x / m, x % m;
    assert x == q * m + r;
    if r + 1 < m {
      DivIs(x + 1, m, q, r + 1);
    } else {
      assert x + 1 == (q + 1) * m;
      DivIs(x + 1, m, q + 1, 0);
    }
  }

  lemma DivIs(x: nat, m: nat, q: nat, r: nat)
    requires r < m && x == q * m + r
    ensures x / m == q && x % m == r
  {
    var q', r' := x / m, x % m;
    assert x == q' * m + r';
    MulStep(q', q, m);
    MulStep(q, q', m);
  }

  lemma MulStep(a: nat, b: nat, m: nat)
    ensures a < b ==> a * m + m <= b * m
  {
    if a < b {
      var d := b - a - 1;
      assert b * m == (a + 1 + d) * m == a * m + m + d * m;
    }
  }

  lemma DivMonotone(x: nat, y: nat, m: nat)
    requires x <= y && m > 0
    ensures x / m <= y / m
  {
    assert x == (x / m) * m + x % m && y == (y / m) * m + y % m;
    MulStep(y / m, x / m, m);
  }

  lemma MulMonotone(a: nat, b: nat, c: nat, d: nat)
    requires a <= c && b <= d
    ensures a * b <= c * d
  {
    assert a * b <= c * b;
    assert c * b <= c * d;
  }

  // ----- bits -----

  function Pow2(k: nat): (r: nat)
    ensures r > 0
  {
    if k == 0 then 1 else 2 * Pow2(k - 1)
  }

  /** `v << k`. */
  function ShiftLeft(v: nat, k: nat): nat {
    v * Pow2(k)
  }

  /** `a | b`, bit by bit. */
  function BitOr(a: nat, b: nat): nat {
    if a == 0 then b
    else if b == 0 then a
    else 2 * BitOr(a / 2, b / 2) + if a % 2 == 1 || b % 2 == 1 then 1 else 0
  }

  /** Or-ing in bits below a shift adds them. */
  lemma {:induction false} OrBelowShift(v: nat, b: nat, k: nat)
    requires b < Pow2(k)
    ensures BitOr(ShiftLeft(v, k), b) == ShiftLeft(v, k) + b
  {
    if k > 0 && v > 0 && b > 0 {
      var x := ShiftLeft(v, k - 1);
      assert ShiftLeft(v, k) == 2 * x;
      OrBelowShift(v, b / 2, k - 1);
      OrStep(x, b);
    }
  }

  lemma OrStep(x: nat, b: nat)
    requires x > 0 && b > 0
    ensures BitOr(2 * x, b) == 2 * BitOr(x, b / 2) + b % 2
  {
    assert (2 * x) / 2 == x && (2 * x) % 2 == 0;
  }

  lemma Pow2Of8()
    ensures Pow2(8) == 256
  {
    assert Pow2(2) == 4 && Pow2(4) == 16 && Pow2(6) == 64;
  }
}
