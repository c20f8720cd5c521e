/** Conjunction of numbers, bit by bit, and what it is for a mask of the lowest bits. */
module Flags {

  function And(a: nat, b: nat): nat {
    if a == 0 || b == 0 then 0
    else (if a % 2 == 1 && b % 2 == 1 then 1 else 0) + 2 * And(a / 2, b / 2)
  }

  predicate HasBit(n: nat, i: nat) {
    if i == 0 then n % 2 == 1 else HasBit(n / 2, i - 1)
  }

  lemma {:induction false} NoBits(i: nat)
    ensures !HasBit(0, i)
  {
    if i != 0 {
      NoBits(i - 1);
    }
  }

  /** A bit survives if and only if both numbers have it. */
  lemma {:induction false} AndBits(a: nat, b: nat, i: nat)
    ensures HasBit(And(a, b), i) <==> HasBit(a, i) && HasBit(b, i)
  {
    NoBits(i);
    if i != 0 && a != 0 && b != 0 {
      AndBits(a / 2, b / 2, i - 1);
      assert And(a, b) / 2 == And(a / 2, b / 2);
    }
  }

  function Pow2(k: nat): (p: nat)
    ensures p > 0
  {
    if k == 0 then 1 else 2 * Pow2(k - 1)
  }

  lemma ModHalves(n: nat, p: nat)
    requires p > 0
    ensures n % (2 * p) == n % 2 + 2 * ((n / 2) % p)
  {
    var (q, r) := ((n / 2) / p, (n / 2) % p);
    assert n / 2 == p * q + r;
    var low := n % 2 + 2 * r;
    assert n == (2 * p) * q + low;
    Remainder(n, 2 * p, q, low);
  }

  lemma Multiple(m: nat, x: int)
    ensures x >= 1 ==> m * x >= m
    ensures x <= -1 ==> m * x + m <= 0
  {
  }

  lemma Remainder(n: nat, m: nat, q: int, r: nat)
    requires m > 0 && n == m * q + r && r < m
    ensures n % m == r
  {
    var d := q - n / m;
    assert m * d == n % m - r;
    Multiple(m, d);
  }

  /** The conjunction with the lowest `k` bits is the remainder by 2 to the power `k`. */
  lemma {:induction false} AndLow(n: nat, k: nat)
    ensures And(n, Pow2(k) - 1) == n % Pow2(k)
  {
    if k != 0 {
      var half := Pow2(k - 1) - 1;
      AndLow(n / 2, k - 1);
      ModHalves(n, Pow2(k - 1));
      assert (Pow2(k) - 1) % 2 == 1 && (Pow2(k) - 1) / 2 == half;
    }
  }
}
