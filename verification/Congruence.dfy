/**
 Linear congruential generators x -> a * x + b with a == 1 modulo 4 and b odd: modulo every
 power of two they have full period. The proof works on the iterates without reduction.
 */
module Congruence {

  // ---------- Products ----------

  lemma Associate(a: int, b: int, c: int)
    ensures a * b * c == a * (b * c)
  {
  }

  lemma Distribute(a: int, b: int, c: int)
    ensures (a + b) * c == a * c + b * c
  {
  }

  lemma Bounded(m: nat, p: int, q: int)
    requires p < q
    ensures m * p + m <= m * q
  {
    Distribute(p, q - p, m);
    assert m * (q - p) >= m by { AtLeastOnce(m, q - p); }
  }

  lemma AtLeastOnce(m: nat, d: int)
    requires 0 < d
    ensures m <= m * d
  {
    assert m * d == m + m * (d - 1);
    NonNegative(m, d - 1);
  }

  lemma NonNegative(m: nat, d: nat)
    ensures 0 <= m * d
  {
  }

  // ---------- Remainders ----------

  /** Quotient and remainder are unique. */
  lemma Unique(y: nat, m: nat, q: nat, r: nat)
    requires m > 0 && y == m * q + r && r < m
    ensures y % m == r && y / m == q
  {
    var d := y / m;
    assert m * d + y % m == y;
    if d < q { Bounded(m, d, q); } else if q < d { Bounded(m, q, d); }
  }

  lemma MultipleAway(x: nat, m: nat, k: nat)
    requires m > 0
    ensures (x + m * k) % m == x % m
  {
    var q, r := x / m, x % m;
    Distribute(q, k, m);
    Unique(x + m * k, m, q + k, r);
  }

  lemma SplitProduct(w: nat, a: nat, m: nat)
    requires m > 0
    ensures w * a == w % m * a + m * (w / m * a)
  {
    var q, r := w / m, w % m;
    assert w == m * q + r;
    Distribute(m * q, r, a);
    Associate(m, q, a);
  }

  /** Reducing before a multiplication and an addition changes nothing. */
  lemma ReduceFirst(w: nat, a: nat, b: nat, m: nat)
    requires m > 0
    ensures (w % m * a + b) % m == (w * a + b) % m
  {
    SplitProduct(w, a, m);
    var y, z := w / m * a, w % m * a;
    NonNegative(w / m, a);
    NonNegative(w % m, a);
    MultipleAway(z + b, m, y);
  }

  /** Reducing modulo a multiple of p first changes nothing modulo p. */
  lemma ReduceTwice(w: nat, p: nat, d: nat)
    requires p > 0 && d > 0
    ensures p * d > 0 && w % (p * d) % p == w % p
  {
    var m := p * d;
    AtLeastOnce(p, d);
    var q, r := w / m, w % m;
    assert w == m * q + r;
    Associate(p, d, q);
    NonNegative(d, q);
    MultipleAway(r, p, d * q);
  }

  lemma SameResidue(a: nat, b: nat, m: nat) returns (d: nat)
    requires m > 0 && a <= b && a % m == b % m
    ensures b - a == m * d
  {
    var p, q := a / m, b / m;
    Distribute(p, q - p, m);
    if q < p { Bounded(m, q, p); }
    d := q - p;
  }

  // ---------- Powers of two ----------

  function Pow2(k: nat): (p: nat)
    ensures p > 0
  {
    if k == 0 then 1 else 2 * Pow2(k - 1)
  }

  lemma {:induction false} Pow2Splits(k: nat, n: nat)
    ensures Pow2(k + n) == Pow2(k) * Pow2(n)
  {
    if n > 0 {
      Pow2Splits(k, n - 1);
      Associate(Pow2(k), Pow2(n - 1), 2);
    }
  }

  lemma Pow2Of8()
    ensures Pow2(8) == 256
  {
  }

  lemma Pow2Of32()
    ensures Pow2(32) == 0x1_0000_0000
  {
    hide Pow2;
    Pow2Of8();
    Pow2Splits(8, 8);
    Pow2Splits(16, 16);
  }

  lemma EvenPart(a: nat, c: nat, y: nat)
    requires a * (2 * c + 1) == 2 * y
    ensures a == 2 * (a / 2) && a / 2 * (2 * c + 1) == y
  {
    var b := a / 2;
    assert a * (2 * c + 1) == 2 * (a * c) + a;
    assert a == 2 * b;
    Associate(2, b, 2 * c + 1);
  }

  /** An odd factor does not help to reach a power of two. */
  lemma {:induction false} OddCancels(a: nat, c: nat, k: nat, q: nat) returns (d: nat)
    requires a * (2 * c + 1) == Pow2(k) * q
    ensures a == Pow2(k) * d
  {
    if k == 0 {
      d := a;
    } else {
      var p := Pow2(k - 1);
      Associate(2, p, q);
      NonNegative(p, q);
      EvenPart(a, c, p * q);
      d := OddCancels(a / 2, c, k - 1, q);
      Associate(2, p, d);
    }
  }

  /** The divisors of a power of two are powers of two. */
  lemma {:induction false} DivisorOfPow2(m: nat, d: nat, n: nat) returns (k: nat)
    requires m * d == Pow2(n)
    ensures k <= n && m == Pow2(k)
    decreases n
  {
    if n == 0 {
      k := 0;
      OneTimesOne(m, d);
    } else if m % 2 == 0 {
      Associate(2, m / 2, d);
      k := DivisorOfPow2(m / 2, d, n - 1);
      k := k + 1;
    } else {
      OddTimes(m, d, Pow2(n - 1));
      k := DivisorOfPow2(m, d / 2, n - 1);
    }
  }

  lemma OneTimesOne(m: nat, d: nat)
    requires m * d == 1
    ensures m == 1
  {
    assert m == 0 ==> m * d == 0;
    assert d == 0 ==> m * d == 0;
    if m > 1 { Bounded(d, 1, m); }
  }

  lemma OddTimes(m: nat, d: nat, y: nat)
    requires m % 2 == 1 && m * d == 2 * y
    ensures m * (d / 2) == y
  {
    var c := m / 2;
    assert d * (2 * c + 1) == 2 * y by { assert m == 2 * c + 1; }
    EvenPart(d, c, y);
    assert d / 2 * (2 * c + 1) == m * (d / 2);
  }

  // ---------- Iterates ----------

  /** x after n steps, not reduced. */
  function Whole(a: nat, b: nat, x: nat, n: nat): nat { if n == 0 then x else Whole(a, b, x, n - 1) * a + b }

  function Power(a: nat, n: nat): nat { if n == 0 then 1 else Power(a, n - 1) * a }

  /** 1 + a + ... + a^(n-1) */
  function Geometric(a: nat, n: nat): nat { if n == 0 then 0 else Geometric(a, n - 1) * a + 1 }

  lemma {:induction false} PowerOfSum(a: nat, n: nat)
    requires a > 0
    ensures Power(a, n) == (a - 1) * Geometric(a, n) + 1
  {
    if n > 0 {
      PowerOfSum(a, n - 1);
      PowerStep(a - 1, Geometric(a, n - 1));
    }
  }

  lemma PowerStep(b: nat, g: nat)
    ensures (b * g + 1) * (b + 1) == b * (g * (b + 1) + 1) + 1
  {
    var u, v := b * g, g * b;
    Associate(b, g, b);
    Distribute(u, 1, b + 1);
    Distribute(v, g, b);
    assert b * (v + g + 1) == b * v + u + b;
    assert g * (b + 1) == v + g;
  }

  lemma {:induction false} GeometricAdds(a: nat, m: nat, n: nat)
    ensures Geometric(a, m + n) == Geometric(a, n) + Geometric(a, m) * Power(a, n)
  {
    if n > 0 {
      GeometricAdds(a, m, n - 1);
      var g, h, p := Geometric(a, m), Geometric(a, n - 1), Power(a, n - 1);
      Distribute(h, g * p, a);
      Associate(g, p, a);
    }
  }

  /** Doubling n doubles the sum, up to an odd factor. */
  lemma GeometricDoubles(c: nat, m: nat)
    ensures var a, g := 4 * c + 1, Geometric(4 * c + 1, m);
      Geometric(a, 2 * m) == 2 * (g * (2 * (c * g) + 1))
  {
    hide Geometric, Power;
    var a := 4 * c + 1;
    var g := Geometric(a, m);
    GeometricAdds(a, m, m);
    PowerOfSum(a, m);
    Associate(4, c, g);
    var z := c * g;
    assert Geometric(a, 2 * m) == g + g * (4 * z + 1);
    Twofold(g, z);
  }

  lemma Twofold(g: nat, z: nat)
    ensures g + g * (4 * z + 1) == 2 * (g * (2 * z + 1))
  {
    var y := g * z;
    assert g * (4 * z + 1) == 4 * y + g && g * (2 * z + 1) == 2 * y + g;
  }

  lemma {:induction false} GeometricParity(d: nat, n: nat)
    ensures Geometric(2 * d + 1, n) % 2 == n % 2
  {
    if n > 0 {
      GeometricParity(d, n - 1);
      StepParity(Geometric(2 * d + 1, n - 1), d, n);
    }
  }

  lemma StepParity(g: nat, d: nat, n: nat)
    requires n > 0 && g % 2 == (n - 1) % 2
    ensures (g * (2 * d + 1) + 1) % 2 == n % 2
  {
    OddFactor(g, d);
    NextParity(g * (2 * d + 1), n);
  }

  lemma NextParity(h: nat, n: nat)
    requires n > 0 && h % 2 == (n - 1) % 2
    ensures (h + 1) % 2 == n % 2
  {
  }

  lemma OddFactor(g: nat, d: nat)
    ensures g * (2 * d + 1) == 2 * (g * d) + g && (g * (2 * d + 1)) % 2 == g % 2
  {
    var y := g * d;
    assert g * (2 * d + 1) == 2 * y + g;
  }

  /** The sum is divisible by 2^k only if n is. */
  lemma {:induction false} TwosOfSum(c: nat, n: nat, k: nat, q: nat) returns (d: nat)
    requires Geometric(4 * c + 1, n) == Pow2(k) * q
    ensures n == Pow2(k) * d
  {
    hide Geometric;
    if k == 0 {
      d := n;
    } else {
      var p, m := Pow2(k - 1), n / 2;
      Associate(2, p, q);
      GeometricParity(2 * c, n);
      assert n == 2 * m;
      GeometricDoubles(c, m);
      var g := Geometric(4 * c + 1, m);
      var r := OddCancels(g, c * g, k - 1, q);
      d := TwosOfSum(c, m, k - 1, r);
      Associate(2, p, d);
    }
  }

  lemma {:induction false} WholeAdds(a: nat, b: nat, x: nat, m: nat, n: nat)
    ensures Whole(a, b, x, m + n) == Whole(a, b, Whole(a, b, x, m), n)
  {
    if n > 0 { WholeAdds(a, b, x, m, n - 1); }
  }

  /** n steps move x by the sum times (a - 1) * x + b. */
  lemma {:induction false} WholeMoves(a: nat, b: nat, x: nat, n: nat)
    requires a > 0
    ensures Whole(a, b, x, n) == x + Geometric(a, n) * ((a - 1) * x + b)
  {
    if n > 0 {
      WholeMoves(a, b, x, n - 1);
      var g, k := Geometric(a, n - 1), (a - 1) * x + b;
      Distribute(x, g * k, a);
      Associate(g, k, a);
      Associate(g, a, k);
      Distribute(g * a, 1, k);
      assert x * a == x + (a - 1) * x by { Distribute(a - 1, 1, x); }
      assert g * (k * a) == g * (a * k);
    }
  }

  /** Fewer than 2^k steps never return to the same residue modulo 2^k. */
  lemma NoReturn(c: nat, e: nat, x: nat, k: nat, n: nat)
    requires 0 < n < Pow2(k)
    ensures Whole(4 * c + 1, 2 * e + 1, x, n) % Pow2(k) != x % Pow2(k)
  {
    hide Whole, Geometric, Pow2;
    var a, b := 4 * c + 1, 2 * e + 1;
    var y := Whole(a, b, x, n);
    WholeMoves(a, b, x, n);
    var g, z := Geometric(a, n), 2 * (c * x) + e;
    assert (a - 1) * x + b == 2 * z + 1 by { Associate(4, c, x); }
    NonNegative(g, 2 * z + 1);
    if y % Pow2(k) == x % Pow2(k) {
      var q := SameResidue(x, y, Pow2(k));
      var r := OddCancels(g, z, k, q);
      var d := TwosOfSum(c, n, k, r);
      assert d == 0 ==> Pow2(k) * d == 0;
      if d > 0 { AtLeastOnce(Pow2(k), d); }
    }
  }
}
