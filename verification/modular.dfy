/** Facts about Euclidean remainder by a positive modulus that the
    evaluation counter's modulo reduction relies on. */
module Modular {

  lemma MulAtLeast(d: int, f: int)
    requires d >= 1 && f > 0
    ensures d * f >= f
  {
    var k := d - 1;
    assert d * f == k * f + f;
    assert k * f >= 0;
  }

  /** The remainder is the unique `m` in [0, f) with `x == q * f + m`. */
  lemma ModUnique(x: int, f: int, q: int, m: int)
    requires f > 0 && 0 <= m < f && x == q * f + m
    ensures x % f == m
  {
    var d := q - x / f;
    assert x == (x / f) * f + x % f;
    assert d * f == x % f - m;
    if d >= 1 {
      MulAtLeast(d, f);
    } else if d <= -1 {
      MulAtLeast(-d, f);
    }
  }

  /** Counting one more step keeps two congruent counters congruent. */
  lemma ModSucc(a: nat, b: nat, f: int)
    requires f > 0
    requires a % f == b % f
    ensures (a + 1) % f == (b + 1) % f
  {
    var r := a % f;
    assert a == (a / f) * f + r;
    assert b == (b / f) * f + r;
    if r + 1 == f {
      ModUnique(a + 1, f, a / f + 1, 0);
      ModUnique(b + 1, f, b / f + 1, 0);
    } else {
      ModUnique(a + 1, f, a / f, r + 1);
      ModUnique(b + 1, f, b / f, r + 1);
    }
  }

  /** Reducing a counter modulo `f` keeps it congruent, and when it had
      reached `f` it loses at least `f`. */
  lemma ModReduce(x: nat, f: int)
    requires f > 0
    ensures (x % f) % f == x % f
    ensures x >= f ==> x % f <= x - f
  {
    ModUnique(x % f, f, 0, x % f);
    if x >= f {
      assert x == (x / f) * f + x % f;
      MulAtLeast(x / f, f);
    }
  }

  /** Adding the same amount to two congruent counters keeps them congruent. */
  lemma ModAdd(a: nat, b: nat, k: nat, f: int)
    requires f > 0
    requires a % f == b % f
    ensures (a + k) % f == (b + k) % f
  {
    var r := a % f;
    var q := (r + k) / f;
    var m := (r + k) % f;
    assert a == (a / f) * f + r;
    assert b == (b / f) * f + r;
    assert r + k == q * f + m;
    assert a + k == (a / f + q) * f + m;
    assert b + k == (b / f + q) * f + m;
    ModUnique(a + k, f, a / f + q, m);
    ModUnique(b + k, f, b / f + q, m);
  }

  /** Below the modulus, congruent counters are equal. */
  lemma ModSmall(a: nat, b: nat, f: int)
    requires f > 0 && a < f && b < f && a % f == b % f
    ensures a == b
  {
    ModUnique(a, f, 0, a);
    ModUnique(b, f, 0, b);
  }
}
