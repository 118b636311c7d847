/** Integer facts behind the port rings: remainders, greatest common divisors and Bezout's identity. */
module Arithmetic {

  function Abs(x: int): nat {
    if x < 0 then -x else x
  }

  function Min(x: int, y: int): int {
    if x < y then x else y
  }

  function Max(x: int, y: int): int {
    if x < y then y else x
  }

  ghost predicate Divides(d: int, x: int) {
    exists q :: x == q * d
  }

  /** Euclid's algorithm. */
  function Gcd(a: nat, b: nat): nat
    decreases b
  {
    if b == 0 then a else Gcd(b, a % b)
  }

  lemma Scale(k: int, m: int)
    requires k >= 1 && m >= 0
    ensures k * m >= m
  {
    assert (k - 1) * m >= 0;
  }

  lemma RemainderIs(x: int, q: int, m: int, r: int)
    requires 0 <= r < m && x == q * m + r
    ensures x % m == r && x / m == q
  {
    var q', r' := x / m, x % m;
    assert x == q' * m + r';
    assert (q - q') * m == r' - r;
    if q > q' {
      Scale(q - q', m);
    } else if q < q' {
      Scale(q' - q, m);
    }
  }

  /** Adding inside a remainder is the same as adding outside it. */
  lemma RemainderAbsorbs(x: int, y: int, m: int)
    requires m > 0
    ensures (x % m + y) % m == (x + y) % m
  {
    var q, k := x / m, (x + y) / m;
    assert x == q * m + x % m;
    assert x + y == k * m + (x + y) % m;
    assert x % m + y == (k - q) * m + (x + y) % m by {
      assert (k - q) * m == k * m - q * m;
    }
    RemainderIs(x % m + y, k - q, m, (x + y) % m);
  }

  lemma DividesSum(d: int, x: int, y: int)
    requires Divides(d, x) && Divides(d, y)
    ensures Divides(d, x + y) && Divides(d, x - y)
  {
    var p :| x == p * d;
    var q :| y == q * d;
    assert x + y == (p + q) * d;
    assert x - y == (p - q) * d;
  }

  lemma DividesMultiple(d: int, x: int, k: int)
    requires Divides(d, x)
    ensures Divides(d, k * x)
  {
    var p :| x == p * d;
    assert k * x == (k * p) * d;
  }

  lemma DividesIsRemainderZero(d: int, x: int)
    requires d > 0
    ensures Divides(d, x) <==> x % d == 0
  {
    if Divides(d, x) {
      var q :| x == q * d;
      RemainderIs(x, q, d, 0);
    }
    if x % d == 0 {
      assert x == (x / d) * d;
    }
  }

  lemma {:induction false} GcdDivides(a: nat, b: nat)
    ensures Divides(Gcd(a, b), a) && Divides(Gcd(a, b), b)
    decreases b
  {
    var g := Gcd(a, b);
    if b == 0 {
      assert a == 1 * g && b == 0 * g;
    } else {
      GcdDivides(b, a % b);
      DividesMultiple(g, b, a / b);
      DividesSum(g, (a / b) * b, a % b);
      assert a == (a / b) * b + a % b;
    }
  }

  /** Bezout: the greatest common divisor is an integer combination of its arguments. */
  lemma {:induction false} Bezout(a: nat, b: nat) returns (x: int, y: int)
    ensures x * a + y * b == Gcd(a, b)
    decreases b
  {
    if b == 0 {
      x, y := 1, 0;
    } else {
      var x', y' := Bezout(b, a % b);
      var q := a / b;
      x, y := y', x' - y' * q;
      assert a % b == a - q * b;
      calc {
        x * a + y * b;
        y' * a + (x' - y' * q) * b;
        { assert (x' - y' * q) * b == x' * b - y' * (q * b); }
        y' * a + x' * b - y' * (q * b);
        { assert y' * (a - q * b) == y' * a - y' * (q * b); }
        x' * b + y' * (a - q * b);
      }
    }
  }

  lemma {:induction false} GcdPositive(a: nat, b: nat)
    requires a > 0 || b > 0
    ensures Gcd(a, b) > 0
    decreases b
  {
    if b != 0 {
      GcdPositive(b, a % b);
    }
  }

  lemma BezoutSigned(s: int, m: nat) returns (x: int, y: int)
    ensures x * s + y * m == Gcd(Abs(s), m)
  {
    x, y := Bezout(Abs(s), m);
    if s < 0 {
      assert (-x) * s == x * Abs(s);
      x := -x;
    }
  }

  /** Modulo `m`, the multiples of `s` reach every multiple of their greatest common divisor. */
  lemma ReachMultiple(s: int, m: nat, t: int) returns (i: nat, z: int)
    requires m > 0
    ensures i < m && i * s == t * Gcd(Abs(s), m) + z * m
  {
    var x, y := BezoutSigned(s, m);
    var g := Gcd(Abs(s), m);
    var w := t * x;
    i := w % m;
    var k := w / m;
    z := -(t * y) - k * s;
    assert i == w - k * m;
    hide Gcd, Abs;
    ScaledBezout(s, m, t, x, y, g);
    Regroup(s, m, w, k, t * y);
  }

  lemma ScaledBezout(s: int, m: int, t: int, x: int, y: int, g: int)
    requires x * s + y * m == g
    ensures (t * x) * s == t * g - (t * y) * m
  {
    assert t * (x * s + y * m) == t * (x * s) + t * (y * m);
    assert t * (x * s) == (t * x) * s;
    assert t * (y * m) == (t * y) * m;
  }

  lemma Regroup(s: int, m: int, w: int, k: int, v: int)
    ensures (w - k * m) * s == w * s + v * m + (-v - k * s) * m
  {
    assert (w - k * m) * s == w * s - (k * m) * s;
    assert (k * m) * s == (k * s) * m;
    assert (-v - k * s) * m == -(v * m) - (k * s) * m;
  }

  /** When `s` and `m` are coprime, only multiples of `m` are sent to multiples of `m`. */
  lemma CoprimeCancels(s: int, m: nat, d: int, q: int)
    requires m > 0 && Gcd(Abs(s), m) == 1 && d * s == q * m
    ensures d % m == 0
  {
    var x, y := BezoutSigned(s, m);
    assert d * (x * s + y * m) == d;
    assert d * (x * s) == x * (d * s);
    assert x * (q * m) == (x * q) * m;
    assert d * (y * m) == (d * y) * m;
    assert d == (x * q + d * y) * m;
    RemainderIs(d, x * q + d * y, m, 0);
  }

  lemma {:induction false} SomeIsGreatest(s: set<int>, e: int) returns (m: int)
    requires e in s
    ensures m in s && forall x | x in s :: x <= m
    decreases s
  {
    if x :| x in s && x > e {
      m := SomeIsGreatest(s - {e}, x);
      assert forall y | y in s :: y in s - {e} || y == e;
    } else {
      m := e;
    }
  }
}
