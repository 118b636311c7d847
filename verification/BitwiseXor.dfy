/** Exclusive or on naturals, bit by bit. */
module BitwiseXor {
  function Xor(a: nat, b: nat): nat
    decreases a + b
  {
    if a == 0 then b else if b == 0 then a else (a % 2 + b % 2) % 2 + 2 * Xor(a / 2, b / 2)
  }

  lemma XorUnfolds(a: nat, b: nat)
    ensures Xor(a, b) == (a % 2 + b % 2) % 2 + 2 * Xor(a / 2, b / 2)
  {
  }

  lemma XorHalves(a: nat, b: nat)
    ensures Xor(a, b) / 2 == Xor(a / 2, b / 2) && Xor(a, b) % 2 == (a % 2 + b % 2) % 2
  {
    XorUnfolds(a, b);
    hide Xor;
  }

  lemma BitUndoes(x: nat, y: nat)
    requires x < 2 && y < 2
    ensures ((x + y) % 2 + y) % 2 == x
  {
  }

  /** Applying the same mask twice gives the number back. */
  lemma {:induction false} XorUndoes(a: nat, b: nat)
    ensures Xor(Xor(a, b), b) == a
    decreases a + b
  {
    if a != 0 || b != 0 {
      hide Xor;
      XorHalves(a, b);
      XorHalves(Xor(a, b), b);
      BitUndoes(a % 2, b % 2);
      XorUndoes(a / 2, b / 2);
    }
  }

  function Shift(a: nat, k: nat): nat {
    if k == 0 then a else 2 * Shift(a, k - 1)
  }

  lemma {:induction false} ShiftIsProduct(a: nat, k: nat)
    ensures Shift(a, k) == a * Shift(1, k)
  {
    if k > 0 {
      ShiftIsProduct(a, k - 1);
    }
  }

  lemma XorOfDoubles(p: nat, q: nat, u: nat, v: nat)
    requires u < 2 && v < 2
    ensures Xor(2 * p + u, 2 * q + v) == (u + v) % 2 + 2 * Xor(p, q)
  {
    var a, b := 2 * p + u, 2 * q + v;
    assert a % 2 == u && b % 2 == v && a / 2 == p && b / 2 == q;
    XorUnfolds(a, b);
    hide Xor;
  }

  lemma ShiftHalves(a: nat, k: nat)
    requires k > 0
    ensures Shift(a, k) == 2 * Shift(a, k - 1)
  {
  }

  /** The `k` low bits and the rest do not mix. */
  lemma {:induction false} XorSplits(a: nat, b: nat, c: nat, d: nat, k: nat)
    requires c < Shift(1, k) && d < Shift(1, k)
    ensures Xor(Shift(a, k) + c, Shift(b, k) + d) == Shift(Xor(a, b), k) + Xor(c, d)
    ensures Xor(c, d) < Shift(1, k)
    decreases k
  {
    if k > 0 {
      ShiftHalves(a, k);
      ShiftHalves(b, k);
      ShiftHalves(1, k);
      ShiftHalves(Xor(a, b), k);
      hide Xor, Shift;
      XorSplits(a, b, c / 2, d / 2, k - 1);
      XorDoubled(Shift(a, k - 1), Shift(b, k - 1), c, d, Shift(Xor(a, b), k - 1));
    }
  }

  lemma XorDoubled(s: nat, t: nat, c: nat, d: nat, r: nat)
    requires Xor(s + c / 2, t + d / 2) == r + Xor(c / 2, d / 2)
    ensures Xor(2 * s + c, 2 * t + d) == 2 * r + Xor(c, d)
    ensures Xor(c, d) < 2 * Xor(c / 2, d / 2) + 2
  {
    hide Xor;
    var p, q, u, v := c / 2, d / 2, c % 2, d % 2;
    XorOfDoubles(p, q, u, v);
    XorOfDoubles(s + p, t + q, u, v);
    assert c == 2 * p + u && d == 2 * q + v;
    assert 2 * s + c == 2 * (s + p) + u && 2 * t + d == 2 * (t + q) + v;
  }

  lemma ByteShift(a: nat)
    ensures Shift(a, 8) == a * 0x100
  {
    ShiftIsProduct(a, 8);
    assert Shift(1, 8) == 0x100;
  }

  /** A word is exclusive-ored byte by byte. */
  lemma XorBytes(a: nat, b: nat, c: nat, d: nat)
    requires c < 0x100 && d < 0x100
    ensures Xor(a * 0x100 + c, b * 0x100 + d) == Xor(a, b) * 0x100 + Xor(c, d)
    ensures Xor(c, d) < 0x100
  {
    hide Xor, Shift;
    ByteShift(a);
    ByteShift(b);
    ByteShift(1);
    ByteShift(Xor(a, b));
    XorSplits(a, b, c, d, 8);
  }

  lemma {:induction false} ShiftAdds(a: nat, j: nat, k: nat)
    ensures Shift(a, j + k) == Shift(Shift(a, j), k)
  {
    if k > 0 {
      ShiftAdds(a, j, k - 1);
    }
  }

  lemma WordShifts()
    ensures Shift(1, 16) == 0x1_0000 && Shift(1, 32) == 0x1_0000_0000
  {
    hide Shift;
    ByteShift(1);
    ShiftAdds(1, 8, 8);
    ByteShift(Shift(1, 8));
    ShiftAdds(1, 16, 8);
    ByteShift(Shift(1, 16));
    ShiftAdds(1, 24, 8);
    ByteShift(Shift(1, 24));
  }

  /** Bit `k` of a number. */
  function Bit(x: nat, k: nat): nat {
    if k == 0 then x % 2 else Bit(x / 2, k - 1)
  }

  /** A bit is set exactly when it is set in one of the two numbers and not in the other. */
  lemma {:induction false} XorIsBitwise(a: nat, b: nat, k: nat)
    ensures Bit(Xor(a, b), k) == if Bit(a, k) == Bit(b, k) then 0 else 1
    ensures Bit(a, k) < 2 && Bit(b, k) < 2
    decreases k
  {
    hide Xor;
    XorHalves(a, b);
    if k > 0 {
      XorIsBitwise(a / 2, b / 2, k - 1);
    }
  }
}
