/**
 next_power_of_two (include/sk_memory_utils.h:32-51) and the masks built from it.
 Words are naturals below 2^64; the bit operators are defined on their binary digits.
 */
module PowerOfTwo {

  function Pow2(k: nat): (p: nat)
    ensures 0 < p
  {
    if k == 0 then 1 else 2 * Pow2(k - 1)
  }

  const WORD: nat := 0x1_0000_0000_0000_0000

  function BitOr(a: nat, b: nat): nat {
    if a == 0 && b == 0 then 0
    else 2 * BitOr(a / 2, b / 2) + (if a % 2 == 1 || b % 2 == 1 then 1 else 0)
  }

  function BitAnd(a: nat, b: nat): nat {
    if a == 0 && b == 0 then 0
    else 2 * BitAnd(a / 2, b / 2) + (if a % 2 == 1 && b % 2 == 1 then 1 else 0)
  }

  function ShiftRight(a: nat, k: nat): nat {
    if k == 0 then a else ShiftRight(a / 2, k - 1)
  }

  /** Binary digit i of n. */
  predicate Bit(n: nat, i: nat) {
    if i == 0 then n % 2 == 1 else Bit(n / 2, i - 1)
  }

  ghost predicate IsPow2(p: nat) {
    exists k: nat :: p == Pow2(k)
  }

  // ---------------------------------------------------------------- digits

  lemma {:induction false} BitOfZero(i: nat)
    ensures !Bit(0, i)
  {
    if i > 0 { BitOfZero(i - 1); }
  }

  lemma {:induction false} BitOfOr(a: nat, b: nat, i: nat)
    ensures Bit(BitOr(a, b), i) <==> Bit(a, i) || Bit(b, i)
    decreases i
  {
    if a == 0 && b == 0 { BitOfZero(i); }
    else {
      OrDigits(a, b);
      if i > 0 { BitOfOr(a / 2, b / 2, i - 1); }
    }
  }

  lemma OrDigits(a: nat, b: nat)
    ensures BitOr(a, b) / 2 == BitOr(a / 2, b / 2)
    ensures BitOr(a, b) % 2 == 1 <==> a % 2 == 1 || b % 2 == 1
  {
    DigitApart(BitOr(a / 2, b / 2), if a % 2 == 1 || b % 2 == 1 then 1 else 0);
  }

  lemma DigitApart(q: nat, d: nat)
    requires d < 2
    ensures (2 * q + d) / 2 == q && (2 * q + d) % 2 == d
  {
  }

  lemma {:induction false} BitOfShift(a: nat, k: nat, i: nat)
    ensures Bit(ShiftRight(a, k), i) <==> Bit(a, i + k)
    decreases k
  {
    if k > 0 { BitOfShift(a / 2, k - 1, i); }
  }

  /** Exactly the digits below len are ones. */
  lemma {:induction false} AllOnes(n: nat, len: nat)
    requires forall i: nat :: Bit(n, i) <==> i < len
    ensures n == Pow2(len) - 1
    decreases len
  {
    if len == 0 {
      NoDigits(n);
    } else {
      forall i: nat ensures Bit(n / 2, i) <==> i < len - 1 { assert Bit(n, i + 1) == Bit(n / 2, i); }
      assert Bit(n, 0);
      AllOnes(n / 2, len - 1);
    }
  }

  lemma {:induction false} NoDigits(n: nat)
    requires forall i: nat :: !Bit(n, i)
    ensures n == 0
  {
    if n > 0 {
      forall i: nat ensures !Bit(n / 2, i) { assert Bit(n, i + 1) == Bit(n / 2, i); }
      assert !Bit(n, 0);
      NoDigits(n / 2);
    }
  }

  /** The number of binary digits of n. */
  function Length(n: nat): (len: nat)
    ensures n < Pow2(len) && (n > 0 ==> len > 0 && Pow2(len - 1) <= n)
  {
    if n == 0 then 0 else 1 + Length(n / 2)
  }

  lemma {:induction false} TopDigit(n: nat, i: nat)
    requires i + 1 >= Length(n)
    ensures Bit(n, i) <==> i + 1 == Length(n)
    decreases i
  {
    if n == 0 { BitOfZero(i); }
    else if i > 0 { TopDigit(n / 2, i - 1); }
    else { assert Length(n / 2) == 0; }
  }

  lemma {:induction false} Pow2Monotone(i: nat, j: nat)
    requires i <= j
    ensures Pow2(i) <= Pow2(j) && (i < j ==> 2 * Pow2(i) <= Pow2(j))
    decreases j
  {
    if i < j { Pow2Monotone(i, j - 1); }
  }

  lemma {:induction false} Pow2Sum(i: nat, j: nat)
    ensures Pow2(i + j) == Pow2(i) * Pow2(j)
    decreases i
  {
    if i > 0 {
      Pow2Sum(i - 1, j);
      assert Pow2(i + j) == 2 * Pow2(i - 1 + j);
    }
  }

  // ---------------------------------------------------------------- the cascade

  /** n has len digits, and its leading w digits (or all of them) are ones. */
  ghost predicate LeadingOnes(n: nat, len: nat, w: nat) {
    forall i: nat :: (i >= len ==> !Bit(n, i)) && (len - w <= i < len ==> Bit(n, i))
  }

  /** One line of the cascade doubles the run of ones. */
  lemma Smear(n: nat, len: nat, w: nat)
    requires LeadingOnes(n, len, w)
    ensures LeadingOnes(BitOr(n, ShiftRight(n, w)), len, 2 * w)
  {
    forall i: nat
      ensures (i >= len ==> !Bit(BitOr(n, ShiftRight(n, w)), i)) && (len - 2 * w <= i < len ==> Bit(BitOr(n, ShiftRight(n, w)), i))
    {
      BitOfOr(n, ShiftRight(n, w), i);
      BitOfShift(n, w, i);
    }
  }

  /** The least power of two that is at least size, for every size up to 2^63, and never less than
      2; beyond that the addition wraps to 0. */
  method NextPowerOfTwo(size0: nat) returns (r: nat)
    requires size0 < WORD
    ensures r == LeastPow2(size0) % WORD
  {
    if size0 <= 2 {
      return 2;
    }
    var size := size0 - 1;
    ghost var len := Length(size);
    forall i: nat | i + 1 >= len ensures Bit(size, i) <==> i + 1 == len { TopDigit(size, i); }
    assert LeadingOnes(size, len, 1);
    Smear(size, len, 1);
    size := BitOr(size, ShiftRight(size, 1));
    Smear(size, len, 2);
    size := BitOr(size, ShiftRight(size, 2));
    Smear(size, len, 4);
    size := BitOr(size, ShiftRight(size, 4));
    Smear(size, len, 8);
    size := BitOr(size, ShiftRight(size, 8));
    Smear(size, len, 16);
    size := BitOr(size, ShiftRight(size, 16));
    Smear(size, len, 32);
    size := BitOr(size, ShiftRight(size, 32));
    WordLength(size0 - 1);
    AllOnes(size, len);
    r := (size + 1) % WORD;
  }

  /** The specification, on unbounded integers. */
  function LeastPow2(size: nat): nat {
    if size <= 2 then 2 else Pow2(Length(size - 1))
  }

  lemma SmallPowers()
    ensures Pow2(8) == 256 && Pow2(16) == 256 * 256
  {
    assert Pow2(4) == 16 by { assert Pow2(2) == 4; }
    Pow2Sum(4, 4);
    Pow2Sum(8, 8);
  }

  lemma WordIsPow2()
    ensures Pow2(64) == WORD && Pow2(63) == WORD / 2
  {
    assert Pow2(16) == 65536 by { SmallPowers(); }
    assert Pow2(32) == 65536 * 65536 by { Pow2Sum(16, 16); }
    assert Pow2(64) == Pow2(32) * Pow2(32) by { Pow2Sum(32, 32); }
    assert Pow2(64) == 2 * Pow2(63);
  }

  lemma {:induction false} LengthBound(n: nat, k: nat)
    requires n < Pow2(k)
    ensures Length(n) <= k
    decreases k
  {
    if n > 0 { LengthBound(n / 2, k - 1); }
  }

  lemma WordLength(n: nat)
    requires n < WORD
    ensures Length(n) <= 64 && (n < WORD / 2 ==> Length(n) <= 63)
  {
    WordIsPow2();
    LengthBound(n, 64);
    if n < WORD / 2 { LengthBound(n, 63); }
  }

  // ---------------------------------------------------------------- what the result is

  /** LeastPow2 is a power of two, at least 2 and at least size, and no such power is smaller. */
  lemma LeastPow2IsLeast(size: nat)
    ensures IsPow2(LeastPow2(size)) && 2 <= LeastPow2(size) && size <= LeastPow2(size)
    ensures forall k: nat :: 2 <= Pow2(k) && size <= Pow2(k) ==> LeastPow2(size) <= Pow2(k)
  {
    assert Pow2(1) == 2;
    if size > 2 {
      var len := Length(size - 1);
      assert Pow2(0) == 1;
      forall k: nat | size <= Pow2(k) ensures Pow2(len) <= Pow2(k) {
        if k < len { Pow2Monotone(k, len - 1); }
        Pow2Monotone(len, if k < len then len else k);
      }
    }
  }

  /** The 64-bit method computes it exactly for the sizes up to 2^63; for every larger size the
      last addition wraps around to 0. */
  lemma FitsExactlyUpTo63Bits(size: nat)
    requires size < WORD
    ensures LeastPow2(size) % WORD == LeastPow2(size) <==> size <= WORD / 2
    ensures size > WORD / 2 ==> LeastPow2(size) % WORD == 0
  {
    WordIsPow2();
    if size > 2 {
      var len := Length(size - 1);
      WordLength(size - 1);
      Pow2Monotone(len, 64);
      Pow2Monotone(if len <= 63 then len else 63, 63);
    }
  }

  /** Rounding up a second time changes nothing. */
  lemma Idempotent(size: nat)
    ensures LeastPow2(LeastPow2(size)) == LeastPow2(size)
  {
    LeastPow2IsLeast(size);
    LeastPow2IsLeast(LeastPow2(size));
    var k: nat :| LeastPow2(size) == Pow2(k);
  }

  /** Of the 64-bit value: a second call returns what the first did if and only if the size is at most
      2^63. Beyond, the first call gives 0 and the second 2. */
  lemma IdempotentUpTo63Bits(size: nat)
    requires size < WORD
    ensures var r := LeastPow2(size) % WORD;
            (LeastPow2(r) % WORD == r <==> size <= WORD / 2) && (size > WORD / 2 ==> r == 0 && LeastPow2(r) % WORD == 2)
  {
    FitsExactlyUpTo63Bits(size);
    if size <= WORD / 2 { Idempotent(size); } else { assert LeastPow2(0) == 2; }
  }

  // ---------------------------------------------------------------- masks

  /** i & (capacity - 1) is i modulo the capacity. */
  lemma {:induction false} MaskIsModulo(i: nat, k: nat)
    ensures BitAnd(i, Pow2(k) - 1) == i % Pow2(k)
    decreases k
  {
    if k == 0 {
      AndOfZero(i);
    } else {
      var p, m := Pow2(k - 1), Pow2(k) - 1;
      assert m / 2 == p - 1 && m % 2 == 1;
      assert BitAnd(i, m) == 2 * BitAnd(i / 2, m / 2) + i % 2;
      MaskIsModulo(i / 2, k - 1);
      DoubleRemainder(i, p);
    }
  }

  lemma DoubleRemainder(i: nat, p: nat)
    requires p > 0
    ensures i % (2 * p) == 2 * ((i / 2) % p) + i % 2
  {
    var q, r := (i / 2) / p, (i / 2) % p;
    assert i / 2 == p * q + r;
    assert 2 * p * q == 2 * (p * q);
    RemainderIs(i, 2 * p, q, 2 * r + i % 2);
  }

  lemma {:induction false} AndOfZero(a: nat)
    ensures BitAnd(a, 0) == 0
  {
    if a > 0 { AndOfZero(a / 2); }
  }

  lemma RemainderIs(a: nat, m: nat, q: nat, r: nat)
    requires m > 0 && a == m * q + r && r < m
    ensures a % m == r
  {
    var d := a / m - q;
    assert a == m * (a / m) + a % m;
    assert m * d == r - a % m;
    FarMultiple(m, d);
  }

  lemma FarMultiple(m: int, d: int)
    requires m > 0
    ensures d > 0 ==> m * d >= m
    ensures d < 0 ==> m * d <= 0 - m
  {
    if d > 0 {
      assert m * d == m * (d - 1) + m && m * (d - 1) >= 0;
    } else if d < 0 {
      assert m * d == 0 - m * (0 - d - 1) - m && m * (0 - d - 1) >= 0;
    }
  }
}
