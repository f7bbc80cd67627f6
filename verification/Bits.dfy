/** Powers of two, bits and the XOR metric on natural numbers. */
module Bits {

  function Pow2(k: nat): (r: nat)
    ensures r >= 1
  {
    if k == 0 then 1 else 2 * Pow2(k - 1)
  }

  lemma {:induction false} Pow2Grows(j: nat, k: nat)
    requires j <= k
    ensures Pow2(j) <= Pow2(k)
    ensures j < k ==> 2 * Pow2(j) <= Pow2(k)
    decreases k
  {
    if j < k {
      Pow2Grows(j, k - 1);
    }
  }

  /** The number of bits needed to tell `n` values apart. */
  function CeilLog2(n: nat): nat {
    if n <= 1 then 0 else 1 + CeilLog2((n + 1) / 2)
  }

  lemma {:induction false} CeilLog2IsLeast(n: nat)
    ensures n <= Pow2(CeilLog2(n))
    ensures n >= 2 ==> Pow2(CeilLog2(n) - 1) < n
  {
    if n >= 2 {
      CeilLog2IsLeast((n + 1) / 2);
    }
  }

  // ---------------------------------------------------------------- the XOR metric

  function Xor(a: nat, b: nat): nat
    decreases a + b
  {
    if a == 0 && b == 0 then 0
    else 2 * Xor(a / 2, b / 2) + if a % 2 != b % 2 then 1 else 0
  }

  lemma {:induction false} XorZero(a: nat, b: nat)
    ensures Xor(a, b) == 0 <==> a == b
    decreases a + b
  {
    if a != 0 || b != 0 {
      XorZero(a / 2, b / 2);
    }
  }

  lemma {:induction false} XorCommutes(a: nat, b: nat)
    ensures Xor(a, b) == Xor(b, a)
    decreases a + b
  {
    if a != 0 || b != 0 {
      XorCommutes(a / 2, b / 2);
    }
  }

  /** `a` without its `k` lowest bits. */
  function Shift(a: nat, k: nat): nat
    decreases k
  {
    if k == 0 then a else Shift(a / 2, k - 1)
  }

  predicate Bit(a: nat, k: nat) {
    Shift(a, k) % 2 == 1
  }

  lemma {:induction false} ShiftOneMore(a: nat, k: nat)
    ensures Shift(a, k + 1) == Shift(a, k) / 2
    decreases k
  {
    if k > 0 {
      ShiftOneMore(a / 2, k - 1);
    }
  }

  lemma {:induction false} ShiftedAway(a: nat, k: nat)
    ensures Shift(a, k) == 0 <==> a < Pow2(k)
    decreases k
  {
    if k > 0 {
      ShiftedAway(a / 2, k - 1);
    }
  }

  /** Two numbers are closer than 2^k exactly when they agree above bit `k`. */
  lemma {:induction false} CloseMeansSamePrefix(a: nat, b: nat, k: nat)
    ensures Xor(a, b) < Pow2(k) <==> Shift(a, k) == Shift(b, k)
    decreases k
  {
    if k == 0 {
      XorZero(a, b);
    } else {
      CloseMeansSamePrefix(a / 2, b / 2, k - 1);
      assert Xor(a, b) / 2 == Xor(a / 2, b / 2);
    }
  }

  // ---------------------------------------------------------------- one bits

  function OneBits(n: nat): nat {
    if n == 0 then 0 else n % 2 + OneBits(n / 2)
  }

  /** The number of binary digits. */
  function BitLength(n: nat): nat {
    if n == 0 then 0 else 1 + BitLength(n / 2)
  }

  lemma {:induction false} BitLengthBounds(n: nat)
    ensures n < Pow2(BitLength(n))
    ensures n > 0 ==> Pow2(BitLength(n) - 1) <= n
    ensures OneBits(n) <= BitLength(n)
  {
    if n > 0 {
      BitLengthBounds(n / 2);
    }
  }

  lemma {:induction false} BitLengthGrows(m: nat, n: nat)
    requires m <= n
    ensures BitLength(m) <= BitLength(n)
  {
    if m > 0 {
      BitLengthGrows(m / 2, n / 2);
    }
  }

  lemma HalfWithout(n: nat, h: nat)
    requires h <= n / 2
    ensures (n - 2 * h) / 2 == n / 2 - h && (n - 2 * h) % 2 == n % 2
    ensures OneBits(n - 2 * h) == n % 2 + OneBits(n / 2 - h)
  {
    if n - 2 * h == 0 {
      assert OneBits(n / 2 - h) == 0;
    }
  }

  /** The value of the leading one bit. */
  function Top(n: nat): (r: nat)
    requires n > 0
    ensures 1 <= r <= n < 2 * r
  {
    if n == 1 then 1 else 2 * Top(n / 2)
  }

  lemma {:induction false} TopIsPower(n: nat)
    requires n > 0
    ensures BitLength(n) > 0 && Top(n) == Pow2(BitLength(n) - 1)
  {
    if n > 1 {
      TopIsPower(n / 2);
    } else {
      assert BitLength(n) == 1;
    }
  }

  lemma LeadingStep(n: nat, h: nat)
    requires n > 1 && h <= n / 2 && OneBits(n / 2) == 1 + OneBits(n / 2 - h)
    ensures OneBits(n) == 1 + OneBits(n - 2 * h)
  {
    HalfWithout(n, h);
  }

  /** Taking away the leading one bit takes away exactly one. */
  lemma {:induction false} LeadingBit(n: nat)
    requires n > 0
    ensures OneBits(n) == 1 + OneBits(n - Top(n))
  {
    if n > 1 {
      LeadingBit(n / 2);
      LeadingStep(n, Top(n / 2));
    } else {
      assert OneBits(1) == 1 && Top(1) == 1;
    }
  }

  lemma OneBitsBound(d: nat, m: nat)
    requires d <= m
    ensures OneBits(d) <= BitLength(m)
  {
    BitLengthBounds(d);
    BitLengthGrows(d, m);
  }

  lemma PowersWithin(m: nat, k: nat)
    ensures k < BitLength(m) <==> Pow2(k) <= m
  {
    BitLengthBounds(m);
    if k < BitLength(m) {
      Pow2Grows(k, BitLength(m) - 1);
    } else {
      Pow2Grows(BitLength(m), k);
    }
  }
}
