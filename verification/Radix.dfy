/**
 * Numbers written in a base, most significant digit first, and the change of base that keeps one leading zero per leading
 * zero: the scheme of draft-msporny-base58, sections 3 and 4, for any two bases.
 */
module Radix {
  predicate InBase(digits: seq<nat>, base: nat) {
    forall i :: 0 <= i < |digits| ==> digits[i] < base
  }

  /** No leading zero. */
  predicate Minimal(digits: seq<nat>) {
    digits != [] ==> digits[0] != 0
  }

  /** The number the digits write. */
  function Value(digits: seq<nat>, base: nat): nat {
    if digits == [] then 0 else Value(digits[..|digits| - 1], base) * base + digits[|digits| - 1]
  }

  /** The digits of a number, with no leading zero. */
  function ToDigits(n: nat, base: nat): (digits: seq<nat>)
    requires base >= 2
    ensures InBase(digits, base) && Minimal(digits) && (n == 0 <==> digits == [])
  {
    if n == 0 then [] else
      Quotient(n, base);
      ToDigits(n / base, base) + [n % base]
  }

  lemma Quotient(n: nat, base: nat)
    requires base >= 2 && n > 0
    ensures n / base < n && n == (n / base) * base + n % base && 0 <= n % base < base
    ensures n < base ==> n / base == 0
  {
    AtLeast(n / base, base);
  }

  lemma AtLeast(q: nat, base: nat)
    requires base >= 2
    ensures q * base >= 2 * q && (q >= 1 ==> q * base >= base)
  {
    assert q * (base - 2) >= 0;
    assert q * (base - 2) == q * base - 2 * q;
    if q >= 1 {
      assert (q - 1) * base >= 0;
      assert (q - 1) * base == q * base - base;
    }
  }

  lemma DivMod(q: nat, r: nat, base: nat)
    requires r < base && base >= 2
    ensures (q * base + r) / base == q && (q * base + r) % base == r
  {
    var n := q * base + r;
    var d := n / base;
    assert n == d * base + n % base;
    assert d * base - q * base == (d - q) * base;
    if d > q {
      AtLeast(d - q, base);
    } else if d < q {
      assert (d - q) * base == -((q - d) * base);
      AtLeast(q - d, base);
    }
  }

  /** Writing a number and reading it back. */
  lemma {:induction false} ValueOfDigits(n: nat, base: nat)
    requires base >= 2
    ensures Value(ToDigits(n, base), base) == n
    decreases n
  {
    if n > 0 {
      Quotient(n, base);
      ValueOfDigits(n / base, base);
      var digits := ToDigits(n, base);
      assert digits[..|digits| - 1] == ToDigits(n / base, base);
    }
  }

  lemma {:induction false} MinimalIsPositive(digits: seq<nat>, base: nat)
    requires digits != [] && Minimal(digits) && base >= 2
    ensures Value(digits, base) > 0
  {
    if |digits| > 1 {
      MinimalIsPositive(digits[..|digits| - 1], base);
    }
  }

  /** Reading digits without a leading zero and writing the number again. */
  lemma {:induction false} DigitsOfValue(digits: seq<nat>, base: nat)
    requires base >= 2 && InBase(digits, base) && Minimal(digits)
    ensures ToDigits(Value(digits, base), base) == digits
    decreases |digits|
  {
    if digits != [] {
      var front, last := digits[..|digits| - 1], digits[|digits| - 1];
      MinimalIsPositive(digits, base);
      DigitsOfValue(front, base);
      DivMod(Value(front, base), last, base);
    }
  }

  // --- leading zeros -----------------------------------------------------------------------------------------------------

  function Zeros(k: nat): (zeros: seq<nat>)
    ensures |zeros| == k && forall i :: 0 <= i < k ==> zeros[i] == 0
  {
    seq(k, _ => 0)
  }

  function LeadingZeros(digits: seq<nat>): (k: nat)
    ensures k <= |digits| && digits[..k] == Zeros(k) && Minimal(digits[k..])
  {
    if digits == [] || digits[0] != 0 then 0
    else
      var k := LeadingZeros(digits[1..]);
      assert digits[..k + 1] == [0] + digits[1..][..k] && digits[k + 1..] == digits[1..][k..];
      k + 1
  }

  lemma {:induction false} LeadingZerosOf(k: nat, digits: seq<nat>)
    requires Minimal(digits)
    ensures LeadingZeros(Zeros(k) + digits) == k
  {
    if k > 0 {
      LeadingZerosOf(k - 1, digits);
      assert (Zeros(k) + digits)[1..] == Zeros(k - 1) + digits;
    } else {
      assert Zeros(0) + digits == digits;
    }
  }

  lemma {:induction false} ZerosAddNothing(k: nat, digits: seq<nat>, base: nat)
    ensures Value(Zeros(k) + digits, base) == Value(digits, base)
    decreases k + |digits|
  {
    var all := Zeros(k) + digits;
    if digits != [] {
      ZerosAddNothing(k, digits[..|digits| - 1], base);
      assert all[..|all| - 1] == Zeros(k) + digits[..|digits| - 1];
    } else if k > 0 {
      ZerosAddNothing(k - 1, [], base);
      assert all[..|all| - 1] == Zeros(k - 1) + [];
    }
  }

  // --- changing the base -------------------------------------------------------------------------------------------------

  /** The same number in another base, behind the same number of zeros. */
  function Convert(digits: seq<nat>, from: nat, to: nat): (converted: seq<nat>)
    requires to >= 2
    ensures InBase(converted, to)
  {
    Zeros(LeadingZeros(digits)) + ToDigits(Value(digits, from), to)
  }

  /** Changing the base and back gives the very same digits, leading zeros included. */
  lemma ConvertRoundTrip(digits: seq<nat>, from: nat, to: nat)
    requires from >= 2 && to >= 2 && InBase(digits, from)
    ensures Convert(Convert(digits, from, to), to, from) == digits
  {
    var k, n := LeadingZeros(digits), Value(digits, from);
    var rest, converted := digits[k..], Convert(digits, from, to);
    assert digits == Zeros(k) + rest;
    ZerosAddNothing(k, rest, from);
    DigitsOfValue(rest, from);
    LeadingZerosOf(k, ToDigits(n, to));
    ZerosAddNothing(k, ToDigits(n, to), to);
    ValueOfDigits(n, to);
  }

  // --- a number's width ----------------------------------------------------------------------------------------------------

  /** The big-endian bytes of a number at a given width; what does not fit is cut off. */
  function FixedWidth(n: nat, width: nat): (bytes: seq<nat>)
    ensures |bytes| == width
  {
    if width == 0 then [] else FixedWidth(n / 256, width - 1) + [n % 256]
  }

  function BitLength(n: nat): nat {
    |ToDigits(n, 2)|
  }

  lemma OneBitLess(n: nat)
    requires n > 0
    ensures BitLength(n) == BitLength(n / 2) + 1
  {
  }

  lemma HalvedEightTimes(n: nat)
    ensures n / 2 / 2 / 2 / 2 / 2 / 2 / 2 / 2 == n / 256
  {
  }

  lemma EightBitsLess(n: nat)
    requires n >= 256
    ensures BitLength(n) == BitLength(n / 256) + 8
  {
    HalvedEightTimes(n);
    OneBitLess(n);
    OneBitLess(n / 2);
    OneBitLess(n / 2 / 2);
    OneBitLess(n / 2 / 2 / 2);
    OneBitLess(n / 2 / 2 / 2 / 2);
    OneBitLess(n / 2 / 2 / 2 / 2 / 2);
    OneBitLess(n / 2 / 2 / 2 / 2 / 2 / 2);
    OneBitLess(n / 2 / 2 / 2 / 2 / 2 / 2 / 2);
  }

  lemma ByteHasEightBits(n: nat)
    requires 0 < n < 256
    ensures 1 <= BitLength(n) <= 8
    decreases n
  {
    OneBitLess(n);
    if n >= 2 {
      BitsBelow(n / 2, 128, 7);
    }
  }

  lemma {:induction false} BitsBelow(n: nat, bound: nat, bits: nat)
    requires 0 < n < bound && bits >= 1 && bound == Power2(bits)
    ensures BitLength(n) <= bits
    decreases bits
  {
    OneBitLess(n);
    if n >= 2 {
      BitsBelow(n / 2, Power2(bits - 1), bits - 1);
    }
  }

  function Power2(k: nat): nat {
    if k == 0 then 1 else 2 * Power2(k - 1)
  }

  /** The bit length rounded up to bytes is exactly the width of the number without a leading zero byte. */
  lemma {:induction false} WidthFromBitLength(n: nat)
    ensures FixedWidth(n, (BitLength(n) + 7) / 8) == ToDigits(n, 256)
    decreases n
  {
    if n == 0 {
    } else if n < 256 {
      ByteHasEightBits(n);
      Quotient(n, 256);
      assert FixedWidth(n, 1) == FixedWidth(n / 256, 0) + [n % 256];
    } else {
      Quotient(n, 256);
      EightBitsLess(n);
      WidthFromBitLength(n / 256);
    }
  }
}
