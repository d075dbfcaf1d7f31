/**
 * Base58 as the repository writes it three times: the carry loop of `contracts-sol/htlc/build.rs` over a growing byte
 * vector, and the two loops of `contracts-sol/smoke_check.py` over an unbounded integer. All three are proved against
 * the change of base of `Radix`.
 */
module Base58 {
  import opened Options
  import opened Radix

  newtype U8 = n: int | 0 <= n < 0x100
  newtype U32 = n: int | 0 <= n < 0x1_0000_0000

  const DIGITS := "123456789"
  const CAPITALS := "ABCDEFGHJKLMNPQRSTUVWXYZ"
  const LETTERS := "abcdefghijkmnopqrstuvwxyz"
  const ALPHABET := DIGITS + CAPITALS + LETTERS

  datatype Error = InvalidCharacter | WrongLength(total: nat)

  datatype Result<T> = Ok(value: T) | Err(error: Error)

  // --- the alphabet ------------------------------------------------------------------------------------------------------

  predicate Increasing(s: string) {
    forall i :: 0 <= i < |s| - 1 ==> s[i] < s[i + 1]
  }

  lemma DigitsIncrease()
    ensures |DIGITS| == 9 && Increasing(DIGITS) && DIGITS[0] == '1' && DIGITS[8] == '9'
  {
  }

  lemma CapitalsIncrease()
    ensures |CAPITALS| == 24 && Increasing(CAPITALS) && CAPITALS[0] == 'A' && CAPITALS[23] == 'Z'
  {
  }

  lemma LettersIncrease()
    ensures |LETTERS| == 25 && Increasing(LETTERS) && LETTERS[0] == 'a' && LETTERS[24] == 'z'
  {
  }

  /** 58 characters in the order of their codes, so no two are the same, and the digit 0 is written '1'. */
  predicate Usable(alphabet: string) {
    |alphabet| == 58 && Increasing(alphabet) && alphabet[0] == '1'
  }

  /** The one alphabet in use; everything below holds of any usable one. */
  lemma AlphabetIsUsable()
    ensures Usable(ALPHABET)
  {
    DigitsIncrease();
    CapitalsIncrease();
    LettersIncrease();
  }

  /** The codes of a string run on from this character's without a gap. */
  predicate RunsFrom(s: string, first: char) {
    forall i :: 0 <= i < |s| ==> s[i] as int == first as int + i
  }

  lemma RunHolds(s: string, lo: nat, hi: nat, first: char, c: char)
    requires lo < hi <= |s| && RunsFrom(s[lo..hi], first)
    ensures c in s[lo..hi] <==> 0 <= c as int - first as int < hi - lo
  {
    if 0 <= c as int - first as int < hi - lo {
      assert s[lo..hi][c as int - first as int] == c;
    }
  }

  lemma DigitsRun()
    ensures RunsFrom(DIGITS[0..9], '1')
  {
  }

  lemma CapitalsRun()
    ensures RunsFrom(CAPITALS[0..8], 'A') && RunsFrom(CAPITALS[8..13], 'J') && RunsFrom(CAPITALS[13..24], 'P')
  {
  }

  lemma LettersRun()
    ensures RunsFrom(LETTERS[0..11], 'a') && RunsFrom(LETTERS[11..25], 'm')
  {
  }

  predicate IsAlphanumeric(c: char) {
    '0' <= c <= '9' || 'A' <= c <= 'Z' || 'a' <= c <= 'z'
  }

  /** The alphabet is every digit and letter but the four that are mistaken for one another. */
  lemma AlphabetIsExactly(c: char)
    ensures c in ALPHABET <==> IsAlphanumeric(c) && c != '0' && c != 'O' && c != 'I' && c != 'l'
  {
    hide RunsFrom;
    DigitsRun();
    CapitalsRun();
    LettersRun();
    RunHolds(DIGITS, 0, 9, '1', c);
    RunHolds(CAPITALS, 0, 8, 'A', c);
    RunHolds(CAPITALS, 8, 13, 'J', c);
    RunHolds(CAPITALS, 13, 24, 'P', c);
    RunHolds(LETTERS, 0, 11, 'a', c);
    RunHolds(LETTERS, 11, 25, 'm', c);
    assert DIGITS == DIGITS[0..9];
    assert CAPITALS == CAPITALS[0..8] + CAPITALS[8..13] + CAPITALS[13..24];
    assert LETTERS == LETTERS[0..11] + LETTERS[11..25];
  }

  lemma {:induction false} Increases(alphabet: string, i: nat, j: nat)
    requires Increasing(alphabet) && i < j < |alphabet|
    ensures alphabet[i] < alphabet[j]
    decreases j
  {
    if i < j - 1 {
      Increases(alphabet, i, j - 1);
    }
  }

  predicate Valid(alphabet: string, c: char) {
    c in alphabet
  }

  predicate AllValid(alphabet: string, s: string) {
    forall i :: 0 <= i < |s| ==> Valid(alphabet, s[i])
  }

  /** The place of a character in the alphabet. */
  method IndexOf(alphabet: string, c: char) returns (index: Option<nat>)
    requires Usable(alphabet)
    ensures index.Some? <==> Valid(alphabet, c)
    ensures index.Some? ==> index.value == DigitOf(alphabet, c)
  {
    var i := 0;
    while i < |alphabet|
      invariant 0 <= i <= |alphabet|
      invariant c !in alphabet[..i]
    {
      if alphabet[i] == c {
        DigitIs(alphabet, c, i);
        return Some(i);
      }
      i := i + 1;
    }
    return None;
  }

  /** Where a character first stands in a string. */
  function PlaceIn(s: string, c: char): (place: nat)
    ensures place <= |s| && (c in s ==> place < |s| && s[place] == c)
  {
    if s == "" || s[0] == c then 0 else 1 + PlaceIn(s[1..], c)
  }

  function DigitOf(alphabet: string, c: char): (digit: nat)
    requires Usable(alphabet)
    requires Valid(alphabet, c)
    ensures digit < 58
  {
    PlaceIn(alphabet, c)
  }

  lemma DigitIs(alphabet: string, c: char, i: nat)
    requires Usable(alphabet)
    requires i < |alphabet| && alphabet[i] == c
    ensures Valid(alphabet, c) && DigitOf(alphabet, c) == i
  {
    var digit := DigitOf(alphabet, c);
    if digit < i {
      Increases(alphabet, digit, i);
    } else if i < digit {
      Increases(alphabet, i, digit);
    }
  }

  function Digits(alphabet: string, s: string): (digits: seq<nat>)
    requires Usable(alphabet)
    requires AllValid(alphabet, s)
    ensures |digits| == |s| && InBase(digits, 58)
    ensures forall i :: 0 <= i < |s| ==> digits[i] == DigitOf(alphabet, s[i])
  {
    if s == [] then [] else Digits(alphabet, s[..|s| - 1]) + [DigitOf(alphabet, s[|s| - 1])]
  }

  function Characters(alphabet: string, digits: seq<nat>): (s: string)
    requires Usable(alphabet)
    requires InBase(digits, 58)
    ensures |s| == |digits|
  {
    seq(|digits|, i requires 0 <= i < |digits| => alphabet[digits[i]])
  }

  lemma CharactersOfDigits(alphabet: string, s: string)
    requires Usable(alphabet)
    requires AllValid(alphabet, s)
    ensures Characters(alphabet, Digits(alphabet, s)) == s
  {
  }

  lemma DigitsOfCharacters(alphabet: string, digits: seq<nat>)
    requires Usable(alphabet)
    requires InBase(digits, 58)
    ensures AllValid(alphabet, Characters(alphabet, digits)) && Digits(alphabet, Characters(alphabet, digits)) == digits
  {
    forall i | 0 <= i < |digits| ensures Valid(alphabet, Characters(alphabet, digits)[i]) && DigitOf(alphabet, Characters(alphabet, digits)[i]) == digits[i] {
      DigitIs(alphabet, Characters(alphabet, digits)[i], digits[i]);
    }
  }

  // --- the encoding --------------------------------------------------------------------------------------------------------

  /** The bytes a string stands for. */
  ghost function Decoded(alphabet: string, s: string): (bytes: seq<nat>)
    requires Usable(alphabet)
    requires AllValid(alphabet, s)
    ensures InBase(bytes, 256)
  {
    Convert(Digits(alphabet, s), 58, 256)
  }

  function Encoded(alphabet: string, bytes: seq<nat>): string
    requires Usable(alphabet)
    requires InBase(bytes, 256)
  {
    Characters(alphabet, Convert(bytes, 256, 58))
  }

  /** Encoding what was decoded gives the string back, leading '1's included, for every string over the alphabet. */
  lemma EncodeDecoded(alphabet: string, s: string)
    requires Usable(alphabet)
    requires AllValid(alphabet, s)
    ensures Encoded(alphabet, Decoded(alphabet, s)) == s
  {
    ConvertRoundTrip(Digits(alphabet, s), 58, 256);
    CharactersOfDigits(alphabet, s);
  }

  /** Decoding what was encoded gives the bytes back, leading zeros included, for every byte string. */
  lemma DecodeEncoded(alphabet: string, bytes: seq<nat>)
    requires Usable(alphabet)
    requires InBase(bytes, 256)
    ensures AllValid(alphabet, Encoded(alphabet, bytes)) && Decoded(alphabet, Encoded(alphabet, bytes)) == bytes
  {
    DigitsOfCharacters(alphabet, Convert(bytes, 256, 58));
    ConvertRoundTrip(bytes, 256, 58);
  }

  /** Both round trips, in the alphabet in use. */
  lemma Base58RoundTrips(s: string, bytes: seq<nat>)
    ensures Usable(ALPHABET)
    ensures AllValid(ALPHABET, s) ==> Encoded(ALPHABET, Decoded(ALPHABET, s)) == s
    ensures InBase(bytes, 256) ==> AllValid(ALPHABET, Encoded(ALPHABET, bytes)) && Decoded(ALPHABET, Encoded(ALPHABET, bytes)) == bytes
  {
    AlphabetIsUsable();
    if AllValid(ALPHABET, s) {
      EncodeDecoded(ALPHABET, s);
    }
    if InBase(bytes, 256) {
      DecodeEncoded(ALPHABET, bytes);
    }
  }

  // --- the Python loops ----------------------------------------------------------------------------------------------------

  lemma NextDigit(alphabet: string, s: string, i: nat)
    requires Usable(alphabet)
    requires i < |s| && AllValid(alphabet, s[..i]) && Valid(alphabet, s[i])
    ensures AllValid(alphabet, s[..i + 1]) && Value(Digits(alphabet, s[..i + 1]), 58) == Value(Digits(alphabet, s[..i]), 58) * 58 + DigitOf(alphabet, s[i])
  {
    var read := s[..i + 1];
    assert read[..|read| - 1] == s[..i];
    LastDigit(Digits(alphabet, s[..i]), DigitOf(alphabet, s[i]));
  }

  lemma LastDigit(digits: seq<nat>, digit: nat)
    ensures Value(digits + [digit], 58) == Value(digits, 58) * 58 + digit
  {
    assert (digits + [digit])[..|digits|] == digits;
  }

  /** How many times the string opens with a character: what `lstrip` removes. */
  method CountLeading<T(==)>(s: seq<T>, c: T) returns (count: nat)
    ensures count <= |s| && (forall i :: 0 <= i < count ==> s[i] == c) && (count < |s| ==> s[count] != c)
  {
    count := 0;
    while count < |s| && s[count] == c
      invariant count <= |s| && forall i :: 0 <= i < count ==> s[i] == c
    {
      count := count + 1;
    }
  }

  lemma {:induction false} LeadingZerosAre(digits: seq<nat>, count: nat)
    requires count <= |digits| && (forall i :: 0 <= i < count ==> digits[i] == 0) && (count < |digits| ==> digits[count] != 0)
    ensures LeadingZeros(digits) == count
  {
    assert digits == Zeros(count) + digits[count..];
    LeadingZerosOf(count, digits[count..]);
  }

  lemma OneIsZero(alphabet: string, c: char)
    requires Usable(alphabet)
    requires Valid(alphabet, c)
    ensures DigitOf(alphabet, c) == 0 <==> c == '1'
  {
    DigitIs(alphabet, '1', 0);
  }

  lemma LeadingOnes(alphabet: string, s: string, count: nat)
    requires Usable(alphabet)
    requires AllValid(alphabet, s) && count <= |s| && (forall i :: 0 <= i < count ==> s[i] == '1') && (count < |s| ==> s[count] != '1')
    ensures LeadingZeros(Digits(alphabet, s)) == count
  {
    forall i | 0 <= i < |s| ensures Digits(alphabet, s)[i] == 0 <==> s[i] == '1' {
      OneIsZero(alphabet, s[i]);
    }
    LeadingZerosAre(Digits(alphabet, s), count);
  }

  /** `b58decode`: an unknown character is the one error. */
  method B58Decode(alphabet: string, s: string) returns (result: Result<seq<nat>>)
    requires Usable(alphabet)
    ensures result.Ok? <==> AllValid(alphabet, s)
    ensures result.Ok? ==> result.value == Decoded(alphabet, s)
    ensures result.Err? ==> result.error == InvalidCharacter
  {
    var n: nat, i := 0, 0;
    while i < |s|
      invariant 0 <= i <= |s| && AllValid(alphabet, s[..i])
      invariant n == Value(Digits(alphabet, s[..i]), 58)
    {
      var index := IndexOf(alphabet, s[i]);
      if index.None? {
        return Err(InvalidCharacter);
      }
      NextDigit(alphabet, s, i);
      n := n * 58 + index.value;
      i := i + 1;
    }
    assert s[..i] == s;
    WidthFromBitLength(n);
    var raw := FixedWidth(n, (BitLength(n) + 7) / 8);
    var leading := CountLeading(s, '1');
    LeadingOnes(alphabet, s, leading);
    return Ok(Zeros(leading) + raw);
  }

  lemma CharactersOfSum(alphabet: string, digits: seq<nat>, more: seq<nat>)
    requires Usable(alphabet)
    requires InBase(digits, 58) && InBase(more, 58)
    ensures InBase(digits + more, 58) && Characters(alphabet, digits + more) == Characters(alphabet, digits) + Characters(alphabet, more)
  {
  }

  /** `b58encode`. */
  method B58Encode(alphabet: string, bytes: seq<nat>) returns (s: string)
    requires Usable(alphabet)
    requires InBase(bytes, 256)
    ensures s == Encoded(alphabet, bytes)
  {
    var n := FromBytes(bytes);
    var leading := CountLeading(bytes, 0);
    LeadingZerosAre(bytes, leading);
    var out := EncodeNumber(alphabet, n);
    CharactersOfSum(alphabet, Zeros(leading), ToDigits(n, 58));
    CharactersOfZeros(alphabet, leading);
    s := seq(leading, _ => '1') + out;
  }

  lemma CharactersOfZeros(alphabet: string, k: nat)
    requires Usable(alphabet)
    ensures InBase(Zeros(k), 58) && Characters(alphabet, Zeros(k)) == seq(k, _ => '1')
  {
  }

  lemma MovesOver<T>(front: seq<T>, x: T, back: seq<T>)
    ensures front + [x] + back == front + ([x] + back)
  {
  }

  lemma DigitMovesOver(n: nat, digits: seq<nat>)
    requires n > 0
    ensures ToDigits(n, 58) + digits == ToDigits(n / 58, 58) + ([n % 58] + digits)
  {
    MovesOver(ToDigits(n / 58, 58), n % 58, digits);
  }

  lemma CharacterInFront(alphabet: string, digit: nat, digits: seq<nat>)
    requires Usable(alphabet)
    requires digit < 58 && InBase(digits, 58)
    ensures digit < |alphabet| && InBase([digit] + digits, 58)
    ensures Characters(alphabet, [digit] + digits) == [alphabet[digit]] + Characters(alphabet, digits)
  {
  }

  /** The division loop. */
  method EncodeNumber(alphabet: string, number: nat) returns (out: string)
    requires Usable(alphabet)
    ensures out == Characters(alphabet, ToDigits(number, 58))
  {
    var n := number;
    out := "";
    ghost var digits: seq<nat> := [];
    while n > 0
      invariant InBase(digits, 58) && out == Characters(alphabet, digits)
      invariant ToDigits(number, 58) == ToDigits(n, 58) + digits
      decreases n
    {
      Quotient(n, 58);
      DigitMovesOver(n, digits);
      CharacterInFront(alphabet, n % 58, digits);
      digits := [n % 58] + digits;
      var r := n % 58;
      n := n / 58;
      out := [alphabet[r]] + out;
    }
  }

  /** `int.from_bytes(b, "big")`. */
  method FromBytes(bytes: seq<nat>) returns (n: nat)
    ensures n == Value(bytes, 256)
  {
    n := 0;
    var i := 0;
    while i < |bytes|
      invariant 0 <= i <= |bytes| && n == Value(bytes[..i], 256)
    {
      assert bytes[..i + 1][..i] == bytes[..i];
      n := n * 256 + bytes[i];
      i := i + 1;
    }
    assert bytes[..i] == bytes;
  }

  // --- the carry loop --------------------------------------------------------------------------------------------------------

  /** The number a little-endian byte vector holds. */
  function LittleEndian(bytes: seq<U8>): nat {
    if bytes == [] then 0 else bytes[0] as nat + 256 * LittleEndian(bytes[1..])
  }

  /** No leading zero: the most significant byte is the last one. */
  predicate NoTopZero(bytes: seq<U8>) {
    bytes != [] ==> bytes[|bytes| - 1] != 0
  }

  /** The bytes pushed for a carry. */
  function Pushed(carry: U32): (bytes: seq<U8>)
    ensures carry == 0 <==> bytes == []
    ensures carry < 256 ==> |bytes| <= 1
    ensures NoTopZero(bytes)
    decreases carry as nat
  {
    if carry == 0 then [] else [(carry % 256) as U8] + Pushed(carry / 256)
  }

  /** The vector times 58, plus a carry. */
  function TimesPlus(bytes: seq<U8>, carry: U32): seq<U8>
    requires carry <= 57
  {
    if bytes == [] then Pushed(carry)
    else
      var sum := carry + bytes[0] as U32 * 58;
      [(sum % 256) as U8] + TimesPlus(bytes[1..], sum / 256)
  }

  lemma {:induction false} PushedHolds(carry: U32)
    ensures LittleEndian(Pushed(carry)) == carry as nat
    decreases carry as nat
  {
    if carry > 0 {
      PushedHolds(carry / 256);
      assert Pushed(carry)[1..] == Pushed(carry / 256);
    }
  }

  /** One character's carry loop multiplies the number by 58 and adds the digit. */
  lemma {:induction false} TimesPlusHolds(bytes: seq<U8>, carry: U32)
    requires carry <= 57
    ensures LittleEndian(TimesPlus(bytes, carry)) == 58 * LittleEndian(bytes) + carry as nat
    decreases |bytes|
  {
    if bytes == [] {
      PushedHolds(carry);
    } else {
      var sum := carry + bytes[0] as U32 * 58;
      var low, rest := (sum % 256) as U8, TimesPlus(bytes[1..], sum / 256);
      TimesPlusHolds(bytes[1..], sum / 256);
      InFront(low, rest);
      assert sum as nat == 256 * (sum / 256) as nat + low as nat;
    }
  }

  lemma InFront(low: U8, rest: seq<U8>)
    ensures LittleEndian([low] + rest) == low as nat + 256 * LittleEndian(rest)
    ensures rest != [] ==> (NoTopZero([low] + rest) <==> NoTopZero(rest))
  {
    assert ([low] + rest)[1..] == rest;
  }

  /** Without a carry out, a byte that was not zero does not become zero. */
  lemma LowStays(b: U8, carry: U32)
    requires carry <= 57 && b != 0 && (carry + b as U32 * 58) / 256 == 0
    ensures (carry + b as U32 * 58) % 256 != 0
  {
    var sum := carry + b as U32 * 58;
    assert sum as nat == 256 * (sum / 256) as nat + (sum % 256) as nat;
  }

  /** It grows the vector by at most a byte, and leaves no top zero. */
  lemma {:induction false} TimesPlusIsMinimal(bytes: seq<U8>, carry: U32)
    requires carry <= 57
    ensures |bytes| <= |TimesPlus(bytes, carry)| <= |bytes| + 1
    ensures NoTopZero(bytes) ==> NoTopZero(TimesPlus(bytes, carry))
    decreases |bytes|
  {
    hide LittleEndian;
    if bytes != [] {
      var sum := carry + bytes[0] as U32 * 58;
      var low, rest := (sum % 256) as U8, TimesPlus(bytes[1..], sum / 256);
      TimesPlusIsMinimal(bytes[1..], sum / 256);
      InFront(low, rest);
      if rest == [] && bytes[0] != 0 {
        assert bytes[1..] == [];
        LowStays(bytes[0], carry);
      }
    }
  }

  /** Most significant byte first, as numbers. */
  function BigEndian(bytes: seq<U8>): (digits: seq<nat>)
    ensures |digits| == |bytes| && InBase(digits, 256)
    ensures forall i :: 0 <= i < |bytes| ==> digits[i] == bytes[|bytes| - 1 - i] as nat
  {
    seq(|bytes|, i requires 0 <= i < |bytes| => bytes[|bytes| - 1 - i] as nat)
  }

  lemma {:induction false} BigEndianHolds(bytes: seq<U8>)
    ensures Value(BigEndian(bytes), 256) == LittleEndian(bytes)
  {
    if bytes != [] {
      BigEndianHolds(bytes[1..]);
      var digits := BigEndian(bytes);
      assert digits[..|digits| - 1] == BigEndian(bytes[1..]);
    }
  }

  /** A vector without a top zero is its number's bytes. */
  lemma VectorIsItsNumber(bytes: seq<U8>)
    requires NoTopZero(bytes)
    ensures BigEndian(bytes) == ToDigits(LittleEndian(bytes), 256)
  {
    BigEndianHolds(bytes);
    DigitsOfValue(BigEndian(bytes), 256);
  }

  /** One turn of the carry loop takes one byte off the rest of the vector. */
  lemma OneByteOn(front: seq<U8>, rest: seq<U8>, carry: U32)
    requires rest != [] && carry <= 57
    ensures var sum := carry + rest[0] as U32 * 58;
            sum / 256 <= 57
            && front + TimesPlus(rest, carry) == front + [(sum % 256) as U8] + TimesPlus(rest[1..], sum / 256)
  {
    var sum := carry + rest[0] as U32 * 58;
    MovesOver(front, (sum % 256) as U8, TimesPlus(rest[1..], sum / 256));
  }

  lemma SetAt(grown: seq<U8>, bytes: seq<U8>, i: nat, low: U8)
    requires i < |grown| == |bytes| && grown[i..] == bytes[i..]
    ensures grown[i := low][..i + 1] == grown[..i] + [low] && grown[i := low][i + 1..] == bytes[i + 1..]
    ensures bytes[i..][0] == grown[i] && bytes[i..][1..] == bytes[i + 1..]
  {
    assert grown[i := low][i + 1..] == grown[i..][1..];
    assert bytes[i..][0] == grown[i..][0];
  }

  /** Multiplies the vector by 58 in place and adds a digit; the carry never exceeds 57 and at most one byte is pushed. */
  method CarryIn(bytes: seq<U8>, digit: U32) returns (grown: seq<U8>)
    requires digit <= 57
    ensures grown == TimesPlus(bytes, digit) && |bytes| <= |grown| <= |bytes| + 1
  {
    var carry := digit;
    grown := bytes;
    var i := 0;
    while i < |grown|
      invariant 0 <= i <= |grown| == |bytes|
      invariant carry <= 57
      invariant grown[i..] == bytes[i..]
      invariant grown[..i] + TimesPlus(bytes[i..], carry) == TimesPlus(bytes, digit)
    {
      SetAt(grown, bytes, i, 0);
      OneByteOn(grown[..i], bytes[i..], carry);
      carry := carry + grown[i] as U32 * 58;
      SetAt(grown, bytes, i, (carry % 256) as U8);
      grown := grown[i := (carry % 256) as U8];
      carry := carry / 256;
      i := i + 1;
    }
    assert grown[..i] == grown && bytes[i..] == [];
    grown := PushCarry(grown, carry);
  }

  /** Pushes what is left of the carry: nothing, or one byte. */
  method PushCarry(bytes: seq<U8>, left: U32) returns (grown: seq<U8>)
    requires left <= 57
    ensures grown == bytes + Pushed(left)
    ensures |grown| == |bytes| + if left > 0 then 1 else 0
  {
    var carry := left;
    grown := bytes;
    while carry > 0
      invariant carry <= left && (carry == left || carry == 0)
      invariant |grown| == |bytes| + if carry == left then 0 else 1
      invariant grown + Pushed(carry) == bytes + Pushed(left)
      decreases carry as nat
    {
      MovesOver(grown, (carry % 256) as U8, Pushed(carry / 256));
      grown := grown + [(carry % 256) as U8];
      carry := carry / 256;
    }
  }

  /** The 32 bytes a well-formed string stands for. */
  ghost predicate DecodesTo32(alphabet: string, s: string)
    requires Usable(alphabet)
  {
    AllValid(alphabet, s) && |Decoded(alphabet, s)| == 32
  }

  lemma DecodedLength(alphabet: string, s: string, leading: nat, bytes: seq<U8>)
    requires Usable(alphabet)
    requires AllValid(alphabet, s) && LeadingZeros(Digits(alphabet, s)) == leading
    requires NoTopZero(bytes) && LittleEndian(bytes) == Value(Digits(alphabet, s), 58)
    ensures Decoded(alphabet, s) == Zeros(leading) + BigEndian(bytes)
  {
    VectorIsItsNumber(bytes);
  }

  /** The digits read so far, as a little-endian vector. */
  method ReadDigits(alphabet: string, s: string) returns (bytes: seq<U8>, valid: bool)
    requires Usable(alphabet)
    ensures valid <==> AllValid(alphabet, s)
    ensures valid ==> LittleEndian(bytes) == Value(Digits(alphabet, s), 58) && NoTopZero(bytes)
  {
    bytes := [];
    var i := 0;
    while i < |s|
      invariant 0 <= i <= |s| && AllValid(alphabet, s[..i])
      invariant LittleEndian(bytes) == Value(Digits(alphabet, s[..i]), 58)
      invariant NoTopZero(bytes)
      invariant |bytes| <= i
    {
      var index := IndexOf(alphabet, s[i]);
      if index.None? {
        return bytes, false;
      }
      NextDigit(alphabet, s, i);
      TimesPlusHolds(bytes, index.value as U32);
      TimesPlusIsMinimal(bytes, index.value as U32);
      bytes := CarryIn(bytes, index.value as U32);
      i := i + 1;
    }
    assert s[..i] == s;
    valid := true;
  }

  /** Copies the vector to the end of the array, most significant byte first. */
  method Place(bytes: seq<U8>) returns (out: seq<U8>)
    requires |bytes| <= 32
    ensures |out| == 32
    ensures forall j :: 0 <= j < 32 - |bytes| ==> out[j] == 0
    ensures forall j :: 32 - |bytes| <= j < 32 ==> out[j] == bytes[31 - j]
  {
    var a := new U8[32](_ => 0);
    var k := 0;
    while k < |bytes|
      invariant 0 <= k <= |bytes|
      invariant forall j :: 0 <= j < 32 - k ==> a[j] == 0
      invariant forall j :: 32 - k <= j < 32 ==> a[j] == bytes[31 - j]
    {
      a[32 - 1 - k] := bytes[k];
      k := k + 1;
    }
    out := a[..];
  }

  lemma PlacedIsDecoded(out: seq<U8>, bytes: seq<U8>, leading: nat)
    requires |out| == 32 == leading + |bytes|
    requires forall j :: 0 <= j < 32 - |bytes| ==> out[j] == 0
    requires forall j :: 32 - |bytes| <= j < 32 ==> out[j] == bytes[31 - j]
    ensures var decoded := Zeros(leading) + BigEndian(bytes);
            |decoded| == 32 && forall i :: 0 <= i < 32 ==> out[i] as nat == decoded[i]
  {
  }

  /**
   * `decode`: exactly the 32-byte strings decode, to the very bytes `b58decode` returns. After every character the vector
   * holds the number read so far, without a leading zero byte.
   */
  method Decode(alphabet: string, s: string) returns (result: Result<seq<U8>>)
    requires Usable(alphabet)
    ensures result.Ok? <==> DecodesTo32(alphabet, s)
    ensures result.Ok? ==> |result.value| == 32 && forall i :: 0 <= i < 32 ==> result.value[i] as nat == Decoded(alphabet, s)[i]
    ensures result.Err? ==> (result.error == InvalidCharacter <==> !AllValid(alphabet, s))
    ensures result.Err? && AllValid(alphabet, s) ==> result.error == WrongLength(|Decoded(alphabet, s)|)
  {
    var leading := CountLeading(s, '1');
    var bytes, valid := ReadDigits(alphabet, s);
    if !valid {
      return Err(InvalidCharacter);
    }
    LeadingOnes(alphabet, s, leading);
    DecodedLength(alphabet, s, leading, bytes);
    var total := leading + |bytes|;
    if total != 32 {
      return Err(WrongLength(total));
    }
    var out := Place(bytes);
    PlacedIsDecoded(out, bytes, leading);
    return Ok(out);
  }
}
