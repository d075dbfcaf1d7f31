/**
 * The swap profile's context strings (`src/profile.ts`): what leg A wants, and which leg A a leg B answers, written into the
 * signed `job.context` and read back. Anything that is not exactly the documented shape is no context.
 */
module Profile {
  import opened Options
  import opened Radix
  import opened Text

  const FEE_BPS_MAX := 10000

  datatype SwapContext =
    | ContextA(wantAsset: string, wantAmount: string, wantRail: string, feeBps: nat)
    | ContextB(legAOfferId: string)

  /** tclk's `normalizeRailId`: `None` where it throws. */
  type Rails = string -> Option<string>

  /** Canonical rail ids are their own normal form and hold no separator. */
  ghost predicate RailIds(normalize: Rails) {
    forall id: string :: normalize(id).Some? ==> normalize(normalize(id).value) == normalize(id) && Without(normalize(id).value, '|')
  }

  // --- the patterns ------------------------------------------------------------------------------------------------------

  predicate IsDigit(c: char) {
    '0' <= c <= '9'
  }

  predicate AllDigits(s: string) {
    forall i :: 0 <= i < |s| ==> IsDigit(s[i])
  }

  predicate AssetChar(c: char) {
    'A' <= c <= 'Z' || 'a' <= c <= 'z' || IsDigit(c) || c == '_' || c == '-'
  }

  /** `[A-Za-z0-9_-]{1,32}` */
  predicate IsAsset(s: string) {
    1 <= |s| <= 32 && forall i :: 0 <= i < |s| ==> AssetChar(s[i])
  }

  /** `[1-9][0-9]*` */
  predicate IsAmount(s: string) {
    |s| >= 1 && AllDigits(s) && s[0] != '0'
  }

  /** `0x[0-9a-f]{64}` */
  predicate IsHex32(s: string) {
    |s| == 66 && s[0] == '0' && s[1] == 'x' && forall i :: 2 <= i < 66 ==> IsDigit(s[i]) || 'a' <= s[i] <= 'f'
  }

  /** `0|[1-9][0-9]{0,3}|10000` */
  predicate IsFee(s: string) {
    s == "0" || (1 <= |s| <= 4 && AllDigits(s) && s[0] != '0') || s == "10000"
  }

  // --- decimals ----------------------------------------------------------------------------------------------------------

  function DigitChar(d: nat): (c: char)
    requires d < 10
    ensures IsDigit(c) && (c == '0' <==> d == 0)
  {
    '0' + d as char
  }

  function DigitValue(c: char): (d: nat)
    requires IsDigit(c)
    ensures d < 10 && DigitChar(d) == c
  {
    (c - '0') as nat
  }

  function Chars(digits: seq<nat>): (s: string)
    requires InBase(digits, 10)
    ensures |s| == |digits| && AllDigits(s) && forall i :: 0 <= i < |s| ==> s[i] == DigitChar(digits[i])
  {
    seq(|digits|, i requires 0 <= i < |digits| => DigitChar(digits[i]))
  }

  function Values(s: string): (digits: seq<nat>)
    requires AllDigits(s)
    ensures |digits| == |s| && InBase(digits, 10) && forall i :: 0 <= i < |s| ==> digits[i] == DigitValue(s[i])
  {
    seq(|s|, i requires 0 <= i < |s| => DigitValue(s[i]))
  }

  /** How a template literal writes a non-negative integer. */
  function Decimal(n: nat): (s: string)
    ensures AllDigits(s) && |s| >= 1
  {
    if n == 0 then "0" else Chars(ToDigits(n, 10))
  }

  /** What `Number` reads of a string of digits. */
  function NumberOf(s: string): nat
    requires AllDigits(s)
  {
    Value(Values(s), 10)
  }

  lemma NumberOfDecimal(n: nat)
    ensures NumberOf(Decimal(n)) == n
  {
    if n == 0 {
      assert Values("0") == [0];
      assert Value([0], 10) == Value([], 10) * 10 + 0 by {
        assert [0][..0] == [];
      }
    } else {
      ValueOfDigits(n, 10);
      assert Values(Chars(ToDigits(n, 10))) == ToDigits(n, 10);
    }
  }

  /** A numeral without a leading zero is the decimal of its number. */
  lemma DecimalOfNumber(s: string)
    requires AllDigits(s) && |s| >= 1 && s[0] != '0'
    ensures Decimal(NumberOf(s)) == s
  {
    DigitsOfValue(Values(s), 10);
    MinimalIsPositive(Values(s), 10);
    assert Chars(Values(s)) == s;
  }

  // --- the fee -----------------------------------------------------------------------------------------------------------

  lemma {:induction false} ShorterIsLess(digits: seq<nat>, bound: nat, width: nat)
    requires InBase(digits, 10) && |digits| <= width && bound == Power10(width)
    ensures Value(digits, 10) < bound
    decreases |digits|
  {
    if digits != [] {
      ShorterIsLess(digits[..|digits| - 1], Power10(width - 1), width - 1);
    } else {
      PowerIsPositive(width);
    }
  }

  function Power10(k: nat): nat {
    if k == 0 then 1 else 10 * Power10(k - 1)
  }

  lemma {:induction false} PowerIsPositive(k: nat)
    ensures Power10(k) >= 1
  {
    if k > 0 {
      PowerIsPositive(k - 1);
    }
  }

  lemma {:induction false} LongerIsMore(digits: seq<nat>, width: nat)
    requires InBase(digits, 10) && Minimal(digits) && |digits| > width
    ensures Value(digits, 10) >= Power10(width)
    decreases width
  {
    MinimalIsPositive(digits, 10);
    if width > 0 {
      LongerIsMore(digits[..|digits| - 1], width - 1);
    }
  }

  lemma ValueOfNext(digits: seq<nat>, last: nat)
    ensures Value(digits + [last], 10) == Value(digits, 10) * 10 + last
  {
    assert (digits + [last])[..|digits|] == digits;
  }

  lemma TenThousand()
    ensures Power10(4) == 10000 && NumberOf("10000") == 10000
  {
    assert Power10(1) == 10 && Power10(2) == 100 && Power10(3) == 1000;
    ValueOfNext([], 1);
    ValueOfNext([] + [1], 0);
    ValueOfNext([] + [1] + [0], 0);
    ValueOfNext([] + [1] + [0] + [0], 0);
    ValueOfNext([] + [1] + [0] + [0] + [0], 0);
    assert Values("10000") == [] + [1] + [0] + [0] + [0] + [0];
  }

  predicate Canonical(s: string) {
    AllDigits(s) && |s| >= 1 && NumberOf(s) <= FEE_BPS_MAX && s == Decimal(NumberOf(s))
  }

  lemma FeeIsCanonical(s: string)
    requires IsFee(s)
    ensures Canonical(s)
  {
    if s == "0" {
      NumberOfDecimal(0);
    } else {
      DecimalOfNumber(s);
      TenThousand();
      if |s| <= 4 {
        ShorterIsLess(Values(s), 10000, 4);
      }
    }
  }

  lemma CanonicalIsFee(s: string)
    requires Canonical(s)
    ensures IsFee(s)
  {
    CanonicalStart(NumberOf(s));
    if NumberOf(s) > 0 && |s| > 4 {
      TenThousand();
      LongerIsMore(Values(s), 4);
      DecimalOfNumber("10000");
    }
  }

  /** The fee pattern accepts exactly the canonical decimals of 0 to 10000. */
  lemma FeePatternIsCanonical(s: string)
    ensures IsFee(s) <==> Canonical(s)
  {
    if IsFee(s) {
      FeeIsCanonical(s);
    }
    if Canonical(s) {
      CanonicalIsFee(s);
    }
  }

  lemma CanonicalStart(n: nat)
    ensures Decimal(n)[0] == '0' <==> n == 0
    ensures n == 0 ==> Decimal(n) == "0"
  {
  }

  // --- the other patterns --------------------------------------------------------------------------------------------------

  /** The amount pattern accepts exactly the decimals of the positive integers. */
  lemma AmountPatternIsCanonical(s: string)
    ensures IsAmount(s) <==> exists n: nat :: n >= 1 && s == Decimal(n)
  {
    if IsAmount(s) {
      DecimalOfNumber(s);
      CanonicalStart(NumberOf(s));
      assert NumberOf(s) >= 1;
    }
    if n: nat :| n >= 1 && s == Decimal(n) {
      CanonicalStart(n);
    }
  }

  // --- the contexts ------------------------------------------------------------------------------------------------------

  /** `legAContext`: `None` where it throws. */
  function LegAContext(normalize: Rails, wantAsset: string, wantAmount: string, wantRail: string, feeBps: nat): Option<string> {
    if !IsAsset(wantAsset) || !IsAmount(wantAmount) then None
    else if normalize(wantRail).None? || feeBps > FEE_BPS_MAX then None
    else Some(Join(["a", wantAsset, wantAmount, normalize(wantRail).value, Decimal(feeBps)], '|'))
  }

  /** `legBContext`. */
  function LegBContext(legAOfferId: string): Option<string> {
    if !IsHex32(legAOfferId) then None else Some(Join(["b", legAOfferId], '|'))
  }

  /** `parseSwapContext`; leg A without a fee segment reads as fee 0, and a leading `f` is reserved. */
  function ParseSwapContext(normalize: Rails, context: string): Option<SwapContext> {
    var parts := Split(context, '|');
    if parts[0] == "a" && (|parts| == 4 || |parts| == 5) then
      if !IsAsset(parts[1]) || !IsAmount(parts[2]) then None
      else if normalize(parts[3]) != Some(parts[3]) then None
      else if |parts| == 4 then Some(ContextA(parts[1], parts[2], parts[3], 0))
      else if !IsFee(parts[4]) then None
      else
        FeePatternIsCanonical(parts[4]);
        Some(ContextA(parts[1], parts[2], parts[3], NumberOf(parts[4])))
    else if parts[0] == "b" && |parts| == 2 then
      if !IsHex32(parts[1]) then None else Some(ContextB(parts[1]))
    else None
  }

  lemma PiecesHoldNoBar(wantAsset: string, wantAmount: string, feeBps: nat, id: string)
    ensures IsAsset(wantAsset) ==> Without(wantAsset, '|')
    ensures IsAmount(wantAmount) ==> Without(wantAmount, '|')
    ensures Without(Decimal(feeBps), '|')
    ensures IsHex32(id) ==> Without(id, '|')
  {
  }

  /** Reading back what leg A wrote gives what it wants, with its rail in canonical form. */
  lemma LegARoundTrip(normalize: Rails, wantAsset: string, wantAmount: string, wantRail: string, feeBps: nat)
    requires RailIds(normalize) && LegAContext(normalize, wantAsset, wantAmount, wantRail, feeBps).Some?
    ensures ParseSwapContext(normalize, LegAContext(normalize, wantAsset, wantAmount, wantRail, feeBps).value)
            == Some(ContextA(wantAsset, wantAmount, normalize(wantRail).value, feeBps))
  {
    var parts := ["a", wantAsset, wantAmount, normalize(wantRail).value, Decimal(feeBps)];
    PiecesHoldNoBar(wantAsset, wantAmount, feeBps, "");
    SplitJoin(parts, '|');
    NumberOfDecimal(feeBps);
    FeePatternIsCanonical(Decimal(feeBps));
  }

  lemma LegBRoundTrip(normalize: Rails, legAOfferId: string)
    requires LegBContext(legAOfferId).Some?
    ensures ParseSwapContext(normalize, LegBContext(legAOfferId).value) == Some(ContextB(legAOfferId))
  {
    PiecesHoldNoBar("", "", 0, legAOfferId);
    SplitJoin(["b", legAOfferId], '|');
  }

  /** What a context is written as. */
  function Written(normalize: Rails, context: SwapContext): Option<string> {
    match context
    case ContextA(wantAsset, wantAmount, wantRail, feeBps) => LegAContext(normalize, wantAsset, wantAmount, wantRail, feeBps)
    case ContextB(legAOfferId) => LegBContext(legAOfferId)
  }

  /**
   * Writing back what was read gives the very string, but for one older form: a leg A without its fee segment gets the
   * segment of fee 0.
   */
  lemma ParsedIsWrittenBack(normalize: Rails, context: string)
    requires ParseSwapContext(normalize, context).Some?
    ensures Written(normalize, ParseSwapContext(normalize, context).value)
            == Some(if |Split(context, '|')| == 4 then context + "|0" else context)
  {
    var parts := Split(context, '|');
    JoinSplit(context, '|');
    if |parts| == 5 {
      FeePatternIsCanonical(parts[4]);
      assert parts == ["a", parts[1], parts[2], parts[3], parts[4]];
    } else if |parts| == 4 {
      assert parts == ["a", parts[1], parts[2], parts[3]];
      JoinMore(parts, "0", '|');
      assert parts + ["0"] == ["a", parts[1], parts[2], parts[3], "0"];
      assert context + ['|'] + "0" == context + "|0";
      NumberOfDecimal(0);
    } else {
      assert parts == ["b", parts[1]];
    }
  }

  /** When leg A's context is written: an asset of one to 32 of its characters, a positive integer, a rail, a fee up to 100 percent. */
  lemma LegAIsWrittenExactly(normalize: Rails, wantAsset: string, wantAmount: string, wantRail: string, feeBps: nat)
    ensures LegAContext(normalize, wantAsset, wantAmount, wantRail, feeBps).Some? <==>
              && 1 <= |wantAsset| <= 32
              && (forall i :: 0 <= i < |wantAsset| ==>
                    || 'A' <= wantAsset[i] <= 'Z' || 'a' <= wantAsset[i] <= 'z' || '0' <= wantAsset[i] <= '9'
                    || wantAsset[i] in "_-")
              && (exists n: nat :: n >= 1 && wantAmount == Decimal(n)) && normalize(wantRail).Some? && feeBps <= 10000
  {
    AmountPatternIsCanonical(wantAmount);
  }

  /** And leg B's: the 32 bytes of an offer id in lower-case hexadecimal. */
  lemma LegBIsWrittenExactly(legAOfferId: string)
    ensures LegBContext(legAOfferId).Some? <==>
              && |legAOfferId| == 66 && legAOfferId[..2] == "0x"
              && forall i :: 2 <= i < 66 ==> '0' <= legAOfferId[i] <= '9' || 'a' <= legAOfferId[i] <= 'f'
  {
  }

  /** What some context is written as, its rail already canonical. */
  ghost predicate IsWritten(normalize: Rails, text: string) {
    exists context: SwapContext :: Written(normalize, context) == Some(text)
  }

  /** Exactly what is written is read, and beside it the older form of leg A, which lacks the segment of fee 0. */
  lemma ReadsExactlyWhatIsWritten(normalize: Rails, text: string)
    requires RailIds(normalize)
    ensures ParseSwapContext(normalize, text).Some?
            <==> IsWritten(normalize, text) || (|Split(text, '|')| == 4 && IsWritten(normalize, text + "|0"))
  {
    if ParseSwapContext(normalize, text).Some? {
      ParsedIsWrittenBack(normalize, text);
    }
    if IsWritten(normalize, text) {
      var context :| Written(normalize, context) == Some(text);
      WrittenIsRead(normalize, context);
    }
    if |Split(text, '|')| == 4 && IsWritten(normalize, text + "|0") {
      var context :| Written(normalize, context) == Some(text + "|0");
      WrittenIsRead(normalize, context);
      OlderFormIsRead(normalize, text);
    }
  }

  lemma WrittenIsRead(normalize: Rails, context: SwapContext)
    requires RailIds(normalize) && Written(normalize, context).Some?
    ensures ParseSwapContext(normalize, Written(normalize, context).value).Some?
  {
    match context
    case ContextA(wantAsset, wantAmount, wantRail, feeBps) => LegARoundTrip(normalize, wantAsset, wantAmount, wantRail, feeBps);
    case ContextB(legAOfferId) => LegBRoundTrip(normalize, legAOfferId);
  }

  lemma OlderFormIsRead(normalize: Rails, text: string)
    requires |Split(text, '|')| == 4 && ParseSwapContext(normalize, text + "|0").Some?
    ensures ParseSwapContext(normalize, text).Some?
  {
    var parts := Split(text, '|');
    JoinSplit(text, '|');
    JoinMore(parts, "0", '|');
    assert text + ['|'] + "0" == text + "|0";
    SplitJoin(parts + ["0"], '|');
    assert Split(text + "|0", '|') == parts + ["0"];
  }

  lemma {:induction false} JoinMore(parts: seq<string>, last: string, sep: char)
    requires |parts| >= 1
    ensures Join(parts + [last], sep) == Join(parts, sep) + [sep] + last
  {
    if |parts| > 1 {
      JoinMore(parts[1..], last, sep);
      assert (parts + [last])[1..] == parts[1..] + [last];
    } else {
      assert (parts + [last])[1..] == [last];
    }
  }
}
