/** Printing and parsing rfUSD amounts, as apps/web/src/credit-experience.ts does. */
module RfUsdText {
  import opened Rounding

  const WAD_SCALE: nat := 1_000_000_000_000_000_000
  const UNIT: nat := 1_000_000_000_000_000 // the third decimal

  datatype Parsed = Rejected | Wad(value: nat)

  // ---- Digits -------------------------------------------------------------------

  function Digit(d: nat): char
    requires d < 10
  {
    "0123456789"[d]
  }

  predicate IsDigit(c: char) { '0' <= c <= '9' }

  predicate AllDigits(s: string) { forall i | 0 <= i < |s| :: IsDigit(s[i]) }

  function DigitValue(c: char): nat
    requires IsDigit(c)
  {
    c as nat - '0' as nat
  }

  /** BigInt.prototype.toString in base 10. */
  function ToDecimal(n: nat): string {
    if n < 10 then [Digit(n)] else ToDecimal(n / 10) + [Digit(n % 10)]
  }

  /** BigInt of a string of digits. */
  function FromDecimal(s: string): nat
    requires AllDigits(s)
  {
    if s == "" then 0 else FromDecimal(s[..|s| - 1]) * 10 + DigitValue(s[|s| - 1])
  }

  function Zeros(n: nat): string { seq(n, _ => '0') }

  function PadStart(s: string, n: nat): string { if |s| < n then Zeros(n - |s|) + s else s }

  function PadEnd(s: string, n: nat): string { if |s| < n then s + Zeros(n - |s|) else s }

  /** `replace(/0+$/, "")`. */
  function StripZeros(s: string): string {
    if s != "" && s[|s| - 1] == '0' then StripZeros(s[..|s| - 1]) else s
  }

  // ---- formatRfUsd and parseRfUsd -----------------------------------------------

  /** What `formatRfUsd` puts before the unit. */
  function FormatNumber(value: nat): string {
    var fraction := PadStart(ToDecimal(value % WAD_SCALE), 18);
    var shown := StripZeros(if |fraction| >= 3 then fraction[..3] else fraction);
    ToDecimal(value / WAD_SCALE) + if shown == "" then "" else "." + shown
  }

  function FormatRfUsd(value: nat): string { FormatNumber(value) + " rfUSD" }

  /** `replace(" rfUSD", "")`: without the first occurrence of the unit. */
  function WithoutUnit(s: string): string {
    if |s| >= 6 && s[..6] == " rfUSD" then s[6..]
    else if s == "" then ""
    else [s[0]] + WithoutUnit(s[1..])
  }

  function FormatUsd(value: nat): string { "$" + WithoutUnit(FormatRfUsd(value)) }

  predicate IsSpace(c: char) {
    || c in {'\t', '\n', '\r', ' ', '\U{000B}', '\U{000C}', '\U{00A0}', '\U{1680}', '\U{2028}', '\U{2029}', '\U{202F}',
             '\U{205F}',
             '\U{3000}', '\U{FEFF}'}
    || '\U{2000}' <= c <= '\U{200A}'
  }

  function TrimStart(s: string): string { if s != "" && IsSpace(s[0]) then TrimStart(s[1..]) else s }
  function TrimEnd(s: string): string { if s != "" && IsSpace(s[|s| - 1]) then TrimEnd(s[..|s| - 1]) else s }
  function Trim(s: string): string { TrimEnd(TrimStart(s)) }

  /** The first group of the pattern: `0|[1-9][0-9]*`. */
  predicate IsWhole(s: string) { s != "" && AllDigits(s) && (s[0] == '0' ==> s == "0") }

  /** The second group: `[0-9]{1,3}`. */
  predicate IsFraction(s: string) { 1 <= |s| <= 3 && AllDigits(s) }

  function Value(whole: string, fraction: string): nat
    requires AllDigits(whole) && AllDigits(fraction)
  {
    FromDecimal(whole) * WAD_SCALE + FromDecimal(PadEnd(fraction, 3)) * UNIT
  }

  function DotAt(s: string): nat {
    if s == "" || s[0] == '.' then 0 else 1 + DotAt(s[1..])
  }

  lemma DotAtBound(s: string)
    ensures DotAt(s) <= |s| && '.' !in s[..DotAt(s)]
    ensures DotAt(s) < |s| ==> s[DotAt(s)] == '.'
  {
    if s != "" && s[0] != '.' {
      DotAtBound(s[1..]);
      assert s[..DotAt(s)] == [s[0]] + s[1..][..DotAt(s[1..])];
    }
  }

  function ParseRfUsd(text: string): Parsed {
    var s := Trim(text);
    var dot := DotAt(s);
    DotAtBound(s);
    if dot == |s| then
      if IsWhole(s) then Wad(Value(s, "")) else Rejected
    else
      if IsWhole(s[..dot]) && IsFraction(s[dot + 1..]) then Wad(Value(s[..dot], s[dot + 1..])) else Rejected
  }

  /** The two groups that `^(0|[1-9][0-9]*)(?:\.([0-9]{1,3}))?$` captures. */
  ghost predicate Groups(s: string, whole: string, fraction: string) {
    && IsWhole(whole)
    && (fraction == "" || IsFraction(fraction))
    && s == whole + if fraction == "" then "" else "." + fraction
  }

  lemma {:induction false} DotAfterDigits(whole: string, rest: string)
    requires AllDigits(whole) && (rest == "" || rest[0] == '.')
    ensures DotAt(whole + rest) == |whole|
  {
    if whole == "" {
      assert whole + rest == rest;
    } else {
      DotAfterDigits(whole[1..], rest);
      assert (whole + rest)[1..] == whole[1..] + rest;
    }
  }

  lemma ParseMatched(text: string, whole: string, fraction: string)
    requires Groups(Trim(text), whole, fraction)
    ensures AllDigits(fraction) && ParseRfUsd(text) == Wad(Value(whole, fraction))
  {
    var s := Trim(text);
    if fraction == "" {
      DotAfterDigits(whole, "");
      assert s == whole;
    } else {
      DotAfterDigits(whole, "." + fraction);
      assert s[..|whole|] == whole && s[|whole| + 1..] == fraction;
    }
  }

  lemma AcceptedGroups(text: string) returns (whole: string, fraction: string)
    requires ParseRfUsd(text) != Rejected
    ensures Groups(Trim(text), whole, fraction)
  {
    var s := Trim(text);
    var dot := DotAt(s);
    DotAtBound(s);
    if dot == |s| {
      whole, fraction := s, "";
    } else {
      whole, fraction := s[..dot], s[dot + 1..];
      assert s == whole + ("." + fraction);
    }
  }

  /** The parser accepts what the pattern matches, nothing else, and returns the amount its two groups denote. */
  lemma ParseMeansPattern(text: string)
    ensures forall whole, fraction | Groups(Trim(text), whole, fraction) ::
      AllDigits(fraction) && ParseRfUsd(text) == Wad(Value(whole, fraction))
    ensures ParseRfUsd(text) != Rejected ==> exists whole, fraction :: Groups(Trim(text), whole, fraction)
  {
    forall whole, fraction | Groups(Trim(text), whole, fraction)
      ensures AllDigits(fraction) && ParseRfUsd(text) == Wad(Value(whole, fraction))
    {
      ParseMatched(text, whole, fraction);
    }
    if ParseRfUsd(text) != Rejected { var whole, fraction := AcceptedGroups(text); }
  }

  // ---- The pattern itself -------------------------------------------------------

  datatype Regex = Empty | Range(lo: char, hi: char) | Cat(first: Regex, second: Regex)
    | Alt(left: Regex, right: Regex) | Star(body: Regex)

  /** `s` belongs to the language of `r`. */
  ghost predicate In(s: string, r: Regex)
    decreases r, |s|
  {
    match r
    case Empty => s == ""
    case Range(lo, hi) => |s| == 1 && lo <= s[0] <= hi
    case Cat(first, second) => exists i :: 0 <= i <= |s| && In(s[..i], first) && In(s[i..], second)
    case Alt(left, right) => In(s, left) || In(s, right)
    case Star(body) => s == "" || exists i :: 0 < i <= |s| && In(s[..i], body) && In(s[i..], r)
  }

  const DIGIT: Regex := Range('0', '9')
  const WHOLE: Regex := Alt(Range('0', '0'), Cat(Range('1', '9'), Star(DIGIT)))
  const FRACTION: Regex := Cat(DIGIT, Alt(Empty, Cat(DIGIT, Alt(Empty, DIGIT))))
  // ^(0|[1-9][0-9]*)(?:\.([0-9]{1,3}))?$
  const PATTERN: Regex := Cat(WHOLE, Alt(Empty, Cat(Range('.', '.'), FRACTION)))

  lemma InCat(s: string, i: nat, first: Regex, second: Regex)
    requires i <= |s| && In(s[..i], first) && In(s[i..], second)
    ensures In(s, Cat(first, second))
  {}

  lemma CatSplits(s: string, first: Regex, second: Regex) returns (i: nat)
    requires In(s, Cat(first, second))
    ensures i <= |s| && In(s[..i], first) && In(s[i..], second)
  {
    i :| 0 <= i <= |s| && In(s[..i], first) && In(s[i..], second);
  }

  lemma Optional(s: string, r: Regex)
    ensures In(s, Alt(Empty, r)) <==> s == "" || In(s, r)
  {}

  lemma {:induction false} StarOfDigits(s: string)
    ensures In(s, Star(DIGIT)) <==> AllDigits(s)
    decreases |s|
  {
    if s != "" {
      StarOfDigits(s[1..]);
      if In(s, Star(DIGIT)) {
        var i :| 0 < i <= |s| && In(s[..i], DIGIT) && In(s[i..], Star(DIGIT));
        assert i == 1;
        assert forall j | 1 <= j < |s| :: s[j] == s[1..][j - 1];
      }
      if AllDigits(s) {
        assert In(s[..1], DIGIT);
        assert In(s[1..], Star(DIGIT));
      }
    }
  }

  lemma WholeIsPattern(s: string)
    ensures In(s, WHOLE) <==> IsWhole(s)
  {
    if In(s, Cat(Range('1', '9'), Star(DIGIT))) {
      var i :| 0 <= i <= |s| && In(s[..i], Range('1', '9')) && In(s[i..], Star(DIGIT));
      assert i == 1;
      StarOfDigits(s[1..]);
      assert forall j | 1 <= j < |s| :: s[j] == s[1..][j - 1];
    }
    if IsWhole(s) && s[0] != '0' {
      StarOfDigits(s[1..]);
      InCat(s, 1, Range('1', '9'), Star(DIGIT));
    }
  }

  lemma OneOrTwo(s: string)
    ensures In(s, Cat(DIGIT, Alt(Empty, DIGIT))) <==> 1 <= |s| <= 2 && AllDigits(s)
  {
    if In(s, Cat(DIGIT, Alt(Empty, DIGIT))) {
      var i := CatSplits(s, DIGIT, Alt(Empty, DIGIT));
      Optional(s[1..], DIGIT);
      assert i == 1 && (|s| == 2 ==> s[1] == s[1..][0]);
    }
    if 1 <= |s| <= 2 && AllDigits(s) {
      Optional(s[1..], DIGIT);
      InCat(s, 1, DIGIT, Alt(Empty, DIGIT));
    }
  }

  lemma FractionIsPattern(s: string)
    ensures In(s, FRACTION) <==> IsFraction(s)
  {
    var rest := Cat(DIGIT, Alt(Empty, DIGIT));
    if In(s, FRACTION) {
      var i := CatSplits(s, DIGIT, Alt(Empty, rest));
      Optional(s[1..], rest);
      OneOrTwo(s[1..]);
      assert i == 1 && forall j | 1 <= j < |s| :: s[j] == s[1..][j - 1];
    }
    if IsFraction(s) {
      Optional(s[1..], rest);
      OneOrTwo(s[1..]);
      InCat(s, 1, DIGIT, Alt(Empty, rest));
    }
  }

  lemma PatternHasGroups(s: string)
    ensures In(s, PATTERN) <==> exists whole, fraction :: Groups(s, whole, fraction)
  {
    var rest := Alt(Empty, Cat(Range('.', '.'), FRACTION));
    if In(s, PATTERN) {
      var i :| 0 <= i <= |s| && In(s[..i], WHOLE) && In(s[i..], rest);
      WholeIsPattern(s[..i]);
      var fraction := SplitFraction(s[i..]);
      assert s == s[..i] + s[i..];
      assert Groups(s, s[..i], fraction);
    }
    if exists whole, fraction :: Groups(s, whole, fraction) {
      var whole, fraction :| Groups(s, whole, fraction);
      WholeIsPattern(whole);
      JoinFraction(fraction);
      assert s[..|whole|] == whole && s[|whole|..] == if fraction == "" then "" else "." + fraction;
      InCat(s, |whole|, WHOLE, rest);
    }
  }

  lemma SplitFraction(s: string) returns (fraction: string)
    requires In(s, Alt(Empty, Cat(Range('.', '.'), FRACTION)))
    ensures (fraction == "" || IsFraction(fraction)) && s == if fraction == "" then "" else "." + fraction
  {
    if s == "" {
      fraction := "";
    } else {
      Optional(s, Cat(Range('.', '.'), FRACTION));
      var i := CatSplits(s, Range('.', '.'), FRACTION);
      assert i == 1;
      FractionIsPattern(s[1..]);
      fraction := s[1..];
      assert s == s[..1] + s[1..] && s[..1] == ".";
    }
  }

  lemma JoinFraction(fraction: string)
    requires fraction == "" || IsFraction(fraction)
    ensures In(if fraction == "" then "" else "." + fraction, Alt(Empty, Cat(Range('.', '.'), FRACTION)))
  {
    var s := if fraction == "" then "" else "." + fraction;
    Optional(s, Cat(Range('.', '.'), FRACTION));
    if fraction != "" {
      FractionIsPattern(fraction);
      assert s[..1] == "." && s[1..] == fraction;
      InCat(s, 1, Range('.', '.'), FRACTION);
    }
  }

  /** `trim` takes white space off both ends and nothing else, and leaves none at the ends. */
  lemma TrimExactly(text: string) returns (before: string, after: string)
    ensures text == before + Trim(text) + after
    ensures (forall c | c in before + after :: IsSpace(c))
    ensures Trim(text) != "" ==> !IsSpace(Trim(text)[0]) && !IsSpace(Trim(text)[|Trim(text)| - 1])
  {
    before := TrimmedStart(text);
    after := TrimmedEnd(TrimStart(text));
  }

  lemma {:induction false} TrimmedStart(s: string) returns (before: string)
    ensures s == before + TrimStart(s) && (forall c | c in before :: IsSpace(c))
    ensures TrimStart(s) != "" ==> !IsSpace(TrimStart(s)[0])
  {
    if s != "" && IsSpace(s[0]) {
      before := TrimmedStart(s[1..]);
      before := [s[0]] + before;
    } else {
      before := "";
    }
  }

  lemma {:induction false} TrimmedEnd(s: string) returns (after: string)
    ensures s == TrimEnd(s) + after && (forall c | c in after :: IsSpace(c))
    ensures TrimEnd(s) != "" ==> TrimEnd(s)[0] == s[0] && !IsSpace(TrimEnd(s)[|TrimEnd(s)| - 1])
  {
    if s != "" && IsSpace(s[|s| - 1]) {
      after := TrimmedEnd(s[..|s| - 1]);
      after := after + [s[|s| - 1]];
    } else {
      after := "";
    }
  }

  /** The parser accepts exactly the language of the pattern, after trimming. */
  lemma ParseAcceptsPattern(text: string)
    ensures ParseRfUsd(text).Wad? <==> In(Trim(text), PATTERN)
  {
    PatternHasGroups(Trim(text));
    ParseMeansPattern(text);
  }

  // ---- Digits round trip --------------------------------------------------------

  lemma {:induction false} DecimalRoundTrip(n: nat)
    ensures AllDigits(ToDecimal(n)) && FromDecimal(ToDecimal(n)) == n
    ensures IsWhole(ToDecimal(n)) && (n > 0 ==> ToDecimal(n)[0] != '0')
  {
    if n < 10 {
      assert ToDecimal(n)[..0] == "";
    } else {
      DecimalRoundTrip(n / 10);
      var s := ToDecimal(n);
      assert s[..|s| - 1] == ToDecimal(n / 10);
    }
  }

  /** Exactly `k` digits of `n`, the lowest last. */
  function Fixed(n: nat, k: nat): string {
    if k == 0 then "" else Fixed(n / 10, k - 1) + [Digit(n % 10)]
  }

  function Pow10(k: nat): nat { if k == 0 then 1 else 10 * Pow10(k - 1) }

  lemma {:induction false} FixedLength(n: nat, k: nat)
    ensures |Fixed(n, k)| == k && AllDigits(Fixed(n, k))
  {
    if k > 0 { FixedLength(n / 10, k - 1); }
  }

  lemma {:induction false} FixedZero(k: nat)
    ensures Fixed(0, k) == Zeros(k)
  {
    if k > 0 {
      FixedZero(k - 1);
      assert Zeros(k) == Zeros(k - 1) + ['0'];
    }
  }

  lemma {:induction false} PadIsFixed(n: nat, k: nat)
    requires n < Pow10(k) && k > 0
    ensures PadStart(ToDecimal(n), k) == Fixed(n, k)
  {
    if n < 10 {
      FixedZero(k - 1);
    } else {
      PadIsFixed(n / 10, k - 1);
      FixedLength(n / 10, k - 1);
      assert |ToDecimal(n)| == |ToDecimal(n / 10)| + 1;
      if |ToDecimal(n)| < k {
        assert Zeros(k - |ToDecimal(n)|) + ToDecimal(n)
          == Zeros(k - |ToDecimal(n)|) + ToDecimal(n / 10) + [Digit(n % 10)];
      }
    }
  }

  lemma {:induction false} FixedPrefix(n: nat, k: nat, j: nat)
    requires j <= k
    ensures |Fixed(n, k)| == k && Pow10(k - j) > 0 && Fixed(n, k)[..j] == Fixed(n / Pow10(k - j), j)
  {
    FixedLength(n, k);
    if j < k {
      FixedPrefix(n / 10, k - 1, j);
      assert Fixed(n, k)[..j] == Fixed(n / 10, k - 1)[..j];
      DivDiv(n, Pow10(k - 1 - j));
    }
  }

  lemma DivDiv(n: nat, p: nat)
    requires p > 0
    ensures n / 10 / p == n / (10 * p)
  {
    var (a, b) := (n % 10, n / 10 % p);
    var q := n / 10 / p;
    assert n == 10 * (n / 10) + a && n / 10 == p * q + b;
    assert n == (10 * p) * q + (10 * b + a);
    QuotientUnique(n, 10 * p, q, 10 * b + a);
  }

  lemma QuotientUnique(n: nat, d: nat, q: nat, r: nat)
    requires d > 0 && n == d * q + r && r < d
    ensures n / d == q
  {
    FloorIff(n, d, q);
    FloorIff(n, d, q + 1);
    assert (q + 1) * d == d * q + d && q * d == d * q;
  }

  lemma {:induction false} FixedValue(n: nat, k: nat)
    requires n < Pow10(k)
    ensures AllDigits(Fixed(n, k)) && FromDecimal(Fixed(n, k)) == n
  {
    FixedLength(n, k);
    if k > 0 {
      FixedValue(n / 10, k - 1);
      assert Fixed(n, k)[..k - 1] == Fixed(n / 10, k - 1);
    }
  }

  lemma {:induction false} StripPad(s: string)
    requires AllDigits(s)
    ensures AllDigits(StripZeros(s)) && |StripZeros(s)| <= |s| && PadEnd(StripZeros(s), |s|) == s
  {
    if s != "" && s[|s| - 1] == '0' {
      var t := s[..|s| - 1];
      StripPad(t);
      var shown := StripZeros(t);
      assert s == t + ['0'];
      assert Zeros(|s| - |shown|) == Zeros(|t| - |shown|) + ['0'];
    }
  }

  // ---- The round trip -----------------------------------------------------------

  lemma PowersOfTen()
    ensures Pow10(3) == 1000 && Pow10(15) == UNIT && Pow10(18) == WAD_SCALE
  {
    assert Pow10(6) == 1_000_000;
    assert Pow10(9) == 1_000_000_000;
    assert Pow10(12) == 1_000_000_000_000;
    assert Pow10(15) == UNIT;
  }

  /** The displayed decimals are the first three digits of the fraction, without trailing zeros. */
  lemma ShownDecimals(value: nat) returns (shown: string)
    ensures FormatNumber(value) == ToDecimal(value / WAD_SCALE) + (if shown == "" then "" else "." + shown)
    ensures |shown| <= 3 && AllDigits(shown) && AllDigits(PadEnd(shown, 3))
    ensures FromDecimal(PadEnd(shown, 3)) == value % WAD_SCALE / UNIT
  {
    var r := value % WAD_SCALE;
    ThreeDigits(r);
    StripPad(Fixed(r / UNIT, 3));
    shown := StripZeros(Fixed(r / UNIT, 3));
  }

  /** The first three of the eighteen decimals are the digits of the thousandths. */
  lemma ThreeDigits(r: nat)
    requires r < WAD_SCALE
    ensures |PadStart(ToDecimal(r), 18)| == 18 && PadStart(ToDecimal(r), 18)[..3] == Fixed(r / UNIT, 3)
    ensures |Fixed(r / UNIT, 3)| == 3 && AllDigits(Fixed(r / UNIT, 3)) && FromDecimal(Fixed(r / UNIT, 3)) == r / UNIT
  {
    PowersOfTen();
    PadIsFixed(r, 18);
    FixedLength(r, 18);
    FixedPrefix(r, 18, 3);
    FixedLength(r / UNIT, 3);
    FixedValue(r / UNIT, 3);
  }

  lemma {:induction false} UnitRemoved(number: string)
    requires ' ' !in number
    ensures WithoutUnit(number + " rfUSD") == number
  {
    var s := number + " rfUSD";
    if number == "" {
      assert s == " rfUSD";
    } else {
      UnitRemoved(number[1..]);
      assert s[0] == number[0] && s[1..] == number[1..] + " rfUSD";
      assert s[..6][0] == number[0];
    }
  }

  lemma TrimKeeps(s: string)
    requires s != "" && !IsSpace(s[0]) && !IsSpace(s[|s| - 1])
    ensures Trim(s) == s
  {}

  lemma NumberRoundTrip(value: nat)
    ensures ParseRfUsd(FormatNumber(value)) == Wad(value - value % UNIT)
  {
    var shown := ShownDecimals(value);
    var (whole, s) := (ToDecimal(value / WAD_SCALE), FormatNumber(value));
    DecimalRoundTrip(value / WAD_SCALE);
    assert !IsSpace(s[0]) && !IsSpace(s[|s| - 1]) by {
      assert IsDigit(s[0]) && IsDigit(s[|s| - 1]);
    }
    TrimKeeps(s);
    ParseMatched(s, whole, shown);
    CutToUnit(value);
  }

  lemma NumberHasNoSpace(value: nat)
    ensures ' ' !in FormatNumber(value)
  {
    var shown := ShownDecimals(value);
    DecimalRoundTrip(value / WAD_SCALE);
    var (whole, rest) := (ToDecimal(value / WAD_SCALE), if shown == "" then "" else "." + shown);
    assert ' ' !in whole && ' ' !in rest;
    assert FormatNumber(value) == whole + rest;
  }

  /** Printing cuts an amount down to a whole number of thousandths, and parsing what stands before the unit
      reads exactly that back. */
  lemma PrintThenParse(value: nat)
    ensures ParseRfUsd(WithoutUnit(FormatRfUsd(value))) == Wad(value - value % UNIT)
    ensures FormatUsd(value) == "$" + FormatNumber(value)
  {
    NumberRoundTrip(value);
    NumberHasNoSpace(value);
    UnitRemoved(FormatNumber(value));
  }

  lemma CutToUnit(value: nat)
    ensures value / WAD_SCALE * WAD_SCALE + value % WAD_SCALE / UNIT * UNIT == value - value % UNIT
  {}

  /** Every accepted text denotes a whole number of thousandths. */
  lemma ParsedIsWholeUnits(text: string)
    ensures ParseRfUsd(text).Wad? ==> ParseRfUsd(text).value % UNIT == 0
  {
    if ParseRfUsd(text).Wad? {
      var whole, fraction := AcceptedGroups(text);
      ParseMatched(text, whole, fraction);
      var (a, b) := (FromDecimal(whole), FromDecimal(PadEnd(fraction, 3)));
      assert ParseRfUsd(text).value == (a * 1000 + b) * UNIT;
    }
  }

  /** For an accepted text, with any number of whole digits, printing and parsing again changes nothing. */
  lemma ParseThenPrint(text: string)
    requires ParseRfUsd(text).Wad?
    ensures ParseRfUsd(WithoutUnit(FormatRfUsd(ParseRfUsd(text).value))) == ParseRfUsd(text)
  {
    ParsedIsWholeUnits(text);
    PrintThenParse(ParseRfUsd(text).value);
  }
}
