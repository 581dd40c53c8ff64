/**
 * The numeric parsers applied to scraped specification strings: the first
 * `\d+(\.\d+)?` in a text (`extractNumericValue`), `parseFloat` over a run of
 * digits and dots, and the `^([\d.]+)\s*([A-Za-z°Ω]+)$` pattern of
 * `parseValueWithUnit`. Numbers are exact reals; `None` stands for
 * `undefined` (or NaN where noted).
 */
module Numbers {
  import opened Wrappers
  import opened Text

  /** Length of the longest prefix of `s` whose characters all satisfy `p`. */
  function RunOf(s: string, p: char -> bool): (n: nat)
    ensures n <= |s|
    ensures forall i | 0 <= i < n :: p(s[i])
    ensures n == |s| || !p(s[n])
  {
    if s != [] && p(s[0]) then 1 + RunOf(s[1..], p) else 0
  }

  predicate IsDigitOrDot(c: char) {
    IsDigit(c) || c == '.'
  }

  /** The characters `[A-Za-z°Ω]` of a unit symbol. */
  predicate IsUnitChar(c: char) {
    ('A' <= c <= 'Z') || ('a' <= c <= 'z') || c as int == 0xB0 || c as int == 0x3A9
  }

  predicate HasDigit(s: string) {
    exists i | 0 <= i < |s| :: IsDigit(s[i])
  }

  /** Index of the first decimal digit of `s`. */
  function FirstDigitIndex(s: string): (k: nat)
    requires HasDigit(s)
    ensures k < |s| && IsDigit(s[k])
    ensures forall i | 0 <= i < k :: !IsDigit(s[i])
  {
    if IsDigit(s[0]) then 0
    else
      assert HasDigit(s[1..]) by {
        var i :| 0 <= i < |s| && IsDigit(s[i]);
        assert s[1..][i - 1] == s[i];
      }
      1 + FirstDigitIndex(s[1..])
  }

  /** The value of the numeral `intDigits.fracDigits` (no fraction when `fracDigits` is empty). */
  function DecimalValue(intDigits: string, fracDigits: string): (v: real)
    requires AllDigits(intDigits) && AllDigits(fracDigits)
    ensures v >= DigitsValue(intDigits) as real
  {
    DigitsValue(intDigits) as real + FractionValue(fracDigits)
  }

  /** The value of the digits after a decimal point, `0.d1d2...`: at least 0 and below 1. */
  function FractionValue(d: string): (v: real)
    requires AllDigits(d)
    ensures 0.0 <= v < 1.0
  {
    if d == [] then 0.0 else (DigitValue(d[0]) as real + FractionValue(d[1..])) / 10.0
  }

  /**
   * The value of the match of `\d+(\.\d+)?` that starts at the first character
   * of `s`: the greedy digit run, then a fraction only when a dot is followed
   * by at least one digit.
   */
  function LeadingNumber(s: string): (v: real)
    requires s != [] && IsDigit(s[0])
    ensures v >= 0.0
  {
    var a := RunOf(s, IsDigit);
    var rest := s[a..];
    if |rest| >= 2 && rest[0] == '.' && IsDigit(rest[1]) then
      var b := RunOf(rest[1..], IsDigit);
      DecimalValue(s[..a], rest[1..][..b])
    else
      DecimalValue(s[..a], [])
  }

  /**
   * `extractNumericValue`: `undefined` for an empty text or one without a
   * digit, otherwise `parseFloat` of the first `\d+(\.\d+)?`.
   */
  function ExtractNumericValue(value: string): (r: Option<real>)
    ensures r.None? <==> !HasDigit(value)
    ensures r.Some? ==> r.value >= 0.0
  {
    if value == [] || !HasDigit(value) then None
    else Some(LeadingNumber(value[FirstDigitIndex(value)..]))
  }

  lemma {:induction false} DigitRunOfDigits(d: string, u: string)
    requires AllDigits(d)
    requires u == [] || !IsDigit(u[0])
    ensures RunOf(d + u, IsDigit) == |d|
  {
    if d != [] {
      assert (d + u)[1..] == d[1..] + u;
      DigitRunOfDigits(d[1..], u);
    } else {
      assert d + u == u;
    }
  }

  lemma FirstDigitIndexAfter(p: string, t: string)
    requires !HasDigit(p) && t != [] && IsDigit(t[0])
    ensures HasDigit(p + t) && FirstDigitIndex(p + t) == |p|
  {
    assert (p + t)[|p|] == t[0];
    assert forall i | 0 <= i < |p| :: (p + t)[i] == p[i];
  }

  lemma LeadingNumberOfWhole(d: string, u: string)
    requires |d| >= 1 && AllDigits(d)
    requires u == [] || (!IsDigit(u[0]) && u[0] != '.')
    ensures LeadingNumber(d + u) == DigitsValue(d) as real
  {
    var t := d + u;
    DigitRunOfDigits(d, u);
    assert LeadingNumber(t) == DecimalValue(t[..|d|], []) by {
      assert t[|d|..] == u;
    }
    assert t[..|d|] == d;
  }

  /** A text that starts with digits not followed by a fraction reads as the value of those digits. */
  lemma ExtractNumericValueOfDigits(d: string, u: string)
    requires |d| >= 1 && AllDigits(d)
    requires u == [] || (!IsDigit(u[0]) && u[0] != '.')
    ensures ExtractNumericValue(d + u) == Some(DigitsValue(d) as real)
  {
    var t := d + u;
    assert t[0] == d[0];
    assert HasDigit(t);
    assert FirstDigitIndex(t) == 0;
    assert t[0..] == t;
    LeadingNumberOfWhole(d, u);
  }

  /** After digit-free text, the number read is the one the rest starts with. */
  lemma ExtractNumericValueAfter(p: string, t: string)
    requires !HasDigit(p) && t != [] && IsDigit(t[0])
    ensures ExtractNumericValue(p + t) == Some(LeadingNumber(t))
  {
    FirstDigitIndexAfter(p, t);
    assert (p + t)[|p|..] == t;
  }

  /** A whole number printed between digit-free text and a non-numeric suffix reads back as itself. */
  lemma ExtractNumericValueOfNat(p: string, n: nat, u: string)
    requires !HasDigit(p)
    requires u == [] || (!IsDigit(u[0]) && u[0] != '.')
    ensures ExtractNumericValue(p + (NatToString(n) + u)) == Some(n as real)
  {
    var d := NatToString(n);
    assert (d + u)[0] == d[0];
    ExtractNumericValueAfter(p, d + u);
    LeadingNumberOfWhole(d, u);
    DigitsValueOfNatToString(n);
  }

  lemma LeadingNumberOfDecimal(d: string, f: string, u: string)
    requires |d| >= 1 && AllDigits(d) && |f| >= 1 && AllDigits(f)
    requires u == [] || !IsDigit(u[0])
    ensures LeadingNumber(d + ("." + (f + u))) == DecimalValue(d, f)
  {
    var t := d + ("." + (f + u));
    DigitRunOfDigits(d, "." + (f + u));
    assert t[..|d|] == d;
    var rest := t[|d|..];
    assert rest == "." + (f + u);
    assert rest[1..] == f + u;
    DigitRunOfDigits(f, u);
    assert (f + u)[..|f|] == f;
  }

  /** A decimal fraction written after the whole part is read as part of the same number. */
  lemma ExtractNumericValueOfDecimal(p: string, d: string, f: string, u: string)
    requires !HasDigit(p)
    requires |d| >= 1 && AllDigits(d) && |f| >= 1 && AllDigits(f)
    requires u == [] || !IsDigit(u[0])
    ensures ExtractNumericValue(p + (d + ("." + (f + u)))) == Some(DecimalValue(d, f))
  {
    var t := d + ("." + (f + u));
    assert t[0] == d[0];
    ExtractNumericValueAfter(p, t);
    LeadingNumberOfDecimal(d, f, u);
  }

  // parseFloat over the `[\d.]+` group of parseValueWithUnit

  predicate AllDigitsOrDots(s: string) {
    forall i | 0 <= i < |s| :: IsDigitOrDot(s[i])
  }

  /**
   * `parseFloat` of a text made only of digits and dots: the longest
   * `digits[.digits]` prefix that holds at least one digit; `None` is NaN.
   */
  function ParseDigitsAndDots(t: string): (r: Option<real>)
    requires AllDigitsOrDots(t)
    ensures r.None? <==> t == [] || (t[0] == '.' && (|t| == 1 || !IsDigit(t[1])))
    ensures r.Some? ==> r.value >= 0.0
  {
    var a := RunOf(t, IsDigit);
    var rest := t[a..];
    if rest != [] then
      assert rest[0] == '.';
      var b := RunOf(rest[1..], IsDigit);
      if a == 0 && b == 0 then None
      else Some(DecimalValue(t[..a], rest[1..][..b]))
    else if a == 0 then None
    else Some(DecimalValue(t[..a], []))
  }

  /** The result of `parseValueWithUnit`: a value (`None` is NaN) and the unit symbol. */
  datatype ParsedQuantity = ParsedQuantity(value: Option<real>, unit: string)

  predicate AllUnitChars(s: string) {
    forall i | 0 <= i < |s| :: IsUnitChar(s[i])
  }

  /** `s` splits as `[\d.]+` (ending at `i`), `\s*` (ending at `j`) and `[A-Za-z°Ω]+` to the end. */
  predicate MatchesUnitPatternAt(s: string, i: int, j: int) {
    0 < i <= j < |s| && AllDigitsOrDots(s[..i]) && AllWhitespace(s[i..j]) && AllUnitChars(s[j..])
  }

  predicate MatchesUnitPattern(s: string) {
    exists i, j | 0 < i <= j < |s| :: MatchesUnitPatternAt(s, i, j)
  }

  /**
   * `parseValueWithUnit`: `undefined` for the empty text or a text that is not
   * wholly a number, optional whitespace and a unit; otherwise the parsed
   * number and the unit text.
   */
  function ParseValueWithUnit(s: string): (r: Option<ParsedQuantity>)
    ensures r.Some? <==> MatchesUnitPattern(s)
    ensures forall i, j | MatchesUnitPatternAt(s, i, j) ::
      r == Some(ParsedQuantity(ParseDigitsAndDots(s[..i]), s[j..]))
  {
    var a := RunOf(s, IsDigitOrDot);
    var w := a + RunOf(s[a..], IsWhitespace);
    assert AllDigitsOrDots(s[..a]);
    assert AllWhitespace(s[a..w]) by {
      forall k | a <= k < w ensures IsWhitespace(s[k]) {
        assert s[a..][k - a] == s[k];
      }
    }
    assert forall i, j | MatchesUnitPatternAt(s, i, j) :: i == a && j == w by {
      forall i, j | MatchesUnitPatternAt(s, i, j) ensures i == a && j == w {
        UnitPatternSplitIsUnique(s, i, j, a, w);
      }
    }
    if s == [] || a == 0 || w == |s| || !AllUnitChars(s[w..]) then
      None
    else
      assert MatchesUnitPatternAt(s, a, w);
      Some(ParsedQuantity(ParseDigitsAndDots(s[..a]), s[w..]))
  }

  lemma UnitPatternSplitIsUnique(s: string, i: int, j: int, a: nat, w: nat)
    requires MatchesUnitPatternAt(s, i, j)
    requires a == RunOf(s, IsDigitOrDot) && w == a + RunOf(s[a..], IsWhitespace)
    ensures i == a && j == w
  {
    assert i <= a by {
      forall k | 0 <= k < i ensures IsDigitOrDot(s[k]) {
        assert s[..i][k] == s[k];
      }
      assert a == |s| || !IsDigitOrDot(s[a]);
    }
    assert a <= i by {
      assert forall k | 0 <= k < a :: IsDigitOrDot(s[k]);
      assert !IsDigitOrDot(s[i]) by {
        if i < j {
          assert s[i..j][0] == s[i];
        } else {
          assert s[j..][0] == s[i];
        }
        CharClassesDisjoint(s[i]);
      }
    }
    assert j <= w by {
      forall k | i <= k < j ensures IsWhitespace(s[k]) {
        assert s[i..j][k - i] == s[k];
      }
      assert w == |s| || !IsWhitespace(s[w]) by {
        if w < |s| {
          assert s[a..][w - a] == s[w];
        }
      }
    }
    assert w <= j by {
      forall k | a <= k < w ensures IsWhitespace(s[k]) {
        assert s[a..][k - a] == s[k];
      }
      assert !IsWhitespace(s[j]) by {
        assert s[j..][0] == s[j];
        CharClassesDisjoint(s[j]);
      }
    }
  }

  /** A digit or dot is neither whitespace nor a unit character, and whitespace is not a unit character. */
  lemma CharClassesDisjoint(c: char)
    ensures IsDigitOrDot(c) ==> !IsWhitespace(c) && !IsUnitChar(c)
    ensures IsWhitespace(c) ==> !IsUnitChar(c)
  {
  }

}
