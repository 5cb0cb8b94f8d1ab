/**
 * The few JavaScript string operations the application relies on: `split` on a
 * one-character separator, `startsWith`, `includes`, ASCII `toLowerCase`, and the
 * decimal rendering of integers in template literals.
 */
module Text {
  import Wrappers

  predicate StartsWith(s: string, prefix: string) {
    |prefix| <= |s| && s[..|prefix|] == prefix
  }

  /** `s.includes(sub)`: `sub` occurs somewhere in `s` (the empty string occurs everywhere). */
  predicate Includes(s: string, sub: string)
    decreases |s|
  {
    StartsWith(s, sub) || (s != [] && Includes(s[1..], sub))
  }

  /** Index of the first `c` in `s`, or `|s|` when there is none. */
  function IndexOf(s: string, c: char): (i: nat)
    ensures i <= |s|
    ensures i < |s| ==> s[i] == c
    ensures forall k :: 0 <= k < i ==> s[k] != c
  {
    if s == [] then 0
    else if s[0] == c then 0
    else 1 + IndexOf(s[1..], c)
  }

  /** `s.split(sep)` for a one-character separator: always at least one part. */
  function Split(s: string, sep: char): (parts: seq<string>)
    ensures |parts| >= 1
    decreases |s|
  {
    var i := IndexOf(s, sep);
    if i == |s| then [s] else [s[..i]] + Split(s[i + 1..], sep)
  }

  /** `parts.join(sep)`. */
  function Join(parts: seq<string>, sep: char): string {
    if |parts| <= 1 then (if parts == [] then "" else parts[0])
    else parts[0] + [sep] + Join(parts[1..], sep)
  }

  /** Splitting loses nothing: joining the parts again gives back the input ... */
  lemma {:induction false} JoinSplit(s: string, sep: char)
    ensures Join(Split(s, sep), sep) == s
    decreases |s|
  {
    var i := IndexOf(s, sep);
    if i < |s| {
      var rest := s[i + 1..];
      JoinSplit(rest, sep);
      assert s == s[..i] + [sep] + rest;
    }
  }

  /** ... and no part contains the separator. */
  lemma {:induction false} SplitPartsSeparatorFree(s: string, sep: char)
    ensures forall k :: 0 <= k < |Split(s, sep)| ==> sep !in Split(s, sep)[k]
    decreases |s|
  {
    var i := IndexOf(s, sep);
    if i < |s| {
      SplitPartsSeparatorFree(s[i + 1..], sep);
      var parts := Split(s, sep);
      forall k | 0 <= k < |parts| ensures sep !in parts[k] {
        if k > 0 {
          assert parts[k] == Split(s[i + 1..], sep)[k - 1];
        }
      }
    }
  }

  /**
   * For a tag without the separator, `s.startsWith(tag + sep)` holds exactly when the
   * first part of `s.split(sep)` is `tag` and there is a second part.
   */
  lemma StartsWithTagIffFirstPart(s: string, tag: string, sep: char)
    requires sep !in tag
    ensures StartsWith(s, tag + [sep]) <==> (|Split(s, sep)| >= 2 && Split(s, sep)[0] == tag)
  {
    var i := IndexOf(s, sep);
    if StartsWith(s, tag + [sep]) {
      assert s[|tag|] == sep;
      forall k | 0 <= k < |tag| ensures s[k] != sep {
        assert s[k] == tag[k];
      }
      assert i == |tag|;
    }
    if |Split(s, sep)| >= 2 && Split(s, sep)[0] == tag {
      assert i < |s| && s[..i] == tag;
      assert s[..|tag| + 1] == tag + [sep];
    }
  }

  function LowerChar(c: char): char {
    if 'A' <= c <= 'Z' then (c as int + 32) as char else c
  }

  /** `toLowerCase` on the ASCII letters. */
  function ToLower(s: string): (r: string)
    ensures |r| == |s|
    ensures forall k :: 0 <= k < |s| ==> r[k] == LowerChar(s[k])
  {
    seq(|s|, k requires 0 <= k < |s| => LowerChar(s[k]))
  }

  /** Case-insensitive `includes`, as the filters write it. */
  predicate IncludesIgnoringCase(s: string, sub: string) {
    Includes(ToLower(s), ToLower(sub))
  }

  lemma {:induction false} IncludesEmpty(s: string)
    ensures Includes(s, "")
  {
    assert StartsWith(s, "");
  }

  function DigitChar(d: nat): (c: char)
    requires d < 10
    ensures '0' <= c <= '9' && c as int - '0' as int == d
  {
    ('0' as int + d) as char
  }

  /** The decimal rendering of a natural number (`String(n)`). */
  function NatToString(n: nat): (s: string)
    ensures |s| >= 1
    ensures forall k :: 0 <= k < |s| ==> '0' <= s[k] <= '9'
  {
    if n < 10 then [DigitChar(n)] else NatToString(n / 10) + [DigitChar(n % 10)]
  }

  /** The decimal rendering of an integer, with a leading '-' when negative. */
  function IntToString(n: int): string {
    if n < 0 then "-" + NatToString(-n) else NatToString(n)
  }

  /** `String(n).padStart(2, '0')`. */
  function Pad2(n: nat): (s: string)
    ensures |s| >= 2
  {
    if n < 10 then "0" + NatToString(n) else NatToString(n)
  }

  /** The padded rendering is made of digits only. */
  lemma Pad2Digits(n: nat)
    ensures forall k :: 0 <= k < |Pad2(n)| ==> '0' <= Pad2(n)[k] <= '9'
  {
    var s := NatToString(n);
    if n < 10 {
      assert forall k :: 1 <= k < |Pad2(n)| ==> Pad2(n)[k] == s[k - 1];
    }
  }

  /** The value of a run of decimal digits. */
  function DigitsValue(s: string): nat
    requires forall k :: 0 <= k < |s| ==> '0' <= s[k] <= '9'
  {
    if s == [] then 0 else 10 * DigitsValue(s[..|s| - 1]) + (s[|s| - 1] as int - '0' as int)
  }

  lemma {:induction false} DigitsValueOfNatToString(n: nat)
    ensures DigitsValue(NatToString(n)) == n
  {
    if n >= 10 {
      DigitsValueOfNatToString(n / 10);
      var s := NatToString(n);
      assert s[..|s| - 1] == NatToString(n / 10);
    }
  }

  /** `NatToString` uses exactly as many digits as the number has. */
  lemma {:induction false} NatToStringLength(n: nat, width: nat)
    requires width >= 1
    ensures |NatToString(n)| <= width <==> n < Pow10(width)
  {
    if n >= 10 {
      if width == 1 {
        assert |NatToString(n)| >= 2 by { assert NatToString(n) == NatToString(n / 10) + [DigitChar(n % 10)]; }
      } else {
        NatToStringLength(n / 10, width - 1);
      }
    } else if width > 1 {
      Pow10AtLeastTen(width);
    }
  }

  function Pow10(k: nat): (p: nat)
    ensures p >= 1
  {
    if k == 0 then 1 else 10 * Pow10(k - 1)
  }

  lemma {:induction false} Pow10AtLeastTen(k: nat)
    requires k >= 1
    ensures Pow10(k) >= 10
  {
    if k > 1 {
      Pow10AtLeastTen(k - 1);
    }
  }

  /**
   * `parseInt(s)` on the strings the forms produce: optional spaces, an optional sign,
   * then the longest run of digits; `None` (NaN) when there is no digit.
   */
  function ParseInt(s: string): (r: Wrappers.Option<int>) {
    ParseSigned(SkipSpaces(s))
  }

  /** `s` without its leading spaces, tabs and newlines. */
  function SkipSpaces(s: string): string {
    if s != [] && (s[0] == ' ' || s[0] == '\t' || s[0] == '\n') then SkipSpaces(s[1..]) else s
  }

  /** An optional sign, then the leading digits. */
  function ParseSigned(s: string): (r: Wrappers.Option<int>) {
    if s != [] && s[0] == '-' then Negated(ParseDigits(s[1..]))
    else if s != [] && s[0] == '+' then ParseDigits(s[1..])
    else ParseDigits(s)
  }

  /** The value of the leading digits of `s`, `None` when it does not start with a digit. */
  function ParseDigits(s: string): (r: Wrappers.Option<int>)
    ensures r.Some? ==> r.value >= 0
  {
    var d := LeadingDigits(s);
    if d == [] then Wrappers.None else Wrappers.Some(DigitsValue(d) as int)
  }

  function Negated(r: Wrappers.Option<int>): Wrappers.Option<int> {
    if r.None? then Wrappers.None else Wrappers.Some(-r.value)
  }

  /** The longest prefix of `s` made of decimal digits. */
  function LeadingDigits(s: string): (d: string)
    ensures |d| <= |s| && d == s[..|d|]
    ensures forall k :: 0 <= k < |d| ==> '0' <= d[k] <= '9'
    ensures |d| < |s| ==> !('0' <= s[|d|] <= '9')
  {
    if s != [] && '0' <= s[0] <= '9' then [s[0]] + LeadingDigits(s[1..]) else []
  }

  /** `parseInt(String(n)) == n`: the rendering and the parse agree. */
  lemma ParseIntOfIntToString(n: int)
    ensures ParseInt(IntToString(n)) == Wrappers.Some(n)
  {
    if n < 0 {
      NegativeRendering(n);
      DigitsValueOfNatToString(-n);
      ParseIntOfNegative(IntToString(n), n);
    } else {
      DigitsValueOfNatToString(n);
      ParseIntOfDigits(NatToString(n));
    }
  }

  /** A negative number renders as a minus sign followed by the digits of its magnitude. */
  lemma NegativeRendering(n: int)
    requires n < 0
    ensures var t := IntToString(n);
            |t| >= 2 && t[0] == '-' && t[1..] == NatToString(-n) &&
            forall k :: 1 <= k < |t| ==> '0' <= t[k] <= '9'
  {
    assert IntToString(n) == "-" + NatToString(-n);
  }

  /** A run of digits is read whole. */
  lemma ParseDigitsOfDigits(s: string)
    requires s != [] && forall k :: 0 <= k < |s| ==> '0' <= s[k] <= '9'
    ensures ParseDigits(s) == Wrappers.Some(DigitsValue(s) as int)
  {
    LeadingDigitsOfDigits(s);
  }

  /** A run of digits parses to its value. */
  lemma ParseIntOfDigits(s: string)
    requires s != [] && forall k :: 0 <= k < |s| ==> '0' <= s[k] <= '9'
    ensures ParseInt(s) == Wrappers.Some(DigitsValue(s) as int)
  {
    NoSpacesToSkip(s);
    ParseDigitsOfDigits(s);
  }

  /** A minus sign followed by the digits of `-n` parses to `n`. */
  lemma ParseIntOfNegative(t: string, n: int)
    requires |t| >= 2 && t[0] == '-' && forall k :: 1 <= k < |t| ==> '0' <= t[k] <= '9'
    requires DigitsValue(t[1..]) == -n
    ensures ParseInt(t) == Wrappers.Some(n)
  {
    NoSpacesToSkip(t);
    ParseDigitsOfDigits(t[1..]);
    ParseSignedNegative(t, -n);
  }

  lemma ParseSignedNegative(t: string, v: int)
    requires t != [] && t[0] == '-' && ParseDigits(t[1..]) == Wrappers.Some(v)
    ensures ParseSigned(t) == Wrappers.Some(-v)
  {
  }

  lemma NoSpacesToSkip(s: string)
    requires s != [] && s[0] != ' ' && s[0] != '\t' && s[0] != '\n'
    ensures SkipSpaces(s) == s
  {
  }

  lemma {:induction false} LeadingDigitsOfDigits(s: string)
    requires forall k :: 0 <= k < |s| ==> '0' <= s[k] <= '9'
    ensures LeadingDigits(s) == s
  {
    if s != [] {
      LeadingDigitsOfDigits(s[1..]);
    }
  }
}
