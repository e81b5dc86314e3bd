/**
 * The string operations the selectors rely on: `str.upper`, the
 * substring test `a in b`, `str.replace(token, '')`, and the number
 * parsers `int(...)` and `float(...)` applied to a string.
 */
module Text {
  import opened PyValues

  predicate IsDigit(c: char) { '0' <= c <= '9' }

  predicate AllDigits(s: string) { forall i :: 0 <= i < |s| ==> IsDigit(s[i]) }

  /** The ASCII whitespace that `int()` and `float()` ignore around a number. */
  predicate IsSpace(c: char) { c == ' ' || 9 <= c as int <= 13 || 28 <= c as int <= 31 }

  function DigitValue(c: char): nat
    requires IsDigit(c)
  {
    c as int - '0' as int
  }

  function DigitChar(d: nat): (c: char)
    requires d < 10
    ensures IsDigit(c) && DigitValue(c) == d
  {
    ('0' as int + d) as char
  }

  /** The value of a string of decimal digits, most significant first. */
  function DigitsValue(s: string): nat
    requires AllDigits(s)
  {
    if s == [] then 0 else DigitsValue(s[..|s| - 1]) * 10 + DigitValue(s[|s| - 1])
  }

  function Pow10(n: nat): (p: nat)
    ensures p > 0
  {
    if n == 0 then 1 else 10 * Pow10(n - 1)
  }

  /** The decimal text of a natural number, as `str(n)` writes it. */
  function NatText(n: nat): (s: string)
    ensures |s| > 0 && AllDigits(s)
  {
    if n < 10 then [DigitChar(n)] else NatText(n / 10) + [DigitChar(n % 10)]
  }

  /** ASCII case mapping of `str.upper` for one character. */
  function UpperChar(c: char): char
  {
    if 'a' <= c <= 'z' then (c as int - 32) as char else c
  }

  function LowerChar(c: char): char
  {
    if 'A' <= c <= 'Z' then (c as int + 32) as char else c
  }

  function Upper(s: string): (u: string)
    ensures |u| == |s| && forall i :: 0 <= i < |s| ==> u[i] == UpperChar(s[i])
  {
    if s == [] then [] else [UpperChar(s[0])] + Upper(s[1..])
  }

  function Lower(s: string): (l: string)
    ensures |l| == |s| && forall i :: 0 <= i < |s| ==> l[i] == LowerChar(s[i])
  {
    if s == [] then [] else [LowerChar(s[0])] + Lower(s[1..])
  }

  /** Upper-casing forgets the case the text was written in. */
  lemma UpperOfLower(s: string)
    ensures Upper(Lower(s)) == Upper(s)
  {
    var a, b := Upper(Lower(s)), Upper(s);
    assert |a| == |b|;
    forall i | 0 <= i < |s| ensures a[i] == b[i] {
      assert a[i] == UpperChar(LowerChar(s[i]));
    }
  }

  /** Python's `needle in text` for two strings. */
  predicate Contains(text: string, needle: string)
    decreases |text|
  {
    needle <= text || (|text| > 0 && Contains(text[1..], needle))
  }

  /** The needle occurs in the text starting at position i. */
  predicate OccursAt(text: string, needle: string, i: nat)
  {
    i + |needle| <= |text| && text[i..i + |needle|] == needle
  }

  /** A contained needle occurs at a position: the first one the scan of `Contains` reaches. */
  lemma {:induction false} ContainedOccurs(text: string, needle: string) returns (i: nat)
    requires Contains(text, needle)
    ensures OccursAt(text, needle, i)
    decreases |text|
  {
    if needle <= text {
      i := 0;
    } else {
      var j := ContainedOccurs(text[1..], needle);
      assert text[j + 1..j + 1 + |needle|] == text[1..][j..j + |needle|];
      i := j + 1;
    }
  }

  /** A needle that occurs at a position is contained. */
  lemma {:induction false} OccursContained(text: string, needle: string, i: nat)
    requires OccursAt(text, needle, i)
    ensures Contains(text, needle)
    decreases i
  {
    if i > 0 {
      var rest := text[1..];
      assert rest[i - 1..i - 1 + |needle|] == needle by {
        forall k | 0 <= k < |needle| ensures rest[i - 1 + k] == needle[k] {
          assert text[i..i + |needle|][k] == needle[k];
        }
      }
      OccursContained(rest, needle, i - 1);
    }
  }

  /** `Contains` holds exactly when the needle occurs at some position. */
  lemma ContainsIffOccurs(text: string, needle: string)
    ensures Contains(text, needle) <==> exists i: nat :: OccursAt(text, needle, i)
  {
    if Contains(text, needle) {
      var i := ContainedOccurs(text, needle);
    }
    forall i: nat | OccursAt(text, needle, i) ensures Contains(text, needle) {
      OccursContained(text, needle, i);
    }
  }

  /**
   * Python's `text.replace(token, '')`: every non-overlapping occurrence
   * of the token, scanning left to right, is removed.
   */
  function RemoveAll(text: string, token: string): string
    requires |token| > 0
    decreases |text|
  {
    if text == [] then []
    else if token <= text then RemoveAll(text[|token|..], token)
    else [text[0]] + RemoveAll(text[1..], token)
  }

  predicate Avoids(text: string, c: char) { forall i :: 0 <= i < |text| ==> text[i] != c }

  /** A text in which the token's first character never occurs is left as it is. */
  lemma {:induction false} RemoveAllAbsent(text: string, token: string)
    requires |token| > 0 && Avoids(text, token[0])
    ensures RemoveAll(text, token) == text
    decreases |text|
  {
    if text != [] {
      assert !(token <= text);
      RemoveAllAbsent(text[1..], token);
    }
  }

  /** Removal passes over a leading part in which the token cannot start. */
  lemma {:induction false} RemoveAllAfter(head: string, tail: string, token: string)
    requires |token| > 0 && Avoids(head, token[0])
    ensures RemoveAll(head + tail, token) == head + RemoveAll(tail, token)
    decreases |head|
  {
    if head != [] {
      assert (head + tail)[0] == head[0];
      assert !(token <= head + tail);
      assert (head + tail)[1..] == head[1..] + tail;
      RemoveAllAfter(head[1..], tail, token);
    } else {
      assert head + tail == tail;
    }
  }

  /** `(t + unit).replace(unit, '') == t` when the unit cannot start inside t. */
  lemma RemoveSuffixToken(text: string, token: string)
    requires |token| > 0 && Avoids(text, token[0])
    ensures RemoveAll(text + token, token) == text
  {
    RemoveAllAfter(text, token, token);
    assert token[|token|..] == [];
  }

  /** `(unit + t).replace(unit, '') == t` when the unit cannot start inside t. */
  lemma RemovePrefixToken(token: string, text: string)
    requires |token| > 0 && Avoids(text, token[0])
    ensures RemoveAll(token + text, token) == text
  {
    assert token <= token + text;
    assert (token + text)[|token|..] == text;
    RemoveAllAbsent(text, token);
  }

  function TrimStart(s: string): (t: string)
    ensures |t| <= |s|
  {
    if s != [] && IsSpace(s[0]) then TrimStart(s[1..]) else s
  }

  function TrimEnd(s: string): (t: string)
    ensures |t| <= |s|
  {
    if s != [] && IsSpace(s[|s| - 1]) then TrimEnd(s[..|s| - 1]) else s
  }

  /** Trimming the end never removes a first character that is not whitespace. */
  lemma {:induction false} TrimEndKeepsHead(s: string)
    requires s != [] && !IsSpace(s[0])
    ensures TrimEnd(s) != [] && TrimEnd(s)[0] == s[0]
    decreases |s|
  {
    if IsSpace(s[|s| - 1]) {
      TrimEndKeepsHead(s[..|s| - 1]);
    }
  }

  /** `s.strip()` restricted to ASCII whitespace. */
  function Strip(s: string): string
  {
    TrimEnd(TrimStart(s))
  }

  lemma StripUnchanged(s: string)
    requires s != [] && !IsSpace(s[0]) && !IsSpace(s[|s| - 1])
    ensures Strip(s) == s
  {
  }

  /** An optional leading sign: whether the number is negative, and the rest. */
  function SplitSign(s: string): (bool, string)
  {
    if s != [] && (s[0] == '-' || s[0] == '+') then (s[0] == '-', s[1..]) else (false, s)
  }

  /** Python's `int(s)` for a string: the decimal integer it spells, or None where it raises ValueError. */
  function ParseInt(s: string): Option<int>
  {
    var (negative, digits) := SplitSign(Strip(s));
    if |digits| > 0 && AllDigits(digits) then
      Some(if negative then -(DigitsValue(digits) as int) else DigitsValue(digits))
    else None
  }

  function IndexOf(s: string, c: char): (r: Option<nat>)
    ensures r.Some? ==> r.value < |s| && s[r.value] == c && Avoids(s[..r.value], c)
    ensures r.None? ==> Avoids(s, c)
  {
    if s == [] then None
    else if s[0] == c then Some(0)
    else match IndexOf(s[1..], c)
      case None => None
      case Some(k) => assert s[..k + 1] == [s[0]] + s[1..][..k]; Some(k + 1)
  }

  /** The value of `whole.frac` written in decimal. */
  function DecimalValue(whole: string, frac: string): real
    requires AllDigits(whole) && AllDigits(frac)
  {
    DigitsValue(whole) as real + DigitsValue(frac) as real / Pow10(|frac|) as real
  }

  function ParseUnsigned(s: string): Option<real>
  {
    match IndexOf(s, '.')
    case None =>
      if |s| > 0 && AllDigits(s) then Some(DigitsValue(s) as real) else None
    case Some(k) =>
      var whole, frac := s[..k], s[k + 1..];
      if |whole| + |frac| > 0 && AllDigits(whole) && AllDigits(frac) then
        Some(DecimalValue(whole, frac))
      else None
  }

  /** Python's `float(s)` for a string of plain decimal notation, or None where it raises ValueError. */
  function ParseFloat(s: string): Option<real>
  {
    var (negative, body) := SplitSign(Strip(s));
    match ParseUnsigned(body)
    case None => None
    case Some(v) => Some(if negative then -v else v)
  }

  lemma {:induction false} NatTextValue(n: nat)
    ensures DigitsValue(NatText(n)) == n
  {
    if n >= 10 {
      var prefix := NatText(n / 10);
      var s := prefix + [DigitChar(n % 10)];
      assert s[..|s| - 1] == prefix;
      NatTextValue(n / 10);
    }
  }

  lemma DigitsAvoid(s: string, c: char)
    requires AllDigits(s) && !IsDigit(c)
    ensures Avoids(s, c)
  {
  }

  /** `int(str(n)) == n`. */
  lemma ParseIntNatText(n: nat)
    ensures ParseInt(NatText(n)) == Some(n)
  {
    var s := NatText(n);
    StripUnchanged(s);
    assert SplitSign(s) == (false, s);
    NatTextValue(n);
  }

  /** `float(str(n)) == n`. */
  lemma ParseFloatNatText(n: nat)
    ensures ParseFloat(NatText(n)) == Some(n as real)
  {
    var s := NatText(n);
    StripUnchanged(s);
    assert SplitSign(s) == (false, s);
    DigitsAvoid(s, '.');
    NatTextValue(n);
  }

  /** The text `whole.frac` of a decimal number. */
  function DecimalText(whole: nat, frac: string): string
  {
    NatText(whole) + "." + frac
  }

  /** `float('<whole>.<frac>')` is the decimal number those digits spell. */
  lemma ParseFloatDecimalText(whole: nat, frac: string)
    requires AllDigits(frac)
    ensures AllDigits(NatText(whole))
    ensures ParseFloat(DecimalText(whole, frac)) == Some(DecimalValue(NatText(whole), frac))
  {
    var w := NatText(whole);
    var s := DecimalText(whole, frac);
    assert s[0] == w[0];
    assert s[|s| - 1] == if frac == [] then '.' else frac[|frac| - 1];
    StripUnchanged(s);
    assert SplitSign(s) == (false, s);
    DigitsAvoid(w, '.');
    IndexOfAfter(w, '.', frac);
    assert s[..|w|] == w;
    assert s[|w| + 1..] == frac;
  }

  lemma {:induction false} IndexOfAfter(head: string, c: char, tail: string)
    requires Avoids(head, c)
    ensures IndexOf(head + [c] + tail, c) == Some(|head|)
    decreases |head|
  {
    var s := head + [c] + tail;
    if head != [] {
      assert s[0] == head[0];
      assert s[1..] == head[1..] + [c] + tail;
      IndexOfAfter(head[1..], c, tail);
    }
  }

  /** `int()` refuses a text with a decimal point: `int('3.5')` raises. */
  lemma ParseIntRejectsPoint(whole: nat, frac: string)
    requires AllDigits(frac)
    ensures ParseInt(DecimalText(whole, frac)) == None
  {
    var s := DecimalText(whole, frac);
    var w := NatText(whole);
    assert s[0] == w[0];
    assert s[|s| - 1] == if frac == [] then '.' else frac[|frac| - 1];
    StripUnchanged(s);
    assert SplitSign(s) == (false, s);
    assert s[|w|] == '.';
  }
}
