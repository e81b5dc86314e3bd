/**
 * Attribute normalisation shared by the selectors: a unit-suffixed
 * string stripped and parsed, a nested record read through a default
 * field, a categorical label scored by an ordered substring table or by
 * an exact-key table, and the price penalty.
 */
module Attributes {
  import opened PyValues
  import opened Text

  /** `weights or defaults`: no table, or an empty one, means the defaults. */
  function WeightsOr(weights: Option<Weights>, defaults: Weights): (w: Weights)
    ensures weights.Some? && |weights.value| > 0 ==> w == weights.value
    ensures weights.None? || |weights.value| == 0 ==> w == defaults
  {
    if weights.None? || |weights.value| == 0 then defaults else weights.value
  }

  /** `record[key]` once the key is known to be present (None otherwise). */
  function At(record: Record, key: string): Value
  {
    GetOr(record, key, Null)
  }

  /** An attribute's contribution: the given part when the record has the attribute, nothing otherwise. */
  function When(record: Record, key: string, part: Result<real>): Result<real>
  {
    if key in record then part else Ok(0.0)
  }

  /** A unit token that a number's text can never contain the start of. */
  predicate UnitToken(unit: string)
  {
    |unit| > 0 && !IsDigit(unit[0]) && unit[0] != '.'
  }

  /** `int(v.replace(unit, '')) if isinstance(v, str) else v`, used as a number. */
  function UnitInt(v: Value, unit: string): Result<real>
    requires |unit| > 0
  {
    match v
    case Str(s) =>
      (match ParseInt(RemoveAll(s, unit))
       case Some(n) => Ok(n as real)
       case None => Raise)
    case _ => Arith(v)
  }

  /** `float(v.replace(unit, '')) if isinstance(v, str) else v`, used as a number. */
  function UnitFloat(v: Value, unit: string): Result<real>
    requires |unit| > 0
  {
    match v
    case Str(s) =>
      (match ParseFloat(RemoveAll(s, unit))
       case Some(x) => Ok(x)
       case None => Raise)
    case _ => Arith(v)
  }

  /** The integer text followed by its unit reads as the bare integer: `'24GB'` as `24`. */
  lemma UnitIntOfText(n: nat, unit: string)
    requires UnitToken(unit)
    ensures UnitInt(Str(NatText(n) + unit), unit) == UnitInt(Num(n as real), unit) == Ok(n as real)
  {
    DigitsAvoid(NatText(n), unit[0]);
    RemoveSuffixToken(NatText(n), unit);
    ParseIntNatText(n);
  }

  /** `int()` refuses a decimal before the unit: `'3.5GB'` raises. */
  lemma UnitIntRefusesDecimal(whole: nat, frac: string, unit: string)
    requires UnitToken(unit) && AllDigits(frac)
    ensures UnitInt(Str(DecimalText(whole, frac) + unit), unit) == Raise
  {
    var t := DecimalText(whole, frac);
    DigitsAvoid(NatText(whole), unit[0]);
    DigitsAvoid(frac, unit[0]);
    assert Avoids(t, unit[0]) by {
      forall i | 0 <= i < |t| ensures t[i] != unit[0] {
        if i < |NatText(whole)| {
          assert t[i] == NatText(whole)[i];
        } else if i > |NatText(whole)| {
          assert t[i] == frac[i - |NatText(whole)| - 1];
        }
      }
    }
    RemoveSuffixToken(t, unit);
    ParseIntRejectsPoint(whole, frac);
  }

  /** The integer text followed by its unit, read as a float, is the bare number: `'2235MHz'` as `2235`. */
  lemma UnitFloatOfText(n: nat, unit: string)
    requires UnitToken(unit)
    ensures UnitFloat(Str(NatText(n) + unit), unit) == UnitFloat(Num(n as real), unit) == Ok(n as real)
  {
    DigitsAvoid(NatText(n), unit[0]);
    RemoveSuffixToken(NatText(n), unit);
    ParseFloatNatText(n);
  }

  /** A decimal text followed by its unit reads as the bare decimal: `'3.5GHz'` as `3.5`. */
  lemma UnitFloatOfDecimal(whole: nat, frac: string, unit: string)
    requires UnitToken(unit) && AllDigits(frac)
    ensures AllDigits(NatText(whole))
    ensures UnitFloat(Str(DecimalText(whole, frac) + unit), unit)
         == UnitFloat(Num(DecimalValue(NatText(whole), frac)), unit)
         == Ok(DecimalValue(NatText(whole), frac))
  {
    var t := DecimalText(whole, frac);
    DigitsAvoid(NatText(whole), unit[0]);
    DigitsAvoid(frac, unit[0]);
    assert Avoids(t, unit[0]) by {
      forall i | 0 <= i < |t| ensures t[i] != unit[0] {
        if i < |NatText(whole)| {
          assert t[i] == NatText(whole)[i];
        } else if i > |NatText(whole)| {
          assert t[i] == frac[i - |NatText(whole)| - 1];
        }
      }
    }
    RemoveSuffixToken(t, unit);
    ParseFloatDecimalText(whole, frac);
  }

  /** A text that opens with a label character: neither a digit, a sign, a point, a space nor the unit's start. */
  predicate LabelFirst(s: string, unit: string)
  {
    |unit| > 0 && s != [] && !IsDigit(s[0]) && !IsSpace(s[0])
    && s[0] != '+' && s[0] != '-' && s[0] != '.' && s[0] != unit[0]
  }

  /** Neither `int()` nor `float()` accepts a text led by a label, unit removed or not: `'DDR5-6400MHz'` raises. */
  lemma LabelFirstRaises(s: string, unit: string)
    requires LabelFirst(s, unit)
    ensures UnitInt(Str(s), unit) == Raise
    ensures UnitFloat(Str(s), unit) == Raise
  {
    var t := RemoveAll(s, unit);
    assert !(unit <= s);
    assert t == [s[0]] + RemoveAll(s[1..], unit);
    assert TrimStart(t) == t;
    TrimEndKeepsHead(t);
    var u := Strip(t);
    assert u != [] && u[0] == s[0];
    assert SplitSign(u) == (false, u);
    assert !AllDigits(u) by { assert !IsDigit(u[0]); }
    match IndexOf(u, '.')
    case None =>
    case Some(k) =>
      assert k > 0;
      assert u[..k][0] == u[0];
      assert !AllDigits(u[..k]);
  }

  /** `v.get(field, default) if isinstance(v, dict) else v`. */
  function FieldOr(v: Value, field: string, default: Value): Value
  {
    if v.Rec? then GetOr(v.fields, field, default) else v
  }

  /** The values `in` can look inside: a str, a list or a dict. */
  predicate IsContainer(v: Value)
  {
    v.Str? || v.Lst? || v.Rec?
  }

  /** `needle in container` for a str needle: a substring of a str, an element of a list, a key of a dict. */
  predicate Member(needle: string, container: Value)
    requires IsContainer(container)
  {
    match container
    case Str(s) => Contains(s, needle)
    case Lst(xs) => Str(needle) in xs
    case Rec(f) => needle in f
  }

  /**
   * An ordered substring tier table: the tier of the first label that
   * occurs in the text, or the fallback when none does.
   */
  function FirstMatch(table: seq<(string, real)>, text: string, fallback: real): (tier: real)
    ensures tier == fallback || exists i :: 0 <= i < |table| && table[i].1 == tier
  {
    if table == [] then fallback
    else if Contains(text, table[0].0) then table[0].1
    else FirstMatch(table[1..], text, fallback)
  }

  /** The first label found in the text decides its tier, whatever later labels also occur. */
  lemma {:induction false} FirstMatchFinds(table: seq<(string, real)>, text: string, fallback: real, i: nat)
    requires i < |table| && Contains(text, table[i].0)
    requires forall j :: 0 <= j < i ==> !Contains(text, table[j].0)
    ensures FirstMatch(table, text, fallback) == table[i].1
  {
    if i > 0 {
      assert !Contains(text, table[0].0);
      FirstMatchFinds(table[1..], text, fallback, i - 1);
    }
  }

  /** A text in which no label occurs gets the fallback tier. */
  lemma {:induction false} FirstMatchMisses(table: seq<(string, real)>, text: string, fallback: real)
    requires forall j :: 0 <= j < |table| ==> !Contains(text, table[j].0)
    ensures FirstMatch(table, text, fallback) == fallback
  {
    if table != [] {
      assert !Contains(text, table[0].0);
      FirstMatchMisses(table[1..], text, fallback);
    }
  }

  /**
   * `table.get(v, default)` for a table whose keys are strings (and
   * possibly None mapped to the default): a dict or list raises
   * TypeError as unhashable, a listed string gets its entry, anything
   * else the default.
   */
  function HashedGet(table: map<string, real>, v: Value, default: real): (r: Result<real>)
    ensures r.Raise? <==> v.Rec? || v.Lst?
    ensures v.Str? && v.s in table ==> r == Ok(table[v.s])
    ensures r.Ok? && !(v.Str? && v.s in table) ==> r.value == default
  {
    match v
    case Rec(_) => Raise
    case Lst(_) => Raise
    case Str(s) => Ok(if s in table then table[s] else default)
    case _ => Ok(default)
  }

  /**
   * The term `'price' in r and r['price'] > 0` / `score -= r['price'] *
   * abs(weight)` adds to the score: never positive, zero unless the price
   * is positive, and blind to the sign the weight is stored with.
   */
  function PricePenalty(price: Value, weight: real): (r: Result<real>)
    ensures r.Ok? <==> Arith(price).Ok?
    ensures r.Ok? ==> r.value <= 0.0
    ensures Arith(price).Ok? && Arith(price).value <= 0.0 ==> r == Ok(0.0)
    ensures price.Num? && price.n > 0.0 ==> r == Ok(-(price.n * Abs(weight)))
  {
    var p :- Arith(price);
    if p > 0.0 then WeighNonNegative(p, Abs(weight)); Ok(-Weigh(p, Abs(weight))) else Ok(0.0)
  }
}
