/** Reading a decimal amount, as a chain reports it, into minor units. */
module Decimal {
  import opened Wrappers
  import opened Bits
  import opened Radix

  const I64_MAX: int := 0x7FFF_FFFF_FFFF_FFFF

  type Text = seq<byte>

  const DOT: byte := 46

  /** '0' to '9' */
  predicate IsDigit(c: byte) {
    48 <= c <= 57
  }

  predicate AllDigits(s: Text) {
    forall i :: 0 <= i < |s| ==> IsDigit(s[i])
  }

  function Values(s: Text): (ds: seq<nat>)
    requires AllDigits(s)
    ensures |ds| == |s| && AreDigits(ds, 10)
  {
    seq(|s|, i requires 0 <= i < |s| => s[i] - 48)
  }

  /** The number a run of digits spells; leading zeros are allowed. */
  function Spelled(s: Text): nat
    requires AllDigits(s)
  {
    Number(Values(s), 10)
  }

  function Zeros(n: nat): (s: Text)
    ensures |s| == n && AllDigits(s)
  {
    seq(n, i => 48)
  }

  /** Where the first dot is, or the length. */
  function FirstDot(s: Text): (n: nat)
    ensures n <= |s| && (n < |s| ==> s[n] == DOT)
    ensures forall i :: 0 <= i < n ==> s[i] != DOT
  {
    if |s| == 0 || s[0] == DOT then 0 else 1 + FirstDot(s[1..])
  }

  function CheckedMinor(whole: nat, factor: nat, fraction: nat): Option<int> {
    if whole > I64_MAX then None
    else if whole * factor > I64_MAX then None
    else if whole * factor + fraction > I64_MAX then None
    else Some(whole * factor + fraction)
  }

  /** decimal_minor */
  function Minor(s: Text, scale: int): Option<int> {
    if scale < 0 || scale > 7 then None
    else if |s| > 0 && (s[0] == 45 || s[0] == 43) then None
    else
      var dot := FirstDot(s);
      var whole := s[..dot];
      var fraction := if dot < |s| then s[dot + 1..] else [];
      if FirstDot(fraction) < |fraction| then None
      else if |whole| == 0 || !AllDigits(whole) || !AllDigits(fraction) || |fraction| > scale then None
      else CheckedMinor(Spelled(whole), Power(10, scale), Spelled(fraction + Zeros(scale - |fraction|)))
  }

  // ----- exactly the decimals that fit -----

  /** s is written as whole digits, and optionally a dot and fraction digits. */
  ghost predicate Written(s: Text, whole: Text, fraction: Text) {
    && AllDigits(whole) && AllDigits(fraction) && |whole| > 0
    && ((s == whole && |fraction| == 0) || s == whole + [46] + fraction)
  }

  /** v minor units are the exact value: whole.fraction * 10^scale == v, cleared of the fraction. */
  ghost predicate ExactValue(whole: Text, fraction: Text, scale: nat, v: int)
    requires AllDigits(whole) && AllDigits(fraction)
  {
    v * Power(10, |fraction|) == Spelled(whole + fraction) * Power(10, scale)
  }

  lemma {:induction false} FirstDotIs(a: Text, rest: Text)
    requires AllDigits(a) && (|rest| == 0 || rest[0] == DOT)
    ensures FirstDot(a + rest) == |a|
    decreases |a|
  {
    if |a| == 0 {
      assert a + rest == rest;
    } else {
      assert (a + rest)[1..] == a[1..] + rest;
      FirstDotIs(a[1..], rest);
    }
  }

  lemma DotIs(s: Text, whole: Text, fraction: Text)
    requires AllDigits(whole) && s == whole + [DOT] + fraction
    ensures FirstDot(s) == |whole| && s[..|whole|] == whole && s[|whole| + 1..] == fraction
  {
    hide FirstDot;
    assert s == whole + ([DOT] + fraction);
    FirstDotIs(whole, [DOT] + fraction);
  }

  lemma NoDot(s: Text)
    requires AllDigits(s)
    ensures FirstDot(s) == |s|
  {
    hide FirstDot;
    FirstDotIs(s, []);
    assert s + [] == s;
  }

  lemma SplitIs(s: Text, whole: Text, fraction: Text)
    requires Written(s, whole, fraction)
    ensures FirstDot(s) == |whole| && s[..|whole|] == whole
    ensures (if |whole| < |s| then s[|whole| + 1..] else []) == fraction
    ensures FirstDot(fraction) == |fraction|
    ensures s[0] != 45 && s[0] != 43
  {
    hide FirstDot;
    assert s[0] == whole[0] && IsDigit(whole[0]);
    NoDot(fraction);
    if s == whole {
      NoDot(whole);
      assert fraction == [];
    } else {
      DotIs(s, whole, fraction);
    }
  }

  lemma SpelledConcat(a: Text, b: Text)
    requires AllDigits(a) && AllDigits(b)
    ensures AllDigits(a + b) && Spelled(a + b) == Spelled(a) * Power(10, |b|) + Spelled(b)
  {
    hide Number, Power;
    ValuesConcat(a, b);
    NumberConcat(Values(a), Values(b), 10);
  }

  lemma ValuesConcat(a: Text, b: Text)
    requires AllDigits(a) && AllDigits(b)
    ensures AllDigits(a + b) && Values(a + b) == Values(a) + Values(b)
  {
  }

  lemma ZeroSpells()
    ensures Spelled([48]) == 0
  {
    assert Values([48]) == [0] == [] + [0];
    NumberAppend([], 0, 10);
  }

  lemma {:induction false} ZerosSpellNothing(n: nat)
    ensures Spelled(Zeros(n)) == 0
  {
    if n == 0 {
      assert |Values(Zeros(0))| == 0;
    } else {
      ZerosSpellNothing(n - 1);
      assert Zeros(n) == Zeros(n - 1) + [48];
      SpelledConcat(Zeros(n - 1), [48]);
      ZeroSpells();
    }
  }

  lemma {:induction false} PowerSum(a: nat, b: nat)
    ensures Power(10, a + b) == Power(10, a) * Power(10, b)
  {
    if b > 0 {
      PowerSum(a, b - 1);
      MulAssociates(Power(10, a), Power(10, b - 1), 10);
    }
  }

  lemma MulAssociates(x: nat, y: nat, z: nat)
    ensures x * (y * z) == x * y * z
  {
  }

  /** What the code adds up is the exact value. */
  lemma SumIsExact(whole: Text, fraction: Text, scale: nat)
    requires AllDigits(whole) && AllDigits(fraction) && |fraction| <= scale
    ensures ExactValue(whole, fraction, scale, Spelled(whole) * Power(10, scale) + Spelled(fraction + Zeros(scale - |fraction|)))
  {
    hide Spelled, Power;
    var k, n := scale - |fraction|, |fraction|;
    SpelledConcat(fraction, Zeros(k));
    ZerosSpellNothing(k);
    SpelledConcat(whole, fraction);
    PowerSum(k, n);
    Cleared(Spelled(whole), Spelled(fraction), Power(10, scale), Power(10, n), Power(10, k));
  }

  lemma Cleared(w: nat, f: nat, p: nat, q: nat, r: nat)
    requires p == r * q
    ensures (w * p + f * r) * q == (w * q + f) * p
  {
    MulAssociates(f, r, q);
    MulAssociates(w, p, q);
    MulAssociates(w, q, p);
    assert w * p * q == w * q * p;
    assert (w * p + f * r) * q == w * p * q + f * r * q;
    assert (w * q + f) * p == w * q * p + f * p;
  }

  lemma ExactIsUnique(whole: Text, fraction: Text, scale: nat, v: int, u: int)
    requires AllDigits(whole) && AllDigits(fraction)
    requires ExactValue(whole, fraction, scale, v) && ExactValue(whole, fraction, scale, u)
    ensures u == v
  {
    hide Spelled;
    if u < v {
      Cancel2(u, v, Power(10, |fraction|));
    } else if v < u {
      Cancel2(v, u, Power(10, |fraction|));
    }
  }

  lemma Cancel2(u: int, v: int, p: nat)
    requires u < v && p > 0
    ensures u * p < v * p
  {
  }

  lemma FitsIsChecked(whole: nat, factor: nat, fraction: nat)
    requires factor > 0
    ensures CheckedMinor(whole, factor, fraction) ==
            if whole * factor + fraction <= I64_MAX then Some(whole * factor + fraction) else None
  {
    assert whole * 1 <= whole * factor;
  }

  lemma MinorOfWritten(s: Text, whole: Text, fraction: Text, scale: int)
    requires Written(s, whole, fraction) && 0 <= scale <= 7 && |fraction| <= scale
    ensures var v := Spelled(whole) * Power(10, scale) + Spelled(fraction + Zeros(scale - |fraction|));
            Minor(s, scale) == if v <= I64_MAX then Some(v) else None
  {
    hide Spelled, Power, CheckedMinor;
    SplitIs(s, whole, fraction);
    FitsIsChecked(Spelled(whole), Power(10, scale), Spelled(fraction + Zeros(scale - |fraction|)));
  }

  /** The reader returns v exactly when the text is an unsigned decimal with a non-empty whole
      part and at most `scale` fraction digits whose exact value is v minor units, and v fits. */
  lemma MinorIff(s: Text, scale: int, v: int)
    ensures Minor(s, scale) == Some(v) <==>
            exists whole: Text, fraction: Text ::
              && Written(s, whole, fraction) && 0 <= scale <= 7 && |fraction| <= scale
              && ExactValue(whole, fraction, scale, v) && v <= 9_223_372_036_854_775_807
  {
    hide Minor, ExactValue, Spelled, Zeros;
    if Minor(s, scale) == Some(v) {
      MinorIsWritten(s, scale, v);
    }
    if w: Text, f: Text :| Written(s, w, f) && 0 <= scale <= 7 && |f| <= scale && ExactValue(w, f, scale, v) && v <= I64_MAX {
      MinorOfWritten(s, w, f, scale);
      SumIsExact(w, f, scale);
      ExactIsUnique(w, f, scale, v, Spelled(w) * Power(10, scale) + Spelled(f + Zeros(scale - |f|)));
    }
  }

  lemma MinorIsWritten(s: Text, scale: int, v: int)
    requires Minor(s, scale) == Some(v)
    ensures 0 <= scale <= 7 && v <= I64_MAX
    ensures exists whole: Text, fraction: Text ::
              Written(s, whole, fraction) && |fraction| <= scale && ExactValue(whole, fraction, scale, v)
  {
    hide Spelled, Power;
    var dot := FirstDot(s);
    var whole := s[..dot];
    var fraction := if dot < |s| then s[dot + 1..] else [];
    assert Written(s, whole, fraction) by {
      if dot < |s| {
        assert s == whole + [DOT] + fraction;
      } else {
        assert s == whole;
      }
    }
    SumIsExact(whole, fraction, scale);
    FitsIsChecked(Spelled(whole), Power(10, scale), Spelled(fraction + Zeros(scale - |fraction|)));
  }

  // ----- the formatter it inverts -----

  function DigitText(ds: seq<nat>): (s: Text)
    requires AreDigits(ds, 10)
    ensures |s| == |ds| && AllDigits(s)
  {
    seq(|ds|, i requires 0 <= i < |ds| => 48 + ds[i])
  }

  /** The digits of n, without leading zeros. */
  function NaturalDigits(n: nat): (ds: seq<nat>)
    ensures AreDigits(ds, 10) && |ds| > 0
  {
    if n < 10 then [n] else NaturalDigits(n / 10) + [n % 10]
  }

  /** v minor units in fixed-point notation with all `scale` fraction digits. */
  function Format(v: nat, scale: nat): Text {
    var whole := DigitText(NaturalDigits(Quotient(v, Power(10, scale))));
    if scale == 0 then whole else whole + [DOT] + DigitText(Digits(Remainder(v, Power(10, scale)), 10, scale))
  }

  lemma {:induction false} NaturalDigitsSpell(n: nat)
    ensures Number(NaturalDigits(n), 10) == n
  {
    if n < 10 {
      NumberAppend([], n, 10);
      assert [] + [n] == [n];
    } else {
      NaturalDigitsSpell(n / 10);
      NumberAppend(NaturalDigits(n / 10), n % 10, 10);
    }
  }

  lemma DigitTextSpells(ds: seq<nat>)
    requires AreDigits(ds, 10)
    ensures Spelled(DigitText(ds)) == Number(ds, 10)
  {
    assert Values(DigitText(ds)) == ds;
  }

  /** Every amount is read back from its fixed-point text. */
  lemma ReadsFormatted(v: nat, scale: nat)
    requires v <= I64_MAX && scale <= 7
    ensures Minor(Format(v, scale), scale) == Some(v)
  {
    hide Spelled, Minor, Digits, NaturalDigits, Power, Quotient, Number, DigitText;
    var p := Power(10, scale);
    var q, r := Quotient(v, p), Remainder(v, p);
    var whole := DigitText(NaturalDigits(q));
    var fraction := if scale == 0 then [] else DigitText(Digits(r, 10, scale));
    NaturalDigitsSpell(q);
    DigitTextSpells(NaturalDigits(q));
    FractionSpells(r, scale, fraction);
    FormatIsWritten(v, scale, whole, fraction);
    MinorOfWritten(Format(v, scale), whole, fraction, scale);
    assert fraction + Zeros(scale - |fraction|) == fraction;
  }

  lemma FormatIsWritten(v: nat, scale: nat, whole: Text, fraction: Text)
    requires whole == DigitText(NaturalDigits(Quotient(v, Power(10, scale))))
    requires fraction == if scale == 0 then [] else DigitText(Digits(Remainder(v, Power(10, scale)), 10, scale))
    ensures Written(Format(v, scale), whole, fraction) && |fraction| == scale
  {
    hide Quotient, Digits, NaturalDigits;
  }

  lemma FractionSpells(r: nat, scale: nat, fraction: Text)
    requires r < Power(10, scale) && AllDigits(fraction)
    requires fraction == if scale == 0 then [] else DigitText(Digits(r, 10, scale))
    ensures Spelled(fraction) == r
  {
    if scale == 0 {
      assert |Values(fraction)| == 0;
    } else {
      NumberOfDigits(r, 10, scale);
      DigitTextSpells(Digits(r, 10, scale));
    }
  }

  /** Trailing zeros within the scale do not matter. */
  lemma TrailingZeroIgnored(whole: Text, fraction: Text, scale: nat)
    requires AllDigits(whole) && AllDigits(fraction) && |whole| > 0 && |fraction| < scale <= 7
    ensures Minor(whole + [DOT] + (fraction + [48]), scale) == Minor(whole + [DOT] + fraction, scale)
  {
    hide Spelled, Minor;
    var longer := fraction + [48];
    MinorOfWritten(whole + [DOT] + fraction, whole, fraction, scale);
    MinorOfWritten(whole + [DOT] + longer, whole, longer, scale);
    assert longer + Zeros(scale - |longer|) == fraction + Zeros(scale - |fraction|);
  }
}
