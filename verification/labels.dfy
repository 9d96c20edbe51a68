/**
 The rendering of the classifier's label (app.py:98-103): `label_map.get(
 prediction, prediction)` turns 0 and 1 into outcome texts and hands any
 other label back unchanged, and the f-string then shows it as Python's
 `str` of an integer, its decimal digits with a leading '-' when negative.
 */
module Labels {
  import opened Results

  const FailText: string := "\U{274C} Fail"
  const PassText: string := "\U{2705} Pass"

  /** `label_map`. */
  const LabelMap: map<int, string> := map[0 := FailText, 1 := PassText]

  /** What `label_map.get(prediction, prediction)` returns: a mapped text, or the label itself. */
  datatype Shown = Mapped(text: string) | Unmapped(raw: int)

  function LabelMapGet(prediction: int): (r: Shown)
    ensures r.Mapped? <==> prediction == 0 || prediction == 1
    ensures prediction == 0 ==> r == Mapped(FailText)
    ensures prediction == 1 ==> r == Mapped(PassText)
    ensures r.Unmapped? ==> r.raw == prediction
  {
    if prediction in LabelMap then Mapped(LabelMap[prediction]) else Unmapped(prediction)
  }

  function DigitChar(d: nat): (c: char)
    requires d < 10
    ensures IsDigit(c) && DigitValue(c) == d
  {
    ('0' as int + d) as char
  }

  predicate IsDigit(c: char) {
    '0' <= c <= '9'
  }

  function DigitValue(c: char): nat
    requires IsDigit(c)
  {
    (c - '0') as nat
  }

  /** A non-empty string of decimal digits with no leading zero, unless it is "0" itself. */
  predicate CanonicalNat(s: string) {
    && |s| > 0
    && (forall i :: 0 <= i < |s| ==> IsDigit(s[i]))
    && (s[0] == '0' ==> |s| == 1)
  }

  /** The shape of Python's `str` of an integer: canonical digits, after a '-' when the value is negative. */
  predicate CanonicalDecimal(s: string) {
    CanonicalNat(s) || (|s| > 1 && s[0] == '-' && s[1] != '0' && CanonicalNat(s[1..]))
  }

  /** The decimal digits of a natural number, most significant first, without leading zeros. */
  function NatDigits(n: nat): (s: string)
    ensures CanonicalNat(s)
    ensures s[0] == '0' ==> n == 0
    decreases n
  {
    if n < 10 then [DigitChar(n)] else NatDigits(n / 10) + [DigitChar(n % 10)]
  }

  /** Python's `str` of an integer. */
  function DecimalString(n: int): (s: string)
    ensures CanonicalDecimal(s)
    ensures s[0] == '-' <==> n < 0
  {
    if n < 0 then "-" + NatDigits(-n) else NatDigits(n)
  }

  /** The value of a non-empty string of decimal digits, or None when it is not one. */
  function ParseNat(s: string): Option<nat>
    decreases |s|
  {
    if |s| == 0 || !IsDigit(s[|s| - 1]) then None
    else if |s| == 1 then Some(DigitValue(s[0]))
    else
      match ParseNat(s[..|s| - 1])
      case None => None
      case Some(v) => Some(10 * v + DigitValue(s[|s| - 1]))
  }

  /** Python's `int` of a decimal string, an optional '-' followed by digits. */
  function ParseDecimal(s: string): Option<int> {
    if |s| > 0 && s[0] == '-' then
      match ParseNat(s[1..])
      case None => None
      case Some(v) => Some(-(v as int))
    else
      match ParseNat(s)
      case None => None
      case Some(v) => Some(v as int)
  }

  lemma {:induction false} NatDigitsRoundTrip(n: nat)
    ensures ParseNat(NatDigits(n)) == Some(n)
    decreases n
  {
    if n >= 10 {
      var s := NatDigits(n);
      NatDigitsRoundTrip(n / 10);
      assert s[..|s| - 1] == NatDigits(n / 10);
      assert DigitValue(s[|s| - 1]) == n % 10;
    }
  }

  /** Reading back the decimal form of a label gives the label. */
  lemma DecimalRoundTrip(n: int)
    ensures ParseDecimal(DecimalString(n)) == Some(n)
  {
    var s := DecimalString(n);
    if n < 0 {
      var digits := NatDigits(-n);
      NatDigitsRoundTrip(-n);
      assert s == "-" + digits;
      assert s[0] == '-' && s[1..] == digits;
    } else {
      NatDigitsRoundTrip(n);
      assert IsDigit(s[0]);
    }
  }

  /** A canonical digit string that does not start with '0' denotes a positive number. */
  lemma {:induction false} LeadingDigitPositive(s: string)
    requires CanonicalNat(s) && s[0] != '0'
    ensures ParseNat(s).Some? && ParseNat(s).value > 0
    decreases |s|
  {
    if |s| > 1 {
      var prefix := s[..|s| - 1];
      assert prefix[0] == s[0];
      LeadingDigitPositive(prefix);
    }
  }

  /** A canonical digit string is exactly the decimal form of the number it denotes. */
  lemma {:induction false} CanonicalNatUnique(s: string)
    requires CanonicalNat(s)
    ensures ParseNat(s).Some? && NatDigits(ParseNat(s).value) == s
    decreases |s|
  {
    if |s| > 1 {
      var prefix := s[..|s| - 1];
      assert prefix[0] == s[0];
      CanonicalNatUnique(prefix);
      LeadingDigitPositive(prefix);
      var v := ParseNat(prefix).value;
      var d := DigitValue(s[|s| - 1]);
      assert ParseNat(s) == Some(10 * v + d);
      assert (10 * v + d) / 10 == v && (10 * v + d) % 10 == d;
      assert s == prefix + [s[|s| - 1]];
    }
  }

  /**
   Python's `str` is the only canonical decimal text of a number: a canonical
   string that reads back as `n` is `DecimalString(n)`.
   */
  lemma CanonicalDecimalUnique(s: string, n: int)
    requires CanonicalDecimal(s)
    requires ParseDecimal(s) == Some(n)
    ensures s == DecimalString(n)
  {
    if s[0] == '-' {
      var digits := s[1..];
      CanonicalNatUnique(digits);
      LeadingDigitPositive(digits);
      assert s == "-" + digits;
    } else {
      CanonicalNatUnique(s);
    }
  }

  /** The text the result line shows for a label. */
  function ShownText(prediction: int): (t: string)
    ensures prediction == 0 <==> t == FailText
    ensures prediction == 1 <==> t == PassText
    ensures prediction != 0 && prediction != 1 ==> CanonicalDecimal(t)
  {
    assert FailText != PassText && !IsDigit(FailText[0]) && !IsDigit(PassText[0]) by {
      assert FailText[0] != PassText[0];
    }
    match LabelMapGet(prediction)
    case Mapped(t) => t
    case Unmapped(l) => DecimalString(l)
  }

  /**
   0 is shown as the fail text, 1 as the pass text, and every other label as
   its own decimal form, which reads back as that label.
   */
  lemma ShownTextCases(prediction: int)
    ensures prediction == 0 ==> ShownText(prediction) == FailText
    ensures prediction == 1 ==> ShownText(prediction) == PassText
    ensures prediction != 0 && prediction != 1 ==> ParseDecimal(ShownText(prediction)) == Some(prediction)
    ensures prediction != 0 && prediction != 1 ==> CanonicalDecimal(ShownText(prediction))
  {
    DecimalRoundTrip(prediction);
  }

  /** Neither outcome text reads as a number, so it cannot be mistaken for an unmapped label. */
  lemma OutcomeTextsAreNotNumbers()
    ensures ParseDecimal(FailText) == None
    ensures ParseDecimal(PassText) == None
  {
    assert FailText[|FailText| - 1] == 'l';
    assert PassText[|PassText| - 1] == 's';
  }

  /** Different labels are never shown as the same text. */
  lemma ShownTextInjective(a: int, b: int)
    requires ShownText(a) == ShownText(b)
    ensures a == b
  {
    ShownTextCases(a);
    ShownTextCases(b);
    OutcomeTextsAreNotNumbers();
    assert FailText != PassText by {
      assert FailText[0] != PassText[0];
    }
  }
}
