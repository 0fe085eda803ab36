/** The fact check's explanation text, `Claim check score: <confidence>%`,
    where the confidence is printed as a JavaScript integer is: an optional
    minus sign and decimal digits without leading zeros. A reader of the text
    recovers the confidence exactly (`ExplanationRoundTrip`). */
module ScoreText {
  import opened Wrappers

  const ExplanationPrefix: string := "Claim check score: "

  predicate IsDigits(s: string) {
    forall i :: 0 <= i < |s| ==> '0' <= s[i] <= '9'
  }

  function DigitChar(d: nat): (ch: char)
    requires d < 10
    ensures '0' <= ch <= '9' && ch as int - '0' as int == d
  {
    ('0' as int + d) as char
  }

  /** Decimal digits of `n`, most significant first. */
  function NatText(n: nat): (s: string)
    ensures |s| >= 1 && IsDigits(s)
    ensures n > 0 ==> s[0] != '0'
    ensures n == 0 ==> s == "0"
    decreases n
  {
    if n < 10 then [DigitChar(n)] else NatText(n / 10) + [DigitChar(n % 10)]
  }

  /** The text JavaScript gives an integer-valued number. */
  function IntText(n: int): (s: string)
    ensures |s| >= 1
    ensures s[0] == '-' <==> n < 0
  {
    if n < 0 then "-" + NatText(-n) else NatText(n)
  }

  /** The value of a digit string, read most significant digit first. */
  function DigitsValue(s: string): nat
    requires IsDigits(s)
    decreases |s|
  {
    if s == [] then 0
    else DigitsValue(s[..|s| - 1]) * 10 + (s[|s| - 1] as int - '0' as int)
  }

  /** Reads an integer written as an optional `-` and at least one digit. */
  function ReadInt(s: string): Option<int> {
    if |s| > 1 && s[0] == '-' && IsDigits(s[1..]) then Some(-(DigitsValue(s[1..]) as int))
    else if |s| > 0 && IsDigits(s) then Some(DigitsValue(s))
    else None
  }

  /** The explanation written into the fact check for a confidence. */
  function ExplanationFor(confidence: int): (e: string)
    ensures |e| > |ExplanationPrefix| + 1
    ensures e[..|ExplanationPrefix|] == ExplanationPrefix && e[|e| - 1] == '%'
  {
    ExplanationPrefix + IntText(confidence) + "%"
  }

  /** Recovers the confidence from an explanation text. */
  function ReadExplanation(e: string): Option<int> {
    if |e| > |ExplanationPrefix| && e[..|ExplanationPrefix|] == ExplanationPrefix && e[|e| - 1] == '%'
    then ReadInt(e[|ExplanationPrefix|..|e| - 1])
    else None
  }

  lemma {:induction false} NatTextRoundTrip(n: nat)
    ensures DigitsValue(NatText(n)) == n
    decreases n
  {
    var s := NatText(n);
    if n < 10 {
      assert s[..|s| - 1] == [];
    } else {
      assert s[..|s| - 1] == NatText(n / 10);
      NatTextRoundTrip(n / 10);
    }
  }

  lemma IntTextRoundTrip(n: int)
    ensures ReadInt(IntText(n)) == Some(n)
  {
    var s := IntText(n);
    if n < 0 {
      var digits := NatText(-n);
      assert s == "-" + digits && s[1..] == digits;
      NatTextRoundTrip(-n);
      assert ReadInt(s) == Some(-(DigitsValue(digits) as int));
    } else {
      assert s == NatText(n) && s[0] != '-';
      NatTextRoundTrip(n);
    }
  }

  /** The explanation states the confidence it was written for, and nothing
      else can be read from it. */
  lemma ExplanationRoundTrip(confidence: int)
    ensures ReadExplanation(ExplanationFor(confidence)) == Some(confidence)
  {
    var e := ExplanationFor(confidence);
    assert e[|ExplanationPrefix|..|e| - 1] == IntText(confidence);
    IntTextRoundTrip(confidence);
  }

  /** Different confidences give different explanations. */
  lemma ExplanationInjective(c1: int, c2: int)
    requires ExplanationFor(c1) == ExplanationFor(c2)
    ensures c1 == c2
  {
    ExplanationRoundTrip(c1);
    ExplanationRoundTrip(c2);
  }
}
