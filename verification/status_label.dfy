/**
 * The status-bar text `$(megaphone) <n> line(s) selected`: the count written in
 * decimal between a fixed prefix and suffix, and the reading of a count back out
 * of such a text.
 */
module StatusLabel {
  import opened Wrappers

  const Prefix: string := "$(megaphone) "
  const Suffix: string := " line(s) selected"

  predicate IsDigit(c: char) {
    '0' <= c <= '9'
  }

  predicate AllDigits(s: string) {
    forall i :: 0 <= i < |s| ==> IsDigit(s[i])
  }

  function DigitChar(d: nat): (c: char)
    requires d < 10
    ensures IsDigit(c) && (c == '0' <==> d == 0)
  {
    "0123456789"[d]
  }

  function DigitValue(c: char): (d: nat)
    requires IsDigit(c)
    ensures d < 10 && DigitChar(d) == c
  {
    (c as int - '0' as int) as nat
  }

  /** The decimal form of `n`, as a template literal renders a non-negative integer. */
  function NatToString(n: nat): (s: string)
    ensures |s| >= 1 && AllDigits(s)
    ensures s[0] == '0' ==> n == 0
    decreases n
  {
    if n < 10 then [DigitChar(n)] else NatToString(n / 10) + [DigitChar(n % 10)]
  }

  /** The value of a string of decimal digits, most significant digit first. */
  function ParseDigits(s: string): nat
    requires AllDigits(s)
    decreases |s|
  {
    if s == [] then 0 else 10 * ParseDigits(s[..|s| - 1]) + DigitValue(s[|s| - 1])
  }

  /** Reading the decimal form back gives the number that was written. */
  lemma {:induction false} ParseNatToString(n: nat)
    ensures ParseDigits(NatToString(n)) == n
    decreases n
  {
    var s := NatToString(n);
    if n < 10 {
      assert s[..0] == [];
    } else {
      ParseNatToString(n / 10);
      assert s[..|s| - 1] == NatToString(n / 10);
    }
  }

  /** The label shown for a count of `n` selected lines; it displays exactly `n`. */
  function MegaphoneLabel(n: nat): (r: string)
    ensures LabelCount(r) == Some(n)
  {
    var digits := NatToString(n);
    var text := Prefix + digits + Suffix;
    assert text[..|Prefix|] == Prefix;
    assert text[|text| - |Suffix|..] == Suffix;
    assert text[|Prefix|..|text| - |Suffix|] == digits;
    ParseNatToString(n);
    text
  }

  /** Digits as a template literal writes them: no leading zero unless the number is 0. */
  predicate Canonical(s: string) {
    |s| >= 1 && AllDigits(s) && (s[0] == '0' ==> |s| == 1)
  }

  /** A digit string whose value is 0 starts with '0'. */
  lemma {:induction false} ParseDigitsZero(s: string)
    requires |s| >= 1 && AllDigits(s)
    requires ParseDigits(s) == 0
    ensures s[0] == '0'
    decreases |s|
  {
    if |s| > 1 {
      ParseDigitsZero(s[..|s| - 1]);
    } else {
      assert s[..0] == [];
    }
  }

  /** Writing the value of canonical digits gives those digits back. */
  lemma {:induction false} NatToStringParse(s: string)
    requires Canonical(s)
    ensures NatToString(ParseDigits(s)) == s
    decreases |s|
  {
    var init := s[..|s| - 1];
    if |s| == 1 {
      assert init == [];
    } else {
      assert init[0] == s[0];
      NatToStringParse(init);
      if ParseDigits(init) == 0 {
        ParseDigitsZero(init);
      }
      assert s == init + [s[|s| - 1]];
    }
  }

  /**
   * The count a status text displays: the digits between the prefix and the
   * suffix, or None when the text is not a megaphone label.
   */
  function LabelCount(text: string): (r: Option<nat>)
    ensures r.Some? ==> text == Prefix + NatToString(r.value) + Suffix
  {
    if |text| > |Prefix| + |Suffix|
       && text[..|Prefix|] == Prefix
       && text[|text| - |Suffix|..] == Suffix
       && Canonical(text[|Prefix|..|text| - |Suffix|])
    then
      var digits := text[|Prefix|..|text| - |Suffix|];
      NatToStringParse(digits);
      assert text == Prefix + digits + Suffix;
      Some(ParseDigits(digits))
    else None
  }

  /** The label for `n` displays exactly `n`, and no other text displays `n`. */
  lemma LabelCountMegaphoneLabel(n: nat)
    ensures LabelCount(MegaphoneLabel(n)) == Some(n)
    ensures forall text :: LabelCount(text) == Some(n) ==> text == MegaphoneLabel(n)
  {
  }

  /** Distinct counts are shown as distinct labels. */
  lemma MegaphoneLabelInjective(n: nat, m: nat)
    requires MegaphoneLabel(n) == MegaphoneLabel(m)
    ensures n == m
  {
    LabelCountMegaphoneLabel(n);
    LabelCountMegaphoneLabel(m);
  }
}
