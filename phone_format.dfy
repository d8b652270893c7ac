/** The international phone-number patterns the application tests numbers against. */
module PhoneFormat {
  import opened Text

  /** `^\+[1-9]\d{minRest,maxRest}$`: a plus sign, a non-zero digit, then between `minRest` and
      `maxRest` further decimal digits and nothing else. */
  predicate MatchesInternational(s: string, minRest: nat, maxRest: nat) {
    && |s| >= 2
    && s[0] == '+'
    && '1' <= s[1] <= '9'
    && AllDigits(s[2..])
    && minRest <= |s| - 2 <= maxRest
  }

  /** `^\+[1-9]\d{6,14}$`, used by the SMS endpoint's validator and by the notification service:
      a matching number has 8 to 16 characters. */
  predicate IsE164(s: string)
    ensures IsE164(s) ==> 8 <= |s| <= 16 && s[0] == '+' && AllDigits(s[1..])
  {
    assert MatchesInternational(s, 6, 14) ==> s[1..] == [s[1]] + s[2..];
    MatchesInternational(s, 6, 14)
  }

  /** `^\+[1-9]\d{1,14}$`, which enables the subscribe button of the single-file app: a matching
      number has 3 to 16 characters. */
  predicate IsLooseE164(s: string)
    ensures IsLooseE164(s) ==> 3 <= |s| <= 16 && s[0] == '+' && AllDigits(s[1..])
  {
    assert MatchesInternational(s, 1, 14) ==> s[1..] == [s[1]] + s[2..];
    MatchesInternational(s, 1, 14)
  }

  /** Every number from 10^6 up to 10^15 - 1, written after a plus sign, is accepted. */
  lemma E164OfRendered(n: nat)
    requires Pow10(6) <= n < Pow10(15)
    ensures IsE164("+" + NatToString(n))
  {
    var t := NatToString(n);
    var s := "+" + t;
    NatToStringBounds(n);
    if |t| <= 6 {
      Pow10Monotone(|t|, 6);
    }
    if |t| >= 16 {
      Pow10Monotone(15, |t| - 1);
    }
    assert Pow10(1) == 10;
    assert s[1] == t[0] && s[2..] == t[1..];
  }

  /** Conversely, an accepted number is a plus sign followed by the rendering of a number from
      10^6 up to 10^15 - 1: the pattern denotes exactly those strings. */
  lemma E164IsRendered(s: string)
    requires IsE164(s)
    ensures Pow10(6) <= DigitsValue(s[1..]) < Pow10(15)
    ensures s == "+" + NatToString(DigitsValue(s[1..]))
  {
    var d := s[1..];
    NatToStringOfDigitsValue(d);
    var n := DigitsValue(d);
    NatToStringBounds(n);
    Pow10Monotone(6, |d| - 1);
    Pow10Monotone(|d|, 15);
  }

  /** The button pattern accepts every number the validators accept, and more. */
  lemma StrictImpliesLoose(s: string)
    requires IsE164(s)
    ensures IsLooseE164(s)
  {
  }

  lemma PhoneExamples()
    ensures IsE164("+40712345678")
    ensures !IsE164("0712345678") && !IsE164("+0712345678") && !IsE164("+40 712345678")
    ensures !IsE164("+4012") && IsLooseE164("+4012")
    ensures !IsE164("+1234567890123456")
  {
    assert "+40712345678"[2..] == "0712345678";
    assert "+4012"[2..] == "012";
    assert "+40 712345678"[2..][1] == ' ';
  }
}
