/** The statistics counter's reading of a stat's text: the number is the
    text with every non-digit removed (`replace(/\D/g, "")`), and the '+'
    and '%' marks are remembered so they can be appended after the count
    animation. Converting the digits with `parseInt` is not modelled. */
module Stats {
  import opened Decimal

  /** What the counter takes from a stat's text. */
  datatype StatReading = StatReading(digits: string, hasPlus: bool, hasPercent: bool)

  /** The digits of `s`, in order; every other character is dropped. */
  function StripNonDigits(s: string): (d: string)
    ensures AllDigits(d)
    ensures |d| <= |s|
    decreases |s|
  {
    if |s| == 0 then ""
    else (if IsDigit(s[0]) then [s[0]] else "") + StripNonDigits(s[1..])
  }

  /** Each digit occurs in the result as often as in the input; no other
      character occurs at all. */
  lemma {:induction false} StripCounts(s: string, c: char)
    ensures multiset(StripNonDigits(s))[c] == if IsDigit(c) then multiset(s)[c] else 0
    decreases |s|
  {
    if |s| > 0 {
      StripCounts(s[1..], c);
      assert s == [s[0]] + s[1..];
    }
  }

  /** Stripping works piecewise, so the digits keep their relative order. */
  lemma {:induction false} StripConcat(a: string, b: string)
    ensures StripNonDigits(a + b) == StripNonDigits(a) + StripNonDigits(b)
    decreases |a|
  {
    if |a| > 0 {
      assert (a + b)[1..] == a[1..] + b;
      StripConcat(a[1..], b);
    } else {
      assert a + b == b;
    }
  }

  /** A string is left unchanged exactly when it consists of digits only. */
  lemma {:induction false} StripFixesExactlyDigitStrings(s: string)
    ensures StripNonDigits(s) == s <==> AllDigits(s)
    decreases |s|
  {
    if |s| > 0 {
      StripFixesExactlyDigitStrings(s[1..]);
      if !IsDigit(s[0]) {
        assert |StripNonDigits(s)| < |s|;
      }
    }
  }

  /** Stripping twice is stripping once. */
  lemma StripIdempotent(s: string)
    ensures StripNonDigits(StripNonDigits(s)) == StripNonDigits(s)
  {
    StripFixesExactlyDigitStrings(StripNonDigits(s));
  }

  /** One pass over the text, as the observer callback reads a stat. */
  method ReadStat(text: string) returns (r: StatReading)
    ensures r.digits == StripNonDigits(text)
    ensures r.hasPlus <==> '+' in text
    ensures r.hasPercent <==> '%' in text
  {
    var digits := "";
    var plus := false;
    var percent := false;
    var i := 0;
    while i < |text|
      invariant 0 <= i <= |text|
      invariant digits == StripNonDigits(text[..i])
      invariant plus <==> '+' in text[..i]
      invariant percent <==> '%' in text[..i]
    {
      var c := text[i];
      StripConcat(text[..i], [c]);
      assert text[..i + 1] == text[..i] + [c];
      if IsDigit(c) {
        digits := digits + [c];
      }
      plus := plus || c == '+';
      percent := percent || c == '%';
      i := i + 1;
    }
    assert text[..i] == text;
    r := StatReading(digits, plus, percent);
  }

  /** A stat such as "10,000+" counts up to 10000. */
  lemma ThousandsSeparatorDropped()
    ensures StripNonDigits("10,000+") == "10000"
  {
  }
}
