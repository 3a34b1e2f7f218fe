/**
 * Validity of a `width` or `height` attribute value, as decided by
 * `odid_is_valid_dimension`: a string whose trimmed form matches the
 * PCRE pattern `/^\d+%?$/`.
 */
module Dimension {
  import opened Markup

  /** The characters PHP's `trim()` strips by default. */
  const Whitespace: set<char> := {' ', '\t', '\n', '\r', '\0', '\U{000B}'}

  predicate IsDigit(c: char) { '0' <= c <= '9' }

  predicate AllDigits(s: string) { forall i :: 0 <= i < |s| ==> IsDigit(s[i]) }

  predicate AllWhitespace(s: string) { forall i :: 0 <= i < |s| ==> s[i] in Whitespace }

  /** PHP `ltrim()`: the input with its leading whitespace removed. */
  function TrimStart(s: string): string
  {
    if |s| > 0 && s[0] in Whitespace then TrimStart(s[1..]) else s
  }

  /** PHP `rtrim()`: the input with its trailing whitespace removed. */
  function TrimEnd(s: string): string
  {
    if |s| > 0 && s[|s| - 1] in Whitespace then TrimEnd(s[..|s| - 1]) else s
  }

  /** PHP `trim()`. */
  function Trim(s: string): string
  {
    TrimEnd(TrimStart(s))
  }

  /** `ltrim()` drops a whitespace prefix and stops at the first other character. */
  lemma {:induction false} TrimStartShape(s: string) returns (k: nat)
    ensures k <= |s| && TrimStart(s) == s[k..]
    ensures AllWhitespace(s[..k])
    ensures k < |s| ==> s[k] !in Whitespace
  {
    if |s| > 0 && s[0] in Whitespace {
      var j := TrimStartShape(s[1..]);
      k := j + 1;
      assert s[1..][j..] == s[k..];
      assert s[..k] == [s[0]] + s[1..][..j];
    } else {
      k := 0;
    }
  }

  /** `rtrim()` drops a whitespace suffix and stops at the last other character. */
  lemma {:induction false} TrimEndShape(s: string) returns (k: nat)
    ensures k <= |s| && TrimEnd(s) == s[..k]
    ensures AllWhitespace(s[k..])
    ensures k > 0 ==> s[k - 1] !in Whitespace
  {
    if |s| > 0 && s[|s| - 1] in Whitespace {
      k := TrimEndShape(s[..|s| - 1]);
      assert s[..|s| - 1][..k] == s[..k];
      assert s[k..] == s[..|s| - 1][k..] + [s[|s| - 1]];
    } else {
      k := |s|;
    }
  }

  /** `\d+%?` matched against the whole of `t`. */
  predicate DigitsWithOptionalPercent(t: string)
  {
    if |t| > 0 && t[|t| - 1] == '%' then
      |t| > 1 && AllDigits(t[..|t| - 1])
    else
      |t| > 0 && AllDigits(t)
  }

  /**
   * `preg_match('/^\d+%?$/', t) === 1`. Without the `D` modifier PCRE's `$`
   * also matches just before a final newline, hence the second alternative.
   */
  predicate MatchesDimensionPattern(t: string)
  {
    || DigitsWithOptionalPercent(t)
    || (|t| > 0 && t[|t| - 1] == '\n' && DigitsWithOptionalPercent(t[..|t| - 1]))
  }

  /** `odid_is_valid_dimension`: `null` and boolean `true` are never valid. */
  predicate IsValidDimension(value: AttrValue)
  {
    value.StrValue? && MatchesDimensionPattern(Trim(value.s))
  }

  lemma {:induction false} TrimStartOfPadded(lead: string, rest: string)
    requires AllWhitespace(lead)
    requires |rest| > 0 && rest[0] !in Whitespace
    ensures TrimStart(lead + rest) == rest
  {
    if |lead| > 0 {
      assert (lead + rest)[1..] == lead[1..] + rest;
      TrimStartOfPadded(lead[1..], rest);
    } else {
      assert lead + rest == rest;
    }
  }

  lemma {:induction false} TrimEndOfPadded(rest: string, trail: string)
    requires AllWhitespace(trail)
    requires |rest| > 0 && rest[|rest| - 1] !in Whitespace
    ensures TrimEnd(rest + trail) == rest
  {
    if |trail| > 0 {
      assert (rest + trail)[..|rest + trail| - 1] == rest + trail[..|trail| - 1];
      TrimEndOfPadded(rest, trail[..|trail| - 1]);
    } else {
      assert rest + trail == rest;
    }
  }

  /** `trim()` removes only whitespace, and only from the two ends. */
  lemma TrimParts(s: string) returns (lead: string, trail: string)
    ensures s == lead + Trim(s) + trail
    ensures AllWhitespace(lead) && AllWhitespace(trail)
    ensures |Trim(s)| > 0 ==> Trim(s)[|Trim(s)| - 1] !in Whitespace
  {
    var i := TrimStartShape(s);
    var start := s[i..];
    var j := TrimEndShape(start);
    lead, trail := s[..i], start[j..];
    assert s == s[..i] + start;
    assert start == start[..j] + start[j..];
    assert s == lead + (start[..j] + trail);
  }

  /**
   * A string that matches the pattern and does not end in whitespace is
   * digits followed by at most one `%`: the pattern's `$` matched at the
   * very end, not before a final newline.
   */
  lemma PatternParts(t: string) returns (digits: string, percent: string)
    requires MatchesDimensionPattern(t)
    requires |t| > 0 ==> t[|t| - 1] !in Whitespace
    ensures t == digits + percent
    ensures |digits| > 0 && AllDigits(digits)
    ensures percent == "" || percent == "%"
  {
    assert '\n' in Whitespace;
    assert DigitsWithOptionalPercent(t);
    if t[|t| - 1] == '%' {
      digits, percent := t[..|t| - 1], "%";
    } else {
      digits, percent := t, "";
    }
  }

  /**
   * Every valid dimension is surrounding whitespace around one or more
   * ASCII digits optionally followed by a single `%`.
   */
  lemma ValidDimensionParts(s: string) returns (lead: string, digits: string, percent: string, trail: string)
    requires IsValidDimension(StrValue(s))
    ensures s == lead + digits + percent + trail
    ensures AllWhitespace(lead) && AllWhitespace(trail)
    ensures |digits| > 0 && AllDigits(digits)
    ensures percent == "" || percent == "%"
  {
    var t := Trim(s);
    lead, trail := TrimParts(s);
    digits, percent := PatternParts(t);
    assert s == lead + (digits + percent) + trail;
  }

  /** `null` and boolean `true` are never valid dimensions. */
  lemma OnlyStringsAreValid(value: AttrValue)
    requires value.NullValue? || value.TrueValue?
    ensures !IsValidDimension(value)
  {
  }

  /** Conversely, every such string is a valid dimension. */
  lemma ValidDimensionFromParts(lead: string, digits: string, percent: string, trail: string)
    requires AllWhitespace(lead) && AllWhitespace(trail)
    requires |digits| > 0 && AllDigits(digits)
    requires percent == "" || percent == "%"
    ensures IsValidDimension(StrValue(lead + digits + percent + trail))
  {
    var core := digits + percent;
    assert core[0] == digits[0];
    assert lead + digits + percent + trail == lead + (core + trail);
    assert (core + trail)[0] == core[0];
    TrimStartOfPadded(lead, core + trail);
    TrimEndOfPadded(core, trail);
    if percent == "%" {
      assert core[..|core| - 1] == digits;
    }
    assert DigitsWithOptionalPercent(core);
  }
}
