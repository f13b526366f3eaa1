/**
 * The few string operations the analyzer relies on: decimal rendering of
 * integers inside f-strings, the `~$<amount>/month` savings text, Python's
 * `str.replace` and the substring test `pat in s`, and reading the amount
 * back with `float(...)`. Money in savings texts is held in whole cents.
 */
module Text {
  import opened Wrappers

  predicate IsDigit(c: char)
  {
    '0' <= c <= '9'
  }

  predicate AllDigits(s: string)
  {
    forall i :: 0 <= i < |s| ==> IsDigit(s[i])
  }

  function DigitChar(d: nat): (c: char)
    requires d < 10
    ensures IsDigit(c)
  {
    (('0' as int) + d) as char
  }

  function DigitValue(c: char): nat
    requires IsDigit(c)
  {
    (c as int) - ('0' as int)
  }

  /** The decimal rendering of `n`, as `str(n)` or `f'{n}'` gives it. */
  function Digits(n: nat): (s: string)
    ensures |s| >= 1 && AllDigits(s)
  {
    if n < 10 then [DigitChar(n)] else Digits(n / 10) + [DigitChar(n % 10)]
  }

  /** The value of a string of decimal digits (the empty string reads as 0). */
  function ParseDigits(s: string): nat
    requires AllDigits(s)
  {
    ParseDigitsUpTo(s, |s|)
  }

  /** The value of the first `n` digits of `s`. */
  function ParseDigitsUpTo(s: string, n: nat): nat
    requires n <= |s| && AllDigits(s)
  {
    if n == 0 then 0 else ParseDigitsUpTo(s, n - 1) * 10 + DigitValue(s[n - 1])
  }

  /** The value of the first `n` digits depends on those digits only. */
  lemma {:induction false} ParseDigitsUpToPrefix(s: string, t: string, n: nat)
    requires n <= |s| && n <= |t| && AllDigits(s) && AllDigits(t) && s[..n] == t[..n]
    ensures ParseDigitsUpTo(s, n) == ParseDigitsUpTo(t, n)
  {
    if n > 0 {
      assert s[n - 1] == s[..n][n - 1] == t[..n][n - 1] == t[n - 1];
      assert s[..n - 1] == s[..n][..n - 1] && t[..n - 1] == t[..n][..n - 1];
      ParseDigitsUpToPrefix(s, t, n - 1);
    }
  }

  /** The last digit is the units digit of the value. */
  lemma ParseDigitsLast(s: string)
    requires s != [] && AllDigits(s)
    ensures ParseDigits(s) == ParseDigits(s[..|s| - 1]) * 10 + DigitValue(s[|s| - 1])
  {
    var init := s[..|s| - 1];
    assert init[..|init|] == s[..|init|];
    ParseDigitsUpToPrefix(init, s, |init|);
  }

  /** Reading back what `Digits` writes gives the number again. */
  lemma {:induction false} ParseDigitsOfDigits(n: nat)
    ensures ParseDigits(Digits(n)) == n
  {
    var s := Digits(n);
    ParseDigitsLast(s);
    if n >= 10 {
      assert s[..|s| - 1] == Digits(n / 10);
      ParseDigitsOfDigits(n / 10);
    } else {
      assert s[..|s| - 1] == [];
    }
  }

  /** An amount of `cents` written with two decimals: 1234 becomes "12.34". */
  function FormatCents(cents: nat): (s: string)
    ensures |s| >= 4 && s[|s| - 3] == '.' && AllDigits(s[..|s| - 3])
  {
    Digits(cents / 100) + "." + [DigitChar(cents % 100 / 10), DigitChar(cents % 10)]
  }

  /**
   * `float(s)` restricted to the two-decimal form that `FormatCents` writes;
   * `None` stands for the ValueError that any other string raises here.
   */
  function ParseCents(s: string): Option<nat>
  {
    if |s| >= 4 && s[|s| - 3] == '.' && AllDigits(s[..|s| - 3])
       && IsDigit(s[|s| - 2]) && IsDigit(s[|s| - 1])
    then Some(ParseDigits(s[..|s| - 3]) * 100 + DigitValue(s[|s| - 2]) * 10 + DigitValue(s[|s| - 1]))
    else None
  }

  lemma ParseCentsOfFormatCents(cents: nat)
    ensures ParseCents(FormatCents(cents)) == Some(cents)
  {
    var s := FormatCents(cents);
    assert s[..|s| - 3] == Digits(cents / 100);
    ParseDigitsOfDigits(cents / 100);
    assert DigitValue(s[|s| - 2]) == cents % 100 / 10;
    assert DigitValue(s[|s| - 1]) == cents % 10;
    assert cents / 100 * 100 + cents % 100 / 10 * 10 + cents % 10 == cents;
  }

  const MonthlyPrefix: string := "~$"
  const MonthlySuffix: string := "/month"

  /** The savings text `f'~${amount}/month'`. */
  function FormatMonthly(cents: nat): string
  {
    MonthlyPrefix + FormatCents(cents) + MonthlySuffix
  }

  /** `s.replace('~$', '').replace('/month', '')`: what the summary reads a savings text back from. */
  function StripMonthly(s: string): string
  {
    Replace(Replace(s, MonthlyPrefix, ""), MonthlySuffix, "")
  }

  /** Python's `s.replace(pat, rep)`: every occurrence, left to right, without overlap. */
  function Replace(s: string, pat: string, rep: string): string
    requires pat != []
  {
    ReplaceLast(s, pat, rep, |s|)
  }

  /** `Replace` scanning the last `k` characters of `s`, from the left. */
  function ReplaceLast(s: string, pat: string, rep: string, k: nat): string
    requires pat != [] && k <= |s|
  {
    var i := |s| - k;
    if k < |pat| then s[i..]
    else if s[i..i + |pat|] == pat then rep + ReplaceLast(s, pat, rep, k - |pat|)
    else [s[i]] + ReplaceLast(s, pat, rep, k - 1)
  }

  /** Two texts that end alike over `k` characters agree on any part of those characters. */
  lemma TailsAgree(s: string, t: string, k: nat, p: nat, q: nat)
    requires k <= |s| && k <= |t| && s[|s| - k..] == t[|t| - k..] && p <= q <= k
    ensures s[|s| - k + p..|s| - k + q] == t[|t| - k + p..|t| - k + q]
  {
    var u := s[|s| - k..];
    var a, b := s[|s| - k + p..|s| - k + q], t[|t| - k + p..|t| - k + q];
    forall n | 0 <= n < q - p
      ensures a[n] == b[n]
    {
      assert a[n] == u[p + n];
      assert b[n] == t[|t| - k..][p + n];
    }
  }

  /** Two texts that end alike over `k > 0` characters agree on the first of those characters. */
  lemma HeadsAgree(s: string, t: string, k: nat)
    requires 0 < k <= |s| && k <= |t| && s[|s| - k..] == t[|t| - k..]
    ensures s[|s| - k] == t[|t| - k]
  {
    assert s[|s| - k] == s[|s| - k..][0];
    assert t[|t| - k] == t[|t| - k..][0];
  }

  /** Fewer than `|pat|` characters left: both scans keep them as they are. */
  lemma ReplaceLastShort(s: string, t: string, pat: string, rep: string, k: nat)
    requires pat != [] && k < |pat| && k <= |s| && k <= |t| && s[|s| - k..] == t[|t| - k..]
    ensures ReplaceLast(s, pat, rep, k) == ReplaceLast(t, pat, rep, k)
  {
  }

  /** A match at the front of the scanned part: both scans replace it, then go on alike. */
  lemma ReplaceLastMatchStep(s: string, t: string, pat: string, rep: string, k: nat)
    requires pat != [] && |pat| <= k <= |s| && k <= |t| && s[|s| - k..] == t[|t| - k..]
    requires s[|s| - k..|s| - k + |pat|] == pat
    requires ReplaceLast(s, pat, rep, k - |pat|) == ReplaceLast(t, pat, rep, k - |pat|)
    ensures ReplaceLast(s, pat, rep, k) == ReplaceLast(t, pat, rep, k)
  {
    TailsAgree(s, t, k, 0, |pat|);
  }

  /** No match at the front of the scanned part: both scans keep the same character, then go on alike. */
  lemma ReplaceLastKeepStep(s: string, t: string, pat: string, rep: string, k: nat)
    requires pat != [] && |pat| <= k <= |s| && k <= |t| && s[|s| - k..] == t[|t| - k..]
    requires s[|s| - k..|s| - k + |pat|] != pat
    requires ReplaceLast(s, pat, rep, k - 1) == ReplaceLast(t, pat, rep, k - 1)
    ensures ReplaceLast(s, pat, rep, k) == ReplaceLast(t, pat, rep, k)
  {
    TailsAgree(s, t, k, 0, |pat|);
    HeadsAgree(s, t, k);
    assert ReplaceLast(s, pat, rep, k) == [s[|s| - k]] + ReplaceLast(s, pat, rep, k - 1);
    assert ReplaceLast(t, pat, rep, k) == [t[|t| - k]] + ReplaceLast(t, pat, rep, k - 1);
  }

  /** The tails that remain after the first `d` scanned characters still agree. */
  lemma TailsAgreeAfter(s: string, t: string, k: nat, d: nat)
    requires k <= |s| && k <= |t| && s[|s| - k..] == t[|t| - k..] && d <= k
    ensures s[|s| - (k - d)..] == t[|t| - (k - d)..]
  {
    TailsAgree(s, t, k, d, k);
    assert s[|s| - (k - d)..] == s[|s| - k + d..|s| - k + k];
    assert t[|t| - (k - d)..] == t[|t| - k + d..|t| - k + k];
  }

  /** The scan of the last `k` characters depends on those characters only. */
  lemma {:induction false} ReplaceLastSuffix(s: string, t: string, pat: string, rep: string, k: nat)
    requires pat != [] && k <= |s| && k <= |t| && s[|s| - k..] == t[|t| - k..]
    ensures ReplaceLast(s, pat, rep, k) == ReplaceLast(t, pat, rep, k)
    decreases k
  {
    if k >= |pat| {
      if s[|s| - k..|s| - k + |pat|] == pat {
        TailsAgreeAfter(s, t, k, |pat|);
        ReplaceLastSuffix(s, t, pat, rep, k - |pat|);
        ReplaceLastMatchStep(s, t, pat, rep, k);
      } else {
        TailsAgreeAfter(s, t, k, 1);
        ReplaceLastSuffix(s, t, pat, rep, k - 1);
        ReplaceLastKeepStep(s, t, pat, rep, k);
      }
    } else {
      ReplaceLastShort(s, t, pat, rep, k);
    }
  }

  /** One step of the scan: a match at the front is replaced, otherwise the first character is kept. */
  lemma ReplaceStep(s: string, pat: string, rep: string)
    requires pat != [] && |s| >= |pat|
    ensures Replace(s, pat, rep) ==
              if s[..|pat|] == pat then rep + Replace(s[|pat|..], pat, rep)
              else [s[0]] + Replace(s[1..], pat, rep)
  {
    var rest, tail := s[|pat|..], s[1..];
    assert s[|s| - |rest|..] == rest[|rest| - |rest|..];
    assert s[|s| - |tail|..] == tail[|tail| - |tail|..];
    ReplaceLastSuffix(s, rest, pat, rep, |rest|);
    ReplaceLastSuffix(s, tail, pat, rep, |tail|);
  }

  /** Python's substring test `pat in s`. */
  predicate Contains(s: string, pat: string)
  {
    exists i :: 0 <= i <= |s| - |pat| && OccursAt(s, pat, i)
  }

  /** `pat` occurs in `s` starting at index `i`. */
  predicate OccursAt(s: string, pat: string, i: int)
  {
    0 <= i <= |s| - |pat| && s[i..i + |pat|] == pat
  }

  /** A text that never shows the first character of `pat` is left as it is. */
  lemma {:induction false} ReplaceWithoutFirstChar(s: string, pat: string, rep: string)
    requires pat != [] && pat[0] !in s
    ensures Replace(s, pat, rep) == s
  {
    if |s| >= |pat| {
      assert s[0] != pat[0];
      assert s[..|pat|] != pat;
      ReplaceStep(s, pat, rep);
      ReplaceWithoutFirstChar(s[1..], pat, rep);
      assert s == [s[0]] + s[1..];
    }
  }

  /** Replacing in `a + b` leaves `a` alone when `a` never shows the first character of `pat`. */
  lemma {:induction false} ReplaceAfterFreePrefix(a: string, b: string, pat: string, rep: string)
    requires pat != [] && pat[0] !in a
    ensures Replace(a + b, pat, rep) == a + Replace(b, pat, rep)
    decreases |a|
  {
    if a != [] {
      var s := a + b;
      if |s| >= |pat| {
        assert s[0] == a[0] && s[0] != pat[0];
        assert s[..|pat|] != pat;
        assert s[1..] == a[1..] + b;
        ReplaceStep(s, pat, rep);
        ReplaceAfterFreePrefix(a[1..], b, pat, rep);
        calc {
          Replace(s, pat, rep);
          [s[0]] + Replace(s[1..], pat, rep);
          [a[0]] + (a[1..] + Replace(b, pat, rep));
          ([a[0]] + a[1..]) + Replace(b, pat, rep);
          { assert [a[0]] + a[1..] == a; }
          a + Replace(b, pat, rep);
        }
      } else {
        assert Replace(b, pat, rep) == b;
      }
    } else {
      assert a + b == b;
    }
  }

  /** `pat` occurs in any text that ends with it. */
  lemma ContainsSuffix(a: string, pat: string)
    ensures Contains(a + pat, pat)
  {
    var s := a + pat;
    assert s[|a|..|a| + |pat|] == pat;
    assert OccursAt(s, pat, |a|);
  }

  /** `pat` cannot occur in a text that never shows its first character. */
  lemma NotContainsWithoutFirstChar(s: string, pat: string)
    requires pat != [] && pat[0] !in s
    ensures !Contains(s, pat)
  {
    forall i | 0 <= i <= |s| - |pat|
      ensures !OccursAt(s, pat, i)
    {
      assert s[i..i + |pat|][0] == s[i];
    }
  }

  /** Removing "~$" from a savings text whose amount shows no '~' leaves the amount and "/month". */
  lemma StripPrefix(f: string)
    requires '~' !in f
    ensures Replace(MonthlyPrefix + f + MonthlySuffix, MonthlyPrefix, "") == f + MonthlySuffix
  {
    var s := MonthlyPrefix + (f + MonthlySuffix);
    assert MonthlyPrefix + f + MonthlySuffix == s;
    assert s[..|MonthlyPrefix|] == MonthlyPrefix;
    assert s[|MonthlyPrefix|..] == f + MonthlySuffix;
    ReplaceStep(s, MonthlyPrefix, "");
    ReplaceWithoutFirstChar(f + MonthlySuffix, MonthlyPrefix, "");
  }

  /** Removing "/month" from an amount that shows no '/' followed by "/month" leaves the amount. */
  lemma StripSuffix(f: string)
    requires '/' !in f
    ensures Replace(f + MonthlySuffix, MonthlySuffix, "") == f
  {
    ReplaceAfterFreePrefix(f, MonthlySuffix, MonthlySuffix, "");
    assert MonthlySuffix[..|MonthlySuffix|] == MonthlySuffix;
    ReplaceStep(MonthlySuffix, MonthlySuffix, "");
    assert Replace(MonthlySuffix, MonthlySuffix, "") == "";
  }

  /**
   * The round trip the monthly summary relies on: the savings text contains
   * "/month", and stripping "~$" and "/month" and reading the number gives the
   * amount back.
   */
  lemma MonthlyRoundTrip(cents: nat)
    ensures Contains(FormatMonthly(cents), MonthlySuffix)
    ensures StripMonthly(FormatMonthly(cents)) == FormatCents(cents)
    ensures ParseCents(StripMonthly(FormatMonthly(cents))) == Some(cents)
  {
    var f := FormatCents(cents);
    ContainsSuffix(MonthlyPrefix + f, MonthlySuffix);
    assert '~' !in f && '/' !in f;
    StripPrefix(f);
    StripSuffix(f);
    ParseCentsOfFormatCents(cents);
  }
}
