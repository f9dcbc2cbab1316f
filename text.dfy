/** The Python string operations the dataset helpers use on file names:
    `str` of an integer, `int` of a string, `str.startswith` and POSIX
    `os.path.join` of two parts. */
module Text {
  import opened Numeric

  const SEP: char := '/'

  predicate IsDigit(c: char)
  {
    '0' <= c <= '9'
  }

  function DigitChar(d: int): (c: char)
    requires 0 <= d < 10
    ensures IsDigit(c)
  {
    (('0' as int) + d) as char
  }

  function DigitValue(c: char): (d: int)
    requires IsDigit(c)
    ensures 0 <= d < 10
  {
    (c as int) - ('0' as int)
  }

  lemma DigitRoundTrip(d: int)
    requires 0 <= d < 10
    ensures DigitValue(DigitChar(d)) == d
  {
  }

  /** The decimal digits of a natural number, most significant first. */
  function NatToString(n: nat): (s: string)
    ensures |s| >= 1 && forall i :: 0 <= i < |s| ==> IsDigit(s[i])
    decreases n
  {
    if n < 10 then [DigitChar(n)] else NatToString(n / 10) + [DigitChar(n % 10)]
  }

  /** `str(k)`. */
  function IntToString(k: int): (s: string)
    ensures |s| >= 1 && s[0] != SEP
  {
    if k < 0 then "-" + NatToString(-k) else NatToString(k)
  }

  /** `str(k)` ends in a digit. */
  lemma IntToStringEndsInDigit(k: int)
    ensures IsDigit(IntToString(k)[|IntToString(k)| - 1])
  {
    var n := NatToString(if k < 0 then -k else k);
    assert IsDigit(n[|n| - 1]);
  }

  /** A name that does not start with the separator is relative. */
  lemma Relative(s: string)
    requires |s| >= 1 && s[0] != SEP
    ensures !StartsWith(s, [SEP])
  {
    assert s[..1] != [SEP] by {
      assert s[..1][0] == s[0];
    }
  }

  /** The value of a string of decimal digits. */
  function DigitsValue(s: string): (v: nat)
    requires forall i :: 0 <= i < |s| ==> IsDigit(s[i])
  {
    if |s| == 0 then 0 else DigitsValue(s[..|s| - 1]) * 10 + DigitValue(s[|s| - 1])
  }

  predicate AllDigits(s: string)
  {
    |s| >= 1 && forall i :: 0 <= i < |s| ==> IsDigit(s[i])
  }

  /** `int(s)` on an optional sign followed by decimal digits; None where
      Python raises `ValueError`. */
  function ParseInt(s: string): Option<int>
  {
    if AllDigits(s) then Some(DigitsValue(s))
    else if |s| >= 1 && s[0] == '-' && AllDigits(s[1..]) then Some(-(DigitsValue(s[1..]) as int))
    else if |s| >= 1 && s[0] == '+' && AllDigits(s[1..]) then Some(DigitsValue(s[1..]))
    else None
  }

  /** `int` accepts exactly an optional sign followed by at least one
      digit. */
  lemma ParseIntAccepts(s: string)
    ensures ParseInt(s).Some? <==> AllDigits(s) || (|s| >= 1 && (s[0] == '-' || s[0] == '+') && AllDigits(s[1..]))
  {
  }

  lemma {:induction false} NatToStringValue(n: nat)
    ensures DigitsValue(NatToString(n)) == n
    decreases n
  {
    if n < 10 {
      DigitRoundTrip(n);
    } else {
      var s := NatToString(n);
      NatToStringValue(n / 10);
      assert s[..|s| - 1] == NatToString(n / 10);
      DigitRoundTrip(n % 10);
    }
  }

  /** `int(str(k)) == k`. */
  lemma ParseIntToString(k: int)
    ensures ParseInt(IntToString(k)) == Some(k)
  {
    var s := IntToString(k);
    if k < 0 {
      var n := NatToString(-k);
      assert s[1..] == n;
      assert !IsDigit(s[0]);
      NatToStringValue(-k);
      ParseNegative(s);
    } else {
      NatToStringValue(k);
      ParseDigits(s);
    }
  }

  /** Digits alone parse to their value. */
  lemma ParseDigits(s: string)
    requires AllDigits(s)
    ensures ParseInt(s) == Some(DigitsValue(s) as int)
  {
  }

  /** A minus sign followed by digits parses to the negated value. */
  lemma ParseNegative(s: string)
    requires |s| >= 1 && s[0] == '-' && AllDigits(s[1..])
    ensures ParseInt(s) == Some(-(DigitsValue(s[1..]) as int))
  {
    assert !IsDigit(s[0]);
  }

  /** Different integers print differently. */
  lemma IntToStringInjective(j: int, k: int)
    requires IntToString(j) == IntToString(k)
    ensures j == k
  {
    ParseIntToString(j);
    ParseIntToString(k);
  }

  predicate StartsWith(s: string, prefix: string)
  {
    |prefix| <= |s| && s[..|prefix|] == prefix
  }

  /** `os.path.join(a, b)` on POSIX: an absolute `b` replaces `a`, and a
      separator is inserted unless `a` is empty or already ends with one. */
  function Join(a: string, b: string): (r: string)
    ensures StartsWith(b, [SEP]) ==> r == b
    ensures !StartsWith(b, [SEP]) ==> StartsWith(r, a) && (r == a + b || r == a + [SEP] + b)
  {
    if StartsWith(b, [SEP]) then b
    else if |a| == 0 || a[|a| - 1] == SEP then a + b
    else a + [SEP] + b
  }

  /** Joining onto one directory keeps relative names apart. */
  lemma JoinInjective(a: string, b: string, c: string)
    requires !StartsWith(b, [SEP]) && !StartsWith(c, [SEP])
    requires Join(a, b) == Join(a, c)
    ensures b == c
  {
    var r := Join(a, b);
    if |a| == 0 || a[|a| - 1] == SEP {
      assert b == r[|a|..] == c;
    } else {
      assert b == r[|a| + 1..] == c;
    }
  }

  /** A name between a fixed prefix and suffix determines its middle. */
  lemma AffixInjective(prefix: string, s: string, t: string, suffix: string)
    requires prefix + s + suffix == prefix + t + suffix
    ensures s == t
  {
    var u, w := prefix + s + suffix, prefix + t + suffix;
    assert |s| == |t|;
    assert s == u[|prefix|..|prefix| + |s|];
    assert t == w[|prefix|..|prefix| + |t|];
  }
}
