/**
  Text helpers the ledger and the views rely on: Python's str() and zero-padded
  format of a non-negative integer, int() of a string (with the whitespace it
  skips at both ends), str.split('-')[-1] and str.lower() (ASCII letters only).
 */
module Text {
  import opened Wrappers

  predicate IsDigit(c: char) { '0' <= c <= '9' }

  predicate AllDigits(s: string) { forall i :: 0 <= i < |s| ==> IsDigit(s[i]) }

  function DigitChar(d: nat): (c: char)
    requires d < 10
    ensures IsDigit(c)
  {
    ('0' as int + d) as char
  }

  /** Value of a string of decimal digits; leading zeros are allowed, as int() allows them. */
  function DigitsValue(s: string): nat
    requires AllDigits(s)
  {
    if s == [] then 0 else DigitsValue(s[..|s| - 1]) * 10 + (s[|s| - 1] as int - '0' as int)
  }

  /** str(n) for n >= 0: decimal digits without leading zeros ("0" for zero). */
  function NatToString(n: nat): (s: string)
    ensures |s| > 0 && AllDigits(s)
    ensures |s| > 1 ==> s[0] != '0'
  {
    if n < 10 then [DigitChar(n)] else NatToString(n / 10) + [DigitChar(n % 10)]
  }

  lemma {:induction false} NatToStringValue(n: nat)
    ensures DigitsValue(NatToString(n)) == n
  {
    if n >= 10 {
      var s := NatToString(n);
      assert s[..|s| - 1] == NatToString(n / 10);
      NatToStringValue(n / 10);
    }
  }

  /** Two naturals with the same decimal text are equal. */
  lemma NatToStringInjective(m: nat, n: nat)
    requires NatToString(m) == NatToString(n)
    ensures m == n
  {
    NatToStringValue(m);
    NatToStringValue(n);
  }

  /** The number of decimal digits of n: the length of str(n). */
  function DigitCount(n: nat): (k: nat)
    ensures k >= 1
  {
    if n < 10 then 1 else DigitCount(n / 10) + 1
  }

  lemma {:induction false} DigitCountIsLength(n: nat)
    ensures |NatToString(n)| == DigitCount(n)
  {
    if n >= 10 {
      DigitCountIsLength(n / 10);
    }
  }

  /** A larger number never has fewer digits. */
  lemma {:induction false} DigitCountMonotonic(m: nat, n: nat)
    requires m <= n
    ensures DigitCount(m) <= DigitCount(n)
  {
    if m >= 10 {
      DigitCountMonotonic(m / 10, n / 10);
    }
  }

  function Zeros(k: nat): (r: string)
    ensures |r| == k && AllDigits(r)
    ensures forall i :: 0 <= i < k ==> r[i] == '0'
  {
    if k == 0 then [] else Zeros(k - 1) + ['0']
  }

  lemma {:induction false} LeadingZerosValue(k: nat, s: string)
    requires AllDigits(s)
    ensures DigitsValue(Zeros(k) + s) == DigitsValue(s)
    decreases |s|, k
  {
    if s == [] {
      assert Zeros(k) + s == Zeros(k);
      if k > 0 {
        assert Zeros(k)[..k - 1] == Zeros(k - 1) + [];
        LeadingZerosValue(k - 1, []);
        assert DigitsValue(Zeros(k)) == DigitsValue(Zeros(k - 1)) * 10;
      }
    } else {
      var t := Zeros(k) + s;
      assert t[..|t| - 1] == Zeros(k) + s[..|s| - 1];
      LeadingZerosValue(k, s[..|s| - 1]);
      assert t[|t| - 1] == s[|s| - 1];
      assert DigitsValue(t) == DigitsValue(Zeros(k) + s[..|s| - 1]) * 10 + (s[|s| - 1] as int - '0' as int);
    }
  }

  /** format(n, '0<width>d') for n >= 0: padded with zeros to at least width digits, never cut. */
  function ZeroPad(n: nat, width: nat): (s: string)
    ensures AllDigits(s)
    ensures |s| == if |NatToString(n)| >= width then |NatToString(n)| else width
  {
    var digits := NatToString(n);
    if |digits| >= width then digits else Zeros(width - |digits|) + digits
  }

  lemma ZeroPadValue(n: nat, width: nat)
    ensures DigitsValue(ZeroPad(n, width)) == n
  {
    NatToStringValue(n);
    var digits := NatToString(n);
    if |digits| < width {
      LeadingZerosValue(width - |digits|, digits);
    }
  }

  /**
    The whitespace int() skips at both ends of a string: the ASCII space, tab,
    line feed, vertical tab, form feed and carriage return, and the non-ASCII
    characters str.isspace() accepts (int() turns those into spaces first).
    The ASCII separators U+001C to U+001F, which str.isspace() also accepts,
    are not skipped: int() rejects them.
   */
  predicate IsSpace(c: char)
  {
    c == ' ' || ('\t' <= c <= '\r') || c == '\U{85}' || c == '\U{A0}'
    || c == '\U{1680}' || ('\U{2000}' <= c <= '\U{200A}') || c == '\U{2028}' || c == '\U{2029}'
    || c == '\U{202F}' || c == '\U{205F}' || c == '\U{3000}'
  }

  /** What is left once the leading whitespace is dropped. */
  function StripStart(s: string): (r: string)
    ensures |r| <= |s| && r == s[|s| - |r|..]
  {
    if |s| > 0 && IsSpace(s[0]) then StripStart(s[1..]) else s
  }

  /** What is left once the trailing whitespace is dropped. */
  function StripEnd(s: string): (r: string)
    ensures |r| <= |s| && r == s[..|r|]
  {
    if |s| > 0 && IsSpace(s[|s| - 1]) then StripEnd(s[..|s| - 1]) else s
  }

  /** The text between the leading and the trailing whitespace, as int() reads it. */
  function Strip(s: string): (r: string)
    ensures |r| <= |s|
  {
    StripEnd(StripStart(s))
  }

  /** StripStart drops exactly the leading whitespace: all it drops is space, and what it keeps starts with none. */
  lemma {:induction false} StripStartSpec(s: string)
    ensures var r := StripStart(s);
      && (r == [] || !IsSpace(r[0]))
      && forall i :: 0 <= i < |s| - |r| ==> IsSpace(s[i])
  {
    if |s| > 0 && IsSpace(s[0]) {
      StripStartSpec(s[1..]);
      var r := StripStart(s);
      forall i | 1 <= i < |s| - |r| ensures IsSpace(s[i]) {
        assert s[i] == s[1..][i - 1];
      }
    }
  }

  /** StripEnd drops exactly the trailing whitespace: all it drops is space, and what it keeps ends with none. */
  lemma {:induction false} StripEndSpec(s: string)
    ensures var r := StripEnd(s);
      && (r == [] || !IsSpace(r[|r| - 1]))
      && forall i :: |r| <= i < |s| ==> IsSpace(s[i])
  {
    if |s| > 0 && IsSpace(s[|s| - 1]) {
      StripEndSpec(s[..|s| - 1]);
      var r := StripEnd(s);
      forall i | |r| <= i < |s| - 1 ensures IsSpace(s[i]) {
        assert s[i] == s[..|s| - 1][i];
      }
    }
  }

  /** Stripping only removes characters. */
  lemma StripKeeps(s: string, c: char)
    requires c !in s
    ensures c !in Strip(s)
  {
    var t := StripStart(s);
    forall i | 0 <= i < |t| ensures t[i] != c {
      assert t[i] == s[|s| - |t| + i];
    }
    var r := StripEnd(t);
    forall i | 0 <= i < |r| ensures r[i] != c {
      assert r[i] == t[i];
    }
  }

  /** A digit string in the form int() accepts: digits with single underscores between them. */
  predicate IsDigitGroups(t: string)
  {
    |t| > 0 && IsDigit(t[0]) && IsDigit(t[|t| - 1])
    && (forall i :: 0 <= i < |t| ==> IsDigit(t[i]) || t[i] == '_')
    && NoDoubleUnderscore(t)
  }

  /** No two underscores next to each other. */
  predicate NoDoubleUnderscore(t: string)
  {
    |t| < 2 || (!(t[0] == '_' && t[1] == '_') && NoDoubleUnderscore(t[1..]))
  }

  lemma {:induction false} DigitsNoDoubleUnderscore(s: string)
    requires AllDigits(s)
    ensures NoDoubleUnderscore(s)
  {
    if |s| >= 2 {
      DigitsNoDoubleUnderscore(s[1..]);
    }
  }

  function DropUnderscores(t: string): (r: string)
    requires forall i :: 0 <= i < |t| ==> IsDigit(t[i]) || t[i] == '_'
    ensures AllDigits(r)
    ensures AllDigits(t) ==> r == t
  {
    if t == [] then []
    else if t[|t| - 1] == '_' then DropUnderscores(t[..|t| - 1])
    else DropUnderscores(t[..|t| - 1]) + [t[|t| - 1]]
  }

  function GroupsValue(t: string): nat
    requires IsDigitGroups(t)
  {
    DigitsValue(DropUnderscores(t))
  }

  /**
    The most digits Python converts between int and decimal text
    (sys.get_int_max_str_digits() at its default). Leading zeros count;
    underscores and the sign do not.
   */
  const MaxStrDigits: nat := 4300

  /** Digit groups int() accepts: well formed, and no more digits than the limit. */
  predicate Readable(t: string)
  {
    IsDigitGroups(t) && |DropUnderscores(t)| <= MaxStrDigits
  }

  /** int(s) on a str: None where Python raises ValueError. */
  function ParseInt(s: string): (r: Option<int>)
  {
    ParseStripped(Strip(s))
  }

  /** int() on text with no surrounding whitespace: an optional sign, then digit groups within the limit. */
  function ParseStripped(t: string): (r: Option<int>)
  {
    if |t| > 0 && (t[0] == '+' || t[0] == '-') then
      if Readable(t[1..]) then
        Some(if t[0] == '-' then 0 - GroupsValue(t[1..]) else GroupsValue(t[1..]))
      else None
    else if Readable(t) then Some(GroupsValue(t))
    else None
  }

  /** int() never yields a negative number from text without a minus sign. */
  lemma ParseIntNoMinus(s: string)
    requires '-' !in s
    ensures ParseInt(s).Some? ==> ParseInt(s).value >= 0
  {
    StripKeeps(s, '-');
  }

  /** A digit string has no whitespace to strip. */
  lemma DigitsUnstripped(s: string)
    requires |s| > 0 && AllDigits(s)
    ensures Strip(s) == s
  {
    assert !IsSpace(s[0]);
    assert StripStart(s) == s;
    assert !IsSpace(s[|s| - 1]);
    assert StripEnd(s) == s;
  }

  /** int() reads back a digit string, leading zeros and all, unless it has more digits than the limit. */
  lemma ParseIntDigits(s: string)
    requires |s| > 0 && AllDigits(s)
    ensures ParseInt(s) == if |s| <= MaxStrDigits then Some(DigitsValue(s)) else None
  {
    DigitsUnstripped(s);
    ParseIntOfStripped(s);
    ParseStrippedDigits(s);
  }

  lemma ParseStrippedDigits(s: string)
    requires |s| > 0 && AllDigits(s)
    ensures ParseStripped(s) == if |s| <= MaxStrDigits then Some(DigitsValue(s)) else None
  {
    DigitsAreGroups(s);
    assert DropUnderscores(s) == s;
    ParseStrippedGroups(s);
  }

  lemma DigitsAreGroups(s: string)
    requires |s| > 0 && AllDigits(s)
    ensures IsDigitGroups(s) && GroupsValue(s) == DigitsValue(s)
  {
    DigitsNoDoubleUnderscore(s);
  }

  /** int() reads digit groups with no sign as their value, when they are within the limit. */
  lemma ParseStrippedGroups(t: string)
    requires IsDigitGroups(t)
    ensures ParseStripped(t) == if |DropUnderscores(t)| <= MaxStrDigits then Some(GroupsValue(t)) else None
  {
    assert t[0] != '+' && t[0] != '-';
  }

  /** Text with no surrounding whitespace is parsed as it stands. */
  lemma ParseIntOfStripped(t: string)
    requires Strip(t) == t
    ensures ParseInt(t) == ParseStripped(t)
  {
  }

  /** int() fails on text that starts with one of the ASCII separators U+001C to U+001F. */
  lemma ParseIntRejectsSeparator(t: string)
    requires |t| > 0 && '\U{1C}' <= t[0] <= '\U{1F}'
    ensures ParseInt(t) == None
  {
    assert StripStart(t) == t;
    var r := StripEnd(t);
    assert r == [] || r[0] == t[0];
    ParseStrippedRejects(r);
  }

  /** Text that starts with neither a sign nor a digit is not a number. */
  lemma ParseStrippedRejects(t: string)
    requires t == [] || (!IsDigit(t[0]) && t[0] != '+' && t[0] != '-')
    ensures ParseStripped(t) == None
  {
  }

  /** int() skips whitespace before the text, a no-break space or a line feed alike. */
  lemma ParseIntSkipsSpace(c: char, s: string)
    requires IsSpace(c)
    ensures ParseInt([c] + s) == ParseInt(s)
  {
    assert ([c] + s)[1..] == s;
    assert StripStart([c] + s) == StripStart(s);
  }

  /** Round trip: int(format(n, '0<width>d')) == n, for text within the digit limit. */
  lemma ParseZeroPad(n: nat, width: nat)
    ensures ParseInt(ZeroPad(n, width)) == if |ZeroPad(n, width)| <= MaxStrDigits then Some(n) else None
  {
    ParseIntDigits(ZeroPad(n, width));
    ZeroPadValue(n, width);
  }

  /** s.split('-')[-1]: the text after the last '-', or all of s when it has none. */
  function AfterLastDash(s: string): (r: string)
    ensures '-' !in r
    ensures |r| <= |s| && r == s[|s| - |r|..]
    ensures |r| < |s| ==> s[|s| - |r| - 1] == '-'
  {
    if s == [] then []
    else if s[|s| - 1] == '-' then []
    else AfterLastDash(s[..|s| - 1]) + [s[|s| - 1]]
  }

  lemma {:induction false} AfterLastDashOfSuffix(p: string, d: string)
    requires '-' !in d
    ensures AfterLastDash(p + "-" + d) == d
  {
    if d != [] {
      var s := p + "-" + d;
      assert s[..|s| - 1] == p + "-" + d[..|d| - 1];
      AfterLastDashOfSuffix(p, d[..|d| - 1]);
    } else {
      assert p + "-" + d == p + "-";
    }
  }

  function LowerChar(c: char): char
  {
    if 'A' <= c <= 'Z' then (c as int + 32) as char else c
  }

  /** str.lower() on ASCII letters; every other character is kept. */
  function Lower(s: string): (r: string)
    ensures |r| == |s|
    ensures forall i :: 0 <= i < |s| ==> r[i] == LowerChar(s[i])
  {
    if s == [] then [] else [LowerChar(s[0])] + Lower(s[1..])
  }

  lemma LowerIdempotent(s: string)
    ensures Lower(Lower(s)) == Lower(s)
  {
  }
}
