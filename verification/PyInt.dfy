/** Python's conversions between integers and decimal text: `int(s)` as the
    settings form applies it to the submitted age, and `str(n)` / `f"{n}"` as
    used when integers are written into messages and SQL text. */
module PyInt {
  import opened Common

  predicate IsDigit(c: char) {
    '0' <= c <= '9'
  }

  function DigitValue(c: char): nat
    requires IsDigit(c)
  {
    c as int - '0' as int
  }

  function DigitChar(d: nat): (c: char)
    requires d < 10
    ensures IsDigit(c) && DigitValue(c) == d
  {
    ('0' as int + d) as char
  }

  /** `str.lstrip()`: leading whitespace removed. */
  function StripLeft(s: string): (r: string)
    ensures |r| <= |s| && r == s[|s| - |r|..]
    ensures |r| > 0 ==> !IsSpace(r[0])
  {
    if |s| > 0 && IsSpace(s[0]) then StripLeft(s[1..]) else s
  }

  /** `str.rstrip()`: trailing whitespace removed. */
  function StripRight(s: string): (r: string)
    ensures |r| <= |s| && r == s[..|r|]
    ensures |r| > 0 ==> !IsSpace(r[|r| - 1])
  {
    if |s| > 0 && IsSpace(s[|s| - 1]) then StripRight(s[..|s| - 1]) else s
  }

  /** `str.strip()`. */
  function Strip(s: string): string {
    StripRight(StripLeft(s))
  }

  /** Characters `int()` accepts in the digit part, before grouping rules. */
  predicate DigitsOrUnderscores(s: string) {
    forall i :: 0 <= i < |s| ==> IsDigit(s[i]) || s[i] == '_'
  }

  /** The digit part `int()` accepts: digits, where single underscores may
      separate two digits. */
  predicate DigitRun(s: string) {
    && |s| > 0 && IsDigit(s[0]) && IsDigit(s[|s| - 1])
    && DigitsOrUnderscores(s)
    && NoDoubleUnderscore(s)
  }

  /** No two underscores in a row. */
  predicate NoDoubleUnderscore(s: string) {
    |s| < 2 || (!(s[0] == '_' && s[1] == '_') && NoDoubleUnderscore(s[1..]))
  }

  /** The number the digits of `s` spell, underscores skipped. */
  function DigitsValue(s: string): nat
    requires DigitsOrUnderscores(s)
  {
    if |s| == 0 then 0
    else
      var last := s[|s| - 1];
      if last == '_' then DigitsValue(s[..|s| - 1])
      else DigitsValue(s[..|s| - 1]) * 10 + DigitValue(last)
  }

  /** Python's `int(s)` in base 10: surrounding whitespace is ignored, one
      optional sign, then a digit run; anything else raises ValueError,
      modelled as None. */
  function ParseInt(s: string): (r: Option<int>)
    ensures r.Some? ==>
              var t := Strip(s);
              |t| > 0 && (DigitRun(t) || ((t[0] == '+' || t[0] == '-') && DigitRun(t[1..])))
    ensures r.Some? && r.value < 0 ==> Strip(s)[0] == '-'
    ensures r.Some? && Strip(s)[0] == '+' ==> r.value >= 0
    ensures Strip(s) == "" ==> r.None?
  {
    var t := Strip(s);
    if |t| > 0 && (t[0] == '+' || t[0] == '-') then
      var body := t[1..];
      if DigitRun(body) then
        var magnitude: int := DigitsValue(body);
        Some(if t[0] == '-' then -magnitude else magnitude)
      else None
    else if DigitRun(t) then Some(DigitsValue(t))
    else None
  }

  /** The decimal digits of `n`, without leading zeros. */
  function Decimal(n: nat): (s: string)
    ensures |s| > 0
    ensures forall i :: 0 <= i < |s| ==> IsDigit(s[i])
  {
    if n < 10 then [DigitChar(n)] else Decimal(n / 10) + [DigitChar(n % 10)]
  }

  /** Python's `str(n)` for an integer. */
  function Render(n: int): string {
    if n < 0 then "-" + Decimal(-n) else Decimal(n)
  }

  lemma {:induction false} DecimalValue(n: nat)
    ensures DigitsOrUnderscores(Decimal(n))
    ensures DigitsValue(Decimal(n)) == n
  {
    if n >= 10 {
      var s := Decimal(n);
      DecimalValue(n / 10);
      assert s[..|s| - 1] == Decimal(n / 10);
    }
  }

  lemma {:induction false} DigitsHaveNoUnderscore(s: string)
    requires forall i :: 0 <= i < |s| ==> IsDigit(s[i])
    ensures NoDoubleUnderscore(s)
  {
    if |s| >= 2 {
      DigitsHaveNoUnderscore(s[1..]);
    }
  }

  lemma StripUnpadded(s: string)
    requires |s| > 0 && !IsSpace(s[0]) && !IsSpace(s[|s| - 1])
    ensures Strip(s) == s
  {
  }

  lemma NotSpace(c: char)
    requires IsDigit(c) || c == '-' || c == '+'
    ensures !IsSpace(c)
  {
  }

  /** A digit run reads as the number it spells. */
  lemma ParseDigitRun(d: string)
    requires DigitRun(d)
    ensures ParseInt(d) == Some(DigitsValue(d))
  {
    NotSpace(d[0]);
    NotSpace(d[|d| - 1]);
    StripUnpadded(d);
  }

  /** A minus sign before a digit run negates it. */
  lemma ParseNegated(d: string)
    requires DigitRun(d)
    ensures ParseInt("-" + d) == Some(-(DigitsValue(d) as int))
  {
    var t := "-" + d;
    assert t[0] == '-' && t[1..] == d;
    assert t[|t| - 1] == d[|d| - 1];
    NotSpace('-');
    NotSpace(d[|d| - 1]);
    StripUnpadded(t);
    assert Strip(t) == t;
  }

  /** Whitespace before text that starts with a non-space is dropped. */
  lemma {:induction false} StripLeftPad(p: string, t: string)
    requires forall i :: 0 <= i < |p| ==> IsSpace(p[i])
    requires |t| > 0 && !IsSpace(t[0])
    ensures StripLeft(p + t) == t
  {
    if |p| > 0 {
      assert (p + t)[1..] == p[1..] + t;
      StripLeftPad(p[1..], t);
    } else {
      assert p + t == t;
    }
  }

  /** Whitespace after text that ends with a non-space is dropped. */
  lemma {:induction false} StripRightPad(t: string, q: string)
    requires forall i :: 0 <= i < |q| ==> IsSpace(q[i])
    requires |t| > 0 && !IsSpace(t[|t| - 1])
    ensures StripRight(t + q) == t
  {
    if |q| > 0 {
      assert (t + q)[..|t + q| - 1] == t + q[..|q| - 1];
      StripRightPad(t, q[..|q| - 1]);
    } else {
      assert t + q == t;
    }
  }

  /** Surrounding whitespace of text that starts and ends with a non-space
      is exactly what `strip` removes. */
  lemma StripPadded(p: string, t: string, q: string)
    requires forall i :: 0 <= i < |p| ==> IsSpace(p[i])
    requires forall i :: 0 <= i < |q| ==> IsSpace(q[i])
    requires |t| > 0 && !IsSpace(t[0]) && !IsSpace(t[|t| - 1])
    ensures Strip(p + t + q) == t
  {
    assert p + t + q == p + (t + q);
    assert (t + q)[0] == t[0];
    StripLeftPad(p, t + q);
    StripRightPad(t, q);
  }

  /** `int()` looks only at the stripped text. */
  lemma SameStripSameParse(s1: string, s2: string)
    requires Strip(s1) == Strip(s2)
    ensures ParseInt(s1) == ParseInt(s2)
  {
  }

  /** A `+` before a digit run changes nothing. */
  lemma ParsePlus(d: string)
    requires DigitRun(d)
    ensures ParseInt("+" + d) == Some(DigitsValue(d))
  {
    var t := "+" + d;
    assert t[0] == '+' && t[1..] == d;
    assert t[|t| - 1] == d[|d| - 1];
    NotSpace('+');
    NotSpace(d[|d| - 1]);
    StripUnpadded(t);
  }

  /** `int()` on an age as a person may type it: surrounding whitespace, an
      optional `+` or `-`, and digits that single underscores may group. */
  lemma ParsePadded(p: string, sign: string, d: string, q: string)
    requires forall i :: 0 <= i < |p| ==> IsSpace(p[i])
    requires forall i :: 0 <= i < |q| ==> IsSpace(q[i])
    requires sign == "" || sign == "+" || sign == "-"
    requires DigitRun(d)
    ensures ParseInt(p + sign + d + q) == Some(if sign == "-" then -(DigitsValue(d) as int) else DigitsValue(d))
  {
    var t := sign + d;
    assert t[|t| - 1] == d[|d| - 1];
    assert t[0] == (if sign == "" then d[0] else sign[0]);
    NotSpace(t[0]);
    NotSpace(d[|d| - 1]);
    assert p + sign + d + q == p + t + q;
    StripPadded(p, t, q);
    StripUnpadded(t);
    SameStripSameParse(p + t + q, t);
    if sign == "" {
      assert t == d;
      ParseDigitRun(d);
    } else if sign == "+" {
      ParsePlus(d);
    } else {
      ParseNegated(d);
    }
  }

  /** `int(str(n)) == n`: the text Python writes for an integer reads back as
      that integer. */
  lemma ParseRender(n: int)
    ensures ParseInt(Render(n)) == Some(n)
  {
    var m: nat := if n < 0 then -n else n;
    var d := Decimal(m);
    DecimalValue(m);
    DigitsHaveNoUnderscore(d);
    assert DigitRun(d);
    if n < 0 {
      ParseNegated(d);
    } else {
      ParseDigitRun(d);
    }
  }
}
