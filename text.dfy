/** The string operations the index-file and snapshot names are made of:
    `str(n)` / `%d` and `%0wd` on integers, `str.isdigit`, `int(s)`,
    `str.lower`, `str.rfind` and the slice `s[i:]`. Text is ASCII: Unicode
    digits and case mappings outside ASCII are not modelled. */
module Text {

  predicate IsDigit(ch: char)
  {
    '0' <= ch <= '9'
  }

  predicate AllDigits(s: string)
  {
    forall i :: 0 <= i < |s| ==> IsDigit(s[i])
  }

  /** The character of the decimal digit `d`. */
  function DigitChar(d: int): (ch: char)
    requires 0 <= d < 10
    ensures IsDigit(ch)
  {
    (48 + d) as char
  }

  /** The value of a digit character. */
  function DigitValue(ch: char): (d: int)
    requires IsDigit(ch)
    ensures 0 <= d < 10
  {
    ch as int - 48
  }

  /** `str(n)` (and `"%d" % n`) for a natural number: its decimal digits
      without leading zeros. */
  function Decimal(n: nat): (s: string)
    ensures 1 <= |s| && AllDigits(s)
    decreases n
  {
    if n < 10 then [DigitChar(n)] else Decimal(n / 10) + [DigitChar(n % 10)]
  }

  /** `str.isdigit()` on ASCII text: non-empty and all digits. */
  predicate IsDigitString(s: string)
  {
    |s| > 0 && AllDigits(s)
  }

  /** `int(s)` for a string of digits. */
  function ParseDecimal(s: string): nat
    requires AllDigits(s)
    decreases |s|
  {
    if |s| == 0 then 0 else 10 * ParseDecimal(s[..|s| - 1]) + DigitValue(s[|s| - 1])
  }

  /** `int(str(n)) == n`. */
  lemma {:induction false} ParseDecimalOfDecimal(n: nat)
    ensures ParseDecimal(Decimal(n)) == n
    decreases n
  {
    if n >= 10 {
      ParseDecimalOfDecimal(n / 10);
      var s := Decimal(n);
      assert s[..|s| - 1] == Decimal(n / 10);
    }
  }

  /** `str(a) == str(b)` only for `a == b`. */
  lemma DecimalInjective(a: nat, b: nat)
    requires Decimal(a) == Decimal(b)
    ensures a == b
  {
    ParseDecimalOfDecimal(a);
    ParseDecimalOfDecimal(b);
  }

  /** `s` behind enough `'0'`s to make it `w` characters long. */
  function ZeroPad(s: string, w: int): (r: string)
    ensures |r| == if |s| >= w then |s| else w
    ensures r[|r| - |s|..] == s
    ensures forall i :: 0 <= i < |r| - |s| ==> r[i] == '0'
  {
    if |s| >= w then s else seq(w - |s|, _ => '0') + s
  }

  /** Leading zeros do not change the value of a digit string. */
  lemma {:induction false} ParseZeroPad(s: string, w: int)
    requires AllDigits(s)
    ensures AllDigits(ZeroPad(s, w))
    ensures ParseDecimal(ZeroPad(s, w)) == ParseDecimal(s)
  {
    var r := ZeroPad(s, w);
    assert AllDigits(r) by {
      forall i | 0 <= i < |r|
        ensures IsDigit(r[i])
      {
        if i >= |r| - |s| {
          assert r[i] == r[|r| - |s|..][i - (|r| - |s|)];
        }
      }
    }
    ParseLeadingZeros(r, |r| - |s|);
  }

  /** Dropping `z` leading zeros keeps the value. */
  lemma {:induction false} ParseLeadingZeros(r: string, z: int)
    requires AllDigits(r) && 0 <= z <= |r|
    requires forall i :: 0 <= i < z ==> r[i] == '0'
    ensures ParseDecimal(r) == ParseDecimal(r[z..])
    decreases |r|
  {
    if z == |r| {
      ParseZeros(r);
    } else {
      var init := r[..|r| - 1];
      ParseLeadingZeros(init, z);
      assert init[z..] == r[z..][..|r[z..]| - 1];
    }
  }

  lemma {:induction false} ParseZeros(r: string)
    requires AllDigits(r)
    requires forall i :: 0 <= i < |r| ==> r[i] == '0'
    ensures ParseDecimal(r) == 0
    decreases |r|
  {
    if |r| > 0 {
      ParseZeros(r[..|r| - 1]);
    }
  }

  /** `"%0wd" % n`: a minus sign for a negative number, then the digits,
      zero-padded so that the whole is at least `w` characters; `w == 0` is
      plain `%d`. */
  function FormatInt(n: int, w: nat): (s: string)
    ensures |s| >= w
    ensures n >= 0 ==> AllDigits(s)
  {
    if n < 0 then "-" + ZeroPad(Decimal(-n), w - 1)
    else ParseZeroPad(Decimal(n), w); ZeroPad(Decimal(n), w)
  }

  /** The digits `"%0wd"` prints for a natural number read back as it. */
  lemma ParseFormatInt(n: nat, w: nat)
    ensures ParseDecimal(FormatInt(n, w)) == n
  {
    ParseZeroPad(Decimal(n), w);
    ParseDecimalOfDecimal(n);
  }

  /** Python's `str.lower` on ASCII letters. */
  function LowerChar(ch: char): char
  {
    if 'A' <= ch <= 'Z' then (ch as int + 32) as char else ch
  }

  function ToLower(s: string): (r: string)
    ensures |r| == |s|
    ensures forall i :: 0 <= i < |s| ==> r[i] == LowerChar(s[i])
  {
    seq(|s|, i requires 0 <= i < |s| => LowerChar(s[i]))
  }

  /** Lower-casing twice is lower-casing once, and digits are kept. */
  lemma ToLowerIdempotent(s: string)
    ensures ToLower(ToLower(s)) == ToLower(s)
    ensures AllDigits(s) ==> ToLower(s) == s
  {
  }

  /** `s.rfind(ch)`: the last position of `ch` in `s`, or -1. */
  function RFind(s: string, ch: char): (r: int)
    ensures -1 <= r < |s|
    ensures r >= 0 ==> s[r] == ch
    ensures forall i :: r < i < |s| ==> s[i] != ch
    decreases |s|
  {
    if |s| == 0 then -1
    else if s[|s| - 1] == ch then |s| - 1
    else RFind(s[..|s| - 1], ch)
  }

  /** Python's `s[i:]`: a negative `i` counts from the end, bounds are
      clamped. */
  function PyFrom(s: string, i: int): (r: string)
    ensures 0 <= i <= |s| ==> r == s[i..]
    ensures -|s| <= i < 0 ==> r == s[|s| + i..]
  {
    if i < 0 then (if i + |s| < 0 then s else s[i + |s|..])
    else if i > |s| then []
    else s[i..]
  }

  /** Two strings that agree up to a first non-digit agree on the digit run
      before it. */
  lemma DigitRunsMatch(a: string, b: string, x: string, y: string, sep: char)
    requires AllDigits(a) && AllDigits(b) && !IsDigit(sep)
    requires a + [sep] + x == b + [sep] + y
    ensures a == b && x == y
  {
    var l := a + [sep] + x;
    DigitRunEnds(l, a, x, sep);
    DigitRunEnds(l, b, y, sep);
    assert |a| == |b|;
    assert a == l[..|a|] == b;
    assert x == l[|a| + 1..] == y;
  }

  /** In `a + [sep] + x` the digits of `a` come first and `sep` is the first
      non-digit. */
  lemma DigitRunEnds(l: string, a: string, x: string, sep: char)
    requires AllDigits(a) && !IsDigit(sep) && l == a + [sep] + x
    ensures |a| < |l| && !IsDigit(l[|a|])
    ensures forall i :: 0 <= i < |a| ==> IsDigit(l[i])
  {
    assert l[|a|] == sep;
    forall i | 0 <= i < |a|
      ensures IsDigit(l[i])
    {
      assert l[i] == a[i];
    }
  }

  /** Equal strings with a common prefix agree after it. */
  lemma CancelPrefix(p: string, x: string, y: string)
    requires p + x == p + y
    ensures x == y
  {
    assert x == (p + x)[|p|..];
    assert y == (p + y)[|p|..];
  }

  lemma Assoc(a: string, b: string, c: string)
    ensures a + b + c == a + (b + c)
  {
  }
}
