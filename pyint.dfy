/**
 * Python's `int(s)` on a string, as `get_api_id` uses it, and `str(n)` as its inverse.
 * The text is stripped of surrounding whitespace, may carry one sign, and then needs one
 * or more decimal digits, where a single `_` may separate two digits.
 */
module PyInt {
  import opened Common

  /**
   * The characters `int()` strips from ASCII text: space, tab, line feed, vertical tab, form
   * feed and carriage return. The separators 28 to 31 that `str.isspace` also accepts are not
   * stripped, so `int()` rejects text holding them.
   */
  predicate IsSpace(c: char)
  {
    var n := c as int;
    n == 32 || 9 <= n <= 13
  }

  predicate IsDigit(c: char)
  {
    '0' <= c <= '9'
  }

  function DigitValue(c: char): (d: nat)
    requires IsDigit(c)
    ensures d < 10
  {
    (c as int) - ('0' as int)
  }

  function DigitChar(d: nat): (c: char)
    requires d < 10
    ensures IsDigit(c) && DigitValue(c) == d
  {
    (('0' as int) + d) as char
  }

  /** Drops leading whitespace. */
  function LStrip(s: string): (r: string)
    ensures |r| <= |s| && r == s[|s| - |r|..]
    ensures r != [] ==> !IsSpace(r[0])
    ensures forall i :: 0 <= i < |s| - |r| ==> IsSpace(s[i])
  {
    if s != [] && IsSpace(s[0]) then LStrip(s[1..]) else s
  }

  /** Drops trailing whitespace. */
  function RStrip(s: string): (r: string)
    ensures |r| <= |s| && r == s[..|r|]
    ensures r != [] ==> !IsSpace(r[|r| - 1])
    ensures forall i :: |r| <= i < |s| ==> IsSpace(s[i])
  {
    if s != [] && IsSpace(s[|s| - 1]) then RStrip(s[..|s| - 1]) else s
  }

  function Strip(s: string): string
  {
    RStrip(LStrip(s))
  }

  /** Digits, with single underscores allowed between two digits ("1_000", not "_1", "1_" or "1__0"). */
  predicate IsDigitRun(s: string)
  {
    && |s| > 0
    && IsDigit(s[0])
    && IsDigit(s[|s| - 1])
    && (forall i :: 0 <= i < |s| ==> IsDigit(s[i]) || s[i] == '_')
    && (forall i :: 0 <= i < |s| - 1 ==> s[i] == '_' ==> IsDigit(s[i + 1]))
  }

  /** The decimal value of the digits of `s`, underscores skipped. */
  function RunValue(s: string): nat
  {
    if s == [] then 0
    else if IsDigit(s[|s| - 1]) then RunValue(s[..|s| - 1]) * 10 + DigitValue(s[|s| - 1])
    else RunValue(s[..|s| - 1])
  }

  /**
   * `int(s)`: `None` where Python raises `ValueError` on ASCII text, the interpreter's limit on
   * the number of digits aside (see the README). Accepted text is non-empty once stripped,
   * ends in a digit, and gives a negative number only after a leading `-`.
   */
  function ParseInt(s: string): (r: Option<int>)
    ensures r.Some? ==> Strip(s) != [] && IsDigit(Strip(s)[|Strip(s)| - 1])
    ensures r.Some? && r.value < 0 ==> Strip(s)[0] == '-'
    ensures Strip(s) == [] ==> r.None?
  {
    var t := Strip(s);
    if t != [] && (t[0] == '+' || t[0] == '-') then
      if IsDigitRun(t[1..]) then
        var v: int := RunValue(t[1..]);
        Some(if t[0] == '-' then -v else v)
      else None
    else if IsDigitRun(t) then Some(RunValue(t))
    else None
  }

  /** The decimal digits of a natural number, most significant first, without leading zeros. */
  function NatDigits(n: nat): (s: string)
    ensures |s| > 0 && (forall i :: 0 <= i < |s| ==> IsDigit(s[i]))
    ensures s[0] == '0' ==> n == 0
    decreases n
  {
    if n < 10 then [DigitChar(n)] else NatDigits(n / 10) + [DigitChar(n % 10)]
  }

  /** `str(n)`: a `-` exactly for a negative number, then decimal digits without a leading zero. */
  function Show(n: int): (r: string)
    ensures r != [] && (r[0] == '-' <==> n < 0)
    ensures forall i :: (if n < 0 then 1 else 0) <= i < |r| ==> IsDigit(r[i])
    ensures r == "0" <==> n == 0
    ensures |r| > (if n < 0 then 1 else 0)
    ensures n != 0 ==> r[if n < 0 then 1 else 0] != '0'
  {
    if n < 0 then "-" + NatDigits(-n) else NatDigits(n)
  }

  lemma {:induction false} NatDigitsValue(n: nat)
    ensures RunValue(NatDigits(n)) == n
    decreases n
  {
    if n >= 10 {
      NatDigitsValue(n / 10);
      var s := NatDigits(n);
      assert s[..|s| - 1] == NatDigits(n / 10);
    }
  }

  /** A string with no whitespace at either end is its own strip. */
  lemma StripTrimmed(s: string)
    requires s != [] && !IsSpace(s[0]) && !IsSpace(s[|s| - 1])
    ensures Strip(s) == s
  {
  }

  /** `int(str(n)) == n` for every integer. */
  lemma {:induction false} ParseShow(n: int)
    ensures ParseInt(Show(n)) == Some(n)
  {
    var m: nat := if n < 0 then -n else n;
    NatDigitsValue(m);
    var d := NatDigits(m);
    assert IsDigitRun(d);
    var t := Show(n);
    StripTrimmed(t);
    if n < 0 {
      assert t[1..] == d;
    } else {
      assert t == d;
    }
  }

  /** A character that is neither whitespace, a sign, a digit nor `_` makes `int(s)` raise. */
  lemma NonNumericRejected(s: string, i: nat)
    requires i < |s| && !IsDigit(s[i]) && !IsSpace(s[i]) && s[i] !in "+-_"
    ensures ParseInt(s) == None
  {
    var l := LStrip(s);
    var t := Strip(s);
    var j := i - (|s| - |l|);
    assert 0 <= j < |l| && l[j] == s[i];
    assert j < |t| && t[j] == s[i];
    if t[0] == '+' || t[0] == '-' {
      assert t[1..][j - 1] == s[i];
    }
  }
}
