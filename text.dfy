/** The string handling the routes rely on: Python's `str.strip()` applied to the
    search query, and Python's `int()` applied to the `genre_id` query argument. */
module Text {
  import opened Basics

  /** Python's `str.isspace()` for one character: the characters that `str.strip()`
      removes. `int()` ignores the same characters around its digits, except the
      information separators (see IsInfoSeparator). */
  predicate IsSpace(c: char) {
    var n := c as int;
    || n == 0x20 || (0x09 <= n <= 0x0D) || (0x1C <= n <= 0x1F) || n == 0x85 || n == 0xA0
    || n == 0x1680 || (0x2000 <= n <= 0x200A) || n == 0x2028 || n == 0x2029
    || n == 0x202F || n == 0x205F || n == 0x3000
  }

  /** The ASCII information separators U+001C..U+001F. `str.isspace()` accepts them,
      but `int()` does not: among ASCII characters it skips only space and `\t\n\v\f\r`,
      so a separator anywhere in its argument makes it fail. */
  predicate IsInfoSeparator(c: char) {
    0x1C <= c as int <= 0x1F
  }

  /** Every character of `s` is whitespace (true of the empty string). */
  predicate Blank(s: string) {
    forall k :: 0 <= k < |s| ==> IsSpace(s[k])
  }

  /** `s` without its leading whitespace. */
  function TrimStart(s: string): (r: string)
    ensures |r| <= |s| && r == s[|s| - |r|..]
    ensures forall k :: 0 <= k < |s| - |r| ==> IsSpace(s[k])
    ensures r == [] || !IsSpace(r[0])
  {
    if s != [] && IsSpace(s[0]) then
      var r := TrimStart(s[1..]);
      assert forall k :: 1 <= k < |s| - |r| ==> s[1..][k - 1] == s[k];
      r
    else s
  }

  /** `s` without its trailing whitespace. */
  function TrimEnd(s: string): (r: string)
    ensures |r| <= |s| && r == s[..|r|]
    ensures forall k :: |r| <= k < |s| ==> IsSpace(s[k])
    ensures r == [] || !IsSpace(r[|r| - 1])
  {
    if s != [] && IsSpace(s[|s| - 1]) then
      var r := TrimEnd(s[..|s| - 1]);
      assert forall k :: |r| <= k < |s| - 1 ==> s[..|s| - 1][k] == s[k];
      r
    else s
  }

  /** Python's `str.strip()` with no argument: `s` without its leading and trailing
      whitespace (see StripSlice for where the result sits in `s`). */
  function Strip(s: string): (r: string)
    ensures r == [] || (!IsSpace(r[0]) && !IsSpace(r[|r| - 1]))
    ensures r == [] <==> Blank(s)
  {
    var t := TrimStart(s);
    var r := TrimEnd(t);
    assert r == [] ==> t == [];
    assert r != [] ==> s[|s| - |t|] == t[0] == r[0];
    r
  }

  /** `r` is the slice of `s` that starts at `i`, and everything of `s` before or
      after it is whitespace. */
  predicate BlankBordered(s: string, i: nat, r: string)
  {
    && i + |r| <= |s| && r == s[i..i + |r|]
    && (forall k :: 0 <= k < i ==> IsSpace(s[k]))
    && (forall k :: i + |r| <= k < |s| ==> IsSpace(s[k]))
  }

  /** The result of Strip is a slice of `s` with only whitespace cut away on either
      side; it starts where TrimStart's result starts. */
  lemma {:induction false} StripSlice(s: string)
    ensures BlankBordered(s, |s| - |TrimStart(s)|, Strip(s))
  {
    var t := TrimStart(s);
    var r := TrimEnd(t);
    assert Strip(s) == r;
    TrimmedTwiceSlice(s, t, r);
    assert BlankBordered(s, |s| - |t|, r);
  }

  /** Where a prefix `r` of a suffix `t` of `s` sits in `s`, when whitespace is all
      that was cut away. */
  lemma {:induction false} TrimmedTwiceSlice(s: string, t: string, r: string)
    requires |t| <= |s| && t == s[|s| - |t|..]
    requires forall k :: 0 <= k < |s| - |t| ==> IsSpace(s[k])
    requires |r| <= |t| && r == t[..|r|]
    requires forall k :: |r| <= k < |t| ==> IsSpace(t[k])
    ensures BlankBordered(s, |s| - |t|, r)
  {
    var i := |s| - |t|;
    forall k | i + |r| <= k < |s| ensures IsSpace(s[k]) {
      assert s[k] == t[k - i];
    }
  }

  /** Stripping twice is stripping once. */
  lemma {:induction false} StripIdempotent(s: string)
    ensures Strip(Strip(s)) == Strip(s)
  {
    var r := Strip(s);
    if r != [] {
      StripKeepsTrimmed(r);
    }
  }

  /** A string that neither starts nor ends with whitespace is left as it is. */
  lemma {:induction false} StripKeepsTrimmed(s: string)
    requires s != [] && !IsSpace(s[0]) && !IsSpace(s[|s| - 1])
    ensures Strip(s) == s
  {
    assert TrimStart(s) == s;
    assert TrimEnd(s) == s;
  }

  predicate IsDigit(c: char) {
    '0' <= c <= '9'
  }

  /** The digit part that `int()` accepts in base 10: ASCII digits, where a single
      underscore may stand between two digits. */
  predicate ValidDigits(s: string) {
    && s != []
    && DigitsOrUnderscores(s)
    && forall i :: 0 <= i < |s| && s[i] == '_' ==> 0 < i < |s| - 1 && IsDigit(s[i - 1]) && IsDigit(s[i + 1])
  }

  predicate DigitsOrUnderscores(s: string) {
    forall i :: 0 <= i < |s| ==> IsDigit(s[i]) || s[i] == '_'
  }

  /** The number written by the digits of `s`, underscores skipped. */
  function DigitsValue(s: string): nat
    requires DigitsOrUnderscores(s)
  {
    if s == [] then 0
    else
      var last := s[|s| - 1];
      assert IsDigit(last) || last == '_';
      var prefix := DigitsValue(s[..|s| - 1]);
      if last == '_' then prefix else prefix * 10 + ((last as int) - ('0' as int))
  }

  /** Python's `int()` applied to a string, in base 10; None where it raises ValueError. */
  function ParseInt(s: string): (r: Option<int>)
    ensures Blank(s) ==> r == None
    ensures (exists k :: 0 <= k < |s| && IsInfoSeparator(s[k])) ==> r == None
  {
    if exists k :: 0 <= k < |s| && IsInfoSeparator(s[k]) then None
    else ParseStripped(Strip(s))
  }

  /** `int()` once the surrounding whitespace is gone: an optional sign, then digits. */
  function ParseStripped(t: string): (r: Option<int>)
    ensures t == [] ==> r == None
  {
    if t != [] && (t[0] == '+' || t[0] == '-') then
      var digits := t[1..];
      if ValidDigits(digits) then
        var v: int := DigitsValue(digits);
        Some(if t[0] == '-' then -v else v)
      else None
    else if ValidDigits(t) then Some(DigitsValue(t))
    else None
  }

  function DigitChar(d: nat): (c: char)
    requires d < 10
    ensures IsDigit(c)
  {
    ('0' as int + d) as char
  }

  /** Python's `str()` of a non-negative int: its decimal digits, no leading zeros. */
  function ShowNat(n: nat): (r: string)
    ensures r != [] && forall i :: 0 <= i < |r| ==> IsDigit(r[i])
    ensures |r| > 1 ==> r[0] != '0'
  {
    if n < 10 then [DigitChar(n)] else ShowNat(n / 10) + [DigitChar(n % 10)]
  }

  /** Python's `str()` of an int. */
  function ShowInt(n: int): (r: string)
    ensures r != [] && !IsSpace(r[0]) && !IsSpace(r[|r| - 1])
    ensures forall i :: 0 <= i < |r| ==> r[i] == '-' || IsDigit(r[i])
  {
    if n < 0 then "-" + ShowNat(-n) else ShowNat(n)
  }

  lemma {:induction false} DigitsValueOfShowNat(n: nat)
    ensures DigitsValue(ShowNat(n)) == n
  {
    if n >= 10 {
      var s := ShowNat(n);
      assert s[..|s| - 1] == ShowNat(n / 10);
      DigitsValueOfShowNat(n / 10);
    }
  }

  /** `int(str(n)) == n`: every int, written in decimal, parses back to itself. */
  lemma {:induction false} ParseShowInt(n: int)
    ensures ParseInt(ShowInt(n)) == Some(n)
  {
    var s := ShowInt(n);
    StripKeepsTrimmed(s);
    assert !exists k :: 0 <= k < |s| && IsInfoSeparator(s[k]);
    assert ParseInt(s) == ParseStripped(Strip(s));
    ParseStrippedShowInt(n);
  }

  /** The decimal form of `n`, with nothing around it, reads back as `n`. */
  lemma {:induction false} ParseStrippedShowInt(n: int)
    ensures ParseStripped(ShowInt(n)) == Some(n)
  {
    if n < 0 {
      ShowNatReadsBack(-n);
      ParseNegative(ShowNat(-n));
    } else {
      ShowNatReadsBack(n);
      ParseUnsigned(ShowNat(n));
    }
  }

  /** A minus sign followed by a valid digit string reads as the negated value. */
  lemma {:induction false} ParseNegative(d: string)
    requires ValidDigits(d)
    ensures ParseStripped("-" + d) == Some(-(DigitsValue(d) as int))
  {
    assert ("-" + d)[1..] == d;
  }

  /** A valid digit string with no sign reads as its value. */
  lemma {:induction false} ParseUnsigned(d: string)
    requires ValidDigits(d)
    ensures ParseStripped(d) == Some(DigitsValue(d))
  {
    assert d[0] != '+' && d[0] != '-';
  }

  /** The digits of a non-negative int are a valid digit string worth that int. */
  lemma {:induction false} ShowNatReadsBack(n: nat)
    ensures ValidDigits(ShowNat(n)) && DigitsValue(ShowNat(n)) == n
  {
    DigitsValueOfShowNat(n);
  }
}
