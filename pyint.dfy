/**
  Python's base-10 conversions between `int` and `str`: the `int(s)` constructor
  applied to a string (the parse behind `int(heart_rate)` in `health_data`) and
  `str(n)` of an integer.

  `int(s)` accepts surrounding whitespace, one optional sign, and ASCII digits in
  groups separated by single underscores; every other string raises `ValueError`,
  modelled here as `None`.
 */
module PyInt {
  import opened Wrappers

  /** Characters `int()` skips before and after the literal: the six ASCII
      whitespace characters, and the non-ASCII characters for which
      `str.isspace()` holds (CPython turns those into a space before parsing).
      The ASCII separators 0x1C-0x1F are not skipped. */
  predicate IsSpace(c: char) {
    || c == ' ' || c == '\t' || c == '\n' || c == '\U{000B}' || c == '\U{000C}' || c == '\r'
    || c == '\U{0085}' || c == '\U{00A0}' || c == '\U{1680}'
    || ('\U{2000}' <= c <= '\U{200A}')
    || c == '\U{2028}' || c == '\U{2029}' || c == '\U{202F}' || c == '\U{205F}' || c == '\U{3000}'
  }

  predicate IsDigit(c: char) {
    '0' <= c <= '9'
  }

  function DigitValue(c: char): nat
    requires IsDigit(c)
  {
    c as int - '0' as int
  }

  function DigitChar(d: nat): char
    requires d < 10
  {
    ('0' as int + d) as char
  }

  /** The string without its leading whitespace. */
  function TrimStart(s: string): (r: string)
    ensures |r| <= |s| && r == s[|s| - |r|..]
    ensures forall i :: 0 <= i < |s| - |r| ==> IsSpace(s[i])
    ensures r != [] ==> !IsSpace(r[0])
  {
    if s != [] && IsSpace(s[0]) then TrimStart(s[1..]) else s
  }

  /** The string without its trailing whitespace. */
  function TrimEnd(s: string): (r: string)
    ensures |r| <= |s| && r == s[..|r|]
    ensures forall i :: |r| <= i < |s| ==> IsSpace(s[i])
    ensures r != [] ==> !IsSpace(r[|r| - 1])
  {
    if s != [] && IsSpace(s[|s| - 1]) then TrimEnd(s[..|s| - 1]) else s
  }

  predicate DigitsOrUnderscores(d: string) {
    forall i :: 0 <= i < |d| ==> IsDigit(d[i]) || d[i] == '_'
  }

  /** The unsigned body of a base-10 literal: digit ("_"? digit)*. */
  predicate Grouped(d: string) {
    && |d| > 0
    && IsDigit(d[0])
    && IsDigit(d[|d| - 1])
    && DigitsOrUnderscores(d)
    && forall i :: 0 <= i < |d| - 1 && d[i] == '_' ==> d[i + 1] != '_'
  }

  /** The number the digits of `d` spell, underscores ignored. */
  function GroupedValue(d: string): nat
    requires DigitsOrUnderscores(d)
  {
    if d == [] then 0
    else
      var init := GroupedValue(d[..|d| - 1]);
      if d[|d| - 1] == '_' then init else init * 10 + DigitValue(d[|d| - 1])
  }

  /** `int(s)` for a string `s`: the value, or None where Python raises ValueError. */
  function Int(s: string): Option<int> {
    Literal(TrimEnd(TrimStart(s)))
  }

  /** The value of a whitespace-free literal: an optional sign and grouped digits. */
  function Literal(t: string): Option<int> {
    if t != [] && (t[0] == '+' || t[0] == '-') then
      var d := t[1..];
      if Grouped(d) then
        var magnitude: int := GroupedValue(d);
        Some(if t[0] == '-' then -magnitude else magnitude)
      else None
    else if Grouped(t) then Some(GroupedValue(t))
    else None
  }

  /** `str(n)` for `n >= 0`: ASCII digits, no leading zero except in "0". */
  function Digits(n: nat): (r: string)
    ensures r != [] && forall i :: 0 <= i < |r| ==> IsDigit(r[i])
    ensures r[0] == '0' <==> n == 0
  {
    if n < 10 then [DigitChar(n)] else Digits(n / 10) + [DigitChar(n % 10)]
  }

  /** `str(n)` for any integer `n`. */
  function Str(n: int): string {
    if n < 0 then "-" + Digits(-n) else Digits(n)
  }

  /** The digits `str` writes spell the number back. */
  lemma {:induction false} DigitsSpellValue(n: nat)
    ensures Grouped(Digits(n)) && GroupedValue(Digits(n)) == n
  {
    var d := Digits(n);
    if n >= 10 {
      DigitsSpellValue(n / 10);
      assert d[..|d| - 1] == Digits(n / 10);
    }
  }

  /** `str(n)` neither starts nor ends with whitespace. */
  lemma StrHasNoSpaceAtEnds(n: int)
    ensures Str(n) != [] && !IsSpace(Str(n)[0]) && !IsSpace(Str(n)[|Str(n)| - 1])
  {
    var m := if n < 0 then -n else n;
    assert Str(n)[|Str(n)| - 1] == Digits(m)[|Digits(m)| - 1];
  }

  /** Round trip: `int(str(n)) == n` for every integer. */
  lemma IntOfStr(n: int)
    ensures Int(Str(n)) == Some(n)
  {
    var s := Str(n);
    var m := if n < 0 then -n else n;
    DigitsSpellValue(m);
    StrHasNoSpaceAtEnds(n);
    assert TrimStart(s) == s;
    assert TrimEnd(s) == s;
    if n < 0 {
      assert s[1..] == Digits(m);
    }
  }

  /** Leading whitespace does not change what `TrimStart` keeps. */
  lemma {:induction false} TrimStartSkipsSpace(pre: string, s: string)
    requires forall i :: 0 <= i < |pre| ==> IsSpace(pre[i])
    ensures TrimStart(pre + s) == TrimStart(s)
  {
    if pre != [] {
      var w := pre + s;
      assert w[0] == pre[0];
      assert w[1..] == pre[1..] + s;
      assert TrimStart(w) == TrimStart(w[1..]);
      TrimStartSkipsSpace(pre[1..], s);
    } else {
      assert pre + s == s;
    }
  }

  /** Trailing whitespace does not change what `TrimEnd` keeps. */
  lemma {:induction false} TrimEndSkipsSpace(s: string, post: string)
    requires forall i :: 0 <= i < |post| ==> IsSpace(post[i])
    ensures TrimEnd(s + post) == TrimEnd(s)
  {
    if post != [] {
      var w := s + post;
      assert w[|w| - 1] == post[|post| - 1];
      assert w[..|w| - 1] == s + post[..|post| - 1];
      assert TrimEnd(w) == TrimEnd(w[..|w| - 1]);
      TrimEndSkipsSpace(s, post[..|post| - 1]);
    } else {
      assert s + post == s;
    }
  }

  /** Trimming removes exactly the whitespace around a string that neither
      starts nor ends with whitespace. */
  lemma TrimSurrounding(pre: string, s: string, post: string)
    requires forall i :: 0 <= i < |pre| ==> IsSpace(pre[i])
    requires forall i :: 0 <= i < |post| ==> IsSpace(post[i])
    requires s != [] && !IsSpace(s[0]) && !IsSpace(s[|s| - 1])
    ensures TrimEnd(TrimStart(pre + s + post)) == s
  {
    assert pre + s + post == pre + (s + post);
    TrimStartSkipsSpace(pre, s + post);
    assert (s + post)[0] == s[0];
    assert TrimStart(s + post) == s + post;
    TrimEndSkipsSpace(s, post);
    assert TrimEnd(s) == s;
  }

  /** Whitespace around any string that neither starts nor ends with
      whitespace does not change what `int()` makes of it. */
  lemma IntIgnoresSpaceAround(pre: string, t: string, post: string)
    requires forall i :: 0 <= i < |pre| ==> IsSpace(pre[i])
    requires forall i :: 0 <= i < |post| ==> IsSpace(post[i])
    requires t != [] && !IsSpace(t[0]) && !IsSpace(t[|t| - 1])
    ensures Int(pre + t + post) == Int(t)
  {
    TrimSurrounding(pre, t, post);
    TrimSurrounding([], t, []);
    assert [] + t + [] == t;
  }

  /** `int(" 72\n") == 72`: `str(n)` padded with whitespace on either side
      still gives `n`. */
  lemma IntIgnoresSurroundingSpace(pre: string, n: int, post: string)
    requires forall i :: 0 <= i < |pre| ==> IsSpace(pre[i])
    requires forall i :: 0 <= i < |post| ==> IsSpace(post[i])
    ensures Int(pre + Str(n) + post) == Some(n)
  {
    StrHasNoSpaceAtEnds(n);
    IntIgnoresSpaceAround(pre, Str(n), post);
    IntOfStr(n);
  }

  /** A string without any ASCII digit is never an integer literal (in this
      model, whose `int()` reads ASCII digits only). */
  lemma IntNeedsADigit(s: string)
    requires forall i :: 0 <= i < |s| ==> !IsDigit(s[i])
    ensures Int(s) == None
  {
    var u := TrimStart(s);
    var t := TrimEnd(u);
    var a := |s| - |u|;
    assert forall k :: 0 <= k < |t| ==> t[k] == s[a + k];
  }
}
