/** Character classes and string helpers with the meaning Python's `str` methods
    give them in bot.py: `isspace`/`\s`, `lower`, `strip`, `replace`, `split`,
    `isdigit` and `int` on a digit string. */
module Text {

  /** A decimal digit. Python's `isdigit` also accepts non-ASCII digits; this
      model accepts the ASCII ones only. */
  predicate IsDigit(c: char) {
    '0' <= c <= '9'
  }

  /** Python's whitespace (`str.isspace`, the `\s` class of a `str` pattern and
      the characters `str.strip()` removes): U+0009-U+000D, U+001C-U+0020, U+0085,
      U+00A0, U+1680, U+2000-U+200A, U+2028, U+2029, U+202F, U+205F, U+3000. */
  predicate IsSpace(c: char) {
    || '\t' <= c <= '\r'
    || '\U{1C}' <= c <= ' '
    || c == '\U{85}' || c == '\U{A0}' || c == '\U{1680}'
    || '\U{2000}' <= c <= '\U{200A}'
    || c == '\U{2028}' || c == '\U{2029}' || c == '\U{202F}' || c == '\U{205F}' || c == '\U{3000}'
  }

  predicate IsUpper(c: char) {
    'A' <= c <= 'Z'
  }

  /** Lower-case one character. Only A-Z change: for the comparisons bot.py
      makes (against "true", "channel" and "role") no other character's
      lower-case form can produce a match, so this agrees with `str.lower`. */
  function LowerChar(c: char): (r: char)
    ensures IsUpper(c) ==> r as int == c as int + 32
    ensures !IsUpper(c) ==> r == c
    ensures !IsUpper(r)
  {
    if IsUpper(c) then (c as int + 32) as char else c
  }

  function Lower(s: string): (r: string)
    ensures |r| == |s|
    ensures forall i :: 0 <= i < |s| ==> r[i] == LowerChar(s[i])
  {
    if |s| == 0 then [] else [LowerChar(s[0])] + Lower(s[1..])
  }

  /** Which whitespace a trim removes. `StrSpace` is `str.strip()`'s: all of
      `IsSpace`. `IntSpace` is what `int()` skips around a number: CPython keeps
      ASCII characters as they are, turns non-ASCII whitespace into a space, then
      skips only " \t\n\v\f\r", so U+001C-U+001F are not skipped. */
  datatype SpaceClass = StrSpace | IntSpace

  predicate IsBlank(k: SpaceClass, c: char) {
    IsSpace(c) && (k == IntSpace ==> !('\U{1C}' <= c <= '\U{1F}'))
  }

  predicate AllSpace(k: SpaceClass, s: string) {
    forall i :: 0 <= i < |s| ==> IsBlank(k, s[i])
  }

  /** `r` is `s` after its leading whitespace: a suffix of `s` that does not
      start with whitespace, and only whitespace before it. */
  predicate LeftTrimmed(k: SpaceClass, s: string, r: string) {
    && |r| <= |s| && r == s[|s| - |r|..]
    && AllSpace(k, s[..|s| - |r|])
    && (|r| > 0 ==> !IsBlank(k, r[0]))
  }

  /** `r` is `s` before its trailing whitespace. */
  predicate RightTrimmed(k: SpaceClass, s: string, r: string) {
    && |r| <= |s| && r == s[..|r|]
    && AllSpace(k, s[|r|..])
    && (|r| > 0 ==> !IsBlank(k, r[|r| - 1]))
  }

  /** `str.lstrip()` */
  function TrimStart(k: SpaceClass, s: string): (r: string)
    ensures LeftTrimmed(k, s, r)
  {
    if |s| > 0 && IsBlank(k, s[0]) then
      var r := TrimStart(k, s[1..]);
      LeftTrimmedStep(k, s, r);
      r
    else s
  }

  lemma LeftTrimmedStep(k: SpaceClass, s: string, r: string)
    requires |s| > 0 && IsBlank(k, s[0]) && LeftTrimmed(k, s[1..], r)
    ensures LeftTrimmed(k, s, r)
  {
    var n := |s| - |r|;
    forall i | 0 <= i < n ensures IsBlank(k, s[..n][i]) {
      if i > 0 {
        assert s[..n][i] == s[1..][..n - 1][i - 1];
      }
    }
  }

  /** `str.rstrip()` */
  function TrimEnd(k: SpaceClass, s: string): (r: string)
    ensures RightTrimmed(k, s, r)
  {
    if |s| > 0 && IsBlank(k, s[|s| - 1]) then
      var r := TrimEnd(k, s[..|s| - 1]);
      RightTrimmedStep(k, s, r);
      r
    else s
  }

  lemma RightTrimmedStep(k: SpaceClass, s: string, r: string)
    requires |s| > 0 && IsBlank(k, s[|s| - 1]) && RightTrimmed(k, s[..|s| - 1], r)
    ensures RightTrimmed(k, s, r)
  {
    var n := |s| - |r|;
    forall i | 0 <= i < n ensures IsBlank(k, s[|r|..][i]) {
      if i < n - 1 {
        assert s[|r|..][i] == s[..|s| - 1][|r|..][i];
      }
    }
  }

  /** `str.strip()` (with `StrSpace`): `s` is leading whitespace, then the
      result, then trailing whitespace, and the result neither starts nor ends
      with whitespace. */
  function Strip(k: SpaceClass, s: string): (r: string)
    ensures Stripped(k, s, r)
  {
    var t := TrimStart(k, s);
    var r := TrimEnd(k, t);
    StripSurrounds(k, s, t, r);
    r
  }

  /** `r` is `s` without its leading and trailing whitespace. */
  ghost predicate Stripped(k: SpaceClass, s: string, r: string) {
    && (|r| > 0 ==> !IsBlank(k, r[0]) && !IsBlank(k, r[|r| - 1]))
    && exists j :: Surrounds(k, s, j, r)
  }

  /** `s` is whitespace, then `r` starting at index `j`, then whitespace. */
  predicate Surrounds(k: SpaceClass, s: string, j: nat, r: string) {
    j + |r| <= |s| && r == s[j..j + |r|] && AllSpace(k, s[..j]) && AllSpace(k, s[j + |r|..])
  }

  lemma StripSurrounds(k: SpaceClass, s: string, t: string, r: string)
    requires LeftTrimmed(k, s, t) && RightTrimmed(k, t, r)
    ensures Stripped(k, s, r)
  {
    var j := |s| - |t|;
    assert s[j + |r|..] == t[|r|..];
    assert Surrounds(k, s, j, r);
  }

  lemma {:induction false} TrimStartPadded(k: SpaceClass, a: string, t: string)
    requires AllSpace(k, a)
    requires |t| > 0 && !IsBlank(k, t[0])
    ensures TrimStart(k, a + t) == t
  {
    if |a| > 0 {
      assert (a + t)[1..] == a[1..] + t;
      TrimStartPadded(k, a[1..], t);
    } else {
      assert a + t == t;
    }
  }

  lemma {:induction false} TrimEndPadded(k: SpaceClass, t: string, b: string)
    requires AllSpace(k, b)
    requires |t| > 0 && !IsBlank(k, t[|t| - 1])
    ensures TrimEnd(k, t + b) == t
  {
    if |b| > 0 {
      assert (t + b)[..|t + b| - 1] == t + b[..|b| - 1];
      TrimEndPadded(k, t, b[..|b| - 1]);
    } else {
      assert t + b == t;
    }
  }

  /** A strip removes exactly the whitespace padding around a value. */
  lemma StripPadded(k: SpaceClass, a: string, t: string, b: string)
    requires AllSpace(k, a) && AllSpace(k, b)
    requires |t| > 0 && !IsBlank(k, t[0]) && !IsBlank(k, t[|t| - 1])
    ensures Strip(k, a + t + b) == t
  {
    assert a + t + b == a + (t + b);
    assert (t + b)[0] == t[0];
    TrimStartPadded(k, a, t + b);
    TrimEndPadded(k, t, b);
  }

  /** `s.replace(c, "")`: every occurrence of `c` removed, the rest kept in order. */
  function RemoveChar(s: string, c: char): (r: string)
    ensures multiset(r) == multiset(s)[c := 0]
    ensures forall x :: x in r <==> x in s && x != c
    ensures |r| <= |s|
    ensures c !in s ==> r == s
  {
    if |s| == 0 then []
    else
      var rest := RemoveChar(s[1..], c);
      assert s == [s[0]] + s[1..];
      if s[0] == c then rest else [s[0]] + rest
  }

  /** Removal works piece by piece, so the order of what is kept is the order
      of the input. */
  lemma {:induction false} RemoveCharAppend(a: string, b: string, c: char)
    ensures RemoveChar(a + b, c) == RemoveChar(a, c) + RemoveChar(b, c)
  {
    if |a| > 0 {
      assert (a + b)[1..] == a[1..] + b;
      RemoveCharAppend(a[1..], b, c);
    } else {
      assert a + b == b;
    }
  }

  /** The inverse of `Split`: the parts with `sep` between consecutive ones. */
  function Join(parts: seq<string>, sep: char): string {
    if |parts| == 0 then []
    else if |parts| == 1 then parts[0]
    else parts[0] + [sep] + Join(parts[1..], sep)
  }

  /** `s.split(sep)`: never empty, no part holds `sep`, and joining the parts
      back with `sep` gives `s`. The empty string gives one empty part. */
  function Split(s: string, sep: char): (parts: seq<string>)
    ensures |parts| >= 1
    ensures forall i :: 0 <= i < |parts| ==> sep !in parts[i]
    ensures Join(parts, sep) == s
  {
    if |s| == 0 then [[]]
    else
      var rest := Split(s[1..], sep);
      if s[0] == sep then
        assert s == [sep] + s[1..];
        [[]] + rest
      else
        var parts := [[s[0]] + rest[0]] + rest[1..];
        assert |rest| > 1 ==> Join(parts, sep) == [s[0]] + (rest[0] + [sep] + Join(rest[1..], sep)) by {
          if |rest| > 1 {
            assert parts[1..] == rest[1..];
          }
        }
        assert s == [s[0]] + s[1..];
        parts
  }

  lemma {:induction false} SplitWithoutSep(a: string, sep: char)
    requires sep !in a
    ensures Split(a, sep) == [a]
  {
    if |a| > 0 {
      SplitWithoutSep(a[1..], sep);
      assert [a[0]] + a[1..] == a;
    }
  }

  lemma {:induction false} SplitAtFirstSep(a: string, b: string, sep: char)
    requires sep !in a
    ensures Split(a + [sep] + b, sep) == [a] + Split(b, sep)
  {
    if |a| == 0 {
      assert a + [sep] + b == [sep] + b;
      assert ([sep] + b)[1..] == b;
    } else {
      var s := a + [sep] + b;
      assert s[1..] == a[1..] + [sep] + b;
      SplitAtFirstSep(a[1..], b, sep);
      assert [a[0]] + a[1..] == a;
    }
  }

  /** Splitting undoes joining parts that do not contain the separator. */
  lemma {:induction false} SplitJoin(parts: seq<string>, sep: char)
    requires |parts| >= 1
    requires forall i :: 0 <= i < |parts| ==> sep !in parts[i]
    ensures Split(Join(parts, sep), sep) == parts
  {
    if |parts| == 1 {
      SplitWithoutSep(parts[0], sep);
    } else {
      SplitAtFirstSep(parts[0], Join(parts[1..], sep), sep);
      SplitJoin(parts[1..], sep);
      assert [parts[0]] + parts[1..] == parts;
    }
  }

  predicate AllDigits(t: string) {
    forall i :: 0 <= i < |t| ==> IsDigit(t[i])
  }

  /** Python's `t.isdigit()`: non-empty and made of digits only. */
  predicate IsDigitString(t: string) {
    |t| > 0 && AllDigits(t)
  }

  function DigitValue(c: char): (d: nat)
    requires IsDigit(c)
    ensures d < 10
  {
    c as int - '0' as int
  }

  function DigitChar(d: nat): (c: char)
    requires d < 10
    ensures IsDigit(c) && DigitValue(c) == d
  {
    ('0' as int + d) as char
  }

  /** `int(t)` for a string of digits (leading zeros allowed). */
  function ParseNat(t: string): nat
    requires AllDigits(t)
  {
    if |t| == 0 then 0 else 10 * ParseNat(t[..|t| - 1]) + DigitValue(t[|t| - 1])
  }

  /** `str(n)`: the decimal digits of `n`, without leading zeros. */
  function ShowNat(n: nat): (t: string)
    ensures IsDigitString(t)
    ensures |t| > 1 ==> t[0] != '0'
  {
    if n < 10 then [DigitChar(n)] else ShowNat(n / 10) + [DigitChar(n % 10)]
  }

  /** `int(str(n)) == n` */
  lemma {:induction false} ParseShowNat(n: nat)
    ensures ParseNat(ShowNat(n)) == n
  {
    if n >= 10 {
      var t := ShowNat(n);
      assert t[..|t| - 1] == ShowNat(n / 10);
      ParseShowNat(n / 10);
    }
  }
}
