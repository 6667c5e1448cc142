/**
 * The handful of Python string operations the account code relies on:
 * `str(int)`, `int(str)`, `str(bool)`, `str.strip()`, `str.lower()`,
 * `str.rsplit('@', 1)` / `str.split('@')`, and a stand-in for Django's
 * `strip_tags`. Characters are compared one by one; only the ASCII part
 * of Python's Unicode tables is modelled.
 */
module Text {
  import opened Wrappers

  predicate IsDigit(c: char) { '0' <= c <= '9' }

  predicate AllDigits(s: string) { forall i :: 0 <= i < |s| ==> IsDigit(s[i]) }

  /** `str.isspace()` restricted to ASCII: space, \t \n \v \f \r and the separators \x1c-\x1f. */
  predicate IsSpace(c: char) { c == ' ' || 9 <= c as int <= 13 || 28 <= c as int <= 31 }

  function DigitChar(d: nat): (c: char)
    requires d < 10
    ensures IsDigit(c) && c as int - '0' as int == d
  {
    (d + '0' as int) as char
  }

  function DigitValue(c: char): nat
    requires IsDigit(c)
  {
    c as int - '0' as int
  }

  /** `str(n)` for a non-negative Python int: decimal digits, no leading zero. */
  function Decimal(n: nat): (s: string)
    ensures s != [] && AllDigits(s)
  {
    if n < 10 then [DigitChar(n)] else Decimal(n / 10) + [DigitChar(n % 10)]
  }

  /** The value of a string of decimal digits (leading zeros allowed, as `int()` allows them). */
  function DigitsValue(s: string): nat
    requires AllDigits(s)
  {
    if s == [] then 0 else DigitsValue(s[..|s| - 1]) * 10 + DigitValue(s[|s| - 1])
  }

  /**
   * `int(s)` on the strings this model lets through: a non-empty run of
   * ASCII digits. Signs, surrounding blanks and `_` separators, which
   * Python also accepts, are not modelled.
   */
  function ParseDecimal(s: string): (r: Option<nat>)
    ensures r.Some? <==> s != [] && AllDigits(s)
  {
    if s != [] && AllDigits(s) then Some(DigitsValue(s)) else None
  }

  lemma {:induction false} DecimalValue(n: nat)
    ensures DigitsValue(Decimal(n)) == n
  {
    if n >= 10 {
      var s := Decimal(n);
      assert s[..|s| - 1] == Decimal(n / 10);
      DecimalValue(n / 10);
    }
  }

  /** `int(str(n)) == n`. */
  lemma DecimalRoundTrip(n: nat)
    ensures ParseDecimal(Decimal(n)) == Some(n)
  {
    DecimalValue(n);
  }

  /** Different numbers print differently. */
  lemma DecimalInjective(a: nat, b: nat)
    requires Decimal(a) == Decimal(b)
    ensures a == b
  {
    DecimalValue(a);
    DecimalValue(b);
  }

  /** `str(b)` for a Python bool. */
  function BoolText(b: bool): string
  {
    if b then "True" else "False"
  }

  /** `str.strip()`: blanks are dropped from both ends; the result neither starts nor ends with one. */
  function Strip(s: string): (r: string)
    ensures |r| <= |s|
    ensures r == [] || (!IsSpace(r[0]) && !IsSpace(r[|r| - 1]))
  {
    if s != [] && IsSpace(s[0]) then Strip(s[1..])
    else if s != [] && IsSpace(s[|s| - 1]) then Strip(s[..|s| - 1])
    else s
  }

  /** Every character is a blank. */
  predicate AllBlank(t: string)
  {
    forall k :: 0 <= k < |t| ==> IsSpace(t[k])
  }

  /** Dropping a leading blank moves a kept span one place to the right. */
  lemma ShiftSpan(s: string, i: nat, j: nat)
    requires s != [] && IsSpace(s[0]) && i <= j <= |s| - 1
    requires AllBlank(s[1..][..i]) && AllBlank(s[1..][j..])
    ensures s[1..][i..j] == s[i + 1..j + 1] && AllBlank(s[..i + 1]) && AllBlank(s[j + 1..])
  {
    assert s[..i + 1] == [s[0]] + s[1..][..i];
    assert s[1..][j..] == s[j + 1..];
  }

  /** Dropping a trailing blank keeps a span where it was. */
  lemma KeepSpan(s: string, i: nat, j: nat)
    requires s != [] && IsSpace(s[|s| - 1]) && i <= j <= |s| - 1
    requires AllBlank(s[..|s| - 1][..i]) && AllBlank(s[..|s| - 1][j..])
    ensures s[..|s| - 1][i..j] == s[i..j] && AllBlank(s[..i]) && AllBlank(s[j..])
  {
    assert s[..|s| - 1][..i] == s[..i];
    assert s[j..] == s[..|s| - 1][j..] + [s[|s| - 1]];
  }

  /**
   * `str.strip()` removes blanks at the two ends and nothing else: the
   * result is one contiguous span of the input, and everything outside
   * that span is blank.
   */
  lemma {:induction false} StripRemovesOnlyEndBlanks(s: string)
    ensures exists i, j :: 0 <= i <= j <= |s| && Strip(s) == s[i..j] && AllBlank(s[..i]) && AllBlank(s[j..])
  {
    if s != [] && IsSpace(s[0]) {
      StripRemovesOnlyEndBlanks(s[1..]);
      var i, j :| 0 <= i <= j <= |s[1..]| && Strip(s[1..]) == s[1..][i..j] && AllBlank(s[1..][..i]) && AllBlank(s[1..][j..]);
      ShiftSpan(s, i, j);
      assert Strip(s) == s[i + 1..j + 1];
    } else if s != [] && IsSpace(s[|s| - 1]) {
      StripRemovesOnlyEndBlanks(s[..|s| - 1]);
      var i, j :| 0 <= i <= j <= |s[..|s| - 1]| && Strip(s[..|s| - 1]) == s[..|s| - 1][i..j] && AllBlank(s[..|s| - 1][..i]) && AllBlank(s[..|s| - 1][j..]);
      KeepSpan(s, i, j);
      assert Strip(s) == s[i..j];
    } else {
      assert Strip(s) == s[0..|s|] && AllBlank(s[..0]) && AllBlank(s[|s|..]);
    }
  }

  /** A string without leading or trailing blanks is its own strip. */
  lemma StripKeepsTrimmed(s: string)
    requires s == [] || (!IsSpace(s[0]) && !IsSpace(s[|s| - 1]))
    ensures Strip(s) == s
  {
  }

  function LowerChar(c: char): char
  {
    if 'A' <= c <= 'Z' then (c as int - 'A' as int + 'a' as int) as char else c
  }

  /** `str.lower()` on ASCII letters; every other character is kept. */
  function Lower(s: string): (r: string)
    ensures |r| == |s|
    ensures forall i :: 0 <= i < |s| ==> r[i] == LowerChar(s[i])
  {
    seq(|s|, i requires 0 <= i < |s| => LowerChar(s[i]))
  }

  /** The index of the last `c` in `s`, or -1: what `rsplit(c, 1)` splits at. */
  function LastIndexOf(s: string, c: char): (r: int)
    ensures -1 <= r < |s|
    ensures r == -1 <==> c !in s
    ensures 0 <= r ==> s[r] == c && c !in s[r + 1..]
  {
    if s == [] then -1
    else if s[|s| - 1] == c then |s| - 1
    else
      var r := LastIndexOf(s[..|s| - 1], c);
      assert r >= 0 ==> s[r + 1..] == s[..|s| - 1][r + 1..] + [s[|s| - 1]];
      assert s == s[..|s| - 1] + [s[|s| - 1]];
      r
  }

  /** The index of the first `c` in `s`, or |s| when there is none. */
  function FirstIndexOf(s: string, c: char): (r: nat)
    ensures r <= |s|
    ensures c !in s[..r]
    ensures r < |s| ==> s[r] == c
  {
    if s == [] then 0
    else if s[0] == c then 0
    else
      var r := 1 + FirstIndexOf(s[1..], c);
      assert s[..r] == [s[0]] + s[1..][..r - 1];
      r
  }

  /** The first `c` is at `i` when `s[i]` is one and none comes before it (`i == |s|`: there is none). */
  lemma {:induction false} FirstIndexOfAt(s: string, c: char, i: nat)
    requires i <= |s| && c !in s[..i]
    requires i == |s| || s[i] == c
    ensures FirstIndexOf(s, c) == i
  {
    if s != [] && i > 0 {
      assert s[0] == s[..i][0];
      assert s[1..][..i - 1] == s[..i][1..];
      FirstIndexOfAt(s[1..], c, i - 1);
    }
  }

  /** The last `c` is at `i` when `s[i]` is one and none comes after it. */
  lemma LastIndexOfAt(s: string, c: char, i: nat)
    requires i < |s| && s[i] == c && c !in s[i + 1..]
    ensures LastIndexOf(s, c) == i
  {
  }

  /**
   * A stand-in for `django.utils.html.strip_tags`: every span from a `<`
   * to the next `>` is dropped, and an unclosed `<` drops the rest of
   * the text. Django's HTML parser keeps a `<` that cannot open a tag;
   * this model does not.
   */
  function StripTags(s: string): string
    decreases |s|
  {
    if s == [] then []
    else if s[0] == '<' then SkipTag(s[1..])
    else [s[0]] + StripTags(s[1..])
  }

  /** Inside a tag: drop everything up to and including the next `>`. */
  function SkipTag(s: string): string
    decreases |s|
  {
    if s == [] then []
    else if s[0] == '>' then StripTags(s[1..])
    else SkipTag(s[1..])
  }

  lemma {:induction false} StripTagsLeavesNoTag(s: string)
    ensures '<' !in StripTags(s)
    decreases |s|
  {
    if s != [] {
      if s[0] == '<' {
        SkipTagLeavesNoTag(s[1..]);
      } else {
        StripTagsLeavesNoTag(s[1..]);
      }
    }
  }

  lemma {:induction false} SkipTagLeavesNoTag(s: string)
    ensures '<' !in SkipTag(s)
    decreases |s|
  {
    if s != [] {
      if s[0] == '>' {
        StripTagsLeavesNoTag(s[1..]);
      } else {
        SkipTagLeavesNoTag(s[1..]);
      }
    }
  }

  /** Text with no `<` in it is left exactly as it is. */
  lemma {:induction false} StripTagsKeepsPlainText(s: string)
    requires '<' !in s
    ensures StripTags(s) == s
  {
    if s != [] {
      assert s[0] in s;
      assert forall c :: c in s[1..] ==> c in s;
      StripTagsKeepsPlainText(s[1..]);
    }
  }

  /** Stripping twice is stripping once. */
  lemma StripTagsIdempotent(s: string)
    ensures StripTags(StripTags(s)) == StripTags(s)
  {
    StripTagsLeavesNoTag(s);
    StripTagsKeepsPlainText(StripTags(s));
  }

  lemma CancelPrefix(p: string, x: string, y: string)
    requires p + x == p + y
    ensures x == y
  {
    assert x == (p + x)[|p|..];
    assert y == (p + y)[|p|..];
  }

  lemma CancelSuffix(x: string, y: string, q: string)
    requires x + q == y + q
    ensures x == y
  {
    assert |x| == |y|;
    assert x == (x + q)[..|x|];
    assert y == (y + q)[..|y|];
  }
}
