/**
 * The Python 2 `str` operations the scripts rely on, over `seq<char>`:
 * strip, upper/lower (ASCII), `in`, find, split(sep), split(), join,
 * replace, `int()` and `str()` of an integer.
 */
module Strings {
  import opened Py

  /** Whitespace as `str.isspace`, `str.strip` and `str.split()` see it. */
  predicate IsSpace(c: char) {
    c == ' ' || c == '\t' || c == '\n' || c == '\r' || c == '\U{B}' || c == '\U{C}'
  }

  /** `s.isspace() or not s`: empty, or made only of whitespace. */
  predicate Blank(s: string) {
    forall i :: 0 <= i < |s| ==> IsSpace(s[i])
  }

  predicate NoSpace(s: string) {
    forall i :: 0 <= i < |s| ==> !IsSpace(s[i])
  }

  /** `s.lstrip()`: `s` without its leading whitespace. */
  function StripLeft(s: string): (r: string)
    ensures r == [] || !IsSpace(r[0])
    decreases |s|
  {
    if |s| > 0 && IsSpace(s[0]) then StripLeft(s[1..]) else s
  }

  /** `lstrip` removes whitespace only: the result is a suffix of `s` after a blank prefix. */
  lemma {:induction false} StripLeftRemovesSpace(s: string)
    ensures var r := StripLeft(s); |r| <= |s| && r == s[|s| - |r|..] && Blank(s[..|s| - |r|])
    decreases |s|
  {
    if |s| > 0 && IsSpace(s[0]) {
      var t := s[1..];
      var r := StripLeft(t);
      assert StripLeft(s) == r;
      StripLeftRemovesSpace(t);
      var n := |t| - |r|;
      assert s[n + 1..] == t[n..];
      assert s[..n + 1] == [s[0]] + t[..n];
    }
  }

  /** `s.rstrip()`: `s` without its trailing whitespace. */
  function StripRight(s: string): (r: string)
    ensures |r| <= |s| && r == s[..|r|]
    ensures r == [] || !IsSpace(r[|r| - 1])
    decreases |s|
  {
    if |s| > 0 && IsSpace(s[|s| - 1]) then StripRight(s[..|s| - 1]) else s
  }

  /** `rstrip` removes whitespace only. */
  lemma {:induction false} StripRightRemovesSpace(s: string)
    ensures Blank(s[|StripRight(s)|..])
    decreases |s|
  {
    if |s| > 0 && IsSpace(s[|s| - 1]) {
      var r := StripRight(s[..|s| - 1]);
      StripRightRemovesSpace(s[..|s| - 1]);
      assert s[|r|..] == s[..|s| - 1][|r|..] + [s[|s| - 1]];
    }
  }

  /** `r` is the slice of `s` at `i`, with only whitespace before and after it. */
  predicate TrimmedAt(s: string, r: string, i: int) {
    0 <= i && i + |r| <= |s| && r == s[i..i + |r|] && Blank(s[..i]) && Blank(s[i + |r|..])
  }

  /** `s.strip()`: `s` without its leading and trailing whitespace. */
  function Strip(s: string): (r: string)
    ensures r == [] || (!IsSpace(r[0]) && !IsSpace(r[|r| - 1]))
  {
    StripRight(StripLeft(s))
  }

  /**
   * `strip` removes whitespace only, from the two ends: the result sits in `s`
   * with nothing but whitespace before and after it.
   */
  lemma StripTrims(s: string)
    ensures exists i :: TrimmedAt(s, Strip(s), i)
  {
    var l := StripLeft(s);
    var r := StripRight(l);
    var i := |s| - |l|;
    StripLeftRemovesSpace(s);
    StripRightRemovesSpace(l);
    assert l == s[i..];
    assert s[i..i + |r|] == l[..|r|];
    assert s[i + |r|..] == l[|r|..];
    assert TrimmedAt(s, r, i);
    assert Strip(s) == r;
  }

  lemma StripNoSpace(s: string)
    requires NoSpace(s)
    ensures Strip(s) == s
  {
  }

  function UpperChar(c: char): char {
    if 'a' <= c <= 'z' then (c as int - 32) as char else c
  }

  function LowerChar(c: char): char {
    if 'A' <= c <= 'Z' then (c as int + 32) as char else c
  }

  /** `s.upper()` on ASCII text. */
  function Upper(s: string): (r: string)
    ensures |r| == |s| && forall i :: 0 <= i < |s| ==> r[i] == UpperChar(s[i])
  {
    seq(|s|, i requires 0 <= i < |s| => UpperChar(s[i]))
  }

  /** `s.lower()` on ASCII text. */
  function Lower(s: string): (r: string)
    ensures |r| == |s| && forall i :: 0 <= i < |s| ==> r[i] == LowerChar(s[i])
  {
    seq(|s|, i requires 0 <= i < |s| => LowerChar(s[i]))
  }

  /** Lower-case ASCII letters and underscores only, as the F5 state and method names are. */
  predicate IsLowerWord(s: string) {
    forall i :: 0 <= i < |s| ==> 'a' <= s[i] <= 'z' || s[i] == '_'
  }

  lemma LowerUpper(s: string)
    requires IsLowerWord(s)
    ensures Lower(Upper(s)) == s
  {
    assert forall i :: 0 <= i < |s| ==> Lower(Upper(s))[i] == s[i];
  }

  /** `sep` occurs in `s` starting at index `j`. */
  predicate OccursAt(s: string, sep: string, j: int) {
    0 <= j && j + |sep| <= |s| && s[j..j + |sep|] == sep
  }

  /** `s.find(sep)`: the first index where `sep` occurs, or -1. */
  function Find(s: string, sep: string): (r: int)
    ensures r == -1 || (0 <= r <= |s| - |sep| && OccursAt(s, sep, r))
    ensures forall j :: 0 <= j && (r == -1 || j < r) ==> !OccursAt(s, sep, j)
    decreases |s|
  {
    if |s| < |sep| then -1
    else if s[..|sep|] == sep then 0
    else
      var k := Find(s[1..], sep);
      assert forall j :: 1 <= j ==> OccursAt(s, sep, j) == OccursAt(s[1..], sep, j - 1);
      if k == -1 then -1 else k + 1
  }

  /** Two adjacent occurrences make one occurrence of the concatenation. */
  lemma OccursAtConcat(s: string, a: string, b: string, i: int)
    requires OccursAt(s, a, i) && OccursAt(s, b, i + |a|)
    ensures OccursAt(s, a + b, i)
  {
    assert s[i..i + |a| + |b|] == s[i..i + |a|] + s[i + |a|..i + |a| + |b|];
  }

  /** The text before the first occurrence of `sep` does not contain it. */
  lemma BeforeFirstOccurrence(s: string, sep: string, j: nat)
    requires |sep| > 0 && j <= |s|
    requires forall k :: 0 <= k < j ==> !OccursAt(s, sep, k)
    ensures !Contains(s[..j], sep)
  {
    var i := Find(s[..j], sep);
    if i >= 0 {
      assert s[..j][i..i + |sep|] == s[i..i + |sep|];
      assert OccursAt(s, sep, i);
    }
  }

  /** `sub in s` */
  predicate Contains(s: string, sub: string) {
    Find(s, sub) >= 0
  }

  /** `sep.join(parts)` */
  function Join(parts: seq<string>, sep: string): string {
    if |parts| == 0 then ""
    else if |parts| == 1 then parts[0]
    else parts[0] + sep + Join(parts[1..], sep)
  }

  /** `s.split(sep)` for a non-empty separator. */
  function Split(s: string, sep: string): (r: seq<string>)
    requires |sep| > 0
    ensures |r| >= 1
    decreases |s|
  {
    var i := Find(s, sep);
    if i < 0 then [s]
    else
      assert forall j :: 0 <= j <= i - |sep| ==> OccursAt(s[..i], sep, j) == OccursAt(s, sep, j);
      [s[..i]] + Split(s[i + |sep|..], sep)
  }

  /**
   * The parts of a split do not contain the separator; there is more than one
   * part exactly when the text contains it, and then the first part is the
   * text before its first occurrence.
   */
  lemma {:induction false} SplitParts(s: string, sep: string)
    requires |sep| > 0
    ensures var r := Split(s, sep);
            && (forall k :: 0 <= k < |r| ==> !Contains(r[k], sep))
            && (|r| > 1 <==> Contains(s, sep))
            && (Contains(s, sep) ==> r[0] == s[..Find(s, sep)])
    decreases |s|
  {
    var i := Find(s, sep);
    if i >= 0 {
      BeforeFirstOccurrence(s, sep, i);
      SplitParts(s[i + |sep|..], sep);
    }
  }

  lemma JoinCons(head: string, tail: seq<string>, sep: string)
    requires |tail| >= 1
    ensures Join([head] + tail, sep) == head + sep + Join(tail, sep)
  {
    assert ([head] + tail)[1..] == tail;
  }

  lemma {:induction false} JoinSnoc(parts: seq<string>, last: string, sep: string)
    requires |parts| >= 1
    ensures Join(parts + [last], sep) == Join(parts, sep) + sep + last
  {
    if |parts| == 1 {
      assert parts + [last] == [parts[0]] + [last];
      JoinCons(parts[0], [last], sep);
    } else {
      var tail := parts[1..];
      assert parts + [last] == [parts[0]] + (tail + [last]);
      JoinCons(parts[0], tail + [last], sep);
      JoinSnoc(tail, last, sep);
      assert [parts[0]] + tail == parts;
      JoinCons(parts[0], tail, sep);
    }
  }

  /** Splitting and joining again with the same separator gives the text back. */
  lemma {:induction false} SplitJoin(s: string, sep: string)
    requires |sep| > 0
    ensures Join(Split(s, sep), sep) == s
    decreases |s|
  {
    var i := Find(s, sep);
    if i >= 0 {
      var rest := s[i + |sep|..];
      var tail := Split(rest, sep);
      assert Split(s, sep) == [s[..i]] + tail;
      SplitJoin(rest, sep);
      JoinCons(s[..i], tail, sep);
      assert s[i..i + |sep|] == sep;
      assert s == s[..i] + s[i..i + |sep|] + rest;
    }
  }

  lemma SplitNoSeparator(s: string, sep: string)
    requires |sep| > 0 && !Contains(s, sep)
    ensures Split(s, sep) == [s]
  {
  }

  /** Text that starts with the separator splits into an empty first part. */
  lemma SplitLeadingSeparator(sep: string, u: string)
    requires |sep| > 0
    ensures Split(sep + u, sep) == [""] + Split(u, sep)
  {
    assert (sep + u)[..|sep|] == sep;
    assert (sep + u)[|sep|..] == u;
  }

  /**
   * Joining parts that do not contain a one-character separator and splitting
   * again gives the parts back. (With a longer separator an occurrence can
   * straddle a part and the separator, so the one-character case is the one
   * that holds in general.)
   */
  lemma {:induction false} JoinSplit(parts: seq<string>, sep: string)
    requires |sep| == 1 && |parts| >= 1
    requires forall k :: 0 <= k < |parts| ==> !Contains(parts[k], sep)
    ensures Split(Join(parts, sep), sep) == parts
  {
    if |parts| > 1 {
      var s := Join(parts, sep);
      var p := parts[0];
      var rest := Join(parts[1..], sep);
      assert s == p + sep + rest;
      FindAfterFreePrefix(p, sep, rest);
      assert s[..|p|] == p;
      assert s[|p| + |sep|..] == rest;
      JoinSplit(parts[1..], sep);
    }
  }

  /** In `p + sep + rest` with the one-character `sep` absent from `p`, the first `sep` is right after `p`. */
  lemma FindAfterFreePrefix(p: string, sep: string, rest: string)
    requires |sep| == 1 && !Contains(p, sep)
    ensures Find(p + sep + rest, sep) == |p|
  {
    var s := p + sep + rest;
    assert OccursAt(s, sep, |p|);
    assert forall j :: 0 <= j < |p| ==> OccursAt(s, sep, j) == OccursAt(p, sep, j);
  }

  /** `s.replace(old, new)`: every non-overlapping occurrence, left to right. */
  function Replace(s: string, target: string, replacement: string): string
    requires |target| > 0
  {
    Join(Split(s, target), replacement)
  }

  /** Length of the leading run of non-whitespace characters. */
  function WordLength(s: string): (n: nat)
    ensures n <= |s| && NoSpace(s[..n]) && (n == |s| || IsSpace(s[n]))
  {
    if |s| == 0 || IsSpace(s[0]) then 0 else 1 + WordLength(s[1..])
  }

  /** `s.split()`: the maximal runs of non-whitespace, in order. */
  function Tokens(s: string): (r: seq<string>)
    ensures forall k :: 0 <= k < |r| ==> |r[k]| > 0 && NoSpace(r[k])
    decreases |s|
  {
    if |s| == 0 then []
    else if IsSpace(s[0]) then Tokens(s[1..])
    else
      var n := WordLength(s);
      [s[..n]] + Tokens(s[n..])
  }

  /** A word followed by whitespace (or nothing) is the whole first run of non-whitespace. */
  lemma {:induction false} WordLengthOfWord(t: string, u: string)
    requires NoSpace(t) && (|u| == 0 || IsSpace(u[0]))
    ensures WordLength(t + u) == |t|
    decreases |t|
  {
    if |t| > 0 {
      assert (t + u)[1..] == t[1..] + u;
      WordLengthOfWord(t[1..], u);
    }
  }

  lemma TokensOfWord(t: string, u: string)
    requires |t| > 0 && NoSpace(t) && (|u| == 0 || IsSpace(u[0]))
    ensures Tokens(t + u) == [t] + Tokens(u)
  {
    WordLengthOfWord(t, u);
    assert (t + u)[..|t|] == t;
    assert (t + u)[|t|..] == u;
  }

  /** Text after a word does not change the word's length when it starts with whitespace. */
  lemma {:induction false} WordLengthOfPrefix(a: string, u: string)
    requires |u| == 0 || IsSpace(u[0])
    ensures WordLength(a + u) == WordLength(a)
    decreases |a|
  {
    if |a| > 0 && !IsSpace(a[0]) {
      assert (a + u)[1..] == a[1..] + u;
      WordLengthOfPrefix(a[1..], u);
    }
  }

  /** A whitespace character separates tokens: `(a + c + b).split() == a.split() + b.split()`. */
  lemma {:induction false} TokensAtSpace(a: string, c: char, b: string)
    requires IsSpace(c)
    ensures Tokens(a + [c] + b) == Tokens(a) + Tokens(b)
    decreases |a|
  {
    var s := a + [c] + b;
    if |a| == 0 {
      assert s == [c] + b;
      assert s[1..] == b;
    } else if IsSpace(a[0]) {
      assert s[1..] == a[1..] + [c] + b;
      TokensAtSpace(a[1..], c, b);
    } else {
      var n := WordLength(a);
      WordLengthOfPrefix(a, [c] + b);
      assert s == a + ([c] + b);
      assert s[..n] == a[..n];
      assert s[n..] == a[n..] + [c] + b;
      TokensAtSpace(a[n..], c, b);
    }
  }

  /** A non-empty text without whitespace is a single token. */
  lemma {:induction false} TokensOfSingleWord(w: string)
    requires |w| > 0 && NoSpace(w)
    ensures Tokens(w) == [w]
  {
    TokensOfWord(w, "");
    assert w + "" == w;
  }

  /** `s.split() == []` exactly when `s` is empty or all whitespace. */
  lemma {:induction false} TokensOfBlank(s: string)
    ensures Tokens(s) == [] <==> Blank(s)
    decreases |s|
  {
    if |s| > 0 {
      TokensOfBlank(s[1..]);
      if IsSpace(s[0]) {
        assert Blank(s) <==> Blank(s[1..]);
      }
    }
  }

  /** `" ".join(ts).split() == ts` for non-empty words without whitespace. */
  lemma {:induction false} TokensOfJoin(ts: seq<string>)
    requires forall k :: 0 <= k < |ts| ==> |ts[k]| > 0 && NoSpace(ts[k])
    ensures Tokens(Join(ts, " ")) == ts
  {
    if |ts| == 1 {
      TokensOfWord(ts[0], "");
      assert ts[0] + "" == ts[0];
    } else if |ts| > 1 {
      var rest := Join(ts[1..], " ");
      TokensOfJoin(ts[1..]);
      TokensOfWord(ts[0], " " + rest);
      assert (" " + rest)[1..] == rest;
      assert Join(ts, " ") == ts[0] + (" " + rest);
    }
  }

  /** `[c] in s` exactly when the character `c` is in `s`. */
  lemma ContainsChar(s: string, c: char)
    ensures Contains(s, [c]) <==> c in s
  {
    var r := Find(s, [c]);
    if r >= 0 {
      assert s[r..r + 1][0] == s[r];
    }
    if c in s {
      var i :| 0 <= i < |s| && s[i] == c;
      assert OccursAt(s, [c], i);
    }
  }

  /** A text cannot contain a substring holding a character the text lacks. */
  lemma MissingChar(s: string, sub: string, i: nat)
    requires i < |sub| && sub[i] !in s
    ensures !Contains(s, sub)
  {
  }

  /** A text contains whatever sits inside it. */
  lemma ContainsMiddle(a: string, t: string, b: string)
    ensures Contains(a + t + b, t)
  {
    assert (a + t + b)[|a|..|a| + |t|] == t;
    assert OccursAt(a + t + b, t, |a|);
  }

  predicate IsDigit(c: char) {
    '0' <= c <= '9'
  }

  predicate AllDigits(s: string) {
    forall i :: 0 <= i < |s| ==> IsDigit(s[i])
  }

  function DigitChar(d: nat): char
    requires d < 10
  {
    ('0' as int + d) as char
  }

  /** The value of a string of decimal digits. */
  function DigitsValue(s: string): nat
    requires AllDigits(s)
  {
    if |s| == 0 then 0
    else DigitsValue(s[..|s| - 1]) * 10 + (s[|s| - 1] as int - '0' as int)
  }

  /** `str(n)` for a natural number. */
  function NatToString(n: nat): (r: string)
    ensures |r| > 0 && AllDigits(r)
    decreases n
  {
    if n < 10 then [DigitChar(n)] else NatToString(n / 10) + [DigitChar(n % 10)]
  }

  /** `str(i)` for an integer. */
  function IntToString(i: int): (r: string)
    ensures |r| > 0 && NoSpace(r)
    ensures forall k :: 0 <= k < |r| ==> IsDigit(r[k]) || r[k] == '-'
  {
    if i < 0 then "-" + NatToString(-i) else NatToString(i)
  }

  lemma {:induction false} DigitsValueOfNatToString(n: nat)
    ensures DigitsValue(NatToString(n)) == n
    decreases n
  {
    if n >= 10 {
      DigitsValueOfNatToString(n / 10);
      var s := NatToString(n);
      assert s[..|s| - 1] == NatToString(n / 10);
    }
  }

  /** The text after one optional leading sign. */
  function Unsigned(t: string): string {
    if |t| > 0 && (t[0] == '-' || t[0] == '+') then t[1..] else t
  }

  /**
   * The digits `int()` reads: the text inside the surrounding whitespace, after
   * one optional sign and any whitespace that follows the sign.
   */
  function Magnitude(s: string): string {
    StripLeft(Unsigned(Strip(s)))
  }

  /** What `int()` accepts: optional surrounding whitespace, one optional sign, then decimal digits. */
  predicate IsIntLiteral(s: string) {
    var body := Magnitude(s);
    |body| > 0 && AllDigits(body)
  }

  /**
   * `int(s)` in base 10: surrounding whitespace is ignored, then one optional
   * sign, optional whitespace, and at least one decimal digit; anything else
   * raises ValueError.
   */
  function ParseInt(s: string): (r: Result<int>)
    ensures r.Ok? <==> IsIntLiteral(s)
  {
    var t := Strip(s);
    var body := Magnitude(s);
    if |body| > 0 && AllDigits(body) then
      var magnitude: int := DigitsValue(body);
      Ok(if |t| > 0 && t[0] == '-' then -magnitude else magnitude)
    else
      Err(ValueError("invalid literal for int() with base 10: '" + s + "'"))
  }

  lemma ParseIntOfDigits(s: string, digits: string, negative: bool)
    requires |digits| > 0 && AllDigits(digits)
    requires s == if negative then "-" + digits else digits
    ensures ParseInt(s) == Ok(if negative then -(DigitsValue(digits) as int) else DigitsValue(digits))
  {
    SignedDigits(s, digits, negative);
    StripNoSpace(s);
    assert Strip(s) == s;
    assert StripLeft(digits) == digits;
  }

  /** A sign and digits contain no whitespace, and the sign is what `Unsigned` drops. */
  lemma SignedDigits(s: string, digits: string, negative: bool)
    requires AllDigits(digits)
    requires s == if negative then "-" + digits else digits
    ensures NoSpace(s) && Unsigned(s) == digits
    ensures negative <==> |s| > 0 && s[0] == '-'
  {
    if negative {
      assert s[1..] == digits;
    }
  }

  /** Whitespace between the sign and the digits is skipped: `int("- 5") == -5`. */
  lemma ParseIntSpaceAfterSign()
    ensures ParseInt("- 5") == Ok(-5) && ParseInt(" + 7 ") == Ok(7)
  {
    assert Strip("- 5") == "- 5";
    assert Unsigned("- 5") == " 5";
    assert StripLeft(" 5") == "5";
    assert DigitsValue("5") == 5;
    assert Strip(" + 7 ") == "+ 7";
    assert Unsigned("+ 7") == " 7";
    assert StripLeft(" 7") == "7";
    assert DigitsValue("7") == 7;
  }

  /** Only one sign, and no whitespace inside the digits. */
  lemma ParseIntRejectsInnerSpace()
    ensures ParseInt("5 5").Err? && ParseInt("- -5").Err?
  {
    assert Strip("5 5") == "5 5";
    assert Strip("- -5") == "- -5";
    assert StripLeft(" -5") == "-5";
  }

  /** `int(str(i)) == i` */
  lemma ParseIntToString(i: int)
    ensures ParseInt(IntToString(i)) == Ok(i)
  {
    var n: nat := if i < 0 then -i else i;
    DigitsValueOfNatToString(n);
    ParseIntOfDigits(IntToString(i), NatToString(n), i < 0);
  }

  /** `"{0}".format(v)` for the scalar values a JSON reply carries. */
  function Show(v: Value): string {
    match v
    case Null => "None"
    case Bool(b) => if b then "True" else "False"
    case Int(i) => IntToString(i)
    case Str(t) => t
    case _ => ""
  }
}
