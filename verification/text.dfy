/** The few Python `str` operations the bot relies on, written over `seq<char>`:
    `strip`, `lower`/`upper` (ASCII letters only), `startswith`/`endswith`,
    the `in` substring test, `"\n".split(...)[0]`, `rsplit(" ", 1)[0]`,
    `sep.join(parts)` and prefix slicing `s[:n]`. */
module Text {

  /** Python's `str.isspace()` for one character: the Unicode White_Space
      characters plus the ASCII separators U+001C..U+001F. */
  predicate IsSpace(c: char) {
    ('\U{9}' <= c <= '\U{D}') || ('\U{1C}' <= c <= '\U{20}') || c == '\U{85}' || c == '\U{A0}'
    || c == '\U{1680}' || ('\U{2000}' <= c <= '\U{200A}') || c == '\U{2028}' || c == '\U{2029}'
    || c == '\U{202F}' || c == '\U{205F}' || c == '\U{3000}'
  }

  /** `s.lstrip()`: drops the leading whitespace and nothing else. */
  function TrimStart(s: string): (r: string)
    ensures |r| <= |s| && r == s[|s| - |r|..]
    ensures forall i :: 0 <= i < |s| - |r| ==> IsSpace(s[i])
    ensures |r| > 0 ==> !IsSpace(r[0])
  {
    if |s| > 0 && IsSpace(s[0]) then TrimStart(s[1..]) else s
  }

  /** `s.rstrip()`: drops the trailing whitespace and nothing else. */
  function TrimEnd(s: string): (r: string)
    ensures |r| <= |s| && r == s[..|r|]
    ensures forall i :: |r| <= i < |s| ==> IsSpace(s[i])
    ensures |r| > 0 ==> !IsSpace(r[|r| - 1])
  {
    if |s| > 0 && IsSpace(s[|s| - 1]) then TrimEnd(s[..|s| - 1]) else s
  }

  /** `s.strip()`. */
  function Strip(s: string): string {
    TrimEnd(TrimStart(s))
  }

  predicate StartsWith(s: string, prefix: string) {
    |prefix| <= |s| && s[..|prefix|] == prefix
  }

  predicate EndsWith(s: string, suffix: string) {
    |suffix| <= |s| && s[|s| - |suffix|..] == suffix
  }

  /** `sub` occurs in `s` starting at index `i`. */
  predicate OccursAt(s: string, sub: string, i: int) {
    0 <= i <= |s| - |sub| && s[i..i + |sub|] == sub
  }

  /** Python's `sub in s`. */
  predicate Contains(s: string, sub: string) {
    exists i :: 0 <= i <= |s| - |sub| && OccursAt(s, sub, i)
  }

  function LowerChar(c: char): char {
    if 'A' <= c <= 'Z' then (c as int + 32) as char else c
  }

  function UpperChar(c: char): char {
    if 'a' <= c <= 'z' then (c as int - 32) as char else c
  }

  function Lower(s: string): (r: string)
    ensures |r| == |s| && forall i :: 0 <= i < |s| ==> r[i] == LowerChar(s[i])
  {
    seq(|s|, i requires 0 <= i < |s| => LowerChar(s[i]))
  }

  function Upper(s: string): (r: string)
    ensures |r| == |s| && forall i :: 0 <= i < |s| ==> r[i] == UpperChar(s[i])
  {
    seq(|s|, i requires 0 <= i < |s| => UpperChar(s[i]))
  }

  /** `s[:n]` for a non-negative `n`. */
  function Prefix(s: string, n: nat): (r: string)
    ensures |r| == if n < |s| then n else |s|
    ensures StartsWith(s, r)
  {
    if n < |s| then s[..n] else s
  }

  /** `s.split("\n")[0]`: everything before the first line break. */
  function FirstLine(s: string): (r: string)
    ensures StartsWith(s, r)
    ensures forall i :: 0 <= i < |r| ==> r[i] != '\n'
    ensures |r| < |s| ==> s[|r|] == '\n'
  {
    if |s| == 0 || s[0] == '\n' then "" else [s[0]] + FirstLine(s[1..])
  }

  /** `s.rsplit(" ", 1)[0]`: everything before the last space, or all of `s`
      when it has no space. */
  function BeforeLastSpace(s: string): (r: string)
    ensures StartsWith(s, r)
    ensures |r| < |s| ==> s[|r|] == ' ' && forall i :: |r| < i < |s| ==> s[i] != ' '
    ensures |r| == |s| ==> forall i :: 0 <= i < |s| ==> s[i] != ' '
  {
    if |s| == 0 then ""
    else if s[|s| - 1] == ' ' then s[..|s| - 1]
    else
      var r := BeforeLastSpace(s[..|s| - 1]);
      if |r| == |s| - 1 then s else r
  }

  /** `sep.join(parts)`. */
  function Join(sep: string, parts: seq<string>): string
  {
    if |parts| == 0 then ""
    else if |parts| == 1 then parts[0]
    else parts[0] + sep + Join(sep, parts[1..])
  }

  /** Joining keeps the parts in order: appending a part appends the separator
      and that part. */
  lemma {:induction false} JoinAppend(sep: string, parts: seq<string>, p: string)
    requires |parts| > 0
    ensures Join(sep, parts + [p]) == Join(sep, parts) + sep + p
  {
    if |parts| == 1 {
      assert parts + [p] == [parts[0], p];
      assert (parts + [p])[1..] == [p];
    } else {
      assert (parts + [p])[1..] == parts[1..] + [p];
      JoinAppend(sep, parts[1..], p);
    }
  }

  /** Upper-casing ignores any earlier lower-casing. */
  lemma UpperOfLower(s: string)
    ensures Upper(Lower(s)) == Upper(s)
  {
    forall i | 0 <= i < |s|
      ensures Upper(Lower(s))[i] == Upper(s)[i]
    {
      var c := s[i];
      if 'A' <= c <= 'Z' {
        assert LowerChar(c) as int == c as int + 32;
      }
    }
  }

  /** Upper-casing twice is upper-casing once. */
  lemma UpperIdempotent(s: string)
    ensures Upper(Upper(s)) == Upper(s)
  {
    forall i | 0 <= i < |s|
      ensures Upper(Upper(s))[i] == Upper(s)[i]
    {
      var c := s[i];
      if 'a' <= c <= 'z' {
        assert UpperChar(c) as int == c as int - 32;
      }
    }
  }

  /** The last part of a join is its tail. */
  lemma {:induction false} JoinEndsWithLast(sep: string, parts: seq<string>)
    requires |parts| > 0
    ensures EndsWith(Join(sep, parts), parts[|parts| - 1])
  {
    if |parts| > 1 {
      JoinAppend(sep, parts[..|parts| - 1], parts[|parts| - 1]);
      assert parts[..|parts| - 1] + [parts[|parts| - 1]] == parts;
    }
  }

  /** A substring of `s` stays a substring once both are lower-cased. */
  lemma ContainsLower(s: string, sub: string)
    requires Contains(s, sub)
    ensures Contains(Lower(s), Lower(sub))
  {
    var i :| 0 <= i <= |s| - |sub| && OccursAt(s, sub, i);
    assert Lower(s)[i..i + |sub|] == Lower(sub);
    assert OccursAt(Lower(s), Lower(sub), i);
  }

  /** Stripping a text whose first visible character is `c` gives a text that
      starts with `c`, whatever follows it. */
  lemma {:induction false} StripKeepsHead(s: string, tail: string)
    requires |Strip(s)| > 0
    ensures |Strip(s + tail)| > 0 && Strip(s + tail)[0] == Strip(s)[0]
  {
    TrimStartAppend(s, tail);
    var t := TrimStart(s);
    assert |t| > 0 && Strip(s)[0] == t[0];
    TrimEndKeepsHead(t + tail);
  }

  /** When `s` has a visible character, left-stripping `s + tail` only touches `s`. */
  lemma {:induction false} TrimStartAppend(s: string, tail: string)
    requires |TrimStart(s)| > 0
    ensures TrimStart(s + tail) == TrimStart(s) + tail
  {
    if IsSpace(s[0]) {
      assert (s + tail)[1..] == s[1..] + tail;
      TrimStartAppend(s[1..], tail);
    }
  }

  /** Right-stripping never removes a visible first character. */
  lemma TrimEndKeepsHead(s: string)
    requires |s| > 0 && !IsSpace(s[0])
    ensures |TrimEnd(s)| > 0 && TrimEnd(s)[0] == s[0]
  {
  }

  /** A text that starts with a visible character `c` still starts with `c`
      after stripping, whatever follows. */
  lemma StripVisibleHead(c: char, rest: string)
    requires !IsSpace(c)
    ensures |Strip([c] + rest)| > 0 && Strip([c] + rest)[0] == c
  {
    TrimEndKeepsHead([c] + rest);
  }
}
