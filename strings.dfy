/**
 * The Python `str` operations the application relies on, over `seq<char>`:
 * `startswith`, `endswith`, `in`, `lower`, `split` on one character, `join`,
 * `strip` and `splitlines`.
 */
module Strings {

  /** `s.startswith(p)` */
  predicate StartsWith(s: string, p: string) {
    |p| <= |s| && s[..|p|] == p
  }

  /** `s.endswith(p)` */
  predicate EndsWith(s: string, p: string) {
    |p| <= |s| && s[|s| - |p|..] == p
  }

  /** `p in s`: p occurs as a contiguous piece of s (the empty string occurs in every string). */
  predicate Contains(s: string, p: string)
    decreases |s|
  {
    StartsWith(s, p) || (s != [] && Contains(s[1..], p))
  }

  /** p occurs in s starting at index i. */
  predicate OccursAt(s: string, p: string, i: int) {
    0 <= i <= |s| - |p| && s[i..i + |p|] == p
  }

  /** Contains is exactly "p occurs at some index of s". */
  lemma {:induction false} ContainsAt(s: string, p: string)
    ensures Contains(s, p) <==> exists i :: OccursAt(s, p, i)
    decreases |s|
  {
    if StartsWith(s, p) {
      assert OccursAt(s, p, 0);
    } else if s != [] {
      ContainsAt(s[1..], p);
      if Contains(s[1..], p) {
        var i :| OccursAt(s[1..], p, i);
        assert s[i + 1..i + 1 + |p|] == s[1..][i..i + |p|];
        assert OccursAt(s, p, i + 1);
      }
      if exists i :: OccursAt(s, p, i) {
        var i :| OccursAt(s, p, i);
        assert i != 0;
        assert s[1..][i - 1..i - 1 + |p|] == s[i..i + |p|];
        assert OccursAt(s[1..], p, i - 1);
      }
    }
  }

  // ---------------------------------------------------------------- lower()

  /** `c.lower()` for ASCII letters; every other character is left as it is. */
  function LowerChar(c: char): char {
    if 'A' <= c <= 'Z' then (c as int + 32) as char else c
  }

  /** `s.lower()`, character by character. */
  function Lower(s: string): string {
    seq(|s|, i requires 0 <= i < |s| => LowerChar(s[i]))
  }

  /** No ASCII upper-case letter occurs in s. */
  predicate IsLower(s: string) {
    forall i :: 0 <= i < |s| ==> !('A' <= s[i] <= 'Z')
  }

  // ------------------------------------------------------- split() and join()

  /**
   * `s.split(sep)` for a one-character separator: the pieces between
   * separators, in order, including empty ones; never an empty list.
   */
  function Split(s: string, sep: char): (parts: seq<string>)
    ensures |parts| >= 1
    decreases |s|
  {
    if s == [] then [""]
    else
      var rest := Split(s[1..], sep);
      if s[0] == sep then [""] + rest
      else [[s[0]] + rest[0]] + rest[1..]
  }

  /** `sep.join(parts)` */
  function Join(parts: seq<string>, sep: string): string
    decreases |parts|
  {
    if parts == [] then ""
    else if |parts| == 1 then parts[0]
    else parts[0] + sep + Join(parts[1..], sep)
  }

  /** A string contains its own prefixes. */
  lemma ContainsPrefix(a: string, b: string)
    ensures Contains(a + b, a)
  {
    assert (a + b)[..|a|] == a;
  }

  /** Whatever occurs in the tail of a string occurs in the string. */
  lemma {:induction false} ContainsInSuffix(a: string, b: string, p: string)
    requires Contains(b, p)
    ensures Contains(a + b, p)
    decreases |a|
  {
    if a == [] {
      assert a + b == b;
    } else {
      assert (a + b)[1..] == a[1..] + b;
      ContainsInSuffix(a[1..], b, p);
    }
  }

  /** A join begins with its first part. */
  lemma JoinStartsWithFirst(parts: seq<string>, sep: string)
    requires parts != []
    ensures StartsWith(Join(parts, sep), parts[0])
  {
    if |parts| > 1 {
      assert Join(parts, sep) == parts[0] + (sep + Join(parts[1..], sep));
      ContainsPrefix(parts[0], sep + Join(parts[1..], sep));
    }
  }

  /** A join ends with its last part. */
  lemma {:induction false} JoinEndsWithLast(parts: seq<string>, sep: string)
    requires parts != []
    ensures EndsWith(Join(parts, sep), parts[|parts| - 1])
    decreases |parts|
  {
    if |parts| > 1 {
      var rest := Join(parts[1..], sep);
      JoinEndsWithLast(parts[1..], sep);
      assert Join(parts, sep) == (parts[0] + sep) + rest;
      var j := Join(parts, sep);
      var last := parts[|parts| - 1];
      assert j[|j| - |last|..] == rest[|rest| - |last|..];
    }
  }

  /** Every part of a join occurs in the joined string. */
  lemma {:induction false} JoinContainsParts(parts: seq<string>, sep: string)
    ensures forall k :: 0 <= k < |parts| ==> Contains(Join(parts, sep), parts[k])
    decreases |parts|
  {
    if |parts| == 1 {
      assert Join(parts, sep)[..|parts[0]|] == parts[0];
    } else if |parts| > 1 {
      var rest := Join(parts[1..], sep);
      JoinContainsParts(parts[1..], sep);
      assert Join(parts, sep) == parts[0] + (sep + rest);
      assert Join(parts, sep) == (parts[0] + sep) + rest;
      forall k | 0 <= k < |parts|
        ensures Contains(Join(parts, sep), parts[k])
      {
        if k == 0 {
          ContainsPrefix(parts[0], sep + rest);
        } else {
          assert parts[k] == parts[1..][k - 1];
          ContainsInSuffix(parts[0] + sep, rest, parts[k]);
        }
      }
    }
  }

  /** Joining the pieces of a split with the separator gives back the string. */
  lemma {:induction false} JoinSplit(s: string, sep: char)
    ensures Join(Split(s, sep), [sep]) == s
    decreases |s|
  {
    if s != [] {
      var rest := Split(s[1..], sep);
      JoinSplit(s[1..], sep);
      if s[0] == sep {
        assert ([""] + rest)[1..] == rest;
      } else {
        JoinPrepend(s[0], rest, [sep]);
      }
      assert [s[0]] + s[1..] == s;
    }
  }

  /** Prepending a character to the first piece prepends it to the joined string. */
  lemma JoinPrepend(c: char, rest: seq<string>, sep: string)
    requires |rest| >= 1
    ensures Join([[c] + rest[0]] + rest[1..], sep) == [c] + Join(rest, sep)
  {
    var parts := [[c] + rest[0]] + rest[1..];
    if |rest| > 1 {
      assert parts[1..] == rest[1..];
      calc {
        Join(parts, sep);
        ([c] + rest[0]) + sep + Join(rest[1..], sep);
        [c] + (rest[0] + sep + Join(rest[1..], sep));
      }
    }
  }

  /** A split has one more piece than the string has separators, and no piece holds one. */
  lemma {:induction false} SplitPieces(s: string, sep: char)
    ensures |Split(s, sep)| == multiset(s)[sep] + 1
    ensures forall k :: 0 <= k < |Split(s, sep)| ==> sep !in Split(s, sep)[k]
    decreases |s|
  {
    if s != [] {
      SplitPieces(s[1..], sep);
      assert s == [s[0]] + s[1..];
      assert multiset(s) == multiset{s[0]} + multiset(s[1..]);
    }
  }

  /** The last piece of a split is the longest suffix of s that holds no separator. */
  lemma {:induction false} SplitLast(s: string, sep: char)
    ensures var r := Split(s, sep)[|Split(s, sep)| - 1];
      sep !in r && EndsWith(s, r) && (|r| < |s| ==> s[|s| - |r| - 1] == sep)
    decreases |s|
  {
    if s != [] {
      var rest := Split(s[1..], sep);
      SplitLast(s[1..], sep);
      if s[0] != sep && |rest| == 1 {
        SplitOnePiece(s, sep);
      } else {
        var r := rest[|rest| - 1];
        SuffixOfTail(s, r, sep);
        if s[0] != sep && |r| == |s| - 1 {
          SplitPieces(s[1..], sep);
          assert false;
        }
        SplitLastOfTail(s, sep);
      }
    }
  }

  /** A string whose tail splits into one piece, and which does not start with the separator, is one piece. */
  lemma SplitOnePiece(s: string, sep: char)
    requires s != [] && s[0] != sep && |Split(s[1..], sep)| == 1
    requires var r := Split(s[1..], sep)[0]; sep !in r
    ensures Split(s, sep) == [s] && sep !in s
  {
    JoinSplit(s[1..], sep);
    assert [s[0]] + s[1..] == s;
  }

  /** When s starts with the separator or its tail splits into several pieces, the last piece is that of the tail. */
  lemma SplitLastOfTail(s: string, sep: char)
    requires s != [] && (s[0] == sep || |Split(s[1..], sep)| > 1)
    ensures var parts, rest := Split(s, sep), Split(s[1..], sep);
      parts[|parts| - 1] == rest[|rest| - 1]
  {
  }

  /** A suffix of the tail is a suffix of the string, with the character before it at the same place. */
  lemma SuffixOfTail(s: string, r: string, sep: char)
    requires s != [] && EndsWith(s[1..], r)
    requires |r| < |s| - 1 ==> s[1..][|s[1..]| - |r| - 1] == sep
    ensures EndsWith(s, r) && (|r| < |s| - 1 ==> s[|s| - |r| - 1] == sep)
    ensures |r| == |s| - 1 ==> r == s[1..]
  {
    assert s[|s| - |r|..] == s[1..][|s[1..]| - |r|..];
  }

  /** The last piece is all of s exactly when s holds no separator. */
  lemma SplitLastIsWhole(s: string, sep: char)
    ensures var r := Split(s, sep)[|Split(s, sep)| - 1];
      |r| <= |s| && (sep in s <==> |r| < |s|)
  {
    var r := Split(s, sep)[|Split(s, sep)| - 1];
    SplitLast(s, sep);
    if |r| < |s| {
      assert s[|s| - |r| - 1] in s;
    } else {
      assert s[0..] == s;
    }
  }

  // ---------------------------------------------------------------- strip()

  /** Python's `c.isspace()`. */
  predicate IsSpace(c: char) {
    || c == ' '
    || '\t' <= c <= '\r'
    || '\U{1C}' <= c <= '\U{1F}'
    || c == '\U{85}' || c == '\U{A0}' || c == '\U{1680}'
    || '\U{2000}' <= c <= '\U{200A}'
    || c == '\U{2028}' || c == '\U{2029}' || c == '\U{202F}' || c == '\U{205F}' || c == '\U{3000}'
  }

  /** `s.lstrip()`: drops the leading whitespace and nothing else. */
  function TrimStart(s: string): (r: string)
    ensures |r| <= |s| && r == s[|s| - |r|..]
    ensures forall k :: 0 <= k < |s| - |r| ==> IsSpace(s[k])
    ensures r != [] ==> !IsSpace(r[0])
    decreases |s|
  {
    if s != [] && IsSpace(s[0]) then TrimStart(s[1..]) else s
  }

  /** `s.rstrip()`: drops the trailing whitespace and nothing else. */
  function TrimEnd(s: string): (r: string)
    ensures |r| <= |s| && r == s[..|r|]
    ensures forall k :: |r| <= k < |s| ==> IsSpace(s[k])
    ensures r != [] ==> !IsSpace(r[|r| - 1])
    decreases |s|
  {
    if s != [] && IsSpace(s[|s| - 1]) then TrimEnd(s[..|s| - 1]) else s
  }

  /** Neither end of s is whitespace. */
  predicate IsStripped(s: string) {
    s == [] || (!IsSpace(s[0]) && !IsSpace(s[|s| - 1]))
  }

  /** r is the piece of s at index i, and everything of s around it is whitespace. */
  predicate WhitespaceAround(s: string, i: int, r: string) {
    && 0 <= i <= |s| - |r| && r == s[i..i + |r|]
    && (forall k :: 0 <= k < i ==> IsSpace(s[k]))
    && (forall k :: i + |r| <= k < |s| ==> IsSpace(s[k]))
  }

  /** `s.strip()`: the middle of s left once whitespace is dropped at both ends. */
  function Strip(s: string): (r: string)
    ensures IsStripped(r)
  {
    TrimEnd(TrimStart(s))
  }

  /** What `strip()` drops is whitespace at the two ends, and only that. */
  lemma StripKeepsMiddle(s: string)
    ensures exists i :: WhitespaceAround(s, i, Strip(s))
  {
    var t := TrimStart(s);
    TrimmedAround(s, t, TrimEnd(t));
    assert WhitespaceAround(s, |s| - |t|, Strip(s));
  }

  /** Dropping whitespace from the front of s, giving t, then from the back of t, giving r, leaves r amid whitespace. */
  lemma TrimmedAround(s: string, t: string, r: string)
    requires |t| <= |s| && t == s[|s| - |t|..] && forall k :: 0 <= k < |s| - |t| ==> IsSpace(s[k])
    requires |r| <= |t| && r == t[..|r|] && forall k :: |r| <= k < |t| ==> IsSpace(t[k])
    ensures WhitespaceAround(s, |s| - |t|, r)
  {
    var i := |s| - |t|;
    assert r == s[i..i + |r|];
    forall k | i + |r| <= k < |s|
      ensures IsSpace(s[k])
    {
      assert s[k] == t[k - i];
    }
  }

  /** A string with no whitespace at either end is its own strip. */
  lemma StrippedIsFixpoint(s: string)
    requires IsStripped(s)
    ensures Strip(s) == s
  {
    assert TrimStart(s) == s;
    assert TrimEnd(s) == s;
  }

  /** s is whitespace only. */
  predicate IsBlank(s: string) {
    forall k :: 0 <= k < |s| ==> IsSpace(s[k])
  }

  /** `strip()` leaves nothing exactly of a string that is whitespace only. */
  lemma StripEmptyIffBlank(s: string)
    ensures Strip(s) == "" <==> IsBlank(s)
  {
    StripKeepsMiddle(s);
    var i :| WhitespaceAround(s, i, Strip(s));
    if Strip(s) == "" {
      assert forall k :: 0 <= k < |s| ==> IsSpace(s[k]);
    } else {
      assert s[i] == Strip(s)[0];
    }
  }

  // ----------------------------------------------------------- splitlines()

  /** The line boundaries of Python's `str.splitlines()`. */
  predicate IsLineBreak(c: char) {
    || c == '\n' || c == '\r' || c == '\U{0B}' || c == '\U{0C}'
    || c == '\U{1C}' || c == '\U{1D}' || c == '\U{1E}' || c == '\U{85}'
    || c == '\U{2028}' || c == '\U{2029}'
  }

  /** The index of the first line boundary in s, or |s| when there is none. */
  function LineEnd(s: string): (i: nat)
    ensures i <= |s|
    ensures forall k :: 0 <= k < i ==> !IsLineBreak(s[k])
    ensures i < |s| ==> IsLineBreak(s[i])
    decreases |s|
  {
    if s == [] || IsLineBreak(s[0]) then 0 else 1 + LineEnd(s[1..])
  }

  /**
   * `s.splitlines()`: the lines of s without their boundaries, `\r\n` counting
   * as one boundary; a final boundary does not open an empty last line.
   */
  function SplitLines(s: string): (lines: seq<string>)
    ensures forall j, k :: 0 <= j < |lines| && 0 <= k < |lines[j]| ==> !IsLineBreak(lines[j][k])
    decreases |s|
  {
    if s == [] then []
    else
      var i := LineEnd(s);
      if i == |s| then [s]
      else
        var next := if s[i] == '\r' && i + 1 < |s| && s[i + 1] == '\n' then i + 2 else i + 1;
        [s[..i]] + SplitLines(s[next..])
  }

  /** The characters of s that are not line boundaries, in order. */
  function TextOf(s: string): string
    decreases |s|
  {
    if s == [] then [] else (if IsLineBreak(s[0]) then [] else [s[0]]) + TextOf(s[1..])
  }

  /** Concatenation of a list of lines. */
  function Concat(lines: seq<string>): string
    decreases |lines|
  {
    if lines == [] then [] else lines[0] + Concat(lines[1..])
  }

  lemma {:induction false} TextOfAppend(a: string, b: string)
    ensures TextOf(a + b) == TextOf(a) + TextOf(b)
    decreases |a|
  {
    if a == [] {
      assert a + b == b;
    } else {
      assert (a + b)[0] == a[0];
      assert (a + b)[1..] == a[1..] + b;
      TextOfAppend(a[1..], b);
    }
  }

  lemma {:induction false} TextOfPlain(s: string)
    requires forall k :: 0 <= k < |s| ==> !IsLineBreak(s[k])
    ensures TextOf(s) == s
    decreases |s|
  {
    if s != [] {
      TextOfPlain(s[1..]);
    }
  }

  lemma TextOfBreak(t: string)
    requires t != [] && IsLineBreak(t[0])
    ensures TextOf(t) == TextOf(t[1..])
  {
  }

  /** Splitting into lines loses only the line boundaries: every other character survives, in order. */
  lemma {:induction false} SplitLinesKeepsText(s: string)
    ensures Concat(SplitLines(s)) == TextOf(s)
    decreases |s|
  {
    if s != [] {
      var i := LineEnd(s);
      if i == |s| {
        TextOfPlain(s);
        assert Concat([s]) == s + Concat([]);
      } else {
        var next := if s[i] == '\r' && i + 1 < |s| && s[i + 1] == '\n' then i + 2 else i + 1;
        SplitLinesKeepsText(s[next..]);
        assert s == s[..i] + s[i..];
        TextOfAppend(s[..i], s[i..]);
        TextOfPlain(s[..i]);
        TextOfBreak(s[i..]);
        assert s[i..][1..] == s[i + 1..];
        if next == i + 2 {
          TextOfBreak(s[i + 1..]);
          assert s[i + 1..][1..] == s[next..];
        }
        assert TextOf(s[i..]) == TextOf(s[next..]);
        var lines := SplitLines(s);
        assert lines[0] == s[..i] && lines[1..] == SplitLines(s[next..]);
      }
    }
  }

  /** No character of s is a line boundary. */
  predicate IsOneLine(s: string) {
    forall k :: 0 <= k < |s| ==> !IsLineBreak(s[k])
  }

  /** The first boundary of a line followed by a boundary is at the line's end. */
  lemma {:induction false} LineEndOfLine(a: string, b: char, rest: string)
    requires IsOneLine(a) && IsLineBreak(b)
    ensures LineEnd(a + [b] + rest) == |a|
    decreases |a|
  {
    if a == [] {
      assert (a + [b] + rest)[0] == b;
    } else {
      assert (a + [b] + rest)[1..] == a[1..] + [b] + rest;
      LineEndOfLine(a[1..], b, rest);
    }
  }

  /**
   * Joining non-empty lines with `\n` and splitting the result into lines
   * gives the lines back.
   */
  lemma {:induction false} SplitLinesJoin(lines: seq<string>)
    requires forall j :: 0 <= j < |lines| ==> lines[j] != "" && IsOneLine(lines[j])
    ensures SplitLines(Join(lines, "\n")) == lines
    decreases |lines|
  {
    if |lines| == 1 {
      assert LineEnd(lines[0]) == |lines[0]|;
    } else if |lines| > 1 {
      var rest := Join(lines[1..], "\n");
      var s := Join(lines, "\n");
      assert s == lines[0] + ['\n'] + rest;
      LineEndOfLine(lines[0], '\n', rest);
      assert s[..|lines[0]|] == lines[0];
      assert s[|lines[0]| + 1..] == rest;
      SplitLinesJoin(lines[1..]);
    }
  }

  /** Every line boundary counts as whitespace. */
  lemma LineBreakIsSpace(c: char)
    requires IsLineBreak(c)
    ensures IsSpace(c)
  {
  }

  lemma {:induction false} BlankTextOf(s: string)
    ensures IsBlank(TextOf(s)) <==> IsBlank(s)
    decreases |s|
  {
    if s != [] {
      BlankTextOf(s[1..]);
      var head := if IsLineBreak(s[0]) then [] else [s[0]];
      assert TextOf(s) == head + TextOf(s[1..]);
      if IsLineBreak(s[0]) {
        LineBreakIsSpace(s[0]);
      }
      if IsBlank(s[1..]) && IsSpace(s[0]) {
        assert forall k :: 0 <= k < |s| ==> k == 0 || s[k] == s[1..][k - 1];
      }
      if IsBlank(TextOf(s)) {
        assert forall k :: 0 <= k < |TextOf(s[1..])| ==> TextOf(s[1..])[k] == TextOf(s)[|head| + k];
        if head != [] {
          assert TextOf(s)[0] == s[0];
        }
      }
    }
  }

  lemma {:induction false} BlankConcat(lines: seq<string>)
    ensures IsBlank(Concat(lines)) <==> forall j :: 0 <= j < |lines| ==> IsBlank(lines[j])
    decreases |lines|
  {
    if lines != [] {
      BlankConcat(lines[1..]);
      var c := Concat(lines);
      var rest := Concat(lines[1..]);
      assert c == lines[0] + rest;
      if IsBlank(c) {
        assert forall k :: 0 <= k < |lines[0]| ==> lines[0][k] == c[k];
        assert forall k :: 0 <= k < |rest| ==> rest[k] == c[|lines[0]| + k];
      }
      if forall j :: 0 <= j < |lines| ==> IsBlank(lines[j]) {
        assert IsBlank(lines[0]);
        assert forall j :: 0 <= j < |lines| - 1 ==> lines[1..][j] == lines[j + 1];
      }
    }
  }
}
