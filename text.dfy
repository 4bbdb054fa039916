/** The Python `str` built-ins the core relies on, over `seq<char>`: `splitlines`,
    `strip`/`lstrip`, `startswith`, the `in` substring test and case mapping. */
module Text {

  /** `str.isspace()` for one character (the characters CPython 3.12 reports as whitespace). */
  predicate IsSpace(c: char) {
    ('\t' <= c <= '\r') || ('\U{1C}' <= c <= '\U{1F}') || c == ' ' || c == '\U{85}'
    || c == '\U{A0}' || c == '\U{1680}' || ('\U{2000}' <= c <= '\U{200A}')
    || c == '\U{2028}' || c == '\U{2029}' || c == '\U{202F}' || c == '\U{205F}' || c == '\U{3000}'
  }

  /** A line boundary for `str.splitlines()`: \n, \v, \f, \r, the file, group and
      record separators, NEL, LINE SEPARATOR and PARAGRAPH SEPARATOR. */
  predicate IsLineBreak(c: char) {
    ('\n' <= c <= '\r') || ('\U{1C}' <= c <= '\U{1E}') || c == '\U{85}' || c == '\U{2028}' || c == '\U{2029}'
  }

  predicate NoLineBreak(s: string) {
    forall i :: 0 <= i < |s| ==> !IsLineBreak(s[i])
  }

  lemma NoLineBreakConcat(a: string, b: string)
    requires NoLineBreak(a) && NoLineBreak(b)
    ensures NoLineBreak(a + b)
  {
    assert forall i :: |a| <= i < |a + b| ==> (a + b)[i] == b[i - |a|];
  }

  /** `s.startswith(p)` */
  predicate StartsWith(s: string, p: string) {
    |p| <= |s| && s[..|p|] == p
  }

  /** `sub in s` */
  predicate Contains(s: string, sub: string)
    decreases |s|
  {
    StartsWith(s, sub) || (s != [] && Contains(s[1..], sub))
  }

  /** `sub` stands in `s` at position `i`. */
  predicate OccursAt(s: string, sub: string, i: nat) {
    i + |sub| <= |s| && s[i..i + |sub|] == sub
  }

  /** The substring test holds exactly when `sub` stands at some position of `s`. */
  lemma {:induction false} ContainsIff(s: string, sub: string)
    ensures Contains(s, sub) <==> exists i: nat :: OccursAt(s, sub, i)
    decreases |s|
  {
    if s != [] {
      ContainsIff(s[1..], sub);
      if exists i: nat :: OccursAt(s[1..], sub, i) {
        var i: nat :| OccursAt(s[1..], sub, i);
        assert s[i + 1..i + 1 + |sub|] == s[1..][i..i + |sub|];
        assert OccursAt(s, sub, i + 1);
      }
      if exists i: nat :: OccursAt(s, sub, i) {
        var i: nat :| OccursAt(s, sub, i);
        if i > 0 {
          assert s[1..][i - 1..i - 1 + |sub|] == s[i..i + |sub|];
          assert OccursAt(s[1..], sub, i - 1);
        } else {
          assert s[..|sub|] == s[i..i + |sub|];
        }
      }
      if StartsWith(s, sub) {
        assert s[0..|sub|] == s[..|sub|];
        assert OccursAt(s, sub, 0);
      }
    } else if sub == [] {
      assert OccursAt(s, sub, 0);
    }
  }

  /** The index of the first non-whitespace character at or after `from`, or `|s|`. */
  function FirstNonSpace(s: string, from: nat): (i: nat)
    requires from <= |s|
    ensures from <= i <= |s|
    ensures i < |s| ==> !IsSpace(s[i])
    ensures forall j :: from <= j < i ==> IsSpace(s[j])
    decreases |s| - from
  {
    if from == |s| || !IsSpace(s[from]) then from else FirstNonSpace(s, from + 1)
  }

  /** The index just past the last non-whitespace character before `upto`, or 0. */
  function EndOfNonSpace(s: string, upto: nat): (i: nat)
    requires upto <= |s|
    ensures i <= upto
    ensures 0 < i ==> !IsSpace(s[i - 1])
    ensures forall j :: i <= j < upto ==> IsSpace(s[j])
  {
    if upto == 0 || !IsSpace(s[upto - 1]) then upto else EndOfNonSpace(s, upto - 1)
  }

  /** Text starts with `p` after its leading whitespace exactly when `p` stands right
      after a run of whitespace characters, whenever `p` itself starts with a
      non-space character. */
  lemma LStripStartsWithIff(s: string, p: string)
    requires p != [] && !IsSpace(p[0])
    ensures StartsWith(LStrip(s), p) <==>
      exists k: nat :: k <= |s| && OccursAt(s, p, k) && forall j :: 0 <= j < k ==> IsSpace(s[j])
  {
    var f := FirstNonSpace(s, 0);
    assert LStrip(s) == s[f..];
    if StartsWith(LStrip(s), p) {
      assert s[f..f + |p|] == s[f..][..|p|];
      assert OccursAt(s, p, f);
    }
    if exists k: nat :: k <= |s| && OccursAt(s, p, k) && forall j :: 0 <= j < k ==> IsSpace(s[j]) {
      var k: nat :| k <= |s| && OccursAt(s, p, k) && forall j :: 0 <= j < k ==> IsSpace(s[j]);
      assert s[k] == p[0];
      assert k == f;
      assert s[f..][..|p|] == s[f..f + |p|];
    }
  }

  /** `s.lstrip()`: drops the leading whitespace, and only that. */
  function LStrip(s: string): (r: string)
    ensures |r| <= |s| && r == s[|s| - |r|..]
    ensures r == [] || !IsSpace(r[0])
    ensures forall i :: 0 <= i < |s| - |r| ==> IsSpace(s[i])
  {
    s[FirstNonSpace(s, 0)..]
  }

  /** `s.rstrip()`: drops the trailing whitespace, and only that. */
  function RStrip(s: string): (r: string)
    ensures |r| <= |s| && r == s[..|r|]
    ensures r == [] || !IsSpace(r[|r| - 1])
    ensures forall i :: |r| <= i < |s| ==> IsSpace(s[i])
  {
    s[..EndOfNonSpace(s, |s|)]
  }

  /** `s.strip()` */
  function Strip(s: string): string {
    RStrip(LStrip(s))
  }

  function UpperAscii(c: char): char {
    if 'a' <= c <= 'z' then (c as int - 32) as char else c
  }

  function LowerAscii(c: char): char {
    if 'A' <= c <= 'Z' then (c as int + 32) as char else c
  }

  /** `s.upper()`, for the letters a-z. */
  function Upper(s: string): (r: string)
    ensures |r| == |s|
  {
    seq(|s|, i requires 0 <= i < |s| => UpperAscii(s[i]))
  }

  /** `s.lower()`, for the letters A-Z. */
  function Lower(s: string): (r: string)
    ensures |r| == |s|
  {
    seq(|s|, i requires 0 <= i < |s| => LowerAscii(s[i]))
  }

  /** The index of the first line boundary at or after `from`, or `|s|`. */
  function FirstBreak(s: string, from: nat): (i: nat)
    requires from <= |s|
    ensures from <= i <= |s|
    ensures i < |s| ==> IsLineBreak(s[i])
    ensures forall j :: from <= j < i ==> !IsLineBreak(s[j])
    decreases |s| - from
  {
    if from == |s| || IsLineBreak(s[from]) then from else FirstBreak(s, from + 1)
  }

  /** `s.splitlines()`: the lines without their terminators; "\r\n" is one boundary,
      and a boundary at the very end opens no further (empty) line. */
  function SplitLines(s: string): (lines: seq<string>)
    ensures |lines| <= |s|
    ensures lines == [] <==> s == []
    decreases |s|
  {
    if s == [] then []
    else
      var i := FirstBreak(s, 0);
      if i == |s| then [s]
      else
        var next := if s[i] == '\r' && i + 1 < |s| && s[i + 1] == '\n' then i + 2 else i + 1;
        [s[..i]] + SplitLines(s[next..])
  }

  /** Each line followed by "\n", as a file written one `write(line + "\n")` at a time. */
  function Terminated(lines: seq<string>): string {
    if lines == [] then [] else lines[0] + "\n" + Terminated(lines[1..])
  }

  /** No line that `splitlines` returns contains a line boundary. */
  lemma {:induction false} SplitLinesHaveNoBreaks(s: string)
    ensures forall k :: 0 <= k < |SplitLines(s)| ==> NoLineBreak(SplitLines(s)[k])
    decreases |s|
  {
    if s != [] {
      var i := FirstBreak(s, 0);
      if i < |s| {
        var next := if s[i] == '\r' && i + 1 < |s| && s[i + 1] == '\n' then i + 2 else i + 1;
        SplitLinesHaveNoBreaks(s[next..]);
      }
    }
  }

  /** Writing lines with "\n" after each and reading them back with `splitlines`
      gives the same lines back when none of them holds a line boundary. */
  lemma {:induction false} SplitLinesOfTerminated(lines: seq<string>)
    requires forall k :: 0 <= k < |lines| ==> NoLineBreak(lines[k])
    ensures SplitLines(Terminated(lines)) == lines
  {
    if lines != [] {
      SplitLinesOfTerminatedLine(lines[0], Terminated(lines[1..]));
      SplitLinesOfTerminated(lines[1..]);
    }
  }

  /** A line without boundaries followed by "\n" is read back as the first line. */
  lemma SplitLinesOfTerminatedLine(l: string, rest: string)
    requires NoLineBreak(l)
    ensures SplitLines(l + "\n" + rest) == [l] + SplitLines(rest)
  {
    SplitLinesAfter(l, '\n', rest);
  }

  /** A line without boundaries followed by any boundary but "\r" is read back as the
      first line. */
  lemma SplitLinesAfter(l: string, c: char, rest: string)
    requires NoLineBreak(l) && IsLineBreak(c) && c != '\r'
    ensures SplitLines(l + [c] + rest) == [l] + SplitLines(rest)
  {
    var s := l + [c] + rest;
    assert s[..|l|] == l;
    assert s[|l| + 1..] == rest;
    SplitLinesAtBreak(s, |l|);
  }

  /** A boundary other than "\r" ends the first line and is dropped. */
  lemma SplitLinesAtBreak(s: string, i: nat)
    requires i < |s| && IsLineBreak(s[i]) && s[i] != '\r' && NoLineBreak(s[..i])
    ensures SplitLines(s) == [s[..i]] + SplitLines(s[i + 1..])
  {
    assert forall j :: 0 <= j < i ==> s[j] == s[..i][j];
    FirstBreakIs(s, 0, i);
  }

  lemma {:induction false} FirstBreakIs(s: string, from: nat, i: nat)
    requires from <= i < |s| && IsLineBreak(s[i])
    requires forall j :: from <= j < i ==> !IsLineBreak(s[j])
    ensures FirstBreak(s, from) == i
    decreases i - from
  {
    if from < i {
      FirstBreakIs(s, from + 1, i);
    }
  }

  /** A LINE SEPARATOR (U+2028) inside one written line makes `splitlines` return
      two lines. */
  lemma LineSeparatorSplitsALine(a: string, b: string)
    requires NoLineBreak(a) && NoLineBreak(b)
    ensures SplitLines(Terminated([a + "\U{2028}" + b])) == [a, b]
  {
    var line := a + "\U{2028}" + b;
    assert [line][1..] == [];
    assert Terminated([line]) == a + ['\U{2028}'] + (b + "\n");
    SplitLinesAfter(a, '\U{2028}', b + "\n");
    SplitLinesOfTerminatedLine(b, []);
    assert b + "\n" + [] == b + "\n";
  }
}
