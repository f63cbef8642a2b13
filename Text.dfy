/**
 * String helpers with Python's meaning: `str.strip()` over the whole
 * `str.isspace` set, `split` on one separator, `splitlines` at every line
 * boundary Python knows, `join`, ASCII `lower`, `startswith`/`endswith` and
 * character replacement.
 */
module Text {
  import opened Wrappers

  /** `str.isspace()` for one character (also what `\s` matches in a `re`
    * pattern over `str`): tab to carriage return, the separators 0x1C-0x1F,
    * space, and the Unicode space and line-separator characters. */
  predicate IsSpace(c: char) {
    ('\t' <= c <= '\r') || ('\U{1C}' <= c <= ' ')
    || c == '\U{85}' || c == '\U{A0}' || c == '\U{1680}' || ('\U{2000}' <= c <= '\U{200A}')
    || c == '\U{2028}' || c == '\U{2029}' || c == '\U{202F}' || c == '\U{205F}' || c == '\U{3000}'
  }

  /** The line boundaries `str.splitlines()` splits at ("\r\n" counts as one). */
  predicate IsLineBreak(c: char) {
    ('\n' <= c <= '\r') || ('\U{1C}' <= c <= '\U{1E}') || c == '\U{85}' || c == '\U{2028}' || c == '\U{2029}'
  }

  lemma LineBreakIsSpace(c: char)
    ensures IsLineBreak(c) ==> IsSpace(c)
  {
  }

  predicate NoLineBreak(s: string) {
    forall i :: 0 <= i < |s| ==> !IsLineBreak(s[i])
  }

  predicate AllSpace(s: string) {
    forall i :: 0 <= i < |s| ==> IsSpace(s[i])
  }

  /** Neither end of the string is whitespace. */
  predicate Stripped(s: string) {
    s == [] || (!IsSpace(s[0]) && !IsSpace(s[|s| - 1]))
  }

  function StripStart(s: string): (r: string)
    ensures |r| <= |s| && r == s[|s| - |r|..]
    ensures r == [] || !IsSpace(r[0])
    ensures forall i :: 0 <= i < |s| - |r| ==> IsSpace(s[i])
  {
    if s != [] && IsSpace(s[0]) then StripStart(s[1..]) else s
  }

  function StripEnd(s: string): (r: string)
    ensures |r| <= |s| && r == s[..|r|]
    ensures r == [] || !IsSpace(r[|r| - 1])
    ensures forall i :: |r| <= i < |s| ==> IsSpace(s[i])
  {
    if s != [] && IsSpace(s[|s| - 1]) then StripEnd(s[..|s| - 1]) else s
  }

  /** `s.strip()`: drop leading and trailing whitespace. */
  function Strip(s: string): (r: string)
    ensures Stripped(r)
    ensures forall c :: c in r ==> c in s
    ensures r == [] <==> AllSpace(s)
  {
    var t := StripStart(s);
    var r := StripEnd(t);
    assert forall c :: c in r ==> c in t;
    assert t != [] ==> t[0] == s[|s| - |t|];
    r
  }

  lemma StripNoLineBreak(s: string)
    requires NoLineBreak(s)
    ensures NoLineBreak(Strip(s))
  {
    var r := Strip(s);
    forall i | 0 <= i < |r| ensures !IsLineBreak(r[i]) {
      assert r[i] in r;
    }
  }

  lemma StripStripped(s: string)
    requires Stripped(s)
    ensures Strip(s) == s
  {
  }

  function Rep(c: char, n: nat): (r: string)
    ensures |r| == n && forall i :: 0 <= i < n ==> r[i] == c
  {
    seq(n, _ => c)
  }

  lemma RepSnoc(c: char, n: nat)
    ensures Rep(c, n + 1) == Rep(c, n) + [c]
  {
    var a := Rep(c, n + 1);
    var b := Rep(c, n) + [c];
    assert |a| == |b|;
    assert forall i :: 0 <= i < |a| ==> a[i] == b[i];
  }

  lemma RepCons(c: char, n: nat)
    ensures Rep(c, n + 1) == [c] + Rep(c, n)
  {
    var a := Rep(c, n + 1);
    var b := [c] + Rep(c, n);
    assert |a| == |b|;
    assert forall i :: 0 <= i < |a| ==> a[i] == b[i];
  }

  /** Whitespace on both sides of a stripped, non-empty string is removed by `strip`. */
  lemma {:induction false} StripAround(a: string, s: string, b: string)
    requires AllSpace(a) && AllSpace(b)
    requires s != [] && Stripped(s)
    ensures Strip(a + s + b) == s
  {
    calc {
      Strip(a + s + b);
      StripEnd(StripStart(a + s + b));
      { assert a + s + b == a + (s + b); assert (s + b)[0] == s[0]; StripStartSpaces(a, s + b); }
      StripEnd(s + b);
      { StripEndSpaces(s, b); }
      s;
    }
  }

  lemma {:induction false} StripStartSpaces(a: string, t: string)
    requires AllSpace(a)
    requires t != [] && !IsSpace(t[0])
    ensures StripStart(a + t) == t
    decreases |a|
  {
    if a == [] {
      assert a + t == t;
    } else {
      assert (a + t)[1..] == a[1..] + t;
      StripStartSpaces(a[1..], t);
    }
  }

  lemma {:induction false} StripEndSpaces(t: string, b: string)
    requires AllSpace(b)
    requires t != [] && !IsSpace(t[|t| - 1])
    ensures StripEnd(t + b) == t
    decreases |b|
  {
    if b == [] {
      assert t + b == t;
    } else {
      assert (t + b)[..|t + b| - 1] == t + b[..|b| - 1];
      StripEndSpaces(t, b[..|b| - 1]);
    }
  }

  /** The first index of `c` in `s`. */
  function IndexOf(s: string, c: char): (r: Option<nat>)
    ensures r.Some? ==> r.value < |s| && s[r.value] == c && c !in s[..r.value]
    ensures r.None? ==> c !in s
  {
    if s == [] then None
    else if s[0] == c then Some(0)
    else match IndexOf(s[1..], c)
      case None => None
      case Some(i) => assert s[..i + 1] == [s[0]] + s[1..][..i]; Some(i + 1)
  }

  /** `s.split(c)`: the pieces between the occurrences of `c`. */
  function Split(s: string, c: char): (parts: seq<string>)
    ensures |parts| >= 1
    ensures forall p :: p in parts ==> c !in p
    decreases |s|
  {
    match IndexOf(s, c)
    case None => [s]
    case Some(i) => [s[..i]] + Split(s[i + 1..], c)
  }

  /** `sep.join(parts)`. */
  function Join(parts: seq<string>, sep: string): string {
    if |parts| == 0 then ""
    else if |parts| == 1 then parts[0]
    else parts[0] + sep + Join(parts[1..], sep)
  }

  lemma {:induction false} JoinSplit(s: string, c: char)
    ensures Join(Split(s, c), [c]) == s
    decreases |s|
  {
    match IndexOf(s, c)
    case None =>
    case Some(i) =>
      var rest := Split(s[i + 1..], c);
      assert Split(s, c) == [s[..i]] + rest;
      JoinCons(s[..i], rest, [c]);
      JoinSplit(s[i + 1..], c);
      assert s == s[..i] + [c] + s[i + 1..];
  }

  lemma JoinCons(a: string, rest: seq<string>, sep: string)
    requires |rest| >= 1
    ensures Join([a] + rest, sep) == a + sep + Join(rest, sep)
  {
    assert ([a] + rest)[1..] == rest;
  }

  lemma {:induction false} SplitJoin(parts: seq<string>, c: char)
    requires |parts| >= 1
    requires forall p :: p in parts ==> c !in p
    ensures Split(Join(parts, [c]), c) == parts
  {
    if |parts| == 1 {
      assert parts[0] in parts;
    } else {
      var p := parts[0];
      var j := Join(parts[1..], [c]);
      calc {
        Split(Join(parts, [c]), c);
        Split(p + [c] + j, c);
        { assert p in parts; SplitCons(p, c, j); }
        [p] + Split(j, c);
        { assert forall q :: q in parts[1..] ==> q in parts; SplitJoin(parts[1..], c); }
        [p] + parts[1..];
        parts;
      }
    }
  }

  /** Splitting after a first field without the separator. */
  lemma SplitCons(p: string, c: char, t: string)
    requires c !in p
    ensures Split(p + [c] + t, c) == [p] + Split(t, c)
  {
    var u := p + [c] + t;
    IndexOfPrefix(p, c, t);
    assert u[..|p|] == p && u[|p| + 1..] == t;
  }

  lemma {:induction false} IndexOfPrefix(p: string, c: char, t: string)
    requires c !in p
    ensures IndexOf(p + [c] + t, c) == Some(|p|)
    decreases |p|
  {
    if p == [] {
      assert p + [c] + t == [c] + t;
    } else {
      assert (p + [c] + t)[1..] == p[1..] + [c] + t;
      IndexOfPrefix(p[1..], c, t);
    }
  }

  lemma {:induction false} JoinSnoc(a: seq<string>, b: string, sep: string)
    requires |a| >= 1
    ensures Join(a + [b], sep) == Join(a, sep) + sep + b
    decreases |a|
  {
    if |a| == 1 {
      assert (a + [b])[1..] == [b];
    } else {
      assert (a + [b])[1..] == a[1..] + [b];
      JoinSnoc(a[1..], b, sep);
    }
  }

  lemma {:induction false} JoinAppend(a: seq<string>, b: seq<string>, sep: string)
    requires |a| >= 1 && |b| >= 1
    ensures Join(a + b, sep) == Join(a, sep) + sep + Join(b, sep)
    decreases |a|
  {
    if |a| == 1 {
      assert (a + b)[1..] == b;
    } else {
      assert (a + b)[1..] == a[1..] + b;
      JoinAppend(a[1..], b, sep);
    }
  }

  /** The first line boundary in `s`. */
  function NextBreak(s: string): (r: Option<nat>)
    ensures r.Some? ==> r.value < |s| && IsLineBreak(s[r.value]) && NoLineBreak(s[..r.value])
    ensures r.None? ==> NoLineBreak(s)
  {
    if s == [] then None
    else if IsLineBreak(s[0]) then Some(0)
    else match NextBreak(s[1..])
      case None => None
      case Some(i) => assert s[..i + 1] == [s[0]] + s[1..][..i]; Some(i + 1)
  }

  /** The length of the boundary at `i`: two for "\r\n", one otherwise. */
  function BreakLength(s: string, i: nat): nat
    requires i < |s|
  {
    if s[i] == '\r' && i + 1 < |s| && s[i + 1] == '\n' then 2 else 1
  }

  /** The pieces between line boundaries, including a final empty piece. */
  function SplitAtBreaks(s: string): (pieces: seq<string>)
    ensures |pieces| >= 1
    ensures forall l :: l in pieces ==> NoLineBreak(l)
    decreases |s|
  {
    match NextBreak(s)
    case None => [s]
    case Some(i) => [s[..i]] + SplitAtBreaks(s[i + BreakLength(s, i)..])
  }

  /** `s.splitlines()`: a boundary at the very end does not start a further line,
    * and "" has no lines. */
  function SplitLines(s: string): (lines: seq<string>)
    ensures forall l :: l in lines ==> NoLineBreak(l)
  {
    DropFinalEmpty(SplitAtBreaks(s))
  }

  /** `lines` without a final empty line. */
  function DropFinalEmpty(lines: seq<string>): seq<string> {
    if lines != [] && lines[|lines| - 1] == "" then lines[..|lines| - 1] else lines
  }

  lemma {:induction false} JoinLast(lines: seq<string>, sep: string)
    requires |lines| >= 1 && lines[|lines| - 1] != []
    ensures |Join(lines, sep)| >= 1
    ensures Join(lines, sep)[|Join(lines, sep)| - 1] == lines[|lines| - 1][|lines[|lines| - 1]| - 1]
  {
    if |lines| > 1 {
      var rest := Join(lines[1..], sep);
      JoinLast(lines[1..], sep);
      assert lines[1..][|lines[1..]| - 1] == lines[|lines| - 1];
      assert Join(lines, sep) == lines[0] + sep + rest;
    }
  }

  lemma {:induction false} JoinFirst(lines: seq<string>, sep: string)
    requires |lines| >= 1 && lines[0] != []
    ensures |Join(lines, sep)| >= 1 && Join(lines, sep)[0] == lines[0][0]
  {
  }

  /** Joining lines with "\n" and splitting them again gives the lines back,
    * except that a final empty line is lost. */
  lemma SplitLinesJoin(lines: seq<string>)
    requires forall l :: l in lines ==> NoLineBreak(l)
    ensures SplitLines(Join(lines, "\n")) == DropFinalEmpty(lines)
  {
    if lines == [] {
    } else {
      SplitAtBreaksJoin(lines);
    }
  }

  lemma {:induction false} SplitAtBreaksJoin(lines: seq<string>)
    requires |lines| >= 1
    requires forall l :: l in lines ==> NoLineBreak(l)
    ensures SplitAtBreaks(Join(lines, "\n")) == lines
  {
    assert lines[0] in lines;
    if |lines| == 1 {
    } else {
      var p := lines[0];
      var rest := Join(lines[1..], "\n");
      var s := Join(lines, "\n");
      assert s == p + "\n" + rest;
      NextBreakPrefix(p, rest);
      assert s[|p|] == '\n';
      assert BreakLength(s, |p|) == 1;
      assert s[..|p|] == p;
      assert s[|p| + 1..] == rest;
      assert forall q :: q in lines[1..] ==> q in lines;
      SplitAtBreaksJoin(lines[1..]);
    }
  }

  lemma {:induction false} NextBreakPrefix(p: string, t: string)
    requires NoLineBreak(p)
    ensures NextBreak(p + "\n" + t) == Some(|p|)
    decreases |p|
  {
    if p == [] {
      assert p + "\n" + t == "\n" + t;
    } else {
      assert (p + "\n" + t)[1..] == p[1..] + "\n" + t;
      assert !IsLineBreak(p[0]);
      NextBreakPrefix(p[1..], t);
    }
  }

  /** A line without a boundary, then "\n", then the rest: the first line is that line. */
  lemma SplitLinesCons(a: string, b: string)
    requires NoLineBreak(a)
    ensures SplitLines(a + "\n" + b) == [a] + SplitLines(b)
  {
    var s := a + "\n" + b;
    NextBreakPrefix(a, b);
    assert s[|a|] == '\n';
    assert s[..|a|] == a;
    assert s[|a| + 1..] == b;
    assert SplitAtBreaks(s) == [a] + SplitAtBreaks(b);
  }

  lemma MapStripAppend(a: seq<string>, b: seq<string>)
    ensures MapStrip(a + b) == MapStrip(a) + MapStrip(b)
  {
  }

  /** No blank line directly after another. */
  predicate NoTwoBlanks(lines: seq<string>) {
    forall i :: 0 <= i < |lines| - 1 ==> lines[i] != "" || lines[i + 1] != ""
  }

  /** The text has no three line breaks in a row. */
  predicate NoTripleBreak(s: string) {
    forall i :: 0 <= i < |s| - 2 ==> !(s[i] == '\n' && s[i + 1] == '\n' && s[i + 2] == '\n')
  }

  lemma JoinHead(lines: seq<string>)
    ensures |lines| >= 1 && lines[0] != "" ==> |Join(lines, "\n")| >= 1 && Join(lines, "\n")[0] == lines[0][0]
    ensures |lines| == 1 ==> Join(lines, "\n") == lines[0]
    ensures |lines| >= 2 ==> Join(lines, "\n") == lines[0] + "\n" + Join(lines[1..], "\n")
  {
  }

  /** Lines without line breaks and without two blank lines in a row join to
    * a text without three line breaks in a row. */
  lemma {:induction false} JoinNoTripleBreak(lines: seq<string>)
    requires forall l :: l in lines ==> NoLineBreak(l)
    requires NoTwoBlanks(lines)
    ensures NoTripleBreak(Join(lines, "\n"))
  {
    if |lines| == 0 {
    } else if |lines| == 1 {
      assert lines[0] in lines;
      var s := Join(lines, "\n");
      assert forall i :: 0 <= i < |s| ==> s[i] != '\n';
    } else {
      var p := lines[0];
      assert p in lines;
      var rest := lines[1..];
      assert forall l :: l in rest ==> l in lines;
      assert NoTwoBlanks(rest) by {
        forall i | 0 <= i < |rest| - 1 ensures rest[i] != "" || rest[i + 1] != "" {
          assert rest[i] == lines[i + 1] && rest[i + 1] == lines[i + 2];
        }
      }
      JoinNoTripleBreak(rest);
      var r := Join(rest, "\n");
      var s := Join(lines, "\n");
      assert s == p + "\n" + r;
      forall i | 0 <= i < |s| - 2
        ensures !(s[i] == '\n' && s[i + 1] == '\n' && s[i + 2] == '\n')
      {
        if i < |p| {
          assert s[i] == p[i] && !IsLineBreak(p[i]);
        } else if i > |p| {
          assert s[i] == r[i - |p| - 1] && s[i + 1] == r[i - |p|] && s[i + 2] == r[i - |p| + 1];
        } else {
          assert s[i + 1] == r[0] && s[i + 2] == r[1];
          JoinHead(rest);
          assert rest[0] in lines;
          assert rest[0] != "" ==> !IsLineBreak(rest[0][0]);
          if |rest| >= 2 {
            JoinHead(rest[1..]);
            assert rest[1] in lines;
            assert rest[1] != "" ==> !IsLineBreak(rest[1][0]);
            assert lines[1] != "" || lines[2] != "";
          }
        }
      }
    }
  }

  lemma {:induction false} AllSpaceSplit(s: string)
    ensures AllSpace(s) <==> (forall p :: p in SplitAtBreaks(s) ==> AllSpace(p))
    decreases |s|
  {
    match NextBreak(s)
    case None =>
    case Some(i) =>
      var len := BreakLength(s, i);
      var pieces := SplitAtBreaks(s);
      var rest := s[i + len..];
      AllSpaceSplit(rest);
      assert pieces == [s[..i]] + SplitAtBreaks(rest);
      LineBreakIsSpace(s[i]);
      assert len == 2 ==> IsSpace(s[i + 1]);
      assert s == s[..i] + s[i..i + len] + rest;
      assert AllSpace(s[i..i + len]);
      AllSpaceConcat(s[..i], s[i..i + len], rest);
  }

  lemma AllSpaceConcat(a: string, b: string, c: string)
    requires AllSpace(b)
    ensures AllSpace(a + b + c) <==> AllSpace(a) && AllSpace(c)
  {
    var s := a + b + c;
    if AllSpace(s) {
      assert forall i :: 0 <= i < |a| ==> a[i] == s[i];
      assert forall i :: 0 <= i < |c| ==> c[i] == s[|a| + |b| + i];
    }
  }

  /** A text is all whitespace exactly when each of its lines is. */
  lemma AllSpaceLines(s: string)
    ensures AllSpace(s) <==> (forall i :: 0 <= i < |SplitLines(s)| ==> AllSpace(SplitLines(s)[i]))
  {
    AllSpaceSplit(s);
    var pieces := SplitAtBreaks(s);
    var lines := SplitLines(s);
    assert forall i :: 0 <= i < |lines| ==> lines[i] == pieces[i];
    assert forall p :: p in pieces ==> p in lines || p == "";
  }

  lemma {:induction false} NonBlankEmpty(lines: seq<string>)
    ensures NonBlank(lines) == [] <==> forall i :: 0 <= i < |lines| ==> lines[i] == ""
  {
    if lines != [] {
      NonBlankEmpty(lines[1..]);
      assert forall i :: 1 <= i < |lines| ==> lines[i] == lines[1..][i - 1];
    }
  }

  function MapStrip(lines: seq<string>): (r: seq<string>)
    ensures |r| == |lines| && forall i :: 0 <= i < |r| ==> r[i] == Strip(lines[i])
  {
    if lines == [] then [] else [Strip(lines[0])] + MapStrip(lines[1..])
  }

  /** The lines that are not empty, in order. */
  function NonBlank(lines: seq<string>): (r: seq<string>)
    ensures forall l :: l in r ==> l in lines && l != ""
    ensures |r| <= |lines|
  {
    if lines == [] then []
    else if lines[0] == "" then NonBlank(lines[1..])
    else [lines[0]] + NonBlank(lines[1..])
  }

  lemma NonBlankCons(l: string, rest: seq<string>)
    requires l != ""
    ensures NonBlank([l] + rest) == [l] + NonBlank(rest)
  {
    assert ([l] + rest)[1..] == rest;
  }

  lemma {:induction false} NonBlankAppend(a: seq<string>, b: seq<string>)
    ensures NonBlank(a + b) == NonBlank(a) + NonBlank(b)
    decreases |a|
  {
    if a == [] {
      assert a + b == b;
    } else {
      assert (a + b)[1..] == a[1..] + b;
      NonBlankAppend(a[1..], b);
    }
  }

  lemma NonBlankDropFinalEmpty(lines: seq<string>)
    ensures NonBlank(DropFinalEmpty(lines)) == NonBlank(lines)
  {
    if lines != [] && lines[|lines| - 1] == "" {
      assert lines == lines[..|lines| - 1] + [""];
      NonBlankAppend(lines[..|lines| - 1], [""]);
    }
  }

  lemma MapStripStripped(lines: seq<string>)
    requires forall l :: l in lines ==> Stripped(l)
    ensures MapStrip(lines) == lines
  {
    forall i | 0 <= i < |lines| ensures MapStrip(lines)[i] == lines[i] {
      assert lines[i] in lines;
      StripStripped(lines[i]);
    }
  }

  function LowerChar(c: char): char {
    if 'A' <= c <= 'Z' then (c as int + 32) as char else c
  }

  /** `s.lower()` on ASCII letters. */
  function Lower(s: string): (r: string)
    ensures |r| == |s| && forall i :: 0 <= i < |s| ==> r[i] == LowerChar(s[i])
  {
    seq(|s|, i requires 0 <= i < |s| => LowerChar(s[i]))
  }

  predicate StartsWith(s: string, prefix: string) {
    |prefix| <= |s| && s[..|prefix|] == prefix
  }

  predicate EndsWith(s: string, suffix: string) {
    |suffix| <= |s| && s[|s| - |suffix|..] == suffix
  }

  /** `s.replace(a, b)` for single characters. */
  function ReplaceChar(s: string, a: char, b: char): (r: string)
    ensures |r| == |s|
    ensures forall i :: 0 <= i < |s| ==> r[i] == (if s[i] == a then b else s[i])
  {
    seq(|s|, i requires 0 <= i < |s| => if s[i] == a then b else s[i])
  }

  lemma ReplaceCharRemoves(s: string, a: char, b: char)
    requires a != b
    ensures a !in ReplaceChar(s, a, b)
  {
    var r := ReplaceChar(s, a, b);
    assert forall i :: 0 <= i < |r| ==> r[i] != a;
  }
}
