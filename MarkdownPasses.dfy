/**
 * The regular-expression substitutions of the Markdown cleaners, each as a
 * rewrite of the blank-line counts of a `MarkdownDoc.Doc`. The line
 * predicates say what the patterns demand of one stripped line.
 */
module MarkdownPasses {
  import opened Text
  import opened MarkdownDoc

  function Min(a: nat, b: nat): nat {
    if a <= b then a else b
  }

  predicate IsBulletMarker(c: char) {
    c == '-' || c == '*' || c == '+'
  }

  /** A line the group `[ \t]*[-*+] .+?` covers: marker, space, at least one more character. */
  predicate BulletLine(l: string) {
    |l| >= 3 && IsBulletMarker(l[0]) && l[1] == ' '
  }

  /** A line the lookahead `(?=[ \t]*[-*+] )` accepts. */
  predicate BulletHead(l: string) {
    |l| >= 2 && IsBulletMarker(l[0]) && l[1] == ' '
  }

  predicate IsDigit(c: char) {
    '0' <= c <= '9'
  }

  /** The number of ASCII digits `l` starts with. */
  function DigitRun(l: string): (p: nat)
    ensures p <= |l|
    ensures forall i :: 0 <= i < p ==> IsDigit(l[i])
    ensures p < |l| ==> !IsDigit(l[p])
  {
    if l != [] && IsDigit(l[0]) then 1 + DigitRun(l[1..]) else 0
  }

  /** `\d+\.` followed by a whitespace character inside the same line. */
  predicate NumberedInline(l: string) {
    var p := DigitRun(l);
    p >= 1 && p + 1 < |l| && l[p] == '.' && IsSpace(l[p + 1])
  }

  /** An in-line numbered item the group `[ \t]*\d+\.\s.+?` covers on its own:
    * the whitespace and at least one more character are in the line. */
  predicate NumberedGroup(l: string) {
    NumberedInline(l) && DigitRun(l) + 2 < |l|
  }

  /** A line that is exactly `\d+\.`: there `\s` can only match the line break. */
  predicate NumberedBare(l: string) {
    var p := DigitRun(l);
    p >= 1 && |l| == p + 1 && l[p] == '.'
  }

  lemma NumberedBareNotBullet(l: string)
    requires NumberedBare(l)
    ensures !BulletLine(l) && !BulletHead(l) && !NumberedInline(l)
  {
  }

  lemma NumberedGroupNotBare(l: string)
    requires NumberedGroup(l)
    ensures !NumberedBare(l)
  {
  }

  /** `#{1,6} ` at the start of the line. */
  function HashRun(l: string): (m: nat)
    ensures m <= |l|
    ensures forall i :: 0 <= i < m ==> l[i] == '#'
    ensures m < |l| ==> l[m] != '#'
  {
    if l != [] && l[0] == '#' then 1 + HashRun(l[1..]) else 0
  }

  predicate HeadingLine(l: string) {
    var m := HashRun(l);
    1 <= m <= 6 && m < |l| && l[m] == ' '
  }

  /**
   * `re.sub(r"\n\s*\n+", "\n\n", text)`: every run of two or more line breaks
   * becomes exactly two. Between two lines that leaves at most one blank line;
   * after the last line at most two blank lines (the text ends with the run);
   * on top at most two, or three when there is no line at all.
   */
  function Collapse(d: Doc): (r: Doc)
    ensures |r.items| == |d.items|
    ensures forall k :: 0 <= k < |d.items| ==> r.items[k].line == d.items[k].line
    ensures forall k :: 0 <= k < |d.items| ==> (r.items[k].gap == 0 <==> d.items[k].gap == 0)
    ensures forall k :: 0 <= k < |d.items| - 1 ==> r.items[k].gap <= 1
  {
    var n := |d.items|;
    Doc(if n == 0 then Min(d.lead, 3) else Min(d.lead, 2),
        seq(n, k requires 0 <= k < n =>
          Item(d.items[k].line, if k + 1 < n then Min(d.items[k].gap, 1) else Min(d.items[k].gap, 2))))
  }

  /** The bullet pattern matches at item `k`: a bullet line, blank lines, then a line the lookahead accepts. */
  predicate BulletJoin(items: seq<Item>, k: nat)
    requires k < |items|
  {
    k + 1 < |items| && items[k].gap >= 1 && BulletLine(items[k].line) && BulletHead(items[k + 1].line)
  }

  /**
   * `re.sub(r"((?:^|\n)[ \t]*[-*+] .+?)\n(?:[ \t]*\n)+(?=[ \t]*[-*+] )", r"\1\n", text, flags=re.MULTILINE)`:
   * the blank lines between a bullet item and the next bullet item are removed.
   * A match ends where the next item's line starts, so each item is tried on its own.
   */
  function BulletPass(d: Doc): (r: Doc)
    ensures r.lead == d.lead && |r.items| == |d.items|
    ensures forall k :: 0 <= k < |d.items| ==>
      r.items[k] == Item(d.items[k].line, if BulletJoin(d.items, k) then 0 else d.items[k].gap)
  {
    Doc(d.lead, seq(|d.items|, k requires 0 <= k < |d.items| =>
      Item(d.items[k].line, if BulletJoin(d.items, k) then 0 else d.items[k].gap)))
  }

  /**
   * Where the numbered lookahead `(?=[ \t]*\d+\.\s)` holds at item `j`. When
   * `lineBreakAfterDot` holds, `\s` may also match the line break after a
   * line that is exactly `\d+\.` (the pattern as written); otherwise only
   * whitespace inside the line counts.
   */
  predicate NumberedStart(its: seq<Item>, j: nat, lineBreakAfterDot: bool)
    requires j < |its|
  {
    NumberedInline(its[j].line)
    || (lineBreakAfterDot && NumberedBare(its[j].line) && (j + 1 < |its| || its[j].gap >= 1))
  }

  /**
   * One left-to-right scan of
   * `re.sub(r"((?:^|\n)[ \t]*\d+\.\s.+?)\n(?:[ \t]*\n)+(?=[ \t]*\d+\.\s)", r"\1\n", text, flags=re.MULTILINE)`.
   * A match starts at an item. With the whitespace inside the line, the group is
   * that line; with `\s` matching the line break after a bare `\d+\.` line,
   * `.+?` runs on into the following line, the blank lines removed are the ones
   * after that line, and the scan goes on after it.
   */
  function NumberedScan(its: seq<Item>, lineBreakAfterDot: bool): seq<Item>
    decreases |its|
  {
    if its == [] then []
    else if 1 < |its| && NumberedGroup(its[0].line) && its[0].gap >= 1 && NumberedStart(its, 1, lineBreakAfterDot) then
      [Item(its[0].line, 0)] + NumberedScan(its[1..], lineBreakAfterDot)
    else if lineBreakAfterDot && 2 < |its| && NumberedBare(its[0].line) && its[0].gap == 0
            && its[1].gap >= 1 && NumberedStart(its, 2, lineBreakAfterDot) then
      [its[0], Item(its[1].line, 0)] + NumberedScan(its[2..], lineBreakAfterDot)
    else
      [its[0]] + NumberedScan(its[1..], lineBreakAfterDot)
  }

  function NumberedPass(d: Doc, lineBreakAfterDot: bool): Doc {
    Doc(d.lead, NumberedScan(d.items, lineBreakAfterDot))
  }

  /** Where the scan removes the blank lines after item `k`: reached as a group of
    * its own, or as the line after a bare `\d+\.` line directly above it. */
  predicate NumberedJoin(its: seq<Item>, k: nat, lineBreakAfterDot: bool)
    requires k < |its|
  {
    k + 1 < |its| && its[k].gap >= 1 && NumberedStart(its, k + 1, lineBreakAfterDot)
    && (NumberedGroup(its[k].line)
        || (lineBreakAfterDot && k >= 1 && NumberedBare(its[k - 1].line) && its[k - 1].gap == 0))
  }

  lemma NumberedStartShift(its: seq<Item>, m: nat, j: nat, lb: bool)
    requires m <= |its| && j < |its| - m
    ensures NumberedStart(its[m..], j, lb) == NumberedStart(its, m + j, lb)
  {
    assert its[m..][j] == its[m + j];
  }

  lemma NumberedJoinShift(its: seq<Item>, m: nat, k: nat, lb: bool)
    requires m <= |its| && 1 <= k < |its| - m
    ensures NumberedJoin(its[m..], k, lb) == NumberedJoin(its, m + k, lb)
  {
    assert its[m..][k] == its[m + k];
    assert its[m..][k - 1] == its[m + k - 1];
    if k + 1 < |its| - m {
      NumberedStartShift(its, m, k + 1, lb);
    }
  }

  lemma NumberedJoinShiftFirst(its: seq<Item>, m: nat, lb: bool)
    requires m < |its|
    ensures NumberedJoin(its[m..], 0, lb) ==
      (m + 1 < |its| && its[m].gap >= 1 && NumberedStart(its, m + 1, lb) && NumberedGroup(its[m].line))
  {
    assert its[m..][0] == its[m];
    if m + 1 < |its| {
      NumberedStartShift(its, m, 1, lb);
    }
  }

  /** `r` is `its` with the blank lines after item `k` removed exactly where `NumberedJoin` holds. */
  predicate JoinedWhere(its: seq<Item>, r: seq<Item>, lb: bool) {
    |r| == |its| &&
    forall k :: 0 <= k < |its| ==> r[k] == Item(its[k].line, if NumberedJoin(its, k, lb) then 0 else its[k].gap)
  }

  /** The scan of a suffix, put behind `m` items, agrees with the spec from item `m + 1` on. */
  lemma JoinedShift(its: seq<Item>, m: nat, front: seq<Item>, s: seq<Item>, lb: bool)
    requires 1 <= m <= |its| && |front| == m && JoinedWhere(its[m..], s, lb)
    ensures forall k :: m + 1 <= k < |its| ==>
      (front + s)[k] == Item(its[k].line, if NumberedJoin(its, k, lb) then 0 else its[k].gap)
  {
    forall k | m + 1 <= k < |its|
      ensures (front + s)[k] == Item(its[k].line, if NumberedJoin(its, k, lb) then 0 else its[k].gap)
    {
      assert (front + s)[k] == s[k - m] && its[m..][k - m] == its[k];
      NumberedJoinShift(its, m, k - m, lb);
    }
  }

  /** ... and at item `m` itself. */
  lemma JoinedShiftFirst(its: seq<Item>, m: nat, front: seq<Item>, s: seq<Item>, lb: bool)
    requires 1 <= m < |its| && |front| == m && JoinedWhere(its[m..], s, lb)
    requires !(lb && NumberedBare(its[m - 1].line) && its[m - 1].gap == 0
               && m + 1 < |its| && its[m].gap >= 1 && NumberedStart(its, m + 1, lb))
    ensures (front + s)[m] == Item(its[m].line, if NumberedJoin(its, m, lb) then 0 else its[m].gap)
  {
    assert (front + s)[m] == s[0] && its[m..][0] == its[m];
    NumberedJoinShiftFirst(its, m, lb);
  }

  /** The scan changes no line, and removes the blank lines after item `k`
    * exactly where `NumberedJoin` holds. */
  lemma {:induction false} NumberedScanSpec(its: seq<Item>, lb: bool)
    ensures |NumberedScan(its, lb)| == |its|
    ensures forall k :: 0 <= k < |its| ==>
      NumberedScan(its, lb)[k] == Item(its[k].line, if NumberedJoin(its, k, lb) then 0 else its[k].gap)
    decreases |its|
  {
    if its != [] {
      if 1 < |its| && NumberedGroup(its[0].line) && its[0].gap >= 1 && NumberedStart(its, 1, lb) {
        NumberedScanSpec(its[1..], lb);
        GroupCase(its, NumberedScan(its[1..], lb), lb);
      } else if lb && 2 < |its| && NumberedBare(its[0].line) && its[0].gap == 0
                && its[1].gap >= 1 && NumberedStart(its, 2, lb) {
        NumberedScanSpec(its[2..], lb);
        BareCase(its, NumberedScan(its[2..], lb), lb);
      } else {
        NumberedScanSpec(its[1..], lb);
        PlainCase(its, NumberedScan(its[1..], lb), lb);
      }
    }
  }

  /** A numbered group followed by blank lines and a numbered item. */
  lemma GroupCase(its: seq<Item>, s: seq<Item>, lb: bool)
    requires 1 < |its| && NumberedGroup(its[0].line) && its[0].gap >= 1 && NumberedStart(its, 1, lb)
    requires JoinedWhere(its[1..], s, lb)
    ensures JoinedWhere(its, [Item(its[0].line, 0)] + s, lb)
  {
    var r := [Item(its[0].line, 0)] + s;
    assert NumberedJoin(its, 0, lb);
    JoinedShift(its, 1, [Item(its[0].line, 0)], s, lb);
    NumberedGroupNotBare(its[0].line);
    JoinedShiftFirst(its, 1, [Item(its[0].line, 0)], s, lb);
  }

  /** A bare `\d+\.` line directly above a line followed by blank lines and a numbered item. */
  lemma BareCase(its: seq<Item>, s: seq<Item>, lb: bool)
    requires lb && 2 < |its| && NumberedBare(its[0].line) && its[0].gap == 0
    requires its[1].gap >= 1 && NumberedStart(its, 2, lb)
    requires JoinedWhere(its[2..], s, lb)
    ensures JoinedWhere(its, [its[0], Item(its[1].line, 0)] + s, lb)
  {
    assert !NumberedJoin(its, 0, lb) && NumberedJoin(its, 1, lb);
    JoinedShift(its, 2, [its[0], Item(its[1].line, 0)], s, lb);
    JoinedShiftFirst(its, 2, [its[0], Item(its[1].line, 0)], s, lb);
  }

  /** Any other first item is kept as it is. */
  lemma PlainCase(its: seq<Item>, s: seq<Item>, lb: bool)
    requires its != []
    requires !(1 < |its| && NumberedGroup(its[0].line) && its[0].gap >= 1 && NumberedStart(its, 1, lb))
    requires !(lb && 2 < |its| && NumberedBare(its[0].line) && its[0].gap == 0
               && its[1].gap >= 1 && NumberedStart(its, 2, lb))
    requires JoinedWhere(its[1..], s, lb)
    ensures JoinedWhere(its, [its[0]] + s, lb)
  {
    assert !NumberedJoin(its, 0, lb);
    JoinedShift(its, 1, [its[0]], s, lb);
    if 1 < |its| {
      JoinedShiftFirst(its, 1, [its[0]], s, lb);
    }
  }

  /**
   * `re.sub(r"^(#{1,6} .*)\n(\s*\n)+", r"\1\n", text, flags=re.MULTILINE)`:
   * the blank lines after a heading are removed; after a heading that ends the
   * text one line break is kept.
   */
  function HeadingPass(d: Doc): (r: Doc)
    ensures r.lead == d.lead && |r.items| == |d.items|
    ensures forall k :: 0 <= k < |d.items| ==> r.items[k].line == d.items[k].line
    ensures forall k :: 0 <= k < |d.items| - 1 ==>
      (r.items[k].gap == if HeadingLine(d.items[k].line) then 0 else d.items[k].gap)
  {
    var n := |d.items|;
    Doc(d.lead, seq(n, k requires 0 <= k < n =>
      Item(d.items[k].line,
           if HeadingLine(d.items[k].line) && d.items[k].gap >= 1 then
             (if k + 1 < n then 0 else Min(d.items[k].gap, 1))
           else d.items[k].gap)))
  }

  /** The three passes only change gaps, never the lines. */
  lemma PassesKeepLines(d: Doc, lb: bool)
    ensures ItemLines(NumberedPass(BulletPass(HeadingPass(d)), lb).items) == ItemLines(d.items)
  {
    var h := HeadingPass(d);
    var b := BulletPass(h);
    NumberedScanSpec(b.items, lb);
    var o := NumberedPass(b, lb);
    assert ItemLines(h.items) == ItemLines(d.items);
    assert ItemLines(b.items) == ItemLines(h.items);
    assert ItemLines(o.items) == ItemLines(b.items);
  }
}
