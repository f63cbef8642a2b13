/**
 * `clean_markdown` of the older services (api/utils.py, copied into
 * api/app/common/actions.py): trim every line, drop the blank lines after
 * headings and between list items, then keep only the non-blank lines.
 */
module CleanMarkdownStripAll {
  import opened Text
  import opened MarkdownDoc
  import opened MarkdownPasses

  /** The cleaner as written. */
  function CleanMarkdownStripAll(md: string): string {
    var d := Parse(TrimmedLines(md));          // "\n".join(line.strip() for line in md.splitlines())
    var h := HeadingPass(d);                   // headings
    var b := BulletPass(h);                    // bullet items
    var o := NumberedPass(b, true);            // numbered items
    var text := Join(Lines(o), "\n");
    Join(NonBlank(TrimmedLines(text)), "\n")   // "\n".join(line.strip() for line in text.splitlines() if line.strip())
  }

  /** The lines a view stands for are clean. */
  lemma LinesClean(d: Doc)
    requires ValidItems(d.items)
    ensures CleanLines(Lines(d))
  {
    ItemsLinesClean(d.items);
  }

  /** Trimming the lines of a view's text gives its lines back, less a final blank one. */
  lemma TrimmedLinesOfView(d: Doc)
    requires ValidItems(d.items)
    ensures TrimmedLines(Join(Lines(d), "\n")) == DropFinalEmpty(Lines(d))
  {
    LinesClean(d);
    SplitLinesJoin(Lines(d));
    var x := DropFinalEmpty(Lines(d));
    assert forall l :: l in x ==> l in Lines(d);
    MapStripStripped(x);
  }

  /** The heading and list passes only remove blank lines, so the final filter
    * leaves exactly the trimmed non-blank lines of the input. */
  lemma StripAllIsFilter(md: string)
    ensures CleanMarkdownStripAll(md) == Join(NonBlank(TrimmedLines(md)), "\n")
  {
    var t := TrimmedLines(md);
    var d := Parse(t);
    var h := HeadingPass(d);
    var b := BulletPass(h);
    var o := NumberedPass(b, true);
    ParseValid(t);
    ParseLines(t);
    PassesKeepLines(d, true);
    SameLinesValid(d.items, o.items);
    TrimmedLinesOfView(o);
    NonBlankDropFinalEmpty(Lines(o));
    NonBlankLines(o);
    NonBlankLines(d);
  }

  lemma NonBlankOfClean(lines: seq<string>)
    requires forall l :: l in lines ==> l != ""
    ensures NonBlank(lines) == lines
  {
    if lines != [] {
      assert lines[0] in lines;
      assert forall l :: l in lines[1..] ==> l in lines;
      NonBlankOfClean(lines[1..]);
    }
  }

  /** Clean non-blank lines joined with "\n" split back into themselves. */
  lemma SplitJoinedClean(n: seq<string>)
    requires forall l :: l in n ==> l != "" && CleanLine(l)
    ensures SplitLines(Join(n, "\n")) == n
  {
    SplitLinesJoin(n);
    if n != [] {
      assert n[|n| - 1] in n;
    }
  }

  /** The output's lines are the trimmed non-blank input lines: none is empty
    * and none has surrounding whitespace. */
  lemma StripAllLines(md: string)
    ensures SplitLines(CleanMarkdownStripAll(md)) == NonBlank(TrimmedLines(md))
    ensures forall l :: l in SplitLines(CleanMarkdownStripAll(md)) ==> l != "" && Stripped(l)
  {
    var t := TrimmedLines(md);
    var n := NonBlank(t);
    StripAllIsFilter(md);
    assert forall l :: l in n ==> l in t;
    SplitJoinedClean(n);
  }

  /** Running the cleaner on its own output changes nothing. */
  lemma StripAllIdempotent(md: string)
    ensures CleanMarkdownStripAll(CleanMarkdownStripAll(md)) == CleanMarkdownStripAll(md)
  {
    var out := CleanMarkdownStripAll(md);
    var t := TrimmedLines(md);
    var n := NonBlank(t);
    StripAllIsFilter(md);
    assert out == Join(n, "\n");
    assert forall l :: l in n ==> l in t;
    SplitJoinedClean(n);
    assert TrimmedLines(out) == MapStrip(n);
    MapStripStripped(n);
    NonBlankOfClean(n);
    StripAllIsFilter(out);
  }

  /** Empty or all-whitespace input, and only such input, gives "". */
  lemma StripAllEmptyIff(md: string)
    ensures CleanMarkdownStripAll(md) == "" <==> AllSpace(md)
  {
    var n := NonBlank(TrimmedLines(md));
    StripAllIsFilter(md);
    TrimmedLinesBlank(md);
    if n != [] {
      assert n[0] in n;
      JoinFirst(n, "\n");
    }
  }
}
