/**
 * `clean_markdown` of the transcription service (api/app/utils.py): trim
 * every line, collapse runs of blank lines to one, drop the blank lines
 * between list items of the same kind, strip the text.
 *
 * `CleanMarkdownAsWritten` follows the numbered-list pattern as written,
 * where `\s` after `\d+\.` may match a line break; `CleanMarkdown` is the
 * corrected cleaner, where that whitespace must be inside the line.
 */
module CleanMarkdown {
  import opened Text
  import opened MarkdownDoc
  import opened MarkdownPasses

  /** The cleaner, with the numbered-list whitespace class as a parameter. */
  function CleanWith(md: string, lineBreakAfterDot: bool): string {
    var d := Parse(TrimmedLines(md));              // "\n".join(line.strip() for line in md.splitlines())
    var c := Collapse(d);                          // r"\n\s*\n+" -> "\n\n"
    var b := BulletPass(c);                        // bullet items
    var o := NumberedPass(b, lineBreakAfterDot);   // numbered items
    Strip(Join(Lines(o), "\n"))                    // .strip()
  }

  /** The cleaner as written. */
  function CleanMarkdownAsWritten(md: string): string {
    CleanWith(md, true)
  }

  /** The cleaner with the numbered-list whitespace kept inside the line. */
  function CleanMarkdown(md: string): string {
    CleanWith(md, false)
  }

  /** The blank lines after item `k` go because of one of the list patterns. */
  predicate Merged(items: seq<Item>, k: nat, lb: bool)
    requires k < |items|
  {
    BulletJoin(items, k) || NumberedJoin(items, k, lb)
  }

  /** What the cleaner leaves, described item by item: every non-blank line, in
    * order, followed by one blank line exactly when the input had at least one
    * there, it is not the last line, and no list pattern removes it. */
  function Reference(items: seq<Item>, lb: bool): (r: seq<Item>)
    ensures |r| == |items|
    ensures forall k :: 0 <= k < |items| ==> r[k].line == items[k].line && r[k].gap <= 1
  {
    var n := |items|;
    seq(n, k requires 0 <= k < n =>
      Item(items[k].line, if k + 1 < n && items[k].gap >= 1 && !Merged(items, k, lb) then 1 else 0))
  }

  /** The items of `md` as the cleaner sees them. */
  function InputItems(md: string): (items: seq<Item>)
    ensures ValidItems(items)
  {
    var t := TrimmedLines(md);
    ParseValid(t);
    Parse(t).items
  }

  /** The cleaned items of `md`. */
  function Cleaned(md: string, lb: bool): seq<Item> {
    Reference(InputItems(md), lb)
  }

  lemma NumberedStartAfterPasses(d: Doc, j: nat, lb: bool)
    requires j < |d.items|
    ensures NumberedStart(BulletPass(Collapse(d)).items, j, lb) == NumberedStart(d.items, j, lb)
  {
    var c := Collapse(d);
    var b := BulletPass(c);
    assert b.items[j].line == d.items[j].line;
    if j + 1 == |d.items| {
      assert !BulletJoin(c.items, j);
    }
  }

  lemma NumberedJoinAfterPasses(d: Doc, k: nat, lb: bool)
    requires k < |d.items|
    ensures NumberedJoin(BulletPass(Collapse(d)).items, k, lb)
         == (NumberedJoin(d.items, k, lb) && !BulletJoin(d.items, k))
  {
    var c := Collapse(d);
    var b := BulletPass(c);
    assert BulletJoin(c.items, k) == BulletJoin(d.items, k);
    if k + 1 < |d.items| {
      NumberedStartAfterPasses(d, k + 1, lb);
    }
    if k >= 1 && NumberedBare(d.items[k - 1].line) {
      NumberedBareNotBullet(d.items[k - 1].line);
      assert !BulletJoin(c.items, k - 1);
    }
  }

  lemma PassesItem(d: Doc, lb: bool, k: nat)
    requires k < |d.items|
    ensures var o := NumberedPass(BulletPass(Collapse(d)), lb);
      |o.items| == |d.items| && CloseLast(o.items)[k] == Reference(d.items, lb)[k]
  {
    var c := Collapse(d);
    var b := BulletPass(c);
    NumberedScanSpec(b.items, lb);
    NumberedJoinAfterPasses(d, k, lb);
    assert BulletJoin(c.items, k) == BulletJoin(d.items, k);
  }

  /** The three substitutions and the final strip, item by item. */
  lemma PassesReference(d: Doc, lb: bool)
    ensures var o := NumberedPass(BulletPass(Collapse(d)), lb);
      |o.items| == |d.items| && CloseLast(o.items) == Reference(d.items, lb)
  {
    var o := NumberedPass(BulletPass(Collapse(d)), lb);
    NumberedScanSpec(BulletPass(Collapse(d)).items, lb);
    forall k | 0 <= k < |d.items| ensures CloseLast(o.items)[k] == Reference(d.items, lb)[k] {
      PassesItem(d, lb, k);
    }
  }

  /** The cleaner's text is the lines of the reference description joined with "\n". */
  lemma CleanWithReference(md: string, lb: bool)
    ensures CleanWith(md, lb) == Join(ItemsLines(Cleaned(md, lb)), "\n")
  {
    var d := Parse(TrimmedLines(md));
    var b := BulletPass(Collapse(d));
    var o := NumberedPass(b, lb);
    assert d.items == InputItems(md);
    CollapsePassesKeepLines(d, lb);
    SameLinesValid(d.items, o.items);
    StripLines(o);
    PassesReference(d, lb);
  }

  /** The reference ends without a blank line and has no surrounding whitespace inside its lines. */
  lemma CleanedShape(md: string, lb: bool)
    ensures var r := Cleaned(md, lb);
      ValidItems(r) && CloseLast(r) == r && (forall k :: 0 <= k < |r| ==> r[k].gap <= 1)
  {
    ReferenceShape(InputItems(md), lb);
  }

  lemma CollapsePassesKeepLines(d: Doc, lb: bool)
    ensures ItemLines(NumberedPass(BulletPass(Collapse(d)), lb).items) == ItemLines(d.items)
  {
    var c := Collapse(d);
    var b := BulletPass(c);
    NumberedScanSpec(b.items, lb);
    var o := NumberedPass(b, lb);
    assert ItemLines(c.items) == ItemLines(d.items);
    assert ItemLines(b.items) == ItemLines(c.items);
    assert ItemLines(o.items) == ItemLines(b.items);
  }

  lemma ReferenceShape(items: seq<Item>, lb: bool)
    requires ValidItems(items)
    ensures var r := Reference(items, lb);
      ValidItems(r) && CloseLast(r) == r && (forall k :: 0 <= k < |r| ==> r[k].gap <= 1)
  {
    var r := Reference(items, lb);
    assert ItemLines(r) == ItemLines(items);
    SameLinesValid(items, r);
    assert forall k :: 0 <= k < |r| ==> CloseLast(r)[k] == r[k];
  }

  /** The cleaner's lines are the lines of the reference description. */
  lemma OutputLines(md: string, lb: bool)
    ensures SplitLines(CleanWith(md, lb)) == ItemsLines(Cleaned(md, lb))
  {
    var r := Cleaned(md, lb);
    var x := ItemsLines(r);
    CleanWithReference(md, lb);
    CleanedShape(md, lb);
    ItemsLinesClean(r);
    SplitLinesJoin(x);
    if r != [] {
      ItemsLinesEnds(r);
    }
  }

  /** No text is lost, added or reordered: the non-blank lines of the output are
    * the non-blank trimmed lines of the input. */
  lemma CleanKeepsText(md: string, lb: bool)
    ensures NonBlank(SplitLines(CleanWith(md, lb))) == NonBlank(TrimmedLines(md))
  {
    var t := TrimmedLines(md);
    ParseLines(t);
    ParseValid(t);
    NonBlankLines(Parse(t));
    OutputLines(md, lb);
    CleanedShape(md, lb);
    NonBlankItemsLines(Cleaned(md, lb));
  }

  /** Every output line is stripped, there is no blank line at the top or the bottom,
    * and no two blank lines follow each other. */
  lemma CleanTidy(md: string, lb: bool)
    ensures var lines := SplitLines(CleanWith(md, lb));
      (forall l :: l in lines ==> Stripped(l))
      && NoTwoBlanks(lines)
      && (lines != [] ==> lines[0] != "" && lines[|lines| - 1] != "")
  {
    var r := Cleaned(md, lb);
    OutputLines(md, lb);
    CleanedShape(md, lb);
    ItemsLinesClean(r);
    ItemsLinesNoTwoBlanks(r);
    if r != [] {
      ItemsLinesEnds(r);
    }
  }

  /** The output never has three line breaks in a row. */
  lemma CleanNoTripleBreak(md: string, lb: bool)
    ensures NoTripleBreak(CleanWith(md, lb))
  {
    var r := Cleaned(md, lb);
    CleanWithReference(md, lb);
    CleanedShape(md, lb);
    ItemsLinesClean(r);
    ItemsLinesNoTwoBlanks(r);
    JoinNoTripleBreak(ItemsLines(r));
  }

  /** Two consecutive bullet items, and two consecutive in-line numbered items,
    * are never separated by a blank line. */
  lemma ListItemsAdjacent(items: seq<Item>, lb: bool, k: nat)
    requires k + 1 < |items|
    ensures BulletLine(items[k].line) && BulletHead(items[k + 1].line) ==> Reference(items, lb)[k].gap == 0
    ensures NumberedGroup(items[k].line) && NumberedInline(items[k + 1].line) ==> Reference(items, lb)[k].gap == 0
  {
    var r := Reference(items, lb);
    if items[k].gap >= 1 {
      assert BulletLine(items[k].line) && BulletHead(items[k + 1].line) ==> BulletJoin(items, k);
      assert NumberedInline(items[k + 1].line) ==> NumberedStart(items, k + 1, lb);
    }
  }

  /** The blank line after a list item stays when the next line does not start an
    * item of the same kind. For a bullet item that holds unless, as written, a
    * bare `\d+.` line directly above it takes it along into a numbered match. */
  lemma BlankKeptAfterItem(items: seq<Item>, lb: bool, k: nat)
    requires k + 1 < |items| && items[k].gap >= 1
    ensures (BulletLine(items[k].line) && !BulletHead(items[k + 1].line)
             && !(lb && k >= 1 && NumberedBare(items[k - 1].line) && items[k - 1].gap == 0))
            ==> Reference(items, lb)[k].gap == 1
    ensures NumberedGroup(items[k].line) && !NumberedStart(items, k + 1, lb) ==> Reference(items, lb)[k].gap == 1
    ensures !BulletHead(items[k + 1].line) && !NumberedStart(items, k + 1, lb) ==> Reference(items, lb)[k].gap == 1
  {
    if BulletLine(items[k].line) {
      BulletNotNumbered(items[k].line);
    }
    if NumberedGroup(items[k].line) {
      assert IsDigit(items[k].line[0]);
    }
  }

  /** A bullet line is not an in-line numbered item. */
  lemma BulletNotNumbered(l: string)
    requires BulletLine(l)
    ensures !NumberedInline(l) && !NumberedGroup(l)
  {
    assert DigitRun(l) == 0;
  }

  /** Parsing the output again gives the reference items. */
  lemma InputItemsOfOutput(md: string, lb: bool)
    ensures InputItems(CleanWith(md, lb)) == Cleaned(md, lb)
  {
    var r := Cleaned(md, lb);
    OutputLines(md, lb);
    CleanedShape(md, lb);
    ItemsLinesClean(r);
    MapStripStripped(ItemsLines(r));
    ParseOfItems(r);
  }

  /** For the corrected cleaner, the reference of a reference is itself. */
  lemma ReferenceFixpoint(items: seq<Item>)
    requires ValidItems(items)
    ensures Reference(Reference(items, false), false) == Reference(items, false)
  {
    var r := Reference(items, false);
    forall k | 0 <= k < |items| ensures Reference(r, false)[k] == r[k] {
      if r[k].gap == 1 {
        assert BulletJoin(r, k) == BulletJoin(items, k);
        assert k + 1 < |items| ==> r[k + 1].line == items[k + 1].line;
        assert NumberedJoin(r, k, false) == NumberedJoin(items, k, false);
      }
    }
  }

  /** The corrected cleaner is idempotent. */
  lemma CleanMarkdownIdempotent(md: string)
    ensures CleanMarkdown(CleanMarkdown(md)) == CleanMarkdown(md)
  {
    var out := CleanMarkdown(md);
    InputItemsOfOutput(md, false);
    CleanWithReference(out, false);
    CleanWithReference(md, false);
    ReferenceFixpoint(InputItems(md));
  }

  /** The cleaner gives "" exactly when its input is all whitespace. */
  lemma CleanEmptyIff(md: string, lb: bool)
    ensures CleanWith(md, lb) == "" <==> AllSpace(md)
  {
    var t := TrimmedLines(md);
    var r := Cleaned(md, lb);
    CleanWithReference(md, lb);
    CleanedShape(md, lb);
    ParseLines(t);
    ParseValid(t);
    NonBlankLines(Parse(t));
    TrimmedLinesBlank(md);
    if r != [] {
      ItemsLinesEnds(r);
      JoinFirst(ItemsLines(r), "\n");
    }
  }

  /** The items of a text written as clean lines joined with "\n". */
  lemma InputItemsOfJoin(items: seq<Item>)
    requires ValidItems(items) && CloseLast(items) == items
    ensures InputItems(Join(ItemsLines(items), "\n")) == items
  {
    var x := ItemsLines(items);
    ItemsLinesClean(items);
    SplitLinesJoin(x);
    if items != [] {
      ItemsLinesEnds(items);
    }
    MapStripStripped(x);
    ParseOfItems(items);
  }

  function ExampleInput(): seq<Item> {
    [Item("1.", 0), Item("2.", 1), Item("3.", 1), Item("4. b", 0)]
  }

  function ExampleOnce(): seq<Item> {
    [Item("1.", 0), Item("2.", 0), Item("3.", 1), Item("4. b", 0)]
  }

  function ExampleTwice(): seq<Item> {
    [Item("1.", 0), Item("2.", 0), Item("3.", 0), Item("4. b", 0)]
  }

  lemma ExampleDigits()
    ensures NumberedBare("1.") && NumberedBare("2.") && NumberedBare("3.")
    ensures NumberedInline("4. b") && !NumberedGroup("2.") && !NumberedGroup("3.")
  {
    assert DigitRun("1.") == 1 by { assert "1."[1..] == "."; }
    assert DigitRun("2.") == 1 by { assert "2."[1..] == "."; }
    assert DigitRun("3.") == 1 by { assert "3."[1..] == "."; }
    assert DigitRun("4. b") == 1 by { assert "4. b"[1..] == ". b"; }
  }

  lemma ExampleValid()
    ensures ValidItems(ExampleInput()) && ValidItems(ExampleOnce())
    ensures CloseLast(ExampleInput()) == ExampleInput() && CloseLast(ExampleOnce()) == ExampleOnce()
  {
    var d := ExampleInput();
    var e := ExampleOnce();
    assert forall k :: 0 <= k < 4 ==> d[k].line == e[k].line;
    assert CleanLine("1.") && CleanLine("2.") && CleanLine("3.") && CleanLine("4. b");
  }

  /** The example texts, written as `Join` builds them. */
  const InputText := ("1." + "\n") + (("2." + "\n") + (("" + "\n") + (("3." + "\n") + (("" + "\n") + "4. b"))))
  const OnceText := ("1." + "\n") + (("2." + "\n") + (("3." + "\n") + (("" + "\n") + "4. b")))
  const TwiceText := ("1." + "\n") + (("2." + "\n") + (("3." + "\n") + "4. b"))

  lemma ExampleLiterals()
    ensures InputText == "1.\n2.\n\n3.\n\n4. b"
    ensures OnceText == "1.\n2.\n3.\n\n4. b"
    ensures TwiceText == "1.\n2.\n3.\n4. b"
  {
  }

  lemma ExampleInputText()
    ensures Join(ItemsLines(ExampleInput()), "\n") == "1.\n2.\n\n3.\n\n4. b"
  {
    ExampleInputLines();
    JoinCons("", ["4. b"], "\n");
    JoinCons("3.", ["", "4. b"], "\n");
    JoinCons("", ["3.", "", "4. b"], "\n");
    JoinCons("2.", ["", "3.", "", "4. b"], "\n");
    JoinCons("1.", ["2.", "", "3.", "", "4. b"], "\n");
    assert Join(ItemsLines(ExampleInput()), "\n") == InputText;
    ExampleLiterals();
  }

  lemma ExampleOnceText()
    ensures Join(ItemsLines(ExampleOnce()), "\n") == "1.\n2.\n3.\n\n4. b"
  {
    ExampleOnceLines();
    JoinCons("", ["4. b"], "\n");
    JoinCons("3.", ["", "4. b"], "\n");
    JoinCons("2.", ["3.", "", "4. b"], "\n");
    JoinCons("1.", ["2.", "3.", "", "4. b"], "\n");
    assert Join(ItemsLines(ExampleOnce()), "\n") == OnceText;
    ExampleLiterals();
  }

  lemma ExampleTwiceText()
    ensures Join(ItemsLines(ExampleTwice()), "\n") == "1.\n2.\n3.\n4. b"
  {
    ExampleTwiceLines();
    JoinCons("3.", ["4. b"], "\n");
    JoinCons("2.", ["3.", "4. b"], "\n");
    JoinCons("1.", ["2.", "3.", "4. b"], "\n");
    assert Join(ItemsLines(ExampleTwice()), "\n") == TwiceText;
    ExampleLiterals();
  }

  lemma ExampleInputLines()
    ensures ItemsLines(ExampleInput()) == ["1.", "2.", "", "3.", "", "4. b"]
  {
    var d := ExampleInput();
    assert d[1..] == [Item("2.", 1), Item("3.", 1), Item("4. b", 0)];
    assert d[2..] == [Item("3.", 1), Item("4. b", 0)];
    assert d[3..] == [Item("4. b", 0)];
    assert ItemsLines(d[3..]) == ["4. b"] + Blanks(0) + ItemsLines([]);
    assert ItemsLines(d[2..]) == ["3."] + Blanks(1) + ItemsLines(d[3..]);
    assert ItemsLines(d[1..]) == ["2."] + Blanks(1) + ItemsLines(d[2..]);
  }

  lemma ExampleOnceLines()
    ensures ItemsLines(ExampleOnce()) == ["1.", "2.", "3.", "", "4. b"]
  {
    var d := ExampleOnce();
    assert d[1..] == [Item("2.", 0), Item("3.", 1), Item("4. b", 0)];
    assert d[2..] == [Item("3.", 1), Item("4. b", 0)];
    assert d[3..] == [Item("4. b", 0)];
    assert ItemsLines(d[3..]) == ["4. b"] + Blanks(0) + ItemsLines([]);
    assert ItemsLines(d[2..]) == ["3."] + Blanks(1) + ItemsLines(d[3..]);
    assert ItemsLines(d[1..]) == ["2."] + Blanks(0) + ItemsLines(d[2..]);
  }

  lemma ExampleTwiceLines()
    ensures ItemsLines(ExampleTwice()) == ["1.", "2.", "3.", "4. b"]
  {
    var d := ExampleTwice();
    assert d[1..] == [Item("2.", 0), Item("3.", 0), Item("4. b", 0)];
    assert d[2..] == [Item("3.", 0), Item("4. b", 0)];
    assert d[3..] == [Item("4. b", 0)];
    assert ItemsLines(d[3..]) == ["4. b"] + Blanks(0) + ItemsLines([]);
    assert ItemsLines(d[2..]) == ["3."] + Blanks(0) + ItemsLines(d[3..]);
    assert ItemsLines(d[1..]) == ["2."] + Blanks(0) + ItemsLines(d[2..]);
  }

  lemma ExampleReferences()
    ensures Reference(ExampleInput(), true) == ExampleOnce()
    ensures Reference(ExampleOnce(), true) == ExampleTwice()
  {
    ExampleDigits();
    var d := ExampleInput();
    var e := ExampleOnce();
    assert NumberedStart(d, 2, true) && NumberedStart(d, 3, true);
    assert NumberedJoin(d, 1, true) && !NumberedJoin(d, 2, true);
    assert !BulletJoin(d, 1) && !BulletJoin(d, 2);
    assert NumberedStart(e, 3, true);
    assert NumberedJoin(e, 2, true);
  }

  /**
   * The cleaner as written is not idempotent: in "1.\n2.\n\n3.\n\n4. b" the
   * first pass lets "1." take "2." along and removes the blank line after it;
   * on the second pass "2." is a bare item directly above "3." and the blank
   * line after "3." goes too.
   */
  lemma AsWrittenNotIdempotent()
    ensures CleanMarkdownAsWritten("1.\n2.\n\n3.\n\n4. b") == "1.\n2.\n3.\n\n4. b"
    ensures CleanMarkdownAsWritten("1.\n2.\n3.\n\n4. b") == "1.\n2.\n3.\n4. b"
  {
    ExampleValid();
    ExampleReferences();
    calc {
      CleanMarkdownAsWritten("1.\n2.\n\n3.\n\n4. b");
      { ExampleInputText(); }
      CleanWith(Join(ItemsLines(ExampleInput()), "\n"), true);
      { ExamplePass(ExampleInput(), ExampleOnce(), true); }
      Join(ItemsLines(ExampleOnce()), "\n");
      { ExampleOnceText(); }
      "1.\n2.\n3.\n\n4. b";
    }
    calc {
      CleanMarkdownAsWritten("1.\n2.\n3.\n\n4. b");
      { ExampleOnceText(); }
      CleanWith(Join(ItemsLines(ExampleOnce()), "\n"), true);
      { ExamplePass(ExampleOnce(), ExampleTwice(), true); }
      Join(ItemsLines(ExampleTwice()), "\n");
      { ExampleTwiceText(); }
      "1.\n2.\n3.\n4. b";
    }
  }

  /** One pass of the cleaner over the text of a valid item list. */
  lemma ExamplePass(items: seq<Item>, next: seq<Item>, lb: bool)
    requires ValidItems(items) && CloseLast(items) == items
    requires Reference(items, lb) == next
    ensures CleanWith(Join(ItemsLines(items), "\n"), lb) == Join(ItemsLines(next), "\n")
  {
    InputItemsOfJoin(items);
    CleanWithReference(Join(ItemsLines(items), "\n"), lb);
  }

  function BulletInput(): seq<Item> {
    [Item("1.", 0), Item("- x", 1), Item("2. y", 0)]
  }

  function BulletOnce(): seq<Item> {
    [Item("1.", 0), Item("- x", 0), Item("2. y", 0)]
  }

  lemma BulletExampleLines()
    ensures NumberedBare("1.") && NumberedInline("2. y") && BulletLine("- x") && !BulletHead("2. y")
  {
    assert DigitRun("1.") == 1 by { assert "1."[1..] == "."; }
    assert DigitRun("2. y") == 1 by { assert "2. y"[1..] == ". y"; }
  }

  lemma BulletExampleValid()
    ensures ValidItems(BulletInput()) && CloseLast(BulletInput()) == BulletInput()
  {
    assert CleanLine("1.") && CleanLine("- x") && CleanLine("2. y");
  }

  lemma BulletExampleReferences()
    ensures Reference(BulletInput(), true) == BulletOnce()
    ensures Reference(BulletInput(), false) == BulletInput()
  {
    BulletExampleLines();
    BulletNotNumbered("- x");
    var d := BulletInput();
    assert NumberedStart(d, 2, true) && NumberedJoin(d, 1, true);
    assert !BulletJoin(d, 1) && !NumberedJoin(d, 1, false);
  }

  const BulletInputLiteral := ("1." + "\n") + (("- x" + "\n") + (("" + "\n") + "2. y"))
  const BulletOnceLiteral := ("1." + "\n") + (("- x" + "\n") + "2. y")

  lemma BulletLiterals()
    ensures BulletInputLiteral == "1.\n- x\n\n2. y"
    ensures BulletOnceLiteral == "1.\n- x\n2. y"
  {
  }

  lemma BulletInputText()
    ensures Join(ItemsLines(BulletInput()), "\n") == "1.\n- x\n\n2. y"
  {
    var d := BulletInput();
    assert d[1..] == [Item("- x", 1), Item("2. y", 0)];
    assert d[2..] == [Item("2. y", 0)];
    assert ItemsLines(d[2..]) == ["2. y"] + Blanks(0) + ItemsLines([]);
    assert ItemsLines(d[1..]) == ["- x"] + Blanks(1) + ItemsLines(d[2..]);
    assert ItemsLines(d) == ["1.", "- x", "", "2. y"];
    JoinCons("", ["2. y"], "\n");
    JoinCons("- x", ["", "2. y"], "\n");
    JoinCons("1.", ["- x", "", "2. y"], "\n");
    assert Join(ItemsLines(d), "\n") == BulletInputLiteral;
    BulletLiterals();
  }

  lemma BulletOnceText()
    ensures Join(ItemsLines(BulletOnce()), "\n") == "1.\n- x\n2. y"
  {
    var d := BulletOnce();
    assert d[1..] == [Item("- x", 0), Item("2. y", 0)];
    assert d[2..] == [Item("2. y", 0)];
    assert ItemsLines(d[2..]) == ["2. y"] + Blanks(0) + ItemsLines([]);
    assert ItemsLines(d[1..]) == ["- x"] + Blanks(0) + ItemsLines(d[2..]);
    assert ItemsLines(d) == ["1.", "- x", "2. y"];
    JoinCons("- x", ["2. y"], "\n");
    JoinCons("1.", ["- x", "2. y"], "\n");
    assert Join(ItemsLines(d), "\n") == BulletOnceLiteral;
    BulletLiterals();
  }

  /**
   * The cleaner as written also removes a blank line after a bullet item that
   * no bullet follows: in "1.\n- x\n\n2. y" the numbered pattern matches "1.",
   * lets `\s` take the line break and `.+?` take "- x", and joins "2. y" to it.
   * The corrected cleaner keeps that blank line.
   */
  lemma AsWrittenBulletLosesBlank()
    ensures CleanMarkdownAsWritten("1.\n- x\n\n2. y") == "1.\n- x\n2. y"
    ensures CleanMarkdown("1.\n- x\n\n2. y") == "1.\n- x\n\n2. y"
  {
    BulletExampleValid();
    BulletExampleReferences();
    calc {
      CleanMarkdownAsWritten("1.\n- x\n\n2. y");
      { BulletInputText(); }
      CleanWith(Join(ItemsLines(BulletInput()), "\n"), true);
      { ExamplePass(BulletInput(), BulletOnce(), true); }
      Join(ItemsLines(BulletOnce()), "\n");
      { BulletOnceText(); }
      "1.\n- x\n2. y";
    }
    calc {
      CleanMarkdown("1.\n- x\n\n2. y");
      { BulletInputText(); }
      CleanWith(Join(ItemsLines(BulletInput()), "\n"), false);
      { ExamplePass(BulletInput(), BulletInput(), false); }
      Join(ItemsLines(BulletInput()), "\n");
      { BulletInputText(); }
      "1.\n- x\n\n2. y";
    }
  }
}
