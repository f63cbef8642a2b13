/**
 * A line-level view of Markdown text whose lines have all been stripped:
 * some blank lines at the top, then the non-blank lines, each with the
 * number of blank lines that follow it. Every `re.sub` the cleaners apply
 * rewrites only these blank-line counts.
 */
module MarkdownDoc {
  import opened Text

  /** A non-blank line and the number of blank lines after it. */
  datatype Item = Item(line: string, gap: nat)

  datatype Doc = Doc(lead: nat, items: seq<Item>)

  function Blanks(n: nat): (r: seq<string>)
    ensures |r| == n && forall i :: 0 <= i < n ==> r[i] == ""
  {
    seq(n, _ => "")
  }

  /** The lines the items stand for. */
  function ItemsLines(items: seq<Item>): seq<string> {
    if items == [] then [] else [items[0].line] + Blanks(items[0].gap) + ItemsLines(items[1..])
  }

  function Lines(d: Doc): seq<string> {
    Blanks(d.lead) + ItemsLines(d.items)
  }

  /** A line as `strip` over a `splitlines` piece leaves it. */
  predicate CleanLine(l: string) {
    Stripped(l) && NoLineBreak(l)
  }

  predicate CleanLines(lines: seq<string>) {
    forall l :: l in lines ==> CleanLine(l)
  }

  predicate ValidItems(items: seq<Item>) {
    forall k :: 0 <= k < |items| ==> items[k].line != "" && CleanLine(items[k].line)
  }

  /** `[line.strip() for line in md.splitlines()]`. */
  function TrimmedLines(md: string): (lines: seq<string>)
    ensures CleanLines(lines)
  {
    var pieces := SplitLines(md);
    var r := MapStrip(pieces);
    forall l | l in r ensures CleanLine(l) {
      var i :| 0 <= i < |r| && r[i] == l;
      assert pieces[i] in pieces;
      StripNoLineBreak(pieces[i]);
    }
    r
  }

  /** The number of blank lines `lines` starts with. */
  function LeadingBlanks(lines: seq<string>): (n: nat)
    ensures n <= |lines|
    ensures forall i :: 0 <= i < n ==> lines[i] == ""
    ensures n < |lines| ==> lines[n] != ""
  {
    if lines != [] && lines[0] == "" then 1 + LeadingBlanks(lines[1..]) else 0
  }

  function ParseItems(lines: seq<string>): (items: seq<Item>)
    requires lines == [] || lines[0] != ""
    ensures forall k :: 0 <= k < |items| ==> items[k].line in lines && items[k].line != ""
    decreases |lines|
  {
    if lines == [] then []
    else
      var g := LeadingBlanks(lines[1..]);
      var rest := ParseItems(lines[1 + g..]);
      assert forall k :: 0 <= k < |rest| ==> rest[k].line in lines;
      [Item(lines[0], g)] + rest
  }

  /** The view of a list of lines. */
  function Parse(lines: seq<string>): Doc {
    var n := LeadingBlanks(lines);
    Doc(n, ParseItems(lines[n..]))
  }

  lemma {:induction false} ParseItemsLines(lines: seq<string>)
    requires lines == [] || lines[0] != ""
    ensures ItemsLines(ParseItems(lines)) == lines
    decreases |lines|
  {
    if lines != [] {
      var g := LeadingBlanks(lines[1..]);
      var rest := lines[1 + g..];
      assert ParseItems(lines) == [Item(lines[0], g)] + ParseItems(rest);
      ItemsLinesPrepend(Item(lines[0], g), ParseItems(rest));
      ParseItemsLines(rest);
      LeadingBlanksSplit(lines[1..]);
      assert lines == [lines[0]] + lines[1..];
    }
  }

  lemma ItemsLinesPrepend(it: Item, items: seq<Item>)
    ensures ItemsLines([it] + items) == [it.line] + (Blanks(it.gap) + ItemsLines(items))
  {
    assert ([it] + items)[1..] == items;
  }

  /** A list of lines is its leading blank lines and the rest. */
  lemma LeadingBlanksSplit(lines: seq<string>)
    ensures lines == Blanks(LeadingBlanks(lines)) + lines[LeadingBlanks(lines)..]
  {
    var n := LeadingBlanks(lines);
    assert lines[..n] == Blanks(n);
    assert lines == lines[..n] + lines[n..];
  }

  /** The view loses nothing: it stands for exactly the lines it came from. */
  lemma ParseLines(lines: seq<string>)
    ensures Lines(Parse(lines)) == lines
  {
    var n := LeadingBlanks(lines);
    ParseItemsLines(lines[n..]);
    LeadingBlanksSplit(lines);
  }

  lemma ParseValid(lines: seq<string>)
    requires CleanLines(lines)
    ensures ValidItems(Parse(lines).items)
  {
    var n := LeadingBlanks(lines);
    assert forall l :: l in lines[n..] ==> l in lines;
  }

  lemma {:induction false} LeadingBlanksOfItems(items: seq<Item>, a: nat)
    requires ValidItems(items)
    ensures LeadingBlanks(Blanks(a) + ItemsLines(items)) == a
    decreases a
  {
    if a > 0 {
      assert (Blanks(a) + ItemsLines(items))[1..] == Blanks(a - 1) + ItemsLines(items);
      LeadingBlanksOfItems(items, a - 1);
    } else {
      assert Blanks(a) + ItemsLines(items) == ItemsLines(items);
    }
  }

  lemma {:induction false} ParseItemsOfLines(items: seq<Item>)
    requires ValidItems(items)
    ensures ItemsLines(items) == [] || ItemsLines(items)[0] != ""
    ensures ParseItems(ItemsLines(items)) == items
  {
    if items != [] {
      var lines := ItemsLines(items);
      var tail := ItemsLines(items[1..]);
      assert lines[1..] == Blanks(items[0].gap) + tail;
      LeadingBlanksOfItems(items[1..], items[0].gap);
      assert lines[1 + items[0].gap..] == tail;
      ParseItemsOfLines(items[1..]);
    }
  }

  /** Parsing the lines of valid items gives the items back, with no blank lines on top. */
  lemma ParseOfItems(items: seq<Item>)
    requires ValidItems(items)
    ensures Parse(ItemsLines(items)) == Doc(0, items)
  {
    ParseItemsOfLines(items);
  }

  /** The non-blank lines of the items, in order. */
  function ItemLines(items: seq<Item>): (r: seq<string>)
    ensures |r| == |items| && forall k :: 0 <= k < |items| ==> r[k] == items[k].line
  {
    seq(|items|, k requires 0 <= k < |items| => items[k].line)
  }

  /** Validity depends only on the lines of the items. */
  lemma SameLinesValid(a: seq<Item>, b: seq<Item>)
    requires ValidItems(a) && ItemLines(a) == ItemLines(b)
    ensures ValidItems(b)
  {
    forall k | 0 <= k < |b|
      ensures b[k].line != "" && CleanLine(b[k].line)
    {
      assert b[k].line == ItemLines(b)[k] == ItemLines(a)[k] == a[k].line;
    }
  }

  lemma NonBlankBlanks(n: nat)
    ensures NonBlank(Blanks(n)) == []
  {
    if n > 0 {
      assert Blanks(n)[1..] == Blanks(n - 1);
      NonBlankBlanks(n - 1);
    }
  }

  lemma {:induction false} NonBlankItemsLines(items: seq<Item>)
    requires ValidItems(items)
    ensures NonBlank(ItemsLines(items)) == ItemLines(items)
  {
    if items != [] {
      var it := items[0];
      var tail := ItemsLines(items[1..]);
      ValidTail(items);
      calc {
        NonBlank(ItemsLines(items));
        { ItemsLinesCons(items); }
        NonBlank([it.line] + (Blanks(it.gap) + tail));
        { NonBlankCons(it.line, Blanks(it.gap) + tail); }
        [it.line] + NonBlank(Blanks(it.gap) + tail);
        { NonBlankAppend(Blanks(it.gap), tail); NonBlankBlanks(it.gap); }
        [it.line] + NonBlank(tail);
        { NonBlankItemsLines(items[1..]); }
        [it.line] + ItemLines(items[1..]);
        { ItemLinesCons(items); }
        ItemLines(items);
      }
    }
  }

  lemma ItemsLinesCons(items: seq<Item>)
    requires items != []
    ensures ItemsLines(items) == [items[0].line] + (Blanks(items[0].gap) + ItemsLines(items[1..]))
  {
  }

  lemma ItemLinesCons(items: seq<Item>)
    requires items != []
    ensures ItemLines(items) == [items[0].line] + ItemLines(items[1..])
  {
  }

  lemma ValidTail(items: seq<Item>)
    requires items != [] && ValidItems(items)
    ensures items[0].line != "" && ValidItems(items[1..])
  {
    assert forall k :: 0 <= k < |items| - 1 ==> items[1..][k] == items[k + 1];
  }

  /** The non-blank lines a view stands for are exactly its items' lines. */
  lemma NonBlankLines(d: Doc)
    requires ValidItems(d.items)
    ensures NonBlank(Lines(d)) == ItemLines(d.items)
  {
    NonBlankAppend(Blanks(d.lead), ItemsLines(d.items));
    NonBlankBlanks(d.lead);
    NonBlankItemsLines(d.items);
  }

  lemma {:induction false} ItemsLinesAppend(a: seq<Item>, b: seq<Item>)
    ensures ItemsLines(a + b) == ItemsLines(a) + ItemsLines(b)
    decreases |a|
  {
    if a == [] {
      assert a + b == b;
    } else {
      assert (a + b)[1..] == a[1..] + b;
      ItemsLinesAppend(a[1..], b);
    }
  }

  /** The items with no blank line after the last one. */
  function CloseLast(items: seq<Item>): (r: seq<Item>)
    ensures |r| == |items|
    ensures forall k :: 0 <= k < |items| ==>
      r[k] == Item(items[k].line, if k + 1 < |items| then items[k].gap else 0)
  {
    if items == [] then [] else items[..|items| - 1] + [Item(items[|items| - 1].line, 0)]
  }

  lemma {:induction false} JoinBlanks(n: nat)
    requires n >= 1
    ensures Join(Blanks(n), "\n") == Rep('\n', n - 1)
  {
    if n > 1 {
      assert Blanks(n)[1..] == Blanks(n - 1);
      JoinBlanks(n - 1);
    }
  }

  lemma JoinBlanksBefore(a: nat, x: seq<string>)
    requires |x| >= 1
    ensures Join(Blanks(a) + x, "\n") == Rep('\n', a) + Join(x, "\n")
  {
    if a == 0 {
      assert Blanks(a) + x == x;
      assert Rep('\n', a) + Join(x, "\n") == Join(x, "\n");
    } else {
      calc {
        Join(Blanks(a) + x, "\n");
        { JoinAppend(Blanks(a), x, "\n"); }
        Join(Blanks(a), "\n") + "\n" + Join(x, "\n");
        { JoinBlanks(a); }
        Rep('\n', a - 1) + "\n" + Join(x, "\n");
        { RepSnoc('\n', a - 1); }
        Rep('\n', a) + Join(x, "\n");
      }
    }
  }

  lemma JoinBlanksAfter(x: seq<string>, b: nat)
    requires |x| >= 1
    ensures Join(x + Blanks(b), "\n") == Join(x, "\n") + Rep('\n', b)
  {
    if b == 0 {
      assert x + Blanks(b) == x;
      assert Join(x, "\n") + Rep('\n', b) == Join(x, "\n");
    } else {
      calc {
        Join(x + Blanks(b), "\n");
        { JoinAppend(x, Blanks(b), "\n"); }
        Join(x, "\n") + "\n" + Join(Blanks(b), "\n");
        { JoinBlanks(b); }
        Join(x, "\n") + "\n" + Rep('\n', b - 1);
        { RepCons('\n', b - 1); }
        Join(x, "\n") + Rep('\n', b);
      }
    }
  }

  lemma {:induction false} LinesCloseLast(items: seq<Item>)
    requires items != []
    ensures ItemsLines(items) == ItemsLines(CloseLast(items)) + Blanks(items[|items| - 1].gap)
  {
    var c := CloseLast(items);
    if |items| == 1 {
      assert c == [Item(items[0].line, 0)];
      assert ItemsLines(c) == [items[0].line] + Blanks(0) + ItemsLines([]);
    } else {
      var rest := items[1..];
      assert c[0] == items[0];
      assert c[1..] == CloseLast(rest);
      LinesCloseLast(rest);
      assert ItemsLines(c) == [items[0].line] + Blanks(items[0].gap) + ItemsLines(CloseLast(rest));
    }
  }

  lemma {:induction false} ItemsLinesEnds(items: seq<Item>)
    requires items != [] && ValidItems(items)
    ensures var x := ItemsLines(CloseLast(items));
      x != [] && x[0] == items[0].line && x[|x| - 1] == items[|items| - 1].line
  {
    var n := |items|;
    var x := ItemsLines(CloseLast(items));
    ItemsLinesAppend(items[..n - 1], [Item(items[n - 1].line, 0)]);
    assert ItemsLines([Item(items[n - 1].line, 0)]) == [items[n - 1].line];
    if n > 1 {
      assert CloseLast(items)[0] == items[0];
    }
  }

  /** `s.strip()` on the text of a view removes the blank lines on top and the
    * ones after the last line, and nothing else. */
  lemma StripLines(d: Doc)
    requires ValidItems(d.items)
    ensures Strip(Join(Lines(d), "\n")) == Join(ItemsLines(CloseLast(d.items)), "\n")
  {
    if d.items == [] {
      assert Lines(d) == Blanks(d.lead);
      if d.lead > 0 {
        JoinBlanks(d.lead);
      }
      assert AllSpace(Join(Lines(d), "\n"));
    } else {
      var x := ItemsLines(CloseLast(d.items));
      var b := d.items[|d.items| - 1].gap;
      LinesCloseLast(d.items);
      ItemsLinesEnds(d.items);
      assert Lines(d) == Blanks(d.lead) + (x + Blanks(b));
      JoinBlanksBefore(d.lead, x + Blanks(b));
      JoinBlanksAfter(x, b);
      var j := Join(x, "\n");
      JoinFirst(x, "\n");
      JoinLast(x, "\n");
      assert Stripped(x[0]) && Stripped(x[|x| - 1]);
      assert Join(Lines(d), "\n") == Rep('\n', d.lead) + j + Rep('\n', b);
      StripAround(Rep('\n', d.lead), j, Rep('\n', b));
    }
  }

  /** Every line of the items is clean, blank lines included. */
  lemma {:induction false} ItemsLinesClean(items: seq<Item>)
    requires ValidItems(items)
    ensures CleanLines(ItemsLines(items))
  {
    if items != [] {
      ItemsLinesClean(items[1..]);
    }
  }

  /** With at most one blank line after each item, no two blank lines follow each other. */
  lemma {:induction false} ItemsLinesNoTwoBlanks(items: seq<Item>)
    requires ValidItems(items)
    requires forall k :: 0 <= k < |items| ==> items[k].gap <= 1
    ensures NoTwoBlanks(ItemsLines(items))
    ensures items != [] ==> ItemsLines(items)[0] == items[0].line
  {
    if items != [] {
      var it := items[0];
      var tail := ItemsLines(items[1..]);
      ItemsLinesNoTwoBlanks(items[1..]);
      var l := ItemsLines(items);
      var b := Blanks(it.gap);
      assert l == [it.line] + b + tail;
      forall i | 0 <= i < |l| - 1 ensures l[i] != "" || l[i + 1] != "" {
        if i == 0 {
        } else if i < 1 + |b| {
          assert i == 1 && |b| == 1;
          assert l[2] == tail[0] == items[1].line;
        } else {
          assert l[i] == tail[i - 1 - |b|] && l[i + 1] == tail[i - |b|];
        }
      }
    }
  }

  /** The trimmed lines of `md` carry no text exactly when `md` is all whitespace. */
  lemma TrimmedLinesBlank(md: string)
    ensures NonBlank(TrimmedLines(md)) == [] <==> AllSpace(md)
  {
    var pieces := SplitLines(md);
    var t := TrimmedLines(md);
    assert (forall i :: 0 <= i < |t| ==> t[i] == "") <==> (forall i :: 0 <= i < |pieces| ==> AllSpace(pieces[i])) by {
      assert |t| == |pieces|;
      forall i | 0 <= i < |t| ensures t[i] == "" <==> AllSpace(pieces[i]) {
        assert t[i] == Strip(pieces[i]);
      }
    }
    NonBlankEmpty(t);
    AllSpaceLines(md);
  }
}
