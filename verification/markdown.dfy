/** The block structure `renderMarkdown` gives an assistant reply: the text is
    split into lines, each line is classified, consecutive list lines are
    gathered into one bullet list, and headings and paragraphs stand alone.
    Blank lines produce nothing and do not end a list.

    Inline formatting (bold, italics, code spans) is not part of this model;
    a block keeps the raw text it would hand to the inline formatter. */
module Markdown {
  import opened Wrappers
  import opened JsText

  datatype Block =
    | Heading4(text: string)
    | Heading3(text: string)
    | BulletList(items: seq<string>)
    | Paragraph(text: string)

  /** What one line of the reply is, with the text that remains once its
      marker is removed. */
  datatype LineKind =
    | H4Line(text: string)
    | H3Line(text: string)
    | ItemLine(text: string)
    | TextLine(text: string)
    | BlankLine

  // ---------------------------------------------------------------------------
  // Line classification
  // ---------------------------------------------------------------------------

  /** `/^[\-\*]\s/`: a dash or an asterisk followed by white space. */
  predicate IsBullet(line: string) {
    |line| >= 2 && (line[0] == '-' || line[0] == '*') && IsJsSpace(line[1])
  }

  /** `/^\d+\.\s/`: one or more digits, a full stop, then white space. The
      digit run is the longest one, since a full stop is not a digit. */
  predicate IsNumbered(line: string) {
    var d := RunLength(line, Decimal);
    d >= 1 && d + 2 <= |line| && line[d] == '.' && IsJsSpace(line[d + 1])
  }

  /** The text of a list line: `line.slice(2)` for a bullet, the line with its
      `/^\d+\.\s/` prefix replaced by nothing for a numbered item. */
  function ItemText(line: string): (t: string)
    requires IsBullet(line) || IsNumbered(line)
    ensures |t| <= |line| - 2
    ensures t == line[|line| - |t|..]
    ensures IsBullet(line) ==> |line| - |t| == 2
    ensures !IsBullet(line) ==>
              var k := |line| - |t|;
              && k >= 3
              && AllDigits(line[..k - 2], Decimal)
              && line[k - 2] == '.'
              && IsJsSpace(line[k - 1])
  {
    if IsBullet(line) then line[2..] else line[RunLength(line, Decimal) + 2..]
  }

  /** The tests of the line loop in their order: a `### ` heading, a `## `
      heading, a bullet, a numbered item, a line whose trim is non-empty, and
      otherwise a blank line. */
  function Classify(line: string): LineKind {
    if StartsWith(line, "### ") then H4Line(line[4..])
    else if StartsWith(line, "## ") then H3Line(line[3..])
    else if IsBullet(line) || IsNumbered(line) then ItemLine(ItemText(line))
    else if !IsBlank(line) then TextLine(line)
    else BlankLine
  }

  /** What each kind of line means: the heading tests take precedence over
      the list tests, list lines lose their marker, and a line is blank
      exactly when it is all white space, since no marker starts with white
      space. */
  lemma ClassifyMeaning(line: string)
    ensures var k := Classify(line);
            && (k.H4Line? <==> StartsWith(line, "### "))
            && (k.H4Line? ==> k.text == line[4..])
            && (k.H3Line? <==> !StartsWith(line, "### ") && StartsWith(line, "## "))
            && (k.H3Line? ==> k.text == line[3..])
            && (k.ItemLine? <==> !StartsWith(line, "## ") && (IsBullet(line) || IsNumbered(line)))
            && (k.ItemLine? ==> k.text == ItemText(line))
            && (k.TextLine? ==> k.text == line)
            && (k.BlankLine? <==> IsBlank(line))
  {
    if StartsWith(line, "### ") {
      assert line[0] == "### "[0];
    } else if StartsWith(line, "## ") {
      assert line[0] == "## "[0];
    } else if IsNumbered(line) {
      DigitIsNotSpace(line[0]);
    }
  }

  // ---------------------------------------------------------------------------
  // The line loop
  // ---------------------------------------------------------------------------

  /** The loop state: the blocks emitted so far and the list items waiting
      for `flushList`. */
  datatype State = State(blocks: seq<Block>, pending: seq<string>)

  const Start: State := State([], [])

  /** `flushList()`: a non-empty run of pending items becomes one list. */
  function Flush(st: State): State {
    if |st.pending| > 0 then State(st.blocks + [BulletList(st.pending)], []) else st
  }

  function Emit(st: State, b: Block): State {
    var f := Flush(st);
    State(f.blocks + [b], [])
  }

  /** One iteration of `lines.forEach`. */
  function Step(st: State, line: string): State {
    match Classify(line)
    case H4Line(t) => Emit(st, Heading4(t))
    case H3Line(t) => Emit(st, Heading3(t))
    case ItemLine(t) => State(st.blocks, st.pending + [t])
    case TextLine(t) => Emit(st, Paragraph(t))
    case BlankLine => st
  }

  function Run(st: State, lines: seq<string>): State
    decreases |lines|
  {
    if |lines| == 0 then st else Run(Step(st, lines[0]), lines[1..])
  }

  // ---------------------------------------------------------------------------
  // Reference: what the blocks say, and how they may be grouped
  // ---------------------------------------------------------------------------

  function ItemEntries(items: seq<string>): (es: seq<LineKind>)
    ensures |es| == |items|
    ensures forall i :: 0 <= i < |items| ==> es[i] == ItemLine(items[i])
  {
    seq(|items|, i requires 0 <= i < |items| => ItemLine(items[i]))
  }

  /** The lines a block stands for, markers stripped. */
  function BlockEntries(b: Block): seq<LineKind> {
    match b
    case Heading4(t) => [H4Line(t)]
    case Heading3(t) => [H3Line(t)]
    case BulletList(items) => ItemEntries(items)
    case Paragraph(t) => [TextLine(t)]
  }

  /** All the lines the blocks stand for, in order. */
  function Entries(bs: seq<Block>): seq<LineKind> {
    if |bs| == 0 then [] else BlockEntries(bs[0]) + Entries(bs[1..])
  }

  /** The classification of a line, if it is not blank. */
  function KindEntry(line: string): seq<LineKind> {
    var k := Classify(line);
    if k.BlankLine? then [] else [k]
  }

  /** The classified non-blank lines, in order. */
  function Kinds(lines: seq<string>): seq<LineKind> {
    if |lines| == 0 then [] else KindEntry(lines[0]) + Kinds(lines[1..])
  }

  /** No list is empty and no two lists are adjacent: every maximal run of
      list lines forms exactly one list. */
  predicate WellGrouped(bs: seq<Block>) {
    && (forall i :: 0 <= i < |bs| && bs[i].BulletList? ==> |bs[i].items| > 0)
    && (forall i :: 0 <= i < |bs| - 1 && bs[i].BulletList? ==> !bs[i + 1].BulletList?)
  }

  /** Inside the loop the blocks are well grouped and never end with a list:
      every flush inside the loop is followed by a heading or a paragraph. */
  predicate GoodState(st: State) {
    && WellGrouped(st.blocks)
    && (|st.blocks| > 0 ==> !st.blocks[|st.blocks| - 1].BulletList?)
  }

  function StateEntries(st: State): seq<LineKind> {
    Entries(st.blocks) + ItemEntries(st.pending)
  }

  // ---------------------------------------------------------------------------
  // The renderer and its characterisation
  // ---------------------------------------------------------------------------

  /** The blocks of a sequence of lines: the well-grouped blocks that stand for
      exactly the non-blank lines, in order. */
  function Render(lines: seq<string>): (bs: seq<Block>)
    ensures WellGrouped(bs)
    ensures Entries(bs) == Kinds(lines)
  {
    RunKeepsGood(Start, lines);
    RunEntries(Start, lines);
    FlushGood(Run(Start, lines));
    FlushEntries(Run(Start, lines));
    assert StateEntries(Start) == [];
    Flush(Run(Start, lines)).blocks
  }

  /** `renderMarkdown(text)`: nothing for an absent or empty text, otherwise
      the blocks of its `\n`-separated lines. */
  function RenderMarkdown(text: Option<string>): (r: Option<seq<Block>>)
    ensures r.None? <==> text.None? || text.value == ""
    ensures r.Some? ==> WellGrouped(r.value) && Entries(r.value) == Kinds(Split(text.value, '\n'))
  {
    match text
    case None => None
    case Some(s) => if s == "" then None else Some(Render(Split(s, '\n')))
  }

  // ---------------------------------------------------------------------------
  // Proofs
  // ---------------------------------------------------------------------------

  lemma {:induction false} EntriesConcat(a: seq<Block>, b: seq<Block>)
    ensures Entries(a + b) == Entries(a) + Entries(b)
    decreases |a|
  {
    if |a| == 0 {
      assert a + b == b;
    } else {
      assert (a + b)[1..] == a[1..] + b;
      EntriesConcat(a[1..], b);
    }
  }

  lemma EntriesAppend(a: seq<Block>, b: Block)
    ensures Entries(a + [b]) == Entries(a) + BlockEntries(b)
  {
    EntriesConcat(a, [b]);
    assert [b][1..] == [];
  }

  lemma FlushEntries(st: State)
    ensures Flush(st).pending == []
    ensures Entries(Flush(st).blocks) == StateEntries(st)
  {
    if |st.pending| > 0 {
      EntriesAppend(st.blocks, BulletList(st.pending));
    } else {
      assert ItemEntries(st.pending) == [];
    }
  }

  lemma FlushGood(st: State)
    requires GoodState(st)
    ensures WellGrouped(Flush(st).blocks)
  {
  }

  lemma StepEntries(st: State, line: string)
    ensures StateEntries(Step(st, line)) == StateEntries(st) + KindEntry(line)
  {
    FlushEntries(st);
    var f := Flush(st);
    assert ItemEntries([]) == [];
    match Classify(line)
    case H4Line(t) => EntriesAppend(f.blocks, Heading4(t));
    case H3Line(t) => EntriesAppend(f.blocks, Heading3(t));
    case ItemLine(t) =>
      assert ItemEntries(st.pending + [t]) == ItemEntries(st.pending) + [ItemLine(t)];
    case TextLine(t) => EntriesAppend(f.blocks, Paragraph(t));
    case BlankLine =>
  }

  lemma StepGood(st: State, line: string)
    requires GoodState(st)
    ensures GoodState(Step(st, line))
  {
    FlushGood(st);
  }

  lemma {:induction false} RunKeepsGood(st: State, lines: seq<string>)
    requires GoodState(st)
    ensures GoodState(Run(st, lines))
    decreases |lines|
  {
    if |lines| > 0 {
      StepGood(st, lines[0]);
      RunKeepsGood(Step(st, lines[0]), lines[1..]);
    }
  }

  lemma {:induction false} RunEntries(st: State, lines: seq<string>)
    ensures StateEntries(Run(st, lines)) == StateEntries(st) + Kinds(lines)
    decreases |lines|
  {
    if |lines| == 0 {
      assert StateEntries(st) + [] == StateEntries(st);
    } else {
      var next := Step(st, lines[0]);
      StepEntries(st, lines[0]);
      RunEntries(next, lines[1..]);
      AppendChain(StateEntries(st), KindEntry(lines[0]), Kinds(lines[1..]),
                  StateEntries(next), StateEntries(Run(next, lines[1..])));
    }
  }

  /** Entries appended in two steps are appended once. Kept apart so that
      the sequence reasoning does not meet the unfolding of `Run`. */
  lemma AppendChain<T>(x: seq<T>, h: seq<T>, r: seq<T>, y: seq<T>, z: seq<T>)
    requires y == x + h && z == y + r
    ensures z == x + (h + r)
  {
  }

  // ---------------------------------------------------------------------------
  // Properties
  // ---------------------------------------------------------------------------

  lemma {:induction false} RunConcat(st: State, a: seq<string>, b: seq<string>)
    ensures Run(st, a + b) == Run(Run(st, a), b)
    decreases |a|
  {
    if |a| == 0 {
      assert a + b == b;
    } else {
      assert (a + b)[0] == a[0] && (a + b)[1..] == a[1..] + b;
      RunConcat(Step(st, a[0]), a[1..], b);
    }
  }

  /** A blank line changes nothing: in particular it does not end a list. */
  lemma BlankLineIgnored(a: seq<string>, blank: string, b: seq<string>)
    requires IsBlank(blank)
    ensures Render(a + [blank] + b) == Render(a + b)
  {
    var st := Run(Start, a);
    RunConcat(Start, a + [blank], b);
    RunConcat(Start, a, [blank]);
    BlankStep(st, blank);
    RunConcat(Start, a, b);
    assert Run(Start, a + [blank] + b) == Run(Start, a + b);
  }

  lemma BlankStep(st: State, blank: string)
    requires IsBlank(blank)
    ensures Run(st, [blank]) == st
  {
    ClassifyMeaning(blank);
    assert [blank][1..] == [];
  }

  /** A non-list block stands for one line that is not a list line. */
  lemma SingleEntry(b: Block)
    requires !b.BulletList?
    ensures |BlockEntries(b)| == 1 && !BlockEntries(b)[0].ItemLine?
  {
  }

  /** A non-list block is determined by the one line it stands for. */
  lemma SingleEntryDetermines(x: Block, y: Block)
    requires !x.BulletList? && !y.BulletList?
    requires BlockEntries(x)[0] == BlockEntries(y)[0]
    ensures x == y
  {
    match x
    case Heading4(_) =>
    case Heading3(_) =>
    case Paragraph(_) =>
  }

  /** In a well-grouped sequence the entry right after a list is not a list
      entry. */
  lemma AfterList(bs: seq<Block>)
    requires WellGrouped(bs) && |bs| > 0 && bs[0].BulletList?
    ensures var n := |bs[0].items|;
            && Entries(bs)[..n] == ItemEntries(bs[0].items)
            && Entries(bs)[n..] == Entries(bs[1..])
            && (n < |Entries(bs)| ==> !Entries(bs)[n].ItemLine?)
  {
    var n := |bs[0].items|;
    assert Entries(bs) == ItemEntries(bs[0].items) + Entries(bs[1..]);
    if |bs| > 1 {
      SingleEntry(bs[1]);
      assert Entries(bs[1..]) == BlockEntries(bs[1]) + Entries(bs[2..]);
    }
  }

  lemma WellGroupedTail(bs: seq<Block>)
    requires WellGrouped(bs) && |bs| > 0
    ensures WellGrouped(bs[1..])
  {
    var t := bs[1..];
    forall i | 0 <= i < |t| - 1 && t[i].BulletList?
      ensures !t[i + 1].BulletList?
    {
      assert t[i] == bs[i + 1] && t[i + 1] == bs[i + 2];
    }
  }

  lemma NoEntriesNoBlocks(bs: seq<Block>)
    requires WellGrouped(bs) && Entries(bs) == []
    ensures bs == []
  {
  }

  /** Two well-grouped sequences with equal entries and a list at the head of
      either have the same list at the head of both. */
  lemma SameHeadList(a: seq<Block>, b: seq<Block>)
    requires WellGrouped(a) && WellGrouped(b) && |a| > 0 && |b| > 0
    requires Entries(a) == Entries(b)
    requires a[0].BulletList?
    ensures a[0] == b[0] && Entries(a[1..]) == Entries(b[1..])
  {
    var e := Entries(a);
    var xs := a[0].items;
    assert e == ItemEntries(xs) + Entries(a[1..]);
    assert e[0] == ItemLine(xs[0]);
    assert Entries(b) == BlockEntries(b[0]) + Entries(b[1..]);
    if !b[0].BulletList? {
      SingleEntry(b[0]);
      assert false;
    }
    var ys := b[0].items;
    AfterList(a);
    AfterList(b);
    assert |xs| == |ys|;
    assert forall i :: 0 <= i < |xs| ==> ItemLine(xs[i]) == e[i] == ItemLine(ys[i]);
    assert xs == ys;
  }

  lemma SameHeadSingle(a: seq<Block>, b: seq<Block>)
    requires |a| > 0 && |b| > 0 && !a[0].BulletList? && !b[0].BulletList?
    requires Entries(a) == Entries(b)
    ensures a[0] == b[0] && Entries(a[1..]) == Entries(b[1..])
  {
    var e := Entries(a);
    assert e == BlockEntries(a[0]) + Entries(a[1..]);
    assert Entries(b) == BlockEntries(b[0]) + Entries(b[1..]);
    SingleEntry(a[0]);
    SingleEntry(b[0]);
    assert BlockEntries(a[0])[0] == e[0] == BlockEntries(b[0])[0];
    SingleEntryDetermines(a[0], b[0]);
    assert Entries(a[1..]) == e[1..] == Entries(b[1..]);
  }

  /** The grouping is forced: two well-grouped block sequences that stand for
      the same lines are equal. With the renderer's contract, this says the
      renderer's output is the only correct one. */
  lemma {:induction false} GroupingIsUnique(a: seq<Block>, b: seq<Block>)
    requires WellGrouped(a) && WellGrouped(b)
    requires Entries(a) == Entries(b)
    ensures a == b
    decreases |a|
  {
    if |a| == 0 || |b| == 0 {
      NoEntriesNoBlocks(a);
      NoEntriesNoBlocks(b);
    } else {
      if a[0].BulletList? {
        SameHeadList(a, b);
      } else if b[0].BulletList? {
        SameHeadList(b, a);
      } else {
        SameHeadSingle(a, b);
      }
      WellGroupedTail(a);
      WellGroupedTail(b);
      GroupingIsUnique(a[1..], b[1..]);
      assert a == [a[0]] + a[1..] && b == [b[0]] + b[1..];
    }
  }

  /** The number of list items in the blocks. */
  function ItemCount(bs: seq<Block>): nat {
    if |bs| == 0 then 0
    else (if bs[0].BulletList? then |bs[0].items| else 0) + ItemCount(bs[1..])
  }

  /** The number of bullet and numbered lines. */
  function MarkerCount(lines: seq<string>): nat {
    if |lines| == 0 then 0
    else (if Classify(lines[0]).ItemLine? then 1 else 0) + MarkerCount(lines[1..])
  }

  function ItemEntryCount(es: seq<LineKind>): nat {
    if |es| == 0 then 0 else (if es[0].ItemLine? then 1 else 0) + ItemEntryCount(es[1..])
  }

  lemma {:induction false} ItemEntryCountConcat(a: seq<LineKind>, b: seq<LineKind>)
    ensures ItemEntryCount(a + b) == ItemEntryCount(a) + ItemEntryCount(b)
    decreases |a|
  {
    if |a| == 0 {
      assert a + b == b;
    } else {
      assert (a + b)[1..] == a[1..] + b;
      ItemEntryCountConcat(a[1..], b);
    }
  }

  lemma {:induction false} ItemEntriesCount(items: seq<string>)
    ensures ItemEntryCount(ItemEntries(items)) == |items|
    decreases |items|
  {
    if |items| > 0 {
      assert ItemEntries(items)[1..] == ItemEntries(items[1..]);
      ItemEntriesCount(items[1..]);
    }
  }

  lemma {:induction false} EntriesItemCount(bs: seq<Block>)
    ensures ItemEntryCount(Entries(bs)) == ItemCount(bs)
    decreases |bs|
  {
    if |bs| > 0 {
      ItemEntryCountConcat(BlockEntries(bs[0]), Entries(bs[1..]));
      if bs[0].BulletList? {
        ItemEntriesCount(bs[0].items);
      }
      EntriesItemCount(bs[1..]);
    }
  }

  lemma {:induction false} KindsMarkerCount(lines: seq<string>)
    ensures ItemEntryCount(Kinds(lines)) == MarkerCount(lines)
    decreases |lines|
  {
    if |lines| > 0 {
      ItemEntryCountConcat(KindEntry(lines[0]), Kinds(lines[1..]));
      KindsMarkerCount(lines[1..]);
    }
  }

  /** Every bullet or numbered line becomes exactly one list item. */
  lemma ItemCountMatchesMarkers(lines: seq<string>)
    ensures ItemCount(Render(lines)) == MarkerCount(lines)
  {
    EntriesItemCount(Render(lines));
    KindsMarkerCount(lines);
  }
}
