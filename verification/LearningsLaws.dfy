/** What rewriting the learnings section promises: the last write wins, the rest of the
    file is kept, and the section ends where it ended. */
module LearningsLaws {
  import opened Wrappers
  import opened Markdown
  import opened Learnings

  // ── Facts about single lines ──────────────────────────────────────

  /** Lines as read from text. */
  ghost predicate Genuine(lines: seq<Line>) {
    forall i :: 0 <= i < |lines| ==> lines[i] == LineOf(lines[i].text)
  }

  lemma PlainText(s: string)
    requires |s| >= 2 && s[0] == '<' && s[|s| - 1] == '>'
    ensures var l := LineOf(s); !l.blank && !l.top && !l.under && l.opens.None? && l.closer.None? && Strip(s) == s
  {
  }

  /** The lines a write adds read back as what they are taken for. */
  lemma AddedLinesAreGenuine()
    ensures LineOf(START) == START_LINE && LineOf(END) == END_LINE && LineOf("") == EMPTY_LINE
  {
    PlainText(START);
    PlainText(END);
    assert |START| != |END| && HEADING[0] == '#';
  }

  lemma HeadingText(s: string)
    requires |s| >= 4 && s[0] == '#' && s[1] == '#' && s[2] == ' ' && !IsSpace(s[|s| - 1])
    ensures var l := LineOf(s); !l.blank && l.top && !l.under && l.opens.None? && l.closer.None? && Strip(s) == s
  {
    assert s[0..] == s && s[1..][0] == '#' && s[1..][1..] == s[2..] && s[2..][0] == ' ';
    assert Run(s[1..], '#') == 1 && Run(s, '#') == 2;
    assert StripLeft(s) == s && Strip(s) == s;
    assert s[2] != s[0];
  }

  lemma HeadingChars()
    ensures |HEADING| >= 4 && HEADING[0] == '#' && HEADING[1] == '#' && HEADING[2] == ' ' && HEADING[|HEADING| - 1] == 's'
    ensures HEADING != START && HEADING != END
  {
    assert START[0] == '<' && END[0] == '<';
  }

  lemma AddedHeadingIsGenuine()
    ensures LineOf(HEADING) == HEADING_LINE
  {
    HeadingChars();
    HeadingText(HEADING);
  }

  lemma UnderlinesAreNothingElse(s: string)
    requires Setext(s)
    ensures !TopAtx(s) && FenceOf(s).None?
  {
  }

  lemma MarkersAreNotBlank(s: string)
    requires MarkOf(s).StartMark?
    ensures !Blank(s)
  {
    assert START[0] == '<';
  }

  // ── Last write wins ───────────────────────────────────────────────

  lemma FirstMarkIs(lines: seq<Line>, mark: Mark, from: nat, at: nat)
    requires from <= at < |lines| && lines[at].mark == mark
    requires forall i :: from <= i < at ==> lines[i].mark != mark
    ensures FirstMark(lines, mark, from) == Some(at)
  {
  }

  predicate Free(lines: seq<Line>, mark: Mark) {
    forall i :: 0 <= i < |lines| ==> lines[i].mark != mark
  }

  lemma MarksBetween(before: seq<Line>, s: Line, first: seq<Line>, e: Line, after: seq<Line>, o: nat)
    requires s.mark.StartMark? && e.mark.EndMark? && MarkerFree(first) && o <= |before|
    requires Free(before[..o], StartMark) && (o < |before| ==> before[o].mark.StartMark?)
    requires o < |before| ==> Free(before[o + 1..], EndMark)
    ensures Marked(before + ([s] + first + [e]) + after) == Some((o, |before| + 1 + |first|))
  {
    var lines, c := before + ([s] + first + [e]) + after, |before| + 1 + |first|;
    forall i | 0 <= i < o ensures !lines[i].mark.StartMark? {
      assert lines[i] == before[..o][i];
    }
    forall i | o < i < c ensures !lines[i].mark.EndMark? {
      if i < |before| {
        assert lines[i] == before[o + 1..][i - o - 1];
      } else if i > |before| {
        assert lines[i] == first[i - |before| - 1];
      }
    }
    FirstMarkIs(lines, StartMark, 0, o);
    FirstMarkIs(lines, EndMark, o + 1, c);
  }

  lemma MarksOfBlock(before: seq<Line>, first: seq<Line>, after: seq<Line>, o: nat)
    requires MarkerFree(first) && o <= |before|
    requires Free(before[..o], StartMark) && (o < |before| ==> before[o].mark.StartMark?)
    requires o < |before| ==> Free(before[o + 1..], EndMark)
    ensures Marked(before + Block(first) + after) == Some((o, |before| + 1 + |first|))
  {
    MarksBetween(before, START_LINE, first, END_LINE, after, o);
  }

  /** A second write to *before*, a block and *after* replaces from the first start
      marker to the block's end. */
  lemma SecondWrite(before: seq<Line>, first: seq<Line>, after: seq<Line>, o: nat, second: seq<Line>)
    requires MarkerFree(first) && o <= |before|
    requires Free(before[..o], StartMark) && (o < |before| ==> before[o].mark.StartMark?)
    requires o < |before| ==> Free(before[o + 1..], EndMark)
    ensures Rewritten(before + Block(first) + after, second) == before[..o] + Block(second) + after
  {
    MarksOfBlock(before, first, after, o);
    SlicesOfThree(before, Block(first), after, o);
  }

  lemma SlicesOfThree<T>(a: seq<T>, b: seq<T>, c: seq<T>, o: nat)
    requires o <= |a|
    ensures (a + b + c)[..o] == a[..o] && (a + b + c)[|a| + |b|..] == c
  {
  }

  /** The text up to the block and after it, as one write leaves them. */
  function Around(lines: seq<Line>): (seq<Line>, seq<Line>) {
    var marks := Marked(lines);
    if marks.Some? then (lines[..marks.value.0], lines[marks.value.1 + 1..])
    else
      var heading, kept := HeadingLine(lines, 0), WithoutBlankTail(lines);
      if heading.None? then (kept + (if kept == [] then [] else [EMPTY_LINE]) + [HEADING_LINE], [])
      else (lines[..heading.value + 1], SetApart(lines[NextStart(lines, heading.value + 1)..]))
  }

  lemma WritesBetween(lines: seq<Line>, body: seq<Line>)
    ensures Rewritten(lines, body) == Around(lines).0 + Block(body) + Around(lines).1
  {
  }

  /** The texts a rewrite may add. */
  lemma AddedLines()
    ensures START_LINE.text == "<!-- campaign-learnings:start -->" && END_LINE.text == "<!-- campaign-learnings:end -->"
    ensures HEADING_LINE.text == "## Campaign learnings" && EMPTY_LINE.text == ""
  {
  }

  /** A body replaces what lies between the first start marker and the first end marker
      behind it, with fresh markers around it. */
  lemma MarkedBodyIsReplaced(lines: seq<Line>, body: seq<Line>, from: nat, to: nat)
    requires from < to < |lines| && lines[from].mark.StartMark? && lines[to].mark.EndMark?
    requires (forall i :: 0 <= i < from ==> !lines[i].mark.StartMark?) && forall i :: from < i < to ==> !lines[i].mark.EndMark?
    ensures Rewritten(lines, body) == lines[..from] + ([START_LINE] + body + [END_LINE]) + lines[to + 1..]
  {
    FirstMarkIs(lines, StartMark, 0, from);
    FirstMarkIs(lines, EndMark, from + 1, to);
  }

  predicate Unmarked(lines: seq<Line>) {
    forall i, j :: 0 <= i < j < |lines| && lines[i].mark.StartMark? ==> !lines[j].mark.EndMark?
  }

  lemma HeadingIs(lines: seq<Line>, from: nat, at: nat)
    requires from <= at < |lines| && IsSectionHeading(lines, at) && forall i :: from <= i < at ==> !IsSectionHeading(lines, i)
    ensures HeadingLine(lines, from) == Some(at)
  {
  }

  /** Without such a pair it replaces what the first section heading outside fences has
      under it, up to the next heading of level 1 or 2, and an empty line follows it. */
  lemma UnmarkedBodyIsReplaced(lines: seq<Line>, body: seq<Line>, at: nat, to: nat)
    requires Unmarked(lines) && at < to <= |lines|
    requires IsSectionHeading(lines, at) && forall i :: 0 <= i < at ==> !IsSectionHeading(lines, i)
    requires (to < |lines| ==> Starts(lines, to)) && forall i :: at < i < to ==> !Starts(lines, i)
    ensures Rewritten(lines, body) ==
      lines[..at + 1] + ([START_LINE] + body + [END_LINE]) + if to == |lines| then [] else [EMPTY_LINE] + lines[to..]
  {
    HeadingIs(lines, 0, at);
    NextStartIs(lines, at + 1, to);
    UnmarkedIs(lines);
  }

  lemma UnmarkedIs(lines: seq<Line>)
    requires Unmarked(lines)
    ensures Marked(lines).None?
  {
  }

  /** Without a section it goes under a new heading at the end, after an empty line,
      where trailing blank lines were. */
  lemma NewBodyIsAppended(lines: seq<Line>, body: seq<Line>, to: nat)
    requires Unmarked(lines) && forall i :: 0 <= i < |lines| ==> !IsSectionHeading(lines, i)
    requires to <= |lines| && (forall i :: to <= i < |lines| ==> lines[i].blank) && (to > 0 ==> !lines[to - 1].blank)
    ensures Rewritten(lines, body) ==
      lines[..to] + (if to == 0 then [] else [EMPTY_LINE]) + [HEADING_LINE] + ([START_LINE] + body + [END_LINE])
  {
    assert HeadingLine(lines, 0).None?;
    UnmarkedIs(lines);
    KeptIs(lines, to);
  }

  lemma KeptIs(lines: seq<Line>, to: nat)
    requires to <= |lines| && (forall i :: to <= i < |lines| ==> lines[i].blank) && (to > 0 ==> !lines[to - 1].blank)
    ensures WithoutBlankTail(lines) == lines[..to]
  {
    assert WithoutBlankTail(lines) == lines[..|WithoutBlankTail(lines)|];
  }

  /** Outside code fences a line starts a top-level heading exactly as a number-sign
      heading, or as a text line that the next one underlines. */
  lemma StartsInTheOpen(lines: seq<Line>, i: nat)
    requires i < |lines| && FenceAfter(lines, i).None? && lines[i].opens.None?
    requires i + 1 < |lines| ==> lines[i + 1].opens.None?
    ensures Starts(lines, i) <==>
      || lines[i].top
      || (i + 1 < |lines| && lines[i + 1].under && !lines[i + 1].top && !lines[i].blank && !lines[i].under)
  {
  }

  /** What is asked of a line, in terms of its characters. */
  lemma LinesAreRead(s: string, fence: Fence)
    requires fence.length >= 1
    ensures var l := LineOf(s);
      && l.text == s && (l.top <==> exists n: nat, k: nat :: IsTopHeading(s, n, k))
      && (l.under <==> exists n: nat, k: nat, c :: IsUnderline(s, n, k, c))
      && (l.opens == Some(fence) <==> exists n: nat :: IsFence(s, n, fence))
      && (Closes(l.closer, fence) <==> fence.Text() <= Strip(s) && (set c | c in Strip(s)) == {fence.mark} && Indent(s) <= 3)
      && (l.mark.StartMark? <==> Strip(s) == "<!-- campaign-learnings:start -->")
      && (l.mark.EndMark? <==> Strip(s) == "<!-- campaign-learnings:end -->")
      && (l.mark.SectionHeading? <==> Strip(s) == "## Campaign learnings") && (l.blank <==> Strip(s) == "")
  {
    TopHeadingsExactly(s);
    UnderlinesExactly(s);
    FencesExactly(s, fence);
    ClosersRepeatTheFence(s, fence);
    MarkersDiffer();
  }

  lemma MarkersDiffer()
    ensures START != END && START != HEADING && END != HEADING
  {
    assert |START| != |END| && |END| != |HEADING| && |START| != |HEADING|;
  }

  /** A fence opened at line i is open up to the first line behind it that closes it,
      whatever else those lines could open. */
  lemma {:induction false} FencesRunUntilClosed(lines: seq<Line>, i: nat, n: nat, fence: Fence)
    requires i < n <= |lines| && FenceAfter(lines, i).None? && lines[i].opens == Some(fence)
    requires forall j :: i < j < n - 1 ==> !Closes(lines[j].closer, fence)
    ensures FenceAfter(lines, n) == if n - 1 > i && Closes(lines[n - 1].closer, fence) then None else Some(fence)
    decreases n
  {
    if n - 1 > i {
      FencesRunUntilClosed(lines, i, n - 1, fence);
    }
  }

  /** Inside a fence nothing starts a heading, whatever it looks like. */
  lemma FencedLinesStartNothing(lines: seq<Line>, i: nat)
    requires i < |lines| && FenceAfter(lines, i).Some?
    ensures !Starts(lines, i) && InFence(lines, i)
  {
  }

  /** No start marker is left dangling before the place of the write. */
  predicate Settled(lines: seq<Line>) {
    var first, heading := FirstMark(lines, StartMark, 0), HeadingLine(lines, 0);
    first.None? || Marked(lines).Some? || (heading.Some? && heading.value < first.value)
  }

  lemma MarksBeforeHeading(lines: seq<Line>, kept: seq<Line>, gap: seq<Line>, heading: Line, i: nat)
    requires kept <= lines && i < |kept + gap + [heading]|
    requires heading.mark.SectionHeading? && forall l :: l in gap ==> l.mark.NoMark?
    ensures var before := kept + gap + [heading];
      before[i].mark.StartMark? || before[i].mark.EndMark? ==> i < |lines| && before[i] == lines[i]
  {
    if |kept| <= i < |kept + gap| {
      assert (kept + gap + [heading])[i] == gap[i - |kept|];
    }
  }

  /** The text before the block has the markers of the file before it, no others. */
  lemma MarksBeforeBlock(lines: seq<Line>, i: nat)
    requires i < |Around(lines).0|
    ensures var before := Around(lines).0;
      before[i].mark.StartMark? || before[i].mark.EndMark? ==> i < |lines| && before[i] == lines[i]
  {
    if Marked(lines).None? && HeadingLine(lines, 0).None? {
      var kept := WithoutBlankTail(lines);
      MarksBeforeHeading(lines, kept, if kept == [] then [] else [EMPTY_LINE], HEADING_LINE, i);
    }
  }

  lemma StartsStayBeforeBlock(lines: seq<Line>, o: nat)
    requires Genuine(lines) && o < |lines| && lines[o].mark.StartMark? && Marked(lines).None?
    requires HeadingLine(lines, 0).Some? ==> o < HeadingLine(lines, 0).value
    ensures o < |Around(lines).0| && Around(lines).0[o] == lines[o]
  {
    assert lines[o] == LineOf(lines[o].text);
    MarkersAreNotBlank(lines[o].text);
  }

  lemma NoStartBefore(lines: seq<Line>, i: nat)
    requires i < |Around(lines).0| && (Settled(lines) || i < FirstMark(lines, StartMark, 0).value)
    ensures !Around(lines).0[i].mark.StartMark?
  {
    MarksBeforeBlock(lines, i);
  }

  lemma NoEndAfter(lines: seq<Line>, i: nat)
    requires !Settled(lines) && FirstMark(lines, StartMark, 0).value < i < |Around(lines).0|
    ensures !Around(lines).0[i].mark.EndMark?
  {
    MarksBeforeBlock(lines, i);
  }

  /** No start marker comes before the one that a second write finds. */
  lemma NoneBefore(lines: seq<Line>, o: nat)
    requires o <= |Around(lines).0| && (Settled(lines) || o <= FirstMark(lines, StartMark, 0).value)
    ensures Free(Around(lines).0[..o], StartMark)
  {
    forall i: nat | i < o ensures !Around(lines).0[i].mark.StartMark? {
      NoStartBefore(lines, i);
    }
  }

  lemma NoneAfter(lines: seq<Line>, o: nat)
    requires !Settled(lines) && o == FirstMark(lines, StartMark, 0).value < |Around(lines).0|
    ensures Free(Around(lines).0[o + 1..], EndMark)
  {
    forall i: nat | o < i < |Around(lines).0| ensures !Around(lines).0[i].mark.EndMark? {
      NoEndAfter(lines, i);
    }
  }

  /** Where a second write finds the block's start: at the block, or at a start marker
      left dangling before it. */
  lemma StartBeforeBlock(lines: seq<Line>) returns (o: nat)
    requires Genuine(lines)
    ensures var before := Around(lines).0;
      && o <= |before| && Free(before[..o], StartMark)
      && (o < |before| ==> before[o].mark.StartMark? && Free(before[o + 1..], EndMark))
      && (o == |before| <==> Settled(lines))
  {
    if Settled(lines) {
      o := |Around(lines).0|;
    } else {
      o := FirstMark(lines, StartMark, 0).value;
      StartsStayBeforeBlock(lines, o);
      NoneAfter(lines, o);
    }
    NoneBefore(lines, o);
  }

  /** Two writes in a row leave what the last alone leaves, exactly when the text is
      settled. */
  lemma LastWriteWins(lines: seq<Line>, first: seq<Line>, second: seq<Line>)
    requires Genuine(lines) && MarkerFree(first)
    ensures Rewritten(Rewritten(lines, first), second) == Rewritten(lines, second) <==> Settled(lines)
  {
    var before, after := Around(lines).0, Around(lines).1;
    var o := StartBeforeBlock(lines);
    WritesBetween(lines, first);
    WritesBetween(lines, second);
    SecondWrite(before, first, after, o, second);
    if o == |before| {
      assert before[..o] == before;
    } else {
      assert |before[..o] + Block(second) + after| < |before + Block(second) + after|;
    }
  }

  /** A start marker without an end, and no heading: the second write removes what the
      first one kept. */
  lemma DanglingMarkerIsLost(second: seq<Line>)
    ensures Rewritten(Rewritten([START_LINE], []), second) != Rewritten([START_LINE], second)
  {
    AddedLinesAreGenuine();
    LastWriteWins([START_LINE], [], second);
  }

  lemma ReadOfTexts(lines: seq<Line>)
    requires Genuine(lines)
    ensures Read(Texts(lines)) == lines
  {
  }

  ghost predicate CleanLines(lines: seq<Line>) {
    Genuine(lines) && forall i :: 0 <= i < |lines| ==> '\n' !in lines[i].text
  }

  lemma LinesAreClean(text: string)
    ensures CleanLines(LinesOf(text))
  {
    if text != "" {
      SplitIsClean(text);
    }
  }

  lemma BodyLinesAreClean(body: string)
    ensures CleanLines(BodyLines(body))
  {
    SplitIsClean(StripNewlines(body));
  }

  lemma {:induction false} NoNewlinesInMarkers()
    ensures '\n' !in START && '\n' !in END && '\n' !in HEADING
  {
  }

  lemma PartsAreClean(lines: seq<Line>, from: nat, to: nat)
    requires CleanLines(lines) && from <= to <= |lines|
    ensures CleanLines(lines[from..to])
  {
  }

  lemma CleanTogether(a: seq<Line>, b: seq<Line>)
    requires CleanLines(a) && CleanLines(b)
    ensures CleanLines(a + b)
  {
  }

  lemma OneIsClean(l: Line)
    requires '\n' !in l.text && l == LineOf(l.text)
    ensures CleanLines([l])
  {
  }

  lemma BlockIsClean(body: seq<Line>)
    requires CleanLines(body)
    ensures CleanLines(Block(body))
  {
    NoNewlinesInMarkers();
    AddedLinesAreGenuine();
    OneIsClean(START_LINE);
    OneIsClean(END_LINE);
    CleanTogether([START_LINE], body);
    CleanTogether([START_LINE] + body, [END_LINE]);
  }

  lemma AppendedIsClean(kept: seq<Line>)
    requires CleanLines(kept)
    ensures CleanLines(kept + (if kept == [] then [] else [EMPTY_LINE]) + [HEADING_LINE])
  {
    NoNewlinesInMarkers();
    AddedLinesAreGenuine();
    AddedHeadingIsGenuine();
    OneIsClean(EMPTY_LINE);
    OneIsClean(HEADING_LINE);
    var gap := if kept == [] then [] else [EMPTY_LINE];
    CleanTogether(kept, gap);
    CleanTogether(kept + gap, [HEADING_LINE]);
  }

  lemma SetApartIsClean(lines: seq<Line>)
    requires CleanLines(lines)
    ensures CleanLines(SetApart(lines))
  {
    AddedLinesAreGenuine();
    OneIsClean(EMPTY_LINE);
    CleanTogether([EMPTY_LINE], lines);
  }

  lemma AfterSectionIsClean(lines: seq<Line>, from: nat, to: nat)
    requires CleanLines(lines) && from <= |lines| && to <= |lines|
    ensures CleanLines(lines[..from]) && CleanLines(SetApart(lines[to..]))
  {
    PartsAreClean(lines, 0, from);
    PartsAreClean(lines, to, |lines|);
    SetApartIsClean(lines[to..]);
  }

  lemma AroundIsClean(lines: seq<Line>)
    requires CleanLines(lines)
    ensures CleanLines(Around(lines).0) && CleanLines(Around(lines).1)
  {
    var marks, heading := Marked(lines), HeadingLine(lines, 0);
    if marks.Some? {
      PartsAreClean(lines, 0, marks.value.0);
      PartsAreClean(lines, marks.value.1 + 1, |lines|);
    } else if heading.None? {
      PartsAreClean(lines, 0, |WithoutBlankTail(lines)|);
      AppendedIsClean(WithoutBlankTail(lines));
    } else {
      AfterSectionIsClean(lines, heading.value + 1, NextStart(lines, heading.value + 1));
    }
  }

  lemma RewrittenIsClean(lines: seq<Line>, body: seq<Line>)
    requires CleanLines(lines) && CleanLines(body)
    ensures CleanLines(Rewritten(lines, body)) && |Rewritten(lines, body)| >= 2
  {
    WritesBetween(lines, body);
    AroundIsClean(lines);
    BlockIsClean(body);
    CleanTogether(Around(lines).0, Block(body));
    CleanTogether(Around(lines).0 + Block(body), Around(lines).1);
  }

  /** What is written is read back line by line. */
  lemma WrittenLinesReadBack(lines: seq<Line>)
    requires CleanLines(lines) && |lines| >= 2
    ensures LinesOf(Join(Texts(lines))) == lines
  {
    SplitOfJoin(Texts(lines));
    ReadOfTexts(lines);
    assert Join(Texts(lines)) != "";
  }

  /** On texts: replacing the section twice is replacing it once with the last body,
      exactly when the text is settled. */
  lemma LastReplacementWins(text: string, first: string, second: string)
    requires MarkerFree(BodyLines(first))
    ensures Replaced(Replaced(text, first), second) == Replaced(text, second) <==> Settled(LinesOf(text))
  {
    var lines, b1, b2 := LinesOf(text), BodyLines(first), BodyLines(second);
    LinesAreClean(text);
    BodyLinesAreClean(first);
    BodyLinesAreClean(second);
    RewrittenIsClean(lines, b1);
    var once := Rewritten(lines, b1);
    WrittenLinesReadBack(once);
    RewrittenIsClean(once, b2);
    RewrittenIsClean(lines, b2);
    WrittenLinesReadBack(Rewritten(once, b2));
    WrittenLinesReadBack(Rewritten(lines, b2));
    LastWriteWins(lines, b1, b2);
  }

  // ── The rest of the file is kept ──────────────────────────────────

  /** Where a write begins and ends. */
  function Section(lines: seq<Line>): (span: (nat, nat))
    ensures span.0 <= span.1 <= |lines|
  {
    var marks, heading := Marked(lines), HeadingLine(lines, 0);
    if marks.Some? then (marks.value.0, marks.value.1 + 1)
    else if heading.Some? then (heading.value + 1, NextStart(lines, heading.value + 1))
    else (|WithoutBlankTail(lines)|, |lines|)
  }

  /** The text around the block holds the text around the section. */
  lemma AroundHoldsOutside(lines: seq<Line>)
    ensures var (from, to) := Section(lines);
      var (before, after) := Around(lines);
      lines[..from] <= before && |after| >= |lines| - to && after[|after| - (|lines| - to)..] == lines[to..]
  {
  }

  /** Everything before and after the section is kept as it was. */
  lemma OutsideIsKept(lines: seq<Line>, body: seq<Line>)
    ensures var (from, to) := Section(lines);
      var r := Rewritten(lines, body);
      lines[..from] <= r && |r| >= |lines| - to && r[|r| - (|lines| - to)..] == lines[to..]
  {
    WritesBetween(lines, body);
    AroundHoldsOutside(lines);
    var (from, to) := Section(lines);
    var (before, after) := Around(lines);
    BetweenIsKept(lines, from, to, before, Block(body), after);
  }

  lemma BetweenIsKept<T>(lines: seq<T>, from: nat, to: nat, before: seq<T>, block: seq<T>, after: seq<T>)
    requires from <= to <= |lines| && lines[..from] <= before
    requires |after| >= |lines| - to && after[|after| - (|lines| - to)..] == lines[to..]
    ensures var r := before + block + after;
      lines[..from] <= r && |r| >= |lines| - to && r[|r| - (|lines| - to)..] == lines[to..]
  {
    var r := before + block + after;
    assert r[|before| + |block|..] == after;
  }

  /** What a write drops: the marked section, the unmarked one up to the next heading,
      or blank lines at the end of the file. */
  lemma OnlyTheSectionIsDropped(lines: seq<Line>)
    ensures var (from, to) := Section(lines);
      if Marked(lines).Some? then lines[from].mark.StartMark? && lines[to - 1].mark.EndMark?
      else if HeadingLine(lines, 0).Some? then
        lines[from - 1].mark.SectionHeading? && forall i :: from <= i < to ==> !Starts(lines, i)
      else forall i :: from <= i < |lines| ==> lines[i].blank
  {
    if HeadingLine(lines, 0).Some? {
      NextStartFinds(lines, HeadingLine(lines, 0).value + 1);
    }
  }

  // ── The section ends where it ended ───────────────────────────────

  /** n equal lines, from p on here and from q on there. */
  ghost predicate Alike(r: seq<Line>, p: nat, l: seq<Line>, q: nat, n: nat) {
    p + n <= |r| && q + n <= |l| && r[p..p + n] == l[q..q + n]
  }

  lemma AlikeAt(r: seq<Line>, p: nat, l: seq<Line>, q: nat, n: nat, i: nat)
    requires Alike(r, p, l, q, n) && i < n
    ensures r[p + i] == l[q + i]
  {
    assert r[p..p + n][i] == l[q..q + n][i];
  }

  /** Equal lines scanned from equal states end in equal states. */
  lemma {:induction false} FenceAlike(r: seq<Line>, p: nat, l: seq<Line>, q: nat, n: nat, i: nat)
    requires Alike(r, p, l, q, n) && i <= n && FenceAfter(r, p) == FenceAfter(l, q)
    ensures FenceAfter(r, p + i) == FenceAfter(l, q + i)
  {
    if i > 0 {
      FenceAlike(r, p, l, q, n, i - 1);
      AlikeAt(r, p, l, q, n, i - 1);
    }
  }

  lemma InFenceAlike(r: seq<Line>, p: nat, l: seq<Line>, q: nat, n: nat, i: nat)
    requires Alike(r, p, l, q, n) && i < n && FenceAfter(r, p) == FenceAfter(l, q)
    ensures r[p + i] == l[q + i] && InFence(r, p + i) == InFence(l, q + i)
  {
    AlikeAt(r, p, l, q, n, i);
    FenceAlike(r, p, l, q, n, i);
  }

  lemma UnderlineAlike(r: seq<Line>, p: nat, l: seq<Line>, q: nat, n: nat, i: nat)
    requires Alike(r, p, l, q, n) && 1 <= i < n && FenceAfter(r, p) == FenceAfter(l, q)
    ensures Underlines(r, p + i) == Underlines(l, q + i)
  {
    InFenceAlike(r, p, l, q, n, i);
    InFenceAlike(r, p, l, q, n, i - 1);
    assert p + (i - 1) == p + i - 1 && q + (i - 1) == q + i - 1;
  }

  /** Equal lines start headings alike; a last line may still be underlined by what
      follows it. */
  lemma StartsAlike(r: seq<Line>, p: nat, l: seq<Line>, q: nat, n: nat, i: nat)
    requires Alike(r, p, l, q, n) && i < n && FenceAfter(r, p) == FenceAfter(l, q)
    requires i + 1 < n || (p + n == |r| && q + n == |l|)
    ensures Starts(r, p + i) == Starts(l, q + i)
  {
    InFenceAlike(r, p, l, q, n, i);
    if i + 1 < n {
      UnderlineAlike(r, p, l, q, n, i + 1);
      assert p + (i + 1) == p + i + 1 && q + (i + 1) == q + i + 1;
    }
  }

  ghost predicate Plain(l: Line) {
    !l.blank && !l.top && !l.under && l.opens.None?
  }

  ghost predicate Empty(l: Line) {
    l.blank && !l.top && !l.under && l.opens.None?
  }

  /** A rewritten, so far unmarked section: the heading at h, the start marker, the
      body, the end marker, perhaps an empty line, and the rest from *off* on. */
  ghost predicate LaidOut(lines: seq<Line>, h: nat, body: seq<Line>, r: seq<Line>, off: nat) {
    && h < |lines| && !InFence(lines, h) && Alike(r, 0, lines, 0, h + 1)
    && h + 3 + |body| <= off <= |r| && Alike(r, h + 2, body, 0, |body|)
    && Plain(r[h + 1]) && Plain(r[h + 2 + |body|])
    && (off == h + 3 + |body| == |r| || (off == h + 4 + |body| < |r| && Empty(r[h + 3 + |body|])))
  }

  lemma PartsAreLaidOut(lines: seq<Line>, h: nat, s: Line, body: seq<Line>, e: Line, gap: seq<Line>, rest: seq<Line>)
    requires h < |lines| && !InFence(lines, h) && Plain(s) && Plain(e)
    requires (rest == [] && gap == []) || (rest != [] && |gap| == 1 && Empty(gap[0]))
    ensures var r := lines[..h + 1] + ([s] + body + [e]) + (gap + rest);
      |r| >= |rest| && LaidOut(lines, h, body, r, |r| - |rest|) && r[|r| - |rest|..] == rest
  {
    var r := lines[..h + 1] + ([s] + body + [e]) + (gap + rest);
    assert r[h + 2..h + 2 + |body|] == body == body[0..0 + |body|];
    assert r[0..0 + (h + 1)] == lines[0..0 + (h + 1)];
    assert r[|r| - |rest|..] == rest;
    assert r[h + 2 + |body|] == e && (gap != [] ==> r[h + 3 + |body|] == gap[0]);
  }

  lemma RewrittenInParts(lines: seq<Line>, body: seq<Line>, h: nat, end: nat, rest: seq<Line>)
    returns (s: Line, e: Line, gap: seq<Line>)
    requires Marked(lines).None? && HeadingLine(lines, 0) == Some(h) && end == NextStart(lines, h + 1) && rest == lines[end..]
    ensures Rewritten(lines, body) == lines[..h + 1] + ([s] + body + [e]) + (gap + rest)
    ensures Plain(s) && Plain(e) && ((rest == [] && gap == []) || (rest != [] && |gap| == 1 && Empty(gap[0])))
  {
    s, e, gap := START_LINE, END_LINE, if rest == [] then [] else [EMPTY_LINE];
  }

  lemma RewrittenIsLaidOut(lines: seq<Line>, body: seq<Line>, h: nat, end: nat, r: seq<Line>, off: nat)
    requires Marked(lines).None? && HeadingLine(lines, 0) == Some(h)
    requires end == NextStart(lines, h + 1) && r == Rewritten(lines, body) && |r| - off == |lines| - end
    ensures LaidOut(lines, h, body, r, off) && r[off..] == lines[end..]
  {
    var s, e, gap := RewrittenInParts(lines, body, h, end, lines[end..]);
    PartsAreLaidOut(lines, h, s, body, e, gap, lines[end..]);
  }

  /** No fence is open at the block's lines, nor where the text goes on. */
  lemma FencesAreClosed(lines: seq<Line>, h: nat, body: seq<Line>, r: seq<Line>, off: nat)
    requires LaidOut(lines, h, body, r, off) && FenceAfter(body, |body|).None?
    ensures FenceAfter(r, h + 1).None? && FenceAfter(r, h + 2).None? && FenceAfter(r, h + 2 + |body|).None?
    ensures FenceAfter(r, h + 3 + |body|).None? && FenceAfter(r, off).None?
  {
    InFenceAlike(r, 0, lines, 0, h + 1, h);
    FenceAlike(r, h + 2, body, 0, |body|, |body|);
  }

  lemma AfterStartMarker(lines: seq<Line>, h: nat, body: seq<Line>, r: seq<Line>, off: nat)
    requires LaidOut(lines, h, body, r, off)
    ensures if body == [] then Plain(r[h + 2]) else r[h + 2] == body[0]
  {
    if body != [] {
      AlikeAt(r, h + 2, body, 0, |body|, 0);
    }
  }

  /** The start marker becomes a heading exactly when the body begins with an
      underline. */
  lemma StartMarkerIsNoHeading(lines: seq<Line>, h: nat, body: seq<Line>, r: seq<Line>, off: nat)
    requires LaidOut(lines, h, body, r, off) && FenceAfter(body, |body|).None?
    requires body != [] && body[0].under ==> !body[0].top && body[0].opens.None?
    ensures Starts(r, h + 1) <==> body != [] && body[0].under
  {
    FencesAreClosed(lines, h, body, r, off);
    AfterStartMarker(lines, h, body, r, off);
    UnderPlain(r, h + 1);
  }

  /** A plain line in the open starts a heading exactly when an underline follows. */
  lemma UnderPlain(r: seq<Line>, i: nat)
    requires i + 1 < |r| && Plain(r[i]) && FenceAfter(r, i).None? && FenceAfter(r, i + 1).None?
    ensures Starts(r, i) <==> r[i + 1].under && !r[i + 1].top && r[i + 1].opens.None?
  {
  }

  /** A line before a plain one starts a heading only by itself. */
  lemma BeforePlain(r: seq<Line>, i: nat)
    requires i + 1 < |r| && Plain(r[i + 1])
    ensures Starts(r, i) <==> !InFence(r, i) && r[i].top
  {
  }

  lemma BodyHasNoHeading(lines: seq<Line>, h: nat, body: seq<Line>, r: seq<Line>, off: nat, k: nat)
    requires LaidOut(lines, h, body, r, off) && Acceptable(body) && k < |body|
    ensures !Starts(r, h + 2 + k)
  {
    FencesAreClosed(lines, h, body, r, off);
    assert !Starts(body, k);
    if k + 1 < |body| {
      StartsAlike(r, h + 2, body, 0, |body|, k);
    } else {
      LastLineHasNoHeading(body, r, h + 2, k, h + 2 + k);
    }
  }

  lemma LastLineHasNoHeading(body: seq<Line>, r: seq<Line>, from: nat, k: nat, at: nat)
    requires from + |body| < |r| && Alike(r, from, body, 0, |body|) && Plain(r[from + |body|])
    requires FenceAfter(r, from).None? && k + 1 == |body| && at == from + k && !Starts(body, k)
    ensures !Starts(r, at)
  {
    InFenceAlike(r, from, body, 0, |body|, k);
    BeforePlain(r, at);
  }

  lemma BlockHasNoHeading(lines: seq<Line>, h: nat, body: seq<Line>, r: seq<Line>, off: nat, j: nat)
    requires LaidOut(lines, h, body, r, off) && Acceptable(body) && h + 1 < j < off
    ensures !Starts(r, j)
  {
    if j < h + 2 + |body| {
      BodyHasNoHeading(lines, h, body, r, off, j - h - 2);
    }
  }

  lemma {:induction false} NextStartIs(lines: seq<Line>, from: nat, at: nat)
    requires from <= at <= |lines| && (at < |lines| ==> Starts(lines, at))
    requires forall i :: from <= i < at ==> !Starts(lines, i)
    ensures NextStart(lines, from) == at
    decreases at - from
  {
    if from < at {
      assert !Starts(lines, from);
      NextStartIs(lines, from + 1, at);
    }
  }

  lemma EndsAtRest(lines: seq<Line>, h: nat, body: seq<Line>, r: seq<Line>, off: nat)
    requires LaidOut(lines, h, body, r, off) && Acceptable(body)
    requires body != [] && body[0].under ==> !body[0].top && body[0].opens.None?
    requires off < |r| ==> Starts(r, off)
    ensures NextStart(r, h + 1) == off <==> !(body != [] && body[0].under)
  {
    StartMarkerIsNoHeading(lines, h, body, r, off);
    if !(body != [] && body[0].under) {
      forall j: nat | h + 1 <= j < off ensures !Starts(r, j) {
        if j > h + 1 {
          BlockHasNoHeading(lines, h, body, r, off, j);
        }
      }
      NextStartIs(r, h + 1, off);
    }
  }

  lemma RestIsAlike(lines: seq<Line>, end: nat, r: seq<Line>, off: nat, n: nat, j: nat, i: nat, k: nat)
    requires Alike(r, off, lines, end, n) && off + n == |r| && end + n == |lines|
    requires j < n && i == end + j && k == off + j
    requires FenceAfter(r, off).None? && FenceAfter(lines, end).None?
    ensures r[k] == lines[i] && InFence(r, k) == InFence(lines, i) && Starts(r, k) == Starts(lines, i)
  {
    InFenceAlike(r, off, lines, end, n, j);
    StartsAlike(r, off, lines, end, n, j);
  }

  /** Line i of *lines* stands in *r*, as far from its end, and is classified there as
      it was. */
  ghost predicate SameAt(lines: seq<Line>, r: seq<Line>, i: nat)
    requires i < |lines|
  {
    var k := i + |r| - |lines|;
    k >= 0 && r[k] == lines[i] && InFence(r, k) == InFence(lines, i) && Starts(r, k) == Starts(lines, i)
  }

  ghost predicate FollowAlike(lines: seq<Line>, end: nat, r: seq<Line>) {
    forall i :: end <= i < |lines| ==> SameAt(lines, r, i)
  }

  lemma RestFollowsAlike(lines: seq<Line>, end: nat, r: seq<Line>, off: nat)
    requires end <= |lines| && off <= |r| && |r| - off == |lines| - end && r[off..] == lines[end..]
    requires FenceAfter(r, off).None? && (end < |lines| ==> FenceAfter(lines, end).None?)
    ensures FollowAlike(lines, end, r)
  {
    forall i | end <= i < |lines| ensures SameAt(lines, r, i) {
      RestIsAlike(lines, end, r, off, |lines| - end, i - end, i, i + |r| - |lines|);
    }
  }

  lemma UnderlinesAreNothingElseAt(body: seq<Line>)
    requires Genuine(body) && body != [] && body[0].under
    ensures !body[0].top && body[0].opens.None?
  {
    assert body[0] == LineOf(body[0].text);
    UnderlinesAreNothingElse(body[0].text);
  }

  lemma LaidOutIsContained(lines: seq<Line>, h: nat, end: nat, body: seq<Line>, r: seq<Line>, off: nat)
    requires LaidOut(lines, h, body, r, off) && Acceptable(body) && Genuine(body)
    requires end <= |lines| && |r| - off == |lines| - end && r[off..] == lines[end..] && (end < |lines| ==> Starts(lines, end))
    ensures FollowAlike(lines, end, r)
    ensures NextStart(r, h + 1) == off <==> !(body != [] && body[0].under)
  {
    FencesAreClosed(lines, h, body, r, off);
    RestFollowsAlike(lines, end, r, off);
    if body != [] && body[0].under {
      UnderlinesAreNothingElseAt(body);
    }
    assert end < |lines| ==> SameAt(lines, r, end);
    EndsAtRest(lines, h, body, r, off);
  }

  /** Section containment: rewriting an unmarked section leaves the classification of
      every following line as it was, and the section ends at the same next heading,
      if and only if the body does not begin with an underline. */
  lemma SectionStaysContained(lines: seq<Line>, body: seq<Line>, h: nat, end: nat, r: seq<Line>, off: nat)
    requires Marked(lines).None? && HeadingLine(lines, 0) == Some(h) && end == NextStart(lines, h + 1)
    requires Acceptable(body) && Genuine(body) && r == Rewritten(lines, body) && |r| - off == |lines| - end
    ensures FollowAlike(lines, end, r)
    ensures h < |r| && (NextStart(r, h + 1) == off <==> !(body != [] && body[0].under))
  {
    RewrittenIsLaidOut(lines, body, h, end, r, off);
    NextStartFinds(lines, h + 1);
    LaidOutIsContained(lines, h, end, body, r, off);
  }

  /** An underline alone passes the check, yet cuts the section off at its start. */
  lemma AnUnderlinePassesTheCheck()
    ensures Acceptable(Read(["---"])) && Read(["---"])[0].under
  {
    var s := "---";
    assert s[0..] == s && s[1..][0] == '-' && s[1..][1..] == s[2..] && s[2..][0] == '-' && s[2..][1..] == "";
    assert Run(s[2..], '-') == 1 && Run(s[1..], '-') == 2 && Run(s, '-') == 3;
    assert |START| != 3 && |END| != 3 && Strip(s) == s;
  }

  // ── From the checked text to the body's lines ─────────────────────

  /** *core*, with a empty lines before it and b after it. */
  ghost predicate Padded(all: seq<string>, core: seq<string>, a: nat, b: nat) {
    && |all| == a + |core| + b && all[a..a + |core|] == core
    && (forall i :: 0 <= i < a ==> all[i] == "") && (forall i :: a + |core| <= i < |all| ==> all[i] == "")
  }

  lemma PadMore(all: seq<string>, core: seq<string>, a: nat, b: nat)
    requires Padded(all, core, a, b)
    ensures Padded([""] + all, core, a + 1, b) && Padded(all + [""], core, a, b + 1)
  {
    assert ([""] + all)[a + 1..a + 1 + |core|] == all[a..a + |core|];
    assert (all + [""])[a..a + |core|] == all[a..a + |core|];
  }

  /** Stripping newlines drops whole empty lines at either end. */
  lemma {:induction false} StripDropsEmptyLines(s: string) returns (a: nat, b: nat)
    ensures Padded(Split(s), Split(StripNewlines(s)), a, b)
    decreases |s|
  {
    if s != "" && s[0] == '\n' {
      a, b := StripDropsEmptyLines(s[1..]);
      PadMore(Split(s[1..]), Split(StripNewlines(s)), a, b);
      a := a + 1;
    } else if s != "" && s[|s| - 1] == '\n' {
      var t := s[..|s| - 1];
      a, b := StripDropsEmptyLines(t);
      SplitLast(t);
      assert s == t + "\n";
      PadMore(Split(t), Split(StripNewlines(s)), a, b);
      b := b + 1;
    } else {
      a, b := 0, 0;
      assert Split(s)[0..|Split(s)|] == Split(s);
    }
  }

  lemma {:induction false} SplitLast(s: string)
    ensures Split(s + "\n") == Split(s) + [""]
  {
    if s == "" {
      assert (s + "\n")[0] == '\n' && (s + "\n")[1..] == "";
    } else {
      assert (s + "\n")[0] == s[0] && (s + "\n")[1..] == s[1..] + "\n";
      SplitLast(s[1..]);
    }
  }

  lemma {:induction false} EmptyLinesLeaveFence(lines: seq<Line>, from: nat, n: nat)
    requires from + n <= |lines| && forall i :: from <= i < from + n ==> lines[i] == EMPTY_LINE
    ensures FenceAfter(lines, from + n) == FenceAfter(lines, from)
  {
    if n > 0 {
      EmptyLinesLeaveFence(lines, from, n - 1);
    }
  }

  lemma CoreIsAcceptable(all: seq<Line>, core: seq<Line>, a: nat, b: nat)
    requires Acceptable(all) && |all| == a + |core| + b && Alike(all, a, core, 0, |core|)
    requires forall i :: 0 <= i < a || a + |core| <= i < |all| ==> all[i] == EMPTY_LINE
    ensures Acceptable(core)
  {
    EmptyLinesLeaveFence(all, 0, a);
    EmptyLinesLeaveFence(all, a + |core|, b);
    FenceAlike(all, a, core, 0, |core|, |core|);
    forall i: nat | i < |core| ensures !Starts(core, i) && !core[i].mark.StartMark? && !core[i].mark.EndMark? {
      CoreLineIsAcceptable(all, core, a, i);
    }
  }

  lemma CoreLineIsAcceptable(all: seq<Line>, core: seq<Line>, a: nat, i: nat)
    requires Acceptable(all) && Alike(all, a, core, 0, |core|) && i < |core| && FenceAfter(all, a).None?
    ensures !Starts(core, i) && !core[i].mark.StartMark? && !core[i].mark.EndMark?
  {
    assert !Starts(all, a + i);
    InFenceAlike(all, a, core, 0, |core|, i);
    if i + 1 < |core| {
      StartsAlike(all, a, core, 0, |core|, i);
    }
  }

  lemma ReadAlike(all: seq<string>, core: seq<string>, a: nat)
    requires a + |core| <= |all| && all[a..a + |core|] == core
    ensures Alike(Read(all), a, Read(core), 0, |core|)
  {
    assert forall i :: 0 <= i < |core| ==> all[a..a + |core|][i] == core[i];
    var x, y := Read(all)[a..a + |core|], Read(core)[0..0 + |core|];
    assert forall i :: 0 <= i < |core| ==> x[i] == y[i];
  }

  function Newlines(n: nat): string {
    seq(n, _ => '\n')
  }

  /** A body of nothing but whitespace has no lines, and an empty text has none. */
  lemma BlankTextsHaveNoLines(body: string, core: string)
    requires core == StripNewlines(body)
    ensures BodyLines(body) == if AllSpace(body) then [] else Read(Split(core))
    ensures LinesOf("") == [] && (body != "" ==> LinesOf(body) == Read(Split(body)))
  {
    BlankExactly(body);
  }

  /** A body is written without the newlines around it, and only those. */
  lemma {:induction false} OuterNewlinesGo(a: nat, t: string, b: nat)
    requires t != "" && t[0] != '\n' && t[|t| - 1] != '\n'
    ensures StripNewlines(Newlines(a) + t + Newlines(b)) == t
    decreases a + b
  {
    var s := Newlines(a) + t + Newlines(b);
    if a > 0 {
      assert s[1..] == Newlines(a - 1) + t + Newlines(b);
      OuterNewlinesGo(a - 1, t, b);
    } else if b > 0 {
      assert s[0] == t[0] && s[..|s| - 1] == Newlines(a) + t + Newlines(b - 1);
      OuterNewlinesGo(a, t, b - 1);
    } else {
      assert s == t;
    }
  }

  /** The lines that a checked text writes pass the check themselves. */
  lemma CheckedBodiesAreAcceptable(text: string)
    requires Acceptable(Read(Split(text)))
    ensures Acceptable(BodyLines(text)) && Genuine(BodyLines(text))
  {
    if !Blank(text) {
      var a, b := StripDropsEmptyLines(text);
      var all, core := Read(Split(text)), Read(Split(StripNewlines(text)));
      ReadAlike(Split(text), Split(StripNewlines(text)), a);
      CoreIsAcceptable(all, core, a, b);
    }
  }

  // ── Containment on texts ──────────────────────────────────────────

  /** The heading and the end of the section in a text's lines, when unmarked. */
  ghost predicate UnmarkedSection(lines: seq<Line>, h: nat, end: nat) {
    Marked(lines).None? && HeadingLine(lines, 0) == Some(h) && end == NextStart(lines, h + 1)
  }

  lemma ReplacedReadsBack(text: string, body: string)
    ensures LinesOf(Replaced(text, body)) == Rewritten(LinesOf(text), BodyLines(body))
  {
    LinesAreClean(text);
    BodyLinesAreClean(body);
    RewrittenIsClean(LinesOf(text), BodyLines(body));
    WrittenLinesReadBack(Rewritten(LinesOf(text), BodyLines(body)));
  }

  /** On texts: after a checked body replaced an unmarked section, the following lines
      read as they did, and the section ends at the same next heading, if and only if
      the body's first line is not an underline. */
  lemma ReplacedSectionStaysContained(text: string, body: string, h: nat, end: nat, off: nat)
    requires UnmarkedSection(LinesOf(text), h, end) && Acceptable(Read(Split(body)))
    requires |LinesOf(Replaced(text, body))| - off == |LinesOf(text)| - end
    ensures FollowAlike(LinesOf(text), end, LinesOf(Replaced(text, body)))
    ensures h < |LinesOf(Replaced(text, body))|
    ensures NextStart(LinesOf(Replaced(text, body)), h + 1) == off <==> !(BodyLines(body) != [] && BodyLines(body)[0].under)
    ensures var r := LinesOf(Replaced(text, body));
      off <= |r| && LinesOf(text)[..h + 1] <= r && r[off..] == LinesOf(text)[end..]
  {
    ReplacedReadsBack(text, body);
    CheckedBodiesAreAcceptable(body);
    KeptAroundUnmarked(LinesOf(text), BodyLines(body), h, end, LinesOf(Replaced(text, body)), off);
    SectionStaysContained(LinesOf(text), BodyLines(body), h, end, LinesOf(Replaced(text, body)), off);
  }

  lemma KeptAroundUnmarked(lines: seq<Line>, body: seq<Line>, h: nat, end: nat, r: seq<Line>, off: nat)
    requires UnmarkedSection(lines, h, end) && r == Rewritten(lines, body) && |r| - off == |lines| - end
    ensures off <= |r| && lines[..h + 1] <= r && r[off..] == lines[end..]
  {
    OutsideIsKept(lines, body);
  }
}
