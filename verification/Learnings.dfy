/** The learnings section of an agent's instructions: the fence and heading scan, the
    rewrite of the section, and the check of its text. */
module Learnings {
  import opened Wrappers
  import opened Markdown

  const HEADING := "## Campaign learnings"
  const START := "<!-- campaign-learnings:start -->"
  const END := "<!-- campaign-learnings:end -->"

  datatype Mark = StartMark | EndMark | SectionHeading | NoMark

  /** A line and all that the section writer asks of it. */
  datatype Line = Line(text: string, mark: Mark, blank: bool, top: bool, under: bool,
                       opens: Option<Fence>, closer: Option<Fence>)

  function MarkOf(s: string): Mark {
    if Strip(s) == START then StartMark
    else if Strip(s) == END then EndMark
    else if Strip(s) == HEADING then SectionHeading
    else NoMark
  }

  function LineOf(s: string): Line {
    Line(s, MarkOf(s), Blank(s), TopAtx(s), Setext(s), FenceOf(s), CloserOf(s))
  }

  /** The lines a write adds; each is what LineOf makes of its text. */
  const START_LINE := Line(START, StartMark, false, false, false, None, None)
  const END_LINE := Line(END, EndMark, false, false, false, None, None)
  const HEADING_LINE := Line(HEADING, SectionHeading, false, true, false, None, None)
  const EMPTY_LINE := Line("", NoMark, true, false, false, None, None)

  // ── What the scan means ───────────────────────────────────────────

  function NextFence(fence: Option<Fence>, line: Line): Option<Fence> {
    if fence.None? then line.opens else if Closes(line.closer, fence.value) then None else fence
  }

  /** The code fence open after the first n lines. */
  function FenceAfter(lines: seq<Line>, n: nat): Option<Fence>
    requires n <= |lines|
  {
    if n == 0 then None else NextFence(FenceAfter(lines, n - 1), lines[n - 1])
  }

  /** Line i is inside a fence or delimits one. */
  predicate InFence(lines: seq<Line>, i: nat)
    requires i < |lines|
  {
    FenceAfter(lines, i).Some? || lines[i].opens.Some?
  }

  /** Line i is the underline of the text line above it. */
  predicate Underlines(lines: seq<Line>, i: nat)
    requires i < |lines|
  {
    && i > 0 && !InFence(lines, i) && !lines[i].top && lines[i].under
    && !lines[i - 1].blank && !InFence(lines, i - 1) && !lines[i - 1].top && !lines[i - 1].under
  }

  /** Line i starts a level 1 or 2 heading, as far as the first n lines show. */
  predicate StartsWithin(lines: seq<Line>, i: nat, n: nat)
    requires n <= |lines|
  {
    || (i < n && !InFence(lines, i) && lines[i].top)
    || (i + 1 < n && Underlines(lines, i + 1))
  }

  predicate Starts(lines: seq<Line>, i: nat) {
    StartsWithin(lines, i, |lines|)
  }

  // ── The scan ──────────────────────────────────────────────────────

  /** The heading line i announces: itself, or the text line it underlines. */
  function Announced(lines: seq<Line>, i: nat): seq<nat>
    requires i < |lines|
  {
    if InFence(lines, i) then [] else if lines[i].top then [i] else if Underlines(lines, i) then [i - 1] else []
  }

  function AnnouncedUpTo(lines: seq<Line>, n: nat): seq<nat>
    requires n <= |lines|
  {
    if n == 0 then [] else AnnouncedUpTo(lines, n - 1) + Announced(lines, n - 1)
  }

  lemma AnnouncesOne(lines: seq<Line>, n: nat, i: nat)
    requires n < |lines|
    ensures i in Announced(lines, n) <==> (i == n && !InFence(lines, n) && lines[n].top) || (i + 1 == n && Underlines(lines, n))
  {
  }

  lemma InEither(a: seq<nat>, b: seq<nat>, i: nat)
    ensures i in a + b <==> i in a || i in b
  {
  }

  /** The scan finds the heading starts, and nothing else. */
  lemma {:induction false} ScanFinds(lines: seq<Line>, n: nat, i: nat)
    requires n <= |lines|
    ensures i in AnnouncedUpTo(lines, n) <==> StartsWithin(lines, i, n)
  {
    if n > 0 {
      ScanFinds(lines, n - 1, i);
      AnnouncesOne(lines, n - 1, i);
      InEither(AnnouncedUpTo(lines, n - 1), Announced(lines, n - 1), i);
    }
  }

  predicate Ascending(starts: seq<nat>) {
    forall i, j :: 0 <= i < j < |starts| ==> starts[i] < starts[j]
  }

  /** Each start is found once, in order. */
  lemma {:induction false} ScanAscends(lines: seq<Line>, n: nat)
    requires n <= |lines|
    ensures Ascending(AnnouncedUpTo(lines, n))
  {
    if n > 0 {
      ScanAscends(lines, n - 1);
      var before := AnnouncedUpTo(lines, n - 1);
      forall i | 0 <= i < |before| ensures before[i] < n - 1 && (Underlines(lines, n - 1) ==> before[i] < n - 2) {
        assert before[i] in before;
        ScanFinds(lines, n - 1, before[i]);
      }
    }
  }

  method Scan(lines: seq<Line>) returns (inFence: seq<bool>, starts: seq<nat>, unclosed: bool)
    ensures |inFence| == |lines| && forall i :: 0 <= i < |lines| ==> inFence[i] == InFence(lines, i)
    ensures starts == AnnouncedUpTo(lines, |lines|)
    ensures unclosed == FenceAfter(lines, |lines|).Some?
  {
    var marks := new bool[|lines|](_ => false);
    starts := [];
    var fence: Option<Fence> := None;
    for i := 0 to |lines|
      invariant fence == FenceAfter(lines, i) && marks.Length == |lines|
      invariant forall k :: 0 <= k < i ==> marks[k] == InFence(lines, k)
      invariant forall k :: i <= k < |lines| ==> !marks[k]
      invariant starts == AnnouncedUpTo(lines, i)
    {
      var line := lines[i];
      assert AnnouncedUpTo(lines, i + 1) == AnnouncedUpTo(lines, i) + Announced(lines, i);
      if fence.Some? {
        marks[i] := true;
        if Closes(line.closer, fence.value) {
          fence := None;
        }
        continue;
      }
      if line.opens.Some? {
        marks[i] := true;
        fence := line.opens;
        continue;
      }
      assert !InFence(lines, i);
      if line.top {
        starts := starts + [i];
      } else if line.under && i > 0 && !lines[i - 1].blank && !marks[i - 1] && !lines[i - 1].top && !lines[i - 1].under {
        starts := starts + [i - 1];
      }
    }
    inFence, unclosed := marks[..], fence.Some?;
  }

  // ── The rewrite ───────────────────────────────────────────────────

  /** The first line with *mark* from *from* on. */
  function FirstMark(lines: seq<Line>, mark: Mark, from: nat): (at: Option<nat>)
    ensures at.Some? ==> from <= at.value < |lines| && lines[at.value].mark == mark
    ensures forall i :: from <= i < (if at.Some? then at.value else |lines|) ==> lines[i].mark != mark
    decreases |lines| - from
  {
    if from >= |lines| then None
    else if lines[from].mark == mark then Some(from)
    else FirstMark(lines, mark, from + 1)
  }

  predicate IsSectionHeading(lines: seq<Line>, i: nat)
    requires i < |lines|
  {
    lines[i].mark.SectionHeading? && !InFence(lines, i)
  }

  /** The section's heading: the first such line from *from* on, outside a fence. */
  function HeadingLine(lines: seq<Line>, from: nat): (at: Option<nat>)
    ensures at.Some? ==> from <= at.value < |lines| && IsSectionHeading(lines, at.value)
    ensures forall i :: from <= i < (if at.Some? then at.value else |lines|) ==> !IsSectionHeading(lines, i)
    decreases |lines| - from
  {
    if from >= |lines| then None
    else if IsSectionHeading(lines, from) then Some(from)
    else HeadingLine(lines, from + 1)
  }

  /** The next heading start from *from* on, or the end of the text. */
  function NextStart(lines: seq<Line>, from: nat): (at: nat)
    requires from <= |lines|
    ensures from <= at <= |lines|
    decreases |lines| - from
  {
    if from == |lines| || Starts(lines, from) then from else NextStart(lines, from + 1)
  }

  lemma {:induction false} NextStartFinds(lines: seq<Line>, from: nat)
    requires from <= |lines|
    ensures var at := NextStart(lines, from);
      (at < |lines| ==> Starts(lines, at)) && forall i :: from <= i < at ==> !Starts(lines, i)
    decreases |lines| - from
  {
    if from < |lines| && !Starts(lines, from) {
      NextStartFinds(lines, from + 1);
    }
  }

  function WithoutBlankTail(lines: seq<Line>): (kept: seq<Line>)
    ensures kept <= lines && forall i :: |kept| <= i < |lines| ==> lines[i].blank
    ensures kept != [] ==> !kept[|kept| - 1].blank
  {
    if lines != [] && lines[|lines| - 1].blank then WithoutBlankTail(lines[..|lines| - 1]) else lines
  }

  /** Where a marked section opens and closes: the first start marker, and the first
      end marker after it. */
  function Marked(lines: seq<Line>): (marks: Option<(nat, nat)>)
    ensures marks.Some? ==>
      && marks.value.0 < marks.value.1 < |lines|
      && lines[marks.value.0].mark.StartMark? && lines[marks.value.1].mark.EndMark?
  {
    var first := FirstMark(lines, StartMark, 0);
    if first.None? then None
    else
      var last := FirstMark(lines, EndMark, first.value + 1);
      if last.None? then None else Some((first.value, last.value))
  }

  function Block(body: seq<Line>): seq<Line> {
    [START_LINE] + body + [END_LINE]
  }

  function SetApart(lines: seq<Line>): seq<Line> {
    if lines == [] then [] else [EMPTY_LINE] + lines
  }

  function Appended(lines: seq<Line>, body: seq<Line>): seq<Line> {
    var kept := WithoutBlankTail(lines);
    kept + (if kept == [] then [] else [EMPTY_LINE]) + [HEADING_LINE] + Block(body)
  }

  /** The block in place of lines *from* to *to*. */
  function InPlace(lines: seq<Line>, from: nat, to: nat, body: seq<Line>): seq<Line>
    requires from <= to <= |lines|
  {
    lines[..from] + Block(body) + lines[to..]
  }

  /** The block in place of lines *from* to *to*, set apart from what follows. */
  function InPlaceApart(lines: seq<Line>, from: nat, to: nat, body: seq<Line>): seq<Line>
    requires from <= to <= |lines|
  {
    lines[..from] + Block(body) + SetApart(lines[to..])
  }

  function Rewritten(lines: seq<Line>, body: seq<Line>): seq<Line> {
    var marks := Marked(lines);
    if marks.Some? then InPlace(lines, marks.value.0, marks.value.1 + 1, body)
    else
      var heading := HeadingLine(lines, 0);
      if heading.None? then Appended(lines, body)
      else InPlaceApart(lines, heading.value + 1, NextStart(lines, heading.value + 1), body)
  }

  // ── Text ──────────────────────────────────────────────────────────

  function Read(texts: seq<string>): (lines: seq<Line>)
    ensures |lines| == |texts| && forall i :: 0 <= i < |lines| ==> lines[i] == LineOf(texts[i])
  {
    seq(|texts|, i requires 0 <= i < |texts| => LineOf(texts[i]))
  }

  function Texts(lines: seq<Line>): (texts: seq<string>)
    ensures |texts| == |lines| && forall i :: 0 <= i < |lines| ==> texts[i] == lines[i].text
  {
    seq(|lines|, i requires 0 <= i < |lines| => lines[i].text)
  }

  function LinesOf(text: string): seq<Line> {
    if text == "" then [] else Read(Split(text))
  }

  function StripNewlines(s: string): string {
    if s != "" && s[0] == '\n' then StripNewlines(s[1..])
    else if s != "" && s[|s| - 1] == '\n' then StripNewlines(s[..|s| - 1])
    else s
  }

  function BodyLines(body: string): seq<Line> {
    if Blank(body) then [] else Read(Split(StripNewlines(body)))
  }

  function Replaced(text: string, body: string): string {
    Join(Texts(Rewritten(LinesOf(text), BodyLines(body))))
  }

  /** In an ascending list, the first entry not below *from* is the least such. */
  lemma FirstOfAscending(starts: seq<nat>, from: nat, k: nat, at: nat)
    requires Ascending(starts) && at in starts && from <= at
    requires k < |starts| && starts[k] >= from && forall i :: 0 <= i < k ==> starts[i] < from
    requires forall i :: from <= i < at ==> i !in starts
    ensures at == starts[k]
  {
    assert starts[k] in starts;
  }

  lemma FirstStartIsNext(lines: seq<Line>, starts: seq<nat>, from: nat, k: nat)
    requires from <= |lines| && starts == AnnouncedUpTo(lines, |lines|) && k <= |starts|
    requires (forall i :: 0 <= i < k ==> starts[i] < from) && (k < |starts| ==> starts[k] >= from)
    ensures NextStart(lines, from) == if k < |starts| then starts[k] else |lines|
  {
    var at := NextStart(lines, from);
    NextStartFinds(lines, from);
    ScanFinds(lines, |lines|, at);
    if k < |starts| {
      ScanAscends(lines, |lines|);
      assert starts[k] in starts;
      ScanFinds(lines, |lines|, starts[k]);
      forall i: nat | from <= i < at ensures i !in starts {
        assert !Starts(lines, i);
        ScanFinds(lines, |lines|, i);
      }
      FirstOfAscending(starts, from, k, at);
    }
  }

  method ReplaceLearningsSection(text: string, body: string) returns (result: string)
    ensures result == Replaced(text, body)
  {
    var lines, bodyLines := LinesOf(text), BodyLines(body);
    var rewritten := Rewrite(lines, bodyLines);
    return Join(Texts(rewritten));
  }

  method Append(lines: seq<Line>, body: seq<Line>) returns (appended: seq<Line>)
    ensures appended == Appended(lines, body)
  {
    var prefix := lines;
    while prefix != [] && prefix[|prefix| - 1].blank
      invariant WithoutBlankTail(prefix) == WithoutBlankTail(lines)
    {
      prefix := prefix[..|prefix| - 1];
    }
    appended := prefix + (if prefix == [] then [] else [EMPTY_LINE]) + [HEADING_LINE] + Block(body);
  }

  /** The first start after *heading*, or the end of the text. */
  method EndAfter(lines: seq<Line>, starts: seq<nat>, heading: nat) returns (end: nat)
    requires heading < |lines| && starts == AnnouncedUpTo(lines, |lines|)
    ensures end == NextStart(lines, heading + 1)
  {
    var k := 0;
    while k < |starts| && starts[k] <= heading
      invariant k <= |starts| && forall i :: 0 <= i < k ==> starts[i] < heading + 1
    {
      k := k + 1;
    }
    FirstStartIsNext(lines, starts, heading + 1, k);
    end := if k < |starts| then starts[k] else |lines|;
  }

  method Rewrite(lines: seq<Line>, body: seq<Line>) returns (rewritten: seq<Line>)
    ensures rewritten == Rewritten(lines, body)
  {
    var marks := Marked(lines);
    if marks.Some? {
      return InPlace(lines, marks.value.0, marks.value.1 + 1, body);
    }
    var _, starts, _ := Scan(lines);
    var heading := HeadingLine(lines, 0);
    if heading.None? {
      rewritten := Append(lines, body);
    } else {
      var end := EndAfter(lines, starts, heading.value);
      rewritten := InPlaceApart(lines, heading.value + 1, end, body);
    }
  }

  // ── The check of a section's text ─────────────────────────────────

  datatype Problem = SectionMarkers | TopLevelHeading(line: Line) | UnclosedFence

  predicate MarkerFree(lines: seq<Line>) {
    forall i :: 0 <= i < |lines| ==> !lines[i].mark.StartMark? && !lines[i].mark.EndMark?
  }

  ghost predicate NoStarts(lines: seq<Line>) {
    forall i :: 0 <= i < |lines| ==> !Starts(lines, i)
  }

  ghost predicate Acceptable(lines: seq<Line>) {
    MarkerFree(lines) && FenceAfter(lines, |lines|).None? && NoStarts(lines)
  }

  /** *line* is the first line of *lines* that starts a top-level heading. */
  ghost predicate IsFirstStart(lines: seq<Line>, line: Line) {
    var i := NextStart(lines, 0);
    i < |lines| && line == lines[i]
  }

  lemma NothingFound(lines: seq<Line>, starts: seq<nat>)
    requires starts == AnnouncedUpTo(lines, |lines|)
    ensures starts == [] <==> NoStarts(lines)
    ensures starts != [] ==> starts[0] < |lines| && IsFirstStart(lines, lines[starts[0]])
  {
    if starts != [] {
      assert starts[0] in starts;
      ScanFinds(lines, |lines|, starts[0]);
      assert Starts(lines, starts[0]);
      FirstStartIsNext(lines, starts, 0, 0);
    } else {
      forall i: nat | i < |lines| ensures !Starts(lines, i) {
        ScanFinds(lines, |lines|, i);
      }
    }
  }

  method CheckSectionBody(text: string) returns (problem: Option<Problem>)
    ensures problem.None? <==> Acceptable(Read(Split(text)))
    ensures problem == Some(SectionMarkers) <==> !MarkerFree(Read(Split(text)))
    ensures problem == Some(UnclosedFence) <==>
      MarkerFree(Read(Split(text))) && NoStarts(Read(Split(text))) && FenceAfter(Read(Split(text)), |Read(Split(text))|).Some?
    ensures problem.Some? && problem.value.TopLevelHeading? ==> IsFirstStart(Read(Split(text)), problem.value.line)
  {
    var lines := Read(Split(text));
    var _, starts, unclosed := Scan(lines);
    NothingFound(lines, starts);
    if !MarkerFree(lines) {
      problem := Some(SectionMarkers);
    } else if starts != [] {
      problem := Some(TopLevelHeading(lines[starts[0]]));
    } else if unclosed {
      problem := Some(UnclosedFence);
    } else {
      problem := None;
    }
  }
}
