/** Lines of Markdown: whitespace, splitting and joining, and the line forms of
    CommonMark 0.31 sections 4.2 (ATX headings), 4.3 (setext headings) and 4.5 (fenced
    code blocks), as the section writer's expressions recognise them. */
module Markdown {
  import opened Wrappers

  // ── Whitespace ────────────────────────────────────────────────────

  /** Unicode whitespace. */
  predicate IsSpace(c: char) {
    var x := c as int;
    || 0x09 <= x <= 0x0d || 0x1c <= x <= 0x20 || x in {0x85, 0xa0, 0x1680, 0x2028, 0x2029, 0x202f, 0x205f, 0x3000}
    || 0x2000 <= x <= 0x200a
  }

  function StripLeft(s: string): string {
    if s != "" && IsSpace(s[0]) then StripLeft(s[1..]) else s
  }

  function StripRight(s: string): string {
    if s != "" && IsSpace(s[|s| - 1]) then StripRight(s[..|s| - 1]) else s
  }

  function Strip(s: string): string {
    StripRight(StripLeft(s))
  }

  predicate Blank(s: string) {
    Strip(s) == ""
  }

  // ── Lines ─────────────────────────────────────────────────────────

  function Split(s: string): (lines: seq<string>)
    ensures lines != []
  {
    if s == "" then [""]
    else if s[0] == '\n' then [""] + Split(s[1..])
    else var lines := Split(s[1..]); [[s[0]] + lines[0]] + lines[1..]
  }

  function Join(lines: seq<string>): string {
    if lines == [] then ""
    else if |lines| == 1 then lines[0]
    else lines[0] + "\n" + Join(lines[1..])
  }

  ghost predicate Clean(lines: seq<string>) {
    forall i :: 0 <= i < |lines| ==> '\n' !in lines[i]
  }

  lemma {:induction false} SplitIsClean(s: string)
    ensures Clean(Split(s))
  {
    if s != "" {
      SplitIsClean(s[1..]);
    }
  }

  lemma {:induction false} JoinOfSplit(s: string)
    ensures Join(Split(s)) == s
  {
    if s != "" {
      JoinOfSplit(s[1..]);
      var lines := Split(s[1..]);
      if s[0] == '\n' {
        assert Split(s)[1..] == lines;
      } else if |lines| > 1 {
        assert Split(s)[1..] == lines[1..];
      }
    }
  }

  lemma {:induction false} SplitLine(line: string, s: string)
    requires '\n' !in line
    ensures Split(line + "\n" + s) == [line] + Split(s)
  {
    var whole := line + "\n" + s;
    if line == "" {
      assert whole[0] == '\n' && whole[1..] == s;
    } else {
      assert line[0] in line;
      SplitLine(line[1..], s);
      assert whole[0] == line[0] != '\n' && whole[1..] == line[1..] + "\n" + s && [line[0]] + line[1..] == line;
    }
  }

  lemma {:induction false} SplitOneLine(line: string)
    requires '\n' !in line
    ensures Split(line) == [line]
  {
    if line != "" {
      assert line[0] in line && [line[0]] + line[1..] == line;
      SplitOneLine(line[1..]);
    }
  }

  lemma {:induction false} SplitOfJoin(lines: seq<string>)
    requires lines != [] && Clean(lines)
    ensures Split(Join(lines)) == lines
  {
    if |lines| == 1 {
      SplitOneLine(lines[0]);
    } else {
      SplitOfJoin(lines[1..]);
      SplitLine(lines[0], Join(lines[1..]));
    }
  }

  // ── Line forms ────────────────────────────────────────────────────

  function Run(s: string, c: char): (n: nat)
    ensures n <= |s|
  {
    if s != "" && s[0] == c then 1 + Run(s[1..], c) else 0
  }

  function Indent(s: string): (n: nat)
    ensures n <= |s|
  {
    Run(s, ' ')
  }

  /** A level 1 or 2 ATX heading, up to three spaces in. */
  predicate TopAtx(s: string) {
    var t := s[Indent(s)..];
    var hashes := Run(t, '#');
    Indent(s) <= 3 && 1 <= hashes <= 2 && (hashes == |t| || t[hashes] in {' ', '\t'})
  }

  /** The underline of a setext heading. */
  predicate Setext(s: string) {
    var t := s[Indent(s)..];
    && Indent(s) <= 3 && t != "" && (t[0] == '=' || t[0] == '-')
    && forall k :: Run(t, t[0]) <= k < |t| ==> t[k] == ' ' || t[k] == '\t'
  }

  /** A run of one character: what opens a code fence, or could close one. */
  datatype Fence = Fence(mark: char, length: nat)
  {
    function Text(): (text: string)
      ensures |text| == length && forall i :: 0 <= i < length ==> text[i] == mark
    {
      seq(length, _ => mark)
    }
  }

  /** The run of three or more backticks or tildes that opens a code fence. */
  function FenceOf(s: string): Option<Fence> {
    var t := s[Indent(s)..];
    if Indent(s) <= 3 && t != "" && (t[0] == '`' || t[0] == '~') && Run(t, t[0]) >= 3 then Some(Fence(t[0], Run(t, t[0])))
    else None
  }

  /** The run a line consists of, if it could close a fence. */
  function CloserOf(s: string): Option<Fence> {
    var t := Strip(s);
    if t != "" && (forall k :: 0 <= k < |t| ==> t[k] == t[0]) && Indent(s) <= 3 then Some(Fence(t[0], |t|)) else None
  }

  predicate Closes(closer: Option<Fence>, fence: Fence) {
    closer.Some? && closer.value.mark == fence.mark && closer.value.length >= fence.length
  }

  /** A line closes a fence when it starts with the fence's run and has no other
      character, at most three spaces in. */
  lemma ClosersRepeatTheFence(s: string, fence: Fence)
    requires fence.length >= 1
    ensures Closes(CloserOf(s), fence) <==>
      fence.Text() <= Strip(s) && (set c | c in Strip(s)) == {fence.mark} && Indent(s) <= 3
  {
    var t := Strip(s);
    if fence.Text() <= t {
      assert t[0] == fence.Text()[0];
    }
    if Closes(CloserOf(s), fence) {
      assert fence.mark in t;
    } else {
      var marks := set c | c in t;
      forall k | 0 <= k < |t| && marks == {fence.mark} ensures t[k] == fence.mark {
        assert t[k] in t && t[k] in marks;
      }
    }
  }

  /** A line that strips to text starting with *c* has *c* first after its indent,
      or more whitespace. */
  lemma {:induction false} FirstOfStrip(s: string)
    requires Indent(s) < |s| && !IsSpace(s[Indent(s)])
    ensures Strip(s) != "" && Strip(s)[0] == s[Indent(s)]
  {
    if s[0] == ' ' {
      FirstOfStrip(s[1..]);
    } else {
      FirstSurvives(s);
    }
  }

  lemma {:induction false} FirstSurvives(s: string)
    requires s != "" && !IsSpace(s[0])
    ensures StripRight(s) != "" && StripRight(s)[0] == s[0]
  {
    if IsSpace(s[|s| - 1]) {
      FirstSurvives(s[..|s| - 1]);
    }
  }

  // ── The line forms, character by character ────────────────────────

  /** n spaces and then k times *c*. */
  predicate Indented(s: string, n: nat, k: nat, c: char) {
    n + k <= |s| && (forall i :: 0 <= i < n ==> s[i] == ' ') && forall i :: n <= i < n + k ==> s[i] == c
  }

  lemma {:induction false} RunCounts(s: string, c: char)
    ensures forall i :: 0 <= i < Run(s, c) ==> s[i] == c
    ensures Run(s, c) < |s| ==> s[Run(s, c)] != c
  {
    if s != "" && s[0] == c {
      RunCounts(s[1..], c);
      assert forall i :: 1 <= i < Run(s, c) ==> s[i] == s[1..][i - 1];
    }
  }

  lemma RunIs(s: string, c: char, n: nat)
    requires n <= |s| && (forall i :: 0 <= i < n ==> s[i] == c) && (n < |s| ==> s[n] != c)
    ensures Run(s, c) == n
  {
    RunCounts(s, c);
  }

  /** Where the indent ends, and the run that follows it. */
  lemma IndentedIs(s: string, n: nat, k: nat, c: char)
    requires Indented(s, n, k, c) && k > 0 && c != ' ' && (n + k < |s| ==> s[n + k] != c)
    ensures Indent(s) == n && s[n..] != "" && s[n..][0] == c && Run(s[n..], c) == k
  {
    RunIs(s, ' ', n);
    RunIs(s[n..], c, k);
  }

  lemma RunAfterIndent(s: string, c: char) returns (n: nat, k: nat)
    ensures n == Indent(s) && k == Run(s[n..], c) && Indented(s, n, k, c) && (n + k < |s| ==> s[n + k] != c)
  {
    n := Indent(s);
    k := Run(s[n..], c);
    RunCounts(s, ' ');
    RunCounts(s[n..], c);
    assert forall i :: n <= i < n + k ==> s[i] == s[n..][i - n];
  }

  /** A level 1 or 2 heading is one or two number signs, up to three spaces in, that end
      the line or are followed by a space or a tab. */
  predicate IsTopHeading(s: string, n: nat, k: nat) {
    n <= 3 && 1 <= k <= 2 && Indented(s, n, k, '#') && (n + k == |s| || s[n + k] == ' ' || s[n + k] == '\t')
  }

  lemma TopHeadingsExactly(s: string)
    ensures TopAtx(s) <==> exists n: nat, k: nat :: IsTopHeading(s, n, k)
  {
    var n, k := RunAfterIndent(s, '#');
    if TopAtx(s) {
      assert IsTopHeading(s, n, k);
    }
    if x: nat, y: nat :| IsTopHeading(s, x, y) {
      IndentedIs(s, x, y, '#');
    }
  }

  /** In particular three number signs are no top-level heading. */
  lemma DeeperHeadingsAreNone(s: string, n: nat)
    requires Indented(s, n, 3, '#')
    ensures !TopAtx(s)
  {
    var x, k := RunAfterIndent(s, '#');
    RunIs(s, ' ', n);
    assert s[n + 2] == '#';
  }

  /** An underline is a run of equals signs or hyphens, up to three spaces in, with only
      spaces and tabs behind it. */
  predicate IsUnderline(s: string, n: nat, k: nat, c: char) {
    n <= 3 && k >= 1 && (c == '=' || c == '-') && Indented(s, n, k, c)
    && forall i :: n + k <= i < |s| ==> s[i] == ' ' || s[i] == '\t'
  }

  lemma UnderlinesExactly(s: string)
    ensures Setext(s) <==> exists n: nat, k: nat, c :: IsUnderline(s, n, k, c)
  {
    if Setext(s) {
      var c := s[Indent(s)..][0];
      var n, k := RunAfterIndent(s, c);
      assert forall i :: n + k <= i < |s| ==> s[i] == s[n..][i - n];
      assert IsUnderline(s, n, k, c);
    }
    if x: nat, y: nat, c: char :| IsUnderline(s, x, y, c) {
      IndentedIs(s, x, y, c);
      assert forall i :: y <= i < |s[x..]| ==> s[x..][i] == s[i + x];
    }
  }

  /** A fence is a run of at least three backticks or tildes, up to three spaces in. */
  predicate IsFence(s: string, n: nat, fence: Fence) {
    n <= 3 && fence.length >= 3 && (fence.mark == '`' || fence.mark == '~')
    && Indented(s, n, fence.length, fence.mark) && (n + fence.length < |s| ==> s[n + fence.length] != fence.mark)
  }

  lemma FencesExactly(s: string, fence: Fence)
    ensures FenceOf(s) == Some(fence) <==> exists n: nat :: IsFence(s, n, fence)
  {
    if FenceOf(s) == Some(fence) {
      var n, k := RunAfterIndent(s, fence.mark);
      assert IsFence(s, n, fence);
    }
    if x: nat :| IsFence(s, x, fence) {
      IndentedIs(s, x, fence.length, fence.mark);
    }
  }

  lemma {:induction false} StripLeftOfPadding(a: string, t: string)
    requires (forall i :: 0 <= i < |a| ==> IsSpace(a[i])) && (t == "" || !IsSpace(t[0]))
    ensures StripLeft(a + t) == t
  {
    if a == "" {
      assert a + t == t;
    } else {
      assert (a + t)[1..] == a[1..] + t;
      StripLeftOfPadding(a[1..], t);
    }
  }

  lemma {:induction false} StripRightOfPadding(t: string, b: string)
    requires (forall i :: 0 <= i < |b| ==> IsSpace(b[i])) && (t == "" || !IsSpace(t[|t| - 1]))
    ensures StripRight(t + b) == t
    decreases |b|
  {
    if b == "" {
      assert t + b == t;
    } else {
      var n := |b| - 1;
      assert (t + b)[..|t + b| - 1] == t + b[..n];
      StripRightOfPadding(t, b[..n]);
    }
  }

  /** Stripping removes the whitespace around a text and nothing else. */
  lemma StripDropsPadding(a: string, t: string, b: string)
    requires (forall i :: 0 <= i < |a| ==> IsSpace(a[i])) && (forall i :: 0 <= i < |b| ==> IsSpace(b[i]))
    requires t != "" && !IsSpace(t[0]) && !IsSpace(t[|t| - 1])
    ensures Strip(a + t + b) == t
  {
    assert a + t + b == a + (t + b) && (t + b)[0] == t[0];
    StripLeftOfPadding(a, t + b);
    StripRightOfPadding(t, b);
  }

  predicate AllSpace(s: string) {
    forall i :: 0 <= i < |s| ==> IsSpace(s[i])
  }

  lemma {:induction false} StripLeftKeepsText(s: string)
    ensures AllSpace(StripLeft(s)) ==> AllSpace(s)
  {
    if s != "" && IsSpace(s[0]) {
      StripLeftKeepsText(s[1..]);
      assert forall i :: 1 <= i < |s| ==> s[i] == s[1..][i - 1];
    }
  }

  lemma {:induction false} StripRightKeepsText(s: string)
    ensures AllSpace(StripRight(s)) ==> AllSpace(s)
  {
    if s != "" && IsSpace(s[|s| - 1]) {
      StripRightKeepsText(s[..|s| - 1]);
      assert forall i :: 0 <= i < |s| - 1 ==> s[i] == s[..|s| - 1][i];
    }
  }

  /** A line is blank exactly when it is all whitespace. */
  lemma BlankExactly(s: string)
    ensures Blank(s) <==> AllSpace(s)
  {
    if AllSpace(s) {
      StripLeftOfPadding(s, "");
      assert s + "" == s;
    }
    StripLeftKeepsText(s);
    StripRightKeepsText(StripLeft(s));
  }
}
