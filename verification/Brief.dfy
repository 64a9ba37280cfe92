/** The brief of a cycle: six sections fitted into what the rules leave. Headings,
    bodies and rules are arbitrary texts, so what holds here holds for every campaign
    and every history. */
module Brief {
  import opened Markdown
  import opened Wrappers

  const BRIEF_MAX_CHARS := 12000
  const PIN_PATHS_SHOWN := 20
  const TRUNCATED := "…"
  const GAP := "\n\n"

  const SECTION_TITLES := [
    "## Purpose", "## Criteria and status", "## Best attempt so far",
    "## Recent attempts", "## Failure patterns", "## Directives for this cycle"]

  /** At most *limit* characters, or one where a non-empty text meets a limit of 0. */
  function Clip(text: string, limit: nat): (clipped: string)
    ensures |clipped| <= Max(limit, 1)
    ensures |Strip(text)| <= limit ==> clipped == Strip(text)
    ensures |Strip(text)| > limit > 0 ==> |clipped| == limit && clipped[..limit - 1] <= Strip(text)
  {
    var t := Strip(text);
    if |t| <= limit then t else t[..Max(0, limit - |TRUNCATED|)] + TRUNCATED
  }

  function Total(texts: seq<string>): nat {
    if texts == [] then 0 else Total(texts[..|texts| - 1]) + |texts[|texts| - 1]|
  }

  function Glue(texts: seq<string>): string {
    if texts == [] then ""
    else if |texts| == 1 then texts[0]
    else Glue(texts[..|texts| - 1]) + GAP + texts[|texts| - 1]
  }

  function Titled(titles: seq<string>, bodies: seq<string>): (sections: seq<string>)
    requires |titles| == |bodies|
    ensures |sections| == |titles|
  {
    seq(|titles|, i requires 0 <= i < |titles| => titles[i] + "\n" + bodies[i])
  }

  function Laid(header: string, titles: seq<string>, bodies: seq<string>, rules: string): string
    requires |titles| == |bodies|
  {
    Glue([header] + Titled(titles, bodies) + [rules])
  }

  /** What the header, the rules, the titles and the blank lines leave for bodies. */
  function BodyBudget(header: string, titles: seq<string>, rules: string): int {
    BRIEF_MAX_CHARS - |header| - |rules| - 2 * (|titles| + 2) - (Total(titles) + |titles|)
  }

  function Share(header: string, titles: seq<string>, rules: string): nat
    requires titles != []
  {
    Max(0, BodyBudget(header, titles, rules) / |titles|)
  }

  function Clipped(bodies: seq<string>, limit: nat): (clipped: seq<string>)
    ensures |clipped| == |bodies| && forall i :: 0 <= i < |bodies| ==> clipped[i] == Clip(bodies[i], limit)
  {
    seq(|bodies|, i requires 0 <= i < |bodies| => Clip(bodies[i], limit))
  }

  function Fitted(header: string, titles: seq<string>, bodies: seq<string>, rules: string): (shown: seq<string>)
    requires |titles| == |bodies| && titles != []
    ensures |shown| == |bodies|
  {
    if Total(bodies) > BodyBudget(header, titles, rules) then Clipped(bodies, Share(header, titles, rules)) else bodies
  }

  /** A slice up to *end*, which counts from the end of the text when negative. */
  function UpTo(text: string, end: int): string {
    if end < 0 then text[..Max(0, |text| + end)] else if end <= |text| then text[..end] else text
  }

  function Render(header: string, bodies: seq<string>, rules: string): string
    requires |bodies| == |SECTION_TITLES|
  {
    var text := Laid(header, SECTION_TITLES, Fitted(header, SECTION_TITLES, bodies, rules), rules);
    if |text| > BRIEF_MAX_CHARS then UpTo(text, BRIEF_MAX_CHARS - |rules| - 2) + GAP + rules else text
  }

  // ── Lengths ───────────────────────────────────────────────────────

  lemma TotalOfAppend(texts: seq<string>, text: string)
    ensures Total(texts + [text]) == Total(texts) + |text|
  {
    assert (texts + [text])[..|texts|] == texts;
  }

  lemma {:induction false} GlueLength(texts: seq<string>)
    requires texts != []
    ensures |Glue(texts)| == Total(texts) + 2 * (|texts| - 1)
  {
    if |texts| > 1 {
      GlueLength(texts[..|texts| - 1]);
    } else {
      assert texts[..0] == [];
    }
  }

  lemma {:induction false} TitledLength(titles: seq<string>, bodies: seq<string>)
    requires |titles| == |bodies|
    ensures Total(Titled(titles, bodies)) == Total(titles) + |titles| + Total(bodies)
  {
    if titles != [] {
      var n := |titles| - 1;
      TitledLength(titles[..n], bodies[..n]);
      assert Titled(titles, bodies)[..n] == Titled(titles[..n], bodies[..n]);
    }
  }

  lemma {:induction false} TotalOfFront(text: string, texts: seq<string>)
    ensures Total([text] + texts) == |text| + Total(texts)
  {
    if texts == [] {
      assert [text] + texts == [] + [text];
      TotalOfAppend([], text);
    } else {
      var n := |texts| - 1;
      TotalOfFront(text, texts[..n]);
      assert [text] + texts == ([text] + texts[..n]) + [texts[n]];
      TotalOfAppend([text] + texts[..n], texts[n]);
    }
  }

  lemma LaidLength(header: string, titles: seq<string>, bodies: seq<string>, rules: string)
    requires |titles| == |bodies|
    ensures |Laid(header, titles, bodies, rules)|
         == |header| + |rules| + Total(titles) + |titles| + Total(bodies) + 2 * (|titles| + 1)
  {
    var sections := Titled(titles, bodies);
    TitledLength(titles, bodies);
    TotalOfFront(header, sections);
    TotalOfAppend([header] + sections, rules);
    GlueLength([header] + sections + [rules]);
  }

  lemma OneMore(n: nat, m: nat)
    ensures (n + 1) * m == n * m + m
  {
  }

  lemma {:induction false} ClippedTotal(bodies: seq<string>, limit: nat, most: nat)
    requires most == Max(limit, 1)
    ensures Total(Clipped(bodies, limit)) <= |bodies| * most
  {
    if bodies != [] {
      var n := |bodies| - 1;
      ClippedTotal(bodies[..n], limit, most);
      assert Clipped(bodies, limit)[..n] == Clipped(bodies[..n], limit);
      OneMore(n, most);
    }
  }

  lemma ShareFits(budget: int, n: nat)
    requires n > 0
    ensures budget / n >= 1 ==> n * (budget / n) <= budget
  {
  }

  /** Fitting works for any number of sections: once a character is left for each, the
      laid-out text keeps the limit. */
  lemma FittedTextFits(header: string, titles: seq<string>, bodies: seq<string>, rules: string)
    requires |titles| == |bodies| && titles != []
    requires BodyBudget(header, titles, rules) + 2 >= |titles|
    ensures |Laid(header, titles, Fitted(header, titles, bodies, rules), rules)| <= BRIEF_MAX_CHARS
  {
    var shown := Fitted(header, titles, bodies, rules);
    LaidLength(header, titles, shown, rules);
    if Total(bodies) > BodyBudget(header, titles, rules) {
      var share := Share(header, titles, rules);
      ClippedTotal(bodies, share, Max(share, 1));
      ShareFits(BodyBudget(header, titles, rules), |titles|);
      if share == 0 {
        assert |titles| * Max(share, 1) == |titles|;
      }
    }
  }

  // ── The brief ─────────────────────────────────────────────────────

  /** The brief keeps its limit exactly when the rules block leaves room for a gap. */
  lemma BriefBound(header: string, bodies: seq<string>, rules: string)
    requires |bodies| == |SECTION_TITLES|
    ensures |Render(header, bodies, rules)| <= BRIEF_MAX_CHARS <==> |rules| <= BRIEF_MAX_CHARS - 2
  {
    LaidLength(header, SECTION_TITLES, Fitted(header, SECTION_TITLES, bodies, rules), rules);
  }

  predicate EndsWith(text: string, end: string) {
    |text| >= |end| && text[|text| - |end|..] == end
  }

  /** Whatever else is cut, the rules close the brief, whole and set apart. */
  lemma RulesAreWhole(header: string, bodies: seq<string>, rules: string)
    requires |bodies| == |SECTION_TITLES|
    ensures EndsWith(Render(header, bodies, rules), GAP + rules)
  {
    var sections := [header] + Titled(SECTION_TITLES, Fitted(header, SECTION_TITLES, bodies, rules));
    assert (sections + [rules])[..|sections|] == sections;
    var text := Laid(header, SECTION_TITLES, Fitted(header, SECTION_TITLES, bodies, rules), rules);
    assert text == Glue(sections) + (GAP + rules);
    if |text| > BRIEF_MAX_CHARS {
      var cut := UpTo(text, BRIEF_MAX_CHARS - |rules| - 2);
      assert cut + GAP + rules == cut + (GAP + rules);
    }
  }

  /** With 20 characters to spare, every section appears under its title, in order,
      its body whole or clipped. */
  lemma EverySectionAppears(header: string, bodies: seq<string>, rules: string) returns (shown: seq<string>)
    requires |bodies| == |SECTION_TITLES|
    requires |header| + |rules| + Total(SECTION_TITLES) + |SECTION_TITLES| + 20 <= BRIEF_MAX_CHARS
    ensures |shown| == |bodies| && Render(header, bodies, rules) == Laid(header, SECTION_TITLES, shown, rules)
    ensures shown == bodies || shown == Clipped(bodies, Share(header, SECTION_TITLES, rules))
    ensures |Render(header, bodies, rules)| <= BRIEF_MAX_CHARS
  {
    shown := Fitted(header, SECTION_TITLES, bodies, rules);
    FittedTextFits(header, SECTION_TITLES, bodies, rules);
  }

  lemma GlueOneMore(texts: seq<string>, text: string)
    requires texts != []
    ensures Glue(texts + [text]) == Glue(texts) + GAP + text
  {
    assert (texts + [text])[..|texts|] == texts;
  }

  /** The laid-out brief, word for word: the header, each title above its body, and the
      rules, with one empty line between any two. */
  lemma LaidOutLiterally(header: string, shown: seq<string>, rules: string)
    requires |shown| == 6
    ensures Laid(header, SECTION_TITLES, shown, rules) ==
      header + "\n\n" + ("## Purpose" + "\n" + shown[0])
      + "\n\n" + ("## Criteria and status" + "\n" + shown[1])
      + "\n\n" + ("## Best attempt so far" + "\n" + shown[2])
      + "\n\n" + ("## Recent attempts" + "\n" + shown[3])
      + "\n\n" + ("## Failure patterns" + "\n" + shown[4])
      + "\n\n" + ("## Directives for this cycle" + "\n" + shown[5])
      + "\n\n" + rules
  {
    var t := Titled(SECTION_TITLES, shown);
    var g1 := [header] + [t[0]];
    var g2 := g1 + [t[1]];
    var g3 := g2 + [t[2]];
    var g4 := g3 + [t[3]];
    var g5 := g4 + [t[4]];
    var g6 := g5 + [t[5]];
    assert [header] + t == g6;
    GlueOneMore([header], t[0]);
    GlueOneMore(g1, t[1]);
    GlueOneMore(g2, t[2]);
    GlueOneMore(g3, t[3]);
    GlueOneMore(g4, t[4]);
    GlueOneMore(g5, t[5]);
    GlueOneMore(g6, rules);
  }

  /** The six titles have 119 characters. */
  lemma TitlesTotal()
    ensures Total(SECTION_TITLES) == 119 && |SECTION_TITLES| == 6
  {
    var t := SECTION_TITLES;
    assert t[..1] == [] + [t[0]] && t[..2] == t[..1] + [t[1]] && t[..3] == t[..2] + [t[2]];
    assert t[..4] == t[..3] + [t[3]] && t[..5] == t[..4] + [t[4]] && t == t[..5] + [t[5]];
    TotalOfAppend([], t[0]);
    TotalOfAppend(t[..1], t[1]);
    TotalOfAppend(t[..2], t[2]);
    TotalOfAppend(t[..3], t[3]);
    TotalOfAppend(t[..4], t[4]);
    TotalOfAppend(t[..5], t[5]);
  }

  /** The bodies stay whole exactly while header, rules and bodies have at most 11,859
      characters together; otherwise each is clipped to a sixth of what is left. */
  lemma BodiesStayWholeExactly(header: string, titles: seq<string>, bodies: seq<string>, rules: string, room: int)
    requires |titles| == |bodies| == 6 && Total(titles) == 119 && room == 11859 - |header| - |rules|
    ensures Fitted(header, titles, bodies, rules) ==
      if Total(bodies) <= room then bodies else Clipped(bodies, if room < 0 then 0 else room / 6)
  {
    assert BodyBudget(header, titles, rules) == room;
  }

  /** A laid-out text over the limit is cut to 12,000 characters less the rules' part,
      which follows whole. */
  lemma OverlongBriefsAreCut(header: string, bodies: seq<string>, rules: string)
    requires |bodies| == 6 && |rules| <= 11998
    ensures var text := Laid(header, SECTION_TITLES, Fitted(header, SECTION_TITLES, bodies, rules), rules);
      Render(header, bodies, rules) == if |text| <= 12000 then text else text[..11998 - |rules|] + "\n\n" + rules
  {
  }

  // ── The rules' pinned paths ───────────────────────────────────────

  function Quoted(pins: seq<string>): string {
    if pins == [] then ""
    else if |pins| == 1 then "`" + pins[0] + "`"
    else Quoted(pins[..|pins| - 1]) + ", `" + pins[|pins| - 1] + "`"
  }

  /** The paths the rules show. */
  function Shown(pins: seq<string>): seq<string> {
    if |pins| > PIN_PATHS_SHOWN then pins[..PIN_PATHS_SHOWN] else pins
  }

  function PinText(pins: seq<string>): string {
    if pins == [] then "none" else Quoted(Shown(pins))
  }

  /** The rules name the pinned files between fixed texts. */
  function Rules(before: string, pins: seq<string>, after: string): string {
    before + PinText(pins) + after
  }

  lemma {:induction false} QuotedLength(pins: seq<string>)
    requires pins != []
    ensures |Quoted(pins)| == Total(pins) + 4 * |pins| - 2
  {
    if |pins| > 1 {
      QuotedLength(pins[..|pins| - 1]);
    } else {
      assert pins[..0] == [];
    }
  }

  /** The first twenty paths, each between backticks, with a comma between any two. */
  lemma PathsAreQuoted(pins: seq<string>, pin: string)
    ensures PinText([]) == "none" && PinText([pin]) == "`" + pin + "`"
    ensures 1 <= |pins| < 20 ==> PinText(pins + [pin]) == PinText(pins) + ", `" + pin + "`"
    ensures |pins| >= 20 ==> PinText(pins + [pin]) == PinText(pins[..20])
  {
    assert (pins + [pin])[..|pins|] == pins;
    assert |pins| >= 20 ==> (pins + [pin])[..20] == pins[..20];
  }

  function Same(text: string, n: nat): (texts: seq<string>)
    ensures |texts| == n && forall i :: 0 <= i < n ==> texts[i] == text
  {
    seq(n, _ => text)
  }

  lemma {:induction false} TotalOfSame(text: string, n: nat)
    ensures Total(Same(text, n)) == n * |text|
  {
    if n > 0 {
      TotalOfSame(text, n - 1);
      assert Same(text, n)[..n - 1] == Same(text, n - 1);
      assert n * |text| == (n - 1) * |text| + |text|;
    }
  }

  /** The brief keeps its limit exactly when fixed texts, shown paths and punctuation
      do; without a path the rules say "none". */
  lemma PinsBound(header: string, bodies: seq<string>, before: string, pins: seq<string>, after: string)
    requires |bodies| == |SECTION_TITLES|
    ensures |Render(header, bodies, Rules(before, pins, after))| <= BRIEF_MAX_CHARS
       <==> |before| + |after| + (if pins == [] then 6 else Total(Shown(pins)) + 4 * |Shown(pins)|) <= BRIEF_MAX_CHARS
  {
    if pins != [] {
      QuotedLength(Shown(pins));
    }
    BriefBound(header, bodies, Rules(before, pins, after));
  }

  /** Twenty paths of 1,024 characters overflow it, whatever the rest says. */
  lemma LongPinsOverflow(header: string, bodies: seq<string>, before: string, path: string, after: string)
    requires |bodies| == |SECTION_TITLES| && |path| == 1024
    ensures |Render(header, bodies, Rules(before, Same(path, 20), after))| > BRIEF_MAX_CHARS
  {
    TotalOfSame(path, 20);
    PinsBound(header, bodies, before, Same(path, 20), after);
  }
}
