/** How the chat renders an agent answer (frontend/src/components/TextFormat.tsx): the answer is
    cut into lines, runs of table lines become table sections and the text between them text
    sections; a text section is split around `**bold**` spans. */
module MessageFormat {
  import opened Wrappers
  import opened Text

  // Table lines and runs of lines

  /** `line.includes('|') && line.split('|').length > 2`. */
  predicate IsTableLine(line: string) {
    '|' in line && |Split(line, '|')| > 2
  }

  /** A table line is exactly a line with at least two bars; the `includes` test adds nothing. */
  lemma TableLineHasTwoBars(line: string)
    ensures IsTableLine(line) <==> Count(line, '|') >= 2
  {
    SplitLength(line, '|');
  }

  /** A maximal run of consecutive lines of one kind. */
  datatype Run = Run(table: bool, lines: seq<string>)

  /** The lines cut into maximal runs, built line by line as the loop reads them. */
  function Runs(lines: seq<string>): (rs: seq<Run>)
    ensures |rs| <= |lines|
    ensures rs == [] <==> lines == []
    ensures rs != [] ==> rs[|rs| - 1].table == IsTableLine(lines[|lines| - 1])
  {
    if lines == [] then []
    else
      var prev := Runs(lines[..|lines| - 1]);
      var l := lines[|lines| - 1];
      if prev != [] && prev[|prev| - 1].table == IsTableLine(l) then
        prev[..|prev| - 1] + [Run(IsTableLine(l), prev[|prev| - 1].lines + [l])]
      else prev + [Run(IsTableLine(l), [l])]
  }

  /** The lines of the runs, in order. */
  function Flatten(rs: seq<Run>): seq<string> {
    if rs == [] then [] else Flatten(rs[..|rs| - 1]) + rs[|rs| - 1].lines
  }

  /** Runs are non-empty, every line has its run's kind, and neighbouring runs differ. */
  ghost predicate MaximalRuns(rs: seq<Run>) {
    && (forall i :: 0 <= i < |rs| ==> rs[i].lines != [])
    && (forall i, j :: 0 <= i < |rs| && 0 <= j < |rs[i].lines| ==> IsTableLine(rs[i].lines[j]) == rs[i].table)
    && (forall i :: 0 < i < |rs| ==> rs[i].table != rs[i - 1].table)
  }

  lemma FlattenSnoc(rs: seq<Run>, r: Run)
    ensures Flatten(rs + [r]) == Flatten(rs) + r.lines
  {
    assert (rs + [r])[..|rs|] == rs;
  }

  /** A line of the same kind as the last run extends that run. */
  lemma RunsExtend(init: seq<string>, l: string)
    requires init != [] && Runs(init)[|Runs(init)| - 1].table == IsTableLine(l)
    ensures var rs := Runs(init);
      Runs(init + [l]) == rs[..|rs| - 1] + [Run(IsTableLine(l), rs[|rs| - 1].lines + [l])]
  {
    assert (init + [l])[..|init|] == init;
  }

  /** The first line, or a line of the other kind, starts a new run. */
  lemma RunsStart(init: seq<string>, l: string)
    requires init == [] || Runs(init)[|Runs(init)| - 1].table != IsTableLine(l)
    ensures Runs(init + [l]) == Runs(init) + [Run(IsTableLine(l), [l])]
  {
    assert (init + [l])[..|init|] == init;
  }

  lemma CoverExtend(init: seq<string>, l: string)
    requires init != [] && Runs(init)[|Runs(init)| - 1].table == IsTableLine(l)
    requires Flatten(Runs(init)) == init
    ensures Flatten(Runs(init + [l])) == init + [l]
  {
    var prev := Runs(init);
    var last := prev[|prev| - 1];
    var front := prev[..|prev| - 1];
    assert prev == front + [last];
    RunsExtend(init, l);
    FlattenGrowLast(front, last, l);
  }

  /** Adding a line to the last run adds it at the end of the flattened lines. */
  lemma FlattenGrowLast(front: seq<Run>, last: Run, l: string)
    ensures Flatten(front + [Run(last.table, last.lines + [l])]) == Flatten(front + [last]) + [l]
  {
    FlattenSnoc(front, last);
    FlattenSnoc(front, Run(last.table, last.lines + [l]));
    assert Flatten(front) + (last.lines + [l]) == (Flatten(front) + last.lines) + [l];
  }

  lemma CoverStart(init: seq<string>, l: string)
    requires init == [] || Runs(init)[|Runs(init)| - 1].table != IsTableLine(l)
    requires Flatten(Runs(init)) == init
    ensures Flatten(Runs(init + [l])) == init + [l]
  {
    RunsStart(init, l);
    FlattenSnoc(Runs(init), Run(IsTableLine(l), [l]));
  }

  /** The runs cover the lines exactly, in order. */
  lemma {:induction false} RunsCoverLines(lines: seq<string>)
    ensures Flatten(Runs(lines)) == lines
  {
    if lines != [] {
      var init := lines[..|lines| - 1];
      var l := lines[|lines| - 1];
      var prev := Runs(init);
      RunsCoverLines(init);
      assert lines == init + [l];
      if prev != [] && prev[|prev| - 1].table == IsTableLine(l) {
        CoverExtend(init, l);
      } else {
        CoverStart(init, l);
      }
    }
  }

  lemma MaximalExtend(rs: seq<Run>, l: string)
    requires MaximalRuns(rs) && rs != [] && rs[|rs| - 1].table == IsTableLine(l)
    ensures MaximalRuns(rs[..|rs| - 1] + [Run(IsTableLine(l), rs[|rs| - 1].lines + [l])])
  {
  }

  lemma MaximalStart(rs: seq<Run>, l: string)
    requires MaximalRuns(rs) && (rs == [] || rs[|rs| - 1].table != IsTableLine(l))
    ensures MaximalRuns(rs + [Run(IsTableLine(l), [l])])
  {
  }

  /** The runs are maximal: none is empty, every line has its run's kind, and two
      neighbouring runs are of different kinds. */
  lemma {:induction false} RunsMaximal(lines: seq<string>)
    ensures MaximalRuns(Runs(lines))
  {
    if lines != [] {
      var init := lines[..|lines| - 1];
      var l := lines[|lines| - 1];
      var prev := Runs(init);
      RunsMaximal(init);
      assert lines == init + [l];
      if prev != [] && prev[|prev| - 1].table == IsTableLine(l) {
        RunsExtend(init, l);
        MaximalExtend(prev, l);
      } else {
        RunsStart(init, l);
        MaximalStart(prev, l);
      }
    }
  }

  /** What the loop accumulates for a run: each line followed by a newline. */
  function LinesText(lines: seq<string>): string {
    if lines == [] then "" else LinesText(lines[..|lines| - 1]) + lines[|lines| - 1] + "\n"
  }

  lemma LinesTextSnoc(lines: seq<string>, l: string)
    ensures LinesText(lines + [l]) == LinesText(lines) + (l + "\n")
  {
    assert (lines + [l])[..|lines|] == lines;
  }

  /** A run of table lines never trims to nothing: it holds a bar. */
  lemma TableTextNotBlank(lines: seq<string>)
    requires lines != [] && IsTableLine(lines[|lines| - 1])
    ensures JsTrim(LinesText(lines)) != []
  {
    var s := LinesText(lines);
    var l := lines[|lines| - 1];
    assert s == LinesText(lines[..|lines| - 1]) + l + "\n";
    assert '|' in s;
    var i :| 0 <= i < |s| && s[i] == '|';
    assert !JsWhitespace(s[i]);
  }

  // Sections

  /** A rendered section with its React key index: text goes through the bold formatter, a
      table is shown as its trimmed text. */
  datatype Section =
    | TextSection(index: nat, text: string)
    | TableSection(index: nat, text: string)

  /** Text runs that are only whitespace produce nothing. */
  predicate Kept(r: Run) {
    r.table || JsTrim(LinesText(r.lines)) != []
  }

  function SectionOf(r: Run, index: nat): (s: Section)
    ensures s.index == index
    ensures s.TextSection? <==> !r.table
    ensures s.TextSection? ==> s.text == LinesText(r.lines)
  {
    if r.table then TableSection(index, JsTrim(LinesText(r.lines)))
    else TextSection(index, LinesText(r.lines))
  }

  /** One section per kept run, numbered in order. */
  function Sections(rs: seq<Run>): (ss: seq<Section>)
    ensures |ss| <= |rs|
  {
    if rs == [] then []
    else
      var prev := Sections(rs[..|rs| - 1]);
      var r := rs[|rs| - 1];
      if Kept(r) then prev + [SectionOf(r, |prev|)] else prev
  }

  lemma SectionsSnoc(rs: seq<Run>, r: Run)
    ensures Sections(rs + [r]) == if Kept(r) then Sections(rs) + [SectionOf(r, |Sections(rs)|)] else Sections(rs)
  {
    assert (rs + [r])[..|rs|] == rs;
  }

  /** The whole layout: no table line means the content is formatted as one text block. */
  datatype Layout = WholeText(text: string) | Sectioned(sections: seq<Section>)

  predicate HasTable(lines: seq<string>) {
    exists i | 0 <= i < |lines| :: IsTableLine(lines[i])
  }

  function MessageLayout(content: string): Layout {
    var lines := Split(content, '\n');
    if HasTable(lines) then Sectioned(Sections(Runs(lines))) else WholeText(content)
  }

  /** The section keys are 0, 1, 2, ... in order, so no two sections share a key. */
  lemma {:induction false} SectionIndices(rs: seq<Run>)
    ensures forall k :: 0 <= k < |Sections(rs)| ==> Sections(rs)[k].index == k
  {
    if rs != [] {
      var prev := Sections(rs[..|rs| - 1]);
      var r := rs[|rs| - 1];
      SectionIndices(rs[..|rs| - 1]);
      if Kept(r) {
        var ss := prev + [SectionOf(r, |prev|)];
        forall k | 0 <= k < |ss| ensures ss[k].index == k {
          if k < |prev| { assert ss[k] == prev[k]; }
        }
      }
    }
  }

  /** The text of the table runs, trimmed, in order. */
  function TableTexts(rs: seq<Run>): seq<string> {
    if rs == [] then []
    else TableTexts(rs[..|rs| - 1]) + (if rs[|rs| - 1].table then [JsTrim(LinesText(rs[|rs| - 1].lines))] else [])
  }

  /** The text of the table sections, in order. */
  function TableSectionTexts(ss: seq<Section>): seq<string> {
    if ss == [] then []
    else TableSectionTexts(ss[..|ss| - 1]) + (if ss[|ss| - 1].TableSection? then [ss[|ss| - 1].text] else [])
  }

  lemma TableSectionTextsSnoc(ss: seq<Section>, s: Section)
    ensures TableSectionTexts(ss + [s]) == TableSectionTexts(ss) + (if s.TableSection? then [s.text] else [])
  {
    assert (ss + [s])[..|ss|] == ss;
  }

  /** Every run of table lines becomes exactly one table section, in order, holding the run's
      lines joined with newlines and trimmed. */
  lemma {:induction false} OneTableSectionPerRun(rs: seq<Run>)
    ensures TableSectionTexts(Sections(rs)) == TableTexts(rs)
  {
    if rs != [] {
      var prev := Sections(rs[..|rs| - 1]);
      var r := rs[|rs| - 1];
      OneTableSectionPerRun(rs[..|rs| - 1]);
      if Kept(r) {
        TableSectionTextsSnoc(prev, SectionOf(r, |prev|));
      }
    }
  }

  /** No text section is blank. */
  lemma {:induction false} TextSectionsNotBlank(rs: seq<Run>)
    ensures forall k :: 0 <= k < |Sections(rs)| && Sections(rs)[k].TextSection? ==> JsTrim(Sections(rs)[k].text) != []
  {
    if rs != [] {
      var prev := Sections(rs[..|rs| - 1]);
      var r := rs[|rs| - 1];
      TextSectionsNotBlank(rs[..|rs| - 1]);
      if Kept(r) {
        var ss := prev + [SectionOf(r, |prev|)];
        forall k | 0 <= k < |ss| && ss[k].TextSection? ensures JsTrim(ss[k].text) != [] {
          if k < |prev| { assert ss[k] == prev[k]; }
        }
      }
    }
  }

  /** formatMessageContent: one text block when no line is a table line, the sections
      otherwise. */
  method FormatMessageContent(content: string) returns (layout: Layout)
    ensures layout == MessageLayout(content)
  {
    var lines := Split(content, '\n');
    if !HasTable(lines) {
      return WholeText(content);
    }
    var sections := BuildSections(lines);
    return Sectioned(sections);
  }

  /** The next line starts a new run after the runs read so far. */
  lemma LineStartsRun(lines: seq<string>, i: nat, done: seq<Run>, r: Run)
    requires i < |lines| && i > 0 && Runs(lines[..i]) == done + [r]
    requires r.table != IsTableLine(lines[i])
    ensures Runs(lines[..i + 1]) == (done + [r]) + [Run(IsTableLine(lines[i]), [lines[i]])]
  {
    assert lines[..i + 1] == lines[..i] + [lines[i]];
    RunsStart(lines[..i], lines[i]);
  }

  lemma FirstLineStartsRun(lines: seq<string>)
    requires lines != []
    ensures Runs(lines[..1]) == [Run(IsTableLine(lines[0]), [lines[0]])]
  {
    assert lines[..1] == [] + [lines[0]];
    RunsStart([], lines[0]);
  }

  /** The next line extends the last run read so far. */
  lemma LineExtendsRun(lines: seq<string>, i: nat, done: seq<Run>, r: Run)
    requires i < |lines| && i > 0 && Runs(lines[..i]) == done + [r]
    requires r.table == IsTableLine(lines[i])
    ensures Runs(lines[..i + 1]) == done + [Run(r.table, r.lines + [lines[i]])]
  {
    assert lines[..i + 1] == lines[..i] + [lines[i]];
    RunsExtend(lines[..i], lines[i]);
    assert (done + [r])[..|done|] == done;
  }

  /** The loop's variables: the sections pushed so far, the current section's text, whether
      it is a table, and the next key index. */
  datatype Scan = Scan(sections: seq<Section>, currentSection: string, inTable: bool, sectionIndex: nat)

  /** One iteration of the loop: a table line after text pushes the text (unless blank) and
      starts a table, a text line after a table pushes the table and starts text, anything
      else extends the current section. */
  function ReadLine(sc: Scan, line: string): Scan {
    var isTableLine := IsTableLine(line);
    if isTableLine && !sc.inTable then
      var pushed := if JsTrim(sc.currentSection) != [] then
        sc.sections + [TextSection(sc.sectionIndex, sc.currentSection)] else sc.sections;
      Scan(pushed, line + "\n", true, |pushed|)
    else if isTableLine && sc.inTable then
      sc.(currentSection := sc.currentSection + (line + "\n"))
    else if !isTableLine && sc.inTable then
      var pushed := sc.sections + [TableSection(sc.sectionIndex, JsTrim(sc.currentSection))];
      Scan(pushed, line + "\n", false, sc.sectionIndex + 1)
    else
      sc.(currentSection := sc.currentSection + (line + "\n"))
  }

  /** What the loop keeps true after reading lines[..i]: the completed runs are pushed and
      the last run is the current section. */
  ghost predicate ScanInv(lines: seq<string>, i: nat, sc: Scan, done: seq<Run>, current: seq<string>)
    requires i <= |lines|
  {
    && sc.sectionIndex == |sc.sections|
    && (i == 0 ==> sc.sections == [] && sc.currentSection == "" && !sc.inTable && done == [] && current == [])
    && (i > 0 ==> Runs(lines[..i]) == done + [Run(sc.inTable, current)] && current != [])
    && sc.sections == Sections(done)
    && sc.currentSection == LinesText(current)
    && (sc.inTable ==> IsTableLine(current[|current| - 1]))
  }

  /** Reading a line keeps the loop's invariant. */
  lemma ReadLineStep(lines: seq<string>, i: nat, sc: Scan, done: seq<Run>, current: seq<string>)
    returns (done': seq<Run>, current': seq<string>)
    requires i < |lines| && ScanInv(lines, i, sc, done, current)
    ensures ScanInv(lines, i + 1, ReadLine(sc, lines[i]), done', current')
  {
    if IsTableLine(lines[i]) == sc.inTable && i > 0 {
      ReadLineExtends(lines, i, sc, done, current);
      done', current' := done, current + [lines[i]];
    } else {
      done' := ReadLineStarts(lines, i, sc, done, current);
      current' := [lines[i]];
    }
  }

  /** A line of the current run's kind is added to the current section. */
  lemma ReadLineExtends(lines: seq<string>, i: nat, sc: Scan, done: seq<Run>, current: seq<string>)
    requires 0 < i < |lines| && ScanInv(lines, i, sc, done, current)
    requires IsTableLine(lines[i]) == sc.inTable
    ensures ScanInv(lines, i + 1, ReadLine(sc, lines[i]), done, current + [lines[i]])
  {
    LineExtendsRun(lines, i, done, Run(sc.inTable, current));
    LinesTextSnoc(current, lines[i]);
  }

  /** The first line, or a line of the other kind, pushes the current run and starts a new one. */
  lemma ReadLineStarts(lines: seq<string>, i: nat, sc: Scan, done: seq<Run>, current: seq<string>)
    returns (done': seq<Run>)
    requires i < |lines| && ScanInv(lines, i, sc, done, current)
    requires i == 0 || IsTableLine(lines[i]) != sc.inTable
    ensures ScanInv(lines, i + 1, ReadLine(sc, lines[i]), done', [lines[i]])
  {
    if i > 0 {
      LineStartsRun(lines, i, done, Run(sc.inTable, current));
      SectionsSnoc(done, Run(sc.inTable, current));
      if sc.inTable {
        TableTextNotBlank(current);
      }
      done' := done + [Run(sc.inTable, current)];
    } else {
      FirstLineStartsRun(lines);
      done' := done;
    }
    LinesTextSnoc([], lines[i]);
  }

  /** The loop itself, followed by the push of what remains. */
  method BuildSections(lines: seq<string>) returns (sections: seq<Section>)
    ensures sections == Sections(Runs(lines))
  {
    var sc := Scan([], "", false, 0);
    ghost var done: seq<Run> := [];
    ghost var current: seq<string> := [];
    for i := 0 to |lines|
      invariant ScanInv(lines, i, sc, done, current)
    {
      done, current := ReadLineStep(lines, i, sc, done, current);
      sc := ReadLine(sc, lines[i]);
    }
    assert lines[..|lines|] == lines;
    sections := sc.sections;
    if lines == [] {
      return;
    }
    if sc.inTable {
      TableTextNotBlank(current);
    }
    SectionsSnoc(done, Run(sc.inTable, current));
    if JsTrim(sc.currentSection) != [] {
      if sc.inTable {
        sections := sections + [TableSection(sc.sectionIndex, JsTrim(sc.currentSection))];
      } else {
        sections := sections + [TextSection(sc.sectionIndex, sc.currentSection)];
      }
    }
  }

  // Bold spans: content.split(/(\*\*.*?\*\*)/g)

  /** The lazy `.*?\*\*` from position k: the first "**" at or after k with no line
      terminator before it; the result is the end of that "**". */
  function CloseFrom(s: string, k: nat): (e: Option<nat>)
    ensures e.Some? ==> k + 2 <= e.value <= |s| && s[e.value - 2] == '*' && s[e.value - 1] == '*'
    ensures e.Some? ==> forall j :: k <= j < e.value - 2 ==> !JsLineTerminator(s[j])
    ensures e.Some? ==> forall j :: k <= j < e.value - 2 ==> !(s[j] == '*' && s[j + 1] == '*')
    decreases |s| - k
  {
    if k + 2 > |s| then None
    else if s[k] == '*' && s[k + 1] == '*' then Some(k + 2)
    else if JsLineTerminator(s[k]) then None
    else CloseFrom(s, k + 1)
  }

  /** The end of a match of `\*\*.*?\*\*` starting exactly at i. */
  function MatchAt(s: string, i: nat): (e: Option<nat>)
    ensures e.Some? ==> i + 4 <= e.value <= |s| && s[i] == '*' && s[i + 1] == '*'
  {
    if i + 2 <= |s| && s[i] == '*' && s[i + 1] == '*' then CloseFrom(s, i + 2) else None
  }

  /** The leftmost match at or after `from`, as split finds it. */
  function FirstMatch(s: string, from: nat): (m: Option<(nat, nat)>)
    ensures m.Some? ==> from <= m.value.0 && MatchAt(s, m.value.0) == Some(m.value.1)
    ensures m.Some? ==> forall j :: from <= j < m.value.0 ==> MatchAt(s, j).None?
    ensures m.None? ==> forall j :: from <= j < |s| ==> MatchAt(s, j).None?
    decreases |s| - from
  {
    if from >= |s| then None
    else match MatchAt(s, from)
      case Some(e) => Some((from, e))
      case None => FirstMatch(s, from + 1)
  }

  /** The parts split returns: the text before each match, the match (the capture group is
      kept), and the text after the last match. */
  function BoldParts(s: string): (parts: seq<string>)
    ensures |parts| % 2 == 1
    decreases |s|
  {
    match FirstMatch(s, 0)
    case None => [s]
    case Some((i, e)) => [s[..i], s[i..e]] + BoldParts(s[e..])
  }

  function Concat(parts: seq<string>): string {
    if parts == [] then "" else parts[0] + Concat(parts[1..])
  }

  /** What a match looks like: "**", then no line terminator, then "**". */
  predicate IsBoldMatch(p: string) {
    && |p| >= 4 && p[0] == '*' && p[1] == '*' && p[|p| - 2] == '*' && p[|p| - 1] == '*'
    && forall j :: 2 <= j < |p| - 2 ==> !JsLineTerminator(p[j])
  }

  /** A match of the pattern is a bold match. */
  lemma MatchIsBold(s: string, i: nat)
    requires MatchAt(s, i).Some?
    ensures IsBoldMatch(s[i..MatchAt(s, i).value])
  {
    var e := MatchAt(s, i).value;
    var m := s[i..e];
    forall j | 2 <= j < |m| - 2 ensures !JsLineTerminator(m[j]) {
      assert m[j] == s[i + j];
    }
  }

  lemma ConcatCons2(a: string, b: string, rest: seq<string>)
    ensures Concat([a, b] + rest) == a + (b + Concat(rest))
  {
    var ps := [a, b] + rest;
    assert ps[1..] == [b] + rest;
    assert ps[1..][1..] == rest;
  }

  /** The parts concatenate back to the content. */
  lemma {:induction false} BoldPartsRoundTrip(s: string)
    ensures Concat(BoldParts(s)) == s
    decreases |s|
  {
    match FirstMatch(s, 0)
    case None =>
    case Some((i, e)) =>
      BoldPartsRoundTrip(s[e..]);
      ConcatCons2(s[..i], s[i..e], BoldParts(s[e..]));
      assert s == s[..i] + (s[i..e] + s[e..]);
  }

  /** Every odd part is a match of the bold pattern. */
  lemma {:induction false} OddPartsAreMatches(s: string)
    ensures forall k :: 0 <= k < |BoldParts(s)| && k % 2 == 1 ==> IsBoldMatch(BoldParts(s)[k])
    decreases |s|
  {
    match FirstMatch(s, 0)
    case None =>
    case Some((i, e)) =>
      var rest := BoldParts(s[e..]);
      var ps := [s[..i], s[i..e]] + rest;
      OddPartsAreMatches(s[e..]);
      MatchIsBold(s, i);
      assert ps[1] == s[i..e];
      forall k | 0 <= k < |ps| && k % 2 == 1 ensures IsBoldMatch(ps[k]) {
        if k > 1 {
          assert ps[k] == rest[k - 2];
        }
      }
  }

  /** A rendered span. */
  datatype Span = Plain(text: string) | Bold(text: string)

  /** A part that starts and ends with "**" renders bold without them (`slice(2, -2)`, empty
      when the part is shorter than four); any other part renders unchanged. */
  function RenderPart(p: string): (sp: Span)
    ensures (|p| >= 2 && p[..2] == "**" && p[|p| - 2..] == "**") <==> sp.Bold?
    ensures sp.Plain? ==> sp.text == p
    ensures sp.Bold? && |p| >= 4 ==> "**" + sp.text + "**" == p
  {
    if |p| >= 2 && p[..2] == "**" && p[|p| - 2..] == "**" then
      Bold(if |p| >= 4 then p[2..|p| - 2] else "")
    else Plain(p)
  }

  /** formatTextContent. */
  function FormatTextContent(content: string): (spans: seq<Span>)
    ensures |spans| == |BoldParts(content)|
  {
    var parts := BoldParts(content);
    seq(|parts|, k requires 0 <= k < |parts| => RenderPart(parts[k]))
  }

  /** Every bold match renders as a bold span of its inner text. */
  lemma MatchesRenderBold(content: string)
    ensures var ps := BoldParts(content); var spans := FormatTextContent(content);
      forall k :: 0 <= k < |ps| && k % 2 == 1 ==> IsBoldMatch(ps[k]) && spans[k] == Bold(ps[k][2..|ps[k]| - 2])
  {
    var ps := BoldParts(content);
    OddPartsAreMatches(content);
    var spans := FormatTextContent(content);
    forall k | 0 <= k < |ps| && k % 2 == 1
      ensures spans[k] == Bold(ps[k][2..|ps[k]| - 2])
    {
      assert spans[k] == RenderPart(ps[k]);
      BoldMatchRenders(ps[k]);
    }
  }

  lemma BoldMatchRenders(p: string)
    requires IsBoldMatch(p)
    ensures RenderPart(p) == Bold(p[2..|p| - 2])
  {
    assert p[..2] == "**" && p[|p| - 2..] == "**";
  }

  /** As written, the bold test looks at the text of a part, not at whether it was a match: a
      "**" pair around a line break is not matched yet renders bold, and a lone "**" renders as
      an empty bold span, so its asterisks disappear. */
  lemma UnmatchedStarsRenderBold()
    ensures BoldParts("**\n**") == ["**\n**"]
    ensures FormatTextContent("**\n**") == [Bold("\n")]
    ensures FormatTextContent("**") == [Bold("")]
  {
    var s := "**\n**";
    assert MatchAt(s, 0).None? by {
      assert CloseFrom(s, 2).None?;
    }
    assert FirstMatch(s, 0).None?;
    assert s[..2] == "**" && s[|s| - 2..] == "**" && s[2..|s| - 2] == "\n";
    assert FirstMatch("**", 0).None?;
    assert "**"[..2] == "**" && "**"[|"**"| - 2..] == "**";
  }
}
