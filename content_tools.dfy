/**
 * Text building for psychology reports: personality levels, report theme
 * names, the numbered report list, the clipped views shown to users
 * without permission, and the choice of indicator sections in a report.
 */
module ContentToolsModel {
  import opened PsychologyTypes
  import opened Strings

  function Min(a: int, b: int): int { if a < b then a else b }

  /** The Big Five level of a score: 低 up to 3.5, 高 from 7.5, 中 between. */
  function EvalPersonalityScore(score: real): (r: string)
    ensures r == "低" <==> score <= 3.5
    ensures r == "高" <==> score >= 7.5
    ensures r == "中" <==> 3.5 < score < 7.5
  {
    if score <= 3.5 then "低" else if score >= 7.5 then "高" else "中"
  }

  /** The order of the three levels. */
  function LevelRank(level: string): nat
  {
    if level == "低" then 0 else if level == "中" then 1 else 2
  }

  /** A higher score never receives a lower level. */
  lemma PersonalityLevelMonotone(a: real, b: real)
    requires a <= b
    ensures LevelRank(EvalPersonalityScore(a)) <= LevelRank(EvalPersonalityScore(b))
  {
  }

  /** The themes of a report; every theme without a painting tool of its own is OtherTheme. */
  datatype Theme = Generic | HouseTreePerson | PersonInTheRain | TreeTest | SelfPortrait | OtherTheme(code: string)

  /** Two themes belong to the same test: Generic is the house-tree-person test. */
  predicate SameTest(a: Theme, b: Theme)
  {
    ((a.Generic? || a.HouseTreePerson?) && (b.Generic? || b.HouseTreePerson?)) ||
    (a.OtherTheme? && b.OtherTheme?) ||
    (a == b && !a.OtherTheme?)
  }

  function ThemeName(t: Theme): (r: string)
    ensures r != []
  {
    match t
    case Generic => "房树人绘画测验"
    case HouseTreePerson => "房树人绘画测验"
    case PersonInTheRain => "雨中人绘画测验"
    case TreeTest => "树木绘画测验"
    case SelfPortrait => "自画像绘画测验"
    case OtherTheme(_) => "心理测验"
  }

  /** The test tool named in the report list. */
  function ToolName(t: Theme): (r: string)
    ensures r != []
  {
    match t
    case Generic => "房树人绘画"
    case HouseTreePerson => "房树人绘画"
    case PersonInTheRain => "雨中人绘画"
    case TreeTest => "树木绘画"
    case SelfPortrait => "自画像"
    case OtherTheme(_) => "量表"
  }

  /** Theme names tell tests apart exactly: two themes share a name iff they are the same test. */
  lemma ThemeNameIdentifiesTest(a: Theme, b: Theme)
    ensures ThemeName(a) == ThemeName(b) <==> SameTest(a, b)
  {
    if ThemeName(a) == ThemeName(b) {
      assert ThemeName(a)[0] == ThemeName(b)[0];
      assert |ThemeName(a)| == |ThemeName(b)|;
    }
  }

  /** The tool line and the title of a report list entry agree. */
  lemma ToolNameAgreesWithTheme(a: Theme, b: Theme)
    ensures ToolName(a) == ToolName(b) <==> ThemeName(a) == ThemeName(b)
  {
    ThemeNameIdentifiesTest(a, b);
    if ToolName(a) == ToolName(b) {
      assert ToolName(a)[0] == ToolName(b)[0];
      assert |ToolName(a)| == |ToolName(b)|;
    }
  }

  /**
   * What the report list shows of a report; the dates arrive formatted,
   * and the painting validity is absent when the report has no painting.
   */
  datatype ReportEntry = ReportEntry(theme: Theme, shortDate: string, date: string,
                                     genderText: string, ageText: string, paintingValid: Option<bool>)

  /** The heading line of the entry numbered index. */
  function Heading(index: nat, r: ReportEntry): string
  {
    "### " + NatToString(index) + " " + ThemeName(r.theme) + "（" + r.shortDate + "）\n\n"
  }

  /** The bullet lines of an entry: tool, date, subject and, for a painting, its validity. */
  function Details(r: ReportEntry): string
  {
    "* 测验工具：" + ToolName(r.theme) + "\n" +
    "* 评测日期：" + r.date + "\n" +
    "* 受测人：" + r.genderText + "性，" + r.ageText + "\n" +
    (if r.paintingValid.Some? then "* 绘画是否有效：" + (if r.paintingValid.value then "有效" else "无效") + "\n" else "") +
    "\n\n"
  }

  /** The list entry of one report, numbered index. */
  function Entry(index: nat, r: ReportEntry): string
  {
    Heading(index, r) + Details(r)
  }

  /** The items rendered by f, item k numbered k + 1. */
  function Enumerated<T>(xs: seq<T>, f: (nat, T) -> string): (r: seq<string>)
  {
    seq(|xs|, k requires 0 <= k < |xs| => f(k + 1, xs[k]))
  }

  /** One more item adds one rendering, numbered after the others. */
  lemma EnumeratedSnoc<T>(xs: seq<T>, f: (nat, T) -> string, i: nat)
    requires i < |xs|
    ensures Enumerated(xs[..i + 1], f) == Enumerated(xs[..i], f) + [f(i + 1, xs[i])]
  {
    var l := Enumerated(xs[..i + 1], f);
    var m := Enumerated(xs[..i], f) + [f(i + 1, xs[i])];
    forall k | 0 <= k < |l|
      ensures l[k] == m[k]
    {
      assert xs[..i + 1][k] == xs[k];
      if k < i {
        assert xs[..i][k] == xs[k];
      }
    }
  }

  /** The report list: entry k of the list is numbered k + 1. */
  function NumberedEntries(rs: seq<ReportEntry>): seq<string>
  {
    Enumerated(rs, Entry)
  }

  method MakeReportList(reports: seq<ReportEntry>) returns (s: string)
    ensures s == Flatten(NumberedEntries(reports))
  {
    s := "";
    var index := 0;
    while index < |reports|
      invariant 0 <= index <= |reports|
      invariant s == Flatten(NumberedEntries(reports[..index]))
    {
      var report := reports[index];
      EnumeratedSnoc(reports, Entry, index);
      FlattenSnoc(NumberedEntries(reports[..index]), Entry(index + 1, report));
      index := index + 1;
      s := s + Entry(index, report);
    }
    assert reports[..|reports|] == reports;
  }

  /**
   * The visible part of a clipped text: nothing for a missing text or one
   * of at most one character, otherwise the first ceil(len / 5) characters,
   * at most 50.
   */
  function Clipped(content: Option<string>): (v: string)
    ensures |v| <= 50
    ensures content.None? || |content.value| <= 1 ==> v == ""
    ensures content.Some? && |content.value| > 1 ==>
      |v| < |content.value| && v == content.value[..|v|] &&
      (|v| == 50 || 5 * |v| >= |content.value|) && 5 * |v| < |content.value| + 5
  {
    if content.Some? && |content.value| > 1 then
      content.value[..Min((|content.value| + 4) / 5, 50)]
    else ""
  }

  /** The clipped text with its ellipsis and, when asked for, the prompt link. */
  function ClipContent(content: Option<string>, tipLink: bool, link: string): string
  {
    Clipped(content) + "..." + (if tipLink then " （" + link + "）\n\n" else "\n\n")
  }

  /** One line of a by-lines clip: the line up to limit characters, "..." when it was longer. */
  function ClipLine(line: string, limit: nat): (r: string)
    ensures |line| <= limit ==> r == line + "\n"
    ensures |line| > limit ==> r == line[..limit] + "...\n"
  {
    if |line| == 0 then "\n"
    else line[..Min(limit, |line|)] + (if |line| > limit then "..." else "") + "\n"
  }

  function ClippedLines(lines: seq<string>, limit: nat): string
  {
    if lines == [] then "" else ClippedLines(lines[..|lines| - 1], limit) + ClipLine(lines[|lines| - 1], limit)
  }

  /** Lines no longer than limit come out joined by newlines with one newline after the last. */
  lemma {:induction false} ShortLinesJoined(lines: seq<string>, limit: nat)
    requires lines != []
    requires forall i :: 0 <= i < |lines| ==> |lines[i]| <= limit
    ensures ClippedLines(lines, limit) == Join(lines, "\n") + "\n"
  {
    var last := lines[|lines| - 1];
    assert |last| <= limit;
    if |lines| > 1 {
      var init := lines[..|lines| - 1];
      assert forall i :: 0 <= i < |init| ==> |init[i]| <= limit;
      ShortLinesJoined(init, limit);
      assert lines == init + [last];
      ShortLineJoinedStep(init, last, limit);
    } else {
      ShortLineAlone(last, limit);
      assert lines == [last];
    }
  }

  lemma ShortLineAlone(line: string, limit: nat)
    requires |line| <= limit
    ensures ClippedLines([line], limit) == Join([line], "\n") + "\n"
  {
    assert [line][..0] == [];
  }

  lemma ShortLineJoinedStep(init: seq<string>, last: string, limit: nat)
    requires init != [] && |last| <= limit
    requires ClippedLines(init, limit) == Join(init, "\n") + "\n"
    ensures ClippedLines(init + [last], limit) == Join(init + [last], "\n") + "\n"
  {
    assert (init + [last])[..|init|] == init;
    JoinSnoc(init, last, "\n");
    assert ClippedLines(init + [last], limit) == ClippedLines(init, limit) + ClipLine(last, limit);
    assert ClipLine(last, limit) == last + "\n";
    LineAfterLines(Join(init, "\n"), "\n", last);
  }

  lemma LineAfterLines<T>(joined: seq<T>, nl: seq<T>, last: seq<T>)
    ensures joined + nl + (last + nl) == (joined + nl + last) + nl
  {
  }

  /**
   * A text whose lines all fit is reproduced up to its trailing newlines,
   * followed by a single newline.
   */
  lemma ShortContentKept(content: string, limit: nat)
    requires JavaSplit(content, '\n') != []
    requires forall i :: 0 <= i < |JavaSplit(content, '\n')| ==> |JavaSplit(content, '\n')[i]| <= limit
    ensures var out := ClippedLines(JavaSplit(content, '\n'), limit);
      |out| >= 1 && |out| - 1 <= |content| && out[..|out| - 1] == content[..|out| - 1] && out[|out| - 1] == '\n' &&
      forall i :: |out| - 1 <= i < |content| ==> content[i] == '\n'
  {
    ShortLinesJoined(JavaSplit(content, '\n'), limit);
    SplitLosesOnlyTrailingSeparators(content, '\n');
    var out := ClippedLines(JavaSplit(content, '\n'), limit);
    assert out[..|out| - 1] == Join(JavaSplit(content, '\n'), "\n");
  }

  /** The closing notice of a by-lines clip, around the prompt link. */
  function LinesNotice(link: string): string
  {
    "\n\n" + "您暂时无法查看此评测报告的全部数据，" + link + "。" + "\n\n"
  }

  method ClipContentByLines(content: string, limit: nat, link: string) returns (s: string)
    ensures s == ClippedLines(JavaSplit(content, '\n'), limit) + LinesNotice(link)
  {
    var lines := JavaSplit(content, '\n');
    s := "";
    var i := 0;
    while i < |lines|
      invariant 0 <= i <= |lines|
      invariant s == ClippedLines(lines[..i], limit)
    {
      ClippedLinesSnoc(lines, i, limit);
      s := AppendClippedLine(s, lines[i], limit);
      i := i + 1;
    }
    assert lines[..|lines|] == lines;
    s := s + LinesNotice(link);
  }

  /** The loop body: the line, cut at limit with "..." when longer, and a newline go after s. */
  method AppendClippedLine(s: string, line: string, limit: nat) returns (t: string)
    ensures t == s + ClipLine(line, limit)
  {
    t := s;
    if |line| == 0 {
      t := t + "\n";
    } else {
      var newLine := line[..Min(limit, |line|)];
      t := t + newLine;
      if |line| > limit {
        t := t + "...";
      }
      t := t + "\n";
    }
  }

  lemma ClippedLinesSnoc(lines: seq<string>, i: int, limit: nat)
    requires 0 <= i < |lines|
    ensures ClippedLines(lines[..i + 1], limit) == ClippedLines(lines[..i], limit) + ClipLine(lines[i], limit)
  {
    assert lines[..i + 1][..i] == lines[..i];
  }

  /** The section a report holds for an indicator. */
  datatype ReportSection = ReportSection(title: string, report: string, suggestion: string)

  /** The sections the report holds for the scores' indicators, in score order. */
  function Available(inds: seq<Indicator>, sections: map<Indicator, ReportSection>): (r: seq<ReportSection>)
    ensures |r| <= |inds|
  {
    if inds == [] then []
    else
      var last := inds[|inds| - 1];
      Available(inds[..|inds| - 1], sections) + (if last in sections then [sections[last]] else [])
  }

  /** The sections of a prefix of the scores open the sections of all of them. */
  lemma {:induction false} AvailablePrefix(inds: seq<Indicator>, j: nat, sections: map<Indicator, ReportSection>)
    requires j <= |inds|
    ensures |Available(inds[..j], sections)| <= |Available(inds, sections)|
    ensures Available(inds[..j], sections) == Available(inds, sections)[..|Available(inds[..j], sections)|]
  {
    if j < |inds| {
      var init := inds[..|inds| - 1];
      assert inds[..j] == init[..j];
      AvailablePrefix(init, j, sections);
    } else {
      assert inds[..j] == inds;
    }
  }

  /**
   * The indicator sections a report shows: scores without a section are
   * skipped, and the scan stops once maxIndicators sections were emitted.
   */
  method SelectSections(inds: seq<Indicator>, sections: map<Indicator, ReportSection>, maxIndicators: int)
    returns (emitted: seq<ReportSection>)
    ensures maxIndicators <= 0 ==> emitted == []
    ensures maxIndicators > 0 ==>
      emitted == Available(inds, sections)[..Min(|Available(inds, sections)|, maxIndicators)]
  {
    emitted := [];
    if |inds| > 0 && maxIndicators > 0 {
      var numIndicators := 0;
      var k := 0;
      while k < |inds|
        invariant 0 <= k <= |inds|
        invariant emitted == Available(inds[..k], sections)
        invariant numIndicators == |emitted| < maxIndicators
      {
        var ind := inds[k];
        assert inds[..k + 1][..k] == inds[..k];
        k := k + 1;
        if ind !in sections {
          continue;
        }
        emitted := emitted + [sections[ind]];
        numIndicators := numIndicators + 1;
        if numIndicators >= maxIndicators {
          AvailablePrefix(inds, k, sections);
          return;
        }
      }
      assert inds[..k] == inds;
    }
  }
}
