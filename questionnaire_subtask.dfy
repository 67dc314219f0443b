/**
 * The questionnaire subtask of a counselling conversation: a scale is
 * answered question by question under a cursor, a free-form query is read
 * as one of the options A to E, off-topic queries are counted and end the
 * questionnaire at three, and the questions are rendered as Markdown.
 * The language-model verdicts the subtask asks for are parameters.
 */
module QuestionnaireSubtaskModel {
  import opened PsychologyTypes
  import opened Strings

  /** An option of a choice question. */
  datatype Answer = Answer(code: string, content: string)

  /** A scale question; a descriptive one is answered in free text. */
  datatype Question = Question(descriptive: bool, prompt: string, content: string, answers: seq<Answer>)

  /**
   * A hidden question of the scale: it is never asked; when the scale
   * finishes it is answered by inference when its inference text is longer
   * than one character, otherwise by its first option.
   */
  datatype HiddenQuestion = HiddenQuestion(sn: int, inference: string, answers: seq<Answer>)

  /** The index of the first element satisfying p, -1 for none. */
  function FirstIndex<T>(xs: seq<T>, p: T -> bool): (r: int)
    ensures -1 <= r < |xs|
    ensures r >= 0 ==> p(xs[r])
    ensures forall j :: 0 <= j < |xs| && (r < 0 || j < r) ==> !p(xs[j])
    decreases |xs|
  {
    if xs == [] then -1
    else if p(xs[0]) then 0
    else
      var k := FirstIndex(xs[1..], p);
      if k < 0 then -1 else k + 1
  }

  // ---- Reading a choice from the query ------------------------------------

  /** The option codes in the order they are tried. */
  const Codes: seq<string> := ["A", "B", "C", "D", "E"]

  /** For each code, the letter, digit, numeral, formal numeral and circled digit naming it. */
  const MarkerGroups: seq<seq<string>> := [
    ["A", "1", "一", "壹", "①"],
    ["B", "2", "二", "贰", "②"],
    ["C", "3", "三", "叁", "③"],
    ["D", "4", "四", "肆", "④"],
    ["E", "5", "五", "伍", "⑤"]
  ]

  predicate MentionsAny(q: string, markers: seq<string>)
  {
    exists k :: 0 <= k < |markers| && Contains(q, markers[k])
  }

  function MentionsGroup(q: string): seq<string> -> bool
  {
    g => MentionsAny(q, g)
  }

  /** An option matches when the query holds its content or code, or its content holds the query. */
  predicate AnswerMatches(q: string, a: Answer)
  {
    Contains(q, a.content) || Contains(q, a.code) || Contains(a.content, q)
  }

  function MatchesQuery(q: string): Answer -> bool
  {
    a => AnswerMatches(q, a)
  }

  /**
   * The option the query names: the first marker group the upper-cased
   * query mentions gives its code, otherwise the first matching option
   * gives its code, otherwise none.
   */
  function SingleChoiceAnswer(query: string, answers: seq<Answer>): Option<string>
  {
    var q := Upper(query);
    var g := FirstIndex(MarkerGroups, MentionsGroup(q));
    if g >= 0 then Some(Codes[g])
    else
      var k := FirstIndex(answers, MatchesQuery(q));
      if k >= 0 then Some(answers[k].code) else None
  }

  /** The matcher as a scan over the options. */
  method MatchSingleChoiceAnswer(query: string, answers: seq<Answer>) returns (r: Option<string>)
    ensures r == SingleChoiceAnswer(query, answers)
  {
    var q := Upper(query);
    var g := FirstIndex(MarkerGroups, MentionsGroup(q));
    if g >= 0 {
      return Some(Codes[g]);
    }
    var i := 0;
    while i < |answers|
      invariant 0 <= i <= |answers|
      invariant forall j :: 0 <= j < i ==> !AnswerMatches(q, answers[j])
    {
      if Contains(q, answers[i].content) || Contains(q, answers[i].code) || Contains(answers[i].content, q) {
        assert FirstIndex(answers, MatchesQuery(q)) == i;
        return Some(answers[i].code);
      }
      i := i + 1;
    }
    return None;
  }

  /** A one-character pattern occurs where the string holds that character. */
  lemma CharContained(s: string, i: int)
    requires 0 <= i < |s|
    ensures Contains(s, [s[i]])
  {
    assert OccursAt(s, [s[i]], i);
  }

  /**
   * A query holding a or A, 1, 一, 壹 or ① is read as option A whatever the
   * options are.
   */
  lemma OptionAWins(query: string, answers: seq<Answer>, i: int)
    requires 0 <= i < |query|
    requires query[i] in {'a', 'A', '1', '一', '壹', '①'}
    ensures SingleChoiceAnswer(query, answers) == Some("A")
  {
    var q := Upper(query);
    assert q[i] in {'A', '1', '一', '壹', '①'};
    CharContained(q, i);
    var markers := MarkerGroups[0];
    assert [q[i]] in markers;
    assert MentionsGroup(q)(markers);
  }

  /**
   * Markers are tried for A before B and so on: a query naming both B and C
   * and not A is read as B.
   */
  lemma MarkerOrder(query: string, answers: seq<Answer>, g: int)
    requires 0 <= g < 5
    requires MentionsAny(Upper(query), MarkerGroups[g])
    requires forall h :: 0 <= h < g ==> !MentionsAny(Upper(query), MarkerGroups[h])
    ensures SingleChoiceAnswer(query, answers) == Some(Codes[g])
  {
    var q := Upper(query);
    assert MentionsGroup(q)(MarkerGroups[g]);
    assert forall h :: 0 <= h < g ==> !MentionsGroup(q)(MarkerGroups[h]);
  }

  /**
   * Nothing is read exactly when no marker group is mentioned and no option
   * matches; a result is one of A to E or the code of the first matching option.
   */
  lemma SingleChoiceMeaning(query: string, answers: seq<Answer>)
    ensures var q := Upper(query);
      SingleChoiceAnswer(query, answers).None? <==>
        ((forall g :: 0 <= g < |MarkerGroups| ==> !MentionsAny(q, MarkerGroups[g])) &&
         (forall j :: 0 <= j < |answers| ==> !AnswerMatches(q, answers[j])))
    ensures var q := Upper(query);
      var r := SingleChoiceAnswer(query, answers);
      r.Some? ==> (r.value in Codes ||
        exists k :: 0 <= k < |answers| && answers[k].code == r.value && AnswerMatches(q, answers[k]) &&
          forall j :: 0 <= j < k ==> !AnswerMatches(q, answers[j]))
  {
    var q := Upper(query);
    var g := FirstIndex(MarkerGroups, MentionsGroup(q));
    var k := FirstIndex(answers, MatchesQuery(q));
    if g < 0 {
      assert forall h :: 0 <= h < |MarkerGroups| ==> !MentionsGroup(q)(MarkerGroups[h]);
      if k >= 0 {
        assert MatchesQuery(q)(answers[k]);
        assert forall j :: 0 <= j < k ==> !MatchesQuery(q)(answers[j]);
      } else {
        assert forall j :: 0 <= j < |answers| ==> !MatchesQuery(q)(answers[j]);
      }
    } else {
      assert MentionsGroup(q)(MarkerGroups[g]);
    }
  }

  /** An empty query names no marker and is held by every content: the first option is read. */
  lemma EmptyQueryTakesFirstOption(answers: seq<Answer>)
    requires answers != []
    ensures SingleChoiceAnswer("", answers) == Some(answers[0].code)
  {
    assert Upper("") == "";
    assert OccursAt(answers[0].content, "", 0);
    assert MatchesQuery("")(answers[0]);
    assert forall g :: 0 <= g < |MarkerGroups| ==> !MentionsGroup("")(MarkerGroups[g]);
  }

  // ---- Numbered lists turned into paragraphs ------------------------------

  /** The non-empty lines in order. */
  function NonEmptyLines(lines: seq<string>): (r: seq<string>)
    ensures forall i :: 0 <= i < |r| ==> r[i] != ""
    decreases |lines|
  {
    if lines == [] then []
    else (if lines[0] == "" then [] else [lines[0]]) + NonEmptyLines(lines[1..])
  }

  /**
   * The lines the scan keeps: non-empty lines until n are kept, where a
   * budget of at most 1 keeps only the first.
   */
  function Kept(lines: seq<string>, n: int): seq<string>
    decreases |lines|
  {
    if lines == [] then []
    else if lines[0] == "" then Kept(lines[1..], n)
    else [lines[0]] + (if n - 1 <= 0 then [] else Kept(lines[1..], n - 1))
  }

  /** A kept line: one opening with a digit loses its first three characters, and fails when shorter. */
  function Piece(line: string): Option<string>
  {
    if line != "" && IsDigit(line[0]) then
      (if |line| >= 3 then Some(line[3..]) else None)
    else Some(line)
  }

  /** Every kept line made a piece, failing at the first that fails. */
  function Pieces(ks: seq<string>): Option<seq<string>>
  {
    if ks == [] then Some([])
    else match Pieces(ks[..|ks| - 1])
      case None => None
      case Some(ps) =>
        match Piece(ks[|ks| - 1])
        case None => None
        case Some(p) => Some(ps + [p])
  }

  /** Each piece followed by a paragraph break. */
  function Terminated(ps: seq<string>): string
  {
    if ps == [] then "" else Terminated(ps[..|ps| - 1]) + ps[|ps| - 1] + "\n\n"
  }

  /**
   * The source's filterList: the first maxLines non-empty lines as
   * paragraphs. It fails (the source throws) when there is no non-empty
   * line or a kept line opening with a digit is shorter than three.
   */
  function FilteredText(text: string, maxLines: int): Option<string>
  {
    match Pieces(Kept(JavaSplit(text, '\n'), maxLines))
    case None => None
    case Some(ps) => if ps == [] then None else Some(Join(ps, "\n\n"))
  }

  lemma {:induction false} TerminatedJoin(ps: seq<string>)
    requires ps != []
    ensures Terminated(ps) == Join(ps, "\n\n") + "\n\n"
    decreases |ps|
  {
    var init := ps[..|ps| - 1];
    if init != [] {
      TerminatedJoin(init);
      JoinSnoc(init, ps[|ps| - 1], "\n\n");
      assert init + [ps[|ps| - 1]] == ps;
    }
  }

  lemma {:induction false} PiecesNoneExtends(a: seq<string>, b: seq<string>)
    requires Pieces(a) == None
    ensures Pieces(a + b) == None
    decreases |b|
  {
    if b != [] {
      var init := b[..|b| - 1];
      PiecesNoneExtends(a, init);
      assert (a + b)[..|a + b| - 1] == a + init;
    } else {
      assert a + b == a;
    }
  }

  lemma PiecesSnoc(ks: seq<string>, k: string)
    ensures Pieces(ks + [k]) ==
      match Pieces(ks)
      case None => None
      case Some(ps) => match Piece(k) case None => None case Some(p) => Some(ps + [p])
  {
    assert (ks + [k])[..|ks|] == ks;
  }

  lemma KeptStep(lines: seq<string>, i: int, n: int)
    requires 0 <= i < |lines|
    ensures lines[i] == "" ==> Kept(lines[i..], n) == Kept(lines[i + 1..], n)
    ensures lines[i] != "" ==>
      Kept(lines[i..], n) == [lines[i]] + (if n - 1 <= 0 then [] else Kept(lines[i + 1..], n - 1))
  {
    assert lines[i..][1..] == lines[i + 1..];
  }

  /** What the scan has built after the lines before i. */
  ghost predicate FilterInv(lines: seq<string>, maxLines: int, i: int, count: int,
                            kept: seq<string>, ps: seq<string>, buf: string)
  {
    0 <= i <= |lines| && count == |kept| == |ps| && (count == 0 || count < maxLines) &&
    Kept(lines, maxLines) == kept + Kept(lines[i..], maxLines - count) &&
    Pieces(kept) == Some(ps) && buf == Terminated(ps)
  }

  lemma FilterSkip(lines: seq<string>, maxLines: int, i: int, count: int,
                   kept: seq<string>, ps: seq<string>, buf: string)
    requires FilterInv(lines, maxLines, i, count, kept, ps, buf) && i < |lines| && lines[i] == ""
    ensures FilterInv(lines, maxLines, i + 1, count, kept, ps, buf)
  {
    KeptStep(lines, i, maxLines - count);
  }

  lemma FilterTake(lines: seq<string>, maxLines: int, i: int, count: int,
                   kept: seq<string>, ps: seq<string>, buf: string)
    requires FilterInv(lines, maxLines, i, count, kept, ps, buf) && i < |lines| && lines[i] != ""
    requires Piece(lines[i]).Some?
    ensures var p := Piece(lines[i]).value;
      Pieces(kept + [lines[i]]) == Some(ps + [p]) && buf + p + "\n\n" == Terminated(ps + [p])
    ensures count + 1 >= maxLines ==> Kept(lines, maxLines) == kept + [lines[i]]
    ensures count + 1 < maxLines ==>
      var p := Piece(lines[i]).value;
      FilterInv(lines, maxLines, i + 1, count + 1, kept + [lines[i]], ps + [p], buf + p + "\n\n")
  {
    var p := Piece(lines[i]).value;
    PiecesSnoc(kept, lines[i]);
    TerminatedSnoc(ps, p);
    KeptAfterTake(lines, maxLines, i, count, kept);
  }

  lemma TerminatedSnoc(ps: seq<string>, p: string)
    ensures Terminated(ps) + p + "\n\n" == Terminated(ps + [p])
  {
    assert (ps + [p])[..|ps|] == ps;
  }

  /** Taking the non-empty line i: the kept lines end there, or the scan goes on with one fewer to keep. */
  lemma KeptAfterTake(lines: seq<string>, maxLines: int, i: int, count: int, kept: seq<string>)
    requires 0 <= i < |lines| && lines[i] != ""
    requires Kept(lines, maxLines) == kept + Kept(lines[i..], maxLines - count)
    ensures count + 1 >= maxLines ==> Kept(lines, maxLines) == kept + [lines[i]]
    ensures count + 1 < maxLines ==>
      Kept(lines, maxLines) == (kept + [lines[i]]) + Kept(lines[i + 1..], maxLines - (count + 1))
  {
    KeptStep(lines, i, maxLines - count);
    if count + 1 >= maxLines {
      assert [lines[i]] + [] == [lines[i]];
    } else {
      ConcatAssoc(kept, [lines[i]], Kept(lines[i + 1..], maxLines - (count + 1)));
    }
  }

  lemma FilterFail(lines: seq<string>, maxLines: int, i: int, count: int, kept: seq<string>)
    requires 0 <= i < |lines| && lines[i] != ""
    requires Kept(lines, maxLines) == kept + Kept(lines[i..], maxLines - count)
    requires Piece(lines[i]).None?
    ensures Pieces(Kept(lines, maxLines)) == None
  {
    KeptStep(lines, i, maxLines - count);
    var rest := if maxLines - count - 1 <= 0 then [] else Kept(lines[i + 1..], maxLines - count - 1);
    assert Kept(lines[i..], maxLines - count) == [lines[i]] + rest;
    PiecesFailAt(kept, lines[i], rest);
  }

  /** A line that fails as a piece fails every list it is kept in. */
  lemma PiecesFailAt(kept: seq<string>, k: string, rest: seq<string>)
    requires Piece(k).None?
    ensures Pieces(kept + ([k] + rest)) == None
  {
    PiecesSnoc(kept, k);
    PiecesNoneExtends(kept + [k], rest);
    ConcatAssoc(kept, [k], rest);
  }

  lemma FilterDone(lines: seq<string>, maxLines: int, kept: seq<string>, ps: seq<string>, buf: string)
    requires Kept(lines, maxLines) == kept && Pieces(kept) == Some(ps) && buf == Terminated(ps)
    ensures ps == [] <==> buf == ""
    ensures ps != [] ==> |buf| >= 2 && buf[..|buf| - 2] == Join(ps, "\n\n")
  {
    if ps != [] {
      TerminatedJoin(ps);
    }
  }

  /** The scan as the source writes it, building the text and deleting the last break. */
  method FilterList(text: string, maxLines: int) returns (r: Option<string>)
    ensures r == FilteredText(text, maxLines)
  {
    var lines := JavaSplit(text, '\n');
    var count := 0;
    var buf := "";
    ghost var kept: seq<string> := [];
    ghost var ps: seq<string> := [];
    var i := 0;
    assert lines[0..] == lines;
    while i < |lines|
      invariant FilterInv(lines, maxLines, i, count, kept, ps, buf)
    {
      var line := lines[i];
      if line == "" {
        FilterSkip(lines, maxLines, i, count, kept, ps, buf);
        i := i + 1;
        continue;
      }
      var cut := CutLine(line);
      if cut.None? {
        FilterFail(lines, maxLines, i, count, kept);
        return None;
      }
      var piece := cut.value;
      FilterTake(lines, maxLines, i, count, kept, ps, buf);
      buf := buf + piece + "\n\n";
      kept := kept + [line];
      ps := ps + [piece];
      count := count + 1;
      if count >= maxLines {
        break;
      }
      i := i + 1;
    }
    if i == |lines| {
      assert lines[i..] == [];
    }
    FilterDone(lines, maxLines, kept, ps, buf);
    if buf == "" {
      return None;
    }
    r := Some(buf[..|buf| - 2]);
  }

  /** A numbered line loses its first three characters; one too short for that fails. */
  method CutLine(line: string) returns (piece: Option<string>)
    requires line != ""
    ensures piece == Piece(line)
  {
    piece := Some(line);
    if IsDigit(line[0]) {
      if |line| < 3 {
        return None;
      }
      piece := Some(line[3..]);
    }
  }

  /** Kept lines are the first max(1, n) non-empty lines. */
  lemma {:induction false} KeptIsPrefix(lines: seq<string>, n: int)
    ensures var ne := NonEmptyLines(lines);
      var m := if n < 1 then 1 else n;
      Kept(lines, n) == if |ne| <= m then ne else ne[..m]
    decreases |lines|
  {
    if lines != [] {
      var rest := lines[1..];
      var ne := NonEmptyLines(lines);
      if lines[0] == "" {
        KeptIsPrefix(rest, n);
        assert ne == NonEmptyLines(rest);
      } else {
        var ner := NonEmptyLines(rest);
        assert ne == [lines[0]] + ner;
        if n - 1 > 0 {
          KeptIsPrefix(rest, n - 1);
          if |ner| > n - 1 {
            assert ne[..n] == [lines[0]] + ner[..n - 1];
          }
        } else {
          assert ne[..1] == [lines[0]];
        }
      }
    }
  }

  /**
   * Pieces are the kept lines, those opening with a digit without their
   * first three characters; they fail exactly when such a line is too short.
   */
  lemma {:induction false} PiecesMeaning(ks: seq<string>)
    ensures Pieces(ks).None? <==>
      exists i :: 0 <= i < |ks| && ks[i] != "" && IsDigit(ks[i][0]) && |ks[i]| < 3
    ensures Pieces(ks).Some? ==>
      var ps := Pieces(ks).value;
      |ps| == |ks| &&
      forall i :: 0 <= i < |ks| ==> ps[i] == if ks[i] != "" && IsDigit(ks[i][0]) then ks[i][3..] else ks[i]
    decreases |ks|
  {
    if ks != [] {
      var init := ks[..|ks| - 1];
      PiecesMeaning(init);
      assert forall i :: 0 <= i < |init| ==> init[i] == ks[i];
    }
  }

  /** Without a non-empty line there is nothing to keep and the source throws. */
  lemma FilterListNeedsALine(text: string, maxLines: int)
    requires NonEmptyLines(JavaSplit(text, '\n')) == []
    ensures FilteredText(text, maxLines).None?
  {
    KeptIsPrefix(JavaSplit(text, '\n'), maxLines);
  }

  /**
   * With no non-empty line opening with a digit, the result is the first
   * max(1, maxLines) non-empty lines joined by paragraph breaks.
   */
  lemma FilterListPlainLines(text: string, maxLines: int)
    requires var ne := NonEmptyLines(JavaSplit(text, '\n'));
      ne != [] && forall i :: 0 <= i < |ne| ==> !IsDigit(ne[i][0])
    ensures var ne := NonEmptyLines(JavaSplit(text, '\n'));
      var m := if maxLines < 1 then 1 else maxLines;
      FilteredText(text, maxLines) == Some(Join(if |ne| <= m then ne else ne[..m], "\n\n"))
  {
    var lines := JavaSplit(text, '\n');
    var ne := NonEmptyLines(lines);
    var m := if maxLines < 1 then 1 else maxLines;
    KeptIsPrefix(lines, maxLines);
    var ks := Kept(lines, maxLines);
    assert forall i :: 0 <= i < |ks| ==> ks[i] == ne[i];
    PiecesMeaning(ks);
    assert Pieces(ks).Some?;
    assert Pieces(ks).value == ks;
    assert ks != [] by {
      assert |ks| >= 1;
    }
  }

  // ---- Rendering a question -------------------------------------------------

  /** Decimal rendering of an int, with a minus sign for a negative one. */
  function IntToString(i: int): (r: string)
    ensures |r| > 0
  {
    if i < 0 then "-" + NatToString(-i) else NatToString(i)
  }

  function Header(sn: int, content: string): string
  {
    "问题" + IntToString(sn) + "：" + content + "\n\n"
  }

  /** A Markdown bullet whose link carries the question number, the code and the content. */
  function Bullet(link: string, sn: int, a: Answer): (r: string)
    ensures |r| > 0
  {
    "* [" + a.code + ". " + a.content + "](" + link + IntToString(sn) + "/" + a.code + "/" + a.content + ")" + "\n\n"
  }

  function BulletOf(link: string, sn: int): Answer -> string
  {
    a => Bullet(link, sn, a)
  }

  /** The rendering of each element, concatenated in order. */
  function ConcatMap<T>(xs: seq<T>, f: T -> string): string
  {
    if xs == [] then "" else ConcatMap(xs[..|xs| - 1], f) + f(xs[|xs| - 1])
  }

  function Bullets(link: string, sn: int, answers: seq<Answer>): string
  {
    ConcatMap(answers, BulletOf(link, sn))
  }

  /**
   * The source's makeQuestion: a descriptive question is its prompt, or its
   * content when the prompt is empty; a choice question is a header and one
   * bullet per option; a question the scale does not have renders as empty.
   */
  function QuestionText(q: Option<Question>, sn: int, link: string): string
  {
    match q
    case None => ""
    case Some(q) =>
      if q.descriptive then (if |q.prompt| > 0 then q.prompt else q.content)
      else Header(sn, q.content) + Bullets(link, sn, q.answers)
  }

  method MakeQuestion(q: Option<Question>, sn: int, link: string) returns (r: string)
    ensures r == QuestionText(q, sn, link)
  {
    if q.None? {
      return "";
    }
    var question := q.value;
    if question.descriptive {
      if |question.prompt| > 0 {
        return question.prompt;
      }
      return question.content;
    }
    r := Header(sn, question.content);
    var i := 0;
    while i < |question.answers|
      invariant 0 <= i <= |question.answers|
      invariant r == Header(sn, question.content) + Bullets(link, sn, question.answers[..i])
    {
      var b := Bullet(link, sn, question.answers[i]);
      BulletsSnoc(link, sn, question.answers, i);
      ConcatAssoc(Header(sn, question.content), Bullets(link, sn, question.answers[..i]), b);
      r := r + b;
      i := i + 1;
    }
    assert question.answers[..|question.answers|] == question.answers;
  }

  lemma BulletsSnoc(link: string, sn: int, answers: seq<Answer>, i: int)
    requires 0 <= i < |answers|
    ensures Bullets(link, sn, answers[..i + 1]) == Bullets(link, sn, answers[..i]) + Bullet(link, sn, answers[i])
  {
    ConcatMapSnocAs(answers, BulletOf(link, sn), i, Bullet(link, sn, answers[i]));
  }

  lemma ConcatMapSnocAs<T>(xs: seq<T>, f: T -> string, i: int, g: string)
    requires 0 <= i < |xs| && f(xs[i]) == g
    ensures ConcatMap(xs[..i + 1], f) == ConcatMap(xs[..i], f) + g
  {
    assert xs[..i + 1][..i] == xs[..i];
  }

  lemma {:induction false} ConcatMapAppend<T>(xs: seq<T>, ys: seq<T>, f: T -> string)
    ensures ConcatMap(xs + ys, f) == ConcatMap(xs, f) + ConcatMap(ys, f)
    decreases |ys|
  {
    if ys == [] {
      assert xs + ys == xs;
    } else {
      var init := ys[..|ys| - 1];
      ConcatMapAppend(xs, init, f);
      assert (xs + ys)[..|xs + ys| - 1] == xs + init;
    }
  }

  /** The rendering of element i sits between those of the elements around it. */
  lemma ConcatMapSplit<T>(xs: seq<T>, f: T -> string, i: int)
    requires 0 <= i < |xs|
    ensures ConcatMap(xs, f) == ConcatMap(xs[..i], f) + f(xs[i]) + ConcatMap(xs[i + 1..], f)
  {
    ConcatMapSnocAs(xs, f, i, f(xs[i]));
    TakeDrop(xs, i + 1);
    ConcatMapAppend(xs[..i + 1], xs[i + 1..], f);
  }

  lemma TakeDrop<T>(xs: seq<T>, k: int)
    requires 0 <= k <= |xs|
    ensures xs[..k] + xs[k..] == xs
  {
  }

  lemma ConcatMapOccurs<T>(h: string, xs: seq<T>, f: T -> string, i: int)
    requires 0 <= i < |xs|
    ensures OccursAt(h + ConcatMap(xs, f), f(xs[i]), |h| + |ConcatMap(xs[..i], f)|)
  {
    ConcatMapSplit(xs, f, i);
    var pre := h + ConcatMap(xs[..i], f);
    var x := f(xs[i]);
    var t := h + ConcatMap(xs, f);
    assert t == pre + x + ConcatMap(xs[i + 1..], f);
    assert t[|pre|..|pre| + |x|] == x;
  }

  lemma {:induction false} ConcatMapGrow<T>(xs: seq<T>, f: T -> string, i: int, j: int)
    requires 0 <= i <= j <= |xs|
    requires forall k :: 0 <= k < |xs| ==> |f(xs[k])| > 0
    ensures |ConcatMap(xs[..i], f)| + (j - i) <= |ConcatMap(xs[..j], f)|
    decreases j - i
  {
    if i < j {
      ConcatMapGrow(xs, f, i, j - 1);
      assert xs[..j][..j - 1] == xs[..j - 1];
    }
  }

  /**
   * A choice question's text opens with its header, and the bullet of
   * option i follows the bullets of the options before it, in option order.
   */
  lemma ChoiceQuestionLayout(q: Question, sn: int, link: string)
    requires !q.descriptive
    ensures StartsWith(QuestionText(Some(q), sn, link), Header(sn, q.content))
    ensures forall i :: 0 <= i < |q.answers| ==>
      OccursAt(QuestionText(Some(q), sn, link), Bullet(link, sn, q.answers[i]),
        |Header(sn, q.content)| + |Bullets(link, sn, q.answers[..i])|)
    ensures forall i, j :: 0 <= i < j <= |q.answers| ==>
      |Bullets(link, sn, q.answers[..i])| < |Bullets(link, sn, q.answers[..j])|
  {
    var h := Header(sn, q.content);
    var f := BulletOf(link, sn);
    assert QuestionText(Some(q), sn, link) == h + ConcatMap(q.answers, f);
    assert QuestionText(Some(q), sn, link)[..|h|] == h;
    forall i | 0 <= i < |q.answers|
      ensures OccursAt(QuestionText(Some(q), sn, link), Bullet(link, sn, q.answers[i]),
        |Header(sn, q.content)| + |Bullets(link, sn, q.answers[..i])|)
    {
      ChoiceBulletAt(q, sn, link, i);
    }
    forall i, j | 0 <= i < j <= |q.answers|
      ensures |Bullets(link, sn, q.answers[..i])| < |Bullets(link, sn, q.answers[..j])|
    {
      ConcatMapGrow(q.answers, f, i, j);
    }
  }

  /** The bullet of option i sits right after the header and the bullets before it. */
  lemma ChoiceBulletAt(q: Question, sn: int, link: string, i: int)
    requires !q.descriptive && 0 <= i < |q.answers|
    ensures OccursAt(QuestionText(Some(q), sn, link), Bullet(link, sn, q.answers[i]),
      |Header(sn, q.content)| + |Bullets(link, sn, q.answers[..i])|)
  {
    var h := Header(sn, q.content);
    var f := BulletOf(link, sn);
    assert QuestionText(Some(q), sn, link) == h + ConcatMap(q.answers, f);
    ConcatMapOccursAs(h, q.answers, f, i, Bullet(link, sn, q.answers[i]));
  }

  /** The rendering g of element i sits right after the renderings before it. */
  lemma ConcatMapOccursAs<T>(h: string, xs: seq<T>, f: T -> string, i: int, g: string)
    requires 0 <= i < |xs| && f(xs[i]) == g
    ensures OccursAt(h + ConcatMap(xs, f), g, |h| + |ConcatMap(xs[..i], f)|)
  {
    ConcatMapOccurs(h, xs, f, i);
  }

  // ---- The answering state machine ------------------------------------------

  /** The conversation's verdict on the subtask for this round. */
  datatype Round = Yes | No | StopQuestionnaire | OtherRound

  /** What the subtask answers and does. */
  datatype Reply =
    | AskQuestion(sn: int)
    | PleaseStart
    | ManyOffTopicsEnd(count: nat)
    | BadStop
    | GoodStop(answered: nat)
    | Finish
    | Failed
    | OffTopic(sn: int)
    | AnalysedOffTopic(sn: int)
    | NextQuestion(sn: int)

  /** The off-topic count at which the questionnaire is abandoned. */
  const AbortThreshold: nat := 3

  /** Whether a "continue" on the scale finishes it, as line 221 tests. */
  predicate ContinueFinishesAsWritten(cursor: int, numQuestions: int, complete: bool)
  {
    cursor >= numQuestions || complete
  }

  /** Whether a "continue" finishes the scale: only once every question is past the cursor. */
  predicate ContinueFinishes(cursor: int, numQuestions: int, complete: bool)
  {
    cursor > numQuestions || complete
  }

  /**
   * What the finishing callback leaves: the hidden answers chosen by their
   * first option, the question numbers handed to the (unmodelled) inference,
   * and whether the callback runs to its end, where the subtask is cancelled.
   */
  datatype HiddenOutcome = HiddenOutcome(chosen: map<int, string>, requests: seq<int>, completes: bool)

  /**
   * The hidden-question loop of processFinish, in list order, from the
   * answers and requests already held: a question without inference and
   * without options makes `answers.get(0)` throw, ending the callback.
   */
  function AnswerHidden(hidden: seq<HiddenQuestion>, chosen: map<int, string>, requests: seq<int>): HiddenOutcome
  {
    if hidden == [] then HiddenOutcome(chosen, requests, true)
    else if |hidden[0].inference| > 1 then AnswerHidden(hidden[1..], chosen, requests + [hidden[0].sn])
    else if hidden[0].answers == [] then HiddenOutcome(chosen, requests, false)
    else AnswerHidden(hidden[1..], chosen[hidden[0].sn := hidden[0].answers[0].code], requests)
  }

  /** The callback completes exactly when every hidden question has an inference or an option. */
  lemma {:induction false} AnswerHiddenCompletes(hidden: seq<HiddenQuestion>, chosen: map<int, string>, requests: seq<int>)
    ensures AnswerHidden(hidden, chosen, requests).completes <==>
      forall h :: h in hidden ==> |h.inference| > 1 || h.answers != []
    decreases |hidden|
  {
    if hidden != [] {
      assert forall h :: h in hidden <==> h == hidden[0] || h in hidden[1..];
      var h0 := hidden[0];
      if |h0.inference| > 1 {
        AnswerHiddenCompletes(hidden[1..], chosen, requests + [h0.sn]);
      } else if h0.answers != [] {
        AnswerHiddenCompletes(hidden[1..], chosen[h0.sn := h0.answers[0].code], requests);
      }
    }
  }

  /**
   * Requests held before stay a prefix, answers held before keep their
   * question, and keep their value when no hidden question has its number.
   */
  lemma {:induction false} AnswerHiddenKeeps(hidden: seq<HiddenQuestion>, chosen: map<int, string>, requests: seq<int>)
    ensures requests <= AnswerHidden(hidden, chosen, requests).requests
    ensures forall k :: k in chosen ==> k in AnswerHidden(hidden, chosen, requests).chosen
    ensures forall k :: k in chosen && (forall h :: h in hidden ==> h.sn != k) ==>
      AnswerHidden(hidden, chosen, requests).chosen[k] == chosen[k]
    decreases |hidden|
  {
    if hidden != [] {
      assert forall h :: h in hidden[1..] ==> h in hidden;
      var h0 := hidden[0];
      if |h0.inference| > 1 {
        AnswerHiddenKeeps(hidden[1..], chosen, requests + [h0.sn]);
      } else if h0.answers != [] {
        AnswerHiddenKeeps(hidden[1..], chosen[h0.sn := h0.answers[0].code], requests);
      }
    }
  }

  /**
   * When the callback completes, every hidden question with an inference is
   * handed to it and every other one is answered.
   */
  lemma {:induction false} AnswerHiddenCovers(hidden: seq<HiddenQuestion>, chosen: map<int, string>, requests: seq<int>)
    requires AnswerHidden(hidden, chosen, requests).completes
    ensures forall h :: h in hidden && |h.inference| > 1 ==> h.sn in AnswerHidden(hidden, chosen, requests).requests
    ensures forall h :: h in hidden && |h.inference| <= 1 ==> h.sn in AnswerHidden(hidden, chosen, requests).chosen
    decreases |hidden|
  {
    if hidden != [] {
      assert forall h :: h in hidden <==> h == hidden[0] || h in hidden[1..];
      var h0 := hidden[0];
      if |h0.inference| > 1 {
        var r := requests + [h0.sn];
        AnswerHiddenCovers(hidden[1..], chosen, r);
        AnswerHiddenKeeps(hidden[1..], chosen, r);
        assert AnswerHidden(hidden[1..], chosen, r).requests[|requests|] == h0.sn;
      } else {
        var c := chosen[h0.sn := h0.answers[0].code];
        AnswerHiddenCovers(hidden[1..], c, requests);
        AnswerHiddenKeeps(hidden[1..], c, requests);
      }
    }
  }

  /** With distinct question numbers, a hidden question without inference gets its first option. */
  lemma {:induction false} AnswerHiddenFirstOption(hidden: seq<HiddenQuestion>, chosen: map<int, string>, requests: seq<int>)
    requires forall i, j :: 0 <= i < j < |hidden| ==> hidden[i].sn != hidden[j].sn
    requires AnswerHidden(hidden, chosen, requests).completes
    ensures forall h :: h in hidden ==> |h.inference| > 1 || h.answers != []
    ensures forall h :: h in hidden && |h.inference| <= 1 ==> h.sn in AnswerHidden(hidden, chosen, requests).chosen
    ensures forall h :: h in hidden && |h.inference| <= 1 ==>
      AnswerHidden(hidden, chosen, requests).chosen[h.sn] == h.answers[0].code
    decreases |hidden|
  {
    AnswerHiddenCompletes(hidden, chosen, requests);
    AnswerHiddenCovers(hidden, chosen, requests);
    if hidden != [] {
      var h0, rest := hidden[0], hidden[1..];
      assert forall h :: h in hidden <==> h == h0 || h in rest;
      assert forall i, j :: 0 <= i < j < |rest| ==> rest[i].sn != rest[j].sn by {
        forall i, j | 0 <= i < j < |rest| ensures rest[i].sn != rest[j].sn {
          assert rest[i] == hidden[i + 1] && rest[j] == hidden[j + 1];
        }
      }
      if |h0.inference| > 1 {
        AnswerHiddenFirstOption(rest, chosen, requests + [h0.sn]);
      } else {
        var c := chosen[h0.sn := h0.answers[0].code];
        AnswerHiddenFirstOption(rest, c, requests);
        assert forall h :: h in rest ==> h.sn != h0.sn by {
          forall h | h in rest ensures h.sn != h0.sn {
            var j :| 0 <= j < |rest| && rest[j] == h;
            assert hidden[j + 1] == h;
          }
        }
        AnswerHiddenKeeps(rest, c, requests);
      }
    }
  }

  /**
   * The question scale being answered: the cursor is the 1-based number of
   * the current question, offQueries the off-topic queries since the last
   * answer, chosen and submitted the recorded answers by question number.
   */
  class ScaleTrack {
    const numQuestions: nat
    var started: bool
    var cursor: int
    var offQueries: seq<string>
    var chosen: map<int, string>
    var submitted: map<int, string>
    var cancelled: bool
    var endTimestamp: int
    /** The scale's hidden questions, answered only when it finishes. */
    const hiddenQuestions: seq<HiddenQuestion>
    /** The answers the hidden questions received by their first option. */
    var hiddenChosen: map<int, string>
    /** The question numbers handed to the inference, in order. */
    var inferRequests: seq<int>

    /** Answers are recorded only for questions the cursor has reached. */
    ghost predicate Valid()
      reads this
    {
      (!started ==> cursor == 0 && chosen == map[] && submitted == map[]) &&
      (started ==> cursor >= 1) &&
      (forall k :: k in chosen ==> 1 <= k < cursor) &&
      (forall k :: k in submitted ==> 1 <= k <= cursor) &&
      (forall k :: 1 <= k < cursor ==> k in chosen || k in submitted)
    }

    constructor (numQuestions: nat, hiddenQuestions: seq<HiddenQuestion>)
      ensures this.numQuestions == numQuestions && this.hiddenQuestions == hiddenQuestions
      ensures !started && cursor == 0 && offQueries == [] && chosen == map[] && submitted == map[]
      ensures !cancelled && endTimestamp == 0 && hiddenChosen == map[] && inferRequests == []
      ensures Valid()
    {
      this.numQuestions := numQuestions;
      this.hiddenQuestions := hiddenQuestions;
      hiddenChosen := map[];
      inferRequests := [];
      started := false;
      cursor := 0;
      offQueries := [];
      chosen := map[];
      submitted := map[];
      cancelled := false;
      endTimestamp := 0;
    }

    /**
     * Before the scale starts: Yes starts at question 1, No cancels, and any
     * other round counts an off-topic query, cancelling at the threshold.
     */
    method BeforeStart(round: Round, query: string) returns (reply: Reply)
      requires Valid() && !started && !cancelled
      modifies this
      ensures Valid()
      ensures chosen == old(chosen) && submitted == old(submitted) && endTimestamp == old(endTimestamp)
      ensures hiddenChosen == old(hiddenChosen) && inferRequests == old(inferRequests)
      ensures round == Yes ==>
        started && cursor == 1 && !cancelled && offQueries == old(offQueries) && reply == AskQuestion(1)
      ensures round == No ==>
        !started && cursor == old(cursor) && cancelled && offQueries == old(offQueries) && reply == BadStop
      ensures round != Yes && round != No ==>
        !started && cursor == old(cursor) && offQueries == old(offQueries) + [query] &&
        (cancelled <==> |offQueries| >= AbortThreshold) &&
        reply == (if |offQueries| >= AbortThreshold then ManyOffTopicsEnd(|offQueries|) else PleaseStart)
    {
      if round == Yes {
        started := true;
        cursor := 1;
        return AskQuestion(1);
      } else if round == No {
        cancelled := true;
        return BadStop;
      }
      offQueries := offQueries + [query];
      if |offQueries| >= AbortThreshold {
        cancelled := true;
        return ManyOffTopicsEnd(|offQueries|);
      }
      return PleaseStart;
    }

    /** Stopping on request records the end time and cancels. */
    method Stop(now: int) returns (reply: Reply)
      requires Valid() && started && !cancelled
      modifies this
      ensures Valid()
      ensures cancelled && endTimestamp == now && reply == GoodStop(|chosen|)
      ensures started && cursor == old(cursor) && offQueries == old(offQueries)
      ensures chosen == old(chosen) && submitted == old(submitted)
      ensures hiddenChosen == old(hiddenChosen) && inferRequests == old(inferRequests)
    {
      endTimestamp := now;
      cancelled := true;
      return GoodStop(|chosen|);
    }

    /**
     * The state processFinish leaves, from the hidden answers and inference
     * requests held before: the end time is now, the hidden questions are
     * answered, and the subtask is cancelled when the callback completes.
     */
    ghost predicate FinishedFrom(now: int, chosen0: map<int, string>, requests0: seq<int>)
      reads this
    {
      var o := AnswerHidden(hiddenQuestions, chosen0, requests0);
      endTimestamp == now && hiddenChosen == o.chosen && inferRequests == o.requests && cancelled == o.completes
    }

    /**
     * processFinish: the callback records the end time and answers the
     * hidden questions in order; the report it then asks for is not modelled.
     */
    method ProcessFinish(now: int) returns (reply: Reply)
      requires Valid() && started && !cancelled
      modifies this
      ensures Valid()
      ensures reply == Finish && FinishedFrom(now, old(hiddenChosen), old(inferRequests))
      ensures started && cursor == old(cursor) && offQueries == old(offQueries)
      ensures chosen == old(chosen) && submitted == old(submitted)
    {
      endTimestamp := now;
      var c, r := hiddenChosen, inferRequests;
      var ok := true;
      var i := 0;
      while i < |hiddenQuestions| && ok
        invariant 0 <= i <= |hiddenQuestions|
        invariant ok ==> AnswerHidden(hiddenQuestions[i..], c, r) == AnswerHidden(hiddenQuestions, old(hiddenChosen), old(inferRequests))
        invariant !ok ==> HiddenOutcome(c, r, false) == AnswerHidden(hiddenQuestions, old(hiddenChosen), old(inferRequests))
        decreases |hiddenQuestions| - i + (if ok then 1 else 0)
      {
        var h := hiddenQuestions[i];
        assert hiddenQuestions[i..][0] == h && hiddenQuestions[i..][1..] == hiddenQuestions[i + 1..];
        if |h.inference| > 1 {
          r := r + [h.sn];
        } else if h.answers == [] {
          ok := false;
        } else {
          c := c[h.sn := h.answers[0].code];
        }
        if ok {
          i := i + 1;
        }
      }
      hiddenChosen, inferRequests := c, r;
      cancelled := ok;
      return Finish;
    }

    /**
     * Continuing repeats the current question, or finishes the scale with
     * the test of line 221: a cursor on the last question already finishes,
     * and that question then has no chosen answer.
     */
    method Continue(complete: bool, now: int) returns (reply: Reply)
      requires Valid() && started && !cancelled
      modifies this
      ensures Valid()
      ensures ContinueFinishesAsWritten(cursor, numQuestions, complete) ==>
        reply == Finish && FinishedFrom(now, old(hiddenChosen), old(inferRequests))
      ensures !ContinueFinishesAsWritten(cursor, numQuestions, complete) ==>
        reply == AskQuestion(cursor) && !cancelled && endTimestamp == old(endTimestamp) &&
        hiddenChosen == old(hiddenChosen) && inferRequests == old(inferRequests)
      ensures reply == Finish && !complete && cursor == numQuestions ==> numQuestions !in chosen
      ensures started && cursor == old(cursor) && offQueries == old(offQueries)
      ensures chosen == old(chosen) && submitted == old(submitted)
    {
      if ContinueFinishesAsWritten(cursor, numQuestions, complete) {
        reply := ProcessFinish(now);
        return;
      }
      return AskQuestion(cursor);
    }

    /**
     * Continuing with the corrected test: an incomplete scale finishes only
     * once the cursor is past every question, so every question has an answer.
     */
    method ContinueCorrected(complete: bool, now: int) returns (reply: Reply)
      requires Valid() && started && !cancelled
      modifies this
      ensures Valid()
      ensures ContinueFinishes(cursor, numQuestions, complete) ==>
        reply == Finish && FinishedFrom(now, old(hiddenChosen), old(inferRequests))
      ensures !ContinueFinishes(cursor, numQuestions, complete) ==>
        reply == AskQuestion(cursor) && !cancelled && endTimestamp == old(endTimestamp) &&
        hiddenChosen == old(hiddenChosen) && inferRequests == old(inferRequests)
      ensures reply == Finish && !complete ==> forall k :: 1 <= k <= numQuestions ==> k in chosen || k in submitted
      ensures started && cursor == old(cursor) && offQueries == old(offQueries)
      ensures chosen == old(chosen) && submitted == old(submitted)
    {
      if ContinueFinishes(cursor, numQuestions, complete) {
        if !complete {
          ContinueFinishesAnswered(cursor, numQuestions, chosen, submitted);
        }
        reply := ProcessFinish(now);
        return;
      }
      return AskQuestion(cursor);
    }

    /** processOffQuery: abandon at the threshold, otherwise restate the question. */
    method ProcessOffQuery() returns (reply: Reply)
      requires Valid() && started && !cancelled
      modifies this
      ensures Valid()
      ensures cancelled <==> |old(offQueries)| >= AbortThreshold
      ensures reply == if cancelled then BadStop else OffTopic(cursor)
      ensures started && cursor == old(cursor) && offQueries == old(offQueries)
      ensures chosen == old(chosen) && submitted == old(submitted) && endTimestamp == old(endTimestamp)
      ensures hiddenChosen == old(hiddenChosen) && inferRequests == old(inferRequests)
    {
      if |offQueries| >= AbortThreshold {
        cancelled := true;
        return BadStop;
      }
      return OffTopic(cursor);
    }

    /**
     * processOnQuery: the query is the answer to the current descriptive
     * question; the off-topic count is cleared and the cursor moves on
     * unless the scale is complete.
     */
    method ProcessOnQuery(query: string, complete: bool, now: int) returns (reply: Reply)
      requires Valid() && started && !cancelled
      modifies this
      ensures Valid()
      ensures offQueries == [] && submitted == old(submitted)[old(cursor) := query] && chosen == old(chosen)
      ensures !complete ==>
        cursor == old(cursor) + 1 && !cancelled && reply == NextQuestion(cursor) &&
        endTimestamp == old(endTimestamp) && hiddenChosen == old(hiddenChosen) &&
        inferRequests == old(inferRequests) + [old(cursor)]
      ensures complete ==>
        cursor == old(cursor) && reply == Finish &&
        FinishedFrom(now, old(hiddenChosen), old(inferRequests) + [old(cursor)])
      ensures started
    {
      offQueries := [];
      submitted := submitted[cursor := query];
      inferRequests := inferRequests + [cursor];
      if !complete {
        cursor := cursor + 1;
        return NextQuestion(cursor);
      }
      reply := ProcessFinish(now);
    }

    /**
     * processOffQueryForChoice with analysis: abandon at the threshold;
     * otherwise a verdict of the analysis that does not call the query
     * unrelated takes the query back off the off-topic list.
     */
    method ProcessOffQueryForChoice(analysis: Option<string>) returns (reply: Reply)
      requires Valid() && started && !cancelled && offQueries != []
      modifies this
      ensures Valid()
      ensures cancelled <==> |old(offQueries)| >= AbortThreshold
      ensures cancelled ==> reply == BadStop && offQueries == old(offQueries)
      ensures !cancelled && analysis.None? ==> reply == OffTopic(cursor) && offQueries == old(offQueries)
      ensures !cancelled && analysis.Some? ==> (reply == AnalysedOffTopic(cursor) &&
        offQueries == if Contains(analysis.value, "不相关") || Contains(analysis.value, "无关")
          then old(offQueries) else old(offQueries)[..|old(offQueries)| - 1])
      ensures started && cursor == old(cursor)
      ensures chosen == old(chosen) && submitted == old(submitted) && endTimestamp == old(endTimestamp)
      ensures hiddenChosen == old(hiddenChosen) && inferRequests == old(inferRequests)
    {
      if |offQueries| >= AbortThreshold {
        cancelled := true;
        return BadStop;
      }
      if analysis.None? {
        return OffTopic(cursor);
      }
      if !(Contains(analysis.value, "不相关") || Contains(analysis.value, "无关")) {
        offQueries := offQueries[..|offQueries| - 1];
      }
      return AnalysedOffTopic(cursor);
    }

    /**
     * A query to a choice question: a recognised option clears the
     * off-topic queries, records the code at the cursor and moves the
     * cursor on, finishing exactly when it passes the last question.
     */
    method AnswerChoice(query: string, code: Option<string>, analysis: Option<string>, now: int) returns (reply: Reply)
      requires Valid() && started && !cancelled
      modifies this
      ensures Valid()
      ensures started && submitted == old(submitted)
      ensures cursor >= old(cursor)
      ensures code.Some? ==>
        offQueries == [] && chosen == old(chosen)[old(cursor) := code.value] && cursor == old(cursor) + 1 &&
        (cursor > numQuestions ==> reply == Finish && FinishedFrom(now, old(hiddenChosen), old(inferRequests))) &&
        (cursor <= numQuestions ==>
           reply == NextQuestion(cursor) && !cancelled && endTimestamp == old(endTimestamp) &&
           hiddenChosen == old(hiddenChosen) && inferRequests == old(inferRequests))
      ensures code.None? ==>
        endTimestamp == old(endTimestamp) && hiddenChosen == old(hiddenChosen) && inferRequests == old(inferRequests) &&
        chosen == old(chosen) && cursor == old(cursor) &&
        (cancelled <==> |old(offQueries)| + 1 >= AbortThreshold) &&
        (cancelled ==> reply == BadStop && offQueries == old(offQueries) + [query]) &&
        (!cancelled && analysis.None? ==> reply == OffTopic(cursor) && offQueries == old(offQueries) + [query]) &&
        (!cancelled && analysis.Some? ==> (reply == AnalysedOffTopic(cursor) &&
          offQueries == if Contains(analysis.value, "不相关") || Contains(analysis.value, "无关")
            then old(offQueries) + [query] else old(offQueries)))
    {
      offQueries := offQueries + [query];
      if code.None? {
        reply := ProcessOffQueryForChoice(analysis);
        return;
      }
      offQueries := [];
      chosen := chosen[cursor := code.value];
      cursor := cursor + 1;
      if cursor > numQuestions {
        reply := ProcessFinish(now);
        return;
      }
      return NextQuestion(cursor);
    }

    /**
     * A query to a descriptive question. The verdict is the model's reply
     * to whether the query answers the question, None when no unit replied;
     * a reply holding noWord on a round other than No makes it off-topic.
     */
    method AnswerDescriptive(round: Round, query: string, verdict: Option<string>, noWord: string, complete: bool,
                             now: int)
      returns (reply: Reply)
      requires Valid() && started && !cancelled
      modifies this
      ensures Valid()
      ensures started && chosen == old(chosen)
      ensures cursor >= old(cursor)
      ensures verdict.None? ==>
        reply == Failed && !cancelled && offQueries == old(offQueries) + [query] &&
        cursor == old(cursor) && submitted == old(submitted) &&
        endTimestamp == old(endTimestamp) && hiddenChosen == old(hiddenChosen) && inferRequests == old(inferRequests)
      ensures verdict.Some? && Contains(verdict.value, noWord) && round != No ==>
        offQueries == old(offQueries) + [query] && cursor == old(cursor) && submitted == old(submitted) &&
        endTimestamp == old(endTimestamp) && hiddenChosen == old(hiddenChosen) && inferRequests == old(inferRequests) &&
        (cancelled <==> |old(offQueries)| + 1 >= AbortThreshold) &&
        reply == (if cancelled then BadStop else OffTopic(cursor))
      ensures verdict.Some? && !(Contains(verdict.value, noWord) && round != No) ==>
        offQueries == [] && submitted == old(submitted)[old(cursor) := query] &&
        (!complete ==>
           cursor == old(cursor) + 1 && !cancelled && reply == NextQuestion(cursor) &&
           endTimestamp == old(endTimestamp) && hiddenChosen == old(hiddenChosen) &&
           inferRequests == old(inferRequests) + [old(cursor)]) &&
        (complete ==>
           cursor == old(cursor) && reply == Finish &&
           FinishedFrom(now, old(hiddenChosen), old(inferRequests) + [old(cursor)]))
    {
      offQueries := offQueries + [query];
      if verdict.None? {
        return Failed;
      }
      if Contains(verdict.value, noWord) && round != No {
        reply := ProcessOffQuery();
        return;
      }
      reply := ProcessOnQuery(query, complete, now);
    }

    /** One round of the subtask, after the scale has been looked up. */
    method Execute(round: Round, query: string, question: Question, complete: bool,
                   verdict: Option<string>, analysis: Option<string>, noWord: string, now: int)
      returns (reply: Reply)
      requires Valid() && !cancelled
      modifies this
      ensures Valid()
      ensures cursor >= old(cursor)
      ensures forall k :: k in old(chosen) && k != old(cursor) ==> k in chosen && chosen[k] == old(chosen)[k]
      // Before the start: BeforeStart's outcome.
      ensures !old(started) ==>
        chosen == old(chosen) && submitted == old(submitted) && endTimestamp == old(endTimestamp) &&
        hiddenChosen == old(hiddenChosen) && inferRequests == old(inferRequests)
      ensures !old(started) && round == Yes ==>
        started && cursor == 1 && !cancelled && offQueries == old(offQueries) && reply == AskQuestion(1)
      ensures !old(started) && round == No ==>
        !started && cursor == old(cursor) && cancelled && offQueries == old(offQueries) && reply == BadStop
      ensures !old(started) && round != Yes && round != No ==>
        !started && cursor == old(cursor) && offQueries == old(offQueries) + [query] &&
        (cancelled <==> |offQueries| >= AbortThreshold) &&
        reply == (if |offQueries| >= AbortThreshold then ManyOffTopicsEnd(|offQueries|) else PleaseStart)
      // A stop request.
      ensures old(started) && round == StopQuestionnaire ==>
        started && cancelled && endTimestamp == now && reply == GoodStop(|old(chosen)|) &&
        cursor == old(cursor) && offQueries == old(offQueries) && chosen == old(chosen) && submitted == old(submitted) &&
        hiddenChosen == old(hiddenChosen) && inferRequests == old(inferRequests)
      // A continue, with the test of line 221; a finish runs processFinish.
      ensures old(started) && round == Yes ==>
        started && cursor == old(cursor) && offQueries == old(offQueries) &&
        chosen == old(chosen) && submitted == old(submitted) &&
        (if ContinueFinishesAsWritten(old(cursor), numQuestions, complete)
         then reply == Finish && FinishedFrom(now, old(hiddenChosen), old(inferRequests))
         else (reply == AskQuestion(old(cursor)) && !cancelled && endTimestamp == old(endTimestamp) &&
               hiddenChosen == old(hiddenChosen) && inferRequests == old(inferRequests)))
      // An answer to a descriptive question.
      ensures old(started) && round != StopQuestionnaire && round != Yes && question.descriptive ==>
        started && chosen == old(chosen) &&
        (verdict.None? ==>
          reply == Failed && !cancelled && offQueries == old(offQueries) + [query] &&
          cursor == old(cursor) && submitted == old(submitted) &&
          endTimestamp == old(endTimestamp) && hiddenChosen == old(hiddenChosen) && inferRequests == old(inferRequests)) &&
        (verdict.Some? && Contains(verdict.value, noWord) && round != No ==>
          offQueries == old(offQueries) + [query] && cursor == old(cursor) && submitted == old(submitted) &&
          endTimestamp == old(endTimestamp) && hiddenChosen == old(hiddenChosen) && inferRequests == old(inferRequests) &&
          (cancelled <==> |old(offQueries)| + 1 >= AbortThreshold) &&
          reply == (if cancelled then BadStop else OffTopic(cursor))) &&
        (verdict.Some? && !(Contains(verdict.value, noWord) && round != No) ==>
          offQueries == [] && submitted == old(submitted)[old(cursor) := query] &&
          (!complete ==>
             cursor == old(cursor) + 1 && !cancelled && reply == NextQuestion(cursor) &&
             endTimestamp == old(endTimestamp) && hiddenChosen == old(hiddenChosen) &&
             inferRequests == old(inferRequests) + [old(cursor)]) &&
          (complete ==>
             cursor == old(cursor) && reply == Finish &&
             FinishedFrom(now, old(hiddenChosen), old(inferRequests) + [old(cursor)])))
      // An answer to a choice question, read by the option matcher.
      ensures old(started) && round != StopQuestionnaire && round != Yes && !question.descriptive ==>
        var code := SingleChoiceAnswer(query, question.answers);
        started && submitted == old(submitted) &&
        (code.Some? ==>
          offQueries == [] && chosen == old(chosen)[old(cursor) := code.value] && cursor == old(cursor) + 1 &&
          (cursor > numQuestions ==> reply == Finish && FinishedFrom(now, old(hiddenChosen), old(inferRequests))) &&
          (cursor <= numQuestions ==>
             reply == NextQuestion(cursor) && !cancelled && endTimestamp == old(endTimestamp) &&
             hiddenChosen == old(hiddenChosen) && inferRequests == old(inferRequests))) &&
        (code.None? ==>
          endTimestamp == old(endTimestamp) && hiddenChosen == old(hiddenChosen) && inferRequests == old(inferRequests) &&
          chosen == old(chosen) && cursor == old(cursor) &&
          (cancelled <==> |old(offQueries)| + 1 >= AbortThreshold) &&
          (cancelled ==> reply == BadStop && offQueries == old(offQueries) + [query]) &&
          (!cancelled && analysis.None? ==> reply == OffTopic(cursor) && offQueries == old(offQueries) + [query]) &&
          (!cancelled && analysis.Some? ==> (reply == AnalysedOffTopic(cursor) &&
            offQueries == if Contains(analysis.value, "不相关") || Contains(analysis.value, "无关")
              then old(offQueries) + [query] else old(offQueries))))
    {
      if !started {
        reply := BeforeStart(round, query);
      } else if round == StopQuestionnaire {
        reply := Stop(now);
      } else if round == Yes {
        reply := Continue(complete, now);
      } else if question.descriptive {
        reply := AnswerDescriptive(round, query, verdict, noWord, complete, now);
      } else {
        var code := MatchSingleChoiceAnswer(query, question.answers);
        reply := AnswerChoice(query, code, analysis, now);
      }
    }
  }

  /**
   * With the cursor on the last question and the scale not complete, the
   * test at line 221 finishes the scale although that question has no answer.
   */
  lemma ContinueSkipsLastQuestion(cursor: int, numQuestions: int, chosen: map<int, string>)
    requires numQuestions >= 1 && cursor == numQuestions
    requires forall k :: k in chosen ==> 1 <= k < cursor
    ensures ContinueFinishesAsWritten(cursor, numQuestions, false)
    ensures numQuestions !in chosen
  {
  }

  /**
   * With the corrected test, an incomplete scale that finishes has an
   * answer for every question, when every question before the cursor has one.
   */
  lemma ContinueFinishesAnswered(cursor: int, numQuestions: int, chosen: map<int, string>, submitted: map<int, string>)
    requires forall k :: 1 <= k < cursor ==> k in chosen || k in submitted
    requires ContinueFinishes(cursor, numQuestions, false)
    ensures forall k :: 1 <= k <= numQuestions ==> k in chosen || k in submitted
  {
  }

  // ---- The final reply --------------------------------------------------------

  /** The reply after the report, as line 498 writes it: it replaces the answer built at 495. */
  function FinishReplyAsWritten(prefix: string, result: string, instruction: string): string
  {
    "\n\n" + instruction
  }

  /** The reply with the reading instruction appended to the report text. */
  function FinishReply(prefix: string, result: string, instruction: string): string
  {
    prefix + "\n\n" + result + "\n\n" + instruction
  }

  /** As written, the report text never reaches the reply. */
  lemma FinishReplyLosesReport()
    ensures !Contains(FinishReplyAsWritten("", "X", ""), "X")
  {
    var t := FinishReplyAsWritten("", "X", "");
    assert t == "\n\n";
    forall i | 0 <= i <= |t|
      ensures !OccursAt(t, "X", i)
    {
      if i + 1 <= |t| {
        assert t[i..i + 1][0] == t[i] != 'X';
      }
    }
  }

  /** Corrected, the reply opens with the prefix and holds the report and the instruction in order. */
  lemma FinishReplyKeepsReport(prefix: string, result: string, instruction: string)
    ensures StartsWith(FinishReply(prefix, result, instruction), prefix)
    ensures OccursAt(FinishReply(prefix, result, instruction), result, |prefix| + 2)
    ensures OccursAt(FinishReply(prefix, result, instruction), instruction, |prefix| + |result| + 4)
  {
    var r := FinishReply(prefix, result, instruction);
    assert r[..|prefix|] == prefix;
    assert r[|prefix| + 2..|prefix| + 2 + |result|] == result;
    assert r[|prefix| + |result| + 4..|prefix| + |result| + 4 + |instruction|] == instruction;
  }
}
