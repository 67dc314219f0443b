/**
 * The conversation worker's decisions about a counselling conversation:
 * reading the subject's age and gender from a segmented query, checking
 * them in a fixed order before a report is generated, matching stored
 * reports by a date in the query, and picking a report by its position.
 * Which words are age or gender keywords is a parameter.
 */
module ConversationWorkerModel {
  import opened PsychologyTypes
  import opened Strings
  import opened TextUtilsModel

  /** The subject's attributes as read from a query; strict is always false here. */
  datatype Attribute = Attribute(gender: string, age: int, strict: bool)

  // ---- Scans over the word list ----------------------------------------------

  /** The last index whose word satisfies p, -1 for none. */
  function LastWhere(words: seq<string>, p: string -> bool): (r: int)
    ensures -1 <= r < |words|
    ensures r >= 0 ==> p(words[r]) && forall j :: r < j < |words| ==> !p(words[j])
    ensures r == -1 ==> forall j :: 0 <= j < |words| ==> !p(words[j])
  {
    if words == [] then -1
    else if p(words[|words| - 1]) then |words| - 1
    else LastWhere(words[..|words| - 1], p)
  }

  /** The first index from i on whose word satisfies p, -1 for none. */
  function FirstFrom(words: seq<string>, i: nat, p: string -> bool): (r: int)
    requires i <= |words|
    ensures r == -1 || i <= r < |words|
    ensures r >= 0 ==> p(words[r]) && forall j :: i <= j < r ==> !p(words[j])
    ensures r == -1 ==> forall j :: i <= j < |words| ==> !p(words[j])
    decreases |words| - i
  {
    if i == |words| then -1
    else if p(words[i]) then i
    else FirstFrom(words, i + 1, p)
  }

  /** The age a word gives once trimmed: a numeric word that parses as an int. */
  function WordAge(word: string): Option<int>
  {
    NumericInt(Trim(word))
  }

  /** The gender a word names: 男, 男性 or "male" in any case; 女, 女性 or "female"; else none. */
  function GenderOf(word: string): (g: string)
    ensures g == "" || g == "male" || g == "female"
  {
    if word == "男" || word == "男性" || EqualsIgnoreCase(word, "male") then "male"
    else if word == "女" || word == "女性" || EqualsIgnoreCase(word, "female") then "female"
    else ""
  }

  predicate HasAge(word: string) { WordAge(word).Some? }

  predicate InRange(word: string, minAge: int, maxAge: int)
  {
    WordAge(word).Some? && minAge <= WordAge(word).value <= maxAge
  }

  /** A word within the age range. */
  function AgeInRange(minAge: int, maxAge: int): string -> bool
  {
    w => InRange(w, minAge, maxAge)
  }

  /** A gender keyword that is not also an age keyword. */
  function GenderKeyword(isAge: string -> bool, isGender: string -> bool): string -> bool
  {
    w => !isAge(w) && isGender(w)
  }

  predicate NamesGender(word: string) { GenderOf(Trim(word)) != "" }

  predicate NamesGenderUntrimmed(word: string) { GenderOf(word) != "" }

  /**
   * The age read from the words. With an age keyword (the last one), the
   * first numeric word from two words before it, unchecked; without one,
   * the last numeric word within the age range; otherwise 0.
   */
  function AgeOf(words: seq<string>, isAge: string -> bool, minAge: int, maxAge: int): int
  {
    var ageIndex := LastWhere(words, isAge);
    if ageIndex >= 0 then
      var k := FirstFrom(words, Max(0, ageIndex - 2), HasAge);
      if k >= 0 then WordAge(words[k]).value else 0
    else
      var k := LastWhere(words, AgeInRange(minAge, maxAge));
      if k >= 0 then WordAge(words[k]).value else 0
  }

  /**
   * The gender read from the words. With a gender keyword (the last word
   * that is not an age keyword), the first trimmed gender word from two
   * words before it; without one, the first untrimmed gender word.
   */
  function GenderFrom(words: seq<string>, isAge: string -> bool, isGender: string -> bool): (g: string)
    ensures g == "" || g == "male" || g == "female"
  {
    var genderIndex := LastWhere(words, GenderKeyword(isAge, isGender));
    if genderIndex >= 0 then
      var k := FirstFrom(words, Max(0, genderIndex - 2), NamesGender);
      if k >= 0 then GenderOf(Trim(words[k])) else ""
    else
      var k := FirstFrom(words, 0, NamesGenderUntrimmed);
      if k >= 0 then GenderOf(words[k]) else ""
  }

  /** The attribute read from the words: never strict, and its gender one of three values. */
  function AttributeOf(words: seq<string>, isAge: string -> bool, isGender: string -> bool,
                       minAge: int, maxAge: int): (a: Attribute)
    ensures a.gender == "" || a.gender == "male" || a.gender == "female"
    ensures !a.strict
  {
    Attribute(GenderFrom(words, isAge, isGender), AgeOf(words, isAge, minAge, maxAge), false)
  }

  /** Without an age keyword the age is 0 or within the range. */
  lemma AgeWithoutKeywordInRange(words: seq<string>, isAge: string -> bool, isGender: string -> bool,
                                 minAge: int, maxAge: int)
    requires forall j :: 0 <= j < |words| ==> !isAge(words[j])
    ensures var a := AttributeOf(words, isAge, isGender, minAge, maxAge);
      a.age == 0 || minAge <= a.age <= maxAge
  {
    var k := LastWhere(words, AgeInRange(minAge, maxAge));
    if k >= 0 {
      assert InRange(words[k], minAge, maxAge);
    }
  }

  /** With an age keyword a numeric word right after it is taken as it is, even out of range. */
  lemma KeywordAgeUnchecked(isGender: string -> bool, minAge: int, maxAge: int)
    ensures AttributeOf(["年龄", "200"], w => w == "年龄", isGender, minAge, maxAge).age == 200
  {
    var words := ["年龄", "200"];
    assert Trim("年龄") == "年龄";
    assert Trim("200") == "200";
    assert IndexOf("年龄", '.') == -1;
    assert !IsNumeric("年龄");
    assert IndexOf("200", '.') == -1;
    assert "200"[..2] == "20" && "20"[..1] == "2" && "2"[..0] == "";
    assert ParseInt("200") == Some(200);
    assert FirstFrom(words, 0, HasAge) == 1;
  }

  /** The last age keyword and the last gender keyword that is not also an age keyword. */
  method KeywordIndices(words: seq<string>, isAge: string -> bool, isGender: string -> bool)
    returns (ageIndex: int, genderIndex: int)
    ensures ageIndex == LastWhere(words, isAge)
    ensures genderIndex == LastWhere(words, GenderKeyword(isAge, isGender))
  {
    ageIndex, genderIndex := -1, -1;
    for i := 0 to |words|
      invariant ageIndex == LastWhere(words[..i], isAge)
      invariant genderIndex == LastWhere(words[..i], GenderKeyword(isAge, isGender))
    {
      var word := words[i];
      assert words[..i + 1][..i] == words[..i];
      if isAge(word) {
        ageIndex := i;
      } else if isGender(word) {
        genderIndex := i;
      }
    }
    assert words[..|words|] == words;
  }

  /** The first index from start on whose word satisfies p, scanning forward. */
  method ScanFrom(words: seq<string>, start: nat, p: string -> bool) returns (k: int)
    requires start <= |words|
    ensures k == FirstFrom(words, start, p)
  {
    var i := start;
    while i < |words|
      invariant start <= i <= |words|
      invariant FirstFrom(words, start, p) == FirstFrom(words, i, p)
    {
      if p(words[i]) {
        return i;
      }
      i := i + 1;
    }
    return -1;
  }

  /** The last index whose word satisfies p, scanning backward. */
  method ScanBackFor(words: seq<string>, p: string -> bool) returns (k: int)
    ensures k == LastWhere(words, p)
  {
    var i := |words| - 1;
    while i >= 0
      invariant -1 <= i < |words|
      invariant LastWhere(words, p) == LastWhere(words[..i + 1], p)
    {
      assert words[..i + 1][..i] == words[..i];
      if p(words[i]) {
        return i;
      }
      i := i - 1;
    }
    return -1;
  }

  method ExtractAttribute(words: seq<string>, isAge: string -> bool, isGender: string -> bool,
                          minAge: int, maxAge: int) returns (attribute: Attribute)
    ensures attribute == AttributeOf(words, isAge, isGender, minAge, maxAge)
  {
    var ageIndex, genderIndex := KeywordIndices(words, isAge, isGender);
    var age := ExtractAge(words, ageIndex, minAge, maxAge);
    var gender := ExtractGender(words, genderIndex);
    attribute := Attribute(gender, age, false);
  }

  method ExtractAge(words: seq<string>, ageIndex: int, minAge: int, maxAge: int) returns (age: int)
    requires -1 <= ageIndex < |words|
    ensures ageIndex >= 0 ==>
      var k := FirstFrom(words, Max(0, ageIndex - 2), HasAge);
      age == if k >= 0 then WordAge(words[k]).value else 0
    ensures ageIndex < 0 ==>
      var k := LastWhere(words, AgeInRange(minAge, maxAge));
      age == if k >= 0 then WordAge(words[k]).value else 0
  {
    age := 0;
    if ageIndex >= 0 {
      var k := ScanFrom(words, Max(0, ageIndex - 2), HasAge);
      if k >= 0 {
        age := WordAge(words[k]).value;
      }
    } else {
      var k := ScanBackFor(words, AgeInRange(minAge, maxAge));
      if k >= 0 {
        assert InRange(words[k], minAge, maxAge);
        age := WordAge(words[k]).value;
      }
    }
  }

  method ExtractGender(words: seq<string>, genderIndex: int) returns (gender: string)
    requires -1 <= genderIndex < |words|
    ensures genderIndex >= 0 ==>
      var k := FirstFrom(words, Max(0, genderIndex - 2), NamesGender);
      gender == if k >= 0 then GenderOf(Trim(words[k])) else ""
    ensures genderIndex < 0 ==>
      var k := FirstFrom(words, 0, NamesGenderUntrimmed);
      gender == if k >= 0 then GenderOf(words[k]) else ""
  {
    gender := "";
    if genderIndex >= 0 {
      var k := ScanFrom(words, Max(0, genderIndex - 2), NamesGender);
      if k >= 0 {
        gender := GenderOf(Trim(words[k]));
      }
    } else {
      var k := ScanFrom(words, 0, NamesGenderUntrimmed);
      if k >= 0 {
        gender := GenderOf(words[k]);
      }
    }
  }

  // ---- The attribute check ---------------------------------------------------

  /** The reply to a query: what is missing or wrong, or acceptance. */
  datatype Check = NeedGenderAndAge | NeedAge | AgeOutOfLimit | NeedGender | Accepted

  /** The checks in the order they are made. */
  function CheckAttribute(a: Attribute, minAge: int, maxAge: int): (c: Check)
    ensures c == Accepted <==> a.age != 0 && minAge <= a.age <= maxAge && a.gender != ""
    ensures c == NeedGenderAndAge <==> a.age == 0 && a.gender == ""
    ensures c == NeedAge <==> a.age == 0 && a.gender != ""
    ensures c == AgeOutOfLimit <==> a.age != 0 && !(minAge <= a.age <= maxAge)
    ensures c == NeedGender <==> a.age != 0 && minAge <= a.age <= maxAge && a.gender == ""
  {
    if a.age == 0 && a.gender == "" then NeedGenderAndAge
    else if a.age == 0 then NeedAge
    else if a.age < minAge || a.age > maxAge then AgeOutOfLimit
    else if a.gender == "" then NeedGender
    else Accepted
  }

  /** The part of a conversation's state the check touches. */
  class ConversationContext {
    var currentAttribute: Option<Attribute>
    var inSubtask: bool
    var records: seq<Check>

    constructor ()
      ensures currentAttribute.None? && !inSubtask && records == []
    {
      currentAttribute := None;
      inSubtask := false;
      records := [];
    }

    /**
     * Reads the attribute from the query when none is stored. A rejected
     * attribute enters the attribute subtask and records the reply; only an
     * accepted one is stored.
     */
    method RequireAttribute(a: Attribute, minAge: int, maxAge: int) returns (proceed: bool)
      requires currentAttribute.None?
      modifies this
      ensures proceed <==> CheckAttribute(a, minAge, maxAge) == Accepted
      ensures proceed ==> currentAttribute == Some(a) && inSubtask == old(inSubtask) && records == old(records)
      ensures !proceed ==>
        (currentAttribute.None? && inSubtask && records == old(records) + [CheckAttribute(a, minAge, maxAge)])
    {
      var check := CheckAttribute(a, minAge, maxAge);
      if check == Accepted {
        currentAttribute := Some(a);
        return true;
      }
      inSubtask := true;
      records := records + [check];
      return false;
    }
  }

  // ---- Reports by date ------------------------------------------------------------

  /** A stored report with the calendar date of its timestamp. */
  datatype Report = Report(sn: int, year: int, month: int, day: int)

  /**
   * Whether a report matches the date read from the query. The fields that
   * were found decide, in the order (year, month, day), (year, month),
   * (month, day), day, month, year; nothing found matches nothing.
   */
  predicate DateMatches(r: Report, year: int, month: int, day: int)
  {
    if year != 0 && month != 0 && day != 0 then year == r.year && month == r.month && day == r.day
    else if year != 0 && month != 0 then year == r.year && month == r.month
    else if month != 0 && day != 0 then month == r.month && day == r.day
    else if day != 0 then day == r.day
    else if month != 0 then month == r.month
    else if year != 0 then year == r.year
    else false
  }

  /** The matching reports in their stored order. */
  function Matched(reports: seq<Report>, year: int, month: int, day: int): (r: seq<Report>)
    ensures |r| <= |reports|
    ensures forall x :: x in r <==> x in reports && DateMatches(x, year, month, day)
  {
    if reports == [] then []
    else
      var rest := Matched(reports[..|reports| - 1], year, month, day);
      var last := reports[|reports| - 1];
      assert reports == reports[..|reports| - 1] + [last];
      if DateMatches(last, year, month, day) then rest + [last] else rest
  }

  method MatchReports(reports: seq<Report>, year: int, month: int, day: int) returns (result: seq<Report>)
    ensures result == Matched(reports, year, month, day)
  {
    result := [];
    for i := 0 to |reports|
      invariant result == Matched(reports[..i], year, month, day)
    {
      var report := reports[i];
      assert reports[..i + 1][..i] == reports[..i];
      if year != 0 && month != 0 && day != 0 {
        if year == report.year && month == report.month && day == report.day {
          result := result + [report];
        }
      } else if year != 0 && month != 0 {
        if year == report.year && month == report.month {
          result := result + [report];
        }
      } else if month != 0 && day != 0 {
        if month == report.month && day == report.day {
          result := result + [report];
        }
      } else if day != 0 {
        if day == report.day {
          result := result + [report];
        }
      } else if month != 0 {
        if month == report.month {
          result := result + [report];
        }
      } else if year != 0 {
        if year == report.year {
          result := result + [report];
        }
      }
    }
    assert reports[..|reports|] == reports;
  }

  /** Matching keeps the stored order: the matches are the reports with the others removed. */
  lemma {:induction false} MatchedIsOrderedFilter(reports: seq<Report>, year: int, month: int, day: int)
    ensures Matched(reports, year, month, day) == FilterMatching(reports, year, month, day)
  {
    if reports != [] {
      var init := reports[..|reports| - 1];
      MatchedIsOrderedFilter(init, year, month, day);
      FilterSnoc(init, reports[|reports| - 1], year, month, day);
      assert reports == init + [reports[|reports| - 1]];
    }
  }

  /** The same filter written front to back. */
  function FilterMatching(reports: seq<Report>, year: int, month: int, day: int): seq<Report>
  {
    if reports == [] then []
    else
      var head := if DateMatches(reports[0], year, month, day) then [reports[0]] else [];
      head + FilterMatching(reports[1..], year, month, day)
  }

  lemma {:induction false} FilterSnoc(xs: seq<Report>, x: Report, year: int, month: int, day: int)
    ensures FilterMatching(xs + [x], year, month, day) ==
      FilterMatching(xs, year, month, day) + (if DateMatches(x, year, month, day) then [x] else [])
  {
    if xs != [] {
      assert (xs + [x])[1..] == xs[1..] + [x];
      FilterSnoc(xs[1..], x, year, month, day);
    } else {
      assert [x][1..] == [];
    }
  }

  /** A query without any date matches no report. */
  lemma NoDateMatchesNothing(reports: seq<Report>)
    ensures Matched(reports, 0, 0, 0) == []
  {
    var r := Matched(reports, 0, 0, 0);
    assert forall i :: 0 <= i < |r| ==> r[i] in r;
  }

  /** A year and a day without a month match on the day alone: the year is ignored. */
  lemma YearAndDayMatchOnDay(reports: seq<Report>, year: int, day: int)
    requires year != 0 && day != 0
    ensures forall x :: x in Matched(reports, year, 0, day) <==> x in reports && x.day == day
  {
  }

  // ---- Reports by position ----------------------------------------------------------

  /** What a position picks from the report list; Fault is the exception of a negative index. */
  datatype Selection = Prompt | Show(index: nat) | Overflow | Fault

  /** As written: 0 prompts for a description, up to the list size shows that report, beyond reports overflow. */
  function SelectReport(location: int, size: nat): (s: Selection)
    ensures s == Prompt <==> location == 0
    ensures s.Show? ==> s.index < size && s.index == location - 1
    ensures s == Overflow <==> location > size
    ensures s == Fault <==> location < 0
  {
    if location == 0 then Prompt
    else if location <= size then (if location - 1 >= 0 then Show(location - 1) else Fault)
    else Overflow
  }

  /** The query segmented as 第 and -2 selects index -3 of the list: the lookup fails. */
  lemma NegativeLocationFaults(size: nat)
    ensures SelectReport(LocationOf(["第", "-2"]), size) == Fault
  {
    NegativeOrdinalWord();
  }

  /** As intended: a position that is not positive prompts again, like a missing one. */
  function CorrectedSelectReport(location: int, size: nat): (s: Selection)
    ensures s == Prompt <==> location <= 0
    ensures s.Show? <==> 1 <= location <= size
    ensures s.Show? ==> s.index == location - 1 && s.index < size
    ensures s == Overflow <==> location > size
    ensures s != Fault
  {
    if location <= 0 then Prompt
    else if location <= size then Show(location - 1)
    else Overflow
  }
}
