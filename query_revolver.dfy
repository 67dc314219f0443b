/**
 * Query rewriting for the psychology assistant: the subject's display
 * name, the filters that turn second-person personality text into text
 * about the subject, the lazy-query test, a word-overlap similarity and
 * the symptom words a query mentions. Tokenisation happens before and
 * arrives as word lists.
 */
module QueryRevolverModel {
  import opened PsychologyTypes
  import opened Strings

  /** What the rewriting needs of the subject's attributes. */
  datatype Subject = Subject(age: int, male: bool)

  predicate Anonymous(name: string)
  {
    name == "匿名" || EqualsIgnoreCase(name, "Anonymity")
  }

  function Honorific(male: bool, english: bool): string
  {
    if english then (if male then "Mr. " else "Ms. ") else (if male then "先生" else "女士")
  }

  /**
   * The name a report addresses: an empty name becomes the anonymous name,
   * and named subjects over 24 get an honorific, before the name in
   * English and after it in Chinese.
   */
  function FixName(name: string, subject: Subject, english: bool): (r: string)
    ensures r != []
    ensures name == [] ==> Anonymous(r)
    ensures name != [] && english ==> |name| <= |r| && r[|r| - |name|..] == name
    ensures name != [] && !english ==> |name| <= |r| && r[..|name|] == name
  {
    if |name| == 0 then (if english then "Anonymity" else "匿名")
    else if subject.age <= 24 || name == "匿名" || EqualsIgnoreCase(name, "Anonymity") then name
    else if english then Honorific(subject.male, true) + name
    else name + Honorific(subject.male, false)
  }

  /** An honorific is added exactly to a real name of a subject older than 24. */
  lemma HonorificIffAdult(name: string, subject: Subject, english: bool)
    requires name != []
    ensures FixName(name, subject, english) != name <==> subject.age > 24 && !Anonymous(name)
  {
    if subject.age > 24 && !Anonymous(name) {
      assert |FixName(name, subject, english)| > |name|;
    }
  }

  /** Turns second-person text into text about "subjects" / 受测人. */
  function FilterPersonalityDescription(desc: string, english: bool): string
  {
    if english then ReplaceAll(ReplaceAll(desc, "you", "subjects"), "You", "Subjects")
    else ReplaceAll(ReplaceAll(desc, "你", "受测人"), "您", "受测人")
  }

  /** The Chinese filter leaves neither 你 nor 您. */
  lemma ChineseDescriptionHasNoSecondPerson(desc: string)
    ensures '你' !in FilterPersonalityDescription(desc, false)
    ensures '您' !in FilterPersonalityDescription(desc, false)
  {
    var first := ReplaceAll(desc, "你", "受测人");
    ReplaceAllRemovesChar(desc, '你', "受测人");
    ReplaceAllKeepsAbsent(first, "您", "受测人", '你');
    ReplaceAllRemovesChar(first, '您', "受测人");
  }

  /** The English filter leaves no "you" and no "You" anywhere, inside words included. */
  lemma EnglishDescriptionHasNoYou(desc: string)
    ensures !Contains(FilterPersonalityDescription(desc, true), "you")
    ensures !Contains(FilterPersonalityDescription(desc, true), "You")
  {
    var first := ReplaceAll(desc, "you", "subjects");
    var out := ReplaceAll(first, "You", "Subjects");
    YouReplaceable();
    ReplaceAllRemovesPattern(desc, "you", "subjects");
    ReplaceAllRemovesPattern(first, "You", "Subjects");
    forall i | 0 <= i <= |out|
      ensures !OccursAt(out, "you", i)
    {
      ReplaceAllKeepsWordAbsent(first, "You", "Subjects", "you", i);
    }
  }

  lemma YouReplaceable()
    ensures 'y' !in "subjects" && 's' !in "ou" && 'Y' !in "Subjects" && 'S' !in "ou" && 'y' !in "Subjects"
  {
  }

  /** Replacement works on substrings: "your" loses its "you". */
  lemma FilterReplacesInsideWords()
    ensures FilterPersonalityDescription("your", true) == "subjectsr"
  {
    LowerYourReplaced();
    NoCapitalY("subjectsr");
  }

  lemma LowerYourReplaced()
    ensures ReplaceAll("your", "you", "subjects") == "subjectsr"
  {
    var s := "your";
    assert s[..3] == "you" && s[3..] == "r";
    assert ReplaceAll("r", "you", "subjects") == "r";
  }

  lemma {:induction false} NoCapitalY(s: string)
    requires 'Y' !in s
    ensures ReplaceAll(s, "You", "Subjects") == s
    decreases |s|
  {
    if |s| >= 3 {
      assert s[..3][0] == s[0] != 'Y';
      NoCapitalY(s[1..]);
    }
  }

  /** Replaces the neutral subject noun by the subject's pronoun. */
  function FilterSubjectNoun(content: string, subject: Subject, english: bool): string
  {
    if english then ReplaceAll(content, "subjects", if subject.male then "he" else "she")
    else ReplaceAll(content, "受测人", if subject.male then "他" else "她")
  }

  /** In Chinese no 受测人 is left. */
  lemma ChineseSubjectNounReplaced(content: string, subject: Subject)
    ensures !Contains(FilterSubjectNoun(content, subject, false), "受测人")
  {
    assert "受测人"[1..] == "测人";
    ReplaceAllRemovesPattern(content, "受测人", if subject.male then "他" else "她");
  }

  /** In English "subjects" is gone when it becomes "he". */
  lemma EnglishSubjectNounReplacedForMale(content: string, subject: Subject)
    requires subject.male
    ensures !Contains(FilterSubjectNoun(content, subject, true), "subjects")
  {
    assert "subjects"[1..] == "ubjects";
    ReplaceAllRemovesPattern(content, "subjects", "he");
  }

  /** Filtering Chinese text and then naming the subject leaves no second person and no 受测人. */
  lemma ChinesePipeline(desc: string, subject: Subject)
    ensures var out := FilterSubjectNoun(FilterPersonalityDescription(desc, false), subject, false);
      '你' !in out && '您' !in out && !Contains(out, "受测人")
  {
    var mid := FilterPersonalityDescription(desc, false);
    var pronoun := if subject.male then "他" else "她";
    ChineseDescriptionHasNoSecondPerson(desc);
    ReplaceAllKeepsAbsent(mid, "受测人", pronoun, '你');
    ReplaceAllKeepsAbsent(mid, "受测人", pronoun, '您');
    ChineseSubjectNounReplaced(mid, subject);
  }

  /** The number of positions of words whose word occurs in others. */
  function CountIn(words: seq<string>, others: seq<string>): (n: nat)
    ensures n <= |words|
  {
    if words == [] then 0
    else CountIn(words[..|words| - 1], others) + (if words[|words| - 1] in others then 1 else 0)
  }

  /** Every word counts exactly when every word occurs in the others. */
  lemma {:induction false} CountInAll(words: seq<string>, others: seq<string>)
    ensures CountIn(words, others) == |words| <==> forall i :: 0 <= i < |words| ==> words[i] in others
  {
    if words != [] {
      var init := words[..|words| - 1];
      CountInAll(init, others);
      assert forall i :: 0 <= i < |init| ==> init[i] == words[i];
    }
  }

  /** No word counts exactly when no word occurs in the others. */
  lemma {:induction false} CountInNone(words: seq<string>, others: seq<string>)
    ensures CountIn(words, others) == 0 <==> forall i :: 0 <= i < |words| ==> words[i] !in others
  {
    if words != [] {
      var init := words[..|words| - 1];
      CountInNone(init, others);
      assert forall i :: 0 <= i < |init| ==> init[i] == words[i];
    }
  }

  /** The list whose words are counted: the longer one, the second on a tie. */
  function Pole(a: seq<string>, b: seq<string>): seq<string> { if |a| > |b| then a else b }

  /** The list the counted words are looked up in. */
  function Monkey(a: seq<string>, b: seq<string>): seq<string> { if |a| > |b| then b else a }

  /**
   * The share of the longer list's words found in the shorter list; absent
   * when both are empty, where the division is 0 / 0.
   */
  function Similarity(a: seq<string>, b: seq<string>): Option<real>
  {
    var pole := Pole(a, b);
    if |pole| == 0 then None else Some(CountIn(pole, Monkey(a, b)) as real / |pole| as real)
  }

  /**
   * The similarity lies in [0, 1]; it is 1 iff every word of the longer
   * list occurs in the shorter one, and 0 iff none does.
   */
  lemma SimilarityBounds(a: seq<string>, b: seq<string>)
    ensures Similarity(a, b).None? <==> a == [] && b == []
    ensures Similarity(a, b).Some? ==> 0.0 <= Similarity(a, b).value <= 1.0
    ensures Similarity(a, b).Some? ==>
      (Similarity(a, b).value == 1.0 <==> forall i :: 0 <= i < |Pole(a, b)| ==> Pole(a, b)[i] in Monkey(a, b))
    ensures Similarity(a, b).Some? ==>
      (Similarity(a, b).value == 0.0 <==> forall i :: 0 <= i < |Pole(a, b)| ==> Pole(a, b)[i] !in Monkey(a, b))
  {
    var p, m := Pole(a, b), Monkey(a, b);
    if p != [] {
      ShareBounds(CountIn(p, m) as real, |p| as real);
      CountInAll(p, m);
      CountInNone(p, m);
    }
  }

  lemma ShareBounds(c: real, p: real)
    requires 0.0 <= c <= p && p > 0.0
    ensures 0.0 <= c / p <= 1.0
    ensures c / p == 1.0 <==> c == p
    ensures c / p == 0.0 <==> c == 0.0
  {
    assert c / p * p == c;
  }

  /** Identical word lists are fully similar. */
  lemma SimilarityOfSame(a: seq<string>)
    requires a != []
    ensures Similarity(a, a) == Some(1.0)
  {
    CountInAll(a, a);
    SimilarityBounds(a, a);
  }

  method FastSentenceSimilarity(wordsA: seq<string>, wordsB: seq<string>) returns (r: Option<real>)
    ensures r == Similarity(wordsA, wordsB)
  {
    var pole: seq<string>, monkey: seq<string>;
    if |wordsA| > |wordsB| {
      pole, monkey := wordsA, wordsB;
    } else {
      pole, monkey := wordsB, wordsA;
    }
    var count := 0;
    var i := 0;
    while i < |pole|
      invariant 0 <= i <= |pole|
      invariant count == CountIn(pole[..i], monkey)
    {
      assert pole[..i + 1][..i] == pole[..i];
      if pole[i] in monkey {
        count := count + 1;
      }
      i := i + 1;
    }
    assert pole[..|pole|] == pole;
    if |pole| == 0 {
      r := None;
    } else {
      r := Some(count as real / |pole| as real);
    }
  }

  /** A lazy sentence hits when some of its words, and at least a third of them (rounded down), occur in the query. */
  predicate HitsLazy(queryWords: seq<string>, sentence: seq<string>)
  {
    var count := CountIn(sentence, queryWords);
    count > 0 && count >= |sentence| / 3
  }

  /** A lazy sentence of at most five words hits iff one of its words occurs in the query. */
  lemma ShortLazySentence(queryWords: seq<string>, sentence: seq<string>)
    requires |sentence| < 6
    ensures HitsLazy(queryWords, sentence) <==> exists i :: 0 <= i < |sentence| && sentence[i] in queryWords
  {
    CountInNone(sentence, queryWords);
    if exists i :: 0 <= i < |sentence| && sentence[i] in queryWords {
      assert CountIn(sentence, queryWords) >= 1;
    }
  }

  /** Whether the query hits any of the lazy sentences. */
  method LazyHit(queryWords: seq<string>, lazyQueries: seq<seq<string>>) returns (hit: bool)
    ensures hit <==> exists k :: 0 <= k < |lazyQueries| && HitsLazy(queryWords, lazyQueries[k])
  {
    hit := false;
    var k := 0;
    while k < |lazyQueries|
      invariant 0 <= k <= |lazyQueries|
      invariant forall j :: 0 <= j < k ==> !HitsLazy(queryWords, lazyQueries[j])
    {
      var sentences := lazyQueries[k];
      var count := 0;
      var i := 0;
      while i < |sentences|
        invariant 0 <= i <= |sentences|
        invariant count == CountIn(sentences[..i], queryWords)
      {
        assert sentences[..i + 1][..i] == sentences[..i];
        if sentences[i] in queryWords {
          count := count + 1;
        }
        i := i + 1;
      }
      assert sentences[..|sentences|] == sentences;
      if count > 0 && count >= |sentences| / 3 {
        hit := true;
        return;
      }
      k := k + 1;
    }
  }

  /** The symptom list after one query word: each matching symptom word not yet listed is appended in order. */
  function AddMatches(list: seq<string>, word: string, symptoms: seq<string>): seq<string>
  {
    if symptoms == [] then list
    else
      var acc := AddMatches(list, word, symptoms[..|symptoms| - 1]);
      var s := symptoms[|symptoms| - 1];
      if EqualsIgnoreCase(s, word) && s !in acc then acc + [s] else acc
  }

  /** The symptom words a query mentions, in order of first mention. */
  function Symptoms(words: seq<string>, symptoms: seq<string>): seq<string>
  {
    if words == [] then [] else AddMatches(Symptoms(words[..|words| - 1], symptoms), words[|words| - 1], symptoms)
  }

  lemma {:induction false} AddMatchesProps(list: seq<string>, word: string, symptoms: seq<string>)
    ensures Distinct(list) ==> Distinct(AddMatches(list, word, symptoms))
    ensures forall x :: x in AddMatches(list, word, symptoms) <==> x in list || (x in symptoms && EqualsIgnoreCase(x, word))
    ensures |list| <= |AddMatches(list, word, symptoms)| && AddMatches(list, word, symptoms)[..|list|] == list
  {
    if symptoms != [] {
      var init := symptoms[..|symptoms| - 1];
      AddMatchesProps(list, word, init);
      assert symptoms == init + [symptoms[|symptoms| - 1]];
    }
  }

  /** Some query word equals x, ignoring case. */
  predicate Mentioned(x: string, words: seq<string>)
  {
    exists j :: 0 <= j < |words| && EqualsIgnoreCase(x, words[j])
  }

  lemma MentionedSnoc(x: string, words: seq<string>)
    requires words != []
    ensures Mentioned(x, words) <==> Mentioned(x, words[..|words| - 1]) || EqualsIgnoreCase(x, words[|words| - 1])
  {
    var init := words[..|words| - 1];
    if Mentioned(x, words) {
      var j :| 0 <= j < |words| && EqualsIgnoreCase(x, words[j]);
      if j < |init| {
        assert init[j] == words[j];
      }
    }
    if Mentioned(x, init) {
      var j :| 0 <= j < |init| && EqualsIgnoreCase(x, init[j]);
      assert words[j] == init[j];
    }
  }

  /**
   * The symptom list has no duplicates and holds exactly the symptom words
   * equal, ignoring case, to some query word.
   */
  lemma {:induction false} SymptomsProps(words: seq<string>, symptoms: seq<string>)
    ensures Distinct(Symptoms(words, symptoms))
    ensures forall x :: x in Symptoms(words, symptoms) <==> x in symptoms && Mentioned(x, words)
  {
    if words != [] {
      var init := words[..|words| - 1];
      SymptomsProps(init, symptoms);
      AddMatchesProps(Symptoms(init, symptoms), words[|words| - 1], symptoms);
      forall x
        ensures Mentioned(x, words) <==> Mentioned(x, init) || EqualsIgnoreCase(x, words[|words| - 1])
      {
        MentionedSnoc(x, words);
      }
    }
  }

  method SymptomList(words: seq<string>, symptoms: seq<string>) returns (list: seq<string>)
    ensures list == Symptoms(words, symptoms)
  {
    list := [];
    var i := 0;
    while i < |words|
      invariant 0 <= i <= |words|
      invariant list == Symptoms(words[..i], symptoms)
    {
      var word := words[i];
      assert words[..i + 1][..i] == words[..i];
      ghost var before := list;
      var k := 0;
      while k < |symptoms|
        invariant 0 <= k <= |symptoms|
        invariant list == AddMatches(before, word, symptoms[..k])
      {
        var symptomWord := symptoms[k];
        assert symptoms[..k + 1][..k] == symptoms[..k];
        if EqualsIgnoreCase(symptomWord, word) {
          if symptomWord !in list {
            list := list + [symptomWord];
          }
        }
        k := k + 1;
      }
      assert symptoms[..|symptoms|] == symptoms;
      i := i + 1;
    }
    assert words[..|words|] == words;
  }
}
