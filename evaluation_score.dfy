/**
 * An evaluation score: the per-indicator accumulator of weighted scores
 * and the piecewise threshold tables that rate it.
 */
module EvaluationScoreModel {
  import opened PsychologyTypes

  /** One weighted score produced by an evaluation rule. */
  datatype Score = Score(indicator: Indicator, value: int, weight: real)

  /** The numeric fields of an evaluation score. */
  datatype ScoreState = ScoreState(
    hit: int,
    value: int,
    positive: int,
    positiveWeight: real,
    negative: int,
    negativeWeight: real,
    positiveScore: real,
    negativeScore: real)

  const EmptyState := ScoreState(0, 0, 0, 0.0, 0, 0.0, 0.0, 0.0)

  function Abs(x: int): nat { if x < 0 then -x else x }

  function AbsReal(x: real): real { if x < 0.0 then -x else x }

  /** The state the single-score constructor sets up. */
  function InitialState(value: int, weight: real): (r: ScoreState)
    ensures r.hit == 1 && r.value == value
    ensures value > 0 ==> r.positiveScore == value as real * weight && r.negativeScore == 0.0 &&
                          r.positive == value && r.positiveWeight == weight
    ensures value < 0 ==> r.negativeScore == Abs(value) as real * weight && r.positiveScore == 0.0 &&
                          r.negative == Abs(value) && r.negativeWeight == weight
    ensures value == 0 ==> r.positiveScore == 0.0 && r.negativeScore == 0.0
  {
    if value > 0 then
      EmptyState.(hit := 1, value := value, positive := value, positiveWeight := weight,
                  positiveScore := value as real * weight)
    else if value < 0 then
      EmptyState.(hit := 1, value := value, negative := Abs(value), negativeWeight := weight,
                  negativeScore := Abs(value) as real * weight)
    else EmptyState.(hit := 1)
  }

  /** One call of scoring. */
  function ScoringStep(st: ScoreState, s: Score): (r: ScoreState)
    ensures r.hit == st.hit + 1 && r.value == st.value + s.value
    ensures r.positiveScore >= st.positiveScore
    ensures r.positiveScore - st.positiveScore == (if s.value > 0 then AbsReal(s.value as real * s.weight) else 0.0)
    ensures r.negativeScore - st.negativeScore == (if s.value < 0 then Abs(s.value) as real * s.weight else 0.0)
    ensures s.weight >= 0.0 ==> r.negativeScore >= st.negativeScore
    ensures s.value == 0 ==> r == st.(hit := r.hit)
    ensures s.value > 0 && s.weight > st.positiveWeight ==> r.positive == s.value && r.positiveWeight == s.weight
    ensures !(s.value > 0 && s.weight > st.positiveWeight) ==> r.positive == st.positive && r.positiveWeight == st.positiveWeight
    ensures s.value < 0 && s.weight > st.negativeWeight ==> r.negative == Abs(s.value) && r.negativeWeight == s.weight
    ensures !(s.value < 0 && s.weight > st.negativeWeight) ==> r.negative == st.negative && r.negativeWeight == st.negativeWeight
  {
    var st1 := st.(hit := st.hit + 1, value := st.value + s.value);
    if s.value > 0 then
      var st2 := if s.weight > st1.positiveWeight then st1.(positive := s.value, positiveWeight := s.weight) else st1;
      st2.(positiveScore := st2.positiveScore + AbsReal(s.value as real * s.weight))
    else if s.value < 0 then
      var st2 := if s.weight > st1.negativeWeight then st1.(negative := Abs(s.value), negativeWeight := s.weight) else st1;
      st2.(negativeScore := st2.negativeScore + Abs(s.value) as real * s.weight)
    else st1
  }

  /** Scoring a sequence of scores, in order, from a given state. */
  function ScoringAll(st: ScoreState, scores: seq<Score>): ScoreState
  {
    if scores == [] then st else ScoringStep(ScoringAll(st, scores[..|scores| - 1]), scores[|scores| - 1])
  }

  /** Index i holds the first positive score of strictly greatest weight among scores. */
  ghost predicate FirstHeaviestPositive(scores: seq<Score>, i: int)
  {
    0 <= i < |scores| && scores[i].value > 0 &&
    (forall j :: 0 <= j < |scores| && scores[j].value > 0 ==> scores[j].weight <= scores[i].weight) &&
    (forall j :: 0 <= j < i && scores[j].value > 0 ==> scores[j].weight < scores[i].weight)
  }

  /**
   * From the empty state, positive and positiveWeight record the first
   * positive score of strictly greatest weight (if that weight is above 0),
   * and hit counts the calls.
   */
  lemma {:induction false} ScoringTracksHeaviestPositive(scores: seq<Score>)
    ensures var r := ScoringAll(EmptyState, scores);
      r.hit == |scores| &&
      r.positiveWeight >= 0.0 &&
      (forall j :: 0 <= j < |scores| && scores[j].value > 0 ==> scores[j].weight <= r.positiveWeight) &&
      (r.positiveWeight > 0.0 ==>
        exists i :: FirstHeaviestPositive(scores, i) && r.positive == scores[i].value &&
                    r.positiveWeight == scores[i].weight)
  {
    if scores != [] {
      var init := scores[..|scores| - 1];
      ScoringTracksHeaviestPositive(init);
      var p := ScoringAll(EmptyState, init);
      var r := ScoringStep(p, scores[|scores| - 1]);
      PositiveStep(scores, p.positive, p.positiveWeight, r.positive, r.positiveWeight);
    }
  }

  /** positive and weight record the first heaviest positive score, if weight is above 0. */
  ghost predicate HeaviestPositive(scores: seq<Score>, positive: int, weight: real)
  {
    weight >= 0.0 &&
    (forall j :: 0 <= j < |scores| && scores[j].value > 0 ==> scores[j].weight <= weight) &&
    (weight > 0.0 ==>
      exists i :: FirstHeaviestPositive(scores, i) && positive == scores[i].value && weight == scores[i].weight)
  }

  /** One more score keeps the record: a strictly heavier positive score replaces it. */
  lemma PositiveStep(scores: seq<Score>, n: int, w: real, n2: int, w2: real)
    requires scores != [] && HeaviestPositive(scores[..|scores| - 1], n, w)
    requires var last := scores[|scores| - 1];
      if last.value > 0 && last.weight > w then n2 == last.value && w2 == last.weight else n2 == n && w2 == w
    ensures HeaviestPositive(scores, n2, w2)
  {
    var init := scores[..|scores| - 1];
    var last := scores[|scores| - 1];
    assert forall j :: 0 <= j < |init| ==> init[j] == scores[j];
    if last.value > 0 && last.weight > w {
      assert FirstHeaviestPositive(scores, |scores| - 1);
    } else {
      assert n2 == n && w2 == w;
      forall j | 0 <= j < |scores| && scores[j].value > 0
        ensures scores[j].weight <= w2
      {
        if j < |init| {
          assert init[j].value > 0;
        }
      }
      if w2 > 0.0 {
        var i :| FirstHeaviestPositive(init, i) && n == init[i].value && w == init[i].weight;
        assert FirstHeaviestPositive(scores, i);
      }
    }
  }

  /** Index i holds the first negative score of strictly greatest weight among scores. */
  ghost predicate FirstHeaviestNegative(scores: seq<Score>, i: int)
  {
    0 <= i < |scores| && scores[i].value < 0 &&
    (forall j :: 0 <= j < |scores| && scores[j].value < 0 ==> scores[j].weight <= scores[i].weight) &&
    (forall j :: 0 <= j < i && scores[j].value < 0 ==> scores[j].weight < scores[i].weight)
  }

  /** The same for negative scores: negative and negativeWeight record the first heaviest one. */
  lemma {:induction false} ScoringTracksHeaviestNegative(scores: seq<Score>)
    ensures var r := ScoringAll(EmptyState, scores);
      r.negativeWeight >= 0.0 &&
      (forall j :: 0 <= j < |scores| && scores[j].value < 0 ==> scores[j].weight <= r.negativeWeight) &&
      (r.negativeWeight > 0.0 ==>
        exists i :: FirstHeaviestNegative(scores, i) && r.negative == Abs(scores[i].value) &&
                    r.negativeWeight == scores[i].weight)
  {
    if scores != [] {
      var init := scores[..|scores| - 1];
      ScoringTracksHeaviestNegative(init);
      var p := ScoringAll(EmptyState, init);
      var r := ScoringStep(p, scores[|scores| - 1]);
      NegativeStep(scores, p.negative, p.negativeWeight, r.negative, r.negativeWeight);
    }
  }

  /** negative and weight record the first heaviest negative score, if weight is above 0. */
  ghost predicate HeaviestNegative(scores: seq<Score>, negative: int, weight: real)
  {
    weight >= 0.0 &&
    (forall j :: 0 <= j < |scores| && scores[j].value < 0 ==> scores[j].weight <= weight) &&
    (weight > 0.0 ==>
      exists i :: FirstHeaviestNegative(scores, i) && negative == Abs(scores[i].value) && weight == scores[i].weight)
  }

  /** One more score keeps the record: a strictly heavier negative score replaces it. */
  lemma NegativeStep(scores: seq<Score>, n: int, w: real, n2: int, w2: real)
    requires scores != [] && HeaviestNegative(scores[..|scores| - 1], n, w)
    requires var last := scores[|scores| - 1];
      if last.value < 0 && last.weight > w then n2 == Abs(last.value) && w2 == last.weight else n2 == n && w2 == w
    ensures HeaviestNegative(scores, n2, w2)
  {
    var init := scores[..|scores| - 1];
    var last := scores[|scores| - 1];
    assert forall j :: 0 <= j < |init| ==> init[j] == scores[j];
    if last.value < 0 && last.weight > w {
      assert FirstHeaviestNegative(scores, |scores| - 1);
    } else {
      assert n2 == n && w2 == w;
      forall j | 0 <= j < |scores| && scores[j].value < 0
        ensures scores[j].weight <= w2
      {
        if j < |init| {
          assert init[j].value < 0;
        }
      }
      if w2 > 0.0 {
        var i :| FirstHeaviestNegative(init, i) && n == Abs(init[i].value) && w == init[i].weight;
        assert FirstHeaviestNegative(scores, i);
      }
    }
  }

  /** Rate bands shared by several indicators: Low/Medium/High over half-open intervals. */
  function Banded(score: real, low: real, lowInclusive: bool, mid: real, high: real): (r: IndicatorRate)
    requires low < mid < high
    ensures r in {NoRate, Low, Medium, High}
    ensures r == High <==> score > high
    ensures r == Medium <==> mid < score <= high
    ensures r == Low <==> (if lowInclusive then low <= score else low < score) && score <= mid
  {
    if (if lowInclusive then score >= low else score > low) && score <= mid then Low
    else if score > mid && score <= high then Medium
    else if score > high then High
    else NoRate
  }

  /** The indicators the rate tables have no case for. */
  predicate Unrated(indicator: Indicator)
  {
    indicator in {Stress, Unknown, DesireForFreedom, Thought, SelfEsteem, Meekness,
                  Struggle, Simple, MoralSense}
  }

  /** The rate of an indicator for a score (positive minus negative) and an age. */
  function Rate(indicator: Indicator, score: real, age: int): (r: IndicatorRate)
    ensures indicator == InterpersonalRelation ==> r != NoRate
    ensures Unrated(indicator) ==> r == NoRate
    ensures indicator == Depression && age < 18 ==>
      (r == NoRate <==> score <= 1.0) && (r == Low <==> 1.0 < score <= 1.4) &&
      (r == Medium <==> 1.4 < score <= 2.0) && (r == High <==> score > 2.0)
    ensures indicator == Depression && age >= 18 ==>
      (r == NoRate <==> score <= 0.3) && (r == Low <==> 0.3 < score <= 0.7) &&
      (r == Medium <==> 0.7 < score <= 1.1) && (r == High <==> score > 1.1)
  {
    match indicator
    case Depression =>
      if age < 18 then Banded(score, 1.0, false, 1.4, 2.0) else Banded(score, 0.3, false, 0.7, 1.1)
    case Anxiety =>
      if age < 18 then Banded(score, 0.8, true, 1.2, 1.6) else Banded(score, 0.5, true, 1.0, 1.8)
    case Obsession =>
      if age < 18 then Banded(score, 0.6, true, 1.0, 1.6) else Banded(score, 0.1, true, 0.8, 1.2)
    case Creativity =>
      if score >= 0.6 then High else if score >= 0.3 then Medium else Low
    case Pessimism =>
      if score > 0.2 then High else NoRate
    case Optimism =>
      if age < 18 then (if score > 1.2 then High else NoRate)
      else (if score > 0.9 then High else NoRate)
    case SenseOfSecurity =>
      if score >= 0.5 then High else if score >= -0.3 then Medium else Low
    case Extroversion =>
      if score > 1.0 then High else if score > 0.5 then Medium else NoRate
    case Introversion =>
      if score > 1.0 then High else if score >= 0.5 then Medium else NoRate
    case Impulsion =>
      if score > 1.0 then High else if score > 0.5 then Medium else Low
    case Confidence =>
      if score > 1.0 then High else if score > 0.3 then Medium else if score > -0.3 then Low else NoRate
    case Mood =>
      if score >= 0.4 then High else if score < -0.1 then Low else NoRate
    case Repression =>
      if score >= 1.1 then High else if score > 0.5 then Medium else Low
    case Independence =>
      if score > 0.3 then High else Low
    case AchievementMotivation =>
      if score > 1.0 then High else if score > 0.6 then Medium else Low
    case Paranoid =>
      Banded(score, 0.2, false, 0.5, 0.8)
    case Hostile =>
      Banded(score, 0.2, false, 0.4, 0.8)
    case SocialAdaptability =>
      if score >= 0.3 then High else if score <= -0.2 then Low else NoRate
    case Narcissism =>
      if score > 1.0 then High else if score >= 0.5 then Medium else Low
    case EvaluationFromOutside =>
      if score >= 1.0 then High else if score > 0.3 then Medium else Low
    case Aggression =>
      if score > 0.7 then High else if score > 0.4 then Medium else Low
    case Family =>
      if score > 1.0 then High else if score > 0.0 then Medium else Low
    case InterpersonalRelation =>
      if score >= 3.5 then Highest
      else if score >= 2.1 then High
      else if score >= 1.0 then Medium
      else if score > 0.1 then Medium
      else if score > -0.3 then Low
      else if score > -0.8 then Low
      else Lowest
    case SelfControl =>
      if score >= 0.8 then High else if score >= 0.0 then Medium else Low
    case SelfConsciousness =>
      if score > 0.5 then High else if score > 0.3 then Medium else Low
    case Idealism =>
      if score >= 0.32 then High else NoRate
    case Realism =>
      if score >= 0.31 then High else NoRate
    case Psychosis =>
      if score > 1.5 then High else if score > 1.0 then Medium else if score > 0.5 then Low else NoRate
    case LogicalThinking =>
      if score >= 1.0 then High else if score >= 0.5 then Medium else Low
    case SecureAttachment =>
      AttachmentRate(score)
    case AnxiousPreoccupiedAttachment =>
      AttachmentRate(score)
    case DismissiveAvoidantAttachment =>
      AttachmentRate(score)
    case DisorganizedAttachment =>
      AttachmentRate(score)
    case _ => NoRate
  }

  /** The Anxiety and Obsession bands, whose lower bound is inclusive. */
  lemma RateBands(indicator: Indicator, score: real, age: int)
    ensures var r := Rate(indicator, score, age);
      indicator == Anxiety && age < 18 ==>
      (r == NoRate <==> score < 0.8) && (r == Low <==> 0.8 <= score <= 1.2) &&
      (r == Medium <==> 1.2 < score <= 1.6) && (r == High <==> score > 1.6)
    ensures var r := Rate(indicator, score, age);
      indicator == Anxiety && age >= 18 ==>
      (r == NoRate <==> score < 0.5) && (r == Low <==> 0.5 <= score <= 1.0) &&
      (r == Medium <==> 1.0 < score <= 1.8) && (r == High <==> score > 1.8)
    ensures var r := Rate(indicator, score, age);
      indicator == Obsession && age < 18 ==>
      (r == NoRate <==> score < 0.6) && (r == Low <==> 0.6 <= score <= 1.0) &&
      (r == Medium <==> 1.0 < score <= 1.6) && (r == High <==> score > 1.6)
    ensures var r := Rate(indicator, score, age);
      indicator == Obsession && age >= 18 ==>
      (r == NoRate <==> score < 0.1) && (r == Low <==> 0.1 <= score <= 0.8) &&
      (r == Medium <==> 0.8 < score <= 1.2) && (r == High <==> score > 1.2)
  {
  }

  function AttachmentRate(score: real): IndicatorRate
  {
    if score >= 1.2 then High else if score >= 0.7 then Medium else Low
  }

  /** Depression, Anxiety and Obsession rates never fall as the score rises. */
  lemma {:induction false} RateMonotone(indicator: Indicator, age: int, s1: real, s2: real)
    requires indicator in {Depression, Anxiety, Obsession}
    requires s1 <= s2
    ensures RateRank(Rate(indicator, s1, age)) <= RateRank(Rate(indicator, s2, age))
  {
    if indicator == Depression {
      if age < 18 { BandedMonotone(s1, s2, 1.0, false, 1.4, 2.0); }
      else { BandedMonotone(s1, s2, 0.3, false, 0.7, 1.1); }
    } else if indicator == Anxiety {
      if age < 18 { BandedMonotone(s1, s2, 0.8, true, 1.2, 1.6); }
      else { BandedMonotone(s1, s2, 0.5, true, 1.0, 1.8); }
    } else {
      if age < 18 { BandedMonotone(s1, s2, 0.6, true, 1.0, 1.6); }
      else { BandedMonotone(s1, s2, 0.1, true, 0.8, 1.2); }
    }
  }

  lemma BandedMonotone(s1: real, s2: real, low: real, lowInclusive: bool, mid: real, high: real)
    requires low < mid < high
    requires s1 <= s2
    ensures RateRank(Banded(s1, low, lowInclusive, mid, high)) <= RateRank(Banded(s2, low, lowInclusive, mid, high))
  {
  }

  function AsciiLower(s: string): (r: string)
    ensures |r| == |s|
  {
    if s == [] then []
    else [if 'A' <= s[0] <= 'Z' then (s[0] as int + 32) as char else s[0]] + AsciiLower(s[1..])
  }

  /** An evaluation score object. */
  class EvaluationScore {
    const indicator: Indicator
    var hit: int
    var value: int
    var positive: int
    var positiveWeight: real
    var negative: int
    var negativeWeight: real
    var positiveScore: real
    var negativeScore: real
    var rate: Option<IndicatorRate>

    function State(): ScoreState
      reads this
    {
      ScoreState(hit, value, positive, positiveWeight, negative, negativeWeight, positiveScore, negativeScore)
    }

    /** An empty score for an indicator. */
    constructor Empty(indicator: Indicator)
      ensures this.indicator == indicator && State() == EmptyState && rate == None
    {
      this.indicator := indicator;
      hit, value, positive, positiveWeight := 0, 0, 0, 0.0;
      negative, negativeWeight, positiveScore, negativeScore := 0, 0.0, 0.0, 0.0;
      rate := None;
    }

    /** A score made from one value and weight, rated for the given age. */
    constructor (indicator: Indicator, value: int, weight: real, age: int)
      ensures this.indicator == indicator
      ensures State() == InitialState(value, weight)
      ensures rate == Some(Rate(indicator, positiveScore - negativeScore, age))
    {
      this.indicator := indicator;
      hit := 1;
      this.value := value;
      positive, positiveWeight, negative, negativeWeight := 0, 0.0, 0, 0.0;
      positiveScore, negativeScore := 0.0, 0.0;
      rate := None;
      if value > 0 {
        positive := value;
        positiveWeight := weight;
        positiveScore := value as real * weight;
      } else if value < 0 {
        negative := Abs(value);
        negativeWeight := weight;
        negativeScore := Abs(value) as real * weight;
      }
      new;
      var _ := GetIndicatorRate(age);
    }

    function CalcScore(): real
      reads this
    {
      positiveScore - negativeScore
    }

    function CalcScoreReLU(): (r: real)
      reads this
      ensures r >= 0.0 && r >= CalcScore()
      ensures CalcScore() >= 0.0 ==> r == CalcScore()
      ensures CalcScore() <= 0.0 ==> r == 0.0
    {
      var v := positiveScore - negativeScore;
      if v < 0.0 then 0.0 else v
    }

    /** Adds one weighted score. */
    method Scoring(s: Score)
      modifies this
      ensures State() == ScoringStep(old(State()), s)
      ensures rate == old(rate)
    {
      hit := hit + 1;
      value := value + s.value;
      if s.value > 0 {
        if s.weight > positiveWeight {
          positive := s.value;
          positiveWeight := s.weight;
        }
        positiveScore := positiveScore + AbsReal(s.value as real * s.weight);
      } else if s.value < 0 {
        if s.weight > negativeWeight {
          negative := Abs(s.value);
          negativeWeight := s.weight;
        }
        negativeScore := negativeScore + Abs(s.value) as real * s.weight;
      }
    }

    /** Rates the score for an age and stores the rate. */
    method GetIndicatorRate(age: int) returns (r: IndicatorRate)
      modifies this`rate
      ensures r == Rate(indicator, positiveScore - negativeScore, age)
      ensures rate == Some(r)
    {
      r := Rate(indicator, positiveScore - negativeScore, age);
      rate := Some(r);
    }

    /** The stored rate, computed and stored first if absent. */
    method GetRate(age: int) returns (r: IndicatorRate)
      modifies this`rate
      ensures old(rate).Some? ==> r == old(rate).value && rate == old(rate)
      ensures old(rate).None? ==> r == Rate(indicator, positiveScore - negativeScore, age) && rate == Some(r)
    {
      if rate.None? {
        r := GetIndicatorRate(age);
      } else {
        r := rate.value;
      }
    }

    /**
     * The report prompt for a descriptive word: absent when nothing was
     * scored or the word is empty.
     */
    function ReportPrompt(word: string, chinese: bool): (r: Option<string>)
      reads this
      ensures r.None? <==> hit == 0 || (positiveScore == 0.0 && negativeScore == 0.0) || word == ""
      ensures r.Some? && chinese ==> |r.value| > |word| && r.value[..|word|] == word
    {
      if hit == 0 || (positiveScore == 0.0 && negativeScore == 0.0) then None
      else if word == "" then None
      else if chinese then Some(word + "的报告描述")
      else Some("The report content when the assessment indicator is \"" + AsciiLower(word) + "\"")
    }

    /** Two scores are equal iff they are for the same indicator. */
    predicate Equals(other: EvaluationScore)
      ensures Equals(other) <==> other.indicator == indicator
    {
      other == this || other.indicator == indicator
    }
  }
}
