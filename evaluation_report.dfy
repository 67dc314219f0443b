/**
 * The attention/suggestion fallback rules of an evaluation report: the
 * per-indicator accumulation, the cross-indicator, strict and age
 * corrections, the classification into an attention tier, the
 * reference-driven adjustment and the suggestion derived from the tier.
 */
module EvaluationReportModel {
  import opened PsychologyTypes

  /** One evaluation score as the triage rules read it. */
  datatype IndicatorScore = IndicatorScore(indicator: Indicator, positiveScore: real, negativeScore: real)

  /** The integer accumulator and the flags of the per-indicator pass. */
  datatype Tally = Tally(
    score: int,
    depression: bool,
    depressionScore: real,
    senseOfSecurity: bool,
    stress: bool,
    anxiety: bool,
    obsession: bool,
    optimism: bool,
    pessimism: bool)

  const InitialTally := Tally(0, false, 0.0, false, false, false, false, false, false)

  /** The name of the additional scale the rules may recommend. */
  const SCL90 := "SCL-90"

  /** The result of one run of the rules: tier, reference and additional scales. */
  datatype Triage = Triage(attention: Attention, reference: Reference, scales: seq<string>)

  /** The indicators the fallback rules react to; every other indicator is ignored. */
  predicate TriageIndicator(i: Indicator)
  {
    i in {Psychosis, SocialAdaptability, Depression, SenseOfSecurity, Stress,
          Anxiety, Obsession, Optimism, Pessimism, Unknown}
  }

  /** The per-indicator step of the accumulation loop. */
  function Step(t: Tally, es: IndicatorScore): (r: Tally)
    ensures es.indicator == Psychosis ==>
      r.score - t.score in {0, 2, 3, 4} && r == t.(score := r.score) &&
      (r.score > t.score <==> es.positiveScore > 0.3)
    ensures es.indicator == SocialAdaptability ==>
      r.score - t.score in {0, 1, 2} && r == t.(score := r.score) &&
      (r.score > t.score <==> es.negativeScore - es.positiveScore >= 0.5)
    ensures es.indicator == Depression ==>
      r.score - t.score in {-1, 0, 1, 2, 3} &&
      r.depressionScore == es.positiveScore - es.negativeScore &&
      r.depression == (t.depression || r.depressionScore > 0.01) &&
      (r.score < t.score <==> r.depressionScore < 0.0) &&
      (r.score > t.score <==> r.depressionScore > 0.4) &&
      r == t.(score := r.score, depression := r.depression, depressionScore := r.depressionScore)
    ensures es.indicator == SenseOfSecurity ==>
      r.score - t.score in {0, 1} &&
      r.senseOfSecurity == (t.senseOfSecurity || es.negativeScore - es.positiveScore > 0.6) &&
      r == t.(score := r.score, senseOfSecurity := r.senseOfSecurity)
    ensures es.indicator == Stress ==>
      r == t.(stress := t.stress || es.positiveScore - es.negativeScore > 0.5)
    ensures es.indicator == Anxiety ==>
      r.score - t.score in {-1, 0, 1, 2} &&
      r.anxiety == (t.anxiety || es.positiveScore - es.negativeScore > 0.0) &&
      (r.score < t.score <==> es.positiveScore - es.negativeScore < 0.0) &&
      r == t.(score := r.score, anxiety := r.anxiety)
    ensures es.indicator == Obsession ==>
      r.score - t.score in {0, 1} &&
      r.obsession == (t.obsession || es.positiveScore - es.negativeScore > 0.8) &&
      r == t.(score := r.score, obsession := r.obsession)
    ensures es.indicator == Optimism ==>
      r.score - t.score in {-1, 0} &&
      r.optimism == (t.optimism || es.positiveScore - es.negativeScore > 0.5) &&
      r == t.(score := r.score, optimism := r.optimism)
    ensures es.indicator == Pessimism ==>
      r == t.(pessimism := t.pessimism || es.positiveScore - es.negativeScore > 0.1)
    ensures es.indicator == Unknown ==> r == t.(score := 4)
    ensures !TriageIndicator(es.indicator) ==> r == t
  {
    var p, n := es.positiveScore, es.negativeScore;
    var i := es.indicator;
    if i == Psychosis then PsychosisStep(t, p)
    else if i == SocialAdaptability then AdaptabilityStep(t, n - p)
    else if i == Depression then DepressionStep(t, p - n)
    else if i == SenseOfSecurity then SecurityStep(t, n - p)
    else if i == Stress then StressStep(t, p - n)
    else if i == Anxiety then AnxietyStep(t, p - n)
    else if i == Obsession then ObsessionStep(t, p - n)
    else if i == Optimism then OptimismStep(t, p - n)
    else if i == Pessimism then PessimismStep(t, p - n)
    else if i == Unknown then t.(score := 4)
    else t
  }

  /** The Psychosis branch of the step: +4, +3 or +2 above 0.9, 0.6 and 0.3. */
  function PsychosisStep(t: Tally, p: real): (r: Tally)
    ensures r.score - t.score in {0, 2, 3, 4} && r == t.(score := r.score)
    ensures r.score > t.score <==> p > 0.3
  {
    if p > 0.9 then t.(score := t.score + 4)
    else if p > 0.6 then t.(score := t.score + 3)
    else if p > 0.3 then t.(score := t.score + 2)
    else t
  }

  /** The SocialAdaptability branch: +2 above 0.9, +1 from 0.5 on. */
  function AdaptabilityStep(t: Tally, delta: real): (r: Tally)
    ensures r.score - t.score in {0, 1, 2} && r == t.(score := r.score)
    ensures r.score > t.score <==> delta >= 0.5
  {
    if delta > 0.0 then
      (if delta > 0.9 then t.(score := t.score + 2)
       else if delta >= 0.5 then t.(score := t.score + 1)
       else t)
    else t
  }

  /** The Depression branch: records the score and sets the flag above 0.01. */
  function DepressionStep(t: Tally, d: real): (r: Tally)
    ensures r.score - t.score in {-1, 0, 1, 2, 3}
    ensures r.depressionScore == d
    ensures r.depression == (t.depression || d > 0.01)
    ensures r.score < t.score <==> d < 0.0
    ensures r.score > t.score <==> d > 0.4
    ensures r == t.(score := r.score, depression := r.depression, depressionScore := d)
  {
    var t' := t.(depressionScore := d);
    if d >= 1.2 then t'.(depression := true, score := t.score + 3)
    else if d > 0.8 then t'.(depression := true, score := t.score + 2)
    else if d > 0.4 then t'.(depression := true, score := t.score + 1)
    else if d > 0.01 then t'.(depression := true)
    else if d < 0.0 then t'.(score := t.score - 1)
    else t'
  }

  /** The SenseOfSecurity branch: +1 and the flag above 0.6. */
  function SecurityStep(t: Tally, delta: real): (r: Tally)
    ensures r.score - t.score in {0, 1}
    ensures r.senseOfSecurity == (t.senseOfSecurity || delta > 0.6)
    ensures r == t.(score := r.score, senseOfSecurity := r.senseOfSecurity)
  {
    if delta > 0.6 then t.(senseOfSecurity := true, score := t.score + 1) else t
  }

  /** The Stress branch: only the flag, above 0.5. */
  function StressStep(t: Tally, delta: real): (r: Tally)
    ensures r == t.(stress := t.stress || delta > 0.5)
  {
    if delta > 0.5 then t.(stress := true) else t
  }

  /** The Obsession branch: +1 and the flag above 0.8. */
  function ObsessionStep(t: Tally, delta: real): (r: Tally)
    ensures r.score - t.score in {0, 1}
    ensures r.obsession == (t.obsession || delta > 0.8)
    ensures r == t.(score := r.score, obsession := r.obsession)
  {
    if delta > 0.8 then t.(obsession := true, score := t.score + 1) else t
  }

  /** The Pessimism branch: only the flag, above 0.1. */
  function PessimismStep(t: Tally, delta: real): (r: Tally)
    ensures r == t.(pessimism := t.pessimism || delta > 0.1)
  {
    if delta > 0.1 then t.(pessimism := true) else t
  }

  /** The Anxiety branch: +2 above 1.5, +1 above 0.8, -1 below zero. */
  function AnxietyStep(t: Tally, a: real): (r: Tally)
    ensures r.score - t.score in {-1, 0, 1, 2}
    ensures r.anxiety == (t.anxiety || a > 0.0)
    ensures r.score < t.score <==> a < 0.0
    ensures r == t.(score := r.score, anxiety := r.anxiety)
  {
    if a > 1.5 then t.(anxiety := true, score := t.score + 2)
    else if a > 0.8 then t.(anxiety := true, score := t.score + 1)
    else if a > 0.0 then t.(anxiety := true)
    else if a < 0.0 then t.(score := t.score - 1)
    else t
  }

  /** The Optimism branch: -1 above 1.0, the flag above 0.5. */
  function OptimismStep(t: Tally, o: real): (r: Tally)
    ensures r.score - t.score in {-1, 0}
    ensures r.optimism == (t.optimism || o > 0.5)
    ensures r == t.(score := r.score, optimism := r.optimism)
  {
    if o > 1.0 then t.(optimism := true, score := t.score - 1)
    else if o > 0.5 then t.(optimism := true)
    else t
  }

  /** The tally after visiting every score in order. */
  function Accumulate(scores: seq<IndicatorScore>): Tally
  {
    if scores == [] then InitialTally
    else Step(Accumulate(scores[..|scores| - 1]), scores[|scores| - 1])
  }

  /** Accumulating one more score is one more step. */
  lemma AccumulateSnoc(prefix: seq<IndicatorScore>, e: IndicatorScore)
    ensures Accumulate(prefix + [e]) == Step(Accumulate(prefix), e)
  {
    assert (prefix + [e])[..|prefix|] == prefix;
  }

  /** An Unknown score sets the accumulator to exactly 4, whatever came before. */
  lemma {:induction false} UnknownResetsScore(prefix: seq<IndicatorScore>, u: IndicatorScore)
    requires u.indicator == Unknown
    ensures Accumulate(prefix + [u]).score == 4
    ensures Accumulate(prefix + [u]) == Accumulate(prefix).(score := 4)
  {
    AccumulateSnoc(prefix, u);
  }

  /** An Unknown score does not end the loop: a later Psychosis score still adds to it. */
  lemma UnknownDoesNotEndLoop()
    ensures Accumulate([IndicatorScore(Unknown, 0.0, 0.0), IndicatorScore(Psychosis, 0.95, 0.0)]).score == 8
  {
    var s := [IndicatorScore(Unknown, 0.0, 0.0), IndicatorScore(Psychosis, 0.95, 0.0)];
    assert s[..1] == [s[0]];
    assert [s[0]][..0] == [];
  }

  /** The cross-indicator correction: one else-if chain of bonuses, then an independent penalty. */
  function CrossCorrection(t: Tally): (d: int)
    ensures -1 <= d <= 1
    ensures d == 1 <==> t.depression && (t.senseOfSecurity || t.stress || t.anxiety)
    ensures d == -1 <==> !t.depression && !t.anxiety
  {
    var bonus :=
      if t.depression && t.senseOfSecurity then 1
      else if t.depression && t.stress then 1
      else if t.depression && t.anxiety then 1
      else 0;
    var penalty := if !t.depression && !t.anxiety then 1 else 0;
    bonus - penalty
  }

  /** The strict-mode correction. */
  function StrictCorrection(strict: bool, t: Tally): (d: int)
    ensures d in {-1, 0}
    ensures d == -1 <==> strict && t.optimism && t.depressionScore >= 0.4
  {
    if strict && t.optimism && t.depressionScore >= 0.4 then -1 else 0
  }

  /** The age correction; ages up to 20 (and so the 17..20 range) have no band. */
  function AgeCorrection(age: int, s: int): (r: int)
    ensures r <= s
    ensures age <= 20 || s < 4 ==> r == s
    ensures 20 < age < 35 && s >= 5 ==> r == s - 1
    ensures 35 <= age <= 50 && s >= 5 ==> r == s - 2
    ensures 20 < age <= 50 && s == 4 ==> r == 4
    ensures age > 50 && s >= 5 ==> r == 3
    ensures age > 50 && s == 4 ==> r == 2
  {
    if age > 20 && age < 35 then
      (if s >= 5 then s - 1 else s)
    else if age >= 35 && age <= 50 then
      (if s >= 5 then s - 2 else s)
    else if age > 50 then
      (if s >= 5 then 3 else if s >= 4 then 2 else s)
    else s
  }

  /** The accumulator after every correction, the value the classification reads. */
  function FinalScore(age: int, strict: bool, scores: seq<IndicatorScore>): int
  {
    var t := Accumulate(scores);
    AgeCorrection(age, t.score + CrossCorrection(t) + StrictCorrection(strict, t))
  }

  /** The classification of the final score; attention and reference carry over for a score of 0 or less. */
  function Classify(score: int, attention: Attention, reference: Reference): (r: (Attention, Reference))
    ensures score >= 5 ==> r == (SpecialAttention, Abnormal)
    ensures score == 4 ==> r == (FocusedAttention, reference)
    ensures 1 <= score <= 3 ==>
      r.1 == reference &&
      r.0 == (if score == 1 && reference == Normal then NoAttention else GeneralAttention)
    ensures score <= 0 ==> r == (attention, reference)
    ensures reference == Abnormal ==> r.1 == Abnormal
  {
    if score > 0 then
      if score >= 5 then (SpecialAttention, Abnormal)
      else if score >= 4 then (FocusedAttention, reference)
      else if score == 1 && reference == Normal then (NoAttention, reference)
      else (GeneralAttention, reference)
    else (attention, reference)
  }

  /** Appends a scale name unless it is present already. */
  function AddScale(scales: seq<string>, name: string): (r: seq<string>)
    ensures name in r
    ensures forall x :: x in r <==> x in scales || x == name
    ensures name in scales ==> r == scales
    ensures name !in scales ==> r == scales + [name]
  {
    if name in scales then scales else scales + [name]
  }

  /** Number of occurrences of a name in a list of scales. */
  function Occurrences(scales: seq<string>, name: string): nat
  {
    if scales == [] then 0
    else Occurrences(scales[..|scales| - 1], name) + (if scales[|scales| - 1] == name then 1 else 0)
  }

  lemma {:induction false} OccurrencesZero(scales: seq<string>, name: string)
    ensures Occurrences(scales, name) == 0 <==> name !in scales
  {
    if scales != [] {
      var init := scales[..|scales| - 1];
      OccurrencesZero(init, name);
      assert scales == init + [scales[|scales| - 1]];
    }
  }

  /** Adding a scale never creates a second copy of it. */
  lemma {:induction false} AddScaleOnce(scales: seq<string>, name: string)
    requires Occurrences(scales, name) <= 1
    ensures Occurrences(AddScale(scales, name), name) == 1
  {
    OccurrencesZero(scales, name);
    if name !in scales {
      assert (scales + [name])[..|scales|] == scales;
    }
  }

  /** The adjustment applied when the reference is Abnormal. */
  function ReferenceAdjustment(age: int, attention: Attention, reference: Reference): (r: Attention)
    ensures reference == Normal ==> r == attention
    ensures reference == Abnormal && age < 11 ==>
      r != SpecialAttention && AttentionLevel(r) <= AttentionLevel(attention) &&
      (attention in {SpecialAttention, FocusedAttention} ==> AttentionLevel(r) == AttentionLevel(attention) - 1) &&
      (attention in {NoAttention, GeneralAttention} ==> r == attention)
    ensures reference == Abnormal && age >= 11 ==>
      r != NoAttention && (attention != NoAttention ==> r == attention)
  {
    if reference == Abnormal then
      if age < 11 then
        (if attention == SpecialAttention then FocusedAttention
         else if attention == FocusedAttention then GeneralAttention
         else attention)
      else
        (if attention == NoAttention then GeneralAttention else attention)
    else attention
  }

  /** The accumulation loop of recheckAttention. */
  method TallyScores(scores: seq<IndicatorScore>) returns (t: Tally)
    ensures t == Accumulate(scores)
  {
    t := InitialTally;
    var i := 0;
    while i < |scores|
      invariant 0 <= i <= |scores|
      invariant t == Accumulate(scores[..i])
    {
      assert scores[..i + 1][..i] == scores[..i];
      t := Step(t, scores[i]);
      i := i + 1;
    }
    assert scores[..|scores|] == scores;
  }

  /** The cross, strict and age corrections of recheckAttention. */
  method CorrectScore(age: int, strict: bool, t: Tally) returns (score: int)
    ensures score == AgeCorrection(age, t.score + CrossCorrection(t) + StrictCorrection(strict, t))
  {
    score := t.score;

    if t.depression && t.senseOfSecurity {
      score := score + 1;
    } else if t.depression && t.stress {
      score := score + 1;
    } else if t.depression && t.anxiety {
      score := score + 1;
    }
    if !t.depression && !t.anxiety {
      score := score - 1;
    }
    assert score == t.score + CrossCorrection(t);

    if strict {
      if t.optimism {
        if t.depressionScore >= 0.4 {
          score := score - 1;
        }
      }
    }
    assert score == t.score + CrossCorrection(t) + StrictCorrection(strict, t);

    if age > 20 && age < 35 {
      if score >= 5 {
        score := score - 1;
      }
    } else if age >= 35 && age <= 50 {
      if score >= 5 {
        score := score - 2;
      }
    } else if age > 50 {
      if score >= 5 {
        score := 3;
      } else if score >= 4 {
        score := 2;
      }
    }
  }

  /** The outcome of the fallback attention rules for given inputs and entry state. */
  function Recheck(age: int, strict: bool, scores: seq<IndicatorScore>,
                   attention: Attention, reference: Reference, scales: seq<string>): Triage
  {
    var s := FinalScore(age, strict, scores);
    var c := Classify(s, attention, reference);
    var scales' := if s >= 4 || c.1 == Abnormal then AddScale(scales, SCL90) else scales;
    Triage(ReferenceAdjustment(age, c.0, c.1), c.1, scales')
  }

  /** The reference is only ever escalated, and only a final score of 5 or more escalates it. */
  lemma RecheckReference(age: int, strict: bool, scores: seq<IndicatorScore>,
                         attention: Attention, reference: Reference, scales: seq<string>)
    ensures var r := Recheck(age, strict, scores, attention, reference, scales);
      (reference == Abnormal ==> r.reference == Abnormal) &&
      (r.reference == Abnormal <==> reference == Abnormal || FinalScore(age, strict, scores) >= 5)
  {
  }

  /** SCL-90 is recommended iff the final score is 4 or more or the reference ends Abnormal; it is never added twice. */
  lemma RecheckScales(age: int, strict: bool, scores: seq<IndicatorScore>,
                      attention: Attention, reference: Reference, scales: seq<string>)
    requires SCL90 !in scales
    ensures var r := Recheck(age, strict, scores, attention, reference, scales);
      (SCL90 in r.scales <==> FinalScore(age, strict, scores) >= 4 || r.reference == Abnormal) &&
      Occurrences(r.scales, SCL90) <= 1 &&
      r.scales[..|scales|] == scales
  {
    var r := Recheck(age, strict, scores, attention, reference, scales);
    OccurrencesZero(scales, SCL90);
    if SCL90 in r.scales {
      AddScaleOnce(scales, SCL90);
    } else {
      OccurrencesZero(r.scales, SCL90);
    }
  }

  /** With an Abnormal reference, children under 11 never end in SpecialAttention and older subjects never in NoAttention. */
  lemma RecheckAbnormalTier(age: int, strict: bool, scores: seq<IndicatorScore>,
                            attention: Attention, reference: Reference, scales: seq<string>)
    ensures var r := Recheck(age, strict, scores, attention, reference, scales);
      r.reference == Abnormal ==>
        (age < 11 ==> r.attention != SpecialAttention) &&
        (age >= 11 ==> r.attention != NoAttention)
  {
  }

  /** The tier reached from NoAttention, as a function of the final score only. */
  function TierOf(age: int, score: int, reference: Reference): Attention
  {
    var c := Classify(score, NoAttention, reference);
    ReferenceAdjustment(age, c.0, c.1)
  }

  /**
   * For a fixed age and entry reference, the tier reached from NoAttention
   * never decreases as the final score grows.
   */
  lemma TierMonotoneInScore(age: int, s1: int, s2: int, reference: Reference)
    requires s1 <= s2
    ensures AttentionLevel(TierOf(age, s1, reference)) <= AttentionLevel(TierOf(age, s2, reference))
  {
  }

  /**
   * The age correction is not monotone: at age 40 a corrected-to-be score
   * of 4 stays Focused while 5 falls to 3, so more severe indicators can
   * give a lower tier.
   */
  lemma AgeCorrectionNotMonotone()
    ensures AgeCorrection(40, 4) == 4 && AgeCorrection(40, 5) == 3
    ensures TierOf(40, AgeCorrection(40, 4), Normal) == FocusedAttention
    ensures TierOf(40, AgeCorrection(40, 5), Normal) == GeneralAttention
  {
  }

  /** No indicators at 25, Normal reference: the penalty gives -1 and nothing changes. */
  lemma ScenarioEmpty()
    ensures FinalScore(25, false, []) == -1
    ensures Recheck(25, false, [], NoAttention, Normal, []) == Triage(NoAttention, Normal, [])
  {
  }

  /** A strong Psychosis score alone at 30: 4 minus the penalty gives GeneralAttention. */
  lemma ScenarioPsychosis()
    ensures FinalScore(30, false, [IndicatorScore(Psychosis, 0.95, 0.0)]) == 3
    ensures Recheck(30, false, [IndicatorScore(Psychosis, 0.95, 0.0)], NoAttention, Normal, [])
            == Triage(GeneralAttention, Normal, [])
  {
    var s := [IndicatorScore(Psychosis, 0.95, 0.0)];
    assert s[..0] == [];
  }

  /** Depression 1.3 and Anxiety 1.6 at 30: 3 + 2 + 1, less one for the age band, escalates. */
  lemma ScenarioDepressionAnxiety()
    ensures var s := [IndicatorScore(Depression, 1.3, 0.0), IndicatorScore(Anxiety, 1.6, 0.0)];
      FinalScore(30, false, s) == 5 &&
      Recheck(30, false, s, NoAttention, Normal, []) == Triage(SpecialAttention, Abnormal, [SCL90])
  {
    var a, b := IndicatorScore(Depression, 1.3, 0.0), IndicatorScore(Anxiety, 1.6, 0.0);
    AccumulateSnoc([], a);
    AccumulateSnoc([a], b);
    assert [] + [a] == [a] && [a] + [b] == [a, b];
    var t1 := Accumulate([a]);
    assert t1.score == 3 && t1.depression;
    var t2 := Accumulate([a, b]);
    assert t2 == Step(t1, b);
    assert t2.score == 5 && t2.depression && t2.anxiety && !t2.optimism;
    assert CrossCorrection(t2) == 1;
  }

  /** At age 10 a score of 5 escalates the reference, but the child rule lowers the tier to Focused. */
  lemma ScenarioChildEscalation()
    ensures TierOf(10, 5, Normal) == FocusedAttention
    ensures TierOf(10, 4, Normal) == FocusedAttention
    ensures TierOf(10, 3, Normal) == GeneralAttention
  {
  }

  /** The suggestion derived from the tier, the reference and the hesitating flag. */
  function SuggestionFor(attention: Attention, hesitating: bool, reference: Reference): (r: Suggestion)
    ensures attention != GeneralAttention ==> SuggestionLevel(r) == AttentionLevel(attention)
    ensures attention == GeneralAttention ==>
      r in {NoIntervention, ChattingService} &&
      (r == ChattingService <==> hesitating || reference == Abnormal)
  {
    match attention
    case NoAttention => NoIntervention
    case GeneralAttention =>
      if hesitating || reference == Abnormal then ChattingService else NoIntervention
    case FocusedAttention => PsychologicalCounseling
    case SpecialAttention => PsychiatryDepartment
  }

  /** A higher tier never yields a lesser intervention. */
  lemma SuggestionMonotone(a1: Attention, a2: Attention, hesitating: bool, reference: Reference)
    requires AttentionLevel(a1) <= AttentionLevel(a2)
    ensures SuggestionLevel(SuggestionFor(a1, hesitating, reference)) <=
            SuggestionLevel(SuggestionFor(a2, hesitating, reference))
  {
  }

  /** The hesitating rule of the report build. */
  function Hesitates(numRepresentations: nat, numScores: nat): (b: bool)
  {
    numRepresentations <= 7 || numScores <= 5
  }

  /** An evaluation report's triage state. */
  class EvaluationReport {
    const age: int
    const strict: bool
    /** The scores the accumulator yields for the subject's attribute. */
    const scores: seq<IndicatorScore>
    var attention: Attention
    var reference: Reference
    var additionScales: seq<string>
    var suggestion: Option<Suggestion>
    var hesitating: bool
    var unknown: bool

    /**
     * Builds a report: resultHasUnknown says, for each evaluation feature in
     * order, whether it carries an Unknown score.
     */
    constructor (age: int, strict: bool, reference: Reference, scores: seq<IndicatorScore>,
                 resultHasUnknown: seq<bool>, numRepresentations: nat)
      ensures this.age == age && this.strict == strict && this.scores == scores
      ensures true in resultHasUnknown ==>
        unknown && attention == NoAttention && additionScales == [SCL90] &&
        suggestion == None && this.reference == reference
      ensures true !in resultHasUnknown ==>
        !unknown &&
        hesitating == Hesitates(numRepresentations, |scores|) &&
        Triage(attention, this.reference, additionScales) ==
          Recheck(age, strict, scores, NoAttention, reference, []) &&
        suggestion == Some(SuggestionFor(attention, hesitating, this.reference))
    {
      this.age := age;
      this.strict := strict;
      this.scores := scores;
      this.attention := NoAttention;
      this.reference := reference;
      this.additionScales := [];
      this.suggestion := None;
      this.hesitating := false;
      this.unknown := false;
      new;
      Build(resultHasUnknown, numRepresentations);
    }

    /** The build step: the Unknown short-circuit, the hesitating rule, then the fallback rules. */
    method Build(resultHasUnknown: seq<bool>, numRepresentations: nat)
      modifies this
      ensures true in resultHasUnknown ==>
        unknown && attention == NoAttention && additionScales == old(additionScales) + [SCL90] &&
        suggestion == old(suggestion) && reference == old(reference) && hesitating == old(hesitating)
      ensures true !in resultHasUnknown ==>
        unknown == old(unknown) &&
        hesitating == (old(hesitating) || Hesitates(numRepresentations, |scores|)) &&
        Triage(attention, reference, additionScales) ==
          Recheck(age, strict, scores, old(attention), old(reference), old(additionScales)) &&
        suggestion == Some(SuggestionFor(attention, hesitating, reference))
    {
      var i := 0;
      while i < |resultHasUnknown|
        invariant 0 <= i <= |resultHasUnknown|
        invariant forall j :: 0 <= j < i ==> !resultHasUnknown[j]
      {
        if resultHasUnknown[i] {
          unknown := true;
          attention := NoAttention;
          additionScales := additionScales + [SCL90];
          return;
        }
        i := i + 1;
      }
      if numRepresentations <= 7 || |scores| <= 5 {
        hesitating := true;
      }
      RecheckAttention();
      RecheckSuggestion();
    }

    /** Recomputes the tier (the attention script is not modelled; this is its fallback). */
    method RollAttentionSuggestion()
      modifies this`attention, this`reference, this`additionScales, this`suggestion
      ensures Triage(attention, reference, additionScales) ==
        Recheck(age, strict, scores, old(attention), old(reference), old(additionScales))
      ensures suggestion == Some(SuggestionFor(attention, hesitating, reference))
    {
      RecheckAttention();
      RecheckSuggestion();
    }

    /** Overrides the tier and recomputes the suggestion. */
    method OverlayAttentionSuggestion(a: Attention)
      modifies this`attention, this`suggestion
      ensures attention == a
      ensures suggestion == Some(SuggestionFor(a, hesitating, reference))
    {
      attention := a;
      RecheckSuggestion();
    }

    /** The fallback attention rules. */
    method RecheckAttention()
      modifies this`attention, this`reference, this`additionScales
      ensures Triage(attention, reference, additionScales) ==
        Recheck(age, strict, scores, old(attention), old(reference), old(additionScales))
    {
      var t := TallyScores(scores);
      var score := CorrectScore(age, strict, t);
      assert score == FinalScore(age, strict, scores);
      ghost var c := Classify(score, attention, reference);

      if score > 0 {
        if score >= 5 {
          attention := SpecialAttention;
          reference := Abnormal;
        } else if score >= 4 {
          attention := FocusedAttention;
        } else {
          if score == 1 && reference == Normal {
            attention := NoAttention;
          } else {
            attention := GeneralAttention;
          }
        }
      }

      assert (attention, reference) == c;
      if score >= 4 || reference == Abnormal {
        if SCL90 !in additionScales {
          additionScales := additionScales + [SCL90];
        }
      }

      if reference == Abnormal {
        if age < 11 {
          if attention == SpecialAttention {
            attention := FocusedAttention;
          } else if attention == FocusedAttention {
            attention := GeneralAttention;
          }
        } else {
          if attention == NoAttention {
            attention := GeneralAttention;
          }
        }
      }
    }

    /** The fallback suggestion rule. */
    method RecheckSuggestion()
      modifies this`suggestion
      ensures suggestion == Some(SuggestionFor(attention, hesitating, reference))
    {
      var s := NoIntervention;
      match attention {
        case NoAttention =>
        case GeneralAttention =>
          if hesitating || reference == Abnormal {
            s := ChattingService;
          }
        case FocusedAttention =>
          s := PsychologicalCounseling;
        case SpecialAttention =>
          s := PsychiatryDepartment;
      }
      suggestion := Some(s);
    }
  }

  /** A representation as the ordering by evaluation score sees it. */
  datatype Representation = Representation(term: nat, matchesIndicator: bool, isIdealization: bool)

  /** The representations whose term matches an indicator, in order. */
  function Matching(list: seq<Representation>): (r: seq<Representation>)
    ensures |r| <= |list|
    ensures forall x :: x in r <==> x in list && x.matchesIndicator
  {
    if list == [] then []
    else Matching(list[..|list| - 1]) + (if list[|list| - 1].matchesIndicator then [list[|list| - 1]] else [])
  }

  /** The position of the first Idealization from i on, or the length. */
  function FirstIdealizationFrom(s: seq<Representation>, i: nat): (k: nat)
    requires i <= |s|
    ensures i <= k <= |s|
    decreases |s| - i
  {
    if i == |s| then i
    else if s[i].isIdealization then i
    else FirstIdealizationFrom(s, i + 1)
  }

  /** The position of the first Idealization, or the length when there is none. */
  function FirstIdealization(s: seq<Representation>): nat
  {
    FirstIdealizationFrom(s, 0)
  }

  /** The last loop: the first Idealization, if any, moved to the end. */
  function IdealLast(s: seq<Representation>): seq<Representation>
  {
    var k := FirstIdealizationFrom(s, 0);
    if k == |s| then s else s[..k] + s[k + 1..] + [s[k]]
  }

  /**
   * The padding loop from position j on: each representation not yet held
   * is appended, and the loop stops once topNum are held.
   */
  function PadFrom(list: seq<Representation>, j: nat, acc: seq<Representation>, topNum: int): seq<Representation>
    requires j <= |list|
    decreases |list| - j
  {
    if j == |list| then acc
    else if list[j] in acc then PadFrom(list, j + 1, acc, topNum)
    else if |acc| + 1 >= topNum then acc + [list[j]]
    else PadFrom(list, j + 1, acc + [list[j]], topNum)
  }

  /**
   * The value the source returns: exactly topNum matches as they are,
   * otherwise the matches truncated to their first topNum or padded with the
   * others, then the first Idealization moved last.
   */
  function ByEvaluationScore(list: seq<Representation>, topNum: int): seq<Representation>
    requires topNum >= 0
  {
    var m := Matching(list);
    if |m| == topNum then m
    else if |m| > topNum then IdealLast(m[..topNum])
    else IdealLast(PadFrom(list, 0, m, topNum))
  }

  /** The first Idealization is found where the scan first meets one. */
  lemma {:induction false} FirstIdealizationAt(s: seq<Representation>, i: nat, k: nat)
    requires i <= k <= |s|
    requires forall m :: i <= m < k ==> !s[m].isIdealization
    requires k < |s| ==> s[k].isIdealization
    ensures FirstIdealizationFrom(s, i) == k
    decreases k - i
  {
    if i < k {
      FirstIdealizationAt(s, i + 1, k);
    }
  }

  /** Moving the Idealization keeps the length and the members, and puts it last. */
  lemma IdealLastMeaning(s: seq<Representation>)
    ensures |IdealLast(s)| == |s|
    ensures forall x :: x in IdealLast(s) <==> x in s
    ensures (exists x :: x in s && x.isIdealization) ==> IdealLast(s)[|s| - 1].isIdealization
  {
    var k := FirstIdealizationFrom(s, 0);
    if k == |s| {
      assert forall x :: x in s ==> !x.isIdealization by {
        forall x | x in s ensures !x.isIdealization {
          var m :| 0 <= m < |s| && s[m] == x;
          FirstIdealizationNone(s, 0, m);
        }
      }
    } else {
      FirstIdealizationHit(s, 0);
      var r := IdealLast(s);
      assert forall x :: x in s ==> x in r by {
        forall x | x in s ensures x in r {
          var m :| 0 <= m < |s| && s[m] == x;
          if m < k { assert r[m] == x; }
          else if m == k { assert r[|r| - 1] == x; }
          else { assert r[m - 1] == x; }
        }
      }
    }
  }

  /** When the scan reaches the end, no Idealization lies between i and the end. */
  lemma {:induction false} FirstIdealizationNone(s: seq<Representation>, i: nat, m: nat)
    requires i <= m < |s|
    requires FirstIdealizationFrom(s, i) == |s|
    ensures !s[m].isIdealization
    decreases m - i
  {
    if i < m {
      FirstIdealizationNone(s, i + 1, m);
    }
  }

  /** When the scan stops before the end, it stops at an Idealization. */
  lemma {:induction false} FirstIdealizationHit(s: seq<Representation>, i: nat)
    requires i <= |s|
    requires FirstIdealizationFrom(s, i) < |s|
    ensures s[FirstIdealizationFrom(s, i)].isIdealization
    decreases |s| - i
  {
    if !s[i].isIdealization {
      FirstIdealizationHit(s, i + 1);
    }
  }

  /**
   * Padding keeps what was held as a prefix, appends only listed
   * representations not held before (so none twice), and ends at topNum or
   * with every representation from j on held.
   */
  lemma {:induction false} PadFromMeaning(list: seq<Representation>, j: nat, acc: seq<Representation>, topNum: int)
    requires j <= |list|
    requires |acc| < topNum
    ensures var r := PadFrom(list, j, acc, topNum);
      && |acc| <= |r| <= topNum
      && r[..|acc|] == acc
      && (forall i :: |acc| <= i < |r| ==> r[i] in list[j..] && r[i] !in r[..i])
      && (|r| == topNum || forall k :: j <= k < |list| ==> list[k] in r)
    decreases |list| - j
  {
    var r := PadFrom(list, j, acc, topNum);
    if j == |list| {
    } else if list[j] in acc {
      PadFromMeaning(list, j + 1, acc, topNum);
      InTail(list, j);
    } else if |acc| + 1 >= topNum {
      assert r == acc + [list[j]];
      assert r[..|acc|] == acc;
      assert r[|acc|] == list[j] && r[..|acc|] == acc;
      assert list[j] in list[j..];
    } else {
      var acc2 := acc + [list[j]];
      PadFromMeaning(list, j + 1, acc2, topNum);
      InTail(list, j);
      assert r[..|acc2|] == acc2;
      assert r[..|acc|] == acc2[..|acc|] == acc;
      assert r[|acc|] == list[j];
      assert r[..|acc|] == acc;
      assert list[j] in list[j..];
      assert list[j] in r;
    }
  }

  /** A representation after position j is one from j on. */
  lemma InTail(list: seq<Representation>, j: nat)
    requires j < |list|
    ensures forall x :: x in list[j + 1..] ==> x in list[j..]
  {
    assert list[j + 1..] == list[j..][1..];
  }

  /**
   * The representations ordered against the evaluation scores: the matching
   * ones, padded with the others or truncated to topNum, with the first
   * Idealization moved last (not when exactly topNum matched).
   */
  method RepresentationsByEvaluationScore(list: seq<Representation>, topNum: int)
    returns (result: seq<Representation>)
    requires topNum >= 0
    ensures result == ByEvaluationScore(list, topNum)
  {
    result := CollectMatching(list);
    if |result| == topNum {
      return;
    }
    if |result| < topNum {
      result := PadWithOthers(list, result, topNum);
    } else {
      result := Truncate(result, topNum);
    }
    result := IdealizationLast(result);
  }

  /**
   * What the ordering promises: only listed representations, at most topNum;
   * exactly topNum matches returned as they are; more matches cut to their
   * first topNum; fewer kept in front and padded with representations not
   * held before, up to topNum or until the list runs out; outside the exact
   * case a selected Idealization comes last.
   */
  lemma ByEvaluationScoreMeaning(list: seq<Representation>, topNum: int)
    requires topNum >= 0
    ensures forall x :: x in ByEvaluationScore(list, topNum) ==> x in list
    ensures |ByEvaluationScore(list, topNum)| <= topNum
    ensures |Matching(list)| == topNum ==> ByEvaluationScore(list, topNum) == Matching(list)
    ensures |Matching(list)| > topNum ==>
      |ByEvaluationScore(list, topNum)| == topNum &&
      forall x :: x in ByEvaluationScore(list, topNum) <==> x in Matching(list)[..topNum]
    ensures |Matching(list)| < topNum ==>
      (forall x :: x in Matching(list) ==> x in ByEvaluationScore(list, topNum)) &&
      (|ByEvaluationScore(list, topNum)| == topNum || forall x :: x in list ==> x in ByEvaluationScore(list, topNum))
    ensures |Matching(list)| != topNum && (exists x :: x in ByEvaluationScore(list, topNum) && x.isIdealization) ==>
      ByEvaluationScore(list, topNum)[|ByEvaluationScore(list, topNum)| - 1].isIdealization
  {
    var m := Matching(list);
    if |m| > topNum {
      IdealLastMeaning(m[..topNum]);
      assert forall x :: x in m[..topNum] ==> x in m;
    } else if |m| < topNum {
      PaddedMeaning(list, m, topNum);
      IdealLastMeaning(PadFrom(list, 0, m, topNum));
    }
  }

  /** Padding from the start keeps the held ones, adds only listed ones, and stops at topNum or at the end. */
  lemma PaddedMeaning(list: seq<Representation>, m: seq<Representation>, topNum: int)
    requires |m| < topNum
    requires forall x :: x in m ==> x in list
    ensures forall x :: x in m ==> x in PadFrom(list, 0, m, topNum)
    ensures forall x :: x in PadFrom(list, 0, m, topNum) ==> x in list
    ensures |PadFrom(list, 0, m, topNum)| <= topNum
    ensures |PadFrom(list, 0, m, topNum)| == topNum || forall x :: x in list ==> x in PadFrom(list, 0, m, topNum)
  {
    var p := PadFrom(list, 0, m, topNum);
    PadFromMeaning(list, 0, m, topNum);
    assert forall x :: x in m ==> x in p by {
      forall x | x in m ensures x in p {
        assert x in p[..|m|];
      }
    }
    assert list[0..] == list;
    assert forall x :: x in p ==> x in list by {
      forall x | x in p ensures x in list {
        var i :| 0 <= i < |p| && p[i] == x;
        if i < |m| { assert p[..|m|][i] == x; }
      }
    }
  }

  /** The first loop: the matching representations, in order. */
  method CollectMatching(list: seq<Representation>) returns (result: seq<Representation>)
    ensures result == Matching(list)
  {
    result := [];
    var i := 0;
    while i < |list|
      invariant 0 <= i <= |list|
      invariant result == Matching(list[..i])
    {
      assert list[..i + 1][..i] == list[..i];
      if list[i].matchesIndicator {
        result := result + [list[i]];
      }
      i := i + 1;
    }
    assert list[..|list|] == list;
  }

  /** Padding: the other representations are appended in order until topNum are held. */
  method PadWithOthers(list: seq<Representation>, matched: seq<Representation>, topNum: int)
    returns (result: seq<Representation>)
    requires |matched| < topNum
    ensures result == PadFrom(list, 0, matched, topNum)
  {
    result := matched;
    var j := 0;
    while j < |list|
      invariant 0 <= j <= |list|
      invariant |result| < topNum
      invariant PadFrom(list, j, result, topNum) == PadFrom(list, 0, matched, topNum)
    {
      if list[j] !in result {
        result := result + [list[j]];
        if |result| >= topNum {
          return;
        }
      }
      j := j + 1;
    }
  }

  /** Truncation: the last representations are dropped until topNum are left. */
  method Truncate(matched: seq<Representation>, topNum: int) returns (result: seq<Representation>)
    requires 0 <= topNum <= |matched|
    ensures result == matched[..topNum]
  {
    result := matched;
    while |result| > topNum
      invariant topNum <= |result| <= |matched|
      invariant result == matched[..|result|]
    {
      result := result[..|result| - 1];
    }
  }

  /** The first Idealization, if any, is moved to the end; the rest keep their order. */
  method IdealizationLast(before: seq<Representation>) returns (result: seq<Representation>)
    ensures result == IdealLast(before)
  {
    result := before;
    var k := 0;
    while k < |result|
      invariant 0 <= k <= |result|
      invariant result == before
      invariant forall m :: 0 <= m < k ==> !result[m].isIdealization
    {
      if result[k].isIdealization {
        FirstIdealizationAt(before, 0, k);
        result := result[..k] + result[k + 1..] + [result[k]];
        return;
      }
      k := k + 1;
    }
    FirstIdealizationAt(before, 0, k);
  }
}
