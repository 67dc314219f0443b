/**
 * Enumerations shared by the psychology components: indicators, rates,
 * attention tiers, references and suggestions. Their Java classes are not
 * part of this model; only the constants the modelled code names appear here.
 */
module PsychologyTypes {

  datatype Option<T> = None | Some(value: T)

  /** A psychological indicator (the constants the modelled code refers to). */
  datatype Indicator =
    | Psychosis | SocialAdaptability | Depression | SenseOfSecurity | Stress
    | Anxiety | Obsession | Optimism | Pessimism | Unknown
    | InterpersonalRelation | Family | Confidence | SelfConsciousness | Mood
    | Creativity | Idealism | Extroversion | Introversion | AchievementMotivation
    | Realism | Independence | DesireForFreedom | Thought | Paranoid
    | SelfEsteem | Meekness | Hostile | Aggression | Struggle | Simple
    | Narcissism | MoralSense | EvaluationFromOutside | SelfControl
    | Repression | Impulsion | LogicalThinking | SecureAttachment
    | AnxiousPreoccupiedAttachment | DismissiveAvoidantAttachment
    | DisorganizedAttachment

  /** The rating of one indicator score. */
  datatype IndicatorRate = NoRate | Lowest | Low | Medium | High | Highest

  /** Ordinal of a rate, NoRate lowest; used to state monotonicity. */
  function RateRank(r: IndicatorRate): nat
  {
    match r
    case NoRate => 0
    case Lowest => 1
    case Low => 2
    case Medium => 3
    case High => 4
    case Highest => 5
  }

  /** The follow-up tier, ordered by urgency. */
  datatype Attention = NoAttention | GeneralAttention | FocusedAttention | SpecialAttention

  function AttentionLevel(a: Attention): nat
  {
    match a
    case NoAttention => 0
    case GeneralAttention => 1
    case FocusedAttention => 2
    case SpecialAttention => 3
  }

  /** The a-priori classification of a painting. */
  datatype Reference = Normal | Abnormal

  /** The recommended intervention, ordered by intensity. */
  datatype Suggestion = NoIntervention | ChattingService | PsychologicalCounseling | PsychiatryDepartment

  function SuggestionLevel(s: Suggestion): nat
  {
    match s
    case NoIntervention => 0
    case ChattingService => 1
    case PsychologicalCounseling => 2
    case PsychiatryDepartment => 3
  }
}
