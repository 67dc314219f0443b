# cube-server psychology and messaging core, modelled in Dafny

This project models, in Dafny, the core of the Cube server. It covers the
psychology painting evaluation pipeline: scores and indicators, attention
and suggestion tiers, the Big Five personality feature, the House-Tree-Person
evaluation of painted objects, the painting itself, the drawing categories
and the painting feature vector written as CSV. Around that pipeline it
models the services that build on it:

- the report dataset used for training;
- the prompt content tools and the query revolver;
- the conversation worker and the questionnaire subtask;
- the counselling manager and the psychology scene's report queue;
- the knowledge base;
- the selection of AIGC units;
- the messaging service's push plan and conversation state;
- the ferry service's role check;
- the dispatcher's performer, which lays directors out over sections;
- the text helpers in TextUtils.

Each source file becomes one module (`EvaluationReportModel`,
`HTPEvaluationModel`, `MessagingServiceModel`, …). Two shared modules hold
common types and string helpers: `PsychologyTypes` (Option, Indicator,
Attention, Reference, Suggestion) and `Strings`. Java objects whose fields
change in place are classes:

- the counselling manager;
- the psychology scene;
- the knowledge base and its resources;
- the AIGC service;
- the messaging service;
- the performer;
- the questionnaire's scale track.

Their methods carry `modifies` clauses and state the new value of the
fields they change. The painting is a class too; its build methods state
the new container list through the function `Attached`, including the
container's refreshed area. The questionnaire's `Execute` states the
outcome case by case for each kind of round, and every round that
finishes the scale runs `ProcessFinish`, the finishing callback.
Loops in the source are `while` or `for` loops proved against a
specification function. Pure computations are functions, and lemmas state
what the source promises about them.

Inputs that come from code outside the model are parameters of the members
that need them:

- the clock, random draws, language-model replies and number formatting;
- keyword lists and which characters count as Chinese;
- collision areas of painted shapes.

Integer arithmetic is unbounded unless the source's overflow matters. Where
it does, the overflow is either written out or listed below.

The attention tier (`EvaluationReport.recheckAttention`) follows the code.
The code has no symptom factor set, no projection score and no rollback
state. Its age rules are:

- the child rule applies below age 11;
- the depression flag is set above 0.01 and the security flag above 0.6;
- from age 11 on, an abnormal reference turns "no attention" into
  "general attention" unconditionally;
- there is no clamp of the score at 4.

`DrawingSet` models the 64 categories that the code's switch and fields
list.

## Model

| member | source | states |
|---|---|---|
| EvaluationReportModel.Step | common/src/cube/aigc/psychology/EvaluationReport.java:364-484 | each indicator's score moves the accumulator only by one of that indicator's deltas (Psychosis 0/+2/+3/+4, Depression -1..+3, Anxiety -1..+2, Optimism -1 or 0, Unknown sets 4 and so on), and whether it rises or falls at all is tied to the indicator's first threshold; each flag is set exactly past its threshold (depression above 0.01, security above 0.6 and so on); every other field and every other indicator leaves the tally unchanged. Which band gives which delta is in the body only |
| EvaluationReportModel.AccumulateSnoc | common/src/cube/aigc/psychology/EvaluationReport.java:364-484 | the accumulation loop visits the scores in order, one step per score |
| EvaluationReportModel.UnknownResetsScore | common/src/cube/aigc/psychology/EvaluationReport.java:475-478 | an Unknown score sets the accumulator to exactly 4 and keeps every flag |
| EvaluationReportModel.UnknownDoesNotEndLoop | common/src/cube/aigc/psychology/EvaluationReport.java:475-478 | the loop goes on after an Unknown score: a following strong Psychosis score brings the accumulator to 8 |
| EvaluationReportModel.CrossCorrection | common/src/cube/aigc/psychology/EvaluationReport.java:487-503 | the cross-indicator correction is +1 exactly when depression comes with insecurity, stress or anxiety, and -1 exactly when neither depression nor anxiety was flagged |
| EvaluationReportModel.StrictCorrection | common/src/cube/aigc/psychology/EvaluationReport.java:515-522 | strict mode subtracts one exactly when optimism was flagged and the depression score is at least 0.4 |
| EvaluationReportModel.AgeCorrection | common/src/cube/aigc/psychology/EvaluationReport.java:525-544 | the age correction never raises the score; it leaves ages up to 20 and scores below 4 alone, takes one from 5 and above for 21..34 and two for 35..50 while keeping 4 there, and over 50 maps 5 and above to 3 and 4 to 2 |
| EvaluationReportModel.Classify | common/src/cube/aigc/psychology/EvaluationReport.java:546-565 | 5 and above is SpecialAttention with an Abnormal reference; 4 is FocusedAttention; 1..3 is GeneralAttention except 1 with a Normal reference (NoAttention); 0 and below keep the entry tier; an Abnormal reference stays Abnormal |
| EvaluationReportModel.AddScale | common/src/cube/aigc/psychology/EvaluationReport.java:567-572 | the scale is present afterwards, appended only when it was missing |
| EvaluationReportModel.OccurrencesZero | common/src/cube/aigc/psychology/EvaluationReport.java:567-572 | a scale occurs zero times exactly when it is absent |
| EvaluationReportModel.AddScaleOnce | common/src/cube/aigc/psychology/EvaluationReport.java:567-572 | the contains check never lets SCL-90 be listed twice |
| EvaluationReportModel.ReferenceAdjustment | common/src/cube/aigc/psychology/EvaluationReport.java:574-593 | with an Abnormal reference, children under 11 lose one tier from Special or Focused and never end in SpecialAttention; older subjects never stay at NoAttention; a Normal reference changes nothing |
| EvaluationReportModel.RecheckReference | common/src/cube/aigc/psychology/EvaluationReport.java:546-565 | the reference is only ever escalated, and is Abnormal afterwards exactly when it was or the final score is 5 or more |
| EvaluationReportModel.RecheckScales | common/src/cube/aigc/psychology/EvaluationReport.java:567-572 | SCL-90 is recommended exactly when the final score is 4 or more or the reference ends Abnormal, at most once, and earlier scales stay in front |
| EvaluationReportModel.RecheckAbnormalTier | common/src/cube/aigc/psychology/EvaluationReport.java:574-593 | an Abnormal outcome puts a child under 11 below SpecialAttention and an older subject above NoAttention |
| EvaluationReportModel.TierMonotoneInScore | common/src/cube/aigc/psychology/EvaluationReport.java:546-593 | for a fixed age and entry reference, a higher final score never gives a lower tier |
| EvaluationReportModel.AgeCorrectionNotMonotone | common/src/cube/aigc/psychology/EvaluationReport.java:525-565 | at age 40 a raw score of 4 gives FocusedAttention while 5 is corrected to 3 and gives GeneralAttention, so the age correction makes the rules non-monotone in the raw score |
| EvaluationReportModel.ScenarioEmpty | common/src/cube/aigc/psychology/EvaluationReport.java:347-595 | no scores at age 25: the penalty makes the final score -1 and the entry state stays |
| EvaluationReportModel.ScenarioPsychosis | common/src/cube/aigc/psychology/EvaluationReport.java:347-595 | one strong Psychosis score at age 30 gives a final score of 3 and GeneralAttention |
| EvaluationReportModel.ScenarioDepressionAnxiety | common/src/cube/aigc/psychology/EvaluationReport.java:347-595 | strong depression and anxiety at age 30 give 5: SpecialAttention, Abnormal, SCL-90 recommended |
| EvaluationReportModel.ScenarioChildEscalation | common/src/cube/aigc/psychology/EvaluationReport.java:546-593 | at age 10 scores 5 and 4 both end FocusedAttention, and 3 ends GeneralAttention |
| EvaluationReportModel.SuggestionFor | common/src/cube/aigc/psychology/EvaluationReport.java:636-655 | every tier but GeneralAttention maps to the intervention of its own level; GeneralAttention gives the chatting service exactly when the report hesitates or the reference is Abnormal |
| EvaluationReportModel.SuggestionMonotone | common/src/cube/aigc/psychology/EvaluationReport.java:636-655 | a higher tier never yields a lesser intervention |
| EvaluationReportModel.EvaluationReport.constructor | common/src/cube/aigc/psychology/EvaluationReport.java:72-84 | a new report carries the age, the strictness and the scores and has been built from its features |
| EvaluationReportModel.EvaluationReport.Build | common/src/cube/aigc/psychology/EvaluationReport.java:195-265 | any feature with an Unknown score makes the report unknown with NoAttention and SCL-90 added, and stops; otherwise hesitating is set by the representation and score counts and the fallback attention and suggestion rules run |
| EvaluationReportModel.EvaluationReport.RollAttentionSuggestion | common/src/cube/aigc/psychology/EvaluationReport.java:270-278 | the tier, reference and scales become the outcome of the fallback rules and the suggestion follows them |
| EvaluationReportModel.EvaluationReport.OverlayAttentionSuggestion | common/src/cube/aigc/psychology/EvaluationReport.java:285-291 | the tier is overridden and the suggestion follows it |
| EvaluationReportModel.EvaluationReport.RecheckAttention | common/src/cube/aigc/psychology/EvaluationReport.java:347-595 | the tier, reference and scales become exactly the outcome of the fallback rules |
| EvaluationReportModel.EvaluationReport.RecheckSuggestion | common/src/cube/aigc/psychology/EvaluationReport.java:636-655 | the suggestion becomes the one its tier, hesitation and reference give |
| EvaluationReportModel.Matching | common/src/cube/aigc/psychology/EvaluationReport.java:680-687 | the first loop keeps exactly the representations whose term matches an indicator, in order |
| EvaluationReportModel.RepresentationsByEvaluationScore | common/src/cube/aigc/psychology/EvaluationReport.java:679-722 | the loops compute ByEvaluationScore: exactly topNum matches as they are, otherwise IdealLast of the first topNum matches, or of the matches padded by PadFrom |
| EvaluationReportModel.ByEvaluationScoreMeaning | common/src/cube/aigc/psychology/EvaluationReport.java:679-722 | the result holds only listed representations, at most topNum of them; exactly topNum matches are returned as they are; with more, the result has topNum elements, which are the first topNum matches; with fewer, every match is kept and the others pad it up to topNum or until the list runs out; outside the exact case a selected Idealization comes last |
| EvaluationReportModel.PadFromMeaning | common/src/cube/aigc/psychology/EvaluationReport.java:695-704 | padding keeps what was held as a prefix, appends only listed representations that were not held before, so none twice, and stops at topNum or once every later representation is held |
| EvaluationReportModel.PaddedMeaning | common/src/cube/aigc/psychology/EvaluationReport.java:695-704 | padding from the start keeps every match, adds only listed representations, and ends at topNum or with the whole list held |
| EvaluationReportModel.IdealLastMeaning | common/src/cube/aigc/psychology/EvaluationReport.java:711-717 | moving the first Idealization keeps the length and the members, and puts an Idealization last whenever there is one |
| EvaluationScoreModel.InitialState | common/src/cube/aigc/psychology/composition/EvaluationScore.java:46-61 | one score: hit is 1; a positive value sets the positive score to value times weight and records them; a negative value does the same on the negative side with its absolute value; zero scores nothing |
| EvaluationScoreModel.ScoringStep | common/src/cube/aigc/psychology/composition/EvaluationScore.java:96-121 | one scoring call adds one hit and the value; a positive value adds the absolute weighted value to the positive score and a negative one the weighted magnitude to the negative score; the recorded heaviest positive or negative score changes only for a strictly greater weight; zero changes only the hit count |
| EvaluationScoreModel.ScoringTracksHeaviestPositive | common/src/cube/aigc/psychology/composition/EvaluationScore.java:96-121 | from an empty score, hit counts the calls and the recorded positive value and weight are those of the first positive score of strictly greatest weight, no positive weight exceeding it |
| EvaluationScoreModel.ScoringTracksHeaviestNegative | common/src/cube/aigc/psychology/composition/EvaluationScore.java:96-121 | the same on the negative side: the first negative score of strictly greatest weight |
| EvaluationScoreModel.Banded | common/src/cube/aigc/psychology/composition/EvaluationScore.java:466-505 | the shared Low/Medium/High bands: High exactly above high, Medium exactly in (mid, high], Low exactly from low (inclusive or not) to mid |
| EvaluationScoreModel.Rate | common/src/cube/aigc/psychology/composition/EvaluationScore.java:441-750 | the rate tables: the indicators without a case have no rate, InterpersonalRelation always has one, and Depression is rated by the under-18 and adult thresholds |
| EvaluationScoreModel.RateBands | common/src/cube/aigc/psychology/composition/EvaluationScore.java:466-506 | Anxiety and Obsession are rated by their under-18 and adult thresholds, with the lower bound of Low inclusive |
| EvaluationScoreModel.RateMonotone | common/src/cube/aigc/psychology/composition/EvaluationScore.java:446-505 | the Depression, Anxiety and Obsession rates never fall as the score rises, at any age |
| EvaluationScoreModel.BandedMonotone | common/src/cube/aigc/psychology/composition/EvaluationScore.java:466-505 | the shared banding never falls as the score rises |
| EvaluationScoreModel.EvaluationScore.constructor | common/src/cube/aigc/psychology/composition/EvaluationScore.java:46-61 | a new score from one value carries the initial state and is rated by the tables for the given age |
| EvaluationScoreModel.EvaluationScore.Empty | common/src/cube/aigc/psychology/composition/EvaluationScore.java:42-44 | an empty score for an indicator has scored nothing and has no rate |
| EvaluationScoreModel.EvaluationScore.CalcScoreReLU | common/src/cube/aigc/psychology/composition/EvaluationScore.java:88-94 | the score clipped below at zero: the difference when non-negative, else 0 |
| EvaluationScoreModel.EvaluationScore.Scoring | common/src/cube/aigc/psychology/composition/EvaluationScore.java:96-121 | the state becomes one scoring step of the old state; the rate is kept |
| EvaluationScoreModel.EvaluationScore.GetIndicatorRate | common/src/cube/aigc/psychology/composition/EvaluationScore.java:441-750 | the rate is computed from the tables for the difference and the age, and stored |
| EvaluationScoreModel.EvaluationScore.GetRate | common/src/cube/aigc/psychology/composition/EvaluationScore.java:77-82 | a stored rate is returned unchanged; otherwise it is computed and stored |
| EvaluationScoreModel.EvaluationScore.ReportPrompt | common/src/cube/aigc/psychology/composition/EvaluationScore.java:123-136 | no prompt exactly when nothing was scored, both scores are zero or the word is empty; the Chinese prompt starts with the word |
| EvaluationScoreModel.EvaluationScore.Equals | common/src/cube/aigc/psychology/composition/EvaluationScore.java:753-766 | two scores are equal exactly when they are for the same indicator |
| BigFiveFeatureModel.ApproximateDim | common/src/cube/aigc/psychology/algorithm/BigFiveFeature.java:633-647 | a dimension is near exactly when template and input are both at least HighScore or both at most LowScore; the delta is template minus input; the tendency is -1 exactly for input below 5.5 against a template below 4.5, and +1 exactly for input from 5.5 against a template above 6.5 |
| BigFiveFeatureModel.CalcApproximate | common/src/cube/aigc/psychology/algorithm/BigFiveFeature.java:625-698 | a feature without a template gives nothing; otherwise each of the four dimensions is compared with its own score |
| BigFiveFeatureModel.NumNear | common/src/cube/aigc/psychology/algorithm/BigFiveFeature.java:1058-1073 | the near count is 0..4, 4 exactly when every dimension is near and 0 exactly when none is |
| BigFiveFeatureModel.NumTendency | common/src/cube/aigc/psychology/algorithm/BigFiveFeature.java:1075-1090 | the tendency count is 0..4, 4 exactly when every dimension has a tendency and 0 exactly when none has |
| BigFiveFeatureModel.ApproximateAll | common/src/cube/aigc/psychology/algorithm/BigFiveFeature.java:361-366 | one comparison per template, in template order |
| BigFiveFeatureModel.FullMatchUnique | common/src/cube/aigc/psychology/algorithm/BigFiveFeature.java:376-393 | no two of the 17 templates can both be near on all four dimensions, so which four-near index the loop keeps last does not matter |
| BigFiveFeatureModel.ExtractIndex | common/src/cube/aigc/psychology/algorithm/BigFiveFeature.java:435-458 | the loop computes ByDelta; among the listed templates, the one holding the least absolute delta of a dimension that is not near, earliest on ties; -1 exactly when no listed template has a dimension that is not near |
| BigFiveFeatureModel.ExtractIndexByTrend | common/src/cube/aigc/psychology/algorithm/BigFiveFeature.java:460-491 | the loops compute ByTrend: the listed template with the most tendencies, earliest on ties |
| BigFiveFeatureModel.ExtractIndexByTrendAcc | common/src/cube/aigc/psychology/algorithm/BigFiveFeature.java:493-536 | the loops compute ByTrendAcc: the first template with four tendencies if any; otherwise the one with the least summed absolute delta over its dimensions without tendency, earliest on ties |
| BigFiveFeatureModel.Correct | common/src/cube/aigc/psychology/algorithm/BigFiveFeature.java:416-429 | Generalist, Adapter and Expert are re-chosen by the scores: Generalist only when all four are at least 7, Adapter only when all are at least 4.5 but not all 7, Expert only when some score is below 4.5; other profiles stay |
| BigFiveFeatureModel.ApproximateEach | common/src/cube/aigc/psychology/algorithm/BigFiveFeature.java:361-366 | the comparison loop computes the comparisons with every template |
| BigFiveFeatureModel.GroupByNear | common/src/cube/aigc/psychology/algorithm/BigFiveFeature.java:368-389 | the grouping loop gives LastFullNear and the IndicesWith lists for three, two and one near values |
| BigFiveFeatureModel.IndicesWithMeaning | common/src/cube/aigc/psychology/algorithm/BigFiveFeature.java:368-389 | each group holds exactly the templates with that many near values, each once, in ascending order |
| BigFiveFeatureModel.LastFullNearMeaning | common/src/cube/aigc/psychology/algorithm/BigFiveFeature.java:368-389 | the four-near index is the last template with four near values, or -1 when there is none |
| BigFiveFeatureModel.Choose | common/src/cube/aigc/psychology/algorithm/BigFiveFeature.java:391-410 | the branch order of the cascade computes Cascade, and every branch yields a template, so the guess is never needed |
| BigFiveFeatureModel.Build | common/src/cube/aigc/psychology/algorithm/BigFiveFeature.java:338-433 | the chosen profile is Correct applied to the Cascade index of the comparisons: the four-near template, else the delta choice among the three-near ones, else the trend choice among the two-near, then the one-near ones, else the accumulated choice; the Generalist/Adapter/Expert choice agrees with the score thresholds |
| BigFiveFeatureModel.Match | common/src/cube/aigc/psychology/algorithm/BigFiveFeature.java:914-941 | the first template whose name or display name equals the text ignoring case, none exactly when no template is so named |
| PaintingTypes.CategoryOf | common/src/cube/aigc/psychology/material/other/DrawingSet.java:167-552 | a thing is filed under a category exactly when it is one of the 64 "other" drawing kinds |
| PaintingTypes.LastOfAscendingSort | common/src/cube/aigc/psychology/Painting.java:630-642 | the scan computes LastMax; the last element after a stable ascending sort by key holds a greatest key, and every later position has a strictly smaller key (the later of equal keys wins) |
| DrawingSetModel.Added | common/src/cube/aigc/psychology/material/other/DrawingSet.java:167-552 | adding a thing appends it to the list of its category, creating that list on first use; a thing outside the categories changes nothing; no list is ever empty |
| DrawingSetModel.AddedAllSnoc | common/src/cube/aigc/psychology/material/other/DrawingSet.java:154-165 | adding several things is adding them one after another |
| DrawingSetModel.MatchingSnoc | common/src/cube/aigc/psychology/material/other/DrawingSet.java:167-552 | the things of one category among a list grow only by things of that category |
| DrawingSetModel.ListOfAddedAll | common/src/cube/aigc/psychology/material/other/DrawingSet.java:167-552 | after any adds, a category's list is what it held plus the added things of that category, in order, and no list is empty |
| DrawingSetModel.First | common/src/cube/aigc/psychology/material/other/DrawingSet.java:554-688 | get gives the first thing of the label's list, nothing for a missing list or a label outside the categories |
| DrawingSetModel.CopyOf | common/src/cube/aigc/psychology/material/other/DrawingSet.java:889-1088 | getList gives a copy of the label's list (empty when absent), nothing for a label outside the categories |
| DrawingSetModel.FirstIsFirstAdded | common/src/cube/aigc/psychology/material/other/DrawingSet.java:554-688 | the first thing ever added to a category is what get returns for it |
| DrawingSetModel.MatchingPrefix | common/src/cube/aigc/psychology/material/other/DrawingSet.java:167-552 | the first thing of a category among the added things heads that category's matches |
| DrawingSetModel.HasIffAdded | common/src/cube/aigc/psychology/material/other/DrawingSet.java:1090-1224 | has holds for a category exactly when some thing of it was added |
| DrawingSetModel.AllUpToAdded | common/src/cube/aigc/psychology/material/other/DrawingSet.java:690-887 | one add lengthens the lists of the categories below n by one exactly when the thing falls in them |
| DrawingSetModel.AllOfCountsAccepted | common/src/cube/aigc/psychology/material/other/DrawingSet.java:690-887 | getAll returns exactly as many things as were accepted by add |
| DrawingSetModel.DrawingSet.constructor | common/src/cube/aigc/psychology/material/other/DrawingSet.java:151-152 | a new set has no lists |
| DrawingSetModel.DrawingSet.FromJson | common/src/cube/aigc/psychology/material/other/DrawingSet.java:154-165 | the set built from an array holds the recognised elements added in array order, unrecognised ones skipped |
| DrawingSetModel.DrawingSet.Add | common/src/cube/aigc/psychology/material/other/DrawingSet.java:167-552 | add appends the thing to its category's list, creating the list on first use |
| DrawingSetModel.DrawingSet.GetAll | common/src/cube/aigc/psychology/material/other/DrawingSet.java:690-887 | getAll concatenates the lists in category declaration order |
| PaintingModel.MaxArea | common/src/cube/aigc/psychology/Painting.java:851-862 | the scan returns the first thing of greatest area when that area is positive, and nothing when every area is at most 0 |
| PaintingModel.HouseWithoutArea | common/src/cube/aigc/psychology/Painting.java:851-862 | a single house of zero area is present, yet getHouse returns nothing |
| PaintingModel.Attach | common/src/cube/aigc/psychology/Painting.java:630-641 | the result is Attached of the list; a component is attached to the container the stable ascending sort by collision area puts last (a greatest collision, the later on ties), and that container's area is refreshed; the other containers are unchanged |
| PaintingModel.ComponentCountUpdate | common/src/cube/aigc/psychology/Painting.java:323-407 | replacing one container changes the attachment count by its difference in components |
| PaintingModel.AttachAddsOne | common/src/cube/aigc/psychology/Painting.java:323-407 | attaching a component adds exactly one attachment |
| PaintingModel.Painting.constructor | common/src/cube/aigc/psychology/Painting.java:73-141 | a new painting has no house, tree or person list and an empty drawing set, with the given texture and materials |
| PaintingModel.Painting.IsValid | common/src/cube/aigc/psychology/Painting.java:680-718 | a blank canvas (zero max and average, density below 0.03, hierarchy 0.0013..0.0014) without materials is invalid; otherwise a painting is invalid exactly when it has no house, tree or person list and no texture |
| PaintingModel.Painting.ValidWithContent | common/src/cube/aigc/psychology/Painting.java:680-718 | a painting with a house, a tree or a person and a texture that is not blank is valid |
| PaintingModel.Painting.InvalidWithoutContent | common/src/cube/aigc/psychology/Painting.java:680-718 | a painting with no house, tree or person list and no whole texture is invalid |
| PaintingModel.Painting.GetHouse | common/src/cube/aigc/psychology/Painting.java:752-760 | no house without a non-empty list; otherwise the first house of greatest positive area |
| PaintingModel.Painting.GetTree | common/src/cube/aigc/psychology/Painting.java:777-785 | no tree without a non-empty list; otherwise the first tree of greatest positive area |
| PaintingModel.Painting.GetPerson | common/src/cube/aigc/psychology/Painting.java:802-810 | no person without a non-empty list; otherwise the first person of greatest positive area |
| PaintingModel.Painting.GetAllThings | common/src/cube/aigc/psychology/Painting.java:729-743 | houses, then trees, then persons, then every element of the drawing set in category order |
| PaintingModel.Painting.AddHouse | common/src/cube/aigc/psychology/Painting.java:745-750 | the house is appended, the list created if missing |
| PaintingModel.Painting.AddTree | common/src/cube/aigc/psychology/Painting.java:770-775 | the tree is appended, the list created if missing |
| PaintingModel.Painting.AddPerson | common/src/cube/aigc/psychology/Painting.java:795-800 | the person is appended, the list created if missing |
| PaintingModel.Painting.BuildHouse | common/src/cube/aigc/psychology/Painting.java:323-407 | the new house list is Attached of the old list, or of one synthesised house of the given area when there is none: the component joins the chosen house, whose area is then refreshed; its length is kept (or 1) and it holds exactly one attachment more |
| PaintingModel.Painting.BuildTree | common/src/cube/aigc/psychology/Painting.java:409-475 | the new tree list is Attached of the old list, or of one synthesised tree of the given area when there is none: the component joins the chosen tree, whose area is then refreshed; its length is kept (or 1) and it holds exactly one attachment more |
| PaintingModel.Painting.BuildPerson | common/src/cube/aigc/psychology/Painting.java:477-604 | the new person list is Attached of the old list, or of one synthesised person of the given area when there is none: the component joins the chosen person, whose area is then refreshed; its length is kept (or 1) and it holds exactly one attachment more |
| HtpEvaluationModel.QuadrantDoodle | service/src/cube/service/aigc/scene/HTPEvaluation.java:845-854 | a quadrant counts two doodles exactly for average at least 4 and max at least 10, one for the two weaker patterns, none otherwise |
| HtpEvaluationModel.QuadrantSparseness | service/src/cube/service/aigc/scene/HTPEvaluation.java:857-866 | a quadrant lowers sparseness exactly when its max is at least 2 or zero with density below 0.8; two is added only for density below 0.1 with max at least 0.1 |
| HtpEvaluationModel.WholeDoodle | service/src/cube/service/aigc/scene/HTPEvaluation.java:887-891 | the whole texture adds one doodle exactly when its max is at least 2 and its average at least 4 |
| HtpEvaluationModel.WholeSparseness | service/src/cube/service/aigc/scene/HTPEvaluation.java:877-894 | the whole texture adds sparseness only for a max below 2 other than 0, and lowers it exactly for a max of at least 2 with an average below 4 |
| HtpEvaluationModel.QuadrantTally | service/src/cube/service/aigc/scene/HTPEvaluation.java:831-875 | the quadrant loop gives 0..2 doodles and -1..2 sparseness per quadrant, and nothing when no quadrant has positive max and hierarchy |
| HtpEvaluationModel.QuadrantTallySnoc | service/src/cube/service/aigc/scene/HTPEvaluation.java:831-875 | one more quadrant adds its increments exactly when its max and hierarchy are positive |
| HtpEvaluationModel.TallyTextures | service/src/cube/service/aigc/scene/HTPEvaluation.java:826-895 | the counts are the quadrant tally plus the whole texture's adjustment, within the bounds the increments allow |
| HtpEvaluationModel.DoodledQuadrantNotSparse | service/src/cube/service/aigc/scene/HTPEvaluation.java:845-866 | a quadrant that scores two doodles never adds to the sparseness |
| HtpEvaluationModel.MinMarginCount | service/src/cube/service/aigc/scene/HTPEvaluation.java:1087-1104 | the number of margins below the minimum threshold: 0 exactly when none is, 4 exactly when all are |
| HtpEvaluationModel.MaxMarginCount | service/src/cube/service/aigc/scene/HTPEvaluation.java:1106-1117 | the number of margins above the maximum threshold: 0 exactly when none is, 4 exactly when all are |
| HtpEvaluationModel.MarginCountsDisjoint | service/src/cube/service/aigc/scene/HTPEvaluation.java:1087-1117 | with ordered thresholds no margin is counted both too small and too large |
| HtpEvaluationModel.AllTinyClauseSubsumed | service/src/cube/service/aigc/scene/HTPEvaluation.java:1339-1350 | the three-element clause adds nothing: the tiny-elements rule holds exactly when person and tree are both very small |
| HtpEvaluationModel.FinalReference | service/src/cube/service/aigc/scene/HTPEvaluation.java:65-120 | the reference ends Abnormal for an invalid or empty painting, a drawing area ratio in (0, 0.09], fewer than two of house, tree and person, or a painting both doodled and sparse |
| HtpEvaluationModel.YoungThresholdLenient | service/src/cube/service/aigc/scene/HTPEvaluation.java:1209-1240 | the threshold for under-16s is the more lenient: a painting Abnormal at a younger age is Abnormal at 16 or over |
| HtpEvaluationModel.NormalScenario | service/src/cube/service/aigc/scene/HTPEvaluation.java:65-120 | a well-proportioned painting with house, tree and person keeps the Normal reference |
| HtpEvaluationModel.HtpEvaluation.MarkAbnormal | service/src/cube/service/aigc/scene/HTPEvaluation.java:77 | escalation sets the reference to Abnormal |
| HtpEvaluationModel.HtpEvaluation.EvalSpaceStructure | service/src/cube/service/aigc/scene/HTPEvaluation.java:127-1026 | the space evaluation makes the reference Abnormal exactly for a small area ratio, a missing second main element or doodles and sparseness of two each, and otherwise keeps it |
| HtpEvaluationModel.HtpEvaluation.EvalFrameStructure | service/src/cube/service/aigc/scene/HTPEvaluation.java:1028-1371 | the frame evaluation makes the reference Abnormal exactly when the house is very small with a very small tree or person, or tree and person are both very small, and otherwise keeps it |
| HtpEvaluationModel.HtpEvaluation.MakeEvaluationReport | service/src/cube/service/aigc/scene/HTPEvaluation.java:65-120 | an invalid painting is not evaluated and ends Abnormal; otherwise the house threshold follows the age, the reference starts from emptiness and ends as FinalReference describes |
| HtpEvaluationModel.FrameStructureDescription.AddFrameStructure | service/src/cube/service/aigc/scene/HTPEvaluation.java:3334-3339 | a structure is appended unless listed, so the list never holds duplicates |
| HtpEvaluationModel.CalcFrameStructure | service/src/cube/service/aigc/scene/HTPEvaluation.java:3228-3299 | three distinct structures: top unless bottom is at least as large, left unless right is at least as large, and the centre quadrant with the greatest area, the later one on ties |
| HtpEvaluationModel.LargestCenter | service/src/cube/service/aigc/scene/HTPEvaluation.java:3283-3297 | the last entry after the stable ascending sort of the four centre quadrants by area: a quadrant of greatest area, every quadrant listed after it strictly smaller |
| HtpEvaluationModel.CalcSymmetry | service/src/cube/service/aigc/scene/HTPEvaluation.java:3301-3324 | a missing or empty list is not symmetric; otherwise symmetric exactly when some object ends left of the centre line and some object not so counted starts right of it |
| HtpEvaluationModel.HtpEvaluation.constructor | service/src/cube/service/aigc/scene/HTPEvaluation.java:34-40 | a new evaluator has the Normal reference and the default house threshold 0.069 |
| HtpEvaluationModel.FrameStructureDescription.constructor | service/src/cube/service/aigc/scene/HTPEvaluation.java:3330-3332 | a new description lists no structure |
| PaintingAcceleratorModel.Parameters | common/src/cube/aigc/psychology/PaintingAccelerator.java:894-909 | a material gives twelve numbers |
| PaintingAcceleratorModel.NormalizedParameters | common/src/cube/aigc/psychology/PaintingAccelerator.java:894-909 | normalising multiplies each of the twelve numbers by its own factor (size, ratio, pixel, density, hierarchy, deviation) |
| PaintingAcceleratorModel.Cells | common/src/cube/aigc/psychology/PaintingAccelerator.java:911-926 | one formatted cell per number, in order |
| PaintingAcceleratorModel.FormatCSV | common/src/cube/aigc/psychology/PaintingAccelerator.java:911-926 | a material writes twelve cells |
| PaintingAcceleratorModel.FormatMatchesParameters | common/src/cube/aigc/psychology/PaintingAccelerator.java:894-926 | the cells formatCSV writes are exactly the numbers parameters returns, formatted, position by position |
| PaintingAcceleratorModel.BlankWritesZeros | common/src/cube/aigc/psychology/PaintingAccelerator.java:865-870 | a material of a label that was not drawn writes twelve zeros |
| PaintingAcceleratorModel.SubPartCells | common/src/cube/aigc/psychology/PaintingAccelerator.java:385-672 | a missing element and a present one both write twelve cells per part kind |
| PaintingAcceleratorModel.AbsentElementWritesZeros | common/src/cube/aigc/psychology/PaintingAccelerator.java:385-672 | a missing element's part blocks are all zeros |
| PaintingAcceleratorModel.BuiltMaterials | common/src/cube/aigc/psychology/PaintingAccelerator.java:755-770 | one material per "other" label in label order: the drawn thing's, else a blank of that label |
| PaintingAcceleratorModel.MaterialHead | common/src/cube/aigc/psychology/PaintingAccelerator.java:773-788 | twelve header cells per material prefix |
| PaintingAcceleratorModel.GroupHead | common/src/cube/aigc/psychology/PaintingAccelerator.java:136-222 | an element group's header has twelve cells per part |
| PaintingAcceleratorModel.MaterialsHead | common/src/cube/aigc/psychology/PaintingAccelerator.java:136-222 | the "other" labels' header has twelve cells per label |
| PaintingAcceleratorModel.GroupsHead | common/src/cube/aigc/psychology/PaintingAccelerator.java:136-222 | the element groups' header has twelve cells per material |
| PaintingAcceleratorModel.GroupsWidthValue | common/src/cube/aigc/psychology/PaintingAccelerator.java:136-222 | the six element groups hold 2 x 12 house, 2 x 8 tree and 2 x 20 person materials |
| PaintingAcceleratorModel.FixedHead | common/src/cube/aigc/psychology/PaintingAccelerator.java:136-222 | the fixed part of the header has 26 texture cells and 12 per element-group material |
| PaintingAcceleratorModel.HeadCells | common/src/cube/aigc/psychology/PaintingAccelerator.java:136-222 | the header has 26 + 12 x 120 cells plus twelve per "other" label |
| PaintingAcceleratorModel.TextureRow | common/src/cube/aigc/psychology/PaintingAccelerator.java:227-256 | the 26 leading numbers, the frame area ratio first |
| PaintingAcceleratorModel.MaterialsRow | common/src/cube/aigc/psychology/PaintingAccelerator.java:283-285 | twelve cells per "other" material |
| PaintingAcceleratorModel.ElementCells | common/src/cube/aigc/psychology/PaintingAccelerator.java:258-281 | an element's own block followed by twelve cells per part |
| PaintingAcceleratorModel.ElementsRow | common/src/cube/aigc/psychology/PaintingAccelerator.java:258-281 | the six element groups write 12 x 120 cells |
| PaintingAcceleratorModel.RowCells | common/src/cube/aigc/psychology/PaintingAccelerator.java:224-285 | a row has as many cells as the header: 26 + 12 x 120 plus twelve per "other" label |
| PaintingAcceleratorModel.NoCommaAppend | common/src/cube/aigc/psychology/PaintingAccelerator.java:136-294 | joining comma-free cell lists stays comma-free |
| PaintingAcceleratorModel.MaterialHeadCommaFree | common/src/cube/aigc/psychology/PaintingAccelerator.java:773-788 | a comma-free prefix gives comma-free header cells |
| PaintingAcceleratorModel.GroupHeadCommaFree | common/src/cube/aigc/psychology/PaintingAccelerator.java:136-222 | comma-free element and part names give comma-free group headers |
| PaintingAcceleratorModel.MaterialsHeadCommaFree | common/src/cube/aigc/psychology/PaintingAccelerator.java:136-222 | comma-free label names give comma-free "other" headers |
| PaintingAcceleratorModel.GroupsHeadCommaFree | common/src/cube/aigc/psychology/PaintingAccelerator.java:136-222 | the element group headers are comma-free |
| PaintingAcceleratorModel.TextureHeadCommaFree | common/src/cube/aigc/psychology/PaintingAccelerator.java:136-160 | the texture header names are comma-free |
| PaintingAcceleratorModel.PartsCommaFree | common/src/cube/aigc/psychology/PaintingAccelerator.java:136-222 | the house, tree and person part names are comma-free |
| PaintingAcceleratorModel.FixedHeadCommaFree | common/src/cube/aigc/psychology/PaintingAccelerator.java:136-222 | the fixed header is comma-free |
| PaintingAcceleratorModel.HeadCommaFree | common/src/cube/aigc/psychology/PaintingAccelerator.java:136-222 | the whole header is comma-free when the label names are |
| PaintingAcceleratorModel.CellsCommaFree | common/src/cube/aigc/psychology/PaintingAccelerator.java:911-926 | a comma-free number format gives comma-free cells |
| PaintingAcceleratorModel.MaterialCommaFree | common/src/cube/aigc/psychology/PaintingAccelerator.java:911-926 | a material's cells are comma-free |
| PaintingAcceleratorModel.SubPartsCommaFree | common/src/cube/aigc/psychology/PaintingAccelerator.java:385-672 | part cells are comma-free |
| PaintingAcceleratorModel.ElementCommaFree | common/src/cube/aigc/psychology/PaintingAccelerator.java:258-281 | an element's cells are comma-free |
| PaintingAcceleratorModel.MaterialsRowCommaFree | common/src/cube/aigc/psychology/PaintingAccelerator.java:283-285 | the "other" cells are comma-free |
| PaintingAcceleratorModel.ElementsRowCommaFree | common/src/cube/aigc/psychology/PaintingAccelerator.java:258-281 | the element-group cells are comma-free |
| PaintingAcceleratorModel.RowCommaFree | common/src/cube/aigc/psychology/PaintingAccelerator.java:224-285 | the whole row is comma-free |
| PaintingAcceleratorModel.FieldCountsAgree | common/src/cube/aigc/psychology/PaintingAccelerator.java:136-294 | splitting the header and a row at commas gives the same number of fields: 986 plus twelve per "other" label |
| PaintingAcceleratorModel.MaterialsHeadByName | common/src/cube/aigc/psychology/PaintingAccelerator.java:136-222 | the "other" header depends on the label names only |
| PaintingAcceleratorModel.HeaderIndependentOfDrawing | common/src/cube/aigc/psychology/PaintingAccelerator.java:755-770 | two paintings with the same "other" labels get the same header, whatever each drew |
| PaintingAcceleratorModel.PaintingAccelerator.constructor | common/src/cube/aigc/psychology/PaintingAccelerator.java:69-72 | the parameter holds the frame ratio, the textures, the largest and (with several) the smallest element of each kind, and one material per "other" label; only the house elements are remembered for the part blocks |
| PaintingAcceleratorModel.PaintingAccelerator.IsValid | common/src/cube/aigc/psychology/PaintingAccelerator.java:78-80 | usable exactly when the frame area ratio is non-zero |
| PaintingAcceleratorModel.PaintingAccelerator.ValidIffRowLeads | common/src/cube/aigc/psychology/PaintingAccelerator.java:78-80 | a painting is usable exactly when the first cell of its row, the frame area ratio, is non-zero |
| PaintingAcceleratorModel.PaintingAccelerator.FormatCSVHead | common/src/cube/aigc/psychology/PaintingAccelerator.java:136-222 | the header line is the header cells joined with commas |
| PaintingAcceleratorModel.PaintingAccelerator.FormatParameterAsCSV | common/src/cube/aigc/psychology/PaintingAccelerator.java:224-294 | without normalisation the row line is the row cells joined with commas |
| PaintingAcceleratorModel.FormatMaterialsRow | common/src/cube/aigc/psychology/PaintingAccelerator.java:283-285 | the loop over the "other" materials writes their blocks in order |
| PaintingAcceleratorModel.FormatElementCells | common/src/cube/aigc/psychology/PaintingAccelerator.java:258-281 | an element's block followed by its part blocks |
| PaintingAcceleratorModel.FormatPartCells | common/src/cube/aigc/psychology/PaintingAccelerator.java:385-672 | the part blocks, a blank block for each missing part or for a missing element |
| ReportDatasetModel.FirstWith | service/src/cube/service/aigc/dataset/ReportDataset.java:588-593 | the inner loop finds the first score of the indicator, and none exactly when no score has it |
| ReportDatasetModel.IndicatorsOf | service/src/cube/service/aigc/dataset/ReportDataset.java:588-593 | the indicators of the scores, position by position |
| ReportDatasetModel.AlignScores | service/src/cube/service/aigc/dataset/ReportDataset.java:583-605 | one score per indicator of the priority order: the first input score of that indicator, else a new empty score |
| ReportDatasetModel.FirstAfterAbsentPrefix | service/src/cube/service/aigc/dataset/ReportDataset.java:588-593 | a score of the indicator with none before it is the one found |
| ReportDatasetModel.NumTest | service/src/cube/service/aigc/dataset/ReportDataset.java:53 | the test count, the line count times the ratio rounded half up, lies within one half of that product, and between 0 and the line count for a ratio from 0 to 1 |
| ReportDatasetModel.SelectTestIndices | service/src/cube/service/aigc/dataset/ReportDataset.java:55-61 | the loop keeps a draw unless already chosen, the chosen indices are distinct, in range and drawn, and it consumes draws until numTest indices are chosen |
| ReportDatasetModel.Range | service/src/cube/service/aigc/dataset/ReportDataset.java:55-61 | the indices 0..n-1, n of them |
| ReportDatasetModel.DistinctIndicesBound | service/src/cube/service/aigc/dataset/ReportDataset.java:55-61 | distinct indices below n number at most n |
| ReportDatasetModel.DistinctCard | service/src/cube/service/aigc/dataset/ReportDataset.java:55-61 | distinct indices have as many values as entries |
| ReportDatasetModel.SelectionCannotComplete | service/src/cube/service/aigc/dataset/ReportDataset.java:53-61 | when more test lines are wanted than there are lines, the selection loop can never reach its count, whatever the draws |
| ReportDatasetModel.SplitTrainTest | service/src/cube/service/aigc/dataset/ReportDataset.java:52-82 | the training file is the header and every line; the test file is the header and the selected lines in their order |
| ReportDatasetModel.SelectedCount | service/src/cube/service/aigc/dataset/ReportDataset.java:76-82 | the test file holds one line per test index that names a line |
| ReportDatasetModel.TestLineCount | service/src/cube/service/aigc/dataset/ReportDataset.java:55-82 | with distinct in-range test indices, the test file holds exactly that many lines |
| ReportDatasetModel.SelectedAreLines | service/src/cube/service/aigc/dataset/ReportDataset.java:76-82 | every test line is one of the lines |
| ReportDatasetModel.ScaleDataRow.constructor | service/src/cube/service/aigc/dataset/ReportDataset.java:614-636 | the row's 19 numbers: the gender code (0.1 for female, else 0.9), the age times 0.01, then the SCL, PANAS and Big Five columns |
| ReportDatasetModel.ScaleDataRow.IsValid | service/src/cube/service/aigc/dataset/ReportDataset.java:638-646 | a row is invalid exactly when its first five SCL factors are all equal |
| ReportDatasetModel.ScaleDataRow.SplitSCL | service/src/cube/service/aigc/dataset/ReportDataset.java:656-662 | the ten SCL factors, scaled |
| ReportDatasetModel.ScaleDataRow.SplitPANAS | service/src/cube/service/aigc/dataset/ReportDataset.java:664-669 | the two PANAS scores, scaled |
| ReportDatasetModel.ScaleDataRow.SplitBFP | service/src/cube/service/aigc/dataset/ReportDataset.java:671-679 | the five Big Five scores, scaled |
| ReportDatasetModel.ScaleDataRow.Normalization | service/src/cube/service/aigc/dataset/ReportDataset.java:681-692 | SCL and Big Five divided by 10, PANAS by 100, the last two entries 0 |
| ReportDatasetModel.SplitsCoverScores | service/src/cube/service/aigc/dataset/ReportDataset.java:656-679 | the three splits together are the row's scores from position 2 on, each once and in order |
| ContentToolsModel.EvalPersonalityScore | service/src/cube/service/aigc/scene/ContentTools.java:355-365 | the level is 低 exactly when the score is at most 3.5, 高 exactly when it is at least 7.5, and 中 exactly when it lies strictly between |
| ContentToolsModel.PersonalityLevelMonotone | service/src/cube/service/aigc/scene/ContentTools.java:355-365 | a higher score never receives a lower level |
| ContentToolsModel.ThemeName | service/src/cube/service/aigc/scene/ContentTools.java:434-448 | every theme has a non-empty report name (the switch is total) |
| ContentToolsModel.ThemeNameIdentifiesTest | service/src/cube/service/aigc/scene/ContentTools.java:434-448 | two themes share a report name exactly when they are the same test; Generic and HouseTreePerson share one |
| ContentToolsModel.ToolName | service/src/cube/service/aigc/scene/ContentTools.java:388-406 | every theme names a non-empty test tool in the report list |
| ContentToolsModel.ToolNameAgreesWithTheme | service/src/cube/service/aigc/scene/ContentTools.java:388-406 | two themes name the same tool exactly when they have the same report name |
| ContentToolsModel.MakeReportList | service/src/cube/service/aigc/scene/ContentTools.java:376-423 | the loop emits the numbered entries of the reports, in order, and nothing else |
| ContentToolsModel.Clipped | service/src/cube/service/aigc/scene/ContentTools.java:557-578 | a missing text or one of at most one character shows nothing; otherwise a proper prefix of ceil(len/5) characters, at most 50 |
| ContentToolsModel.ClipLine | service/src/cube/service/aigc/scene/ContentTools.java:580-602 | a line no longer than the limit is kept whole; a longer one is cut to the limit and followed by "..." |
| ContentToolsModel.ShortLinesJoined | service/src/cube/service/aigc/scene/ContentTools.java:580-602 | when every line fits, the clip is the lines joined by newlines with one newline after the last |
| ContentToolsModel.ShortLineAlone | service/src/cube/service/aigc/scene/ContentTools.java:580-602 | a single line that fits is kept whole, followed by a newline |
| ContentToolsModel.ShortLineJoinedStep | service/src/cube/service/aigc/scene/ContentTools.java:580-602 | appending a line that fits to a list whose clip reproduces it keeps the clip a faithful join |
| ContentToolsModel.ShortContentKept | service/src/cube/service/aigc/scene/ContentTools.java:580-602 | a text whose lines all fit is reproduced up to its trailing newlines, then one newline |
| ContentToolsModel.ClipContentByLines | service/src/cube/service/aigc/scene/ContentTools.java:580-602 | the result is the clipped lines of the text split at newlines, then the closing notice around the prompt link |
| ContentToolsModel.Available | service/src/cube/service/aigc/scene/ContentTools.java:227-255 | the sections available for the scores are never more than the scores |
| ContentToolsModel.AvailablePrefix | service/src/cube/service/aigc/scene/ContentTools.java:227-255 | the sections of a prefix of the scores are a prefix of the sections of all scores |
| ContentToolsModel.SelectSections | service/src/cube/service/aigc/scene/ContentTools.java:227-255 | scores without a section are skipped and the scan stops after maxIndicators sections: the first min(available, maxIndicators) available sections, none for a non-positive cap |
| QueryRevolverModel.FixName | service/src/cube/service/aigc/scene/QueryRevolver.java:1040-1057 | the name is never empty; an empty name becomes the anonymous name; otherwise the name is kept, with any honorific before it in English and after it in Chinese |
| QueryRevolverModel.HonorificIffAdult | service/src/cube/service/aigc/scene/QueryRevolver.java:1040-1057 | a non-empty name is changed exactly when the subject is older than 24 and the name is not already the anonymous one |
| QueryRevolverModel.ChineseDescriptionHasNoSecondPerson | service/src/cube/service/aigc/scene/QueryRevolver.java:1564-1573 | the Chinese personality filter leaves neither 你 nor 您 |
| QueryRevolverModel.EnglishDescriptionHasNoYou | service/src/cube/service/aigc/scene/QueryRevolver.java:1564-1573 | the English personality filter leaves no "you" and no "You" anywhere |
| QueryRevolverModel.FilterReplacesInsideWords | service/src/cube/service/aigc/scene/QueryRevolver.java:1564-1573 | the replacement works on substrings, so "your" becomes "subjectsr" |
| QueryRevolverModel.ChineseSubjectNounReplaced | service/src/cube/service/aigc/scene/QueryRevolver.java:1575-1582 | in Chinese no 受测人 is left once the subject noun is replaced by the pronoun |
| QueryRevolverModel.EnglishSubjectNounReplacedForMale | service/src/cube/service/aigc/scene/QueryRevolver.java:1575-1582 | in English no "subjects" is left when it becomes "he" |
| QueryRevolverModel.ChinesePipeline | service/src/cube/service/aigc/scene/QueryRevolver.java:1564-1582 | filtering Chinese text and then naming the subject leaves no second person and no 受测人 |
| QueryRevolverModel.CountIn | service/src/cube/service/aigc/scene/QueryRevolver.java:1550-1556 | the count of words found in the other list never exceeds the number of words |
| QueryRevolverModel.CountInAll | service/src/cube/service/aigc/scene/QueryRevolver.java:1550-1556 | every word counts exactly when every word occurs in the other list |
| QueryRevolverModel.CountInNone | service/src/cube/service/aigc/scene/QueryRevolver.java:1550-1556 | no word counts exactly when no word occurs in the other list |
| QueryRevolverModel.SimilarityBounds | service/src/cube/service/aigc/scene/QueryRevolver.java:1541-1562 | the similarity is undefined only for two empty lists; otherwise it lies in [0, 1], is 1 exactly when every word of the longer list occurs in the shorter one and 0 exactly when none does |
| QueryRevolverModel.SimilarityOfSame | service/src/cube/service/aigc/scene/QueryRevolver.java:1541-1562 | a non-empty word list is fully similar to itself |
| QueryRevolverModel.FastSentenceSimilarity | service/src/cube/service/aigc/scene/QueryRevolver.java:1541-1562 | the counting loop computes the similarity of the two word lists |
| QueryRevolverModel.ShortLazySentence | service/src/cube/service/aigc/scene/QueryRevolver.java:139-151 | a lazy sentence of at most five words hits exactly when one of its words occurs in the query |
| QueryRevolverModel.LazyHit | service/src/cube/service/aigc/scene/QueryRevolver.java:136-151 | the loop reports a hit exactly when some lazy sentence has a word in the query and at least a third of its words, rounded down, occur there |
| QueryRevolverModel.AddMatchesProps | service/src/cube/service/aigc/scene/QueryRevolver.java:1245-1251 | one query word keeps the list duplicate-free, keeps its old entries as a prefix and adds exactly the symptom words equal to it ignoring case |
| QueryRevolverModel.SymptomsProps | service/src/cube/service/aigc/scene/QueryRevolver.java:1242-1253 | the symptom list has no duplicates and holds exactly the symptom words equal, ignoring case, to some query word |
| QueryRevolverModel.SymptomList | service/src/cube/service/aigc/scene/QueryRevolver.java:1242-1253 | the nested loops build the symptom list in order of first mention |
| ConversationWorkerModel.LastWhere | service/src/cube/service/aigc/scene/ConversationWorker.java:921-929 | the last index whose word satisfies the keyword test, or -1 exactly when no word does |
| ConversationWorkerModel.FirstFrom | service/src/cube/service/aigc/scene/ConversationWorker.java:932-944 | the first index from the start position on whose word satisfies the test, or -1 exactly when none does |
| ConversationWorkerModel.GenderOf | service/src/cube/service/aigc/scene/ConversationWorker.java:966-974 | a word names one of exactly three genders: none, "male" or "female" |
| ConversationWorkerModel.GenderFrom | service/src/cube/service/aigc/scene/ConversationWorker.java:964-990 | the gender read from the words is always "", "male" or "female" |
| ConversationWorkerModel.AttributeOf | service/src/cube/service/aigc/scene/ConversationWorker.java:914-993 | the attribute read from a query is never strict and its gender is one of the three values |
| ConversationWorkerModel.AgeWithoutKeywordInRange | service/src/cube/service/aigc/scene/ConversationWorker.java:946-962 | without an age keyword the age is 0 or lies within the age range |
| ConversationWorkerModel.KeywordAgeUnchecked | service/src/cube/service/aigc/scene/ConversationWorker.java:931-944 | with an age keyword the numeric word after it is taken without a range check: an age of 200 is read |
| ConversationWorkerModel.KeywordIndices | service/src/cube/service/aigc/scene/ConversationWorker.java:919-929 | the first loop finds the last age keyword and the last gender keyword that is not also an age keyword |
| ConversationWorkerModel.ScanFrom | service/src/cube/service/aigc/scene/ConversationWorker.java:932-944 | the forward scan stops at the first matching word from its start |
| ConversationWorkerModel.ScanBackFor | service/src/cube/service/aigc/scene/ConversationWorker.java:946-962 | the backward scan stops at the last matching word |
| ConversationWorkerModel.ExtractAttribute | service/src/cube/service/aigc/scene/ConversationWorker.java:914-993 | the method computes the attribute the words determine |
| ConversationWorkerModel.ExtractAge | service/src/cube/service/aigc/scene/ConversationWorker.java:931-962 | with an age keyword, the first numeric word from two words before it; without one, the last numeric word in range; otherwise 0 |
| ConversationWorkerModel.ExtractGender | service/src/cube/service/aigc/scene/ConversationWorker.java:964-990 | with a gender keyword, the first trimmed gender word from two words before it; without one, the first untrimmed gender word; otherwise "" |
| ConversationWorkerModel.CheckAttribute | service/src/cube/service/aigc/scene/ConversationWorker.java:259-346 | the checks in source order: both missing, age missing, age out of range, gender missing, accepted, each exactly on its condition |
| ConversationWorkerModel.ConversationContext.RequireAttribute | service/src/cube/service/aigc/scene/ConversationWorker.java:255-346 | only an accepted attribute is stored; every rejection enters the attribute subtask and records its reply, storing nothing |
| ConversationWorkerModel.Matched | service/src/cube/service/aigc/scene/ConversationWorker.java:995-1036 | the matched reports are exactly the stored reports whose date matches, never more than the list |
| ConversationWorkerModel.MatchReports | service/src/cube/service/aigc/scene/ConversationWorker.java:995-1036 | the loop computes the matched reports |
| ConversationWorkerModel.MatchedIsOrderedFilter | service/src/cube/service/aigc/scene/ConversationWorker.java:995-1036 | matching keeps the stored order: it is the list with the non-matching reports removed |
| ConversationWorkerModel.FilterSnoc | service/src/cube/service/aigc/scene/ConversationWorker.java:995-1036 | filtering a list extended by one report extends the filtered list by that report exactly when it matches |
| ConversationWorkerModel.NoDateMatchesNothing | service/src/cube/service/aigc/scene/ConversationWorker.java:995-1036 | a query without any date field matches no report |
| ConversationWorkerModel.YearAndDayMatchOnDay | service/src/cube/service/aigc/scene/ConversationWorker.java:995-1036 | a year and a day without a month match on the day alone |
| ConversationWorkerModel.SelectReport | service/src/cube/service/aigc/scene/ConversationWorker.java:517-569 | location 0 prompts again, 1 to size shows report location - 1, above size overflows, and a negative location faults |
| ConversationWorkerModel.NegativeLocationFaults | service/src/cube/service/aigc/scene/ConversationWorker.java:537-541 | the query segmented as 第 and -2 makes the lookup use index -3, which fails |
| ConversationWorkerModel.CorrectedSelectReport | service/src/cube/service/aigc/scene/ConversationWorker.java:517-569 | as intended: a non-positive location prompts again, 1 to size shows that report, above size overflows, nothing faults |
| QuestionnaireSubtaskModel.FirstIndex | service/src/cube/service/aigc/scene/subtask/QuestionnaireSubtask.java:843-848 | the first option satisfying the test, or -1 exactly when none does |
| QuestionnaireSubtaskModel.MatchSingleChoiceAnswer | service/src/cube/service/aigc/scene/subtask/QuestionnaireSubtask.java:820-851 | the scan over the markers and then the options computes the option the query names |
| QuestionnaireSubtaskModel.OptionAWins | service/src/cube/service/aigc/scene/subtask/QuestionnaireSubtask.java:821-825 | a query holding a or A, 1, 一, 壹 or ① is read as option A whatever the options are |
| QuestionnaireSubtaskModel.MarkerOrder | service/src/cube/service/aigc/scene/subtask/QuestionnaireSubtask.java:821-842 | the markers are tried for A before B and so on: the first marker group the query mentions decides |
| QuestionnaireSubtaskModel.SingleChoiceMeaning | service/src/cube/service/aigc/scene/subtask/QuestionnaireSubtask.java:820-851 | nothing is read exactly when no marker is mentioned and no option matches; otherwise the result is one of A to E or the code of the first matching option |
| QuestionnaireSubtaskModel.EmptyQueryTakesFirstOption | service/src/cube/service/aigc/scene/subtask/QuestionnaireSubtask.java:843-848 | an empty query is held by every option's content, so the first option is read |
| QuestionnaireSubtaskModel.NonEmptyLines | service/src/cube/service/aigc/scene/subtask/QuestionnaireSubtask.java:860-883 | the lines the filter considers are all non-empty |
| QuestionnaireSubtaskModel.FilterList | service/src/cube/service/aigc/scene/subtask/QuestionnaireSubtask.java:860-883 | the scan computes the filtered text, failing where the source throws |
| QuestionnaireSubtaskModel.KeptIsPrefix | service/src/cube/service/aigc/scene/subtask/QuestionnaireSubtask.java:861-880 | the kept lines are the first max(1, maxLines) non-empty lines |
| QuestionnaireSubtaskModel.PiecesMeaning | service/src/cube/service/aigc/scene/subtask/QuestionnaireSubtask.java:870-875 | a kept line opening with a digit loses its first three characters, others are kept whole; the filter fails exactly when such a line is shorter than three |
| QuestionnaireSubtaskModel.FilterListNeedsALine | service/src/cube/service/aigc/scene/subtask/QuestionnaireSubtask.java:882 | without a non-empty line the source throws |
| QuestionnaireSubtaskModel.FilterListPlainLines | service/src/cube/service/aigc/scene/subtask/QuestionnaireSubtask.java:860-883 | with no line opening with a digit, the result is the first max(1, maxLines) non-empty lines joined by paragraph breaks |
| QuestionnaireSubtaskModel.IntToString | service/src/cube/service/aigc/scene/subtask/QuestionnaireSubtask.java:798 | the rendering of a question number is never empty |
| QuestionnaireSubtaskModel.Bullet | service/src/cube/service/aigc/scene/subtask/QuestionnaireSubtask.java:800-811 | each option's bullet is non-empty |
| QuestionnaireSubtaskModel.MakeQuestion | service/src/cube/service/aigc/scene/subtask/QuestionnaireSubtask.java:788-818 | the method renders the question as its text: prompt or content for a descriptive question, header and bullets for a choice question, empty for a missing one |
| QuestionnaireSubtaskModel.ChoiceQuestionLayout | service/src/cube/service/aigc/scene/subtask/QuestionnaireSubtask.java:800-811 | a choice question opens with its header and the bullet of each option follows the bullets of the options before it, in option order |
| QuestionnaireSubtaskModel.ScaleTrack.BeforeStart | service/src/cube/service/aigc/scene/subtask/QuestionnaireSubtask.java:66-181 | Yes starts at question 1, No cancels, any other round appends an off-topic query and cancels at three; the answers are untouched |
| QuestionnaireSubtaskModel.ScaleTrack.Stop | service/src/cube/service/aigc/scene/subtask/QuestionnaireSubtask.java:185-213 | stopping records the end time and cancels, leaving the cursor and the answers |
| QuestionnaireSubtaskModel.ScaleTrack.Continue | service/src/cube/service/aigc/scene/subtask/QuestionnaireSubtask.java:215-282 | as written: a continue finishes exactly when the cursor is at least the question count (line 221) or the scale is complete, and the finish runs the finishing callback (end time, hidden answers, inference requests); otherwise it repeats the current question; a finish on an incomplete scale with the cursor on the last question leaves that question unanswered |
| QuestionnaireSubtaskModel.ScaleTrack.ContinueCorrected | service/src/cube/service/aigc/scene/subtask/QuestionnaireSubtask.java:215-282 | corrected to the greater-than test of line 346: a continue finishes exactly when the cursor is past every question or the scale is complete, and the finish runs the finishing callback; a finish on an incomplete scale has every question answered |
| QuestionnaireSubtaskModel.ScaleTrack.ProcessOffQuery | service/src/cube/service/aigc/scene/subtask/QuestionnaireSubtask.java:515-552 | the subtask is cancelled exactly when three off-topic queries are held; otherwise the question is restated |
| QuestionnaireSubtaskModel.ScaleTrack.ProcessOnQuery | service/src/cube/service/aigc/scene/subtask/QuestionnaireSubtask.java:554-613 | the query is recorded as the answer at the cursor, an inference request is made for the question at the cursor, the off-topic list is cleared, and the cursor moves on unless the scale is complete, which runs the finishing callback |
| QuestionnaireSubtaskModel.ScaleTrack.ProcessOffQueryForChoice | service/src/cube/service/aigc/scene/subtask/QuestionnaireSubtask.java:615-786 | cancels exactly at the threshold; a verdict that does not call the query unrelated removes the last off-topic query |
| QuestionnaireSubtaskModel.ScaleTrack.AnswerChoice | service/src/cube/service/aigc/scene/subtask/QuestionnaireSubtask.java:331-384 | a recognised option clears the off-topic list, records its code at the cursor and moves the cursor on, finishing exactly when it passes the last question, and the finish runs the finishing callback; otherwise the off-topic path runs |
| QuestionnaireSubtaskModel.ScaleTrack.AnswerDescriptive | service/src/cube/service/aigc/scene/subtask/QuestionnaireSubtask.java:284-329 | no verdict fails and counts the query off-topic; a verdict holding the no-word on a round other than No counts it off-topic; any other verdict records the query as the answer, and a verdict that completes the scale runs the finishing callback |
| QuestionnaireSubtaskModel.ScaleTrack.Execute | service/src/cube/service/aigc/scene/subtask/QuestionnaireSubtask.java:45-385 | a round never moves the cursor back and never changes an answer other than the one at the cursor; before the start Yes starts at question 1, No cancels and anything else counts off-topic; a stop cancels with the end time; a continue runs the test of line 221; a descriptive answer fails, counts off-topic or is recorded as the verdict says; a choice answer records the matched option's code or takes the off-topic path, with each case's reply; every finish sets the end time to the round's time, answers the hidden questions and records the inference requests |
| QuestionnaireSubtaskModel.ScaleTrack.ProcessFinish | service/src/cube/service/aigc/scene/subtask/QuestionnaireSubtask.java:387-406 | the finish sets the end time, requests inference for every hidden question with an inference text longer than one character, chooses the first option for every other one, and cancels the subtask exactly when no hidden question without inference lacks options (the throw of line 403 ends the callback early); the visible answers, the cursor and the off-topic list are unchanged |
| QuestionnaireSubtaskModel.AnswerHiddenCompletes | service/src/cube/service/aigc/scene/subtask/QuestionnaireSubtask.java:395-405 | the hidden-question pass completes exactly when every hidden question has an inference text or at least one option |
| QuestionnaireSubtaskModel.AnswerHiddenKeeps | service/src/cube/service/aigc/scene/subtask/QuestionnaireSubtask.java:395-405 | the pass only appends inference requests and keeps every choice already made; a choice whose serial number no hidden question uses keeps its value |
| QuestionnaireSubtaskModel.AnswerHiddenCovers | service/src/cube/service/aigc/scene/subtask/QuestionnaireSubtask.java:395-405 | after a complete pass every hidden question with an inference text has an inference request and every other one has a choice |
| QuestionnaireSubtaskModel.AnswerHiddenFirstOption | service/src/cube/service/aigc/scene/subtask/QuestionnaireSubtask.java:395-405 | with distinct serial numbers, a complete pass chooses the first option's code for every hidden question without an inference text |
| QuestionnaireSubtaskModel.ContinueSkipsLastQuestion | service/src/cube/service/aigc/scene/subtask/QuestionnaireSubtask.java:221 | as written, a cursor on the last question finishes the scale although that question has no answer |
| QuestionnaireSubtaskModel.ContinueFinishesAnswered | service/src/cube/service/aigc/scene/subtask/QuestionnaireSubtask.java:221 | with every question below the cursor answered, the corrected test finishes an incomplete scale only when every question is answered |
| QuestionnaireSubtaskModel.FinishReplyLosesReport | service/src/cube/service/aigc/scene/subtask/QuestionnaireSubtask.java:494-498 | as written, the report text never reaches the reply |
| QuestionnaireSubtaskModel.FinishReplyKeepsReport | service/src/cube/service/aigc/scene/subtask/QuestionnaireSubtask.java:494-498 | corrected, the reply opens with the prefix and holds the report text and the reading instruction, in that order |
| CounselingManagerModel.InsertPosition | service/src/cube/service/aigc/scene/CounselingManager.java:127-133 | the place a stable sort gives the new chunk lies within the buffer |
| CounselingManagerModel.Insert | service/src/cube/service/aigc/scene/CounselingManager.java:127-133 | adding and sorting grows the buffer by one and keeps exactly its chunks plus the new one |
| CounselingManagerModel.InsertShape | service/src/cube/service/aigc/scene/CounselingManager.java:127-133 | the chunks before the insertion place have an index no greater than the new one, the chunk at it a greater index |
| CounselingManagerModel.InsertPlaces | service/src/cube/service/aigc/scene/CounselingManager.java:127-133 | on a sorted buffer every chunk before the place is no greater and every chunk after it greater than the new one, so the buffer stays sorted |
| CounselingManagerModel.RecordStep | service/src/cube/service/aigc/scene/CounselingManager.java:135-146 | the sorted buffer is handed on whole and emptied exactly when it holds at least five contiguous chunks or more than eight; otherwise it is kept |
| CounselingManagerModel.RecordKeepsBuffer | service/src/cube/service/aigc/scene/CounselingManager.java:121-146 | recording keeps a sorted buffer of at most eight chunks sorted and at most eight long, and hands on only sorted batches of at least five chunks |
| CounselingManagerModel.RecordLosesNothing | service/src/cube/service/aigc/scene/CounselingManager.java:121-146 | what is buffered and handed on is exactly the old buffer plus the new chunk |
| CounselingManagerModel.NineChunksFlush | service/src/cube/service/aigc/scene/CounselingManager.java:141-145 | a ninth chunk flushes the buffer even when the indices have a gap |
| CounselingManagerModel.FewChunksStay | service/src/cube/service/aigc/scene/CounselingManager.java:135-146 | a buffer of four chunks or fewer is never flushed, however contiguous |
| CounselingManagerModel.IsContinuous | service/src/cube/service/aigc/scene/CounselingManager.java:850-862 | the check holds exactly when every index is the first index plus its position |
| CounselingManagerModel.FindIndex | service/src/cube/service/aigc/scene/CounselingManager.java:214-221 | the position of the first entry with the index, or -1 exactly when no entry has it |
| CounselingManagerModel.NumberedLookup | service/src/cube/service/aigc/scene/CounselingManager.java:214-224 | with entries numbered by position, strategy and caption lookups return the entry at that position, otherwise the last |
| CounselingManagerModel.FindByIndex | service/src/cube/service/aigc/scene/CounselingManager.java:214-221 | the scan returns the first entry with the index, none when there is none |
| CounselingManagerModel.NumberedFrom | service/src/cube/service/aigc/scene/CounselingManager.java:270-277 | one caption per line, each numbered by the count before it |
| CounselingManagerModel.Without | service/src/cube/service/aigc/scene/CounselingManager.java:88-119 | the map keeps exactly the keys not removed, with their values |
| CounselingManagerModel.ExpiredKeys | service/src/cube/service/aigc/scene/CounselingManager.java:93 | the streams removed are exactly those whose wrappers have been idle for more than four hours |
| CounselingManagerModel.NumberCaptions | service/src/cube/service/aigc/scene/CounselingManager.java:270-277 | the loop numbers the new captions from 0 in line order |
| CounselingManagerModel.CaptionsFromReply | service/src/cube/service/aigc/scene/CounselingManager.java:266-277 | the captions of a reply are its Markdown lines numbered from 0, and so numbered by position |
| CounselingManagerModel.LookupStrategy | service/src/cube/service/aigc/scene/CounselingManager.java:213-224 | the strategy with the asked index, otherwise the last |
| CounselingManagerModel.LookupCaption | service/src/cube/service/aigc/scene/CounselingManager.java:281-298 | the caption with the asked index, else the one at that position when in range, else the last |
| CounselingManagerModel.Rebuffer | service/src/cube/service/aigc/scene/CounselingManager.java:126-146 | the synchronized block computes the recording step |
| CounselingManagerModel.CounselingManager.constructor | service/src/cube/service/aigc/scene/CounselingManager.java:49-54 | a new manager holds no streams, no wrappers and no batches |
| CounselingManagerModel.CounselingManager.Record | service/src/cube/service/aigc/scene/CounselingManager.java:121-164 | the stream's buffer becomes the recording step's buffer, a flushed batch is handed on, and the other maps are untouched; buffers stay sorted and short |
| CounselingManagerModel.CounselingManager.QueryStrategy | service/src/cube/service/aigc/scene/CounselingManager.java:176-225 | the stream is refreshed; an existing strategy list is looked up; otherwise the model's reply, when there is one and none is being generated, becomes strategy 0 |
| CounselingManagerModel.CounselingManager.QueryCaption | service/src/cube/service/aigc/scene/CounselingManager.java:238-299 | an existing caption list is looked up; otherwise the reply's Markdown lines become captions numbered from 0 and the first is returned; the stream is not refreshed |
| CounselingManagerModel.CounselingManager.OnTick | service/src/cube/service/aigc/scene/CounselingManager.java:88-119 | a stream idle for more than four hours is dropped from all three maps and nothing else changes |
| PsychologySceneModel.MakeTask | service/src/cube/service/aigc/scene/PsychologyScene.java:1669-1680 | a task keeps its serial number and caps the indicator limit at 36: the smaller of the asked limit and 36 |
| PsychologySceneModel.PositionAt | service/src/cube/service/aigc/scene/PsychologyScene.java:635-644 | with the first task for sn at index i, the position is i + 1 and removal takes out exactly that task |
| PsychologySceneModel.PositionAbsent | service/src/cube/service/aigc/scene/PsychologyScene.java:635-644 | with no task for sn, the position is -1 and removal changes nothing |
| PsychologySceneModel.PositionMeaning | service/src/cube/service/aigc/scene/PsychologyScene.java:600-644 | the position is -1 exactly when no task is for sn; otherwise it points, 1-based, at the first task for sn, and the removal in stopGenerating takes out exactly that task |
| PsychologySceneModel.FirstFor | service/src/cube/service/aigc/scene/PsychologyScene.java:635-644 | a task for sn at or before i gives a first one |
| PsychologySceneModel.PositionAfterOffer | service/src/cube/service/aigc/scene/PsychologyScene.java:635-644 | a request for a serial number not yet queued is queued last |
| PsychologySceneModel.QueuePosition | service/src/cube/service/aigc/scene/PsychologyScene.java:635-644 | the counting scan returns the 1-based position of the first task for sn, or -1 |
| PsychologySceneModel.DropFirst | service/src/cube/service/aigc/scene/PsychologyScene.java:612-620 | the iterator loop removes the first task for sn and keeps the others in order |
| PsychologySceneModel.Concurrency | service/src/cube/service/aigc/scene/PsychologyScene.java:377-387 | no concurrency exactly when there is neither a BaizeNext nor a BaizeX unit; otherwise the BaizeNext count, else the BaizeX count, one less when above two |
| PsychologySceneModel.Admit | service/src/cube/service/aigc/scene/PsychologyScene.java:358-392 | a request is admitted exactly when there is a channel, room in the queue, an age in range, some Baize unit and a psychology unit, and then runs with the concurrency |
| PsychologySceneModel.OtherObjectsPositive | service/src/cube/service/aigc/scene/PsychologyScene.java:224-233 | some label is counted exactly when some detected label does not begin with 人 |
| PsychologySceneModel.HasMoreObjects | service/src/cube/service/aigc/scene/PsychologyScene.java:224-233 | the scan holds exactly when some detected object is not a person |
| PsychologySceneModel.CheckPsychologyPainting | service/src/cube/service/aigc/scene/PsychologyScene.java:174-222 | true exactly when the file, the unit and a successful answer are present and the answer says yes or detection found nothing but persons |
| PsychologySceneModel.Live | service/src/cube/service/aigc/scene/PsychologyScene.java:1626-1649 | an entry stays exactly when it is no older than twelve hours, with its value |
| PsychologySceneModel.LiveShrinks | service/src/cube/service/aigc/scene/PsychologyScene.java:1626-1649 | a later tick keeps no more entries, and a second tick at the same time changes nothing |
| PsychologySceneModel.DropExpired | service/src/cube/service/aigc/scene/PsychologyScene.java:1627-1642 | the removal loop keeps exactly the live entries |
| PsychologySceneModel.PsychologyScene.constructor | service/src/cube/service/aigc/scene/PsychologyScene.java:84-92 | a new scene has empty queues and maps, no running task and a queue limit of 30 |
| PsychologySceneModel.PsychologyScene.Generate | service/src/cube/service/aigc/scene/PsychologyScene.java:353-416 | a refused request returns nothing and changes nothing; an admitted one queues its task last, stores its report, and starts a worker exactly when fewer run than the concurrency allows |
| PsychologySceneModel.PsychologyScene.StopGenerating | service/src/cube/service/aigc/scene/PsychologyScene.java:600-629 | nothing happens without a painting report for sn or when it is already Ok; otherwise the first queued task for sn is removed and the report marked Stopped |
| PsychologySceneModel.PsychologyScene.OnTick | service/src/cube/service/aigc/scene/PsychologyScene.java:1626-1649 | reports and paintings older than twelve hours are dropped; after an hour since the last refresh the retention is refreshed and the time noted |
| KnowledgeBaseModel.FirstWhere | service/src/cube/service/aigc/knowledge/KnowledgeBase.java:2618-2630 | the index of the first element satisfying the test, or the length exactly when none does |
| KnowledgeBaseModel.RemoveAt | service/src/cube/service/aigc/knowledge/KnowledgeBase.java:2646-2658 | removing at an index drops exactly that element and keeps the others in order; the length leaves the list unchanged |
| KnowledgeBaseModel.AppendDocTo | service/src/cube/service/aigc/knowledge/KnowledgeBase.java:2598-2608 | the document ends up last, after the list with its first equal document removed |
| KnowledgeBaseModel.AppendDocKeepsUnique | service/src/cube/service/aigc/knowledge/KnowledgeBase.java:2598-2608 | on a list without duplicates, appending keeps it without duplicates, grows it exactly when no equal document was there, and leaves no other equal document |
| KnowledgeBaseModel.AppendDocIdempotent | service/src/cube/service/aigc/knowledge/KnowledgeBase.java:2598-2608 | appending the same document twice is appending it once |
| KnowledgeBaseModel.AppendDocsKeepsUnique | service/src/cube/service/aigc/knowledge/KnowledgeBase.java:2584-2596 | appending documents one by one keeps the list without duplicates |
| KnowledgeBaseModel.RemoveByCodeMeaning | service/src/cube/service/aigc/knowledge/KnowledgeBase.java:2618-2630 | without duplicates, removal by file code takes out and returns the first document with that code and nothing else; with none nothing changes |
| KnowledgeBaseModel.AppendArticleMeaning | service/src/cube/service/aigc/knowledge/KnowledgeBase.java:2632-2644 | appending an article keeps the list without duplicates and holds the article; an equal article keeps its place and the length, otherwise the list grows; no other article moves |
| KnowledgeBaseModel.RemoveArticleFrom | service/src/cube/service/aigc/knowledge/KnowledgeBase.java:2646-2658 | the loop removes the first article with the id |
| KnowledgeBaseModel.FirstWhereAt | service/src/cube/service/aigc/knowledge/KnowledgeBase.java:2650-2656 | the first index is where the test first holds |
| KnowledgeBaseModel.RemoveArticleMeaning | service/src/cube/service/aigc/knowledge/KnowledgeBase.java:2646-2658 | removal by id takes out one article exactly when one has that id, leaves only articles that were there, and keeps the list without duplicates |
| KnowledgeBaseModel.RemoveAtShrinks | service/src/cube/service/aigc/knowledge/KnowledgeBase.java:2646-2658 | removing an element leaves a sub-multiset of the list |
| KnowledgeBaseModel.Partition | service/src/cube/service/aigc/knowledge/KnowledgeBase.java:401-416 | the batches are consecutive, each of one to ten items, all but the last exactly ten, their number the ceiling of n/10, and together they are the whole list |
| KnowledgeBaseModel.BatchCount | service/src/cube/service/aigc/knowledge/KnowledgeBase.java:401-416 | n full batches and a partial one of d items count n + 1 |
| KnowledgeBaseModel.TrimLimit | service/src/cube/service/aigc/knowledge/KnowledgeBase.java:2411-2420 | the chunk length is maxWords for a text within it, otherwise half the length, halved once more when that still exceeds maxWords |
| KnowledgeBaseModel.LinesOf | service/src/cube/service/aigc/knowledge/KnowledgeBase.java:2421-2440 | one chunk per group, each its lines with a newline after each |
| KnowledgeBaseModel.LinesSnoc | service/src/cube/service/aigc/knowledge/KnowledgeBase.java:2421-2440 | a line added to a group adds it and a newline to the chunk |
| KnowledgeBaseModel.LinesOfSnoc | service/src/cube/service/aigc/knowledge/KnowledgeBase.java:2421-2440 | a group added to the list adds its chunk |
| KnowledgeBaseModel.TrimArticleContent | service/src/cube/service/aigc/knowledge/KnowledgeBase.java:2411-2440 | the method computes the limit and then the chunks of the text's lines |
| KnowledgeBaseModel.TrimPieces | service/src/cube/service/aigc/knowledge/KnowledgeBase.java:2421-2440 | the loop computes the chunks of the lines at the limit |
| KnowledgeBaseModel.TrimRunInvariant | service/src/cube/service/aigc/knowledge/KnowledgeBase.java:2421-2440 | the chunking run keeps its invariant over every prefix of the lines |
| KnowledgeBaseModel.TrimStepKeeps | service/src/cube/service/aigc/knowledge/KnowledgeBase.java:2421-2440 | one line keeps the chunking invariant |
| KnowledgeBaseModel.TrimGroupsMeaning | service/src/cube/service/aigc/knowledge/KnowledgeBase.java:2411-2440 | every chunk but the last closes once its length reaches the limit and not before, the last may stay below it, every chunk ends in a newline, and the chunks are the text's lines in order, leaving out only empty trailing lines |
| KnowledgeBaseModel.Present | service/src/cube/service/aigc/knowledge/KnowledgeBase.java:145-158 | the kept documents are listed documents whose file still exists |
| KnowledgeBaseModel.Gone | service/src/cube/service/aigc/knowledge/KnowledgeBase.java:145-158 | the deleted documents are listed documents whose file is gone |
| KnowledgeBaseModel.PresentGone | service/src/cube/service/aigc/knowledge/KnowledgeBase.java:145-158 | every listed document is either kept or deleted |
| KnowledgeBaseModel.FilterPresent | service/src/cube/service/aigc/knowledge/KnowledgeBase.java:145-158 | the iterator loop keeps the documents whose file exists and deletes the others |
| KnowledgeBaseModel.FindDoc | service/src/cube/service/aigc/knowledge/KnowledgeBase.java:2561-2573 | the first document with the file code, none when there is none |
| KnowledgeBaseModel.KnowledgeResource.constructor | service/src/cube/service/aigc/knowledge/KnowledgeBase.java:2540-2543 | a new resource has neither list and no list time |
| KnowledgeBaseModel.KnowledgeResource.GetKnowledgeDoc | service/src/cube/service/aigc/knowledge/KnowledgeBase.java:2561-2573 | a result is a listed document with the file code; none exactly when there is no list or no document with that code |
| KnowledgeBaseModel.KnowledgeResource.ClearDocs | service/src/cube/service/aigc/knowledge/KnowledgeBase.java:2575-2582 | clearDocs always leaves an empty list, creating one when there is none |
| KnowledgeBaseModel.KnowledgeResource.AppendDoc | service/src/cube/service/aigc/knowledge/KnowledgeBase.java:2598-2608 | the list, created when missing, becomes the appended list; the articles are untouched |
| KnowledgeBaseModel.KnowledgeResource.AppendDocs | service/src/cube/service/aigc/knowledge/KnowledgeBase.java:2584-2596 | the list, created when missing, has each document appended in turn |
| KnowledgeBaseModel.KnowledgeResource.RemoveDoc | service/src/cube/service/aigc/knowledge/KnowledgeBase.java:2610-2616 | the first equal document goes; nothing happens without a list |
| KnowledgeBaseModel.KnowledgeResource.RemoveDocByCode | service/src/cube/service/aigc/knowledge/KnowledgeBase.java:2618-2630 | the first document with the code is removed and returned; nothing happens without a list or such a document |
| KnowledgeBaseModel.KnowledgeResource.AppendArticle | service/src/cube/service/aigc/knowledge/KnowledgeBase.java:2632-2644 | the article list, created when missing, replaces an equal article in place or appends the article |
| KnowledgeBaseModel.KnowledgeResource.RemoveArticle | service/src/cube/service/aigc/knowledge/KnowledgeBase.java:2646-2658 | the first article with the id goes; nothing happens without a list |
| KnowledgeBaseModel.KnowledgeResource.ClearArticles | service/src/cube/service/aigc/knowledge/KnowledgeBase.java:2660-2666 | clearArticles empties an existing list and leaves a missing one missing |
| KnowledgeBaseModel.KnowledgeResource.ListKnowledgeDocs | service/src/cube/service/aigc/knowledge/KnowledgeBase.java:129-168 | force clears the list and its time; a list younger than thirty seconds is served from memory; otherwise the stored documents whose files exist are returned, the others deleted, the time noted and the survivors appended |
| AigcServiceModel.Select | service/src/cube/service/aigc/AIGCService.java:612-620 | the candidates are exactly the units of the list that satisfy the unit test |
| AigcServiceModel.Collect | service/src/cube/service/aigc/AIGCService.java:612-620 | the candidate loop collects Select of the units, in map order |
| AigcServiceModel.Oldest | service/src/cube/service/aigc/AIGCService.java:626-636 | the head of the list after the stable sort by last running time: a member of the list, run no later than any, and strictly later-run units only before it |
| AigcServiceModel.Choice | service/src/cube/service/aigc/AIGCService.java:701-731 | the candidate choice is None exactly for no candidates and otherwise one of them |
| AigcServiceModel.SelectIdleUnitByName | service/src/cube/service/aigc/AIGCService.java:609-637 | None exactly when no valid idle unit has the name; otherwise such a unit run no later than any other valid idle unit of the name |
| AigcServiceModel.SelectIdle | service/src/cube/service/aigc/AIGCService.java:609-620 | the idle units of a name are its valid units that are not running, in the same order |
| AigcServiceModel.SelectUnitByName | service/src/cube/service/aigc/AIGCService.java:639-732 | the result is the oldest idle unit, else the oldest valid unit (every valid one running), else None |
| AigcServiceModel.UnitByNameMeaning | service/src/cube/service/aigc/AIGCService.java:639-732 | None exactly when no valid unit has the name; an idle unit whenever one exists, run no later than any idle one; otherwise the least recently run valid unit |
| AigcServiceModel.SelectUnitForContact | service/src/cube/service/aigc/AIGCService.java:734-792 | a contact id above 9999999999, or a name without valid units heavier than 5.0, gets the general selection; otherwise the same choice among the heavy units |
| AigcServiceModel.ShortIdGetsHeavyUnit | service/src/cube/service/aigc/AIGCService.java:734-757 | a contact id of at most ten digits gets a heavy unit whenever the name has one |
| AigcServiceModel.ParticipantIgnoresCase | service/src/cube/service/aigc/AIGCService.java:3637-3645 | the reserved-name check gives the same answer for a name and its lower-case form |
| AigcServiceModel.ReservedNames | service/src/cube/service/aigc/AIGCService.java:3637-3645 | AIGC, Cube, Baize in any case and 白泽 are refused; other names pass |
| AigcServiceModel.FindBusy | service/src/cube/service/aigc/AIGCService.java:1580-1590 | true exactly when some channel of the token is still processing |
| AigcServiceModel.AigcService.RequestChannel | service/src/cube/service/aigc/AIGCService.java:1569-1598 | None, with the channels unchanged, for 10000 channels, a reserved participant or a processing channel of the token; otherwise the new channel is added under its code |
| AigcServiceModel.TickChannels | service/src/cube/service/aigc/AIGCService.java:378-389 | the channels kept are those active within thirty minutes; a kept channel's processing flag is cleared once five minutes old |
| AigcServiceModel.AigcService.OnTick | service/src/cube/service/aigc/AIGCService.java:378-389 | the channels after the tick are TickChannels of the channels before |
| AigcServiceModel.AllChannels | service/src/cube/service/aigc/AIGCService.java:574-578 | each channel appears twice, as the values are added twice: length 2n and every count doubled |
| AigcServiceModel.Shared | service/src/cube/service/aigc/AIGCService.java:3350-3355 | the count of the longer list's words found in the other is at most the longer list's length |
| AigcServiceModel.Ratio | service/src/cube/service/aigc/AIGCService.java:3356 | count / total lies in [0, 1], is 1 for count = total and 0 for count = 0 |
| AigcServiceModel.SentenceSimilarity | service/src/cube/service/aigc/AIGCService.java:3336-3357 | the share of the longer word list (the second on a tie) found in the shorter one; None for two empty lists; always in [0, 1] |
| AigcServiceModel.SharedSelf | service/src/cube/service/aigc/AIGCService.java:3350-3355 | every word of a list contained in the other counts |
| AigcServiceModel.SimilaritySelf | service/src/cube/service/aigc/AIGCService.java:3336-3357 | a non-empty word list has similarity 1 with itself |
| AigcServiceModel.SharedDisjoint | service/src/cube/service/aigc/AIGCService.java:3350-3355 | lists with no common word have no shared count |
| MessagingServiceModel.CompareConversations | service-messaging/src/cube/service/messaging/MessagingService.java:866-893 | same state: the later timestamp first (and 0 only for equal timestamps); Important before Normal; every other pair of states compares as 0 |
| MessagingServiceModel.CompareAntisymmetric | service-messaging/src/cube/service/messaging/MessagingService.java:866-893 | swapping the two conversations negates the comparison |
| MessagingServiceModel.CompareOrdersTwoStates | service-messaging/src/cube/service/messaging/MessagingService.java:866-893 | over Normal and Important conversations the comparator is the strict order "Important first, then later first", which is transitive, and 0 only for equal conversations |
| MessagingServiceModel.CompareWithThirdState | service-messaging/src/cube/service/messaging/MessagingService.java:866-893 | with a third state the comparator is inconsistent: an Important and a Normal conversation each compare equal to it, yet not to each other |
| MessagingServiceModel.CopyFor | service-messaging/src/cube/service/messaging/MessagingService.java:926-932 | a copy differs from the message in its owner only |
| MessagingServiceModel.MakeCopies | service-messaging/src/cube/service/messaging/MessagingService.java:923-935 | two copies, owned by the sender and by the receiver, otherwise equal to the message |
| MessagingServiceModel.GroupCopies | service-messaging/src/cube/service/messaging/MessagingService.java:425-436 | at most one copy per listed member |
| MessagingServiceModel.Without | service-messaging/src/cube/service/messaging/MessagingService.java:425-429 | the members kept are exactly those other than the sender |
| MessagingServiceModel.GroupCopiesMeaning | service-messaging/src/cube/service/messaging/MessagingService.java:424-459 | the copies' owners are the members other than the sender, in member order, each copy being the message addressed to and owned by that member |
| MessagingServiceModel.FanOut | service-messaging/src/cube/service/messaging/MessagingService.java:424-459 | the fan-out loop builds GroupCopies of the members |
| MessagingServiceModel.Plan | service-messaging/src/cube/service/messaging/MessagingService.java:318-546 | the branching of pushMessage yields PushPlan |
| MessagingServiceModel.PushMeaning | service-messaging/src/cube/service/messaging/MessagingService.java:318-546 | an attachment error is Fault/AttachmentError; a direct message is SendBlocked if the sender blocks the receiver, ReceiveBlocked if the receiver blocks the sender, else Sent with copies for the receiver and the sender; a group message is NoGroup or GroupError unless the group is normal, and then one copy per other member plus the sender's; no receiver and no group source is DataStructureError; a private message stores only the sender's copy; Ok exactly when the message ends Sent and exactly when there are copies, all Sent and stamped now |
| MessagingServiceModel.RecordedMeaning | service-messaging/src/cube/service/messaging/MessagingService.java:393-397 | each delivered copy's key holds a Sent bundle; every other bundle is kept |
| MessagingServiceModel.RecordAll | service-messaging/src/cube/service/messaging/MessagingService.java:393-397 | the recording loop yields Recorded |
| MessagingServiceModel.MarkAs | service-messaging/src/cube/service/messaging/MessagingService.java:711-715 | only the bundle of the key, if present, changes, and only its state |
| MessagingServiceModel.MarkEach | service-messaging/src/cube/service/messaging/MessagingService.java:647-653 | marking the copies keeps the keys |
| MessagingServiceModel.MarkEachMeaning | service-messaging/src/cube/service/messaging/MessagingService.java:647-653 | exactly the bundles of the id held by the listed owners get the new state; all others are unchanged |
| MessagingServiceModel.Kept | service-messaging/src/cube/service/messaging/MessagingService.java:240-252 | exactly the bundles recorded no more than thirty days before now are kept, unchanged |
| MessagingServiceModel.DropOld | service-messaging/src/cube/service/messaging/MessagingService.java:245-251 | the expiry loop yields Kept |
| MessagingServiceModel.LearnedAgrees | service-messaging/src/cube/service/messaging/MessagingService.java:570-582 | learning keeps every bundle and adds only stored states of the contact's copies |
| MessagingServiceModel.PulledMeaning | service-messaging/src/cube/service/messaging/MessagingService.java:566-590 | every pulled message is Sent or Read and is a cached item with only its state changed; no more messages than items |
| MessagingServiceModel.PullCached | service-messaging/src/cube/service/messaging/MessagingService.java:566-590 | the cache loop returns Pulled and leaves the bundles as Learned |
| MessagingServiceModel.MessagingService.Push | service-messaging/src/cube/service/messaging/MessagingService.java:318-546 | the result and code of PushPlan; its copies appended to the delivered log and recorded as Sent |
| MessagingServiceModel.MessagingService.Pull | service-messaging/src/cube/service/messaging/MessagingService.java:558-597 | the Sent or Read cached items with their effective states, or the stored messages when none remains |
| MessagingServiceModel.MessagingService.MarkRead | service-messaging/src/cube/service/messaging/MessagingService.java:703-746 | no message: nothing changes; otherwise the reader's copy is Read in memory and storage, and the sender's copy too exactly when the message is not from a group, the sender is not the reader and the sender's copy is Sent |
| MessagingServiceModel.RecallWindow | service-messaging/src/cube/service/messaging/MessagingService.java:612-621 | the items kept are those cached within the last three minutes, both ends included |
| MessagingServiceModel.FindRecallable | service-messaging/src/cube/service/messaging/MessagingService.java:624-633 | true exactly when the window holds the sender's message of that id |
| MessagingServiceModel.RecallCopies | service-messaging/src/cube/service/messaging/MessagingService.java:647-659 | the loop over the stored copies yields MarkEach with Recalled |
| MessagingServiceModel.MessagingService.Recall | service-messaging/src/cube/service/messaging/MessagingService.java:612-662 | true exactly when the sender's message is in the three-minute window; then every copy of the id is Recalled in memory and one write marks all copies in storage; otherwise nothing changes |
| MessagingServiceModel.MessagingService.Delete | service-messaging/src/cube/service/messaging/MessagingService.java:671-680 | the contact's copy is Deleted in memory, if present, and in storage |
| MessagingServiceModel.MessagingService.OnTick | service-messaging/src/cube/service/messaging/MessagingService.java:240-252 | the bundles after the tick are Kept of the bundles before |
| FerryServiceModel.AdminCount | service/src/cube/service/ferry/FerryService.java:744-750 | the administrator count of the first loop of checkRole never exceeds the number of members |
| FerryServiceModel.AdminCountZero | service/src/cube/service/ferry/FerryService.java:747-750 | a domain without administrators counts zero |
| FerryServiceModel.AdminCountOne | service/src/cube/service/ferry/FerryService.java:747-750 | a domain whose only administrator is at one index counts exactly one |
| FerryServiceModel.Earliest | service/src/cube/service/ferry/FerryService.java:745-756 | the member chosen by the first loop, when there is one, is an index of the list |
| FerryServiceModel.EarliestMeaning | service/src/cube/service/ferry/FerryService.java:745-756 | no member is chosen exactly when nobody joined before now; otherwise the chosen member joined before now, no later than anybody, and strictly earlier than every member before it (ties keep the first) |
| FerryServiceModel.Promoted | service/src/cube/service/ferry/FerryService.java:762-773 | the second loop keeps the list's length |
| FerryServiceModel.PromotedMeaning | service/src/cube/service/ferry/FerryService.java:762-773 | with distinct contacts, afterwards exactly one member is an administrator, namely the chosen one; every member keeps its contact and join time; every other administrator has become a member and every other role is unchanged |
| FerryServiceModel.RoleWritesMeaning | service/src/cube/service/ferry/FerryService.java:762-773 | the storage writes are the promoted member and demoted administrators only, and their number is one for the chosen member plus the other administrators' count |
| FerryServiceModel.Survey | service/src/cube/service/ferry/FerryService.java:744-756 | the first loop computes the administrator count and the earliest member of the list |
| FerryServiceModel.Reassign | service/src/cube/service/ferry/FerryService.java:762-773 | the second loop leaves the members as Promoted describes and writes exactly RoleWrites |
| FerryServiceModel.CheckRole | service/src/cube/service/ferry/FerryService.java:743-776 | one administrator (or an empty list) leaves the members untouched with no writes; no earlier member dereferences null; otherwise the members are reassigned in place as Promoted describes and RoleWrites are written |
| PerformerModel.Layout | dispatcher/src/cube/dispatcher/Performer.java:481-496 | one section per director of the cellet |
| PerformerModel.LayoutAsWritten | dispatcher/src/cube/dispatcher/Performer.java:481-496 | one section per director, with the cursor advanced as line 490 advances it |
| PerformerModel.LayoutPartitions | dispatcher/src/cube/dispatcher/Performer.java:481-496 | with positive weights, an anchor lies in at most one of the corrected sections |
| PerformerModel.LayoutCovers | dispatcher/src/cube/dispatcher/Performer.java:481-496 | with positive weights, every anchor from 0 to the total weight minus one lies in exactly one corrected section, so the talk selection always finds a director |
| PerformerModel.CursorExceedsSum | dispatcher/src/cube/dispatcher/Performer.java:490 | as written, from the second director on the cursor runs ahead of the weights so far by at least the first weight |
| PerformerModel.LayoutAsWrittenOverruns | dispatcher/src/cube/dispatcher/Performer.java:490 | as written, with three or more directors, a positive first weight and no negative weights, the last section ends past the greatest anchor drawn (total weight minus one) |
| PerformerModel.LayoutAsWrittenMissesAnchor | dispatcher/src/cube/dispatcher/Performer.java:490 | as written, three directors of weight 1 get sections 0..0, 1..1 and 3..3, so anchor 2 lies in no section, while the corrected layout puts it in the third |
| PerformerModel.SpansLayout | dispatcher/src/cube/dispatcher/Performer.java:481-491 | the begins and ends of the first loop are those of the corrected layout |
| PerformerModel.ComputeSpans | dispatcher/src/cube/dispatcher/Performer.java:478-491 | corrected: the first loop yields the total weight and the sections' begins and ends, with the cursor moved to one past the end of each section rather than by it as line 490 does |
| PerformerModel.ComputeLayout | dispatcher/src/cube/dispatcher/Performer.java:478-496 | the two loops of start give one cellet the corrected layout, every section carrying the total weight |
| PerformerModel.Locate | dispatcher/src/cube/dispatcher/Performer.java:290-297 | the position found holds the anchor and no earlier section does; none is found only when no section holds it |
| PerformerModel.FindSection | dispatcher/src/cube/dispatcher/Performer.java:290-297 | the search loop returns the first section that holds the anchor |
| PerformerModel.LocateFirst | dispatcher/src/cube/dispatcher/Performer.java:290-297 | a section holding the anchor with none before it is the one found |
| PerformerModel.Heaviest | dispatcher/src/cube/dispatcher/Performer.java:337-353 | none exactly when there are no directors (the source fails on get(0)); otherwise a valid position |
| PerformerModel.Leading | dispatcher/src/cube/dispatcher/Performer.java:340-346 | the running choice beats w and all weights, strictly beats every earlier weight (ties keep the first), and is absent exactly when no weight exceeds w |
| PerformerModel.SelectHeaviest | dispatcher/src/cube/dispatcher/Performer.java:337-353 | selectDirector() picks the first director of greatest positive weight, else the first director |
| PerformerModel.Register | dispatcher/src/cube/dispatcher/Performer.java:256-263 | after registration the cellets with a list are the old ones plus those of the new director's scope |
| PerformerModel.RegisterMeaning | dispatcher/src/cube/dispatcher/Performer.java:256-263 | a cellet not in the scope keeps its list; one in the scope keeps its old list as a prefix and gains the new director; no list gains anything else |
| PerformerModel.Padded | dispatcher/src/cube/dispatcher/Performer.java:256-263 | the cellets with sections are the old ones plus those of the scope |
| PerformerModel.PaddedMeaning | dispatcher/src/cube/dispatcher/Performer.java:256-263 | padding keeps every existing section and adds zeroed ones only |
| PerformerModel.RegisterKeepsAligned | dispatcher/src/cube/dispatcher/Performer.java:256-263 | registration keeps every cellet's director list non-empty, in step with its sections and within the director list |
| PerformerModel.RegisterAll | dispatcher/src/cube/dispatcher/Performer.java:256-263 | the registration loop computes Register and Padded |
| PerformerModel.Started | dispatcher/src/cube/dispatcher/Performer.java:471-497 | the corrected start gives a layout to exactly the registered cellets, one section per listed director |
| PerformerModel.LayoutAll | dispatcher/src/cube/dispatcher/Performer.java:471-497 | the loop over the cellets gives each its corrected layout by its directors' weights |
| PerformerModel.Performer.AddDirector | dispatcher/src/cube/dispatcher/Performer.java:246-266 | a director with an existing endpoint is refused and nothing changes; otherwise it is appended, registered under every cellet of its scope with a zeroed section, and nothing else changes |
| PerformerModel.Performer.Start | dispatcher/src/cube/dispatcher/Performer.java:465-497 | the sections become the corrected layouts of every cellet (the cursor moved to the end of each section plus one, not by it as line 490 does); the rest of the state is unchanged |
| PerformerModel.Performer.SelectForTalk | dispatcher/src/cube/dispatcher/Performer.java:275-306 | the memoised director of the talk, else the first director (memoised) for an unknown cellet, else the director of the first section holding the anchor (memoised), else the first director unmemoised; none on an empty director list |
| PerformerModel.Performer.StartedTalkMemoised | dispatcher/src/cube/dispatcher/Performer.java:288-302 | after a corrected start, with positive weights, an anchor drawn from 0 to the total weight minus one always selects one of the cellet's directors and memoises it |
| PerformerModel.Performer.AsWrittenTalkFallsBack | dispatcher/src/cube/dispatcher/Performer.java:288-306 | with the sections start lays out as written for three directors of weight 1, the anchor 2 lies in no section, so the talk gets the first director and nothing is memoised |
| PerformerModel.Performer.SelectForToken | dispatcher/src/cube/dispatcher/Performer.java:315-330 | the token's memoised director, else the talk selection for its device, else the heaviest director memoised for the token |
| PerformerModel.Performer.UpdateContact | dispatcher/src/cube/dispatcher/Performer.java:371-391 | the token's device is recorded and the contact's devices are merged into its online entry |
| PerformerModel.Performer.RemoveContact | dispatcher/src/cube/dispatcher/Performer.java:399-413 | the device is removed from a known contact, and the contact is dropped once it has no device; an unknown contact changes nothing |
| TextUtilsModel.Value | common/src/cube/util/TextUtils.java:765-769 | the value of a digit string has fewer decimal places than the string has digits |
| TextUtilsModel.ValueAppend | common/src/cube/util/TextUtils.java:765-769 | the value of two digit strings written one after the other is the first shifted by the second's length plus the second |
| TextUtilsModel.ParseInt | common/src/cube/util/TextUtils.java:765-769 | over ASCII digits, Integer.parseInt accepts only a sign and digits, never a dot, and only values within the 32-bit range |
| TextUtilsModel.NumericInt | common/src/cube/util/TextUtils.java:91-97 | a word the numeric scans accept is numeric and has no fractional part |
| TextUtilsModel.ShortDigitsParse | common/src/cube/util/TextUtils.java:91-97 | a digit string of up to nine digits is always accepted, with its decimal value |
| TextUtilsModel.FractionRejected | common/src/cube/util/TextUtils.java:91-97 | a numeric word with a fractional part is numeric but never parses as an int |
| TextUtilsModel.NonSpaceAppend | common/src/cube/util/TextUtils.java:745-758 | the non-space characters and the digits of two texts in a row are those of each, in order |
| TextUtilsModel.ReverseReverse | common/src/cube/util/TextUtils.java:765-769 | reversing the collected digits twice gives them back |
| TextUtilsModel.ScanBack | common/src/cube/util/TextUtils.java:744-758 | the backward loop gives up once more than limit non-space characters or digits were seen, and otherwise collects the digits before the marker in text order |
| TextUtilsModel.TooManyBefore | common/src/cube/util/TextUtils.java:754-757 | more than limit non-space characters before the marker make the scan give up |
| TextUtilsModel.ScanForward | common/src/cube/util/TextUtils.java:850-868 | the forward loop of the day extractor does the same over the text after the marker |
| TextUtilsModel.YearOf | common/src/cube/util/TextUtils.java:737-770 | the year read is between 0 and 9999 |
| TextUtilsModel.YearValue | common/src/cube/util/TextUtils.java:759-769 | up to four digits read as a year stay within 9999, two digits YY standing for 20YY |
| TextUtilsModel.TwoDigitYear | common/src/cube/util/TextUtils.java:762-764 | a two-digit year lands in 2000 to 2099 |
| TextUtilsModel.ExtractYear | common/src/cube/util/TextUtils.java:737-770 | the method computes the year of the text |
| TextUtilsModel.MonthOf | common/src/cube/util/TextUtils.java:778-814 | the month read is between 0 and 12 |
| TextUtilsModel.ExtractMonth | common/src/cube/util/TextUtils.java:778-814 | the method computes the month of the text |
| TextUtilsModel.DayOf | common/src/cube/util/TextUtils.java:822-881 | the day read is between 0 and 31 |
| TextUtilsModel.ExtractDay | common/src/cube/util/TextUtils.java:822-881 | the method computes the day of the text, trying 日, then 号, then the digits after 月 |
| TextUtilsModel.DigitRunOfNumber | common/src/cube/util/TextUtils.java:744-758 | a number written after a character that is neither a digit nor a space is the digit run before its end |
| TextUtilsModel.DigitRunForwardOfNumber | common/src/cube/util/TextUtils.java:850-868 | a number written before such a character is the digit run from its start |
| TextUtilsModel.CorrectedYearOf | common/src/cube/util/TextUtils.java:737-770 | as intended, the year read from the digit run before 年 is between 0 and 9999 |
| TextUtilsModel.CorrectedMonthOf | common/src/cube/util/TextUtils.java:778-814 | as intended, the month read from the digit run before 月 is between 0 and 12 |
| TextUtilsModel.CorrectedDayOf | common/src/cube/util/TextUtils.java:822-881 | as intended, the day read from the digit run before 日 or 号, or after 月, is between 0 and 31 |
| TextUtilsModel.NumberBeforeMarker | common/src/cube/util/TextUtils.java:737-770 | as intended, a number of one to limit digits written right before the marker is what the scan finds, whatever precedes it |
| TextUtilsModel.NumberBeforeMarkerLost | common/src/cube/util/TextUtils.java:751-757 | as written, the same number is lost once more than limit non-space characters precede the marker |
| TextUtilsModel.YearAsWritten | common/src/cube/util/TextUtils.java:1059-1101 | as written, the year of 这是来自24年的祝福 is 0 |
| TextUtilsModel.YearCorrected | common/src/cube/util/TextUtils.java:737-770 | as intended, the same text gives 2024 |
| TextUtilsModel.MonthAsWritten | common/src/cube/util/TextUtils.java:778-814 | as written, the month of 查看2025年4月的 is 0 |
| TextUtilsModel.MonthCorrected | common/src/cube/util/TextUtils.java:778-814 | as intended, the same text gives 4 |
| TextUtilsModel.DayAsWritten | common/src/cube/util/TextUtils.java:822-881 | as written, the day of 这是来自10月17日的祝福 is 0 |
| TextUtilsModel.DayCorrected | common/src/cube/util/TextUtils.java:822-881 | as intended, the same text gives 17 |
| TextUtilsModel.Ellipsis | common/src/cube/util/TextUtils.java:299-306 | a text within limit is unchanged; a longer one becomes its first limit - 1 characters and "..." |
| TextUtilsModel.EllipsisIdempotent | common/src/cube/util/TextUtils.java:299-306 | an abbreviated text abbreviates to itself |
| TextUtilsModel.AccountName | common/src/cube/util/TextUtils.java:947-955 | with an '@' after the first character, the non-empty prefix before the first '@'; otherwise the whole text |
| TextUtilsModel.AccountNameIdempotent | common/src/cube/util/TextUtils.java:947-955 | taking the account name twice changes nothing |
| TextUtilsModel.AccountNameOfAddress | common/src/cube/util/TextUtils.java:947-955 | the address whose name part has no '@' gives that name back |
| TextUtilsModel.Clip | common/src/cube/util/TextUtils.java:973-982 | the note always ends in "...", is at most 23 characters, and shows a proper prefix of ceil(len/5) characters, at most 20, of a text longer than one character, nothing otherwise |
| TextUtilsModel.IsWord | common/src/cube/util/TextUtils.java:493-504 | a word is one whose first character is an ASCII letter or digit; only that character is looked at |
| TextUtilsModel.IsBlank | common/src/cube/util/TextUtils.java:617-624 | a text is blank exactly when it is missing or all its characters are up to U+0020 |
| TextUtilsModel.UnblankedDropsOnlySpaces | common/src/cube/util/TextUtils.java:450-467 | fixing Chinese blanks drops only spaces and keeps every other character in order |
| TextUtilsModel.UnblankedWithoutChinese | common/src/cube/util/TextUtils.java:450-467 | a text without Chinese characters is left as it is |
| TextUtilsModel.ChineseBlankDropped | common/src/cube/util/TextUtils.java:450-467 | a Chinese character followed by one space loses the space |
| TextUtilsModel.FixChineseBlank | common/src/cube/util/TextUtils.java:450-467 | the loop copies every character and skips a space right after a Chinese one |
| TextUtilsModel.NumberSignsAreNumbers | common/src/cube/util/TextUtils.java:539-549 | the list markers are the numbers 1 to 15 followed by a dot |
| TextUtilsModel.NumberSignShape | common/src/cube/util/TextUtils.java:539-549 | a numbered text starts with a non-zero digit and a dot follows within two places |
| TextUtilsModel.ContainsString | common/src/cube/util/TextUtils.java:984-992 | the loop finds a candidate exactly when one occurs in the text, both lower-cased |
| TextUtilsModel.LowerIdempotent | common/src/cube/util/TextUtils.java:984-992 | lower-casing twice is lower-casing once |
| TextUtilsModel.ContainsAnyIgnoresCase | common/src/cube/util/TextUtils.java:984-992 | lower-casing the text first changes nothing |
| TextUtilsModel.SplitListLoop | common/src/cube/util/TextUtils.java:585-601 | the loop builds the groups as written |
| TextUtilsModel.SplitRunInvariant | common/src/cube/util/TextUtils.java:585-601 | the grouping run keeps its invariant over every prefix of the list |
| TextUtilsModel.SplitStepKeeps | common/src/cube/util/TextUtils.java:585-601 | one item keeps the grouping invariant |
| TextUtilsModel.SplitListProps | common/src/cube/util/TextUtils.java:585-601 | as written, the groups flatten to the list, every group but the last exceeds limit, and within each group all items but the last fit in it |
| TextUtilsModel.SplitListOverflows | common/src/cube/util/TextUtils.java:577-601 | the closing test sits before the add, so the group a, b, c totals 3 against a limit of 2, although the doc comment says no group exceeds the limit |
| TextUtilsModel.FitRunInvariant | common/src/cube/util/TextUtils.java:577-601 | the corrected grouping keeps its invariant over every prefix of the list |
| TextUtilsModel.FitStepKeeps | common/src/cube/util/TextUtils.java:577-601 | one item keeps the corrected invariant |
| TextUtilsModel.CorrectedSplitListProps | common/src/cube/util/TextUtils.java:577-601 | as intended, the groups flatten to the list, none is empty, and each stays within limit unless it is a single item that alone exceeds it |
| TextUtilsModel.ChainRemoves | common/src/cube/util/TextUtils.java:348-363 | a character replaced on its own at some step and produced by no step is gone at the end |
| TextUtilsModel.NoChineseNumeralsLeft | common/src/cube/util/TextUtils.java:348-363 | none of 一 to 九, 零 or 十 is left in the output |
| TextUtilsModel.TwentyBecomes210 | common/src/cube/util/TextUtils.java:348-363 | character by character, 二十 becomes 210, not 20 |
| TextUtilsModel.TwentyAfterTwo | common/src/cube/util/TextUtils.java:348-363 | 十一, 十二 and 一 leave 二十 alone, and 二 then makes it 2十 |
| TextUtilsModel.TwentyAfterTen | common/src/cube/util/TextUtils.java:348-363 | 三 to 零 do not occur in 2十 |
| TextUtilsModel.ChainStep | common/src/cube/util/TextUtils.java:348-363 | each replacement applies to the result of the ones before it |
| TextUtilsModel.ReplaceAbsent | common/src/cube/util/TextUtils.java:348-363 | text without the pattern's first character is left alone |
| TextUtilsModel.MaxLength | common/src/cube/util/TextUtils.java:180-227 | the longest line's length bounds every line and is attained, 0 for no line |
| TextUtilsModel.MeasureTextAreas | common/src/cube/util/TextUtils.java:180-227 | width is ps·cols + ws·(cols - 1) + 2ps and height ps·rows + ls·(rows - 1) + 2ps, each capped at its maximum, where cols is the longest line and rows the number of lines |
| TextUtilsModel.CountRowsAndColumns | common/src/cube/util/TextUtils.java:186-205 | the scan counts the lines and their longest length |
| TextUtilsModel.NewlineScanned | common/src/cube/util/TextUtils.java:186-205 | a newline closes the open line and starts a new one |
| TextUtilsModel.CharScanned | common/src/cube/util/TextUtils.java:186-205 | another character lengthens the open line |
| TextUtilsModel.RowsCountNewlines | common/src/cube/util/TextUtils.java:186-205 | a text has one line more than it has newlines |
| TextUtilsModel.MarkdownLineIsSuffix | common/src/cube/util/TextUtils.java:649-671 | a line's text is a suffix of the trimmed line, the whole trimmed line without a marker or a space to end one |
| TextUtilsModel.MarkerStripped | common/src/cube/util/TextUtils.java:649-671 | a marker and the space after it are dropped and the rest kept |
| TextUtilsModel.MarkdownLines | common/src/cube/util/TextUtils.java:649-671 | one text per line, in order |
| TextUtilsModel.ExtractMarkdownTextAsList | common/src/cube/util/TextUtils.java:649-671 | the method computes the text of each line of the Markdown split at newlines |
| TextUtilsModel.StripMarker | common/src/cube/util/TextUtils.java:655-668 | the loop body computes one line's text |
| TextUtilsModel.LocationStop | common/src/cube/util/TextUtils.java:907-918 | the word scan stops at a 第 another word follows or at a word mentioning 最近, and nowhere earlier |
| TextUtilsModel.ConvAll | common/src/cube/util/TextUtils.java:919 | each scanned word is kept with its Chinese numerals converted |
| TextUtilsModel.OrdinalDigits | common/src/cube/util/TextUtils.java:922-938 | the digits after the first 第 of the first text that has some there are all digits |
| TextUtilsModel.ExtractLocation | common/src/cube/util/TextUtils.java:904-945 | the method computes the position the words name |
| TextUtilsModel.FirstOrdinalDigits | common/src/cube/util/TextUtils.java:922-938 | the second scan collects the digits after the first 第 of the first text that has any |
| TextUtilsModel.ValueOfNatToString | common/src/cube/util/TextUtils.java:940-944 | the value of a number's decimal digits is the number |
| TextUtilsModel.OrdinalWordNamesPosition | common/src/cube/util/TextUtils.java:904-945 | a query segmented as 第 and a number names that position |
| TextUtilsModel.NegativeOrdinalWord | common/src/cube/util/TextUtils.java:910-914 | a minus sign in the word after 第 goes through: 第, -2 names position -2 |

## Left out

- Storage, the network, file I/O, threads, locks and clocks are not modelled. Time and stored values are parameters. Of the questionnaire's asynchronous callbacks, the finishing callback is modelled as an immediate call (`ScaleTrack.ProcessFinish`: end time, hidden-question answers, inference requests); the report generation it starts, its waiting loop and the results of the inference requests are not modelled.
- Evaluation.java, PictureDescription, ContactManager, AIGCChannel, AIGCUnit, Director, Section, Scale, Question and Message are not part of this model. Where their behaviour matters, it is a parameter or a field of a small datatype.
- The scripted evaluators (`calcAttention` and `calcSuggestion` run through the JavaScript engine) are left out. The Java fallback they replace is modelled.
- Building reports and representations from JSON, sorting representations, `generateWord`, and the suggestion prompt of `EvaluationReport` are left out, because they need JSON, templates or language-model text. The words are a parameter.
- BigFiveFeature's `guess()` is never reached by the cascade, since every branch yields a template, so it is not modelled.
- Painting's `parseMaterials` (JSON geometry) is left out. Collision areas, the synthesised container area and the area a container gets from `refreshBox`/`refreshArea` after an attachment (the `refresh` function passed to the builders) are parameters.
- `getMaxArea` (common/src/cube/aigc/psychology/Painting.java:851-862) returns null whenever no thing in a non-empty list has a positive area (lemma `PaintingModel.HouseWithoutArea`), and the accelerator's constructor dereferences that result (common/src/cube/aigc/psychology/PaintingAccelerator.java:712, 728, 743). PaintingAcceleratorModel's `Readable` requires a largest thing for every non-empty list, so that null dereference is not modelled.
- PaintingAcceleratorModel.PaintingAccelerator.constructor: a painting read without a texture has neither a whole-picture texture nor quadrant textures (common/src/cube/aigc/psychology/Painting.java:95-99), and the constructor dereferences both (common/src/cube/aigc/psychology/PaintingAccelerator.java:680-690). `PaintingView.whole` is not optional and `Readable` requires four quadrants, so that failure is not modelled.
- PaintingAccelerator's normalisation pass (through FloatUtils) is left out, and only the unnormalised CSV is modelled. The outer `parameters()` always returns null and is not modelled. Number formatting is a parameter assumed to produce no comma.
- HTPEvaluation's margin thresholds (`width * 0.025f`, `width * 0.15f`) are parameters, because float rounding is not modelled. Its random weights and the branch used only by tests are left out. The three-element "tiny" clause is unreachable, because the pairwise clauses cover it; lemma `AllTinyClauseSubsumed` shows this.
- ReportDataset's softmax and normalisation option is left out, and the random draws of the train/test split are a parameter.
- ContentTools methods not modelled: `fillHexagonScoreDescription`, `makeBrief`, `makeSummary`, `makeRatingInformation`, `makePageLink`, `makePaintingFeature`, `makeReportDate`, `makeReportPaintingLink`, `makeMembership`, `fastInfer` and `tipContent`. They produce language-model prompts or HTML from objects outside the model. The link text that `ClipContent` inserts is a parameter.
- QueryRevolver's tokenisation and its `generatePrompt` flows through the language model are left out. Tokens are inputs.
- ConversationWorker: the keyword lists in Consts are predicate parameters, and calendar fields of report times are inputs. Only the parts of `work()` that select reports and build answers are modelled.
- QuestionnaireSubtask: the branch without a scale track (looked up in the scene manager) is left out. A scale's question count and completion are parameters.
- CounselingManager: the analysis of a batch (the formulate and combine steps and their language-model calls) is left out, and so are file deletion and the emotion averages. Wrappers are values, so aliasing between the maps is not modelled. The assignment of `consultingAction` in `queryCounselingCaption` is left out.
- CounselingManagerModel.Insert: orders records by their index without the int-cast overflow of the source's comparator, which only differs for indices more than 2^31 apart.
- AigcServiceModel.Oldest: orders units by last running time without the overflow of the source's `(int)` cast of a long difference.
- AIGCService: `equalsIgnoreCase` and `toUpperCase` are modelled on ASCII only. A similarity of 0/0 (NaN in the source) is None. The pruning and resetting of units in `onTick` is left out, because it needs AIGCUnit's state.
- PsychologyScene: the worker thread that drains the queue is left out. The serial number and state of a new report are parameters.
- KnowledgeBase: the float floor in `trimArticleContent` is integer division by two, which is exact for all lengths below 2^24. Document and article equality is an identity field.
- MessagingService.Pull: returns the messages in cache order. The final `Collections.sort` needs `Message.compareTo`, which is not part of this model.
- MessagingService: `updateConversations`, the hooks, publishing to contacts, the cache's JSON and attachments, `getRecentConversations` and `markReadMessagesByContact` are left out. A message counts as from a group when its source is positive.
- FerryServiceModel.PromotedMeaning: proves "exactly one administrator" only for members with distinct contacts. With a duplicate contact the source leaves that duplicate untouched.
- PerformerModel.Performer.Start: lays the sections out with the corrected cursor (each section begins where the previous one ends), not with the `cursor += section.end + 1` of line 490 of dispatcher/src/cube/dispatcher/Performer.java. The sections the code as written computes are `LayoutAsWritten`, and `Performer.AsWrittenTalkFallsBack` shows the unmemoised fallback they cause.
- Performer: starting the HTTP and talk services is left out. `addDirector` returns null for a director equal to one already listed (taken here as the same endpoint), so no second director and no second section is added.
- TextUtilsModel.ParseInt: accepts only the ASCII digits 0 to 9, while Java's `Integer.parseInt` also accepts other Unicode decimal digits such as the full-width ３.
- TextUtilsModel.ExtractLocation: inherits the ASCII digits of ParseInt, so the words 第 and ３ give 3 in the source and 0 in the model.
- Strings.Lower, Strings.Upper and Strings.EqualsIgnoreCase fold the case of ASCII letters only, while Java's `toLowerCase`, `toUpperCase` and `equalsIgnoreCase` also fold other scripts. TextUtilsModel.ContainsString, BigFiveFeatureModel.Names, BigFiveFeatureModel.Match, ConversationWorkerModel.GenderOf, QuestionnaireSubtaskModel.SingleChoiceAnswer, QuestionnaireSubtaskModel.MatchSingleChoiceAnswer and the QueryRevolverModel matchers (Anonymous, FixName, AddMatches, Symptoms, Mentioned) inherit this, so they differ from the source on non-ASCII letters with case, such as Greek or Cyrillic.
- ReportDatasetModel.ScaleDataRow.constructor: requires at least 22 columns; with fewer the source throws an index-out-of-bounds exception, which is not modelled.
- ReportDatasetModel.SplitTrainTest: requires a non-empty source; on an empty one the source's `remove(0)` throws, which is not modelled.
- EvaluationReportModel.RepresentationsByEvaluationScore: requires topNum of at least 0; with a negative topNum the source's `remove(-1)` throws, which is not modelled.
- TextUtilsModel.Ellipsis: requires a limit of at least 1 when the text is longer than the limit; otherwise the source's `substring` throws, which is not modelled.
- CounselingManagerModel.CounselingManager.QueryCaption: a reply without any caption gives None, where the source's `get(0)` on the empty list throws.
- TextUtilsModel.MeasureTextAreas: computes on unbounded integers, so the 32-bit overflow of `ps * col` and the other products for very large sizes is not modelled.
- TextUtils: the regular-expression helpers are left out. These are URL, IP, Chinese and English detection and `parseUserAgent`. In `fixChineseBlank` the Chinese test is a parameter.
- TextUtils: `randomSplitString`, `extractSnOrId`, `splitSentence`, `filterChinese`, `extractMarkdownText`, `extractMarkdownTable`, `isDateString`, `ellipsisURL`, `isJapanese`, `removePunctuations`, `isLastPunctuationMark` and the other small utilities are not modelled.

## Findings

| source | as written | input that shows it | evidently intended | confidence | as-written member | corrected member |
|---|---|---|---|---|---|---|
| common/src/cube/util/TextUtils.java:737-881 | the year, month and day extractors count every non-space character before the marker against the 4/2 digit limit | 这是来自24年的祝福 gives year 0 instead of 2024 | take the run of digits right before the marker | not executed | TextUtilsModel.YearAsWritten, TextUtilsModel.MonthAsWritten, TextUtilsModel.DayAsWritten | TextUtilsModel.YearCorrected, TextUtilsModel.MonthCorrected, TextUtilsModel.DayCorrected, TextUtilsModel.NumberBeforeMarker |
| common/src/cube/util/TextUtils.java:585-601 | splitList closes a group only after its length has passed the limit | ["a","b","c","d"] with limit 2 gives the group ["a","b","c"] of total length 3 | no group longer than the limit unless a single item is | not executed | TextUtilsModel.SplitListOverflows | TextUtilsModel.CorrectedSplitListProps |
| dispatcher/src/cube/dispatcher/Performer.java:490 | the cursor advances by `section.end + 1` instead of to `section.end + 1` | three directors of weight 1 | sections that tile the range one after the other | not executed | PerformerModel.LayoutAsWrittenOverruns, PerformerModel.LayoutAsWrittenMissesAnchor, PerformerModel.Performer.AsWrittenTalkFallsBack | PerformerModel.LayoutCovers, PerformerModel.Performer.Start, PerformerModel.Performer.StartedTalkMemoised |
| service/src/cube/service/aigc/scene/subtask/QuestionnaireSubtask.java:221 | continuing finishes when the position is at least the question count, so the last question is skipped; line 346 uses greater-than | the cursor on the last question of a scale that is not complete | finish only past the last question | not executed | QuestionnaireSubtaskModel.ScaleTrack.Continue, QuestionnaireSubtaskModel.ContinueSkipsLastQuestion | QuestionnaireSubtaskModel.ScaleTrack.ContinueCorrected, QuestionnaireSubtaskModel.ContinueFinishesAnswered |
| service/src/cube/service/aigc/scene/subtask/QuestionnaireSubtask.java:498 | the answer built with the report at line 495 is overwritten | any finished scale with a report | keep the answer that carries the report | not executed | QuestionnaireSubtaskModel.FinishReplyLosesReport | QuestionnaireSubtaskModel.FinishReplyKeepsReport |
| service/src/cube/service/aigc/scene/ConversationWorker.java:537-541 | the ordinal after 第 is taken verbatim, so a negative one becomes a negative list index | the words 第 and -2 | reject ordinals below 1 | not executed | ConversationWorkerModel.NegativeLocationFaults, TextUtilsModel.NegativeOrdinalWord | ConversationWorkerModel.CorrectedSelectReport |
