/**
 * Big-Five personality profile matching: a subject's four dimension scores
 * (obligingness, conscientiousness, extraversion, achievement) are compared
 * with 17 template profiles and the closest one is chosen by a cascade of
 * near-value counts, tendencies and deltas.
 */
module BigFiveFeatureModel {
  import opened PsychologyTypes
  import Strings

  const HighScore: real := 7.0
  const LowScore: real := 4.0

  /** A template's five dimension values (neuroticism is never compared). */
  datatype TemplateValue = TemplateValue(o: real, c: real, e: real, a: real, n: real)

  /** A profile: its name, its display name and, for the 17 templates, its values. */
  datatype Feature = Feature(name: string, displayName: string, template: Option<TemplateValue>)

  function T(o: real, c: real, e: real, a: real): Option<TemplateValue>
  {
    Some(TemplateValue(o, c, e, a, 5.5))
  }

  /** The 17 templates, in the fixed order the matching loops use. */
  const Features: seq<Feature> := [
    Feature("Generalist", "通才", T(7.5, 7.5, 7.5, 7.5)),
    Feature("Advocate", "倡导者", T(7.5, 3.5, 7.5, 7.5)),
    Feature("Entrepreneur", "创业者", T(3.5, 7.5, 7.5, 7.5)),
    Feature("Traditionalist", "传统者", T(7.5, 7.5, 3.5, 7.5)),
    Feature("Developer", "开发者", T(7.5, 7.5, 7.5, 3.5)),
    Feature("Promoter", "推广者", T(3.5, 3.5, 7.5, 7.5)),
    Feature("Realist", "实效者", T(3.5, 7.5, 3.5, 7.5)),
    Feature("Idealist", "理想者", T(7.5, 3.5, 3.5, 7.5)),
    Feature("Instructor", "辅导教练", T(7.5, 7.5, 3.5, 3.5)),
    Feature("Demonstrator", "演示者", T(3.5, 7.5, 7.5, 3.5)),
    Feature("Guide", "引导者", T(7.5, 3.5, 7.5, 3.5)),
    Feature("Architect", "建筑师", T(3.5, 3.5, 3.5, 7.5)),
    Feature("Explorer", "探索者", T(3.5, 3.5, 7.5, 3.5)),
    Feature("Supporter", "支持者", T(7.5, 3.5, 3.5, 3.5)),
    Feature("Controller", "控制者", T(3.5, 7.5, 3.5, 3.5)),
    Feature("Expert", "专家", T(3.5, 3.5, 3.5, 3.5)),
    Feature("Adapter", "适应者", T(5.5, 5.5, 5.5, 5.5))
  ]

  const GeneralistIndex := 0
  const ExpertIndex := 15
  const AdapterIndex := 16

  /** The subject's four compared dimensions. */
  datatype Profile = Profile(o: real, c: real, e: real, a: real)

  /** The comparison of one dimension. */
  datatype DimApprox = DimApprox(near: bool, tendency: int, delta: real)

  /** The comparison of a template with a profile, dimension by dimension. */
  datatype Approx = Approx(o: DimApprox, c: DimApprox, e: DimApprox, a: DimApprox)

  function ApproximateDim(template: real, input: real): (r: DimApprox)
    ensures r.near <==> (template >= HighScore && input >= HighScore) || (template <= LowScore && input <= LowScore)
    ensures r.delta == template - input
    ensures r.tendency in {-1, 0, 1}
    ensures r.tendency == -1 <==> input < 5.5 && template < 4.5
    ensures r.tendency == 1 <==> input >= 5.5 && template > 6.5
  {
    var near := if template >= HighScore && input >= HighScore then true
                else template <= LowScore && input <= LowScore;
    var tendency := if input < 5.5 && template < 4.5 then -1
                    else if input >= 5.5 && template > 6.5 then 1
                    else 0;
    DimApprox(near, tendency, template - input)
  }

  /** The comparison of a feature with the four scores; absent when the feature has no template. */
  function CalcApproximate(f: Feature, p: Profile): (r: Option<Approx>)
    ensures r.None? <==> f.template.None?
    ensures r.Some? ==>
      r.value.o == ApproximateDim(f.template.value.o, p.o) &&
      r.value.c == ApproximateDim(f.template.value.c, p.c) &&
      r.value.e == ApproximateDim(f.template.value.e, p.e) &&
      r.value.a == ApproximateDim(f.template.value.a, p.a)
  {
    match f.template
    case None => None
    case Some(t) =>
      Some(Approx(ApproximateDim(t.o, p.o), ApproximateDim(t.c, p.c),
                  ApproximateDim(t.e, p.e), ApproximateDim(t.a, p.a)))
  }

  function B(b: bool): nat { if b then 1 else 0 }

  function NumNear(v: Approx): (r: nat)
    ensures r <= 4
    ensures r == 4 <==> v.o.near && v.c.near && v.e.near && v.a.near
    ensures r == 0 <==> !v.o.near && !v.c.near && !v.e.near && !v.a.near
  {
    B(v.o.near) + B(v.c.near) + B(v.e.near) + B(v.a.near)
  }

  function NumTendency(v: Approx): (r: nat)
    ensures r <= 4
    ensures r == 4 <==> v.o.tendency != 0 && v.c.tendency != 0 && v.e.tendency != 0 && v.a.tendency != 0
    ensures r == 0 <==> v.o.tendency == 0 && v.c.tendency == 0 && v.e.tendency == 0 && v.a.tendency == 0
  {
    B(v.o.tendency != 0) + B(v.c.tendency != 0) + B(v.e.tendency != 0) + B(v.a.tendency != 0)
  }

  function AbsReal(x: real): real { if x < 0.0 then -x else x }

  /** The absolute deltas of the dimensions that are not near, in dimension order. */
  function NonNearDeltas(v: Approx): seq<real>
  {
    (if v.o.near then [] else [AbsReal(v.o.delta)]) +
    (if v.c.near then [] else [AbsReal(v.c.delta)]) +
    (if v.e.near then [] else [AbsReal(v.e.delta)]) +
    (if v.a.near then [] else [AbsReal(v.a.delta)])
  }

  /** The sum of the absolute deltas of the dimensions without tendency. */
  function AccDelta(v: Approx): real
  {
    (if v.o.tendency == 0 then AbsReal(v.o.delta) else 0.0) +
    (if v.c.tendency == 0 then AbsReal(v.c.delta) else 0.0) +
    (if v.e.tendency == 0 then AbsReal(v.e.delta) else 0.0) +
    (if v.a.tendency == 0 then AbsReal(v.a.delta) else 0.0)
  }

  /** The comparisons of the subject with every template, in template order. */
  function ApproximateAll(p: Profile): (r: seq<Approx>)
    ensures |r| == |Features|
    ensures forall k :: 0 <= k < |Features| ==> CalcApproximate(Features[k], p) == Some(r[k])
  {
    seq(|Features|, k requires 0 <= k < |Features| => CalcApproximate(Features[k], p).value)
  }

  /** At most one template matches on all four dimensions. */
  lemma FullMatchUnique(p: Profile, i: nat, j: nat)
    requires i < j < |Features|
    ensures !(NumNear(ApproximateAll(p)[i]) == 4 && NumNear(ApproximateAll(p)[j]) == 4)
  {
    var v := ApproximateAll(p);
    assert CalcApproximate(Features[i], p) == Some(v[i]);
    assert CalcApproximate(Features[j], p) == Some(v[j]);
  }

  /** The least element of a non-empty list of reals. */
  function MinOf(xs: seq<real>): (m: real)
    requires xs != []
    ensures m in xs && forall x :: x in xs ==> m <= x
  {
    if |xs| == 1 then xs[0]
    else
      var rest := MinOf(xs[1..]);
      assert forall x :: x in xs ==> x == xs[0] || x in xs[1..];
      if xs[0] <= rest then xs[0] else rest
  }

  predicate ValidIndices(n: nat, list: seq<nat>)
  {
    forall k :: 0 <= k < |list| ==> list[k] < n
  }

  /** The reference of the delta choice: a strictly smaller least delta replaces, -1 when none is seen. */
  function ByDelta(values: seq<Approx>, list: seq<nat>): (r: int)
    requires ValidIndices(|values|, list)
    ensures r == -1 || (0 <= r < |values| && NonNearDeltas(values[r]) != [])
    decreases |list|
  {
    if list == [] then -1
    else
      var c := ByDelta(values, list[..|list| - 1]);
      var ds := NonNearDeltas(values[list[|list| - 1]]);
      if ds != [] && (c == -1 || MinOf(ds) < MinOf(NonNearDeltas(values[c]))) then list[|list| - 1] else c
  }

  /** The reference of the trend choice: a strictly larger tendency count replaces. */
  function ByTrend(values: seq<Approx>, list: seq<nat>): (r: nat)
    requires list != [] && ValidIndices(|values|, list)
    ensures r < |values|
    decreases |list|
  {
    if |list| == 1 then list[0]
    else
      var b := ByTrend(values, list[..|list| - 1]);
      if NumTendency(values[list[|list| - 1]]) > NumTendency(values[b]) then list[|list| - 1] else b
  }

  /** The first template from i on with four tendencies, or the length. */
  function FirstFullTrend(values: seq<Approx>, i: nat): (r: nat)
    requires i <= |values|
    ensures i <= r <= |values|
    decreases |values| - i
  {
    if i == |values| then i
    else if NumTendency(values[i]) == 4 then i
    else FirstFullTrend(values, i + 1)
  }

  /** Among the first j templates, the one of least accumulated delta, the earliest on ties. */
  function LeastAcc(values: seq<Approx>, j: nat): (r: nat)
    requires 1 <= j <= |values|
    ensures r < j
  {
    if j == 1 then 0
    else
      var b := LeastAcc(values, j - 1);
      if AccDelta(values[j - 1]) < AccDelta(values[b]) then j - 1 else b
  }

  /** The reference of the accumulated choice. */
  function ByTrendAcc(values: seq<Approx>): nat
    requires values != []
  {
    var f := FirstFullTrend(values, 0);
    if f < |values| then f else LeastAcc(values, |values|)
  }

  /** The templates below j with n near values, in ascending order. */
  function IndicesWith(values: seq<Approx>, n: nat, j: nat): (r: seq<nat>)
    requires j <= |values|
    ensures ValidIndices(j, r)
  {
    if j == 0 then []
    else IndicesWith(values, n, j - 1) + (if NumNear(values[j - 1]) == n then [j - 1] else [])
  }

  /** The last template below j with four near values, or -1. */
  function LastFullNear(values: seq<Approx>, j: nat): int
    requires j <= |values|
  {
    if j == 0 then -1
    else if NumNear(values[j - 1]) == 4 then j - 1
    else LastFullNear(values, j - 1)
  }

  /**
   * The cascade of build, in the source's branch order: the four-near
   * template, else the delta choice among the three-near ones, else the
   * trend choice among the two-near, then the one-near ones, else the
   * accumulated choice over all; -1 when no branch yields a template.
   */
  function Cascade(values: seq<Approx>): int
    requires values != []
  {
    var n := |values|;
    if LastFullNear(values, n) > -1 then LastFullNear(values, n)
    else if IndicesWith(values, 3, n) != [] then ByDelta(values, IndicesWith(values, 3, n))
    else if IndicesWith(values, 2, n) != [] then ByTrend(values, IndicesWith(values, 2, n))
    else if IndicesWith(values, 1, n) != [] then ByTrend(values, IndicesWith(values, 1, n))
    else ByTrendAcc(values)
  }

  /**
   * The groups are complete and ordered: exactly the templates below j
   * with n near values, each once, in ascending order.
   */
  lemma {:induction false} IndicesWithMeaning(values: seq<Approx>, n: nat, j: nat)
    requires j <= |values|
    ensures forall k :: 0 <= k < |IndicesWith(values, n, j)| ==> NumNear(values[IndicesWith(values, n, j)[k]]) == n
    ensures forall k :: 0 <= k < j ==> (NumNear(values[k]) == n <==> k in IndicesWith(values, n, j))
    ensures forall a, b :: 0 <= a < b < |IndicesWith(values, n, j)| ==>
      IndicesWith(values, n, j)[a] < IndicesWith(values, n, j)[b]
  {
    if j > 0 {
      IndicesWithMeaning(values, n, j - 1);
    }
  }

  /** The four-near index is the last one below j, or -1 when there is none. */
  lemma {:induction false} LastFullNearMeaning(values: seq<Approx>, j: nat)
    requires j <= |values|
    ensures -1 <= LastFullNear(values, j) < j
    ensures LastFullNear(values, j) >= 0 ==> NumNear(values[LastFullNear(values, j)]) == 4
    ensures forall k :: LastFullNear(values, j) < k < j ==> NumNear(values[k]) != 4
  {
    if j > 0 && NumNear(values[j - 1]) != 4 {
      LastFullNearMeaning(values, j - 1);
    }
  }

  /**
   * Among the listed templates, the one holding the smallest absolute
   * delta of a dimension that is not near (strictly smaller replaces, so
   * the earliest wins ties); -1 when no listed template has such a dimension.
   */
  method ExtractIndex(values: seq<Approx>, list: seq<nat>) returns (candidate: int)
    requires ValidIndices(|values|, list)
    ensures candidate == ByDelta(values, list)
    ensures candidate == -1 <==> forall k :: 0 <= k < |list| ==> NonNearDeltas(values[list[k]]) == []
    ensures candidate != -1 ==>
      exists p :: 0 <= p < |list| && list[p] == candidate && NonNearDeltas(values[candidate]) != [] &&
        (forall k :: 0 <= k < |list| ==> forall d :: d in NonNearDeltas(values[list[k]]) ==>
           MinOf(NonNearDeltas(values[candidate])) <= d) &&
        (forall k :: 0 <= k < p ==> forall d :: d in NonNearDeltas(values[list[k]]) ==>
           MinOf(NonNearDeltas(values[candidate])) < d)
  {
    var minValue: Option<real> := None;
    candidate := -1;
    ghost var pos := 0;
    var i := 0;
    while i < |list|
      invariant 0 <= i <= |list|
      invariant Extracting(values, list, i, minValue, candidate, pos)
      invariant candidate == ByDelta(values, list[..i])
    {
      minValue, candidate, pos := Consider(values, list, i, minValue, candidate, pos);
      i := i + 1;
    }
    assert list[..|list|] == list;
  }

  /** The loop body of the delta choice: template list[i] is considered. */
  method Consider(values: seq<Approx>, list: seq<nat>, i: nat, minValue: Option<real>, candidate: int, ghost pos: int)
    returns (m2: Option<real>, c2: int, ghost p2: int)
    requires ValidIndices(|values|, list) && i < |list|
    requires Extracting(values, list, i, minValue, candidate, pos)
    requires candidate == ByDelta(values, list[..i])
    ensures Extracting(values, list, i + 1, m2, c2, p2)
    ensures c2 == ByDelta(values, list[..i + 1])
  {
    var ds := NonNearDeltas(values[list[i]]);
    m2, c2, p2 := minValue, candidate, pos;
    if ds != [] {
      var m := MinOf(ds);
      if minValue.None? || m < minValue.value {
        m2, c2, p2 := Some(m), list[i], i;
      }
    }
    ExtractStep(values, list, i, minValue, candidate, pos, m2, c2, p2);
    ByDeltaStep(values, list, i, candidate, minValue, c2);
  }

  /**
   * After the first i listed templates: the candidate and its least delta,
   * which no delta seen so far undercuts and every delta before its
   * position exceeds.
   */
  ghost predicate Extracting(values: seq<Approx>, list: seq<nat>, i: nat, minValue: Option<real>, candidate: int, pos: int)
    requires ValidIndices(|values|, list) && i <= |list|
  {
    (candidate == -1 <==> minValue.None?) &&
    (minValue.None? <==> forall k :: 0 <= k < i ==> NonNearDeltas(values[list[k]]) == []) &&
    (minValue.Some? ==>
      0 <= pos < i && list[pos] == candidate && NonNearDeltas(values[candidate]) != [] &&
      minValue.value == MinOf(NonNearDeltas(values[candidate])) &&
      (forall k :: 0 <= k < i ==> forall d :: d in NonNearDeltas(values[list[k]]) ==> minValue.value <= d) &&
      (forall k :: 0 <= k < pos ==> forall d :: d in NonNearDeltas(values[list[k]]) ==> minValue.value < d))
  }

  /** One listed template more: a strictly smaller least delta takes over. */
  lemma ExtractStep(values: seq<Approx>, list: seq<nat>, i: nat, minValue: Option<real>, candidate: int, pos: int,
                    m2: Option<real>, c2: int, p2: int)
    requires ValidIndices(|values|, list) && i < |list| && Extracting(values, list, i, minValue, candidate, pos)
    requires var ds := NonNearDeltas(values[list[i]]);
      if ds != [] && (minValue.None? || MinOf(ds) < minValue.value) then m2 == Some(MinOf(ds)) && c2 == list[i] && p2 == i
      else m2 == minValue && c2 == candidate && p2 == pos
    ensures Extracting(values, list, i + 1, m2, c2, p2)
  {
    var ds := NonNearDeltas(values[list[i]]);
    if ds != [] && (minValue.None? || MinOf(ds) < minValue.value) {
      var m := MinOf(ds);
      forall k | 0 <= k < i + 1
        ensures forall d :: d in NonNearDeltas(values[list[k]]) ==> m <= d
      {
        if k < i && minValue.Some? {
          assert forall d :: d in NonNearDeltas(values[list[k]]) ==> minValue.value <= d;
        }
      }
      forall k | 0 <= k < i
        ensures forall d :: d in NonNearDeltas(values[list[k]]) ==> m < d
      {
        if minValue.Some? {
          assert forall d :: d in NonNearDeltas(values[list[k]]) ==> minValue.value <= d;
        }
      }
    } else if ds == [] {
      assert forall k :: 0 <= k < i + 1 ==> NonNearDeltas(values[list[k]]) == [] || k < i;
    } else {
      assert minValue.Some? && m2 == minValue;
      forall k | 0 <= k < i + 1
        ensures forall d :: d in NonNearDeltas(values[list[k]]) ==> minValue.value <= d
      {
        if k == i {
          assert forall d :: d in ds ==> MinOf(ds) <= d;
        }
      }
    }
  }

  /** One listed template more in the reference of the delta choice. */
  lemma ByDeltaStep(values: seq<Approx>, list: seq<nat>, i: nat, c0: int, m0: Option<real>, c2: int)
    requires ValidIndices(|values|, list) && i < |list|
    requires c0 == ByDelta(values, list[..i])
    requires c0 == -1 <==> m0.None?
    requires m0.Some? ==>
      0 <= c0 < |values| && NonNearDeltas(values[c0]) != [] && m0.value == MinOf(NonNearDeltas(values[c0]))
    requires var ds := NonNearDeltas(values[list[i]]);
      if ds != [] && (m0.None? || MinOf(ds) < m0.value) then c2 == list[i] else c2 == c0
    ensures c2 == ByDelta(values, list[..i + 1])
  {
    assert list[..i + 1][..i] == list[..i];
  }

  /** The listed template with the most tendencies; the earliest wins ties. */
  method ExtractIndexByTrend(values: seq<Approx>, list: seq<nat>) returns (index: nat)
    requires list != [] && ValidIndices(|values|, list)
    ensures index == ByTrend(values, list)
    ensures exists p :: (0 <= p < |list| && list[p] == index &&
      (forall k :: 0 <= k < |list| ==> NumTendency(values[list[k]]) <= NumTendency(values[index])) &&
      (forall k :: 0 <= k < p ==> NumTendency(values[list[k]]) < NumTendency(values[index])))
  {
    var counts := CountTendencies(values, list);
    var best := Leading(values, list, counts);
    index := list[best];
  }

  /** The first loop of the trend choice: each listed template's tendency count. */
  method CountTendencies(values: seq<Approx>, list: seq<nat>) returns (counts: seq<nat>)
    requires ValidIndices(|values|, list)
    ensures |counts| == |list|
    ensures forall k :: 0 <= k < |list| ==> counts[k] == NumTendency(values[list[k]])
  {
    counts := [];
    var i := 0;
    while i < |list|
      invariant 0 <= i <= |list| && |counts| == i
      invariant forall k :: 0 <= k < i ==> counts[k] == NumTendency(values[list[k]])
    {
      var v := values[list[i]];
      var count := 0;
      if v.o.tendency != 0 { count := count + 1; }
      if v.c.tendency != 0 { count := count + 1; }
      if v.e.tendency != 0 { count := count + 1; }
      if v.a.tendency != 0 { count := count + 1; }
      counts := counts + [count];
      i := i + 1;
    }
  }

  /** The second loop of the trend choice: the position of the first greatest count. */
  method Leading(values: seq<Approx>, list: seq<nat>, counts: seq<nat>) returns (best: nat)
    requires list != [] && ValidIndices(|values|, list) && |counts| == |list|
    requires forall k :: 0 <= k < |list| ==> counts[k] == NumTendency(values[list[k]])
    ensures best < |list| && list[best] == ByTrend(values, list)
    ensures forall k :: 0 <= k < |list| ==> counts[k] <= counts[best]
    ensures forall k :: 0 <= k < best ==> counts[k] < counts[best]
  {
    best := 0;
    var max := -1;
    var j := 0;
    while j < |counts|
      invariant 0 <= j <= |counts| && 0 <= best < |counts|
      invariant j == 0 ==> max == -1 && best == 0
      invariant j > 0 ==> best < j && max == counts[best]
      invariant forall k :: 0 <= k < j ==> counts[k] <= max
      invariant forall k :: 0 <= k < best ==> counts[k] < max
      invariant j > 0 ==> list[best] == ByTrend(values, list[..j])
    {
      assert list[..j + 1][..j] == list[..j];
      if counts[j] > max {
        max := counts[j];
        best := j;
      }
      j := j + 1;
    }
    assert list[..|list|] == list;
  }

  /**
   * The first template with four tendencies; otherwise the template with
   * the least accumulated absolute delta over the dimensions without
   * tendency, the earliest winning ties.
   */
  method ExtractIndexByTrendAcc(values: seq<Approx>) returns (index: nat)
    requires values != []
    ensures index == ByTrendAcc(values)
    ensures index < |values|
    ensures (exists k :: 0 <= k < |values| && NumTendency(values[k]) == 4) ==>
      NumTendency(values[index]) == 4 && forall k :: 0 <= k < index ==> NumTendency(values[k]) != 4
    ensures (forall k :: 0 <= k < |values| ==> NumTendency(values[k]) != 4) ==>
      (forall k :: 0 <= k < |values| ==> AccDelta(values[index]) <= AccDelta(values[k])) &&
      (forall k :: 0 <= k < index ==> AccDelta(values[index]) < AccDelta(values[k]))
  {
    var f := FirstFull(values);
    if f < |values| {
      return f;
    }
    index := LeastAccumulated(values);
  }

  /** The first loop of the accumulated choice: the first template with four tendencies, or the length. */
  method FirstFull(values: seq<Approx>) returns (i: nat)
    ensures i == FirstFullTrend(values, 0)
    ensures i < |values| ==> NumTendency(values[i]) == 4
    ensures forall k :: 0 <= k < i && k < |values| ==> NumTendency(values[k]) != 4
  {
    i := 0;
    while i < |values|
      invariant 0 <= i <= |values|
      invariant forall k :: 0 <= k < i ==> NumTendency(values[k]) != 4
      invariant FirstFullTrend(values, i) == FirstFullTrend(values, 0)
    {
      if NumTendency(values[i]) == 4 {
        return;
      }
      i := i + 1;
    }
  }

  /** The second loop of the accumulated choice: the least accumulated delta, the earliest on ties. */
  method LeastAccumulated(values: seq<Approx>) returns (index: nat)
    requires values != []
    ensures index == LeastAcc(values, |values|)
    ensures forall k :: 0 <= k < |values| ==> AccDelta(values[index]) <= AccDelta(values[k])
    ensures forall k :: 0 <= k < index ==> AccDelta(values[index]) < AccDelta(values[k])
  {
    var minValue: Option<real> := None;
    index := 0;
    var j := 0;
    while j < |values|
      invariant 0 <= j <= |values| && index < |values|
      invariant j == 0 <==> minValue.None?
      invariant j > 0 ==> index < j && minValue == Some(AccDelta(values[index]))
      invariant forall k :: 0 <= k < j ==> AccDelta(values[index]) <= AccDelta(values[k])
      invariant forall k :: 0 <= k < index ==> AccDelta(values[index]) < AccDelta(values[k])
      invariant j > 0 ==> index == LeastAcc(values, j)
    {
      var acc := AccDelta(values[j]);
      if minValue.None? || acc < minValue.value {
        minValue := Some(acc);
        index := j;
      }
      j := j + 1;
    }
  }

  /** The Generalist/Adapter/Expert correction. */
  function Correct(index: nat, p: Profile): (r: nat)
    ensures index !in {GeneralistIndex, AdapterIndex, ExpertIndex} ==> r == index
    ensures r == GeneralistIndex ==> p.o >= 7.0 && p.c >= 7.0 && p.e >= 7.0 && p.a >= 7.0
    ensures r == AdapterIndex ==> p.o >= 4.5 && p.c >= 4.5 && p.e >= 4.5 && p.a >= 4.5 &&
                                  !(p.o >= 7.0 && p.c >= 7.0 && p.e >= 7.0 && p.a >= 7.0)
    ensures r == ExpertIndex ==> !(p.o >= 4.5 && p.c >= 4.5 && p.e >= 4.5 && p.a >= 4.5)
  {
    if index == GeneralistIndex || index == AdapterIndex || index == ExpertIndex then
      if p.o >= 7.0 && p.c >= 7.0 && p.e >= 7.0 && p.a >= 7.0 then GeneralistIndex
      else if p.o >= 4.5 && p.c >= 4.5 && p.e >= 4.5 && p.a >= 4.5 then AdapterIndex
      else ExpertIndex
    else index
  }

  /** The comparisons with every template, computed one template at a time. */
  method ApproximateEach(p: Profile) returns (values: seq<Approx>)
    ensures values == ApproximateAll(p)
  {
    values := [];
    var i := 0;
    while i < |Features|
      invariant 0 <= i <= |Features| && |values| == i
      invariant forall k :: 0 <= k < i ==> values[k] == ApproximateAll(p)[k]
    {
      var v := CalcApproximate(Features[i], p);
      values := values + [v.value];
      i := i + 1;
    }
  }

  /** Appends template `j` to `list` when it has `n` near values. */
  method Collect(values: seq<Approx>, j: nat, list: seq<nat>, n: nat) returns (next: seq<nat>)
    requires j < |values| && list == IndicesWith(values, n, j)
    ensures next == IndicesWith(values, n, j + 1)
  {
    next := list;
    if NumNear(values[j]) == n {
      next := list + [j];
    }
  }

  /** Moves hit4 to template j when it has four near values. */
  method Track(values: seq<Approx>, j: nat, hit4: int) returns (next: int)
    requires j < |values| && hit4 == LastFullNear(values, j)
    ensures next == LastFullNear(values, j + 1)
  {
    next := hit4;
    if NumNear(values[j]) == 4 {
      next := j;
    }
  }

  /**
   * Groups the template indices by their number of near values: the last
   * index with four, and the lists of indices with three, two and one.
   */
  method GroupByNear(values: seq<Approx>) returns (hit4: int, hit3: seq<nat>, hit2: seq<nat>, hit1: seq<nat>)
    ensures hit4 == LastFullNear(values, |values|)
    ensures hit3 == IndicesWith(values, 3, |values|)
    ensures hit2 == IndicesWith(values, 2, |values|)
    ensures hit1 == IndicesWith(values, 1, |values|)
  {
    hit4 := -1;
    hit3, hit2, hit1 := [], [], [];
    var j := 0;
    while j < |values|
      invariant 0 <= j <= |values|
      invariant hit4 == LastFullNear(values, j)
      invariant hit3 == IndicesWith(values, 3, j) && hit2 == IndicesWith(values, 2, j)
      invariant hit1 == IndicesWith(values, 1, j)
    {
      hit4 := Track(values, j, hit4);
      hit3 := Collect(values, j, hit3, 3);
      hit2 := Collect(values, j, hit2, 2);
      hit1 := Collect(values, j, hit1, 1);
      j := j + 1;
    }
  }

  /**
   * The profile chosen for the five scores. Neuroticism is accepted and
   * never compared. The centroid guess is never reached here: every branch
   * of the cascade yields an index.
   */
  method Build(o: real, c: real, e: real, a: real, neuroticism: real) returns (index: nat)
    ensures index < |Features|
    ensures index == GeneralistIndex ==> o >= 7.0 && c >= 7.0 && e >= 7.0 && a >= 7.0
    ensures index == AdapterIndex ==> o >= 4.5 && c >= 4.5 && e >= 4.5 && a >= 4.5 &&
                                      !(o >= 7.0 && c >= 7.0 && e >= 7.0 && a >= 7.0)
    ensures index == ExpertIndex ==> !(o >= 4.5 && c >= 4.5 && e >= 4.5 && a >= 4.5)
    ensures forall k :: 0 <= k < |Features| && NumNear(ApproximateAll(Profile(o, c, e, a))[k]) == 4 ==>
      index == Correct(k, Profile(o, c, e, a))
    ensures Cascade(ApproximateAll(Profile(o, c, e, a))) >= 0 &&
      index == Correct(Cascade(ApproximateAll(Profile(o, c, e, a))) as nat, Profile(o, c, e, a))
  {
    var p := Profile(o, c, e, a);
    var values := ApproximateEach(p);
    var hitIndex := Choose(values);
    forall k | 0 <= k < |Features| && NumNear(values[k]) == 4 ensures k == hitIndex {
      LastFullNearMeaning(values, |values|);
      if k < hitIndex { FullMatchUnique(p, k, hitIndex); }
    }
    index := Correct(hitIndex, p);
  }

  /** The cascade of build over the comparisons; every branch yields a template. */
  method Choose(values: seq<Approx>) returns (hitIndex: nat)
    requires values != []
    ensures hitIndex < |values| && hitIndex as int == Cascade(values)
  {
    var hit4, hit3, hit2, hit1 := GroupByNear(values);
    if hit4 > -1 {
      LastFullNearMeaning(values, |values|);
      hitIndex := hit4;
    } else if hit3 != [] {
      IndicesWithMeaning(values, 3, |values|);
      assert NumNear(values[hit3[0]]) == 3;
      assert NonNearDeltas(values[hit3[0]]) != [];
      var cand := ExtractIndex(values, hit3);
      hitIndex := cand;
    } else if hit2 != [] {
      hitIndex := ExtractIndexByTrend(values, hit2);
    } else if hit1 != [] {
      hitIndex := ExtractIndexByTrend(values, hit1);
    } else {
      hitIndex := ExtractIndexByTrendAcc(values);
    }
  }

  /** Whether a feature is named by s, ignoring case. */
  predicate Names(f: Feature, s: string)
  {
    Strings.EqualsIgnoreCase(f.name, s) || Strings.EqualsIgnoreCase(f.displayName, s)
  }

  /** The first template whose name or display name equals s ignoring case. */
  method Match(s: string) returns (r: Option<nat>)
    ensures r.None? <==> forall k :: 0 <= k < |Features| ==> !Names(Features[k], s)
    ensures r.Some? ==> (r.value < |Features| && Names(Features[r.value], s) &&
      forall k :: 0 <= k < r.value ==> !Names(Features[k], s))
  {
    var i := 0;
    while i < |Features|
      invariant 0 <= i <= |Features|
      invariant forall k :: 0 <= k < i ==> !Names(Features[k], s)
    {
      if Names(Features[i], s) {
        return Some(i);
      }
      i := i + 1;
    }
    return None;
  }
}
