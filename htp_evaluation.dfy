/**
 * The deterministic parts of the House-Tree-Person painting evaluator:
 * when the painting's reference is escalated to Abnormal, the doodle and
 * sparseness tallies over texture quadrants, the margin counters, the
 * left/right symmetry test and the frame-structure description.
 *
 * Detected objects are summarised by their area ratios; collision areas
 * and margins are inputs, because the bounding-box geometry that yields
 * them is not part of this model.
 */
module HtpEvaluationModel {
  import opened PsychologyTypes
  import opened PaintingTypes
  import opened Strings

  const DefaultHouseAreaRatioThreshold: real := 0.069
  const YoungHouseAreaRatioThreshold: real := 0.055
  const TreeAreaRatioThreshold: real := 0.049
  const PersonAreaRatioThreshold: real := 0.015

  /**
   * What the evaluator reads from a painting: validity and emptiness, the
   * frame's area ratio, the area ratio of the largest house, tree and
   * person (absent when there is none), and the textures.
   */
  datatype PaintingSummary = PaintingSummary(
    valid: bool, empty: bool, age: int, areaRatio: real,
    house: Option<real>, tree: Option<real>, person: Option<real>,
    whole: Option<Texture>, quadrants: seq<Texture>)

  /** A quadrant's doodle increment. */
  function QuadrantDoodle(t: Texture): (r: int)
    ensures 0 <= r <= 2
    ensures r == 2 <==> t.avg >= 4.0 && t.max >= 10.0
    ensures r == 0 <==> !(t.avg >= 4.0 && t.max >= 10.0) &&
                        !(t.avg >= 2.0 && t.density > 0.6 && t.hierarchy > 0.02) &&
                        !(t.density >= 0.5 && t.max >= 5.0)
  {
    if t.avg >= 4.0 && t.max >= 10.0 then 2
    else if t.avg >= 2.0 && t.density > 0.6 && t.hierarchy > 0.02 then 1
    else if t.density >= 0.5 && t.max >= 5.0 then 1
    else 0
  }

  /** A quadrant's sparseness increment. */
  function QuadrantSparseness(t: Texture): (r: int)
    ensures -1 <= r <= 2
    ensures r == -1 <==> (t.max >= 2.0 || t.max == 0.0) && t.density < 0.8
    ensures r == 2 ==> t.density < 0.1 && t.max >= 0.1
  {
    if (t.max >= 2.0 || t.max == 0.0) && t.density < 0.8 then -1
    else if t.max < 0.1 then 1
    else if t.density < 0.1 then 2
    else 0
  }

  /** Only quadrants with positive max and hierarchy are tallied. */
  predicate Tallied(t: Texture)
  {
    t.max > 0.0 && t.hierarchy > 0.0
  }

  /** The whole texture's doodle increment. */
  function WholeDoodle(w: Texture): (r: int)
    ensures 0 <= r <= 1
    ensures r == 1 <==> w.max >= 2.0 && w.avg >= 4.0
  {
    if w.max < 2.0 && w.max != 0.0 then 0
    else if w.max >= 2.0 && w.avg >= 4.0 then 1
    else 0
  }

  /** The whole texture's sparseness increment. */
  function WholeSparseness(w: Texture): (r: int)
    ensures -1 <= r <= 2
    ensures r > 0 ==> 0.0 < w.max < 2.0 || w.max < 0.0
    ensures r == -1 <==> w.max >= 2.0 && w.avg < 4.0
  {
    if w.max < 2.0 && w.max != 0.0 then
      (if w.density > 0.1 && w.density < 0.3 then 1
       else if w.density <= 0.1 then 2
       else 0)
    else if w.max >= 2.0 then
      (if w.avg >= 4.0 then 0 else -1)
    else 0
  }

  /** Doodles and sparseness accumulated over the quadrants, in order. */
  function QuadrantTally(qs: seq<Texture>): (r: (int, int))
    ensures 0 <= r.0 <= 2 * |qs|
    ensures -|qs| <= r.1 <= 2 * |qs|
    ensures (forall k :: 0 <= k < |qs| ==> !Tallied(qs[k])) ==> r == (0, 0)
  {
    if qs == [] then (0, 0)
    else
      var p := QuadrantTally(qs[..|qs| - 1]);
      var t := qs[|qs| - 1];
      if Tallied(t) then (p.0 + QuadrantDoodle(t), p.1 + QuadrantSparseness(t)) else p
  }

  lemma QuadrantTallySnoc(qs: seq<Texture>, t: Texture)
    ensures QuadrantTally(qs + [t]) ==
      (var p := QuadrantTally(qs);
       if Tallied(t) then (p.0 + QuadrantDoodle(t), p.1 + QuadrantSparseness(t)) else p)
  {
    assert (qs + [t])[..|qs|] == qs;
  }

  /**
   * The doodle and sparseness counts of a painting with a whole texture:
   * the quadrant tally followed by the whole texture's adjustment.
   */
  method TallyTextures(quadrants: seq<Texture>, whole: Texture) returns (doodles: int, sparseness: int)
    ensures doodles == QuadrantTally(quadrants).0 + WholeDoodle(whole)
    ensures sparseness == QuadrantTally(quadrants).1 + WholeSparseness(whole)
    ensures 0 <= doodles <= 2 * |quadrants| + 1
    ensures -|quadrants| - 1 <= sparseness <= 2 * |quadrants| + 2
  {
    doodles, sparseness := 0, 0;
    var i := 0;
    while i < |quadrants|
      invariant 0 <= i <= |quadrants|
      invariant (doodles, sparseness) == QuadrantTally(quadrants[..i])
    {
      var t := quadrants[i];
      QuadrantTallySnoc(quadrants[..i], t);
      assert quadrants[..i + 1] == quadrants[..i] + [t];
      if t.max > 0.0 && t.hierarchy > 0.0 {
        if t.avg >= 4.0 && t.max >= 10.0 {
          doodles := doodles + 2;
        } else if t.avg >= 2.0 && t.density > 0.6 && t.hierarchy > 0.02 {
          doodles := doodles + 1;
        } else if t.density >= 0.5 && t.max >= 5.0 {
          doodles := doodles + 1;
        }
        if (t.max >= 2.0 || t.max == 0.0) && t.density < 0.8 {
          sparseness := sparseness - 1;
        } else if t.max < 0.1 {
          sparseness := sparseness + 1;
        } else if t.density < 0.1 {
          sparseness := sparseness + 2;
        }
      }
      i := i + 1;
    }
    assert quadrants[..|quadrants|] == quadrants;
    if whole.max < 2.0 && whole.max != 0.0 {
      if whole.density > 0.1 && whole.density < 0.3 {
        sparseness := sparseness + 1;
      } else if whole.density <= 0.1 {
        sparseness := sparseness + 2;
      }
    } else if whole.max >= 2.0 {
      if whole.avg >= 4.0 {
        doodles := doodles + 1;
      } else {
        sparseness := sparseness - 1;
      }
    }
  }

  /** Doodling together with sparseness marks the painting Abnormal. */
  predicate DoodledAndSparse(quadrants: seq<Texture>, whole: Texture)
  {
    QuadrantTally(quadrants).0 + WholeDoodle(whole) >= 2 &&
    QuadrantTally(quadrants).1 + WholeSparseness(whole) >= 2
  }

  /** A quadrant that scores two doodles never adds to the sparseness. */
  lemma DoodledQuadrantNotSparse(t: Texture)
    requires QuadrantDoodle(t) == 2
    ensures QuadrantSparseness(t) == -1 || QuadrantSparseness(t) == 0
  {
  }

  /** Margins of the painting frame to the canvas edges. */
  datatype Margins = Margins(top: real, right: real, bottom: real, left: real)

  function B(b: bool): nat { if b then 1 else 0 }

  /** The number of margins below the minimum threshold. */
  function MinMarginCount(m: Margins, minThreshold: real): (r: nat)
    ensures r <= 4
    ensures r == 0 <==> m.top >= minThreshold && m.right >= minThreshold && m.bottom >= minThreshold && m.left >= minThreshold
    ensures r == 4 <==> m.top < minThreshold && m.right < minThreshold && m.bottom < minThreshold && m.left < minThreshold
  {
    B(m.top < minThreshold) + B(m.right < minThreshold) + B(m.bottom < minThreshold) + B(m.left < minThreshold)
  }

  /** The number of margins above the maximum threshold. */
  function MaxMarginCount(m: Margins, maxThreshold: real): (r: nat)
    ensures r <= 4
    ensures r == 0 <==> m.top <= maxThreshold && m.right <= maxThreshold && m.bottom <= maxThreshold && m.left <= maxThreshold
    ensures r == 4 <==> m.top > maxThreshold && m.right > maxThreshold && m.bottom > maxThreshold && m.left > maxThreshold
  {
    B(m.top > maxThreshold) + B(m.right > maxThreshold) + B(m.bottom > maxThreshold) + B(m.left > maxThreshold)
  }

  /** With ordered thresholds no margin is counted twice. */
  lemma MarginCountsDisjoint(m: Margins, minThreshold: real, maxThreshold: real)
    requires minThreshold <= maxThreshold
    ensures MinMarginCount(m, minThreshold) + MaxMarginCount(m, maxThreshold) <= 4
  {
  }

  /** The painting holds at least two of house, tree and person. */
  predicate TwoMainElements(p: PaintingSummary)
  {
    (p.house.Some? && p.tree.Some?) || (p.house.Some? && p.person.Some?) || (p.tree.Some? && p.person.Some?)
  }

  /** The area ratio used by the size rules: -1 for a missing element. */
  function Ratio(r: Option<real>): real
  {
    if r.Some? then r.value else -1.0
  }

  /** The house is very small together with a very small tree or person. */
  predicate TinyHouseRule(p: PaintingSummary, houseThreshold: real)
  {
    var h, t, q := Ratio(p.house), Ratio(p.tree), Ratio(p.person);
    p.house.Some? && h < houseThreshold &&
    ((t > 0.0 && t < TreeAreaRatioThreshold) || (q > 0.0 && q <= PersonAreaRatioThreshold))
  }

  /** Tree and person are both very small, or all three are. */
  predicate TinyElementsRule(p: PaintingSummary, houseThreshold: real)
  {
    var h, t, q := Ratio(p.house), Ratio(p.tree), Ratio(p.person);
    (q > 0.0 && q <= PersonAreaRatioThreshold && t > 0.0 && t < TreeAreaRatioThreshold) ||
    (h > 0.0 && h < houseThreshold && t > 0.0 && t < TreeAreaRatioThreshold &&
     q > 0.0 && q < PersonAreaRatioThreshold)
  }

  /**
   * The three-element clause of TinyElementsRule never decides anything:
   * whenever it holds, the tree-and-person clause before it holds too.
   */
  lemma AllTinyClauseSubsumed(p: PaintingSummary, houseThreshold: real)
    ensures TinyElementsRule(p, houseThreshold) <==>
      (var t, q := Ratio(p.tree), Ratio(p.person);
       q > 0.0 && q <= PersonAreaRatioThreshold && t > 0.0 && t < TreeAreaRatioThreshold)
  {
  }

  function HouseThreshold(age: int): real
  {
    if age < 16 then YoungHouseAreaRatioThreshold else DefaultHouseAreaRatioThreshold
  }

  /** The reference the evaluator ends with. */
  function FinalReference(p: PaintingSummary): (r: Reference)
    ensures !p.valid ==> r == Abnormal
    ensures p.empty ==> r == Abnormal
    ensures 0.0 < p.areaRatio <= 0.09 ==> r == Abnormal
    ensures !TwoMainElements(p) ==> r == Abnormal
    ensures p.whole.Some? && DoodledAndSparse(p.quadrants, p.whole.value) ==> r == Abnormal
  {
    if !p.valid then Abnormal
    else if p.empty || (0.0 < p.areaRatio <= 0.09) || !TwoMainElements(p) then Abnormal
    else if p.whole.Some? && DoodledAndSparse(p.quadrants, p.whole.value) then Abnormal
    else if TinyHouseRule(p, HouseThreshold(p.age)) || TinyElementsRule(p, HouseThreshold(p.age)) then Abnormal
    else Normal
  }

  /**
   * The younger threshold is the more lenient one: whatever is Abnormal
   * at an age under 16 is Abnormal for the same painting at 16 or over.
   */
  lemma YoungThresholdLenient(p: PaintingSummary, olderAge: int)
    requires p.age < 16 <= olderAge
    ensures FinalReference(p) == Abnormal ==> FinalReference(p.(age := olderAge)) == Abnormal
  {
    var q := p.(age := olderAge);
    assert HouseThreshold(p.age) < HouseThreshold(q.age);
    if TinyHouseRule(p, HouseThreshold(p.age)) {
      assert TinyHouseRule(q, HouseThreshold(q.age));
    }
    if TinyElementsRule(p, HouseThreshold(p.age)) {
      assert TinyElementsRule(q, HouseThreshold(q.age));
    }
  }

  /** A well-drawn painting keeps the Normal reference. */
  lemma NormalScenario()
    ensures FinalReference(PaintingSummary(true, false, 30, 0.4, Some(0.2), Some(0.2), Some(0.1), None, [])) == Normal
  {
  }

  /** The evaluator's reference bookkeeping. */
  class HtpEvaluation {
    var reference: Reference
    var houseAreaRatioThreshold: real

    constructor()
      ensures reference == Normal && houseAreaRatioThreshold == DefaultHouseAreaRatioThreshold
    {
      reference := Normal;
      houseAreaRatioThreshold := DefaultHouseAreaRatioThreshold;
    }

    /** Escalates the reference; it never goes back to Normal. */
    method MarkAbnormal()
      modifies this`reference
      ensures reference == Abnormal
    {
      reference := Abnormal;
    }

    /** The reference rules of the space-structure evaluation. */
    method EvalSpaceStructure(p: PaintingSummary)
      modifies this`reference
      ensures reference == (if (0.0 < p.areaRatio <= 0.09) || !TwoMainElements(p) ||
                               (p.whole.Some? && DoodledAndSparse(p.quadrants, p.whole.value))
                            then Abnormal else old(reference))
    {
      if p.areaRatio > 0.0 && p.areaRatio <= 0.09 {
        MarkAbnormal();
      }
      if !TwoMainElements(p) {
        MarkAbnormal();
      }
      if p.whole.Some? {
        var doodles, sparseness := TallyTextures(p.quadrants, p.whole.value);
        if doodles >= 2 && sparseness >= 2 {
          MarkAbnormal();
        }
      }
    }

    /** The reference rules of the frame-structure evaluation. */
    method EvalFrameStructure(p: PaintingSummary)
      modifies this`reference
      ensures reference == (if TinyHouseRule(p, houseAreaRatioThreshold) || TinyElementsRule(p, houseAreaRatioThreshold)
                            then Abnormal else old(reference))
    {
      var h, t, q := Ratio(p.house), Ratio(p.tree), Ratio(p.person);
      if p.house.Some? && h < houseAreaRatioThreshold {
        if t > 0.0 && t < TreeAreaRatioThreshold {
          MarkAbnormal();
        } else if q > 0.0 && q <= PersonAreaRatioThreshold {
          MarkAbnormal();
        }
      }
      if q > 0.0 && q <= PersonAreaRatioThreshold && t > 0.0 && t < TreeAreaRatioThreshold {
        MarkAbnormal();
      } else if h > 0.0 && h < houseAreaRatioThreshold && t > 0.0 && t < TreeAreaRatioThreshold &&
                q > 0.0 && q < PersonAreaRatioThreshold {
        // Unreachable: this condition implies the one above (AllTinyClauseSubsumed).
        assert false;
      }
    }

    /**
     * Sets the reference for a painting: the early exit for an invalid
     * painting, the age-dependent house threshold, the emptiness reset and
     * the escalations of the space and frame evaluations.
     */
    method MakeEvaluationReport(p: PaintingSummary) returns (evaluated: bool)
      requires houseAreaRatioThreshold == DefaultHouseAreaRatioThreshold
      modifies this
      ensures evaluated <==> p.valid
      ensures reference == FinalReference(p)
      ensures p.valid ==> houseAreaRatioThreshold == HouseThreshold(p.age)
      ensures !p.valid ==> houseAreaRatioThreshold == old(houseAreaRatioThreshold)
    {
      if !p.valid {
        MarkAbnormal();
        return false;
      }
      if p.age < 16 {
        houseAreaRatioThreshold := YoungHouseAreaRatioThreshold;
      }
      reference := if p.empty then Abnormal else Normal;
      EvalSpaceStructure(p);
      EvalFrameStructure(p);
      return true;
    }
  }

  datatype FrameStructure =
    | WholeTopSpace | WholeBottomSpace | WholeLeftSpace | WholeRightSpace
    | CenterTopLeftSpace | CenterTopRightSpace | CenterBottomLeftSpace | CenterBottomRightSpace

  /** The list of frame structures a painting shows, without duplicates. */
  class FrameStructureDescription {
    var frameStructures: seq<FrameStructure>

    constructor()
      ensures frameStructures == []
    {
      frameStructures := [];
    }

    /** Appends a structure unless it is already listed. */
    method AddFrameStructure(s: FrameStructure)
      modifies this
      ensures frameStructures == if s in old(frameStructures) then old(frameStructures) else old(frameStructures) + [s]
      ensures Distinct(old(frameStructures)) ==> Distinct(frameStructures)
      ensures s in frameStructures
    {
      if s in frameStructures {
        return;
      }
      frameStructures := frameStructures + [s];
    }

    predicate IsWholeTop() reads this { WholeTopSpace in frameStructures }
    predicate IsWholeBottom() reads this { WholeBottomSpace in frameStructures }
    predicate IsWholeLeft() reads this { WholeLeftSpace in frameStructures }
    predicate IsWholeRight() reads this { WholeRightSpace in frameStructures }
  }

  /** A centre quadrant and the collision area of the painting with it. */
  datatype AreaDesc = AreaDesc(area: int, structure: FrameStructure)

  /** The collision areas of the painting box with the canvas halves and the centre quadrants. */
  datatype FrameAreas = FrameAreas(top: int, bottom: int, left: int, right: int,
                                   topLeft: int, topRight: int, bottomLeft: int, bottomRight: int)

  predicate IsCenter(s: FrameStructure)
  {
    s.CenterTopLeftSpace? || s.CenterTopRightSpace? || s.CenterBottomLeftSpace? || s.CenterBottomRightSpace?
  }

  function CenterArea(a: FrameAreas, s: FrameStructure): int
  {
    match s
    case CenterTopLeftSpace => a.topLeft
    case CenterTopRightSpace => a.topRight
    case CenterBottomLeftSpace => a.bottomLeft
    case CenterBottomRightSpace => a.bottomRight
    case _ => 0
  }

  function CenterRank(s: FrameStructure): int
  {
    match s
    case CenterTopLeftSpace => 0
    case CenterTopRightSpace => 1
    case CenterBottomLeftSpace => 2
    case CenterBottomRightSpace => 3
    case _ => -1
  }

  /**
   * The frame structure of a painting: one of top and bottom (bottom on a
   * tie), one of left and right (right on a tie) and the centre quadrant
   * with the largest area (the later of top-left, top-right, bottom-left,
   * bottom-right on a tie).
   */
  method CalcFrameStructure(a: FrameAreas) returns (fsd: FrameStructureDescription)
    ensures fresh(fsd)
    ensures |fsd.frameStructures| == 3 && Distinct(fsd.frameStructures)
    ensures fsd.frameStructures[0] == (if a.top > a.bottom then WholeTopSpace else WholeBottomSpace)
    ensures fsd.frameStructures[1] == (if a.left > a.right then WholeLeftSpace else WholeRightSpace)
    ensures var c := fsd.frameStructures[2];
      IsCenter(c) &&
      (forall s :: IsCenter(s) ==> CenterArea(a, s) <= CenterArea(a, c)) &&
      (forall s :: IsCenter(s) && CenterRank(s) > CenterRank(c) ==> CenterArea(a, s) < CenterArea(a, c))
  {
    fsd := new FrameStructureDescription();
    if a.top > a.bottom {
      fsd.AddFrameStructure(WholeTopSpace);
    } else {
      fsd.AddFrameStructure(WholeBottomSpace);
    }
    if a.left > a.right {
      fsd.AddFrameStructure(WholeLeftSpace);
    } else {
      fsd.AddFrameStructure(WholeRightSpace);
    }
    var c := LargestCenter(a);
    fsd.AddFrameStructure(c);
  }

  /**
   * The centre quadrant that the ascending sort of the four quadrant areas
   * puts last: one of greatest area, and the last in quadrant order among those.
   */
  method LargestCenter(a: FrameAreas) returns (c: FrameStructure)
    ensures IsCenter(c)
    ensures forall s :: IsCenter(s) ==> CenterArea(a, s) <= CenterArea(a, c)
    ensures forall s :: IsCenter(s) && CenterRank(s) > CenterRank(c) ==> CenterArea(a, s) < CenterArea(a, c)
  {
    var list := [AreaDesc(a.topLeft, CenterTopLeftSpace), AreaDesc(a.topRight, CenterTopRightSpace),
                 AreaDesc(a.bottomLeft, CenterBottomLeftSpace), AreaDesc(a.bottomRight, CenterBottomRightSpace)];
    var keys := [list[0].area, list[1].area, list[2].area, list[3].area];
    var i := LastOfAscendingSort(keys);
    c := list[i].structure;
    assert CenterRank(c) == i && CenterArea(a, c) == keys[i];
    forall s | IsCenter(s) ensures CenterArea(a, s) <= CenterArea(a, c) {
      assert CenterArea(a, s) == keys[CenterRank(s)];
    }
    forall s | IsCenter(s) && CenterRank(s) > CenterRank(c) ensures CenterArea(a, s) < CenterArea(a, c) {
      assert CenterArea(a, s) == keys[CenterRank(s)];
    }
  }

  /** A detected object's horizontal extent. */
  datatype Box = Box(x0: int, x1: int)

  /** The canvas centre line as the evaluator rounds it (half-up). */
  function CenterX(width: int): int
  {
    (width + 1) / 2
  }

  /**
   * Whether objects stand on both sides of the centre line: some object
   * ends left of it and some object, not counted left, starts right of it.
   * A missing or empty list is not symmetric.
   */
  method CalcSymmetry(things: Option<seq<Box>>, width: int) returns (r: bool)
    ensures things.None? || things.value == [] ==> !r
    ensures things.Some? ==>
      (r <==> (exists i :: 0 <= i < |things.value| && things.value[i].x1 < CenterX(width)) &&
              (exists j :: 0 <= j < |things.value| && things.value[j].x1 >= CenterX(width) &&
                           things.value[j].x0 > CenterX(width)))
  {
    if things.None? || things.value == [] {
      return false;
    }
    var list := things.value;
    var centerX := CenterX(width);
    var leftList: seq<Box> := [];
    var rightList: seq<Box> := [];
    var i := 0;
    while i < |list|
      invariant 0 <= i <= |list|
      invariant leftList != [] <==> exists k :: 0 <= k < i && list[k].x1 < centerX
      invariant rightList != [] <==> exists k :: 0 <= k < i && list[k].x1 >= centerX && list[k].x0 > centerX
    {
      if list[i].x1 < centerX {
        leftList := leftList + [list[i]];
      } else if list[i].x0 > centerX {
        rightList := rightList + [list[i]];
      }
      i := i + 1;
    }
    return leftList != [] && rightList != [];
  }
}
