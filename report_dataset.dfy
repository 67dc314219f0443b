/**
 * Dataset preparation: aligning a report's scores to the indicator
 * priority order, splitting a CSV dataset into training and test sets, and
 * the numeric row read from a scale questionnaire export.
 */
module ReportDatasetModel {
  import opened PsychologyTypes
  import opened Strings
  import EvaluationScoreModel

  /** The first position holding indicator ind, if any. */
  function FirstWith(inds: seq<Indicator>, ind: Indicator): (r: Option<nat>)
    ensures r.None? <==> ind !in inds
    ensures r.Some? ==> r.value < |inds| && inds[r.value] == ind && ind !in inds[..r.value]
    ensures r.Some? ==> forall k :: 0 <= k < |inds| && inds[k] == ind ==> r.value <= k
  {
    if inds == [] then None
    else if inds[0] == ind then Some(0)
    else match FirstWith(inds[1..], ind)
      case None => None
      case Some(k) =>
        assert inds[1..][..k] == inds[1..k + 1];
        Some(k + 1)
  }

  /** The indicators of a list of scores. */
  function IndicatorsOf(scores: seq<EvaluationScoreModel.EvaluationScore>): (r: seq<Indicator>)
    reads set i | 0 <= i < |scores| :: scores[i]
    ensures |r| == |scores| && forall i :: 0 <= i < |scores| ==> r[i] == scores[i].indicator
  {
    seq(|scores|, i reads scores requires 0 <= i < |scores| => scores[i].indicator)
  }

  /**
   * One score per indicator of the priority order: the first input score
   * of that indicator, or a new empty score.
   */
  method AlignScores(scores: seq<EvaluationScoreModel.EvaluationScore>, priority: seq<Indicator>)
    returns (result: seq<EvaluationScoreModel.EvaluationScore>)
    ensures |result| == |priority|
    ensures forall i :: 0 <= i < |priority| ==> result[i].indicator == priority[i]
    ensures forall i :: 0 <= i < |priority| && FirstWith(IndicatorsOf(scores), priority[i]).Some? ==>
      result[i] == scores[FirstWith(IndicatorsOf(scores), priority[i]).value]
    ensures forall i :: 0 <= i < |priority| && FirstWith(IndicatorsOf(scores), priority[i]).None? ==>
      fresh(result[i]) && result[i].State() == EvaluationScoreModel.EmptyState && result[i].rate.None?
  {
    ghost var inds := IndicatorsOf(scores);
    result := [];
    var i := 0;
    while i < |priority|
      invariant 0 <= i <= |priority| && |result| == i
      invariant forall k :: 0 <= k < i ==> result[k].indicator == priority[k]
      invariant forall k :: 0 <= k < i && FirstWith(inds, priority[k]).Some? ==>
        result[k] == scores[FirstWith(inds, priority[k]).value]
      invariant forall k :: 0 <= k < i && FirstWith(inds, priority[k]).None? ==>
        fresh(result[k]) && result[k].State() == EvaluationScoreModel.EmptyState && result[k].rate.None?
    {
      var found: Option<nat> := None;
      var j := 0;
      while j < |scores|
        invariant 0 <= j <= |scores|
        invariant found.None? ==> priority[i] !in inds[..j]
        invariant found.Some? ==> found == FirstWith(inds, priority[i])
      {
        if scores[j].indicator == priority[i] {
          found := Some(j);
          assert inds[..j + 1] == inds[..j] + [inds[j]];
          FirstAfterAbsentPrefix(inds, j, priority[i]);
          break;
        }
        assert inds[..j + 1] == inds[..j] + [inds[j]];
        j := j + 1;
      }
      if found.Some? {
        result := result + [scores[found.value]];
      } else {
        assert inds[..|scores|] == inds;
        var empty := new EvaluationScoreModel.EvaluationScore.Empty(priority[i]);
        result := result + [empty];
      }
      i := i + 1;
    }
  }

  lemma FirstAfterAbsentPrefix(inds: seq<Indicator>, j: nat, ind: Indicator)
    requires j < |inds| && inds[j] == ind && ind !in inds[..j]
    ensures FirstWith(inds, ind) == Some(j)
  {
    var r := FirstWith(inds, ind);
    assert r.Some? by {
      assert ind in inds by { assert inds[j] == ind; }
    }
    assert forall k :: 0 <= k < j ==> inds[k] != ind by {
      forall k | 0 <= k < j ensures inds[k] != ind {
        assert inds[..j][k] == inds[k];
      }
    }
  }

  /** Java's rounding of a non-negative float to the nearest integer, halves up. */
  function Round(x: real): int
  {
    (x + 0.5).Floor
  }

  /** The number of test lines for n data lines. */
  function NumTest(n: nat, ratio: real): (r: int)
    ensures n as real * ratio - 0.5 < r as real <= n as real * ratio + 0.5
    ensures 0.0 <= ratio <= 1.0 ==> 0 <= r <= n
  {
    Round(n as real * ratio)
  }

  /**
   * The test-index selection loop, fed with random draws in [0, n - 1]:
   * a draw is kept unless already chosen, until numTest indices are
   * chosen. Returns the indices and the number of draws consumed.
   */
  method SelectTestIndices(numTest: int, n: nat, draws: seq<int>) returns (indices: seq<int>, used: nat)
    requires forall k :: 0 <= k < |draws| ==> 0 <= draws[k] < n
    ensures Distinct(indices) && used <= |draws|
    ensures forall k :: 0 <= k < |indices| ==> 0 <= indices[k] < n
    ensures forall k :: 0 <= k < |indices| ==> indices[k] in draws[..used]
    ensures forall k :: 0 <= k < used ==> draws[k] in indices
    ensures |indices| < numTest ==> used == |draws|
    ensures |indices| >= numTest ==> |indices| == (if numTest < 0 then 0 else numTest)
  {
    indices := [];
    used := 0;
    while |indices| < numTest && used < |draws|
      invariant used <= |draws| && Distinct(indices)
      invariant |indices| <= (if numTest < 0 then 0 else numTest)
      invariant forall k :: 0 <= k < |indices| ==> 0 <= indices[k] < n
      invariant forall k :: 0 <= k < |indices| ==> indices[k] in draws[..used]
      invariant forall k :: 0 <= k < used ==> draws[k] in indices
    {
      var index := draws[used];
      assert draws[..used + 1] == draws[..used] + [index];
      if index !in indices {
        indices := indices + [index];
      }
      used := used + 1;
    }
  }

  /** The integers 0 .. n - 1. */
  function Range(n: nat): (r: set<int>)
    ensures forall v :: v in r <==> 0 <= v < n
    ensures |r| == n
  {
    if n == 0 then {} else Range(n - 1) + {n - 1}
  }

  /** The values of a list. */
  function Elems(xs: seq<int>): set<int>
  {
    set k | 0 <= k < |xs| :: xs[k]
  }

  /** Distinct indices in [0, n) number at most n. */
  lemma DistinctIndicesBound(xs: seq<int>, n: nat)
    requires Distinct(xs) && forall k :: 0 <= k < |xs| ==> 0 <= xs[k] < n
    ensures |xs| <= n
  {
    DistinctCard(xs);
    SubsetCard(Elems(xs), Range(n));
  }

  lemma {:induction false} DistinctCard(xs: seq<int>)
    requires Distinct(xs)
    ensures |Elems(xs)| == |xs|
  {
    if xs != [] {
      var init := xs[..|xs| - 1];
      DistinctCard(init);
      assert Elems(xs) == Elems(init) + {xs[|xs| - 1]};
      assert xs[|xs| - 1] !in Elems(init);
    }
  }

  lemma SubsetCard(a: set<int>, b: set<int>)
    requires a <= b
    ensures |a| <= |b|
  {
    assert b == a + (b - a);
  }

  /**
   * When more test lines are wanted than there are lines, the selection
   * never completes: no draws reach the requested count.
   */
  lemma SelectionCannotComplete(numTest: int, n: nat, indices: seq<int>)
    requires numTest > n
    requires Distinct(indices) && forall k :: 0 <= k < |indices| ==> 0 <= indices[k] < n
    ensures |indices| < numTest
  {
    DistinctIndicesBound(indices, n);
  }

  /** The lines whose index is in the test set, in original order. */
  function Selected(lines: seq<string>, test: seq<int>): seq<string>
  {
    if lines == [] then []
    else Selected(lines[..|lines| - 1], test) + (if |lines| - 1 in test then [lines[|lines| - 1]] else [])
  }

  /** The training file is the header and every line; the test file the header and the selected lines. */
  method SplitTrainTest(source: seq<string>, test: seq<int>) returns (train: seq<string>, testOut: seq<string>)
    requires source != []
    ensures train == source
    ensures testOut == [source[0]] + Selected(source[1..], test)
  {
    var header := source[0];
    var lines := source[1..];
    train := [header];
    testOut := [header];
    var i := 0;
    while i < |lines|
      invariant 0 <= i <= |lines|
      invariant train == [header] + lines[..i]
      invariant testOut == [header] + Selected(lines[..i], test)
    {
      assert lines[..i + 1][..i] == lines[..i];
      if i in test {
        testOut := testOut + [lines[i]];
      }
      train := train + [lines[i]];
      i := i + 1;
    }
    assert lines[..|lines|] == lines;
    assert source == [header] + lines;
  }

  /** The number of selected lines is the number of test indices that name a line. */
  lemma {:induction false} SelectedCount(lines: seq<string>, test: seq<int>)
    ensures |Selected(lines, test)| == |Range(|lines|) * Elems(test)|
  {
    if lines != [] {
      var n := |lines| - 1;
      SelectedCount(lines[..n], test);
      assert n in test <==> n in Elems(test);
      assert Range(|lines|) * Elems(test) ==
        (Range(n) * Elems(test)) + (if n in test then {n} else {});
    }
  }

  /** With distinct in-range test indices, the test file holds exactly that many lines. */
  lemma TestLineCount(lines: seq<string>, test: seq<int>)
    requires Distinct(test) && forall k :: 0 <= k < |test| ==> 0 <= test[k] < |lines|
    ensures |Selected(lines, test)| == |test|
  {
    SelectedCount(lines, test);
    DistinctCard(test);
    assert Range(|lines|) * Elems(test) == Elems(test);
  }

  /** Every test line is a training line at the same position. */
  lemma {:induction false} SelectedAreLines(lines: seq<string>, test: seq<int>)
    ensures forall s :: s in Selected(lines, test) ==> s in lines
  {
    if lines != [] {
      SelectedAreLines(lines[..|lines| - 1], test);
      assert forall s :: s in lines[..|lines| - 1] ==> s in lines;
    }
  }

  /** The female marker of the gender column. */
  const Female: string := "女"

  /**
   * A row of the scale export: a serial number and nineteen numbers
   * (gender, age, ten SCL factors, two PANAS and five Big Five scores).
   */
  class ScaleDataRow {
    var sn: int
    const data: array<real>

    /**
     * Reads a row from its comma-separated columns; num parses a numeric
     * column. The row must have at least 22 columns.
     */
    constructor(cols: seq<string>, sn: int, num: string -> real)
      requires |cols| >= 22
      ensures this.sn == sn && fresh(data) && data.Length == 19
      ensures data[0] == (if Contains(cols[2], Female) then 0.1 else 0.9)
      ensures data[1] == num(cols[3]) * 0.01
      ensures forall i :: 2 <= i < 12 ==> data[i] == num(cols[i + 2])
      ensures data[12] == num(cols[15]) && data[13] == num(cols[16])
      ensures forall i :: 14 <= i < 19 ==> data[i] == num(cols[i + 3])
    {
      this.sn := sn;
      var d := new real[19];
      d[0] := if Contains(cols[2], Female) then 0.1 else 0.9;
      d[1] := num(cols[3]) * 0.01;
      for i := 0 to 10
        invariant d[0] == (if Contains(cols[2], Female) then 0.1 else 0.9)
        invariant d[1] == num(cols[3]) * 0.01
        invariant forall k :: 2 <= k < i + 2 ==> d[k] == num(cols[k + 2])
      {
        d[i + 2] := num(cols[i + 4]);
      }
      d[12] := num(cols[11 + 4]);
      d[13] := num(cols[12 + 4]);
      for i := 14 to 19
        invariant d[0] == (if Contains(cols[2], Female) then 0.1 else 0.9)
        invariant d[1] == num(cols[3]) * 0.01
        invariant forall k :: 2 <= k < 12 ==> d[k] == num(cols[k + 2])
        invariant d[12] == num(cols[15]) && d[13] == num(cols[16])
        invariant forall k :: 14 <= k < i ==> d[k] == num(cols[k + 3])
      {
        d[i] := num(cols[i + 1 + 2]);
      }
      data := d;
    }

    /** A row is invalid exactly when the first five SCL factors are all equal. */
    function IsValid(): (r: bool)
      requires data.Length == 19
      reads this, data
      ensures !r <==> forall i, j :: 2 <= i < j <= 6 ==> data[i] == data[j]
    {
      !(data[2] == data[3] && data[3] == data[4] && data[4] == data[5] && data[5] == data[6])
    }

    /** The ten SCL factors, scaled. */
    method SplitSCL(scale: real) returns (values: seq<real>)
      requires data.Length == 19
      ensures |values| == 10 && forall i :: 0 <= i < 10 ==> values[i] == data[i + 2] * scale
    {
      values := [];
      for i := 0 to 10
        invariant |values| == i && forall k :: 0 <= k < i ==> values[k] == data[k + 2] * scale
      {
        values := values + [data[i + 2] * scale];
      }
    }

    /** The two PANAS scores, scaled. */
    function SplitPANAS(scale: real): (values: seq<real>)
      requires data.Length == 19
      reads this, data
      ensures |values| == 2 && forall i :: 0 <= i < 2 ==> values[i] == data[i + 12] * scale
    {
      [data[12] * scale, data[13] * scale]
    }

    /** The five Big Five scores, scaled. */
    function SplitBFP(scale: real): (values: seq<real>)
      requires data.Length == 19
      reads this, data
      ensures |values| == 5 && forall i :: 0 <= i < 5 ==> values[i] == data[i + 14] * scale
    {
      [data[14] * scale, data[15] * scale, data[16] * scale, data[17] * scale, data[18] * scale]
    }

    /**
     * The questionnaire scores brought to [0, 1]-ish ranges: SCL and Big
     * Five divided by 10, PANAS by 100; the last two entries stay 0.
     */
    method Normalization() returns (result: seq<real>)
      requires data.Length == 19
      ensures |result| == 19
      ensures forall i :: 0 <= i < 10 ==> result[i] == data[i + 2] / 10.0
      ensures result[10] == data[12] / 100.0 && result[11] == data[13] / 100.0
      ensures forall i :: 12 <= i < 17 ==> result[i] == data[i + 2] / 10.0
      ensures result[17] == 0.0 && result[18] == 0.0
    {
      result := seq(19, _ => 0.0);
      for i := 0 to 10
        invariant |result| == 19
        invariant forall k :: 0 <= k < i ==> result[k] == data[k + 2] / 10.0
        invariant forall k :: i <= k < 19 ==> result[k] == 0.0
      {
        result := result[i := data[i + 2] / 10.0];
      }
      result := result[10 := data[12] / 100.0];
      result := result[11 := data[13] / 100.0];
      for i := 12 to 17
        invariant |result| == 19
        invariant forall k :: 0 <= k < 10 ==> result[k] == data[k + 2] / 10.0
        invariant result[10] == data[12] / 100.0 && result[11] == data[13] / 100.0
        invariant forall k :: 12 <= k < i ==> result[k] == data[k + 2] / 10.0
        invariant forall k :: i <= k < 19 ==> result[k] == 0.0
      {
        result := result[i := data[i + 2] / 10.0];
      }
    }
  }

  /** The three splits together cover data[2..19], each value once, in order. */
  lemma SplitsCoverScores(row: ScaleDataRow, scl: seq<real>)
    requires row.data.Length == 19
    requires |scl| == 10 && forall i :: 0 <= i < 10 ==> scl[i] == row.data[i + 2] * 1.0
    ensures scl + row.SplitPANAS(1.0) + row.SplitBFP(1.0) == row.data[2..]
  {
  }
}
