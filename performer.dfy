/**
 * The dispatcher's performer: the directors it forwards to, the weighted
 * sections that spread each cellet's talks over its directors, the choice
 * of a director for a talk context, for a token and by greatest weight,
 * and the online contacts. The random anchor of a talk is a parameter;
 * talk contexts and devices are identified by integers.
 */
module PerformerModel {
  import opened PsychologyTypes

  datatype Endpoint = Endpoint(host: string, port: int)

  /** A director with its scope: its weight and the cellets it serves. */
  datatype Director = Director(endpoint: Endpoint, weight: int, cellets: seq<string>)

  /** The anchors begin..end of one director under one cellet, and the total weight of the cellet. */
  datatype Section = Section(begin: int, end: int, totalWeight: int)

  predicate Contains(s: Section, anchor: int)
  {
    s.begin <= anchor <= s.end
  }

  // ---- Sections -----------------------------------------------------------------------

  function Sum(ws: seq<int>): int
  {
    if ws == [] then 0 else Sum(ws[..|ws| - 1]) + ws[|ws| - 1]
  }

  /** The sections laid end to end: section k starts where section k-1 ends. */
  function Layout(ws: seq<int>): (r: seq<Section>)
    ensures |r| == |ws|
  {
    seq(|ws|, k requires 0 <= k < |ws| => Section(Sum(ws[..k]), Sum(ws[..k]) + ws[k] - 1, Sum(ws)))
  }

  /** The cursor as the source advances it: by the end of the last section plus one, on top of itself. */
  function CursorAsWritten(ws: seq<int>): int
  {
    if ws == [] then 0 else 2 * CursorAsWritten(ws[..|ws| - 1]) + ws[|ws| - 1]
  }

  /** The sections as start computes them. */
  function LayoutAsWritten(ws: seq<int>): (r: seq<Section>)
    ensures |r| == |ws|
  {
    seq(|ws|, k requires 0 <= k < |ws| =>
      Section(CursorAsWritten(ws[..k]), CursorAsWritten(ws[..k]) + ws[k] - 1, Sum(ws)))
  }

  predicate Positive(ws: seq<int>)
  {
    forall k :: 0 <= k < |ws| ==> ws[k] > 0
  }

  lemma {:induction false} SumPrefixGrows(ws: seq<int>, j: nat, k: nat)
    requires Positive(ws) && j < k <= |ws|
    ensures Sum(ws[..j]) < Sum(ws[..k])
  {
    assert ws[..k][..k - 1] == ws[..k - 1];
    if j < k - 1 {
      SumPrefixGrows(ws, j, k - 1);
    }
  }

  lemma {:induction false} SumNonNegative(ws: seq<int>)
    requires Positive(ws)
    ensures Sum(ws) >= 0
  {
    if ws != [] {
      SumNonNegative(ws[..|ws| - 1]);
    }
  }

  /** With positive weights, exactly the section k with Sum(ws[..k]) <= anchor < Sum(ws[..k+1]) contains the anchor. */
  lemma LayoutPartitions(ws: seq<int>, anchor: int, k: nat)
    requires Positive(ws) && k < |ws|
    ensures Contains(Layout(ws)[k], anchor) <==> Sum(ws[..k]) <= anchor < Sum(ws[..k + 1])
  {
    assert ws[..k + 1][..k] == ws[..k];
  }

  /** With positive weights every anchor in 0..Sum(ws)-1 is in exactly one section, and no other anchor is in any. */
  lemma LayoutCovers(ws: seq<int>, anchor: int)
    requires Positive(ws)
    ensures (exists k :: 0 <= k < |ws| && Contains(Layout(ws)[k], anchor)) <==> 0 <= anchor < Sum(ws)
    ensures forall j, k :: 0 <= j < k < |ws| && Contains(Layout(ws)[j], anchor) ==> !Contains(Layout(ws)[k], anchor)
  {
    LayoutDisjoint(ws, anchor);
    LayoutCoverage(ws, anchor);
  }

  /** No two sections share an anchor. */
  lemma LayoutDisjoint(ws: seq<int>, anchor: int)
    requires Positive(ws)
    ensures forall j, k :: 0 <= j < k < |ws| && Contains(Layout(ws)[j], anchor) ==> !Contains(Layout(ws)[k], anchor)
  {
    forall j, k | 0 <= j < k < |ws| && Contains(Layout(ws)[j], anchor)
      ensures !Contains(Layout(ws)[k], anchor)
    {
      LayoutPartitions(ws, anchor, j);
      if j + 1 < k {
        SumPrefixGrows(ws, j + 1, k);
      }
    }
  }

  /** Some section holds the anchor exactly when it lies in 0..Sum(ws)-1. */
  lemma LayoutCoverage(ws: seq<int>, anchor: int)
    requires Positive(ws)
    ensures (exists k :: 0 <= k < |ws| && Contains(Layout(ws)[k], anchor)) <==> 0 <= anchor < Sum(ws)
  {
    assert ws[..|ws|] == ws;
    if exists k :: 0 <= k < |ws| && Contains(Layout(ws)[k], anchor) {
      var k :| 0 <= k < |ws| && Contains(Layout(ws)[k], anchor);
      LayoutPartitions(ws, anchor, k);
      SumNonNegative(ws[..k]);
      if k + 1 < |ws| {
        SumPrefixGrows(ws, k + 1, |ws|);
      }
    }
    if 0 <= anchor < Sum(ws) {
      var k := AnchorSection(ws, anchor, |ws|);
      LayoutPartitions(ws, anchor, k);
    }
  }

  /** An anchor below the sum of the first n weights lies in the section of one of them. */
  lemma {:induction false} AnchorSection(ws: seq<int>, anchor: int, n: nat) returns (k: nat)
    requires Positive(ws) && n <= |ws| && 0 <= anchor < Sum(ws[..n])
    ensures k < n && Sum(ws[..k]) <= anchor < Sum(ws[..k + 1])
  {
    assert ws[..n][..n - 1] == ws[..n - 1];
    if anchor >= Sum(ws[..n - 1]) {
      k := n - 1;
    } else {
      k := AnchorSection(ws, anchor, n - 1);
    }
  }

  lemma {:induction false} CursorExceedsSum(ws: seq<int>, k: nat)
    requires 2 <= k <= |ws| && ws[0] > 0 && forall i :: 0 <= i < |ws| ==> ws[i] >= 0
    ensures CursorAsWritten(ws[..k]) - Sum(ws[..k]) >= ws[0]
    ensures CursorAsWritten(ws[..k]) >= 0
  {
    assert ws[..k][..k - 1] == ws[..k - 1];
    if k == 2 {
      assert ws[..1][..0] == [];
      assert CursorAsWritten(ws[..1]) == ws[0] && Sum(ws[..1]) == ws[0];
      assert ws[..2][1] == ws[1];
    } else {
      CursorExceedsSum(ws, k - 1);
    }
  }

  /**
   * As written, with three or more directors, a positive first weight and
   * no negative weights, the last section ends past Sum(ws) - 1, the
   * greatest anchor the selection draws.
   */
  lemma LayoutAsWrittenOverruns(ws: seq<int>)
    requires |ws| >= 3 && ws[0] > 0 && forall i :: 0 <= i < |ws| ==> ws[i] >= 0
    ensures LayoutAsWritten(ws)[|ws| - 1].end > Sum(ws) - 1
  {
    CursorExceedsSum(ws, |ws| - 1);
    assert ws[..|ws|] == ws;
    assert ws[..|ws| - 1] == ws[..|ws| - 1];
    assert Sum(ws) == Sum(ws[..|ws| - 1]) + ws[|ws| - 1];
  }

  /** Three directors of weight 1: the third section is 3..3, so the anchor 2 falls in no section. */
  lemma LayoutAsWrittenMissesAnchor()
    ensures LayoutAsWritten([1, 1, 1]) == [Section(0, 0, 3), Section(1, 1, 3), Section(3, 3, 3)]
    ensures forall k :: 0 <= k < 3 ==> !Contains(LayoutAsWritten([1, 1, 1])[k], 2)
    ensures Contains(Layout([1, 1, 1])[2], 2)
  {
    var ws := [1, 1, 1];
    assert ws[..0] == [] && ws[..1] == [1] && ws[..2] == [1, 1];
    assert [1, 1][..1] == [1] && [1][..0] == [];
    assert ws[..3][..2] == [1, 1];
  }

  /** The begin and end of each section, as the first loop of start lays them out. */
  function Spans(ws: seq<int>): (r: seq<(int, int)>)
    ensures |r| == |ws|
  {
    if ws == [] then []
    else
      var init := ws[..|ws| - 1];
      Spans(init) + [(Sum(init), Sum(init) + ws[|ws| - 1] - 1)]
  }

  lemma {:induction false} SpansLayout(ws: seq<int>)
    ensures forall k :: 0 <= k < |ws| ==> Spans(ws)[k] == (Layout(ws)[k].begin, Layout(ws)[k].end)
  {
    if ws != [] {
      var init := ws[..|ws| - 1];
      SpansLayout(init);
      forall k | 0 <= k < |init|
        ensures init[..k] == ws[..k]
      {
      }
    }
  }

  /** The first loop of start for one cellet, with the cursor moved past the end of each section. */
  method ComputeSpans(ws: seq<int>) returns (spans: seq<(int, int)>, total: int)
    ensures total == Sum(ws)
    ensures spans == Spans(ws)
  {
    total := 0;
    var cursor := 0;
    spans := [];
    for i := 0 to |ws|
      invariant total == Sum(ws[..i]) && cursor == total
      invariant spans == Spans(ws[..i])
    {
      assert ws[..i + 1][..i] == ws[..i];
      total := total + ws[i];
      var span := (cursor, cursor + ws[i] - 1);
      spans := spans + [span];
      cursor := span.1 + 1;
    }
    assert ws[..|ws|] == ws;
  }

  /** The two loops of start for one cellet: the spans, then the total weight. */
  method ComputeLayout(ws: seq<int>) returns (sections: seq<Section>)
    ensures sections == Layout(ws)
  {
    var spans, total := ComputeSpans(ws);
    SpansLayout(ws);
    sections := [];
    for i := 0 to |ws|
      invariant |sections| == i
      invariant forall k :: 0 <= k < i ==> sections[k] == Layout(ws)[k]
    {
      sections := sections + [Section(spans[i].0, spans[i].1, total)];
    }
  }

  /** The position of the first section holding the anchor. */
  function Locate(sections: seq<Section>, anchor: int): (r: Option<nat>)
    ensures r.Some? ==> r.value < |sections| && Contains(sections[r.value], anchor) &&
                        forall k :: 0 <= k < r.value ==> !Contains(sections[k], anchor)
    ensures r.None? ==> forall k :: 0 <= k < |sections| ==> !Contains(sections[k], anchor)
  {
    if sections == [] then None
    else if Contains(sections[0], anchor) then Some(0)
    else
      var r := Locate(sections[1..], anchor);
      if r.None? then None else Some(r.value + 1)
  }

  /** The search of the talk-context selection over the sections. */
  method FindSection(sections: seq<Section>, anchor: int) returns (r: Option<nat>)
    ensures r == Locate(sections, anchor)
  {
    for i := 0 to |sections|
      invariant forall k :: 0 <= k < i ==> !Contains(sections[k], anchor)
    {
      if Contains(sections[i], anchor) {
        LocateFirst(sections, anchor, i);
        return Some(i);
      }
    }
    LocateNone(sections, anchor);
    return None;
  }

  lemma {:induction false} LocateFirst(sections: seq<Section>, anchor: int, i: nat)
    requires i < |sections| && Contains(sections[i], anchor)
    requires forall k :: 0 <= k < i ==> !Contains(sections[k], anchor)
    ensures Locate(sections, anchor) == Some(i)
  {
    if i > 0 {
      LocateFirst(sections[1..], anchor, i - 1);
    }
  }

  lemma LocateNone(sections: seq<Section>, anchor: int)
    requires forall k :: 0 <= k < |sections| ==> !Contains(sections[k], anchor)
    ensures Locate(sections, anchor) == None
  {
  }

  // ---- The heaviest director -----------------------------------------------------------

  /** The selection by weight: the first director of greatest weight above zero, else the first one. */
  function Heaviest(ds: seq<Director>): (r: Option<nat>)
    ensures r.None? <==> ds == []
    ensures r.Some? ==> r.value < |ds|
  {
    if ds == [] then None
    else
      var h := Leading(ds, 0);
      if h.None? then Some(0) else h
  }

  /** The loop's running choice: the first director whose weight beats w and every weight before it. */
  function Leading(ds: seq<Director>, w: int): (r: Option<nat>)
    ensures r.Some? ==> r.value < |ds| && ds[r.value].weight > w
    ensures r.Some? ==> forall k :: 0 <= k < |ds| ==> ds[k].weight <= ds[r.value].weight
    ensures r.Some? ==> forall k :: 0 <= k < r.value ==> ds[k].weight < ds[r.value].weight
    ensures r.None? <==> forall k :: 0 <= k < |ds| ==> ds[k].weight <= w
  {
    if ds == [] then None
    else
      var h := Leading(ds[..|ds| - 1], w);
      var d := ds[|ds| - 1];
      assert forall k :: 0 <= k < |ds| - 1 ==> ds[..|ds| - 1][k] == ds[k];
      if h.None? then (if d.weight > w then Some(|ds| - 1) else None)
      else if d.weight > ds[h.value].weight then Some(|ds| - 1) else h
  }

  /** The source's selectDirector(): None is the failure on an empty director list. */
  method SelectHeaviest(ds: seq<Director>) returns (r: Option<nat>)
    ensures r == Heaviest(ds)
  {
    var selected: Option<nat> := None;
    var weight := 0;
    for i := 0 to |ds|
      invariant selected == Leading(ds[..i], 0)
      invariant weight == if selected.None? then 0 else ds[selected.value].weight
    {
      assert ds[..i + 1][..i] == ds[..i];
      assert forall k :: 0 <= k < i ==> ds[..i][k] == ds[k];
      if ds[i].weight > weight {
        weight := ds[i].weight;
        selected := Some(i);
      }
    }
    assert ds[..|ds|] == ds;
    if selected.None? {
      if |ds| == 0 {
        return None;
      }
      return Some(0);
    }
    return selected;
  }

  /** The weights of the directors at the given positions. */
  function WeightsOf(ds: seq<Director>, at: seq<nat>): (ws: seq<int>)
    requires forall k :: 0 <= k < |at| ==> at[k] < |ds|
    ensures |ws| == |at| && forall k :: 0 <= k < |at| ==> ws[k] == ds[at[k]].weight
  {
    seq(|at|, k requires 0 <= k < |at| => ds[at[k]].weight)
  }

  /** The cellet lists after registering director d (at position at) under each of cellets. */
  function Register(lists: map<string, seq<nat>>, cellets: seq<string>, at: nat): (r: map<string, seq<nat>>)
    ensures forall c :: c in r <==> c in lists || c in cellets
  {
    if cellets == [] then lists
    else
      var m := Register(lists, cellets[..|cellets| - 1], at);
      var c := cellets[|cellets| - 1];
      assert forall x :: x in cellets <==> x in cellets[..|cellets| - 1] || x == c by {
        assert cellets == cellets[..|cellets| - 1] + [c];
      }
      m[c := (if c in m then m[c] else []) + [at]]
  }

  /** Registration appends the director once per naming of a cellet, and leaves the other cellets alone. */
  lemma {:induction false} RegisterMeaning(lists: map<string, seq<nat>>, cellets: seq<string>, at: nat)
    ensures var r := Register(lists, cellets, at);
      && (forall c :: c in lists && c !in cellets ==> r[c] == lists[c])
      && (forall c :: c in lists && c in cellets ==> |r[c]| > |lists[c]| && r[c][..|lists[c]|] == lists[c])
      && (forall c :: c in r ==> at in r[c] || (c in lists && r[c] == lists[c]))
      && (forall c :: c in cellets ==> at in r[c])
      && (forall c, x :: c in r && x in r[c] ==> x == at || (c in lists && x in lists[c]))
  {
    if cellets != [] {
      var init := cellets[..|cellets| - 1];
      RegisterMeaning(lists, init, at);
      var c := cellets[|cellets| - 1];
      assert cellets == init + [c];
      RegisterMeaningStep(lists, init, c, at, Register(lists, init, at));
    }
  }

  /** The registration facts for cellets, given the map r registered for them. */
  ghost predicate RegisteredAs(lists: map<string, seq<nat>>, cellets: seq<string>, at: nat, r: map<string, seq<nat>>)
  {
    && (forall c :: c in r <==> c in lists || c in cellets)
    && (forall c :: c in lists && c !in cellets ==> r[c] == lists[c])
    && (forall c :: c in lists && c in cellets ==> |r[c]| > |lists[c]| && r[c][..|lists[c]|] == lists[c])
    && (forall c :: c in r ==> at in r[c] || (c in lists && r[c] == lists[c]))
    && (forall c :: c in cellets ==> at in r[c])
    && (forall c, x :: c in r && x in r[c] ==> x == at || (c in lists && x in lists[c]))
  }

  /** Registering one more cellet keeps the registration facts. */
  lemma RegisterMeaningStep(lists: map<string, seq<nat>>, init: seq<string>, c: string, at: nat,
                            m: map<string, seq<nat>>)
    requires RegisteredAs(lists, init, at, m)
    ensures RegisteredAs(lists, init + [c], at, m[c := (if c in m then m[c] else []) + [at]])
  {
    var cellets := init + [c];
    var r := m[c := (if c in m then m[c] else []) + [at]];
    assert forall x :: x in cellets <==> x in init || x == c;
    if c in lists && c in init {
      assert m[c][..|lists[c]|] == lists[c];
      assert (m[c] + [at])[..|lists[c]|] == m[c][..|lists[c]|];
    }
    if c in lists && c !in init {
      assert r[c][..|lists[c]|] == lists[c];
    }
    forall d, x | d in r && x in r[d]
      ensures x == at || (d in lists && x in lists[d])
    {
      if d == c && c in m && x != at {
        assert x in m[c];
      }
    }
  }

  /** The sections after giving the new director a zeroed section under each of cellets. */
  function Padded(secs: map<string, seq<Section>>, cellets: seq<string>): (r: map<string, seq<Section>>)
    ensures forall c :: c in r <==> c in secs || c in cellets
  {
    if cellets == [] then secs
    else
      var m := Padded(secs, cellets[..|cellets| - 1]);
      var c := cellets[|cellets| - 1];
      assert forall x :: x in cellets <==> x in cellets[..|cellets| - 1] || x == c by {
        assert cellets == cellets[..|cellets| - 1] + [c];
      }
      m[c := (if c in m then m[c] else []) + [Section(0, 0, 0)]]
  }

  /** Padding keeps every section and adds only zeroed ones. */
  lemma {:induction false} PaddedMeaning(secs: map<string, seq<Section>>, cellets: seq<string>)
    ensures var r := Padded(secs, cellets);
      forall c :: c in r ==>
        (c in secs ==> |r[c]| >= |secs[c]|) &&
        forall k :: 0 <= k < |r[c]| ==> r[c][k] == if c in secs && k < |secs[c]| then secs[c][k] else Section(0, 0, 0)
  {
    if cellets != [] {
      PaddedMeaning(secs, cellets[..|cellets| - 1]);
    }
  }

  /** Each cellet's list and sections run in step, and every position names one of n directors. */
  predicate Aligned(lists: map<string, seq<nat>>, secs: map<string, seq<Section>>, n: nat)
  {
    && (forall c :: c in lists ==>
          c in secs && |secs[c]| == |lists[c]| && lists[c] != [] &&
          forall k :: 0 <= k < |lists[c]| ==> lists[c][k] < n)
    && (forall c :: c in secs ==> c in lists)
  }

  lemma {:induction false} RegisterKeepsAligned(lists: map<string, seq<nat>>, secs: map<string, seq<Section>>,
                                                cellets: seq<string>, at: nat, n: nat)
    requires Aligned(lists, secs, n) && at < n
    ensures Aligned(Register(lists, cellets, at), Padded(secs, cellets), n)
  {
    if cellets != [] {
      var init := cellets[..|cellets| - 1];
      RegisterKeepsAligned(lists, secs, init, at, n);
      var c := cellets[|cellets| - 1];
      var l := Register(lists, init, at);
      var q := Padded(secs, init);
      assert Register(lists, cellets, at) == l[c := (if c in l then l[c] else []) + [at]];
      assert Padded(secs, cellets) == q[c := (if c in q then q[c] else []) + [Section(0, 0, 0)]];
      AlignedStep(l, q, c, at, n);
    }
  }

  /** Registering one more cellet keeps lists and sections in step. */
  lemma AlignedStep(lists: map<string, seq<nat>>, secs: map<string, seq<Section>>, c: string, at: nat, n: nat)
    requires Aligned(lists, secs, n) && at < n
    ensures Aligned(lists[c := (if c in lists then lists[c] else []) + [at]],
                    secs[c := (if c in secs then secs[c] else []) + [Section(0, 0, 0)]], n)
  {
    var l := lists[c := (if c in lists then lists[c] else []) + [at]];
    var q := secs[c := (if c in secs then secs[c] else []) + [Section(0, 0, 0)]];
    forall x | x in l
      ensures x in q && |q[x]| == |l[x]| && l[x] != [] && forall k :: 0 <= k < |l[x]| ==> l[x][k] < n
    {
      if x != c {
        assert l[x] == lists[x];
      }
    }
  }

  /** Registering one more cellet of the scope is one map update of each. */
  lemma RegisterSnoc(lists: map<string, seq<nat>>, secs: map<string, seq<Section>>, cellets: seq<string>, i: nat, at: nat)
    requires i < |cellets|
    ensures var c := cellets[i];
      var l := Register(lists, cellets[..i], at);
      var q := Padded(secs, cellets[..i]);
      Register(lists, cellets[..i + 1], at) == l[c := (if c in l then l[c] else []) + [at]] &&
      Padded(secs, cellets[..i + 1]) == q[c := (if c in q then q[c] else []) + [Section(0, 0, 0)]]
  {
    assert cellets[..i + 1][..i] == cellets[..i];
  }

  /** The registration loop of addDirector. */
  method RegisterAll(lists: map<string, seq<nat>>, secs: map<string, seq<Section>>, cellets: seq<string>, at: nat)
    returns (newLists: map<string, seq<nat>>, newSecs: map<string, seq<Section>>)
    ensures newLists == Register(lists, cellets, at)
    ensures newSecs == Padded(secs, cellets)
  {
    newLists := lists;
    newSecs := secs;
    for i := 0 to |cellets|
      invariant newLists == Register(lists, cellets[..i], at)
      invariant newSecs == Padded(secs, cellets[..i])
    {
      var c := cellets[i];
      RegisterSnoc(lists, secs, cellets, i, at);
      var list := if c in newLists then newLists[c] else [];
      var s := if c in newSecs then newSecs[c] else [];
      newLists := newLists[c := list + [at]];
      newSecs := newSecs[c := s + [Section(0, 0, 0)]];
    }
    assert cellets[..|cellets|] == cellets;
  }

  /** The search of addDirector for a director with the same endpoint. */
  method Known(ds: seq<Director>, endpoint: Endpoint) returns (known: bool)
    ensures known <==> exists k :: 0 <= k < |ds| && ds[k].endpoint == endpoint
  {
    for k := 0 to |ds|
      invariant forall j :: 0 <= j < k ==> ds[j].endpoint != endpoint
    {
      if ds[k].endpoint == endpoint {
        return true;
      }
    }
    return false;
  }

  /** Alignment with n directors holds with more. */
  lemma AlignedWider(lists: map<string, seq<nat>>, secs: map<string, seq<Section>>, n: nat, m: nat)
    requires Aligned(lists, secs, n) && n <= m
    ensures Aligned(lists, secs, m)
  {
  }

  predicate InRange(ds: seq<Director>, lists: map<string, seq<nat>>)
  {
    forall c :: c in lists ==> forall k :: 0 <= k < |lists[c]| ==> lists[c][k] < |ds|
  }

  /** The sections start computes for every cellet. */
  function Started(ds: seq<Director>, lists: map<string, seq<nat>>): (r: map<string, seq<Section>>)
    requires InRange(ds, lists)
    ensures r.Keys == lists.Keys
    ensures forall c :: c in r ==> |r[c]| == |lists[c]|
  {
    map c | c in lists :: Layout(WeightsOf(ds, lists[c]))
  }

  /** The loop of start over the cellets. */
  method LayoutAll(ds: seq<Director>, lists: map<string, seq<nat>>) returns (secs: map<string, seq<Section>>)
    requires InRange(ds, lists)
    ensures secs == Started(ds, lists)
  {
    var keys := lists.Keys;
    secs := map[];
    ghost var target := Started(ds, lists);
    while keys != {}
      invariant keys <= lists.Keys
      invariant forall c :: c in secs <==> c in lists && c !in keys
      invariant forall c :: c in secs ==> secs[c] == target[c]
      decreases keys
    {
      SomeCellet(keys);
      var c :| c in keys;
      var layout := ComputeLayout(WeightsOf(ds, lists[c]));
      secs := secs[c := layout];
      keys := keys - {c};
    }
    assert forall c :: c in secs <==> c in target;
  }

  // ---- The performer ---------------------------------------------------------------------

  class Performer {
    var directors: seq<Director>
    /** The directors of each cellet, as positions in directors. */
    var celletDirectors: map<string, seq<nat>>
    /** The section of each cellet's k-th director. */
    var sections: map<string, seq<Section>>
    var talkDirectors: map<int, nat>
    var tokenDirectors: map<string, nat>
    /** The talk context of the device known for a token. */
    var tokenDevices: map<string, int>
    /** The devices of each online contact. */
    var online: map<string, set<int>>

    predicate Valid()
      reads this
    {
      && Aligned(celletDirectors, sections, |directors|)
      && (forall t :: t in talkDirectors ==> talkDirectors[t] < |directors|)
      && (forall t :: t in tokenDirectors ==> tokenDirectors[t] < |directors|)
    }

    constructor ()
      ensures Valid()
      ensures directors == [] && celletDirectors == map[] && sections == map[]
      ensures talkDirectors == map[] && tokenDirectors == map[] && tokenDevices == map[] && online == map[]
    {
      directors := [];
      celletDirectors := map[];
      sections := map[];
      talkDirectors := map[];
      tokenDirectors := map[];
      tokenDevices := map[];
      online := map[];
    }

    /**
     * addDirector: None for a director already present (the same
     * endpoint); otherwise the director is appended and put at the end of
     * the list of every cellet of its scope, with a zeroed section.
     */
    method AddDirector(endpoint: Endpoint, weight: int, cellets: seq<string>) returns (r: Option<nat>)
      requires Valid()
      modifies this
      ensures Valid()
      ensures (exists k :: 0 <= k < |old(directors)| && old(directors)[k].endpoint == endpoint) ==>
        r.None? && directors == old(directors) && celletDirectors == old(celletDirectors) && sections == old(sections)
      ensures (forall k :: 0 <= k < |old(directors)| ==> old(directors)[k].endpoint != endpoint) ==>
        && r == Some(|old(directors)|)
        && directors == old(directors) + [Director(endpoint, weight, cellets)]
        && celletDirectors == Register(old(celletDirectors), cellets, |old(directors)|)
        && sections == Padded(old(sections), cellets)
      ensures talkDirectors == old(talkDirectors) && tokenDirectors == old(tokenDirectors)
      ensures tokenDevices == old(tokenDevices) && online == old(online)
    {
      var known := Known(directors, endpoint);
      if known {
        return None;
      }
      var at := |directors|;
      AlignedWider(celletDirectors, sections, at, at + 1);
      RegisterKeepsAligned(celletDirectors, sections, cellets, at, at + 1);
      var lists, secs := RegisterAll(celletDirectors, sections, cellets, at);
      directors := directors + [Director(endpoint, weight, cellets)];
      celletDirectors := lists;
      sections := secs;
      return Some(at);
    }

    /** start: the sections of every cellet, laid end to end by weight. */
    method Start()
      requires Valid()
      modifies this
      ensures Valid()
      ensures sections == old(Started(directors, celletDirectors))
      ensures directors == old(directors) && celletDirectors == old(celletDirectors)
      ensures talkDirectors == old(talkDirectors) && tokenDirectors == old(tokenDirectors)
      ensures tokenDevices == old(tokenDevices) && online == old(online)
    {
      var secs := LayoutAll(directors, celletDirectors);
      sections := secs;
    }

    /** The talk-context selection as a specification: the choice and the new memo. */
    function TalkChoice(talk: int, cellet: string, anchor: int): (r: (Option<nat>, map<int, nat>))
      requires Valid()
      reads this
    {
      if talk in talkDirectors then (Some(talkDirectors[talk]), talkDirectors)
      else if cellet !in celletDirectors then
        (if directors == [] then (None, talkDirectors) else (Some(0), talkDirectors[talk := 0]))
      else
        var p := Locate(sections[cellet], anchor);
        if p.Some? then (Some(celletDirectors[cellet][p.value]), talkDirectors[talk := celletDirectors[cellet][p.value]])
        else (Some(0), talkDirectors)
    }

    /**
     * selectDirector(talkContext, celletName): None is the failure on an
     * empty director list.
     */
    method SelectForTalk(talk: int, cellet: string, anchor: int) returns (r: Option<nat>)
      requires Valid()
      modifies this
      ensures Valid()
      ensures (r, talkDirectors) == old(TalkChoice(talk, cellet, anchor))
      ensures r.Some? ==> r.value < |directors|
      ensures directors == old(directors) && celletDirectors == old(celletDirectors) && sections == old(sections)
      ensures tokenDirectors == old(tokenDirectors) && tokenDevices == old(tokenDevices) && online == old(online)
    {
      if talk in talkDirectors {
        return Some(talkDirectors[talk]);
      }
      if cellet !in celletDirectors {
        if |directors| == 0 {
          return None;
        }
        talkDirectors := talkDirectors[talk := 0];
        return Some(0);
      }
      var p := FindSection(sections[cellet], anchor);
      if p.Some? {
        var d := celletDirectors[cellet][p.value];
        talkDirectors := talkDirectors[talk := d];
        return Some(d);
      }
      assert celletDirectors[cellet][0] < |directors|;
      return Some(0);
    }

    /**
     * After start with positive weights, an anchor drawn from
     * 0..totalWeight-1 always lands in a section, so the choice is memoised.
     */
    lemma StartedTalkMemoised(talk: int, cellet: string, anchor: int)
      requires Valid() && sections == Started(directors, celletDirectors)
      requires talk !in talkDirectors && cellet in celletDirectors
      requires Positive(WeightsOf(directors, celletDirectors[cellet]))
      requires 0 <= anchor < Sum(WeightsOf(directors, celletDirectors[cellet]))
      ensures var (r, memo) := TalkChoice(talk, cellet, anchor);
        r.Some? && memo == talkDirectors[talk := r.value] && r.value in celletDirectors[cellet]
    {
      var ws := WeightsOf(directors, celletDirectors[cellet]);
      LayoutCovers(ws, anchor);
      var k :| 0 <= k < |ws| && Contains(Layout(ws)[k], anchor);
      assert Contains(sections[cellet][k], anchor);
    }

    /**
     * With the sections start lays out as written, three directors of
     * weight 1 leave the anchor 2 in no section: the talk falls back to the
     * first director and nothing is memoised.
     */
    lemma AsWrittenTalkFallsBack(talk: int, cellet: string)
      requires Valid() && talk !in talkDirectors && cellet in celletDirectors
      requires sections[cellet] == LayoutAsWritten([1, 1, 1])
      ensures TalkChoice(talk, cellet, 2) == (Some(0), talkDirectors)
    {
      LayoutAsWrittenMissesAnchor();
    }

    /** The token selection as a specification: the choice, and the new memos of talks and tokens. */
    function TokenChoice(token: string, cellet: string, anchor: int): (r: (Option<nat>, map<int, nat>, map<string, nat>))
      requires Valid()
      reads this
    {
      if token in tokenDirectors then (Some(tokenDirectors[token]), talkDirectors, tokenDirectors)
      else if token in tokenDevices then
        var (d, talks) := TalkChoice(tokenDevices[token], cellet, anchor);
        (d, talks, tokenDirectors)
      else
        var d := Heaviest(directors);
        (d, talkDirectors, if d.Some? then tokenDirectors[token := d.value] else tokenDirectors)
    }

    /**
     * selectDirector(tokenCode, celletName): the memo of the token, else
     * the talk-context selection of its device, else the heaviest director,
     * memoised for the token.
     */
    method SelectForToken(token: string, cellet: string, anchor: int) returns (r: Option<nat>)
      requires Valid()
      modifies this
      ensures Valid()
      ensures (r, talkDirectors, tokenDirectors) == old(TokenChoice(token, cellet, anchor))
      ensures directors == old(directors) && celletDirectors == old(celletDirectors) && sections == old(sections)
      ensures tokenDevices == old(tokenDevices) && online == old(online)
    {
      if token in tokenDirectors {
        return Some(tokenDirectors[token]);
      }
      if token in tokenDevices {
        r := SelectForTalk(tokenDevices[token], cellet, anchor);
        return;
      }
      r := SelectHeaviest(directors);
      if r.Some? {
        tokenDirectors := tokenDirectors[token := r.value];
      }
    }

    /** updateContact: the token's device is recorded and the contact's devices merged in. */
    method UpdateContact(key: string, token: string, talk: int, devices: set<int>)
      requires Valid()
      modifies this
      ensures Valid()
      ensures tokenDevices == old(tokenDevices)[token := talk]
      ensures online == old(online)[key := if key in old(online) then old(online)[key] + devices else devices]
      ensures directors == old(directors) && celletDirectors == old(celletDirectors) && sections == old(sections)
      ensures talkDirectors == old(talkDirectors) && tokenDirectors == old(tokenDirectors)
    {
      tokenDevices := tokenDevices[token := talk];
      if key in online {
        online := online[key := online[key] + devices];
      } else {
        online := online[key := devices];
      }
    }

    /** removeContact: the device is removed, and the contact too once it has none. */
    method RemoveContact(key: string, device: int)
      requires Valid()
      modifies this
      ensures Valid()
      ensures key !in old(online) ==> online == old(online)
      ensures key in old(online) && old(online)[key] - {device} == {} ==> online == old(online) - {key}
      ensures key in old(online) && old(online)[key] - {device} != {} ==> online == old(online)[key := old(online)[key] - {device}]
      ensures forall k :: k in online ==> online[k] != {} || (k in old(online) && online[k] == old(online)[k])
      ensures directors == old(directors) && celletDirectors == old(celletDirectors) && sections == old(sections)
      ensures talkDirectors == old(talkDirectors) && tokenDirectors == old(tokenDirectors) && tokenDevices == old(tokenDevices)
    {
      if key !in online {
        return;
      }
      var current := online[key] - {device};
      if current == {} {
        online := online - {key};
      } else {
        online := online[key := current];
      }
    }
  }

  lemma SomeCellet(keys: set<string>)
    requires keys != {}
    ensures exists k :: k in keys
  {
    if forall k :: k !in keys {
      assert false;
    }
  }
}
