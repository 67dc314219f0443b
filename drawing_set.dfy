/**
 * The set of "other" drawing elements of a painting (sun, clouds,
 * animals, tools, ...): one list per category, created when the first
 * element of that category is added and never removed.
 */
module DrawingSetModel {
  import opened PsychologyTypes
  import opened PaintingTypes

  /** The lists present, by category; a category never added has no entry. */
  type Lists = map<Category, seq<Thing>>

  /** Every present list holds at least one thing. */
  predicate WellFormed(lists: Lists)
  {
    forall c :: c in lists ==> lists[c] != []
  }

  /** The list of a category, empty when absent. */
  function ListOf(lists: Lists, c: Category): seq<Thing>
  {
    if c in lists then lists[c] else []
  }

  /** The lists after adding one thing. */
  function Added(lists: Lists, t: Thing): (r: Lists)
    ensures CategoryOf(t).None? ==> r == lists
    ensures CategoryOf(t).Some? ==> r.Keys == lists.Keys + {CategoryOf(t).value}
    ensures forall c :: ListOf(r, c) == ListOf(lists, c) + (if CategoryOf(t) == Some(c) then [t] else [])
    ensures WellFormed(lists) ==> WellFormed(r)
  {
    match CategoryOf(t)
    case None => lists
    case Some(c) => lists[c := ListOf(lists, c) + [t]]
  }

  /** The lists after adding several things in order. */
  function AddedAll(lists: Lists, ts: seq<Thing>): Lists
  {
    if ts == [] then lists else Added(AddedAll(lists, ts[..|ts| - 1]), ts[|ts| - 1])
  }

  lemma AddedAllSnoc(lists: Lists, ts: seq<Thing>, t: Thing)
    ensures AddedAll(lists, ts + [t]) == Added(AddedAll(lists, ts), t)
  {
    assert (ts + [t])[..|ts|] == ts;
  }

  /** The things of a list that belong to category c, in order. */
  function Matching(ts: seq<Thing>, c: Category): seq<Thing>
  {
    if ts == [] then []
    else Matching(ts[..|ts| - 1], c) + (if CategoryOf(ts[|ts| - 1]) == Some(c) then [ts[|ts| - 1]] else [])
  }

  lemma MatchingSnoc(ts: seq<Thing>, t: Thing, c: Category)
    ensures Matching(ts + [t], c) == Matching(ts, c) + (if CategoryOf(t) == Some(c) then [t] else [])
  {
    assert (ts + [t])[..|ts|] == ts;
  }

  /** A category's list is what it held plus the added things of that category, in order. */
  lemma {:induction false} ListOfAddedAll(lists: Lists, ts: seq<Thing>, c: Category)
    ensures ListOf(AddedAll(lists, ts), c) == ListOf(lists, c) + Matching(ts, c)
    ensures WellFormed(lists) ==> WellFormed(AddedAll(lists, ts))
  {
    if ts != [] {
      var init, t := ts[..|ts| - 1], ts[|ts| - 1];
      ListOfAddedAll(lists, init, c);
      assert ts == init + [t];
      AddedAllSnoc(lists, init, t);
      MatchingSnoc(init, t, c);
    }
  }

  /** The first thing of a label's category, absent for a missing list or a label outside the categories. */
  function First(lists: Lists, lbl: Label): (r: Option<Thing>)
    ensures r.Some? <==> lbl.OtherLabel? && ListOf(lists, lbl.category) != []
    ensures r.Some? ==> r.value == ListOf(lists, lbl.category)[0]
  {
    if lbl.OtherLabel? && lbl.category in lists && lists[lbl.category] != [] then
      Some(lists[lbl.category][0])
    else None
  }

  /** Whether a label's category has a list. */
  predicate Present(lists: Lists, lbl: Label)
  {
    lbl.OtherLabel? && lbl.category in lists
  }

  /** A copy of a label's list (empty when absent), or nothing for a label outside the categories. */
  function CopyOf(lists: Lists, lbl: Label): (r: Option<seq<Thing>>)
    ensures r.None? <==> lbl.MainLabel?
    ensures r.Some? ==> r.value == ListOf(lists, lbl.category)
  {
    if lbl.MainLabel? then None else Some(ListOf(lists, lbl.category))
  }

  /** The first thing ever added to a category stays its first thing. */
  lemma FirstIsFirstAdded(ts: seq<Thing>, c: Category, k: nat)
    requires k < |ts| && CategoryOf(ts[k]) == Some(c)
    requires forall i :: 0 <= i < k ==> CategoryOf(ts[i]) != Some(c)
    ensures First(AddedAll(map[], ts), OtherLabel(c)) == Some(ts[k])
  {
    ListOfAddedAll(map[], ts, c);
    MatchingPrefix(ts, c, k);
  }

  /** Things of category c before index k do not exist, so the k-th thing heads the matches. */
  lemma {:induction false} MatchingPrefix(ts: seq<Thing>, c: Category, k: nat)
    requires k < |ts| && CategoryOf(ts[k]) == Some(c)
    requires forall i :: 0 <= i < k ==> CategoryOf(ts[i]) != Some(c)
    ensures Matching(ts, c) != [] && Matching(ts, c)[0] == ts[k]
  {
    if |ts| - 1 == k {
      var init := ts[..k];
      assert ts == init + [ts[k]];
      MatchingSnoc(init, ts[k], c);
      MatchingNone(init, c);
    } else {
      var init, t := ts[..|ts| - 1], ts[|ts| - 1];
      assert ts == init + [t];
      MatchingSnoc(init, t, c);
      MatchingPrefix(init, c, k);
    }
  }

  lemma {:induction false} MatchingNone(ts: seq<Thing>, c: Category)
    requires forall i :: 0 <= i < |ts| ==> CategoryOf(ts[i]) != Some(c)
    ensures Matching(ts, c) == []
  {
    if ts != [] {
      MatchingNone(ts[..|ts| - 1], c);
    }
  }

  /** A category has a list exactly when one of its things was added. */
  lemma HasIffAdded(ts: seq<Thing>, c: Category)
    ensures Present(AddedAll(map[], ts), OtherLabel(c)) <==> exists i :: 0 <= i < |ts| && CategoryOf(ts[i]) == Some(c)
  {
    ListOfAddedAll(map[], ts, c);
    var lists := AddedAll(map[], ts);
    if exists i :: 0 <= i < |ts| && CategoryOf(ts[i]) == Some(c) {
      var k :| 0 <= k < |ts| && CategoryOf(ts[k]) == Some(c) &&
        forall i :: 0 <= i < k ==> CategoryOf(ts[i]) != Some(c) by {
        FirstIndexExists(ts, c);
      }
      MatchingPrefix(ts, c, k);
    } else {
      MatchingNone(ts, c);
    }
  }

  lemma {:induction false} FirstIndexExists(ts: seq<Thing>, c: Category)
    requires exists i :: 0 <= i < |ts| && CategoryOf(ts[i]) == Some(c)
    ensures exists k :: (0 <= k < |ts| && CategoryOf(ts[k]) == Some(c) &&
      forall i :: 0 <= i < k ==> CategoryOf(ts[i]) != Some(c))
  {
    var j :| 0 <= j < |ts| && CategoryOf(ts[j]) == Some(c);
    var k := 0;
    while k < j && CategoryOf(ts[k]) != Some(c)
      invariant 0 <= k <= j
      invariant forall i :: 0 <= i < k ==> CategoryOf(ts[i]) != Some(c)
    {
      k := k + 1;
    }
  }

  /** The lists of categories 0..n-1 concatenated in category order. */
  function AllUpTo(lists: Lists, n: nat): seq<Thing>
    requires n <= NumCategories
  {
    if n == 0 then [] else AllUpTo(lists, n - 1) + ListOf(lists, (n - 1) as Category)
  }

  /** Every element of every list, in declaration order of the categories. */
  function AllOf(lists: Lists): seq<Thing>
  {
    AllUpTo(lists, NumCategories)
  }

  /** The number of things with a category. */
  function Accepted(ts: seq<Thing>): nat
  {
    if ts == [] then 0 else Accepted(ts[..|ts| - 1]) + (if CategoryOf(ts[|ts| - 1]).Some? then 1 else 0)
  }

  lemma {:induction false} AllUpToAdded(lists: Lists, t: Thing, n: nat)
    requires n <= NumCategories
    ensures |AllUpTo(Added(lists, t), n)| ==
      |AllUpTo(lists, n)| + (if CategoryOf(t).Some? && (CategoryOf(t).value as int) < n then 1 else 0)
  {
    if n > 0 {
      AllUpToAdded(lists, t, n - 1);
    }
  }

  /** Every accepted add lengthens the concatenation of all lists by one. */
  lemma {:induction false} AllOfCountsAccepted(ts: seq<Thing>)
    ensures |AllOf(AddedAll(map[], ts))| == Accepted(ts)
  {
    if ts == [] {
      AllUpToEmpty(NumCategories);
    } else {
      var init, t := ts[..|ts| - 1], ts[|ts| - 1];
      AllOfCountsAccepted(init);
      AllUpToAdded(AddedAll(map[], init), t, NumCategories);
    }
  }

  lemma {:induction false} AllUpToEmpty(n: nat)
    requires n <= NumCategories
    ensures AllUpTo(map[], n) == []
  {
    if n > 0 {
      AllUpToEmpty(n - 1);
    }
  }

  /** The recognised elements of a parsed array, in order. */
  function Recognised(items: seq<Option<Thing>>): seq<Thing>
  {
    if items == [] then []
    else Recognised(items[..|items| - 1]) + (if items[|items| - 1].Some? then [items[|items| - 1].value] else [])
  }

  class DrawingSet {
    var lists: Lists

    constructor()
      ensures lists == map[]
    {
      lists := map[];
    }

    /** Builds the set from an array whose elements were recognised or not, in array order. */
    constructor FromJson(items: seq<Option<Thing>>)
      ensures lists == AddedAll(map[], Recognised(items))
    {
      lists := map[];
      new;
      var i := 0;
      while i < |items|
        invariant 0 <= i <= |items|
        invariant lists == AddedAll(map[], Recognised(items[..i]))
      {
        assert items[..i + 1][..i] == items[..i];
        assert Recognised(items[..i + 1]) ==
          Recognised(items[..i]) + (if items[i].Some? then [items[i].value] else []);
        if items[i].Some? {
          AddedAllSnoc(map[], Recognised(items[..i]), items[i].value);
          Add(items[i].value);
          assert lists == AddedAll(map[], Recognised(items[..i]) + [items[i].value]);
        } else {
          assert Recognised(items[..i + 1]) == Recognised(items[..i]);
        }
        i := i + 1;
      }
      assert items[..|items|] == items;
    }

    /** Appends a thing to its category's list, creating the list on first use. */
    method Add(t: Thing)
      modifies this
      ensures lists == Added(old(lists), t)
    {
      if t.kind.OtherKind? {
        var c := t.kind.category;
        if c !in lists {
          lists := lists[c := []];
        }
        lists := lists[c := lists[c] + [t]];
      }
    }

    function Get(lbl: Label): Option<Thing>
      reads this
    {
      First(lists, lbl)
    }

    predicate Has(lbl: Label)
      reads this
    {
      Present(lists, lbl)
    }

    function GetList(lbl: Label): Option<seq<Thing>>
      reads this
    {
      CopyOf(lists, lbl)
    }

    /** Concatenates the lists, category by category. */
    method GetAll() returns (result: seq<Thing>)
      ensures result == AllOf(lists)
    {
      result := [];
      var n := 0;
      while n < NumCategories
        invariant 0 <= n <= NumCategories
        invariant result == AllUpTo(lists, n)
      {
        var c := n as Category;
        if c in lists {
          result := result + lists[c];
        }
        n := n + 1;
      }
    }
  }
}
