/**
 * A painting as the recogniser delivers it: nullable lists of houses,
 * trees and persons, a drawing set of other elements, the whole-canvas
 * texture and the raw material array. Components (doors, branches, eyes,
 * ...) are attached to the container they collide with most.
 */
module PaintingModel {
  import opened PsychologyTypes
  import opened PaintingTypes
  import DrawingSetModel

  /** The elements of a nullable list; a missing list contributes nothing. */
  function Lst(o: Option<seq<Thing>>): seq<Thing>
  {
    if o.Some? then o.value else []
  }

  /** The texture signature of a blank canvas. */
  predicate BlankTexture(w: Texture)
  {
    w.max == 0.0 && w.avg == 0.0 && w.density < 0.03 && 0.0013 <= w.hierarchy <= 0.0014
  }

  /**
   * r is what the maximum-area scan yields: the first thing of greatest
   * area when that area is positive, and nothing when every area is at
   * most 0.
   */
  ghost predicate IsMaxArea(list: seq<Thing>, r: Option<Thing>)
  {
    (r.None? <==> forall j :: 0 <= j < |list| ==> list[j].area <= 0) &&
    (r.Some? ==> exists i :: (0 <= i < |list| && list[i] == r.value && list[i].area > 0 &&
                 (forall j :: 0 <= j < |list| ==> list[j].area <= list[i].area) &&
                 (forall j :: 0 <= j < i ==> list[j].area < list[i].area)))
  }

  /** The first thing of strictly greatest positive area. */
  method MaxArea(list: seq<Thing>) returns (r: Option<Thing>)
    ensures IsMaxArea(list, r)
  {
    r := None;
    var area := 0;
    ghost var best := -1;
    var k := 0;
    while k < |list|
      invariant 0 <= k <= |list|
      invariant r.None? <==> best == -1
      invariant r.None? ==> area == 0 && forall j :: 0 <= j < k ==> list[j].area <= 0
      invariant r.Some? ==> (0 <= best < k && list[best] == r.value && area == list[best].area && area > 0 &&
        (forall j :: 0 <= j < k ==> list[j].area <= area) &&
        (forall j :: 0 <= j < best ==> list[j].area < area))
    {
      if list[k].area > area {
        area := list[k].area;
        r := Some(list[k]);
        best := k;
      }
      k := k + 1;
    }
  }

  /** A single house of zero area is present but not returned. */
  lemma HouseWithoutArea(h: Thing, r: Option<Thing>)
    requires h.area <= 0 && IsMaxArea([h], r)
    ensures r.None?
  {
  }

  /**
   * Attaches a component to the container the stable ascending sort by
   * collision area puts last and gives that container the area its refresh
   * computes (refreshArea, after the box of a synthesised container has
   * grown); the other containers are unchanged.
   */
  method Attach(list: seq<Thing>, component: Thing, collision: Thing -> int, refresh: Thing -> int)
    returns (r: seq<Thing>, target: nat)
    requires list != []
    ensures r == Attached(list, component, collision, refresh)
    ensures |r| == |list| && target < |list|
    ensures var c := list[target].(components := list[target].components + [component.sn]);
      r[target] == c.(area := refresh(c))
    ensures forall j :: 0 <= j < |list| && j != target ==> r[j] == list[j]
    ensures forall j :: 0 <= j < |list| ==> collision(list[j]) <= collision(list[target])
    ensures forall j :: target < j < |list| ==> collision(list[j]) < collision(list[target])
  {
    var keys := CollisionKeys(list, collision);
    target := LastOfAscendingSort(keys);
    var c := list[target].(components := list[target].components + [component.sn]);
    r := list[target := c.(area := refresh(c))];
  }

  /** The collision areas of the containers, in list order. */
  function CollisionKeys(list: seq<Thing>, collision: Thing -> int): (keys: seq<int>)
    ensures |keys| == |list| && forall j :: 0 <= j < |list| ==> keys[j] == collision(list[j])
  {
    seq(|list|, j requires 0 <= j < |list| => collision(list[j]))
  }

  /**
   * The containers after the component is attached where the stable sort
   * puts it, that container's area refreshed.
   */
  function Attached(list: seq<Thing>, component: Thing, collision: Thing -> int, refresh: Thing -> int): seq<Thing>
    requires list != []
  {
    var t := LastMax(CollisionKeys(list, collision));
    var c := list[t].(components := list[t].components + [component.sn]);
    list[t := c.(area := refresh(c))]
  }

  /** The containers a build attaches to: the list, or one synthesised container when there is none. */
  function BuildBase(list: Option<seq<Thing>>, component: Thing, kind: Kind, area: int): (r: seq<Thing>)
    ensures r != []
  {
    if list.None? || list.value == [] then [Thing(component.sn, kind, area, [])] else list.value
  }

  /** The number of components attached to a list of containers. */
  function ComponentCount(list: seq<Thing>): nat
  {
    if list == [] then 0 else ComponentCount(list[..|list| - 1]) + |list[|list| - 1].components|
  }

  lemma {:induction false} ComponentCountUpdate(list: seq<Thing>, i: nat, t: Thing)
    requires i < |list|
    ensures ComponentCount(list[i := t]) == ComponentCount(list) - |list[i].components| + |t.components|
  {
    if i < |list| - 1 {
      assert list[i := t][..|list| - 1] == list[..|list| - 1][i := t];
      ComponentCountUpdate(list[..|list| - 1], i, t);
    } else {
      assert list[i := t][..|list| - 1] == list[..|list| - 1];
    }
  }

  /** Attaching a component adds exactly one attachment. */
  lemma AttachAddsOne(list: seq<Thing>, r: seq<Thing>, target: nat, sn: nat)
    requires target < |list| && |r| == |list|
    requires r[target].components == list[target].components + [sn]
    requires forall j :: 0 <= j < |list| && j != target ==> r[j] == list[j]
    ensures ComponentCount(r) == ComponentCount(list) + 1
  {
    assert r == list[target := r[target]];
    ComponentCountUpdate(list, target, r[target]);
  }

  class Painting {
    var houseList: Option<seq<Thing>>
    var treeList: Option<seq<Thing>>
    var personList: Option<seq<Thing>>
    const drawingSet: DrawingSetModel.DrawingSet
    var whole: Option<Texture>
    /** The length of the raw material array, absent when there is none. */
    var materials: Option<nat>

    constructor(whole: Option<Texture>, materials: Option<nat>)
      ensures houseList.None? && treeList.None? && personList.None?
      ensures this.whole == whole && this.materials == materials
      ensures fresh(drawingSet) && drawingSet.lists == map[]
    {
      houseList, treeList, personList := None, None, None;
      drawingSet := new DrawingSetModel.DrawingSet();
      this.whole := whole;
      this.materials := materials;
    }

    /** No house, tree or person list exists. */
    predicate IsEmpty()
      reads this
    {
      houseList.None? && treeList.None? && personList.None?
    }

    /**
     * A blank canvas without materials is invalid; otherwise a painting is
     * invalid exactly when it has no house, tree or person list and no
     * whole texture.
     */
    function IsValid(): (r: bool)
      reads this
      ensures whole.Some? && BlankTexture(whole.value) && (materials.None? || materials == Some(0)) ==> !r
      ensures !(whole.Some? && BlankTexture(whole.value) && (materials.None? || materials == Some(0))) ==>
        (r <==> !(IsEmpty() && whole.None?))
    {
      if whole.Some? && BlankTexture(whole.value) && (materials.None? || materials == Some(0)) then false
      else !(houseList.None? && treeList.None? && personList.None? && whole.None?)
    }

    /** A painting with a house, a tree or a person and a texture that is not blank is valid. */
    lemma ValidWithContent()
      requires HasHouse() || HasTree() || HasPerson()
      requires whole.None? || !BlankTexture(whole.value)
      ensures IsValid()
    {
    }

    /** A painting with neither a list of things nor a whole texture is invalid. */
    lemma InvalidWithoutContent()
      requires IsEmpty() && whole.None?
      ensures !IsValid()
    {
    }

    predicate HasHouse() reads this { houseList.Some? && houseList.value != [] }
    predicate HasTree() reads this { treeList.Some? && treeList.value != [] }
    predicate HasPerson() reads this { personList.Some? && personList.value != [] }

    /** The house of largest area, absent when there is none or every area is at most 0. */
    method GetHouse() returns (r: Option<Thing>)
      ensures !HasHouse() ==> r.None?
      ensures HasHouse() ==> IsMaxArea(houseList.value, r)
    {
      if houseList.None? || houseList.value == [] {
        return None;
      }
      r := MaxArea(houseList.value);
    }

    method GetTree() returns (r: Option<Thing>)
      ensures !HasTree() ==> r.None?
      ensures HasTree() ==> IsMaxArea(treeList.value, r)
    {
      if treeList.None? || treeList.value == [] {
        return None;
      }
      r := MaxArea(treeList.value);
    }

    method GetPerson() returns (r: Option<Thing>)
      ensures !HasPerson() ==> r.None?
      ensures HasPerson() ==> IsMaxArea(personList.value, r)
    {
      if personList.None? || personList.value == [] {
        return None;
      }
      r := MaxArea(personList.value);
    }

    /** Houses, trees, persons and then every other element. */
    method GetAllThings() returns (list: seq<Thing>)
      ensures list == Lst(houseList) + Lst(treeList) + Lst(personList) + DrawingSetModel.AllOf(drawingSet.lists)
    {
      list := [];
      if houseList.Some? {
        list := list + houseList.value;
      }
      if treeList.Some? {
        list := list + treeList.value;
      }
      if personList.Some? {
        list := list + personList.value;
      }
      var others := drawingSet.GetAll();
      list := list + others;
    }

    method AddHouse(house: Thing)
      modifies this`houseList
      ensures houseList == Some(Lst(old(houseList)) + [house])
    {
      if houseList.None? {
        houseList := Some([]);
      }
      houseList := Some(houseList.value + [house]);
    }

    method AddTree(tree: Thing)
      modifies this`treeList
      ensures treeList == Some(Lst(old(treeList)) + [tree])
    {
      if treeList.None? {
        treeList := Some([]);
      }
      treeList := Some(treeList.value + [tree]);
    }

    method AddPerson(person: Thing)
      modifies this`personList
      ensures personList == Some(Lst(old(personList)) + [person])
    {
      if personList.None? {
        personList := Some([]);
      }
      personList := Some(personList.value + [person]);
    }

    /**
     * Attaches a house component. Without any house, one house is first
     * synthesised from the component's box, with the given area.
     */
    method BuildHouse(component: Thing, synthesisedArea: int, collision: Thing -> int, refresh: Thing -> int)
      modifies this`houseList
      ensures houseList == Some(Attached(BuildBase(old(houseList), component, HouseKind, synthesisedArea), component, collision, refresh))
      ensures |houseList.value| == if Lst(old(houseList)) == [] then 1 else |Lst(old(houseList))|
      ensures ComponentCount(houseList.value) ==
        1 + (if Lst(old(houseList)) == [] then 0 else ComponentCount(Lst(old(houseList))))
    {
      if houseList.None? || houseList.value == [] {
        houseList := Some([Thing(component.sn, HouseKind, synthesisedArea, [])]);
      }
      var list, target := Attach(houseList.value, component, collision, refresh);
      AttachAddsOne(houseList.value, list, target, component.sn);
      houseList := Some(list);
    }

    method BuildTree(component: Thing, synthesisedArea: int, collision: Thing -> int, refresh: Thing -> int)
      modifies this`treeList
      ensures treeList == Some(Attached(BuildBase(old(treeList), component, TreeKind, synthesisedArea), component, collision, refresh))
      ensures |treeList.value| == if Lst(old(treeList)) == [] then 1 else |Lst(old(treeList))|
      ensures ComponentCount(treeList.value) ==
        1 + (if Lst(old(treeList)) == [] then 0 else ComponentCount(Lst(old(treeList))))
    {
      if treeList.None? || treeList.value == [] {
        treeList := Some([Thing(component.sn, TreeKind, synthesisedArea, [])]);
      }
      var list, target := Attach(treeList.value, component, collision, refresh);
      AttachAddsOne(treeList.value, list, target, component.sn);
      treeList := Some(list);
    }

    method BuildPerson(component: Thing, synthesisedArea: int, collision: Thing -> int, refresh: Thing -> int)
      modifies this`personList
      ensures personList == Some(Attached(BuildBase(old(personList), component, PersonKind, synthesisedArea), component, collision, refresh))
      ensures |personList.value| == if Lst(old(personList)) == [] then 1 else |Lst(old(personList))|
      ensures ComponentCount(personList.value) ==
        1 + (if Lst(old(personList)) == [] then 0 else ComponentCount(Lst(old(personList))))
    {
      if personList.None? || personList.value == [] {
        personList := Some([Thing(component.sn, PersonKind, synthesisedArea, [])]);
      }
      var list, target := Attach(personList.value, component, collision, refresh);
      AttachAddsOne(personList.value, list, target, component.sn);
      personList := Some(list);
    }
  }
}
