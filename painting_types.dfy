/**
 * Types shared by the painting models: the categories of "other" drawing
 * elements, labels, and recognised things.
 */
module PaintingTypes {
  import opened PsychologyTypes

  /** The number of "other" drawing categories a drawing set keeps. */
  const NumCategories := 64

  /** An "other" drawing category, numbered in declaration order. */
  newtype Category = i: int | 0 <= i < 64

  /** The category names, in declaration order. */
  const CategoryNames: seq<string> := [
    "Table", "Bed", "Sun", "Moon", "Star", "Mountain", "Flower", "Grass", "Sea", "Pool",
    "Sunflower", "Mushroom", "Lotus", "PlumFlower", "Rose", "Cloud", "Rain", "Rainbow", "Torch",
    "Bonfire", "Bird", "Cat", "Dog", "Cow", "Sheep", "Pig", "Fish", "Rabbit", "Horse", "Hawk",
    "Rat", "Butterfly", "Tiger", "Hedgehog", "Snake", "Dragon", "Watch", "Clock",
    "MusicalNotation", "TV", "Pole", "Tower", "Lighthouse", "Gun", "Sword", "Knife", "Shield",
    "Sandglass", "Kite", "Umbrella", "Windmill", "Flag", "Bridge", "Crossroads", "Ladder",
    "Stairs", "Birdcage", "Car", "Boat", "Airplane", "Bike", "Skull", "Glasses", "Swing"
  ]

  /** A label: one of the "other" categories, or any other label (house, tree, person, their parts, unknown). */
  datatype Label = OtherLabel(category: Category) | MainLabel(name: string)

  /** What a recognised thing is. */
  datatype Kind =
    | HouseKind | TreeKind | PersonKind
    | OtherKind(category: Category)
    | HouseComponent | TreeComponent | PersonComponent
    | UnknownKind

  /**
   * A recognised thing: its serial number, kind, area, and for a house,
   * tree or person, the serial numbers of the components attached to it.
   */
  datatype Thing = Thing(sn: nat, kind: Kind, area: int, components: seq<nat>)

  /** The drawing-set category a thing is filed under, if any. */
  function CategoryOf(t: Thing): (r: Option<Category>)
    ensures r.Some? <==> t.kind.OtherKind?
  {
    if t.kind.OtherKind? then Some(t.kind.category) else None
  }

  /** Texture statistics of one painting region. */
  datatype Texture = Texture(avg: real, density: real, max: real, hierarchy: real)

  /**
   * The position an element ends at when a list is sorted by ascending key
   * with a stable sort and its last element is taken: a largest key, the
   * later one on ties.
   */
  method LastOfAscendingSort(keys: seq<int>) returns (i: nat)
    requires keys != []
    ensures i == LastMax(keys)
    ensures i < |keys|
    ensures forall j :: 0 <= j < |keys| ==> keys[j] <= keys[i]
    ensures forall j :: i < j < |keys| ==> keys[j] < keys[i]
  {
    i := 0;
    var k := 1;
    while k < |keys|
      invariant 1 <= k <= |keys| && 0 <= i < k
      invariant forall j :: 0 <= j < k ==> keys[j] <= keys[i]
      invariant forall j :: i < j < k ==> keys[j] < keys[i]
      invariant i == LastMax(keys[..k])
    {
      assert keys[..k + 1][..k] == keys[..k];
      if keys[k] >= keys[i] {
        i := k;
      }
      k := k + 1;
    }
    assert keys[..|keys|] == keys;
  }

  /** The reference of that position: scanning left to right, a key at least as large takes over. */
  function LastMax(keys: seq<int>): (i: nat)
    requires keys != []
    ensures i < |keys|
  {
    if |keys| == 1 then 0
    else
      var i := LastMax(keys[..|keys| - 1]);
      if keys[|keys| - 1] >= keys[i] then |keys| - 1 else i
  }
}
