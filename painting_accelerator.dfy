/**
 * The painting accelerator: flattens a painting into one CSV line of
 * numeric features (texture statistics, then twelve numbers per element,
 * per element part and per "other" label) and writes the matching header
 * line. A CSV line is modelled as the list of its cells; the text is the
 * cells joined with ",". Numbers are turned into text by a formatter that
 * is a parameter.
 */
module PaintingAcceleratorModel {
  import opened PsychologyTypes
  import opened Strings

  /** Multipliers applied to a material's numbers when normalising. */
  const AligningAreaRatio: real := 100.0
  const AligningSize: real := 1.0 / 960.0
  const AligningPixel: real := 1.0 / 10.0
  const AligningDensity: real := 1.0 / 2.0
  const AligningHierarchy: real := 1.0 / 5.0
  const AligningSd: real := 1.0 / 5.0

  /** Texture statistics of the whole canvas or of one quadrant. */
  datatype Stats = Stats(max: real, avg: real, density: real, hierarchy: real, sd: real)

  /**
   * The numbers describing one material (an element, an element part or an
   * "other" element), already scaled to the reference canvas; the label is
   * kept by name.
   */
  datatype MaterialParameter = MaterialParameter(
    name: string,
    centerX: real, centerY: real, locationX: real, locationY: real,
    width: int, height: int, areaRatio: real,
    textureMax: real, textureAvg: real, textureDensity: real,
    textureHierarchy: real, textureSd: real)

  /** The parameter of a label that was not drawn: every number is zero. */
  function Blank(name: string): MaterialParameter
  {
    MaterialParameter(name, 0.0, 0.0, 0.0, 0.0, 0, 0, 0.0, 0.0, 0.0, 0.0, 0.0, 0.0)
  }

  /** The twelve numbers of a material, scaled when normalising. */
  function Parameters(mp: MaterialParameter, normalization: bool): (r: seq<real>)
    ensures |r| == 12
  {
    [ if normalization then mp.centerX * AligningSize else mp.centerX,
      if normalization then mp.centerY * AligningSize else mp.centerY,
      if normalization then mp.locationX * AligningSize else mp.locationX,
      if normalization then mp.locationY * AligningSize else mp.locationY,
      if normalization then mp.width as real * AligningSize else mp.width as real,
      if normalization then mp.height as real * AligningSize else mp.height as real,
      if normalization then mp.areaRatio * AligningAreaRatio else mp.areaRatio,
      if normalization then mp.textureMax * AligningPixel else mp.textureMax,
      if normalization then mp.textureAvg * AligningPixel else mp.textureAvg,
      if normalization then mp.textureDensity * AligningDensity else mp.textureDensity,
      if normalization then mp.textureHierarchy * AligningHierarchy else mp.textureHierarchy,
      if normalization then mp.textureSd * AligningSd else mp.textureSd ]
  }

  /** The multiplier of each of the twelve numbers. */
  const Factors: seq<real> := [
    AligningSize, AligningSize, AligningSize, AligningSize, AligningSize, AligningSize,
    AligningAreaRatio, AligningPixel, AligningPixel, AligningDensity, AligningHierarchy, AligningSd ]

  /** Normalising multiplies each number by its own factor. */
  lemma NormalizedParameters(mp: MaterialParameter)
    ensures forall i :: 0 <= i < 12 ==> Parameters(mp, true)[i] == Parameters(mp, false)[i] * Factors[i]
  {
  }

  /** The cells of a list of numbers. */
  function Cells(fmt: real -> string, xs: seq<real>): (r: seq<string>)
    ensures |r| == |xs|
    ensures forall i :: 0 <= i < |xs| ==> r[i] == fmt(xs[i])
  {
    seq(|xs|, i requires 0 <= i < |xs| => fmt(xs[i]))
  }

  /** The twelve cells a material writes. */
  function FormatCSV(mp: MaterialParameter, normalization: bool, fmt: real -> string): (r: seq<string>)
    ensures |r| == 12
  {
    [ fmt(if normalization then mp.centerX * AligningSize else mp.centerX),
      fmt(if normalization then mp.centerY * AligningSize else mp.centerY),
      fmt(if normalization then mp.locationX * AligningSize else mp.locationX),
      fmt(if normalization then mp.locationY * AligningSize else mp.locationY),
      fmt(if normalization then mp.width as real * AligningSize else mp.width as real),
      fmt(if normalization then mp.height as real * AligningSize else mp.height as real),
      fmt(if normalization then mp.areaRatio * AligningAreaRatio else mp.areaRatio),
      fmt(if normalization then mp.textureMax * AligningPixel else mp.textureMax),
      fmt(if normalization then mp.textureAvg * AligningPixel else mp.textureAvg),
      fmt(if normalization then mp.textureDensity * AligningDensity else mp.textureDensity),
      fmt(if normalization then mp.textureHierarchy * AligningHierarchy else mp.textureHierarchy),
      fmt(if normalization then mp.textureSd * AligningSd else mp.textureSd) ]
  }

  /** The cells written and the numbers returned agree, position by position. */
  lemma FormatMatchesParameters(mp: MaterialParameter, normalization: bool, fmt: real -> string)
    ensures FormatCSV(mp, normalization, fmt) == Cells(fmt, Parameters(mp, normalization))
  {
  }

  /** A blank material writes twelve zeros. */
  lemma BlankWritesZeros(name: string, normalization: bool, fmt: real -> string)
    ensures forall i :: 0 <= i < 12 ==> FormatCSV(Blank(name), normalization, fmt)[i] == fmt(0.0)
  {
  }

  /** An element (house, tree or person) and the first thing of each of its part kinds, when drawn. */
  datatype Element = Element(param: MaterialParameter, parts: seq<Option<MaterialParameter>>)

  /** An "other" label, in label declaration order, and the thing of that label, when drawn. */
  datatype OtherSlot = OtherSlot(name: string, drawn: Option<MaterialParameter>)

  /** The part kinds written after a house, a tree and a person. */
  const HouseSubParts: nat := 11
  const TreeSubParts: nat := 7
  const PersonSubParts: nat := 19

  /** The parameter of an element's j-th part kind, blank when that part is missing. */
  function PartParameter(e: Element, j: nat): MaterialParameter
  {
    if j < |e.parts| && e.parts[j].Some? then e.parts[j].value else Blank("")
  }

  /**
   * The cells of the first k part kinds of an element: a missing element
   * writes k blank blocks, a present one the parameter of each part or a
   * blank block for a missing part. Both branches write twelve cells per
   * part kind.
   */
  function SubPartCells(e: Option<Element>, k: nat, fmt: real -> string): (r: seq<string>)
    ensures |r| == 12 * k
  {
    if k == 0 then [] else SubPartCells(e, k - 1, fmt) + PartBlock(e, k - 1, fmt)
  }

  /** The block of part j: blank for a missing element. */
  function PartBlock(e: Option<Element>, j: nat, fmt: real -> string): seq<string>
  {
    match e
    case None => FormatCSV(Blank(""), false, fmt)
    case Some(el) => FormatCSV(PartParameter(el, j), false, fmt)
  }

  /** A missing element's part blocks are all zeros. */
  lemma {:induction false} AbsentElementWritesZeros(k: nat, fmt: real -> string)
    ensures forall i :: 0 <= i < 12 * k ==> SubPartCells(None, k, fmt)[i] == fmt(0.0)
  {
    if k > 0 {
      AbsentElementWritesZeros(k - 1, fmt);
      BlankWritesZeros("", false, fmt);
    }
  }

  /** Everything the accelerator extracts from a painting. */
  datatype Parameter = Parameter(
    frameAreaRatio: real,
    whole: Stats, quadrant1: Stats, quadrant2: Stats, quadrant3: Stats, quadrant4: Stats,
    house1: MaterialParameter, house2: MaterialParameter,
    tree1: MaterialParameter, tree2: MaterialParameter,
    person1: MaterialParameter, person2: MaterialParameter,
    materials: seq<MaterialParameter>)

  /**
   * What the accelerator reads from a painting: the frame area ratio of its
   * space layout, the textures, the element of largest area and the list of
   * each kind (smallest area first), and every "other" label with its thing.
   */
  datatype PaintingView = PaintingView(
    frameAreaRatio: real, whole: Stats, quadrants: seq<Stats>,
    house: Option<Element>, houses: seq<Element>,
    tree: Option<Element>, trees: seq<Element>,
    person: Option<Element>, persons: seq<Element>,
    others: seq<OtherSlot>)

  /**
   * Four quadrant textures exist and, whenever a list is non-empty, an
   * element of largest area exists (otherwise the accelerator's
   * constructor dereferences the missing element).
   */
  predicate Readable(v: PaintingView)
  {
    |v.quadrants| >= 4 &&
    (v.houses != [] ==> v.house.Some?) &&
    (v.trees != [] ==> v.tree.Some?) &&
    (v.persons != [] ==> v.person.Some?)
  }

  /** The material entries: one per "other" label, the drawn thing or a blank of that label. */
  function BuiltMaterials(others: seq<OtherSlot>): (r: seq<MaterialParameter>)
    ensures |r| == |others|
    ensures forall i :: 0 <= i < |others| && others[i].drawn.Some? ==> r[i] == others[i].drawn.value
    ensures forall i :: 0 <= i < |others| && others[i].drawn.None? ==> r[i] == Blank(others[i].name)
  {
    if others == [] then []
    else
      var last := others[|others| - 1];
      BuiltMaterials(others[..|others| - 1]) + [if last.drawn.Some? then last.drawn.value else Blank(last.name)]
  }

  /** The parameter of the largest element and of the smallest one when there are several. */
  function First(list: seq<Element>, largest: Option<Element>): MaterialParameter
    requires list != [] ==> largest.Some?
  {
    if list != [] then largest.value.param else Blank("")
  }

  function Second(list: seq<Element>): MaterialParameter
  {
    if |list| > 1 then list[0].param else Blank("")
  }

  /** The header cells of one material. */
  function MaterialHead(prefix: string): (r: seq<string>)
    ensures |r| == 12
  {
    [ prefix + "_center_x", prefix + "_center_y", prefix + "_location_x", prefix + "_location_y",
      prefix + "_size_width", prefix + "_size_height", prefix + "_area_ratio",
      prefix + "_t_max", prefix + "_t_avg", prefix + "_t_density", prefix + "_t_hierarchy", prefix + "_t_sd" ]
  }

  const TextureHead: seq<string> := [
    "frame_area_ratio",
    "whole_t_max", "whole_t_avg", "whole_t_density", "whole_t_hierarchy", "whole_t_sd",
    "quadrant1_t_max", "quadrant1_t_avg", "quadrant1_t_density", "quadrant1_t_hierarchy", "quadrant1_t_sd",
    "quadrant2_t_max", "quadrant2_t_avg", "quadrant2_t_density", "quadrant2_t_hierarchy", "quadrant2_t_sd",
    "quadrant3_t_max", "quadrant3_t_avg", "quadrant3_t_density", "quadrant3_t_hierarchy", "quadrant3_t_sd",
    "quadrant4_t_max", "quadrant4_t_avg", "quadrant4_t_density", "quadrant4_t_hierarchy", "quadrant4_t_sd" ]

  /** The suffixes of the element itself ("") and of each part kind, in writing order. */
  const HouseParts: seq<string> := [
    "", "_sidewall", "_roof", "_roof_skylight", "_chimney", "_window", "_door", "_curtain",
    "_window_railing", "_smoke", "_fence", "_path" ]

  const TreeParts: seq<string> := [
    "", "_trunk", "_branch", "_canopy", "_root", "_fruit", "_hole", "_drooping" ]

  const PersonParts: seq<string> := [
    "", "_braid", "_head", "_hair", "_cap", "_eye", "_eyebrow", "_nose", "_ear", "_mouth", "_body",
    "_arm", "_palm", "_leg", "_foot", "_mask", "_hair_accessory", "_skirt", "_item", "_eyeglass" ]

  /** The header cells of an element and its parts. */
  function GroupHead(prefix: string, parts: seq<string>): (r: seq<string>)
    ensures |r| == 12 * |parts|
  {
    if parts == [] then [] else GroupHead(prefix, parts[..|parts| - 1]) + MaterialHead(prefix + parts[|parts| - 1])
  }

  /** Every material's label name drops its two-character prefix in the header. */
  predicate NamedMaterials(ms: seq<MaterialParameter>)
  {
    forall i :: 0 <= i < |ms| ==> |ms[i].name| >= 2
  }

  function MaterialsHead(ms: seq<MaterialParameter>): (r: seq<string>)
    requires NamedMaterials(ms)
    ensures |r| == 12 * |ms|
  {
    if ms == [] then [] else MaterialsHead(ms[..|ms| - 1]) + MaterialHead(ms[|ms| - 1].name[2..])
  }

  /** Each element group of the header: its prefix and its part suffixes. */
  const Groups: seq<(string, seq<string>)> := [
    ("house1", HouseParts), ("house2", HouseParts), ("tree1", TreeParts),
    ("tree2", TreeParts), ("person1", PersonParts), ("person2", PersonParts) ]

  /** The number of materials in a list of groups. */
  function GroupsWidth(gs: seq<(string, seq<string>)>): nat
  {
    if gs == [] then 0 else GroupsWidth(gs[..|gs| - 1]) + |gs[|gs| - 1].1|
  }

  function GroupsHead(gs: seq<(string, seq<string>)>): (r: seq<string>)
    ensures |r| == 12 * GroupsWidth(gs)
  {
    if gs == [] then [] else GroupsHead(gs[..|gs| - 1]) + GroupHead(gs[|gs| - 1].0, gs[|gs| - 1].1)
  }

  lemma GroupsWidthValue()
    ensures GroupsWidth(Groups) == 2 * 12 + 2 * 8 + 2 * 20
  {
    assert GroupsWidth(Groups[..1]) == 12 by { assert Groups[..1][..0] == []; }
    assert GroupsWidth(Groups[..2]) == 24 by { assert Groups[..2][..1] == Groups[..1]; }
    assert GroupsWidth(Groups[..3]) == 32 by { assert Groups[..3][..2] == Groups[..2]; }
    assert GroupsWidth(Groups[..4]) == 40 by { assert Groups[..4][..3] == Groups[..3]; }
    assert GroupsWidth(Groups[..5]) == 60 by { assert Groups[..5][..4] == Groups[..4]; }
    assert Groups[..6] == Groups;
  }

  /** Every header cell except the "other" labels'. */
  function FixedHead(): (r: seq<string>)
    ensures |r| == 26 + 12 * (2 * 12 + 2 * 8 + 2 * 20)
  {
    GroupsWidthValue();
    TextureHead + GroupsHead(Groups)
  }

  /** The whole header. */
  function HeadCells(ms: seq<MaterialParameter>): (r: seq<string>)
    requires NamedMaterials(ms)
    ensures |r| == 26 + 12 * (2 * 12 + 2 * 8 + 2 * 20) + 12 * |ms|
  {
    FixedHead() + MaterialsHead(ms)
  }

  /** The 26 leading numbers of a row. */
  function TextureRow(p: Parameter): (r: seq<real>)
    ensures |r| == 26 && r[0] == p.frameAreaRatio
  {
    [p.frameAreaRatio,
     p.whole.max, p.whole.avg, p.whole.density, p.whole.hierarchy, p.whole.sd,
     p.quadrant1.max, p.quadrant1.avg, p.quadrant1.density, p.quadrant1.hierarchy, p.quadrant1.sd,
     p.quadrant2.max, p.quadrant2.avg, p.quadrant2.density, p.quadrant2.hierarchy, p.quadrant2.sd,
     p.quadrant3.max, p.quadrant3.avg, p.quadrant3.density, p.quadrant3.hierarchy, p.quadrant3.sd,
     p.quadrant4.max, p.quadrant4.avg, p.quadrant4.density, p.quadrant4.hierarchy, p.quadrant4.sd]
  }

  function MaterialsRow(ms: seq<MaterialParameter>, fmt: real -> string): (r: seq<string>)
    ensures |r| == 12 * |ms|
  {
    if ms == [] then [] else MaterialsRow(ms[..|ms| - 1], fmt) + FormatCSV(ms[|ms| - 1], false, fmt)
  }

  /** The cells of an element followed by those of its parts. */
  function ElementCells(mp: MaterialParameter, e: Option<Element>, k: nat, fmt: real -> string): (r: seq<string>)
    ensures |r| == 12 * (k + 1)
  {
    FormatCSV(mp, false, fmt) + SubPartCells(e, k, fmt)
  }

  /** The cells of the six element groups. */
  function ElementsRow(p: Parameter, house1: Option<Element>, house2: Option<Element>,
                       tree1: Option<Element>, tree2: Option<Element>,
                       person1: Option<Element>, person2: Option<Element>, fmt: real -> string): (r: seq<string>)
    ensures |r| == 12 * (2 * 12 + 2 * 8 + 2 * 20)
  {
    ElementCells(p.house1, house1, HouseSubParts, fmt) + ElementCells(p.house2, house2, HouseSubParts, fmt) +
    ElementCells(p.tree1, tree1, TreeSubParts, fmt) + ElementCells(p.tree2, tree2, TreeSubParts, fmt) +
    ElementCells(p.person1, person1, PersonSubParts, fmt) + ElementCells(p.person2, person2, PersonSubParts, fmt)
  }

  /** The cells of a row without normalisation. */
  function RowCells(p: Parameter, house1: Option<Element>, house2: Option<Element>,
                    tree1: Option<Element>, tree2: Option<Element>,
                    person1: Option<Element>, person2: Option<Element>, fmt: real -> string): (r: seq<string>)
    ensures |r| == 26 + 12 * (2 * 12 + 2 * 8 + 2 * 20) + 12 * |p.materials|
  {
    Cells(fmt, TextureRow(p)) + ElementsRow(p, house1, house2, tree1, tree2, person1, person2, fmt) +
    MaterialsRow(p.materials, fmt)
  }

  /** A formatter whose text never holds a comma, as for decimal numbers. */
  ghost predicate CommaFree(fmt: real -> string)
  {
    forall x: real :: ',' !in fmt(x)
  }

  predicate CommaFreeNames(ms: seq<MaterialParameter>)
  {
    forall i :: 0 <= i < |ms| ==> ',' !in ms[i].name
  }

  /** No cell holds a comma. */
  predicate NoComma(cells: seq<string>)
  {
    forall i :: 0 <= i < |cells| ==> ',' !in cells[i]
  }

  lemma NoCommaAppend(a: seq<string>, b: seq<string>)
    requires NoComma(a) && NoComma(b)
    ensures NoComma(a + b)
  {
    forall i | 0 <= i < |a + b| ensures ',' !in (a + b)[i] {
      if i < |a| {
        assert (a + b)[i] == a[i];
      } else {
        assert (a + b)[i] == b[i - |a|];
      }
    }
  }

  lemma MaterialHeadCommaFree(prefix: string)
    requires ',' !in prefix
    ensures NoComma(MaterialHead(prefix))
  {
  }

  lemma {:induction false} GroupHeadCommaFree(prefix: string, parts: seq<string>)
    requires ',' !in prefix
    requires forall j :: 0 <= j < |parts| ==> ',' !in parts[j]
    ensures NoComma(GroupHead(prefix, parts))
  {
    if parts != [] {
      GroupHeadCommaFree(prefix, parts[..|parts| - 1]);
      var h := MaterialHead(prefix + parts[|parts| - 1]);
      MaterialHeadCommaFree(prefix + parts[|parts| - 1]);
      NoCommaAppend(GroupHead(prefix, parts[..|parts| - 1]), h);
    }
  }

  lemma {:induction false} MaterialsHeadCommaFree(ms: seq<MaterialParameter>)
    requires NamedMaterials(ms) && CommaFreeNames(ms)
    ensures NoComma(MaterialsHead(ms))
  {
    if ms != [] {
      MaterialsHeadCommaFree(ms[..|ms| - 1]);
      var n := ms[|ms| - 1].name;
      assert ',' !in n[2..] by {
        assert forall k :: 0 <= k < |n[2..]| ==> n[2..][k] == n[k + 2];
      }
      var h := MaterialHead(n[2..]);
      MaterialHeadCommaFree(n[2..]);
      NoCommaAppend(MaterialsHead(ms[..|ms| - 1]), h);
    }
  }

  lemma {:induction false} GroupsHeadCommaFree(gs: seq<(string, seq<string>)>)
    requires forall g :: 0 <= g < |gs| ==> ',' !in gs[g].0 && forall j :: 0 <= j < |gs[g].1| ==> ',' !in gs[g].1[j]
    ensures NoComma(GroupsHead(gs))
  {
    if gs != [] {
      GroupsHeadCommaFree(gs[..|gs| - 1]);
      GroupHeadCommaFree(gs[|gs| - 1].0, gs[|gs| - 1].1);
      NoCommaAppend(GroupsHead(gs[..|gs| - 1]), GroupHead(gs[|gs| - 1].0, gs[|gs| - 1].1));
    }
  }

  lemma TextureHeadCommaFree()
    ensures NoComma(TextureHead)
  {
  }

  lemma PartsCommaFree()
    ensures forall j :: 0 <= j < |HouseParts| ==> ',' !in HouseParts[j]
    ensures forall j :: 0 <= j < |TreeParts| ==> ',' !in TreeParts[j]
    ensures forall j :: 0 <= j < |PersonParts| ==> ',' !in PersonParts[j]
  {
  }

  lemma FixedHeadCommaFree()
    ensures NoComma(FixedHead())
  {
    TextureHeadCommaFree();
    PartsCommaFree();
    GroupsHeadCommaFree(Groups);
    NoCommaAppend(TextureHead, GroupsHead(Groups));
  }

  lemma HeadCommaFree(ms: seq<MaterialParameter>)
    requires NamedMaterials(ms) && CommaFreeNames(ms)
    ensures NoComma(HeadCells(ms))
  {
    FixedHeadCommaFree();
    MaterialsHeadCommaFree(ms);
    NoCommaAppend(FixedHead(), MaterialsHead(ms));
  }

  lemma CellsCommaFree(fmt: real -> string, xs: seq<real>)
    requires CommaFree(fmt)
    ensures NoComma(Cells(fmt, xs))
  {
    forall i | 0 <= i < |xs| ensures ',' !in Cells(fmt, xs)[i] {
      var x := xs[i];
      assert Cells(fmt, xs)[i] == fmt(x);
      assert ',' !in fmt(x);
    }
  }

  lemma MaterialCommaFree(mp: MaterialParameter, fmt: real -> string)
    requires CommaFree(fmt)
    ensures NoComma(FormatCSV(mp, false, fmt))
  {
    FormatMatchesParameters(mp, false, fmt);
  }

  lemma {:induction false} SubPartsCommaFree(e: Option<Element>, k: nat, fmt: real -> string)
    requires CommaFree(fmt)
    ensures NoComma(SubPartCells(e, k, fmt))
  {
    if k > 0 {
      SubPartsCommaFree(e, k - 1, fmt);
      match e {
        case None =>
          MaterialCommaFree(Blank(""), fmt);
          NoCommaAppend(SubPartCells(e, k - 1, fmt), FormatCSV(Blank(""), false, fmt));
        case Some(el) =>
          MaterialCommaFree(PartParameter(el, k - 1), fmt);
          NoCommaAppend(SubPartCells(e, k - 1, fmt), FormatCSV(PartParameter(el, k - 1), false, fmt));
      }
    }
  }

  lemma ElementCommaFree(mp: MaterialParameter, e: Option<Element>, k: nat, fmt: real -> string)
    requires CommaFree(fmt)
    ensures NoComma(ElementCells(mp, e, k, fmt))
  {
    MaterialCommaFree(mp, fmt);
    SubPartsCommaFree(e, k, fmt);
    NoCommaAppend(FormatCSV(mp, false, fmt), SubPartCells(e, k, fmt));
  }

  lemma {:induction false} MaterialsRowCommaFree(ms: seq<MaterialParameter>, fmt: real -> string)
    requires CommaFree(fmt)
    ensures NoComma(MaterialsRow(ms, fmt))
  {
    if ms != [] {
      MaterialsRowCommaFree(ms[..|ms| - 1], fmt);
      MaterialCommaFree(ms[|ms| - 1], fmt);
      NoCommaAppend(MaterialsRow(ms[..|ms| - 1], fmt), FormatCSV(ms[|ms| - 1], false, fmt));
    }
  }

  lemma ElementsRowCommaFree(p: Parameter, house1: Option<Element>, house2: Option<Element>,
                             tree1: Option<Element>, tree2: Option<Element>,
                             person1: Option<Element>, person2: Option<Element>, fmt: real -> string)
    requires CommaFree(fmt)
    ensures NoComma(ElementsRow(p, house1, house2, tree1, tree2, person1, person2, fmt))
  {
    var e1 := ElementCells(p.house1, house1, HouseSubParts, fmt);
    var e2 := ElementCells(p.house2, house2, HouseSubParts, fmt);
    var e3 := ElementCells(p.tree1, tree1, TreeSubParts, fmt);
    var e4 := ElementCells(p.tree2, tree2, TreeSubParts, fmt);
    var e5 := ElementCells(p.person1, person1, PersonSubParts, fmt);
    var e6 := ElementCells(p.person2, person2, PersonSubParts, fmt);
    ElementCommaFree(p.house1, house1, HouseSubParts, fmt);
    ElementCommaFree(p.house2, house2, HouseSubParts, fmt);
    ElementCommaFree(p.tree1, tree1, TreeSubParts, fmt);
    ElementCommaFree(p.tree2, tree2, TreeSubParts, fmt);
    ElementCommaFree(p.person1, person1, PersonSubParts, fmt);
    ElementCommaFree(p.person2, person2, PersonSubParts, fmt);
    NoCommaAppend(e1, e2);
    NoCommaAppend(e1 + e2, e3);
    NoCommaAppend(e1 + e2 + e3, e4);
    NoCommaAppend(e1 + e2 + e3 + e4, e5);
    NoCommaAppend(e1 + e2 + e3 + e4 + e5, e6);
  }

  lemma RowCommaFree(p: Parameter, house1: Option<Element>, house2: Option<Element>,
                     tree1: Option<Element>, tree2: Option<Element>,
                     person1: Option<Element>, person2: Option<Element>, fmt: real -> string)
    requires CommaFree(fmt)
    ensures NoComma(RowCells(p, house1, house2, tree1, tree2, person1, person2, fmt))
  {
    var t := Cells(fmt, TextureRow(p));
    var es := ElementsRow(p, house1, house2, tree1, tree2, person1, person2, fmt);
    CellsCommaFree(fmt, TextureRow(p));
    ElementsRowCommaFree(p, house1, house2, tree1, tree2, person1, person2, fmt);
    MaterialsRowCommaFree(p.materials, fmt);
    NoCommaAppend(t, es);
    NoCommaAppend(t + es, MaterialsRow(p.materials, fmt));
  }

  /**
   * Splitting the header and a row at commas gives the same number of
   * fields: 986 plus twelve per "other" label.
   */
  lemma FieldCountsAgree(p: Parameter, house1: Option<Element>, house2: Option<Element>,
                         tree1: Option<Element>, tree2: Option<Element>,
                         person1: Option<Element>, person2: Option<Element>, fmt: real -> string)
    requires NamedMaterials(p.materials) && CommaFreeNames(p.materials) && CommaFree(fmt)
    ensures multiset(Join(HeadCells(p.materials), ","))[','] == 985 + 12 * |p.materials|
    ensures multiset(Join(RowCells(p, house1, house2, tree1, tree2, person1, person2, fmt), ","))[','] ==
      985 + 12 * |p.materials|
  {
    HeadCommaFree(p.materials);
    JoinSeparatorCount(HeadCells(p.materials), ',');
    RowCommaFree(p, house1, house2, tree1, tree2, person1, person2, fmt);
    JoinSeparatorCount(RowCells(p, house1, house2, tree1, tree2, person1, person2, fmt), ',');
  }

  /** The header depends on the "other" labels alone, not on what was drawn. */
  lemma {:induction false} MaterialsHeadByName(ms1: seq<MaterialParameter>, ms2: seq<MaterialParameter>)
    requires NamedMaterials(ms1) && NamedMaterials(ms2) && |ms1| == |ms2|
    requires forall i :: 0 <= i < |ms1| ==> ms1[i].name == ms2[i].name
    ensures MaterialsHead(ms1) == MaterialsHead(ms2)
  {
    if ms1 != [] {
      MaterialsHeadByName(ms1[..|ms1| - 1], ms2[..|ms2| - 1]);
    }
  }

  /** A drawn thing carries the label it was looked up by. */
  predicate LabelledAsLookedUp(others: seq<OtherSlot>)
  {
    forall i :: 0 <= i < |others| && others[i].drawn.Some? ==> others[i].drawn.value.name == others[i].name
  }

  /**
   * Two paintings with the same "other" labels get the same header,
   * whatever each of them drew.
   */
  lemma HeaderIndependentOfDrawing(o1: seq<OtherSlot>, o2: seq<OtherSlot>)
    requires |o1| == |o2| && forall i :: 0 <= i < |o1| ==> o1[i].name == o2[i].name && |o1[i].name| >= 2
    requires LabelledAsLookedUp(o1) && LabelledAsLookedUp(o2)
    ensures NamedMaterials(BuiltMaterials(o1)) && NamedMaterials(BuiltMaterials(o2))
    ensures HeadCells(BuiltMaterials(o1)) == HeadCells(BuiltMaterials(o2))
  {
    MaterialsHeadByName(BuiltMaterials(o1), BuiltMaterials(o2));
  }

  class PaintingAccelerator {
    var parameter: Parameter
    /** The containers whose parts fill the part blocks; only the house ones are ever set. */
    var house1: Option<Element>
    var house2: Option<Element>
    var tree1: Option<Element>
    var tree2: Option<Element>
    var person1: Option<Element>
    var person2: Option<Element>

    /** Builds the parameter set of a painting. */
    constructor(v: PaintingView)
      requires Readable(v)
      ensures parameter.frameAreaRatio == v.frameAreaRatio && parameter.whole == v.whole
      ensures parameter.quadrant1 == v.quadrants[0] && parameter.quadrant2 == v.quadrants[1]
      ensures parameter.quadrant3 == v.quadrants[2] && parameter.quadrant4 == v.quadrants[3]
      ensures parameter.house1 == First(v.houses, v.house) && parameter.house2 == Second(v.houses)
      ensures parameter.tree1 == First(v.trees, v.tree) && parameter.tree2 == Second(v.trees)
      ensures parameter.person1 == First(v.persons, v.person) && parameter.person2 == Second(v.persons)
      ensures parameter.materials == BuiltMaterials(v.others)
      ensures house1 == (if v.houses != [] then v.house else None)
      ensures house2 == (if |v.houses| > 1 then Some(v.houses[0]) else None)
      ensures tree1.None? && tree2.None? && person1.None? && person2.None?
    {
      var h1, h2 := Blank(""), Blank("");
      house1, house2 := None, None;
      if v.houses != [] {
        house1 := v.house;
        h1 := v.house.value.param;
        if |v.houses| > 1 {
          house2 := Some(v.houses[0]);
          h2 := v.houses[0].param;
        }
      }
      var t1, t2 := Blank(""), Blank("");
      if v.trees != [] {
        t1 := v.tree.value.param;
        if |v.trees| > 1 {
          t2 := v.trees[0].param;
        }
      }
      var p1, p2 := Blank(""), Blank("");
      if v.persons != [] {
        p1 := v.person.value.param;
        if |v.persons| > 1 {
          p2 := v.persons[0].param;
        }
      }
      tree1, tree2, person1, person2 := None, None, None, None;
      var materials := BuildMaterials(v.others);
      parameter := Parameter(v.frameAreaRatio, v.whole,
        v.quadrants[0], v.quadrants[1], v.quadrants[2], v.quadrants[3],
        h1, h2, t1, t2, p1, p2, materials);
    }

    /** The material list: each other slot's drawn material, or a blank one under its name. */
    static method BuildMaterials(others: seq<OtherSlot>) returns (materials: seq<MaterialParameter>)
      ensures materials == BuiltMaterials(others)
    {
      materials := [];
      var i := 0;
      while i < |others|
        invariant 0 <= i <= |others|
        invariant materials == BuiltMaterials(others[..i])
      {
        assert others[..i + 1][..i] == others[..i];
        var slot := others[i];
        if slot.drawn.Some? {
          materials := materials + [slot.drawn.value];
        } else {
          materials := materials + [Blank(slot.name)];
        }
        i := i + 1;
      }
      assert others[..|others|] == others;
    }

    /** The painting is usable exactly when its frame area ratio is non-zero. */
    function IsValid(): (r: bool)
      reads this
      ensures r <==> parameter.frameAreaRatio != 0.0
    {
      parameter.frameAreaRatio != 0.0
    }

    /** The usable paintings are exactly those whose row opens with a non-zero cell. */
    lemma ValidIffRowLeads()
      ensures IsValid() <==> TextureRow(parameter)[0] != 0.0
    {
    }

    /** The header line. */
    method FormatCSVHead() returns (s: string)
      requires NamedMaterials(parameter.materials)
      ensures s == Join(HeadCells(parameter.materials), ",")
    {
      var cells := FixedHead();
      var k := 0;
      while k < |parameter.materials|
        invariant 0 <= k <= |parameter.materials|
        invariant cells == FixedHead() + MaterialsHead(parameter.materials[..k])
      {
        assert parameter.materials[..k + 1][..k] == parameter.materials[..k];
        cells := cells + MaterialHead(parameter.materials[k].name[2..]);
        k := k + 1;
      }
      assert parameter.materials[..|parameter.materials|] == parameter.materials;
      s := Join(cells, ",");
    }

    /** The row line without normalisation. */
    method FormatParameterAsCSV(fmt: real -> string) returns (s: string)
      ensures s == Join(RowCells(parameter, house1, house2, tree1, tree2, person1, person2, fmt), ",")
    {
      var p := parameter;
      var t := Cells(fmt, TextureRow(p));
      var e1 := FormatElementCells(p.house1, house1, HouseSubParts, fmt);
      var e2 := FormatElementCells(p.house2, house2, HouseSubParts, fmt);
      var e3 := FormatElementCells(p.tree1, tree1, TreeSubParts, fmt);
      var e4 := FormatElementCells(p.tree2, tree2, TreeSubParts, fmt);
      var e5 := FormatElementCells(p.person1, person1, PersonSubParts, fmt);
      var e6 := FormatElementCells(p.person2, person2, PersonSubParts, fmt);
      var fixed := t + (e1 + e2 + e3 + e4 + e5 + e6);
      var ms := FormatMaterialsRow(p.materials, fmt);
      s := Join(fixed + ms, ",");
    }
  }

  /** The blocks of the "other" materials, in order. */
  method FormatMaterialsRow(ms: seq<MaterialParameter>, fmt: real -> string) returns (cells: seq<string>)
    ensures cells == MaterialsRow(ms, fmt)
  {
    cells := [];
    var k := 0;
    while k < |ms|
      invariant 0 <= k <= |ms|
      invariant cells == MaterialsRow(ms[..k], fmt)
    {
      assert ms[..k + 1][..k] == ms[..k];
      cells := cells + FormatCSV(ms[k], false, fmt);
      k := k + 1;
    }
    assert ms[..|ms|] == ms;
  }

  /** An element's own block followed by its part blocks. */
  method FormatElementCells(mp: MaterialParameter, e: Option<Element>, k: nat, fmt: real -> string)
    returns (cells: seq<string>)
    ensures cells == ElementCells(mp, e, k, fmt)
  {
    var parts := FormatPartCells(e, k, fmt);
    cells := FormatCSV(mp, false, fmt) + parts;
  }

  /** The part blocks of an element, a blank block for each missing part or for a missing element. */
  method FormatPartCells(e: Option<Element>, k: nat, fmt: real -> string) returns (cells: seq<string>)
    ensures cells == SubPartCells(e, k, fmt)
  {
    cells := [];
    var j := 0;
    while j < k
      invariant 0 <= j <= k
      invariant cells == SubPartCells(e, j, fmt)
    {
      var block := FormatPart(e, j, fmt);
      SubPartCellsNext(e, j, fmt);
      cells := cells + block;
      j := j + 1;
    }
  }

  lemma SubPartCellsNext(e: Option<Element>, j: nat, fmt: real -> string)
    ensures SubPartCells(e, j + 1, fmt) == SubPartCells(e, j, fmt) + PartBlock(e, j, fmt)
  {
  }

  /** The loop body: the block of a present part, or a blank block. */
  method FormatPart(e: Option<Element>, j: nat, fmt: real -> string) returns (block: seq<string>)
    ensures block == PartBlock(e, j, fmt)
  {
    if e.None? {
      block := FormatCSV(Blank(""), false, fmt);
    } else if j < |e.value.parts| && e.value.parts[j].Some? {
      block := FormatCSV(e.value.parts[j].value, false, fmt);
    } else {
      block := FormatCSV(Blank(""), false, fmt);
    }
  }
}
