/** Block materials of the voxel world and their texture-atlas layers. */
module Materials {

  /** The closed set of substances a solid voxel can be made of, in declaration order. */
  datatype BlockMaterial =
    | Grass | Dirt | Stone | Water | Marble | Sand | Snow | Ice | Wood | Leaves
    | Clay | Iron | Gold | Coal | Copper | Tin | Silver | Platinum | Lava | Adamantine

  /** Number of layers in the texture atlas the mesher is handed. */
  const AtlasLayers: nat := 21

  /** The materials as the enum declares them; a material's discriminant is its index here. */
  const DeclarationOrder: seq<BlockMaterial> :=
    [Grass, Dirt, Stone, Water, Marble, Sand, Snow, Ice, Wood, Leaves,
     Clay, Iron, Gold, Coal, Copper, Tin, Silver, Platinum, Lava, Adamantine]

  /** Position of `m` in `s`: the first index holding it. */
  function IndexOf(s: seq<BlockMaterial>, m: BlockMaterial): (r: nat)
    requires m in s
    ensures r < |s| && s[r] == m
    ensures forall j :: 0 <= j < r ==> s[j] != m
  {
    if s[0] == m then 0 else 1 + IndexOf(s[1..], m)
  }

  /** The discriminant of a material (`as u8` on the `repr(u8)` enum). */
  function Ordinal(m: BlockMaterial): (r: nat)
    ensures r < |DeclarationOrder| && DeclarationOrder[r] == m
  {
    assert m in DeclarationOrder by { EveryMaterialDeclared(m); }
    IndexOf(DeclarationOrder, m)
  }

  lemma EveryMaterialDeclared(m: BlockMaterial)
    ensures m in DeclarationOrder
  {
    match m
    case Grass => assert DeclarationOrder[0] == m;
    case Dirt => assert DeclarationOrder[1] == m;
    case Stone => assert DeclarationOrder[2] == m;
    case Water => assert DeclarationOrder[3] == m;
    case Marble => assert DeclarationOrder[4] == m;
    case Sand => assert DeclarationOrder[5] == m;
    case Snow => assert DeclarationOrder[6] == m;
    case Ice => assert DeclarationOrder[7] == m;
    case Wood => assert DeclarationOrder[8] == m;
    case Leaves => assert DeclarationOrder[9] == m;
    case Clay => assert DeclarationOrder[10] == m;
    case Iron => assert DeclarationOrder[11] == m;
    case Gold => assert DeclarationOrder[12] == m;
    case Coal => assert DeclarationOrder[13] == m;
    case Copper => assert DeclarationOrder[14] == m;
    case Tin => assert DeclarationOrder[15] == m;
    case Silver => assert DeclarationOrder[16] == m;
    case Platinum => assert DeclarationOrder[17] == m;
    case Lava => assert DeclarationOrder[18] == m;
    case Adamantine => assert DeclarationOrder[19] == m;
  }

  /** Atlas layers for the top, side and bottom faces of a block of material `mat`. */
  function TextureIndices(mat: BlockMaterial): (r: seq<nat>)
    ensures |r| == 3
    ensures forall i :: 0 <= i < 3 ==> r[i] < AtlasLayers
    ensures mat == Grass <==> r == [0, 1, 2]
    ensures mat != Grass ==> r[0] == r[1] == r[2]
  {
    match mat
    case Grass => [0, 1, 2]
    case Dirt => [2, 2, 2]
    case Stone => [3, 3, 3]
    case Water => [4, 4, 4]
    case Marble => [5, 5, 5]
    case Sand => [6, 6, 6]
    case Snow => [7, 7, 7]
    case Ice => [8, 8, 8]
    case Wood => [9, 9, 9]
    case Leaves => [10, 10, 10]
    case Clay => [11, 11, 11]
    case Iron => [12, 12, 12]
    case Gold => [13, 13, 13]
    case Coal => [14, 14, 14]
    case Copper => [15, 15, 15]
    case Tin => [16, 16, 16]
    case Silver => [17, 17, 17]
    case Platinum => [18, 18, 18]
    case Lava => [19, 19, 19]
    case Adamantine => [20, 20, 20]
  }

  /** Every material but Grass uses the layer one past its discriminant on all three faces. */
  lemma TextureIndexIsOrdinalPlusOne(mat: BlockMaterial)
    requires mat != Grass
    ensures TextureIndices(mat) == [Ordinal(mat) + 1, Ordinal(mat) + 1, Ordinal(mat) + 1]
  {
    var k := Ordinal(mat);
    assert DeclarationOrder[k] == mat;
    LayerAtDeclaredIndex(k);
  }

  /** The atlas table read along the declaration order. */
  lemma LayerAtDeclaredIndex(k: nat)
    requires 0 < k < |DeclarationOrder|
    ensures TextureIndices(DeclarationOrder[k]) == [k + 1, k + 1, k + 1]
  {
    if k < 5 {
      assert k == 1 || k == 2 || k == 3 || k == 4;
    } else if k < 10 {
      assert k == 5 || k == 6 || k == 7 || k == 8 || k == 9;
    } else if k < 15 {
      assert k == 10 || k == 11 || k == 12 || k == 13 || k == 14;
    } else {
      assert k == 15 || k == 16 || k == 17 || k == 18 || k == 19;
    }
  }

  /** The side-face layer tells every two materials apart. */
  lemma SideIndexInjective(m1: BlockMaterial, m2: BlockMaterial)
    ensures TextureIndices(m1)[1] == TextureIndices(m2)[1] <==> m1 == m2
  {
  }
}
