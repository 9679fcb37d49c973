/** Materials of the scene: the list of tagged materials filled in when the
    scene is prepared, its lookup, and the fixed preset table the renderer
    actually pushes to the shader for each tag. */
module Materials {
  import opened Geometry
  import TagSearch

  /** The lighting coefficients of one material. */
  datatype Coefficients = Coefficients(
    ambientColor: Vec3,
    ambientStrength: real,
    diffuseColor: Vec3,
    specularColor: Vec3,
    shininess: real)

  datatype Material = Material(tag: string, coefficients: Coefficients)

  /** Outcome of a lookup: the reported flag and the output material. */
  datatype Lookup = Lookup(found: bool, material: Material)

  // Tags shared by textures and materials.
  const DeskTag: string := "deskTexture"
  const LaptopTag: string := "laptopTex"
  const MugTag: string := "mugTex"
  const FloorTag: string := "floorTex"
  const WallTag: string := "wallTex"
  const LampShadeTag: string := "lampShadeTex"
  const LampBaseTag: string := "lampBaseTex"

  // Colour and coefficient constants of the scene.
  const WoodAmbient := Vec3(1.0, 0.9, 0.7)
  const WoodDiffuse := Vec3(1.0, 0.9, 0.6)
  const WoodSpecular := Vec3(0.5, 0.5, 0.5)
  const CeramicAmbient := Vec3(0.9, 0.9, 1.0)
  const CeramicDiffuse := Vec3(0.8, 0.8, 0.9)
  const CeramicSpecular := Vec3(1.0, 1.0, 1.0)
  const MetalAmbient := Vec3(0.3, 0.3, 0.3)
  const MetalDiffuse := Vec3(0.4, 0.4, 0.4)
  const MetalSpecular := Vec3(0.7, 0.7, 0.7)
  const StoneAmbient := Vec3(0.3, 0.3, 0.3)
  const StoneDiffuse := Vec3(0.6, 0.6, 0.6)
  const StoneSpecular := Vec3(0.3, 0.3, 0.3)
  const GoldAmbient := Vec3(1.0, 0.8, 0.4)
  const GoldDiffuse := Vec3(0.9, 0.7, 0.3)
  const GoldSpecular := Vec3(1.0, 0.9, 0.6)
  const DefaultColor := Vec3(1.0, 1.0, 1.0)

  const DramaticAmbientStrength := 0.05
  const MetalAmbientStrength := 0.03
  const StandardAmbientStrength := 0.05
  const WoodShininess := 32.0
  const CeramicShininess := 128.0
  const MetalShininess := 256.0
  const StoneShininess := 64.0

  /** The tags the preset table knows. */
  const PresetTags: set<string> :=
    {DeskTag, MugTag, LaptopTag, FloorTag, WallTag, LampShadeTag, LampBaseTag}

  const DefaultPreset :=
    Coefficients(DefaultColor, StandardAmbientStrength, DefaultColor, DefaultColor, WoodShininess)

  /** The coefficients the renderer pushes for a material tag. The table is
      total: a tag it does not know gets the neutral default. */
  function MaterialPreset(tag: string): (c: Coefficients)
    ensures c.shininess in {WoodShininess, StoneShininess, CeramicShininess, MetalShininess}
    ensures 0.0 < c.ambientStrength <= 0.3
    ensures tag !in PresetTags ==> c == DefaultPreset
  {
    if tag == DeskTag then
      Coefficients(WoodAmbient, DramaticAmbientStrength, WoodDiffuse, WoodSpecular, WoodShininess)
    else if tag == MugTag then
      Coefficients(CeramicAmbient, DramaticAmbientStrength, CeramicDiffuse, CeramicSpecular, CeramicShininess)
    else if tag == LaptopTag then
      Coefficients(MetalAmbient, MetalAmbientStrength, MetalDiffuse, MetalSpecular, MetalShininess)
    else if tag == FloorTag then
      Coefficients(StoneAmbient, MetalAmbientStrength, StoneDiffuse, StoneSpecular, StoneShininess)
    else if tag == WallTag then
      Coefficients(StoneAmbient, MetalAmbientStrength, StoneDiffuse, StoneSpecular, StoneShininess)
    else if tag == LampShadeTag then
      Coefficients(GoldAmbient, 0.3, GoldDiffuse, GoldSpecular, MetalShininess)
    else if tag == LampBaseTag then
      Coefficients(MetalAmbient, MetalAmbientStrength, MetalDiffuse, MetalSpecular, MetalShininess)
    else
      DefaultPreset
  }

  /** Shape of the preset table: floor and wall share their coefficients,
      the lamp base reuses the laptop's metal, the seven known tags get
      seven presets of which exactly five are distinct, and the default is
      white with strength 0.05 and shininess 32. */
  lemma PresetTable()
    ensures MaterialPreset(FloorTag) == MaterialPreset(WallTag)
    ensures MaterialPreset(LampBaseTag) == MaterialPreset(LaptopTag)
    ensures |{MaterialPreset(DeskTag), MaterialPreset(MugTag), MaterialPreset(LaptopTag),
              MaterialPreset(FloorTag), MaterialPreset(LampShadeTag)}| == 5
    ensures forall t :: t in PresetTags ==> MaterialPreset(t) != DefaultPreset
    ensures DefaultPreset.ambientColor == DefaultPreset.diffuseColor == DefaultPreset.specularColor
              == Vec3(1.0, 1.0, 1.0)
    ensures DefaultPreset.ambientStrength == 0.05 && DefaultPreset.shininess == 32.0
  {
    var desk := MaterialPreset(DeskTag);
    var mug := MaterialPreset(MugTag);
    var laptop := MaterialPreset(LaptopTag);
    var floor := MaterialPreset(FloorTag);
    var shade := MaterialPreset(LampShadeTag);
    assert desk.shininess != mug.shininess && desk.shininess != laptop.shininess;
    assert desk.shininess != floor.shininess && mug.shininess != laptop.shininess;
    assert mug.shininess != floor.shininess && laptop.shininess != floor.shininess;
    assert shade.ambientStrength != laptop.ambientStrength;
    assert desk != shade && mug != shade && floor != shade;
    assert {desk, mug, laptop, floor, shade} == {desk} + {mug} + {laptop} + {floor} + {shade};
  }

  /** The materials the scene registers when it is prepared, in order. */
  function SceneMaterials(): (ms: seq<Material>)
    ensures |ms| == 7
  {
    [ Material(DeskTag, Coefficients(WoodAmbient, 0.3, WoodDiffuse, WoodSpecular, WoodShininess)),
      Material(LaptopTag, Coefficients(MetalAmbient, 0.2, MetalDiffuse, MetalSpecular, MetalShininess)),
      Material(MugTag, Coefficients(CeramicAmbient, 0.3, CeramicDiffuse, Vec3(0.8, 0.8, 0.8), CeramicShininess)),
      Material(FloorTag, Coefficients(StoneAmbient, 0.2, StoneDiffuse, StoneSpecular, StoneShininess)),
      Material(WallTag, Coefficients(StoneAmbient, 0.2, StoneDiffuse, StoneSpecular, StoneShininess)),
      Material(LampShadeTag, Coefficients(GoldAmbient, 0.3, GoldDiffuse, GoldSpecular, MetalShininess)),
      Material(LampBaseTag, Coefficients(MetalAmbient, 0.2, MetalDiffuse, MetalSpecular, MetalShininess)) ]
  }

  /** The tags of a material list, in order. */
  function TagsOf(ms: seq<Material>): (tags: seq<string>)
    ensures |tags| == |ms|
    ensures forall i :: 0 <= i < |ms| ==> tags[i] == ms[i].tag
  {
    seq(|ms|, i requires 0 <= i < |ms| => ms[i].tag)
  }

  /** Some entry of the list carries the tag. */
  predicate HasTag(ms: seq<Material>, tag: string)
  {
    exists i :: 0 <= i < |ms| && ms[i].tag == tag
  }

  /** The lookup as the program writes it: an empty list reports false;
      otherwise the first entry with the tag has its five coefficients
      copied into the output (whose own tag is left as it was), and the
      result is true whether or not an entry matched. */
  function FindMaterial(ms: seq<Material>, tag: string, material: Material): (r: Lookup)
    ensures r.found <==> |ms| > 0
    ensures r.material.tag == material.tag
    ensures !HasTag(ms, tag) ==> r.material == material
    ensures forall i :: 0 <= i < |ms| && ms[i].tag == tag && (forall j :: 0 <= j < i ==> ms[j].tag != tag) ==>
              r.material.coefficients == ms[i].coefficients
  {
    if |ms| == 0 then Lookup(false, material)
    else
      var i := TagSearch.FirstIndex(TagsOf(ms), tag);
      Lookup(true, if i == -1 then material else material.(coefficients := ms[i].coefficients))
  }

  /** A tag that is not registered still makes the lookup report success
      on the scene's list, with the output left untouched. */
  lemma FindMaterialMissReportsFound(material: Material)
    ensures !HasTag(SceneMaterials(), "unknownTag")
    ensures FindMaterial(SceneMaterials(), "unknownTag", material) == Lookup(true, material)
  {
    var ms := SceneMaterials();
    assert TagsOf(ms) == [DeskTag, LaptopTag, MugTag, FloorTag, WallTag, LampShadeTag, LampBaseTag];
  }

  /** The lookup with the evidently intended result: found exactly when
      some entry carries the tag; otherwise identical. */
  function FindMaterialChecked(ms: seq<Material>, tag: string, material: Material): (r: Lookup)
    ensures r.found <==> HasTag(ms, tag)
    ensures r.material.tag == material.tag
    ensures !r.found ==> r.material == material
    ensures r.found ==> exists i :: 0 <= i < |ms| && ms[i].tag == tag
                          && (forall j :: 0 <= j < i ==> ms[j].tag != tag)
                          && r.material.coefficients == ms[i].coefficients
  {
    var i := TagSearch.FirstIndex(TagsOf(ms), tag);
    if i == -1 then Lookup(false, material)
    else Lookup(true, material.(coefficients := ms[i].coefficients))
  }

  /** The corrected lookup agrees with the written one on the output
      material and differs on the flag exactly for a missing tag in a
      non-empty list. */
  lemma FindMaterialCheckedAgrees(ms: seq<Material>, tag: string, material: Material)
    ensures FindMaterialChecked(ms, tag, material).material == FindMaterial(ms, tag, material).material
    ensures (FindMaterialChecked(ms, tag, material).found != FindMaterial(ms, tag, material).found)
              <==> (|ms| > 0 && !HasTag(ms, tag))
  {
  }

  /** When a tag is registered twice, lookup returns the first entry. */
  lemma FirstRegisteredWins(ms: seq<Material>, tag: string, a: Coefficients, b: Coefficients, material: Material)
    requires !HasTag(ms, tag)
    ensures FindMaterialChecked(ms + [Material(tag, a), Material(tag, b)], tag, material).material.coefficients == a
  {
    var all := ms + [Material(tag, a), Material(tag, b)];
    assert all[|ms|].tag == tag;
    var i := TagSearch.FirstIndex(TagsOf(all), tag);
    assert forall j :: 0 <= j < |ms| ==> all[j] == ms[j];
    assert i == |ms|;
  }

  /** In a list whose tags are distinct, each entry's tag finds that entry. */
  lemma DistinctTagsFindOwn(ms: seq<Material>, k: int, material: Material)
    requires forall i, j :: 0 <= i < j < |ms| ==> ms[i].tag != ms[j].tag
    requires 0 <= k < |ms|
    ensures FindMaterialChecked(ms, ms[k].tag, material).material.coefficients == ms[k].coefficients
  {
    var i := TagSearch.FirstIndex(TagsOf(ms), ms[k].tag);
    assert TagsOf(ms)[k] == ms[k].tag;
  }

  /** The registered list and the preset table describe the same scene with
      different numbers: they agree on the lamp shade alone. */
  lemma RegistryMatchesPresetOnlyForLampShade(material: Material)
    ensures forall k :: 0 <= k < 7 ==>
              var tag := SceneMaterials()[k].tag;
              (FindMaterialChecked(SceneMaterials(), tag, material).material.coefficients == MaterialPreset(tag))
                <==> (tag == LampShadeTag)
  {
    var ms := SceneMaterials();
    SceneTagsDistinct();
    forall k | 0 <= k < 7
      ensures (FindMaterialChecked(ms, ms[k].tag, material).material.coefficients == MaterialPreset(ms[k].tag))
                <==> (ms[k].tag == LampShadeTag)
    {
      DistinctTagsFindOwn(ms, k, material);
      if k == 5 {
        PresetStrength(LampShadeTag);
      } else {
        assert |ms[k].tag| != 12;
        OnlyShadeMatchesPreset(ms[k]);
      }
    }
  }

  /** A registered material with strength 0.2 or 0.3 can equal its preset
      only if it is the lamp shade. */
  lemma OnlyShadeMatchesPreset(m: Material)
    requires m.coefficients.ambientStrength == 0.2 || m.coefficients.ambientStrength == 0.3
    requires m.tag != LampShadeTag
    ensures m.coefficients != MaterialPreset(m.tag)
  {
    PresetStrength(m.tag);
  }

  /** The scene registers each tag once. */
  lemma SceneTagsDistinct()
    ensures forall i, j :: 0 <= i < j < |SceneMaterials()| ==> SceneMaterials()[i].tag != SceneMaterials()[j].tag
  {
    var ms := SceneMaterials();
    assert |DeskTag| == 11 && |LaptopTag| == 9 && |MugTag| == 6 && |FloorTag| == 8;
    assert |WallTag| == 7 && |LampShadeTag| == 12 && |LampBaseTag| == 11;
    assert DeskTag[0] != LampBaseTag[0];
    forall i, j | 0 <= i < j < 7
      ensures ms[i].tag != ms[j].tag
    {
      assert |ms[i].tag| != |ms[j].tag| || ms[i].tag[0] != ms[j].tag[0];
    }
  }

  /** Only the lamp shade's preset has ambient strength 0.3; every other
      tag gets 0.05 or 0.03. */
  lemma PresetStrength(tag: string)
    ensures MaterialPreset(tag).ambientStrength in {0.05, 0.03, 0.3}
    ensures MaterialPreset(tag).ambientStrength == 0.3 <==> tag == LampShadeTag
    ensures tag == LampShadeTag ==>
              MaterialPreset(tag) == Coefficients(GoldAmbient, 0.3, GoldDiffuse, GoldSpecular, MetalShininess)
  {
    assert |LampShadeTag| == 12;
  }
}
