/** The texture slot table of the scene manager: a fixed array of sixteen
    (tag, texture id) slots and a count of the slots that are loaded.

    Loads append at index `loaded`; lookups scan the loaded prefix and the
    first slot whose tag matches wins; teardown resets the loaded prefix.
    GPU uploads, mipmaps and bindings are not modelled, only the table they
    keep. The image decoder is a parameter: it either fails or yields an
    image with some channel count. */
module Textures {
  import TagSearch

  /** Number of slots in the table. */
  const Capacity := 16

  /** Tag and id of a slot that holds no texture. */
  const EmptyTag: string := "/0"
  const NoTexture := -1

  datatype TextureSlot = TextureSlot(tag: string, id: int)

  const EmptySlot := TextureSlot(EmptyTag, NoTexture)

  datatype Registry = Registry(slots: seq<TextureSlot>, loaded: int)

  /** What the image decoder returned for one file. */
  datatype Decode = DecodeFailed | Decoded(channels: int)

  /** Result of one load: whether it succeeded, and the table after it. */
  datatype LoadResult = LoadResult(ok: bool, registry: Registry)

  /** One call of the loader: the decoder's outcome for the file, the id
      the GPU hands out for a new texture, and the tag to store. */
  datatype LoadRequest = LoadRequest(image: Decode, glId: int, tag: string)

  /** The table has sixteen slots, the count lies in range and every slot
      at or beyond the count is still empty (loads only write at the count
      and teardown resets exactly the loaded prefix). */
  predicate Valid(r: Registry)
  {
    && |r.slots| == Capacity
    && 0 <= r.loaded <= Capacity
    && forall i :: r.loaded <= i < Capacity ==> r.slots[i] == EmptySlot
  }

  /** Only RGB and RGBA images are uploaded. */
  predicate Supported(image: Decode)
  {
    image.Decoded? && (image.channels == 3 || image.channels == 4)
  }

  /** The table as the constructor leaves it: every slot empty, count 0. */
  function NewRegistry(): (r: Registry)
    ensures Valid(r) && r.loaded == 0
    ensures forall i :: 0 <= i < |r.slots| ==> r.slots[i] == EmptySlot
  {
    Registry(seq(Capacity, _ => EmptySlot), 0)
  }

  /** The tags of the loaded slots, in slot order. */
  function LoadedTags(r: Registry): (tags: seq<string>)
    requires Valid(r)
    ensures |tags| == r.loaded
    ensures forall i :: 0 <= i < r.loaded ==> tags[i] == r.slots[i].tag
  {
    seq(r.loaded, i requires 0 <= i < r.loaded => r.slots[i].tag)
  }

  /** `s` is the smallest loaded slot whose tag is `tag`, or -1 when no
      loaded slot carries that tag. */
  predicate IsFirstSlot(r: Registry, tag: string, s: int)
    requires Valid(r)
  {
    if s == -1 then forall j :: 0 <= j < r.loaded ==> r.slots[j].tag != tag
    else 0 <= s < r.loaded && r.slots[s].tag == tag
         && forall j :: 0 <= j < s ==> r.slots[j].tag != tag
  }

  /** The slot a tag resolves to, or -1. */
  function SlotOf(r: Registry, tag: string): (s: int)
    requires Valid(r)
    ensures IsFirstSlot(r, tag, s)
    ensures -1 <= s < r.loaded
  {
    var tags := LoadedTags(r);
    var i := TagSearch.FirstIndex(tags, tag);
    assert i == -1 ==> forall j :: 0 <= j < r.loaded ==> tags[j] != tag;
    i
  }

  /** The texture id a tag resolves to, or -1. */
  function IdOf(r: Registry, tag: string): int
    requires Valid(r)
  {
    var s := SlotOf(r, tag);
    if s == -1 then NoTexture else r.slots[s].id
  }

  /** At most one slot index can be the first match of a tag. */
  lemma FirstSlotUnique(r: Registry, tag: string, s: int, t: int)
    requires Valid(r) && IsFirstSlot(r, tag, s) && IsFirstSlot(r, tag, t)
    ensures s == t
  {
  }

  /** Loads one image. An unsupported or undecodable image leaves the table
      alone and reports failure; otherwise the new (tag, id) pair lands at
      index `loaded` and the count goes up by one. The table's capacity is
      never checked, so a successful load needs a free slot. */
  function CreateGLTexture(r: Registry, image: Decode, glId: int, tag: string): (res: LoadResult)
    requires Valid(r)
    requires Supported(image) ==> r.loaded < Capacity
    ensures Valid(res.registry)
    ensures res.ok <==> image.Decoded? && (image.channels == 3 || image.channels == 4)
    ensures !res.ok ==> res.registry == r
    ensures res.ok ==> (&& res.registry.loaded == r.loaded + 1
                        && res.registry.slots[r.loaded] == TextureSlot(tag, glId)
                        && forall i :: 0 <= i < Capacity && i != r.loaded ==>
                             res.registry.slots[i] == r.slots[i])
  {
    if image.DecodeFailed? then LoadResult(false, r)
    else if image.channels != 3 && image.channels != 4 then LoadResult(false, r)
    else LoadResult(true, Registry(r.slots[r.loaded := TextureSlot(tag, glId)], r.loaded + 1))
  }

  /** After a successful load, lookups by the new tag find the new slot
      unless an earlier slot already carries that tag (first match wins),
      and lookups by every other tag are unaffected. */
  lemma LoadThenFind(r: Registry, image: Decode, glId: int, tag: string, other: string)
    requires Valid(r) && Supported(image) && r.loaded < Capacity
    ensures var r' := CreateGLTexture(r, image, glId, tag).registry;
            && (SlotOf(r, tag) == -1 ==> SlotOf(r', tag) == r.loaded && IdOf(r', tag) == glId)
            && (SlotOf(r, tag) != -1 ==> SlotOf(r', tag) == SlotOf(r, tag))
            && (other != tag ==> SlotOf(r', other) == SlotOf(r, other))
  {
    var r' := CreateGLTexture(r, image, glId, tag).registry;
    if SlotOf(r, tag) == -1 {
      assert IsFirstSlot(r', tag, r.loaded);
      FirstSlotUnique(r', tag, SlotOf(r', tag), r.loaded);
    } else {
      assert IsFirstSlot(r', tag, SlotOf(r, tag));
      FirstSlotUnique(r', tag, SlotOf(r', tag), SlotOf(r, tag));
    }
    if other != tag {
      assert IsFirstSlot(r', other, SlotOf(r, other));
      FirstSlotUnique(r', other, SlotOf(r', other), SlotOf(r, other));
    }
  }

  /** Linear search for the slot of a tag, as the source loops over the
      loaded prefix with a found flag. */
  method FindTextureSlot(r: Registry, tag: string) returns (slot: int)
    requires Valid(r)
    ensures IsFirstSlot(r, tag, slot)
    ensures slot == SlotOf(r, tag)
  {
    slot := -1;
    var index := 0;
    var found := false;
    while index < r.loaded && !found
      invariant 0 <= index <= r.loaded
      invariant forall j :: 0 <= j < index ==> r.slots[j].tag != tag
      invariant found ==> index < r.loaded && slot == index && r.slots[index].tag == tag
      invariant !found ==> slot == -1
      decreases r.loaded - index, if found then 0 else 1
    {
      if r.slots[index].tag == tag {
        slot := index;
        found := true;
      } else {
        index := index + 1;
      }
    }
    FirstSlotUnique(r, tag, slot, SlotOf(r, tag));
  }

  /** Linear search for the texture id of a tag: the id of the slot that
      `FindTextureSlot` finds, or -1. */
  method FindTextureID(r: Registry, tag: string) returns (id: int)
    requires Valid(r)
    ensures SlotOf(r, tag) == -1 ==> id == NoTexture
    ensures SlotOf(r, tag) != -1 ==> id == r.slots[SlotOf(r, tag)].id
  {
    id := NoTexture;
    var index := 0;
    var found := false;
    while index < r.loaded && !found
      invariant 0 <= index <= r.loaded
      invariant forall j :: 0 <= j < index ==> r.slots[j].tag != tag
      invariant found ==> index < r.loaded && r.slots[index].tag == tag && id == r.slots[index].id
      invariant !found ==> id == NoTexture
      decreases r.loaded - index, if found then 0 else 1
    {
      if r.slots[index].tag == tag {
        id := r.slots[index].id;
        found := true;
      } else {
        index := index + 1;
      }
    }
    if found {
      FirstSlotUnique(r, tag, index, SlotOf(r, tag));
    } else {
      FirstSlotUnique(r, tag, -1, SlotOf(r, tag));
    }
  }

  /** Texture unit `u` holds the texture of slot `u`, for exactly the
      loaded slots. */
  ghost predicate BindsSlots(r: Registry, units: map<int, int>)
    requires Valid(r)
  {
    && (forall u :: u in units <==> 0 <= u < r.loaded)
    && (forall u :: u in units ==> units[u] == r.slots[u].id)
  }

  /** Binds every loaded slot's texture to the texture unit of the same
      index; the result maps each bound unit to its texture id. */
  method BindGLTextures(r: Registry) returns (units: map<int, int>)
    requires Valid(r)
    ensures BindsSlots(r, units)
  {
    units := map[];
    var i := 0;
    while i < r.loaded
      invariant 0 <= i <= r.loaded
      invariant forall u :: u in units <==> 0 <= u < i
      invariant forall u :: u in units ==> units[u] == r.slots[u].id
    {
      units := units[i := r.slots[i].id];
      i := i + 1;
    }
  }

  /** Because units mirror slots, the sampler unit a lookup yields holds
      exactly the texture that the id lookup yields. */
  lemma SamplerUnitHoldsTaggedTexture(r: Registry, units: map<int, int>, tag: string)
    requires Valid(r) && BindsSlots(r, units) && SlotOf(r, tag) != -1
    ensures SlotOf(r, tag) in units && units[SlotOf(r, tag)] == IdOf(r, tag)
  {
  }

  /** Releases every loaded texture (the returned ids, in slot order) and
      resets the loaded prefix. Only the prefix is touched, yet the table
      ends up exactly as the constructor left it. */
  method DestroyGLTextures(r: Registry) returns (deleted: seq<int>, r': Registry)
    requires Valid(r)
    ensures r' == NewRegistry()
    ensures |deleted| == r.loaded
    ensures forall i :: 0 <= i < r.loaded ==> deleted[i] == r.slots[i].id
  {
    var slots := r.slots;
    deleted := [];
    var i := 0;
    while i < r.loaded
      invariant 0 <= i <= r.loaded && |slots| == Capacity
      invariant forall j :: 0 <= j < i ==> slots[j] == EmptySlot
      invariant forall j :: i <= j < Capacity ==> slots[j] == r.slots[j]
      invariant |deleted| == i
      invariant forall j :: 0 <= j < i ==> deleted[j] == r.slots[j].id
    {
      deleted := deleted + [slots[i].id];
      slots := slots[i := EmptySlot];
      i := i + 1;
    }
    r' := Registry(slots, 0);
    assert slots == NewRegistry().slots;
  }

  /** Number of requests whose image the loader accepts. */
  function CountSupported(loads: seq<LoadRequest>): (n: nat)
    ensures n <= |loads|
  {
    if |loads| == 0 then 0
    else (if Supported(loads[0].image) then 1 else 0) + CountSupported(loads[1..])
  }

  /** Result of a run of loads: the table, and how many loads failed (each
      failure prints one diagnostic). */
  datatype LoadReport = LoadReport(registry: Registry, failures: nat)

  /** Runs the loader over `loads` in order, counting failures. */
  function LoadAll(r: Registry, loads: seq<LoadRequest>): (rep: LoadReport)
    requires Valid(r) && r.loaded + CountSupported(loads) <= Capacity
    ensures Valid(rep.registry)
    ensures rep.registry.loaded == r.loaded + CountSupported(loads)
    ensures rep.registry.loaded + rep.failures == r.loaded + |loads|
    decreases |loads|
  {
    if |loads| == 0 then LoadReport(r, 0)
    else
      var first := CreateGLTexture(r, loads[0].image, loads[0].glId, loads[0].tag);
      var rest := LoadAll(first.registry, loads[1..]);
      LoadReport(rest.registry, rest.failures + if first.ok then 0 else 1)
  }

  /** Once a tag resolves to a slot, no later load changes where it
      resolves, not even a load under the same tag. */
  lemma {:induction false} LoadAllKeepsFound(r: Registry, loads: seq<LoadRequest>, tag: string)
    requires Valid(r) && r.loaded + CountSupported(loads) <= Capacity
    requires SlotOf(r, tag) != -1
    ensures SlotOf(LoadAll(r, loads).registry, tag) == SlotOf(r, tag)
    decreases |loads|
  {
    if |loads| > 0 {
      var first := CreateGLTexture(r, loads[0].image, loads[0].glId, loads[0].tag);
      if first.ok {
        LoadThenFind(r, loads[0].image, loads[0].glId, loads[0].tag, tag);
      }
      LoadAllKeepsFound(first.registry, loads[1..], tag);
    }
  }

  /** All tags of `loads` are distinct and none is loaded yet. */
  predicate FreshTags(r: Registry, loads: seq<LoadRequest>)
    requires Valid(r)
  {
    && (forall i, j :: 0 <= i < j < |loads| ==> loads[i].tag != loads[j].tag)
    && (forall i :: 0 <= i < |loads| ==> SlotOf(r, loads[i].tag) == -1)
  }

  /** When every image loads and the tags are fresh, the k-th request's tag
      resolves to slot `loaded + k`: slot order is load order. */
  lemma {:induction false} LoadAllSlotsInOrder(r: Registry, loads: seq<LoadRequest>)
    requires Valid(r) && r.loaded + |loads| <= Capacity
    requires forall i :: 0 <= i < |loads| ==> Supported(loads[i].image)
    requires FreshTags(r, loads)
    ensures CountSupported(loads) == |loads|
    ensures forall k :: 0 <= k < |loads| ==>
              SlotOf(LoadAll(r, loads).registry, loads[k].tag) == r.loaded + k
    decreases |loads|
  {
    AllSupportedCount(loads);
    if |loads| > 0 {
      var first := CreateGLTexture(r, loads[0].image, loads[0].glId, loads[0].tag);
      var r1 := first.registry;
      LoadThenFind(r, loads[0].image, loads[0].glId, loads[0].tag, loads[0].tag);
      FirstLoadKeepsRestFresh(r, loads);
      var tail := loads[1..];
      assert forall i :: 0 <= i < |tail| ==> tail[i] == loads[i + 1];
      LoadAllSlotsInOrder(r1, tail);
      LoadAllKeepsFound(r1, tail, loads[0].tag);
      var rest := LoadAll(r1, tail).registry;
      assert LoadAll(r, loads).registry == rest;
      forall k | 0 <= k < |loads|
        ensures SlotOf(rest, loads[k].tag) == r.loaded + k
      {
        if k > 0 {
          assert tail[k - 1] == loads[k];
        }
      }
    }
  }

  /** Loading the first of a run of fresh tags leaves the others fresh. */
  lemma FirstLoadKeepsRestFresh(r: Registry, loads: seq<LoadRequest>)
    requires Valid(r) && r.loaded < Capacity && |loads| > 0
    requires Supported(loads[0].image) && FreshTags(r, loads)
    ensures FreshTags(CreateGLTexture(r, loads[0].image, loads[0].glId, loads[0].tag).registry, loads[1..])
  {
    var r1 := CreateGLTexture(r, loads[0].image, loads[0].glId, loads[0].tag).registry;
    forall i | 1 <= i < |loads|
      ensures SlotOf(r1, loads[i].tag) == -1
    {
      LoadThenFind(r, loads[0].image, loads[0].glId, loads[0].tag, loads[i].tag);
    }
  }

  lemma {:induction false} AllSupportedCount(loads: seq<LoadRequest>)
    requires forall i :: 0 <= i < |loads| ==> Supported(loads[i].image)
    ensures CountSupported(loads) == |loads|
    decreases |loads|
  {
    if |loads| > 0 {
      AllSupportedCount(loads[1..]);
    }
  }

  /** The nine textures the scene loads, in the order it loads them. */
  const SceneTextureTags: seq<string> :=
    ["deskTexture", "laptopTex", "screenTex", "mugTex", "handleTex",
     "floorTex", "wallTex", "lampShadeTex", "lampBaseTex"]

  /** The scene's load requests, given the decoder's outcome and the GPU id
      for each of the nine files. */
  function SceneTextureLoads(images: seq<Decode>, ids: seq<int>): (loads: seq<LoadRequest>)
    requires |images| == |SceneTextureTags| && |ids| == |SceneTextureTags|
    ensures |loads| == |SceneTextureTags|
    ensures forall k :: 0 <= k < |loads| ==> loads[k] == LoadRequest(images[k], ids[k], SceneTextureTags[k])
  {
    seq(|SceneTextureTags|, k requires 0 <= k < |SceneTextureTags| =>
      LoadRequest(images[k], ids[k], SceneTextureTags[k]))
  }

  /** Preparing the scene with all nine images decodable as RGB or RGBA
      leaves nine loaded textures, no failure diagnostics, and each tag in
      the slot of its load position. */
  lemma SceneTexturesAllLoad(images: seq<Decode>, ids: seq<int>)
    requires |images| == |SceneTextureTags| && |ids| == |SceneTextureTags|
    requires forall k :: 0 <= k < |images| ==> Supported(images[k])
    ensures var loads := SceneTextureLoads(images, ids);
            CountSupported(loads) == 9
            && LoadAll(NewRegistry(), loads).registry.loaded == 9
            && LoadAll(NewRegistry(), loads).failures == 0
            && forall k :: 0 <= k < 9 ==>
                 SlotOf(LoadAll(NewRegistry(), loads).registry, SceneTextureTags[k]) == k
  {
    var loads := SceneTextureLoads(images, ids);
    var r := NewRegistry();
    forall i | 0 <= i < |loads|
      ensures SlotOf(r, loads[i].tag) == -1
    {
    }
    assert FreshTags(r, loads);
    LoadAllSlotsInOrder(r, loads);
  }

  /** The shadow map is bound to unit 15, which no content texture uses
      exactly when at most fifteen textures are loaded. */
  lemma ShadowUnitFreeIff(r: Registry, units: map<int, int>)
    requires Valid(r) && BindsSlots(r, units)
    ensures 15 !in units <==> r.loaded <= 15
  {
  }
}
