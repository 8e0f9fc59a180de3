// The texture and material registries of the scene manager.
//
// Textures live in a fixed array of {ID, tag} records whose first
// `loadedTextures` entries are in use; materials in a growable list. Every
// lookup is a front-to-back scan that stops at the first exact,
// case-sensitive tag match. OpenGL calls and image decoding are outside the
// model: what they return reaches each operation as a parameter.
module Scene {
  import opened Values
  import opened TagLookup
  import opened SceneData

  class SceneManager {
    var textureIDs: array<TextureInfo>
    var loadedTextures: nat
    var objectMaterials: seq<ObjectMaterial>

    ghost predicate Valid()
      reads this
    {
      textureIDs.Length == MaxTextureSlots && loadedTextures <= textureIDs.Length
    }

    /** The registered textures, in registration (= slot) order. */
    ghost function Textures(): seq<TextureInfo>
      reads this, textureIDs
      requires Valid()
    {
      textureIDs[..loadedTextures]
    }

    /** A scene manager with an empty texture registry and no materials. */
    constructor ()
      ensures Valid() && fresh(textureIDs)
      ensures Textures() == [] && objectMaterials == []
    {
      textureIDs := new TextureInfo[MaxTextureSlots](_ => TextureInfo(0, ""));
      loadedTextures := 0;
      objectMaterials := [];
    }

    /** Registers the texture decoded for `tag`. `load` is what the image
        decoder and glGenTextures produced (None when the file could not be
        decoded). The record is appended only for a 3- or 4-channel image and
        only while a record is free; on every other path the registry is left
        exactly as it was. */
    method CreateGLTexture(tag: string, load: Option<Upload>) returns (ok: bool)
      requires Valid()
      modifies this`loadedTextures, textureIDs
      ensures Valid()
      ensures ok == (Accepts(load) && old(loadedTextures) < MaxTextureSlots)
      ensures ok ==> loadedTextures == old(loadedTextures) + 1 &&
                     textureIDs[old(loadedTextures)] == TextureInfo(load.value.id, tag)
      ensures !ok ==> loadedTextures == old(loadedTextures)
      ensures forall i :: 0 <= i < textureIDs.Length && i != old(loadedTextures) ==>
                textureIDs[i] == old(textureIDs[i])
      ensures !ok ==> textureIDs[..] == old(textureIDs[..])
      ensures Textures() == Register(old(Textures()), tag, load)
    {
      if load.None? {
        return false;
      }
      var channels := load.value.channels;
      if channels != 3 && channels != 4 {
        return false;
      }
      if loadedTextures >= textureIDs.Length {
        return false;
      }
      textureIDs[loadedTextures] := TextureInfo(load.value.id, tag);
      loadedTextures := loadedTextures + 1;
      ok := true;
    }

    /** Registers the seven scene textures in their fixed order; loads[i] is
        the decode result for the i-th file. */
    method LoadSceneTextures(loads: seq<Option<Upload>>)
      requires Valid()
      requires |loads| == |SceneTextureTags()|
      modifies this`loadedTextures, textureIDs
      ensures Valid()
      ensures Textures() == RegisterAll(old(Textures()), SceneTextureTags(), loads)
    {
      var tags := SceneTextureTags();
      ghost var e0 := Textures();
      var _ := CreateGLTexture(tags[0], loads[0]);
      ghost var e1 := Textures();
      var _ := CreateGLTexture(tags[1], loads[1]);
      ghost var e2 := Textures();
      var _ := CreateGLTexture(tags[2], loads[2]);
      ghost var e3 := Textures();
      var _ := CreateGLTexture(tags[3], loads[3]);
      ghost var e4 := Textures();
      var _ := CreateGLTexture(tags[4], loads[4]);
      ghost var e5 := Textures();
      var _ := CreateGLTexture(tags[5], loads[5]);
      ghost var e6 := Textures();
      var _ := CreateGLTexture(tags[6], loads[6]);
      ghost var e7 := Textures();
      RegisterAllOfSteps(tags, loads, [e0, e1, e2, e3, e4, e5, e6, e7]);
    }

    /** The unit → texture-name bindings BindGLTextures makes: texture unit
        GL_TEXTURE0 + i gets the name registered at slot i, for every slot in
        use and no other. */
    method BindGLTextures() returns (units: map<int, nat>)
      requires Valid()
      ensures forall i :: i in units <==> 0 <= i < loadedTextures
      ensures forall i :: 0 <= i < loadedTextures ==> units[i] == Textures()[i].id
    {
      units := map[];
      for i := 0 to loadedTextures
        invariant forall j :: j in units <==> 0 <= j < i
        invariant forall j :: 0 <= j < i ==> units[j] == textureIDs[j].id
      {
        units := units[i := textureIDs[i].id];
      }
    }

    /** The slot of the first texture registered under exactly `tag`, or -1. */
    method FindTextureSlot(tag: string) returns (textureSlot: int)
      requires Valid()
      ensures textureSlot == FirstIndexOf(TextureTags(Textures()), tag)
      ensures -1 <= textureSlot < loadedTextures
    {
      textureSlot := -1;
      var index := 0;
      var found := false;
      while index < loadedTextures && !found
        invariant 0 <= index <= loadedTextures
        invariant found ==> index < loadedTextures && textureSlot == index && textureIDs[index].tag == tag
        invariant !found ==> textureSlot == -1
        invariant forall j :: 0 <= j < index ==> textureIDs[j].tag != tag
        decreases loadedTextures - index, !found
      {
        if textureIDs[index].tag == tag {
          textureSlot := index;
          found := true;
        } else {
          index := index + 1;
        }
      }
      ScanResult(Textures(), tag, textureSlot);
    }

    /** The texture name of the first texture registered under exactly `tag`,
        or -1. It is -1 exactly when FindTextureSlot is, and otherwise the
        name held at that slot. */
    method FindTextureID(tag: string) returns (textureID: int)
      requires Valid()
      ensures var slot := FirstIndexOf(TextureTags(Textures()), tag);
        textureID == if slot == -1 then -1 else Textures()[slot].id
      ensures textureID == -1 <==> tag !in TextureTags(Textures())
    {
      textureID := -1;
      var index := 0;
      var found := false;
      while index < loadedTextures && !found
        invariant 0 <= index <= loadedTextures
        invariant found ==> index < loadedTextures && textureID == textureIDs[index].id && textureIDs[index].tag == tag
        invariant !found ==> textureID == -1
        invariant forall j :: 0 <= j < index ==> textureIDs[j].tag != tag
        decreases loadedTextures - index, !found
      {
        if textureIDs[index].tag == tag {
          textureID := textureIDs[index].id;
          found := true;
        } else {
          index := index + 1;
        }
      }
      ScanResult(Textures(), tag, if found then index else -1);
      FirstIndexOfIsFirst(TextureTags(Textures()), tag);
    }

    /** The sampler value SetShaderTexture uploads (with texturing switched
        on): the slot of `tag`, which is -1 for a tag never registered. */
    method SetShaderTexture(tag: string) returns (useTexture: bool, sampler: int)
      requires Valid()
      ensures useTexture
      ensures sampler == FirstIndexOf(TextureTags(Textures()), tag)
      ensures sampler == -1 <==> tag !in TextureTags(Textures())
    {
      useTexture := true;
      sampler := FindTextureSlot(tag);
      FirstIndexOfIsFirst(TextureTags(Textures()), tag);
    }

    /** FindMaterial as the source has it: the answer is false only when no
        material is defined at all and true otherwise, even when no tag
        matches. `material` is the caller's variable; on a match the five
        lighting values of the first matching entry are copied into it (its
        tag is not), on a miss it comes back untouched. */
    method FindMaterial(tag: string, material: ObjectMaterial) returns (found: bool, result: ObjectMaterial)
      ensures found <==> |objectMaterials| > 0
      ensures var k := FirstIndexOf(MaterialTags(objectMaterials), tag);
        result == if k == -1 then material else CopyLightingValues(material, objectMaterials[k])
    {
      result := material;
      if |objectMaterials| == 0 {
        return false, result;
      }
      var index := 0;
      var matched := false;
      while index < |objectMaterials| && !matched
        invariant 0 <= index <= |objectMaterials|
        invariant matched ==> index < |objectMaterials| && objectMaterials[index].tag == tag &&
                              result == CopyLightingValues(material, objectMaterials[index])
        invariant !matched ==> result == material
        invariant forall j :: 0 <= j < index ==> objectMaterials[j].tag != tag
        decreases |objectMaterials| - index, !matched
      {
        if objectMaterials[index].tag == tag {
          matched := true;
          result := CopyLightingValues(result, objectMaterials[index]);
        } else {
          index := index + 1;
        }
      }
      MaterialScanResult(objectMaterials, tag, if matched then index else -1);
      found := true;
    }

    /** The `material.*` uniform values SetShaderMaterial uploads, or None
        when it uploads nothing. Nothing is uploaded only when no material is
        defined. A defined tag uploads its first entry's values; an undefined
        tag in a non-empty list uploads the never-initialised local the
        source passes to FindMaterial, whose contents are `uninitialised`. */
    method SetShaderMaterial(tag: string, uninitialised: ObjectMaterial) returns (uploaded: Option<MaterialUniforms>)
      ensures uploaded.None? <==> |objectMaterials| == 0
      ensures var k := FirstIndexOf(MaterialTags(objectMaterials), tag);
        k >= 0 ==> uploaded == Some(Uniforms(objectMaterials[k]))
      ensures |objectMaterials| > 0 && tag !in MaterialTags(objectMaterials) ==>
        uploaded == Some(Uniforms(uninitialised))
    {
      uploaded := None;
      if |objectMaterials| > 0 {
        var found, material := FindMaterial(tag, uninitialised);
        if found {
          uploaded := Some(Uniforms(material));
        }
      }
      FirstIndexOfIsFirst(MaterialTags(objectMaterials), tag);
    }

    /** Appends the seven scene materials, lampBody first and bluebook last. */
    method DefineObjectMaterials()
      modifies this`objectMaterials
      ensures objectMaterials == old(objectMaterials) + SceneMaterials()
      ensures MaterialTags(objectMaterials) == old(MaterialTags(objectMaterials)) + MaterialTags(SceneMaterials())
    {
      objectMaterials := objectMaterials + [LampBody];
      objectMaterials := objectMaterials + [LampKnob];
      objectMaterials := objectMaterials + [CupMaterial];
      objectMaterials := objectMaterials + [PencilMaterial];
      objectMaterials := objectMaterials + [MonitorMaterial];
      objectMaterials := objectMaterials + [MonitorStandMaterial];
      objectMaterials := objectMaterials + [BookMaterial];
    }
  }

  /** A finished front-to-back scan over registered textures is the first
      match: `r` is FirstIndexOf over their tags. */
  lemma ScanResult(entries: seq<TextureInfo>, tag: string, r: int)
    requires -1 <= r < |entries|
    requires r == -1 ==> forall j :: 0 <= j < |entries| ==> entries[j].tag != tag
    requires r >= 0 ==> entries[r].tag == tag && forall j :: 0 <= j < r ==> entries[j].tag != tag
    ensures FirstIndexOf(TextureTags(entries), tag) == r
  {
    var tags := TextureTags(entries);
    if r == -1 {
      assert tag !in tags by {
        forall j | 0 <= j < |tags| ensures tags[j] != tag { assert tags[j] == entries[j].tag; }
      }
    } else {
      assert tag !in tags[..r] by {
        forall j | 0 <= j < r ensures tags[..r][j] != tag { assert tags[..r][j] == entries[j].tag; }
      }
    }
    FirstIndexUnique(tags, tag, r);
  }

  /** The same for a finished scan over materials. */
  lemma MaterialScanResult(materials: seq<ObjectMaterial>, tag: string, r: int)
    requires -1 <= r < |materials|
    requires r == -1 ==> forall j :: 0 <= j < |materials| ==> materials[j].tag != tag
    requires r >= 0 ==> materials[r].tag == tag && forall j :: 0 <= j < r ==> materials[j].tag != tag
    ensures FirstIndexOf(MaterialTags(materials), tag) == r
  {
    var tags := MaterialTags(materials);
    if r == -1 {
      assert tag !in tags by {
        forall j | 0 <= j < |tags| ensures tags[j] != tag { assert tags[j] == materials[j].tag; }
      }
    } else {
      assert tag !in tags[..r] by {
        forall j | 0 <= j < r ensures tags[..r][j] != tag { assert tags[..r][j] == materials[j].tag; }
      }
    }
    FirstIndexUnique(tags, tag, r);
  }

  /** One step of RegisterAll over the calls from index k on. */
  lemma RegisterAllStep(e: seq<TextureInfo>, tags: seq<string>, loads: seq<Option<Upload>>, k: nat)
    requires k < |tags| == |loads|
    ensures RegisterAll(e, tags[k..], loads[k..]) ==
      RegisterAll(Register(e, tags[k], loads[k]), tags[k + 1..], loads[k + 1..])
  {
    assert tags[k..][1..] == tags[k + 1..];
    assert loads[k..][1..] == loads[k + 1..];
  }

  /** Registry states after each of a run of calls, the state after call k
      being Register of the one before, end in RegisterAll of the first. */
  lemma RegisterAllOfSteps(tags: seq<string>, loads: seq<Option<Upload>>, states: seq<seq<TextureInfo>>)
    requires |tags| == |loads| && |states| == |tags| + 1
    requires forall k :: 0 <= k < |tags| ==> states[k + 1] == Register(states[k], tags[k], loads[k])
    ensures states[|tags|] == RegisterAll(states[0], tags, loads)
  {
    var k := |tags|;
    while k > 0
      invariant 0 <= k <= |tags|
      invariant states[|tags|] == RegisterAll(states[k], tags[k..], loads[k..])
    {
      k := k - 1;
      RegisterAllStep(states[k], tags, loads, k);
    }
  }
}
