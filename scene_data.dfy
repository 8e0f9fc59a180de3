// Records and scene data of the scene manager, and the value-level
// specification of its texture registry.
//
// The registry of SceneManager.cpp is an array of {ID, tag} records filled
// front to back; `Register` is what one CreateGLTexture call does to the
// registered prefix and `RegisterAll` what a sequence of calls does.
module SceneData {
  import opened Values
  import opened TagLookup

  /** Number of texture records the registry holds (the 16 texture units the
      registry is documented to bind). */
  const MaxTextureSlots: nat := 16

  /** One registered texture: the OpenGL texture name and its tag. */
  datatype TextureInfo = TextureInfo(id: nat, tag: string)

  /** What the image decoder and the texture generator hand back for one file:
      the generated texture name and the decoded channel count. A file that
      cannot be decoded is `None`. */
  datatype Upload = Upload(id: nat, channels: int)

  /** The lighting material of an object; the colours are RGB triples. */
  datatype ObjectMaterial = ObjectMaterial(
    ambientColor: Vec3,
    ambientStrength: real,
    diffuseColor: Vec3,
    specularColor: Vec3,
    shininess: real,
    tag: string)

  /** The five values SetShaderMaterial uploads as `material.*` uniforms. */
  datatype MaterialUniforms = MaterialUniforms(
    ambientColor: Vec3,
    ambientStrength: real,
    diffuseColor: Vec3,
    specularColor: Vec3,
    shininess: real)

  function TextureTags(entries: seq<TextureInfo>): seq<string>
  {
    seq(|entries|, i requires 0 <= i < |entries| => entries[i].tag)
  }

  function MaterialTags(materials: seq<ObjectMaterial>): seq<string>
  {
    seq(|materials|, i requires 0 <= i < |materials| => materials[i].tag)
  }

  function Uniforms(m: ObjectMaterial): MaterialUniforms
  {
    MaterialUniforms(m.ambientColor, m.ambientStrength, m.diffuseColor, m.specularColor, m.shininess)
  }

  /** `dst` with the five lighting values of `src` copied in; the tag of
      `dst` is not copied. */
  function CopyLightingValues(dst: ObjectMaterial, src: ObjectMaterial): ObjectMaterial
  {
    dst.(ambientColor := src.ambientColor, ambientStrength := src.ambientStrength,
         diffuseColor := src.diffuseColor, specularColor := src.specularColor,
         shininess := src.shininess)
  }

  // ---------------------------------------------------------------------
  // Texture registration

  /** A decode result the registry takes: an image with 3 (RGB) or 4 (RGBA)
      channels. A missing image or any other channel count is refused. */
  predicate Accepts(load: Option<Upload>)
  {
    load.Some? && (load.value.channels == 3 || load.value.channels == 4)
  }

  /** The registered prefix after one CreateGLTexture(tag) call whose decode
      produced `load`: one record appended when the image is accepted and a
      record is free, otherwise unchanged. */
  function Register(entries: seq<TextureInfo>, tag: string, load: Option<Upload>): seq<TextureInfo>
  {
    if Accepts(load) && |entries| < MaxTextureSlots then entries + [TextureInfo(load.value.id, tag)]
    else entries
  }

  /** The registered prefix after CreateGLTexture(tags[i]) for each i in order. */
  function RegisterAll(entries: seq<TextureInfo>, tags: seq<string>, loads: seq<Option<Upload>>): seq<TextureInfo>
    requires |tags| == |loads|
    decreases |tags|
  {
    if tags == [] then entries
    else RegisterAll(Register(entries, tags[0], loads[0]), tags[1..], loads[1..])
  }

  /** Registration only ever appends: the records already registered stay
      where they are, and the registry never outgrows its array. */
  lemma {:induction false} RegisterAllKeepsPrefix(entries: seq<TextureInfo>, tags: seq<string>, loads: seq<Option<Upload>>)
    requires |tags| == |loads|
    requires |entries| <= MaxTextureSlots
    ensures |entries| <= |RegisterAll(entries, tags, loads)| <= MaxTextureSlots
    ensures RegisterAll(entries, tags, loads)[..|entries|] == entries
    decreases |tags|
  {
    if tags != [] {
      var next := Register(entries, tags[0], loads[0]);
      RegisterAllKeepsPrefix(next, tags[1..], loads[1..]);
      assert next[..|entries|] == entries;
      assert RegisterAll(entries, tags, loads)[..|entries|] == RegisterAll(next, tags[1..], loads[1..])[..|next|][..|entries|];
    }
  }

  /** When every load is accepted and the records fit, registration appends
      exactly one record per tag, in call order, holding that load's texture name. */
  lemma {:induction false} RegisterAllAccepted(entries: seq<TextureInfo>, tags: seq<string>, loads: seq<Option<Upload>>)
    requires |tags| == |loads|
    requires |entries| + |tags| <= MaxTextureSlots
    requires forall i :: 0 <= i < |loads| ==> Accepts(loads[i])
    ensures |RegisterAll(entries, tags, loads)| == |entries| + |tags|
    ensures TextureTags(RegisterAll(entries, tags, loads)) == TextureTags(entries) + tags
    ensures forall i :: 0 <= i < |tags| ==>
      loads[i].Some? && RegisterAll(entries, tags, loads)[|entries| + i].id == loads[i].value.id
    decreases |tags|
  {
    if tags != [] {
      var next := Register(entries, tags[0], loads[0]);
      assert Accepts(loads[0]);
      assert next == entries + [TextureInfo(loads[0].value.id, tags[0])];
      assert forall i :: 0 <= i < |loads[1..]| ==> Accepts(loads[1..][i]) by {
        forall i | 0 <= i < |loads[1..]| ensures Accepts(loads[1..][i]) {
          assert loads[1..][i] == loads[i + 1];
        }
      }
      RegisterAllAccepted(next, tags[1..], loads[1..]);
      var all := RegisterAll(entries, tags, loads);
      assert TextureTags(next) == TextureTags(entries) + [tags[0]];
      assert TextureTags(entries) + [tags[0]] + tags[1..] == TextureTags(entries) + tags;
      forall i | 0 <= i < |tags| ensures loads[i].Some? && all[|entries| + i].id == loads[i].value.id {
        assert Accepts(loads[i]);
        if i > 0 {
          assert all[|next| + (i - 1)].id == loads[1..][i - 1].value.id;
        } else {
          RegisterAllKeepsPrefix(next, tags[1..], loads[1..]);
          assert all[..|next|] == next;
          assert all[|entries|] == all[..|next|][|entries|];
        }
      }
    }
  }

  /** Registering then looking up: after an accepted registration of `tag`
      that fits, the lookup finds the new record (holding this load's
      texture name), unless `tag` was registered before, in which case the
      earlier record still wins. */
  lemma RegisterThenFind(entries: seq<TextureInfo>, tag: string, load: Option<Upload>)
    requires Accepts(load) && |entries| < MaxTextureSlots
    ensures var after := Register(entries, tag, load);
      var slot := FirstIndexOf(TextureTags(after), tag);
      0 <= slot < |after| && after[slot].tag == tag &&
      (tag in TextureTags(entries) ==> slot == FirstIndexOf(TextureTags(entries), tag)) &&
      (tag !in TextureTags(entries) ==> slot == |entries| && after[slot].id == load.value.id)
  {
    var after := Register(entries, tag, load);
    assert TextureTags(after) == TextureTags(entries) + [tag];
    FirstIndexOfAppend(TextureTags(entries), [tag], tag);
    FirstIndexOfIsFirst(TextureTags(after), tag);
  }

  // ---------------------------------------------------------------------
  // The source as written: no capacity check

  /** The registered prefix after one CreateGLTexture call as the source is
      written: an accepted image is always appended at index
      `m_loadedTextures` and the count always goes up by one, whatever the
      fill count. The call's answer is `Accepts(load)`. */
  function RegisterAsWritten(entries: seq<TextureInfo>, tag: string, load: Option<Upload>): seq<TextureInfo>
  {
    if Accepts(load) then entries + [TextureInfo(load.value.id, tag)] else entries
  }

  /** While a record is free, the code as written and the corrected
      registration (which refuses a load into a full array) agree. */
  lemma RegisterAsWrittenAgreesWhileRoom(entries: seq<TextureInfo>, tag: string, load: Option<Upload>)
    requires |entries| < MaxTextureSlots
    ensures RegisterAsWritten(entries, tag, load) == Register(entries, tag, load)
  {
  }

  /** With all 16 records in use, an accepted load as written answers true,
      writes record 16 (one past the array) and leaves the count at 17; the
      corrected registration leaves the registry unchanged. */
  lemma SeventeenthLoadOverflows(entries: seq<TextureInfo>, tag: string, load: Option<Upload>)
    requires |entries| == MaxTextureSlots && Accepts(load)
    ensures var asWritten := RegisterAsWritten(entries, tag, load);
      |asWritten| == MaxTextureSlots + 1 &&
      asWritten[..MaxTextureSlots] == entries &&
      asWritten[MaxTextureSlots] == TextureInfo(load.value.id, tag)
    ensures Register(entries, tag, load) == entries
  {
    assert (entries + [TextureInfo(load.value.id, tag)])[..MaxTextureSlots] == entries;
  }

  // ---------------------------------------------------------------------
  // Scene content

  /** The tags LoadSceneTextures registers, in call order. */
  function SceneTextureTags(): seq<string>
  {
    ["woodTexture", "backDrop", "monScreen", "pcKey", "penCup", "lampGold", "donutTex"]
  }

  const LampBody := ObjectMaterial(Vec3(0.3, 0.3, 0.3), 0.2, Vec3(0.6, 0.6, 0.6), Vec3(0.8, 0.8, 0.8), 64.0, "lampBody")
  const LampKnob := ObjectMaterial(Vec3(0.5, 0.3, 0.1), 0.2, Vec3(0.7, 0.5, 0.2), Vec3(0.9, 0.8, 0.6), 32.0, "lampKnob")
  const CupMaterial := ObjectMaterial(Vec3(0.05, 0.2, 0.05), 0.2, Vec3(0.1, 0.1, 0.1), Vec3(0.8, 1.0, 0.8), 128.0, "cup")
  const PencilMaterial := ObjectMaterial(Vec3(1.0, 1.0, 0.0), 0.3, Vec3(0.9, 0.8, 0.1), Vec3(0.3, 0.3, 0.1), 16.0, "pencil")
  const MonitorMaterial := ObjectMaterial(Vec3(0.05, 0.05, 0.05), 0.1, Vec3(0.1, 0.1, 0.1), Vec3(0.2, 0.2, 0.2), 10.0, "monitor")
  const MonitorStandMaterial := ObjectMaterial(Vec3(0.3, 0.3, 0.3), 0.2, Vec3(0.5, 0.5, 0.5), Vec3(0.7, 0.7, 0.7), 40.0, "monitorStand")
  const BookMaterial := ObjectMaterial(Vec3(0.0, 0.0, 0.6), 0.2, Vec3(0.1, 0.1, 0.8), Vec3(0.3, 0.3, 0.3), 20.0, "bluebook")

  /** The materials DefineObjectMaterials appends, in order. */
  function SceneMaterials(): seq<ObjectMaterial>
  {
    [LampBody, LampKnob, CupMaterial, PencilMaterial, MonitorMaterial, MonitorStandMaterial, BookMaterial]
  }

  /** In the scene's tag order each tag finds the slot of its own call
      (woodTexture 0 … donutTex 6), and the lower-case spellings the render
      pass gives SetShaderTexture match nothing: lookup is case-sensitive. */
  lemma SceneTagLookups()
    ensures var tags := SceneTextureTags();
      FirstIndexOf(tags, "woodTexture") == 0 && FirstIndexOf(tags, "backDrop") == 1 &&
      FirstIndexOf(tags, "monScreen") == 2 && FirstIndexOf(tags, "pcKey") == 3 &&
      FirstIndexOf(tags, "penCup") == 4 && FirstIndexOf(tags, "lampGold") == 5 &&
      FirstIndexOf(tags, "donutTex") == 6
    ensures var tags := SceneTextureTags();
      FirstIndexOf(tags, "monscreen") == -1 && FirstIndexOf(tags, "pckey") == -1 &&
      FirstIndexOf(tags, "pencup") == -1 && FirstIndexOf(tags, "lampgold") == -1 &&
      FirstIndexOf(tags, "donuttex") == -1
  {
  }

  /** After all seven scene textures load into an empty registry, the
      registered tags are the scene's tags in call order, each record holding
      the texture name of its own load. */
  lemma SceneTextureSlots(loads: seq<Option<Upload>>)
    requires |loads| == |SceneTextureTags()|
    requires forall i :: 0 <= i < |loads| ==> Accepts(loads[i])
    ensures TextureTags(RegisterAll([], SceneTextureTags(), loads)) == SceneTextureTags()
    ensures forall i :: 0 <= i < |loads| ==>
      loads[i].Some? && RegisterAll([], SceneTextureTags(), loads)[i].id == loads[i].value.id
  {
    RegisterAllAccepted([], SceneTextureTags(), loads);
    assert TextureTags([]) + SceneTextureTags() == SceneTextureTags();
  }

  /** The seven material tags are pairwise distinct, so in a list holding
      just the scene materials every tag finds its own entry. */
  lemma SceneMaterialsFindOwnEntry()
    ensures forall i :: 0 <= i < |SceneMaterials()| ==>
      FirstIndexOf(MaterialTags(SceneMaterials()), SceneMaterials()[i].tag) == i
  {
    var tags := MaterialTags(SceneMaterials());
    assert tags == ["lampBody", "lampKnob", "cup", "pencil", "monitor", "monitorStand", "bluebook"];
    assert forall j, k :: 0 <= j < k < |tags| ==> tags[j] != tags[k];
    forall i | 0 <= i < |tags| ensures FirstIndexOf(tags, tags[i]) == i {
      FirstIndexOfDistinct(tags, i);
    }
  }
}
