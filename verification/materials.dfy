/**
 Material and texture preparation for a loaded fullbody avatar
 (`FullbodyMaterialAdjuster`): the choice of haircut shader, the body
 texture made transparent under an outfit, and the packing of a metallic
 map and a roughness map into one texture.

 The engine is reduced to what these operations observe: the image files
 on disk (already decoded, keyed by path), which template materials and
 which haircut shaders can be found, and the name of the pipeline's main
 texture property. A material is its shader, the textures this code binds
 to its properties and the render-queue override this code sets; whatever
 the template material already holds is not part of the model.
 */
module MaterialAdjuster {
  import opened Results
  import FullbodyStorage

  /** A C# `byte`. */
  newtype byte = x: int | 0 <= x < 256

  /** Unity's `Color32`: four 8-bit channels. */
  datatype Color32 = Color32(r: byte, g: byte, b: byte, a: byte)

  /** A decoded image: its size and its pixels row by row (`GetPixels32`). */
  datatype Texture = Texture(width: int, height: int, pixels: seq<Color32>)

  /** The shader a haircut is drawn with. */
  datatype ShaderKind = Standard | HaircutStrands | HaircutSolid

  /** The template materials the rendering pipeline provides. */
  datatype MaterialTemplate = Body | BodyPbr | Haircut | Outfit

  /** The avatar SDK's own lit haircut shaders, looked up by name at run time. */
  datatype LitShader = HairSolidLit | HairStrandsLit

  /** A material is made either from a template material or directly from a lit haircut shader. */
  datatype Shader = FromTemplate(template: MaterialTemplate) | Lit(shader: LitShader)

  /** `RenderQueue.Transparent`. */
  const TransparentQueue: int := 3000

  datatype Material = Material(shader: Shader, textures: map<string, Texture>, renderQueue: Option<int>)

  /** What the engine offers the adjuster. */
  datatype Engine = Engine(
    files: map<string, Texture>,       // File.Exists / File.ReadAllBytes + LoadImage
    templates: set<MaterialTemplate>,  // Resources.Load<Material> succeeds
    shaders: set<LitShader>,           // Shader.Find succeeds
    mainTextureSlot: string)           // RenderingPipelineTraits.GetTextureName()

  /** `File.ReadAllBytes` followed by `LoadImage`: a missing file throws. */
  function LoadTexture(engine: Engine, path: string): (r: Result<Texture>)
    ensures r.Ok? <==> path in engine.files
    ensures r.Ok? ==> r.value == engine.files[path]
    ensures r.Err? ==> r.fault == FileNotFound(path)
  {
    if path in engine.files then Ok(engine.files[path]) else Err(FileNotFound(path))
  }

  // ---------------------------------------------------------------------------
  // Haircut shader selection

  /** The `haircutsShaders` table. */
  const HaircutShaders: map<string, ShaderKind> := map[
    "wavy_bob" := HaircutStrands,
    "very_long" := HaircutStrands,
    "shoulder_length" := HaircutStrands,
    "short_parted" := HaircutStrands,
    "short_curls" := HaircutStrands,
    "roman" := HaircutStrands,
    "rasta" := HaircutStrands,
    "mid_length_straight2" := HaircutStrands,
    "mid_length_ruffled" := HaircutStrands,
    "corkscrew_curls" := HaircutStrands,
    "bob_parted" := HaircutStrands,

    "short_slick" := HaircutSolid,
    "mid_length_wispy" := HaircutSolid,
    "long_crimped" := HaircutSolid,
    "balding" := HaircutSolid,
    "short_disheveled" := HaircutSolid,
    "ponytail_with_bangs" := HaircutSolid,
    "mid_length_straight" := HaircutSolid,
    "long_wavy" := HaircutSolid,
    "long_disheveled" := HaircutSolid,
    "short_simple" := HaircutSolid,
    "generated" := HaircutSolid
  ]

  /** The haircuts drawn as strands. */
  const StrandsGroup: set<string> := {
    "wavy_bob", "very_long", "shoulder_length", "short_parted", "short_curls", "roman",
    "rasta", "mid_length_straight2", "mid_length_ruffled", "corkscrew_curls", "bob_parted"}

  /** The haircuts drawn as a solid mesh. */
  const SolidGroup: set<string> := {
    "short_slick", "mid_length_wispy", "long_crimped", "balding", "short_disheveled",
    "ponytail_with_bangs", "mid_length_straight", "long_wavy", "long_disheveled",
    "short_simple", "generated"}

  /** The shader `PrepareHairMaterial` asks for: the table's entry, or Standard for a name it lacks. */
  function ShaderFor(haircutName: string): ShaderKind
  {
    if haircutName in HaircutShaders then HaircutShaders[haircutName] else Standard
  }

  /** The table names exactly the two groups, and each group gets its own shader. */
  lemma ShaderSelection(haircutName: string)
    ensures ShaderFor(haircutName) == HaircutStrands <==> haircutName in StrandsGroup
    ensures ShaderFor(haircutName) == HaircutSolid <==> haircutName in SolidGroup
    ensures ShaderFor(haircutName) == Standard <==> haircutName !in StrandsGroup + SolidGroup
  {
  }

  /** The table never maps a name to Standard, and the app's own generated haircut is drawn solid. */
  lemma HaircutTableEntries()
    ensures forall name :: name in HaircutShaders ==> HaircutShaders[name] != Standard
    ensures "generated" in HaircutShaders && HaircutShaders["generated"] == HaircutSolid
  {
  }

  /** `PrepareHairMaterialWithStandardShader`: null when the haircut template is missing. */
  function StandardHairMaterial(engine: Engine, mainTexture: Texture): (r: Option<Material>)
    ensures r.Some? <==> Haircut in engine.templates
    ensures r.Some? ==> r.value.shader == FromTemplate(Haircut) && r.value.renderQueue == None
    ensures r.Some? ==> r.value.textures.Keys == {engine.mainTextureSlot, "_EmissionMap"}
    ensures r.Some? ==> r.value.textures.Values == {mainTexture}
  {
    if Haircut !in engine.templates then None
    else Some(Material(FromTemplate(Haircut), map[engine.mainTextureSlot := mainTexture, "_EmissionMap" := mainTexture], None))
  }

  /**
   `PrepareHairMaterialWithAvatarSdkSolidShader` and `...StrandsShader`: a
   material on the lit shader, the solid one in the transparent queue, or
   the Standard-shader material when the shader cannot be found.
   */
  function LitHairMaterial(engine: Engine, shader: LitShader, mainTexture: Texture): (r: Option<Material>)
    ensures shader !in engine.shaders ==> r == StandardHairMaterial(engine, mainTexture)
    ensures shader in engine.shaders ==> r.Some? && r.value.shader == Lit(shader)
    ensures shader in engine.shaders ==> r.value.textures == map["_MainTex" := mainTexture]
    ensures shader in engine.shaders ==> (r.value.renderQueue == Some(TransparentQueue) <==> shader == HairSolidLit)
    ensures r.Some? ==> mainTexture in r.value.textures.Values
  {
    if shader !in engine.shaders then StandardHairMaterial(engine, mainTexture)
    else
      var textures := map["_MainTex" := mainTexture];
      assert textures["_MainTex"] == mainTexture;
      var queue := if shader == HairSolidLit then Some(TransparentQueue) else None;
      Some(Material(Lit(shader), textures, queue))
  }

  /** `PrepareHairMaterial`: load the haircut texture, then pick the shader from the table. */
  function PrepareHairMaterial(engine: Engine, haircutDir: string, haircutName: string): (r: Result<Option<Material>>)
    ensures var path := FullbodyStorage.HaircutFileInDir(haircutDir, haircutName, FullbodyStorage.HaircutFileType.Texture);
      && (r.Err? <==> path !in engine.files)
      && (r.Ok? && r.value.Some? ==> engine.files[path] in r.value.value.textures.Values)
  {
    var path := FullbodyStorage.HaircutFileInDir(haircutDir, haircutName, FullbodyStorage.HaircutFileType.Texture);
    var texture :- LoadTexture(engine, path);
    match ShaderFor(haircutName)
    case HaircutSolid => Ok(LitHairMaterial(engine, HairSolidLit, texture))
    case HaircutStrands => Ok(LitHairMaterial(engine, HairStrandsLit, texture))
    case Standard => Ok(StandardHairMaterial(engine, texture))
  }

  /**
   Which material a haircut ends up with: its group's lit shader when the
   engine has it, otherwise the Standard-shader material (null when even the
   haircut template is missing).
   */
  lemma HairMaterialChoice(engine: Engine, haircutDir: string, haircutName: string, texture: Texture)
    requires FullbodyStorage.HaircutFileInDir(haircutDir, haircutName, FullbodyStorage.HaircutFileType.Texture) in engine.files
    requires texture == engine.files[FullbodyStorage.HaircutFileInDir(haircutDir, haircutName, FullbodyStorage.HaircutFileType.Texture)]
    ensures PrepareHairMaterial(engine, haircutDir, haircutName).Ok?
    ensures haircutName in StrandsGroup && HairStrandsLit in engine.shaders ==>
      PrepareHairMaterial(engine, haircutDir, haircutName).value == Some(Material(Lit(HairStrandsLit), map["_MainTex" := texture], None))
    ensures haircutName in SolidGroup && HairSolidLit in engine.shaders ==>
      PrepareHairMaterial(engine, haircutDir, haircutName).value == Some(Material(Lit(HairSolidLit), map["_MainTex" := texture], Some(TransparentQueue)))
    ensures haircutName in StrandsGroup && HairStrandsLit !in engine.shaders ==>
      PrepareHairMaterial(engine, haircutDir, haircutName).value == StandardHairMaterial(engine, texture)
    ensures haircutName in SolidGroup && HairSolidLit !in engine.shaders ==>
      PrepareHairMaterial(engine, haircutDir, haircutName).value == StandardHairMaterial(engine, texture)
    ensures haircutName !in StrandsGroup && haircutName !in SolidGroup ==>
      PrepareHairMaterial(engine, haircutDir, haircutName).value == StandardHairMaterial(engine, texture)
  {
    ShaderSelection(haircutName);
  }

  // ---------------------------------------------------------------------------
  // Transparent body under an outfit

  /** The body's pixels with each alpha taken from the mask's red channel at the same index. */
  function AlphaFromMask(body: seq<Color32>, mask: seq<Color32>): (r: seq<Color32>)
    requires |mask| >= |body|
    ensures |r| == |body|
  {
    seq(|body|, i requires 0 <= i < |body| => body[i].(a := mask[i].r))
  }

  /**
   The pixel loop of `PrepareTransparentBodyTextureForOutfit`: it runs over
   the body's pixels and reads the mask at the same index, so a mask with
   fewer pixels than the body throws.
   */
  method MergeMaskAlpha(body: seq<Color32>, mask: seq<Color32>) returns (r: Result<seq<Color32>>)
    ensures r.Ok? <==> |mask| >= |body|
    ensures r.Err? ==> r.fault == IndexOutOfRange
    ensures r.Ok? ==> r.value == AlphaFromMask(body, mask)
    ensures r.Ok? ==> |r.value| == |body|
    ensures r.Ok? ==> forall i :: 0 <= i < |body| ==>
      && r.value[i].r == body[i].r && r.value[i].g == body[i].g && r.value[i].b == body[i].b
      && r.value[i].a == mask[i].r
  {
    var colors := body;
    var i := 0;
    while i < |body|
      invariant 0 <= i <= |body|
      invariant i <= |mask|
      invariant |colors| == |body|
      invariant forall k :: 0 <= k < i ==> colors[k] == body[k].(a := mask[k].r)
      invariant forall k :: i <= k < |body| ==> colors[k] == body[k]
    {
      if i >= |mask| {
        return Err(IndexOutOfRange);
      }
      colors := colors[i := colors[i].(a := mask[i].r)];
      i := i + 1;
    }
    return Ok(colors);
  }

  /** Merging the same mask twice changes nothing more: the merge is idempotent. */
  lemma AlphaFromMaskIdempotent(body: seq<Color32>, mask: seq<Color32>)
    requires |mask| >= |body|
    ensures AlphaFromMask(AlphaFromMask(body, mask), mask) == AlphaFromMask(body, mask)
  {
  }

  /**
   `PrepareTransparentBodyTextureForOutfit`: null when the outfit has no
   body visibility mask; otherwise the mask's texture, refilled with the
   body's colours and the mask's red channel as alpha.
   */
  method PrepareTransparentBodyTexture(engine: Engine, opaqueBody: Texture, outfitDir: string, outfitName: string)
    returns (r: Result<Option<Texture>>)
    ensures var path := FullbodyStorage.OutfitFileInDir(outfitDir, outfitName, FullbodyStorage.OutfitFileType.BodyVisibilityMask);
      && (path !in engine.files ==> r == Ok(None))
      && (path in engine.files ==> var mask := engine.files[path];
            && (r.Ok? <==> |mask.pixels| >= |opaqueBody.pixels|)
            && (r.Ok? ==> r.value == Some(Texture(mask.width, mask.height, AlphaFromMask(opaqueBody.pixels, mask.pixels)))))
  {
    var path := FullbodyStorage.OutfitFileInDir(outfitDir, outfitName, FullbodyStorage.OutfitFileType.BodyVisibilityMask);
    if path !in engine.files {
      return Ok(None);
    }
    var mask := engine.files[path];
    var merged :- MergeMaskAlpha(opaqueBody.pixels, mask.pixels);
    return Ok(Some(Texture(mask.width, mask.height, merged)));
  }

  // ---------------------------------------------------------------------------
  // Metallic and roughness packing

  /** C# `byte` subtraction in an unchecked context: the difference wraps modulo 256. */
  function ByteSub(x: byte, y: byte): byte
  {
    ((x as int - y as int) % 256) as byte
  }

  /** Subtracting from 255 never wraps. */
  lemma ByteSubFromMax(y: byte)
    ensures ByteSub(255, y) as int == 255 - y as int
  {
  }

  /**
   The size of the packed texture: the metallic map's, replaced by the
   roughness map's when that exists; zero when neither does.
   */
  function PackedSize(metallic: Option<Texture>, roughness: Option<Texture>): (size: (int, int))
    ensures roughness.Some? ==> size == (roughness.value.width, roughness.value.height)
    ensures roughness.None? && metallic.Some? ==> size == (metallic.value.width, metallic.value.height)
    ensures roughness.None? && metallic.None? ==> size == (0, 0)
  {
    var (w0, h0) := (0, 0);
    var (w1, h1) := if metallic.Some? then (metallic.value.width, metallic.value.height) else (w0, h0);
    if roughness.Some? then (roughness.value.width, roughness.value.height) else (w1, h1)
  }

  /** The pixels of an optional map (`null` when the file does not exist). */
  function PixelsOf(texture: Option<Texture>): Option<seq<Color32>>
  {
    if texture.Some? then Some(texture.value.pixels) else None
  }

  /** A map, when present, has at least `count` pixels. */
  predicate Covers(pixels: Option<seq<Color32>>, count: int)
  {
    pixels.None? || |pixels.value| >= count
  }

  /**
   The packing loop of `ConfigurePbrTextures` over a fresh texture of
   `count` pixels: red, green and blue take the metallic map's red (0 when
   there is no metallic map), alpha is 255 minus the roughness map's red (255
   when there is no roughness map). A map with fewer pixels than the texture
   throws at the first index it lacks.
   */
  method PackMetallicRoughness(count: nat, metallic: Option<seq<Color32>>, roughness: Option<seq<Color32>>)
    returns (r: Result<seq<Color32>>)
    ensures r.Ok? <==> Covers(metallic, count) && Covers(roughness, count)
    ensures r.Err? ==> r.fault == IndexOutOfRange
    ensures r.Ok? ==> |r.value| == count
    ensures r.Ok? ==> forall i :: 0 <= i < count ==>
      && r.value[i].r == r.value[i].g == r.value[i].b
      && r.value[i].r == (if metallic.None? then 0 else metallic.value[i].r)
      && r.value[i].a as int == 255 - (if roughness.None? then 0 else roughness.value[i].r as int)
  {
    var colors: seq<Color32> := [];
    var i := 0;
    while i < count
      invariant 0 <= i <= count
      invariant Covers(metallic, i) && Covers(roughness, i)
      invariant |colors| == i
      invariant forall k :: 0 <= k < i ==>
        && colors[k].r == colors[k].g == colors[k].b
        && colors[k].r == (if metallic.None? then 0 else metallic.value[k].r)
        && colors[k].a as int == 255 - (if roughness.None? then 0 else roughness.value[k].r as int)
    {
      var metall: byte := 0;
      if metallic.Some? {
        if i >= |metallic.value| {
          return Err(IndexOutOfRange);
        }
        metall := metallic.value[i].r;
      }
      var alpha: byte := 255;
      if roughness.Some? {
        if i >= |roughness.value| {
          return Err(IndexOutOfRange);
        }
        ByteSubFromMax(roughness.value[i].r);
        alpha := ByteSub(alpha, roughness.value[i].r);
      }
      colors := colors + [Color32(metall, metall, metall, alpha)];
      i := i + 1;
    }
    return Ok(colors);
  }

  /** The textures `ConfigurePbrTextures` binds: the packed metallic-gloss map and the normal map. */
  datatype PbrTextures = PbrTextures(metallicGloss: Option<Texture>, bump: Option<Texture>)

  /** A map that is read only when its file exists (`File.Exists`), `null` otherwise. */
  function OptionalMap(engine: Engine, path: string): (r: Option<Texture>)
    ensures r.Some? <==> path in engine.files
    ensures r.Some? ==> r.value == engine.files[path]
  {
    if path in engine.files then Some(engine.files[path]) else None
  }

  /**
   `packed` is the metallic and roughness maps packed pixel by pixel: it has
   the size `PackedSize` chooses, both maps cover it, red, green and blue
   are the metallic map's red (0 without a metallic map) and alpha is 255
   minus the roughness map's red (255 without a roughness map).
   */
  predicate IsPacked(packed: Texture, metallic: Option<Texture>, roughness: Option<Texture>)
  {
    var (w, h) := PackedSize(metallic, roughness);
    && packed.width == w && packed.height == h
    && |packed.pixels| == w * h
    && Covers(PixelsOf(metallic), w * h) && Covers(PixelsOf(roughness), w * h)
    && forall i :: 0 <= i < |packed.pixels| ==>
      && packed.pixels[i].r == packed.pixels[i].g == packed.pixels[i].b
      && packed.pixels[i].r == (if metallic.None? then 0 else metallic.value.pixels[i].r)
      && packed.pixels[i].a as int == 255 - (if roughness.None? then 0 else roughness.value.pixels[i].r as int)
  }

  /** The packing loop throws: the chosen size is positive and a present map is smaller than it. */
  predicate PackingFails(metallic: Option<Texture>, roughness: Option<Texture>)
  {
    var (w, h) := PackedSize(metallic, roughness);
    w > 0 && h > 0 && !(Covers(PixelsOf(metallic), w * h) && Covers(PixelsOf(roughness), w * h))
  }

  /** A packed texture is made: the chosen size is positive in both directions. */
  predicate PackingWanted(metallic: Option<Texture>, roughness: Option<Texture>)
  {
    var (w, h) := PackedSize(metallic, roughness);
    w > 0 && h > 0
  }

  /**
   `ConfigurePbrTextures`: a packed texture only when the chosen size is
   positive in both directions, a normal map only when its file exists.
   */
  method ConfigurePbrTextures(engine: Engine, normalPath: string, metallicPath: string, roughnessPath: string)
    returns (r: Result<PbrTextures>)
    ensures var metallic := OptionalMap(engine, metallicPath);
      var roughness := OptionalMap(engine, roughnessPath);
      && (r.Err? <==> PackingFails(metallic, roughness))
      && (r.Err? ==> r.fault == IndexOutOfRange)
      && (r.Ok? ==> (r.value.metallicGloss.Some? <==> PackingWanted(metallic, roughness)))
      && (r.Ok? && r.value.metallicGloss.Some? ==> IsPacked(r.value.metallicGloss.value, metallic, roughness))
      && (metallic.None? && roughness.None? ==> r.Ok? && r.value.metallicGloss.None?)
      && (r.Ok? ==> r.value.bump == OptionalMap(engine, normalPath))
  {
    var metallic := OptionalMap(engine, metallicPath);
    var roughness := OptionalMap(engine, roughnessPath);
    var (w, h) := PackedSize(metallic, roughness);
    var packed: Option<Texture> := None;
    if w > 0 && h > 0 {
      var colors :- PackMetallicRoughness(w * h, PixelsOf(metallic), PixelsOf(roughness));
      packed := Some(Texture(w, h, colors));
    }
    return Ok(PbrTextures(packed, OptionalMap(engine, normalPath)));
  }

  /** `SetTexture` of whatever `ConfigurePbrTextures` produced. */
  function BindPbrTextures(material: Material, pbr: PbrTextures): (r: Material)
    ensures r.shader == material.shader && r.renderQueue == material.renderQueue
    ensures r.textures.Keys == material.textures.Keys
      + (if pbr.metallicGloss.Some? then {"_MetallicGlossMap"} else {})
      + (if pbr.bump.Some? then {"_BumpMap"} else {})
    ensures pbr.metallicGloss.Some? ==> r.textures["_MetallicGlossMap"] == pbr.metallicGloss.value
    ensures pbr.bump.Some? ==> r.textures["_BumpMap"] == pbr.bump.value
    ensures forall slot :: slot in material.textures && slot != "_MetallicGlossMap" && slot != "_BumpMap" ==>
      r.textures[slot] == material.textures[slot]
  {
    var withGloss := if pbr.metallicGloss.Some? then material.textures["_MetallicGlossMap" := pbr.metallicGloss.value] else material.textures;
    var withBump := if pbr.bump.Some? then withGloss["_BumpMap" := pbr.bump.value] else withGloss;
    material.(textures := withBump)
  }

  /**
   What a prepared material holds once its template is found: the texture
   in the main slot and, with PBR textures, the packed map exactly when the
   packed size is positive and the normal map exactly when its file exists.
   Only these slots are bound. When the main slot is one of the PBR slots
   the later binding wins, so the statements about slots are made for a
   main slot apart from them.
   */
  predicate HoldsTextures(material: Material, mainSlot: string, texture: Texture,
                          withPbrTextures: bool, normal: Option<Texture>, metallic: Option<Texture>, roughness: Option<Texture>)
  {
    && mainSlot in material.textures
    && (mainSlot != "_MetallicGlossMap" && mainSlot != "_BumpMap" ==>
          && material.textures[mainSlot] == texture
          && (!withPbrTextures ==> material.textures.Keys == {mainSlot})
          && (withPbrTextures ==>
                && ("_BumpMap" in material.textures <==> normal.Some?)
                && (normal.Some? ==> material.textures["_BumpMap"] == normal.value)
                && ("_MetallicGlossMap" in material.textures <==> PackingWanted(metallic, roughness))
                && ("_MetallicGlossMap" in material.textures ==>
                      IsPacked(material.textures["_MetallicGlossMap"], metallic, roughness))
                && material.textures.Keys <= {mainSlot, "_MetallicGlossMap", "_BumpMap"}))
  }

  /**
   The shared second half of `PrepareBodyMaterial` and
   `PrepareOutfitMaterial`: the template material with the texture read from
   `texturePath` in the main slot, then, when asked, the PBR maps.
   */
  method DressMaterial(engine: Engine, template: MaterialTemplate, texturePath: string,
                       withPbrTextures: bool, normalPath: string, metallicPath: string, roughnessPath: string)
    returns (r: Result<Material>)
    ensures r.Err? <==>
      || texturePath !in engine.files
      || (withPbrTextures && PackingFails(OptionalMap(engine, metallicPath), OptionalMap(engine, roughnessPath)))
    ensures texturePath !in engine.files ==> r == Err(FileNotFound(texturePath))
    ensures r.Ok? ==> r.value.shader == FromTemplate(template) && r.value.renderQueue == None
    ensures r.Ok? ==> HoldsTextures(r.value, engine.mainTextureSlot, engine.files[texturePath], withPbrTextures,
                                    OptionalMap(engine, normalPath), OptionalMap(engine, metallicPath), OptionalMap(engine, roughnessPath))
  {
    var texture :- LoadTexture(engine, texturePath);
    var material := Material(FromTemplate(template), map[engine.mainTextureSlot := texture], None);
    if withPbrTextures {
      var pbr :- ConfigurePbrTextures(engine, normalPath, metallicPath, roughnessPath);
      material := BindPbrTextures(material, pbr);
    }
    return Ok(material);
  }

  /**
   `PrepareBodyMaterial`: a copy of the body template (the PBR one when PBR
   textures are wanted) with the avatar's texture as main texture, plus the
   avatar's PBR maps. Null when the template is missing.
   */
  method PrepareBodyMaterial(engine: Engine, dataDir: string, avatarCode: string, withPbrTextures: bool)
    returns (r: Result<Option<Material>>)
    ensures var template := if withPbrTextures then BodyPbr else Body;
      var texturePath := FullbodyStorage.AvatarFile(dataDir, avatarCode, FullbodyStorage.AvatarFileType.Texture);
      var normal := OptionalMap(engine, FullbodyStorage.AvatarFile(dataDir, avatarCode, FullbodyStorage.AvatarFileType.NormalMap));
      var metallic := OptionalMap(engine, FullbodyStorage.AvatarFile(dataDir, avatarCode, FullbodyStorage.AvatarFileType.MetallnessMap));
      var roughness := OptionalMap(engine, FullbodyStorage.AvatarFile(dataDir, avatarCode, FullbodyStorage.AvatarFileType.RoughnessMap));
      && (template !in engine.templates ==> r == Ok(None))
      && (template in engine.templates && texturePath !in engine.files ==> r == Err(FileNotFound(texturePath)))
      && (r.Err? <==> template in engine.templates
                      && (texturePath !in engine.files || (withPbrTextures && PackingFails(metallic, roughness))))
      && (r.Ok? && r.value.Some? ==>
            && r.value.value.shader == FromTemplate(template)
            && r.value.value.renderQueue == None
            && HoldsTextures(r.value.value, engine.mainTextureSlot, engine.files[texturePath], withPbrTextures, normal, metallic, roughness))
      && (template in engine.templates && r.Ok? ==> r.value.Some?)
  {
    var template := if withPbrTextures then BodyPbr else Body;
    if template !in engine.templates {
      return Ok(None);
    }
    var material :- DressMaterial(engine, template,
      FullbodyStorage.AvatarFile(dataDir, avatarCode, FullbodyStorage.AvatarFileType.Texture), withPbrTextures,
      FullbodyStorage.AvatarFile(dataDir, avatarCode, FullbodyStorage.AvatarFileType.NormalMap),
      FullbodyStorage.AvatarFile(dataDir, avatarCode, FullbodyStorage.AvatarFileType.MetallnessMap),
      FullbodyStorage.AvatarFile(dataDir, avatarCode, FullbodyStorage.AvatarFileType.RoughnessMap));
    return Ok(Some(material));
  }

  /**
   `PrepareOutfitMaterial`: a copy of the outfit template with the outfit's
   texture as main texture, plus the outfit's PBR maps. When the template is
   missing the coroutine stops without a result (null).
   */
  method PrepareOutfitMaterial(engine: Engine, outfitDir: string, outfitName: string, withPbrTextures: bool)
    returns (r: Result<Option<Material>>)
    ensures var texturePath := FullbodyStorage.OutfitFileInDir(outfitDir, outfitName, FullbodyStorage.OutfitFileType.Texture);
      var normal := OptionalMap(engine, FullbodyStorage.OutfitFileInDir(outfitDir, outfitName, FullbodyStorage.OutfitFileType.NormalMap));
      var metallic := OptionalMap(engine, FullbodyStorage.OutfitFileInDir(outfitDir, outfitName, FullbodyStorage.OutfitFileType.MetallnessMap));
      var roughness := OptionalMap(engine, FullbodyStorage.OutfitFileInDir(outfitDir, outfitName, FullbodyStorage.OutfitFileType.RoughnessMap));
      && (Outfit !in engine.templates ==> r == Ok(None))
      && (Outfit in engine.templates && texturePath !in engine.files ==> r == Err(FileNotFound(texturePath)))
      && (r.Err? <==> Outfit in engine.templates
                      && (texturePath !in engine.files || (withPbrTextures && PackingFails(metallic, roughness))))
      && (r.Ok? && r.value.Some? ==>
            && r.value.value.shader == FromTemplate(Outfit)
            && r.value.value.renderQueue == None
            && HoldsTextures(r.value.value, engine.mainTextureSlot, engine.files[texturePath], withPbrTextures, normal, metallic, roughness))
      && (Outfit in engine.templates && r.Ok? ==> r.value.Some?)
  {
    if Outfit !in engine.templates {
      return Ok(None);
    }
    var material :- DressMaterial(engine, Outfit,
      FullbodyStorage.OutfitFileInDir(outfitDir, outfitName, FullbodyStorage.OutfitFileType.Texture), withPbrTextures,
      FullbodyStorage.OutfitFileInDir(outfitDir, outfitName, FullbodyStorage.OutfitFileType.NormalMap),
      FullbodyStorage.OutfitFileInDir(outfitDir, outfitName, FullbodyStorage.OutfitFileType.MetallnessMap),
      FullbodyStorage.OutfitFileInDir(outfitDir, outfitName, FullbodyStorage.OutfitFileType.RoughnessMap));
    return Ok(Some(material));
  }
}
