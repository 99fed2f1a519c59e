# Fullbody avatar sample: storage layout, materials, animation panel, proximity controller

A Dafny model of the four self-contained pieces of logic in the hololens
avatar sample, a Unity app that shows a fullbody avatar produced by the
Avatar SDK cloud service:

- **Persistent storage layout** (`FullbodyStorage`, `storage.dfy`). This is where a downloaded
  avatar's files go below the data directory: `avatars/<code>/avatar/<file>`,
  `avatars/<code>/export_data.json`, `avatars/<code>/<haircut or outfit>/<file>`
  and `common_files/<path>`. It covers the `avatarFiles` and `outfitFiles` tables and the `{0}` outfit-name templates.
  The model treats `Path.Combine` as a `/` join that skips empty components (`Paths`, `paths.dfy`).
- **Material adjuster** (`MaterialAdjuster`, `materials.dfy`). It has these parts:
  - the haircut-name→shader table;
  - the fallback to the Standard-shader material when a lit haircut shader cannot be found;
  - the loop that copies a body-visibility mask's red channel into the body texture's alpha;
  - the loop that packs a metallic map and a roughness map into one texture (rgb = metallic red, alpha = 255 − roughness red);
  - the body, hair and outfit material assembly around them.
  The engine becomes a value: decoded image files keyed by path, available template materials and shaders, and the main-texture property name.
- **Animation panel** (`AnimationManager`, `animation.dfy`). It covers:
  - previous/next cycling with wrap-around;
  - the caption that shows the animation name with `_` as a space;
  - parsing of the `human_bones` resource (`bone,human` lines separated by `\r\n`);
  - the choice of parent index for each skeleton bone.
- **Proximity controller** (`AvatarController`, `controller.dfy`). This is the per-frame transition of the two Animator flags `isWalking` and `isReachingOut`, driven by whether the avatar is close.

Exceptions the C# code can raise become `Err` faults of `Results.Result` (`results.dfy`): an index out of range, a null dereference, or a file that does not exist. A C# `null` result becomes `None`.

## Model

| member | source | states |
|---|---|---|
| FullbodyStorage.AvatarFileName | Assets/itseez3d/avatar_sdk/sdk_core/scripts/storage/FullbodyPersistentStorage.cs:20-29 | the avatar file table gives every avatar file type a non-empty file name |
| FullbodyStorage.AvatarFileNamesDistinct | Assets/itseez3d/avatar_sdk/sdk_core/scripts/storage/FullbodyPersistentStorage.cs:20-29 | no two avatar file types share a file name |
| FullbodyStorage.OutfitFileName | Assets/itseez3d/avatar_sdk/sdk_core/scripts/storage/FullbodyPersistentStorage.cs:31-39 | the model file is `model.gltf` whatever the outfit; every other file name is the outfit name followed by its template's text after `{0}` |
| FullbodyStorage.SuffixHasNoFormatItem | Assets/itseez3d/avatar_sdk/sdk_core/scripts/storage/FullbodyPersistentStorage.cs:34-38 | after the leading `{0}`, no outfit template holds another format item, so the outfit name is inserted exactly once |
| FullbodyStorage.OutfitFileNameIsPng | Assets/itseez3d/avatar_sdk/sdk_core/scripts/storage/FullbodyPersistentStorage.cs:34-38 | every outfit file except the model ends in `.png` |
| FullbodyStorage.OutfitFileNameMentionsOutfit | Assets/itseez3d/avatar_sdk/sdk_core/scripts/storage/FullbodyPersistentStorage.cs:34-38 | every non-model outfit file name starts with the outfit name and has a non-empty suffix after it |
| FullbodyStorage.OutfitFileNamesDistinct | Assets/itseez3d/avatar_sdk/sdk_core/scripts/storage/FullbodyPersistentStorage.cs:31-39 | for one outfit, different file types give different file names |
| FullbodyStorage.HaircutFileName | Assets/itseez3d/avatar_sdk/sdk_core/scripts/storage/FullbodyPersistentStorage.cs:89-103 | the model is `model.gltf` and the texture `<haircut>.png`; the name is empty exactly for a type other than model and texture |
| FullbodyStorage.HaircutFileNamesDistinct | Assets/itseez3d/avatar_sdk/sdk_core/scripts/storage/FullbodyPersistentStorage.cs:89-103 | for one haircut, different file types give different file names |
| FullbodyStorage.AvatarsDirectory | Assets/itseez3d/avatar_sdk/sdk_core/scripts/storage/FullbodyPersistentStorage.cs:41-44 | the avatars directory is `<data>/avatars` (`avatars` for an empty data directory) |
| FullbodyStorage.CommonFilesDirectory | Assets/itseez3d/avatar_sdk/sdk_core/scripts/storage/FullbodyPersistentStorage.cs:46-49 | the common files directory is `<data>/common_files` (`common_files` for an empty data directory), never the avatars directory |
| FullbodyStorage.AvatarDirectory | Assets/itseez3d/avatar_sdk/sdk_core/scripts/storage/FullbodyPersistentStorage.cs:51-54 | an avatar's directory is the avatars directory followed by `/<code>` (just the avatars directory for an empty code) |
| FullbodyStorage.AvatarDirectoriesDistinct | Assets/itseez3d/avatar_sdk/sdk_core/scripts/storage/FullbodyPersistentStorage.cs:51-54 | different avatar codes get different directories |
| FullbodyStorage.AvatarFile | Assets/itseez3d/avatar_sdk/sdk_core/scripts/storage/FullbodyPersistentStorage.cs:56-62 | the export data is `<avatar dir>/export_data.json`; every other type is `<avatar dir>/avatar/<table name>` |
| FullbodyStorage.AvatarFilesDistinct | Assets/itseez3d/avatar_sdk/sdk_core/scripts/storage/FullbodyPersistentStorage.cs:56-62 | within one avatar, different file types resolve to different paths |
| FullbodyStorage.AvatarFilesApart | Assets/itseez3d/avatar_sdk/sdk_core/scripts/storage/FullbodyPersistentStorage.cs:51-62 | for codes that are single non-empty path components, two avatar files have the same path exactly when they have the same code and the same file type |
| FullbodyStorage.HaircutFileInDir | Assets/itseez3d/avatar_sdk/sdk_core/scripts/storage/FullbodyPersistentStorage.cs:69-72 | for a non-empty directory the texture is `<dir>/<haircut>.png`; an unknown type yields the directory itself |
| FullbodyStorage.HaircutFile | Assets/itseez3d/avatar_sdk/sdk_core/scripts/storage/FullbodyPersistentStorage.cs:64-67 | `GetHaircutFile` is `GetHaircutFileInDir` applied to `<avatar dir>/<haircut>`, for every avatar, haircut and file type |
| FullbodyStorage.OutfitFileInDir | Assets/itseez3d/avatar_sdk/sdk_core/scripts/storage/FullbodyPersistentStorage.cs:79-82 | for a non-empty directory an outfit file is `<dir>/<outfit file name>` |
| FullbodyStorage.OutfitFile | Assets/itseez3d/avatar_sdk/sdk_core/scripts/storage/FullbodyPersistentStorage.cs:74-77 | `GetOutfitFile` is `GetOutfitFileInDir` applied to `<avatar dir>/<outfit>`, for every avatar, outfit and file type |
| FullbodyStorage.OutfitFilesApart | Assets/itseez3d/avatar_sdk/sdk_core/scripts/storage/FullbodyPersistentStorage.cs:74-77 | for outfit names that are single non-empty path components, two outfit files of one avatar have the same path exactly when they have the same outfit name and the same file type |
| FullbodyStorage.CommonFilePath | Assets/itseez3d/avatar_sdk/sdk_core/scripts/storage/FullbodyPersistentStorage.cs:84-87 | a common file is `<data>/common_files/<relative path>`, with empty components skipped |
| FullbodyStorage.CommonFilesOutsideAvatars | Assets/itseez3d/avatar_sdk/sdk_core/scripts/storage/FullbodyPersistentStorage.cs:41-49 | a common file never lies inside, or equals, the avatars directory |
| Paths.Combine | Assets/itseez3d/avatar_sdk/sdk_core/scripts/storage/FullbodyPersistentStorage.cs:53 | a combined path starts with its first component and ends with its second |
| Paths.CombineAll | Assets/itseez3d/avatar_sdk/sdk_core/scripts/storage/FullbodyPersistentStorage.cs:61 | the several-component combine gives the empty path exactly when every component is empty |
| Paths.CombineAllAppend | Assets/itseez3d/avatar_sdk/sdk_core/scripts/storage/FullbodyPersistentStorage.cs:66 | combining several components at once equals combining them one at a time |
| Paths.CombineInjective | Assets/itseez3d/avatar_sdk/sdk_core/scripts/storage/FullbodyPersistentStorage.cs:53 | with the base fixed, different components give different paths |
| Text.Format | Assets/itseez3d/avatar_sdk/sdk_core/scripts/storage/FullbodyPersistentStorage.cs:76 | a template without format items (no `{` and no `}`) formats to itself |
| Text.FormatLeadingPlaceholder | Assets/itseez3d/avatar_sdk/sdk_core/scripts/storage/FullbodyPersistentStorage.cs:96 | `{0}` followed by plain text formats to the argument followed by that text |
| MaterialAdjuster.ShaderSelection | Assets/itseez3d/avatar_sdk/sdk_core/scripts/fullbody/FullbodyMaterialAdjuster.cs:29-54 | a name selects the strands shader exactly when it is in the strands group, the solid shader exactly when it is in the solid group, and Standard exactly when it is in neither |
| MaterialAdjuster.HaircutTableEntries | Assets/itseez3d/avatar_sdk/sdk_core/scripts/fullbody/FullbodyMaterialAdjuster.cs:29-54 | no table entry is Standard, and `generated` maps to the solid shader |
| MaterialAdjuster.LoadTexture | Assets/itseez3d/avatar_sdk/sdk_core/scripts/fullbody/FullbodyMaterialAdjuster.cs:78-79 | reading an image succeeds exactly when its file exists and then gives that file's image; otherwise it fails with file-not-found for that path |
| MaterialAdjuster.StandardHairMaterial | Assets/itseez3d/avatar_sdk/sdk_core/scripts/fullbody/FullbodyMaterialAdjuster.cs:172-187 | null exactly when the haircut template is missing; otherwise a haircut-template material, without a queue override, whose only slots are the main texture and the emission map, both holding the texture |
| MaterialAdjuster.LitHairMaterial | Assets/itseez3d/avatar_sdk/sdk_core/scripts/fullbody/FullbodyMaterialAdjuster.cs:189-220 | a missing shader falls back to the Standard-shader material; a found one gets `_MainTex`, and only the solid one is put in the transparent queue |
| MaterialAdjuster.PrepareHairMaterial | Assets/itseez3d/avatar_sdk/sdk_core/scripts/fullbody/FullbodyMaterialAdjuster.cs:125-141 | fails exactly when the haircut texture file is missing; any material it builds carries that texture |
| MaterialAdjuster.HairMaterialChoice | Assets/itseez3d/avatar_sdk/sdk_core/scripts/fullbody/FullbodyMaterialAdjuster.cs:132-140 | strands-group and solid-group haircuts get their lit shader material when the shader exists and the Standard-shader material otherwise; any other name gets the Standard-shader material |
| MaterialAdjuster.MergeMaskAlpha | Assets/itseez3d/avatar_sdk/sdk_core/scripts/fullbody/FullbodyMaterialAdjuster.cs:103-108 | succeeds exactly when the mask has at least as many pixels as the body; then each pixel keeps the body's r, g, b and takes the mask's red as alpha |
| MaterialAdjuster.AlphaFromMaskIdempotent | Assets/itseez3d/avatar_sdk/sdk_core/scripts/fullbody/FullbodyMaterialAdjuster.cs:105-106 | applying the same mask a second time changes nothing |
| MaterialAdjuster.PrepareTransparentBodyTexture | Assets/itseez3d/avatar_sdk/sdk_core/scripts/fullbody/FullbodyMaterialAdjuster.cs:95-118 | null when the outfit's body visibility mask does not exist; otherwise the mask's size with the merged pixels, failing exactly when the mask is shorter than the body |
| MaterialAdjuster.ByteSubFromMax | Assets/itseez3d/avatar_sdk/sdk_core/scripts/fullbody/FullbodyMaterialAdjuster.cs:266-268 | byte subtraction from 255 never wraps |
| MaterialAdjuster.PackedSize | Assets/itseez3d/avatar_sdk/sdk_core/scripts/fullbody/FullbodyMaterialAdjuster.cs:224-253 | the packed size is the roughness map's when it exists, else the metallic map's, else zero |
| MaterialAdjuster.PackMetallicRoughness | Assets/itseez3d/avatar_sdk/sdk_core/scripts/fullbody/FullbodyMaterialAdjuster.cs:259-269 | succeeds exactly when each present map covers the texture; then r = g = b = metallic red (0 without a metallic map) and alpha = 255 − roughness red (255 without a roughness map) |
| MaterialAdjuster.ConfigurePbrTextures | Assets/itseez3d/avatar_sdk/sdk_core/scripts/fullbody/FullbodyMaterialAdjuster.cs:222-287 | it fails, with an index out of range, exactly when the packed size is positive both ways and a present metallic or roughness map has fewer pixels; otherwise a packed texture is made exactly when that size is positive, and it has that size with r = g = b = metallic red (0 without a metallic map) and alpha = 255 − roughness red (255 without a roughness map) at every pixel; the normal map is returned exactly when its file exists |
| MaterialAdjuster.BindPbrTextures | Assets/itseez3d/avatar_sdk/sdk_core/scripts/fullbody/FullbodyMaterialAdjuster.cs:270-283 | the slots afterwards are the old ones plus `_MetallicGlossMap` for a packed map and `_BumpMap` for a normal map, holding those maps; the shader, queue and every other slot are unchanged |
| MaterialAdjuster.PrepareBodyMaterial | Assets/itseez3d/avatar_sdk/sdk_core/scripts/fullbody/FullbodyMaterialAdjuster.cs:63-93 | null exactly when the body template (PBR or plain) is missing; otherwise it fails exactly when the avatar texture is missing or, with PBR, when a present metallic or roughness map is smaller than the packed size; a built material keeps the template's queue and has the avatar texture in the main slot and, with PBR, the packed map exactly when the packed size is positive and the normal map exactly when its file exists, among the slots this code sets |
| MaterialAdjuster.PrepareOutfitMaterial | Assets/itseez3d/avatar_sdk/sdk_core/scripts/fullbody/FullbodyMaterialAdjuster.cs:143-170 | null exactly when the outfit template is missing; otherwise it fails exactly when the outfit texture is missing or, with PBR, when a present metallic or roughness map is smaller than the packed size; a built material keeps the template's queue and has the outfit texture in the main slot and, with PBR, the packed map exactly when the packed size is positive and the normal map exactly when its file exists, among the slots this code sets |
| MaterialAdjuster.OptionalMap | Assets/itseez3d/avatar_sdk/sdk_core/scripts/fullbody/FullbodyMaterialAdjuster.cs:228-231 | a map is present exactly when its file exists, and is then that file's image |
| MaterialAdjuster.DressMaterial | Assets/itseez3d/avatar_sdk/sdk_core/scripts/fullbody/FullbodyMaterialAdjuster.cs:75-92 | the texture read from its path goes in the main slot and, when asked, the PBR maps are configured and bound; it fails exactly when the texture file is missing (file not found) or the packing loop throws |
| AnimationManager.WrapIndex | Assets/itseez3d/avatar_sdk/samples_core/scripts/AnimationManager.cs:76-84 | from a valid index and a step of at most one, the new index is valid and equals the step taken modulo the count |
| AnimationManager.WrapAround | Assets/itseez3d/avatar_sdk/samples_core/scripts/AnimationManager.cs:78-82 | previous from the first gives the last; next from the last gives the first |
| AnimationManager.NextPrevInverse | Assets/itseez3d/avatar_sdk/samples_core/scripts/AnimationManager.cs:76-84 | next then previous, and previous then next, return to the original index |
| AnimationManager.DisplayName | Assets/itseez3d/avatar_sdk/samples_core/scripts/AnimationManager.cs:86 | the caption has the name's length, every `_` becomes a space, no `_` remains, and every other character of the name stays in place |
| Text.ReplaceChar | Assets/itseez3d/avatar_sdk/samples_core/scripts/AnimationManager.cs:86 | each character equal to the old one becomes the new one, all others stay |
| AnimationManager.DisplayNameIdempotent | Assets/itseez3d/avatar_sdk/samples_core/scripts/AnimationManager.cs:86 | rewriting a caption again changes nothing |
| AnimationManager.PlayCurrent | Assets/itseez3d/avatar_sdk/samples_core/scripts/AnimationManager.cs:70-74 | without an Animator nothing changes; with one the current animation is played, and an out-of-range index fails |
| AnimationManager.ShowCurrent | Assets/itseez3d/avatar_sdk/samples_core/scripts/AnimationManager.cs:85-86 | a present caption shows the current name rewritten; it fails exactly when a caption is present and the index is out of range |
| AnimationManager.ChangeCurrentAnimation | Assets/itseez3d/avatar_sdk/samples_core/scripts/AnimationManager.cs:76-89 | the index moves to the wrapped position; it fails exactly when there is a caption or an Animator and that position is out of range; a caption is written only when one exists, and nothing is played without an Animator; with animations, a valid index and a step of at most one it never fails, and the caption and the played clip name the new current animation |
| AnimationManager.OnPrevAnimation | Assets/itseez3d/avatar_sdk/samples_core/scripts/AnimationManager.cs:60-63 | previous steps back by one, wrapping from the first to the last |
| AnimationManager.OnNextAnimation | Assets/itseez3d/avatar_sdk/samples_core/scripts/AnimationManager.cs:65-68 | next steps forward by one, wrapping from the last to the first |
| AnimationManager.NextThenPrev | Assets/itseez3d/avatar_sdk/samples_core/scripts/AnimationManager.cs:60-68 | pressing next and then previous restores the current animation |
| AnimationManager.CreateAnimator | Assets/itseez3d/avatar_sdk/samples_core/scripts/AnimationManager.cs:39-46 | the Animator is attached and the animation list is kept; the index is left unchanged when valid (otherwise wrapped); a caption stays only if one exists and then shows the current animation's display name; `playing` is untouched when there was no earlier Animator; it fails exactly when there is a caption or an earlier Animator and the wrapped index is out of range |
| AnimationManager.CreateHumanoidAnimator | Assets/itseez3d/avatar_sdk/samples_core/scripts/AnimationManager.cs:48-58 | the Animator is attached, the index is reset to 0 and a caption, only if one exists, shows the first animation; it fails exactly when the description fails or there is a caption and no animation |
| AnimationManager.Lines | Assets/itseez3d/avatar_sdk/samples_core/scripts/AnimationManager.cs:104 | the lines kept are all non-empty |
| Text.JoinSplit | Assets/itseez3d/avatar_sdk/samples_core/scripts/AnimationManager.cs:104 | splitting loses nothing: the parts joined with the separator give back the text |
| Text.Split | Assets/itseez3d/avatar_sdk/samples_core/scripts/AnimationManager.cs:104 | a split always has at least one part, and a text without the separator's first character is a single part |
| Text.RemoveEmpty | Assets/itseez3d/avatar_sdk/samples_core/scripts/AnimationManager.cs:104 | removing empty entries keeps exactly the non-empty parts: every part kept is a non-empty part of the input, every non-empty part is kept, and all parts stay when none is empty; the order is kept, see `Text.RemoveEmptyAppend` |
| Text.RemoveEmptyAppend | Assets/itseez3d/avatar_sdk/samples_core/scripts/AnimationManager.cs:104 | removing empty entries keeps the order: filtering a list with one more part appended is filtering the list and then appending that part if it is non-empty |
| AnimationManager.ParseLines | Assets/itseez3d/avatar_sdk/samples_core/scripts/AnimationManager.cs:105-109 | succeeds exactly when every line has two fields; then it gives one (field 0, field 1) pair per line, in order |
| AnimationManager.ParseHumanBones | Assets/itseez3d/avatar_sdk/samples_core/scripts/AnimationManager.cs:102-110 | a missing resource is a null dereference; otherwise the pairs of the non-empty `\r\n` lines |
| AnimationManager.ParseOneLine | Assets/itseez3d/avatar_sdk/samples_core/scripts/AnimationManager.cs:107-108 | a line `bone,human` splits into exactly those two fields when neither name has a comma or carriage return |
| Text.SplitJoin | Assets/itseez3d/avatar_sdk/samples_core/scripts/AnimationManager.cs:107 | splitting undoes joining when no part holds the separator's first character |
| AnimationManager.ParseRender | Assets/itseez3d/avatar_sdk/samples_core/scripts/AnimationManager.cs:102-110 | reading a `human_bones` text written from a list of pairs gives back exactly that list, in order |
| AnimationManager.FindIndex | Assets/itseez3d/avatar_sdk/samples_core/scripts/AnimationManager.cs:118 | the first position holding the name, or −1 exactly when the name is absent |
| AnimationManager.ParentLink | Assets/itseez3d/avatar_sdk/samples_core/scripts/AnimationManager.cs:118-120 | a parent link exists only for a first position strictly above 0; there is none exactly when the parent is absent or first found at position 0 |
| AnimationManager.ParentLinks | Assets/itseez3d/avatar_sdk/samples_core/scripts/AnimationManager.cs:115-120 | fails with a null dereference exactly when some bone has no parent; otherwise one link per bone |
| AnimationManager.BuildHumanDescription | Assets/itseez3d/avatar_sdk/samples_core/scripts/AnimationManager.cs:91-135 | the description carries the parsed pairs, the bone names and the parent links, and fails exactly when one of them fails |
| AvatarController.Update | Assets/AvatarController.cs:20-38 | after a frame the avatar walks exactly when it is far; reaching out is set exactly when it was set or the avatar was standing at the start of the frame and is close, so it is never set in the frame walking stops and never cleared |
| AvatarController.Fixpoints | Assets/AvatarController.cs:20-38 | standing and reaching out while close, and walking while far, are fixpoints |
| AvatarController.ReachAfterTwoFrames | Assets/AvatarController.cs:26-37 | a walking avatar that comes close stops in the first frame and reaches out in the second |
| AvatarController.ReachingPersists | Assets/AvatarController.cs:34-37 | extending a run in which reaching out was set keeps it set |
| AvatarController.ReachingExactly | Assets/AvatarController.cs:20-38 | after a run, reaching out holds exactly when it held before, or the first frame was close while standing, or two consecutive frames were close |
| AvatarController.WalkingFollowsLastFrame | Assets/AvatarController.cs:26-33 | after a non-empty run the avatar walks exactly when the last frame was far |

## Left out

- `LoadAvatar.cs` as a whole. It fetches a photo and JSON over HTTP, deserialises them and sequences the closed vendor SDK's asynchronous requests; nothing in it is visible apart from that SDK.
- `ComputationParametersController.cs`: it is a thin wrapper over a JSON library whose internals are not part of this model.
- `GetDataDirectory` and `EnsureDirectoryExists`. The data directory is a parameter, and directory creation is a file-system side effect.
- `Path.Combine` platform behaviour: the platform separator, a rooted second component replacing the first, and a first component that already ends in a separator. The model joins with `/` and skips empty components.
- `string.Format` is modelled only for `{0}` items. None of the format strings used has escaped braces or other items.
- MaterialAdjuster.HaircutTableEntries: the run-time duplicate-key check of the C# dictionary initializers is not modelled. This holds for the haircut shader table and the avatar and outfit file tables. The first is written as a map display, the other two as total functions over their enumerations; their 22, 7 and 6 literal keys are pairwise different.
- FullbodyStorage.AvatarFileName: the SDK's `FullbodyAvatarFileType` and `OutfitFileType` enumerations are not part of this model. Both are assumed to hold exactly the keys of the `avatarFiles` and `outfitFiles` tables. So the `KeyNotFoundException` that any further value would raise in `GetAvatarFile`, `GetOutfitFile` and `GetOutfitFileInDir` is not modelled, and `OutfitFileName` assumes the same.
- FullbodyStorage.HaircutFileName: the haircut file-type enumeration beyond `Model` and `Texture` is not part of this model. Every other value is the single case `Other`.
- Image decoding. `LoadImage` is assumed to decode every existing file: a file is its decoded image. A failed decode, `Apply`, `DestroyImmediate`, `UnloadUnusedAssets` and the coroutine frame yields are not modelled.
- MaterialAdjuster.DressMaterial: a model `Material` records only the slots and the queue override this code sets. The textures and render queue that `new Material(template)` copies from the template material are not modelled. The same holds for `PrepareBodyMaterial`, `PrepareOutfitMaterial` and `StandardHairMaterial`. So "exactly when" and "no other slot" speak of the slots this code binds, not of what the template already held.
- MaterialAdjuster.PrepareTransparentBodyTexture: the engine's check in `SetPixels32` that the pixel count matches the mask texture's size is not modelled. Neither is any agreement between a texture's width × height and its pixel count.
- Debug log messages. They have no effect on results.
- AnimationManager.ChangeCurrentAnimation: when the caption or playback throws, the C# field already holds the new index. The model returns only the fault and drops that partial update.
- AnimationManager.CreateHumanoidAnimator: the C# attaches and configures the Animator before `BuildHumanDescription` can throw. It also resets the index to 0 before the caption can throw. On either fault the model returns only the fault and drops the attached Animator and the reset index.
- Animator playback itself, `AddComponent`, root motion and `AvatarBuilder.BuildHumanAvatar`. The model records only whether an Animator is attached and which clip was last asked to play.
- The floating-point part of `BuildHumanDescription`: bind-pose inverses, positions, rotations, scales, the stretch and twist constants, and indexing the bind poses. The model keeps the bone names and the parent index each bone would use.
- The `z < 1.4` distance test and the parameter-name hashing in `Start`. `close` is an input to `Update`, and the initial flags are a parameter.
