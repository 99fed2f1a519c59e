/**
 The on-disk layout of downloaded fullbody avatars (`FullbodyPersistentStorage`).

 Every path is computed from the data directory, which the model takes as a
 parameter; creating directories on the way is a side effect the model
 drops. Below the data directory the layout is

   avatars/<avatar code>/export_data.json
   avatars/<avatar code>/avatar/<avatar file>
   avatars/<avatar code>/<haircut or outfit name>/<asset file>
   common_files/<relative path>
 */
module FullbodyStorage {
  import Text
  import Paths

  /** The files the service produces for the avatar itself. */
  datatype AvatarFileType =
    | Model | Texture | NormalMap | MetallnessMap | RoughnessMap | ExportDataJson | ModelInfo

  /** The files of one outfit. */
  datatype OutfitFileType =
    | Model | Texture | NormalMap | MetallnessMap | RoughnessMap | BodyVisibilityMask

  /**
   The files of one haircut. The SDK's enumeration is not part of this model
   beyond its two named members; `Other` stands for any further value.
   */
  datatype HaircutFileType = Model | Texture | Other

  /** The `avatarFiles` table: it has an entry for every avatar file type. */
  function AvatarFileName(t: AvatarFileType): (r: string)
    ensures r != ""
  {
    match t
    case Model => "model.gltf"
    case Texture => "model.jpg"
    case NormalMap => "normal_map.png"
    case MetallnessMap => "metallic_map.png"
    case RoughnessMap => "roughness_map.png"
    case ExportDataJson => "export_data.json"
    case ModelInfo => "model.json"
  }

  /**
   The `outfitFiles` table of file-name templates, `{0}` standing for the
   outfit name. Every template but the model's is `{0}` followed by a suffix.
   */
  function OutfitTemplate(t: OutfitFileType): string
  {
    if t == OutfitFileType.Model then "model.gltf" else Text.Placeholder + OutfitSuffix(t)
  }

  /** What follows `{0}` in each outfit template (the model's template has no `{0}`). */
  function OutfitSuffix(t: OutfitFileType): string
  {
    match t
    case Model => ""
    case Texture => ".png"
    case NormalMap => "_normal_map.png"
    case MetallnessMap => "_metallic_map.png"
    case RoughnessMap => "_roughness_map.png"
    case BodyVisibilityMask => "_body_visibility_mask.png"
  }

  /** The name of an outfit file: its template with the outfit name filled in. */
  function OutfitFileName(outfitName: string, t: OutfitFileType): (r: string)
    ensures t == OutfitFileType.Model ==> r == "model.gltf"
    ensures t != OutfitFileType.Model ==> r == outfitName + OutfitSuffix(t)
  {
    if t != OutfitFileType.Model then
      SuffixHasNoFormatItem(t);
      Text.FormatLeadingPlaceholder(OutfitSuffix(t), outfitName);
      Text.Format(OutfitTemplate(t), outfitName)
    else
      Text.Format(OutfitTemplate(t), outfitName)
  }

  /** No template suffix holds a further format item, so only the leading `{0}` is replaced. */
  lemma SuffixHasNoFormatItem(t: OutfitFileType)
    ensures Text.NoFormatItem(OutfitSuffix(t))
  {
    match t
    case Model =>
    case Texture => assert Text.NoFormatItem(".png");
    case NormalMap => assert Text.NoFormatItem("_normal_map.png");
    case MetallnessMap => assert Text.NoFormatItem("_metallic_map.png");
    case RoughnessMap => assert Text.NoFormatItem("_roughness_map.png");
    case BodyVisibilityMask => assert Text.NoFormatItem("_body_visibility_mask.png");
  }

  /** `GetHaircutFileName`: unknown file types log an error and give the empty name. */
  function HaircutFileName(haircutName: string, t: HaircutFileType): (r: string)
    ensures t == HaircutFileType.Model ==> r == "model.gltf"
    ensures t == HaircutFileType.Texture ==> r == haircutName + ".png"
    ensures t == HaircutFileType.Other <==> r == ""
  {
    match t
    case Model => "model.gltf"
    case Texture =>
      assert "{0}.png" == Text.Placeholder + ".png";
      Text.FormatLeadingPlaceholder(".png", haircutName);
      Text.Format("{0}.png", haircutName)
    case Other => ""
  }

  /** `GetAvatarsDirectory`. */
  function AvatarsDirectory(dataDir: string): (r: string)
    ensures r == (if dataDir == "" then "avatars" else dataDir + "/avatars")
  {
    Paths.Combine(dataDir, "avatars")
  }

  /** `GetCommonFilesDirectory`: the directory `GetCommonFilePath` resolves against, beside the avatars directory. */
  function CommonFilesDirectory(dataDir: string): (r: string)
    ensures r == (if dataDir == "" then "common_files" else dataDir + "/common_files")
    ensures r != AvatarsDirectory(dataDir)
  {
    Paths.Combine(dataDir, "common_files")
  }

  /** `GetAvatarDirectory`: one directory per avatar code inside the avatars directory. */
  function AvatarDirectory(dataDir: string, avatarCode: string): (r: string)
    ensures r == AvatarsDirectory(dataDir) + (if avatarCode == "" then "" else "/" + avatarCode)
  {
    Paths.Combine(AvatarsDirectory(dataDir), avatarCode)
  }

  /** `GetAvatarFile`: the export data sits beside the `avatar` sub-directory, every other file in it. */
  function AvatarFile(dataDir: string, avatarCode: string, t: AvatarFileType): (r: string)
    ensures t == ExportDataJson ==> r == AvatarDirectory(dataDir, avatarCode) + "/export_data.json"
    ensures t != ExportDataJson ==> r == AvatarDirectory(dataDir, avatarCode) + "/avatar/" + AvatarFileName(t)
  {
    var dir := AvatarDirectory(dataDir, avatarCode);
    if t == ExportDataJson then
      Paths.Combine(dir, AvatarFileName(t))
    else
      Paths.CombineThree(dir, "avatar", AvatarFileName(t));
      Paths.CombineAll([dir, "avatar", AvatarFileName(t)])
  }

  /**
   `GetHaircutFile`: the three-part combine of the avatar directory, the
   haircut name and the file name is `GetHaircutFileInDir` applied to the
   haircut's directory inside the avatar directory.
   */
  function HaircutFile(dataDir: string, avatarCode: string, haircutName: string, t: HaircutFileType): (r: string)
    ensures r == HaircutFileInDir(Paths.Combine(AvatarDirectory(dataDir, avatarCode), haircutName), haircutName, t)
  {
    Paths.CombineThree(AvatarDirectory(dataDir, avatarCode), haircutName, HaircutFileName(haircutName, t));
    Paths.CombineAll([AvatarDirectory(dataDir, avatarCode), haircutName, HaircutFileName(haircutName, t)])
  }

  /** `GetHaircutFileInDir`. */
  function HaircutFileInDir(haircutDir: string, haircutName: string, t: HaircutFileType): (r: string)
    ensures t == HaircutFileType.Other ==> r == haircutDir
    ensures t != HaircutFileType.Other ==> r == Paths.Combine(haircutDir, HaircutFileName(haircutName, t))
    ensures t == HaircutFileType.Texture && haircutDir != "" ==> r == haircutDir + "/" + haircutName + ".png"
  {
    Paths.Combine(haircutDir, HaircutFileName(haircutName, t))
  }

  /**
   `GetOutfitFile`: the three-part combine of the avatar directory, the
   outfit name and the file name is `GetOutfitFileInDir` applied to the
   outfit's directory inside the avatar directory.
   */
  function OutfitFile(dataDir: string, avatarCode: string, outfitName: string, t: OutfitFileType): (r: string)
    ensures r == OutfitFileInDir(Paths.Combine(AvatarDirectory(dataDir, avatarCode), outfitName), outfitName, t)
  {
    Paths.CombineThree(AvatarDirectory(dataDir, avatarCode), outfitName, OutfitFileName(outfitName, t));
    Paths.CombineAll([AvatarDirectory(dataDir, avatarCode), outfitName, OutfitFileName(outfitName, t)])
  }

  /** `GetOutfitFileInDir`. */
  function OutfitFileInDir(outfitDir: string, outfitName: string, t: OutfitFileType): (r: string)
    ensures outfitDir != "" ==> r == outfitDir + "/" + OutfitFileName(outfitName, t)
  {
    Paths.Combine(outfitDir, OutfitFileName(outfitName, t))
  }

  /** `GetCommonFilePath`. */
  function CommonFilePath(dataDir: string, relativePath: string): (r: string)
    ensures r == (if dataDir == "" then "common_files" else dataDir + "/common_files")
      + (if relativePath == "" then "" else "/" + relativePath)
  {
    Paths.Combine(CommonFilesDirectory(dataDir), relativePath)
  }

  // ---------------------------------------------------------------------------
  // Properties of the layout

  /** No two avatar file types share a file name. */
  lemma AvatarFileNamesDistinct(t1: AvatarFileType, t2: AvatarFileType)
    requires AvatarFileName(t1) == AvatarFileName(t2)
    ensures t1 == t2
  {
  }

  /** Different avatar codes get different avatar directories. */
  lemma AvatarDirectoriesDistinct(dataDir: string, code1: string, code2: string)
    requires AvatarDirectory(dataDir, code1) == AvatarDirectory(dataDir, code2)
    ensures code1 == code2
  {
    Paths.CombineInjective(AvatarsDirectory(dataDir), code1, code2);
  }

  /** Within one avatar, no two avatar file types resolve to the same path. */
  lemma AvatarFilesDistinct(dataDir: string, avatarCode: string, t1: AvatarFileType, t2: AvatarFileType)
    requires AvatarFile(dataDir, avatarCode, t1) == AvatarFile(dataDir, avatarCode, t2)
    ensures t1 == t2
  {
    var dir := AvatarDirectory(dataDir, avatarCode);
    var rest1 := AvatarFileTail(t1);
    var rest2 := AvatarFileTail(t2);
    AvatarFileSplit(dataDir, avatarCode, t1);
    AvatarFileSplit(dataDir, avatarCode, t2);
    Paths.PrefixCancel(dir + [Paths.Separator], rest1, rest2);
    AvatarFileTailInjective(t1, t2);
  }

  /** The part of an avatar file's path below the avatar directory, after the separator. */
  function AvatarFileTail(t: AvatarFileType): string
  {
    if t == ExportDataJson then "export_data.json" else "avatar/" + AvatarFileName(t)
  }

  /** An avatar file is its avatar directory, a separator and the type's tail. */
  lemma AvatarFileSplit(dataDir: string, avatarCode: string, t: AvatarFileType)
    ensures AvatarFile(dataDir, avatarCode, t) == AvatarDirectory(dataDir, avatarCode) + [Paths.Separator] + AvatarFileTail(t)
  {
    var dir := AvatarDirectory(dataDir, avatarCode);
    if t == ExportDataJson {
      SeparatorThen("export_data.json");
    } else {
      SeparatorThen("avatar/");
      assert dir + "/avatar/" + AvatarFileName(t) == dir + [Paths.Separator] + ("avatar/" + AvatarFileName(t));
    }
  }

  /**
   A literal starting with the separator is the separator followed by the
   rest. The body is empty: the lemma only gives the solver this unfolding
   of string literals as a fact of its own.
   */
  lemma SeparatorThen(rest: string)
    ensures "/" + rest == [Paths.Separator] + rest
  {
  }

  /** Different avatar file types have different tails. */
  lemma AvatarFileTailInjective(t1: AvatarFileType, t2: AvatarFileType)
    requires AvatarFileTail(t1) == AvatarFileTail(t2)
    ensures t1 == t2
  {
    assert (t1 == ExportDataJson) <==> AvatarFileTail(t1)[0] == 'e';
    assert (t2 == ExportDataJson) <==> AvatarFileTail(t2)[0] == 'e';
    if t1 != ExportDataJson {
      Paths.PrefixCancel("avatar/", AvatarFileName(t1), AvatarFileName(t2));
      AvatarFileNamesDistinct(t1, t2);
    }
  }

  /**
   Avatars whose codes are single path components never share a file: the
   path determines both the avatar code and the file type.
   */
  lemma AvatarFilesApart(dataDir: string, code1: string, code2: string, t1: AvatarFileType, t2: AvatarFileType)
    requires code1 != "" && code2 != ""
    requires Paths.Separator !in code1 && Paths.Separator !in code2
    ensures AvatarFile(dataDir, code1, t1) == AvatarFile(dataDir, code2, t2) <==> code1 == code2 && t1 == t2
  {
    if AvatarFile(dataDir, code1, t1) == AvatarFile(dataDir, code2, t2) {
      var base := AvatarsDirectory(dataDir) + "/";
      var rest1 := AvatarFileBelowCode(dataDir, code1, t1);
      var rest2 := AvatarFileBelowCode(dataDir, code2, t2);
      Paths.PrefixCancel(base, code1 + [Paths.Separator] + rest1, code2 + [Paths.Separator] + rest2);
      Paths.FirstComponent(code1, rest1, code2, rest2);
      AvatarFilesDistinct(dataDir, code1, t1, t2);
    }
  }

  /** An avatar file is the avatars directory, the code, and a part that depends on the type alone. */
  lemma AvatarFileBelowCode(dataDir: string, code: string, t: AvatarFileType) returns (rest: string)
    requires code != ""
    ensures AvatarFile(dataDir, code, t) == AvatarsDirectory(dataDir) + "/" + (code + [Paths.Separator] + rest)
  {
    rest := AvatarFileTail(t);
    AvatarFileSplit(dataDir, code, t);
    AvatarDirectoryBelowAvatars(dataDir, code);
    Paths.Nest(AvatarFile(dataDir, code, t), AvatarDirectory(dataDir, code), AvatarsDirectory(dataDir) + "/", code, rest);
  }

  /** A non-empty code's directory is the avatars directory, a separator and the code. */
  lemma AvatarDirectoryBelowAvatars(dataDir: string, code: string)
    requires code != ""
    ensures AvatarDirectory(dataDir, code) == AvatarsDirectory(dataDir) + "/" + code
  {
    assert AvatarsDirectory(dataDir) + ("/" + code) == AvatarsDirectory(dataDir) + "/" + code;
  }

  /** For one outfit, every file type has its own file name. */
  lemma OutfitFileNamesDistinct(outfitName: string, t1: OutfitFileType, t2: OutfitFileType)
    requires OutfitFileName(outfitName, t1) == OutfitFileName(outfitName, t2)
    ensures t1 == t2
  {
    var n1 := OutfitFileName(outfitName, t1);
    var n2 := OutfitFileName(outfitName, t2);
    if t1 != OutfitFileType.Model && t2 != OutfitFileType.Model {
      Paths.PrefixCancel(outfitName, OutfitSuffix(t1), OutfitSuffix(t2));
    } else if t1 != t2 {
      var named := if t1 == OutfitFileType.Model then t2 else t1;
      OutfitFileNameIsPng(outfitName, named);
      assert false;
    }
  }

  /** For one haircut, the model and the texture have different file names, and both differ from the unknown type's. */
  lemma HaircutFileNamesDistinct(haircutName: string, t1: HaircutFileType, t2: HaircutFileType)
    requires HaircutFileName(haircutName, t1) == HaircutFileName(haircutName, t2)
    ensures t1 == t2
  {
    if t1 == HaircutFileType.Model && t2 == HaircutFileType.Texture {
      PngNotGltf(haircutName);
    } else if t1 == HaircutFileType.Texture && t2 == HaircutFileType.Model {
      PngNotGltf(haircutName);
    }
  }

  /** A name ending in `.png` is never `model.gltf`. */
  lemma PngNotGltf(name: string)
    ensures name + ".png" != "model.gltf"
  {
    var n := name + ".png";
    if |n| == |"model.gltf"| {
      assert n[|n| - 1] == 'g' && "model.gltf"[9] == 'f';
    }
  }

  /** Every outfit file but the model is a PNG image. */
  lemma OutfitFileNameIsPng(outfitName: string, t: OutfitFileType)
    requires t != OutfitFileType.Model
    ensures var n := OutfitFileName(outfitName, t); |n| >= 4 && n[|n| - 4..] == ".png"
  {
    var suffix := OutfitSuffix(t);
    assert suffix[|suffix| - 4..] == ".png";
  }

  /** Every type except the model has the outfit name in its file name. */
  lemma OutfitFileNameMentionsOutfit(outfitName: string, t: OutfitFileType)
    requires t != OutfitFileType.Model
    ensures outfitName <= OutfitFileName(outfitName, t)
    ensures OutfitFileName(outfitName, t)[|outfitName|..] != ""
  {
  }

  /**
   Outfits of one avatar whose names are single path components never share
   a file: the path determines both the outfit and the file type.
   */
  lemma OutfitFilesApart(dataDir: string, avatarCode: string, name1: string, name2: string, t1: OutfitFileType, t2: OutfitFileType)
    requires name1 != "" && name2 != ""
    requires Paths.Separator !in name1 && Paths.Separator !in name2
    ensures OutfitFile(dataDir, avatarCode, name1, t1) == OutfitFile(dataDir, avatarCode, name2, t2) <==> name1 == name2 && t1 == t2
  {
    if OutfitFile(dataDir, avatarCode, name1, t1) == OutfitFile(dataDir, avatarCode, name2, t2) {
      var dir := AvatarDirectory(dataDir, avatarCode);
      var f1 := OutfitFileName(name1, t1);
      var f2 := OutfitFileName(name2, t2);
      OutfitFileBelowAvatar(dir, name1, f1);
      OutfitFileBelowAvatar(dir, name2, f2);
      Paths.PrefixCancel(dir + "/", name1 + [Paths.Separator] + f1, name2 + [Paths.Separator] + f2);
      Paths.FirstComponent(name1, f1, name2, f2);
      OutfitFileNamesDistinct(name1, t1, t2);
    }
  }

  /** Common files never lie inside the avatars directory. */
  lemma CommonFilesOutsideAvatars(dataDir: string, relativePath: string)
    ensures !(AvatarsDirectory(dataDir) + "/" <= CommonFilePath(dataDir, relativePath))
    ensures CommonFilePath(dataDir, relativePath) != AvatarsDirectory(dataDir)
  {
    var p := CommonFilePath(dataDir, relativePath);
    var k := if dataDir == "" then 0 else |dataDir| + 1;
    assert p[k] == 'c';
    assert (AvatarsDirectory(dataDir) + "/")[k] == 'a';
  }

  /** Splits a path below the avatar directory into the asset's directory name and its file name. */
  lemma OutfitFileBelowAvatar(dir: string, name: string, file: string)
    requires dir != "" && name != "" && file != ""
    ensures Paths.Combine(Paths.Combine(dir, name), file) == dir + "/" + (name + [Paths.Separator] + file)
  {
  }
}
