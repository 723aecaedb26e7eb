/**
 * Model of the string and merge logic of UnityProject/Assets/Scripts/Editor/AutoAddTexture.cs:
 * turning a file-system path into an asset path, matching texture files by name and
 * extension, finding a companion file by trying extensions in order, pairing metallic
 * and roughness maps, and merging two images' channels.
 *
 * The file system is a parameter: the list a directory search returns and the set of
 * paths that exist. Paths use the Windows separator `\` when combined and accept both `\`
 * and `/` when split. Case-insensitive comparison and `ToLower` cover ASCII letters only.
 */
module AutoAddTexture {
  import opened Base

  // ---------------------------------------------------------------- text

  function LowerChar(c: char): char
  {
    if 'A' <= c <= 'Z' then (c as int + 32) as char else c
  }

  /** `ToLower`, on ASCII letters. */
  function Lower(s: string): (r: string)
    ensures |r| == |s|
  {
    seq(|s|, i requires 0 <= i < |s| => LowerChar(s[i]))
  }

  /** `string.Equals(a, b, OrdinalIgnoreCase)`. */
  predicate EqualsIgnoreCase(a: string, b: string)
  {
    Lower(a) == Lower(b)
  }

  /** `s.EndsWith(suffix, OrdinalIgnoreCase)`. */
  predicate EndsWithIgnoreCase(s: string, suffix: string)
  {
    |suffix| <= |s| && EqualsIgnoreCase(s[|s| - |suffix|..], suffix)
  }

  predicate OccursAt(s: string, pat: string, k: int)
  {
    0 <= k && k + |pat| <= |s| && s[k..k + |pat|] == pat
  }

  /** `s.IndexOf(pat)` searching from position j: the first occurrence at or after j. */
  function IndexOfFrom(s: string, pat: string, j: nat): (r: Option<nat>)
    requires j <= |s|
    ensures r.Some? ==> j <= r.value && OccursAt(s, pat, r.value)
    ensures r.Some? ==> forall k :: j <= k < r.value ==> !OccursAt(s, pat, k)
    ensures r.None? ==> forall k :: j <= k <= |s| ==> !OccursAt(s, pat, k)
    decreases |s| - j
  {
    if OccursAt(s, pat, j) then Some(j)
    else if j == |s| then None
    else IndexOfFrom(s, pat, j + 1)
  }

  /** `s.Replace(pat, "")`: every occurrence, scanning left to right, removed. */
  function RemoveAll(s: string, pat: string): (r: string)
    requires |pat| > 0
    ensures |r| <= |s|
    decreases |s|
  {
    if |s| < |pat| then s
    else if s[..|pat|] == pat then RemoveAll(s[|pat|..], pat)
    else [s[0]] + RemoveAll(s[1..], pat)
  }

  // ---------------------------------------------------------------- asset paths

  const AssetsFolder: string := "Assets/"

  /** `Replace("\\", "/")`. */
  function ForwardSlashes(s: string): (r: string)
    ensures |r| == |s|
    ensures forall i :: 0 <= i < |s| ==> r[i] == (if s[i] == '\\' then '/' else s[i])
  {
    seq(|s|, i requires 0 <= i < |s| => if s[i] == '\\' then '/' else s[i])
  }

  predicate NoBackslash(s: string)
  {
    forall i :: 0 <= i < |s| ==> s[i] != '\\'
  }

  /**
   * `GetRelativeAssetPath`: with backslashes turned into slashes, the path from the first
   * "Assets/" on; `None` (the source's null) when there is none.
   */
  function GetRelativeAssetPath(absolutePath: string): (r: Option<string>)
    ensures var p := ForwardSlashes(absolutePath);
            r.None? <==> forall k :: 0 <= k <= |p| ==> !OccursAt(p, AssetsFolder, k)
    ensures var p := ForwardSlashes(absolutePath);
            r.Some? ==> |r.value| <= |p| && r.value == p[|p| - |r.value|..]
                        && OccursAt(p, AssetsFolder, |p| - |r.value|)
                        && forall k :: 0 <= k < |p| - |r.value| ==> !OccursAt(p, AssetsFolder, k)
    ensures r.Some? ==> |r.value| >= |AssetsFolder| && r.value[..|AssetsFolder|] == AssetsFolder
    ensures r.Some? ==> NoBackslash(r.value)
  {
    var p := ForwardSlashes(absolutePath);
    var index := IndexOfFrom(p, AssetsFolder, 0);
    if index.Some? then
      assert p[index.value..][..|AssetsFolder|] == p[index.value..index.value + |AssetsFolder|];
      Some(p[index.value..])
    else None
  }

  /** An asset path is its own asset path. */
  lemma AssetPathIdempotent(absolutePath: string)
    requires GetRelativeAssetPath(absolutePath).Some?
    ensures var r := GetRelativeAssetPath(absolutePath).value;
            GetRelativeAssetPath(r) == Some(r)
  {
    var r := GetRelativeAssetPath(absolutePath).value;
    assert ForwardSlashes(r) == r;
    assert r[0..|AssetsFolder|] == r[..|AssetsFolder|];
    assert OccursAt(r, AssetsFolder, 0);
    assert r[0..] == r;
  }

  // ---------------------------------------------------------------- file names

  predicate IsSeparator(c: char)
  {
    c == '\\' || c == '/'
  }

  /** The position of the last directory separator. */
  function LastSeparator(s: string): (r: Option<nat>)
    ensures r.Some? ==> r.value < |s| && IsSeparator(s[r.value])
    ensures r.Some? ==> forall k :: r.value < k < |s| ==> !IsSeparator(s[k])
    ensures r.None? ==> forall k :: 0 <= k < |s| ==> !IsSeparator(s[k])
  {
    if s == [] then None
    else if IsSeparator(s[|s| - 1]) then Some(|s| - 1)
    else LastSeparator(s[..|s| - 1])
  }

  /** The position of the last '.'. */
  function LastDot(s: string): (r: Option<nat>)
    ensures r.Some? ==> r.value < |s| && s[r.value] == '.'
    ensures r.Some? ==> forall k :: r.value < k < |s| ==> s[k] != '.'
    ensures r.None? ==> forall k :: 0 <= k < |s| ==> s[k] != '.'
  {
    if s == [] then None
    else if s[|s| - 1] == '.' then Some(|s| - 1)
    else LastDot(s[..|s| - 1])
  }

  /** `Path.GetFileName`: what follows the last separator. */
  function FileName(path: string): string
  {
    match LastSeparator(path)
    case None => path
    case Some(i) => path[i + 1..]
  }

  /** The directory part of a path, as `Path.GetDirectoryName` gives it on a path that uses one
      separator consistently: what precedes the last separator, or "" if there is none. */
  function DirectoryName(path: string): string
  {
    match LastSeparator(path)
    case None => ""
    case Some(i) => path[..i]
  }

  /** `Path.GetFileNameWithoutExtension`: the file name up to its last '.'. */
  function Stem(path: string): string
  {
    var name := FileName(path);
    match LastDot(name)
    case None => name
    case Some(i) => name[..i]
  }

  /** `Path.GetExtension`: the file name from its last '.', empty when there is none or the
      '.' ends the name. */
  function Extension(path: string): string
  {
    var name := FileName(path);
    match LastDot(name)
    case None => ""
    case Some(i) => if i == |name| - 1 then "" else name[i..]
  }

  /** `Path.Combine(dir, name)` for a relative name. */
  function Combine(dir: string, name: string): string
  {
    if dir == [] then name
    else if IsSeparator(dir[|dir| - 1]) then dir + name
    else dir + "\\" + name
  }

  // ---------------------------------------------------------------- texture lookup

  const TextureExtensions: seq<string> := [".png", ".jpg", ".jpeg", ".tga", ".tif", ".tiff"]

  /** The acceptance test of `FindTextureFile`: the file's stem is `baseName + suffix`
      ignoring case, and its lower-cased extension is a texture format. */
  predicate AcceptsTexture(file: string, baseName: string, suffix: string)
  {
    EqualsIgnoreCase(Stem(file), baseName + suffix) && Lower(Extension(file)) in TextureExtensions
  }

  /** The first file of a list that passes a test. */
  function FirstWhere(files: seq<string>, test: string -> bool): Option<string>
  {
    if files == [] then None
    else if test(files[0]) then Some(files[0])
    else FirstWhere(files[1..], test)
  }

  /** `FirstWhere` finds a file iff the list has one that passes, and then the earliest. */
  lemma {:induction false} FirstWhereIsFirst(files: seq<string>, test: string -> bool)
    ensures FirstWhere(files, test).None? <==> forall i :: 0 <= i < |files| ==> !test(files[i])
    ensures FirstWhere(files, test).Some? ==>
              exists i :: 0 <= i < |files| && files[i] == FirstWhere(files, test).value && test(files[i])
                          && forall j :: 0 <= j < i ==> !test(files[j])
    decreases |files|
  {
    if files != [] && !test(files[0]) {
      var rest := files[1..];
      FirstWhereIsFirst(rest, test);
      assert forall i :: 1 <= i < |files| ==> files[i] == rest[i - 1];
      if FirstWhere(rest, test).Some? {
        var i :| 0 <= i < |rest| && rest[i] == FirstWhere(rest, test).value && test(rest[i])
                 && forall j :: 0 <= j < i ==> !test(rest[j]);
        assert files[i + 1] == rest[i];
      }
    }
  }

  /**
   * `FindTextureFile(baseName, suffix, searchDir)` over `files`, the directory search's
   * result: the first accepted file, or `None` when no file is accepted.
   */
  method FindTextureFile(files: seq<string>, baseName: string, suffix: string) returns (r: Option<string>)
    ensures r == FirstWhere(files, f => AcceptsTexture(f, baseName, suffix))
  {
    ghost var test := f => AcceptsTexture(f, baseName, suffix);
    for i := 0 to |files|
      invariant FirstWhere(files, test) == FirstWhere(files[i..], test)
    {
      assert files[i..][1..] == files[i + 1..];
      var accepted := Accepted(files[i], baseName, suffix);
      if accepted {
        return Some(files[i]);
      }
    }
    return None;
  }

  /** `FindTextureFile` returns an accepted file of the list with no accepted file before
      it, and `None` exactly when no file of the list is accepted. */
  lemma FindTextureFileIsFirstAccepted(files: seq<string>, baseName: string, suffix: string)
    ensures var r := FirstWhere(files, f => AcceptsTexture(f, baseName, suffix));
            r.None? <==> forall i :: 0 <= i < |files| ==> !AcceptsTexture(files[i], baseName, suffix)
    ensures var r := FirstWhere(files, f => AcceptsTexture(f, baseName, suffix));
            r.Some? ==> exists i :: 0 <= i < |files| && files[i] == r.value && AcceptsTexture(files[i], baseName, suffix)
                                    && forall j :: 0 <= j < i ==> !AcceptsTexture(files[j], baseName, suffix)
  {
    FirstWhereIsFirst(files, f => AcceptsTexture(f, baseName, suffix));
  }

  /** The test of one file in `FindTextureFile`'s loop. */
  method Accepted(file: string, baseName: string, suffix: string) returns (accepted: bool)
    ensures accepted == AcceptsTexture(file, baseName, suffix)
  {
    accepted := false;
    var fileName := Stem(file);
    if EqualsIgnoreCase(fileName, baseName + suffix) {
      var ext := Lower(Extension(file));
      if ext == ".png" || ext == ".jpg" || ext == ".jpeg" || ext == ".tga" || ext == ".tif" || ext == ".tiff" {
        accepted := true;
      }
    }
  }

  /** The first of `dir\name + ext`, over the extensions in order, that exists. */
  function FirstExisting(dir: string, name: string, extensions: seq<string>, existing: set<string>): Option<string>
  {
    if extensions == [] then None
    else if Combine(dir, name + extensions[0]) in existing then Some(Combine(dir, name + extensions[0]))
    else FirstExisting(dir, name, extensions[1..], existing)
  }

  /** `FirstExisting` finds a path iff one of the candidates exists, and then the candidate
      of the earliest extension that exists. */
  lemma {:induction false} FirstExistingIsFirst(dir: string, name: string, extensions: seq<string>, existing: set<string>)
    ensures FirstExisting(dir, name, extensions, existing).None? <==>
              forall k :: 0 <= k < |extensions| ==> Combine(dir, name + extensions[k]) !in existing
    ensures FirstExisting(dir, name, extensions, existing).Some? ==>
              exists k :: 0 <= k < |extensions| && FirstExisting(dir, name, extensions, existing).value == Combine(dir, name + extensions[k])
                          && Combine(dir, name + extensions[k]) in existing
                          && forall j :: 0 <= j < k ==> Combine(dir, name + extensions[j]) !in existing
    decreases |extensions|
  {
    if extensions != [] && Combine(dir, name + extensions[0]) !in existing {
      var rest := extensions[1..];
      FirstExistingIsFirst(dir, name, rest, existing);
      assert forall k :: 1 <= k < |extensions| ==> extensions[k] == rest[k - 1];
      if FirstExisting(dir, name, rest, existing).Some? {
        var k :| 0 <= k < |rest| && FirstExisting(dir, name, rest, existing).value == Combine(dir, name + rest[k])
                 && Combine(dir, name + rest[k]) in existing
                 && forall j :: 0 <= j < k ==> Combine(dir, name + rest[j]) !in existing;
        assert Combine(dir, name + extensions[k + 1]) in existing;
      }
    }
  }

  /** `FindFileWithExtensions(dir, fileNameWithoutExt, extensions)`: the loop returns the
      first existing candidate. */
  method FindFileWithExtensions(dir: string, fileNameWithoutExt: string, extensions: seq<string>, existing: set<string>)
    returns (r: Option<string>)
    ensures r == FirstExisting(dir, fileNameWithoutExt, extensions, existing)
  {
    for i := 0 to |extensions|
      invariant FirstExisting(dir, fileNameWithoutExt, extensions, existing)
                == FirstExisting(dir, fileNameWithoutExt, extensions[i..], existing)
    {
      assert extensions[i..][1..] == extensions[i + 1..];
      var path := Combine(dir, fileNameWithoutExt + extensions[i]);
      if path in existing {
        return Some(path);
      }
    }
    return None;
  }

  // ---------------------------------------------------------------- merge jobs

  /** The extensions `MergeTextures` recognises and tries, in its search order. */
  const ImageExtensions: seq<string> := [".jpeg", ".jpg", ".png"]

  /** A file whose name ends, ignoring case, in `tag` and one of the image extensions. */
  predicate IsTagged(file: string, tag: string)
  {
    EndsWithIgnoreCase(file, tag + ".jpeg") || EndsWithIgnoreCase(file, tag + ".png") || EndsWithIgnoreCase(file, tag + ".jpg")
  }

  datatype MergeType = BaseMap | MaskMap

  /** One `MergeChannels(file1, file2, outputFile, type)` call. */
  datatype MergeJob = MergeJob(file1: Option<string>, file2: Option<string>, outputFile: string, kind: MergeType)

  /** An albedo file with an opacity companion makes a base map. */
  function BaseMapJob(file: string, existing: set<string>): Option<MergeJob>
  {
    if IsTagged(file, "_albedo") then
      var dir := DirectoryName(file);
      var baseName := RemoveAll(Stem(file), "_albedo");
      var opacityFile := FirstExisting(dir, baseName + "_opacity", ImageExtensions, existing);
      if opacityFile.Some? then Some(MergeJob(Some(file), opacityFile, Combine(dir, baseName + "_baseMap.png"), BaseMap))
      else None
    else None
  }

  /** A metallic file makes a mask map, with its roughness companion if one exists; a
      roughness file makes one alone, unless its metallic companion exists. */
  function MaskMapJob(file: string, existing: set<string>): Option<MergeJob>
  {
    var dir := DirectoryName(file);
    if IsTagged(file, "_metallic") then
      var baseName := RemoveAll(Stem(file), "_metallic");
      var roughnessFile := FirstExisting(dir, baseName + "_roughness", ImageExtensions, existing);
      Some(MergeJob(Some(file), roughnessFile, Combine(dir, baseName + "_maskMap.png"), MaskMap))
    else if IsTagged(file, "_roughness") then
      var baseName := RemoveAll(Stem(file), "_roughness");
      if FirstExisting(dir, baseName + "_metallic", ImageExtensions, existing).Some? then None
      else Some(MergeJob(None, Some(file), Combine(dir, baseName + "_maskMap.png"), MaskMap))
    else None
  }

  function AsSeq<T>(o: Option<T>): seq<T>
  {
    if o.Some? then [o.value] else []
  }

  /** The merges of one file: its base map, then its mask map. */
  function FileJobs(file: string, existing: set<string>): seq<MergeJob>
  {
    AsSeq(BaseMapJob(file, existing)) + AsSeq(MaskMapJob(file, existing))
  }

  /** The merges of a list of files, in order. */
  function Jobs(files: seq<string>, existing: set<string>): seq<MergeJob>
  {
    if files == [] then [] else Jobs(files[..|files| - 1], existing) + FileJobs(files[|files| - 1], existing)
  }

  /** "X_ALBEDO.png" lies at the top of the tree and has the stem "X_ALBEDO". */
  lemma UpperAlbedoParts(file: string)
    requires file == "X_ALBEDO.png"
    ensures DirectoryName(file) == "" && Stem(file) == "X_ALBEDO"
  {
    assert forall k :: 0 <= k < |file| ==> !IsSeparator(file[k]);
    assert file[8] == '.' && forall k :: 8 < k < |file| ==> file[k] != '.';
    assert LastDot(file) == Some(8);
    assert file[..8] == "X_ALBEDO";
  }

  /** "X_ALBEDO.png" ends in "_albedo.png" ignoring case. */
  lemma UpperAlbedoIsTagged(file: string)
    requires file == "X_ALBEDO.png"
    ensures IsTagged(file, "_albedo")
  {
    assert file[|file| - |"_albedo.png"|..] == "_ALBEDO.png";
    assert Lower("_ALBEDO.png") == "_albedo.png";
  }

  /** The case-sensitive removal leaves "X_ALBEDO" as it is. */
  lemma UpperAlbedoNotRemoved(stem: string)
    requires stem == "X_ALBEDO"
    ensures RemoveAll(stem, "_albedo") == stem
  {
    assert |"ALBEDO"| < |"_albedo"|;
    assert "_ALBEDO"[..7][1] != "_albedo"[1] && "_ALBEDO"[1..] == "ALBEDO";
    assert RemoveAll("_ALBEDO", "_albedo") == ['_'] + "ALBEDO";
    assert stem[..7][0] != "_albedo"[0] && stem[1..] == "_ALBEDO";
  }

  /** The opacity companion of "X_ALBEDO" in two directories without a folder part. */
  lemma UpperAlbedoOpacity(name: string)
    requires name == "X_ALBEDO_opacity"
    ensures FirstExisting("", name, ImageExtensions, {"X_opacity.png"}) == None
    ensures FirstExisting("", name, ImageExtensions, {"X_ALBEDO_opacity.png"}) == Some("X_ALBEDO_opacity.png")
  {
    var exts := ImageExtensions;
    var missed, found := {"X_opacity.png"}, {"X_ALBEDO_opacity.png"};
    assert exts[0] == ".jpeg" && exts[1..][0] == ".jpg" && exts[1..][1..][0] == ".png" && exts[1..][1..][1..] == [];
    assert Combine("", name + ".jpeg") == name + ".jpeg" && |name + ".jpeg"| == 21;
    assert Combine("", name + ".jpg") == name + ".jpg" && |name + ".jpg"| == 20;
    assert Combine("", name + ".png") == name + ".png" && name + ".png" == "X_ALBEDO_opacity.png";
    assert (name + ".jpg")[17] != "X_ALBEDO_opacity.png"[17];
    assert |"X_opacity.png"| == 13 && "X_ALBEDO_opacity.png" !in missed;
    assert name + ".jpeg" !in missed && name + ".jpg" !in missed && name + ".png" !in missed;
    assert name + ".jpeg" !in found && name + ".jpg" !in found && name + ".png" in found;
    assert FirstExisting("", name, exts[1..][1..], missed) == None;
    assert FirstExisting("", name, exts[1..], missed) == None;
    assert FirstExisting("", name, exts[1..][1..], found) == Some(name + ".png");
    assert FirstExisting("", name, exts[1..], found) == Some(name + ".png");
  }

  /** The job for a tagged file at the top of the tree, in terms of its base name and the
      opacity lookup. */
  lemma TopLevelBaseMapJob(file: string, existing: set<string>, baseName: string, opacity: Option<string>)
    requires IsTagged(file, "_albedo") && DirectoryName(file) == ""
    requires RemoveAll(Stem(file), "_albedo") == baseName
    requires FirstExisting("", baseName + "_opacity", ImageExtensions, existing) == opacity
    ensures opacity.None? ==> BaseMapJob(file, existing) == None
    ensures opacity.Some? ==> BaseMapJob(file, existing) == Some(MergeJob(Some(file), opacity, baseName + "_baseMap.png", BaseMap))
  {
  }

  /** An upper-case tag passes the case-insensitive test but survives the case-sensitive
      removal: "X_ALBEDO.png" looks for "X_ALBEDO_opacity" and misses "X_opacity.png". */
  lemma UpperCaseTagIsNotRemoved(file: string)
    requires file == "X_ALBEDO.png"
    ensures IsTagged(file, "_albedo")
    ensures RemoveAll(Stem(file), "_albedo") == "X_ALBEDO"
    ensures BaseMapJob(file, {"X_opacity.png"}) == None
    ensures BaseMapJob(file, {"X_ALBEDO_opacity.png"})
            == Some(MergeJob(Some(file), Some("X_ALBEDO_opacity.png"), "X_ALBEDO_baseMap.png", BaseMap))
  {
    UpperAlbedoParts(file);
    UpperAlbedoIsTagged(file);
    var baseName := Stem(file);
    UpperAlbedoNotRemoved(baseName);
    var name := baseName + "_opacity";
    assert name == "X_ALBEDO_opacity" && baseName + "_baseMap.png" == "X_ALBEDO_baseMap.png";
    UpperAlbedoOpacity(name);
    TopLevelBaseMapJob(file, {"X_opacity.png"}, baseName, None);
    TopLevelBaseMapJob(file, {"X_ALBEDO_opacity.png"}, baseName, Some("X_ALBEDO_opacity.png"));
  }

  /** A roughness file whose metallic companion exists makes no mask map, so a base name
      with both files gets one mask map, from the metallic file, which names the first
      existing roughness companion. */
  lemma MaskMapOnce(metallic: string, roughness: string, existing: set<string>, k: nat)
    requires IsTagged(metallic, "_metallic") && IsTagged(roughness, "_roughness") && !IsTagged(roughness, "_metallic")
    requires DirectoryName(metallic) == DirectoryName(roughness)
    requires metallic in existing
    requires k < |ImageExtensions|
    requires metallic == Combine(DirectoryName(roughness), RemoveAll(Stem(roughness), "_roughness") + "_metallic" + ImageExtensions[k])
    ensures MaskMapJob(roughness, existing) == None
    ensures MaskMapJob(metallic, existing).Some?
    ensures MaskMapJob(metallic, existing).value.file1 == Some(metallic)
    ensures MaskMapJob(metallic, existing).value.file2
            == FirstExisting(DirectoryName(metallic), RemoveAll(Stem(metallic), "_metallic") + "_roughness", ImageExtensions, existing)
  {
    var baseName := RemoveAll(Stem(roughness), "_roughness");
    assert baseName + "_metallic" + ImageExtensions[k] == (baseName + "_metallic") + ImageExtensions[k];
    FirstExistingIsFirst(DirectoryName(roughness), baseName + "_metallic", ImageExtensions, existing);
  }

  /** The merge steps of one file of `MergeTextures`' loop, with the `continue` of a
      roughness file whose metallic companion exists. */
  method MergesOfFile(file: string, existing: set<string>) returns (jobs: seq<MergeJob>)
    ensures jobs == FileJobs(file, existing)
  {
    jobs := [];
    var dir := DirectoryName(file);
    var fileName := Stem(file);
    if IsTagged(file, "_albedo") {
      var baseName := RemoveAll(fileName, "_albedo");
      var opacityFile := FindFileWithExtensions(dir, baseName + "_opacity", ImageExtensions, existing);
      if opacityFile.Some? {
        jobs := [MergeJob(Some(file), opacityFile, Combine(dir, baseName + "_baseMap.png"), BaseMap)];
      }
    }
    var isMetallic := IsTagged(file, "_metallic");
    var isRoughness := IsTagged(file, "_roughness");
    if isMetallic || isRoughness {
      var baseName;
      var metallicFile: Option<string> := None;
      var roughnessFile: Option<string> := None;
      if isMetallic {
        baseName := RemoveAll(fileName, "_metallic");
        metallicFile := Some(file);
        roughnessFile := FindFileWithExtensions(dir, baseName + "_roughness", ImageExtensions, existing);
      } else {
        baseName := RemoveAll(fileName, "_roughness");
        var existingMetallic := FindFileWithExtensions(dir, baseName + "_metallic", ImageExtensions, existing);
        if existingMetallic.Some? {
          return;
        }
        roughnessFile := Some(file);
      }
      var outputFile := Combine(dir, baseName + "_maskMap.png");
      jobs := jobs + [MergeJob(metallicFile, roughnessFile, outputFile, MaskMap)];
    }
  }

  /** `MergeTextures`: nothing without a folder; otherwise the merges of every file the
      folder search returns, in order. */
  method MergeTextures(folderPath: Option<string>, files: seq<string>, existing: set<string>) returns (jobs: seq<MergeJob>)
    ensures folderPath.None? || folderPath.value == "" ==> jobs == []
    ensures folderPath.Some? && folderPath.value != "" ==> jobs == Jobs(files, existing)
  {
    jobs := [];
    if folderPath.None? || folderPath.value == "" {
      return;
    }
    for i := 0 to |files|
      invariant jobs == Jobs(files[..i], existing)
    {
      assert files[..i + 1][..i] == files[..i];
      var fileJobs := MergesOfFile(files[i], existing);
      jobs := jobs + fileJobs;
    }
    assert files[..|files|] == files;
  }

  // ---------------------------------------------------------------- channel merge

  datatype Color = Color(r: real, g: real, b: real, a: real)

  const Black: Color := Color(0.0, 0.0, 0.0, 1.0)
  const White: Color := Color(1.0, 1.0, 1.0, 1.0)

  /** A loaded texture: its size and its pixels, row by row. */
  datatype Image = Image(width: int, height: int, pixels: seq<Color>)

  predicate WellFormed(img: Image)
  {
    img.width >= 0 && img.height >= 0 && |img.pixels| == img.width * img.height
  }

  /** `GetDefaultColors(count, color)`: an array of `count` copies of `color`. */
  method GetDefaultColors(count: int, color: Color) returns (cols: array<Color>)
    requires count >= 0
    ensures fresh(cols)
    ensures cols.Length == count && forall i :: 0 <= i < count ==> cols[i] == color
  {
    cols := new Color[count](_ => Color(0.0, 0.0, 0.0, 0.0));
    for i := 0 to count
      invariant forall j :: 0 <= j < i ==> cols[j] == color
    {
      cols[i] := color;
    }
  }

  /** One output pixel: a base map takes the albedo's RGB and the opacity's red as alpha; a
      mask map takes the metallic red, occlusion 1, detail 0 and smoothness 1 - roughness. */
  function MergePixel(c1: Color, c2: Color, kind: MergeType): Color
  {
    match kind
    case BaseMap => Color(c1.r, c1.g, c1.b, c2.r)
    case MaskMap => Color(c1.r, 1.0, 0.0, 1.0 - c2.r)
  }

  /** The merged pixels, position by position. */
  function MergedPixels(cols1: seq<Color>, cols2: seq<Color>, kind: MergeType): (m: seq<Color>)
    requires |cols1| <= |cols2|
    ensures |m| == |cols1|
  {
    seq(|cols1|, i requires 0 <= i < |cols1| => MergePixel(cols1[i], cols2[i], kind))
  }

  /** A missing metallic map gives metallic 0 everywhere, and a missing roughness map gives
      smoothness 0 everywhere. */
  lemma MissingInputsDefault(c1: Color, c2: Color)
    ensures MergePixel(Black, c2, MaskMap).r == 0.0
    ensures MergePixel(c1, White, MaskMap).a == 0.0
    ensures MergePixel(c1, c2, MaskMap).g == 1.0 && MergePixel(c1, c2, MaskMap).b == 0.0
    ensures MergePixel(c1, White, BaseMap) == Color(c1.r, c1.g, c1.b, 1.0)
  {
  }

  /**
   * `MergeChannels` over the two loaded textures (`None` where the file is missing): no
   * output when neither exists or when both exist with different sizes; otherwise an image
   * of the size of the present one (the first when both are), whose pixels merge the
   * first's (black when missing) with the second's (white when missing).
   */
  method MergeChannels(tex1: Option<Image>, tex2: Option<Image>, kind: MergeType) returns (output: Option<Image>)
    requires tex1.Some? ==> WellFormed(tex1.value)
    requires tex2.Some? ==> WellFormed(tex2.value)
    ensures tex1.None? && tex2.None? ==> output.None?
    ensures tex1.Some? && tex2.Some? && (tex1.value.width, tex1.value.height) != (tex2.value.width, tex2.value.height)
            ==> output.None?
    ensures tex1.Some? && (tex2.None? || (tex1.value.width, tex1.value.height) == (tex2.value.width, tex2.value.height))
            ==> output.Some? && output.value.width == tex1.value.width && output.value.height == tex1.value.height
                && output.value.pixels
                   == MergedPixels(tex1.value.pixels,
                                   if tex2.Some? then tex2.value.pixels else seq(|tex1.value.pixels|, _ => White), kind)
    ensures tex1.None? && tex2.Some?
            ==> output.Some? && output.value.width == tex2.value.width && output.value.height == tex2.value.height
                && output.value.pixels == MergedPixels(seq(|tex2.value.pixels|, _ => Black), tex2.value.pixels, kind)
  {
    if tex1.None? && tex2.None? {
      return None;
    }
    var width := if tex1.Some? then tex1.value.width else tex2.value.width;
    var height := if tex1.Some? then tex1.value.height else tex2.value.height;
    if tex1.Some? && tex2.Some? {
      if tex1.value.width != width || tex1.value.height != height || tex2.value.width != width || tex2.value.height != height {
        return None;
      }
    }
    var cols1: seq<Color>;
    if tex1.Some? {
      cols1 := tex1.value.pixels;
    } else {
      var d := GetDefaultColors(width * height, Black);
      cols1 := d[..];
    }
    var cols2: seq<Color>;
    if tex2.Some? {
      cols2 := tex2.value.pixels;
    } else {
      var d := GetDefaultColors(width * height, White);
      cols2 := d[..];
    }
    var newCols := new Color[|cols1|](_ => Color(0.0, 0.0, 0.0, 0.0));
    for i := 0 to |cols1|
      invariant forall j :: 0 <= j < i ==> newCols[j] == MergePixel(cols1[j], cols2[j], kind)
    {
      newCols[i] := MergePixel(cols1[i], cols2[i], kind);
    }
    output := Some(Image(width, height, newCols[..]));
  }
}
