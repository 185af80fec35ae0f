/**
 * The decision logic of an upload (`commands/upload/upload.go`): request
 * validation, the choice of upload tool, the property mapping done with
 * `Set` on the upload properties, the guard of `runTool`, and where the
 * compiled sketch is looked for.  Property maps are plain
 * `map<string, string>` values; file-system answers are parameters.
 */
module Upload {
  import opened Wrappers
  import opened Strings
  import Arguments
  import opened PropertiesMap

  datatype DetectError =
    | ReadDirFailed
    | MultipleArtifacts(first: string, second: string)
    | NoArtifact

  datatype UploadError =
    | NoProgrammer
    | InvalidDeviceUrl(raw: string)
    | NoFqbn
    | UndefinedBootloaderTool
    | ProgrammerNotAvailable(id: string)
    | UndefinedProgramTool
    | UndefinedUploadTool
    | InvalidUploadTool(name: string)
    | RecipeNotFound(recipeId: string)
    | ImportFileAndDir
    | BinaryNotFound(path: string)
    | ArtifactDetection(cause: DetectError)
    | NoSketch
    | MissingFqbn
    | CompiledSketchNotFound(path: string)
    | NotADirectory(path: string)

  // ---- request validation ----

  /** Port and FQBN recorded in a sketch's metadata. */
  datatype CpuMetadata = CpuMetadata(port: string, fqbn: string)

  /**
   * The first checks of an upload: a bootloader burn needs a programmer,
   * the port may come from the sketch metadata, and an FQBN must be given
   * or recorded in the sketch.  The result is the port and the FQBN text.
   */
  function Prepare(burnBootloader: bool, programmerId: string, port: string, metadata: Option<CpuMetadata>,
                   fqbnIn: string, parseUrl: string -> Option<Arguments.Url>): (r: Result<(string, string), UploadError>)
    ensures burnBootloader && programmerId == "" ==> r == Err(NoProgrammer)
    ensures !(burnBootloader && programmerId == "") && port == "" && metadata.Some? && parseUrl(metadata.value.port).None?
            ==> r == Err(InvalidDeviceUrl(metadata.value.port))
    ensures !(burnBootloader && programmerId == "") && fqbnIn == "" && (metadata.None? || metadata.value.fqbn == "")
            && (port != "" || metadata.None? || parseUrl(metadata.value.port).Some?)
            ==> r == Err(NoFqbn)
    ensures r.Ok? ==> r.value.1 != "" && r.value.1 == (if fqbnIn == "" then metadata.value.fqbn else fqbnIn)
    ensures r.Ok? && port != "" ==> r.value.0 == port
    ensures r.Ok? && port == "" ==>
      if metadata.None? then r.value.0 == ""
      else parseUrl(metadata.value.port).Some?
           && var u := parseUrl(metadata.value.port).value;
              r.value.0 == (if u.scheme == "serial" then u.host + u.path else "")
  {
    if burnBootloader && programmerId == "" then Err(NoProgrammer)
    else
      var cpuPort := if metadata.Some? then Some(metadata.value.port) else None;
      match Arguments.DeviceAddress(port, cpuPort, parseUrl)
      case Err(_) => Err(InvalidDeviceUrl(cpuPort.value))
      case Ok(address) =>
        var fqbn := if fqbnIn == "" && metadata.Some? then metadata.value.fqbn else fqbnIn;
        if fqbn == "" then Err(NoFqbn) else Ok((address, fqbn))
  }

  // ---- choice of the upload tool ----

  /** Where the tool's platform comes from. */
  datatype ToolPlatform = BoardPlatform | Packager(name: string) | ProgrammerPlatform

  datatype ToolChoice = ToolChoice(name: string, platform: ToolPlatform, programmer: Option<Props>)

  /**
   * The `upload.tool` property: empty is an error, `pkg:tool` names a tool
   * of another packager, more than one `:` is an error.
   */
  function UploadTool(name: string): (r: Result<ToolChoice, UploadError>)
    ensures name == "" ==> r == Err(UndefinedUploadTool)
    ensures name != "" && Count(name, ':') >= 2 ==> r == Err(InvalidUploadTool(name))
    ensures name != "" && Count(name, ':') == 0 ==> r == Ok(ToolChoice(name, BoardPlatform, None))
    ensures name != "" && Count(name, ':') == 1 ==>
      r.Ok? && r.value.platform.Packager? && r.value.programmer.None?
      && r.value.platform.name + ":" + r.value.name == name
      && ':' !in r.value.platform.name && ':' !in r.value.name
  {
    if name == "" then Err(UndefinedUploadTool)
    else
      var parts := Split(name, ':');
      if |parts| > 2 then Err(InvalidUploadTool(name))
      else if |parts| == 2 then
        SplitJoin(name, ':');
        assert parts[1..] == [parts[1]];
        Ok(ToolChoice(parts[1], Packager(parts[0]), None))
      else
        SplitJoin(name, ':');
        Ok(ToolChoice(name, BoardPlatform, None))
  }

  /**
   * The tool of an upload.  A bootloader burn first requires
   * `bootloader.tool` to be defined.  A named programmer then gives its
   * `program.tool`, the programmer being looked up among the board
   * platform's programmers, then among the build platform's; without a
   * programmer the board's `upload.tool` is used.
   */
  function SelectTool(burnBootloader: bool, programmerId: string, boardProps: Props,
                      boardProgrammers: map<string, Props>, buildProgrammers: map<string, Props>): (r: Result<ToolChoice, UploadError>)
    ensures burnBootloader && Get(boardProps, "bootloader.tool") == "" ==> r == Err(UndefinedBootloaderTool)
    ensures !(burnBootloader && Get(boardProps, "bootloader.tool") == "") && programmerId == ""
            ==> r == UploadTool(Get(boardProps, "upload.tool"))
    ensures !(burnBootloader && Get(boardProps, "bootloader.tool") == "") && programmerId != ""
            && programmerId !in boardProgrammers && programmerId !in buildProgrammers
            ==> r == Err(ProgrammerNotAvailable(programmerId))
    ensures programmerId != "" && (programmerId in boardProgrammers || programmerId in buildProgrammers) ==>
      var prog := if programmerId in boardProgrammers then boardProgrammers[programmerId] else buildProgrammers[programmerId];
      (r.Ok? <==> !(burnBootloader && Get(boardProps, "bootloader.tool") == "") && Get(prog, "program.tool") != "")
      && (r.Ok? ==> r.value == ToolChoice(Get(prog, "program.tool"), ProgrammerPlatform, Some(prog)))
      && (!(burnBootloader && Get(boardProps, "bootloader.tool") == "") && Get(prog, "program.tool") == ""
          ==> r == Err(UndefinedProgramTool))
    ensures programmerId == "" && r.Ok? ==> r.value.programmer.None?
  {
    if burnBootloader && Get(boardProps, "bootloader.tool") == "" then Err(UndefinedBootloaderTool)
    else if programmerId != "" then
      if programmerId !in boardProgrammers && programmerId !in buildProgrammers then Err(ProgrammerNotAvailable(programmerId))
      else
        var prog := if programmerId in boardProgrammers then boardProgrammers[programmerId] else buildProgrammers[programmerId];
        var tool := Get(prog, "program.tool");
        if tool == "" then Err(UndefinedProgramTool) else Ok(ToolChoice(tool, ProgrammerPlatform, Some(prog)))
    else UploadTool(Get(boardProps, "upload.tool"))
  }

  /**
   * A bootloader burn that passed validation always ends up with the
   * programmer's tool: `bootloader.tool` is checked to be defined but
   * never used.
   */
  lemma BurnUsesProgrammerTool(programmerId: string, port: string, metadata: Option<CpuMetadata>, fqbnIn: string,
                               parseUrl: string -> Option<Arguments.Url>, boardProps: Props,
                               boardProgrammers: map<string, Props>, buildProgrammers: map<string, Props>)
    requires Prepare(true, programmerId, port, metadata, fqbnIn, parseUrl).Ok?
    ensures var r := SelectTool(true, programmerId, boardProps, boardProgrammers, buildProgrammers);
            r.Ok? ==> r.value.platform == ProgrammerPlatform && r.value.programmer.Some?
  {
  }

  // ---- property mapping ----

  /** After a `Set` of `dst` from `src` when `src` exists: `dst` holds what `src` held, or is as it was. */
  predicate CopiedIfPresent(before: Props, after: Props, src: string, dst: string)
  {
    if src in before then dst in after && after[dst] == before[src]
    else (dst in after <==> dst in before) && (dst in before ==> after[dst] == before[dst])
  }

  /** Copies the value of `src` into `dst` when `src` is present, and otherwise changes nothing. */
  function CopyIfPresent(props: Props, src: string, dst: string): (r: Props)
    ensures CopiedIfPresent(props, r, src, dst)
    ensures forall k :: k != dst ==> (k in r <==> k in props) && (k in r ==> r[k] == props[k])
  {
    if src in props then props[dst := props[src]] else props
  }

  /** The keys the verbosity mapping may write. */
  const VerboseKeys: set<string> := {"upload.verbose", "program.verbose", "erase.verbose", "bootloader.verbose"}

  /**
   * Verbose or quiet mode: each `X.verbose` of the upload, program, erase
   * and bootloader actions is set from `X.params.verbose` (verbose) or
   * `X.params.quiet` (quiet), only when that key exists.
   */
  method SetVerbosity(props: Props, verbose: bool) returns (p: Props)
    ensures var mode := if verbose then "verbose" else "quiet";
            CopiedIfPresent(props, p, "upload.params." + mode, "upload.verbose")
            && CopiedIfPresent(props, p, "program.params." + mode, "program.verbose")
            && CopiedIfPresent(props, p, "erase.params." + mode, "erase.verbose")
            && CopiedIfPresent(props, p, "bootloader.params." + mode, "bootloader.verbose")
    ensures forall k :: k !in VerboseKeys ==> (k in p <==> k in props) && (k in p ==> p[k] == props[k])
  {
    var mode := if verbose then "verbose" else "quiet";
    p := CopyIfPresent(props, "upload.params." + mode, "upload.verbose");
    p := CopyIfPresent(p, "program.params." + mode, "program.verbose");
    p := CopyIfPresent(p, "erase.params." + mode, "erase.verbose");
    p := CopyIfPresent(p, "bootloader.params." + mode, "bootloader.verbose");
  }

  /**
   * Verification mode: `upload.verify` and `program.verify` are always set,
   * from `X.params.verify` or `X.params.noverify`, "" when that is missing.
   */
  method SetVerify(props: Props, verify: bool) returns (p: Props)
    ensures var mode := if verify then "verify" else "noverify";
            "upload.verify" in p && p["upload.verify"] == Get(props, "upload.params." + mode)
            && "program.verify" in p && p["program.verify"] == Get(props, "program.params." + mode)
    ensures forall k :: k != "upload.verify" && k != "program.verify" ==>
      (k in p <==> k in props) && (k in p ==> p[k] == props[k])
  {
    var mode := if verify then "verify" else "noverify";
    p := props["upload.verify" := Get(props, "upload.params." + mode)];
    p := p["program.verify" := Get(p, "program.params." + mode)];
  }

  /** What the file system says about the directory of the compiled sketch. */
  datatype PathKind = Missing | RegularFile | Directory

  datatype BuildTarget = BuildTarget(path: string, projectName: string)

  /**
   * Outside a bootloader burn, the compiled sketch must be an existing
   * directory; `build.path` and `build.project_name` then name it.
   */
  function SetBuildTarget(props: Props, target: BuildTarget, kind: PathKind): (r: Result<Props, UploadError>)
    ensures kind == Missing ==> r == Err(CompiledSketchNotFound(target.path))
    ensures kind == RegularFile ==> r == Err(NotADirectory(target.path))
    ensures kind == Directory ==>
      r.Ok? && r.value.Keys == props.Keys + {"build.path", "build.project_name"}
      && r.value["build.path"] == target.path && r.value["build.project_name"] == target.projectName
      && forall k :: k in props && k != "build.path" && k != "build.project_name" ==> r.value[k] == props[k]
  {
    match kind
    case Missing => Err(CompiledSketchNotFound(target.path))
    case RegularFile => Err(NotADirectory(target.path))
    case Directory => Ok(props["build.path" := target.path]["build.project_name" := target.projectName])
  }

  /** `serial.port.file`: the port with a leading `/dev/` removed. */
  function PortFile(actualPort: string): (f: string)
    ensures "/dev/" <= actualPort ==> "/dev/" + f == actualPort
    ensures !("/dev/" <= actualPort) ==> f == actualPort
  {
    if |actualPort| >= 5 && actualPort[..5] == "/dev/" then actualPort[5..] else actualPort
  }

  /**
   * When a port was requested, `serial.port` is the port actually used
   * (it may differ after waiting for the board to reappear) and
   * `serial.port.file` is its device file name.
   */
  function SetSerialPort(props: Props, port: string, actualPort: string): (r: Props)
    ensures port == "" ==> r == props
    ensures port != "" ==>
      r.Keys == props.Keys + {"serial.port", "serial.port.file"}
      && r["serial.port"] == actualPort
      && (if "/dev/" <= actualPort then "/dev/" + r["serial.port.file"] == actualPort
          else r["serial.port.file"] == actualPort)
    ensures forall k :: k in props && k != "serial.port" && k != "serial.port.file" ==> r[k] == props[k]
  {
    if port != "" then props["serial.port" := actualPort]["serial.port.file" := PortFile(actualPort)] else props
  }

  // ---- the guard of runTool ----

  datatype ToolRun = NothingToRun | RunRecipe(recipe: string)

  /**
   * The guards `runTool` applies before running a recipe: the recipe must
   * exist, and a blank one runs nothing and succeeds.
   */
  function RunToolGuard(recipeId: string, props: Props): (r: Result<ToolRun, UploadError>)
    ensures recipeId !in props <==> r == Err(RecipeNotFound(recipeId))
    ensures r == Ok(NothingToRun) <==>
      recipeId in props && forall k :: 0 <= k < |props[recipeId]| ==> IsSpace(props[recipeId][k])
    ensures r.Ok? && r.value.RunRecipe? ==> r.value.recipe == props[recipeId]
  {
    if recipeId !in props then Err(RecipeNotFound(recipeId))
    else
      TrimSpaceEmpty(props[recipeId]);
      if TrimSpace(props[recipeId]) == "" then Ok(NothingToRun) else Ok(RunRecipe(props[recipeId]))
  }

  // ---- detection of the sketch name in a build directory ----

  /** The name of an entry without its last extension: `Blink.ino` for `Blink.ino.hex`. */
  function Stem(file: string): string
  {
    TrimSuffix(Base(file), Ext(file))
  }

  /** The stem followed by the extension is the base name: the extension is always cut off. */
  lemma StemAndExt(file: string)
    ensures Stem(file) + Ext(file) == Base(file)
    ensures |Stem(file)| == |Base(file)| - |Ext(file)|
  {
    ExtOfBase(file);
    TrimPresentSuffix(Base(file), Ext(file));
  }

  /**
   * What the scan sees of an entry: the stem of a build artifact (an entry
   * whose stem has the extension `.ino`), None for any other entry.
   */
  function Artifact(file: string): Option<string>
  {
    var name := Stem(file);
    if Ext(name) == ".ino" then Some(name) else None
  }

  /** What the scan sees of each entry, in listing order. */
  function Artifacts(files: seq<string>): (kinds: seq<Option<string>>)
    ensures |kinds| == |files|
  {
    if files == [] then [] else [Artifact(files[0])] + Artifacts(files[1..])
  }

  lemma {:induction false} ArtifactsAt(files: seq<string>, k: nat)
    requires k < |files|
    ensures Artifacts(files)[k] == Artifact(files[k])
  {
    assert Artifacts(files) == [Artifact(files[0])] + Artifacts(files[1..]);
    if k > 0 {
      ArtifactsAt(files[1..], k - 1);
      assert files[1..][k - 1] == files[k];
    }
  }

  /** Some entry's base name starts with `prefix`. */
  predicate HasEntryPrefixed(files: seq<string>, prefix: string)
  {
    exists k :: 0 <= k < |files| && prefix <= Base(files[k])
  }

  /** Index of the first artifact at or after `from`, `|kinds|` if none. */
  function FirstArtifact(kinds: seq<Option<string>>, from: nat): (i: nat)
    requires from <= |kinds|
    ensures from <= i <= |kinds|
    ensures i < |kinds| ==> kinds[i].Some?
    ensures forall k :: from <= k < i ==> kinds[k].None?
    decreases |kinds| - from
  {
    if from == |kinds| || kinds[from].Some? then from else FirstArtifact(kinds, from + 1)
  }

  /** Index of the first artifact at or after `from` whose stem is not `stem`, `|kinds|` if none. */
  function FirstOther(kinds: seq<Option<string>>, stem: string, from: nat): (i: nat)
    requires from <= |kinds|
    ensures from <= i <= |kinds|
    ensures i < |kinds| ==> kinds[i].Some? && kinds[i].value != stem
    ensures forall k :: from <= k < i && kinds[k].Some? ==> kinds[k].value == stem
    decreases |kinds| - from
  {
    if from == |kinds| || (kinds[from].Some? && kinds[from].value != stem) then from
    else FirstOther(kinds, stem, from + 1)
  }

  /**
   * The name scan over entries whose kinds are `kinds`: the stem shared by
   * all artifacts, or the first two entries that disagree.
   */
  function ScanKinds(files: seq<string>, kinds: seq<Option<string>>): Result<string, DetectError>
    requires |kinds| == |files|
  {
    var i := FirstArtifact(kinds, 0);
    if i == |files| then Err(NoArtifact)
    else
      var j := FirstOther(kinds, kinds[i].value, i + 1);
      if j == |files| then Ok(kinds[i].value) else Err(MultipleArtifacts(files[i], files[j]))
  }

  /** The name scan of a listing. */
  function Scan(files: seq<string>): Result<string, DetectError>
  {
    ScanKinds(files, Artifacts(files))
  }

  /**
   * The sketch name found in a build directory, given its listing (None
   * when it cannot be read) and the base name of its absolute path (None
   * when that cannot be computed).
   */
  function Detected(listing: Option<seq<string>>, absBase: Option<string>): (r: Result<string, DetectError>)
    ensures listing.None? ==> r == Err(ReadDirFailed)
    ensures listing.Some? && absBase.Some? && HasEntryPrefixed(listing.value, absBase.value + ".ino" + ".")
            ==> r == Ok(absBase.value + ".ino")
    ensures listing.Some? && !(absBase.Some? && HasEntryPrefixed(listing.value, absBase.value + ".ino" + "."))
            ==> r == Scan(listing.value)
  {
    match listing
    case None => Err(ReadDirFailed)
    case Some(files) =>
      if absBase.Some? && HasEntryPrefixed(files, absBase.value + ".ino" + ".") then Ok(absBase.value + ".ino")
      else Scan(files)
  }

  /**
   * The scan succeeds exactly when some entry is an artifact and all
   * artifacts share one stem, which is then the result.
   */
  lemma ScanSingleStem(files: seq<string>, kinds: seq<Option<string>>)
    requires |kinds| == |files|
    ensures ScanKinds(files, kinds).Ok? <==>
        (exists i :: 0 <= i < |kinds| && kinds[i].Some?)
        && forall i, j :: 0 <= i < |kinds| && 0 <= j < |kinds| && kinds[i].Some? && kinds[j].Some? ==> kinds[i] == kinds[j]
    ensures ScanKinds(files, kinds).Ok? ==>
      forall i :: 0 <= i < |kinds| && kinds[i].Some? ==> kinds[i] == Some(ScanKinds(files, kinds).value)
  {
    var i := FirstArtifact(kinds, 0);
    if i < |files| {
      var j := FirstOther(kinds, kinds[i].value, i + 1);
      if j == |files| {
        forall k | 0 <= k < |files| && kinds[k].Some?
          ensures kinds[k] == kinds[i]
        {
          if k < i {
            assert false;
          }
        }
      } else {
        assert kinds[i].Some? && kinds[j].Some? && kinds[i] != kinds[j];
      }
    }
  }

  /** No artifact at all is an error; two artifacts with different stems are an error naming both, in listing order. */
  lemma ScanErrors(files: seq<string>, kinds: seq<Option<string>>)
    requires |kinds| == |files|
    ensures ScanKinds(files, kinds) == Err(NoArtifact) <==> forall i :: 0 <= i < |kinds| ==> kinds[i].None?
    ensures ScanKinds(files, kinds).Err? && ScanKinds(files, kinds).error.MultipleArtifacts? ==>
        exists i, j :: 0 <= i < j < |kinds| && kinds[i].Some? && kinds[j].Some? && kinds[i] != kinds[j]
                       && ScanKinds(files, kinds).error == MultipleArtifacts(files[i], files[j])
  {
    var i := FirstArtifact(kinds, 0);
    if i < |files| {
      assert kinds[i].Some?;
    }
  }

  /**
   * `detectSketchNameFromBuildPath`: prefer the directory's own name when
   * some entry is named after it, otherwise scan the entries for a
   * single `.ino` stem.
   */
  method DetectSketchName(listing: Option<seq<string>>, absBase: Option<string>) returns (r: Result<string, DetectError>)
    ensures r == Detected(listing, absBase)
  {
    if listing.None? {
      return Err(ReadDirFailed);
    }
    var files := listing.value;
    if absBase.Some? {
      var candidate := absBase.value + ".ino";
      if HasEntryPrefixed(files, candidate + ".") {
        return Ok(candidate);
      }
    }
    ghost var kinds := Artifacts(files);
    ghost var first := FirstArtifact(kinds, 0);
    assert Detected(listing, absBase) == ScanKinds(files, kinds);
    var candidateName := "";
    var candidateFile := "";
    for i := 0 to |files|
      invariant candidateName == "" <==> first >= i
      invariant candidateName != "" ==>
        first < i && kinds[first] == Some(candidateName) && candidateFile == files[first]
        && FirstOther(kinds, candidateName, first + 1) >= i
    {
      var name := Stem(files[i]);
      ArtifactsAt(files, i);
      if Ext(name) != ".ino" {
        assert kinds[i].None?;
        assert candidateName != "" ==> FirstOther(kinds, candidateName, first + 1) != i;
        continue;
      }
      assert kinds[i] == Some(name) && name != "";
      if candidateName == "" {
        assert first == i;
        candidateName := name;
        candidateFile := files[i];
      }
      if candidateName != name {
        assert FirstOther(kinds, candidateName, first + 1) == i;
        return Err(MultipleArtifacts(candidateFile, files[i]));
      }
      assert FirstOther(kinds, candidateName, first + 1) != i;
    }
    if candidateName == "" {
      return Err(NoArtifact);
    }
    assert FirstOther(kinds, candidateName, first + 1) == |files|;
    return Ok(candidateName);
  }

  // ---- where the compiled sketch is ----

  datatype SketchRef = SketchRef(fullPath: string, name: string)

  /**
   * `determineBuildPathAndSketchName`: an import file names the binary
   * itself, an import directory is searched for the sketch name, and
   * otherwise the sketch's default build directory for the FQBN is used.
   * `fqbn` is the FQBN without its configuration part.
   */
  function Target(importFile: string, importDir: string, sketch: Option<SketchRef>, fqbn: Option<string>,
                  importFileExists: bool, listing: Option<seq<string>>, absBase: Option<string>): (r: Result<BuildTarget, UploadError>)
    ensures importFile != "" && importDir != "" ==> r == Err(ImportFileAndDir)
    ensures importFile != "" && importDir == "" && !importFileExists ==> r == Err(BinaryNotFound(importFile))
    ensures importFile != "" && importDir == "" && importFileExists ==>
      r.Ok? && r.value.path == Dir(importFile) && r.value.projectName + Ext(importFile) == Base(importFile)
    ensures importFile == "" && importDir != "" ==>
      match Detected(listing, absBase)
      case Ok(name) => r == Ok(BuildTarget(importDir, name))
      case Err(e) => r == Err(ArtifactDetection(e))
    ensures importFile == "" && importDir == "" && sketch.None? ==> r == Err(NoSketch)
    ensures importFile == "" && importDir == "" && sketch.Some? && fqbn.None? ==> r == Err(MissingFqbn)
    ensures importFile == "" && importDir == "" && sketch.Some? && fqbn.Some? ==>
      var prefix := sketch.value.fullPath + "/build/";
      r.Ok? && r.value.projectName == sketch.value.name + ".ino"
      && |r.value.path| == |prefix| + |fqbn.value| && r.value.path[..|prefix|] == prefix
      && forall k :: 0 <= k < |fqbn.value| ==>
           r.value.path[|prefix| + k] == (if fqbn.value[k] == ':' then '.' else fqbn.value[k])
  {
    if importFile != "" then
      if importDir != "" then Err(ImportFileAndDir)
      else if !importFileExists then Err(BinaryNotFound(importFile))
      else
        StemAndExt(importFile);
        Ok(BuildTarget(Dir(importFile), Stem(importFile)))
    else if importDir != "" then
      match Detected(listing, absBase)
      case Err(e) => Err(ArtifactDetection(e))
      case Ok(name) => Ok(BuildTarget(importDir, name))
    else if sketch.None? then Err(NoSketch)
    else if fqbn.None? then Err(MissingFqbn)
    else
      var path := sketch.value.fullPath + "/build/" + ReplaceAll(fqbn.value, ':', '.');
      assert path[..|sketch.value.fullPath + "/build/"|] == sketch.value.fullPath + "/build/";
      Ok(BuildTarget(path, sketch.value.name + ".ino"))
  }
}
