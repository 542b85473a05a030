/**
 * `prepareScriptTranspilations(buildAction)`: decide, for every transpilation
 * of a project, which tsconfig it uses, with which script target, declaration
 * flag and output directory, which file is the package's public entry, and
 * which `package.json` entry-point fields the transpilation's output fills in.
 *
 * The build action is an object the planner updates in place
 * (`BuildActionInternal`); every decision it takes is also written as a
 * function on values (`Prepare`, `RunEntries`, `EntryPlan`, `ManifestAfter`),
 * which the methods are proved to agree with and which the lemmas in
 * transpilation_properties.dfy are about.
 */
module Transpilation {
  import opened Common
  import opened Strings
  import opened Paths
  import opened TsConfig
  import FindUp

  /** `ScriptTranspilationEntry`: one transpilation as the configuration asks for it. */
  datatype ScriptTranspilationEntry = ScriptTranspilationEntry(
    tsConfig: Option<string>,
    outDir: Option<string>,
    target: Option<string>,
    declaration: Option<bool>)

  /**
   * `scriptTranspilation?: ScriptTranspilationOptions | boolean`: `Off` is
   * `false` or absent, `On` is `true`, `Options` the object form.
   */
  datatype ScriptTranspilationSetting =
    | Off
    | On
    | Options(entries: Option<seq<ScriptTranspilationEntry>>, tsConfig: Option<string>)

  /** The fields of the build action that the planner reads and never changes. */
  datatype ProjectInfo = ProjectInfo(
    workspaceRoot: Path,
    projectRoot: Path,
    projectName: string,
    outputPath: Path,
    packageJsonOutDir: Path,
    packageNameWithoutScope: string,
    nestedPackage: bool)
  {
    predicate Valid() {
      IsNormal(workspaceRoot) && IsNormal(projectRoot) && IsNormal(outputPath) && IsNormal(packageJsonOutDir)
    }
  }

  /** `_packageJsonEntryPoint`: the entry-point fields to publish in `package.json`. */
  datatype PackageJsonEntryPoint = PackageJsonEntryPoint(
    main: Option<string>,
    moduleEntry: Option<string>,  // the `module` field
    es2015: Option<string>,
    esm5: Option<string>,
    esm2015: Option<string>,
    typings: Option<string>)

  /** `ScriptTranspilationEntryInternal`: the entry with every decision taken. */
  datatype TranspilationEntryInternal = TranspilationEntryInternal(
    entry: ScriptTranspilationEntry,
    index: nat,
    scriptTarget: int,
    tsConfigPath: Path,
    tsConfigJson: TsConfigJson,
    compilerOptions: CompilerOptions,
    declaration: bool,
    tsOutDirRootResolved: Path,
    detectedEntryName: Option<string>,
    customTsOutDir: Option<Path>)

  datatype PlanError =
    | TsConfigRequired(entryIndex: nat)    // "The '...entries[i].tsConfig' value is required."
    | TsConfigNotDetected                  // "Could not detect tsconfig file for ..."
    | InvalidScriptTarget(entryIndex: nat) // "Invalid script target value. ...entries[i]."
    | TsConfigUnreadable(path: Path)       // thrown by the tsconfig reader or parser

  /** The mutable part of the build action, as a value. */
  datatype PlanState = PlanState(
    tsConfigPath: Option<Path>,
    tsConfigJson: Option<TsConfigJson>,
    tsCompilerConfig: Option<CompilerOptions>,
    packageJsonEntryPoint: PackageJsonEntryPoint,
    scriptTranspilationEntries: seq<TranspilationEntryInternal>)

  /** A string option is truthy when it is present and not empty. */
  predicate Truthy(s: Option<string>) {
    s.Some? && s.value != ""
  }

  // ---------------------------------------------------------------------------
  // tsconfig discovery.

  /** The conventional tsconfig names, in the order `detectTsConfigPath` tries them in each directory. */
  const TsConfigNames: seq<string> := ["tsconfig.build.json", "tsconfig-build.json", "tsconfig.lib.json", "tsconfig-lib.json", "tsconfig.json"]

  /** What `detectTsConfigPath(workspaceRoot, projectRoot)` finds. */
  function DetectedTsConfigPath(info: ProjectInfo, fs: FileSystem): Option<Path> {
    FindUp.FindUpResult(TsConfigNames, info.projectRoot, info.workspaceRoot, fs.existing)
  }

  method DetectTsConfigPath(info: ProjectInfo, fs: FileSystem) returns (r: Option<Path>)
    ensures r == DetectedTsConfigPath(info, fs)
  {
    r := FindUp.FindUp(FindUp.ManyNames(TsConfigNames), info.projectRoot, info.workspaceRoot, fs.existing);
  }

  // ---------------------------------------------------------------------------
  // The decisions of `toTranspilationEntryInternal`, one function each.

  /** The script target: the entry's own (`None` when it names no target), else the compiler's if truthy, else ES2017. */
  function ScriptTargetFor(entry: ScriptTranspilationEntry, options: CompilerOptions): Option<int> {
    if Truthy(entry.target) then ToTsScriptTarget(entry.target.value)
    else if options.target.Some? && options.target.value != ES3 then options.target
    else Some(ES2017)
  }

  /** The declaration flag: the entry's own, else the compiler's, else true. */
  function DeclarationFor(entry: ScriptTranspilationEntry, options: CompilerOptions): bool {
    if entry.declaration.Some? then entry.declaration.value
    else if options.declaration.Some? then options.declaration.value
    else true
  }

  /** The output directory before the rootDir offset, and whether it counts as a custom one. */
  function OutDirFor(info: ProjectInfo, tsConfigPath: Path, entry: ScriptTranspilationEntry, options: CompilerOptions): (Path, Option<Path>) {
    if Truthy(entry.outDir) then
      var d := Resolve(info.outputPath, entry.outDir.value);
      (d, Some(d))
    else if Truthy(options.outDir) then
      var d := if IsAbsolute(options.outDir.value) then Resolve([], options.outDir.value)
               else Resolve(Dirname(tsConfigPath), options.outDir.value);
      (d, None)
    else
      (info.outputPath, Some(info.outputPath))
  }

  /** The relative path between `rootDir` and the tsconfig directory, taken from whichever contains the other. */
  function RootDirOffset(rootDir: Path, tsDir: Path): string {
    if IsInFolder(rootDir, tsDir) then NormalizeRelativePath(Relative(rootDir, tsDir))
    else NormalizeRelativePath(Relative(tsDir, rootDir))
  }

  /** The output directory with the rootDir offset appended when `rootDir` is set and differs from the tsconfig directory. */
  function WithRootDirOffset(outDir: Path, tsConfigPath: Path, rootDir: Option<Path>): Path {
    if rootDir.Some? && !IsSamePaths(rootDir.value, Dirname(tsConfigPath)) then
      Resolve(outDir, RootDirOffset(rootDir.value, Dirname(tsConfigPath)))
    else outDir
  }

  /** The names probed for the entry file, in order. */
  function EntryCandidates(packageNameWithoutScope: string): seq<string> {
    [ "index",
      ReplaceChar(packageNameWithoutScope, '/', '-'),
      ReplaceChar(AfterLast(packageNameWithoutScope, '/'), '/', '-'),
      "main",
      "public_api",
      "public-api" ]
  }

  /** The first name of `names[k..]` whose `.ts` file exists in `dir`. */
  function FirstExistingSource(names: seq<string>, k: nat, dir: Path, existing: set<Path>): (r: Option<string>)
    requires k <= |names|
    ensures r.Some? ==> exists n :: k <= n < |names| && names[n] == r.value && Resolve(dir, names[n] + ".ts") in existing
                          && forall m :: k <= m < n ==> Resolve(dir, names[m] + ".ts") !in existing
    ensures r.None? <==> forall n :: k <= n < |names| ==> Resolve(dir, names[n] + ".ts") !in existing
    decreases |names| - k
  {
    if k == |names| then None
    else if Resolve(dir, names[k] + ".ts") in existing then Some(names[k])
    else FirstExistingSource(names, k + 1, dir, existing)
  }

  /** The project-level `angularCompilerOptions.flatModuleOutFile`, when truthy. */
  function FlatModuleOutFile(projectJson: Option<TsConfigJson>): Option<string> {
    if projectJson.Some? && projectJson.value.angularCompilerOptions.Some?
       && Truthy(projectJson.value.angularCompilerOptions.value.flatModuleOutFile)
    then projectJson.value.angularCompilerOptions.value.flatModuleOutFile
    else None
  }

  /** The detected entry name: the flat module file without `.js`, else the first existing candidate, else none. */
  function DetectEntryName(info: ProjectInfo, projectJson: Option<TsConfigJson>, fs: FileSystem, tsSrcDir: Path): Option<string> {
    var flat := FlatModuleOutFile(projectJson);
    if flat.Some? then Some(StripSuffixIgnoreCase(flat.value, ".js"))
    else FirstExistingSource(EntryCandidates(info.packageNameWithoutScope), 0, tsSrcDir, fs.existing)
  }

  /** `toTranspilationEntryInternal` without its writes to `_packageJsonEntryPoint`. */
  function EntryPlan(info: ProjectInfo, projectJson: Option<TsConfigJson>, fs: FileSystem,
                     tsConfigPath: Path, entry: ScriptTranspilationEntry, i: nat): (r: Result<TranspilationEntryInternal, PlanError>)
    ensures r.Success? ==> r.value.entry == entry && r.value.index == i && r.value.tsConfigPath == tsConfigPath
    ensures r.Failure? ==> r.error == TsConfigUnreadable(tsConfigPath) || r.error == InvalidScriptTarget(i)
  {
    if tsConfigPath !in fs.tsConfigs then Failure(TsConfigUnreadable(tsConfigPath))
    else
      var file := fs.tsConfigs[tsConfigPath];
      var options := file.options;
      var target := ScriptTargetFor(entry, options);
      if target.None? then Failure(InvalidScriptTarget(i))
      else
        var (outDir, custom) := OutDirFor(info, tsConfigPath, entry, options);
        var tsOutDir := WithRootDirOffset(outDir, tsConfigPath, options.rootDir);
        var name := DetectEntryName(info, projectJson, fs, Dirname(tsConfigPath));
        Success(TranspilationEntryInternal(entry, i, target.value, tsConfigPath, file.json, options,
                                           DeclarationFor(entry, options), tsOutDir, name, custom))
  }

  // ---------------------------------------------------------------------------
  // The entry points one transpilation writes into `package.json`.

  /** `compilerOptions.module && compilerOptions.module >= ts.ModuleKind.ES2015`. */
  predicate IsEsModule(m: Option<int>) {
    m.Some? && m.value != ModuleNone && m.value >= ModuleES2015
  }

  /** The JS entry file, relative to the `package.json` directory. */
  function JsEntryFile(info: ProjectInfo, e: TranspilationEntryInternal): string
    requires e.detectedEntryName.Some?
  {
    NormalizeRelativePath(Relative(info.packageJsonOutDir, Resolve(e.tsOutDirRootResolved, e.detectedEntryName.value)) + ".js")
  }

  /** The typings file of a transpilation, relative to the `package.json` directory. */
  function TypingsEntryFile(info: ProjectInfo, e: TranspilationEntryInternal): string
    requires e.detectedEntryName.Some?
  {
    if info.nestedPackage then
      NormalizeRelativePath(Relative(info.packageJsonOutDir,
        JoinPath(info.outputPath, AfterLast(info.packageNameWithoutScope, '/') + ".d.ts")))
    else
      NormalizeRelativePath(Relative(info.packageJsonOutDir, Resolve(e.tsOutDirRootResolved, e.detectedEntryName.value)) + ".d.ts")
  }

  /** `_packageJsonEntryPoint` after the writes of transpilation `e`, in the order the planner makes them. */
  function ManifestAfter(info: ProjectInfo, ep: PackageJsonEntryPoint, e: TranspilationEntryInternal): PackageJsonEntryPoint {
    if !Truthy(e.detectedEntryName) then ep
    else
      var js := JsEntryFile(info, e);
      var m := e.compilerOptions.moduleKind;
      var ep1 :=
        if IsEsModule(m) && e.scriptTarget == ES2015 then ep.(es2015 := Some(js), esm2015 := Some(js))
        else if IsEsModule(m) && e.scriptTarget == ES5 then ep.(esm5 := Some(js), moduleEntry := Some(js))
        else if m == Some(ModuleUMD) || m == Some(ModuleCommonJS) then ep.(main := Some(js))
        else ep;
      if e.declaration then ep1.(typings := Some(TypingsEntryFile(info, e))) else ep1
  }

  // ---------------------------------------------------------------------------
  // The whole of `prepareScriptTranspilations`, as functions on values.

  /** The tsconfig of explicit entry `i`: its own, else the project's, else the previous entry's, else (entry 0) the detected one. */
  function ChooseTsConfig(info: ProjectInfo, projectTsConfig: Option<Path>, fs: FileSystem,
                          entry: ScriptTranspilationEntry, i: nat, previous: Option<Path>): Option<Path> {
    if Truthy(entry.tsConfig) then Some(Resolve(info.projectRoot, entry.tsConfig.value))
    else if projectTsConfig.Some? then projectTsConfig
    else if i > 0 && previous.Some? then previous
    else if i == 0 then DetectedTsConfigPath(info, fs)
    else None
  }

  /** Where the loop over explicit entries ends: the entries built, the entry points, and the error thrown if any. */
  datatype Outcome = Outcome(entries: seq<TranspilationEntryInternal>, entryPoint: PackageJsonEntryPoint, error: Option<PlanError>)

  /**
   * Explicit entry `i` (lines 49-78): its tsconfig by the fallback order,
   * `previous` being the tsconfig of entry `i - 1`, then the transpilation,
   * which the planner tags 1 whatever `i` is.
   */
  function EntryAt(info: ProjectInfo, projectTsConfig: Option<Path>, projectJson: Option<TsConfigJson>, fs: FileSystem,
                   entry: ScriptTranspilationEntry, i: nat, previous: Option<Path>): (r: Result<TranspilationEntryInternal, PlanError>)
    ensures r.Success? ==> r.value.entry == entry && r.value.index == 1
                           && Some(r.value.tsConfigPath) == ChooseTsConfig(info, projectTsConfig, fs, entry, i, previous)
    ensures r == Failure(TsConfigRequired(i)) <==> ChooseTsConfig(info, projectTsConfig, fs, entry, i, previous).None?
    ensures r.Failure? ==> r.error.TsConfigRequired? ==> r.error.entryIndex == i
  {
    var path := ChooseTsConfig(info, projectTsConfig, fs, entry, i, previous);
    if path.None? then Failure(TsConfigRequired(i))
    else EntryPlan(info, projectJson, fs, path.value, entry, 1)
  }

  /** The tsconfig of the entry before entry `i` of `built`, if any. */
  function Previous(built: seq<TranspilationEntryInternal>, i: nat): Option<Path>
    requires i <= |built|
  {
    if i > 0 then Some(built[i - 1].tsConfigPath) else None
  }

  /** One turn of a loop over entries: entry `k` built, given the tsconfig of the entry before it. */
  type EntryStep = (nat, Option<Path>) -> Result<TranspilationEntryInternal, PlanError>

  /** `_packageJsonEntryPoint` after the writes of one transpilation. */
  type ManifestWrite = (PackageJsonEntryPoint, TranspilationEntryInternal) -> PackageJsonEntryPoint

  /**
   * A loop over `n` entries from entry `i` on, `acc` holding the entries built
   * so far: it stops at the first entry that fails, and otherwise keeps each
   * entry built and its writes to `package.json`.
   */
  function Loop(step: EntryStep, write: ManifestWrite, n: nat, i: nat,
                acc: seq<TranspilationEntryInternal>, ep: PackageJsonEntryPoint): Outcome
    requires i <= n && |acc| == i
    decreases n - i
  {
    if i == n then Outcome(acc, ep, None)
    else
      match step(i, Previous(acc, i))
      case Failure(err) => Outcome(acc, ep, Some(err))
      case Success(e) => Loop(step, write, n, i + 1, acc + [e], write(ep, e))
  }

  /** Explicit entry `k` of `entries`; past the last entry there is none, hence no tsconfig. */
  function EntryStepOf(info: ProjectInfo, projectTsConfig: Option<Path>, projectJson: Option<TsConfigJson>, fs: FileSystem,
                       entries: seq<ScriptTranspilationEntry>): EntryStep {
    (k: nat, previous: Option<Path>) =>
      if k < |entries| then EntryAt(info, projectTsConfig, projectJson, fs, entries[k], k, previous)
      else Failure(TsConfigRequired(k))
  }

  function ManifestWriteOf(info: ProjectInfo): ManifestWrite {
    (ep: PackageJsonEntryPoint, e: TranspilationEntryInternal) => ManifestAfter(info, ep, e)
  }

  /** The loop over explicit entries (lines 41-78) from entry `i` on, `acc` holding the entries built so far. */
  function RunEntries(info: ProjectInfo, projectTsConfig: Option<Path>, projectJson: Option<TsConfigJson>, fs: FileSystem,
                      entries: seq<ScriptTranspilationEntry>, i: nat, acc: seq<TranspilationEntryInternal>,
                      ep: PackageJsonEntryPoint): Outcome
    requires i <= |entries| && |acc| == i
  {
    Loop(EntryStepOf(info, projectTsConfig, projectJson, fs, entries), ManifestWriteOf(info), |entries|, i, acc, ep)
  }

  const DefaultEsm2015Entry := ScriptTranspilationEntry(None, Some("esm2015"), Some("es2015"), None)
  const DefaultEsm5Entry := ScriptTranspilationEntry(None, Some("esm5"), Some("es5"), Some(false))

  /** The two default transpilations (esm2015, then esm5) with tsconfig `path`. */
  function RunDefaults(info: ProjectInfo, projectJson: Option<TsConfigJson>, fs: FileSystem, path: Path,
                       ep: PackageJsonEntryPoint): Outcome {
    match EntryPlan(info, projectJson, fs, path, DefaultEsm2015Entry, 0)
    case Failure(err) => Outcome([], ep, Some(err))
    case Success(e0) =>
      var ep0 := ManifestAfter(info, ep, e0);
      match EntryPlan(info, projectJson, fs, path, DefaultEsm5Entry, 1)
      case Failure(err) => Outcome([], ep0, Some(err))
      case Success(e1) => Outcome([e0, e1], ManifestAfter(info, ep0, e1), None)
  }

  /** The build action after the project-level tsconfig is taken in (lines 28-37), and the error if it cannot be read. */
  function TakeProjectTsConfig(info: ProjectInfo, setting: ScriptTranspilationSetting, s: PlanState, fs: FileSystem): (PlanState, Option<PlanError>) {
    if setting.Options? && Truthy(setting.tsConfig) then
      var path := Resolve(info.projectRoot, setting.tsConfig.value);
      if path !in fs.tsConfigs then (s.(tsConfigPath := Some(path)), Some(TsConfigUnreadable(path)))
      else
        var file := fs.tsConfigs[path];
        (s.(tsConfigPath := Some(path), tsConfigJson := Some(file.json), tsCompilerConfig := Some(file.options)), None)
    else (s, None)
  }

  /** The state after `prepareScriptTranspilations`, and the error it throws if any. */
  function Prepare(info: ProjectInfo, setting: ScriptTranspilationSetting, s: PlanState, fs: FileSystem): (PlanState, Option<PlanError>) {
    var (s1, err1) := TakeProjectTsConfig(info, setting, s, fs);
    if err1.Some? then (s1, err1)
    else if setting.Options? && setting.entries.Some? then
      var o := RunEntries(info, s1.tsConfigPath, s1.tsConfigJson, fs, setting.entries.value, 0, [], s1.packageJsonEntryPoint);
      if o.error.Some? then (s1.(packageJsonEntryPoint := o.entryPoint), o.error)
      else (s1.(packageJsonEntryPoint := o.entryPoint, scriptTranspilationEntries := o.entries), None)
    else if setting.Off? then
      (s1.(scriptTranspilationEntries := []), None)
    else
      var path := if s1.tsConfigPath.Some? then s1.tsConfigPath else DetectedTsConfigPath(info, fs);
      if path.None? then (s1, Some(TsConfigNotDetected))
      else
        var o := RunDefaults(info, s1.tsConfigJson, fs, path.value, s1.packageJsonEntryPoint);
        if o.error.Some? then (s1.(packageJsonEntryPoint := o.entryPoint), o.error)
        else (s1.(packageJsonEntryPoint := o.entryPoint, scriptTranspilationEntries := o.entries), None)
  }

  // ---------------------------------------------------------------------------
  // The build action, updated in place.

  class BuildActionInternal {
    const info: ProjectInfo
    const scriptTranspilation: ScriptTranspilationSetting
    var tsConfigPath: Option<Path>
    var tsConfigJson: Option<TsConfigJson>
    var tsCompilerConfig: Option<CompilerOptions>
    var packageJsonEntryPoint: PackageJsonEntryPoint
    var scriptTranspilationEntries: seq<TranspilationEntryInternal>

    function State(): PlanState
      reads this
    {
      PlanState(tsConfigPath, tsConfigJson, tsCompilerConfig, packageJsonEntryPoint, scriptTranspilationEntries)
    }

    constructor (info: ProjectInfo, scriptTranspilation: ScriptTranspilationSetting, s: PlanState)
      ensures this.info == info && this.scriptTranspilation == scriptTranspilation && State() == s
    {
      this.info := info;
      this.scriptTranspilation := scriptTranspilation;
      tsConfigPath := s.tsConfigPath;
      tsConfigJson := s.tsConfigJson;
      tsCompilerConfig := s.tsCompilerConfig;
      packageJsonEntryPoint := s.packageJsonEntryPoint;
      scriptTranspilationEntries := s.scriptTranspilationEntries;
    }

    /** `toTranspilationEntryInternal(tsConfigPath, entry, i, this)`. */
    method ToTranspilationEntryInternal(fs: FileSystem, tsConfigPath: Path, entry: ScriptTranspilationEntry, i: nat)
      returns (r: Result<TranspilationEntryInternal, PlanError>)
      modifies this`packageJsonEntryPoint
      ensures r == EntryPlan(info, this.tsConfigJson, fs, tsConfigPath, entry, i)
      ensures packageJsonEntryPoint == if r.Success? then ManifestAfter(info, old(packageJsonEntryPoint), r.value)
                                       else old(packageJsonEntryPoint)
    {
      if tsConfigPath !in fs.tsConfigs {
        return Failure(TsConfigUnreadable(tsConfigPath));
      }
      var file := fs.tsConfigs[tsConfigPath];
      var compilerOptions := file.options;

      // scriptTarget
      var scriptTarget := ES2017;
      if Truthy(entry.target) {
        var tsScriptTarget := ToTsScriptTarget(entry.target.value);
        if tsScriptTarget.None? {
          return Failure(InvalidScriptTarget(i));
        }
        scriptTarget := tsScriptTarget.value;
      } else if compilerOptions.target.Some? && compilerOptions.target.value != ES3 {
        scriptTarget := compilerOptions.target.value;
      }

      // declaration
      var declaration := true;
      if entry.declaration.Some? {
        declaration := entry.declaration.value;
      } else if compilerOptions.declaration.Some? {
        declaration := compilerOptions.declaration.value;
      }

      // tsOutDir
      var (outDir, customTsOutDir) := OutDirFor(info, tsConfigPath, entry, compilerOptions);
      var tsOutDir := WithRootDirOffset(outDir, tsConfigPath, compilerOptions.rootDir);

      var detectedEntryName := DetectEntryName(info, this.tsConfigJson, fs, Dirname(tsConfigPath));
      var e := TranspilationEntryInternal(entry, i, scriptTarget, tsConfigPath, file.json, compilerOptions,
                                          declaration, tsOutDir, detectedEntryName, customTsOutDir);

      AddEntryPoints(e);
      return Success(e);
    }

    /** The tsconfig of explicit entry `i` (lines 49-63), `previous` being the tsconfig of entry `i - 1`. */
    method EntryTsConfigPath(fs: FileSystem, entry: ScriptTranspilationEntry, i: nat, previous: Option<Path>) returns (path: Option<Path>)
      ensures path == ChooseTsConfig(info, tsConfigPath, fs, entry, i, previous)
    {
      path := None;
      if Truthy(entry.tsConfig) {
        path := Some(Resolve(info.projectRoot, entry.tsConfig.value));
      } else if tsConfigPath.Some? {
        path := tsConfigPath;
      } else if i > 0 && previous.Some? {
        path := previous;
      } else if i == 0 {
        path := DetectTsConfigPath(info, fs);
      }
    }

    /** The loop over explicit entries (lines 41-78): the entries built, or the error thrown. */
    method TranspileEntries(fs: FileSystem, entries: seq<ScriptTranspilationEntry>)
      returns (built: seq<TranspilationEntryInternal>, err: Option<PlanError>)
      modifies this`packageJsonEntryPoint
      ensures Outcome(built, packageJsonEntryPoint, err)
              == RunEntries(info, tsConfigPath, tsConfigJson, fs, entries, 0, [], old(packageJsonEntryPoint))
    {
      ghost var goal := RunEntries(info, tsConfigPath, tsConfigJson, fs, entries, 0, [], packageJsonEntryPoint);
      built := [];
      for i := 0 to |entries|
        invariant |built| == i
        invariant goal == RunEntries(info, tsConfigPath, tsConfigJson, fs, entries, i, built, packageJsonEntryPoint)
      {
        var entry := entries[i];
        var path := EntryTsConfigPath(fs, entry, i, Previous(built, i));
        if path.None? {
          return built, Some(TsConfigRequired(i));
        }
        var r := ToTranspilationEntryInternal(fs, path.value, entry, 1);
        if r.Failure? {
          return built, Some(r.error);
        }
        built := built + [r.value];
      }
      err := None;
    }

    /** The two default transpilations (lines 79-113) with tsconfig `path`. */
    method TranspileDefaults(fs: FileSystem, path: Path)
      returns (built: seq<TranspilationEntryInternal>, err: Option<PlanError>)
      modifies this`packageJsonEntryPoint
      ensures Outcome(built, packageJsonEntryPoint, err) == RunDefaults(info, tsConfigJson, fs, path, old(packageJsonEntryPoint))
    {
      var r0 := ToTranspilationEntryInternal(fs, path, DefaultEsm2015Entry, 0);
      if r0.Failure? {
        return [], Some(r0.error);
      }
      var r1 := ToTranspilationEntryInternal(fs, path, DefaultEsm5Entry, 1);
      if r1.Failure? {
        return [], Some(r1.error);
      }
      return [r0.value, r1.value], None;
    }

    /** The writes to `_packageJsonEntryPoint` at the end of `toTranspilationEntryInternal` (lines 207-252). */
    method AddEntryPoints(e: TranspilationEntryInternal)
      modifies this`packageJsonEntryPoint
      ensures packageJsonEntryPoint == ManifestAfter(info, old(packageJsonEntryPoint), e)
    {
      if Truthy(e.detectedEntryName) {
        var jsEntryFileRel := JsEntryFile(info, e);
        var m := e.compilerOptions.moduleKind;
        if IsEsModule(m) && e.scriptTarget == ES2015 {
          packageJsonEntryPoint := packageJsonEntryPoint.(es2015 := Some(jsEntryFileRel));
          packageJsonEntryPoint := packageJsonEntryPoint.(esm2015 := Some(jsEntryFileRel));
        } else if IsEsModule(m) && e.scriptTarget == ES5 {
          packageJsonEntryPoint := packageJsonEntryPoint.(esm5 := Some(jsEntryFileRel));
          packageJsonEntryPoint := packageJsonEntryPoint.(moduleEntry := Some(jsEntryFileRel));
        } else if m == Some(ModuleUMD) || m == Some(ModuleCommonJS) {
          packageJsonEntryPoint := packageJsonEntryPoint.(main := Some(jsEntryFileRel));
        }
        if e.declaration {
          packageJsonEntryPoint := packageJsonEntryPoint.(typings := Some(TypingsEntryFile(info, e)));
        }
      }
    }

    /** The project-level tsconfig (lines 28-37): recorded, then read; `err` is what the reader throws. */
    method TakeTsConfig(fs: FileSystem) returns (err: Option<PlanError>)
      modifies this`tsConfigPath, this`tsConfigJson, this`tsCompilerConfig
      ensures (State(), err) == TakeProjectTsConfig(info, scriptTranspilation, old(State()), fs)
    {
      if scriptTranspilation.Options? && Truthy(scriptTranspilation.tsConfig) {
        var path := Resolve(info.projectRoot, scriptTranspilation.tsConfig.value);
        tsConfigPath := Some(path);
        if path !in fs.tsConfigs {
          return Some(TsConfigUnreadable(path));
        }
        tsConfigJson := Some(fs.tsConfigs[path].json);
        tsCompilerConfig := Some(fs.tsConfigs[path].options);
      }
      return None;
    }

    /** `prepareScriptTranspilations(this)`; `err` is what it throws. */
    method PrepareScriptTranspilations(fs: FileSystem) returns (err: Option<PlanError>)
      modifies this
      ensures (State(), err) == Prepare(info, scriptTranspilation, old(State()), fs)
    {
      err := TakeTsConfig(fs);
      if err.Some? {
        return;
      }

      var transpilationEntries: seq<TranspilationEntryInternal> := [];
      if scriptTranspilation.Options? && scriptTranspilation.entries.Some? {
        transpilationEntries, err := TranspileEntries(fs, scriptTranspilation.entries.value);
        if err.Some? {
          return;
        }
      } else if scriptTranspilation != Off {
        var path: Option<Path>;
        if tsConfigPath.Some? {
          path := tsConfigPath;
        } else {
          path := DetectTsConfigPath(info, fs);
        }
        if path.None? {
          return Some(TsConfigNotDetected);
        }
        transpilationEntries, err := TranspileDefaults(fs, path.value);
        if err.Some? {
          return;
        }
      }
      scriptTranspilationEntries := transpilationEntries;
      return None;
    }
  }
}
