/**
 * What the build planner reads from a TypeScript configuration file. The
 * reader and parser of these files belong to the TypeScript compiler; here a
 * file system maps each readable tsconfig path to its parsed content.
 */
module TsConfig {
  import opened Common
  import opened Strings
  import opened Paths

  // `ts.ScriptTarget` values.
  const ES3: int := 0
  const ES5: int := 1
  const ES2015: int := 2
  const ES2016: int := 3
  const ES2017: int := 4
  const ES2018: int := 5
  const ES2019: int := 6
  const ES2020: int := 7
  const ESNext: int := 99

  // `ts.ModuleKind` values.
  const ModuleNone: int := 0
  const ModuleCommonJS: int := 1
  const ModuleAMD: int := 2
  const ModuleUMD: int := 3
  const ModuleSystem: int := 4
  const ModuleES2015: int := 5
  const ModuleES2020: int := 6
  const ModuleESNext: int := 99

  /** The parsed `compilerOptions` the planner consults (paths already made absolute by the parser, except `outDir`, which the planner resolves itself). */
  datatype CompilerOptions = CompilerOptions(
    target: Option<int>,
    moduleKind: Option<int>,
    declaration: Option<bool>,
    outDir: Option<string>,
    rootDir: Option<Path>)

  datatype AngularCompilerOptions = AngularCompilerOptions(flatModuleOutFile: Option<string>)

  /** The raw JSON of a tsconfig file, reduced to what the planner reads. */
  datatype TsConfigJson = TsConfigJson(angularCompilerOptions: Option<AngularCompilerOptions>)

  datatype TsConfigFile = TsConfigFile(json: TsConfigJson, options: CompilerOptions)

  /** The file system: the paths that exist, and the tsconfig files that can be read and parsed. */
  datatype FileSystem = FileSystem(existing: set<Path>, tsConfigs: map<Path, TsConfigFile>)

  /** The accepted target names (`ScriptTargetString`), compared without regard to case. */
  const TargetNames: seq<(string, int)> := [
    ("es5", ES5), ("es2015", ES2015), ("es2016", ES2016), ("es2017", ES2017),
    ("es2018", ES2018), ("es2019", ES2019), ("es2020", ES2020),
    ("esnext", ESNext), ("latest", ESNext)
  ]

  function TargetFrom(s: string, k: nat): (r: Option<int>)
    requires k <= |TargetNames|
    ensures r.Some? <==> exists n :: k <= n < |TargetNames| && EqualsIgnoreCase(s, TargetNames[n].0)
    ensures r.Some? ==> exists n :: k <= n < |TargetNames| && EqualsIgnoreCase(s, TargetNames[n].0) && r.value == TargetNames[n].1
    decreases |TargetNames| - k
  {
    if k == |TargetNames| then None
    else if EqualsIgnoreCase(s, TargetNames[k].0) then Some(TargetNames[k].1)
    else TargetFrom(s, k + 1)
  }

  /** `toTsScriptTarget(s)`: the target a name denotes, or `null` (`None`) for an unknown name. */
  function ToTsScriptTarget(s: string): (r: Option<int>)
    ensures r.Some? <==> exists n :: 0 <= n < |TargetNames| && EqualsIgnoreCase(s, TargetNames[n].0)
    ensures r.Some? ==> r.value in {ES5, ES2015, ES2016, ES2017, ES2018, ES2019, ES2020, ESNext}
  {
    TargetFrom(s, 0)
  }
}
