/**
 * The selection logic of `getWebpackBuildConfig`: validating the config
 * path, normalising the `mode` flags of the build environment, preparing
 * the project-name filter, filtering and skipping projects, and choosing
 * the webpack plugins (build steps) of each project.
 */
module BuildConfig {
  import opened Common
  import opened Strings
  import opened Paths
  import opened LibConfigs
  import opened CleanOptionsPrep

  /** The `InvalidConfigError`s the planner raises, by cause. */
  datatype BuildError =
    | ConfigPathRequired
    | InvalidConfigFile(path: string)
    | CouldNotReadConfigFile(path: string)
    | InvalidConfiguration
    | NoProjectToBuild

  // ---------------------------------------------------------------------------
  // The config path.

  /**
   * The checks on `libConfigPath`: it is required (the empty string is
   * falsy) and must end in `.json`, in any letter case.
   */
  function CheckConfigPath(libConfigPath: string): (r: Option<BuildError>)
    ensures r.None? <==> libConfigPath != "" && EndsWithIgnoreCase(libConfigPath, ".json")
    ensures r.Some? ==> r.value == ConfigPathRequired || r.value == InvalidConfigFile(libConfigPath)
    ensures r == Some(ConfigPathRequired) <==> libConfigPath == ""
  {
    if libConfigPath == "" then Some(ConfigPathRequired)
    else if !EndsWithIgnoreCase(libConfigPath, ".json") then Some(InvalidConfigFile(libConfigPath))
    else None
  }

  // ---------------------------------------------------------------------------
  // The build environment and `mode`.

  /** A value of the build environment: `boolean | string`. */
  datatype EnvValue = EnvBool(b: bool) | EnvString(s: string)

  type Environment = map<string, EnvValue>

  /** JavaScript truthiness of an environment value. */
  predicate Truthy(v: EnvValue) {
    if v.EnvBool? then v.b else v.s != ""
  }

  /** `environment[key]` is truthy; an absent key reads as `undefined`. */
  predicate IsOn(env: Environment, key: string) {
    key in env && Truthy(env[key])
  }

  /** `key` holds the same value (or is absent) in both environments. */
  predicate Same(env: Environment, r: Environment, key: string) {
    (key in r <==> key in env) && (key in env ==> r[key] == env[key])
  }

  /** `key` was turned to `false` if it was truthy, and left alone otherwise. */
  predicate SwitchedOff(env: Environment, r: Environment, key: string) {
    if IsOn(env, key) then key in r && r[key] == EnvBool(false) else Same(env, r, key)
  }

  predicate SetTrue(r: Environment, key: string) {
    key in r && r[key] == EnvBool(true)
  }

  /** The flags `mode` touches. */
  predicate IsModeKey(key: string) {
    key == "prod" || key == "production" || key == "dev" || key == "development"
  }

  /** `if (environment[key]) { environment[key] = false; }` */
  function SwitchOff(env: Environment, key: string): Environment {
    if IsOn(env, key) then env[key := EnvBool(false)] else env
  }

  /**
   * The environment after `mode` is applied. `production` sets `prod` and
   * `production` and switches `dev` and `development` off where they were
   * on; `development` does the reverse; any other mode (or none) changes
   * nothing. No other flag is touched.
   */
  function ModeApplied(env: Environment, mode: Option<string>): (r: Environment)
    ensures mode == Some("production") ==>
      SetTrue(r, "prod") && SetTrue(r, "production") &&
      SwitchedOff(env, r, "dev") && SwitchedOff(env, r, "development") &&
      !IsOn(r, "dev") && !IsOn(r, "development")
    ensures mode == Some("development") ==>
      SetTrue(r, "dev") && SetTrue(r, "development") &&
      SwitchedOff(env, r, "prod") && SwitchedOff(env, r, "production") &&
      !IsOn(r, "prod") && !IsOn(r, "production")
    ensures mode != Some("production") && mode != Some("development") ==> r == env
    ensures forall key :: !IsModeKey(key) ==> Same(env, r, key)
  {
    if mode == Some("production") then
      SwitchOff(SwitchOff(env["prod" := EnvBool(true)]["production" := EnvBool(true)], "dev"), "development")
    else if mode == Some("development") then
      SwitchOff(SwitchOff(env["dev" := EnvBool(true)]["development" := EnvBool(true)], "prod"), "production")
    else
      env
  }

  /** Applying the same `mode` twice changes nothing more. */
  lemma ModeAppliedIdempotent(env: Environment, mode: Option<string>)
    ensures ModeApplied(ModeApplied(env, mode), mode) == ModeApplied(env, mode)
  {
    var r := ModeApplied(env, mode);
    var r2 := ModeApplied(r, mode);
    if mode == Some("production") || mode == Some("development") {
      forall key | key in r
        ensures key in r2 && r2[key] == r[key]
      {
        if !IsModeKey(key) {
          assert Same(r, r2, key);
        }
      }
      assert r2.Keys == r.Keys by {
        forall key | key in r2
          ensures key in r
        {
          if !IsModeKey(key) {
            assert Same(r, r2, key);
          }
        }
      }
    }
  }

  /** `BuildOptionsInternal`; only its environment is modelled. */
  class BuildOptions {
    var environment: Environment

    constructor (environment: Environment)
      ensures this.environment == environment
    {
      this.environment := environment;
    }

    /** The `argv.mode` handling: the flags are updated one assignment at a time. */
    method ApplyMode(mode: Option<string>)
      modifies this
      ensures environment == ModeApplied(old(environment), mode)
    {
      if mode.Some? && mode.value != "" {
        if mode.value == "production" {
          environment := environment["prod" := EnvBool(true)];
          environment := environment["production" := EnvBool(true)];
          if IsOn(environment, "dev") {
            environment := environment["dev" := EnvBool(false)];
          }
          if IsOn(environment, "development") {
            environment := environment["development" := EnvBool(false)];
          }
        } else if mode.value == "development" {
          environment := environment["dev" := EnvBool(true)];
          environment := environment["development" := EnvBool(true)];
          if IsOn(environment, "prod") {
            environment := environment["prod" := EnvBool(false)];
          }
          if IsOn(environment, "production") {
            environment := environment["production" := EnvBool(false)];
          }
        }
      }
    }
  }

  // ---------------------------------------------------------------------------
  // `prepareFilterNames`.

  /** `filter: string | string[]`, or absent. */
  datatype FilterSetting = FilterUnset | FilterString(s: string) | FilterList(names: seq<string>)

  /** Each name trimmed. */
  function Trimmed(names: seq<string>): (r: seq<string>)
    ensures |r| == |names|
    ensures forall j :: 0 <= j < |names| ==> r[j] == Trim(names[j])
  {
    seq(|names|, j requires 0 <= j < |names| => Trim(names[j]))
  }

  /** The non-empty names, each kept at its first occurrence. */
  function Dedup(ts: seq<string>): seq<string>
    decreases |ts|
  {
    if ts == [] then []
    else
      var acc := Dedup(ts[..|ts| - 1]);
      var t := ts[|ts| - 1];
      if t != "" && t !in acc then acc + [t] else acc
  }

  /** The trimmed, non-blank names, each kept at its first occurrence. */
  function DistinctTrimmed(names: seq<string>): seq<string> {
    Dedup(Trimmed(names))
  }

  /** What `prepareFilterNames` returns: a single string is kept untrimmed when it is not blank. */
  function FilterNames(filter: FilterSetting): seq<string> {
    match filter
    case FilterUnset => []
    case FilterString(s) => if s != "" && Trim(s) != "" then [s] else []
    case FilterList(names) => DistinctTrimmed(names)
  }

  method PrepareFilterNames(filter: FilterSetting) returns (filterNames: seq<string>)
    ensures filterNames == FilterNames(filter)
  {
    filterNames := [];
    if filter.FilterList? {
      var names := filter.names;
      for i := 0 to |names|
        invariant filterNames == Dedup(Trimmed(names[..i]))
      {
        var filterName := names[i];
        assert Trimmed(names[..i + 1])[..i] == Trimmed(names[..i]);
        if filterName != "" && Trim(filterName) != "" && Trim(filterName) !in filterNames {
          filterNames := filterNames + [Trim(filterName)];
        }
      }
      assert names[..|names|] == names;
    } else if filter.FilterString? && filter.s != "" && Trim(filter.s) != "" {
      filterNames := [filter.s];
    }
  }

  /** No name is listed twice. */
  lemma {:induction false} DedupNoDuplicates(ts: seq<string>)
    ensures forall i, j :: 0 <= i < j < |Dedup(ts)| ==> Dedup(ts)[i] != Dedup(ts)[j]
    decreases |ts|
  {
    if ts != [] {
      DedupNoDuplicates(ts[..|ts| - 1]);
    }
  }

  /** The listed names are exactly the non-empty input names. */
  lemma {:induction false} DedupMembers(ts: seq<string>)
    ensures forall x :: x in Dedup(ts) <==> x != "" && x in ts
    decreases |ts|
  {
    if ts != [] {
      var init := ts[..|ts| - 1];
      DedupMembers(init);
      assert ts == init + [ts[|ts| - 1]];
    }
  }

  /** Input `j` is the first occurrence of `x`. */
  predicate FirstAt(ts: seq<string>, x: string, j: nat) {
    j < |ts| && ts[j] == x && x !in ts[..j]
  }

  /**
   * The names come in first-occurrence order: name `a` is input `idx[a]`,
   * which is where it first occurs, and `idx` increases.
   */
  lemma {:induction false} DedupOrder(ts: seq<string>) returns (idx: seq<nat>)
    ensures |idx| == |Dedup(ts)|
    ensures forall a :: 0 <= a < |idx| ==> FirstAt(ts, Dedup(ts)[a], idx[a])
    ensures forall a, b :: 0 <= a < b < |idx| ==> idx[a] < idx[b]
    decreases |ts|
  {
    if ts == [] {
      idx := [];
    } else {
      var init := ts[..|ts| - 1];
      var last := |ts| - 1;
      var acc := Dedup(init);
      var prev := DedupOrder(init);
      var t := ts[last];
      forall a | 0 <= a < |prev|
        ensures FirstAt(ts, acc[a], prev[a])
      {
        assert ts[..prev[a]] == init[..prev[a]];
      }
      if t != "" && t !in acc {
        idx := prev + [last];
        DedupMembers(init);
        assert ts[..last] == init;
      } else {
        idx := prev;
      }
    }
  }

  /** The filter names are the distinct non-blank trimmed inputs, without repeats, in first-occurrence order. */
  lemma DistinctTrimmedShape(names: seq<string>) returns (idx: seq<nat>)
    ensures forall x :: x in DistinctTrimmed(names) <==> x != "" && x in Trimmed(names)
    ensures forall i, j :: 0 <= i < j < |DistinctTrimmed(names)| ==> DistinctTrimmed(names)[i] != DistinctTrimmed(names)[j]
    ensures |idx| == |DistinctTrimmed(names)|
    ensures forall a :: 0 <= a < |idx| ==> FirstAt(Trimmed(names), DistinctTrimmed(names)[a], idx[a])
    ensures forall a, b :: 0 <= a < b < |idx| ==> idx[a] < idx[b]
  {
    DedupMembers(Trimmed(names));
    DedupNoDuplicates(Trimmed(names));
    idx := DedupOrder(Trimmed(names));
  }

  /** A single string filter is one name, as given, unless it is blank. */
  lemma FilterStringName(s: string)
    ensures FilterNames(FilterString(s)) == (if IsBlank(s) then [] else [s])
  {
  }

  // ---------------------------------------------------------------------------
  // The project filter.

  /** `projectConfig.name` is truthy. */
  predicate NameTruthy(name: Option<string>) {
    name.Some? && name.value != ""
  }

  /** The predicate of the `.filter` call over the projects. */
  predicate KeepProject(filterNames: seq<string>, p: ProjectConfigInternal) {
    |filterNames| == 0 || (|filterNames| > 0 && NameTruthy(p.config.name) && p.config.name.value in filterNames)
  }

  /** The projects `KeepProject` keeps, in their order. */
  function FilterProjects(filterNames: seq<string>, projects: seq<ProjectConfigInternal>): (r: seq<ProjectConfigInternal>)
    ensures |r| <= |projects|
  {
    if projects == [] then []
    else (if KeepProject(filterNames, projects[0]) then [projects[0]] else []) + FilterProjects(filterNames, projects[1..])
  }

  /** A project is kept exactly when it is one of the projects and the filter keeps it. */
  lemma {:induction false} FilterMembers(filterNames: seq<string>, projects: seq<ProjectConfigInternal>)
    ensures forall p :: p in FilterProjects(filterNames, projects) <==> p in projects && KeepProject(filterNames, p)
  {
    if projects != [] {
      FilterMembers(filterNames, projects[1..]);
      assert projects == [projects[0]] + projects[1..];
    }
  }

  /** With no filter names every project is kept. */
  lemma {:induction false} FilterWithoutNames(projects: seq<ProjectConfigInternal>)
    ensures FilterProjects([], projects) == projects
  {
    if projects != [] {
      FilterWithoutNames(projects[1..]);
    }
  }

  /** Filtering a concatenation filters each part: the order of the kept projects is their original order. */
  lemma {:induction false} FilterConcat(filterNames: seq<string>, a: seq<ProjectConfigInternal>, b: seq<ProjectConfigInternal>)
    ensures FilterProjects(filterNames, a + b) == FilterProjects(filterNames, a) + FilterProjects(filterNames, b)
  {
    if a != [] {
      assert (a + b)[1..] == a[1..] + b;
      FilterConcat(filterNames, a[1..], b);
    } else {
      assert a + b == b;
    }
  }

  /** Projects tagged in order stay in order after filtering. */
  lemma {:induction false} FilterKeepsIndexOrder(filterNames: seq<string>, projects: seq<ProjectConfigInternal>)
    requires IndicesIncreasing(projects)
    ensures IndicesIncreasing(FilterProjects(filterNames, projects))
  {
    if projects != [] {
      var head := projects[0];
      var tail := projects[1..];
      assert IndicesIncreasing(tail) by {
        forall i, j | 0 <= i < j < |tail|
          ensures tail[i].index < tail[j].index
        {
          assert tail[i] == projects[i + 1] && tail[j] == projects[j + 1];
        }
      }
      FilterKeepsIndexOrder(filterNames, tail);
      var rt := FilterProjects(filterNames, tail);
      if KeepProject(filterNames, head) {
        assert forall q :: q in rt ==> head.index < q.index by {
          FilterMembers(filterNames, tail);
          forall q | q in rt
            ensures head.index < q.index
          {
            var j :| 0 <= j < |tail| && tail[j] == q;
            assert projects[j + 1] == q;
          }
        }
        var r := [head] + rt;
        assert FilterProjects(filterNames, projects) == r;
        forall i, j | 0 <= i < j < |r|
          ensures r[i].index < r[j].index
        {
          assert r[j] == rt[j - 1];
          if i > 0 {
            assert r[i] == rt[i - 1];
          } else {
            assert rt[j - 1] in rt;
          }
        }
      } else {
        assert FilterProjects(filterNames, projects) == rt;
      }
    }
  }

  // ---------------------------------------------------------------------------
  // Plugin selection in `getWebpackBuildConfigInternal`.

  /** `string | AssetEntry`. */
  datatype Asset = AssetPath(path: string) | AssetObject(from: string, to: Option<string>, exclude: Option<seq<string>>)

  /** `copy?: (string | AssetEntry)[] | boolean`. */
  datatype CopySetting = CopyUnset | CopyFlag(flag: bool) | CopyAssets(assets: seq<Asset>)

  /**
   * The part of `ProjectConfigBuildInternal` the plugin choice reads.
   * `tsTranspilations` and `bundles` are the lengths of `_tsTranspilations`
   * and `_bundles` (0 when absent); `packageJsonCopy` is its truthiness.
   */
  datatype ProjectConfigBuild = ProjectConfigBuild(
    name: Option<string>,
    skip: bool,
    clean: CleanSetting,
    tsTranspilations: nat,
    bundles: nat,
    packageJsonCopy: bool,
    copy: CopySetting,
    projectRoot: Path,
    outputPath: Path)

  /** The plugins, in the order `getWebpackBuildConfigInternal` pushes them. */
  datatype Plugin =
    | ProjectBuildInfo
    | CleanPlugin
    | TsTranspilationsPlugin
    | RollupBundlesPlugin
    | PackageJsonFilePlugin
    | CopyPlugin(assets: seq<Asset>, baseDir: Path, outputPath: Path)

  function Rank(p: Plugin): nat {
    match p
    case ProjectBuildInfo => 0
    case CleanPlugin => 1
    case TsTranspilationsPlugin => 2
    case RollupBundlesPlugin => 3
    case PackageJsonFilePlugin => 4
    case CopyPlugin(_, _, _) => 5
  }

  /** The webpack `Configuration` of one project: `name`, `output.path`, `context` and `plugins`. */
  datatype WebpackConfig = WebpackConfig(name: Option<string>, outputPath: Path, context: Path, plugins: seq<Plugin>)

  /** `shouldClean`: every `clean` value but `false` cleans. */
  predicate ShouldClean(p: ProjectConfigBuild) {
    p.clean != CleanFlag(false)
  }

  /** The copy plugin's assets, when `copy` is a non-empty array. */
  predicate HasCopyAssets(p: ProjectConfigBuild) {
    p.copy.CopyAssets? && |p.copy.assets| > 0
  }

  function CopyPluginFor(p: ProjectConfigBuild): Plugin {
    CopyPlugin(if p.copy.CopyAssets? then p.copy.assets else [], p.projectRoot, p.outputPath)
  }

  /** `plugins.push(q)` when `included`. */
  function PushIf(plugins: seq<Plugin>, included: bool, q: Plugin): seq<Plugin> {
    if included then plugins + [q] else plugins
  }

  /** The info, clean, transpilation and bundle plugins, each pushed behind its condition. */
  function BuildPlugins(p: ProjectConfigBuild): seq<Plugin> {
    var withClean := PushIf([ProjectBuildInfo], ShouldClean(p), CleanPlugin);
    var withTs := PushIf(withClean, p.tsTranspilations > 0, TsTranspilationsPlugin);
    PushIf(withTs, p.bundles > 0, RollupBundlesPlugin)
  }

  /** The plugins of a project, each pushed behind its condition. */
  function PluginsFor(p: ProjectConfigBuild): seq<Plugin> {
    var withPackageJson := PushIf(BuildPlugins(p), p.packageJsonCopy, PackageJsonFilePlugin);
    PushIf(withPackageJson, HasCopyAssets(p), CopyPluginFor(p))
  }

  function ConfigFor(p: ProjectConfigBuild): WebpackConfig {
    WebpackConfig(p.name, p.outputPath, p.projectRoot, PluginsFor(p))
  }

  /** The ranks strictly increase along `plugins` and stay below `bound`. */
  predicate RankedBelow(plugins: seq<Plugin>, bound: nat) {
    (forall i :: 0 <= i < |plugins| ==> Rank(plugins[i]) < bound) &&
    (forall i, j :: 0 <= i < j < |plugins| ==> Rank(plugins[i]) < Rank(plugins[j]))
  }

  /** A conditional push adds `q` exactly when included. */
  lemma PushIfMembers(plugins: seq<Plugin>, included: bool, q: Plugin)
    ensures forall x :: x in PushIf(plugins, included, q) <==> x in plugins || (included && x == q)
  {
  }

  /** A conditional push keeps the first plugin and keeps the ranks increasing. */
  lemma PushIfFacts(plugins: seq<Plugin>, included: bool, q: Plugin)
    requires |plugins| >= 1 && RankedBelow(plugins, Rank(q))
    ensures |PushIf(plugins, included, q)| >= 1 && PushIf(plugins, included, q)[0] == plugins[0]
    ensures RankedBelow(PushIf(plugins, included, q), Rank(q) + 1)
  {
  }

  lemma BuildPluginsRanked(p: ProjectConfigBuild)
    ensures |BuildPlugins(p)| >= 1 && BuildPlugins(p)[0] == ProjectBuildInfo && RankedBelow(BuildPlugins(p), 4)
  {
    var start := [ProjectBuildInfo];
    var withClean := PushIf(start, ShouldClean(p), CleanPlugin);
    var withTs := PushIf(withClean, p.tsTranspilations > 0, TsTranspilationsPlugin);
    assert |withClean| >= 1 && withClean[0] == ProjectBuildInfo && RankedBelow(withClean, 2) by {
      PushIfFacts(start, ShouldClean(p), CleanPlugin);
    }
    assert |withTs| >= 1 && withTs[0] == ProjectBuildInfo && RankedBelow(withTs, 3) by {
      PushIfFacts(withClean, p.tsTranspilations > 0, TsTranspilationsPlugin);
    }
    PushIfFacts(withTs, p.bundles > 0, RollupBundlesPlugin);
  }

  /** The info plugin comes first and only there, and the plugins come in a fixed order, each at most once. */
  lemma PluginsOrdered(p: ProjectConfigBuild)
    ensures |PluginsFor(p)| >= 1 && PluginsFor(p)[0] == ProjectBuildInfo
    ensures ProjectBuildInfo !in PluginsFor(p)[1..]
    ensures forall i, j :: 0 <= i < j < |PluginsFor(p)| ==> Rank(PluginsFor(p)[i]) < Rank(PluginsFor(p)[j])
  {
    var withBundles := BuildPlugins(p);
    var withPackageJson := PushIf(withBundles, p.packageJsonCopy, PackageJsonFilePlugin);
    var all := PushIf(withPackageJson, HasCopyAssets(p), CopyPluginFor(p));
    BuildPluginsRanked(p);
    assert |withPackageJson| >= 1 && withPackageJson[0] == ProjectBuildInfo && RankedBelow(withPackageJson, 5) by {
      PushIfFacts(withBundles, p.packageJsonCopy, PackageJsonFilePlugin);
    }
    assert |all| >= 1 && all[0] == ProjectBuildInfo && RankedBelow(all, 6) by {
      PushIfFacts(withPackageJson, HasCopyAssets(p), CopyPluginFor(p));
    }
    assert ProjectBuildInfo !in all[1..] by {
      forall i | 0 <= i < |all[1..]|
        ensures all[1..][i] != ProjectBuildInfo
      {
        assert Rank(all[0]) < Rank(all[i + 1]);
      }
    }
  }

  /**
   * When each plugin is included: the info plugin always; cleaning unless
   * `clean` is `false`; transpilation and bundling only for non-empty
   * lists; package.json copying when asked; asset copying only for a
   * non-empty array, with the project root as base and the output path as
   * target.
   */
  predicate Included(p: ProjectConfigBuild, q: Plugin) {
    match q
    case ProjectBuildInfo => true
    case CleanPlugin => ShouldClean(p)
    case TsTranspilationsPlugin => p.tsTranspilations > 0
    case RollupBundlesPlugin => p.bundles > 0
    case PackageJsonFilePlugin => p.packageJsonCopy
    case CopyPlugin(assets, baseDir, outputPath) =>
      HasCopyAssets(p) && assets == p.copy.assets && baseDir == p.projectRoot && outputPath == p.outputPath
  }

  /** The plugins of a project are exactly those `Included` says. */
  lemma PluginsIncluded(p: ProjectConfigBuild)
    ensures forall q :: q in PluginsFor(p) <==> Included(p, q)
  {
    var start := [ProjectBuildInfo];
    var withClean := PushIf(start, ShouldClean(p), CleanPlugin);
    var withTs := PushIf(withClean, p.tsTranspilations > 0, TsTranspilationsPlugin);
    var withBundles := PushIf(withTs, p.bundles > 0, RollupBundlesPlugin);
    assert withBundles == BuildPlugins(p);
    var withPackageJson := PushIf(withBundles, p.packageJsonCopy, PackageJsonFilePlugin);
    var all := PushIf(withPackageJson, HasCopyAssets(p), CopyPluginFor(p));
    PushIfMembers(start, ShouldClean(p), CleanPlugin);
    PushIfMembers(withClean, p.tsTranspilations > 0, TsTranspilationsPlugin);
    PushIfMembers(withTs, p.bundles > 0, RollupBundlesPlugin);
    PushIfMembers(withBundles, p.packageJsonCopy, PackageJsonFilePlugin);
    PushIfMembers(withPackageJson, HasCopyAssets(p), CopyPluginFor(p));
    assert all == PluginsFor(p);
  }

  /**
   * `getWebpackBuildConfigInternal`: the plugin list is built by pushing,
   * with `shouldClean` computed as the source writes it.
   */
  method GetWebpackBuildConfigInternal(projectConfig: ProjectConfigBuild) returns (config: WebpackConfig)
    ensures config == ConfigFor(projectConfig)
  {
    var projectRoot := projectConfig.projectRoot;
    var outputPath := projectConfig.outputPath;

    var plugins := [ProjectBuildInfo];

    var cleanTruthy := projectConfig.clean.CleanObject? || projectConfig.clean == CleanFlag(true);
    var shouldClean := cleanTruthy || projectConfig.clean != CleanFlag(false);
    if projectConfig.clean == CleanFlag(false) {
      shouldClean := false;
    }
    if shouldClean {
      plugins := plugins + [CleanPlugin];
    }
    assert plugins == PushIf([ProjectBuildInfo], ShouldClean(projectConfig), CleanPlugin);

    if projectConfig.tsTranspilations > 0 {
      plugins := plugins + [TsTranspilationsPlugin];
    }

    if projectConfig.bundles > 0 {
      plugins := plugins + [RollupBundlesPlugin];
    }

    if projectConfig.packageJsonCopy {
      plugins := plugins + [PackageJsonFilePlugin];
    }

    if projectConfig.copy.CopyAssets? && |projectConfig.copy.assets| > 0 {
      plugins := plugins + [CopyPlugin(projectConfig.copy.assets, projectRoot, outputPath)];
    }

    config := WebpackConfig(projectConfig.name, outputPath, projectRoot, plugins);
  }

  // ---------------------------------------------------------------------------
  // `getWebpackBuildConfig`.

  /**
   * The project names to build: from the webpack CLI, the `projectName`
   * argument when it is truthy; otherwise the prepared `filter`, when it is
   * a non-empty array.
   */
  function FilteredNames(fromWebpackCli: bool, projectName: Option<string>, filter: FilterSetting): seq<string> {
    if fromWebpackCli then (if NameTruthy(projectName) then [projectName.value] else [])
    else if filter.FilterList? && |filter.names| > 0 then FilterNames(filter)
    else []
  }

  /**
   * The preparation of one project for the build: `applyProjectConfigExtends`
   * followed by `prepareProjectConfigForBuild`, either of which may throw.
   */
  type PrepareStep = (ProjectConfigInternal, Environment) -> Result<ProjectConfigBuild, BuildError>

  /** Each project prepared for the build, in order, or the error of the first project whose preparation throws. */
  function Prepared(prepare: PrepareStep, projects: seq<ProjectConfigInternal>, env: Environment): Result<seq<ProjectConfigBuild>, BuildError>
    decreases |projects|
  {
    if projects == [] then Success([])
    else
      match Prepared(prepare, projects[..|projects| - 1], env)
      case Failure(e) => Failure(e)
      case Success(builds) =>
        match prepare(projects[|projects| - 1], env)
        case Failure(e) => Failure(e)
        case Success(b) => Success(builds + [b])
  }

  /** The plan of the projects: one configuration per prepared project that is not skipped, or the first preparation error. */
  function PlanProjects(prepare: PrepareStep, projects: seq<ProjectConfigInternal>, env: Environment): Result<seq<WebpackConfig>, BuildError> {
    match Prepared(prepare, projects, env)
    case Failure(e) => Failure(e)
    case Success(builds) => Success(Planned(builds))
  }

  /** Preparation succeeds exactly when every project's does, and then gives each project's build, in order. */
  lemma {:induction false} PreparedSucceeds(prepare: PrepareStep, projects: seq<ProjectConfigInternal>, env: Environment)
    ensures Prepared(prepare, projects, env).Success? <==> forall i :: 0 <= i < |projects| ==> prepare(projects[i], env).Success?
    ensures Prepared(prepare, projects, env).Success? ==>
              && |Prepared(prepare, projects, env).value| == |projects|
              && forall i :: 0 <= i < |projects| ==> Prepared(prepare, projects, env).value[i] == prepare(projects[i], env).value
    decreases |projects|
  {
    if projects != [] {
      var init := projects[..|projects| - 1];
      PreparedSucceeds(prepare, init, env);
      assert forall i :: 0 <= i < |init| ==> init[i] == projects[i];
    }
  }

  /** A preparation error is the one of the first project whose preparation throws: project `i`, all before it prepared. */
  lemma {:induction false} PreparedFailsFirst(prepare: PrepareStep, projects: seq<ProjectConfigInternal>, env: Environment) returns (i: nat)
    requires Prepared(prepare, projects, env).Failure?
    ensures i < |projects| && prepare(projects[i], env) == Failure(Prepared(prepare, projects, env).error)
    ensures forall j :: 0 <= j < i ==> prepare(projects[j], env).Success?
    decreases |projects|
  {
    var init := projects[..|projects| - 1];
    assert forall j :: 0 <= j < |init| ==> init[j] == projects[j];
    if Prepared(prepare, init, env).Failure? {
      i := PreparedFailsFirst(prepare, init, env);
    } else {
      i := |projects| - 1;
      PreparedSucceeds(prepare, init, env);
    }
  }

  /** One configuration per project that is not skipped, in order. */
  function Planned(builds: seq<ProjectConfigBuild>): seq<WebpackConfig>
    decreases |builds|
  {
    if builds == [] then []
    else
      var last := builds[|builds| - 1];
      Planned(builds[..|builds| - 1]) + (if last.skip then [] else [ConfigFor(last)])
  }

  /** The projects that are not skipped. */
  function NotSkipped(builds: seq<ProjectConfigBuild>): (r: seq<ProjectConfigBuild>)
    ensures forall i :: 0 <= i < |r| ==> r[i] in builds && !r[i].skip
    ensures forall i :: 0 <= i < |builds| && !builds[i].skip ==> builds[i] in r
    decreases |builds|
  {
    if builds == [] then []
    else
      var last := builds[|builds| - 1];
      assert builds == builds[..|builds| - 1] + [last];
      NotSkipped(builds[..|builds| - 1]) + (if last.skip then [] else [last])
  }

  /** The plan is the configuration of each project that is not skipped, in order. */
  lemma {:induction false} PlannedNotSkipped(builds: seq<ProjectConfigBuild>)
    ensures |Planned(builds)| == |NotSkipped(builds)|
    ensures forall k :: 0 <= k < |Planned(builds)| ==> Planned(builds)[k] == ConfigFor(NotSkipped(builds)[k])
    decreases |builds|
  {
    if builds != [] {
      PlannedNotSkipped(builds[..|builds| - 1]);
    }
  }

  /** When no project is skipped, every project gets a configuration. */
  lemma PlannedNoneSkipped(builds: seq<ProjectConfigBuild>)
    requires forall i :: 0 <= i < |builds| ==> !builds[i].skip
    ensures |Planned(builds)| == |builds|
  {
    PlannedNotSkipped(builds);
    NotSkippedAll(builds);
  }

  lemma {:induction false} NotSkippedAll(builds: seq<ProjectConfigBuild>)
    requires forall i :: 0 <= i < |builds| ==> !builds[i].skip
    ensures NotSkipped(builds) == builds
    decreases |builds|
  {
    if builds != [] {
      var init := builds[..|builds| - 1];
      var last := builds[|builds| - 1];
      assert builds == init + [last];
      assert forall i :: 0 <= i < |init| ==> !init[i].skip by {
        assert forall i :: 0 <= i < |init| ==> init[i] == builds[i];
      }
      NotSkippedAll(init);
      assert NotSkipped(builds) == NotSkipped(init) + [last];
    }
  }

  /**
   * The argument handling of `getWebpackBuildConfig`. From the webpack CLI:
   * the project name, then `mode`; otherwise the `filter` option when it is
   * a non-empty array.
   */
  method ReadBuildArguments(fromWebpackCli: bool, projectName: Option<string>, mode: Option<string>,
                            filter: FilterSetting, buildOptions: BuildOptions)
    returns (filteredProjectNames: seq<string>)
    modifies buildOptions
    ensures filteredProjectNames == FilteredNames(fromWebpackCli, projectName, filter)
    ensures buildOptions.environment == (if fromWebpackCli then ModeApplied(old(buildOptions.environment), mode) else old(buildOptions.environment))
  {
    filteredProjectNames := [];
    if fromWebpackCli {
      if NameTruthy(projectName) {
        filteredProjectNames := filteredProjectNames + [projectName.value];
      }
      buildOptions.ApplyMode(mode);
    } else if filter.FilterList? && |filter.names| > 0 {
      var names := PrepareFilterNames(filter);
      filteredProjectNames := filteredProjectNames + names;
    }
  }

  /**
   * The loop over the filtered projects: prepare each, skip those flagged
   * `skip`, configure the rest; a preparation that throws ends the loop
   * with its error.
   */
  method BuildProjectConfigs(filteredProjectConfigs: seq<ProjectConfigInternal>, environment: Environment,
                             prepare: PrepareStep)
    returns (r: Result<seq<WebpackConfig>, BuildError>)
    ensures r == PlanProjects(prepare, filteredProjectConfigs, environment)
  {
    var webpackConfigs := [];
    for k := 0 to |filteredProjectConfigs|
      invariant Prepared(prepare, filteredProjectConfigs[..k], environment).Success?
      invariant webpackConfigs == Planned(Prepared(prepare, filteredProjectConfigs[..k], environment).value)
    {
      var prefix := filteredProjectConfigs[..k];
      assert filteredProjectConfigs[..k + 1][..k] == prefix;
      var prepared := prepare(filteredProjectConfigs[k], environment);
      if prepared.Failure? {
        assert Prepared(prepare, filteredProjectConfigs[..k + 1], environment) == Failure(prepared.error);
        PreparedFailurePersists(prepare, filteredProjectConfigs, k + 1, environment);
        return Failure(prepared.error);
      }
      var projectConfigBuildInternal := prepared.value;
      assert Prepared(prepare, filteredProjectConfigs[..k + 1], environment)
        == Success(Prepared(prepare, prefix, environment).value + [projectConfigBuildInternal]);
      if projectConfigBuildInternal.skip {
        continue;
      }
      var wpConfig := GetWebpackBuildConfigInternal(projectConfigBuildInternal);
      webpackConfigs := webpackConfigs + [wpConfig];
    }
    assert filteredProjectConfigs[..|filteredProjectConfigs|] == filteredProjectConfigs;
    return Success(webpackConfigs);
  }

  /** Once a prefix of the projects fails to prepare, so do all the projects, with the same error. */
  lemma {:induction false} PreparedFailurePersists(prepare: PrepareStep, projects: seq<ProjectConfigInternal>, k: nat, env: Environment)
    requires k <= |projects| && Prepared(prepare, projects[..k], env).Failure?
    ensures Prepared(prepare, projects, env) == Prepared(prepare, projects[..k], env)
    decreases |projects| - k
  {
    if k < |projects| {
      assert projects[..k + 1][..k] == projects[..k];
      PreparedFailurePersists(prepare, projects, k + 1, env);
    } else {
      assert projects[..k] == projects;
    }
  }

  /**
   * `getWebpackBuildConfig`. `configPath` is `libConfigPath` as a path,
   * `configExists` what `pathExists` answers for it, `libConfig` the parsed
   * and schema-checked config (`None` when reading or validation fails),
   * and `prepare` stands for `applyProjectConfigExtends` followed by
   * `prepareProjectConfigForBuild`, whose error, when one throws, ends the
   * call.
   */
  method GetWebpackBuildConfig(
    libConfigPath: string,
    configPath: Path,
    configExists: bool,
    fromWebpackCli: bool,
    projectName: Option<string>,
    mode: Option<string>,
    filter: FilterSetting,
    buildOptions: BuildOptions,
    libConfig: Option<LibConfig>,
    prepare: PrepareStep)
    returns (r: Result<seq<WebpackConfig>, BuildError>)
    modifies buildOptions
    ensures CheckConfigPath(libConfigPath).Some? ==>
      r == Failure(CheckConfigPath(libConfigPath).value) && buildOptions.environment == old(buildOptions.environment)
    ensures CheckConfigPath(libConfigPath).None? && !configExists ==>
      r == Failure(CouldNotReadConfigFile(libConfigPath)) && buildOptions.environment == old(buildOptions.environment)
    ensures CheckConfigPath(libConfigPath).None? && configExists ==>
      buildOptions.environment == (if fromWebpackCli then ModeApplied(old(buildOptions.environment), mode) else old(buildOptions.environment))
    ensures CheckConfigPath(libConfigPath).None? && configExists ==>
      (libConfig.None? ==> r == Failure(InvalidConfiguration)) &&
      (libConfig.Some? && |libConfig.value.projects| == 0 ==> r == Failure(NoProjectToBuild))
    ensures CheckConfigPath(libConfigPath).None? && configExists && libConfig.Some? && |libConfig.value.projects| > 0 ==>
      r == PlanProjects(prepare,
        FilterProjects(FilteredNames(fromWebpackCli, projectName, filter), IndexedProjects(libConfig.value.projects, configPath)),
        buildOptions.environment)
  {
    var pathError := CheckConfigPath(libConfigPath);
    if pathError.Some? {
      return Failure(pathError.value);
    }
    if !configExists {
      return Failure(CouldNotReadConfigFile(libConfigPath));
    }

    var filteredProjectNames := ReadBuildArguments(fromWebpackCli, projectName, mode, filter, buildOptions);

    if libConfig.None? {
      return Failure(InvalidConfiguration);
    }

    var libConfigInternal := ToLibConfigInternal(libConfig.value, configPath);
    if |libConfigInternal.projects| == 0 {
      return Failure(NoProjectToBuild);
    }

    var filteredProjectConfigs := FilterProjects(filteredProjectNames, libConfigInternal.projects);
    r := BuildProjectConfigs(filteredProjectConfigs, buildOptions.environment, prepare);
  }
}
