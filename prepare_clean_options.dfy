/**
 * `prepareCleanOptions(projectConfig)`: the clean options of a project with
 * their defaults filled in. The result is a shallow copy of the project's
 * `clean` object, so its `beforeBuild` object is the project's own, which
 * the planner updates in place; without one, a new object is made.
 */
module CleanOptionsPrep {
  import opened Common

  /** `BeforeBuildCleanOptions`, as a value. */
  datatype BeforeBuild = BeforeBuild(
    cleanOutDir: Option<bool>,
    cleanCache: Option<bool>,
    paths: Option<seq<string>>,
    excludes: Option<seq<string>>)

  const NoBeforeBuild := BeforeBuild(None, None, None, None)

  /** A `BeforeBuildCleanOptions` object, which `prepareCleanOptions` updates in place. */
  class BeforeBuildCleanOptions {
    var cleanOutDir: Option<bool>
    var cleanCache: Option<bool>
    var paths: Option<seq<string>>
    var excludes: Option<seq<string>>

    function Value(): BeforeBuild
      reads this
    {
      BeforeBuild(cleanOutDir, cleanCache, paths, excludes)
    }

    constructor (v: BeforeBuild)
      ensures Value() == v
    {
      cleanOutDir := v.cleanOutDir;
      cleanCache := v.cleanCache;
      paths := v.paths;
      excludes := v.excludes;
    }
  }

  datatype AfterEmitCleanOptions = AfterEmitCleanOptions(paths: Option<seq<string>>, excludes: Option<seq<string>>)

  /** `CleanOptions`; `beforeBuild` is `null` when the property is absent. */
  datatype CleanOptions = CleanOptions(
    beforeBuild: BeforeBuildCleanOptions?,
    afterEmit: Option<AfterEmitCleanOptions>,
    allowOutsideOutDir: Option<bool>,
    allowOutsideWorkspaceRoot: Option<bool>)

  /** `clean?: CleanOptions | boolean`. */
  datatype CleanSetting = CleanUnset | CleanFlag(flag: bool) | CleanObject(options: CleanOptions)

  /** The project's own `beforeBuild` object, if `clean` is an object that has one. */
  function InputBeforeBuild(clean: CleanSetting): BeforeBuildCleanOptions? {
    if clean.CleanObject? then clean.options.beforeBuild else null
  }

  /** The before-build options `prepareCleanOptions` starts from: the project's, else none set. */
  function InitialBeforeBuild(clean: CleanSetting): BeforeBuild
    reads InputBeforeBuild(clean)
  {
    if InputBeforeBuild(clean) != null then InputBeforeBuild(clean).Value() else NoBeforeBuild
  }

  /**
   * The before-build options after defaulting. A nested package never
   * cleans its output directory when `cleanOutDir` is `true`; an unset
   * `cleanOutDir` or `cleanCache` becomes `true`, for nested packages too;
   * everything else is kept.
   */
  function PreparedBeforeBuild(nestedPackage: bool, b: BeforeBuild): (r: BeforeBuild)
    ensures r.cleanOutDir.Some? && r.cleanCache.Some?
    ensures nestedPackage && b.cleanOutDir == Some(true) ==> r.cleanOutDir == Some(false)
    ensures !nestedPackage && b.cleanOutDir.Some? ==> r.cleanOutDir == b.cleanOutDir
    ensures b.cleanOutDir == Some(false) ==> r.cleanOutDir == Some(false)
    ensures b.cleanOutDir.None? ==> r.cleanOutDir == Some(true)
    ensures b.cleanCache.Some? ==> r.cleanCache == b.cleanCache
    ensures b.cleanCache.None? ==> r.cleanCache == Some(true)
    ensures r.paths == b.paths && r.excludes == b.excludes
  {
    var skipCleanOutDir := nestedPackage && b.cleanOutDir == Some(true);
    var cleanOutDir := if skipCleanOutDir then Some(false) else if b.cleanOutDir.None? then Some(true) else b.cleanOutDir;
    var cleanCache := if b.cleanCache.None? then Some(true) else b.cleanCache;
    b.(cleanOutDir := cleanOutDir, cleanCache := cleanCache)
  }

  /** Defaulting twice gives what defaulting once gives, unless a nested package starts with `cleanOutDir` unset. */
  lemma PreparedBeforeBuildIdempotent(nestedPackage: bool, b: BeforeBuild)
    requires !nestedPackage || b.cleanOutDir.Some?
    ensures PreparedBeforeBuild(nestedPackage, PreparedBeforeBuild(nestedPackage, b)) == PreparedBeforeBuild(nestedPackage, b)
  {
  }

  /**
   * Because the project's `beforeBuild` object is updated in place, a second
   * call for the same nested package sees the `true` the first call wrote
   * and turns it into `false`.
   */
  lemma NestedSecondPassStopsCleaning(b: BeforeBuild)
    requires b.cleanOutDir.None?
    ensures PreparedBeforeBuild(true, b).cleanOutDir == Some(true)
    ensures PreparedBeforeBuild(true, PreparedBeforeBuild(true, b)).cleanOutDir == Some(false)
  {
  }

  /** Without a project `clean` object (or without its `beforeBuild`), both flags come out `true` and nothing else is set. */
  lemma DefaultBeforeBuild(nestedPackage: bool)
    ensures PreparedBeforeBuild(nestedPackage, NoBeforeBuild) == BeforeBuild(Some(true), Some(true), None, None)
  {
  }

  /**
   * `prepareCleanOptions`. The top-level fields of a `clean` object are
   * copied, its `beforeBuild` object is updated in place and returned, and
   * any other `clean` value gives fresh before-build options only.
   */
  method PrepareCleanOptions(clean: CleanSetting, nestedPackage: bool) returns (r: CleanOptions)
    modifies InputBeforeBuild(clean)
    ensures r.beforeBuild != null
    ensures InputBeforeBuild(clean) != null ==> r.beforeBuild == InputBeforeBuild(clean)
    ensures InputBeforeBuild(clean) == null ==> fresh(r.beforeBuild)
    ensures r.beforeBuild.Value() == PreparedBeforeBuild(nestedPackage, old(InitialBeforeBuild(clean)))
    ensures clean.CleanObject? ==> r.(beforeBuild := null) == clean.options.(beforeBuild := null)
    ensures !clean.CleanObject? ==> r.(beforeBuild := null) == CleanOptions(null, None, None, None)
  {
    var cleanOptions := CleanOptions(null, None, None, None);
    if clean.CleanObject? {
      cleanOptions := clean.options;
    }

    var beforeBuildOption: BeforeBuildCleanOptions;
    if cleanOptions.beforeBuild != null {
      beforeBuildOption := cleanOptions.beforeBuild;
    } else {
      beforeBuildOption := new BeforeBuildCleanOptions(NoBeforeBuild);
    }
    cleanOptions := cleanOptions.(beforeBuild := beforeBuildOption);

    var skipCleanOutDir := false;
    if nestedPackage && beforeBuildOption.cleanOutDir == Some(true) {
      skipCleanOutDir := true;
    }

    if skipCleanOutDir {
      beforeBuildOption.cleanOutDir := Some(false);
    } else if beforeBuildOption.cleanOutDir.None? {
      beforeBuildOption.cleanOutDir := Some(true);
    }

    if beforeBuildOption.cleanCache.None? {
      beforeBuildOption.cleanCache := Some(true);
    }

    cleanOptions := cleanOptions.(beforeBuild := beforeBuildOption);
    return cleanOptions;
  }
}
