# lib-tools build planner, modelled in Dafny

lib-tools packages TypeScript libraries. Before any tool runs, a planner takes the
library config file (`lib.json`) and the command-line options and works out a
build plan. This project models that planner and proves what it promises.

For every transpilation of a project, the planner decides:

- which tsconfig it uses;
- its script target;
- whether it emits declarations;
- its output directory, including the `rootDir` offset;
- the package's public entry file;
- which `package.json` entry-point fields its output fills in.

The planner also does the following:

- searches up the directory tree for a configuration file (`findUp`);
- fills in the default clean options of a project (`prepareCleanOptions`);
- indexes the projects of the config document (`toLibConfigInternal`);
- validates the config path, normalises the `mode` flags of the build
  environment, prepares the project-name filter, filters and skips projects,
  and chooses the webpack plugins of each project (`getWebpackBuildConfig`).

Each source file that changes state becomes imperative Dafny:

- The build action is the class `Transpilation.BuildActionInternal`. Its methods
  update `_tsConfigPath`, `_tsConfigJson`, `_packageJsonEntryPoint` and
  `_scriptTranspilationEntries` in place.
- The `beforeBuild` clean options are the class
  `CleanOptionsPrep.BeforeBuildCleanOptions`, which `prepareCleanOptions` updates
  through an alias.
- The build options are the class `BuildConfig.BuildOptions`. `ApplyMode`
  changes its environment one flag at a time.
- The loops of `findUp`, `toLibConfigInternal`, `prepareFilterNames`, the
  entry loop and the project loop are `while` and `for` loops with invariants.
- Plugin selection pushes onto a plugin list.

Each method is proved equal to a function on values: `Prepare`, `RunEntries`,
`EntryPlan`, `ManifestAfter`, `FindUpResult`, `ModeApplied`, `FilterNames`,
`ConfigFor` and `PlanProjects`. The lemmas about those functions state the planner's
promises.

The helper modules model what the core relies on:

- **Paths** (`paths.dfy`). An absolute path is its sequence of segments.
  `Resolve` splits a user path string at `/` and walks `.` and `..` as node's
  `path.resolve` does. `Dirname`, `JoinPath` and `Relative` are node's `dirname`,
  `join` and `relative`. `ResolveRelative` proves that resolving a relative path
  against its origin gives back its target.
- **Strings** (`strings.dfy`). ECMAScript `trim`, ASCII case-insensitive suffix
  tests, `replace` of one character, and `substr(lastIndexOf(c) + 1)`.
- **TsConfig** (`ts_config.dfy`).
  - The `ScriptTarget` and `ModuleKind` values, as TypeScript's numbers.
  - The parsed tsconfig contents, as a map from a path to a record.
  - The file system, as the set of existing paths plus that map.
  - `toTsScriptTarget`, as a case-insensitive lookup of the `ScriptTargetString`
    names.

## Model

| member | source | states |
|---|---|---|
| FindUp.FindUp | src/utils/find-up.ts:7-28 | The do-while over directories, wrapping the loop over names, returns `FindUpResult`. That is the first existing probe in nearest-directory-first, name-order-second order, or none. |
| FindUp.FindInDir | src/utils/find-up.ts:13-18 | The inner loop returns the first candidate of the name list that exists in the directory. A candidate is an absolute name normalised, or a relative name resolved against the directory. |
| FindUp.Visited | src/utils/find-up.ts:12-26 | The first directory probed is `startDir`, whatever `endDir` is, since the loop is a do-while. |
| FindUp.FirstExisting | src/utils/find-up.ts:13-18 | A returned path exists. Nothing is returned exactly when no path of the list exists. |
| FindUp.FindUpResult | src/utils/find-up.ts:15-16 | A non-null result of the search exists. |
| FindUp.VisitedAncestors | src/utils/find-up.ts:20 | Directory `i` of the walk is `startDir` with `i` trailing segments removed. So each step moves to the parent, the walk is at most one longer than `startDir` is deep, and it terminates. |
| FindUp.VisitedWithinEnd | src/utils/find-up.ts:21-25 | Every visited directory after `startDir` is not the root, and equals or lies inside `endDir`. |
| FindUp.VisitedStops | src/utils/find-up.ts:21-25 | The walk stops at the first parent that is the root or lies outside `endDir`. |
| FindUp.ProbesInAt | src/utils/find-up.ts:13-14 | Probe `j` in a directory is the candidate for name `j`. |
| FindUp.FirstExistingAppend | src/utils/find-up.ts:12-18 | The first existing path of two probe lists in a row comes from the first list if any path there exists, and otherwise from the second. |
| FindUp.FirstExistingAt | src/utils/find-up.ts:13-16 | The first existing path is at a position before which no path exists. |
| FindUp.FoundAt | src/utils/find-up.ts:12-18 | A result is probe `j` of directory `d`, and no probe earlier in the search order exists. |
| FindUp.NoneFound | src/utils/find-up.ts:12-27 | Nothing is found exactly when no probe of any visited directory exists. |
| FindUp.FoundIsNearestFirst | src/utils/find-up.ts:12-21 | A result exists and is the candidate `names[j]` in visited directory `d`. No candidate of a nearer directory exists, and no earlier name in directory `d` exists. |
| FindUp.NotFoundIffNoneExists | src/utils/find-up.ts:12-27 | `null` is returned exactly when no candidate exists in any visited directory (both directions). |
| FindUp.FoundIsNormal | src/utils/find-up.ts:14 | Starting from a normalised directory, the result is a normalised path. For an absolute candidate this holds because the model probes it normalised. |
| LibConfigs.ToLibConfigInternal | src/helpers/to-lib-config-internal.ts:6-24 | The result has one internal project per input project, in the same order. Project `i` is the input project with `_index` `i`, `_configPath` `configPath` and `_workspaceRoot` `dirname(configPath)`. Dropping those fields gives back the input projects. The result has `configPath`, and the indices strictly increase. |
| CleanOptionsPrep.PreparedBeforeBuild | src/webpack/plugins/clean-webpack-plugin/prepare-clean-options.ts:15-29 | Both flags come out set. For a nested package `cleanOutDir: true` becomes `false`. An unset `cleanOutDir` becomes `true`, for nested packages too. An explicit `false` stays `false`. An unset `cleanCache` becomes `true` and an explicit one is kept. `paths` and `excludes` are unchanged. |
| CleanOptionsPrep.PreparedBeforeBuildIdempotent | src/webpack/plugins/clean-webpack-plugin/prepare-clean-options.ts:15-29 | Defaulting the before-build options twice gives what defaulting once gives, unless a nested package starts with `cleanOutDir` unset. |
| CleanOptionsPrep.NestedSecondPassStopsCleaning | src/webpack/plugins/clean-webpack-plugin/prepare-clean-options.ts:13-24 | A nested package starting with `cleanOutDir` unset gets `true` on the first pass. A second pass over the same object, which the in-place update makes visible, turns it into `false`. |
| CleanOptionsPrep.DefaultBeforeBuild | src/webpack/plugins/clean-webpack-plugin/prepare-clean-options.ts:7-29 | Without a `clean` object or its `beforeBuild`, the result is `{cleanOutDir: true, cleanCache: true}` and nothing else is set. |
| CleanOptionsPrep.PrepareCleanOptions | src/webpack/plugins/clean-webpack-plugin/prepare-clean-options.ts:6-41 | The result always has a `beforeBuild`. It is the project's own object, updated in place, when the project has one, and a fresh object otherwise. Its new value is `PreparedBeforeBuild` of its old value. The other top-level fields of a `clean` object are copied unchanged. A `clean` value that is not an object gives before-build options only. |
| Transpilation.DetectTsConfigPath | src/helpers/prepare-script-transpilations.ts:268-274 | Returns the upward search, from the project root to the workspace root, for `tsconfig.build.json`, `tsconfig-build.json`, `tsconfig.lib.json`, `tsconfig-lib.json` and `tsconfig.json`, in that order. |
| Transpilation.FirstExistingSource | src/helpers/prepare-script-transpilations.ts:191-204 | A returned name is a candidate whose `.ts` file exists in the directory. None is returned exactly when no candidate's `.ts` file exists. |
| Transpilation.EntryPlan | src/helpers/prepare-script-transpilations.ts:118-266 | A planned transpilation carries its configured entry, its index and its tsconfig path. The only errors are an unreadable tsconfig and an invalid script target for that entry. |
| Transpilation.EntryAt | src/helpers/prepare-script-transpilations.ts:49-76 | An explicit entry is built with index 1 and its own configured entry. It fails with "tsConfig value is required" for entry `i` exactly when the fallback order finds no tsconfig. |
| Transpilation.BuildActionInternal.ToTranspilationEntryInternal | src/helpers/prepare-script-transpilations.ts:118-266 | Returns `EntryPlan`. On success the entry points become `ManifestAfter` of the old ones. |
| Transpilation.BuildActionInternal.EntryTsConfigPath | src/helpers/prepare-script-transpilations.ts:49-63 | The tsconfig of an explicit entry is `ChooseTsConfig`: its own, else the project's, else the previous entry's, else (entry 0 only) the detected one. |
| Transpilation.BuildActionInternal.TranspileEntries | src/helpers/prepare-script-transpilations.ts:41-78 | The loop over explicit entries gives the entries, entry points and error of `RunEntries`. |
| Transpilation.BuildActionInternal.TranspileDefaults | src/helpers/prepare-script-transpilations.ts:79-113 | The two default transpilations give the entries, entry points and error of `RunDefaults`. |
| Transpilation.BuildActionInternal.AddEntryPoints | src/helpers/prepare-script-transpilations.ts:207-252 | The entry-point writes of one transpilation, made one field at a time, give `ManifestAfter`. |
| Transpilation.BuildActionInternal.TakeTsConfig | src/helpers/prepare-script-transpilations.ts:28-37 | The project-level tsconfig is recorded and read as `TakeProjectTsConfig` says. An unreadable file is an error. |
| Transpilation.BuildActionInternal.PrepareScriptTranspilations | src/helpers/prepare-script-transpilations.ts:22-116 | The new build-action state and the error thrown are those of `Prepare` on the old state. |
| TranspilationProperties.JsFieldGroups | src/helpers/prepare-script-transpilations.ts:214-232 | `es2015` and `esm2015` are written together, as are `esm5` and `module`. `main` is written alone. `typings` is never a JS field. No JS field is written without a module kind other than None. |
| TranspilationProperties.ManifestAfterFieldwise | src/helpers/prepare-script-transpilations.ts:207-252 | One transpilation sets exactly its written fields: the JS fields all to the JS entry path and `typings` to the typings path. Every other field is left as it was. |
| TranspilationProperties.LoopPrefix | src/helpers/prepare-script-transpilations.ts:47-78 | The entry loop keeps the entries built so far and builds at most one per configured entry. |
| TranspilationProperties.LoopComplete | src/helpers/prepare-script-transpilations.ts:47-78 | The entry loop ends without an error exactly when it built every entry. |
| TranspilationProperties.LoopBuilt | src/helpers/prepare-script-transpilations.ts:47-77 | Each entry the loop adds is what one turn builds from the entry before it, which is what `transpilationEntries[i - 1]` reads. |
| TranspilationProperties.LoopStopped | src/helpers/prepare-script-transpilations.ts:47-78 | An error is the one that the first entry not built reports. |
| TranspilationProperties.LoopLastWriterWins | src/helpers/prepare-script-transpilations.ts:47-78 | When each turn's writes are fieldwise, every field ends with the value of the last entry that writes it. |
| TranspilationProperties.RunEntriesBuilt | src/helpers/prepare-script-transpilations.ts:47-77 | Every explicit entry built is tagged 1, carries the configured entry at its position, and has the tsconfig the fallback order picks given the entry before it. |
| TranspilationProperties.RunEntriesComplete | src/helpers/prepare-script-transpilations.ts:47-78 | The explicit loop succeeds exactly when it builds one entry per configured entry. |
| TranspilationProperties.RunEntriesRequired | src/helpers/prepare-script-transpilations.ts:49-69 | A missing tsconfig is reported for the entry the loop stopped at, and the fallback order found none for it. |
| TranspilationProperties.RunEntriesLastWriterWins | src/helpers/prepare-script-transpilations.ts:47-78 | After the explicit loop, each `package.json` field holds the last write made to it, or its old value. |
| TranspilationProperties.TsConfigRequiredOnlyFirst | src/helpers/prepare-script-transpilations.ts:28-69 | A missing tsconfig can only be reported for explicit entry 0. That happens when it has no tsconfig of its own, there is no project tsconfig, and detection finds none. Later entries fall back to their predecessor's. |
| TranspilationProperties.TsConfigRequiredWhenNoneFound | src/helpers/prepare-script-transpilations.ts:49-69 | The converse: with no tsconfig anywhere for entry 0, the planner reports it as required. |
| TranspilationProperties.ExplicitEntries | src/helpers/prepare-script-transpilations.ts:41-78 | With explicit entries and no error, there is one entry per configured entry, in order, all tagged 1. Each has the tsconfig the fallback order picks: its own resolved against the project root, else the project's, else the previous entry's, else (entry 0) the detected one. |
| TranspilationProperties.ExplicitEntriesLastWriterWins | src/helpers/prepare-script-transpilations.ts:41-78 | With explicit entries and no error, each `package.json` field ends with the last explicit entry's write to it, or its old value. |
| TranspilationProperties.DefaultTargets | src/helpers/prepare-script-transpilations.ts:91-112 | The default target names `es2015` and `es5` map to ES2015 and ES5. |
| TranspilationProperties.DefaultPlan | src/helpers/prepare-script-transpilations.ts:91-112 | A default transpilation fails only when its tsconfig cannot be read. Otherwise it has its named target and the custom output directory `<outputPath>/<name>`. |
| TranspilationProperties.RunDefaultsShape | src/helpers/prepare-script-transpilations.ts:79-113 | The defaults give exactly two entries with the given tsconfig: esm2015 (ES2015, index 0), then esm5 (ES5, index 1, no declarations), below the output path. The only alternative is the error reading the tsconfig. |
| TranspilationProperties.DefaultTranspilations | src/helpers/prepare-script-transpilations.ts:79-113 | With `scriptTranspilation` `true` or without `entries`, "could not detect tsconfig" is thrown exactly when there is no project tsconfig and none is detected. Otherwise the two default entries share the project's or the detected tsconfig. |
| TranspilationProperties.TranspilationOff | src/helpers/prepare-script-transpilations.ts:79-115 | With `scriptTranspilation` off, the transpilation list is empty and nothing else changes. |
| TranspilationProperties.EntryTarget | src/helpers/prepare-script-transpilations.ts:128-141 | An explicit target is mapped, and an unknown name is the only target error. Otherwise a truthy compiler target is kept. Otherwise the target is ES2017, so ES3 (0, falsy) also gives ES2017. |
| TranspilationProperties.EntryDeclaration | src/helpers/prepare-script-transpilations.ts:143-149 | The declaration flag is the entry's own, else the compiler's, else true. |
| TranspilationProperties.EntryOutDir | src/helpers/prepare-script-transpilations.ts:151-166 | An explicit `outDir` is resolved below the output path and is custom. Otherwise the compiler's `outDir` is used, absolute as it is or relative to the tsconfig's directory, and is not custom. Otherwise the output path is used and is custom. |
| TranspilationProperties.RootDirOffsetApplied | src/helpers/prepare-script-transpilations.ts:168-173 | No offset is applied without `rootDir` or when it is the tsconfig's directory. When one of the two directories contains the other, the segments leading from the outer to the inner one are appended to the output directory. When neither contains the other, the offset is `path.relative(tsconfig directory, rootDir)`. It climbs out of the output directory as many levels as the tsconfig's directory lies below their common prefix (at least one), stopping at the root, then descends along the rest of `rootDir`. |
| TranspilationProperties.OutDirNormal | src/helpers/prepare-script-transpilations.ts:151-166 | From normalised project paths, the output directory is a normalised path. |
| TranspilationProperties.EntryPlanNormal | src/helpers/prepare-script-transpilations.ts:151-173 | The output directory after the `rootDir` offset is a normalised path. |
| TranspilationProperties.DetectedTsConfigNormal | src/helpers/prepare-script-transpilations.ts:268-274 | A detected tsconfig path is a normalised path. |
| TranspilationProperties.EntryNameDetection | src/helpers/prepare-script-transpilations.ts:175-205 | A project-level `flatModuleOutFile` wins, with `.js` stripped case-insensitively. Otherwise the name is the first of `index`, the package name with `/` as `-`, its last segment, `main`, `public_api` and `public-api` whose `.ts` file exists. None is found exactly when none exists. |
| TranspilationProperties.JsEntryLocates | src/helpers/prepare-script-transpilations.ts:208-210 | The JS entry path is a relative path plus `.js`. That relative path, resolved against the `package.json` directory, is the entry file in the output directory. |
| TranspilationProperties.TypingsLocates | src/helpers/prepare-script-transpilations.ts:234-251 | The typings of a nested package lead to `<outputPath>/<last name segment>.d.ts`. Otherwise they are the entry's own `.d.ts`, next to its JS entry. |
| TsConfig.ToTsScriptTarget | src/models/build-action.ts:358-376 | A target name is accepted exactly when it is one of the `ScriptTargetString` names, in any letter case. It maps to an ES5 to ES2020 or ESNext target. |
| BuildConfig.CheckConfigPath | src/webpack/configs/webpack-build-config.ts:29-35 | The config path is accepted exactly when it is non-empty and ends in `.json` in any letter case. An empty path is "libConfigPath is required" and any other rejection is "invalid config file". |
| BuildConfig.ModeApplied | src/webpack/configs/webpack-build-config.ts:79-101 | `production` sets `prod` and `production` to true and switches `dev` and `development` to false only where they were truthy. `development` does the reverse. Any other mode changes nothing. No other flag is touched. |
| BuildConfig.ModeAppliedIdempotent | src/webpack/configs/webpack-build-config.ts:79-101 | Applying the same mode twice gives what applying it once gives. |
| BuildConfig.BuildOptions.ApplyMode | src/webpack/configs/webpack-build-config.ts:79-101 | The flag-by-flag updates of the environment give `ModeApplied` of the old environment. |
| BuildConfig.PrepareFilterNames | src/webpack/configs/webpack-build-config.ts:269-285 | The `forEach`/push loop gives `FilterNames`. A list gives its distinct non-blank trimmed names. A string gives itself. Nothing else gives nothing. |
| BuildConfig.DedupNoDuplicates | src/webpack/configs/webpack-build-config.ts:274-278 | No filter name is listed twice. |
| BuildConfig.DedupMembers | src/webpack/configs/webpack-build-config.ts:274-278 | The listed names are exactly the non-empty input names. |
| BuildConfig.DedupOrder | src/webpack/configs/webpack-build-config.ts:274-278 | The names come in first-occurrence order. Name `a` first occurs at input `idx[a]`, and `idx` increases. |
| BuildConfig.DistinctTrimmedShape | src/webpack/configs/webpack-build-config.ts:273-278 | A list filter gives exactly the non-blank trimmed names, without repeats, in first-occurrence order. |
| BuildConfig.FilterStringName | src/webpack/configs/webpack-build-config.ts:279-281 | A string filter is one name, untrimmed, unless it is blank, when there is none. |
| BuildConfig.FilterMembers | src/webpack/configs/webpack-build-config.ts:139-143 | A project is kept exactly when it is listed by truthy name, or the filter is empty. |
| BuildConfig.FilterWithoutNames | src/webpack/configs/webpack-build-config.ts:139-143 | With no filter names, every project is kept. |
| BuildConfig.FilterConcat | src/webpack/configs/webpack-build-config.ts:139-143 | Filtering a concatenation filters each part, so the kept projects stay in their original order. |
| BuildConfig.FilterKeepsIndexOrder | src/webpack/configs/webpack-build-config.ts:139-143 | Projects with increasing `_index` still have increasing `_index` after filtering. |
| BuildConfig.PluginsOrdered | src/webpack/configs/webpack-build-config.ts:174-252 | The info plugin is first and appears only there. The plugins come in the fixed order info, clean, transpilation, bundles, package.json, copy, each at most once. |
| BuildConfig.PluginsIncluded | src/webpack/configs/webpack-build-config.ts:174-252 | A plugin is included exactly when `Included` holds, in both directions. Info is always included. Clean is included iff `clean !== false`. Transpilation and bundles need non-empty lists. The package.json plugin is included when `packageJsonCopy` is truthy. Copy is included only for a non-empty array, with the project root as base and the output path as target. |
| BuildConfig.GetWebpackBuildConfigInternal | src/webpack/configs/webpack-build-config.ts:167-267 | The pushes, with `shouldClean` computed as written, give `ConfigFor`: the project's name, its output path, its project root as context, and `PluginsFor`. |
| BuildConfig.NotSkipped | src/webpack/configs/webpack-build-config.ts:151-153 | The kept builds are exactly those projects not flagged `skip`. |
| BuildConfig.PlannedNotSkipped | src/webpack/configs/webpack-build-config.ts:145-164 | The plan is the configuration of each project not skipped, in order. |
| BuildConfig.PlannedNoneSkipped | src/webpack/configs/webpack-build-config.ts:145-164 | When no project is skipped, every project gets a configuration. |
| BuildConfig.ReadBuildArguments | src/webpack/configs/webpack-build-config.ts:50-110 | The project names come from a truthy webpack-CLI `projectName`, or else from a non-empty filter array. The environment has the mode applied from the webpack CLI only. |
| BuildConfig.BuildProjectConfigs | src/webpack/configs/webpack-build-config.ts:145-164 | The project loop gives `PlanProjects`. That is the error of the first project whose preparation throws, or else one configuration per prepared project not skipped, in order. |
| BuildConfig.PreparedSucceeds | src/webpack/configs/webpack-build-config.ts:147-150 | Preparing the projects succeeds exactly when every project's preparation does. It then gives each project's build, in project order (both directions). |
| BuildConfig.PreparedFailsFirst | src/webpack/configs/webpack-build-config.ts:147-150 | A preparation error is the one thrown for project `i`, and every project before `i` was prepared without error. |
| BuildConfig.GetWebpackBuildConfig | src/webpack/configs/webpack-build-config.ts:20-165 | The config path is rejected in a fixed order: required, `.json`, then existence, each before the environment changes. Next come an invalid configuration and "no project to build". Otherwise the result is `PlanProjects` of the filtered projects: the first preparation error, or one configuration per prepared project that is not skipped, in order. |

## Left out

**I/O and foreign calls**

- Reading files and parsing JSON. `readJson` of the config file and the schema
  read, validation and error formatting (webpack-build-config.ts:112-130) are one
  input, `libConfig: Option<LibConfig>`. `None` stands for both failures, which
  raise the same error class.
- `pathExists`. It becomes the `existing` set of the file system, or the
  `configExists` flag for the config file.
- Reading tsconfig files. `readTsConfigFile` and `parseTsJsonConfigFileContent`
  become the map `tsConfigs` from a path to its parsed contents. A path missing
  from the map is the error the readers throw.
- `isFromWebpackCli` and `process.argv`. They become the `fromWebpackCli` flag
  and the `projectName`, `mode` and `filter` arguments.
- The `WEBPACK_ENV` merge (webpack-build-config.ts:58-77). It is left out
  because it parses JSON from the process environment. The build options
  arrive already merged.
- `normalizeEnvironment`, `prod`, `verbose` and `logLevel`. The environment
  is an input, and the log level affects no decision.
- No source is available for `applyProjectConfigExtends` or
  `prepareProjectConfigForBuild`. Together they are one given function,
  `prepare`, which either gives the project's build or the error it throws.
  Their inheritance and override rules are not modelled. The JSON deep copy before
  them has no effect on values.
- Dynamic `import()` and `async`/`await`. The awaits run in sequence, so the
  model is sequential.

**Modelled as assumptions**

These helpers are used but have no source here, so they are modelled by the
contract they are assumed to have:

- `toTsScriptTarget` is a case-insensitive lookup of the `ScriptTargetString`
  names.
- `isInFolder(parent, child)` holds when `child` is `parent` or lies below it.
- `isSamePaths` is equality.
- `normalizeRelativePath` is the identity, since paths are POSIX.

**Outside the webpack configuration and plugins**

- The webpack `Configuration` fields `entry`, `output.filename` and `stats` are
  not modelled. The plugins' constructor arguments other than the copy plugin's
  assets, base directory and output path are not modelled either.
- The styles step is only a comment in the source (webpack-build-config.ts:211-212).
- `get-project-config-schema` and the ts-transpilations webpack plugin are not
  part of this model.

**Modelling choices**

- `cleanOutputPath` (prepare-clean-options.ts:33-38) is computed and then
  discarded, so it is not modelled.
- `libConfigPath` is the validated string. `configPath` stands for
  `libConfigPath` as a path, which `toLibConfigInternal` stores with its
  `dirname`. The contract of `GetWebpackBuildConfig` does not relate the two.
- Paths are POSIX only: no drive letters and no `\` separators.
- `FindUp.Candidate` probes an absolute candidate normalised (`/a/./b/` is
  probed and returned as `/a/b`). `findUp` returns such a candidate verbatim,
  so the model does not capture the spelling of an absolute result.
- `Transpilation.EntryStepOf` has a branch for an index past the last entry. The
  loop never reaches it; it exists only to give the step function a total type.
- `CleanOptionsPrep.PreparedBeforeBuildIdempotent` is stated only for projects
  that are not nested, or whose `cleanOutDir` is set. A nested package with
  `cleanOutDir` unset is not idempotent (the first pass writes `true`, the second
  `false`). `NestedSecondPassStopsCleaning` states that case.

**Where the model follows the code**

- `webpack-build-config.ts:133` passes a third argument, the workspace root, to
  `toLibConfigInternal`, which takes two. That function derives the workspace
  root itself from `dirname(configPath)`. The model follows that function.
- `getWebpackBuildConfigInternal` tests `_tsTranspilations`, while the
  transpilation planner fills in `_scriptTranspilationEntries`. The model keeps
  the plugin decision on its own count, as written.
- `cleanCache` is written by `prepareCleanOptions` although it is not declared
  in `BeforeBuildCleanOptions` in build-action.ts. The model gives it a field.
- Explicit transpilation entries are all tagged `_index` 1, the literal at
  prepare-script-transpilations.ts:74. The model keeps that literal rather than
  the loop index.
