/**
 * What `prepareScriptTranspilations` promises, proved about the functions of
 * module `Transpilation` that its methods are proved to agree with.
 */
module TranspilationProperties {
  import opened Common
  import opened Strings
  import opened Paths
  import opened TsConfig
  import opened Transpilation
  import FindUp

  // ---------------------------------------------------------------------------
  // Entry-point fields, one at a time.

  datatype EntryField = MainField | ModuleField | Es2015Field | Esm5Field | Esm2015Field | TypingsField

  function Field(ep: PackageJsonEntryPoint, f: EntryField): Option<string> {
    match f
    case MainField => ep.main
    case ModuleField => ep.moduleEntry
    case Es2015Field => ep.es2015
    case Esm5Field => ep.esm5
    case Esm2015Field => ep.esm2015
    case TypingsField => ep.typings
  }

  /** The JS fields a transpilation with module kind `m` and target `target` fills in. */
  function JsFields(m: Option<int>, target: int): set<EntryField> {
    if IsEsModule(m) && target == ES2015 then {Es2015Field, Esm2015Field}
    else if IsEsModule(m) && target == ES5 then {Esm5Field, ModuleField}
    else if m == Some(ModuleUMD) || m == Some(ModuleCommonJS) then {MainField}
    else {}
  }

  /** The fields transpilation `e` fills in: none without a detected entry name. */
  function WrittenFields(e: TranspilationEntryInternal): set<EntryField> {
    if !Truthy(e.detectedEntryName) then {}
    else JsFields(e.compilerOptions.moduleKind, e.scriptTarget) + (if e.declaration then {TypingsField} else {})
  }

  /** The value transpilation `e` writes into field `f`. */
  function WrittenValue(info: ProjectInfo, e: TranspilationEntryInternal, f: EntryField): string
    requires e.detectedEntryName.Some?
  {
    if f == TypingsField then TypingsEntryFile(info, e) else JsEntryFile(info, e)
  }

  /** The JS groups exclude each other, and `es2015`/`esm2015` (and `esm5`/`module`) always go together. */
  lemma JsFieldGroups(m: Option<int>, target: int)
    ensures Es2015Field in JsFields(m, target) <==> Esm2015Field in JsFields(m, target)
    ensures Esm5Field in JsFields(m, target) <==> ModuleField in JsFields(m, target)
    ensures MainField in JsFields(m, target) ==> JsFields(m, target) == {MainField}
    ensures TypingsField !in JsFields(m, target)
    ensures JsFields(m, target) != {} ==> m.Some? && m.value != ModuleNone
  {
  }

  /** One transpilation writes exactly its fields, all JS fields with one value, and leaves every other field as it was. */
  lemma ManifestAfterFieldwise(info: ProjectInfo, ep: PackageJsonEntryPoint, e: TranspilationEntryInternal, f: EntryField)
    ensures f in WrittenFields(e) ==> Field(ManifestAfter(info, ep, e), f) == Some(WrittenValue(info, e, f))
    ensures f !in WrittenFields(e) ==> Field(ManifestAfter(info, ep, e), f) == Field(ep, f)
  {
  }

  /** The value of field `f` after `es` in order: the last write, else `initial`. */
  function LastWrite(info: ProjectInfo, es: seq<TranspilationEntryInternal>, f: EntryField, initial: Option<string>): Option<string> {
    if es == [] then initial
    else
      var e := es[|es| - 1];
      if f in WrittenFields(e) then Some(WrittenValue(info, e, f))
      else LastWrite(info, es[..|es| - 1], f, initial)
  }

  lemma {:induction false} LastWriteConcat(info: ProjectInfo, a: seq<TranspilationEntryInternal>, b: seq<TranspilationEntryInternal>,
                                            f: EntryField, initial: Option<string>)
    ensures LastWrite(info, a + b, f, initial) == LastWrite(info, b, f, LastWrite(info, a, f, initial))
    decreases |b|
  {
    if b != [] {
      var b' := b[..|b| - 1];
      assert (a + b)[..|a + b| - 1] == a + b';
      assert (a + b)[|a + b| - 1] == b[|b| - 1];
      LastWriteConcat(info, a, b', f, initial);
    } else {
      assert a + b == a;
    }
  }

  // ---------------------------------------------------------------------------
  // Any loop over entries.

  /** The loop keeps the entries built so far and adds at most one per remaining entry. */
  lemma {:induction false} LoopPrefix(step: EntryStep, write: ManifestWrite, n: nat, i: nat,
                                       acc: seq<TranspilationEntryInternal>, ep: PackageJsonEntryPoint)
    requires i <= n && |acc| == i
    ensures |acc| <= |Loop(step, write, n, i, acc, ep).entries| <= n
    ensures Loop(step, write, n, i, acc, ep).entries[..|acc|] == acc
    decreases n - i
  {
    assert acc[..|acc|] == acc;
    if i < n && step(i, Previous(acc, i)).Success? {
      var e := step(i, Previous(acc, i)).value;
      LoopPrefix(step, write, n, i + 1, acc + [e], write(ep, e));
      var o := Loop(step, write, n, i + 1, acc + [e], write(ep, e));
      assert o.entries[..|acc|] == o.entries[..|acc| + 1][..|acc|] == (acc + [e])[..|acc|];
    }
  }

  /** The loop ends without an error exactly when it has built an entry for every entry. */
  lemma {:induction false} LoopComplete(step: EntryStep, write: ManifestWrite, n: nat, i: nat,
                                         acc: seq<TranspilationEntryInternal>, ep: PackageJsonEntryPoint)
    requires i <= n && |acc| == i
    ensures Loop(step, write, n, i, acc, ep).error.None? <==> |Loop(step, write, n, i, acc, ep).entries| == n
    decreases n - i
  {
    if i < n && step(i, Previous(acc, i)).Success? {
      var e := step(i, Previous(acc, i)).value;
      LoopComplete(step, write, n, i + 1, acc + [e], write(ep, e));
    }
  }

  /** Each entry the loop adds is what the step builds for it, given the entry built before it. */
  lemma {:induction false} LoopBuilt(step: EntryStep, write: ManifestWrite, n: nat, i: nat,
                                      acc: seq<TranspilationEntryInternal>, ep: PackageJsonEntryPoint)
    returns (o: Outcome)
    requires i <= n && |acc| == i
    ensures o == Loop(step, write, n, i, acc, ep)
    ensures |acc| <= |o.entries| <= n
    ensures forall k :: |acc| <= k < |o.entries| ==> step(k, Previous(o.entries, k)) == Success(o.entries[k])
    decreases n - i
  {
    o := Loop(step, write, n, i, acc, ep);
    LoopPrefix(step, write, n, i, acc, ep);
    if i < n && step(i, Previous(acc, i)).Success? {
      var e := step(i, Previous(acc, i)).value;
      var o' := LoopBuilt(step, write, n, i + 1, acc + [e], write(ep, e));
      LoopPrefix(step, write, n, i + 1, acc + [e], write(ep, e));
      assert o'.entries[..|acc| + 1] == acc + [e];
      forall k | |acc| <= k < |o.entries|
        ensures step(k, Previous(o.entries, k)) == Success(o.entries[k])
      {
        if k == |acc| {
          assert o.entries[k] == (acc + [e])[k] == e;
          assert i > 0 ==> o.entries[i - 1] == (acc + [e])[i - 1] == acc[i - 1];
          assert Previous(o.entries, k) == Previous(acc, i);
        }
      }
    }
  }

  /** When the loop stops with an error, it is what the step reports for the first entry not built. */
  lemma {:induction false} LoopStopped(step: EntryStep, write: ManifestWrite, n: nat, i: nat,
                                        acc: seq<TranspilationEntryInternal>, ep: PackageJsonEntryPoint)
    returns (o: Outcome)
    requires i <= n && |acc| == i
    ensures o == Loop(step, write, n, i, acc, ep)
    ensures o.error.Some? ==> |o.entries| < n && step(|o.entries|, Previous(o.entries, |o.entries|)) == Failure(o.error.value)
    decreases n - i
  {
    o := Loop(step, write, n, i, acc, ep);
    if i < n && step(i, Previous(acc, i)).Success? {
      var e := step(i, Previous(acc, i)).value;
      var o' := LoopStopped(step, write, n, i + 1, acc + [e], write(ep, e));
    }
  }

  /** When each write sets exactly the fields of its entry, every field ends with the value of the last entry that writes it. */
  lemma {:induction false} LoopLastWriterWins(step: EntryStep, write: ManifestWrite, n: nat, i: nat,
                                               acc: seq<TranspilationEntryInternal>, ep: PackageJsonEntryPoint,
                                               info: ProjectInfo, f: EntryField)
    returns (o: Outcome)
    requires i <= n && |acc| == i
    requires forall ep', e :: Field(write(ep', e), f)
                                == if f in WrittenFields(e) then Some(WrittenValue(info, e, f)) else Field(ep', f)
    ensures o == Loop(step, write, n, i, acc, ep)
    ensures |acc| <= |o.entries|
    ensures Field(o.entryPoint, f) == LastWrite(info, o.entries[|acc|..], f, Field(ep, f))
    decreases n - i
  {
    o := Loop(step, write, n, i, acc, ep);
    LoopPrefix(step, write, n, i, acc, ep);
    if i < n && step(i, Previous(acc, i)).Success? {
      var e := step(i, Previous(acc, i)).value;
      var o' := LoopLastWriterWins(step, write, n, i + 1, acc + [e], write(ep, e), info, f);
      LoopPrefix(step, write, n, i + 1, acc + [e], write(ep, e));
      assert o.entries[|acc|] == o.entries[..|acc| + 1][|acc|] == (acc + [e])[|acc|] == e;
      var rest := o.entries[|acc| + 1..];
      assert o.entries[|acc|..] == [e] + rest;
      assert LastWrite(info, [e], f, Field(ep, f)) == Field(write(ep, e), f) by {
        assert [e][..0] == [];
      }
      LastWriteConcat(info, [e], rest, f, Field(ep, f));
    } else {
      assert o.entries[|acc|..] == [];
    }
  }

  // ---------------------------------------------------------------------------
  // The loop over explicit entries.

  /** The project-level tsconfig path in force once lines 28-37 have run. */
  function ProjectTsConfig(info: ProjectInfo, setting: ScriptTranspilationSetting, s: PlanState): Option<Path> {
    if setting.Options? && Truthy(setting.tsConfig) then Some(Resolve(info.projectRoot, setting.tsConfig.value))
    else s.tsConfigPath
  }

  /**
   * Each entry the loop over explicit entries builds is tagged 1, carries the
   * configured entry at its position, and has the tsconfig the fallback order
   * picks given the entry before it.
   */
  lemma RunEntriesBuilt(info: ProjectInfo, pt: Option<Path>, pj: Option<TsConfigJson>, fs: FileSystem,
                        entries: seq<ScriptTranspilationEntry>, ep: PackageJsonEntryPoint)
    returns (o: Outcome)
    ensures o == RunEntries(info, pt, pj, fs, entries, 0, [], ep)
    ensures |o.entries| <= |entries|
    ensures forall k :: 0 <= k < |o.entries| ==> o.entries[k].index == 1 && o.entries[k].entry == entries[k]
    ensures forall k :: 0 <= k < |o.entries| ==>
              Some(o.entries[k].tsConfigPath) == ChooseTsConfig(info, pt, fs, entries[k], k, Previous(o.entries, k))
  {
    var step := EntryStepOf(info, pt, pj, fs, entries);
    o := LoopBuilt(step, ManifestWriteOf(info), |entries|, 0, [], ep);
    forall k | 0 <= k < |o.entries|
      ensures o.entries[k].index == 1 && o.entries[k].entry == entries[k]
      ensures Some(o.entries[k].tsConfigPath) == ChooseTsConfig(info, pt, fs, entries[k], k, Previous(o.entries, k))
    {
      assert step(k, Previous(o.entries, k)) == EntryAt(info, pt, pj, fs, entries[k], k, Previous(o.entries, k));
    }
  }

  /** The loop over explicit entries fails exactly when it stops before the last entry. */
  lemma RunEntriesComplete(info: ProjectInfo, pt: Option<Path>, pj: Option<TsConfigJson>, fs: FileSystem,
                           entries: seq<ScriptTranspilationEntry>, ep: PackageJsonEntryPoint)
    ensures RunEntries(info, pt, pj, fs, entries, 0, [], ep).error.None?
            <==> |RunEntries(info, pt, pj, fs, entries, 0, [], ep).entries| == |entries|
  {
    LoopComplete(EntryStepOf(info, pt, pj, fs, entries), ManifestWriteOf(info), |entries|, 0, [], ep);
  }

  /** A missing tsconfig is reported for the entry the loop stopped at, which found none by the fallback order. */
  lemma RunEntriesRequired(info: ProjectInfo, pt: Option<Path>, pj: Option<TsConfigJson>, fs: FileSystem,
                           entries: seq<ScriptTranspilationEntry>, ep: PackageJsonEntryPoint)
    returns (o: Outcome)
    ensures o == RunEntries(info, pt, pj, fs, entries, 0, [], ep)
    ensures forall j: nat :: o.error == Some(TsConfigRequired(j)) ==>
              j == |o.entries| < |entries| && ChooseTsConfig(info, pt, fs, entries[j], j, Previous(o.entries, j)).None?
  {
    var step := EntryStepOf(info, pt, pj, fs, entries);
    o := LoopStopped(step, ManifestWriteOf(info), |entries|, 0, [], ep);
    if o.error.Some? {
      var k := |o.entries|;
      assert step(k, Previous(o.entries, k)) == EntryAt(info, pt, pj, fs, entries[k], k, Previous(o.entries, k));
    }
  }

  /** Over the loop of explicit entries, every field ends with the value of the last entry that writes it. */
  lemma RunEntriesLastWriterWins(info: ProjectInfo, pt: Option<Path>, pj: Option<TsConfigJson>, fs: FileSystem,
                                 entries: seq<ScriptTranspilationEntry>, ep: PackageJsonEntryPoint, f: EntryField)
    returns (o: Outcome)
    ensures o == RunEntries(info, pt, pj, fs, entries, 0, [], ep)
    ensures Field(o.entryPoint, f) == LastWrite(info, o.entries, f, Field(ep, f))
  {
    var write := ManifestWriteOf(info);
    forall ep', e
      ensures Field(write(ep', e), f) == if f in WrittenFields(e) then Some(WrittenValue(info, e, f)) else Field(ep', f)
    {
      ManifestAfterFieldwise(info, ep', e, f);
    }
    o := LoopLastWriterWins(EntryStepOf(info, pt, pj, fs, entries), write, |entries|, 0, [], ep, info, f);
    assert o.entries[0..] == o.entries;
  }

  /** A missing tsconfig can only be reported for the first entry: later ones fall back to their predecessor's. */
  lemma TsConfigRequiredOnlyFirst(info: ProjectInfo, setting: ScriptTranspilationSetting, s: PlanState, fs: FileSystem, j: nat)
    requires Prepare(info, setting, s, fs).1 == Some(TsConfigRequired(j))
    ensures j == 0 && setting.Options? && setting.entries.Some? && |setting.entries.value| > 0
    ensures !Truthy(setting.entries.value[0].tsConfig)
    ensures ProjectTsConfig(info, setting, s).None? && DetectedTsConfigPath(info, fs).None?
  {
    var (s1, err1) := TakeProjectTsConfig(info, setting, s, fs);
    assert setting.Options? && setting.entries.Some?;
    var o := RunEntriesRequired(info, s1.tsConfigPath, s1.tsConfigJson, fs, setting.entries.value, s1.packageJsonEntryPoint);
    assert o.error == Some(TsConfigRequired(j));
  }

  /** The converse: with no tsconfig anywhere for entry 0, the planner reports it as required. */
  lemma TsConfigRequiredWhenNoneFound(info: ProjectInfo, setting: ScriptTranspilationSetting, s: PlanState, fs: FileSystem)
    requires setting.Options? && setting.entries.Some? && |setting.entries.value| > 0
    requires !Truthy(setting.entries.value[0].tsConfig)
    requires ProjectTsConfig(info, setting, s).None? && DetectedTsConfigPath(info, fs).None?
    ensures Prepare(info, setting, s, fs).1 == Some(TsConfigRequired(0))
  {
    assert TakeProjectTsConfig(info, setting, s, fs) == (s, None);
    var entries := setting.entries.value;
    var step := EntryStepOf(info, s.tsConfigPath, s.tsConfigJson, fs, entries);
    assert step(0, Previous([], 0)) == Failure(TsConfigRequired(0));
    assert RunEntries(info, s.tsConfigPath, s.tsConfigJson, fs, entries, 0, [], s.packageJsonEntryPoint)
        == Outcome([], s.packageJsonEntryPoint, Some(TsConfigRequired(0)));
  }

  /**
   * With explicit entries and no error, the planner builds one entry per
   * configured entry, in order, all tagged 1, each with the tsconfig the
   * fallback order picks: its own, else the project's, else the previous
   * entry's, else (entry 0) the one `detectTsConfigPath` finds.
   */
  lemma ExplicitEntries(info: ProjectInfo, setting: ScriptTranspilationSetting, s: PlanState, fs: FileSystem)
    returns (es: seq<TranspilationEntryInternal>)
    requires setting.Options? && setting.entries.Some?
    requires Prepare(info, setting, s, fs).1.None?
    ensures es == Prepare(info, setting, s, fs).0.scriptTranspilationEntries
    ensures |es| == |setting.entries.value|
    ensures forall k :: 0 <= k < |es| ==> es[k].index == 1 && es[k].entry == setting.entries.value[k]
    ensures forall k :: 0 <= k < |es| && Truthy(es[k].entry.tsConfig) ==>
              es[k].tsConfigPath == Resolve(info.projectRoot, es[k].entry.tsConfig.value)
    ensures forall k :: 0 <= k < |es| && !Truthy(es[k].entry.tsConfig) && ProjectTsConfig(info, setting, s).Some? ==>
              es[k].tsConfigPath == ProjectTsConfig(info, setting, s).value
    ensures forall k :: 0 < k < |es| && !Truthy(es[k].entry.tsConfig) && ProjectTsConfig(info, setting, s).None? ==>
              es[k].tsConfigPath == es[k - 1].tsConfigPath
    ensures |es| > 0 && !Truthy(es[0].entry.tsConfig) && ProjectTsConfig(info, setting, s).None? ==>
              Some(es[0].tsConfigPath) == DetectedTsConfigPath(info, fs)
  {
    var (s1, err1) := TakeProjectTsConfig(info, setting, s, fs);
    var entries := setting.entries.value;
    RunEntriesComplete(info, s1.tsConfigPath, s1.tsConfigJson, fs, entries, s1.packageJsonEntryPoint);
    var o := RunEntriesBuilt(info, s1.tsConfigPath, s1.tsConfigJson, fs, entries, s1.packageJsonEntryPoint);
    es := o.entries;
  }

  /** With explicit entries and no error, each `package.json` field ends with the last entry's write to it. */
  lemma ExplicitEntriesLastWriterWins(info: ProjectInfo, setting: ScriptTranspilationSetting, s: PlanState, fs: FileSystem, f: EntryField)
    requires setting.Options? && setting.entries.Some?
    requires Prepare(info, setting, s, fs).1.None?
    ensures Field(Prepare(info, setting, s, fs).0.packageJsonEntryPoint, f)
            == LastWrite(info, Prepare(info, setting, s, fs).0.scriptTranspilationEntries, f, Field(s.packageJsonEntryPoint, f))
  {
    var (s1, err1) := TakeProjectTsConfig(info, setting, s, fs);
    var o := RunEntriesLastWriterWins(info, s1.tsConfigPath, s1.tsConfigJson, fs, setting.entries.value, s1.packageJsonEntryPoint, f);
  }

  // ---------------------------------------------------------------------------
  // The two default transpilations.

  lemma DefaultTargets()
    ensures ToTsScriptTarget("es2015") == Some(ES2015)
    ensures ToTsScriptTarget("es5") == Some(ES5)
  {
    assert !EqualsIgnoreCase("es2015", "es5");
    assert EqualsIgnoreCase("es2015", "es2015");
    assert EqualsIgnoreCase("es5", "es5");
  }

  lemma ResolveSingle(dir: Path, name: string)
    requires IsNormal(dir) && IsPlainSegment(name)
    ensures Resolve(dir, name) == dir + [name]
  {
    ResolveJoined(dir, [name]);
  }

  /**
   * A default transpilation named `name` with target `target` fails only when
   * its tsconfig cannot be read, and is written to `<outputPath>/<name>`.
   */
  lemma DefaultPlan(info: ProjectInfo, pj: Option<TsConfigJson>, fs: FileSystem, path: Path,
                    entry: ScriptTranspilationEntry, i: nat, name: string, target: int)
    requires info.Valid() && IsPlainSegment(name)
    requires entry.outDir == Some(name) && Truthy(entry.target) && ToTsScriptTarget(entry.target.value) == Some(target)
    ensures EntryPlan(info, pj, fs, path, entry, i).Failure? <==> path !in fs.tsConfigs
    ensures EntryPlan(info, pj, fs, path, entry, i).Success? ==>
              && EntryPlan(info, pj, fs, path, entry, i).value.scriptTarget == target
              && EntryPlan(info, pj, fs, path, entry, i).value.customTsOutDir == Some(info.outputPath + [name])
  {
    if path in fs.tsConfigs {
      var options := fs.tsConfigs[path].options;
      assert ScriptTargetFor(entry, options) == Some(target);
      assert OutDirFor(info, path, entry, options).1 == Some(info.outputPath + [name]) by {
        ResolveSingle(info.outputPath, name);
      }
    }
  }

  /** The two default transpilations, in order, with tsconfig `path`, or the error reading it. */
  lemma RunDefaultsShape(info: ProjectInfo, pj: Option<TsConfigJson>, fs: FileSystem, path: Path, ep: PackageJsonEntryPoint)
    returns (o: Outcome)
    requires info.Valid()
    ensures o == RunDefaults(info, pj, fs, path, ep)
    ensures o.error.Some? <==> path !in fs.tsConfigs
    ensures o.error.Some? ==> o.error == Some(TsConfigUnreadable(path))
    ensures o.error.None? ==>
              && |o.entries| == 2
              && o.entries[0].entry == DefaultEsm2015Entry && o.entries[0].index == 0 && o.entries[0].scriptTarget == ES2015
              && o.entries[1].entry == DefaultEsm5Entry && o.entries[1].index == 1 && o.entries[1].scriptTarget == ES5
              && !o.entries[1].declaration
              && o.entries[0].tsConfigPath == path && o.entries[1].tsConfigPath == path
              && o.entries[0].customTsOutDir == Some(info.outputPath + ["esm2015"])
              && o.entries[1].customTsOutDir == Some(info.outputPath + ["esm5"])
  {
    o := RunDefaults(info, pj, fs, path, ep);
    DefaultTargets();
    DefaultPlan(info, pj, fs, path, DefaultEsm2015Entry, 0, "esm2015", ES2015);
    DefaultPlan(info, pj, fs, path, DefaultEsm5Entry, 1, "esm5", ES5);
  }

  /**
   * With `scriptTranspilation` `true` or an object without `entries`, the
   * planner reports an undetectable tsconfig exactly when there is no
   * project tsconfig and none is found; otherwise, without error, it builds
   * exactly two entries with that tsconfig: esm2015 (target ES2015, index 0)
   * and then esm5 (target ES5, index 1, no declarations), written below the
   * output path.
   */
  lemma DefaultTranspilations(info: ProjectInfo, setting: ScriptTranspilationSetting, s: PlanState, fs: FileSystem)
    returns (es: seq<TranspilationEntryInternal>)
    requires info.Valid()
    requires setting.On? || (setting.Options? && setting.entries.None?)
    requires TakeProjectTsConfig(info, setting, s, fs).1.None?
    ensures es == Prepare(info, setting, s, fs).0.scriptTranspilationEntries
    ensures Prepare(info, setting, s, fs).1 == Some(TsConfigNotDetected)
            <==> ProjectTsConfig(info, setting, s).None? && DetectedTsConfigPath(info, fs).None?
    ensures Prepare(info, setting, s, fs).1.None? ==>
              && |es| == 2
              && es[0].entry == DefaultEsm2015Entry && es[0].index == 0 && es[0].scriptTarget == ES2015
              && es[1].entry == DefaultEsm5Entry && es[1].index == 1 && es[1].scriptTarget == ES5 && !es[1].declaration
              && es[0].tsConfigPath == es[1].tsConfigPath
              && Some(es[0].tsConfigPath) == (if ProjectTsConfig(info, setting, s).Some? then ProjectTsConfig(info, setting, s)
                                              else DetectedTsConfigPath(info, fs))
              && es[0].customTsOutDir == Some(info.outputPath + ["esm2015"])
              && es[1].customTsOutDir == Some(info.outputPath + ["esm5"])
  {
    var s1 := TakeProjectTsConfig(info, setting, s, fs).0;
    assert s1.tsConfigPath == ProjectTsConfig(info, setting, s);
    es := Prepare(info, setting, s, fs).0.scriptTranspilationEntries;
    var path := if s1.tsConfigPath.Some? then s1.tsConfigPath else DetectedTsConfigPath(info, fs);
    if path.Some? {
      var o := RunDefaultsShape(info, s1.tsConfigJson, fs, path.value, s1.packageJsonEntryPoint);
    }
  }

  /** With `scriptTranspilation` off, no transpilation is planned and nothing else changes. */
  lemma TranspilationOff(info: ProjectInfo, s: PlanState, fs: FileSystem)
    ensures Prepare(info, Off, s, fs) == (s.(scriptTranspilationEntries := []), None)
  {
  }

  // ---------------------------------------------------------------------------
  // One transpilation.

  /**
   * The script target: an explicit name is mapped (an unknown one is an
   * error for that entry), else a truthy compiler target is kept, else
   * ES2017. ES3 (0) is falsy, so a compiler target of ES3 gives ES2017.
   */
  lemma EntryTarget(info: ProjectInfo, pj: Option<TsConfigJson>, fs: FileSystem, path: Path, entry: ScriptTranspilationEntry, i: nat)
    requires path in fs.tsConfigs
    ensures EntryPlan(info, pj, fs, path, entry, i).Failure? ==>
              EntryPlan(info, pj, fs, path, entry, i).error == InvalidScriptTarget(i)
    ensures EntryPlan(info, pj, fs, path, entry, i).Failure? <==> Truthy(entry.target) && ToTsScriptTarget(entry.target.value).None?
    ensures EntryPlan(info, pj, fs, path, entry, i).Success? && Truthy(entry.target) ==>
              Some(EntryPlan(info, pj, fs, path, entry, i).value.scriptTarget) == ToTsScriptTarget(entry.target.value)
    ensures EntryPlan(info, pj, fs, path, entry, i).Success? && !Truthy(entry.target)
            && fs.tsConfigs[path].options.target.Some? && fs.tsConfigs[path].options.target.value != ES3 ==>
              EntryPlan(info, pj, fs, path, entry, i).value.scriptTarget == fs.tsConfigs[path].options.target.value
    ensures EntryPlan(info, pj, fs, path, entry, i).Success? && !Truthy(entry.target)
            && (fs.tsConfigs[path].options.target.None? || fs.tsConfigs[path].options.target == Some(ES3)) ==>
              EntryPlan(info, pj, fs, path, entry, i).value.scriptTarget == ES2017
  {
  }

  /** The declaration flag: explicit, else the compiler's, else true. */
  lemma EntryDeclaration(info: ProjectInfo, pj: Option<TsConfigJson>, fs: FileSystem, path: Path, entry: ScriptTranspilationEntry, i: nat)
    requires EntryPlan(info, pj, fs, path, entry, i).Success?
    ensures entry.declaration.Some? ==> EntryPlan(info, pj, fs, path, entry, i).value.declaration == entry.declaration.value
    ensures entry.declaration.None? && fs.tsConfigs[path].options.declaration.Some? ==>
              EntryPlan(info, pj, fs, path, entry, i).value.declaration == fs.tsConfigs[path].options.declaration.value
    ensures entry.declaration.None? && fs.tsConfigs[path].options.declaration.None? ==>
              EntryPlan(info, pj, fs, path, entry, i).value.declaration
  {
  }

  /**
   * The output directory before the rootDir offset: an explicit one below
   * the output path (custom), else the compiler's (absolute as it is,
   * relative below the tsconfig's directory; not custom), else the output
   * path itself (custom).
   */
  lemma EntryOutDir(info: ProjectInfo, path: Path, entry: ScriptTranspilationEntry, options: CompilerOptions)
    ensures Truthy(entry.outDir) ==>
              OutDirFor(info, path, entry, options) == (Resolve(info.outputPath, entry.outDir.value), Some(Resolve(info.outputPath, entry.outDir.value)))
    ensures !Truthy(entry.outDir) && Truthy(options.outDir) && IsAbsolute(options.outDir.value) ==>
              OutDirFor(info, path, entry, options) == (Resolve(Dirname(path), options.outDir.value), None)
    ensures !Truthy(entry.outDir) && Truthy(options.outDir) && !IsAbsolute(options.outDir.value) ==>
              OutDirFor(info, path, entry, options) == (Resolve(Dirname(path), options.outDir.value), None)
    ensures !Truthy(entry.outDir) && !Truthy(options.outDir) ==>
              OutDirFor(info, path, entry, options) == (info.outputPath, Some(info.outputPath))
    ensures OutDirFor(info, path, entry, options).1.Some? ==> OutDirFor(info, path, entry, options).1.value == OutDirFor(info, path, entry, options).0
  {
    if !Truthy(entry.outDir) && Truthy(options.outDir) && IsAbsolute(options.outDir.value) {
      ResolveAbsolute([], Dirname(path), options.outDir.value);
    }
  }

  /**
   * The rootDir offset: none without `rootDir` or when it is the tsconfig's
   * directory. When one of the two directories contains the other, the
   * segments that lead from the outer to the inner one are appended to the
   * output directory. When neither contains the other, the offset is the
   * relative path from the tsconfig's directory to `rootDir`: it climbs out
   * of the output directory as many levels as the tsconfig's directory lies
   * below their common prefix (at least one), then descends along the rest
   * of `rootDir`.
   */
  lemma RootDirOffsetApplied(outDir: Path, tsConfigPath: Path, rootDir: Option<Path>)
    requires IsNormal(outDir) && IsNormal(tsConfigPath) && (rootDir.Some? ==> IsNormal(rootDir.value))
    ensures rootDir.None? || rootDir.value == Dirname(tsConfigPath) ==> WithRootDirOffset(outDir, tsConfigPath, rootDir) == outDir
    ensures rootDir.Some? && IsInFolder(rootDir.value, Dirname(tsConfigPath)) ==>
              WithRootDirOffset(outDir, tsConfigPath, rootDir) == outDir + Dirname(tsConfigPath)[|rootDir.value|..]
    ensures rootDir.Some? && !IsInFolder(rootDir.value, Dirname(tsConfigPath)) && IsInFolder(Dirname(tsConfigPath), rootDir.value) ==>
              WithRootDirOffset(outDir, tsConfigPath, rootDir) == outDir + rootDir.value[|Dirname(tsConfigPath)|..]
    ensures rootDir.Some? && !IsInFolder(rootDir.value, Dirname(tsConfigPath)) && !IsInFolder(Dirname(tsConfigPath), rootDir.value) ==>
              && CommonPrefixLength(Dirname(tsConfigPath), rootDir.value) < |Dirname(tsConfigPath)|
              && CommonPrefixLength(Dirname(tsConfigPath), rootDir.value) < |rootDir.value|
              && WithRootDirOffset(outDir, tsConfigPath, rootDir)
                 == Above(outDir, |Dirname(tsConfigPath)| - CommonPrefixLength(Dirname(tsConfigPath), rootDir.value))
                    + rootDir.value[CommonPrefixLength(Dirname(tsConfigPath), rootDir.value)..]
  {
    var tsDir := Dirname(tsConfigPath);
    if rootDir.Some? && rootDir.value != tsDir {
      var rd := rootDir.value;
      if IsInFolder(rd, tsDir) {
        NestedRootDirOffset(outDir, rd, tsDir);
      } else if IsInFolder(tsDir, rd) {
        NestedRootDirOffset(outDir, tsDir, rd);
      } else {
        SiblingRootDirOffset(outDir, tsDir, rd);
      }
    } else if rootDir.Some? {
      assert tsDir[|rootDir.value|..] == [];
      assert outDir + [] == outDir;
    }
  }

  /** The offset between a `rootDir` and a tsconfig directory one of which contains the other. */
  lemma NestedRootDirOffset(outDir: Path, outer: Path, inner: Path)
    requires IsNormal(outDir) && IsNormal(outer) && IsNormal(inner) && IsInFolder(outer, inner)
    ensures Resolve(outDir, Relative(outer, inner)) == outDir + inner[|outer|..]
  {
    RelativeInFolder(outer, inner);
    ResolveJoined(outDir, inner[|outer|..]);
  }

  /** The offset between a `rootDir` and a tsconfig directory neither of which contains the other. */
  lemma SiblingRootDirOffset(outDir: Path, tsDir: Path, rootDir: Path)
    requires IsNormal(outDir) && IsNormal(tsDir) && IsNormal(rootDir)
    requires !IsInFolder(rootDir, tsDir) && !IsInFolder(tsDir, rootDir)
    ensures CommonPrefixLength(tsDir, rootDir) < |tsDir| && CommonPrefixLength(tsDir, rootDir) < |rootDir|
    ensures Resolve(outDir, RootDirOffset(rootDir, tsDir))
            == Above(outDir, |tsDir| - CommonPrefixLength(tsDir, rootDir)) + rootDir[CommonPrefixLength(tsDir, rootDir)..]
  {
    CommonPrefixWhole(tsDir, rootDir);
    assert RootDirOffset(rootDir, tsDir) == Relative(tsDir, rootDir);
    ResolveRelativeFrom(outDir, tsDir, rootDir);
  }

  /** From normalised project paths and a normalised tsconfig path, the output directory is a normalised path. */
  lemma OutDirNormal(info: ProjectInfo, path: Path, entry: ScriptTranspilationEntry, options: CompilerOptions)
    requires info.Valid() && IsNormal(path)
    ensures IsNormal(OutDirFor(info, path, entry, options).0)
  {
    assert IsNormal(Dirname(path));
    if Truthy(entry.outDir) {
      ResolveNormal(info.outputPath, entry.outDir.value);
    } else if Truthy(options.outDir) {
      ResolveNormal([], options.outDir.value);
      ResolveNormal(Dirname(path), options.outDir.value);
    }
  }

  /** From normalised project paths and a normalised tsconfig path, every output directory the planner computes is a normalised path. */
  lemma EntryPlanNormal(info: ProjectInfo, pj: Option<TsConfigJson>, fs: FileSystem, path: Path, entry: ScriptTranspilationEntry, i: nat)
    requires info.Valid() && IsNormal(path)
    ensures EntryPlan(info, pj, fs, path, entry, i).Success? ==> IsNormal(EntryPlan(info, pj, fs, path, entry, i).value.tsOutDirRootResolved)
  {
    if path in fs.tsConfigs {
      var options := fs.tsConfigs[path].options;
      var outDir := OutDirFor(info, path, entry, options).0;
      OutDirNormal(info, path, entry, options);
      if options.rootDir.Some? && !IsSamePaths(options.rootDir.value, Dirname(path)) {
        ResolveNormal(outDir, RootDirOffset(options.rootDir.value, Dirname(path)));
      }
    }
  }

  /** From a normalised project root, the tsconfig the planner detects is a normalised path. */
  lemma DetectedTsConfigNormal(info: ProjectInfo, fs: FileSystem)
    requires info.Valid()
    ensures DetectedTsConfigPath(info, fs).Some? ==> IsNormal(DetectedTsConfigPath(info, fs).value)
  {
    FindUp.FoundIsNormal(TsConfigNames, info.projectRoot, info.workspaceRoot, fs.existing);
  }

  /**
   * The entry name: a project-level flat module file without its `.js`
   * suffix, else the first candidate whose `.ts` file exists in the
   * tsconfig's directory, else none.
   */
  lemma EntryNameDetection(info: ProjectInfo, pj: Option<TsConfigJson>, fs: FileSystem, dir: Path)
    ensures FlatModuleOutFile(pj).Some? ==>
              DetectEntryName(info, pj, fs, dir) == Some(StripSuffixIgnoreCase(FlatModuleOutFile(pj).value, ".js"))
    ensures FlatModuleOutFile(pj).None? && DetectEntryName(info, pj, fs, dir).Some? ==>
              exists n :: 0 <= n < 6 && EntryCandidates(info.packageNameWithoutScope)[n] == DetectEntryName(info, pj, fs, dir).value
                && Resolve(dir, EntryCandidates(info.packageNameWithoutScope)[n] + ".ts") in fs.existing
                && forall m :: 0 <= m < n ==> Resolve(dir, EntryCandidates(info.packageNameWithoutScope)[m] + ".ts") !in fs.existing
    ensures FlatModuleOutFile(pj).None? ==>
              (DetectEntryName(info, pj, fs, dir).None? <==>
               forall n :: 0 <= n < 6 ==> Resolve(dir, EntryCandidates(info.packageNameWithoutScope)[n] + ".ts") !in fs.existing)
  {
  }

  // ---------------------------------------------------------------------------
  // The paths written into `package.json` lead back to the files.

  /** The JS entry, without `.js`, resolved against the `package.json` directory, is the entry file below the output directory. */
  lemma JsEntryLocates(info: ProjectInfo, e: TranspilationEntryInternal)
    requires info.Valid() && IsNormal(e.tsOutDirRootResolved) && e.detectedEntryName.Some?
    ensures exists rel :: JsEntryFile(info, e) == rel + ".js"
              && Resolve(info.packageJsonOutDir, rel) == Resolve(e.tsOutDirRootResolved, e.detectedEntryName.value)
  {
    var target := Resolve(e.tsOutDirRootResolved, e.detectedEntryName.value);
    ResolveNormal(e.tsOutDirRootResolved, e.detectedEntryName.value);
    ResolveRelative(info.packageJsonOutDir, target);
    var rel := Relative(info.packageJsonOutDir, target);
    assert JsEntryFile(info, e) == rel + ".js";
  }

  /**
   * The typings of a nested package lead to `<outputPath>/<last name
   * segment>.d.ts`, whichever transpilation writes them; otherwise they are
   * the entry's own `.d.ts` next to its JS entry.
   */
  lemma TypingsLocates(info: ProjectInfo, e: TranspilationEntryInternal)
    requires info.Valid() && IsNormal(e.tsOutDirRootResolved) && e.detectedEntryName.Some?
    ensures info.nestedPackage ==>
              Resolve(info.packageJsonOutDir, TypingsEntryFile(info, e))
              == JoinPath(info.outputPath, AfterLast(info.packageNameWithoutScope, '/') + ".d.ts")
    ensures !info.nestedPackage ==>
              exists rel :: TypingsEntryFile(info, e) == rel + ".d.ts" && JsEntryFile(info, e) == rel + ".js"
                && Resolve(info.packageJsonOutDir, rel) == Resolve(e.tsOutDirRootResolved, e.detectedEntryName.value)
  {
    if info.nestedPackage {
      ResolveNormal(info.outputPath, AfterLast(info.packageNameWithoutScope, '/') + ".d.ts");
      ResolveRelative(info.packageJsonOutDir, JoinPath(info.outputPath, AfterLast(info.packageNameWithoutScope, '/') + ".d.ts"));
    } else {
      var target := Resolve(e.tsOutDirRootResolved, e.detectedEntryName.value);
      ResolveNormal(e.tsOutDirRootResolved, e.detectedEntryName.value);
      ResolveRelative(info.packageJsonOutDir, target);
      var rel := Relative(info.packageJsonOutDir, target);
      assert TypingsEntryFile(info, e) == rel + ".d.ts" && JsEntryFile(info, e) == rel + ".js";
    }
  }
}
