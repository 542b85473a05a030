/**
 * `toLibConfigInternal(libConfig, configPath)`: the projects of a parsed
 * library config, each tagged with its position in the `projects` list,
 * the config file's path and the workspace root (the directory holding the
 * config file).
 */
module LibConfigs {
  import opened Common
  import opened Paths

  /**
   * A project as written in the config file. Only `name` is read by the
   * planner; the other settings are carried along unread.
   */
  datatype ProjectConfig = ProjectConfig(name: Option<string>, settings: map<string, string>)

  datatype LibConfig = LibConfig(projects: seq<ProjectConfig>)

  /** `ProjectConfigInternal`: a project plus `_index`, `_configPath` and `_workspaceRoot`. */
  datatype ProjectConfigInternal = ProjectConfigInternal(
    config: ProjectConfig,
    index: nat,
    configPath: Path,
    workspaceRoot: Path)

  datatype LibConfigInternal = LibConfigInternal(configPath: Path, projects: seq<ProjectConfigInternal>)

  /** The projects as written, with the internal fields dropped. */
  function Configs(projects: seq<ProjectConfigInternal>): (r: seq<ProjectConfig>)
    ensures |r| == |projects|
    ensures forall i :: 0 <= i < |projects| ==> r[i] == projects[i].config
  {
    if projects == [] then [] else [projects[0].config] + Configs(projects[1..])
  }

  /** Project `i` tagged with `i`, the config path and its directory. */
  function IndexedProjects(projects: seq<ProjectConfig>, configPath: Path): (r: seq<ProjectConfigInternal>)
    ensures |r| == |projects|
    ensures forall i :: 0 <= i < |projects| ==> r[i] == ProjectConfigInternal(projects[i], i, configPath, Dirname(configPath))
  {
    seq(|projects|, i requires 0 <= i < |projects| => ProjectConfigInternal(projects[i], i, configPath, Dirname(configPath)))
  }

  /** The `_index` tags are strictly increasing. */
  predicate IndicesIncreasing(projects: seq<ProjectConfigInternal>) {
    forall i, j :: 0 <= i < j < |projects| ==> projects[i].index < projects[j].index
  }

  /**
   * `toLibConfigInternal`. One internal project per project, in order;
   * project `i` is tagged `_index` `i`, and every project and the result
   * carry `configPath`, with `dirname(configPath)` as the workspace root.
   */
  method ToLibConfigInternal(libConfig: LibConfig, configPath: Path) returns (r: LibConfigInternal)
    ensures r.configPath == configPath
    ensures |r.projects| == |libConfig.projects|
    ensures forall i :: 0 <= i < |r.projects| ==>
      r.projects[i] == ProjectConfigInternal(libConfig.projects[i], i, configPath, Dirname(configPath))
    ensures r.projects == IndexedProjects(libConfig.projects, configPath)
    ensures Configs(r.projects) == libConfig.projects
    ensures IndicesIncreasing(r.projects)
  {
    r := LibConfigInternal(configPath, []);
    for i := 0 to |libConfig.projects|
      invariant r.configPath == configPath
      invariant |r.projects| == i
      invariant forall k :: 0 <= k < i ==>
        r.projects[k] == ProjectConfigInternal(libConfig.projects[k], k, configPath, Dirname(configPath))
    {
      var project := libConfig.projects[i];
      var projectInternal := ProjectConfigInternal(project, i, configPath, Dirname(configPath));
      r := r.(projects := r.projects + [projectInternal]);
    }
  }
}
