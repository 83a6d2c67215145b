/** The configuration the Ruby programs read from settings.yml. */
module Config {
  import opened Wrappers

  /** One entry of `known_repos`. */
  datatype Repo = Repo(name: string, branch: string, submoduleDir: string, submodules: seq<string>)

  /** The keys of the settings hash that the core reads. `build_dir` is put
      into the hash by the entry script; the two git-log keys may be absent. */
  datatype Settings = Settings(
    knownRepos: seq<Repo>,
    targetSubmoduleName: string,
    targetSubmoduleTargetBranch: string,
    gitRepoBaseClonePath: string,
    buildDir: string,
    gitLogFormat: Option<string>,
    gitLogNumberOfLines: Option<int>)

  function Names(repos: seq<Repo>): (names: seq<string>)
    ensures |names| == |repos| && forall i :: 0 <= i < |repos| ==> names[i] == repos[i].name
  {
    if repos == [] then [] else Names(repos[..|repos| - 1]) + [repos[|repos| - 1].name]
  }
}
