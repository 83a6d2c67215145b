/** src/templates/report_results.rb: the view model of the report page.
    It keeps what it is given and classifies every known repository as
    current or outdated with respect to the target submodule. */
module ReportResults {
  import Config

  datatype Status = Current | Outdated

  /** `up_to_date_modules.include?(name) ? :current : :outdated`. */
  function StatusOf(upToDateModules: set<string>, name: string): Status {
    if name in upToDateModules then Current else Outdated
  }

  /** The map `_process` builds: one entry per repository name, in the
      order of `known_repos`, a later repository of the same name writing
      over an earlier one. */
  function Processed(upToDateModules: set<string>, repos: seq<Config.Repo>): map<string, Status> {
    if repos == [] then map[]
    else
      var last := repos[|repos| - 1];
      Processed(upToDateModules, repos[..|repos| - 1])[last.name := StatusOf(upToDateModules, last.name)]
  }

  /** The map's keys are exactly the names of the known repositories, and a
      repository is current exactly when its name is among the up-to-date
      modules. */
  lemma {:induction false} ProcessedClassifies(upToDateModules: set<string>, repos: seq<Config.Repo>)
    ensures var p := Processed(upToDateModules, repos);
      (forall name :: name in p <==> name in Config.Names(repos))
      && forall name :: name in p ==> (p[name] == Current <==> name in upToDateModules)
    decreases |repos|
  {
    if repos != [] {
      var init := repos[..|repos| - 1];
      ProcessedClassifies(upToDateModules, init);
      assert Config.Names(repos) == Config.Names(init) + [repos[|repos| - 1].name];
    }
  }

  /** Every known repository has a status, the one its name calls for. */
  lemma EveryRepoHasItsStatus(upToDateModules: set<string>, repos: seq<Config.Repo>, i: int)
    requires 0 <= i < |repos|
    ensures var p := Processed(upToDateModules, repos);
      repos[i].name in p && p[repos[i].name] == StatusOf(upToDateModules, repos[i].name)
  {
    ProcessedClassifies(upToDateModules, repos);
    assert Config.Names(repos)[i] == repos[i].name;
  }

  /** The view model. The two lookup tables are only kept for the page, so
      their types are left open. */
  class ReportResults<NeedToUpdate, LogLines> {
    var upToDateModules: set<string>
    var needToUpdate: NeedToUpdate
    var logLinesLookup: LogLines
    var settings: Config.Settings
    var processedRepos: map<string, Status>

    /** `initialize`: the arguments are kept as given, then `_process` runs. */
    constructor (upToDateModules: set<string>, needToUpdate: NeedToUpdate, logLinesLookup: LogLines, settings: Config.Settings)
      ensures this.upToDateModules == upToDateModules && this.needToUpdate == needToUpdate
      ensures this.logLinesLookup == logLinesLookup && this.settings == settings
      ensures processedRepos == Processed(upToDateModules, settings.knownRepos)
    {
      this.upToDateModules := upToDateModules;
      this.needToUpdate := needToUpdate;
      this.logLinesLookup := logLinesLookup;
      this.settings := settings;
      processedRepos := map[];
      new;
      Process();
    }

    /** `_process`: the map is started afresh and filled repository by
        repository, so nothing of an earlier run is left in it. */
    method Process()
      modifies this`processedRepos
      ensures processedRepos == Processed(upToDateModules, settings.knownRepos)
    {
      processedRepos := map[];
      var repos := settings.knownRepos;
      for i := 0 to |repos|
        invariant processedRepos == Processed(upToDateModules, repos[..i])
      {
        var repo := repos[i];
        assert repos[..i + 1][..i] == repos[..i];
        processedRepos := processedRepos[repo.name := if repo.name in upToDateModules then Current else Outdated];
      }
      assert repos[..|repos|] == repos;
    }
  }
}
