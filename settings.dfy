/** src/settings.rb: reading the settings file and indexing which
    repositories carry which submodules. A submodule is known by the last
    component of its path, and the index maps that name to the
    repositories, by name, whose submodule lists hold such a path. */
module SettingsIndex {
  import opened Wrappers
  import opened Text
  import Config

  type Repo = Config.Repo

  /** The names under which a repository's submodules are known. */
  function SubmoduleNames(paths: seq<string>): set<string> {
    if paths == [] then {} else SubmoduleNames(paths[..|paths| - 1]) + {Basename(paths[|paths| - 1])}
  }

  /** What `scan` returns: the set of submodule names, and for each name the
      repositories holding it, keyed by repository name. */
  datatype Index = Index(knownSubmodules: set<string>, submoduleMap: map<string, map<string, Repo>>)

  /** `submodule_map[name] ||= {}`. */
  function EntryOf(m: map<string, map<string, Repo>>, name: string): map<string, Repo> {
    if name in m then m[name] else map[]
  }

  /** One submodule path of `repo` added to the index. */
  function AddSubmodule(ix: Index, repo: Repo, path: string): Index {
    var name := Basename(path);
    Index(ix.knownSubmodules + {name}, ix.submoduleMap[name := EntryOf(ix.submoduleMap, name)[repo.name := repo]])
  }

  /** The inner loop: every path of `paths`, in order. */
  function AddPaths(ix: Index, repo: Repo, paths: seq<string>): Index {
    if paths == [] then ix else AddSubmodule(AddPaths(ix, repo, paths[..|paths| - 1]), repo, paths[|paths| - 1])
  }

  /** The outer loop: every repository, in order, from an empty index. */
  function ScanSpec(repos: seq<Repo>): Index {
    if repos == [] then Index({}, map[])
    else
      var last := repos[|repos| - 1];
      AddPaths(ScanSpec(repos[..|repos| - 1]), last, last.submodules)
  }

  // ---------------------------------------------------------------------------
  // What one repository adds

  /** A name is among a repository's submodule names exactly when it is
      the basename of one of its paths. */
  lemma {:induction false} SubmoduleNamesAreBasenames(paths: seq<string>, s: string)
    ensures s in SubmoduleNames(paths) <==> exists j :: 0 <= j < |paths| && Basename(paths[j]) == s
    decreases |paths|
  {
    if paths != [] {
      var init := paths[..|paths| - 1];
      SubmoduleNamesAreBasenames(init, s);
      if s in SubmoduleNames(init) {
        var j :| 0 <= j < |init| && Basename(init[j]) == s;
        assert paths[j] == init[j];
      } else if s != Basename(paths[|paths| - 1]) {
        forall j | 0 <= j < |paths|
          ensures Basename(paths[j]) != s
        {
          if j < |init| {
            assert paths[j] == init[j];
          }
        }
      }
    }
  }

  /** A repository's paths add their names to the known set, and the map's
      keys follow the known set. */
  lemma {:induction false} AddPathsKnown(ix: Index, repo: Repo, paths: seq<string>)
    requires ix.submoduleMap.Keys == ix.knownSubmodules
    ensures var r := AddPaths(ix, repo, paths);
      r.knownSubmodules == ix.knownSubmodules + SubmoduleNames(paths)
      && r.submoduleMap.Keys == r.knownSubmodules
    decreases |paths|
  {
    if paths != [] {
      AddPathsKnown(ix, repo, paths[..|paths| - 1]);
    }
  }

  /** Under a name of one of the paths the repository is recorded by its
      name; every other entry is left as it was. */
  lemma {:induction false} AddPathsEntry(ix: Index, repo: Repo, paths: seq<string>, s: string)
    ensures var r := AddPaths(ix, repo, paths);
      (s in r.submoduleMap <==> s in ix.submoduleMap || s in SubmoduleNames(paths))
      && (s in SubmoduleNames(paths) ==> r.submoduleMap[s] == EntryOf(ix.submoduleMap, s)[repo.name := repo])
      && (s in ix.submoduleMap && s !in SubmoduleNames(paths) ==> r.submoduleMap[s] == ix.submoduleMap[s])
    decreases |paths|
  {
    if paths != [] {
      AddPathsEntry(ix, repo, paths[..|paths| - 1], s);
    }
  }

  // ---------------------------------------------------------------------------
  // What the whole scan promises

  /** Repository `i` holds a submodule known as `s`. */
  predicate Holds(repos: seq<Repo>, i: int, s: string) {
    0 <= i < |repos| && s in SubmoduleNames(repos[i].submodules)
  }

  /** Some repository holds a submodule known as `s`. */
  ghost predicate HeldBy(repos: seq<Repo>, s: string) {
    exists i :: Holds(repos, i, s)
  }

  /** Some repository named `name` holds a submodule known as `s`. */
  ghost predicate HeldAs(repos: seq<Repo>, s: string, name: string) {
    exists i :: Holds(repos, i, s) && repos[i].name == name
  }

  /** Repository `i` is named `name`, holds `s`, and no later repository of
      that name does. */
  predicate LastHolder(repos: seq<Repo>, i: int, s: string, name: string) {
    Holds(repos, i, s) && repos[i].name == name
    && forall k :: i < k < |repos| && repos[k].name == name ==> !Holds(repos, k, s)
  }

  lemma HoldsInInit(repos: seq<Repo>, i: int, s: string)
    requires repos != [] && i < |repos| - 1
    ensures Holds(repos, i, s) <==> Holds(repos[..|repos| - 1], i, s)
  {
  }

  lemma HeldByLast(repos: seq<Repo>, s: string)
    requires repos != []
    ensures HeldBy(repos, s) <==> HeldBy(repos[..|repos| - 1], s) || Holds(repos, |repos| - 1, s)
  {
    var init := repos[..|repos| - 1];
    if HeldBy(repos, s) && !Holds(repos, |repos| - 1, s) {
      var i :| Holds(repos, i, s);
      HoldsInInit(repos, i, s);
    }
    if HeldBy(init, s) {
      var i :| Holds(init, i, s);
      HoldsInInit(repos, i, s);
    }
  }

  lemma HeldAsLast(repos: seq<Repo>, s: string, name: string)
    requires repos != []
    ensures HeldAs(repos, s, name)
      <==> HeldAs(repos[..|repos| - 1], s, name) || (Holds(repos, |repos| - 1, s) && repos[|repos| - 1].name == name)
  {
    var init := repos[..|repos| - 1];
    if HeldAs(repos, s, name) && !(Holds(repos, |repos| - 1, s) && repos[|repos| - 1].name == name) {
      var i :| Holds(repos, i, s) && repos[i].name == name;
      HoldsInInit(repos, i, s);
    }
    if HeldAs(init, s, name) {
      var i :| Holds(init, i, s) && init[i].name == name;
      HoldsInInit(repos, i, s);
    }
  }

  /** A last holder stays the last holder when a repository that does not
      hold `s` under that name is added after it. */
  lemma LastHolderExtends(repos: seq<Repo>, i: int, s: string, name: string)
    requires repos != [] && LastHolder(repos[..|repos| - 1], i, s, name)
    requires !(Holds(repos, |repos| - 1, s) && repos[|repos| - 1].name == name)
    ensures LastHolder(repos, i, s, name)
  {
    HoldsInInit(repos, i, s);
    forall k | i < k < |repos| && repos[k].name == name
      ensures !Holds(repos, k, s)
    {
      if k < |repos| - 1 {
        HoldsInInit(repos, k, s);
      }
    }
  }

  /** The known set is exactly the names of every submodule of every
      repository, and the map has an entry for exactly those names. */
  lemma {:induction false} ScanKnownSubmodules(repos: seq<Repo>)
    ensures var ix := ScanSpec(repos);
      ix.submoduleMap.Keys == ix.knownSubmodules
      && forall s :: s in ix.knownSubmodules <==> HeldBy(repos, s)
    decreases |repos|
  {
    if repos != [] {
      var init := repos[..|repos| - 1];
      var last := repos[|repos| - 1];
      ScanKnownSubmodules(init);
      AddPathsKnown(ScanSpec(init), last, last.submodules);
      forall s
        ensures s in ScanSpec(repos).knownSubmodules <==> HeldBy(repos, s)
      {
        HeldByLast(repos, s);
      }
    }
  }

  /** Under each name, the map records a repository name exactly when a
      repository of that name holds a submodule of that name. */
  lemma {:induction false} ScanRecordsHolders(repos: seq<Repo>, s: string, name: string)
    ensures var ix := ScanSpec(repos);
      (s in ix.submoduleMap && name in ix.submoduleMap[s]) <==> HeldAs(repos, s, name)
    decreases |repos|
  {
    if repos != [] {
      var init := repos[..|repos| - 1];
      var last := repos[|repos| - 1];
      ScanRecordsHolders(init, s, name);
      AddPathsEntry(ScanSpec(init), last, last.submodules, s);
      HeldAsLast(repos, s, name);
    }
  }

  /** The repository recorded under a submodule name and a repository name
      is the last repository of that name, in the settings' order, holding
      that submodule: a later one overwrites an earlier one. */
  lemma {:induction false} ScanKeepsLastHolder(repos: seq<Repo>, s: string, name: string)
    requires s in ScanSpec(repos).submoduleMap && name in ScanSpec(repos).submoduleMap[s]
    ensures exists i :: LastHolder(repos, i, s, name) && repos[i] == ScanSpec(repos).submoduleMap[s][name]
    decreases |repos|
  {
    var init := repos[..|repos| - 1];
    var last := repos[|repos| - 1];
    var before := ScanSpec(init);
    AddPathsEntry(before, last, last.submodules, s);
    if Holds(repos, |repos| - 1, s) && last.name == name {
      assert LastHolder(repos, |repos| - 1, s, name);
    } else {
      assert ScanSpec(repos).submoduleMap[s][name] == before.submoduleMap[s][name];
      ScanKeepsLastHolder(init, s, name);
      var i :| LastHolder(init, i, s, name) && init[i] == before.submoduleMap[s][name];
      LastHolderExtends(repos, i, s, name);
      assert repos[i] == init[i];
    }
  }

  // ---------------------------------------------------------------------------
  // The `Settings` object

  /** What reading the settings file can find. */
  datatype SettingsFile =
    | NoFile                                  // `File.file?` is false
    | Unparsed                                // YAML gives nil
    | Parsed(knownRepos: Option<seq<Repo>>)   // the `known_repos` key, if present

  class Settings {
    const settingsFilePath: string
    var knownSubmodules: Option<set<string>>
    var submoduleMap: Option<map<string, map<string, Repo>>>

    constructor (settingsFilePath: string)
      ensures this.settingsFilePath == settingsFilePath
      ensures knownSubmodules.None? && submoduleMap.None?
    {
      this.settingsFilePath := settingsFilePath;
      knownSubmodules := None;
      submoduleMap := None;
    }

    /** `good?`: an error for a missing or empty file, otherwise the index
        of the file's repositories, kept and returned. */
    method Good(file: SettingsFile) returns (r: Outcome<Index>)
      modifies this`knownSubmodules, this`submoduleMap
      ensures file.NoFile? ==> r == Exit(1, "No settings file found at: " + settingsFilePath)
      ensures file.Unparsed? ==> r == Exit(1, "Was unable to parse file '" + settingsFilePath + "' as YAML")
      ensures file.Parsed? && file.knownRepos.None? ==> r.Exit?
      ensures r.Exit? ==> knownSubmodules == old(knownSubmodules) && submoduleMap == old(submoduleMap)
      ensures file.Parsed? && file.knownRepos.Some? ==>
        r == Ok(ScanSpec(file.knownRepos.value))
        && knownSubmodules == Some(r.value.knownSubmodules) && submoduleMap == Some(r.value.submoduleMap)
    {
      match file {
        case NoFile =>
          return Exit(1, "No settings file found at: " + settingsFilePath);
        case Unparsed =>
          return Exit(1, "Was unable to parse file '" + settingsFilePath + "' as YAML");
        case Parsed(knownRepos) =>
          if knownRepos.None? {
            return Exit(1, "undefined method `each' for nil");
          }
          var known, smap := Scan(knownRepos.value);
          knownSubmodules := Some(known);
          submoduleMap := Some(smap);
          r := Ok(Index(known, smap));
      }
    }

    /** `scan`: the two nested loops over the repositories and their
        submodule paths. */
    method Scan(knownRepos: seq<Repo>) returns (known: set<string>, smap: map<string, map<string, Repo>>)
      ensures Index(known, smap) == ScanSpec(knownRepos)
    {
      known := {};
      smap := map[];
      var i := 0;
      while i < |knownRepos|
        invariant 0 <= i <= |knownRepos|
        invariant Index(known, smap) == ScanSpec(knownRepos[..i])
      {
        var repo := knownRepos[i];
        ghost var before := Index(known, smap);
        var j := 0;
        while j < |repo.submodules|
          invariant 0 <= j <= |repo.submodules|
          invariant Index(known, smap) == AddPaths(before, repo, repo.submodules[..j])
        {
          var submoduleName := Basename(repo.submodules[j]);
          known := known + {submoduleName};
          var entry := if submoduleName in smap then smap[submoduleName] else map[];
          smap := smap[submoduleName := entry[repo.name := repo]];
          assert repo.submodules[..j + 1][..j] == repo.submodules[..j];
          j := j + 1;
        }
        assert repo.submodules[..j] == repo.submodules;
        assert knownRepos[..i + 1][..i] == knownRepos[..i];
        i := i + 1;
      }
      assert knownRepos[..i] == knownRepos;
    }
  }
}
