/** src/updater.rb: the interactive submodule updater. It lists the known
    repositories, reads which of them to update, finds the SHA at the head
    of the target submodule's branch, and in every chosen repository that
    is behind it initialises the submodule, pulls the branch, commits the
    new submodule reference and queues the repository for a push. */
module Updater {
  import opened Wrappers
  import opened Text
  import opened Config
  import opened Command
  import opened GitVerbs

  // ---------------------------------------------------------------------------
  // The menu

  function MenuEntry(number: nat, name: string): string {
    "  " + NatToString(number) + ") " + name + "\n"
  }

  /** One line per repository name, numbered from 2. */
  function MenuLines(names: seq<string>): string {
    if names == [] then ""
    else MenuLines(names[..|names| - 1]) + MenuEntry(|names| + 1, names[|names| - 1])
  }

  const AllEntry := "  1) ALL\n"

  /** Every repository is on the menu under the number that selects it. */
  lemma {:induction false} MenuListsEveryRepo(names: seq<string>, i: nat)
    requires i < |names|
    ensures IsSubstring(MenuEntry(i + 2, names[i]), MenuLines(names))
    decreases |names|
  {
    var init := names[..|names| - 1];
    var entry := MenuEntry(i + 2, names[i]);
    if i == |names| - 1 {
      SubstringAt(entry, MenuLines(names), |MenuLines(init)|);
    } else {
      assert init[i] == names[i];
      MenuListsEveryRepo(init, i);
      var k := SubstringWitness(entry, MenuLines(init));
      assert MenuLines(names)[k..k + |entry|] == MenuLines(init)[k..k + |entry|];
      SubstringAt(entry, MenuLines(names), k);
    }
  }

  // ---------------------------------------------------------------------------
  // Reading the selection

  /** The digit runs of the line, repeated runs dropped, each less 2:
      `scan(/\d+/).uniq.map { |digit| digit.to_i - 2 }`. */
  function RubyMenuIndices(line: string): (indices: seq<int>)
    ensures |indices| == |Uniq(DigitRuns(line))|
  {
    var runs := Uniq(DigitRuns(line));
    assert forall i :: 0 <= i < |runs| ==> runs[i] in DigitRuns(line);
    MinusTwo(runs)
  }

  function MinusTwo(runs: seq<string>): (r: seq<int>)
    requires forall i :: 0 <= i < |runs| ==> AllDigits(runs[i])
    ensures |r| == |runs| && forall i :: 0 <= i < |runs| ==> r[i] == DigitsValue(runs[i]) - 2
  {
    if runs == [] then [] else MinusTwo(runs[..|runs| - 1]) + [DigitsValue(runs[|runs| - 1]) - 2]
  }

  /** The number printed in front of a repository, typed back, is read as
      that repository's index. */
  lemma MenuNumberSelectsRepo(i: nat)
    ensures RubyMenuIndices(Chomp(NatToString(i + 2) + "\n")) == [i]
  {
    var d := NatToString(i + 2);
    ChompLine(d);
    DigitRunsOfNumber(d);
    UniqOfDistinct([d]);
    NatToStringRoundTrip(i + 2);
  }

  /** The requested list and the known list, and whether the first is the
      same Ruby array as the second (after ALL was chosen). */
  datatype Selection = Selection(known: seq<Repo>, requested: seq<Repo>, aliased: bool)

  predicate Coherent(sel: Selection) {
    sel.aliased ==> sel.requested == sel.known
  }

  /** `@requested_repos << repo`: when the requested list is the known
      list, the known list grows too. */
  function Add(sel: Selection, repo: Repo): Selection {
    if sel.aliased then Selection(sel.known + [repo], sel.requested + [repo], true)
    else Selection(sel.known, sel.requested + [repo], false)
  }

  /** The loop of `get_menu_input` over the indices still to read. */
  function Select(sel: Selection, highest: int, inputs: seq<int>): (r: Selection)
    requires Coherent(sel) && highest < |sel.known|
    ensures Coherent(r) && |sel.known| <= |r.known| && r.known[..|sel.known|] == sel.known
    decreases |inputs|
  {
    if inputs == [] then sel
    else if inputs[0] == -1 then Selection(sel.known, sel.known, true)
    else if -1 <= inputs[0] <= highest then Select(Add(sel, sel.known[inputs[0]]), highest, inputs[1..])
    else Select(sel, highest, inputs[1..])
  }

  /** The known repositories at the given indices, in order, repeats kept;
      other indices ignored. */
  function Picked<T(==)>(known: seq<T>, indices: seq<int>): (r: seq<T>)
    ensures forall x :: x in r ==> x in known
  {
    if indices == [] then []
    else (if 0 <= indices[0] < |known| then [known[indices[0]]] else []) + Picked(known, indices[1..])
  }

  /** Without ALL, the chosen repositories are appended in the order typed
      and the known list is left alone. */
  lemma {:induction false} SelectWithoutAll(sel: Selection, inputs: seq<int>)
    requires !sel.aliased && -1 !in inputs
    ensures Select(sel, |sel.known| - 1, inputs) == Selection(sel.known, sel.requested + Picked(sel.known, inputs), false)
    decreases |inputs|
  {
    if inputs != [] {
      var h := |sel.known| - 1;
      var next := if 0 <= inputs[0] <= h then Add(sel, sel.known[inputs[0]]) else sel;
      assert -1 !in inputs[1..];
      SelectWithoutAll(next, inputs[1..]);
    }
  }

  /** ALL stops the loop: at the first ALL the requested list becomes the
      known list itself (as the indices before it left it), and the indices
      after it are never read. */
  lemma {:induction false} SelectWithAll(sel: Selection, highest: int, before: seq<int>, after: seq<int>)
    requires Coherent(sel) && highest < |sel.known| && -1 !in before
    ensures var known := Select(sel, highest, before).known;
      Select(sel, highest, before + [-1] + after) == Selection(known, known, true)
    decreases |before|
  {
    if before == [] {
      assert before + [-1] + after == [-1] + after;
    } else {
      var next := if -1 <= before[0] <= highest then Add(sel, sel.known[before[0]]) else sel;
      assert (before + [-1] + after)[1..] == before[1..] + [-1] + after;
      assert -1 !in before[1..];
      SelectWithAll(next, highest, before[1..], after);
    }
  }

  // ---------------------------------------------------------------------------
  // Moving about and running git: the functions the methods are proved against

  /** The effect of a step that may change the working directory. */
  datatype Moved<T> = Moved(events: seq<Event>, cwd: string, out: Outcome<T>)

  /** The same, for the steps that also use the shared commit message. */
  datatype Progress<T> = Progress(events: seq<Event>, cwd: string, message: string, out: Outcome<T>)

  function RepoPath(s: Settings, name: string): string {
    s.buildDir + "/" + name
  }

  function SubmodulePath(s: Settings, repo: Repo, target: string): string {
    s.buildDir + "/" + repo.name + "/" + repo.submoduleDir + "/" + target
  }

  /** The path each repository commits: its copy of the target submodule. */
  function SubmoduleRef(s: Settings, repo: Repo): string {
    repo.submoduleDir + "/" + s.targetSubmoduleName
  }

  function StatusCommand(path: string): string {
    "git submodule status " + path
  }

  /** `assert_path_exists`: a file or a directory, seen from `cwd`. */
  function PathStep(w: World, cwd: string, path: string): Outcome<()> {
    if w.pathExists(cwd, path) then Ok(()) else Exit(1, "path [" + path + "] does not exist")
  }

  function ChdirStep(w: World, cwd: string, path: string): Moved<()> {
    if w.pathExists(cwd, path) then Moved([ChangedDir(path)], path, Ok(()))
    else Moved([], cwd, Exit(1, "path [" + path + "] does not exist"))
  }

  function CloneStep(w: World, s: Settings, cwd: string, name: string): Step<string> {
    RunStep(w, cwd, CloneCommand(s.gitRepoBaseClonePath, name, s.buildDir))
  }

  /** Clone a repository into the build directory, enter it and check out
      the branch; the result is the SHA of its HEAD. */
  function CloneCheckoutStep(w: World, s: Settings, cwd: string, name: string, branch: string): Moved<string> {
    var clone := CloneStep(w, s, cwd, name);
    if clone.out.Exit? then Moved(clone.events, cwd, clone.out.PropagateFailure())
    else
      var enter := ChdirStep(w, cwd, RepoPath(s, name));
      if enter.out.Exit? then Moved(clone.events, cwd, enter.out.PropagateFailure())
      else
        var checkout := CheckoutStep(w, RepoPath(s, name), branch);
        Moved(clone.events + enter.events + checkout.events, RepoPath(s, name), checkout.out)
  }

  /** `submodule_up_to_date`: the SHA after the first `-` in the status
      line must equal the target; no such SHA is never equal. */
  function UpToDateStep(w: World, cwd: string, dir: string, sha: string): Step<bool> {
    var run := RunStep(w, cwd, StatusCommand(dir));
    Step(run.events, if run.out.Exit? then run.out.PropagateFailure() else Ok(DashSha(run.out.value) == Some(sha)))
  }

  function InitStep(w: World, cwd: string, dir: string): Step<string> {
    var present := PathStep(w, cwd, dir);
    if present.Exit? then Step([], present.PropagateFailure()) else RunStep(w, cwd, InitCommand(dir))
  }

  /** Whether a repository, once cloned and checked out, is reported
      behind the target SHA. */
  predicate Stale(w: World, s: Settings, repo: Repo, sha: string) {
    var status := UpToDateStep(w, RepoPath(s, repo.name), repo.submoduleDir, sha);
    status.out.Ok? && !status.out.value
  }

  /** What happens to one requested repository; the result says whether
      it was committed to and queued for a push. */
  function RepoStep(w: World, s: Settings, cwd: string, message: string, repo: Repo, sha: string): Progress<bool> {
    var enter := CloneCheckoutStep(w, s, cwd, repo.name, repo.branch);
    if enter.out.Exit? then Progress(enter.events, enter.cwd, message, enter.out.PropagateFailure())
    else
      var check := CheckRepoStep(w, s, enter.cwd, message, repo, sha);
      Progress(enter.events + check.events, check.cwd, check.message, check.out)
  }

  /** Inside the repository: compare its submodule with the target SHA and
      update it when it is behind. */
  function CheckRepoStep(w: World, s: Settings, cwd: string, message: string, repo: Repo, sha: string): Progress<bool> {
    var status := UpToDateStep(w, cwd, repo.submoduleDir, sha);
    if status.out.Exit? then Progress(status.events, cwd, message, status.out.PropagateFailure())
    else if status.out.value then Progress(status.events, cwd, message, Ok(false))
    else
      var update := UpdateSubmoduleStep(w, s, cwd, message, repo);
      Progress(status.events + update.events, update.cwd, update.message, update.out)
  }

  /** Initialise the submodule, pull the target branch inside it. */
  function UpdateSubmoduleStep(w: World, s: Settings, cwd: string, message: string, repo: Repo): Progress<bool> {
    var init := InitStep(w, cwd, repo.submoduleDir);
    if init.out.Exit? then Progress(init.events, cwd, message, init.out.PropagateFailure())
    else
      var enter := ChdirStep(w, cwd, SubmodulePath(s, repo, s.targetSubmoduleName));
      if enter.out.Exit? then Progress(init.events, cwd, message, enter.out.PropagateFailure())
      else
        var pull := PullStep(w, SubmodulePath(s, repo, s.targetSubmoduleName), s.targetSubmoduleTargetBranch);
        var before := init.events + enter.events + pull.events;
        if pull.out.Exit? then Progress(before, SubmodulePath(s, repo, s.targetSubmoduleName), message, pull.out.PropagateFailure())
        else
          var commit := CommitRepoStep(w, s, SubmodulePath(s, repo, s.targetSubmoduleName), message, repo);
          Progress(before + commit.events, commit.cwd, commit.message, commit.out)
  }

  /** Back in the repository, commit the submodule reference. */
  function CommitRepoStep(w: World, s: Settings, cwd: string, message: string, repo: Repo): Progress<bool> {
    var back := ChdirStep(w, cwd, RepoPath(s, repo.name));
    if back.out.Exit? then Progress([], cwd, message, back.out.PropagateFailure())
    else
      var here := RepoPath(s, repo.name);
      var paths := [SubmoduleRef(s, repo)];
      var commit := CommitStep(w, here, message, paths);
      Progress(back.events + commit.events, here,
        if AddsStep(w, here, paths).out.Ok? then RemoveFirst(message, '\'') else message,
        if commit.out.Exit? then commit.out.PropagateFailure() else Ok(true))
  }

  /** The loop of `process_repos` over the repositories still to handle,
      after `done`: its events, where it left the working directory and the
      message, and the list of repositories queued for a push so far. */
  function ReposFrom(w: World, s: Settings, sha: string, done: Progress<seq<Repo>>, repos: seq<Repo>): Progress<seq<Repo>>
    decreases |repos|
  {
    if repos == [] || done.out.Exit? then done
    else ReposFrom(w, s, sha, Queue(done, repos[0], RepoStep(w, s, done.cwd, done.message, repos[0], sha)), repos[1..])
  }

  /** The whole loop, from nothing done in `cwd` with `message`. */
  function ReposStep(w: World, s: Settings, cwd: string, message: string, sha: string, repos: seq<Repo>): Progress<seq<Repo>> {
    ReposFrom(w, s, sha, Progress([], cwd, message, Ok([])), repos)
  }

  /** One more repository handled after `before`: queued when committed to. */
  function Queue(before: Progress<seq<Repo>>, repo: Repo, one: Progress<bool>): Progress<seq<Repo>>
    requires before.out.Ok?
  {
    Progress(before.events + one.events, one.cwd, one.message,
      if one.out.Exit? then one.out.PropagateFailure()
      else Ok(before.out.value + if one.out.value then [repo] else []))
  }

  /** `push_to_origin`: the push itself is only announced. */
  function PushOneStep(w: World, s: Settings, cwd: string, name: string, branch: string): Moved<()> {
    var path := RepoPath(s, name);
    var present := PathStep(w, cwd, path);
    if present.Exit? then Moved([], cwd, present.PropagateFailure())
    else
      var enter := ChdirStep(w, cwd, path);
      if enter.out.Exit? then Moved([], cwd, enter.out.PropagateFailure())
      else
        var known := AssertKnownBranchStep(w, path, branch);
        if known.out.Exit? then Moved(enter.events + known.events, path, known.out.PropagateFailure())
        else Moved(enter.events + known.events + [WouldRun(path, PushCommand(branch))], path, Ok(()))
  }

  /** The pushes still to do, after `done`: a failure stops them. */
  function PushFrom(w: World, s: Settings, done: Moved<()>, repos: seq<Repo>): Moved<()>
    decreases |repos|
  {
    if repos == [] || done.out.Exit? then done
    else
      var one := PushOneStep(w, s, done.cwd, repos[0].name, repos[0].branch);
      PushFrom(w, s, Moved(done.events + one.events, one.cwd, one.out), repos[1..])
  }

  /** The loop of `process_repos` over the push queue. */
  function PushEachStep(w: World, s: Settings, cwd: string, repos: seq<Repo>): Moved<()> {
    PushFrom(w, s, Moved([], cwd, Ok(())), repos)
  }

  /** The answer that lets the pushes go ahead: `gets.chomp.strip.upcase == 'Y'`. */
  predicate Confirms(answer: string) {
    Upcase(RubyStrip(Chomp(answer))) == "Y"
  }

  /** The last part of `process_repos`: ask only when something is queued,
      push only on a yes. */
  function PushAllStep(w: World, s: Settings, cwd: string, toPush: seq<Repo>, answer: Option<string>): Moved<()> {
    if toPush == [] then Moved([], cwd, Ok(()))
    else if answer.None? then Moved([], cwd, Exit(1, NilChomp))
    else if !Confirms(answer.value) then Moved([], cwd, Ok(()))
    else PushEachStep(w, s, cwd, toPush)
  }

  /** `gets` returns nil at the end of input, and `nil.chomp` raises. */
  const NilChomp := "undefined method `chomp' for nil"

  /** All of `process_repos`; the result is the new push queue. */
  function ProcessSpec(w: World, s: Settings, cwd: string, requested: seq<Repo>, queued: seq<Repo>,
                       commitLine: Option<string>, answer: Option<string>): Progress<seq<Repo>>
  {
    if commitLine.None? then Progress([], cwd, "", Exit(1, NilChomp))
    else
      var rest := TargetThenRepos(w, s, cwd, requested, queued, Chomp(commitLine.value), answer);
      Progress([ResetBuildDir(s.buildDir)] + rest.events, rest.cwd, rest.message, rest.out)
  }

  /** After the build directory is reset: the target's SHA, then the rest. */
  function TargetThenRepos(w: World, s: Settings, cwd: string, requested: seq<Repo>, queued: seq<Repo>,
                           message: string, answer: Option<string>): Progress<seq<Repo>>
  {
    var target := CloneCheckoutStep(w, s, cwd, s.targetSubmoduleName, s.targetSubmoduleTargetBranch);
    if target.out.Exit? then Progress(target.events, target.cwd, message, target.out.PropagateFailure())
    else
      var rest := ReposThenPush(w, s, target.cwd, requested, queued, message, target.out.value, answer);
      Progress(target.events + rest.events, rest.cwd, rest.message, rest.out)
  }

  /** Every requested repository, then the pushes. */
  function ReposThenPush(w: World, s: Settings, cwd: string, requested: seq<Repo>, queued: seq<Repo>,
                         message: string, sha: string, answer: Option<string>): Progress<seq<Repo>>
  {
    var repos := ReposStep(w, s, cwd, message, sha, requested);
    if repos.out.Exit? then repos
    else
      var push := PushAllStep(w, s, repos.cwd, queued + repos.out.value, answer);
      Progress(repos.events + push.events, push.cwd, repos.message,
        if push.out.Exit? then push.out.PropagateFailure() else Ok(queued + repos.out.value))
  }

  // ---------------------------------------------------------------------------
  // The `Updater` object

  class Updater {
    const settings: Settings
    const verboseOn: bool
    const commander: Command
    /** `@settings['known_repos']`, which the requested list may alias. */
    var knownRepos: seq<Repo>
    var requestedRepos: seq<Repo>
    /** `@requested_repos` is the very array `@settings['known_repos']`. */
    var requestedAliasesKnown: bool
    var reposToPush: seq<Repo>

    predicate Valid()
      reads this
    {
      Coherent(Current())
    }

    function Current(): Selection
      reads this
    {
      Selection(knownRepos, requestedRepos, requestedAliasesKnown)
    }

    constructor (settings: Settings, verboseOn: bool, commander: Command)
      ensures Valid()
      ensures this.settings == settings && this.verboseOn == verboseOn && this.commander == commander
      ensures knownRepos == settings.knownRepos && requestedRepos == [] && !requestedAliasesKnown && reposToPush == []
    {
      this.settings := settings;
      this.verboseOn := verboseOn;
      this.commander := commander;
      knownRepos := settings.knownRepos;
      requestedRepos := [];
      requestedAliasesKnown := false;
      reposToPush := [];
    }

    function HaveReposToClone(): (b: bool)
      reads this
      ensures b <==> requestedRepos != []
    {
      !(|requestedRepos| == 0)
    }

    method GetMenu() returns (menu: string)
      ensures menu == AllEntry + MenuLines(Names(knownRepos))
    {
      menu := AllEntry;
      ghost var names := Names(knownRepos);
      var i := 0;
      while i < |knownRepos|
        invariant 0 <= i <= |knownRepos|
        invariant menu == AllEntry + MenuLines(names[..i])
      {
        assert names[..i + 1][..i] == names[..i] && names[i] == knownRepos[i].name;
        menu := menu + MenuEntry(i + 2, knownRepos[i].name);
        i := i + 1;
      }
      assert names[..i] == names;
    }

    /** `get_menu_input`, given the line `gets` returns (`None` at the end
        of input). */
    method GetMenuInput(line: Option<string>) returns (r: Outcome<seq<Repo>>)
      requires Valid()
      modifies this`knownRepos, this`requestedRepos, this`requestedAliasesKnown
      ensures Valid()
      ensures line.None? ==> r.Exit? && Current() == old(Current())
      ensures line.Some? ==>
        var sel := Select(old(Current()), |old(knownRepos)| - 1, RubyMenuIndices(Chomp(line.value)));
        Current() == sel && r == Ok(sel.requested)
    {
      if line.None? {
        return Exit(1, NilChomp);
      }
      var inputs := RubyMenuIndices(Chomp(line.value));
      var highest := |knownRepos| - 1;
      ghost var start := Current();
      var i := 0;
      while i < |inputs|
        invariant 0 <= i <= |inputs|
        invariant Valid() && highest < |knownRepos|
        invariant Select(Current(), highest, inputs[i..]) == Select(start, highest, inputs)
      {
        var input := inputs[i];
        assert inputs[i..][1..] == inputs[i + 1..];
        if input == -1 {
          requestedRepos := knownRepos;
          requestedAliasesKnown := true;
          break;
        } else if -1 <= input <= highest {
          var repo := knownRepos[input];
          requestedRepos := requestedRepos + [repo];
          if requestedAliasesKnown {
            knownRepos := knownRepos + [repo];
          }
        }
        i := i + 1;
      }
      r := Ok(requestedRepos);
    }
  
    // -------------------------------------------------------------------------
    // The verbs of `Updater` that are not shared with `GitCommander`

    method PrepBuild()
      modifies commander`trace
      ensures commander.trace == old(commander.trace) + [ResetBuildDir(settings.buildDir)]
    {
      commander.ResetDir(settings.buildDir);
    }

    method CloneRepoTo(repoName: string, targetDir: string) returns (r: Outcome<string>)
      modifies commander`trace
      ensures var run := RunStep(commander.world, commander.cwd, CloneCommand(settings.gitRepoBaseClonePath, repoName, targetDir));
        commander.trace == old(commander.trace) + run.events && r == run.out
    {
      r := commander.RunCommand(CloneCommand(settings.gitRepoBaseClonePath, repoName, targetDir), None);
    }

    method AssertPathExists(path: string) returns (r: Outcome<()>)
      ensures r == PathStep(commander.world, commander.cwd, path)
    {
      if !commander.PathExists(path) {
        return Exit(1, "path [" + path + "] does not exist");
      }
      r := Ok(());
    }

    method ChdirToRepo(repoName: string) returns (r: Outcome<()>)
      modifies commander`trace, commander`cwd
      ensures var m := ChdirStep(commander.world, old(commander.cwd), RepoPath(settings, repoName));
        commander.trace == old(commander.trace) + m.events && commander.cwd == m.cwd && r == m.out
    {
      var repoPath := settings.buildDir + "/" + repoName;
      var _ :- AssertPathExists(repoPath);
      commander.ChangeDir(repoPath);
      r := Ok(());
    }

    method ChdirToRepoSubmodule(repo: Repo, targetSubmodule: string) returns (r: Outcome<()>)
      modifies commander`trace, commander`cwd
      ensures var m := ChdirStep(commander.world, old(commander.cwd), SubmodulePath(settings, repo, targetSubmodule));
        commander.trace == old(commander.trace) + m.events && commander.cwd == m.cwd && r == m.out
    {
      var path := settings.buildDir + "/" + repo.name + "/" + repo.submoduleDir + "/" + targetSubmodule;
      var _ :- AssertPathExists(path);
      commander.ChangeDir(path);
      r := Ok(());
    }

    method SubmoduleUpToDate(submoduleRelativePath: string, submoduleTargetSha: string) returns (r: Outcome<bool>)
      modifies commander`trace
      ensures var s := UpToDateStep(commander.world, commander.cwd, submoduleRelativePath, submoduleTargetSha);
        commander.trace == old(commander.trace) + s.events && r == s.out
    {
      var shaResponse :- commander.RunCommand(StatusCommand(submoduleRelativePath), None);
      var reposSubmoduleSha := DashSha(shaResponse);
      r := Ok(reposSubmoduleSha == Some(submoduleTargetSha));
    }

    method InitSubmodule(submodulePath: string) returns (r: Outcome<string>)
      modifies commander`trace
      ensures var s := InitStep(commander.world, commander.cwd, submodulePath);
        commander.trace == old(commander.trace) + s.events && r == s.out
    {
      var _ :- AssertPathExists(submodulePath);
      r := commander.RunCommand(InitCommand(submodulePath), None);
    }

    method PushToOrigin(repoName: string, branchName: string) returns (r: Outcome<()>)
      modifies commander`trace, commander`cwd
      ensures var m := PushOneStep(commander.world, settings, old(commander.cwd), repoName, branchName);
        commander.trace == old(commander.trace) + m.events && commander.cwd == m.cwd && r == m.out
    {
      var _ :- AssertPathExists(settings.buildDir + "/" + repoName);
      // `chdir_to_repo` checks the same path again, so it cannot fail here.
      var entered := ChdirToRepo(repoName);
      assert entered.Ok?;
      var _ :- AssertKnownBranch(commander, branchName);
      commander.AnnounceDryRun(PushCommand(branchName));
      r := Ok(());
    }

    // -------------------------------------------------------------------------
    // `process_repos`, part by part

    /** Lines 67-69 and 76-78 of src/updater.rb: clone, enter, check out. */
    method CloneAndCheckout(repoName: string, branchName: string) returns (r: Outcome<string>)
      modifies commander`trace, commander`cwd
      ensures var m := CloneCheckoutStep(commander.world, settings, old(commander.cwd), repoName, branchName);
        commander.trace == old(commander.trace) + m.events && commander.cwd == m.cwd && r == m.out
    {
      ghost var t0 := commander.trace;
      var _ :- CloneRepoTo(repoName, settings.buildDir);
      ghost var t1 := commander.trace;
      var _ :- ChdirToRepo(repoName);
      ghost var t2 := commander.trace;
      TraceGrows(t0, t1[|t0|..], t2[|t1|..]);
      r := CheckoutBranch(commander, branchName);
      TraceGrows(t0, t2[|t0|..], commander.trace[|t2|..]);
    }

    method CommitRepo(repo: Repo, message: MutableString) returns (r: Outcome<bool>)
      modifies commander`trace, commander`cwd, message
      ensures var p := CommitRepoStep(commander.world, settings, old(commander.cwd), old(message.value), repo);
        commander.trace == old(commander.trace) + p.events && commander.cwd == p.cwd && message.value == p.message && r == p.out
    {
      ghost var t0 := commander.trace;
      var _ :- ChdirToRepo(repo.name);
      ghost var t1 := commander.trace;
      var _ :- MakeGitCommit(commander, message, OnePath(repo.submoduleDir + "/" + settings.targetSubmoduleName));
      TraceGrows(t0, t1[|t0|..], commander.trace[|t1|..]);
      r := Ok(true);
    }
  
    method UpdateSubmodule(repo: Repo, message: MutableString) returns (r: Outcome<bool>)
      modifies commander`trace, commander`cwd, message
      ensures var p := UpdateSubmoduleStep(commander.world, settings, old(commander.cwd), old(message.value), repo);
        commander.trace == old(commander.trace) + p.events && commander.cwd == p.cwd && message.value == p.message && r == p.out
    {
      ghost var t0 := commander.trace;
      var _ :- InitSubmodule(repo.submoduleDir);
      ghost var t1 := commander.trace;
      var _ :- ChdirToRepoSubmodule(repo, settings.targetSubmoduleName);
      ghost var t2 := commander.trace;
      TraceGrows(t0, t1[|t0|..], t2[|t1|..]);
      var _ :- PullBranchOriginLatest(commander, settings.targetSubmoduleTargetBranch);
      ghost var t3 := commander.trace;
      TraceGrows(t0, t2[|t0|..], t3[|t2|..]);
      r := CommitRepo(repo, message);
      TraceGrows(t0, t3[|t0|..], commander.trace[|t3|..]);
    }

    method CheckRepo(repo: Repo, sha: string, message: MutableString) returns (r: Outcome<bool>)
      modifies commander`trace, commander`cwd, message
      ensures var p := CheckRepoStep(commander.world, settings, old(commander.cwd), old(message.value), repo, sha);
        commander.trace == old(commander.trace) + p.events && commander.cwd == p.cwd && message.value == p.message && r == p.out
    {
      ghost var before := commander.trace;
      var upToDate :- SubmoduleUpToDate(repo.submoduleDir, sha);
      if upToDate {
        return Ok(false);
      }
      ghost var checked := commander.trace;
      r := UpdateSubmodule(repo, message);
      TraceGrows(before, checked[|before|..], commander.trace[|checked|..]);
    }

    /** The body of the loop over the requested repositories. */
    method ProcessRepo(repo: Repo, sha: string, message: MutableString) returns (r: Outcome<bool>)
      modifies commander`trace, commander`cwd, message
      ensures var p := RepoStep(commander.world, settings, old(commander.cwd), old(message.value), repo, sha);
        commander.trace == old(commander.trace) + p.events && commander.cwd == p.cwd && message.value == p.message && r == p.out
    {
      ghost var before := commander.trace;
      var _ :- CloneAndCheckout(repo.name, repo.branch);
      ghost var entered := commander.trace;
      r := CheckRepo(repo, sha, message);
      TraceGrows(before, entered[|before|..], commander.trace[|entered|..]);
    }
  
    /** The loop of `process_repos` over the requested repositories. */
    method UpdateRequestedRepos(sha: string, message: MutableString) returns (r: Outcome<()>)
      modifies this`reposToPush, commander`trace, commander`cwd, message
      ensures var p := ReposStep(commander.world, settings, old(commander.cwd), old(message.value), sha, requestedRepos);
        commander.trace == old(commander.trace) + p.events && commander.cwd == p.cwd && message.value == p.message
        && r == (if p.out.Ok? then Ok(()) else p.out.PropagateFailure())
        && (p.out.Ok? ==> reposToPush == old(reposToPush) + p.out.value)
    {
      ghost var w, trace0, queued0 := commander.world, commander.trace, reposToPush;
      ghost var done: Progress<seq<Repo>> := Progress([], commander.cwd, message.value, Ok([]));
      ghost var goal := ReposFrom(w, settings, sha, done, requestedRepos);
      var i := 0;
      while i < |requestedRepos|
        invariant 0 <= i <= |requestedRepos|
        invariant done.out.Ok? && ReposFrom(w, settings, sha, done, requestedRepos[i..]) == goal
        invariant commander.trace == trace0 + done.events && commander.cwd == done.cwd
        invariant message.value == done.message && reposToPush == queued0 + done.out.value
      {
        var repo := requestedRepos[i];
        assert requestedRepos[i..][1..] == requestedRepos[i + 1..];
        var updated := ProcessRepo(repo, sha, message);
        ghost var one := RepoStep(w, settings, done.cwd, done.message, repo, sha);
        TraceGrows(trace0, done.events, one.events);
        done := Queue(done, repo, one);
        if updated.Exit? {
          return updated.PropagateFailure();
        }
        if updated.value {
          reposToPush := reposToPush + [repo];
        }
        i := i + 1;
      }
      r := Ok(());
    }

    /** The end of `process_repos`: ask, and announce each push on a yes. */
    method PushQueued(answer: Option<string>) returns (r: Outcome<()>)
      modifies commander`trace, commander`cwd
      ensures var m := PushAllStep(commander.world, settings, old(commander.cwd), reposToPush, answer);
        commander.trace == old(commander.trace) + m.events && commander.cwd == m.cwd && r == m.out
    {
      if |reposToPush| > 0 {
        if answer.None? {
          return Exit(1, NilChomp);
        }
        var userInput := Upcase(RubyStrip(Chomp(answer.value)));
        if userInput == "Y" {
          r := PushEach();
          return;
        }
      }
      r := Ok(());
    }

    method PushEach() returns (r: Outcome<()>)
      modifies commander`trace, commander`cwd
      ensures var m := PushEachStep(commander.world, settings, old(commander.cwd), reposToPush);
        commander.trace == old(commander.trace) + m.events && commander.cwd == m.cwd && r == m.out
    {
      ghost var w, trace0 := commander.world, commander.trace;
      ghost var done: Moved<()> := Moved([], commander.cwd, Ok(()));
      ghost var goal := PushFrom(w, settings, done, reposToPush);
      var repos := reposToPush;
      var i := 0;
      while i < |repos|
        invariant 0 <= i <= |repos|
        invariant done.out == Ok(()) && PushFrom(w, settings, done, repos[i..]) == goal
        invariant commander.trace == trace0 + done.events && commander.cwd == done.cwd
      {
        var repo := repos[i];
        assert repos[i..][1..] == repos[i + 1..];
        var pushed := PushToOrigin(repo.name, repo.branch);
        ghost var one := PushOneStep(w, settings, done.cwd, repo.name, repo.branch);
        TraceGrows(trace0, done.events, one.events);
        done := Moved(done.events + one.events, one.cwd, one.out);
        if pushed.Exit? {
          assert PushFrom(w, settings, done, repos[i + 1..]) == done;
          return pushed;
        }
        i := i + 1;
      }
      assert PushFrom(w, settings, done, repos[i..]) == done;
      r := Ok(());
    }

    /** `process_repos`, given the lines `gets` returns for the commit
        message and for the push question. */
    method ProcessRepos(commitLine: Option<string>, answer: Option<string>) returns (r: Outcome<()>)
      modifies this`reposToPush, commander`trace, commander`cwd
      ensures var p := ProcessSpec(commander.world, settings, old(commander.cwd), requestedRepos, old(reposToPush), commitLine, answer);
        commander.trace == old(commander.trace) + p.events && commander.cwd == p.cwd
        && r == (if p.out.Ok? then Ok(()) else p.out.PropagateFailure())
        && (p.out.Ok? ==> reposToPush == p.out.value)
    {
      if commitLine.None? {
        return Exit(1, NilChomp);
      }
      var commitMessage := new MutableString(Chomp(commitLine.value));
      ghost var t0 := commander.trace;
      PrepBuild();
      ghost var t1 := commander.trace;
      r := UpdateFromTarget(commitMessage, answer);
      TraceGrows(t0, t1[|t0|..], commander.trace[|t1|..]);
    }

    method UpdateFromTarget(message: MutableString, answer: Option<string>) returns (r: Outcome<()>)
      modifies this`reposToPush, commander`trace, commander`cwd, message
      ensures var p := TargetThenRepos(commander.world, settings, old(commander.cwd), requestedRepos, old(reposToPush), old(message.value), answer);
        commander.trace == old(commander.trace) + p.events && commander.cwd == p.cwd
        && r == (if p.out.Ok? then Ok(()) else p.out.PropagateFailure())
        && (p.out.Ok? ==> reposToPush == p.out.value)
    {
      ghost var t0 := commander.trace;
      var submoduleHeadSha :- CloneAndCheckout(settings.targetSubmoduleName, settings.targetSubmoduleTargetBranch);
      ghost var t1 := commander.trace;
      r := UpdateThenPush(submoduleHeadSha, message, answer);
      TraceGrows(t0, t1[|t0|..], commander.trace[|t1|..]);
    }

    method UpdateThenPush(sha: string, message: MutableString, answer: Option<string>) returns (r: Outcome<()>)
      modifies this`reposToPush, commander`trace, commander`cwd, message
      ensures var p := ReposThenPush(commander.world, settings, old(commander.cwd), requestedRepos, old(reposToPush), old(message.value), sha, answer);
        commander.trace == old(commander.trace) + p.events && commander.cwd == p.cwd
        && r == (if p.out.Ok? then Ok(()) else p.out.PropagateFailure())
        && (p.out.Ok? ==> reposToPush == p.out.value)
    {
      ghost var t0 := commander.trace;
      var _ :- UpdateRequestedRepos(sha, message);
      ghost var t1 := commander.trace;
      r := PushQueued(answer);
      TraceGrows(t0, t1[|t0|..], commander.trace[|t1|..]);
      if r.Ok? {
        OkIsUnit(r);
      }
    }
  }

  // ---------------------------------------------------------------------------
  // What the selection and `process_repos` promise

  /** Indices that are neither ALL nor a known repository change nothing;
      the requested list then stays as empty as it was. */
  lemma {:induction false} UnknownIndicesSelectNothing(sel: Selection, highest: int, inputs: seq<int>)
    requires Coherent(sel) && -1 <= highest < |sel.known|
    requires forall i :: 0 <= i < |inputs| ==> inputs[i] < -1 || highest < inputs[i]
    ensures Select(sel, highest, inputs) == sel
    decreases |inputs|
  {
    if inputs != [] {
      assert inputs[0] < -1 || highest < inputs[0];
      UnknownIndicesSelectNothing(sel, highest, inputs[1..]);
    }
  }

  /** The requested repositories that are reported behind the target SHA,
      in request order. */
  function StaleOnes(w: World, s: Settings, sha: string, repos: seq<Repo>): (r: seq<Repo>)
    ensures |r| <= |repos| && forall x :: x in r ==> x in repos && Stale(w, s, x, sha)
  {
    if repos == [] then []
    else (if Stale(w, s, repos[0], sha) then [repos[0]] else []) + StaleOnes(w, s, sha, repos[1..])
  }

  /** A repository handled without error is queued exactly when it is behind. */
  lemma RepoQueuedIffStale(w: World, s: Settings, cwd: string, message: string, repo: Repo, sha: string)
    ensures var one := RepoStep(w, s, cwd, message, repo, sha);
      one.out.Ok? ==> (one.out.value <==> Stale(w, s, repo, sha))
  {
  }

  /** A repository already at the target SHA gets no init, pull or commit:
      after its clone and checkout only the status query runs, and the
      commit message is untouched. */
  lemma UpToDateRepoIsLeftAlone(w: World, s: Settings, cwd: string, message: string, repo: Repo, sha: string)
    requires CloneCheckoutStep(w, s, cwd, repo.name, repo.branch).out.Ok?
    requires UpToDateStep(w, RepoPath(s, repo.name), repo.submoduleDir, sha).out == Ok(true)
    ensures var one := RepoStep(w, s, cwd, message, repo, sha);
      one.out == Ok(false) && one.message == message && one.cwd == RepoPath(s, repo.name)
      && one.events == CloneCheckoutStep(w, s, cwd, repo.name, repo.branch).events
                       + [Ran(RepoPath(s, repo.name), StatusCommand(repo.submoduleDir))]
  {
  }

  /** Each repository takes at most the first quote out of the shared
      commit message, and one left alone takes none. */
  lemma RepoUsesMessageOnce(w: World, s: Settings, cwd: string, message: string, repo: Repo, sha: string)
    ensures var one := RepoStep(w, s, cwd, message, repo, sha);
      (one.message == message || one.message == RemoveFirst(message, '\''))
      && (one.out == Ok(false) ==> one.message == message)
  {
    var enter := CloneCheckoutStep(w, s, cwd, repo.name, repo.branch);
    if enter.out.Ok? {
      CheckRepoUsesMessageOnce(w, s, enter.cwd, message, repo, sha);
    }
  }

  lemma CheckRepoUsesMessageOnce(w: World, s: Settings, cwd: string, message: string, repo: Repo, sha: string)
    ensures var one := CheckRepoStep(w, s, cwd, message, repo, sha);
      (one.message == message || one.message == RemoveFirst(message, '\''))
      && (one.out == Ok(false) ==> one.message == message)
  {
    UpdateSubmoduleUsesMessageOnce(w, s, cwd, message, repo);
  }

  lemma UpdateSubmoduleUsesMessageOnce(w: World, s: Settings, cwd: string, message: string, repo: Repo)
    ensures var one := UpdateSubmoduleStep(w, s, cwd, message, repo);
      (one.message == message || one.message == RemoveFirst(message, '\''))
      && (one.out.Ok? ==> one.out.value)
  {
  }

  /** The loop queues, after what `done` holds, exactly the stale repositories. */
  lemma {:induction false} ReposQueueStale(w: World, s: Settings, sha: string, done: Progress<seq<Repo>>, repos: seq<Repo>)
    requires done.out.Ok?
    ensures var r := ReposFrom(w, s, sha, done, repos);
      r.out.Ok? ==> r.out.value == done.out.value + StaleOnes(w, s, sha, repos)
    decreases |repos|
  {
    if repos != [] {
      var one := RepoStep(w, s, done.cwd, done.message, repos[0], sha);
      var next := Queue(done, repos[0], one);
      if one.out.Ok? {
        RepoQueuedIffStale(w, s, done.cwd, done.message, repos[0], sha);
        ReposQueueStale(w, s, sha, next, repos[1..]);
      }
    }
  }

  /** A `git commit` run in `dir`, whatever its message. */
  predicate IsCommit(e: Event, dir: string) {
    e.Ran? && e.cwd == dir && |e.command| >= |CommitPrefix| && e.command[..|CommitPrefix|] == CommitPrefix
  }

  const CommitPrefix := "git commit -m'"

  /** Somewhere in `events` the repository's submodule is added inside the
      repository, and the very next command commits there. */
  ghost predicate AddedThenCommitted(events: seq<Event>, s: Settings, repo: Repo) {
    exists i :: 0 <= i < |events| - 1 && events[i] == Ran(RepoPath(s, repo.name), AddCommand(SubmoduleRef(s, repo)))
      && IsCommit(events[i + 1], RepoPath(s, repo.name))
  }

  /** The last two commands of `events` add the repository's submodule and
      commit it with `message` less its first quote. */
  predicate EndsWithCommit(events: seq<Event>, s: Settings, repo: Repo, message: string) {
    |events| >= 2
    && events[|events| - 2] == Ran(RepoPath(s, repo.name), AddCommand(SubmoduleRef(s, repo)))
    && events[|events| - 1] == Ran(RepoPath(s, repo.name), CommitCommand(RemoveFirst(message, '\'')))
  }

  lemma EndsWithCommitAfter(first: seq<Event>, events: seq<Event>, s: Settings, repo: Repo, message: string)
    requires EndsWithCommit(events, s, repo, message)
    ensures EndsWithCommit(first + events, s, repo, message)
  {
    var all := first + events;
    assert all[|all| - 2] == events[|events| - 2] && all[|all| - 1] == events[|events| - 1];
  }

  lemma CommitRepoEndsWithCommit(w: World, s: Settings, cwd: string, message: string, repo: Repo)
    ensures var one := CommitRepoStep(w, s, cwd, message, repo);
      one.out == Ok(true) ==> EndsWithCommit(one.events, s, repo, message)
  {
    var here := RepoPath(s, repo.name);
    var paths := [SubmoduleRef(s, repo)];
    assert paths[..|paths| - 1] == [];
    assert AddsStep(w, here, []) == Step([], Ok(()));
    var adds := AddsStep(w, here, paths);
    assert adds.events == [Ran(here, AddCommand(SubmoduleRef(s, repo)))];
  }

  lemma UpdateSubmoduleEndsWithCommit(w: World, s: Settings, cwd: string, message: string, repo: Repo)
    ensures var one := UpdateSubmoduleStep(w, s, cwd, message, repo);
      one.out == Ok(true) ==> EndsWithCommit(one.events, s, repo, message)
  {
    var init := InitStep(w, cwd, repo.submoduleDir);
    var path := SubmodulePath(s, repo, s.targetSubmoduleName);
    var enter := ChdirStep(w, cwd, path);
    var pull := PullStep(w, path, s.targetSubmoduleTargetBranch);
    if init.out.Ok? && enter.out.Ok? && pull.out.Ok? {
      var commit := CommitRepoStep(w, s, path, message, repo);
      CommitRepoEndsWithCommit(w, s, path, message, repo);
      if commit.out == Ok(true) {
        EndsWithCommitAfter(init.events + enter.events + pull.events, commit.events, s, repo, message);
      }
    }
  }

  lemma CheckRepoEndsWithCommit(w: World, s: Settings, cwd: string, message: string, repo: Repo, sha: string)
    ensures var one := CheckRepoStep(w, s, cwd, message, repo, sha);
      one.out == Ok(true) ==> EndsWithCommit(one.events, s, repo, message)
  {
    var status := UpToDateStep(w, cwd, repo.submoduleDir, sha);
    if status.out.Ok? && !status.out.value {
      var update := UpdateSubmoduleStep(w, s, cwd, message, repo);
      UpdateSubmoduleEndsWithCommit(w, s, cwd, message, repo);
      if update.out == Ok(true) {
        EndsWithCommitAfter(status.events, update.events, s, repo, message);
      }
    }
  }

  /** A repository is queued for a push only once its submodule was added
      and committed inside it: those are the last two commands it ran, and
      the commit carries the message less its first quote. */
  lemma RepoCommitsBeforeQueued(w: World, s: Settings, cwd: string, message: string, repo: Repo, sha: string)
    ensures var one := RepoStep(w, s, cwd, message, repo, sha);
      one.out == Ok(true) ==> EndsWithCommit(one.events, s, repo, message)
  {
    var enter := CloneCheckoutStep(w, s, cwd, repo.name, repo.branch);
    if enter.out.Ok? {
      var check := CheckRepoStep(w, s, enter.cwd, message, repo, sha);
      CheckRepoEndsWithCommit(w, s, enter.cwd, message, repo, sha);
      if check.out == Ok(true) {
        EndsWithCommitAfter(enter.events, check.events, s, repo, message);
      }
    }
  }

  lemma EndsWithCommitAdded(events: seq<Event>, s: Settings, repo: Repo, message: string)
    requires EndsWithCommit(events, s, repo, message)
    ensures AddedThenCommitted(events, s, repo)
  {
    var c := CommitCommand(RemoveFirst(message, '\''));
    assert c[..|CommitPrefix|] == CommitPrefix;
    assert IsCommit(events[|events| - 1], RepoPath(s, repo.name));
  }

  lemma AddedThenCommittedWithin(first: seq<Event>, events: seq<Event>, last: seq<Event>, s: Settings, repo: Repo)
    requires AddedThenCommitted(events, s, repo)
    ensures AddedThenCommitted(first + events + last, s, repo)
  {
    var i :| 0 <= i < |events| - 1 && events[i] == Ran(RepoPath(s, repo.name), AddCommand(SubmoduleRef(s, repo)))
      && IsCommit(events[i + 1], RepoPath(s, repo.name));
    var all := first + events + last;
    assert all[|first| + i] == events[i] && all[|first| + i + 1] == events[i + 1];
  }

  lemma AddedThenCommittedPrefix(events: seq<Event>, longer: seq<Event>, s: Settings, repo: Repo)
    requires events <= longer && AddedThenCommitted(events, s, repo)
    ensures AddedThenCommitted(longer, s, repo)
  {
    AddedThenCommittedWithin([], events, longer[|events|..], s, repo);
    assert [] + events + longer[|events|..] == longer;
  }

  /** The loop only appends: to the events and to the push queue. */
  lemma {:induction false} ReposFromGrows(w: World, s: Settings, sha: string, done: Progress<seq<Repo>>, repos: seq<Repo>)
    requires done.out.Ok?
    ensures var r := ReposFrom(w, s, sha, done, repos);
      done.events <= r.events && (r.out.Ok? ==> done.out.value <= r.out.value)
    decreases |repos|
  {
    if repos != [] {
      var one := RepoStep(w, s, done.cwd, done.message, repos[0], sha);
      var next := Queue(done, repos[0], one);
      assert done.events <= next.events;
      if one.out.Ok? {
        assert done.out.value <= next.out.value;
        ReposFromGrows(w, s, sha, next, repos[1..]);
      }
    }
  }

  /** One repository queued after `done`: it was added and committed in the
      events that queued it. */
  lemma QueuedOneCommitted(done: Progress<seq<Repo>>, repo: Repo, one: Progress<bool>, s: Settings, message: string)
    requires done.out.Ok? && one.out == Ok(true) && EndsWithCommit(one.events, s, repo, message)
    ensures var next := Queue(done, repo, one);
      next.out.Ok? && |next.out.value| == |done.out.value| + 1 && next.out.value[|done.out.value|] == repo
      && AddedThenCommitted(next.events, s, repo)
  {
    EndsWithCommitAdded(one.events, s, repo, message);
    AddedThenCommittedWithin(done.events, one.events, [], s, repo);
    assert done.events + one.events + [] == Queue(done, repo, one).events;
  }

  /** Every repository the loop queues was added and committed on the way. */
  lemma {:induction false} ReposCommitQueued(w: World, s: Settings, sha: string, done: Progress<seq<Repo>>, repos: seq<Repo>)
    requires done.out.Ok?
    ensures var r := ReposFrom(w, s, sha, done, repos);
      r.out.Ok? ==> (forall k :: |done.out.value| <= k < |r.out.value| ==> AddedThenCommitted(r.events, s, r.out.value[k]))
    decreases |repos|
  {
    if repos != [] {
      var one := RepoStep(w, s, done.cwd, done.message, repos[0], sha);
      var next := Queue(done, repos[0], one);
      var r := ReposFrom(w, s, sha, next, repos[1..]);
      if one.out.Ok? {
        ReposCommitQueued(w, s, sha, next, repos[1..]);
        if r.out.Ok? && one.out.value {
          ReposFromGrows(w, s, sha, next, repos[1..]);
          RepoCommitsBeforeQueued(w, s, done.cwd, done.message, repos[0], sha);
          QueuedOneCommitted(done, repos[0], one, s, done.message);
          AddedThenCommittedPrefix(next.events, r.events, s, repos[0]);
          assert r.out.value[|done.out.value|] == repos[0];
        }
      }
    }
  }

  /** Facts about queue entries carry over to a longer list of events. */
  lemma CommittedPrefix(queue: seq<Repo>, events: seq<Event>, longer: seq<Event>, s: Settings)
    requires events <= longer
    requires forall k :: 0 <= k < |queue| ==> AddedThenCommitted(events, s, queue[k])
    ensures forall k :: 0 <= k < |queue| ==> AddedThenCommitted(longer, s, queue[k])
  {
    forall k | 0 <= k < |queue|
      ensures AddedThenCommitted(longer, s, queue[k])
    {
      AddedThenCommittedPrefix(events, longer, s, queue[k]);
    }
  }

  /** ... and to the same entries behind an older queue. */
  lemma CommittedBehind(queued: seq<Repo>, added: seq<Repo>, events: seq<Event>, s: Settings)
    requires forall k :: 0 <= k < |added| ==> AddedThenCommitted(events, s, added[k])
    ensures forall k :: |queued| <= k < |queued + added| ==> AddedThenCommitted(events, s, (queued + added)[k])
  {
    forall k | |queued| <= k < |queued + added|
      ensures AddedThenCommitted(events, s, (queued + added)[k])
    {
      assert (queued + added)[k] == added[k - |queued|];
    }
  }

  /** A run of the loop and the pushes that ends well: the pushes only add
      events after the loop's, and the queue is the old one and the loop's. */
  lemma ReposThenPushShape(w: World, s: Settings, cwd: string, requested: seq<Repo>, queued: seq<Repo>,
                           message: string, sha: string, answer: Option<string>)
    ensures var p := ReposThenPush(w, s, cwd, requested, queued, message, sha, answer);
      var repos := ReposStep(w, s, cwd, message, sha, requested);
      p.out.Ok? ==> (repos.out.Ok? && p.out.value == queued + repos.out.value && repos.events <= p.events)
  {
    var repos := ReposStep(w, s, cwd, message, sha, requested);
    if repos.out.Ok? {
      var push := PushAllStep(w, s, repos.cwd, queued + repos.out.value, answer);
      assert ReposThenPush(w, s, cwd, requested, queued, message, sha, answer).events == repos.events + push.events;
    }
  }

  lemma ReposThenPushCommits(w: World, s: Settings, cwd: string, requested: seq<Repo>, queued: seq<Repo>,
                             message: string, sha: string, answer: Option<string>)
    ensures var p := ReposThenPush(w, s, cwd, requested, queued, message, sha, answer);
      p.out.Ok? ==> (|queued| <= |p.out.value|
        && forall k :: |queued| <= k < |p.out.value| ==> AddedThenCommitted(p.events, s, p.out.value[k]))
  {
    var repos := ReposStep(w, s, cwd, message, sha, requested);
    var p := ReposThenPush(w, s, cwd, requested, queued, message, sha, answer);
    ReposThenPushShape(w, s, cwd, requested, queued, message, sha, answer);
    if p.out.Ok? {
      ReposCommitQueued(w, s, sha, Progress([], cwd, message, Ok([])), requested);
      CommittedPrefix(repos.out.value, repos.events, p.events, s);
      CommittedBehind(queued, repos.out.value, p.events, s);
    }
  }

  lemma TargetThenReposCommits(w: World, s: Settings, cwd: string, requested: seq<Repo>, queued: seq<Repo>,
                               message: string, answer: Option<string>)
    ensures var p := TargetThenRepos(w, s, cwd, requested, queued, message, answer);
      p.out.Ok? ==> (|queued| <= |p.out.value|
        && forall k :: |queued| <= k < |p.out.value| ==> AddedThenCommitted(p.events, s, p.out.value[k]))
  {
    var target := CloneCheckoutStep(w, s, cwd, s.targetSubmoduleName, s.targetSubmoduleTargetBranch);
    if target.out.Ok? {
      var rest := ReposThenPush(w, s, target.cwd, requested, queued, message, target.out.value, answer);
      ReposThenPushCommits(w, s, target.cwd, requested, queued, message, target.out.value, answer);
      if rest.out.Ok? {
        forall k | |queued| <= k < |rest.out.value|
          ensures AddedThenCommitted(target.events + rest.events, s, rest.out.value[k])
        {
          AddedThenCommittedWithin(target.events, rest.events, [], s, rest.out.value[k]);
          assert target.events + rest.events + [] == target.events + rest.events;
        }
      }
    }
  }

  /** After a run without error, every repository newly queued for a push
      had its submodule added and committed inside it, the commit right
      after the add. */
  lemma ProcessCommitsEveryQueued(w: World, s: Settings, cwd: string, requested: seq<Repo>, queued: seq<Repo>,
                                  commitLine: Option<string>, answer: Option<string>)
    ensures var p := ProcessSpec(w, s, cwd, requested, queued, commitLine, answer);
      p.out.Ok? ==> (|queued| <= |p.out.value|
        && forall k :: |queued| <= k < |p.out.value| ==> AddedThenCommitted(p.events, s, p.out.value[k]))
  {
    if commitLine.Some? {
      var rest := TargetThenRepos(w, s, cwd, requested, queued, Chomp(commitLine.value), answer);
      TargetThenReposCommits(w, s, cwd, requested, queued, Chomp(commitLine.value), answer);
      if rest.out.Ok? {
        forall k | |queued| <= k < |rest.out.value|
          ensures AddedThenCommitted([ResetBuildDir(s.buildDir)] + rest.events, s, rest.out.value[k])
        {
          AddedThenCommittedWithin([ResetBuildDir(s.buildDir)], rest.events, [], s, rest.out.value[k]);
          assert [ResetBuildDir(s.buildDir)] + rest.events + [] == [ResetBuildDir(s.buildDir)] + rest.events;
        }
      }
    }
  }

  /** The SHA at the head of the target submodule's branch, found once. */
  function TargetSha(w: World, s: Settings, cwd: string): Outcome<string> {
    CloneCheckoutStep(w, s, cwd, s.targetSubmoduleName, s.targetSubmoduleTargetBranch).out
  }

  /** After a run without error the push queue is what it held before,
      followed by exactly the requested repositories that were behind the
      target SHA, in request order. */
  lemma ProcessQueuesStaleRepos(w: World, s: Settings, cwd: string, requested: seq<Repo>, queued: seq<Repo>,
                                commitLine: Option<string>, answer: Option<string>)
    ensures var p := ProcessSpec(w, s, cwd, requested, queued, commitLine, answer);
      p.out.Ok? ==> (commitLine.Some? && TargetSha(w, s, cwd).Ok?
        && p.out.value == queued + StaleOnes(w, s, TargetSha(w, s, cwd).value, requested))
  {
    if commitLine.Some? {
      TargetThenReposQueues(w, s, cwd, requested, queued, Chomp(commitLine.value), answer);
    }
  }

  lemma TargetThenReposQueues(w: World, s: Settings, cwd: string, requested: seq<Repo>, queued: seq<Repo>,
                              message: string, answer: Option<string>)
    ensures var p := TargetThenRepos(w, s, cwd, requested, queued, message, answer);
      p.out.Ok? ==> (TargetSha(w, s, cwd).Ok?
        && p.out.value == queued + StaleOnes(w, s, TargetSha(w, s, cwd).value, requested))
  {
    var target := CloneCheckoutStep(w, s, cwd, s.targetSubmoduleName, s.targetSubmoduleTargetBranch);
    if target.out.Ok? {
      ReposThenPushQueues(w, s, target.cwd, requested, queued, message, target.out.value, answer);
    }
  }

  lemma ReposThenPushQueues(w: World, s: Settings, cwd: string, requested: seq<Repo>, queued: seq<Repo>,
                            message: string, sha: string, answer: Option<string>)
    ensures var p := ReposThenPush(w, s, cwd, requested, queued, message, sha, answer);
      p.out.Ok? ==> p.out.value == queued + StaleOnes(w, s, sha, requested)
  {
    var repos := ReposStep(w, s, cwd, message, sha, requested);
    ReposQueueStale(w, s, sha, Progress([], cwd, message, Ok([])), requested);
    if repos.out.Ok? {
      assert repos.out.value == [] + StaleOnes(w, s, sha, requested);
      assert repos.out.value == StaleOnes(w, s, sha, requested);
    }
  }

  /** The build directory is reset first, and the target SHA is looked up
      next, before any requested repository is touched. */
  lemma ProcessStartsWithTarget(w: World, s: Settings, cwd: string, requested: seq<Repo>, queued: seq<Repo>,
                                commitLine: Option<string>, answer: Option<string>)
    requires commitLine.Some?
    ensures var p := ProcessSpec(w, s, cwd, requested, queued, commitLine, answer);
      var target := CloneCheckoutStep(w, s, cwd, s.targetSubmoduleName, s.targetSubmoduleTargetBranch);
      p.events[..1] == [ResetBuildDir(s.buildDir)] && target.events <= p.events[1..]
  {
  }

  // ---------------------------------------------------------------------------
  // What the pushes promise

  /** The commands announced, in order, in a stretch of events. */
  function Announced(events: seq<Event>): (r: seq<string>)
    ensures |r| <= |events|
  {
    if events == [] then []
    else Announced(events[..|events| - 1]) + (if events[|events| - 1].WouldRun? then [events[|events| - 1].command] else [])
  }

  lemma {:induction false} AnnouncedConcat(a: seq<Event>, b: seq<Event>)
    ensures Announced(a + b) == Announced(a) + Announced(b)
    decreases |b|
  {
    if b != [] {
      assert (a + b)[..|a + b| - 1] == a + b[..|b| - 1];
      assert (a + b)[|a + b| - 1] == b[|b| - 1];
      AnnouncedConcat(a, b[..|b| - 1]);
    } else {
      assert a + b == a;
    }
  }

  /** `git push origin <branch>` for each repository, in order. */
  function PushCommands(repos: seq<Repo>): (r: seq<string>)
    ensures |r| == |repos| && forall i :: 0 <= i < |repos| ==> r[i] == PushCommand(repos[i].branch)
  {
    if repos == [] then [] else [PushCommand(repos[0].branch)] + PushCommands(repos[1..])
  }

  /** One repository announces its push, and only when every check passed. */
  lemma PushOneAnnounces(w: World, s: Settings, cwd: string, name: string, branch: string)
    ensures var m := PushOneStep(w, s, cwd, name, branch);
      Announced(m.events) == if m.out.Ok? then [PushCommand(branch)] else []
  {
    var path := RepoPath(s, name);
    var enter := ChdirStep(w, cwd, path);
    var known := AssertKnownBranchStep(w, path, branch);
    AnnouncedConcat(enter.events, known.events);
    AnnouncedConcat(enter.events + known.events, [WouldRun(path, PushCommand(branch))]);
  }

  /** After `done`, the pushes are announced in queue order. */
  lemma {:induction false} PushFromAnnounces(w: World, s: Settings, done: Moved<()>, repos: seq<Repo>)
    requires done.out.Ok?
    ensures var m := PushFrom(w, s, done, repos);
      m.out.Ok? ==> Announced(m.events) == Announced(done.events) + PushCommands(repos)
    decreases |repos|
  {
    if repos != [] {
      var one := PushOneStep(w, s, done.cwd, repos[0].name, repos[0].branch);
      var next := Moved(done.events + one.events, one.cwd, one.out);
      if one.out.Ok? {
        PushFromAnnounces(w, s, next, repos[1..]);
        calc {
          Announced(next.events) + PushCommands(repos[1..]);
          { AnnouncedConcat(done.events, one.events);
            PushOneAnnounces(w, s, done.cwd, repos[0].name, repos[0].branch); }
          Announced(done.events) + [PushCommand(repos[0].branch)] + PushCommands(repos[1..]);
          Announced(done.events) + PushCommands(repos);
        }
      }
    }
  }

  /** The pushes are announced in queue order, each once. */
  lemma PushEachAnnouncesInOrder(w: World, s: Settings, cwd: string, repos: seq<Repo>)
    ensures var m := PushEachStep(w, s, cwd, repos);
      m.out.Ok? ==> Announced(m.events) == PushCommands(repos)
  {
    PushFromAnnounces(w, s, Moved([], cwd, Ok(())), repos);
  }

  /** Nothing is pushed unless something was queued and the one answer
      reads `Y`; on that answer every queued repository is pushed in order. */
  lemma PushOnlyOnYes(w: World, s: Settings, cwd: string, toPush: seq<Repo>, answer: Option<string>)
    ensures var m := PushAllStep(w, s, cwd, toPush, answer);
      (Announced(m.events) != [] ==> toPush != [] && answer.Some? && Confirms(answer.value))
      && (m.out.Ok? && answer.Some? && Confirms(answer.value) ==> Announced(m.events) == PushCommands(toPush))
  {
    PushEachAnnouncesInOrder(w, s, cwd, toPush);
  }
}
