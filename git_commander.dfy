/** src/git_commander.rb: the git verbs gathered in one object, with the
    log format and length read from the settings. Most verbs are the ones
    of src/updater.rb word for word (module GitVerbs); the object differs in
    the log command, in how it reads the submodule SHA, in initialising a
    submodule without checking its path, and in really running the push. */
module GitCommander {
  import opened Wrappers
  import opened Text
  import opened Config
  import opened Command
  import opened GitVerbs

  const DefaultLogFormat := "--pretty=format:\"%h%x09%an%x09%ad%x09%s\" --graph"
  const DefaultLogLines := 5

  /** `settings[key] || default`: the default stands in for a missing key. */
  function OrDefault<T>(setting: Option<T>, default: T): (v: T)
    ensures setting.Some? ==> v == setting.value
    ensures setting.None? ==> v == default
  {
    if setting.Some? then setting.value else default
  }

  // ---------------------------------------------------------------------------
  // `show_git_log`

  /** `-<n>`, or nothing when no count is given. */
  function NumLinesArg(numberOfLines: Option<int>): string {
    if numberOfLines.None? then "" else "-" + IntToString(numberOfLines.value)
  }

  function LogCommand(format: string, numberOfLines: Option<int>, logEndpoints: Option<string>): (cmd: string)
    ensures |cmd| == 10 + |format| + |NumLinesArg(numberOfLines)| + |OrDefault(logEndpoints, "")|
    ensures cmd[..8 + |format|] == "git log " + format
  {
    "git log " + format + " " + NumLinesArg(numberOfLines) + " " + OrDefault(logEndpoints, "")
  }

  /** The count argument is there exactly when a count is given, and a
      count that is not negative is read back from it. */
  lemma LogCountArgument(numberOfLines: Option<int>)
    ensures NumLinesArg(numberOfLines) == "" <==> numberOfLines.None?
    ensures numberOfLines.Some? && numberOfLines.value >= 0 ==>
      var arg := NumLinesArg(numberOfLines);
      arg[0] == '-' && AllDigits(arg[1..]) && DigitsValue(arg[1..]) == numberOfLines.value
  {
    if numberOfLines.Some? && numberOfLines.value >= 0 {
      var arg := NumLinesArg(numberOfLines);
      assert arg[1..] == NatToString(numberOfLines.value);
      NatToStringRoundTrip(numberOfLines.value);
    }
  }

  /** With the settings' defaults and no endpoints, the log command shows
      the last five commits, one line each, as a graph. */
  lemma DefaultLogCommand()
    ensures LogCommand(DefaultLogFormat, Some(DefaultLogLines), None) == "git log " + DefaultLogFormat + " -5 "
  {
    assert DigitChar(5) == '5';
    var arg := NumLinesArg(Some(DefaultLogLines));
    assert arg == "-5";
    assert " " + arg + " " + OrDefault<string>(None, "") == " -5 ";
  }

  // ---------------------------------------------------------------------------
  // `clone_repo_to`, `submodule_up_to_date`, `init_submodule`, `push_to_origin`

  /** The clone lands in a directory named after the repository: when no
      path holds a space, the shell sees four words, and the last, the
      destination, is `<target_dir>/<repo>`, whose basename is the repository. */
  lemma CloneTargetIsRepoName(basePath: string, repoName: string, targetDir: string)
    requires repoName != [] && '/' !in repoName
    requires ' ' !in basePath && ' ' !in repoName && ' ' !in targetDir
    ensures var words := SplitOn(CloneCommand(basePath, repoName, targetDir), ' ');
      |words| == 4 && words[..2] == ["git", "clone"]
      && words[3] == targetDir + "/" + repoName && Basename(words[3]) == repoName
  {
    var parts := ["git", "clone", basePath + "/" + repoName + ".git", targetDir + "/" + repoName];
    assert Join(parts[3..], ' ') == parts[3];
    assert Join(parts[2..], ' ') == parts[2] + " " + parts[3];
    assert Join(parts, ' ') == CloneCommand(basePath, repoName, targetDir);
    JoinSplitRoundTrip(parts, ' ');
    BasenameOfJoin(targetDir, repoName);
  }

  /** The status command names the submodule path twice. */
  function StatusTwiceCommand(path: string): string {
    "git submodule status " + path + " " + path
  }

  /** `submodule_up_to_date`: the first 40-digit hex word of the status
      output must equal the target; no such word is never equal. */
  function TokenUpToDateStep(w: World, cwd: string, path: string, sha: string): Step<bool> {
    var run := RunStep(w, cwd, StatusTwiceCommand(path));
    Step(run.events, if run.out.Exit? then run.out.PropagateFailure() else Ok(Hex40Token(run.out.value) == Some(sha)))
  }

  /** For a submodule that is initialised and in step (status line
      " <sha> <path>"), this object reads the recorded SHA where the check
      of src/updater.rb, which needs a dash, reads nothing. */
  lemma TokenSeesInitialisedSubmodule(sha: string, path: string)
    requires |sha| == 40 && AllHex(sha) && '-' !in path
    ensures Hex40Token(" " + sha + " " + path) == Some(sha)
    ensures DashSha(" " + sha + " " + path) == None
  {
    var line := " " + sha + " " + path;
    assert line == [' '] + sha + (" " + path);
    StatusLineToken(' ', sha, " " + path);
    assert '-' !in line by {
      forall k | 0 <= k < |line|
        ensures line[k] != '-'
      {
        if 1 <= k <= 40 {
          assert line[k] == sha[k - 1];
        }
      }
    }
    DashShaNeedsDash(line);
  }

  /** A verb whose result is whatever the logger returns: only whether it
      ended the program matters. */
  function Discard<T>(out: Outcome<T>): (r: Outcome<()>)
    ensures r.Ok? <==> out.Ok?
    ensures out.Exit? ==> r == out.PropagateFailure()
  {
    if out.Exit? then out.PropagateFailure() else Ok(())
  }

  // ---------------------------------------------------------------------------
  // The `GitCommander` object

  class GitCommander {
    const baseRepoPath: string
    const buildDir: string
    const gitLogFormat: string
    const gitLogNumLines: int
    const commander: Command

    constructor (settings: Settings, commander: Command)
      ensures baseRepoPath == settings.gitRepoBaseClonePath && buildDir == settings.buildDir
      ensures gitLogFormat == OrDefault(settings.gitLogFormat, DefaultLogFormat)
      ensures gitLogNumLines == OrDefault(settings.gitLogNumberOfLines, DefaultLogLines)
      ensures this.commander == commander
    {
      baseRepoPath := settings.gitRepoBaseClonePath;
      buildDir := settings.buildDir;
      gitLogFormat := if settings.gitLogFormat.Some? then settings.gitLogFormat.value else DefaultLogFormat;
      gitLogNumLines := if settings.gitLogNumberOfLines.Some? then settings.gitLogNumberOfLines.value else DefaultLogLines;
      this.commander := commander;
    }

    method ShowGitLog(numberOfLines: Option<int>, logEndpoints: Option<string>) returns (r: Outcome<string>)
      modifies commander`trace
      ensures var run := RunStep(commander.world, commander.cwd, LogCommand(gitLogFormat, numberOfLines, logEndpoints));
        commander.trace == old(commander.trace) + run.events && r == run.out
    {
      var numLinesArg := if numberOfLines.None? then "" else "-" + IntToString(numberOfLines.value);
      var endpoints := if logEndpoints.None? then "" else logEndpoints.value;
      r := commander.RunCommand("git log " + gitLogFormat + " " + numLinesArg + " " + endpoints, None);
    }

    method CloneRepoTo(repoName: string, targetDir: string) returns (r: Outcome<()>)
      modifies commander`trace
      ensures var run := RunStep(commander.world, commander.cwd, CloneCommand(baseRepoPath, repoName, targetDir));
        commander.trace == old(commander.trace) + run.events && r == Discard(run.out)
    {
      var output := commander.RunCommand(CloneCommand(baseRepoPath, repoName, targetDir), None);
      r := Discard(output);
    }

    method CheckoutBranch(branch: string) returns (r: Outcome<string>)
      modifies commander`trace
      ensures var s := CheckoutStep(commander.world, commander.cwd, branch);
        commander.trace == old(commander.trace) + s.events && r == s.out
    {
      r := GitVerbs.CheckoutBranch(commander, branch);
    }

    method AssertKnownBranch(branch: string) returns (r: Outcome<()>)
      modifies commander`trace
      ensures var s := AssertKnownBranchStep(commander.world, commander.cwd, branch);
        commander.trace == old(commander.trace) + s.events && r == s.out
    {
      r := GitVerbs.AssertKnownBranch(commander, branch);
    }

    method GetBranchList() returns (r: Outcome<seq<string>>)
      modifies commander`trace
      ensures var s := BranchListStep(commander.world, commander.cwd);
        commander.trace == old(commander.trace) + s.events && r == s.out
    {
      r := GitVerbs.GetBranchList(commander);
    }

    method GetCurrentBranchName() returns (r: Outcome<string>)
      modifies commander`trace
      ensures var s := CurrentBranchStep(commander.world, commander.cwd);
        commander.trace == old(commander.trace) + s.events && r == s.out
    {
      r := GitVerbs.GetCurrentBranchName(commander);
    }

    method SubmoduleUpToDate(path: string, sha: string) returns (r: Outcome<bool>)
      modifies commander`trace
      ensures var s := TokenUpToDateStep(commander.world, commander.cwd, path, sha);
        commander.trace == old(commander.trace) + s.events && r == s.out
    {
      var shaResponse :- commander.RunCommand(StatusTwiceCommand(path), None);
      r := Ok(Hex40Token(shaResponse) == Some(sha));
    }

    /** Unlike src/updater.rb, no check that the path exists. */
    method InitSubmodule(path: string) returns (r: Outcome<()>)
      modifies commander`trace
      ensures var run := RunStep(commander.world, commander.cwd, InitCommand(path));
        commander.trace == old(commander.trace) + run.events && r == Discard(run.out)
    {
      var output := commander.RunCommand(InitCommand(path), None);
      r := Discard(output);
    }

    method PullBranchOriginLatest(branch: string) returns (r: Outcome<()>)
      modifies commander`trace
      ensures var s := PullStep(commander.world, commander.cwd, branch);
        commander.trace == old(commander.trace) + s.events && r == Discard(s.out)
    {
      var output := GitVerbs.PullBranchOriginLatest(commander, branch);
      r := Discard(output);
    }

    method MakeGitCommit(message: MutableString, pathsToAdd: Paths) returns (r: Outcome<()>)
      modifies commander`trace, message
      ensures var s := CommitStep(commander.world, commander.cwd, old(message.value), PathsOf(pathsToAdd));
        commander.trace == old(commander.trace) + s.events && r == Discard(s.out)
      ensures message.value == if AddsStep(commander.world, commander.cwd, PathsOf(pathsToAdd)).out.Ok?
        then RemoveFirst(old(message.value), '\'') else old(message.value)
    {
      var output := GitVerbs.MakeGitCommit(commander, message, pathsToAdd);
      r := Discard(output);
    }

    /** The push is run, with no check of the branch and no question. */
    method PushToOrigin(repoName: string, branch: string) returns (r: Outcome<()>)
      modifies commander`trace
      ensures var run := RunStep(commander.world, commander.cwd, PushCommand(branch));
        commander.trace == old(commander.trace) + run.events && r == Discard(run.out)
    {
      var output := commander.RunCommand(PushCommand(branch), None);
      r := Discard(output);
    }
  }
}
