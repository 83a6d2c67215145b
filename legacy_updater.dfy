/** Updater.py: the earlier Python 2 updater. It does the same job as
    src/updater.rb with rules of its own: repeated menu numbers are kept,
    choosing ALL does not stop the reading, a branch is known when its
    name occurs inside a listed branch, the submodule SHA is read only
    after a dash (and its absence raises), every clone asks to continue,
    the checkout is always issued, and each updated repository is pushed
    to `development` at once. */
module LegacyUpdater {
  import opened Wrappers
  import opened Text
  import Traces = Command
  import GitVerbs
  import Ruby = Updater

  // ---------------------------------------------------------------------------
  // The outside world, the settings and the record of what was done

  /** What `subprocess.Popen(argv, stdout=PIPE).communicate()` gives in a
      directory: the standard output, or None when Popen raised. Standard
      error is not captured, so the `if error:` test never fires. The second
      field is `os.path.exists`, seen from a directory. */
  datatype PyWorld = PyWorld(run: (string, seq<string>) -> Option<string>, pathExists: (string, string) -> bool)

  datatype PyEvent =
    | Popen(cwd: string, argv: seq<string>)   // a command started
    | Chdir(path: string)                     // `os.chdir`
    | RemadeBuildDir(path: string)            // `shutil.rmtree` and `os.mkdir`

  /** The constants of the settings module the updater reads; the list of
      known repository names is kept apart because the updater can grow it. */
  datatype PySettings = PySettings(
    buildDir: string,
    gitRepoBaseClonePath: string,
    targetSubmoduleName: string,
    targetSubmoduleTargetBranch: string,
    targetSubmoduleRelativePath: string)

  /** `sys.exit()` ends the program with status 0. */
  const Exiting := "Exiting..."
  /** The uncaught exceptions, which end the program with status 1. */
  const EndOfInput := "EOFError: EOF when reading a line"
  const EmptyPop := "IndexError: pop from empty list"
  const NoColorizer := "AttributeError: Updater instance has no attribute 'colorizer'"

  const VerboseNote := "(note, this list built from settings.KNOWN_REPOS_GITHUB_NAMES)"
  const PushBranch := "development"

  function CloneArgv(s: PySettings, name: string): seq<string> {
    ["git", "clone", s.gitRepoBaseClonePath + "/" + name + ".git", s.buildDir + "/" + name]
  }
  const FetchArgv: seq<string> := ["git", "fetch"]
  const BranchArgv: seq<string> := ["git", "branch"]
  const HeadArgv: seq<string> := ["git", "rev-parse", "HEAD"]
  function CheckoutArgv(branch: string): seq<string> { ["git", "checkout", branch] }
  function StatusArgv(path: string): seq<string> { ["git", "submodule", "status", path] }
  function InitArgv(path: string): seq<string> { ["git", "submodule", "update", "--init", path] }
  function PullArgv(branch: string): seq<string> { ["git", "pull", "origin", branch] }
  function AddArgv(path: string): seq<string> { ["git", "add", path] }
  function CommitArgv(message: string): seq<string> { ["git", "commit", "-m", message] }
  function PushArgv(branch: string): seq<string> { ["git", "push", "origin", branch] }

  function RepoPath(s: PySettings, name: string): string {
    s.buildDir + "/" + name
  }

  function SubmodulePath(s: PySettings, name: string): string {
    s.buildDir + "/" + name + "/" + s.targetSubmoduleRelativePath
  }

  // ---------------------------------------------------------------------------
  // The menu

  /** `get_menu`: the ALL line, one numbered line per name, and a note when
      verbose. */
  function Menu(names: seq<string>, verbose: bool): string {
    Ruby.AllEntry + Ruby.MenuLines(names) + (if verbose then VerboseNote else "")
  }

  lemma SubstringInside(sub: string, a: string, b: string, c: string)
    requires IsSubstring(sub, b)
    ensures IsSubstring(sub, a + b + c)
  {
    var k := SubstringWitness(sub, b);
    assert (a + b + c)[|a| + k..|a| + k + |sub|] == b[k..k + |sub|];
    SubstringAt(sub, a + b + c, |a| + k);
  }

  /** Every known name is on the menu under the number that selects it,
      verbose or not. */
  lemma MenuShowsEveryRepo(names: seq<string>, verbose: bool, i: nat)
    requires i < |names|
    ensures IsSubstring(Ruby.MenuEntry(i + 2, names[i]), Menu(names, verbose))
  {
    Ruby.MenuListsEveryRepo(names, i);
    SubstringInside(Ruby.MenuEntry(i + 2, names[i]), Ruby.AllEntry, Ruby.MenuLines(names), if verbose then VerboseNote else "");
  }

  // ---------------------------------------------------------------------------
  // Reading the selection

  /** `map(lambda x: int(x) - 2, re.findall(r'\d+', input))`. */
  function PyMenuIndices(line: string): (indices: seq<int>)
    ensures |indices| == |DigitRuns(line)|
  {
    Ruby.MinusTwo(DigitRuns(line))
  }

  /** A number typed twice selects its repository twice, where
      src/updater.rb selects it once. */
  lemma RepeatsAreKept(i: nat)
    ensures var d := NatToString(i + 2);
      PyMenuIndices(d + " " + d) == [i, i]
      && Ruby.RubyMenuIndices(Chomp(d + " " + d)) == [i]
  {
    var d := NatToString(i + 2);
    RepeatedNumberRuns(i);
    NatToStringRoundTrip(i + 2);
    assert Ruby.MinusTwo([d, d]) == [i, i];
    RubyDropsRepeat(i);
  }

  /** The line `"<n> <n>"` holds the digit run `<n>` twice. */
  lemma RepeatedNumberRuns(i: nat)
    ensures var d := NatToString(i + 2); DigitRuns(d + " " + d) == [d, d]
  {
    var d := NatToString(i + 2);
    assert d + " " + d == d + [' '] + d;
    DigitRunsSplit(d, ' ', d);
    DigitRunsOfNumber(d);
  }

  /** src/updater.rb's `uniq` keeps one copy of the repeated number. */
  lemma RubyDropsRepeat(i: nat)
    ensures var d := NatToString(i + 2); Ruby.RubyMenuIndices(Chomp(d + " " + d)) == [i]
  {
    var d := NatToString(i + 2);
    var line := d + " " + d;
    RepeatedNumberRuns(i);
    NatToStringRoundTrip(i + 2);
    ChompLine(line);
    assert Chomp(line + "\n") == line && Chomp(line) == line;
    assert Uniq([d]) == [d];
    assert [d, d][..1] == [d];
    assert Uniq([d, d]) == [d];
    assert Ruby.MinusTwo([d]) == [i];
  }

  /** The list being built, the known list, and whether they are one list
      (after ALL, `repos_to_clone` is the settings list itself). */
  datatype PySelection = PySelection(known: seq<string>, chosen: seq<string>, aliased: bool)

  predicate Coherent(sel: PySelection) {
    sel.aliased ==> sel.chosen == sel.known
  }

  /** `repos_to_clone.append(name)`, which grows the known list too when the
      two are one list. */
  function PyAdd(sel: PySelection, name: string): PySelection {
    if sel.aliased then PySelection(sel.known + [name], sel.chosen + [name], true)
    else PySelection(sel.known, sel.chosen + [name], false)
  }

  /** The loop of `get_repos_to_process`; the range test reads the length
      of the known list afresh for every index. */
  function PySelect(sel: PySelection, inputs: seq<int>): (r: PySelection)
    requires Coherent(sel)
    ensures Coherent(r) && |sel.known| <= |r.known| && r.known[..|sel.known|] == sel.known
    decreases |inputs|
  {
    if inputs == [] then sel
    else if inputs[0] == -1 then PySelect(PySelection(sel.known, sel.known, true), inputs[1..])
    else if 0 <= inputs[0] <= |sel.known| - 1 then PySelect(PyAdd(sel, sel.known[inputs[0]]), inputs[1..])
    else PySelect(sel, inputs[1..])
  }

  /** Without ALL, the chosen names are appended in the order typed,
      repeats kept, unknown indices skipped, and the known list is left
      alone. */
  lemma {:induction false} SelectWithoutAll(sel: PySelection, inputs: seq<int>)
    requires !sel.aliased && -1 !in inputs
    ensures PySelect(sel, inputs) == PySelection(sel.known, sel.chosen + Ruby.Picked(sel.known, inputs), false)
    decreases |inputs|
  {
    if inputs != [] {
      var next := if 0 <= inputs[0] <= |sel.known| - 1 then PyAdd(sel, sel.known[inputs[0]]) else sel;
      assert -1 !in inputs[1..];
      SelectWithoutAll(next, inputs[1..]);
    }
  }

  /** Once the list is the known list, it stays so: every later index
      appends to both. */
  lemma {:induction false} AliasedStaysAliased(sel: PySelection, inputs: seq<int>)
    requires sel.aliased && sel.chosen == sel.known
    ensures var r := PySelect(sel, inputs); r.aliased && r.chosen == r.known
    decreases |inputs|
  {
    if inputs != [] {
      var next := if inputs[0] == -1 then PySelection(sel.known, sel.known, true)
        else if 0 <= inputs[0] <= |sel.known| - 1 then PyAdd(sel, sel.known[inputs[0]]) else sel;
      AliasedStaysAliased(next, inputs[1..]);
    }
  }

  /** ALL does not end the reading: what follows it is still read. */
  lemma {:induction false} SelectContinuesAfterAll(sel: PySelection, before: seq<int>, after: seq<int>)
    requires Coherent(sel)
    ensures var mid := PySelect(sel, before).known;
      PySelect(sel, before + [-1] + after) == PySelect(PySelection(mid, mid, true), after)
    decreases |before|
  {
    if before == [] {
      assert before + [-1] + after == [-1] + after;
    } else {
      var next := if before[0] == -1 then PySelection(sel.known, sel.known, true)
        else if 0 <= before[0] <= |sel.known| - 1 then PyAdd(sel, sel.known[before[0]]) else sel;
      assert (before + [-1] + after)[1..] == before[1..] + [-1] + after;
      SelectContinuesAfterAll(next, before[1..], after);
    }
  }

  /** ALL followed by `2` (index 0) appends the first known name to the
      settings list itself. */
  lemma AllThenFirstGrowsKnown(known: seq<string>, chosen: seq<string>)
    requires known != []
    ensures PySelect(PySelection(known, chosen, false), [-1, 0])
      == PySelection(known + [known[0]], known + [known[0]], true)
  {
    assert [-1, 0][1..] == [0];
    assert [0][1..] == [];
  }

  // ---------------------------------------------------------------------------
  // `strip_list` and `assert_known_branch`

  /** `[x.strip(charset) for x in l]`. */
  function StripList(l: seq<string>, charset: set<char>): (r: seq<string>)
    ensures |r| == |l|
  {
    seq(|l|, i requires 0 <= i < |l| => StripChars(l[i], charset))
  }

  /** Each stripped element is the middle of the original, with only
      characters of the charset cut from either end, and neither end of it
      is such a character. */
  lemma StripListPadded(l: seq<string>, charset: set<char>, i: int)
    requires 0 <= i < |l|
    ensures var r := StripList(l, charset);
      PaddedWith(l[i], r[i], charset) && (r[i] == [] || (r[i][0] !in charset && r[i][|r[i]| - 1] !in charset))
  {
    StripCharsPadded(l[i], charset);
  }

  /** `any(branch_name in s for s in branch_list)`. */
  function AnyContains(list: seq<string>, branch: string): (b: bool)
    ensures b <==> exists i :: 0 <= i < |list| && IsSubstring(branch, list[i])
  {
    if list == [] then false
    else
      var rest := AnyContains(list[1..], branch);
      assert forall i :: 1 <= i < |list| ==> list[i] == list[1..][i - 1];
      IsSubstring(branch, list[0]) || rest
  }

  /** A prefix of a listed branch counts as known: `dev` passes when only
      `development` is listed, where src/updater.rb asks for an exact match. */
  lemma PrefixCountsAsKnown(list: seq<string>, i: int, branch: string, rest: string)
    requires 0 <= i < |list| && list[i] == branch + rest
    ensures AnyContains(list, branch)
  {
    SubstringAt(branch, list[i], 0);
  }

  // ---------------------------------------------------------------------------
  // The steps, as functions of the world, the settings, the working
  // directory and the lines still to be read from standard input

  /** What a step did, where it left the working directory and the input,
      and how it ended. */
  datatype Run<T> = Run(events: seq<PyEvent>, cwd: string, stdin: seq<string>, out: Outcome<T>)

  /** A step that ended the program. */
  function Fail<A, B>(a: Run<A>): Run<B>
    requires a.out.Exit?
  {
    Run(a.events, a.cwd, a.stdin, a.out.PropagateFailure())
  }

  /** One step after another. */
  function Then<A, B>(a: Run<A>, b: Run<B>): Run<B> {
    Run(a.events + b.events, b.cwd, b.stdin, b.out)
  }

  /** A step whose output is printed and not kept. */
  function Quietly(a: Run<string>): Run<()> {
    Run(a.events, a.cwd, a.stdin, if a.out.Exit? then a.out.PropagateFailure() else Ok(()))
  }

  /** `command`. */
  function CommandStep(w: PyWorld, cwd: string, stdin: seq<string>, argv: seq<string>): Run<string> {
    Run([Popen(cwd, argv)], cwd, stdin, match w.run(cwd, argv) { case None => Exit(0, Exiting) case Some(o) => Ok(o) })
  }

  /** `raw_input`: the next line, or EOFError at the end of input. */
  function ReadStep(cwd: string, stdin: seq<string>): Run<string> {
    if stdin == [] then Run([], cwd, stdin, Exit(1, EndOfInput)) else Run([], cwd, stdin[1..], Ok(stdin[0]))
  }

  /** `prompt_user_to_continue`: anything but `y` or `Y` exits. */
  function PromptStep(cwd: string, stdin: seq<string>): Run<()> {
    if stdin == [] then Run([], cwd, stdin, Exit(1, EndOfInput))
    else Run([], cwd, stdin[1..], if Upcase(stdin[0]) == "Y" then Ok(()) else Exit(0, Exiting))
  }

  /** `assert_path_exists`. */
  function PathStep(w: PyWorld, cwd: string, stdin: seq<string>, path: string): Run<()> {
    Run([], cwd, stdin, if w.pathExists(cwd, path) then Ok(()) else Exit(0, "path [" + path + "] does not exist"))
  }

  /** `chdir_to_repo` and `chdir_to_repo_submodule`. */
  function ChdirStep(w: PyWorld, cwd: string, stdin: seq<string>, path: string): Run<()> {
    if w.pathExists(cwd, path) then Run([Chdir(path)], path, stdin, Ok(()))
    else Run([], cwd, stdin, Exit(0, "path [" + path + "] does not exist"))
  }

  /** `clone_repo`: ask, then clone into the build directory. */
  function CloneStep(w: PyWorld, s: PySettings, cwd: string, stdin: seq<string>, name: string): Run<()> {
    var ok := PromptStep(cwd, stdin);
    if ok.out.Exit? then Fail(ok) else Then(ok, Quietly(CommandStep(w, cwd, ok.stdin, CloneArgv(s, name))))
  }

  /** `get_branch_list`: fetch, list, strip spaces and stars. */
  function BranchListStep(w: PyWorld, cwd: string, stdin: seq<string>): Run<seq<string>> {
    var fetch := CommandStep(w, cwd, stdin, FetchArgv);
    if fetch.out.Exit? then Fail(fetch)
    else
      var branch := CommandStep(w, cwd, stdin, BranchArgv);
      Run(fetch.events + branch.events, cwd, stdin,
        if branch.out.Exit? then branch.out.PropagateFailure()
        else Ok(StripList(PythonSplitLines(branch.out.value), GitVerbs.BranchMarkers)))
  }

  function AssertKnownBranchStep(w: PyWorld, cwd: string, stdin: seq<string>, branch: string): Run<()> {
    var list := BranchListStep(w, cwd, stdin);
    if list.out.Exit? then Fail(list)
    else Run(list.events, cwd, stdin,
      if AnyContains(list.out.value, branch) then Ok(()) else Exit(0, "Branch " + branch + " is an unknown branch."))
  }

  /** `checkout_branch`: the checkout is issued whatever branch is current;
      the result is the stripped SHA of HEAD. */
  function CheckoutStep(w: PyWorld, cwd: string, stdin: seq<string>, branch: string): Run<string> {
    var known := AssertKnownBranchStep(w, cwd, stdin, branch);
    if known.out.Exit? then Fail(known)
    else
      var checkout := CommandStep(w, cwd, stdin, CheckoutArgv(branch));
      if checkout.out.Exit? then Fail(Then(known, checkout))
      else
        var head := CommandStep(w, cwd, stdin, HeadArgv);
        Run(known.events + checkout.events + head.events, cwd, stdin,
          if head.out.Exit? then head.out.PropagateFailure() else Ok(PythonStrip(head.out.value)))
  }

  /** `submodule_up_to_date`: the first dash-prefixed SHA of the status
      output against the target; `pop(0)` on no match raises. */
  function UpToDateStep(w: PyWorld, cwd: string, stdin: seq<string>, path: string, sha: string): Run<bool> {
    var status := CommandStep(w, cwd, stdin, StatusArgv(path));
    Run(status.events, cwd, stdin,
      if status.out.Exit? then status.out.PropagateFailure()
      else match GitVerbs.DashSha(status.out.value) {
        case None => Exit(1, EmptyPop)
        case Some(found) => Ok(found == sha)
      })
  }

  /** `init_submodule`. */
  function InitStep(w: PyWorld, cwd: string, stdin: seq<string>, path: string): Run<()> {
    var present := PathStep(w, cwd, stdin, path);
    if present.out.Exit? then Fail(present) else Quietly(CommandStep(w, cwd, stdin, InitArgv(path)))
  }

  /** `pull_branch_origin_latest`. */
  function PullStep(w: PyWorld, cwd: string, stdin: seq<string>, branch: string): Run<()> {
    var known := AssertKnownBranchStep(w, cwd, stdin, branch);
    if known.out.Exit? then Fail(known) else Then(known, Quietly(CommandStep(w, cwd, stdin, PullArgv(branch))))
  }

  /** The loop of `make_commit`: `git add` for each path still to add,
      after `done`. */
  function AddsFrom(w: PyWorld, done: Run<()>, paths: seq<string>): Run<()>
    decreases |paths|
  {
    if paths == [] || done.out.Exit? then done
    else AddsFrom(w, Then(done, Quietly(CommandStep(w, done.cwd, done.stdin, AddArgv(paths[0])))), paths[1..])
  }

  /** `make_commit`: add every path, ask, commit. */
  function CommitStep(w: PyWorld, cwd: string, stdin: seq<string>, message: string, paths: seq<string>): Run<()> {
    var adds := AddsFrom(w, Run([], cwd, stdin, Ok(())), paths);
    if adds.out.Exit? then adds
    else
      var ok := PromptStep(adds.cwd, adds.stdin);
      if ok.out.Exit? then Fail(Then(adds, ok))
      else Then(Then(adds, ok), Quietly(CommandStep(w, ok.cwd, ok.stdin, CommitArgv(message))))
  }

  /** `push_to_origin`. */
  function PushStep(w: PyWorld, cwd: string, stdin: seq<string>, branch: string): Run<()> {
    Quietly(CommandStep(w, cwd, stdin, PushArgv(branch)))
  }

  // The body of the loop of `process_repos`, one stage per function.

  /** Clone the repository, then the rest. */
  function RepoStep(w: PyWorld, s: PySettings, cwd: string, stdin: seq<string>, message: string, name: string, sha: string): Run<()> {
    var clone := CloneStep(w, s, cwd, stdin, name);
    if clone.out.Exit? then Fail(clone) else Then(clone, EnterStep(w, s, clone.cwd, clone.stdin, message, name, sha))
  }

  /** Enter it, then compare its submodule with the target. */
  function EnterStep(w: PyWorld, s: PySettings, cwd: string, stdin: seq<string>, message: string, name: string, sha: string): Run<()> {
    var enter := ChdirStep(w, cwd, stdin, RepoPath(s, name));
    if enter.out.Exit? then Fail(enter) else Then(enter, CheckStep(w, s, enter.cwd, enter.stdin, message, name, sha))
  }

  /** Behind: update it. Up to date: the warning message raises. */
  function CheckStep(w: PyWorld, s: PySettings, cwd: string, stdin: seq<string>, message: string, name: string, sha: string): Run<()> {
    var status := UpToDateStep(w, cwd, stdin, s.targetSubmoduleRelativePath, sha);
    if status.out.Exit? then Fail(status)
    else if status.out.value then Run(status.events, cwd, stdin, Exit(1, NoColorizer))
    else Then(status, UpdateStep(w, s, cwd, stdin, message, name))
  }

  /** Initialise the submodule, then enter it. */
  function UpdateStep(w: PyWorld, s: PySettings, cwd: string, stdin: seq<string>, message: string, name: string): Run<()> {
    var init := InitStep(w, cwd, stdin, s.targetSubmoduleRelativePath);
    if init.out.Exit? then Fail(init) else Then(init, SubmoduleStep(w, s, cwd, stdin, message, name))
  }

  /** Inside the submodule, pull the target branch. */
  function SubmoduleStep(w: PyWorld, s: PySettings, cwd: string, stdin: seq<string>, message: string, name: string): Run<()> {
    var enter := ChdirStep(w, cwd, stdin, SubmodulePath(s, name));
    if enter.out.Exit? then Fail(enter)
    else
      var pull := PullStep(w, enter.cwd, stdin, s.targetSubmoduleTargetBranch);
      if pull.out.Exit? then Fail(Then(enter, pull)) else Then(Then(enter, pull), BackStep(w, s, enter.cwd, stdin, message, name))
  }

  /** Back in the repository, commit and push. */
  function BackStep(w: PyWorld, s: PySettings, cwd: string, stdin: seq<string>, message: string, name: string): Run<()> {
    var back := ChdirStep(w, cwd, stdin, RepoPath(s, name));
    if back.out.Exit? then Fail(back)
    else
      var commit := CommitStep(w, back.cwd, stdin, message, [s.targetSubmoduleRelativePath]);
      if commit.out.Exit? then Fail(Then(back, commit))
      else Then(Then(back, commit), PushStep(w, back.cwd, commit.stdin, PushBranch))
  }

  /** The loop of `process_repos` over the names still to handle, after
      `done`. */
  function ReposFrom(w: PyWorld, s: PySettings, message: string, sha: string, done: Run<()>, names: seq<string>): Run<()>
    decreases |names|
  {
    if names == [] || done.out.Exit? then done
    else ReposFrom(w, s, message, sha, Then(done, RepoStep(w, s, done.cwd, done.stdin, message, names[0], sha)), names[1..])
  }

  /** All of `process_repos`: the commit message, the fresh build
      directory, the target's SHA, then every repository. */
  function ProcessSpec(w: PyWorld, s: PySettings, cwd: string, stdin: seq<string>, names: seq<string>): Run<()> {
    var message := ReadStep(cwd, stdin);
    if message.out.Exit? then Fail(message)
    else Then(Run([RemadeBuildDir(s.buildDir)], cwd, message.stdin, Ok(())),
      TargetStep(w, s, cwd, message.stdin, message.out.value, names))
  }

  /** Clone the target submodule's repository, then check out its branch. */
  function TargetStep(w: PyWorld, s: PySettings, cwd: string, stdin: seq<string>, message: string, names: seq<string>): Run<()> {
    var clone := CloneStep(w, s, cwd, stdin, s.targetSubmoduleName);
    if clone.out.Exit? then Fail(clone) else Then(clone, TargetShaStep(w, s, clone.cwd, clone.stdin, message, names))
  }

  /** Enter it, read the SHA at the head of the target branch, then the loop. */
  function TargetShaStep(w: PyWorld, s: PySettings, cwd: string, stdin: seq<string>, message: string, names: seq<string>): Run<()> {
    var enter := ChdirStep(w, cwd, stdin, RepoPath(s, s.targetSubmoduleName));
    if enter.out.Exit? then Fail(enter)
    else
      var sha := CheckoutStep(w, enter.cwd, stdin, s.targetSubmoduleTargetBranch);
      if sha.out.Exit? then Fail(Then(enter, sha))
      else Then(Then(enter, sha), ReposFrom(w, s, message, sha.out.value, Run([], sha.cwd, sha.stdin, Ok(())), names))
  }

  // ---------------------------------------------------------------------------
  // What the steps promise

  /** Every clone is asked for first: an answer other than `y` or `Y` ends
      the program before anything is run, and so does the end of input. */
  lemma CloneAsksFirst(w: PyWorld, s: PySettings, cwd: string, stdin: seq<string>, name: string)
    ensures var c := CloneStep(w, s, cwd, stdin, name);
      (stdin == [] ==> c == Run([], cwd, stdin, Exit(1, EndOfInput)))
      && (stdin != [] && stdin[0] != "y" && stdin[0] != "Y" ==> c == Run([], cwd, stdin[1..], Exit(0, Exiting)))
      && (stdin != [] && (stdin[0] == "y" || stdin[0] == "Y") ==> c.events == [Popen(cwd, CloneArgv(s, name))] && c.stdin == stdin[1..])
  {
    if stdin != [] {
      UpcaseIsY(stdin[0]);
    }
  }

  /** With both git commands answering, the branch check passes exactly
      when the name occurs inside some listed branch, and it exits with
      status 0 otherwise. */
  lemma KnownBranchIsSubstring(w: PyWorld, cwd: string, stdin: seq<string>, branch: string, listing: string)
    requires w.run(cwd, FetchArgv).Some? && w.run(cwd, BranchArgv) == Some(listing)
    ensures var list := StripList(PythonSplitLines(listing), GitVerbs.BranchMarkers);
      var known := AssertKnownBranchStep(w, cwd, stdin, branch);
      (known.out.Ok? <==> exists i :: 0 <= i < |list| && IsSubstring(branch, list[i]))
      && (known.out.Exit? ==> known.out.code == 0)
      && known.events == [Popen(cwd, FetchArgv), Popen(cwd, BranchArgv)]
  {
  }

  /** The checkout is issued whenever the branch check passes, even when
      the branch is already checked out, and never otherwise. */
  lemma CheckoutAlwaysIssued(w: PyWorld, cwd: string, stdin: seq<string>, branch: string)
    ensures var known := AssertKnownBranchStep(w, cwd, stdin, branch);
      var c := CheckoutStep(w, cwd, stdin, branch);
      (Popen(cwd, CheckoutArgv(branch)) in c.events <==> known.out.Ok?)
      && (known.out.Ok? ==> |known.events| < |c.events| && c.events[|known.events|] == Popen(cwd, CheckoutArgv(branch)))
  {
    var known := AssertKnownBranchStep(w, cwd, stdin, branch);
    assert forall e :: e in known.events ==> e.argv == FetchArgv || e.argv == BranchArgv;
  }

  /** An initialised submodule (status line without a dash) has no match,
      and `pop(0)` raises. */
  lemma InitialisedSubmoduleCrashes(w: PyWorld, cwd: string, stdin: seq<string>, path: string, sha: string, status: string)
    requires w.run(cwd, StatusArgv(path)) == Some(status) && '-' !in status
    ensures UpToDateStep(w, cwd, stdin, path, sha).out == Exit(1, EmptyPop)
  {
    GitVerbs.DashShaNeedsDash(status);
  }

  /** An uninitialised submodule is up to date exactly when the SHA after
      its dash is the target SHA. */
  lemma UninitialisedSubmoduleCompared(w: PyWorld, cwd: string, stdin: seq<string>, path: string, sha: string, found: string, rest: string)
    requires found != [] && GitVerbs.AllHex(found)
    requires w.run(cwd, StatusArgv(path)) == Some("-" + found + " " + rest)
    ensures UpToDateStep(w, cwd, stdin, path, sha).out == Ok(found == sha)
  {
    GitVerbs.DashShaOfUninitialised(found, rest);
  }

  /** A repository whose submodule is already at the target is not skipped:
      the warning it would print raises, the run ends with status 1, and
      nothing is pushed. */
  lemma RepoAtTargetCrashes(w: PyWorld, s: PySettings, cwd: string, stdin: seq<string>, message: string, name: string, sha: string, rest: string)
    requires sha != [] && GitVerbs.AllHex(sha)
    requires stdin != [] && (stdin[0] == "y" || stdin[0] == "Y")
    requires w.run(cwd, CloneArgv(s, name)).Some? && w.pathExists(cwd, RepoPath(s, name))
    requires w.run(RepoPath(s, name), StatusArgv(s.targetSubmoduleRelativePath)) == Some("-" + sha + " " + rest)
    ensures var r := RepoStep(w, s, cwd, stdin, message, name, sha);
      r.out == Exit(1, NoColorizer)
      && r.events == [Popen(cwd, CloneArgv(s, name)), Chdir(RepoPath(s, name)), Popen(RepoPath(s, name), StatusArgv(s.targetSubmoduleRelativePath))]
  {
    UpcaseIsY(stdin[0]);
    UninitialisedSubmoduleCompared(w, RepoPath(s, name), stdin[1..], s.targetSubmoduleRelativePath, sha, sha, rest);
  }

  /** A repository that goes through ends with its push of `development`,
      issued from the repository's own directory. */
  lemma RepoEndsWithPush(w: PyWorld, s: PySettings, cwd: string, stdin: seq<string>, message: string, name: string, sha: string)
    requires RepoStep(w, s, cwd, stdin, message, name, sha).out.Ok?
    ensures EndsWithPush(RepoStep(w, s, cwd, stdin, message, name, sha), s, name)
  {
    var clone := CloneStep(w, s, cwd, stdin, name);
    EnterEndsWithPush(w, s, clone.cwd, clone.stdin, message, name, sha);
    ThenKeepsLast(clone, EnterStep(w, s, clone.cwd, clone.stdin, message, name, sha));
  }

  ghost predicate EndsWithPush<T>(r: Run<T>, s: PySettings, name: string) {
    r.events != [] && r.events[|r.events| - 1] == Popen(RepoPath(s, name), PushArgv(PushBranch))
  }

  lemma ThenKeepsLast<A, B>(a: Run<A>, b: Run<B>)
    requires b.events != []
    ensures Then(a, b).events[|Then(a, b).events| - 1] == b.events[|b.events| - 1]
  {
  }

  lemma EnterEndsWithPush(w: PyWorld, s: PySettings, cwd: string, stdin: seq<string>, message: string, name: string, sha: string)
    requires EnterStep(w, s, cwd, stdin, message, name, sha).out.Ok?
    ensures EndsWithPush(EnterStep(w, s, cwd, stdin, message, name, sha), s, name)
  {
    var enter := ChdirStep(w, cwd, stdin, RepoPath(s, name));
    CheckEndsWithPush(w, s, enter.cwd, enter.stdin, message, name, sha);
    ThenKeepsLast(enter, CheckStep(w, s, enter.cwd, enter.stdin, message, name, sha));
  }

  lemma CheckEndsWithPush(w: PyWorld, s: PySettings, cwd: string, stdin: seq<string>, message: string, name: string, sha: string)
    requires CheckStep(w, s, cwd, stdin, message, name, sha).out.Ok?
    ensures EndsWithPush(CheckStep(w, s, cwd, stdin, message, name, sha), s, name)
  {
    var status := UpToDateStep(w, cwd, stdin, s.targetSubmoduleRelativePath, sha);
    UpdateEndsWithPush(w, s, cwd, stdin, message, name);
    ThenKeepsLast(status, UpdateStep(w, s, cwd, stdin, message, name));
  }

  lemma UpdateEndsWithPush(w: PyWorld, s: PySettings, cwd: string, stdin: seq<string>, message: string, name: string)
    requires UpdateStep(w, s, cwd, stdin, message, name).out.Ok?
    ensures EndsWithPush(UpdateStep(w, s, cwd, stdin, message, name), s, name)
  {
    var init := InitStep(w, cwd, stdin, s.targetSubmoduleRelativePath);
    SubmoduleEndsWithPush(w, s, cwd, stdin, message, name);
    ThenKeepsLast(init, SubmoduleStep(w, s, cwd, stdin, message, name));
  }

  lemma SubmoduleEndsWithPush(w: PyWorld, s: PySettings, cwd: string, stdin: seq<string>, message: string, name: string)
    requires SubmoduleStep(w, s, cwd, stdin, message, name).out.Ok?
    ensures EndsWithPush(SubmoduleStep(w, s, cwd, stdin, message, name), s, name)
  {
    var enter := ChdirStep(w, cwd, stdin, SubmodulePath(s, name));
    var pull := PullStep(w, enter.cwd, stdin, s.targetSubmoduleTargetBranch);
    var back := BackStep(w, s, enter.cwd, stdin, message, name);
    assert EndsWithPush(back, s, name);
    ThenKeepsLast(Then(enter, pull), back);
  }

  /** The events of the loop start with those of the runs already done. */
  lemma {:induction false} ReposFromExtends(w: PyWorld, s: PySettings, message: string, sha: string, done: Run<()>, names: seq<string>)
    ensures var r := ReposFrom(w, s, message, sha, done, names);
      |done.events| <= |r.events| && r.events[..|done.events|] == done.events
      && (r.out.Ok? ==> done.out.Ok?)
    decreases |names|
  {
    if names != [] && done.out.Ok? {
      var next := Then(done, RepoStep(w, s, done.cwd, done.stdin, message, names[0], sha));
      ReposFromExtends(w, s, message, sha, next, names[1..]);
      assert next.events[..|done.events|] == done.events;
    }
  }

  /** When the loop ends well, every selected repository was pushed to
      `development` from its own directory. */
  lemma {:induction false} ReposFromPushesEach(w: PyWorld, s: PySettings, message: string, sha: string, done: Run<()>, names: seq<string>, j: int)
    requires 0 <= j < |names| && ReposFrom(w, s, message, sha, done, names).out.Ok?
    ensures Popen(RepoPath(s, names[j]), PushArgv(PushBranch)) in ReposFrom(w, s, message, sha, done, names).events
    decreases |names|
  {
    var one := RepoStep(w, s, done.cwd, done.stdin, message, names[0], sha);
    var next := Then(done, one);
    ReposFromExtends(w, s, message, sha, next, names[1..]);
    if j == 0 {
      assert one.out.Ok?;
      RepoEndsWithPush(w, s, done.cwd, done.stdin, message, names[0], sha);
      ThenKeepsLast(done, one);
      var r := ReposFrom(w, s, message, sha, done, names);
      assert r.events[..|next.events|][|next.events| - 1] == r.events[|next.events| - 1];
    } else {
      assert names[1..][j - 1] == names[j];
      ReposFromPushesEach(w, s, message, sha, next, names[1..], j - 1);
    }
  }

  /** A run of `process_repos` that ends well pushed every selected
      repository to `development`; with the crash above, it can only end
      well when every selected repository was behind the target. */
  lemma ProcessPushesEverySelected(w: PyWorld, s: PySettings, cwd: string, stdin: seq<string>, names: seq<string>, j: int)
    requires 0 <= j < |names| && ProcessSpec(w, s, cwd, stdin, names).out.Ok?
    ensures Popen(RepoPath(s, names[j]), PushArgv(PushBranch)) in ProcessSpec(w, s, cwd, stdin, names).events
  {
    var message := ReadStep(cwd, stdin);
    var clone := CloneStep(w, s, cwd, message.stdin, s.targetSubmoduleName);
    var enter := ChdirStep(w, clone.cwd, clone.stdin, RepoPath(s, s.targetSubmoduleName));
    var sha := CheckoutStep(w, enter.cwd, clone.stdin, s.targetSubmoduleTargetBranch);
    var loop := ReposFrom(w, s, message.out.value, sha.out.value, Run([], sha.cwd, sha.stdin, Ok(())), names);
    ReposFromPushesEach(w, s, message.out.value, sha.out.value, Run([], sha.cwd, sha.stdin, Ok(())), names, j);
    var e := Popen(RepoPath(s, names[j]), PushArgv(PushBranch));
    assert e in loop.events;
    assert ProcessSpec(w, s, cwd, stdin, names).events == [RemadeBuildDir(s.buildDir)] + (clone.events + (enter.events + sha.events + loop.events));
  }

  // ---------------------------------------------------------------------------
  // The `Updater` object

  /** `Updater`, with the state of the process it runs in: the working
      directory, the commands issued so far, and standard input. */
  class Updater {
    const settings: PySettings
    const verboseOn: bool
    const world: PyWorld
    /** `settings.KNOWN_REPOS_GIT_REPO_NAMES`, which selecting ALL can
        make grow. */
    var knownRepoNames: seq<string>
    var cwd: string
    var trace: seq<PyEvent>
    var stdin: seq<string>

    constructor (settings: PySettings, knownRepoNames: seq<string>, verboseOn: bool, world: PyWorld, cwd: string, stdin: seq<string>)
      ensures this.settings == settings && this.knownRepoNames == knownRepoNames && this.verboseOn == verboseOn
      ensures this.world == world && this.cwd == cwd && this.stdin == stdin && trace == []
    {
      this.settings := settings;
      this.knownRepoNames := knownRepoNames;
      this.verboseOn := verboseOn;
      this.world := world;
      this.cwd := cwd;
      this.stdin := stdin;
      trace := [];
    }

    /** The process state after a method is the one its step function
        gives, and the method returns that step's outcome. */
    twostate predicate Followed<T>(new x: Run<T>, new r: Outcome<T>)
      reads this
    {
      trace == old(trace) + x.events && cwd == x.cwd && stdin == x.stdin && r == x.out
    }

    method GetMenu() returns (menu: string)
      ensures menu == Menu(knownRepoNames, verboseOn)
    {
      menu := Ruby.AllEntry;
      var i := 0;
      while i < |knownRepoNames|
        invariant 0 <= i <= |knownRepoNames|
        invariant menu == Ruby.AllEntry + Ruby.MenuLines(knownRepoNames[..i])
      {
        assert knownRepoNames[..i + 1][..i] == knownRepoNames[..i];
        menu := menu + Ruby.MenuEntry(i + 2, knownRepoNames[i]);
        i := i + 1;
      }
      assert knownRepoNames[..i] == knownRepoNames;
      if verboseOn {
        menu := menu + VerboseNote;
      }
    }

    method GetMenuInput() returns (r: Outcome<seq<int>>)
      modifies this`stdin
      ensures old(stdin) == [] ==> r == Exit(1, EndOfInput) && stdin == old(stdin)
      ensures old(stdin) != [] ==> r == Ok(PyMenuIndices(old(stdin)[0])) && stdin == old(stdin)[1..]
    {
      var input :- RawInput();
      r := Ok(PyMenuIndices(input));
    }

    /** `raw_input`. */
    method RawInput() returns (r: Outcome<string>)
      modifies this`stdin
      ensures var x := ReadStep(old(cwd), old(stdin)); stdin == x.stdin && r == x.out
    {
      if stdin == [] {
        return Exit(1, EndOfInput);
      }
      r := Ok(stdin[0]);
      stdin := stdin[1..];
    }

    method GetReposToProcess(inputs: seq<int>) returns (chosen: seq<string>)
      modifies this`knownRepoNames
      ensures var sel := PySelect(PySelection(old(knownRepoNames), [], false), inputs);
        knownRepoNames == sel.known && chosen == sel.chosen
    {
      ghost var goal := PySelect(PySelection(knownRepoNames, [], false), inputs);
      chosen := [];
      var aliased := false;
      for i := 0 to |inputs|
        invariant Coherent(PySelection(knownRepoNames, chosen, aliased))
        invariant PySelect(PySelection(knownRepoNames, chosen, aliased), inputs[i..]) == goal
      {
        assert inputs[i..][1..] == inputs[i + 1..];
        var index := inputs[i];
        if index == -1 {
          chosen := knownRepoNames;
          aliased := true;
        } else if index >= 0 && index <= |knownRepoNames| - 1 {
          var name := knownRepoNames[index];
          chosen := chosen + [name];
          if aliased {
            knownRepoNames := knownRepoNames + [name];
          }
        }
      }
    }

    method Command(argv: seq<string>) returns (r: Outcome<string>)
      modifies this`trace
      ensures Followed(CommandStep(world, old(cwd), old(stdin), argv), r)
    {
      trace := trace + [Popen(cwd, argv)];
      var output := world.run(cwd, argv);
      if output.None? {
        return Exit(0, Exiting);
      }
      r := Ok(output.value);
    }

    method AssertPathExists(path: string) returns (r: Outcome<()>)
      ensures r == PathStep(world, cwd, stdin, path).out
    {
      if !world.pathExists(cwd, path) {
        return Exit(0, "path [" + path + "] does not exist");
      }
      r := Ok(());
    }

    method PrepBuild()
      modifies this`trace
      ensures trace == old(trace) + [RemadeBuildDir(settings.buildDir)]
    {
      trace := trace + [RemadeBuildDir(settings.buildDir)];
    }

    method PromptUserToContinue() returns (r: Outcome<()>)
      modifies this`stdin
      ensures Followed(PromptStep(old(cwd), old(stdin)), r)
    {
      var input :- RawInput();
      if Upcase(input) != "Y" {
        return Exit(0, Exiting);
      }
      r := Ok(());
    }

    method CloneRepo(repoName: string) returns (r: Outcome<()>)
      modifies this`trace, this`stdin
      ensures Followed(CloneStep(world, settings, old(cwd), old(stdin), repoName), r)
    {
      var _ :- PromptUserToContinue();
      var _ :- Command(CloneArgv(settings, repoName));
      r := Ok(());
    }

    method ChdirTo(path: string) returns (r: Outcome<()>)
      modifies this`trace, this`cwd
      ensures Followed(ChdirStep(world, old(cwd), old(stdin), path), r)
    {
      var _ :- AssertPathExists(path);
      trace := trace + [Chdir(path)];
      cwd := path;
      r := Ok(());
    }

    method ChdirToRepo(repoName: string) returns (r: Outcome<()>)
      modifies this`trace, this`cwd
      ensures Followed(ChdirStep(world, old(cwd), old(stdin), RepoPath(settings, repoName)), r)
    {
      r := ChdirTo(settings.buildDir + "/" + repoName);
    }

    method ChdirToRepoSubmodule(repoName: string, submoduleRelativePath: string) returns (r: Outcome<()>)
      modifies this`trace, this`cwd
      ensures Followed(ChdirStep(world, old(cwd), old(stdin), settings.buildDir + "/" + repoName + "/" + submoduleRelativePath), r)
    {
      r := ChdirTo(settings.buildDir + "/" + repoName + "/" + submoduleRelativePath);
    }

    method GetBranchList() returns (r: Outcome<seq<string>>)
      modifies this`trace
      ensures Followed(BranchListStep(world, old(cwd), old(stdin)), r)
    {
      var _ :- Command(FetchArgv);
      var branchOutput :- Command(BranchArgv);
      r := Ok(StripList(PythonSplitLines(branchOutput), GitVerbs.BranchMarkers));
    }

    method AssertKnownBranch(branchName: string) returns (r: Outcome<()>)
      modifies this`trace
      ensures Followed(AssertKnownBranchStep(world, old(cwd), old(stdin), branchName), r)
    {
      var branchList :- GetBranchList();
      if !AnyContains(branchList, branchName) {
        return Exit(0, "Branch " + branchName + " is an unknown branch.");
      }
      r := Ok(());
    }

    method CheckoutBranch(branchName: string) returns (r: Outcome<string>)
      modifies this`trace
      ensures Followed(CheckoutStep(world, old(cwd), old(stdin), branchName), r)
    {
      var _ :- AssertKnownBranch(branchName);
      var _ :- Command(CheckoutArgv(branchName));
      var head :- Command(HeadArgv);
      r := Ok(PythonStrip(head));
    }

    method SubmoduleUpToDate(submoduleRelativePath: string, submoduleTargetSha: string) returns (r: Outcome<bool>)
      modifies this`trace
      ensures Followed(UpToDateStep(world, old(cwd), old(stdin), submoduleRelativePath, submoduleTargetSha), r)
    {
      var shaResponse :- Command(StatusArgv(submoduleRelativePath));
      var found := GitVerbs.DashSha(shaResponse);
      if found.None? {
        return Exit(1, EmptyPop);
      }
      r := Ok(found.value == submoduleTargetSha);
    }

    method InitSubmodule(submodulePath: string) returns (r: Outcome<()>)
      modifies this`trace
      ensures Followed(InitStep(world, old(cwd), old(stdin), submodulePath), r)
    {
      var _ :- AssertPathExists(submodulePath);
      var _ :- Command(InitArgv(submodulePath));
      r := Ok(());
    }

    method PullBranchOriginLatest(branchName: string) returns (r: Outcome<()>)
      modifies this`trace
      ensures Followed(PullStep(world, old(cwd), old(stdin), branchName), r)
    {
      var _ :- AssertKnownBranch(branchName);
      var _ :- Command(PullArgv(branchName));
      r := Ok(());
    }

    method MakeCommit(commitMessage: string, pathAdds: seq<string>) returns (r: Outcome<()>)
      modifies this`trace, this`stdin
      ensures Followed(CommitStep(world, old(cwd), old(stdin), commitMessage, pathAdds), r)
    {
      ghost var trace0 := trace;
      ghost var done: Run<()> := Run([], cwd, stdin, Ok(()));
      ghost var goal := AddsFrom(world, done, pathAdds);
      for i := 0 to |pathAdds|
        invariant done.out.Ok? && AddsFrom(world, done, pathAdds[i..]) == goal
        invariant trace == trace0 + done.events && cwd == done.cwd && stdin == done.stdin
      {
        assert pathAdds[i..][1..] == pathAdds[i + 1..];
        ghost var add := Quietly(CommandStep(world, cwd, stdin, AddArgv(pathAdds[i])));
        var added := Command(AddArgv(pathAdds[i]));
        Traces.TraceGrows(trace0, done.events, add.events);
        done := Then(done, add);
        if added.Exit? {
          return added.PropagateFailure();
        }
        Wrappers.OkIsUnit(done.out);
      }
      assert pathAdds[|pathAdds|..] == [];
      ghost var added := trace;
      var _ :- PromptUserToContinue();
      ghost var commit := Quietly(CommandStep(world, cwd, stdin, CommitArgv(commitMessage)));
      var _ :- Command(CommitArgv(commitMessage));
      Traces.TraceGrows(trace0, done.events, commit.events);
      r := Ok(());
    }

    method PushToOrigin(branchName: string) returns (r: Outcome<()>)
      modifies this`trace
      ensures Followed(PushStep(world, old(cwd), old(stdin), branchName), r)
    {
      var _ :- Command(PushArgv(branchName));
      r := Ok(());
    }

    /** `message`: printing is left out; the `warning` and `error` kinds
        read `self.colorizer`, which is never set, and raise. */
    method Message(text: string, kind: string) returns (r: Outcome<()>)
      ensures r.Exit? <==> kind == "warning" || kind == "error"
      ensures r.Exit? ==> r == Exit(1, NoColorizer)
    {
      if kind == "warning" || kind == "error" {
        return Exit(1, NoColorizer);
      }
      r := Ok(());
    }

    // -------------------------------------------------------------------------
    // `process_repos`, stage by stage

    /** The body of its loop: clone the repository, then the rest. */
    method ProcessRepo(commitMessage: string, repoName: string, sha: string) returns (r: Outcome<()>)
      modifies this`trace, this`cwd, this`stdin
      ensures Followed(RepoStep(world, settings, old(cwd), old(stdin), commitMessage, repoName, sha), r)
    {
      ghost var t0 := trace;
      ghost var clone := CloneStep(world, settings, cwd, stdin, repoName);
      var _ :- CloneRepo(repoName);
      ghost var rest := EnterStep(world, settings, cwd, stdin, commitMessage, repoName, sha);
      r := EnterRepo(commitMessage, repoName, sha);
      Traces.TraceGrows(t0, clone.events, rest.events);
    }

    method EnterRepo(commitMessage: string, repoName: string, sha: string) returns (r: Outcome<()>)
      modifies this`trace, this`cwd, this`stdin
      ensures Followed(EnterStep(world, settings, old(cwd), old(stdin), commitMessage, repoName, sha), r)
    {
      ghost var t0 := trace;
      ghost var enter := ChdirStep(world, cwd, stdin, RepoPath(settings, repoName));
      var _ :- ChdirToRepo(repoName);
      ghost var rest := CheckStep(world, settings, cwd, stdin, commitMessage, repoName, sha);
      r := CheckRepo(commitMessage, repoName, sha);
      Traces.TraceGrows(t0, enter.events, rest.events);
    }

    method CheckRepo(commitMessage: string, repoName: string, sha: string) returns (r: Outcome<()>)
      modifies this`trace, this`cwd, this`stdin
      ensures Followed(CheckStep(world, settings, old(cwd), old(stdin), commitMessage, repoName, sha), r)
    {
      ghost var t0 := trace;
      ghost var status := UpToDateStep(world, cwd, stdin, settings.targetSubmoduleRelativePath, sha);
      var upToDate :- SubmoduleUpToDate(settings.targetSubmoduleRelativePath, sha);
      if upToDate {
        r := Message("The repo: " + repoName + " submodule " + settings.targetSubmoduleName + " is already up to date. Skipping", "warning");
        return;
      }
      ghost var rest := UpdateStep(world, settings, cwd, stdin, commitMessage, repoName);
      r := UpdateRepo(commitMessage, repoName);
      Traces.TraceGrows(t0, status.events, rest.events);
    }

    method UpdateRepo(commitMessage: string, repoName: string) returns (r: Outcome<()>)
      modifies this`trace, this`cwd, this`stdin
      ensures Followed(UpdateStep(world, settings, old(cwd), old(stdin), commitMessage, repoName), r)
    {
      ghost var t0 := trace;
      ghost var init := InitStep(world, cwd, stdin, settings.targetSubmoduleRelativePath);
      var _ :- InitSubmodule(settings.targetSubmoduleRelativePath);
      ghost var rest := SubmoduleStep(world, settings, cwd, stdin, commitMessage, repoName);
      r := UpdateInSubmodule(commitMessage, repoName);
      Traces.TraceGrows(t0, init.events, rest.events);
    }

    method UpdateInSubmodule(commitMessage: string, repoName: string) returns (r: Outcome<()>)
      modifies this`trace, this`cwd, this`stdin
      ensures Followed(SubmoduleStep(world, settings, old(cwd), old(stdin), commitMessage, repoName), r)
    {
      ghost var t0 := trace;
      ghost var enter := ChdirStep(world, cwd, stdin, SubmodulePath(settings, repoName));
      var _ :- ChdirToRepoSubmodule(repoName, settings.targetSubmoduleRelativePath);
      ghost var t1 := trace;
      ghost var pull := PullStep(world, cwd, stdin, settings.targetSubmoduleTargetBranch);
      var _ :- PullBranchOriginLatest(settings.targetSubmoduleTargetBranch);
      Traces.TraceGrows(t0, enter.events, pull.events);
      ghost var rest := BackStep(world, settings, cwd, stdin, commitMessage, repoName);
      r := CommitAndPush(commitMessage, repoName);
      Traces.TraceGrows(t0, enter.events + pull.events, rest.events);
    }

    method CommitAndPush(commitMessage: string, repoName: string) returns (r: Outcome<()>)
      modifies this`trace, this`cwd, this`stdin
      ensures Followed(BackStep(world, settings, old(cwd), old(stdin), commitMessage, repoName), r)
    {
      ghost var t0 := trace;
      ghost var back := ChdirStep(world, cwd, stdin, RepoPath(settings, repoName));
      var _ :- ChdirToRepo(repoName);
      ghost var commit := CommitStep(world, cwd, stdin, commitMessage, [settings.targetSubmoduleRelativePath]);
      var _ :- MakeCommit(commitMessage, [settings.targetSubmoduleRelativePath]);
      Traces.TraceGrows(t0, back.events, commit.events);
      ghost var push := PushStep(world, cwd, stdin, PushBranch);
      r := PushToOrigin(PushBranch);
      Traces.TraceGrows(t0, back.events + commit.events, push.events);
    }

    /** The loop of `process_repos` over the selected names. */
    method ProcessEach(commitMessage: string, sha: string, reposToClone: seq<string>) returns (r: Outcome<()>)
      modifies this`trace, this`cwd, this`stdin
      ensures Followed(ReposFrom(world, settings, commitMessage, sha, Run([], old(cwd), old(stdin), Ok(())), reposToClone), r)
    {
      ghost var trace0 := trace;
      ghost var done: Run<()> := Run([], cwd, stdin, Ok(()));
      ghost var goal := ReposFrom(world, settings, commitMessage, sha, done, reposToClone);
      for i := 0 to |reposToClone|
        invariant done.out.Ok? && ReposFrom(world, settings, commitMessage, sha, done, reposToClone[i..]) == goal
        invariant trace == trace0 + done.events && cwd == done.cwd && stdin == done.stdin
      {
        assert reposToClone[i..][1..] == reposToClone[i + 1..];
        ghost var one := RepoStep(world, settings, cwd, stdin, commitMessage, reposToClone[i], sha);
        var processed := ProcessRepo(commitMessage, reposToClone[i], sha);
        Traces.TraceGrows(trace0, done.events, one.events);
        done := Then(done, one);
        if processed.Exit? {
          assert ReposFrom(world, settings, commitMessage, sha, done, reposToClone[i + 1..]) == done;
          return processed;
        }
      }
      assert reposToClone[|reposToClone|..] == [];
      Wrappers.OkIsUnit(done.out);
      r := Ok(());
    }

    /** `process_repos`. */
    method ProcessRepos(reposToClone: seq<string>) returns (r: Outcome<()>)
      modifies this`trace, this`cwd, this`stdin
      ensures Followed(ProcessSpec(world, settings, old(cwd), old(stdin), reposToClone), r)
    {
      ghost var t0 := trace;
      var commitMessage :- RawInput();
      PrepBuild();
      ghost var rest := TargetStep(world, settings, cwd, stdin, commitMessage, reposToClone);
      r := CloneTarget(commitMessage, reposToClone);
      Traces.TraceGrows(t0, [RemadeBuildDir(settings.buildDir)], rest.events);
    }

    /** Clone the target submodule's repository, then the rest. */
    method CloneTarget(commitMessage: string, reposToClone: seq<string>) returns (r: Outcome<()>)
      modifies this`trace, this`cwd, this`stdin
      ensures Followed(TargetStep(world, settings, old(cwd), old(stdin), commitMessage, reposToClone), r)
    {
      ghost var t0 := trace;
      ghost var clone := CloneStep(world, settings, cwd, stdin, settings.targetSubmoduleName);
      var _ :- CloneRepo(settings.targetSubmoduleName);
      ghost var rest := TargetShaStep(world, settings, cwd, stdin, commitMessage, reposToClone);
      r := TargetSha(commitMessage, reposToClone);
      Traces.TraceGrows(t0, clone.events, rest.events);
    }

    /** Read the SHA at the head of the target branch, then update every
        selected repository. */
    method TargetSha(commitMessage: string, reposToClone: seq<string>) returns (r: Outcome<()>)
      modifies this`trace, this`cwd, this`stdin
      ensures Followed(TargetShaStep(world, settings, old(cwd), old(stdin), commitMessage, reposToClone), r)
    {
      ghost var t0 := trace;
      ghost var enter := ChdirStep(world, cwd, stdin, RepoPath(settings, settings.targetSubmoduleName));
      var _ :- ChdirToRepo(settings.targetSubmoduleName);
      ghost var checkout := CheckoutStep(world, cwd, stdin, settings.targetSubmoduleTargetBranch);
      var submoduleHeadSha :- CheckoutBranch(settings.targetSubmoduleTargetBranch);
      Traces.TraceGrows(t0, enter.events, checkout.events);
      ghost var rest := ReposFrom(world, settings, commitMessage, submoduleHeadSha, Run([], cwd, stdin, Ok(())), reposToClone);
      r := ProcessEach(commitMessage, submoduleHeadSha, reposToClone);
      Traces.TraceGrows(t0, enter.events + checkout.events, rest.events);
    }
  }
}
