/** The git verbs that src/updater.rb and src/git_commander.rb share word
    for word: command text, the parsing of git's output, and the verbs
    themselves, each as a method on the `Command` object proved against a
    function that says which commands it issues and what it returns. */
module GitVerbs {
  import opened Wrappers
  import opened Text
  import opened Command

  // ---------------------------------------------------------------------------
  // Command text

  const BranchCommand := "git branch"
  const CurrentBranchCommand := "git rev-parse --abbrev-ref HEAD"
  const HeadCommand := "git rev-parse HEAD"

  function CloneCommand(basePath: string, repoName: string, targetDir: string): string {
    "git clone " + basePath + "/" + repoName + ".git " + targetDir + "/" + repoName
  }

  function CheckoutCommand(branch: string): string { "git checkout " + branch }
  function PullCommand(branch: string): string { "git pull origin " + branch }
  function PushCommand(branch: string): string { "git push origin " + branch }
  function AddCommand(path: string): string { "git add " + path }
  function InitCommand(path: string): string { "git submodule update --init " + path }
  function CommitCommand(message: string): string { "git commit -m'" + message + "'" }

  /** `make_git_commit` takes one path or a list of them. */
  datatype Paths = OnePath(path: string) | PathList(paths: seq<string>)

  function PathsOf(p: Paths): seq<string> {
    match p
    case OnePath(path) => [path]
    case PathList(paths) => paths
  }

  // ---------------------------------------------------------------------------
  // `git branch` output

  const BranchMarkers: set<char> := {' ', '*'}

  /** `collect! { |x| x.tr(' *', '') }`. */
  function StripMarkers(lines: seq<string>): (r: seq<string>)
    ensures |r| == |lines|
  {
    if lines == [] then []
    else StripMarkers(lines[..|lines| - 1]) + [DeleteChars(lines[|lines| - 1], BranchMarkers)]
  }

  /** The branch names `get_branch_list` reads from `git branch` output. */
  function BranchList(output: string): seq<string> {
    StripMarkers(RubySplitLines(output))
  }

  /** `collect!` rewrites the split lines in place. */
  method StripMarkersInPlace(parts: array<string>)
    modifies parts
    ensures parts[..] == StripMarkers(old(parts[..]))
  {
    ghost var lines := parts[..];
    var i := 0;
    while i < parts.Length
      invariant 0 <= i <= parts.Length
      invariant parts[..i] == StripMarkers(lines[..i])
      invariant parts[i..] == lines[i..]
    {
      assert lines[..i + 1][..i] == lines[..i];
      parts[i] := DeleteChars(parts[i], BranchMarkers);
      assert parts[..i + 1] == parts[..i] + [parts[i]];
      i := i + 1;
    }
    assert lines[..i] == lines;
  }

  /** A branch written without spaces or stars is found whatever marker and
      indentation `git branch` puts in front of it. */
  lemma MarkedLineNamesBranch(marker: string, name: string)
    requires forall k :: 0 <= k < |marker| ==> marker[k] in BranchMarkers
    requires forall k :: 0 <= k < |name| ==> name[k] !in BranchMarkers
    ensures DeleteChars(marker + name, BranchMarkers) == name
  {
    DeleteCharsConcat(marker, name, BranchMarkers);
    DeleteCharsNone(name, BranchMarkers);
    DeleteCharsAll(marker, BranchMarkers);
  }

  lemma {:induction false} DeleteCharsAll(s: string, cs: set<char>)
    requires forall k :: 0 <= k < |s| ==> s[k] in cs
    ensures DeleteChars(s, cs) == []
    decreases |s|
  {
    if s != [] {
      DeleteCharsAll(s[1..], cs);
    }
  }

  // ---------------------------------------------------------------------------
  // SHA extraction from `git submodule status`

  predicate IsHex(c: char) {
    '0' <= c <= '9' || 'a' <= c <= 'f'
  }

  predicate AllHex(s: string) {
    forall k :: 0 <= k < |s| ==> IsHex(s[k])
  }

  /** Ruby's `\w`: ASCII letters, digits and underscore. */
  predicate IsWordChar(c: char) {
    'a' <= c <= 'z' || 'A' <= c <= 'Z' || '0' <= c <= '9' || c == '_'
  }

  /** Where the run of lower-case hex digits starting at `j` ends. */
  function HexEnd(s: string, j: nat): (e: nat)
    requires j <= |s|
    ensures j <= e <= |s|
    decreases |s| - j
  {
    if j < |s| && IsHex(s[j]) then HexEnd(s, j + 1) else j
  }

  /** The run is all hex digits, and the character after it is not one. */
  lemma {:induction false} HexEndIsRun(s: string, j: nat)
    requires j <= |s|
    ensures AllHex(s[j..HexEnd(s, j)])
    ensures HexEnd(s, j) < |s| ==> !IsHex(s[HexEnd(s, j)])
    decreases |s| - j
  {
    if j < |s| && IsHex(s[j]) {
      HexEndIsRun(s, j + 1);
      assert s[j..HexEnd(s, j)] == [s[j]] + s[j + 1..HexEnd(s, j + 1)];
    }
  }

  /** A run of hex digits followed by a non-hex character ends there. */
  lemma {:induction false} HexEndOfRun(s: string, j: nat, e: nat)
    requires j <= e < |s| && AllHex(s[j..e]) && !IsHex(s[e])
    ensures HexEnd(s, j) == e
    decreases e - j
  {
    if j < e {
      assert s[j] == s[j..e][0];
      assert s[j + 1..e] == s[j..e][1..];
      HexEndOfRun(s, j + 1, e);
    }
  }

  /** `/-([abcdef0-9]+) /` matches at `i`: a dash, hex digits, a space. A
      space is not a hex digit, so the digits are the whole run after the
      dash; a shorter or longer group cannot be followed by the space. */
  predicate DashMatchAt(s: string, i: int) {
    0 <= i < |s| - 1 && s[i] == '-'
    && i + 1 < HexEnd(s, i + 1) < |s| && s[HexEnd(s, i + 1)] == ' '
  }

  /** The leftmost place at or after `i` where `/-([abcdef0-9]+) /`
      matches, or -1. */
  function FirstDashMatch(s: string, i: nat): (k: int)
    requires i <= |s|
    ensures k == -1 || (i <= k && DashMatchAt(s, k))
    ensures forall j :: i <= j < |s| && (k == -1 || j < k) ==> !DashMatchAt(s, j)
    decreases |s| - i
  {
    if i == |s| then -1
    else if DashMatchAt(s, i) then i
    else FirstDashMatch(s, i + 1)
  }

  /** The group of the first match of `/-([abcdef0-9]+) /` (src/updater.rb,
      and Python's `re.findall(...)[0]` in Updater.py): none exactly when
      the pattern matches nowhere, and otherwise the hex run after the dash
      of the leftmost match, which sits between that dash and a space. */
  function DashSha(s: string): (m: Option<string>)
    ensures m.Some? ==> m.value != [] && AllHex(m.value) && IsSubstring("-" + m.value + " ", s)
    ensures m.None? <==> forall j :: 0 <= j < |s| ==> !DashMatchAt(s, j)
    ensures m.Some? ==> exists k :: (DashMatchAt(s, k) && m.value == s[k + 1..HexEnd(s, k + 1)]
                                     && forall j :: 0 <= j < k ==> !DashMatchAt(s, j))
  {
    var k := FirstDashMatch(s, 0);
    if k == -1 then None
    else
      var e := HexEnd(s, k + 1);
      HexEndIsRun(s, k + 1);
      assert s[k..e + 1] == "-" + s[k + 1..e] + " ";
      SubstringAt("-" + s[k + 1..e] + " ", s, k);
      Some(s[k + 1..e])
  }

  /** An uninitialised submodule's status line gives its SHA. */
  lemma DashShaOfUninitialised(sha: string, path: string)
    requires sha != [] && AllHex(sha)
    ensures DashSha("-" + sha + " " + path) == Some(sha)
  {
    var s := "-" + sha + " " + path;
    assert s[1..|sha| + 1] == sha;
    HexEndOfRun(s, 1, |sha| + 1);
    assert DashMatchAt(s, 0);
  }

  /** Without a dash there is no match: src/updater.rb's check is false for
      every initialised submodule (" <sha> <path>" or "+<sha> <path>" with a
      path free of dashes), even one already at the target SHA. */
  lemma DashShaNeedsDash(s: string)
    requires '-' !in s
    ensures DashSha(s) == None
  {
  }

  /** A dash is not enough: in an initialised submodule's line whose path
      holds a dash, as in `src/vendor-lib`, the dash is followed by a
      letter that is not a hex digit, so there is still no SHA. */
  lemma DashedPathHasNoSha(sha: string)
    requires AllHex(sha)
    ensures DashSha(" " + sha + " src/vendor-lib") == None
  {
  }

  /** `\b[0-9a-f]{40}\b` matches at `i`. */
  predicate TokenAt(s: string, i: int) {
    0 <= i && i + 40 <= |s| && AllHex(s[i..i + 40])
    && (i == 0 || !IsWordChar(s[i - 1]))
    && (i + 40 == |s| || !IsWordChar(s[i + 40]))
  }

  /** Leftmost position at or after `i` where the token matches, or -1. */
  function FirstTokenFrom(s: string, i: nat): (k: int)
    requires i <= |s|
    ensures k == -1 || (i <= k && TokenAt(s, k))
    ensures forall j :: i <= j < |s| && (k == -1 || j < k) ==> !TokenAt(s, j)
    decreases |s| - i
  {
    if i + 40 > |s| then -1
    else if TokenAt(s, i) then i
    else FirstTokenFrom(s, i + 1)
  }

  /** `sha_response[/\b[0-9a-f]{40}\b/]` (src/git_commander.rb). */
  function Hex40Token(s: string): Option<string> {
    var k := FirstTokenFrom(s, 0);
    if k < 0 then None else Some(s[k..k + 40])
  }

  /** Whatever the status prefix (`-` uninitialised, `+` diverged, space
      in step), the 40-digit token is the recorded SHA. */
  lemma StatusLineToken(prefix: char, sha: string, rest: string)
    requires prefix == '-' || prefix == '+' || prefix == ' '
    requires |sha| == 40 && AllHex(sha)
    requires rest == [] || rest[0] == ' '
    ensures Hex40Token([prefix] + sha + rest) == Some(sha)
  {
    var s := [prefix] + sha + rest;
    assert !IsHex(s[0]);
    assert !TokenAt(s, 0);
    assert s[1..41] == sha;
    assert TokenAt(s, 1);
    assert FirstTokenFrom(s, 0) == FirstTokenFrom(s, 1) == 1;
  }

  // ---------------------------------------------------------------------------
  // The verbs as functions: the events each issues and what it returns

  datatype Step<T> = Step(events: seq<Event>, out: Outcome<T>)

  /** `@commander.run_command(command)`: no options, so `fail_on_error` is nil. */
  function RunStep(w: World, cwd: string, command: string): Step<string> {
    Step([Ran(cwd, command)], Decide(w.git(cwd, command), FailOnError(None)))
  }

  function BranchListStep(w: World, cwd: string): Step<seq<string>> {
    var run := RunStep(w, cwd, BranchCommand);
    Step(run.events, if run.out.Exit? then run.out.PropagateFailure() else Ok(BranchList(run.out.value)))
  }

  function AssertKnownBranchStep(w: World, cwd: string, branch: string): Step<()> {
    var list := BranchListStep(w, cwd);
    Step(list.events,
      if list.out.Exit? then list.out.PropagateFailure()
      else if branch in list.out.value then Ok(())
      else Exit(1, "Branch " + branch + " is an unknown branch."))
  }

  function CurrentBranchStep(w: World, cwd: string): Step<string> {
    var run := RunStep(w, cwd, CurrentBranchCommand);
    Step(run.events, if run.out.Exit? then run.out.PropagateFailure() else Ok(RubyStrip(run.out.value)))
  }

  /** The events of `before`, then those of `s`, with the outcome of `s`. */
  function After<T>(before: seq<Event>, s: Step<T>): Step<T> {
    Step(before + s.events, s.out)
  }

  /** `checkout_branch`: the branch must be known; it is checked out only
      when it is not already the current one; the result is HEAD's SHA. */
  function CheckoutStep(w: World, cwd: string, branch: string): Step<string> {
    var known := AssertKnownBranchStep(w, cwd, branch);
    if known.out.Exit? then Step(known.events, known.out.PropagateFailure())
    else After(known.events, FromCurrentStep(w, cwd, branch))
  }

  function FromCurrentStep(w: World, cwd: string, branch: string): Step<string> {
    var current := CurrentBranchStep(w, cwd);
    if current.out.Exit? then Step(current.events, current.out.PropagateFailure())
    else After(current.events, SwitchStep(w, cwd, branch, current.out.value))
  }

  function SwitchStep(w: World, cwd: string, branch: string, current: string): Step<string> {
    if branch == current then HeadStep(w, cwd)
    else
      var checkout := RunStep(w, cwd, CheckoutCommand(branch));
      if checkout.out.Exit? then Step(checkout.events, checkout.out.PropagateFailure())
      else After(checkout.events, HeadStep(w, cwd))
  }

  function HeadStep(w: World, cwd: string): Step<string> {
    var head := RunStep(w, cwd, HeadCommand);
    Step(head.events, if head.out.Exit? then head.out.PropagateFailure() else Ok(RubyStrip(head.out.value)))
  }

  function PullStep(w: World, cwd: string, branch: string): Step<string> {
    var known := AssertKnownBranchStep(w, cwd, branch);
    if known.out.Exit? then Step(known.events, known.out.PropagateFailure())
    else
      var pull := RunStep(w, cwd, PullCommand(branch));
      Step(known.events + pull.events, pull.out)
  }

  /** The `git add` of each path, stopping at the first that ends the program. */
  function AddsStep(w: World, cwd: string, paths: seq<string>): Step<()>
    decreases |paths|
  {
    if paths == [] then Step([], Ok(()))
    else
      var before := AddsStep(w, cwd, paths[..|paths| - 1]);
      if before.out.Exit? then before
      else
        var add := RunStep(w, cwd, AddCommand(paths[|paths| - 1]));
        Step(before.events + add.events, if add.out.Exit? then add.out.PropagateFailure() else Ok(()))
  }

  /** `make_git_commit`; `message` is the text before `sub!` removes a quote. */
  function CommitStep(w: World, cwd: string, message: string, paths: seq<string>): Step<string> {
    var adds := AddsStep(w, cwd, paths);
    if adds.out.Exit? then Step(adds.events, adds.out.PropagateFailure())
    else
      var commit := RunStep(w, cwd, CommitCommand(RemoveFirst(message, '\'')));
      Step(adds.events + commit.events, commit.out)
  }

  // ---------------------------------------------------------------------------
  // What the verbs promise

  /** A branch is known exactly when `git branch` ran and one of its lines,
      spaces and stars deleted, is the name; otherwise the program exits 1. */
  lemma KnownBranchIsExactMember(w: World, cwd: string, branch: string)
    ensures var listing := Decide(w.git(cwd, BranchCommand), false);
      (AssertKnownBranchStep(w, cwd, branch).out == Ok(()) <==>
         listing.Ok? && ListsBranch(RubySplitLines(listing.value), branch))
    ensures AssertKnownBranchStep(w, cwd, branch).out.Exit? ==> AssertKnownBranchStep(w, cwd, branch).out.code == 1
    ensures AssertKnownBranchStep(w, cwd, branch).events == [Ran(cwd, BranchCommand)]
  {
    var listing := Decide(w.git(cwd, BranchCommand), false);
    if listing.Ok? {
      StripMarkersMember(RubySplitLines(listing.value), branch);
    }
  }

  /** Some line of `git branch` output names the branch once spaces and
      stars are deleted. */
  predicate ListsBranch(lines: seq<string>, branch: string) {
    exists i :: 0 <= i < |lines| && DeleteChars(lines[i], BranchMarkers) == branch
  }

  lemma {:induction false} StripMarkersMember(lines: seq<string>, branch: string)
    ensures branch in StripMarkers(lines) <==> ListsBranch(lines, branch)
    decreases |lines|
  {
    if lines != [] {
      var init := lines[..|lines| - 1];
      StripMarkersMember(init, branch);
      if ListsBranch(init, branch) {
        var i :| 0 <= i < |init| && DeleteChars(init[i], BranchMarkers) == branch;
        assert DeleteChars(lines[i], BranchMarkers) == branch;
      }
      if ListsBranch(lines, branch) {
        var i :| 0 <= i < |lines| && DeleteChars(lines[i], BranchMarkers) == branch;
        if i < |init| {
          assert DeleteChars(init[i], BranchMarkers) == branch;
        }
      }
    }
  }

  /** The pull asks `git branch` first, and the pull itself is issued
      exactly when the branch is among the branches listed. */
  lemma PullChecksBranchFirst(w: World, cwd: string, branch: string)
    ensures var p := PullStep(w, cwd, branch);
      p.events[0] == Ran(cwd, BranchCommand)
      && (Ran(cwd, PullCommand(branch)) in p.events <==> AssertKnownBranchStep(w, cwd, branch).out.Ok?)
  {
    assert BranchCommand[4] != PullCommand(branch)[4];
  }

  /** Once the branch is known and the current branch read, checkout goes
      on with those two `git` calls behind it. */
  lemma CheckoutAfterChecks(w: World, cwd: string, branch: string)
    requires AssertKnownBranchStep(w, cwd, branch).out.Ok?
    requires CurrentBranchStep(w, cwd).out.Ok?
    ensures CheckoutStep(w, cwd, branch)
      == After([Ran(cwd, BranchCommand), Ran(cwd, CurrentBranchCommand)],
               SwitchStep(w, cwd, branch, CurrentBranchStep(w, cwd).out.value))
  {
    KnownBranchIsExactMember(w, cwd, branch);
  }

  /** Checkout is skipped when git already reports the branch as current,
      and issued first otherwise; either way the result is the stripped
      SHA of HEAD. */
  lemma SwitchIsIdempotent(w: World, cwd: string, branch: string, current: string)
    ensures var s := SwitchStep(w, cwd, branch, current);
      if branch == current then s.events == [Ran(cwd, HeadCommand)]
      else s.events != [] && s.events[0] == Ran(cwd, CheckoutCommand(branch))
    ensures var s := SwitchStep(w, cwd, branch, current);
      s.out.Ok? ==> s.out.value == RubyStrip(Decide(w.git(cwd, HeadCommand), false).value)
  {
  }

  /** Every path is added, in order, then one commit runs with the message
      missing its first single quote only. */
  lemma {:induction false} CommitAddsThenCommits(w: World, cwd: string, message: string, paths: seq<string>)
    requires forall p :: p in paths ==> Decide(w.git(cwd, AddCommand(p)), false).Ok?
    ensures AddsStep(w, cwd, paths).out.Ok?
    ensures AddsStep(w, cwd, paths).events == AddRuns(cwd, paths)
    ensures CommitStep(w, cwd, message, paths).events
      == AddRuns(cwd, paths) + [Ran(cwd, CommitCommand(RemoveFirst(message, '\'')))]
    decreases |paths|
  {
    if paths != [] {
      CommitAddsThenCommits(w, cwd, message, paths[..|paths| - 1]);
    }
  }

  function AddRuns(cwd: string, paths: seq<string>): (r: seq<Event>)
    ensures |r| == |paths| && forall i :: 0 <= i < |paths| ==> r[i] == Ran(cwd, AddCommand(paths[i]))
  {
    if paths == [] then [] else AddRuns(cwd, paths[..|paths| - 1]) + [Ran(cwd, AddCommand(paths[|paths| - 1]))]
  }

  /** Only the first quote goes: a message with two quotes still breaks the
      shell quoting of the commit command. */
  lemma SecondQuoteSurvives(a: string, b: string, c: string)
    requires '\'' !in a && '\'' !in b
    ensures CommitCommand(RemoveFirst(a + "'" + b + "'" + c, '\'')) == "git commit -m'" + a + b + "'" + c + "'"
  {
    FirstQuoteRemoved(a, b, c);
    CommitCommandOf(RemoveFirst(a + "'" + b + "'" + c, '\''), a, b, c);
  }

  lemma FirstQuoteRemoved(a: string, b: string, c: string)
    requires '\'' !in a
    ensures RemoveFirst(a + "'" + b + "'" + c, '\'') == a + b + "'" + c
  {
    var rest := b + "'" + c;
    calc {
      RemoveFirst(a + "'" + b + "'" + c, '\'');
      { assert a + "'" + b + "'" + c == a + ['\''] + rest; }
      RemoveFirst(a + ['\''] + rest, '\'');
      { RemoveFirstKeepsPrefix(a, '\'', rest); }
      a + rest;
      { assert a + rest == a + b + "'" + c; }
      a + b + "'" + c;
    }
  }

  lemma CommitCommandOf(m: string, a: string, b: string, c: string)
    requires m == a + b + "'" + c
    ensures CommitCommand(m) == "git commit -m'" + a + b + "'" + c + "'"
  {
  }

  // ---------------------------------------------------------------------------
  // The verbs as methods on the shared `Command` object

  method GetBranchList(c: Command) returns (r: Outcome<seq<string>>)
    modifies c`trace
    ensures c.trace == old(c.trace) + BranchListStep(c.world, c.cwd).events
    ensures r == BranchListStep(c.world, c.cwd).out
  {
    var output :- c.RunCommand(BranchCommand, None);
    var lines := RubySplitLines(output);
    var parts := new string[|lines|](i requires 0 <= i < |lines| => lines[i]);
    assert parts[..] == lines;
    StripMarkersInPlace(parts);
    r := Ok(parts[..]);
  }

  method AssertKnownBranch(c: Command, branch: string) returns (r: Outcome<()>)
    modifies c`trace
    ensures c.trace == old(c.trace) + AssertKnownBranchStep(c.world, c.cwd, branch).events
    ensures r == AssertKnownBranchStep(c.world, c.cwd, branch).out
  {
    var branchList :- GetBranchList(c);
    if branch !in branchList {
      return Exit(1, "Branch " + branch + " is an unknown branch.");
    }
    r := Ok(());
  }

  method GetCurrentBranchName(c: Command) returns (r: Outcome<string>)
    modifies c`trace
    ensures c.trace == old(c.trace) + CurrentBranchStep(c.world, c.cwd).events
    ensures r == CurrentBranchStep(c.world, c.cwd).out
  {
    var output :- c.RunCommand(CurrentBranchCommand, None);
    r := Ok(RubyStrip(output));
  }

  method CheckoutBranch(c: Command, branch: string) returns (r: Outcome<string>)
    modifies c`trace
    ensures c.trace == old(c.trace) + CheckoutStep(c.world, c.cwd, branch).events
    ensures r == CheckoutStep(c.world, c.cwd, branch).out
  {
    var known := AssertKnownBranch(c, branch);
    if known.Exit? {
      return known.PropagateFailure();
    }
    r := CheckoutFromCurrent(c, branch);
  }

  method CheckoutFromCurrent(c: Command, branch: string) returns (r: Outcome<string>)
    modifies c`trace
    ensures c.trace == old(c.trace) + FromCurrentStep(c.world, c.cwd, branch).events
    ensures r == FromCurrentStep(c.world, c.cwd, branch).out
  {
    var current := GetCurrentBranchName(c);
    if current.Exit? {
      return current.PropagateFailure();
    }
    r := SwitchBranch(c, branch, current.value);
  }

  method SwitchBranch(c: Command, branch: string, currentBranchName: string) returns (r: Outcome<string>)
    modifies c`trace
    ensures c.trace == old(c.trace) + SwitchStep(c.world, c.cwd, branch, currentBranchName).events
    ensures r == SwitchStep(c.world, c.cwd, branch, currentBranchName).out
  {
    if branch != currentBranchName {
      var _ :- c.RunCommand(CheckoutCommand(branch), None);
    }
    r := GetHead(c);
  }

  method GetHead(c: Command) returns (r: Outcome<string>)
    modifies c`trace
    ensures c.trace == old(c.trace) + HeadStep(c.world, c.cwd).events
    ensures r == HeadStep(c.world, c.cwd).out
  {
    var head :- c.RunCommand(HeadCommand, None);
    r := Ok(RubyStrip(head));
  }

  method PullBranchOriginLatest(c: Command, branch: string) returns (r: Outcome<string>)
    modifies c`trace
    ensures c.trace == old(c.trace) + PullStep(c.world, c.cwd, branch).events
    ensures r == PullStep(c.world, c.cwd, branch).out
  {
    var _ :- AssertKnownBranch(c, branch);
    r := c.RunCommand(PullCommand(branch), None);
  }

  method MakeGitCommit(c: Command, message: MutableString, pathsToAdd: Paths) returns (r: Outcome<string>)
    modifies c`trace, message
    ensures var s := CommitStep(c.world, c.cwd, old(message.value), PathsOf(pathsToAdd));
      c.trace == old(c.trace) + s.events && r == s.out
    ensures message.value == if AddsStep(c.world, c.cwd, PathsOf(pathsToAdd)).out.Ok?
      then RemoveFirst(old(message.value), '\'') else old(message.value)
  {
    ghost var t0 := c.trace;
    var _ :- AddEach(c, PathsOf(pathsToAdd));
    ghost var t1 := c.trace;
    message.value := RemoveFirst(message.value, '\'');
    r := c.RunCommand(CommitCommand(message.value), None);
    TraceGrows(t0, t1[|t0|..], c.trace[|t1|..]);
  }

  /** The loop of `make_git_commit`: `git add` for each path in turn. */
  method AddEach(c: Command, paths: seq<string>) returns (r: Outcome<()>)
    modifies c`trace
    ensures var s := AddsStep(c.world, c.cwd, paths); c.trace == old(c.trace) + s.events && r == s.out
  {
    var i := 0;
    while i < |paths|
      invariant 0 <= i <= |paths|
      invariant AddsStep(c.world, c.cwd, paths[..i]).out.Ok?
      invariant c.trace == old(c.trace) + AddsStep(c.world, c.cwd, paths[..i]).events
    {
      var added := c.RunCommand(AddCommand(paths[i]), None);
      assert paths[..i + 1][..i] == paths[..i];
      if added.Exit? {
        AddsStopAtFailure(c.world, c.cwd, paths, i + 1);
        return added.PropagateFailure();
      }
      i := i + 1;
    }
    assert paths[..i] == paths;
    OkIsUnit(AddsStep(c.world, c.cwd, paths).out);
    r := Ok(());
  }

  /** Once an add has ended the program, later paths add nothing. */
  lemma {:induction false} AddsStopAtFailure(w: World, cwd: string, paths: seq<string>, n: nat)
    requires n <= |paths| && AddsStep(w, cwd, paths[..n]).out.Exit?
    ensures AddsStep(w, cwd, paths) == AddsStep(w, cwd, paths[..n])
    decreases |paths| - n
  {
    if n < |paths| {
      assert paths[..n + 1][..n] == paths[..n];
      AddsStopAtFailure(w, cwd, paths, n + 1);
    } else {
      assert paths[..n] == paths;
    }
  }
}
