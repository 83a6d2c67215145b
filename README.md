# gitup_console, modelled in Dafny

gitup_console updates one git submodule (the "target submodule") across
many repositories. The user picks repositories from a numbered menu. The
tool clones the target submodule's repository and reads the SHA at the
head of its target branch. Then, in every chosen repository whose
submodule is behind that SHA, it initialises the submodule, pulls the
target branch inside it, commits the new submodule reference and pushes.

The model covers:

- the Ruby updater (`src/updater.rb`), the git verbs it shares with
  `src/git_commander.rb`, and the shell runner `src/command.rb`;
- the settings index (`src/settings.rb`);
- the hand-written command-line parser (`src/command_line_args.rb`);
- the report view model (`src/templates/report_results.rb`);
- the earlier Python updater (`Updater.py`).

Its selection, branch-check and SHA rules differ from the Ruby ones, and the
lemmas state those differences.

Everything outside the program is an oracle:

- git is a function from a working directory and a command to what it
  prints (Ruby: exit status, stdout and stderr; Python: stdout, or
  nothing when `Popen` raised);
- the filesystem is a path-exists test seen from a directory;
- standard input is the list of lines still to be read.

Each object is a class. Its state is the working directory, the record of
events issued (commands run, directories entered, the build directory
reset, the dry-run push line), and the input left. Each method is proved
against a function that gives that record and the outcome. `exit`,
`sys.exit()` and uncaught exceptions become `Exit(status, reason)`.

Files:

- `wrappers.dfy`: `Option` and `Outcome`.
- `text.dfy`: the Ruby and Python string operations the core uses.
- `config.dfy`: the settings hash.
- `command.dfy`: `Command#run_command`.
- `git_verbs.dfy`: the git verbs shared by both Ruby objects.
- `updater.dfy`: `Updater` in Ruby.
- `git_commander.dfy`: `GitCommander`.
- `settings.dfy`: `Settings`.
- `command_line_args.dfy`: `CommandLineArgs`.
- `report_results.dfy`: `ReportResults`.
- `legacy_updater.dfy`: `Updater.py`.

## Model

| member | source | states |
|---|---|---|
| Command.FailOnError | src/command.rb:18 | `options[:fail_on_error] \|\|= false`: the flag is set exactly when the option is `true`; nil and false both mean off |
| Command.Decide | src/command.rb:22-37 | the command ends the program (status 1) exactly when the exit status is missing, or non-zero with stderr, or non-zero with fail-on-error; on status 0 the result is stderr then stdout, otherwise stdout |
| Command.StderrOnFailureAlwaysAborts | src/command.rb:26-28 | a failing command with output on stderr exits 1 with that text whatever `fail_on_error` says |
| Command.Command.constructor | src/command.rb:6-8 | a runner with the verbosity given, nothing run yet |
| Command.Command.RunCommand | src/command.rb:17-39 | one command is recorded in the current directory and the outcome is `Decide` of what git returns |
| Command.Command.ChangeDir | src/updater.rb:129 | `FileUtils.chdir` moves to the path and is recorded |
| Command.Command.ResetDir | src/updater.rb:104-110 | the build directory removal and re-creation is recorded |
| Command.Command.AnnounceDryRun | src/updater.rb:250 | the push line that is printed instead of run is recorded |
| GitVerbs.StripMarkers | src/updater.rb:186 | one stripped line per line of `git branch` output |
| GitVerbs.StripMarkersInPlace | src/updater.rb:186 | `collect!` rewrites the array in place to the lines with spaces and stars deleted |
| GitVerbs.MarkedLineNamesBranch | src/updater.rb:186 | a `* ` or `  ` prefix in front of a branch name is deleted, leaving the name |
| GitVerbs.StripMarkersMember | src/updater.rb:182-187 | a name is in the branch list exactly when some output line, spaces and stars deleted, equals it |
| GitVerbs.DashSha | src/updater.rb:206-207 | none exactly when `-<hex> ` matches nowhere in the status text; otherwise the group of the leftmost match, a non-empty run of lower-case hex digits that occurs between a dash and a space |
| GitVerbs.DashShaOfUninitialised | src/updater.rb:205-208 | the status line of an uninitialised submodule, `-<sha> <path>`, yields `<sha>` |
| GitVerbs.FirstDashMatch | src/updater.rb:206 | the position found is where `-<hex> ` matches (the whole hex run after a dash, then a space), and no earlier position matches |
| GitVerbs.DashShaNeedsDash | src/updater.rb:206-208 | status text without a dash yields no SHA |
| GitVerbs.DashedPathHasNoSha | src/updater.rb:206-208 | a dash alone does not match: the line ` <sha> src/vendor-lib` yields no SHA |
| GitVerbs.FirstTokenFrom | src/git_commander.rb:92 | the position found holds a 40-hex word with word boundaries, and no earlier position does |
| GitVerbs.StatusLineToken | src/git_commander.rb:91-92 | whatever the status prefix (`-`, `+` or space), the 40-hex word found is the recorded SHA |
| GitVerbs.KnownBranchIsExactMember | src/updater.rb:170-187 | the branch check passes exactly when `git branch` succeeded and one of its lines, spaces and stars deleted, is the name; it fails with status 1; it runs only `git branch` |
| GitVerbs.PullChecksBranchFirst | src/updater.rb:221-225 | a pull asks `git branch` first, and the pull command is issued exactly when the branch check passed |
| GitVerbs.CheckoutAfterChecks | src/updater.rb:156-158 | once the branch is known and the current branch read, checkout continues after exactly those two git calls |
| GitVerbs.SwitchIsIdempotent | src/updater.rb:159-166 | checking out the current branch issues no `git checkout`; another branch is checked out first; the result is the stripped SHA of HEAD |
| GitVerbs.CommitAddsThenCommits | src/updater.rb:230-238 | when every add succeeds, each path is added in order, then one commit runs with the first quote removed from the message |
| GitVerbs.SecondQuoteSurvives | src/updater.rb:237-238 | only the first quote is removed, so a second quote still ends up inside the shell-quoted commit command |
| GitVerbs.FirstQuoteRemoved | src/updater.rb:237 | `sub!` removes the first quote and keeps the text on either side |
| GitVerbs.GetBranchList | src/updater.rb:182-187 | the record and outcome are those of `BranchListStep`: run `git branch`, split into lines, delete markers |
| GitVerbs.AssertKnownBranch | src/updater.rb:170-179 | the record and outcome are those of the branch check |
| GitVerbs.GetCurrentBranchName | src/updater.rb:191-197 | the record and outcome are those of `git rev-parse --abbrev-ref HEAD`, stripped |
| GitVerbs.CheckoutBranch | src/updater.rb:156-167 | the record and outcome are those of `CheckoutStep`: the branch check, the current-branch query, the conditional checkout, then HEAD |
| GitVerbs.CheckoutFromCurrent | src/updater.rb:158-166 | the part of checkout after the branch check |
| GitVerbs.SwitchBranch | src/updater.rb:159-166 | the checkout is run only for a branch other than the current one, then HEAD is read |
| GitVerbs.GetHead | src/updater.rb:166 | the stripped output of `git rev-parse HEAD` |
| GitVerbs.PullBranchOriginLatest | src/updater.rb:221-225 | the record and outcome are those of the branch check followed by the pull |
| GitVerbs.MakeGitCommit | src/updater.rb:230-239 | every path is added and then the commit runs; the shared message loses its first quote exactly when all adds succeeded |
| GitVerbs.AddEach | src/updater.rb:234-236 | the adds run one path at a time, stopping at the first that ends the program |
| GitVerbs.AddsStopAtFailure | src/updater.rb:234-236 | once an add has ended the program, the later paths add nothing |
| GitCommander.OrDefault | src/git_commander.rb:9-10 | `settings[key] \|\| default`: the setting when present, the default otherwise |
| GitCommander.LogCommand | src/git_commander.rb:17-21 | the log command starts with `git log <format>` and has exactly the length of its parts |
| GitCommander.LogCountArgument | src/git_commander.rb:18 | the count argument is empty exactly when no count is given; a non-negative count is read back from `-<n>` |
| GitCommander.DefaultLogCommand | src/git_commander.rb:9-20 | with the default settings and no endpoints, the log command shows 5 entries as a graph |
| GitCommander.CloneTargetIsRepoName | src/git_commander.rb:27-29 | with space-free paths the shell sees `git clone <source> <dest>`, and the basename of the destination is the repository name |
| GitCommander.TokenSeesInitialisedSubmodule | src/git_commander.rb:87-92 | for an initialised, in-step submodule this object reads the SHA, where the dash rule of src/updater.rb reads nothing |
| GitCommander.Discard | src/git_commander.rb:31 | a verb whose output only goes to the logger succeeds exactly when its command did |
| GitCommander.GitCommander.constructor | src/git_commander.rb:6-13 | base path and build directory copied; log format and length default when the settings lack them |
| GitCommander.GitCommander.ShowGitLog | src/git_commander.rb:17-21 | runs exactly `LogCommand` of the object's format, the count and the endpoints |
| GitCommander.GitCommander.CloneRepoTo | src/git_commander.rb:26-32 | runs the clone command into the target directory |
| GitCommander.GitCommander.CheckoutBranch | src/git_commander.rb:37-50 | the same record and outcome as the shared checkout |
| GitCommander.GitCommander.AssertKnownBranch | src/git_commander.rb:53-62 | the same record and outcome as the shared branch check |
| GitCommander.GitCommander.GetBranchList | src/git_commander.rb:65-71 | the same record and outcome as the shared branch list |
| GitCommander.GitCommander.GetCurrentBranchName | src/git_commander.rb:75-82 | the same record and outcome as the shared current-branch query |
| GitCommander.GitCommander.SubmoduleUpToDate | src/git_commander.rb:87-93 | runs `git submodule status <p> <p>` and compares the first 40-hex word with the target |
| GitCommander.GitCommander.InitSubmodule | src/git_commander.rb:96-99 | runs `git submodule update --init` with no path check |
| GitCommander.GitCommander.PullBranchOriginLatest | src/git_commander.rb:104-108 | the branch check then the pull |
| GitCommander.GitCommander.MakeGitCommit | src/git_commander.rb:113-122 | the adds then the commit, and the message loses its first quote exactly when all adds succeeded |
| GitCommander.GitCommander.PushToOrigin | src/git_commander.rb:126-130 | the push is really run, with no branch check and no question |
| Updater.MenuListsEveryRepo | src/updater.rb:29-35 | every known repository appears on the menu as `  <i+2>) <name>` |
| Updater.RubyMenuIndices | src/updater.rb:40 | one index per distinct digit run of the line |
| Updater.MinusTwo | src/updater.rb:40 | each digit run becomes its value less 2 |
| Updater.MenuNumberSelectsRepo | src/updater.rb:29-40 | typing back the number printed for repository `i` selects index `i` |
| Updater.Select | src/updater.rb:41-54 | the selection loop keeps the requested list equal to the known list once ALL is chosen, and the known list only grows at its end |
| Updater.Picked | src/updater.rb:48-49 | only known repositories are picked |
| Updater.SelectWithoutAll | src/updater.rb:42-54 | without ALL, the requested list gains the repositories at the in-range indices, in input order, and the known list is unchanged |
| Updater.SelectWithAll | src/updater.rb:43-47 | at the first ALL the requested list becomes the known list itself, as the indices before it left it, and no index after it is read |
| Updater.UnknownIndicesSelectNothing | src/updater.rb:51-52 | indices that are neither ALL nor in range change nothing |
| Updater.Updater.constructor | src/updater.rb:8-14 | settings and verbosity kept, nothing requested or queued |
| Updater.Updater.HaveReposToClone | src/updater.rb:24-26 | true exactly when something was requested |
| Updater.Updater.GetMenu | src/updater.rb:29-35 | the menu is the ALL line followed by one numbered line per known repository |
| Updater.Updater.GetMenuInput | src/updater.rb:37-56 | at end of input the program exits; otherwise the new selection is `Select` of the line's indices, with the bound read before the loop |
| Updater.Updater.PrepBuild | src/updater.rb:104-110 | the build directory is reset |
| Updater.Updater.CloneRepoTo | src/updater.rb:115-121 | runs the clone command |
| Updater.Updater.AssertPathExists | src/updater.rb:145-151 | passes exactly when the path exists as seen from the current directory; exits 1 otherwise |
| Updater.Updater.ChdirToRepo | src/updater.rb:125-130 | enters `<build_dir>/<name>` when it exists, exits 1 otherwise |
| Updater.Updater.ChdirToRepoSubmodule | src/updater.rb:135-140 | enters the repository's submodule directory when it exists, exits 1 otherwise |
| Updater.Updater.SubmoduleUpToDate | src/updater.rb:202-209 | runs the status command; up to date exactly when the dash SHA equals the target |
| Updater.Updater.InitSubmodule | src/updater.rb:212-216 | checks the path, then runs the init |
| Updater.Updater.PushToOrigin | src/updater.rb:243-251 | checks and enters the repository, checks the branch, then only announces the push |
| Updater.Updater.CloneAndCheckout | src/updater.rb:76-78 | clone, enter, check out; the result is HEAD's SHA |
| Updater.Updater.CommitRepo | src/updater.rb:86-87 | back in the repository, commit the submodule reference |
| Updater.Updater.UpdateSubmodule | src/updater.rb:83-87 | init, enter the submodule, pull the target branch, commit |
| Updater.Updater.CheckRepo | src/updater.rb:80-89 | a repository at the target is left alone; one behind is updated |
| Updater.Updater.ProcessRepo | src/updater.rb:75-89 | one requested repository, as `RepoStep` |
| Updater.Updater.UpdateRequestedRepos | src/updater.rb:74-90 | the loop over requested repositories; the push queue grows by exactly what the loop function queues |
| Updater.Updater.PushQueued | src/updater.rb:91-99 | asks only when something is queued; pushes only on a yes |
| Updater.Updater.PushEach | src/updater.rb:95-97 | the push loop over the queue, stopping at the first failure |
| Updater.Updater.ProcessRepos | src/updater.rb:59-100 | the whole of `process_repos`: read the message, reset the build directory, find the target SHA, update, push |
| Updater.Updater.UpdateFromTarget | src/updater.rb:67-99 | the target SHA first, then the repositories and pushes |
| Updater.Updater.UpdateThenPush | src/updater.rb:74-99 | the repositories, then the pushes |
| Updater.StaleOnes | src/updater.rb:80 | the requested repositories reported behind the target, in request order |
| Updater.RepoQueuedIffStale | src/updater.rb:80-88 | a repository handled without error is queued exactly when it is behind |
| Updater.UpToDateRepoIsLeftAlone | src/updater.rb:80-81 | a repository at the target gets only the status query after its checkout, and the message is untouched |
| Updater.RepoUsesMessageOnce | src/updater.rb:237 | each repository removes at most the first quote from the shared message, and a skipped one removes none |
| Updater.ReposQueueStale | src/updater.rb:74-90 | the loop queues exactly the stale repositories after those already queued |
| Updater.ProcessQueuesStaleRepos | src/updater.rb:59-90 | after a run without error, the push queue is what it held before followed by exactly the requested repositories behind the target SHA |
| Updater.RepoCommitsBeforeQueued | src/updater.rb:83-88 | a repository is queued for a push only after its submodule was added and committed inside it: those are its last two commands, the commit carrying the message less its first quote |
| Updater.ReposFromGrows | src/updater.rb:74-90 | the loop only appends, to the commands run and to the push queue |
| Updater.ReposCommitQueued | src/updater.rb:74-90 | every repository the loop queues was added and committed, the commit right after the add, in the commands it ran |
| Updater.ProcessCommitsEveryQueued | src/updater.rb:59-90 | after a run without error, every repository newly in the push queue had its submodule added and committed in its own directory |
| Updater.ProcessStartsWithTarget | src/updater.rb:61-69 | the build directory is reset first, and the target's clone and checkout come next |
| Updater.PushOneAnnounces | src/updater.rb:243-251 | a push is announced once, and only when every check passed |
| Updater.PushEachAnnouncesInOrder | src/updater.rb:95-97 | the pushes are announced in queue order, each once |
| Updater.PushOnlyOnYes | src/updater.rb:91-98 | nothing is pushed unless something was queued and the answer reads `Y`; on that answer all queued repositories are pushed in order |
| SettingsIndex.SubmoduleNamesAreBasenames | src/settings.rb:28-30 | a name is among a repository's submodule names exactly when it is the basename of one of its paths |
| SettingsIndex.AddPathsKnown | src/settings.rb:28-31 | one repository's paths add exactly their basenames to the known set, and the map's keys stay the known set |
| SettingsIndex.AddPathsEntry | src/settings.rb:28-31 | after one repository's paths, the entries for its submodule names hold it under its name and all other entries are unchanged |
| SettingsIndex.ScanKnownSubmodules | src/settings.rb:24-35 | the known set is exactly the names of all submodules of all repositories, and the map has an entry for exactly those names |
| SettingsIndex.ScanRecordsHolders | src/settings.rb:24-35 | under a submodule name, a repository name is recorded exactly when a repository of that name holds such a submodule |
| SettingsIndex.ScanKeepsLastHolder | src/settings.rb:31 | the repository recorded is the last one, in settings order, of that name holding that submodule |
| SettingsIndex.Settings.constructor | src/settings.rb:7-11 | path kept, index not yet read |
| SettingsIndex.Settings.Good | src/settings.rb:14-22 | a missing file and an unparseable file end the program with their messages and leave the fields alone; a parsed file stores and returns its index |
| SettingsIndex.Settings.Scan | src/settings.rb:24-35 | the nested loops produce exactly `ScanSpec` of the repositories |
| CommandLineArgs.OptionStrings | src/command_line_args.rb:5-7 | one `--name` or `--name=<value>` per option, in declaration order |
| CommandLineArgs.UsageListsEveryOption | src/command_line_args.rb:3-10 | when no option name holds a space, the words of the usage line are exactly the option strings |
| CommandLineArgs.WithoutDashes | src/command_line_args.rb:16 | one leading `--` is removed, and nothing else changes |
| CommandLineArgs.ApplyArg | src/command_line_args.rb:16-29 | an argument is accepted exactly when it names a declared option; otherwise the program exits 1; the options stay the same set |
| CommandLineArgs.DashesAreOptional | src/command_line_args.rb:16 | `--name` and `name` have the same effect |
| CommandLineArgs.KeyValueRecordsValue | src/command_line_args.rb:17-27 | `--key=value` for a declared key marks it found and records the value |
| CommandLineArgs.EmptyValueRecordsNil | src/command_line_args.rb:18-20 | `--key=` records nil, since the split drops the trailing empty field |
| CommandLineArgs.ParseSucceedsIffAllDeclared | src/command_line_args.rb:14-29 | parsing succeeds exactly when every argument names a declared option; a failure exits 1; the option set is kept |
| CommandLineArgs.ParseMarksMentioned | src/command_line_args.rb:22-24 | after parsing, an option is found exactly when it was found before or some argument names it; unnamed options are unchanged |
| CommandLineArgs.ParseKeepsLastValue | src/command_line_args.rb:17-21 | the value an option ends with comes from the last `key=value` argument for it |
| CommandLineArgs.ParseFirstValueKept | src/command_line_args.rb:17-21 | a value set by the first argument survives when no later argument sets that option again |
| CommandLineArgs.ParseKeepsValue | src/command_line_args.rb:17-27 | options never given a value keep the value they had |
| CommandLineArgs.Options.constructor | src/command_line_args.rb:13 | the options hash with its keys in declaration order |
| CommandLineArgs.Arguments.constructor | src/command_line_args.rb:14-15 | `ARGV` holding the given arguments |
| CommandLineArgs.ParseCmdLineArgs | src/command_line_args.rb:13-32 | the options are updated as `ParseFrom` says, the same hash is returned, `ARGV` is cleared; on an invalid option the program exits 1 |
| CommandLineArgs.ParseArg | src/command_line_args.rb:16-29 | one argument updates its row in place as `ApplyArg` says |
| ReportResults.ProcessedClassifies | src/templates/report_results.rb:22-27 | the keys are exactly the known repository names; a repository is current exactly when its name is among the up-to-date modules |
| ReportResults.EveryRepoHasItsStatus | src/templates/report_results.rb:24-26 | every known repository has the status its name calls for |
| ReportResults.ReportResults.constructor | src/templates/report_results.rb:10-16 | arguments kept, then the map is built |
| ReportResults.ReportResults.Process | src/templates/report_results.rb:22-27 | the map is rebuilt from scratch as `Processed` |
| LegacyUpdater.MenuShowsEveryRepo | Updater.py:27-33 | every known name appears on the menu under the number that selects it, verbose or not |
| LegacyUpdater.PyMenuIndices | Updater.py:38-39 | one index per digit run, repeats kept |
| LegacyUpdater.RepeatsAreKept | Updater.py:38-39 | a number typed twice selects its repository twice, where src/updater.rb selects it once |
| LegacyUpdater.PySelect | Updater.py:41-52 | the selection keeps the chosen list equal to the known list once ALL is chosen, and the known list only grows at its end |
| LegacyUpdater.SelectWithoutAll | Updater.py:47-51 | without ALL, the names at the in-range indices are appended in input order and the known list is untouched |
| LegacyUpdater.AliasedStaysAliased | Updater.py:44-48 | after ALL, every later index appends to the settings list itself |
| LegacyUpdater.SelectContinuesAfterAll | Updater.py:43-46 | ALL does not end the loop: the indices after it are still read |
| LegacyUpdater.AllThenFirstGrowsKnown | Updater.py:44-48 | ALL then `2` appends the first name to the settings list |
| LegacyUpdater.StripList | Updater.py:119-120 | one stripped element per element |
| LegacyUpdater.StripListPadded | Updater.py:119-120 | each element is the original with only charset characters cut from either end, and neither end is a charset character |
| LegacyUpdater.AnyContains | Updater.py:104 | true exactly when the branch name occurs inside some listed branch |
| LegacyUpdater.PrefixCountsAsKnown | Updater.py:104 | a prefix of a listed branch passes the check |
| LegacyUpdater.CloneAsksFirst | Updater.py:86-93 | every clone asks first: end of input raises, an answer other than `y`/`Y` exits before anything runs, a yes runs the clone |
| LegacyUpdater.KnownBranchIsSubstring | Updater.py:102-117 | with both git commands answering, the check passes exactly when the name is a substring of some stripped branch line, fails with status 0, and runs fetch then branch |
| LegacyUpdater.CheckoutAlwaysIssued | Updater.py:143-152 | the checkout is issued exactly when the branch check passed, right after it, even for the current branch |
| LegacyUpdater.InitialisedSubmoduleCrashes | Updater.py:194-196 | status output without a dash has no match and `pop(0)` raises |
| LegacyUpdater.UninitialisedSubmoduleCompared | Updater.py:190-197 | for `-<sha> <path>`, up to date exactly when `<sha>` is the target |
| LegacyUpdater.RepoAtTargetCrashes | Updater.py:213-225 | a repository already at the target is not skipped: the warning raises, the run ends with status 1 after clone, chdir and status, and nothing is pushed |
| LegacyUpdater.RepoEndsWithPush | Updater.py:213-222 | a repository that goes through ends with `git push origin development` from its own directory |
| LegacyUpdater.ReposFromPushesEach | Updater.py:213-222 | when the loop ends well, every selected repository was pushed to `development` |
| LegacyUpdater.ProcessPushesEverySelected | Updater.py:199-222 | a run of `process_repos` that ends well pushed every selected repository to `development` |
| LegacyUpdater.Updater.constructor | Updater.py:10-12 | settings and verbosity kept, nothing run yet |
| LegacyUpdater.Updater.GetMenu | Updater.py:27-33 | the menu is the ALL line, one numbered line per known name, and the note when verbose |
| LegacyUpdater.Updater.GetMenuInput | Updater.py:35-39 | at end of input `EOFError`; otherwise one line is consumed and its indices returned |
| LegacyUpdater.Updater.RawInput | Updater.py:36 | the next input line, or `EOFError` at end of input |
| LegacyUpdater.Updater.GetReposToProcess | Updater.py:41-52 | the chosen list and the (possibly grown) known list are those of `PySelect` |
| LegacyUpdater.Updater.Command | Updater.py:54-69 | the command is recorded; its stdout is returned, and a `Popen` failure exits with status 0 |
| LegacyUpdater.Updater.AssertPathExists | Updater.py:71-75 | passes exactly when the path exists; `sys.exit()` otherwise |
| LegacyUpdater.Updater.PrepBuild | Updater.py:77-84 | the build directory is removed and re-created |
| LegacyUpdater.Updater.PromptUserToContinue | Updater.py:137-141 | consumes one line and goes on exactly on `y` or `Y` |
| LegacyUpdater.Updater.CloneRepo | Updater.py:86-93 | asks, then runs the clone |
| LegacyUpdater.Updater.ChdirTo | Updater.py:154-158 | enters an existing path, `sys.exit()` otherwise |
| LegacyUpdater.Updater.ChdirToRepo | Updater.py:154-158 | enters `<BUILD_DIR>/<name>` |
| LegacyUpdater.Updater.ChdirToRepoSubmodule | Updater.py:160-164 | enters `<BUILD_DIR>/<name>/<relative path>` |
| LegacyUpdater.Updater.GetBranchList | Updater.py:111-117 | fetch, branch, split lines, strip spaces and stars |
| LegacyUpdater.Updater.AssertKnownBranch | Updater.py:102-109 | the substring check on the branch list |
| LegacyUpdater.Updater.CheckoutBranch | Updater.py:143-152 | the branch check, the checkout, and the stripped SHA of HEAD |
| LegacyUpdater.Updater.SubmoduleUpToDate | Updater.py:190-197 | the first dash SHA against the target; no match raises |
| LegacyUpdater.Updater.InitSubmodule | Updater.py:130-135 | checks the path, then runs the init |
| LegacyUpdater.Updater.PullBranchOriginLatest | Updater.py:95-100 | the branch check, then the pull |
| LegacyUpdater.Updater.MakeCommit | Updater.py:166-176 | every path added in order, one question, then the commit |
| LegacyUpdater.Updater.PushToOrigin | Updater.py:178-184 | runs the push of the branch |
| LegacyUpdater.Updater.Message | Updater.py:14-25 | a `warning` or `error` message raises, since `self.colorizer` is never set; other messages go on |
| LegacyUpdater.Updater.ProcessRepo | Updater.py:213-225 | one selected repository, as `RepoStep` |
| LegacyUpdater.Updater.EnterRepo | Updater.py:215-225 | enter the repository, then check it |
| LegacyUpdater.Updater.CheckRepo | Updater.py:216-225 | behind: update; up to date: the warning raises |
| LegacyUpdater.Updater.UpdateRepo | Updater.py:217-222 | init the submodule, then the rest |
| LegacyUpdater.Updater.UpdateInSubmodule | Updater.py:218-222 | enter the submodule, pull, then commit and push |
| LegacyUpdater.Updater.CommitAndPush | Updater.py:220-222 | back in the repository, commit, push to `development` |
| LegacyUpdater.Updater.ProcessEach | Updater.py:213-225 | the loop over the selected names, stopping at the first that ends the program |
| LegacyUpdater.Updater.ProcessRepos | Updater.py:199-225 | the whole of `process_repos` as `ProcessSpec` |
| LegacyUpdater.Updater.CloneTarget | Updater.py:207-209 | clone the target submodule's repository, then the rest |
| LegacyUpdater.Updater.TargetSha | Updater.py:208-213 | enter it, read the SHA of the target branch, then the loop |
| Text.DigitRuns | src/updater.rb:40 | every run found is non-empty and all digits |
| Text.DigitRunsSplit | src/updater.rb:40 | a non-digit separates runs: the runs of `a c b` are those of `a` then those of `b` |
| Text.DigitRunsOfNumber | src/updater.rb:40 | a number written in digits is one run |
| Text.NatToStringRoundTrip | src/updater.rb:32 | reading back a printed number gives the number |
| Text.Uniq | src/updater.rb:40 | `uniq` keeps the same elements, without repeats, and is no longer |
| Text.UniqOfDistinct | src/updater.rb:40 | a sequence without repeats is its own `uniq` |
| Text.Chomp | src/updater.rb:40 | `chomp` returns the text or a prefix of it, cutting only line-end characters |
| Text.ChompLine | src/updater.rb:61 | a typed line comes back without its terminator |
| Text.StripChars | Updater.py:120 | neither end of the result is a character of the set |
| Text.StripCharsPadded | Updater.py:120 | the result is the middle of the text, with only characters of the set cut from either end |
| Text.StripCharsClean | src/updater.rb:166 | text with nothing to strip at either end is unchanged |
| Text.DeleteChars | src/updater.rb:186 | `tr(' *', '')` leaves none of the characters and is no longer |
| Text.DeleteCharsConcat | src/updater.rb:186 | deletion works piece by piece |
| Text.DeleteCharsNone | src/updater.rb:186 | text without any such character is unchanged |
| Text.Upcase | Updater.py:139 | each character upper-cased in place |
| Text.UpcaseIsY | Updater.py:139 | the prompts accept exactly `y` and `Y` |
| Text.SplitOn | src/command_line_args.rb:18 | at least one field, none containing the separator |
| Text.SplitJoinRoundTrip | src/command_line_args.rb:18 | joining the fields with the separator gives the text back |
| Text.SplitOnNoSeparator | src/command_line_args.rb:18 | text without the separator is one field |
| Text.SplitOnFirstSeparator | src/command_line_args.rb:18 | the first separator ends the first field |
| Text.JoinSplitRoundTrip | src/command_line_args.rb:8 | splitting joined fields that lack the separator gives the fields back |
| Text.DropTrailingEmpty | src/command_line_args.rb:18 | only empty fields at the end are dropped |
| Text.RubySplitLines | src/updater.rb:184 | lines hold no newline and the last is not empty |
| Text.PythonSplitLines | Updater.py:117 | lines hold no line-end character |
| Text.SubstringIff | Updater.py:104 | `sub in s` holds exactly when `sub` occurs at some position of `s` |
| Text.RemoveFirst | src/updater.rb:237 | one character shorter when the character occurs, unchanged otherwise |
| Text.RemoveFirstCounts | src/updater.rb:237 | exactly one occurrence goes and every other character stays |
| Text.RemoveFirstKeepsPrefix | src/updater.rb:237 | the text before the first occurrence is untouched |
| Text.BasenameOfJoin | src/settings.rb:29 | the basename of `dir/name` is `name` |
| Text.IntToString | src/git_commander.rb:18 | the printed number starts with a digit exactly when it is not negative |

## Left out

- Terminal output is not modelled: `puts`, `print`, `verbose`, `colorize`, the `stdout` logger of `GitCommander`, and the texts of `message`. Only output that decides what happens next is kept: exits, the dry-run push line, and the `message` kinds that raise.
- Git and the filesystem are stateless oracles. A later answer does not depend on what earlier commands did, such as a clone creating a directory or a pull moving a submodule.
- The working directory is the last path entered, as written. Resolving a relative path against the previous directory is left to the oracle.
- Standard input is a list of lines. The Ruby `gets` calls are passed their line, or none at end of input. The Python `raw_input` calls consume the `stdin` field.
- `run_command` writes `fail_on_error` back into the caller's hash (src/command.rb:18). No caller passes that hash, so only the flag's value is modelled.
- `@have_repos_to_clone` is written in `get_menu_input` but never read; `have_repos_to_clone?` reads the requested list, as modelled.
- `rm_rf`/`mkdir` and `rmtree`/`mkdir` are one event each. Their own failures are not modelled.
- SettingsIndex.Settings.Good: for a file without `known_repos` the contract only says the program ends, not with which message. The file contents are given as already parsed; YAML parsing is not modelled.
- Git exit statuses in `Updater.py` are ignored, as the source ignores them. Standard error is never piped, so the `if error:` branch of `command` cannot fire and is not modelled.
- `get_repo_origin_branch_head_sha` and `test_for_need_to_update_submodule` in `Updater.py` are not modelled. No code calls them, the first ends without a result, and the second only builds a list.
- The `%s`-style message texts of the exits are kept only where a contract states them.
- Ruby `sub(/^--/, '')` anchors at any line start. The model removes `--` only at the start of the argument; a command-line argument holds no newline.
- Everything else in the repository is not part of this model: the entry scripts run.rb, report.rb and run.py (run.py passes three arguments to the two-argument `Updater.__init__`), the report template, src/html_mailer.rb, src/repo.rb, src/stdout.rb, Colors.py, Console.py, settings.dist.py and the tests.
