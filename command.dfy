/** src/command.rb: running one shell command and deciding, from its exit
    status and captured streams, whether the program goes on or exits. */
module Command {
  import opened Wrappers
  import opened Text

  /** What `Open3.capture3` hands back. `exitStatus` is `None` when the
      process was ended by a signal, where Ruby reports a nil exit status. */
  datatype Captured = Captured(exitStatus: Option<nat>, stdout: string, stderr: string)

  /** Everything outside the program, as an oracle: what git prints for a
      command line run in a directory, and whether a path exists, seen from
      a directory (`File.file?` or `File.directory?`). */
  datatype World = World(git: (string, string) -> Captured, pathExists: (string, string) -> bool)

  /** What the programs do to the outside world, in order. */
  datatype Event =
    | Ran(cwd: string, command: string)        // a command given to the shell
    | ChangedDir(path: string)                 // `FileUtils.chdir`
    | ResetBuildDir(path: string)              // `rm_rf` then `mkdir` of the build directory
    | WouldRun(cwd: string, command: string)   // the dry-run line printed instead of a push

  /** `options[:fail_on_error] ||= false`: nil and false both mean false. */
  function FailOnError(option: Option<bool>): (flag: bool)
    ensures flag <==> option == Some(true)
  {
    match option
    case Some(b) => b
    case None => false
  }

  /** The cases in which `run_command` ends the program. */
  predicate Aborts(c: Captured, failOnError: bool) {
    c.exitStatus.None? || (c.exitStatus.value > 0 && (c.stderr != "" || failOnError))
  }

  /** The decision `run_command` makes once the command has finished:
      either the text it returns or `exit 1`. */
  function Decide(c: Captured, failOnError: bool): (r: Outcome<string>)
    ensures r.Exit? <==> Aborts(c, failOnError)
    ensures r.Exit? ==> r.code == 1
    ensures c.exitStatus == Some(0) ==> r == Ok(c.stderr + c.stdout)
    ensures r.Ok? && c.exitStatus != Some(0) ==> r.value == c.stdout
  {
    match c.exitStatus
    case None => Exit(1, "undefined method `>' for nil")
    case Some(status) =>
      if status == 0 then Ok(c.stderr + c.stdout)
      else if c.stderr != "" then Exit(1, c.stderr)
      else if failOnError then Exit(1, "received exit code: " + NatToString(status))
      else Ok(c.stdout)
  }

  /** A failing command with something on stderr always ends the program,
      whatever `fail_on_error` says. */
  lemma StderrOnFailureAlwaysAborts(status: nat, out: string, err: string, option: Option<bool>)
    requires status > 0 && err != ""
    ensures Decide(Captured(Some(status), out, err), FailOnError(option)) == Exit(1, err)
  {
  }

  /** Events recorded in two stretches read as one stretch. */
  lemma TraceGrows<T>(trace: seq<T>, first: seq<T>, second: seq<T>)
    ensures trace + first + second == trace + (first + second)
  {
  }

  /** The `Command` object. Besides the runner of src/command.rb it carries
      the process-wide state the callers change: the working directory
      (`Dir.pwd`) and the record of everything done to the outside world. */
  class Command {
    const verboseOn: bool
    const world: World
    var cwd: string
    var trace: seq<Event>

    constructor (verboseOn: bool, world: World, cwd: string)
      ensures this.verboseOn == verboseOn && this.world == world
      ensures this.cwd == cwd && trace == []
    {
      this.verboseOn := verboseOn;
      this.world := world;
      this.cwd := cwd;
      trace := [];
    }

    /** `run_command(command, options)`: the output is built in a local
        buffer, stderr first when the command succeeded with warnings. */
    method RunCommand(command: string, failOnError: Option<bool>) returns (r: Outcome<string>)
      modifies this`trace
      ensures trace == old(trace) + [Ran(cwd, command)]
      ensures r == Decide(world.git(cwd, command), FailOnError(failOnError))
    {
      var fail := false;
      if failOnError == Some(true) {
        fail := true;
      }
      trace := trace + [Ran(cwd, command)];
      var captured := world.git(cwd, command);
      var output := "";
      if captured.exitStatus == Some(0) && captured.stderr != "" {
        output := output + captured.stderr;
      }
      if captured.exitStatus.None? {
        return Exit(1, "undefined method `>' for nil");
      }
      var status := captured.exitStatus.value;
      if status > 0 && captured.stderr != "" {
        return Exit(1, captured.stderr);
      }
      if status > 0 && fail {
        return Exit(1, "received exit code: " + NatToString(status));
      }
      output := output + captured.stdout;
      assert status == 0 ==> output == captured.stderr + captured.stdout;
      r := Ok(output);
      assert status > 0 ==> output == captured.stdout;
    }

    predicate PathExists(path: string)
      reads this
    {
      world.pathExists(cwd, path)
    }

    method ChangeDir(path: string)
      modifies this`cwd, this`trace
      ensures cwd == path && trace == old(trace) + [ChangedDir(path)]
    {
      cwd := path;
      trace := trace + [ChangedDir(path)];
    }

    method ResetDir(path: string)
      modifies this`trace
      ensures trace == old(trace) + [ResetBuildDir(path)]
    {
      trace := trace + [ResetBuildDir(path)];
    }

    method AnnounceDryRun(command: string)
      modifies this`trace
      ensures trace == old(trace) + [WouldRun(cwd, command)]
    {
      trace := trace + [WouldRun(cwd, command)];
    }
  }
}
