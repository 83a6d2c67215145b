/** src/command_line_args.rb: matching the script's arguments against a
    table of declared options. `--name` marks an option found, and
    `--name=value` also records its value. An undeclared option prints
    the usage line and ends the program. */
module CommandLineArgs {
  import opened Wrappers
  import opened Text

  /** One row of the options table: `{:found, :value, :keyval}`. */
  datatype OptionMeta = OptionMeta(found: bool, value: Option<string>, keyval: bool)

  type Table = map<string, OptionMeta>

  // ---------------------------------------------------------------------------
  // `usage_exit`

  /** `--name=<value>` for an option that takes a value, `--name` otherwise. */
  function OptionString(name: string, keyval: bool): string {
    "--" + name + (if keyval then "=<value>" else "")
  }

  /** Every option of the table, rendered in declaration order. */
  function OptionStrings(order: seq<string>, table: Table): (strings: seq<string>)
    requires forall i :: 0 <= i < |order| ==> order[i] in table
    ensures |strings| == |order|
    ensures forall i :: 0 <= i < |order| ==> strings[i] == OptionString(order[i], table[order[i]].keyval)
  {
    if order == [] then [] else [OptionString(order[0], table[order[0]].keyval)] + OptionStrings(order[1..], table)
  }

  /** The two lines `usage_exit` prints before `exit 1`: `puts` adds no
      line break to "Usage\n", which already ends in one. */
  function UsageText(script: string, order: seq<string>, table: Table): string
    requires forall i :: 0 <= i < |order| ==> order[i] in table
  {
    "Usage\n" + script + " " + Join(OptionStrings(order, table), ' ') + "\n"
  }

  /** When no option name holds a space, the usage line names every option
      once, in table order, each with `=<value>` exactly when it takes one. */
  lemma UsageListsEveryOption(order: seq<string>, table: Table)
    requires order != []
    requires forall i :: 0 <= i < |order| ==> order[i] in table && ' ' !in order[i]
    ensures var words := SplitOn(Join(OptionStrings(order, table), ' '), ' ');
      |words| == |order|
      && forall i :: 0 <= i < |order| ==>
        words[i] == "--" + order[i] + (if table[order[i]].keyval then "=<value>" else "")
  {
    var strings := OptionStrings(order, table);
    forall i | 0 <= i < |strings|
      ensures ' ' !in strings[i]
    {
      var keyval := table[order[i]].keyval;
      assert strings[i] == "--" + order[i] + (if keyval then "=<value>" else "");
    }
    JoinSplitRoundTrip(strings, ' ');
  }

  // ---------------------------------------------------------------------------
  // One argument

  /** `arg.sub(/^--/, '')`: one leading `--` is removed. */
  function WithoutDashes(arg: string): (a: string)
    ensures |arg| >= 2 && arg[..2] == "--" ==> arg == "--" + a
    ensures !(|arg| >= 2 && arg[..2] == "--") ==> a == arg
  {
    if |arg| >= 2 && arg[..2] == "--" then arg[2..] else arg
  }

  /** `arg.split(/\=/)`: Ruby drops the empty fields at the end. */
  function EqualsFields(a: string): seq<string> {
    DropTrailingEmpty(SplitOn(a, '='))
  }

  /** The argument holds `=`, so it also sets a value. */
  predicate SetsValue(arg: string) {
    '=' in WithoutDashes(arg)
  }

  /** The option an argument names: the whole argument without its dashes,
      or the field before the first `=`. None when the argument is all `=`. */
  function ArgKey(arg: string): Option<string> {
    var a := WithoutDashes(arg);
    if '=' !in a then Some(a)
    else
      var fields := EqualsFields(a);
      if fields == [] then None else Some(fields[0])
  }

  /** The value a `key=value` argument records: the second field, or nil
      when there is none. */
  function ArgValue(arg: string): Option<string> {
    var fields := EqualsFields(WithoutDashes(arg));
    if |fields| > 1 then Some(fields[1]) else None
  }

  /** An argument that names a declared option. */
  predicate Accepted(table: Table, arg: string) {
    ArgKey(arg).Some? && ArgKey(arg).value in table
  }

  /** The row of a declared option after an argument naming it. */
  function Marked(meta: OptionMeta, arg: string): OptionMeta {
    meta.(found := true, value := if SetsValue(arg) then ArgValue(arg) else meta.value)
  }

  /** What one argument does to the table, or how it ends the program:
      all `=` leaves nil to be turned into a symbol; an undeclared key with
      `=` is indexed into a missing row; an undeclared option without `=`
      gets the usage text. Each of these is `exit 1`. */
  function ApplyArg(script: string, order: seq<string>, table: Table, arg: string): (r: Outcome<Table>)
    requires forall i :: 0 <= i < |order| ==> order[i] in table
    ensures r.Ok? <==> Accepted(table, arg)
    ensures r.Exit? ==> r.code == 1
    ensures r.Ok? ==> r.value.Keys == table.Keys
  {
    match ArgKey(arg)
    case None => Exit(1, "undefined method `to_sym' for nil")
    case Some(key) =>
      if key in table then Ok(table[key := Marked(table[key], arg)])
      else if SetsValue(arg) then Exit(1, "undefined method `[]=' for nil")
      else Exit(1, key + " is an invalid option.\n" + UsageText(script, order, table))
  }

  /** `verbose` and `--verbose` are the same argument. */
  lemma DashesAreOptional(script: string, order: seq<string>, table: Table, a: string)
    requires forall i :: 0 <= i < |order| ==> order[i] in table
    requires !(|a| >= 2 && a[..2] == "--")
    ensures ApplyArg(script, order, table, "--" + a) == ApplyArg(script, order, table, a)
  {
    assert ("--" + a)[..2] == "--";
    assert WithoutDashes("--" + a) == a;
  }

  /** `--key=value` for a declared key marks it found and records the
      value. */
  lemma KeyValueRecordsValue(script: string, order: seq<string>, table: Table, key: string, value: string)
    requires forall i :: 0 <= i < |order| ==> order[i] in table
    requires key in table && '=' !in key && '=' !in value && value != ""
    ensures ApplyArg(script, order, table, "--" + key + "=" + value)
      == Ok(table[key := table[key].(found := true, value := Some(value))])
  {
    var arg := "--" + key + "=" + value;
    var a := key + "=" + value;
    assert arg == "--" + a;
    assert arg[..2] == "--";
    assert a[|key|] == '=';
    SplitOnFirstSeparator(key, '=', value);
    SplitOnNoSeparator(value, '=');
    assert SplitOn(a, '=') == [key, value];
  }

  /** `--key=` records nil as the value, since Ruby's split drops the empty
      field after the `=`. */
  lemma EmptyValueRecordsNil(script: string, order: seq<string>, table: Table, key: string)
    requires forall i :: 0 <= i < |order| ==> order[i] in table
    requires key in table && '=' !in key && key != ""
    ensures ApplyArg(script, order, table, "--" + key + "=")
      == Ok(table[key := table[key].(found := true, value := None)])
  {
    var arg := "--" + key + "=";
    var a := key + "=";
    assert arg == "--" + a;
    assert arg[..2] == "--";
    assert a[|key|] == '=';
    assert a == key + ['='] + "";
    SplitOnFirstSeparator(key, '=', "");
    assert SplitOn("", '=') == [""];
    assert SplitOn(a, '=') == [key, ""];
    assert [key, ""][..1] == [key];
    assert DropTrailingEmpty([key]) == [key];
    assert EqualsFields(a) == [key];
  }

  // ---------------------------------------------------------------------------
  // The whole argument list

  /** The loop over `ARGV`: every argument in turn, stopping at the first
      that ends the program. */
  function ParseFrom(script: string, order: seq<string>, table: Table, args: seq<string>): Outcome<Table>
    requires forall i :: 0 <= i < |order| ==> order[i] in table
    decreases |args|
  {
    if args == [] then Ok(table)
    else
      var next :- ApplyArg(script, order, table, args[0]);
      ParseFrom(script, order, next, args[1..])
  }

  /** Some argument names option `name`. */
  ghost predicate Mentions(args: seq<string>, name: string) {
    exists i :: 0 <= i < |args| && ArgKey(args[i]) == Some(name)
  }

  /** Parsing succeeds exactly when every argument names a declared option,
      and otherwise ends the program with status 1. */
  lemma {:induction false} ParseSucceedsIffAllDeclared(script: string, order: seq<string>, table: Table, args: seq<string>)
    requires forall i :: 0 <= i < |order| ==> order[i] in table
    ensures var r := ParseFrom(script, order, table, args);
      (r.Ok? <==> forall i :: 0 <= i < |args| ==> Accepted(table, args[i]))
      && (r.Exit? ==> r.code == 1)
      && (r.Ok? ==> r.value.Keys == table.Keys)
    decreases |args|
  {
    if args != [] {
      var step := ApplyArg(script, order, table, args[0]);
      if step.Ok? {
        ParseSucceedsIffAllDeclared(script, order, step.value, args[1..]);
        forall i | 1 <= i < |args|
          ensures Accepted(table, args[i]) <==> Accepted(step.value, args[1..][i - 1])
        {
          assert args[1..][i - 1] == args[i];
        }
      }
    }
  }

  /** After a successful parse an option is found exactly when it was found
      before or some argument names it; an option no argument names keeps
      its row as it was; whether an option takes a value never changes. */
  lemma {:induction false} ParseMarksMentioned(script: string, order: seq<string>, table: Table, args: seq<string>, name: string)
    requires forall i :: 0 <= i < |order| ==> order[i] in table
    requires name in table
    requires ParseFrom(script, order, table, args).Ok?
    ensures var t := ParseFrom(script, order, table, args).value;
      name in t
      && (t[name].found <==> table[name].found || Mentions(args, name))
      && (!Mentions(args, name) ==> t[name] == table[name])
      && t[name].keyval == table[name].keyval
    decreases |args|
  {
    if args != [] {
      var next := ApplyArg(script, order, table, args[0]).value;
      ParseMarksMentioned(script, order, next, args[1..], name);
      if Mentions(args[1..], name) {
        var i :| 0 <= i < |args[1..]| && ArgKey(args[1..][i]) == Some(name);
        assert ArgKey(args[i + 1]) == Some(name);
      }
      if Mentions(args, name) && ArgKey(args[0]) != Some(name) {
        var i :| 0 <= i < |args| && ArgKey(args[i]) == Some(name);
        assert args[1..][i - 1] == args[i];
      }
    }
  }

  /** A successful parse of a non-empty list is the first argument's step
      followed by the parse of the rest from its table. */
  lemma ParseStep(script: string, order: seq<string>, table: Table, args: seq<string>)
    requires forall k :: 0 <= k < |order| ==> order[k] in table
    requires args != [] && ParseFrom(script, order, table, args).Ok?
    ensures var step := ApplyArg(script, order, table, args[0]);
      step.Ok? && step.value.Keys == table.Keys
      && ParseFrom(script, order, table, args) == ParseFrom(script, order, step.value, args[1..])
  {
  }

  /** The value an option ends with is the one of the last `key=value`
      argument naming it. */
  lemma {:induction false} ParseKeepsLastValue(script: string, order: seq<string>, table: Table, args: seq<string>, name: string, i: int)
    requires forall k :: 0 <= k < |order| ==> order[k] in table
    requires name in table
    requires ParseFrom(script, order, table, args).Ok?
    requires 0 <= i < |args| && ArgKey(args[i]) == Some(name) && SetsValue(args[i])
    requires forall j :: i < j < |args| && ArgKey(args[j]) == Some(name) ==> !SetsValue(args[j])
    ensures var t := ParseFrom(script, order, table, args).value;
      name in t && t[name].value == ArgValue(args[i])
    decreases |args|
  {
    if i == 0 {
      ParseFirstValueKept(script, order, table, args, name);
    } else {
      ParseStep(script, order, table, args);
      var next := ApplyArg(script, order, table, args[0]).value;
      var rest := args[1..];
      forall j | i - 1 < j < |rest| && ArgKey(rest[j]) == Some(name)
        ensures !SetsValue(rest[j])
      {
        assert rest[j] == args[j + 1];
      }
      assert rest[i - 1] == args[i];
      ParseKeepsLastValue(script, order, next, rest, name, i - 1);
    }
  }

  /** The first argument sets the value, and no later one sets it again. */
  lemma ParseFirstValueKept(script: string, order: seq<string>, table: Table, args: seq<string>, name: string)
    requires forall k :: 0 <= k < |order| ==> order[k] in table
    requires name in table
    requires ParseFrom(script, order, table, args).Ok?
    requires args != [] && ArgKey(args[0]) == Some(name) && SetsValue(args[0])
    requires forall j :: 0 < j < |args| && ArgKey(args[j]) == Some(name) ==> !SetsValue(args[j])
    ensures var t := ParseFrom(script, order, table, args).value;
      name in t && t[name].value == ArgValue(args[0])
  {
    ParseStep(script, order, table, args);
    var next := ApplyArg(script, order, table, args[0]).value;
    var rest := args[1..];
    assert next[name].value == ArgValue(args[0]);
    forall j | 0 <= j < |rest| && ArgKey(rest[j]) == Some(name)
      ensures !SetsValue(rest[j])
    {
      assert rest[j] == args[j + 1];
    }
    ParseKeepsValue(script, order, next, rest, name);
  }

  /** Arguments that name an option without `=` leave its value alone. */
  lemma {:induction false} ParseKeepsValue(script: string, order: seq<string>, table: Table, args: seq<string>, name: string)
    requires forall k :: 0 <= k < |order| ==> order[k] in table
    requires name in table
    requires ParseFrom(script, order, table, args).Ok?
    requires forall j :: 0 <= j < |args| && ArgKey(args[j]) == Some(name) ==> !SetsValue(args[j])
    ensures var t := ParseFrom(script, order, table, args).value;
      name in t && t[name].value == table[name].value
    decreases |args|
  {
    if args != [] {
      ParseStep(script, order, table, args);
      var next := ApplyArg(script, order, table, args[0]).value;
      forall j | 0 <= j < |args[1..]| && ArgKey(args[1..][j]) == Some(name)
        ensures !SetsValue(args[1..][j])
      {
        assert args[1..][j] == args[j + 1];
      }
      ParseKeepsValue(script, order, next, args[1..], name);
    }
  }

  // ---------------------------------------------------------------------------
  // The objects the parser changes

  /** The options hash the caller builds and receives back. Its keys, in
      declaration order, never change; its rows are updated in place. */
  class Options {
    const order: seq<string>
    var table: Table

    ghost predicate Valid()
      reads this
    {
      Distinct(order) && forall name :: name in table <==> name in order
    }

    constructor (order: seq<string>, table: Table)
      requires Distinct(order) && forall name :: name in table <==> name in order
      ensures this.order == order && this.table == table && Valid()
    {
      this.order := order;
      this.table := table;
    }
  }

  /** `ARGV`. */
  class Arguments {
    var args: seq<string>

    constructor (args: seq<string>)
      ensures this.args == args
    {
      this.args := args;
    }
  }

  /** `parse_cmd_line_args`: the table is updated argument by argument;
      on success `ARGV` is emptied and the same options object is returned. */
  method ParseCmdLineArgs(script: string, argv: Arguments, options: Options) returns (r: Outcome<Options>)
    requires options.Valid()
    modifies argv, options`table
    ensures var goal := ParseFrom(script, options.order, old(options.table), old(argv.args));
      (r.Ok? <==> goal.Ok?)
      && (r.Ok? ==> r.value == options && options.table == goal.value && argv.args == [])
      && (r.Exit? ==> r.code == goal.code && r.reason == goal.reason)
    ensures options.Valid()
  {
    ghost var goal := ParseFrom(script, options.order, options.table, argv.args);
    var i := 0;
    while i < |argv.args|
      invariant 0 <= i <= |argv.args| && argv.args == old(argv.args)
      invariant options.Valid()
      invariant ParseFrom(script, options.order, options.table, argv.args[i..]) == goal
    {
      assert argv.args[i..][0] == argv.args[i] && argv.args[i..][1..] == argv.args[i + 1..];
      var step := ParseArg(script, options, argv.args[i]);
      if step.Exit? {
        return Exit(step.code, step.reason);
      }
      i := i + 1;
    }
    argv.args := [];
    r := Ok(options);
  }

  /** The body of the loop for one argument: the row is updated in place,
      or the outcome says how the program ends. */
  method ParseArg(script: string, options: Options, arg: string) returns (r: Outcome<()>)
    requires options.Valid()
    modifies options`table
    ensures var step := ApplyArg(script, options.order, old(options.table), arg);
      (r.Ok? <==> step.Ok?)
      && (r.Ok? ==> options.table == step.value)
      && (r.Exit? ==> r.code == step.code && r.reason == step.reason)
    ensures options.Valid()
  {
    var a := if |arg| >= 2 && arg[..2] == "--" then arg[2..] else arg;
    if '=' in a {
      var argValuePair := DropTrailingEmpty(SplitOn(a, '='));
      if argValuePair == [] {
        return Exit(1, "undefined method `to_sym' for nil");
      }
      a := argValuePair[0];
      if a !in options.table {
        return Exit(1, "undefined method `[]=' for nil");
      }
      var meta := options.table[a];
      options.table := options.table[a := meta.(value := if |argValuePair| > 1 then Some(argValuePair[1]) else None)];
    }
    if a in options.table {
      var meta := options.table[a];
      options.table := options.table[a := meta.(found := true)];
    } else {
      return Exit(1, a + " is an invalid option.\n" + UsageText(script, options.order, options.table));
    }
    r := Ok(());
  }
}
