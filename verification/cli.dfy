/**
 * The command-line front end (ezagent/cli.py): `ez <agent> <message>` is
 * shorthand for `ez run <agent> <message>`, which the command group
 * arranges by rewriting the argument list and by falling back to `run`
 * for unknown command names; the `run` command joins its message words;
 * the `status` command prints one row per agent.
 *
 * Click's own parsing is not modelled: `ResolveCommand` takes the base
 * class's answer as a parameter.
 */
module Cli {
  import opened Wrappers
  import opened Strings

  /** The commands the group registers. */
  const Commands: set<string> := {"init", "create", "start", "stop", "status", "run"}

  const RunCommand := "run"

  /** `EzGroup.get_command`: a known command, otherwise `run`. */
  function GetCommand(name: string): (r: string)
    ensures r in Commands
    ensures name in Commands ==> r == name
    ensures name !in Commands ==> r == RunCommand
  {
    if name in Commands then name else RunCommand
  }

  /**
   * `EzGroup.resolve_command`, given what Click's own `resolve_command`
   * returned: with no command found and arguments present, the whole
   * argument list goes to `run`.
   */
  function ResolveCommand(args: seq<string>, base: (string, Option<string>, seq<string>)): (r: (string, Option<string>, seq<string>))
    ensures base.1.None? && args != [] ==> r == (RunCommand, Some(RunCommand), args)
    ensures base.1.Some? || args == [] ==> r == base
  {
    if base.1.None? && args != [] then (RunCommand, Some(RunCommand), args) else base
  }

  /** `arg.startswith("-")`. */
  predicate IsOption(arg: string) {
    |arg| > 0 && arg[0] == '-'
  }

  /** The index of the first argument that is not an option. */
  function FirstPositional(args: seq<string>): (r: Option<nat>)
    ensures r.Some? ==> r.value < |args| && !IsOption(args[r.value])
    ensures r.Some? ==> forall k :: 0 <= k < r.value ==> IsOption(args[k])
    ensures r.None? ==> forall k :: 0 <= k < |args| ==> IsOption(args[k])
  {
    if |args| == 0 then None
    else if !IsOption(args[0]) then Some(0)
    else
      match FirstPositional(args[1..])
      case None => None
      case Some(i) =>
        assert forall k :: 1 <= k <= i ==> args[k] == args[1..][k - 1];
        Some(i + 1)
  }

  /** `EzGroup.parse_args`: put `run` in front of the first positional argument unless it names a command. */
  function ParseArgs(args: seq<string>): (r: seq<string>)
    ensures |r| == |args| || |r| == |args| + 1
  {
    match FirstPositional(args)
    case None => args
    case Some(i) => if args[i] in Commands then args else args[..i] + [RunCommand] + args[i..]
  }

  /**
   * `run` is inserted exactly when some argument is not an option and the
   * first such is not a command; it goes immediately before that argument,
   * and everything else keeps its relative order.
   */
  lemma ParseArgsInserts(args: seq<string>)
    ensures ParseArgs(args) != args <==>
      exists i :: 0 <= i < |args| && !IsOption(args[i]) && args[i] !in Commands && forall k :: 0 <= k < i ==> IsOption(args[k])
    ensures ParseArgs(args) != args ==> exists i :: 0 <= i < |args| && ParseArgs(args) == args[..i] + [RunCommand] + args[i..]
  {
    match FirstPositional(args)
    case None =>
    case Some(i) =>
      if args[i] !in Commands {
        var r := args[..i] + [RunCommand] + args[i..];
        assert |r| == |args| + 1;
      }
      forall j | 0 <= j < |args| && !IsOption(args[j]) && args[j] !in Commands && (forall k :: 0 <= k < j ==> IsOption(args[k]))
        ensures j == i
      {
        FirstPositionalUnique(args, j);
      }
  }

  /** The first positional argument is the only one all of whose predecessors are options. */
  lemma FirstPositionalUnique(args: seq<string>, j: nat)
    requires j < |args| && !IsOption(args[j])
    requires forall k :: 0 <= k < j ==> IsOption(args[k])
    ensures FirstPositional(args) == Some(j)
  {
  }

  /** After the rewrite the first positional argument names a command, so a second rewrite changes nothing. */
  lemma ParseArgsIdempotent(args: seq<string>)
    ensures ParseArgs(ParseArgs(args)) == ParseArgs(args)
  {
    match FirstPositional(args)
    case None =>
    case Some(i) =>
      if args[i] !in Commands {
        var r := args[..i] + [RunCommand] + args[i..];
        assert r[i] == RunCommand && !IsOption(r[i]);
        assert forall k :: 0 <= k < i ==> r[k] == args[k];
        FirstPositionalUnique(r, i);
      }
  }

  /** The agent, message and debug flag `run` hands to the client, or Click's usage error. */
  datatype RunRequest = RunRequest(agent: string, message: string, debug: bool)

  const MissingMessage := "Missing argument 'MESSAGE...'."

  /** The `run` command: the message words are joined with single spaces; at least one is required. */
  function RunCommandRequest(agent: string, words: seq<string>, debug: bool): (r: Result<RunRequest, string>)
    ensures r.Failure? <==> words == []
    ensures r.Success? ==> r.value.agent == agent && r.value.debug == debug
  {
    if words == [] then Failure(MissingMessage) else Success(RunRequest(agent, Join(words, " "), debug))
  }

  /** Words without spaces are recovered from the joined message. */
  lemma RunMessageWords(agent: string, words: seq<string>, debug: bool)
    requires words != [] && forall k :: 0 <= k < |words| ==> ' ' !in words[k]
    ensures Split(RunCommandRequest(agent, words, debug).value.message, ' ') == words
  {
    SplitJoin(words, ' ');
  }

  // ----- the status table -----

  /** What one row of `ez status` shows of an agent: missing values are "" and []. */
  datatype Summary = Summary(provider: string, model: string, tools: seq<string>, skills: seq<string>)

  /** "provider/model", or just the provider when no model is set. */
  function ProviderModel(provider: string, model: string): (r: string)
    ensures model == "" ==> r == provider
    ensures model != "" ==> (|r| == |provider| + 1 + |model| && r[..|provider|] == provider
      && r[|provider|] == '/' && r[|provider| + 1..] == model)
  {
    if model != "" then provider + "/" + model else provider
  }

  /** The provider column splits back at its first slash when the provider name has none. */
  lemma ProviderModelSplits(provider: string, model: string)
    requires model != "" && '/' !in provider && '/' !in model
    ensures Split(ProviderModel(provider, model), '/') == [provider, model]
  {
    SplitJoin([provider, model], '/');
    assert Join([provider, model], "/") == provider + "/" + model;
  }

  const EmDash := "—"

  /** A join of two or more items holds at least the separator. */
  lemma JoinOfMany(items: seq<string>, sep: string)
    ensures |items| >= 2 ==> |Join(items, sep)| >= |sep|
  {
  }

  /** `", ".join(items) or "—"`: the dash shows exactly when the join comes out empty (or is itself a dash). */
  function ListCell(items: seq<string>): (r: string)
    ensures r == EmDash <==> items == [] || items == [""] || items == [EmDash]
    ensures r != EmDash ==> items[0] <= r
  {
    JoinOfMany(items, ", ");
    var j := Join(items, ", ");
    if j != "" then j else EmDash
  }

  /** A prefix of the second operand of a concatenation is found right after the first. */
  lemma SliceAfter(a: string, b: string, x: string)
    requires x <= b
    ensures |a + b| >= |a| + |x| && (a + b)[|a|..|a| + |x|] == x
  {
    assert (a + b)[|a|..|a| + |x|] == b[..|x|];
  }

  /** One row: name padded to 16, provider/model to 32, tools to 24, then skills. */
  function StatusRow(name: string, s: Summary): string
  {
    Row(name, ProviderModel(s.provider, s.model), ListCell(s.tools), ListCell(s.skills))
  }

  function Row(name: string, pm: string, tools: string, skills: string): string
  {
    var head := "  " + PadRight(name, 16) + " ";
    head + (PadRight(pm, 32) + (" tools: " + PadRight(tools, 24) + " skills: " + skills))
  }

  lemma RowHead(name: string)
    requires |name| <= 16
    ensures var head := "  " + PadRight(name, 16) + " ";
      |head| == 19 && head[2..2 + |name|] == name && forall k :: 2 + |name| <= k < 19 ==> head[k] == ' '
  {
    var pad := PadRight(name, 16);
    var head := "  " + pad + " ";
    forall k | 2 <= k < 18 ensures head[k] == pad[k - 2] { }
    assert head[2..2 + |name|] == pad[..|name|];
  }

  /**
   * For names of at most 16 characters the columns line up: the name
   * starts at offset 2 followed by spaces, and the provider column starts
   * at offset 19.
   */
  lemma StatusRowColumns(name: string, s: Summary)
    requires |name| <= 16
    ensures var r := StatusRow(name, s);
      |r| >= 51 && r[2..2 + |name|] == name && (forall k :: 2 + |name| <= k < 19 ==> r[k] == ' ')
    ensures var pm := ProviderModel(s.provider, s.model);
      StatusRow(name, s)[19..19 + |pm|] == pm
  {
    var pm := ProviderModel(s.provider, s.model);
    var head := "  " + PadRight(name, 16) + " ";
    var cell := PadRight(pm, 32);
    var tail := cell + (" tools: " + PadRight(ListCell(s.tools), 24) + " skills: " + ListCell(s.skills));
    RowHead(name);
    SliceAfter(head, tail, cell[..|pm|]);
    var r := head + tail;
    assert StatusRow(name, s) == r;
    assert forall k :: 0 <= k < 19 ==> r[k] == head[k];
    assert r[2..2 + |name|] == head[2..2 + |name|];
  }
}
