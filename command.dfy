/**
 * The typed command schema of the whirlwind workspace manager, the interactive
 * builder that elicits one, and the invoker that turns one into a program name
 * and an ordered argument vector (src/command.rs).
 *
 * Every terminal prompt reads the next answer of an answer script instead of
 * the terminal; what a read leaves of the script is passed to the next prompt.
 */
module Command {
  import opened Wrappers

  // ------------------------------------------------------------------ schema

  /** A parameter's declared kind: a label only, no answer is parsed against it. */
  datatype UserCommandArgType = Other | StringArg | IntArg | FloatArg | FileArg | PathArg

  /** A required positional parameter. */
  datatype UserCommandArg = UserCommandArg(name: string, ty: UserCommandArgType)

  /** An optional named parameter, rendered as `--name=value`; the aliases are never filled in. */
  datatype UserCommandOption = UserCommandOption(
    name: string, short: Option<string>, long: Option<string>, ty: UserCommandArgType)

  /** A named command: its registry key, its target, and its parameters in declared order. */
  datatype UserCommand = UserCommand(
    name: string, exec: string, args: seq<UserCommandArg>, options: seq<UserCommandOption>)

  // --------------------------------------------------------- the answer script

  /** One answer of an interactive session, in the order the prompts ask for them. */
  datatype Answer = Text(text: string) | Confirm(yes: bool) | Choice(index: nat) | Fail

  /** A prompt that could not be read: the input failed, was aborted, or ran out. */
  datatype Error = InteractionFailed

  /** A value read, and the answers left for the prompts after it. */
  datatype Step<+T> = Step(value: T, rest: seq<Answer>)

  type Reply<T> = Result<Step<T>, Error>

  /** A free-text prompt: it takes exactly one text answer. */
  function AskForString(script: seq<Answer>): (r: Reply<string>)
    ensures r.Ok? <==> script != [] && script[0].Text?
    ensures r.Ok? ==> script == [Text(r.value.value)] + r.value.rest
  {
    if script != [] && script[0].Text? then Ok(Step(script[0].text, script[1..]))
    else Err(InteractionFailed)
  }

  /** A yes/no prompt: it takes exactly one confirmation answer. */
  function AskForBool(script: seq<Answer>): (r: Reply<bool>)
    ensures r.Ok? <==> script != [] && script[0].Confirm?
    ensures r.Ok? ==> script == [Confirm(r.value.value)] + r.value.rest
  {
    if script != [] && script[0].Confirm? then Ok(Step(script[0].yes, script[1..]))
    else Err(InteractionFailed)
  }

  /** A selection among `items`: the widget only ever yields an index into the list. */
  function AskForSelect(script: seq<Answer>, items: seq<string>): (r: Reply<nat>)
    ensures r.Ok? <==> script != [] && script[0].Choice? && script[0].index < |items|
    ensures r.Ok? ==> script == [Choice(r.value.value)] + r.value.rest && r.value.value < |items|
  {
    if script != [] && script[0].Choice? && script[0].index < |items| then
      Ok(Step(script[0].index, script[1..]))
    else
      Err(InteractionFailed)
  }

  // ------------------------------------------------------- type selection

  /** The labels the type prompt offers, in the order the type match reads them. */
  const TypeLabels: seq<string> := ["string", "int", "float", "file", "path", "other"]

  /** The type chosen by index `choice` of the type prompt; the catch-all arm takes 5 and beyond. */
  function ArgTypeOf(choice: nat): (t: UserCommandArgType)
    ensures t == Other <==> choice >= 5
  {
    match choice
    case 0 => StringArg
    case 1 => IntArg
    case 2 => FloatArg
    case 3 => FileArg
    case 4 => PathArg
    case _ => Other
  }

  /** The word under which the type prompt presents `t`. */
  function TypeLabel(t: UserCommandArgType): string
  {
    match t
    case StringArg => "string"
    case IntArg => "int"
    case FloatArg => "float"
    case FileArg => "file"
    case PathArg => "path"
    case Other => "other"
  }

  /** Where the type prompt offers `t`: picking that index gives `t` back. */
  function TypeIndex(t: UserCommandArgType): (i: nat)
    ensures i < |TypeLabels| && ArgTypeOf(i) == t && TypeLabels[i] == TypeLabel(t)
  {
    match t
    case StringArg => 0
    case IntArg => 1
    case FloatArg => 2
    case FileArg => 3
    case PathArg => 4
    case Other => 5
  }

  /** The label list and the match arms agree: the label at index i names the type index i selects. */
  lemma SelectionTable()
    ensures forall i :: 0 <= i < |TypeLabels| ==>
      TypeLabel(ArgTypeOf(i)) == TypeLabels[i] && TypeIndex(ArgTypeOf(i)) == i
  {
  }

  // ----------------------------------------------------- the parameter loops

  /** One pass of a parameter loop as answered: the name typed and the type index picked. */
  datatype Entry = Entry(name: string, choice: nat)

  /**
   * The entries one gated parameter loop records, read from its first yes/no
   * gate: while the gate says yes, a name, a type, and the next gate.
   */
  function Elicit(script: seq<Answer>): Reply<seq<Entry>>
    decreases |script|, 1
  {
    match AskForBool(script)
    case Err(e) => Err(e)
    case Ok(gate) => Resume(gate.value, gate.rest)
  }

  /** The rest of a parameter loop once its gate has been answered `more`. */
  function Resume(more: bool, script: seq<Answer>): Reply<seq<Entry>>
    decreases |script|, 0
  {
    if !more then Ok(Step([], script))
    else
      match AskForString(script)
      case Err(e) => Err(e)
      case Ok(name) =>
        match AskForSelect(name.rest, TypeLabels)
        case Err(e) => Err(e)
        case Ok(choice) => Preceded([Entry(name.value, choice.value)], Elicit(choice.rest))
  }

  /** `r` with `done` put before the entries it read; an error passes through. */
  function Preceded(done: seq<Entry>, r: Reply<seq<Entry>>): Reply<seq<Entry>>
  {
    match r
    case Err(e) => Err(e)
    case Ok(s) => Ok(Step(done + s.value, s.rest))
  }

  /** Putting no entries before a reply leaves it as it is. */
  lemma PrecededNothing(r: Reply<seq<Entry>>)
    ensures Preceded([], r) == r
  {
    if r.Ok? {
      assert [] + r.value.value == r.value.value;
    }
  }

  /** Putting `b` and then `a` before a reply is putting `a + b` before it. */
  lemma PrecededTwice(a: seq<Entry>, b: seq<Entry>, r: Reply<seq<Entry>>)
    ensures Preceded(a, Preceded(b, r)) == Preceded(a + b, r)
  {
    if r.Ok? {
      assert a + (b + r.value.value) == (a + b) + r.value.value;
    }
  }

  /** The answers a user gives so that a parameter loop records exactly `es`. */
  function EntriesScript(es: seq<Entry>): seq<Answer>
    decreases |es|
  {
    if es == [] then [Confirm(false)]
    else [Confirm(true), Text(es[0].name), Choice(es[0].choice)] + EntriesScript(es[1..])
  }

  /** Every recorded index is one the type prompt can yield. */
  predicate Selectable(es: seq<Entry>)
  {
    forall i :: 0 <= i < |es| ==> es[i].choice < |TypeLabels|
  }

  /** Answering a loop with the script of `es` records `es` and leaves the rest untouched. */
  lemma {:induction false} ElicitReadsScript(es: seq<Entry>, rest: seq<Answer>)
    requires Selectable(es)
    ensures Elicit(EntriesScript(es) + rest) == Ok(Step(es, rest))
    decreases |es|
  {
    var s := EntriesScript(es) + rest;
    if es == [] {
      assert s == [Confirm(false)] + rest;
      assert AskForBool(s) == Ok(Step(false, rest));
    } else {
      var tail := EntriesScript(es[1..]) + rest;
      assert s == [Confirm(true)] + ([Text(es[0].name)] + ([Choice(es[0].choice)] + tail));
      assert AskForBool(s) == Ok(Step(true, [Text(es[0].name)] + ([Choice(es[0].choice)] + tail)));
      assert AskForString([Text(es[0].name)] + ([Choice(es[0].choice)] + tail))
        == Ok(Step(es[0].name, [Choice(es[0].choice)] + tail));
      assert AskForSelect([Choice(es[0].choice)] + tail, TypeLabels) == Ok(Step(es[0].choice, tail));
      assert Selectable(es[1..]) by {
        forall i | 0 <= i < |es[1..]| ensures es[1..][i].choice < |TypeLabels| {
          assert es[1..][i] == es[i + 1];
        }
      }
      ElicitReadsScript(es[1..], rest);
      assert [es[0]] + es[1..] == es;
    }
  }

  /** The script of a non-empty list, then `rest`: one gate, name and type answer, then the script of the rest. */
  lemma EntriesScriptCons(e: Entry, es: seq<Entry>, rest: seq<Answer>)
    ensures EntriesScript([e] + es) + rest
      == [Confirm(true), Text(e.name), Choice(e.choice)] + (EntriesScript(es) + rest)
    ensures Selectable([e] + es) <==> e.choice < |TypeLabels| && Selectable(es)
  {
    var all := [e] + es;
    assert all[0] == e && all[1..] == es;
    var head := [Confirm(true), Text(e.name), Choice(e.choice)];
    assert (head + EntriesScript(es)) + rest == head + (EntriesScript(es) + rest);
    if e.choice < |TypeLabels| && Selectable(es) {
      forall i | 0 <= i < |all| ensures all[i].choice < |TypeLabels| {
        if i > 0 {
          assert all[i] == es[i - 1];
        }
      }
    }
    if Selectable(all) {
      forall i | 0 <= i < |es| ensures es[i].choice < |TypeLabels| {
        assert es[i] == all[i + 1];
      }
    }
  }

  /** Whatever a loop records, its answers were exactly the script of what it recorded. */
  lemma {:induction false} ElicitOnlyScript(script: seq<Answer>)
    ensures Elicit(script).Ok? ==>
      Selectable(Elicit(script).value.value) &&
      script == EntriesScript(Elicit(script).value.value) + Elicit(script).value.rest
    decreases |script|
  {
    var r := Elicit(script);
    if r.Ok? {
      var gate := AskForBool(script).value;
      assert r == Resume(gate.value, gate.rest);
      if !gate.value {
        assert r == Ok(Step([], gate.rest));
        assert EntriesScript([]) == [Confirm(false)];
      } else {
        var name := AskForString(gate.rest).value;
        var choice := AskForSelect(name.rest, TypeLabels).value;
        var e := Entry(name.value, choice.value);
        assert r == Preceded([e], Elicit(choice.rest));
        ElicitOnlyScript(choice.rest);
        var more := Elicit(choice.rest).value;
        assert r == Ok(Step([e] + more.value, more.rest));
        EntriesScriptCons(e, more.value, more.rest);
        assert script == [Confirm(true), Text(e.name), Choice(e.choice)] + choice.rest;
      }
    }
  }

  /** A loop records `es` and leaves `rest` exactly when its answers are the script of `es` then `rest`. */
  lemma ElicitCharacterized(script: seq<Answer>, es: seq<Entry>, rest: seq<Answer>)
    ensures Elicit(script) == Ok(Step(es, rest)) <==>
      Selectable(es) && script == EntriesScript(es) + rest
  {
    ElicitOnlyScript(script);
    if Selectable(es) && script == EntriesScript(es) + rest {
      ElicitReadsScript(es, rest);
    }
  }

  /** The positional parameters recorded entries stand for. */
  function ArgsOf(es: seq<Entry>): seq<UserCommandArg>
  {
    seq(|es|, i requires 0 <= i < |es| => UserCommandArg(es[i].name, ArgTypeOf(es[i].choice)))
  }

  /** The options recorded entries stand for: no alias is ever set. */
  function OptionsOf(es: seq<Entry>): seq<UserCommandOption>
  {
    seq(|es|, i requires 0 <= i < |es| => UserCommandOption(es[i].name, None, None, ArgTypeOf(es[i].choice)))
  }

  /** `ask_for_args`: the positional-parameter loop. */
  method AskForArgs(script: seq<Answer>) returns (r: Reply<seq<UserCommandArg>>)
    ensures r.Ok? <==> Elicit(script).Ok?
    ensures r.Ok? ==> r.value == Step(ArgsOf(Elicit(script).value.value), Elicit(script).value.rest)
  {
    var gate := AskForBool(script);
    if gate.Err? {
      return Err(gate.error);
    }
    var addArg := gate.value.value;
    var s := gate.value.rest;
    var args: seq<UserCommandArg> := [];
    ghost var entries: seq<Entry> := [];
    PrecededNothing(Resume(addArg, s));
    while addArg
      invariant Elicit(script) == Preceded(entries, Resume(addArg, s))
      invariant args == ArgsOf(entries)
      decreases |s|
    {
      var argName := AskForString(s);
      if argName.Err? {
        return Err(argName.error);
      }
      var argType := AskForSelect(argName.value.rest, TypeLabels);
      if argType.Err? {
        return Err(argType.error);
      }
      var e := Entry(argName.value.value, argType.value.value);
      args := args + [UserCommandArg(e.name, ArgTypeOf(e.choice))];
      PrecededTwice(entries, [e], Elicit(argType.value.rest));
      entries := entries + [e];
      var next := AskForBool(argType.value.rest);
      if next.Err? {
        return Err(next.error);
      }
      addArg, s := next.value.value, next.value.rest;
    }
    assert entries + [] == entries;
    r := Ok(Step(args, s));
  }

  /** `ask_for_options`: the named-option loop, the same protocol as the positional one. */
  method AskForOptions(script: seq<Answer>) returns (r: Reply<seq<UserCommandOption>>)
    ensures r.Ok? <==> Elicit(script).Ok?
    ensures r.Ok? ==> r.value == Step(OptionsOf(Elicit(script).value.value), Elicit(script).value.rest)
  {
    var gate := AskForBool(script);
    if gate.Err? {
      return Err(gate.error);
    }
    var addArg := gate.value.value;
    var s := gate.value.rest;
    var args: seq<UserCommandOption> := [];
    ghost var entries: seq<Entry> := [];
    PrecededNothing(Resume(addArg, s));
    while addArg
      invariant Elicit(script) == Preceded(entries, Resume(addArg, s))
      invariant args == OptionsOf(entries)
      decreases |s|
    {
      var argName := AskForString(s);
      if argName.Err? {
        return Err(argName.error);
      }
      var argType := AskForSelect(argName.value.rest, TypeLabels);
      if argType.Err? {
        return Err(argType.error);
      }
      var e := Entry(argName.value.value, argType.value.value);
      args := args + [UserCommandOption(e.name, None, None, ArgTypeOf(e.choice))];
      PrecededTwice(entries, [e], Elicit(argType.value.rest));
      entries := entries + [e];
      var next := AskForBool(argType.value.rest);
      if next.Err? {
        return Err(next.error);
      }
      addArg, s := next.value.value, next.value.rest;
    }
    assert entries + [] == entries;
    r := Ok(Step(args, s));
  }

  // ------------------------------------------------------------- the builder

  /** The schema elicited from `script`: name, exec, the argument loop, then the option loop. */
  function Schema(script: seq<Answer>): Reply<UserCommand>
  {
    match AskForString(script)
    case Err(e) => Err(e)
    case Ok(name) =>
      match AskForString(name.rest)
      case Err(e) => Err(e)
      case Ok(exec) =>
        match Elicit(exec.rest)
        case Err(e) => Err(e)
        case Ok(args) =>
          match Elicit(args.rest)
          case Err(e) => Err(e)
          case Ok(options) =>
            Ok(Step(UserCommand(name.value, exec.value, ArgsOf(args.value), OptionsOf(options.value)),
                    options.rest))
  }

  /** The answers that build a command from a name, an exec and the entries of both loops. */
  function SchemaScript(name: string, exec: string, argEntries: seq<Entry>, optionEntries: seq<Entry>): seq<Answer>
  {
    [Text(name), Text(exec)] + EntriesScript(argEntries) + EntriesScript(optionEntries)
  }

  /** A builder script followed by `rest`, grouped the way the prompts read it. */
  lemma SchemaScriptSplit(name: string, exec: string, argEntries: seq<Entry>, optionEntries: seq<Entry>,
                          rest: seq<Answer>)
    ensures SchemaScript(name, exec, argEntries, optionEntries) + rest
      == [Text(name)] + ([Text(exec)] + (EntriesScript(argEntries) + (EntriesScript(optionEntries) + rest)))
  {
    var a, o := EntriesScript(argEntries), EntriesScript(optionEntries);
    assert [Text(name), Text(exec)] == [Text(name)] + [Text(exec)];
    assert ([Text(name), Text(exec)] + a + o) + rest == [Text(name)] + ([Text(exec)] + (a + (o + rest)));
  }

  /** Answering the builder with a command's script builds that command and leaves the rest. */
  lemma SchemaReadsScript(name: string, exec: string, argEntries: seq<Entry>, optionEntries: seq<Entry>,
                          rest: seq<Answer>)
    requires Selectable(argEntries) && Selectable(optionEntries)
    ensures Schema(SchemaScript(name, exec, argEntries, optionEntries) + rest)
      == Ok(Step(UserCommand(name, exec, ArgsOf(argEntries), OptionsOf(optionEntries)), rest))
  {
    var afterArgs := EntriesScript(optionEntries) + rest;
    SchemaScriptSplit(name, exec, argEntries, optionEntries, rest);
    ElicitReadsScript(argEntries, afterArgs);
    ElicitReadsScript(optionEntries, rest);
  }

  /** A built command always comes from the script of some entries, and its parameters are theirs. */
  lemma SchemaOnlyScript(script: seq<Answer>)
    ensures Schema(script).Ok? ==>
      var c := Schema(script).value.value;
      exists argEntries, optionEntries ::
        (&& Selectable(argEntries) && Selectable(optionEntries)
         && script == SchemaScript(c.name, c.exec, argEntries, optionEntries) + Schema(script).value.rest
         && c.args == ArgsOf(argEntries) && c.options == OptionsOf(optionEntries))
  {
    if Schema(script).Ok? {
      var name := AskForString(script).value;
      var exec := AskForString(name.rest).value;
      var args := Elicit(exec.rest).value;
      var options := Elicit(args.rest).value;
      ElicitOnlyScript(exec.rest);
      ElicitOnlyScript(args.rest);
      var c := Schema(script).value.value;
      assert c == UserCommand(name.value, exec.value, ArgsOf(args.value), OptionsOf(options.value));
      assert script == [Text(c.name)] + ([Text(c.exec)]
        + (EntriesScript(args.value) + (EntriesScript(options.value) + options.rest)));
      SchemaScriptSplit(c.name, c.exec, args.value, options.value, options.rest);
    }
  }

  /** `from_cli`: name, exec, the argument loop, the option loop; the first failed prompt aborts. */
  method FromCli(script: seq<Answer>) returns (r: Reply<UserCommand>)
    ensures r == Schema(script)
  {
    var name := AskForString(script);
    if name.Err? {
      return Err(name.error);
    }
    var exec := AskForString(name.value.rest);
    if exec.Err? {
      return Err(exec.error);
    }
    var args := AskForArgs(exec.value.rest);
    if args.Err? {
      assert Elicit(exec.value.rest).error == args.error == InteractionFailed;
      return Err(args.error);
    }
    var options := AskForOptions(args.value.rest);
    if options.Err? {
      assert Elicit(args.value.rest).error == options.error == InteractionFailed;
      return Err(options.error);
    }
    r := Ok(Step(UserCommand(name.value.value, exec.value.value, args.value.value, options.value.value),
                 options.value.rest));
  }

  // ------------------------------------------------------------- the invoker

  /** What the invoker hands on: a program and its arguments, never run here. */
  datatype Invocation = Invocation(program: string, args: seq<string>)

  /** The first `n` answers are text answers. */
  predicate AllText(script: seq<Answer>, n: nat)
  {
    n <= |script| && forall k :: 0 <= k < n ==> script[k].Text?
  }

  /** What a text answer carries; any other answer is never read as text. */
  function Entered(a: Answer): string
  {
    if a.Text? then a.text else ""
  }

  /** The values of a run of answers, read as text. */
  function TextsOf(answers: seq<Answer>): seq<string>
  {
    seq(|answers|, k requires 0 <= k < |answers| => Entered(answers[k]))
  }

  /** The tokens one option contributes: none for an empty value, else `--name=value`. */
  function OptionToken(o: UserCommandOption, value: string): seq<string>
  {
    if value == "" then [] else ["--" + o.name + "=" + value]
  }

  /** The tokens of the options, in declared order, given one value per option. */
  function OptionTokens(options: seq<UserCommandOption>, values: seq<string>): seq<string>
    requires |options| == |values|
    decreases |options|
  {
    if options == [] then []
    else
      OptionTokens(options[..|options| - 1], values[..|values| - 1])
      + OptionToken(options[|options| - 1], values[|values| - 1])
  }

  /** How many of `values` are non-empty. */
  function NonEmpty(values: seq<string>): nat
    decreases |values|
  {
    if values == [] then 0
    else NonEmpty(values[..|values| - 1]) + (if values[|values| - 1] == "" then 0 else 1)
  }

  /** The argument vector for one value per parameter: positionals first, then option tokens. */
  function InvocationArgs(cmd: UserCommand, values: seq<string>): seq<string>
    requires |values| == |cmd.args| + |cmd.options|
  {
    values[..|cmd.args|] + OptionTokens(cmd.options, values[|cmd.args|..])
  }

  /** Exactly one token per non-empty option value, so never more tokens than options. */
  lemma {:induction false} OptionTokensLength(options: seq<UserCommandOption>, values: seq<string>)
    requires |options| == |values|
    ensures |OptionTokens(options, values)| == NonEmpty(values) <= |values|
    decreases |options|
  {
    if options != [] {
      OptionTokensLength(options[..|options| - 1], values[..|values| - 1]);
    }
  }

  /** A non-empty value of option k yields `--name=value` right after the tokens of the options before it. */
  lemma {:induction false} OptionTokenAt(options: seq<UserCommandOption>, values: seq<string>, k: nat)
    requires |options| == |values| && k < |values| && values[k] != ""
    ensures NonEmpty(values[..k]) < |OptionTokens(options, values)|
    ensures OptionTokens(options, values)[NonEmpty(values[..k])] == "--" + options[k].name + "=" + values[k]
    decreases |options|
  {
    var n := |options| - 1;
    OptionTokensLength(options[..n], values[..n]);
    if k == n {
      assert values[..k] == values[..n];
    } else {
      OptionTokenAt(options[..n], values[..n], k);
      assert values[..n][..k] == values[..k];
      assert NonEmpty(values[..n]) <= NonEmpty(values);
    }
  }

  /** Every token is `--name=value` for some option whose value was non-empty. */
  lemma {:induction false} OptionTokenFrom(options: seq<UserCommandOption>, values: seq<string>, j: nat)
    requires |options| == |values| && j < |OptionTokens(options, values)|
    ensures exists k :: (0 <= k < |values| && values[k] != "" &&
      OptionTokens(options, values)[j] == "--" + options[k].name + "=" + values[k])
    decreases |options|
  {
    var n := |options| - 1;
    var before := OptionTokens(options[..n], values[..n]);
    if j < |before| {
      OptionTokenFrom(options[..n], values[..n], j);
      var k :| 0 <= k < n && values[..n][k] != "" &&
        before[j] == "--" + options[..n][k].name + "=" + values[..n][k];
      assert values[k] == values[..n][k] && options[k] == options[..n][k];
    } else {
      assert values[n] != "";
    }
  }

  /** The vector starts with the positional values verbatim, then adds one token per non-empty option. */
  lemma InvocationShape(cmd: UserCommand, values: seq<string>)
    requires |values| == |cmd.args| + |cmd.options|
    ensures var out := InvocationArgs(cmd, values);
      && out[..|cmd.args|] == values[..|cmd.args|]
      && |out| == |cmd.args| + NonEmpty(values[|cmd.args|..])
      && |cmd.args| <= |out| <= |cmd.args| + |cmd.options|
  {
    OptionTokensLength(cmd.options, values[|cmd.args|..]);
  }

  /** One more option and value add that option's tokens at the end, after any `prefix`. */
  lemma OptionTokensSnoc(prefix: seq<string>, options: seq<UserCommandOption>, values: seq<string>,
                         o: UserCommandOption, v: string)
    requires |options| == |values|
    ensures prefix + OptionTokens(options + [o], values + [v])
      == (prefix + OptionTokens(options, values)) + OptionToken(o, v)
  {
    assert (options + [o])[..|options|] == options;
    assert (values + [v])[..|values|] == values;
    var tokens := OptionTokens(options, values);
    assert prefix + (tokens + OptionToken(o, v)) == (prefix + tokens) + OptionToken(o, v);
  }

  /** A text prompt at position `pos` of the script reads the answer there and nothing else. */
  lemma ReadTextAt(script: seq<Answer>, pos: nat)
    requires pos <= |script|
    ensures AskForString(script[pos..]).Ok? <==> pos < |script| && script[pos].Text?
    ensures AskForString(script[pos..]).Ok? ==>
      AskForString(script[pos..]).value == Step(script[pos].text, script[pos + 1..])
  {
    if pos < |script| {
      assert script[pos..][0] == script[pos] && script[pos..][1..] == script[pos + 1..];
    }
  }

  /** A slice one longer ends with the next element. */
  lemma SliceSnoc<T>(s: seq<T>, lo: nat, hi: nat)
    requires lo <= hi < |s|
    ensures s[lo..hi + 1] == s[lo..hi] + [s[hi]]
    ensures lo == 0 ==> s[..hi + 1] == s[..hi] + [s[hi]]
  {
  }

  /** The vector once the positionals and the first `j` options have been answered with `values`. */
  function ArgsSoFar(cmd: UserCommand, values: seq<string>, j: nat): seq<string>
    requires j <= |cmd.options| && |cmd.args| + j <= |values|
  {
    var m := |cmd.args|;
    values[..m] + OptionTokens(cmd.options[..j], values[m..m + j])
  }

  /** One pass of the option loop extends the vector by that option's tokens. */
  lemma OptionLoopStep(cmd: UserCommand, values: seq<string>, j: nat)
    requires j < |cmd.options| && |cmd.args| + j < |values|
    ensures ArgsSoFar(cmd, values, j + 1)
      == ArgsSoFar(cmd, values, j) + OptionToken(cmd.options[j], values[|cmd.args| + j])
  {
    var m := |cmd.args|;
    var o, v := cmd.options[j], values[m + j];
    SliceSnoc(cmd.options, 0, j);
    SliceSnoc(values, m, m + j);
    OptionTokensSnoc(values[..m], cmd.options[..j], values[m..m + j], o, v);
  }

  /** Once every option is answered, the vector is the one the answers determine. */
  lemma InvocationOfScript(cmd: UserCommand, script: seq<Answer>)
    requires |cmd.args| + |cmd.options| <= |script|
    ensures ArgsSoFar(cmd, TextsOf(script), |cmd.options|)
      == InvocationArgs(cmd, TextsOf(script[..|cmd.args| + |cmd.options|]))
  {
    var m, n := |cmd.args|, |cmd.args| + |cmd.options|;
    var values := TextsOf(script);
    assert TextsOf(script[..n]) == values[..n];
    assert values[..n][..m] == values[..m];
    assert values[..n][m..] == values[m..n];
    assert cmd.options[..|cmd.options|] == cmd.options;
  }

  /**
   * `run_interactive`: one text prompt per positional, then one per option;
   * the k-th prompt reads the k-th answer of the script.
   */
  method RunInteractive(cmd: UserCommand, script: seq<Answer>) returns (r: Reply<Invocation>)
    ensures r.Ok? <==> AllText(script, |cmd.args| + |cmd.options|)
    ensures r.Ok? ==>
      var n := |cmd.args| + |cmd.options|;
      r.value == Step(Invocation(cmd.name, InvocationArgs(cmd, TextsOf(script[..n]))), script[n..])
  {
    ghost var values := TextsOf(script);
    var args: seq<string> := [];
    for i := 0 to |cmd.args|
      invariant AllText(script, i)
      invariant args == values[..i]
    {
      ReadTextAt(script, i);
      var val := AskForString(script[i..]);
      if val.Err? {
        return Err(val.error);
      }
      assert values[..i + 1] == values[..i] + [values[i]];
      args := args + [val.value.value];
    }
    var m := |cmd.args|;
    assert ArgsSoFar(cmd, values, 0) == values[..m] + [];
    for j := 0 to |cmd.options|
      invariant AllText(script, m + j)
      invariant args == ArgsSoFar(cmd, values, j)
    {
      ReadTextAt(script, m + j);
      var val := AskForString(script[m + j..]);
      if val.Err? {
        return Err(val.error);
      }
      OptionLoopStep(cmd, values, j);
      ghost var before := args;
      if val.value.value != "" {
        args := args + ["--" + cmd.options[j].name + "=" + val.value.value];
      }
      assert args == before + OptionToken(cmd.options[j], Entered(script[m + j]));
    }
    InvocationOfScript(cmd, script);
    r := Ok(Step(Invocation(cmd.name, args), script[m + |cmd.options|..]));
  }

  /** The "pd" example: one file argument and one path option, elicited in that order. */
  lemma PipelineDriverBuilt()
    ensures Schema([Text("pd"), Text("pipeline-driver"),
                    Confirm(true), Text("file"), Choice(3), Confirm(false),
                    Confirm(true), Text("output"), Choice(4), Confirm(false)])
      == Ok(Step(PipelineDriver(), []))
  {
    var ae := [Entry("file", 3)];
    var oe := [Entry("output", 4)];
    assert EntriesScript(ae) == [Confirm(true), Text("file"), Choice(3)] + EntriesScript([]);
    assert EntriesScript(oe) == [Confirm(true), Text("output"), Choice(4)] + EntriesScript([]);
    assert SchemaScript("pd", "pipeline-driver", ae, oe) + [] ==
      [Text("pd"), Text("pipeline-driver"),
       Confirm(true), Text("file"), Choice(3), Confirm(false),
       Confirm(true), Text("output"), Choice(4), Confirm(false)];
    SchemaReadsScript("pd", "pipeline-driver", ae, oe, []);
    assert ArgsOf(ae) == [UserCommandArg("file", FileArg)];
    assert OptionsOf(oe) == [UserCommandOption("output", None, None, PathArg)];
  }

  /** The schema the "pd" example builds. */
  function PipelineDriver(): UserCommand
  {
    UserCommand("pd", "pipeline-driver", [UserCommandArg("file", FileArg)],
                [UserCommandOption("output", None, None, PathArg)])
  }

  /** Invoking "pd": the option token appears only when the option is answered. */
  lemma PipelineDriverRun()
    ensures InvocationArgs(PipelineDriver(), ["run.mro", "/tmp/out"]) == ["run.mro", "--output=/tmp/out"]
    ensures InvocationArgs(PipelineDriver(), ["run.mro", ""]) == ["run.mro"]
  {
    var pd := PipelineDriver();
    assert ["run.mro", "/tmp/out"][1..] == ["/tmp/out"];
    assert ["run.mro", ""][1..] == [""];
    assert pd.options[..0] == [];
    assert OptionTokens(pd.options, ["/tmp/out"]) == OptionTokens([], []) + OptionToken(pd.options[0], "/tmp/out");
    assert OptionTokens(pd.options, [""]) == OptionTokens([], []) + OptionToken(pd.options[0], "");
    assert ["run.mro", "/tmp/out"][..1] == ["run.mro"] && ["run.mro", ""][..1] == ["run.mro"];
    assert "--" + "output" + "=" + "/tmp/out" == "--output=/tmp/out";
  }

  /** Running "pd" end to end: the program is the schema's name, not its exec. */
  method PipelineDriverInvoked() returns (r: Reply<Invocation>)
    ensures r == Ok(Step(Invocation("pd", ["run.mro", "--output=/tmp/out"]), []))
  {
    var script := [Text("run.mro"), Text("/tmp/out")];
    r := RunInteractive(PipelineDriver(), script);
    assert AllText(script, 2);
    assert script[..2] == script && script[2..] == [];
    assert TextsOf(script) == ["run.mro", "/tmp/out"];
    PipelineDriverRun();
  }
}
