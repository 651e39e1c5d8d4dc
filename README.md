# whirlwind: command schema, builder, invoker and registry

whirlwind is a per-workspace command registry. A user describes a shell
command once: its name, the program it runs, its positional arguments and
its optional named options, each with a type tag. The description is stored
with environment bindings in the workspace configuration. Later the user
picks a stored command and answers one prompt per parameter. whirlwind then
produces a program name and an ordered argument vector.

This Dafny project models that core:

- `wrappers.dfy`, module `Wrappers`: `Option` and `Result`.
- `command.dfy`, module `Command` (src/command.rs): the schema datatypes
  (`UserCommand`, `UserCommandArg`, `UserCommandOption`, the six-tag
  `UserCommandArgType`), the index-to-type mapping of the type prompt, the
  builder (`FromCli`, `AskForArgs`, `AskForOptions`) and the invoker
  (`RunInteractive`).
- `config.dfy`, module `Config` (src/config.rs): class `WhirlwindConfig`
  with its `environment` and `commands` maps, updated in place by
  `AddCommand`, `AddEnv`, `RemoveCommand` and `RemoveEnv`.

**Prompts as an answer script.** Each terminal prompt reads the next answer
of a script `seq<Answer>`. An answer is `Text(s)`, `Confirm(b)`,
`Choice(i)` or `Fail`. A prompt fails with `InteractionFailed` when the
script has run out, when the next answer is `Fail`, or when the next answer
is of another kind than the prompt asks for. A selection prompt also fails
on an index outside its item list, since the widget never yields one. Every
read returns the value and the rest of the script (`Step`), so the
builder and the invoker hand the leftover answers to the next prompt. The
first failed prompt aborts the operation, as Rust's `?` does in
src/command.rs. No
partial schema or partial vector is returned.

**How the loops are specified.** Each parameter loop (`ask_for_args`,
`ask_for_options`) is a method with a `while` loop. It is proved equal to
the recursive function `Elicit` (with `Resume`). `Elicit` gets its meaning
from the encoder `EntriesScript`: a loop records exactly the entries `es`
and leaves `rest` if and only if its answers are `EntriesScript(es) + rest`
(`ElicitCharacterized`). `from_cli` is the method `FromCli`. It is proved
equal to the function `Schema`, which is characterised the same way
through `SchemaScript`. `run_interactive` is the method `RunInteractive`.
Its postcondition relates its result directly to the text answers and the
function `InvocationArgs`. The lemmas about `OptionTokens` state what
`InvocationArgs` means.

**The program returned.** The invoker returns the schema's `name` as the
program, not its `exec` (src/command.rs:104). `RunInteractive` keeps this,
so the "pd" example yields program `"pd"` (`PipelineDriverInvoked`).

## Model

| member | source | states |
|---|---|---|
| `Command.AskForString` | src/command.rs:109-112 | a text prompt succeeds iff the next answer is a text answer, and then consumes exactly that one answer |
| `Command.AskForBool` | src/command.rs:113-116 | a yes/no prompt succeeds iff the next answer is a confirmation, and then consumes exactly that one answer |
| `Command.AskForSelect` | src/command.rs:127-130 | a selection succeeds iff the next answer is a choice within the item list; it consumes that answer and yields an index below the list length |
| `Command.ArgTypeOf` | src/command.rs:132-169 | the chosen type is `Other` exactly for indices 5 and above (the match's catch-all arm); indices 0 to 4 give the five other tags |
| `Command.TypeIndex` | src/command.rs:119-169 | every type is offered at an index of the six-label list, picking that index gives the type back, and the label there names it |
| `Command.SelectionTable` | src/command.rs:119-169 | the label list and the match arms agree: for each index i of `["string","int","float","file","path","other"]`, the chosen type's label is the i-th label, and its own index is i |
| `Command.ElicitReadsScript` | src/command.rs:121-174 | answering a parameter loop with yes, name, type for each entry and then no records exactly those entries, in order, and leaves the remaining answers untouched |
| `Command.ElicitOnlyScript` | src/command.rs:121-174 | whenever a parameter loop succeeds, the answers it consumed are exactly the gate/name/type script of the entries it recorded, all with valid type indices |
| `Command.ElicitCharacterized` | src/command.rs:121-174 | a loop records `es` and leaves `rest` if and only if the script is the script of `es` followed by `rest` (both directions) |
| `Command.AskForArgs` | src/command.rs:118-175 | the positional loop fails iff the answers do not follow the loop protocol; on success it returns one parameter per loop pass, in elicitation order, with the name as typed and the type of the chosen index; a first "no" gives the empty list |
| `Command.AskForOptions` | src/command.rs:177-246 | the same protocol for options; every option has `short == None` and `long == None` |
| `Command.SchemaReadsScript` | src/command.rs:50-62 | answering name, exec, the argument loop and the option loop builds exactly the command `{name, exec, args, options}` from those answers, and leaves the rest |
| `Command.SchemaOnlyScript` | src/command.rs:50-62 | every command built comes from such a script, and its parameters are the entries of the two loops |
| `Command.FromCli` | src/command.rs:50-62 | the builder asks name, exec, arguments and options in that order; its result is the schema `Schema` describes, and any failed prompt gives an error with no schema |
| `Command.OptionTokensLength` | src/command.rs:95-102 | the option tokens number exactly the non-empty option values, so never more than the options |
| `Command.OptionTokenAt` | src/command.rs:95-102 | a non-empty value `v` of option k yields the token `"--" + name + "=" + v`, placed right after the tokens of the options before k (declared order) |
| `Command.OptionTokenFrom` | src/command.rs:95-102 | every option token is `"--" + name + "=" + v` for some option whose value `v` was non-empty; an empty value yields no token |
| `Command.InvocationShape` | src/command.rs:87-102 | the vector starts with the positional values verbatim and in order; its length is the positional count plus the number of non-empty option values, between `|args|` and `|args| + |options|` |
| `Command.RunInteractive` | src/command.rs:86-105 | succeeds iff the next `|args| + |options|` answers are all text; then the program is the schema's `name` (not `exec`), the vector is `InvocationArgs` of those answers, and exactly those answers are consumed; otherwise an error with no vector |
| `Command.PipelineDriverBuilt` | src/command.rs:50-62 | the "pd" example: name "pd", exec "pipeline-driver", one `file` argument (index 3, `FileArg`), one `output` option (index 4, `PathArg`) |
| `Command.PipelineDriverRun` | src/command.rs:86-102 | invoking "pd" with "run.mro" and "/tmp/out" gives `["run.mro", "--output=/tmp/out"]`; with an empty option value it gives `["run.mro"]` |
| `Command.PipelineDriverInvoked` | src/command.rs:86-105 | running "pd" on the answers "run.mro" and "/tmp/out" gives program `"pd"` (the name, not the exec) with `["run.mro", "--output=/tmp/out"]`, and consumes both answers |
| `Config.InsertKeepsKeying` | src/config.rs:67-69 | filing a command under its own name keeps every key equal to its command's name |
| `Config.RemoveUndoesInsert` | src/config.rs:69 | removing a key just set leaves every other entry as it was; if the key was new, the map is back to its old value |
| `Config.WhirlwindConfig.constructor` | src/config.rs:35-43 | a new configuration has an empty workspace path, no bindings and no commands, and is keyed by name |
| `Config.WhirlwindConfig.AddCommand` | src/config.rs:65-74 | fails iff building fails, and then changes nothing; otherwise `commands` becomes the old map with the built command under its own name, the notice is `Updated` iff that name was already a key, and the keyed-by-name invariant is kept |
| `Config.WhirlwindConfig.AddEnv` | src/config.rs:76-88 | `environment` becomes the old map with `name` bound to `value`; the notice carries the old value iff `name` was bound; nothing else changes |
| `Config.WhirlwindConfig.RemoveCommand` | src/config.rs:92-102 | `name` is absent afterwards, every other command is kept, the notice is `Removed` iff `name` was present, and an absent name leaves the map unchanged |
| `Config.WhirlwindConfig.RemoveEnv` | src/config.rs:104-114 | the same contract over `environment` |
| `Config.AddThenRemoveCommand` | src/config.rs:65-102 | adding a command and removing it by name leaves the registry as before, apart from a command the addition replaced |

## Left out

- Terminal prompts (dialoguer `Input`, `Confirm`, `Select`): replaced by the answer script; prompt texts and rendering are not modelled.
- `AskForString`: accepts every text answer, the empty one included. Whether dialoguer's `Input` ever returns an empty line depends on the library's configuration, which is not part of this model. The empty-value skip of src/command.rs:99 is reachable in the model, but may not be at a terminal if `Input` asks again on an empty line.
- `WhirlwindConfig::write` and `WhirlwindConfig::read` (src/config.rs:48-61): TOML serialisation and file I/O. A configuration loaded from a hand-edited file may break the keyed-by-name invariant; the model states it only for configurations changed through the methods above.
- `run_clap` (src/command.rs:64-84): a wrapper around the clap builder that reads the process arguments.
- `list_command` and `list_env` (src/config.rs:118-144): coloured printing only; map iteration order is unspecified.
- The printed notices of the registry methods: returned as `CommandNotice`, `EnvNotice` and `Removal` values instead.
- src/main.rs (subcommand dispatch, the command-selection prompt, printing the invocation) and src/init.rs (directory scan and file creation) are not part of this model.
- The error message text of `anyhow` errors: every prompt failure is the single error `InteractionFailed`.
- The `PathBuf` of the workspace is carried as a string; no path operations happen in the core.
