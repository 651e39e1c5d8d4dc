/**
 * The workspace configuration of the whirlwind workspace manager: a registry
 * of commands keyed by name and a table of environment bindings, both updated
 * in place (src/config.rs). Each update reports what it did as a notice
 * instead of printing it.
 */
module Config {
  import opened Wrappers
  import opened Command

  /** The workspace root; the path is carried as text. */
  datatype WhirlwindWorkspace = WhirlwindWorkspace(directory: string)

  /** The value bound to an environment variable. */
  datatype WhirlwindEnv = WhirlwindEnv(value: string)

  /** What adding a command did: a new key, or a command of that name replaced. */
  datatype CommandNotice = Added | Updated

  /** What binding a variable did: a new key, or the value it replaced. */
  datatype EnvNotice = EnvAdded | EnvUpdated(previous: string)

  /** What a removal did: the key was there and is gone, or it was never there. */
  datatype Removal = Removed | NotFound

  /** Every stored command is filed under its own name. */
  ghost predicate KeyedByName(commands: map<string, UserCommand>)
  {
    forall k :: k in commands ==> commands[k].name == k
  }

  /** Filing a command under its own name keeps a registry keyed by name. */
  lemma InsertKeepsKeying(commands: map<string, UserCommand>, c: UserCommand)
    requires KeyedByName(commands)
    ensures KeyedByName(commands[c.name := c])
  {
  }

  /** Removing a key that has just been set leaves every other entry as it was before the set. */
  lemma RemoveUndoesInsert<V>(m: map<string, V>, k: string, v: V)
    ensures m[k := v] - {k} == m - {k}
    ensures k !in m ==> m[k := v] - {k} == m
  {
  }

  class WhirlwindConfig {
    var workspace: WhirlwindWorkspace
    var environment: map<string, WhirlwindEnv>
    var commands: map<string, UserCommand>

    /** The registry invariant that `add_command` maintains. */
    ghost predicate Valid()
      reads this
    {
      KeyedByName(commands)
    }

    /** `new`: an empty workspace path, no bindings and no commands. */
    constructor ()
      ensures Valid()
      ensures workspace.directory == "" && environment == map[] && commands == map[]
    {
      workspace := WhirlwindWorkspace("");
      environment := map[];
      commands := map[];
    }

    /**
     * `add_command`: build a command from the session, then file it under its
     * own name, replacing any command of that name.
     */
    method AddCommand(script: seq<Answer>) returns (r: Result<CommandNotice, Error>)
      modifies this
      ensures workspace == old(workspace) && environment == old(environment)
      ensures r.Err? <==> Schema(script).Err?
      ensures r.Err? ==> commands == old(commands)
      ensures r.Ok? ==>
        var c := Schema(script).value.value;
        && commands == old(commands)[c.name := c]
        && (r.value == Updated <==> c.name in old(commands))
      ensures old(Valid()) ==> Valid()
    {
      var command := FromCli(script);
      if command.Err? {
        return Err(command.error);
      }
      var c := command.value.value;
      var name := c.name;
      var replaced := name in commands;
      commands := commands[name := c];
      r := Ok(if replaced then Updated else Added);
    }

    /** `add_env`: bind `name` to `value`, reporting the value it replaced. */
    method AddEnv(name: string, value: string) returns (notice: EnvNotice)
      modifies this
      ensures workspace == old(workspace) && commands == old(commands)
      ensures environment == old(environment)[name := WhirlwindEnv(value)]
      ensures notice == if name in old(environment) then EnvUpdated(old(environment)[name].value) else EnvAdded
      ensures old(Valid()) ==> Valid()
    {
      var previous := if name in environment then Some(environment[name]) else None;
      environment := environment[name := WhirlwindEnv(value)];
      notice := if previous.Some? then EnvUpdated(previous.value.value) else EnvAdded;
    }

    /** `remove_command`: drop the command filed under `name`, if any. */
    method RemoveCommand(name: string) returns (removal: Removal)
      modifies this
      ensures workspace == old(workspace) && environment == old(environment)
      ensures commands == old(commands) - {name}
      ensures removal == Removed <==> name in old(commands)
      ensures name !in old(commands) ==> commands == old(commands)
      ensures old(Valid()) ==> Valid()
    {
      if name in commands {
        commands := commands - {name};
        removal := Removed;
      } else {
        removal := NotFound;
      }
    }

    /** `remove_env`: drop the binding of `name`, if any. */
    method RemoveEnv(name: string) returns (removal: Removal)
      modifies this
      ensures workspace == old(workspace) && commands == old(commands)
      ensures environment == old(environment) - {name}
      ensures removal == Removed <==> name in old(environment)
      ensures name !in old(environment) ==> environment == old(environment)
      ensures old(Valid()) ==> Valid()
    {
      if name in environment {
        environment := environment - {name};
        removal := Removed;
      } else {
        removal := NotFound;
      }
    }
  }

  /**
   * Adding a command and then removing it by name leaves the registry as it
   * was, apart from any command the addition replaced.
   */
  method AddThenRemoveCommand(config: WhirlwindConfig, script: seq<Answer>)
    modifies config
    ensures Schema(script).Ok? ==>
      config.commands == old(config.commands) - {Schema(script).value.value.name}
    ensures Schema(script).Err? ==> config.commands == old(config.commands)
    ensures config.environment == old(config.environment) && config.workspace == old(config.workspace)
  {
    var added := config.AddCommand(script);
    if added.Ok? {
      var c := Schema(script).value.value;
      RemoveUndoesInsert(old(config.commands), c.name, c);
      var removal := config.RemoveCommand(c.name);
    }
  }
}
