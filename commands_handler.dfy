/**
 * The validated command table of commands_handler/bot_commands.rb: a command
 * is refused with an `ArgumentError` when it has neither message nor action,
 * and is otherwise stored under its name.
 */
module CommandsHandler {
  import opened Chat

  const INVALID_COMMAND := "Invalid command: must have either a message or an action."

  /** A command hash `{name:, description:, message:, action:, platform:}`. */
  datatype NamedCommand = NamedCommand(
    name: string,
    description: string,
    message: Option<string>,
    action: Action,
    platform: Option<string>)

  datatype Error = ArgumentError(message: string)

  datatype Outcome = Stored(command: NamedCommand) | Raised(error: Error)

  /** The guard of `add_command`: the command is refused only when both `:message` and `:action` are nil. */
  predicate Acceptable(c: NamedCommand) {
    !(c.message.None? && c.action.Nil?)
  }

  /** Every command in the table has a message or an action. */
  predicate AllAcceptable(commands: map<string, NamedCommand>) {
    forall k | k in commands :: Acceptable(commands[k])
  }

  class BotCommands {
    /** `@commands`, keyed by `:name`. */
    var commands: map<string, NamedCommand>

    /** The table `add_command` maintains never holds a command without message and action. */
    ghost predicate Valid()
      reads this
    {
      AllAcceptable(commands)
    }

    constructor ()
      ensures Valid() && commands == map[]
    {
      commands := map[];
    }

    method AddCommand(command: NamedCommand) returns (r: Outcome)
      requires Valid()
      modifies this`commands
      ensures Valid()
      ensures r == if Acceptable(command) then Stored(command) else Raised(ArgumentError(INVALID_COMMAND))
      ensures commands == if Acceptable(command) then old(commands)[command.name := command] else old(commands)
    {
      if command.message.None? && command.action.Nil? {
        return Raised(ArgumentError(INVALID_COMMAND));
      }
      var record := NamedCommand(command.name, command.description, command.message, command.action, command.platform);
      commands := commands[command.name := record];
      r := Stored(record);
    }
  }

  /** Both a message and an action is fine: only the both-nil case is refused. */
  lemma BothFieldsAccepted(c: NamedCommand)
    requires c.message.Some? && c.action != Nil
    ensures Acceptable(c)
  {
  }
}
