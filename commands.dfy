/**
 * The unvalidated command table of commands/commands.rb: every call of
 * `add_command` stores `{description:, message:, action:, type:}` under the
 * description, whatever the fields hold.
 */
module Commands {
  import opened Chat
  import RubyHash

  class BotCommands {
    /** `@commands`, keyed by description, in insertion order. */
    var commands: RubyHash.Hash<string, CommandInfo>

    constructor ()
      ensures commands == []
    {
      commands := [];
    }

    method AddCommand(description: string, message: Option<string>, action: Action, kind: Option<string>)
      modifies this`commands
      ensures commands == RubyHash.Store(old(commands), description, CommandInfo(description, message, action, kind))
      ensures RubyHash.Get(commands, description) == Some(CommandInfo(description, message, action, kind))
      ensures forall k | k != description :: RubyHash.Get(commands, k) == RubyHash.Get(old(commands), k)
    {
      RubyHash.StoreGet(commands, description, CommandInfo(description, message, action, kind));
      commands := RubyHash.Store(commands, description, CommandInfo(description, message, action, kind));
    }
  }
}
