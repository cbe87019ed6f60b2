/**
 * The shared-base draft of bots/bot.rb: `add_command` keeps only the action
 * of a command that has one, `handle_command` lets the action win, and an
 * unknown command goes to the handler or gets a default reply. The class
 * calls a `send_message` it does not define; here it appends to the outbox.
 */
module BaseBot {
  import opened Chat
  import RubyHash

  const UNKNOWN_PREFIX := "Unknown command: "

  /** `valid_command?`: the command carries no `:type`. */
  predicate ValidCommand(info: CommandInfo) {
    info.kind.None?
  }

  /** Effects of `execute_action`: only a Proc is called; anything else does nothing. */
  function ActionResponse(action: Action, msg: Incoming): seq<Effect> {
    if action.Proc? then [Invoke(action.handler, msg.text, msg.from)] else []
  }

  /** Effects of `handle_command`: the action when truthy, otherwise the message. */
  function CommandResponse(command: Entry, msg: Incoming): seq<Effect> {
    if Truthy(command.action) then ActionResponse(command.action, msg) else SendText(msg.from, command.message)
  }

  /** Effects of `handle_unknown_command`: the handler, or the default reply. */
  function UnknownResponse(handler: Option<HandlerId>, msg: Incoming): seq<Effect> {
    match handler
    case Some(h) => [Invoke(h, msg.text, msg.from)]
    case None => [Send(msg.from, UNKNOWN_PREFIX + msg.text)]
  }

  class Bot {
    /** `@commands` (read by nothing else in the class). */
    const commands: RubyHash.Hash<string, CommandInfo>
    /** `@unknown_command_handler`. */
    const unknownHandler: Option<HandlerId>
    /** `@processed_commands`. */
    var processed: map<string, Entry>
    /** Every effect emitted so far, in order. */
    var outbox: seq<Effect>

    constructor (commands: RubyHash.Hash<string, CommandInfo>, unknownHandler: Option<HandlerId>)
      ensures this.commands == commands && this.unknownHandler == unknownHandler
      ensures processed == map[] && outbox == []
    {
      this.commands := commands;
      this.unknownHandler := unknownHandler;
      processed := map[];
      outbox := [];
    }

    method AddCommand(description: string, message: Option<string>, action: Action)
      modifies this`processed
      ensures processed == old(processed)[description := StoredEntry(message, action)]
    {
      if Truthy(action) {
        processed := processed[description := Entry(None, action)];
      } else {
        processed := processed[description := Entry(message, Nil)];
      }
    }

    method HandleCommand(command: Entry, msg: Incoming)
      modifies this`outbox
      ensures outbox == old(outbox) + CommandResponse(command, msg)
    {
      if Truthy(command.action) {
        ExecuteAction(command.action, msg);
      } else {
        SendMessage(msg.from, command.message);
      }
    }

    method HandleUnknownCommand(msg: Incoming)
      modifies this`outbox
      ensures outbox == old(outbox) + UnknownResponse(unknownHandler, msg)
    {
      if unknownHandler.Some? {
        outbox := outbox + [Invoke(unknownHandler.value, msg.text, msg.from)];
      } else {
        SendMessage(msg.from, Some(UNKNOWN_PREFIX + msg.text));
      }
    }

    method ExecuteAction(action: Action, msg: Incoming)
      modifies this`outbox
      ensures outbox == old(outbox) + ActionResponse(action, msg)
    {
      if action.Proc? {
        outbox := outbox + [Invoke(action.handler, msg.text, msg.from)];
      }
    }

    /** The `send_message` the class relies on, recorded in the outbox. */
    method SendMessage(to: Target, text: Option<string>)
      modifies this`outbox
      ensures outbox == old(outbox) + SendText(to, text)
    {
      if text.Some? {
        outbox := outbox + [Send(to, text.value)];
      } else {
        outbox := outbox + [SendNil(to)];
      }
    }
  }

  /**
   * The scenario of specs/bot_spec.rb:35-41: on a fresh bot, `add_command`
   * with a message and no action leaves the description a key of
   * `@processed_commands`, holding that message and no action.
   */
  method AddMessageOnly(commands: RubyHash.Hash<string, CommandInfo>, handler: Option<HandlerId>,
                        description: string, message: string)
    returns (registered: bool, entry: Option<Entry>)
    ensures registered
    ensures entry == Some(Entry(Some(message), Nil))
  {
    var bot := new Bot(commands, handler);
    bot.AddCommand(description, Some(message), Nil);
    registered := description in bot.processed;
    entry := if registered then Some(bot.processed[description]) else None;
  }

  /**
   * `handle_command` runs exactly one of the two paths: a truthy action is
   * never accompanied by the message, and without one nothing is called.
   */
  lemma CommandPathsExclusive(command: Entry, msg: Incoming)
    ensures Truthy(command.action) ==> forall e | e in CommandResponse(command, msg) :: e.Invoke?
    ensures !Truthy(command.action) ==> NoInvoke(CommandResponse(command, msg)) && |CommandResponse(command, msg)| == 1
  {
  }

  /**
   * `valid_command?` accepts exactly the commands that both the Discord and
   * the Telegram filter of `start` accept.
   */
  lemma ValidCommandIffBothPlatforms(info: CommandInfo)
    ensures ValidCommand(info) <==> Visible(info, "discord") && Visible(info, "telegram")
  {
  }

  /** A command `valid_command?` accepts passes the platform filter of every bot. */
  lemma ValidCommandVisibleEverywhere(info: CommandInfo, platform: string)
    requires ValidCommand(info)
    ensures Visible(info, platform)
  {
  }

  /**
   * The '/start' command of specs/bot_spec.rb carries `type: 'telegram'`, so
   * `valid_command?` rejects it, although the spec expects true.
   */
  lemma SpecStartCommandRejected()
    ensures !ValidCommand(CommandInfo("/start", Some("Welcome!"), Nil, Some("telegram")))
  {
  }
}
