/**
 * The Telegram bot of bots/telegram_bot.rb: `start` registers the commands
 * meant for Telegram (or for every platform) with both their message and
 * their action; a message is looked up by its whole text, and the action,
 * when there is one, wins over the message.
 */
module TelegramCommandBot {
  import opened Chat
  import RubyHash
  import Registration

  const PLATFORM := "telegram"
  const UNKNOWN_PREFIX := "Unknown command: "

  /** The filter of `start`: `:type` is nil or 'telegram'. */
  predicate ForTelegram(info: CommandInfo) {
    Visible(info, PLATFORM)
  }

  /** The entry `start` stores for a command hash: `{message:, action:}` as given. */
  function EntryOf(info: CommandInfo): (e: Entry)
    ensures e.message == info.message && e.action == info.action
  {
    Entry(info.message, info.action)
  }

  /** `@processed_commands` after `start` ran over `commands` from `processed`. */
  function Registered(processed: map<string, Entry>, commands: RubyHash.Hash<string, CommandInfo>): map<string, Entry> {
    Registration.RegisterAll(processed, RubyHash.Values(commands), ForTelegram, EntryOf)
  }

  /** `@processed_commands[message.text]`: the whole text is the key. */
  function Resolve(processed: map<string, Entry>, text: string): Option<Entry> {
    if text in processed then Some(processed[text]) else None
  }

  /** Effects of `execute_action`: a Proc is called; anything else does nothing. */
  function ActionResponse(action: Action, msg: Incoming): seq<Effect> {
    if action.Proc? then [Invoke(action.handler, msg.text, msg.from)] else []
  }

  /** Effects of `handle_command`: the action when truthy, otherwise the stored message. */
  function EntryResponse(e: Entry, msg: Incoming): seq<Effect> {
    if Truthy(e.action) then ActionResponse(e.action, msg) else SendText(msg.from, e.message)
  }

  /** Effects of `handle_unknown_command`: the handler, or the default reply. */
  function UnknownResponse(handler: Option<HandlerId>, msg: Incoming): seq<Effect> {
    match handler
    case Some(h) => [Invoke(h, msg.text, msg.from)]
    case None => [Send(msg.from, UNKNOWN_PREFIX + msg.text)]
  }

  /** Effects of the body of `listen` for one received message. */
  function Response(processed: map<string, Entry>, handler: Option<HandlerId>, msg: Incoming): seq<Effect> {
    match Resolve(processed, msg.text)
    case Some(e) => EntryResponse(e, msg)
    case None => UnknownResponse(handler, msg)
  }

  class TelegramBot {
    /** `@commands`: the command hashes given to the constructor. */
    const commands: RubyHash.Hash<string, CommandInfo>
    /** `@unknown_command_handler`. */
    const unknownHandler: Option<HandlerId>
    /** `@processed_commands`. */
    var processed: map<string, Entry>
    /** Every effect emitted so far, in order. */
    var outbox: seq<Effect>

    constructor (commands: RubyHash.Hash<string, CommandInfo>, unknownHandler: Option<HandlerId>)
      ensures this.commands == commands && this.unknownHandler == unknownHandler
      ensures processed == map[] && outbox == []
    {
      this.commands := commands;
      this.unknownHandler := unknownHandler;
      processed := map[];
      outbox := [];
    }

    /** The registration loop of `start` (the `listen` loop it then enters is not modelled). */
    method Start()
      modifies this`processed
      ensures processed == Registered(old(processed), commands)
    {
      var infos := RubyHash.Values(commands);
      var i := 0;
      while i < |infos|
        invariant 0 <= i <= |infos|
        invariant Registration.RegisterAll(processed, infos[i..], ForTelegram, EntryOf)
               == Registration.RegisterAll(old(processed), infos, ForTelegram, EntryOf)
      {
        var info := infos[i];
        assert infos[i..][1..] == infos[i + 1..];
        if info.kind.None? || info.kind == Some(PLATFORM) {
          AddCommand(info.description, info.message, info.action);
        }
        i := i + 1;
      }
    }

    method AddCommand(description: string, message: Option<string>, action: Action)
      modifies this`processed
      ensures processed == old(processed)[description := Entry(message, action)]
    {
      processed := processed[description := Entry(message, action)];
    }

    /** The body of the `listen` block for one received message. */
    method Receive(msg: Incoming)
      modifies this`outbox
      ensures outbox == old(outbox) + Response(processed, unknownHandler, msg)
    {
      if msg.text in processed {
        var command := processed[msg.text];
        HandleCommand(command, msg);
      } else {
        HandleUnknownCommand(msg);
      }
    }

    method HandleCommand(command: Entry, msg: Incoming)
      modifies this`outbox
      ensures outbox == old(outbox) + EntryResponse(command, msg)
    {
      if Truthy(command.action) {
        ExecuteAction(command.action, msg);
      } else {
        SendMessage(msg.from, command.message);
      }
    }

    method HandleUnknownCommand(msg: Incoming)
      modifies this`outbox
      ensures outbox == old(outbox) + UnknownResponse(unknownHandler, msg)
    {
      if unknownHandler.Some? {
        outbox := outbox + [Invoke(unknownHandler.value, msg.text, msg.from)];
      } else {
        SendMessage(msg.from, Some(UNKNOWN_PREFIX + msg.text));
      }
    }

    method ExecuteAction(action: Action, msg: Incoming)
      modifies this`outbox
      ensures outbox == old(outbox) + ActionResponse(action, msg)
    {
      if !action.Proc? {
        return;
      }
      outbox := outbox + [Invoke(action.handler, msg.text, msg.from)];
    }

    /** `send_message`: `api.send_message(chat_id: chat.id, text:)`, recorded in the outbox. */
    method SendMessage(chat: Target, text: Option<string>)
      modifies this`outbox
      ensures outbox == old(outbox) + SendText(chat, text)
    {
      if text.Some? {
        outbox := outbox + [Send(chat, text.value)];
      } else {
        outbox := outbox + [SendNil(chat)];
      }
    }
  }

  /**
   * After `start` on a fresh bot, a description is registered iff some
   * command with that description has `:type` nil or 'telegram'.
   */
  lemma StartRegistersVisible(commands: RubyHash.Hash<string, CommandInfo>, k: string)
    ensures k in Registered(map[], commands) <==>
            exists i | 0 <= i < |commands| :: ForTelegram(commands[i].1) && commands[i].1.description == k
  {
    var infos := RubyHash.Values(commands);
    Registration.RegisteredKeys(map[], infos, ForTelegram, EntryOf, k);
    if exists i :: Registration.Registers(infos, i, ForTelegram, k) {
      var i :| Registration.Registers(infos, i, ForTelegram, k);
      assert ForTelegram(commands[i].1) && commands[i].1.description == k;
    }
    if exists i | 0 <= i < |commands| :: ForTelegram(commands[i].1) && commands[i].1.description == k {
      var i :| 0 <= i < |commands| && ForTelegram(commands[i].1) && commands[i].1.description == k;
      assert Registration.Registers(infos, i, ForTelegram, k);
    }
  }

  /**
   * The entry `start` stores under a description is the message and action
   * of the last Telegram-visible command with that description.
   */
  lemma StartKeepsLastWrite(commands: RubyHash.Hash<string, CommandInfo>, j: int)
    requires 0 <= j < |commands| && ForTelegram(commands[j].1)
    requires forall i | j < i < |commands| ::
               !(ForTelegram(commands[i].1) && commands[i].1.description == commands[j].1.description)
    ensures commands[j].1.description in Registered(map[], commands)
    ensures Registered(map[], commands)[commands[j].1.description] == Entry(commands[j].1.message, commands[j].1.action)
  {
    var infos := RubyHash.Values(commands);
    forall i | j < i < |infos| ensures !Registration.Registers(infos, i, ForTelegram, infos[j].description) {
      assert infos[i] == commands[i].1;
    }
    Registration.RegisteredValueIsLastWrite(map[], infos, ForTelegram, EntryOf, j);
  }

  /** Extra words defeat the lookup: only a text equal to a key is a command. */
  lemma WholeTextMatch(processed: map<string, Entry>, handler: Option<HandlerId>, msg: Incoming)
    requires msg.text !in processed
    ensures Response(processed, handler, msg) == UnknownResponse(handler, msg)
  {
  }

  /** With a truthy action the stored message is never sent; a non-Proc action does nothing. */
  lemma ActionWins(processed: map<string, Entry>, handler: Option<HandlerId>, msg: Incoming, e: Entry)
    requires Resolve(processed, msg.text) == Some(e) && Truthy(e.action)
    ensures forall i | 0 <= i < |Response(processed, handler, msg)| :: Response(processed, handler, msg)[i].Invoke?
    ensures e.action == NonProc ==> Response(processed, handler, msg) == []
  {
  }

  /** Without an action the stored message (possibly nil) is sent to the chat. */
  lemma MessageWithoutAction(processed: map<string, Entry>, handler: Option<HandlerId>, msg: Incoming, e: Entry)
    requires Resolve(processed, msg.text) == Some(e) && e.action == Nil
    ensures Response(processed, handler, msg) == SendText(msg.from, e.message)
    ensures NoInvoke(Response(processed, handler, msg))
  {
  }

  /**
   * An unknown text gets exactly the default reply when there is no handler;
   * with a handler, the handler gets the text and the chat and nothing is sent.
   */
  lemma UnknownText(processed: map<string, Entry>, handler: Option<HandlerId>, msg: Incoming)
    requires msg.text !in processed
    ensures handler.None? ==> Response(processed, handler, msg) == [Send(msg.from, UNKNOWN_PREFIX + msg.text)]
    ensures handler.Some? ==> Response(processed, handler, msg) == [Invoke(handler.value, msg.text, msg.from)]
  {
  }
}
