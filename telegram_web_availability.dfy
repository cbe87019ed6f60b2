/**
 * `TelegramBot::WebAvailability` of telegram_bot.rb: `start` registers every
 * command, whatever its `:type`, as description to message; a text equal
 * to a description gets the stored message, any other text the Spanish
 * unknown-command reply. Actions are ignored altogether.
 */
module TelegramWebAvailability {
  import opened Chat
  import RubyHash
  import Registration

  const UNKNOWN_PREFIX := "Comando desconocido: "

  /** `start` has no platform filter. */
  predicate AnyCommand(info: CommandInfo) {
    true
  }

  /** `start` keeps only the message of a command (possibly nil). */
  function MessageOf(info: CommandInfo): Option<string> {
    info.message
  }

  /** `@processed_commands` after `start` ran over `commands` from `processed`. */
  function Registered(processed: map<string, Option<string>>,
                      commands: RubyHash.Hash<string, CommandInfo>): map<string, Option<string>> {
    Registration.RegisterAll(processed, RubyHash.Values(commands), AnyCommand, MessageOf)
  }

  /** Effects of the `listen` block for one message. */
  function Response(processed: map<string, Option<string>>, msg: Incoming): seq<Effect> {
    if msg.text in processed then SendText(msg.from, processed[msg.text])
    else [Send(msg.from, UNKNOWN_PREFIX + msg.text)]
  }

  class WebAvailability {
    /** `@commands`. */
    const commands: RubyHash.Hash<string, CommandInfo>
    /** `@connection`, never read. */
    const connection: string
    /** `@processed_commands`: description to message. */
    var processed: map<string, Option<string>>
    /** Every effect emitted so far, in order. */
    var outbox: seq<Effect>

    /** `initialize`; the Telegram client and the unused `@user_data` are not modelled. */
    constructor (connection: string, commands: RubyHash.Hash<string, CommandInfo>)
      ensures this.commands == commands && this.connection == connection
      ensures processed == map[] && outbox == []
    {
      this.commands := commands;
      this.connection := connection;
      processed := map[];
      outbox := [];
    }

    /** The registration loop of `start` (the `listen` loop it then enters is not modelled). */
    method Start()
      modifies this`processed
      ensures processed == Registered(old(processed), commands)
    {
      var infos := RubyHash.Values(commands);
      var i := 0;
      while i < |infos|
        invariant 0 <= i <= |infos|
        invariant Registration.RegisterAll(processed, infos[i..], AnyCommand, MessageOf)
               == Registration.RegisterAll(old(processed), infos, AnyCommand, MessageOf)
      {
        assert infos[i..][1..] == infos[i + 1..];
        AddCommand(infos[i].description, infos[i].message);
        i := i + 1;
      }
    }

    method AddCommand(description: string, message: Option<string>)
      modifies this`processed
      ensures processed == old(processed)[description := message]
    {
      processed := processed[description := message];
    }

    /** The body of the `listen` block for one received message. */
    method Receive(msg: Incoming)
      modifies this`outbox
      ensures outbox == old(outbox) + Response(processed, msg)
    {
      if msg.text in processed {
        SendMessage(msg.from, processed[msg.text]);
      } else {
        HandleUnknownCommand(msg);
      }
    }

    method HandleUnknownCommand(msg: Incoming)
      modifies this`outbox
      ensures outbox == old(outbox) + [Send(msg.from, UNKNOWN_PREFIX + msg.text)]
    {
      SendMessage(msg.from, Some(UNKNOWN_PREFIX + msg.text));
    }

    /** `@bot.api.send_message(chat_id:, text:)`, recorded in the outbox. */
    method SendMessage(chatId: Target, text: Option<string>)
      modifies this`outbox
      ensures outbox == old(outbox) + SendText(chatId, text)
    {
      if text.Some? {
        outbox := outbox + [Send(chatId, text.value)];
      } else {
        outbox := outbox + [SendNil(chatId)];
      }
    }
  }

  /** After `start` on a fresh bot, every description is registered, whatever its `:type`. */
  lemma StartRegistersAll(commands: RubyHash.Hash<string, CommandInfo>, k: string)
    ensures k in Registered(map[], commands) <==>
            exists i | 0 <= i < |commands| :: commands[i].1.description == k
  {
    var infos := RubyHash.Values(commands);
    Registration.RegisteredKeys(map[], infos, AnyCommand, MessageOf, k);
    if exists i :: Registration.Registers(infos, i, AnyCommand, k) {
      var i :| Registration.Registers(infos, i, AnyCommand, k);
      assert commands[i].1.description == k;
    }
    if exists i | 0 <= i < |commands| :: commands[i].1.description == k {
      var i :| 0 <= i < |commands| && commands[i].1.description == k;
      assert Registration.Registers(infos, i, AnyCommand, k);
    }
  }

  /** The message stored under a description is that of the last command with it. */
  lemma StartKeepsLastMessage(commands: RubyHash.Hash<string, CommandInfo>, j: int)
    requires 0 <= j < |commands|
    requires forall i | j < i < |commands| :: commands[i].1.description != commands[j].1.description
    ensures commands[j].1.description in Registered(map[], commands)
    ensures Registered(map[], commands)[commands[j].1.description] == commands[j].1.message
  {
    var infos := RubyHash.Values(commands);
    forall i | j < i < |infos| ensures !Registration.Registers(infos, i, AnyCommand, infos[j].description) {
      assert infos[i] == commands[i].1;
    }
    Registration.RegisteredValueIsLastWrite(map[], infos, AnyCommand, MessageOf, j);
  }

  /**
   * A text equal to a description gets its stored message; any other text,
   * even one that starts with a description, gets the unknown-command reply.
   * No Proc is ever called.
   */
  lemma ExactTextOnly(processed: map<string, Option<string>>, msg: Incoming)
    ensures msg.text in processed ==> Response(processed, msg) == SendText(msg.from, processed[msg.text])
    ensures msg.text !in processed ==> Response(processed, msg) == [Send(msg.from, UNKNOWN_PREFIX + msg.text)]
    ensures NoInvoke(Response(processed, msg)) && AllAddressedTo(Response(processed, msg), msg.from)
    ensures |Response(processed, msg)| == 1
  {
  }
}
