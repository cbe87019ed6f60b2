/**
 * The Discord bot of bots/discord_bot.rb: `start` registers the commands
 * meant for Discord (or for every platform), keeping only the action of a
 * command that has one; a message is dispatched on its first
 * whitespace-delimited token.
 */
module DiscordCommandBot {
  import opened Chat
  import RubyHash
  import RubyString
  import Registration

  const PLATFORM := "discord"
  const INVALID_ACTION := "Invalid or non-executable action."

  /** The filter of `start`: `:type` is nil or 'discord'. */
  predicate ForDiscord(info: CommandInfo) {
    Visible(info, PLATFORM)
  }

  /** The entry `start` stores for a command hash. */
  function EntryOf(info: CommandInfo): Entry {
    StoredEntry(info.message, info.action)
  }

  /** `@processed_commands` after `start` ran over `commands` from `processed`. */
  function Registered(processed: map<string, Entry>, commands: RubyHash.Hash<string, CommandInfo>): map<string, Entry> {
    Registration.RegisterAll(processed, RubyHash.Values(commands), ForDiscord, EntryOf)
  }

  /** The entry a message resolves to: looked up by `content.split.first`. */
  function Resolve(processed: map<string, Entry>, text: string): Option<Entry> {
    var token := RubyString.FirstToken(text);
    if token.Some? && token.value in processed then Some(processed[token.value]) else None
  }

  /** Effects of `execute_action`: a Proc is called, anything else gets the invalid-action reply. */
  function ActionResponse(action: Action, ev: Incoming): seq<Effect> {
    if action.Proc? then [Invoke(action.handler, ev.text, ev.from)] else [Send(ev.from, INVALID_ACTION)]
  }

  /** Effects of `validate_command_type`: the message when there is one, else the action, else nothing. */
  function EntryResponse(e: Entry, ev: Incoming): seq<Effect> {
    if e.message.Some? then [Send(ev.from, e.message.value)]
    else if Truthy(e.action) then ActionResponse(e.action, ev)
    else []
  }

  /** Effects of `handle_unknown_command`: the handler, called with the full content, or nothing. */
  function UnknownResponse(handler: Option<HandlerId>, ev: Incoming): seq<Effect> {
    match handler
    case None => []
    case Some(h) => [Invoke(h, ev.text, ev.from)]
  }

  /** Effects of `process_message` for one received message. */
  function Response(processed: map<string, Entry>, handler: Option<HandlerId>, ev: Incoming): seq<Effect> {
    match Resolve(processed, ev.text)
    case Some(e) => EntryResponse(e, ev)
    case None => UnknownResponse(handler, ev)
  }

  class DiscordBot {
    /** `@commands`: the command hashes given to the constructor. */
    const commands: RubyHash.Hash<string, CommandInfo>
    /** `@unknown_command_handler`. */
    const unknownHandler: Option<HandlerId>
    /** `@processed_commands`. */
    var processed: map<string, Entry>
    /** Every effect emitted so far, in order. */
    var outbox: seq<Effect>

    constructor (commands: RubyHash.Hash<string, CommandInfo>, unknownHandler: Option<HandlerId>)
      ensures this.commands == commands && this.unknownHandler == unknownHandler
      ensures processed == map[] && outbox == []
    {
      this.commands := commands;
      this.unknownHandler := unknownHandler;
      processed := map[];
      outbox := [];
    }

    /** The registration loop of `start` (the receive loop it then enters is not modelled). */
    method Start()
      modifies this`processed
      ensures processed == Registered(old(processed), commands)
    {
      var infos := RubyHash.Values(commands);
      var i := 0;
      while i < |infos|
        invariant 0 <= i <= |infos|
        invariant Registration.RegisterAll(processed, infos[i..], ForDiscord, EntryOf)
               == Registration.RegisterAll(old(processed), infos, ForDiscord, EntryOf)
      {
        var info := infos[i];
        assert infos[i..][1..] == infos[i + 1..];
        if info.kind.None? || info.kind == Some(PLATFORM) {
          if Truthy(info.action) {
            AddCommand(info.description, None, info.action);
          } else {
            AddCommand(info.description, info.message, Nil);
          }
        }
        i := i + 1;
      }
    }

    method AddCommand(description: string, message: Option<string>, action: Action)
      modifies this`processed
      ensures processed == old(processed)[description := StoredEntry(message, action)]
    {
      if Truthy(action) {
        processed := processed[description := Entry(None, action)];
      } else {
        processed := processed[description := Entry(message, Nil)];
      }
    }

    /** `process_message`, which only forwards to `process_command`. */
    method ProcessMessage(ev: Incoming)
      modifies this`outbox
      ensures outbox == old(outbox) + Response(processed, unknownHandler, ev)
    {
      ProcessCommand(ev);
    }

    method ProcessCommand(ev: Incoming)
      modifies this`outbox
      ensures outbox == old(outbox) + Response(processed, unknownHandler, ev)
    {
      var command := RubyString.FirstToken(ev.text);
      if command.Some? && command.value in processed {
        var data := processed[command.value];
        ValidateCommandType(data, ev);
      } else {
        HandleUnknownCommand(ev);
      }
    }

    method ValidateCommandType(data: Entry, ev: Incoming)
      modifies this`outbox
      ensures outbox == old(outbox) + EntryResponse(data, ev)
    {
      if data.message.Some? {
        SendMessage(ev.from, data.message.value);
      } else if Truthy(data.action) {
        ExecuteAction(data.action, ev);
      }
    }

    method ExecuteAction(action: Action, ev: Incoming)
      modifies this`outbox
      ensures outbox == old(outbox) + ActionResponse(action, ev)
    {
      if action.Proc? {
        outbox := outbox + [Invoke(action.handler, ev.text, ev.from)];
      } else {
        SendMessage(ev.from, INVALID_ACTION);
      }
    }

    method HandleUnknownCommand(ev: Incoming)
      modifies this`outbox
      ensures outbox == old(outbox) + UnknownResponse(unknownHandler, ev)
    {
      if unknownHandler.None? {
        return;
      }
      outbox := outbox + [Invoke(unknownHandler.value, ev.text, ev.from)];
    }

    /** `send_message`: `user.pm(text)`, recorded in the outbox. */
    method SendMessage(user: Target, text: string)
      modifies this`outbox
      ensures outbox == old(outbox) + [Send(user, text)]
    {
      outbox := outbox + [Send(user, text)];
    }
  }

  /**
   * After `start` on a fresh bot, a description is registered iff some
   * command with that description has `:type` nil or 'discord'.
   */
  lemma StartRegistersVisible(commands: RubyHash.Hash<string, CommandInfo>, k: string)
    ensures k in Registered(map[], commands) <==>
            exists i | 0 <= i < |commands| :: ForDiscord(commands[i].1) && commands[i].1.description == k
  {
    var infos := RubyHash.Values(commands);
    Registration.RegisteredKeys(map[], infos, ForDiscord, EntryOf, k);
    if exists i :: Registration.Registers(infos, i, ForDiscord, k) {
      var i :| Registration.Registers(infos, i, ForDiscord, k);
      assert ForDiscord(commands[i].1) && commands[i].1.description == k;
    }
    if exists i | 0 <= i < |commands| :: ForDiscord(commands[i].1) && commands[i].1.description == k {
      var i :| 0 <= i < |commands| && ForDiscord(commands[i].1) && commands[i].1.description == k;
      assert Registration.Registers(infos, i, ForDiscord, k);
    }
  }

  /**
   * The entry `start` stores under a description comes from the last
   * Discord-visible command with that description: its action alone when it
   * has one, its message alone otherwise.
   */
  lemma StartKeepsLastWrite(commands: RubyHash.Hash<string, CommandInfo>, j: int)
    requires 0 <= j < |commands| && ForDiscord(commands[j].1)
    requires forall i | j < i < |commands| ::
               !(ForDiscord(commands[i].1) && commands[i].1.description == commands[j].1.description)
    ensures commands[j].1.description in Registered(map[], commands)
    ensures Registered(map[], commands)[commands[j].1.description] ==
            StoredEntry(commands[j].1.message, commands[j].1.action)
  {
    var infos := RubyHash.Values(commands);
    forall i | j < i < |infos| ensures !Registration.Registers(infos, i, ForDiscord, infos[j].description) {
      assert infos[i] == commands[i].1;
    }
    Registration.RegisteredValueIsLastWrite(map[], infos, ForDiscord, EntryOf, j);
  }

  /** Every entry `start` stores holds a message or an action, never both. */
  lemma StartEntriesExclusive(processed: map<string, Entry>, commands: RubyHash.Hash<string, CommandInfo>)
    requires forall k | k in processed :: Exclusive(processed[k])
    ensures forall k | k in Registered(processed, commands) :: Exclusive(Registered(processed, commands)[k])
  {
    Registration.RegisteredEntriesSatisfy(processed, RubyHash.Values(commands), ForDiscord, EntryOf, Exclusive);
  }

  /** Only the first token matters: '/start foo' resolves like '/start'. */
  lemma ExtraWordsResolveAlike(processed: map<string, Entry>, t: string, c: char, rest: string)
    requires t != [] && RubyString.NoSpace(t) && RubyString.IsSpace(c)
    ensures Resolve(processed, t + [c] + rest) == Resolve(processed, t)
  {
    RubyString.FirstTokenIgnoresRest(t, c, rest);
    RubyString.FirstTokenOfWord(t);
  }

  /**
   * A message emits at most one effect, addressed to its sender, and it never
   * both replies and calls a Proc.
   */
  lemma AtMostOneEffect(processed: map<string, Entry>, handler: Option<HandlerId>, ev: Incoming)
    ensures |Response(processed, handler, ev)| <= 1
    ensures AllAddressedTo(Response(processed, handler, ev), ev.from)
  {
  }

  /**
   * A Proc is called exactly when the token resolves to an action-only entry
   * holding it, or the token is unknown and it is the unknown-command handler;
   * it always receives the full content and the sender.
   */
  lemma InvokeIff(processed: map<string, Entry>, handler: Option<HandlerId>, ev: Incoming,
                  h: HandlerId, text: string, to: Target)
    ensures Invoke(h, text, to) in Response(processed, handler, ev) <==>
            text == ev.text && to == ev.from &&
            match Resolve(processed, ev.text)
            case Some(e) => e.message.None? && e.action == Proc(h)
            case None => handler == Some(h)
  {
  }

  /** A known command with a message sends exactly that message and calls nothing. */
  lemma KnownMessageReplies(processed: map<string, Entry>, handler: Option<HandlerId>, ev: Incoming, e: Entry)
    requires Resolve(processed, ev.text) == Some(e) && e.message.Some?
    ensures Response(processed, handler, ev) == [Send(ev.from, e.message.value)]
  {
  }

  /** A known command whose action is truthy but not a Proc gets the invalid-action reply. */
  lemma NonProcActionRejected(processed: map<string, Entry>, handler: Option<HandlerId>, ev: Incoming)
    requires Resolve(processed, ev.text) == Some(Entry(None, NonProc))
    ensures Response(processed, handler, ev) == [Send(ev.from, INVALID_ACTION)]
  {
  }

  /** A known entry with neither message nor action, or an unknown token without handler, is silent. */
  lemma SilentCases(processed: map<string, Entry>, handler: Option<HandlerId>, ev: Incoming)
    requires Resolve(processed, ev.text) == Some(Entry(None, Nil)) ||
             (Resolve(processed, ev.text).None? && handler.None?)
    ensures Response(processed, handler, ev) == []
  {
  }
}
