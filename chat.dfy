/**
 * Values shared by every bot variant: command records as the bots read them,
 * the two shapes of stored command entries, incoming messages and the
 * effects a bot emits (a reply sent, or a Ruby Proc called).
 */
module Chat {

  datatype Option<+T> = None | Some(value: T)

  /** The platform id of a user or chat: the object a reply is addressed to. */
  type Target = int

  /** Name of the statically known handler a Ruby `proc` forwards to. */
  type HandlerId = string

  /**
   * The `:action` value of a command: `nil`, a `Proc`, or some other truthy
   * object that is not a `Proc` (and so cannot be called).
   */
  datatype Action = Nil | Proc(handler: HandlerId) | NonProc

  /** Ruby truthiness of an `:action` value. */
  predicate Truthy(a: Action) {
    !a.Nil?
  }

  /**
   * A command hash as the bots read it:
   * `{description:, message:, action:, type:}`; `kind` is the `:type` key.
   */
  datatype CommandInfo = CommandInfo(
    description: string,
    message: Option<string>,
    action: Action,
    kind: Option<string>)

  /** A value of a bot's `@processed_commands`: `{message:, action:}`. */
  datatype Entry = Entry(message: Option<string>, action: Action)

  /** An entry that holds a message or an action but never both. */
  predicate Exclusive(e: Entry) {
    e.message.None? || e.action.Nil?
  }

  /**
   * What `add_command(description, message, action)` of bots/bot.rb and
   * bots/discord_bot.rb stores: `{action:}` when the action is truthy,
   * `{message:}` otherwise, never both.
   */
  function StoredEntry(message: Option<string>, action: Action): (e: Entry)
    ensures Exclusive(e)
    ensures Truthy(action) ==> e.action == action
    ensures !Truthy(action) ==> e.message == message
  {
    if Truthy(action) then Entry(None, action) else Entry(message, Nil)
  }

  /**
   * A received message: `from` is where replies go (Discord's `event.user`,
   * Telegram's `message.chat`) and `text` is its content.
   */
  datatype Incoming = Incoming(from: Target, text: string)

  /** One observable effect of handling a message. */
  datatype Effect =
    | Send(to: Target, text: string)          // a reply with this text
    | SendNil(to: Target)                     // send_message called with a nil text
    | Invoke(handler: HandlerId, text: string, to: Target)    // a Proc called with (event, text, to, bot)

  /** The effect of `send_message(to, text)` when `text` may be nil. */
  function SendText(to: Target, text: Option<string>): seq<Effect> {
    match text
    case Some(t) => [Send(to, t)]
    case None => [SendNil(to)]
  }

  /** The platform filter of the bots' `start`: `:type` is nil or the bot's own platform. */
  predicate Visible(info: CommandInfo, platform: string) {
    info.kind.None? || info.kind == Some(platform)
  }

  /** True when no effect of `effects` calls a Proc. */
  predicate NoInvoke(effects: seq<Effect>) {
    forall i | 0 <= i < |effects| :: !effects[i].Invoke?
  }

  /** True when every effect of `effects` is addressed to (or, for a call, passed) `to`. */
  predicate AllAddressedTo(effects: seq<Effect>, to: Target) {
    forall i | 0 <= i < |effects| :: effects[i].to == to
  }
}
