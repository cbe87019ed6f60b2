/**
 * `DiscordBot::WebAvailability` of discord_bot.rb: a self-contained Discord
 * bot with its own `user_data`. A user who sends `/add_website` is marked as
 * awaiting a URL; a valid URL then REPLACES that mark by a record of the
 * website, so, unlike the other workflows, the user leaves the awaiting state.
 */
module DiscordWebAvailability {
  import opened Chat
  import RubyString

  const START := "Hello! Use /add_website to add a new website."
  const ADD_WEBSITE := "Please send the URL of the website you want to add."
  const INSTRUCTION := "Send /add_website to add a website."
  const WEBSITE_ADDED := "Website added. You'll be notified if it's down."
  const INVALID := "Invalid URL. Please enter a valid website."
  const SCHEMES: seq<string> := ["http://", "https://"]

  /** A key of `@user_data`: a user id, or a symbol such as `:user_id`. */
  datatype Key = UserKey(id: Target) | SymbolKey(name: string)

  /** A value of `@user_data`: `:awaiting_url`, or the hash `{url:, user_id:}`. */
  datatype Session = AwaitingUrl | Website(url: string, userId: Target)

  /** The first argument of `send_message`: the whole event, or a user id. */
  datatype Recipient = EventRecipient(event: Incoming) | IdRecipient(id: Target)

  datatype Reply = Reply(to: Recipient, text: string)

  /** The `:status` of the hash `process` returns. */
  datatype Status = Processing | NotProcessing

  /** `user_data` and the replies sent after handling one message. */
  datatype Outcome = Outcome(userData: map<Key, Session>, replies: seq<Reply>)

  predicate IsWebsite(text: string) {
    RubyString.StartsWithAny(text, SCHEMES)
  }

  predicate Awaiting(userData: map<Key, Session>, id: Target) {
    UserKey(id) in userData && userData[UserKey(id)] == AwaitingUrl
  }

  /** Every key is a user id, as the handlers only ever write such keys. */
  predicate OnlyUserKeys(userData: map<Key, Session>) {
    forall k | k in userData :: k.UserKey?
  }

  /** A website record is stored under its own user id and holds an http(s) URL. */
  predicate RecordsWellFormed(userData: map<Key, Session>) {
    forall k | k in userData && userData[k].Website? ::
      k == UserKey(userData[k].userId) && IsWebsite(userData[k].url)
  }

  /** `process`: 'processing' iff the entry under the symbol `:user_id` is `:awaiting_url`. */
  function ProcessStatus(userData: map<Key, Session>): (s: Status)
    ensures s == Processing <==> SymbolKey("user_id") in userData && userData[SymbolKey("user_id")] == AwaitingUrl
  {
    if SymbolKey("user_id") in userData && userData[SymbolKey("user_id")] == AwaitingUrl then Processing
    else NotProcessing
  }

  /** `process_command`: dispatch on the first token. */
  function CommandOutcome(userData: map<Key, Session>, ev: Incoming): Outcome {
    var token := RubyString.FirstToken(ev.text);
    if token == Some("/start") then Outcome(userData, [Reply(EventRecipient(ev), START)])
    else if token == Some("/add_website") then
      Outcome(userData[UserKey(ev.from) := AwaitingUrl], [Reply(EventRecipient(ev), ADD_WEBSITE)])
    else Outcome(userData, [])
  }

  /** `validate_website`: a URL replaces the user's state by the website record. */
  function ValidateOutcome(userData: map<Key, Session>, id: Target, url: string): Outcome {
    if IsWebsite(url) then
      Outcome(userData[UserKey(id) := Website(url, id)], [Reply(IdRecipient(id), WEBSITE_ADDED)])
    else Outcome(userData, [Reply(IdRecipient(id), INVALID)])
  }

  /** `process_input`. */
  function InputOutcome(userData: map<Key, Session>, id: Target, input: string): Outcome {
    if Awaiting(userData, id) then ValidateOutcome(userData, id, input)
    else Outcome(userData, [Reply(IdRecipient(id), INSTRUCTION)])
  }

  /** `process_message`: a '/'-prefixed content is a command, anything else is input. */
  function MessageOutcome(userData: map<Key, Session>, ev: Incoming): Outcome {
    if RubyString.StartsWith(ev.text, "/") then CommandOutcome(userData, ev)
    else InputOutcome(userData, ev.from, ev.text)
  }

  class WebAvailability {
    /** `@connection`. */
    const connection: string
    /** `@user_data`. */
    var userData: map<Key, Session>
    /** Every reply sent so far, in order. */
    var outbox: seq<Reply>

    ghost predicate Valid()
      reads this
    {
      OnlyUserKeys(userData) && RecordsWellFormed(userData)
    }

    /** `initialize`; the Discord client is not modelled. */
    constructor (connection: string)
      ensures Valid()
      ensures this.connection == connection && userData == map[] && outbox == []
    {
      this.connection := connection;
      userData := map[];
      outbox := [];
    }

    /**
     * `process`: it looks under the symbol `:user_id`, which the handlers
     * never write, so on every state they build it reports 'not_processing'.
     */
    method Process() returns (s: Status)
      requires Valid()
      ensures s == NotProcessing
    {
      s := ProcessStatus(userData);
      HandlersNeverProcessing(userData);
    }

    method ProcessMessage(ev: Incoming)
      requires Valid()
      modifies this`userData, this`outbox
      ensures Valid()
      ensures userData == MessageOutcome(old(userData), ev).userData
      ensures outbox == old(outbox) + MessageOutcome(old(userData), ev).replies
    {
      if |ev.text| >= 1 && ev.text[..1] == "/" {
        ProcessCommand(ev);
      } else {
        ProcessInput(ev.from, ev.text);
      }
    }

    method ProcessCommand(ev: Incoming)
      requires Valid()
      modifies this`userData, this`outbox
      ensures Valid()
      ensures userData == CommandOutcome(old(userData), ev).userData
      ensures outbox == old(outbox) + CommandOutcome(old(userData), ev).replies
    {
      var token := RubyString.FirstToken(ev.text);
      if token == Some("/start") {
        SendMessage(EventRecipient(ev), START);
      } else if token == Some("/add_website") {
        SendMessage(EventRecipient(ev), ADD_WEBSITE);
        userData := userData[UserKey(ev.from) := AwaitingUrl];
      }
    }

    method ProcessInput(id: Target, input: string)
      requires Valid()
      modifies this`userData, this`outbox
      ensures Valid()
      ensures userData == InputOutcome(old(userData), id, input).userData
      ensures outbox == old(outbox) + InputOutcome(old(userData), id, input).replies
    {
      if UserKey(id) in userData && userData[UserKey(id)] == AwaitingUrl {
        ValidateWebsite(id, input);
      } else {
        SendMessage(IdRecipient(id), INSTRUCTION);
      }
    }

    method ValidateWebsite(id: Target, url: string)
      requires Valid()
      modifies this`userData, this`outbox
      ensures Valid()
      ensures userData == ValidateOutcome(old(userData), id, url).userData
      ensures outbox == old(outbox) + ValidateOutcome(old(userData), id, url).replies
    {
      if RubyString.StartsWith(url, SCHEMES[0]) || RubyString.StartsWith(url, SCHEMES[1]) {
        userData := userData[UserKey(id) := Website(url, id)];
        SendMessage(IdRecipient(id), WEBSITE_ADDED);
      } else {
        SendMessage(IdRecipient(id), INVALID);
      }
    }

    /** `@bot.send_message(user_id, text)`, recorded in the outbox. */
    method SendMessage(to: Recipient, text: string)
      modifies this`outbox
      ensures outbox == old(outbox) + [Reply(to, text)]
    {
      outbox := outbox + [Reply(to, text)];
    }
  }

  /** A '/'-prefixed content goes only to command processing, anything else only to input processing. */
  lemma SlashSelectsCommands(userData: map<Key, Session>, ev: Incoming)
    ensures RubyString.StartsWith(ev.text, "/") ==> MessageOutcome(userData, ev) == CommandOutcome(userData, ev)
    ensures !RubyString.StartsWith(ev.text, "/") ==> MessageOutcome(userData, ev) == InputOutcome(userData, ev.from, ev.text)
  {
  }

  /**
   * A '/'-prefixed message whose first token is '/start', alone or followed by
   * any whitespace and words, replies with the greeting and changes no state.
   */
  lemma StartGreets(userData: map<Key, Session>, ev: Incoming)
    requires RubyString.StartsWith(ev.text, "/") && RubyString.FirstToken(ev.text) == Some("/start")
    ensures MessageOutcome(userData, ev) == Outcome(userData, [Reply(EventRecipient(ev), START)])
  {
  }

  /**
   * A '/'-prefixed message whose first token is '/add_website' prompts for
   * the URL and marks the sender as awaiting it, whatever follows the token.
   */
  lemma AddWebsiteAwaits(userData: map<Key, Session>, ev: Incoming)
    requires RubyString.StartsWith(ev.text, "/") && RubyString.FirstToken(ev.text) == Some("/add_website")
    ensures MessageOutcome(userData, ev) ==
            Outcome(userData[UserKey(ev.from) := AwaitingUrl], [Reply(EventRecipient(ev), ADD_WEBSITE)])
    ensures Awaiting(MessageOutcome(userData, ev).userData, ev.from)
  {
    assert MessageOutcome(userData, ev) == CommandOutcome(userData, ev);
  }

  /** '/start now' is such a message: the words after the token do not matter. */
  lemma StartWithWordsGreets(userData: map<Key, Session>, ev: Incoming, c: char, rest: string)
    requires RubyString.IsSpace(c) && ev.text == "/start" + [c] + rest
    ensures MessageOutcome(userData, ev) == Outcome(userData, [Reply(EventRecipient(ev), START)])
  {
    RubyString.FirstTokenIgnoresRest("/start", c, rest);
    RubyString.FirstTokenOfWord("/start");
    assert ev.text[..1] == "/";
    StartGreets(userData, ev);
  }

  /** Any other '/' token is ignored: no reply and no state change. */
  lemma OtherCommandIgnored(userData: map<Key, Session>, ev: Incoming)
    requires RubyString.StartsWith(ev.text, "/")
    requires RubyString.FirstToken(ev.text) != Some("/start") && RubyString.FirstToken(ev.text) != Some("/add_website")
    ensures MessageOutcome(userData, ev) == Outcome(userData, [])
  {
  }

  /** Input from a user not awaiting a URL gets the instruction and changes no state. */
  lemma NotAwaitingGetsInstruction(userData: map<Key, Session>, id: Target, input: string)
    requires !Awaiting(userData, id)
    ensures InputOutcome(userData, id, input) == Outcome(userData, [Reply(IdRecipient(id), INSTRUCTION)])
  {
  }

  /** An awaiting user's URL replaces the mark by `{url, user_id}`: the user no longer awaits. */
  lemma UrlLeavesAwaiting(userData: map<Key, Session>, id: Target, url: string)
    requires Awaiting(userData, id) && IsWebsite(url)
    ensures InputOutcome(userData, id, url).userData == userData[UserKey(id) := Website(url, id)]
    ensures InputOutcome(userData, id, url).replies == [Reply(IdRecipient(id), WEBSITE_ADDED)]
    ensures !Awaiting(InputOutcome(userData, id, url).userData, id)
  {
  }

  /** An awaiting user's other text gets the invalid reply and the user keeps awaiting. */
  lemma OtherTextStaysAwaiting(userData: map<Key, Session>, id: Target, input: string)
    requires Awaiting(userData, id) && !IsWebsite(input)
    ensures InputOutcome(userData, id, input) == Outcome(userData, [Reply(IdRecipient(id), INVALID)])
    ensures Awaiting(InputOutcome(userData, id, input).userData, id)
  {
  }

  /**
   * Handling a message changes at most the sender's own entry and keeps the
   * state well formed: the keys stay user ids and every website record
   * holds its owner's id and an http(s) URL.
   */
  lemma MessagePreservesState(userData: map<Key, Session>, ev: Incoming)
    requires OnlyUserKeys(userData) && RecordsWellFormed(userData)
    ensures OnlyUserKeys(MessageOutcome(userData, ev).userData)
    ensures RecordsWellFormed(MessageOutcome(userData, ev).userData)
    ensures forall k | k != UserKey(ev.from) ::
              (k in MessageOutcome(userData, ev).userData <==> k in userData) &&
              (k in userData ==> MessageOutcome(userData, ev).userData[k] == userData[k])
    ensures |MessageOutcome(userData, ev).replies| <= 1
  {
  }

  /**
   * Since the handlers only write user-id keys, `process` can never see
   * `:awaiting_url` under the `:user_id` symbol: on every state they build
   * it reports 'not_processing'.
   */
  lemma HandlersNeverProcessing(userData: map<Key, Session>)
    requires OnlyUserKeys(userData)
    ensures ProcessStatus(userData) == NotProcessing
  {
    assert SymbolKey("user_id") !in userData;
  }
}
