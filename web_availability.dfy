/**
 * The website workflow of use_cases/web_availability/commands.rb: `/start`
 * greets, `/add_website` puts a user in the awaiting-URL state, and every
 * other message of an awaiting user is checked for an http(s) prefix and,
 * when it has one, saved through `AddReview`. Nothing ever takes a user out
 * of the awaiting state.
 */
module WebAvailability {
  import opened Chat
  import RubyString
  import RubyHash
  import Storage

  const START := "Hello! Use /add_website to add a new website."
  const ADD_WEBSITE := "Please send the URL of the website you want to add."
  const WEBSITE_ADDED := "Thanks! The website has been added. You will be notified if the domain is down."
  const INVALID := "Invalid URL. Please enter a valid website."
  const INSTRUCTION := "Send /add_website to add a website."

  /** The Proc of the `/add_website` command, which calls `add_website`. */
  const ADD_WEBSITE_HANDLER: HandlerId := "add_website"

  /** The prefixes `validate_website` accepts. */
  const SCHEMES: seq<string> := ["http://", "https://"]

  /** The only value `@user_data` ever holds: `:awaiting_url`. */
  datatype UserState = AwaitingUrl

  /** `message.start_with?('http://', 'https://')`. */
  predicate IsWebsite(message: string) {
    RubyString.StartsWithAny(message, SCHEMES)
  }

  /** `@user_data[owner] == :awaiting_url` (a missing key reads as nil). */
  predicate Awaiting(userData: map<Target, UserState>, user: Target) {
    user in userData && userData[user] == AwaitingUrl
  }

  /** The config `save_website` hands to `AddReview`. */
  function WebsiteConfig(connection: string, user: Target, message: string): Storage.SaveConfig {
    Storage.SaveConfig(connection, user, Some(message), None)
  }

  /** What `validate_website` does: save and thank for a URL, reject anything else. */
  function ValidateEvents(connection: string, message: string, user: Target): seq<Storage.Event> {
    if IsWebsite(message) then
      [Storage.Insert(Storage.InsertedRow(WebsiteConfig(connection, user, message))), Storage.Reply(user, WEBSITE_ADDED)]
    else
      [Storage.Reply(user, INVALID)]
  }

  /** What `custom_handler` does for a message of `user`. */
  function HandlerEvents(userData: map<Target, UserState>, connection: string,
                         message: string, user: Target): seq<Storage.Event> {
    if Awaiting(userData, user) then ValidateEvents(connection, message, user)
    else [Storage.Reply(user, INSTRUCTION)]
  }

  /** `start_command`: the static greeting. */
  function StartCommand(): (c: CommandInfo)
    ensures c.description == "/start" && c.message == Some(START)
    ensures c.action == Nil && c.kind == None
  {
    CommandInfo("/start", Some(START), Nil, None)
  }

  /** `add_website_command`: the Proc that calls `add_website`. */
  function AddWebsiteCommand(): (c: CommandInfo)
    ensures c.description == "/add_website" && c.message == None
    ensures c.action.Proc? && c.kind == None
  {
    CommandInfo("/add_website", None, Proc(ADD_WEBSITE_HANDLER), None)
  }

  /** `commands`: exactly the keys 'start' and 'add_website'. */
  function Commands(): (h: RubyHash.Hash<string, CommandInfo>)
    ensures RubyHash.UniqueKeys(h)
    ensures RubyHash.Keys(h) == {"start", "add_website"}
    ensures RubyHash.Get(h, "start") == Some(StartCommand())
    ensures RubyHash.Get(h, "add_website") == Some(AddWebsiteCommand())
  {
    var h := [("start", StartCommand()), ("add_website", AddWebsiteCommand())];
    assert h[0].0 == "start" && h[1].0 == "add_website";
    h
  }

  class BotCommands {
    /** `@db_connection`. */
    const dbConnection: string
    /** `@user_data`: user id to state. */
    var userData: map<Target, UserState>
    /** Replies sent through the bot and rows saved, in the order they happen. */
    var log: seq<Storage.Event>

    /** Every saved row belongs to an awaiting user and holds an http(s) URL. */
    ghost predicate Valid()
      reads this
    {
      forall i | 0 <= i < |log| && log[i].Insert? ::
        Awaiting(userData, log[i].row.owner) && log[i].row.url.Some? && IsWebsite(log[i].row.url.value)
    }

    constructor (dbConnection: string)
      ensures Valid()
      ensures this.dbConnection == dbConnection && userData == map[] && log == []
    {
      this.dbConnection := dbConnection;
      userData := map[];
      log := [];
    }

    method CustomHandler(message: string, user: Target)
      requires Valid()
      modifies this`log
      ensures Valid()
      ensures userData == old(userData)
      ensures log == old(log) + HandlerEvents(userData, dbConnection, message, user)
    {
      if Awaiting(userData, user) {
        ValidateWebsite(message, user);
      } else {
        SendMessage(user, INSTRUCTION);
      }
    }

    method ValidateWebsite(message: string, user: Target)
      requires Valid() && Awaiting(userData, user)
      modifies this`log
      ensures Valid()
      ensures log == old(log) + ValidateEvents(dbConnection, message, user)
    {
      if RubyString.StartsWith(message, SCHEMES[0]) || RubyString.StartsWith(message, SCHEMES[1]) {
        SaveWebsite(message, user);
        SendMessage(user, WEBSITE_ADDED);
      } else {
        SendMessage(user, INVALID);
      }
    }

    /** `save_website`: one `AddReview` insert of `(user.id, message)`. */
    method SaveWebsite(message: string, user: Target)
      requires Valid() && Awaiting(userData, user) && IsWebsite(message)
      modifies this`log
      ensures Valid()
      ensures log == old(log) + [Storage.Insert(Storage.InsertedRow(WebsiteConfig(dbConnection, user, message)))]
    {
      var config := WebsiteConfig(dbConnection, user, message);
      log := log + [Storage.Insert(Storage.InsertedRow(config))];
    }

    /** `add_website`: prompt for the URL, then mark the user as awaiting it. */
    method AddWebsite(user: Target)
      requires Valid()
      modifies this`log, this`userData
      ensures Valid()
      ensures log == old(log) + [Storage.Reply(user, ADD_WEBSITE)]
      ensures userData == old(userData)[user := AwaitingUrl]
    {
      SendMessage(user, ADD_WEBSITE);
      userData := userData[user := AwaitingUrl];
    }

    /** `bot_instance.send_message(user, text)`, recorded in the log. */
    method SendMessage(user: Target, text: string)
      requires Valid()
      modifies this`log
      ensures Valid()
      ensures log == old(log) + [Storage.Reply(user, text)]
    {
      log := log + [Storage.Reply(user, text)];
    }
  }

  /** A user who is not awaiting a URL gets the instruction and nothing is saved. */
  lemma NotAwaitingGetsInstruction(userData: map<Target, UserState>, connection: string, message: string, user: Target)
    requires !Awaiting(userData, user)
    ensures HandlerEvents(userData, connection, message, user) == [Storage.Reply(user, INSTRUCTION)]
    ensures Storage.Inserts(HandlerEvents(userData, connection, message, user)) == []
  {
  }

  /** An awaiting user with an http(s) URL gets one save of `(user, url)`, then the thanks. */
  lemma UrlSavedThenThanked(userData: map<Target, UserState>, connection: string, message: string, user: Target)
    requires Awaiting(userData, user)
    requires RubyString.StartsWith(message, "http://") || RubyString.StartsWith(message, "https://")
    ensures HandlerEvents(userData, connection, message, user) ==
            [Storage.Insert(Storage.Row(user, Some(message))), Storage.Reply(user, WEBSITE_ADDED)]
  {
    assert IsWebsite(message) by {
      if RubyString.StartsWith(message, "http://") {
        assert RubyString.StartsWith(message, SCHEMES[0]);
      } else {
        assert RubyString.StartsWith(message, SCHEMES[1]);
      }
    }
  }

  /** An awaiting user with any other text gets the invalid reply and nothing is saved. */
  lemma OtherTextRejected(userData: map<Target, UserState>, connection: string, message: string, user: Target)
    requires Awaiting(userData, user)
    requires !RubyString.StartsWith(message, "http://") && !RubyString.StartsWith(message, "https://")
    ensures HandlerEvents(userData, connection, message, user) == [Storage.Reply(user, INVALID)]
    ensures Storage.Inserts(HandlerEvents(userData, connection, message, user)) == []
  {
    assert !IsWebsite(message) by {
      forall i | 0 <= i < |SCHEMES| ensures !RubyString.StartsWith(message, SCHEMES[i]) {
        assert SCHEMES[i] == "http://" || SCHEMES[i] == "https://";
      }
    }
  }

  /**
   * Whatever the input, the handler replies exactly once, to the sender, and
   * saves at most one row: the sender's message, only when it is a URL and
   * the sender is awaiting one.
   */
  lemma HandlerSavesOnlyUrls(userData: map<Target, UserState>, connection: string, message: string, user: Target)
    ensures |Storage.Replies(HandlerEvents(userData, connection, message, user))| == 1
    ensures forall e | e in HandlerEvents(userData, connection, message, user) && e.Reply? :: e.to == user
    ensures Storage.Inserts(HandlerEvents(userData, connection, message, user)) ==
            if Awaiting(userData, user) && IsWebsite(message) then [Storage.Row(user, Some(message))] else []
  {
    var events := HandlerEvents(userData, connection, message, user);
    if Awaiting(userData, user) && IsWebsite(message) {
      assert events[1..] == [Storage.Reply(user, WEBSITE_ADDED)];
      assert events[1..][1..] == [];
    } else {
      assert events[1..] == [];
    }
  }
}
