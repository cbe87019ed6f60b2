/**
 * The data-entry workflow of menu.rb: `/add_data` puts a user in the
 * awaiting-data state, and every non-blank message of an awaiting user is
 * saved through `AddReview` and acknowledged. `run_bots` hands both bots
 * the default commands merged with the custom ones.
 */
module Menu {
  import opened Chat
  import RubyString
  import RubyHash
  import Storage

  const START := "Hello! Use /add_data to add new data."
  const ADD_DATA := "Please send the data you want to add."
  const DATA_ADDED := "Thanks! The data has been added successfully."
  const INVALID := "Invalid data. Please enter valid input."
  const INSTRUCTION := "Send /add_data to add data."

  /** The Proc of the `/add_data` command, which calls `add_data`. */
  const ADD_DATA_HANDLER: HandlerId := "add_data"

  /** The only value `@user_data` ever holds: `:awaiting_data`. */
  datatype UserState = AwaitingData

  /** `@user_data[owner] == :awaiting_data` (a missing key reads as nil). */
  predicate Awaiting(userData: map<Target, UserState>, user: Target) {
    user in userData && userData[user] == AwaitingData
  }

  /** `message.strip.empty?`. */
  predicate Blank(message: string) {
    RubyString.Strip(message) == []
  }

  /**
   * The config `save_data` builds as written: the message goes under
   * `:data`, a key `AddReview` never reads.
   */
  function DataConfigAsWritten(connection: string, user: Target, message: string): Storage.SaveConfig {
    Storage.SaveConfig(connection, user, None, Some(message))
  }

  /** As written, the row inserted for a saved message has a NULL url: the message is lost. */
  lemma SavedDataIsDropped(connection: string, user: Target, message: string)
    ensures Storage.InsertedRow(DataConfigAsWritten(connection, user, message)) == Storage.Row(user, None)
    ensures Storage.InsertedRow(DataConfigAsWritten(connection, user, message)).url != Some(message)
  {
  }

  /** The config `save_data` is meant to build: the message in the column `AddReview` writes. */
  function DataConfig(connection: string, user: Target, message: string): Storage.SaveConfig {
    Storage.SaveConfig(connection, user, Some(message), Some(message))
  }

  /** With the corrected config the inserted row carries the owner and the message. */
  lemma SavedDataIsStored(connection: string, user: Target, message: string)
    ensures Storage.InsertedRow(DataConfig(connection, user, message)) == Storage.Row(user, Some(message))
  {
  }

  /** What `validate_data` does: reject blank input, otherwise save and thank. */
  function ValidateEvents(connection: string, message: string, user: Target): seq<Storage.Event> {
    if Blank(message) then [Storage.Reply(user, INVALID)]
    else [Storage.Insert(Storage.InsertedRow(DataConfig(connection, user, message))), Storage.Reply(user, DATA_ADDED)]
  }

  /**
   * What `validate_data` does as written: the same replies, but the row it
   * saves is built from `DataConfigAsWritten`.
   */
  function ValidateEventsAsWritten(connection: string, message: string, user: Target): (events: seq<Storage.Event>)
    ensures Storage.Replies(events) == Storage.Replies(ValidateEvents(connection, message, user))
    ensures forall row | row in Storage.Inserts(events) :: row == Storage.Row(user, None)
  {
    if Blank(message) then [Storage.Reply(user, INVALID)]
    else [Storage.Insert(Storage.InsertedRow(DataConfigAsWritten(connection, user, message))), Storage.Reply(user, DATA_ADDED)]
  }

  /**
   * As written, an awaiting user's non-blank message is thanked for but saved
   * as `(owner, NULL)`: the replies agree with the corrected workflow and the
   * saved rows do not.
   */
  lemma DataLostAsWritten(connection: string, message: string, user: Target, k: int)
    requires 0 <= k < |message| && !RubyString.IsStrippable(message[k])
    ensures ValidateEventsAsWritten(connection, message, user) ==
            [Storage.Insert(Storage.Row(user, None)), Storage.Reply(user, DATA_ADDED)]
    ensures Storage.Replies(ValidateEventsAsWritten(connection, message, user)) ==
            Storage.Replies(ValidateEvents(connection, message, user))
    ensures Storage.Inserts(ValidateEventsAsWritten(connection, message, user)) !=
            Storage.Inserts(ValidateEvents(connection, message, user))
  {
    var w := ValidateEventsAsWritten(connection, message, user);
    var c := ValidateEvents(connection, message, user);
    assert w[1..][1..] == [] && c[1..][1..] == [];
  }

  /** What `custom_handler` does for a message of `user`. */
  function HandlerEvents(userData: map<Target, UserState>, connection: string,
                         message: string, user: Target): seq<Storage.Event> {
    if Awaiting(userData, user) then ValidateEvents(connection, message, user)
    else [Storage.Reply(user, INSTRUCTION)]
  }

  /** `default_commands` of `run_bots`. */
  function DefaultCommands(): (h: RubyHash.Hash<string, CommandInfo>)
    ensures RubyHash.UniqueKeys(h)
    ensures RubyHash.Keys(h) == {"start", "add_data"}
    ensures RubyHash.Get(h, "start") == Some(CommandInfo("/start", Some(START), Nil, None))
    ensures RubyHash.Get(h, "add_data") == Some(CommandInfo("/add_data", None, Proc(ADD_DATA_HANDLER), None))
  {
    var h := [("start", CommandInfo("/start", Some(START), Nil, None)),
              ("add_data", CommandInfo("/add_data", None, Proc(ADD_DATA_HANDLER), None))];
    assert h[0].0 == "start" && h[1].0 == "add_data";
    h
  }

  /** `default_commands.merge(@custom_commands)`. */
  function AllCommands(custom: RubyHash.Hash<string, CommandInfo>): RubyHash.Hash<string, CommandInfo> {
    RubyHash.Merge(DefaultCommands(), custom)
  }

  /**
   * The merged table has every key of both, a custom entry replaces the
   * default under the same key, the defaults stay otherwise, and the
   * default keys come first.
   */
  lemma AllCommandsMerge(custom: RubyHash.Hash<string, CommandInfo>)
    requires RubyHash.UniqueKeys(custom)
    ensures RubyHash.Keys(AllCommands(custom)) == {"start", "add_data"} + RubyHash.Keys(custom)
    ensures RubyHash.UniqueKeys(AllCommands(custom))
    ensures forall k :: RubyHash.Get(AllCommands(custom), k) ==
              if k in RubyHash.Keys(custom) then RubyHash.Get(custom, k) else RubyHash.Get(DefaultCommands(), k)
    ensures AllCommands(custom)[0].0 == "start" && AllCommands(custom)[1].0 == "add_data"
  {
    var d := DefaultCommands();
    assert d[0].0 == "start" && d[1].0 == "add_data";
    RubyHash.MergeGet(d, custom);
  }

  class Menu {
    /** `@db_connection`, read from the environment. */
    const dbConnection: string
    /** `@user_data`: user id to state. */
    var userData: map<Target, UserState>
    /** `@custom_commands`, filled by the interactive generator. */
    var customCommands: RubyHash.Hash<string, CommandInfo>
    /** Replies sent through the bot and rows saved, in the order they happen. */
    var log: seq<Storage.Event>

    /**
     * Every saved row belongs to an awaiting user and holds a non-blank
     * message, and `@custom_commands`, a Ruby Hash, never holds a key twice.
     */
    ghost predicate Valid()
      reads this
    {
      RubyHash.UniqueKeys(customCommands) &&
      forall i | 0 <= i < |log| && log[i].Insert? ::
        Awaiting(userData, log[i].row.owner) && log[i].row.url.Some? && !Blank(log[i].row.url.value)
    }

    constructor (dbConnection: string)
      ensures Valid()
      ensures this.dbConnection == dbConnection
      ensures userData == map[] && customCommands == [] && log == []
    {
      this.dbConnection := dbConnection;
      userData := map[];
      customCommands := [];
      log := [];
    }

    method CustomHandler(message: string, user: Target)
      requires Valid()
      modifies this`log
      ensures Valid()
      ensures userData == old(userData)
      ensures log == old(log) + HandlerEvents(userData, dbConnection, message, user)
    {
      if Awaiting(userData, user) {
        ValidateData(message, user);
      } else {
        SendMessage(user, INSTRUCTION);
      }
    }

    method ValidateData(message: string, user: Target)
      requires Valid() && Awaiting(userData, user)
      modifies this`log
      ensures Valid()
      ensures log == old(log) + ValidateEvents(dbConnection, message, user)
    {
      if RubyString.Strip(message) == [] {
        SendMessage(user, INVALID);
      } else {
        SaveData(message, user);
        SendMessage(user, DATA_ADDED);
      }
    }

    /**
     * `save_data`: one `AddReview` insert, with the corrected config; the row
     * menu.rb:48 as written saves is `ValidateEventsAsWritten`'s.
     */
    method SaveData(message: string, user: Target)
      requires Valid() && Awaiting(userData, user) && !Blank(message)
      modifies this`log
      ensures Valid()
      ensures log == old(log) + [Storage.Insert(Storage.InsertedRow(DataConfig(dbConnection, user, message)))]
    {
      var config := DataConfig(dbConnection, user, message);
      log := log + [Storage.Insert(Storage.InsertedRow(config))];
    }

    /** `add_data`: prompt for the data, then mark the user as awaiting it. */
    method AddData(user: Target)
      requires Valid()
      modifies this`log, this`userData
      ensures Valid()
      ensures log == old(log) + [Storage.Reply(user, ADD_DATA)]
      ensures userData == old(userData)[user := AwaitingData]
    {
      SendMessage(user, ADD_DATA);
      userData := userData[user := AwaitingData];
    }

    /**
     * The command table `run_bots` gives both bots: every default and custom
     * key once, a custom command replacing the default of the same key, and
     * the defaults first.
     */
    method RunBotsCommands() returns (all: RubyHash.Hash<string, CommandInfo>)
      requires Valid()
      ensures RubyHash.Keys(all) == {"start", "add_data"} + RubyHash.Keys(customCommands)
      ensures RubyHash.UniqueKeys(all)
      ensures forall k :: RubyHash.Get(all, k) ==
                if k in RubyHash.Keys(customCommands) then RubyHash.Get(customCommands, k)
                else RubyHash.Get(DefaultCommands(), k)
      ensures all[0].0 == "start" && all[1].0 == "add_data"
    {
      var defaults := DefaultCommands();
      all := RubyHash.Merge(defaults, customCommands);
      AllCommandsMerge(customCommands);
    }

    /** `bot_instance.send_message(user, text)`, recorded in the log. */
    method SendMessage(user: Target, text: string)
      requires Valid()
      modifies this`log
      ensures Valid()
      ensures log == old(log) + [Storage.Reply(user, text)]
    {
      log := log + [Storage.Reply(user, text)];
    }
  }

  /** A user who is not awaiting data gets the instruction and nothing is saved. */
  lemma NotAwaitingGetsInstruction(userData: map<Target, UserState>, connection: string, message: string, user: Target)
    requires !Awaiting(userData, user)
    ensures HandlerEvents(userData, connection, message, user) == [Storage.Reply(user, INSTRUCTION)]
    ensures Storage.Inserts(HandlerEvents(userData, connection, message, user)) == []
  {
  }

  /** An awaiting user whose message is only whitespace and NULs gets the invalid reply and no save. */
  lemma BlankRejected(userData: map<Target, UserState>, connection: string, message: string, user: Target)
    requires Awaiting(userData, user)
    requires forall k | 0 <= k < |message| :: RubyString.IsStrippable(message[k])
    ensures HandlerEvents(userData, connection, message, user) == [Storage.Reply(user, INVALID)]
    ensures Storage.Inserts(HandlerEvents(userData, connection, message, user)) == []
  {
  }

  /** An awaiting user with a message holding any other character gets one save, then the thanks. */
  lemma DataSavedThenThanked(userData: map<Target, UserState>, connection: string, message: string, user: Target, k: int)
    requires Awaiting(userData, user)
    requires 0 <= k < |message| && !RubyString.IsStrippable(message[k])
    ensures HandlerEvents(userData, connection, message, user) ==
            [Storage.Insert(Storage.Row(user, Some(message))), Storage.Reply(user, DATA_ADDED)]
  {
  }
}
