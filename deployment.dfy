/**
 * How main.rb and menu.rb wire the pieces together: the website commands
 * (or menu.rb's merged table) are given to both platform bots of bots/, with
 * the workflow's `custom_handler` as the unknown-command handler.
 */
module Deployment {
  import opened Chat
  import RubyHash
  import WebAvailability
  import Menu
  import DiscordCommandBot
  import TelegramCommandBot
  import TelegramWebAvailability
  import RubyString

  /** `bot_commands.method(:custom_handler)`. */
  const CUSTOM_HANDLER: HandlerId := "custom_handler"

  /** The entries both bots hold after `start` with the website commands. */
  function WebsiteEntries(): map<string, Entry> {
    map["/start" := Entry(Some(WebAvailability.START), Nil),
        "/add_website" := Entry(None, Proc(WebAvailability.ADD_WEBSITE_HANDLER))]
  }

  /** Discord registers both website commands under their descriptions. */
  lemma DiscordRegistersWebsiteCommands()
    ensures DiscordCommandBot.Registered(map[], WebAvailability.Commands()) == WebsiteEntries()
  {
    var infos := RubyHash.Values(WebAvailability.Commands());
    assert infos == [WebAvailability.StartCommand(), WebAvailability.AddWebsiteCommand()];
    assert infos[1..][1..] == [];
  }

  /** Telegram registers them alike, since neither has a message and an action at once. */
  lemma TelegramRegistersWebsiteCommands()
    ensures TelegramCommandBot.Registered(map[], WebAvailability.Commands()) == WebsiteEntries()
  {
    var infos := RubyHash.Values(WebAvailability.Commands());
    assert infos == [WebAvailability.StartCommand(), WebAvailability.AddWebsiteCommand()];
    assert infos[1..][1..] == [];
  }

  /**
   * With the website commands deployed, '/start now' greets on Discord,
   * which reads the first word, but on Telegram, which matches the whole
   * text, it is handed to `custom_handler` instead.
   */
  lemma StartWithWordsDiffers(from: Target)
    ensures DiscordCommandBot.Response(WebsiteEntries(), Some(CUSTOM_HANDLER), Incoming(from, "/start now")) ==
            [Send(from, WebAvailability.START)]
    ensures TelegramCommandBot.Response(WebsiteEntries(), Some(CUSTOM_HANDLER), Incoming(from, "/start now")) ==
            [Invoke(CUSTOM_HANDLER, "/start now", from)]
  {
    assert "/start now" == "/start" + [' '] + "now";
    DiscordCommandBot.ExtraWordsResolveAlike(WebsiteEntries(), "/start", ' ', "now");
    RubyString.FirstTokenOfWord("/start");
  }

  /** '/add_website' calls the `add_website` Proc on both platforms. */
  lemma AddWebsiteInvokesProc(from: Target)
    ensures DiscordCommandBot.Response(WebsiteEntries(), Some(CUSTOM_HANDLER), Incoming(from, "/add_website")) ==
            [Invoke(WebAvailability.ADD_WEBSITE_HANDLER, "/add_website", from)]
    ensures TelegramCommandBot.Response(WebsiteEntries(), Some(CUSTOM_HANDLER), Incoming(from, "/add_website")) ==
            [Invoke(WebAvailability.ADD_WEBSITE_HANDLER, "/add_website", from)]
  {
    RubyString.FirstTokenOfWord("/add_website");
  }

  /**
   * The root Telegram bot keeps only messages, so the same commands make
   * '/add_website' send a nil text instead of calling the Proc.
   */
  lemma RootTelegramDropsActions(from: Target)
    ensures TelegramWebAvailability.Registered(map[], WebAvailability.Commands()) ==
            map["/start" := Some(WebAvailability.START), "/add_website" := None]
    ensures TelegramWebAvailability.Response(TelegramWebAvailability.Registered(map[], WebAvailability.Commands()),
                                             Incoming(from, "/add_website")) == [SendNil(from)]
  {
    var infos := RubyHash.Values(WebAvailability.Commands());
    assert infos == [WebAvailability.StartCommand(), WebAvailability.AddWebsiteCommand()];
    assert infos[1..][1..] == [];
  }

  /** menu.rb with no custom commands serves '/start' and '/add_data' on Discord. */
  lemma MenuDefaultsOnDiscord()
    ensures DiscordCommandBot.Registered(map[], Menu.AllCommands([])) ==
            map["/start" := Entry(Some(Menu.START), Nil), "/add_data" := Entry(None, Proc(Menu.ADD_DATA_HANDLER))]
  {
    assert Menu.AllCommands([]) == Menu.DefaultCommands();
    var infos := RubyHash.Values(Menu.DefaultCommands());
    assert infos[1..][1..] == [];
  }
}
