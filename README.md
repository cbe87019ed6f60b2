# conversational_bots2 in Dafny

A model of the Ruby chat-bot framework conversational_bots2. The framework
lets an application declare commands as hashes (`description`, a static
`message` or an `action` Proc, and an optional platform `type`), hands them
to a Discord or a Telegram bot, and routes every text that is not a command
to a per-application `custom_handler` that runs a small per-user
conversation (add a website, add a piece of data). It also holds a
read → process → write pipeline base class.

The model is organised like the program:

- `Chat`: the shared vocabulary. It has commands (`CommandInfo`), stored
  entries (`Entry`) and incoming messages. A Ruby Proc becomes
  `Action = Nil | Proc(handler) | NonProc`. Sends and Proc calls become
  `Effect`s, appended to an outbox.
- `RubyString` and `RubyHash`: the parts of `String` and `Hash` the code
  relies on. These are `split.first`, `strip`, `start_with?`, insertion-ordered
  `h[k] = v` and `merge`.
- `Registration`: the filtered loop over a command hash that every `start`
  runs. It is a fold with lemmas for key membership, last write wins,
  untouched keys and preserved entry properties.
- One module per core file, each with a class holding the fields the Ruby
  object updates in place. These are `DiscordCommandBot` (bots/discord_bot.rb),
  `TelegramCommandBot` (bots/telegram_bot.rb), `BaseBot` (bots/bot.rb),
  `CommandsHandler` (commands_handler/bot_commands.rb), `Commands`
  (commands/commands.rb), `WebAvailability`
  (use_cases/web_availability/commands.rb), `Menu` (menu.rb),
  `DiscordWebAvailability` (discord_bot.rb), `TelegramWebAvailability`
  (telegram_bot.rb) and `BotBase` (bot_base.rb).
- `Storage`: the row that `Utils::AddReview` inserts. `Deployment`: what
  main.rb and menu.rb hand to both bots.

Each class method is proved against a pure function of the old state. For
example, `outbox == old(outbox) + Response(processed, handler, ev)` or
`userData == MessageOutcome(old(userData), ev).userData`. The lemmas then
prove the sources' promises about those functions.

Facts about the code that the model keeps as they are:

- In use_cases/web_availability/commands.rb and menu.rb, nothing clears
  `@user_data` after a save, so a user keeps awaiting input. Only
  discord_bot.rb leaves the awaiting state, and only after a valid URL.
- No URL normalisation, per-user site limit or `/remove_website` command
  exists anywhere in the code.
- specs/bot_spec.rb expects `valid_command?` to accept a command typed
  'telegram'. bots/bot.rb:65 accepts only a nil type
  (`BaseBot.SpecStartCommandRejected`).

Some consequences the proofs make explicit:

- `DiscordWebAvailability.process` can never report 'processing'. The
  handlers only write user-id keys, but `process` looks under the symbol
  `:user_id` (`HandlersNeverProcessing`).
- The root Telegram bot drops actions, so if it were given the website
  commands, `/add_website` there would send a nil text
  (`Deployment.RootTelegramDropsActions`).
- Discord and Telegram disagree on '/start now' (`Deployment.StartWithWordsDiffers`).

## Model

| member | source | states |
|---|---|---|
| Chat.StoredEntry | bots/discord_bot.rb:48-54 | the entry `add_command` stores holds the action alone when the action is truthy and the message alone otherwise, never both |
| RubyString.FirstToken | bots/discord_bot.rb:81 | `split.first` is nil exactly when the content is all whitespace; otherwise it is a non-empty token without whitespace |
| RubyString.FirstTokenOfWord | bots/discord_bot.rb:81 | a single word is its own first token |
| RubyString.FirstTokenIgnoresRest | bots/discord_bot.rb:81 | whatever follows the first whitespace after a word does not change the token |
| RubyString.FirstTokenSkipsLeadingSpace | bots/discord_bot.rb:81 | leading whitespace does not change the token |
| RubyString.Strip | menu.rb:39 | `strip` gives the empty string exactly when every character is whitespace or NUL; a non-empty result starts and ends with a kept character |
| RubyHash.Values | bots/discord_bot.rb:30 | `each_value` visits the values in insertion order |
| RubyHash.Get | menu.rb:110 | `h[k]` is non-nil exactly for the keys of `h`, and is the value paired with `k` |
| RubyHash.Store | commands/commands.rb:16-21 | `h[k] = v` adds `k` to the keys, appends a new key at the end and keeps the position of an existing one |
| RubyHash.StoreGet | commands/commands.rb:16-21 | after `h[k] = v`, `k` reads as `v` and every other key reads as before |
| RubyHash.Merge | menu.rb:110 | `merge` keeps the keys of both hashes, keeps them unique, and the first hash's keys stay first |
| RubyHash.MergeGet | menu.rb:110 | after `merge` a key of the second hash reads as there, any other key as in the first |
| RubyHash.MergeAppendsNewKeys | menu.rb:110 | every pair `merge` puts after the first hash's keys holds a key of the second hash that the first lacked |
| RubyHash.MergeKeepsOrder | menu.rb:110 | the pairs `merge` appends stand in the order in which their keys first occur in the second hash |
| RubyString.StartsWithIff | discord_bot.rb:45 | `start_with?(p)` holds exactly when the string is `p` followed by the rest of it, and `p + s` always starts with `p` |
| RubyString.StartsWithEither | use_cases/web_availability/commands.rb:32 | `start_with?(a, b)` holds exactly when the string starts with `a` or with `b` |
| Registration.RegisteredKeys | bots/discord_bot.rb:29-38 | after the registration loop a description is a key iff it was already one or some accepted command has it |
| Registration.RegisteredValueIsLastWrite | bots/telegram_bot.rb:29-34 | the value under a description is the entry of the last accepted command with it |
| Registration.UnregisteredKeyUnchanged | bots/telegram_bot.rb:43-48 | a description no accepted command has keeps its old value |
| Registration.RegisteredEntriesSatisfy | bots/discord_bot.rb:29-38 | a property of every stored entry and of every accepted command's entry holds for the whole map afterwards |
| DiscordCommandBot.DiscordBot.constructor | bots/discord_bot.rb:18-23 | the bot starts with its commands and handler and an empty `@processed_commands` |
| DiscordCommandBot.DiscordBot.Start | bots/discord_bot.rb:29-38 | the loop leaves `@processed_commands` equal to the registration fold over the commands with the Discord filter |
| DiscordCommandBot.DiscordBot.AddCommand | bots/discord_bot.rb:48-54 | only the description's key changes, and it gets the action-only or message-only entry |
| DiscordCommandBot.DiscordBot.ProcessMessage | bots/discord_bot.rb:71-73 | handling a message appends exactly the response of `process_command` |
| DiscordCommandBot.DiscordBot.ProcessCommand | bots/discord_bot.rb:80-88 | a known first token goes to `validate_command_type`, anything else to the unknown-command path |
| DiscordCommandBot.DiscordBot.ValidateCommandType | bots/discord_bot.rb:93-98 | a message is sent when present, else a truthy action runs, else nothing happens |
| DiscordCommandBot.DiscordBot.ExecuteAction | bots/discord_bot.rb:105-111 | a Proc is called with the content and the user; any other action gets the invalid-action reply |
| DiscordCommandBot.DiscordBot.HandleUnknownCommand | bots/discord_bot.rb:116-120 | no handler means no effect; otherwise the handler is called once with the full content |
| DiscordCommandBot.DiscordBot.SendMessage | bots/discord_bot.rb:126-128 | one send to the user is appended |
| DiscordCommandBot.StartRegistersVisible | bots/discord_bot.rb:29-38 | after `start` a description is registered iff some command with it has type nil or 'discord' |
| DiscordCommandBot.StartKeepsLastWrite | bots/discord_bot.rb:29-38 | the stored entry comes from the last Discord-visible command with that description |
| DiscordCommandBot.StartEntriesExclusive | bots/discord_bot.rb:48-54 | every entry `start` stores holds a message or an action, never both |
| DiscordCommandBot.ExtraWordsResolveAlike | bots/discord_bot.rb:80-82 | '/start foo' resolves like '/start' |
| DiscordCommandBot.AtMostOneEffect | bots/discord_bot.rb:80-120 | a message causes at most one effect, addressed to its sender |
| DiscordCommandBot.InvokeIff | bots/discord_bot.rb:105-120 | a Proc is called iff the token resolves to an action-only entry holding it, or the token is unknown and it is the handler; it gets the full content and the sender |
| DiscordCommandBot.KnownMessageReplies | bots/discord_bot.rb:82-84 | a known command with a message sends exactly that message and calls nothing |
| DiscordCommandBot.NonProcActionRejected | bots/discord_bot.rb:105-111 | a truthy non-Proc action gets 'Invalid or non-executable action.' |
| DiscordCommandBot.SilentCases | bots/discord_bot.rb:93-98 | an entry with neither field, or an unknown token without handler, produces nothing |
| TelegramCommandBot.EntryOf | bots/telegram_bot.rb:32 | the stored entry carries the command's message and action unchanged |
| TelegramCommandBot.TelegramBot.constructor | bots/telegram_bot.rb:18-23 | the bot starts with its commands and handler and an empty `@processed_commands` |
| TelegramCommandBot.TelegramBot.Start | bots/telegram_bot.rb:29-34 | the loop leaves `@processed_commands` equal to the registration fold with the Telegram filter |
| TelegramCommandBot.TelegramBot.AddCommand | bots/telegram_bot.rb:43-48 | only the description's key changes, to `{message:, action:}` as passed |
| TelegramCommandBot.TelegramBot.Receive | bots/telegram_bot.rb:55-61 | the whole text is looked up; a hit goes to `handle_command`, a miss to `handle_unknown_command` |
| TelegramCommandBot.TelegramBot.HandleCommand | bots/telegram_bot.rb:70-76 | a truthy action runs, otherwise the stored message, possibly nil, is sent to the chat |
| TelegramCommandBot.TelegramBot.HandleUnknownCommand | bots/telegram_bot.rb:82-88 | the handler gets the text and the chat, or the chat gets 'Unknown command: ' plus the text |
| TelegramCommandBot.TelegramBot.ExecuteAction | bots/telegram_bot.rb:94-98 | a Proc is called; anything else does nothing |
| TelegramCommandBot.TelegramBot.SendMessage | bots/telegram_bot.rb:104-106 | one send, possibly of nil, to the chat is appended |
| TelegramCommandBot.StartRegistersVisible | bots/telegram_bot.rb:29-34 | after `start` a description is registered iff some command with it has type nil or 'telegram' |
| TelegramCommandBot.StartKeepsLastWrite | bots/telegram_bot.rb:29-34 | the stored entry is the message and action of the last Telegram-visible command with that description |
| TelegramCommandBot.WholeTextMatch | bots/telegram_bot.rb:56 | a text that is not itself a key is handled as unknown, even if it starts with one |
| TelegramCommandBot.ActionWins | bots/telegram_bot.rb:70-73 | with a truthy action the stored message is never sent, and a non-Proc action does nothing |
| TelegramCommandBot.MessageWithoutAction | bots/telegram_bot.rb:74 | without an action the stored message is sent to the chat and nothing is called |
| TelegramCommandBot.UnknownText | bots/telegram_bot.rb:82-88 | without a handler exactly 'Unknown command: ' plus the text is sent; with one only the handler is called |
| BaseBot.Bot.constructor | bots/bot.rb:10-14 | the bot starts with its commands and handler and an empty `@processed_commands` |
| BaseBot.Bot.AddCommand | bots/bot.rb:21-27 | only the description's key changes, to an action-only or message-only entry |
| BaseBot.Bot.HandleCommand | bots/bot.rb:33-39 | a truthy action runs, otherwise `command[:message]` is sent |
| BaseBot.Bot.HandleUnknownCommand | bots/bot.rb:44-50 | the handler is called when set, otherwise 'Unknown command: ' plus the text is sent |
| BaseBot.Bot.ExecuteAction | bots/bot.rb:56-58 | only a Proc is called; a non-Proc does nothing |
| BaseBot.AddMessageOnly | specs/bot_spec.rb:35-41 | on a fresh bot, `add_command` with a message and no action makes the description a key of `@processed_commands` holding exactly that message and no action |
| BaseBot.CommandPathsExclusive | bots/bot.rb:33-39 | `handle_command` takes exactly one path: with a truthy action nothing is sent, without one exactly one send and no call |
| BaseBot.ValidCommandIffBothPlatforms | bots/bot.rb:64-66 | `valid_command?` accepts a command exactly when both the Discord and the Telegram filter accept it |
| BaseBot.ValidCommandVisibleEverywhere | bots/bot.rb:64-66 | a command `valid_command?` accepts, one with nil type, passes every bot's platform filter |
| BaseBot.SpecStartCommandRejected | bots/bot.rb:64-66 | the spec's '/start' command, typed 'telegram', is rejected by `valid_command?` |
| CommandsHandler.BotCommands.constructor | commands_handler/bot_commands.rb:12-14 | the table starts empty |
| CommandsHandler.BotCommands.AddCommand | commands_handler/bot_commands.rb:31-43 | a command with neither message nor action raises ArgumentError and leaves the table unchanged; any other command is stored under its name and nothing else changes |
| CommandsHandler.BothFieldsAccepted | commands_handler/bot_commands.rb:32 | a command with both message and action passes the guard |
| Commands.BotCommands.constructor | commands/commands.rb:8-10 | the table starts empty |
| Commands.BotCommands.AddCommand | commands/commands.rb:15-22 | with no validation, `@commands[d] = {description: d, message:, action:, type:}` on the insertion-ordered hash: `d` then reads as that command and every other key as before |
| Storage.InsertedRow | use_cases/web_availability/add_review.rb:40-45 | the inserted row is `(config[:owner], config[:url])` |
| Storage.DataNeverInserted | use_cases/web_availability/add_review.rb:42 | the `:data` key has no effect on the inserted row |
| WebAvailability.StartCommand | use_cases/web_availability/commands.rb:51-56 | '/start' is the static START message |
| WebAvailability.AddWebsiteCommand | use_cases/web_availability/commands.rb:58-65 | '/add_website' is an action without a message |
| WebAvailability.Commands | use_cases/web_availability/commands.rb:68-73 | exactly the keys 'start' and 'add_website', mapped to those two commands |
| WebAvailability.BotCommands.constructor | use_cases/web_availability/commands.rb:17-20 | no user is awaiting and nothing is logged |
| WebAvailability.BotCommands.CustomHandler | use_cases/web_availability/commands.rb:22-29 | the user's state is untouched; the log grows by the handler's events; every saved row keeps an awaiting owner and an http(s) URL |
| WebAvailability.BotCommands.ValidateWebsite | use_cases/web_availability/commands.rb:31-38 | a URL is saved and then thanked for; other text gets INVALID |
| WebAvailability.BotCommands.SaveWebsite | use_cases/web_availability/commands.rb:40-43 | one insert of `(user.id, message)` is logged |
| WebAvailability.BotCommands.SendMessage | use_cases/web_availability/commands.rb:27 | one reply to the user is logged, after everything logged before |
| WebAvailability.BotCommands.AddWebsite | use_cases/web_availability/commands.rb:45-48 | ADD_WEBSITE is sent and only the user's entry becomes awaiting |
| WebAvailability.NotAwaitingGetsInstruction | use_cases/web_availability/commands.rb:22-28 | a user not awaiting gets INSTRUCTION and nothing is saved |
| WebAvailability.UrlSavedThenThanked | use_cases/web_availability/commands.rb:31-34 | an awaiting user's http:// or https:// text gives one save of `(user, text)` followed by WEBSITE_ADDED |
| WebAvailability.OtherTextRejected | use_cases/web_availability/commands.rb:35-37 | an awaiting user's other text gets INVALID and no save |
| WebAvailability.HandlerSavesOnlyUrls | use_cases/web_availability/commands.rb:22-43 | every call replies exactly once, to the sender, and saves the sender's text only when the sender awaits and it is a URL |
| Menu.SavedDataIsDropped | menu.rb:47-49 | as written, the inserted row for saved data has a NULL url |
| Menu.SavedDataIsStored | menu.rb:47-49 | with the corrected config the row holds the owner and the message |
| Menu.ValidateEventsAsWritten | menu.rb:38-49 | `validate_data` as written sends the same replies as the corrected workflow, but every row it saves is `(user, NULL)` |
| Menu.DataLostAsWritten | menu.rb:41-49 | as written, an awaiting user's non-blank message is thanked for with the corrected workflow's replies, but saved as `(owner, NULL)` |
| Menu.DefaultCommands | menu.rb:97-108 | exactly 'start' (START message) and 'add_data' (an action) |
| Menu.AllCommandsMerge | menu.rb:110 | the merged table has every key of both, a custom entry replaces a default, the defaults stay otherwise and come first |
| Menu.Menu.constructor | menu.rb:23-27 | no user is awaiting, no custom commands and nothing is logged |
| Menu.Menu.CustomHandler | menu.rb:29-36 | with the corrected config of menu.rb:48: the user's state is untouched, the log grows by the handler's events, and every saved row keeps an awaiting owner and non-blank data |
| Menu.Menu.ValidateData | menu.rb:38-45 | blank input gets INVALID; other input is saved, with the corrected config of menu.rb:48, and then thanked for |
| Menu.Menu.SaveData | menu.rb:47-50 | with the corrected config of menu.rb:48, one insert of `(user.id, message)` is logged |
| Menu.Menu.AddData | menu.rb:52-55 | ADD_DATA is sent and only the user's entry becomes awaiting |
| Menu.Menu.RunBotsCommands | menu.rb:97-110 | the table given to both bots holds every default and custom key once, a custom command replaces the default of the same key, the other defaults stay, and 'start' and 'add_data' come first |
| Menu.Menu.SendMessage | menu.rb:34 | one reply to the user is logged, after everything logged before |
| Menu.NotAwaitingGetsInstruction | menu.rb:29-35 | a user not awaiting gets INSTRUCTION and nothing is saved |
| Menu.BlankRejected | menu.rb:38-40 | an awaiting user's blank message gets INVALID and no save |
| Menu.DataSavedThenThanked | menu.rb:41-43 | with the corrected config of menu.rb:48, an awaiting user's non-blank message gives one save of `(user, message)` followed by DATA_ADDED |
| DiscordWebAvailability.ProcessStatus | discord_bot.rb:27-33 | 'processing' iff the entry under the symbol `:user_id` is `:awaiting_url` |
| DiscordWebAvailability.WebAvailability.constructor | discord_bot.rb:8-13 | empty `user_data` and outbox |
| DiscordWebAvailability.WebAvailability.Process | discord_bot.rb:27-33 | on every state the handlers can build, `process` reports 'not_processing' |
| DiscordWebAvailability.WebAvailability.ProcessMessage | discord_bot.rb:44-50 | the new state and replies are those of handling the message |
| DiscordWebAvailability.WebAvailability.ProcessCommand | discord_bot.rb:52-60 | the new state and replies are those of the first-token dispatch |
| DiscordWebAvailability.WebAvailability.ProcessInput | discord_bot.rb:62-68 | awaiting users go to validation, others get the instruction |
| DiscordWebAvailability.WebAvailability.ValidateWebsite | discord_bot.rb:70-77 | a URL replaces the state by `{url, user_id}`; other text only gets the invalid reply |
| DiscordWebAvailability.WebAvailability.SendMessage | discord_bot.rb:79-81 | one reply to the recipient is appended to the outbox |
| DiscordWebAvailability.SlashSelectsCommands | discord_bot.rb:44-50 | '/'-prefixed content goes only to command processing, other content only to input processing |
| DiscordWebAvailability.StartGreets | discord_bot.rb:44-55 | any '/'-prefixed content whose first token is '/start' greets and changes no state |
| DiscordWebAvailability.StartWithWordsGreets | discord_bot.rb:53-55 | '/start' followed by any whitespace character and words greets like '/start' |
| DiscordWebAvailability.AddWebsiteAwaits | discord_bot.rb:44-58 | any '/'-prefixed content whose first token is '/add_website' prompts and marks the sender as awaiting, whatever follows the token |
| DiscordWebAvailability.OtherCommandIgnored | discord_bot.rb:53-59 | any other '/' token gives no reply and no state change |
| DiscordWebAvailability.NotAwaitingGetsInstruction | discord_bot.rb:62-67 | input from a user not awaiting gets the instruction and no state change |
| DiscordWebAvailability.UrlLeavesAwaiting | discord_bot.rb:70-73 | a valid URL stores `{url, user_id}`, replies 'Website added...' and the user no longer awaits |
| DiscordWebAvailability.OtherTextStaysAwaiting | discord_bot.rb:74-76 | other text gets the invalid reply and the user still awaits |
| DiscordWebAvailability.MessagePreservesState | discord_bot.rb:44-77 | a message changes at most the sender's entry, sends at most one reply, and keeps the keys user ids and the records well formed |
| DiscordWebAvailability.HandlersNeverProcessing | discord_bot.rb:27-33 | on every state the handlers build, `process` reports 'not_processing' |
| TelegramWebAvailability.WebAvailability.constructor | telegram_bot.rb:7-13 | empty `@processed_commands` and outbox |
| TelegramWebAvailability.WebAvailability.Start | telegram_bot.rb:15-19 | the loop registers every command's message under its description, with no filter |
| TelegramWebAvailability.WebAvailability.AddCommand | telegram_bot.rb:22-24 | only the description's key changes, to the message |
| TelegramWebAvailability.WebAvailability.Receive | telegram_bot.rb:27-32 | a text equal to a key sends the stored message, any other goes to the unknown path |
| TelegramWebAvailability.WebAvailability.HandleUnknownCommand | telegram_bot.rb:38-40 | 'Comando desconocido: ' plus the text is sent to the chat |
| TelegramWebAvailability.WebAvailability.SendMessage | telegram_bot.rb:42-44 | one send, possibly of nil, to the chat is appended |
| TelegramWebAvailability.StartRegistersAll | telegram_bot.rb:15-18 | after `start` a description is registered iff some command has it, whatever its type |
| TelegramWebAvailability.StartKeepsLastMessage | telegram_bot.rb:22-24 | the message under a description is the last command's with it |
| TelegramWebAvailability.ExactTextOnly | telegram_bot.rb:28-31 | exact keys get their message, every other text the unknown reply, one effect each, and no Proc is ever called |
| BotBase.OptionsOr | bot_base.rb:6-10 | a missing options hash defaults to `{}` |
| BotBase.Base.constructor | bot_base.rb:6-10 | each options hash is the given one or `{}`; no response yet |
| BotBase.Base.Execute | bot_base.rb:13-24 | the steps taken, the three responses and the outcome are those of the pipeline function |
| BotBase.StageSteps | bot_base.rb:46-61 | a stage update raises only when `avoid_process` is not true and the response has no `id`; otherwise it issues at most one update, and only for a record with a non-nil id, to that id and stage |
| BotBase.Base.WriteStage | bot_base.rb:46-61 | the update is skipped for `avoid_process` true or a nil id, asking a result without `id` raises, otherwise one update of that id to the stage |
| BotBase.DoneOrder | bot_base.rb:13-24 | a successful run calls read, then process, then write, and assigns all three responses |
| BotBase.StageUpdatesAroundProcess | bot_base.rb:14-23 | with an id and no `avoid_process`, 'in process' comes right before process and 'processed' right after it |
| BotBase.NoUpdateWhenSkipped | bot_base.rb:47 | with `avoid_process` true or a nil id no stage update happens |
| BotBase.NonHashStops | bot_base.rb:19-23 | a non-Hash process result fails with InvalidProcessResponse, before the 'processed' update and the write |
| BotBase.BaseFailsAtRead | bot_base.rb:29-31 | the base hooks fail at `read` with FunctionNotImplemented before anything else happens |
| BotBase.UpdatesTargetReadId | bot_base.rb:49 | every stage update targets the id `read` returned, with the read options and one of the two stages |
| Deployment.DiscordRegistersWebsiteCommands | main.rb:16-19 | Discord holds the START message under '/start' and the Proc under '/add_website' |
| Deployment.TelegramRegistersWebsiteCommands | main.rb:16-19 | Telegram holds the same two entries |
| Deployment.StartWithWordsDiffers | main.rb:16-19 | '/start now' greets on Discord but goes to `custom_handler` on Telegram |
| Deployment.AddWebsiteInvokesProc | main.rb:16-19 | '/add_website' calls the `add_website` Proc on both platforms |
| Deployment.RootTelegramDropsActions | telegram_bot.rb:15-29 | the root Telegram bot keeps only messages, so '/add_website' sends nil |
| Deployment.MenuDefaultsOnDiscord | menu.rb:97-113 | with no custom commands Discord serves '/start' and '/add_data' |

## Left out

- The platform clients: Discordrb, the Telegram client, `user.pm` and `api.send_message`. Sends are appended to an outbox instead. An incoming event is a plain `(sender, text)` value.
- The receive loops: `read`/`listen`/`run` and their per-event `rescue`/Logger wrappers. Each bot's `Start` models only the registration loop. `Receive`/`ProcessMessage` model one pass of the loop body.
- DiscordCommandBot.DiscordBot.SendMessage: a reply goes to the sender's id. `event.user` versus `message.chat` objects are not distinguished, and neither is the `message` object that bots/bot.rb sends to.
- BaseBot.Bot.SendMessage: bots/bot.rb calls a `send_message` it never defines. The model appends a send to the outbox.
- BaseBot.Bot.HandleUnknownCommand: the value it returns, which specs/bot_spec.rb:44-49 checks, is not modelled. Return values of Procs and handlers are outside the model, and a Proc call is recorded as an `Invoke` effect.
- A Ruby `false` action, and nil texts or descriptions: an action is nil, a Proc or another truthy value, and texts are strings.
- TelegramCommandBot.TelegramBot.SendMessage: sending a nil text is recorded as `SendNil`. The rejection by the Telegram API, and the logging that follows it, are not modelled.
- The environment reads and thread start-up of main.rb:7-12 and 21-25, and the thread start-up of `run_bots` (menu.rb:96-120, 123-125): bootstrap and concurrency only.
- Deployment: main.rb:14 names an undefined `WebsiteBotCommands`, so the script would raise a NameError before line 16. The model assumes that `bot_commands` is the `BotCommands` of use_cases/web_availability/commands.rb.
- Menu.Menu.SaveData: the class logs the row of the corrected config, `(user.id, message)`. The row menu.rb:48 builds as written, `(user.id, NULL)`, is stated by `Menu.ValidateEventsAsWritten` and `Menu.DataLostAsWritten` (see Findings).
- Menu.Menu.ValidateData: its save is that of the corrected config, as for `Menu.Menu.SaveData`.
- Menu.Menu.CustomHandler: its invariant that every saved row holds non-blank data holds for the corrected config only. As written every saved row has a NULL url.
- Menu.DataSavedThenThanked: it states the corrected row. `Menu.DataLostAsWritten` states the row as written.
- `generate_commands` (menu.rb:57-93): an interactive stdin loop that dispatches by name through `send`.
- The Postgres requests of `Utils::AddReview` and `Write::PostgresUpdate`. A workflow log records the inserted rows, and the pipeline trace records the stage updates with the read options they are merged into. The `conditions` string is not built.
- BotBase.Base.Execute: the subclass's `read`, `process` and `write` are given as fixed outcomes (return or raise), not as code. `DiscordBot::WebAvailability#read` and `#write` are not modelled: its `read` is the endless event loop, and its `write` reads symbol keys that the handlers never set.
- BotBase.NonHashStops: `InvalidProcessResponse` is not defined in any file shown. Ruby would raise a NameError at bot_base.rb:19. The model raises the intended error. bots/utils/exceptions.rb is not part of this model.
- BotBase.OptionsOr: the model of the `||` default of bot_base.rb:7-9 treats only a missing options hash as absent. Ruby's `||` also replaces an explicit `nil` or `false`, and such values are not modelled.
- `custom_handler` stubs of commands_handler/bot_commands.rb:18 and commands/commands.rb:12-13: they do nothing.
- `user_data` is modelled sequentially, without the threads that share it.

## Findings

| source | as written | input that shows it | evidently intended | confidence | as-written member | corrected member |
|---|---|---|---|---|---|---|
| menu.rb:48 | `save_data` passes the message under `:data`, but use_cases/web_availability/add_review.rb:42 inserts `config[:url]`, so the row gets a NULL url and the data is lost | an awaiting user sends "hello" | the message is stored with the owner | medium, not executed | Menu.DataLostAsWritten | Menu.DataSavedThenThanked |
