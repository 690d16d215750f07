# LiveConnect live-chat pipeline in Dafny

This project models the core of LiveConnect, a Rust service that follows a
YouTube live chat and republishes every message to a Minecraft server.

- **The normaliser** (`ChatRepository`) takes one decoded innertube
  `get_live_chat` response. It returns the chat messages in it, in order,
  together with the next continuation token and the suggested wait.
  - It dispatches six renderer kinds in a fixed order: text, Super Chat,
    Super Sticker, membership, engagement banner and placeholder.
  - It flattens text and emoji runs into plain text.
  - It parses authors and their badge flags.
  - It picks the first continuation entry.
- **The polling loop** (`ChatService`) holds the continuation token.
  - Each turn fetches, yields the batch, stores the next token and sleeps
    `min(timeout, 2000)` ms.
  - A missing token or a failed fetch ends the loop for good.
- **The controller** (`ChatController`) turns each message into the log line
  `[datetime] [type] name+badges: text`. It prints the line and forwards it
  as a `tellraw` command (`MinecraftService`). Neither a failed send nor an
  error item stops it.

The supporting modules are:

- `Json`: serde_json's `Value`. `v["k"]` gives `Null` when the key is
  missing, and `get` gives `Some` whenever the key is present.
- `Numeric`: Rust's `i64` parsing, `/` truncating toward zero, and `as u32`.
- `DateTime`: chrono's UTC `%Y-%m-%d %H:%M:%S`, computed with the 400-year
  era algorithm and proved invertible.

The code is modelled in the form it takes in the source:

- The parsers are pure functions.
- The loops are methods, each proved equal to the function that specifies it:
  - `parse_message_runs`, the action loop and the continuation loop;
  - the badge loop with its five mutable locals;
  - the controller's `while let`.
- `ChatService` is a class whose token cell is a field. Each loop turn is
  proved to equal a pure `Step`. That step keeps an invariant: the cell holds
  the last stored token, and every fetch uses the token stored before it.
  Consequently, the `None` branch cannot happen once the service is built.

Two details of the badge handling are easy to misread, and the model keeps
them as the code has them:

- A badge sets at most one role flag. Its lower-cased label is tried for
  verified, moderator, owner and member, in that order, with `else if`.
  Flags from different badges still combine.
- When a badge has an `icon` key whose URL is missing, the badge URL becomes
  `None`.

Two places where the code evidently misses its own intent are listed under
Findings: a log line holding a backslash breaks the `tellraw` command, and a
currency-marked amount such as `"$1,234.56"`, meant to read as 1234.56,
gets no value. The rest of the model uses the code as written. Each
finding also has a corrected definition with the intended property proved
about it.

## Model

| member | source | states |
|---|---|---|
| Json.LookupFinds | src/repositories/chat_repository.rs:103 | `get` finds the first field with the key, and finds nothing exactly when no field has it |
| Json.Field | src/repositories/chat_repository.rs:100 | `v["k"]` is the stored value when the key is present, otherwise `Null` |
| Json.Elem | src/repositories/chat_repository.rs:334 | `v[0]` is the first item of an array, otherwise `Null` |
| Json.AsU64 | src/repositories/chat_repository.rs:154 | `as_u64` gives a value exactly for integers in [0, 2^64) |
| Json.ItemsOrEmpty | src/repositories/chat_repository.rs:99-101 | a non-array stands for no items |
| Numeric.ParseI64 | src/repositories/chat_repository.rs:204 | `parse::<i64>` accepts only an optional sign followed by one or more digits, and the value is the signed decimal value of those digits |
| Numeric.ParseI64Accepts | src/repositories/chat_repository.rs:204 | every optional sign followed by digits whose value fits in i64 is accepted, leading zeros included (`"007"` gives 7) |
| Numeric.ParseI64OfIntToString | src/repositories/chat_repository.rs:204 | parsing inverts decimal rendering over the whole i64 range |
| Numeric.DecimalValueOfNatToString | src/repositories/chat_repository.rs:204 | the digit string of n denotes n |
| Numeric.DivTrunc1000 | src/repositories/chat_repository.rs:204 | `/ 1000` rounds toward zero, for negative dividends as well |
| Numeric.DivTrunc1000InRange | src/models/chat_model.rs:12 | the millisecond timestamp fits the `i64` field |
| Numeric.LowU32 | src/repositories/chat_repository.rs:276 | `as u32` keeps the value below 2^32 and differs from it by a multiple of 2^32 |
| DateTime.FormatMillis | src/repositories/chat_repository.rs:433-434 | for years 0..9999 the rendering is 19 characters, with separators at positions 4, 7, 10, 13 and 16 |
| DateTime.FormatMillisFields | src/repositories/chat_repository.rs:434 | each digit field reads back as the year, month, day, hour, minute and second it was made from |
| DateTime.FormatMillisInjective | src/repositories/chat_repository.rs:433-434 | instants in different seconds render differently |
| DateTime.CivilFromDaysRoundTrip | src/repositories/chat_repository.rs:433 | the day-to-civil-date conversion has an inverse |
| DateTime.CivilFromDays | src/repositories/chat_repository.rs:433 | the month is in 1..12 and the day in 1..31 |
| DateTime.CivilFromDaysIsValidDate | src/repositories/chat_repository.rs:433 | every date produced is a real Gregorian date: the day is within its month, and 29 February appears only in leap years |
| DateTime.DayOfMonthBound | src/repositories/chat_repository.rs:433 | the day of month never exceeds the month's common-year length, except 29 February on the last day of a March-based year |
| DateTime.LastDayOfYearIsLeap | src/repositories/chat_repository.rs:433 | a March-based year with a day 365 ends in a leap year (the 4/100/400 rule) |
| DateTime.CivilFromDaysAt | src/repositories/chat_repository.rs:433 | the civil date of a day whose era, year of era and day of year are known |
| DateTime.EpochIsNewYear1970 | src/repositories/chat_repository.rs:433 | day 0 is 1970-01-01 |
| DateTime.Day19675IsNovember14th2023 | src/repositories/chat_repository.rs:433 | day 19675 is 2023-11-14 |
| DateTime.EraDateOf | src/repositories/chat_repository.rs:433 | splitting a day of the 400-year era is undone by `DayOfEra` |
| DateTime.DayOfEraBounds | src/repositories/chat_repository.rs:433 | year of era below 400 and day of year at most 365 |
| DateTime.YearOfEraInCycle | src/repositories/chat_repository.rs:433 | year and day of year from the century, four-year cycle and day |
| DateTime.YearString | src/repositories/chat_repository.rs:434 | `%Y` is four digits for 0..9999, and signed with five or more characters otherwise |
| ChatModel.PlainTextAppend | src/repositories/chat_repository.rs:192-195 | the plain text of joined run lists is the joined plain texts |
| ChatModel.PlainTextIgnoresEmoji | src/repositories/chat_repository.rs:192-195 | an emoji run adds nothing to `message` wherever it stands |
| ChatRepository.Split | src/repositories/chat_repository.rs:337 | `split("/")` gives one more piece than there are separators, and no piece holds one |
| ChatRepository.JoinSplit | src/repositories/chat_repository.rs:337 | joining the pieces with the separator gives the string back |
| ChatRepository.Lower | src/repositories/chat_repository.rs:365 | same length; exactly `A`..`Z` are lowered |
| ChatRepository.Contains | src/repositories/chat_repository.rs:367-377 | true exactly when the substring occurs at some index |
| ChatRepository.RemoveCommas | src/repositories/chat_repository.rs:274 | no comma is left, the length drops by the comma count, and comma-free text is unchanged |
| ChatRepository.EmojiOf | src/repositories/chat_repository.rs:410-415 | the emoji's id, first shortcut and first thumbnail URL, each `""` when missing or not a string |
| ChatRepository.RunOf | src/repositories/chat_repository.rs:404-424 | a run is kept exactly when it has a string `text` or an `emoji` key; a string `text` gives a text run; otherwise the `emoji` value gives an emoji run built by `EmojiOf`; the result has exactly one of text and emoji |
| ChatRepository.RunsOf | src/repositories/chat_repository.rs:400-428 | never more runs than given, and every run well formed |
| ChatRepository.RunsOfAppend | src/repositories/chat_repository.rs:403-425 | runs are kept in input order |
| ChatRepository.RunsOfDropsBareRun | src/repositories/chat_repository.rs:404-424 | a run with neither a string `text` nor an `emoji` key leaves no trace |
| ChatRepository.ParseMessageRuns | src/repositories/chat_repository.rs:400-428 | the push loop gives `RunsOf` of the array, no longer than it and all well formed |
| ChatRepository.CollectText | src/repositories/chat_repository.rs:192-195 | the collected string is the in-order concatenation of the text runs |
| ChatRepository.AssignedEffect | src/repositories/chat_repository.rs:353-380 | a badge turn sets exactly the named role's flag and assigns the URL only when it has an icon |
| ChatRepository.ApplyBadgeEffect | src/repositories/chat_repository.rs:351-381 | one badge sets only the flag its label names, and replaces the URL exactly when it has an `icon` or `customThumbnail` key |
| ChatRepository.ApplyBadgesRoles | src/repositories/chat_repository.rs:349-384 | a flag ends true exactly when it started true or some badge names its role (so no badges means all false) |
| ChatRepository.ApplyBadgesUrlUnset | src/repositories/chat_repository.rs:349-384 | with no icon-bearing badge the URL stays as it was (`None` from the start) |
| ChatRepository.ApplyBadgesUrlLast | src/repositories/chat_repository.rs:353-359 | the last icon-bearing badge decides the URL, even when its URL is missing |
| ChatRepository.AuthorOf | src/repositories/chat_repository.rs:333-340 | `None` exactly when the name or avatar URL is missing or the URL has fewer than five pieces; otherwise the channel id is piece 4 and the channel URL is the prefix plus it |
| ChatRepository.ReadBadge | src/repositories/chat_repository.rs:351-381 | the body of the badge loop updates the five locals as `ApplyBadge` says |
| ChatRepository.ReadBadgeIcon | src/repositories/chat_repository.rs:353-359 | `icon` is preferred over `customThumbnail`, and the URL is kept when neither key is present |
| ChatRepository.ReadBadgeRole | src/repositories/chat_repository.rs:362-381 | the role is read from the lower-cased accessibility label |
| ChatRepository.ParseAuthor | src/repositories/chat_repository.rs:327-397 | the method with its badge loop returns `AuthorOf` |
| ChatRepository.FormatDatetime | src/repositories/chat_repository.rs:431-435 | the parsed microseconds, divided by 1000 toward zero, rendered in UTC; an unparseable string counts as 0, the epoch |
| ChatRepository.Stamped | src/repositories/chat_repository.rs:199-212 | `id` is copied, `timestamp` is the parsed µs divided by 1000, `datetime` is its UTC rendering, and `message` is the runs' plain text |
| ChatRepository.ParseTextMessage | src/repositories/chat_repository.rs:184-213 | kept exactly when the author, `id` and timestamp are present; type `textMessage`, well formed, no money fields |
| ChatRepository.ParseViewerEngagementMessage | src/repositories/chat_repository.rs:216-248 | kept exactly when `id` and timestamp are present; the author is the canonical empty one |
| ChatRepository.PaidRuns | src/repositories/chat_repository.rs:257-260 | no `message` key gives no runs |
| ChatRepository.AmountValueAsWritten | src/repositories/chat_repository.rs:272-274 | the parser sees the amount text with its commas removed and nothing else changed; no amount text gives no value |
| ChatRepository.AmountValue | src/repositories/chat_repository.rs:272-274 | corrected (not the code's behaviour): the parser sees the amount with its commas and its leading currency mark removed; no amount text gives no value |
| ChatRepository.DropCurrency | src/repositories/chat_repository.rs:274 | corrected (not the code's behaviour): only characters that cannot start a number are dropped, from the front, so a sign or a point is kept; what remains is empty or starts with a sign, a point or a digit |
| ChatRepository.AmountValuesAgreeOnPlainNumbers | src/repositories/chat_repository.rs:272-274 | for amounts that already start with a sign, a point or a digit, the corrected and the as-written values agree |
| ChatRepository.RemoveCommasKeepsHead | src/repositories/chat_repository.rs:274 | removing commas keeps a leading non-comma character |
| ChatRepository.RemoveCommasAppend | src/repositories/chat_repository.rs:274 | comma removal works piecewise |
| ChatRepository.CurrencyAmountIsLost | src/repositories/chat_repository.rs:272-274 | as written, an amount opening with a currency mark never gets a value |
| ChatRepository.CurrencyAmountIsRead | src/repositories/chat_repository.rs:272-274 | corrected (not the code's behaviour): for any amount holding a digit, the parser receives comma-free text that starts with a sign, a point or a digit |
| ChatRepository.MarkedAmountIsRead | src/repositories/chat_repository.rs:272-274 | corrected (not the code's behaviour): a currency mark in front of an amount with a thousands separator is dropped with the separator, so `"$1,234.56"` reaches the parser as `"1234.56"` |
| ChatRepository.DollarAmountIsLost | src/repositories/chat_repository.rs:272-274 | `"$1,234.56"` gets no value as written |
| ChatRepository.ParsePaidMessage | src/repositories/chat_repository.rs:251-292 | kept exactly when the author, `id` and timestamp are present; the amount text is kept verbatim, its value is `AmountValueAsWritten` of it, the currency is copied, and `bg_color` is present exactly when `headerBackgroundColor` is a u64, taken mod 2^32 |
| ChatRepository.ParseMembershipMessage | src/repositories/chat_repository.rs:295-324 | kept exactly when the author, `id` and timestamp are present; type `newSponsor`, text from `headerSubtext` |
| ChatRepository.ClassifyItem | src/repositories/chat_repository.rs:107-136 | each kind is chosen exactly when its key is present and none of the earlier keys is (text, Super Chat, Super Sticker, membership, engagement, placeholder); the chosen kind carries that key's renderer; an item is unsupported exactly when it has none of the six keys |
| ChatRepository.ParseChatItem | src/repositories/chat_repository.rs:107-136 | every message produced is well formed |
| ChatRepository.ChatItemType | src/repositories/chat_repository.rs:107-136 | placeholders and unknown items give nothing, and the message type follows the renderer kind |
| ChatRepository.ParseAction | src/repositories/chat_repository.rs:103-104 | an action without `addChatItemAction` gives nothing |
| ChatRepository.ActionMessages | src/repositories/chat_repository.rs:103-137 | one action gives at most one well-formed message |
| ChatRepository.ParseActions | src/repositories/chat_repository.rs:98-139 | no more messages than actions, all well formed |
| ChatRepository.ParseActionsAppend | src/repositories/chat_repository.rs:102-138 | kept items preserve batch order |
| ChatRepository.CollectStep | src/repositories/chat_repository.rs:102-138 | one more action adds exactly its message and its unsupported item |
| ChatRepository.HandleAction | src/repositories/chat_repository.rs:103-137 | the loop body pushes the action's message and logs its item when it is unsupported |
| ChatRepository.CollectMessages | src/repositories/chat_repository.rs:98-139 | the action loop gives `ParseActions` and the list of unsupported items |
| ChatRepository.FirstContinuation | src/repositories/chat_repository.rs:145-174 | nothing exactly when no entry has data; otherwise the first entry with data decides |
| ChatRepository.FirstContinuationAt | src/repositories/chat_repository.rs:148-172 | an entry with data and none before it decides the result |
| ChatRepository.ReadContinuation | src/repositories/chat_repository.rs:149-172 | tries timed, then invalidation, then reload data; a missing token is `""` and a missing wait is 0 |
| ChatRepository.FindContinuation | src/repositories/chat_repository.rs:142-174 | the loop stops at the first entry with data, otherwise leaves `""` and 0 |
| ChatRepository.LiveChat | src/repositories/chat_repository.rs:98-180 | Err exactly when there is no continuation or its token is empty (even if a later entry has one); otherwise the messages in order, that token and that wait |
| ChatRepository.NormaliseResponse | src/repositories/chat_repository.rs:98-180 | the two loops and the empty-token check give `LiveChat` |
| ChatRepository.FetchChatMessages | src/repositories/chat_repository.rs:67-181 | a failed request gives the request error; otherwise the result is `LiveChat` of the response; an error is either the request error or the missing-continuation error; a successful result's token is never empty |
| ChatRepository.GetChatMessages | src/repositories/chat_repository.rs:67-181 | the poll's result is the normalised response, and a successful result's token is never empty |
| ChatRepository.InitialContinuation | src/repositories/chat_repository.rs:41-45 | Ok exactly when the `ytInitialData` path ends in a string, which is then the token |
| ChatRepository.InitialContinuationRoundTrip | src/repositories/chat_repository.rs:41-45 | a document built around a token gives it back, and an empty one gives the error |
| ChatService.SleepMillis | src/services/chat_service.rs:74 | the sleep is `min(timeout, 2000)`, never above 2000 ms |
| ChatService.OkItems | src/services/chat_service.rs:63-65 | one item per message |
| ChatService.OkItemsAt | src/services/chat_service.rs:63-65 | item i is `Ok` of message i |
| ChatService.OkItemsOk | src/services/chat_service.rs:63-65 | every yielded item is `Ok` |
| ChatService.YieldEvents | src/services/chat_service.rs:63-65 | one yield event per item |
| ChatService.YieldEventsAt | src/services/chat_service.rs:63-65 | event i yields item i |
| ChatService.YieldedInOrder | src/services/chat_service.rs:63-65 | a batch is yielded in batch order, each message wrapped in `Ok` |
| ChatService.Step | src/services/chat_service.rs:44-80 | a turn only extends the trace; an ended loop stays put; a turn ends the loop exactly when the token is missing or the fetch fails |
| ChatService.StepYield | src/services/chat_service.rs:50-65 | only `Ok` items are yielded, and only on a turn whose fetch succeeded |
| ChatService.YieldedAppend | src/services/chat_service.rs:63-65 | the items a trace yields work piecewise |
| ChatService.YieldedOfYieldEvents | src/services/chat_service.rs:63-65 | the yield events of a batch hand over exactly its items |
| ChatService.QuietEvents | src/services/chat_service.rs:56-78 | fetches, stores, sleeps and the end yield nothing |
| ChatService.FetchedTurnYields | src/services/chat_service.rs:51-75 | a successful turn yields the batch's messages as `Ok` items and nothing else |
| ChatService.StepYieldsInTrace | src/services/chat_service.rs:44-80 | what a turn records as yielded is exactly what it hands to the consumer |
| ChatService.StepsYieldInTrace | src/services/chat_service.rs:44-80 | over any number of turns, the recorded yields are exactly the items handed over, in order |
| ChatService.FetchedTurnEvents | src/services/chat_service.rs:51-75 | a successful turn fetches once, first, sleeps at most 2000 ms, and yields only `Ok` items |
| ChatService.LastStoredAppend | src/services/chat_service.rs:68-71 | events other than a store leave the held token unchanged |
| ChatService.ExtendTrace | src/services/chat_service.rs:45-75 | a turn that fetches with the held token keeps every fetch on the stored token and every sleep capped |
| ChatService.StepKeepsValid | src/services/chat_service.rs:44-80 | every turn keeps the invariant (cell = last stored token, fetches use it, ended iff last event is the end) |
| ChatService.FailedTurnKeepsValid | src/services/chat_service.rs:56-60 | a failed fetch ends the loop and keeps the invariant |
| ChatService.FetchedTurnKeepsValid | src/services/chat_service.rs:63-75 | a successful turn yields, stores `Some(next)`, sleeps, and keeps the invariant |
| ChatService.EndedIsFinal | src/services/chat_service.rs:57-59 | after the loop breaks, further turns change nothing |
| ChatService.StepsKeepValid | src/services/chat_service.rs:44-80 | any number of turns keeps the invariant |
| ChatService.ChatService.constructor | src/services/chat_service.rs:20-35 | `new` seeds the cell with `Some(token)` and the invariant holds |
| ChatService.ChatService.Cycle | src/services/chat_service.rs:44-80 | one turn changes the state exactly as `Step` and yields `StepYield` |
| ChatService.ChatService.StreamMessages | src/services/chat_service.rs:37-82 | n turns reach `Steps`; the items returned are exactly those the turns yield, in order, and are what the trace records as yielded; every item is `Ok`; the invariant is kept |
| ChatService.YieldBatch | src/services/chat_service.rs:63-65 | the yield loop produces `OkItems` and the matching events |
| MinecraftService.EscapeQuotes | src/services/minecraft_service.rs:36 | the escaped length is the original length plus the number of `"` |
| MinecraftService.UnescapeEscapeQuotes | src/services/minecraft_service.rs:36 | the escaping loses nothing: it has an inverse, so only quotes change and order is kept |
| MinecraftService.EscapeQuotesCons | src/services/minecraft_service.rs:36 | `"` becomes `\"`; any other character is copied |
| MinecraftService.EscapeQuotesAppend | src/services/minecraft_service.rs:36 | escaping works piecewise |
| MinecraftService.EscapeQuotesGuardsQuotes | src/services/minecraft_service.rs:36 | every `"` of the result is right after a `\` |
| MinecraftService.EscapesAgreeWithoutBackslash | src/services/minecraft_service.rs:36 | without backslashes the as-written and corrected escapes agree |
| MinecraftService.DecodeEscapeQuotes | src/services/minecraft_service.rs:34-37 | without backslashes the as-written literal decodes back to the line |
| MinecraftService.EscapeJson | src/services/minecraft_service.rs:36 | the corrected escape also doubles backslashes; its length counts both |
| MinecraftService.EscapeJsonAppend | src/services/minecraft_service.rs:36 | the corrected escape works piecewise |
| MinecraftService.EscapeJsonCons | src/services/minecraft_service.rs:36 | the corrected escape handles the first character on its own |
| MinecraftService.DecodeEscapedChar | src/services/minecraft_service.rs:36 | one escaped character decodes to itself |
| MinecraftService.DecodeEscapeJson | src/services/minecraft_service.rs:34-37 | the corrected literal decodes back to the line and ends at the closing quote |
| MinecraftService.TellrawCommandAsWritten | src/services/minecraft_service.rs:34-37 | `tellraw @a { "text": "` + quote-escaped line + `" }`; for a line without backslashes the text component decodes to exactly the line |
| MinecraftService.TellrawCommand | src/services/minecraft_service.rs:34-37 | corrected (not the code's behaviour): the command starts with the tellraw head, and its text component decodes to exactly the line, backslashes included |
| MinecraftService.TrailingBackslashBreaksCommand | src/services/minecraft_service.rs:36 | as written, the line `a\` leaves the text component unterminated; corrected, it decodes |
| ChatController.Select | src/controllers/chat_controller.rs:54-66 | never more glyphs than there are flags |
| ChatController.SelectLength | src/controllers/chat_controller.rs:54-66 | one glyph per true flag |
| ChatController.SelectMember | src/controllers/chat_controller.rs:54-66 | a glyph appears exactly when its flag is true |
| ChatController.SelectRanked | src/controllers/chat_controller.rs:54-66 | glyphs keep their fixed order |
| ChatController.GlyphRanks | src/controllers/chat_controller.rs:55-66 | the glyph order is verified, owner, sponsor, moderator |
| ChatController.CountFlags | src/controllers/chat_controller.rs:54-66 | the flag count is the number of true role flags |
| ChatController.BadgeSymbolsExact | src/controllers/chat_controller.rs:54-66 | the badge string has one glyph per true flag (at most 4, empty with none); each glyph is present exactly when its flag is set, in the fixed order |
| ChatController.BadgeSymbolsPushed | src/controllers/chat_controller.rs:54-66 | the four conditional pushes give the selected glyphs |
| ChatController.LogLineShape | src/controllers/chat_controller.rs:69-76 | the line starts with `[datetime] [`, ends with `: ` + message, and its length accounts for every part |
| ChatController.FormatLogMessage | src/controllers/chat_controller.rs:49-77 | the builder returns `[datetime] [type] name+badges: message` |
| ChatController.SendReport | src/controllers/chat_controller.rs:34-36 | a failed send adds exactly one standard-error line, `Error sending to Minecraft: ` + the error; a successful one adds nothing |
| ChatController.HandleItem | src/controllers/chat_controller.rs:26-41 | an `Ok` item is printed, then sent as the as-written `tellraw` command, with a failed send only logged; an `Err` item is only logged |
| ChatController.Run | src/controllers/chat_controller.rs:20-45 | the loop handles every item in order and returns `Ok(())` |
| ChatController.LogLines | src/controllers/chat_controller.rs:25-31 | at most one line per item |
| ChatController.Commands | src/controllers/chat_controller.rs:34 | one as-written `tellraw` command per line |
| ChatController.PrintedAppend | src/controllers/chat_controller.rs:31 | printed output works piecewise |
| ChatController.ForwardedAppend | src/controllers/chat_controller.rs:34 | forwarded commands work piecewise |
| ChatController.PrintedPair | src/controllers/chat_controller.rs:31-36 | a send report does not print to standard output or forward |
| ChatController.ItemOutputsLines | src/controllers/chat_controller.rs:27-40 | an `Ok` item prints its line and sends that same line; an `Err` item does neither |
| ChatController.CommandsAppend | src/controllers/chat_controller.rs:34 | commands work piecewise |
| ChatController.RunPrintsEveryMessage | src/controllers/chat_controller.rs:25-31 | the printed lines are the log lines of the `Ok` items, in order |
| ChatController.RunForwardsEveryLine | src/controllers/chat_controller.rs:29-34 | the commands sent are those of the printed lines, one each, in order |
| ChatController.SendFailuresAreIsolated | src/controllers/chat_controller.rs:34-36 | whether sends fail changes neither what is printed nor what is sent |
| ChatController.AllMessagesPrinted | src/controllers/chat_controller.rs:25-31 | with no error items, every item gets a line |

## Left out

- HTTP transport (chat_repository.rs:19-28 and 88-96, chat_service.rs:21-23):
  - the POST is the parameter `post`;
  - `None` stands for a failed request or an undecodable body;
  - the error text "request failed" is this model's own.
- The regular-expression extraction in `get_initial_data` (chat_repository.rs:31-35, 48-62):
  - it needs regex semantics over raw HTML;
  - only the JSON walk for the token is modelled (`InitialContinuation`).
- serde_json text decoding:
  - the model starts from a decoded `Json` value;
  - JSON numbers are integers, since a float is never read as `u64`.
- `parse::<f64>` of the amount is the parameter `parseF64`:
  - it is not modelled, because it is floating point;
  - `CurrencyAmountIsLost` assumes only that it rejects text that cannot start a number.
- ChatRepository.AmountValue: the corrected amount of the amount finding, which the code does not compute; `ParsePaidMessage` uses `AmountValueAsWritten`.
- ChatRepository.DropCurrency: part of the corrected amount only; the code strips nothing but commas.
- ChatRepository.CurrencyAmountIsRead: holds of the corrected amount only; as written, `CurrencyAmountIsLost` holds instead.
- ChatRepository.MarkedAmountIsRead: holds of the corrected amount only; as written, `DollarAmountIsLost` holds instead.
- MinecraftService.TellrawCommand: the corrected half of the `tellraw` finding, which the code does not build; the controller sends `TellrawCommandAsWritten`.
- ChatRepository.Lower: ASCII lower-casing only, where Rust's `to_lowercase` is Unicode-wide. The Japanese keywords have no case.
- DateTime.FormatMillis: total. chrono's `timestamp_millis_opt(..).unwrap()` panics outside its range of about ±262,000 years, and this is not reproduced.
- DateTime.FormatMillisInjective: proved for years 0..9999 only, where `%Y` has exactly four digits.
- `Local::now()` in `format_log_message` is the `datetime` parameter. In `run` it is `clock(k)` for the k-th item.
- tokio's `Mutex`, `async_stream`, `sleep` and `spawn_blocking`:
  - the token cell is a plain field;
  - a sleep is recorded as an event and not waited for.
- ChatService.ChatService.StreamMessages: runs a given number of turns, where the source loops until it breaks. `EndedIsFinal` shows that the turns after a break do nothing.
- RCON (minecraft_service.rs:15-21, 30-31, 40):
  - the connection, authentication, `cmd` and `SocketAddr` parsing are left out;
  - a send's outcome is the parameter `send`.
- MinecraftService.DecodeBody: reads only the escapes `\"` and `\\`, the only ones either escaper produces. Any other escape is read as malformed.
- `eprintln!` of an unsupported item (chat_repository.rs:135): `NormaliseResponse` and `GetChatMessages` return the list of unsupported items, but `ChatService.ChatService.Cycle` discards it, so the model records no such log line.
- The logging side of `stream_messages` (chat_service.rs:58, 77) is recorded in the `Ended` event.
- `src/main.rs` and the Python files are not part of this model.

## Findings

| source | as written | input that shows it | evidently intended | confidence | as-written member | corrected member |
|---|---|---|---|---|---|---|
| src/services/minecraft_service.rs:36 | only `"` is escaped, so a `\` in the log line is copied raw into the JSON string literal | a log line ending in `\`, e.g. `a\`: the command becomes `... "a\" }`, whose text component never closes | escape backslashes as well, so the text component decodes to the line | not executed | MinecraftService.TrailingBackslashBreaksCommand | MinecraftService.DecodeEscapeJson |
| src/repositories/chat_repository.rs:272-274 | only commas are removed before `parse::<f64>`, so a currency mark reaches the parser | `"$1,234.56"` becomes `"$1234.56"`, which the parser rejects, so `amount_value` is `None` | `amount_value` = 1234.56 for `"$1,234.56"`: strip the currency mark as well | not executed | ChatRepository.DollarAmountIsLost | ChatRepository.MarkedAmountIsRead |
