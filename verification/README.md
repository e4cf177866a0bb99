# Telegram bot outbound queue — a Dafny model

This project models the core of a Telegram bot library written in Go. The core is a
retry-aware outbound message queue. Producers serialize a message envelope and push
it to a FIFO store. A dispatch loop pops entries and handles each one:

- it drops an entry that is empty or does not decode;
- it pushes an entry that is not yet due back to the tail, byte for byte;
- it hands a due entry to a worker pool.

A worker makes one delivery attempt through the Bot API. After a failure it does one
of two things:

- it drops the envelope when three retries have already been made;
- otherwise it schedules a retry and pushes the re-serialized envelope. The delay is
  `(count+1)^2 * interval` seconds for counts 0 and 1, and a fixed 120 seconds for
  count 2.

Around the queue the project also models:

- the in-process store (a list plus a closed flag);
- the slash-command parser and its registry of middleware and handlers;
- how the bot client builds request parameters and reads the API's answer;
- bot registration and the construction of envelopes;
- the error table.

Modules, one per source file:

| module | source file | form |
|---|---|---|
| `Errors` | error.go | datatype and pure functions |
| `MessageStore` | message_store.go | class `MessageStore` over `seq<string>` + a closed flag; pure step functions and trace lemmas |
| `Command` | command.go | pure parser; class `CommandRegistry` for the global `commands` map and `middleware` slice |
| `BotClient` | bot_client.go | pure request building and answer checking; methods for the two entry points that run handlers |
| `MessageQueue` | MessageQueue.go | envelope, abstract JSON codec, retry policy; class `MessageQueue` with one loop iteration (`DispatchStep`) and one worker invocation (`Work`) |
| `Config` | config.go | class `Registry` for the global `botCache`; envelope construction and push |
| `Wrappers` | — | the `Option` type used for Go's nil results |

How the model stands in for things it cannot express:

- **Time.** Time is an integer number of seconds. Each operation that reads the clock
  takes `now` as a parameter.
- **JSON.** `encoding/json` is the abstract pair `Codec(encode, decode)`. Its ghost
  predicate `Lawful()` states the laws the loop relies on:
  - `CallbackRaw` is not serialized (`json:"-"`) and decoding never fills it in;
  - decoding an encoding gives back every other field.

  Encoding may fail: a time outside the years 0..9999 has no JSON form.
- **HTTP.** `doRequest` is a function parameter (`Transport`). It maps the request URL
  and parameter map to how the call ended: the request failed, the body did not parse,
  or the body carried an `ok` flag.
- **Local parameter maps.** `sendMessage`, `replyMessage` and `sendPhoto` fill a local
  map before the HTTP call. Nothing else sees that map, so functional map updates
  model it.
- **Blocking.** A pop on an empty, open store answers `WouldBlock`. A blocked pop that
  wakes up checks the closed flag first and the list second (message_store.go:59-68).
  A fresh `BLPop` checks in the same order, so resuming a blocked pop is another call
  to `BLPop`.

Two behaviours of the retry path worth knowing:

- **Unsupported kinds are retried.** `sendMessage` returns `MessageTypeError` for a
  kind other than text or photo (MessageQueue.go:116-117), and the worker retries that
  failure like any other (MessageQueue.go:58-71). Such an envelope is attempted four
  times before it is dropped. `UnsupportedKindAlwaysFails` records this.
- **Re-encoding failure does not advance the retry state.** When re-encoding fails,
  `putRetryCache` pushes the string as it was popped (MessageQueue.go:125-128). That
  string keeps the retry count and next time from before the failed attempt, so the
  failure is not counted and the entry is due again at once. The count bound holds
  only while encoding succeeds. `RetryPayloadDecodes` states both outcomes.

The repository snapshot holds several iterations of the same code.

- Envelope: `MessageQueue.go`'s `telegramMessage` plus the optional reply target
  `MessageId` that config.go:67 sets.
- Text delivery: `sendMessage(chatId, messageId, message)` from bot_client.go:83. The
  call at MessageQueue.go:113 passes only two arguments.
- Producers: `PushTextMessage`/`PushPhotoMessage` at MessageQueue.go:132-157 build the
  same envelopes as the config.go versions, minus the reply target (zero there). The
  model has one pair, the config.go one.

## Model

| member | source | states |
|---|---|---|
| `Errors.Error.ErrorCode` | error.go:32-34 | `ErrorCode()` answers the error's code |
| `Errors.Error.Text` | error.go:35-37 | `Error()` answers the error's message (renamed: a member cannot share the datatype's name) |
| `Errors.NewError` | error.go:39-51 | the code is kept; an explicit message overrides the table; without one the message is the table entry for the code |
| `Errors.ErrorMessage` | error.go:15-25 | the table gives a non-empty message exactly for the nine declared codes, and the empty string for any other code |
| `MessageStore.MessageStore.constructor` | message_store.go:18-24 | a new store is open and empty |
| `MessageStore.MessageStore.RPush` | message_store.go:27-41 | on a closed store: the closed error, contents unchanged; on an open store: nil, the value appended at the tail, length + 1 |
| `MessageStore.MessageStore.BLPop` | message_store.go:44-88 | closed: the closed error even when elements remain; open and non-empty: the head is returned and removed; open and empty: would block, nothing changes |
| `MessageStore.MessageStore.Close` | message_store.go:91-101 | always nil; the store is closed afterwards (also when it already was) and keeps its elements |
| `MessageStore.MessageStore.Size` | message_store.go:104-108 | the number of stored elements; nothing changes |
| `MessageStore.FifoOrder` | message_store.go:27-88 | for any interleaving of pushes and pops on an open store: the values the pops deliver, then what remains, equal the initial contents followed by the pushed values in push order |
| `MessageStore.PushThenPopInOrder` | message_store.go:38-84 | pushing v1..vn on a new store and popping n times yields v1..vn in order and empties the store |
| `MessageStore.ClosedIsTerminal` | message_store.go:31-49 | once closed, every later push is refused, every later pop answers the closed error, and the contents never change |
| `MessageStore.WaitingPopSeesClose` | message_store.go:59-68 | a pop that would block on an empty open store answers the closed error once the store is closed |
| `Command.ToLower` | command.go:78 | same length; no ASCII capital remains; ASCII capitals map to their lower case and every other character is kept |
| `Command.IsSpace` | command.go:71 | `unicode.IsSpace`: space, tab, newline and carriage return are white space; no printable ASCII character is |
| `Command.Word` | command.go:71 | the longest prefix without white space: a prefix of the text, free of white space, followed by white space or the end of the text |
| `Command.Fields` | command.go:71 | `strings.Fields`: every field is non-empty and holds no white space |
| `Command.FieldsSplit` | command.go:71 | fields are maximal runs: after leading white space, a non-space run ended by white space or the end of the text is the first field, and the rest of the text gives the others |
| `Command.FieldsCoverText` | command.go:71 | the fields, concatenated, are exactly the non-space characters of the text in order |
| `Command.NoFieldsIffAllSpace` | command.go:71-75 | the split has no fields exactly when the text is all white space |
| `Command.ParseCommand` | command.go:62-88 | nil exactly when the text lacks the prefix or only white space follows it; otherwise the name is the lower-cased first field after one prefix, the arguments are the other fields in order (empty for one field), `RawText` is the whole text and `Message` the given message |
| `Command.Dispatch` | command.go:15-29 | an error answer comes from some middleware or from the registered handler; a nil answer means every middleware answered nil |
| `Command.DispatchFirstError` | command.go:17-21 | the first middleware that fails decides the answer, before the command handler is consulted |
| `Command.DispatchAllPass` | command.go:24-28 | when no middleware fails: the registered handler's answer, or nil for an unregistered name |
| `Command.CommandRegistry.constructor` | command.go:34-37 | no commands and no middleware at start |
| `Command.CommandRegistry.RegisterCommandFunc` | command.go:40-42 | binds the name, replacing an earlier binding; other names and the middleware are unchanged |
| `Command.CommandRegistry.Use` | command.go:45-47 | appends the new middleware after the existing ones, which keep their order; commands unchanged |
| `Command.CommandRegistry.Handler` | command.go:15-29 | answers `Dispatch` of the current middleware and commands: middleware in order, first error wins, then the handler or nil |
| `BotClient.CheckResponse` | bot_client.go:94-110 | nil exactly for a parsed answer with ok true; a request error is passed on; an unparsable body gives `ParseResponseError`; ok false gives `TelegramApiError` |
| `BotClient.NewBotClient` | bot_client.go:66-80 | the client has the token, base URL `https://api.telegram.org/bot<token>` and prefix "/"; without a webhook it always exists; with one it exists exactly when `setWebhook` answers ok |
| `BotClient.MessageParams` | bot_client.go:85-93 | `chat_id` and `text` always; `reply_parameters` with the id exactly when the id is positive; no other key |
| `BotClient.ReplyParams` | bot_client.go:116-122 | `chat_id`, `text` and `reply_parameters` with the given id, always |
| `BotClient.PhotoParams` | bot_client.go:144-151 | `chat_id` and `photo` always; `caption` exactly when it is non-empty; no other key |
| `BotClient.SendAndReplyAgree` | bot_client.go:83-122 | for a positive id `sendMessage` and `replyMessage` send the same parameters; otherwise `sendMessage` sends the reply parameters without the reply target |
| `BotClient.Endpoint` | bot_client.go:443 | the request URL is the base URL, then "/", then the API method name |
| `BotClient.SendMessage` | bot_client.go:83-111 | succeeds exactly when the POST of the message parameters to `sendMessage` is answered with ok |
| `BotClient.ReplyMessage` | bot_client.go:114-139 | succeeds exactly when the POST of the reply parameters to `sendMessage` is answered with ok |
| `BotClient.SendPhoto` | bot_client.go:142-168 | succeeds exactly when the POST of the photo parameters to `sendPhoto` is answered with ok |
| `BotClient.GetFileURL` | bot_client.go:252-254 | the URL is `https://api.telegram.org/file/bot` + token + "/" + file path |
| `BotClient.FileURLInjective` | bot_client.go:252-254 | for tokens without '/', the URL determines both the token and the file path |
| `BotClient.CommandText` | bot_client.go:337-340 | the text when it is non-empty, the caption otherwise |
| `BotClient.ProcessUpdate` | bot_client.go:311-328 | nil without parsing when there is no message or its text is empty; `CommandNotFoundError` when parsing yields nothing; otherwise the handler chain's answer |
| `BotClient.ProcessMessage` | bot_client.go:331-349 | nil when there is neither text nor a photo; the caption is parsed when the text is empty, the text otherwise; `CommandNotFoundError` when parsing yields nothing; otherwise the handler chain's answer |
| `MessageQueue.RetryPolicy` | MessageQueue.go:62-69 | the envelope is dropped exactly when the count before the increment is at least 3 |
| `MessageQueue.RetryDelays` | MessageQueue.go:62-69 | count 0 waits one interval, count 1 four intervals, count 2 a fixed 120 s whatever the interval, count ≥ 3 is dropped; with interval 10: 10 s and 40 s |
| `MessageQueue.Rescheduled` | MessageQueue.go:62-70 | dropped exactly at count ≥ 3; otherwise only the count (+1, never above 3) and the next time change; next time is now + 120 at count 2 and now + (count+1)²·interval below it; with a non-negative count and positive interval the next time lies after now |
| `MessageQueue.Deliver` | MessageQueue.go:104-119 | no default bot: `TelegramBotError`; a kind other than text or photo: `MessageTypeError`; success exactly when the matching `sendMessage` (with the reply target) or `sendPhoto` request is answered with ok |
| `MessageQueue.MessageQueue.constructor` | MessageQueue.go:42-45 | the queue drains the given store with a pool of 10 workers |
| `MessageQueue.QueueSingleton.constructor` | MessageQueue.go:18-21 | no queue exists before the first `NewMessageQueue` |
| `MessageQueue.QueueSingleton.NewMessageQueue` | MessageQueue.go:40-49 | the first call creates the queue on the given store with a pool of 10; every later call returns that same queue and ignores its arguments |
| `MessageQueue.MessageQueue.DispatchStep` | MessageQueue.go:77-100 | closed store: pop error, nothing changes; empty store: blocks; empty string or undecodable entry: dropped, nothing pushed; not due (now not strictly after next time): the identical raw string goes back to the tail and the length is unchanged; due: handed off with `CallbackRaw` = the popped string and `RetryInterval` = 10 |
| `MessageQueue.MessageQueue.Work` | MessageQueue.go:55-72 | a successful send pushes nothing; a failure at count ≥ 3 pushes nothing; any other failure pushes exactly one entry (the re-encoded rescheduled envelope, or its raw string when encoding fails), so an open store grows by one |
| `MessageQueue.BackoffScheduleLength` | MessageQueue.go:55-72 | an envelope whose every attempt fails is retried exactly 3 − count more times before it is dropped |
| `MessageQueue.FreshEnvelopeSchedule` | MessageQueue.go:62-69 | from count 0 the retry delays are interval, 4·interval, 120 — with the default interval 10, 40, 120 s — so at most four attempts are made |
| `MessageQueue.AfterFailuresTracksSchedule` | MessageQueue.go:62-71 | after k failed attempts the envelope still exists exactly when count + k ≤ 3; its count is count + k, its other fields unchanged, and its next time is the last failure time plus the k-th scheduled delay |
| `MessageQueue.RetryPayload` | MessageQueue.go:121-130 | with a retry, the pushed entry decodes (under a lawful codec) to the rescheduled envelope; when encoding fails it is the raw string as popped |
| `MessageQueue.IsReady` | MessageQueue.go:93 | on the whole-second clock, due exactly when at least one second has passed since its next time |
| `MessageQueue.RetryPayloadDecodes` | MessageQueue.go:121-130 | the entry a retry pushes decodes to the rescheduled envelope, or, when re-encoding failed, to the envelope as originally popped |
| `MessageQueue.NotDueAtItsOwnTime` | MessageQueue.go:93-97 | an envelope whose next time is `now` is not due at `now` and is due at every later instant |
| `MessageQueue.UnsupportedKindAlwaysFails` | MessageQueue.go:111-118 | delivery of a kind other than text or photo always fails, so such an envelope is retried until dropped |
| `Config.InvalidConfigError` | config.go:28-30 | the refusal carries code 10400 and the message "Invalid bot config" |
| `Config.TextEnvelope` | config.go:65-73 | type "text", retry count 0, retry interval 10, next time now, and the given chat, reply id and text |
| `Config.PhotoEnvelope` | config.go:79-88 | type "photo", retry count 0, retry interval 10, next time now, and the given chat, reply id, image URL and caption |
| `Config.Serialized` | config.go:74-75 | under a lawful codec the string decodes back to the envelope; an envelope that cannot be encoded gives the empty string, as `bytes, _ :=` does (also at config.go:88) |
| `Config.PushMessage` | config.go:56-58 | the given string is pushed to the bot's store unchanged |
| `Config.Registry.constructor` | config.go:11 | the registry starts empty |
| `Config.Registry.RegisterBot` | config.go:25-43 | an empty token or a missing store gives `InvalidConfig` with the registry unchanged; otherwise the alias is bound to the new bot (pool 10, the given store), replacing any earlier one, other aliases untouched; success is reported even when the webhook could not be set |
| `Config.Registry.NewBotUsing` | config.go:49-51 | the bot registered under the alias, or nil when there is none |
| `Config.Registry.NewBot` | config.go:45-47 | the lookup of alias "default" |
| `Config.Registry.PushTextMessage` | config.go:64-76 | exactly one push of the serialized text envelope to the default bot's store |
| `Config.Registry.PushPhotoMessage` | config.go:78-91 | exactly one push of the serialized photo envelope to the default bot's store |
| `Config.PushedEnvelopeReadsBack` | config.go:64-91 | a pushed envelope decodes back to itself, with no retries made, and is not due at the instant it was pushed |

## Left out

- Concurrency. The worker pool (`ants`, 10 pre-allocated slots, blocking submission) is
  not modelled; a hand-off is followed by a separate `Work` call. Also left out: the
  `sync.Once` start of the loop goroutine, the mutex, RW-lock and condition variable of
  the store, and the sleeps with their random jitter.
- The infinite loop in `Start` is one iteration, `DispatchStep`. Repeating it forever
  is not modelled.
- JSON encoding itself. The codec is abstract, constrained only by `Codec.Lawful`.
- HTTP I/O. `doRequest` is a parameter. Also left out: `getFile`, `getUpdates`,
  `forwardMessage`, `copyMessage`, `sendMediaGroup`, `deleteWebhook` and
  `getWebhookInfo`. The panic of `result["ok"].(bool)` on an answer without a boolean
  `ok` is not modelled either.
- `Command.ToLower`: does not model Unicode case mapping beyond ASCII, because `strings.ToLower`'s Unicode tables are not part of this model.
- Middleware and handlers are pure functions from a command to an error. Their side
  effects, such as editing the command, are not modelled. So "the handler is not run
  after a middleware error" shows only as the answer the chain gives.
- Integer width. Chat ids, counts and times are unbounded integers. The 64-bit
  overflow of `(count+1)²·interval·time.Second` (MessageQueue.go:68) is not modelled.
  It happens once `(count+1)²·interval` exceeds about 9.2·10⁹: at count 0 for an
  interval above about 9.2·10⁹, at count 1 above about 2.3·10⁹, and, with the stamped
  interval 10, for a decoded count below about −30 000.
- Sub-second time. Go compares `time.Time` to the nanosecond (MessageQueue.go:93), and
  `NextTime` carries the nanoseconds of `time.Now()`. The model's clock counts whole
  seconds, so it defers an envelope popped within the second of its `NextTime`, which
  the source would already send.
- `Config.Registry.PushTextMessage`, `Config.Registry.PushPhotoMessage`: require a bot registered as "default", because the source dereferences the nil bot otherwise and panics.
- `Config.Registry.RegisterBot`: follows the evident intent, not the code as written.
  `bot := &telegramBot{}` (config.go:26) leaves the embedded `*messageQueue` nil, so
  the assignments to `bot.client`, `bot.store` and `bot.size` (config.go:32, 35-36)
  dereference nil and panic for every config that passes validation. The snapshot does
  not define `messageQueue` or its `start`, so the model registers the bot with its
  client, store and pool size and reports success.
- `telegramBot.ProcessMessage` and the package-level `ProcessMessage`
  (config.go:53-62) only delegate to the client's `processMessage`, which
  `BotClient.ProcessMessage` models.
- The Redis store, the webhook HTTP handler, the store factory, logging and the older
  Redis-bound copy of the loop (SendMessageQueue.go) are not part of this model. That
  copy's retry rule is the same as the one modelled.
- A client that is nil because setting the webhook failed would panic in `sendMessage`.
  `Deliver` takes the default bot's client as an `Option` and treats only a missing
  bot.
