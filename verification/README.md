# Telegram support relay: update-routing model

A Dafny model of the core of a small relay bot, written in Go as one file
(`main.go`). A backend posts support messages over HTTP. The relay shows each
one to a single operator chat on Telegram, with two inline buttons: "Ответить"
(reply) carries the request ID, and "Закрыть" (close) carries the reserved token
`"none"`. Pressing a button sets the relay's only state, the *focus*: the ID of
the sender the operator is answering, or `"none"`. A text message from the
operator chat is then wrapped in a `BOT_RESPONSE` envelope and published to a
RabbitMQ queue for the focused sender.

Modules:

- `Wrappers`: `Option`.
- `TelegramApi`: the part of the bot library's types the relay uses (updates,
  messages, callback queries, outgoing message configuration, inline keyboard,
  library error).
- `Messages`: `SendRequest`, `SendResponse`, `RabbitResponse`, queue
  publications. It also defines the observable effects: chat sends,
  publications and error alerts.
- `Notification`: `formatMessage`, `generateBotRequestMessage` and the HTTP
  handler. It also has a decoder that reads the request back out of a
  notification.
- `Publisher`: the queue sender built by `getRabbitSender`.
- `Router`: `botUpdateProcessor`, as a pure step
  `(update, focus, chatId) -> (focus', reply, handed-over reply, error)`.
- `RouterSpec`: the router's transition table stated independently, on an
  abstract focus state and event kinds, with a refinement lemma.
- `BotLoop`: `handleBot` as a fold of the step over the update stream, and as
  an imperative loop proved equal to it.
- `Startup`: how the chat id is read at start-up, and the loop started with
  it. There is one start-up as written and one with a corrected parse.

Things the model takes as inputs rather than modelling:

- the result of each transport call: the JSON decode error, the publish error
  and the `bot.Send` error;
- the chat id, as a number already read from its digits;
- the queue name.

Three behaviours of the code that the model keeps:

- A request whose JSON fails to decode is still notified. `parseBody` returns
  the zero or partly filled record, and the handler sends a notification for it.
- A refused or empty update still leads to a `bot.Send`, of the zero message
  configuration. The model records that send.
- The request carries only `ID` and `Message`.

## Model

| member | source | states |
|---|---|---|
| Notification.FormatMessage | main.go:196-205 | The text has the fixed template around the ID and the message. Both appear verbatim, at fixed offsets, and the length adds up. |
| Notification.FormatMessageNotInjective | main.go:196-205 | Two different requests can render to the same text: an ID may itself contain the separator. So the text alone does not identify the sender. |
| Notification.GenerateBotRequestMessage | main.go:219-237 | Markdown message to the configured chat. Its keyboard has exactly one row of two buttons: ("Ответить", request ID), then ("Закрыть", "none"). |
| Notification.NotificationRoundTrip | main.go:196-237 | A notification decodes back to its request. The ID comes from the reply button, the message from the text. |
| Notification.HandleRequest | main.go:120-132 | One request leads to exactly one chat send, of its notification, even after a decode error. It publishes nothing. Its alerts are exactly the decode error and then the send error, each with its context line. |
| Publisher.EnvelopeRoundTrip | main.go:136-139 | The envelope is tagged "BOT_RESPONSE" and a consumer filtering on that tag gets back the reply unchanged. |
| Publisher.RabbitSend | main.go:134-157 | Exactly one publication: the tagged envelope of the reply, as plain text, to the configured queue on the default exchange. An alert follows only if publishing failed. |
| Router.Process | main.go:239-279 | The focus changes only on a callback query without a message, and then becomes its data. A reply is handed to the queue sender only for an authorised message while focused, and it is addressed to the focus. The reply is the zero message exactly when an error is returned. |
| Router.UnauthorisedMessageDenied | main.go:245-247 | A message from another chat gets "Permission denied". The focus is unchanged, nothing is published and the reply is the zero value. |
| Router.UnfocusedMessageAnswered | main.go:249-250 | With focus "none", an authorised message gets "Некому писать" to the same chat. Nothing is published and the focus stays "none". |
| Router.FocusedMessagePublished | main.go:251-260 | With a focus id other than "none", an authorised message hands exactly one reply (id, text) to the queue sender. The answer is "Вы ответили пользователю с ID " + id, and the focus is unchanged. |
| Router.SelectionSetsFocus | main.go:262-275 | A callback query sets the focus to its data verbatim, from any chat and any prior focus. The answer is "Вы закрыли активный диалог" exactly when the data is "none", else "Вы открыли диалог с ID " + data. It never publishes. |
| Router.SelectionIdempotent | main.go:262-275 | Repeating the same callback query gives the same focus and the same reply. |
| Router.MessageTakesPrecedence | main.go:242-262 | An update with both a message and a callback query is handled as if it had no callback query. |
| Router.EmptyUpdateRejected | main.go:276-278 | An update with neither gets "Empty message". The focus is unchanged and nothing is published. |
| RouterSpec.Classify | main.go:242-262 | An update is a text message (authorised exactly when its chat is the configured one), a focus selection exactly when it has a callback query and no message, or no event when it has neither. |
| RouterSpec.ProcessRefinesTable | main.go:239-279 | Every step moves the abstract focus state and performs the action of the independent transition table (deny, no one to write to, forward, close, open, reject empty). |
| BotLoop.PassAlerts | main.go:153-176 | The alerts of one pass are exactly one per error that occurred, in order: a failed publish, the router's error, a failed send. Each text is its context, ": ", then the error text. |
| BotLoop.Iteration | main.go:169-177 | One loop pass sends exactly one chat message and leaves the focus where the router put it. |
| BotLoop.PassEffectsShape | main.go:153-176 | Given the router's result, one pass sends the router's reply and nothing else. It publishes exactly when the router hands over a reply, and that publication carries the reply, tagged, to the queue. |
| BotLoop.RunFocusWithoutSelection | main.go:167-177 | Without any callback query the focus stays at its starting value. |
| BotLoop.RunFocusIsLastSelection | main.go:167-177 | After any run, the focus is the data of the last callback query not shadowed by a message. |
| BotLoop.FinalFocus | main.go:167-177 | Starting from "none", the focus after any sequence of updates is the last callback's data, or "none" if there was none. |
| BotLoop.FocusIsNoneOrSelected | main.go:167-177 | Starting from "none", the focus is always "none" or a token some callback query carried. |
| BotLoop.RunSendsOncePerUpdate | main.go:169-177 | Every update leads to exactly one chat send. |
| BotLoop.PublicationsAreTaggedReplies | main.go:134-177 | Every publication of any run goes to the configured queue, is tagged "BOT_RESPONSE" and is addressed to an id other than "none". |
| BotLoop.UnfocusedRunNeverPublishes | main.go:167-177 | From "none" and without callback queries, nothing is ever published. Every reply is "Некому писать" or the zero message of an error. |
| BotLoop.OneChatRun | main.go:169-177 | For any stream of messages from one chat: if it is not the configured chat, nothing is ever published and every reply is the zero message of a refusal. If it is the configured chat, no message is refused. |
| BotLoop.HandleBot | main.go:159-178 | The imperative loop computes the fold. It sends once per update and ends with the focus of the last callback query, or "none". |
| Startup.ParseIntIgnoringError | main.go:36 | The parse with its error ignored: 0 for a malformed string, the bound on its side for an out-of-range value, the value itself otherwise. |
| Startup.WideChatIdDeniedAsWritten | main.go:36 | As written, a chat id outside the 32-bit range is clamped when configured, so every message from that chat is refused. |
| Startup.SupergroupDeniedAsWritten | main.go:36 | The supergroup id -1001234567890 is configured as -2147483648, and a message from that chat gets "Permission denied". |
| Startup.ConfiguredChatAccepted | main.go:36 | With a 64-bit parse, any chat id in the library's range is configured unchanged, and that chat's messages are accepted. |
| Startup.StartRelay | main.go:33-47 | The loop as the source starts it, with the 32-bit parse. It sends once per update. When the configured id does not fit 32 bits, a stream of messages from that chat never publishes, and every reply is a refusal. |
| Startup.StartRelayCorrected | main.go:33-47 | The loop started with the 64-bit parse. It sends once per update, and for any id the library can carry, no message from the configured chat is refused. |

## Left out

- HTTP listener and handler registration (main.go:38-40): network I/O in a separate goroutine. Only the handler body is modelled.
- JSON decoding in `parseBody` and JSON encoding in `json.Marshal` (main.go:141, 207-217): library encoders. The decoder's result is an input, and the envelope is kept as a datatype, not as bytes.
- AMQP dial, channel and publish (main.go:87-106, 143-151): foreign transport calls. A publish is a recorded `Published` effect, and its failure is an input.
- Telegram bot creation, the SOCKS proxy client, the update channel and `bot.Send` (main.go:108-118, 159-165, 180-194): I/O. The loop is a fold over a given sequence of updates, and each send's failure is an input.
- SMTP alerting and logging (main.go:49-85): an alert is a recorded `Alerted` effect carrying its text. `log.Printf`/`fmt.Printf` lines and the fatal exit of `failOnError` at start-up are not modelled.
- Reading environment variables and scanning decimal digits (main.go:36, 145): the chat id arrives as a `Decimal`, either malformed or an integer, and the queue name is a parameter.
- A callback query without its originating message (inline-mode buttons): the Go code would dereference nil and crash, at main.go:269 when the data is "none" and at main.go:271 otherwise. The relay only attaches buttons to its own messages, so the model's callback query always carries its message.
- Concurrency between the HTTP handler and the update loop: they share only the send channel, and the model treats them as separate sequences of effects.

## Findings

| source | as written | input that shows it | evidently intended | confidence | as-written member | corrected member |
|---|---|---|---|---|---|---|
| main.go:36 | `strconv.ParseInt(..., 10, 32)` with the error ignored, so chat ids outside the 32-bit range are clamped to the nearest bound | `BOT_CHAT_ID=-1001234567890` (a supergroup; Telegram ids may need more than 32 bits) becomes -2147483648, and every operator message then gets "Permission denied" (main.go:245) | parse at 64 bits, the width of the library's chat ids | medium, not executed | Startup.StartRelay | Startup.StartRelayCorrected |
