# WhatsApp support relay: the message handler, its in-memory ledger and `/send-message`

This project models the core of `server.js`, a small Node.js service. The
service answers WhatsApp users with a guided conversation. It relays every
conversation to web subscribers over Socket.IO. It also lets an operator send
a message to any phone number over HTTP. The model has four modules:

- `Dialogue` (`dialogue.dfy`) is the conversation as pure functions.
  `Transition` is the `switch` over the stored step, applied to the
  lower-cased body. `RelayedReply` is the choice of the bot message that is
  relayed to subscribers afterwards. Both name their reply by a `Reply`
  value; `Text` spells each reply out character for character.
- `Ledger` (`ledger.dfy`) describes the three maps the handler keeps
  (`userStates`, `chats`, `messageHistory`) and the events it emits, each as
  a function of the messages received so far. Its lemmas are the properties
  of the ledger: chats are set once, history is append-only, each user's
  state depends only on that user's own messages, and the relayed user
  messages are exactly the stored history.
- `Dispatch` (`dispatch.dfy`) is the `/send-message` endpoint as a function:
  the truthiness check, the chat id made of the number's digits and `@c.us`,
  and the order in which the checks answer.
- `Server` (`server.dfy`) is the process state as a class `Relay`. Its
  fields are the readiness flag, the three maps (with the insertion order of
  `chats`) and the log of emitted events. Its methods are the event
  handlers, and they update those fields in place. The invariant `Valid()`
  ties the fields to the `Ledger` functions of the messages received so far.
  So every property proved in `Ledger` holds of the live object.

The model follows the code as written, including where the code departs
from its own messages and comments:

- The body is lower-cased but not trimmed: `" 1"` is not option 1.
- The stored name is the lower-cased body, so "Maria" is greeted as "maria".
- Only the user's message goes into history; bot replies are never stored.
- The bot message relayed to subscribers is not the reply that was sent.
  It is re-derived from the new step and the lower-cased body
  (`server.js:127-144`). `Dialogue.RelayMatchesReplyIff` gives exactly the
  turns where the two agree. Elsewhere they differ:
  - the menu relayed after a name has its option lines indented by 8 spaces
    instead of 12;
  - an invalid option relays the menu again;
  - a keyword choice of option 2 or 3 relays "Opção inválida";
  - after support_description, "1", "2" and "3" relay the support,
    information and agent texts, and any other text relays "Opção inválida".
- No awaited call in the handler is guarded. `msg.getContact()` and every
  `msg.reply(...)` are awaited outside any `try`, so a failure ends the
  handler before the state is stored and before anything is registered,
  appended or emitted. The model covers the runs of the handler that
  complete; the resolved contact is an input.
- Nothing serialises the handling of one user's messages. The model handles
  one message at a time.

`server.js` has CRLF line ends. A JavaScript template literal reads each CRLF
as a single `"\n"`, which the menu text in `Dialogue.MenuBody` reflects.

## Model

| member | source | states |
|---|---|---|
| Dialogue.Menu | server.js:72-75 | the service menu: "Prazer, ", the name, the question and the three option lines, each indented by the given indentation |
| Dialogue.MenuGreetsName | server.js:72-75 | a menu starts with "Prazer, " followed by exactly the name it greets, and is longer than every fixed reply |
| Dialogue.Text | server.js:65-103 | the characters of each reply the handler sends, with the menu's option lines indented by the given indentation |
| Dialogue.TextTellsRepliesApart | server.js:65-103 | no two different replies are spelled the same way, so naming a reply by its `Reply` value loses nothing of the text sent |
| Dialogue.NameText | server.js:130 | a name interpolated into a template literal: the name itself, or "undefined" when none is stored |
| Dialogue.ToLower | server.js:56 | `toLowerCase()` keeps the length and lower-cases each character on its own |
| Dialogue.Contains | server.js:81-87 | `includes`: the word occurs at the start of the text or in the text after its first character |
| Dialogue.ContainsWitness | server.js:81-87 | when `includes` holds, the word is the slice of the text at some position |
| Dialogue.OccursContains | server.js:81-87 | a word that is the slice of the text at some position is found by `includes` |
| Dialogue.ContainsIffOccurs | server.js:81-87 | `Contains` holds exactly when the word is the slice of the text at some position, both directions |
| Dialogue.Transition | server.js:59-105 | the step after the switch is always one of the four named steps; the name changes only at ask_name, where it becomes the text; the reply is the menu exactly when the step was ask_name |
| Dialogue.TextIndependentSteps | server.js:62-104 | one-step facts of the switch: start asks for the name, support_description thanks and an unknown step recovers, each whatever the text; the conversation-level content is in `Dialogue.Replay` and `Ledger.StateIsOwnReplay` |
| Dialogue.AskNameCapturesName | server.js:69-77 | at ask_name the name becomes the lower-cased input and the step ask_service, and the reply contains that name and the option lines 1, 2 and 3 |
| Dialogue.ServiceChoice | server.js:79-93 | at ask_service the first matching test wins ("1"/suporte, then "2"/informações, then "3"/atendente); support goes to support_description with the support text, information and an agent go back to start, all keeping the name; the state stays the same exactly when the reply is the invalid-option notice, which is exactly when no test matches |
| Dialogue.NumericChoices | server.js:81-89 | one-step instances of `Dialogue.ServiceChoice`: the bare digits 1, 2 and 3 choose support, information and an agent |
| Dialogue.RelayedReply | server.js:127-144 | a bot message is relayed exactly when the new step is a named one, and always when it is start |
| Dialogue.RelayedText | server.js:128-143 | the body of the relayed bot message: the re-derived reply's text with the menu lines indented by 8, or none for an unknown step |
| Dialogue.MenusDiffer | server.js:130-133 | the menu relayed to subscribers never equals a menu sent to a user, whatever the two names |
| Dialogue.RelayMatchesReplyIff | server.js:127-144 | the relayed bot text equals the reply sent exactly when the user was at start, or at ask_service and typed "1", "2", "3" or something containing "suporte" |
| Dialogue.Replay | server.js:59-108 | a user's state after any sequence of texts from a fresh state has a named step |
| Dialogue.ReplayNameWasSent | server.js:71 | a stored name is always one of the texts the user sent |
| Dialogue.AskServiceHasName | server.js:129-133 | a user at ask_service has a stored name that the user sent, and the relayed menu greets that name rather than "undefined" |
| Dialogue.SampleConversation | server.js:62-93 | a first-time user who writes "oi", "maria", "9" (invalid, step unchanged) and "1" ends at support_description with the name "maria" |
| Ledger.Payload | server.js:124-143 | the object a "message" event carries: the user's entry, or a bot entry whose body is the reply's text with the menu lines indented by 8; "newChat" carries none |
| Ledger.BotPayloadTellsReply | server.js:127-144 | two relayed bot messages with the same payload relay the same reply |
| Ledger.PayloadTypeIsOrigin | server.js:124-143 | every emitted "message" event has a payload, and its `type` is "bot" exactly for the bot messages |
| Ledger.ChatOf | server.js:111 | the chat record `{ from, name, photo }` built from a message and its resolved contact |
| Ledger.EntryOf | server.js:121-124 | the user entry `{ from, body, type: "user" }` with the raw, not lower-cased, body; stored and relayed alike |
| Ledger.StateOf | server.js:59 | the sender's stored state, or, for a user with none, a fresh state at start with no name |
| Ledger.HistoryOf | server.js:187 | a chat's stored history, or the empty list for an unknown chat |
| Ledger.NewChatEvents | server.js:112-115 | one "newChat" carrying the new record when the sender has no record yet, none otherwise |
| Ledger.DisplayName | server.js:111 | the chat name is the push name unless that is missing or empty, and then the contact name |
| Ledger.Senders | server.js:112-113 | the keys of `chats` in insertion order: a sender is appended when first seen; its properties are in `Ledger.SendersAreSeen` |
| Ledger.Chats | server.js:111-115 | `chats` after the messages so far: a record is added for a new sender and never replaced; its properties are in `Ledger.ChatSetOnce`, `Ledger.FirstSightingWins` and `Ledger.ChatsKeyedBySender` |
| Ledger.ChatList | server.js:183 | `Array.from(chats.values())`: one record per new sender, appended in arrival order; its property is `Ledger.ChatListInOrder` |
| Ledger.States | server.js:59-108 | `userStates` after the messages so far: each message replaces its sender's state by the switch's result; its property is `Ledger.StateIsOwnReplay` |
| Ledger.Histories | server.js:118-121 | `messageHistory` after the messages so far: each message appends its own entry to its sender's list; its properties are `Ledger.HistoryIsOwnMessages` and `Ledger.HistoryGrows` |
| Ledger.EventsFor | server.js:112-144 | the events of one message, in emission order: "newChat" for a new sender, the user message, the re-derived bot message; its properties are `Ledger.EventsForCounts` and `Ledger.PerMessageEvents` |
| Ledger.Events | server.js:112-144 | everything emitted while handling the messages so far, message after message; its properties are `Ledger.NewChatOncePerSender` and `Ledger.RelayedUserMessagesAreHistory` |
| Ledger.StatesSnoc | server.js:59-108 | one-step unfolding of `Ledger.States` for one more message; the content is in `Ledger.StateIsOwnReplay` |
| Ledger.ChatsSnoc | server.js:111-115 | one-step unfolding of `Ledger.Chats` and `Ledger.Senders`; the content is in `Ledger.FirstSightingWins` and `Ledger.ChatSetOnce` |
| Ledger.HistoriesSnoc | server.js:118-121 | one-step unfolding of `Ledger.Histories`; the content is in `Ledger.HistoryIsOwnMessages` |
| Ledger.EventsSnoc | server.js:112-144 | one-step unfolding of `Ledger.Events`, grouped in the order the handler emits; the content is in `Ledger.EventsForCounts` |
| Ledger.SendersAreSeen | server.js:112-113 | the chat order lists each sender exactly once, and the chat registry holds exactly the users who have sent something |
| Ledger.ChatSetOnce | server.js:112-115 | a registered chat record is never changed by later messages |
| Ledger.FirstSightingWins | server.js:111-113 | a chat's record is the one built from its sender's first message |
| Ledger.ChatsKeyedBySender | server.js:111-113 | every chat record is filed under its own sender's id |
| Ledger.ChatListInOrder | server.js:183 | the chat list holds one record per sender, in first-sighting order |
| Ledger.StateIsOwnReplay | server.js:59-108 | a user has a stored state exactly when the user has written, and it is the switch run over that user's own lower-cased texts only |
| Ledger.HistoryIsOwnMessages | server.js:118-121 | a chat's history is one user entry per message its sender sent, with the raw body, in arrival order, and holds no bot entries |
| Ledger.HistoryGrows | server.js:121 | history is append-only: later messages only extend each chat's list |
| Ledger.EventsForCounts | server.js:112-124 | one message emits at most one "newChat" (only for a new sender) and exactly its own user message |
| Ledger.NewChatOncePerSender | server.js:112-115 | "newChat" is emitted exactly once for each sender and never for anyone else |
| Ledger.RelayedUserMessagesAreSent | server.js:124 | the user messages relayed for a chat are exactly the messages its sender sent, in order |
| Ledger.RelayedUserMessagesAreHistory | server.js:121-124 | the user messages relayed live for a chat are exactly the stored history of that chat |
| Ledger.PerMessageEvents | server.js:112-144 | every message emits two events, or three for a new sender |
| Dispatch.Truthy | server.js:153 | JavaScript truthiness of a body field: a missing field and the empty string are falsy, other values by their own truthiness |
| Dispatch.Digits | server.js:157 | `replace(/\D/g, "")` keeps only digits and never lengthens the number |
| Dispatch.DigitsKeepsOnlyDigits | server.js:157 | stripping non-digits leaves a number unchanged exactly when it has only digits |
| Dispatch.DigitsOfConcat | server.js:157 | stripping non-digits works piece by piece |
| Dispatch.ChatId | server.js:157 | the chat id is a run of digits followed by "@c.us" |
| Dispatch.ChatIdIgnoresSeparator | server.js:157 | a non-digit anywhere in the number does not change the chat id |
| Dispatch.SendMessage | server.js:150-176 | a falsy field gives 400 before anything else; a number that is not a string gets no response; then not ready gives 500; then a failed lookup gives 500 with details and an unregistered number 400; a failed send gives 500 with details; 200 exactly when a registered number's send succeeds; the lookup and the send use the digits of the number and `@c.us` |
| Server.Relay.constructor | server.js:29-32 | the process starts with empty maps, no events and the transport not ready |
| Server.Relay.OnReady | server.js:43-46 | "ready" sets the flag and changes nothing else |
| Server.Relay.OnDisconnected | server.js:48-51 | "disconnected" clears the flag and changes nothing else |
| Server.Relay.HandleMessage | server.js:53-145 | after a message the maps and the event log are those of the messages received so far plus this one; the reply is the switch's reply for the sender's stored state and the lower-cased body; the readiness flag is unchanged |
| Server.Relay.AdvanceSession | server.js:59-108 | the sender's state is replaced by the switch's result, and the reply returned |
| Server.Relay.RegisterChat | server.js:111-115 | the chat is registered and "newChat" emitted only for a new sender |
| Server.Relay.AppendUserMessage | server.js:118-124 | the raw body is appended to the sender's history and relayed as a user message |
| Server.Relay.RelayBotMessage | server.js:127-144 | the bot message re-derived from the new state is relayed, completing the message's events |
| Server.Relay.Connect | server.js:179-183 | a new subscriber receives one chat record per sender, in first-sighting order |
| Server.Relay.GetMessages | server.js:186-189 | "getMessages" returns the messages that user sent, as user entries, and `[]` for an unknown chat |
| Server.Relay.PostSendMessage | server.js:150-176 | `/send-message` is answered against the current readiness flag; when not ready nothing is looked up or sent |

## Left out

- The transport (`whatsapp-web.js`), its puppeteer options, the QR code and
  the "authenticated" log (`server.js:15-41`). Only the readiness flag is
  modelled.
- The results of calls into the transport are inputs: the resolved contact,
  the registration lookup and the outcome of `client.sendMessage`. A call
  that is made appears in `Dispatch.Outcome`. `msg.reply` is the reply value
  `HandleMessage` returns, not an entry in the event log.
- The "sendMessage" and "sendFile" socket handlers (`server.js:192-210`).
  They only hand their arguments to the transport and log failures.
- `index.js`, an older stateless variant that is almost all transport
  wiring.
- Concurrency. The handler awaits the transport before it touches the maps,
  so two messages from one user can interleave. The model handles one
  message at a time.
- Dialogue.ToLower: lower-cases ASCII and Latin-1 capitals only. Other
  scripts, and the few characters whose lower case is longer, are not
  modelled.
- Logging (`console.log`, `console.error`), including the logged problem
  description at support_description.
- Handler runs that fail part-way. `msg.getContact()` and every
  `await msg.reply(...)` (`server.js:54`, `server.js:65-103`) sit outside any
  `try`. If one rejects, the handler stops before `userStates.set`, the chat
  registration, the history append and the emits. The model covers only
  messages whose handler completes; a message whose handler fails is treated
  as never received. At ask_name the name has already been written into the
  stored state object (`server.js:71`) when the reply fails; the step stays
  ask_name, so the user's next message overwrites that name.
- The fate of the process after such a failure. The rejected promise is
  never caught: the message emitter ignores the handler's promise, and
  Express 4 ignores the promise of the `/send-message` handler when
  `number.replace` throws for a non-string number. Node's documented default
  since version 15 ends the process on an unhandled rejection, which loses
  all the maps. The model keeps the process alive.
- Dispatch.SendMessage: assumes Express 4, which the source does not pin (no
  package manifest is part of it). For a non-string number the model
  records that no response is sent. Under Express 5 the rejection goes to
  the default error handler, which answers 500, and no unhandled rejection
  occurs; that outcome is not modelled.
- The HTTP server, CORS and Socket.IO wiring, and `client.initialize()`.
