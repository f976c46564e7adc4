# ollama-telegram bot core, modelled in Dafny

This project models the logic of `bot/run.py`, a Telegram bot that relays
chat messages to a locally hosted Ollama model and streams its answer back.
It covers four pieces:

- **The session store** (`ACTIVE_CHATS`). Each user id maps to a session
  holding the model chosen when the session was created, the list of turns,
  and the streaming flag. The model covers the upsert-append of a user turn,
  the append of the assistant's reply, `/reset` and `/history`.
- **The streaming aggregator** (`ollama_request` with `handle_response`).
  The backend's stream is a finite sequence of fragments. Each fragment has
  an optional `message` with an optional `content`, and a `done` flag. After
  the last fragment the stream either ends or raises.
- **The mention gate and the group-thread prompt.** This covers
  `is_mentioned_in_group_or_supergroup`, `collect_message_thread` and
  `format_thread_for_prompt`.
- **The model picker helpers.** These are the family icons on each model's
  button and reading the model name back from the callback data.

Files, one module each:

- `wrappers.dfy`: `Option`.
- `text.dfy`: Python's `str.strip()`, `startswith`, `in` and `find`, plus a
  `Join` for the `out += render(x)` loops.
- `thread.dfy`: messages, the gate, thread collection and formatting.
- `stream.dfy`: fragments, the first-trigger reference `Outcome`, and the
  request loop `ConsumeStream`.
- `sessions.dfy`: turns, sessions, store updates and `/history`.
- `models.dfy`: icons and callback data.
- `run.dfy`: class `Bot`. Its fields are the process-wide `persona`, the
  `modelName` and `activeChats`. Its handlers are methods, each specified by
  a pure function:
  - `HandleMessage` by `RouteMessage` and `Request`;
  - `OllamaRequest` by `Request`;
  - `AddPromptToActiveChats` by `UpsertAppend`;
  - `CommitAssistant` by `AppendAssistant`;
  - `CommandReset` by `Reset`;
  - `CommandHistory` by `History`;
  - `ModelCallback` by `CallbackData` and `ParseCallback`.

The async lock is treated as making each locked block atomic. Every store
update is therefore one step.

How replies and private chats are handled:

- A sentence end in a chunk only makes the loop call `handle_response`.
  That function sends nothing unless the fragment is `done`
  (bot/run.py:249-262, 294). So each request sends at most one reply: the
  stripped text accumulated up to the first `done` fragment that has a
  message and a non-blank accumulator. `Stream.SingleReplyExample` streams
  "Hi", " there." and " More" (with `done` on the last fragment) and gets
  one reply, "Hi there. More".
- The mention gate is false for private chats. `handle_message` skips the
  gate for them instead (bot/run.py:164-172, 180-181). `RouteMessage`
  states both facts.
- An allowed user's private reply to a message without text (a photo, a
  sticker) makes the persona check at bot/run.py:166 raise, since it looks
  for a substring in `None`. The handler then sends nothing.
  `RouteMessage` gives this case the `Fault` route.

## Model

| member | source | states |
|---|---|---|
| `Text.Strip` | bot/run.py:250 | the stripped text is empty or starts and ends with a non-whitespace character |
| `Text.StripCutsOnlySpace` | bot/run.py:250 | stripping keeps one contiguous slice and cuts off only whitespace |
| `Text.StripIdempotent` | bot/run.py:250 | stripping an already stripped text changes nothing |
| `Text.StripEmptyIff` | bot/run.py:250-252 | the stripped accumulator is empty exactly when every character is whitespace |
| `Text.IndexOf` | bot/run.py:141 | returns the first occurrence of the separator, or none exactly when there is no occurrence |
| `Thread.IsMentionedInGroupOrSupergroup` | bot/run.py:179-193 | false outside group and supergroup chats; otherwise true exactly when the text or caption begins with the handle, or the message replies to the bot |
| `Thread.GateExamples` | bot/run.py:179-193 | `@Bot hello` passes, `hello @Bot` does not (prefix only), a reply to the bot passes, a private chat does not |
| `Thread.ThreadShape` | bot/run.py:195-204 | a chain of k replies gives k + 1 messages: the root first, the trigger last, each message right after the one it replies to |
| `Thread.CollectMessageThread` | bot/run.py:195-204 | the iterative walk returns exactly that oldest-first thread |
| `Thread.SenderNameSpec` | bot/run.py:209 | the sender is "Bot" exactly when the author is the bot, otherwise "User" |
| `Thread.DisplayContentSpec` | bot/run.py:210 | the content is the text, else the caption, else "[No text content]"; an empty string counts as missing |
| `Thread.BlocksAppend` | bot/run.py:208-211 | rendering a thread distributes over concatenation |
| `Thread.ThreadPromptLayout` | bot/run.py:206-214 | each message's paragraph comes after the paragraphs of earlier messages and before those of later ones |
| `Thread.FormatThreadForPrompt` | bot/run.py:206-214 | the loop builds the header, one "Sender: content" paragraph per message, then "History:" |
| `Stream.FirstFireFrom` | bot/run.py:287-296 | finds the first fragment that has a message, is `done` and has a non-blank accumulator; none means no fragment qualifies |
| `Stream.OutcomeSpec` | bot/run.py:249-262 | a reply happens exactly when some fragment qualifies; the reply text is non-empty and stripped; an error is reported exactly when the backend raises and no fragment qualified |
| `Stream.HandleResponse` | bot/run.py:249-262 | sends exactly when the fragment is `done` and the stripped text is non-empty, and it sends the stripped text; a blank accumulator does nothing |
| `Stream.ConsumeStream` | bot/run.py:272-296 | the loop (skip, accumulate, check for sentence ends or `done`, break on send) ends as `Outcome` says |
| `Stream.LaterFragmentsIgnored` | bot/run.py:294-296 | after a reply, later fragments or a later backend error change nothing |
| `Stream.SkippedFragmentIgnored` | bot/run.py:288-290 | a fragment without a message, even one marked `done`, changes nothing wherever it is inserted |
| `Stream.AccumulatedAppend` | bot/run.py:291-292 | the accumulator of a concatenated stream is the concatenation of the accumulators |
| `Stream.SingleReplyExample` | bot/run.py:287-296 | "Hi", " there.", " More"(done) gives one reply, "Hi there. More" |
| `Stream.EmptyDoneExample` | bot/run.py:250-252 | a first and only `done` fragment with empty content sends nothing |
| `Sessions.NewUserTurn` | bot/run.py:231-235 | the user turn holds the prompt; its images are `[image]` when the image is non-empty and `[]` otherwise |
| `Sessions.UpsertAppend` | bot/run.py:225-246 | an absent user gets a session with the model, streaming on and just this turn; an existing user's turns grow by this turn at the end with model and flag kept; other users are unchanged |
| `Sessions.AppendAssistant` | bot/run.py:256-260 | the assistant turn is appended only when the session still exists; nothing else changes |
| `Sessions.Reset` | bot/run.py:68-70 | the user has no session afterwards; every other session is unchanged |
| `Sessions.AppendsInOrder` | bot/run.py:225-246 | after any number of appends the session holds the earlier turns followed by the new ones in order |
| `Sessions.ResetStartsAfresh` | bot/run.py:68-70 | after a reset the next turn starts a fresh session with only that turn |
| `Sessions.HistoryTextAppend` | bot/run.py:82-84 | appending turns appends their "*Role*: content" lines and keeps the earlier lines |
| `Sessions.RenderHistory` | bot/run.py:82-84 | the loop renders one "*Role*: content" line per turn, in order |
| `Sessions.History` | bot/run.py:77-94 | silent for users outside the allow list; otherwise the sender's history, or the no-history notice; it never fails |
| `Sessions.HistoryAsWritten` | bot/run.py:77-94 | the handler as written: silent for users outside the allow list; the notice when the sender has no session; otherwise the history stored under the chat's id, or a crash when the chat's id keys no session |
| `Sessions.HistoryAsWrittenInPrivate` | bot/run.py:79-81 | in a private chat (chat id = sender id) the handler as written behaves as intended |
| `Sessions.HistoryAsWrittenFailsInGroup` | bot/run.py:80-81 | in a group, the handler as written fails for a user who has a session |
| `Models.JoinIcons` | bot/run.py:121-128 | fails exactly when some family has no icon; otherwise holds one icon per family, in order |
| `Models.FamilyIcons` | bot/run.py:120-128 | no families gives ""; any unknown family gives "✨"; otherwise one icon per family, in order |
| `Models.ButtonText` | bot/run.py:120-131 | the label is the name, a space, then exactly `FamilyIcons` of the model's families; those icons hold no space, so the name is what precedes the label's last space |
| `Models.CallbackData` | bot/run.py:131 | the callback data starts with "model_" |
| `Models.ParseCallback` | bot/run.py:141 | gives back the name whose callback data was parsed |
| `Models.CallbackRoundTrip` | bot/run.py:131 | every model name survives the round trip through its button |
| `Models.ParseCallbackAsWritten` | bot/run.py:141 | `split("model_")[1]` as written: a prefix of the text after "model_" that holds no "model_", ending at the end of the data or where the next "model_" begins |
| `Models.CallbackAsWrittenRoundTrip` | bot/run.py:141 | the parse as written gives back the name exactly when the name does not contain "model_" |
| `Models.CallbackAsWrittenTruncates` | bot/run.py:141 | "my_model_v2" is selected as "my_" |
| `Run.Request` | bot/run.py:269-304 | for the way the stream ended: at most one message is sent; the user turn is always written; a reply is sent and committed after it; a failure sends only the notice and keeps the turn; otherwise nothing is sent; other users are unchanged |
| `Run.PromptPersists` | bot/run.py:276-282 | the user's prompt follows the earlier turns in every outcome, failure included |
| `Run.FailureKeepsPrompt` | bot/run.py:298-304 | a backend error before any reply sends exactly "Something went wrong." and leaves only the prompt added |
| `Run.PromptText` | bot/run.py:276-280 | the prompt handed in when there is one; otherwise the text when it is non-empty; otherwise the caption, printed as "None" when missing |
| `Run.RouteMessage` | bot/run.py:159-177 | a private message from an allowed user replying to a message without text faults (the substring test raises); otherwise private chats reach the backend without a prompt override, unless an allowed user answers the persona request, which edits the persona; group messages reach it with their thread prompt exactly when they pass the gate |
| `Run.Bot.constructor` | bot/run.py:17 | the bot starts with the default persona, the initial model and no sessions |
| `Run.Bot.AddPromptToActiveChats` | bot/run.py:225-246 | the store becomes `UpsertAppend` of the user turn |
| `Run.Bot.CommitAssistant` | bot/run.py:256-260 | the store becomes `AppendAssistant` of the reply |
| `Run.Bot.OllamaRequest` | bot/run.py:269-304 | store and sent messages are those of `Request` for the persona prompt `persona + "\nUser: " + prompt` and the stream's `Outcome` |
| `Run.Bot.HandleMessage` | bot/run.py:157-177 | acts on `RouteMessage`: a persona edit replaces the persona and confirms it; a request behaves as `Request`; otherwise nothing changes |
| `Run.Bot.CommandReset` | bot/run.py:65-75 | an allowed user with a session loses it and gets "Chat has been reset"; otherwise nothing changes and nothing is sent |
| `Run.Bot.CommandHistory` | bot/run.py:77-94 | replies as the corrected `History` does for the sender (the session is read under the sender's id) |
| `Run.Bot.ModelCallback` | bot/run.py:138-142 | with the corrected parse, the new model name is exactly the one the button was made for |

## Findings

| source | as written | input that shows it | evidently intended | confidence | as-written member | corrected member |
|---|---|---|---|---|---|---|
| bot/run.py:141 | `query.data.split("model_")[1]` stops at a second "model_" in the data | a model named "my_model_v2" has callback data "model_my_model_v2" and is selected as "my_" | the whole text after the "model_" prefix | not executed | `Models.CallbackAsWrittenTruncates` | `Models.CallbackRoundTrip` |
| bot/run.py:80-81 | `/history` checks for a session under `from_user.id` but reads the one under `chat.id` | in a group with id -100, user 42 (allowed, with a session) sends `/history`: `None["messages"]` raises and nothing is sent | read the session under `from_user.id` | not executed | `Sessions.HistoryAsWrittenFailsInGroup` | `Sessions.History` |

`Run.Bot.ModelCallback` and `Run.Bot.CommandHistory` use the corrected
definitions.

## Left out

- Telegram I/O is not modelled. This covers the typing indicator, keyboards,
  the command list, the `/start`, settings, about and "switch LLM" screens,
  the `/editpersona` prompt message and `send_response`. Sent messages are
  returned as the list of their texts.
- `get_bot_info` is a network call. The `@handle` and the bot id are
  constructor parameters of `Bot`.
- `process_image` downloads a file and base64-encodes it. The encoded image
  is an input string, with "" meaning no photo.
- The backend call `generate` is the `Backend` value: its fragments and
  whether it raises after them. A backend that cannot be reached is
  `Backend([], true)`.
- `Run.Bot.OllamaRequest`: does not model failures of the typing indicator,
  the download or the send of the reply. In the source each of these also
  ends in "Something went wrong.". A typing-indicator or download failure
  also means no user turn is written. A failed reply send means no assistant turn is written.
- `Stream.ChunkText`: a `content` key holding JSON `null` would raise in
  `full_response += chunk`. The model treats content as either a string or a
  missing key.
- `Run.Bot.HandleMessage`: `persona = message.text` may store `None`. The
  persona is only ever used inside f-strings, so the model stores its
  printed form ("None"). The same applies to a prompt taken from a message
  with neither text nor caption.
- `perms_allowed`, `perms_admins` and `allowed_ids` come from
  `func/interactions`, which is not part of this model. The allow list is a
  parameter. The decorators' checks are not modelled.
- The async lock and concurrency are not modelled. Each locked block is one
  atomic update. The check-then-pop race in `/reset` is not modelled. Nor is
  a persona edit racing an in-flight request. In a sequential run the
  session always exists at commit time, so `AppendAssistant`'s guard only
  matters under concurrency.
- Logging and traceback printing are not modelled.
- `Text.IsSpace` lists the characters Python 3's `str.isspace()` accepts.
  Python derives that set from the Unicode database. The model fixes the set
  as written.
- The number-of-models caption and the button layout of the model picker
  are not modelled. Only the button label and the callback data are.
