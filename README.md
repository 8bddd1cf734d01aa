# matrix-pinbot callbacks, modelled in Dafny

The pin bot is a Matrix client. It joins rooms it is invited to. When someone
reacts to a message with the pin emoji (📌), it posts an archive copy of that
message to a configured pins room. Its decision logic lives in the `Callbacks`
class of `pinbot/callbacks.py`, and that class is what this project models:

- the state `synced` (has the first sync finished?) and `pinned` (the event ids
  already archived), set up by `__init__`;
- `sync`, which raises `synced` once and for all;
- `invite`, which makes up to three `join` attempts, sleeping one second after
  each failure;
- `unknown`, which picks annotation reactions out of events the client library
  does not know, using nested key lookups that may find nothing;
- `_reaction`, which runs a chain of guards, fetches the reacted-to event,
  composes a plain-text and an HTML archive message, sends it to the pins room
  and adds the event id to `pinned`.

The calls the handlers make outside this core are recorded in order, as a trace
of `Effect`s kept by the `Bot.Io` object. These are the `join`,
`room_get_event` and `room_send` calls of the client library, and
`asyncio.sleep`. The answer each call gets is a parameter of the handler:
`respond(i)` answers the i-th join attempt, and `answer` is what
`room_get_event` returns.

Files and modules:

- `matrix.dfy`: `Wrappers` (Option) and `Matrix`. `Matrix` holds the values
  exchanged with the client library, the constants (`m.reaction`,
  `m.annotation`, 📌, `m.room.message`, `m.text`, `org.matrix.custom.html`)
  and the `Effect` trace entries.
- `composer.dfy`: `Composer`, the pure string building of
  `pinbot/callbacks.py:126-170`.
- `classifier.dfy`: `Classifier`, the key lookups of `unknown` and the emoji
  lookup of `_reaction`.
- `resolver.dfy`: `Resolver`. `Resolve` is the verdict of `_reaction`,
  `ReactionEffects` the calls it makes and `PinnedAfter` the new `pinned`.
- `joinretry.dfy`: `JoinRetry`, the calls `invite` makes, as a recursive
  specification and in closed form.
- `bot.dfy`: `Bot`, with the classes `Io` and `Callbacks`. Each `Callbacks`
  method is proved to change `io.trace` and `pinned` exactly as the
  specification functions say.
- `session.dfy`: `Session`, the handlers applied to a sequence of incoming
  events as a specification (`Step`, `Run`), and the properties of whole
  runs: each event id is archived at most once, `synced` never goes back, and
  nothing is sent before the first sync.
- `dispatch.dfy`: `Dispatch`, which hands incoming events to the `Callbacks`
  methods one by one. `Handle` is proved to change the object and its trace
  exactly as `Session.Step` says, and `HandleAll` exactly as `Session.Run`
  says, so the run properties hold of one `Callbacks` object.

The model keeps these quirks of the code on purpose:

- `reacted_to_event.body.join('\n> ')` joins the three characters of `'\n> '`
  with the body, which gives `"\n" + body + ">" + body + " "`.
- Only the first character of the sender goes into the plain text.
- An empty sender makes `sender[0]` raise, so nothing is sent.
- Nothing is HTML-escaped.
- The id enters `pinned` whatever `room_send` answered.
- The reacted-to event is fetched before the own-event, emoji and dedup checks.
- `invite` sleeps after every failed attempt, the third included, so it sleeps
  three times when all three attempts fail (`JoinRetry.ThreeFailures`).

## Model

| member | source | states |
|---|---|---|
| Composer.JoinChars | pinbot/callbacks.py:128 | Python's `sep.join` over the characters of a non-empty string keeps the first character and puts `sep` before each later one |
| Composer.FallbackBody | pinbot/callbacks.py:128 | `body.join('\n> ')` is `"\n" + body + ">" + body + " "`: the body appears twice and no quote marker is added |
| Composer.PlainBody | pinbot/callbacks.py:129-135 | the plain text of the archive message; there is none exactly when the sender is empty (`sender[0]` raises), and otherwise it is `2 * |body| + 17` characters long |
| Composer.PlainBodyShape | pinbot/callbacks.py:129-135 | the plain text is `"\n> "`, the sender's first character, a space, the fallback body and `"\n\nPinned\n"`; an empty sender yields no text (the `IndexError` path) |
| Composer.PlainBodyMentions | pinbot/callbacks.py:129-135 | for a non-empty sender the plain text contains the original body and carries the sender's first character at position 3 |
| Composer.QuoteBodyChoice | pinbot/callbacks.py:139-146 | the quote is the rich `formatted_body` whenever it exists; without it the quote contains the plain body (and the URL, for a picture), or is exactly the body for a non-image |
| Composer.QuoteBody | pinbot/callbacks.py:139-146 | the quote of the HTML body: the rich `formatted_body` if present, else an `<img>` element around the body for a picture, else the body; without a rich body it is never shorter than the body, and a picture adds its URL |
| Composer.Link | pinbot/callbacks.py:137-138 | the matrix.to link: `https://matrix.to/#/`, the room id, `/` at the position right after it, then the event id, and nothing more |
| Composer.LinkRoundTrip | pinbot/callbacks.py:137-151 | for a room id without `/`, the room id and event id are read back unchanged from the matrix.to link |
| Composer.ParseLinkSound | pinbot/callbacks.py:151 | anything read from a string as a link has a room id without `/`, and writing it as a link rebuilds the string exactly |
| Composer.Formatted | pinbot/callbacks.py:147-159 | the HTML body: it opens the `mx-reply` block and the template adds exactly 164 characters to the link, the pill and the quote, so neither is escaped |
| Composer.FormattedEmbeds | pinbot/callbacks.py:147-159 | the HTML body opens with the reply block and the link to the room and event, and contains the sender's pill and the quote unescaped |
| Composer.Compose | pinbot/callbacks.py:126-170 | the content dictionary of the archive message; it exists exactly when the sender is non-empty, with type `m.text`, the HTML format tag and a plain text of `2 * |body| + 17` characters |
| Composer.ComposeContents | pinbot/callbacks.py:126-170 | a message is composed exactly when the sender is non-empty; it has type `m.text`, the HTML format tag, a plain text containing the body, and an HTML body holding the link, the pill and the quote |
| Classifier.RelatesTo | pinbot/callbacks.py:213 | the `m.relates_to` object, found exactly when both `content` and `m.relates_to` are present |
| Classifier.ReactionKey | pinbot/callbacks.py:108-110 | the reaction's emoji, found exactly when `m.relates_to` is present and holds a `key` |
| Classifier.ReactedTo | pinbot/callbacks.py:211-216 | a target is handed on only for an `m.reaction` event, and it is never empty |
| Classifier.ReactedToIff | pinbot/callbacks.py:211-217 | `_reaction` gets id `id` exactly when the type is `m.reaction`, `m.relates_to` is present with `event_id == id` non-empty, and `rel_type` is `m.annotation` |
| Classifier.MissingKeysIgnored | pinbot/callbacks.py:213-216 | a missing `content`, `m.relates_to` or `event_id` gives no target; a missing `content` or `m.relates_to` also gives no emoji |
| Classifier.AnnotationRoundTrip | pinbot/callbacks.py:108-110 | an annotation reaction built from a non-empty target and an emoji is classified back to that target and that emoji |
| Resolver.Resolve | pinbot/callbacks.py:82-171 | the verdict of `_reaction`, guard by guard in source order; it is "not synced" exactly when `synced` is false, and an archive verdict implies synced, outside the pins room, the pin emoji, an id not yet pinned, and an `m.text` HTML message |
| Resolver.ReactionEffects | pinbot/callbacks.py:92 | the calls of `_reaction`: none when the sync or pins-room guard stops it, otherwise the fetch first, and a second call (the send) exactly for an archive verdict |
| Resolver.PinnedAfter | pinbot/callbacks.py:162-171 | `pinned` after `_reaction`: it only grows, only by the reacted-to id, and holds that id exactly when it already did or the verdict archives |
| Resolver.ArchivedIff | pinbot/callbacks.py:82-171 | a reaction is archived exactly when it is synced, outside the pins room, fetched, decrypted, not by the bot, the pin emoji, not yet pinned, with a body and a non-empty sender |
| Resolver.IgnoredMeansNoSend | pinbot/callbacks.py:82-122 | whenever a guard stops the reaction, no message is sent and `pinned` is unchanged |
| Resolver.ArchivedMeansOneSend | pinbot/callbacks.py:82-171 | when every guard passes, the reaction is archived: the fetch is followed by exactly one send, to the pins room, of an `m.room.message` that links to the event and holds its body and the pill; `pinned` gains the id |
| Resolver.FetchBeforeEmojiAndDedup | pinbot/callbacks.py:82-119 | the event is fetched exactly when the sync and pins-room guards pass, as the first call, whatever the emoji or the dedup set |
| Resolver.PinnedGrowsByTarget | pinbot/callbacks.py:115-171 | `pinned` only grows, only by the reacted-to id, and not at all if that id was already there |
| JoinRetry.Tries | pinbot/callbacks.py:52-60 | the calls of the retry loop from a given attempt: each remaining attempt starts with a join, and at most two calls per remaining attempt |
| JoinRetry.InviteEffects | pinbot/callbacks.py:52-64 | the calls of one invite: a join first, and between one and six calls in all |
| JoinRetry.JoinsFrom | pinbot/callbacks.py:52-64 | whether the loop ends joined: false exactly when every attempt from the given one up to the third gets a `JoinError` |
| JoinRetry.TriesClosedForm | pinbot/callbacks.py:52-64 | the retry loop is `k` failed attempts (each a join then a sleep) followed by one join exactly when an attempt succeeds within three; `k` counts the leading `JoinError`s |
| JoinRetry.InviteBounds | pinbot/callbacks.py:52-64 | one invite makes at most three join calls and one sleep per failed attempt, and one join more than sleeps exactly when it joins |
| JoinRetry.TwoFailuresThenJoin | pinbot/callbacks.py:52-62 | two failures then a success: joined, with calls join, sleep 1, join, sleep 1, join |
| JoinRetry.ThreeFailures | pinbot/callbacks.py:52-64 | three failures: not joined, with three joins and three one-second sleeps |
| Bot.Io.Join | pinbot/callbacks.py:53 | a join call is recorded and returns the given answer |
| Bot.Io.Sleep | pinbot/callbacks.py:60 | a sleep is recorded |
| Bot.Io.RoomGetEvent | pinbot/callbacks.py:92 | an event fetch is recorded and returns the given answer |
| Bot.Io.RoomSend | pinbot/callbacks.py:162-170 | a send is recorded with its room, event type, content and device flag |
| Bot.Callbacks.constructor | pinbot/callbacks.py:25-39 | a new handler object starts with `synced` false and `pinned` empty |
| Bot.Callbacks.Sync | pinbot/callbacks.py:224-226 | `synced` becomes true and nothing else changes |
| Bot.Callbacks.Invite | pinbot/callbacks.py:41-67 | the calls made are exactly `InviteEffects`, and the result says whether some attempt within three succeeded |
| Bot.Callbacks.Reaction | pinbot/callbacks.py:69-171 | the calls made and the new `pinned` are exactly those of the `Resolve` verdict; `synced` is unchanged |
| Bot.Callbacks.Unknown | pinbot/callbacks.py:201-222 | a non-annotation event changes nothing and calls nothing; an annotation runs `Reaction` on its target |
| Dispatch.Handle | pinbot/callbacks.py:41-226 | handing one event to `sync`, `invite` or `unknown` changes `synced`, `pinned` and the call trace exactly as `Session.Step` says |
| Dispatch.HandleAll | pinbot/callbacks.py:41-226 | handing a sequence of events to one object changes it exactly as `Session.Run` says; on that object no id is archived twice, sends equal archived ids, and `pinned` gains exactly those ids |
| Dispatch.ObjectArchivesOnce | pinbot/callbacks.py:115-171 | the calls a run appends to a trace hold one send per archived id, no id twice |
| Dispatch.RunAdvance | pinbot/callbacks.py:41-226 | handling the next event moves the run on by one step: the rest of the run ends in the same state, with that step's calls now in the trace |
| Session.StepArchives | pinbot/callbacks.py:82-171 | one handler call archives at most one id, which was not yet pinned, adds exactly it to `pinned`, sends once per archived id and never lowers `synced` |
| Session.RunArchivesOnce | pinbot/callbacks.py:115-171 | over any sequence of events, no id is archived twice, none that was pinned at the start, `pinned` ends as the start plus the archived ids, and sends equal archived ids |
| Session.RunKeepsSynced | pinbot/callbacks.py:224-226 | once `synced` is true it stays true over any sequence of events |
| Session.NothingBeforeSync | pinbot/callbacks.py:82-85 | before any sync response nothing is archived, nothing is sent and the state is unchanged |
| Session.RepeatedPinSentOnce | pinbot/callbacks.py:115-119 | the same reaction delivered twice after the sync is sent at most once, and exactly once when its first delivery qualifies |

## Left out

- `decryption_failure` (`pinbot/callbacks.py:173-199`): it only logs, and its reaction call is commented out.
- All logging, including the debug line at the end of `unknown` and the "Joined" line that `invite` logs even after three failures.
- The async/await structure and `asyncio.sleep` as scheduling: each handler is one sequential run, and a sleep is only recorded in the trace.
- Concurrent dispatch: the check and the insert on `pinned` are not atomic in the code either, and the model is sequential.
- Network I/O of `join`, `room_get_event` and `room_send`: their answers are parameters, and the answer of `room_send` is never read by the code.
- `make_pill`, `Config`, `Storage` and `Message` are not part of this model. `make_pill` is passed in as a function; `pins_room` and `user_id` are values of `Config`; `client`, `store` and `command_prefix` in `__init__` are not modelled.
- The `tx_id` argument `None` of `room_send` is not modelled.
- JSON values of unexpected types in the event source: `event_id`, `rel_type` and `key` are modelled as strings or absent. A non-dict `content` or `m.relates_to`, which would make `.get` raise, is not modelled.
- Event classes of the client library: a fetched event is modelled as encrypted (`MegolmEvent`) or decrypted. A decrypted event has an optional body, an optional formatted body, and a kind that is either an image with its URL or not an image.
- The `response` argument of `sync`: the code does not use it.
- Exceptions raised in a handler or by a client call are not modelled as exceptions. The `IndexError` of `sender[0]` on an empty sender (`pinbot/callbacks.py:131`) leaves `_reaction` and `unknown` uncaught; the model treats it as a return with no send and no insert, and a run goes on to the next event. `join`, `room_get_event` and `room_send` are assumed not to raise; an exception from `room_send` (`pinbot/callbacks.py:162`) would skip the insert at line 171, which the model does not capture.
- The registration of the handlers with the client library is not part of this model. `Dispatch` stands for it: it hands each event to the handler for its kind, one event at a time, each handler running to completion.
