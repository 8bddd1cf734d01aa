/**
 * The `Callbacks` class (pinbot/callbacks.py:24-226): the bot's two pieces of
 * state, `synced` and `pinned`, and the handlers that read and update them.
 * The client library's calls go through an `Io` object that records them; the
 * answer each call gets is a parameter of the handler.
 */
module Bot {
  import opened Wrappers
  import opened Matrix
  import opened Composer
  import opened Classifier
  import opened Resolver
  import opened JoinRetry

  /**
   * The client library and the event loop as the handlers see them: each
   * call is appended to `trace`, and a call that answers returns the answer
   * it is given.
   */
  class Io {
    var trace: seq<Effect>

    constructor ()
      ensures trace == []
    {
      trace := [];
    }

    /** `client.join(room_id)`. */
    method Join(room: RoomId, answer: JoinResult) returns (r: JoinResult)
      modifies this
      ensures trace == old(trace) + [JoinCall(room)] && r == answer
    {
      trace := trace + [JoinCall(room)];
      r := answer;
    }

    /** `asyncio.sleep(seconds)`. */
    method Sleep(seconds: nat)
      modifies this
      ensures trace == old(trace) + [Effect.Sleep(seconds)]
    {
      trace := trace + [Effect.Sleep(seconds)];
    }

    /** `client.room_get_event(room_id, event_id)`. */
    method RoomGetEvent(room: RoomId, eventId: EventId, answer: FetchResult) returns (r: FetchResult)
      modifies this
      ensures trace == old(trace) + [GetEvent(room, eventId)] && r == answer
    {
      trace := trace + [GetEvent(room, eventId)];
      r := answer;
    }

    /** `client.room_send(room_id, message_type, content, None, ignore_unverified_devices)`; its answer is not used. */
    method RoomSend(room: RoomId, eventType: string, content: ArchiveContent, ignoreUnverifiedDevices: bool)
      modifies this
      ensures trace == old(trace) + [Send(room, eventType, content, ignoreUnverifiedDevices)]
    {
      trace := trace + [Send(room, eventType, content, ignoreUnverifiedDevices)];
    }
  }

  class Callbacks {
    const io: Io
    const config: Config
    /** `make_pill` from the chat functions, which are not part of this model. */
    const makePill: UserId -> string
    /** Whether the first sync has completed. */
    var synced: bool
    /** The event ids already archived. */
    var pinned: set<EventId>

    /** `__init__` (pinbot/callbacks.py:25-39). */
    constructor (io: Io, config: Config, makePill: UserId -> string)
      ensures this.io == io && this.config == config && this.makePill == makePill
      ensures !synced && pinned == {}
    {
      this.io := io;
      this.config := config;
      this.makePill := makePill;
      synced := false;
      pinned := {};
    }

    /** `sync` (pinbot/callbacks.py:224-226): the flag goes up and stays up; nothing else changes. */
    method Sync()
      modifies this`synced
      ensures synced
      ensures pinned == old(pinned)
    {
      synced := true;
    }

    /**
     * `invite` (pinbot/callbacks.py:41-67): up to three join attempts, a
     * one-second sleep after each failure, stopping at the first success.
     * `respond(i)` is the answer to attempt `i`.
     */
    method Invite(room: RoomId, respond: nat -> JoinResult) returns (joined: bool)
      modifies io
      ensures io.trace == old(io.trace) + InviteEffects(room, respond)
      ensures joined == JoinsFrom(respond, 0)
    {
      joined := false;
      for attempt := 0 to MaxAttempts
        invariant io.trace + Tries(room, respond, attempt) == old(io.trace) + InviteEffects(room, respond)
        invariant JoinsFrom(respond, attempt) == JoinsFrom(respond, 0)
        invariant !joined
      {
        var result := io.Join(room, respond(attempt));
        if result.JoinError? {
          io.Sleep(RetryDelay);
        } else {
          joined := true;
          break;
        }
      }
    }

    /**
     * `_reaction` (pinbot/callbacks.py:69-171): the guard chain, the fetch,
     * the archive send and the insertion into `pinned`, as `Resolve` states.
     * `answer` is what `room_get_event` returns.
     */
    method Reaction(room: RoomId, event: UnknownEvent, reactedToId: EventId, answer: FetchResult)
      modifies this`pinned, io
      ensures synced == old(synced)
      ensures
        var v := Resolve(config, makePill, synced, old(pinned), room, ReactionKey(event), reactedToId, answer);
        io.trace == old(io.trace) + ReactionEffects(config, room, reactedToId, v) &&
        pinned == PinnedAfter(old(pinned), reactedToId, v)
    {
      if !synced {
        return;
      }
      if room == config.pinsRoom {
        return;
      }
      var response := io.RoomGetEvent(room, reactedToId, answer);
      if response.FetchError? {
        return;
      }
      var reactedToEvent := response.event;
      if reactedToEvent.Megolm? {
        return;
      }
      if reactedToEvent.sender == config.userId {
        return;
      }
      var emoji := ReactionKey(event);
      if emoji != Some(PinGlyph) {
        return;
      }
      if reactedToId in pinned {
        return;
      }
      if reactedToEvent.body.None? {
        return;
      }
      var pill := makePill(reactedToEvent.sender);
      var body := PlainBody(reactedToEvent.sender, reactedToEvent.body.value);
      if body.None? {
        // `sender[0]` raised: the handler ends without sending
        return;
      }
      var quote := QuoteBody(reactedToEvent.body.value, reactedToEvent.formattedBody, reactedToEvent.kind);
      var formatted := Formatted(room, reactedToId, pill, quote);
      io.RoomSend(config.pinsRoom, MessageEventType,
                  ArchiveContent(TextMsgtype, body.value, HtmlFormat, formatted), false);
      pinned := pinned + {reactedToId};
    }

    /**
     * `unknown` (pinbot/callbacks.py:201-222): a reaction annotation goes on
     * to `Reaction`; anything else changes nothing and calls nothing.
     */
    method Unknown(room: RoomId, event: UnknownEvent, answer: FetchResult)
      modifies this`pinned, io
      ensures synced == old(synced)
      ensures ReactedTo(event).None? ==> io.trace == old(io.trace) && pinned == old(pinned)
      ensures ReactedTo(event).Some? ==>
        var v := Resolve(config, makePill, synced, old(pinned), room, ReactionKey(event),
                         ReactedTo(event).value, answer);
        io.trace == old(io.trace) + ReactionEffects(config, room, ReactedTo(event).value, v) &&
        pinned == PinnedAfter(old(pinned), ReactedTo(event).value, v)
    {
      var reactedTo := ReactedTo(event);
      if reactedTo.Some? {
        Reaction(room, event, reactedTo.value, answer);
      }
    }
  }
}
