/**
 * The pin resolver as a specification: the verdict `_reaction` reaches for
 * one reaction (pinbot/callbacks.py:82-171), the calls it makes outside this
 * core on the way, and the dedup set afterwards. `Bot.Callbacks.Reaction` is
 * proved to do exactly this.
 *
 * The guards run in the source's order: synced, pins room, fetch error,
 * undecryptable event, own event, emoji, already pinned, no body. The fetch
 * happens after the second guard, so before the emoji and dedup checks.
 */
module Resolver {
  import opened Wrappers
  import opened Matrix
  import opened Composer

  /** How one call of `_reaction` ends. */
  datatype Verdict =
    | NotSynced          // still catching up (line 82)
    | InPinsRoom         // the reaction is in the pins room (line 88)
    | FetchFailed        // `room_get_event` gave `RoomGetEventError` (line 93)
    | Undecryptable      // the fetched event is a `MegolmEvent` (line 99)
    | OwnEvent           // the fetched event was sent by the bot (line 106)
    | NotPinEmoji        // the emoji is missing or not the pin (line 112)
    | AlreadyPinned      // the event id is in `pinned` (line 115)
    | NoBody             // the fetched event has no `body` (line 120)
    | SenderIndexError   // `sender[0]` raised on an empty sender (line 131)
    | Archived(content: ArchiveContent)

  /** The verdict of `_reaction` for a reaction with emoji `key` to `reactedToId` in `room`. */
  function Resolve(config: Config, makePill: UserId -> string, synced: bool, pinned: set<EventId>,
                   room: RoomId, key: Option<string>, reactedToId: EventId,
                   response: FetchResult): (r: Verdict)
    ensures r.NotSynced? <==> !synced
    ensures r.Archived? ==>
      synced && room != config.pinsRoom && key == Some(PinGlyph) && reactedToId !in pinned &&
      r.content.msgtype == TextMsgtype && r.content.format == HtmlFormat
  {
    if !synced then NotSynced
    else if room == config.pinsRoom then InPinsRoom
    else
      match response
      case FetchError => FetchFailed
      case Fetched(Megolm) => Undecryptable
      case Fetched(Decrypted(sender, body, formattedBody, kind)) =>
        if sender == config.userId then OwnEvent
        else if key != Some(PinGlyph) then NotPinEmoji
        else if reactedToId in pinned then AlreadyPinned
        else
          match body
          case None => NoBody
          case Some(b) =>
            match Compose(room, reactedToId, sender, b, formattedBody, kind, makePill(sender))
            case None => SenderIndexError
            case Some(c) => Archived(c)
  }

  /** The calls `_reaction` makes, in order, for a given verdict. */
  function ReactionEffects(config: Config, room: RoomId, reactedToId: EventId, v: Verdict): (r: seq<Effect>)
    ensures |r| <= 2
    ensures r == [] <==> v.NotSynced? || v.InPinsRoom?
    ensures r != [] ==> r[0] == GetEvent(room, reactedToId)
    ensures |r| == 2 <==> v.Archived?
  {
    match v
    case NotSynced => []
    case InPinsRoom => []
    case Archived(c) => [GetEvent(room, reactedToId), Send(config.pinsRoom, MessageEventType, c, false)]
    case _ => [GetEvent(room, reactedToId)]
  }

  /** `pinned` after `_reaction`: the id is added right after the send, whatever the send returned. */
  function PinnedAfter(pinned: set<EventId>, reactedToId: EventId, v: Verdict): (r: set<EventId>)
    ensures pinned <= r <= pinned + {reactedToId}
    ensures reactedToId in r <==> reactedToId in pinned || v.Archived?
  {
    if v.Archived? then pinned + {reactedToId} else pinned
  }

  /**
   * A reaction is archived exactly when every guard passes: synced, outside
   * the pins room, fetched and decrypted, not the bot's own event, the pin
   * emoji, not yet pinned, with a body and a non-empty sender. This spells the
   * guard chain out as one condition; what it means for the calls made is in
   * `IgnoredMeansNoSend` and `ArchivedMeansOneSend` below, and over whole runs
   * in `Session.RunArchivesOnce`.
   */
  lemma ArchivedIff(config: Config, makePill: UserId -> string, synced: bool, pinned: set<EventId>,
                    room: RoomId, key: Option<string>, reactedToId: EventId, response: FetchResult)
    ensures Resolve(config, makePill, synced, pinned, room, key, reactedToId, response).Archived? <==>
      synced && room != config.pinsRoom &&
      response.Fetched? && response.event.Decrypted? &&
      response.event.sender != config.userId &&
      key == Some(PinGlyph) &&
      reactedToId !in pinned &&
      response.event.body.Some? &&
      response.event.sender != ""
  {
    if synced && room != config.pinsRoom && response.Fetched? && response.event.Decrypted? {
      var ev := response.event;
      if ev.sender != config.userId && key == Some(PinGlyph) && reactedToId !in pinned && ev.body.Some? {
        ComposeContents(room, reactedToId, ev.sender, ev.body.value, ev.formattedBody, ev.kind, makePill(ev.sender));
      }
    }
  }

  /**
   * Whenever a guard stops the reaction, nothing is sent and `pinned` is
   * left as it was.
   */
  lemma IgnoredMeansNoSend(config: Config, makePill: UserId -> string, synced: bool, pinned: set<EventId>,
                           room: RoomId, key: Option<string>, reactedToId: EventId, response: FetchResult)
    requires !Resolve(config, makePill, synced, pinned, room, key, reactedToId, response).Archived?
    ensures
      var v := Resolve(config, makePill, synced, pinned, room, key, reactedToId, response);
      Count(ReactionEffects(config, room, reactedToId, v), IsSend) == 0 &&
      PinnedAfter(pinned, reactedToId, v) == pinned
  {
    var v := Resolve(config, makePill, synced, pinned, room, key, reactedToId, response);
    var t := ReactionEffects(config, room, reactedToId, v);
    assert t == [] || t == [GetEvent(room, reactedToId)];
  }

  /**
   * When every guard passes, the reaction is archived: the fetch is followed
   * by exactly one send, to the pins room, of a message that links to the
   * reacted-to event and quotes its body, and the id joins `pinned`.
   */
  lemma ArchivedMeansOneSend(config: Config, makePill: UserId -> string, synced: bool, pinned: set<EventId>,
                             room: RoomId, key: Option<string>, reactedToId: EventId, response: FetchResult)
    requires synced && room != config.pinsRoom
    requires response.Fetched? && response.event.Decrypted?
    requires response.event.sender != config.userId && response.event.sender != ""
    requires key == Some(PinGlyph) && reactedToId !in pinned && response.event.body.Some?
    ensures
      var v := Resolve(config, makePill, synced, pinned, room, key, reactedToId, response);
      var t := ReactionEffects(config, room, reactedToId, v);
      v.Archived? && Count(t, IsSend) == 1 &&
      t[0] == GetEvent(room, reactedToId) &&
      t[1].Send? && t[1].room == config.pinsRoom && t[1].eventType == MessageEventType &&
      FormattedOpening + Link(room, reactedToId) <= t[1].content.formattedBody &&
      Contains(t[1].content.body, response.event.body.value) &&
      Contains(t[1].content.formattedBody, makePill(response.event.sender)) &&
      PinnedAfter(pinned, reactedToId, v) == pinned + {reactedToId}
  {
    ArchivedIff(config, makePill, synced, pinned, room, key, reactedToId, response);
    var ev := response.event;
    ComposeContents(room, reactedToId, ev.sender, ev.body.value, ev.formattedBody, ev.kind, makePill(ev.sender));
    var v := Resolve(config, makePill, synced, pinned, room, key, reactedToId, response);
    var t := ReactionEffects(config, room, reactedToId, v);
    assert t[1..][1..] == [];
    assert Count(t[1..], IsSend) == 1;
  }

  /**
   * The event is fetched exactly when the sync and pins-room guards pass, so
   * also for a reaction with another emoji or to an event already pinned.
   */
  lemma FetchBeforeEmojiAndDedup(config: Config, makePill: UserId -> string, synced: bool, pinned: set<EventId>,
                                 room: RoomId, key: Option<string>, reactedToId: EventId, response: FetchResult)
    ensures
      var t := ReactionEffects(config, room, reactedToId,
                               Resolve(config, makePill, synced, pinned, room, key, reactedToId, response));
      (t != [] <==> synced && room != config.pinsRoom) &&
      (t != [] ==> t[0] == GetEvent(room, reactedToId))
  {
  }

  /** `pinned` only grows, and by nothing but the reacted-to id. */
  lemma PinnedGrowsByTarget(config: Config, makePill: UserId -> string, synced: bool, pinned: set<EventId>,
                            room: RoomId, key: Option<string>, reactedToId: EventId, response: FetchResult)
    ensures
      var after := PinnedAfter(pinned, reactedToId,
                               Resolve(config, makePill, synced, pinned, room, key, reactedToId, response));
      pinned <= after && after - pinned <= {reactedToId} && (reactedToId in pinned ==> after == pinned)
  {
  }
}
