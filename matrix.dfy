/** Option, for values the source reads with `dict.get` or `hasattr` and may find absent. */
module Wrappers {
  datatype Option<+T> = None | Some(value: T)
}

/**
 * The values the pin bot exchanges with the Matrix client library: the parts of
 * an unknown event it inspects, the event `room_get_event` hands back, the
 * result of `join`, and the archive message it sends. The client's calls
 * themselves are recorded as `Effect`s.
 */
module Matrix {
  import opened Wrappers

  type RoomId = string
  type EventId = string
  type UserId = string

  /** The reaction type, relation type and emoji the bot reacts to. */
  const ReactionType: string := "m.reaction"
  const AnnotationRelation: string := "m.annotation"
  const PinGlyph: string := "\U{1F4CC}"

  /** The fixed parts of the archive message handed to `room_send`. */
  const MessageEventType: string := "m.room.message"
  const TextMsgtype: string := "m.text"
  const HtmlFormat: string := "org.matrix.custom.html"

  /** Configuration values the handlers read: `config.pins_room` and `config.user_id`. */
  datatype Config = Config(pinsRoom: RoomId, userId: UserId)

  /**
   * The `m.relates_to` object of an event's content, with each of the three
   * keys the bot reads; `None` stands for a key that is absent (or null).
   */
  datatype Relation = Relation(eventId: Option<string>, relType: Option<string>, key: Option<string>)

  /** The `content` object of an event's source, with its `m.relates_to` key. */
  datatype Content = Content(relatesTo: Option<Relation>)

  /** An event the client library does not know, as the `unknown` handler sees it. */
  datatype UnknownEvent = UnknownEvent(eventType: string, sender: UserId, content: Option<Content>)

  /** `RoomMessageImage` events carry the URL of the upload; every other event kind is `NotImage`. */
  datatype Kind = Image(url: string) | NotImage

  /**
   * The event `room_get_event` returns: still encrypted (`MegolmEvent`), or
   * decrypted, with the attributes the bot reads (`body` and `formatted_body`
   * may be missing).
   */
  datatype RoomEvent =
    | Megolm
    | Decrypted(sender: UserId, body: Option<string>, formattedBody: Option<string>, kind: Kind)

  /** The answer to `room_get_event`: `RoomGetEventError`, or a response holding an event. */
  datatype FetchResult = FetchError | Fetched(event: RoomEvent)

  /** The answer to `join`: `JoinError` with its message, or anything else. */
  datatype JoinResult = JoinError(message: string) | Joined

  /** The content dictionary of the archive message. */
  datatype ArchiveContent = ArchiveContent(msgtype: string, body: string, format: string, formattedBody: string)

  /**
   * One call the handlers make outside this core, in the order made: a join
   * attempt, a pause of some seconds, an event fetch, a message send.
   */
  datatype Effect =
    | JoinCall(room: RoomId)
    | Sleep(seconds: nat)
    | GetEvent(room: RoomId, eventId: EventId)
    | Send(room: RoomId, eventType: string, content: ArchiveContent, ignoreUnverifiedDevices: bool)

  predicate IsJoin(e: Effect) { e.JoinCall? }
  predicate IsSleep(e: Effect) { e.Sleep? }
  predicate IsSend(e: Effect) { e.Send? }

  /** The number of calls in `trace` that satisfy `p`. */
  function Count(trace: seq<Effect>, p: Effect -> bool): nat
  {
    if trace == [] then 0 else (if p(trace[0]) then 1 else 0) + Count(trace[1..], p)
  }

  lemma {:induction false} CountAppend(a: seq<Effect>, b: seq<Effect>, p: Effect -> bool)
    ensures Count(a + b, p) == Count(a, p) + Count(b, p)
  {
    if a == [] {
      assert a + b == b;
    } else {
      assert (a + b)[1..] == a[1..] + b;
      CountAppend(a[1..], b, p);
    }
  }
}
