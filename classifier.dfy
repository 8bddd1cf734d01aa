/**
 * The reaction classifier: the key lookups `unknown` does on an event's source
 * (pinbot/callbacks.py:211-216) and the emoji lookup `_reaction` does on the
 * same source (pinbot/callbacks.py:108-110). A missing `content`, a missing
 * `m.relates_to` or a missing key is a normal outcome, `None`, never an error.
 */
module Classifier {
  import opened Wrappers
  import opened Matrix

  /** `event.source.get("content", {}).get("m.relates_to", {})`, absent as `None`. */
  function RelatesTo(event: UnknownEvent): (r: Option<Relation>)
    ensures r.Some? <==> event.content.Some? && event.content.value.relatesTo.Some?
  {
    match event.content
    case None => None
    case Some(c) => c.relatesTo
  }

  /** The `key` of the relation: the reaction's emoji (pinbot/callbacks.py:108-110). */
  function ReactionKey(event: UnknownEvent): (r: Option<string>)
    ensures r.Some? <==> RelatesTo(event).Some? && RelatesTo(event).value.key.Some?
  {
    match RelatesTo(event)
    case None => None
    case Some(rel) => rel.key
  }

  /**
   * The event id `unknown` hands to `_reaction`, or `None` when it hands over
   * nothing: the type must be `m.reaction`, the `event_id` present and
   * non-empty (truthy), and `rel_type` exactly `m.annotation`.
   */
  function ReactedTo(event: UnknownEvent): (r: Option<EventId>)
    ensures r.Some? ==> r.value != "" && event.eventType == ReactionType
  {
    if event.eventType != ReactionType then None
    else
      match RelatesTo(event)
      case None => None
      case Some(rel) =>
        match rel.eventId
        case None => None
        case Some(id) =>
          if id != "" && rel.relType == Some(AnnotationRelation) then Some(id) else None
  }

  /**
   * `unknown` passes the event on exactly when all three conditions hold, and
   * then passes the relation's own `event_id`. This spells the lookup out as
   * one condition; `AnnotationRoundTrip` below is its partner, building the
   * event from a target and an emoji and classifying it back.
   */
  lemma ReactedToIff(event: UnknownEvent, id: EventId)
    ensures ReactedTo(event) == Some(id) <==>
      event.eventType == ReactionType &&
      RelatesTo(event).Some? &&
      RelatesTo(event).value.eventId == Some(id) && id != "" &&
      RelatesTo(event).value.relType == Some(AnnotationRelation)
  {
  }

  /** Any missing level of the nested source means no reaction is handled. */
  lemma MissingKeysIgnored(event: UnknownEvent)
    requires event.content.None? || RelatesTo(event).None? || RelatesTo(event).value.eventId.None?
    ensures ReactedTo(event).None?
    ensures event.content.None? || RelatesTo(event).None? ==> ReactionKey(event).None?
  {
  }

  /** The wire form of an annotation reaction with the given target and emoji. */
  function AnnotationEvent(sender: UserId, target: EventId, emoji: string): UnknownEvent
  {
    UnknownEvent(ReactionType, sender,
      Some(Content(Some(Relation(Some(target), Some(AnnotationRelation), Some(emoji))))))
  }

  /** Classifying an annotation reaction gives back its target and its emoji. */
  lemma AnnotationRoundTrip(sender: UserId, target: EventId, emoji: string)
    requires target != ""
    ensures ReactedTo(AnnotationEvent(sender, target, emoji)) == Some(target)
    ensures ReactionKey(AnnotationEvent(sender, target, emoji)) == Some(emoji)
  {
  }
}
