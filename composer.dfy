/**
 * The archive composer: the plain-text and HTML renderings of a pinned event
 * that `_reaction` builds before sending (pinbot/callbacks.py:126-159). All of
 * it is pure string building over the fetched event, the room id and the
 * reacted-to event id. The source's quirks are kept as written: the plain body
 * comes from `body.join('\n> ')`, which interleaves the body between the three
 * characters of `'\n> '`; only the first character of the sender is used; and
 * nothing is HTML-escaped.
 */
module Composer {
  import opened Wrappers
  import opened Matrix

  /** `t` occurs in `s` as a contiguous piece. */
  predicate Contains(s: string, t: string) {
    exists i | 0 <= i <= |s| :: t <= s[i..]
  }

  lemma ContainsMiddle(a: string, t: string, b: string)
    ensures Contains(a + t + b, t)
  {
    assert (a + t + b)[|a|..] == t + b;
  }

  // ---------------------------------------------------------------------------
  // Python's str.join, applied to a string as the iterable
  // ---------------------------------------------------------------------------

  /** Python's `sep.join(parts)`: the parts with `sep` between neighbours. */
  function PyJoin(sep: string, parts: seq<string>): string
  {
    if |parts| == 0 then ""
    else if |parts| == 1 then parts[0]
    else parts[0] + sep + PyJoin(sep, parts[1..])
  }

  /** A string as Python iterates it: one one-character string per character. */
  function Chars(s: string): seq<string>
  {
    if s == "" then [] else [[s[0]]] + Chars(s[1..])
  }

  /** Every character of `s`, each preceded by `sep`. */
  function EachPrefixed(sep: string, s: string): string
  {
    if s == "" then "" else sep + [s[0]] + EachPrefixed(sep, s[1..])
  }

  /**
   * Joining the characters of a non-empty string `t` with `sep` keeps the
   * first character and puts `sep` in front of each later one.
   */
  lemma {:induction false} JoinChars(sep: string, t: string)
    requires t != ""
    ensures PyJoin(sep, Chars(t)) == [t[0]] + EachPrefixed(sep, t[1..])
  {
    if |t| == 1 {
      assert Chars(t) == [[t[0]]];
    } else {
      var rest := t[1..];
      assert Chars(t) == [[t[0]]] + Chars(rest);
      assert Chars(rest) == [[rest[0]]] + Chars(rest[1..]);
      JoinChars(sep, rest);
      assert PyJoin(sep, Chars(t)) == [t[0]] + sep + PyJoin(sep, Chars(rest));
    }
  }

  /**
   * `fallback_body`: `body.join('\n> ')` (pinbot/callbacks.py:128). The join
   * runs over the three characters of `'\n> '` with the body as the
   * separator, so the body appears twice and no quote marker is added.
   */
  function FallbackBody(body: string): (r: string)
    ensures r == "\n" + body + ">" + body + " "
  {
    JoinChars(body, "\n> ");
    assert "\n> "[1..] == "> " && "> "[1..] == " " && " "[1..] == "";
    assert EachPrefixed(body, " ") == body + " ";
    assert EachPrefixed(body, "> ") == body + ">" + body + " ";
    PyJoin(body, Chars("\n> "))
  }

  /**
   * `body` of the archive message (pinbot/callbacks.py:129-135): `None` when
   * `sender[0]` raises `IndexError` on an empty sender.
   */
  function PlainBody(sender: UserId, body: string): (r: Option<string>)
    ensures r.None? <==> sender == ""
    ensures r.Some? ==> |r.value| == 2 * |body| + 17
  {
    if sender == "" then None
    else Some("\n> " + [sender[0]] + " " + FallbackBody(body) + "\n\nPinned\n")
  }

  /**
   * The plain text is the quote marker, the sender's first character, then
   * the body twice around a `>`, then the `Pinned` line; an empty sender
   * yields no text at all.
   */
  lemma PlainBodyShape(sender: UserId, body: string)
    ensures sender == "" ==> PlainBody(sender, body).None?
    ensures sender != "" ==>
      PlainBody(sender, body) == Some("\n> " + [sender[0]] + " \n" + body + ">" + body + " \n\nPinned\n")
  {
    if sender != "" {
      assert "\n> " + [sender[0]] + " " + FallbackBody(body) + "\n\nPinned\n"
          == "\n> " + [sender[0]] + " \n" + body + ">" + body + " \n\nPinned\n";
    }
  }

  /** The plain text holds the original body and the sender's first character. */
  lemma PlainBodyMentions(sender: UserId, body: string)
    requires sender != ""
    ensures PlainBody(sender, body).Some?
    ensures Contains(PlainBody(sender, body).value, body)
    ensures PlainBody(sender, body).value[3] == sender[0]
  {
    PlainBodyShape(sender, body);
    var r := PlainBody(sender, body).value;
    assert r == ("\n> " + [sender[0]] + " \n") + body + (">" + body + " \n\nPinned\n");
    ContainsMiddle("\n> " + [sender[0]] + " \n", body, ">" + body + " \n\nPinned\n");
  }

  // ---------------------------------------------------------------------------
  // The quoted body and the link
  // ---------------------------------------------------------------------------

  /**
   * `quote_body` (pinbot/callbacks.py:140-146): the event's own
   * `formatted_body` when it has one, an `<img>` element for an uploaded
   * picture, and the plain body otherwise.
   */
  function QuoteBody(body: string, formattedBody: Option<string>, kind: Kind): (r: string)
    ensures formattedBody.None? ==> |body| <= |r|
    ensures formattedBody.None? && kind.Image? ==> |body| + |kind.url| < |r|
  {
    match formattedBody
    case Some(f) => f
    case None =>
      match kind
      case Image(url) => "<img src=\"" + url + "\">" + body + "</img>"
      case NotImage => body
  }

  /**
   * The rich body wins whenever it exists; without it the quote shows the
   * plain body verbatim, and for a picture also its URL.
   */
  lemma QuoteBodyChoice(body: string, formattedBody: Option<string>, kind: Kind)
    ensures formattedBody.Some? ==> QuoteBody(body, formattedBody, kind) == formattedBody.value
    ensures formattedBody.None? ==> Contains(QuoteBody(body, formattedBody, kind), body)
    ensures formattedBody.None? && kind.Image? ==> Contains(QuoteBody(body, formattedBody, kind), kind.url)
    ensures formattedBody.None? && kind.NotImage? ==> QuoteBody(body, formattedBody, kind) == body
  {
    if formattedBody.None? {
      match kind
      case Image(url) =>
        ContainsMiddle("<img src=\"" + url + "\">", body, "</img>");
        assert "<img src=\"" + url + "\">" + body + "</img>" == "<img src=\"" + url + (("\">" + body) + "</img>");
        ContainsMiddle("<img src=\"", url, ("\">" + body) + "</img>");
      case NotImage =>
        ContainsMiddle("", body, "");
        assert "" + body + "" == body;
    }
  }

  const MatrixToPrefix: string := "https://matrix.to/#/"

  /** The deep link to the reacted-to event (pinbot/callbacks.py:137-138, 151). */
  function Link(room: RoomId, eventId: EventId): (r: string)
    ensures MatrixToPrefix <= r
    ensures |r| == |MatrixToPrefix| + |room| + 1 + |eventId|
    ensures r[|MatrixToPrefix| + |room|] == '/'
  {
    MatrixToPrefix + room + "/" + eventId
  }

  /** The first index of `c` in `s`, or `|s|` when `c` does not occur. */
  function IndexOf(c: char, s: string): (k: nat)
    ensures k <= |s|
    ensures k < |s| ==> s[k] == c
    ensures forall i :: 0 <= i < k ==> s[i] != c
  {
    if s == "" then 0
    else if s[0] == c then 0
    else 1 + IndexOf(c, s[1..])
  }

  /** Reads the room id and the event id back out of a link. */
  function ParseLink(s: string): Option<(RoomId, EventId)>
  {
    if |s| < |MatrixToPrefix| || s[..|MatrixToPrefix|] != MatrixToPrefix then None
    else
      var rest := s[|MatrixToPrefix|..];
      var k := IndexOf('/', rest);
      if k == |rest| then None else Some((rest[..k], rest[k + 1..]))
  }

  /** A room id without `/` can be read back from the link, with the event id. */
  lemma LinkRoundTrip(room: RoomId, eventId: EventId)
    requires '/' !in room
    ensures ParseLink(Link(room, eventId)) == Some((room, eventId))
  {
    var s := Link(room, eventId);
    assert s[..|MatrixToPrefix|] == MatrixToPrefix;
    var rest := s[|MatrixToPrefix|..];
    assert rest == room + "/" + eventId;
    var k := IndexOf('/', rest);
    assert forall i :: 0 <= i < |room| ==> rest[i] == room[i];
    assert rest[|room|] == '/';
    assert k == |room|;
    assert rest[..k] == room;
    assert rest[k + 1..] == eventId;
  }

  /** Whatever `ParseLink` reads is exactly what `Link` writes. */
  lemma ParseLinkSound(s: string)
    requires ParseLink(s).Some?
    ensures '/' !in ParseLink(s).value.0
    ensures s == Link(ParseLink(s).value.0, ParseLink(s).value.1)
  {
    var rest := s[|MatrixToPrefix|..];
    var k := IndexOf('/', rest);
    assert rest == rest[..k] + "/" + rest[k + 1..];
    assert s == s[..|MatrixToPrefix|] + rest;
    forall i | 0 <= i < k ensures rest[..k][i] != '/' {
    }
  }

  // ---------------------------------------------------------------------------
  // The HTML body and the whole message content
  // ---------------------------------------------------------------------------

  const FormattedOpening: string := "\n<mx-reply>\n  <blockquote>\n    <a href=\""

  /**
   * `formatted` (pinbot/callbacks.py:147-159), interpolated without escaping:
   * the template adds a fixed 164 characters to the link, the pill and the
   * quote, which go in unchanged.
   */
  function Formatted(room: RoomId, eventId: EventId, pill: string, quote: string): (r: string)
    ensures FormattedOpening <= r
    ensures |r| == |Link(room, eventId)| + |pill| + |quote| + 164
  {
    FormattedOpening + Link(room, eventId) + "\">Pinned</a>\n    "
    + pill + "\n    <br />\n    <!-- This is where the related event's HTML would be. -->\n    "
    + quote + "\n  </blockquote>\n</mx-reply>\n"
  }

  /**
   * The HTML body opens the reply block with the link to the original event
   * and embeds the sender's pill and the quote unchanged.
   */
  lemma FormattedEmbeds(room: RoomId, eventId: EventId, pill: string, quote: string)
    ensures FormattedOpening + Link(room, eventId) <= Formatted(room, eventId, pill, quote)
    ensures Contains(Formatted(room, eventId, pill, quote), pill)
    ensures Contains(Formatted(room, eventId, pill, quote), quote)
  {
    var a := FormattedOpening + Link(room, eventId) + "\">Pinned</a>\n    ";
    var b := "\n    <br />\n    <!-- This is where the related event's HTML would be. -->\n    ";
    var c := "\n  </blockquote>\n</mx-reply>\n";
    assert Contains(Formatted(room, eventId, pill, quote), pill) by {
      assert Formatted(room, eventId, pill, quote) == a + pill + (b + quote + c);
      ContainsMiddle(a, pill, b + quote + c);
    }
    assert Contains(Formatted(room, eventId, pill, quote), quote) by {
      assert Formatted(room, eventId, pill, quote) == (a + pill + b) + quote + c;
      ContainsMiddle(a + pill + b, quote, c);
    }
  }

  /**
   * The content dictionary sent to the pins room (pinbot/callbacks.py:165-170),
   * or `None` when building the plain body raises.
   */
  function Compose(room: RoomId, eventId: EventId, sender: UserId, body: string,
                   formattedBody: Option<string>, kind: Kind, pill: string): (r: Option<ArchiveContent>)
    ensures r.Some? <==> sender != ""
    ensures r.Some? ==>
      r.value.msgtype == TextMsgtype && r.value.format == HtmlFormat && |r.value.body| == 2 * |body| + 17
  {
    match PlainBody(sender, body)
    case None => None
    case Some(plain) =>
      Some(ArchiveContent(TextMsgtype, plain, HtmlFormat,
                          Formatted(room, eventId, pill, QuoteBody(body, formattedBody, kind))))
  }

  /**
   * What a composed message says: a plain text that quotes the body, an HTML
   * body that links back to the original event and shows the sender's pill,
   * with the `m.text` type and the HTML format tag.
   */
  lemma ComposeContents(room: RoomId, eventId: EventId, sender: UserId, body: string,
                        formattedBody: Option<string>, kind: Kind, pill: string)
    ensures Compose(room, eventId, sender, body, formattedBody, kind, pill).Some? <==> sender != ""
    ensures sender != "" ==>
      var c := Compose(room, eventId, sender, body, formattedBody, kind, pill).value;
      c.msgtype == TextMsgtype && c.format == HtmlFormat &&
      Contains(c.body, body) &&
      FormattedOpening + Link(room, eventId) <= c.formattedBody &&
      Contains(c.formattedBody, pill) &&
      Contains(c.formattedBody, QuoteBody(body, formattedBody, kind))
  {
    if sender != "" {
      PlainBodyMentions(sender, body);
      FormattedEmbeds(room, eventId, pill, QuoteBody(body, formattedBody, kind));
    }
  }
}
