/**
 * The common part of every message: its author, the date it was sent on,
 * and the adapter and position it is shown at. The variant-specific payload
 * is a `Body` value held in the same object, so the setters of each variant
 * update the message in place.
 */
module MessageModel {
  import opened Wrappers
  import opened Platform
  import opened Authors

  /** `Integer.MAX_VALUE`, the default parse priority (tried last). */
  const INT_MAX: int := 0x7fff_ffff
  /** The default minimum width and height of a message container. */
  const DEFAULT_MIN_SIZE: int := 50

  /** A registered message type: the three built-ins, or a type registered by the application. */
  datatype Kind = TextKind | ImageKind | PreviewKind | CustomKind(id: nat)

  /** The payload of each variant, with the fields its setters and loaders update. */
  datatype Body =
    | TextBody(message: Option<string>)
    | ImageBody(image: Option<Bitmap>, name: Option<string>, loaded: bool, fetchesInFlight: nat)
    | PreviewBody(image: Option<Bitmap>, title: string, content: string, url: string, text: string,
                  loaded: bool, fetching: bool)
    | CustomBody(id: nat)
  {
    function Kind(): Kind
    {
      match this
      case TextBody(_) => TextKind
      case ImageBody(_, _, _, _) => ImageKind
      case PreviewBody(_, _, _, _, _, _, _) => PreviewKind
      case CustomBody(id) => CustomKind(id)
    }
  }

  /** A message a parser decided to build, before it is materialised as an object. */
  datatype Draft = Draft(author: Author, sentOn: Option<Millis>, body: Body)

  class Message {
    const author: Author
    var sentOn: Option<Millis>
    var position: int
    /** The adapter this message was last handed out by (`null` until then). */
    var adapter: Notifier?
    var body: Body

    constructor (draft: Draft)
      ensures Holds(draft)
    {
      author := draft.author;
      sentOn := draft.sentOn;
      body := draft.body;
      position := 0;
      adapter := null;
    }

    function Kind(): Kind
      reads this
    {
      body.Kind()
    }

    /** A fresh message built from `draft`, not yet handed out by any adapter. */
    predicate Holds(draft: Draft)
      reads this
    {
      author == draft.author && sentOn == draft.sentOn && body == draft.body && position == 0 && adapter == null
    }

    /** `setSentOn`: `None` stands for a null date. */
    method SetSentOn(date: Option<Millis>)
      modifies this
      ensures sentOn == date
      ensures position == old(position) && adapter == old(adapter) && body == old(body)
    {
      sentOn := date;
    }

    /** `getSentOn`: the date it was sent on, or the current time when none was set. */
    function SentOn(now: Millis): (date: Millis)
      reads this
      ensures sentOn.Some? ==> date == sentOn.value
      ensures sentOn.None? ==> date == now
    {
      sentOn.GetOr(now)
    }

    method SetPosition(position: int)
      modifies this
      ensures this.position == position
      ensures sentOn == old(sentOn) && adapter == old(adapter) && body == old(body)
    {
      this.position := position;
    }

    method SetAdapter(adapter: Notifier?)
      modifies this
      ensures this.adapter == adapter
      ensures sentOn == old(sentOn) && position == old(position) && body == old(body)
    {
      this.adapter := adapter;
    }
  }

  /**
   * `getPadding`: one padding on all four edges (left, top, right, bottom).
   * The base class uses the text padding; images and previews override it
   * with their own parameter in the same shape.
   */
  function EdgePadding(padding: int): (edges: seq<int>)
    ensures |edges| == 4 && forall i :: 0 <= i < 4 ==> edges[i] == padding
  {
    [padding, padding, padding, padding]
  }
}
