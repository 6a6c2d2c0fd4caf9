/**
 * `ImageMessage`: a picture fetched from a URL found in the text. Its
 * parser looks at the space-separated words; its `loaded` flag drives
 * which of the picture and the loading spinner is visible.
 */
module ImageMessages {
  import opened Wrappers
  import opened Platform
  import opened JavaStrings
  import opened Authors
  import opened MessageModel

  /** Image messages are tried first. */
  const PRIORITY: int := 0

  /** The suffixes that mark a URL as an image, compared case-sensitively. */
  predicate HasImageSuffix(word: string)
  {
    EndsWith(word, "png") || EndsWith(word, "jpg") || EndsWith(word, "bmp") || EndsWith(word, "jpeg")
  }

  /** The word at `i` is the first URL with an image suffix among `words`. */
  predicate FirstImageUrlAt(env: Env, words: seq<string>, i: int)
  {
    && 0 <= i < |words| && env.isWebUrl(words[i]) && HasImageSuffix(words[i])
    && forall j :: 0 <= j < i ==> !(env.isWebUrl(words[j]) && HasImageSuffix(words[j]))
  }

  /**
   * `isParsable`: only the FIRST URL among the words decides; the value is
   * an image message exactly when that URL has an image suffix.
   */
  function IsParsable(env: Env, value: string): (parsable: bool)
    ensures parsable <==> exists i :: IsFirstMatch(Split(value), env.isWebUrl, i) && HasImageSuffix(Split(value)[i])
  {
    var words := Split(value);
    match FindFirst(words, env.isWebUrl)
    case Some(i) => assert IsFirstMatch(words, env.isWebUrl, i); HasImageSuffix(words[i])
    case None => false
  }

  /** The image message built for `word`: its name is the URL's last path segment and its fetch has started. */
  function ImageDraft(env: Env, author: Author, word: string): Draft
  {
    Draft(author, None, ImageBody(None, env.lastPathSegment(word), false, 1))
  }

  /**
   * `parseMessage`: for the first URL with an image suffix, the image alone
   * when it is the whole value, otherwise the whole value as text followed
   * by the image; nothing when no word qualifies. The date is not used.
   */
  function ParseMessage(env: Env, author: Author, value: string): (drafts: seq<Draft>)
    ensures drafts == [] <==> forall i :: 0 <= i < |Split(value)| ==> !(env.isWebUrl(Split(value)[i]) && HasImageSuffix(Split(value)[i]))
    ensures drafts != [] ==>
              exists i :: FirstImageUrlAt(env, Split(value), i) &&
                drafts == (if value == Split(value)[i] then [ImageDraft(env, author, value)]
                           else [Draft(author, None, TextBody(Some(value))), ImageDraft(env, author, Split(value)[i])])
    ensures forall d :: d in drafts ==> d.author == author && d.sentOn.None?
  {
    var words := Split(value);
    match FindFirst(words, (w: string) => env.isWebUrl(w) && HasImageSuffix(w))
    case Some(i) =>
      assert FirstImageUrlAt(env, words, i);
      if value == words[i] then [ImageDraft(env, author, value)]
      else [Draft(author, None, TextBody(Some(value))), ImageDraft(env, author, words[i])]
    case None => []
  }

  /** Whenever `isParsable` holds, `parseMessage` finds that same first URL, so it returns one or two messages. */
  lemma ParsableImageYieldsMessages(env: Env, author: Author, value: string)
    requires IsParsable(env, value)
    ensures 1 <= |ParseMessage(env, author, value)| <= 2
    ensures exists i :: IsFirstMatch(Split(value), env.isWebUrl, i) &&
              ParseMessage(env, author, value)[|ParseMessage(env, author, value)| - 1] == ImageDraft(env, author, Split(value)[i])
  {
    var words := Split(value);
    var drafts := ParseMessage(env, author, value);
    var i :| IsFirstMatch(words, env.isWebUrl, i) && HasImageSuffix(words[i]);
    assert env.isWebUrl(words[i]) && HasImageSuffix(words[i]);
    assert drafts != [];
    var k :| FirstImageUrlAt(env, words, k) &&
             drafts == (if value == words[k] then [ImageDraft(env, author, value)]
                        else [Draft(author, None, TextBody(Some(value))), ImageDraft(env, author, words[k])]);
    assert 0 <= k < |words| && env.isWebUrl(words[k]);
    assert IsFirstMatch(words, env.isWebUrl, k);
  }

  /** `getRadius`: the top-from radius on all four corners. */
  function Radius(messageRadiusPx: seq<real>): (radii: seq<real>)
    requires |messageRadiusPx| == 4
    ensures |radii| == 4 && forall c :: 0 <= c < 4 ==> radii[c] == messageRadiusPx[0]
  {
    [messageRadiusPx[0], messageRadiusPx[0], messageRadiusPx[0], messageRadiusPx[0]]
  }

  /** `getMinWidth` and `getMinHeight`: images have no minimum size. */
  const MIN_SIZE: int := 0

  /** `setName`. */
  method SetName(m: Message, name: Option<string>)
    requires m.body.ImageBody?
    modifies m
    ensures m.body == ImageBody(old(m.body.image), name, old(m.body.loaded), old(m.body.fetchesInFlight))
    ensures m.sentOn == old(m.sentOn) && m.position == old(m.position) && m.adapter == old(m.adapter)
  {
    m.body := ImageBody(m.body.image, name, m.body.loaded, m.body.fetchesInFlight);
  }

  /** `setImage(Bitmap)`: the picture is known, so the message counts as loaded at once. */
  method SetImageBitmap(m: Message, image: Option<Bitmap>)
    requires m.body.ImageBody?
    modifies m
    ensures m.body == ImageBody(image, old(m.body.name), true, old(m.body.fetchesInFlight))
    ensures Shown(m.body) == ImageVisible(image)
    ensures m.sentOn == old(m.sentOn) && m.position == old(m.position) && m.adapter == old(m.adapter)
  {
    m.body := ImageBody(image, m.body.name, true, m.body.fetchesInFlight);
  }

  /** `setImage(String)`: starts a fetch; the message is not loaded until a fetch completes. */
  method SetImageUrl(m: Message)
    requires m.body.ImageBody?
    modifies m
    ensures m.body == ImageBody(old(m.body.image), old(m.body.name), old(m.body.loaded), old(m.body.fetchesInFlight) + 1)
    ensures m.sentOn == old(m.sentOn) && m.position == old(m.position) && m.adapter == old(m.adapter)
  {
    m.body := ImageBody(m.body.image, m.body.name, m.body.loaded, m.body.fetchesInFlight + 1);
  }

  /**
   * The payload after a fetch completes: the decoded picture, or null after
   * an I/O failure; the message turns loaded only if it had been handed out
   * by an adapter by the time the callback runs.
   */
  function AfterImageLoad(body: Body, fetched: Fetched, attached: bool): (r: Body)
    requires body.ImageBody? && body.fetchesInFlight > 0
    ensures r.ImageBody? && r.name == body.name && r.fetchesInFlight == body.fetchesInFlight - 1
    ensures r.image == (if fetched.Decoded? then fetched.bitmap else None)
    ensures r.loaded == (body.loaded || attached)
  {
    ImageBody(if fetched.Decoded? then fetched.bitmap else None, body.name,
              body.loaded || attached, body.fetchesInFlight - 1)
  }

  /** A fetch started by `setImage(String)` completes, and its callback runs. */
  method CompleteImageLoad(m: Message, fetched: Fetched)
    requires m.body.ImageBody? && m.body.fetchesInFlight > 0
    modifies m, m.adapter
    ensures m.body == AfterImageLoad(old(m.body), fetched, old(m.adapter) != null)
    ensures m.adapter == old(m.adapter)
    ensures m.adapter != null ==> m.adapter.notifications == old(m.adapter.notifications) + 1
    ensures m.sentOn == old(m.sentOn) && m.position == old(m.position)
  {
    var image := if fetched.Decoded? then fetched.bitmap else None;
    m.body := ImageBody(image, m.body.name, m.body.loaded, m.body.fetchesInFlight - 1);
    if m.adapter != null {
      m.body := ImageBody(image, m.body.name, true, m.body.fetchesInFlight);
      m.adapter.NotifyDataSetChanged();
    }
  }

  /** What `bindView` shows: the picture, or the loading spinner. */
  datatype ImageView = ImageVisible(image: Option<Bitmap>) | LoadingVisible

  function Shown(body: Body): (view: ImageView)
    requires body.ImageBody?
    ensures view.ImageVisible? <==> body.loaded
    ensures view.ImageVisible? ==> view.image == body.image
  {
    if body.loaded then ImageVisible(body.image) else LoadingVisible
  }

  /** A message the parser builds shows the spinner, and shows the fetched picture once its fetch completes while attached. */
  lemma ParsedImageShowsPictureOnceLoaded(env: Env, author: Author, word: string, bitmap: Bitmap)
    ensures Shown(ImageDraft(env, author, word).body) == LoadingVisible
    ensures Shown(AfterImageLoad(ImageDraft(env, author, word).body, Decoded(Some(bitmap)), true)) == ImageVisible(Some(bitmap))
  {
  }

  /** A message no adapter has handed out keeps its spinner, whatever its fetches deliver. */
  lemma {:induction false} DetachedImageStaysLoading(body: Body, outcomes: seq<Fetched>)
    requires body.ImageBody? && !body.loaded && body.fetchesInFlight >= |outcomes|
    ensures Shown(Loads(body, outcomes)) == LoadingVisible
    decreases |outcomes|
  {
    if outcomes != [] {
      DetachedImageStaysLoading(AfterImageLoad(body, outcomes[0], false), outcomes[1..]);
    }
  }

  /** The payload after the given fetches complete in order, none of them attached. */
  function Loads(body: Body, outcomes: seq<Fetched>): (r: Body)
    requires body.ImageBody? && body.fetchesInFlight >= |outcomes|
    ensures r.ImageBody?
    decreases |outcomes|
  {
    if outcomes == [] then body
    else Loads(AfterImageLoad(body, outcomes[0], false), outcomes[1..])
  }
}
