/**
 * `PreviewMessage`: a link preview card for the first URL in the text.
 * The parser builds a placeholder card; a background load then fills in
 * the page's picture, title and description, and the card shows a
 * spinner until that load has finished.
 */
module PreviewMessages {
  import opened Wrappers
  import opened Platform
  import opened JavaStrings
  import opened Authors
  import opened MessageModel

  /** Preview messages are tried after image messages. */
  const PRIORITY: int := 1
  /** The description of a card the load has not (successfully) enriched. */
  const TAP: string := "Tap to open in browser"
  /** URLs containing this are YouTube videos, whose thumbnail link is used as picture. */
  const YOUTUBE_WATCH: string := "youtube.com/watch?v="

  /** `isParsable`: some word is a URL. */
  function IsParsable(env: Env, value: string): (parsable: bool)
    ensures parsable <==> exists i :: 0 <= i < |Split(value)| && env.isWebUrl(Split(value)[i])
  {
    FindFirst(Split(value), env.isWebUrl).Some?
  }

  /** The placeholder card `parseMessage` builds for the URL `word`; its load has started. */
  function PreviewDraft(author: Author, sentOn: Option<Millis>, word: string, value: string): Draft
  {
    Draft(author, sentOn, PreviewBody(None, word, TAP, word, value, false, true))
  }

  /** `parseMessage`: one card for the first URL among the words, or nothing when there is none. */
  function ParseMessage(env: Env, author: Author, sentOn: Option<Millis>, value: string): (drafts: seq<Draft>)
    ensures drafts == [] <==> !IsParsable(env, value)
    ensures drafts != [] ==>
              exists i :: IsFirstMatch(Split(value), env.isWebUrl, i) &&
                drafts == [PreviewDraft(author, sentOn, Split(value)[i], value)]
  {
    var words := Split(value);
    match FindFirst(words, env.isWebUrl)
    case Some(i) => [PreviewDraft(author, sentOn, words[i], value)]
    case None => []
  }

  /** `path.substring(path.lastIndexOf("/") + 1)`: what follows the last slash, or all of it. */
  function LastSegment(path: string): (segment: string)
    ensures '/' !in segment
    ensures |segment| <= |path| && path[|path| - |segment|..] == segment
    ensures |segment| < |path| ==> path[|path| - |segment| - 1] == '/'
    decreases |path|
  {
    if path == [] || path[|path| - 1] == '/' then ""
    else LastSegment(path[..|path| - 1]) + [path[|path| - 1]]
  }

  /** A `<meta>` element: its `name` attribute, if it has one, and its `content` (empty when absent). */
  datatype Meta = Meta(name: Option<string>, content: string)
  /** An `<img>` element: whether it has a `src`, and what fetching that source gives. */
  datatype Img = Img(hasSrc: bool, fetched: Fetched)
  /**
   * A fetched page: its title, its body text, its meta and image elements,
   * and the outcome of fetching its thumbnail link (`None` when it has none).
   */
  datatype Page = Page(title: string, bodyText: string, metas: seq<Meta>, imgs: seq<Img>, thumbnail: Option<Fetched>)
  /**
   * Everything the load reads from the outside world: the URL's path
   * (`None` when it does not parse or has none), a video frame if the URL
   * is a video, and the page (`None` when it cannot be fetched).
   */
  datatype Sources = Sources(path: Option<string>, videoFrame: Option<Bitmap>, page: Option<Page>)

  /** What a successful load sets on the card. */
  datatype Enrichment = Enrichment(image: Option<Bitmap>, title: string, description: string)

  function Area(b: Bitmap): int
  {
    b.width * b.height
  }

  /**
   * One step of the largest-image loop. `None` is an exception: a source
   * that cannot be opened, or a later source that does not decode (its
   * size is then read from null).
   */
  function ImageStep(largest: Option<Bitmap>, img: Img): (r: Option<Option<Bitmap>>)
    ensures r.Some? && r.value.Some? && largest.Some? ==> Area(r.value.value) >= Area(largest.value)
  {
    if !img.hasSrc then Some(largest)
    else match img.fetched
      case IoFailure => None
      case Decoded(decoded) =>
        if largest.None? then Some(decoded)
        else if decoded.None? then None
        else if Area(decoded.value) > Area(largest.value) then Some(decoded)
        else Some(largest)
  }

  /** The largest-image loop run over `imgs`: `None` if it throws, else the image it keeps. */
  function ScanImages(imgs: seq<Img>): Option<Option<Bitmap>>
    decreases |imgs|
  {
    if imgs == [] then Some(None)
    else match ScanImages(imgs[..|imgs| - 1])
      case None => None
      case Some(largest) => ImageStep(largest, imgs[|imgs| - 1])
  }

  /** The image loop of the page load, element by element. */
  method PickLargestImage(imgs: seq<Img>) returns (outcome: Option<Option<Bitmap>>)
    ensures outcome == ScanImages(imgs)
  {
    var largest: Option<Bitmap> := None;
    var i := 0;
    while i < |imgs|
      invariant 0 <= i <= |imgs|
      invariant ScanImages(imgs[..i]) == Some(largest)
    {
      assert imgs[..i + 1][..i] == imgs[..i];
      var img := imgs[i];
      if largest.None? {
        if img.hasSrc {
          if img.fetched.IoFailure? {
            assert ScanImages(imgs[..i + 1]) == None;
            ScanFailureSticks(imgs, i + 1);
            return None;
          }
          largest := img.fetched.bitmap;
        }
        i := i + 1;
        continue;
      }
      if img.hasSrc {
        if img.fetched.IoFailure? || img.fetched.bitmap.None? {
          assert ScanImages(imgs[..i + 1]) == None;
          ScanFailureSticks(imgs, i + 1);
          return None;
        }
        var newImage := img.fetched.bitmap.value;
        if Area(newImage) > Area(largest.value) {
          largest := Some(newImage);
        }
      }
      i := i + 1;
    }
    assert imgs[..i] == imgs;
    outcome := Some(largest);
  }

  /** Once the loop has thrown, the rest of the elements do not matter. */
  lemma {:induction false} ScanFailureSticks(imgs: seq<Img>, n: nat)
    requires n <= |imgs| && ScanImages(imgs[..n]) == None
    ensures ScanImages(imgs) == None
    decreases |imgs| - n
  {
    if n < |imgs| {
      assert imgs[..n + 1][..n] == imgs[..n];
      ScanFailureSticks(imgs, n + 1);
    } else {
      assert imgs[..n] == imgs;
    }
  }

  /** An element with a source that decodes to a picture. */
  predicate Decodes(img: Img)
  {
    img.hasSrc && img.fetched.Decoded? && img.fetched.bitmap.Some?
  }

  /** Every element has a source that decodes to a picture. */
  predicate AllDecode(imgs: seq<Img>)
  {
    forall j :: 0 <= j < |imgs| ==> Decodes(imgs[j])
  }

  function Picture(img: Img): Bitmap
    requires img.fetched.Decoded? && img.fetched.bitmap.Some?
  {
    img.fetched.bitmap.value
  }

  /**
   * What the largest-image loop leaves, over any page. Elements without a
   * source are skipped. A source that cannot be opened aborts the load.
   * Sources that decode to nothing are kept as a null pick while nothing
   * has decoded yet, and abort the load afterwards. When a picture is kept,
   * it is the first of largest area among the elements that decode. When
   * every element decodes, a picture is always kept.
   */
  lemma LargestImageIsFirstMaximal(imgs: seq<Img>)
    ensures ScanImages(imgs).Some? ==> forall j :: 0 <= j < |imgs| && imgs[j].hasSrc ==> imgs[j].fetched.Decoded?
    ensures ScanImages(imgs) == Some(None) ==>
              forall j :: 0 <= j < |imgs| && imgs[j].hasSrc ==> imgs[j].fetched.bitmap.None?
    ensures ScanImages(imgs).Some? && ScanImages(imgs).value.Some? ==>
              exists k :: 0 <= k < |imgs| && Decodes(imgs[k]) && ScanImages(imgs) == Some(Some(Picture(imgs[k])))
                && (forall j :: 0 <= j < |imgs| && Decodes(imgs[j]) ==> Area(Picture(imgs[j])) <= Area(Picture(imgs[k])))
                && (forall j :: 0 <= j < k && Decodes(imgs[j]) ==> Area(Picture(imgs[j])) < Area(Picture(imgs[k])))
                && (forall j :: 0 <= j < |imgs| && imgs[j].hasSrc && !Decodes(imgs[j]) ==> j < k)
    ensures AllDecode(imgs) && imgs != [] ==> ScanImages(imgs).Some? && ScanImages(imgs).value.Some?
  {
    var k := ScanOfPrefix(imgs, |imgs|);
    assert imgs[..|imgs|] == imgs;
  }

  /** The loop's state after the first `n` elements, by induction on `n`; `k` is the index of its pick. */
  lemma {:induction false} ScanOfPrefix(imgs: seq<Img>, n: nat) returns (k: nat)
    requires n <= |imgs|
    ensures ScanImages(imgs[..n]).Some? ==> forall j :: 0 <= j < n && imgs[j].hasSrc ==> imgs[j].fetched.Decoded?
    ensures ScanImages(imgs[..n]) == Some(None) ==>
              forall j :: 0 <= j < n && imgs[j].hasSrc ==> imgs[j].fetched.bitmap.None?
    ensures ScanImages(imgs[..n]).Some? && ScanImages(imgs[..n]).value.Some? ==>
              && k < n && Decodes(imgs[k]) && ScanImages(imgs[..n]) == Some(Some(Picture(imgs[k])))
              && (forall j :: 0 <= j < n && Decodes(imgs[j]) ==> Area(Picture(imgs[j])) <= Area(Picture(imgs[k])))
              && (forall j :: 0 <= j < k && Decodes(imgs[j]) ==> Area(Picture(imgs[j])) < Area(Picture(imgs[k])))
              && (forall j :: 0 <= j < n && imgs[j].hasSrc && !Decodes(imgs[j]) ==> j < k)
    ensures 0 < n && (forall j :: 0 <= j < n ==> Decodes(imgs[j])) ==>
              ScanImages(imgs[..n]).Some? && ScanImages(imgs[..n]).value.Some?
    decreases n
  {
    if n == 0 {
      assert imgs[..0] == [];
      return 0;
    }
    var last := imgs[n - 1];
    assert imgs[..n][..n - 1] == imgs[..n - 1];
    assert imgs[..n][n - 1] == last;
    var prev := ScanImages(imgs[..n - 1]);
    assert ScanImages(imgs[..n]) == (if prev.None? then None else ImageStep(prev.value, last));
    k := ScanOfPrefix(imgs, n - 1);
    if prev.Some? && prev.value.None? && Decodes(last) {
      k := n - 1;
    } else if prev.Some? && prev.value.Some? && Decodes(last) && Area(Picture(last)) > Area(Picture(imgs[k])) {
      k := n - 1;
    }
  }

  /**
   * The picture a page gives: its thumbnail link for a YouTube video, else
   * its largest image; `None` when that step throws.
   */
  function PagePicture(url: string, page: Page): Option<Option<Bitmap>>
  {
    if Contains(url, YOUTUBE_WATCH) then Thumbnail(page.thumbnail) else ScanImages(page.imgs)
  }

  /** The YouTube branch: the thumbnail link's picture; no link, or a failed fetch, throws. */
  function Thumbnail(thumbnail: Option<Fetched>): (r: Option<Option<Bitmap>>)
    ensures r.Some? <==> thumbnail.Some? && thumbnail.value.Decoded?
    ensures r.Some? ==> r.value == thumbnail.value.bitmap
  {
    match thumbnail
    case Some(Decoded(b)) => Some(b)
    case _ => None
  }

  /** A meta element whose name is "description", in any letter case. */
  predicate IsDescriptionMeta(meta: Meta)
  {
    meta.name.Some? && EqualsIgnoreCaseAscii(meta.name.value, "description")
  }

  /** The page description: the content of the LAST description meta element, else the body text. */
  function Described(bodyText: string, metas: seq<Meta>): (description: string)
    ensures (forall j :: 0 <= j < |metas| ==> !IsDescriptionMeta(metas[j])) ==> description == bodyText
    ensures forall k :: 0 <= k < |metas| && IsDescriptionMeta(metas[k]) &&
                        (forall j :: k < j < |metas| ==> !IsDescriptionMeta(metas[j]))
                        ==> description == metas[k].content
    decreases |metas|
  {
    if metas == [] then bodyText
    else if IsDescriptionMeta(metas[|metas| - 1]) then metas[|metas| - 1].content
    else Described(bodyText, metas[..|metas| - 1])
  }

  /** The meta loop of the page load, element by element. */
  method ScanDescription(bodyText: string, metas: seq<Meta>) returns (description: string)
    ensures description == Described(bodyText, metas)
  {
    description := bodyText;
    var i := 0;
    while i < |metas|
      invariant 0 <= i <= |metas|
      invariant description == Described(bodyText, metas[..i])
    {
      assert metas[..i + 1][..i] == metas[..i];
      if metas[i].name.Some? && EqualsIgnoreCaseAscii(metas[i].name.value, "description") {
        description := metas[i].content;
      }
      i := i + 1;
    }
    assert metas[..i] == metas;
  }

  /**
   * The outcome of the background load for the card's `url`: `None` when
   * it throws (the card keeps its placeholder), else what it sets.
   */
  function Enrich(url: string, sources: Sources): (r: Option<Enrichment>)
    ensures sources.path.None? ==> r.None?
    ensures sources.path.Some? && sources.videoFrame.None? && sources.page.Some? ==>
              && (r.Some? <==> PagePicture(url, sources.page.value).Some?)
              && (r.Some? ==> r.value.image == PagePicture(url, sources.page.value).value)
    ensures sources.path.Some? && sources.videoFrame.Some? ==>
              r == Some(Enrichment(sources.videoFrame, LastSegment(sources.path.value), TAP))
    ensures sources.videoFrame.None? && sources.page.None? ==> r.None?
    ensures r.Some? && sources.videoFrame.None? ==>
              && sources.page.Some?
              && (r.value.title == url <==> IsBlank(sources.page.value.title) || sources.page.value.title == url)
              && (r.value.title != url ==> r.value.title == sources.page.value.title)
              && r.value.description ==
                   (if r.value.title == url then url
                    else Described(sources.page.value.bodyText, sources.page.value.metas))
  {
    if sources.path.None? then None
    else if sources.videoFrame.Some? then
      Some(Enrichment(sources.videoFrame, LastSegment(sources.path.value), TAP))
    else if sources.page.None? then None
    else
      var page := sources.page.value;
      var picked := PagePicture(url, page);
      if picked.None? then None
      else
        var title := if IsBlank(page.title) then url else page.title;
        var description := if title == url then url else Described(page.bodyText, page.metas);
        Some(Enrichment(picked.value, title, description))
  }

  /**
   * A page that is not a YouTube video gives its largest image: a source
   * that cannot be opened fails the whole load, and a picture the load
   * sets is one of the page's decoded images, none of which is larger.
   */
  lemma PageGivesLargestImage(url: string, sources: Sources)
    requires sources.path.Some? && sources.videoFrame.None? && sources.page.Some?
    requires !Contains(url, YOUTUBE_WATCH)
    ensures var imgs := sources.page.value.imgs;
            (exists j :: 0 <= j < |imgs| && imgs[j].hasSrc && imgs[j].fetched.IoFailure?) ==> Enrich(url, sources).None?
    ensures var imgs := sources.page.value.imgs; var r := Enrich(url, sources);
            r.Some? && r.value.image.Some? ==>
              exists k :: 0 <= k < |imgs| && Decodes(imgs[k]) && r.value.image.value == Picture(imgs[k])
                && forall j :: 0 <= j < |imgs| && Decodes(imgs[j]) ==> Area(Picture(imgs[j])) <= Area(Picture(imgs[k]))
  {
    LargestImageIsFirstMaximal(sources.page.value.imgs);
  }

  /** The payload once the load has finished: always loaded, enriched when the load did not throw. */
  function AfterPreviewLoad(body: Body, enrichment: Option<Enrichment>): (r: Body)
    requires body.PreviewBody?
    ensures r.PreviewBody? && r.loaded && !r.fetching
    ensures r.url == body.url && r.text == body.text
    ensures enrichment.None? ==> r.image == body.image && r.title == body.title && r.content == body.content
    ensures enrichment.Some? ==> r.image == enrichment.value.image && r.title == enrichment.value.title
                                  && r.content == enrichment.value.description
  {
    match enrichment
    case None => PreviewBody(body.image, body.title, body.content, body.url, body.text, true, false)
    case Some(e) => PreviewBody(e.image, e.title, e.description, body.url, body.text, true, false)
  }

  /** The reading part of `loadAsync`: the page's picture, title and description, `None` when it throws. */
  method ReadSources(url: string, sources: Sources) returns (enrichment: Option<Enrichment>)
    ensures enrichment == Enrich(url, sources)
  {
    if sources.path.None? {
      return None;
    }
    if sources.videoFrame.Some? {
      return Some(Enrichment(sources.videoFrame, LastSegment(sources.path.value), TAP));
    }
    if sources.page.None? {
      return None;
    }
    var page := sources.page.value;
    var picked;
    if Contains(url, YOUTUBE_WATCH) {
      picked := Thumbnail(page.thumbnail);
    } else {
      picked := PickLargestImage(page.imgs);
    }
    if picked.None? {
      return None;
    }
    var title := page.title;
    if IsBlank(title) {
      title := url;
    }
    var description;
    if title == url {
      description := url;
    } else {
      description := ScanDescription(page.bodyText, page.metas);
    }
    enrichment := Some(Enrichment(picked.value, title, description));
  }

  /**
   * `loadAsync` run to its end: the page is read with the two loops, the
   * card is updated, and the adapter it belongs to (if any) is notified.
   */
  method LoadPreview(m: Message, sources: Sources)
    requires m.body.PreviewBody? && m.body.fetching
    modifies m, m.adapter
    ensures m.body == AfterPreviewLoad(old(m.body), Enrich(old(m.body.url), sources))
    ensures m.adapter == old(m.adapter)
    ensures m.adapter != null ==> m.adapter.notifications == old(m.adapter.notifications) + 1
    ensures m.sentOn == old(m.sentOn) && m.position == old(m.position)
  {
    var enrichment := ReadSources(m.body.url, sources);
    m.body := AfterPreviewLoad(m.body, enrichment);
    if m.adapter != null {
      m.adapter.NotifyDataSetChanged();
    }
  }

  /** How `bindView` lays out the title and description of a loaded card. */
  datatype Headings =
    | HeadingsGone
    | HeadingsShown(title: string, description: string, titleClampedToTwoLines: bool)

  /** What `bindView` shows: the spinner, or the card with its picture, headings and the message text. */
  datatype PreviewView =
    | PreviewLoading
    | PreviewShown(image: Option<Bitmap>, headings: Headings, text: string)

  function Shown(body: Body): (view: PreviewView)
    requires body.PreviewBody?
    ensures view.PreviewLoading? <==> !body.loaded
    ensures view.PreviewShown? ==> view.image == body.image && view.text == body.text
    ensures view.PreviewShown? ==>
              (view.headings.HeadingsGone? <==> body.content == body.url && body.title == body.url)
    ensures view.PreviewShown? && view.headings.HeadingsShown? ==>
              view.headings.title == body.title && view.headings.description == body.content
              && (view.headings.titleClampedToTwoLines <==> body.title == body.url)
  {
    if !body.loaded then PreviewLoading
    else if body.content == body.url && body.title == body.url then PreviewShown(body.image, HeadingsGone, body.text)
    else PreviewShown(body.image, HeadingsShown(body.title, body.content, body.title == body.url), body.text)
  }

  /** A word of the text never contains a space, so it is never the placeholder description. */
  lemma WordIsNotPlaceholder(word: string)
    requires ' ' !in word
    ensures word != TAP
  {
    assert TAP[3] == ' ';
  }

  /** A freshly parsed card shows the spinner. */
  lemma ParsedPreviewShowsSpinner(author: Author, sentOn: Option<Millis>, word: string, value: string)
    ensures Shown(PreviewDraft(author, sentOn, word, value).body) == PreviewLoading
  {
  }

  /**
   * A card whose load throws shows the URL as a two-line title over the
   * placeholder description.
   */
  lemma FailedLoadShowsPlaceholder(author: Author, sentOn: Option<Millis>, word: string, value: string)
    requires ' ' !in word
    ensures Shown(AfterPreviewLoad(PreviewDraft(author, sentOn, word, value).body, None))
            == PreviewShown(None, HeadingsShown(word, TAP, true), value)
  {
    WordIsNotPlaceholder(word);
  }

  /** A page with a blank title shows neither title nor description, only the picture and the text. */
  lemma BlankPageTitleHidesHeadings(author: Author, sentOn: Option<Millis>, word: string, value: string, sources: Sources)
    requires sources.path.Some? && sources.videoFrame.None? && sources.page.Some?
    requires IsBlank(sources.page.value.title)
    requires Enrich(word, sources).Some?
    ensures Shown(AfterPreviewLoad(PreviewDraft(author, sentOn, word, value).body, Enrich(word, sources))).headings
            == HeadingsGone
  {
  }

  /** A video link shows its frame, titled with the last segment of its path over the placeholder. */
  lemma VideoShowsFrameAndSegment(author: Author, sentOn: Option<Millis>, word: string, value: string,
                                  sources: Sources)
    requires ' ' !in word && sources.path.Some? && sources.videoFrame.Some?
    ensures var segment := LastSegment(sources.path.value);
            Shown(AfterPreviewLoad(PreviewDraft(author, sentOn, word, value).body, Enrich(word, sources)))
            == PreviewShown(sources.videoFrame, HeadingsShown(segment, TAP, segment == word), value)
  {
    WordIsNotPlaceholder(word);
  }
}
