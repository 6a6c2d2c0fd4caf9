/**
 * `Message.parse`: turns a text into messages. The registered types are
 * sorted by parse priority, the first whose `isParsable` holds builds the
 * messages, and a plain text message is the fallback.
 */
module Parsing {
  import opened Wrappers
  import opened Platform
  import opened JavaStrings
  import opened Authors
  import opened MessageModel
  import opened Variants
  import opened Registry
  import opened Sorting
  import TextMessages
  import ImageMessages
  import PreviewMessages

  /** The `RuntimeException` the sort's comparator throws when a type cannot give its priority. */
  datatype ParseError = ComparatorThrew

  /** The sort key of a type (only used when every priority is known). */
  function Key(custom: CustomTypes, kind: Kind): int
  {
    Priority(custom, kind).GetOr(0)
  }

  function KeyOf(custom: CustomTypes): Kind -> int
  {
    kind => Key(custom, kind)
  }

  /**
   * `order` lists each key of the registry once: the iteration order of
   * the registry's key set, which the hash map decides.
   */
  ghost predicate IsEnumeration(order: seq<Kind>, keys: set<Kind>)
  {
    (forall i, j :: 0 <= i < j < |order| ==> order[i] != order[j]) && (forall k :: k in keys <==> k in order)
  }

  /**
   * Sorting two or more types compares every one of them, so one that
   * cannot give its priority makes the comparator throw.
   */
  predicate ComparatorThrows(custom: CustomTypes, order: seq<Kind>)
  {
    |order| >= 2 && exists i :: 0 <= i < |order| && Priority(custom, order[i]).None?
  }

  /** The messages of the first type, in `sorted`, that accepts the text. */
  function FirstAccepted(env: Env, custom: CustomTypes, sorted: seq<Kind>, author: Author,
                         sentOn: Option<Millis>, data: string): (r: Option<seq<Draft>>)
    ensures r.None? <==> forall i :: 0 <= i < |sorted| ==> !Try(env, custom, sorted[i], author, sentOn, data).Accepts?
    ensures r.Some? ==>
              exists i :: 0 <= i < |sorted| && Try(env, custom, sorted[i], author, sentOn, data) == Accepts(r.value)
                          && forall j :: 0 <= j < i ==> !Try(env, custom, sorted[j], author, sentOn, data).Accepts?
  {
    if sorted == [] then None
    else match Try(env, custom, sorted[0], author, sentOn, data)
      case Accepts(drafts) => Some(drafts)
      case _ =>
        var r := FirstAccepted(env, custom, sorted[1..], author, sentOn, data);
        if r.Some? then
          var i :| 0 <= i < |sorted[1..]| && Try(env, custom, sorted[1..][i], author, sentOn, data) == Accepts(r.value)
                   && forall j :: 0 <= j < i ==> !Try(env, custom, sorted[1..][j], author, sentOn, data).Accepts?;
          assert Try(env, custom, sorted[i + 1], author, sentOn, data) == Accepts(r.value);
          r
        else r
  }

  /** The fallback: the whole text as one text message, with the given date. */
  function Fallback(author: Author, sentOn: Option<Millis>, data: string): Draft
  {
    Draft(author, sentOn, TextBody(Some(data)))
  }

  /**
   * What `parse` returns for the registry enumerated as `order`: an error
   * when the sort throws; else the result of the first accepting type in
   * priority order, returned as it is (even when empty); else the fallback.
   */
  function Classify(env: Env, custom: CustomTypes, order: seq<Kind>, author: Author,
                    sentOn: Option<Millis>, data: string): (r: Result<seq<Draft>, ParseError>)
    ensures r.Err? <==> ComparatorThrows(custom, order)
    ensures r.Ok? ==>
              r.value == (match FirstAccepted(env, custom, SortBy(order, KeyOf(custom)), author, sentOn, data)
                          case Some(drafts) => drafts
                          case None => [Fallback(author, sentOn, data)])
  {
    if ComparatorThrows(custom, order) then Err(ComparatorThrew)
    else match FirstAccepted(env, custom, SortBy(order, KeyOf(custom)), author, sentOn, data)
      case Some(drafts) => Ok(drafts)
      case None => Ok([Fallback(author, sentOn, data)])
  }

  /** Creates one fresh message per draft, in order. */
  method Materialise(drafts: seq<Draft>) returns (msgs: seq<Message>)
    ensures |msgs| == |drafts|
    ensures forall i :: 0 <= i < |drafts| ==> fresh(msgs[i]) && msgs[i].Holds(drafts[i])
    ensures forall i, j :: 0 <= i < j < |msgs| ==> msgs[i] != msgs[j]
  {
    msgs := [];
    var i := 0;
    while i < |drafts|
      invariant 0 <= i <= |drafts| && |msgs| == i
      invariant forall k :: 0 <= k < i ==> fresh(msgs[k]) && msgs[k].Holds(drafts[k])
      invariant forall k, l :: 0 <= k < l < i ==> msgs[k] != msgs[l]
    {
      var m := new Message(drafts[i]);
      msgs := msgs + [m];
      i := i + 1;
    }
  }

  /**
   * `parse(context, author, sentOn, data)` over the registry, whose key set
   * iterates as `keyOrder`.
   */
  method Parse(env: Env, custom: CustomTypes, registry: MessageTypes, keyOrder: seq<Kind>,
               author: Author, sentOn: Option<Millis>, data: string)
    returns (r: Result<seq<Message>, ParseError>)
    requires registry.Valid() && IsEnumeration(keyOrder, registry.types.Keys)
    ensures r.Err? <==> Classify(env, custom, keyOrder, author, sentOn, data).Err?
    ensures r.Ok? ==>
              var drafts := Classify(env, custom, keyOrder, author, sentOn, data).value;
              && |r.value| == |drafts|
              && (forall i :: 0 <= i < |drafts| ==> fresh(r.value[i]) && r.value[i].Holds(drafts[i]))
              && (forall i, j :: 0 <= i < j < |drafts| ==> r.value[i] != r.value[j])
  {
    if ComparatorThrows(custom, keyOrder) {
      return Err(ComparatorThrew);
    }
    var sorted := SortBy(keyOrder, KeyOf(custom));
    var i := 0;
    while i < |sorted|
      invariant 0 <= i <= |sorted|
      invariant FirstAccepted(env, custom, sorted, author, sentOn, data)
                == FirstAccepted(env, custom, sorted[i..], author, sentOn, data)
    {
      assert sorted[i..][1..] == sorted[i + 1..];
      var attempt := Try(env, custom, sorted[i], author, sentOn, data);
      if attempt.Accepts? {
        var msgs := Materialise(attempt.drafts);
        return Ok(msgs);
      }
      i := i + 1;
    }
    var m := new Message(Draft(author, None, TextBody(None)));
    TextMessages.SetMessage(m, Some(data));
    m.SetSentOn(sentOn);
    return Ok([m]);
  }

  /** `parse(context, author, data)`: the same, dated now. */
  method ParseNow(env: Env, custom: CustomTypes, registry: MessageTypes, keyOrder: seq<Kind>,
                  author: Author, now: Millis, data: string)
    returns (r: Result<seq<Message>, ParseError>)
    requires registry.Valid() && IsEnumeration(keyOrder, registry.types.Keys)
    ensures r.Err? <==> Classify(env, custom, keyOrder, author, Some(now), data).Err?
    ensures r.Ok? ==>
              var drafts := Classify(env, custom, keyOrder, author, Some(now), data).value;
              && |r.value| == |drafts|
              && (forall i :: 0 <= i < |drafts| ==> fresh(r.value[i]) && r.value[i].Holds(drafts[i]))
  {
    r := Parse(env, custom, registry, keyOrder, author, Some(now), data);
  }

  const BUILT_INS: set<Kind> := {TextKind, ImageKind, PreviewKind}

  /** Whatever order the hash map lists the three built-ins in, they are tried image, preview, text. */
  lemma BuiltInSortOrder(custom: CustomTypes, order: seq<Kind>)
    requires IsEnumeration(order, BUILT_INS)
    ensures SortBy(order, KeyOf(custom)) == [ImageKind, PreviewKind, TextKind]
  {
    var key := KeyOf(custom);
    var reference := [TextKind, ImageKind, PreviewKind];
    assert DistinctKeys(order, key) by {
      forall i, j | 0 <= i < j < |order|
        ensures key(order[i]) != key(order[j])
      {
        assert order[i] in BUILT_INS && order[j] in BUILT_INS;
      }
    }
    DistinctKeysSortAlike(order, reference, key);
    assert key(TextKind) == INT_MAX && key(ImageKind) == 0 && key(PreviewKind) == 1;
    assert SortBy([PreviewKind], key) == [PreviewKind];
    assert SortBy([ImageKind, PreviewKind], key) == Insert(ImageKind, [PreviewKind], key) == [ImageKind, PreviewKind];
    assert reference[1..] == [ImageKind, PreviewKind];
    assert SortBy(reference, key) == Insert(TextKind, [ImageKind, PreviewKind], key);
  }

  /**
   * With only the built-ins registered, parsing tries image, then preview,
   * then falls back to text, and never fails.
   */
  lemma BuiltInClassification(env: Env, custom: CustomTypes, order: seq<Kind>, author: Author,
                              sentOn: Option<Millis>, data: string)
    requires IsEnumeration(order, BUILT_INS)
    ensures Classify(env, custom, order, author, sentOn, data) ==
              Ok(if ImageMessages.IsParsable(env, data) then ImageMessages.ParseMessage(env, author, data)
                 else if PreviewMessages.IsParsable(env, data) then PreviewMessages.ParseMessage(env, author, sentOn, data)
                 else [Fallback(author, sentOn, data)])
  {
    BuiltInSortOrder(custom, order);
    assert !ComparatorThrows(custom, order) by {
      forall i | 0 <= i < |order|
        ensures Priority(custom, order[i]).Some?
      {
        assert order[i] in BUILT_INS;
      }
    }
    var sorted := [ImageKind, PreviewKind, TextKind];
    assert sorted[1..] == [PreviewKind, TextKind] && sorted[1..][1..] == [TextKind] && [TextKind][1..] == [];
    var tryText := Try(env, custom, TextKind, author, sentOn, data);
    assert FirstAccepted(env, custom, [TextKind], author, sentOn, data) == None by {
      assert tryText == Declines;
    }
    var tail := FirstAccepted(env, custom, [PreviewKind, TextKind], author, sentOn, data);
    assert tail == (if PreviewMessages.IsParsable(env, data)
                    then Some(PreviewMessages.ParseMessage(env, author, sentOn, data)) else None);
  }

  /** With only the built-ins, every text gives one or two messages. */
  lemma BuiltInParseNeverEmpty(env: Env, custom: CustomTypes, order: seq<Kind>, author: Author,
                               sentOn: Option<Millis>, data: string)
    requires IsEnumeration(order, BUILT_INS)
    ensures Classify(env, custom, order, author, sentOn, data).Ok?
    ensures 1 <= |Classify(env, custom, order, author, sentOn, data).value| <= 2
  {
    BuiltInClassification(env, custom, order, author, sentOn, data);
    if ImageMessages.IsParsable(env, data) {
      ImageMessages.ParsableImageYieldsMessages(env, author, data);
    }
  }

  /** A text without a URL becomes one text message carrying it verbatim, with the given date. */
  lemma TextWithoutUrlIsText(env: Env, custom: CustomTypes, order: seq<Kind>, author: Author,
                             sentOn: Option<Millis>, data: string)
    requires IsEnumeration(order, BUILT_INS)
    requires forall w :: w in Split(data) ==> !env.isWebUrl(w)
    ensures Classify(env, custom, order, author, sentOn, data) == Ok([Draft(author, sentOn, TextBody(Some(data)))])
  {
    BuiltInClassification(env, custom, order, author, sentOn, data);
  }

  /** A text that is just an image URL becomes that image alone, undated. */
  lemma LoneImageUrlIsImage(env: Env, custom: CustomTypes, order: seq<Kind>, author: Author,
                            sentOn: Option<Millis>, url: string)
    requires IsEnumeration(order, BUILT_INS)
    requires ' ' !in url && env.isWebUrl(url) && ImageMessages.HasImageSuffix(url)
    ensures Classify(env, custom, order, author, sentOn, url) ==
              Ok([Draft(author, None, ImageBody(None, env.lastPathSegment(url), false, 1))])
  {
    BuiltInClassification(env, custom, order, author, sentOn, url);
    assert Split(url) == [url];
    assert IsFirstMatch(Split(url), env.isWebUrl, 0);
  }

  /**
   * A text whose first URL is an image, with other words around it,
   * becomes the whole text as a text message followed by the image.
   */
  lemma ImageUrlInTextSplits(env: Env, custom: CustomTypes, order: seq<Kind>, author: Author,
                             sentOn: Option<Millis>, data: string, i: nat)
    requires IsEnumeration(order, BUILT_INS)
    requires IsFirstMatch(Split(data), env.isWebUrl, i) && ImageMessages.HasImageSuffix(Split(data)[i])
    requires data != Split(data)[i]
    ensures Classify(env, custom, order, author, sentOn, data) ==
              Ok([Draft(author, None, TextBody(Some(data))),
                  Draft(author, None, ImageBody(None, env.lastPathSegment(Split(data)[i]), false, 1))])
  {
    var words := Split(data);
    BuiltInClassification(env, custom, order, author, sentOn, data);
    assert ImageMessages.IsParsable(env, data);
    assert ImageMessages.FirstImageUrlAt(env, words, i);
    var drafts := ImageMessages.ParseMessage(env, author, data);
    var k :| ImageMessages.FirstImageUrlAt(env, words, k) &&
             drafts == (if data == words[k] then [ImageMessages.ImageDraft(env, author, data)]
                        else [Draft(author, None, TextBody(Some(data))), ImageMessages.ImageDraft(env, author, words[k])]);
    assert k == i;
  }

  /**
   * A text whose first URL is not an image becomes a preview of that URL,
   * even when a later URL is an image.
   */
  lemma FirstUrlWithoutImageSuffixIsPreview(env: Env, custom: CustomTypes, order: seq<Kind>, author: Author,
                                            sentOn: Option<Millis>, data: string, i: nat)
    requires IsEnumeration(order, BUILT_INS)
    requires IsFirstMatch(Split(data), env.isWebUrl, i) && !ImageMessages.HasImageSuffix(Split(data)[i])
    ensures Classify(env, custom, order, author, sentOn, data) ==
              Ok([PreviewMessages.PreviewDraft(author, sentOn, Split(data)[i], data)])
  {
    var words := Split(data);
    BuiltInClassification(env, custom, order, author, sentOn, data);
    assert !ImageMessages.IsParsable(env, data);
    assert PreviewMessages.IsParsable(env, data);
    var k :| IsFirstMatch(words, env.isWebUrl, k) &&
             PreviewMessages.ParseMessage(env, author, sentOn, data) == [PreviewMessages.PreviewDraft(author, sentOn, words[k], data)];
    assert k == i;
  }

  /**
   * Types of equal priority are tried in the order the registry's key set
   * lists them, whatever order they were registered in.
   */
  lemma EqualPrioritiesFollowKeyOrder(custom: CustomTypes, order: seq<Kind>, p: int)
    ensures Filter(SortBy(order, KeyOf(custom)), KeyOf(custom), p) == Filter(order, KeyOf(custom), p)
  {
    SortByIsStable(order, KeyOf(custom), p);
  }

  /** Types are tried in ascending priority, and each registered type is tried exactly once. */
  lemma TriedInPriorityOrder(custom: CustomTypes, order: seq<Kind>)
    ensures Sorted(SortBy(order, KeyOf(custom)), KeyOf(custom))
    ensures multiset(SortBy(order, KeyOf(custom))) == multiset(order)
  {
    SortByIsOrderedPermutation(order, KeyOf(custom));
  }

  /**
   * An application type registered with the image priority and listed
   * before the image type by the key set is tried first, and its result is
   * returned even when it is empty.
   */
  lemma TieWithImageFollowsKeyOrder(env: Env, custom: CustomTypes, id: nat, author: Author,
                                    sentOn: Option<Millis>, data: string)
    requires custom.priority(id) == Some(ImageMessages.PRIORITY)
    requires custom.attempt(id, author, sentOn, data) == Accepts([])
    ensures Classify(env, custom, [CustomKind(id), TextKind, ImageKind, PreviewKind], author, sentOn, data) == Ok([])
  {
    var key := KeyOf(custom);
    var order := [CustomKind(id), TextKind, ImageKind, PreviewKind];
    assert key(CustomKind(id)) == 0 && key(TextKind) == INT_MAX && key(ImageKind) == 0 && key(PreviewKind) == 1;
    assert order[1..] == [TextKind, ImageKind, PreviewKind];
    assert IsEnumeration(order[1..], BUILT_INS);
    BuiltInSortOrder(custom, order[1..]);
    assert SortBy(order, key) == [CustomKind(id), ImageKind, PreviewKind, TextKind];
  }
}
