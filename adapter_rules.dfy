/**
 * The decisions `MessageThreadListAdapter` takes while laying out a row,
 * as functions of the values they depend on: the container's corner radii,
 * the avatar's corner, the date label and the date header, the tap toggle
 * of the date label, the view type of a row, and the order `addToTop`
 * leaves the list in.
 */
module AdapterRules {
  import opened Wrappers
  import opened Platform
  import opened Dates
  import opened Authors
  import opened MessageModel
  import opened Parameters
  import Variants
  import ImageMessages
  import PreviewMessages

  // ---- Container corner radii ----

  /**
   * The eight values `GradientDrawable.setCornerRadii` takes (x and y of
   * the top-left, top-right, bottom-right and bottom-left corners) built
   * from a message's four radii.
   */
  function ContainerRadii(source: Source, radii: seq<real>): (corners: seq<real>)
    requires |radii| == 4
    ensures |corners| == 8
    ensures source == Other ==> forall i :: 0 <= i < 8 ==> corners[i] == radii[i / 2]
  {
    if source == Self then [radii[1], radii[1], radii[0], radii[0], radii[3], radii[3], radii[2], radii[2]]
    else [radii[0], radii[0], radii[1], radii[1], radii[2], radii[2], radii[3], radii[3]]
  }

  /** The corners of a drawable flipped left to right. */
  function Mirror(corners: seq<real>): (flipped: seq<real>)
    requires |corners| == 8
    ensures |flipped| == 8
  {
    corners[2..4] + corners[0..2] + corners[6..8] + corners[4..6]
  }

  /** An outgoing bubble is the incoming bubble flipped left to right. */
  lemma OutgoingMirrorsIncoming(radii: seq<real>)
    requires |radii| == 4
    ensures ContainerRadii(Self, radii) == Mirror(ContainerRadii(Other, radii))
  {
  }

  /** An incoming text bubble has exactly the doubled radii of the parameters. */
  lemma IncomingTextUsesDoubledRadii(params: MessageParameters)
    ensures ContainerRadii(Other, Variants.Radius(TextKind, params)) == params.MessageRadiusPxDoubled()
  {
  }

  /** An image bubble is rounded alike on every corner, whichever side it is on. */
  lemma ImageBubbleIsUniform(source: Source, params: MessageParameters)
    ensures forall i :: 0 <= i < 8 ==>
              ContainerRadii(source, Variants.Radius(ImageKind, params))[i] == params.messageRadiusTopFrom
  {
  }

  // ---- Avatar ----

  /**
   * The avatar's corner radius in pixels, by shape code: round-square is
   * 10 px on outgoing rows but 8 dp on incoming ones, square is 0, and any
   * other code makes a circle of the avatar's size.
   */
  function AvatarCorner(source: Source, shape: int, dp8: int, avatarPx: int): (corner: int)
    ensures shape == 1 ==> corner == 0
    ensures shape != 1 && shape != 2 ==> corner == Quot(avatarPx, 2)
    ensures shape == 2 ==> corner == (if source == Self then 10 else dp8)
  {
    if shape == 2 then (if source == Self then 10 else dp8)
    else if shape == 1 then 0
    else Quot(avatarPx, 2)
  }

  // ---- Date label ----

  /**
   * The date under a row shows when the user tapped it open, or when it is
   * the last row and more than one minute old.
   */
  function DateLabelVisible(visibleDates: seq<int>, position: int, count: int, minutesAgo: int): (visible: bool)
    ensures visible <==> position in visibleDates || (position == count - 1 && minutesAgo > 1)
  {
    position in visibleDates || (position == count - 1 && minutesAgo > 1)
  }

  /** `ArrayList.remove(Object)`: drops the first occurrence, if any. */
  function RemoveFirst(s: seq<int>, x: int): (r: seq<int>)
    ensures x !in s ==> r == s
    ensures x in s ==> |r| == |s| - 1 && multiset(r) == multiset(s) - multiset{x}
  {
    if s == [] then []
    else
      assert s == [s[0]] + s[1..];
      if s[0] == x then s[1..] else [s[0]] + RemoveFirst(s[1..], x)
  }

  /**
   * A tap on a row's date: a shown label is hidden and its position
   * forgotten (one entry of it), a hidden one is shown and remembered.
   */
  function Tap(visibleDates: seq<int>, position: int, shown: bool): (pinned: seq<int>)
    ensures shown ==> multiset(pinned) == multiset(visibleDates) - multiset{position}
    ensures !shown ==> multiset(pinned) == multiset(visibleDates) + multiset{position}
    ensures !shown ==> |pinned| == |visibleDates| + 1 && pinned[..|visibleDates|] == visibleDates && pinned[|visibleDates|..] == [position]
  {
    if shown then RemoveFirst(visibleDates, position) else visibleDates + [position]
  }

  lemma {:induction false} RemoveFirstOfAppended(s: seq<int>, x: int)
    requires x !in s
    ensures RemoveFirst(s + [x], x) == s
  {
    if s != [] {
      assert (s + [x])[1..] == s[1..] + [x];
      RemoveFirstOfAppended(s[1..], x);
    }
  }

  /** Tapping a hidden date twice leaves the remembered dates as they were. */
  lemma TapTwiceRestores(visibleDates: seq<int>, position: int, count: int, minutesAgo: int)
    requires !DateLabelVisible(visibleDates, position, count, minutesAgo)
    ensures Tap(Tap(visibleDates, position, false), position, true) == visibleDates
  {
    RemoveFirstOfAppended(visibleDates, position);
  }

  /**
   * The last row's date, shown because of its age, is hidden by a tap
   * without any entry changing; a second tap remembers the position.
   */
  lemma TapTwiceOnAgedLastRowRemembersIt(visibleDates: seq<int>, position: int, count: int, minutesAgo: int)
    requires position !in visibleDates && DateLabelVisible(visibleDates, position, count, minutesAgo)
    ensures Tap(visibleDates, position, true) == visibleDates
    ensures Tap(Tap(visibleDates, position, true), position, false) == visibleDates + [position]
  {
  }

  // ---- Date header ----

  /**
   * The header above a row: never when disabled, always above the first
   * row (no previous message), else when at least `separation` whole
   * minutes lie between the previous message and this one.
   */
  function HeaderVisible(enabled: bool, previous: Option<Millis>, current: Millis, separation: int): (visible: bool)
    ensures visible ==> enabled
    ensures enabled && previous.None? ==> visible
    ensures enabled && previous.Some? ==>
              (visible <==> Abs(current - previous.value) >= separation * MILLIS_PER_MINUTE)
  {
    enabled && (previous.None? || MinutesBetween(previous.value, current) >= separation)
  }

  /** A header marks a gap of at least `separation` minutes, measured in milliseconds either way. */
  lemma HeaderMarksGaps(previous: Millis, current: Millis, separation: int)
    ensures HeaderVisible(true, Some(previous), current, separation)
            <==> Abs(current - previous) >= separation * MILLIS_PER_MINUTE
  {
    var m := MinutesBetween(previous, current);
    MinutesBetweenSymmetric(previous, current);
    if m >= separation {
      assert m * MILLIS_PER_MINUTE >= separation * MILLIS_PER_MINUTE;
    } else {
      assert m + 1 <= separation;
      assert (m + 1) * MILLIS_PER_MINUTE <= separation * MILLIS_PER_MINUTE;
    }
  }

  /**
   * Messages at t, one minute later and twenty minutes later, with a ten
   * minute separation: headers above the first and the third only.
   */
  lemma HeaderScenario(t: Millis)
    ensures HeaderVisible(true, None, t, 10)
    ensures !HeaderVisible(true, Some(t), t + MILLIS_PER_MINUTE, 10)
    ensures HeaderVisible(true, Some(t + MILLIS_PER_MINUTE), t + 20 * MILLIS_PER_MINUTE, 10)
  {
    HeaderMarksGaps(t, t + MILLIS_PER_MINUTE, 10);
    HeaderMarksGaps(t + MILLIS_PER_MINUTE, t + 20 * MILLIS_PER_MINUTE, 10);
  }

  // ---- View types ----

  /**
   * `getItemViewType`: incoming rows use the type's id, outgoing rows the
   * id shifted by half of `getViewTypeCount()`, that is by the type count.
   */
  function ViewType(source: Source, id: int, typeCount: int): (viewType: int)
    ensures 0 <= id < typeCount && source == Other ==> 0 <= viewType < typeCount
    ensures 0 <= id < typeCount && source == Self ==> typeCount <= viewType < 2 * typeCount
  {
    if source == Other then id else typeCount + id
  }

  /** Ids below `next`, distinct per type: what the registry guarantees. */
  predicate IdsValid(types: map<Kind, int>, next: int)
  {
    && (forall k :: k in types ==> 0 <= types[k] < next)
    && (forall k1, k2 :: k1 in types && k2 in types && k1 != k2 ==> types[k1] != types[k2])
  }

  /**
   * While no type was registered twice (so the counter equals the type
   * count), every row's view type is below `getViewTypeCount()` and
   * different (type, side) pairs get different view types.
   */
  lemma ViewTypesFitWithoutReRegistration(types: map<Kind, int>, k1: Kind, s1: Source, k2: Kind, s2: Source)
    requires IdsValid(types, |types|) && k1 in types && k2 in types
    ensures 0 <= ViewType(s1, types[k1], |types|) < 2 * |types|
    ensures (k1, s1) != (k2, s2) ==> ViewType(s1, types[k1], |types|) != ViewType(s2, types[k2], |types|)
  {
  }

  /** The registry after the built-ins are registered and text is registered twice more. */
  function TextRegisteredThrice(): map<Kind, int>
  {
    map[TextKind := 4, ImageKind := 1, PreviewKind := 2]
  }

  /**
   * As written, a type registered again gets an id at or above the type
   * count: its outgoing view type exceeds `getViewTypeCount()`, and its
   * incoming view type collides with the outgoing image rows.
   */
  lemma ReRegistrationBreaksViewTypes()
    ensures IdsValid(TextRegisteredThrice(), 5)
    ensures var types := TextRegisteredThrice();
            && ViewType(Self, types[TextKind], |types|) >= 2 * |types|
            && ViewType(Other, types[TextKind], |types|) == ViewType(Self, types[ImageKind], |types|)
  {
    var types := TextRegisteredThrice();
    assert types.Keys == {TextKind, ImageKind, PreviewKind};
    assert |types| == 3;
  }

  /** View types offset by the id counter, as the corrected adapter computes them. */
  function IntendedViewType(source: Source, id: int, next: int): int
  {
    if source == Other then id else next + id
  }

  /** With the offset taken from the counter, view types fit in `2 * next` and never collide, re-registration or not. */
  lemma IntendedViewTypesFit(types: map<Kind, int>, next: int, k1: Kind, s1: Source, k2: Kind, s2: Source)
    requires IdsValid(types, next) && k1 in types && k2 in types
    ensures 0 <= IntendedViewType(s1, types[k1], next) < 2 * next
    ensures (k1, s1) != (k2, s2) ==> IntendedViewType(s1, types[k1], next) != IntendedViewType(s2, types[k2], next)
  {
  }

  // ---- addToTop ----

  function Reverse<T>(s: seq<T>): (r: seq<T>)
    ensures |r| == |s| && forall i :: 0 <= i < |s| ==> r[i] == s[|s| - 1 - i]
  {
    if s == [] then [] else Reverse(s[1..]) + [s[0]]
  }

  /** Putting an element in front of a reversed prefix reverses the longer prefix. */
  lemma ReverseSnoc<T>(s: seq<T>, x: T)
    ensures Reverse(s + [x]) == [x] + Reverse(s)
  {
    var r, q := Reverse(s + [x]), [x] + Reverse(s);
    assert forall i :: 0 <= i < |r| ==> r[i] == q[i];
  }

  lemma {:induction false} ReverseReverse<T>(s: seq<T>)
    ensures Reverse(Reverse(s)) == s
  {
    var r := Reverse(Reverse(s));
    assert forall i :: 0 <= i < |s| ==> r[i] == s[i];
  }

  /**
   * The list `addToTop` leaves, as written: into an empty list the batch
   * goes in the prepared order, into a non-empty one each element is
   * inserted at the front in turn, which reverses that order again.
   */
  function TopInsertion<T>(existing: seq<T>, batch: seq<T>, reverse: bool): (r: seq<T>)
    ensures |r| == |existing| + |batch|
    ensures existing != [] ==> r[|batch|..] == existing
    ensures existing != [] ==> r[..|batch|] == (if reverse then Reverse(batch) else batch)
    ensures existing == [] ==> r == (if reverse then batch else Reverse(batch))
  {
    var list := if reverse then batch else Reverse(batch);
    ReverseReverse(batch);
    if batch == [] then existing
    else if existing == [] then list
    else Reverse(list) + existing
  }

  /**
   * As written, the same batch lands in opposite orders depending on
   * whether the list was empty: `[a, b]` without reversal gives `[b, a]`
   * in an empty list but `[a, b, c]` in front of `[c]`.
   */
  lemma TopInsertionDependsOnEmptiness<T>(a: T, b: T, c: T)
    requires a != b
    ensures TopInsertion([], [a, b], false) == [b, a]
    ensures TopInsertion([c], [a, b], false) == [a, b, c]
    ensures TopInsertion([], [a, b], false) != TopInsertion([c], [a, b], false)[..2]
  {
    assert Reverse([a, b]) == [b, a];
    assert Reverse([b, a]) == [a, b];
  }

  /** `addToTop` as documented: the batch in its own order (reversed on request) ahead of the list. */
  function IntendedTopInsertion<T>(existing: seq<T>, batch: seq<T>, reverse: bool): seq<T>
  {
    (if reverse then Reverse(batch) else batch) + existing
  }

  /**
   * The intended insertion puts the same prefix in front of any list (what
   * an empty list receives), and agrees with the code as written whenever
   * the list was not empty.
   */
  lemma IntendedTopInsertionIsUniform<T>(existing: seq<T>, batch: seq<T>, reverse: bool)
    ensures IntendedTopInsertion(existing, batch, reverse) == IntendedTopInsertion([], batch, reverse) + existing
    ensures existing != [] ==> TopInsertion(existing, batch, reverse) == IntendedTopInsertion(existing, batch, reverse)
  {
    ReverseReverse(batch);
  }

  // ---- Row content ----

  /** What a row's `bindView` puts in the bubble, by message type. */
  datatype Content =
    | TextContent(text: Option<string>)
    | ImageContent(image: ImageMessages.ImageView)
    | PreviewContent(preview: PreviewMessages.PreviewView)
    | CustomContent(id: nat)

  function ContentOf(body: Body): (content: Content)
    ensures body.TextBody? ==> content == TextContent(body.message)
    ensures body.ImageBody? ==> content == ImageContent(ImageMessages.Shown(body))
    ensures body.PreviewBody? ==> content == PreviewContent(PreviewMessages.Shown(body))
  {
    match body
    case TextBody(message) => TextContent(message)
    case ImageBody(_, _, _, _) => ImageContent(ImageMessages.Shown(body))
    case PreviewBody(_, _, _, _, _, _, _) => PreviewContent(PreviewMessages.Shown(body))
    case CustomBody(id) => CustomContent(id)
  }
}
