/**
 * `MessageThreadListAdapter`: the list state behind a message thread. It
 * wraps either a list of messages, which it changes in place, or an
 * application-supplied delegate it only reads from. Every read stamps the
 * message with the adapter and its position; `GetView` computes what a row
 * shows, and `TapDate` is the click handler that pins or unpins a row's date.
 */
module Adapter {
  import opened Wrappers
  import opened Platform
  import opened Dates
  import opened Authors
  import opened MessageModel
  import opened Parameters
  import opened Registry
  import opened AdapterRules
  import Variants

  /**
   * `MessageThreadAdapter`: a count and an indexed read; the read answers
   * null at every position the map does not hold.
   */
  datatype Delegate = Delegate(count: int, messageAt: map<int, Message>)

  /** What the adapter wraps: a list, a delegate, or nothing (a null argument). */
  datatype Backing = ListBacked | DelegateBacked(delegate: Delegate) | Unbacked

  /** The exceptions the adapter's operations end in. */
  datatype AdapterError =
    | WrapsDelegate     // RuntimeException: the adapter holds no list to change
    | Unsupported       // UnsupportedOperationException from a fixed-size list
    | IndexOutOfBounds  // IndexOutOfBoundsException from the list
    | NullOwner         // NullPointerException: no owning thread was set
    | NullMessage       // NullPointerException: no message at the position
    | Unregistered      // RuntimeException: the message's type was never registered

  datatype Outcome = Done | Failed(error: AdapterError)

  /** A read at a position: a message, null, or an exception `getItem` does not catch. */
  datatype Lookup = Found(message: Message) | NoMessage | LookupThrows

  /** The container built for a fresh (not recycled) row. */
  datatype Shell = Shell(cornerRadii: seq<real>, color: int, padding: seq<int>, minHeight: int, minWidth: int)

  datatype AvatarSlot = AvatarGone | AvatarShown(cornerRadius: int, bitmap: Option<Bitmap>)

  /**
   * What `getView` shows for a row: the container (when it builds one), the
   * avatar and the margin beside it, the date label and whether it shows,
   * the date header (when shown), the elevation and the bubble's content.
   */
  datatype Row = Row(
    shell: Option<Shell>,
    avatar: AvatarSlot,
    containerMargin: int,
    date: DateText,
    dateVisible: bool,
    header: Option<DateText>,
    elevation: real,
    content: Content)

  /** `getViewTypeCount`: two view types per registered type, one per side. */
  function ViewTypeCount(registry: MessageTypes): (count: int)
    reads registry
    ensures count == 2 * registry.GetTypeCount() && count / 2 == registry.GetTypeCount()
  {
    registry.GetTypeCount() * 2
  }

  /**
   * Without re-registration, every row of a registered type gets a view
   * type below `getViewTypeCount()`, distinct per (type, side).
   */
  lemma RegisteredViewTypesFit(registry: MessageTypes, k1: Kind, s1: Source, k2: Kind, s2: Source)
    requires registry.Valid() && registry.reassigned == 0 && k1 in registry.types && k2 in registry.types
    ensures 0 <= ViewType(s1, registry.types[k1], ViewTypeCount(registry) / 2) < ViewTypeCount(registry)
    ensures (k1, s1) != (k2, s2) ==>
              ViewType(s1, registry.types[k1], ViewTypeCount(registry) / 2)
              != ViewType(s2, registry.types[k2], ViewTypeCount(registry) / 2)
  {
    ViewTypesFitWithoutReRegistration(registry.types, k1, s1, k2, s2);
  }

  /**
   * What `register` builds when an application registers text twice more:
   * the registry of `ReRegistrationBreaksViewTypes`, whose outgoing text
   * rows get a view type at or above `getViewTypeCount()`.
   */
  method ReRegisterText() returns (registry: MessageTypes)
    ensures registry.types == TextRegisteredThrice() && registry.nextViewType == 5
    ensures registry.GetTypeCount() == 3
    ensures ViewType(Self, registry.types[TextKind], registry.GetTypeCount()) >= ViewTypeCount(registry)
  {
    registry := new MessageTypes();
    registry.Register(TextKind);
    registry.Register(TextKind);
    ReRegistrationBreaksViewTypes();
  }

  /** The container `getView` builds for a fresh row: side-dependent corners and colour, the type's padding and sizes. */
  function ShellFor(source: Source, kind: Kind, params: MessageParameters): Shell
    reads params
  {
    Shell(ContainerRadii(source, Variants.Radius(kind, params)),
          if source == Self then params.sentColor else params.receivedColor,
          Variants.Padding(kind, params), Variants.MinSize(kind), Variants.MinSize(kind))
  }

  /** Whether rows of this side show an avatar. */
  predicate AvatarDisplayed(source: Source, params: MessageParameters)
    reads params
  {
    if source == Self then params.displayOutgoingAvatars else params.displayIncomingAvatars
  }

  /**
   * The avatar slot and the container's margin on its side: a shown avatar
   * holds the author's current bitmap and leaves 8 dp, a hidden one 16 dp.
   */
  function AvatarLayout(source: Source, bitmap: Option<Bitmap>, params: MessageParameters,
                        dp8: int, dp16: int, avatarPx: int): (layout: (AvatarSlot, int))
    reads params
    ensures layout.0.AvatarShown? <==> AvatarDisplayed(source, params)
    ensures layout.0.AvatarShown? ==> layout.0.bitmap == bitmap && layout.1 == dp8
    ensures layout.0.AvatarGone? ==> layout.1 == dp16
  {
    if AvatarDisplayed(source, params)
    then (AvatarShown(AvatarCorner(source, params.avatarShape, dp8, avatarPx), bitmap), dp8)
    else (AvatarGone, dp16)
  }

  /**
   * The avatar part of `getView`: a shown avatar asks the author for its
   * bitmap (twice on incoming rows, the second answer only logged), which
   * may start a fetch reporting to `adapter`.
   */
  method ShowAvatar(author: Author, params: MessageParameters, adapter: Notifier, dp8: int, dp16: int, avatarPx: int)
    returns (avatar: AvatarSlot, margin: int)
    requires author.Valid()
    modifies author
    ensures author.Valid()
    ensures (avatar, margin) == AvatarLayout(author.source, old(author.avatar), params, dp8, dp16, avatarPx)
    ensures author.State() == (if AvatarDisplayed(author.source, params)
                               then AfterGet(old(author.State()), author.avatarUrl, true)
                               else old(author.State()))
  {
    avatar, margin := AvatarGone, dp16;
    if AvatarDisplayed(author.source, params) {
      var bitmap := author.GetAvatar(adapter);
      if author.source == Other {
        var _ := author.GetAvatar(adapter);
      }
      avatar, margin := AvatarShown(AvatarCorner(author.source, params.avatarShape, dp8, avatarPx), bitmap), dp8;
    }
  }

  class ListAdapter {
    const backing: Backing
    /** The wrapped list; empty unless list-backed. */
    var messages: seq<Message>
    /** Whether the list is the fixed-size view `Arrays.asList` returns. */
    var fixedSize: bool
    /** The positions whose date label the user pinned open. */
    var visibleDates: seq<int>
    /** Whether an owning thread was set. */
    var hasOwner: bool
    /** How many times the owner was asked to scroll to the bottom. */
    var scrollRequests: nat
    /** This adapter's `notifyDataSetChanged`, also what messages are stamped with. */
    const signal: Notifier

    ghost predicate Valid()
      reads this
    {
      && (!backing.ListBacked? ==> messages == [] && !fixedSize)
      && (fixedSize ==> messages != [])
    }

    /** An adapter over a new, empty, growable list. */
    constructor ()
      ensures backing == ListBacked && messages == [] && !fixedSize && Valid()
      ensures visibleDates == [] && !hasOwner && scrollRequests == 0
      ensures fresh(signal) && signal.notifications == 0
    {
      backing := ListBacked;
      messages := [];
      fixedSize := false;
      visibleDates := [];
      hasOwner := false;
      scrollRequests := 0;
      signal := new Notifier();
    }

    /** An adapter over the caller's (growable) list; `None` is a null list. */
    constructor WithList(list: Option<seq<Message>>)
      ensures backing == (if list.Some? then ListBacked else Unbacked)
      ensures messages == (if list.Some? then list.value else []) && !fixedSize && Valid()
      ensures visibleDates == [] && !hasOwner && scrollRequests == 0
      ensures fresh(signal) && signal.notifications == 0
    {
      backing := if list.Some? then ListBacked else Unbacked;
      messages := if list.Some? then list.value else [];
      fixedSize := false;
      visibleDates := [];
      hasOwner := false;
      scrollRequests := 0;
      signal := new Notifier();
    }

    /** An adapter over a delegate; `None` is a null delegate. */
    constructor WithDelegate(delegate: Option<Delegate>)
      ensures backing == (if delegate.Some? then DelegateBacked(delegate.value) else Unbacked)
      ensures messages == [] && !fixedSize && Valid()
      ensures visibleDates == [] && !hasOwner && scrollRequests == 0
      ensures fresh(signal) && signal.notifications == 0
    {
      backing := if delegate.Some? then DelegateBacked(delegate.value) else Unbacked;
      messages := [];
      fixedSize := false;
      visibleDates := [];
      hasOwner := false;
      scrollRequests := 0;
      signal := new Notifier();
    }

    /** `setOwner`, as the owning thread calls it. */
    method SetOwner()
      modifies this
      ensures hasOwner
      ensures messages == old(messages) && fixedSize == old(fixedSize) && visibleDates == old(visibleDates)
      ensures scrollRequests == old(scrollRequests)
    {
      hasOwner := true;
    }

    /** `getCount`. */
    function GetCount(): (count: int)
      reads this
      ensures backing.ListBacked? ==> count == |messages|
      ensures backing.DelegateBacked? ==> count == backing.delegate.count
      ensures backing.Unbacked? ==> count == 0
    {
      match backing
      case ListBacked => |messages|
      case DelegateBacked(delegate) => delegate.count
      case Unbacked => 0
    }

    /**
     * The read `getItem` makes. A growable list throws past its end and
     * answers null (the caught `ArrayIndexOutOfBoundsException`) before its
     * start; the fixed-size view answers null on both sides.
     */
    function At(position: int): (lookup: Lookup)
      reads this
      ensures lookup.LookupThrows? <==> backing.ListBacked? && !fixedSize && position >= |messages|
      ensures backing.ListBacked? ==> (lookup.Found? <==> 0 <= position < |messages|)
      ensures backing.ListBacked? && lookup.Found? ==> lookup.message == messages[position]
      ensures backing.DelegateBacked? ==>
                (lookup.Found? <==> position in backing.delegate.messageAt)
                && (lookup.Found? ==> lookup.message == backing.delegate.messageAt[position])
      ensures backing.Unbacked? ==> lookup == NoMessage
    {
      match backing
      case ListBacked =>
        if 0 <= position < |messages| then Found(messages[position])
        else if position < 0 || fixedSize then NoMessage
        else LookupThrows
      case DelegateBacked(delegate) =>
        if position in delegate.messageAt then Found(delegate.messageAt[position]) else NoMessage
      case Unbacked => NoMessage
    }

    /** The message a read at `position` stamps, if any. */
    function Slot(position: int): set<object>
      reads this
    {
      if At(position).Found? then {At(position).message} else {}
    }

    /** The author whose avatar a row at `position` may ask for. */
    function AuthorSlot(position: int): set<object>
      reads this
    {
      if At(position).Found? then {At(position).message.author} else {}
    }

    /** `getItem`: the read, with the message found stamped with this adapter and the position. */
    method GetItem(position: int) returns (item: Lookup)
      modifies Slot(position)
      ensures item == At(position)
      ensures item.Found? ==> item.message.adapter == signal && item.message.position == position
      ensures item.Found? ==> item.message.sentOn == old(item.message.sentOn) && item.message.body == old(item.message.body)
    {
      item := At(position);
      if item.Found? {
        item.message.SetAdapter(signal);
        item.message.SetPosition(position);
      }
    }

    /**
     * `addToBottom(message, scroll)`: appends and notifies, then asks the
     * owner to scroll, which fails without an owner after the append.
     */
    method AddToBottom(m: Message, scroll: bool) returns (outcome: Outcome)
      requires Valid()
      modifies this, signal
      ensures Valid()
      ensures fixedSize == old(fixedSize) && visibleDates == old(visibleDates) && hasOwner == old(hasOwner)
      ensures !backing.ListBacked? || fixedSize ==>
                && outcome == Failed(if backing.ListBacked? then Unsupported else WrapsDelegate)
                && messages == old(messages) && scrollRequests == old(scrollRequests)
                && signal.notifications == old(signal.notifications)
      ensures backing.ListBacked? && !fixedSize ==>
                && messages == old(messages) + [m]
                && signal.notifications == old(signal.notifications) + 1
                && outcome == (if scroll && !hasOwner then Failed(NullOwner) else Done)
                && scrollRequests == old(scrollRequests) + (if scroll && hasOwner then 1 else 0)
    {
      if !backing.ListBacked? {
        return Failed(WrapsDelegate);
      }
      if fixedSize {
        return Failed(Unsupported);
      }
      messages := messages + [m];
      signal.NotifyDataSetChanged();
      if scroll {
        if !hasOwner {
          return Failed(NullOwner);
        }
        scrollRequests := scrollRequests + 1;
      }
      return Done;
    }

    /**
     * `addToBottom(messages[], scroll)`: one `addToBottom` per element, in
     * order, stopping at the first exception.
     */
    method AddAllToBottom(ms: seq<Message>, scroll: bool) returns (outcome: Outcome)
      requires Valid()
      modifies this, signal
      ensures Valid()
      ensures fixedSize == old(fixedSize) && visibleDates == old(visibleDates) && hasOwner == old(hasOwner)
      ensures ms == [] || !backing.ListBacked? || fixedSize ==>
                && outcome == (if ms == [] then Done
                               else Failed(if backing.ListBacked? then Unsupported else WrapsDelegate))
                && messages == old(messages) && scrollRequests == old(scrollRequests)
                && signal.notifications == old(signal.notifications)
      ensures ms != [] && backing.ListBacked? && !fixedSize && scroll && !hasOwner ==>
                && outcome == Failed(NullOwner)
                && messages == old(messages) + [ms[0]]
                && signal.notifications == old(signal.notifications) + 1
                && scrollRequests == old(scrollRequests)
      ensures backing.ListBacked? && !fixedSize && (!scroll || hasOwner) ==>
                && outcome == Done
                && messages == old(messages) + ms
                && signal.notifications == old(signal.notifications) + |ms|
                && scrollRequests == old(scrollRequests) + (if scroll then |ms| else 0)
    {
      outcome := Done;
      var i := 0;
      while i < |ms|
        invariant 0 <= i <= |ms| && Valid()
        invariant fixedSize == old(fixedSize) && visibleDates == old(visibleDates) && hasOwner == old(hasOwner)
        invariant !backing.ListBacked? || fixedSize ==>
                    i == 0 && messages == old(messages) && scrollRequests == old(scrollRequests)
                    && signal.notifications == old(signal.notifications)
        invariant backing.ListBacked? && !fixedSize && scroll && !hasOwner ==>
                    i == 0 && messages == old(messages) && signal.notifications == old(signal.notifications)
                    && scrollRequests == old(scrollRequests)
        invariant backing.ListBacked? && !fixedSize && (!scroll || hasOwner) ==>
                    && messages == old(messages) + ms[..i]
                    && signal.notifications == old(signal.notifications) + i
                    && scrollRequests == old(scrollRequests) + (if scroll then i else 0)
        invariant outcome == Done
      {
        outcome := AddToBottom(ms[i], scroll);
        if outcome.Failed? {
          return;
        }
        i := i + 1;
      }
      assert ms[..i] == ms;
    }

    /**
     * `addToTop(messages[], reverse)`. An empty list is replaced by the
     * prepared batch itself (a fixed-size view, without a notification);
     * otherwise each element of the prepared batch goes to the front in turn.
     */
    method AddToTop(ms: seq<Message>, reverse: bool) returns (outcome: Outcome)
      requires Valid()
      modifies this, signal
      ensures Valid()
      ensures visibleDates == old(visibleDates) && hasOwner == old(hasOwner) && scrollRequests == old(scrollRequests)
      ensures outcome == (if !backing.ListBacked? then Failed(WrapsDelegate)
                          else if ms != [] && old(messages) != [] && old(fixedSize) then Failed(Unsupported)
                          else Done)
      ensures outcome.Done? ==> messages == TopInsertion(old(messages), ms, reverse)
      ensures outcome.Failed? ==> messages == old(messages)
      ensures fixedSize == (old(fixedSize) || (outcome.Done? && ms != [] && old(messages) == []))
      ensures signal.notifications
              == old(signal.notifications) + (if outcome.Done? && ms != [] && old(messages) != [] then 1 else 0)
    {
      if !backing.ListBacked? {
        return Failed(WrapsDelegate);
      }
      if |ms| < 1 {
        return Done;
      }
      var list := if reverse then ms else Reverse(ms);
      if messages == [] {
        messages := list;
        fixedSize := true;
        return Done;
      }
      if fixedSize {
        return Failed(Unsupported);
      }
      ghost var before := messages;
      var i := 0;
      while i < |list|
        invariant 0 <= i <= |list|
        invariant messages == Reverse(list[..i]) + before
        invariant signal.notifications == old(signal.notifications) && !fixedSize
        invariant visibleDates == old(visibleDates) && hasOwner == old(hasOwner) && scrollRequests == old(scrollRequests)
      {
        ReverseSnoc(list[..i], list[i]);
        assert list[..i + 1] == list[..i] + [list[i]];
        messages := [list[i]] + messages;
        i := i + 1;
      }
      assert list[..i] == list;
      signal.NotifyDataSetChanged();
      return Done;
    }

    /** `remove(position)`: deletes exactly that index and notifies. */
    method Remove(position: int) returns (outcome: Outcome)
      requires Valid()
      modifies this, signal
      ensures Valid()
      ensures fixedSize == old(fixedSize) && visibleDates == old(visibleDates) && hasOwner == old(hasOwner)
      ensures scrollRequests == old(scrollRequests)
      ensures outcome == (if !backing.ListBacked? then Failed(WrapsDelegate)
                          else if fixedSize then Failed(Unsupported)
                          else if !(0 <= position < |old(messages)|) then Failed(IndexOutOfBounds)
                          else Done)
      ensures outcome.Done? ==> messages == old(messages[..position] + messages[position + 1..])
                                && |messages| == |old(messages)| - 1
                                && signal.notifications == old(signal.notifications) + 1
      ensures outcome.Failed? ==> messages == old(messages) && signal.notifications == old(signal.notifications)
    {
      if !backing.ListBacked? {
        return Failed(WrapsDelegate);
      }
      if fixedSize {
        return Failed(Unsupported);
      }
      if !(0 <= position < |messages|) {
        return Failed(IndexOutOfBounds);
      }
      messages := messages[..position] + messages[position + 1..];
      signal.NotifyDataSetChanged();
      return Done;
    }

    /**
     * `getItemViewType`: the registry id for an incoming row, shifted by half
     * the view type count for an outgoing one.
     */
    method GetItemViewType(position: int, registry: MessageTypes) returns (r: Result<int, AdapterError>)
      modifies Slot(position)
      ensures At(position).LookupThrows? ==> r == Err(IndexOutOfBounds)
      ensures At(position).NoMessage? ==> r == Err(NullMessage)
      ensures At(position).Found? ==>
                var m := At(position).message;
                && m.adapter == signal && m.position == position
                && r == match registry.GetViewType(m.Kind())
                        case None => Err(Unregistered)
                        case Some(id) => Ok(ViewType(m.author.source, id, registry.GetTypeCount()))
    {
      var item := GetItem(position);
      match item
      case LookupThrows =>
        return Err(IndexOutOfBounds);
      case NoMessage =>
        return Err(NullMessage);
      case Found(m) =>
        var id := registry.GetViewType(m.Kind());
        if id.None? {
          return Err(Unregistered);
        }
        var viewType := if m.author.source == Other then id.value else ViewTypeCount(registry) / 2 + id.value;
        return Ok(viewType);
    }

    /**
     * The row before the first one of a list reads as null, so an enabled
     * header always shows above the first row.
     */
    lemma FirstListRowHasHeader(now: Millis, current: Millis, separation: int)
      requires backing.ListBacked?
      ensures At(-1) == NoMessage
      ensures HeaderVisible(true, PreviousDate(0, now), current, separation)
    {
    }

    /** The date of the message before `position`, when there is one. */
    function PreviousDate(position: int, now: Millis): Option<Millis>
      reads this, Slot(position - 1)
    {
      if At(position - 1).Found? then Some(At(position - 1).message.SentOn(now)) else None
    }

    /**
     * The date header of the row at `position` for a message sent at
     * `current`: it reads (and so stamps) the previous row.
     */
    method DateHeader(position: int, current: Millis, params: MessageParameters, now: Millis)
      returns (header: Option<DateText>)
      modifies Slot(position - 1)
      ensures header == (if HeaderVisible(params.dateHeaderEnabled, PreviousDate(position, now), current,
                                          params.dateHeaderSeparationMinutes)
                         then Some(params.dateFormatter.FormatDate(now, current)) else None)
      ensures params.dateHeaderEnabled && At(position - 1).Found? ==>
                At(position - 1).message.adapter == signal && At(position - 1).message.position == position - 1
      ensures !params.dateHeaderEnabled ==> unchanged(Slot(position - 1))
      ensures At(position - 1).Found? ==>
                At(position - 1).message.sentOn == old(At(position - 1).message.sentOn)
                && At(position - 1).message.body == old(At(position - 1).message.body)
    {
      header := None;
      if params.dateHeaderEnabled {
        var previous := GetItem(position - 1);
        var previousDate := if previous.Found? then Some(previous.message.SentOn(now)) else None;
        if HeaderVisible(true, previousDate, current, params.dateHeaderSeparationMinutes) {
          header := Some(params.dateFormatter.FormatDate(now, current));
        }
      }
    }

    /**
     * `getView`: what the row at `position` shows. `recycled` says a view
     * was handed back for reuse; `dp8`, `dp16` and `avatarPx` are the pixel
     * sizes of 8 dp, 16 dp and the avatar scale on the device.
     */
    method GetView(position: int, recycled: bool, params: MessageParameters, now: Millis,
                   dp8: int, dp16: int, avatarPx: int) returns (r: Result<Row, AdapterError>)
      requires At(position).Found? ==> At(position).message.author.Valid()
      modifies Slot(position), Slot(position - 1), AuthorSlot(position)
      ensures At(position).LookupThrows? ==> r == Err(IndexOutOfBounds)
      ensures !At(position).LookupThrows? && !hasOwner ==> r == Err(NullOwner)
      ensures At(position).NoMessage? && hasOwner ==> r == Err(NullMessage)
      ensures At(position).Found? ==> (r.Ok? <==> hasOwner)
      ensures r.Ok? ==>
                var m := At(position).message;
                r.value.shell == (if recycled then None else Some(ShellFor(m.author.source, m.Kind(), params)))
      ensures r.Ok? ==>
                var author := At(position).message.author;
                && (r.value.avatar, r.value.containerMargin) == AvatarLayout(author.source, old(author.avatar), params, dp8, dp16, avatarPx)
                && author.Valid()
                && author.State() == (if AvatarDisplayed(author.source, params)
                                      then AfterGet(old(author.State()), author.avatarUrl, true)
                                      else old(author.State()))
      ensures r.Ok? ==>
                var m := At(position).message;
                && r.value.date == params.dateFormatter.FormatDate(now, m.SentOn(now))
                && r.value.dateVisible == DateLabelVisible(visibleDates, position, GetCount(), MinutesAgo(now, m.SentOn(now)))
                && r.value.header == (if HeaderVisible(params.dateHeaderEnabled, PreviousDate(position, now),
                                                       m.SentOn(now), params.dateHeaderSeparationMinutes)
                                      then Some(r.value.date) else None)
                && r.value.elevation == params.elevation
                && r.value.content == ContentOf(m.body)
      ensures At(position).Found? ==>
                var m := At(position).message;
                && m.adapter == signal
                && m.position == (if r.Ok? && params.dateHeaderEnabled && At(position - 1) == Found(m)
                                  then position - 1 else position)
      ensures r.Ok? && params.dateHeaderEnabled && At(position - 1).Found? ==>
                At(position - 1).message.adapter == signal && At(position - 1).message.position == position - 1
    {
      var item := GetItem(position);
      if item.LookupThrows? {
        return Err(IndexOutOfBounds);
      }
      if !hasOwner {
        return Err(NullOwner);
      }
      if item.NoMessage? {
        return Err(NullMessage);
      }
      var m := item.message;
      var shell := if recycled then None else Some(ShellFor(m.author.source, m.Kind(), params));
      var avatar, margin := ShowAvatar(m.author, params, signal, dp8, dp16, avatarPx);
      var sentOn := m.SentOn(now);
      var date := params.dateFormatter.FormatDate(now, sentOn);
      var dateVisible := DateLabelVisible(visibleDates, position, GetCount(), MinutesAgo(now, sentOn));
      var header := DateHeader(position, sentOn, params, now);
      r := Ok(Row(shell, avatar, margin, date, dateVisible, header, params.elevation, ContentOf(m.body)));
    }

    /**
     * The click handler of a row's container: a shown date is hidden and
     * one entry of its position dropped, a hidden one is shown and pinned.
     */
    method TapDate(position: int, shown: bool) returns (nowShown: bool)
      modifies this
      ensures nowShown == !shown
      ensures visibleDates == Tap(old(visibleDates), position, shown)
      ensures shown ==> position !in visibleDates || multiset(old(visibleDates))[position] > 1
      ensures !shown ==> position in visibleDates
      ensures messages == old(messages) && fixedSize == old(fixedSize) && hasOwner == old(hasOwner)
      ensures scrollRequests == old(scrollRequests)
    {
      if shown {
        visibleDates := RemoveFirst(visibleDates, position);
      } else {
        visibleDates := visibleDates + [position];
      }
      nowShown := !shown;
    }
  }
}
