/**
 * `Author`: who wrote a message, with an avatar that is fetched from a URL
 * at most once at a time. The background thread is modelled by two
 * events: `GetAvatar` starts a fetch, `CompleteAvatarLoad` delivers its
 * outcome together with the main-thread callback it posts.
 */
module Authors {
  import opened Wrappers
  import opened Platform

  /** `Message.Source`: which side of the conversation wrote a message. */
  datatype Source = Self | Other

  /**
   * The avatar-loading state of an author. `fetching` says a fetch thread is
   * running; `notifyOnComplete` says the call that started it had an adapter.
   */
  datatype AvatarState = AvatarState(
    avatar: Option<Bitmap>,
    loading: bool,
    fetching: bool,
    loadsStarted: nat,
    loadsCompleted: nat,
    notifyOnComplete: bool)

  /** The state of a freshly constructed author. */
  function InitialAvatarState(avatar: Option<Bitmap>): AvatarState
  {
    AvatarState(avatar, false, false, 0, 0, false)
  }

  /** A `getAvatar` call starts a fetch: no avatar yet, a URL to load it from, none in flight. */
  predicate StartsLoad(s: AvatarState, url: Option<string>)
  {
    s.avatar.None? && url.Some? && !s.loading
  }

  /** The state after a `getAvatar` call; `hasAdapter` says the adapter argument is non-null. */
  function AfterGet(s: AvatarState, url: Option<string>, hasAdapter: bool): (r: AvatarState)
    ensures r.avatar == s.avatar && r.loadsCompleted == s.loadsCompleted
    ensures StartsLoad(s, url) ==> r.loading && r.fetching && r.loadsStarted == s.loadsStarted + 1
    ensures !StartsLoad(s, url) ==> r == s
  {
    if StartsLoad(s, url) then
      s.(loading := true, fetching := true, loadsStarted := s.loadsStarted + 1, notifyOnComplete := hasAdapter)
    else s
  }

  /**
   * The state after a fetch finishes: a decoded stream replaces the avatar
   * (with null when it could not be decoded), an I/O failure leaves it; the
   * loading flag is cleared only when the starting call had an adapter.
   */
  function AfterComplete(s: AvatarState, fetched: Fetched): (r: AvatarState)
    ensures !r.fetching && r.loadsCompleted == s.loadsCompleted + 1 && r.loadsStarted == s.loadsStarted
    ensures r.avatar == (if fetched.Decoded? then fetched.bitmap else s.avatar)
    ensures r.loading == (s.loading && !s.notifyOnComplete)
  {
    s.(avatar := if fetched.Decoded? then fetched.bitmap else s.avatar,
       loading := if s.notifyOnComplete then false else s.loading,
       fetching := false,
       loadsCompleted := s.loadsCompleted + 1)
  }

  /** What can happen to an author: a `getAvatar` call, or the running fetch finishing. */
  datatype AvatarEvent = Request(hasAdapter: bool) | LoadFinished(fetched: Fetched)

  /** The state after a sequence of events; a finish with no fetch running cannot happen and is skipped. */
  function Run(s: AvatarState, url: Option<string>, events: seq<AvatarEvent>): AvatarState
    decreases |events|
  {
    if events == [] then s
    else
      var next := match events[0]
        case Request(hasAdapter) => AfterGet(s, url, hasAdapter)
        case LoadFinished(fetched) => if s.fetching then AfterComplete(s, fetched) else s;
      Run(next, url, events[1..])
  }

  /** The invariant of the loader: at most one fetch in flight, and only while loading and avatar-less. */
  predicate Consistent(s: AvatarState, url: Option<string>)
  {
    && s.loadsCompleted <= s.loadsStarted <= s.loadsCompleted + 1
    && (s.fetching <==> s.loadsStarted == s.loadsCompleted + 1)
    && (s.fetching ==> s.loading && s.avatar.None?)
    && (url.None? ==> s.loadsStarted == 0)
  }

  /** Every reachable state keeps the invariant: fetches never overlap. */
  lemma {:induction false} RunKeepsConsistent(s: AvatarState, url: Option<string>, events: seq<AvatarEvent>)
    requires Consistent(s, url)
    ensures Consistent(Run(s, url, events), url)
    decreases |events|
  {
    if events != [] {
      var next := match events[0]
        case Request(hasAdapter) => AfterGet(s, url, hasAdapter)
        case LoadFinished(fetched) => if s.fetching then AfterComplete(s, fetched) else s;
      assert Consistent(next, url);
      RunKeepsConsistent(next, url, events[1..]);
    }
  }

  /** Once an avatar is set, no event replaces it: `getAvatar` keeps returning it. */
  lemma {:induction false} AvatarPersists(s: AvatarState, url: Option<string>, events: seq<AvatarEvent>)
    requires Consistent(s, url) && s.avatar.Some?
    ensures Run(s, url, events).avatar == s.avatar
    ensures Run(s, url, events).loadsStarted == s.loadsStarted
    decreases |events|
  {
    if events != [] {
      var next := match events[0]
        case Request(hasAdapter) => AfterGet(s, url, hasAdapter)
        case LoadFinished(fetched) => if s.fetching then AfterComplete(s, fetched) else s;
      assert next == s;
      AvatarPersists(next, url, events[1..]);
    }
  }

  /**
   * A fetch started by a call without an adapter never clears the loading
   * flag, so no later call starts another fetch, whatever happens.
   */
  lemma {:induction false} LoadWithoutAdapterNeverRetries(s: AvatarState, url: Option<string>, events: seq<AvatarEvent>)
    requires s.loading && !s.notifyOnComplete
    ensures Run(s, url, events).loading
    ensures Run(s, url, events).loadsStarted == s.loadsStarted
    decreases |events|
  {
    if events != [] {
      var next := match events[0]
        case Request(hasAdapter) => AfterGet(s, url, hasAdapter)
        case LoadFinished(fetched) => if s.fetching then AfterComplete(s, fetched) else s;
      assert next.loading && !next.notifyOnComplete && next.loadsStarted == s.loadsStarted;
      LoadWithoutAdapterNeverRetries(next, url, events[1..]);
    }
  }

  /** A stream that does not decode leaves no avatar, so the next call with an adapter fetches again. */
  lemma UndecodableAvatarIsRetried(s: AvatarState, url: Option<string>)
    requires Consistent(s, url) && s.fetching && s.notifyOnComplete
    ensures var done := AfterComplete(s, Decoded(None));
            StartsLoad(done, url) && AfterGet(done, url, true).loadsStarted == s.loadsStarted + 1
  {
  }

  class Author {
    const source: Source
    const name: string
    const avatarUrl: Option<string>
    var avatar: Option<Bitmap>
    var avatarLoading: bool
    /** Whether a fetch thread is running, and how many were started and finished. */
    var fetching: bool
    var loadsStarted: nat
    var loadsCompleted: nat
    /** The adapter handed to the `getAvatar` call that started the running fetch. */
    var completionTarget: Notifier?

    function State(): AvatarState
      reads this
    {
      AvatarState(avatar, avatarLoading, fetching, loadsStarted, loadsCompleted, completionTarget != null)
    }

    ghost predicate Valid()
      reads this
    {
      Consistent(State(), avatarUrl)
    }

    constructor (source: Source, name: string)
      ensures this.source == source && this.name == name && avatarUrl.None?
      ensures State() == InitialAvatarState(None) && Valid()
    {
      this.source := source;
      this.name := name;
      avatarUrl := None;
      avatar := None;
      avatarLoading := false;
      fetching := false;
      loadsStarted := 0;
      loadsCompleted := 0;
      completionTarget := null;
    }

    constructor WithAvatar(source: Source, name: string, avatar: Bitmap)
      ensures this.source == source && this.name == name && avatarUrl.None?
      ensures State() == InitialAvatarState(Some(avatar)) && Valid()
    {
      this.source := source;
      this.name := name;
      avatarUrl := None;
      this.avatar := Some(avatar);
      avatarLoading := false;
      fetching := false;
      loadsStarted := 0;
      loadsCompleted := 0;
      completionTarget := null;
    }

    constructor WithAvatarUrl(source: Source, name: string, avatarUrl: string)
      ensures this.source == source && this.name == name && this.avatarUrl == Some(avatarUrl)
      ensures State() == InitialAvatarState(None) && Valid()
    {
      this.source := source;
      this.name := name;
      this.avatarUrl := Some(avatarUrl);
      avatar := None;
      avatarLoading := false;
      fetching := false;
      loadsStarted := 0;
      loadsCompleted := 0;
      completionTarget := null;
    }

    /**
     * `getAvatar`: answers the avatar held now (null until a fetch has
     * delivered one) and starts a fetch when there is none, a URL to load
     * from, and no fetch in flight.
     */
    method GetAvatar(adapter: Notifier?) returns (current: Option<Bitmap>)
      requires Valid()
      modifies this
      ensures Valid()
      ensures current == old(avatar)
      ensures State() == AfterGet(old(State()), avatarUrl, adapter != null)
      ensures completionTarget == if StartsLoad(old(State()), avatarUrl) then adapter else old(completionTarget)
    {
      if avatar.Some? {
        return avatar;
      }
      if avatarUrl.None? {
        return None;
      }
      if avatarLoading {
        return avatar;
      }
      avatarLoading := true;
      fetching := true;
      loadsStarted := loadsStarted + 1;
      completionTarget := adapter;
      return avatar;
    }

    /**
     * The running fetch finishes with `fetched`; the callback it posts
     * clears the loading flag and notifies the adapter, when there is one.
     */
    method CompleteAvatarLoad(fetched: Fetched)
      requires Valid() && fetching
      modifies this, completionTarget
      ensures Valid()
      ensures State() == AfterComplete(old(State()), fetched)
      ensures completionTarget == old(completionTarget)
      ensures completionTarget != null ==>
                completionTarget.notifications == old(completionTarget.notifications) + 1
    {
      if fetched.Decoded? {
        avatar := fetched.bitmap;
      }
      fetching := false;
      loadsCompleted := loadsCompleted + 1;
      if completionTarget != null {
        avatarLoading := false;
        completionTarget.NotifyDataSetChanged();
      }
    }
  }
}
