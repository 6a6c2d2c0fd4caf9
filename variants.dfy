/**
 * Dispatch over the registered message types: each type's parse priority,
 * what its `isParsable` / `parseMessage` pair makes of a text, and its
 * layout. Types registered by the application are described by a
 * `CustomTypes` value, since their code is not part of this model.
 */
module Variants {
  import opened Wrappers
  import opened Platform
  import opened Authors
  import opened MessageModel
  import opened Parameters
  import ImageMessages
  import PreviewMessages

  /**
   * What trying one type on a text gives: it is not parsable, it is and
   * `parseMessage` returned these messages, or one of the calls threw.
   */
  datatype Attempt = Declines | Accepts(drafts: seq<Draft>) | Throws

  /**
   * Application-registered types, by id: their priority (`None` when
   * instantiating the type or asking its priority throws) and their attempt.
   */
  datatype CustomTypes = CustomTypes(
    priority: nat -> Option<int>,
    attempt: (nat, Author, Option<Millis>, string) -> Attempt)

  /** `getParsePriority` of a fresh instance; lower is tried earlier. */
  function Priority(custom: CustomTypes, kind: Kind): (p: Option<int>)
    ensures !kind.CustomKind? ==> p.Some?
  {
    match kind
    case TextKind => Some(INT_MAX)
    case ImageKind => Some(ImageMessages.PRIORITY)
    case PreviewKind => Some(PreviewMessages.PRIORITY)
    case CustomKind(id) => custom.priority(id)
  }

  /** The built-ins are tried image first, then preview, and text (never parsable) last. */
  lemma BuiltInPriorities(custom: CustomTypes)
    ensures Priority(custom, ImageKind).value < Priority(custom, PreviewKind).value < Priority(custom, TextKind).value
  {
  }

  /** `isParsable` followed, when it holds, by `parseMessage`. */
  function Try(env: Env, custom: CustomTypes, kind: Kind, author: Author, sentOn: Option<Millis>, data: string)
    : (attempt: Attempt)
    ensures kind == TextKind ==> attempt == Declines
    ensures kind == ImageKind ==>
              attempt == (if ImageMessages.IsParsable(env, data)
                          then Accepts(ImageMessages.ParseMessage(env, author, data)) else Declines)
    ensures kind == PreviewKind ==>
              attempt == (if PreviewMessages.IsParsable(env, data)
                          then Accepts(PreviewMessages.ParseMessage(env, author, sentOn, data)) else Declines)
  {
    match kind
    case TextKind => Declines
    case ImageKind =>
      if ImageMessages.IsParsable(env, data) then Accepts(ImageMessages.ParseMessage(env, author, data))
      else Declines
    case PreviewKind =>
      if PreviewMessages.IsParsable(env, data) then Accepts(PreviewMessages.ParseMessage(env, author, sentOn, data))
      else Declines
    case CustomKind(id) => custom.attempt(id, author, sentOn, data)
  }

  /** A built-in type that accepts a text always returns at least one message. */
  lemma BuiltInAcceptanceIsNonEmpty(env: Env, custom: CustomTypes, kind: Kind, author: Author,
                                    sentOn: Option<Millis>, data: string)
    requires !kind.CustomKind? && Try(env, custom, kind, author, sentOn, data).Accepts?
    ensures Try(env, custom, kind, author, sentOn, data).drafts != []
  {
    if kind == ImageKind {
      ImageMessages.ParsableImageYieldsMessages(env, author, data);
    }
  }

  /** `getPadding`: left, top, right, bottom. */
  function Padding(kind: Kind, params: MessageParameters): (padding: seq<int>)
    reads params
    ensures |padding| == 4
    ensures forall e :: 0 <= e < 4 ==>
              padding[e] == (match kind
                             case ImageKind => params.imageMessagePadding
                             case PreviewKind => params.previewMessagePadding
                             case _ => params.textMessagePadding)
  {
    match kind
    case ImageKind => EdgePadding(params.imageMessagePadding)
    case PreviewKind => EdgePadding(params.previewMessagePadding)
    case _ => EdgePadding(params.textMessagePadding)
  }

  /** `getRadius`: the configured radii, or for images the top-from radius on every corner. */
  function Radius(kind: Kind, params: MessageParameters): (radii: seq<real>)
    reads params
    ensures |radii| == 4
    ensures kind != ImageKind ==> radii == params.MessageRadiusPx()
    ensures kind == ImageKind ==> forall c :: 0 <= c < 4 ==> radii[c] == params.messageRadiusTopFrom
  {
    if kind == ImageKind then ImageMessages.Radius(params.MessageRadiusPx()) else params.MessageRadiusPx()
  }

  /** `getMinWidth` and `getMinHeight`: zero for images, the default otherwise. */
  function MinSize(kind: Kind): (size: int)
    ensures size == (if kind == ImageKind then 0 else DEFAULT_MIN_SIZE)
  {
    if kind == ImageKind then ImageMessages.MIN_SIZE else DEFAULT_MIN_SIZE
  }
}
