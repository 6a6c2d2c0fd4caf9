/**
 * `MessageParameters`: the styling configuration the adapter and the
 * message types read. Radii and font sizes are Java floats that are only
 * stored and handed on, never computed with, so `real` stands in for them.
 */
module Parameters {
  import opened Wrappers
  import opened Dates

  datatype AvatarScale = Small | Medium | Large {
    /** `getValue`: the avatar size in dp, growing with the scale. */
    function Value(): (size: int)
      ensures 40 <= size <= 60 && size % 10 == 0
      ensures this == Small <==> size < 50
      ensures this == Large <==> size > 50
    {
      match this
      case Small => 40
      case Medium => 50
      case Large => 60
    }
  }

  datatype AvatarShape = Circle | Square | RoundSquare {
    /** `getValue`: the shape's code, a distinct number in 0..2 per shape (square is 1). */
    function Value(): (code: int)
      ensures 0 <= code <= 2
      ensures this.Circle? <==> code == 0
      ensures this.RoundSquare? <==> code == 2
    {
      match this
      case Circle => 0
      case Square => 1
      case RoundSquare => 2
    }
  }

  /** `AvatarShape.valueOf(int)`: the shape with that code, or null. */
  function AvatarShapeOf(value: int): (shape: Option<AvatarShape>)
    ensures shape.Some? <==> 0 <= value <= 2
    ensures shape.Some? ==> shape.value.Value() == value
  {
    if value == 0 then Some(Circle)
    else if value == 1 then Some(Square)
    else if value == 2 then Some(RoundSquare)
    else None
  }

  lemma AvatarShapeRoundTrip(shape: AvatarShape)
    ensures AvatarShapeOf(shape.Value()) == Some(shape)
  {
  }

  /** A font family; `DefaultFont` is `Typeface.DEFAULT`. */
  datatype Typeface = DefaultFont | Family(name: string)

  /** The first font of the chain that is set (non-null), else `Typeface.DEFAULT`. */
  function FirstSet(chain: seq<Option<Typeface>>): (font: Typeface)
    ensures (forall i :: 0 <= i < |chain| ==> chain[i].None?) ==> font == DefaultFont
    ensures forall i :: 0 <= i < |chain| && chain[i].Some? && (forall j :: 0 <= j < i ==> chain[j].None?)
                        ==> font == chain[i].value
  {
    if chain == [] then DefaultFont
    else if chain[0].Some? then chain[0].value
    else FirstSet(chain[1..])
  }

  class MessageParameters {
    var sentColor: int
    var sentMessageTextColor: int
    var receivedColor: int
    var receivedMessageTextColor: int
    var dateColor: int
    var messageRadiusTopFrom: real
    var messageRadiusTopTo: real
    var messageRadiusBottomFrom: real
    var messageRadiusBottomTo: real
    var textMessagePadding: int
    var imageMessagePadding: int
    var previewMessagePadding: int
    var progressBarColor: int
    var elevation: real
    var avatarScale: int
    var avatarShape: int
    var displayOutgoingAvatars: bool
    var displayIncomingAvatars: bool
    var dateFormatter: MessageDateFormatter
    var dateHeaderEnabled: bool
    var dateHeaderColor: int
    var dateHeaderSeparationMinutes: int
    var messageFont: Option<Typeface>
    var dateFont: Option<Typeface>
    var dateHeaderFont: Option<Typeface>
    var messageFontSize: real
    var dateFontSize: real
    var dateHeaderFontSize: real

    /** The parameters in the constructor's own order: note bottom-from before top-to. */
    constructor (
      sentColor: int, sentMessageTextColor: int, receivedColor: int, receivedMessageTextColor: int,
      dateColor: int,
      messageRadiusTopFrom: real, messageRadiusBottomFrom: real,
      messageRadiusTopTo: real, messageRadiusBottomTo: real,
      textMessagePadding: int, imageMessagePadding: int, previewMessagePadding: int,
      progressBarColor: int, elevation: real, avatarScale: int, avatarShape: int,
      displayIncomingAvatars: bool, displayOutgoingAvatars: bool,
      dateHeaderEnabled: bool, dateHeaderColor: int, dateHeaderSeparationMinutes: int,
      messageFont: Option<Typeface>, dateFont: Option<Typeface>, dateHeaderFont: Option<Typeface>,
      messageFontSize: real, dateFontSize: real, dateHeaderFontSize: real,
      dateFormatter: MessageDateFormatter)
      ensures this.sentColor == sentColor && this.sentMessageTextColor == sentMessageTextColor
      ensures this.receivedColor == receivedColor && this.receivedMessageTextColor == receivedMessageTextColor
      ensures this.dateColor == dateColor
      ensures this.messageRadiusTopFrom == messageRadiusTopFrom && this.messageRadiusTopTo == messageRadiusTopTo
      ensures this.messageRadiusBottomFrom == messageRadiusBottomFrom
      ensures this.messageRadiusBottomTo == messageRadiusBottomTo
      ensures this.textMessagePadding == textMessagePadding && this.imageMessagePadding == imageMessagePadding
      ensures this.previewMessagePadding == previewMessagePadding
      ensures this.progressBarColor == progressBarColor && this.elevation == elevation
      ensures this.avatarScale == avatarScale && this.avatarShape == avatarShape
      ensures this.displayIncomingAvatars == displayIncomingAvatars
      ensures this.displayOutgoingAvatars == displayOutgoingAvatars
      ensures this.dateHeaderEnabled == dateHeaderEnabled && this.dateHeaderColor == dateHeaderColor
      ensures this.dateHeaderSeparationMinutes == dateHeaderSeparationMinutes
      ensures this.messageFont == messageFont && this.dateFont == dateFont
      ensures this.dateHeaderFont == dateHeaderFont
      ensures this.messageFontSize == messageFontSize && this.dateFontSize == dateFontSize
      ensures this.dateHeaderFontSize == dateHeaderFontSize
      ensures this.dateFormatter == dateFormatter
    {
      this.sentColor := sentColor;
      this.sentMessageTextColor := sentMessageTextColor;
      this.receivedColor := receivedColor;
      this.receivedMessageTextColor := receivedMessageTextColor;
      this.dateColor := dateColor;
      this.messageRadiusTopFrom := messageRadiusTopFrom;
      this.messageRadiusTopTo := messageRadiusTopTo;
      this.messageRadiusBottomFrom := messageRadiusBottomFrom;
      this.messageRadiusBottomTo := messageRadiusBottomTo;
      this.textMessagePadding := textMessagePadding;
      this.imageMessagePadding := imageMessagePadding;
      this.previewMessagePadding := previewMessagePadding;
      this.progressBarColor := progressBarColor;
      this.dateFormatter := dateFormatter;
      this.elevation := elevation;
      this.avatarScale := avatarScale;
      this.avatarShape := avatarShape;
      this.displayIncomingAvatars := displayIncomingAvatars;
      this.displayOutgoingAvatars := displayOutgoingAvatars;
      this.dateHeaderEnabled := dateHeaderEnabled;
      this.dateHeaderColor := dateHeaderColor;
      this.dateHeaderSeparationMinutes := dateHeaderSeparationMinutes;
      this.messageFont := messageFont;
      this.dateFont := dateFont;
      this.dateHeaderFont := dateHeaderFont;
      this.messageFontSize := messageFontSize;
      this.dateFontSize := dateFontSize;
      this.dateHeaderFontSize := dateHeaderFontSize;
    }

    /**
     * `getMessageRadiusPx`: top-from, top-to, bottom-to, bottom-from (the
     * doc comment claims bottom-from comes third; the code puts bottom-to there).
     */
    function MessageRadiusPx(): (radii: seq<real>)
      reads this
      ensures |radii| == 4
    {
      [messageRadiusTopFrom, messageRadiusTopTo, messageRadiusBottomTo, messageRadiusBottomFrom]
    }

    /** `getMessageRadiusPxDoubled`: the same four radii, each repeated twice. */
    function MessageRadiusPxDoubled(): (radii: seq<real>)
      reads this
      ensures |radii| == 8
      ensures forall i :: 0 <= i < 8 ==> radii[i] == MessageRadiusPx()[i / 2]
    {
      [messageRadiusTopFrom, messageRadiusTopFrom, messageRadiusTopTo, messageRadiusTopTo,
       messageRadiusBottomTo, messageRadiusBottomTo, messageRadiusBottomFrom, messageRadiusBottomFrom]
    }

    /** `setMessageRadiusPx`: the getter hands back the four radii in the setter's argument order. */
    method SetMessageRadiusPx(topFrom: real, topTo: real, bottomTo: real, bottomFrom: real)
      modifies this
      ensures MessageRadiusPx() == [topFrom, topTo, bottomTo, bottomFrom]
      ensures messageRadiusTopFrom == topFrom && messageRadiusTopTo == topTo
      ensures messageRadiusBottomTo == bottomTo && messageRadiusBottomFrom == bottomFrom
      ensures sentColor == old(sentColor) && sentMessageTextColor == old(sentMessageTextColor)
      ensures receivedColor == old(receivedColor) && receivedMessageTextColor == old(receivedMessageTextColor)
      ensures dateColor == old(dateColor) && textMessagePadding == old(textMessagePadding)
      ensures imageMessagePadding == old(imageMessagePadding) && previewMessagePadding == old(previewMessagePadding)
      ensures progressBarColor == old(progressBarColor) && elevation == old(elevation)
      ensures avatarScale == old(avatarScale) && avatarShape == old(avatarShape)
      ensures displayOutgoingAvatars == old(displayOutgoingAvatars)
      ensures displayIncomingAvatars == old(displayIncomingAvatars)
      ensures dateFormatter == old(dateFormatter) && dateHeaderEnabled == old(dateHeaderEnabled)
      ensures dateHeaderColor == old(dateHeaderColor)
      ensures dateHeaderSeparationMinutes == old(dateHeaderSeparationMinutes)
      ensures messageFont == old(messageFont) && dateFont == old(dateFont)
      ensures dateHeaderFont == old(dateHeaderFont)
      ensures messageFontSize == old(messageFontSize) && dateFontSize == old(dateFontSize)
      ensures dateHeaderFontSize == old(dateHeaderFontSize)
    {
      messageRadiusTopFrom := topFrom;
      messageRadiusTopTo := topTo;
      messageRadiusBottomTo := bottomTo;
      messageRadiusBottomFrom := bottomFrom;
    }

    /** `getAvatarShape`. */
    function AvatarShapeSetting(): Option<AvatarShape>
      reads this
    {
      AvatarShapeOf(avatarShape)
    }

    /** `getMessageFont`: the message font, else `Typeface.DEFAULT`. */
    function MessageFont(): (font: Typeface)
      reads this
      ensures font == FirstSet([messageFont])
    {
      if messageFont.None? then DefaultFont else messageFont.value
    }

    /** `getDateFont`: the date font, else the message font. */
    function DateFont(): (font: Typeface)
      reads this
      ensures font == FirstSet([dateFont, messageFont])
    {
      if dateFont.None? then MessageFont() else dateFont.value
    }

    /** `getDateHeaderFont`: the date-header font, else the date font. */
    function DateHeaderFont(): (font: Typeface)
      reads this
      ensures font == FirstSet([dateHeaderFont, dateFont, messageFont])
    {
      if dateHeaderFont.None? then DateFont() else dateHeaderFont.value
    }
  }
}
