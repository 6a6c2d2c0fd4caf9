/**
 * `TextMessage`: a message that is only its text. It keeps every default
 * of the base message (it is never parsable, has the lowest priority), so
 * text messages come from the parse fallback and from the image parser's
 * split, never from the registry loop itself.
 */
module TextMessages {
  import opened Wrappers
  import opened MessageModel

  /** `setMessage`: replaces the text and nothing else of the message. */
  method SetMessage(m: Message, message: Option<string>)
    requires m.body.TextBody?
    modifies m
    ensures m.body.TextBody? && GetMessage(m) == message
    ensures m.sentOn == old(m.sentOn) && m.position == old(m.position) && m.adapter == old(m.adapter)
  {
    m.body := TextBody(message);
  }

  /** `getMessage`: the text the message holds (null when none was given). */
  function GetMessage(m: Message): (message: Option<string>)
    requires m.body.TextBody?
    reads m
    ensures m.body == TextBody(message)
  {
    m.body.message
  }
}
