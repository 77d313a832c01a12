/** `ChatBubbleView.displayedText`: how much of a message a bubble shows while
    the typewriter effect is running. */
module ChatBubble {
  import opened Common
  import opened ChatMessages

  /** A user message, or a bot message without a count, shows its whole text; a
      bot message with count `c` shows its first `min(c, length)` characters.
      (`prefix(_:)` traps on a negative length, so the count must not be one.) */
  function DisplayedText(message: ChatMessage, count: Option<int>): (r: string)
    requires count.Some? ==> count.value >= 0
    ensures r <= message.text
    ensures message.isFromUser || count.None? ==> r == message.text
    ensures !message.isFromUser && count.Some? ==>
              |r| == (if count.value < |message.text| then count.value else |message.text|)
  {
    if message.isFromUser || count.None? then message.text
    else
      var end := if count.value < |message.text| then count.value else |message.text|;
      message.text[..end]
  }

  /** A count that covers the text shows all of it; a smaller one shows a strict prefix. */
  lemma DisplayedTextComplete(message: ChatMessage, c: nat)
    ensures DisplayedText(message, Some(c)) == message.text <==> message.isFromUser || c >= |message.text|
  {
  }

  /** A growing count reveals a growing prefix. */
  lemma DisplayedTextMonotone(message: ChatMessage, c: nat, d: nat)
    requires c <= d
    ensures DisplayedText(message, Some(c)) <= DisplayedText(message, Some(d))
  {
  }
}
