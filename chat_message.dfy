/** `ChatMessage`: one entry of the conversation. */
module ChatMessages {
  import opened Common

  /** `UUID` and `Date` are opaque to the app; identifiers are modelled as
      naturals and timestamps as integers. */
  type MessageId = nat
  type Timestamp = int

  datatype ChatMessage = ChatMessage(
    id: MessageId,
    text: string,
    isFromUser: bool,
    timestamp: Timestamp,
    wasVoiceInput: bool,
    language: Option<string>)

  /** The memberwise initializer with its defaults `wasVoiceInput = false` and
      `language = nil`; `id` and `timestamp` stand for the fresh `UUID()` and
      `Date()` the caller supplies. */
  function NewMessage(id: MessageId, text: string, isFromUser: bool, timestamp: Timestamp): (m: ChatMessage)
    ensures m.id == id && m.text == text && m.isFromUser == isFromUser && m.timestamp == timestamp
    ensures !m.wasVoiceInput && m.language == None
  {
    ChatMessage(id, text, isFromUser, timestamp, false, None)
  }

  /** The initializer with every argument given. */
  function NewMessageWith(id: MessageId, text: string, isFromUser: bool, timestamp: Timestamp,
                          wasVoiceInput: bool, language: Option<string>): (m: ChatMessage)
    ensures m.id == id && m.text == text && m.isFromUser == isFromUser && m.timestamp == timestamp
    ensures m.wasVoiceInput == wasVoiceInput && m.language == language
    ensures !wasVoiceInput && language == None ==> m == NewMessage(id, text, isFromUser, timestamp)
  {
    ChatMessage(id, text, isFromUser, timestamp, wasVoiceInput, language)
  }

  /** The `let` properties (`id`, `isFromUser`, `timestamp`) are the same in two messages. */
  predicate SameIdentity(a: ChatMessage, b: ChatMessage) {
    a.id == b.id && a.isFromUser == b.isFromUser && a.timestamp == b.timestamp
  }

  /** Assigning the mutable `text` property. */
  function WithText(m: ChatMessage, text: string): (r: ChatMessage)
    ensures SameIdentity(r, m) && r.text == text
    ensures r.wasVoiceInput == m.wasVoiceInput && r.language == m.language
  {
    m.(text := text)
  }

  /** Assigning the mutable `wasVoiceInput` property. */
  function WithVoiceInput(m: ChatMessage, wasVoiceInput: bool): (r: ChatMessage)
    ensures SameIdentity(r, m) && r.wasVoiceInput == wasVoiceInput
    ensures r.text == m.text && r.language == m.language
  {
    m.(wasVoiceInput := wasVoiceInput)
  }

  /** Assigning the mutable `language` property. */
  function WithLanguage(m: ChatMessage, language: Option<string>): (r: ChatMessage)
    ensures SameIdentity(r, m) && r.language == language
    ensures r.text == m.text && r.wasVoiceInput == m.wasVoiceInput
  {
    m.(language := language)
  }

  /** Synthesized `Equatable`: two messages are equal exactly when all six
      properties are. */
  lemma EqualityIsMemberwise(a: ChatMessage, b: ChatMessage)
    ensures a == b <==> (a.id == b.id && a.text == b.text && a.isFromUser == b.isFromUser
                         && a.timestamp == b.timestamp && a.wasVoiceInput == b.wasVoiceInput
                         && a.language == b.language)
  {
  }
}
