/** `DialogView`: the chat screen's state. Sending a message, receiving the
    answer or a failure, retrying, the greeting, the typewriter reveal of bot
    messages and which messages are kept as history. */
module DialogScreen {
  import opened Common
  import opened Avatars
  import opened ChatMessages
  import opened ChatBubble
  import DialogApi

  const MaxHistoryCount: nat := 500
  const Greeting: string := "Hello! How can I help you today?"
  const ConnectionTrouble: string := "I'm having trouble connecting. Please try again."

  // ---------------------------------------------------------------------------
  // Chat history

  /** `saveChatHistory()` keeps `messages.suffix(maxHistoryCount)`: the newest
      500 messages (all of them when there are fewer), in their order. */
  function HistoryToSave(messages: seq<ChatMessage>): (r: seq<ChatMessage>)
    ensures |r| == if |messages| < MaxHistoryCount then |messages| else MaxHistoryCount
  {
    if |messages| <= MaxHistoryCount then messages else messages[|messages| - MaxHistoryCount..]
  }

  /** What is saved is a suffix of the conversation: the dropped messages are
      exactly the oldest ones. Stated apart from `HistoryToSave` so that the
      handlers which save the history do not carry it. */
  lemma HistoryIsSuffix(messages: seq<ChatMessage>)
    ensures var r := HistoryToSave(messages);
            messages == messages[..|messages| - |r|] + r
  {
  }

  /** Saving what was saved keeps it whole. */
  lemma HistoryIdempotent(messages: seq<ChatMessage>)
    ensures HistoryToSave(HistoryToSave(messages)) == HistoryToSave(messages)
  {
  }

  /** Capping after every append is the same as capping the whole
      conversation: the newest message always survives and the oldest goes. */
  lemma {:induction false} HistoryOfAppend(messages: seq<ChatMessage>, m: ChatMessage)
    ensures HistoryToSave(HistoryToSave(messages) + [m]) == HistoryToSave(messages + [m])
    ensures HistoryToSave(messages + [m])[|HistoryToSave(messages + [m])| - 1] == m
  {
    var n := |messages|;
    if n >= MaxHistoryCount {
      var h := messages[n - MaxHistoryCount..];
      assert (h + [m])[1..] == (messages + [m])[n + 1 - MaxHistoryCount..];
    }
  }

  // ---------------------------------------------------------------------------
  // Words of the word-by-word typewriter

  /** The words joined with single spaces (the inverse of the split below). */
  function JoinSpaces(words: seq<string>): string {
    if |words| == 0 then ""
    else if |words| == 1 then words[0]
    else JoinSpaces(words[..|words| - 1]) + " " + words[|words| - 1]
  }

  /** `split(separator: " ", omittingEmptySubsequences: false)`: the pieces
      between spaces, empty ones included, so there is always at least one
      piece, no piece holds a space, and joining them gives the text back. */
  function SplitSpaces(s: string): (r: seq<string>)
    ensures |r| >= 1
    ensures forall i :: 0 <= i < |r| ==> ' ' !in r[i]
    ensures JoinSpaces(r) == s
  {
    if s == [] then [""]
    else
      var rest := SplitSpaces(s[..|s| - 1]);
      var c := s[|s| - 1];
      assert s == s[..|s| - 1] + [c];
      if c == ' ' then
        assert (rest + [""])[..|rest|] == rest;
        rest + [""]
      else
        var r := rest[..|rest| - 1] + [rest[|rest| - 1] + [c]];
        assert r[..|r| - 1] == rest[..|rest| - 1];
        r
  }

  /** The number of characters revealed after word `n - 1`: the lengths of the
      first `n` words plus the `n - 1` spaces between them. */
  function WordsRevealed(words: seq<string>, n: nat): nat
    requires n <= |words|
  {
    if n == 0 then 0
    else WordsRevealed(words, n - 1) + |words[n - 1]| + (if n > 1 then 1 else 0)
  }

  /** The revealed count is the length of the first `n` words joined, which
      is a prefix of the whole text. */
  lemma {:induction false} WordsRevealedIsJoinedPrefix(words: seq<string>, n: nat)
    requires n <= |words|
    ensures WordsRevealed(words, n) == |JoinSpaces(words[..n])|
    ensures JoinSpaces(words[..n]) <= JoinSpaces(words)
    decreases |words|
  {
    if n == |words| {
      assert words[..n] == words;
      if n > 0 {
        WordsRevealedIsJoinedPrefix(words[..n - 1], n - 1);
        assert words[..n - 1][..n - 1] == words[..n - 1];
        RevealedDependsOnPrefix(words, n - 1);
      }
    } else {
      var init := words[..|words| - 1];
      WordsRevealedIsJoinedPrefix(init, n);
      assert init[..n] == words[..n];
      RevealedDependsOnPrefix(words, n);
    }
  }

  /** The count after `n` words depends on those words only. */
  lemma {:induction false} RevealedDependsOnPrefix(words: seq<string>, n: nat)
    requires n < |words|
    ensures WordsRevealed(words, n) == WordsRevealed(words[..|words| - 1], n)
  {
    if n > 0 {
      RevealedDependsOnPrefix(words, n - 1);
    }
  }

  /** The counts never decrease from one word to the next. */
  lemma WordsRevealedMonotone(words: seq<string>, m: nat, n: nat)
    requires m <= n <= |words|
    ensures WordsRevealed(words, m) <= WordsRevealed(words, n)
    decreases n
  {
    if m < n {
      WordsRevealedMonotone(words, m, n - 1);
    }
  }

  /** Every count is at most the text's length, and the last one is exactly it. */
  lemma WordsRevealedBounded(s: string, n: nat)
    requires n <= |SplitSpaces(s)|
    ensures WordsRevealed(SplitSpaces(s), n) <= |s|
    ensures n == |SplitSpaces(s)| ==> WordsRevealed(SplitSpaces(s), n) == |s|
  {
    var words := SplitSpaces(s);
    WordsRevealedIsJoinedPrefix(words, n);
    assert n == |words| ==> words[..n] == words;
  }

  // ---------------------------------------------------------------------------
  // Typewriter ticks

  /** How many ticks in a row find the message still being typed: the ticks
      before another message takes over. */
  function LeadingTrue(current: seq<bool>): (n: nat)
    ensures n <= |current|
    ensures forall j :: 0 <= j < n ==> current[j]
    ensures n < |current| ==> !current[n]
  {
    if current == [] || !current[0] then 0 else 1 + LeadingTrue(current[1..])
  }

  /** The asynchronous reveal task `startTypewriter` leaves running, if any. */
  datatype Typewriter = NoTypewriter | CharTypewriter(id: MessageId, total: nat) | WordTypewriter(id: MessageId, text: string)

  /** `millisecondsPerWord(isFemale:)`: 1000 divided by words per second
      (127.5 or 142.5 words a minute), truncated. */
  function MillisecondsPerWord(isFemale: bool): (r: int)
    ensures r > 0
  {
    if isFemale then 470 else 421
  }

  /** The persisted settings, with their defaults. */
  datatype Settings = Settings(
    voiceOutputEnabled: bool,
    alwaysVoiceResponse: bool,
    typingIndicatorEnabled: bool,
    genderMatchedVoice: bool,
    streamingTextEnabled: bool)

  const DefaultSettings: Settings := Settings(false, false, true, true, true)

  /** A request handed to the speech service: text, language and voice gender. */
  datatype SpeechRequest = SpeechRequest(text: string, language: string, preferMale: Option<bool>)

  /** The avatar's animation state after the input field changes to `val`:
      typing wakes an idle avatar, clearing the field (while not recording)
      calms a thinking one, and nothing else changes it. */
  function AvatarAfterInput(state: AvatarAnimState, val: string, isRecording: bool): (r: AvatarAnimState)
    ensures state == Speaking ==> r == Speaking
    ensures r != state ==> (state == Idle && val != [] && r == Thinking)
                           || (state == Thinking && val == [] && !isRecording && r == Idle)
    ensures state == Idle && val != [] ==> r == Thinking
    ensures state == Thinking && val == [] && !isRecording ==> r == Idle
  {
    if val != [] && state == Idle then Thinking
    else if val == [] && state == Thinking && !isRecording then Idle
    else state
  }

  /** Reporting the same input twice changes nothing more. */
  lemma AvatarAfterInputIdempotent(state: AvatarAnimState, val: string, isRecording: bool)
    ensures AvatarAfterInput(AvatarAfterInput(state, val, isRecording), val, isRecording)
            == AvatarAfterInput(state, val, isRecording)
  {
  }

  class DialogView {
    const avatarType: AvatarType
    /** `Locale.current.languageCode`, read by `getDeviceLanguage`. */
    const systemLanguage: Option<string>
    const settings: Settings

    var messages: seq<ChatMessage>
    var inputText: string
    var isLoading: bool
    var errorMessage: Option<string>
    var lastFailedMessage: Option<string>
    var hasPlayedGreeting: bool
    var typingMessageId: Option<MessageId>
    var typingDisplayedCount: nat
    var avatarState: AvatarAnimState
    var wasVoiceInput: bool
    var showTypingIndicator: bool
    /** The next fresh message identifier (`UUID()`). */
    var nextId: MessageId
    /** The `chatHistory` entry of the app's defaults store. */
    var savedHistory: Option<seq<ChatMessage>>
    /** Everything handed to the speech service, oldest first. */
    var spoken: seq<SpeechRequest>

    constructor (avatarType: AvatarType, systemLanguage: Option<string>, settings: Settings, savedHistory: Option<seq<ChatMessage>>)
      ensures this.avatarType == avatarType && this.systemLanguage == systemLanguage && this.settings == settings
      ensures messages == [] && inputText == [] && !isLoading && errorMessage == None && lastFailedMessage == None
      ensures !hasPlayedGreeting && typingMessageId == None && typingDisplayedCount == 0 && avatarState == Idle
      ensures !wasVoiceInput && !showTypingIndicator && nextId == 0
      ensures this.savedHistory == savedHistory && spoken == []
    {
      this.avatarType := avatarType;
      this.systemLanguage := systemLanguage;
      this.settings := settings;
      this.savedHistory := savedHistory;
      messages := [];
      inputText := [];
      isLoading := false;
      errorMessage := None;
      lastFailedMessage := None;
      hasPlayedGreeting := false;
      typingMessageId := None;
      typingDisplayedCount := 0;
      avatarState := Idle;
      wasVoiceInput := false;
      showTypingIndicator := false;
      nextId := 0;
      spoken := [];
    }

    /** `dialogLanguage`. */
    function DialogLanguage(): string
    {
      DialogApi.GetDeviceLanguage(systemLanguage)
    }

    /** The voice gender asked for: the avatar's when gender matching is on. */
    function PreferMale(): (r: Option<bool>)
      ensures r.Some? <==> settings.genderMatchedVoice
      ensures r.Some? ==> (r.value <==> avatarType == Male)
    {
      if settings.genderMatchedVoice then Some(avatarType == Male) else None
    }

    /** What the bubble of `m` shows: a bot message being typed shows the
        revealed count, every other message its whole text. */
    function BubbleText(m: ChatMessage): (r: string)
      reads this
      ensures r <= m.text
      ensures typingMessageId != Some(m.id) || m.isFromUser ==> r == m.text
      ensures typingMessageId == Some(m.id) && !m.isFromUser ==>
                |r| == if typingDisplayedCount < |m.text| then typingDisplayedCount else |m.text|
    {
      DisplayedText(m, if m.isFromUser then None
                       else if typingMessageId == Some(m.id) then Some(typingDisplayedCount as int)
                       else None)
    }

    /** The state `startTypewriter` leaves for message `id` with text `text`:
        nothing to type for an empty text, everything at once when streaming
        is off, else the counter at 0 and a reveal task. */
    ghost predicate TypewriterStarted(id: MessageId, text: string, wordByWord: bool, msPerWord: int, task: Typewriter)
      reads this`typingMessageId, this`typingDisplayedCount
    {
      if text == [] then typingMessageId == None && typingDisplayedCount == 0 && task == NoTypewriter
      else if !settings.streamingTextEnabled then
        typingMessageId == None && typingDisplayedCount == |text| && task == NoTypewriter
      else
        typingMessageId == Some(id) && typingDisplayedCount == 0
        && task == (if wordByWord && msPerWord > 0 then WordTypewriter(id, text) else CharTypewriter(id, |text|))
    }

    /** The synchronous part of `startTypewriter(messageId:fullText:wordByWord:msPerWord:)`. */
    method StartTypewriter(messageId: MessageId, fullText: string, wordByWord: bool, msPerWord: int)
      returns (task: Typewriter)
      modifies this`typingMessageId, this`typingDisplayedCount
      ensures TypewriterStarted(messageId, fullText, wordByWord, msPerWord, task)
    {
      typingMessageId := Some(messageId);
      typingDisplayedCount := 0;
      var total := |fullText|;
      if total == 0 {
        typingMessageId := None;
        return NoTypewriter;
      }
      if !settings.streamingTextEnabled {
        typingDisplayedCount := total;
        typingMessageId := None;
        return NoTypewriter;
      }
      if wordByWord && msPerWord > 0 {
        task := WordTypewriter(messageId, fullText);
      } else {
        task := CharTypewriter(messageId, total);
      }
    }

    /** The character-paced reveal task. `current[i - 1]` says whether, at
        tick `i`, the message is still the one being typed. The count takes
        the values 1, 2, … in order until the text is complete or another
        message has taken over; only a complete run clears `typingMessageId`. */
    method RunCharTypewriter(messageId: MessageId, total: nat, current: seq<bool>) returns (shown: seq<nat>)
      requires total > 0 && |current| == total
      modifies this`typingDisplayedCount, this`typingMessageId
      ensures var k := LeadingTrue(current);
              && |shown| == k
              && (forall j :: 0 <= j < k ==> shown[j] == j + 1)
              && typingDisplayedCount == (if k == 0 then old(typingDisplayedCount) else k)
              && typingMessageId == (if k == total then None else old(typingMessageId))
    {
      shown := [];
      for i := 1 to total + 1
        invariant |shown| == i - 1
        invariant forall j :: 0 <= j < i - 1 ==> shown[j] == j + 1 && current[j]
        invariant typingDisplayedCount == if i == 1 then old(typingDisplayedCount) else i - 1
        invariant typingMessageId == old(typingMessageId)
      {
        if !current[i - 1] {
          return;
        }
        typingDisplayedCount := i;
        shown := shown + [i];
      }
      typingMessageId := None;
    }

    /** The word-paced reveal task. After word `i` the count is the length of
        words 0 to `i` plus the spaces between them; the check for another
        message comes after the count is set (`current[i]`). A complete run
        ends at the full length with `typingMessageId` cleared. */
    method RunWordTypewriter(messageId: MessageId, fullText: string, current: seq<bool>) returns (shown: seq<nat>)
      requires |fullText| > 0 && |current| == |SplitSpaces(fullText)|
      modifies this`typingDisplayedCount, this`typingMessageId
      ensures var words := SplitSpaces(fullText);
              var k := LeadingTrue(current);
              && |shown| == (if k == |words| then k else k + 1)
              && (forall j :: 0 <= j < |shown| ==> shown[j] == WordsRevealed(words, j + 1))
              && (k == |words| ==> typingDisplayedCount == |fullText| && typingMessageId == None)
              && (k < |words| ==> typingDisplayedCount == shown[k] && typingMessageId == old(typingMessageId))
    {
      var words := SplitSpaces(fullText);
      var total := |fullText|;
      var charCount := 0;
      shown := [];
      for i := 0 to |words|
        invariant charCount == WordsRevealed(words, i)
        invariant |shown| == i
        invariant forall j :: 0 <= j < i ==> shown[j] == WordsRevealed(words, j + 1) && current[j]
        invariant typingMessageId == old(typingMessageId)
      {
        charCount := charCount + |words[i]| + (if i > 0 then 1 else 0);
        WordsRevealedBounded(fullText, i + 1);
        typingDisplayedCount := if charCount < total then charCount else total;
        shown := shown + [typingDisplayedCount];
        if !current[i] {
          return;
        }
      }
      typingDisplayedCount := total;
      typingMessageId := None;
    }

    /** The input field's `onChange` rule. */
    method InputChanged(val: string, isRecording: bool)
      modifies this`inputText, this`avatarState
      ensures inputText == val
      ensures avatarState == AvatarAfterInput(old(avatarState), val, isRecording)
    {
      inputText := val;
      if val != [] && avatarState == Idle {
        avatarState := Thinking;
      } else if val == [] && avatarState == Thinking && !isRecording {
        avatarState := Idle;
      }
    }

    /** `playGreetingIfNeeded()`: once per screen (until the chat is cleared)
        the greeting is appended, typed out and, with voice output on, spoken. */
    method PlayGreetingIfNeeded(now: Timestamp) returns (task: Typewriter)
      modifies this`hasPlayedGreeting, this`messages, this`nextId, this`typingMessageId,
               this`typingDisplayedCount, this`spoken
      ensures old(hasPlayedGreeting) ==> unchanged(this) && task == NoTypewriter
      ensures !old(hasPlayedGreeting) ==>
                && hasPlayedGreeting
                && messages == old(messages) + [NewMessage(old(nextId), Greeting, false, now)]
                && nextId == old(nextId) + 1
                && TypewriterStarted(old(nextId), Greeting, false, 0, task)
                && spoken == old(spoken) + (if settings.voiceOutputEnabled
                                            then [SpeechRequest(Greeting, DialogLanguage(), PreferMale())] else [])
    {
      if hasPlayedGreeting {
        return NoTypewriter;
      }
      hasPlayedGreeting := true;
      var msg := NewMessage(nextId, Greeting, false, now);
      nextId := nextId + 1;
      messages := messages + [msg];
      task := StartTypewriter(msg.id, Greeting, false, 0);
      if settings.voiceOutputEnabled {
        spoken := spoken + [SpeechRequest(Greeting, DialogLanguage(), PreferMale())];
      }
    }

    /** The synchronous part of `sendMessage(_:fromVoice:isRetry:)`. Blank text
        changes nothing. Otherwise a first send clears the field and appends
        the trimmed text as a user message (a retry appends nothing), the
        error state is cleared, and the avatar thinks while loading. The
        trimmed text to send is returned. */
    method BeginSend(text: string, fromVoice: bool, isRetry: bool, now: Timestamp) returns (sending: Option<string>)
      modifies this`wasVoiceInput, this`inputText, this`messages, this`nextId, this`errorMessage,
               this`lastFailedMessage, this`isLoading, this`avatarState, this`showTypingIndicator
      ensures Trim(text) == [] ==> sending == None && unchanged(this)
      ensures Trim(text) != [] ==>
                && sending == Some(Trim(text))
                && wasVoiceInput == fromVoice
                && inputText == (if isRetry then old(inputText) else [])
                && messages == old(messages) + (if isRetry then [] else
                     [NewMessageWith(old(nextId), Trim(text), true, now, fromVoice, Some(DialogLanguage()))])
                && nextId == old(nextId) + (if isRetry then 0 else 1)
                && errorMessage == None && lastFailedMessage == None && isLoading && avatarState == Thinking
                && showTypingIndicator == (settings.typingIndicatorEnabled || old(showTypingIndicator))
    {
      var trimmed := Trim(text);
      if trimmed == [] {
        return None;
      }
      StartSending(trimmed, fromVoice, isRetry, now);
      sending := Some(trimmed);
    }

    /** `sendMessage(_:fromVoice:isRetry:)` once the text is known not to be blank. */
    method StartSending(trimmed: string, fromVoice: bool, isRetry: bool, now: Timestamp)
      modifies this`wasVoiceInput, this`inputText, this`messages, this`nextId, this`errorMessage,
               this`lastFailedMessage, this`isLoading, this`avatarState, this`showTypingIndicator
      ensures wasVoiceInput == fromVoice
      ensures inputText == (if isRetry then old(inputText) else [])
      ensures messages == old(messages) + (if isRetry then [] else
                [NewMessageWith(old(nextId), trimmed, true, now, fromVoice, Some(DialogLanguage()))])
      ensures nextId == old(nextId) + (if isRetry then 0 else 1)
      ensures errorMessage == None && lastFailedMessage == None && isLoading && avatarState == Thinking
      ensures showTypingIndicator == (settings.typingIndicatorEnabled || old(showTypingIndicator))
    {
      wasVoiceInput := fromVoice;
      if !isRetry {
        inputText := [];
        messages := messages + [NewMessageWith(nextId, trimmed, true, now, fromVoice, Some(DialogLanguage()))];
        nextId := nextId + 1;
      }
      errorMessage := None;
      lastFailedMessage := None;
      isLoading := true;
      avatarState := Thinking;
      if settings.typingIndicatorEnabled {
        showTypingIndicator := true;
      }
    }

    /** The answer arrived: it is appended as a bot message, loading ends, the
        avatar speaks, the answer is typed out (word by word and spoken when
        the question was spoken or voice answers are forced, with voice output
        on) and the history is saved. */
    method ReceiveReply(response: string, fromVoice: bool, now: Timestamp) returns (task: Typewriter)
      modifies this`showTypingIndicator, this`messages, this`nextId, this`isLoading, this`avatarState,
               this`typingMessageId, this`typingDisplayedCount, this`spoken, this`savedHistory
      ensures messages == old(messages) + [NewMessageWith(old(nextId), response, false, now, fromVoice, Some(DialogLanguage()))]
      ensures nextId == old(nextId) + 1
      ensures !showTypingIndicator && !isLoading && avatarState == Speaking
      ensures var shouldSpeak := (fromVoice || settings.alwaysVoiceResponse) && settings.voiceOutputEnabled;
              && TypewriterStarted(old(nextId), response, shouldSpeak, MillisecondsPerWord(IsFemale(avatarType)), task)
              && spoken == old(spoken) + (if shouldSpeak then [SpeechRequest(response, DialogLanguage(), PreferMale())] else [])
      ensures savedHistory == Some(HistoryToSave(messages))
    {
      var id := AppendReply(response, fromVoice, now);
      var shouldSpeak := (fromVoice || settings.alwaysVoiceResponse) && settings.voiceOutputEnabled;
      task := PresentReply(id, response, shouldSpeak);
      SaveChatHistory();
    }

    /** The bookkeeping half of the reply handler: the indicator and the
        loading state end and the bot message is appended. */
    method AppendReply(response: string, fromVoice: bool, now: Timestamp) returns (id: MessageId)
      modifies this`showTypingIndicator, this`messages, this`nextId, this`isLoading
      ensures id == old(nextId) && nextId == old(nextId) + 1
      ensures messages == old(messages) + [NewMessageWith(id, response, false, now, fromVoice, Some(DialogLanguage()))]
      ensures !showTypingIndicator && !isLoading
    {
      showTypingIndicator := false;
      var botMsg := NewMessageWith(nextId, response, false, now, fromVoice, Some(DialogLanguage()));
      id := nextId;
      nextId := nextId + 1;
      messages := messages + [botMsg];
      isLoading := false;
    }

    /** The two branches of the reply handler: a spoken reply is revealed word
        by word at the voice's pace and queued for speech, a silent one is
        revealed by characters; in both the avatar speaks. */
    method PresentReply(id: MessageId, response: string, shouldSpeak: bool) returns (task: Typewriter)
      modifies this`typingMessageId, this`typingDisplayedCount, this`avatarState, this`spoken
      ensures avatarState == Speaking
      ensures TypewriterStarted(id, response, shouldSpeak, MillisecondsPerWord(IsFemale(avatarType)), task)
      ensures spoken == old(spoken) + (if shouldSpeak then [SpeechRequest(response, DialogLanguage(), PreferMale())] else [])
    {
      if shouldSpeak {
        var msPerWord := MillisecondsPerWord(IsFemale(avatarType));
        task := StartTypewriter(id, response, true, msPerWord);
        avatarState := Speaking;
        spoken := spoken + [SpeechRequest(response, DialogLanguage(), PreferMale())];
      } else {
        avatarState := Speaking;
        task := StartTypewriter(id, response, false, 0);
      }
    }

    /** Sending failed: loading ends with the error's description shown, the
        trimmed text is kept for a retry, the avatar goes idle, one fallback
        bot message is appended and typed out, and the history is saved. */
    method ReceiveFailure(trimmed: string, failure: DialogApi.SendFailure, now: Timestamp) returns (task: Typewriter)
      modifies this`showTypingIndicator, this`isLoading, this`errorMessage, this`lastFailedMessage,
               this`avatarState, this`messages, this`nextId, this`typingMessageId, this`typingDisplayedCount,
               this`savedHistory
      ensures !showTypingIndicator && !isLoading && avatarState == Idle
      ensures errorMessage == Some(DialogApi.FailureDescription(failure))
      ensures lastFailedMessage == Some(trimmed)
      ensures messages == old(messages) + [NewMessage(old(nextId), ConnectionTrouble, false, now)]
      ensures nextId == old(nextId) + 1
      ensures TypewriterStarted(old(nextId), ConnectionTrouble, false, 0, task)
      ensures savedHistory == Some(HistoryToSave(messages))
    {
      ShowFailure(trimmed, DialogApi.FailureDescription(failure));
      var fallback := AppendFallback(now);
      task := StartTypewriter(fallback.id, fallback.text, false, 0);
      SaveChatHistory();
    }

    /** The state half of the failure handler: loading ends, the error is
        shown, the text is kept for a retry and the avatar is idle. */
    method ShowFailure(trimmed: string, description: string)
      modifies this`showTypingIndicator, this`isLoading, this`errorMessage, this`lastFailedMessage, this`avatarState
      ensures !showTypingIndicator && !isLoading && avatarState == Idle
      ensures errorMessage == Some(description)
      ensures lastFailedMessage == Some(trimmed)
    {
      showTypingIndicator := false;
      isLoading := false;
      errorMessage := Some(description);
      lastFailedMessage := Some(trimmed);
      avatarState := Idle;
    }

    /** The apology the failure handler appends to the conversation. */
    method AppendFallback(now: Timestamp) returns (fallback: ChatMessage)
      modifies this`messages, this`nextId
      ensures fallback == NewMessage(old(nextId), ConnectionTrouble, false, now)
      ensures nextId == old(nextId) + 1 && messages == old(messages) + [fallback]
    {
      fallback := NewMessage(nextId, ConnectionTrouble, false, now);
      nextId := nextId + 1;
      messages := messages + [fallback];
    }

    /** `retryLastMessage()`: nothing without a failed message; otherwise the
        failed text is sent again as a retry, so no user message is added. */
    method RetryLastMessage(now: Timestamp) returns (sending: Option<string>)
      modifies this`wasVoiceInput, this`inputText, this`messages, this`nextId, this`errorMessage,
               this`lastFailedMessage, this`isLoading, this`avatarState, this`showTypingIndicator
      ensures old(lastFailedMessage).None? ==> sending == None && unchanged(this)
      ensures old(lastFailedMessage).Some? && Trim(old(lastFailedMessage).value) == [] ==>
                sending == None && unchanged(this)
      ensures old(lastFailedMessage).Some? && Trim(old(lastFailedMessage).value) != [] ==>
                && sending == Some(Trim(old(lastFailedMessage).value))
                && messages == old(messages) && nextId == old(nextId) && inputText == old(inputText)
                && wasVoiceInput == old(wasVoiceInput)
                && errorMessage == None && lastFailedMessage == None && isLoading && avatarState == Thinking
                && showTypingIndicator == (settings.typingIndicatorEnabled || old(showTypingIndicator))
    {
      if lastFailedMessage.None? {
        return None;
      }
      sending := BeginSend(lastFailedMessage.value, wasVoiceInput, true, now);
    }

    /** The speech completion and `onSpeakingCompleted`: the avatar goes idle. */
    method SpeechCompleted()
      modifies this`avatarState
      ensures avatarState == Idle
    {
      avatarState := Idle;
    }

    /** `onSpeakingStarted`: the avatar speaks. */
    method SpeechStarted()
      modifies this`avatarState
      ensures avatarState == Speaking
    {
      avatarState := Speaking;
    }

    /** The delayed check after a silent answer: a speaking avatar goes idle. */
    method DisplayTimeElapsed()
      modifies this`avatarState
      ensures avatarState == (if old(avatarState) == Speaking then Idle else old(avatarState))
    {
      if avatarState == Speaking {
        avatarState := Idle;
      }
    }

    /** `saveChatHistory()`. */
    method SaveChatHistory()
      modifies this`savedHistory
      ensures savedHistory == Some(HistoryToSave(messages))
    {
      savedHistory := Some(HistoryToSave(messages));
    }

    /** `loadChatHistory()`: the saved messages replace the current ones, if any
        were saved. */
    method LoadChatHistory()
      modifies this`messages
      ensures messages == (if savedHistory.Some? then savedHistory.value else old(messages))
    {
      if savedHistory.Some? {
        messages := savedHistory.value;
      }
    }

    /** `clearChatHistory()`: the conversation and the saved history are
        dropped and the greeting plays again, so it is the only message. */
    method ClearChatHistory(now: Timestamp) returns (task: Typewriter)
      modifies this`messages, this`savedHistory, this`hasPlayedGreeting, this`nextId,
               this`typingMessageId, this`typingDisplayedCount, this`spoken
      ensures messages == [NewMessage(old(nextId), Greeting, false, now)]
      ensures savedHistory == None && hasPlayedGreeting
      ensures nextId == old(nextId) + 1
      ensures TypewriterStarted(old(nextId), Greeting, false, 0, task)
      ensures spoken == old(spoken) + (if settings.voiceOutputEnabled
                                       then [SpeechRequest(Greeting, DialogLanguage(), PreferMale())] else [])
    {
      messages := [];
      savedHistory := None;
      hasPlayedGreeting := false;
      task := PlayGreetingIfNeeded(now);
    }
  }

  /** The greeting is appended at most once however often the screen appears. */
  method GreetingPlaysOnce(view: DialogView, now: Timestamp, later: Timestamp)
    modifies view
    ensures |view.messages| == |old(view.messages)| + (if old(view.hasPlayedGreeting) then 0 else 1)
  {
    var _ := view.PlayGreetingIfNeeded(now);
    var _ := view.PlayGreetingIfNeeded(later);
  }

  /** Loading right after saving brings back the newest 500 messages. */
  method SaveThenLoad(view: DialogView)
    modifies view
    ensures view.messages == HistoryToSave(old(view.messages))
  {
    view.SaveChatHistory();
    view.LoadChatHistory();
  }

  /** Once a character reveal runs to the end, the typed message's bubble
      shows its whole text. */
  method CompleteRevealShowsAll(view: DialogView, m: ChatMessage, current: seq<bool>)
    requires |m.text| > 0 && |current| == |m.text| && forall j :: 0 <= j < |current| ==> current[j]
    modifies view
    ensures view.BubbleText(m) == m.text
  {
    var _ := view.RunCharTypewriter(m.id, |m.text|, current);
  }
}
