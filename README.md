# Voice-chat client core, modelled in Dafny

This project models the logic of a SwiftUI voice-assistant chat app (an iOS client of a dialog backend and an auth backend). It does not model the views' layout. It covers:

- **Backend contract.**
  - `DialogApiService.sendMessage` turns HTTP replies into an answer, an error or a retry. It retries server failures at most four times, waiting 2, 3, 4 and 5 seconds.
  - `AuthService` handles login, registration and logout. It reads a token out of a JSON or plain-text reply and builds the error texts the user sees.
- **Locale codes.** `formatLocale`, `normalizeLocale` and `getDeviceLanguage`.
- **Keychain.** A map from account names to strings.
- **Speech service.** The hand-off of the speech completion callback.
- **Chat screen.**
  - Send, reply, failure and retry transitions, and the greeting.
  - The two typewriter reveals, the 500-message history cap, and the prefix a chat bubble shows.
- **Navigation.**
  - The root screen choice, the avatar carousel and the first-run avatar picker.
  - The login form, including the byte extraction of `Color(hex:)`.

How the platform is represented:

- **Values.** The app's `struct`s and enums are datatypes.
- **State.** Each object or view whose state the source mutates is a class, with `modifies` frames on its methods.
- **Network.**
  - An HTTP exchange is an input value: a response record with the status, the body as text (None when it is not UTF-8) and the body as a JSON object (None when it is not one), or a transport error, or a non-HTTP reply.
  - The retry loop receives what the network does on each attempt as a sequence.
- **Asynchronous work.** Tasks and delayed work are split into separate operations that run in sequence:
  - a send is `BeginSend`, then `ReceiveReply` or `ReceiveFailure`;
  - a typewriter is `StartTypewriter`, then a `Run…Typewriter` task.
  - Whether a typed message is still the current one at each tick is an input `seq<bool>`.
- **Platform values.**
  - `UUID()` is a counter and `Date()` is a parameter.
  - `Locale.current.languageCode`, the vendor identifier and "is a voice installed" are parameters.
  - The configuration flags (`useDemoMode`, whether the URL is valid) are parameters.

The reply parser's `??` chain at DialogAPIService.swift:125 stops at the first property that is present, even if it is empty. An empty `queryResponse` therefore hides a non-empty `response`, and the raw body is returned instead (`DialogApi.EmptyQueryResponseHidesResponse`).

## Model

| member | source | states |
|---|---|---|
| Common.FirstSome | MVP/MVP/Services/AuthService.swift:27 | Swift's `??` on optionals: the first operand when present, else the second. |
| Common.TrimStart | MVP/MVP/Views/DialogView.swift:438 | Leading trim: the result is a suffix of the input, everything cut is whitespace, and the result does not start with whitespace. |
| Common.TrimEnd | MVP/MVP/Views/DialogView.swift:438 | Trailing trim: the result is a prefix of the input, everything cut is whitespace, and the result does not end with whitespace. |
| Common.TrimBoundaries | MVP/MVP/Views/DialogView.swift:438 | `trimmingCharacters(in: .whitespacesAndNewlines)` yields "" or a string whose first and last characters are not whitespace. |
| Common.TrimIsCore | MVP/MVP/Views/DialogView.swift:438 | The trimmed text is a contiguous slice of the input, and everything outside the slice is whitespace. |
| Common.TrimTail | MVP/MVP/Views/DialogView.swift:438 | What trimming drops after the kept slice is whitespace. |
| Common.TrimEmptyIff | MVP/MVP/Views/DialogView.swift:438-439 | A text trims to "" exactly when it is all whitespace, which is what the blank-message guard tests. |
| Common.TrimIdempotent | MVP/MVP/Services/AuthService.swift:112-116 | Trimming twice is the same as trimming once. |
| Common.Lower | MVP/MVP/Services/TextToSpeechService.swift:102 | `lowercased()`: same length, and each character is mapped by `LowerChar`. |
| Common.LowerOfLowercase | MVP/MVP/Services/TextToSpeechService.swift:112 | A string with no upper-case letters lower-cases to itself. |
| Common.LowerIdempotent | MVP/MVP/Services/TextToSpeechService.swift:112 | Lower-casing twice is the same as once. |
| Http.OptionalString | MVP/MVP/Services/AuthService.swift:22-24 | Decoding a `String?` property: absent or null gives nil, a string gives it, and any other JSON value fails the whole decode. |
| Http.RequiredString | MVP/MVP/Services/DialogAPIService.swift:8-10 | Decoding a non-optional `String` property: only a JSON string decodes. |
| Http.Field | MVP/MVP/Services/DialogAPIService.swift:118-123 | The decoded value of a property that decodes: the string, or nil. |
| Avatars.FromRawValue | MVP/MVP/Models/AvatarType.swift:10-12 | `AvatarType(rawValue:)` succeeds exactly for "male" and "female" and inverts `rawValue`. |
| Avatars.RawValueRoundTrip | MVP/MVP/Models/AvatarType.swift:10-12 | `AvatarType(rawValue: a.rawValue) == a`, and no two avatars share a raw value. |
| Avatars.DisplayName | MVP/MVP/Models/AvatarType.swift:14-19 | The display name is the raw value with a capital initial ("Male", "Female"). |
| Avatars.AssetId | MVP/MVP/Models/AvatarType.swift:22 | `assetId` decodes back to its avatar, since it is the raw value. |
| Avatars.AllCases | MVP/MVP/Models/AvatarType.swift:10-12 | `allCases` is `[male, female]`, in declaration order. |
| Avatars.AllCasesListsEachOnce | MVP/MVP/Models/AvatarType.swift:10-12 | Every avatar occurs in `allCases`, and no avatar occurs twice. |
| Avatars.IndexOf | MVP/MVP/Views/SwipeableAvatarChangeView.swift:161 | `allCases.firstIndex(of:)` always finds the avatar, at its first position. |
| ChatMessages.NewMessage | MVP/MVP/Models/ChatMessage.swift:19-25 | The initializer stores id, text, `isFromUser` and timestamp, and defaults `wasVoiceInput` to false and `language` to nil. |
| ChatMessages.NewMessageWith | MVP/MVP/Models/ChatMessage.swift:19-25 | The initializer with every argument stores all six, and with the default arguments it agrees with `NewMessage`. |
| ChatMessages.WithText | MVP/MVP/Models/ChatMessage.swift:11 | Assigning `text` changes nothing else, and the `let` properties keep their values. |
| ChatMessages.WithVoiceInput | MVP/MVP/Models/ChatMessage.swift:14-15 | Assigning `wasVoiceInput` changes nothing else. |
| ChatMessages.WithLanguage | MVP/MVP/Models/ChatMessage.swift:16-17 | Assigning `language` changes nothing else. |
| ChatMessages.EqualityIsMemberwise | MVP/MVP/Models/ChatMessage.swift:9-17 | Synthesized `Equatable`: equal exactly when all six properties are. |
| ChatBubble.DisplayedText | MVP/MVP/Views/Components/ChatBubbleView.swift:15-19 | User messages and bot messages with a nil count show their full text. A count c shows the first min(c, length) characters. The result is always a prefix of the text. |
| ChatBubble.DisplayedTextComplete | MVP/MVP/Views/Components/ChatBubbleView.swift:16-18 | The whole text shows exactly when the message is the user's or c ≥ length. |
| ChatBubble.DisplayedTextMonotone | MVP/MVP/Views/Components/ChatBubbleView.swift:17-18 | A larger count shows an extension of what a smaller one shows. |
| AvatarView.GifName | MVP/MVP/Views/Components/AvatarView.swift:72-79 | The name starts with "female" exactly for a female avatar, and with "male" exactly otherwise. |
| AvatarView.GifNameSuffix | MVP/MVP/Views/Components/AvatarView.swift:75-77 | Idle ends "_idle", thinking ends "_thinking", and speaking ends "_talking". |
| AvatarView.GifNameInjective | MVP/MVP/Views/Components/AvatarView.swift:72-79 | No two (avatar, state) pairs share an asset name. |
| Keychain.KeysDistinct | MVP/MVP/Services/KeychainService.swift:7-11 | The five account names are pairwise distinct. |
| Keychain.KeychainService.Load | MVP/MVP/Services/KeychainService.swift:78-89 | `load` is the stored string when the account exists, and nil otherwise. |
| Keychain.KeychainService.Delete | MVP/MVP/Services/KeychainService.swift:91-97 | `delete` removes the account and only it. |
| Keychain.KeychainService.Save | MVP/MVP/Services/KeychainService.swift:66-76 | `save` deletes and then adds: afterwards `load` returns the new value, overwriting any old one, and every other account is unchanged. |
| Keychain.KeychainService.SaveToken | MVP/MVP/Services/KeychainService.swift:15-17 | The token is stored, and `getToken` returns it. |
| Keychain.KeychainService.GetToken | MVP/MVP/Services/KeychainService.swift:19-21 | The stored token, or nil. |
| Keychain.KeychainService.RemoveToken | MVP/MVP/Services/KeychainService.swift:23-25 | Afterwards `getToken` is nil, and nothing else changes. |
| Keychain.KeychainService.SaveSelectedAvatar | MVP/MVP/Services/KeychainService.swift:27-30 | Afterwards `getSelectedAvatar() == a` and `hasSeenAvatarSelection()` holds. |
| Keychain.KeychainService.GetSelectedAvatar | MVP/MVP/Services/KeychainService.swift:32-35 | Nil unless the stored string is "male" or "female". Otherwise it is the avatar whose raw value is stored. |
| Keychain.KeychainService.HasSeenAvatarSelection | MVP/MVP/Services/KeychainService.swift:37-39 | True exactly when the flag's account exists, whatever it holds. |
| Keychain.KeychainService.MarkAvatarAsSelected | MVP/MVP/Services/KeychainService.swift:41-43 | Afterwards the flag is set. |
| Keychain.KeychainService.ClearAll | MVP/MVP/Services/KeychainService.swift:45-47 | Only the token goes. The avatar, the flag, the last e-mail and the device id are unchanged. |
| Keychain.KeychainService.SaveLastEmail | MVP/MVP/Services/KeychainService.swift:49-51 | Afterwards `getLastEmail` returns the e-mail. |
| Keychain.KeychainService.GetLastEmail | MVP/MVP/Services/KeychainService.swift:53-55 | The stored e-mail, or nil. |
| Keychain.KeychainService.GetOrCreateDeviceId | MVP/MVP/Services/KeychainService.swift:57-64 | An existing id is returned with no write. Otherwise the fresh id is stored and returned. |
| Keychain.DeviceIdIsStable | MVP/MVP/Services/KeychainService.swift:57-64 | Two calls return the same id. With an id already stored, nothing is written. Without one, the first id is stored by one delete-and-add and the second call writes nothing. |
| Auth.ErrorDescription | MVP/MVP/Services/AuthService.swift:43-51 | A server error reads as its message, and every other error has a non-empty text. |
| Auth.FailureDescription | MVP/MVP/Views/LoginView.swift:188-191 | `localizedDescription` of what login threw: the `AuthError` text, or the transport error's own. |
| Auth.DecodeAuthResponse | MVP/MVP/Services/AuthService.swift:21-33 | `AuthResponse` decodes exactly when `token`, `access_token`, `access` and `user` have the right types, and it holds those fields. |
| Auth.ResolvedToken | MVP/MVP/Services/AuthService.swift:27 | Takes `token`, else `access_token`, else `access`: the first one present. |
| Auth.ParseToken | MVP/MVP/Services/AuthService.swift:110-119 | A non-empty JSON token is returned trimmed. Otherwise the trimmed body is accepted exactly when it has ".", is longer than 50 characters and does not start with "{". Anything else is `invalidResponse`. |
| Auth.ParseTokenShape | MVP/MVP/Services/AuthService.swift:110-119 | Every accepted token is already trimmed. A body token is longer than 50 characters and does not start with "{". |
| Auth.BlankJsonTokenIsAccepted | MVP/MVP/Services/AuthService.swift:111-112 | Emptiness is tested before trimming, so a JSON token of spaces yields "". |
| Auth.ErrorDetail | MVP/MVP/Services/AuthService.swift:121-125 | The `detail` string of a JSON object body, or nil. |
| Auth.UserFacingServerMessage | MVP/MVP/Services/AuthService.swift:127-134 | Status ≥ 500 gives the "try again in a moment" text. A detail that mentions an internal failure gives "try again later". Otherwise the result is the detail itself: the `detail` field, else the body text, else "Server error"; it may be empty. |
| Auth.AuthReply | MVP/MVP/Services/AuthService.swift:98-106 | Status 401 gives "Invalid credentials". Any other status ≥ 400 gives the user-facing message. Below 400 the token is parsed. |
| Auth.AuthReplySucceedsOnlyBelow400 | MVP/MVP/Services/AuthService.swift:98-106 | A success comes only from a status below 400. A failure below 400 is `invalidResponse`. |
| Auth.AuthService.IsLoggedIn | MVP/MVP/Services/AuthService.swift:60 | Logged in exactly when a token is stored. |
| Auth.AuthService.Token | MVP/MVP/Services/AuthService.swift:87 | The stored token, present exactly when logged in. |
| Auth.AuthService.Logout | MVP/MVP/Services/AuthService.swift:83-85 | Only the token is removed; afterwards the user is logged out. |
| Auth.AuthService.PostAuth | MVP/MVP/Services/AuthService.swift:90-107 | An invalid URL, a transport error or a non-HTTP reply fails without touching the store. A reply gives `AuthReply`, and a 401 also removes the token. |
| Auth.AuthService.Authenticate | MVP/MVP/Services/AuthService.swift:62-81 | Demo mode stores "demo-token-" + e-mail. Otherwise it succeeds exactly when the reply yields a token, which is then stored. A failure leaves the store alone, except for a 401's token removal. |
| Auth.AuthService.Register | MVP/MVP/Services/AuthService.swift:62-70 | Sends e-mail, password and device id, except in demo mode or with an invalid URL. On success the user is logged in with the demo or parsed token. On failure the store is unchanged, except that a 401 removes the token. |
| Auth.AuthService.Login | MVP/MVP/Services/AuthService.swift:72-81 | Sends e-mail and password only, except in demo mode or with an invalid URL. On success the user is logged in with the demo or parsed token. On failure the store is unchanged, except that a 401 removes the token. |
| TextToSpeech.LocaleTag | MVP/MVP/Services/TextToSpeechService.swift:112-140 | Every key of the table is two characters long, and every tag has five characters: a lower-case two-letter language, "-", then the region. |
| TextToSpeech.FormatLocale | MVP/MVP/Services/TextToSpeechService.swift:111-147 | A listed code, in any case, becomes its tag. Every other string is returned unchanged. |
| TextToSpeech.FormatLocaleEnglishPortuguese | MVP/MVP/Services/TextToSpeechService.swift:113-118 | "en" and "EN" go to "en-US", and "pt" goes to "pt-BR". |
| TextToSpeech.FormatLocaleHebrewAliases | MVP/MVP/Services/TextToSpeechService.swift:125 | "he" and "iw" both go to "he-IL". |
| TextToSpeech.FormatLocaleIndonesianAliases | MVP/MVP/Services/TextToSpeechService.swift:127 | "id" and "in" both go to "id-ID". |
| TextToSpeech.FormatLocaleNorwegianAliases | MVP/MVP/Services/TextToSpeechService.swift:136 | "nb" and "no" both go to "nb-NO". |
| TextToSpeech.FormatLocalePassThrough | MVP/MVP/Services/TextToSpeechService.swift:141-145 | Any string that is not two characters long, with or without "-", is returned unchanged. |
| TextToSpeech.FormatLocaleIgnoresCase | MVP/MVP/Services/TextToSpeechService.swift:112 | Listed codes that differ only in case format alike. |
| TextToSpeech.FormatLocaleIdempotent | MVP/MVP/Services/TextToSpeechService.swift:111-147 | Formatting a formatted locale changes nothing. |
| TextToSpeech.NormalizeLocale | MVP/MVP/Services/TextToSpeechService.swift:101-107 | "iw", "in" and "ji", in any letter case, become "he", "id" and "yi". Only those codes are changed; everything else is returned exactly as given, not lower-cased. |
| TextToSpeech.NormalizeHebrew | MVP/MVP/Services/TextToSpeechService.swift:103-125 | "iw" in any case normalizes to "he" and formats like it. |
| TextToSpeech.NormalizeIndonesian | MVP/MVP/Services/TextToSpeechService.swift:104-127 | "in" in any case normalizes to "id" and formats like it. |
| TextToSpeech.NormalizeThenFormat | MVP/MVP/Services/TextToSpeechService.swift:101-147 | Normalizing before formatting never changes the tag, except for Yiddish. |
| TextToSpeech.YiddishIsNotFormatted | MVP/MVP/Services/TextToSpeechService.swift:101-147 | "ji" normalizes to "yi", and neither is in the table. |
| TextToSpeech.TextToSpeechService.Speak | MVP/MVP/Services/TextToSpeechService.swift:34-81 | The language used is the normalized code. Without a voice, `isSpeaking` stays false and the completion runs at once. With a voice, the completion is stored. No completion ever runs twice. |
| TextToSpeech.TextToSpeechService.Stop | MVP/MVP/Services/TextToSpeechService.swift:170-175 | Afterwards `isSpeaking` is false, the pending completion has run once, and none is pending. |
| TextToSpeech.TextToSpeechService.DidStart | MVP/MVP/Services/TextToSpeechService.swift:181-186 | Sets `isSpeaking` and notifies the view. |
| TextToSpeech.TextToSpeechService.TakeCompletion | MVP/MVP/Services/TextToSpeechService.swift:188-205 | Takes the stored completion, clears it, runs it, then notifies the view. |
| TextToSpeech.TextToSpeechService.DidFinish | MVP/MVP/Services/TextToSpeechService.swift:188-196 | As `TakeCompletion`: each completion runs at most once. |
| TextToSpeech.TextToSpeechService.DidCancel | MVP/MVP/Services/TextToSpeechService.swift:198-206 | As `TakeCompletion`: each completion runs at most once. |
| TextToSpeech.FinishThenStop | MVP/MVP/Services/TextToSpeechService.swift:170-205 | A stop after the utterance finished runs nothing more. |
| DialogApi.ErrorDescription | MVP/MVP/Services/DialogAPIService.swift:20-29 | Never empty. `serverError("")` reads "Server error." A non-empty server message passes unchanged. A decoding failure is prefixed "Could not read response: ". |
| DialogApi.DescriptionIdentifiesError | MVP/MVP/Services/DialogAPIService.swift:20-29 | For every error except `serverError`, whose message can be any text, equal descriptions mean equal errors. This includes the message of `decodingFailed`. |
| DialogApi.GetDeviceLanguage | MVP/MVP/Services/DialogAPIService.swift:38-46 | "iw"→"he", "in"→"id", "ji"→"yi", case-sensitively. A missing code is "en". Every other code is unchanged. |
| DialogApi.DeviceLanguageMatchesNormalize | MVP/MVP/Services/DialogAPIService.swift:38-46 | On lower-case codes it agrees with `normalizeLocale`. |
| DialogApi.DeviceLanguageIsCaseSensitive | MVP/MVP/Services/DialogAPIService.swift:40-44 | "IW" is kept by `getDeviceLanguage` but normalized by `normalizeLocale`. |
| DialogApi.DeviceLanguageFormatsLikeRawCode | MVP/MVP/Services/DialogAPIService.swift:55-56 | The locale sent is the one the raw platform code formats to, except for "ji". |
| DialogApi.StrictReply | MVP/MVP/Services/DialogAPIService.swift:115 | `InangoQueryResponse` decodes exactly when `queryResponse` is a string. |
| DialogApi.FlexReply | MVP/MVP/Services/DialogAPIService.swift:118-127 | `FlexibleResponse` decodes exactly when the four properties are strings or null. The result is `queryResponse` if it is present and not null; else `response` under the same test; else `message`; else `text`; else "". Present but empty still stops the chain. |
| DialogApi.ParseQueryResponse | MVP/MVP/Services/DialogAPIService.swift:114-132 | The answer is never empty and is the body or one of its four string fields. The call fails only with `decodingFailed("empty or unexpected format")`, and only on an empty or non-UTF-8 body. |
| DialogApi.ParseFailsOnlyOnEmptyBody | MVP/MVP/Services/DialogAPIService.swift:128-131 | For a consistent body, parsing fails exactly when the body text is empty. |
| DialogApi.QueryResponseWins | MVP/MVP/Services/DialogAPIService.swift:115-116 | A non-empty `queryResponse` string is the answer. |
| DialogApi.ResponseIsSecondChoice | MVP/MVP/Services/DialogAPIService.swift:118-126 | With `queryResponse` absent or null, a non-empty `response` string is the answer. |
| DialogApi.MessageIsThirdChoice | MVP/MVP/Services/DialogAPIService.swift:118-126 | With `queryResponse` and `response` absent or null, a non-empty `message` string is the answer, ahead of `text` and the raw body. |
| DialogApi.TextIsFourthChoice | MVP/MVP/Services/DialogAPIService.swift:118-126 | With the other three absent or null, a non-empty `text` string is the answer, ahead of the raw body. |
| DialogApi.AllNilFallsBackToBody | MVP/MVP/Services/DialogAPIService.swift:118-131 | With all four absent or null, the answer is the raw body text, or `decodingFailed` when it is empty. |
| DialogApi.EmptyQueryResponseHidesResponse | MVP/MVP/Services/DialogAPIService.swift:125-130 | An empty `queryResponse` stops the `??` chain, so the raw body is returned, not `response`. |
| DialogApi.UserFacingMessage | MVP/MVP/Services/DialogAPIService.swift:134-145 | Status ≥ 500, or a detail mentioning "Internal Server Error", " for url: " or "10.", gives the fixed "temporarily unavailable" text. Otherwise the result is the detail, or "Something went wrong…" when the detail is empty. It is never empty. |
| DialogApi.FailureDescription | MVP/MVP/Views/DialogView.swift:476 | The text the chat shows for a thrown error. An API error's text is never empty. |
| DialogApi.EchoRepliesQuoteText | MVP/MVP/Services/DialogAPIService.swift:52-92 | Both canned replies quote the user's text, and they differ. |
| DialogApi.AttemptStep | MVP/MVP/Services/DialogAPIService.swift:74-109 | One attempt:<br>- it retries exactly on a 5xx under a real token with attempts left, after 2+attempt seconds;<br>- `notAuthenticated` comes exactly on a 401;<br>- transport errors pass through, and a non-HTTP reply is `invalidResponse`;<br>- other errors ≥ 400 are `serverError(userFacingMessage)`, or the echo reply under a demo token;<br>- below 400 the reply is parsed. |
| DialogApi.RunFrom | MVP/MVP/Services/DialogAPIService.swift:71-110 | The loop makes at most five attempts, and records one wait between each pair of attempts. |
| DialogApi.RunFromStep | MVP/MVP/Services/DialogAPIService.swift:95-99 | A retry prepends its wait to the rest of the run, and a finished attempt ends it. |
| DialogApi.RunShape | MVP/MVP/Services/DialogAPIService.swift:71-110 | The waits are 2, 3, 4, … in order. Every earlier attempt was retryable, and the run stops at the first non-retryable attempt or at attempt 4, whose outcome is the result. |
| DialogApi.AllServerFailuresExhaustRetries | MVP/MVP/Services/DialogAPIService.swift:94-100 | Five 5xx replies give five requests, waits [2, 3, 4, 5], and then the last `serverError` is thrown. |
| DialogApi.NotAuthenticatedOnlyOn401 | MVP/MVP/Services/DialogAPIService.swift:78-81 | The run ends in `notAuthenticated` exactly when its last reply was a 401. A first-attempt 401 is not retried. |
| DialogApi.ClientErrorIsNotRetried | MVP/MVP/Services/DialogAPIService.swift:91-100 | A 4xx other than 401 is thrown on the first attempt, or becomes the echo reply under a demo token. |
| DialogApi.TransportErrorIsNotRetried | MVP/MVP/Services/DialogAPIService.swift:104-108 | A transport error is rethrown at once. |
| DialogApi.AnswersAreNonEmpty | MVP/MVP/Services/DialogAPIService.swift:103-132 | A successful answer is never empty. |
| DialogApi.DialogApiService.Attempt | MVP/MVP/Services/DialogAPIService.swift:75-81 | One attempt's outcome; a 401 also logs out. |
| DialogApi.ResumesAfter | MVP/MVP/Services/DialogAPIService.swift:72-110 | One pass of the retry loop keeps its invariant: a finished attempt is the whole run's result, and a retry resumes at the next attempt with one more wait recorded. |
| DialogApi.DialogApiService.RunAttempts | MVP/MVP/Services/DialogAPIService.swift:71-110 | The loop computes `RunFrom(…, 0)`, and the token is removed exactly when it ends in `notAuthenticated`. |
| DialogApi.DialogApiService.SendMessage | MVP/MVP/Services/DialogAPIService.swift:48-112 | With no token it throws `notAuthenticated` before any request. Demo mode gives the demo reply. An invalid URL gives `invalidURL`. Otherwise the request carries `formatLocale(language ?? deviceLanguage)` and the text, and the retry loop decides the result. |
| DialogScreen.HistoryToSave | MVP/MVP/Views/DialogView.swift:524-526 | Keeps min(500, n) messages. |
| DialogScreen.HistoryIsSuffix | MVP/MVP/Views/DialogView.swift:524-526 | What is kept is a suffix of the conversation in its original order: only the oldest messages are dropped. |
| DialogScreen.HistoryIdempotent | MVP/MVP/Views/DialogView.swift:524-526 | Capping twice keeps everything the first cap kept. |
| DialogScreen.HistoryOfAppend | MVP/MVP/Views/DialogView.swift:524-526 | Capping after each append equals capping the whole conversation, and the newest message always survives. |
| DialogScreen.SplitSpaces | MVP/MVP/Views/DialogView.swift:500 | `split(separator: " ", omittingEmptySubsequences: false)`: at least one piece, no piece contains a space, and joining the pieces with spaces gives the text back. |
| DialogScreen.WordsRevealedIsJoinedPrefix | MVP/MVP/Views/DialogView.swift:501-504 | After word i the count is the length of words 0..i joined by spaces, which is a prefix of the text. |
| DialogScreen.RevealedDependsOnPrefix | MVP/MVP/Views/DialogView.swift:501-504 | The count after n words depends only on those words. |
| DialogScreen.WordsRevealedMonotone | MVP/MVP/Views/DialogView.swift:501-504 | The word counts never decrease. |
| DialogScreen.WordsRevealedBounded | MVP/MVP/Views/DialogView.swift:503-508 | Every count is at most the total, and the last count equals it. |
| DialogScreen.LeadingTrue | MVP/MVP/Views/DialogView.swift:505-514 | The number of ticks before another message takes over: all earlier ticks were current, and the next one is not. |
| DialogScreen.MillisecondsPerWord | MVP/MVP/Services/TextToSpeechService.swift:94-98 | `Int(1000 / (wpm / 60))` for 127.5 or 142.5 words a minute, always positive. |
| DialogScreen.AvatarAfterInput | MVP/MVP/Views/DialogView.swift:263-266 | Non-empty input while idle moves to thinking. Empty input while thinking and not recording moves to idle. Nothing else changes the state. |
| DialogScreen.AvatarAfterInputIdempotent | MVP/MVP/Views/DialogView.swift:263-266 | Applying the rule twice with the same input is the same as once. |
| DialogScreen.DialogView.PreferMale | MVP/MVP/Views/DialogView.swift:410 | With gender matching on, it says whether the avatar is male; otherwise it is nil. |
| DialogScreen.DialogView.BubbleText | MVP/MVP/Views/DialogView.swift:200-203 | The message being typed shows min(count, length) characters, and every other message shows its full text. |
| DialogScreen.DialogView.StartTypewriter | MVP/MVP/Views/DialogView.swift:493-519 | Empty text clears `typingMessageId`. With streaming off the count jumps to the total. Otherwise the count starts at 0, and a word task is chosen exactly when word-by-word with a positive pace. |
| DialogScreen.DialogView.RunCharTypewriter | MVP/MVP/Views/DialogView.swift:511-518 | The count takes the values 1, 2, … in order and stops when another message takes over. `typingMessageId` is cleared only after a complete run. |
| DialogScreen.DialogView.RunWordTypewriter | MVP/MVP/Views/DialogView.swift:499-509 | After word i the count is the length of words 0..i plus their separators, capped at the total. A complete run ends at the total with `typingMessageId` cleared. |
| DialogScreen.DialogView.InputChanged | MVP/MVP/Views/DialogView.swift:263-266 | The avatar state follows `AvatarAfterInput`. |
| DialogScreen.DialogView.PlayGreetingIfNeeded | MVP/MVP/Views/DialogView.swift:402-413 | Once played, nothing changes. Otherwise exactly one greeting is appended and typed, and spoken when voice output is on. |
| DialogScreen.DialogView.BeginSend | MVP/MVP/Views/DialogView.swift:437-446 | Blank text changes nothing. A first send clears the field and appends exactly one user message with the trimmed text; a retry appends none. Both clear the error and the failed text, set loading, and make the avatar think. |
| DialogScreen.DialogView.StartSending | MVP/MVP/Views/DialogView.swift:440-446 | The state changes of a send whose text is not blank. |
| DialogScreen.DialogView.ReceiveReply | MVP/MVP/Views/DialogView.swift:451-472 | Appends exactly one bot message and ends loading, and the avatar speaks. The reveal is word by word and spoken exactly when `(fromVoice or alwaysVoice) and voiceOutput`. The history is saved. |
| DialogScreen.DialogView.AppendReply | MVP/MVP/Views/DialogView.swift:451-455 | The indicator and loading end, and exactly one bot message with the next id, the dialog language and the voice flag is appended. |
| DialogScreen.DialogView.PresentReply | MVP/MVP/Views/DialogView.swift:456-470 | The avatar speaks. A spoken reply is revealed word by word and queued for speech with the dialog language and voice gender; a silent one is revealed by characters and nothing is queued. |
| DialogScreen.DialogView.ShowFailure | MVP/MVP/Views/DialogView.swift:475-476 | Loading ends, the given error text is shown, the text is kept for a retry and the avatar is idle. |
| DialogScreen.DialogView.AppendFallback | MVP/MVP/Views/DialogView.swift:477-478 | Exactly one fallback bot message with the next id and the fixed apology text is appended, and it is returned. |
| DialogScreen.DialogView.ReceiveFailure | MVP/MVP/Views/DialogView.swift:474-481 | Ends loading with the error text shown and keeps the trimmed text for a retry. The avatar goes idle, exactly one fallback message is appended and typed, and the history is saved. |
| DialogScreen.DialogView.RetryLastMessage | MVP/MVP/Views/DialogView.swift:486-489 | Does nothing without a failed message, or when the failed text is blank. Otherwise it resends the trimmed text as a retry: no new user message, the input field kept, the voice flag kept, the error and the failed text cleared, loading on, the avatar thinking, and the typing indicator shown when enabled. |
| DialogScreen.DialogView.SpeechCompleted | MVP/MVP/Views/DialogView.swift:462 | The avatar goes idle. |
| DialogScreen.DialogView.SpeechStarted | MVP/MVP/Views/DialogView.swift:396 | The avatar speaks. |
| DialogScreen.DialogView.DisplayTimeElapsed | MVP/MVP/Views/DialogView.swift:467-469 | A speaking avatar goes idle, and any other state is kept. |
| DialogScreen.DialogView.SaveChatHistory | MVP/MVP/Views/DialogView.swift:524-527 | The saved history is `HistoryToSave(messages)`. |
| DialogScreen.DialogView.LoadChatHistory | MVP/MVP/Views/DialogView.swift:528-532 | The saved messages, if any, replace the current ones. |
| DialogScreen.DialogView.ClearChatHistory | MVP/MVP/Views/DialogView.swift:534-539 | Afterwards the messages are exactly the new greeting with the next id, nothing is saved, and the greeting is typed and spoken when voice output is on. |
| DialogScreen.GreetingPlaysOnce | MVP/MVP/Views/DialogView.swift:402-408 | Two appearances add at most one greeting. |
| DialogScreen.SaveThenLoad | MVP/MVP/Views/DialogView.swift:524-532 | Loading right after saving gives the newest 500 messages. |
| DialogScreen.CompleteRevealShowsAll | MVP/MVP/Views/DialogView.swift:511-518 | After a complete character reveal, the bubble shows the whole text. |
| Root.ScreenFor | MVP/MVP/RootView.swift:19-42 | Login exactly when logged out. Avatar selection exactly when logged in without `hasAvatar` or without a selected avatar. Otherwise Dialog with the selected avatar. |
| Root.RootView.constructor | MVP/MVP/RootView.swift:13-15 | The initial state is read from the token and the stored avatar. |
| Root.RootView.OnAppear | MVP/MVP/RootView.swift:44-48 | The three fields are reloaded from the stores. |
| Root.RootView.ReceiveLogin | MVP/MVP/RootView.swift:21-24 | On the login screen it sets `isLoggedIn` and refreshes `hasAvatar` from the store, and the login screen is left. On other screens nothing changes. |
| Root.RootView.AvatarChosen | MVP/MVP/RootView.swift:26-29 | Sets `selectedAvatar` and `hasAvatar`, so a logged-in user gets Dialog. |
| Root.RootView.ReceiveLogout | MVP/MVP/RootView.swift:30-41 | Resets all three fields, so the next screen is Login. |
| Root.LogoutThenLogin | MVP/MVP/RootView.swift:21-41 | Logout then login leads to avatar selection, because login does not reload `selectedAvatar`. |
| Root.SavedAvatarSurvivesRelaunch | MVP/MVP/RootView.swift:13-15 | A logged-in user with a saved avatar starts in Dialog. |
| AvatarCarousel.Label | MVP/MVP/Views/SwipeableAvatarChangeView.swift:128 | Reads "Female Assistant" exactly when the avatar is female, and "Male Assistant" otherwise. |
| AvatarCarousel.SwipeableAvatarChangeView.OnAppear | MVP/MVP/Views/SwipeableAvatarChangeView.swift:159-163 | The index is set to the current avatar's position. |
| AvatarCarousel.SwipeableAvatarChangeView.TapLeft | MVP/MVP/Views/SwipeableAvatarChangeView.swift:85-86 | Decrements only when the index is above 0, and keeps it in bounds. |
| AvatarCarousel.SwipeableAvatarChangeView.TapRight | MVP/MVP/Views/SwipeableAvatarChangeView.swift:96-97 | Increments only below count-1, and keeps it in bounds. |
| AvatarCarousel.SwipeableAvatarChangeView.Swipe | MVP/MVP/Views/SwipeableAvatarChangeView.swift:74-78 | A swipe selects one of the page tags, so the index stays in bounds. |
| AvatarCarousel.SwipeableAvatarChangeView.Confirm | MVP/MVP/Views/SwipeableAvatarChangeView.swift:135-142 | The first press saves `avatars[selectedIndex]` and returns that same avatar for `onSelected`. Later presses do nothing. |
| AvatarCarousel.ArrowsReachTheEdges | MVP/MVP/Views/SwipeableAvatarChangeView.swift:96-97 | Two right taps reach the last avatar, where the right arrow disappears. |
| AvatarCarousel.ConfirmIsOneShot | MVP/MVP/Views/SwipeableAvatarChangeView.swift:136-137 | Two presses hand over exactly one avatar. |
| AvatarSelection.AvatarSelectionView.Tap | MVP/MVP/Views/AvatarSelectionView.swift:65 | Selects the tapped avatar. |
| AvatarSelection.AvatarSelectionView.Continue | MVP/MVP/Views/AvatarSelectionView.swift:77-94 | With nothing selected, or while navigating, it does nothing. Otherwise it saves the avatar, marks the selection seen, sets `isNavigating` and returns the avatar. |
| AvatarSelection.LastTapWins | MVP/MVP/Views/AvatarSelectionView.swift:65-84 | The last tap decides what is saved, and Continue fires once. |
| Login.HexChannels | MVP/MVP/Views/LoginView.swift:199-205 | The channel bytes `(hex>>16)&0xFF`, `(hex>>8)&0xFF` and `hex&0xFF` are each at most 255. |
| Login.HexChannelsAreLowBytes | MVP/MVP/Views/LoginView.swift:199-205 | The three bytes recombine to `hex & 0xFFFFFF`, and the higher bits are ignored. |
| Login.GreyChannels | MVP/MVP/Views/LoginView.swift:199-205 | A byte repeated three times, like the form's 0x1A1A1A and 0xE0E0E0, has three channels equal to that byte. Conversely, equal channels mean the low 24 bits are such a grey. |
| Login.LoginView.ToggleMode | MVP/MVP/Views/LoginView.swift:151-153 | Flips `isRegister` and clears the error. |
| Login.LoginView.OnAppear | MVP/MVP/Views/LoginView.swift:163-166 | An empty e-mail is filled from the last e-mail, and the e-mail field gets focus. |
| Login.LoginView.Submit | MVP/MVP/Views/LoginView.swift:173-194 | Clears focus and error and calls register or login by mode. On success it saves the last e-mail, signs in and ends loading. On failure it ends loading and sets the error text, and the store is unchanged, except that a 401 removes the token. |
| Login.LoginView.PressSubmit | MVP/MVP/Views/LoginView.swift:125-142 | Does nothing while the e-mail or password is empty or a request is loading. Otherwise it submits, with `Submit`'s error text and store. |
| Login.LoginView.OnSubmit | MVP/MVP/Views/LoginView.swift:167-170 | Return in the e-mail field moves to the password field. Return in the password field submits, with `Submit`'s error text and store, even when the button is disabled. With no field focused it does nothing. |
| Login.ReturnTwiceSubmits | MVP/MVP/Views/LoginView.swift:167-170 | Two returns from the e-mail field submit once. |

## Left out

- SwiftUI layout, colours other than the byte extraction, animations, the keyboard-avoiding modifier, and the date formatting of chat bubbles. These are presentation, not logic.
- Timing and concurrency. `Task.sleep`, `asyncAfter` and the `MainActor` hops are not modelled. The model keeps the waits' lengths (`delays`) but not the passage of time, and asynchronous work runs as the sequential operations described above.
- The network and JSON encoding. Requests are not built or encoded; the model states only the request body's fields (`QueryRequest`, `AuthRequest`). Responses are decoded JSON objects of strings, null, nested objects and other values.
- The Security framework. The keychain is a map. A failed `SecItemAdd`, and a stored value that is not UTF-8, are not modelled.
- `UserDefaults` and `@AppStorage`. The saved chat history is a field, and a failed encode or decode is not modelled. The settings are a constant record.
- SpeechToTextService.swift is not part of this model: it wraps the Speech framework and audio engine. Voice input enters the model only as `fromVoice` and `isRecording`.
- TextToSpeech voice lookup, `AVAudioSession`, and the float rate, pitch and volume values. `voiceAvailable` is an input to `Speak`.
- TextToSpeech.TextToSpeechService.Speak: does not model the cancel callback that the synthesizer's own stop (line 37) delivers later. That callback may run the new completion early.
- `estimateSpeechDuration` and the chat display time `count*0.025+0.5` are floating point.
- DialogScreen.MillisecondsPerWord: the values 470 and 421 are evaluated by hand from the floating-point formula, not computed.
- Common.Lower: folds ASCII letters only, where Swift's `lowercased()` folds all of Unicode.
- String lengths and counts are of Unicode scalars, not of Swift's grapheme clusters. This affects the bubble prefix (`DisplayedText`), both typewriters, and the 50-character test in `ParseToken`.
- APIConfig.swift is not part of this model. Demo mode and URL validity are parameters.
- GIF decoding and playback in AvatarView.swift. Only `gifName` is modelled.
- DialogApi.DialogApiService.SendMessage: the final `throw` after the loop (DialogAPIService.swift:111) is not modelled, because the last attempt always returns or throws inside the loop.
- DialogApi.UserFacingMessage: does not prove that the returned text avoids the three marker substrings. Its contract states which text is chosen.
- Http.MentionsInternalError: a plain substring test, with no property beyond its definition.
- DialogScreen.DialogView.ReceiveReply: the speech completion `{ avatarState = .idle }` is a separate operation, `SpeechCompleted`, and is not wired to the speech service's callbacks.
- Login.LoginView.Submit: the `userDidLogin` notification is modelled as `failure == None`. `Root.RootView.ReceiveLogin` is the receiving side, and the two are not wired together.
- Login.LoginView.ToggleShowPassword: only flips the field; the secure and plain text fields are presentation.
