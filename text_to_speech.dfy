/** `TextToSpeechService`: the locale codes it hands to the synthesizer and the
    backend, and the hand-off of the completion callback between `speak`,
    `stop` and the synthesizer's delegate callbacks. */
module TextToSpeech {
  import opened Common

  // ---------------------------------------------------------------------------
  // Locale codes

  /** The language-to-locale table of `formatLocale`, looked up by a
      lower-case two-letter code; None for a code it does not list. */
  function LocaleTag(key: string): (r: Option<string>)
    ensures r.Some? ==> |key| == 2 && |r.value| == 5 && r.value[2] == '-' && r.value[..2] == Lower(r.value[..2])
  {
    if |key| != 2 then None else
    match (key[0], key[1])
    case ('e', 'n') => Some("en-US") case ('e', 's') => Some("es-ES") case ('f', 'r') => Some("fr-FR")
    case ('d', 'e') => Some("de-DE") case ('i', 't') => Some("it-IT") case ('p', 't') => Some("pt-BR")
    case ('j', 'a') => Some("ja-JP") case ('k', 'o') => Some("ko-KR") case ('z', 'h') => Some("zh-CN")
    case ('r', 'u') => Some("ru-RU") case ('u', 'k') => Some("uk-UA") case ('a', 'r') => Some("ar-SA")
    case ('h', 'e') => Some("he-IL") case ('i', 'w') => Some("he-IL") case ('h', 'i') => Some("hi-IN")
    case ('i', 'd') => Some("id-ID") case ('i', 'n') => Some("id-ID") case ('p', 'l') => Some("pl-PL")
    case ('n', 'l') => Some("nl-NL") case ('t', 'r') => Some("tr-TR") case ('t', 'h') => Some("th-TH")
    case ('v', 'i') => Some("vi-VN") case ('s', 'v') => Some("sv-SE") case ('d', 'a') => Some("da-DK")
    case ('f', 'i') => Some("fi-FI") case ('n', 'b') => Some("nb-NO") case ('n', 'o') => Some("nb-NO")
    case ('c', 's') => Some("cs-CZ") case ('e', 'l') => Some("el-GR") case ('r', 'o') => Some("ro-RO")
    case ('h', 'u') => Some("hu-HU")
    case _ => None
  }

  /** `formatLocale(_:)`: a listed code, in any letter case, becomes its tag;
      any other string (a tag with "-" or an unknown code) passes through. */
  function FormatLocale(code: string): (r: string)
    ensures LocaleTag(Lower(code)).Some? ==> r == LocaleTag(Lower(code)).value
    ensures LocaleTag(Lower(code)).None? ==> r == code
  {
    var tag := LocaleTag(Lower(code));
    if tag.Some? then tag.value else code
  }

  /** English maps to US English and Portuguese to Brazilian Portuguese, in
      either letter case. */
  lemma FormatLocaleEnglishPortuguese()
    ensures FormatLocale("en") == "en-US" && FormatLocale("EN") == "en-US" && FormatLocale("pt") == "pt-BR"
  {
    LowerOfLowercase("en"); LowerOfLowercase("pt");
    assert Lower("EN") == "en";
  }

  /** The legacy and modern codes for Hebrew share a tag. */
  lemma FormatLocaleHebrewAliases()
    ensures FormatLocale("he") == "he-IL" && FormatLocale("iw") == "he-IL"
  {
    LowerOfLowercase("he"); LowerOfLowercase("iw");
  }

  /** The legacy and modern codes for Indonesian share a tag. */
  lemma FormatLocaleIndonesianAliases()
    ensures FormatLocale("id") == "id-ID" && FormatLocale("in") == "id-ID"
  {
    LowerOfLowercase("id"); LowerOfLowercase("in");
  }

  /** Both Norwegian codes map to Bokmål. */
  lemma FormatLocaleNorwegianAliases()
    ensures FormatLocale("nb") == "nb-NO" && FormatLocale("no") == "nb-NO"
  {
    LowerOfLowercase("nb"); LowerOfLowercase("no");
  }

  /** Full tags such as "pt-PT" and codes longer or shorter than two letters
      pass through untouched. */
  lemma FormatLocalePassThrough(code: string)
    requires |code| != 2
    ensures FormatLocale(code) == code
  {
  }

  /** Codes that differ only in letter case format alike. */
  lemma FormatLocaleIgnoresCase(a: string, b: string)
    requires Lower(a) == Lower(b) && LocaleTag(Lower(a)).Some?
    ensures FormatLocale(a) == FormatLocale(b)
  {
  }

  /** A formatted locale formats to itself: no tag is a code of the table. */
  lemma {:induction false} FormatLocaleIdempotent(code: string)
    ensures FormatLocale(FormatLocale(code)) == FormatLocale(code)
  {
    var tag := LocaleTag(Lower(code));
    if tag.Some? {
      assert |Lower(tag.value)| == 5;
    }
  }

  /** `normalizeLocale(_:)`: the legacy codes for Hebrew, Indonesian and
      Yiddish, in any letter case, become the modern ones; anything else comes
      back exactly as given, not lower-cased. */
  function NormalizeLocale(code: string): (r: string)
    ensures Lower(code) == "iw" ==> r == "he"
    ensures Lower(code) == "in" ==> r == "id"
    ensures Lower(code) == "ji" ==> r == "yi"
    ensures r != code ==> |r| == 2 && (Lower(code), r) in {("iw", "he"), ("in", "id"), ("ji", "yi")}
  {
    var key := Lower(code);
    if key == "iw" then "he"
    else if key == "in" then "id"
    else if key == "ji" then "yi"
    else code
  }

  lemma NormalizeHebrew(code: string)
    requires Lower(code) == "iw"
    ensures NormalizeLocale(code) == "he" && FormatLocale(NormalizeLocale(code)) == FormatLocale(code)
  {
    LowerOfLowercase("he");
    var key := Lower(code);
    assert key[0] == 'i' && key[1] == 'w';
  }

  lemma NormalizeIndonesian(code: string)
    requires Lower(code) == "in"
    ensures NormalizeLocale(code) == "id" && FormatLocale(NormalizeLocale(code)) == FormatLocale(code)
  {
    LowerOfLowercase("id");
    var key := Lower(code);
    assert key[0] == 'i' && key[1] == 'n';
  }

  /** Normalizing never changes which tag a code formats to, except for
      Yiddish, which the table lacks. */
  lemma NormalizeThenFormat(code: string)
    requires Lower(code) != "ji"
    ensures FormatLocale(NormalizeLocale(code)) == FormatLocale(code)
  {
    if Lower(code) == "iw" {
      NormalizeHebrew(code);
    } else if Lower(code) == "in" {
      NormalizeIndonesian(code);
    }
  }

  /** Yiddish is the exception: its legacy code passes `formatLocale` through
      unchanged, and so does its modern one. */
  lemma YiddishIsNotFormatted()
    ensures NormalizeLocale("ji") == "yi" && FormatLocale("ji") == "ji" && FormatLocale("yi") == "yi"
  {
    LowerOfLowercase("ji"); LowerOfLowercase("yi");
  }

  // ---------------------------------------------------------------------------
  // Speech and its completion callback

  /** The callbacks the service invokes: a completion handed to `speak` (closures
      are modelled by numbers), or the view's started/completed notifications. */
  datatype Event = CompletionRan(completion: nat) | StartedNotified | CompletedNotified

  class TextToSpeechService {
    var isSpeaking: bool
    /** The completion waiting for the current utterance to end. */
    var speechCompletion: Option<nat>
    /** Every callback invoked so far, oldest first. */
    var events: seq<Event>
    /** Every completion ever handed to `speak`. */
    ghost var issued: set<nat>

    /** No completion has run twice, every completion that ran was handed in,
        and the pending one has not run yet. */
    ghost predicate Valid()
      reads this
    {
      && (forall i, j :: 0 <= i < j < |events| && events[i].CompletionRan? && events[j].CompletionRan?
            ==> events[i].completion != events[j].completion)
      && (forall i :: 0 <= i < |events| && events[i].CompletionRan? ==> events[i].completion in issued)
      && (speechCompletion.Some? ==>
            speechCompletion.value in issued && CompletionRan(speechCompletion.value) !in events)
    }

    constructor ()
      ensures Valid() && !isSpeaking && speechCompletion == None && events == [] && issued == {}
    {
      isSpeaking := false;
      speechCompletion := None;
      events := [];
      issued := {};
    }

    /** Runs the given completion, if any, once. */
    method RunCompletion(completion: Option<nat>)
      requires Valid()
      requires completion.Some? ==> completion.value in issued && CompletionRan(completion.value) !in events
      requires completion.Some? && speechCompletion.Some? ==> completion.value != speechCompletion.value
      modifies this
      ensures Valid()
      ensures events == old(events) + (if completion.Some? then [CompletionRan(completion.value)] else [])
      ensures isSpeaking == old(isSpeaking) && speechCompletion == old(speechCompletion) && issued == old(issued)
    {
      if completion.Some? {
        events := events + [CompletionRan(completion.value)];
      }
    }

    /** `speak(_:language:preferMale:rate:completion:)`. The language actually
        used is the normalized code (`systemLanguage` stands for
        `Locale.current.languageCode`); whether the platform has a voice for it
        is an input. Without a voice the completion runs at once and nothing
        is pending for it; with one it waits for the utterance to end. */
    method Speak(language: Option<string>, systemLanguage: Option<string>, voiceAvailable: bool, completion: Option<nat>)
      returns (lang: string)
      requires Valid()
      requires completion.Some? ==> completion.value !in issued
      modifies this
      ensures Valid()
      ensures lang == NormalizeLocale(FirstSome(language, systemLanguage).OrElse("en"))
      ensures issued == old(issued) + (if completion.Some? then {completion.value} else {})
      ensures !voiceAvailable ==>
                !isSpeaking && speechCompletion == old(speechCompletion)
                && events == old(events) + (if completion.Some? then [CompletionRan(completion.value)] else [])
      ensures voiceAvailable ==> isSpeaking && speechCompletion == completion && events == old(events)
    {
      lang := NormalizeLocale(FirstSome(language, systemLanguage).OrElse("en"));
      if completion.Some? {
        issued := issued + {completion.value};
      }
      if !voiceAvailable {
        isSpeaking := false;
        RunCompletion(completion);
        return;
      }
      isSpeaking := true;
      speechCompletion := completion;
    }

    /** `stop()`: the pending completion runs once and is forgotten. */
    method Stop()
      requires Valid()
      modifies this
      ensures Valid()
      ensures !isSpeaking && speechCompletion == None && issued == old(issued)
      ensures events == old(events) + (if old(speechCompletion).Some? then [CompletionRan(old(speechCompletion).value)] else [])
    {
      isSpeaking := false;
      var pending := speechCompletion;
      speechCompletion := None;
      RunCompletion(pending);
    }

    /** `speechSynthesizer(_:didStart:)`. */
    method DidStart()
      requires Valid()
      modifies this
      ensures Valid()
      ensures isSpeaking && speechCompletion == old(speechCompletion) && issued == old(issued)
      ensures events == old(events) + [StartedNotified]
    {
      isSpeaking := true;
      events := events + [StartedNotified];
    }

    /** The body shared by the finish and cancel callbacks: take the stored
        completion, clear it, call it, then notify the view. */
    method TakeCompletion()
      requires Valid()
      modifies this
      ensures Valid()
      ensures !isSpeaking && speechCompletion == None && issued == old(issued)
      ensures events == old(events)
                        + (if old(speechCompletion).Some? then [CompletionRan(old(speechCompletion).value)] else [])
                        + [CompletedNotified]
    {
      isSpeaking := false;
      var completion := speechCompletion;
      speechCompletion := None;
      RunCompletion(completion);
      events := events + [CompletedNotified];
    }

    /** `speechSynthesizer(_:didFinish:)`. */
    method DidFinish()
      requires Valid()
      modifies this
      ensures Valid()
      ensures !isSpeaking && speechCompletion == None && issued == old(issued)
      ensures events == old(events)
                        + (if old(speechCompletion).Some? then [CompletionRan(old(speechCompletion).value)] else [])
                        + [CompletedNotified]
    {
      TakeCompletion();
    }

    /** `speechSynthesizer(_:didCancel:)`. */
    method DidCancel()
      requires Valid()
      modifies this
      ensures Valid()
      ensures !isSpeaking && speechCompletion == None && issued == old(issued)
      ensures events == old(events)
                        + (if old(speechCompletion).Some? then [CompletionRan(old(speechCompletion).value)] else [])
                        + [CompletedNotified]
    {
      TakeCompletion();
    }
  }

  /** A speak that ends and is then stopped runs its completion exactly once:
      the second hand-off finds nothing pending. */
  method FinishThenStop(tts: TextToSpeechService, c: nat)
    requires tts.Valid() && c !in tts.issued
    modifies tts
    ensures tts.Valid()
    ensures tts.events == old(tts.events) + [CompletionRan(c), CompletedNotified]
  {
    var _ := tts.Speak(None, Some("en"), true, Some(c));
    tts.DidFinish();
    tts.Stop();
  }
}
