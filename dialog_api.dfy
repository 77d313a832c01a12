/** `DialogAPIService`: sends one chat message to the dialog backend and turns
    its reply into the bot's answer, retrying server failures on a fixed
    schedule. */
module DialogApi {
  import opened Common
  import opened Http
  import opened Keychain
  import Auth
  import opened TextToSpeech

  datatype DialogApiError =
    | NotAuthenticated
    | InvalidUrl
    | NoData
    | InvalidResponse
    | ServerError(message: string)
    | DecodingFailed(message: string)

  /** `DialogAPIError.errorDescription`: every error has a non-empty text; an
      empty server message reads "Server error.", any other is shown as is. */
  function ErrorDescription(e: DialogApiError): (r: string)
    ensures r != ""
    ensures e == ServerError("") ==> r == "Server error."
    ensures e.ServerError? && e.message != "" ==> r == e.message
    ensures e.DecodingFailed? ==> r == "Could not read response: " + e.message
  {
    match e
    case NotAuthenticated => "Not logged in or session expired. Please log in again."
    case InvalidUrl => "Invalid request URL."
    case NoData => "No response from server."
    case InvalidResponse => "Invalid response from server."
    case ServerError(msg) => if msg == "" then "Server error." else msg
    case DecodingFailed(msg) => "Could not read response: " + msg
  }

  /** Apart from a server error, whose message can be any text, the
      description tells which error it was, and a decoding failure's detail
      can be read back from it. */
  lemma {:induction false} DescriptionIdentifiesError(e: DialogApiError, f: DialogApiError)
    requires !e.ServerError? && !f.ServerError?
    requires ErrorDescription(e) == ErrorDescription(f)
    ensures e == f
  {
    if e.DecodingFailed? && f.DecodingFailed? {
      var prefix := "Could not read response: ";
      assert e.message == ErrorDescription(e)[|prefix|..] == f.message;
    } else if e.DecodingFailed? {
      FixedTextInitial(f);
    } else if f.DecodingFailed? {
      FixedTextInitial(e);
    }
  }

  /** None of the four fixed texts starts with the 'C' of a decoding
      failure's text. */
  lemma FixedTextInitial(e: DialogApiError)
    requires !e.ServerError? && !e.DecodingFailed?
    ensures ErrorDescription(e) != [] && ErrorDescription(e)[0] != 'C'
  {
    match e
    case NotAuthenticated => InitialOf("Not logged in", " or session expired. Please log in again.");
    case InvalidUrl => InitialOf("Invalid request", " URL.");
    case NoData => InitialOf("No response", " from server.");
    case InvalidResponse => InitialOf("Invalid response", " from server.");
  }

  lemma InitialOf(head: string, tail: string)
    requires head != []
    ensures (head + tail)[0] == head[0]
  {
  }

  // ---------------------------------------------------------------------------
  // Device language

  /** `getDeviceLanguage()`: the platform's language code (`systemLanguage`,
      "en" when it has none), with the legacy codes for Hebrew, Indonesian and
      Yiddish replaced. The match is case-sensitive. */
  function GetDeviceLanguage(systemLanguage: Option<string>): (r: string)
    ensures systemLanguage.None? ==> r == "en"
    ensures var raw := systemLanguage.OrElse("en");
            (raw == "iw" ==> r == "he") && (raw == "in" ==> r == "id") && (raw == "ji" ==> r == "yi")
            && (raw != "iw" && raw != "in" && raw != "ji" ==> r == raw)
  {
    var raw := systemLanguage.OrElse("en");
    if raw == "iw" then "he"
    else if raw == "in" then "id"
    else if raw == "ji" then "yi"
    else raw
  }

  /** On a lower-case code the device language agrees with the speech
      service's `normalizeLocale`; the two differ on upper-case legacy codes,
      which only `normalizeLocale` rewrites. */
  lemma DeviceLanguageMatchesNormalize(code: string)
    requires Lower(code) == code
    ensures GetDeviceLanguage(Some(code)) == NormalizeLocale(code)
  {
  }

  lemma DeviceLanguageIsCaseSensitive()
    ensures GetDeviceLanguage(Some("IW")) == "IW" && NormalizeLocale("IW") == "he"
  {
    assert Lower("IW") == "iw";
  }

  /** The locale sent to the backend for the device language is the one the
      raw platform code would format to, except for Yiddish. */
  lemma {:induction false} DeviceLanguageFormatsLikeRawCode(systemLanguage: Option<string>)
    requires systemLanguage != Some("ji")
    ensures FormatLocale(GetDeviceLanguage(systemLanguage)) == FormatLocale(systemLanguage.OrElse("en"))
  {
    var raw := systemLanguage.OrElse("en");
    if raw == "iw" {
      LowerOfLowercase("iw");
      NormalizeHebrew(raw);
    } else if raw == "in" {
      LowerOfLowercase("in");
      NormalizeIndonesian(raw);
    }
  }

  // ---------------------------------------------------------------------------
  // Reading a successful reply

  /** The `String?` properties of the flexible reply, in the order they are tried. */
  const ReplyKeys: set<string> := {"queryResponse", "response", "message", "text"}

  const UnexpectedFormat: string := "empty or unexpected format"

  /** The reply body is a JSON object holding the string `v` under `key`. */
  predicate HasStringField(resp: Response, key: string, v: string) {
    resp.json.Some? && key in resp.json.value && resp.json.value[key] == JString(v)
  }

  /** Decoding the strict `InangoQueryResponse`: a string `queryResponse`. */
  function StrictReply(resp: Response): (r: Option<string>)
    ensures r.Some? <==> resp.json.Some? && "queryResponse" in resp.json.value && resp.json.value["queryResponse"].JString?
    ensures r.Some? ==> HasStringField(resp, "queryResponse", r.value)
  {
    if resp.json.Some? then RequiredString(resp.json.value, "queryResponse") else None
  }

  /** The body is a JSON object in which `key` is absent or null: the link of
      the `??` chain that passes on to the next one. */
  predicate Nil(resp: Response, key: string) {
    resp.json.Some? && (key !in resp.json.value || resp.json.value[key] == JNull)
  }

  /** Decoding `FlexibleResponse` and taking `queryResponse ?? response ??
      message ?? text ?? ""`: the first property that is present and not null,
      even when it is the empty string. One clause per link of the chain. */
  function FlexReply(resp: Response): (r: Option<string>)
    ensures r.Some? <==> DecodesOptionalStrings(resp.json, ReplyKeys)
    ensures r.Some? && !Nil(resp, "queryResponse") ==> HasStringField(resp, "queryResponse", r.value)
    ensures r.Some? && Nil(resp, "queryResponse") && !Nil(resp, "response") ==>
              HasStringField(resp, "response", r.value)
    ensures r.Some? && Nil(resp, "queryResponse") && Nil(resp, "response") && !Nil(resp, "message") ==>
              HasStringField(resp, "message", r.value)
    ensures (r.Some? && Nil(resp, "queryResponse") && Nil(resp, "response") && Nil(resp, "message")
             && !Nil(resp, "text")) ==> HasStringField(resp, "text", r.value)
    ensures (r.Some? && Nil(resp, "queryResponse") && Nil(resp, "response") && Nil(resp, "message")
             && Nil(resp, "text")) ==> r.value == ""
  {
    if DecodesOptionalStrings(resp.json, ReplyKeys) then
      var obj := resp.json.value;
      assert "queryResponse" in ReplyKeys && "response" in ReplyKeys && "message" in ReplyKeys && "text" in ReplyKeys;
      Some(FirstSome(Field(obj, "queryResponse"),
           FirstSome(Field(obj, "response"),
           FirstSome(Field(obj, "message"), Field(obj, "text")))).OrElse(""))
    else None
  }

  /** `parseQueryResponse(data:)`: a non-empty strict `queryResponse`, else a
      non-empty flexible reply, else the non-empty body text, else
      `decodingFailed`. The answer is never empty and always comes from the
      body; the call fails only when the body is empty or not UTF-8. */
  function ParseQueryResponse(resp: Response): (r: Result<string, DialogApiError>)
    ensures r.Success? ==> r.value != ""
    ensures r.Success? ==>
              r.value == resp.text.OrElse("")
              || HasStringField(resp, "queryResponse", r.value) || HasStringField(resp, "response", r.value)
              || HasStringField(resp, "message", r.value) || HasStringField(resp, "text", r.value)
    ensures r.Failure? ==> r.error == DecodingFailed(UnexpectedFormat) && resp.text.OrElse("") == ""
  {
    var strict := StrictReply(resp);
    if strict.Some? && strict.value != "" then Success(strict.value)
    else
      var flex := FlexReply(resp);
      if flex.Some? && flex.value != "" then Success(flex.value)
      else if resp.text.Some? && resp.text.value != "" then Success(resp.text.value)
      else Failure(DecodingFailed(UnexpectedFormat))
  }

  /** A reply whose JSON object has a body text: a JSON object is never the
      empty text. */
  predicate BodyConsistent(resp: Response) {
    resp.json.Some? ==> resp.text.Some? && resp.text.value != ""
  }

  /** For a consistent body, reading fails exactly when the body is empty or
      not UTF-8. */
  lemma ParseFailsOnlyOnEmptyBody(resp: Response)
    requires BodyConsistent(resp)
    ensures ParseQueryResponse(resp).Failure? <==> resp.text.OrElse("") == ""
  {
  }

  /** A non-empty `queryResponse` string wins, whatever the other properties hold. */
  lemma QueryResponseWins(resp: Response, v: string)
    requires HasStringField(resp, "queryResponse", v) && v != ""
    ensures ParseQueryResponse(resp) == Success(v)
  {
  }

  /** With `queryResponse` absent or null, a non-empty `response` is the
      answer when the other properties are strings or null. */
  lemma ResponseIsSecondChoice(resp: Response, v: string)
    requires DecodesOptionalStrings(resp.json, ReplyKeys) && v != ""
    requires Nil(resp, "queryResponse")
    requires HasStringField(resp, "response", v)
    ensures ParseQueryResponse(resp) == Success(v)
  {
    assert !Nil(resp, "response");
  }

  /** With `queryResponse` and `response` absent or null, a non-empty
      `message` is the answer, ahead of `text` and of the raw body. */
  lemma MessageIsThirdChoice(resp: Response, v: string)
    requires DecodesOptionalStrings(resp.json, ReplyKeys) && v != ""
    requires Nil(resp, "queryResponse") && Nil(resp, "response")
    requires HasStringField(resp, "message", v)
    ensures ParseQueryResponse(resp) == Success(v)
  {
    assert !Nil(resp, "message");
  }

  /** With the other three absent or null, a non-empty `text` is the answer,
      ahead of the raw body. */
  lemma TextIsFourthChoice(resp: Response, v: string)
    requires DecodesOptionalStrings(resp.json, ReplyKeys) && v != ""
    requires Nil(resp, "queryResponse") && Nil(resp, "response") && Nil(resp, "message")
    requires HasStringField(resp, "text", v)
    ensures ParseQueryResponse(resp) == Success(v)
  {
    assert !Nil(resp, "text");
  }

  /** With all four properties absent or null the chain yields "", and the
      raw body text is the answer. */
  lemma AllNilFallsBackToBody(resp: Response)
    requires DecodesOptionalStrings(resp.json, ReplyKeys)
    requires Nil(resp, "queryResponse") && Nil(resp, "response") && Nil(resp, "message") && Nil(resp, "text")
    ensures ParseQueryResponse(resp) == (if resp.text.OrElse("") != "" then Success(resp.text.value)
                                         else Failure(DecodingFailed(UnexpectedFormat)))
  {
  }

  /** The `??` chain stops at the first non-nil property: an empty
      `queryResponse` hides a non-empty `response`, and the raw body is
      returned instead. */
  lemma EmptyQueryResponseHidesResponse(body: string)
    requires body != ""
    ensures ParseQueryResponse(Response(200, Some(body),
              Some(map["queryResponse" := JString(""), "response" := JString("Hi")]))) == Success(body)
  {
    var obj := map["queryResponse" := JString(""), "response" := JString("Hi")];
    var resp := Response(200, Some(body), Some(obj));
    assert OptionalStringsDecode(obj, ReplyKeys);
    assert FlexReply(resp) == Some("");
  }

  // ---------------------------------------------------------------------------
  // Reading a failed reply

  const Unavailable: string := "Voice server is temporarily unavailable. Tap Try again or send another message."
  const SomethingWentWrong: string := "Something went wrong. Please try again."

  /** `userFacingMessage(from:statusCode:)`: a fixed text for 5xx or for a
      detail that leaks an internal failure; otherwise the `detail` property,
      else the body text, with a generic text when that is empty. The user
      never sees an empty text. */
  function UserFacingMessage(resp: Response, status: int): (r: string)
    ensures status >= 500 ==> r == Unavailable
    ensures status < 500 ==>
              var detail := Auth.ErrorDetail(resp).OrElse(resp.text.OrElse(""));
              r == (if MentionsInternalError(detail) then Unavailable
                    else if detail == "" then SomethingWentWrong else detail)
    ensures r != ""
  {
    var detail := FirstSome(Auth.ErrorDetail(resp), resp.text).OrElse("");
    if status >= 500 then Unavailable
    else if MentionsInternalError(detail) then Unavailable
    else if detail == "" then SomethingWentWrong
    else detail
  }

  // ---------------------------------------------------------------------------
  // Sending with retries

  /** `maxRetries`: attempts 0 to 4, so at most five requests. */
  const MaxRetries: nat := 4

  /** What `sendMessage` can throw: a `DialogAPIError`, or the transport
      error `URLSession` threw, which is passed on unchanged. */
  datatype SendFailure = Api(error: DialogApiError) | Transport(description: string)

  /** `error.localizedDescription` of what `sendMessage` threw. */
  function FailureDescription(f: SendFailure): (r: string)
    ensures f.Api? ==> r == ErrorDescription(f.error) && r != ""
    ensures f.Transport? ==> r == f.description
  {
    match f
    case Api(e) => ErrorDescription(e)
    case Transport(d) => d
  }

  /** The body of the request: the formatted locale and the user's text. */
  datatype QueryRequest = QueryRequest(locale: string, queryText: string)

  /** The opening both canned replies share: the user's text in quotes. */
  function Echo(text: string): string {
    "You said: \"" + text + "\"."
  }

  function DemoModeReply(text: string): string {
    Echo(text) + " (Demo mode.)"
  }

  function DemoTokenReply(text: string): string {
    Echo(text) + " (Need real login to get answers from voice-demo.inango.com.)"
  }

  /** Both canned replies quote the user's text, and they can be told apart. */
  lemma EchoRepliesQuoteText(text: string)
    ensures StartsWith(DemoModeReply(text), "You said: \"" + text)
    ensures StartsWith(DemoTokenReply(text), "You said: \"" + text)
    ensures DemoModeReply(text) != DemoTokenReply(text)
  {
    var p := Echo(text);
    assert DemoModeReply(text)[..|p|] == p;
    assert DemoTokenReply(text)[..|p|] == p;
    assert p[..|"You said: \"" + text|] == "You said: \"" + text;
    assert |DemoModeReply(text)| < |DemoTokenReply(text)|;
  }

  /** What one attempt leads to: another attempt after `delay` seconds, or
      the end of `sendMessage` with its result. */
  datatype Step = Retry(error: DialogApiError, delay: nat) | Done(result: Result<string, SendFailure>)

  /** An exchange that the loop answers by waiting and trying again, as long
      as attempts remain: a server failure (5xx) under a real token. */
  predicate Retryable(token: string, exchange: Exchange) {
    exchange.Received? && exchange.response.status >= 500 && !StartsWith(token, Auth.DemoTokenPrefix)
  }

  /** One pass of the loop body of `sendMessage` for attempt number `attempt`. */
  function AttemptStep(token: string, text: string, exchange: Exchange, attempt: nat): (r: Step)
    ensures r.Retry? <==> Retryable(token, exchange) && attempt < MaxRetries
    ensures r.Retry? ==> r.delay == 2 + attempt && r.error == ServerError(Unavailable)
    ensures r == Done(Failure(Api(NotAuthenticated))) <==> exchange.Received? && exchange.response.status == 401
    ensures exchange.TransportError? ==> r == Done(Failure(Transport(exchange.description)))
    ensures exchange.NotHttp? ==> r == Done(Failure(Api(InvalidResponse)))
    ensures exchange.Received? && 400 <= exchange.response.status && exchange.response.status != 401 ==>
              if StartsWith(token, Auth.DemoTokenPrefix) then r == Done(Success(DemoTokenReply(text)))
              else r.Retry? || r == Done(Failure(Api(ServerError(UserFacingMessage(exchange.response, exchange.response.status)))))
    ensures exchange.Received? && exchange.response.status < 400 ==>
              var parsed := ParseQueryResponse(exchange.response);
              r == Done(if parsed.Success? then Success(parsed.value) else Failure(Api(parsed.error)))
  {
    match exchange
    case TransportError(d) => Done(Failure(Transport(d)))
    case NotHttp => Done(Failure(Api(InvalidResponse)))
    case Received(resp) =>
      if resp.status == 401 then Done(Failure(Api(NotAuthenticated)))
      else if resp.status >= 400 then
        var msg := UserFacingMessage(resp, resp.status);
        if StartsWith(token, Auth.DemoTokenPrefix) then Done(Success(DemoTokenReply(text)))
        else if resp.status >= 500 && attempt < MaxRetries then Retry(ServerError(msg), 2 + attempt)
        else Done(Failure(Api(ServerError(msg))))
      else
        match ParseQueryResponse(resp)
        case Success(answer) => Done(Success(answer))
        case Failure(e) => Done(Failure(Api(e)))
  }

  /** The whole retry loop from attempt `attempt` on: its result, the number
      of requests made in total, and the waits between them. `exchanges[i]`
      is what the network does on attempt `i`. */
  datatype Run = Run(result: Result<string, SendFailure>, attempts: nat, delays: seq<nat>)

  function RunFrom(token: string, text: string, exchanges: seq<Exchange>, attempt: nat): (r: Run)
    requires |exchanges| == MaxRetries + 1 && attempt <= MaxRetries
    ensures attempt < r.attempts <= MaxRetries + 1
    ensures |r.delays| == r.attempts - 1 - attempt
    decreases MaxRetries - attempt
  {
    match AttemptStep(token, text, exchanges[attempt], attempt)
    case Done(result) => Run(result, attempt + 1, [])
    case Retry(_, delay) =>
      var rest := RunFrom(token, text, exchanges, attempt + 1);
      rest.(delays := [delay] + rest.delays)
  }

  /** One unfolding of the loop: a finished attempt ends the run, a retry
      adds its wait in front of the rest. */
  lemma RunFromStep(token: string, text: string, exchanges: seq<Exchange>, attempt: nat)
    requires |exchanges| == MaxRetries + 1 && attempt <= MaxRetries
    ensures var step := AttemptStep(token, text, exchanges[attempt], attempt);
            && (step.Done? ==> RunFrom(token, text, exchanges, attempt) == Run(step.result, attempt + 1, []))
            && (step.Retry? ==>
                  var rest := RunFrom(token, text, exchanges, attempt + 1);
                  RunFrom(token, text, exchanges, attempt) == Run(rest.result, rest.attempts, [step.delay] + rest.delays))
  {
  }

  /** The loop retries exactly the server failures under a real token, waits
      2, 3, 4, … seconds before the successive retries, and stops at the
      first attempt that is not retryable or at the last one. */
  lemma {:induction false} RunShape(token: string, text: string, exchanges: seq<Exchange>, attempt: nat)
    requires |exchanges| == MaxRetries + 1 && attempt <= MaxRetries
    ensures var r := RunFrom(token, text, exchanges, attempt);
            && (forall i :: 0 <= i < |r.delays| ==> r.delays[i] == 2 + attempt + i)
            && (forall i :: attempt <= i < r.attempts - 1 ==> Retryable(token, exchanges[i]))
            && (r.attempts - 1 == MaxRetries || !Retryable(token, exchanges[r.attempts - 1]))
            && AttemptStep(token, text, exchanges[r.attempts - 1], r.attempts - 1) == Done(r.result)
    decreases MaxRetries - attempt
  {
    if AttemptStep(token, text, exchanges[attempt], attempt).Retry? {
      RunShape(token, text, exchanges, attempt + 1);
    }
  }

  /** Five server failures in a row: five requests, waits of 2, 3, 4 and 5
      seconds, and the last failure's message is thrown. */
  lemma AllServerFailuresExhaustRetries(token: string, text: string, exchanges: seq<Exchange>)
    requires |exchanges| == MaxRetries + 1
    requires forall i :: 0 <= i < |exchanges| ==> Retryable(token, exchanges[i])
    ensures RunFrom(token, text, exchanges, 0) == Run(Failure(Api(ServerError(Unavailable))), 5, [2, 3, 4, 5])
  {
    var r := RunFrom(token, text, exchanges, 0);
    RunShape(token, text, exchanges, 0);
    assert r.attempts == 5;
    assert r.delays == [2, 3, 4, 5];
  }

  /** A 401 ends the loop with `notAuthenticated`, and only a 401 does. */
  lemma {:induction false} NotAuthenticatedOnlyOn401(token: string, text: string, exchanges: seq<Exchange>)
    requires |exchanges| == MaxRetries + 1
    ensures var r := RunFrom(token, text, exchanges, 0);
            r.result == Failure(Api(NotAuthenticated)) <==>
              exchanges[r.attempts - 1].Received? && exchanges[r.attempts - 1].response.status == 401
    ensures exchanges[0].Received? && exchanges[0].response.status == 401 ==>
              RunFrom(token, text, exchanges, 0) == Run(Failure(Api(NotAuthenticated)), 1, [])
  {
    RunShape(token, text, exchanges, 0);
  }

  /** A client error other than 401 is thrown at once under a real token; under
      a demo token it becomes the echo reply. */
  lemma ClientErrorIsNotRetried(token: string, text: string, exchanges: seq<Exchange>)
    requires |exchanges| == MaxRetries + 1
    requires exchanges[0].Received? && 400 <= exchanges[0].response.status < 500 && exchanges[0].response.status != 401
    ensures var resp := exchanges[0].response;
            RunFrom(token, text, exchanges, 0) ==
              if StartsWith(token, Auth.DemoTokenPrefix) then Run(Success(DemoTokenReply(text)), 1, [])
              else Run(Failure(Api(ServerError(UserFacingMessage(resp, resp.status)))), 1, [])
  {
  }

  /** A transport error is passed on unchanged and never retried. */
  lemma TransportErrorIsNotRetried(token: string, text: string, exchanges: seq<Exchange>)
    requires |exchanges| == MaxRetries + 1 && exchanges[0].TransportError?
    ensures RunFrom(token, text, exchanges, 0) == Run(Failure(Transport(exchanges[0].description)), 1, [])
  {
  }

  /** A successful answer is never empty. */
  lemma {:induction false} AnswersAreNonEmpty(token: string, text: string, exchanges: seq<Exchange>)
    requires |exchanges| == MaxRetries + 1
    ensures RunFrom(token, text, exchanges, 0).result.Success? ==> RunFrom(token, text, exchanges, 0).result.value != ""
  {
    RunShape(token, text, exchanges, 0);
  }

  /** The retry loop's invariant: after the waits `delays`, running on from
      `attempt` completes the run that starts at attempt 0. */
  ghost predicate Resumes(token: string, text: string, exchanges: seq<Exchange>, attempt: nat, delays: seq<nat>)
    requires |exchanges| == MaxRetries + 1 && attempt <= MaxRetries
  {
    var rest := RunFrom(token, text, exchanges, attempt);
    RunFrom(token, text, exchanges, 0) == Run(rest.result, rest.attempts, delays + rest.delays)
  }

  /** One pass of the loop keeps `Resumes`: a finished attempt is the run's
      result, and a retry resumes from the next attempt after one more wait. */
  lemma ResumesAfter(token: string, text: string, exchanges: seq<Exchange>, attempt: nat, delays: seq<nat>)
    requires |exchanges| == MaxRetries + 1 && attempt <= MaxRetries
    requires Resumes(token, text, exchanges, attempt, delays)
    ensures var step := AttemptStep(token, text, exchanges[attempt], attempt);
            && (step.Done? ==> RunFrom(token, text, exchanges, 0) == Run(step.result, attempt + 1, delays))
            && (step.Retry? ==> attempt + 1 <= MaxRetries
                                && Resumes(token, text, exchanges, attempt + 1, delays + [step.delay]))
  {
    RunFromStep(token, text, exchanges, attempt);
    var step := AttemptStep(token, text, exchanges[attempt], attempt);
    if step.Retry? {
      var rest := RunFrom(token, text, exchanges, attempt + 1);
      assert delays + ([step.delay] + rest.delays) == (delays + [step.delay]) + rest.delays;
    }
  }

  class DialogApiService {
    const auth: Auth.AuthService

    constructor (auth: Auth.AuthService)
      ensures this.auth == auth
    {
      this.auth := auth;
    }

    /** One pass of the loop body: the attempt's outcome, and a 401 signs
        the user out before `notAuthenticated` is thrown. */
    method Attempt(token: string, text: string, exchange: Exchange, attempt: nat) returns (step: Step)
      modifies auth.keychain
      ensures step == AttemptStep(token, text, exchange, attempt)
      ensures auth.keychain.items == (if step == Done(Failure(Api(NotAuthenticated)))
                                      then old(auth.keychain.items) - {TokenKey}
                                      else old(auth.keychain.items))
    {
      step := AttemptStep(token, text, exchange, attempt);
      if exchange.Received? && exchange.response.status == 401 {
        auth.Logout();
      }
    }

    /** The `for attempt in 0...maxRetries` loop of `sendMessage`: each pass
        makes one request; a 401 signs the user out before the loop ends. */
    method RunAttempts(token: string, text: string, exchanges: seq<Exchange>)
      returns (result: Result<string, SendFailure>, attempts: nat, delays: seq<nat>)
      requires |exchanges| == MaxRetries + 1
      modifies auth.keychain
      ensures Run(result, attempts, delays) == RunFrom(token, text, exchanges, 0)
      ensures auth.keychain.items == (if result == Failure(Api(NotAuthenticated))
                                      then old(auth.keychain.items) - {TokenKey}
                                      else old(auth.keychain.items))
    {
      delays := [];
      var attempt := 0;
      while true
        invariant attempt <= MaxRetries
        invariant Resumes(token, text, exchanges, attempt, delays)
        invariant auth.keychain.items == old(auth.keychain.items)
        decreases MaxRetries - attempt
      {
        var step := Attempt(token, text, exchanges[attempt], attempt);
        ResumesAfter(token, text, exchanges, attempt, delays);
        match step
        case Done(r) =>
          return r, attempt + 1, delays;
        case Retry(_, delay) =>
          delays := delays + [delay];
          attempt := attempt + 1;
      }
    }

    /** `sendMessage(_:language:)`. No token: `notAuthenticated` before any
        request. Demo mode: the canned reply. Otherwise the request carries
        the formatted locale of `language`, else of the device language, and
        the retry loop runs; a 401 signs the user out. */
    method SendMessage(text: string, language: Option<string>, systemLanguage: Option<string>,
                       demoMode: bool, urlValid: bool, exchanges: seq<Exchange>)
      returns (result: Result<string, SendFailure>, request: Option<QueryRequest>, attempts: nat, delays: seq<nat>)
      requires |exchanges| == MaxRetries + 1
      modifies auth.keychain
      ensures old(auth.Token()).None? ==>
                result == Failure(Api(NotAuthenticated)) && request == None && attempts == 0
                && auth.keychain.items == old(auth.keychain.items)
      ensures old(auth.Token()).Some? && demoMode ==>
                result == Success(DemoModeReply(text)) && request == None && attempts == 0
                && auth.keychain.items == old(auth.keychain.items)
      ensures old(auth.Token()).Some? && !demoMode && !urlValid ==>
                result == Failure(Api(InvalidUrl)) && request == None && attempts == 0
                && auth.keychain.items == old(auth.keychain.items)
      ensures old(auth.Token()).Some? && !demoMode && urlValid ==>
                var run := RunFrom(old(auth.Token()).value, text, exchanges, 0);
                && Run(result, attempts, delays) == run
                && request == Some(QueryRequest(FormatLocale(language.OrElse(GetDeviceLanguage(systemLanguage))), text))
                && auth.keychain.items == (if run.result == Failure(Api(NotAuthenticated))
                                           then old(auth.keychain.items) - {TokenKey}
                                           else old(auth.keychain.items))
    {
      var storedToken := auth.Token();
      if storedToken.None? {
        return Failure(Api(NotAuthenticated)), None, 0, [];
      }
      if demoMode {
        return Success(DemoModeReply(text)), None, 0, [];
      }
      var lang := language.OrElse(GetDeviceLanguage(systemLanguage));
      if !urlValid {
        return Failure(Api(InvalidUrl)), None, 0, [];
      }
      request := Some(QueryRequest(FormatLocale(lang), text));
      result, attempts, delays := RunAttempts(storedToken.value, text, exchanges);
    }
  }
}
