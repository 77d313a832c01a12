/** `AuthService`: sign-in and registration against the auth backend, keeping
    the bearer token in the keychain. */
module Auth {
  import opened Common
  import opened Http
  import opened Keychain

  datatype AuthError = InvalidUrl | NoData | InvalidResponse | ServerError(message: string) | EndpointNotFound

  /** `AuthError.errorDescription`. */
  function ErrorDescription(e: AuthError): (r: string)
    ensures e.ServerError? ==> r == e.message
    ensures !e.ServerError? ==> r != ""
  {
    match e
    case ServerError(msg) => msg
    case EndpointNotFound => "Server endpoint not found. Signed in locally."
    case InvalidUrl => "Invalid URL"
    case NoData => "No data"
    case InvalidResponse => "Invalid response"
  }

  /** What `login`/`register` can throw: an `AuthError`, or the transport error
      `URLSession` threw (with its localized description). */
  datatype AuthFailure = Auth(error: AuthError) | Transport(description: string)

  /** `error.localizedDescription` as the login form shows it. */
  function FailureDescription(f: AuthFailure): (r: string)
    ensures f.Auth? ==> r == ErrorDescription(f.error)
    ensures f.Transport? ==> r == f.description
  {
    match f
    case Auth(e) => ErrorDescription(e)
    case Transport(d) => d
  }

  // ---------------------------------------------------------------------------
  // Reading the server's reply

  /** The decoded `AuthResponse` (its `user` property is only checked for type). */
  datatype AuthResponse = AuthResponse(token: Option<string>, accessToken: Option<string>, access: Option<string>)

  /** `user: UserInfo?` decodes when absent, null, or an object whose `id` and
      `email` are strings or null. */
  predicate UserInfoDecodes(obj: JsonObject) {
    "user" !in obj || obj["user"].JNull?
    || (obj["user"].JObject? && OptionalStringsDecode(obj["user"].members, {"id", "email"}))
  }

  /** `JSONDecoder().decode(AuthResponse.self, from: data)`. */
  function DecodeAuthResponse(body: Option<JsonObject>): (r: Option<AuthResponse>)
    ensures r.Some? <==> DecodesOptionalStrings(body, {"token", "access_token", "access"}) && UserInfoDecodes(body.value)
    ensures r.Some? ==> (r.value.token == Field(body.value, "token")
                         && r.value.accessToken == Field(body.value, "access_token")
                         && r.value.access == Field(body.value, "access"))
  {
    if DecodesOptionalStrings(body, {"token", "access_token", "access"}) && UserInfoDecodes(body.value) then
      var obj := body.value;
      assert "access_token" in {"token", "access_token", "access"} && "access" in {"token", "access_token", "access"};
      Some(AuthResponse(Field(obj, "token"), Field(obj, "access_token"), Field(obj, "access")))
    else None
  }

  /** `resolvedToken`: `token ?? access_token ?? access`, the first one present
      (present but empty still wins). */
  function ResolvedToken(r: AuthResponse): (t: Option<string>)
    ensures t.Some? <==> r.token.Some? || r.accessToken.Some? || r.access.Some?
    ensures r.token.Some? ==> t == r.token
    ensures r.token.None? && r.accessToken.Some? ==> t == r.accessToken
    ensures r.token.None? && r.accessToken.None? ==> t == r.access
  {
    FirstSome(r.token, FirstSome(r.accessToken, r.access))
  }

  /** The token field of the decoded reply, when the reply decodes and has a
      non-empty one. */
  function JsonToken(resp: Response): Option<string> {
    var decoded := DecodeAuthResponse(resp.json);
    if decoded.Some? && ResolvedToken(decoded.value).Some? && ResolvedToken(decoded.value).value != "" then
      ResolvedToken(decoded.value)
    else None
  }

  const RawTokenMinLength: nat := 50

  /** A plain-text body passes for a JWT when it has a dot, is longer than 50
      characters and does not start like a JSON object. */
  predicate LooksLikeRawToken(raw: string) {
    '.' in raw && |raw| > RawTokenMinLength && !StartsWith(raw, "{")
  }

  /** `parseToken(from:)`: the trimmed JSON token if the untrimmed one is
      non-empty, else the trimmed body if it looks like a JWT, else
      `invalidResponse`. */
  function ParseToken(resp: Response): (r: Result<string, AuthError>)
    ensures JsonToken(resp).Some? ==> r == Success(Trim(JsonToken(resp).value))
    ensures JsonToken(resp).None? ==>
              var raw := Trim(resp.text.OrElse(""));
              (r.Success? <==> LooksLikeRawToken(raw)) && (r.Success? ==> r.value == raw)
    ensures r.Failure? ==> r.error == InvalidResponse
  {
    var fromJson := JsonToken(resp);
    if fromJson.Some? then Success(Trim(fromJson.value))
    else
      var raw := Trim(resp.text.OrElse(""));
      if LooksLikeRawToken(raw) then Success(raw) else Failure(InvalidResponse)
  }

  /** Every accepted token is already trimmed; a body-derived one is long and
      never starts with "{". A JSON token of blanks is accepted as the empty
      string, since emptiness is tested before trimming. */
  lemma ParseTokenShape(resp: Response)
    ensures ParseToken(resp).Success? ==> Trim(ParseToken(resp).value) == ParseToken(resp).value
    ensures ParseToken(resp).Success? && JsonToken(resp).None? ==>
              |ParseToken(resp).value| > RawTokenMinLength && !StartsWith(ParseToken(resp).value, "{")
  {
    if JsonToken(resp).Some? {
      TrimIdempotent(JsonToken(resp).value);
    } else {
      TrimIdempotent(resp.text.OrElse(""));
    }
  }

  /** A JSON `token` of spaces yields an empty token. */
  lemma BlankJsonTokenIsAccepted()
    ensures ParseToken(Response(200, None, Some(map["token" := JString("  ")]))) == Success("")
  {
    var obj := map["token" := JString("  ")];
    assert OptionalStringsDecode(obj, {"token", "access_token", "access"});
    assert DecodeAuthResponse(Some(obj)) == Some(AuthResponse(Some("  "), None, None));
    assert JsonToken(Response(200, None, Some(obj))) == Some("  ");
    TrimEmptyIff("  ");
  }

  /** `parseErrorDetail(data:)`: the `detail` string of an `{ "detail": … }` body. */
  function ErrorDetail(resp: Response): (r: Option<string>)
    ensures r.Some? <==> resp.json.Some? && "detail" in resp.json.value && resp.json.value["detail"].JString?
    ensures r.Some? ==> resp.json.value["detail"] == JString(r.value)
  {
    if DecodesOptionalStrings(resp.json, {"detail"}) then Field(resp.json.value, "detail") else None
  }

  const TryAgainInAMoment: string := "Server is temporarily unavailable. Please try again in a moment."
  const TryAgainLater: string := "Server is temporarily unavailable. Please try again later."

  /** `userFacingServerMessage(data:statusCode:)`: a fixed text for 5xx, another
      when the detail leaks an internal failure, else the detail itself (the
      `detail` field, else the body text, else "Server error"), even if empty. */
  function UserFacingServerMessage(resp: Response, status: int): (r: string)
    ensures status >= 500 ==> r == TryAgainInAMoment
    ensures status < 500 ==>
              var detail := ErrorDetail(resp).OrElse(resp.text.OrElse("Server error"));
              r == (if MentionsInternalError(detail) then TryAgainLater else detail)
  {
    var detail := FirstSome(ErrorDetail(resp), resp.text).OrElse("Server error");
    if status >= 500 then TryAgainInAMoment
    else if MentionsInternalError(detail) then TryAgainLater
    else detail
  }

  /** How `postAuth` reads one HTTP response: 401 is "Invalid credentials",
      any other status from 400 up is the user-facing message, and anything
      below 400 must carry a token. */
  function AuthReply(resp: Response): (r: Result<string, AuthError>)
    ensures resp.status == 401 ==> r == Failure(ServerError("Invalid credentials"))
    ensures resp.status >= 400 && resp.status != 401 ==>
              r == Failure(ServerError(UserFacingServerMessage(resp, resp.status)))
    ensures resp.status < 400 ==> r == ParseToken(resp)
  {
    if resp.status == 401 then Failure(ServerError("Invalid credentials"))
    else if resp.status >= 400 then Failure(ServerError(UserFacingServerMessage(resp, resp.status)))
    else ParseToken(resp)
  }

  /** A success reply always hands back a token, never an error text, and a
      reply from 400 up never does. */
  lemma AuthReplySucceedsOnlyBelow400(resp: Response)
    ensures AuthReply(resp).Success? ==> resp.status < 400
    ensures AuthReply(resp).Failure? && resp.status < 400 ==> AuthReply(resp).error == InvalidResponse
  {
  }

  // ---------------------------------------------------------------------------
  // The service

  const DemoTokenPrefix: string := "demo-token-"

  /** The JSON body of a request: login sends e-mail and password only,
      registration adds the device identifier. */
  datatype AuthRequest =
    | LoginRequest(email: string, password: string)
    | RegisterRequest(email: string, password: string, deviceId: Option<string>)

  /** The store after a sign-in that did not succeed: untouched, except that a
      401 reply logs out. */
  function StoreAfterFailure(items: map<string, string>, urlValid: bool, exchange: Exchange): map<string, string>
  {
    if urlValid && exchange.Received? && exchange.response.status == 401 then items - {TokenKey} else items
  }

  class AuthService {
    const keychain: KeychainService

    constructor (keychain: KeychainService)
      ensures this.keychain == keychain
    {
      this.keychain := keychain;
    }

    /** Logged in exactly when a token is stored. */
    function IsLoggedIn(): (r: bool)
      reads keychain
      ensures r <==> TokenKey in keychain.items
    {
      keychain.GetToken().Some?
    }

    function Token(): (r: Option<string>)
      reads keychain
      ensures r.Some? <==> IsLoggedIn()
      ensures r.Some? ==> r.value == keychain.items[TokenKey]
    {
      keychain.GetToken()
    }

    /** `logout()`: clears the token and nothing else. */
    method Logout()
      modifies keychain
      ensures keychain.items == old(keychain.items) - {TokenKey}
      ensures !IsLoggedIn()
    {
      keychain.ClearAll();
    }

    /** `postAuth(path:body:)` given what the network did: an invalid URL fails
        before any request; a 401 also removes the stored token. */
    method PostAuth(urlValid: bool, exchange: Exchange) returns (r: Result<string, AuthFailure>)
      modifies keychain
      ensures !urlValid ==> r == Failure(Auth(InvalidUrl)) && keychain.items == old(keychain.items)
      ensures urlValid && exchange.TransportError? ==>
                r == Failure(Transport(exchange.description)) && keychain.items == old(keychain.items)
      ensures urlValid && exchange.NotHttp? ==>
                r == Failure(Auth(InvalidResponse)) && keychain.items == old(keychain.items)
      ensures urlValid && exchange.Received? ==>
                var reply := AuthReply(exchange.response);
                (r.Success? <==> reply.Success?)
                && (reply.Success? ==> r.value == reply.value)
                && (reply.Failure? ==> r.error == Auth(reply.error))
                && keychain.items == (if exchange.response.status == 401 then old(keychain.items) - {TokenKey}
                                      else old(keychain.items))
    {
      if !urlValid {
        return Failure(Auth(InvalidUrl));
      }
      match exchange
      case TransportError(d) =>
        r := Failure(Transport(d));
      case NotHttp =>
        r := Failure(Auth(InvalidResponse));
      case Received(resp) =>
        if resp.status == 401 {
          keychain.RemoveToken();
        }
        var reply := AuthReply(resp);
        r := match reply
          case Success(t) => Success(t)
          case Failure(e) => Failure(Auth(e));
    }

    /** Shared tail of `login` and `register`: in demo mode the token is
        "demo-token-" followed by the e-mail; otherwise the parsed token is
        stored, and on failure nothing but a 401's token removal happens. */
    method Authenticate(request: AuthRequest, demoMode: bool, urlValid: bool, exchange: Exchange)
      returns (failure: Option<AuthFailure>, sent: Option<AuthRequest>)
      modifies keychain
      ensures demoMode ==> failure == None && sent == None
                           && keychain.items == old(keychain.items)[TokenKey := DemoTokenPrefix + request.email]
      ensures !demoMode && failure == None ==>
                urlValid && exchange.Received? && AuthReply(exchange.response).Success?
                && keychain.items == old(keychain.items)[TokenKey := AuthReply(exchange.response).value]
      ensures !demoMode && failure.Some? ==> keychain.items == StoreAfterFailure(old(keychain.items), urlValid, exchange)
      ensures !demoMode ==> (failure == None <==> urlValid && exchange.Received? && AuthReply(exchange.response).Success?)
      ensures !demoMode ==> sent == (if urlValid then Some(request) else None)
      ensures IsLoggedIn() ==> failure == None || old(IsLoggedIn())
    {
      if demoMode {
        keychain.SaveToken(DemoTokenPrefix + request.email);
        return None, None;
      }
      sent := if urlValid then Some(request) else None;
      var r := PostAuth(urlValid, exchange);
      match r
      case Success(token) =>
        keychain.SaveToken(token);
        failure := None;
      case Failure(f) =>
        failure := Some(f);
    }

    /** `register(email:password:deviceId:)`. */
    method Register(email: string, password: string, deviceId: string, demoMode: bool, urlValid: bool, exchange: Exchange)
      returns (failure: Option<AuthFailure>, sent: Option<AuthRequest>)
      modifies keychain
      ensures demoMode ==> failure == None && keychain.items == old(keychain.items)[TokenKey := DemoTokenPrefix + email]
      ensures sent == (if !demoMode && urlValid then Some(RegisterRequest(email, password, Some(deviceId))) else None)
      ensures !demoMode ==> (failure == None <==> urlValid && exchange.Received? && AuthReply(exchange.response).Success?)
      ensures !demoMode && failure == None ==> keychain.items == old(keychain.items)[TokenKey := AuthReply(exchange.response).value]
      ensures !demoMode && failure.Some? ==> keychain.items == StoreAfterFailure(old(keychain.items), urlValid, exchange)
      ensures failure == None ==> IsLoggedIn()
    {
      failure, sent := Authenticate(RegisterRequest(email, password, Some(deviceId)), demoMode, urlValid, exchange);
    }

    /** `login(email:password:deviceId:)`: the device identifier is not sent. */
    method Login(email: string, password: string, deviceId: string, demoMode: bool, urlValid: bool, exchange: Exchange)
      returns (failure: Option<AuthFailure>, sent: Option<AuthRequest>)
      modifies keychain
      ensures demoMode ==> failure == None && keychain.items == old(keychain.items)[TokenKey := DemoTokenPrefix + email]
      ensures sent == (if !demoMode && urlValid then Some(LoginRequest(email, password)) else None)
      ensures !demoMode ==> (failure == None <==> urlValid && exchange.Received? && AuthReply(exchange.response).Success?)
      ensures !demoMode && failure == None ==> keychain.items == old(keychain.items)[TokenKey := AuthReply(exchange.response).value]
      ensures !demoMode && failure.Some? ==> keychain.items == StoreAfterFailure(old(keychain.items), urlValid, exchange)
      ensures failure == None ==> IsLoggedIn()
    {
      failure, sent := Authenticate(LoginRequest(email, password), demoMode, urlValid, exchange);
    }
  }
}
