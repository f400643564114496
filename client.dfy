/**
 * The HTTP client layer (src/api/clients.ts): base-URL resolution, the request
 * hook that adds the session header, the response hook that drops the stored
 * token on 401, the auth calls, the bulk-ratings payload and image-URL
 * normalisation. The transport is not modelled: each call takes the server's
 * reply (or the absence of one) as an input.
 */
module Client {
  import opened Wrappers
  import opened Js
  import opened Storage
  import opened Ratings

  // ---------------------------------------------------------------- base URL

  const DefaultBaseUrl: string := "http://localhost:8000"

  /** The `extra.API_BASE_URL` the app configuration supplies. */
  const ConfiguredBaseUrl: string := "http://192.168.1.11:8000"

  predicate EndsWithSlash(s: string) {
    |s| > 0 && s[|s| - 1] == '/'
  }

  /** `s.replace(/\/+$/, '')`: the longest prefix of `s` that does not end in `/`, the rest all slashes. */
  function StripTrailingSlashes(s: string): (r: string)
    ensures |r| <= |s| && s[..|r|] == r
    ensures forall i :: |r| <= i < |s| ==> s[i] == '/'
    ensures !EndsWithSlash(r)
  {
    if EndsWithSlash(s) then StripTrailingSlashes(s[..|s| - 1]) else s
  }

  /**
   * `resolveBaseURL()`: `extra.API_BASE_URL` when it is a string, then the two
   * environment variables, then the default; the first non-empty one wins (`||`),
   * with trailing slashes removed. An unset environment variable is `None`.
   */
  function ResolveBaseUrl(extra: JsValue, expoPublicEnv: Option<string>, apiBaseEnv: Option<string>): string {
    var fromExtra := if extra.Str? then extra.s else "";
    var url :=
      if fromExtra != "" then fromExtra
      else if expoPublicEnv.GetOr("") != "" then expoPublicEnv.value
      else if apiBaseEnv.GetOr("") != "" then apiBaseEnv.value
      else DefaultBaseUrl;
    StripTrailingSlashes(url)
  }

  /** The configured value is used as is: it is a non-empty string without a trailing slash. */
  lemma ConfiguredBaseUrlResolves(expoPublicEnv: Option<string>, apiBaseEnv: Option<string>)
    ensures ResolveBaseUrl(Str(ConfiguredBaseUrl), expoPublicEnv, apiBaseEnv) == ConfiguredBaseUrl
  {
  }

  /** Stripping undoes any run of trailing slashes exactly. */
  lemma {:induction false} StripSlashesPadded(s: string, n: nat)
    requires !EndsWithSlash(s)
    ensures StripTrailingSlashes(s + Slashes(n)) == s
    decreases n
  {
    if n > 0 {
      assert (s + Slashes(n))[..|s + Slashes(n)| - 1] == s + Slashes(n - 1);
      StripSlashesPadded(s, n - 1);
    }
  }

  function Slashes(n: nat): (r: string)
    ensures |r| == n && forall i :: 0 <= i < n ==> r[i] == '/'
  {
    if n == 0 then "" else Slashes(n - 1) + "/"
  }

  /**
   * The precedence of the sources: a non-empty string in the configuration
   * wins; without one, a non-empty `EXPO_PUBLIC_API_BASE_URL`, then a non-empty
   * `API_BASE_URL`; with none of them, the default. The result never ends in a
   * slash.
   */
  lemma BaseUrlPrecedence(extra: JsValue, expoPublicEnv: Option<string>, apiBaseEnv: Option<string>, x: string, n: nat)
    ensures !EndsWithSlash(ResolveBaseUrl(extra, expoPublicEnv, apiBaseEnv))
    ensures x != "" && !EndsWithSlash(x) ==> ResolveBaseUrl(Str(x + Slashes(n)), expoPublicEnv, apiBaseEnv) == x
    ensures !(extra.Str? && extra.s != "") && expoPublicEnv.Some? && expoPublicEnv.value != ""
            ==> ResolveBaseUrl(extra, expoPublicEnv, apiBaseEnv) == StripTrailingSlashes(expoPublicEnv.value)
    ensures !(extra.Str? && extra.s != "") && expoPublicEnv.GetOr("") == "" && apiBaseEnv.Some? && apiBaseEnv.value != ""
            ==> ResolveBaseUrl(extra, expoPublicEnv, apiBaseEnv) == StripTrailingSlashes(apiBaseEnv.value)
    ensures !(extra.Str? && extra.s != "") && expoPublicEnv.GetOr("") == "" && apiBaseEnv.GetOr("") == ""
            ==> ResolveBaseUrl(extra, expoPublicEnv, apiBaseEnv) == DefaultBaseUrl
  {
    if x != "" && !EndsWithSlash(x) {
      StripSlashesPadded(x, n);
    }
  }

  // ---------------------------------------------------------------- request hook

  const AuthorizationHeader: string := "Authorization"
  const ContentTypeHeader: string := "Content-Type"
  const JsonContentType: string := "application/json"

  /** A stored token counts only when it is non-empty (`if (token)`). */
  predicate HasToken(stored: Option<string>) {
    stored.Some? && stored.value != ""
  }

  /**
   * The headers of an outgoing request after the request hook: a stored
   * non-empty token replaces any Authorization header with `Bearer <token>`; a
   * request with a truthy body and no Content-Type gets the JSON type; every
   * other header is kept.
   */
  function SessionHeaders(headers: map<string, string>, data: JsValue, stored: Option<string>): (h: map<string, string>)
    ensures HasToken(stored) ==> AuthorizationHeader in h && h[AuthorizationHeader] == "Bearer " + stored.value
    ensures !HasToken(stored) ==>
              (AuthorizationHeader in h <==> AuthorizationHeader in headers)
              && (AuthorizationHeader in headers ==> h[AuthorizationHeader] == headers[AuthorizationHeader])
    ensures ContentTypeHeader in headers ==> ContentTypeHeader in h && h[ContentTypeHeader] == headers[ContentTypeHeader]
    ensures ContentTypeHeader !in headers ==>
              (ContentTypeHeader in h <==> Truthy(data))
              && (ContentTypeHeader in h ==> h[ContentTypeHeader] == JsonContentType)
    ensures forall k :: k in headers && k != AuthorizationHeader && k != ContentTypeHeader ==> k in h && h[k] == headers[k]
    ensures forall k :: k in h ==> k in headers || k == AuthorizationHeader || k == ContentTypeHeader
  {
    var withAuth := if HasToken(stored) then headers[AuthorizationHeader := "Bearer " + stored.value] else headers;
    if Truthy(data) && ContentTypeHeader !in withAuth then withAuth[ContentTypeHeader := JsonContentType] else withAuth
  }

  /** An outgoing request as the hook sees it; the hook rewrites its headers in place. */
  class RequestConfig {
    var headers: map<string, string>
    var data: JsValue

    constructor (headers0: map<string, string>, data0: JsValue)
      ensures headers == headers0 && data == data0
    {
      headers := headers0;
      data := data0;
    }
  }

  /** The request hook: reads the stored token and rewrites the request's headers. */
  method RequestHook(config: RequestConfig, store: TokenStore)
    modifies config
    ensures config.headers == SessionHeaders(old(config.headers), old(config.data), store.saved)
    ensures config.data == old(config.data)
  {
    var token := store.GetItem();
    var headers := config.headers;
    if token.Some? && token.value != "" {
      headers := headers[AuthorizationHeader := "Bearer " + token.value];
    }
    if Truthy(config.data) && ContentTypeHeader !in headers {
      headers := headers[ContentTypeHeader := JsonContentType];
    }
    config.headers := headers;
  }

  // ---------------------------------------------------------------- response hook

  /** What the transport produced: a response with a status, or no response at all. */
  datatype Reply = Reply(status: int, body: JsValue) | NoReply(message: string)

  /** The rejection a caller sees. */
  datatype HttpError = HttpError(status: int, body: JsValue) | NetworkError(message: string)

  /** The HTTP library's default success test on the status. */
  predicate IsSuccess(status: int) {
    200 <= status < 300
  }

  /** The reply that makes the response hook remove the stored token. */
  predicate ClearsToken(reply: Reply) {
    reply.Reply? && reply.status == 401
  }

  /** What a call resolves to after the response hook. */
  function Settle(reply: Reply): (r: Result<JsValue, HttpError>)
    ensures r.Ok? <==> reply.Reply? && IsSuccess(reply.status)
    ensures r.Ok? ==> r.value == reply.body
    ensures r.Err? && reply.Reply? ==> r.error == HttpError(reply.status, reply.body)
    ensures reply.NoReply? ==> r == Err(NetworkError(reply.message))
  {
    match reply
    case Reply(status, body) => if IsSuccess(status) then Ok(body) else Err(HttpError(status, body))
    case NoReply(message) => Err(NetworkError(message))
  }

  /**
   * The response hook: success passes through unchanged, every failure is
   * rejected again, and a 401 response first removes the stored token. The
   * in-memory session is not touched.
   */
  method ResponseHook(store: TokenStore, reply: Reply) returns (r: Result<JsValue, HttpError>)
    modifies store
    ensures r == Settle(reply)
    ensures store.saved == if ClearsToken(reply) then None else old(store.saved)
  {
    match reply {
      case Reply(status, body) =>
        if IsSuccess(status) {
          return Ok(body);
        }
        if status == 401 {
          store.RemoveItem();
        }
        r := Err(HttpError(status, body));
      case NoReply(message) =>
        r := Err(NetworkError(message));
    }
  }

  /**
   * One call through both hooks: the request goes out with the session headers
   * for the token stored at that moment, and the reply is settled.
   */
  method Send(store: TokenStore, data: JsValue, reply: Reply) returns (sent: map<string, string>, r: Result<JsValue, HttpError>)
    modifies store
    ensures sent == SessionHeaders(map[], data, old(store.saved))
    ensures r == Settle(reply)
    ensures store.saved == if ClearsToken(reply) then None else old(store.saved)
  {
    var config := new RequestConfig(map[], data);
    RequestHook(config, store);
    sent := config.headers;
    r := ResponseHook(store, reply);
  }

  // ---------------------------------------------------------------- auth calls

  /** How an auth call fails: the response hook's rejection, or an `Error` the call throws. */
  datatype ClientError = Http(cause: HttpError) | Thrown(message: string)

  const NoTokenMessage: string := "No token in login response"

  /** `(data && (data.token || data.access_token || data.jwt)) || (typeof data === 'string' ? data : undefined)` */
  function TokenOf(data: JsValue): JsValue {
    var fromFields := if Truthy(data) then Or(Or(Prop(data, "token"), Prop(data, "access_token")), Prop(data, "jwt")) else data;
    Or(fromFields, if data.Str? then data else Undefined)
  }

  /**
   * The token shapes a response may have: a string body is the token itself;
   * an object body gives the first truthy of `token`, `access_token`, `jwt`;
   * any other body gives no (truthy) token.
   */
  lemma TokenShapes(data: JsValue)
    ensures data.Str? ==> TokenOf(data) == data
    ensures data.Obj? ==> Or(TokenOf(data), Undefined)
                          == FirstTruthy([Field(data.fields, "token"), Field(data.fields, "access_token"), Field(data.fields, "jwt")])
    ensures !data.Str? && !data.Obj? ==> !Truthy(TokenOf(data))
  {
    if data.Obj? {
      var a, b, c := Field(data.fields, "token"), Field(data.fields, "access_token"), Field(data.fields, "jwt");
      FirstTruthyOfThree(a, b, c);
      assert TokenOf(data) == Or(Or(Or(a, b), c), Undefined);
    }
  }

  /** The message of the error `login` throws when the reply has no token. */
  function ServerMessage(data: JsValue): string {
    var fromFields := if Truthy(data) then Or(Prop(data, "detail"), Prop(data, "message")) else data;
    JsString(Or(fromFields, Str(NoTokenMessage)))
  }

  /** The message is the first truthy of `detail` and `message`, else the fixed text. */
  lemma ServerMessageShapes(data: JsValue)
    ensures data.Obj? && Truthy(Field(data.fields, "detail")) ==> ServerMessage(data) == JsString(Field(data.fields, "detail"))
    ensures data.Obj? && !Truthy(Field(data.fields, "detail")) && Truthy(Field(data.fields, "message"))
            ==> ServerMessage(data) == JsString(Field(data.fields, "message"))
    ensures data.Obj? && !Truthy(Field(data.fields, "detail")) && !Truthy(Field(data.fields, "message"))
            ==> ServerMessage(data) == NoTokenMessage
    ensures !data.Obj? && !data.Str? ==> ServerMessage(data) == NoTokenMessage
  {
  }

  /** What `login` resolves to. */
  function LoginResult(reply: Reply): Result<JsValue, ClientError> {
    match Settle(reply)
    case Err(e) => Err(Http(e))
    case Ok(data) =>
      var token := TokenOf(data);
      if Truthy(token) then Ok(token) else Err(Thrown(ServerMessage(data)))
  }

  /** What is stored after `login`. */
  function StoredAfterLogin(saved: Option<string>, reply: Reply): Option<string> {
    if ClearsToken(reply) then None
    else match LoginResult(reply)
      case Ok(token) => Some(JsString(token))
      case Err(_) => saved
  }

  /**
   * `login` succeeds exactly when the reply is a success whose body yields a
   * truthy token, and then stores that token; every failure leaves storage as it
   * was, except the 401 the response hook clears.
   */
  lemma LoginSpec(saved: Option<string>, reply: Reply)
    ensures LoginResult(reply).Ok? <==> Settle(reply).Ok? && Truthy(TokenOf(reply.body))
    ensures LoginResult(reply).Ok? ==> StoredAfterLogin(saved, reply) == Some(JsString(LoginResult(reply).value))
    ensures LoginResult(reply).Err? ==> StoredAfterLogin(saved, reply) == (if ClearsToken(reply) then None else saved)
    ensures Settle(reply).Ok? && !Truthy(TokenOf(reply.body)) ==> LoginResult(reply) == Err(Thrown(ServerMessage(reply.body)))
  {
  }

  /** `login(email, password)` */
  method Login(store: TokenStore, email: string, password: string, reply: Reply) returns (r: Result<JsValue, ClientError>)
    modifies store
    ensures r == LoginResult(reply)
    ensures store.saved == StoredAfterLogin(old(store.saved), reply)
  {
    var _, settled := Send(store, Obj(map["email" := Str(email), "password" := Str(password)]), reply);
    if settled.Err? {
      return Err(Http(settled.error));
    }
    var data := settled.value;
    var token := TokenOf(data);
    if !Truthy(token) {
      return Err(Thrown(ServerMessage(data)));
    }
    store.SetItem(JsString(token));
    r := Ok(token);
  }

  /** What is stored after `register`: the token when the body has one. */
  function StoredAfterRegister(saved: Option<string>, reply: Reply): Option<string> {
    if ClearsToken(reply) then None
    else match Settle(reply)
      case Ok(data) => if Truthy(TokenOf(data)) then Some(JsString(TokenOf(data))) else saved
      case Err(_) => saved
  }

  /** `register(email, password)`: stores a token when there is one and resolves to the raw body. */
  method Register(store: TokenStore, email: string, password: string, reply: Reply) returns (r: Result<JsValue, ClientError>)
    modifies store
    ensures r.Ok? <==> Settle(reply).Ok?
    ensures r.Ok? ==> r.value == reply.body
    ensures r.Err? ==> r == Err(Http(Settle(reply).error))
    ensures store.saved == StoredAfterRegister(old(store.saved), reply)
  {
    var _, settled := Send(store, Obj(map["email" := Str(email), "password" := Str(password)]), reply);
    if settled.Err? {
      return Err(Http(settled.error));
    }
    var data := settled.value;
    var token := TokenOf(data);
    if Truthy(token) {
      store.SetItem(JsString(token));
    }
    r := Ok(data);
  }

  /** `logout()`: only removes the stored token; no request is made. */
  method Logout(store: TokenStore)
    modifies store
    ensures store.saved == None
  {
    store.RemoveItem();
  }

  /**
   * `rateProductsBulk(ratings)`: posts `{ ratings }`. The payload reads back as
   * exactly the given items, and it is sent as JSON with the stored session.
   */
  method RateProductsBulk(store: TokenStore, ratings: seq<RatingItem>, reply: Reply)
    returns (payload: JsValue, sent: map<string, string>, r: Result<JsValue, HttpError>)
    modifies store
    ensures BulkOfJson(payload) == Some(ratings)
    ensures sent == SessionHeaders(map[], payload, old(store.saved))
    ensures ContentTypeHeader in sent && sent[ContentTypeHeader] == JsonContentType
    ensures r == Settle(reply)
    ensures store.saved == if ClearsToken(reply) then None else old(store.saved)
  {
    payload := BulkBody(ratings);
    BulkBodyRoundTrip(ratings);
    sent, r := Send(store, payload, reply);
  }

  // ---------------------------------------------------------------- image URLs

  /** A parsed absolute URL; `rest` is everything after the host. */
  datatype Url = Url(protocol: string, host: string, hostname: string, rest: string)

  function Href(u: Url): string {
    u.protocol + "//" + u.host + u.rest
  }

  function Origin(u: Url): string {
    u.protocol + "//" + u.host
  }

  /** One character of `replace(/\\/g, '/').replace(/\s/g, '%20')`. */
  function CleanChar(c: char): string {
    if c == '\\' then "/" else if IsJsSpace(c) then "%20" else [c]
  }

  predicate Clean(s: string) {
    forall i :: 0 <= i < |s| ==> s[i] != '\\' && !IsJsSpace(s[i])
  }

  /** Backslashes become `/` and whitespace `%20`; a string with neither is unchanged. */
  function CleanUrl(s: string): (r: string)
    ensures Clean(r)
    ensures Clean(s) ==> r == s
    ensures |r| >= |s|
  {
    if s == [] then "" else CleanChar(s[0]) + CleanUrl(s[1..])
  }

  /** Cleaning works character by character: it distributes over concatenation. */
  lemma {:induction false} CleanUrlAppend(a: string, b: string)
    ensures CleanUrl(a + b) == CleanUrl(a) + CleanUrl(b)
    decreases |a|
  {
    if a == [] {
      assert a + b == b;
    } else {
      assert (a + b)[0] == a[0] && (a + b)[1..] == a[1..] + b;
      CleanUrlAppend(a[1..], b);
      calc {
        CleanUrl(a + b);
        CleanChar(a[0]) + CleanUrl(a[1..] + b);
        CleanChar(a[0]) + (CleanUrl(a[1..]) + CleanUrl(b));
        CleanUrl(a) + CleanUrl(b);
      }
    }
  }

  /** The two rewrites: a backslash becomes `/`, a white-space character `%20`, any other character stays. */
  lemma CleanUrlRules(c: char)
    ensures c == '\\' ==> CleanUrl([c]) == "/"
    ensures IsJsSpace(c) ==> CleanUrl([c]) == "%20"
    ensures c != '\\' && !IsJsSpace(c) ==> CleanUrl([c]) == [c]
  {
    assert [c][1..] == [];
  }

  const LocalHosts: set<string> := {"localhost", "127.0.0.1"}

  /**
   * `resolveImageUrl(raw)`. `parse` stands for `new URL(...)`: the parts of an
   * absolute URL, or `None` where the constructor throws. A falsy raw value is
   * returned as is; otherwise an unparsable base URL makes the call throw.
   */
  function ResolveImageUrl(raw: Option<string>, baseUrl: string, parse: string -> Option<Url>): Result<Option<string>, string> {
    if raw.None? || raw.value == "" then Ok(raw)
    else
      var url := CleanUrl(raw.value);
      match parse(baseUrl)
      case None => Err("Invalid URL")
      case Some(base) =>
        match parse(url)
        case Some(u) =>
          if u.hostname in LocalHosts then Ok(Some(Href(u.(protocol := base.protocol, host := base.host))))
          else Ok(Some(Href(u)))
        case None =>
          if StartsWith(url, "//") then Ok(Some(base.protocol + url))
          else if StartsWith(url, "/") then Ok(Some(Origin(base) + url))
          else Ok(Some(Origin(base) + "/" + url))
  }

  /**
   * The cases of `resolveImageUrl`: falsy input comes back unchanged; an
   * absolute URL keeps its path and, when it names a local host, takes the base
   * URL's protocol and host; a relative one is made absolute against the base.
   */
  lemma ImageUrlCases(raw: Option<string>, baseUrl: string, parse: string -> Option<Url>)
    ensures raw.None? || raw.value == "" ==> ResolveImageUrl(raw, baseUrl, parse) == Ok(raw)
    ensures raw.Some? && raw.value != "" && parse(baseUrl).Some? ==>
              var url, base, r := CleanUrl(raw.value), parse(baseUrl).value, ResolveImageUrl(raw, baseUrl, parse);
              && r.Ok? && r.value.Some? && Clean(url)
              && (parse(url).Some? && parse(url).value.hostname in LocalHosts ==>
                   r.value.value == Origin(base) + parse(url).value.rest)
              && (parse(url).Some? && parse(url).value.hostname !in LocalHosts ==> r.value.value == Href(parse(url).value))
              && (parse(url).None? && StartsWith(url, "//") ==> r.value.value == base.protocol + url)
              && (parse(url).None? && !StartsWith(url, "//") && StartsWith(url, "/") ==> r.value.value == Origin(base) + url)
              && (parse(url).None? && !StartsWith(url, "/") ==> r.value.value == Origin(base) + "/" + url)
    ensures raw.Some? && raw.value != "" && parse(baseUrl).None? ==> ResolveImageUrl(raw, baseUrl, parse).Err?
  {
  }
}
