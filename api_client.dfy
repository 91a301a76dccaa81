/** The authenticated API client of lib/api.ts: a bearer token, an optional
    auth-failure handler and an `isRefreshing` flag, and `request`, which
    builds the headers, calls the transport, detects an authentication
    failure (HTTP 401, or a body whose error code is INVALID_TOKEN), calls
    the handler at most under the flag, retries once, and turns every
    exception raised inside its `try` into a NETWORK_ERROR envelope. Header
    names and values are taken to be ones `Headers` accepts unchanged
    (no CR, LF or NUL, nothing above U+00FF, no surrounding whitespace):
    the exception `Headers` raises otherwise, before the `try`, is not
    modelled.

    The transport (`fetch` and `response.json()`) and the handler are
    oracles: each call consumes the next element of a sequence of outcomes.
    `RunRequest` is the specification of one call as a pure function;
    `Client.Request` is the imperative model, proved equal to it. */
module ApiClient {
  import opened Wrappers
  import opened Strings

  /** Header names as the `Headers` object stores them (lower case). */
  const AUTHORIZATION := "authorization"
  const CONTENT_TYPE := "content-type"
  const JSON_TYPE := "application/json"
  const MULTIPART := "multipart/form-data"

  const INVALID_TOKEN := "INVALID_TOKEN"
  const NETWORK_ERROR := "NETWORK_ERROR"
  const HANDLER_NOT_SET := "AUTH_FAILURE_HANDLER_NOT_SET"

  type Headers = map<string, string>

  /** A request body: none, a string (what `JSON.stringify` produces), a
      `FormData` upload, or any other kind of body. */
  datatype Body = NoBody | Text(text: string) | Form | OtherBody

  datatype RequestOptions = RequestOptions(verb: string, headers: Headers, body: Body)

  datatype ApiError = ApiError(code: string, message: string)

  /** The response envelope `{success, data?, error?}`. */
  datatype Envelope<T> = Envelope(success: bool, data: Option<T>, error: Option<ApiError>)

  function NetworkError<T>(): Envelope<T> {
    Envelope(false, None, Some(ApiError(NETWORK_ERROR, "Network error occurred")))
  }

  function HandlerNotSet<T>(): Envelope<T> {
    Envelope(false, None, Some(ApiError(HANDLER_NOT_SET, "Authentication failure handler not set.")))
  }

  /** `data.error?.code === "INVALID_TOKEN"` */
  predicate IsInvalidToken<T>(e: Envelope<T>) {
    e.error.Some? && e.error.value.code == INVALID_TOKEN
  }

  /** What the body handling gives: a parsed envelope, or `NotJson` when the
      body fails to parse, or when it parses to `null` or to a primitive, so
      that reading `data.error` throws inside the `try`. */
  datatype ResponseBody<T> = NotJson | Json(envelope: Envelope<T>)

  /** One transport call: `fetch` rejects, or a response with a status and a body. */
  datatype FetchOutcome<T> = FetchThrows | Responded(status: int, body: ResponseBody<T>)

  /** One handler call: it resolves to `refreshed`, having possibly installed a
      new token in the client (`installed`), or it rejects. */
  datatype HandlerOutcome = Resolved(refreshed: bool, installed: Option<Option<string>>) | Rejected

  /** The client's fields: `accessToken`, whether `onAuthFailure` is set, `isRefreshing`. */
  datatype ClientState = ClientState(accessToken: Option<string>, hasHandler: bool, isRefreshing: bool)

  /** What one transport call was given: the URL and the request configuration. */
  datatype Sent = Sent(url: string, config: RequestOptions)

  /** The effect of one top-level `request`: the envelope returned, the client's
      state afterwards, the transport calls made (in order) and the number of
      handler calls. */
  datatype Run<T> = Run(result: Envelope<T>, state: ClientState, sent: seq<Sent>, handlerCalls: nat)

  /** `if (this.accessToken)`: present and not the empty string. */
  predicate HasToken(token: Option<string>) {
    token.Some? && token.value != ""
  }

  /** The JSON content type is added: a non-empty string body and no content type yet. */
  predicate AddsJsonType(options: RequestOptions) {
    options.body.Text? && options.body.text != "" && CONTENT_TYPE !in options.headers
  }

  /** A caller-set multipart content type is dropped for a `FormData` body. */
  predicate DropsMultipart(options: RequestOptions) {
    && options.body.Form?
    && CONTENT_TYPE in options.headers
    && StartsWith(options.headers[CONTENT_TYPE], MULTIPART)
  }

  /** The headers `request` sends (lib/api.ts:151-170). */
  function RequestHeaders(token: Option<string>, options: RequestOptions): (h: Headers)
  {
    var h1 := if HasToken(token) then options.headers[AUTHORIZATION := "Bearer " + token.value]
              else options.headers;
    if AddsJsonType(options) then h1[CONTENT_TYPE := JSON_TYPE]
    else if DropsMultipart(options) then h1 - {CONTENT_TYPE}
    else h1
  }

  /** What the headers hold: the bearer token over any caller value, the JSON
      content type only when it is added, a caller's multipart type dropped,
      every other caller header kept and nothing else added. */
  lemma HeadersSent(token: Option<string>, options: RequestOptions)
    ensures var h := RequestHeaders(token, options);
      && (HasToken(token) ==> AUTHORIZATION in h && h[AUTHORIZATION] == "Bearer " + token.value)
      && (!HasToken(token) ==>
            && (AUTHORIZATION in h <==> AUTHORIZATION in options.headers)
            && (AUTHORIZATION in h ==> h[AUTHORIZATION] == options.headers[AUTHORIZATION]))
      && (AddsJsonType(options) ==> CONTENT_TYPE in h && h[CONTENT_TYPE] == JSON_TYPE)
      && (DropsMultipart(options) ==> CONTENT_TYPE !in h)
      && (!AddsJsonType(options) && !DropsMultipart(options) ==>
            && (CONTENT_TYPE in h <==> CONTENT_TYPE in options.headers)
            && (CONTENT_TYPE in h ==> h[CONTENT_TYPE] == options.headers[CONTENT_TYPE]))
      && (forall k | k in options.headers && k != AUTHORIZATION && k != CONTENT_TYPE ::
            k in h && h[k] == options.headers[k])
      && (forall k | k in h :: k in options.headers || k == AUTHORIZATION || k == CONTENT_TYPE)
  {
  }

  /** Enough oracle outcomes for one call: a top-level call makes at most two
      transport calls and two handler calls, a retry one transport call. */
  predicate Covers<T>(isRetry: bool, fetches: seq<FetchOutcome<T>>, handlers: seq<HandlerOutcome>) {
    if isRetry then |fetches| >= 1 else |fetches| >= 2 && |handlers| >= 2
  }

  /** The state after a handler call that resolved: the token it installed, if
      any, and the flag cleared. */
  function AfterRefresh(st: ClientState, installed: Option<Option<string>>): ClientState {
    st.(accessToken := installed.GetOr(st.accessToken), isRefreshing := false)
  }

  /** The retry's effect, preceded by the transport call already made and the
      handler calls already counted. */
  function Retried<T>(first: Sent, retry: Run<T>, calls: nat): Run<T> {
    Run(retry.result, retry.state, [first] + retry.sent, calls + retry.handlerCalls)
  }

  /** Specification of `request(endpoint, options, isRetry)` (lib/api.ts:140-234),
      on a client in state `st` whose `baseURL + endpoint` is `url`. */
  function RunRequest<T>(st: ClientState, url: string, options: RequestOptions, isRetry: bool,
                         fetches: seq<FetchOutcome<T>>, handlers: seq<HandlerOutcome>): Run<T>
    requires Covers(isRetry, fetches, handlers)
    decreases if isRetry then 0 else 1, 3
  {
    var sent := Sent(url, options.(headers := RequestHeaders(st.accessToken, options)));
    match fetches[0]
    case FetchThrows => Run(NetworkError(), st, [sent], 0)
    case Responded(status, body) => AfterFetch(st, url, options, isRetry, status, body, fetches, handlers, sent)
  }

  /** `request` once the transport has answered the call `sent` with a status
      and a body: the 401 check, then the body (lib/api.ts:175-225). */
  function AfterFetch<T>(st: ClientState, url: string, options: RequestOptions, isRetry: bool,
                         status: int, body: ResponseBody<T>,
                         fetches: seq<FetchOutcome<T>>, handlers: seq<HandlerOutcome>, sent: Sent): Run<T>
    requires Covers(isRetry, fetches, handlers)
    decreases if isRetry then 0 else 1, 2
  {
    if status == 401 && !isRetry && !st.hasHandler then Run(HandlerNotSet(), st, [sent], 0)
    else if status == 401 && !isRetry && !st.isRefreshing then Unauthorized(st, url, options, body, fetches, handlers, sent)
    else Settle(st, url, options, isRetry, body, fetches, handlers, sent, 0)
  }

  /** A first attempt answered 401 while a handler is installed and no refresh
      is under way: the handler is called, then the call is retried or goes on
      to the body (lib/api.ts:186-195). */
  function Unauthorized<T>(st: ClientState, url: string, options: RequestOptions, body: ResponseBody<T>,
                           fetches: seq<FetchOutcome<T>>, handlers: seq<HandlerOutcome>, sent: Sent): Run<T>
    requires Covers(false, fetches, handlers)
    decreases 1, 1
  {
    match handlers[0]
    case Rejected => Run(NetworkError(), st.(isRefreshing := true), [sent], 1)
    case Resolved(refreshed, installed) =>
      var st1 := AfterRefresh(st, installed);
      if refreshed then Retried(sent, RunRequest(st1, url, options, true, fetches[1..], handlers[1..]), 1)
      else Settle(st1, url, options, false, body, fetches, handlers[1..], sent, 1)
  }

  /** The rest of `request` once the status has been dealt with: parse the body
      and check it for INVALID_TOKEN (lib/api.ts:199-225). */
  function Settle<T>(st: ClientState, url: string, options: RequestOptions, isRetry: bool,
                     body: ResponseBody<T>, fetches: seq<FetchOutcome<T>>, handlers: seq<HandlerOutcome>,
                     sent: Sent, calls: nat): Run<T>
    requires if isRetry then |fetches| >= 1 else |fetches| >= 2 && |handlers| >= 1
    decreases if isRetry then 0 else 1, 0
  {
    match body
    case NotJson => Run(NetworkError(), st, [sent], calls)
    case Json(env) =>
      if IsInvalidToken(env) && !isRetry && !st.hasHandler then Run(HandlerNotSet(), st, [sent], calls)
      else if IsInvalidToken(env) && !isRetry && !st.isRefreshing then
        match handlers[0]
        case Rejected => Run(NetworkError(), st.(isRefreshing := true), [sent], calls + 1)
        case Resolved(refreshed, installed) =>
          var st1 := AfterRefresh(st, installed);
          if refreshed then Retried(sent, RunRequest(st1, url, options, true, fetches[1..], handlers[1..]), calls + 1)
          else Run(env, st1, [sent], calls + 1)
      else Run(env, st, [sent], calls)
  }

  /** One member of a serialised object: `"key":"value"`. */
  function JsonMember(member: (string, string)): string {
    "\"" + member.0 + "\":\"" + member.1 + "\""
  }

  /** The serialised members, in order. */
  function JsonMemberTexts(members: seq<(string, string)>): (texts: seq<string>)
    ensures |texts| == |members|
    ensures forall i | 0 <= i < |members| :: texts[i] == JsonMember(members[i])
  {
    seq(|members|, i requires 0 <= i < |members| => JsonMember(members[i]))
  }

  /** `JSON.stringify` of an object whose members are all strings (no
      escaping): braces around the members, in order, separated by commas. */
  function JsonObject(members: seq<(string, string)>): (s: string)
    ensures members == [] ==> s == "{}"
    ensures members != [] ==> s == "{" + Join(JsonMemberTexts(members), ',') + "}"
  {
    JsonMembersJoin(members);
    "{" + JsonMembers(members) + "}"
  }

  function JsonMembers(members: seq<(string, string)>): string
    decreases |members|
  {
    if members == [] then ""
    else if |members| == 1 then JsonMember(members[0])
    else JsonMember(members[0]) + "," + JsonMembers(members[1..])
  }

  /** Writing the members one by one is joining their texts with commas. */
  lemma {:induction false} JsonMembersJoin(members: seq<(string, string)>)
    ensures members == [] ==> JsonMembers(members) == ""
    ensures members != [] ==> JsonMembers(members) == Join(JsonMemberTexts(members), ',')
    decreases |members|
  {
    if |members| > 1 {
      var rest := members[1..];
      JsonMembersJoin(rest);
      assert JsonMemberTexts(members) == [JsonMember(members[0])] + JsonMemberTexts(rest);
      JoinCons(JsonMember(members[0]), JsonMemberTexts(rest), ',');
    }
  }

  datatype Credentials = Credentials(email: string, password: string)

  datatype User = User(id: string, email: string, name: string, role: string,
                       createdAt: string, updatedAt: string)

  datatype LoginData = LoginData(user: User, accessToken: string, refreshToken: string)

  datatype Tokens = Tokens(accessToken: string, refreshToken: string)

  /** The data of a refresh response; `tokens` may be missing from what the server sends. */
  datatype RefreshData = RefreshData(success: bool, tokens: Option<Tokens>, message: string)

  function LoginOptions(credentials: Credentials): RequestOptions {
    RequestOptions("POST", map[], Text(JsonObject([("email", credentials.email), ("password", credentials.password)])))
  }

  function RefreshTokenOptions(refreshToken: string): RequestOptions {
    RequestOptions("POST", map[], Text(JsonObject([("refreshToken", refreshToken)])))
  }

  /** The login and refresh bodies: the credentials' e-mail then password,
      and the refresh token, each as a string member. `login` stringifies the
      object its caller passes, so the member order is the caller's; the
      model assumes the caller's object lists the e-mail first. */
  lemma RequestBodies(credentials: Credentials, refreshToken: string)
    ensures LoginOptions(credentials).body
            == Text("{" + JsonMember(("email", credentials.email)) + "," + JsonMember(("password", credentials.password)) + "}")
    ensures RefreshTokenOptions(refreshToken).body == Text("{" + JsonMember(("refreshToken", refreshToken)) + "}")
  {
    var members := [("email", credentials.email), ("password", credentials.password)];
    var texts := JsonMemberTexts(members);
    assert texts == [JsonMember(members[0])] + [JsonMember(members[1])];
    JoinCons(JsonMember(members[0]), [JsonMember(members[1])], ',');
  }

  function LogoutAllOptions(accessToken: string): RequestOptions {
    RequestOptions("POST", map[AUTHORIZATION := "Bearer " + accessToken], NoBody)
  }

  /** `logoutAll` sends the caller's bearer token only when the client holds
      none: a token the client holds overwrites the caller's header. No
      content type is sent. */
  lemma LogoutAllBearer(token: Option<string>, accessToken: string)
    ensures var h := RequestHeaders(token, LogoutAllOptions(accessToken));
            && AUTHORIZATION in h
            && h[AUTHORIZATION] == "Bearer " + (if HasToken(token) then token.value else accessToken)
            && CONTENT_TYPE !in h
  {
  }

  /** `response.success && response.data?.accessToken` */
  predicate GrantsToken(r: Envelope<LoginData>) {
    r.success && r.data.Some? && r.data.value.accessToken != ""
  }

  /** A call the transport answers goes on as `AfterFetch` says. */
  lemma RespondedRun<T>(st: ClientState, url: string, options: RequestOptions, isRetry: bool,
                        fetches: seq<FetchOutcome<T>>, handlers: seq<HandlerOutcome>)
    requires Covers(isRetry, fetches, handlers) && fetches[0].Responded?
    ensures RunRequest(st, url, options, isRetry, fetches, handlers)
         == AfterFetch(st, url, options, isRetry, fetches[0].status, fetches[0].body, fetches, handlers,
                       Sent(url, options.(headers := RequestHeaders(st.accessToken, options))))
  {
  }

  lemma AppendAssoc<T>(a: seq<T>, b: seq<T>, c: seq<T>)
    ensures (a + b) + c == a + (b + c)
  {
  }

  /** A non-empty list is its first element followed by the rest. */
  lemma SplitFirst<T>(s: seq<T>)
    requires |s| >= 1
    ensures s == [s[0]] + s[1..]
  {
  }

  /** The module's one `ApiClient` instance. */
  class Client {
    const baseURL: string
    var accessToken: Option<string>
    /** `onAuthFailure !== null`; the handler's behaviour is the oracle given to each request. */
    var hasHandler: bool
    var isRefreshing: bool
    /** Every transport call made so far. */
    ghost var sent: seq<Sent>
    /** The number of handler calls made so far. */
    ghost var handlerCalls: nat

    function State(): ClientState
      reads this
    {
      ClientState(accessToken, hasHandler, isRefreshing)
    }

    constructor (baseURL: string)
      ensures this.baseURL == baseURL
      ensures State() == ClientState(None, false, false)
      ensures sent == [] && handlerCalls == 0
    {
      this.baseURL := baseURL;
      accessToken := None;
      hasHandler := false;
      isRefreshing := false;
      sent := [];
      handlerCalls := 0;
    }

    /** lib/api.ts:132-134 */
    method SetAccessToken(token: Option<string>)
      modifies this
      ensures State() == old(State()).(accessToken := token)
      ensures sent == old(sent) && handlerCalls == old(handlerCalls)
    {
      accessToken := token;
    }

    /** lib/api.ts:136-138 */
    method SetAuthFailureHandler()
      modifies this
      ensures State() == old(State()).(hasHandler := true)
      ensures sent == old(sent) && handlerCalls == old(handlerCalls)
    {
      hasHandler := true;
    }

    /** The `Headers` object `request` builds, set by set and delete: lib/api.ts:151-171. */
    static method BuildHeaders(token: Option<string>, options: RequestOptions) returns (headers: Headers)
      ensures headers == RequestHeaders(token, options)
    {
      headers := options.headers;
      if token.Some? && token.value != "" {
        headers := headers[AUTHORIZATION := "Bearer " + token.value];
      }
      if options.body.Text? && options.body.text != "" && CONTENT_TYPE !in headers {
        headers := headers[CONTENT_TYPE := JSON_TYPE];
      } else if options.body.Form? {
        if CONTENT_TYPE in headers && StartsWith(headers[CONTENT_TYPE], MULTIPART) {
          headers := headers - {CONTENT_TYPE};
        }
      }
    }

    /** One handler call under the flag (lib/api.ts:188-190 and 214-216): the
        flag is set, the handler runs, and the flag is cleared only when the
        handler resolves; a rejection leaves it set. */
    method CallHandler(outcome: HandlerOutcome) returns (threw: bool)
      modifies this
      ensures threw == outcome.Rejected?
      ensures State() == if threw then old(State()).(isRefreshing := true)
                         else AfterRefresh(old(State()), outcome.installed)
      ensures sent == old(sent) && handlerCalls == old(handlerCalls) + 1
    {
      isRefreshing := true;
      handlerCalls := handlerCalls + 1;
      if outcome.Rejected? {
        return true;
      }
      if outcome.installed.Some? {
        accessToken := outcome.installed.value;
      }
      isRefreshing := false;
      return false;
    }

    /** `request(endpoint, options, isRetry)`: lib/api.ts:140-234. */
    method Request<T>(endpoint: string, options: RequestOptions, isRetry: bool,
                      fetches: seq<FetchOutcome<T>>, handlers: seq<HandlerOutcome>)
      returns (r: Envelope<T>)
      requires Covers(isRetry, fetches, handlers)
      modifies this
      ensures var run := RunRequest(old(State()), baseURL + endpoint, options, isRetry, fetches, handlers);
              && r == run.result
              && State() == run.state
              && sent == old(sent) + run.sent
              && handlerCalls == old(handlerCalls) + run.handlerCalls
      decreases if isRetry then 0 else 1, 3
    {
      var headers := BuildHeaders(accessToken, options);
      var config := Sent(baseURL + endpoint, options.(headers := headers));
      sent := sent + [config];
      var response := fetches[0];
      if response.FetchThrows? {
        r := NetworkError();
        return;
      }
      ghost var st0 := State();
      ghost var sent0 := old(sent);
      r := HandleResponse(endpoint, options, isRetry, response.status, response.body, fetches, handlers, config);
      ghost var run := AfterFetch(st0, baseURL + endpoint, options, isRetry,
                                  response.status, response.body, fetches, handlers, config);
      RespondedRun(st0, baseURL + endpoint, options, isRetry, fetches, handlers);
      SplitFirst(run.sent);
      AppendAssoc(sent0, [config], run.sent[1..]);
    }

    /** `request` once the transport has answered the call `config`: the 401
        check, then the body (lib/api.ts:175-225). */
    method HandleResponse<T>(endpoint: string, options: RequestOptions, isRetry: bool,
                             status: int, body: ResponseBody<T>,
                             fetches: seq<FetchOutcome<T>>, handlers: seq<HandlerOutcome>,
                             ghost config: Sent)
      returns (r: Envelope<T>)
      requires Covers(isRetry, fetches, handlers)
      modifies this
      ensures var run := AfterFetch(old(State()), baseURL + endpoint, options, isRetry, status, body, fetches, handlers, config);
              && r == run.result
              && State() == run.state
              && |run.sent| >= 1 && run.sent[0] == config
              && sent == old(sent) + run.sent[1..]
              && handlerCalls == old(handlerCalls) + run.handlerCalls
      decreases if isRetry then 0 else 1, 2
    {
      if status == 401 && !isRetry {
        if !hasHandler {
          r := HandlerNotSet();
          return;
        }
        if !isRefreshing {
          r := RefreshAfterUnauthorized(endpoint, options, body, fetches, handlers, config);
          return;
        }
      }
      r := SettleBody(endpoint, options, isRetry, body, fetches, handlers, config, 0);
    }

    /** A first attempt answered 401 while a handler is installed and no refresh
        is under way: call the handler, then retry or go on to the body
        (lib/api.ts:186-195). */
    method RefreshAfterUnauthorized<T>(endpoint: string, options: RequestOptions, body: ResponseBody<T>,
                                       fetches: seq<FetchOutcome<T>>, handlers: seq<HandlerOutcome>,
                                       ghost config: Sent)
      returns (r: Envelope<T>)
      requires Covers(false, fetches, handlers)
      modifies this
      ensures var run := Unauthorized(old(State()), baseURL + endpoint, options, body, fetches, handlers, config);
              && r == run.result
              && State() == run.state
              && |run.sent| >= 1 && run.sent[0] == config
              && sent == old(sent) + run.sent[1..]
              && handlerCalls == old(handlerCalls) + run.handlerCalls
      decreases 1, 1
    {
      var outcome := handlers[0];
      var threw := CallHandler(outcome);
      if threw {
        r := NetworkError();
        return;
      }
      if outcome.refreshed {
        r := Request(endpoint, options, true, fetches[1..], handlers[1..]);
        return;
      }
      r := SettleBody(endpoint, options, false, body, fetches, handlers[1..], config, 1);
    }

    /** The rest of `request` once the status has been dealt with: lib/api.ts:199-225. */
    method SettleBody<T>(endpoint: string, options: RequestOptions, isRetry: bool, body: ResponseBody<T>,
                         fetches: seq<FetchOutcome<T>>, handlers: seq<HandlerOutcome>,
                         ghost config: Sent, ghost calls: nat)
      returns (r: Envelope<T>)
      requires if isRetry then |fetches| >= 1 else |fetches| >= 2 && |handlers| >= 1
      modifies this
      ensures var run := Settle(old(State()), baseURL + endpoint, options, isRetry, body, fetches, handlers, config, calls);
              && r == run.result
              && State() == run.state
              && |run.sent| >= 1 && run.sent[0] == config
              && sent == old(sent) + run.sent[1..]
              && handlerCalls + calls == old(handlerCalls) + run.handlerCalls
      decreases if isRetry then 0 else 1, 0
    {
      if body.NotJson? {
        r := NetworkError();
        return;
      }
      var data := body.envelope;
      if IsInvalidToken(data) && !isRetry {
        if !hasHandler {
          r := HandlerNotSet();
          return;
        }
        if !isRefreshing {
          var outcome := handlers[0];
          var threw := CallHandler(outcome);
          if threw {
            r := NetworkError();
            return;
          }
          if outcome.refreshed {
            r := Request(endpoint, options, true, fetches[1..], handlers[1..]);
            return;
          }
        }
      }
      r := data;
    }

    /** `login`: lib/api.ts:237-247. The token is stored only for a successful
        response that carries a non-empty access token. */
    method Login(credentials: Credentials, fetches: seq<FetchOutcome<LoginData>>, handlers: seq<HandlerOutcome>)
      returns (r: Envelope<LoginData>)
      requires Covers(false, fetches, handlers)
      modifies this
      ensures var run := RunRequest(old(State()), baseURL + "/auth/login", LoginOptions(credentials), false, fetches, handlers);
              && r == run.result
              && State() == run.state.(accessToken := if GrantsToken(r) then Some(r.data.value.accessToken)
                                                      else run.state.accessToken)
              && sent == old(sent) + run.sent
              && handlerCalls == old(handlerCalls) + run.handlerCalls
    {
      r := Request("/auth/login", LoginOptions(credentials), false, fetches, handlers);
      if r.success && r.data.Some? && r.data.value.accessToken != "" {
        SetAccessToken(Some(r.data.value.accessToken));
      }
    }

    /** `refreshToken`: lib/api.ts:249-263. The response is returned; the
        client's token is left to the caller. */
    method RefreshToken(refreshToken: string, fetches: seq<FetchOutcome<RefreshData>>, handlers: seq<HandlerOutcome>)
      returns (r: Envelope<RefreshData>)
      requires Covers(false, fetches, handlers)
      modifies this
      ensures var run := RunRequest(old(State()), baseURL + "/auth/refresh", RefreshTokenOptions(refreshToken), false, fetches, handlers);
              && r == run.result
              && State() == run.state
              && sent == old(sent) + run.sent
              && handlerCalls == old(handlerCalls) + run.handlerCalls
    {
      r := Request("/auth/refresh", RefreshTokenOptions(refreshToken), false, fetches, handlers);
    }

    /** `logout`: lib/api.ts:265-274. The token is cleared whatever the response. */
    method Logout(refreshToken: string, fetches: seq<FetchOutcome<()>>, handlers: seq<HandlerOutcome>)
      returns (r: Envelope<()>)
      requires Covers(false, fetches, handlers)
      modifies this
      ensures var run := RunRequest(old(State()), baseURL + "/auth/logout", RefreshTokenOptions(refreshToken), false, fetches, handlers);
              && r == run.result
              && State() == run.state.(accessToken := None)
              && sent == old(sent) + run.sent
              && handlerCalls == old(handlerCalls) + run.handlerCalls
    {
      r := Request("/auth/logout", RefreshTokenOptions(refreshToken), false, fetches, handlers);
      SetAccessToken(None);
    }

    /** `logoutAll`: lib/api.ts:282-291. The caller's Authorization header is
        sent only when the client holds no token; the token is cleared
        whatever the response. */
    method LogoutAll(accessToken: string, fetches: seq<FetchOutcome<()>>, handlers: seq<HandlerOutcome>)
      returns (r: Envelope<()>)
      requires Covers(false, fetches, handlers)
      modifies this
      ensures var run := RunRequest(old(State()), baseURL + "/auth/logout-all", LogoutAllOptions(accessToken), false, fetches, handlers);
              && r == run.result
              && State() == run.state.(accessToken := None)
              && sent == old(sent) + run.sent
              && handlerCalls == old(handlerCalls) + run.handlerCalls
    {
      r := Request("/auth/logout-all", LogoutAllOptions(accessToken), false, fetches, handlers);
      SetAccessToken(None);
    }
  }
}
