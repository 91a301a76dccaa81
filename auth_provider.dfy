/** The credential store of components/providers/auth-context-provider.tsx:
    `localStorage` (a map from keys to strings), the access-token cookie the
    middleware reads, and the React state `user`, `accessToken` and
    `isLoading`. Each operation is specified by a function from the old state
    to the new one (`Cleared`, `RefreshSpec`, `LoadSpec`, `Saved`,
    `LoginSpec`, `LogoutSpec`) and implemented step by step by a method of
    `AuthStore` proved against it.

    The API calls the store makes are oracles: the reply of
    `apiClient.refreshToken` or `apiClient.login` is a parameter, and so are
    `JSON.parse` and `JSON.stringify` of the stored user. */
module AuthProvider {
  import opened Wrappers
  import opened ApiClient
  import ApiClientProperties

  const TOKEN_KEY := "kovancilar_access_token"
  const REFRESH_TOKEN_KEY := "kovancilar_refresh_token"
  const USER_KEY := "kovancilar_user"

  const LOGIN_FAILED := "Login failed"
  const NETWORK_ERROR_MESSAGE := "Network error occurred"

  /** What an awaited API call gives the store: it throws, or returns an envelope. */
  datatype Reply<T> = Threw | Returned(envelope: Envelope<T>)

  /** `JSON.parse` of the stored user: it throws, or gives a user or `null`. */
  datatype ParsedUser = Malformed | Parsed(user: Option<User>)

  /** Everything the provider reads and writes. The cookie is the value of the
      `kovancilar_access_token` cookie, `None` once it has expired. */
  datatype AuthState = AuthState(storage: map<string, string>, cookie: Option<string>,
                                 user: Option<User>, accessToken: Option<string>, isLoading: bool)

  /** The state on mount: nothing in React state, still loading. */
  function Initial(storage: map<string, string>, cookie: Option<string>): AuthState {
    AuthState(storage, cookie, None, None, true)
  }

  /** `isAuthenticated = !!user && !!accessToken` (line 36). */
  predicate Authenticated(s: AuthState) {
    s.user.Some? && HasToken(s.accessToken)
  }

  /** `localStorage.getItem(key)` as a truthy value: present and not empty. */
  function Stored(storage: map<string, string>, key: string): (v: Option<string>)
    ensures v.Some? <==> key in storage && storage[key] != ""
    ensures v.Some? ==> v.value == storage[key]
  {
    if key in storage && storage[key] != "" then Some(storage[key]) else None
  }

  /** `clearAuthState` (lines 43-57). */
  function Cleared(s: AuthState): (r: AuthState)
    ensures TOKEN_KEY !in r.storage && REFRESH_TOKEN_KEY !in r.storage && USER_KEY !in r.storage
    ensures forall k | k in s.storage && k != TOKEN_KEY && k != REFRESH_TOKEN_KEY && k != USER_KEY ::
              k in r.storage && r.storage[k] == s.storage[k]
    ensures forall k | k in r.storage :: k in s.storage
    ensures r.cookie == None && r.user == None && r.accessToken == None
    ensures r.isLoading == s.isLoading
    ensures !Authenticated(r)
  {
    s.(storage := s.storage - {TOKEN_KEY, REFRESH_TOKEN_KEY, USER_KEY},
       cookie := None, user := None, accessToken := None)
  }

  /** Clearing twice is clearing once. */
  lemma ClearIdempotent(s: AuthState)
    ensures Cleared(Cleared(s)) == Cleared(s)
  {
    assert Cleared(Cleared(s)).storage == Cleared(s).storage;
  }

  /** The outcome of `refreshToken`: the new state, the boolean it resolves to,
      and the refresh token sent to the API (`None`: no call was made). */
  datatype RefreshStep = RefreshStep(state: AuthState, refreshed: bool, requested: Option<string>)

  /** A reply that carries new tokens: `response.success && response.data`, with
      `data.tokens` present (reading `tokens.accessToken` of a missing `tokens`
      throws, which the `catch` at lines 83-87 turns into a failure). */
  predicate GrantsTokens(reply: Reply<RefreshData>) {
    && reply.Returned?
    && reply.envelope.success
    && reply.envelope.data.Some?
    && reply.envelope.data.value.tokens.Some?
  }

  /** `refreshToken` (lines 59-88). */
  function RefreshSpec(s: AuthState, reply: Reply<RefreshData>): (r: RefreshStep)
    ensures r.requested == Stored(s.storage, REFRESH_TOKEN_KEY)
    ensures r.refreshed <==> r.requested.Some? && GrantsTokens(reply)
    ensures r.refreshed ==>
              var tokens := reply.envelope.data.value.tokens.value;
              && r.state == s.(storage := s.storage[TOKEN_KEY := tokens.accessToken][REFRESH_TOKEN_KEY := tokens.refreshToken],
                               accessToken := Some(tokens.accessToken))
              && r.state.user == s.user && r.state.cookie == s.cookie
    ensures !r.refreshed ==> r.state == Cleared(s)
  {
    match Stored(s.storage, REFRESH_TOKEN_KEY)
    case None => RefreshStep(Cleared(s), false, None)
    case Some(stored) =>
      if GrantsTokens(reply) then
        var tokens := reply.envelope.data.value.tokens.value;
        var storage := s.storage[TOKEN_KEY := tokens.accessToken][REFRESH_TOKEN_KEY := tokens.refreshToken];
        RefreshStep(s.(storage := storage, accessToken := Some(tokens.accessToken)), true, Some(stored))
      else RefreshStep(Cleared(s), false, Some(stored))
  }

  /** `loadAuthState` (lines 98-116). */
  function LoadSpec(s: AuthState, parse: string -> ParsedUser): (r: AuthState)
    ensures !r.isLoading
    ensures var token := Stored(s.storage, TOKEN_KEY);
            var stored := Stored(s.storage, USER_KEY);
            if token.None? || stored.None? then r == s.(isLoading := false)
            else if parse(stored.value).Malformed? then r == Cleared(s).(isLoading := false)
            else r == s.(accessToken := token, user := parse(stored.value).user,
                         cookie := token, isLoading := false)
  {
    var token := Stored(s.storage, TOKEN_KEY);
    var stored := Stored(s.storage, USER_KEY);
    if token.Some? && stored.Some? then
      match parse(stored.value)
      case Malformed => Cleared(s.(accessToken := token)).(isLoading := false)
      case Parsed(user) => s.(accessToken := token, user := user, cookie := token, isLoading := false)
    else s.(isLoading := false)
  }

  /** `saveAuthState` (lines 121-135). */
  function Saved(s: AuthState, data: LoginData, stringify: User -> string): (r: AuthState)
    ensures r.storage.Keys == s.storage.Keys + {TOKEN_KEY, REFRESH_TOKEN_KEY, USER_KEY}
    ensures r.storage[TOKEN_KEY] == data.accessToken
    ensures r.storage[REFRESH_TOKEN_KEY] == data.refreshToken
    ensures r.storage[USER_KEY] == stringify(data.user)
    ensures forall k | k in s.storage && k != TOKEN_KEY && k != REFRESH_TOKEN_KEY && k != USER_KEY ::
              r.storage[k] == s.storage[k]
    ensures r.cookie == Some(data.accessToken)
    ensures r.accessToken == Some(data.accessToken) && r.user == Some(data.user)
    ensures r.isLoading == s.isLoading
    ensures Authenticated(r) <==> data.accessToken != ""
  {
    var storage := s.storage[TOKEN_KEY := data.accessToken][REFRESH_TOKEN_KEY := data.refreshToken]
                            [USER_KEY := stringify(data.user)];
    s.(storage := storage, cookie := Some(data.accessToken),
       accessToken := Some(data.accessToken), user := Some(data.user))
  }

  /** What `login` resolves to: `{success}` or `{success: false, error}`. */
  datatype LoginResult = LoginResult(success: bool, error: Option<string>)

  datatype LoginStep = LoginStep(state: AuthState, result: LoginResult)

  /** `response.success && response.data` */
  predicate LoginSucceeds(reply: Reply<LoginData>) {
    reply.Returned? && reply.envelope.success && reply.envelope.data.Some?
  }

  /** `response.error?.message || 'Login failed'` */
  function FailureMessage(e: Envelope<LoginData>): (m: string)
    ensures m != ""
    ensures e.error.Some? && e.error.value.message != "" ==> m == e.error.value.message
  {
    if e.error.Some? && e.error.value.message != "" then e.error.value.message else LOGIN_FAILED
  }

  /** `login` (lines 137-160). */
  function LoginSpec(s: AuthState, reply: Reply<LoginData>, stringify: User -> string): (r: LoginStep)
    ensures r.result.success <==> LoginSucceeds(reply)
    ensures r.result.success <==> r.result.error.None?
    ensures !r.state.isLoading
    ensures LoginSucceeds(reply) ==> r.state == Saved(s, reply.envelope.data.value, stringify).(isLoading := false)
    ensures !LoginSucceeds(reply) ==> r.state == s.(isLoading := false)
    ensures reply.Threw? ==> r.result.error == Some(NETWORK_ERROR_MESSAGE)
    ensures reply.Returned? && !LoginSucceeds(reply) ==> r.result.error == Some(FailureMessage(reply.envelope))
  {
    match reply
    case Threw => LoginStep(s.(isLoading := false), LoginResult(false, Some(NETWORK_ERROR_MESSAGE)))
    case Returned(e) =>
      if e.success && e.data.Some? then
        LoginStep(Saved(s, e.data.value, stringify).(isLoading := false), LoginResult(true, None))
      else LoginStep(s.(isLoading := false), LoginResult(false, Some(FailureMessage(e))))
  }

  datatype LogoutStep = LogoutStep(state: AuthState, requested: Option<string>)

  /** `logout` (lines 162-175): the backend logout is started with the stored
      refresh token, if any, and not awaited; the state is cleared in every case. */
  function LogoutSpec(s: AuthState): (r: LogoutStep)
    ensures r.state == Cleared(s)
    ensures r.requested.Some? <==> REFRESH_TOKEN_KEY in s.storage && s.storage[REFRESH_TOKEN_KEY] != ""
    ensures r.requested.Some? ==> r.requested.value == s.storage[REFRESH_TOKEN_KEY]
  {
    LogoutStep(Cleared(s), Stored(s.storage, REFRESH_TOKEN_KEY))
  }

  /** After logging out, reloading the page stays signed out: nothing is left
      in storage for `loadAuthState` to restore. */
  lemma LogoutSurvivesReload(s: AuthState, parse: string -> ParsedUser)
    ensures var out := LogoutSpec(s).state;
            && LoadSpec(Initial(out.storage, out.cookie), parse) == Initial(out.storage, out.cookie).(isLoading := false)
            && !Authenticated(LoadSpec(Initial(out.storage, out.cookie), parse))
  {
  }

  /** A successful login survives a reload: when `JSON.parse` inverts
      `JSON.stringify` on the user (whose text, an object literal, is never
      empty) and the token is not empty, loading the
      saved storage on a fresh mount restores the same user and token, and
      sets the same cookie. */
  lemma {:induction false} LoginSurvivesReload(s: AuthState, reply: Reply<LoginData>,
                                               stringify: User -> string, parse: string -> ParsedUser)
    requires LoginSucceeds(reply)
    requires reply.envelope.data.value.accessToken != ""
    requires stringify(reply.envelope.data.value.user) != ""
    requires parse(stringify(reply.envelope.data.value.user)) == Parsed(Some(reply.envelope.data.value.user))
    ensures var saved := LoginSpec(s, reply, stringify).state;
            var reloaded := LoadSpec(Initial(saved.storage, None), parse);
            && reloaded.user == saved.user
            && reloaded.accessToken == saved.accessToken
            && reloaded.cookie == saved.cookie
            && Authenticated(reloaded)
  {
    var data := reply.envelope.data.value;
    var saved := LoginSpec(s, reply, stringify).state;
    assert saved.storage[USER_KEY] == stringify(data.user);
    assert Stored(saved.storage, TOKEN_KEY) == Some(data.accessToken);
    assert Stored(saved.storage, USER_KEY) == Some(stringify(data.user));
  }

  /** A refresh keeps the signed-in user and, given a non-empty new access
      token, the session: the store stays authenticated exactly when it was
      signed in with a user. A failed refresh always signs out. */
  lemma RefreshKeepsSession(s: AuthState, reply: Reply<RefreshData>)
    ensures var r := RefreshSpec(s, reply);
            && (r.refreshed && reply.envelope.data.value.tokens.value.accessToken != "" ==>
                  (Authenticated(r.state) <==> s.user.Some?))
            && (!r.refreshed ==> !Authenticated(r.state))
  {
  }

  /** The refresh handler the provider installs never rejects: it resolves on
      every path (a missing refresh token, a failed reply, a thrown error), so
      on the API client it always clears the `isRefreshing` flag again. Whether
      the provider's new token reaches the client before the retry depends on
      when React runs the synchronising effect, so it is left as a parameter. */
  function HandlerOutcomeOf(step: RefreshStep, installed: Option<Option<string>>): HandlerOutcome {
    Resolved(step.refreshed, installed)
  }

  /** Whatever the stored tokens and the reply, the provider's handler
      resolves, to `true` exactly when a refresh token was stored and the
      reply grants new tokens. */
  lemma ProviderHandlerResolves(s: AuthState, reply: Reply<RefreshData>, installed: Option<Option<string>>)
    ensures var h := HandlerOutcomeOf(RefreshSpec(s, reply), installed);
            && h.Resolved?
            && (h.refreshed <==> Stored(s.storage, REFRESH_TOKEN_KEY).Some? && GrantsTokens(reply))
            && h.installed == installed
  {
  }

  /** With the provider's handler installed, no request leaves the client's
      `isRefreshing` flag stuck: whatever each refresh does, the handler
      resolves, so the flag ends as it began. */
  lemma ProviderHandlerNeverSticks<T>(st: ClientState, url: string, options: RequestOptions, isRetry: bool,
                                      fetches: seq<FetchOutcome<T>>, steps: seq<RefreshStep>,
                                      installed: seq<Option<Option<string>>>)
    requires |installed| == |steps|
    requires Covers(isRetry, fetches, seq(|steps|, i requires 0 <= i < |steps| => HandlerOutcomeOf(steps[i], installed[i])))
    ensures var handlers := seq(|steps|, i requires 0 <= i < |steps| => HandlerOutcomeOf(steps[i], installed[i]));
            RunRequest(st, url, options, isRetry, fetches, handlers).state.isRefreshing == st.isRefreshing
  {
    var handlers := seq(|steps|, i requires 0 <= i < |steps| => HandlerOutcomeOf(steps[i], installed[i]));
    ApiClientProperties.FlagSettles(st, url, options, isRetry, fetches, handlers);
  }

  /** The store as a mutable object: React state and the browser's storage. */
  class AuthStore {
    var storage: map<string, string>
    var cookie: Option<string>
    var user: Option<User>
    var accessToken: Option<string>
    var isLoading: bool

    function State(): AuthState
      reads this
    {
      AuthState(storage, cookie, user, accessToken, isLoading)
    }

    /** The provider mounts with the browser's storage and cookie, and
        `useState` initial values (lines 32-34). */
    constructor (storage: map<string, string>, cookie: Option<string>)
      ensures State() == Initial(storage, cookie)
    {
      this.storage := storage;
      this.cookie := cookie;
      user := None;
      accessToken := None;
      isLoading := true;
    }

    function IsAuthenticated(): (b: bool)
      reads this
      ensures b <==> Authenticated(State())
    {
      user.Some? && accessToken.Some? && accessToken.value != ""
    }

    /** `clearAuthState` (lines 43-57), statement by statement. */
    method ClearAuthState()
      modifies this
      ensures State() == Cleared(old(State()))
    {
      storage := storage - {TOKEN_KEY};
      storage := storage - {REFRESH_TOKEN_KEY};
      storage := storage - {USER_KEY};
      cookie := None;
      accessToken := None;
      user := None;
      assert storage == old(storage) - {TOKEN_KEY, REFRESH_TOKEN_KEY, USER_KEY};
    }

    /** `refreshToken` (lines 59-88), given the reply the API would give. */
    method RefreshToken(reply: Reply<RefreshData>) returns (refreshed: bool, requested: Option<string>)
      modifies this
      ensures RefreshStep(State(), refreshed, requested) == RefreshSpec(old(State()), reply)
    {
      var stored := Stored(storage, REFRESH_TOKEN_KEY);
      if stored.None? {
        ClearAuthState();
        return false, None;
      }
      requested := stored;
      if reply.Returned? && reply.envelope.success && reply.envelope.data.Some? {
        var newTokens := reply.envelope.data.value.tokens;
        if newTokens.None? {
          // reading a property of the missing `tokens` throws; the catch clears the state
          ClearAuthState();
          return false, requested;
        }
        storage := storage[TOKEN_KEY := newTokens.value.accessToken];
        storage := storage[REFRESH_TOKEN_KEY := newTokens.value.refreshToken];
        accessToken := Some(newTokens.value.accessToken);
        return true, requested;
      }
      ClearAuthState();
      refreshed := false;
    }

    /** `loadAuthState` (lines 98-116), run once on mount. */
    method LoadAuthState(parse: string -> ParsedUser)
      modifies this
      ensures State() == LoadSpec(old(State()), parse)
    {
      var storedToken := Stored(storage, TOKEN_KEY);
      var storedUser := Stored(storage, USER_KEY);
      if storedToken.Some? && storedUser.Some? {
        accessToken := storedToken;
        var parsed := parse(storedUser.value);
        if parsed.Malformed? {
          ClearAuthState();
        } else {
          user := parsed.user;
          cookie := storedToken;
        }
      }
      isLoading := false;
    }

    /** `saveAuthState` (lines 121-135). */
    method SaveAuthState(data: LoginData, stringify: User -> string)
      modifies this
      ensures State() == Saved(old(State()), data, stringify)
    {
      storage := storage[TOKEN_KEY := data.accessToken];
      storage := storage[REFRESH_TOKEN_KEY := data.refreshToken];
      storage := storage[USER_KEY := stringify(data.user)];
      cookie := Some(data.accessToken);
      accessToken := Some(data.accessToken);
      user := Some(data.user);
    }

    /** `login` (lines 137-160), given the reply the API would give. */
    method Login(reply: Reply<LoginData>, stringify: User -> string) returns (result: LoginResult)
      modifies this
      ensures LoginStep(State(), result) == LoginSpec(old(State()), reply, stringify)
    {
      isLoading := true;
      if reply.Threw? {
        result := LoginResult(false, Some(NETWORK_ERROR_MESSAGE));
      } else if reply.envelope.success && reply.envelope.data.Some? {
        SaveAuthState(reply.envelope.data.value, stringify);
        result := LoginResult(true, None);
      } else {
        result := LoginResult(false, Some(FailureMessage(reply.envelope)));
      }
      isLoading := false;
    }

    /** `logout` (lines 162-175); `requested` is the refresh token handed to
        the backend logout that is started and not awaited. */
    method Logout() returns (requested: Option<string>)
      modifies this
      ensures LogoutStep(State(), requested) == LogoutSpec(old(State()))
    {
      requested := Stored(storage, REFRESH_TOKEN_KEY);
      ClearAuthState();
    }

    /** The effect at lines 39-41: the client's token follows the store's. */
    method SyncClient(client: Client)
      modifies client
      ensures client.State() == old(client.State()).(accessToken := accessToken)
      ensures client.sent == old(client.sent) && client.handlerCalls == old(client.handlerCalls)
    {
      client.SetAccessToken(accessToken);
    }

    /** The effect at lines 91-93: `refreshToken` becomes the client's handler. */
    method InstallHandler(client: Client)
      modifies client
      ensures client.State() == old(client.State()).(hasHandler := true)
      ensures client.sent == old(client.sent) && client.handlerCalls == old(client.handlerCalls)
    {
      client.SetAuthFailureHandler();
    }
  }
}
