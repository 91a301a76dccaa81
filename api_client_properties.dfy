/** What one call of the API client's `request` guarantees, stated over its
    specification `RunRequest`: the call bounds, when the handler is and is
    not called, what the retry sends, how the `isRefreshing` flag settles, and
    that every outcome is an envelope. */
module ApiClientProperties {
  import opened Wrappers
  import opened ApiClient

  /** A retry makes exactly one transport call, never calls the handler and
      leaves the client's state as it found it. */
  lemma RetryNeverRefreshes<T>(st: ClientState, url: string, options: RequestOptions,
                               fetches: seq<FetchOutcome<T>>, handlers: seq<HandlerOutcome>)
    requires |fetches| >= 1
    ensures var run := RunRequest(st, url, options, true, fetches, handlers);
            && |run.sent| == 1
            && run.handlerCalls == 0
            && run.state == st
  {
  }

  /** A top-level call makes at most two transport calls and at most two
      handler calls; a second transport call is always preceded by a handler call. */
  lemma {:induction false} CallBounds<T>(st: ClientState, url: string, options: RequestOptions,
                                         fetches: seq<FetchOutcome<T>>, handlers: seq<HandlerOutcome>)
    requires Covers(false, fetches, handlers)
    ensures var run := RunRequest(st, url, options, false, fetches, handlers);
            && 1 <= |run.sent| <= 2
            && run.handlerCalls <= 2
            && (|run.sent| == 2 ==> run.handlerCalls >= 1)
  {
    if fetches[0].Responded? {
      RespondedRun(st, url, options, false, fetches, handlers);
      var st1 := AfterRefresh(st, if handlers[0].Resolved? then handlers[0].installed else None);
      var st2 := AfterRefresh(st1, if handlers[1].Resolved? then handlers[1].installed else None);
      RetryNeverRefreshes(st1, url, options, fetches[1..], handlers[1..]);
      RetryNeverRefreshes(st2, url, options, fetches[1..], handlers[2..]);
    }
  }

  /** Every transport call carries the headers built from the token the client
      held at that moment: the first from the initial token, the retry from the
      token after the handler resolved. */
  lemma RetryCarriesRefreshedToken<T>(st: ClientState, url: string, options: RequestOptions,
                                      fetches: seq<FetchOutcome<T>>, handlers: seq<HandlerOutcome>)
    requires Covers(false, fetches, handlers)
    requires st.hasHandler && !st.isRefreshing
    requires fetches[0].Responded? && fetches[0].status == 401
    requires handlers[0].Resolved? && handlers[0].refreshed
    ensures var run := RunRequest(st, url, options, false, fetches, handlers);
            var st1 := AfterRefresh(st, handlers[0].installed);
            && run == Retried(run.sent[0], RunRequest(st1, url, options, true, fetches[1..], handlers[1..]), 1)
            && |run.sent| == 2
            && run.handlerCalls == 1
            && run.sent[0].config.headers == RequestHeaders(st.accessToken, options)
            && run.sent[1].config.headers == RequestHeaders(st1.accessToken, options)
            && (handlers[0].installed.Some? && HasToken(handlers[0].installed.value) ==>
                  run.sent[1].config.headers[AUTHORIZATION] == "Bearer " + handlers[0].installed.value.value)
  {
  }

  /** With no handler installed, an auth failure on a first attempt (a 401, or
      an INVALID_TOKEN body) returns AUTH_FAILURE_HANDLER_NOT_SET after the one
      transport call. */
  lemma NoHandlerShortCircuits<T>(st: ClientState, url: string, options: RequestOptions,
                                  fetches: seq<FetchOutcome<T>>, handlers: seq<HandlerOutcome>)
    requires Covers(false, fetches, handlers)
    requires !st.hasHandler
    requires fetches[0].Responded?
    requires fetches[0].status == 401 || (fetches[0].body.Json? && IsInvalidToken(fetches[0].body.envelope))
    ensures var run := RunRequest(st, url, options, false, fetches, handlers);
            && run.result == HandlerNotSet()
            && |run.sent| == 1
            && run.handlerCalls == 0
            && run.state == st
  {
  }

  /** While a refresh is under way (the handler's own /auth/refresh call, or a
      bystander), an auth failure does not call the handler: the call makes one
      transport call, leaves the state alone and returns the parsed body as it is
      (or the error envelope for a transport or parse failure, or for a missing handler). */
  lemma BystanderPassesThrough<T>(st: ClientState, url: string, options: RequestOptions, isRetry: bool,
                                  fetches: seq<FetchOutcome<T>>, handlers: seq<HandlerOutcome>)
    requires Covers(isRetry, fetches, handlers)
    requires st.isRefreshing
    ensures var run := RunRequest(st, url, options, isRetry, fetches, handlers);
            && run.handlerCalls == 0
            && |run.sent| == 1
            && run.state == st
            && run.result ==
               match fetches[0]
               case FetchThrows => NetworkError()
               case Responded(status, body) =>
                 if status == 401 && !isRetry && !st.hasHandler then HandlerNotSet()
                 else match body
                      case NotJson => NetworkError()
                      case Json(env) => if IsInvalidToken(env) && !isRetry && !st.hasHandler then HandlerNotSet() else env
  {
    if fetches[0].Responded? {
      RespondedRun(st, url, options, isRetry, fetches, handlers);
    }
  }

  /** A 401 whose refresh fails, and whose body then says INVALID_TOKEN, calls
      the handler a second time. */
  lemma FailedRefreshThenInvalidTokenCallsAgain<T>(st: ClientState, url: string, options: RequestOptions,
                                                   fetches: seq<FetchOutcome<T>>, handlers: seq<HandlerOutcome>)
    requires Covers(false, fetches, handlers)
    requires st.hasHandler && !st.isRefreshing
    requires fetches[0].Responded? && fetches[0].status == 401
    requires fetches[0].body.Json? && IsInvalidToken(fetches[0].body.envelope)
    requires handlers[0].Resolved? && !handlers[0].refreshed
    ensures RunRequest(st, url, options, false, fetches, handlers).handlerCalls == 2
  {
    var st1 := AfterRefresh(st, handlers[0].installed);
    if handlers[1].Resolved? && handlers[1].refreshed {
      RetryNeverRefreshes(AfterRefresh(st1, handlers[1].installed), url, options, fetches[1..], handlers[2..]);
    }
  }

  /** A handler that rejects, called for a 401 or for an `INVALID_TOKEN`
      body, makes the call return NETWORK_ERROR and leaves `isRefreshing` set; every later call from that state then passes auth
      failures through without calling the handler. */
  lemma RejectionLeavesFlagSet<T, U>(st: ClientState, url: string, options: RequestOptions,
                                     fetches: seq<FetchOutcome<T>>, handlers: seq<HandlerOutcome>,
                                     url2: string, options2: RequestOptions, isRetry2: bool,
                                     fetches2: seq<FetchOutcome<U>>, handlers2: seq<HandlerOutcome>)
    requires Covers(false, fetches, handlers)
    requires st.hasHandler && !st.isRefreshing
    requires fetches[0].Responded?
    requires fetches[0].status == 401 || (fetches[0].body.Json? && IsInvalidToken(fetches[0].body.envelope))
    requires handlers[0].Rejected?
    requires Covers(isRetry2, fetches2, handlers2)
    ensures var run := RunRequest(st, url, options, false, fetches, handlers);
            && run.result == NetworkError()
            && run.state.isRefreshing
            && RunRequest(run.state, url2, options2, isRetry2, fetches2, handlers2).handlerCalls == 0
  {
    RespondedRun(st, url, options, false, fetches, handlers);
    var run := RunRequest(st, url, options, false, fetches, handlers);
    BystanderPassesThrough(run.state, url2, options2, isRetry2, fetches2, handlers2);
  }

  /** When no handler call rejects, the flag ends as it started: a call that
      begins with `isRefreshing` false ends with it false. The handler setting
      never changes, and when no handler installs a token the token does not
      change either. */
  lemma {:induction false} FlagSettles<T>(st: ClientState, url: string, options: RequestOptions, isRetry: bool,
                                          fetches: seq<FetchOutcome<T>>, handlers: seq<HandlerOutcome>)
    requires Covers(isRetry, fetches, handlers)
    requires forall i | 0 <= i < |handlers| :: handlers[i].Resolved?
    ensures var run := RunRequest(st, url, options, isRetry, fetches, handlers);
            && run.state.isRefreshing == st.isRefreshing
            && run.state.hasHandler == st.hasHandler
            && ((forall i | 0 <= i < |handlers| :: handlers[i].installed == None) ==>
                  run.state.accessToken == st.accessToken)
  {
    if !isRetry && fetches[0].Responded? {
      RespondedRun(st, url, options, isRetry, fetches, handlers);
      var st1 := AfterRefresh(st, handlers[0].installed);
      var st2 := AfterRefresh(st1, handlers[1].installed);
      RetryNeverRefreshes(st1, url, options, fetches[1..], handlers[1..]);
      RetryNeverRefreshes(st2, url, options, fetches[1..], handlers[2..]);
    } else if isRetry {
      RetryNeverRefreshes(st, url, options, fetches, handlers);
    }
  }

  /** Nothing raised inside the `try` escapes: the result is the NETWORK_ERROR
      envelope, the AUTH_FAILURE_HANDLER_NOT_SET envelope, or the parsed body
      of one of the transport calls made. Headers are assumed valid, so the
      model has no exception before the `try`. */
  lemma {:induction false} ResultIsAnEnvelope<T>(st: ClientState, url: string, options: RequestOptions, isRetry: bool,
                                                 fetches: seq<FetchOutcome<T>>, handlers: seq<HandlerOutcome>)
    requires Covers(isRetry, fetches, handlers)
    ensures var run := RunRequest(st, url, options, isRetry, fetches, handlers);
            || run.result == NetworkError()
            || run.result == HandlerNotSet()
            || exists i | 0 <= i < |run.sent| && i < |fetches| :: fetches[i].Responded? && fetches[i].body == Json(run.result)
  {
    var run := RunRequest(st, url, options, isRetry, fetches, handlers);
    if run.result != NetworkError() && run.result != HandlerNotSet() {
      RespondedRun(st, url, options, isRetry, fetches, handlers);
      if !(fetches[0].body == Json(run.result)) {
        // the result is the retry's
        var st1 := AfterRefresh(st, if handlers[0].Resolved? then handlers[0].installed else None);
        var st2 := AfterRefresh(st1, if |handlers| > 1 && handlers[1].Resolved? then handlers[1].installed else None);
        assert !isRetry;
        assert fetches[1].Responded? && fetches[1].body == Json(run.result);
      }
    }
  }
}
