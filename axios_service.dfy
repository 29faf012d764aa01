/** The two interceptors of the shared HTTP client in src/services/axios.service.ts.
    The request interceptor attaches the stored access token as a bearer credential
    (section 2.1 of RFC 6750). The response interceptor runs a small recovery state
    machine on a 401: it is driven by the module flag `isRefreshing` and the per-request
    mark `_retry`, asks the registered session prompt for a new token, and either
    resends the request or deletes the tokens and redirects to the login page.

    The prompt's outcome is a parameter. The `await` splits the rejected-response
    handler into two steps, `BeginRecovery` and `FinishRecovery`, so a client can
    interleave other requests while a prompt is open. */
module AxiosService {
  import opened Common
  import opened Browser
  import opened AuthService

  const AuthorizationHeader := "Authorization"
  const BearerPrefix := "Bearer "
  const Unauthorized := 401
  const LoginPath := "/login"

  /** The header value `Bearer <token>`. */
  function BearerCredential(token: string): string
  {
    BearerPrefix + token
  }

  /** Reading a header back as a bearer credential: the token after the "Bearer "
      prefix, or None when the value has another scheme. */
  function BearerToken(value: string): (r: Option<string>)
    ensures r.Some? ==> value == BearerPrefix + r.value
  {
    if |value| >= |BearerPrefix| && value[..|BearerPrefix|] == BearerPrefix
    then Some(value[|BearerPrefix|..]) else None
  }

  /** The credential written by the interceptor reads back as the token it was made from. */
  lemma BearerRoundTrip(token: string)
    ensures BearerToken(BearerCredential(token)) == Some(token)
  {
    assert BearerCredential(token)[..|BearerPrefix|] == BearerPrefix;
    assert BearerCredential(token)[|BearerPrefix|..] == token;
  }

  /** The headers after `if (token && headers) headers.Authorization = "Bearer " + token`:
      a truthy token is attached when the config has a headers object, and in every
      other case the headers are left as they were. */
  function AttachToken(headers: Option<map<string, string>>, token: Option<string>): (r: Option<map<string, string>>)
    ensures r.Some? <==> headers.Some?
    ensures Truthy(token) && headers.Some? ==>
      Lookup(r.value, AuthorizationHeader) == Some(BearerCredential(token.value)) &&
      forall name :: name != AuthorizationHeader ==> Lookup(r.value, name) == Lookup(headers.value, name)
    ensures !Truthy(token) ==> r == headers
  {
    if Truthy(token) && headers.Some? then Some(headers.value[AuthorizationHeader := BearerCredential(token.value)])
    else headers
  }

  /** A request sent with a truthy token carries exactly that token as its bearer
      credential, whatever Authorization value it had before. */
  lemma AttachedTokenReadsBack(headers: map<string, string>, token: string)
    requires token != ""
    ensures var r := AttachToken(Some(headers), Some(token));
      r.Some? && AuthorizationHeader in r.value && BearerToken(r.value[AuthorizationHeader]) == Some(token)
  {
    BearerRoundTrip(token);
  }

  /** The request config as the interceptors see it: its headers object (absent when
      the config has none) and the `_retry` mark. */
  datatype Config = Config(headers: Option<map<string, string>>, retry: bool)

  /** The module-level state the response interceptor reads and writes: the token
      store, `isRefreshing`, whether a prompt handler is registered, and the last
      address assigned to `window.location.href` (None before any redirect). */
  datatype ClientState = ClientState(
    store: map<string, string>,
    isRefreshing: bool,
    handlerRegistered: bool,
    location: Option<string>)

  /** What the registered prompt's promise does: resolve with a token or null, or throw. */
  datatype PromptOutcome = Resolved(token: Option<string>) | Threw

  /** How the rejected-response handler's promise settles: with the resent request's
      result, or rejected with the original error. */
  datatype Settlement = Resend | Reject

  /** The condition of lines 33-39 under which recovery is attempted. */
  predicate Recovers(st: ClientState, cfg: Config, status: Option<int>)
    ensures Recovers(st, cfg, status) ==> status == Some(Unauthorized) && !cfg.retry && !st.isRefreshing
    ensures Recovers(st, cfg, status) ==> RefreshKey in st.store && st.store[RefreshKey] != "" && st.handlerRegistered
  {
    status == Some(Unauthorized) && Truthy(Lookup(st.store, RefreshKey)) &&
    !st.isRefreshing && st.handlerRegistered && !cfg.retry
  }

  /** Whether the prompt's outcome lets the request be resent. */
  predicate Resends(cfg: Config, outcome: PromptOutcome)
  {
    outcome.Resolved? && Truthy(outcome.token) && cfg.headers.Some?
  }

  /** State after the code following the `await`, including the `finally`. */
  function FinishState(st: ClientState, cfg: Config, outcome: PromptOutcome): ClientState
  {
    if Resends(cfg, outcome) then st.(isRefreshing := false)
    else st.(store := WithoutTokens(st.store), location := Some(LoginPath), isRefreshing := false)
  }

  /** Config after the code following the `await`. */
  function FinishConfig(cfg: Config, outcome: PromptOutcome): Config
  {
    if Resends(cfg, outcome) then cfg.(headers := AttachToken(cfg.headers, outcome.token)) else cfg
  }

  function Settle(cfg: Config, outcome: PromptOutcome): Settlement
  {
    if Resends(cfg, outcome) then Resend else Reject
  }

  /** Everything one run of the rejected-response handler leaves behind. */
  datatype Handled = Handled(st: ClientState, cfg: Config, settlement: Settlement)

  /** One run of the rejected-response handler, with the prompt answering `outcome`. */
  function HandleError(st: ClientState, cfg: Config, status: Option<int>, outcome: PromptOutcome): (h: Handled)
    // Without recovery the original error is rejected and nothing changes.
    ensures !Recovers(st, cfg, status) ==> h == Handled(st, cfg, Reject)
    // A request that went through recovery keeps its mark, and the flag is down again.
    ensures Recovers(st, cfg, status) ==> h.cfg.retry && !h.st.isRefreshing
    ensures h.settlement == Resend <==> Recovers(st, cfg, status) && Resends(cfg, outcome)
    // A resend carries the prompt's token and leaves the store alone.
    ensures h.settlement == Resend ==>
      h.cfg.headers.Some? && Lookup(h.cfg.headers.value, AuthorizationHeader) == Some(BearerCredential(outcome.token.value)) &&
      h.st.store == st.store && h.st.location == st.location
    // A failed recovery logs the user out.
    ensures Recovers(st, cfg, status) && h.settlement == Reject ==>
      h.st.store == WithoutTokens(st.store) && h.st.location == Some(LoginPath) && h.cfg.headers == cfg.headers
    ensures h.st.handlerRegistered == st.handlerRegistered
  {
    if Recovers(st, cfg, status) then
      var marked := cfg.(retry := true);
      Handled(FinishState(st.(isRefreshing := true), marked, outcome), FinishConfig(marked, outcome), Settle(marked, outcome))
    else Handled(st, cfg, Reject)
  }

  /** While a prompt is open every error is rejected untouched, whatever its status;
      this includes a 401 from the refresh call itself. */
  lemma RejectedWhileRefreshing(st: ClientState, cfg: Config, status: Option<int>, outcome: PromptOutcome)
    requires st.isRefreshing
    ensures HandleError(st, cfg, status, outcome) == Handled(st, cfg, Reject)
  {
  }

  /** A resent request is never resent again, whatever its next failure. */
  lemma ResentRequestNotRetried(st: ClientState, cfg: Config, status: Option<int>, outcome: PromptOutcome,
                                st2: ClientState, status2: Option<int>, outcome2: PromptOutcome)
    requires HandleError(st, cfg, status, outcome).settlement == Resend
    ensures var h := HandleError(st, cfg, status, outcome);
      HandleError(st2, h.cfg, status2, outcome2) == Handled(st2, h.cfg, Reject)
  {
  }

  /** One failure of a request together with what the prompt would answer. */
  datatype Failure = Failure(status: Option<int>, outcome: PromptOutcome)

  /** The settlements of a request that fails again after each resend, the handler
      running once per failure. */
  function Replay(st: ClientState, cfg: Config, failures: seq<Failure>): (r: seq<Settlement>)
    ensures |r| == |failures|
    decreases |failures|
  {
    if failures == [] then []
    else
      var h := HandleError(st, cfg, failures[0].status, failures[0].outcome);
      [h.settlement] + Replay(h.st, h.cfg, failures[1..])
  }

  function CountResends(ss: seq<Settlement>): nat
  {
    if ss == [] then 0 else (if ss[0] == Resend then 1 else 0) + CountResends(ss[1..])
  }

  /** However often a request fails, it is resent at most once, and never when it
      already carries the `_retry` mark. */
  lemma {:induction false} ResentAtMostOnce(st: ClientState, cfg: Config, failures: seq<Failure>)
    ensures CountResends(Replay(st, cfg, failures)) <= (if cfg.retry then 0 else 1)
    decreases |failures|
  {
    if failures != [] {
      var h := HandleError(st, cfg, failures[0].status, failures[0].outcome);
      ResentAtMostOnce(h.st, h.cfg, failures[1..]);
    }
  }

  /** The flag is never left up: when no prompt was open before, none is open after
      any number of handler runs. */
  lemma {:induction false} FlagNeverStuck(st: ClientState, cfg: Config, failures: seq<Failure>)
    requires !st.isRefreshing
    ensures !ReplayState(st, cfg, failures).isRefreshing
    decreases |failures|
  {
    if failures != [] {
      var h := HandleError(st, cfg, failures[0].status, failures[0].outcome);
      FlagNeverStuck(h.st, h.cfg, failures[1..]);
    }
  }

  /** The client state after `Replay`. */
  function ReplayState(st: ClientState, cfg: Config, failures: seq<Failure>): ClientState
    decreases |failures|
  {
    if failures == [] then st
    else
      var h := HandleError(st, cfg, failures[0].status, failures[0].outcome);
      ReplayState(h.st, h.cfg, failures[1..])
  }

  /** An axios request config object, mutated in place by both interceptors. */
  class RequestConfig {
    var headers: Option<map<string, string>>
    var retry: bool

    constructor (headers: Option<map<string, string>>)
      ensures Value() == Config(headers, false)
    {
      this.headers := headers;
      retry := false;
    }

    function Value(): Config
      reads this
    {
      Config(headers, retry)
    }
  }

  /** The interceptors with the module-level variables they share. */
  class Interceptors {
    const storage: LocalStorage
    var isRefreshing: bool
    var handlerRegistered: bool
    var location: Option<string>

    function State(): ClientState
      reads this, storage
    {
      ClientState(storage.items, isRefreshing, handlerRegistered, location)
    }

    /** Module load: no prompt open, no handler registered. */
    constructor (storage: LocalStorage)
      ensures this.storage == storage
      ensures State() == ClientState(storage.items, false, false, None)
    {
      this.storage := storage;
      isRefreshing := false;
      handlerRegistered := false;
      location := None;
    }

    /** `setSessionModalHandler`: registering a handler changes nothing else. */
    method SetSessionModalHandler()
      modifies this
      ensures State() == old(State()).(handlerRegistered := true)
    {
      handlerRegistered := true;
    }

    /** The request interceptor. The token's expiry is not looked at, and the store
        is only read. */
    method OnRequest(config: RequestConfig)
      modifies config
      ensures config.Value() == old(config.Value()).(headers := AttachToken(old(config.headers), GetAccessToken(storage)))
    {
      var token := GetAccessToken(storage);
      if Truthy(token) && config.headers.Some? {
        config.headers := Some(config.headers.value[AuthorizationHeader := BearerCredential(token.value)]);
      }
    }

    /** The fulfilled-response interceptor: the response goes through as it came. */
    method OnFulfilled<R>(response: R) returns (r: R)
      ensures r == response
    {
      r := response;
    }

    /** The rejected-response handler up to its `await`: test the guard and, when it
        holds, raise the flag and mark the request before the prompt opens. */
    method BeginRecovery(config: RequestConfig, status: Option<int>) returns (prompting: bool)
      modifies this, config
      ensures prompting == Recovers(old(State()), old(config.Value()), status)
      ensures State() == (if prompting then old(State()).(isRefreshing := true) else old(State()))
      ensures config.Value() == (if prompting then old(config.Value()).(retry := true) else old(config.Value()))
    {
      var refreshToken := GetRefreshToken(storage);
      prompting := status == Some(Unauthorized) && Truthy(refreshToken) && !isRefreshing &&
        handlerRegistered && !config.retry;
      if prompting {
        isRefreshing := true;
        config.retry := true;
      }
    }

    /** The rest of the handler once the prompt has answered `outcome`: resend with
        the new token, or delete the tokens and redirect; the `finally` lowers the flag
        on every path. */
    method FinishRecovery(config: RequestConfig, outcome: PromptOutcome) returns (s: Settlement)
      modifies this, config, storage
      ensures State() == FinishState(old(State()), old(config.Value()), outcome)
      ensures config.Value() == FinishConfig(old(config.Value()), outcome)
      ensures s == Settle(old(config.Value()), outcome)
    {
      if outcome.Resolved? && Truthy(outcome.token) && config.headers.Some? {
        config.headers := Some(config.headers.value[AuthorizationHeader := BearerCredential(outcome.token.value)]);
        s := Resend;
      } else {
        DeleteToken(storage);
        location := Some(LoginPath);
        s := Reject;
      }
      isRefreshing := false;
    }

    /** The whole rejected-response handler when nothing else runs while the prompt
        is open. */
    method OnRejected(config: RequestConfig, status: Option<int>, outcome: PromptOutcome) returns (s: Settlement)
      modifies this, config, storage
      ensures Handled(State(), config.Value(), s) == HandleError(old(State()), old(config.Value()), status, outcome)
    {
      var prompting := BeginRecovery(config, status);
      if prompting {
        s := FinishRecovery(config, outcome);
      } else {
        s := Reject;
      }
    }
  }

  /** Two requests fail with 401 one after the other while the first one's prompt is
      still open: the second is rejected at once and the prompt is asked only once. */
  method SecondUnauthorizedWhilePrompting(client: Interceptors, first: RequestConfig, second: RequestConfig)
      returns (firstPrompts: bool, secondPrompts: bool)
    requires first != second
    requires client.handlerRegistered && !client.isRefreshing
    requires Truthy(client.storage.GetItem(RefreshKey))
    requires !first.retry
    modifies client, first, second
    ensures firstPrompts && !secondPrompts
    ensures client.isRefreshing && first.retry && second.retry == old(second.retry)
  {
    firstPrompts := client.BeginRecovery(first, Some(Unauthorized));
    secondPrompts := client.BeginRecovery(second, Some(Unauthorized));
  }
}
