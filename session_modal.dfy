/** The session-expired dialog of src/components/SessionModal/SessionModal.tsx. The
    handler it registers with the HTTP client opens the dialog and returns a promise
    that stays pending until Extend or Logout resolves it. The refresh request is a
    parameter: its outcome is given, and the method reports which refresh token it
    would have been sent with. */
module SessionModal {
  import opened Common
  import opened Browser
  import opened AuthService
  import opened AxiosService

  /** The answer of the refresh endpoint: a new token pair, or any failure (which
      includes a 401 rejected by the interceptor while the prompt is open). */
  datatype RefreshOutcome = Refreshed(access: string, refresh: string) | RefreshFailed

  /** The promise returned by the handler. Resolving a promise that has already
      settled has no effect. */
  class PromptPromise {
    var settled: Option<Option<string>>

    constructor ()
      ensures settled == None
    {
      settled := None;
    }

    method Resolve(value: Option<string>)
      modifies this
      ensures settled == (if old(settled).None? then Some(value) else old(settled))
    {
      if settled.None? {
        settled := Some(value);
      }
    }
  }

  /** Settlement of `p` after `resolver?.(value)`; a missing resolver does nothing. */
  function AfterResolve(p: PromptPromise?, before: Option<Option<string>>, value: Option<string>): Option<Option<string>>
  {
    if p != null && before.None? then Some(value) else before
  }

  /** Whether Extend calls the refresh endpoint, and with which token. */
  function RefreshArgument(store: map<string, string>): (r: Option<string>)
    ensures r.Some? <==> Truthy(Lookup(store, RefreshKey))
    ensures r.Some? ==> r.value == store[RefreshKey]
  {
    var t := Lookup(store, RefreshKey);
    if Truthy(t) then t else None
  }

  /** The value Extend resolves the prompt with. */
  function ExtendAnswer(store: map<string, string>, outcome: RefreshOutcome): (r: Option<string>)
    ensures r.Some? <==> Truthy(Lookup(store, RefreshKey)) && outcome.Refreshed?
    ensures r.Some? ==> r.value == outcome.access
  {
    if Truthy(Lookup(store, RefreshKey)) && outcome.Refreshed? then Some(outcome.access) else None
  }

  /** The store after Extend: only a successful refresh writes it. */
  function ExtendStore(store: map<string, string>, outcome: RefreshOutcome): (r: map<string, string>)
    ensures ExtendAnswer(store, outcome).Some? ==> r == WithTokens(store, outcome.access, outcome.refresh)
    ensures ExtendAnswer(store, outcome).None? ==> r == store
  {
    if Truthy(Lookup(store, RefreshKey)) && outcome.Refreshed? then WithTokens(store, outcome.access, outcome.refresh)
    else store
  }

  /** After a successful Extend the prompt's answer is the stored access token, so the
      request resent with that answer and a fresh request made afterwards carry the
      same credential. */
  lemma ExtendAnswerIsStored(store: map<string, string>, outcome: RefreshOutcome)
    requires ExtendAnswer(store, outcome).Some?
    ensures Lookup(ExtendStore(store, outcome), AccessKey) == ExtendAnswer(store, outcome)
    ensures Lookup(ExtendStore(store, outcome), RefreshKey) == Some(outcome.refresh)
  {
  }

  /** A failed refresh, or a missing refresh token, leaves the stored tokens as they
      were: only Logout deletes them. */
  lemma ExtendNeverDeletes(store: map<string, string>, outcome: RefreshOutcome)
    ensures AccessKey in store ==> AccessKey in ExtendStore(store, outcome)
    ensures RefreshKey in store ==> RefreshKey in ExtendStore(store, outcome)
  {
  }

  class SessionModal {
    const storage: LocalStorage
    var open: bool
    var resolver: PromptPromise?

    constructor (storage: LocalStorage)
      ensures this.storage == storage && !open && resolver == null
    {
      this.storage := storage;
      open := false;
      resolver := null;
    }

    /** The handler registered with the HTTP client: a new pending promise whose
        resolver the dialog keeps, and the dialog opens. */
    method Prompt() returns (p: PromptPromise)
      modifies this
      ensures fresh(p) && p.settled == None
      ensures resolver == p && open
    {
      p := new PromptPromise();
      resolver := p;
      open := true;
    }

    /** `handleExtend`. Without a refresh token the prompt is answered null, no
        request is made and the dialog stays open. Otherwise the refresh is sent:
        on success both new tokens are stored, the prompt gets the new access token
        and the dialog closes; on failure the prompt gets null, the dialog closes and
        the stored tokens stay. */
    method HandleExtend(outcome: RefreshOutcome) returns (refreshCalledWith: Option<string>)
      modifies this, storage, resolver
      ensures refreshCalledWith == RefreshArgument(old(storage.items))
      ensures storage.items == ExtendStore(old(storage.items), outcome)
      ensures resolver == old(resolver)
      ensures resolver != null ==> resolver.settled == AfterResolve(resolver, old(resolver.settled), ExtendAnswer(old(storage.items), outcome))
      ensures open == (if refreshCalledWith.None? then old(open) else false)
    {
      var refreshToken := GetRefreshToken(storage);
      if !Truthy(refreshToken) {
        refreshCalledWith := None;
        if resolver != null {
          resolver.Resolve(None);
        }
        return;
      }
      refreshCalledWith := refreshToken;
      match outcome {
        case Refreshed(access, refresh) =>
          SetTokens(storage, access, refresh);
          if resolver != null {
            resolver.Resolve(Some(access));
          }
          open := false;
        case RefreshFailed =>
          if resolver != null {
            resolver.Resolve(None);
          }
          open := false;
      }
    }

    /** `handleLogout`, also run when the dialog is dismissed: delete both tokens,
        answer the prompt null and close. */
    method HandleLogout()
      modifies this, storage, resolver
      ensures storage.items == WithoutTokens(old(storage.items))
      ensures resolver == old(resolver) && !open
      ensures resolver != null ==> resolver.settled == AfterResolve(resolver, old(resolver.settled), None)
    {
      DeleteToken(storage);
      if resolver != null {
        resolver.Resolve(None);
      }
      open := false;
    }
  }

  /** A request fails with 401 while a refresh token is stored; the interceptor opens
      the dialog and the user presses Extend. A refresh that yields a non-empty access
      token ends in a resend carrying it; any other answer ends with both tokens
      deleted and a redirect to the login page. Either way the flag is down again.
      The resend goes through the request interceptor once more, which attaches the
      stored access token over the header the handler wrote; the two agree, because
      the token the dialog answers with is the one it stored. */
  method ExpiredSessionExtend(client: Interceptors, modal: SessionModal, config: RequestConfig, outcome: RefreshOutcome)
      returns (s: Settlement)
    requires client.storage == modal.storage
    requires client.handlerRegistered && !client.isRefreshing
    requires Truthy(client.storage.GetItem(RefreshKey))
    requires !config.retry && config.headers.Some?
    modifies client, modal, client.storage, config
    ensures s == Resend <==> outcome.Refreshed? && outcome.access != ""
    ensures s == Resend ==>
      config.headers.Some? && Lookup(config.headers.value, AuthorizationHeader) == Some(BearerCredential(outcome.access)) &&
      client.storage.items == WithTokens(old(client.storage.items), outcome.access, outcome.refresh)
    ensures s == Reject ==>
      client.location == Some(LoginPath) && AccessKey !in client.storage.items && RefreshKey !in client.storage.items
    ensures !client.isRefreshing && config.retry && !modal.open
  {
    var prompting := client.BeginRecovery(config, Some(Unauthorized));
    var p := modal.Prompt();
    var _ := modal.HandleExtend(outcome);
    var answer := if p.settled.Some? then p.settled.value else None;
    s := client.FinishRecovery(config, Resolved(answer));
    if s == Resend {
      client.OnRequest(config);
    }
  }
}
