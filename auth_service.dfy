/** The credential store of src/services/auth.service.ts: the access and refresh
    tokens kept in `localStorage` under the keys "access" and "refresh". The
    request helpers of the same object (login, refresh, activate, ...) are network
    calls and appear elsewhere only as outcomes. */
module AuthService {
  import opened Common
  import opened Browser

  const AccessKey := "access"
  const RefreshKey := "refresh"

  /** Storage contents after `setTokens(access, refresh)`. */
  function WithTokens(m: map<string, string>, access: string, refresh: string): map<string, string>
  {
    m[AccessKey := access][RefreshKey := refresh]
  }

  /** Storage contents after `deleteToken()`. */
  function WithoutTokens(m: map<string, string>): map<string, string>
  {
    m - {AccessKey, RefreshKey}
  }

  /** `setTokens`: two `setItem` calls. */
  method SetTokens(storage: LocalStorage, access: string, refresh: string)
    modifies storage
    ensures storage.items == WithTokens(old(storage.items), access, refresh)
  {
    storage.SetItem(AccessKey, access);
    storage.SetItem(RefreshKey, refresh);
  }

  /** `deleteToken`: two `removeItem` calls. */
  method DeleteToken(storage: LocalStorage)
    modifies storage
    ensures storage.items == WithoutTokens(old(storage.items))
  {
    storage.RemoveItem(AccessKey);
    storage.RemoveItem(RefreshKey);
  }

  /** `getAccessToken()`: the item stored under "access", null when there is none. */
  function GetAccessToken(storage: LocalStorage): (r: Option<string>)
    reads storage
    ensures r == storage.GetItem(AccessKey)
    ensures r.Some? <==> AccessKey in storage.items
    ensures r.Some? ==> r.value == storage.items[AccessKey]
  {
    Lookup(storage.items, AccessKey)
  }

  /** `getRefreshToken()`: the item stored under "refresh", null when there is none. */
  function GetRefreshToken(storage: LocalStorage): (r: Option<string>)
    reads storage
    ensures r == storage.GetItem(RefreshKey)
    ensures r.Some? <==> RefreshKey in storage.items
    ensures r.Some? ==> r.value == storage.items[RefreshKey]
  {
    Lookup(storage.items, RefreshKey)
  }

  /** After `setTokens(a, r)` the getters return `a` and `r`. */
  lemma GettersAfterSet(m: map<string, string>, a: string, r: string)
    ensures Lookup(WithTokens(m, a, r), AccessKey) == Some(a)
    ensures Lookup(WithTokens(m, a, r), RefreshKey) == Some(r)
  {
  }

  /** After `deleteToken()` both getters return null. */
  lemma GettersAfterDelete(m: map<string, string>)
    ensures Lookup(WithoutTokens(m), AccessKey) == None
    ensures Lookup(WithoutTokens(m), RefreshKey) == None
  {
  }

  /** Both operations touch only the two token keys. */
  lemma OtherKeysUntouched(m: map<string, string>, a: string, r: string, k: string)
    requires k != AccessKey && k != RefreshKey
    ensures Lookup(WithTokens(m, a, r), k) == Lookup(m, k)
    ensures Lookup(WithoutTokens(m), k) == Lookup(m, k)
  {
  }

  /** `deleteToken` is idempotent. */
  lemma DeleteIdempotent(m: map<string, string>)
    ensures WithoutTokens(WithoutTokens(m)) == WithoutTokens(m)
  {
  }

  /** A second `setTokens` overwrites both values of the first. */
  lemma SetOverwrites(m: map<string, string>, a1: string, r1: string, a2: string, r2: string)
    ensures WithTokens(WithTokens(m, a1, r1), a2, r2) == WithTokens(m, a2, r2)
  {
  }

  /** The store holds both tokens or neither. */
  predicate BothOrNeither(m: map<string, string>)
  {
    AccessKey in m <==> RefreshKey in m
  }

  /** A call of one of the two writers of the store. */
  datatype StoreCall = SetTokensCall(access: string, refresh: string) | DeleteTokenCall

  function ApplyCalls(m: map<string, string>, calls: seq<StoreCall>): map<string, string>
    decreases |calls|
  {
    if calls == [] then m
    else
      var next := match calls[0]
        case SetTokensCall(a, r) => WithTokens(m, a, r)
        case DeleteTokenCall => WithoutTokens(m);
      ApplyCalls(next, calls[1..])
  }

  /** Through any sequence of `setTokens` and `deleteToken` calls, a store that held
      both tokens or neither still does. */
  lemma {:induction false} CallsKeepBothOrNeither(m: map<string, string>, calls: seq<StoreCall>)
    requires BothOrNeither(m)
    ensures BothOrNeither(ApplyCalls(m, calls))
    decreases |calls|
  {
    if calls != [] {
      var next := match calls[0]
        case SetTokensCall(a, r) => WithTokens(m, a, r)
        case DeleteTokenCall => WithoutTokens(m);
      CallsKeepBothOrNeither(next, calls[1..]);
    }
  }

  /** Through any sequence of calls, the last call decides the token pair: after a
      final `setTokens(a, r)` the store holds exactly `a` and `r`, after a final
      `deleteToken` it holds neither. */
  lemma {:induction false} LastCallDecides(m: map<string, string>, calls: seq<StoreCall>)
    requires calls != []
    ensures var m' := ApplyCalls(m, calls);
      match calls[|calls| - 1]
      case SetTokensCall(a, r) => Lookup(m', AccessKey) == Some(a) && Lookup(m', RefreshKey) == Some(r)
      case DeleteTokenCall => AccessKey !in m' && RefreshKey !in m'
    decreases |calls|
  {
    var next := match calls[0]
      case SetTokensCall(a, r) => WithTokens(m, a, r)
      case DeleteTokenCall => WithoutTokens(m);
    if |calls| > 1 {
      assert calls[1..][|calls[1..]| - 1] == calls[|calls| - 1];
      LastCallDecides(next, calls[1..]);
    }
  }
}
