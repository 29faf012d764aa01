/** The `user` slice of src/redux/slice/auth.slice.ts: the logged-in user's record
    and a Redux copy of the two tokens. The initial state is read from storage when
    the module loads; `JSON.parse` of the stored user is the parameter `parseUser`.
    The thunks' network calls are not part of this model; `getUser.fulfilled` is a
    reaction to its payload. */
module AuthSlice {
  import opened Common
  import opened Browser
  import opened Entities
  import opened AuthService

  const UserKey := "user"
  const GuestName := "Guest"

  /** The slice's fields, for stating what a reducer leaves alone. */
  datatype AuthFields = AuthFields(
    userData: Option<User>,
    accessToken: Option<string>,
    refreshToken: Option<string>,
    name: string,
    avatar: Option<string>)

  /** `localStorage.getItem(key) || null` */
  function StoredOrNull(store: map<string, string>, key: string): (r: Option<string>)
    ensures r.Some? <==> Truthy(Lookup(store, key))
    ensures r.Some? ==> r.value == store[key]
  {
    if Truthy(Lookup(store, key)) then Lookup(store, key) else None
  }

  /** The keys `logout` removes from storage. */
  function LoggedOutStore(store: map<string, string>): (r: map<string, string>)
    ensures UserKey !in r && AccessKey !in r && RefreshKey !in r
    ensures forall k :: k in store && k != UserKey && k != AccessKey && k != RefreshKey ==> k in r && r[k] == store[k]
    ensures forall k :: k in r ==> k in store
  {
    WithoutTokens(store) - {UserKey}
  }

  /** After a logout the credential store holds neither token, so the route guard
      and the request interceptor find no access token. */
  lemma LogoutClearsCredentials(store: map<string, string>)
    ensures Lookup(LoggedOutStore(store), AccessKey) == None
    ensures Lookup(LoggedOutStore(store), RefreshKey) == None
    ensures LoggedOutStore(store) == WithoutTokens(store) - {UserKey}
  {
  }

  /** A second logout finds nothing left to remove. */
  lemma LogoutStoreIdempotent(store: map<string, string>)
    ensures LoggedOutStore(LoggedOutStore(store)) == LoggedOutStore(store)
  {
  }

  /** Removing the user and then the two tokens leaves the logged-out store. */
  lemma RemovalsInAnyOrder(store: map<string, string>)
    ensures store - {UserKey} - {AccessKey} - {RefreshKey} == LoggedOutStore(store)
  {
  }

  class AuthState {
    const storage: LocalStorage
    var userData: Option<User>
    var accessToken: Option<string>
    var refreshToken: Option<string>
    var name: string
    var avatar: Option<string>

    function Fields(): AuthFields
      reads this
    {
      AuthFields(userData, accessToken, refreshToken, name, avatar)
    }

    /** `initialState`: the stored user (parsed) or null, the stored tokens with an
        empty value read as null, name "Guest" and no avatar. */
    constructor (storage: LocalStorage, parseUser: string -> Option<User>)
      ensures this.storage == storage
      ensures userData == (if UserKey in storage.items then parseUser(storage.items[UserKey]) else None)
      ensures accessToken == StoredOrNull(storage.items, AccessKey)
      ensures refreshToken == StoredOrNull(storage.items, RefreshKey)
      ensures name == GuestName && avatar == None
    {
      this.storage := storage;
      userData := if UserKey in storage.items then parseUser(storage.items[UserKey]) else None;
      accessToken := StoredOrNull(storage.items, AccessKey);
      refreshToken := StoredOrNull(storage.items, RefreshKey);
      name := GuestName;
      avatar := None;
    }

    /** `setUserData`: replaces only `userData`. */
    method SetUserData(payload: Option<User>)
      modifies this
      ensures Fields() == old(Fields()).(userData := payload)
    {
      userData := payload;
    }

    /** `setTokens`: copies both tokens of the payload into the state and writes no
        storage. */
    method SetTokens(access: Option<string>, refresh: Option<string>)
      modifies this
      ensures Fields() == old(Fields()).(accessToken := access, refreshToken := refresh)
    {
      accessToken := access;
      refreshToken := refresh;
    }

    /** `logout`: the user and both tokens become null, `name` and `avatar` stay, and
        the three storage keys are removed. */
    method Logout()
      modifies this, storage
      ensures Fields() == old(Fields()).(userData := None, accessToken := None, refreshToken := None)
      ensures storage.items == LoggedOutStore(old(storage.items))
    {
      userData := None;
      accessToken := None;
      refreshToken := None;
      storage.RemoveItem(UserKey);
      storage.RemoveItem(AccessKey);
      storage.RemoveItem(RefreshKey);
      RemovalsInAnyOrder(old(storage.items));
    }

    /** `getUser.fulfilled`: replaces only `userData`. */
    method GetUserFulfilled(payload: Option<User>)
      modifies this
      ensures Fields() == old(Fields()).(userData := payload)
    {
      userData := payload;
    }
  }

  /** Logging out twice leaves the slice and the storage as one logout does. */
  method LogoutTwice(s: AuthState) returns (afterFirst: AuthFields, storeAfterFirst: map<string, string>)
    modifies s, s.storage
    ensures s.Fields() == afterFirst && s.storage.items == storeAfterFirst
    ensures afterFirst == old(s.Fields()).(userData := None, accessToken := None, refreshToken := None)
  {
    s.Logout();
    afterFirst := s.Fields();
    storeAfterFirst := s.storage.items;
    LogoutStoreIdempotent(old(s.storage.items));
    s.Logout();
  }
}
