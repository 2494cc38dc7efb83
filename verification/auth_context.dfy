/**
 * The session store (`AuthProvider`): a session value plus the browser's
 * key-value storage, hydrated once at start-up and then changed by
 * `login`, `logout` and `updateUser`.
 */
module AuthContext {
  import opened Wrappers
  import opened AuthTypes

  /** `STORAGE_KEYS.AUTH_TOKEN`; its text lives in the configuration module, only its distinctness matters. */
  const TokenKey: string := "auth_token"
  /** The storage key of the serialized user. */
  const UserKey: string := "user"

  type Storage = map<string, string>

  /**
   * What `JSON.parse(text) as User` yields: a syntax error (the `catch` branch),
   * or a value, where the text `"null"` gives `Json(None)`.
   */
  datatype JsonResult = Malformed | Json(value: Option<User>)

  /** `localStorage.getItem(key)` is truthy: present and not the empty string. */
  predicate Truthy(storage: Storage, key: string) {
    key in storage && storage[key] != ""
  }

  /** The state and the storage after the `useState` initializer has run. */
  datatype Hydration = Hydration(state: AuthState, storage: Storage)

  /** The `useState` initializer of `AuthProvider`. */
  function Hydrate(storage: Storage, parse: string -> JsonResult): (h: Hydration)
    // Hydration never leaves the session loading.
    ensures !h.state.isLoading
    // Authenticated exactly when a token and a user text are present and the text parses.
    ensures h.state.isAuthenticated
        <==> Truthy(storage, TokenKey) && Truthy(storage, UserKey) && parse(storage[UserKey]).Json?
    ensures h.state.isAuthenticated ==> h.state.user == parse(storage[UserKey]).value
    ensures !h.state.isAuthenticated ==> h.state == LoggedOut
    // Storage is cleared only when a present user text fails to parse; otherwise it is untouched.
    ensures h.storage == storage
        || (Truthy(storage, TokenKey) && Truthy(storage, UserKey) && parse(storage[UserKey]).Malformed?
            && h.storage == storage - {TokenKey, UserKey})
    ensures Truthy(storage, TokenKey) && Truthy(storage, UserKey) && parse(storage[UserKey]).Malformed?
        ==> TokenKey !in h.storage && UserKey !in h.storage
  {
    if Truthy(storage, TokenKey) && Truthy(storage, UserKey) then
      match parse(storage[UserKey])
      case Json(user) => Hydration(AuthState(user, true, false), storage)
      case Malformed => Hydration(LoggedOut, storage - {TokenKey, UserKey})
    else
      Hydration(LoggedOut, storage)
  }

  /** Hydrating the storage that a hydration left behind changes nothing more. */
  lemma HydrateIdempotent(storage: Storage, parse: string -> JsonResult)
    ensures var h := Hydrate(storage, parse);
            Hydrate(h.storage, parse) == h
  {
  }

  /**
   * `login` followed by a reload: when the serializer round-trips the user,
   * the next hydration restores exactly the session `login` set.
   */
  lemma LoginThenHydrate(storage: Storage, token: string, u: User,
                         parse: string -> JsonResult, serialize: User -> string)
    requires token != "" && serialize(u) != ""
    requires parse(serialize(u)) == Json(Some(u))
    ensures Hydrate(storage[TokenKey := token][UserKey := serialize(u)], parse).state
         == AuthState(Some(u), true, false)
  {
    var m := storage[TokenKey := token][UserKey := serialize(u)];
    assert m[TokenKey] == token;
  }

  /** `logout` followed by a reload: the next hydration is logged out and keeps the storage. */
  lemma LogoutThenHydrate(storage: Storage, parse: string -> JsonResult)
    ensures var m := storage - {TokenKey, UserKey};
            Hydrate(m, parse) == Hydration(LoggedOut, m)
  {
  }

  /**
   * The stored text `"null"`: the session is authenticated with no user,
   * breaking `Consistent`. The guards have to cope with this state.
   */
  lemma NullUserHydratesAuthenticated(storage: Storage, parse: string -> JsonResult)
    requires Truthy(storage, TokenKey) && Truthy(storage, UserKey)
    requires parse(storage[UserKey]) == Json(None)
    ensures var s := Hydrate(storage, parse).state;
            s.isAuthenticated && s.user == None && !Consistent(s)
  {
  }

  /** A hydration that yields a user yields a consistent session. */
  lemma HydrateWithUserConsistent(storage: Storage, parse: string -> JsonResult)
    requires Hydrate(storage, parse).state.user.Some?
    ensures Consistent(Hydrate(storage, parse).state)
  {
  }

  class AuthProvider {
    var state: AuthState
    var storage: Storage

    /** Mounting the provider: the state is the hydration of the storage. */
    constructor (storage0: Storage, parse: string -> JsonResult)
      ensures state == Hydrate(storage0, parse).state
      ensures storage == Hydrate(storage0, parse).storage
      ensures !state.isLoading
    {
      var h := Hydrate(storage0, parse);
      state := h.state;
      storage := h.storage;
    }

    /** `login(token, user)`: stores both keys and authenticates. */
    method Login(token: string, u: User, serialize: User -> string)
      modifies this
      ensures storage == old(storage)[TokenKey := token][UserKey := serialize(u)]
      ensures state == AuthState(Some(u), true, false)
      ensures Consistent(state) && !state.isLoading
    {
      storage := storage[TokenKey := token];
      storage := storage[UserKey := serialize(u)];
      state := AuthState(Some(u), true, false);
    }

    /** `logout()`: removes both keys and resets to the logged-out session. */
    method Logout()
      modifies this
      ensures storage == old(storage) - {TokenKey, UserKey}
      ensures TokenKey !in storage && UserKey !in storage
      ensures state == LoggedOut
      ensures Consistent(state) && !state.isLoading
    {
      storage := storage - {TokenKey};
      storage := storage - {UserKey};
      state := LoggedOut;
    }

    /**
     * `updateUser(user)`: rewrites only the user key and replaces only the
     * user. There is no authentication check: when logged out, the session
     * afterwards has a user but is still not authenticated.
     */
    method UpdateUser(u: User, serialize: User -> string)
      modifies this
      ensures storage == old(storage)[UserKey := serialize(u)]
      ensures state == old(state).(user := Some(u))
      ensures state.isAuthenticated == old(state.isAuthenticated)
      ensures state.isLoading == old(state.isLoading)
      ensures !old(state.isAuthenticated) ==> !Consistent(state)
    {
      storage := storage[UserKey := serialize(u)];
      state := state.(user := Some(u));
    }
  }
}
