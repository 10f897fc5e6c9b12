/**
 * The `useAuth` hook: a session record kept beside two storage-backed hooks, one for the token
 * and one for the user record, with initialisation, a mock login, logout and a user update.
 */
module UseAuth {
  import opened Wrappers
  import opened Web
  import opened JsString
  import opened LocalStorage

  datatype User = User(id: string, email: string, name: string, avatar: Option<string>, role: Option<string>)

  /** `Partial<User>`: a field that is `None` is absent; a present `avatar` or `role` may be `undefined`. */
  datatype UserPatch = UserPatch(
    id: Option<string>, email: Option<string>, name: Option<string>,
    avatar: Option<Option<string>>, role: Option<Option<string>>)

  const NoPatch := UserPatch(None, None, None, None, None)

  datatype AuthState = AuthState(user: Option<User>, token: Option<string>, isAuthenticated: bool, isLoading: bool)

  const InitialState := AuthState(None, None, false, true)
  const TokenPrefix := "mock-jwt-token-"

  /** The user a login with `email` produces. */
  function MockUser(email: string): User
  {
    User("1", email, "Usuario Demo", None, Some("user"))
  }

  /** `'mock-jwt-token-' + Date.now()`, the clock reading passed in. */
  function MockToken(now: nat): (r: string)
    ensures |r| > |TokenPrefix| && r[..|TokenPrefix|] == TokenPrefix
  {
    TokenPrefix + Decimal(now)
  }

  /** `{...user, ...patch}`: every field the patch carries replaces the user's, the others stay. */
  function Merge(user: User, patch: UserPatch): (r: User)
    ensures patch.id.None? ==> r.id == user.id
    ensures patch.id.Some? ==> r.id == patch.id.value
    ensures patch.email.None? ==> r.email == user.email
    ensures patch.email.Some? ==> r.email == patch.email.value
    ensures patch.name.None? ==> r.name == user.name
    ensures patch.name.Some? ==> r.name == patch.name.value
    ensures patch.avatar.None? ==> r.avatar == user.avatar
    ensures patch.avatar.Some? ==> r.avatar == patch.avatar.value
    ensures patch.role.None? ==> r.role == user.role
    ensures patch.role.Some? ==> r.role == patch.role.value
  {
    User(
      if patch.id.Some? then patch.id.value else user.id,
      if patch.email.Some? then patch.email.value else user.email,
      if patch.name.Some? then patch.name.value else user.name,
      if patch.avatar.Some? then patch.avatar.value else user.avatar,
      if patch.role.Some? then patch.role.value else user.role)
  }

  /** An empty patch changes nothing, and applying the same patch twice is applying it once. */
  lemma MergeLaws(user: User, patch: UserPatch)
    ensures Merge(user, NoPatch) == user
    ensures Merge(Merge(user, patch), patch) == Merge(user, patch)
  {
  }

  /** The session invariant: an authenticated state holds a user and a non-empty token. */
  predicate Consistent(s: AuthState)
  {
    s.isAuthenticated ==> s.user.Some? && s.token.Some? && s.token.value != ""
  }

  /** `isTokenValid`: a token is present and non-empty. */
  function TokenValid(s: AuthState): (r: bool)
    ensures Consistent(s) && s.isAuthenticated ==> r
    ensures r ==> s.token.Some?
  {
    s.token.Some? && s.token.value != ""
  }

  /** One instance of the hook. */
  class AuthHook {
    var authState: AuthState
    const tokenHook: LocalStorageHook<Option<string>>
    const userHook: LocalStorageHook<Option<User>>

    /** Both hooks are the hook's own, over the same storage, under their fixed keys. */
    ghost predicate Valid()
      reads this, tokenHook, userHook
    {
      && tokenHook.store == userHook.store && tokenHook.hasWindow == userHook.hasWindow
      && tokenHook.key == AuthTokenKey && userHook.key == UserDataKey
      && tokenHook.initialValue == None && userHook.initialValue == None
      && Consistent(authState)
    }

    /** The initial state, over the two storage hooks read at the same time. */
    constructor (tokenCodec: Codec<Option<string>>, userCodec: Codec<Option<User>>, hasWindow: bool, store: Storage)
      ensures Valid() && fresh(tokenHook) && fresh(userHook)
      ensures authState == InitialState
      ensures tokenHook.store == store && tokenHook.hasWindow == hasWindow && tokenHook.codec == tokenCodec
      ensures userHook.codec == userCodec
      ensures tokenHook.storedValue == ReadInitial(hasWindow, store.accessible, store.items, AuthTokenKey, None, tokenCodec)
      ensures userHook.storedValue == ReadInitial(hasWindow, store.accessible, store.items, UserDataKey, None, userCodec)
    {
      var t := UseAuthToken(tokenCodec, hasWindow, store);
      var u := UseUserData(userCodec, hasWindow, store);
      authState := InitialState;
      tokenHook := t;
      userHook := u;
    }

    /**
     * `initializeAuth`: with a non-empty stored token and a stored user the state becomes
     * authenticated with exactly those; otherwise only loading ends.
     */
    method Initialize()
      requires Valid()
      modifies this
      ensures Valid()
      ensures var token := tokenHook.storedValue;
              var user := userHook.storedValue;
              authState == if token.Some? && token.value != "" && user.Some?
                           then AuthState(user, token, true, false)
                           else old(authState).(isLoading := false)
    {
      var token := tokenHook.storedValue;
      var user := userHook.storedValue;
      if token.Some? && token.value != "" && user.Some? {
        authState := AuthState(user, token, true, false);
      } else {
        authState := authState.(isLoading := false);
      }
    }

    /**
     * `login(email)` at clock reading `now`: the mock token and user go to both storage hooks and
     * the state becomes authenticated with them, loading ended. Storage failures are swallowed by
     * the hooks, so the login always succeeds.
     */
    method Login(email: string, now: nat)
      requires Valid()
      modifies this, tokenHook, userHook, tokenHook.store
      ensures Valid()
      ensures authState == AuthState(Some(MockUser(email)), Some(MockToken(now)), true, false)
      ensures tokenHook.storedValue == Some(MockToken(now)) && userHook.storedValue == Some(MockUser(email))
      ensures tokenHook.store.accessible == old(tokenHook.store.accessible)
      ensures tokenHook.store.items == if tokenHook.hasWindow && tokenHook.store.accessible
        then old(tokenHook.store.items)[AuthTokenKey := tokenHook.codec.encode(Some(MockToken(now)))]
                                       [UserDataKey := userHook.codec.encode(Some(MockUser(email)))]
        else old(tokenHook.store.items)
      ensures TokenValid(authState)
    {
      authState := authState.(isLoading := true);
      var user := MockUser(email);
      var token := MockToken(now);
      tokenHook.SetValue(Value(Some(token)));
      userHook.SetValue(Value(Some(user)));
      authState := AuthState(Some(user), Some(token), true, false);
    }

    /** `logout`: both keys are removed, both hooks reset, and the state is signed out and not loading. */
    method Logout()
      requires Valid()
      modifies this, tokenHook, userHook, tokenHook.store
      ensures Valid()
      ensures authState == AuthState(None, None, false, false)
      ensures tokenHook.storedValue == None && userHook.storedValue == None
      ensures tokenHook.store.accessible == old(tokenHook.store.accessible)
      ensures tokenHook.store.items == if tokenHook.hasWindow && tokenHook.store.accessible
        then old(tokenHook.store.items) - {AuthTokenKey} - {UserDataKey}
        else old(tokenHook.store.items)
      ensures !TokenValid(authState)
    {
      tokenHook.RemoveValue();
      userHook.RemoveValue();
      authState := AuthState(None, None, false, false);
    }

    /**
     * `updateUser(patch)`: nothing happens without a user; otherwise the merged user replaces it
     * in the state and in its storage hook, and the rest of the state is kept.
     */
    method UpdateUser(patch: UserPatch)
      requires Valid()
      modifies this, userHook, userHook.store
      ensures Valid()
      ensures old(authState).user.None? ==> authState == old(authState) && userHook.storedValue == old(userHook.storedValue)
      ensures old(authState).user.None? ==> userHook.store.items == old(userHook.store.items)
      ensures old(authState).user.Some? ==>
                var merged := Merge(old(authState).user.value, patch);
                && authState == old(authState).(user := Some(merged))
                && userHook.storedValue == Some(merged)
                && userHook.store.items == if userHook.hasWindow && userHook.store.accessible
                     then old(userHook.store.items)[UserDataKey := userHook.codec.encode(Some(merged))]
                     else old(userHook.store.items)
      ensures tokenHook.storedValue == old(tokenHook.storedValue)
    {
      if authState.user.Some? {
        var newUser := Merge(authState.user.value, patch);
        userHook.SetValue(Value(Some(newUser)));
        authState := authState.(user := Some(newUser));
      }
    }

    /** `isTokenValid`. */
    function IsTokenValid(): (r: bool)
      reads this
      ensures r <==> TokenValid(authState)
    {
      TokenValid(authState)
    }
  }

  /**
   * A login followed by a fresh hook over the same storage, with round-tripping codecs: the new
   * hook initialises to the same authenticated session.
   */
  method ReloadAfterLogin(tokenCodec: Codec<Option<string>>, userCodec: Codec<Option<User>>, store: Storage,
                          email: string, now: nat)
    returns (before: AuthHook, after: AuthHook)
    requires store.accessible && RoundTrips(tokenCodec) && RoundTrips(userCodec)
    modifies store
    ensures before.authState == after.authState
    ensures after.authState == AuthState(Some(MockUser(email)), Some(MockToken(now)), true, false)
  {
    before := new AuthHook(tokenCodec, userCodec, true, store);
    before.Initialize();
    before.Login(email, now);
    ghost var items := store.items;
    ReadOwnKeyOnly(true, true, items - {UserDataKey}, AuthTokenKey, UserDataKey,
                   userCodec.encode(Some(MockUser(email))), None, tokenCodec);
    after := new AuthHook(tokenCodec, userCodec, true, store);
    after.Initialize();
  }
}
