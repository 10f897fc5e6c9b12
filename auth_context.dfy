/**
 * The authentication provider: a user slot and a loading flag, a one-time check of the stored
 * session once mounted, a login against fixed credentials, logout, and the guard of `useAuth`.
 */
module AuthContext {
  import opened Wrappers
  import opened Web
  import opened JsString

  datatype User = User(id: string, email: string, name: string, role: string)

  const UserKey := "auth_user"
  const TokenKey := "auth_token"
  const AdminEmail := "admin@example.com"
  const AdminPassword := "123456"
  const TokenPrefix := "mock_token_"
  const InvalidCredentialsMessage := "Credenciales inválidas"
  const OutsideProvider := "useAuth must be used within an AuthProvider"

  /** The user a successful login produces. */
  function AdminUser(email: string): User
  {
    User("1", email, "Admin User", "admin")
  }

  /** `` `mock_token_${Date.now()}` ``, the clock reading passed in. */
  function MockToken(now: nat): (r: string)
    ensures |r| > |TokenPrefix| && r[..|TokenPrefix|] == TokenPrefix
  {
    TokenPrefix + Decimal(now)
  }

  /**
   * Why `login` rejects: wrong credentials (an `Error` whose message is `InvalidCredentialsMessage`),
   * or storage refusing the write (the browser's exception).
   */
  datatype LoginFailure = InvalidCredentials | StorageRefused

  /** The stored session `checkUser` would restore: both items non-empty and the user parsing. */
  function StoredUser(items: map<string, string>, json: Codec<User>): (r: Option<User>)
    ensures r.Some? ==> UserKey in items && TokenKey in items && items[UserKey] != "" && items[TokenKey] != ""
    ensures r.Some? ==> json.decode(items[UserKey]) == r
    ensures UserKey in items && TokenKey in items && items[UserKey] != "" && items[TokenKey] != ""
            ==> r == json.decode(items[UserKey])
  {
    if UserKey in items && TokenKey in items && items[UserKey] != "" && items[TokenKey] != ""
    then json.decode(items[UserKey])
    else None
  }

  /** The provider's state. */
  class AuthProvider {
    var user: Option<User>
    var loading: bool
    var mounted: bool
    const storage: Storage
    /** `JSON.stringify`/`JSON.parse` for the user record. */
    const json: Codec<User>

    /** The first render: no user, loading, not yet mounted. */
    constructor (storage: Storage, json: Codec<User>)
      ensures this.storage == storage && this.json == json
      ensures user == None && loading && !mounted
    {
      this.storage := storage;
      this.json := json;
      user := None;
      loading := true;
      mounted := false;
    }

    /** `isAuthenticated`: `!!user`. */
    function IsAuthenticated(): (r: bool)
      reads this
      ensures r <==> user.Some?
    {
      user.Some?
    }

    /**
     * The check-user effect: nothing before mounting. Once mounted, a stored session that parses
     * becomes the user; an unreadable storage or a parse failure is swallowed; loading always ends.
     */
    method CheckUser()
      modifies this
      ensures !old(mounted) ==> user == old(user) && loading == old(loading)
      ensures old(mounted) ==> !loading
      ensures old(mounted) ==> user == if storage.accessible && StoredUser(storage.items, json).Some?
                                      then StoredUser(storage.items, json) else old(user)
      ensures mounted == old(mounted)
    {
      if !mounted {
        return;
      }
      if storage.accessible {
        var savedUser := storage.GetItem(UserKey);
        var token := storage.GetItem(TokenKey);
        if savedUser.Some? && savedUser.value != "" && token.Some? && token.value != "" {
          var parsed := json.decode(savedUser.value);
          if parsed.Some? {
            user := parsed;
          }
        }
      }
      loading := false;
    }

    /** The mount effect followed by the check-user effect it triggers. */
    method Mount()
      modifies this
      ensures mounted && !loading
      ensures user == if storage.accessible && StoredUser(storage.items, json).Some?
                      then StoredUser(storage.items, json) else old(user)
    {
      mounted := true;
      CheckUser();
    }

    /**
     * `login(email, password)` at clock reading `now`: succeeds exactly with the fixed credentials
     * and writable storage, storing the user and a token and setting the user. Wrong credentials
     * change nothing; a refused write rejects before the user is set.
     */
    method Login(email: string, password: string, now: nat) returns (r: Result<(), LoginFailure>)
      modifies storage, this
      ensures r.Success? <==> email == AdminEmail && password == AdminPassword && storage.accessible
      ensures r == Failure(InvalidCredentials) <==> !(email == AdminEmail && password == AdminPassword)
      ensures r.Failure? ==> user == old(user) && storage.items == old(storage.items)
      ensures r.Success? ==> user == Some(AdminUser(email))
      ensures r.Success? ==> storage.items == old(storage.items)[UserKey := json.encode(AdminUser(email))][TokenKey := MockToken(now)]
      ensures storage.accessible == old(storage.accessible) && loading == old(loading) && mounted == old(mounted)
    {
      if email == AdminEmail && password == AdminPassword {
        var mockUser := AdminUser(email);
        var ok := storage.SetItem(UserKey, json.encode(mockUser));
        if !ok {
          return Failure(StorageRefused);
        }
        ok := storage.SetItem(TokenKey, MockToken(now));
        user := Some(mockUser);
        r := Success(());
      } else {
        r := Failure(InvalidCredentials);
      }
    }

    /** `logout`: both keys removed and the user cleared; a refused removal rejects and changes nothing. */
    method Logout() returns (ok: bool)
      modifies storage, this
      ensures ok == storage.accessible
      ensures ok ==> user == None && storage.items == old(storage.items) - {UserKey, TokenKey}
      ensures !ok ==> user == old(user) && storage.items == old(storage.items)
      ensures storage.accessible == old(storage.accessible) && loading == old(loading) && mounted == old(mounted)
    {
      ok := storage.RemoveItem(UserKey);
      if !ok {
        return;
      }
      ok := storage.RemoveItem(TokenKey);
      user := None;
    }
  }

  /** The `useAuth` guard: outside a provider it raises, inside it yields the provider. */
  function UseAuth(context: Option<AuthProvider>): (r: Result<AuthProvider, string>)
    ensures context.None? <==> r == Failure(OutsideProvider)
    ensures context.Some? ==> r == Success(context.value)
  {
    match context
    case None => Failure(OutsideProvider)
    case Some(p) => Success(p)
  }

  /**
   * A successful login followed by a fresh provider over the same storage, with a round-tripping
   * codec: the new provider restores the same user once mounted.
   */
  method ReloadAfterLogin(storage: Storage, json: Codec<User>, now: nat) returns (before: AuthProvider, after: AuthProvider)
    requires storage.accessible && RoundTrips(json)
    modifies storage
    ensures before.IsAuthenticated() && after.IsAuthenticated() && after.user == before.user
  {
    before := new AuthProvider(storage, json);
    before.Mount();
    var r := before.Login(AdminEmail, AdminPassword, now);
    assert json.decode(json.encode(AdminUser(AdminEmail))) == Some(AdminUser(AdminEmail));
    after := new AuthProvider(storage, json);
    after.Mount();
  }

  /** A logout followed by a fresh provider over the same storage: the new provider has no user. */
  method ReloadAfterLogout(provider: AuthProvider) returns (after: AuthProvider)
    requires provider.storage.accessible
    modifies provider, provider.storage
    ensures !provider.IsAuthenticated() && !after.IsAuthenticated()
  {
    var ok := provider.Logout();
    after := new AuthProvider(provider.storage, provider.json);
    after.Mount();
  }
}
