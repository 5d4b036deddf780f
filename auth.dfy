/** The session: who is signed in, with which token, and whether the stored
    session is still being read. The provider keeps `token` and the HTTP
    client's token equal, and writes the session under "@token" and
    "@user" in the device store. */
module Auth {
  import opened Wrappers
  import opened Records
  import opened Storage
  import opened Api
  import opened UserCodec
  import opened Text

  const TokenKey := "@token"
  const UserKey := "@user"
  const SignUpFallbackMessage := "Erro ao cadastrar usuário"
  const UseAuthMessage := "useAuth must be used inside an AuthProvider"

  datatype LoginResponse = LoginResponse(token: string, usuario: AuthUser)

  /** How `signIn` ends: resolved, rejected by the login call (with that
      call's error, unchanged), or rejected by a failing store write after
      the in-memory session was already set. */
  datatype SignInResult = SignedIn | LoginRejected(error: RequestError) | PersistFailed

  /** The message `signUp` rethrows: the server's message if it is a
      non-empty string, else the error's own message if non-empty, else the
      fixed fallback. */
  function SignUpErrorMessage(e: RequestError): (m: string)
    ensures m != ""
    ensures Truthy(e.serverMessage) ==> m == e.serverMessage.value
    ensures !Truthy(e.serverMessage) && Truthy(e.message) ==> m == e.message.value
    ensures !Truthy(e.serverMessage) && !Truthy(e.message) ==> m == SignUpFallbackMessage
  {
    if Truthy(e.serverMessage) then e.serverMessage.value
    else if Truthy(e.message) then e.message.value
    else SignUpFallbackMessage
  }

  class AuthProvider {
    var user: Option<AuthUser>
    var token: Option<string>
    var loading: bool
    /** The HTTP client whose module-level token `setAxiosToken` sets. */
    const api: ApiClient
    const storage: AsyncStorage

    /** The provider's token and the one the interceptor attaches agree. */
    predicate Synced()
      reads this, api
    {
      token == api.authToken
    }

    /** Mounting: no user, no token, still loading. The client's token is
        null until someone sets it. */
    constructor (api: ApiClient, storage: AsyncStorage)
      requires api.authToken == None
      ensures this.api == api && this.storage == storage
      ensures user == None && token == None && loading
      ensures Synced()
    {
      this.api := api;
      this.storage := storage;
      user := None;
      token := None;
      loading := true;
    }

    /** `loadStorage`. `readOk` is false when reading the store throws. The
        session is adopted only when both keys hold non-empty values; the
        two tokens are set before the user is parsed, so a stored user that
        does not parse leaves the token set and the user as it was. Loading
        ends on every path. */
    method LoadStorage(readOk: bool)
      modifies this, api
      ensures !loading
      ensures var t := storage.Get(TokenKey);
              var u := storage.Get(UserKey);
              if readOk && Truthy(t) && Truthy(u) then
                api.authToken == t && token == t
                && user == (if Decode(u.value).Some? then Decode(u.value) else old(user))
              else
                api.authToken == old(api.authToken) && token == old(token) && user == old(user)
      ensures Synced()
      requires Synced()
    {
      if readOk {
        var storedToken := storage.Get(TokenKey);
        var storedUser := storage.Get(UserKey);
        if storedToken.Some? && storedToken.value != "" && storedUser.Some? && storedUser.value != "" {
          api.SetToken(storedToken);
          token := storedToken;
          var parsed := Decode(storedUser.value);
          if parsed.Some? {
            user := parsed;
          }
        }
      }
      loading := false;
    }

    /** `signIn`, with the login call's outcome and the two store writes'
        outcomes given. A failed login changes nothing. */
    method SignIn(login: Result<LoginResponse, RequestError>, tokenWriteOk: bool, userWriteOk: bool)
      returns (r: SignInResult)
      requires Synced()
      modifies this, api, storage
      ensures loading == old(loading)
      ensures Synced()
      ensures login.Failure? ==>
        r == LoginRejected(login.error)
        && user == old(user) && token == old(token) && api.authToken == old(api.authToken)
        && storage.items == old(storage.items)
      ensures login.Success? ==>
        var tok := login.value.token;
        var u := login.value.usuario;
        token == Some(tok) && api.authToken == Some(tok) && user == Some(u)
        && storage.items == (if !tokenWriteOk then old(storage.items)
                             else if !userWriteOk then old(storage.items)[TokenKey := tok]
                             else old(storage.items)[TokenKey := tok][UserKey := Encode(u)])
        && r == (if tokenWriteOk && userWriteOk then SignedIn else PersistFailed)
    {
      if login.Failure? {
        return LoginRejected(login.error);
      }
      var authUser := login.value.usuario;
      var authToken := login.value.token;
      api.SetToken(Some(authToken));
      token := Some(authToken);
      user := Some(authUser);
      storage.SetItem(TokenKey, authToken, tokenWriteOk);
      if !tokenWriteOk {
        return PersistFailed;
      }
      storage.SetItem(UserKey, Encode(authUser), userWriteOk);
      r := if userWriteOk then SignedIn else PersistFailed;
    }

    /** `signOut`, with the two removals' outcomes given; it resolves only
        when both succeed. */
    method SignOut(tokenRemoveOk: bool, userRemoveOk: bool) returns (ok: bool)
      modifies this, api, storage
      ensures loading == old(loading)
      ensures user == None && token == None && api.authToken == None
      ensures Synced()
      ensures storage.items == (if !tokenRemoveOk then old(storage.items)
                                else if !userRemoveOk then old(storage.items) - {TokenKey}
                                else old(storage.items) - {TokenKey, UserKey})
      ensures ok == (tokenRemoveOk && userRemoveOk)
    {
      user := None;
      token := None;
      api.SetToken(None);
      storage.RemoveItem(TokenKey, tokenRemoveOk);
      if !tokenRemoveOk {
        return false;
      }
      storage.RemoveItem(UserKey, userRemoveOk);
      assert userRemoveOk ==> old(storage.items) - {TokenKey} - {UserKey} == old(storage.items) - {TokenKey, UserKey};
      ok := userRemoveOk;
    }

    /** `signUp`, with the register call's outcome given. It never touches
        the session: the method has no frame. */
    method SignUp(register: Result<string, RequestError>) returns (r: Result<string, string>)
      ensures register.Success? ==> r == Success(register.value)
      ensures register.Failure? ==> r == Failure(SignUpErrorMessage(register.error))
    {
      match register
      case Success(resp) => r := Success(resp);
      case Failure(e) => r := Failure(SignUpErrorMessage(e));
    }
  }

  /** `useAuth`: the provider's value, or an error outside a provider. */
  function UseAuth(context: Option<AuthProvider>): (r: Result<AuthProvider, string>)
    ensures r.Failure? <==> context.None?
    ensures r.Success? ==> r.value == context.value
    ensures r.Failure? ==> r.error == UseAuthMessage
  {
    match context
    case Some(p) => Success(p)
    case None => Failure(UseAuthMessage)
  }

  /** Signing in, then restarting the application and restoring from the
      same store, gives back the same user and token. */
  method RestartAfterSignIn(persisted: map<string, string>, tok: string, u: AuthUser, hostUri: Option<string>, os: string)
    returns (user: Option<AuthUser>, token: Option<string>, header: Option<string>)
    requires tok != ""
    ensures user == Some(u) && token == Some(tok)
    ensures header == Some("Bearer " + tok)
  {
    var storage := new AsyncStorage(persisted);
    var api := new ApiClient(hostUri, os);
    var auth := new AuthProvider(api, storage);
    auth.LoadStorage(true);
    var r := auth.SignIn(Success(LoginResponse(tok, u)), true, true);
    var api2 := new ApiClient(hostUri, os);
    var auth2 := new AuthProvider(api2, storage);
    EncodeNonEmpty(u);
    DecodeEncode(u);
    auth2.LoadStorage(true);
    user, token := auth2.user, auth2.token;
    var request := RequestConfig(Some("/Startup"), "get", None, map[]);
    LongPatternNotContained("/Startup", LoginPath);
    LongPatternNotContained("/Startup", RegisterPath);
    var out := api2.Intercept(request);
    header := if "Authorization" in out.headers then Some(out.headers["Authorization"]) else None;
  }

  /** A second sign-out leaves the state the first one left. */
  method SignOutTwice(auth: AuthProvider)
    modifies auth, auth.api, auth.storage
    ensures auth.user == None && auth.token == None && auth.api.authToken == None
    ensures auth.storage.items == old(auth.storage.items) - {TokenKey, UserKey}
  {
    var first := auth.SignOut(true, true);
    ghost var afterFirst := auth.storage.items;
    var second := auth.SignOut(true, true);
    assert auth.storage.items == afterFirst;
  }
}
