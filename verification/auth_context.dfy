/**
  The session state of the auth provider (contexts/auth-context.tsx) as a
  state machine over `{token, user, isLoading}` and the device store.

  Remote calls (`authApi.login`, `authApi.register`, `authApi.getUser`)
  and storage faults are inputs: each handler is given what every call it
  makes would resolve or reject with, and returns the state left by its
  last `setState`, the store, the calls it made in order, and the error it
  rejects with, if any.
 */
module AuthContext {
  import opened Wrappers
  import opened AsyncStore

  const TokenKey: string := "auth_token"

  /** The profile `getUser` resolves with. */
  datatype User = User(id: int, username: string, name: string, avatar: Option<string>, isAdmin: Option<bool>)

  datatype AuthState = AuthState(token: Option<string>, user: Option<User>, isLoading: bool)

  /** The state before the mount effect has run. */
  const InitialState: AuthState := AuthState(None, None, true)

  /** The state after a failed token check or a logout. */
  const SignedOut: AuthState := AuthState(None, None, false)

  /** The message-bearing error a rejected remote call carries. */
  datatype RemoteError = RemoteError(message: string)

  datatype AuthError = Remote(remote: RemoteError) | Storage(storage: StorageError)

  /** The remote call that yields a token: `authApi.login` or `authApi.register`. */
  datatype TokenRequest =
    | LoginRequest(username: string, password: string)
    | RegisterRequest(username: string, password: string, name: string)

  /** One step a handler takes against the store or the remote service. */
  datatype Effect =
    | ReadKey(key: string)
    | WriteKey(key: string, value: string)
    | RemoveKey(key: string)
    | RequestToken(request: TokenRequest)
    | FetchUser(token: string)

  /** The outcome of one handler run. */
  datatype Transition = Transition(state: AuthState, store: Store, effects: seq<Effect>, error: Option<AuthError>)

  /** The store key an effect reads or changes, if it is a storage effect. */
  function KeyOf(e: Effect): Option<string>
  {
    match e
    case ReadKey(k) => Some(k)
    case WriteKey(k, _) => Some(k)
    case RemoveKey(k) => Some(k)
    case _ => None
  }

  /** Every storage effect in the trace is on `key`. */
  predicate TouchesOnly(effects: seq<Effect>, key: string)
  {
    forall i :: 0 <= i < |effects| ==> KeyOf(effects[i]).None? || KeyOf(effects[i]) == Some(key)
  }

  /** Every `getUser(t)` in the trace comes after a write of `t` under the token key was issued. */
  predicate TokenStoredBeforeFetch(effects: seq<Effect>)
  {
    forall j :: 0 <= j < |effects| && effects[j].FetchUser? ==>
      exists i :: 0 <= i < j && effects[i] == WriteKey(TokenKey, effects[j].token)
  }

  /** The trace calls `getUser`. */
  predicate FetchesUser(effects: seq<Effect>)
  {
    exists i :: 0 <= i < |effects| && effects[i].FetchUser?
  }

  /** The `catch` of the mount effect: remove the token, then sign out. If the
      removal itself rejects, the rejection escapes and no state is set. */
  function DiscardToken(state: AuthState, store: Store, effects: seq<Effect>, removeFault: Option<StorageError>)
    : (r: Transition)
    ensures r.effects == effects + [RemoveKey(TokenKey)]
    ensures removeFault.None? ==> r.state == SignedOut && r.error.None? && Lookup(r.store, TokenKey) == None
    ensures removeFault.Some? ==> r.state == state && r.store == store && r.error == Some(Storage(removeFault.value))
    ensures UnchangedExcept(store, r.store, TokenKey)
  {
    match RemoveItem(store, TokenKey, removeFault)
    case Success(cleared) => Transition(SignedOut, cleared, effects + [RemoveKey(TokenKey)], None)
    case Failure(e) => Transition(state, store, effects + [RemoveKey(TokenKey)], Some(Storage(e)))
  }

  /**
    The mount effect, as written. `readFault` decides the token read,
    `getUser` what the server answers for the stored token, and
    `removeFault` the clean-up removal.
   */
  function Mount(state: AuthState, store: Store, readFault: Option<StorageError>,
                 getUser: Result<User, RemoteError>, removeFault: Option<StorageError>): (r: Transition)
    // no usable token: only the loading flag changes
    ensures readFault.None? && (Lookup(store, TokenKey) == None || Lookup(store, TokenKey) == Some("")) ==>
              r.state == state.(isLoading := false) && r.store == store && r.error.None?
    // a token the server accepts becomes the session; the store is untouched
    ensures readFault.None? && TokenKey in store && store[TokenKey] != "" && getUser.Success? ==>
              r.state == AuthState(Some(store[TokenKey]), Some(getUser.value), false) && r.store == store && r.error.None?
    // a failed read or rejected token is removed and the session cleared
    ensures (readFault.Some? || (TokenKey in store && store[TokenKey] != "" && getUser.Failure?)) && removeFault.None? ==>
              r.state == SignedOut && TokenKey !in r.store && r.error.None?
    // a failed read or rejected token whose removal also fails rejects with the storage error
    ensures (readFault.Some? || (TokenKey in store && store[TokenKey] != "" && getUser.Failure?)) && removeFault.Some? ==>
              r.error == Some(Storage(removeFault.value))
    // a rejected clean-up escapes, leaving state and store as they were
    ensures r.error.Some? ==> r.state == state && r.store == store && r.error == Some(Storage(removeFault.value))
    ensures r.error.None? ==> !r.state.isLoading
    ensures |r.effects| > 0 && r.effects[0] == ReadKey(TokenKey)
    ensures UnchangedExcept(store, r.store, TokenKey) && TouchesOnly(r.effects, TokenKey)
  {
    match GetItem(store, TokenKey, readFault)
    case Failure(_) => DiscardToken(state, store, [ReadKey(TokenKey)], removeFault)
    case Success(stored) =>
      if stored.None? || stored.value == "" then
        Transition(state.(isLoading := false), store, [ReadKey(TokenKey)], None)
      else
        match getUser
        case Success(user) =>
          Transition(AuthState(Some(stored.value), Some(user), false), store, [ReadKey(TokenKey), FetchUser(stored.value)], None)
        case Failure(_) =>
          DiscardToken(state, store, [ReadKey(TokenKey), FetchUser(stored.value)], removeFault)
  }

  /**
    The mount effect with the clean-up failure contained: the session is
    cleared whether or not the removal succeeds, so loading always ends.
   */
  function MountSettled(state: AuthState, store: Store, readFault: Option<StorageError>,
                        getUser: Result<User, RemoteError>, removeFault: Option<StorageError>): (r: Transition)
    ensures !r.state.isLoading
    ensures r.store == Mount(state, store, readFault, getUser, removeFault).store
    ensures r.error == Mount(state, store, readFault, getUser, removeFault).error
    ensures r.error.Some? ==> r.state == SignedOut
    ensures r.error.None? ==> r == Mount(state, store, readFault, getUser, removeFault)
  {
    var t := Mount(state, store, readFault, getUser, removeFault);
    if t.error.Some? then t.(state := SignedOut) else t
  }

  /** The two agree on every run whose clean-up removal does not fail. */
  lemma MountSettledAgrees(state: AuthState, store: Store, readFault: Option<StorageError>,
                           getUser: Result<User, RemoteError>)
    ensures MountSettled(state, store, readFault, getUser, None) == Mount(state, store, readFault, getUser, None)
  {
  }

  /** As written, a rejected token whose removal also fails leaves the provider loading. */
  lemma MountCanStayLoading(e: StorageError, message: string)
    ensures Mount(InitialState, map[TokenKey := "stale"], None, Failure(RemoteError(message)), Some(e)).state.isLoading
    ensures !MountSettled(InitialState, map[TokenKey := "stale"], None, Failure(RemoteError(message)), Some(e)).state.isLoading
  {
  }

  /**
    The shared body of `login` and `register`: after the remote `request`
    resolves with a token, write it under the token key, then fetch the
    user, then set the session. Any rejection escapes at the step where it
    happens, without a `setState`.
   */
  function SignIn(state: AuthState, store: Store, request: TokenRequest, reply: Result<string, RemoteError>,
                  writeFault: Option<StorageError>, getUser: Result<User, RemoteError>): (r: Transition)
    ensures |r.effects| > 0 && r.effects[0] == RequestToken(request)
    // a rejected remote call changes nothing
    ensures reply.Failure? ==> r.state == state && r.store == store && r.error == Some(Remote(reply.error))
    // the session is set exactly when all three steps succeed
    ensures r.error.None? <==> reply.Success? && writeFault.None? && getUser.Success?
    ensures r.error.None? ==> r.state == AuthState(Some(reply.value), Some(getUser.value), false)
    ensures r.error.Some? ==> r.state == state
    // the token is stored once the write succeeds, even when the user fetch then fails
    ensures reply.Success? && writeFault.None? ==> Lookup(r.store, TokenKey) == Some(reply.value)
    ensures !(reply.Success? && writeFault.None?) ==> r.store == store
    ensures UnchangedExcept(store, r.store, TokenKey) && TouchesOnly(r.effects, TokenKey)
    ensures TokenStoredBeforeFetch(r.effects)
    // a rejected write escapes before `getUser` is called; a rejected fetch escapes with its own error
    ensures writeFault.Some? ==> !FetchesUser(r.effects)
    ensures reply.Success? && writeFault.Some? ==> r.error == Some(Storage(writeFault.value))
    ensures reply.Success? && writeFault.None? && getUser.Failure? ==> r.error == Some(Remote(getUser.error))
  {
    match reply
    case Failure(e) => Transition(state, store, [RequestToken(request)], Some(Remote(e)))
    case Success(token) =>
      match SetItem(store, TokenKey, token, writeFault)
      case Failure(e) => Transition(state, store, [RequestToken(request), WriteKey(TokenKey, token)], Some(Storage(e)))
      case Success(written) =>
        var effects := [RequestToken(request), WriteKey(TokenKey, token), FetchUser(token)];
        assert effects[1] == WriteKey(TokenKey, effects[2].token);
        match getUser
        case Failure(e) => Transition(state, written, effects, Some(Remote(e)))
        case Success(user) => Transition(AuthState(Some(token), Some(user), false), written, effects, None)
  }

  /** `login(username, password)`. */
  function Login(state: AuthState, store: Store, username: string, password: string,
                 reply: Result<string, RemoteError>, writeFault: Option<StorageError>,
                 getUser: Result<User, RemoteError>): (r: Transition)
    ensures |r.effects| > 0 && r.effects[0] == RequestToken(LoginRequest(username, password))
    ensures r.error.None? <==> reply.Success? && writeFault.None? && getUser.Success?
    ensures r.error.None? ==> r.state == AuthState(Some(reply.value), Some(getUser.value), false)
    ensures r.error.Some? ==> r.state == state
    ensures reply.Success? && writeFault.None? ==> Lookup(r.store, TokenKey) == Some(reply.value)
    ensures !(reply.Success? && writeFault.None?) ==> r.store == store
    ensures UnchangedExcept(store, r.store, TokenKey) && TouchesOnly(r.effects, TokenKey)
    ensures TokenStoredBeforeFetch(r.effects)
    ensures writeFault.Some? ==> !FetchesUser(r.effects)
    ensures reply.Failure? ==> r.error == Some(Remote(reply.error))
    ensures reply.Success? && writeFault.Some? ==> r.error == Some(Storage(writeFault.value))
    ensures reply.Success? && writeFault.None? && getUser.Failure? ==> r.error == Some(Remote(getUser.error))
  {
    SignIn(state, store, LoginRequest(username, password), reply, writeFault, getUser)
  }

  /** `register(username, password, name)`. */
  function Register(state: AuthState, store: Store, username: string, password: string, name: string,
                    reply: Result<string, RemoteError>, writeFault: Option<StorageError>,
                    getUser: Result<User, RemoteError>): (r: Transition)
    ensures |r.effects| > 0 && r.effects[0] == RequestToken(RegisterRequest(username, password, name))
    ensures r.error.None? <==> reply.Success? && writeFault.None? && getUser.Success?
    ensures r.error.None? ==> r.state == AuthState(Some(reply.value), Some(getUser.value), false)
    ensures r.error.Some? ==> r.state == state
    ensures reply.Success? && writeFault.None? ==> Lookup(r.store, TokenKey) == Some(reply.value)
    ensures !(reply.Success? && writeFault.None?) ==> r.store == store
    ensures UnchangedExcept(store, r.store, TokenKey) && TouchesOnly(r.effects, TokenKey)
    ensures TokenStoredBeforeFetch(r.effects)
    ensures writeFault.Some? ==> !FetchesUser(r.effects)
    ensures reply.Failure? ==> r.error == Some(Remote(reply.error))
    ensures reply.Success? && writeFault.Some? ==> r.error == Some(Storage(writeFault.value))
    ensures reply.Success? && writeFault.None? && getUser.Failure? ==> r.error == Some(Remote(getUser.error))
  {
    SignIn(state, store, RegisterRequest(username, password, name), reply, writeFault, getUser)
  }

  /** `logout()`: removes the token key only, then signs out; a failed removal escapes. */
  function Logout(state: AuthState, store: Store, removeFault: Option<StorageError>): (r: Transition)
    ensures r.effects == [RemoveKey(TokenKey)]
    ensures removeFault.None? ==> r.state == SignedOut && TokenKey !in r.store && r.error.None?
    ensures removeFault.Some? ==> r.state == state && r.store == store && r.error == Some(Storage(removeFault.value))
    ensures UnchangedExcept(store, r.store, TokenKey)
  {
    match RemoveItem(store, TokenKey, removeFault)
    case Success(cleared) => Transition(SignedOut, cleared, [RemoveKey(TokenKey)], None)
    case Failure(e) => Transition(state, store, [RemoveKey(TokenKey)], Some(Storage(e)))
  }

  /** The provider starts loading with no session. */
  lemma InitialStateIsLoading()
    ensures InitialState.token.None? && InitialState.user.None? && InitialState.isLoading
  {
  }

  /** Signing in and then logging out leaves no token behind and everything else as after the sign-in. */
  lemma SignInThenLogout(state: AuthState, store: Store, request: TokenRequest, reply: Result<string, RemoteError>,
                         writeFault: Option<StorageError>, getUser: Result<User, RemoteError>)
    ensures var signedIn := SignIn(state, store, request, reply, writeFault, getUser);
            var out := Logout(signedIn.state, signedIn.store, None);
            out.state == SignedOut && out.store == store - {TokenKey}
  {
    var signedIn := SignIn(state, store, request, reply, writeFault, getUser);
    var out := Logout(signedIn.state, signedIn.store, None);
    assert forall k :: k in out.store <==> k in store - {TokenKey};
    assert forall k :: k in out.store ==> out.store[k] == store[k];
  }
}
