/**
  How the session handlers and the credential store share the device
  store: the handlers only ever touch the token key, so the stored
  credentials outlive every session event, logout included.
 */
module Lifecycle {
  import opened Wrappers
  import opened AsyncStore
  import opened AuthHelpers
  import opened CloudStorage
  import opened AuthContext

  /** The two keys the subsystem uses are distinct. */
  lemma KeysDiffer()
    ensures TokenKey != CredentialsKey
  {
    assert TokenKey[0] != CredentialsKey[0];
  }

  /** Any change confined to the token key is invisible to `LoadCredentials`. */
  lemma TokenChangesKeepCredentials(before: Store, after: Store, codec: JsonCodec, readFault: Option<StorageError>)
    requires UnchangedExcept(before, after, TokenKey)
    ensures LoadCredentials(after, codec, readFault) == LoadCredentials(before, codec, readFault)
  {
    KeysDiffer();
    assert Lookup(after, CredentialsKey) == Lookup(before, CredentialsKey);
    LoadReadsOnlyCredentialsKey(after, before, codec, readFault);
  }

  /** Logout, whether or not its removal succeeds, leaves the stored credentials loadable as before. */
  lemma LogoutKeepsCredentials(state: AuthState, store: Store, removeFault: Option<StorageError>,
                               codec: JsonCodec, readFault: Option<StorageError>)
    ensures LoadCredentials(Logout(state, store, removeFault).store, codec, readFault)
         == LoadCredentials(store, codec, readFault)
  {
    TokenChangesKeepCredentials(store, Logout(state, store, removeFault).store, codec, readFault);
  }

  /** The mount effect never changes what the credential store loads. */
  lemma MountKeepsCredentials(state: AuthState, store: Store, tokenReadFault: Option<StorageError>,
                              getUser: Result<User, RemoteError>, removeFault: Option<StorageError>,
                              codec: JsonCodec, readFault: Option<StorageError>)
    ensures LoadCredentials(Mount(state, store, tokenReadFault, getUser, removeFault).store, codec, readFault)
         == LoadCredentials(store, codec, readFault)
  {
    TokenChangesKeepCredentials(store, Mount(state, store, tokenReadFault, getUser, removeFault).store, codec, readFault);
  }

  /** Login and register, whatever their outcome, never change what the credential store loads. */
  lemma SignInKeepsCredentials(state: AuthState, store: Store, request: TokenRequest, reply: Result<string, RemoteError>,
                               writeFault: Option<StorageError>, getUser: Result<User, RemoteError>,
                               codec: JsonCodec, readFault: Option<StorageError>)
    ensures LoadCredentials(SignIn(state, store, request, reply, writeFault, getUser).store, codec, readFault)
         == LoadCredentials(store, codec, readFault)
  {
    TokenChangesKeepCredentials(store, SignIn(state, store, request, reply, writeFault, getUser).store, codec, readFault);
  }

  /**
    Saving a record, registering with it and logging out still leaves the
    record loadable: logout signs out but keeps the credentials.
   */
  lemma SaveRegisterLogoutThenLoad(store: Store, codec: JsonCodec, c: StoredCredentials,
                                   reply: Result<string, RemoteError>, writeFault: Option<StorageError>,
                                   getUser: Result<User, RemoteError>, removeFault: Option<StorageError>)
    requires RoundTripsOn(codec, c)
    ensures SaveCredentials(store, codec, c, None).Success?
    ensures var saved := SaveCredentials(store, codec, c, None).value;
            var registered := Register(InitialState, saved, c.username, c.password, c.displayName, reply, writeFault, getUser);
            var out := Logout(registered.state, registered.store, removeFault);
            LoadCredentials(out.store, codec, None) == Some(c)
            && (removeFault.None? ==> out.state == SignedOut)
  {
    var saved := SaveCredentials(store, codec, c, None).value;
    var registered := Register(InitialState, saved, c.username, c.password, c.displayName, reply, writeFault, getUser);
    var out := Logout(registered.state, registered.store, removeFault);
    SaveThenLoad(store, codec, c, None);
    TokenChangesKeepCredentials(saved, registered.store, codec, None);
    LogoutKeepsCredentials(registered.state, registered.store, removeFault, codec, None);
  }
}
