# Identity bootstrap of MiniPlayParty, modelled in Dafny

This project models the identity bootstrap of the MiniPlayParty mobile client in three parts:

- **Credential generator** (`utils/auth-helpers.ts`). It turns a display name into a username: keep only `[A-Za-z0-9]`, fall back to `"user"`, cut to 22 characters, then append an 8-character random suffix. It also generates a 32-character password.
- **Credential store** (`services/cloud-storage.ts`). It saves, loads and removes one `StoredCredentials` record under the key `"user_credentials"`.
- **Session provider** (`contexts/auth-context.tsx`). This is the `{token, user, isLoading}` state driven by the mount effect, `login`, `register` and `logout`, with the session token kept under `"auth_token"`.

Files and modules:

| file | module | contents |
|---|---|---|
| `wrappers.dfy` | `Wrappers` | `Option` and `Result` |
| `async_store.dfy` | `AsyncStore` | the device key-value store as `map<string, string>`. Each call takes an explicit fault. |
| `auth_helpers.dfy` | `AuthHelpers` | alphabets, sanitizing, username and password generation, `StoredCredentials` |
| `cloud_storage.dfy` | `CloudStorage` | the JSON value shape, the abstract JSON codec, save, load and remove |
| `auth_context.dfy` | `AuthContext` | the auth state, the effect trace, and the mount, login, register and logout handlers |
| `lifecycle.dfy` | `Lifecycle` | how session events and the credential store interact through the shared store |

Inputs that the source reads from the outside world are passed in as parameters:

- **Random bytes.** The source calls `Crypto.getRandomBytesAsync(n)`. The model takes a `seq<byte>` of exactly `n` values in 0..255.
- **Remote replies.** The source calls `authApi.login`, `authApi.register` and `authApi.getUser`. The model takes each reply as a `Result` that carries either a token or user, or a message-bearing error.
- **Storage faults.** Every AsyncStorage call takes an `Option<StorageError>`. `None` means the call resolves.
- **JSON.** `JSON.stringify` and `JSON.parse` are an abstract `JsonCodec`. The only assumption about it is `RoundTripsOn`: the three-field record serializes to non-empty text that parses back to the same object.

Each session handler returns a `Transition` with four parts:
- the state after its last `setState`;
- the store;
- the ordered trace of storage and remote effects;
- the error it rejects with, if any.

The trace is what lets the contracts state which keys each handler touches, that the token write is issued before `getUser` is called, and that a rejected token write ends the handler before any `getUser` call. A write appears in the trace when it is issued, whether or not it resolves.

Two details of the alphabets and of sanitizing:
- **Password alphabet.** The password alphabet literal at utils/auth-helpers.ts:72 has 70 symbols (62 alphanumerics plus `!@#$%^&*`), so the index is `byte % 70`.
- **Sanitizing.** The model works on Unicode scalar values, while the source's regular expression works on UTF-16 code units. No surrogate code unit is in `[a-zA-Z0-9]`, so both remove exactly the same characters.

## Model

| member | source | states |
|---|---|---|
| AuthHelpers.AlphabetsMatchSource | utils/auth-helpers.ts:11-72 | The username alphabet is the 62-symbol literal of line 11. The password alphabet is the 70-symbol literal of line 72. |
| AuthHelpers.AlphabetClasses | utils/auth-helpers.ts:11-72 | Every symbol of the 62-symbol alphabet is in `[a-zA-Z0-9]`. The eight extra password symbols are not. |
| AuthHelpers.GenerateRandomString | utils/auth-helpers.ts:10-18 | The result has exactly `length` characters. The i-th is `chars[bytes[i] % 62]`, so every character is alphanumeric. |
| AuthHelpers.Sanitize | utils/auth-helpers.ts:23-26 | The result is all alphanumeric and no longer than the input. |
| AuthHelpers.SanitizeConcat | utils/auth-helpers.ts:23-26 | Sanitizing distributes over concatenation, so characters are kept in their original order. |
| AuthHelpers.SanitizeCounts | utils/auth-helpers.ts:23-26 | Every alphanumeric character is kept as often as it occurs, and every other character is dropped. |
| AuthHelpers.SanitizeFixedPoints | utils/auth-helpers.ts:23-26 | A string is left unchanged by sanitizing if and only if it is all alphanumeric. |
| AuthHelpers.SanitizeEmpty | utils/auth-helpers.ts:23-26 | Sanitizing yields `""` if and only if the input has no alphanumeric character. |
| AuthHelpers.TruncatedBase | utils/auth-helpers.ts:37-45 | The base is `"user"` when the sanitized name is empty. Otherwise it is the first `min(n, 22)` characters of the sanitized name. Either way it is 1 to 22 alphanumeric characters. |
| AuthHelpers.FallbackBaseUnreachable | utils/auth-helpers.ts:47-51 | The base is never empty at the `"u"` fallback, so the fallback is dead code. |
| AuthHelpers.NoAlphanumericsGivesDefaultBase | utils/auth-helpers.ts:34-38 | A name with no alphanumeric character, such as `""` or `"!!!"`, gets the base `"user"`. |
| AuthHelpers.LongNameIsTruncated | utils/auth-helpers.ts:40-45 | An alphanumeric name longer than 22 characters contributes exactly its first 22. |
| AuthHelpers.GenerateUsername | utils/auth-helpers.ts:33-61 | The result is never the error. The username is the truncated base (`"user"` or the first at most 22 sanitized characters) followed by the 8 suffix characters `chars[bytes[i] % 62]`. Its length is `min(|base|, 22) + 8`, which lies in [9, 30]. It is all alphanumeric, so the check at line 56 never throws, and sanitizing leaves it unchanged. |
| AuthHelpers.GeneratePassword | utils/auth-helpers.ts:67-87 | The result is never the error. The password has exactly 32 characters, each `chars[bytes[i] % 70]` from the 70-symbol alphabet, so the [6, 200] check never throws. |
| CloudStorage.CredentialsFromJson | services/cloud-storage.ts:36-46 | The value is accepted if and only if it is an object whose `username`, `password` and `displayName` are strings. The record returned carries those three strings. |
| CloudStorage.CredentialsJsonRoundTrip | services/cloud-storage.ts:24-42 | Decoding the object written for a record gives back that record. |
| CloudStorage.SaveCredentials | services/cloud-storage.ts:22-29 | On success, `"user_credentials"` holds the serialized record and every other key is unchanged. A write fault is returned as the error. |
| CloudStorage.LoadCredentials | services/cloud-storage.ts:34-56 | Never fails. The result is `None` for a failed read, an absent or empty value, unparseable text, or a value of the wrong shape. It is a record if and only if all of these checks pass. |
| CloudStorage.RemoveCredentials | services/cloud-storage.ts:61-68 | On success the key is gone and every other key is unchanged. A fault is returned as the error. |
| CloudStorage.LoadReadsOnlyCredentialsKey | services/cloud-storage.ts:34-37 | Two stores that agree on `"user_credentials"` load the same result. |
| CloudStorage.SaveThenLoad | services/cloud-storage.ts:22-46 | After a successful save of `c`, a read that does not fail loads `c`. |
| CloudStorage.SaveOverwrites | services/cloud-storage.ts:22-24 | Saving `c1` then `c2` leaves the same store as saving only `c2`. |
| CloudStorage.RemoveThenLoad | services/cloud-storage.ts:61-68 | After a successful remove, loading returns `None`. |
| CloudStorage.FailuresPropagate | services/cloud-storage.ts:22-67 | A failed save and a failed remove both return the storage error. |
| AuthContext.InitialStateIsLoading | contexts/auth-context.tsx:30-34 | The initial state has no token, no user, and `isLoading` set. |
| AuthContext.DiscardToken | contexts/auth-context.tsx:47-50 | A successful clean-up removes `"auth_token"` and sets `{null, null, false}`. A failed removal escapes and leaves state and store untouched. |
| AuthContext.Mount | contexts/auth-context.tsx:37-52 | With no token, or an empty one, only `isLoading` turns false. A token that `getUser` accepts becomes the session and the store is unchanged. A failed read or a rejected token is removed, giving `{null, null, false}`; if that removal also fails, the mount rejects with the storage error and leaves state and store as they were. Every run that does not reject ends not loading. Only `"auth_token"` is touched. |
| AuthContext.MountSettled | contexts/auth-context.tsx:47-50 | Corrected mount: it always ends with `isLoading` false. It leaves the same store and reports the same error as `Mount`, so it is identical to `Mount` whenever `Mount` does not reject. When `Mount` rejects, it signs out instead of keeping the old state. |
| AuthContext.MountSettledAgrees | contexts/auth-context.tsx:37-52 | When the clean-up removal succeeds, the corrected mount and the mount as written are identical. |
| AuthContext.MountCanStayLoading | contexts/auth-context.tsx:47-50 | Suppose the stored token is rejected and removing it also fails. The mount as written is then still loading; the corrected mount is not. |
| AuthContext.SignIn | contexts/auth-context.tsx:54-69 | A rejected remote call changes neither state nor store. The session `{token, user, false}` is set if and only if the call, the token write and `getUser` all succeed. The token is stored once the write succeeds, even if `getUser` then fails. Every `getUser(t)` follows the write of `t`, and a rejected write ends the handler before `getUser` is called. A rejected write returns its storage error, and a rejected `getUser` returns its remote error. Only `"auth_token"` is touched. |
| AuthContext.Login | contexts/auth-context.tsx:54-59 | `login` issues the login request first. The session is set if and only if every step succeeds, and a failure leaves the state unchanged. Once the write succeeds the token is stored, even if the user fetch then fails; otherwise the store is unchanged. Only `"auth_token"` is touched, and the token write is issued before the user is fetched. A rejected write ends `login` before the fetch. Each rejection returns the error of the step that failed. |
| AuthContext.Register | contexts/auth-context.tsx:61-69 | `register` issues the register request first, with the same guarantees as `login`. |
| AuthContext.Logout | contexts/auth-context.tsx:71-74 | `logout` removes only `"auth_token"` and sets `{null, null, false}`. A failed removal escapes with state and store unchanged. |
| AuthContext.SignInThenLogout | contexts/auth-context.tsx:54-74 | After any login or register, a successful logout gives `{null, null, false}` and the original store minus `"auth_token"`. |
| Lifecycle.KeysDiffer | contexts/auth-context.tsx:27 | The token key `"auth_token"` (contexts/auth-context.tsx:27) differs from the credentials key `"user_credentials"` (services/cloud-storage.ts:5). |
| Lifecycle.TokenChangesKeepCredentials | services/cloud-storage.ts:34-56 | No change confined to `"auth_token"` alters what `LoadCredentials` returns. |
| Lifecycle.LogoutKeepsCredentials | contexts/auth-context.tsx:71-74 | After `logout`, `LoadCredentials` returns exactly what it returned before. |
| Lifecycle.MountKeepsCredentials | contexts/auth-context.tsx:37-52 | The mount effect never changes what `LoadCredentials` returns. |
| Lifecycle.SignInKeepsCredentials | contexts/auth-context.tsx:54-69 | `login` and `register`, whatever their outcome, never change what `LoadCredentials` returns. |
| Lifecycle.SaveRegisterLogoutThenLoad | contexts/auth-context.tsx:61-74 | Save a record, run any register and then a logout: loading still returns the record, and a successful logout signs out. |

## Left out

- **Seamless registration and restore.** `app/(auth)/onboarding.tsx:25` takes `seamlessRegister`, `restoreFromCloud` and `storedCredentials` from `useAuth()`, but `contexts/auth-context.tsx` defines none of them; its context value holds only `token`, `user`, `isLoading`, `login`, `register` and `logout`. Those flows therefore have no source here to model.
- **The HTTP client** (`services/api.ts`): `authApi.login`, `authApi.register` and `authApi.getUser` are abstract replies. Wire format, headers and URLs are not modelled.
- **The secure random source.** It becomes a byte-sequence parameter. Randomness and the uniqueness of usernames are not modelled.
- **JSON text.** `JSON.stringify` and `JSON.parse` are an abstract codec. Only the round trip of the three-field record is assumed.
- **React machinery.** `useState`, `useEffect`, `useMemo`, `useCallback`, the `useAuth` provider check, `console.error` logging, and races between the mount effect and a concurrent `login` are asynchronous UI concerns.
- **App layout** (`app/_layout.tsx`). It is UI composition with no logic to state.
- **Failed writes.** A rejected AsyncStorage write or remove is assumed to leave the store unchanged.
- CloudStorage.LoadCredentials: returns only the three fields. The source returns the parsed object itself, so any extra properties of the stored object pass through to the caller; the model does not track them.

## Findings

| source | as written | input that shows it | evidently intended | confidence | as-written member | corrected member |
|---|---|---|---|---|---|---|
| contexts/auth-context.tsx:47-50 | The `catch` of the mount effect awaits `AsyncStorage.removeItem(TOKEN_KEY)` before `setState`. If that removal rejects, the rejection escapes and `isLoading` stays `true`. | `"auth_token"` holds `"stale"`, `getUser` rejects, and `removeItem` rejects. | The mount effect always ends with `isLoading` false, so the app never stays in a loading state. | medium, not executed | AuthContext.MountCanStayLoading | AuthContext.MountSettled |
