/**
  The credential store (services/cloud-storage.ts): one record kept as JSON
  text under a single key of the device store.

  JSON itself is not modelled. `Json` is the shape of a decoded value and a
  `JsonCodec` stands for the `JSON.stringify` / `JSON.parse` pair; a parse
  that throws is a `None`. The only fact used about the codec is that it
  round-trips the three-field record (`RoundTripsOn`).
 */
module CloudStorage {
  import opened Wrappers
  import opened AsyncStore
  import opened AuthHelpers

  const CredentialsKey: string := "user_credentials"

  /** A decoded JSON value. */
  datatype Json =
    | JNull
    | JBool(b: bool)
    | JNumber(n: real)
    | JString(s: string)
    | JArray(items: seq<Json>)
    | JObject(fields: map<string, Json>)

  datatype JsonCodec = JsonCodec(stringify: Json -> string, parse: string -> Option<Json>)

  /** The object `JSON.stringify` is given when saving `c`. */
  function CredentialsToJson(c: StoredCredentials): Json
  {
    JObject(map["username" := JString(c.username), "password" := JString(c.password), "displayName" := JString(c.displayName)])
  }

  /** The value of a string-typed property, or `None` when it is missing or of another type. */
  function StringField(fields: map<string, Json>, name: string): Option<string>
  {
    if name in fields && fields[name].JString? then Some(fields[name].s) else None
  }

  /**
    The shape check of `loadCredentials`: an object whose `username`,
    `password` and `displayName` are all strings. A decoded `null` fails it
    too (reading a property of `null` throws, and the throw is caught).
   */
  function CredentialsFromJson(v: Json): (r: Option<StoredCredentials>)
    ensures r.Some? <==>
              v.JObject?
              && "username" in v.fields && v.fields["username"].JString?
              && "password" in v.fields && v.fields["password"].JString?
              && "displayName" in v.fields && v.fields["displayName"].JString?
    ensures r.Some? ==>
              && v.fields["username"] == JString(r.value.username)
              && v.fields["password"] == JString(r.value.password)
              && v.fields["displayName"] == JString(r.value.displayName)
  {
    match v
    case JObject(fields) =>
      (match (StringField(fields, "username"), StringField(fields, "password"), StringField(fields, "displayName"))
       case (Some(u), Some(p), Some(d)) => Some(StoredCredentials(u, p, d))
       case _ => None)
    case _ => None
  }

  /** Decoding the object written for `c` gives `c` back. */
  lemma CredentialsJsonRoundTrip(c: StoredCredentials)
    ensures CredentialsFromJson(CredentialsToJson(c)) == Some(c)
  {
  }

  /** The codec turns the record's object into non-empty text and parses that text back to the same object. */
  predicate RoundTripsOn(codec: JsonCodec, c: StoredCredentials)
  {
    var text := codec.stringify(CredentialsToJson(c));
    text != "" && codec.parse(text) == Some(CredentialsToJson(c))
  }

  /**
    `saveCredentials(c)`: writes the serialized record under
    `"user_credentials"`, replacing what was there and touching no other
    key. A write failure is re-thrown.
   */
  function SaveCredentials(store: Store, codec: JsonCodec, credentials: StoredCredentials, fault: Option<StorageError>)
    : (r: Result<Store, StorageError>)
    ensures fault.Some? ==> r == Failure(fault.value)
    ensures fault.None? ==> r.Success?
    ensures r.Success? ==> Lookup(r.value, CredentialsKey) == Some(codec.stringify(CredentialsToJson(credentials)))
    ensures r.Success? ==> UnchangedExcept(store, r.value, CredentialsKey)
  {
    SetItem(store, CredentialsKey, codec.stringify(CredentialsToJson(credentials)), fault)
  }

  /**
    `loadCredentials()`: never fails. A failed read, a missing or empty
    value, text that does not parse, or a decoded value of the wrong shape
    all give `None`.
   */
  function LoadCredentials(store: Store, codec: JsonCodec, fault: Option<StorageError>): (r: Option<StoredCredentials>)
    // each way loading gives up, spelled out; all four also follow from the equivalence below
    ensures fault.Some? ==> r == None
    ensures CredentialsKey !in store ==> r == None
    ensures CredentialsKey in store && store[CredentialsKey] == "" ==> r == None
    ensures CredentialsKey in store && codec.parse(store[CredentialsKey]).None? ==> r == None
    ensures r.Some? <==>
              fault.None? && CredentialsKey in store && store[CredentialsKey] != ""
              && codec.parse(store[CredentialsKey]).Some?
              && CredentialsFromJson(codec.parse(store[CredentialsKey]).value).Some?
    ensures r.Some? ==> Some(r.value) == CredentialsFromJson(codec.parse(store[CredentialsKey]).value)
  {
    match GetItem(store, CredentialsKey, fault)
    case Failure(_) => None
    case Success(data) =>
      if data.None? || data.value == "" then None
      else
        match codec.parse(data.value)
        case None => None
        case Some(parsed) => CredentialsFromJson(parsed)
  }

  /** `removeCredentials()`: deletes the key and nothing else; a failure is re-thrown. */
  function RemoveCredentials(store: Store, fault: Option<StorageError>): (r: Result<Store, StorageError>)
    ensures fault.Some? ==> r == Failure(fault.value)
    ensures fault.None? ==> r.Success? && CredentialsKey !in r.value
    ensures r.Success? ==> UnchangedExcept(store, r.value, CredentialsKey)
  {
    RemoveItem(store, CredentialsKey, fault)
  }

  /** Loading sees nothing but the credentials key. */
  lemma LoadReadsOnlyCredentialsKey(s1: Store, s2: Store, codec: JsonCodec, fault: Option<StorageError>)
    requires Lookup(s1, CredentialsKey) == Lookup(s2, CredentialsKey)
    ensures LoadCredentials(s1, codec, fault) == LoadCredentials(s2, codec, fault)
  {
    assert CredentialsKey in s1 <==> CredentialsKey in s2;
  }

  /** After a successful save, a read that does not fail loads the saved record. */
  lemma SaveThenLoad(store: Store, codec: JsonCodec, c: StoredCredentials, fault: Option<StorageError>)
    requires RoundTripsOn(codec, c)
    requires SaveCredentials(store, codec, c, fault).Success?
    ensures LoadCredentials(SaveCredentials(store, codec, c, fault).value, codec, None) == Some(c)
  {
    var saved := SaveCredentials(store, codec, c, fault).value;
    assert saved[CredentialsKey] == codec.stringify(CredentialsToJson(c));
    CredentialsJsonRoundTrip(c);
  }

  /** A second save replaces the first entirely: the store is as if only the second had happened. */
  lemma SaveOverwrites(store: Store, codec: JsonCodec, c1: StoredCredentials, c2: StoredCredentials)
    ensures SaveCredentials(store, codec, c1, None).Success?
    ensures SaveCredentials(SaveCredentials(store, codec, c1, None).value, codec, c2, None)
         == SaveCredentials(store, codec, c2, None)
  {
    var once := SaveCredentials(store, codec, c2, None).value;
    var twice := SaveCredentials(SaveCredentials(store, codec, c1, None).value, codec, c2, None).value;
    assert forall k :: k in twice <==> k in once;
    assert forall k :: k in twice ==> twice[k] == once[k];
    assert twice == once;
  }

  /** After a successful remove nothing can be loaded. */
  lemma RemoveThenLoad(store: Store, codec: JsonCodec, readFault: Option<StorageError>)
    ensures RemoveCredentials(store, None).Success?
    ensures LoadCredentials(RemoveCredentials(store, None).value, codec, readFault) == None
  {
  }

  /** A failed save or remove reports the storage error and yields no new store.
      This restates, side by side, the fault clauses of `SaveCredentials` and `RemoveCredentials`. */
  lemma FailuresPropagate(store: Store, codec: JsonCodec, c: StoredCredentials, e: StorageError)
    ensures SaveCredentials(store, codec, c, Some(e)) == Failure(e)
    ensures RemoveCredentials(store, Some(e)) == Failure(e)
  {
  }
}
