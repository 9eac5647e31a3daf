/**
  The device key-value store (AsyncStorage) as a finite map from keys to
  strings. Every call takes an explicit fault: `None` means the call
  resolves, `Some(e)` means it rejects with `e`. A rejected write or remove
  leaves the map as it was.
 */
module AsyncStore {
  import opened Wrappers

  type Store = map<string, string>

  datatype StorageError = StorageError(message: string)

  /** What `getItem` would report for `key`, ignoring faults. */
  function Lookup(store: Store, key: string): Option<string>
  {
    if key in store then Some(store[key]) else None
  }

  /** `after` holds exactly what `before` holds under every key other than `key`. */
  ghost predicate UnchangedExcept(before: Store, after: Store, key: string)
  {
    forall k :: k != key ==> Lookup(after, k) == Lookup(before, k)
  }

  /** `getItem(key)`: the entry under `key`, or the fault. */
  function GetItem(store: Store, key: string, fault: Option<StorageError>): Result<Option<string>, StorageError>
  {
    match fault
    case Some(e) => Failure(e)
    case None => Success(Lookup(store, key))
  }

  function SetItem(store: Store, key: string, value: string, fault: Option<StorageError>): (r: Result<Store, StorageError>)
    ensures fault.Some? ==> r == Failure(fault.value)
    ensures fault.None? ==> r.Success? && Lookup(r.value, key) == Some(value)
    ensures r.Success? ==> UnchangedExcept(store, r.value, key)
  {
    match fault
    case Some(e) => Failure(e)
    case None => Success(store[key := value])
  }

  function RemoveItem(store: Store, key: string, fault: Option<StorageError>): (r: Result<Store, StorageError>)
    ensures fault.Some? ==> r == Failure(fault.value)
    ensures fault.None? ==> r.Success? && Lookup(r.value, key) == None
    ensures r.Success? ==> UnchangedExcept(store, r.value, key)
  {
    match fault
    case Some(e) => Failure(e)
    case None => Success(store - {key})
  }
}
