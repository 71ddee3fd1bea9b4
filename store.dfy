/** The persistent key/value store (electron-store) as a map from the keys the
    core uses to the values kept under them. */
module KeyValue {
  import opened Models

  /** The storage keys the core reads and writes. */
  datatype Key =
    | StorageSettings
    | UuidKey
    | StorageSubscription
    | StorageSerial
    | StorageNextChargeDate
    | StorageLastScanCountResetDate
    | StorageMonthlyScanCount
    | StorageFirstConnectionDate

  datatype StoreValue = Num(n: int) | Text(s: string) | Prefs(settings: SettingsModel)

  type Entries = map<Key, StoreValue>

  /** The kind of value each key holds. */
  predicate Fits(k: Key, v: StoreValue)
  {
    match k
    case StorageSettings => v.Prefs?
    case UuidKey => v.Text?
    case StorageSubscription => v.Text?
    case StorageSerial => v.Text?
    case _ => v.Num?
  }

  /** Every key holds a value of its own kind. */
  ghost predicate WellTyped(m: Entries)
  {
    forall k :: k in m ==> Fits(k, m[k])
  }

  /** `store.get(k)` for a numeric key: None when the key is absent. */
  function NumAt(m: Entries, k: Key): Option<int>
  {
    if k in m && m[k].Num? then Some(m[k].n) else None
  }

  /** `store.get(k)` for a text key: None when the key is absent. */
  function TextAt(m: Entries, k: Key): Option<string>
  {
    if k in m && m[k].Text? then Some(m[k].s) else None
  }

  /** `store.get(k, default)` for a text key. */
  function TextOr(m: Entries, k: Key, default: string): string
  {
    match TextAt(m, k)
    case Some(s) => s
    case None => default
  }

  /** `store.get(STORAGE_SETTINGS, default)`. */
  function SettingsOr(m: Entries, default: SettingsModel): SettingsModel
  {
    if StorageSettings in m && m[StorageSettings].Prefs? then m[StorageSettings].settings else default
  }

  /** The on-disk store; every handler that shares it holds the same object. */
  class Store {
    var entries: Entries

    constructor (initial: Entries)
      ensures entries == initial
    {
      entries := initial;
    }

    /** `store.set(k, v)`. */
    method Set(k: Key, v: StoreValue)
      modifies this
      ensures entries == old(entries)[k := v]
    {
      entries := entries[k := v];
    }
  }
}
