/**
 * `ChromeStorage.Wrapper`: a facade over one `chrome.storage` area whose
 * calls settle as a `Result` instead of invoking a callback and leaving an
 * error in `chrome.runtime.lastError`.
 *
 * Each wrapped call takes `lastError`, the error the platform reports for
 * that call (`None` when it reports none): that is the `_csResponse` choice
 * between resolving and rejecting.
 */
module StorageApi {
  import opened Wrappers

  /** A value held in a storage area; the adapter only ever asks whether it is a string. */
  datatype Value = Str(s: string) | NonString

  /** One `chrome.storage` area: its items and its numeric quota properties. */
  class StorageArea {
    var items: map<string, Value>
    const constants: map<string, int>

    constructor(items: map<string, Value>, constants: map<string, int>)
      ensures this.items == items && this.constants == constants
    {
      this.items := items;
      this.constants := constants;
    }
  }

  /**
   * The area kind the wrapper settles on: an empty kind means `'local'`, and
   * so does a kind that names no area on `chrome.storage`.
   */
  function ResolveArea(kind: string, available: set<string>): (k: string)
    requires "local" in available
    ensures k in available
    ensures kind != "" && kind in available ==> k == kind
    ensures kind == "" || kind !in available ==> k == "local"
  {
    var kind' := if kind == "" then "local" else kind;
    if kind' in available then kind' else "local"
  }

  /** The five quota property names `getQuotaObject` picks out. */
  const QuotaKeys: set<string> := {
    "QUOTA_BYTES",
    "QUOTA_BYTES_PER_ITEM",
    "MAX_ITEMS",
    "MAX_SUSTAINED_WRITE_OPERATIONS_PER_MINUTE",
    "MAX_WRITE_OPERATIONS_PER_HOUR"
  }

  /** `_(area).pick(...)` of the five quota names: those present, values copied. */
  function PickQuota(constants: map<string, int>): (q: map<string, int>)
    ensures q.Keys == QuotaKeys * constants.Keys
    ensures forall k :: k in q ==> q[k] == constants[k]
  {
    map k | k in QuotaKeys && k in constants :: constants[k]
  }

  class Wrapper {
    const kind: string
    const storage: StorageArea

    /** `new Wrapper(type)`, where `areas` are the areas present on `chrome.storage`. */
    constructor(kind: string, areas: map<string, StorageArea>)
      requires "local" in areas
      ensures this.kind == ResolveArea(kind, areas.Keys)
      ensures storage == areas[this.kind]
    {
      var k := ResolveArea(kind, areas.Keys);
      this.kind := k;
      this.storage := areas[k];
    }

    /** `get(keys)`: the stored items under those of `keys` that are present. */
    method Get(keys: seq<string>, lastError: Option<string>) returns (r: Result<map<string, Value>>)
      ensures lastError.Some? ==> r == Err(lastError.value)
      ensures lastError.None? ==> r.Ok?
      ensures r.Ok? ==> forall k :: k in r.value <==> k in keys && k in storage.items
      ensures r.Ok? ==> forall k :: k in r.value ==> r.value[k] == storage.items[k]
    {
      if lastError.Some? {
        r := Err(lastError.value);
      } else {
        var items := storage.items;
        r := Ok(map k | k in keys && k in items :: items[k]);
      }
    }

    /** `set(items)`: on success every given item is stored, replacing any old value. */
    method Set(kv: map<string, Value>, lastError: Option<string>) returns (r: Result<()>)
      modifies storage
      ensures r == if lastError.Some? then Err(lastError.value) else Ok(())
      ensures storage.items == if r.Ok? then old(storage.items) + kv else old(storage.items)
    {
      if lastError.Some? {
        r := Err(lastError.value);
      } else {
        storage.items := storage.items + kv;
        r := Ok(());
      }
    }

    /** `remove(keys)`: on success none of `keys` is stored any more. */
    method Remove(keys: seq<string>, lastError: Option<string>) returns (r: Result<()>)
      modifies storage
      ensures r == if lastError.Some? then Err(lastError.value) else Ok(())
      ensures storage.items == if r.Ok? then old(storage.items) - (set k | k in keys) else old(storage.items)
    {
      if lastError.Some? {
        r := Err(lastError.value);
      } else {
        storage.items := storage.items - (set k | k in keys);
        r := Ok(());
      }
    }

    /** `clear()`: on success the area holds nothing. */
    method Clear(lastError: Option<string>) returns (r: Result<()>)
      modifies storage
      ensures r == if lastError.Some? then Err(lastError.value) else Ok(())
      ensures storage.items == if r.Ok? then map[] else old(storage.items)
    {
      if lastError.Some? {
        r := Err(lastError.value);
      } else {
        storage.items := map[];
        r := Ok(());
      }
    }

    /** `getBytesInUse()`: resolves with `inUse`, the byte count the platform reports. */
    method GetBytesInUse(inUse: nat, lastError: Option<string>) returns (r: Result<nat>)
      ensures r == if lastError.Some? then Err(lastError.value) else Ok(inUse)
    {
      if lastError.Some? {
        r := Err(lastError.value);
      } else {
        r := Ok(inUse);
      }
    }

    /** `getQuotaObject()`: the quota properties this wrapper's area exposes. */
    function GetQuotaObject(): (q: map<string, int>)
      ensures q.Keys == QuotaKeys * storage.constants.Keys
      ensures forall k :: k in QuotaKeys && k in storage.constants ==> k in q && q[k] == storage.constants[k]
    {
      PickQuota(storage.constants)
    }
  }
}
