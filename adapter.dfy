/**
 * `Backbone.ChromeStorage`: the persistence adapter for one collection, and
 * `Backbone.chromeSync`, the router a model's sync hook goes through.
 *
 * Every asynchronous storage call is one synchronous step. Its outcome is a
 * parameter: `writeError`, `readError` or `loadError` is the error the
 * platform reports for the record call, `saveError` the one it reports for
 * the index write `save` issues afterwards (whose outcome nobody waits for).
 * The index continuations (`Created`, `Updated`, `Destroyed`) run only when
 * the record call succeeded, as callbacks attached with `done` do.
 */
module Adapter {
  import opened Wrappers
  import opened Text
  import opened Guids
  import opened StorageApi
  import opened RecordIndex

  /** A model of the calling framework, as far as the adapter touches it. */
  class Model {
    var id: Option<string>
    var attributes: map<string, string>
    const idAttribute: string

    constructor(id: Option<string>, attributes: map<string, string>, idAttribute: string)
      ensures this.id == id && this.attributes == attributes && this.idAttribute == idAttribute
    {
      this.id := id;
      this.attributes := attributes;
      this.idAttribute := idAttribute;
    }
  }

  /** JavaScript truthiness of a model id: an absent or empty id is falsy. */
  predicate HasId(id: Option<string>)
    ensures !HasId(id) <==> id == None || id == Some("")
    ensures HasId(id) ==> IdText(id) != ""
  {
    id.Some? && id.value != ""
  }

  /**
   * `type || ChromeStorage.defaultType || 'local'`, where `""` stands for
   * any falsy value: the first kind given, else `'local'`.
   */
  function DefaultKind(kind: string, defaultKind: string): (k: string)
    ensures k != ""
    ensures k == kind || k == defaultKind || k == "local"
    ensures kind != "" ==> k == kind
    ensures kind == "" && defaultKind != "" ==> k == defaultKind
  {
    if kind != "" then kind else if defaultKind != "" then defaultKind else "local"
  }

  /** The store after `save` has written `records` under `name`, if that write succeeded. */
  function AfterSave(items: map<string, Value>, name: string, records: seq<string>, saveError: Option<string>)
    : (r: map<string, Value>)
    ensures saveError.Some? ==> r == items
    ensures saveError.None? ==> r.Keys == items.Keys + {name} && r[name] == Str(Join(records, Delimiter))
    ensures forall k :: k in items && k != name ==> k in r && r[k] == items[k]
  {
    if saveError.None? then items[name := Str(Join(records, Delimiter))] else items
  }

  /** The property `quota` adds to the quota object. */
  const BytesInUseKey: string := "QUOTA_BYTES_IN_USE"

  /** A local area exposes `QUOTA_BYTES` only, so its quota has that and the bytes in use. */
  lemma LocalQuota(constants: map<string, int>, inUse: nat)
    requires "QUOTA_BYTES" in constants
    requires forall k :: k in QuotaKeys && k != "QUOTA_BYTES" ==> k !in constants
    ensures PickQuota(constants)[BytesInUseKey := inUse].Keys == {"QUOTA_BYTES", BytesInUseKey}
  {
    assert PickQuota(constants).Keys == {"QUOTA_BYTES"};
  }

  /** The adapter for one collection `name`. */
  class ChromeStorage {
    const name: string
    const kind: string
    const store: Wrapper
    /** The record index; meaningful once `loaded`, `undefined` in the source before that. */
    var records: seq<string>
    var loaded: bool

    /**
     * `new ChromeStorage(name, type)` with the initial load of the index:
     * `areas` are the areas present on `chrome.storage` and `defaultKind` is
     * `ChromeStorage.defaultType`.
     */
    constructor(name: string, kind: string, defaultKind: string, areas: map<string, StorageArea>,
                loadError: Option<string>)
      requires "local" in areas
      ensures this.name == name && this.kind == DefaultKind(kind, defaultKind)
      ensures store.kind == ResolveArea(this.kind, areas.Keys) && store.storage == areas[store.kind]
      ensures loaded <==> loadError.None?
      ensures records == if loaded then ParseRecords(name, store.storage.items) else []
    {
      this.name := name;
      var k := DefaultKind(kind, defaultKind);
      this.kind := k;
      var w := new Wrapper(k, areas);
      this.store := w;
      var response := w.Get([name], loadError);
      if response.Ok? {
        assert name in response.value <==> name in w.storage.items;
        this.records := ParseRecords(name, response.value);
        this.loaded := true;
      } else {
        this.records := [];
        this.loaded := false;
      }
    }

    /** `save`: write the index text under the collection name, not waiting for the outcome. */
    method Save(saveError: Option<string>)
      modifies store.storage
      ensures store.storage.items == AfterSave(old(store.storage.items), name, records, saveError)
    {
      var index := map[name := Str(Join(records, Delimiter))];
      var written := store.Set(index, saveError);
    }

    /** `_created`: append the model's id, whether or not it is already indexed, then save. */
    method Created(model: Model, saveError: Option<string>)
      requires loaded
      modifies this`records, store.storage
      ensures records == old(records) + [IdText(model.id)]
      ensures store.storage.items == AfterSave(old(store.storage.items), name, records, saveError)
    {
      records := records + [IdText(model.id)];
      Save(saveError);
    }

    /** `_updated`: append the model's id only if it is absent, and save only then. */
    method Updated(model: Model, saveError: Option<string>)
      requires loaded
      modifies this`records, store.storage
      ensures records == Tracked(old(records), IdText(model.id))
      ensures store.storage.items
           == if IdText(model.id) in old(records) then old(store.storage.items)
              else AfterSave(old(store.storage.items), name, records, saveError)
    {
      var id := IdText(model.id);
      if id !in records {
        records := records + [id];
        Save(saveError);
      }
    }

    /** `_destroyed`: drop every index entry equal to the model's storage key, then save. */
    method Destroyed(model: Model, saveError: Option<string>)
      requires loaded
      modifies this`records, store.storage
      ensures records == Without(old(records), IdOf(name, ModelId(model.id)))
      ensures store.storage.items == AfterSave(old(store.storage.items), name, records, saveError)
    {
      records := Without(records, IdOf(name, ModelId(model.id)));
      Save(saveError);
    }

    /**
     * `create`: give a model without an id a fresh pseudo-GUID, store its
     * `payload` (its JSON text) under its key, and on success index its id.
     */
    method Create(model: Model, guidParts: seq<nat>, payload: string,
                  writeError: Option<string>, saveError: Option<string>)
      returns (r: Result<map<string, string>>)
      requires loaded
      requires ValidParts(guidParts)
      modifies model, this`records, store.storage
      ensures HasId(model.id)
      ensures model.id == if HasId(old(model.id)) then old(model.id) else Some(Guid(guidParts))
      ensures model.attributes
           == if HasId(old(model.id)) then old(model.attributes)
              else old(model.attributes)[model.idAttribute := Guid(guidParts)]
      ensures r == if writeError.Some? then Err(writeError.value) else Ok(model.attributes)
      ensures writeError.Some? ==>
                records == old(records) && store.storage.items == old(store.storage.items)
      ensures writeError.None? ==>
                && records == old(records) + [IdText(model.id)]
                && store.storage.items
                   == AfterSave(old(store.storage.items) + Wrap(name, model.id, payload), name, records, saveError)
    {
      if !HasId(model.id) {
        var g := Guid(guidParts);
        model.id := Some(g);
        model.attributes := model.attributes[model.idAttribute := g];
      }
      var written := store.Set(Wrap(name, model.id, payload), writeError);
      if written.Ok? {
        Created(model, saveError);
        r := Ok(model.attributes);
      } else {
        r := Err(written.message);
      }
    }

    /** `update`: store the model's `payload` under its key and on success make sure its id is indexed. */
    method Update(model: Model, payload: string, writeError: Option<string>, saveError: Option<string>)
      returns (r: Result<map<string, string>>)
      requires loaded
      modifies this`records, store.storage
      ensures r == if writeError.Some? then Err(writeError.value) else Ok(model.attributes)
      ensures writeError.Some? ==>
                records == old(records) && store.storage.items == old(store.storage.items)
      ensures writeError.None? ==>
                && records == Tracked(old(records), IdText(model.id))
                && store.storage.items
                   == var written := old(store.storage.items) + Wrap(name, model.id, payload);
                      if IdText(model.id) in old(records) then written
                      else AfterSave(written, name, records, saveError)
    {
      var written := store.Set(Wrap(name, model.id, payload), writeError);
      if written.Ok? {
        Updated(model, saveError);
        r := Ok(model.attributes);
      } else {
        r := Err(written.message);
      }
    }

    /** `destroy`: remove the model's key and on success run `_destroyed`. */
    method Destroy(model: Model, writeError: Option<string>, saveError: Option<string>)
      returns (r: Result<map<string, string>>)
      requires loaded
      modifies this`records, store.storage
      ensures r == if writeError.Some? then Err(writeError.value) else Ok(model.attributes)
      ensures writeError.Some? ==>
                records == old(records) && store.storage.items == old(store.storage.items)
      ensures writeError.None? ==>
                && records == Without(old(records), IdOf(name, ModelId(model.id)))
                && store.storage.items
                   == AfterSave(old(store.storage.items) - {IdOf(name, ModelId(model.id))}, name, records, saveError)
    {
      var key := IdOf(name, ModelId(model.id));
      assert (set k | k in [key]) == {key};
      var removed := store.Remove([key], writeError);
      if removed.Ok? {
        Destroyed(model, saveError);
        r := Ok(model.attributes);
      } else {
        r := Err(removed.message);
      }
    }

    /** `find`: read the model's key; the response holds the stored item if there is one. */
    method Find(model: Model, readError: Option<string>) returns (r: Result<map<string, Value>>)
      ensures readError.Some? ==> r == Err(readError.value)
      ensures readError.None? ==> r.Ok?
      ensures r.Ok? ==>
                var key := IdOf(name, ModelId(model.id));
                r.value == if key in store.storage.items then map[key := store.storage.items[key]] else map[]
    {
      var key := IdOf(name, ModelId(model.id));
      r := store.Get([key], readError);
    }

    /**
     * `findAll`: read the keys of every indexed id in one call. When that
     * read fails the returned promise never settles (`None`), because only
     * its success callback is attached.
     */
    method FindAll(readError: Option<string>) returns (r: Option<map<string, Value>>)
      requires loaded
      ensures r.Some? <==> readError.None?
      ensures r.Some? ==> forall k :: k in r.value <==> k in GetRecordIds(name, records) && k in store.storage.items
      ensures r.Some? ==> forall k :: k in r.value ==> r.value[k] == store.storage.items[k]
    {
      var keys := GetRecordIds(name, records);
      var response := store.Get(keys, readError);
      r := if response.Ok? then Some(response.value) else None;
    }

    /** `quota`: the area's quota object plus the bytes in use the platform reports. */
    method Quota(inUse: nat, lastError: Option<string>) returns (r: Result<map<string, int>>)
      ensures lastError.Some? ==> r == Err(lastError.value)
      ensures lastError.None? ==> r.Ok?
      ensures r.Ok? ==> r.value.Keys == (QuotaKeys * store.storage.constants.Keys) + {BytesInUseKey}
      ensures r.Ok? ==> r.value[BytesInUseKey] == inUse
      ensures r.Ok? ==> forall k :: k in QuotaKeys && k in store.storage.constants ==> r.value[k] == store.storage.constants[k]
    {
      var q := store.GetQuotaObject();
      var bytes := store.GetBytesInUse(inUse, lastError);
      if bytes.Ok? {
        r := Ok(q[BytesInUseKey := bytes.value]);
      } else {
        r := Err(bytes.message);
      }
    }
  }

  /** The operation `chromeSync` picks for a method name. */
  datatype Operation =
    | ReadOne | ReadAll | CreateRecord | UpdateRecord | DeleteRecord
    | UnknownMethod(message: string)

  /** The `switch` of `chromeSync`: `read` reads one model when it has an id, else the collection. */
  function Route(methodName: string, id: Option<string>): (op: Operation)
    ensures op.UnknownMethod? <==> methodName !in {"read", "create", "update", "delete"}
    ensures op.UnknownMethod? ==> op.message == "Unknown Method: \"" + methodName + "\""
    ensures op in {ReadOne, ReadAll} <==> methodName == "read"
    ensures op == ReadOne <==> methodName == "read" && id.Some?
    ensures op == CreateRecord <==> methodName == "create"
    ensures op == UpdateRecord <==> methodName == "update"
    ensures op == DeleteRecord <==> methodName == "delete"
  {
    match methodName
    case "read" => if id.Some? then ReadOne else ReadAll
    case "create" => CreateRecord
    case "update" => UpdateRecord
    case "delete" => DeleteRecord
    case _ => UnknownMethod("Unknown Method: \"" + methodName + "\"")
  }

  /** What a settled sync resolves with. */
  datatype Response = Attributes(attributes: map<string, string>) | Items(items: map<string, Value>)

  /** The state of the promise `chromeSync` returns, once the storage calls are done. */
  datatype Settlement = Resolved(response: Response) | Rejected(message: string) | Unsettled

  /**
   * `Backbone.chromeSync(method, model, options)` against the adapter
   * `store`: route the method name and run the operation it names.
   */
  method ChromeSync(methodName: string, model: Model, store: ChromeStorage, guidParts: seq<nat>, payload: string,
                    ioError: Option<string>, saveError: Option<string>)
    returns (s: Settlement)
    requires methodName in {"create", "update", "delete"} || (methodName == "read" && model.id.None?) ==> store.loaded
    requires ValidParts(guidParts)
    modifies model, store`records, store.store.storage
    ensures Route(methodName, old(model.id)).UnknownMethod? ==>
              && s == Rejected(Route(methodName, old(model.id)).message)
              && model.id == old(model.id) && model.attributes == old(model.attributes)
              && store.records == old(store.records)
              && store.store.storage.items == old(store.store.storage.items)
    ensures methodName == "read" ==>
              && model.id == old(model.id) && model.attributes == old(model.attributes)
              && store.records == old(store.records)
              && store.store.storage.items == old(store.store.storage.items)
    ensures methodName == "read" && old(model.id).None? ==> (s == Unsettled <==> ioError.Some?)
    ensures methodName in {"create", "update", "delete"} || (methodName == "read" && old(model.id).Some?) ==>
              (s.Rejected? <==> ioError.Some?) && (ioError.Some? ==> s == Rejected(ioError.value))
    ensures methodName in {"create", "update", "delete"} && ioError.Some? ==> store.records == old(store.records)
    ensures methodName == "create" && ioError.None? ==>
              store.records == old(store.records) + [IdText(model.id)]
    ensures methodName == "update" && ioError.None? ==>
              store.records == Tracked(old(store.records), IdText(model.id))
    ensures methodName == "delete" && ioError.None? ==>
              store.records == Without(old(store.records), IdOf(store.name, ModelId(model.id)))
    ensures methodName in {"create", "update", "delete"} && ioError.None? ==>
              s == Resolved(Attributes(model.attributes))
    ensures methodName == "read" && old(model.id).Some? && ioError.None? ==>
              var key := IdOf(store.name, ModelId(model.id));
              var items := store.store.storage.items;
              s == Resolved(Items(if key in items then map[key := items[key]] else map[]))
    ensures methodName == "read" && old(model.id).None? && ioError.None? ==>
              && s.Resolved? && s.response.Items?
              && (forall k :: k in s.response.items <==>
                    k in GetRecordIds(store.name, store.records) && k in store.store.storage.items)
              && (forall k :: k in s.response.items ==> s.response.items[k] == store.store.storage.items[k])
  {
    match Route(methodName, model.id)
    case ReadOne =>
      var r := store.Find(model, ioError);
      s := if r.Ok? then Resolved(Items(r.value)) else Rejected(r.message);
    case ReadAll =>
      var r := store.FindAll(ioError);
      s := if r.Some? then Resolved(Items(r.value)) else Unsettled;
    case CreateRecord =>
      var r := store.Create(model, guidParts, payload, ioError, saveError);
      s := if r.Ok? then Resolved(Attributes(r.value)) else Rejected(r.message);
    case UpdateRecord =>
      var r := store.Update(model, payload, ioError, saveError);
      s := if r.Ok? then Resolved(Attributes(r.value)) else Rejected(r.message);
    case DeleteRecord =>
      var r := store.Destroy(model, ioError, saveError);
      s := if r.Ok? then Resolved(Attributes(r.value)) else Rejected(r.message);
    case UnknownMethod(message) =>
      s := Rejected(message);
  }

  /**
   * The create test: an adapter over a cleared local area loads an empty
   * index, and one create of a model without an id gives it an id and
   * indexes exactly one record.
   */
  method CreateOnClearedStore(leftover: map<string, Value>, guidParts: seq<nat>, payload: string)
    returns (before: nat, after: nat, id: Option<string>)
    requires ValidParts(guidParts)
    ensures before == 0 && after == 1
    ensures id.Some? && |id.value| == 36
  {
    var local := new StorageArea(leftover, map["QUOTA_BYTES" := 5242880]);
    var areas := map["local" := local];
    var cleaner := new Wrapper("local", areas);
    var cleared := cleaner.Clear(None);
    var adapter := new ChromeStorage("Doctors", "local", "local", areas, None);
    ParseMissing("Doctors", local.items);
    before := |adapter.records|;
    var doctor := new Model(None, map["actor" := "William Hartnell"], "id");
    var created := adapter.Create(doctor, guidParts, payload, None, None);
    after := |adapter.records|;
    id := doctor.id;
  }
}
