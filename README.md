# Backbone.ChromeStorage in Dafny

Backbone.ChromeStorage is a persistence adapter for Backbone models and
collections that keeps records in a browser extension's `chrome.storage`
area. Each record is stored as JSON text under the key `<name>-<id>`, where
`name` is the collection name. The collection's ordered list of ids (the
record index, `records`) is stored as comma-joined text under the key
`<name>`. This project models that adapter:

- `ChromeStorage.Wrapper`: the promise-returning facade over one storage area (area-kind defaulting, `get`, `set`, `remove`, `clear`, `getBytesInUse`, `getQuotaObject`).
- `ChromeStorage`: the adapter. It covers the constructor and its initial load of the index, `create`, `update` and `destroy`, their index continuations `_created`, `_updated` and `_destroyed`, `save`, `find`, `findAll` and `quota`.
- The pure key helpers `_idOf`, `_getRecordIds`, `_wrap` and `_parseRecords`, plus the `_guid` id generator.
- `Backbone.chromeSync`: routes a method name to an adapter operation.

Modules: `Wrappers` (result types), `Text` (`split` and `join`), `Guids`
(`_S4`, `_guid`), `StorageApi` (storage area and `Wrapper`), `RecordIndex`
(the pure index helpers) and `Adapter` (the `ChromeStorage` class and
`chromeSync`).

Every asynchronous `chrome.storage` call is modelled as one synchronous
step. Whether the platform reports an error in `chrome.runtime.lastError` is
a parameter of that step (`None` means success). The step resolves with
`Ok` or rejects with `Err(message)`, which is how `_csResponse` settles its
deferred. The index continuations run only after a successful record write,
because they are attached with `done`. The index write that `save` issues is
never awaited, so it has its own error parameter (`saveError`) and its
outcome is not reported to anyone. Other outside inputs are parameters too:
the random numbers behind `_guid` (`guidParts`), the JSON text of a model
(`payload`), the byte count `getBytesInUse` reports (`inUse`), the areas
present on `chrome.storage` (`areas`) and `ChromeStorage.defaultType`
(`defaultKind`).

Two behaviours are modelled exactly as written:

- `_created` appends the id even if it is already indexed.
- `_destroyed` removes entries equal to the storage key `<name>-<id>`, not entries equal to the id. `RecordIndex.DestroyKeepsOwnId` proves the consequence: destroying a record never removes its own id from the index.

The save/load round trip has two exceptions. First, the index `[""]` is
saved as the empty text, and `_parseRecords` treats empty text as "no index",
so it reads back as `[]`. Second, an id that contains a comma is split apart
on reading: `["a,b"]` is saved as `a,b` and reads back as `["a", "b"]`.
`RecordIndex.SaveThenParse` states the round trip for comma-free ids with the
`[""]` exception, and `Text.SplitJoin` states that any list with a comma in an
element does not survive it.

## Model

| member | source | states |
|---|---|---|
| `Text.Split` | backbone.chromestorage.js:303 | `split(',')` yields at least one piece and no piece contains the separator |
| `Text.Join` | backbone.chromestorage.js:264 | `join(',')` starts with the first element, and when there are two or more elements the separator follows it |
| `Text.SplitJoin` | backbone.chromestorage.js:264 | splitting joined text gives back the list exactly when the list is non-empty and no element contains the separator (both directions) |
| `Text.JoinSplit` | backbone.chromestorage.js:303 | joining the pieces of a split gives back the original text, for every string |
| `Text.JoinEmpty` | backbone.chromestorage.js:264 | the joined text is empty exactly for `[]` and `[""]` |
| `RecordIndex.IdText` | backbone.chromestorage.js:167 | `''+model.id` (also line 177) is the id itself when there is one; the text is `undefined` exactly for an absent id or the id `"undefined"`, so those two index entries collide |
| `Guids.ToHex` | backbone.chromestorage.js:144 | `toString(16)` yields at least one digit, all lower-case hexadecimal |
| `Guids.HexRoundTrip` | backbone.chromestorage.js:144 | reading the hexadecimal text back gives the number it was made from |
| `Guids.FiveHexDigits` | backbone.chromestorage.js:144 | for `0x10000 + n` with `n < 0x10000`, the hex text has five digits and starts with `1` |
| `Guids.S4` | backbone.chromestorage.js:143-145 | `_S4` yields exactly four hexadecimal digits |
| `Guids.S4Value` | backbone.chromestorage.js:143-145 | the four digits of `_S4` spell the random number it was given (so leading zeros are kept) |
| `Guids.Guid` | backbone.chromestorage.js:149-151 | `_guid` is 36 characters long, with hyphens at positions 8, 13, 18 and 23 and hexadecimal digits everywhere else |
| `StorageApi.ResolveArea` | backbone.chromestorage.js:13-19 | the wrapper's kind is always an existing area; it is the given kind when that is non-empty and exists, and `'local'` otherwise |
| `StorageApi.PickQuota` | backbone.chromestorage.js:96-103 | the keys are exactly those of the five quota names that the area has, and their values are copied unchanged |
| `StorageApi.Wrapper.constructor` | backbone.chromestorage.js:13-23 | the wrapper's kind is the resolved kind and its storage is that area |
| `StorageApi.Wrapper.Get` | backbone.chromestorage.js:33-43 | rejects with the platform's message on error; otherwise resolves with exactly the requested keys that are stored, with their stored values |
| `StorageApi.Wrapper.Set` | backbone.chromestorage.js:67-77 | on success every given item is stored, replacing old values; on error the area is unchanged and the call rejects |
| `StorageApi.Wrapper.Remove` | backbone.chromestorage.js:67-77 | on success the given keys are gone and nothing else changes; on error the area is unchanged |
| `StorageApi.Wrapper.Clear` | backbone.chromestorage.js:51-62 | on success the area is empty; on error it is unchanged |
| `StorageApi.Wrapper.GetBytesInUse` | backbone.chromestorage.js:51-62 | resolves with the reported byte count, or rejects with the platform's message |
| `StorageApi.Wrapper.GetQuotaObject` | backbone.chromestorage.js:96-103 | the keys are exactly the quota names the area has, each with the area's value |
| `RecordIndex.IdOf` | backbone.chromestorage.js:281-283 | the key is the collection name, then `-`, then the id text (the model's id, or the id string itself) |
| `RecordIndex.IdOfInjective` | backbone.chromestorage.js:281-283 | in one collection, two keys are equal exactly when their id texts are; a model and its id string give the same key; no record key equals the index key `name` |
| `RecordIndex.GetRecordIds` | backbone.chromestorage.js:272-274 | same length as `records`, and the i-th key is `_idOf` of the i-th id |
| `RecordIndex.Wrap` | backbone.chromestorage.js:288-294 | the object has exactly one key, `_idOf(model)`, which holds the model's JSON text, and never the index key |
| `RecordIndex.ParseRecords` | backbone.chromestorage.js:301-306 | the result has no comma in any id, is never `[""]`, and joins back to the stored index text (empty when the key is missing or not a string) |
| `RecordIndex.JoinInjective` | backbone.chromestorage.js:301-306 | two comma-free lists, neither `[""]`, with the same joined text are equal, so the result of `_parseRecords` is uniquely determined |
| `RecordIndex.SaveThenParse` | backbone.chromestorage.js:261-267 | what `save` writes reads back through `_parseRecords` as the same list when no id contains a comma, except that `[""]` reads back as `[]` |
| `RecordIndex.ParseMissing` | backbone.chromestorage.js:301-306 | a missing key, a non-string value or the empty string parses to `[]` |
| `RecordIndex.Without` | backbone.chromestorage.js:225 | the result holds every element except `x`, with the same multiplicities |
| `RecordIndex.WithoutConcat` | backbone.chromestorage.js:225 | removal distributes over concatenation, so the remaining elements keep their relative order |
| `RecordIndex.WithoutAbsent` | backbone.chromestorage.js:225 | the list is unchanged exactly when it does not contain the removed element |
| `RecordIndex.DestroyKeepsOwnId` | backbone.chromestorage.js:224-227 | destroying a record never removes its own raw id from the index, because the filter uses the `<name>-<id>` key |
| `RecordIndex.Tracked` | backbone.chromestorage.js:176-183 | after `_updated` the id is in the index; the index is unchanged exactly when the id was already there; the old index is a prefix of the new one, which has at most one entry more |
| `RecordIndex.TrackedIdempotent` | backbone.chromestorage.js:176-183 | applying `_updated`'s change twice has the same effect as applying it once |
| `RecordIndex.AppendNoDuplicates` | backbone.chromestorage.js:166-169 | `_created`'s append keeps the index duplicate-free exactly when the id was not indexed yet |
| `RecordIndex.TrackedNoDuplicates` | backbone.chromestorage.js:176-183 | `_updated` keeps the index duplicate-free |
| `RecordIndex.WithoutNoDuplicates` | backbone.chromestorage.js:224-227 | `_destroyed` keeps the index duplicate-free |
| `Adapter.HasId` | backbone.chromestorage.js:158 | `!model.id` holds exactly for an absent id and the empty id; a model that has an id has a non-empty id text |
| `Adapter.AfterSave` | backbone.chromestorage.js:261-267 | on a failed write the area is unchanged; on success it gains the index key holding `records.join(',')`, and every other key keeps its value |
| `Adapter.DefaultKind` | backbone.chromestorage.js:113 | the adapter's kind is never empty; it is the given kind, else the default kind, else `'local'` |
| `Adapter.LocalQuota` | backbone.chromestorage.js:231-255 | for an area with `QUOTA_BYTES` and none of the other four quota names, the quota has exactly `QUOTA_BYTES` and `QUOTA_BYTES_IN_USE` |
| `Adapter.ChromeStorage.constructor` | backbone.chromestorage.js:109-121 | sets the name and the defaulted kind, opens the resolved area, and on a successful load sets `records` to the parsed index |
| `Adapter.ChromeStorage.Save` | backbone.chromestorage.js:261-267 | on success the index key holds `records.join(',')` and nothing else changes; on failure the store is unchanged |
| `Adapter.ChromeStorage.Created` | backbone.chromestorage.js:166-169 | `records` grows by exactly one, its last element is the model's id text, and the index is saved |
| `Adapter.ChromeStorage.Updated` | backbone.chromestorage.js:176-183 | an indexed id leaves `records` and the store untouched, with no save; a new id is appended once and saved |
| `Adapter.ChromeStorage.Destroyed` | backbone.chromestorage.js:224-227 | `records` loses every element equal to `_idOf(model)`, and the index is always saved |
| `Adapter.ChromeStorage.Create` | backbone.chromestorage.js:157-164 | a model without an id gets a pseudo-GUID (in its `id` and its id attribute) before the write; a failed write leaves `records` and the store untouched and rejects; a successful one stores the payload under its key, appends the id and resolves with the model's attributes |
| `Adapter.ChromeStorage.Update` | backbone.chromestorage.js:172-174 | never assigns an id; on success stores the payload and tracks the id; on failure changes nothing and rejects |
| `Adapter.ChromeStorage.Destroy` | backbone.chromestorage.js:218-222 | on success removes the record's key and runs `_destroyed`; on failure changes nothing and rejects |
| `Adapter.ChromeStorage.Find` | backbone.chromestorage.js:186-188 | resolves with the stored item under the model's key, or with nothing if it is missing; rejects on error |
| `Adapter.ChromeStorage.FindAll` | backbone.chromestorage.js:195-211 | resolves with exactly the indexed keys that are stored, with their values; on a read error the promise never settles |
| `Adapter.ChromeStorage.Quota` | backbone.chromestorage.js:247-255 | resolves with the area's quota properties plus `QUOTA_BYTES_IN_USE` set to the reported bytes; rejects on error |
| `Adapter.Route` | backbone.chromestorage.js:322-339 | any name other than read, create, update and delete is an unknown method with the message `Unknown Method: "<method>"`; `read` goes to find when the model has an id and to findAll otherwise; `create`, `update` and `delete` each go to their own operation and only they do |
| `Adapter.ChromeSync` | backbone.chromestorage.js:316-351 | an unknown method rejects with its message and touches neither storage nor the index; reads change nothing; create, update and delete reject on a storage error and otherwise change the index as `_created`, `_updated` and `_destroyed` do and resolve with the model's attributes; a read with an id resolves with the stored item under the model's key, and a read without one with exactly the indexed keys that are stored; only create, update, delete and findAll need the index to be loaded |
| `Adapter.CreateOnClearedStore` | test-extension/spec/ChromeStorageSpec.js:45-65 | on a cleared area the loaded index has length 0, and after one create of a model without an id it has length 1 and the model has a 36-character id |

## Left out

- The `chrome.storage` calls and `chrome.runtime.lastError` are foreign I/O. The storage area is a class holding a map, and each call's error is a parameter.
- `$.Deferred`, `pipe` and `$.when`: every operation runs to completion in one step, so concurrent operations interleaving their continuations, and the race of `loaded` against `findAll`, are not modelled. The constructor performs the initial load itself.
- Adapter.ChromeStorage.Create, Adapter.ChromeStorage.Update, Adapter.ChromeStorage.Destroy: these require `loaded`, and so do `Created`, `Updated`, `Destroyed` and `FindAll`. Before the load settles, or after it fails, `records` is `undefined` in `backbone.chromestorage.js`: `_created` and `_updated` would then throw, and `_destroyed` would reset the index to `[]`. Those paths are not modelled.
- `JSON.stringify` and `JSON.parse` are library serialisation. A record's JSON text is an opaque `payload` parameter. `_found` and `_foundAll` are not modelled, so `find` and `findAll` resolve with the raw `get` response.
- `find` passes `_wrap(model)` to `get` as a defaults object. The semantics of that argument belong to the chrome API, so `find` is modelled as a plain read of the model's key.
- `_S4` uses the float expression `(1 + Math.random()) * 0x10000 | 0`. It is replaced by the integer `0x10000 + n`, where `n < 0x10000` is a parameter.
- `console.warn` logging.
- `Backbone.sync`, `Backbone.ajaxSync` and `Backbone.getSyncMethod` are framework glue. In `chromeSync`, the lookup of the adapter through `model.chromeStorage || model.collection.chromeStorage` is replaced by an adapter parameter.
- The `success` and `error` callback registration in `chromeSync` (lines 341-348) is not modelled, including line 348 registering `options.error` where the extra `error` argument was evidently meant.
- `wantsJSON`: a resolved create, update or destroy carries the model's attribute map, which stands for `model.toJSON()`.
- Model ids are strings or absent (`undefined`). Non-string ids, such as numbers, are not modelled.
- `chrome.storage` properties that are truthy but are not storage areas (such as `onChanged`) are not modelled: `areas` holds storage areas only.
- `_.bindAll(this)`: the model treats every adapter method as bound to its adapter, as `_.bindAll` makes it. That binding is what lets `pipe(this._parseRecords)` (line 117) and `this.records.map(this._idOf)` (line 273) run with the adapter as `this`.
- `Adapter.ChromeSync`: for create, update and delete it states the effect on the index, the resolved value and the rejection; the resulting storage contents are those stated by `Adapter.ChromeStorage.Create`, `Update` and `Destroy`, which it calls.
