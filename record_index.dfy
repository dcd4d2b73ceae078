/**
 * The pure part of the record index kept by `ChromeStorage`: the namespaced
 * storage keys `<name>-<id>`, the index text `<id>,<id>,...` stored under the
 * collection name, and the list operations its continuations apply.
 */
module RecordIndex {
  import opened Wrappers
  import opened Text
  import opened StorageApi

  /** The separator of the persisted index text. */
  const Delimiter: char := ','

  /** `''+id`: the text of a model id; an absent id prints as `undefined`. */
  function IdText(id: Option<string>): (text: string)
    ensures id.Some? ==> text == id.value
    ensures text == "undefined" <==> id == None || id == Some("undefined")
  {
    match id
    case None => "undefined"
    case Some(s) => s
  }

  /** What `_idOf` is given: an id string, or a model whose `id` it reads. */
  datatype IdSource = IdString(s: string) | ModelId(id: Option<string>)

  /** The id text a key is built from: the string itself, or `''+model.id`. */
  function SourceText(src: IdSource): string
  {
    match src
    case IdString(s) => s
    case ModelId(id) => IdText(id)
  }

  /** `_idOf`: the storage key of a record, the collection name, `-`, then the id. */
  function IdOf(name: string, src: IdSource): (key: string)
    ensures |key| > |name| && key[..|name|] == name && key[|name|] == '-'
    ensures key[|name| + 1..] == SourceText(src)
  {
    name + "-" + SourceText(src)
  }

  /** Within one collection, different ids give different keys, and no key is the index key. */
  lemma IdOfInjective(name: string, a: IdSource, b: IdSource)
    ensures IdOf(name, a) == IdOf(name, b) <==> SourceText(a) == SourceText(b)
    ensures IdOf(name, a) != name
  {
    var ka, kb := IdOf(name, a), IdOf(name, b);
    assert ka[|name| + 1..] == SourceText(a);
    assert kb[|name| + 1..] == SourceText(b);
  }

  /** `_getRecordIds`: the storage key of every indexed id, in index order. */
  function GetRecordIds(name: string, records: seq<string>): (keys: seq<string>)
    ensures |keys| == |records|
    ensures forall i :: 0 <= i < |records| ==> keys[i] == IdOf(name, IdString(records[i]))
  {
    if records == [] then []
    else [IdOf(name, IdString(records[0]))] + GetRecordIds(name, records[1..])
  }

  /** `_wrap`: the one-item object `set` is given to store a record. */
  function Wrap(name: string, id: Option<string>, payload: string): (kv: map<string, Value>)
    ensures kv.Keys == {IdOf(name, ModelId(id))}
    ensures kv[IdOf(name, ModelId(id))] == Str(payload)
    ensures name !in kv
  {
    IdOfInjective(name, ModelId(id), ModelId(id));
    map[IdOf(name, ModelId(id)) := Str(payload)]
  }

  /** The index text stored under `name`, or `""` when there is no string there. */
  function StoredIndexText(name: string, response: map<string, Value>): string
  {
    if name in response && response[name].Str? then response[name].s else ""
  }

  /**
   * `_parseRecords`: the id list read back from a `get` of the collection
   * name. The result is the one list other than `[""]`, with no element
   * holding a comma, that joins to the stored index text.
   */
  function ParseRecords(name: string, response: map<string, Value>): (records: seq<string>)
    ensures FreeOf(records, Delimiter)
    ensures records != [""]
    ensures Join(records, Delimiter) == StoredIndexText(name, response)
  {
    if name in response && response[name].Str? && response[name].s != "" then
      var s := response[name].s;
      JoinSplit(s, Delimiter);
      JoinEmpty(Split(s, Delimiter), Delimiter);
      Split(s, Delimiter)
    else
      []
  }

  /** Two comma-free lists, neither `[""]`, with the same index text are equal. */
  lemma JoinInjective(xs: seq<string>, ys: seq<string>)
    requires FreeOf(xs, Delimiter) && FreeOf(ys, Delimiter)
    requires xs != [""] && ys != [""]
    requires Join(xs, Delimiter) == Join(ys, Delimiter)
    ensures xs == ys
  {
    JoinEmpty(xs, Delimiter);
    JoinEmpty(ys, Delimiter);
    if xs != [] {
      SplitJoin(xs, Delimiter);
      SplitJoin(ys, Delimiter);
    }
  }

  /**
   * Reading back what `save` wrote: a list whose ids hold no comma comes back
   * unchanged, except that `[""]`, saved as the empty text, comes back as `[]`.
   */
  lemma {:induction false} SaveThenParse(name: string, items: map<string, Value>, records: seq<string>)
    requires FreeOf(records, Delimiter)
    ensures ParseRecords(name, items[name := Str(Join(records, Delimiter))])
         == if records == [""] then [] else records
  {
    var parsed := ParseRecords(name, items[name := Str(Join(records, Delimiter))]);
    if records == [""] {
      JoinEmpty(parsed, Delimiter);
    } else {
      JoinInjective(parsed, records);
    }
  }

  /** Nothing stored under `name` (or nothing that is a non-empty string) reads back as `[]`. */
  lemma ParseMissing(name: string, response: map<string, Value>)
    requires name !in response || !response[name].Str? || response[name].s == ""
    ensures ParseRecords(name, response) == []
  {
    JoinEmpty(ParseRecords(name, response), Delimiter);
  }

  /** `_.without(s, x)`: `s` with every element equal to `x` dropped. */
  function Without(s: seq<string>, x: string): (r: seq<string>)
    ensures multiset(r) == multiset(s)[x := 0]
  {
    if s == [] then []
    else
      assert s == [s[0]] + s[1..];
      if s[0] == x then Without(s[1..], x) else [s[0]] + Without(s[1..], x)
  }

  /** `_.without` keeps the survivors in their order: it distributes over concatenation. */
  lemma {:induction false} WithoutConcat(a: seq<string>, b: seq<string>, x: string)
    ensures Without(a + b, x) == Without(a, x) + Without(b, x)
  {
    if a != [] {
      assert (a + b)[1..] == a[1..] + b;
      WithoutConcat(a[1..], b, x);
    } else {
      assert a + b == b;
    }
  }

  /** Removing an element that is not there leaves the list as it is. */
  lemma {:induction false} WithoutAbsent(s: seq<string>, x: string)
    ensures Without(s, x) == s <==> x !in s
  {
    if x !in s && s != [] {
      WithoutAbsent(s[1..], x);
      assert [s[0]] + s[1..] == s;
    }
    if x in s {
      assert x !in multiset(Without(s, x));
    }
  }

  /** The index holds every id at most once. */
  predicate NoDuplicates(s: seq<string>)
  {
    forall i, j :: 0 <= i < j < |s| ==> s[i] != s[j]
  }

  /** The list `ensureTracked` leaves: `id` appended unless it is already present. */
  function Tracked(records: seq<string>, id: string): (r: seq<string>)
    ensures id in r
    ensures r == records <==> id in records
    ensures |records| <= |r| && r[..|records|] == records
    ensures |r| <= |records| + 1
  {
    if id in records then records else records + [id]
  }

  /** Tracking an id twice is tracking it once. */
  lemma TrackedIdempotent(records: seq<string>, id: string)
    ensures Tracked(Tracked(records, id), id) == Tracked(records, id)
  {
  }

  /** Appending keeps the index free of duplicates exactly when the id is new. */
  lemma AppendNoDuplicates(records: seq<string>, id: string)
    requires NoDuplicates(records)
    ensures NoDuplicates(records + [id]) <==> id !in records
  {
    if id in records {
      var i :| 0 <= i < |records| && records[i] == id;
      assert (records + [id])[i] == (records + [id])[|records|];
    }
  }

  /** `Tracked` keeps the index free of duplicates. */
  lemma TrackedNoDuplicates(records: seq<string>, id: string)
    requires NoDuplicates(records)
    ensures NoDuplicates(Tracked(records, id))
  {
    if id !in records {
      AppendNoDuplicates(records, id);
    }
  }

  /** `_.without` keeps the index free of duplicates. */
  lemma {:induction false} WithoutNoDuplicates(s: seq<string>, x: string)
    requires NoDuplicates(s)
    ensures NoDuplicates(Without(s, x))
  {
    if s != [] {
      WithoutNoDuplicates(s[1..], x);
      var rest := Without(s[1..], x);
      if s[0] != x {
        assert s[0] !in s[1..] by {
          forall j | 1 <= j < |s| ensures s[j] != s[0] { }
        }
        assert multiset(rest)[s[0]] == 0;
        forall i, j | 0 <= i < j < |[s[0]] + rest|
          ensures ([s[0]] + rest)[i] != ([s[0]] + rest)[j]
        {
          if i == 0 {
            assert ([s[0]] + rest)[j] == rest[j - 1];
          }
        }
      }
    }
  }

  /**
   * `_destroyed` filters by the storage key `<name>-<id>`, not by the id, so
   * destroying a record never drops that record's own id from the index.
   */
  lemma DestroyKeepsOwnId(name: string, records: seq<string>, id: string)
    requires id in records
    ensures id in Without(records, IdOf(name, ModelId(Some(id))))
  {
    assert |IdOf(name, ModelId(Some(id)))| > |id|;
    assert id in multiset(records);
  }
}
