/**
 * The settings store of lib/Config.js: a `Conf` store validated by a schema
 * with two settings, the API key and the map of export items shown as checked
 * by default. The persisted file is the constructor's argument.
 */
module Configuration {
  import opened Wrappers
  import opened JsonValues

  const ApiKeySetting: string := "apiKey"
  const ExportItemsSetting: string := "exportItems"

  /** The schema's default for `exportItems`, in declaration order. */
  function DefaultExportItems(): seq<(string, Json)> {
    [ ("position", Bool(true)),
      ("title", Bool(true)),
      ("uploader", Bool(true)),
      ("uploaderUrl", Bool(false)),
      ("description", Bool(false)),
      ("url", Bool(true)) ]
  }

  /** Every setting at its schema default: what `conf.clear()` leaves. */
  function SchemaDefaults(): map<string, Json> {
    map[ApiKeySetting := Str(""), ExportItemsSetting := Obj(DefaultExportItems())]
  }

  /**
   * A store as `Conf` keeps it: the schema is checked with its defaults filled
   * in whenever the store is read or written, so the API key is present as a
   * string and the export items as an object with distinct keys.
   */
  predicate Conforms(store: map<string, Json>) {
    && ApiKeySetting in store
    && store[ApiKeySetting].Str?
    && ExportItemsSetting in store
    && store[ExportItemsSetting].Obj?
    && DistinctKeys(store[ExportItemsSetting].fields)
  }

  /** A persisted file the schema accepts once the defaults are filled in. */
  predicate ConformingFile(persisted: map<string, Json>) {
    && (ApiKeySetting in persisted ==> persisted[ApiKeySetting].Str?)
    && (ExportItemsSetting in persisted ==>
          persisted[ExportItemsSetting].Obj? && DistinctKeys(persisted[ExportItemsSetting].fields))
  }

  lemma DefaultsConform()
    ensures Conforms(SchemaDefaults())
  {
    assert SchemaDefaults()[ExportItemsSetting] == Obj(DefaultExportItems());
  }

  /** The keys whose value is truthy, in the object's key order: the `for ... in` loop's result. */
  function TrueKeys(fields: seq<(string, Json)>): seq<string>
    decreases |fields|
  {
    if |fields| == 0 then []
    else
      var last := fields[|fields| - 1];
      TrueKeys(fields[..|fields| - 1]) + (if Truthy(last.1) then [last.0] else [])
  }

  /** The selection keeps the key order: the keys of a prefix come before those of the rest. */
  lemma {:induction false} TrueKeysAppend(a: seq<(string, Json)>, b: seq<(string, Json)>)
    ensures TrueKeys(a + b) == TrueKeys(a) + TrueKeys(b)
    decreases |b|
  {
    if |b| == 0 {
      assert a + b == a;
    } else {
      var ab := a + b;
      assert ab[..|ab| - 1] == a + b[..|b| - 1];
      assert ab[|ab| - 1] == b[|b| - 1];
      TrueKeysAppend(a, b[..|b| - 1]);
    }
  }

  /** A key is selected exactly when some field with that key holds a truthy value. */
  lemma {:induction false} TrueKeysMembers(fields: seq<(string, Json)>, key: string)
    ensures key in TrueKeys(fields) <==> exists i :: 0 <= i < |fields| && fields[i].0 == key && Truthy(fields[i].1)
    decreases |fields|
  {
    if |fields| > 0 {
      var init := fields[..|fields| - 1];
      TrueKeysMembers(init, key);
      if exists i :: 0 <= i < |init| && init[i].0 == key && Truthy(init[i].1) {
        var i :| 0 <= i < |init| && init[i].0 == key && Truthy(init[i].1);
        assert fields[i] == init[i];
      }
      if exists i :: 0 <= i < |fields| && fields[i].0 == key && Truthy(fields[i].1) {
        var i :| 0 <= i < |fields| && fields[i].0 == key && Truthy(fields[i].1);
        if i < |init| {
          assert init[i] == fields[i];
        }
      }
    }
  }

  /** With distinct keys, a key is selected exactly when `exportItems[key]` is truthy. */
  lemma TrueKeysAreTheTruthyOnes(fields: seq<(string, Json)>, key: string)
    requires DistinctKeys(fields)
    ensures key in TrueKeys(fields) <==> TruthyOrUndefined(Lookup(fields, key))
  {
    TrueKeysMembers(fields, key);
    LookupSpec(fields, key);
    if key in TrueKeys(fields) {
      var i :| 0 <= i < |fields| && fields[i].0 == key && Truthy(fields[i].1);
      var j :| 0 <= j < |fields| && fields[j] == (key, Lookup(fields, key).value);
      assert i == j;
    }
  }

  /** Every selected key is one of the object's keys. */
  lemma TrueKeysSubset(fields: seq<(string, Json)>)
    ensures forall k :: k in TrueKeys(fields) ==> k in Keys(fields)
  {
    forall k | k in TrueKeys(fields) ensures k in Keys(fields) {
      TrueKeysMembers(fields, k);
      var i :| 0 <= i < |fields| && fields[i].0 == k && Truthy(fields[i].1);
      assert Keys(fields)[i] == k;
    }
  }

  /** No key is selected twice when the object's keys are distinct. */
  lemma {:induction false} TrueKeysDistinct(fields: seq<(string, Json)>)
    requires DistinctKeys(fields)
    ensures Distinct(TrueKeys(fields))
    decreases |fields|
  {
    if |fields| > 0 {
      var init := fields[..|fields| - 1];
      var last := fields[|fields| - 1];
      TrueKeysDistinct(init);
      if Truthy(last.1) {
        TrueKeysMembers(init, last.0);
        var r := TrueKeys(fields);
        assert r == TrueKeys(init) + [last.0];
        assert last.0 !in TrueKeys(init) by {
          forall i | 0 <= i < |init| ensures init[i].0 != last.0 {
            assert init[i] == fields[i];
          }
        }
      }
    }
  }

  /** Extending the object by one field adds its key when the value is truthy. */
  lemma TrueKeysStep(fields: seq<(string, Json)>, k: nat)
    requires k < |fields|
    ensures TrueKeys(fields[..k + 1]) == TrueKeys(fields[..k]) + (if Truthy(fields[k].1) then [fields[k].0] else [])
  {
    assert fields[..k + 1][..k] == fields[..k];
  }

  lemma DefaultsSelectFourItems()
    ensures TrueKeys(DefaultExportItems()) == ["position", "title", "uploader", "url"]
  {
    var d := DefaultExportItems();
    assert d[..0] == [];
    TrueKeysStep(d, 0);
    TrueKeysStep(d, 1);
    TrueKeysStep(d, 2);
    TrueKeysStep(d, 3);
    TrueKeysStep(d, 4);
    TrueKeysStep(d, 5);
    assert d[..6] == d;
  }

  class Config {
    /** The `Conf` store's contents. */
    var store: map<string, Json>

    ghost predicate Valid()
      reads this
    {
      Conforms(store)
    }

    /** `new Config()`: `Conf` fills every setting the file lacks with its schema default. */
    constructor (persisted: map<string, Json>)
      requires ConformingFile(persisted)
      ensures Valid()
      ensures store == SchemaDefaults() + persisted
    {
      var merged := SchemaDefaults() + persisted;
      assert ExportItemsSetting in persisted ==> merged[ExportItemsSetting] == persisted[ExportItemsSetting];
      assert ExportItemsSetting !in persisted ==> merged[ExportItemsSetting] == Obj(DefaultExportItems());
      store := merged;
    }

    /** `conf.get(key)`: the stored value, or `undefined`. */
    function Get(key: string): (v: Option<Json>)
      reads this
      ensures v.Some? <==> key in store
      ensures v.Some? ==> v.value == store[key]
    {
      if key in store then Some(store[key]) else None
    }

    /** The `apiKey` getter: the stored key, which the schema default keeps from being `undefined`. */
    function ApiKey(): (key: string)
      reads this
      requires Valid()
      ensures Get(ApiKeySetting) == Some(Str(key))
    {
      store[ApiKeySetting].s
    }

    /** The `apiKey` setter: only the key changes. */
    method SetApiKey(newKey: string)
      requires Valid()
      modifies this
      ensures Valid()
      ensures store == old(store)[ApiKeySetting := Str(newKey)]
      ensures ApiKey() == newKey
      ensures store[ExportItemsSetting] == old(store)[ExportItemsSetting]
    {
      store := store[ApiKeySetting := Str(newKey)];
    }

    /**
     * `removeApiKey()`: `conf.delete` drops the key, and `Conf`, validating the
     * store it writes back with the schema's defaults filled in, restores the
     * default "". Every other setting stays.
     */
    method RemoveApiKey()
      requires Valid()
      modifies this
      ensures Valid()
      ensures store == old(store)[ApiKeySetting := SchemaDefaults()[ApiKeySetting]]
      ensures ApiKey() == ""
      ensures forall k :: k != ApiKeySetting ==> Get(k) == old(Get(k))
    {
      var deleted := store - {ApiKeySetting};
      store := deleted[ApiKeySetting := SchemaDefaults()[ApiKeySetting]];
    }

    /** `resetAll()`: `conf.clear()` puts every setting back to its schema default. */
    method ResetAll()
      modifies this
      ensures Valid()
      ensures store == SchemaDefaults()
      ensures ApiKey() == ""
      ensures store[ExportItemsSetting] == Obj(DefaultExportItems())
    {
      store := SchemaDefaults();
      DefaultsConform();
    }

    /** `getExportItemsDefaults()`: the export items whose stored value is truthy, in stored order. */
    method GetExportItemsDefaults() returns (result: seq<string>)
      requires Valid()
      ensures result == TrueKeys(store[ExportItemsSetting].fields)
      ensures Distinct(result)
    {
      var exportItems := store[ExportItemsSetting].fields;
      result := [];
      for i := 0 to |exportItems|
        invariant result == TrueKeys(exportItems[..i])
      {
        assert exportItems[..i + 1][..i] == exportItems[..i];
        if Truthy(exportItems[i].1) {
          result := result + [exportItems[i].0];
        }
      }
      assert exportItems[..|exportItems|] == exportItems;
      TrueKeysDistinct(exportItems);
    }
  }
}
