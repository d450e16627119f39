/**
 * `utils/jsonataGenerator`: dumps a Tauri store file as `{ store, timestamp,
 * data }`, where every value that is JSON text is parsed and any other value
 * is kept raw, and reshapes a dump into the `{ key, value }` list a JSONata
 * query reads. Timestamps are parameters; the plugin's listing of a store's
 * entries is a parameter, and so is `JSON.parse` applied to a stored value.
 */
module StoreDump {
  import opened Js
  import opened JsObject

  /** A value of the dump: the parsed JSON, or the stored value itself when it does not parse. */
  datatype DumpValue<V, J> = Parsed(json: J) | Raw(value: V)

  datatype StoreData<V, J> = StoreData(store: string, timestamp: string, data: Obj<DumpValue<V, J>>)

  datatype KeyValue<V, J> = KeyValue(key: string, value: DumpValue<V, J>)

  /** What `generateAllStoreData` resolves to: its own timestamp and the three dumps. */
  datatype AllStoreData<V, J> = AllStoreData(timestamp: string, stores: seq<StoreData<V, J>>)

  datatype JsonataData<V, J> = JsonataData(store: string, timestamp: string, entries: seq<KeyValue<V, J>>)

  /** The stores `generateAllStoreData` dumps, in order. */
  const StoreNames := ["profiles", "users", "organizations"]

  /** The `TypeError` of calling the adapter's missing `entries` member. */
  const EntriesNotAFunction := "store.entries is not a function"

  /** The `try { JSON.parse(value) } catch { value }` of one entry. */
  function Decode<V, J>(v: V, parse: V -> Result<J, Exn>): (d: DumpValue<V, J>)
    ensures parse(v).Success? ==> d == Parsed(parse(v).value)
    ensures parse(v).Failure? ==> d == Raw(v)
  {
    match parse(v)
    case Success(j) => Parsed(j)
    case Failure(_) => Raw(v)
  }

  /** The entries with every value decoded. */
  function Decoded<V, J>(es: seq<(string, V)>, parse: V -> Result<J, Exn>): (ds: seq<(string, DumpValue<V, J>)>)
    ensures |ds| == |es|
    ensures forall i :: 0 <= i < |es| ==> ds[i] == (es[i].0, Decode(es[i].1, parse))
  {
    seq(|es|, i requires 0 <= i < |es| => (es[i].0, Decode(es[i].1, parse)))
  }

  /** Decoding one more entry appends its decoded pair. */
  lemma DecodedNext<V, J>(es: seq<(string, V)>, i: nat, parse: V -> Result<J, Exn>)
    requires i < |es|
    ensures Decoded(es[..i + 1], parse) == Decoded(es[..i], parse) + [(es[i].0, Decode(es[i].1, parse))]
  {
    var a := Decoded(es[..i + 1], parse);
    var b := Decoded(es[..i], parse) + [(es[i].0, Decode(es[i].1, parse))];
    forall j | 0 <= j <= i ensures a[j] == b[j] {
      assert es[..i + 1][j] == es[j];
    }
  }

  /**
   * `generateStoreData(storeName)` as written: once the store has loaded, it
   * calls `store.entries()`, which the adapter returned by `useTauriStoreLoad`
   * does not have, so the call rejects with a `TypeError` whatever the store
   * holds.
   */
  function GenerateStoreDataAsWritten<V, J>(storeName: string, loaded: Result<seq<(string, V)>, Exn>): (r: Result<StoreData<V, J>, Exn>)
    ensures loaded.Failure? ==> r == Failure(loaded.error)
  {
    match loaded
    case Failure(e) => Failure(e)
    case Success(_) => Failure(Error(EntriesNotAFunction))
  }

  /** No store can be dumped. */
  lemma GenerateStoreDataAsWrittenNeverSucceeds<V, J>(storeName: string, loaded: Result<seq<(string, V)>, Exn>)
    ensures GenerateStoreDataAsWritten<V, J>(storeName, loaded).Failure?
    ensures loaded.Success? ==> GenerateStoreDataAsWritten<V, J>(storeName, loaded).error == Error(EntriesNotAFunction)
  {
  }

  /**
   * `generateStoreData(storeName)` reading the entries from the plugin's own
   * listing (`loaded` fails when loading or listing the store fails; the
   * failure is rethrown). The reduce writes each decoded value under its key.
   */
  method GenerateStoreData<V, J>(storeName: string, timestamp: string, loaded: Result<seq<(string, V)>, Exn>,
                                 parse: V -> Result<J, Exn>) returns (r: Result<StoreData<V, J>, Exn>)
    ensures loaded.Failure? ==> r == Failure(loaded.error)
    ensures loaded.Success? ==>
      r == Success(StoreData(storeName, timestamp, FromEntries(Decoded(loaded.value, parse))))
  {
    if loaded.Failure? {
      return Failure(loaded.error);
    }
    var entries := loaded.value;
    var acc: Obj<DumpValue<V, J>> := Empty();
    var i := 0;
    while i < |entries|
      invariant 0 <= i <= |entries|
      invariant acc.Valid() && acc == FromEntries(Decoded(entries[..i], parse))
    {
      var (key, value) := entries[i];
      acc := Put(acc, key, Decode(value, parse));
      DecodedNext(entries, i, parse);
      FromEntriesSnoc(Decoded(entries[..i], parse), key, Decode(value, parse));
      i := i + 1;
    }
    assert entries[..i] == entries;
    r := Success(StoreData(storeName, timestamp, acc));
  }

  /**
   * The dump of a store lists each stored key once, in the plugin's order,
   * with the parsed value when the stored value parses and the raw value
   * otherwise.
   */
  lemma DumpLists<V, J>(es: seq<(string, V)>, parse: V -> Result<J, Exn>)
    requires DistinctKeys(es)
    ensures var data := FromEntries(Decoded(es, parse));
      && data.keys == seq(|es|, i requires 0 <= i < |es| => es[i].0)
      && forall i :: 0 <= i < |es| ==> data.values[es[i].0] == Decode(es[i].1, parse)
  {
    var ds := Decoded(es, parse);
    assert DistinctKeys(ds) by {
      forall i, j | 0 <= i < j < |ds| ensures ds[i].0 != ds[j].0 {
        assert ds[i].0 == es[i].0 && ds[j].0 == es[j].0;
      }
    }
    EntriesOfFromEntries(ds);
    var data := FromEntries(ds);
    var es' := Entries(data);
    assert |data.keys| == |es|;
    forall i | 0 <= i < |es| ensures data.keys[i] == es[i].0 && data.values[es[i].0] == Decode(es[i].1, parse) {
      assert es'[i] == ds[i];
    }
  }

  /** `convertToJsonata(data)`: one `{ key, value }` per key of the dump, in key order. */
  function ConvertToJsonata<V, J>(d: StoreData<V, J>): (j: JsonataData<V, J>)
    requires d.data.Valid()
    ensures j.store == d.store && j.timestamp == d.timestamp
    ensures |j.entries| == |d.data.keys|
    ensures forall i :: 0 <= i < |j.entries| ==>
      j.entries[i].key == d.data.keys[i] && j.entries[i].value == d.data.values[d.data.keys[i]]
  {
    var es := Entries(d.data);
    JsonataData(d.store, d.timestamp, seq(|es|, i requires 0 <= i < |es| => KeyValue(es[i].0, es[i].1)))
  }

  /** The `{ key, value }` list read back as `[key, value]` pairs. */
  function Pairs<V, J>(kvs: seq<KeyValue<V, J>>): (es: seq<(string, DumpValue<V, J>)>)
    ensures |es| == |kvs|
    ensures forall i :: 0 <= i < |kvs| ==> es[i] == (kvs[i].key, kvs[i].value)
  {
    seq(|kvs|, i requires 0 <= i < |kvs| => (kvs[i].key, kvs[i].value))
  }

  /** Rebuilding an object from the JSONata entries gives back the dump's data. */
  lemma ConvertRoundTrip<V, J>(d: StoreData<V, J>)
    requires d.data.Valid()
    ensures FromEntries(Pairs(ConvertToJsonata(d).entries)) == d.data
  {
    assert Pairs(ConvertToJsonata(d).entries) == Entries(d.data);
    FromEntriesOfEntries(d.data);
  }

  /**
   * `Promise.all` over settled results: all the values, in order, or a
   * rejection with the reason of a failed one (here the first in list order;
   * `Promise.all` takes the first to reject in time).
   */
  function All<T>(rs: seq<Result<T, Exn>>): (r: Result<seq<T>, Exn>)
    ensures r.Success? <==> forall i :: 0 <= i < |rs| ==> rs[i].Success?
    ensures r.Success? ==> |r.value| == |rs| && forall i :: 0 <= i < |rs| ==> r.value[i] == rs[i].value
    ensures r.Failure? ==> exists i :: 0 <= i < |rs| && rs[i] == Failure(r.error)
  {
    if rs == [] then Success([])
    else match rs[0]
      case Failure(e) => Failure(e)
      case Success(v) =>
        match All(rs[1..])
        case Failure(e) => Failure(e)
        case Success(vs) => Success([v] + vs)
  }

  /**
   * `generateAllStoreData()` as written: every store's dump rejects, so the
   * whole call rejects. `load(name)` is what loading `name.bin` gives.
   */
  function GenerateAllStoreDataAsWritten<V, J>(load: string -> Result<seq<(string, V)>, Exn>, clock: nat -> string)
    : (r: Result<AllStoreData<V, J>, Exn>)
    ensures r.Failure?
  {
    match All(seq(|StoreNames|, i requires 0 <= i < |StoreNames| =>
      GenerateStoreDataAsWritten<V, J>(StoreNames[i], load(StoreNames[i]))))
    case Failure(e) => Failure(e)
    case Success(stores) => Success(AllStoreData(clock(|StoreNames|), stores))
  }

  /**
   * `generateAllStoreData()` over a working `generateStoreData`: the dumps of
   * "profiles", "users" and "organizations", in that order, under a timestamp
   * of its own, or a rejection when one of them fails. `clock(i)` is the
   * `new Date().toISOString()` read by the dump of the `i`-th store, and
   * `clock(3)` the one read once all three are done.
   */
  method GenerateAllStoreData<V, J>(load: string -> Result<seq<(string, V)>, Exn>, parse: V -> Result<J, Exn>,
                                    clock: nat -> string)
    returns (r: Result<AllStoreData<V, J>, Exn>)
    ensures r.Success? <==> forall i :: 0 <= i < |StoreNames| ==> load(StoreNames[i]).Success?
    ensures r.Success? ==> r.value.timestamp == clock(|StoreNames|) && |r.value.stores| == |StoreNames|
    ensures r.Success? ==> forall i :: 0 <= i < |StoreNames| ==>
      r.value.stores[i] == StoreData(StoreNames[i], clock(i), FromEntries(Decoded(load(StoreNames[i]).value, parse)))
    ensures r.Failure? ==> exists i :: 0 <= i < |StoreNames| && load(StoreNames[i]) == Failure(r.error)
  {
    var dumps: seq<Result<StoreData<V, J>, Exn>> := [];
    for i := 0 to |StoreNames|
      invariant |dumps| == i
      invariant forall k :: 0 <= k < i ==> load(StoreNames[k]).Failure? ==> dumps[k] == Failure(load(StoreNames[k]).error)
      invariant forall k :: 0 <= k < i ==> load(StoreNames[k]).Success? ==>
        dumps[k] == Success(StoreData(StoreNames[k], clock(k), FromEntries(Decoded(load(StoreNames[k]).value, parse))))
    {
      var one := GenerateStoreData(StoreNames[i], clock(i), load(StoreNames[i]), parse);
      dumps := dumps + [one];
    }
    var all := All(dumps);
    if all.Failure? {
      return Failure(all.error);
    }
    r := Success(AllStoreData(clock(|StoreNames|), all.value));
  }
}
