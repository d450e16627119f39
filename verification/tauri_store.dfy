/**
 * `useTauriStoreLoad`: a string-keyed adapter over the Tauri store plugin.
 * The plugin keeps the store's entries in memory and writes them to its file
 * on `save()`; `persisted` is that file. When the adapter was loaded with
 * `autoSave`, every mutating call saves right after it writes.
 *
 * Plugin failures are parameters: a read may fail, and a mutation may fail
 * either at the write itself or at the `save()` that follows it.
 */
module TauriStore {
  import opened Js

  datatype ReadIo = ReadSucceeds | ReadFails(reason: Exn)
  datatype WriteIo = WriteSucceeds | WriteFails(reason: Exn) | SaveFails(reason: Exn)

  /** What `get(key)` reports over the entries `m`: the value, or null when absent. */
  function Lookup<V>(m: map<string, V>, key: string): Option<V> {
    if key in m then Some(m[key]) else None
  }

  /**
   * How a mutation settles: rejected with the plugin's error when the write
   * fails, or when the save fails and saving was due; resolved otherwise.
   */
  function MutationOutcome(autoSave: bool, io: WriteIo): (r: Outcome)
    ensures r.Rejected? <==> io.WriteFails? || (autoSave && io.SaveFails?)
    ensures r.Rejected? ==> r.reason == io.reason
  {
    match io
    case WriteSucceeds => Resolved
    case WriteFails(e) => Rejected(e)
    case SaveFails(e) => if autoSave then Rejected(e) else Resolved
  }

  class Store<V> {
    /** The plugin's in-memory entries. */
    var entries: map<string, V>
    /** The entries as last written to the store's file. */
    var persisted: map<string, V>
    /** `options.autoSave` */
    const autoSave: bool

    /** `Store.load(filename)`: the in-memory entries start as the file's. */
    constructor Load(file: map<string, V>, autoSave: bool)
      ensures entries == file && persisted == file
      ensures this.autoSave == autoSave
    {
      entries := file;
      persisted := file;
      this.autoSave := autoSave;
    }

    /** With `autoSave`, the file holds what memory holds. */
    ghost predicate Saved()
      reads this
    {
      persisted == entries
    }

    /**
     * `get(key)`: the stored value for a present key, null for an absent one,
     * and null as well when the plugin fails (the error is swallowed).
     */
    method Get(key: string, io: ReadIo) returns (r: Option<V>)
      ensures io.ReadFails? ==> r.None?
      ensures io.ReadSucceeds? && key in entries ==> r == Some(entries[key])
      ensures io.ReadSucceeds? && key !in entries ==> r.None?
    {
      if io.ReadFails? {
        r := None;
      } else {
        r := Lookup(entries, key);
      }
    }

    /** `save()`: write the in-memory entries to the file. */
    method Save()
      modifies this
      ensures entries == old(entries) && persisted == entries
    {
      persisted := entries;
    }

    /**
     * `set(key, value)`: writes the entry, then saves when `autoSave`; an error
     * from either step is rethrown, unlike in `get`.
     */
    method Set(key: string, value: V, io: WriteIo) returns (r: Outcome)
      modifies this
      ensures r == MutationOutcome(autoSave, io)
      ensures io.WriteFails? ==> entries == old(entries)
      ensures !io.WriteFails? ==> entries == old(entries)[key := value]
      ensures forall k :: k != key ==> Lookup(entries, k) == Lookup(old(entries), k)
      ensures persisted == if autoSave && io.WriteSucceeds? then entries else old(persisted)
    {
      if io.WriteFails? {
        return Rejected(io.reason);
      }
      entries := entries[key := value];
      if autoSave {
        if io.SaveFails? {
          return Rejected(io.reason);
        }
        Save();
      }
      r := Resolved;
    }

    /** `remove(key)`: deletes the entry, then saves when `autoSave`. */
    method Remove(key: string, io: WriteIo) returns (r: Outcome)
      modifies this
      ensures r == MutationOutcome(autoSave, io)
      ensures io.WriteFails? ==> entries == old(entries)
      ensures !io.WriteFails? ==> entries == old(entries) - {key} && Lookup(entries, key).None?
      ensures forall k :: k != key ==> Lookup(entries, k) == Lookup(old(entries), k)
      ensures persisted == if autoSave && io.WriteSucceeds? then entries else old(persisted)
    {
      if io.WriteFails? {
        return Rejected(io.reason);
      }
      entries := entries - {key};
      if autoSave {
        if io.SaveFails? {
          return Rejected(io.reason);
        }
        Save();
      }
      r := Resolved;
    }

    /** `clear()`: empties the store, then saves when `autoSave`. */
    method Clear(io: WriteIo) returns (r: Outcome)
      modifies this
      ensures r == MutationOutcome(autoSave, io)
      ensures io.WriteFails? ==> entries == old(entries)
      ensures !io.WriteFails? ==> entries == map[]
      ensures persisted == if autoSave && io.WriteSucceeds? then entries else old(persisted)
    {
      if io.WriteFails? {
        return Rejected(io.reason);
      }
      entries := map[];
      if autoSave {
        if io.SaveFails? {
          return Rejected(io.reason);
        }
        Save();
      }
      r := Resolved;
    }
  }

  /** `set(k, v)` followed by `get(k)` returns `v` whenever the write went through. */
  method SetThenGet<V>(s: Store<V>, key: string, value: V, io: WriteIo) returns (r: Option<V>)
    modifies s
    ensures !io.WriteFails? ==> r == Some(value)
    ensures s.autoSave && io.WriteSucceeds? ==> s.Saved()
  {
    var _ := s.Set(key, value, io);
    r := s.Get(key, ReadSucceeds);
  }

  /** After `clear()` every key reads as null. */
  method ClearThenGet<V>(s: Store<V>, key: string, io: WriteIo) returns (r: Option<V>)
    modifies s
    ensures !io.WriteFails? ==> r.None?
  {
    var _ := s.Clear(io);
    r := s.Get(key, ReadSucceeds);
  }
}
