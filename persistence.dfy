/**
 * The persistence adapter (`src/state/persistence.js`) and the values it
 * stores: the progress record, its persisted snapshot, and local storage
 * as a map from storage key to what `JSON.parse` makes of the stored text.
 */
module Persistence {
  import opened Js

  /**
   * Per-quest evidence, an object `{ note?, status? }`: a field is `None` when
   * the object does not carry it, and `extra` holds any other fields it
   * carries, each value kept as opaque JSON text.
   */
  datatype Evidence = Evidence(note: Option<string>, status: Option<string>, extra: map<string, string>)

  /** The store's progress record. */
  datatype Progress = Progress(
    completedQuests: seq<string>,
    lastUpdated: Option<string>,
    reflections: map<string, string>,
    evidence: map<string, Evidence>,
    stats: map<string, int>)

  /**
   * A parsed snapshot object. A field is `None` when it is missing or null;
   * `completedQuests` is also `None` when it is present but not an array.
   * A parsed JSON value that is not an object reads as a snapshot with
   * every field `None`.
   */
  datatype Snapshot = Snapshot(
    completedQuests: Option<seq<string>>,
    lastUpdated: Option<string>,
    reflections: Option<map<string, string>>,
    evidence: Option<map<string, Evidence>>,
    stats: Option<map<string, int>>)

  /** What a JSON round trip of the record gives back: every field present. */
  function Encode(p: Progress): (s: Snapshot)
    ensures s.completedQuests == Some(p.completedQuests) && s.lastUpdated == p.lastUpdated
    ensures s.reflections == Some(p.reflections) && s.evidence == Some(p.evidence) && s.stats == Some(p.stats)
  {
    Snapshot(Some(p.completedQuests), p.lastUpdated, Some(p.reflections), Some(p.evidence), Some(p.stats))
  }

  /** The text held under a storage key, as far as the core can tell it apart. */
  datatype Stored =
    | Blank                      // the empty string, which is falsy
    | Unreadable                 // text `JSON.parse` rejects, or the text "null"
    | Document(snapshot: Snapshot)  // text that parses to a value

  /** `window.localStorage`, seen through `JSON.parse`. */
  type Storage = map<string, Stored>

  datatype Mode = Local | Remote

  /** `configurePersistence(config)`: REMOTE exactly when `config.persistence?.mode` is "remote". */
  function ModeFor(persistenceMode: Option<string>): (m: Mode)
    ensures m == Remote <==> persistenceMode == Some("remote")
  {
    if persistenceMode == Some("remote") then Remote else Local
  }

  /**
   * `loadSnapshot(key)` (both modes read local storage): null when nothing or
   * the empty string is stored, null when the text does not parse, else the
   * parsed value.
   */
  function Load(storage: Storage, key: string): (r: Option<Snapshot>)
    ensures r.Some? <==> key in storage && storage[key].Document?
    ensures r.Some? ==> r.value == storage[key].snapshot
  {
    if key in storage then
      match storage[key]
      case Blank => None
      case Unreadable => None
      case Document(s) => Some(s)
    else None
  }

  /**
   * `saveSnapshot(key, state)` (both modes write local storage): the encoded
   * state replaces whatever was under `key`; when the write throws (`writable`
   * is false) the error is swallowed and storage is unchanged.
   */
  function Save(storage: Storage, writable: bool, key: string, p: Progress): (r: Storage)
    ensures writable ==> key in r && r[key] == Document(Encode(p))
    ensures forall k :: k != key ==> (k in r <==> k in storage)
    ensures forall k :: k != key && k in storage ==> r[k] == storage[k]
    ensures !writable ==> r == storage
  {
    if writable then storage[key := Document(Encode(p))] else storage
  }

  /** Saving then loading under the same key gives the saved snapshot; other keys read as before. */
  lemma SaveThenLoad(storage: Storage, key: string, other: string, p: Progress)
    requires other != key
    ensures Load(Save(storage, true, key, p), key) == Some(Encode(p))
    ensures Load(Save(storage, true, key, p), other) == Load(storage, other)
  {
  }

  /** The adapter's module state: the current mode and the local storage it reads and writes. */
  class Adapter {
    var mode: Mode
    var storage: Storage
    /** Whether `localStorage.setItem` succeeds (false: quota exceeded or storage disabled). */
    var writable: bool

    /** Module load: `currentMode` starts as LOCAL. */
    constructor (storage: Storage, writable: bool)
      ensures this.mode == Local && this.storage == storage && this.writable == writable
    {
      this.mode := Local;
      this.storage := storage;
      this.writable := writable;
    }

    /** `configurePersistence(config)`; an absent config or persistence entry selects LOCAL. */
    method Configure(persistenceMode: Option<string>)
      modifies this`mode
      ensures mode == ModeFor(persistenceMode)
    {
      if persistenceMode == Some("remote") {
        mode := Remote;
      } else {
        mode := Local;
      }
    }

    /** `getPersistenceMode()` */
    method GetMode() returns (m: Mode)
      ensures m == mode
    {
      m := mode;
    }

    /** `loadSnapshot(key)`; the REMOTE mode only adds a console warning. */
    method LoadSnapshot(key: string) returns (r: Option<Snapshot>)
      ensures r == Load(storage, key)
      ensures r.None? <==> key !in storage || !storage[key].Document?
    {
      if key !in storage {
        return None;
      }
      match storage[key]
      case Blank => r := None;
      case Unreadable => r := None;
      case Document(s) => r := Some(s);
    }

    /** `saveSnapshot(key, snapshot)`; the REMOTE mode only adds a console warning. */
    method SaveSnapshot(key: string, p: Progress)
      modifies this`storage
      ensures storage == Save(old(storage), writable, key, p)
    {
      if writable {
        storage := storage[key := Document(Encode(p))];
      }
    }
  }
}
