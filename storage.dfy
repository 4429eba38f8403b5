/** The two persistence cells of the configuration: the browser's local key-value entry
    and the remote settings document. Reads overlay the stored sports on the defaults and
    degrade every failure to "nothing stored"; writes are best effort. */
module Storage {
  import opened OddsTypes

  /** What a cell holds: nothing, a configuration that reads back, or content that cannot be
      read (malformed JSON, an empty entry, a read that throws or rejects). */
  datatype Entry = Missing | Present(config: Config) | Unreadable

  /** `{ ...defaults, ...stored }`: every default key is present and stored entries win. */
  function Overlay(defaults: map<string, SportConfig>, stored: map<string, SportConfig>): (m: map<string, SportConfig>)
    ensures m.Keys == defaults.Keys + stored.Keys
    ensures forall k :: k in stored ==> m[k] == stored[k]
    ensures forall k :: k in defaults && k !in stored ==> m[k] == defaults[k]
  {
    defaults + stored
  }

  /** Reading one cell, as both `loadFromLocalStorage` and `loadFromFirebase` do: `null` unless a
      readable configuration is stored, and then that configuration with its sports overlaid on the
      defaults and every other field as stored. */
  function Load(cell: Entry, defaults: map<string, SportConfig>): (r: Option<Config>)
    ensures r.Some? <==> cell.Present?
    ensures r.Some? ==> r.value.apiKey == cell.config.apiKey && r.value.lastUpdated == cell.config.lastUpdated
    ensures r.Some? ==> r.value.sports.Keys == defaults.Keys + cell.config.sports.Keys
    ensures r.Some? ==> forall k :: k in cell.config.sports ==> r.value.sports[k] == cell.config.sports[k]
    ensures r.Some? ==> forall k :: k in defaults && k !in cell.config.sports ==> r.value.sports[k] == defaults[k]
  {
    match cell
    case Present(c) => Some(c.(sports := Overlay(defaults, c.sports)))
    case _ => None
  }

  /** The local cell after `saveToLocalStorage(c)`: `c` verbatim, or the old content when the write fails. */
  function SavedLocal(cell: Entry, writable: bool, c: Config): Entry {
    if writable then Present(c) else cell
  }

  /** The remote cell after `saveToFirebase(c)` at time `now`: `c` with only its stamp replaced,
      or the old content when the write fails. */
  function SavedRemote(cell: Entry, writable: bool, c: Config, now: string): Entry {
    if writable then Present(c.(lastUpdated := now)) else cell
  }

  /** Loading what was just saved locally gives the saved configuration with the defaults filled in,
      and gives it back exactly when it already held every default sport. */
  lemma LocalRoundTrip(cell: Entry, c: Config, defaults: map<string, SportConfig>)
    ensures Load(SavedLocal(cell, true, c), defaults) == Some(c.(sports := Overlay(defaults, c.sports)))
    ensures Load(SavedLocal(cell, true, c), defaults) == Some(c) <==> defaults.Keys <= c.sports.Keys
  {
    if defaults.Keys <= c.sports.Keys {
      assert Overlay(defaults, c.sports) == c.sports;
    }
  }

  /** Loading what was just saved remotely gives the saved configuration with the defaults filled in
      and the save's stamp. */
  lemma RemoteRoundTrip(cell: Entry, c: Config, now: string, defaults: map<string, SportConfig>)
    ensures Load(SavedRemote(cell, true, c, now), defaults) == Some(Config(c.apiKey, Overlay(defaults, c.sports), now))
  {
  }

  /** Saving a loaded configuration and loading it again changes nothing: the overlay is idempotent. */
  lemma LoadSaveLoad(cell: Entry, defaults: map<string, SportConfig>)
    requires cell.Present?
    ensures Load(SavedLocal(cell, true, Load(cell, defaults).value), defaults) == Load(cell, defaults)
  {
    var s := cell.config.sports;
    assert Overlay(defaults, Overlay(defaults, s)) == Overlay(defaults, s);
  }

  /** The two persistence cells, with whether each back end currently accepts writes
      (a full or blocked browser store, an offline or refused document write). */
  class OddsStorage {
    var local: Entry
    var remote: Entry
    var localWritable: bool
    var remoteWritable: bool

    constructor (local: Entry, remote: Entry, localWritable: bool, remoteWritable: bool)
      ensures this.local == local && this.remote == remote
      ensures this.localWritable == localWritable && this.remoteWritable == remoteWritable
    {
      this.local := local;
      this.remote := remote;
      this.localWritable := localWritable;
      this.remoteWritable := remoteWritable;
    }

    /** The local copy, sports overlaid on the defaults; null unless a readable copy is stored. */
    function LoadFromLocalStorage(defaults: map<string, SportConfig>): (r: Option<Config>)
      reads this
      ensures r.Some? <==> local.Present?
      ensures r.Some? ==> r.value == local.config.(sports := Overlay(defaults, local.config.sports))
    {
      Load(local, defaults)
    }

    /** The remote copy, sports overlaid on the defaults; null unless a readable copy is stored. */
    function LoadFromFirebase(defaults: map<string, SportConfig>): (r: Option<Config>)
      reads this
      ensures r.Some? <==> remote.Present?
      ensures r.Some? ==> r.value == remote.config.(sports := Overlay(defaults, remote.config.sports))
    {
      Load(remote, defaults)
    }

    /** Stores `c` verbatim; a failing write is swallowed. */
    method SaveToLocalStorage(c: Config)
      modifies this
      ensures local == SavedLocal(old(local), localWritable, c)
      ensures localWritable ==> local == Present(c)
      ensures remote == old(remote)
      ensures localWritable == old(localWritable) && remoteWritable == old(remoteWritable)
    {
      if localWritable {
        local := Present(c);
      }
    }

    /** Stores `c` stamped with the current time `now`; a failing write is swallowed. */
    method SaveToFirebase(c: Config, now: string)
      modifies this
      ensures remote == SavedRemote(old(remote), remoteWritable, c, now)
      ensures remoteWritable ==> remote == Present(Config(c.apiKey, c.sports, now))
      ensures local == old(local)
      ensures localWritable == old(localWritable) && remoteWritable == old(remoteWritable)
    {
      if remoteWritable {
        remote := Present(c.(lastUpdated := now));
      }
    }
  }
}
