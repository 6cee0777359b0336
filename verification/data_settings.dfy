/** The shared data-sharing settings (DataSettingsContext.tsx): two named flags,
    `location` and `browsing`, both off at start, changed one key at a time. */
module DataSettings {

  /** The keys of the settings record (`keyof DataSettings`). */
  datatype SettingKey = Location | Browsing

  /** A snapshot of the settings. */
  datatype Settings = Settings(location: bool, browsing: bool)
  {
    function Get(key: SettingKey): bool
    {
      match key
      case Location => location
      case Browsing => browsing
    }
  }

  /** Both flags start off, with or without a provider. */
  const InitialSettings := Settings(false, false)

  /** `Object.keys(dataSettings)`: the key names, in declaration order. */
  const KeyNames: seq<string> := ["location", "browsing"]

  /** `Object.values(dataSettings)`: the flags in the same order as `KeyNames`. */
  function Values(s: Settings): (flags: seq<bool>)
    ensures |flags| == |KeyNames|
    ensures flags[0] == s.Get(Location) && flags[1] == s.Get(Browsing)
  {
    [s.location, s.browsing]
  }

  /** `{ ...prev, [key]: value }`: the named flag takes the new value and the
      other keeps its old one. */
  function Updated(s: Settings, key: SettingKey, value: bool): (r: Settings)
    ensures r.Get(key) == value
    ensures forall other :: other != key ==> r.Get(other) == s.Get(other)
  {
    match key
    case Location => s.(location := value)
    case Browsing => s.(browsing := value)
  }

  /** Writing the same value twice is the same as writing it once. */
  lemma UpdateIdempotent(s: Settings, key: SettingKey, value: bool)
    ensures Updated(Updated(s, key, value), key, value) == Updated(s, key, value)
  {
  }

  /** Of two writes to one key, the later one wins. */
  lemma UpdateLastWins(s: Settings, key: SettingKey, first: bool, second: bool)
    ensures Updated(Updated(s, key, first), key, second) == Updated(s, key, second)
  {
  }

  /** Writes to different keys commute. */
  lemma UpdatesOnDistinctKeysCommute(s: Settings, k1: SettingKey, v1: bool, k2: SettingKey, v2: bool)
    requires k1 != k2
    ensures Updated(Updated(s, k1, v1), k2, v2) == Updated(Updated(s, k2, v2), k1, v1)
  {
  }

  // ---------------------------------------------------------------------------
  // Consumers: with a provider, or reading the context's default value
  // ---------------------------------------------------------------------------

  /** One `updateDataSettings(key, value)` call made by a consumer. */
  datatype Write = Write(key: SettingKey, value: bool)

  /** A consumer's call: the provider's setter when there is a provider, else
      the default context's `() => {}`, which changes nothing. */
  function ContextUpdate(provided: bool, s: Settings, w: Write): (r: Settings)
    ensures !provided ==> r == s
    ensures provided ==> r.Get(w.key) == w.value
    ensures provided ==> forall other :: other != w.key ==> r.Get(other) == s.Get(other)
  {
    if provided then Updated(s, w.key, w.value) else s
  }

  /** The settings after a consumer made `writes`, in order. */
  function Replay(provided: bool, s: Settings, writes: seq<Write>): Settings
    decreases |writes|
  {
    if writes == [] then s
    else Replay(provided, ContextUpdate(provided, s, writes[0]), writes[1..])
  }

  /** Reference definition: the value of the last write to `key`, or
      `otherwise` when there is none. */
  function LastWritten(writes: seq<Write>, key: SettingKey, otherwise: bool): bool
    decreases |writes|
  {
    if writes == [] then otherwise
    else if writes[|writes| - 1].key == key then writes[|writes| - 1].value
    else LastWritten(writes[..|writes| - 1], key, otherwise)
  }

  lemma {:induction false} ReplaySnoc(provided: bool, s: Settings, writes: seq<Write>, w: Write)
    ensures Replay(provided, s, writes + [w]) == ContextUpdate(provided, Replay(provided, s, writes), w)
    decreases |writes|
  {
    if writes == [] {
      assert [w][1..] == [];
    } else {
      assert (writes + [w])[1..] == writes[1..] + [w];
      ReplaySnoc(provided, ContextUpdate(provided, s, writes[0]), writes[1..], w);
    }
  }

  /** With a provider, every flag ends at the last value written to it, and
      keeps its starting value if it was never written. */
  lemma {:induction false} ProviderLastWriteWins(s: Settings, writes: seq<Write>, key: SettingKey)
    ensures Replay(true, s, writes).Get(key) == LastWritten(writes, key, s.Get(key))
    decreases |writes|
  {
    if writes != [] {
      var init := writes[..|writes| - 1];
      var last := writes[|writes| - 1];
      assert writes == init + [last];
      ReplaySnoc(true, s, init, last);
      ProviderLastWriteWins(s, init, key);
    }
  }

  /** Without a provider, whatever a consumer writes, both flags stay off. */
  lemma {:induction false} NoProviderStaysOff(writes: seq<Write>)
    ensures Replay(false, InitialSettings, writes) == InitialSettings
    ensures !Replay(false, InitialSettings, writes).Get(Location)
    ensures !Replay(false, InitialSettings, writes).Get(Browsing)
    decreases |writes|
  {
    if writes != [] {
      NoProviderStaysOff(writes[1..]);
    }
  }

  // ---------------------------------------------------------------------------
  // The provider's state
  // ---------------------------------------------------------------------------

  /** `DataSettingsProvider`: the stored `dataSettings` record. */
  class DataSettingsStore {
    var location: bool
    var browsing: bool

    function Snapshot(): Settings
      reads this
    {
      Settings(location, browsing)
    }

    constructor ()
      ensures Snapshot() == InitialSettings
    {
      location, browsing := false, false;
    }

    /** `updateDataSettings(key, value)`. */
    method UpdateDataSettings(key: SettingKey, value: bool)
      modifies this
      ensures Snapshot() == Updated(old(Snapshot()), key, value)
      ensures Snapshot().Get(key) == value
      ensures forall other :: other != key ==> Snapshot().Get(other) == old(Snapshot()).Get(other)
    {
      match key {
        case Location => location := value;
        case Browsing => browsing := value;
      }
    }
  }
}
