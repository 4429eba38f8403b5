/** The odds client object. Its fields are the ones the client reassigns (`config`, split into its
    three fields, `isInitialized`, the pending-initialisation marker); the sports map is a heap
    object so that a client that never adopted a stored copy shares it with `DEFAULT_SPORTS`.
    Every method is proved to move `State()` as the matching function of module ApiSpec says. */
module Api {
  import opened OddsTypes
  import opened Storage
  import opened ApiSpec

  /** A mutable sport-key-to-settings object: `DEFAULT_SPORTS`, or the `sports` of a configuration. */
  class SportsTable {
    var entries: map<string, SportConfig>

    constructor (entries: map<string, SportConfig>)
      ensures this.entries == entries
    {
      this.entries := entries;
    }
  }

  class OddsApi {
    /** `BASE_URL` of the odds provider. */
    const baseUrl: string
    /** The `DEFAULT_SPORTS` object. */
    const defaults: SportsTable
    /** The persistence cells `OddsStorage` reads and writes. */
    const storage: OddsStorage

    var apiKey: string
    var sports: SportsTable
    var lastUpdated: string
    var isInitialized: bool
    /** The initialisation promise has settled: `initialize` has run. */
    var initRan: bool
    /** `initPromise != null`. */
    var initPending: bool

    /** The client as a value. */
    function State(): ApiState
      reads this, sports, defaults, storage
    {
      ApiState(Config(apiKey, sports.entries, lastUpdated), defaults.entries, sports == defaults,
               isInitialized, initRan, initPending,
               Stores(storage.local, storage.remote, storage.localWritable, storage.remoteWritable))
    }

    ghost predicate Valid()
      reads this, sports, defaults, storage
    {
      Wf(State())
    }

    /** A new client stamped `now`, its sports the defaults object itself, initialisation pending. */
    constructor (baseUrl: string, defaults: SportsTable, storage: OddsStorage, now: string)
      ensures this.baseUrl == baseUrl && this.defaults == defaults && this.storage == storage
      ensures State() == Constructed(defaults.entries, Stores(storage.local, storage.remote, storage.localWritable, storage.remoteWritable), now)
      ensures Valid()
    {
      this.baseUrl := baseUrl;
      this.defaults := defaults;
      this.storage := storage;
      apiKey := "";
      sports := defaults;
      lastUpdated := now;
      isInitialized := false;
      initRan := false;
      initPending := true;
    }

    /** `initialize`: local copy first, then the remote copy if it is newer, written back locally.
        Private in the source and run once, by the constructor's promise, so only `Settle` calls it. */
    method Initialize()
      requires !initRan
      modifies this, storage
      ensures State() == InitializeStep(old(State()))
      ensures sports == old(sports) || fresh(sports)
      ensures initRan == old(initRan) && initPending == old(initPending)
    {
      var localConfig := storage.LoadFromLocalStorage(defaults.entries);
      if localConfig.Some? {
        var table := new SportsTable(localConfig.value.sports);
        apiKey, sports, lastUpdated := localConfig.value.apiKey, table, localConfig.value.lastUpdated;
      }
      var remoteConfig := storage.LoadFromFirebase(defaults.entries);
      if remoteConfig.Some? && RemoteIsNewer(remoteConfig.value.lastUpdated, lastUpdated) {
        var table := new SportsTable(remoteConfig.value.sports);
        apiKey, sports, lastUpdated := remoteConfig.value.apiKey, table, remoteConfig.value.lastUpdated;
        storage.SaveToLocalStorage(Config(apiKey, sports.entries, lastUpdated));
      }
      isInitialized := apiKey != "";
    }

    /** The constructor's initialisation promise settling: `initialize` runs unless it already has. */
    method Settle()
      requires Valid()
      modifies this, storage
      ensures Valid() && State() == SettleStep(old(State()))
      ensures sports == old(sports) || fresh(sports)
    {
      if !initRan {
        Initialize();
        initRan := true;
      }
    }

    /** `ensureInitialized`: wait for the recorded promise, then forget it. */
    method EnsureInitialized()
      requires Valid()
      modifies this, storage
      ensures Valid() && State() == EnsureInitializedStep(old(State()))
      ensures sports == old(sports) || fresh(sports)
    {
      if initPending {
        Settle();
        initPending := false;
      }
    }

    /** `saveConfig(updateFirebase)`. */
    method SaveConfig(updateFirebase: bool, now: string)
      modifies storage
      ensures State() == SaveConfigStep(old(State()), updateFirebase, now)
    {
      storage.SaveToLocalStorage(Config(apiKey, sports.entries, lastUpdated));
      if updateFirebase {
        storage.SaveToFirebase(Config(apiKey, sports.entries, lastUpdated), now);
      }
    }

    method SetApiKey(key: string, now: string)
      requires Valid()
      modifies this, storage
      ensures Valid() && State() == SetApiKeyStep(old(State()), key, now)
      ensures apiKey == key && isInitialized
    {
      EnsureInitialized();
      apiKey := key;
      isInitialized := true;
      SaveConfig(true, now);
    }

    method SetSportConfig(sportKey: string, enabled: bool, refreshInterval: int, now: string)
      requires Valid()
      modifies this, storage, sports
      ensures Valid() && State() == SetSportConfigStep(old(State()), sportKey, enabled, refreshInterval, now)
      ensures GetSportConfig(sportKey) == SportConfig(enabled, refreshInterval)
    {
      EnsureInitialized();
      sports.entries := sports.entries[sportKey := SportConfig(enabled, refreshInterval)];
      SaveConfig(true, now);
    }

    /** `getSportConfig(k)`: the configured entry, else the default entry, else a disabled sport. */
    function GetSportConfig(sportKey: string): (r: SportConfig)
      reads this, sports, defaults
      ensures sportKey in sports.entries ==> r == sports.entries[sportKey]
      ensures sportKey !in sports.entries && sportKey in defaults.entries ==> r == defaults.entries[sportKey]
      ensures sportKey !in sports.entries && sportKey !in defaults.entries ==> r == UnknownSport
    {
      LookupSport(sports.entries, defaults.entries, sportKey)
    }

    function GetApiKey(): (key: string)
      reads this, sports, defaults, storage
      ensures key == State().config.apiKey
    {
      apiKey
    }

    /** `getAllSportsConfig`: the sports object itself, not a copy. */
    function GetAllSportsConfig(): (table: SportsTable)
      reads this, sports, defaults, storage
      ensures table.entries == State().config.sports
      ensures table == defaults <==> State().shared
    {
      sports
    }

    /** `isConfigured()`. */
    function IsConfigured(): (b: bool)
      reads this, sports, defaults, storage
      ensures b <==> Configured(State())
    {
      isInitialized && apiKey != ""
    }

    /** `testConnection(key)`: one GET of the base URL carrying the key under test, whatever it is. */
    function TestConnection<T>(key: string, reply: Reply<T>): (r: (Result<bool>, HttpGet))
      ensures r.1 == HttpGet(baseUrl, [("apiKey", Text(key))])
      ensures r.0.Success? <==> reply.Response? && Resolves(reply.status)
      ensures r.0.Success? ==> (r.0.value <==> reply.status == 200)
    {
      (TestOutcome(reply), HttpGet(baseUrl, [("apiKey", Text(key))]))
    }

    /** `validateApiKey`: reject an empty key before joining initialisation. */
    method ValidateApiKey() returns (err: Option<OddsApiError>)
      requires Valid()
      modifies this, storage
      ensures Valid()
      ensures err == (if old(apiKey) == "" then Some(OddsApiError(ApiKeyRequired)) else None)
      ensures State() == if err.Some? then old(State()) else EnsureInitializedStep(old(State()))
    {
      if apiKey == "" {
        return Some(OddsApiError(ApiKeyRequired));
      }
      EnsureInitialized();
      return None;
    }

    method Request<T>(endpoint: string, params: seq<(string, ParamValue)>, reply: Reply<T>)
      returns (r: Result<T>, sent: Option<HttpGet>)
      requires Valid()
      modifies this, storage
      ensures Valid()
      ensures Fetched(r, sent, State()) == RequestStep(old(State()), baseUrl, endpoint, params, reply)
    {
      var err := ValidateApiKey();
      if err.Some? {
        return Failure(err.value), None;
      }
      sent := Some(HttpGet(baseUrl + endpoint, [("apiKey", Text(apiKey))] + params));
      r := RequestOutcome(reply);
    }

    method GetSports<T>(reply: Reply<T>) returns (r: Result<T>, sent: Option<HttpGet>)
      requires Valid()
      modifies this, storage
      ensures Valid()
      ensures Fetched(r, sent, State()) == GetSportsStep(old(State()), baseUrl, reply)
    {
      r, sent := Request("/", [], reply);
    }

    method GetOdds<T>(sportKey: string, regions: string, reply: Reply<T>) returns (r: Result<T>, sent: Option<HttpGet>)
      requires Valid()
      modifies this, storage
      ensures Valid()
      ensures Fetched(r, sent, State()) == GetOddsStep(old(State()), baseUrl, sportKey, regions, reply)
    {
      var config := GetSportConfig(sportKey);
      if !config.enabled {
        return Fail(SportDisabled), None;
      }
      r, sent := Request(OddsEndpoint(sportKey), OddsParams(regions), reply);
    }

    method GetLiveEvents<T>(sportKey: string, reply: Reply<T>) returns (r: Result<T>, sent: Option<HttpGet>)
      requires Valid()
      modifies this, storage
      ensures Valid()
      ensures Fetched(r, sent, State()) == GetLiveEventsStep(old(State()), baseUrl, sportKey, reply)
    {
      var config := GetSportConfig(sportKey);
      if !config.enabled {
        return Fail(SportDisabled), None;
      }
      r, sent := Request(LiveEventsEndpoint(sportKey), LiveEventsParams(), reply);
    }

    method GetScores<T>(sportKey: string, daysFrom: int, reply: Reply<T>) returns (r: Result<T>, sent: Option<HttpGet>)
      requires Valid()
      modifies this, storage
      ensures Valid()
      ensures Fetched(r, sent, State()) == GetScoresStep(old(State()), baseUrl, sportKey, daysFrom, reply)
    {
      var config := GetSportConfig(sportKey);
      if !config.enabled {
        return Fail(SportDisabled), None;
      }
      r, sent := Request(ScoresEndpoint(sportKey), ScoresParams(daysFrom), reply);
    }
  }
}
