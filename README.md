# Odds configuration layer

A Dafny model of the configuration core of a sports-odds front-end: the odds client `OddsApi`
(initialisation from a local and a remote copy of the settings with a last-write-wins test on
`lastUpdated`, the setters that persist after every change, the guards and status mapping of the
data operations), the two persistence cells of `OddsStorage` (loads that overlay the stored sports
on the defaults and degrade every failure to "nothing stored", best-effort saves, the remote one
stamped with the current time), and the pure rules the data-fetch hooks hand to the query library
(error normalisation, the retry predicate, the `enabled` conditions, the cache keys).

Files and modules:

- `config.dfy`, module `OddsTypes`: the configuration record, the per-sport settings, the error
  codes and the result wrapper.
- `order.dfy`, module `StringOrder`: JavaScript's `<` on strings (lexicographic), with the lemmas
  that it is irreflexive, asymmetric and total, which the last-write-wins lemmas use.
- `storage.dfy`, module `Storage`: cell contents (`Missing | Present(config) | Unreadable`), the
  overlay and load functions, the save functions and the `OddsStorage` class over the two cells.
- `api_spec.dfy`, module `ApiSpec`: the client as a value (`ApiState`) with one function per
  operation from the state before to the state after, and the lemmas about them.
- `api.dfy`, module `Api`: the `OddsApi` class itself. Its sports map is a heap object
  (`SportsTable`), so a client that adopted no stored copy shares it with `DEFAULT_SPORTS` and
  `setSportConfig` writes through to the defaults, as the source does. Every method is proved to
  move `State()` as the matching `ApiSpec` function says.
- `hooks.dfy`, module `Hooks`: the hook rules.

Environment values are parameters: `DEFAULT_SPORTS` is a `SportsTable` and `BASE_URL` a string
given to the constructor; the current time is a `now` argument; the transport is an abstract
`Reply` (`Response(status, data) | NoResponse`), so a data operation returns the request it would
issue (`sent`) instead of issuing it; whether each store accepts writes is a flag of `OddsStorage`.
The constructor's initialisation promise is modelled as an explicit step, `Settle`, that runs
`initialize` once; `ensureInitialized` settles it and clears the marker. Reads made before a join
(the key check of `validateApiKey`, the sport lookup of `getOdds`) therefore see the configuration
held at that moment, which before initialisation is the constructor's.

Consequences the lemmas bring out:

- The data operations check the sport (api.ts:144-147) before `request` checks the key
  (api.ts:106-108): with no key, a disabled sport fails with SPORT_DISABLED and an enabled one with
  API_KEY_REQUIRED (`GuardsComeFirst`, `ScenarioNoKey`).
- The sports of every reachable client hold every default sport (the overlay of a load keeps them,
  `setSportConfig` only adds entries), so a sport absent from the configuration reads as disabled
  with a 30-second interval and the `DEFAULT_SPORTS` fallback of api.ts:70 never decides
  (`AbsentSportIsUnknown`).
- The constructor stamps the new configuration with the construction time, so on a device with no
  readable local copy a remote copy stamped at or before that time is never adopted
  (`FreshClientIgnoresOlderRemote`).
- A save stamps only the remote copy; the in-memory and local stamps keep their old value. If a
  remote write fails while the remote cell holds a later-stamped copy, the next client adopts that
  remote copy and the locally saved change is lost (`LocalOnlySaveIsOverridden`). When both writes
  succeed the saved key and sports survive a restart either way (`PersistedKeySurvivesRestart`).

## Model

| member | source | states |
|---|---|---|
| `OddsTypes.CodeNameInjective` | src/hooks/useOdds.ts:37-40 | Two error codes have the same code string exactly when they are the same code, so comparing `error.code` with `'SPORT_DISABLED'` is comparing codes. |
| `StringOrder.Irreflexive` | src/services/odds/api.ts:32-33 | No stamp is newer than itself. |
| `StringOrder.Asymmetric` | src/services/odds/api.ts:32-33 | Of two stamps at most one is newer than the other. |
| `StringOrder.Trichotomous` | src/services/odds/api.ts:32-33 | Two different stamps are always ordered one way or the other. |
| `Storage.Overlay` | src/services/odds/storage.ts:14 | The merged sports hold every default key and every stored key; stored entries win on overlap and defaults fill the rest. |
| `Storage.Load` | src/services/odds/storage.ts:7-38 | A load yields a configuration exactly when a readable one is stored (absent, empty, malformed or failing reads yield null); it keeps `apiKey` and `lastUpdated` as stored and overlays the stored sports on the defaults. |
| `Storage.LocalRoundTrip` | src/services/odds/storage.ts:9-47 | Loading after a successful local save yields the saved configuration with the defaults filled in, and yields it verbatim exactly when it already holds every default sport. |
| `Storage.RemoteRoundTrip` | src/services/odds/storage.ts:26-58 | Loading after a successful remote save yields the saved key and overlaid sports with the save's stamp. |
| `Storage.LoadSaveLoad` | src/services/odds/storage.ts:9-47 | Saving a loaded configuration locally and loading again gives the same configuration (the overlay is idempotent). |
| `Storage.OddsStorage.LoadFromLocalStorage` | src/services/odds/storage.ts:7-22 | Yields a configuration exactly when the local cell holds a readable one, and then that configuration with its sports overlaid on the defaults. |
| `Storage.OddsStorage.LoadFromFirebase` | src/services/odds/storage.ts:24-39 | Yields a configuration exactly when the remote cell holds a readable one, and then that configuration with its sports overlaid on the defaults. |
| `Storage.OddsStorage.SaveToLocalStorage` | src/services/odds/storage.ts:41-47 | The local cell holds the configuration verbatim if the store accepts the write, is unchanged otherwise; the remote cell is untouched. |
| `Storage.OddsStorage.SaveToFirebase` | src/services/odds/storage.ts:49-58 | The remote cell holds the configuration with only `lastUpdated` replaced by `now` if the write is accepted, is unchanged otherwise; the local cell is untouched. |
| `ApiSpec.RequestOutcome` | src/services/odds/api.ts:112-137 | A 2xx response resolves with its body; otherwise 401 gives API_KEY_INVALID, 429 API_RATE_LIMIT, 404 RESOURCE_NOT_FOUND, and any other status or a missing response API_CONNECTION_ERROR. |
| `ApiSpec.TestOutcome` | src/services/odds/api.ts:88-103 | `testConnection` succeeds exactly on a 2xx response, and then answers true exactly when the status is 200. |
| `ApiSpec.TestAgreesWithRequest` | src/services/odds/api.ts:88-137 | `testConnection` fails on the same replies as `request` and with the same code, except that a 404 is a connection error for `testConnection` and RESOURCE_NOT_FOUND for `request`. |
| `ApiSpec.Constructed` | src/services/odds/api.ts:12-20 | A new client has no key, the defaults object as its sports, the construction time as its stamp, is not initialised and has initialisation pending. |
| `ApiSpec.RemoteIsNewer` | src/services/odds/api.ts:32-33 | The remote test as written holds exactly when the held stamp is empty or below the remote stamp; its non-emptiness check on the remote stamp is redundant. |
| `ApiSpec.Resolve` | src/services/odds/api.ts:25-36 | A local copy replaces the held configuration wholesale; an adopted remote copy becomes the configuration; otherwise the local copy, or the held configuration when there is none, remains. |
| `ApiSpec.AdoptsRemoteIff` | src/services/odds/api.ts:31-36 | The remote copy is adopted exactly when it exists and the configuration it competes with has an empty stamp or a stamp below the remote one. |
| `ApiSpec.EqualOrOlderRemoteIgnored` | src/services/odds/api.ts:31-36 | A remote copy whose stamp equals or precedes a non-empty competing stamp is not adopted and the competing configuration stays. |
| `ApiSpec.NewerStampWins` | src/services/odds/api.ts:31-36 | Between two different non-empty stamps the remote copy is adopted exactly when its stamp is not the older one. |
| `ApiSpec.InitializeStep` | src/services/odds/api.ts:22-38 | After `initialize`, `isInitialized` is exactly "a key is present"; the sports are still the defaults object only if they were before and the configuration is then unchanged; the defaults, the remote cell and the write flags are untouched. |
| `ApiSpec.EnsureInitializedJoins` | src/services/odds/api.ts:45-50 | After a join initialisation has run, no promise is recorded, the state is well formed, and joining again changes nothing. |
| `ApiSpec.InitializeRunsOnce` | src/services/odds/api.ts:45-50 | Once initialisation has run, settling changes nothing and a join only clears the marker. |
| `ApiSpec.FirstJoinInitializes` | src/services/odds/api.ts:22-43 | The first join sets the configuration to the resolution of the stored copies and `isInitialized` to "the key is non-empty"; the sports stay the `DEFAULT_SPORTS` object exactly when there is no readable local copy and the remote copy is not adopted; only an adopted remote copy is written (to the local cell); the defaults, the remote cell and the write flags are unchanged. |
| `ApiSpec.StamplessLocalAdoptsRemote` | src/services/odds/api.ts:25-36 | A local cell that loads with no key and no stamp (storage.ts:12-15 on a stored JSON primitive) makes initialisation adopt the remote copy, whatever its stamp. |
| `ApiSpec.LocalCopyReplacesConfig` | src/services/odds/api.ts:25-28 | With a readable local copy and no remote copy, initialisation adopts the loaded local copy wholesale and stops sharing the defaults object. |
| `ApiSpec.FreshClientIgnoresOlderRemote` | src/services/odds/api.ts:12-36 | With no readable local copy, a remote copy stamped at or before construction time is not adopted: the client keeps its constructor configuration and is not initialised. |
| `ApiSpec.LookupSport` | src/services/odds/api.ts:69-71 | The sport's configured entry if present, else its default entry if present, else disabled with a 30-second interval. |
| `ApiSpec.AbsentSportIsUnknown` | src/services/odds/api.ts:69-71 | In every well-formed state a sport key absent from the configured sports reads as disabled with a 30-second interval: the sports hold every default sport. |
| `ApiSpec.LookupAgreesWithOverlay` | src/services/odds/api.ts:69-71 | Looking a sport up in a loaded configuration gives the same settings as in the configuration as stored: the lookup's fallback and the load's overlay agree. |
| `ApiSpec.Configured` | src/services/odds/api.ts:84-86 | `isConfigured()` on a state: initialised and holding a non-empty key (a predicate, used by `EmptyKeyUnconfigures`, `PersistedKeySurvivesRestart` and the hook conditions). |
| `ApiSpec.SetApiKeyEffect` | src/services/odds/api.ts:52-57 | After `setApiKey(key)` the key is `key`, the client is initialised, configured exactly when `key` is non-empty, sports and stamp are those initialisation left, and the local cell (verbatim) and remote cell (stamped `now`) were written. |
| `ApiSpec.SetSportConfigEffect` | src/services/odds/api.ts:63-67 | After `setSportConfig(k, e, r)` sport `k` reads as `{e, r}`, every other sport reads as before, key, stamp, flag and sharing are unchanged, `DEFAULT_SPORTS` gets the same entry when shared and is untouched otherwise, and both cells were written. |
| `ApiSpec.SetSportConfigWritesDefaults` | src/services/odds/api.ts:63-67 | When the sports object is still the defaults object, `setSportConfig` also changes `DEFAULT_SPORTS` at that key. |
| `ApiSpec.EmptyKeyUnconfigures` | src/services/odds/api.ts:84-86 | `setApiKey("")` leaves `isConfigured()` false. |
| `ApiSpec.PersistedKeySurvivesRestart` | src/services/odds/api.ts:22-82 | After a `setApiKey` whose two writes succeed, a new client on the same cells arrives at the same key and the same sports (its defaults filled in) and is configured exactly when the key is non-empty. |
| `ApiSpec.LocalOnlySaveIsOverridden` | src/services/odds/api.ts:77-82 | When only the local write succeeds and the remote cell holds a copy stamped after the in-memory stamp, a new client adopts the remote copy and its key, discarding the local save. |
| `ApiSpec.GuardsComeFirst` | src/services/odds/api.ts:143-172 | A disabled sport fails with SPORT_DISABLED whatever the key; an enabled sport with an empty key fails with API_KEY_REQUIRED; no request is issued exactly in these two cases, and neither changes the state. |
| `ApiSpec.RequestCarriesCheckedKey` | src/services/odds/api.ts:105-122 | Once the key check passes, one GET of base URL plus endpoint is issued with the checked key first and the endpoint's parameters after, the outcome is the reply's mapping, and the configuration is unchanged. |
| `ApiSpec.EndpointsDistinct` | src/services/odds/api.ts:143-172 | The odds, live-events and scores paths never coincide, and the odds path determines its sport key. |
| `ApiSpec.ScenarioNoKey` | src/services/odds/api.ts:143-152 | A joined client on a device with nothing stored and no key: `getOdds("soccer_x")` issues nothing and fails with API_KEY_REQUIRED if the defaults enable the sport, with SPORT_DISABLED otherwise. |
| `ApiSpec.ScenarioEnabled` | src/services/odds/api.ts:143-152 | Key "k" and the sport enabled: a 200 reply resolves `getOdds` with exactly its body after one GET carrying `apiKey`, `regions=eu` and `markets=h2h`. |
| `Api.OddsApi.constructor` | src/services/odds/api.ts:12-20 | The new object's state is `Constructed`: its sports field is the defaults object itself. |
| `Api.OddsApi.Initialize` | src/services/odds/api.ts:22-43 | The state moves as `InitializeStep`: loaded copies get fresh sports objects, an adopted remote copy is written locally. |
| `Api.OddsApi.Settle` | src/services/odds/api.ts:19-43 | The state moves as `SettleStep`: `initialize` runs only if it has not run yet. |
| `Api.OddsApi.EnsureInitialized` | src/services/odds/api.ts:45-50 | The state moves as `EnsureInitializedStep`: a recorded promise is settled and then cleared. |
| `Api.OddsApi.SaveConfig` | src/services/odds/api.ts:77-82 | Only the cells change, as `SaveConfigStep` says. |
| `Api.OddsApi.SetApiKey` | src/services/odds/api.ts:52-57 | The state moves as `SetApiKeyStep`; the key is `key` and the client is initialised. |
| `Api.OddsApi.SetSportConfig` | src/services/odds/api.ts:63-67 | The state moves as `SetSportConfigStep`, writing through a shared defaults object; the sport then reads back as set. |
| `Api.OddsApi.GetApiKey` | src/services/odds/api.ts:59-61 | The key held at that moment, without joining initialisation. |
| `Api.OddsApi.GetSportConfig` | src/services/odds/api.ts:69-71 | The sport's entry in the sports object if present, else its entry in `DEFAULT_SPORTS` if present, else disabled with a 30-second interval. |
| `Api.OddsApi.GetAllSportsConfig` | src/services/odds/api.ts:73-75 | The sports object itself, holding the configured sports; it is the `DEFAULT_SPORTS` object exactly when no stored copy was adopted. |
| `Api.OddsApi.IsConfigured` | src/services/odds/api.ts:84-86 | True exactly when the client state is `Configured`. |
| `Api.OddsApi.TestConnection` | src/services/odds/api.ts:88-103 | One GET of the base URL carrying the key under test, whatever it is; succeeds exactly on a 2xx reply and answers true exactly for 200. |
| `Api.OddsApi.ValidateApiKey` | src/services/odds/api.ts:105-110 | An empty key is refused with API_KEY_REQUIRED before and without joining initialisation; otherwise initialisation is joined. |
| `Api.OddsApi.Request` | src/services/odds/api.ts:112-137 | Outcome, issued request and new state are those of `RequestStep`. |
| `Api.OddsApi.GetSports` | src/services/odds/api.ts:139-141 | As `GetSportsStep`: a request to `/` with no extra parameters. |
| `Api.OddsApi.GetOdds` | src/services/odds/api.ts:143-152 | As `GetOddsStep`: the sport guard, then a request to `/{sport}/odds` with `regions` and `markets=h2h`. |
| `Api.OddsApi.GetLiveEvents` | src/services/odds/api.ts:154-162 | As `GetLiveEventsStep`: the sport guard, then a request to `/{sport}/odds-live` with `markets=h2h`. |
| `Api.OddsApi.GetScores` | src/services/odds/api.ts:164-172 | As `GetScoresStep`: the sport guard, then a request to `/{sport}/scores` with `daysFrom`. |
| `Hooks.HandleError` | src/hooks/useOdds.ts:4-9 | A client error is returned unchanged; any other thrown value becomes an API_CONNECTION_ERROR error. |
| `Hooks.QueryOutcome` | src/hooks/useOdds.ts:29-35 | A query function resolves exactly when the client call returns, with its value, and otherwise rejects with an `OddsApiError`, the normalised thrown value. |
| `Hooks.QueryPreservesClientOutcome` | src/hooks/useOdds.ts:29-35 | Wrapping a client call changes neither its value nor its error, so every client code reaches the retry predicate. |
| `Hooks.RetrySportQuery` | src/hooks/useOdds.ts:37-40 | The retry predicate of the sport queries: fewer than two failures and a code string other than `SPORT_DISABLED` (a predicate; `RetryRule` and `AttemptCount` state its consequences). |
| `Hooks.RetryRule` | src/hooks/useOdds.ts:37-40 | A sport query is retried exactly when fewer than two failures were counted and the code is not SPORT_DISABLED, i.e. as the sports query's `retry: 2` except that SPORT_DISABLED is never retried. |
| `Hooks.AttemptCount` | src/hooks/useOdds.ts:37-40 | Under persistent failure a SPORT_DISABLED query runs once and any other three times. |
| `Hooks.SportsQueryEnabled` | src/hooks/useOdds.ts:18 | `enabled` of the sports query: the client is configured (a predicate; see `EnabledQueryPassesKeyGuard`). |
| `Hooks.SportQueryEnabled` | src/hooks/useOdds.ts:42 | `enabled` of the odds, live-events and scores queries: configured and a non-empty sport key (a predicate; see `EnabledQueryPassesKeyGuard`). |
| `Hooks.EnabledQueryPassesKeyGuard` | src/hooks/useOdds.ts:18-89 | Whenever the odds, live-events or scores query is enabled (configured, non-empty sport key), whatever its endpoint and parameters, it never fails with API_KEY_REQUIRED, and it sends its request exactly when the sport is enabled, with the client's key as the first parameter. An enabled sports query always sends its request. |
| `Hooks.QueryKey` | src/hooks/useOdds.ts:13-76 | The sports query has a one-element key; every sport query has a two-element key ending in its sport key. |
| `Hooks.QueryKeysDistinct` | src/hooks/useOdds.ts:13-76 | Two queries share a cache key exactly when they are the same query on the same sport key. |

## Left out

- Error messages: `OddsApiError` keeps only its code; the text of `ERROR_MESSAGES` lives in a file that is not part of this model.
- INITIALIZATION_ERROR is never raised: every load and save that `initialize` calls swallows its failures, so the `catch` of api.ts:39-42 is unreachable in the model.
- Promise interleaving: two early callers joining the same pending promise, and the exact moment the constructor's promise settles, are not modelled; settling is the explicit step `Settle`, and the local load it performs happens there rather than during construction. In the source, `initialize` is half done while it awaits the remote load (api.ts:31) after adopting a local copy (api.ts:27): a `request` made then passes the key check (api.ts:106) with the local key and sends the key initialisation finally leaves (api.ts:118), which is the remote copy's key when that is adopted. The model has no such window, so `RequestCarriesCheckedKey` does not describe it.
- `Api.OddsApi.Initialize` requires that initialisation has not run: the source's `initialize` is private and runs once, from the constructor, and the model calls it only from `Settle`.
- JSON: parsing and serialising are not modelled; a cell's content is given as an `Entry`. An entry that is empty, malformed, the JSON `null`, or held by a store that throws is `Unreadable`. A stored JSON primitive other than `null` (`5`, `"x"`, `true`) is not unreadable in the source: storage.ts:12-15 returns a configuration with no key, no stamp and the default sports, which is the cell `Present(Config("", map[], ""))` here (an absent field taken as the empty string, which the source's truthiness tests treat alike). With it, initialisation has an empty stamp and adopts any remote copy.
- Default arguments: `regions = 'eu'` and `daysFrom = 1` are explicit parameters of `GetOdds` and `GetScores`; the scenarios use `DefaultRegions`.
- Property lookup on the sports object: keys inherited from `Object.prototype` (such as `constructor`) are not modelled; the lookup sees only the map's own entries.
- String order: stamps are compared by Unicode scalar value, not by UTF-16 code unit; the two agree for the ISO timestamps the client writes.
- `refreshInterval` is an integer; a fractional JavaScript number is not modelled.
- Transport: axios is replaced by the abstract `Reply`, with its default rule that only 2xx statuses resolve; headers, timeouts, URL encoding of the parameters and the shape of the provider's payload (a type parameter) are not modelled.
- The query library: caching, `staleTime`, `refetchInterval` polling, retry delays and the `onError` logging callbacks. Only the predicates and keys handed to it are modelled; `AttemptsFrom` assumes the library calls `retry` with the number of failures before the current one.
- `console.error` logging and the view components (pages and home components): no effect on the configuration.
- `new Date()`: the current time is the `now` argument of the constructor and of the saves.

