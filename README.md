# Emergency PWA: connectivity, offline cache and service worker

This project models the behaviour-bearing core of an offline-first emergency web application, and proves properties of that model. It covers three parts of the application.

- **The page script (`app.js`).**
  - The connectivity hysteresis: `lastKnownConnectivity`, `connectivityCheckCount` and the routines that change them.
  - The probe verdict of `checkConnectivity`.
  - The two-backend data cache (`storeDataInCache` / `getCachedData`).
  - The online-entry and five-minute refresh pipelines.
  - The `getUserLocation` fallback chain.
  - The text of the emergency SMS.
- **The service worker (`service-worker.js`).**
  - The precache on `install` and the cleanup on `activate`.
  - The routing and caching decision of the `fetch` handler.
  - The drain of the SMS outbox started by `sync`.
  - The IndexedDB upgrade handlers. The page and the worker share one database.
- **The development stub (`mock-api.js`).** A first-match table of URL fragments and HTTP methods that replaces `window.fetch`.

Modules, one file each:

| module | file | what it models |
|---|---|---|
| `Wrappers` | `wrappers.dfy` | `Option` |
| `Text` | `text.dfy` | `String.prototype.includes` as `Contains`, and decimal printing with its parser |
| `AppConfig` | `app_config.dfy` | the `config` object and the request URLs built from it |
| `Probe` | `probe.dfy` | one connectivity probe round |
| `Connectivity` | `connectivity.dfy` | the hysteresis |
| `Payloads` | `payloads.dfy` | the JSON data seen by the code |
| `CacheStore` | `cache_store.dfy` | the data cache |
| `Pipelines` | `pipelines.dfy` | location, online entry, refresh and the SMS text |
| `Database` | `database.dfy` | the database upgrades |
| `ServiceWorker` | `service_worker.dfy` | the worker |
| `MockApi` | `mock_api.dfy` | the stub |
| `Interplay` | `interplay.dfy` | cross-file facts: the page's URLs against the stub |
| `WorkerInterplay` | `worker_interplay.dfy` | cross-file facts: the page's URLs against the worker |

The transitions are given once as functions on values. The state-changing code is modelled as classes whose methods are proved to follow those functions:

- `Connectivity.Monitor`
- `CacheStore.LocalCache`
- `ServiceWorker.Worker`

Network calls, timers, `Date.now()` and `Math.random()` are inputs. Each input is the outcome of the call: a response, a failure or a value.

Where the code does not do what a reader might expect, the model follows the code:

- **The counter is cumulative.** The connectivity counter is not a count of *consecutive* successes. A failed round while already Offline is a no-op, so the counter survives it. Online is reached after three successes accumulated since the last reset (`Connectivity.OfflineRoundsAccumulate`, `Connectivity.InterleavedFailureStillReachesOnline`).
- **The drain is one pass over every record.** It is not a FIFO queue, and it does not stop at the first failure. Each record is attempted once per pass, and a record is deleted exactly when its POST was ok. No code shown here ever adds to the outbox.
- **The page can leave the worker without an outbox.** The page's upgrade handler creates only `emergencyData`. If the page creates the database first, `smsOutbox` never exists, and the worker's drain fails at once (`Database.OpenOrderDecidesOutbox`, `ServiceWorker.PageCreatedDatabaseNeverDrains`).
- **Two stub rules never fire for the page's own requests.** The page's QoD and SMS URLs end in `/qod/v1/sessions` and `/sms/v1/messages`. Neither contains the stub's fragment (`/qod/sessions`, `/sms/messages`), so both requests reach the network (`Interplay.QodRequestPassesThrough`, `Interplay.SmsRequestPassesThrough`).

## Model

| member | source | states |
|---|---|---|
| Connectivity.SetOffline | app.js:120-137 | Forced, or not yet Offline: becomes Offline, resets the counter to 0 and runs offline initialisation once. Otherwise the state is unchanged. |
| Connectivity.SetOnline | app.js:140-156 | Becomes Online without touching the counter. Online initialisation runs only when the state was not Online already. Re-announcing Online is a no-op. |
| Connectivity.Round | app.js:159-180 | A successful round adds one to the counter. It ends Online exactly when the state was Online or the counter reaches 3, and runs online initialisation exactly when it newly reaches the threshold. A failed round resets to Offline with a zero counter and one offline initialisation, unless already Offline, in which case nothing changes. |
| Connectivity.OnBrowserOffline | app.js:51-55 | The `offline` event always zeroes the counter and re-runs offline initialisation, even when already Offline. |
| Connectivity.Begin | app.js:24-48 | `initApp` forces Offline with a zero counter and one offline initialisation before its first probe. |
| Connectivity.Step | app.js:18-20 | Every event preserves the invariant "Online iff counter >= 3, and the indicator matches the mode". Every event adds at most one initialisation to the effect log and keeps the earlier ones. |
| Connectivity.Run | app.js:18-20 | Any sequence of events preserves the invariant and adds at most one initialisation per event. |
| Connectivity.LoadedSatisfiesInv | app.js:18-20 | The invariant holds at script load: unknown mode, counter 0. |
| Connectivity.OfflineRoundsAccumulate | app.js:121 | From Offline and below the threshold, any mix of successful and failed rounds leaves the mode Offline. The counter becomes the start value plus the number of successes: failures do not reset it. |
| Connectivity.ReachesOnlineOnThresholdSuccess | app.js:170-174 | From Offline, the success that brings the accumulated count to 3 yields Online with counter 3 and exactly one new online initialisation. |
| Connectivity.OnlineNeedsAccumulatedSuccesses | app.js:170-177 | From Offline, a run of rounds ends Online only if it held enough successes to reach 3. |
| Connectivity.InterleavedFailureStillReachesOnline | app.js:121 | Start, then success, failure, success, success ends Online: the successes need not be consecutive. |
| Connectivity.Monitor.constructor | app.js:18-19 | Script load: unknown mode, counter 0, no effects. |
| Connectivity.Monitor.SetOfflineMode | app.js:120-137 | The fields change exactly as `SetOffline` prescribes. |
| Connectivity.Monitor.SetOnlineMode | app.js:140-156 | The fields change exactly as `SetOnline` prescribes. |
| Connectivity.Monitor.CheckAndUpdateConnectivity | app.js:159-180 | Returns the probe verdict. The fields change exactly as `Round` prescribes for that verdict. |
| Connectivity.Monitor.HandleBrowserOffline | app.js:51-55 | The fields change exactly as `OnBrowserOffline` prescribes. |
| Connectivity.Monitor.InitApp | app.js:24-58 | Start-up followed by the first awaited round: the state is the run of those two events. |
| Probe.Results | app.js:85-107 | One value per endpoint. An image request resolves to true exactly when its load fired first. |
| Probe.AnyTrue | app.js:111 | `results.some` is true iff some entry is true. |
| Probe.Verdict | app.js:67-117 | The round is online iff the browser reports a network, nothing threw, and at least one of the probes loaded before its error or timeout. |
| Probe.ProbeUrls | app.js:105 | One URL per endpoint, each starting with its endpoint. |
| Probe.CacheBusterRoundTrip | app.js:81-105 | The query `?t=<timestamp>&r=<nonce>` parses back to the round's timestamp and nonce. |
| Probe.ProbeUrlsShareParameters | app.js:81-105 | Every URL of a round carries the same `t` and `r`. |
| Probe.DistinctRoundsDistinctUrls | app.js:81-82 | Rounds with different `t` or `r` request different URLs from every endpoint. |
| Text.DecimalRoundTrip | app.js:105 | The decimal text of a number parses back to the number. |
| CacheStore.Put | app.js:380-402 | With the Cache API, the store fails iff the database does not open. Otherwise it writes exactly one backend: the IndexedDB record `latest` (fully replaced by `{data, timestamp}`) when the Cache API exists, or else the localStorage key. Nothing else changes. |
| CacheStore.Get | app.js:405-433 | Returns the IndexedDB record's data when it is present and truthy. Any non-null result comes from that record or from the readable localStorage copy. |
| CacheStore.NeverWrittenGivesNull | app.js:432 | A store never written gives `null`. |
| CacheStore.PutThenGet | app.js:380-433 | Reading after a successful write gives the written data. Falsy data written to IndexedDB is excluded, because the read skips it. |
| CacheStore.PutReplaces | app.js:388-392 | A second write leaves no trace of the first. |
| CacheStore.LocalCache.StoreDataInCache | app.js:380-402 | Reports whether the store succeeded. The backends become what `Put` gives, or stay as they were when it fails. |
| CacheStore.LocalCache.GetCachedData | app.js:405-433 | Returns `Get` of the current backends. |
| Pipelines.UserLocation | app.js:333-377 | The CAMARA location when that call succeeds, else the browser's geolocation. Fails iff both fail. |
| Pipelines.Stored | app.js:191-197 | The cache is written iff location succeeds, the fetch succeeds and the store does not reject. What is written is the fetched data. |
| Pipelines.OnlineEntry | app.js:183-208 | A failure before the write leaves the cache unchanged, shows nothing and schedules no refresh. Otherwise the cache is the written one. The refresh is scheduled iff everything succeeded and the data could be displayed. |
| Pipelines.TickStores | app.js:565-568 | A tick writes only while the browser reports a network, and writes the fetched data. |
| Pipelines.TickCache | app.js:563-574 | A failed or offline tick leaves the cache unchanged. A successful one performs exactly the store of the fetched data. |
| Pipelines.FailedTicksKeepCache | app.js:571-573 | Any number of failing ticks leave the cache exactly as it was. |
| Pipelines.LastWriteWins | app.js:563-574 | After any ticks, the cache reads back what the last writing tick fetched, whatever failed afterwards. |
| Pipelines.SmsBody | app.js:290-304 | Every message starts with `EMERGENCY ALERT: `. Without cached data the message is the generic sentence. The message cannot be composed iff the data lacks a first shelter, route or gas station, or is not an object with those arrays. |
| Pipelines.SmsUsesFirstEntriesOnly | app.js:298-300 | Data agreeing on the first shelter, route and gas station give the same message. |
| Pipelines.SmsOrder | app.js:294-300 | The message names the first shelter right after the prefix, then the route, then the gas station, in that order. |
| Database.CreateStore | service-worker.js:143 | Creating a store fails iff it exists already, and otherwise adds exactly it. |
| Database.Upgrade | service-worker.js:140-148 | The worker's guarded upgrade never fails and yields the existing stores plus `smsOutbox` and `emergencyData`. The page's unguarded upgrade fails iff `emergencyData` exists and never creates the outbox. |
| Database.Open | service-worker.js:136-158 | An existing database opens unchanged. A new one gets both stores from the worker but only `emergencyData` from the page. |
| Database.OpenOrderDecidesOutbox | app.js:436-453 | Page first: no `smsOutbox` ever exists. Worker first: it exists. |
| ServiceWorker.Entries | service-worker.js:66 | The entries of the first cache with that name, or none when no such cache exists. |
| ServiceWorker.UpdateCache | service-worker.js:66-69 | Opening a cache and putting entries creates the cache if missing, and adds exactly those entries to it. Every other cache's entries stay unchanged. |
| ServiceWorker.UpdateCacheKeepsNamesDistinct | service-worker.js:66-69 | Opening or filling a cache adds its name to the set of cache names and nothing else. It never creates a second cache of a name that already exists. |
| ServiceWorker.FirstHit | service-worker.js:50 | A miss iff no cache holds the URL. Otherwise the response of the first cache, in creation order, that holds it. |
| ServiceWorker.Fallback | service-worker.js:73-88 | Any request that is neither a navigation nor an image gets the 408 `text/plain` "Network error occurred" response. |
| ServiceWorker.HandleFetch | service-worker.js:43-91 | Not intercepted iff the URL contains `/camara/`. A hit is answered as cached and nothing is stored. A miss returns the network response unchanged, and stores it iff it is ok, not partial, from a GET and not under `/api/`. The answer can be missing only when the network failed for a navigation or an image. |
| ServiceWorker.HitIgnoresNetwork | service-worker.js:50-54 | On a cache hit the network outcome cannot change the answer. |
| ServiceWorker.StoredIsServedNext | service-worker.js:56-71 | A response the handler stores answers the same request next time, from the cache, whatever the network does. |
| ServiceWorker.Current | service-worker.js:29-37 | Activation keeps exactly the caches named `emergency-pwa-v1`. |
| ServiceWorker.ActivateKeepsCurrentCache | service-worker.js:27-40 | Activation leaves no cache of another name. It leaves the current cache's entries untouched, and a second activation changes nothing. |
| ServiceWorker.ActivateLeavesAtMostOneCache | service-worker.js:27-40 | When cache names are distinct, activation leaves at most one cache, and the names stay distinct. |
| ServiceWorker.Precache | service-worker.js:15-23 | Install succeeds iff every asset fetch is ok. The current cache exists afterwards, holding all the assets on success and exactly its old entries on failure. Other caches are unchanged. |
| ServiceWorker.AssetEntries | service-worker.js:4-12 | The precached URLs are exactly the seven static assets. |
| ServiceWorker.FallbacksNotPrecached | service-worker.js:4-12 | Neither `/offline.html` nor `/images/offline-image.png` is a static asset. |
| ServiceWorker.FreshInstallLeavesNavigationWithoutFallback | service-worker.js:73-77 | After a fresh install, a navigation missing the cache while the network is down gets no response. |
| ServiceWorker.Drained | service-worker.js:108-129 | After one pass, a record leaves the outbox exactly when its POST was ok. The remaining records are unaltered and stay in key order. |
| ServiceWorker.DrainIsPerMessage | service-worker.js:108-127 | A record's fate depends only on its own POST: one failure does not block the others. |
| ServiceWorker.RepeatedPasses | service-worker.js:117-123 | Over several passes, a record stays queued iff no pass sent it ok. |
| ServiceWorker.PageCreatedDatabaseNeverDrains | service-worker.js:103-106 | If the page created the database, the drain never runs. |
| ServiceWorker.Worker.Install | service-worker.js:15-23 | The cache storage and the result become what `Precache` gives. |
| ServiceWorker.Worker.Activate | service-worker.js:27-40 | The cache storage becomes `Current` of the old one. |
| ServiceWorker.Worker.OnFetch | service-worker.js:43-91 | Answers as `HandleFetch` says, and performs the `cache.put` it decided on. |
| ServiceWorker.Worker.SendPendingSms | service-worker.js:101-133 | When the database opens with an outbox, every queued record is attempted once and the outbox becomes `Drained`. Otherwise nothing is attempted and the outbox is unchanged. |
| ServiceWorker.Worker.OnSync | service-worker.js:94-98 | Only the tag `emergency-sms-outbox` drains the outbox. Any other tag changes nothing. |
| MockApi.DispatchBy | mock-api.js:65-130 | With options, a call is mocked iff some rule fires (its fragment is in the URL and its method equals `options.method`), and the mock is that of the first firing rule. Without options, a URL containing any fragment raises the TypeError, and nothing is mocked. |
| MockApi.UnmatchedPassesThrough | mock-api.js:129 | A URL containing no fragment is handed to the original `fetch`. |
| MockApi.FirstFiringRuleAnswers | mock-api.js:69-117 | The first firing rule answers, whatever later rules say. |
| Interplay.QodUrlMatchesNoFragment | app.js:11 | `…/qod/v1/sessions` contains none of the stub's fragments. |
| Interplay.SmsUrlMatchesNoFragment | app.js:12 | `…/sms/v1/messages` contains none of the stub's fragments. |
| Interplay.QodRequestPassesThrough | mock-api.js:93 | The QoD POST goes to the network, not to the QoD mock. |
| Interplay.SmsRequestPassesThrough | mock-api.js:105 | The SMS POST goes to the network, not to the SMS mock. |
| Interplay.LocationRequestIsMocked | mock-api.js:69 | The device-location POST is answered by the location mock. |
| Interplay.EmergencyRequestIsMocked | mock-api.js:117 | The emergency-data POST falls through four rules to the emergency mock. |
| WorkerInterplay.CamaraRequestsBypassWorker | service-worker.js:45-47 | The page's CAMARA requests (location, QoD, SMS) are never intercepted by the worker. |
| WorkerInterplay.EmergencyDataNeverStored | service-worker.js:59 | The worker never caches a response of the emergency backend, because its URL contains `/api/`. |

## Left out

- DOM rendering and UI feedback: `displayEmergencyInfo`'s HTML, `showMessage`, `showErrorMessage`, the phone-number input and the install prompt. Of `displayEmergencyInfo`, only the fact that it throws unless the data has the three arrays is kept (`Pipelines.Displayable`). The status element is reduced to an abstract indicator.
- Real network I/O (the CAMARA and backend `fetch` calls, the `Image` probes, `getAccessToken`) is not performed. Each call is an outcome given as input.
- `requestQoD` is left out. It catches its own errors, and its result is unused, so it cannot influence online entry.
- The SMS POST in `sendEmergencySMS` and its UI feedback are not modelled; only the message text is (`Pipelines.SmsBody`).
- The body of `initOfflineMode` (showing cached data, then location and the SMS send) is not modelled. It is represented only by the `InitOffline` effect. Its parts are covered by `CacheStore.Get`, `Pipelines.UserLocation` and `Pipelines.SmsBody`.
- The nested `DOMContentLoaded` listener with the SMS-link button is not modelled. It is registered from inside the `DOMContentLoaded` handler, so it never runs.
- Timers and concurrency are not modelled: the probe timeouts, the 1.5-second and 5-minute intervals, overlapping probe rounds and the `Promise.all` parallelism of the drain. Each round, tick and drain pass is atomic.
- Floating-point distances and coordinates are opaque strings.
- `JSON.stringify`/`JSON.parse` are not modelled. A localStorage value is either readable data or unreadable.
- IndexedDB, localStorage and Cache Storage are maps. Four awaited IndexedDB wrapper calls are taken to behave as a promise-based wrapper would. `store.get` (app.js:411) yields the stored record. `tx.complete` (app.js:394, service-worker.js:122) completes. `store.getAll()` (service-worker.js:106) yields the array of records in key order. `deleteStore.delete(...)` (service-worker.js:121) deletes the record. Against the raw IndexedDB API these calls return request objects, `pendingMessages.map` would throw, and the drain would attempt nothing; `ServiceWorker.Drained` and `ServiceWorker.Worker.SendPendingSms` rest on this assumption.
- Cache keys are URL strings. Resolution of relative URLs against the origin and `Vary` matching are not modelled.
- `CacheStore.Put`: does not model the side effect that `caches.open('emergency-data-cache')` creates an empty Cache Storage entry, which a later activation of the worker deletes.
- The handler's `cache.put` is not awaited, so the model applies it at once, before the next request.
- `self.skipWaiting()` and `self.clients.claim()` are not modelled, because they concern worker lifecycle only.
- An outbox enqueue, FIFO order, attempt counters and stop-at-first-failure are not modelled, because the code has none of them.
- `Connectivity.Monitor.effects`: the log of initialisations is a ghost field. It records which routine a transition starts, not what that routine does.
