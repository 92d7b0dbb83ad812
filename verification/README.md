# Cluster API server manager, modelled in Dafny

This project models the cluster manager of `cluster/manager.go`: a cache of
per-cluster API server handlers keyed by the cluster's UUID. A request for a
cluster returns the stored handler when there is one. Otherwise the manager
resolves the cluster's REST configuration, builds a record (handler plus
cancellable context) and inserts it if the key is still absent. Only the
request whose insert won starts an eviction goroutine. That goroutine sleeps
10 minutes, deletes the key, sleeps 1 minute and cancels the record's context.

Files and modules:

- `base.dfy` (`Base`): `Option` (a nil-able pointer), `Error`, `Result` (a Go value/error pair) and `byte`.
- `resolution.dfy` (`Resolution`): `toRESTConfig` as the pure function `ToRESTConfig`. The lister, `url.Parse` and base64 decoding are function-valued fields of `Resolver`.
- `construction.dfy` (`Construction`): the decision `toServer` makes, as the pure function `Build`. `config.NewClusterContext`, `clusterapi.New` and `Start` are function-valued fields of `Builder`.
- `lifecycle.dfy` (`Lifecycle`): the history of the `servers` map as a sequence of `Stored`/`Hidden`/`Cancelled` events. `Visible` replays a history into the map. `Legal` fixes the order of the steps but not their timing, so every history the code produces is legal, but not every legal history is one the code produces. The lemmas state what every legal history satisfies.
- `manager.dfy` (`ClusterManager`): the `Manager` class and its state:
  - `servers: map<Key, Record>`;
  - the running eviction goroutines, `evictions: map<Context, Eviction>`;
  - a discrete clock `now` (minutes);
  - a ghost `trace` of events.

  `Valid()` ties `servers` to `Visible(trace)`, keeps `trace` legal, keeps a goroutine for every record stored and not yet cancelled, and gives every visible record a goroutine in its grace sleep on a live context. `APIServer`, `ToServer` and `Publish` are the request path. `Hide` and `Destroy` are the goroutine's two wake-ups. `Advance` moves the clock.
- `scenarios.dfy` (`Scenarios`): callers proved from the contracts alone. They cover two racing misses on one key, and the timeline "stored at 0, hit at 5, hidden at 10, stored anew, old context cancelled at 11".

Points of the code that the model keeps as written:

- The code never cancels the context created at line 117 when construction fails after it. When `clusterapi.New` fails, that context is dropped (lines 119-122). When `Start` fails, `toServer` returns the record together with the error (lines 124-126), and `APIServer` discards it (line 47). `Build` reports such a context through `contextOpened`, and nothing in the model cancels it.
- A request whose insert loses (line 54 reports `loaded`) drops the record it built. `Start` already ran on that record's context (line 124), and nothing ever cancels it. `Publish` leaves that context live and starts no goroutine for it, and `Scenarios.RacingMisses` states the leak.
- The cancel happens 11 minutes after the store: the goroutine sleeps 10 minutes, deletes the key, sleeps 1 more minute and cancels (lines 57-60).
- There is no separate "unknown cluster" outcome. A nil cluster from the lister is "not ready" `(nil, nil)` (lines 73-75), and any lister error, not-found included, is returned as it is (lines 69-71).

## Model

| member | source | states |
|---|---|---|
| `Resolution.ToRESTConfig` | cluster/manager.go:67-103 | A lister error is returned unchanged before anything else. The outcome is "not ready" exactly for a nil cluster, an internal cluster without a local config, or a remote cluster with an empty endpoint, CA or token. An internal cluster gets the local config. A complete remote cluster is ready exactly when its endpoint parses and its CA decodes. The config then has the URL's host and path, the token and the decoded CA. Any other error is the parser's, or else the decoder's. |
| `Resolution.InternalIgnoresStatus` | cluster/manager.go:77-79 | The resolution of an internal cluster does not depend on its status fields. |
| `Construction.Build` | cluster/manager.go:105-128 | "Nothing and no error" happens exactly when resolution is not ready. A resolution error is returned with no context opened. A context is opened exactly when the config is ready and the cluster context was created; otherwise the `NewClusterContext` error is returned unchanged. Once a context is opened, a record comes back exactly when `clusterapi.New` succeeds, even when `Start` then fails; the record holds that handler and comes with Start's error. A failed `clusterapi.New` returns its own error unchanged and no record. |
| `Construction.UsableIffAllSucceed` | cluster/manager.go:105-128 | A record with no error comes back exactly when resolution, cluster context, handler and Start all succeed. |
| `Lifecycle.StepsFollowOrder` | cluster/manager.go:54-61 | In a legal history, every hide of a record has the store of that record under that key at an earlier position, and every cancel has the hide at an earlier position. |
| `Lifecycle.StoredUnderOneKey` | cluster/manager.go:54-55 | A record is stored under one key only. |
| `Lifecycle.VisibleIffPending` | cluster/manager.go:54-58 | The visible map sends a key to a record exactly when that record was stored under the key and its eviction has not yet deleted it. |
| `Lifecycle.HideRemovesOwnRecord` | cluster/manager.go:57-58 | When an eviction goroutine deletes its key, the key still holds that goroutine's own record, never a later record stored under the same key. |
| `Lifecycle.VisibleNeverCancelled` | cluster/manager.go:57-60 | No event of the history cancels a record that is still visible. |
| `Lifecycle.EachStepOnce` | cluster/manager.go:54-61 | Two events about the same record carry the same key and come in the order stored, hidden, cancelled, with none repeated. So each stored record has at most one delete and at most one cancel. |
| `Lifecycle.HideBeforeCancel` | cluster/manager.go:57-60 | Every cancel is preceded by the hide of the same record and key, and that hide by its store. |
| `ClusterManager.LoadOrStore` | cluster/manager.go:54 | `loaded` holds exactly when the key was present. No existing entry is overwritten. The keys grow by the key at most. The value returned is the one stored under the key afterwards. It is the new value when not loaded. |
| `ClusterManager.StoreKeepsConsistent` | cluster/manager.go:54-55 | A winning insert of a fresh record under an absent key keeps the state consistent. Consistent means: the history is legal; the map is exactly the history's visible map; every goroutine's record, phase and wake time match the history; every record stored and not yet cancelled has its goroutine; every visible record has a sleeping goroutine. |
| `ClusterManager.HideKeepsConsistent` | cluster/manager.go:56-58 | When a goroutine wakes from its grace sleep, its key still holds its own record. Deleting that key and entering the drain sleep keeps the state consistent. |
| `ClusterManager.CancelKeepsConsistent` | cluster/manager.go:59-60 | When a goroutine wakes from its drain sleep, no key maps to a record on its context, and every visible record's context has a goroutine. Cancelling and ending the goroutine keeps the state consistent. |
| `ClusterManager.Context.constructor` | cluster/manager.go:117 | A new context is not cancelled. |
| `ClusterManager.Context.Cancel` | cluster/manager.go:60 | After its cancel function runs, the context is cancelled. |
| `ClusterManager.Manager.constructor` | cluster/manager.go:19-24 | A manager starts with an empty map, no goroutines, an empty history and a valid state. |
| `ClusterManager.Manager.ToServer` | cluster/manager.go:105-128 | Returns `Build`'s error. A record is returned exactly when `Build` returns one. The record carries that handler and a freshly created context that is not cancelled. |
| `ClusterManager.Manager.Publish` | cluster/manager.go:54-62 | The map and the returned record are `LoadOrStore`'s. A loaded (losing) insert changes nothing else and starts no goroutine. A winning insert adds exactly one sleeping goroutine for its record, stamped with the current time, and one `Stored` event. |
| `ClusterManager.Manager.APIServer` | cluster/manager.go:40-65 | A hit returns the stored handler, logs nothing and changes nothing; that clause does not mention the collaborators, so a hit's outcome does not depend on them. On a miss the logged error is `Build`'s, so "not ready" logs nothing. A handler is returned exactly when the build gave a record and no error. Otherwise nothing changes, even when a record came back with Start's error. When stored, the record is the build's, on a fresh context, with one new goroutine. Any handler returned is the one stored under the key, on a live context. |
| `ClusterManager.Manager.Hide` | cluster/manager.go:56-58 | The goroutine wakes exactly one grace period after the store. It deletes its key, which held its own record, and enters the drain sleep. Only that key leaves the map. |
| `ClusterManager.Manager.Destroy` | cluster/manager.go:59-60 | The goroutine cancels its record's context, which was not cancelled before. This happens exactly grace plus drain after the store. The map is untouched, and no visible record is the cancelled one or has a cancelled context. The goroutine ends. |
| `ClusterManager.Manager.Advance` | cluster/manager.go:56-61 | The clock moves forward without passing any goroutine's wake time, and nothing else changes. |
| `ClusterManager.VisibleWithinGrace` | cluster/manager.go:56-58 | A visible record's goroutine is still in its grace sleep, it was stored at most a grace period ago, and its context is live. |
| `ClusterManager.PendingUntilCancelled` | cluster/manager.go:54-61 | Every record stored and not yet cancelled still has its eviction goroutine, with the same key and record, on a live context. That goroutine's next wake-up is due no later than grace plus drain after the store, so no stored record is left without a cancel. |
| `Scenarios.RacingMisses` | cluster/manager.go:40-65 | Request A builds with its own collaborators, B completes `APIServer` with its own, then A's insert-if-absent runs. Each gets a handler exactly when its own build succeeds. Every handler returned is the one stored under the key. A's insert is loaded exactly when both builds succeeded, so A wins when B's build failed. When A's insert is loaded, A's record is dropped: its context is live, has no goroutine and is not the stored record's. At most one goroutine is started, for the stored record, and nothing changes when both builds fail. |
| `Scenarios.FirstRequests` | cluster/manager.go:40-64 | A miss at time 0 stores one record with one goroutine. At time 5 a hit whose lister and builder all fail still returns the stored handler and logs nothing, so it does not build. |
| `Scenarios.HideFirst` | cluster/manager.go:56-58 | At time 10 the entry is gone and its context is still live. |
| `Scenarios.StoreAgain` | cluster/manager.go:41-64 | After the hide, the same key misses and stores a second record on a different context. |
| `Scenarios.GraceThenDrain` | cluster/manager.go:56-61 | At time 11 the first context is cancelled. The second record is visible and its context is live. |

## Left out

- Goroutines and `time.Sleep`: each eviction goroutine is an entry of `evictions` whose two wake-ups are the `Hide` and `Destroy` steps. The clock is discrete (minutes). `Advance` never passes a pending wake time, so timers fire exactly when their sleep ends.
- The cluster is a value. The code reads `cluster.Uuid` through the caller's pointer at lines 41 and 54, and the eviction goroutine reads it again at line 58, ten minutes after the call. The model assumes callers never change the cluster object after the call, so an eviction's key is fixed when its record is stored. If a caller did change it, the code would delete a different key, and `Lifecycle.HideRemovesOwnRecord` and `ClusterManager.HideKeepsConsistent` would no longer describe the code.
- `sync.Map` thread safety: `Load`, `LoadOrStore` and `Delete` are atomic steps on a map value. Interleavings are modelled only where a caller splits `APIServer` into `ToServer` and `Publish`, as `Scenarios.RacingMisses` does.
- `url.Parse`, `base64.StdEncoding.DecodeString`, the cluster lister, `config.NewClusterContext`, `clusterapi.New` and `clusterContext.Start`: these are function parameters that yield a value or an error. Their internals are not part of this model. Neither `clusterapi.New` nor `Start` is given the record's context (lines 119 and 124 pass `s.ctx`). That context is fresh and not yet cancelled at both calls, so their results depend only on the cluster context.
- The background work `Start` launches on a dropped context is not modelled. `Build.contextOpened` only records that such a context was created and left uncancelled.
- `NewManager` wiring, the behaviour of the returned `http.Handler`, `context.Context` beyond its cancelled flag, and logrus output. The log line is the `logged` result of `APIServer`.
- `rest.Config` keeps only the four fields resolution sets: host, prefix, bearer token and CA data.
- Process shutdown, which is the only thing that stops an eviction goroutine early.
