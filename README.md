# Event exporter core, modelled in Dafny

This project models the core of an exporter that turns Kubernetes events into
Prometheus gauges.

- **Backoff store** (`backoff.dfy`, from `backoff.go`). This is the per-key
  liveness tracker. Each observation of a key doubles its quiet window, up to
  a cap. A key is "in backoff" (gauge 1) while less than its window has passed
  since its last update. Once strictly more than twice the cap has passed, the
  key is expired. Queries then skip it, the next observation restarts it at
  the base window, and garbage collection deletes it. The class
  `BackoffStore` is the mutable store. Functions on the entry map state what
  each method does: `Next` makes the map `Advanced` of the old one (built
  from `NextEntry`), `GC` makes it `Collected` of the old one, and
  `AllKeysStateSinceUpdate` and `IsInBackOffSinceUpdate` return `Snapshot`
  of it or read from it. `Reset` removes the key, and the constructor starts
  with an empty map. The lemmas prove three things: when
  `0 <= base <= max`, windows stay in `[base, max]` under any sequence of
  operations; repeated observations double the window up to the cap; and
  the source's test cases hold.
- **Legacy controller** (`store.dfy`, from `store.go`). It covers the rewrite
  of image-pull reasons, how each observed event advances the store, and the
  scrape. A scrape joins the store's snapshot with the event cache, emits one
  0/1 sample per key that has a cached event, and then collects garbage once.
  It also covers the once-only `Stop`.
- **Type filter** (`filters.dfy`, from `pkg/filters/filters.go`). It is a
  case-insensitive membership test of the event type.
- **Collector cache** (`collector.dfy`, from `pkg/collector/event.go`). It
  covers the conjunction of filters, the cache keyed by event name, and the
  update handler that skips unchanged resource versions.

Times and durations are integer nanoseconds. `Next` and `GC` read the wall
clock in the source; here they take it as a `now` parameter. `ScrapEvents`
takes two clock readings, one for the snapshot and one for the collection
pass, because the source reads `time.Now()` once in each. Results of code
from libraries outside the repository become parameters:

- the key function's result;
- the split of a queue key into namespace and name;
- the informer cache and the lister (each a map to a lookup outcome).

`ScrapMapper` is this repository's own code, but it lists and decodes pods
through library code, so the metrics it emits are a parameter of `Scrap`.

## Model

| member | source | states |
|---|---|---|
| `Backoff.NextEntry` | backoff.go:37-47 | the observation time is always stored; an absent or expired entry restarts at the base window; a live one gets the least of twice its window and the cap, and never shrinks when it was within [0, max] |
| `Backoff.AdvancedTouchesOnlyId` | backoff.go:37-47 | an observation adds or replaces only its own key and leaves every other entry as it was |
| `Backoff.SilenceRestartsWindow` | backoff.go:38-42 | an observation that finds its key expired stores the base window, whatever the old window was |
| `Backoff.HasExpired` | backoff.go:72-74 | elapsed up to and including twice the cap is not expired; with a non-negative cap, an expired entry was updated strictly before the query time |
| `Backoff.ExpiryIsStrict` | backoff.go:72-74 | elapsed exactly twice the cap is not expired; one nanosecond more is |
| `Backoff.ExpiryIsPermanent` | backoff.go:72-74 | an entry expired at some time is expired at every later time |
| `Backoff.CollectedExactlyLive` | backoff.go:82-87 | garbage collection keeps exactly the entries that have not expired, each unchanged |
| `Backoff.CollectIdempotent` | backoff.go:78-88 | a second collection pass at the same time removes nothing |
| `Backoff.SnapshotIgnoresCollection` | backoff.go:78-110 | a collection pass at any time g leaves every snapshot taken at t >= g unchanged: the case of `RunIgnoresCollection` with no operations in between |
| `Backoff.RunIgnoresCollection` | backoff.go:34-110 | a collection pass at g followed by any sequence of observations, resets and collections whose clocks read at least g gives the same snapshot at every t >= g as the same sequence without that pass |
| `Backoff.ApplyKeepsMissingOnlyExpired` | backoff.go:34-88 | if one map is the other minus keys expired at g, one operation with a clock of at least g keeps that relation |
| `Backoff.RunKeepsMissingOnlyExpired` | backoff.go:34-88 | the same relation survives a whole sequence of such operations |
| `Backoff.ObservationIgnoresCollection` | backoff.go:37-88 | a collection pass at g does not change the entry a later observation (wall clock >= g) stores for its key |
| `Backoff.ApplyKeepsWindowsWithin` | backoff.go:39-54 | one observation, reset or collection keeps every window in [base, max] when 0 <= base <= max |
| `Backoff.RunKeepsWindowsWithin` | backoff.go:34-88 | any sequence of observations, resets and collections keeps every window in [base, max] when 0 <= base <= max |
| `Backoff.RunFromEmptyKeepsWindowsWithin` | backoff.go:24-88 | starting from a new store, every window ever stored lies in [base, max] |
| `Backoff.LiveObservationsDouble` | backoff.go:37-47 | n observations of a new key, with any event times and wall clocks, each arriving before the previous one expired, leave the window at min(base * 2^(n-1), max) and the last event time stored, when 0 <= base <= max |
| `Backoff.RepeatedObservationsDouble` | backoff.go:43-47 | n observations of a new key at one event time and one wall clock, live at that clock, leave the window at min(base * 2^(n-1), max), when 0 <= base <= max |
| `Backoff.DoublingSchedule` | backoff.go:43-47 | with a 10s base and a 300s cap, successive windows are 10, 20, 40, 80, 160, 300, 300 seconds |
| `Backoff.NextTestCases` | backoff_test.go:122-172 | the three cases of TestBackoff_Next: a new key gets 10s, 10s doubles to 20s, 200s is capped at 300s, and lastUpdate is the given time each time |
| `Backoff.SnapshotTestCases` | backoff_test.go:24-90 | the four cases of TestBackoff_AllKeysStateSinceUpdate: empty, fresh, 20s old with a 10s window, and the mixed case |
| `Backoff.SingleKeyLifecycle` | backoff.go:37-110 | a key observed once is active after 1s, inactive at exactly its 10s window and at 20s and 600s, and gone from the snapshot and the store at 700s |
| `Backoff.BackoffStore.constructor` | backoff.go:24-31 | a new store is empty and keeps the base and the cap as given |
| `Backoff.BackoffStore.Next` | backoff.go:34-48 | the map becomes `Advanced` of the old map; the key is present with the event time; every other key is unchanged; windows stay in [base, max] when 0 <= base <= max |
| `Backoff.BackoffStore.Reset` | backoff.go:51-55 | the key is removed and nothing else changes; afterwards it is in backoff at no time and in no snapshot |
| `Backoff.BackoffStore.IsInBackOffSinceUpdate` | backoff.go:58-69 | true exactly when the key is in the snapshot with state true; true implies present and elapsed < window; elapsed == window gives false |
| `Backoff.BackoffStore.GC` | backoff.go:78-88 | the map becomes exactly its unexpired entries, unchanged; windows stay in [base, max] |
| `Backoff.BackoffStore.Get` | backoff.go:91-93 | for a present key, returns its window and last update; the window lies in [base, max] when the store's windows do |
| `Backoff.BackoffStore.AllKeysStateSinceUpdate` | backoff.go:96-110 | the result's domain is exactly the unexpired keys, each value agrees with IsInBackOffSinceUpdate, and the store is not changed |
| `Store.EventCleaning` | store.go:161-169 | only the reason changes; a FailedSync reason gets `_ErrImagePull` when the message contains ErrImagePull, otherwise `_ImagePullBackOff` when it contains ImagePullBackOff; any other event is unchanged |
| `Store.EventCleaningIdempotent` | store.go:161-169 | cleaning twice equals cleaning once |
| `Store.ErrImagePullWins` | store.go:162-166 | every FailedSync event whose message contains both ErrImagePull and ImagePullBackOff is labelled `FailedSync_ErrImagePull` |
| `Store.BothErrorsCanOccur` | store.go:162-166 | a concrete FailedSync message containing both strings exists and is labelled `FailedSync_ErrImagePull` |
| `Store.Eval` | store.go:235-240 | true gives 1 and false gives 0 |
| `Store.EventSample` | store.go:298-307 | the sample's labels are the involved object's namespace, name and kind, the reason, the type, the field path and "host/component"; its value is 1 exactly when the event is happening and 0 exactly when it is not |
| `Store.Controller.constructor` | store.go:53-59 | a new controller has a fresh empty backoff store with the given base and cap, and is not shut down |
| `Store.Controller.SyncEvent` | store.go:141-150 | the event is cleaned; without a key the store is unchanged; with a key the store makes exactly one observation at the event's last timestamp |
| `Store.Controller.ScrapEvents` | store.go:286-311 | one sample per snapshot key whose event is cached, each with value eval(state), and keys with a lookup error or no event are skipped; the store is then garbage-collected once; the error is always None |
| `Store.Controller.Scrap` | store.go:314-322 | the metrics are the event samples, as built by `ScrapEvents` from the snapshot, followed by the mapper's own metrics with their own labels; no error is returned; the store is collected once |
| `Store.Controller.Stop` | store.go:217-229 | the first call sets shutdown and returns no error; later calls return "shutdown already in progress" and leave shutdown set |
| `Filters.EventTypeFilter.Filter` | pkg/filters/filters.go:39-46 | true iff some allowed type equals the event type under case folding; an empty list rejects everything |
| `Filters.NewEventTypeFilter` | pkg/filters/filters.go:33-37 | the filter keeps the given list unchanged |
| `Filters.EqualFoldIsEquivalence` | pkg/filters/filters.go:41 | case-insensitive equality is reflexive, symmetric and transitive |
| `Filters.UpperAndLowerMatch` | pkg/filters/filters.go:41 | any two types of equal length that differ only in the case of ASCII letters match |
| `Filters.AllowsTypeIgnoresOrderAndDuplicates` | pkg/filters/filters.go:40-44 | two allowed lists with the same elements give the same verdict, whatever their order or repetition |
| `Filters.EmptyAllowsNothing` | pkg/filters/filters.go:39-45 | an empty allowed list rejects every event |
| `Filters.FilterTestCases` | pkg/filters/filters_test.go:24-73 | the six test cases: ["Normal"] passes Normal and rejects Waring, ["Waring"] the reverse, and both pass with both listed |
| `Collector.OnUpdate` | pkg/collector/event.go:66-73 | an update is queued, as the new object, exactly when its resource version differs from the old one |
| `Collector.SingleFilterAccepts` | pkg/collector/event.go:168-180 | with the one type filter, the conjunction accepts exactly what that filter's list allows |
| `Collector.EventCollector.constructor` | pkg/collector/event.go:50-61 | a new collector has an empty cache and exactly one type filter built from the configured types |
| `Collector.EventCollector.AddFilter` | pkg/collector/event.go:168-171 | exactly one type filter is appended after the existing ones; the cache is unchanged |
| `Collector.EventCollector.EventFilter` | pkg/collector/event.go:173-180 | true iff every filter accepts the event; with no filters every event passes |
| `Collector.EventCollector.SyncEvent` | pkg/collector/event.go:129-166 | a malformed key changes nothing and returns no error; a missing event removes its name from the cache and nothing else; a lookup error is returned and the cache is unchanged; a found event is stored under its name if the filters accept it, and otherwise nothing changes |

## Left out

- Locking (`sync.Mutex` in the backoff store, `stopLock`, the collector's `locker`): every operation runs alone, as one atomic step.
- The informers, list/watch functions, work queue, `Run`, `runWorker`, `processNextItem` and `enqueueEvent`: these are library plumbing. `OnUpdate` models only the update handler's decision to enqueue.
- The key function (`cache.MetaNamespaceKeyFunc`) and `cache.SplitMetaNamespaceKey` are library code. Their results are parameters of the two `SyncEvent` methods.
- The event cache (`GetByKey`) and the lister (`Events(ns).Get`) are maps to a lookup outcome. An absent key means "does not exist" or "not found".
- `ScrapMapper`, `GetCreatedBy` and the deployment handlers depend on library decoding and pod listing. `Scrap` takes what `ScrapMapper` emits as a parameter, as `MapperMetric` values with their own label list rather than the seven event labels. `ScrapMapper`'s own error is always nil, so `Scrap` never fails.
- Metric registration and emission (pkg/collector/metrics.go, pkg/exporter, exporter.go), including `EventHandler` and `DeleteMetric` in the collector's `SyncEvent`. Emitted samples are the returned sequence, and the collector's metric side effects are not modelled.
- Closing `stopCh` in `Stop` happens together with setting `shutdown`, so only the flag is modelled.
- OS signals (pkg/signal), flag parsing and HTTP serving (main.go, cmd/main.go, pkg/options), and the version string (pkg/version) have nothing to verify.
- Backoff.Int64Min: durations are unbounded integers. Go's int64 wrap-around in `entry.backoff * 2` and `maxDuration*2`, and the saturation of `Time.Sub`, are not modelled. They only matter for windows beyond about 2^62 ns (about 146 years).
- Backoff.BackoffStore.Next: entries are values, not pointers. The source updates the pointed-to entry in place. No entry pointer ever leaves the store, so this changes nothing observable.
- Backoff.BackoffStore.Get: calling it on an absent key makes the source panic; here that case is excluded by `requires id in perItemEntry`.
- Backoff.BackoffStore.Next: the unused `count` argument is kept. The test file calls `Next` with two arguments, which does not match this signature.
- Store.Controller.SyncEvent: the source rewrites the reason of the informer's cached object in place. Here the cleaned event is returned instead, and the event cache passed to `ScrapEvents` stands for the cache after that rewrite.
- Filters.EqualFold: only ASCII letters are folded. Go's `strings.EqualFold` also applies Unicode simple folding, for example the Kelvin sign to `k`.
- Logging is not modelled: `log.Errorf` in the legacy `syncEvent` (store.go:146), and `runtime.HandleError` and `klog.Infof` in the collector's `syncEvent` (pkg/collector/event.go:132, 138, 153-162) have no effect on the modelled state.
- Store.Eval and samples use exact reals for the float64 values 0 and 1.
- Backoff.ApplyKeepsWindowsWithin: the bound on windows needs 0 <= base <= max. The source does not check its arguments. With a negative base, doubling can fall below the base.
