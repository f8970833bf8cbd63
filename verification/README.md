# The scaling engine of the OpenFaaS gateway, modelled in Dafny

The gateway decides when a function is scaled and by how much: from zero when a request
arrives, up and down on alerts, and by hand. This project models the code that does so and
proves what it keeps, over every interleaving, every provider and every input.

- `single_flight.dfy`: `SingleFlight.Do` as a transition system, one program counter per caller
  and per executor goroutine, one step per statement that touches the lock, the map, a
  wait-group or a result. The claims are about every interleaving of any number of callers:
  who gets which result, that results are written once, that at most one execution per key is
  live, that no schedule gets stuck and none is longer than `14 * n` statements. The machine is
  then proved to refine a short contract (module `Flights`). `single_flight_object.dfy` ties the
  locked sections, as methods on a heap with calls updated in place, to the steps of that machine.
- `sync_group.dfy`: `Group.Do` of golang.org/x/sync/singleflight, which is what the scaler and the
  cached query call, as a machine of its own, and the proof that it refines the same contract. The
  concurrent models of the scaler and of the cached query are built on that contract.
- `scale_run.dfy`, `scale_world.dfy`, `retry.dfy`, `function_scaler.dfy`, `scaling_handler.dfy`:
  scale-from-zero. `ScaleRuns` is the state machine of one `Scale` call, fed by whatever the
  provider answers; its theorems bound what a run does and classify how it ends. The class
  `FunctionScaler` is the Go method with its cache, its retry loop and its poll loop, proved to
  run exactly that machine, so that the theorems hold of it. `ScaleWorlds` says exactly when a
  provider whose updates may fail leads to an error, and when to a genuine observation of an
  available replica.
- `function_cache.dfy`, `function_query.dfy`, `service_name.dfy`, `resolver.dfy`: the timed cache
  against a plain history of what was stored, the read-through query on top of it, by itself and
  with any number of interleaved callers, and the parsing of paths and names that its string
  keys depend on.
- `alerts.dfy`, `labels.dfy`, `ranges.dfy`, `cluster.dfy`: replica arithmetic with a symbolic cap,
  runs of alerts over many functions, label parsing with its wrap-around, the manual clamp, and
  a machine in which scale-from-zero runs, alerts and manual requests write the count of one
  function on stale reads.
- `metrics.dfy`: invocation counts mixed into the list of functions.

A provider is an oracle: any function from requests to answers. Clocks are parameters. Sleeps are
counted. `uint64` arithmetic wraps where the code's does, and `int(x)` of a `uint` turns negative
in its upper half.

Where the code and its comments disagree the model follows the code:

- When every poll sees no available replica, `Scale` returns `Available: true`
  (gateway/scaling/function_scaler.go:191), although gateway/handlers/scaling.go:17-21 says
  that `next` is then not invoked. `ScaleRuns.EndIsClassified` has it as the cause
  `PollsExhausted`, and `ScaleWorlds.GenuineExactlyWhenReadyInTime` says when it happens.
- The resolver's comment at gateway/pkg/middleware/resolver.go:147 says that the whole match
  "is the same as" the URL; with a query it is the part before the first `?`
  (`Resolver.PiecesRebuildPath`).
- The error text at gateway/plugin/external.go:126 allows a scaling factor of 0; the test at
  line 123 does not.

Six properties hold only under a condition, and each of them has its exact one:

- The count stays within the cap if and only if every minimum label that can be read is within the
  cap (`Cluster.NeverAboveCapIffMinWithinCap`): nothing clamps the minimum.
- With scale-from-zero runs as the only writers, a count that is not 0 stays as it is if and only if
  the function started above 0, no attempts are made, or all minimum labels that can be read have
  one target (`Cluster.MovesOnceExactlyWithOneTarget`).
- For a set of functions, the cache refines every history, and the cached query returns in every
  run only what was provided for the function asked for, if and only if no two of them split the
  same text at different dots (`FunctionCaches.RefinesExactlyWhenKeysApart`,
  `CachedQueryProtocol.SoundExactlyWhenKeysApart`). For the functions that requests can name that is
  so if and only if the configured default namespace has no dot
  (`ServiceName.RoutedKeysApartIffDefaultIsDotFree`).
- A firing alert brings a count above the maximum down to it if and only if the addition does not
  wrap around (`ReplicaArithmetic.FiringAlert`). `ReplicaArithmetic.FiringReachesMaxExactly` says
  for every count and every number of alerts whether they reach the maximum; `ceil(100 / f)` do,
  unless the first addition wraps around and the steps fall short after that, and one more always
  does (`ReplicaArithmetic.FiringReachesMax`).
- The age of a cached value runs from its `Set`, not from the provider's answer. When no answer is
  held longer than `delay` before its `Set`, a returned value is at most `expiry + delay` old, and no
  smaller bound holds (`CachedQueryProtocol.AgeBoundIsExact`): it stays within the expiry if and
  only if the delay is 0 (`CachedQueryProtocol.AgeIsWithinExpiryIffNoDelay`).
- The total of the invocation counts is that of the matching results, for all results, if and only
  if the labels are distinct (`Metrics.ConservedExactlyWithDistinctLabels`); in general every value
  counts as often as functions carry its label.

## Model

| member | source | states |
|---|---|---|
| SingleFlight.StepKeepsInv | gateway/scaling/single.go:30-73 | every statement of every caller and executor keeps the invariant: who holds the lock, which calls are in the map, the value of each wait-group, and what each waiter may rely on |
| SingleFlight.RunKeepsInv | gateway/scaling/single.go:30-73 | so does every interleaving |
| SingleFlight.ActorOk | gateway/scaling/single.go:30-73 | no step reads a nil result and no `Done` takes a wait-group below zero |
| SingleFlight.EveryReturnIsItsFlightsResult | gateway/scaling/single.go:32-72 | in every interleaving a caller that has returned has the result of the one call object it joined or created, of its own key, written exactly once and after the caller entered `Do`, and it is what `f` returned in that flight |
| SingleFlight.ResultWrittenOnce | gateway/scaling/single.go:58-61 | the assignments of `call.res` along a run are counted: one if a result appears, none otherwise, never a second |
| SingleFlight.OutcomeComesFromF | gateway/scaling/single.go:55-61 | what an executor carries and publishes is what its own run of `f` returned |
| SingleFlight.ReaderSeesFinalResult | gateway/scaling/single.go:36-38 | whoever has passed `Wait` finds a result, and no continuation of the run changes it |
| SingleFlight.OneLiveExecutionPerKey | gateway/scaling/single.go:34-68 | at most one execution of `f` is live per key; the map holds a key exactly when a call of that key is still to be deleted; it is empty when none is |
| SingleFlight.StuckOnlyWhenQuiescent | gateway/scaling/single.go:30-73 | some step is enabled if and only if not everybody has finished; then the map is empty and the lock free |
| SingleFlight.StepReducesWork | gateway/scaling/single.go:30-73 | every step lowers a natural-number measure |
| SingleFlight.EveryScheduleEnds | gateway/scaling/single.go:30-73 | any schedule of `n` callers has at most `14 * n` steps, and where it can go no further every caller has returned and `calls` is empty |
| SingleFlight.LookupFindsLiveFlight | gateway/scaling/single.go:34-46 | for the caller that holds the lock, the map lookup finds exactly the unpublished flight of its key |
| SingleFlight.DoRefinesFlights | gateway/scaling/single.go:30-73 | every statement of `Do` is one action of the single-flight contract or changes nothing it can see |
| SingleFlight.EveryRunMeetsContract | gateway/scaling/single.go:30-73 | the contract holds in every state that any interleaving of callers reaches |
| SyncGroup.StepKeepsInv | gateway/vendor/golang.org/x/sync/singleflight/singleflight.go:91-205 | every statement of every caller of `Group.Do` keeps the invariant: who holds the mutex, which calls are in the map, the wait-groups, and how much of a result is written outside the lock |
| SyncGroup.LookupFindsLiveFlight | gateway/vendor/golang.org/x/sync/singleflight/singleflight.go:96-96 | for the caller that holds the mutex, the map lookup finds exactly the unpublished flight of its key |
| SyncGroup.DoRefinesFlights | gateway/vendor/golang.org/x/sync/singleflight/singleflight.go:91-205 | every statement of `Do` and `doCall` is one action of the single-flight contract or changes nothing it can see |
| SyncGroup.EveryReturnIsItsFlightsResult | gateway/vendor/golang.org/x/sync/singleflight/singleflight.go:91-205 | in every interleaving the contract holds, nothing panics, and a caller that has returned has the published result of one call of its own key, each half of which was written exactly once, and which `fn` returned to the creator in a step of that run |
| SyncGroup.ResultIsPublishedAfterEntry | gateway/vendor/golang.org/x/sync/singleflight/singleflight.go:92-106 | a caller that has not entered yet never returns with the result of a flight that is published by then |
| SyncGroup.HalvesWrittenOnce | gateway/vendor/golang.org/x/sync/singleflight/singleflight.go:198-198 | the writes of `c.val` and of `c.err` along a run are counted: one if a half appears, none otherwise |
| SyncGroup.StuckOnlyWhenAllReturned | gateway/vendor/golang.org/x/sync/singleflight/singleflight.go:91-205 | some step is enabled if and only if not everybody has returned; then the map is empty and the mutex free |
| SyncGroup.EveryScheduleEnds | gateway/vendor/golang.org/x/sync/singleflight/singleflight.go:91-205 | any schedule of `n` callers has at most `13 * n` steps, and where it can go no further every caller has returned |
| Flights.FindLive | gateway/scaling/single.go:34-34 | finds a live flight of the key if and only if there is one |
| Flights.Join | gateway/scaling/single.go:34-51 | a caller ends up on a flight of its key, older flights are untouched, and there is still at most one live flight per key |
| Flights.NextKeepsOk | gateway/scaling/single.go:30-73 | the contract is inductive: members are on flights of their own key and hold what those published, and published outcomes stay |
| SingleFlightObject.SingleFlight.constructor | gateway/scaling/single.go:23-28 | a new object has no calls |
| SingleFlightObject.SingleFlight.Enter | gateway/scaling/single.go:32-51 | on the heap, the locked section either joins the call in the map or registers a new one, and does to map and wait-groups what that run of steps does in the transition system |
| SingleFlightObject.SingleFlight.Register | gateway/scaling/single.go:41-49 | a fresh call with one pending signal and no result is put under the key, nothing else changes |
| SingleFlightObject.SingleFlight.Complete | gateway/scaling/single.go:57-67 | publishes the result in the call, signals, removes the key, and matches the steps of the executor in the transition system |
| SingleFlightObject.SingleFlight.Read | gateway/scaling/single.go:70-72 | past `Wait` the result is non-nil, and it is the one the transition system returns |
| SingleFlightObject.JoinSection | gateway/scaling/single.go:32-36 | joining leaves map and calls as they were and the lock free |
| SingleFlightObject.OwnSection | gateway/scaling/single.go:32-51 | a miss leaves one new call with one pending signal in the map and the lock free |
| SingleFlightObject.CompleteSection | gateway/scaling/single.go:57-67 | completion publishes the outcome, signals, and removes just this key |
| ScaleRuns.InputReducesRank | gateway/scaling/function_scaler.go:39-197 | every answer brings a run closer to its end, so every run ends |
| ScaleRuns.AsIntWraps | gateway/scaling/function_scaler.go:140-154 | the two `int(...)` conversions of `uint` settings give the 64-bit integer that agrees modulo 2^64, so the upper half is negative and its loops do not run |
| ScaleRuns.TargetIsLarger | gateway/scaling/function_scaler.go:95-98 | the requested count is the larger one of 1 and the minimum |
| ScaleRuns.RunIsBounded | gateway/scaling/function_scaler.go:56-189 | at most 1 + retries + polls queries, at most `SetScaleRetries` updates of which at most one succeeds, at most retries + polls sleeps; each update directly follows an answer of the same attempt with no desired replica, and its count is at least 1, at least the minimum of the first answer, and one of the two |
| ScaleRuns.AnswersAreCached | gateway/scaling/function_scaler.go:54-163 | whatever a run caches is the answer it has just been given without error, and every such answer is cached at once, except a first one that sees a replica, which ends the run |
| ScaleRuns.EndIsClassified | gateway/scaling/function_scaler.go:44-196 | a run ends by exactly one of seven causes, its log shows the cause, and the result is the one that the cause prescribes: not found only when the first query failed, an error only when all attempts or a poll failed, otherwise available |
| ScaleRuns.StructAnswersNeverPanic | gateway/scaling/function_scaler.go:159-159 | with a provider that returns structs no type assertion of `Scale` fails |
| ScaleRuns.NilAnswersPanic | gateway/scaling/function_scaler.go:113-159 | exactly these answers would: nil without error in an attempt, any nil in a poll |
| ScaleWorlds.PollsSettle | gateway/scaling/function_scaler.go:154-196 | polling a provider whose queries succeed ends available, on a genuine observation if and only if replicas are desired and one of the remaining polls finds one |
| ScaleWorlds.GenuineExactlyWhenReadyInTime | gateway/scaling/function_scaler.go:54-196 | with a provider whose queries succeed and whose updates may fail, `Scale` returns the last error if and only if the first query sees no replica, replicas must be requested and every attempt fails; and it ends on a genuine observation if and only if the first query sees a replica, or a poll does: after the first query when nothing is requested, after the first attempt that succeeds otherwise; if not, by exhaustion |
| Retries.Retry | gateway/types/retry.go:10-25 | the routine is called on exactly 0..k, k the first success or the last attempt; the last error is returned, and only if all failed; each failure is followed by one pause |
| FunctionScalers.FunctionScaler.Scale | gateway/scaling/function_scaler.go:39-197 | result, provider requests, cache writes with their times, and pauses are those of the machine fed with the provider's answers; every update added to the provider's log is for the larger one of 1 and the minimum of the first answer |
| FunctionScalers.FunctionScaler.TryToScale | gateway/scaling/function_scaler.go:102-140 | one attempt of the retry closure is one attempt of the machine, with the same error and the same effects |
| FunctionScalers.FunctionScaler.RetryToScale | gateway/scaling/function_scaler.go:94-149 | the retry loop leaves the machine at the first poll, or finished with the last error, or panicked |
| FunctionScalers.FunctionScaler.PollOnce | gateway/scaling/function_scaler.go:156-188 | one round of the polling loop is one poll of the machine, and returns exactly when that ends |
| FunctionScalers.FunctionScaler.Hold | gateway/scaling/function_scaler.go:154-196 | the polling loop ends as the machine does, with its effects |
| FunctionScalers.FunctionScaler.QueryLive | gateway/scaling/function_scaler.go:54-98 | the first query, its three early returns, and the target it fixes |
| FunctionScalers.DriveIsATrace | gateway/scaling/function_scaler.go:39-197 | what `Scale` runs is one of the machine's traces, so the theorems on traces are about it |
| FunctionScalers.RetryLoopDrives | gateway/scaling/function_scaler.go:102-140 | running the attempts first and the rest afterwards is the same as running the machine |
| FunctionScalers.RetryLoopIsRetry | gateway/scaling/function_scaler.go:102-149 | the attempts of a run are those that `Retry` makes around one attempt, with its error and its pauses, and its error decides between polling and the error result |
| FunctionScalers.PollLoopDrives | gateway/scaling/function_scaler.go:154-196 | the polling loop, run to its end, is the rest of the machine |
| FunctionScalers.DrivenEffectsAreBounded | gateway/scaling/function_scaler.go:39-197 | whatever the provider answers, a call of `Scale` adds at most 1 + 2 * retries + polls requests and retries + polls pauses, and keeps what was logged and stored before |
| FunctionScalers.DrivenUpdatesAskForMinimum | gateway/scaling/function_scaler.go:95-130 | what a call of `Scale` requests is settled by the provider's first answer |
| FunctionScalers.EffectsAreEvents | gateway/scaling/function_scaler.go:90-163 | every update made is an event of the run, and everything cached is an answer to it, stored for the function it works on |
| ScalingHandler.OneReaction | gateway/handlers/scaling.go:28-54 | for every result `Scale` can produce the handler does exactly one of next, 404 and 500; 404 if and only if the first query failed, 500 if and only if all attempts or a poll failed; no nil error is read and the timed-out branch is not reached |
| ScalingHandler.DrivenReaction | gateway/handlers/scaling.go:28-54 | for `Scale` driven by any provider that returns structs, the one reaction is 404, 500 or next as the cause of its end calls for |
| ScalingHandler.Respond | gateway/handlers/scaling.go:30-54 | the branches of the handler, by what they add to the response |
| ScalingHandler.ServeHTTP | gateway/handlers/scaling.go:24-55 | one request adds exactly one effect and never panics: 404 if and only if `Scale` for the function named in the URL ended because its first query failed, 500 if and only if all attempts or a poll failed, next otherwise; the provider is asked about that function only |
| FunctionCaches.CacheRefinesHistory | gateway/scaling/function_cache.go:35-63 | unless a function with the same key was stored, a lookup hits exactly when the latest `Set` for that very pair is at most the expiry old; it gives that value, also when expired, and the empty response when there was none |
| FunctionCaches.ShiftedIsAnswered | gateway/scaling/function_cache.go:39-39 | after one `Set` for any function with the same key the cache answers for one that was never stored |
| FunctionCaches.RefinesExactlyWhenKeysApart | gateway/scaling/function_cache.go:35-63 | for a set of functions every history is refined at every time if and only if no two of them split the same text at different dots |
| FunctionCaches.SetElsewhere | gateway/scaling/function_cache.go:35-45 | after a `Set` the lookup for a pair sees it if and only if the pair is the same or splits the same text at another dot, and is otherwise unchanged |
| FunctionCaches.FunctionCache.constructor | gateway/scaling/function_cache.go:27-32 | a new cache has an empty history |
| FunctionCaches.FunctionCache.Set | gateway/scaling/function_cache.go:35-45 | appends one event to the history the map stands for, with the entries updated in place and kept apart |
| FunctionCaches.FunctionCache.Get | gateway/scaling/function_cache.go:48-63 | answers what the history of `Set` calls says of the key |
| FunctionQuery.CachedFunctionQuery.Get | gateway/scaling/function_query.go:43-74 | result, cache and provider requests of one call; none is made on a hit |
| FunctionQuery.CachedFunctionQuery.GetAnnotations | gateway/scaling/function_query.go:31-41 | the annotations of that result, empty when it has none or failed |
| FunctionQuery.QueriedByPair | gateway/scaling/function_query.go:43-74 | unless another function with the same key was stored: a fresh entry of the function is returned unchanged; otherwise the provider's error, or its answer if it can still be read back; errors are never cached |
| CachedQueryProtocol.StepKeepsInv | gateway/scaling/function_query.go:43-74 | every step of every caller, flight and clock keeps the invariant on cached and returned values |
| CachedQueryProtocol.ValuesAreProvidedAndRecent | gateway/scaling/function_query.go:43-74 | in every interleaving of callers for functions with different keys a value returned without error was given by the provider for that pair and `Set` at most the expiry ago; whoever found no entry returns the error of its flight if that had one, and otherwise a value, or the key error when nothing fresh was cached for its pair; everything cached was given by the provider; every flight was started after a miss |
| CachedQueryProtocol.SoundExactlyWhenKeysApart | gateway/scaling/function_query.go:43-74 | that is so in every run of some callers if and only if no two of them ask for different functions under one key |
| CachedQueryProtocol.FreshEntryMakesNoCall | gateway/scaling/function_query.go:45-66 | a caller that finds a fresh entry can only return it, and flights and answers stay as they are |
| CachedQueryProtocol.AloneIsGet | gateway/scaling/function_query.go:43-74 | with nobody in between, the steps of a caller return and cache what the method `Get` does, whatever the provider answers and however time passes |
| CachedQueryProtocol.StuckOnlyWhenReturned | gateway/scaling/function_query.go:43-74 | in every reachable state something besides the clock can move as long as a caller has not returned |
| CachedQueryProtocol.AgeIsBounded | gateway/scaling/function_query.go:43-74 | in every run in which no answer is held longer than `delay` before its `Set`, a returned value was given at most `expiry + delay` before |
| CachedQueryProtocol.AgeRunsFromSet | gateway/scaling/function_query.go:58-60 | for every expiry and delay a run of that kind in which a value is returned exactly `expiry + delay` after the only time the provider gave it |
| CachedQueryProtocol.AgeBoundIsExact | gateway/scaling/function_query.go:43-74 | a bound holds of all such runs if and only if it is at least `expiry + delay`, or the expiry is negative |
| CachedQueryProtocol.AgeIsWithinExpiryIffNoDelay | gateway/scaling/function_query.go:58-60 | values stay within the expiry if and only if the delay is 0 |
| CachedQueryProtocol.HitIsRecent | gateway/scaling/function_cache.go:48-63 | a hit is exactly a fresh entry of that pair, and it is the value of a recent `Set` |
| ServiceName.LastIndex | gateway/pkg/middleware/service_name.go:6-6 | the last occurrence: the character is there, and not after it; -1 exactly when it does not occur |
| ServiceName.JoinThenSplit | gateway/pkg/middleware/service_name.go:5-10 | splitting `fn + "." + ns` gives (fn, ns) back if and only if ns has no dot |
| ServiceName.SplitThenJoin | gateway/pkg/middleware/service_name.go:5-10 | the parts of a name with a dot rejoin to it; a name without one is the default namespace's |
| ServiceName.KeysCollide | gateway/scaling/function_cache.go:39-39 | two pairs share a key if and only if they are equal or one is the other with the split moved to another dot |
| ServiceName.KeysInjective | gateway/scaling/function_scaler.go:56-123 | with dot-free namespaces cache keys, query keys and update keys are each injective |
| ServiceName.ApartMeansInjective | gateway/scaling/function_cache.go:39-39 | the keys of a set of functions are injective if and only if no two of them split the same text at different dots |
| ServiceName.RoutedKeysApartIffDefaultIsDotFree | gateway/pkg/middleware/service_name.go:5-10 | so it is for the functions that requests can name, if and only if the default namespace has no dot |
| ServiceName.RoutedKeysInjective | gateway/pkg/middleware/service_name.go:5-10 | the cache keys and flight keys of any two requests are equal only for equal functions, if and only if the default namespace has no dot; queries never share a flight with updates |
| Resolver.RouteOfText | gateway/pkg/middleware/resolver.go:13-13 | the route found at the start of a path is the one of the four that it begins with |
| Resolver.FindsTheGreedyMatch | gateway/pkg/middleware/resolver.go:13-13 | the matcher matches exactly the strings that the pattern does, with the only possible route, the longest name, and then the longest path |
| Resolver.ServiceNameIsSpan | gateway/pkg/middleware/resolver.go:140-156 | for every URL the service name is what stands between "/function/" and the next '/' or '?'; without a match `Transform` changes nothing |
| Resolver.NameRoundTrip | gateway/pkg/middleware/resolver.go:140-156 | the name of a function path comes back, with any rest and any query |
| Resolver.RestRoundTrip | gateway/pkg/middleware/resolver.go:120-138 | `Transform` leaves exactly the rest of a function path, on each of the four routes |
| Resolver.PiecesRebuildPath | gateway/pkg/middleware/resolver.go:120-156 | name and rest rebuild a matched path up to its first '?', hence all of it exactly when it has none; the rest is the same on every route |
| Resolver.BasePathRoundTrip | gateway/pkg/middleware/resolver.go:42-47 | the base path of a function parses back to it if and only if neither part has a '/' or '?' and the namespace has no dot |
| Resolver.BasePathIsRoot | gateway/pkg/middleware/resolver.go:42-47 | the rest of a base path is "/" |
| ReplicaArithmetic.StepIsCeiling | gateway/handlers/alerthandler.go:108-108 | the step is the least whole number that reaches the percentage, at most the maximum, and positive exactly when maximum and factor are |
| ReplicaArithmetic.FiringAlert | gateway/handlers/alerthandler.go:104-121 | a firing alert takes a count at most m to min(m, c + s), and one above m to m if and only if the addition does not wrap; never above m |
| ReplicaArithmetic.FiringAlertsAddUp | gateway/handlers/alerthandler.go:104-121 | n firing alerts take c to min(m, c + n * s) |
| ReplicaArithmetic.AlertsNeeded | gateway/handlers/alerthandler.go:108-108 | the least n with n * f at least 100 |
| ReplicaArithmetic.FireIsFired | gateway/handlers/alerthandler.go:104-121 | what n firing alerts make of any count, in closed form: from below, from above, and around |
| ReplicaArithmetic.FiringReachesMaxExactly | gateway/handlers/alerthandler.go:104-121 | n firing alerts take a count c to the maximum m if and only if c is at most m and n steps reach it, or c is above and the addition does not wrap around, or it does and n steps reach 2^64 + m |
| ReplicaArithmetic.FiringReachesMax | gateway/handlers/alerthandler.go:90-115 | whatever the maximum, ceil(100 / f) alerts take a count to it if and only if the first addition does not wrap around or the steps do not fall short after that; any more alerts always do; then no update is due |
| ReplicaArithmetic.WrappingAlert | gateway/handlers/alerthandler.go:111-115 | an alert whose addition wraps around leaves the wrapped sum, which is below the step |
| ReplicaArithmetic.OtherAlert | gateway/handlers/alerthandler.go:110-118 | a resolved alert, a zero maximum or a zero factor gives the minimum, uncapped; anything else stays within the capped maximum |
| Alerts.ScaleService | gateway/handlers/alerthandler.go:77-101 | one alert's effect on the provider and its error |
| Alerts.EachAlertCalls | gateway/handlers/alerthandler.go:82-94 | after any alerts the next one makes, for its function only, one query when the lookup fails or the count is already the calculated one, and otherwise one query and one update of that count |
| Alerts.LastResolvedSetsMin | gateway/handlers/alerthandler.go:116-118 | with a provider that does as it is told, a last alert that is not firing leaves the function at its minimum, whatever came before |
| Alerts.MaxedFunctionIsOnlyQueried | gateway/handlers/alerthandler.go:90-92 | firing alerts for a function at its capped maximum are one query each and no update |
| Alerts.HandleAlerts | gateway/handlers/alerthandler.go:65-75 | the loop's effect on the provider is that of the alerts in order, with one error per failed update |
| Alerts.EachFunctionOnItsOwn | gateway/handlers/alerthandler.go:65-101 | for any provider whose answers for a function depend only on the calls for it, and however alerts are mixed, each function ends, and its updates fail, as if only its own alerts had been handled |
| Alerts.OneErrorPerFailedUpdate | gateway/handlers/alerthandler.go:68-71 | the errors of a function are those of its updates that failed, in order; failed lookups leave none; an alert is one query and at most one update |
| Alerts.OnlyOrderPerFunctionMatters | gateway/handlers/alerthandler.go:65-75 | two lists that agree on each function's own alerts have the same effect: alerts for different functions commute |
| Alerts.FinalCountIsFold | gateway/handlers/alerthandler.go:65-101 | with a provider that does as it is told the final count is `CalculateReplicas` folded over the function's own alerts |
| Alerts.FiringAlertsReachMax | gateway/handlers/alerthandler.go:65-121 | among any other alerts, n firing alerts for a function take it to its capped maximum if and only if n steps reach it from its count, and always when n is above ceil(100 / f) |
| Labels.AtoiItoa | gateway/plugin/external.go:190-195 | a number in decimal is parsed back if and only if it fits 64 bits |
| Labels.LabelOfNumeral | gateway/plugin/external.go:185-198 | a label that is an optional sign and digits counts as the number read from the left, wrapped when negative, and as the default when it does not fit 64 bits |
| Labels.LabelOfOtherText | gateway/plugin/external.go:190-195 | every other label counts as the default |
| Labels.DigitsValueIsHorner | gateway/plugin/external.go:190-190 | the value of digits is what reading them from the left gives |
| Labels.GetReplicas | gateway/plugin/external.go:98-138 | accepted exactly for a good reply with a factor in 1..100; then counts are those of the reply and minimum, maximum and factor those of the three named labels, by default 1, 5 and 10; with an error the struct is the zero value |
| Labels.LabelOfNumber | gateway/plugin/external.go:185-198 | a decimal label is its number, wrapped when negative, the default when out of range |
| Labels.CappedMaxIsZero | gateway/plugin/external.go:120-120 | the capped maximum is 0 exactly for a label that parses to 0; a negative label wraps and is capped |
| Ranges.ClampIsNearest | gateway/scaling/ranges.go:58-64 | the clamp gives the allowed count nearest to the requested one, and changes only those that are not allowed |
| Ranges.MakeHorizontalScaling | gateway/scaling/ranges.go:34-72 | forwards exactly well-formed POST requests, with a count in 1..5, unchanged when it was; otherwise 405 or 400 |
| Ranges.Clamp | gateway/scaling/ranges.go:58-64 | the two corrections, in place |
| Cluster.RunKeepsBound | gateway/handlers/alerthandler.go:104-121 | with all three writers interleaved on stale reads, and labels that each query may read anew, the count and every pending write stay within the cap |
| Cluster.WritesAreBounded | gateway/scaling/function_scaler.go:94-140 | every write that is pending or applied on the way, by whichever writer, is within the cap, and those of scale-from-zero runs and manual requests are at least 1 |
| Cluster.NeverAboveCapIffMinWithinCap | gateway/handlers/alerthandler.go:117-117 | the count stays within the cap in every run if and only if every minimum label that can be read is within it |
| Cluster.AlertDecidesAsScaleService | gateway/handlers/alerthandler.go:87-94 | an alert in the interleaved model writes, or does not, exactly what `scaleService` would for a function that answers the same |
| Cluster.ManualSetsNearest | gateway/scaling/ranges.go:58-70 | a manual request that goes through sets the allowed count that is nearest to the one asked for |
| Cluster.RunsAreTold | gateway/scaling/function_scaler.go:57-159 | in every run, whatever an interleaved `Scale` was answered is what some flight was published with |
| Cluster.StuckOnlyWhenDone | gateway/scaling/function_scaler.go:39-197 | in every run some step is possible as long as a writer is not through |
| Cluster.ResolvedAlertSetsMin | gateway/handlers/alerthandler.go:116-118 | a resolved alert sets the minimum that it reads, whatever it is |
| Cluster.DesiredMovesOnceFromZero | gateway/scaling/function_scaler.go:94-140 | with any number of interleaved `Scale` runs as the only writers and one target, at least 1 and every minimum and one of the two, the count keeps its start value or goes once from 0 to the target, and then stays |
| Cluster.MovesOnceExactlyWithOneTarget | gateway/scaling/function_scaler.go:94-140 | a count that is not 0 stays in all such runs if and only if it started above 0, no attempts are made, or all labels that can be read have one target |
| Metrics.ResetCounts | gateway/metrics/add_metrics.go:52-54 | all counts are zero, names untouched |
| Metrics.MixIn | gateway/metrics/add_metrics.go:83-106 | every count grows by the sum of the parseable values carrying its label |
| Metrics.AddMetrics | gateway/metrics/add_metrics.go:51-68 | after both loops each count is the sum of the parseable values labelled with the function's name, a dot and its namespace, 0 when there are none, and with distinct labels the total is that of all results that match some function |
| Metrics.CountIsSumOfValues | gateway/metrics/add_metrics.go:89-103 | the sum that `mixIn` gives a function is over exactly the results that carry that text |
| Metrics.TotalIsConserved | gateway/metrics/add_metrics.go:83-106 | with distinct labels nothing is lost and nothing counted twice |
| Metrics.TotalCountsCarriers | gateway/metrics/add_metrics.go:83-106 | whatever the labels are, the total takes every value as often as functions carry its label |
| Metrics.ConservedExactlyWithDistinctLabels | gateway/metrics/add_metrics.go:83-106 | the total is that of the matching results, for all results, if and only if the labels are distinct, unless no text is a number other than 0 |

## Left out

- HTTP transport, JSON, reverse proxying, log streams, queueing and the Prometheus client are I/O; the provider is an oracle and replies arrive parsed.
- Logging, the `Duration` field of a result, and error texts made by wrapping another error are not part of this model; clock readings are parameters and sleeps are counted.
- Of `golang.org/x/sync/singleflight` only `Group.Do` is modelled, as the gateway calls nothing else; `dups` and the third result, which the gateway throws away, are not.
- Panics, `Goexit` and re-entrant use of the same key inside `f` are not modelled; `f` is one step that returns some outcome.
- SingleFlight: the protocol is a machine on values, as its claims are about interleavings; `SingleFlightObject` covers its locked sections in place, one at a time, without the heap being shared by running threads.
- Go's memory model is taken as sequentially consistent; the code orders its accesses by the lock and the wait-group.
- Retries.Retry: the routine is given by its outcome on each attempt; in `FunctionScaler.RetryToScale` the same loop is written out around the routine, because a method cannot be passed as a value, and `FunctionScalers.RetryLoopIsRetry` says that it comes to the same.
- FunctionScalers.FunctionScaler.Scale: one call by itself, each flight being one request of its own; flights shared between calls are in `Cluster`.
- Cluster: one function, whose labels are any of a given set at each query; scale-from-zero runs start after their look into the cache, and readiness of replicas is arbitrary.
- ScaleWorlds.GenuineExactlyWhenReadyInTime: starts after a cache miss and without other writers; a provider whose queries fail is covered by `ScaleRuns.EndIsClassified`.
- CachedQueryProtocol.AgeBoundIsExact: how long an answer is held before its `Set` is up to the scheduler, so the delay is a parameter of the run.
- ReplicaArithmetic.StepIsCeiling: exact real arithmetic, no float64 rounding; the cap is symbolic, below 2^63.
- Metrics: exact reals, so no rounding, NaN or infinities of `ParseFloat`; the query result is not nil, and a matching result has a second value, as the code reads both without a check.
- Labels.AtoiItoa: `strconv.Atoi` is modelled from its documented behaviour on 64-bit platforms.
- Resolver.FindsTheGreedyMatch: a matcher for the one pattern at gateway/pkg/middleware/resolver.go:13, not a regular expression engine; strings are sequences of characters, not of UTF-8 bytes.
- The health path in `BuildURL`, `Resolve`, `FunctionAsHostBaseURLResolver` and `TransparentURLPathTransformer` would add only easy members.
- The HTTP shell of the alert handler, `ExternalServiceQuery.SetReplicas`, configuration, CORS, authentication, call ids and the info and health handlers are outside of the scaling logic.
