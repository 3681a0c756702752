# Proofs about the gateway

A Dafny model of five pieces of the MCP gateway that hold state over unbounded runs, and of the traceparent codec.
`dafny verify dfyconfig.toml` checks everything.

**Instance pool** (`Pool*.dfy`). Any number of concurrent `acquire`, `release` and `stop_all` calls, one step per lock
or await boundary, so a run is an interleaving. The outcome of a spawn, the health of a popped instance, a time-out and
the waiter a notification reaches are inputs. `Notify` follows its documented contract: `notify_one` reaches a waiter or
leaves a permit and is handed on if its receiver goes away unused; `notify_waiters` reaches all that are registered.

**Proxy** (`Proxy*.dfy`). One client, the proxy and a sequence of daemon generations. Lines are atomic and already
classified by the presence of `method`, `result` or `error`, and `id`. A log of everything that crossed the proxy is
what the results speak of.

**Tool registry and cache** (`Registry*.dfy`, `Cache*.dfy`, `Levenshtein.dfy`, `Fuzzy.dfy`, `Ranking.dfy`,
`Scoring.dfy`, `Search*.dfy`). The flat index with its aliases, snapshot and cached load, edit distance, and tiered
search. The order in which a concurrent map is walked is arbitrary. Schemas are opaque, scores are reals, and the
tokenizer, the trigrams and the logarithm are given functions.

**Health checker and rate limiter** (`Health*.dfy`, `RateLimiter.dfy`). Phases 1 to 3 as they treat one backend, one
clock reading per step; the token bucket with its refill split into reading and adding.

**Generation hand-over and traceparent** (`Handover*.dfy`, `Trace*.dfy`). Binding, promotion, repair, exit and
clean-up as atomic steps on a directory of named files; the parser and printer of W3C Trace Context, section 3.2, on
bytes.

In every piece a transition function is what the results are about, and a class (`*Object.dfy`, `TokenBucket`) changes
its fields in place as the source does, each method proved to take that step.

## Where the code falls short of what it seems to promise

Each of these has a lemma with a concrete input or run, and one with the exact condition.

- The comment at `src/backend/pool.rs:183-184` promises that no acquire is left asleep. An acquire that was woken and
  finds its session served meanwhile swallows the notification: `PoolLostWakeup.OverlapForgets`. It happens exactly if
  acquires of one session may overlap and there is room for two instances: `PoolLostWakeup.LostWakeupIff`.
- A request can be answered twice around a failed reconnect, by way of the queue or of an old stream not yet read to
  its end:
  `ProxyAnswers.FailedReconnectAnswersTwice`, `ProxySecondAnswer.NeverQueuedAnsweredTwice`. When, in any run:
  `ProxySecondAnswer.SecondAnswerIff`.
- `get_by_name` promises that bare names resolve only with a single owner. A restored alias can survive its owner, on
  removal and on registering again, and a cached registration adds a second owner: `RegistryAliases.StaleAlias`,
  `RegistryOwnership.InPlaceLeavesAlias`, `RegistryAliases.CachedAmbiguous`. When:
  `RegistryOwnership.RegisterSoleIff`, `RegistryOwnership.RemoveSoleIff`. Nor need the only owner's tool be what the
  name resolves to: `RegistryHeld.SoleNotHeld`, `RegistryHeld.RegisterHeldIff`, `RegistryHeld.RemoveHeldIff`.
- The cache brings such a removed tool back: `CacheRoundTrip.RemovedToolReturns`, `CacheRoundTrip.CacheRoundTripIff`.
- The converse, that a name with a single owner resolves, fails as well: registering again in place restores no alias
  of another backend. `RegistryAliases.InPlaceOrphans`, `RegistryAliases.InPlaceResolvesIff`.
- A backend whose prerequisite fails `max_restarts` times before its first attempt is never tried again, as no restart
  window is open that could expire: `HealthBudget.PrerequisitesLockOut`, `HealthBudget.AttemptPossibleIff`.
- The proxy removes a dead daemon's socket and PID file but not its metadata: `HandoverSafety.MetadataLeftBehind`,
  `HandoverSafety.DisagreeIff`.
- The traceparent parser promises to refuse what the standard calls invalid, but accepts upper case and plus signs,
  and panics where a pair of digits would end inside a character: `TraceGrammar.UpperAccepted`,
  `TraceGrammar.PlusAccepted`, `TraceReading.TextPanics`. When: `TraceGrammar.ParsesIff`, `TraceReading.PanicsIff`,
  `TraceReading.AgreesIff`.

## Model

| member | source | states |
|---|---|---|
| `PoolObject.InstancePool.constructor` | src/backend/pool.rs:57-124 | pre-warming leaves every permit not spent on an idle instance free, and reaches min(min_idle, max_instances) idle instances whenever all spawns succeed |
| `PoolObject.InstancePool.AcquireLook` | src/backend/pool.rs:182-220 | the looks of `acquire` at the assignment, the idle queue and the semaphore, and its wait, are steps of the transition system |
| `PoolObject.InstancePool.AcquireAssign` | src/backend/pool.rs:221-239 | a fresh or popped instance becomes the session's, displacing the one an overlapping acquire may have put there |
| `PoolObject.InstancePool.AcquireSettle` | src/backend/pool.rs:212-240 | capacity of an unhealthy or failed instance is credited before all waiters are notified, and the acquire looks again or fails |
| `PoolObject.InstancePool.Release` | src/backend/pool.rs:266-294 | taking the assignment, crediting the permit and notifying one waiter are three separate steps in this order |
| `PoolObject.InstancePool.Replenish` | src/backend/pool.rs:296-326 | below min_idle, replenishing spends a permit before the spawn, and returns without a word if none is left |
| `PoolObject.InstancePool.Replenished` | src/backend/pool.rs:307-325 | a spawn that succeeds pushes the instance, one that fails gives the permit back, and both notify one waiter |
| `PoolObject.InstancePool.StopAll` | src/backend/pool.rs:345-375 | the two drains, the clamped credit and the notification of all waiters are separate steps |
| `PoolCapacity.PlanConserves` | src/backend/pool.rs:180-375 | no step creates or loses capacity, and the clamp of `stop_all` cuts nothing off |
| `PoolCapacity.CapacityConserved` | src/backend/pool.rs:180-375 | in every interleaving permits, idle, assigned, displaced and in-flight instances add up to max_instances, so permits never exceed it |
| `PoolWakeups.WakeupsNotLost` | src/backend/pool.rs:182-325 | as long as no woken acquire returns by the fast path, a sleeper beside a free permit or idle instance is always matched by a task that owes or carries a notification |
| `PoolWakeups.DisjointAcquires` | src/backend/pool.rs:182-242 | without two overlapping acquires of one session no wake-up is lost and no instance is displaced |
| `PoolWakeups.SmallPools` | src/backend/pool.rs:182-326 | with room for at most one instance no wake-up is lost, overlapping acquires of a session or not |
| `PoolLostWakeup.OverlapForgets` | src/backend/pool.rs:182-326 | with room for two or more, and whatever min_idle is, a run ends with an acquire asleep beside something free while every other call has returned or sleeps |
| `PoolLostWakeup.LostWakeupIff` | src/backend/pool.rs:182-326 | a run that loses a wake-up, or forgets a sleeper for good, exists exactly if acquires of one session may overlap and max_instances is at least 2 |
| `PoolIsolation.RunForward` | src/backend/pool.rs:189-366 | an instance only ever moves forward from spawning over idle and one session to stopped |
| `PoolIsolation.SessionsIsolated` | src/backend/pool.rs:189-366 | an instance once assigned to a session is never idle again and never assigned to another session, in any interleaving |
| `PoolEffects.StopAllStops` | src/backend/pool.rs:345-375 | in every interleaving, when a `stop_all` is over every instance assigned when it began is stopped, and every instance idle then is stopped or was taken by an acquire |
| `PoolEffects.ReleaseStops` | src/backend/pool.rs:266-294 | in every interleaving, when a release is over the instance its session had when it began is stopped |
| `PoolEffects.ReleaseReplenishes` | src/backend/pool.rs:290-326 | an undisturbed release whose spawn succeeds ends with one more idle instance if fewer than min_idle were idle, and with one more permit otherwise |
| `PoolEffects.AcquireServes` | src/backend/pool.rs:180-258 | in every interleaving, an acquire that is over returned at a moment when its session had an instance, or timed out or failed to spawn |
| `PoolEffects.IdleInOrder` | src/backend/pool.rs:196-317 | idle instances leave the queue in the order they entered it |
| `Proxy.KeysDistinguish` | src/ipc/proxy.rs:217-224 | the tracker's keys confuse no two string, number or null ids |
| `ProxyObject.JsonRpcTracker.ObserveClientMessage` | src/ipc/proxy.rs:88-115 | a client line is dropped exactly if it is a reply with an id the current daemon is not waiting for |
| `ProxyObject.JsonRpcTracker.ObserveDaemonMessage` | src/ipc/proxy.rs:117-137 | a daemon request becomes owed a reply, a daemon response ends the wait for its request |
| `ProxyObject.JsonRpcTracker.FailPendingClientRequests` | src/ipc/proxy.rs:139-178 | every pending request gets one error, in whatever order the map is drained, up to where stdout breaks, and nothing stays pending |
| `ProxyObject.ProxyLoop.ConsumeProxyPingResponse` | src/ipc/proxy.rs:240-261 | a line is swallowed exactly if it answers the outstanding or a superseded ping |
| `ProxyObject.ProxyLoop.BridgeClientLine` | src/ipc/proxy.rs:691-722 | a client line on a live bridge: ping replies are swallowed, stale replies dropped, the rest tracked before they are written |
| `ProxyObject.ProxyLoop.IdleProbe` | src/ipc/proxy.rs:736-772 | the idle probe sends a ping only when nothing is in flight |
| `ProxyObject.ProxyLoop.BridgePhase` | src/ipc/proxy.rs:640-787 | the select loop takes one arm after the other until one of them returns |
| `ProxyObject.ProxyLoop.MonitorClient` | src/ipc/proxy.rs:871-915 | during a reconnect client lines are tracked and queued |
| `ProxyObject.ProxyLoop.FinishReconnect` | src/ipc/proxy.rs:600-613 | the queue is flushed behind the replayed handshake, and kept with the old stream if that fails |
| `ProxyObject.ProxyLoop.FlushQueue` | src/ipc/proxy.rs:919-943 | the flushed lines are a prefix of the queue, in order, and all of it on success |
| `ProxyObject.ProxyLoop.FailRequests` | src/ipc/proxy.rs:571-576 | before the reconnect, the errors the tracker wrote are the failures logged, and a broken stdout ends the proxy |
| `ProxyObject.ProxyLoop.BridgeLoop` | src/ipc/proxy.rs:535-631 | the outer loop, bridge after bridge, is a run of the transition system until the proxy exits |
| `ProxySafety.UnresponsiveOnlyWhenIdle` | src/ipc/proxy.rs:180-182 | in every reachable bridge an outstanding ping means no pending client request, so the client is never declared unresponsive while one is in flight |
| `ProxySafety.NoRequestLost` | src/ipc/proxy.rs:88-178 | across any number of daemon deaths every request read is pending, was answered later than it was read, or the proxy has exited |
| `ProxySafety.RequestsAreRead` | src/ipc/proxy.rs:691-722 | a request is never mistaken for a reply to a ping |
| `ProxySafety.RepliesBounded` | src/ipc/proxy.rs:102-148 | for every generation and id, replies forwarded to it never outnumber the requests it sent with that id |
| `ProxySafety.PingRepliesStay` | src/ipc/proxy.rs:240-261 | a reply to a ping of the proxy's, however late, reaches a daemon only if that daemon itself sent a request with the id |
| `ProxyOrder.DeliveryInOrder` | src/ipc/proxy.rs:553-613 | when reconnects and flushes succeed, every line goes to at most one generation, after its handshake, and in stdin order |
| `ProxyForward.LinesPass` | src/ipc/proxy.rs:665-724 | in every run, whatever fails, the client lines read are those that arrived, and the daemon lines written to the client those that came out of a stream, each once, in order and under its generation |
| `ProxyForward.DropIff` | src/ipc/proxy.rs:88-115 | a client line is dropped exactly if it answers an id the daemon is not waiting for |
| `ProxyForward.FateOnBridge` | src/ipc/proxy.rs:691-722 | when reconnects succeed, the log decides: a reply to an open ping is swallowed, a reply the current daemon does not await is dropped, and every other line is written to the daemon, if the write works |
| `ProxyForward.FateWithoutDaemon` | src/ipc/proxy.rs:871-915 | during a reconnect everything but replies is queued |
| `ProxyForward.NothingForgotten` | src/ipc/proxy.rs:535-631 | every line read that is no reply is from then on delivered or queued under its own number, unless its write failed |
| `ProxyForward.EndedIsSilent` | src/ipc/proxy.rs:667-688 | after the end of a stream the client hears nothing from a daemon until a reconnect succeeds |
| `ProxyForward.ProbeSettles` | src/ipc/proxy.rs:736-787 | an idle client is pinged under an id not in use; an answer is swallowed and the bridge goes on, and without one the proxy gives the client up |
| `ProxyForward.BusyIsNotProbed` | src/ipc/proxy.rs:736-744 | a client with a request pending, or owing the daemon a reply, is not pinged |
| `ProxyForward.EndsWithClient` | src/ipc/proxy.rs:553-565 | when the client or the parent goes away, on a live bridge or during a reconnect, the proxy exits and writes nothing more |
| `ProxyDelivery.DeliveredAtMostOnce` | src/ipc/proxy.rs:553-613 | failed reconnects do not repeat a line: it goes to at most one generation as long as no flush stops midway |
| `ProxyDelivery.FlushSingleIff` | src/ipc/proxy.rs:919-943 | a flush repeats a line exactly if it stops between the first line of the queue and the last |
| `ProxyAnswers.AtMostOneAnswer` | src/ipc/proxy.rs:553-613 | then, with distinct ids and daemons that answer a received request at most once, every request gets at most one answer |
| `ProxyAnswers.FailedReconnectAnswersTwice` | src/ipc/proxy.rs:570-623 | the hypothesis is needed: after a failed reconnect a queued request is answered with an error, flushed later and answered again |
| `ProxySecondAnswer.NeverQueuedAnsweredTwice` | src/ipc/proxy.rs:614-717 | nor need the request be queued: delivered, answered with an error because a later write fails, and after a failed reconnect answered by what the old stream still held |
| `ProxySecondAnswer.SecondAnswerIff` | src/ipc/proxy.rs:553-688 | in every state of every run of disciplined daemons, reconnects and flushes failing or not, a request answered once can be answered again exactly if the proxy runs and either the queue holds it or the current stream has not been read to its end and its generation received the request and has not answered; if every reconnect to come succeeds, the stream counts only while the bridge is up |
| `RegistryObject.ToolRegistry.RegisterBackendTools` | src/registry.rs:112-211 | in-place registration computes the registry function the results are about |
| `RegistryObject.ToolRegistry.RegisterTool` | src/registry.rs:146-200 | one tool: the namespaced key, the owner, and the bare alias that comes with the first owner and goes with the second |
| `RegistryObject.ToolRegistry.RemoveBackendTools` | src/registry.rs:217-267 | removal, with collisions restored in whatever order the map is walked |
| `RegistryObject.ToolRegistry.RestoreAliases` | src/registry.rs:249-267 | restored aliases copy the namespaced entry of the only owner left |
| `RegistryObject.ToolRegistry.SetAliases` | src/registry.rs:299-304 | the user's aliases are replaced as a whole |
| `RegistryRefinement.RegisterRefines` | src/registry.rs:112-211 | live, cached and repeated registration replace the backend's entry in the plain map |
| `RegistryRefinement.RemoveRefines` | src/registry.rs:217-267 | removal takes the backend out of the plain map |
| `RegistryRefinement.IndexRefinesMap` | src/registry.rs:112-267 | over any run the namespaced keys are exactly those of the current registrations, with their entries, and each bare name's owners exactly the backends registering it |
| `RegistryAliases.CollisionsNeverResolve` | src/registry.rs:163-200 | with all cached registrations first, a name with two owners never resolves directly |
| `RegistryAliases.CachedUnambiguousIff` | src/registry.rs:170-176 | a cached registration, which skips the collision branch, keeps this exactly if no name on its list still resolves and has an owner |
| `RegistryAliases.SoleOwnersResolve` | src/registry.rs:163-267 | over live registrations of unregistered backends and removals, a name with one owner resolves to that owner's tool |
| `RegistryAliases.RegisterLive` | src/registry.rs:178-200 | one live registration, in place or fresh, keeps this exactly if it re-registers every name that forgetting the old list left without alias |
| `RegistryAliases.InPlaceResolvesIff` | src/registry.rs:121-132 | in-place re-registration restores no alias of another backend: names still resolve exactly if the new list has every name whose collision it resolved |
| `RegistryAliases.InPlaceOrphans` | src/registry.rs:121-132 | it fails: two backends share a name, and one registers again without it |
| `RegistryAliases.CachedAmbiguous` | src/registry.rs:174-176 | a live name registered from the cache by another backend resolves with two owners |
| `RegistryAliases.RemoveResolves` | src/registry.rs:228-267 | removal restores the alias of every name left with one owner |
| `RegistryAliases.LookupForgetsHistory` | src/registry.rs:285-295 | lookup of an owned name, bare or namespaced, depends only on who is registered, not on the order of the history |
| `RegistryLookup.FoundByKey` | src/registry.rs:285-295 | after any history and under any user aliases, a tool is found under its namespace and name, with its backend, description, schema and tags |
| `RegistryLookup.FoundByKeyIff` | src/registry.rs:285-295 | without user aliases, a dotted name is found exactly if it is the namespace and name of a registered tool |
| `RegistryLookup.RegisteredIsFound` | src/registry.rs:112-211 | right after a registration, live or cached, every tool on its list is found with the fields it has there |
| `RegistryLookup.GoneIsNotFound` | src/registry.rs:217-267 | right after a removal, or a registration without it, a tool is not found under the namespace |
| `RegistryLookup.FoundByName` | src/registry.rs:280-295 | over live registrations of unregistered backends and removals, a bare name only one backend has is found as that backend's tool |
| `RegistryLookup.SharedIsNotFound` | src/registry.rs:280-295 | and one that two backends have is not found |
| `RegistryLookup.AliasesResolve` | src/registry.rs:285-304 | user aliases never shadow a key, lead to the key they name, and lead one step only |
| `RegistryLookup.FoundByAlias` | src/registry.rs:291-293 | an alias for a namespaced key finds that tool |
| `RegistryAliases.AliasOutlivesOwnerIff` | src/registry.rs:249-267 | removing a name's only owner leaves the alias behind exactly if the backend does not remember having registered it |
| `RegistryAliases.StaleAlias` | src/registry.rs:249-267 | such an alias is reachable: two backends share a name, the first leaves, then the second, and the name still resolves |
| `RegistryOwnership.InPlaceLeavesAlias` | src/registry.rs:121-132 | so is one left by registering again in place: a restored alias is not among the keys the backend takes along |
| `RegistryOwnership.RegisterSoleIff` | src/registry.rs:112-211 | a registration, fresh or in place, live or cached, keeps "every bare key has exactly one owner" exactly if every bare key the backend owns without remembering is on its list and, for a cached one, no other bare key that stays is |
| `RegistryOwnership.RemoveSoleIff` | src/registry.rs:217-267 | a removal keeps it exactly if the backend remembers every bare key it owns |
| `RegistryHeld.RegisterHeldIff` | src/registry.rs:112-211 | the stronger "every bare key holds its only owner's tool" is kept exactly if every bare key the backend owns without remembering is on its list, from the cache as it was, and a cached list has no other bare key that stays |
| `RegistryHeld.RemoveHeldIff` | src/registry.rs:217-267 | a removal keeps it exactly if the backend remembers every bare key it owns |
| `RegistryHeld.SoleNotHeld` | src/registry.rs:170-176 | one owner is not enough: over a stale alias a cached registration becomes the only owner of a name that resolves to the tool of a removed backend |
| `Cache.Snapshot` | src/registry.rs:755-787 | whatever the order of iteration, exactly one entry per (backend, original name), the namespaced one if there is one |
| `Cache.Save` | src/cache.rs:110-125 | the cache written has the current version and a snapshot |
| `Cache.Load` | src/cache.rs:42-85 | an unreadable version changes nothing; otherwise the configured backends are registered from the cache, each once, in some order, and counted |
| `Cache.MigrationIsSilent` | src/cache.rs:68-77 | filling in original names of old caches does not change what is registered |
| `Cache.MigratedNames` | src/cache.rs:68-77 | an entry of a cache before version 3 gets its name as original name if it has none, and is otherwise as saved |
| `CacheRoundTrip.CacheRoundTripIff` | src/cache.rs:79-125 | save, then cached load into an empty registry, gives no bare key, and exactly the namespaced entries of the configured backends if and only if every bare alias of theirs stood beside its namespaced entry |
| `CacheRoundTrip.SaveThenLoad` | src/cache.rs:42-125 | the same through `save` and `load` themselves: what is saved is read back |
| `CacheRoundTrip.ReadableIff` | src/cache.rs:51-63 | caches of versions 1 to 4 are read, and no others |
| `CacheRoundTrip.HistoriesArePlain` | src/registry.rs:112-267 | every history of backends registering non-empty names under their own gives a registry the round trip speaks of |
| `CacheRoundTrip.RemovedToolReturns` | src/cache.rs:79-85 | an alias that outlived its owner brings a removed tool back through the cache |
| `Levenshtein.Distance` | src/registry.rs:807-831 | the two-row programme returns the length of the shortest script of single-byte insertions, deletions and substitutions, for all byte strings |
| `Levenshtein.FillRow` | src/registry.rs:817-828 | the inner loop turns the row of one prefix into the row of the next |
| `Levenshtein.ShortestScript` | src/registry.rs:807-831 | the recurrence behind it: some script is that short, and none is shorter |
| `Levenshtein.AtLeastGap` | src/registry.rs:628-632 | the distance is at least the difference in length |
| `Levenshtein.ZeroIffEqual` | src/registry.rs:807-831 | the distance is zero exactly between equal strings |
| `Fuzzy.CorrectTerm` | src/registry.rs:621-641 | a term becomes a word of the vocabulary at the least positive distance allowed, or stays if there is none: the test on lengths loses no candidate |
| `Fuzzy.CorrectQuery` | src/registry.rs:619-643 | the same for every term of a query |
| `Fuzzy.CorrectedIff` | src/registry.rs:621-641 | in numbers: a term of three bytes or more changes exactly if another word is within one edit, two from five bytes on, three from thirteen on, and then to one of those nearest |
| `Fuzzy.ChangedIff` | src/registry.rs:621-641 | a query changes exactly if one of its terms has a candidate |
| `Scoring.ScoresIff` | src/registry.rs:413-441 | with a logarithm positive above one, a tool of the corpus scores above zero exactly if it contains a token of the query |
| `Scoring.BestAnyOrder` | src/registry.rs:380-455 | scores, hits and ranking do not depend on the order the map is walked in |
| `Ranking.TopUnique` | src/registry.rs:446-455 | there is only one list of the best `limit` hits by score, then name |
| `Ranking.SortedTop` | src/registry.rs:446-455 | sorting and truncating any enumeration of the hits gives that list |
| `Search.BuildCorpus` | src/registry.rs:528-547 | the corpus holds exactly the tools with a wanted tag, each once |
| `Search.Bm25Search` | src/registry.rs:380-455 | the result is the best `limit` of the hits |
| `Search.Bm25Unique` | src/registry.rs:380-455 | so no two runs of tier 1 on one registry differ |
| `SearchOrder.RarerFirst` | src/registry.rs:418-437 | of two tools of one length, one having one term as often as the other has another, the one with the rarer term comes first |
| `SearchOrder.OftenerFirst` | src/registry.rs:418-437 | at equal length the tool with more occurrences of a term, and no fewer of the others, comes first |
| `SearchOrder.ShorterFirst` | src/registry.rs:418-437 | at equal occurrences the shorter tool comes first |
| `SearchOrder.MoreUsedFirst` | src/registry.rs:431-435 | of two tools otherwise alike the more used comes first |
| `SearchOrder.TieByName` | src/registry.rs:446-450 | of two tools alike in everything the alphabetically first comes first |
| `SearchOrder.OccurrencesInNumbers` | src/registry.rs:404-430 | an occurrence counts 1 in a document of average length and 22/31 in one twice as long, and no number of them 2.2 |
| `SearchOrder.UsageInNumbers` | src/registry.rs:431-435 | usage lifts a score by three tenths of the logarithm of one more than the uses |
| `SearchOrder.ExactFirst` | src/registry.rs:358-364 | if some tool has a token of the query, a search returns only tools that have one, and all of them if the limit allows |
| `SearchOrder.FoundHasTag` | src/registry.rs:346-377 | a search returns at most `limit` tools, each with one of the tags asked for |
| `Search.TrigramSearch` | src/registry.rs:551-598 | the result is the best `limit` of the tools more than 0.05 similar |
| `SearchOrder.SimilarIff` | src/registry.rs:572-582 | a tool is similar exactly if more than one trigram in twenty is shared |
| `SearchOrder.MoreSimilarFirst` | src/registry.rs:572-598 | of two tools equally used the one sharing the larger part of the trigrams comes first |
| `Search.ListVocabulary` | src/registry.rs:603-618 | the vocabulary has every token of three bytes or more of every tool, whatever its tags |
| `SearchOrder.VocabularyIff` | src/registry.rs:603-618 | a word is in the vocabulary exactly if it has three bytes or more and is a token of some tool's name or description |
| `Search.Search` | src/registry.rs:346-377 | the first tier that finds something decides the result |
| `Search.Tier1EmptyIff` | src/registry.rs:360-364 | tier 1 is empty exactly if no tool with a wanted tag contains a token of the query |
| `Search.SearchEmptyIff` | src/registry.rs:346-377 | without tags a search comes back empty exactly if no tool contains a token, none is similar, and no token is close to a word: a correction always finds something |
| `HealthObject.HealthRecord.RestartBackoff` | src/backend/health.rs:50-54 | the wait doubles with every restart counted, five times at most, up to the maximum |
| `HealthEffects.BackoffDoubles` | src/backend/health.rs:50-54 | in numbers: 1, 2, 4, 8, 16, 32 times the initial backoff, constant from five restarts on, never above the maximum |
| `HealthObject.HealthRecord.LookAt` | src/backend/health.rs:98-432 | one look at a backend in phase 1, 2 or 3 is a step of the transition system |
| `HealthEffects.HealthyIsPinged` | src/backend/health.rs:98-160 | a healthy backend is pinged and a starting one left alone |
| `HealthEffects.LookReacts` | src/backend/health.rs:205-432 | an absent, stopped or unhealthy backend is restarted exactly when another restart is allowed and the wait is over, and one with its circuit open is probed exactly when the recovery time is over |
| `HealthObject.HealthRecord.PingEnds` | src/backend/health.rs:153-260 | how a ping or probe ends |
| `HealthObject.HealthRecord.RestartEnds` | src/backend/health.rs:277-352 | how a prerequisite check or restart ends: counted in every case |
| `HealthEffects.EndsAreCounted` | src/backend/health.rs:277-352 | a prerequisite check that fails, and a restart however it ends, is counted and timed once |
| `HealthBudget.RestartBudget` | src/backend/health.rs:262-352 | at most max_restarts attempts between two window openings, and openings more than restart_window apart |
| `HealthBudget.SpanBudget` | src/backend/health.rs:262-352 | any time span of length restart_window sees at most 2·max_restarts attempts |
| `HealthBudget.AttemptPossibleIff` | src/backend/health.rs:56-64 | a stopped backend can be restarted, given time, exactly unless max_restarts failures were counted with no window open |
| `HealthBudget.LockedOutForever` | src/backend/health.rs:262-288 | then it never is again, whatever happens |
| `HealthBudget.PrerequisitesLockOut` | src/backend/health.rs:277-288 | failing prerequisites bring this about before a single attempt |
| `HealthBackoff.AttemptsSpaced` | src/backend/health.rs:264-273 | every attempt starts at least the capped exponential backoff after the one before it ended |
| `HealthBackoff.CircuitGuards` | src/backend/health.rs:40-48 | the failures are the failed pings in a row, a circuit opens only with failure_threshold of them, and phase 2 restarts nothing while it is open |
| `HealthBackoff.CircuitOpensIff` | src/backend/health.rs:155-195 | a closed circuit opens exactly at the failed ping that completes failure_threshold failures in a row |
| `HealthBackoff.CircuitHolds` | src/backend/health.rs:218-260 | an open circuit is probed no earlier than the recovery time, and closed exactly by a success or the end of the process |
| `RateLimiter.TokenBucket.TryCall` | src/backend/mod.rs:568-578 | a call is refused exactly when no permit is left |
| `RateLimiter.PermitsConserved` | src/backend/mod.rs:426-445 | with calls between reading and adding, permits never exceed max_calls, and available + admitted = max_calls + replenished |
| `RateLimiter.AdmissionBound` | src/backend/mod.rs:426-445 | over any stretch of a run at most max_calls·(refills + 1) calls are admitted |
| `RateLimiter.PassedBound` | src/backend/mod.rs:426-445 | the same counted off the run: the calls that found a permit are at most max_calls times one more than the refills |
| `RateLimiter.RefillRestores` | src/backend/mod.rs:436-443 | a refill leaves max_calls permits, less the calls let through between its two steps |
| `RateLimiter.RefusedIsSpent` | src/backend/mod.rs:568-578 | a call is refused only when max_calls and all that refills added have been let through |
| `HandoverObject.Directory.PromoteStaged` | src/ipc/upgrade.rs:118-188 | the renames and writes of a promotion, with both ways of failing half-way |
| `HandoverObject.Directory.BindEarly` | src/ipc/daemon.rs:37-80 | binding succeeds exactly if nobody listens on the socket, and then claims all three files |
| `HandoverObject.Directory.RepairPublicSocket` | src/ipc/daemon.rs:83-111 | the repair tick rebinds a missing socket or rewrites missing metadata |
| `HandoverObject.Directory.CleanUpOwnedFiles` | src/ipc/socket.rs:205-211 | the public files go exactly if the PID file names the generation |
| `HandoverObject.Directory.ExitCleanly` | src/ipc/daemon.rs:303-321 | a draining generation cleans up its drain files, any other what it owns |
| `Handover.PathsDistinct` | src/ipc/socket.rs:53-108 | no two of the sibling files share a path, whatever the socket's stem and the pids |
| `HandoverSafety.GenerationsAgree` | src/ipc/upgrade.rs:118-188 | after any sequence of hand-overs, exits, repairs, crashes and clean-ups, whoever the PID file names listens on the public socket and is described by the metadata, and every running generation has its socket in public or under its drain name |
| `HandoverSafety.AgreeThroughout` | src/ipc/daemon.rs:83-111 | socket, PID file and metadata name one generation or are all absent, as long as no proxy cleans up |
| `HandoverSafety.DisagreeIff` | src/ipc/proxy.rs:1028-1033 | the proxy's clean-up, which forgets the metadata, breaks this exactly if it finds a socket whose generation is dead, and no other step does |
| `HandoverSafety.MetadataLeftBehind` | src/ipc/proxy.rs:1028-1033 | it happens: a generation crashes and a proxy cleans up |
| `HandoverSafety.ExitRemovesOwn` | src/ipc/daemon.rs:303-321 | in every run an exiting generation removes no file of another |
| `HandoverEffects.ExitCleansUp` | src/ipc/daemon.rs:303-321 | in every run, a generation that exits without draining leaves none but drain files of its own, and one that drained leaves no drain file |
| `HandoverEffects.ExitEmpties` | src/ipc/socket.rs:205-211 | a generation that had a public file and exits without draining leaves no public file at all |
| `HandoverEffects.StagedFailsCleansUp` | src/main.rs:345-362 | a staged daemon that fails before promotion leaves none of its files |
| `HandoverEffects.BindPublishes` | src/ipc/daemon.rs:37-80 | in every run, a daemon that binds gets all public files exactly if nobody listens on the socket, and otherwise nothing changes |
| `HandoverEffects.PlaceIsFree` | src/ipc/daemon.rs:37-80 | after the publishing generation has exited without draining, the next daemon to bind gets the public files |
| `HandoverEffects.RepairCompletes` | src/ipc/daemon.rs:83-111 | after a repair tick the public files are complete: the generation's own if the socket was missing, and otherwise those that were there |
| `HandoverEffects.RepairNames` | src/ipc/daemon.rs:88-99 | in any directory a missing PID file beside a socket is replaced, metadata and all |
| `HandoverEffects.StaleIsGone` | src/ipc/socket.rs:185-203 | after the commands' clean-up there are no public files, unless the generation the PID file names is alive |
| `HandoverEffects.DeadSocketIsGone` | src/ipc/proxy.rs:1028-1033 | after the proxy's clean-up there is no public socket, unless the generation the PID file names is alive |
| `HandoverEffects.DiscoveryDrops` | src/ipc/socket.rs:220-260 | discovery drops the drain files of dead generations and no others |
| `HandoverSafety.PromotionKeepsBoth` | src/ipc/upgrade.rs:140-186 | a promotion that succeeds leaves the old socket under its drain name; one that fails leaves the old generation published |
| `TraceParent.ParseHeader` | src/trace_context.rs:87-141 | field after field and with early exits, the parser reads, refuses or panics as the specification says |
| `TraceParent.FillId` | src/trace_context.rs:105-130 | the loops that fill the ids stop at the first pair that does not parse, and panic at the first that is cut inside a character |
| `TraceParent.ParsePrint` | src/trace_context.rs:157-190 | parsing a printed value gives it back exactly if version is not ff and both ids are non-zero, and nothing otherwise |
| `TraceParent.PrintParseIff` | src/trace_context.rs:87-190 | a header that parses is reprinted unchanged exactly if its fields are lower-case hexadecimal |
| `TraceGrammar.ParsesIff` | src/trace_context.rs:87-141 | on any string: it parses exactly if it is laid out in fields of 2, 32, 16 and 2 characters, each a hexadecimal digit of either case or, at the start of a pair, a plus sign, with version not ff and both ids with a character other than 0 and plus |
| `TraceReading.ReadIff` | src/trace_context.rs:87-141 | what the parser reads, taking its steps in order, is what parses |
| `TraceReading.PanicsIff` | src/trace_context.rs:105-130 | on any string: it panics exactly if the version is good and the trace id, or after a good trace id the parent id, has a byte that continues a character at an even place, with nothing but digits and plus signs before the pair ahead of it; the lengths of later fields do not matter |
| `TraceReading.CutPairIsBad` | src/trace_context.rs:110 | in UTF-8 text the pair that is cut is the first that does not parse |
| `TraceReading.TextPanics` | src/trace_context.rs:110 | there is such a text, of the right layout |
| `TraceReading.AgreesIff` | src/trace_context.rs:82-141 | the parser reads what the standard calls valid and refuses the rest, on a string exactly unless it is an accepted one with an upper-case digit or a plus sign, or one it panics on |
| `TraceGrammar.ReprintIff` | src/trace_context.rs:87-190 | the strings that parse and are reprinted unchanged are exactly those the standard calls valid |
| `TraceGrammar.ReadsAlike` | src/trace_context.rs:97-130 | case is ignored, and a plus sign at the start of a pair reads as 0 |
| `TraceDigits.PairMeans` | src/trace_context.rs:97-136 | two digits mean sixteen times the first plus the second, in either case, and a plus sign before a digit means that digit |
| `TraceDigits.PrintsDigits` | src/trace_context.rs:157-190 | a byte is printed as the lower-case digits of its sixteens and its ones |
| `TraceDigits.FieldsAt` | src/trace_context.rs:87-141 | which pair of characters becomes which byte of the version, the ids and the flags |
| `TraceGrammar.UpperAccepted` | src/trace_context.rs:135 | a header that the standard calls invalid for one upper-case digit parses |
| `TraceGrammar.PlusAccepted` | src/trace_context.rs:97 | so does one with a plus sign |
| `TraceParent.ParsedIsValid` | src/trace_context.rs:87-141 | what parses has version other than ff, ids of the right size, and none all zero |
| `TraceParent.ChildPropagates` | src/trace_context.rs:145-154 | a child of a parsed header prints as a valid header of the same trace, version and flags, with the new id |

## Left out

- Sockets, processes, signals, HTTP and JSON text: their outcomes are inputs of the steps.
- Partial lines in the proxy, and cancellation of futures in the middle of a spawn.
- The bias of the bridge towards its daemon: a stream read to its end is found ended again before any other arm, where here other arms may fire first.
- Fairness and time in the pool: time-outs and wake-ups may happen in any order, and a notification may reach any waiter, where tokio picks the first.
- The saturation of the proxy's 64-bit ping counter, and the reconnect backoff.
- The first handshake of the proxy and the reading of its cache: runs start behind it, and a replayed handshake is one event.
- Floating-point rounding in scores; `search_hybrid`, embeddings and `get_distinctive_terms`.
- Tokenizing, lower-casing and building trigrams: given functions, so nothing is said about particular texts.
- The usage tracker: usage is a given function, and usage statistics in the cache are not part of this model.
- Reading and writing the cache file: what was written is what is read.
- Walking a concurrent map while another thread changes it: every registry operation is atomic.
- Phase 4 of the health checker, which restarts over memory limits, and forgetting removed backends: the restart budget speaks of phases 2 and 3.
- The effect of the health checker on the registry, and several backends at once: a record is treated on its own.
- Overflow of `Duration` and 32-bit restart counters.
- Retries and the concurrency semaphore of `call_tool`: only admission by the rate limiter is modelled.
- The repair tick between the two renames of a promotion, failing writes in it, and PID reuse.
- Daemons from before generation metadata: every daemon here writes it.
- Public sockets with a name that does not end in `.sock`.
- Random ids: `ChildPropagates` takes a non-zero parent id as given; that `random_bytes` ends is not stated.
- `HandoverObject.Directory.RepairPublicSocket`: replacing the listener is seen only in who owns the socket file.
