# Verified model of FCReverseProxy's proxy core

The proxy admits requests through a bounded queue with a concurrency limit, balances them over its
upstreams, and keeps cacheable responses in an LRU cache with a lifetime per entry. This project
models those parts of `internal/proxy` in Dafny 4.11 and proves what holds of them in every
interleaving, along every trace of operations, and across several calls of `ServeHTTP`.

`dafny verify dfyconfig.toml` verifies everything.

## How the code is modelled

- **Admission queue** (`AdmissionQueue`, `AdmissionRuns`, `Gate`). A request is a handler and an
  acquisition goroutine, each with a program counter. One action is one channel operation, one
  atomic add, one select arm, or one event of a timer, a client or a context. The number of requests
  is unbounded and every interleaving is a run. `select` is a free choice among ready arms, as in
  Go; the word "Deterministic" in the comment at `internal/proxy/queue.go:97` is not what the code
  does. `Gate` is the handler itself, in the source's control flow, over the variables its closure
  shares: every move it makes is checked to be a step of the transition system, and between any two
  of them all other participants may act.
- **LRU cache** (`Lru`, `LruHeap`). `LruHeap` has the linked ring around a sentinel that
  `container/list` keeps, the key-to-element map and the statistics, all updated in place. Every
  method equals a function on a recency sequence, and the trace theorems are about those functions.
  The mutex makes each operation atomic; the clock is a parameter and need not be monotone.
- **Balancers** (`RoundRobin`, `RoundRobinRuns`, `LeastConnections`, `Upstreams`). Both are classes
  with the source's counters, wrapping where Go's wrap; health probes are an oracle.
  `RoundRobinRuns` interleaves any number of round-robin picks. The least-connections pick is its
  retry loop, with what others do to the counters in each of its turns as a parameter.
- **Proxy** (`Proxy`, `ProxyRuns`, `ProxyProgress`, `Reservations`, `Provenance`). `Proxy` composes
  balancer, queue and cache into one transition system in which a pick's scan races with every
  counter it reads, so that it may end anywhere, and its compare-and-swap may fail. Where a run is
  exhibited (`Reservations`), its picks are those the balancer makes when nothing races with them.
- **Calls** (`ReverseProxy`, `Replay`, `Exchange`, `CacheKey`, `CacheControl`, `CachePolicy`,
  `Headers`, `Text`). `ReverseProxy` is one call of `ServeHTTP` over the heap cache and the balancer
  object, `Replay` several in a row. Times and durations are nanoseconds.

Unsigned remainders are written by repeated subtraction (`Remainders.Rem`); `Remainders.DivMod`
shows it is `%`, which the methods use.

## What the proofs say about the code

Some things one would expect of the code are false of it. In each case the code is kept as it is;
what is proved instead is an equivalence or, for cache keys, an equivalence on a domain together
with a colliding family for each of the domain's conditions.

- *A slot can be lost.* If the goroutine takes a slot while its handler leaves on timeout or
  cancellation, nothing returns it (`queue.go:86-112`). The slots always equal executing requests
  plus unconsumed grants plus such orphans; all slots can be orphaned under any configuration; and
  newcomers can be served if and only if one slot is not.
- *The number of unreturned requests is unbounded.* A handler between lines 71 and 72 of `queue.go`
  has given its token back and not returned, so maxQueue + maxConcurrent is no bound on admitted
  requests in flight, nor maxQueue one on `queueDepth`. The exact counts are proved.
- *A turned-away request keeps its reservation.* `Pick` comes before the queue
  (`proxy.go:212`, `proxy.go:233`), so a 429 or 503 leaves `pendingSelections` one too high for good.
- *`pendingSelections` can go negative,* exactly when two configured targets are the same upstream;
  and then without any race, with health checks or without.
- *A health scan can answer nil although a target is healthy,* exactly when its index sum wraps and
  the number of targets does not divide 2^64.
- *`max-age=0` is kept for the default lifetime.* A response is kept no longer than its upstream
  declared if and only if the declared lifetime is positive (`cache.go:132-134`).
- *Two requests can share a cache key,* when a part contains the text that ends it in the key, for
  example a decoded `?` in the path.
- *Different upstreams need not share cached responses,* as the comment at `proxy.go:149` says they
  do: for requests whose parts hold no delimiter, their keys agree exactly if their schemes and the
  rewritten paths do.
- *A quoted argument with a comma is cut* by the parser of Cache-Control: a directive reads back if
  and only if its argument has no comma.

## Model

| member | source | states |
|---|---|---|
| AdmissionQueue.Normalize | internal/proxy/queue.go:32-40 | a setting is kept, or it is not positive and becomes 1024 or 128 |
| AdmissionQueue.AdvanceIsBooked | internal/proxy/queue.go:54-138 | each step moves one request's share of the queue tokens, the slots and the depth exactly as it moves the shared counters |
| AdmissionQueue.AdvanceKeepsRequest | internal/proxy/queue.go:54-138 | each step keeps handler, goroutine, grant buffer, contexts and timer of its request consistent |
| AdmissionQueue.StepKeepsInv | internal/proxy/queue.go:54-138 | the inductive invariant over all handlers and goroutines is kept by every step |
| AdmissionQueue.AdmissionSafety | internal/proxy/queue.go:54-138 | in every interleaving at most maxConcurrent requests are in next, at most maxQueue hold a queue token, and slots = executing + unconsumed grants + orphans |
| AdmissionQueue.SlotLaw | internal/proxy/queue.go:83-125 | the slot conservation law from the invariant alone |
| AdmissionQueue.UnreturnedLaw | internal/proxy/queue.go:54-138 | exact number of admitted, unreturned requests; the bound maxQueue + maxConcurrent holds up to handlers that gave everything back and still have defers to run |
| AdmissionQueue.DepthLaw | internal/proxy/queue.go:56-75 | queueDepth is never negative and trails the channel by exactly the requests between a channel operation and its atomic add |
| AdmissionRuns.OrphanStep | internal/proxy/queue.go:83-112 | the orphan count rises by one exactly on the second half of a lost race (slot taken, handler gone) and never falls |
| AdmissionRuns.OrphansNeverFall | internal/proxy/queue.go:83-125 | orphans never decrease along any run and never exceed maxConcurrent |
| AdmissionRuns.WedgeIsPermanent | internal/proxy/queue.go:83-125 | once every slot is orphaned, no continuation grants anyone service again |
| AdmissionRuns.WedgeIsReachable | internal/proxy/queue.go:83-112 | under every configuration any number of slots up to all can be orphaned |
| AdmissionRuns.ServiceIffSlotLeft | internal/proxy/queue.go:83-138 | in every reachable state, a request yet to arrive can still be served if and only if some slot is not orphaned |
| AdmissionRuns.UnreturnedIsUnbounded | internal/proxy/queue.go:69-75 | any number of admitted requests can be unreturned at once, and counted in queueDepth, with the queue channel empty |
| AdmissionRuns.NothingBlocks | internal/proxy/queue.go:69-125 | the receives at 71, 119, 125 and the send at 88 never block, a goroutine whose handler returned can leave its select, and the end of the request context can reach it |
| AdmissionRuns.StepLowersRank | internal/proxy/queue.go:54-138 | every step but an arrival strictly lowers a rank summed over handlers, goroutines, contexts and timers |
| AdmissionRuns.NextIsEnabled | internal/proxy/queue.go:54-138 | every unfinished request has an enabled action of its own that loses no slot |
| AdmissionRuns.EveryRequestAnswered | internal/proxy/queue.go:54-138 | runs over n requests have at most 19n steps, stop only when every handler has returned and every goroutine is gone, and an answer never changes |
| AdmissionRuns.EveryAnswerHappens | internal/proxy/queue.go:54-150 | under every configuration each of 429, 503 on timeout, 503 on cancellation and service is the answer of some request in some run |
| AdmissionRuns.OutcomeReasons | internal/proxy/queue.go:98-150 | 503 only after the context ended or the timer fired, with the message failQueue chooses for it; a served request has consumed a grant and returned its slot |
| AdmissionRuns.Quiesce | internal/proxy/queue.go:54-138 | from every reachable state all requests can run out without losing another slot |
| Gate.Gate.TryEnter | internal/proxy/queue.go:55-62 | a request gets in exactly if the channel has room at that moment |
| Gate.Gate.Interfere | internal/proxy/queue.go:51-139 | whatever the other participants do between two of a handler's steps, its own program point stays and the run remains a run of the system |
| Gate.Gate.Select | internal/proxy/queue.go:98-116 | any ready arm may be taken, and each is a step of the system |
| Gate.Gate.ServeHTTP | internal/proxy/queue.go:51-139 | one call, with others acting between any two of its steps, always returns an answer, never blocks outside the select, is 429 exactly if the queue was full when it came to line 55, and only takes steps of the system |
| Lru.DefaultTtl | internal/proxy/cache.go:74-79 | SetDefaultCacheTTL stores a positive duration as it is and 60 s for any other |
| Lru.Capacity | internal/proxy/cache.go:93-102 | a positive size is kept and any other becomes 1024 |
| Lru.RunKeepsWellFormed | internal/proxy/cache.go:106-196 | along every trace keys stay distinct, the list stays within capacity, and Entries is its length |
| Lru.CounterConservation | internal/proxy/cache.go:121-203 | over every trace: stores = entries + evictions + purged; hits are the Gets that find a fresh entry, misses those that find nothing, stale finds are neither |
| Lru.ResidentIsLastStore | internal/proxy/cache.go:106-196 | whatever is resident under a key is what the trace stored last under it |
| Lru.FoundIsLastStored | internal/proxy/cache.go:106-158 | a hit replays the last response stored under its key within its effective lifetime, a stale find is the same response past it; both directions |
| Lru.Retention | internal/proxy/cache.go:110-165 | a key just touched stays until at least capacity distinct other keys have been touched, absent Delete and Purge |
| Lru.RetentionExact | internal/proxy/cache.go:110-165 | along Gets and Sets of other keys it is resident if and only if fewer than capacity distinct ones were touched |
| Lru.DoKeepsIncluded | internal/proxy/cache.go:106-196 | one operation keeps a smaller cache's list included in a larger one's |
| Lru.LargerCacheIncludesSmaller | internal/proxy/cache.go:106-196 | on any one trace the smaller cache's list is an order-preserving subsequence of the larger's with equal responses and expiries, with no more hits; whatever it finds the larger finds alike |
| LruHeap.List.PushFront | internal/proxy/cache.go:147 | a new element at the front of the ring, all links intact |
| LruHeap.List.MoveToFront | internal/proxy/cache.go:114 | the element's value moves to the front, the order of the others and all links are kept |
| LruHeap.List.Remove | internal/proxy/cache.go:170 | exactly that element leaves the ring |
| LruHeap.List.Back | internal/proxy/cache.go:162 | the last element, or nil for an empty list |
| LruHeap.AtPosition | internal/proxy/cache.go:110-174 | among distinct keys, finding by key and removing by position are lookup and removal by key |
| LruHeap.LruCache.constructor | internal/proxy/cache.go:93-102 | a fresh cache is the empty sequence |
| LruHeap.LruCache.Get | internal/proxy/cache.go:106-127 | on the heap, Get is move-to-front with its hit or miss count, and reports absent, fresh or stale |
| LruHeap.LruCache.Set | internal/proxy/cache.go:131-158 | on the heap, Set is replace-and-move or push-and-truncate with the effective lifetime |
| LruHeap.LruCache.RemoveElement | internal/proxy/cache.go:169-174 | element and map entry go together, one eviction is counted |
| LruHeap.LruCache.Delete | internal/proxy/cache.go:177-185 | on the heap, Delete removes the key and counts an eviction |
| LruHeap.LruCache.Purge | internal/proxy/cache.go:189-196 | on the heap, Purge is the empty sequence with the other statistics kept |
| RoundRobin.RoundRobinBalancer.Pick | internal/proxy/balancer.go:37-66 | a preview and a pick without health checks answer nextIndex mod n; with them, ((nextIndex + k) mod 2^64) mod n for the first probe k that succeeds, nil just if none does; the counter moves by one mod 2^64 except for a preview |
| RoundRobin.PickTimes | internal/proxy/balancer.go:37-55 | k calls of Pick without a wrap answer each target floor(k/n) or ceil(k/n) times |
| RoundRobin.PickRound | internal/proxy/balancer.go:37-66 | n calls of Pick with health checks and steady health answer each healthy target its cyclic distance from the previous healthy one, others never |
| RoundRobin.ProbeTakesFirst | internal/proxy/balancer.go:57-65 | nil just if all n probes fail, else the target of the first that succeeds |
| RoundRobin.NilMeansNoneHealthyIff | internal/proxy/balancer.go:57-65 | nil implies that no target is healthy if and only if the scan does not wrap or the number of targets divides 2^64 |
| RoundRobin.TicketFairness | internal/proxy/balancer.go:48-55 | k tickets without a wrap give each of n targets floor(k/n) or ceil(k/n) picks |
| RoundRobin.SpreadAcrossWrap | internal/proxy/balancer.go:48-55 | across one wrap two targets' picks differ by at most two, without a wrap by at most one |
| RoundRobin.SpreadOfTwoHappens | internal/proxy/balancer.go:48-55 | the spread of two is attained |
| RoundRobin.ExactHealthyShares | internal/proxy/balancer.go:57-63 | in any n consecutive picks a healthy target wins exactly its cyclic distance from the previous healthy one, an unhealthy one never |
| RoundRobinRuns.ConcurrentShares | internal/proxy/balancer.go:48-65 | in every interleaving of concurrent picks: floor(k/n) or ceil(k/n) picks of each target without health checks, its exact cyclic distance with them |
| RoundRobinRuns.ConcurrentSpread | internal/proxy/balancer.go:48-55 | in every interleaving two targets' picks differ by at most two across one wrap |
| LeastConnections.BestOfIs | internal/proxy/balancer.go:101-122 | the scan's result is the lowest-index target of least load among those considered, and there is none just if no target is considered; both directions |
| LeastConnections.BestInNumbers | internal/proxy/balancer.go:101-122 | short of overflow a preview compares active counts and a pick sums of active and pending, ties go to the lower index, and health counts only if it is checked |
| LeastConnections.NoBestIff | internal/proxy/balancer.go:94-122 | there is no candidate just if there are no targets, or health checks find none healthy |
| LeastConnections.CountersInNumbers | internal/proxy/balancer.go:145-172 | short of overflow a pick adds one to pending, Acquire moves one from pending to active, a release takes one from active |
| LeastConnections.LeastConnectionsBalancer.FindCandidates | internal/proxy/balancer.go:101-122 | the loop's first candidate is that target |
| LeastConnections.LeastConnectionsBalancer.ReserveBest | internal/proxy/balancer.go:133-152 | under contention every failed turn lost its target's pending count to somebody else; the last turn reserves once on the best target it read |
| LeastConnections.LeastConnectionsBalancer.Pick | internal/proxy/balancer.go:94-153 | the same for the whole pick; without health checks and with a target it never fails, so the fallback is dead; a preview changes nothing |
| LeastConnections.LeastConnectionsBalancer.Acquire | internal/proxy/balancer.go:155-172 | a unit moves from pending to active on the first state alike in scheme, host and port; targets with ports of their own are found back |
| LeastConnections.GreedyPick | internal/proxy/balancer.go:101-152 | after a pick the maximum load is max(old maximum, old minimum + 1) over the healthy targets |
| LeastConnections.SpreadStaysWithinOne | internal/proxy/balancer.go:101-152 | a spread of at most one is kept by any run of picks |
| LeastConnections.CoincidesWithRoundRobin | internal/proxy/balancer.go:94-172 | from fresh state, with any Acquires interleaved and no release, the pick after k picks takes target k mod n, as round robin does |
| Upstreams.SameUpstreamIff | internal/proxy/balancer.go:184-214 | the same upstream is the same scheme and host in any case and the same port, where none is 80 for http and 443 for https; both directions |
| Upstreams.ResolveIsIdentityIff | internal/proxy/balancer.go:155-214 | Acquire finds back every picked target if and only if the targets are pairwise distinct upstreams |
| ProxyRuns.StepKeepsInv | internal/proxy/proxy.go:211-266 | requests, queue and counters stay in step under every action of the composed system |
| ProxyRuns.ConnectionAccounting | internal/proxy/balancer.go:132-172 | in every reachable state: active = requests between Acquire and return, pending = picks still waiting + picks the queue turned away, active counts sum to at most maxConcurrent |
| Reservations.PendingNeverNegativeIff | internal/proxy/balancer.go:155-172 | no interleaving makes a pending count negative if and only if the targets are pairwise distinct; if they are not, picks that never race on healthy targets suffice, with health checks and without |
| Reservations.TakenTwice | internal/proxy/balancer.go:155-172 | the run that shows it: requests pick targets in turn, the duplicate's request takes its twin's reservation, the twin's request takes one that is gone |
| ProxyRuns.LostReservationsNeverFall | internal/proxy/proxy.go:212-233 | reservations of requests the queue turned away are never given back |
| ProxyRuns.ProjectsToQueue | internal/proxy/proxy.go:83-86 | every run of the proxy is a run of the queue |
| ProxyProgress.FailedSwapMeansProgress | internal/proxy/balancer.go:147-151 | a compare-and-swap fails only if another request reserved on that target or acquired from it since the load |
| ProxyProgress.StepShortens | internal/proxy/proxy.go:125-234 | every step of the composed system but an arrival lowers a distance that pays for every swap it makes stale |
| ProxyProgress.EveryTripEnds | internal/proxy/proxy.go:125-234 | a run over n requests has at most (4n + 28) * n steps, retries included, and stops only when every request is answered |
| ProxyProgress.CanEnd | internal/proxy/proxy.go:125-234 | from every reachable state all requests can run to a hit, to no target, to being turned away, or to having been served |
| Provenance.HitProvenance | internal/proxy/proxy.go:166-206 | in every run a hit replays the last response stored under its key, which an upstream gave to a request with that key, no later than store time plus effective lifetime |
| Provenance.LookHitsIff | internal/proxy/proxy.go:166-207 | a lookup is a hit exactly if its key is resident and not past its expiry |
| Provenance.RoundTripTakesReply | internal/proxy/proxy.go:276-304 | a failed round trip goes straight to the release, a successful one carries its answer on |
| Provenance.StoreKeepsIff | internal/proxy/proxy.go:352-366 | an answer is kept exactly if its request has a key and it may be kept, and the next lookup of the key finds it with the expiry its lifetime gives |
| CachePolicy.KeptAsDeclaredIff | internal/proxy/cache.go:245-284 | a response is kept no longer than declared if and only if the declared lifetime is positive; else for the default |
| CachePolicy.MaxAgeZeroIsKeptForTheDefault | internal/proxy/cache.go:132-134 | a response with max-age=0 is kept for the default of 60 seconds |
| CachePolicy.TtlFollowsDirectives | internal/proxy/cache.go:245-284 | however Cache-Control is spelled: a response may be kept if and only if its status is 200, 203, 204, 300, 301, 404 or 410 and no directive is no-store; the last s-maxage decides for how long, else (missing or malformed) the last max-age, else an Expires in the future, else the default |
| CacheControl.ParseCacheControl | internal/proxy/cache.go:288-311 | the loop computes the last argument of every directive name |
| CacheControl.ParseOfRendered | internal/proxy/cache.go:286-311 | a list of directives in any case, with white space around names and directives, quotes and spaces around arguments, and empty pieces, reads back as the last argument of each name |
| CacheControl.ParseInWords | internal/proxy/cache.go:286-311 | the parsed map knows a name just if a directive has it, in any case, and then the argument of the last such directive |
| CacheControl.ReadsBackIff | internal/proxy/cache.go:294-309 | a directive reads back if and only if its argument has no comma, quoted or not; no header parses to an argument with one |
| CacheKey.KeyTellsRequestsApart | internal/proxy/cache.go:315-333 | for separable requests the key, body hash included, is equal if and only if all parts are |
| CacheKey.JoinsWithOneSlash | internal/proxy/headers.go:50-61 | two paths are joined by one slash, whether neither, one or both bring it |
| CacheKey.PathWithQuestionMarkCollides | internal/proxy/cache.go:322-326 | outside that domain two different requests share a key |
| CacheKey.DelimiterInVerbCollides | internal/proxy/cache.go:317-318 | a method with a space in it collides |
| CacheKey.DelimiterInSchemeCollides | internal/proxy/cache.go:319-320 | a scheme with :// in it collides |
| CacheKey.SlashInHostCollides | internal/proxy/cache.go:321-322 | a host with a slash in it collides |
| CacheKey.UnrootedPathCollides | internal/proxy/headers.go:50-61 | a path without its leading slash collides |
| CacheKey.DelimiterInPathCollides | internal/proxy/cache.go:322-328 | a path with the Accept delimiter in it collides |
| CacheKey.DelimiterInQueryCollides | internal/proxy/cache.go:323-329 | a query with the Accept delimiter in it collides |
| CacheKey.DelimiterInAcceptCollides | internal/proxy/cache.go:328-331 | an Accept value with the Accept-Encoding delimiter in it collides |
| CacheKey.DelimiterInAcceptEncodingCollides | internal/proxy/proxy.go:160-162 | an Accept-Encoding value with the body-hash delimiter in it collides |
| Exchange.DirectedHeaders | internal/proxy/proxy.go:370-393 | hop-by-hop headers are gone, the three forwarding headers have the values the client's address, scheme and host give them, all others are as they came |
| Exchange.DirectedURL | internal/proxy/proxy.go:370-393 | the outbound request goes to the target's host and port under its scheme and joined path, with method and query as they came |
| Exchange.RequestIDIsKept | internal/proxy/requestId.go:15-27 | a client's own ID is kept, a missing or blank one replaced by the generated |
| Exchange.EligibleIff | internal/proxy/cache.go:222-241 | however Cache-Control is spelled: eligible if and only if no directive is no-store or no-cache, Pragma is not no-cache in any case, and there is no Authorization or a directive is public |
| Exchange.RewritingKeepsEligibility | internal/proxy/cache.go:222-241 | rewriting for an upstream and adding a request ID do not change the caching decision |
| Exchange.StoreUsesLookupKey | internal/proxy/proxy.go:142-164 | a store uses exactly the key that was looked up and the fallback key is never built, whatever targets were previewed and picked |
| Exchange.UpstreamsShareKeysIff | internal/proxy/proxy.go:149-159 | previews of two targets give the same key if and only if their schemes and the rewritten paths agree |
| Exchange.ResponseWriter.CopyHeader | internal/proxy/headers.go:21-27 | every value of every source header is appended, in order |
| Exchange.SanitizeResponseHeaders | internal/proxy/headers.go:30-41 | the copy holds exactly the end-to-end headers that have values |
| Exchange.ResponseWriter.WriteHit | internal/proxy/proxy.go:167-190 | status, body and header of a hit |
| Exchange.ResponseWriter.WriteAnswer | internal/proxy/proxy.go:319-326 | status, body and header of a miss or bypass, with the queue's headers |
| Exchange.HitEqualsMiss | internal/proxy/proxy.go:167-190 | a hit sends what the miss that stored it sent, X-Request-ID included, but for X-Cache, Age, Content-Length and the queue's headers |
| Exchange.ExemptHeaders | internal/proxy/proxy.go:182-187 | the exempt headers exactly: X-Cache is HIT or MISS, Age is the entry's age, Content-Length agrees when the hit has one and else is added by the miss only |
| Exchange.MissHeaderIs | internal/proxy/proxy.go:319-326 | every header of a miss or bypass: what the proxy and the queue set, then what the upstream sent |
| Exchange.HitHeaderIs | internal/proxy/proxy.go:167-190 | every header of a hit: X-Cache, Age, the stored or else the own X-Request-ID, then what was kept of the upstream's |
| Exchange.AgeIs | internal/proxy/proxy.go:183-187 | the age is whole seconds, none if the clock went back |
| Text.ItoaReadsBack | internal/proxy/proxy.go:187 | the digits of Age and Content-Length read back as the number, without a leading zero |
| ReverseProxy.CallSettlesCounters | internal/proxy/proxy.go:264-266 | with distinct targets a call that reached its upstream restores every counter on every exit path; a turned-away one leaves one reservation |
| ReverseProxy.AnswerInWords | internal/proxy/proxy.go:276-326 | the status, body and X-Cache of every way a call can end |
| ReverseProxy.StoredInWords | internal/proxy/proxy.go:311-366 | an upstream's answer is stored just if the call has a key, its status is one of the seven, and no directive is no-store |
| ReverseProxy.ReverseProxy.GoUpstream | internal/proxy/proxy.go:211-233 | 503 exactly if no target is considered, else the best target is reserved and the counters, cache and answer follow the queue's verdict and the upstream's reply; a failed round trip is 408 if the client is gone, else 502, an unreadable body always 502 |
| ReverseProxy.ReverseProxy.ServeProxied | internal/proxy/proxy.go:125-234 | cache, counters, header and status after a call to be proxied equal the specification functions that ServeHTTP's contract and AnswerInWords put in plain terms |
| ReverseProxy.ReverseProxy.ServeHTTP | internal/proxy/proxy.go:95-367 | which way a call goes and what it is sent: 200, 405, 503 without a target, 429 at a full queue, 503 on giving up there, 408 or 502 on a transport error, 502 on a broken body, else the upstream's or the entry's status and body with X-Cache HIT, MISS or BYPASS; its key is built just for requests that may be cached; only an answer that may be kept is stored; unless turned away it leaves the counters as it found them |
| Replay.CallRetains | internal/proxy/proxy.go:166-206 | a call in time neither replaces a fresh entry nor pushes it out while fewer other keys are ahead of it than the cache has room for |
| Replay.ServeAgain | internal/proxy/proxy.go:95-367 | after a call that stores, and fewer other calls than the cache has room for, a call with the same key is a hit exactly within the response's lifetime, and its client is sent the status, body and non-exempt headers, X-Request-ID included, that the first client was sent, with X-Cache HIT and the response's Age |

## Left out

- Fairness of the scheduler and the upstream: that a run does stop is proved as a bound on its length and as freedom from deadlock; that timers fire and `next.ServeHTTP` returns is assumed only in reading "every request is answered".
- A panic inside `next.ServeHTTP`: it runs the same defers as a return, and is the same action here.
- Aliasing of `*CachedResponse`: the cache holds response values; the proxy passes a fresh response to every `Set` and never changes it afterwards.
- Overflow of the cache statistics, and of the composed model's connection counters, which are unbounded integers; the balancer classes wrap.
- ProxyRuns.ConnectionAccounting: is about least connections; round robin's Acquire does nothing.
- LeastConnections.LeastConnectionsBalancer.Pick: a turn's scan is given the counters it reads as one sequence, which may mix values of different moments; what others do in between is a parameter, not a run of module Proxy.
- Replay.ServeAgain: is about calls one after the other; concurrent calls are the subject of Provenance.HitProvenance, whose hits are entries, not written responses.
- Text outside ASCII: TrimSpace, ToLower and EqualFold are modelled on ASCII.
- `time.ParseDuration`, `http.ParseTime`, health probes, `RoundTrip`, body reads, SHA-256 and generated request IDs are parameters; the age in seconds is computed on integers.
- `http.Error`'s own headers on 4xx and 5xx answers, the Allow header, and X-Request-ID on answers that were not proxied.
- `ConfigureBalancer` and `SetHealthCheckEnabled` during traffic: one balancer is fixed per run.
- The fallback pick of `serveUpstream` (`internal/proxy/proxy.go:255-262`), which `ServeHTTP` never lets happen.
- TLS, configuration loading, logging, metrics other than the queue depth, and the demo upstream.
