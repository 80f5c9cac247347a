# Verification of the response cache

Dafny models of the caching reverse proxy's core, `src/cache.rs`, and of the two
smaller pieces around it: the streaming of a cached body, and fallthrough
upstreams with the configuration they are built from. Check everything with
`dafny verify --resource-limit 2000000 --verification-time-limit 0 dfyconfig.toml`.

## What is modelled

The cache combines a byte pool updated by compare-and-swap loops, a
least-recently-used map of shared write-once cells behind an asynchronous mutex,
single-flight filling of a cell, and a loop that evicts until a body fits, where
space is freed by destructors that run when the last reference is dropped. There
are two models of it, and a proof that they agree.

**The machine** (`Machine.dfy`) is the cache under concurrency. Any number of
requests, to any number of caches that share one storage, take atomic steps in
any order: lookups under the mutex, taking and giving up a cell's permit, every
single load and compare-and-swap of the pool, each pop, each gauge change, each
dropped reference, and cancellation at every await point. A run is a `Trace`;
every theorem about the machine is about all traces of all configurations.

| step | lines of `src/cache.rs` |
|---|---|
| `Arrive`, `NeverAnswered` | 148-182 |
| `Lookup` | 184-193 |
| `EnterCell`, `FetchAnswered`, `FillCell` | 195-227 |
| `Report`, `SendResponse` | 229-270 |
| `TryReserve`, `TryReserveUpTo` | one iteration of 625-645 and 657-677, and what 464-494 does next |
| `PopOldest`, `CountEviction` | 470-504 |
| `CountNewFile` | 511-512 |
| `DropCell`, `Uncount`, `TryReturn` | 599-604, 687-721 |
| `Abandon` | the future is dropped at 175, 185, 196, 198, 458, 472 or 257 |

`Effects.dfy` and `Notes.dfy` restate each step as a flat effect; the invariants
are proved from those, in layers: `Ownership.dfy` (mutex, permits, map),
`Lifecycle.dfy` (resources and references), `Capacity.dfy` (bytes),
`Gauges.dfy`, `Transparency.dfy` (what is served), `Answers.dfy` (what is
answered, and what it counts as), `Accounting.dfy` and `Evictions.dfy`
(counters). `Lookups.dfy` says which cell a lookup hands out, how a cell leaves
the map, and what a request then obtains; `Causes.dfy` traces each answer back to
what upstream or the client did in the run. `Progress.dfy` proves termination under every
schedule, deadlock freedom, lock freedom and linearization.

**The sequential cache** (`Sequential.dfy`, `Storage.dfy`, `Pool.dfy`) is the
cache when requests do not overlap: classes whose methods have the loops of the
source, proved equal to specification functions, about which the eviction,
freshness and residency theorems are proved (`Residency.dfy`). The
compare-and-swap loops of `Pool.dfy` are verified with other tasks storing
arbitrary values between any two of their accesses.

`Refinement.dfy` proves that a request which runs alone in the machine, by
whatever steps, does to the store, answers and counts exactly what the
sequential cache says, and that it always gets to its end. `Rest.dfy` proves that
every state of the machine without requests in flight, whatever overlapped, failed
or was cancelled before, is a store at rest. What the sequential theorems say of
one request from a store at rest therefore holds of a lone request in the
machine from any such state; the exact evictions are spelled out there, and their
exact counting in `Tolls.dfy`. What they say of whole runs holds of the machine's
runs from the start in which no requests overlap.

`Streaming.dfy` and `Fallthrough.dfy` stand alone.

## What the source does, where a reader might expect otherwise

- After its first failed reservation a request takes the mutex and pops without
  trying again (lines 464-478), so under concurrency it may evict more than it
  needs. Minimal eviction is a theorem about requests that do not overlap.
- Expiry is checked only at the lookup (line 189). A request that finds an empty
  cell may be handed a resource that has already expired for its own time;
  `Freshness` says exactly which resources a request can be handed.
- A cell that was popped or pushed out may still be filling while a fresh cell for
  the same key fills too, so single flight is per cell; by key it holds among the
  cells that the map has (`OneFetchPerKey`).
- A fetch that fails or finds nothing leaves its empty cell in the map.
- Entries pushed out by the map's own limit, or replaced because they expired,
  are not counted as evictions.
- A request for a route that is never cached is counted as such even if its
  fetch fails (lines 173-175).
- The sending thread goes on after a failed read (lines 563-567).
- The checked addition in `return_to_pool` is done on a value that other tasks
  may have changed since (lines 694-698); it still cannot overflow.

## Model

| member | source | states |
|---|---|---|
| Capacity.FullyReserved | src/cache.rs:460-509 | in every reachable state of every interleaving, each resource the map keeps is reserved for every byte of its body |
| Capacity.ShortIsInFlight | src/cache.rs:483-494 | at every stage of its life, a resource granted less than its size is in no cell of the map, and a request in flight refers to its cell or is giving its reservation back |
| Capacity.RetainedFits | src/cache.rs:460-509 | the lengths of the bodies of all resources the map keeps add up to at most the capacity in use, and so to at most `max_disk_capacity` |
| Capacity.Conservation | src/cache.rs:612-721 | available capacity plus all outstanding reservations is the initial capacity after every single atomic step |
| Capacity.ReturnCannotOverflow | src/cache.rs:694-698 | the checked addition in `return_to_pool` never overflows, even on a stale snapshot |
| Capacity.NoLeak | src/cache.rs:717-721 | once no request is in flight, whatever was evicted, expired, replaced, cancelled or failed, all bytes are available but those of the resources in the map |
| Capacity.SumKept | src/cache.rs:619-715 | each kind of step moves bytes between the pool and one reservation without losing any |
| Capacity.EmptyStays | src/cache.rs:483-483 | while one request reserves as much as it can, no step of another puts anything into the emptied map |
| Ownership.OwnedAlways | src/cache.rs:184-196 | the mutex and each permit have exactly one holder, the map has one cell per key within its limit, and requests refer only to cells of their own key |
| Lifecycle.LivesAlways | src/cache.rs:579-604 | a resource belongs to its creator until it is in its cell, stays as long as anything refers to the cell, and is destroyed by exactly one request |
| Lifecycle.RefStep | src/cache.rs:599-604 | references to a filled cell end only with the step that drops the last one |
| Gauges.GaugesNonNegative | src/cache.rs:599-604 | no disk gauge of any host is ever negative |
| Gauges.GaugesBounded | src/cache.rs:511-512 | at every step, the disk bytes reported by all hosts are at most the capacity taken, plus what counted resources were granted short of their size |
| Gauges.GaugedAlways | src/cache.rs:511-512 | each host's gauges are exactly the number and bytes of its counted, not yet uncounted files |
| Gauges.GaugesAtRest | src/cache.rs:511-512 | with no request in flight, each host's gauges are the number and bytes of its entries in the map |
| Gauges.GaugesTotalAtRest | src/cache.rs:599-604 | with no request in flight, the disk bytes of all hosts add up to the bytes the map retains, which is the capacity not available |
| Transparency.SameAsUpstream | src/cache.rs:143-271 | if upstream is a fixed function of host key and path, every response with a body has exactly the content for the host and path of its own request, under any interleaving, eviction, expiry or cancellation |
| Transparency.Freshness | src/cache.rs:184-194 | a resource obtained from a cell was created for the same key, less than its maximum age before the request's own time, or else was put into the cell after the request looked |
| Transparency.MissIffCreator | src/cache.rs:229-243 | a request is counted as a miss if and only if it created the resource it obtained, and as a hit if and only if another did |
| Transparency.EveryResourceIsAMiss | src/cache.rs:229-243 | each resource ever put into a cell is the one miss of its creator, with its size, even after it was evicted or detached; until the creator counts it, the creator is at that very step |
| Transparency.OneInitialiser | src/cache.rs:195-227 | a cell has at most one initialiser at a time and none once filled |
| Lookups.LookupJoins | src/cache.rs:184-194 | from any reachable state, a lookup joins the cell kept for its host and path if that is unfilled or within the age of the request that filled it; the entry moves to the recent end and nothing else changes |
| Lookups.LookupReplaces | src/cache.rs:189-191 | a cell past that age gives way to a new one under the same key, at the recent end, and stays for those who refer to it |
| Lookups.LookupStarts | src/cache.rs:187-188 | without an entry the request adds a cell of its own, and only a full map loses its oldest entry |
| Lookups.StaysMapped | src/cache.rs:184-194 | in every run, a cell once in the map still is if and only if no step popped it, pushed it out of a full map, or looked up its key and found it past its age |
| Lookups.UnfilledStaysMapped | src/cache.rs:477-478 | a cell that is not filled yet has left the map if and only if it was popped or pushed out |
| Lookups.OneFetchPerKey | src/cache.rs:195-227 | of all requests for one host and path that fetch or store, at most one has its cell in the map |
| Lookups.LookupAwaitsFetch | src/cache.rs:184-196 | while one request fetches for a cell in the map, every lookup of the same host and path joins that cell |
| Lookups.ObtainsFromItsCell | src/cache.rs:195-243 | in every continuation of the run, a request keeps to the cell it looked up and obtains nothing but what that cell is filled with |
| Lookups.HitsWhatItFound | src/cache.rs:195-270 | a request whose lookup found a filled cell never asks upstream, is counted as nothing but a hit of that body's length, and is served no other body |
| Lookups.FreshUnlessFilledLater | src/cache.rs:184-196 | what a request obtains was fetched for its own host and path and is within its age, unless the cell was still unfilled after the request had looked up |
| Causes.AnsweredAsTold | src/cache.rs:173-270 | in every reachable state, the response is exactly what the last answer, cloned or refused handle, or cancellation of that request makes it, whatever others do |
| Causes.ErrorHasCause | src/cache.rs:246-257 | a request is answered with an error only if upstream failed for that very request or its file handle could not be cloned |
| Causes.AbsenceHasCause | src/cache.rs:166-252 | a request is answered without a body only if its route is disabled or upstream found nothing for that very request |
| Causes.MadeOfDelivered | src/cache.rs:198-227 | a resource holds exactly the body that upstream last delivered to the request that made it |
| Causes.ServedWasDelivered | src/cache.rs:198-270 | every body served was delivered by upstream in this run to a request for the same host and path, and to that very request on a route that is never cached |
| Transparency.WriteOnce | src/cache.rs:195-227 | a filled cell never changes in any continuation of the run |
| Answers.TalliedAsDeserved | src/cache.rs:164-256 | in every reachable state, the tally of a request is what its rule, the resource it obtained and the answer it was given call for: errors, not found and unrouted requests are counted exactly as such |
| Answers.AnswerFitsTally | src/cache.rs:229-270 | a request is answered exactly when it starts to clean up, with an answer its tally allows and a body of the size counted; one that ends without a tally was cancelled |
| Accounting.RequestsAddUp | src/cache.rs:148-256 | on every route at every step, requests are those unrouted, never cached, hits, misses, errors, not found, those unclassified and still unanswered, and those cancelled before they were classified |
| Accounting.RequestsAtRest | src/cache.rs:148-256 | with no request in flight, requests are those of the six classes and those cancelled before they were classified |
| Accounting.CountersDeserved | src/cache.rs:164-256 | each counter of each route is exactly the number, or bytes, of the requests that deserve its class by rule, resource and answer |
| Accounting.CountedAlways | src/cache.rs:229-256 | each counter of each route is exactly the number, or bytes, of the requests with its tally, of which each has at most one |
| Evictions.EvictionsAlways | src/cache.rs:496-504 | eviction counters are exactly the resources marked as evicted, each once, with its own size, for the host that created it, and a marked resource is out of the map |
| Evictions.PopIsCounted | src/cache.rs:477-504 | a request that popped an entry goes on to count it and cannot be cancelled before; if the cell is filled then, exactly its host gains one eviction and its size, for the first time |
| Evictions.EvictionsAtMostMisses | src/cache.rs:496-504 | at every step a host's evictions and evicted bytes are at most its misses over all routes, plus resources filled and about to be counted |
| Evictions.EvictionsAtRest | src/cache.rs:496-504 | with no request in flight, they are at most its misses |
| Progress.MeasureDecreases | src/cache.rs:462-508 | every step, failed exchanges and eviction iterations included, makes one global measure smaller |
| Progress.RunsAreFinite | src/cache.rs:462-508 | n requests take at most 24 n (2 n + 1) atomic steps under every schedule, without fairness |
| Progress.NoDeadlock | src/cache.rs:184-227 | while a request is unfinished, some request can take a step that is not a cancellation |
| Progress.StuckMeansFinished | src/cache.rs:184-227 | a run in which nobody can move has finished all requests |
| Progress.MovesUnlessWaiting | src/cache.rs:184-227 | a request can go on exactly unless it is done, waits for a held mutex, or waits while another request fills its cell; while it waits it can be cancelled |
| Progress.HolderMoves | src/cache.rs:184-194 | the mutex has one holder, which never awaits: it can always take its next step and cannot be cancelled |
| Progress.AnyAnswerComes | src/cache.rs:175-257 | no answer that upstream may give, failure to clone a handle, or cancellation at an await is ruled out |
| Progress.LockFree | src/cache.rs:625-645 | a request fails an exchange at most as often as other requests succeed, even if the value it loaded comes back |
| Progress.FailsOnlyWhenShort | src/cache.rs:629-629 | `reserve` fails only if, at the load of its present attempt, less than the size was available |
| Progress.SnapshotObserved | src/cache.rs:626-628 | a loaded value was the true capacity at the request's last step, which was that load; only others have moved since |
| Progress.PoolSteps | src/cache.rs:619-715 | the pool changes only by the whole size, by the smaller of size and available capacity, or by giving back a whole reservation, at one step each, and never exceeds the initial capacity |
| Pool.AtomicU64.Reserve | src/cache.rs:619-647 | with arbitrary interference: all or nothing at one atomic write from the count it meets; failure only after a count below the size; retries no more than others' writes |
| Pool.AtomicU64.ReserveUpTo | src/cache.rs:649-678 | with arbitrary interference: the smaller of the size and the count it meets, at one atomic write |
| Pool.Reservation.ReturnToPool | src/cache.rs:687-715 | with arbitrary interference: adds the reservation back at one atomic write and forgets it; panics only after meeting a count that would overflow |
| Sequential.PopsShortest | src/cache.rs:462-508 | the eviction loop pops exactly the shortest least recently used prefix that frees enough, or everything |
| Sequential.FittingIsKept | src/cache.rs:460-509 | a body within the capacity ends as the most recent entry under its own key, reserved in full, behind the entries not popped, unchanged |
| Sequential.OversizedPassesThrough | src/cache.rs:474-494 | a body beyond the capacity empties the map, is granted the whole capacity, and leaves the pool full when the request ends |
| Sequential.RunAtRest | src/cache.rs:143-271 | after any requests one after another, all bytes are accounted for, keys are distinct and within the limit, and all entries are reserved in full |
| Sequential.Provenance | src/cache.rs:195-227 | every filled entry comes from an earlier miss on its own key, with that fetch's content and expiry |
| Sequential.HitsAreFresh | src/cache.rs:184-194 | a hit serves what an earlier call fetched for the same key, less than that call's maximum age ago |
| Residency.StillHits | src/cache.rs:184-194 | a key that was served still hits, with the same resource, if `now` is within the maximum age of the call that fetched it, fewer than `max_cache_files` other keys were used since and the resource fits the capacity with the largest bodies fetched for them |
| Residency.ServeKeepsResident | src/cache.rs:460-509 | one request for another key leaves a resident entry in the map under those bounds |
| Residency.RoomBefore | src/cache.rs:462-508 | entries older than a resident one free enough for a new body, so the loop stops before it |
| Residency.NotOldest | src/cache.rs:187-188 | in a full map, a resident entry is not the one a new key pushes out |
| Storage.CacheStorage.LookUp | src/cache.rs:184-194 | the lookup's whole new state: promotion, replacement of an expired cell, or insertion, with what it displaces returned to the pool |
| Storage.CacheStorage.CreateCachedResource | src/cache.rs:460-509 | the loop pops exactly the prefix that `Pops` says and reserves the size, or all there is |
| Storage.CacheStorage.FillCell | src/cache.rs:195-227 | the new resource is in the request's cell, or is destroyed with the request if the cell was popped |
| Storage.CacheStorage.DropCell | src/cache.rs:717-721 | the last reference gives its reservation back, without panic |
| Storage.Cache.Get | src/cache.rs:143-271 | one call changes the store, replies and counts for its route exactly as `Serve` and its class say, for every rule, upstream answer, and success or failure of cloning the file handle |
| Refinement.LoneRequestServes | src/cache.rs:143-271 | a request that runs alone in the machine, by any steps, leaves the sequential store, is answered as the sequential reply says, and is tallied under that reply's class |
| Refinement.LoneRequestEnds | src/cache.rs:143-271 | a lone request always reaches its end, whatever upstream answers and whether or not the file handle can be cloned |
| Refinement.RunsInOrder | src/cache.rs:143-271 | requests that run one after another are a sequential run: same store, and the sequential reply to each |
| Rest.QuiescentAtRest | src/cache.rs:460-509 | every reachable state with no request in flight, after any overlap, failure or cancellation, is a store at rest: all bytes accounted for, distinct keys within the limit, entries reserved in full |
| Rest.LoneMissIsKept | src/cache.rs:460-509 | from any such state, a lone miss within the capacity pops exactly the shortest prefix that makes room and ends as the most recent entry, reserved in full, behind the others |
| Rest.LoneMissPassesThrough | src/cache.rs:474-494 | from any such state, a lone miss beyond the capacity leaves the map empty and the pool full |
| Rest.LoneRequestKeeps | src/cache.rs:184-194 | from any such state, a lone request for another key leaves a resident entry in the map under the bounds of residency |
| Rest.LoneRequestCounts | src/cache.rs:148-256 | from any such state, a lone request changes its route's counters exactly as the sequential cache does |
| Tolls.LoneRequestEvicts | src/cache.rs:496-504 | from any such state, a lone request raises each eviction counter of each host by exactly its filled entries in the popped prefix, and by nothing for entries replaced or pushed out |
| Streaming.SendFile | src/cache.rs:546-575 | for all short reads, read errors and hang-ups, message by message: an error exactly where that read failed, else the next bytes of the file, at least one and at most 16384; the whole file and one last read unless a message was refused, which is then the last |
| Fallthrough.Get | src/upstream/fallthrough.rs:17-36 | the loop asks exactly the sites that `Eval` says, in order, and gives its answer, for sites with state |
| Fallthrough.NestedIsFlat | src/upstream/fallthrough.rs:17-36 | an upstream tree of any shape asks the same sites and answers the same as one fallthrough over its leaves |
| Fallthrough.FirstFound | src/upstream/fallthrough.rs:22-23 | the first body found is the answer, whatever failed before, and no later site is asked |
| Fallthrough.NoneFound | src/upstream/fallthrough.rs:24-36 | without a body all sites are asked, and the answer is the first error, else not found |
| Fallthrough.BuildKeepsSites | src/main.rs:248-259 | a configuration builds if and only if all its clients can be made, and has its sites from left to right; else the errors it may return are exactly those of its sites |
| Fallthrough.ConfigIsFlat | src/main.rs:248-259 | a configuration tree of any shape means one fallthrough over its list of sites, or fails with an error of one of them |

## Left out

- HTTP and S3 clients, the server, tracing, signals and configuration parsing: an upstream is any relation between keys and answers (in the sequential model, an answer given with the call).
- The `lru`, `path_tree`, `tokio` and `uuid` crates are not part of this model: the map is a recency sequence that promotes on access and drops its oldest entry when full, a cell has one permit and is written once, identifiers are the indices of requests, and a request carries the rule its path matches.
- Memory orderings: the pool is one atomic location, and its loads and strong exchanges interleave.
- The file system: bodies are written before they are reserved, and a response keeps its own file descriptor after the resource is gone, so the bounds are on cached resources and not on disk use.
- Rounding of floating-point gauges, the estimated expiry timestamp of responses (lines 514-523), and overflow of `now.checked_add`: gauges and times are integers.
- Widths other than the pool's: the sizes and counters of requests are unbounded.
- `CacheStorage::new`: descriptor limits; the map's limit is a parameter of at least one.
- Residency.StillHits: is about runs from the start without overlap; from other states of rest, `Rest.LoneRequestKeeps` has its single step.
- Conversions from configuration to rules (lines 376-436): a maximum age is a parameter.
- Two gauge updates in a row (511-512, 601-602) are one step, and so are a fetch's failure with its counter and the release of its permit, and an obtained resource with its two counters.
- A resource's own reference count is folded into that of its cell: a request that clones the resource also keeps its cell until it returns, so both end together.
- Failures to write a body to disk count as failed fetches.
- Storage.Cache.Get: leaves out the eviction counters and the disk gauges, which the machine has; `Tolls.LoneRequestEvicts` and `Gauges.GaugesAtRest` say what a lone request makes of them.
- Storage.CacheStorage.FillCell: the cell is a value in the map's last entry and not a shared object; sharing is modelled in the machine.
- Pool.Reservation.ReturnToPool: returns that it panicked instead of unwinding.
- Fallthrough.BuildKeepsSites: does not say which of the possible errors a failed build returns, since clients are made concurrently and the first failure in time is returned.
- Streaming.SendFile: reads after those in the script succeed, so it covers finitely many read errors; with errors forever the source's loop goes on until the receiver hangs up.
- Host header handling and metric labels in `src/app.rs`.
