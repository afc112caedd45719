# OpenText service request orchestration, modelled in Dafny

This project models the request-orchestration core of the CenterFuze OpenText
service:

- the token-bucket `RateLimiter` and its `AdaptiveRateLimiter` variant
  (`rate_limiter.dfy`, module `RateLimiting`);
- the TTL `CacheManager` (`cache_manager.dfy`, module `Cache`), with the key
  patterns of `clear`/`get_keys` (`patterns.dfy`, module `Patterns`);
- the `OpenTextService` request flow: cache lookup, then one rate-limiter token,
  then the upstream call, then the cache write. It also covers the typed
  getters, the batch methods, the update methods and `aggregate_usage`
  (`service.dfy`, module `Service`);
- the in-place mutators and small computations of the domain records
  (`models.dfy`, module `Models`).

`common.dfy` (module `Common`) holds `Option`, `Result` and `Distinct`.

Time is a `real` clock reading passed in as `now`. A sleep of `w` seconds
moves the clock forward by exactly `w`. Python's `int(x)` on a non-negative
rate is `.Floor`. Rates, costs, quantities and response times are exact reals.
The upstream HTTP API is a fixed function `upstream: Request -> Outcome`.
The `from_dict` decoders are functions returning `None` where Python raises.
Stateful components are classes whose methods change their fields in place.
Each such method is specified by a function on values (`Refilled`, `Settle`,
`TryTake`, `Adapted`, `Window`, `Lookup`, `AfterGet`, `Swept`,
`WithChild`, `WithoutChild`, `Response`, `CacheAfterMiss`, `Traced`,
`Chunks`, `Collect`, `Aggregate`). The lemmas are proved about those functions.

Where the prose design of the system and the code disagree, the model follows
the code:

- Token counts are integers, not reals, and refill truncates.
- The batch methods return only the records found, not one result per
  input. Items that give `None` or raise are dropped silently.
- The adaptive limiter's initial rate is not clamped to `[min, max]`. So
  "the rate always lies in `[min, max]`" holds only from the first adjusting
  response on, or when the initial rate is already in range.
- `exists` is documented as "the key exists and is not expired", but it
  returns `get(key) is not None`, so a live entry holding None reads as
  absent. `Exists` takes a test for None and follows the code.
- The adaptive limiter does not clamp the tokens when it lowers the capacity.
  The next committed refill cuts them back (`RefillClampsExcess`).
  `AdaptationBreaksCapacityBound` exhibits the state in between.

## Model

| member | source | states |
|---|---|---|
| `RateLimiting.Capacity` | app/utils/rate_limiter.py:40-41 | a non-zero burst capacity is the capacity; otherwise it is the whole part of the rate (c <= rps < c + 1) |
| `RateLimiting.Initial` | app/utils/rate_limiter.py:40-43 | a fresh bucket is full (tokens = capacity), keeps the rate, was never refilled, and is within its bounds |
| `RateLimiting.RateLimiter.constructor` | app/utils/rate_limiter.py:28-44 | the new limiter's state is `Initial(rps, burst)` |
| `RateLimiting.Refilled` | app/utils/rate_limiter.py:100-117 | the first refill only starts the clock (refill time := now, nothing else changes); refill never changes rate or capacity and always leaves a refill time; it keeps the bounds; in a bounded bucket tokens never drop; tokens change only when the refill time moves to `now` |
| `RateLimiting.RefillAddsWholeTokens` | app/utils/rate_limiter.py:108-117 | under one token earned nothing changes, refill time included; otherwise tokens = min(cap, tokens + floor(earned)), the dropped fraction is < 1, and the refill time becomes `now` |
| `RateLimiting.SplitRefillNoGain` | app/utils/rate_limiter.py:108-117 | two refills at t1 <= t2 never yield more tokens than one refill at t2 |
| `RateLimiting.SplitRefillLosesFraction` | app/utils/rate_limiter.py:112-117 | at 1 token/s, refills at 1.5s and 3s give 2 tokens where one refill at 3s gives 3 (fractions are discarded) |
| `RateLimiting.RefillClampsExcess` | app/utils/rate_limiter.py:113-116 | a bucket holding more than its capacity is cut back to exactly the capacity by the next committed refill |
| `RateLimiting.OversizedAcquireNeverSatisfied` | app/utils/rate_limiter.py:56-66 | when n exceeds both the capacity and the tokens held (an over-full bucket included), no sequence of refills ever brings the tokens up to n; a bounded bucket stays bounded |
| `RateLimiting.WaitTime` | app/utils/rate_limiter.py:147-151 | the wait is 0 exactly when n tokens are there; otherwise it is positive and wait * rps = missing tokens |
| `RateLimiting.WaitThenRefill` | app/utils/rate_limiter.py:56-66 | one sleep-and-refill iteration of the acquire loop strictly decreases the number of sleeps still pending |
| `RateLimiting.Settle` | app/utils/rate_limiter.py:56-66 | for n within the capacity, or n already held (even above the capacity), the acquire loop exits with at least n tokens, a clock no earlier than `now`, rate and capacity unchanged and bounds kept; when n tokens are already there it exits at once with no refill |
| `RateLimiting.Taken` | app/utils/rate_limiter.py:69 | consuming n subtracts exactly n and changes nothing else; it keeps the bounds for n >= 0 |
| `RateLimiting.Acquired` | app/utils/rate_limiter.py:46-69 | acquire returns with the settled bucket minus n; tokens stay >= 0 and bounds are kept; with enough tokens, even more than the capacity, it takes them without a refill or any wait |
| `RateLimiting.RateLimiter.Acquire` | app/utils/rate_limiter.py:46-73 | for n within the capacity or already held, the loop's final state and clock are `Acquired(old state, n, now)` |
| `RateLimiting.TryTake` | app/utils/rate_limiter.py:85-98 | refill first; succeed iff the refilled tokens >= n; on success subtract exactly n, on failure keep the refilled count; bounds are kept |
| `RateLimiting.RateLimiter.TryAcquire` | app/utils/rate_limiter.py:75-98 | the result and new state are `TryTake(old state, n, now)` |
| `RateLimiting.BurstThenRefill` | app/utils/rate_limiter.py:85-117 | with capacity 5 at 5/s, five try-acquires succeed, a sixth fails, and one second later one succeeds again |
| `RateLimiting.RateLimiter.RefillTokens` | app/utils/rate_limiter.py:100-121 | the new state is `Refilled(old state, now)` |
| `RateLimiting.RateLimiter.GetAvailableTokens` | app/utils/rate_limiter.py:123-132 | refills, then returns the refilled token count |
| `RateLimiting.RateLimiter.GetWaitTime` | app/utils/rate_limiter.py:134-151 | refills, then returns `WaitTime` of the refilled state |
| `RateLimiting.RateLimiter.Reset` | app/utils/rate_limiter.py:153-158 | tokens := capacity and refill time := now, nothing else changes, bounds hold |
| `RateLimiting.RateLimiter.SetRate` | app/utils/rate_limiter.py:268-270 | rate := new rate and capacity := its whole part; tokens and refill time untouched |
| `RateLimiting.Utilization` | app/utils/rate_limiter.py:172 | absent exactly when the capacity is 0 (the source divides by zero); otherwise u * cap = (cap - tokens) * 100, and it lies in [0, 100] for a bounded bucket |
| `RateLimiting.RateLimiter.GetStats` | app/utils/rate_limiter.py:160-173 | reports the four fields as they are and a utilisation within [0, 100] |
| `RateLimiting.Window` | app/utils/rate_limiter.py:231-235 | the window is the last min(n, 100) samples of the history |
| `RateLimiting.ReplayIsWindow` | app/utils/rate_limiter.py:230-235 | recording samples one by one leaves exactly the last 100 of everything recorded, oldest dropped first |
| `RateLimiting.Clamp` | app/utils/rate_limiter.py:266 | the result lies in [lo, hi]; it is x when x is in range, lo below, hi above |
| `RateLimiting.Adapted` | app/utils/rate_limiter.py:240-270 | tokens and refill time are never touched; no matching rule means no change; otherwise the rate becomes the old rate times the first matching rule's multiplier, clamped to [min, max]; the capacity is re-derived as floor(rate) only when the rate changes |
| `RateLimiting.AdaptedRules` | app/utils/rate_limiter.py:249-266 | rule by rule, in the order tried: a 429 sets clamp(rate * (1 - 2f)); else an error sets clamp(rate * (1 - f)); else a response slower than 5s sets clamp(rate * (1 - 0.5f)); else a 200 faster than 1s sets clamp(rate * (1 + 0.2f)); anything else leaves the bucket as it was |
| `RateLimiting.ErrorResponseLowersRate` | app/utils/rate_limiter.py:252-254 | an error response that is not a 429 strictly lowers a rate above the minimum, never below the minimum |
| `RateLimiting.SlowResponseLowersRate` | app/utils/rate_limiter.py:255-257 | a slow response that is not an error strictly lowers a rate above the minimum, never below the minimum |
| `RateLimiting.RulesTriedInOrder` | app/utils/rate_limiter.py:249-266 | a 429 takes the 429 rule whether or not it is flagged an error; with a positive factor a 429 lowers the rate at least as far as an error, and an error at least as far as a slow response |
| `RateLimiting.TooManyRequestsLowersRate` | app/utils/rate_limiter.py:249-266 | a 429 strictly lowers a rate above the minimum, never below the minimum |
| `RateLimiting.FastSuccessRaisesRate` | app/utils/rate_limiter.py:258-266 | a fast 200 strictly raises a rate below the maximum, never above the maximum |
| `RateLimiting.AdaptationBreaksCapacityBound` | app/utils/rate_limiter.py:268-270 | a full bucket of 10 at rate 10 that sees a 429 has capacity 8 and still holds 10 tokens |
| `RateLimiting.OverfullBucketServesAtOnce` | app/utils/rate_limiter.py:56-69 | that over-full bucket (capacity 8, 10 tokens) serves `acquire(9)` at once, keeping 1 token and the clock unchanged |
| `RateLimiting.ErrorCount` | app/utils/rate_limiter.py:287 | the error count never exceeds the number of samples |
| `RateLimiting.Recent` | app/utils/rate_limiter.py:286-298 | present iff samples exist; the count is the history length; 0 <= error rate <= 1 with rate * n = errors; average * n = total response time |
| `RateLimiting.AdaptiveRateLimiter.constructor` | app/utils/rate_limiter.py:186-207 | wraps a fresh `Initial(rate, None)` bucket with the given bounds and factor and an empty history |
| `RateLimiting.AdaptiveRateLimiter.RecordResponse` | app/utils/rate_limiter.py:209-238 | the history becomes the last 100 samples of old history + the new sample; the bucket becomes `Adapted(old bucket, ...)` |
| `RateLimiting.AdaptiveRateLimiter.AdjustRate` | app/utils/rate_limiter.py:240-275 | the bucket becomes `Adapted(old bucket, config, status, time, error)` |
| `RateLimiting.AdaptiveRateLimiter.GetAdaptationStats` | app/utils/rate_limiter.py:277-300 | the base statistics plus the recent-response part, whose error count is at most the history length |
| `Patterns.CompilePlainText` | app/utils/cache_manager.py:154 | a pattern without regex syntax compiles to one literal per character |
| `Patterns.LiteralsMatchPrefixes` | app/utils/cache_manager.py:155 | a literal pattern matches a key iff it is a prefix of the key (re.match anchors at the start only) |
| `Patterns.PlainTextMatchesPrefixes` | app/utils/cache_manager.py:154-155 | a plain-text pattern compiles and selects exactly the keys it prefixes |
| `Patterns.TrailingStarChangesNothing` | app/utils/cache_manager.py:155 | for any pattern, a repeated item at its end selects exactly the keys the pattern without it selects (re.match needs only a prefix) |
| `Patterns.CompilePrefixStar` | app/utils/cache_manager.py:154 | plain text followed by `.*` compiles to its literals and one repeated wildcard |
| `Patterns.PrefixStarMatchesPrefixes` | app/utils/cache_manager.py:154-155 | for plain text p, the pattern `p.*` compiles and selects exactly the keys starting with p |
| `Patterns.StarPatternExample` | app/utils/cache_manager.py:154-158 | `a:.*` compiles and matches `a:1` and `a:2` but not `b:1` |
| `Cache.GetEvictionInvisible` | app/utils/cache_manager.py:99-102 | dropping an expired entry on read changes no reader's view of any key and adds no keys |
| `Cache.ExpiryIsFinal` | app/utils/cache_manager.py:100 | an entry expired at `now` reads as absent at every later time |
| `Cache.SetThenLookup` | app/utils/cache_manager.py:115-119 | after set(k, v, ttl) a read of k gives v before now + ttl and absent from then on; other keys read as before |
| `Cache.SweptRemovesExactlyExpired` | app/utils/cache_manager.py:72-78 | the sweep keeps exactly the live keys, with their entries unchanged, and leaves no expired entry |
| `Cache.SweepIdempotent` | app/utils/cache_manager.py:67-78 | sweeping twice at the same time equals sweeping once |
| `Cache.SweepInvisible` | app/utils/cache_manager.py:72-78 | a read gives the same answer whether or not the sweep ran |
| `Cache.LiveAndExpiredPartition` | app/utils/cache_manager.py:175-180 | live and expired keys are disjoint, cover the store, and their counts add up to its size |
| `Cache.StatsOf` | app/utils/cache_manager.py:175-180 | total = size; expired = number of entries with expiry <= now; active = number of live entries; active + expired = total |
| `Cache.CacheManager.constructor` | app/utils/cache_manager.py:37-48 | a new cache is empty and keeps its sweep interval |
| `Cache.CacheManager.CleanupExpired` | app/utils/cache_manager.py:67-81 | the store becomes `Swept(old store, now)`, by collecting the expired keys and then deleting them |
| `Cache.CacheManager.Get` | app/utils/cache_manager.py:83-104 | returns the value iff the key is live; an expired entry is deleted; nothing else changes |
| `Cache.CacheManager.Set` | app/utils/cache_manager.py:106-119 | the key maps to (value, now + ttl); nothing else changes |
| `Cache.CacheManager.Delete` | app/utils/cache_manager.py:121-135 | returns true iff the key was stored, expired or not; removes only that key |
| `Cache.CacheManager.Clear` | app/utils/cache_manager.py:137-163 | no pattern: returns the old size and empties the cache; invalid pattern: error, nothing changes; valid pattern: removes exactly the matching keys and returns their count |
| `Cache.CacheManager.GetStats` | app/utils/cache_manager.py:165-198 | total = size, active + expired = total, expired counts entries with expiry <= now; reads only |
| `Cache.CacheManager.Exists` | app/utils/cache_manager.py:200-210 | true iff the key is live and its value is not None (`get(key) is not None`); otherwise has the same effect as `get` |
| `Cache.CacheManager.Touch` | app/utils/cache_manager.py:212-230 | succeeds iff the key is live, then sets expiry := now + ttl and keeps the value; otherwise changes nothing and deletes nothing |
| `Cache.CacheManager.GetKeys` | app/utils/cache_manager.py:232-247 | without a pattern: every stored key, expired ones included, each once; with one: exactly the matching keys, or the pattern's error |
| `Cache.CacheManager.Shutdown` | app/utils/cache_manager.py:249-261 | the cache is left empty |
| `Models.AccountStatusOf` | app/models/opentext.py:15-20 | a decoded account status has the given wire value |
| `Models.PortingStatusOf` | app/models/opentext.py:23-29 | a decoded porting status has the given wire value |
| `Models.UsageDataTypeOf` | app/models/opentext.py:32-38 | a decoded usage type has the given wire value |
| `Models.StatusValuesRoundTrip` | app/models/opentext.py:15-38 | every enum member decodes back from its wire value |
| `Models.StatusValuesInjective` | app/models/opentext.py:15-38 | no two members of an enum share a wire value |
| `Models.FirstIndex` | app/models/opentext.py:105 | the index of the first occurrence: it holds the id and no earlier position does |
| `Models.AddKeepsDistinct` | app/models/opentext.py:96-100 | adding keeps the child list duplicate-free and leaves the id present; an existing id changes nothing; a new one grows the list by one |
| `Models.RemoveTakesOneCopy` | app/models/opentext.py:102-106 | removing a present id takes out exactly one copy (multiset); removing an absent id changes nothing |
| `Models.RemoveFromDistinct` | app/models/opentext.py:102-106 | on a duplicate-free list, removal leaves the id absent and the list duplicate-free |
| `Models.AddThenRemove` | app/models/opentext.py:96-106 | adding a fresh id and then removing it restores the original list |
| `Models.OpenTextAccount.AddChildAccount` | app/models/opentext.py:96-100 | the children become `WithChild(old, id)`; `last_updated` becomes now only when the id was absent; nothing else changes |
| `Models.OpenTextAccount.RemoveChildAccount` | app/models/opentext.py:102-106 | the children become `WithoutChild(old, id)`, found by a scan for the first occurrence; `last_updated` becomes now only when the id was present |
| `Models.FaxUsageRecord.TotalPages` | app/models/opentext.py:160-162 | the total less the pages received is the pages sent |
| `Models.FaxUsage.CalculateTotalPages` | app/models/opentext.py:160-162 | the object's total equals its record's total |
| `Models.FaxUsage.UpdateCost` | app/models/opentext.py:164-167 | total cost := (sent + received) * cost per page; nothing else changes |
| `Models.FailedNotesShape` | app/models/opentext.py:230-233 | the old notes stay as a prefix; a newline follows them exactly when they were non-empty; `Failed: ` + reason closes the notes |
| `Models.TwoFailures` | app/models/opentext.py:233 | two failures leave two `Failed:` lines, oldest first |
| `Models.NumberPorting.CompletePort` | app/models/opentext.py:225-228 | status := COMPLETED and completion date := now; nothing else changes |
| `Models.NumberPorting.FailPort` | app/models/opentext.py:230-233 | status := FAILED and notes := `FailedNotes(old notes, reason)`; nothing else changes |
| `Models.RateOf` | app/models/opentext.py:287-291 | 0 for a zero quantity, else rate * quantity = cost |
| `Models.UsageData.CalculateRate` | app/models/opentext.py:287-291 | 0 for a zero quantity, else rate * quantity = cost |
| `Models.UsageAggregation.CalculateAverageRate` | app/models/opentext.py:345-349 | 0 for a zero total quantity, else rate * total quantity = total cost |
| `Service.FieldOf` | app/services/opentext_service.py:262 | `dict.get` finds a value iff some binding has the key; the value found is that of the key's last binding, as the decoded dict keeps it |
| `Service.KeysOf` | app/services/opentext_service.py:262 | the keys of an object, each once: exactly those bound in it |
| `Service.Iterated` | app/services/opentext_service.py:262 | `for x in v`: a list yields its items, a string its characters, an object its keys; null, booleans and numbers raise |
| `Service.EmptyIterablesYieldNothing` | app/services/opentext_service.py:262 | a string, list or object yields no items exactly when it is falsy |
| `Service.ItemsOf` | app/services/opentext_service.py:262 | a missing field gives the empty list; a present field yields what iterating it yields, which raises for null, booleans and numbers; a body that is not an object raises |
| `Service.ResultOf` | app/services/opentext_service.py:165-184 | success iff a reply came with status < 400, returning its body; a status >= 400 is an API error carrying that status |
| `Service.Response` | app/services/opentext_service.py:144-177 | a keyed GET with a live truthy cached value returns it; anything else returns the upstream result |
| `Service.FalsyCachedValueIsRefetched` | app/services/opentext_service.py:146 | a live but falsy cached value is no hit; the request goes upstream |
| `Service.OnlySuccessfulGetsAreStored` | app/services/opentext_service.py:167-177 | non-GET requests leave the cache alone; a failed request stores nothing |
| `Service.MissThenHit` | app/services/opentext_service.py:144-177 | after a successful truthy GET, every repeat before the TTL runs out is a cache hit returning that body |
| `Service.KeyNamespaces` | app/services/opentext_service.py:198 | the getters' keys are injective in the id, and keys of different getters never collide |
| `Service.InvalidationForcesRefetch` | app/services/opentext_service.py:281-295 | after an update's invalidation the matching getter misses and asks upstream; other keys read as before |
| `Service.Decoded` | app/services/opentext_service.py:200-210 | an API error gives None; a decodable body gives the record; a body `from_dict` rejects raises |
| `Service.DecodeAll` | app/services/opentext_service.py:495-499 | succeeds iff every item decodes; the result then holds each item's record, in order |
| `Service.ListOf` | app/services/opentext_service.py:253-268 | an API error gives the empty list; otherwise the field's items are decoded, or an exception escapes |
| `Service.ChunksFlatten` | app/services/opentext_service.py:225-226 | the consecutive chunks put back together are the input |
| `Service.ChunkSizes` | app/services/opentext_service.py:225-226 | every chunk has 1 to batch_size items, and every chunk but the last has exactly batch_size |
| `Service.Collect` | app/services/opentext_service.py:232-237 | a batch never returns more records than it had items |
| `Service.CollectSiblingsIndependent` | app/services/opentext_service.py:229-237 | an item's record sits between its siblings' records; if that item fails, only its record goes and the siblings stay as they were |
| `Service.CollectMembers` | app/services/opentext_service.py:233-235 | a record is in the result iff some item produced it |
| `Service.CollectAllFound` | app/services/opentext_service.py:233-235 | when no item fails, the result has each item's record at that item's position |
| `Service.TracedDispatches` | app/services/opentext_service.py:228-237 | over a traced run of calls the log of dispatched requests grows by exactly the requests of the calls that missed the cache, in order, so at most one per item; a call that hits takes no token and no time |
| `Service.OfAccount` | app/services/opentext_service.py:538 | the records of an account are exactly the collected records with that account id |
| `Service.Breakdown` | app/services/opentext_service.py:536-543 | the keys are exactly the requested account ids; each entry holds the sum of quantities, the sum of costs and the number of that account's records |
| `Service.Aggregate` | app/services/opentext_service.py:531-553 | keeps the ids, the type and the period; the totals are the sums of quantity and cost over all collected records; the breakdown is `Breakdown` of those records |
| `Service.BreakdownAddsUp` | app/services/opentext_service.py:531-543 | for distinct ids whose accounts own every record, the aggregate's entries add up to its totals: quantities to the total quantity, costs to the total cost, counts to the number of records |
| `Service.UnrequestedRecordsOnlyInTotals` | app/services/opentext_service.py:532-543 | a record of an account not asked for is in no breakdown entry |
| `Service.UniformPriceAverageRate` | app/services/opentext_service.py:531-553 | when every record costs one price per unit, the aggregate's average rate is that price, or 0 when the total quantity is 0 |
| `Service.OpenTextService.constructor` | app/services/opentext_service.py:47-84 | uses the given limiter and cache, or else a 10/s limiter and a cache swept every 300s; keeps the given batch size, transport and record decoders |
| `Service.OpenTextService.MakeRequest` | app/services/opentext_service.py:114-184 | returns `Response`; a hit changes nothing; a miss takes exactly one token (waiting as `Acquired` says), dispatches once, and updates the cache as `CacheAfterMiss` says |
| `Service.OpenTextService.GetAccount` | app/services/opentext_service.py:188-210 | a request under `account:{id}` with TTL 600, then its decoded body |
| `Service.OpenTextService.GetFaxUsage` | app/services/opentext_service.py:299-335 | a request under the fax-usage key with TTL 900, then its decoded body |
| `Service.OpenTextService.GetPortingStatus` | app/services/opentext_service.py:378-400 | a request under `porting:{phone}` with TTL 300, then its decoded body |
| `Service.OpenTextService.DecodeItems` | app/services/opentext_service.py:495-499 | the decoding loop computes `DecodeAll` |
| `Service.OpenTextService.GetChildAccounts` | app/services/opentext_service.py:241-268 | a request under `child_accounts:{id}` with TTL 300, then its `accounts` decoded as a list |
| `Service.OpenTextService.GetUsageData` | app/services/opentext_service.py:459-502 | a request under the usage key with TTL 600, then its `usage` decoded as a list |
| `Service.OpenTextService.FetchAccountChunk` | app/services/opentext_service.py:228-237 | one getter call per item of the chunk, in order, each exactly once and each starting from the state the call before it left (`InOrder`); the trace starts at the old state and ends at the new one; keeps the found records |
| `Service.OpenTextService.FetchFaxUsageChunk` | app/services/opentext_service.py:360-372 | one getter call per item of the chunk, in order, each exactly once and each starting from the state the call before it left (`InOrder`); the trace starts at the old state and ends at the new one; keeps the found records |
| `Service.OpenTextService.FetchPortingChunk` | app/services/opentext_service.py:444-453 | one getter call per item of the chunk, in order, each exactly once and each starting from the state the call before it left (`InOrder`); the trace starts at the old state and ends at the new one; keeps the found records |
| `Service.OpenTextService.GetAccountsBatch` | app/services/opentext_service.py:212-239 | the chunks formed are `Chunks(input, batch_size)`; each id gets exactly one getter call, in input order, chained through the cache, bucket, dispatch log and clock from the old state to the new one; the result is `Collect` of the outcomes |
| `Service.OpenTextService.SyncFaxUsage` | app/services/opentext_service.py:337-374 | the chunks formed are `Chunks(input, batch_size)`; each id gets exactly one getter call, in input order, chained through the cache, bucket, dispatch log and clock from the old state to the new one; the result is `Collect` of the outcomes |
| `Service.OpenTextService.BatchPortingStatus` | app/services/opentext_service.py:428-455 | the chunks formed are `Chunks(input, batch_size)`; each number gets exactly one getter call, in input order, chained through the cache, bucket, dispatch log and clock from the old state to the new one; the result is `Collect` of the outcomes |
| `Service.OpenTextService.UpdateAccount` | app/services/opentext_service.py:270-295 | stamps the account; takes one token and PUTs; returns success; deletes `account:{id}` only on success |
| `Service.OpenTextService.UpdatePortingStatus` | app/services/opentext_service.py:402-426 | takes one token and PUTs; returns success; deletes `porting:{phone}` only on success |
| `Service.OpenTextService.AggregateUsage` | app/services/opentext_service.py:504-553 | one usage call per account, in order, chained from the old state to the new one; an escaping exception aborts after the failing call; otherwise returns `Aggregate` of the concatenated lists, whose totals and entries are the sums over them |

## Left out

- Concurrency is not modelled: the `asyncio.Lock`s, the `Semaphore` cap on in-flight requests and `asyncio.gather`. Every operation is a sequential method call. Within a chunk the model runs the getters one after another in input order.
- The cache's background `_cleanup_loop` task, its start in `__init__` and its cancellation in `shutdown` are not modelled. The sweep is `CleanupExpired`, called explicitly.
- `get_stats`' JSON-based memory estimate is left out, because it depends on `json.dumps` of arbitrary values.
- Regular expressions are modelled as a subset: literal characters, `.` and `*`, matched as `re.match` does (anchored at the start only). Any other regex metacharacter is reported as an unsupported-pattern error, which like `re.error` happens before any change.
- RateLimiting.RateLimiter.Acquire: requires `n <= max_tokens` or `n <= tokens`, because when both fail the source loops forever (`OversizedAcquireNeverSatisfied`); an over-full bucket already holding n is served at once (`OverfullBucketServesAtOnce`). It also requires a clock that never runs backwards.
- Service.OpenTextService.constructor: requires a limiter with capacity >= 1, because with capacity 0 every request waits forever. It requires `batch_size > 0`, the settings' own check.
- RateLimiting.AdaptiveRateLimiter.constructor: requires a positive initial rate and `min < max`, which the settings check, and also `0 < min`, which they do not. With `min <= 0` the clamp can bring the rate to 0, and the source then divides by zero in `acquire` and `get_wait_time`.
- RateLimiting.RateLimiter.constructor: requires a burst capacity that is not negative. The settings parse `RATE_LIMIT_BURST_CAPACITY` without a check and `main.py` passes it on. A negative burst gives a negative capacity, so `try_acquire` always fails and `acquire` never returns; the model does not cover that configuration.
- RateLimiting.Initial: requires a burst capacity that is not negative, for the reason given for the constructor.
- RateLimiting.RateLimiter.GetStats: the source's `get_stats` raises `ZeroDivisionError` when the capacity is 0 (a rate below 1 with no burst). The model returns the statistics with no utilisation (`Utilization` is None) instead of raising.
- Cache.CacheManager.GetKeys: returns each key once but in an unspecified order; the source returns them in the dict's insertion order.
- Timestamps (`datetime.now()`, `time.time()`) are clock readings passed in. ISO-8601 formatting and parsing, `to_dict`/`from_dict` field handling, and dates as `datetime` objects are not modelled. Period bounds are their ISO text.
- The HTTP transport is not modelled: aiohttp sessions, URLs, headers and `response.json()`. Upstream is an abstract function from a request to a reply or a client failure. `health_check`, `get_rate_limit_status` and `clear_cache` (a one-line delegation to `Clear`) are not modelled.
- Floating point is not modelled: rates, costs, quantities and averages are exact reals, without IEEE rounding.
- Logging is not modelled.
- Models.FaxUsageRecord.TotalPages: the source's whole promise is the sum itself, so this contract can only restate it.
- Models.FaxUsage.CalculateTotalPages: the source's whole promise is the sum itself, so this contract can only restate it.
