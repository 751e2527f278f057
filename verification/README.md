# rumis/storage cache-aside core, modelled in Dafny

rumis/storage is a read-through caching library written in Go. Application code asks it for a
record. It answers from Redis when it can. On a miss it falls back to a system-of-record
store (MySQL through the `seal` query builder) and writes the answer back into Redis.

The fallback is guarded by an advisory lock kept in Redis. The lock stops a crowd of callers
that all missed the same key from reaching the store at once. A caller that finds the lock
held re-reads the cache a few times, sleeping between reads, before it reads the store itself.
An empty store answer is cached too, with the lock's short expiry (negative caching).

The project models the following parts of the library:

- **Redis building blocks** (`scache/`):
  - the option record and its handlers;
  - the key-value writer, string reader, object reader and deleter;
  - the list writer and the two list readers;
  - the Redis-backed lock adapters.
- **Lock configuration** (`locker/locker.go`).
- **Handler pipeline** (`storage.go`): `Do`.
- **Single-key orchestrator** (`onecacherepo.go`), in two versions:
  - the library's own;
  - the tutorial versions (`tutorial/generic.go`, and `tutorial/person.go` written out for one record type).
- **Multi-key orchestrator** (`multicacherepo.go`).
- **Chainable processor tiers** (`processor/cache.go`, `processor/repo.go`).
- **Grouped store handler** (`srepo/srepogroupitem.go`).

## How the Go program is represented

- **`interface{}` values.** A value passed through `interface{}` is a `Meta.Value`. The
  capability interfaces `Key`, `Zero` and `ForEach` (meta/inte.go) become predicates on it.
  A pointer the callee fills is a `Meta.Cell`, a class with one mutable field.
- **Redis.** Redis is the class `Redis.Client`. It has a key-value map (value and TTL), a map
  of lists, and a fixed set of `broken` keys on which every command fails. That set stands
  for transport and server errors.
- **Clock.** TTLs are stored as data. No clock runs.
- **Sleeping between retries.** `time.Sleep` becomes `Client.Interleave`. While a caller
  sleeps, the entries other callers write land in the store. The lemmas therefore cover both
  outcomes: a retry that hits and a retry that misses.
- **Collaborators.** JSON and `fmt.Sprint` form `Meta.Codec`, a record of functions passed
  in. The store readers, key functions and next tiers are function-typed parameters too.
  `unmarshal` receives the destination, as `json.Unmarshal` does, so the same text may decode
  differently into different types. The lemmas that need JSON to round-trip assume it for the
  one value they write, through the predicate `Codec.RoundTripsAt(v)`: decoding `v`'s text into
  any destination of `v`'s type gives back `v`.
- **Logging callbacks.** A logger is `Meta.ExecLog`, a class that records every call made to it.
- **Read-through algorithms.** Each one is a pure specification function. It returns the
  error, the final content of `out`, the final store and the ordered trace of collaborator
  calls (`Meta.Step`). An imperative method with the retry loop is proved equal to that
  function. The properties are then proved about the function.
- **Objects with methods.** The processor tiers hold their collaborators in fields, so they
  are classes. Their `Read` and `Write` are methods.

Where the code does something its names or comments do not suggest, the model follows the code:

- **Lock acquisition.** No orchestrator sets the lock only if it is absent. Each one reads the
  lock entry once. If it is non-empty, the orchestrator re-reads the cache up to RetryTimes
  times, without reading the lock again. Then it writes the lock unconditionally. The
  processor tier uses the `Adder` of `locker.DefaultLocker()`, which never acquires, so a
  miss that reaches a next tier always makes all three re-reads.
- **Retry span.** locker/locker.go:14 comments the default span as 70 ms, but line 15 sets
  70 µs. The model uses 70 µs.
- **Multi-key cache hit.** The multi-key reader does not return on a bulk cache hit. It goes
  on to the lock and the store (`MultiCacheRepo.HitStillReadsStore`).
- **Multi-key write-back.** The write-back of the multi-key reader is refused, because it
  carries no prefix (`MultiCacheRepo.WriteBackNeverStores`).
- **Repo tier without a next tier.** The cache tier returns nil when it has no next tier
  (processor/cache.go:46-48). The repo tier instead reaches a nil next tier whenever the row
  it read is not Zero (see Findings).

## Model

| member | source | states |
|---|---|---|
| Storage.Do | storage.go:37-53 | the loop returns exactly what the chain specification gives: (nil, nil) with no handlers, nil and the error of the first handler that errs, the output of the first handler that breaks, else the last output |
| Storage.ChainShape | storage.go:42-52 | the handlers called form a prefix of the list; each receives the previous output; every handler before the last called one continued; the last decides the result |
| Storage.DoNoHandlers | storage.go:39-41 | with no handlers the result is (nil, nil) and nothing is called |
| Storage.LaterHandlersIrrelevant | storage.go:45-50 | once a handler errs or breaks, appending more handlers does not change the result |
| Locker.DefaultLocker | locker/locker.go:36-44 | the default Adder never acquires, the default Deleter always succeeds, expiry 200 ms, 3 retries, 70 µs between them |
| Locker.NewLocker | locker/locker.go:47-53 | the option loop yields the default record with the options applied left to right |
| Locker.NewLockerNoOptions | locker/locker.go:47-53 | with no options the record is exactly the default one |
| Locker.ApplyChangesOneField | locker/locker.go:56-88 | each With* option assigns its own field only, is idempotent, and sets the same value whatever the record it is applied to |
| Locker.OthersKeepField | locker/locker.go:49-51 | options aimed at other fields leave a field as it was |
| Locker.ConfiguredAppend | locker/locker.go:49-51 | applying a + b is applying a, then b |
| Locker.LaterOptionWins | locker/locker.go:49-51 | the last option for a field decides that field |
| Scache.SentinelsDistinct | scache/scache.go:111-115 | the five sentinel errors are pairwise distinct |
| Scache.DefaultRedisOptions | scache/scache.go:78-80 | the default options have no key function, no prefix, no client and no logger |
| Scache.ApplyChangesOneField | scache/scache.go:83-108 | each With* handler assigns its own field, to the given value, and no other |
| Scache.Configure | scache/rediskeyvalue.go:16-20 | the option loop yields the defaults with the handlers applied left to right |
| Scache.PrefixSurvives | scache/rediskeyvalue.go:18-20 | a prefix set by WithPrefix survives any later handlers that are not WithPrefix |
| Scache.ExecLogError | scache/scache.go:59-64 | returns its error unchanged, and logs it once when a logger is set |
| Meta.Codec.DecodeInto | pkg/ujson/ujson.go:11-13 | a successful decode yields a value of the target's type, the one the JSON text denotes; a decode error is passed on |
| Meta.ExecLog.Log | meta/log.go:17 | a call is appended to the logger's record, with its arguments and error |
| Redis.Client.Get | scache/rediskeyvalue.go:104-107 | GET returns the stored value, redis.Nil for an absent key, and a backend error for a broken key |
| Redis.Client.Set | scache/rediskeyvalue.go:30-33 | SET stores value and TTL under the key, or fails on a broken key and changes nothing; lists are untouched |
| Redis.Client.Del | scache/rediskeyvalue.go:210-213 | DEL removes all the keys at once; it removes none when one of them is broken, and no keys at all is an arity error |
| Redis.Client.RPush | scache/redislist.go:27-28 | RPUSH appends the values at the tail of the list; a broken key fails, and no values is an arity error |
| Redis.Client.LPop | scache/redislist.go:132-133 | LPOP removes and returns the head, or gives redis.Nil for an empty list |
| Redis.Client.Interleave | onecacherepo.go:88 | during a sleep, other callers' writes land in the store and nothing else changes |
| RedisKeyValue.Write | scache/rediskeyvalue.go:21-84 | the writer's new store and error are those of its specification, branch by branch for Pair, []Pair, ForEach and other values; lists are untouched |
| RedisKeyValue.WriteValue | scache/rediskeyvalue.go:66-81 | a value written through KeyFn: the key error, the JSON error, or SET of its JSON under the generated key |
| RedisKeyValue.WriteRejects | scache/rediskeyvalue.go:22-29 | a missing client, a Pair or []Pair without a prefix, and a collection or other value without KeyFn are refused before any command |
| RedisKeyValue.WritePairStores | scache/rediskeyvalue.go:26-33 | a Pair is stored under Prefix+Key with the expiration, and nothing else changes |
| RedisKeyValue.WriteValueUnprefixed | scache/rediskeyvalue.go:66-81 | a value written through KeyFn is stored as its JSON under the generated key, without the prefix |
| RedisKeyValue.SetPairsAppend | scache/rediskeyvalue.go:38-43 | []Pair is written in order and stops at the first failure; earlier pairs stay written |
| RedisKeyValue.SetPairsAllStored | scache/rediskeyvalue.go:38-43 | when no key fails, the error is nil, each key of the batch holds the value and expiration of the last pair with that key, every other key keeps its entry, and no key outside the store and the batch appears |
| RedisKeyValue.StringRead | scache/rediskeyvalue.go:95-129 | the string reader's answer is its specification's: GET Prefix+key for a string, one value per key for []string, a key-format error otherwise |
| RedisKeyValue.GetStringsShape | scache/rediskeyvalue.go:113-125 | the []string read fails exactly when one key cannot be read; on success it keeps length and order and gives "" for absent keys |
| RedisKeyValue.StringReadKeyFormat | scache/rediskeyvalue.go:126-127 | any parameter other than a string or []string gives ErrKeyFormat |
| RedisKeyValue.ObjectRead | scache/rediskeyvalue.go:140-190 | the object reader's error and the new content of `data` are its specification's; `data` changes only on success |
| RedisKeyValue.GetItemsAllPresent | scache/rediskeyvalue.go:149-166 | the collection read succeeds iff every item's key can be generated, read and is present; the values joined are the stored ones, in traversal order |
| RedisKeyValue.ObjectReadMissingKey | scache/rediskeyvalue.go:155-158 | a collection with one absent key fails as a whole |
| RedisKeyValue.DeleteStrings | scache/rediskeyvalue.go:214-224 | the []string deleter rewrites the caller's slice to the prefixed keys and then deletes them; the store follows the deleter's specification |
| RedisKeyValue.Delete | scache/rediskeyvalue.go:201-259 | the deleter's new store and error are its specification's for string, []string, ForEach and other values |
| RedisKeyValue.DeleteStringsExact | scache/rediskeyvalue.go:214-224 | deleting a []string removes exactly Prefix + each element; every other key keeps its entry |
| RedisList.PushLogged | scache/redislist.go:49-56 | one RPUSH, logged once with its command and error |
| RedisList.ListWrite | scache/redislist.go:20-115 | with a client, the list writer's lists, error and log are its specification's for every parameter shape, and the key-value map is untouched; with a nil client it returns ErrClientNil and logs nothing |
| RedisList.PushPairsLogged | scache/redislist.go:57-68 | []Pair pushes one pair at a time, logging each push, stopping at the first error |
| RedisList.PushItemsLogged | scache/redislist.go:69-92 | a ForEach collection pushes the JSON of each item to its KeyFn list, logging each push, stopping at the first error |
| RedisList.PushValueLogged | scache/redislist.go:93-112 | another value pushes its JSON to the list KeyFn names, logged once |
| RedisList.ListWriteRejects | scache/redislist.go:22-96 | without a client nothing is pushed or logged; without KeyFn, every value that is not a string, []string, Pair or []Pair (a ForEach collection or any value reaching the default branch) is refused before any push |
| RedisList.ListWriteTail | scache/redislist.go:26-56 | a string or []string goes to the tail of list Prefix in one logged push; a Pair goes to list Prefix+Key |
| RedisList.PushPairsAppend | scache/redislist.go:58-68 | pushing ps + [q] is pushing ps, then q only if that succeeded; the log grows by the commands issued |
| RedisList.PushPairsLogsEachCommand | scache/redislist.go:58-68 | every push is logged once, the error returned is that of the last push logged, and a full success logs one entry per pair, in order |
| RedisList.ListStringRead | scache/redislist.go:126-145 | LPOP Prefix, logged once, with the key-value map untouched; a missing list reads as ("", nil); a nil client is ErrClientNil with nothing logged |
| RedisList.ListObjectRead | scache/redislist.go:149-165 | the one LPOP is logged and the key-value map is untouched; the pop's error is passed on; an empty element leaves `data` alone; otherwise the element is decoded into `data` |
| RedisList.PushAppendsToTail | scache/redislist.go:27 | a push appends to the tail of its own list and leaves every other list alone |
| RedisList.PopTakesHead | scache/redislist.go:132-144 | a pop returns the head and leaves the rest; an empty list gives "" and stays empty |
| RedisList.FifoOrder | scache/redislist.go:26-47 | "t1" then ["t2", "t3"] pushed come back as t1, t2, t3 by successive pops, and a fourth pop finds the list empty |
| RedisLocker.DefaultRedisLocker | scache/redislocker.go:15-20 | the lock's entries live under "tal_jiaoyan_storage_locker_" on the given client, with the default expiry and retry policy |
| RedisLocker.LockValue | scache/redislocker.go:32-42 | a read error is passed on; a string is the lock value; any other value is "locker value type error" |
| RedisLocker.RedisLockerReader | scache/redislocker.go:31-43 | the lock read is the prefixed string read of the key, converted by LockValue |
| RedisLocker.RedisLockerWriter | scache/redislocker.go:23-28 | the lock write sets Pair{key, key} with the lock's expiry |
| RedisLocker.LockReadIsGet | scache/redislocker.go:31-43 | the lock read is GET prefix+key |
| RedisLocker.LockWriteStoresKey | scache/redislocker.go:23-28 | a lock write stores `key` under prefix+key with the expiry, and nothing else changes |
| RedisLocker.LockWriteThenRead | scache/redislocker.go:23-43 | after a successful lock write, the lock read of the same key answers the key |
| RedisLocker.DefaultLockEntry | scache/redislocker.go:15-20 | the default lock writes "tal_jiaoyan_storage_locker_"+key ↦ key for 200 ms |
| OneCacheRepo.CacheReader | onecacherepo.go:18-35 | the cache read of Sprint(params) under the prefix: the reader's error, else the decoded value in `out` |
| OneCacheRepo.CacheReadHit | onecacherepo.go:20-34 | an absent key is redis.Nil; a present one decodes its stored text into `out`'s type |
| OneCacheRepo.NewOneCacheRepoReader | onecacherepo.go:61-65 | the reader's cache uses the prefix and no key function; the lock is the default Redis lock on the same client |
| OneCacheRepo.RetryReads | onecacherepo.go:87-94 | the retry loop makes the re-reads of the retry specification and stops at the first hit; the lists are untouched |
| OneCacheRepo.Read | onecacherepo.go:66-127 | one call's error, `out`, store and trace are those of the read-through specification; the lists are untouched |
| OneCacheRepo.NoZeroFailsFirst | onecacherepo.go:67-70 | an `out` without Zero fails before any cache, lock or store access |
| OneCacheRepo.HitReturns | onecacherepo.go:72-76 | a cache hit returns nil with the decoded value, with no lock or store activity |
| OneCacheRepo.MissTrace | onecacherepo.go:78-124 | after a first miss the trace is cache read, lock read, the retries, then (unless a retry hit) lock write, store read and, when the value encodes, the write-back with the Zero-aware expiry and the lock delete |
| OneCacheRepo.ReadsBounded | onecacherepo.go:85-95 | the cache is read at most 1 + RetryTimes times, and once when the lock is not held |
| OneCacheRepo.ReachedRepo | onecacherepo.go:72-102 | the store is read only after a first miss on an `out` with Zero, and when no retry hit |
| OneCacheRepo.RepoErrorReturned | onecacherepo.go:102-106 | a store error is returned unchanged after the lock write; nothing is cached and the lock is not deleted |
| OneCacheRepo.WriteBack | onecacherepo.go:107-124 | a store value is returned and cached as JSON under prefix+Sprint(params), with the lock's expiry when Zero and the caller's otherwise; the lock is deleted last |
| OneCacheRepo.LockKeys | onecacherepo.go:84-124 | lock read, write and delete all use Sprint(params) |
| OneCacheRepo.LockWrittenBeforeRepo | onecacherepo.go:84-102 | when the lock is not held, the lock write and the store read come straight after the lock read |
| MultiCacheRepo.NewMultiCacheRepoReader1 | multicacherepo.go:49-53 | cache reader and writer use the key function and no prefix; the lock is the default Redis lock |
| MultiCacheRepo.CachedKeysExact | multicacherepo.go:73-87 | every recorded key belongs to a non-Zero element with Key; when all elements have Zero and Key, every non-Zero element's key is recorded |
| MultiCacheRepo.MissingExact | multicacherepo.go:88-96 | the uncached parameters are those whose Sprint is not a cached key, in their original order |
| MultiCacheRepo.CachedKeysOf | multicacherepo.go:72-87 | the ForEach over `out` records the keys CachedKeys describes |
| MultiCacheRepo.MissingParams | multicacherepo.go:88-96 | the ForEach over `params` collects the parameters Missing describes |
| MultiCacheRepo.RetryReads | multicacherepo.go:101-108 | the retry loop makes the bulk re-reads of the retry specification; the lists are untouched |
| MultiCacheRepo.MultiRead | multicacherepo.go:54-141 | one call's error, `out`, store and trace are those of the multi-key specification, and `missing` is the uncached parameters; the lists are untouched |
| MultiCacheRepo.ForEachRequired | multicacherepo.go:55-62 | an `out` or `params` that is not a ForEach collection fails before any I/O |
| MultiCacheRepo.StorePhaseShape | multicacherepo.go:116-140 | after the lock write: the store error or the encoder error is returned; success ends with the write-back at the caller's expiry and the lock delete |
| MultiCacheRepo.CacheErrorNeverReturned | multicacherepo.go:64-68 | the bulk cache read's error is never returned; only the store's or the encoder's can be |
| MultiCacheRepo.MissTrace | multicacherepo.go:63-140 | past the ForEach checks the trace is bulk read, lock read, the retries, then (unless a retry hit) lock write, store read and, when the value encodes, the write-back and the lock delete |
| MultiCacheRepo.ReadsBounded | multicacherepo.go:64-108 | the cache is read at most 1 + RetryTimes times |
| MultiCacheRepo.LockKeys | multicacherepo.go:98-138 | the batch lock is keyed by Sprint(params) for read, write and delete |
| MultiCacheRepo.WriteBackNeverStores | multicacherepo.go:126-138 | with no prefix, a store value is returned but the write-back is refused and the error dropped; the store is as the lock write left it |
| MultiCacheRepo.HitStillReadsStore | multicacherepo.go:63-102 | a successful bulk read does not end the call: with the lock free, the store is read anyway |
| ReadThrough.RetryShape | onecacherepo.go:87-94 | the re-reads are at most RetryTimes, each after a sleep; the first hit stops them and is returned; all are made when none hits |
| ReadThrough.RetryKeepsEntries | onecacherepo.go:87-94 | sleeping and re-reading lose no entry of the store |
| Generic.ApplyClause | tutorial/generic.go:61-69 | the Eq clause handler adds `key = val` to a select query and leaves any other query alone |
| Generic.BuildQueryClauses | tutorial/generic.go:61-69 | the query built from the handlers is a select with exactly one equality per handler, in order |
| Generic.NewGenericReader | tutorial/generic.go:77-81 | the generic reader is the single-key reader with its own Zero message and the handlers fixed at construction |
| Generic.GenericRead | tutorial/generic.go:82-143 | one call's outcome is the single-key specification's, with the handlers' where-clauses; the lists are untouched |
| Generic.ParamsOnlyNameTheEntry | tutorial/generic.go:88-140 | `params` matters only through fmt.Sprint(params) |
| Generic.GenericNoZero | tutorial/generic.go:83-86 | an `out` without Zero fails with "out must implements Zero" before any I/O |
| Generic.GenericZeroTtl | tutorial/generic.go:118-140 | an empty store result is cached with the lock's expiry, any other with the caller's |
| PersonFlow.Zero | tutorial/person.go:25-27 | a person is Zero exactly when its id is 0 |
| PersonFlow.FormatNat | tutorial/person.go:38 | the decimal text of a natural is non-empty and all digits |
| PersonFlow.DigitsRoundTrip | tutorial/person.go:41 | the digits of n read back as n |
| PersonFlow.FormatThenParse | tutorial/person.go:41 | ParseInt(FormatInt(n)) = n, also with the parse error dropped |
| PersonFlow.PersonKey | tutorial/person.go:33-39 | a person's key is "tal_test_person_" + its id; any other value is "not person" |
| PersonFlow.PersonCacheReader | tutorial/person.go:40-53 | the reader returns the person read for the parsed id, with its error; redis.Nil is success with the empty person |
| PersonFlow.PersonCacheWriter | tutorial/person.go:55-67 | the writer stores the person's JSON under its key with the given expiry |
| PersonFlow.MissingIsEmptyPerson | tutorial/person.go:41-48 | an absent entry reads as success with the person holding only the id |
| PersonFlow.PersonWriteStores | tutorial/person.go:55-67 | the JSON of the person is stored under "tal_test_person_"+id, and nothing else changes |
| PersonFlow.PersonWriteThenRead | tutorial/person.go:32-67 | when JSON round-trips the written person, a person written reads back unchanged by its id |
| PersonFlow.RoundTripHypothesisSatisfiable | pkg/ujson/ujson.go:6-13 | for every person some codec round-trips it while an empty []string and an empty []Pair both encode to "[]", so the hypothesis above is consistent with encoding/json |
| PersonFlow.RetryReads | tutorial/person.go:102-108 | the retry loop re-reads the person until one with a name is read; the lists are untouched |
| PersonFlow.NormalFlow | tutorial/person.go:86-138 | one call's result, store and trace are those of the flow specification; the lists are untouched |
| PersonFlow.NonIntParamsBreak | tutorial/person.go:88-91 | non-int parameters break with "params error" before any I/O |
| PersonFlow.StorePhaseShape | tutorial/person.go:117-137 | after the store read: a store error breaks; otherwise the store's person is cached for 10 s (2 s if nameless) and the flow continues |
| PersonFlow.MissPhaseBreak | tutorial/person.go:97-108 | after a first miss, a Break without error comes only from a retry that read a person with a name, and the store is not read |
| PersonFlow.RetryHitNamed | tutorial/person.go:102-108 | a retry hit breaks without error, carrying a person whose name is not empty |
| PersonFlow.RetryHitSkipsStore | tutorial/person.go:102-108 | after a retry hit the store is never read |
| PersonFlow.MissPhaseShape | tutorial/person.go:97-120 | after a first miss, the store is read only when no retry hit, right after the lock read, the retries and the lock write |
| PersonFlow.BreakOnlyOnNamedHit | tutorial/person.go:93-107 | a Break without error always carries a person with a non-empty name, and the store was not read |
| PersonFlow.StoreReached | tutorial/person.go:93-120 | the store is read only for int parameters and only after a first miss and retries that found no named person; the flow is then the store phase after lock read, retries, lock write and store read |
| PersonFlow.StorePhaseCaches | tutorial/person.go:117-137 | a successful store read continues with the person passed in, caches the store's person under its own key for 10 s (2 s if nameless), and deletes the lock last |
| PersonFlow.RepoErrorBreaks | tutorial/person.go:118-121 | a store error breaks the pipeline with that error; the store read is the last step |
| PersonFlow.StoreReadContinues | tutorial/person.go:118-137 | after a store read the flow continues with the person of the first cache read, caches the store's person, and deletes the lock last |
| ProcessorCache.RedisReadProcessor.constructor | processor/cache.go:91-97 | the tier holds the default locker, its reader, writer and next tier |
| ProcessorCache.RedisReadProcessor.Read | processor/cache.go:24-83 | one call's error, `out`, store and trace are those of the tier's specification; when the next tier fails, `out` is what that tier left in it; the lists are untouched |
| ProcessorCache.RedisReadProcessor.Write | processor/cache.go:86-88 | Write is the writer's store update and error; the lists are untouched |
| ProcessorCache.EarlyReturns | processor/cache.go:25-34 | no Zero fails before any read; a cache hit returns nil with no lock or next-tier activity |
| ProcessorCache.MissWithoutKeyOrNext | processor/cache.go:41-48 | on a miss, an `in` without Key is EI_KeyNotImplement; with no next tier the miss returns nil and changes nothing |
| ProcessorCache.NextPhaseShape | processor/cache.go:64-82 | a next-tier error is returned, with `out` as that tier left it and nothing written; a value is written back (lock expiry when Zero) and the lock released last |
| ProcessorCache.ReachedNext | processor/cache.go:50-64 | the next tier is reached only after a miss, with Key and a next tier, and after the lock attempt and retries that did not hit |
| ProcessorCache.ReleaseAfterNext | processor/cache.go:64-80 | after a successful next read `out` is its value and the write-back and the lock release are the last steps; a failed one ends at the next read with its error and its `out` |
| ProcessorCache.RetryBounded | processor/cache.go:51-62 | a caller that did not acquire re-reads at most RetryTimes times and returns the first hit; one that did acquire does not re-read |
| ProcessorCache.DefaultLockerAlwaysRetries | processor/cache.go:51-62 | with the default locker every miss that reaches the lock makes all 3 re-reads unless one hits |
| ProcessorRepo.QueryOf | processor/repo.go:26-34 | `in` yields a where-expression iff it is a Query or a QueryExprHandler |
| ProcessorRepo.RepoOneReadProcessor.constructor | processor/repo.go:56-62 | the tier holds a default locker, its reader, inserter and next tier |
| ProcessorRepo.RepoOneReadProcessor.Read | processor/repo.go:21-47 | one call's error, `out` and whether the next tier was reached are those of the tier's specification as written; when the next tier fails, `out` is what that tier left in it |
| ProcessorRepo.RepoOneReadProcessor.Write | processor/repo.go:50-53 | Write returns the inserter's error only |
| ProcessorRepo.ChecksFirst | processor/repo.go:22-34 | no Zero is EI_ZeroNotImplement, then a non-query `in` is EI_QueryNotImplement, both before any read |
| ProcessorRepo.WithoutNext | processor/repo.go:35-42 | with no next tier: a read error is returned, a Zero row is EI_Zero, and a non-Zero row reaches the nil next tier |
| ProcessorRepo.WithNext | processor/repo.go:35-46 | with a next tier, the reader's error is discarded and the next tier's error and `out` are returned, also when it fails |
| ProcessorRepo.IntendedNeverFaults | processor/repo.go:36-42 | the corrected tier never faults and returns nil with the row when it is not Zero; elsewhere it agrees with the tier as written |
| SrepoGroupItem.DefaultRepoGroupOptions | srepo/srepogroupitem.go:12 | the default options have no handler and no logger |
| SrepoGroupItem.ConfiguredHandler | srepo/srepogroupitem.go:14-16 | the handler used is the last WithHandler's, or the default's |
| SrepoGroupItem.Configure | srepo/srepogroupitem.go:12-16 | the option loop yields the defaults with the handlers applied left to right |
| SrepoGroupItem.WhereOf | srepo/srepogroupitem.go:38-49 | nil params are no clauses, a []ClauseHandler is passed on, anything else is the params type error |
| SrepoGroupItem.GroupRead | srepo/srepogroupitem.go:17-103 | the error and the new `*data` are those of the specification, and the logger is called exactly once, with params and that error |
| SrepoGroupItem.DataUnchangedOnError | srepo/srepogroupitem.go:17-98 | the wrapper's own refusals (data not *int64, params not clauses, unsupported handler) and a failed insert leave `*data` as it was |
| SrepoGroupItem.HandlerKeepsItsData | srepo/srepogroupitem.go:50-91 | updater, reader and group reader get `data` itself: what they leave there stays, whether they fail or not, and their errors pass through |
| SrepoGroupItem.InserterStoresId | srepo/srepogroupitem.go:20-36 | the inserter needs an *int64; on success the new id is stored in it, otherwise its error is returned |
| SrepoGroupItem.ParamsMustBeClauses | srepo/srepogroupitem.go:37-77 | updater and reader refuse params that are neither nil nor clauses; nil means no clauses |
| SrepoGroupItem.UpdaterZeroRows | srepo/srepogroupitem.go:58-63 | an update affecting no rows is ErrUpdateAffectZeroRows |
| SrepoGroupItem.ReadersPassErrors | srepo/srepogroupitem.go:77-91 | reader and group reader return the wrapped handler's error unchanged |
| SrepoGroupItem.UnsupportedHandler | srepo/srepogroupitem.go:92-97 | any other handler, nil included, is "unsupport handler" |

## Left out

- Context values, cancellation and deadlines are not modelled. `fmt.Println` diagnostics are
  not modelled. Wall-clock time is not modelled: the elapsed-time argument of every logger
  call, and TTL expiry while a call runs, are left out.
- Concurrency is represented only through the entries other callers write during a retry
  sleep (`others`). Interleavings at any other point are not modelled.
- JSON encoding and `fmt.Sprint` are parameters. JSON decoding into `out` replaces its content.
  Go's partial fill of a struct from a JSON text with missing fields is not modelled.
- The connection registry of scache/client.go (`DefaultClient` and its siblings) is not part
  of this model. Each function receives its client.
- The SQL builder (the seal clauses and the MySQL readers, inserters and updaters of srepo) is
  a function parameter.
- Names the repository uses but no file of it defines, and what the model takes each to be:
  - `ErrUpdateAffectZeroRows` (srepo/srepogroupitem.go:60-62): a distinct error constant whose
    text is a placeholder;
  - `RepoGroupReader`, `RepoGroupOptionHandler`, `DefaultRepoGroupOptions` and the options
    record (srepo/srepogroupitem.go:10-12): the function type the constructor returns, an
    option that sets the handler or the logger, and options with neither;
  - the option constructors, modelled as `WithHandler` and `WithExecLogger`;
  - `RepoInserter` in the type switch (srepo/srepogroupitem.go:20): srepo defines only
    `RepoInster` (srepo/srepo.go:45), and the model takes the case to be that inserter;
  - `NewRedisKeyValueReader` (scache/redislocker.go:17, processor/cache.go:95): in the lock it
    is taken to be the string reader (`RedisLocker.LockReadSpec`); in the cache tier it is a
    reader parameter.
- The Kafka reader and writer (skafka/) are outside this model.
- `NewDefaultLocker`'s `biz` argument: this revision's `DefaultRedisLocker` takes only a client,
  and the argument is not modelled.
- `locker/locker.go` in this revision of the repository has no `WithLockerReader`/`WithLockerWriter`. The
  Reader/Writer lock that scache/redislocker.go builds is modelled as its own record
  (`RedisLocker.RwLocker`). Its Deleter is taken to be the default no-op.
- The reader and writer of the processor cache tier (`scache.NewRedisKeyValueReader`/`Writer`
  of package storage/v2) are not part of this model. They are functions of the store.
  The store effects of a next tier are not modelled, only its answer: its error together with
  what it left in `out`.
- No `Value` implements both `meta.Key` and `meta.Query`, so a cache tier chained over a repo
  tier (processor/cache.go:90-98 over processor/repo.go) is not instantiated as one chain; each
  tier is modelled over an arbitrary next tier.
- The store readers of the read-through flows leave `out` as it was when they fail; a reader
  that fills part of `out` and then fails is not modelled.
- `Redis.Client` keeps strings and lists in separate maps. One key may then hold a string and a
  list at once, SET does not replace a list, and GET on a list key does not answer WRONGTYPE.
  No flow of this model uses one key for both.
- PersonFlow.NormalFlow: `Int` stands for Go `int` there. An `int64` or other integer-typed id,
  which tutorial/person.go:88-91 rejects with "params error", is not represented, because `Value`
  has one integer constructor for `int`, `int64` and the `*int64` that srepo fills.
- PersonFlow.FormatInt: int64 range and overflow of `strconv.ParseInt` are not modelled; ids are unbounded integers.
- SrepoGroupItem.GroupRead: `data` is modelled as a pointer whose content an `Int` marks as
  `*int64`. A non-pointer `data` is not modelled.
- RedisKeyValue.Write: a ForEach callback error ends the traversal at that item, as the
  collections in this repository implement ForEach. Other ForEach implementations are not modelled.

## Findings

| source | as written | input that shows it | evidently intended | confidence | as-written member | corrected member |
|---|---|---|---|---|---|---|
| processor/repo.go:39-42 | with no next tier, a row that is not Zero falls through to `r.next.Read`, a nil dereference | a tier built with next = nil, `out` implementing Zero, a Query `in`, and a reader that fills a non-Zero row | return nil with the row in `out` (the last tier answers from the store) | not executed | ProcessorRepo.WithoutNext | ProcessorRepo.IntendedNeverFaults |
