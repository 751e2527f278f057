/** multicacherepo.go: the batch read-through NewMultiCacheRepoReader1. `params` and `out` are
    ForEach collections; the bulk cache read goes through the object reader (one key per
    parameter, from the key function); the elements it left in `out` and the parameters
    they do not cover are computed; then the lock is checked and written, the store is read,
    and the whole `out` is written back as one Pair keyed Sprint(params).

    As written, the cache writer is built with a key function and no prefix, so the Pair it
    is given is refused with ErrPrefixNil (and the error is dropped): the write-back never
    reaches the store. A successful bulk read does not return either: every call that is
    not stopped by a retry hit reads the store. */
module MultiCacheRepo {
  import opened Meta
  import opened Redis
  import opened Scache
  import opened RedisKeyValue
  import opened RedisLocker
  import opened ReadThrough

  const ErrOutNotForEach: Error := Failure("param out must implements ForEach interface")
  const ErrParamsNotForEach: Error := Failure("param params must implements ForEach interface")

  /** The collaborators the reader closes over: cache reader and writer share one options
      record (client and key function, no prefix). */
  datatype MultiReader = MultiReader(cache: RedisOptions, lock: RwLocker, codec: Codec, repo: Repo)

  /** Cache and lock use the same store. */
  predicate Wired(r: MultiReader) {
    r.cache.client != null && r.lock.client == r.cache.client
  }

  function NewMultiCacheRepoReader1(keyFn: KeyGen, codec: Codec, repo: Repo, c: Client): (r: MultiReader)
    ensures Wired(r) && r.cache.prefix == "" && r.cache.keyFn == Some(keyFn)
    ensures r.lock == DefaultRedisLocker(c)
  {
    MultiReader(RedisOptions(Some(keyFn), "", c, null), DefaultRedisLocker(c), codec, repo)
  }

  // ---------------------------------------------------------------- cached and missing

  /** The keys the ForEach over `out` records: elements that are Zero are skipped; the
      traversal stops at the first element lacking Zero, or lacking Key while not Zero (the
      callback's error ends ForEach). */
  function CachedKeys(items: seq<Value>): set<string>
    decreases |items|
  {
    if items == [] then {}
    else
      var v := items[0];
      if !ImplementsZero(v) then {}
      else if IsZero(v) then CachedKeys(items[1..])
      else if !ImplementsKey(v) then {}
      else {KeyOf(v)} + CachedKeys(items[1..])
  }

  /** The parameters, in traversal order, whose Sprint is not a cached key. */
  function Missing(codec: Codec, ps: seq<Value>, cached: set<string>): seq<Value>
    decreases |ps|
  {
    if ps == [] then []
    else (if codec.sprint(ps[0]) in cached then [] else [ps[0]]) + Missing(codec, ps[1..], cached)
  }

  /** `a` is `b` with some elements left out, the rest kept in order. */
  predicate IsSubsequence(a: seq<Value>, b: seq<Value>)
    decreases |b|
  {
    if a == [] then true
    else if b == [] then false
    else (a[0] == b[0] && IsSubsequence(a[1..], b[1..])) || IsSubsequence(a, b[1..])
  }

  /** Only non-Zero elements with a Key are counted as cached, under their Key; when every
      element has both Zero and Key, every non-Zero element is counted. */
  lemma {:induction false} CachedKeysExact(items: seq<Value>)
    ensures forall k :: k in CachedKeys(items) ==>
              exists i :: 0 <= i < |items| && ImplementsKey(items[i]) && !IsZero(items[i]) && KeyOf(items[i]) == k
    ensures (forall i :: 0 <= i < |items| ==> ImplementsZero(items[i]) && ImplementsKey(items[i])) ==>
              forall i :: 0 <= i < |items| && !IsZero(items[i]) ==> KeyOf(items[i]) in CachedKeys(items)
    decreases |items|
  {
    if items != [] {
      var rest := items[1..];
      CachedKeysExact(rest);
      forall k | k in CachedKeys(items)
        ensures exists i :: 0 <= i < |items| && ImplementsKey(items[i]) && !IsZero(items[i]) && KeyOf(items[i]) == k
      {
        if k in CachedKeys(rest) {
          var j :| 0 <= j < |rest| && ImplementsKey(rest[j]) && !IsZero(rest[j]) && KeyOf(rest[j]) == k;
          assert items[j + 1] == rest[j];
        } else {
          assert ImplementsKey(items[0]) && !IsZero(items[0]) && KeyOf(items[0]) == k;
        }
      }
      if forall i :: 0 <= i < |items| ==> ImplementsZero(items[i]) && ImplementsKey(items[i]) {
        forall i | 0 <= i < |items| && !IsZero(items[i])
          ensures KeyOf(items[i]) in CachedKeys(items)
        {
          if i > 0 {
            assert rest[i - 1] == items[i];
          }
        }
      }
    }
  }

  /** The missing parameters are a subsequence of the parameters, and a parameter is missing
      exactly when its Sprint is not a cached key. */
  lemma {:induction false} MissingExact(codec: Codec, ps: seq<Value>, cached: set<string>)
    ensures IsSubsequence(Missing(codec, ps, cached), ps)
    ensures forall v :: v in Missing(codec, ps, cached) <==> v in ps && codec.sprint(v) !in cached
    decreases |ps|
  {
    if ps != [] {
      var rest := Missing(codec, ps[1..], cached);
      MissingExact(codec, ps[1..], cached);
      if codec.sprint(ps[0]) in cached {
        assert Missing(codec, ps, cached) == rest;
        SubsequenceOfTail(rest, ps);
      } else {
        assert Missing(codec, ps, cached) == [ps[0]] + rest;
        assert ([ps[0]] + rest)[1..] == rest;
      }
      assert ps == [ps[0]] + ps[1..];
    }
  }

  lemma {:induction false} SubsequenceOfTail(a: seq<Value>, b: seq<Value>)
    requires b != [] && IsSubsequence(a, b[1..])
    ensures IsSubsequence(a, b)
  {
  }

  /** The ForEach over `out`. */
  method CachedKeysOf(out: Value) returns (cached: set<string>)
    ensures cached == CachedKeys(Items(out))
  {
    var items := Items(out);
    cached := {};
    var i := 0;
    assert items[0..] == items;
    while i < |items|
      invariant 0 <= i <= |items|
      invariant CachedKeys(items) == cached + CachedKeys(items[i..])
    {
      assert items[i..][1..] == items[i + 1..];
      var v := items[i];
      if !ImplementsZero(v) {
        return;
      }
      if !IsZero(v) {
        if !ImplementsKey(v) {
          return;
        }
        cached := cached + {KeyOf(v)};
      }
      i := i + 1;
    }
  }

  lemma MissingStep(codec: Codec, ps: seq<Value>, i: nat, cached: set<string>)
    requires i < |ps|
    ensures Missing(codec, ps[i..], cached)
         == (if codec.sprint(ps[i]) in cached then [] else [ps[i]]) + Missing(codec, ps[i + 1..], cached)
  {
    assert ps[i..][1..] == ps[i + 1..];
  }

  /** The ForEach over `params` that collects noCachedParam. */
  method MissingParams(codec: Codec, params: Value, cached: set<string>) returns (missing: seq<Value>)
    ensures missing == Missing(codec, Items(params), cached)
  {
    var ps := Items(params);
    missing := [];
    var i := 0;
    assert ps[0..] == ps;
    while i < |ps|
      invariant 0 <= i <= |ps|
      invariant Missing(codec, ps, cached) == missing + Missing(codec, ps[i..], cached)
    {
      MissingStep(codec, ps, i, cached);
      if codec.sprint(ps[i]) !in cached {
        assert missing + ([ps[i]] + Missing(codec, ps[i + 1..], cached))
            == (missing + [ps[i]]) + Missing(codec, ps[i + 1..], cached);
        missing := missing + [ps[i]];
      } else {
        assert [] + Missing(codec, ps[i + 1..], cached) == Missing(codec, ps[i + 1..], cached);
      }
      i := i + 1;
    }
    assert ps[|ps|..] == [] && missing + [] == missing;
  }

  // ---------------------------------------------------------------- the read-through

  /** The bulk cache read of `params` into `into`, as a function of the store. */
  function ReadFn(r: MultiReader, params: Value, into: Value): map<string, Entry> -> Result<Value> {
    kv => ObjectReadSpec(r.cache, kv, r.codec, params, into)
  }

  function RetryPhase(r: MultiReader, kv: map<string, Entry>, others: seq<map<string, Entry>>, params: Value, into: Value): RetryOut {
    if Held(LockReadSpec(r.lock, kv, r.codec.sprint(params))) then
      Retry(ReadFn(r, params, into), r.lock.retrySpan, r.lock.retryTimes, 0, kv, others)
    else RetryOut(None, kv, [])
  }

  /** What follows the lock write: the store read, the write-back and the lock delete. */
  function StorePhase(r: MultiReader, kv1: map<string, Entry>, steps: seq<Step>, key: string,
                      expire: Duration, out1: Value, where: seq<Clause>): Outcome
  {
    match r.repo(where)
    case Err(e) => Outcome(Some(e), out1, kv1, steps)
    case Ok(v) =>
      match r.codec.marshal(v)
      case Err(e) => Outcome(Some(e), v, kv1, steps)
      case Ok(text) =>
        Outcome(None, v, WritePair(r.cache, kv1, Pair(key, text), expire).0, steps + [CacheWrite(expire), LockDelete(key)])
  }

  /** One call of the reader on store `kv`; `out0` is the content of `out`. */
  function MultiSpec(r: MultiReader, kv: map<string, Entry>, others: seq<map<string, Entry>>,
                     params: Value, expire: Duration, out0: Value, where: seq<Clause>): Outcome
  {
    if !ImplementsForEach(out0) then Outcome(Some(ErrOutNotForEach), out0, kv, [])
    else if !ImplementsForEach(params) then Outcome(Some(ErrParamsNotForEach), out0, kv, [])
    else
      var key := r.codec.sprint(params);
      var first := ObjectReadSpec(r.cache, kv, r.codec, params, out0);
      var out1 := if first.Ok? then first.value else out0;
      var retry := RetryPhase(r, kv, others, params, out1);
      var pre := [CacheRead, LockRead(key)] + retry.steps;
      if retry.hit.Some? then Outcome(None, retry.hit.value, retry.kv, pre)
      else StorePhase(r, LockWriteSpec(r.lock, retry.kv, key).0, pre + [LockWrite(key), RepoRead], key, expire, out1, where)
  }

  /** The retry loop. */
  method RetryReads(r: MultiReader, params: Value, out: Cell, others: seq<map<string, Entry>>) returns (hit: bool, ghost steps: seq<Step>)
    requires Wired(r)
    modifies r.cache.client, out
    ensures var ro := Retry(ReadFn(r, params, old(out.val)), r.lock.retrySpan, r.lock.retryTimes, 0, old(r.cache.client.kv), others);
            hit == ro.hit.Some? && steps == ro.steps && r.cache.client.kv == ro.kv &&
            out.val == (if hit then ro.hit.value else old(out.val))
    ensures r.cache.client.lists == old(r.cache.client.lists)
  {
    var c := r.cache.client;
    ghost var read := ReadFn(r, params, out.val);
    ghost var done: seq<Step> := [];
    PrecededEmpty(Retry(read, r.lock.retrySpan, r.lock.retryTimes, 0, c.kv, others));
    var i := 0;
    while i < r.lock.retryTimes
      invariant 0 <= i && out.val == old(out.val) && c.lists == old(c.lists)
      invariant Retry(read, r.lock.retrySpan, r.lock.retryTimes, 0, old(c.kv), others)
             == Preceded(done, Retry(read, r.lock.retrySpan, r.lock.retryTimes, i, c.kv, others))
    {
      c.Interleave(Arrival(others, i));
      var e := ObjectRead(r.cache, r.codec, params, out);
      if e.None? {
        return true, done + [Sleep(r.lock.retrySpan), CacheRead];
      }
      PrecededAssoc(done, [Sleep(r.lock.retrySpan), CacheRead], Retry(read, r.lock.retrySpan, r.lock.retryTimes, i + 1, c.kv, others));
      done := done + [Sleep(r.lock.retrySpan), CacheRead];
      i := i + 1;
    }
    assert done + [] == done;
    return false, done;
  }

  /** The function NewMultiCacheRepoReader1 returns. `missing` is the noCachedParam slice it
      builds (and does not use). */
  method MultiRead(r: MultiReader, params: Value, expire: Duration, out: Cell, where: seq<Clause>, others: seq<map<string, Entry>>)
    returns (err: Option<Error>, ghost steps: seq<Step>, missing: seq<Value>)
    requires Wired(r)
    modifies r.cache.client, out
    ensures Outcome(err, out.val, r.cache.client.kv, steps)
         == MultiSpec(r, old(r.cache.client.kv), others, params, expire, old(out.val), where)
    ensures r.cache.client.lists == old(r.cache.client.lists)
    ensures ImplementsForEach(old(out.val)) && ImplementsForEach(params) ==>
              var first := ObjectReadSpec(r.cache, old(r.cache.client.kv), r.codec, params, old(out.val));
              missing == Missing(r.codec, Items(params), CachedKeys(Items(if first.Ok? then first.value else old(out.val))))
  {
    missing := [];
    if !ImplementsForEach(out.val) {
      return Some(ErrOutNotForEach), [], missing;
    }
    if !ImplementsForEach(params) {
      return Some(ErrParamsNotForEach), [], missing;
    }
    var key := r.codec.sprint(params);
    var readErr := ObjectRead(r.cache, r.codec, params, out);
    var cached := CachedKeysOf(out.val);
    missing := MissingParams(r.codec, params, cached);
    var l := RedisLockerReader(r.lock, key);
    steps := [CacheRead, LockRead(key)];
    if Held(l) {
      var hit;
      ghost var more;
      hit, more := RetryReads(r, params, out, others);
      steps := steps + more;
      if hit {
        return None, steps, missing;
      }
    } else {
      assert steps + [] == steps;
    }
    var lockErr := RedisLockerWriter(r.lock, r.codec, key);
    steps := steps + [LockWrite(key), RepoRead];
    var found := r.repo(where);
    if found.Err? {
      return Some(found.error), steps, missing;
    }
    out.val := found.value;
    var text := r.codec.marshal(found.value);
    if text.Err? {
      return Some(text.error), steps, missing;
    }
    var writeErr := Write(r.cache, r.codec, PairVal(Pair(key, text.value)), expire);
    // The lock's Deleter: the Reader/Writer lock record leaves it at its no-op default.
    steps := steps + [CacheWrite(expire), LockDelete(key)];
    err := None;
  }

  // ---------------------------------------------------------------- properties

  /** Both `out` and `params` must be ForEach collections; otherwise the call fails before
      any I/O. */
  lemma ForEachRequired(r: MultiReader, kv: map<string, Entry>, others: seq<map<string, Entry>>,
                        params: Value, expire: Duration, out0: Value, where: seq<Clause>)
    ensures !ImplementsForEach(out0) ==>
              MultiSpec(r, kv, others, params, expire, out0, where) == Outcome(Some(ErrOutNotForEach), out0, kv, [])
    ensures ImplementsForEach(out0) && !ImplementsForEach(params) ==>
              MultiSpec(r, kv, others, params, expire, out0, where) == Outcome(Some(ErrParamsNotForEach), out0, kv, [])
  {
  }

  /** The phase after the retries: the store's error or the encoder's is returned, and a
      successful read ends with the write-back at the caller's expiry and the lock delete. */
  lemma StorePhaseShape(r: MultiReader, kv1: map<string, Entry>, steps: seq<Step>, key: string,
                        expire: Duration, out1: Value, where: seq<Clause>)
    ensures var o := StorePhase(r, kv1, steps, key, expire, out1, where);
            (r.repo(where).Err? ==> o == Outcome(Some(r.repo(where).error), out1, kv1, steps)) &&
            (r.repo(where).Ok? && r.codec.marshal(r.repo(where).value).Err? ==>
               o.err == Some(r.codec.marshal(r.repo(where).value).error) && o.steps == steps) &&
            (r.repo(where).Ok? && r.codec.marshal(r.repo(where).value).Ok? ==>
               o.err == None && o.out == r.repo(where).value && o.steps == steps + [CacheWrite(expire), LockDelete(key)])
    ensures r.cache.prefix == "" ==> StorePhase(r, kv1, steps, key, expire, out1, where).kv == kv1
  {
  }

  /** The bulk cache read's error is never returned: a call that passes the ForEach checks
      fails only with the store's error or the encoder's. */
  lemma CacheErrorNeverReturned(r: MultiReader, kv: map<string, Entry>, others: seq<map<string, Entry>>,
                                params: Value, expire: Duration, out0: Value, where: seq<Clause>)
    requires ImplementsForEach(out0) && ImplementsForEach(params)
    ensures var o := MultiSpec(r, kv, others, params, expire, out0, where);
            o.err.Some? ==>
              (r.repo(where).Err? && o.err == Some(r.repo(where).error)) ||
              (r.repo(where).Ok? && r.codec.marshal(r.repo(where).value).Err? && o.err == Some(r.codec.marshal(r.repo(where).value).error))
  {
    var key := r.codec.sprint(params);
    var first := ObjectReadSpec(r.cache, kv, r.codec, params, out0);
    var out1 := if first.Ok? then first.value else out0;
    var retry := RetryPhase(r, kv, others, params, out1);
    StorePhaseShape(r, LockWriteSpec(r.lock, retry.kv, key).0, [CacheRead, LockRead(key)] + retry.steps + [LockWrite(key), RepoRead], key, expire, out1, where);
  }

  /** The steps after the retries when none hit: lock write and store read, then the
      write-back and the lock delete when the store's value encodes. */
  function StoreTrace(r: MultiReader, key: string, expire: Duration, where: seq<Clause>): seq<Step> {
    StoreTail(key, expire, WritesBack(r, where))
  }

  /** The store read succeeds and its value encodes, so it is written back. */
  predicate WritesBack(r: MultiReader, where: seq<Clause>) {
    r.repo(where).Ok? && r.codec.marshal(r.repo(where).value).Ok?
  }


  /** The trace of a call past the ForEach checks: bulk read, lock read and the retries, then
      the store phase unless a retry hit. */
  lemma MissTrace(r: MultiReader, kv: map<string, Entry>, others: seq<map<string, Entry>>,
                  params: Value, expire: Duration, out0: Value, where: seq<Clause>)
    requires ImplementsForEach(out0) && ImplementsForEach(params)
    ensures var key := r.codec.sprint(params);
            var first := ObjectReadSpec(r.cache, kv, r.codec, params, out0);
            var retry := RetryPhase(r, kv, others, params, if first.Ok? then first.value else out0);
            MultiSpec(r, kv, others, params, expire, out0, where).steps
              == [CacheRead, LockRead(key)] + retry.steps + (if retry.hit.Some? then [] else StoreTrace(r, key, expire, where))
  {
    var key := r.codec.sprint(params);
    var first := ObjectReadSpec(r.cache, kv, r.codec, params, out0);
    var out1 := if first.Ok? then first.value else out0;
    var retry := RetryPhase(r, kv, others, params, out1);
    var pre := [CacheRead, LockRead(key)] + retry.steps;
    if retry.hit.Some? {
      assert pre + [] == pre;
    } else {
      var mid := pre + [LockWrite(key), RepoRead];
      StorePhaseShape(r, LockWriteSpec(r.lock, retry.kv, key).0, mid, key, expire, out1, where);
      if r.repo(where).Ok? && r.codec.marshal(r.repo(where).value).Ok? {
        assert mid + [CacheWrite(expire), LockDelete(key)] == pre + StoreTrace(r, key, expire, where);
      } else {
        assert mid == pre + StoreTrace(r, key, expire, where);
      }
    }
  }

  /** The cache is read at most 1 + RetryTimes times, and once when the lock is not held. */
  lemma ReadsBounded(r: MultiReader, kv: map<string, Entry>, others: seq<map<string, Entry>>,
                     params: Value, expire: Duration, out0: Value, where: seq<Clause>)
    ensures CacheReads(MultiSpec(r, kv, others, params, expire, out0, where).steps)
            <= 1 + (if r.lock.retryTimes > 0 then r.lock.retryTimes else 0)
  {
    if ImplementsForEach(out0) && ImplementsForEach(params) {
      var key := r.codec.sprint(params);
      var first := ObjectReadSpec(r.cache, kv, r.codec, params, out0);
      var out1 := if first.Ok? then first.value else out0;
      var retry := RetryPhase(r, kv, others, params, out1);
      var tail := if retry.hit.Some? then [] else StoreTrace(r, key, expire, where);
      MissTrace(r, kv, others, params, expire, out0, where);
      RetryShape(ReadFn(r, params, out1), r.lock.retrySpan, r.lock.retryTimes, 0, kv, others);
      StoreTailKeyed(key, expire, WritesBack(r, where));
      TraceReads(key, retry.steps, tail);
    }
  }

  /** Lock read, write and delete all use the key Sprint(params). */
  lemma LockKeys(r: MultiReader, kv: map<string, Entry>, others: seq<map<string, Entry>>,
                 params: Value, expire: Duration, out0: Value, where: seq<Clause>)
    ensures forall s :: s in MultiSpec(r, kv, others, params, expire, out0, where).steps && IsLockStep(s) ==>
              s.key == r.codec.sprint(params)
  {
    if ImplementsForEach(out0) && ImplementsForEach(params) {
      var key := r.codec.sprint(params);
      var first := ObjectReadSpec(r.cache, kv, r.codec, params, out0);
      var out1 := if first.Ok? then first.value else out0;
      MissTrace(r, kv, others, params, expire, out0, where);
      RetryShape(ReadFn(r, params, out1), r.lock.retrySpan, r.lock.retryTimes, 0, kv, others);
      StoreTailKeyed(key, expire, WritesBack(r, where));
    }
  }

  /** For the reader NewMultiCacheRepoReader1 builds (no prefix), a value read from the store
      is returned in `out` but the cache is left as the lock write left it: the write-back
      is refused with ErrPrefixNil, and that error is dropped. The trace still records the
      write-back with the caller's expiry (no Zero override) and the lock delete. */
  lemma WriteBackNeverStores(r: MultiReader, kv: map<string, Entry>, others: seq<map<string, Entry>>,
                             params: Value, expire: Duration, out0: Value, where: seq<Clause>)
    requires r.cache.prefix == "" && ImplementsForEach(out0) && ImplementsForEach(params)
    requires r.repo(where).Ok? && r.codec.marshal(r.repo(where).value).Ok?
    ensures var o := MultiSpec(r, kv, others, params, expire, out0, where);
            var key := r.codec.sprint(params);
            var first := ObjectReadSpec(r.cache, kv, r.codec, params, out0);
            var retry := RetryPhase(r, kv, others, params, if first.Ok? then first.value else out0);
            retry.hit.None? ==>
              o.err == None && o.out == r.repo(where).value &&
              o.kv == LockWriteSpec(r.lock, retry.kv, key).0 &&
              |o.steps| >= 2 && o.steps[|o.steps| - 2..] == [CacheWrite(expire), LockDelete(key)]
  {
    var key := r.codec.sprint(params);
    var first := ObjectReadSpec(r.cache, kv, r.codec, params, out0);
    var out1 := if first.Ok? then first.value else out0;
    var retry := RetryPhase(r, kv, others, params, out1);
    StorePhaseShape(r, LockWriteSpec(r.lock, retry.kv, key).0, [CacheRead, LockRead(key)] + retry.steps + [LockWrite(key), RepoRead], key, expire, out1, where);
  }

  /** A successful bulk read does not end the call: when the lock is not held, the store is
      read even if every key was in the cache. */
  lemma HitStillReadsStore(r: MultiReader, kv: map<string, Entry>, others: seq<map<string, Entry>>,
                           params: Value, expire: Duration, out0: Value, where: seq<Clause>)
    requires ImplementsForEach(out0) && ImplementsForEach(params)
    requires ObjectReadSpec(r.cache, kv, r.codec, params, out0).Ok?
    requires !Held(LockReadSpec(r.lock, kv, r.codec.sprint(params)))
    ensures var key := r.codec.sprint(params);
            var o := MultiSpec(r, kv, others, params, expire, out0, where);
            |o.steps| >= 4 && o.steps[..4] == [CacheRead, LockRead(key), LockWrite(key), RepoRead]
  {
    var key := r.codec.sprint(params);
    var out1 := ObjectReadSpec(r.cache, kv, r.codec, params, out0).value;
    StorePhaseShape(r, LockWriteSpec(r.lock, kv, key).0, [CacheRead, LockRead(key)] + [] + [LockWrite(key), RepoRead], key, expire, out1, where);
  }
}
