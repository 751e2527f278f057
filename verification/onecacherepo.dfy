/** onecacherepo.go: the single-key read-through. The cache entry of `params` lives under
    prefix + fmt.Sprint(params) and holds the JSON of `out`; on a miss the caller checks the
    advisory lock (a plain read, then an unconditional write: not a set-if-absent), re-reads
    the cache a bounded number of times if another caller holds it, then reads the backing
    store and writes the result back, with the lock's short expiry for an empty result. */
module OneCacheRepo {
  import opened Meta
  import opened Redis
  import opened Scache
  import opened RedisKeyValue
  import opened RedisLocker
  import opened ReadThrough

  // ---------------------------------------------------------------- cache reader

  /** The reader NewOneCacheReader returns: GET prefix + Sprint(params), decoded into `out`. */
  function CacheReadSpec(o: RedisOptions, codec: Codec, kv: map<string, Entry>, params: Value, into: Value): Result<Value> {
    match ReadString(o, kv, codec.sprint(params))
    case Err(e) => Err(e)
    case Ok(s) => codec.DecodeInto(s, into)
  }

  method CacheReader(o: RedisOptions, codec: Codec, params: Value, out: Cell) returns (err: Option<Error>)
    modifies out
    ensures o.client == null ==> err == Some(ErrClientNil) && out.val == old(out.val)
    ensures o.client != null ==>
              var r := CacheReadSpec(o, codec, o.client.kv, params, old(out.val));
              err == ErrOf(r) && out.val == (if r.Ok? then r.value else old(out.val))
  {
    var res := StringRead(o, Str(codec.sprint(params)));
    if res.Err? {
      return Some(res.error);
    }
    if !res.value.Str? {
      return Some(Failure("format error"));
    }
    var d := codec.DecodeInto(res.value.s, out.val);
    if d.Err? {
      return Some(d.error);
    }
    out.val := d.value;
    err := None;
  }

  /** A cache read hits exactly when prefix + Sprint(params) is present and its text decodes
      to a value of the type of `out`; a missing entry is redis.Nil. */
  lemma CacheReadHit(o: RedisOptions, codec: Codec, kv: map<string, Entry>, params: Value, into: Value)
    requires o.client != null && o.prefix != "" && o.prefix + codec.sprint(params) !in o.client.broken
    ensures var key := o.prefix + codec.sprint(params);
            (key !in kv ==> CacheReadSpec(o, codec, kv, params, into) == Err(RedisNil)) &&
            (key in kv ==> CacheReadSpec(o, codec, kv, params, into) == codec.DecodeInto(kv[key].value, into))
  {
  }

  // ---------------------------------------------------------------- the read-through

  /** The collaborators a reader closes over. `noZero` is the error for an `out` without Zero
      (its text differs between onecacherepo.go and tutorial/generic.go). */
  datatype OneReader = OneReader(cache: RedisOptions, lock: RwLocker, codec: Codec, repo: Repo, noZero: Error)

  /** Cache and lock use the same store, as they do when both come from DefaultClient(). */
  predicate Wired(r: OneReader) {
    r.cache.client != null && r.lock.client == r.cache.client
  }

  /** NewOneCacheRepoReader: cache reader and writer under `prefix`, the default Redis lock. */
  function NewOneCacheRepoReader(prefix: string, codec: Codec, repo: Repo, c: Client): (r: OneReader)
    ensures Wired(r) && r.cache.prefix == prefix && r.cache.keyFn.None?
    ensures r.lock == DefaultRedisLocker(c)
    ensures r.noZero == Failure("params out must implements Zero interface")
  {
    OneReader(RedisOptions(None, prefix, c, null), DefaultRedisLocker(c), codec, repo,
              Failure("params out must implements Zero interface"))
  }

  /** The cache read of `params` into `into`, as a function of the store. */
  function ReadFn(r: OneReader, params: Value, into: Value): map<string, Entry> -> Result<Value> {
    kv => CacheReadSpec(r.cache, r.codec, kv, params, into)
  }

  /** The retry phase of this reader. */
  function RetryOf(r: OneReader, params: Value, into: Value, kv: map<string, Entry>, others: seq<map<string, Entry>>): RetryOut {
    Retry(ReadFn(r, params, into), r.lock.retrySpan, r.lock.retryTimes, 0, kv, others)
  }

  /** One call of the reader: `kv` is the store, `others` the writes of other callers during
      each retry sleep, `out0` the content of `out`, `where` the clause handlers. */
  function ReadSpec(r: OneReader, kv: map<string, Entry>, others: seq<map<string, Entry>>,
                    params: Value, expire: Duration, out0: Value, where: seq<Clause>): Outcome
  {
    if !ImplementsZero(out0) then Outcome(Some(r.noZero), out0, kv, [])
    else
      var key := r.codec.sprint(params);
      var first := CacheReadSpec(r.cache, r.codec, kv, params, out0);
      if first.Ok? then Outcome(None, first.value, kv, [CacheRead])
      else
        var retry := if Held(LockReadSpec(r.lock, kv, key)) then RetryOf(r, params, out0, kv, others) else RetryOut(None, kv, []);
        var pre := [CacheRead, LockRead(key)] + retry.steps;
        if retry.hit.Some? then Outcome(None, retry.hit.value, retry.kv, pre)
        else
          var kv1 := LockWriteSpec(r.lock, retry.kv, key).0;
          var steps := pre + [LockWrite(key), RepoRead];
          match r.repo(where)
          case Err(e) => Outcome(Some(e), out0, kv1, steps)
          case Ok(v) =>
            var ttl := if IsZero(v) then r.lock.expire else expire;
            match r.codec.marshal(v)
            case Err(e) => Outcome(Some(e), v, kv1, steps)
            case Ok(text) =>
              Outcome(None, v, WritePair(r.cache, kv1, Pair(key, text), ttl).0, steps + [CacheWrite(ttl), LockDelete(key)])
  }

  /** The retry loop of the reader. */
  method RetryReads(r: OneReader, params: Value, out: Cell, others: seq<map<string, Entry>>) returns (hit: bool, ghost steps: seq<Step>)
    requires Wired(r)
    modifies r.cache.client, out
    ensures var ro := RetryOf(r, params, old(out.val), old(r.cache.client.kv), others);
            hit == ro.hit.Some? && steps == ro.steps && r.cache.client.kv == ro.kv &&
            out.val == (if hit then ro.hit.value else old(out.val))
    ensures r.cache.client.lists == old(r.cache.client.lists)
  {
    var c := r.cache.client;
    ghost var read := ReadFn(r, params, out.val);
    ghost var done: seq<Step> := [];
    PrecededEmpty(RetryOf(r, params, out.val, c.kv, others));
    var i := 0;
    while i < r.lock.retryTimes
      invariant 0 <= i && out.val == old(out.val) && c.lists == old(c.lists)
      invariant RetryOf(r, params, old(out.val), old(c.kv), others)
             == Preceded(done, Retry(read, r.lock.retrySpan, r.lock.retryTimes, i, c.kv, others))
    {
      c.Interleave(Arrival(others, i));
      var e := CacheReader(r.cache, r.codec, params, out);
      if e.None? {
        return true, done + [Sleep(r.lock.retrySpan), CacheRead];
      }
      PrecededAssoc(done, [Sleep(r.lock.retrySpan), CacheRead], Retry(read, r.lock.retrySpan, r.lock.retryTimes, i + 1, c.kv, others));
      done := done + [Sleep(r.lock.retrySpan), CacheRead];
      i := i + 1;
    }
    assert done + [] == done;
    return false, done;
  }

  /** The function NewOneCacheRepoReader returns. */
  method Read(r: OneReader, params: Value, expire: Duration, out: Cell, where: seq<Clause>, others: seq<map<string, Entry>>)
    returns (err: Option<Error>, ghost steps: seq<Step>)
    requires Wired(r)
    modifies r.cache.client, out
    ensures Outcome(err, out.val, r.cache.client.kv, steps)
         == ReadSpec(r, old(r.cache.client.kv), others, params, expire, old(out.val), where)
    ensures r.cache.client.lists == old(r.cache.client.lists)
  {
    if !ImplementsZero(out.val) {
      return Some(r.noZero), [];
    }
    var key := r.codec.sprint(params);
    var first := CacheReader(r.cache, r.codec, params, out);
    if first.None? {
      return None, [CacheRead];
    }
    var l := RedisLockerReader(r.lock, key);
    steps := [CacheRead, LockRead(key)];
    if Held(l) {
      var hit;
      ghost var more;
      hit, more := RetryReads(r, params, out, others);
      steps := steps + more;
      if hit {
        return None, steps;
      }
    } else {
      assert steps + [] == steps;
    }
    var lockErr := RedisLockerWriter(r.lock, r.codec, key);
    steps := steps + [LockWrite(key), RepoRead];
    var found := r.repo(where);
    if found.Err? {
      return Some(found.error), steps;
    }
    out.val := found.value;
    var ttl := if IsZero(found.value) then r.lock.expire else expire;
    var text := r.codec.marshal(found.value);
    if text.Err? {
      return Some(text.error), steps;
    }
    var writeErr := Write(r.cache, r.codec, PairVal(Pair(key, text.value)), ttl);
    // The lock's Deleter: the Reader/Writer lock record leaves it at its no-op default.
    steps := steps + [CacheWrite(ttl), LockDelete(key)];
    err := None;
  }

  // ---------------------------------------------------------------- properties

  /** An `out` without Zero fails before any cache, lock or store access. */
  lemma NoZeroFailsFirst(r: OneReader, kv: map<string, Entry>, others: seq<map<string, Entry>>,
                         params: Value, expire: Duration, out0: Value, where: seq<Clause>)
    requires !ImplementsZero(out0)
    ensures ReadSpec(r, kv, others, params, expire, out0, where) == Outcome(Some(r.noZero), out0, kv, [])
  {
  }

  /** A cache hit returns nil with the decoded value, with no lock or store activity. */
  lemma HitReturns(r: OneReader, kv: map<string, Entry>, others: seq<map<string, Entry>>,
                   params: Value, expire: Duration, out0: Value, where: seq<Clause>)
    requires ImplementsZero(out0) && CacheReadSpec(r.cache, r.codec, kv, params, out0).Ok?
    ensures ReadSpec(r, kv, others, params, expire, out0, where)
         == Outcome(None, CacheReadSpec(r.cache, r.codec, kv, params, out0).value, kv, [CacheRead])
  {
  }

  /** The retry phase of a call whose first read missed. */
  function RetryPhase(r: OneReader, kv: map<string, Entry>, others: seq<map<string, Entry>>, params: Value, out0: Value): RetryOut {
    if Held(LockReadSpec(r.lock, kv, r.codec.sprint(params))) then RetryOf(r, params, out0, kv, others) else RetryOut(None, kv, [])
  }

  /** The steps after the retries when none hit: lock write and store read, then the
      write-back and the lock delete when the store's value encodes; a Zero value is cached
      with the lock's expiry. */
  function StoreTrace(r: OneReader, key: string, expire: Duration, where: seq<Clause>): seq<Step> {
    StoreTail(key, WriteBackTtl(r, expire, where), WritesBack(r, where))
  }

  /** The store read succeeds and its value encodes, so it is written back. */
  predicate WritesBack(r: OneReader, where: seq<Clause>) {
    r.repo(where).Ok? && r.codec.marshal(r.repo(where).value).Ok?
  }

  /** The expiry of the write-back: the lock's for a Zero value, the caller's otherwise. */
  function WriteBackTtl(r: OneReader, expire: Duration, where: seq<Clause>): Duration {
    if r.repo(where).Ok? && IsZero(r.repo(where).value) then r.lock.expire else expire
  }


  /** The trace of a call whose first read missed: cache read, lock read and the retries,
      then the store phase unless a retry hit. */
  lemma MissTrace(r: OneReader, kv: map<string, Entry>, others: seq<map<string, Entry>>,
                  params: Value, expire: Duration, out0: Value, where: seq<Clause>)
    requires ImplementsZero(out0) && CacheReadSpec(r.cache, r.codec, kv, params, out0).Err?
    ensures var key := r.codec.sprint(params);
            var retry := RetryPhase(r, kv, others, params, out0);
            ReadSpec(r, kv, others, params, expire, out0, where).steps
              == [CacheRead, LockRead(key)] + retry.steps + (if retry.hit.Some? then [] else StoreTrace(r, key, expire, where))
  {
    var key := r.codec.sprint(params);
    var retry := RetryPhase(r, kv, others, params, out0);
    var pre := [CacheRead, LockRead(key)] + retry.steps;
    if retry.hit.Some? {
      assert pre + [] == pre;
    } else {
      var mid := pre + [LockWrite(key), RepoRead];
      if r.repo(where).Ok? && r.codec.marshal(r.repo(where).value).Ok? {
        var ttl := if IsZero(r.repo(where).value) then r.lock.expire else expire;
        assert mid + [CacheWrite(ttl), LockDelete(key)] == pre + StoreTrace(r, key, expire, where);
      } else {
        assert mid == pre + StoreTrace(r, key, expire, where);
      }
    }
  }

  /** The cache is read at most 1 + RetryTimes times, and only once when the lock is not seen
      as held. */
  lemma ReadsBounded(r: OneReader, kv: map<string, Entry>, others: seq<map<string, Entry>>,
                     params: Value, expire: Duration, out0: Value, where: seq<Clause>)
    ensures var o := ReadSpec(r, kv, others, params, expire, out0, where);
            CacheReads(o.steps) <= 1 + (if r.lock.retryTimes > 0 then r.lock.retryTimes else 0)
    ensures !Held(LockReadSpec(r.lock, kv, r.codec.sprint(params))) ==>
              CacheReads(ReadSpec(r, kv, others, params, expire, out0, where).steps) <= 1
  {
    if ImplementsZero(out0) && CacheReadSpec(r.cache, r.codec, kv, params, out0).Err? {
      var key := r.codec.sprint(params);
      var retry := RetryPhase(r, kv, others, params, out0);
      var tail := if retry.hit.Some? then [] else StoreTrace(r, key, expire, where);
      MissTrace(r, kv, others, params, expire, out0, where);
      RetryShape(ReadFn(r, params, out0), r.lock.retrySpan, r.lock.retryTimes, 0, kv, others);
      StoreTailKeyed(key, WriteBackTtl(r, expire, where), WritesBack(r, where));
      TraceReads(key, retry.steps, tail);
    } else {
      assert CacheReads([CacheRead]) == 1 by {
        assert [CacheRead][1..] == [];
      }
    }
  }

  /** The store is read only when `out` has Zero, the first cache read missed and no retry
      hit; the steps up to then are fixed. */
  lemma ReachedRepo(r: OneReader, kv: map<string, Entry>, others: seq<map<string, Entry>>,
                    params: Value, expire: Duration, out0: Value, where: seq<Clause>)
    requires RepoRead in ReadSpec(r, kv, others, params, expire, out0, where).steps
    ensures ImplementsZero(out0) && CacheReadSpec(r.cache, r.codec, kv, params, out0).Err?
    ensures RetryPhase(r, kv, others, params, out0).hit.None?
  {
    var key := r.codec.sprint(params);
    var retry := RetryPhase(r, kv, others, params, out0);
    RetryShape(ReadFn(r, params, out0), r.lock.retrySpan, r.lock.retryTimes, 0, kv, others);
    assert RepoRead !in [CacheRead];
    assert forall s :: s in [CacheRead, LockRead(key)] + retry.steps ==> s != RepoRead;
  }

  /** The store reader is reached only after the lock write; if it fails its error is
      returned, nothing is written back and the lock is not deleted. */
  lemma RepoErrorReturned(r: OneReader, kv: map<string, Entry>, others: seq<map<string, Entry>>,
                          params: Value, expire: Duration, out0: Value, where: seq<Clause>)
    requires r.repo(where).Err?
    requires RepoRead in ReadSpec(r, kv, others, params, expire, out0, where).steps
    ensures var o := ReadSpec(r, kv, others, params, expire, out0, where);
            o.err == Some(r.repo(where).error) && o.out == out0 &&
            |o.steps| >= 2 && o.steps[|o.steps| - 2..] == [LockWrite(r.codec.sprint(params)), RepoRead] &&
            (forall s :: s in o.steps ==> !s.CacheWrite? && !s.LockDelete?)
  {
    ReachedRepo(r, kv, others, params, expire, out0, where);
    var key := r.codec.sprint(params);
    var retry := RetryPhase(r, kv, others, params, out0);
    RetryShape(ReadFn(r, params, out0), r.lock.retrySpan, r.lock.retryTimes, 0, kv, others);
    var pre := [CacheRead, LockRead(key)] + retry.steps;
    var steps := pre + [LockWrite(key), RepoRead];
    var kv1 := LockWriteSpec(r.lock, retry.kv, key).0;
    assert ReadSpec(r, kv, others, params, expire, out0, where) == Outcome(Some(r.repo(where).error), out0, kv1, steps);
    assert steps[|steps| - 2..] == [LockWrite(key), RepoRead];
    assert forall s :: s in retry.steps ==> s == Sleep(r.lock.retrySpan) || s == CacheRead;
    forall s | s in steps
      ensures !s.CacheWrite? && !s.LockDelete?
    {
      if s !in retry.steps {
        assert s in [CacheRead, LockRead(key), LockWrite(key), RepoRead];
      }
    }
  }

  /** A value read from the store is written back under prefix + Sprint(params) as its JSON,
      with the lock's expiry when it is Zero and the caller's otherwise; a failed cache write
      is not reported, and the lock is deleted last. */
  lemma WriteBack(r: OneReader, kv: map<string, Entry>, others: seq<map<string, Entry>>,
                  params: Value, expire: Duration, out0: Value, where: seq<Clause>)
    requires r.repo(where).Ok? && r.codec.marshal(r.repo(where).value).Ok?
    requires RepoRead in ReadSpec(r, kv, others, params, expire, out0, where).steps
    ensures var o := ReadSpec(r, kv, others, params, expire, out0, where);
            var v := r.repo(where).value;
            var ttl := if IsZero(v) then r.lock.expire else expire;
            o.err == None && o.out == v &&
            |o.steps| >= 2 && o.steps[|o.steps| - 2..] == [CacheWrite(ttl), LockDelete(r.codec.sprint(params))]
    ensures var o := ReadSpec(r, kv, others, params, expire, out0, where);
            var v := r.repo(where).value;
            var ttl := if IsZero(v) then r.lock.expire else expire;
            var key := r.cache.prefix + r.codec.sprint(params);
            r.cache.client != null && r.cache.prefix != "" && key !in r.cache.client.broken ==>
              key in o.kv && o.kv[key] == Entry(r.codec.marshal(v).value, ttl)
  {
    ReachedRepo(r, kv, others, params, expire, out0, where);
  }

  /** Lock read, write and delete all use the key Sprint(params). */
  lemma LockKeys(r: OneReader, kv: map<string, Entry>, others: seq<map<string, Entry>>,
                 params: Value, expire: Duration, out0: Value, where: seq<Clause>)
    ensures forall s :: s in ReadSpec(r, kv, others, params, expire, out0, where).steps && IsLockStep(s) ==>
              s.key == r.codec.sprint(params)
  {
    if ImplementsZero(out0) && CacheReadSpec(r.cache, r.codec, kv, params, out0).Err? {
      MissTrace(r, kv, others, params, expire, out0, where);
      RetryShape(ReadFn(r, params, out0), r.lock.retrySpan, r.lock.retryTimes, 0, kv, others);
      StoreTailKeyed(r.codec.sprint(params), WriteBackTtl(r, expire, where), WritesBack(r, where));
    }
  }

  /** The lock is written whether or not the lock read saw it held, and whatever the write
      answers: once the retries miss, the next steps are the lock write and the store read. */
  lemma LockWrittenBeforeRepo(r: OneReader, kv: map<string, Entry>, others: seq<map<string, Entry>>,
                              params: Value, expire: Duration, out0: Value, where: seq<Clause>)
    requires ImplementsZero(out0) && CacheReadSpec(r.cache, r.codec, kv, params, out0).Err?
    requires !Held(LockReadSpec(r.lock, kv, r.codec.sprint(params)))
    ensures var o := ReadSpec(r, kv, others, params, expire, out0, where);
            var key := r.codec.sprint(params);
            |o.steps| >= 4 && o.steps[..4] == [CacheRead, LockRead(key), LockWrite(key), RepoRead]
  {
  }
}
