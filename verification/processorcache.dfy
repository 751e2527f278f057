/** processor/cache.go: the cache tier of the chainable processors (package storage/v2).
    It holds a Locker record (Adder/Deleter), a cache reader and writer, and an optional next
    tier. On a miss it tries to acquire the lock; a caller that does not get it re-reads the
    cache a bounded number of times; then the next tier is read and its result written back,
    with the lock's expiry for an empty result, and the lock is released. */
module ProcessorCache {
  import opened Meta
  import opened Redis
  import opened ReadThrough
  import Locker

  /** meta.KeyValueReader on the store: the content `out` gets, or the reader's error
      (redis.Nil for a miss); on an error `out` is left as it was. */
  type CacheReader = (map<string, Entry>, Value, Value) -> Result<Value>

  /** meta.KeyValueWriter on the store: the new store and the error. */
  type CacheWriter = (map<string, Entry>, Value, Duration) -> (map<string, Entry>, Option<Error>)

  const ErrOutNoZero: Error := Failure("params out must implements Zero interface")

  class RedisReadProcessor {
    const locker: Locker.Locker
    const reader: CacheReader
    const writer: CacheWriter
    const next: Option<NextStage>
    /** The Redis instance behind `reader` and `writer`. */
    const store: Client

    /** NewRedisCacheReaderProcessor: the default locker, whose Adder never acquires. */
    constructor (next: Option<NextStage>, reader: CacheReader, writer: CacheWriter, store: Client)
      ensures this.locker == Locker.DefaultLocker() && this.next == next
      ensures this.reader == reader && this.writer == writer && this.store == store
    {
      this.locker := Locker.DefaultLocker();
      this.reader, this.writer, this.next, this.store := reader, writer, next, store;
    }

    /** The cache read of `in` into `into`, as a function of the store. */
    function ReadFn(input: Value, into: Value): map<string, Entry> -> Result<Value> {
      kv => reader(kv, input, into)
    }

    /** What follows the lock attempt and the retries: the next tier, the write-back and the
        release. */
    function NextPhase(kv: map<string, Entry>, steps: seq<Step>, input: Value, out0: Value, exp: Duration, key: string): Outcome
      requires next.Some?
    {
      var n := next.value(input, out0, exp);
      if n.err.Some? then Outcome(n.err, n.out, kv, steps + [NextRead])
      else
        var ttl := if IsZero(n.out) then locker.expire else exp;
        Outcome(None, n.out, writer(kv, n.out, ttl).0, steps + [NextRead, CacheWrite(ttl), LockDelete(key)])
    }

    /** One call of Read on store `kv`; `out0` is the content of `out`. */
    function ReadSpec(kv: map<string, Entry>, others: seq<map<string, Entry>>, input: Value, out0: Value, exp: Duration): Outcome {
      if !ImplementsZero(out0) then Outcome(Some(ErrOutNoZero), out0, kv, [])
      else
        var first := reader(kv, input, out0);
        if first.Ok? then Outcome(None, first.value, kv, [CacheRead])
        else if !ImplementsKey(input) then Outcome(Some(Code(KeyNotImplement)), out0, kv, [CacheRead])
        else if next.None? then Outcome(None, out0, kv, [CacheRead])
        else
          var key := KeyOf(input);
          var retry := if locker.adder.Call(key) then RetryOut(None, kv, [])
                       else Retry(ReadFn(input, out0), locker.retrySpan, locker.retryTimes, 0, kv, others);
          var pre := [CacheRead, Acquire(key)] + retry.steps;
          if retry.hit.Some? then Outcome(None, retry.hit.value, retry.kv, pre)
          else NextPhase(retry.kv, pre, input, out0, exp, key)
    }

    method Read(input: Value, out: Cell, exp: Duration, others: seq<map<string, Entry>>) returns (err: Option<Error>, ghost steps: seq<Step>)
      modifies store, out
      ensures Outcome(err, out.val, store.kv, steps) == ReadSpec(old(store.kv), others, input, old(out.val), exp)
      ensures store.lists == old(store.lists)
    {
      if !ImplementsZero(out.val) {
        return Some(ErrOutNoZero), [];
      }
      var first := reader(store.kv, input, out.val);
      if first.Ok? {
        out.val := first.value;
        return None, [CacheRead];
      }
      if !ImplementsKey(input) {
        return Some(Code(KeyNotImplement)), [CacheRead];
      }
      if next.None? {
        return None, [CacheRead];
      }
      var key := KeyOf(input);
      steps := [CacheRead, Acquire(key)];
      if !locker.adder.Call(key) {
        ghost var read := ReadFn(input, out.val);
        ghost var kv0 := store.kv;
        ghost var done: seq<Step> := [];
        PrecededEmpty(Retry(read, locker.retrySpan, locker.retryTimes, 0, kv0, others));
        var i := 0;
        while i < locker.retryTimes
          invariant 0 <= i && out.val == old(out.val) && store.lists == old(store.lists)
          invariant Retry(read, locker.retrySpan, locker.retryTimes, 0, kv0, others)
                 == Preceded(done, Retry(read, locker.retrySpan, locker.retryTimes, i, store.kv, others))
        {
          store.Interleave(Arrival(others, i));
          var again := reader(store.kv, input, out.val);
          if again.Ok? {
            out.val := again.value;
            return None, steps + done + [Sleep(locker.retrySpan), CacheRead];
          }
          PrecededAssoc(done, [Sleep(locker.retrySpan), CacheRead], Retry(read, locker.retrySpan, locker.retryTimes, i + 1, store.kv, others));
          done := done + [Sleep(locker.retrySpan), CacheRead];
          i := i + 1;
        }
        assert done + [] == done;
        steps := steps + done;
      } else {
        assert steps + [] == steps;
      }
      var res := next.value(input, out.val, exp);
      out.val := res.out;
      if res.err.Some? {
        return res.err, steps + [NextRead];
      }
      var ttl := exp;
      if IsZero(out.val) {
        ttl := locker.expire;
      }
      var writeErr := Write(out.val, ttl);
      var released := locker.deleter.Call(key);
      steps := steps + [NextRead, CacheWrite(ttl), LockDelete(key)];
      err := None;
    }

    method Write(input: Value, exp: Duration) returns (err: Option<Error>)
      modifies store
      ensures (store.kv, err) == writer(old(store.kv), input, exp)
      ensures store.lists == old(store.lists)
    {
      var r := writer(store.kv, input, exp);
      store.kv := r.0;
      err := r.1;
    }
  }

  // ---------------------------------------------------------------- properties

  /** An `out` without Zero fails before the cache is touched; a cache hit returns nil with
      the value read, and neither the lock nor the next tier is consulted. */
  lemma EarlyReturns(p: RedisReadProcessor, kv: map<string, Entry>, others: seq<map<string, Entry>>, input: Value, out0: Value, exp: Duration)
    ensures !ImplementsZero(out0) ==> p.ReadSpec(kv, others, input, out0, exp) == Outcome(Some(ErrOutNoZero), out0, kv, [])
    ensures ImplementsZero(out0) && p.reader(kv, input, out0).Ok? ==>
              p.ReadSpec(kv, others, input, out0, exp) == Outcome(None, p.reader(kv, input, out0).value, kv, [CacheRead])
  {
  }

  /** On a miss, `in` must implement Key (EI_KeyNotImplement otherwise); with no next tier
      the miss returns nil, leaves `out` alone and writes nothing. */
  lemma MissWithoutKeyOrNext(p: RedisReadProcessor, kv: map<string, Entry>, others: seq<map<string, Entry>>, input: Value, out0: Value, exp: Duration)
    requires ImplementsZero(out0) && p.reader(kv, input, out0).Err?
    ensures !ImplementsKey(input) ==> p.ReadSpec(kv, others, input, out0, exp) == Outcome(Some(Code(KeyNotImplement)), out0, kv, [CacheRead])
    ensures ImplementsKey(input) && p.next.None? ==> p.ReadSpec(kv, others, input, out0, exp) == Outcome(None, out0, kv, [CacheRead])
  {
  }

  /** The next tier's phase: its error is returned with `out` as the next tier left it,
      nothing written and no release; a value is written back with the lock's expiry when
      Zero and `exp` otherwise, whatever the writer answers, and the lock is released last. */
  lemma NextPhaseShape(p: RedisReadProcessor, kv: map<string, Entry>, steps: seq<Step>, input: Value, out0: Value, exp: Duration, key: string)
    requires p.next.Some?
    ensures var o := p.NextPhase(kv, steps, input, out0, exp, key);
            var r := p.next.value(input, out0, exp);
            (r.err.Some? ==> o == Outcome(r.err, r.out, kv, steps + [NextRead])) &&
            (r.err.None? ==>
               var ttl := if IsZero(r.out) then p.locker.expire else exp;
               o.err == None && o.out == r.out && o.kv == p.writer(kv, r.out, ttl).0 &&
               o.steps == steps + [NextRead, CacheWrite(ttl), LockDelete(key)])
  {
  }

  /** The steps of a call that reached the next tier: the lock attempt, the retries if the
      lock was not acquired (none of them hit), then the next tier. */
  lemma ReachedNext(p: RedisReadProcessor, kv: map<string, Entry>, others: seq<map<string, Entry>>, input: Value, out0: Value, exp: Duration)
    requires NextRead in p.ReadSpec(kv, others, input, out0, exp).steps
    ensures ImplementsZero(out0) && p.reader(kv, input, out0).Err? && ImplementsKey(input) && p.next.Some?
    ensures var key := KeyOf(input);
            var retry := if p.locker.adder.Call(key) then RetryOut(None, kv, [])
                         else Retry(p.ReadFn(input, out0), p.locker.retrySpan, p.locker.retryTimes, 0, kv, others);
            retry.hit.None? &&
            p.ReadSpec(kv, others, input, out0, exp) == p.NextPhase(retry.kv, [CacheRead, Acquire(key)] + retry.steps, input, out0, exp, key)
  {
    var key := KeyOf(input);
    var retry := if p.locker.adder.Call(key) then RetryOut(None, kv, [])
                 else Retry(p.ReadFn(input, out0), p.locker.retrySpan, p.locker.retryTimes, 0, kv, others);
    RetryShape(p.ReadFn(input, out0), p.locker.retrySpan, p.locker.retryTimes, 0, kv, others);
    assert forall s :: s in [CacheRead, Acquire(key)] + retry.steps ==> s != NextRead;
  }

  /** The lock is released after every successful next-tier read, whether or not the Adder
      acquired it; a failed one is returned unchanged, with `out` as the next tier left it,
      no write-back and no release. */
  lemma ReleaseAfterNext(p: RedisReadProcessor, kv: map<string, Entry>, others: seq<map<string, Entry>>, input: Value, out0: Value, exp: Duration)
    requires NextRead in p.ReadSpec(kv, others, input, out0, exp).steps
    ensures p.next.Some? && ImplementsKey(input)
    ensures var o := p.ReadSpec(kv, others, input, out0, exp);
            var r := p.next.value(input, out0, exp);
            (r.err.None? ==> o.err == None && o.out == r.out && |o.steps| >= 2 &&
                             o.steps[|o.steps| - 1] == LockDelete(KeyOf(input)) &&
                             o.steps[|o.steps| - 2] == CacheWrite(if IsZero(r.out) then p.locker.expire else exp)) &&
            (r.err.Some? ==> o.err == r.err && o.out == r.out && |o.steps| >= 1 && o.steps[|o.steps| - 1] == NextRead)
  {
    ReachedNext(p, kv, others, input, out0, exp);
    var key := KeyOf(input);
    var retry := if p.locker.adder.Call(key) then RetryOut(None, kv, [])
                 else Retry(p.ReadFn(input, out0), p.locker.retrySpan, p.locker.retryTimes, 0, kv, others);
    NextPhaseShape(p, retry.kv, [CacheRead, Acquire(key)] + retry.steps, input, out0, exp, key);
  }

  /** A caller that did not acquire the lock re-reads the cache at most RetryTimes times and
      returns the first value read; one that acquired it does not re-read. */
  lemma RetryBounded(p: RedisReadProcessor, kv: map<string, Entry>, others: seq<map<string, Entry>>, input: Value, out0: Value, exp: Duration)
    requires ImplementsZero(out0) && p.reader(kv, input, out0).Err? && ImplementsKey(input) && p.next.Some?
    ensures var key := KeyOf(input);
            var retry := if p.locker.adder.Call(key) then RetryOut(None, kv, [])
                         else Retry(p.ReadFn(input, out0), p.locker.retrySpan, p.locker.retryTimes, 0, kv, others);
            CacheReads(retry.steps) <= (if p.locker.retryTimes > 0 then p.locker.retryTimes else 0) &&
            (p.locker.adder.Call(key) ==> retry.steps == []) &&
            (retry.hit.Some? ==> p.reader(retry.kv, input, out0) == Ok(retry.hit.value) &&
                                 p.ReadSpec(kv, others, input, out0, exp) == Outcome(None, retry.hit.value, retry.kv, [CacheRead, Acquire(key)] + retry.steps))
  {
    RetryShape(p.ReadFn(input, out0), p.locker.retrySpan, p.locker.retryTimes, 0, kv, others);
  }

  /** With the default locker (whose Adder never acquires), every miss that reaches the lock
      makes all RetryTimes re-reads unless one of them hits. */
  lemma DefaultLockerAlwaysRetries(p: RedisReadProcessor, kv: map<string, Entry>, others: seq<map<string, Entry>>, input: Value, out0: Value, exp: Duration)
    requires p.locker == Locker.DefaultLocker()
    requires ImplementsZero(out0) && p.reader(kv, input, out0).Err? && ImplementsKey(input) && p.next.Some?
    ensures var retry := Retry(p.ReadFn(input, out0), p.locker.retrySpan, p.locker.retryTimes, 0, kv, others);
            retry.hit.None? ==> CacheReads(retry.steps) == 3
  {
    RetryShape(p.ReadFn(input, out0), p.locker.retrySpan, p.locker.retryTimes, 0, kv, others);
  }
}
