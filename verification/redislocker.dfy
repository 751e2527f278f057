/** scache/redislocker.go: the advisory lock of the older orchestrators, kept in Redis.
    This revision of the repository builds a lock from a Reader and a Writer (the later locker/locker.go has
    Adder and Deleter instead). A lock entry for `key` is the string `key` itself, stored under
    a fixed prefix with the lock's expiry; the lock is "held" when that entry reads back
    non-empty. */
module RedisLocker {
  import opened Meta
  import opened Redis
  import opened Scache
  import opened RedisKeyValue
  import Locker

  const DefaultLockerPrefix: string := "tal_jiaoyan_storage_locker_"

  /** The lock record DefaultRedisLocker builds: the store its Reader and Writer use, their
      prefix, and the timing fields of the record. */
  datatype RwLocker = RwLocker(client: Client?, prefix: string, expire: Duration, retryTimes: int, retrySpan: Duration)

  /** The options the Reader and Writer adapters are built with. */
  function LockOptions(l: RwLocker): RedisOptions {
    RedisOptions(None, l.prefix, l.client, null)
  }

  /** DefaultRedisLocker: entries under the fixed prefix, written with the default expiry,
      and the default retry policy. */
  function DefaultRedisLocker(client: Client?): (l: RwLocker)
    ensures l.client == client && l.prefix == "tal_jiaoyan_storage_locker_"
    ensures l.expire == Locker.DefaultExpire && l.retryTimes == Locker.DefaultRetryTimes && l.retrySpan == Locker.DefaultRetrySpan
  {
    RwLocker(client, DefaultLockerPrefix, Locker.DefaultExpire, Locker.DefaultRetryTimes, Locker.DefaultRetrySpan)
  }

  /** RedisLockerReader applied to what the wrapped reader answered: an error passes through,
      a string is the lock value, anything else is a type error. */
  function LockValue(r: Result<Value>): (v: Result<string>)
    ensures r.Err? ==> v == Err(r.error)
    ensures r.Ok? && r.value.Str? ==> v == Ok(r.value.s)
    ensures r.Ok? && !r.value.Str? ==> v == Err(Failure("locker value type error"))
  {
    match r
    case Err(e) => Err(e)
    case Ok(val) => if val.Str? then Ok(val.s) else Err(Failure("locker value type error"))
  }

  /** The lock Reader: the string reader on `key`, through RedisLockerReader. */
  function LockReadSpec(l: RwLocker, kv: map<string, Entry>, key: string): Result<string> {
    LockValue(StringReadSpec(LockOptions(l), kv, Str(key)))
  }

  /** The lock Writer: the Pair {key, key} with the lock's expiry. */
  function LockWriteSpec(l: RwLocker, kv: map<string, Entry>, key: string): (map<string, Entry>, Option<Error>) {
    WritePair(LockOptions(l), kv, Pair(key, key), l.expire)
  }

  method RedisLockerReader(l: RwLocker, key: string) returns (r: Result<string>)
    ensures l.client == null ==> r == Err(ErrClientNil)
    ensures l.client != null ==> r == LockReadSpec(l, l.client.kv, key)
  {
    var val := StringRead(LockOptions(l), Str(key));
    if val.Err? {
      return Err(val.error);
    }
    if !val.value.Str? {
      return Err(Failure("locker value type error"));
    }
    r := Ok(val.value.s);
  }

  method RedisLockerWriter(l: RwLocker, codec: Codec, key: string) returns (err: Option<Error>)
    modifies l.client
    ensures l.client == null ==> err == Some(ErrClientNil)
    ensures l.client != null ==> (l.client.kv, err) == LockWriteSpec(l, old(l.client.kv), key)
    ensures l.client != null ==> l.client.lists == old(l.client.lists)
  {
    err := Write(LockOptions(l), codec, PairVal(Pair(key, key)), l.expire);
  }

  /** The wrapped reader of a string key always answers a string, so the lock built by
      DefaultRedisLocker never produces the type error: a lock read is exactly GET prefix+key,
      with the reader's own errors. */
  lemma LockReadIsGet(l: RwLocker, kv: map<string, Entry>, key: string)
    ensures LockReadSpec(l, kv, key) == ReadString(LockOptions(l), kv, key)
    ensures l.client != null && l.prefix != "" ==> LockReadSpec(l, kv, key) == GetSpec(kv, l.client.broken, l.prefix + key)
  {
  }

  /** A lock write of `key` stores `key` under prefix + key with the lock's expiry, and
      nothing else changes. */
  lemma LockWriteStoresKey(l: RwLocker, kv: map<string, Entry>, key: string)
    requires l.client != null && l.prefix != "" && l.prefix + key !in l.client.broken
    ensures LockWriteSpec(l, kv, key) == (kv[l.prefix + key := Entry(key, l.expire)], None)
  {
  }

  /** After a successful lock write of `key`, a lock read of `key` answers `key`. */
  lemma LockWriteThenRead(l: RwLocker, kv: map<string, Entry>, key: string)
    requires l.client != null && LockWriteSpec(l, kv, key).1 == None
    ensures LockReadSpec(l, LockWriteSpec(l, kv, key).0, key) == Ok(key)
  {
  }

  /** The default lock writes its entries under the fixed prefix with the default expiry. */
  lemma DefaultLockEntry(client: Client, kv: map<string, Entry>, key: string)
    requires DefaultLockerPrefix + key !in client.broken
    ensures LockWriteSpec(DefaultRedisLocker(client), kv, key)
         == (kv["tal_jiaoyan_storage_locker_" + key := Entry(key, 200 * Millisecond)], None)
  {
  }

  /** The lock is seen as held when the read succeeds with a non-empty value. */
  predicate Held(r: Result<string>) {
    r.Ok? && r.value != ""
  }
}
