/** The Redis server the adapters talk to through go-redis. It is an external collaborator:
    a string store with expiries, a store of lists, and a fixed set of keys whose commands
    fail (standing for transport or server errors). Expiry is kept as data; no clock runs. */
module Redis {
  import opened Meta

  /** A string value and the expiration it was SET with. */
  datatype Entry = Entry(value: string, ttl: Duration)

  /** A command as a logging callback sees it (`cmd.String()`). */
  datatype Command = RPushCmd(key: string, vals: seq<string>) | LPopCmd(key: string)

  /** GET key. */
  function GetSpec(kv: map<string, Entry>, broken: set<string>, key: string): Result<string> {
    if key in broken then Err(Backend(key))
    else if key in kv then Ok(kv[key].value)
    else Err(RedisNil)
  }

  /** SET key value EX ttl. */
  function SetSpec(kv: map<string, Entry>, broken: set<string>, key: string, value: string, ttl: Duration)
    : (map<string, Entry>, Option<Error>)
  {
    if key in broken then (kv, Some(Backend(key)))
    else (kv[key := Entry(value, ttl)], None)
  }

  /** The error Redis answers to a variadic command called with no arguments. */
  function Arity(cmd: string): Error {
    Failure("ERR wrong number of arguments for '" + cmd + "' command")
  }

  /** Some key of `keys` is one whose commands fail. */
  predicate AnyBroken(keys: seq<string>, broken: set<string>) {
    exists k :: k in keys && k in broken
  }

  /** DEL key... */
  function DelSpec(kv: map<string, Entry>, broken: set<string>, keys: seq<string>)
    : (map<string, Entry>, Option<Error>)
  {
    if keys == [] then (kv, Some(Arity("del")))
    else if AnyBroken(keys, broken) then (kv, Some(Backend(keys[0])))
    else (kv - (set k | k in keys), None)
  }

  /** RPUSH key val...: append to the tail. */
  function RPushSpec(lists: map<string, seq<string>>, broken: set<string>, key: string, vals: seq<string>)
    : (map<string, seq<string>>, Option<Error>)
  {
    if vals == [] then (lists, Some(Arity("rpush")))
    else if key in broken then (lists, Some(Backend(key)))
    else (lists[key := (if key in lists then lists[key] else []) + vals], None)
  }

  /** LPOP key: remove and return the head; Redis drops a list that becomes empty. */
  function LPopSpec(lists: map<string, seq<string>>, broken: set<string>, key: string)
    : (map<string, seq<string>>, Result<string>)
  {
    if key in broken then (lists, Err(Backend(key)))
    else if key !in lists || lists[key] == [] then (lists, Err(RedisNil))
    else if |lists[key]| == 1 then (lists - {key}, Ok(lists[key][0]))
    else (lists[key := lists[key][1..]], Ok(lists[key][0]))
  }

  /** The content of list `key` (a missing list reads as empty). */
  function ListOf(lists: map<string, seq<string>>, key: string): seq<string> {
    if key in lists then lists[key] else []
  }

  class Client {
    var kv: map<string, Entry>
    var lists: map<string, seq<string>>
    const broken: set<string>

    constructor (broken: set<string>)
      ensures kv == map[] && lists == map[] && this.broken == broken
    {
      kv, lists := map[], map[];
      this.broken := broken;
    }

    method Get(key: string) returns (r: Result<string>)
      ensures r == GetSpec(kv, broken, key)
    {
      if key in broken {
        r := Err(Backend(key));
      } else if key in kv {
        r := Ok(kv[key].value);
      } else {
        r := Err(RedisNil);
      }
    }

    method Set(key: string, value: string, ttl: Duration) returns (err: Option<Error>)
      modifies this
      ensures (kv, err) == SetSpec(old(kv), broken, key, value, ttl)
      ensures lists == old(lists)
    {
      if key in broken {
        err := Some(Backend(key));
      } else {
        kv := kv[key := Entry(value, ttl)];
        err := None;
      }
    }

    method Del(keys: seq<string>) returns (err: Option<Error>)
      modifies this
      ensures (kv, err) == DelSpec(old(kv), broken, keys)
      ensures lists == old(lists)
    {
      if keys == [] {
        err := Some(Arity("del"));
      } else if AnyBroken(keys, broken) {
        err := Some(Backend(keys[0]));
      } else {
        kv := kv - (set k | k in keys);
        err := None;
      }
    }

    method RPush(key: string, vals: seq<string>) returns (err: Option<Error>)
      modifies this
      ensures (lists, err) == RPushSpec(old(lists), broken, key, vals)
      ensures kv == old(kv)
    {
      var r := RPushSpec(lists, broken, key, vals);
      lists, err := r.0, r.1;
    }

    method LPop(key: string) returns (r: Result<string>)
      modifies this
      ensures (lists, r) == LPopSpec(old(lists), broken, key)
      ensures kv == old(kv)
    {
      var p := LPopSpec(lists, broken, key);
      lists, r := p.0, p.1;
    }

    /** While a caller sleeps between retries, other callers' SETs become visible. */
    method Interleave(arrived: map<string, Entry>)
      modifies this
      ensures kv == old(kv) + arrived && lists == old(lists)
    {
      kv := kv + arrived;
    }
  }
}
