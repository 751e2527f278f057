/** scache/rediskeyvalue.go: the string-store adapters. Each is built from a RedisOptions
    record and dispatches on the shape of its argument: a Pair or []Pair (keyed by
    Prefix + Key), a string or []string (keyed by Prefix + the string), a ForEach collection
    or any other value (keyed by KeyFn, without the prefix, JSON-encoded). */
module RedisKeyValue {
  import opened Meta
  import opened Redis
  import opened Scache

  /** The error part of a result. */
  function ErrOf<T>(r: Result<T>): Option<Error> {
    if r.Err? then Some(r.error) else None
  }

  /** `acc` followed by the strings of `r`, or `r`'s error. */
  function Prepend(acc: seq<string>, r: Result<seq<string>>): Result<seq<string>> {
    match r
    case Err(e) => Err(e)
    case Ok(rest) => Ok(acc + rest)
  }

  lemma PrependAssoc(a: seq<string>, b: seq<string>, r: Result<seq<string>>)
    ensures Prepend(a, Prepend(b, r)) == Prepend(a + b, r)
  {
    if r.Ok? {
      assert a + (b + r.value) == (a + b) + r.value;
    }
  }

  lemma PrependEmpty(r: Result<seq<string>>)
    ensures Prepend([], r) == r
  {
    if r.Ok? {
      assert [] + r.value == r.value;
    }
  }

  /** strings.Join. */
  function Join(ss: seq<string>, sep: string): string {
    if ss == [] then "" else if |ss| == 1 then ss[0] else ss[0] + sep + Join(ss[1..], sep)
  }

  // ---------------------------------------------------------------- writer

  /** The []Pair loop: SET Prefix+Key for each pair in order, stopping at the first error. */
  function SetPairs(kv: map<string, Entry>, broken: set<string>, prefix: string, ps: seq<Pair>, exp: Duration)
    : (map<string, Entry>, Option<Error>)
    decreases |ps|
  {
    if ps == [] then (kv, None)
    else
      var r := SetSpec(kv, broken, prefix + ps[0].key, ps[0].value, exp);
      if r.1.Some? then r else SetPairs(r.0, broken, prefix, ps[1..], exp)
  }

  /** One value through KeyFn: derive its key, encode it, SET it (no prefix). */
  function SetValue(kv: map<string, Entry>, broken: set<string>, keyFn: KeyGen, codec: Codec, v: Value, exp: Duration)
    : (map<string, Entry>, Option<Error>)
  {
    match keyFn(v)
    case Err(e) => (kv, Some(e))
    case Ok(key) =>
      match codec.marshal(v)
      case Err(e) => (kv, Some(e))
      case Ok(text) => SetSpec(kv, broken, key, text, exp)
  }

  /** The ForEach callback over every item, stopping at the first error. */
  function SetItems(kv: map<string, Entry>, broken: set<string>, keyFn: KeyGen, codec: Codec, items: seq<Value>, exp: Duration)
    : (map<string, Entry>, Option<Error>)
    decreases |items|
  {
    if items == [] then (kv, None)
    else
      var r := SetValue(kv, broken, keyFn, codec, items[0], exp);
      if r.1.Some? then r else SetItems(r.0, broken, keyFn, codec, items[1..], exp)
  }

  /** The writer called with one Pair: SET Prefix+Key. */
  function WritePair(o: RedisOptions, kv: map<string, Entry>, p: Pair, exp: Duration): (map<string, Entry>, Option<Error>) {
    if o.client == null then (kv, Some(ErrClientNil))
    else if o.prefix == "" then (kv, Some(ErrPrefixNil))
    else SetSpec(kv, o.client.broken, o.prefix + p.key, p.value, exp)
  }

  /** The writer NewRedisKeyValueWriter returns: the new store and the error. */
  function WriteSpec(o: RedisOptions, kv: map<string, Entry>, codec: Codec, params: Value, exp: Duration)
    : (map<string, Entry>, Option<Error>)
  {
    if o.client == null then (kv, Some(ErrClientNil))
    else
      match params
      case PairVal(p) => WritePair(o, kv, p, exp)
      case Pairs(ps) =>
        if o.prefix == "" then (kv, Some(ErrPrefixNil))
        else SetPairs(kv, o.client.broken, o.prefix, ps, exp)
      case Coll(items) =>
        if o.keyFn.None? then (kv, Some(ErrKeyFnNil))
        else SetItems(kv, o.client.broken, o.keyFn.value, codec, items, exp)
      case _ =>
        if o.keyFn.None? then (kv, Some(ErrKeyFnNil))
        else SetValue(kv, o.client.broken, o.keyFn.value, codec, params, exp)
  }

  method Write(o: RedisOptions, codec: Codec, params: Value, expiration: Duration) returns (err: Option<Error>)
    modifies o.client
    ensures o.client == null ==> err == Some(ErrClientNil)
    ensures o.client != null ==> (o.client.kv, err) == WriteSpec(o, old(o.client.kv), codec, params, expiration)
    ensures o.client != null ==> o.client.lists == old(o.client.lists)
  {
    if o.client == null {
      return Some(ErrClientNil);
    }
    var c := o.client;
    match params
    case PairVal(p) =>
      if o.prefix == "" {
        return Some(ErrPrefixNil);
      }
      err := c.Set(o.prefix + p.key, p.value, expiration);
    case Pairs(ps) =>
      if o.prefix == "" {
        return Some(ErrPrefixNil);
      }
      err := None;
      var i := 0;
      while i < |ps|
        invariant 0 <= i <= |ps|
        invariant SetPairs(old(c.kv), c.broken, o.prefix, ps, expiration) == SetPairs(c.kv, c.broken, o.prefix, ps[i..], expiration)
        invariant err == None && c.lists == old(c.lists)
      {
        assert ps[i..][1..] == ps[i + 1..];
        err := c.Set(o.prefix + ps[i].key, ps[i].value, expiration);
        if err.Some? {
          return;
        }
        i := i + 1;
      }
    case Coll(items) =>
      if o.keyFn.None? {
        return Some(ErrKeyFnNil);
      }
      err := None;
      var i := 0;
      while i < |items|
        invariant 0 <= i <= |items|
        invariant SetItems(old(c.kv), c.broken, o.keyFn.value, codec, items, expiration)
               == SetItems(c.kv, c.broken, o.keyFn.value, codec, items[i..], expiration)
        invariant err == None && c.lists == old(c.lists)
      {
        assert items[i..][1..] == items[i + 1..];
        err := WriteValue(c, o.keyFn.value, codec, items[i], expiration);
        if err.Some? {
          return;
        }
        i := i + 1;
      }
    case _ =>
      if o.keyFn.None? {
        return Some(ErrKeyFnNil);
      }
      err := WriteValue(c, o.keyFn.value, codec, params, expiration);
  }

  /** The body shared by the ForEach callback and the default branch. */
  method WriteValue(c: Client, keyFn: KeyGen, codec: Codec, v: Value, exp: Duration) returns (err: Option<Error>)
    modifies c
    ensures (c.kv, err) == SetValue(old(c.kv), c.broken, keyFn, codec, v, exp)
    ensures c.lists == old(c.lists)
  {
    var key := keyFn(v);
    if key.Err? {
      return Some(key.error);
    }
    var text := codec.marshal(v);
    if text.Err? {
      return Some(text.error);
    }
    err := c.Set(key.value, text.value, exp);
  }

  /** Every writer rejects, before any command, a missing client, a Pair or []Pair without a
      prefix, and a collection or other value without a key function. */
  lemma WriteRejects(o: RedisOptions, kv: map<string, Entry>, codec: Codec, params: Value, exp: Duration)
    ensures o.client == null ==> WriteSpec(o, kv, codec, params, exp) == (kv, Some(ErrClientNil))
    ensures o.client != null && o.prefix == "" && (params.PairVal? || params.Pairs?)
            ==> WriteSpec(o, kv, codec, params, exp) == (kv, Some(ErrPrefixNil))
    ensures o.client != null && o.keyFn.None? && !(params.PairVal? || params.Pairs?)
            ==> WriteSpec(o, kv, codec, params, exp) == (kv, Some(ErrKeyFnNil))
  {
  }

  /** Writing a Pair stores its value under Prefix + Key with the given expiration, and
      nothing else changes. */
  lemma WritePairStores(o: RedisOptions, kv: map<string, Entry>, codec: Codec, p: Pair, exp: Duration)
    requires o.client != null && o.prefix != "" && o.prefix + p.key !in o.client.broken
    ensures WriteSpec(o, kv, codec, PairVal(p), exp) == (kv[o.prefix + p.key := Entry(p.value, exp)], None)
  {
  }

  /** A value written through KeyFn is stored under the generated key, without the prefix,
      as its JSON text. */
  lemma WriteValueUnprefixed(o: RedisOptions, kv: map<string, Entry>, codec: Codec, v: Value, exp: Duration)
    requires o.client != null && o.keyFn.Some? && !(v.PairVal? || v.Pairs? || v.Coll?)
    requires o.keyFn.value(v).Ok? && codec.marshal(v).Ok? && o.keyFn.value(v).value !in o.client.broken
    ensures WriteSpec(o, kv, codec, v, exp)
         == (kv[o.keyFn.value(v).value := Entry(codec.marshal(v).value, exp)], None)
  {
  }

  /** []Pair is written in order and stops at the first failure: writing `ps + [q]` is writing
      `ps`, then, only if that succeeded, q. Earlier entries stay written. */
  lemma {:induction false} SetPairsAppend(kv: map<string, Entry>, broken: set<string>, prefix: string, ps: seq<Pair>, q: Pair, exp: Duration)
    ensures SetPairs(kv, broken, prefix, ps + [q], exp)
         == (var r := SetPairs(kv, broken, prefix, ps, exp);
             if r.1.Some? then r else SetSpec(r.0, broken, prefix + q.key, q.value, exp))
    decreases |ps|
  {
    if ps == [] {
      assert ps + [q] == [q];
    } else {
      assert (ps + [q])[1..] == ps[1..] + [q];
      var r := SetSpec(kv, broken, prefix + ps[0].key, ps[0].value, exp);
      if r.1.None? {
        SetPairsAppend(r.0, broken, prefix, ps[1..], q, exp);
      }
    }
  }

  /** Pair i is the last of the batch with its key. */
  predicate LastOfKey(ps: seq<Pair>, i: int)
    requires 0 <= i < |ps|
  {
    forall j :: i < j < |ps| ==> ps[j].key != ps[i].key
  }

  /** Prefixing is injective. */
  lemma PrefixInjective(prefix: string, a: string, b: string)
    requires prefix + a == prefix + b
    ensures a == b
  {
    assert a == (prefix + a)[|prefix|..];
    assert b == (prefix + b)[|prefix|..];
  }

  /** When no key of the batch fails, the error is nil, each key of the batch holds the value
      and expiration of the last pair with that key, and every other key keeps its entry. */
  lemma {:induction false} SetPairsAllStored(kv: map<string, Entry>, broken: set<string>, prefix: string, ps: seq<Pair>, exp: Duration)
    requires forall i :: 0 <= i < |ps| ==> prefix + ps[i].key !in broken
    ensures SetPairs(kv, broken, prefix, ps, exp).1 == None
    ensures forall i :: 0 <= i < |ps| && LastOfKey(ps, i) ==>
              var r := SetPairs(kv, broken, prefix, ps, exp).0;
              prefix + ps[i].key in r && r[prefix + ps[i].key] == Entry(ps[i].value, exp)
    ensures forall k :: k in kv && (forall i :: 0 <= i < |ps| ==> k != prefix + ps[i].key) ==>
              var r := SetPairs(kv, broken, prefix, ps, exp).0;
              k in r && r[k] == kv[k]
    ensures forall k :: k in SetPairs(kv, broken, prefix, ps, exp).0 ==>
              k in kv || exists i :: 0 <= i < |ps| && k == prefix + ps[i].key
    decreases |ps|
  {
    if ps != [] {
      var k0 := prefix + ps[0].key;
      var kv1 := kv[k0 := Entry(ps[0].value, exp)];
      var r := SetPairs(kv, broken, prefix, ps, exp).0;
      SetPairsAllStored(kv1, broken, prefix, ps[1..], exp);
      assert r == SetPairs(kv1, broken, prefix, ps[1..], exp).0;
      forall i | 0 <= i < |ps| && LastOfKey(ps, i)
        ensures prefix + ps[i].key in r && r[prefix + ps[i].key] == Entry(ps[i].value, exp)
      {
        if i > 0 {
          assert ps[1..][i - 1] == ps[i];
          assert LastOfKey(ps[1..], i - 1);
        } else {
          forall j | 0 <= j < |ps[1..]|
            ensures k0 != prefix + ps[1..][j].key
          {
            assert ps[1..][j] == ps[j + 1];
            if k0 == prefix + ps[1..][j].key {
              PrefixInjective(prefix, ps[0].key, ps[j + 1].key);
            }
          }
        }
      }
      forall k | k in kv && (forall i :: 0 <= i < |ps| ==> k != prefix + ps[i].key)
        ensures k in r && r[k] == kv[k]
      {
        assert k != prefix + ps[0].key;
        forall j | 0 <= j < |ps[1..]|
          ensures k != prefix + ps[1..][j].key
        {
          assert ps[1..][j] == ps[j + 1];
        }
      }
      forall k | k in r
        ensures k in kv || exists i :: 0 <= i < |ps| && k == prefix + ps[i].key
      {
        if k !in kv1 {
          var j :| 0 <= j < |ps[1..]| && k == prefix + ps[1..][j].key;
          assert ps[1..][j] == ps[j + 1];
        } else if k == k0 {
          assert k == prefix + ps[0].key;
        }
      }
    }
  }

  // ---------------------------------------------------------------- string reader

  /** The []string loop: GET Prefix+key for each key; an absent key contributes "", any
      other error ends the read. */
  function GetStrings(kv: map<string, Entry>, broken: set<string>, prefix: string, keys: seq<string>): Result<seq<string>> {
    if keys == [] then Ok([])
    else
      var r := GetSpec(kv, broken, prefix + keys[0]);
      if r.Err? && r.error != RedisNil then Err(r.error)
      else Prepend([if r.Ok? then r.value else ""], GetStrings(kv, broken, prefix, keys[1..]))
  }

  /** The string reader called with one string: GET Prefix+key. */
  function ReadString(o: RedisOptions, kv: map<string, Entry>, k: string): Result<string> {
    if o.client == null then Err(ErrClientNil)
    else if o.prefix == "" then Err(ErrPrefixNil)
    else GetSpec(kv, o.client.broken, o.prefix + k)
  }

  /** The reader NewRedisKeyValueStringReader returns. */
  function StringReadSpec(o: RedisOptions, kv: map<string, Entry>, params: Value): Result<Value> {
    if o.client == null then Err(ErrClientNil)
    else
      match params
      case Str(k) =>
        (match ReadString(o, kv, k)
         case Err(e) => Err(e)
         case Ok(s) => Ok(Str(s)))
      case Strs(ks) =>
        if o.prefix == "" then Err(ErrPrefixNil)
        else (match GetStrings(kv, o.client.broken, o.prefix, ks)
              case Err(e) => Err(e)
              case Ok(all) => Ok(Strs(all)))
      case _ => Err(ErrKeyFormat)
  }

  method StringRead(o: RedisOptions, params: Value) returns (r: Result<Value>)
    ensures o.client == null ==> r == Err(ErrClientNil)
    ensures o.client != null ==> r == StringReadSpec(o, o.client.kv, params)
  {
    if o.client == null {
      return Err(ErrClientNil);
    }
    var c := o.client;
    match params
    case Str(k) =>
      if o.prefix == "" {
        return Err(ErrPrefixNil);
      }
      var res := c.Get(o.prefix + k);
      if res.Err? {
        return Err(res.error);
      }
      r := Ok(Str(res.value));
    case Strs(ks) =>
      if o.prefix == "" {
        return Err(ErrPrefixNil);
      }
      var all: seq<string> := [];
      var i := 0;
      assert ks[0..] == ks;
      PrependEmpty(GetStrings(c.kv, c.broken, o.prefix, ks));
      while i < |ks|
        invariant 0 <= i <= |ks|
        invariant GetStrings(c.kv, c.broken, o.prefix, ks) == Prepend(all, GetStrings(c.kv, c.broken, o.prefix, ks[i..]))
      {
        assert ks[i..][1..] == ks[i + 1..];
        var res := c.Get(o.prefix + ks[i]);
        if res.Err? && res.error != RedisNil {
          return Err(res.error);
        }
        PrependAssoc(all, [if res.Ok? then res.value else ""], GetStrings(c.kv, c.broken, o.prefix, ks[i + 1..]));
        all := all + [if res.Ok? then res.value else ""];
        i := i + 1;
      }
      assert ks[|ks|..] == [] && all + [] == all;
      r := Ok(Strs(all));
    case _ =>
      r := Err(ErrKeyFormat);
  }

  /** The value the reader reports for a key: the stored string, or "" when absent. */
  function ValueOrEmpty(kv: map<string, Entry>, key: string): string {
    if key in kv then kv[key].value else ""
  }

  /** The []string read keeps length and order, gives "" for absent keys, and fails exactly
      when one of the keys cannot be read. */
  lemma {:induction false} GetStringsShape(kv: map<string, Entry>, broken: set<string>, prefix: string, keys: seq<string>)
    ensures GetStrings(kv, broken, prefix, keys).Ok? <==> forall i :: 0 <= i < |keys| ==> prefix + keys[i] !in broken
    ensures GetStrings(kv, broken, prefix, keys).Ok? ==>
              |GetStrings(kv, broken, prefix, keys).value| == |keys| &&
              forall i :: 0 <= i < |keys| ==> GetStrings(kv, broken, prefix, keys).value[i] == ValueOrEmpty(kv, prefix + keys[i])
  {
    if keys != [] {
      GetStringsShape(kv, broken, prefix, keys[1..]);
      assert forall i :: 1 <= i < |keys| ==> keys[1..][i - 1] == keys[i];
    }
  }

  /** Only a string or []string can be read; any other key shape is a format error. */
  lemma StringReadKeyFormat(o: RedisOptions, kv: map<string, Entry>, params: Value)
    requires o.client != null && !params.Str? && !params.Strs?
    ensures StringReadSpec(o, kv, params) == Err(ErrKeyFormat)
  {
  }

  // ---------------------------------------------------------------- object reader

  /** The ForEach callback of the object reader: GET KeyFn(item) for each item; any error,
      an absent key included, ends the read. */
  function GetItems(kv: map<string, Entry>, broken: set<string>, keyFn: KeyGen, items: seq<Value>): Result<seq<string>> {
    if items == [] then Ok([])
    else
      match keyFn(items[0])
      case Err(e) => Err(e)
      case Ok(key) =>
        match GetSpec(kv, broken, key)
        case Err(e) => Err(e)
        case Ok(s) => Prepend([s], GetItems(kv, broken, keyFn, items[1..]))
  }

  /** The reader NewRedisKeyValueObjectReader returns: the value decoded into `into`. */
  function ObjectReadSpec(o: RedisOptions, kv: map<string, Entry>, codec: Codec, params: Value, into: Value): Result<Value> {
    if o.client == null then Err(ErrClientNil)
    else if o.keyFn.None? then Err(ErrKeyFnNil)
    else
      match params
      case Coll(items) =>
        (match GetItems(kv, o.client.broken, o.keyFn.value, items)
         case Err(e) => Err(e)
         case Ok(all) => codec.DecodeInto("[" + Join(all, ",") + "]", into))
      case _ =>
        match o.keyFn.value(params)
        case Err(e) => Err(e)
        case Ok(key) =>
          match GetSpec(kv, o.client.broken, key)
          case Err(e) => Err(e)
          case Ok(s) => codec.DecodeInto(s, into)
  }

  method ObjectRead(o: RedisOptions, codec: Codec, params: Value, data: Cell) returns (err: Option<Error>)
    modifies data
    ensures o.client == null ==> err == Some(ErrClientNil) && data.val == old(data.val)
    ensures o.client != null ==>
              var r := ObjectReadSpec(o, o.client.kv, codec, params, old(data.val));
              err == ErrOf(r) && data.val == (if r.Ok? then r.value else old(data.val))
  {
    if o.client == null {
      return Some(ErrClientNil);
    }
    var c := o.client;
    if o.keyFn.None? {
      return Some(ErrKeyFnNil);
    }
    var keyFn := o.keyFn.value;
    var text: string;
    match params {
    case Coll(items) =>
      var all: seq<string> := [];
      var i := 0;
      assert items[0..] == items;
      PrependEmpty(GetItems(c.kv, c.broken, keyFn, items));
      while i < |items|
        invariant 0 <= i <= |items|
        invariant GetItems(c.kv, c.broken, keyFn, items) == Prepend(all, GetItems(c.kv, c.broken, keyFn, items[i..]))
        invariant data.val == old(data.val)
      {
        assert items[i..][1..] == items[i + 1..];
        var key := keyFn(items[i]);
        if key.Err? {
          return Some(key.error);
        }
        var res := c.Get(key.value);
        if res.Err? {
          return Some(res.error);
        }
        PrependAssoc(all, [res.value], GetItems(c.kv, c.broken, keyFn, items[i + 1..]));
        all := all + [res.value];
        i := i + 1;
      }
      assert items[|items|..] == [] && all + [] == all;
      text := "[" + Join(all, ",") + "]";
    case _ =>
      var key := keyFn(params);
      if key.Err? {
        return Some(key.error);
      }
      var res := c.Get(key.value);
      if res.Err? {
        return Some(res.error);
      }
      text := res.value;
    }
    var v := codec.DecodeInto(text, data.val);
    if v.Err? {
      return Some(v.error);
    }
    data.val := v.value;
    err := None;
  }

  /** The collection read succeeds only if every item's key can be generated and is present;
      the text it decodes is then the stored values, in traversal order, joined as a JSON
      array. */
  lemma {:induction false} GetItemsAllPresent(kv: map<string, Entry>, broken: set<string>, keyFn: KeyGen, items: seq<Value>)
    ensures GetItems(kv, broken, keyFn, items).Ok? <==>
              forall i :: 0 <= i < |items| ==> keyFn(items[i]).Ok? && keyFn(items[i]).value !in broken && keyFn(items[i]).value in kv
    ensures GetItems(kv, broken, keyFn, items).Ok? ==>
              |GetItems(kv, broken, keyFn, items).value| == |items| &&
              forall i :: 0 <= i < |items| ==> GetItems(kv, broken, keyFn, items).value[i] == kv[keyFn(items[i]).value].value
  {
    if items != [] {
      GetItemsAllPresent(kv, broken, keyFn, items[1..]);
      assert forall i :: 1 <= i < |items| ==> items[1..][i - 1] == items[i];
    }
  }

  /** A collection with an absent key is never decoded: the read fails. */
  lemma ObjectReadMissingKey(o: RedisOptions, kv: map<string, Entry>, codec: Codec, items: seq<Value>, into: Value, j: int)
    requires o.client != null && o.keyFn.Some? && 0 <= j < |items|
    requires o.keyFn.value(items[j]).Ok? && o.keyFn.value(items[j]).value !in kv
    ensures ObjectReadSpec(o, kv, codec, Coll(items), into).Err?
  {
    GetItemsAllPresent(kv, o.client.broken, o.keyFn.value, items);
  }

  // ---------------------------------------------------------------- deleter

  /** Prefix + each key, in order. */
  function PrefixAll(prefix: string, ks: seq<string>): (r: seq<string>)
    ensures |r| == |ks| && forall i :: 0 <= i < |ks| ==> r[i] == prefix + ks[i]
  {
    if ks == [] then [] else [prefix + ks[0]] + PrefixAll(prefix, ks[1..])
  }

  /** The ForEach callback of the deleter: KeyFn of each item, stopping at the first error. */
  function CollectKeys(keyFn: KeyGen, items: seq<Value>): Result<seq<string>> {
    if items == [] then Ok([])
    else
      match keyFn(items[0])
      case Err(e) => Err(e)
      case Ok(key) => Prepend([key], CollectKeys(keyFn, items[1..]))
  }

  /** The deleter NewRedisKeyValueDeleter returns. */
  function DeleteSpec(o: RedisOptions, kv: map<string, Entry>, params: Value): (map<string, Entry>, Option<Error>) {
    if o.client == null then (kv, Some(ErrClientNil))
    else
      match params
      case Str(k) =>
        if o.prefix == "" then (kv, Some(ErrPrefixNil)) else DelSpec(kv, o.client.broken, [o.prefix + k])
      case Strs(ks) =>
        if o.prefix == "" then (kv, Some(ErrPrefixNil)) else DelSpec(kv, o.client.broken, PrefixAll(o.prefix, ks))
      case Coll(items) =>
        if o.keyFn.None? then (kv, Some(ErrKeyFnNil))
        else (match CollectKeys(o.keyFn.value, items)
              case Err(e) => (kv, Some(e))
              case Ok(keys) => DelSpec(kv, o.client.broken, keys))
      case _ =>
        if o.keyFn.None? then (kv, Some(ErrKeyFnNil))
        else (match o.keyFn.value(params)
              case Err(e) => (kv, Some(e))
              case Ok(key) => DelSpec(kv, o.client.broken, [key]))
  }

  /** The deleter called with a []string: it first rewrites the caller's slice in place,
      prefixing every element, then deletes exactly those keys. */
  method DeleteStrings(o: RedisOptions, vals: array<string>) returns (err: Option<Error>)
    modifies vals, o.client
    ensures o.client == null ==> err == Some(ErrClientNil) && vals[..] == old(vals[..])
    ensures o.client != null ==> (o.client.kv, err) == DeleteSpec(o, old(o.client.kv), Strs(old(vals[..])))
    ensures o.client != null ==> o.client.lists == old(o.client.lists)
    ensures o.client != null && o.prefix != "" ==> vals[..] == PrefixAll(o.prefix, old(vals[..]))
    ensures o.prefix == "" ==> vals[..] == old(vals[..])
  {
    if o.client == null {
      return Some(ErrClientNil);
    }
    if o.prefix == "" {
      return Some(ErrPrefixNil);
    }
    var i := 0;
    while i < vals.Length
      modifies vals
      invariant 0 <= i <= vals.Length
      invariant forall j :: 0 <= j < i ==> vals[j] == o.prefix + old(vals[j])
      invariant forall j :: i <= j < vals.Length ==> vals[j] == old(vals[j])
    {
      vals[i] := o.prefix + vals[i];
      i := i + 1;
    }
    assert vals[..] == PrefixAll(o.prefix, old(vals[..]));
    err := o.client.Del(vals[..]);
  }

  method Delete(o: RedisOptions, params: Value) returns (err: Option<Error>)
    modifies o.client
    ensures o.client == null ==> err == Some(ErrClientNil)
    ensures o.client != null ==> (o.client.kv, err) == DeleteSpec(o, old(o.client.kv), params)
    ensures o.client != null ==> o.client.lists == old(o.client.lists)
  {
    if o.client == null {
      return Some(ErrClientNil);
    }
    var c := o.client;
    match params
    case Str(k) =>
      if o.prefix == "" {
        return Some(ErrPrefixNil);
      }
      err := c.Del([o.prefix + k]);
    case Strs(ks) =>
      var slice := new string[|ks|](i requires 0 <= i < |ks| => ks[i]);
      assert slice[..] == ks;
      err := DeleteStrings(o, slice);
    case Coll(items) =>
      if o.keyFn.None? {
        return Some(ErrKeyFnNil);
      }
      var keys: seq<string> := [];
      var i := 0;
      assert items[0..] == items;
      PrependEmpty(CollectKeys(o.keyFn.value, items));
      while i < |items|
        invariant 0 <= i <= |items|
        invariant CollectKeys(o.keyFn.value, items) == Prepend(keys, CollectKeys(o.keyFn.value, items[i..]))
        invariant c.kv == old(c.kv) && c.lists == old(c.lists)
      {
        assert items[i..][1..] == items[i + 1..];
        var key := o.keyFn.value(items[i]);
        if key.Err? {
          return Some(key.error);
        }
        PrependAssoc(keys, [key.value], CollectKeys(o.keyFn.value, items[i + 1..]));
        keys := keys + [key.value];
        i := i + 1;
      }
      assert items[|items|..] == [] && keys + [] == keys;
      err := c.Del(keys);
    case _ =>
      if o.keyFn.None? {
        return Some(ErrKeyFnNil);
      }
      var key := o.keyFn.value(params);
      if key.Err? {
        return Some(key.error);
      }
      err := c.Del([key.value]);
  }

  /** Deleting a []string removes exactly Prefix + each element; every other key keeps its entry. */
  lemma DeleteStringsExact(o: RedisOptions, kv: map<string, Entry>, ks: seq<string>)
    requires o.client != null && o.prefix != "" && ks != []
    requires forall i :: 0 <= i < |ks| ==> o.prefix + ks[i] !in o.client.broken
    ensures DeleteSpec(o, kv, Strs(ks)).1 == None
    ensures forall k :: k in DeleteSpec(o, kv, Strs(ks)).0 <==> k in kv && k !in PrefixAll(o.prefix, ks)
    ensures forall k :: k in DeleteSpec(o, kv, Strs(ks)).0 ==> DeleteSpec(o, kv, Strs(ks)).0[k] == kv[k]
  {
    var keys := PrefixAll(o.prefix, ks);
    assert !AnyBroken(keys, o.client.broken);
  }
}
