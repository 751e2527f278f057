/** scache/redislist.go: the list adapters. The writer pushes to the tail of a list chosen by
    the argument's shape; the readers pop the head of list `Prefix`. Every command is
    reported to the logging callback, when there is one, with its own error. */
module RedisList {
  import opened Meta
  import opened Redis
  import opened Scache

  /** The lists after a write, its error, and the commands it reported, in order. */
  datatype PushOut = PushOut(lists: map<string, seq<string>>, err: Option<Error>, log: seq<LogCall<Command>>)

  /** `out` preceded by the log records `pre`. */
  function After(pre: seq<LogCall<Command>>, out: PushOut): PushOut {
    out.(log := pre + out.log)
  }

  lemma AfterAssoc(a: seq<LogCall<Command>>, b: seq<LogCall<Command>>, out: PushOut)
    ensures After(a, After(b, out)) == After(a + b, out)
  {
    assert a + (b + out.log) == (a + b) + out.log;
  }

  lemma AfterEmpty(out: PushOut)
    ensures After([], out) == out
  {
    assert [] + out.log == out.log;
  }

  /** One RPUSH and the record it logs. */
  function Push(lists: map<string, seq<string>>, broken: set<string>, key: string, vals: seq<string>): PushOut {
    var r := RPushSpec(lists, broken, key, vals);
    PushOut(r.0, r.1, [LogCall(RPushCmd(key, vals), r.1)])
  }

  /** The []Pair loop: one RPUSH per pair to list Prefix+Key, stopping at the first error. */
  function PushPairs(lists: map<string, seq<string>>, broken: set<string>, prefix: string, ps: seq<Pair>): PushOut
    decreases |ps|
  {
    if ps == [] then PushOut(lists, None, [])
    else
      var r := Push(lists, broken, prefix + ps[0].key, [ps[0].value]);
      if r.err.Some? then r else After(r.log, PushPairs(r.lists, broken, prefix, ps[1..]))
  }

  /** One value through KeyFn: derive its list, encode it, push it. A key or encoding error
      ends the call before any command. */
  function PushValue(lists: map<string, seq<string>>, broken: set<string>, keyFn: KeyGen, codec: Codec, v: Value): PushOut {
    match keyFn(v)
    case Err(e) => PushOut(lists, Some(e), [])
    case Ok(key) =>
      match codec.marshal(v)
      case Err(e) => PushOut(lists, Some(e), [])
      case Ok(text) => Push(lists, broken, key, [text])
  }

  /** The ForEach callback over every item, stopping at the first error. */
  function PushItems(lists: map<string, seq<string>>, broken: set<string>, keyFn: KeyGen, codec: Codec, items: seq<Value>): PushOut
    decreases |items|
  {
    if items == [] then PushOut(lists, None, [])
    else
      var r := PushValue(lists, broken, keyFn, codec, items[0]);
      if r.err.Some? then r else After(r.log, PushItems(r.lists, broken, keyFn, codec, items[1..]))
  }

  /** The writer NewRedisListWriter returns. */
  function ListWriteSpec(o: RedisOptions, lists: map<string, seq<string>>, codec: Codec, params: Value): PushOut {
    if o.client == null then PushOut(lists, Some(ErrClientNil), [])
    else
      match params
      case Str(s) => Push(lists, o.client.broken, o.prefix, [s])
      case Strs(ss) => Push(lists, o.client.broken, o.prefix, ss)
      case PairVal(p) => Push(lists, o.client.broken, o.prefix + p.key, [p.value])
      case Pairs(ps) => PushPairs(lists, o.client.broken, o.prefix, ps)
      case Coll(items) =>
        if o.keyFn.None? then PushOut(lists, Some(ErrKeyFnNil), [])
        else PushItems(lists, o.client.broken, o.keyFn.value, codec, items)
      case _ =>
        if o.keyFn.None? then PushOut(lists, Some(ErrKeyFnNil), [])
        else PushValue(lists, o.client.broken, o.keyFn.value, codec, params)
  }

  /** One RPUSH, logged. */
  method PushLogged(c: Client, logger: ExecLog?<Command>, key: string, vals: seq<string>) returns (err: Option<Error>)
    modifies c, logger
    ensures var r := Push(old(c.lists), c.broken, key, vals);
            c.lists == r.lists && err == r.err && c.kv == old(c.kv)
    ensures logger != null ==> logger.calls == old(logger.calls) + Push(old(c.lists), c.broken, key, vals).log
  {
    err := c.RPush(key, vals);
    if logger != null {
      logger.Log(RPushCmd(key, vals), err);
    }
  }

  method ListWrite(o: RedisOptions, codec: Codec, params: Value) returns (err: Option<Error>)
    modifies o.client, o.execLogFn
    ensures o.client == null ==> err == Some(ErrClientNil)
    ensures o.client != null ==>
              var r := ListWriteSpec(o, old(o.client.lists), codec, params);
              o.client.lists == r.lists && err == r.err && o.client.kv == old(o.client.kv)
    ensures o.client != null && o.execLogFn != null ==>
              o.execLogFn.calls == old(o.execLogFn.calls) + ListWriteSpec(o, old(o.client.lists), codec, params).log
    ensures o.client == null && o.execLogFn != null ==> o.execLogFn.calls == old(o.execLogFn.calls)
  {
    if o.client == null {
      return Some(ErrClientNil);
    }
    var c, logger := o.client, o.execLogFn;
    match params
    case Str(s) =>
      err := PushLogged(c, logger, o.prefix, [s]);
    case Strs(ss) =>
      err := PushLogged(c, logger, o.prefix, ss);
    case PairVal(p) =>
      err := PushLogged(c, logger, o.prefix + p.key, [p.value]);
    case Pairs(ps) =>
      err := PushPairsLogged(c, logger, o.prefix, ps);
    case Coll(items) =>
      if o.keyFn.None? {
        return Some(ErrKeyFnNil);
      }
      err := PushItemsLogged(c, logger, o.keyFn.value, codec, items);
    case _ =>
      if o.keyFn.None? {
        return Some(ErrKeyFnNil);
      }
      err := PushValueLogged(c, logger, o.keyFn.value, codec, params);
  }

  /** The []Pair loop, logged. */
  method PushPairsLogged(c: Client, logger: ExecLog?<Command>, prefix: string, ps: seq<Pair>) returns (err: Option<Error>)
    modifies c, logger
    ensures var r := PushPairs(old(c.lists), c.broken, prefix, ps);
            c.lists == r.lists && err == r.err && c.kv == old(c.kv)
    ensures logger != null ==> logger.calls == old(logger.calls) + PushPairs(old(c.lists), c.broken, prefix, ps).log
  {
    ghost var done: seq<LogCall<Command>> := [];
    AfterEmpty(PushPairs(c.lists, c.broken, prefix, ps));
    assert ps[0..] == ps;
    err := None;
    var i := 0;
    while i < |ps|
      invariant 0 <= i <= |ps| && err == None
      invariant PushPairs(old(c.lists), c.broken, prefix, ps) == After(done, PushPairs(c.lists, c.broken, prefix, ps[i..]))
      invariant c.kv == old(c.kv)
      invariant logger != null ==> logger.calls == old(logger.calls) + done
    {
      assert ps[i..][1..] == ps[i + 1..];
      ghost var step := Push(c.lists, c.broken, prefix + ps[i].key, [ps[i].value]);
      assert PushPairs(c.lists, c.broken, prefix, ps[i..])
          == if step.err.Some? then step else After(step.log, PushPairs(step.lists, c.broken, prefix, ps[i + 1..]));
      err := PushLogged(c, logger, prefix + ps[i].key, [ps[i].value]);
      if err.Some? {
        return;
      }
      AfterAssoc(done, step.log, PushPairs(c.lists, c.broken, prefix, ps[i + 1..]));
      done := done + step.log;
      i := i + 1;
    }
    assert ps[|ps|..] == [] && done + [] == done;
  }

  /** The ForEach loop of the writer, logged. */
  method PushItemsLogged(c: Client, logger: ExecLog?<Command>, keyFn: KeyGen, codec: Codec, items: seq<Value>) returns (err: Option<Error>)
    modifies c, logger
    ensures var r := PushItems(old(c.lists), c.broken, keyFn, codec, items);
            c.lists == r.lists && err == r.err && c.kv == old(c.kv)
    ensures logger != null ==> logger.calls == old(logger.calls) + PushItems(old(c.lists), c.broken, keyFn, codec, items).log
  {
    ghost var done: seq<LogCall<Command>> := [];
    AfterEmpty(PushItems(c.lists, c.broken, keyFn, codec, items));
    assert items[0..] == items;
    err := None;
    var i := 0;
    while i < |items|
      invariant 0 <= i <= |items| && err == None
      invariant PushItems(old(c.lists), c.broken, keyFn, codec, items) == After(done, PushItems(c.lists, c.broken, keyFn, codec, items[i..]))
      invariant c.kv == old(c.kv)
      invariant logger != null ==> logger.calls == old(logger.calls) + done
    {
      assert items[i..][1..] == items[i + 1..];
      ghost var step := PushValue(c.lists, c.broken, keyFn, codec, items[i]);
      assert PushItems(c.lists, c.broken, keyFn, codec, items[i..])
          == if step.err.Some? then step else After(step.log, PushItems(step.lists, c.broken, keyFn, codec, items[i + 1..]));
      err := PushValueLogged(c, logger, keyFn, codec, items[i]);
      if err.Some? {
        return;
      }
      AfterAssoc(done, step.log, PushItems(c.lists, c.broken, keyFn, codec, items[i + 1..]));
      done := done + step.log;
      i := i + 1;
    }
    assert items[|items|..] == [] && done + [] == done;
  }

  /** The body shared by the ForEach callback and the default branch. */
  method PushValueLogged(c: Client, logger: ExecLog?<Command>, keyFn: KeyGen, codec: Codec, v: Value) returns (err: Option<Error>)
    modifies c, logger
    ensures var r := PushValue(old(c.lists), c.broken, keyFn, codec, v);
            c.lists == r.lists && err == r.err && c.kv == old(c.kv)
    ensures logger != null ==> logger.calls == old(logger.calls) + PushValue(old(c.lists), c.broken, keyFn, codec, v).log
  {
    var key := keyFn(v);
    if key.Err? {
      return Some(key.error);
    }
    var text := codec.marshal(v);
    if text.Err? {
      return Some(text.error);
    }
    err := PushLogged(c, logger, key.value, [text.value]);
  }

  /** Without a client nothing is pushed or logged; a collection or other value needs a
      key function. */
  lemma ListWriteRejects(o: RedisOptions, lists: map<string, seq<string>>, codec: Codec, params: Value)
    ensures o.client == null ==> ListWriteSpec(o, lists, codec, params) == PushOut(lists, Some(ErrClientNil), [])
    ensures o.client != null && o.keyFn.None? && !(params.Str? || params.Strs? || params.PairVal? || params.Pairs?)
            ==> ListWriteSpec(o, lists, codec, params) == PushOut(lists, Some(ErrKeyFnNil), [])
  {
  }

  /** A string or []string goes to the tail of list Prefix, in order, in one push that is
      logged once; a Pair goes to list Prefix+Key. */
  lemma ListWriteTail(o: RedisOptions, lists: map<string, seq<string>>, codec: Codec, params: Value)
    requires o.client != null && (params.Str? || (params.Strs? && params.ss != []) || params.PairVal?)
    requires (if params.PairVal? then o.prefix + params.pair.key else o.prefix) !in o.client.broken
    ensures var key := if params.PairVal? then o.prefix + params.pair.key else o.prefix;
            var vals := if params.Str? then [params.s] else if params.Strs? then params.ss else [params.pair.value];
            var r := ListWriteSpec(o, lists, codec, params);
            r.err == None && r.lists == lists[key := ListOf(lists, key) + vals] &&
            r.log == [LogCall(RPushCmd(key, vals), None)]
  {
  }

  /** []Pair pushes in order and stops at the first error: pushing `ps + [q]` is pushing `ps`,
      then, only if that succeeded, q; the log grows by exactly the commands issued. */
  lemma {:induction false} PushPairsAppend(lists: map<string, seq<string>>, broken: set<string>, prefix: string, ps: seq<Pair>, q: Pair)
    ensures PushPairs(lists, broken, prefix, ps + [q])
         == (var r := PushPairs(lists, broken, prefix, ps);
             if r.err.Some? then r else After(r.log, Push(r.lists, broken, prefix + q.key, [q.value])))
    decreases |ps|
  {
    if ps == [] {
      assert ps + [q] == [q];
      AfterEmpty(Push(lists, broken, prefix + q.key, [q.value]));
      var s := Push(lists, broken, prefix + q.key, [q.value]);
      if s.err.None? {
        assert [q][1..] == [];
        assert s.log + [] == s.log;
      }
    } else {
      assert (ps + [q])[1..] == ps[1..] + [q];
      var r := Push(lists, broken, prefix + ps[0].key, [ps[0].value]);
      if r.err.None? {
        PushPairsAppend(r.lists, broken, prefix, ps[1..], q);
        var rest := PushPairs(r.lists, broken, prefix, ps[1..]);
        if rest.err.None? {
          AfterAssoc(r.log, rest.log, Push(rest.lists, broken, prefix + q.key, [q.value]));
        }
      }
    }
  }

  /** Every command of a write is logged once, and the write's error is the error of the last
      command logged. */
  lemma {:induction false} PushPairsLogsEachCommand(lists: map<string, seq<string>>, broken: set<string>, prefix: string, ps: seq<Pair>)
    ensures var r := PushPairs(lists, broken, prefix, ps);
            |r.log| <= |ps| && (r.err.Some? ==> r.log != [] && r.log[|r.log| - 1].err == r.err)
    ensures var r := PushPairs(lists, broken, prefix, ps);
            r.err.None? ==> |r.log| == |ps| && forall i :: 0 <= i < |ps| ==> r.log[i] == LogCall(RPushCmd(prefix + ps[i].key, [ps[i].value]), None)
    decreases |ps|
  {
    if ps != [] {
      var r := Push(lists, broken, prefix + ps[0].key, [ps[0].value]);
      if r.err.None? {
        PushPairsLogsEachCommand(r.lists, broken, prefix, ps[1..]);
        assert forall i :: 1 <= i < |ps| ==> ps[1..][i - 1] == ps[i];
      }
    }
  }

  // ---------------------------------------------------------------- readers

  /** The lists after a pop, what it returns, and the command it reported. */
  datatype PopOut = PopOut(lists: map<string, seq<string>>, res: Result<string>, log: seq<LogCall<Command>>)

  /** The reader NewRedisListStringReader returns: LPOP Prefix; a missing list is ("", nil). */
  function ListPopSpec(o: RedisOptions, lists: map<string, seq<string>>): PopOut {
    if o.client == null then PopOut(lists, Err(ErrClientNil), [])
    else
      var r := LPopSpec(lists, o.client.broken, o.prefix);
      var logged := [LogCall(LPopCmd(o.prefix), if r.1.Err? then Some(r.1.error) else None)];
      if r.1.Err? && r.1.error == RedisNil then PopOut(r.0, Ok(""), logged)
      else PopOut(r.0, r.1, logged)
  }

  method ListStringRead(o: RedisOptions) returns (r: Result<string>)
    modifies o.client, o.execLogFn
    ensures o.client == null ==> r == Err(ErrClientNil)
    ensures o.client != null ==>
              var p := ListPopSpec(o, old(o.client.lists));
              o.client.lists == p.lists && r == p.res && o.client.kv == old(o.client.kv)
    ensures o.client != null && o.execLogFn != null ==>
              o.execLogFn.calls == old(o.execLogFn.calls) + ListPopSpec(o, old(o.client.lists)).log
    ensures o.client == null && o.execLogFn != null ==> o.execLogFn.calls == old(o.execLogFn.calls)
  {
    if o.client == null {
      return Err(ErrClientNil);
    }
    var elem := o.client.LPop(o.prefix);
    if o.execLogFn != null {
      o.execLogFn.Log(LPopCmd(o.prefix), if elem.Err? then Some(elem.error) else None);
    }
    if elem.Err? && elem.error == RedisNil {
      return Ok("");
    }
    r := elem;
  }

  /** The reader NewRedisListObjectReader returns: pop, then decode into `data` unless the
      element is "". */
  method ListObjectRead(o: RedisOptions, codec: Codec, data: Cell) returns (err: Option<Error>)
    modifies o.client, o.execLogFn, data
    ensures o.client == null ==> err == Some(ErrClientNil) && data.val == old(data.val)
    ensures o.client != null ==>
              var p := ListPopSpec(o, old(o.client.lists));
              o.client.lists == p.lists && o.client.kv == old(o.client.kv) &&
              (p.res.Err? ==> err == Some(p.res.error) && data.val == old(data.val)) &&
              (p.res == Ok("") ==> err == None && data.val == old(data.val)) &&
              (p.res.Ok? && p.res.value != "" ==>
                 var d := codec.DecodeInto(p.res.value, old(data.val));
                 err == (if d.Err? then Some(d.error) else None) && data.val == (if d.Ok? then d.value else old(data.val)))
    ensures o.execLogFn != null ==>
              o.execLogFn.calls == old(o.execLogFn.calls) + (if o.client == null then [] else ListPopSpec(o, old(o.client.lists)).log)
  {
    var elem := ListStringRead(o);
    if elem.Err? {
      return Some(elem.error);
    }
    if elem.value == "" {
      return None;
    }
    var d := codec.DecodeInto(elem.value, data.val);
    if d.Err? {
      return Some(d.error);
    }
    data.val := d.value;
    err := None;
  }

  /** A push appends to the tail of its list and leaves every other list alone. */
  lemma PushAppendsToTail(lists: map<string, seq<string>>, broken: set<string>, key: string, vals: seq<string>, other: string)
    requires vals != [] && key !in broken
    ensures ListOf(Push(lists, broken, key, vals).lists, key) == ListOf(lists, key) + vals
    ensures other != key ==> ListOf(Push(lists, broken, key, vals).lists, other) == ListOf(lists, other)
  {
  }

  /** A pop removes and returns the head of list Prefix; an empty list yields "" and stays
      empty. */
  lemma PopTakesHead(o: RedisOptions, lists: map<string, seq<string>>)
    requires o.client != null && o.prefix !in o.client.broken
    ensures var p := ListPopSpec(o, lists);
            var l := ListOf(lists, o.prefix);
            (l == [] ==> p.res == Ok("") && ListOf(p.lists, o.prefix) == []) &&
            (l != [] ==> p.res == Ok(l[0]) && ListOf(p.lists, o.prefix) == l[1..])
  {
  }

  /** First in, first out: "t1" pushed alone and then ["t2", "t3"] pushed together come back
      as "t1", "t2", "t3", and a fourth pop finds the list empty. */
  lemma FifoOrder(o: RedisOptions, lists: map<string, seq<string>>, codec: Codec)
    requires o.client != null && o.prefix !in o.client.broken && o.prefix !in lists
    ensures var w1 := ListWriteSpec(o, lists, codec, Str("t1"));
            var w2 := ListWriteSpec(o, w1.lists, codec, Strs(["t2", "t3"]));
            var p1 := ListPopSpec(o, w2.lists);
            var p2 := ListPopSpec(o, p1.lists);
            var p3 := ListPopSpec(o, p2.lists);
            var p4 := ListPopSpec(o, p3.lists);
            w1.err == None && w2.err == None &&
            p1.res == Ok("t1") && p2.res == Ok("t2") && p3.res == Ok("t3") && p4.res == Ok("")
  {
    var w1 := ListWriteSpec(o, lists, codec, Str("t1"));
    assert ListOf(w1.lists, o.prefix) == ["t1"];
    var w2 := ListWriteSpec(o, w1.lists, codec, Strs(["t2", "t3"]));
    assert ListOf(w2.lists, o.prefix) == ["t1", "t2", "t3"];
    var p1 := ListPopSpec(o, w2.lists);
    assert ListOf(p1.lists, o.prefix) == ["t2", "t3"];
    var p2 := ListPopSpec(o, p1.lists);
    assert ListOf(p2.lists, o.prefix) == ["t3"];
    var p3 := ListPopSpec(o, p2.lists);
    assert ListOf(p3.lists, o.prefix) == [];
  }
}
