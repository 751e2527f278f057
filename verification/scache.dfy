/** scache/scache.go: the options record every Redis adapter is built from, its option
    handlers, the logging helper and the sentinel errors. */
module Scache {
  import opened Meta
  import opened Redis

  /** RedisKeyGenerator: derives the Redis key of a value, or fails. */
  type KeyGen = Value -> Result<string>

  /** RedisOptions. A nil key generator is `None`; a nil client or logger is `null`. */
  datatype RedisOptions = RedisOptions(keyFn: Option<KeyGen>, prefix: string, client: Client?, execLogFn: ExecLog?<Command>)

  const ErrClientNil: Error := Failure("redis client is nil")
  const ErrKeyFnNil: Error := Failure("key generater is nil")
  const ErrPrefixNil: Error := Failure("key prefix is nil")
  const ErrKeyGenerate: Error := Failure("key generate error")
  const ErrKeyFormat: Error := Failure("key format error")

  /** The five sentinel errors, in declaration order. */
  function Sentinels(): seq<Error> {
    [ErrClientNil, ErrKeyFnNil, ErrPrefixNil, ErrKeyGenerate, ErrKeyFormat]
  }

  /** The sentinel errors are five distinct values. */
  lemma SentinelsDistinct()
    ensures |Sentinels()| == 5
    ensures forall i, j :: 0 <= i < j < |Sentinels()| ==> Sentinels()[i] != Sentinels()[j]
  {
  }

  /** DefaultRedisOptions: the zero record. */
  function DefaultRedisOptions(): (o: RedisOptions)
    ensures o.keyFn.None? && o.prefix == "" && o.client == null && o.execLogFn == null
  {
    RedisOptions(None, "", null, null)
  }

  /** A RedisOptionHandler as returned by WithKeyFn, WithClient, WithPrefix, WithExecLogger. */
  datatype RedisOption =
    | WithKeyFn(fn: Option<KeyGen>)
    | WithClient(c: Client?)
    | WithPrefix(pre: string)
    | WithExecLogger(log: ExecLog?<Command>)

  datatype Field = KeyFnField | PrefixField | ClientField | ExecLogField

  function Target(h: RedisOption): Field {
    match h
    case WithKeyFn(_) => KeyFnField
    case WithClient(_) => ClientField
    case WithPrefix(_) => PrefixField
    case WithExecLogger(_) => ExecLogField
  }

  ghost predicate SameOn(f: Field, a: RedisOptions, b: RedisOptions) {
    match f
    case KeyFnField => a.keyFn == b.keyFn
    case PrefixField => a.prefix == b.prefix
    case ClientField => a.client == b.client
    case ExecLogField => a.execLogFn == b.execLogFn
  }

  /** The body of the closure a handler stands for: `hand(&opts)`. */
  function Apply(h: RedisOption, o: RedisOptions): RedisOptions {
    match h
    case WithKeyFn(fn) => o.(keyFn := fn)
    case WithClient(c) => o.(client := c)
    case WithPrefix(pre) => o.(prefix := pre)
    case WithExecLogger(log) => o.(execLogFn := log)
  }

  /** Each handler assigns exactly its own field. */
  lemma ApplyChangesOneField(h: RedisOption, o: RedisOptions, f: Field)
    ensures f != Target(h) ==> SameOn(f, Apply(h, o), o)
    ensures h.WithPrefix? ==> Apply(h, o).prefix == h.pre
    ensures h.WithClient? ==> Apply(h, o).client == h.c
    ensures h.WithExecLogger? ==> Apply(h, o).execLogFn == h.log
    ensures h.WithKeyFn? ==> Apply(h, o).keyFn == h.fn
  {
  }

  /** `o` after the handlers are applied from left to right. */
  function Configured(hands: seq<RedisOption>, o: RedisOptions): RedisOptions {
    if hands == [] then o else Apply(hands[|hands| - 1], Configured(hands[..|hands| - 1], o))
  }

  /** The option loop at the head of every adapter constructor: defaults, then each handler. */
  method Configure(hands: seq<RedisOption>) returns (o: RedisOptions)
    ensures o == Configured(hands, DefaultRedisOptions())
  {
    o := DefaultRedisOptions();
    var i := 0;
    while i < |hands|
      invariant 0 <= i <= |hands|
      invariant o == Configured(hands[..i], DefaultRedisOptions())
    {
      assert hands[..i + 1][..i] == hands[..i];
      o := Apply(hands[i], o);
      i := i + 1;
    }
    assert hands[..|hands|] == hands;
  }

  /** A prefix handler followed only by handlers of other fields fixes the prefix. */
  lemma {:induction false} PrefixSurvives(pre: string, rest: seq<RedisOption>, o: RedisOptions)
    requires forall h :: h in rest ==> !h.WithPrefix?
    ensures Configured([WithPrefix(pre)] + rest, o).prefix == pre
  {
    if rest == [] {
      assert [WithPrefix(pre)] + rest == [WithPrefix(pre)];
    } else {
      var all := [WithPrefix(pre)] + rest;
      assert all[..|all| - 1] == [WithPrefix(pre)] + rest[..|rest| - 1];
      assert rest[|rest| - 1] in rest;
      assert forall h :: h in rest[..|rest| - 1] ==> h in rest;
      PrefixSurvives(pre, rest[..|rest| - 1], o);
    }
  }

  /** ExecLogError: report the outcome to the logger, if there is one, and pass it on. */
  method ExecLogError<A>(fn: ExecLog?<A>, args: A, e: Option<Error>) returns (r: Option<Error>)
    modifies fn
    ensures r == e
    ensures fn != null ==> fn.calls == old(fn.calls) + [LogCall(args, e)]
  {
    if fn != null {
      fn.Log(args, e);
    }
    r := e;
  }
}
