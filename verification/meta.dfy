/** Vocabulary shared by the whole model.

    Go passes records through `interface{}` parameters and decides at run time what they can do
    (meta/inte.go: `Key`, `Zero`, `ForEach`). Here every such value is a `Value`, and the
    capability interfaces become predicates over it. Errors, the JSON and `fmt.Sprint`
    functions the library calls, the pointer an orchestrator fills (`Cell`), the logging
    callbacks (`ExecLog`) and the trace of collaborator calls (`Step`) are defined here too. */
module Meta {

  datatype Option<+T> = None | Some(value: T)

  datatype Result<+T> = Ok(value: T) | Err(error: Error)

  /** time.Duration: a count of nanoseconds. */
  type Duration = int

  const Microsecond: Duration := 1000
  const Millisecond: Duration := 1000 * Microsecond
  const Second: Duration := 1000 * Millisecond

  /** The error values the library produces or passes on. */
  datatype Error =
    | RedisNil              // redis.Nil: the key or list does not exist
    | Backend(key: string)  // a Redis command on `key` failed (transport or server error)
    | Failure(msg: string)  // errors.New(msg), or any error a collaborator returns
    | Code(code: MetaCode)  // the meta.EI_* values used by the processor tiers
    | Panic(msg: string)    // a Go run-time panic

  datatype MetaCode = KeyNotImplement | ZeroNotImplement | QueryNotImplement | ZeroData

  /** meta/enum.go: the status a handler of a pipeline returns. */
  type OptionStatus = int

  const OptionStatusContinue: OptionStatus := 1
  const OptionStatusBreak: OptionStatus := 2

  /** scache.Pair. */
  datatype Pair = Pair(key: string, value: string)

  /** srepo.ClauseHandler as built by NewEqClauseHandler / NewSealEqClause: `column = val`. */
  datatype Clause = Eq(column: string, val: Value)

  /** tutorial.Person. */
  datatype Person = Person(id: int, name: string, age: int)

  /** Which of meta.Key and meta.Zero an application record type implements. */
  datatype Caps = Caps(hasKey: bool, hasZero: bool)

  /** The values that travel through `interface{}`. */
  datatype Value =
    | Nil                                            // untyped nil
    | Int(i: int)                                    // int, int64
    | Str(s: string)                                 // string
    | Strs(ss: seq<string>)                          // []string
    | PairVal(pair: Pair)                            // scache.Pair
    | Pairs(pairs: seq<Pair>)                        // []scache.Pair
    | Clauses(clauses: seq<Clause>)                  // []srepo.ClauseHandler
    | QueryVal(where: seq<Clause>)                   // a value implementing meta.Query
    | ExprHandler(where: seq<Clause>)                // a meta.QueryExprHandler
    | PersonVal(person: Person)                      // *tutorial.Person
    | Coll(items: seq<Value>)                        // a collection implementing meta.ForEach
    | Rec(caps: Caps, key: string, zero: bool, body: string)  // an application record

  /** The value implements meta.Zero. */
  predicate ImplementsZero(v: Value) {
    v.PersonVal? || (v.Rec? && v.caps.hasZero)
  }

  /** What `Zero()` answers; false for a value that does not implement meta.Zero. */
  predicate IsZero(v: Value) {
    (v.PersonVal? && v.person.id == 0) || (v.Rec? && v.caps.hasZero && v.zero)
  }

  /** The value implements meta.Key. */
  predicate ImplementsKey(v: Value) {
    v.Rec? && v.caps.hasKey
  }

  function KeyOf(v: Value): string
    requires ImplementsKey(v)
  {
    v.key
  }

  /** The value implements meta.ForEach. */
  predicate ImplementsForEach(v: Value) {
    v.Coll?
  }

  /** The elements a ForEach visits, in traversal order. */
  function Items(v: Value): seq<Value> {
    if v.Coll? then v.items else []
  }

  /** Two values have the same Go type (for records: the same capabilities). */
  predicate SameType(a: Value, b: Value) {
    match a
    case Nil => b.Nil?
    case Int(_) => b.Int?
    case Str(_) => b.Str?
    case Strs(_) => b.Strs?
    case PairVal(_) => b.PairVal?
    case Pairs(_) => b.Pairs?
    case Clauses(_) => b.Clauses?
    case QueryVal(_) => b.QueryVal?
    case ExprHandler(_) => b.ExprHandler?
    case PersonVal(_) => b.PersonVal?
    case Coll(_) => b.Coll?
    case Rec(c, _, _, _) => b.Rec? && b.caps == c
  }

  /** The library functions the source calls but does not define: `fmt.Sprint` and the
      `encoding/json` pair behind pkg/ujson. Like json.Unmarshal, `unmarshal` is given the
      destination's current content, so one text can decode differently into different
      Go types (`[]` into a []string or into a []Pair). */
  datatype Codec = Codec(sprint: Value -> string,
                         marshal: Value -> Result<string>,
                         unmarshal: (string, Value) -> Result<Value>)
  {
    /** json.Unmarshal into a destination whose current content is `into`: the decoded
        value takes the destination's type, and text of another shape is a type error. */
    function DecodeInto(s: string, into: Value): (r: Result<Value>)
      ensures r.Ok? ==> SameType(r.value, into) && unmarshal(s, into) == Ok(r.value)
      ensures unmarshal(s, into).Err? ==> r == unmarshal(s, into)
    {
      match unmarshal(s, into)
      case Err(e) => Err(e)
      case Ok(v) => if SameType(v, into) then Ok(v) else Err(Failure("json: cannot unmarshal"))
    }

    /** What the library assumes of encoding/json for one value `v`: its text, decoded
        into any destination of v's type, gives `v` back. */
    ghost predicate RoundTripsAt(v: Value) {
      marshal(v).Ok? ==> forall into :: SameType(into, v) ==> unmarshal(marshal(v).value, into) == Ok(v)
    }
  }

  /** What a next tier's Read returns and what it leaves in `out`: a tier may fill `out`
      and still return an error. */
  datatype ReadResult = ReadResult(err: Option<Error>, out: Value)

  /** A next tier's Read on `in`, the content of `out` and the expiry. */
  type NextStage = (Value, Value, Duration) -> ReadResult

  /** A pointer the caller passes as `out` and the callee fills in place. */
  class Cell {
    var val: Value

    constructor (v: Value)
      ensures val == v
    {
      val := v;
    }
  }

  /** One call of a logging callback (meta.RedisExecLogFunc and the srepo ExecLogFunc):
      what was executed and the error it ended with. Elapsed time is not modelled. */
  datatype LogCall<A> = LogCall(args: A, err: Option<Error>)

  /** A logging callback; every call appends one record. */
  class ExecLog<A> {
    var calls: seq<LogCall<A>>

    constructor ()
      ensures calls == []
    {
      calls := [];
    }

    method Log(args: A, err: Option<Error>)
      modifies this
      ensures calls == old(calls) + [LogCall(args, err)]
    {
      calls := calls + [LogCall(args, err)];
    }
  }

  /** The collaborator calls an orchestrator makes, in order. */
  datatype Step =
    | CacheRead                           // one read of the cache tier
    | LockRead(key: string)               // locker.Reader
    | Sleep(span: Duration)               // time.Sleep before a retry
    | LockWrite(key: string)              // locker.Writer
    | Acquire(key: string)                // locker.Adder
    | RepoRead                            // the backing-store read
    | NextRead                            // delegation to the next processor
    | CacheWrite(ttl: Duration)           // the cache write-back, with its expiration
    | LockDelete(key: string)             // locker.Deleter

  predicate IsLockStep(s: Step) {
    s.LockRead? || s.LockWrite? || s.Acquire? || s.LockDelete?
  }

  /** The number of cache reads in a trace. */
  function CacheReads(steps: seq<Step>): (n: nat)
    ensures n <= |steps|
  {
    if steps == [] then 0
    else (if steps[0].CacheRead? then 1 else 0) + CacheReads(steps[1..])
  }

  lemma {:induction false} CacheReadsAppend(a: seq<Step>, b: seq<Step>)
    ensures CacheReads(a + b) == CacheReads(a) + CacheReads(b)
  {
    if a != [] {
      assert (a + b)[1..] == a[1..] + b;
      CacheReadsAppend(a[1..], b);
    } else {
      assert a + b == b;
    }
  }

  /** The steps of a read-through after retries that did not hit: the lock write and the
      store read, then, when the store's value is written back, the cache write with `ttl`
      and the lock delete. */
  function StoreTail(key: string, ttl: Duration, writeBack: bool): seq<Step> {
    [LockWrite(key), RepoRead] + (if writeBack then [CacheWrite(ttl), LockDelete(key)] else [])
  }

  /** The store phase reads no cache, and its lock steps use `key`. */
  lemma StoreTailKeyed(key: string, ttl: Duration, writeBack: bool)
    ensures CacheReads(StoreTail(key, ttl, writeBack)) == 0
    ensures forall s :: s in StoreTail(key, ttl, writeBack) && IsLockStep(s) ==> s.key == key
  {
    var head := [LockWrite(key), RepoRead];
    var rest := if writeBack then [CacheWrite(ttl), LockDelete(key)] else [];
    assert CacheReads(head) == 0 by {
      assert head[1..] == [RepoRead];
      assert head[1..][1..] == [];
    }
    assert CacheReads(rest) == 0 by {
      if writeBack {
        assert rest[1..] == [LockDelete(key)];
        assert rest[1..][1..] == [];
      }
    }
    CacheReadsAppend(head, rest);
  }

  /** A read-through trace: first cache read, lock read, the retries, and a tail without
      cache reads. */
  lemma TraceReads(key: string, retry: seq<Step>, tail: seq<Step>)
    requires CacheReads(tail) == 0
    ensures CacheReads([CacheRead, LockRead(key)] + retry + tail) == 1 + CacheReads(retry)
  {
    var head := [CacheRead, LockRead(key)];
    assert CacheReads(head) == 1 by {
      assert head[1..] == [LockRead(key)];
      assert head[1..][1..] == [];
    }
    CacheReadsAppend(head, retry);
    CacheReadsAppend(head + retry, tail);
  }
}
