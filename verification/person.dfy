/** tutorial/person.go: the read-through written out by hand for one record type, as a
    pipeline handler. A person is cached as JSON under "tal_test_person_" + its decimal id;
    the lock entry is keyed by the id; the store is always queried for `id = 1`; expiries are
    fixed at 10 s, or 2 s for an empty record. */
module PersonFlow {
  import opened Meta
  import opened Redis
  import opened Scache
  import opened RedisKeyValue
  import opened RedisLocker
  import opened ReadThrough
  import opened Storage

  // ---------------------------------------------------------------- the record

  /** (*Person).Zero. */
  function Zero(p: Person): (z: bool)
    ensures z <==> p.id == 0
    ensures ImplementsZero(PersonVal(p)) && z == IsZero(PersonVal(p))
  {
    p.id == 0
  }

  // ---------------------------------------------------------------- decimal text

  predicate IsDigit(c: char) {
    '0' <= c <= '9'
  }

  function DigitChar(d: int): (c: char)
    requires 0 <= d < 10
    ensures IsDigit(c) && c as int - '0' as int == d
  {
    ('0' as int + d) as char
  }

  /** The decimal digits of n, most significant first, without leading zeros. */
  function FormatNat(n: nat): (s: string)
    ensures |s| >= 1 && forall i :: 0 <= i < |s| ==> IsDigit(s[i])
    decreases n
  {
    if n < 10 then [DigitChar(n)] else FormatNat(n / 10) + [DigitChar(n % 10)]
  }

  /** strconv.FormatInt(n, 10) and strconv.Itoa(n). */
  function FormatInt(n: int): string {
    if n < 0 then "-" + FormatNat(-n) else FormatNat(n)
  }

  /** The value of a string of digits; None if some character is not a digit. */
  function DigitsValue(s: string): Option<nat>
    decreases |s|
  {
    if s == [] then Some(0)
    else if !IsDigit(s[|s| - 1]) then None
    else
      match DigitsValue(s[..|s| - 1])
      case None => None
      case Some(v) => Some(v * 10 + (s[|s| - 1] as int - '0' as int))
  }

  /** strconv.ParseInt(s, 10, 64): an optional sign and at least one digit. */
  function ParseInt(s: string): Result<int> {
    if s == "" then Err(Failure("invalid syntax"))
    else
      var body := if s[0] == '-' || s[0] == '+' then s[1..] else s;
      if body == "" then Err(Failure("invalid syntax"))
      else
        match DigitsValue(body)
        case None => Err(Failure("invalid syntax"))
        case Some(v) => var n: int := v; Ok(if s[0] == '-' then -n else n)
  }

  /** `idi, _ := strconv.ParseInt(id, 10, 64)`: the error is dropped and the value is 0. */
  function ParseOrZero(s: string): int {
    match ParseInt(s)
    case Ok(v) => v
    case Err(_) => 0
  }

  lemma {:induction false} DigitsRoundTrip(n: nat)
    ensures DigitsValue(FormatNat(n)) == Some(n)
    decreases n
  {
    var s := FormatNat(n);
    if n < 10 {
      assert s[..|s| - 1] == [];
    } else {
      assert s[..|s| - 1] == FormatNat(n / 10);
      DigitsRoundTrip(n / 10);
    }
  }

  /** Parsing the decimal text of an id gives the id back. */
  lemma FormatThenParse(n: int)
    ensures ParseInt(FormatInt(n)) == Ok(n)
    ensures ParseOrZero(FormatInt(n)) == n
  {
    if n < 0 {
      var s := FormatInt(n);
      assert s[1..] == FormatNat(-n);
      DigitsRoundTrip(-n);
    } else {
      DigitsRoundTrip(n);
      assert IsDigit(FormatNat(n)[0]);
    }
  }

  // ---------------------------------------------------------------- cache adapters

  const PersonKeyPrefix: string := "tal_test_person_"

  /** The key function of the person cache reader and writer. */
  function PersonKey(v: Value): (r: Result<string>)
    ensures v.PersonVal? ==> r == Ok(PersonKeyPrefix + FormatInt(v.person.id))
    ensures !v.PersonVal? ==> r == Err(Failure("not person"))
  {
    if v.PersonVal? then Ok(PersonKeyPrefix + FormatInt(v.person.id)) else Err(Failure("not person"))
  }

  /** The options both adapters are built with: the default client and the key function;
      no prefix, which neither the object reader nor the record writer needs. */
  function PersonCacheOptions(c: Client): RedisOptions {
    RedisOptions(Some(PersonKey), "", c, null)
  }

  /** NewPersonCacheReader's function: the person with id `id` read from the cache into a
      record that starts as Person{ID: id}; a missing key is not an error. */
  function PersonCacheReadSpec(c: Client, kv: map<string, Entry>, codec: Codec, id: string): (Person, Option<Error>) {
    var p := Person(ParseOrZero(id), "", 0);
    match ObjectReadSpec(PersonCacheOptions(c), kv, codec, PersonVal(p), PersonVal(p))
    case Err(e) => (p, if e == RedisNil then None else Some(e))
    case Ok(v) => (if v.PersonVal? then v.person else p, None)
  }

  method PersonCacheReader(c: Client, codec: Codec, id: string) returns (p: Person, err: Option<Error>)
    ensures (p, err) == PersonCacheReadSpec(c, c.kv, codec, id)
  {
    p := Person(ParseOrZero(id), "", 0);
    var cell := new Cell(PersonVal(p));
    var e := ObjectRead(PersonCacheOptions(c), codec, PersonVal(p), cell);
    if e == Some(RedisNil) {
      return p, None;
    }
    if e.Some? {
      return p, e;
    }
    if cell.val.PersonVal? {
      p := cell.val.person;
    }
    err := None;
  }

  /** NewPersonCacheWriter's function: the record stored under its key as JSON. */
  function PersonCacheWriteSpec(c: Client, kv: map<string, Entry>, codec: Codec, p: Person, exp: Duration)
    : (map<string, Entry>, Option<Error>)
  {
    WriteSpec(PersonCacheOptions(c), kv, codec, PersonVal(p), exp)
  }

  method PersonCacheWriter(c: Client, codec: Codec, p: Person, exp: Duration) returns (err: Option<Error>)
    modifies c
    ensures (c.kv, err) == PersonCacheWriteSpec(c, old(c.kv), codec, p, exp)
    ensures c.lists == old(c.lists)
  {
    err := Write(PersonCacheOptions(c), codec, PersonVal(p), exp);
  }

  /** A missing cache entry reads as success with the empty person of that id. */
  lemma MissingIsEmptyPerson(c: Client, kv: map<string, Entry>, codec: Codec, id: int)
    requires PersonKeyPrefix + FormatInt(id) !in kv && PersonKeyPrefix + FormatInt(id) !in c.broken
    ensures PersonCacheReadSpec(c, kv, codec, FormatInt(id)) == (Person(id, "", 0), None)
  {
    FormatThenParse(id);
  }

  /** The writer stores the JSON of the record under "tal_test_person_" + its id, with the
      given expiry, and nothing else changes. */
  lemma PersonWriteStores(c: Client, kv: map<string, Entry>, codec: Codec, p: Person, exp: Duration)
    requires codec.marshal(PersonVal(p)).Ok? && PersonKeyPrefix + FormatInt(p.id) !in c.broken
    ensures PersonCacheWriteSpec(c, kv, codec, p, exp)
         == (kv[PersonKeyPrefix + FormatInt(p.id) := Entry(codec.marshal(PersonVal(p)).value, exp)], None)
  {
  }

  /** With a JSON codec that round-trips, a record written to the cache reads back unchanged
      when looked up by its decimal id. */
  lemma PersonWriteThenRead(c: Client, kv: map<string, Entry>, codec: Codec, p: Person, exp: Duration)
    requires codec.RoundTripsAt(PersonVal(p))
    requires codec.marshal(PersonVal(p)).Ok? && PersonKeyPrefix + FormatInt(p.id) !in c.broken
    ensures PersonCacheReadSpec(c, PersonCacheWriteSpec(c, kv, codec, p, exp).0, codec, FormatInt(p.id)) == (p, None)
  {
    FormatThenParse(p.id);
    var text := codec.marshal(PersonVal(p)).value;
    var into := PersonVal(Person(p.id, "", 0));
    assert SameType(into, PersonVal(p));
    assert codec.unmarshal(text, into) == Ok(PersonVal(p));
  }
  /** The round-trip hypothesis above fits encoding/json: a codec can give an empty []string
      and an empty []Pair the same text "[]" and still return every person it encodes. */
  lemma RoundTripHypothesisSatisfiable(p: Person)
    ensures exists codec: Codec ::
              codec.RoundTripsAt(PersonVal(p)) && codec.marshal(PersonVal(p)).Ok? &&
              codec.marshal(Strs([])) == Ok("[]") && codec.marshal(Pairs([])) == Ok("[]")
  {
    var codec: Codec := Codec((v: Value) => "",
                              (v: Value) => Ok(if v.PersonVal? then "{}" else "[]"),
                              (s: string, into: Value) => if s == "{}" && into.PersonVal? then Ok(PersonVal(p)) else Ok(into));
    assert codec.marshal(PersonVal(p)) == Ok("{}");
    assert codec.RoundTripsAt(PersonVal(p)) by {
      forall into | SameType(into, PersonVal(p))
        ensures codec.unmarshal("{}", into) == Ok(PersonVal(p))
      {
      }
    }
  }


  // ---------------------------------------------------------------- the flow

  /** The backing store of persons: the row the where-clauses select, or its error. */
  type PersonRepo = seq<Clause> -> Result<Person>

  /** NewPersonRepoReader ignores its id argument and always selects `id = 1`. */
  const PersonQuery: seq<Clause> := [Eq("id", Int(1))]

  const FullExpire: Duration := 10 * Second
  const EmptyExpire: Duration := 2 * Second

  /** What one call of the handler returns and leaves behind. */
  datatype FlowOutcome = FlowOutcome(res: HandlerResult, kv: map<string, Entry>, steps: seq<Step>)

  /** A cache read counts as a hit when it succeeds with a non-empty name. */
  function PersonHit(r: (Person, Option<Error>)): Result<Value> {
    if r.1.None? && r.0.name != "" then Ok(PersonVal(r.0))
    else Err(if r.1.Some? then r.1.value else RedisNil)
  }

  function FlowRead(c: Client, codec: Codec, sid: string): map<string, Entry> -> Result<Value> {
    kv => PersonHit(PersonCacheReadSpec(c, kv, codec, sid))
  }

  /** The lock of the flow: the default Redis lock on the same store. */
  function FlowLock(c: Client): RwLocker {
    DefaultRedisLocker(c)
  }

  /** The retry phase of the flow, run when the lock read for `lkey` sees it held. */
  function FlowRetry(c: Client, codec: Codec, kv: map<string, Entry>, others: seq<map<string, Entry>>, sid: string, lkey: string): RetryOut {
    var l := FlowLock(c);
    if Held(LockReadSpec(l, kv, lkey)) then Retry(FlowRead(c, codec, sid), l.retrySpan, l.retryTimes, 0, kv, others)
    else RetryOut(None, kv, [])
  }

  /** What follows the lock write and the store read, on store `kv1`; `p` is the person of
      the first cache read, `lkey` the lock key. */
  function StorePhase(c: Client, codec: Codec, repo: PersonRepo, kv1: map<string, Entry>,
                      steps: seq<Step>, p: Person, lkey: string): FlowOutcome
  {
    match repo(PersonQuery)
    case Err(e) => FlowOutcome(HandlerResult(Nil, OptionStatusBreak, Some(e)), kv1, steps)
    case Ok(p1) =>
      var ttl := if p1.name == "" then EmptyExpire else FullExpire;
      FlowOutcome(HandlerResult(PersonVal(p), OptionStatusContinue, None),
                  PersonCacheWriteSpec(c, kv1, codec, p1, ttl).0,
                  steps + [CacheWrite(ttl), LockDelete(lkey)])
  }

  /** What follows a first cache read that did not hit; `p` is the person it left. */
  function MissPhase(c: Client, codec: Codec, repo: PersonRepo, kv: map<string, Entry>,
                     others: seq<map<string, Entry>>, sid: string, p: Person): FlowOutcome
  {
    var lkey := FormatInt(p.id);
    var retry := FlowRetry(c, codec, kv, others, sid, lkey);
    var pre := [CacheRead, LockRead(lkey)] + retry.steps;
    if retry.hit.Some? then FlowOutcome(HandlerResult(retry.hit.value, OptionStatusBreak, None), retry.kv, pre)
    else StorePhase(c, codec, repo, LockWriteSpec(FlowLock(c), retry.kv, lkey).0, pre + [LockWrite(lkey), RepoRead], p, lkey)
  }

  /** One call of the handler NewNormalFlow returns, on store `kv`. */
  function NormalFlowSpec(c: Client, codec: Codec, repo: PersonRepo, kv: map<string, Entry>,
                          others: seq<map<string, Entry>>, params: Value): FlowOutcome
  {
    if !params.Int? then FlowOutcome(HandlerResult(Nil, OptionStatusBreak, Some(Failure("params error"))), kv, [])
    else
      var sid := FormatInt(params.i);
      var first := PersonCacheReadSpec(c, kv, codec, sid);
      if first.1.None? && first.0.name != "" then FlowOutcome(HandlerResult(PersonVal(first.0), OptionStatusBreak, None), kv, [CacheRead])
      else MissPhase(c, codec, repo, kv, others, sid, first.0)
  }

  /** The retry loop of the flow. */
  method RetryReads(c: Client, codec: Codec, sid: string, others: seq<map<string, Entry>>)
    returns (hit: Option<Value>, ghost steps: seq<Step>)
    modifies c
    ensures var l := FlowLock(c);
            var ro := Retry(FlowRead(c, codec, sid), l.retrySpan, l.retryTimes, 0, old(c.kv), others);
            hit == ro.hit && steps == ro.steps && c.kv == ro.kv
    ensures c.lists == old(c.lists)
  {
    var l := FlowLock(c);
    ghost var read := FlowRead(c, codec, sid);
    ghost var done: seq<Step> := [];
    PrecededEmpty(Retry(read, l.retrySpan, l.retryTimes, 0, c.kv, others));
    var i := 0;
    while i < l.retryTimes
      invariant 0 <= i && c.lists == old(c.lists)
      invariant Retry(read, l.retrySpan, l.retryTimes, 0, old(c.kv), others)
             == Preceded(done, Retry(read, l.retrySpan, l.retryTimes, i, c.kv, others))
    {
      c.Interleave(Arrival(others, i));
      var p, err := PersonCacheReader(c, codec, sid);
      if err.None? && p.name != "" {
        return Some(PersonVal(p)), done + [Sleep(l.retrySpan), CacheRead];
      }
      PrecededAssoc(done, [Sleep(l.retrySpan), CacheRead], Retry(read, l.retrySpan, l.retryTimes, i + 1, c.kv, others));
      done := done + [Sleep(l.retrySpan), CacheRead];
      i := i + 1;
    }
    assert done + [] == done;
    return None, done;
  }

  /** The handler NewNormalFlow returns (the context is not modelled). */
  method NormalFlow(c: Client, codec: Codec, repo: PersonRepo, params: Value, others: seq<map<string, Entry>>)
    returns (res: HandlerResult, ghost steps: seq<Step>)
    modifies c
    ensures FlowOutcome(res, c.kv, steps) == NormalFlowSpec(c, codec, repo, old(c.kv), others, params)
    ensures c.lists == old(c.lists)
  {
    if !params.Int? {
      return HandlerResult(Nil, OptionStatusBreak, Some(Failure("params error"))), [];
    }
    var sid := FormatInt(params.i);
    var p, err := PersonCacheReader(c, codec, sid);
    if err.None? && p.name != "" {
      return HandlerResult(PersonVal(p), OptionStatusBreak, None), [CacheRead];
    }
    var l := FlowLock(c);
    var lkey := FormatInt(p.id);
    var held := RedisLockerReader(l, lkey);
    steps := [CacheRead, LockRead(lkey)];
    if Held(held) {
      var hit;
      ghost var more;
      hit, more := RetryReads(c, codec, sid, others);
      steps := steps + more;
      if hit.Some? {
        return HandlerResult(hit.value, OptionStatusBreak, None), steps;
      }
    } else {
      assert steps + [] == steps;
    }
    var lockErr := RedisLockerWriter(l, codec, lkey);
    steps := steps + [LockWrite(lkey), RepoRead];
    var found := repo(PersonQuery);
    if found.Err? {
      return HandlerResult(Nil, OptionStatusBreak, Some(found.error)), steps;
    }
    var p1 := found.value;
    var expire := FullExpire;
    if p1.name == "" {
      expire := EmptyExpire;
    }
    var writeErr := PersonCacheWriter(c, codec, p1, expire);
    // The lock's Deleter: the Reader/Writer lock record leaves it at its no-op default.
    steps := steps + [CacheWrite(expire), LockDelete(lkey)];
    res := HandlerResult(PersonVal(p), OptionStatusContinue, None);
  }

  // ---------------------------------------------------------------- properties

  /** Parameters that are not an int end the pipeline with an error, before any I/O. */
  lemma NonIntParamsBreak(c: Client, codec: Codec, repo: PersonRepo, kv: map<string, Entry>,
                          others: seq<map<string, Entry>>, params: Value)
    requires !params.Int?
    ensures NormalFlowSpec(c, codec, repo, kv, others, params)
         == FlowOutcome(HandlerResult(Nil, OptionStatusBreak, Some(Failure("params error"))), kv, [])
  {
  }

  /** The store phase never breaks without an error: it either fails with the store's error
      or continues with `p`, caching the store's person. */
  lemma StorePhaseShape(c: Client, codec: Codec, repo: PersonRepo, kv1: map<string, Entry>,
                        steps: seq<Step>, p: Person, lkey: string)
    ensures var o := StorePhase(c, codec, repo, kv1, steps, p, lkey);
            (repo(PersonQuery).Err? ==> o.res == HandlerResult(Nil, OptionStatusBreak, Some(repo(PersonQuery).error)) && o.steps == steps) &&
            (repo(PersonQuery).Ok? ==>
               var p1 := repo(PersonQuery).value;
               var ttl := if p1.name == "" then 2 * Second else 10 * Second;
               o.res == HandlerResult(PersonVal(p), OptionStatusContinue, None) &&
               o.steps == steps + [CacheWrite(ttl), LockDelete(lkey)] &&
               o.kv == PersonCacheWriteSpec(c, kv1, codec, p1, ttl).0)
  {
  }

  /** After a first miss, a Break without error comes only from a retry that read a person
      with a name, and then the store is not read. */
  lemma MissPhaseBreak(c: Client, codec: Codec, repo: PersonRepo, kv: map<string, Entry>,
                       others: seq<map<string, Entry>>, sid: string, p: Person)
    ensures var o := MissPhase(c, codec, repo, kv, others, sid, p);
            o.res.stat == OptionStatusBreak && o.res.err.None? ==>
              o.res.out.PersonVal? && o.res.out.person.name != "" && RepoRead !in o.steps
  {
    var lkey := FormatInt(p.id);
    var retry := FlowRetry(c, codec, kv, others, sid, lkey);
    if retry.hit.Some? {
      RetryHitSkipsStore(c, codec, repo, kv, others, sid, p);
      RetryHitNamed(c, codec, repo, kv, others, sid, p);
    } else {
      StorePhaseShape(c, codec, repo, LockWriteSpec(FlowLock(c), retry.kv, lkey).0,
                      [CacheRead, LockRead(lkey)] + retry.steps + [LockWrite(lkey), RepoRead], p, lkey);
    }
  }

  /** A retry hit breaks the pipeline, without error, with a person that has a name. */
  lemma RetryHitNamed(c: Client, codec: Codec, repo: PersonRepo, kv: map<string, Entry>,
                      others: seq<map<string, Entry>>, sid: string, p: Person)
    requires FlowRetry(c, codec, kv, others, sid, FormatInt(p.id)).hit.Some?
    ensures var h := FlowRetry(c, codec, kv, others, sid, FormatInt(p.id)).hit.value;
            MissPhase(c, codec, repo, kv, others, sid, p).res == HandlerResult(h, OptionStatusBreak, None) &&
            h.PersonVal? && h.person.name != ""
  {
    var retry := FlowRetry(c, codec, kv, others, sid, FormatInt(p.id));
    var l := FlowLock(c);
    RetryShape(FlowRead(c, codec, sid), l.retrySpan, l.retryTimes, 0, kv, others);
    assert PersonHit(PersonCacheReadSpec(c, retry.kv, codec, sid)) == Ok(retry.hit.value);
  }


  /** A retry hit ends the miss phase before the store is read. */
  lemma RetryHitSkipsStore(c: Client, codec: Codec, repo: PersonRepo, kv: map<string, Entry>,
                           others: seq<map<string, Entry>>, sid: string, p: Person)
    requires FlowRetry(c, codec, kv, others, sid, FormatInt(p.id)).hit.Some?
    ensures RepoRead !in MissPhase(c, codec, repo, kv, others, sid, p).steps
  {
    var lkey := FormatInt(p.id);
    var retry := FlowRetry(c, codec, kv, others, sid, lkey);
    var l := FlowLock(c);
    RetryShape(FlowRead(c, codec, sid), l.retrySpan, l.retryTimes, 0, kv, others);
    assert RepoRead !in retry.steps;
    assert MissPhase(c, codec, repo, kv, others, sid, p).steps == [CacheRead, LockRead(lkey)] + retry.steps;
  }

  /** After a first miss, the store is read only when no retry hit, right after the lock
      read, the retries and the lock write. */
  lemma MissPhaseShape(c: Client, codec: Codec, repo: PersonRepo, kv: map<string, Entry>,
                       others: seq<map<string, Entry>>, sid: string, p: Person)
    ensures var o := MissPhase(c, codec, repo, kv, others, sid, p);
            var lkey := FormatInt(p.id);
            var retry := FlowRetry(c, codec, kv, others, sid, lkey);
            RepoRead in o.steps ==>
              retry.hit.None? &&
              o == StorePhase(c, codec, repo, LockWriteSpec(FlowLock(c), retry.kv, lkey).0,
                              [CacheRead, LockRead(lkey)] + retry.steps + [LockWrite(lkey), RepoRead], p, lkey)
  {
    if FlowRetry(c, codec, kv, others, sid, FormatInt(p.id)).hit.Some? {
      RetryHitSkipsStore(c, codec, repo, kv, others, sid, p);
    }
  }



  /** A Break without error is a hit: a person with a non-empty name read from the cache,
      by the first read or by a retry, and the store is not read. */
  lemma BreakOnlyOnNamedHit(c: Client, codec: Codec, repo: PersonRepo, kv: map<string, Entry>,
                            others: seq<map<string, Entry>>, params: Value)
    ensures var o := NormalFlowSpec(c, codec, repo, kv, others, params);
            o.res.stat == OptionStatusBreak && o.res.err.None? ==>
              o.res.out.PersonVal? && o.res.out.person.name != "" && RepoRead !in o.steps
  {
    if params.Int? {
      var sid := FormatInt(params.i);
      MissPhaseBreak(c, codec, repo, kv, others, sid, PersonCacheReadSpec(c, kv, codec, sid).0);
    }
  }

  /** A call that read the store took an int, missed on the first read, and went through the
      lock read, the retries (none of which hit) and the lock write before the store phase. */
  lemma StoreReached(c: Client, codec: Codec, repo: PersonRepo, kv: map<string, Entry>,
                     others: seq<map<string, Entry>>, params: Value)
    requires RepoRead in NormalFlowSpec(c, codec, repo, kv, others, params).steps
    ensures params.Int?
    ensures var sid := FormatInt(params.i);
            var p := PersonCacheReadSpec(c, kv, codec, sid).0;
            var lkey := FormatInt(p.id);
            var retry := FlowRetry(c, codec, kv, others, sid, lkey);
            retry.hit.None? &&
            NormalFlowSpec(c, codec, repo, kv, others, params)
              == StorePhase(c, codec, repo, LockWriteSpec(FlowLock(c), retry.kv, lkey).0,
                            [CacheRead, LockRead(lkey)] + retry.steps + [LockWrite(lkey), RepoRead], p, lkey)
  {
    assert params.Int?;
    var sid := FormatInt(params.i);
    var first := PersonCacheReadSpec(c, kv, codec, sid);
    assert !(first.1.None? && first.0.name != "");
    MissPhaseShape(c, codec, repo, kv, others, sid, first.0);
  }

  /** A store error ends the pipeline with that error; the last step is the store read, so
      nothing is cached and the lock is not deleted. */
  lemma RepoErrorBreaks(c: Client, codec: Codec, repo: PersonRepo, kv: map<string, Entry>,
                        others: seq<map<string, Entry>>, params: Value)
    requires repo(PersonQuery).Err?
    requires RepoRead in NormalFlowSpec(c, codec, repo, kv, others, params).steps
    ensures var o := NormalFlowSpec(c, codec, repo, kv, others, params);
            o.res == HandlerResult(Nil, OptionStatusBreak, Some(repo(PersonQuery).error)) &&
            |o.steps| >= 1 && o.steps[|o.steps| - 1] == RepoRead
  {
    StoreReached(c, codec, repo, kv, others, params);
    var sid := FormatInt(params.i);
    var p := PersonCacheReadSpec(c, kv, codec, sid).0;
    var lkey := FormatInt(p.id);
    var retry := FlowRetry(c, codec, kv, others, sid, lkey);
    StorePhaseShape(c, codec, repo, LockWriteSpec(FlowLock(c), retry.kv, lkey).0,
                    [CacheRead, LockRead(lkey)] + retry.steps + [LockWrite(lkey), RepoRead], p, lkey);
  }

  /** The store phase after a successful store read: the flow continues with `p`, the store's
      person is cached under its own key, and the last two steps are the cache write and the
      lock delete. */
  lemma StorePhaseCaches(c: Client, codec: Codec, repo: PersonRepo, kv1: map<string, Entry>,
                         steps: seq<Step>, p: Person, lkey: string)
    requires repo(PersonQuery).Ok?
    ensures var o := StorePhase(c, codec, repo, kv1, steps, p, lkey);
            var p1 := repo(PersonQuery).value;
            var ttl := if p1.name == "" then 2 * Second else 10 * Second;
            o.res == HandlerResult(PersonVal(p), OptionStatusContinue, None) &&
            |o.steps| >= 2 && o.steps[|o.steps| - 2..] == [CacheWrite(ttl), LockDelete(lkey)] &&
            (codec.marshal(PersonVal(p1)).Ok? && PersonKeyPrefix + FormatInt(p1.id) !in c.broken ==>
               PersonKeyPrefix + FormatInt(p1.id) in o.kv &&
               o.kv[PersonKeyPrefix + FormatInt(p1.id)] == Entry(codec.marshal(PersonVal(p1)).value, ttl))
  {
    StorePhaseShape(c, codec, repo, kv1, steps, p, lkey);
    var p1 := repo(PersonQuery).value;
    var ttl := if p1.name == "" then 2 * Second else 10 * Second;
    if codec.marshal(PersonVal(p1)).Ok? && PersonKeyPrefix + FormatInt(p1.id) !in c.broken {
      PersonWriteStores(c, kv1, codec, p1, ttl);
    }
  }

  /** After a store read the handler continues with the person of the FIRST cache read (not
      the one read from the store); the store's person is cached under its own key for 10 s,
      or 2 s when its name is empty, and the lock is deleted last. */
  lemma StoreReadContinues(c: Client, codec: Codec, repo: PersonRepo, kv: map<string, Entry>,
                           others: seq<map<string, Entry>>, params: Value)
    requires repo(PersonQuery).Ok?
    requires RepoRead in NormalFlowSpec(c, codec, repo, kv, others, params).steps
    ensures params.Int?
    ensures var o := NormalFlowSpec(c, codec, repo, kv, others, params);
            var p := PersonCacheReadSpec(c, kv, codec, FormatInt(params.i)).0;
            var p1 := repo(PersonQuery).value;
            var ttl := if p1.name == "" then 2 * Second else 10 * Second;
            o.res == HandlerResult(PersonVal(p), OptionStatusContinue, None) &&
            |o.steps| >= 2 && o.steps[|o.steps| - 2..] == [CacheWrite(ttl), LockDelete(FormatInt(p.id))] &&
            (codec.marshal(PersonVal(p1)).Ok? && PersonKeyPrefix + FormatInt(p1.id) !in c.broken ==>
               PersonKeyPrefix + FormatInt(p1.id) in o.kv &&
               o.kv[PersonKeyPrefix + FormatInt(p1.id)] == Entry(codec.marshal(PersonVal(p1)).value, ttl))
  {
    StoreReached(c, codec, repo, kv, others, params);
    var sid := FormatInt(params.i);
    var p := PersonCacheReadSpec(c, kv, codec, sid).0;
    var lkey := FormatInt(p.id);
    var retry := FlowRetry(c, codec, kv, others, sid, lkey);
    StorePhaseCaches(c, codec, repo, LockWriteSpec(FlowLock(c), retry.kv, lkey).0,
                     [CacheRead, LockRead(lkey)] + retry.steps + [LockWrite(lkey), RepoRead], p, lkey);
  }
}
