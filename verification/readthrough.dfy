/** The pieces every read-through orchestrator shares (onecacherepo.go, multicacherepo.go,
    processor/cache.go, tutorial/generic.go, tutorial/person.go): what one call leaves
    behind, the backing-store reader, and the bounded retry a caller runs when another
    caller holds the lock.

    `time.Sleep` is not a clock here: while a caller sleeps, other callers' cache writes land
    (`Arrival`), which is what lets a later re-read hit. */
module ReadThrough {
  import opened Meta
  import opened Redis

  /** What one call returns and leaves behind: its error, the content of `out`, the store,
      and the collaborator calls it made, in order. */
  datatype Outcome = Outcome(err: Option<Error>, out: Value, kv: map<string, Entry>, steps: seq<Step>)

  /** A backing-store reader: the row(s) selected by the where-clauses, or its error. */
  type Repo = seq<Clause> -> Result<Value>

  /** The cache entries other callers write during the i-th sleep. */
  function Arrival(others: seq<map<string, Entry>>, i: nat): map<string, Entry> {
    if i < |others| then others[i] else map[]
  }

  /** The result of the retry phase: the value of the first re-read that hit, the store, and
      the sleeps and reads made. */
  datatype RetryOut = RetryOut(hit: Option<Value>, kv: map<string, Entry>, steps: seq<Step>)

  function Preceded(pre: seq<Step>, r: RetryOut): RetryOut {
    r.(steps := pre + r.steps)
  }

  lemma PrecededAssoc(a: seq<Step>, b: seq<Step>, r: RetryOut)
    ensures Preceded(a, Preceded(b, r)) == Preceded(a + b, r)
  {
    assert a + (b + r.steps) == (a + b) + r.steps;
  }

  lemma PrecededEmpty(r: RetryOut)
    ensures Preceded([], r) == r
  {
    assert [] + r.steps == r.steps;
  }

  /** Attempts i, i+1, ... of `for i := 0; i < times; i++ { sleep; if read() == nil { return } }`,
      where `read` is the cache read on the current store. */
  function Retry(read: map<string, Entry> -> Result<Value>, span: Duration, times: int, i: nat,
                 kv: map<string, Entry>, others: seq<map<string, Entry>>): RetryOut
    decreases times - i
  {
    if i >= times then RetryOut(None, kv, [])
    else
      var kv1 := kv + Arrival(others, i);
      var r := read(kv1);
      if r.Ok? then RetryOut(Some(r.value), kv1, [Sleep(span), CacheRead])
      else Preceded([Sleep(span), CacheRead], Retry(read, span, times, i + 1, kv1, others))
  }

  /** The retry phase reads the cache at most `times` times, sleeping before each read; it
      stops at the first read that succeeds and returns that read's value, and it only makes
      every attempt when none succeeds. */
  lemma {:induction false} RetryShape(read: map<string, Entry> -> Result<Value>, span: Duration, times: int, i: nat,
                                      kv: map<string, Entry>, others: seq<map<string, Entry>>)
    ensures var r := Retry(read, span, times, i, kv, others);
            CacheReads(r.steps) <= (if times > i then times - i else 0) &&
            |r.steps| == 2 * CacheReads(r.steps) &&
            (r.hit.Some? ==> read(r.kv) == Ok(r.hit.value) && CacheReads(r.steps) >= 1) &&
            (r.hit.None? ==> CacheReads(r.steps) == (if times > i then times - i else 0))
    ensures forall s :: s in Retry(read, span, times, i, kv, others).steps ==> s == Sleep(span) || s == CacheRead
    decreases times - i
  {
    if i < times {
      var kv1 := kv + Arrival(others, i);
      var pre := [Sleep(span), CacheRead];
      assert CacheReads(pre) == 1 by {
        assert pre[1..] == [CacheRead];
        assert pre[1..][1..] == [];
      }
      if read(kv1).Err? {
        var rest := Retry(read, span, times, i + 1, kv1, others);
        RetryShape(read, span, times, i + 1, kv1, others);
        CacheReadsAppend(pre, rest.steps);
      }
    }
  }

  /** The store only gains what other callers wrote: every key present before is still
      present after the retry phase. */
  lemma {:induction false} RetryKeepsEntries(read: map<string, Entry> -> Result<Value>, span: Duration, times: int, i: nat,
                                             kv: map<string, Entry>, others: seq<map<string, Entry>>)
    ensures kv.Keys <= Retry(read, span, times, i, kv, others).kv.Keys
    decreases times - i
  {
    if i < times {
      var kv1 := kv + Arrival(others, i);
      if read(kv1).Err? {
        RetryKeepsEntries(read, span, times, i + 1, kv1, others);
      }
    }
  }

  /** The retry phase depends on the cache read only through its answers. */
  lemma {:induction false} RetrySameReads(f: map<string, Entry> -> Result<Value>, g: map<string, Entry> -> Result<Value>,
                                          span: Duration, times: int, i: nat,
                                          kv: map<string, Entry>, others: seq<map<string, Entry>>)
    requires forall m :: f(m) == g(m)
    ensures Retry(f, span, times, i, kv, others) == Retry(g, span, times, i, kv, others)
    decreases times - i
  {
    if i < times {
      var kv1 := kv + Arrival(others, i);
      if f(kv1).Err? {
        RetrySameReads(f, g, span, times, i + 1, kv1, others);
      }
    }
  }
}
