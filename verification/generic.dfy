/** tutorial/generic.go: an earlier version of the single-key read-through. It runs the same
    algorithm as onecacherepo.go, except that the clause handlers of the backing query are
    fixed when the reader is built and `params` only names the cache and lock entry. */
module Generic {
  import opened Meta
  import opened Redis
  import opened RedisLocker
  import opened ReadThrough
  import opened OneCacheRepo

  /** The query a clause handler is given: a select query or a query of another kind. */
  datatype Query = SelectQuery(where: seq<Clause>) | OtherQuery(kind: string, where: seq<Clause>)

  /** The handler NewEqClauseHandler(key, val) returns. */
  datatype EqClauseHandler = EqClauseHandler(key: string, val: Value)

  /** Running the handler on a query: only a select query gains `key = val`. */
  function ApplyClause(h: EqClauseHandler, q: Query): (r: Query)
    ensures q.SelectQuery? ==> r == SelectQuery(q.where + [Eq(h.key, h.val)])
    ensures !q.SelectQuery? ==> r == q
  {
    if q.SelectQuery? then SelectQuery(q.where + [Eq(h.key, h.val)]) else q
  }

  /** The select query the store reader builds and hands to each clause handler in turn. */
  function BuildQuery(hs: seq<EqClauseHandler>): Query {
    if hs == [] then SelectQuery([]) else ApplyClause(hs[|hs| - 1], BuildQuery(hs[..|hs| - 1]))
  }

  /** The where-clauses of the backing query are exactly one equality per handler, in the
      order the handlers were given. */
  lemma {:induction false} BuildQueryClauses(hs: seq<EqClauseHandler>)
    ensures BuildQuery(hs).SelectQuery?
    ensures |BuildQuery(hs).where| == |hs|
    ensures forall i :: 0 <= i < |hs| ==> BuildQuery(hs).where[i] == Eq(hs[i].key, hs[i].val)
  {
    if hs != [] {
      var init := hs[..|hs| - 1];
      BuildQueryClauses(init);
      forall i | 0 <= i < |hs|
        ensures BuildQuery(hs).where[i] == Eq(hs[i].key, hs[i].val)
      {
        if i < |hs| - 1 {
          assert init[i] == hs[i];
        }
      }
    }
  }

  /** A reader NewGenericReader returns: the single-key reader and the handlers fixed at
      construction. */
  datatype GenericReader = GenericReader(inner: OneReader, opts: seq<EqClauseHandler>)

  function NewGenericReader(prefix: string, codec: Codec, repo: Repo, c: Client, opts: seq<EqClauseHandler>): (g: GenericReader)
    ensures Wired(g.inner) && g.inner.cache.prefix == prefix && g.inner.lock == DefaultRedisLocker(c)
    ensures g.inner.noZero == Failure("out must implements Zero") && g.opts == opts
  {
    var one := NewOneCacheRepoReader(prefix, codec, repo, c);
    GenericReader(one.(noZero := Failure("out must implements Zero")), opts)
  }

  /** One call of the generic reader. */
  function GenericSpec(g: GenericReader, kv: map<string, Entry>, others: seq<map<string, Entry>>,
                       params: Value, expire: Duration, out0: Value): Outcome
  {
    ReadSpec(g.inner, kv, others, params, expire, out0, BuildQuery(g.opts).where)
  }

  method GenericRead(g: GenericReader, params: Value, expire: Duration, out: Cell, others: seq<map<string, Entry>>)
    returns (err: Option<Error>, ghost steps: seq<Step>)
    requires Wired(g.inner)
    modifies g.inner.cache.client, out
    ensures Outcome(err, out.val, g.inner.cache.client.kv, steps)
         == GenericSpec(g, old(g.inner.cache.client.kv), others, params, expire, old(out.val))
    ensures g.inner.cache.client.lists == old(g.inner.cache.client.lists)
  {
    err, steps := Read(g.inner, params, expire, out, BuildQuery(g.opts).where, others);
  }

  /** `params` matters only through fmt.Sprint(params): two parameters that print alike get
      the same outcome, and the backing query never depends on them. */
  lemma ParamsOnlyNameTheEntry(g: GenericReader, kv: map<string, Entry>, others: seq<map<string, Entry>>,
                               p1: Value, p2: Value, expire: Duration, out0: Value)
    requires g.inner.codec.sprint(p1) == g.inner.codec.sprint(p2)
    ensures GenericSpec(g, kv, others, p1, expire, out0) == GenericSpec(g, kv, others, p2, expire, out0)
  {
    var r := g.inner;
    RetrySameReads(ReadFn(r, p1, out0), ReadFn(r, p2, out0), r.lock.retrySpan, r.lock.retryTimes, 0, kv, others);
  }

  /** The generic reader fails before any I/O on an `out` without Zero, with its own message. */
  lemma GenericNoZero(g: GenericReader, kv: map<string, Entry>, others: seq<map<string, Entry>>,
                      params: Value, expire: Duration, out0: Value)
    requires !ImplementsZero(out0) && g.inner.noZero == Failure("out must implements Zero")
    ensures GenericSpec(g, kv, others, params, expire, out0) == Outcome(Some(Failure("out must implements Zero")), out0, kv, [])
  {
  }

  /** An empty store result is cached with the lock's expiry, any other with the caller's. */
  lemma GenericZeroTtl(g: GenericReader, kv: map<string, Entry>, others: seq<map<string, Entry>>,
                       params: Value, expire: Duration, out0: Value)
    requires var w := BuildQuery(g.opts).where;
             g.inner.repo(w).Ok? && g.inner.codec.marshal(g.inner.repo(w).value).Ok?
    requires RepoRead in GenericSpec(g, kv, others, params, expire, out0).steps
    ensures var o := GenericSpec(g, kv, others, params, expire, out0);
            var v := g.inner.repo(BuildQuery(g.opts).where).value;
            o.err == None && CacheWrite(if IsZero(v) then g.inner.lock.expire else expire) in o.steps
  {
    WriteBack(g.inner, kv, others, params, expire, out0, BuildQuery(g.opts).where);
    var o := GenericSpec(g, kv, others, params, expire, out0);
    assert o.steps[|o.steps| - 2] in o.steps;
  }
}
