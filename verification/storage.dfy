/** storage.go: `Do` runs a chain of data handlers, each receiving the previous one's output.
    A handler reports an output, a status and an error; an error ends the chain with no
    output, a Break status ends it with that handler's output. */
module Storage {
  import opened Meta

  /** What a DataHandler returns. */
  datatype HandlerResult = HandlerResult(out: Value, stat: OptionStatus, err: Option<Error>)

  /** A DataHandler (the context is not modelled). */
  type Handler = Value -> HandlerResult

  /** What `Do` returns, and how many handlers it called. */
  datatype DoResult = DoResult(out: Value, err: Option<Error>, invoked: nat)

  /** The handler ends the chain. */
  predicate Stops(r: HandlerResult) {
    r.err.Some? || r.stat == OptionStatusBreak
  }

  /** The loop of `Do` from input `p` over handlers `hs`. */
  function Chain(p: Value, hs: seq<Handler>): DoResult
    decreases |hs|
  {
    if hs == [] then DoResult(p, None, 0)
    else
      var r := hs[0](p);
      if r.err.Some? then DoResult(Nil, r.err, 1)
      else if r.stat == OptionStatusBreak then DoResult(r.out, None, 1)
      else
        var rest := Chain(r.out, hs[1..]);
        rest.(invoked := rest.invoked + 1)
  }

  /** Do: with no handlers, (nil, nil) and nothing called. */
  function DoSpec(params: Value, hs: seq<Handler>): DoResult {
    if hs == [] then DoResult(Nil, None, 0) else Chain(params, hs)
  }

  /** The inputs the handlers that are called receive, in call order. */
  function Inputs(p: Value, hs: seq<Handler>): seq<Value>
    decreases |hs|
  {
    if hs == [] then []
    else
      var r := hs[0](p);
      if Stops(r) then [p] else [p] + Inputs(r.out, hs[1..])
  }

  method Do(params: Value, hs: seq<Handler>) returns (out: Value, err: Option<Error>, ghost invoked: nat)
    ensures out == DoSpec(params, hs).out && err == DoSpec(params, hs).err
    ensures invoked == DoSpec(params, hs).invoked
  {
    if |hs| == 0 {
      return Nil, None, 0;
    }
    var p := params;
    var i := 0;
    assert hs[0..] == hs;
    while i < |hs|
      invariant 0 <= i <= |hs|
      invariant Chain(params, hs) == (var rest := Chain(p, hs[i..]); rest.(invoked := rest.invoked + i))
    {
      assert hs[i..][1..] == hs[i + 1..];
      var r := hs[i](p);
      if r.err.Some? {
        return Nil, r.err, i + 1;
      }
      p := r.out;
      if r.stat == OptionStatusBreak {
        return p, None, i + 1;
      }
      i := i + 1;
    }
    return p, None, |hs|;
  }

  /** What `Do` promises about the handlers it calls and what it returns: the first handler
      receives `params`; each later one receives the previous output, and is reached only if
      the previous one returned no error and did not Break; the chain ends at the first error
      (nil output, that error), at the first Break (that output, no error), or after every
      handler (the last output, no error). */
  lemma {:induction false} ChainShape(p: Value, hs: seq<Handler>)
    ensures |Inputs(p, hs)| == Chain(p, hs).invoked <= |hs|
    ensures hs != [] ==> Inputs(p, hs)[0] == p
    ensures forall i :: 0 <= i < |Inputs(p, hs)| - 1 ==>
              !Stops(hs[i](Inputs(p, hs)[i])) && Inputs(p, hs)[i + 1] == hs[i](Inputs(p, hs)[i]).out
    ensures hs != [] ==>
              var k := Chain(p, hs).invoked - 1;
              var last := hs[k](Inputs(p, hs)[k]);
              0 <= k &&
              (last.err.Some? ==> Chain(p, hs).out == Nil && Chain(p, hs).err == last.err) &&
              (last.err.None? && last.stat == OptionStatusBreak ==> Chain(p, hs).out == last.out && Chain(p, hs).err == None) &&
              (!Stops(last) ==> k == |hs| - 1 && Chain(p, hs).out == last.out && Chain(p, hs).err == None)
    decreases |hs|
  {
    if hs != [] {
      var r := hs[0](p);
      if !Stops(r) {
        ChainShape(r.out, hs[1..]);
        var tail := Inputs(r.out, hs[1..]);
        assert Inputs(p, hs) == [p] + tail;
        forall i | 0 <= i < |Inputs(p, hs)| - 1
          ensures !Stops(hs[i](Inputs(p, hs)[i])) && Inputs(p, hs)[i + 1] == hs[i](Inputs(p, hs)[i]).out
        {
          if i > 0 {
            assert hs[1..][i - 1] == hs[i];
          }
        }
        if hs[1..] != [] {
          var k := Chain(r.out, hs[1..]).invoked - 1;
          assert hs[1..][k] == hs[k + 1];
        }
      }
    }
  }

  /** With no handlers `Do` calls nothing and returns (nil, nil). */
  lemma DoNoHandlers(params: Value)
    ensures DoSpec(params, []) == DoResult(Nil, None, 0)
  {
  }

  /** Some handler of the chain returned an error or Break. */
  predicate Stopped(p: Value, hs: seq<Handler>)
    decreases |hs|
  {
    hs != [] && (Stops(hs[0](p)) || Stopped(hs[0](p).out, hs[1..]))
  }

  /** Once a handler returns an error or Break, the handlers after it are never called: more
      handlers appended to a stopped chain do not change its result. */
  lemma {:induction false} LaterHandlersIrrelevant(p: Value, hs: seq<Handler>, more: seq<Handler>)
    requires Stopped(p, hs)
    ensures Chain(p, hs + more) == Chain(p, hs)
    decreases |hs|
  {
    assert (hs + more)[0] == hs[0];
    var r := hs[0](p);
    if !Stops(r) {
      assert (hs + more)[1..] == hs[1..] + more;
      LaterHandlersIrrelevant(r.out, hs[1..], more);
    }
  }
}
