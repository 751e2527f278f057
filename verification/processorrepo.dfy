/** processor/repo.go: the backing-store tier of the chainable processors. `in` names the
    rows to read (a meta.Query, whose Query(ctx) yields the where-expression, or a
    QueryExprHandler itself); the store reader fills `out`; a next tier, if any, is then
    always consulted. */
module ProcessorRepo {
  import opened Meta
  import Locker

  /** meta.RepoReader: the row(s) the where-expression selects, or the reader's error. */
  type RepoReader = seq<Clause> -> Result<Value>

  /** meta.RepoInserter: the new row's id, or the inserter's error. */
  type RepoInserter = Value -> Result<int>

  /** The where-expression `in` carries, if it carries one. */
  function QueryOf(input: Value): (q: Option<seq<Clause>>)
    ensures q.Some? <==> input.QueryVal? || input.ExprHandler?
  {
    match input
    case QueryVal(where) => Some(where)
    case ExprHandler(where) => Some(where)
    case _ => None
  }

  /** What one Read returns and leaves in `out`, and whether it reached the next tier. */
  datatype TierOutcome = TierOutcome(err: Option<Error>, out: Value, nextCalled: bool)

  /** The Go run-time fault of calling Read on a nil next tier. */
  const NilNext: Error := Panic("invalid memory address or nil pointer dereference")

  class RepoOneReadProcessor {
    /** Built by NewRepoOneReadProcessor but never used by Read or Write. */
    const locker: Locker.Locker
    const reader: RepoReader
    const writer: RepoInserter
    const next: Option<NextStage>

    /** NewRepoOneReadProcessor: `locker.NewLocker()` with no options. */
    constructor (next: Option<NextStage>, reader: RepoReader, writer: RepoInserter)
      ensures this.locker == Locker.DefaultLocker() && this.next == next
      ensures this.reader == reader && this.writer == writer
    {
      this.locker := Locker.DefaultLocker();
      this.reader, this.writer, this.next := reader, writer, next;
    }

    /** One call of Read, as written; `out0` is the content of `out`. */
    function ReadSpec(input: Value, out0: Value, exp: Duration): TierOutcome {
      if !ImplementsZero(out0) then TierOutcome(Some(Code(ZeroNotImplement)), out0, false)
      else if QueryOf(input).None? then TierOutcome(Some(Code(QueryNotImplement)), out0, false)
      else
        var r := reader(QueryOf(input).value);
        var out1 := if r.Ok? then r.value else out0;
        if r.Err? && next.None? then TierOutcome(Some(r.error), out1, false)
        else if IsZero(out1) && next.None? then TierOutcome(Some(Code(ZeroData)), out1, false)
        else if next.None? then TierOutcome(Some(NilNext), out1, false)
        else
          var n := next.value(input, out1, exp);
          TierOutcome(n.err, n.out, true)
    }

    method Read(input: Value, out: Cell, exp: Duration) returns (err: Option<Error>, ghost nextCalled: bool)
      modifies out
      ensures TierOutcome(err, out.val, nextCalled) == ReadSpec(input, old(out.val), exp)
    {
      if !ImplementsZero(out.val) {
        return Some(Code(ZeroNotImplement)), false;
      }
      var fn: seq<Clause>;
      match input {
        case QueryVal(where) => fn := where;
        case ExprHandler(where) => fn := where;
        case _ => return Some(Code(QueryNotImplement)), false;
      }
      var r := reader(fn);
      if r.Ok? {
        out.val := r.value;
      }
      if r.Err? && next.None? {
        return Some(r.error), false;
      }
      if IsZero(out.val) && next.None? {
        return Some(Code(ZeroData)), false;
      }
      if next.None? {
        return Some(NilNext), false;
      }
      var res := next.value(input, out.val, exp);
      out.val := res.out;
      if res.err.Some? {
        return res.err, true;
      }
      return None, true;
    }

    /** Write forwards `in` to the inserter and returns only its error; `exp` is not used. */
    method Write(input: Value, exp: Duration) returns (err: Option<Error>)
      ensures err == (if writer(input).Err? then Some(writer(input).error) else None)
    {
      var r := writer(input);
      err := if r.Err? then Some(r.error) else None;
    }
  }

  /** The outcome the tier evidently intends when there is no next tier and the row read is
      not Zero: nil, with the row in `out`. Otherwise as written. */
  function IntendedReadSpec(p: RepoOneReadProcessor, input: Value, out0: Value, exp: Duration): TierOutcome {
    var o := p.ReadSpec(input, out0, exp);
    if o.err == Some(NilNext) then TierOutcome(None, o.out, false) else o
  }

  // ---------------------------------------------------------------- properties

  /** The checks come first: no Zero gives EI_ZeroNotImplement, then an `in` that is neither a
      Query nor a QueryExprHandler gives EI_QueryNotImplement, before any read. */
  lemma ChecksFirst(p: RepoOneReadProcessor, input: Value, out0: Value, exp: Duration)
    ensures !ImplementsZero(out0) ==> p.ReadSpec(input, out0, exp) == TierOutcome(Some(Code(ZeroNotImplement)), out0, false)
    ensures ImplementsZero(out0) && !input.QueryVal? && !input.ExprHandler? ==>
              p.ReadSpec(input, out0, exp) == TierOutcome(Some(Code(QueryNotImplement)), out0, false)
  {
  }

  /** Without a next tier: the reader's error is returned unchanged, and a Zero row gives
      EI_Zero; a non-Zero row reaches the nil next tier, a run-time fault. */
  lemma WithoutNext(p: RepoOneReadProcessor, input: Value, out0: Value, exp: Duration)
    requires p.next.None? && ImplementsZero(out0) && QueryOf(input).Some?
    ensures var r := p.reader(QueryOf(input).value);
            var o := p.ReadSpec(input, out0, exp);
            (r.Err? ==> o == TierOutcome(Some(r.error), out0, false)) &&
            (r.Ok? && IsZero(r.value) ==> o == TierOutcome(Some(Code(ZeroData)), r.value, false)) &&
            (r.Ok? && !IsZero(r.value) ==> o == TierOutcome(Some(NilNext), r.value, false))
  {
  }

  /** With a next tier, the reader's error is discarded: the next tier is always consulted
      (with `out` as the reader left it); its error is returned, and `out` is what the next
      tier left in it, whether or not it failed. */
  lemma WithNext(p: RepoOneReadProcessor, input: Value, out0: Value, exp: Duration)
    requires p.next.Some? && ImplementsZero(out0) && QueryOf(input).Some?
    ensures var r := p.reader(QueryOf(input).value);
            var out1 := if r.Ok? then r.value else out0;
            var n := p.next.value(input, out1, exp);
            var o := p.ReadSpec(input, out0, exp);
            o.nextCalled && o.err == n.err && o.out == n.out
  {
  }

  /** The intended tier never faults, and differs from the tier as written only where the
      written one faults. */
  lemma IntendedNeverFaults(p: RepoOneReadProcessor, input: Value, out0: Value, exp: Duration)
    requires p.next.None? && ImplementsZero(out0) && QueryOf(input).Some?
    ensures IntendedReadSpec(p, input, out0, exp).err != Some(NilNext)
    ensures var r := p.reader(QueryOf(input).value);
            r.Ok? && !IsZero(r.value) ==> IntendedReadSpec(p, input, out0, exp) == TierOutcome(None, r.value, false)
    ensures p.ReadSpec(input, out0, exp).err != Some(NilNext) ==> IntendedReadSpec(p, input, out0, exp) == p.ReadSpec(input, out0, exp)
  {
    WithoutNext(p, input, out0, exp);
  }
}
