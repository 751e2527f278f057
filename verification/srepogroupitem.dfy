/** srepo/srepogroupitem.go: NewMysqlGroupReader wraps one store handler — an inserter, an
    updater, a reader or a group reader — behind a single signature, checks the shape of
    `data` and `params` for it, and reports every call to the configured logger exactly once,
    with the error it returns. */
module SrepoGroupItem {
  import opened Meta

  /** The handler a RepoGroupOptions record carries, by dynamic type. The type switch names
      `RepoInserter`, which srepo does not define (srepo/srepo.go:45 spells it `RepoInster`);
      it is taken to be that inserter type. `RepoGroupReader` is not defined either; it is
      taken to have the signature of the function NewMysqlGroupReader returns. */
  datatype GroupHandler =
    | NoHandler                                            // nil
    | Inserter(insert: Value -> Result<int>)               // RepoInserter: the new row's id
    | Updater(update: (Value, seq<Clause>) -> UpdateResult) // RepoUpdater: the rows affected
    | Reader(read: (Value, seq<Clause>) -> ReadResult)      // RepoReader: fills data
    | GroupReader(group: (Value, Value) -> ReadResult)      // RepoGroupReader: fills data
    | Other(kind: string)                                  // a handler of any other type

  /** What an updater returns, and what it leaves in `*data`: the wrapper hands it `data`
      itself, so it may write there and still fail. */
  datatype UpdateResult = UpdateResult(rows: Result<int>, out: Value)

  datatype GroupOptions = GroupOptions(handler: GroupHandler, execLog: ExecLog?<Value>)

  /** DefaultRepoGroupOptions: no handler and no logger. */
  function DefaultRepoGroupOptions(): (o: GroupOptions)
    ensures o.handler.NoHandler? && o.execLog == null
  {
    GroupOptions(NoHandler, null)
  }

  /** A RepoGroupOptionHandler. The repository defines neither the option type nor its
      constructors; the model takes them to set the handler or the logger. */
  datatype GroupOption = WithHandler(h: GroupHandler) | WithExecLogger(log: ExecLog?<Value>)

  function Apply(opt: GroupOption, o: GroupOptions): GroupOptions {
    match opt
    case WithHandler(h) => o.(handler := h)
    case WithExecLogger(log) => o.(execLog := log)
  }

  /** `o` after the option handlers are applied from left to right. */
  function Configured(hands: seq<GroupOption>, o: GroupOptions): GroupOptions {
    if hands == [] then o else Apply(hands[|hands| - 1], Configured(hands[..|hands| - 1], o))
  }

  /** The handler of the last WithHandler option, if any. */
  function LastHandler(hands: seq<GroupOption>): Option<GroupHandler> {
    if hands == [] then None
    else if hands[|hands| - 1].WithHandler? then Some(hands[|hands| - 1].h)
    else LastHandler(hands[..|hands| - 1])
  }

  /** The handler used is the one the last WithHandler option set, or the default's. */
  lemma {:induction false} ConfiguredHandler(hands: seq<GroupOption>, o: GroupOptions)
    ensures Configured(hands, o).handler == (if LastHandler(hands).Some? then LastHandler(hands).value else o.handler)
  {
    if hands != [] {
      ConfiguredHandler(hands[..|hands| - 1], o);
    }
  }

  /** The option loop of NewMysqlGroupReader. */
  method Configure(hands: seq<GroupOption>) returns (o: GroupOptions)
    ensures o == Configured(hands, DefaultRepoGroupOptions())
  {
    o := DefaultRepoGroupOptions();
    var i := 0;
    while i < |hands|
      invariant 0 <= i <= |hands|
      invariant o == Configured(hands[..i], DefaultRepoGroupOptions())
    {
      assert hands[..i + 1][..i] == hands[..i];
      o := Apply(hands[i], o);
      i := i + 1;
    }
    assert hands[..|hands|] == hands;
  }

  const ErrDataNotInt64Ptr: Error := Failure("type of params data must be int64 pointer")
  const ErrParamsNotClauses: Error := Failure("type of params must be ClauseHandler slice")
  const ErrUnsupportHandler: Error := Failure("unsupport handler")
  /** srepo.ErrUpdateAffectZeroRows. No file of the repository defines it; the text given
      here is a placeholder, and only its identity matters to the contracts. */
  const ErrUpdateAffectZeroRows: Error := Failure("update affect zero rows")

  /** The where-clauses `params` stands for: none for nil, the slice for a []ClauseHandler. */
  function WhereOf(params: Value): (r: Result<seq<Clause>>)
    ensures params.Nil? ==> r == Ok([])
    ensures params.Clauses? ==> r == Ok(params.clauses)
    ensures !params.Nil? && !params.Clauses? ==> r == Err(ErrParamsNotClauses)
  {
    match params
    case Nil => Ok([])
    case Clauses(cs) => Ok(cs)
    case _ => Err(ErrParamsNotClauses)
  }

  /** One call of the reader: the error it returns and what `*data` holds afterwards.
      `data0` is the content of the pointer `data`; an Int there is an *int64. */
  function GroupReadSpec(h: GroupHandler, data0: Value, params: Value): (Option<Error>, Value) {
    match h
    case Inserter(insert) =>
      if !data0.Int? then (Some(ErrDataNotInt64Ptr), data0)
      else (match insert(params)
            case Err(e) => (Some(e), data0)
            case Ok(id) => (None, Int(id)))
    case Updater(update) =>
      (match WhereOf(params)
       case Err(e) => (Some(e), data0)
       case Ok(where) =>
         var u := update(data0, where);
         match u.rows
         case Err(e) => (Some(e), u.out)
         case Ok(n) => if n == 0 then (Some(ErrUpdateAffectZeroRows), u.out) else (None, u.out))
    case Reader(read) =>
      (match WhereOf(params)
       case Err(e) => (Some(e), data0)
       case Ok(where) =>
         var r := read(data0, where);
         (r.err, r.out))
    case GroupReader(group) =>
      var r := group(data0, params);
      (r.err, r.out)
    case _ => (Some(ErrUnsupportHandler), data0)
  }

  /** The function NewMysqlGroupReader returns (its elapsed-time argument to the logger is not
      modelled). */
  method GroupRead(opts: GroupOptions, data: Cell, params: Value) returns (err: Option<Error>)
    modifies data, opts.execLog
    ensures (err, data.val) == GroupReadSpec(opts.handler, old(data.val), params)
    ensures opts.execLog != null ==> opts.execLog.calls == old(opts.execLog.calls) + [LogCall(params, err)]
  {
    match opts.handler {
      case Inserter(insert) =>
        if !data.val.Int? {
          err := Some(ErrDataNotInt64Ptr);
        } else {
          var r := insert(params);
          if r.Err? {
            err := Some(r.error);
          } else {
            data.val := Int(r.value);
            err := None;
          }
        }
      case Updater(update) =>
        var where := WhereOf(params);
        if where.Err? {
          err := Some(where.error);
        } else {
          var u := update(data.val, where.value);
          data.val := u.out;
          if u.rows.Err? {
            err := Some(u.rows.error);
          } else if u.rows.value == 0 {
            err := Some(ErrUpdateAffectZeroRows);
          } else {
            err := None;
          }
        }
      case Reader(read) =>
        var where := WhereOf(params);
        if where.Err? {
          err := Some(where.error);
        } else {
          var r := read(data.val, where.value);
          data.val, err := r.out, r.err;
        }
      case GroupReader(group) =>
        var r := group(data.val, params);
        data.val, err := r.out, r.err;
      case _ =>
        err := Some(ErrUnsupportHandler);
    }
    if opts.execLog != null {
      opts.execLog.Log(params, err);
    }
  }

  // ---------------------------------------------------------------- properties

  /** The wrapper's own refusals — a `data` that is not *int64, params that are not clauses,
      an unsupported handler — and a failed insert leave `*data` as it was. */
  lemma DataUnchangedOnError(h: GroupHandler, data0: Value, params: Value)
    ensures h.Inserter? && GroupReadSpec(h, data0, params).0.Some? ==> GroupReadSpec(h, data0, params).1 == data0
    ensures (h.Updater? || h.Reader?) && WhereOf(params).Err? ==> GroupReadSpec(h, data0, params) == (Some(ErrParamsNotClauses), data0)
    ensures (h.NoHandler? || h.Other?) ==> GroupReadSpec(h, data0, params).1 == data0
  {
  }

  /** The updater, the reader and the group reader receive `data` itself: what they leave in
      it stays there, whether they fail or not. */
  lemma HandlerKeepsItsData(h: GroupHandler, data0: Value, params: Value)
    requires h.GroupReader? || ((h.Updater? || h.Reader?) && WhereOf(params).Ok?)
    ensures h.Updater? ==> GroupReadSpec(h, data0, params).1 == h.update(data0, WhereOf(params).value).out
    ensures h.Updater? && h.update(data0, WhereOf(params).value).rows.Err? ==>
              GroupReadSpec(h, data0, params).0 == Some(h.update(data0, WhereOf(params).value).rows.error)
    ensures h.Reader? ==> GroupReadSpec(h, data0, params) == (h.read(data0, WhereOf(params).value).err, h.read(data0, WhereOf(params).value).out)
    ensures h.GroupReader? ==> GroupReadSpec(h, data0, params) == (h.group(data0, params).err, h.group(data0, params).out)
  {
  }

  /** The inserter needs an *int64 `data`; on success the new id is stored in it. */
  lemma InserterStoresId(insert: Value -> Result<int>, data0: Value, params: Value)
    ensures !data0.Int? ==> GroupReadSpec(Inserter(insert), data0, params) == (Some(ErrDataNotInt64Ptr), data0)
    ensures data0.Int? && insert(params).Ok? ==> GroupReadSpec(Inserter(insert), data0, params) == (None, Int(insert(params).value))
    ensures data0.Int? && insert(params).Err? ==> GroupReadSpec(Inserter(insert), data0, params) == (Some(insert(params).error), data0)
  {
  }

  /** Updater and reader: nil params means no clauses, a []ClauseHandler is passed on, and
      anything else is refused before the handler runs. */
  lemma ParamsMustBeClauses(h: GroupHandler, data0: Value, params: Value)
    requires h.Updater? || h.Reader?
    ensures !params.Nil? && !params.Clauses? ==> GroupReadSpec(h, data0, params) == (Some(ErrParamsNotClauses), data0)
    ensures h.Reader? && params.Nil? ==>
              GroupReadSpec(h, data0, params) == (h.read(data0, []).err, h.read(data0, []).out)
    ensures h.Updater? && params.Clauses? && h.update(data0, params.clauses).rows.Ok? ==>
              GroupReadSpec(h, data0, params).0 == (if h.update(data0, params.clauses).rows.value == 0 then Some(ErrUpdateAffectZeroRows) else None)
  {
  }

  /** An update that affects no rows is an error. */
  lemma UpdaterZeroRows(update: (Value, seq<Clause>) -> UpdateResult, data0: Value, params: Value)
    requires WhereOf(params).Ok? && update(data0, WhereOf(params).value).rows == Ok(0)
    ensures GroupReadSpec(Updater(update), data0, params) == (Some(ErrUpdateAffectZeroRows), update(data0, WhereOf(params).value).out)
  {
  }

  /** Reader and group reader return the wrapped handler's error unchanged. */
  lemma ReadersPassErrors(h: GroupHandler, data0: Value, params: Value)
    requires h.GroupReader? || (h.Reader? && WhereOf(params).Ok?)
    ensures h.GroupReader? && h.group(data0, params).err.Some? ==> GroupReadSpec(h, data0, params).0 == h.group(data0, params).err
    ensures h.Reader? && h.read(data0, WhereOf(params).value).err.Some? ==>
              GroupReadSpec(h, data0, params).0 == h.read(data0, WhereOf(params).value).err
  {
  }

  /** Any other handler, nil included, is refused. */
  lemma UnsupportedHandler(h: GroupHandler, data0: Value, params: Value)
    requires h.NoHandler? || h.Other?
    ensures GroupReadSpec(h, data0, params) == (Some(ErrUnsupportHandler), data0)
  {
  }
}
