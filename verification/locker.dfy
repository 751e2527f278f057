/** locker/locker.go: the configuration of the advisory lock the processor tier uses —
    an acquire callback, a release callback, the lock's expiry, and how many times and how
    often a caller that did not get the lock re-reads the cache. The option handlers are
    closures that assign one field of the record; here they are data (`LockerOption`) and
    `Apply` is their body. */
module Locker {
  import opened Meta

  const DefaultExpire: Duration := 200 * Millisecond
  const DefaultRetryTimes: int := 3
  const DefaultRetrySpan: Duration := 70 * Microsecond

  /** A LockerAdder: true when this caller acquired the lock for the key. */
  datatype Adder = NeverAcquire | AdderFn(acquire: string -> bool)
  {
    function Call(key: string): bool {
      match this
      case NeverAcquire => false
      case AdderFn(f) => f(key)
    }
  }

  /** A LockerDeleter: releases the lock for the key. */
  datatype Deleter = AlwaysSucceed | DeleterFn(delete: string -> Option<Error>)
  {
    function Call(key: string): Option<Error> {
      match this
      case AlwaysSucceed => None
      case DeleterFn(f) => f(key)
    }
  }

  datatype Locker = Locker(adder: Adder, deleter: Deleter, expire: Duration, retryTimes: int, retrySpan: Duration)

  /** The record DefaultLocker builds. */
  function DefaultLocker(): (l: Locker)
    ensures forall key :: !l.adder.Call(key)
    ensures forall key :: l.deleter.Call(key) == None
    ensures l.expire == 200 * Millisecond && l.retryTimes == 3 && l.retrySpan == 70 * Microsecond
  {
    Locker(NeverAcquire, AlwaysSucceed, DefaultExpire, DefaultRetryTimes, DefaultRetrySpan)
  }

  /** A LockerOptionHandler as returned by the With* functions. */
  datatype LockerOption =
    | WithLockerAdder(a: Adder)
    | WithLockerDeleter(d: Deleter)
    | WithLockerExpire(e: Duration)
    | WithLockerRetryTimes(rt: int)
    | WithLockerRetrySpan(rs: Duration)

  datatype Field = AdderField | DeleterField | ExpireField | RetryTimesField | RetrySpanField

  /** The one field an option assigns. */
  function Target(o: LockerOption): Field {
    match o
    case WithLockerAdder(_) => AdderField
    case WithLockerDeleter(_) => DeleterField
    case WithLockerExpire(_) => ExpireField
    case WithLockerRetryTimes(_) => RetryTimesField
    case WithLockerRetrySpan(_) => RetrySpanField
  }

  /** Two records agree on field `f`. */
  ghost predicate SameOn(f: Field, a: Locker, b: Locker) {
    match f
    case AdderField => a.adder == b.adder
    case DeleterField => a.deleter == b.deleter
    case ExpireField => a.expire == b.expire
    case RetryTimesField => a.retryTimes == b.retryTimes
    case RetrySpanField => a.retrySpan == b.retrySpan
  }

  /** The body of the closure an option stands for: `fn(&l)`. */
  function Apply(o: LockerOption, l: Locker): Locker {
    match o
    case WithLockerAdder(a) => l.(adder := a)
    case WithLockerDeleter(d) => l.(deleter := d)
    case WithLockerExpire(e) => l.(expire := e)
    case WithLockerRetryTimes(rt) => l.(retryTimes := rt)
    case WithLockerRetrySpan(rs) => l.(retrySpan := rs)
  }

  /** Each option assigns its own field and leaves the other four as they were. */
  lemma ApplyChangesOneField(o: LockerOption, l: Locker, f: Field)
    ensures f != Target(o) ==> SameOn(f, Apply(o, l), l)
    ensures Apply(o, l) == Apply(o, Apply(o, l))
    ensures SameOn(Target(o), Apply(o, l), Apply(o, DefaultLocker()))
  {
  }

  /** `l` after the options are applied from left to right. */
  function Configured(opts: seq<LockerOption>, l: Locker): Locker {
    if opts == [] then l else Apply(opts[|opts| - 1], Configured(opts[..|opts| - 1], l))
  }

  /** NewLocker: start from the defaults and apply every option in order. */
  method NewLocker(opts: seq<LockerOption>) returns (l: Locker)
    ensures l == Configured(opts, DefaultLocker())
  {
    l := DefaultLocker();
    var i := 0;
    while i < |opts|
      invariant 0 <= i <= |opts|
      invariant l == Configured(opts[..i], DefaultLocker())
    {
      assert opts[..i + 1][..i] == opts[..i];
      l := Apply(opts[i], l);
      i := i + 1;
    }
    assert opts[..|opts|] == opts;
  }

  /** With no options NewLocker gives DefaultLocker, field by field. */
  lemma NewLockerNoOptions(l: Locker)
    requires l == Configured([], DefaultLocker())
    ensures l.adder == NeverAcquire && l.deleter == AlwaysSucceed
    ensures l.expire == DefaultExpire && l.retryTimes == DefaultRetryTimes && l.retrySpan == DefaultRetrySpan
  {
  }

  /** Options that do not touch field `f` leave it as it was. */
  lemma {:induction false} OthersKeepField(post: seq<LockerOption>, f: Field, l: Locker)
    requires forall p :: p in post ==> Target(p) != f
    ensures SameOn(f, Configured(post, l), l)
  {
    if post != [] {
      var last := post[|post| - 1];
      var rest := post[..|post| - 1];
      assert last in post;
      assert forall p :: p in rest ==> p in post;
      OthersKeepField(rest, f, l);
      ApplyChangesOneField(last, Configured(rest, l), f);
    }
  }

  /** Options are applied left to right: Configured over a concatenation runs the first
      part, then the second. */
  lemma {:induction false} ConfiguredAppend(a: seq<LockerOption>, b: seq<LockerOption>, l: Locker)
    ensures Configured(a + b, l) == Configured(b, Configured(a, l))
  {
    if b == [] {
      assert a + b == a;
    } else {
      assert (a + b)[..|a + b| - 1] == a + b[..|b| - 1];
      ConfiguredAppend(a, b[..|b| - 1], l);
    }
  }

  /** The later option wins: the value an option sets survives every later option that
      targets another field, whatever came before it. */
  lemma LaterOptionWins(pre: seq<LockerOption>, o: LockerOption, post: seq<LockerOption>, l: Locker)
    requires forall p :: p in post ==> Target(p) != Target(o)
    ensures SameOn(Target(o), Configured(pre + [o] + post, l), Apply(o, l))
  {
    var mid := Configured(pre + [o], l);
    ConfiguredAppend(pre + [o], post, l);
    OthersKeepField(post, Target(o), mid);
    assert (pre + [o])[..|pre + [o]| - 1] == pre;
  }
}
