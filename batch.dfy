/** Sequences of database writes under a fault oracle. The database accepts a
    given number of further writes (`Some(k)`) or never fails (`None`); the
    write after the last accepted one throws, and a handler stops at the
    first throw. A nested insert walk is described by the flat sequence of
    inserts it issues, its plan, the k-th of them receiving id `n + k`. */
module Batch {
  import opened Wrappers

  /** `n` more writes succeed. */
  predicate Fits(writesLeft: Option<nat>, n: nat)
  {
    writesLeft.None? || n <= writesLeft.value
  }

  /** The part of `cmds` that is actually written before the fault. */
  function Written<I>(writesLeft: Option<nat>, cmds: seq<I>): (w: seq<I>)
    ensures w <= cmds
    ensures Fits(writesLeft, |w|)
    ensures w == cmds <==> Fits(writesLeft, |cmds|)
    ensures !Fits(writesLeft, |cmds|) ==> |w| == writesLeft.value
  {
    if Fits(writesLeft, |cmds|) then cmds else cmds[..writesLeft.value]
  }

  /** The oracle after `n` successful writes. */
  function Spend(writesLeft: Option<nat>, n: nat): (r: Option<nat>)
    requires Fits(writesLeft, n)
    ensures r.None? <==> writesLeft.None?
    ensures r.Some? ==> r.value == writesLeft.value - n
  {
    match writesLeft
    case None => None
    case Some(k) => Some(k - n)
  }

  /** A store: its rows, the next id its sequence hands out, and the fault oracle. */
  datatype Store<S> = Store(rows: S, nextId: int, writesLeft: Option<nat>)

  /** The rows after inserting `cmds` in order, the k-th with id `n + k`. */
  function ApplyAll<S, I>(apply: (S, I, int) -> S, rows: S, cmds: seq<I>, n: int): S
  {
    if cmds == [] then rows
    else apply(ApplyAll(apply, rows, cmds[..|cmds| - 1], n), cmds[|cmds| - 1], n + |cmds| - 1)
  }

  /** The store after attempting `cmds`: the written prefix applied, one id
      consumed per written insert, the oracle spent. */
  function Run<S, I>(apply: (S, I, int) -> S, st: Store<S>, cmds: seq<I>): Store<S>
  {
    var w := Written(st.writesLeft, cmds);
    Store(ApplyAll(apply, st.rows, w, st.nextId), st.nextId + |w|, Spend(st.writesLeft, |w|))
  }

  lemma {:induction false} ApplyAllAppend<S, I>(apply: (S, I, int) -> S, rows: S, a: seq<I>, b: seq<I>, n: int)
    ensures ApplyAll(apply, rows, a + b, n) == ApplyAll(apply, ApplyAll(apply, rows, a, n), b, n + |a|)
  {
    if b == [] {
      assert a + b == a;
    } else {
      assert (a + b)[..|a + b| - 1] == a + b[..|b| - 1];
      ApplyAllAppend(apply, rows, a, b[..|b| - 1], n);
    }
  }

  /** Running `a` then `b` is running `a + b`, provided `a` is written whole. */
  lemma RunAppend<S, I>(apply: (S, I, int) -> S, st: Store<S>, a: seq<I>, b: seq<I>)
    requires Fits(st.writesLeft, |a|)
    ensures Run(apply, st, a + b) == Run(apply, Run(apply, st, a), b)
    ensures Fits(st.writesLeft, |a + b|) <==> Fits(Run(apply, st, a).writesLeft, |b|)
  {
    var mid := Run(apply, st, a);
    var left := Spend(st.writesLeft, |a|);
    assert Written(st.writesLeft, a) == a;
    assert mid == Store(ApplyAll(apply, st.rows, a, st.nextId), st.nextId + |a|, left);
    var wb := Written(left, b);
    WrittenAppend(st.writesLeft, a, b);
    ApplyAllAppend(apply, st.rows, a, wb, st.nextId);
    assert Fits(left, |wb|);
    assert Spend(st.writesLeft, |a + wb|) == Spend(left, |wb|);
  }

  lemma WrittenAppend<I>(writesLeft: Option<nat>, a: seq<I>, b: seq<I>)
    requires Fits(writesLeft, |a|)
    ensures Written(writesLeft, a + b) == a + Written(Spend(writesLeft, |a|), b)
  {
    if !Fits(writesLeft, |a + b|) {
      var k := writesLeft.value;
      assert (a + b)[..k] == a + b[..k - |a|];
    }
  }

  /** Once a prefix `a` of `b` overruns the oracle, the rest of `b` is never
      attempted: running `b` is running `a`. */
  lemma RunStops<S, I>(apply: (S, I, int) -> S, st: Store<S>, a: seq<I>, b: seq<I>)
    requires a <= b && !Fits(st.writesLeft, |a|)
    ensures Run(apply, st, b) == Run(apply, st, a)
    ensures !Fits(st.writesLeft, |b|)
  {
    assert b[..st.writesLeft.value] == a[..st.writesLeft.value];
  }

  /** Attempting nothing changes nothing. */
  lemma RunNil<S, I>(apply: (S, I, int) -> S, st: Store<S>)
    ensures Run(apply, st, []) == st && Fits(st.writesLeft, 0)
  {
    match st.writesLeft
    case None =>
    case Some(k) =>
  }

  /** A run that fits consumes one id per command. */
  lemma RunNextId<S, I>(apply: (S, I, int) -> S, st: Store<S>, cmds: seq<I>)
    requires Fits(st.writesLeft, |cmds|)
    ensures Run(apply, st, cmds).nextId == st.nextId + |cmds|
  {
  }

  /** One step of a walk whose whole plan is `full`: after the commands
      `prev` have been written, running `one` either writes it whole and the
      store is that of `prev + one`, or it overruns the oracle and the store
      is that of the whole plan, which then does not fit. */
  lemma RunStep<S, I>(apply: (S, I, int) -> S, s0: Store<S>, prev: seq<I>, one: seq<I>, full: seq<I>, mid: Store<S>, fin: Store<S>)
    requires Fits(s0.writesLeft, |prev|) && mid == Run(apply, s0, prev) && fin == Run(apply, mid, one)
    requires prev + one <= full
    ensures Fits(mid.writesLeft, |one|) ==> fin == Run(apply, s0, prev + one) && Fits(s0.writesLeft, |prev + one|)
    ensures !Fits(mid.writesLeft, |one|) ==> fin == Run(apply, s0, full) && !Fits(s0.writesLeft, |full|)
  {
    RunAppend(apply, s0, prev, one);
    if !Fits(mid.writesLeft, |one|) {
      RunStops(apply, s0, prev + one, full);
    }
  }
}
