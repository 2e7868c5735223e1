/**
 * The output sink the renderer writes to (Rust's `io::Write`), reduced to
 * what the renderer can observe: each `write!` either appends its whole
 * string or fails and appends nothing. Which write fails is fixed in
 * advance by a schedule: the attempt with index `failAt`, if any.
 */
module Sinks {
  import opened Wrappers
  import opened Fragments

  /** What the sink holds and how many writes were attempted on it. */
  datatype SinkState = SinkState(output: string, attempts: nat)

  /**
   * Issuing writes one after another, stopping at the first that fails: the
   * final state, and whether every write succeeded.
   */
  function Issue(st: SinkState, failAt: Option<nat>, ws: seq<string>): (SinkState, bool)
    decreases |ws|
  {
    if ws == [] then (st, true)
    else if failAt == Some(st.attempts) then (SinkState(st.output, st.attempts + 1), false)
    else Issue(SinkState(st.output + ws[0], st.attempts + 1), failAt, ws[1..])
  }

  /** How many of `n` writes starting at attempt `start` go through before the scheduled failure. */
  function Accepted(failAt: Option<nat>, start: nat, n: nat): (m: nat)
    ensures m <= n
    ensures m < n <==> failAt.Some? && start <= failAt.value < start + n
    ensures m < n ==> failAt.value == start + m
  {
    if failAt.Some? && start <= failAt.value < start + n then failAt.value - start else n
  }

  /**
   * Issuing a list of writes appends exactly the writes before the failing
   * one, attempts the failing one, and attempts nothing after it.
   */
  lemma {:induction false} IssueClosedForm(st: SinkState, failAt: Option<nat>, ws: seq<string>)
    ensures var m := Accepted(failAt, st.attempts, |ws|);
      Issue(st, failAt, ws)
        == (SinkState(st.output + Concat(ws[..m]), st.attempts + if m < |ws| then m + 1 else m), m == |ws|)
    decreases |ws|
  {
    var m := Accepted(failAt, st.attempts, |ws|);
    if ws == [] || failAt == Some(st.attempts) {
      assert m == 0 && ws[..m] == [];
      assert st.output + Concat(ws[..m]) == st.output;
    } else {
      var st' := SinkState(st.output + ws[0], st.attempts + 1);
      IssueClosedForm(st', failAt, ws[1..]);
      var m' := Accepted(failAt, st'.attempts, |ws| - 1);
      assert m == m' + 1;
      assert ws[..m] == [ws[0]] + ws[1..][..m'];
      ConcatAppend([ws[0]], ws[1..][..m']);
      assert Concat([ws[0]]) == ws[0] by { assert [ws[0]][1..] == []; }
      assert st'.output + Concat(ws[1..][..m']) == st.output + Concat(ws[..m]);
    }
  }

  /** Issuing `a` then `b` is issuing `a + b`; after a failure nothing more happens. */
  lemma {:induction false} IssueAppend(st: SinkState, failAt: Option<nat>, a: seq<string>, b: seq<string>)
    ensures Issue(st, failAt, a + b)
      == if Issue(st, failAt, a).1 then Issue(Issue(st, failAt, a).0, failAt, b) else Issue(st, failAt, a)
    decreases |a|
  {
    if a == [] {
      assert a + b == b;
    } else if failAt != Some(st.attempts) {
      assert (a + b)[1..] == a[1..] + b;
      IssueAppend(SinkState(st.output + a[0], st.attempts + 1), failAt, a[1..], b);
    }
  }

  /** One step of a run: writes `ws` issued after the successful writes `done`. */
  lemma IssueStep(failAt: Option<nat>, st0: SinkState, before: SinkState, after: SinkState,
                  done: seq<string>, ws: seq<string>, later: seq<string>, ok: bool)
    requires Issue(st0, failAt, done) == (before, true)
    requires Issue(before, failAt, ws) == (after, ok)
    ensures ok ==> Issue(st0, failAt, done + ws) == (after, true)
    ensures !ok ==> Issue(st0, failAt, done + (ws + later)) == (after, false)
  {
    IssueAppend(st0, failAt, done, ws);
    IssueAppend(st0, failAt, done, ws + later);
    IssueAppend(before, failAt, ws, later);
  }

  /** A sink that never fails receives every write. */
  lemma NeverFailingSink(st: SinkState, ws: seq<string>)
    ensures Issue(st, None, ws) == (SinkState(st.output + Concat(ws), st.attempts + |ws|), true)
  {
    IssueClosedForm(st, None, ws);
    assert ws[..|ws|] == ws;
  }

  class Sink {
    /** The index of the write attempt that fails, if one does. */
    const failAt: Option<nat>
    var output: string
    var attempts: nat

    constructor (failAt: Option<nat>)
      ensures this.failAt == failAt && output == [] && attempts == 0
    {
      this.failAt := failAt;
      output := [];
      attempts := 0;
    }

    ghost function State(): SinkState
      reads this
    {
      SinkState(output, attempts)
    }

    /** `Issue` applied to this sink: from state `st0`, the writes `ws` lead to the current state with outcome `ok`. */
    ghost predicate Did(st0: SinkState, ws: seq<string>, ok: bool)
      reads this
    {
      Issue(st0, failAt, ws) == (State(), ok)
    }

    /** One `write!`: appends all of `s`, or fails and appends nothing. */
    method Write(s: string) returns (ok: bool)
      modifies this
      ensures ok == (failAt != Some(old(attempts)))
      ensures output == if ok then old(output) + s else old(output)
      ensures attempts == old(attempts) + 1
      ensures Did(old(State()), [s], ok)
    {
      ok := failAt != Some(attempts);
      if ok {
        output := output + s;
      }
      attempts := attempts + 1;
      assert [s][1..] == [];
    }
  }
}
