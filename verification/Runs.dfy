/** Options, and runs of a transition system given as a partial step function.

    Every protocol of this project is a function `next(state, event)` that answers
    `None` when the event cannot happen in that state.  A run is a sequence of events. */
module Runs {

  datatype Option<+T> = None | Some(value: T)

  function Exec<S, E>(next: (S, E) -> Option<S>, s: S, es: seq<E>): Option<S> {
    if es == [] then Some(s)
    else match next(s, es[0])
      case None => None
      case Some(t) => Exec(next, t, es[1..])
  }

  /** Every step keeps `inv`. */
  ghost predicate Inductive<S(!new), E(!new)>(next: (S, E) -> Option<S>, inv: S -> bool) {
    forall s: S, e: E :: inv(s) && next(s, e).Some? ==> inv(next(s, e).value)
  }

  /** An inductive invariant holds at the end of every run that starts inside it. */
  lemma {:induction false} InvariantOfRuns<S(!new), E(!new)>(next: (S, E) -> Option<S>, inv: S -> bool, s: S, es: seq<E>)
    requires Inductive(next, inv) && inv(s) && Exec(next, s, es).Some?
    ensures inv(Exec(next, s, es).value)
  {
    if es != [] {
      InvariantOfRuns(next, inv, next(s, es[0]).value, es[1..]);
    }
  }

  /** Runs compose: doing `a` and then `b` is doing `a + b`. */
  lemma {:induction false} ExecAppend<S, E>(next: (S, E) -> Option<S>, s: S, a: seq<E>, b: seq<E>)
    requires Exec(next, s, a).Some?
    ensures Exec(next, s, a + b) == Exec(next, Exec(next, s, a).value, b)
  {
    if a == [] {
      assert a + b == b;
    } else {
      assert (a + b)[0] == a[0] && (a + b)[1..] == a[1..] + b;
      ExecAppend(next, next(s, a[0]).value, a[1..], b);
    }
  }

  /** One more event at the end of a run. */
  lemma ExecSnoc<S, E>(next: (S, E) -> Option<S>, s: S, es: seq<E>, e: E)
    requires Exec(next, s, es).Some?
    ensures Exec(next, s, es + [e]) == next(Exec(next, s, es).value, e)
  {
    ExecAppend(next, s, es, [e]);
    var t := Exec(next, s, es).value;
    if next(t, e).Some? {
      assert [e][1..] == [];
    }
  }

  /** One more event of a run that is being built. */
  lemma ExecThen<S, E>(next: (S, E) -> Option<S>, s: S, es: seq<E>, t: S, e: E) returns (es': seq<E>, u: S)
    requires Exec(next, s, es) == Some(t) && next(t, e).Some?
    ensures es' == es + [e] && Exec(next, s, es') == Some(u) && Some(u) == next(t, e)
  {
    es' := es + [e];
    u := next(t, e).value;
    ExecSnoc(next, s, es, e);
  }

  /** A moment of a run: the number of the event that came next, and the state it found. */
  datatype Moment<+S> = Moment(k: nat, s: S)

  ghost predicate Occurs<S, E>(next: (S, E) -> Option<S>, start: S, h: seq<E>, m: Moment<S>) {
    m.k < |h| && Exec(next, start, h[..m.k]) == Some(m.s)
  }

  /** As a history goes on, its moments stay. */
  lemma OccursStays<S, E>(next: (S, E) -> Option<S>, start: S, h: seq<E>, after: seq<E>, m: Moment<S>)
    requires Occurs(next, start, h, m)
    requires |h| <= |after| && forall i :: 0 <= i < |h| ==> after[i] == h[i]
    ensures Occurs(next, start, after, m) && after[m.k] == h[m.k]
  {
    assert after[..m.k] == h[..m.k];
  }

  /** There is always a number not yet in use. */
  lemma {:induction false} Unused(used: set<nat>) returns (n: nat)
    ensures forall u :: u in used ==> u < n
  {
    n := 0;
    if used != {} {
      var u :| u in used;
      n := Unused(used - {u});
      if n <= u { n := u + 1; }
      forall x | x in used ensures x < n { if x != u { assert x in used - {u}; } }
    }
  }

  // ------------------------------------------------------------------ histories with answers

  /** A history of calls: the end state and the answers. */
  function Serve<S, C, R>(act: (S, C) -> (S, R), s: S, calls: seq<C>): (r: (S, seq<R>))
    ensures |r.1| == |calls|
    decreases |calls|
  {
    if calls == [] then (s, [])
    else
      var first := act(s, calls[0]);
      var rest := Serve(act, first.0, calls[1..]);
      (rest.0, [first.1] + rest.1)
  }

  function Select<C>(calls: seq<C>, mine: C -> bool): seq<C> {
    if calls == [] then [] else (if mine(calls[0]) then [calls[0]] else []) + Select(calls[1..], mine)
  }

  function AnswersTo<C, R>(calls: seq<C>, answers: seq<R>, mine: C -> bool): seq<R>
    requires |calls| == |answers|
  {
    if calls == [] then []
    else (if mine(calls[0]) then [answers[0]] else []) + AnswersTo(calls[1..], answers[1..], mine)
  }

  /** `view` sees its own calls act as `alone` does and every other call do nothing. */
  ghost predicate Separate<S(!new), V, C(!new), R>(
    act: (S, C) -> (S, R), alone: (V, C) -> (V, R), view: S -> V, mine: C -> bool, fair: C -> bool)
  {
    forall s: S, c: C :: fair(c) ==>
      if mine(c) then (view(act(s, c).0), act(s, c).1) == alone(view(s), c) else view(act(s, c).0) == view(s)
  }

  /** Then whole histories are separate too: the calls of others change neither the answers nor the end. */
  lemma {:induction false} SeparateHistories<S(!new), V, C(!new), R>(
      act: (S, C) -> (S, R), alone: (V, C) -> (V, R), view: S -> V, mine: C -> bool, fair: C -> bool, s: S, calls: seq<C>)
    requires Separate(act, alone, view, mine, fair) && forall i :: 0 <= i < |calls| ==> fair(calls[i])
    ensures (view(Serve(act, s, calls).0), AnswersTo(calls, Serve(act, s, calls).1, mine))
         == Serve(alone, view(s), Select(calls, mine))
    decreases |calls|
  {
    if calls != [] {
      var c, first := calls[0], act(s, calls[0]);
      assert fair(c);
      SeparateHistories(act, alone, view, mine, fair, first.0, calls[1..]);
      var rest := Serve(act, first.0, calls[1..]).1;
      assert ([first.1] + rest)[1..] == rest;
      if mine(c) {
        var own := [c] + Select(calls[1..], mine);
        assert own[1..] == Select(calls[1..], mine);
      } else {
        assert [] + Select(calls[1..], mine) == Select(calls[1..], mine);
        assert [] + AnswersTo(calls[1..], rest, mine) == AnswersTo(calls[1..], rest, mine);
      }
    }
  }
}
