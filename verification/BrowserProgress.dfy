/** The browser worker's queues cannot lock up: from every reachable state all calls can be run to their end. */
module BrowserProgress {
  import opened Runs
  import opened BrowserQueue
  import opened BrowserSafety

  /** Session ids are UUIDs, so none is the name of the creation queue. */
  ghost predicate IdsValid(ts: seq<Ticket>) { forall t :: 0 <= t < |ts| ==> ts[t].op.id != CREATE }

  predicate ValidEvent(e: Event) { e.Invoke? ==> e.op.id != CREATE }

  ghost predicate Settable(s: State, e: Event) { !e.Invoke? && Next(s, e).Some? }

  /** A call on a session's key, or one before it, can move. */
  lemma {:induction false} PlainCanMove(s: State, profiles: nat, t: nat) returns (e: Event)
    requires Orderly(s, profiles) && IdsValid(s.tickets) && t < |s.tickets|
    requires KeyOf(s.tickets[t].op) != CREATE && !Finished(s.tickets[t].phase)
    ensures Settable(s, e)
    decreases t
  {
    var ticket := s.tickets[t];
    if ticket.phase.Waiting? {
      if Free(s, t) {
        e := Begin(t);
      } else {
        e := PlainCanMove(s, profiles, ticket.prev.value);
      }
    } else {
      e := Proceed(t, Good);
    }
  }

  lemma {:induction false} CanMove(s: State, profiles: nat, t: nat) returns (e: Event)
    requires Orderly(s, profiles) && IdsValid(s.tickets) && t < |s.tickets| && !s.tickets[t].phase.Done?
    ensures Settable(s, e)
    decreases t
  {
    var ticket := s.tickets[t];
    if ticket.phase.Settled? {
      e := Clean(t);
    } else if !ticket.op.Create? {
      e := PlainCanMove(s, profiles, t);
    } else if ticket.phase.Waiting? {
      if Free(s, t) {
        e := Begin(t);
      } else {
        e := CanMove(s, profiles, ticket.prev.value);
      }
    } else if Finished(s.tickets[ticket.phase.inner].phase) {
      e := Proceed(t, Good);
    } else {
      e := PlainCanMove(s, profiles, ticket.phase.inner);
    }
  }

  // ------------------------------------------------------------------ the work left

  function Weight(t: Ticket): nat {
    match t.phase
    case Waiting => if t.op.Create? then 10 else 6
    case Entered => 5
    case Launching(_) => 4
    case Opened(_) => 3
    case Busy => 2
    case Awaiting(_) => 2
    case Settled => 1
    case Done => 0
  }

  function Work(ts: seq<Ticket>): nat {
    if ts == [] then 0 else Work(ts[..|ts| - 1]) + Weight(ts[|ts| - 1])
  }

  lemma {:induction false} WorkMoves(ts: seq<Ticket>, t: nat, x: Ticket)
    requires t < |ts|
    ensures Work(ts[t := x]) + Weight(ts[t]) == Work(ts) + Weight(x)
    decreases |ts|
  {
    var n := |ts| - 1;
    if t == n {
      assert ts[t := x][..n] == ts[..n];
    } else {
      assert ts[t := x][..n] == ts[..n][t := x];
      WorkMoves(ts[..n], t, x);
    }
  }

  lemma WorkGrows(ts: seq<Ticket>, x: Ticket)
    ensures Work(ts + [x]) == Work(ts) + Weight(x)
  {
    assert (ts + [x])[..|ts|] == ts;
  }

  lemma BeginWorks(s: State, t: nat)
    requires t < |s.tickets| && BeginStep(s, t).Some?
    ensures Work(BeginStep(s, t).value.tickets) < Work(s.tickets)
  {
    var create := s.tickets[t].op.Create?;
    var moved := Put(s, t, if create then Awaiting(|s.tickets|) else Entered);
    WorkMoves(s.tickets, t, moved.tickets[t]);
    if create { WorkGrows(moved.tickets, BeginStep(s, t).value.tickets[|s.tickets|]); }
  }

  lemma MovesLighten(s: State, after: State, t: nat)
    requires Moves(s, after, t) && Weight(after.tickets[t]) < Weight(s.tickets[t])
    ensures Work(after.tickets) < Work(s.tickets)
  {
    WorkMoves(s.tickets, t, after.tickets[t]);
  }

  lemma ProceedLightens(s: State, t: nat, fate: Fate)
    requires t < |s.tickets| && ProceedStep(s, t, fate).Some?
    ensures Work(ProceedStep(s, t, fate).value.tickets) < Work(s.tickets)
  {
    MovesLighten(s, ProceedStep(s, t, fate).value, t);
  }

  lemma CleanLightens(s: State, t: nat)
    requires t < |s.tickets| && CleanStep(s, t).Some?
    ensures Work(CleanStep(s, t).value.tickets) < Work(s.tickets)
  {
    WorkMoves(s.tickets, t, CleanStep(s, t).value.tickets[t]);
  }

  /** Every step but a new call leaves less to do. */
  lemma WorkShrinks(s: State, e: Event)
    requires Settable(s, e)
    ensures Work(Next(s, e).value.tickets) < Work(s.tickets)
  {
    match e
    case Begin(t) => BeginWorks(s, t);
    case Proceed(t, fate) => ProceedLightens(s, t, fate);
    case Clean(t) => CleanLightens(s, t);
  }

  lemma StepKeepsIds(s: State, e: Event)
    requires IdsValid(s.tickets) && Next(s, e).Some? && ValidEvent(e)
    ensures IdsValid(Next(s, e).value.tickets)
  {
  }

  /** From every orderly state there is a run, without new calls, that ends every call and empties the map. */
  lemma {:induction false} RunsDry(s: State, profiles: nat) returns (es: seq<Event>)
    requires Orderly(s, profiles) && profiles >= MAX_PROFILES && IdsValid(s.tickets)
    ensures forall i :: 0 <= i < |es| ==> !es[i].Invoke?
    ensures Exec(Next, s, es).Some? && Exec(Next, s, es).value.queues == map[]
    ensures forall t :: 0 <= t < |Exec(Next, s, es).value.tickets| ==> Exec(Next, s, es).value.tickets[t].phase.Done?
    decreases Work(s.tickets)
  {
    if t :| 0 <= t < |s.tickets| && !s.tickets[t].phase.Done? {
      var e := CanMove(s, profiles, t);
      var next := Next(s, e).value;
      WorkShrinks(s, e);
      StepKeepsOrderly(s, e, profiles);
      StepKeepsIds(s, e);
      var rest := RunsDry(next, profiles);
      es := [e] + rest;
      assert es[1..] == rest;
    } else {
      es := [];
    }
  }

  /** No reachable state is a deadlock when every id is a session id. */
  lemma NothingLocksUp(s: State, past: seq<Event>) returns (es: seq<Event>)
    requires Fresh(s) && Exec(Next, s, past).Some? && forall i :: 0 <= i < |past| ==> ValidEvent(past[i])
    ensures forall i :: 0 <= i < |es| ==> !es[i].Invoke?
    ensures Exec(Next, s, past + es).Some? && Exec(Next, s, past + es).value.queues == map[]
    ensures forall t :: 0 <= t < |Exec(Next, s, past + es).value.tickets| ==>
              Exec(Next, s, past + es).value.tickets[t].phase.Done?
  {
    var now, profiles := Exec(Next, s, past).value, |s.sessions| + MAX_PROFILES;
    ReachableIsOrderly(s, past, profiles);
    ReachableIds(s, past);
    es := RunsDry(now, profiles);
    ExecAppend(Next, s, past, es);
  }

  lemma {:induction false} ReachableIds(s: State, es: seq<Event>)
    requires IdsValid(s.tickets) && Exec(Next, s, es).Some? && forall i :: 0 <= i < |es| ==> ValidEvent(es[i])
    ensures IdsValid(Exec(Next, s, es).value.tickets)
    decreases |es|
  {
    if es != [] {
      assert ValidEvent(es[0]);
      StepKeepsIds(s, es[0]);
      ReachableIds(Next(s, es[0]).value, es[1..]);
    }
  }

  /** The condition is needed: creating a session named like the creation queue waits for itself. */
  lemma CreateNamedCreateLocksUp(s: State, e: Event)
    requires Fresh(s) && !e.Invoke?
    ensures var called := Next(s, Invoke(Create(CREATE)));
      called.Some? && Next(called.value, Begin(0)).Some? && Next(Next(called.value, Begin(0)).value, e).None?
  {
    var called := Next(s, Invoke(Create(CREATE))).value;
    var stuck := Next(called, Begin(0)).value;
    assert |stuck.tickets| == 2 && stuck.tickets[1].prev == Some(0) && stuck.tickets[0].phase == Awaiting(1);
  }
}
