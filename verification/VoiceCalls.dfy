/** The reservation that keeps one Idempotency-Key from dialling twice: POST /calls of
    apps/server/src/voice-routes.ts over the client of packages/integrations/src/vapi.ts, with the
    refreshes of GET /calls/:id running beside it.

    One tenant, owner and key; every event is one store call or one provider answer. */
module VoiceCalls {
  import opened Runs

  type Pid = nat

  datatype CallStatus = Pending | Live | Ended

  /** What a request to the provider comes to.  A lost answer is a timeout, a server error or a reply
      without an id: the call was placed, and the client throws as it does for a refusal. */
  datatype Outcome = Answered | Refused | Lost

  datatype Proc =
    | Reserve
    | Existing
    | Dialling
    | Hangup                      // the provider call threw: remove the reservation
    | Persist                     // it returned: save the record
    | RefreshGet
    | RefreshLive(seen: CallStatus)
    | RefreshPut(status: CallStatus)
    | Finished

  datatype State = State(
    record: Option<CallStatus>,
    procs: map<Pid, Proc>,
    // history, read by no step
    dialling: Option<Pid>,        // the request that holds the reservation
    attempts: nat,                // provider calls started
    answered: nat,                // calls placed whose answer arrived
    lost: nat)                    // calls placed whose answer did not

  const START := State(None, map[], None, 0, 0, 0)

  function Placed(s: State): nat { s.answered + s.lost }

  datatype Event =
    | Begin(p: Pid, refresh: bool)
    | Go(p: Pid, outcome: Outcome, status: CallStatus)
    | Throw(p: Pid)               // the awaited store call failed without effect, or the process died
    | Commit(p: Pid, outcome: Outcome, status: CallStatus)  // it took effect, and then failed or the process died

  datatype Move = Move(s: State, pc: Proc)

  function Advance(s: State, p: Pid, outcome: Outcome, status: CallStatus, pc: Proc): (m: Option<Move>)
    ensures m.Some? ==> m.value.s.procs == s.procs
  {
    match pc
    case Reserve =>
      if s.record.None? then Some(Move(s.(record := Some(Pending), dialling := Some(p), attempts := s.attempts + 1), Dialling))
      else Some(Move(s, Existing))
    case Existing => Some(Move(s, Finished))
    case Dialling =>
      (match outcome
       case Answered => Some(Move(s.(answered := s.answered + 1), Persist))
       case Refused => Some(Move(s, Hangup))
       case Lost => Some(Move(s.(lost := s.lost + 1), Hangup)))
    case Hangup => Some(Move(s.(record := None, dialling := None), Finished))
    case Persist => Some(Move(s.(record := Some(status), dialling := None), Finished))
    case RefreshGet =>
      if s.record.None? || s.record.value.Ended? then Some(Move(s, Finished)) else Some(Move(s, RefreshLive(s.record.value)))
    case RefreshLive(seen) => if outcome.Answered? then Some(Move(s, RefreshPut(status))) else Some(Move(s, Finished))
    case RefreshPut(st) => Some(Move(s.(record := Some(st)), Finished))
    case Finished => None
  }

  function Next(s: State, e: Event): Option<State> {
    match e
    case Begin(p, refresh) =>
      if p in s.procs then None else Some(s.(procs := s.procs[p := if refresh then RefreshGet else Reserve]))
    case Go(p, outcome, status) =>
      if p !in s.procs then None
      else (match Advance(s, p, outcome, status, s.procs[p])
        case None => None
        case Some(m) => Some(m.s.(procs := m.s.procs[p := m.pc])))
    case Throw(p) =>
      if p in s.procs && !s.procs[p].Finished? then Some(s.(procs := s.procs[p := Finished])) else None
    case Commit(p, outcome, status) =>
      if p !in s.procs then None
      else (match Advance(s, p, outcome, status, s.procs[p])
        case None => None
        case Some(m) => Some(m.s.(procs := m.s.procs[p := Finished])))
  }

  // ------------------------------------------------------------------ the invariant

  predicate Holds(pc: Proc) { pc.Dialling? || pc.Hangup? || pc.Persist? }

  /** While a request holds the reservation, or once an answer arrived, the record is there.  A reservation
      that a dead request left behind keeps `dialling`, and stays. */
  ghost predicate Inv(s: State) {
    && (forall p :: p in s.procs && Holds(s.procs[p]) ==> s.dialling == Some(p))
    && (s.dialling.Some? || s.answered > 0 ==> s.record.Some?)
    && (s.dialling.Some? ==> s.dialling.value in s.procs)
    && (forall p :: p in s.procs && (s.procs[p].Dialling? || s.procs[p].Hangup?) ==> s.answered == 0)
    && s.answered <= 1
    && Placed(s) + (if Dials(s) then 1 else 0) <= s.attempts
  }

  predicate Dials(s: State) {
    s.dialling.Some? && s.dialling.value in s.procs && s.procs[s.dialling.value].Dialling?
  }

  lemma StepKeepsInv(s: State, e: Event)
    requires Inv(s) && Next(s, e).Some?
    ensures Inv(Next(s, e).value)
  {
  }

  lemma InvOfRuns(es: seq<Event>, s: State)
    requires Exec(Next, START, es) == Some(s)
    ensures Inv(s)
  {
    forall t: State, e: Event | Inv(t) && Next(t, e).Some? ensures Inv(Next(t, e).value) { StepKeepsInv(t, e); }
    InvariantOfRuns(Next, t => Inv(t), START, es);
  }

  // ------------------------------------------------------------------ main results

  /** Over any run, with crashes, refusals, lost answers, failed saves and stale refreshes: two requests with
      one key are never inside the provider together, at most one answer ever arrives, and every call placed
      beyond the first is paid for by a lost answer. */
  lemma OneCallPerKey(es: seq<Event>, s: State, p: Pid, q: Pid)
    requires Exec(Next, START, es) == Some(s)
    ensures s.answered <= 1 && Placed(s) <= 1 + s.lost && Placed(s) <= s.attempts
    ensures p in s.procs && q in s.procs && s.procs[p].Dialling? && s.procs[q].Dialling? ==> p == q
  {
    InvOfRuns(es, s);
  }

  /** The reservation is gone, or a request can still take it away. */
  ghost predicate Retriable(s: State) {
    s.record.None? || exists p :: p in s.procs && (s.procs[p].Dialling? || s.procs[p].Hangup?)
  }

  ghost predicate Closed(s: State, attempts: nat, lost: nat, answered: nat) {
    Inv(s) && !Retriable(s) && s.attempts == attempts && s.lost == lost && s.answered == answered
  }

  lemma StepKeepsClosed(s: State, e: Event, attempts: nat, lost: nat, answered: nat)
    requires Closed(s, attempts, lost, answered) && Next(s, e).Some?
    ensures Inv(Next(s, e).value) && !Retriable(Next(s, e).value)
    ensures var t := Next(s, e).value; t.attempts == attempts && t.lost == lost && t.answered == answered
  {
    StepKeepsInv(s, e);
  }

  /** A reservation nobody can take away any more admits no other attempt. */
  lemma ClosedStays(s: State, after: seq<Event>)
    requires Inv(s) && !Retriable(s) && Exec(Next, s, after).Some?
    ensures var t := Exec(Next, s, after).value; t.attempts == s.attempts && Placed(t) == Placed(s)
  {
    forall t: State, e: Event | Closed(t, s.attempts, s.lost, s.answered) && Next(t, e).Some?
      ensures Closed(Next(t, e).value, s.attempts, s.lost, s.answered)
    {
      StepKeepsClosed(t, e, s.attempts, s.lost, s.answered);
    }
    InvariantOfRuns(Next, t => Closed(t, s.attempts, s.lost, s.answered), s, after);
  }

  /** The record goes, unless it is gone already. */
  lemma ThenItIsRemoved(s: State) returns (es: seq<Event>, t: State)
    requires Inv(s) && Retriable(s)
    ensures Exec(Next, s, es) == Some(t) && t.record.None? && t.attempts == s.attempts
  {
    es, t := [], s;
    if s.record.Some? {
      var p :| p in s.procs && (s.procs[p].Dialling? || s.procs[p].Hangup?);
      if s.procs[p].Dialling? { es, t := ExecThen(Next, s, es, t, Go(p, Refused, Pending)); }
      es, t := ExecThen(Next, s, es, t, Go(p, Refused, Pending));
    }
  }

  /** A new request finds the reservation free. */
  lemma ThenItIsTriedAgain(s: State) returns (es: seq<Event>, t: State)
    requires Inv(s) && Retriable(s)
    ensures Exec(Next, s, es) == Some(t) && t.attempts == s.attempts + 1
  {
    es, t := ThenItIsRemoved(s);
    var p := Unused(t.procs.Keys);
    es, t := ExecThen(Next, s, es, t, Begin(p, false));
    es, t := ExecThen(Next, s, es, t, Go(p, Refused, Pending));
  }

  /** Exactly when the key can be tried again: the reservation is gone, or the request that made it is still
      inside the provider or about to remove it. */
  lemma AnotherAttemptExactly(es: seq<Event>, s: State)
    requires Exec(Next, START, es) == Some(s)
    ensures (exists after: seq<Event> :: Exec(Next, s, after).Some? && Exec(Next, s, after).value.attempts > s.attempts)
            <==> Retriable(s)
  {
    InvOfRuns(es, s);
    if Retriable(s) {
      var after, t := ThenItIsTriedAgain(s);
    } else {
      forall after: seq<Event> | Exec(Next, s, after).Some? ensures Exec(Next, s, after).value.attempts == s.attempts {
        ClosedStays(s, after);
      }
    }
  }

  /** A call whose answer arrived is the last one: the provider is never asked again, even when saving its
      record failed. */
  lemma AnsweredCallIsTheLast(before: seq<Event>, s: State, after: seq<Event>)
    requires Exec(Next, START, before) == Some(s) && s.answered == 1 && Exec(Next, s, after).Some?
    ensures var t := Exec(Next, s, after).value; t.attempts == s.attempts && Placed(t) == Placed(s)
  {
    InvOfRuns(before, s);
    ClosedStays(s, after);
  }

  /** When a provider call ends, another attempt can follow exactly unless its answer arrived; of the removal
      that then follows, exactly unless it fails; and of a request that dies in either, none. */
  lemma WhatMayFollowACall(es: seq<Event>, s: State, p: Pid, outcome: Outcome)
    requires Exec(Next, START, es) == Some(s) && p in s.procs
    ensures s.procs[p].Dialling? ==> (Retriable(Next(s, Go(p, outcome, Pending)).value) <==> !outcome.Answered?)
    ensures s.procs[p].Hangup? ==> Retriable(Next(s, Go(p, outcome, Pending)).value)
    ensures s.procs[p].Dialling? || s.procs[p].Hangup? ==> !Retriable(Next(s, Throw(p)).value)
  {
    InvOfRuns(es, s);
    if s.procs[p].Dialling? {
      var t := Next(s, Go(p, outcome, Pending)).value;
      assert outcome.Answered? || (p in t.procs && t.procs[p].Hangup?);
    }
  }

  /** Two calls under one key: the first answer is lost, the reservation is removed, and the key is tried
      again. */
  lemma LostAnswerDialsTwice()
    ensures exists es: seq<Event> :: Exec(Next, START, es).Some? && Placed(Exec(Next, START, es).value) == 2
                                     && Exec(Next, START, es).value.answered == 1
  {
    var es, s := ExecThen(Next, START, [], START, Begin(1, false));
    es, s := ExecThen(Next, START, es, s, Go(1, Answered, Pending));
    es, s := ExecThen(Next, START, es, s, Go(1, Lost, Pending));
    es, s := ExecThen(Next, START, es, s, Go(1, Answered, Pending));
    es, s := ExecThen(Next, START, es, s, Begin(2, false));
    es, s := ExecThen(Next, START, es, s, Go(2, Answered, Pending));
    es, s := ExecThen(Next, START, es, s, Go(2, Answered, Live));
  }
}
