/** The browser worker's queues and sessions (apps/worker/src/browser.ts).  One step per stretch of code
    between two awaits.  `serial` chains each call behind the last one of its key; creating a session takes
    the key `create` and, inside it, the key of the session. */
module BrowserQueue {
  import opened Runs

  /** Session ids, and the name of the queue all creations share. */
  type Key = nat

  const CREATE: Key := 0

  const MAX_PROFILES := 20

  datatype Op = Create(id: Key) | Open(id: Key, parent: nat) | Close(id: Key) | Use(id: Key)

  /** Where a call stands: chained, inside its operation, settled, or past the `finally` of `serial`. */
  datatype Phase = Waiting | Entered | Launching(known: bool) | Opened(known: bool) | Busy | Awaiting(inner: nat) | Settled | Done

  datatype Ticket = Ticket(op: Op, prev: Option<nat>, phase: Phase)

  datatype State = State(tickets: seq<Ticket>, queues: map<Key, nat>, sessions: set<Key>, running: set<Key>, maxSessions: nat)

  /** What a browser or file operation comes to; a launch can also fail halfway. */
  datatype Fate = Good | Bad | Halfway

  datatype Event = Invoke(op: Op) | Begin(t: nat) | Proceed(t: nat, fate: Fate) | Clean(t: nat)

  function KeyOf(op: Op): Key { if op.Create? then CREATE else op.id }

  predicate Finished(p: Phase) { p.Settled? || p.Done? }

  predicate Active(p: Phase) { !p.Waiting? && !Finished(p) }

  // ------------------------------------------------------------------ steps

  function Enqueue(s: State, op: Op): State {
    var k := KeyOf(op);
    var prev := if k in s.queues then Some(s.queues[k]) else None;
    s.(tickets := s.tickets + [Ticket(op, prev, Waiting)], queues := s.queues[k := |s.tickets|])
  }

  function Put(s: State, t: nat, p: Phase): State
    requires t < |s.tickets|
  {
    s.(tickets := s.tickets[t := s.tickets[t].(phase := p)])
  }

  predicate Free(s: State, t: nat)
    requires t < |s.tickets|
  {
    var prev := s.tickets[t].prev;
    prev.None? || (prev.value < |s.tickets| && Finished(s.tickets[prev.value].phase))
  }

  function BeginStep(s: State, t: nat): Option<State> {
    if t >= |s.tickets| || !s.tickets[t].phase.Waiting? || !Free(s, t) then None
    else if s.tickets[t].op.Create? then Some(Enqueue(Put(s, t, Awaiting(|s.tickets|)), Open(s.tickets[t].op.id, t)))
    else Some(Put(s, t, Entered))
  }

  /** The failure branch of `createSession`. */
  function Withdraw(s: State, id: Key, known: bool): State {
    s.(running := s.running - {id}, sessions := if known then s.sessions + {id} else s.sessions - {id})
  }

  /** The call moves on inside its operation, or out of it; only it and the sessions change. */
  predicate Moves(s: State, after: State, t: nat) {
    && t < |s.tickets| == |after.tickets| && after == Put(after.(tickets := s.tickets), t, after.tickets[t].phase)
    && after.queues == s.queues && after.maxSessions == s.maxSessions
    && Active(s.tickets[t].phase)
    && var p := after.tickets[t].phase; !p.Waiting? && !p.Done? && !p.Awaiting? && !p.Entered?
  }

  function OpenStep(s: State, t: nat, fate: Fate): (r: Option<State>)
    requires t < |s.tickets| && s.tickets[t].op.Open?
    ensures r.Some? ==> Moves(s, r.value, t)
  {
    var id := s.tickets[t].op.id;
    match s.tickets[t].phase
    case Entered =>
      if fate != Good then Some(Put(s, t, Settled))
      else if id in s.running then Some(Put(s, t, Busy))
      else if |s.running| >= s.maxSessions || (id !in s.sessions && |s.sessions| >= MAX_PROFILES) then Some(Put(s, t, Settled))
      else Some(Put(s, t, Launching(id in s.sessions)))
    case Launching(known) =>
      if fate == Bad then Some(Put(s, t, Settled))
      else if fate == Halfway then Some(Put(Withdraw(s, id, known), t, Settled))
      else Some(Put(s.(running := s.running + {id}, sessions := s.sessions + {id}), t, Opened(known)))
    case Opened(known) =>
      Some(Put(if fate == Good then s else Withdraw(s, id, known), t, Settled))
    case Busy =>
      Some(Put(if fate == Good then s.(sessions := s.sessions + {id}) else s, t, Settled))
    case _ => None
  }

  function CloseStep(s: State, t: nat, fate: Fate): (r: Option<State>)
    requires t < |s.tickets| && s.tickets[t].op.Close?
    ensures r.Some? ==> Moves(s, r.value, t) && !r.value.tickets[t].phase.Launching? && !r.value.tickets[t].phase.Opened?
  {
    var id := s.tickets[t].op.id;
    if s.tickets[t].phase.Entered? then
      if id !in s.sessions then Some(Put(s, t, Settled))
      else if id !in s.running then Some(Put(s.(sessions := s.sessions + {id}), t, Settled))
      else Some(Put(s, t, Busy))
    else if s.tickets[t].phase.Busy? then
      if fate == Good then Some(Put(s.(running := s.running - {id}, sessions := s.sessions + {id}), t, Settled))
      else Some(Put(s, t, Settled))
    else None
  }

  /** Navigating, reading, typing and screenshots: all need an open session, and may record it again. */
  function UseStep(s: State, t: nat, fate: Fate): (r: Option<State>)
    requires t < |s.tickets| && s.tickets[t].op.Use?
    ensures r.Some? ==> Moves(s, r.value, t) && !r.value.tickets[t].phase.Launching? && !r.value.tickets[t].phase.Opened?
  {
    var id := s.tickets[t].op.id;
    if s.tickets[t].phase.Entered? then
      Some(Put(s, t, if id in s.running then Busy else Settled))
    else if s.tickets[t].phase.Busy? then
      Some(Put(if fate == Good then s.(sessions := s.sessions + {id}) else s, t, Settled))
    else None
  }

  function CreateStep(s: State, t: nat): (r: Option<State>)
    requires t < |s.tickets| && s.tickets[t].op.Create?
    ensures r.Some? ==> Moves(s, r.value, t) && r.value.tickets[t].phase.Settled?
  {
    var p := s.tickets[t].phase;
    if p.Awaiting? && p.inner < |s.tickets| && Finished(s.tickets[p.inner].phase) then Some(Put(s, t, Settled)) else None
  }

  function ProceedStep(s: State, t: nat, fate: Fate): Option<State> {
    if t >= |s.tickets| then None
    else
      match s.tickets[t].op
      case Create(_) => CreateStep(s, t)
      case Open(_, _) => OpenStep(s, t, fate)
      case Close(_) => CloseStep(s, t, fate)
      case Use(_) => UseStep(s, t, fate)
  }

  function CleanStep(s: State, t: nat): Option<State> {
    if t >= |s.tickets| || !s.tickets[t].phase.Settled? then None
    else
      var k := KeyOf(s.tickets[t].op);
      var after := Put(s, t, Done);
      Some(if k in s.queues && s.queues[k] == t then after.(queues := s.queues - {k}) else after)
  }

  function Next(s: State, e: Event): Option<State> {
    match e
    case Invoke(op) => if op.Open? then None else Some(Enqueue(s, op))
    case Begin(t) => BeginStep(s, t)
    case Proceed(t, fate) => ProceedStep(s, t, fate)
    case Clean(t) => CleanStep(s, t)
  }

  predicate Fresh(s: State) { s.tickets == [] && s.queues == map[] && s.running == {} }
}
