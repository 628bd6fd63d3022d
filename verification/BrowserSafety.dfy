/** What holds of the browser worker's queues and sessions in every reachable state. */
module BrowserSafety {
  import opened Runs
  import opened BrowserQueue

  // ------------------------------------------------------------------ the queues

  /** A call has begun only when all earlier calls of its key are over. */
  ghost predicate InOrder(ts: seq<Ticket>) {
    forall t, u :: 0 <= t < u < |ts| && KeyOf(ts[t].op) == KeyOf(ts[u].op) && !ts[u].phase.Waiting? ==> Finished(ts[t].phase)
  }

  /** The map holds the last call of each key that is not over, and may still hold a settled one. */
  ghost predicate Heads(ts: seq<Ticket>, qs: map<Key, nat>) {
    && (forall k :: k in qs ==> qs[k] < |ts| && KeyOf(ts[qs[k]].op) == k && !ts[qs[k]].phase.Done?)
    && (forall t :: 0 <= t < |ts| ==>
          var k := KeyOf(ts[t].op);
          if k in qs then t <= qs[k] else Finished(ts[t].phase))
  }

  /** A call waits for the one right before it, or for nothing when all before it are over. */
  ghost predicate Chained(ts: seq<Ticket>) {
    forall t, u :: 0 <= t < u < |ts| && KeyOf(ts[t].op) == KeyOf(ts[u].op) ==>
      if ts[u].prev.None? then Finished(ts[t].phase) else t <= ts[u].prev.value
  }

  ghost predicate PrevInside(ts: seq<Ticket>) {
    forall u :: 0 <= u < |ts| && ts[u].prev.Some? ==>
      ts[u].prev.value < u && KeyOf(ts[ts[u].prev.value].op) == KeyOf(ts[u].op)
  }

  ghost predicate Queued(ts: seq<Ticket>, qs: map<Key, nat>) {
    InOrder(ts) && Heads(ts, qs) && Chained(ts) && PrevInside(ts)
  }

  lemma FreeMeansFirst(s: State, u: nat, t: nat)
    requires Queued(s.tickets, s.queues) && t < u < |s.tickets| && KeyOf(s.tickets[t].op) == KeyOf(s.tickets[u].op)
    requires Free(s, u)
    ensures Finished(s.tickets[t].phase)
  {
  }

  function Moved(ts: seq<Ticket>, t: nat, p: Phase): seq<Ticket>
    requires t < |ts|
  {
    ts[t := ts[t].(phase := p)]
  }

  lemma MovedKeepsOrder(ts: seq<Ticket>, t: nat, p: Phase)
    requires InOrder(ts) && t < |ts| && (Finished(ts[t].phase) ==> Finished(p))
    requires !ts[t].phase.Waiting? || forall u :: 0 <= u < t && KeyOf(ts[u].op) == KeyOf(ts[t].op) ==> Finished(ts[u].phase)
    ensures InOrder(Moved(ts, t, p))
  {
  }

  lemma MovedKeepsHeads(ts: seq<Ticket>, qs: map<Key, nat>, t: nat, p: Phase)
    requires Heads(ts, qs) && t < |ts| && !p.Done? && (Finished(ts[t].phase) ==> Finished(p))
    ensures Heads(Moved(ts, t, p), qs)
  {
  }

  lemma MovedKeepsChain(ts: seq<Ticket>, t: nat, p: Phase)
    requires Chained(ts) && PrevInside(ts) && t < |ts| && (Finished(ts[t].phase) ==> Finished(p))
    ensures Chained(Moved(ts, t, p)) && PrevInside(Moved(ts, t, p))
  {
  }

  lemma PutKeepsQueues(s: State, t: nat, p: Phase)
    requires Queued(s.tickets, s.queues) && t < |s.tickets| && !p.Waiting? && !p.Done?
    requires if s.tickets[t].phase.Waiting? then Free(s, t) else (Finished(s.tickets[t].phase) ==> p.Settled?)
    ensures Queued(Put(s, t, p).tickets, s.queues)
  {
    var ts := s.tickets;
    forall u | 0 <= u < t && KeyOf(ts[u].op) == KeyOf(ts[t].op) && ts[t].phase.Waiting? ensures Finished(ts[u].phase) {
      FreeMeansFirst(s, t, u);
    }
    MovedKeepsOrder(ts, t, p);
    MovedKeepsHeads(ts, s.queues, t, p);
    MovedKeepsChain(ts, t, p);
  }

  lemma EnqueueKeepsQueues(s: State, op: Op)
    requires Queued(s.tickets, s.queues)
    ensures Queued(Enqueue(s, op).tickets, Enqueue(s, op).queues)
  {
    EnqueueKeepsChain(s, op);
  }

  lemma EnqueueKeepsChain(s: State, op: Op)
    requires Queued(s.tickets, s.queues)
    ensures Chained(Enqueue(s, op).tickets) && PrevInside(Enqueue(s, op).tickets)
  {
  }

  lemma CleanKeepsHeads(s: State, t: nat)
    requires InOrder(s.tickets) && Heads(s.tickets, s.queues) && CleanStep(s, t).Some?
    ensures Heads(CleanStep(s, t).value.tickets, CleanStep(s, t).value.queues)
  {
    var ts, k := s.tickets, KeyOf(s.tickets[t].op);
    if k in s.queues && s.queues[k] == t {
      forall u | 0 <= u < |ts| && KeyOf(ts[u].op) == k ensures Finished(ts[u].phase) {
        assert u <= t;
      }
    }
  }

  lemma CleanKeepsQueues(s: State, t: nat)
    requires Queued(s.tickets, s.queues) && CleanStep(s, t).Some?
    ensures Queued(CleanStep(s, t).value.tickets, CleanStep(s, t).value.queues)
  {
    CleanKeepsHeads(s, t);
    MovedKeepsOrder(s.tickets, t, Done);
    MovedKeepsChain(s.tickets, t, Done);
  }

  // ------------------------------------------------------------------ the nested call

  /** Each phase belongs to its kind of call; a creation and the call it makes name each other. */
  ghost predicate Nested(ts: seq<Ticket>) {
    forall t :: 0 <= t < |ts| ==>
      && (ts[t].op.Open? ==>
            var p := ts[t].op.parent;
            && p < t && ts[p].op == Create(ts[t].op.id)
            && (ts[p].phase == Awaiting(t) || (Finished(ts[p].phase) && Finished(ts[t].phase))))
      && (ts[t].phase.Awaiting? ==>
            var i := ts[t].phase.inner;
            t < i < |ts| && ts[t].op.Create? && ts[i].op == Open(ts[t].op.id, t))
      && (ts[t].op.Create? ==> ts[t].phase.Waiting? || ts[t].phase.Awaiting? || Finished(ts[t].phase))
      && (ts[t].phase.Launching? || ts[t].phase.Opened? ==> ts[t].op.Open?)
  }

  /** Creations exclude each other. */
  lemma OneOpen(ts: seq<Ticket>, i: nat, j: nat)
    requires InOrder(ts) && Nested(ts) && i < |ts| && j < |ts| && ts[i].op.Open? && ts[j].op.Open?
    requires !Finished(ts[i].phase) && !Finished(ts[j].phase)
    ensures i == j
  {
    var a, b := ts[i].op.parent, ts[j].op.parent;
    assert ts[a].phase == Awaiting(i) && ts[b].phase == Awaiting(j);
    assert KeyOf(ts[a].op) == KeyOf(ts[b].op);
  }

  // ------------------------------------------------------------------ the sessions

  /** What a call inside its operation knows about the session it works on. */
  ghost predicate Local(s: State, t: nat)
    requires t < |s.tickets|
  {
    var id := s.tickets[t].op.id;
    match s.tickets[t].phase
    case Launching(known) =>
      && id !in s.running && |s.running| < s.maxSessions && (known <==> id in s.sessions)
      && (known || |s.sessions| < MAX_PROFILES)
    case Opened(_) => id in s.running
    case Busy => id in s.running
    case _ => true
  }

  ghost predicate Within(s: State, profiles: nat) {
    && s.running <= s.sessions && |s.running| <= s.maxSessions && |s.sessions| <= profiles
    && forall t :: 0 <= t < |s.tickets| ==> Local(s, t)
  }

  /** The worker's invariant; `profiles` bounds the saved profiles. */
  ghost predicate Orderly(s: State, profiles: nat) {
    Queued(s.tickets, s.queues) && Nested(s.tickets) && Within(s, profiles)
  }

  lemma {:induction false} CardAdd(a: set<Key>, x: Key)
    ensures |a + {x}| == if x in a then |a| else |a| + 1
  {
    if x in a { assert a + {x} == a; }
  }

  lemma {:induction false} CardDrop(a: set<Key>, b: set<Key>)
    requires b <= a
    ensures |b| <= |a|
  {
    if b != {} {
      var x :| x in b;
      CardDrop(a - {x}, b - {x});
    }
  }

  // ------------------------------------------------------------------ steps keep the nesting

  lemma MovedKeepsNesting(ts: seq<Ticket>, t: nat, p: Phase)
    requires Nested(ts) && t < |ts| && !p.Awaiting? && (Finished(ts[t].phase) ==> Finished(p))
    requires p.Launching? || p.Opened? ==> ts[t].op.Open?
    requires ts[t].op.Create? ==>
               Finished(p) && !ts[t].phase.Waiting? &&
               (ts[t].phase.Awaiting? ==> ts[t].phase.inner < |ts| && Finished(ts[ts[t].phase.inner].phase))
    ensures Nested(Moved(ts, t, p))
  {
    var after := Moved(ts, t, p);
    forall j | 0 <= j < |ts| && ts[j].op.Open?
      ensures var q := ts[j].op.parent;
        q < j && after[q].op == Create(ts[j].op.id) &&
        (after[q].phase == Awaiting(j) || (Finished(after[q].phase) && Finished(after[j].phase)))
    {
      assert ts[ts[j].op.parent].op == Create(ts[j].op.id);
    }
  }

  lemma EnqueueKeepsNesting(s: State, op: Op)
    requires Nested(s.tickets) && !op.Open?
    ensures Nested(Enqueue(s, op).tickets)
  {
  }

  lemma NestKeepsNesting(s: State, t: nat)
    requires Nested(s.tickets) && t < |s.tickets| && s.tickets[t].op.Create? && s.tickets[t].phase.Waiting?
    ensures Nested(Enqueue(Put(s, t, Awaiting(|s.tickets|)), Open(s.tickets[t].op.id, t)).tickets)
  {
  }

  // ------------------------------------------------------------------ steps keep the sessions

  /** A step of `t` that touches only its own session leaves what the others know true. */
  lemma OthersKeepLocal(s: State, after: State, t: nat, p: Phase)
    requires InOrder(s.tickets) && Nested(s.tickets) && t < |s.tickets| && Active(s.tickets[t].phase)
    requires !s.tickets[t].op.Create? && forall u :: 0 <= u < |s.tickets| ==> Local(s, u)
    requires after.tickets == Moved(s.tickets, t, p) && after.maxSessions == s.maxSessions
    requires forall x :: x != s.tickets[t].op.id ==>
               (x in after.running <==> x in s.running) && (x in after.sessions <==> x in s.sessions)
    requires s.tickets[t].op.Open? || (|after.running| <= |s.running| && |after.sessions| <= |s.sessions|)
    ensures forall u :: 0 <= u < |s.tickets| && u != t ==> Local(after, u)
  {
    var ts := s.tickets;
    forall u | 0 <= u < |ts| && u != t ensures Local(after, u) {
      var q := ts[u].phase;
      if q.Launching? || q.Opened? || q.Busy? {
        assert !ts[u].op.Create? && Local(s, u);
        assert KeyOf(ts[u].op) != KeyOf(ts[t].op) by { OneActive(ts, u, t); }
        if q.Launching? && ts[t].op.Open? { OneOpen(ts, u, t); }
      }
    }
  }

  /** At most one call of a key is inside its operation. */
  lemma OneActive(ts: seq<Ticket>, t: nat, u: nat)
    requires InOrder(ts) && t < |ts| && u < |ts| && t != u && Active(ts[t].phase) && Active(ts[u].phase)
    ensures KeyOf(ts[t].op) != KeyOf(ts[u].op)
  {
  }

  lemma OpenKeepsSessions(s: State, t: nat, fate: Fate, profiles: nat)
    requires Orderly(s, profiles) && profiles >= MAX_PROFILES
    requires t < |s.tickets| && s.tickets[t].op.Open? && OpenStep(s, t, fate).Some?
    ensures Within(OpenStep(s, t, fate).value, profiles)
  {
    var after, id := OpenStep(s, t, fate).value, s.tickets[t].op.id;
    assert Local(s, t);
    OpenKeepsBounds(s, t, fate, profiles);
    OthersKeepLocal(s, after, t, after.tickets[t].phase);
  }

  lemma OpenKeepsBounds(s: State, t: nat, fate: Fate, profiles: nat)
    requires t < |s.tickets| && s.tickets[t].op.Open? && OpenStep(s, t, fate).Some? && profiles >= MAX_PROFILES
    requires s.running <= s.sessions && |s.running| <= s.maxSessions && |s.sessions| <= profiles && Local(s, t)
    ensures var after := OpenStep(s, t, fate).value;
      && after.running <= after.sessions && |after.running| <= after.maxSessions && |after.sessions| <= profiles
      && Local(after, t)
  {
    var id := s.tickets[t].op.id;
    CardAdd(s.running, id);
    CardAdd(s.sessions, id);
    CardDrop(s.running, s.running - {id});
    CardDrop(s.sessions, s.sessions - {id});
    if s.tickets[t].phase.Opened? || s.tickets[t].phase.Busy? { assert id in s.sessions && s.sessions + {id} == s.sessions; }
  }

  lemma CloseKeepsSessions(s: State, t: nat, fate: Fate, profiles: nat)
    requires Orderly(s, profiles) && t < |s.tickets| && s.tickets[t].op.Close? && CloseStep(s, t, fate).Some?
    ensures Within(CloseStep(s, t, fate).value, profiles)
  {
    var after, id := CloseStep(s, t, fate).value, s.tickets[t].op.id;
    assert Local(s, t);
    CardDrop(s.running, s.running - {id});
    assert id in s.sessions ==> s.sessions + {id} == s.sessions;
    OthersKeepLocal(s, after, t, after.tickets[t].phase);
  }

  lemma UseKeepsSessions(s: State, t: nat, fate: Fate, profiles: nat)
    requires Orderly(s, profiles) && t < |s.tickets| && s.tickets[t].op.Use? && UseStep(s, t, fate).Some?
    ensures Within(UseStep(s, t, fate).value, profiles)
  {
    var after, id := UseStep(s, t, fate).value, s.tickets[t].op.id;
    assert Local(s, t);
    assert id in s.sessions ==> s.sessions + {id} == s.sessions;
    OthersKeepLocal(s, after, t, after.tickets[t].phase);
  }

  // ------------------------------------------------------------------ every reachable state

  lemma MovesKeepsQueued(s: State, after: State, t: nat)
    requires Queued(s.tickets, s.queues) && Moves(s, after, t)
    ensures Queued(after.tickets, after.queues)
  {
    PutKeepsQueues(s, t, after.tickets[t].phase);
  }

  lemma MovesKeepsNesting(s: State, after: State, t: nat)
    requires Nested(s.tickets) && Moves(s, after, t)
    requires after.tickets[t].phase.Launching? || after.tickets[t].phase.Opened? ==> s.tickets[t].op.Open?
    requires s.tickets[t].op.Create? ==>
               after.tickets[t].phase.Settled? && s.tickets[t].phase.Awaiting? &&
               Finished(s.tickets[s.tickets[t].phase.inner].phase)
    ensures Nested(after.tickets)
  {
    MovedKeepsNesting(s.tickets, t, after.tickets[t].phase);
  }

  /** A step that leaves the sessions alone, and takes calls only to phases that know nothing about them. */
  lemma LocalsStay(s: State, after: State, profiles: nat)
    requires Within(s, profiles) && |s.tickets| <= |after.tickets|
    requires after.sessions == s.sessions && after.running == s.running && after.maxSessions == s.maxSessions
    requires forall u :: 0 <= u < |after.tickets| ==>
               (u < |s.tickets| && after.tickets[u] == s.tickets[u]) || Knowless(after.tickets[u].phase)
    ensures Within(after, profiles)
  {
    forall u | 0 <= u < |after.tickets| ensures Local(after, u) {
      if u < |s.tickets| { assert Local(s, u); }
    }
  }

  predicate Knowless(p: Phase) { p.Waiting? || p.Entered? || p.Awaiting? || Finished(p) }

  lemma CreateKeepsOrderly(s: State, t: nat, profiles: nat)
    requires Orderly(s, profiles) && t < |s.tickets| && s.tickets[t].op.Create? && CreateStep(s, t).Some?
    ensures Orderly(CreateStep(s, t).value, profiles)
  {
    var after := CreateStep(s, t).value;
    MovesKeepsQueued(s, after, t);
    MovesKeepsNesting(s, after, t);
    LocalsStay(s, after, profiles);
  }

  lemma ProceedKeepsOrderly(s: State, t: nat, fate: Fate, profiles: nat)
    requires Orderly(s, profiles) && profiles >= MAX_PROFILES && t < |s.tickets| && ProceedStep(s, t, fate).Some?
    ensures Orderly(ProceedStep(s, t, fate).value, profiles)
  {
    if s.tickets[t].op.Create? {
      CreateKeepsOrderly(s, t, profiles);
      return;
    }
    var after: State;
    match s.tickets[t].op {
      case Open(_, _) => after := OpenStep(s, t, fate).value; OpenKeepsSessions(s, t, fate, profiles);
      case Close(_) => after := CloseStep(s, t, fate).value; CloseKeepsSessions(s, t, fate, profiles);
      case Use(_) => after := UseStep(s, t, fate).value; UseKeepsSessions(s, t, fate, profiles);
    }
    MovesKeepsQueued(s, after, t);
    MovesKeepsNesting(s, after, t);
  }

  lemma BeginKeepsOrderly(s: State, t: nat, profiles: nat)
    requires Orderly(s, profiles) && t < |s.tickets| && !s.tickets[t].op.Create? && BeginStep(s, t).Some?
    ensures Orderly(BeginStep(s, t).value, profiles)
  {
    PutKeepsQueues(s, t, Entered);
    MovedKeepsNesting(s.tickets, t, Entered);
    LocalsStay(s, Put(s, t, Entered), profiles);
  }

  lemma NestKeepsOrderly(s: State, t: nat, profiles: nat)
    requires Orderly(s, profiles) && t < |s.tickets| && s.tickets[t].op.Create? && BeginStep(s, t).Some?
    ensures Orderly(BeginStep(s, t).value, profiles)
  {
    var p := Awaiting(|s.tickets|);
    PutKeepsQueues(s, t, p);
    NestKeepsNesting(s, t);
    EnqueueKeepsQueues(Put(s, t, p), Open(s.tickets[t].op.id, t));
    LocalsStay(s, BeginStep(s, t).value, profiles);
  }

  lemma InvokeKeepsOrderly(s: State, op: Op, profiles: nat)
    requires Orderly(s, profiles) && !op.Open?
    ensures Orderly(Enqueue(s, op), profiles)
  {
    EnqueueKeepsQueues(s, op);
    EnqueueKeepsNesting(s, op);
    LocalsStay(s, Enqueue(s, op), profiles);
  }

  lemma CleanKeepsOrderly(s: State, t: nat, profiles: nat)
    requires Orderly(s, profiles) && t < |s.tickets| && CleanStep(s, t).Some?
    ensures Orderly(CleanStep(s, t).value, profiles)
  {
    CleanKeepsQueues(s, t);
    MovedKeepsNesting(s.tickets, t, Done);
    LocalsStay(s, CleanStep(s, t).value, profiles);
  }

  lemma StepKeepsOrderly(s: State, e: Event, profiles: nat)
    requires Orderly(s, profiles) && profiles >= MAX_PROFILES && Next(s, e).Some?
    ensures Orderly(Next(s, e).value, profiles)
  {
    match e
    case Invoke(op) => InvokeKeepsOrderly(s, op, profiles);
    case Begin(t) =>
      if s.tickets[t].op.Create? { NestKeepsOrderly(s, t, profiles); } else { BeginKeepsOrderly(s, t, profiles); }
    case Proceed(t, fate) => ProceedKeepsOrderly(s, t, fate, profiles);
    case Clean(t) => CleanKeepsOrderly(s, t, profiles);
  }

  lemma ReachableIsOrderly(s: State, es: seq<Event>, profiles: nat)
    requires Fresh(s) && |s.sessions| <= profiles && profiles >= MAX_PROFILES && Exec(Next, s, es).Some?
    ensures Orderly(Exec(Next, s, es).value, profiles)
  {
    var inv := (x: State) => Orderly(x, profiles);
    forall x: State, e: Event | inv(x) && Next(x, e).Some? ensures inv(Next(x, e).value) {
      StepKeepsOrderly(x, e, profiles);
    }
    InvariantOfRuns(Next, inv, s, es);
  }

  /** The capacity bounds, at every await: never more sessions open than allowed, never more profiles than
      twenty or what was on disk, and every open session is a known one. */
  lemma CapacityIsNeverExceeded(s: State, es: seq<Event>)
    requires Fresh(s) && Exec(Next, s, es).Some?
    ensures var now := Exec(Next, s, es).value;
      && |now.running| <= now.maxSessions && now.running <= now.sessions
      && |now.sessions| <= (if |s.sessions| > MAX_PROFILES then |s.sessions| else MAX_PROFILES)
  {
    ReachableIsOrderly(s, es, if |s.sessions| > MAX_PROFILES then |s.sessions| else MAX_PROFILES);
  }

  /** Calls of one key run one at a time, in the order they were made, whether or not earlier ones fail. */
  lemma OneAtATimeInOrder(s: State, es: seq<Event>, t: nat, u: nat)
    requires Fresh(s) && Exec(Next, s, es).Some?
    requires t < u < |Exec(Next, s, es).value.tickets|
    requires KeyOf(Exec(Next, s, es).value.tickets[t].op) == KeyOf(Exec(Next, s, es).value.tickets[u].op)
    ensures var ts := Exec(Next, s, es).value.tickets; ts[u].phase.Waiting? || Finished(ts[t].phase)
  {
    ReachableIsOrderly(s, es, |s.sessions| + MAX_PROFILES);
  }

  /** The map holds a key only while a call of that key is not through. */
  lemma IdleLeavesNoEntry(s: State, es: seq<Event>, k: Key)
    requires Fresh(s) && Exec(Next, s, es).Some?
    requires forall t :: 0 <= t < |Exec(Next, s, es).value.tickets| && KeyOf(Exec(Next, s, es).value.tickets[t].op) == k ==>
               Exec(Next, s, es).value.tickets[t].phase.Done?
    ensures k !in Exec(Next, s, es).value.queues
  {
    ReachableIsOrderly(s, es, |s.sessions| + MAX_PROFILES);
  }
}
