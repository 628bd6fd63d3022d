/** Creating, closing and using a browser session as the source writes it (apps/worker/src/browser.ts), with
    every other call running at the awaits.  Each method is shown to take the steps of BrowserQueue. */
module BrowserService {
  import opened Runs
  import opened BrowserQueue
  import opened BrowserSafety

  /** Events other than the steps of call `t`. */
  predicate Outside(e: Event, t: nat) {
    match e
    case Invoke(_) => true
    case Begin(u) => u != t
    case Proceed(u, _) => u != t
    case Clean(u) => u != t
  }

  /** The history went on, and call `t` in it only by steps of its own. */
  ghost predicate Grew(before: seq<Event>, after: seq<Event>, t: nat) {
    && |before| <= |after| && (forall i :: 0 <= i < |before| ==> after[i] == before[i])
    && forall i :: |before| <= i < |after| ==> Outside(after[i], t) || after[i].Proceed? || after[i].Clean?
  }

  /** The steps of a creation: the checks, the launch, the setting up, or the navigation of a session that runs. */
  datatype Course = Course(enter: Moment<State>, launch: Moment<State>, open: Moment<State>, busy: Moment<State>)

  class Manager {
    const initial: State
    var s: State
    ghost var history: seq<Event>

    /** Stands for a step that was not taken. */
    ghost function Never(): Moment<State> { Moment(0, initial) }

    /** After `since`, call `t` took a step of `op` from phase `p` at this moment. */
    ghost predicate Seen(h: seq<Event>, since: nat, t: nat, m: Moment<State>, op: Op, p: Phase) {
      && since <= m.k && Occurs(Next, initial, h, m) && h[m.k].Proceed? && h[m.k].t == t
      && t < |m.s.tickets| && m.s.tickets[t].op == op && m.s.tickets[t].phase == p
    }

    lemma SeenStays(before: seq<Event>, after: seq<Event>, since: nat, t: nat, m: Moment<State>, op: Op, p: Phase)
      requires Seen(before, since, t, m, op, p)
      requires |before| <= |after| && forall i :: 0 <= i < |before| ==> after[i] == before[i]
      ensures Seen(after, since, t, m, op, p) && after[m.k] == before[m.k]
    {
      OccursStays(Next, initial, before, after, m);
    }

    /** After `k` events these sessions were known, and these running. */
    ghost predicate Left(h: seq<Event>, k: nat, sessions: set<Key>, running: set<Key>) {
      && k <= |h| && Exec(Next, initial, h[..k]).Some?
      && Exec(Next, initial, h[..k]).value.sessions == sessions && Exec(Next, initial, h[..k]).value.running == running
    }

    lemma LeftStays(before: seq<Event>, after: seq<Event>, k: nat, sessions: set<Key>, running: set<Key>)
      requires Left(before, k, sessions, running)
      requires |before| <= |after| && forall i :: 0 <= i < |before| ==> after[i] == before[i]
      ensures Left(after, k, sessions, running)
    {
      assert after[..k] == before[..k];
    }

    ghost predicate Valid() reads this { Fresh(initial) && Exec(Next, initial, history) == Some(s) }

    /** Call `t` stands at `p`. */
    ghost predicate At(t: nat, op: Op, p: Phase) reads this {
      Valid() && t < |s.tickets| && s.tickets[t].op == op && s.tickets[t].phase == p
    }

    constructor (saved: set<Key>, maxSessions: nat)
      ensures Valid() && s.sessions == saved && s.running == {} && s.maxSessions == maxSessions && s.tickets == []
    {
      var start := State([], map[], saved, {}, maxSessions);
      initial, s, history := start, start, [];
    }

    method Happen(t: nat, e: Event) returns (happened: bool)
      requires Valid() && (Outside(e, t) || e.Proceed? || e.Clean?)
      modifies this
      ensures Grew(old(history), history, t)
      ensures Valid() && (happened <==> Next(old(s), e).Some?)
      ensures s == if happened then Next(old(s), e).value else old(s)
      ensures happened ==> history == old(history) + [e]
    {
      happened := Next(s, e).Some?;
      if happened {
        ExecSnoc(Next, initial, history, e);
        s, history := Next(s, e).value, history + [e];
      }
    }

    /** An await: the other calls go on. */
    method Yield(t: nat, ghost op: Op, ghost p: Phase)
      requires At(t, op, p)
      modifies this
      ensures Grew(old(history), history, t)
      ensures At(t, op, p) && s.maxSessions == old(s).maxSessions
    {
      var others: seq<Event> := *;
      for i := 0 to |others|
        invariant Grew(old(history), history, t)
        invariant At(t, op, p) && s.maxSessions == old(s).maxSessions
      {
        if Outside(others[i], t) {
          OthersStay(s, others[i], t);
          var happened := Happen(t, others[i]);
        }
      }
    }

    lemma OthersStay(a: State, e: Event, t: nat)
      requires t < |a.tickets| && Outside(e, t)
      ensures var r := Next(a, e); r.Some? ==>
                t < |r.value.tickets| && r.value.tickets[t] == a.tickets[t] && r.value.maxSessions == a.maxSessions
    {
    }

    method Fate() returns (fate: Fate)
      ensures fate == Good || fate == Bad || fate == Halfway
    {
      var good: bool := *;
      var early: bool := *;
      fate := if good then Good else if early then Bad else Halfway;
    }

    /** The call has done to the sessions what its next step does, and stands at its next await. */
    method Arrive(t: nat, fate: Fate, before: State, ghost op: Op, ghost p: Phase)
      requires Fresh(initial) && Exec(Next, initial, history) == Some(before)
      requires t < |before.tickets| && before.tickets[t].op == op && ProceedStep(before, t, fate).Some?
      requires var after := ProceedStep(before, t, fate).value;
               after.sessions == s.sessions && after.running == s.running && t < |after.tickets| && after.tickets[t].phase == p
      modifies this
      ensures Grew(old(history), history, t)
      ensures At(t, op, p) && s.sessions == old(s).sessions && s.running == old(s).running
      ensures history == old(history) + [Proceed(t, fate)] && Left(history, |history|, s.sessions, s.running)
      ensures Seen(history, |old(history)|, t, Moment(|old(history)|, before), op, before.tickets[t].phase)
    {
      assert ProceedStep(before, t, fate).value.tickets[t].op == op;
      s := before;
      var happened := Happen(t, Proceed(t, fate));
      assert history[..|old(history)|] == old(history) && history[..|history|] == history;
    }

    /** `serial`, up to its await: the call is chained behind the last one of its key. */
    method Serial(op: Op) returns (t: nat)
      requires Valid() && !op.Open?
      modifies this
      ensures Grew(old(history), history, t)
      ensures At(t, op, Waiting) && s.queues == old(s).queues[KeyOf(op) := t]
      ensures s.tickets[t].prev == (if KeyOf(op) in old(s).queues then Some(old(s).queues[KeyOf(op)]) else None)
    {
      t := |s.tickets|;
      var happened := Happen(t, Invoke(op));
    }

    /** The `finally` of `serial`: the map entry goes unless a later call has taken it over. */
    method Leave(t: nat, ghost op: Op)
      requires At(t, op, Settled)
      modifies this
      ensures Grew(old(history), history, t)
      ensures At(t, op, Done) && (KeyOf(op) in s.queues ==> s.queues[KeyOf(op)] != t)
      ensures (forall u :: 0 <= u < |s.tickets| && KeyOf(s.tickets[u].op) == KeyOf(op) ==> s.tickets[u].phase.Done?)
                ==> KeyOf(op) !in s.queues
    {
      Yield(t, op, Settled);
      var happened := Happen(t, Clean(t));
      if forall u :: 0 <= u < |s.tickets| && KeyOf(s.tickets[u].op) == KeyOf(op) ==> s.tickets[u].phase.Done? {
        IdleLeavesNoEntry(initial, history, KeyOf(op));
      }
    }

    /** What holds at every await of every call. */
    lemma Bounded()
      requires Valid()
      ensures |s.running| <= s.maxSessions && s.running <= s.sessions
      ensures |s.sessions| <= (if |initial.sessions| > MAX_PROFILES then |initial.sessions| else MAX_PROFILES)
    {
      CapacityIsNeverExceeded(initial, history);
    }

    /** No other call can close a session that a call has opened or is using. */
    lemma StillRunning(t: nat, op: Op, p: Phase)
      requires At(t, op, p) && (p.Opened? || p.Busy?)
      ensures op.id in s.running && op.id in s.sessions
    {
      var profiles := if |initial.sessions| > MAX_PROFILES then |initial.sessions| else MAX_PROFILES;
      ReachableIsOrderly(initial, history, profiles);
      assert Local(s, t);
    }

    /** What a creation saw: a session that runs is navigated; one more is launched below both limits, 20 saved
        profiles among them. */
    ghost predicate Created(h: seq<Event>, since: nat, t: nat, op: Op, c: Course, done: bool)
      requires op.Open?
    {
      && Seen(h, since, t, c.enter, op, Entered)
      && var s := c.enter.s;
         if h[c.enter.k].fate != Good then !done
         else if op.id in s.running then Navigated(h, c.enter.k + 1, t, op, c.busy, done)
         else if |s.running| >= s.maxSessions || (op.id !in s.sessions && |s.sessions| >= 20) then !done
         else Launched(h, c.enter.k + 1, t, op, op.id in s.sessions, c, done)
    }

    /** A launch that fails leaves nothing, or withdraws what it recorded; one that goes well is recorded. */
    ghost predicate Launched(h: seq<Event>, since: nat, t: nat, op: Op, known: bool, c: Course, done: bool)
      requires op.Open?
    {
      && Seen(h, since, t, c.launch, op, Launching(known))
      && var s := c.launch.s;
         match h[c.launch.k].fate
         case Bad => !done && Left(h, c.launch.k + 1, s.sessions, s.running)
         case Halfway => !done && Withdrawn(h, c.launch, op.id, known)
         case Good =>
           && Left(h, c.launch.k + 1, s.sessions + {op.id}, s.running + {op.id})
           && SetUp(h, c.launch.k + 1, t, op, known, c.open, done)
    }

    /** The session stays exactly if it could be set up and navigated. */
    ghost predicate SetUp(h: seq<Event>, since: nat, t: nat, op: Op, known: bool, open: Moment<State>, done: bool)
      requires op.Open?
    {
      && Seen(h, since, t, open, op, Opened(known)) && (done <==> h[open.k].fate == Good)
      && if done then Left(h, open.k + 1, open.s.sessions, open.s.running) else Withdrawn(h, open, op.id, known)
    }

    /** The session does not run any more, and is known only if it was before. */
    ghost predicate Withdrawn(h: seq<Event>, m: Moment<State>, id: Key, known: bool) {
      Left(h, m.k + 1, if known then m.s.sessions + {id} else m.s.sessions - {id}, m.s.running - {id})
    }

    ghost predicate Navigated(h: seq<Event>, since: nat, t: nat, op: Op, busy: Moment<State>, ok: bool)
      requires op.Open? || op.Use?
    {
      && Seen(h, since, t, busy, op, Busy) && (ok <==> h[busy.k].fate == Good)
      && Left(h, busy.k + 1, if ok then busy.s.sessions + {op.id} else busy.s.sessions, busy.s.running)
    }

    /** `createSession`; `done` says whether it returned, and then the session runs. */
    method CreateSession(t: nat, id: Key, parent: nat) returns (done: bool, ghost course: Course)
      requires At(t, Open(id, parent), Entered)
      modifies this
      ensures Grew(old(history), history, t)
      ensures At(t, Open(id, parent), Settled)
      ensures |s.running| <= s.maxSessions && s.running <= s.sessions
      ensures done ==> id in s.running
      ensures Created(history, |old(history)|, t, Open(id, parent), course, done)
    {
      Yield(t, Open(id, parent), Entered);
      done, course := OpenSession(t, id, parent, |old(history)|);
      Bounded();
    }

    method OpenSession(t: nat, id: Key, parent: nat, ghost since: nat) returns (done: bool, ghost course: Course)
      requires At(t, Open(id, parent), Entered) && since <= |history|
      modifies this
      ensures Grew(old(history), history, t)
      ensures At(t, Open(id, parent), Settled)
      ensures done ==> id in s.running
      ensures Created(history, since, t, Open(id, parent), course, done)
    {
      ghost var op, enter := Open(id, parent), Moment(|history|, s);
      done, course := false, Course(enter, Never(), Never(), Never());
      var fate := Fate();
      var runs := fate == Good && id in s.running;
      var free := fate == Good && !runs && |s.running| < s.maxSessions && (id in s.sessions || |s.sessions| < MAX_PROFILES);
      var previous := id in s.sessions;
      Arrive(t, if fate == Good then Good else Bad, s, op, if runs then Busy else if free then Launching(previous) else Settled);
      ghost var h := history;
      if runs {
        ghost var busy;
        done, busy := Navigate(t, Open(id, parent));
        course := course.(busy := busy);
      } else if free {
        done, course := Launch(t, id, parent, previous, course);
      }
      SeenStays(h, history, since, t, enter, op, Entered);
    }

    method Launch(t: nat, id: Key, parent: nat, previous: bool, ghost c: Course) returns (done: bool, ghost course: Course)
      requires At(t, Open(id, parent), Launching(previous)) && c.enter.k < |history|
      modifies this
      ensures Grew(old(history), history, t)
      ensures At(t, Open(id, parent), Settled) && course.enter == c.enter
      ensures done ==> id in s.running
      ensures Launched(history, c.enter.k + 1, t, Open(id, parent), previous, course, done)
    {
      ghost var op := Open(id, parent);
      Yield(t, op, Launching(previous));
      var before := s;
      ghost var launch, open := Moment(|history|, s), Never();
      var fate := Fate();
      if fate == Good {
        s := s.(running := s.running + {id}, sessions := s.sessions + {id});
      } else if fate == Halfway {
        Withdraw(id, previous);
      }
      Arrive(t, fate, before, op, if fate == Good then Opened(previous) else Settled);
      ghost var h, left := history, s;
      done := false;
      if fate == Good { done, open := FinishOpening(t, id, parent, previous); }
      course := c.(launch := launch, open := open);
      LeftStays(h, history, launch.k + 1, left.sessions, left.running);
      SeenStays(h, history, c.enter.k + 1, t, launch, op, Launching(previous));
    }

    method FinishOpening(t: nat, id: Key, parent: nat, previous: bool) returns (done: bool, ghost open: Moment<State>)
      requires At(t, Open(id, parent), Opened(previous))
      modifies this
      ensures Grew(old(history), history, t)
      ensures At(t, Open(id, parent), Settled)
      ensures done ==> id in s.running
      ensures SetUp(history, |old(history)|, t, Open(id, parent), previous, open, done)
    {
      Yield(t, Open(id, parent), Opened(previous));
      StillRunning(t, Open(id, parent), Opened(previous));
      var fate := Fate();
      var before := s;
      open := Moment(|history|, s);
      done := fate == Good;
      if !done { Withdraw(id, previous); }
      Arrive(t, fate, before, Open(id, parent), Settled);
    }

    /** The handler that closes a session it could not finish opening. */
    method Withdraw(id: Key, previous: bool)
      modifies this`s
      ensures s == BrowserQueue.Withdraw(old(s), id, previous)
    {
      s := s.(running := s.running - {id});
      if previous {
        s := s.(sessions := s.sessions + {id});
      } else {
        s := s.(sessions := s.sessions - {id});
      }
    }

    /** An operation on an open session, which may record it again. */
    method Navigate(t: nat, op: Op) returns (ok: bool, ghost busy: Moment<State>)
      requires At(t, op, Busy) && (op.Open? || op.Use?)
      modifies this
      ensures Grew(old(history), history, t)
      ensures At(t, op, Settled)
      ensures ok ==> op.id in s.running && op.id in s.sessions
      ensures Navigated(history, |old(history)|, t, op, busy, ok)
    {
      Yield(t, op, Busy);
      StillRunning(t, op, Busy);
      var fate := Fate();
      var before := s;
      busy := Moment(|history|, s);
      ok := fate == Good;
      if ok { s := s.(sessions := s.sessions + {op.id}); }
      Arrive(t, fate, before, op, Settled);
    }

    /** An operation is tried exactly if the session runs, and fails only by itself. */
    method UseSession(t: nat, id: Key) returns (ok: bool, ghost enter: Moment<State>, ghost busy: Moment<State>)
      requires At(t, Use(id), Entered)
      modifies this
      ensures Grew(old(history), history, t)
      ensures At(t, Use(id), Settled)
      ensures ok ==> id in s.running && id in s.sessions
      ensures Seen(history, |old(history)|, t, enter, Use(id), Entered)
      ensures if id in enter.s.running then Navigated(history, enter.k + 1, t, Use(id), busy, ok) else !ok
    {
      Yield(t, Use(id), Entered);
      enter, busy := Moment(|history|, s), Never();
      ok := id in s.running;
      Arrive(t, Good, s, Use(id), if ok then Busy else Settled);
      ghost var h := history;
      if ok { ok, busy := Navigate(t, Use(id)); }
      SeenStays(h, history, |old(history)|, t, enter, Use(id), Entered);
    }

    /** A close fails only for an unknown session, or if closing the browser does. */
    method CloseSession(t: nat, id: Key) returns (ok: bool, ghost enter: Moment<State>, ghost busy: Moment<State>)
      requires At(t, Close(id), Entered)
      modifies this
      ensures Grew(old(history), history, t)
      ensures At(t, Close(id), Settled)
      ensures ok ==> id in s.sessions && id !in s.running
      ensures Seen(history, |old(history)|, t, enter, Close(id), Entered)
      ensures if id !in enter.s.sessions then !ok
              else if id !in enter.s.running then ok
              else Seen(history, enter.k + 1, t, busy, Close(id), Busy) && (ok <==> history[busy.k].fate == Good)
    {
      Yield(t, Close(id), Entered);
      var before := s;
      enter, busy := Moment(|history|, s), Never();
      var known, runs := id in s.sessions, id in s.running;
      if known && !runs { s := s.(sessions := s.sessions + {id}); }
      Arrive(t, Good, before, Close(id), if known && runs then Busy else Settled);
      ghost var h := history;
      ok := known;
      if known && runs {
        Yield(t, Close(id), Busy);
        var fate := Fate();
        before := s;
        busy := Moment(|history|, s);
        ok := fate == Good;
        if ok { s := s.(running := s.running - {id}, sessions := s.sessions + {id}); }
        Arrive(t, fate, before, Close(id), Settled);
      }
      SeenStays(h, history, |old(history)|, t, enter, Close(id), Entered);
    }
  }
}
