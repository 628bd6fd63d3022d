/** POST /calls with an Idempotency-Key, as its source writes it (apps/server/src/voice-routes.ts), with other
    requests running at the awaits.  The handler is shown to take the steps of VoiceCalls. */
module VoiceService {
  import opened Runs
  import opened VoiceCalls

  predicate Outside(e: Event, p: Pid) { e.p != p }

  datatype Answer = Placed | Replayed | InProgress | Failed

  /** The history went on, and request `p` in it only by steps of its own and by errors it was handed. */
  ghost predicate Grew(before: seq<Event>, after: seq<Event>, p: Pid) {
    && |before| <= |after| && (forall i :: 0 <= i < |before| ==> after[i] == before[i])
    && forall i :: |before| <= i < |after| ==> Outside(after[i], p) || after[i].Go? || after[i].Throw?
  }

  /** Stands for a step that was not taken. */
  const NEVER := Moment(0, START)

  /** The steps a request was answered by: the reservation, the reading of the record it lost to, the end of the
      provider call, and the saving of its record or the removal of the reservation. */
  datatype Course = Course(reserve: Moment<State>, read: Moment<State>, dial: Moment<State>, save: Moment<State>)

  /** After `since`, request `p` took a step from `pc` at this moment. */
  ghost predicate Seen(h: seq<Event>, since: nat, p: Pid, m: Moment<State>, pc: Proc) {
    since <= m.k && Occurs(Next, START, h, m) && h[m.k].Go? && h[m.k].p == p && p in m.s.procs && m.s.procs[p] == pc
  }

  lemma SeenStays(before: seq<Event>, after: seq<Event>, since: nat, p: Pid, m: Moment<State>, pc: Proc)
    requires Seen(before, since, p, m, pc)
    requires |before| <= |after| && forall i :: 0 <= i < |before| ==> after[i] == before[i]
    ensures Seen(after, since, p, m, pc) && after[m.k] == before[m.k]
  {
    OccursStays(Next, START, before, after, m);
  }

  /** After `since`, an awaited store call of `p` failed. */
  ghost predicate Threw(h: seq<Event>, since: nat, p: Pid) { exists k :: since <= k < |h| && h[k] == Throw(p) }

  /** After `k` events the record is this one. */
  ghost predicate Left(h: seq<Event>, k: nat, record: Option<CallStatus>) {
    k <= |h| && Exec(Next, START, h[..k]).Some? && Exec(Next, START, h[..k]).value.record == record
  }

  /** A request that lost the reservation reads the record it lost to: if a call is there it is replayed, and
      while it is only reserved, or gone again, the request is told to wait. */
  ghost predicate Answers(h: seq<Event>, since: nat, p: Pid, c: Course, answer: Answer, outcome: Option<Outcome>) {
    && Seen(h, since, p, c.reserve, Reserve)
    && if c.reserve.s.record.Some? then
         && outcome.None? && Seen(h, c.reserve.k + 1, p, c.read, Existing)
         && (answer == Replayed <==> c.read.s.record.Some? && c.read.s.record.value != Pending)
         && (answer == InProgress <==> c.read.s.record.None? || c.read.s.record.value == Pending)
       else Left(h, c.reserve.k + 1, Some(Pending)) && Dialled(h, c.reserve.k + 1, p, c, answer, outcome)
  }

  /** A call whose answer arrived is saved and confirmed; for any other the reservation is removed. */
  ghost predicate Dialled(h: seq<Event>, since: nat, p: Pid, c: Course, answer: Answer, outcome: Option<Outcome>) {
    && Seen(h, since, p, c.dial, Dialling) && outcome == Some(h[c.dial.k].outcome)
    && if h[c.dial.k].outcome == Answered
       then answer == Answer.Placed && Seen(h, c.dial.k + 1, p, c.save, Persist) && Left(h, c.save.k + 1, Some(h[c.save.k].status))
       else answer == Failed && Seen(h, c.dial.k + 1, p, c.save, Hangup) && Left(h, c.save.k + 1, None)
  }

  predicate MoreCalls(a: State, b: State) { a.answered <= b.answered && a.lost <= b.lost }

  class Calls {
    var s: State
    ghost var history: seq<Event>

    ghost predicate Valid() reads this { Exec(Next, START, history) == Some(s) }

    ghost predicate At(p: Pid, pc: Proc) reads this { Valid() && p in s.procs && s.procs[p] == pc }

    constructor ()
      ensures Valid() && s == START
    {
      s, history := START, [];
    }

    method Happen(p: Pid, e: Event) returns (happened: bool)
      requires Valid() && (Outside(e, p) || e.Go? || e.Throw?)
      modifies this
      ensures Grew(old(history), history, p)
      ensures Valid() && (happened <==> Next(old(s), e).Some?)
      ensures s == if happened then Next(old(s), e).value else old(s)
      ensures happened ==> history == old(history) + [e]
    {
      happened := Next(s, e).Some?;
      if happened {
        ExecSnoc(Next, START, history, e);
        s, history := Next(s, e).value, history + [e];
      }
    }

    /** An await: other requests go on. */
    method Yield(p: Pid, ghost pc: Proc)
      requires At(p, pc)
      modifies this
      ensures Grew(old(history), history, p)
      ensures At(p, pc) && MoreCalls(old(s), s)
    {
      var others: seq<Event> := *;
      for i := 0 to |others|
        invariant Grew(old(history), history, p)
        invariant At(p, pc) && MoreCalls(old(s), s)
      {
        if Outside(others[i], p) { var happened := Happen(p, others[i]); }
      }
    }

    /** An await whose store call fails without effect. */
    method Throws(p: Pid, ghost pc: Proc) returns (thrown: bool)
      requires At(p, pc) && !pc.Finished?
      modifies this
      ensures Grew(old(history), history, p)
      ensures At(p, if thrown then Finished else pc) && MoreCalls(old(s), s)
      ensures thrown ==> Threw(history, |old(history)|, p)
    {
      Yield(p, pc);
      thrown := *;
      if thrown {
        thrown := Happen(p, Throw(p));
        assert history[|history| - 1] == Throw(p);
      }
    }

    /** The request has done to the record what its next step does, and stands at its next await. */
    method Arrive(p: Pid, outcome: Outcome, status: CallStatus, before: State, ghost here: Proc, ghost there: Proc)
      requires Exec(Next, START, history) == Some(before) && p in before.procs && before.procs[p] == here
      requires var m := Advance(before, p, outcome, status, here);
               m.Some? && m.value.s.record == s.record && m.value.pc == there
      modifies this
      ensures Grew(old(history), history, p) && history == old(history) + [Go(p, outcome, status)]
      ensures At(p, there) && s.record == old(s).record
      ensures var m := Advance(before, p, outcome, status, here);
              s.answered == m.value.s.answered && s.lost == m.value.s.lost && s.attempts == m.value.s.attempts
      ensures Seen(history, |old(history)|, p, Moment(|old(history)|, before), here)
      ensures Left(history, |history|, s.record)
    {
      s := before;
      var happened := Happen(p, Go(p, outcome, status));
      assert history[..|old(history)|] == old(history) && history[..|history|] == history;
    }

    lemma LeftStays(before: seq<Event>, after: seq<Event>, k: nat, record: Option<CallStatus>)
      requires Left(before, k, record)
      requires |before| <= |after| && forall i :: 0 <= i < |before| ==> after[i] == before[i]
      ensures Left(after, k, record)
    {
      assert after[..k] == before[..k];
    }

    /** `outcome` is what the provider call of this request came to, if it made one: only a request that
        inserted the reservation does.  Once its answer arrived, no other request can dial under the key;
        if it was lost, one call more was placed than answered for.  How the request was answered, its course
        tells, unless a store call failed. */
    method PostCall(p: Pid) returns (answer: Answer, ghost outcome: Option<Outcome>, ghost course: Course)
      requires At(p, Reserve)
      modifies this
      ensures Grew(old(history), history, p)
      ensures At(p, Finished) && s.answered <= 1
      ensures answer.Placed? ==> outcome == Some(Answered)
      ensures outcome == Some(Answered) ==> s.answered == 1 && s.record.Some? && !Retriable(s)
      ensures outcome == Some(Lost) ==> s.lost > old(s).lost
      ensures || (answer == Failed && Threw(history, |old(history)|, p))
              || Answers(history, |old(history)|, p, course, answer, outcome)
    {
      answer, outcome, course := Failed, None, Course(NEVER, NEVER, NEVER, NEVER);
      var thrown := Throws(p, Reserve);
      if !thrown { answer, outcome, course := ReserveAndDial(p, |old(history)|); }
      InvOfRuns(history, s);
    }

    method ReserveAndDial(p: Pid, ghost since: nat) returns (answer: Answer, ghost outcome: Option<Outcome>, ghost course: Course)
      requires At(p, Reserve) && since <= |history|
      modifies this
      ensures Grew(old(history), history, p)
      ensures At(p, Finished)
      ensures answer.Placed? ==> outcome == Some(Answered)
      ensures outcome == Some(Answered) ==> s.answered > old(s).answered
      ensures outcome == Some(Lost) ==> s.lost > old(s).lost
      ensures || (answer == Failed && Threw(history, |old(history)|, p))
              || Answers(history, since, p, course, answer, outcome)
    {
      ghost var reserve := Moment(|history|, s);
      outcome, course := None, Course(reserve, NEVER, NEVER, NEVER);
      var before := s;
      var claimed := s.record.None?;
      if claimed { s := s.(record := Some(Pending)); }
      Arrive(p, Answered, Pending, before, Reserve, if claimed then Dialling else Existing);
      ghost var h := history;
      if claimed {
        answer, outcome, course := Dial(p, course);
        LeftStays(h, history, reserve.k + 1, Some(Pending));
      } else {
        ghost var read;
        answer, read := Replay(p);
        course := course.(read := read);
      }
      SeenStays(h, history, since, p, reserve, Reserve);
    }

    method Replay(p: Pid) returns (answer: Answer, ghost read: Moment<State>)
      requires At(p, Existing)
      modifies this
      ensures Grew(old(history), history, p)
      ensures At(p, Finished) && !answer.Placed?
      ensures || (answer == Failed && Threw(history, |old(history)|, p))
              || (Seen(history, |old(history)|, p, read, Existing)
                  && (answer == Replayed <==> read.s.record.Some? && read.s.record.value != Pending)
                  && (answer == InProgress <==> read.s.record.None? || read.s.record.value == Pending))
    {
      answer, read := Failed, NEVER;
      var thrown := Throws(p, Existing);
      if thrown { return; }
      read := Moment(|history|, s);
      answer := if s.record.None? || s.record.value.Pending? then InProgress else Replayed;
      Arrive(p, Answered, Pending, s, Existing, Finished);
    }

    method Dial(p: Pid, ghost c: Course) returns (answer: Answer, ghost outcome: Option<Outcome>, ghost course: Course)
      requires At(p, Dialling) && c.reserve.k < |history|
      modifies this
      ensures Grew(old(history), history, p)
      ensures At(p, Finished) && outcome.Some? && (answer.Placed? ==> outcome == Some(Answered))
      ensures outcome == Some(Answered) ==> s.answered > old(s).answered
      ensures outcome == Some(Lost) ==> s.lost > old(s).lost
      ensures course.reserve == c.reserve
      ensures || (answer == Failed && Threw(history, |old(history)|, p))
              || Dialled(history, c.reserve.k + 1, p, course, answer, outcome)
    {
      Yield(p, Dialling);
      var got: Outcome := *;
      ghost var dial, save := Moment(|history|, s), NEVER;
      outcome := Some(got);
      Arrive(p, got, Pending, s, Dialling, if got == Answered then Persist else Hangup);
      ghost var h := history;
      if got == Answered {
        answer, save := SaveCall(p);
      } else {
        save := RemoveReservation(p);
        answer := Failed;
      }
      course := c.(dial := dial, save := save);
      SeenStays(h, history, c.reserve.k + 1, p, dial, Dialling);
    }

    method SaveCall(p: Pid) returns (answer: Answer, ghost save: Moment<State>)
      requires At(p, Persist)
      modifies this
      ensures Grew(old(history), history, p)
      ensures At(p, Finished) && MoreCalls(old(s), s)
      ensures answer == Answer.Placed || answer == Failed
      ensures if answer == Failed then Threw(history, |old(history)|, p)
              else Seen(history, |old(history)|, p, save, Persist) && Left(history, save.k + 1, Some(history[save.k].status))
    {
      answer, save := Failed, NEVER;
      var thrown := Throws(p, Persist);
      if thrown { return; }
      save := Moment(|history|, s);
      var before := s;
      var status: CallStatus := *;
      s := s.(record := Some(status));
      Arrive(p, Answered, status, before, Persist, Finished);
      answer := Answer.Placed;
    }

    // ---------------------------------------------------------------- reading a call

    /** What a refresh saw: only a call that has not ended is asked for, and what the provider answers is saved. */
    ghost predicate Refreshed(h: seq<Event>, since: nat, p: Pid, get: Moment<State>, live: Moment<State>, put: Moment<State>) {
      && Seen(h, since, p, get, RefreshGet) && var r := get.s.record;
      r.Some? && r.value != Ended ==>
        && Seen(h, get.k + 1, p, live, RefreshLive(r.value))
        && (h[live.k].outcome == Answered ==> Put(h, live.k + 1, p, h[live.k].status, put))
    }

    ghost predicate Put(h: seq<Event>, since: nat, p: Pid, status: CallStatus, put: Moment<State>) {
      Seen(h, since, p, put, RefreshPut(status)) && Left(h, put.k + 1, Some(status))
    }

    /** GET /calls/:id with `refresh`: a provider that does not answer leaves the record as it is. */
    method Refresh(p: Pid) returns (thrown: bool, ghost get: Moment<State>, ghost live: Moment<State>, ghost put: Moment<State>)
      requires At(p, RefreshGet)
      modifies this
      ensures Grew(old(history), history, p)
      ensures At(p, Finished)
      ensures if thrown then Threw(history, |old(history)|, p) else Refreshed(history, |old(history)|, p, get, live, put)
    {
      get, live, put := NEVER, NEVER, NEVER;
      thrown := Throws(p, RefreshGet);
      if thrown { return; }
      get := Moment(|history|, s);
      var open := s.record.Some? && !s.record.value.Ended?;
      var seen := if open then s.record.value else Pending;
      Arrive(p, Answered, Pending, s, RefreshGet, if open then RefreshLive(seen) else Finished);
      ghost var h := history;
      if open {
        thrown, live, put := AskAndSave(p, seen);
        SeenStays(h, history, |old(history)|, p, get, RefreshGet);
      }
    }

    method AskAndSave(p: Pid, seen: CallStatus) returns (thrown: bool, ghost live: Moment<State>, ghost put: Moment<State>)
      requires At(p, RefreshLive(seen))
      modifies this
      ensures Grew(old(history), history, p)
      ensures At(p, Finished)
      ensures if thrown then Threw(history, |old(history)|, p)
              else && Seen(history, |old(history)|, p, live, RefreshLive(seen))
                   && (history[live.k].outcome == Answered ==> Put(history, live.k + 1, p, history[live.k].status, put))
    {
      Yield(p, RefreshLive(seen));
      live, put := Moment(|history|, s), NEVER;
      var answered: bool := *;
      var status: CallStatus := *;
      Arrive(p, if answered then Answered else Lost, status, s, RefreshLive(seen), if answered then RefreshPut(status) else Finished);
      ghost var h := history;
      thrown := false;
      if answered {
        thrown, put := PutStatus(p, status);
        SeenStays(h, history, |old(history)|, p, live, RefreshLive(seen));
      }
    }

    method PutStatus(p: Pid, status: CallStatus) returns (thrown: bool, ghost put: Moment<State>)
      requires At(p, RefreshPut(status))
      modifies this
      ensures Grew(old(history), history, p)
      ensures At(p, Finished)
      ensures if thrown then Threw(history, |old(history)|, p) else Put(history, |old(history)|, p, status, put)
    {
      put := NEVER;
      thrown := Throws(p, RefreshPut(status));
      if thrown { return; }
      var before := s;
      put := Moment(|history|, s);
      s := s.(record := Some(status));
      Arrive(p, Answered, Pending, before, RefreshPut(status), Finished);
    }

    /** The removal is tried once, and its error is swallowed. */
    method RemoveReservation(p: Pid) returns (ghost save: Moment<State>)
      requires At(p, Hangup)
      modifies this
      ensures Grew(old(history), history, p)
      ensures At(p, Finished) && MoreCalls(old(s), s)
      ensures || Threw(history, |old(history)|, p)
              || (Seen(history, |old(history)|, p, save, Hangup) && Left(history, save.k + 1, None))
    {
      save := NEVER;
      var thrown := Throws(p, Hangup);
      if !thrown {
        save := Moment(|history|, s);
        var before := s;
        s := s.(record := None);
        Arrive(p, Answered, Pending, before, Hangup, Finished);
      }
    }
  }
}
