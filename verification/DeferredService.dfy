/** Deferred actions as their source writes them (apps/server/src/actions-deferred.ts, over the persistent
    store): `decide`, `cancel` and the `tick` loop on one action's record, suspended at every await while
    other calls run.  Each method is shown to take the steps of the protocol of DeferredActions. */
module DeferredService {
  import opened Runs
  import opened DeferredActions
  import Paging

  predicate Of(e: Event, p: Pid) { !e.Wait? && !e.Purge? && !e.Crowd? && e.p == p }

  /** The history went on, and call `p` in it only by steps of its own and by errors it was handed. */
  ghost predicate Grew(before: seq<Event>, after: seq<Event>, p: Pid) {
    && |before| <= |after| && (forall i :: 0 <= i < |before| ==> after[i] == before[i])
    && forall i :: |before| <= i < |after| && Of(after[i], p) ==> after[i].Go? || after[i].Throw?
  }

  /** What was signed and what ran stays on record. */
  predicate Keeps(a: State, b: State) {
    a.signings <= b.signings && |a.ran| <= |b.ran| && forall i :: 0 <= i < |a.ran| ==> b.ran[i] == a.ran[i]
  }

  lemma StepKeeps(u: State, e: Event)
    requires Next(u, e).Some?
    ensures Keeps(u, Next(u, e).value)
  {
  }

  lemma RecordsStay(c: Config, before: seq<Event>, s: State, after: seq<Event>, t: State)
    requires Exec(Next, Start(c), before) == Some(s) && Exec(Next, Start(c), after) == Some(t)
    requires |before| <= |after| && forall i :: 0 <= i < |before| ==> after[i] == before[i]
    ensures Keeps(s, t)
  {
    assert after == before + after[|before|..];
    ExecAppend(Next, Start(c), before, after[|before|..]);
    forall u: State, e: Event | Keeps(s, u) && Next(u, e).Some? ensures Keeps(s, Next(u, e).value) { StepKeeps(u, e); }
    InvariantOfRuns(Next, (u: State) => Keeps(s, u), s, after[|before|..]);
  }

  /** The steps of a tick: the list of due records, the two steps of the claim, the run, and the saving of its
      outcome. */
  datatype Round = Round(due: Moment<State>, read: Moment<State>, swap: Moment<State>, run: Moment<State>, save: Moment<State>)

  class Deferred {
    const c: Config
    var s: State
    ghost var history: seq<Event>

    /** Stands for a step that was not taken. */
    ghost function Never(): Moment<State> { Moment(0, Start(c)) }

    /** After `since`, call `p` took a step from `pc` at this moment. */
    ghost predicate Seen(h: seq<Event>, since: nat, p: Pid, m: Moment<State>, pc: Proc) {
      since <= m.k && Occurs(Next, Start(c), h, m) && h[m.k].Go? && h[m.k].p == p && p in m.s.procs && m.s.procs[p] == pc
    }

    lemma SeenStays(before: seq<Event>, after: seq<Event>, since: nat, p: Pid, m: Moment<State>, pc: Proc)
      requires Seen(before, since, p, m, pc)
      requires |before| <= |after| && forall i :: 0 <= i < |before| ==> after[i] == before[i]
      ensures Seen(after, since, p, m, pc) && after[m.k] == before[m.k]
    {
      OccursStays(Next, Start(c), before, after, m);
    }

    /** After `since`, an awaited call of `p` failed. */
    ghost predicate Threw(h: seq<Event>, since: nat, p: Pid) { exists k :: since <= k < |h| && h[k] == Throw(p) }

    /** After `k` events the record is this one. */
    ghost predicate Left(h: seq<Event>, k: nat, r: Record) {
      k <= |h| && Exec(Next, Start(c), h[..k]).Some? && Exec(Next, Start(c), h[..k]).value.record == Some(r)
    }

    lemma LeftStays(before: seq<Event>, after: seq<Event>, k: nat, r: Record)
      requires Left(before, k, r)
      requires |before| <= |after| && forall i :: 0 <= i < |before| ==> after[i] == before[i]
      ensures Left(after, k, r)
    {
      assert after[..k] == before[..k];
    }

    ghost predicate Valid() reads this { Exec(Next, Start(c), history) == Some(s) }

    ghost predicate At(p: Pid, pc: Proc) reads this { Valid() && p in s.procs && s.procs[p] == pc }

    /** The last event is a step of `p` that found `was` in the record. */
    ghost predicate LastStepFound(p: Pid, was: Option<Record>) reads this {
      && history != [] && history[|history| - 1].Go? && history[|history| - 1].p == p
      && Exec(Next, Start(c), history[..|history| - 1]).Some?
      && Exec(Next, Start(c), history[..|history| - 1]).value.record == was
    }

    constructor (c: Config)
      ensures Valid() && s == Start(c) && this.c == c
    {
      this.c, s, history := c, Start(c), [];
    }

    method Other(p: Pid, ghost pc: Proc, e: Event)
      requires At(p, pc) && !Of(e, p)
      modifies this
      ensures Grew(old(history), history, p)
      ensures At(p, pc)
    {
      if Next(s, e).Some? {
        ExecSnoc(Next, Start(c), history, e);
        s, history := Next(s, e).value, history + [e];
      }
    }

    /** An await: other calls, the clock and the purge go on. */
    method Yield(p: Pid, ghost pc: Proc)
      requires At(p, pc)
      modifies this
      ensures Grew(old(history), history, p)
      ensures At(p, pc)
    {
      var others: seq<Event> := *;
      for i := 0 to |others|
        invariant Grew(old(history), history, p)
        invariant At(p, pc)
      {
        if !Of(others[i], p) { Other(p, pc, others[i]); }
      }
    }

    /** An await whose call fails without effect. */
    method Throws(p: Pid, ghost pc: Proc) returns (thrown: bool)
      requires At(p, pc) && !pc.Finished? && !pc.TickRun?
      modifies this
      ensures Grew(old(history), history, p)
      ensures At(p, if thrown then Failing(pc) else pc)
      ensures thrown ==> Threw(history, |old(history)|, p)
    {
      Yield(p, pc);
      thrown := *;
      if thrown {
        ExecSnoc(Next, Start(c), history, Throw(p));
        s, history := Next(s, Throw(p)).value, history + [Throw(p)];
        assert history[|history| - 1] == Throw(p);
      }
    }

    /** The call has done to the record what its next step does, and stands at its next await. */
    method Arrive(p: Pid, ok: bool, before: State, ghost here: Proc, ghost there: Proc)
      requires Exec(Next, Start(c), history) == Some(before)
      requires p in before.procs && before.procs[p] == here && Advance(before, p, ok, here).Some?
      requires var m := Advance(before, p, ok, here).value; m.s.record == s.record && m.pc == there
      modifies this
      ensures Grew(old(history), history, p)
      ensures At(p, there) && s == DeferredActions.At(Advance(before, p, ok, here).value.s, p, there)
      ensures LastStepFound(p, before.record) && history == old(history) + [Go(p, ok)]
      ensures Seen(history, |old(history)|, p, Moment(|old(history)|, before), here)
      ensures s.record.Some? ==> Left(history, |history|, s.record.value)
    {
      ghost var h := history;
      ExecSnoc(Next, Start(c), history, Go(p, ok));
      s, history := Next(before, Go(p, ok)).value, history + [Go(p, ok)];
      assert history[..|h|] == h && history[..|history|] == history;
    }

    /** What a decide saw, and what it saved: the record it read, or a new one, with one more signature, and
        with the window set if that was the last one needed.  It fails exactly for another owner, a record no
        longer collecting, and a user who has signed. */
    ghost predicate Decided(h: seq<Event>, since: nat, p: Pid, owner: User, user: User, amount: Option<nat>,
                            get: Moment<State>, put: Moment<State>, ok: bool)
    {
      && Seen(h, since, p, get, DecideGet(owner, user, amount))
      && var r := if get.s.record.Some? then get.s.record.value else Record(owner, amount, [], None, Collecting);
         var needed := if c.dualAt.Some? && r.amount.Some? && r.amount.value >= c.dualAt.value then 2 else 1;
         var more := r.(signers := r.signers + [user]);
         var signed := if |more.signers| >= needed then more.(status := Scheduled, executeAt := Some(get.s.now + c.windowMs)) else more;
         if r.owner != owner || r.status != Collecting || user in r.signers then !ok
         else ok && Saved(h, get.k + 1, p, put, signed)
    }

    ghost predicate Saved(h: seq<Event>, since: nat, p: Pid, put: Moment<State>, signed: Record) {
      Seen(h, since, p, put, DecidePut(signed)) && Left(h, put.k + 1, signed)
    }

    /** What is saved is the record it read with one more signature, scheduled if that was the last one needed. */
    method Decide(p: Pid, owner: User, user: User, amount: Option<nat>)
      returns (ok: bool, ghost signedAt: nat, ghost signed: Record, ghost get: Moment<State>, ghost put: Moment<State>)
      requires At(p, DecideGet(owner, user, amount))
      modifies this
      ensures Grew(old(history), history, p)
      ensures At(p, Finished(ok))
      ensures ok ==> s.record == Some(signed) && (signedAt, signed) in s.signings && SignedBy(signed, user, signedAt)
      ensures || (!ok && Threw(history, |old(history)|, p))
              || Decided(history, |old(history)|, p, owner, user, amount, get, put, ok)
    {
      ok, signedAt, signed, get, put := false, 0, Record(owner, amount, [], None, Collecting), Never(), Never();
      var thrown := Throws(p, DecideGet(owner, user, amount));
      if !thrown { ok, signedAt, signed, get, put := Sign(p, owner, user, amount, |old(history)|); }
    }

    method Sign(p: Pid, owner: User, user: User, amount: Option<nat>, ghost since: nat)
      returns (ok: bool, ghost signedAt: nat, ghost signed: Record, ghost get: Moment<State>, ghost put: Moment<State>)
      requires At(p, DecideGet(owner, user, amount)) && since <= |history|
      modifies this
      ensures Grew(old(history), history, p)
      ensures At(p, Finished(ok))
      ensures ok ==> s.record == Some(signed) && (signedAt, signed) in s.signings && SignedBy(signed, user, signedAt)
      ensures || (!ok && Threw(history, |old(history)|, p))
              || Decided(history, since, p, owner, user, amount, get, put, ok)
    {
      ok, signedAt, signed, get, put := false, 0, Record(owner, amount, [], None, Collecting), Moment(|history|, s), Never();
      var r := if s.record.Some? then s.record.value else Record(owner, amount, [], None, Collecting);
      if r.owner != owner || r.status != Collecting || user in r.signers {
        Arrive(p, true, s, DecideGet(owner, user, amount), Finished(false));
      } else {
        ok, signedAt, signed, put := AddSigner(p, owner, user, amount, r, since);
      }
    }

    method AddSigner(p: Pid, owner: User, user: User, amount: Option<nat>, read: Record, ghost since: nat)
      returns (ok: bool, ghost signedAt: nat, ghost signed: Record, ghost put: Moment<State>)
      requires At(p, DecideGet(owner, user, amount)) && since <= |history|
      requires read == (if s.record.Some? then s.record.value else Record(owner, amount, [], None, Collecting))
      requires read.owner == owner && read.status == Collecting && user !in read.signers
      modifies this
      ensures Grew(old(history), history, p)
      ensures At(p, Finished(ok))
      ensures ok ==> s.record == Some(signed) && (signedAt, signed) in s.signings && SignedBy(signed, user, signedAt)
      ensures || (!ok && Threw(history, |old(history)|, p))
              || Decided(history, since, p, owner, user, amount, Moment(|old(history)|, old(s)), put, ok)
    {
      var r := read;
      SignersAreDistinct();
      MoreSigners(r.signers, user);
      r := r.(signers := r.signers + [user]);
      var needed := if c.dualAt.Some? && r.amount.Some? && r.amount.value >= c.dualAt.value then 2 else 1;
      if |r.signers| >= needed {
        r := r.(status := Scheduled, executeAt := Some(s.now + c.windowMs));
      }
      signedAt, signed := s.now, r;
      ok, put := SaveSignature(p, owner, user, amount, r, since);
    }

    lemma SignersAreDistinct()
      requires Valid()
      ensures s.config == c && (s.record.Some? ==> Distinct(s.record.value.signers))
    {
      InvAfter(Start(c), history);
      ConfigStays(Start(c), history);
    }

    lemma MoreSigners(signers: seq<User>, user: User)
      requires Distinct(signers) && user !in signers
      ensures Distinct(signers + [user])
    {
    }

    /** The last signer is `user`, the signers are different, and the window is open once they are enough. */
    ghost predicate SignedBy(r: Record, user: User, signedAt: nat) {
      && Distinct(r.signers) && r.signers != [] && r.signers[|r.signers| - 1] == user
      && (if |r.signers| >= Needed(c, r.amount) then r.status.Scheduled? && r.executeAt == Some(signedAt + c.windowMs)
          else r.status.Collecting?)
    }

    method SaveSignature(p: Pid, owner: User, user: User, amount: Option<nat>, r: Record, ghost since: nat)
      returns (ok: bool, ghost put: Moment<State>)
      requires At(p, DecideGet(owner, user, amount)) && Signed(s.config, s.now, s.record, owner, user, amount) == Some(r)
      requires since <= |history|
      modifies this
      ensures Grew(old(history), history, p)
      ensures At(p, Finished(ok))
      ensures ok ==> s.record == Some(r) && (old(s).now, r) in s.signings
      ensures Seen(history, since, p, Moment(|old(history)|, old(s)), DecideGet(owner, user, amount))
      ensures if ok then Saved(history, |old(history)| + 1, p, put, r) else Threw(history, |old(history)|, p)
    {
      put := Never();
      ghost var get := Moment(|history|, s);
      Arrive(p, true, s, DecideGet(owner, user, amount), DecidePut(r));
      ghost var h, read := history, s;
      ok, put := PutSignature(p, r);
      SeenStays(h, history, since, p, get, DecideGet(owner, user, amount));
      RecordsStay(c, h, read, history, s);
    }

    method PutSignature(p: Pid, r: Record) returns (ok: bool, ghost put: Moment<State>)
      requires At(p, DecidePut(r))
      modifies this
      ensures Grew(old(history), history, p)
      ensures At(p, Finished(ok)) && (ok ==> s.record == Some(r))
      ensures if ok then Saved(history, |old(history)|, p, put, r) else Threw(history, |old(history)|, p)
    {
      ok, put := false, Never();
      var thrown := Throws(p, DecidePut(r));
      if thrown { return; }
      var before := s;
      put := Moment(|history|, s);
      s := s.(record := Some(r));
      Arrive(p, true, before, DecidePut(r), Finished(true));
      ok := true;
    }

    /** What a cancel saw: it succeeds exactly if its user signed the action of its owner, the action was open,
        and its status was the same at the swap. */
    ghost predicate Undone(h: seq<Event>, since: nat, p: Pid, owner: User, user: User,
                           get: Moment<State>, read: Moment<State>, swap: Moment<State>, ok: bool)
    {
      && Seen(h, since, p, get, CancelGet(owner, user))
      && var r := get.s.record;
         if r.None? || r.value.owner != owner || user !in r.value.signers then !ok
         else Reopened(h, get.k + 1, p, read, swap, ok)
    }

    ghost predicate Reopened(h: seq<Event>, since: nat, p: Pid, read: Moment<State>, swap: Moment<State>, ok: bool) {
      && Seen(h, since, p, read, CancelRead)
      && var r := read.s.record;
         if r.None? || (r.value.status != Scheduled && r.value.status != Collecting) then !ok
         else && Seen(h, read.k + 1, p, swap, CancelSwap(r.value.status))
              && (ok <==> swap.s.record.Some? && swap.s.record.value.status == r.value.status)
    }

    /** A cancel that succeeds has found the action open in its last step, and marked it cancelled. */
    method Cancel(p: Pid, owner: User, user: User)
      returns (ok: bool, ghost was: Record, ghost get: Moment<State>, ghost read: Moment<State>, ghost swap: Moment<State>)
      requires At(p, CancelGet(owner, user))
      modifies this
      ensures Grew(old(history), history, p)
      ensures At(p, Finished(ok))
      ensures ok ==> LastStepFound(p, Some(was)) && (was.status.Scheduled? || was.status.Collecting?)
      ensures ok ==> s.record == Some(was.(status := Cancelled))
      ensures || (!ok && Threw(history, |old(history)|, p))
              || Undone(history, |old(history)|, p, owner, user, get, read, swap, ok)
    {
      ok, was, get, read, swap := false, Record(owner, None, [], None, Collecting), Never(), Never(), Never();
      var thrown := Throws(p, CancelGet(owner, user));
      if thrown { return; }
      get := Moment(|history|, s);
      var mine := s.record.Some? && s.record.value.owner == owner && user in s.record.value.signers;
      Arrive(p, true, s, CancelGet(owner, user), if mine then CancelRead else Finished(false));
      ghost var h := history;
      if mine {
        ok, was, read, swap := CancelIfOpen(p);
        SeenStays(h, history, |old(history)|, p, get, CancelGet(owner, user));
      }
    }

    method CancelIfOpen(p: Pid) returns (ok: bool, ghost was: Record, ghost read: Moment<State>, ghost swap: Moment<State>)
      requires At(p, CancelRead)
      modifies this
      ensures Grew(old(history), history, p)
      ensures At(p, Finished(ok))
      ensures ok ==> LastStepFound(p, Some(was)) && (was.status.Scheduled? || was.status.Collecting?)
      ensures ok ==> s.record == Some(was.(status := Cancelled))
      ensures (!ok && Threw(history, |old(history)|, p)) || Reopened(history, |old(history)|, p, read, swap, ok)
    {
      ok, was, read, swap := false, Record(0, None, [], None, Collecting), Never(), Never();
      var thrown := Throws(p, CancelRead);
      if thrown { return; }
      read := Moment(|history|, s);
      var open := s.record.Some? && (s.record.value.status == Scheduled || s.record.value.status == Collecting);
      var status := if s.record.Some? then s.record.value.status else Collecting;
      Arrive(p, true, s, CancelRead, if open then CancelSwap(status) else Finished(false));
      ghost var h := history;
      if open {
        ok, was, swap := CancelAs(p, status);
        SeenStays(h, history, |old(history)|, p, read, CancelRead);
      }
    }

    method CancelAs(p: Pid, status: Status) returns (ok: bool, ghost was: Record, ghost swap: Moment<State>)
      requires At(p, CancelSwap(status)) && (status.Scheduled? || status.Collecting?)
      modifies this
      ensures Grew(old(history), history, p)
      ensures At(p, Finished(ok))
      ensures ok ==> LastStepFound(p, Some(was)) && was.status == status
      ensures ok ==> s.record == Some(was.(status := Cancelled))
      ensures || (!ok && Threw(history, |old(history)|, p))
              || (Seen(history, |old(history)|, p, swap, CancelSwap(status))
                  && (ok <==> swap.s.record.Some? && swap.s.record.value.status == status))
    {
      ok, was, swap := false, Record(0, None, [], None, Collecting), Never();
      var thrown := Throws(p, CancelSwap(status));
      if thrown { return; }
      var before := s;
      swap := Moment(|history|, s);
      ok := s.record.Some? && s.record.value.status == status;
      if ok {
        was := s.record.value;
        s := s.(record := Some(s.record.value.(status := Cancelled)));
      }
      Arrive(p, true, before, CancelSwap(status), Finished(ok));
    }

    /** What a tick saw: a record that is due, and that a listing answers with, is claimed while it is still
        scheduled, and run. */
    ghost predicate Ticked(h: seq<Event>, since: nat, p: Pid, v: Round, done: bool, ran: bool) {
      && Seen(h, since, p, v.due, TickDue)
      && var r := v.due.s.record;
         if r.Some? && r.value.status == Scheduled && r.value.executeAt.Some? && r.value.executeAt.value <= v.due.s.now
            && v.due.s.ahead < 1000
         then Claimed(h, v.due.k + 1, p, r.value, v, done, ran)
         else done && !ran
    }

    ghost predicate Claimed(h: seq<Event>, since: nat, p: Pid, r: Record, v: Round, done: bool, ran: bool) {
      && Seen(h, since, p, v.read, TickRead(r))
      && if v.read.s.record.None? || v.read.s.record.value.status != Scheduled then done && !ran
         else Taken(h, v.read.k + 1, p, r, v, done, ran)
    }

    ghost predicate Taken(h: seq<Event>, since: nat, p: Pid, r: Record, v: Round, done: bool, ran: bool) {
      && Seen(h, since, p, v.swap, TickSwap(r))
      && if v.swap.s.record.None? || v.swap.s.record.value.status != Scheduled then done && !ran
         else
           && Left(h, v.swap.k + 1, v.swap.s.record.value.(status := Running))
           && ran && Outcome(h, v.swap.k + 1, p, r, v, done)
    }

    /** A run that ended well is saved as executed, unless that saving failed; any other as failed. */
    ghost predicate Outcome(h: seq<Event>, since: nat, p: Pid, r: Record, v: Round, done: bool) {
      && done && Seen(h, since, p, v.run, TickRun(r))
      && if h[v.run.k].ok && Put(h, v.run.k + 1, p, r, true, v.save) then true
         else Put(h, v.run.k + 1, p, r, false, v.save) && (h[v.run.k].ok ==> Threw(h, v.run.k + 1, p))
    }

    ghost predicate Put(h: seq<Event>, since: nat, p: Pid, r: Record, well: bool, save: Moment<State>) {
      && Seen(h, since, p, save, TickPut(r, well))
      && Left(h, save.k + 1, r.(status := if well then Executed else Failed))
    }

    /** One round over the due records.  `run` is the place of the execution it started, if it did: not
        before that record was due. */
    method Tick(p: Pid) returns (done: bool, ghost run: Option<nat>, ghost round: Round)
      requires At(p, TickDue)
      modifies this
      ensures Grew(old(history), history, p)
      ensures At(p, Finished(done))
      ensures run.Some? ==> RanInTime(run.value)
      ensures (!done && Threw(history, |old(history)|, p)) || Ticked(history, |old(history)|, p, round, done, run.Some?)
    {
      done, run, round := false, None, Round(Never(), Never(), Never(), Never(), Never());
      var thrown := Throws(p, TickDue);
      if !thrown { done, run, round := RunDue(p, round, |old(history)|); }
    }

    method RunDue(p: Pid, ghost v: Round, ghost since: nat) returns (done: bool, ghost run: Option<nat>, ghost round: Round)
      requires At(p, TickDue) && since <= |history|
      modifies this
      ensures Grew(old(history), history, p)
      ensures At(p, Finished(done))
      ensures run.Some? ==> RanInTime(run.value)
      ensures (!done && Threw(history, |old(history)|, p)) || Ticked(history, since, p, round, done, run.Some?)
    {
      ghost var seen := Moment(|history|, s);
      var due := if s.record.Some? && Due(s.record.value, s.now) && s.ahead < Paging.LIST_LIMIT then [s.record.value] else [];
      Arrive(p, true, s, TickDue, if due == [] then Finished(true) else TickRead(due[0]));
      ghost var h := history;
      done, run, round := RunEach(p, due, v.(due := seen));
      SeenStays(h, history, since, p, seen, TickDue);
    }

    /** One record has at most one place among the due ones. */
    method RunEach(p: Pid, due: seq<Record>, ghost v: Round) returns (done: bool, ghost run: Option<nat>, ghost round: Round)
      requires At(p, if due == [] then Finished(true) else TickRead(due[0])) && |due| <= 1
      modifies this
      ensures Grew(old(history), history, p)
      ensures At(p, Finished(done)) && round.due == v.due
      ensures run.Some? ==> RanInTime(run.value)
      ensures if due == [] then done && run.None?
              else (!done && Threw(history, |old(history)|, p)) || Claimed(history, |old(history)|, p, due[0], round, done, run.Some?)
    {
      done, run, round := true, None, v;
      for i := 0 to |due|
        invariant Grew(old(history), history, p)
        invariant At(p, if i < |due| then TickRead(due[i]) else Finished(done)) && round.due == v.due
        invariant run.Some? ==> i == |due| && RanInTime(run.value)
        invariant if i == 0 then done && run.None?
                  else (!done && Threw(history, |old(history)|, p)) || Claimed(history, |old(history)|, p, due[0], round, done, run.Some?)
      {
        done, run, round := TickOne(p, due[i], |old(history)|, round);
      }
    }

    ghost predicate RanInTime(i: nat) reads this {
      i < |s.ran| && s.ran[i].1.executeAt.Some? && s.ran[i].1.executeAt.value <= s.ran[i].0
    }

    method TickOne(p: Pid, r: Record, ghost since: nat, ghost v: Round) returns (done: bool, ghost run: Option<nat>, ghost round: Round)
      requires At(p, TickRead(r)) && since <= |history|
      modifies this
      ensures Grew(old(history), history, p)
      ensures At(p, Finished(done)) && round.due == v.due
      ensures run.Some? ==> RanInTime(run.value)
      ensures (!done && Threw(history, |old(history)|, p)) || Claimed(history, since, p, r, round, done, run.Some?)
    {
      done, run, round := false, None, v;
      var thrown := Throws(p, TickRead(r));
      if thrown { return; }
      ghost var read := Moment(|history|, s);
      round := round.(read := read);
      var scheduled := s.record.Some? && s.record.value.status == Scheduled;
      Arrive(p, true, s, TickRead(r), if scheduled then TickSwap(r) else Finished(true));
      ghost var h := history;
      done := true;
      if scheduled { done, run, round := ClaimAndRun(p, r, read.k + 1, round); }
      SeenStays(h, history, since, p, read, TickRead(r));
    }

    method ClaimAndRun(p: Pid, r: Record, ghost since: nat, ghost v: Round) returns (done: bool, ghost run: Option<nat>, ghost round: Round)
      requires At(p, TickSwap(r)) && since <= |history|
      modifies this
      ensures Grew(old(history), history, p)
      ensures At(p, Finished(done)) && round.due == v.due && round.read == v.read
      ensures run.Some? ==> RanInTime(run.value)
      ensures (!done && Threw(history, |old(history)|, p)) || Taken(history, since, p, r, round, done, run.Some?)
    {
      done, run, round := false, None, v;
      var thrown := Throws(p, TickSwap(r));
      if !thrown { done, run, round := ClaimNow(p, r, since, v); }
    }

    method ClaimNow(p: Pid, r: Record, ghost since: nat, ghost v: Round) returns (done: bool, ghost run: Option<nat>, ghost round: Round)
      requires At(p, TickSwap(r)) && since <= |history|
      modifies this
      ensures Grew(old(history), history, p)
      ensures At(p, Finished(done)) && round.due == v.due && round.read == v.read
      ensures run.Some? ==> RanInTime(run.value)
      ensures (!done && Threw(history, |old(history)|, p)) || Taken(history, since, p, r, round, done, run.Some?)
    {
      var before := s;
      ghost var swap := Moment(|history|, s);
      run, round := None, v.(swap := swap);
      var claimed := s.record.Some? && s.record.value.status == Scheduled;
      if claimed { s := s.(record := Some(s.record.value.(status := Running))); }
      Arrive(p, true, before, TickSwap(r), if claimed then TickRun(r) else Finished(true));
      ghost var h := history;
      done := true;
      if claimed {
        done, run, round := Execute(p, r, swap.k + 1, round);
        LeftStays(h, history, swap.k + 1, swap.s.record.value.(status := Running));
      }
      SeenStays(h, history, since, p, swap, TickSwap(r));
    }

    method Execute(p: Pid, r: Record, ghost since: nat, ghost v: Round) returns (done: bool, ghost run: Option<nat>, ghost round: Round)
      requires At(p, TickRun(r)) && since <= |history|
      modifies this
      ensures Grew(old(history), history, p)
      ensures At(p, Finished(done)) && round.due == v.due && round.read == v.read && round.swap == v.swap
      ensures run.Some? && RanInTime(run.value)
      ensures (!done && Threw(history, |old(history)|, p)) || Outcome(history, since, p, r, round, done)
    {
      Yield(p, TickRun(r));
      done, run, round := RunNow(p, r, since, v);
    }

    method RunNow(p: Pid, r: Record, ghost since: nat, ghost v: Round) returns (done: bool, ghost run: Option<nat>, ghost round: Round)
      requires At(p, TickRun(r)) && since <= |history|
      modifies this
      ensures Grew(old(history), history, p)
      ensures At(p, Finished(done)) && round.due == v.due && round.read == v.read && round.swap == v.swap
      ensures run.Some? && RanInTime(run.value)
      ensures (!done && Threw(history, |old(history)|, p)) || Outcome(history, since, p, r, round, done)
    {
      ghost var ran := Moment(|history|, s);
      var ok: bool;
      ok, run := RunIt(p, r);
      ghost var h, running := history, s;
      ghost var save;
      done, save := SaveOutcome(p, r, ok);
      round := v.(run := ran, save := save);
      SeenStays(h, history, since, p, ran, TickRun(r));
      RecordsStay(c, h, running, history, s);
    }

    method RunIt(p: Pid, r: Record) returns (ok: bool, ghost run: Option<nat>)
      requires At(p, TickRun(r))
      modifies this
      ensures Grew(old(history), history, p) && |history| == |old(history)| + 1 && history[|old(history)|] == Go(p, ok)
      ensures At(p, TickPut(r, ok))
      ensures run.Some? && RanInTime(run.value)
      ensures Seen(history, |old(history)|, p, Moment(|old(history)|, old(s)), TickRun(r))
    {
      ok := *;
      run := Some(|s.ran|);
      Arrive(p, ok, s, TickRun(r), TickPut(r, ok));
      InvAfter(Start(c), history);
    }

    /** A success that cannot be saved is saved as a failure. */
    method SaveOutcome(p: Pid, r: Record, ok: bool) returns (done: bool, ghost save: Moment<State>)
      requires At(p, TickPut(r, ok))
      modifies this
      ensures Grew(old(history), history, p)
      ensures At(p, Finished(done))
      ensures if !done then Threw(history, |old(history)|, p)
              else if ok && Put(history, |old(history)|, p, r, true, save) then true
              else Put(history, |old(history)|, p, r, false, save) && (ok ==> Threw(history, |old(history)|, p))
    {
      var saved := ok;
      done, save := false, Never();
      var thrown := Throws(p, TickPut(r, saved));
      if thrown && saved {
        saved := false;
        thrown := Throws(p, TickPut(r, saved));
      }
      if thrown { return; }
      var before := s;
      save := Moment(|history|, s);
      s := s.(record := Some(r.(status := if saved then Executed else Failed)));
      Arrive(p, true, before, TickPut(r, saved), Finished(true));
      done := true;
    }
  }
}
