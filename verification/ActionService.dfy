/** Proposed actions as their source writes them (apps/server/src/actions.ts, and the routes of
    apps/server/src/engine/routes.ts that write the same record): calls that read, swap, claim and put one
    action record, suspended at every await while other calls run.  Each method is shown to take the
    steps of the approval protocol, so what is proved of the protocol's runs holds for it. */
module ActionService {
  import opened Runs
  import opened ActionApproval

  /** Events other than this call's own steps.  A crash ends every call, so it is not among them. */
  predicate Outside(e: Event, p: Pid) {
    match e
    case Begin(q, _) => q != p
    case Go(q, _) => q != p
    case Throw(q) => q != p
    case Lose(q, _) => q != p
    case Crash => false
    case Tick(_) => true
    case Task(_) => true
    case Sweep => true
  }

  /** The history went on, and call `p` in it only by steps of its own and by errors it was handed. */
  ghost predicate Grew(before: seq<Event>, after: seq<Event>, p: Pid) {
    && |before| <= |after| && (forall i :: 0 <= i < |before| ==> after[i] == before[i])
    && forall i :: |before| <= i < |after| ==> Outside(after[i], p) || after[i].Go? || after[i].Throw?
  }

  /** The executions so far stay on record. */
  ghost predicate Keeps(before: seq<Execution>, after: seq<Execution>) {
    |before| <= |after| && forall i :: 0 <= i < |before| ==> after[i] == before[i]
  }

  lemma AdvanceKeeps(s: State, p: Pid, answer: Answer, pc: Proc)
    requires Advance(s, p, answer, pc).Some?
    ensures Keeps(s.executions, Advance(s, p, answer, pc).value.s.executions)
  {
  }

  lemma StepKeeps(s: State, e: Event)
    requires Next(s, e).Some?
    ensures Keeps(s.executions, Next(s, e).value.executions)
  {
    if e.Go? || e.Lose? { AdvanceKeeps(s, e.p, e.answer, s.procs[e.p]); }
  }

  lemma ExecutionsStay(before: seq<Event>, s: State, after: seq<Event>, t: State)
    requires Exec(Next, START, before) == Some(s) && Exec(Next, START, after) == Some(t)
    requires |before| <= |after| && forall i :: 0 <= i < |before| ==> after[i] == before[i]
    ensures Keeps(s.executions, t.executions)
  {
    assert after == before + after[|before|..];
    ExecAppend(Next, START, before, after[|before|..]);
    forall u: State, e: Event | Keeps(s.executions, u.executions) && Next(u, e).Some?
      ensures Keeps(s.executions, Next(u, e).value.executions)
    {
      StepKeeps(u, e);
    }
    InvariantOfRuns(Next, (u: State) => Keeps(s.executions, u.executions), s, after[|before|..]);
  }

  /** Stands for a step that was not taken. */
  const NEVER := Moment(0, START)

  /** The steps a decision was made by: the reading of the action, of its task, the clock, the expiry swap, the
      gates, the claim, the start of the provider call, its answer and the recording of its outcome. */
  datatype Course = Course(
    get: Moment<State>, task: Moment<State>, clock: Moment<State>, expire: Moment<State>, gate: Moment<State>,
    claim: Moment<State>, start: Moment<State>, answer: Moment<State>, save: Moment<State>)

  /** After `since`, call `p` took a step from `pc` at this moment. */
  ghost predicate Seen(h: seq<Event>, since: nat, p: Pid, m: Moment<State>, pc: Proc) {
    since <= m.k && Occurs(Next, START, h, m) && h[m.k].Go? && h[m.k].p == p && p in m.s.procs && m.s.procs[p] == pc
  }

  lemma SeenStays(before: seq<Event>, after: seq<Event>, since: nat, p: Pid, m: Moment<State>, pc: Proc)
    requires Seen(before, since, p, m, pc)
    requires |before| <= |after| && forall i :: 0 <= i < |before| ==> after[i] == before[i]
    ensures Seen(after, since, p, m, pc) && after[m.k] == before[m.k]
  {
    OccursStays(Next, START, before, after, m);
  }

  /** After `since`, an awaited call of `p` failed. */
  ghost predicate Threw(h: seq<Event>, since: nat, p: Pid) { exists k :: since <= k < |h| && h[k] == Throw(p) }

  /** After `k` events the record is this one. */
  ghost predicate Left(h: seq<Event>, k: nat, a: Action) {
    k <= |h| && Exec(Next, START, h[..k]).Some? && Exec(Next, START, h[..k]).value.action == Some(a)
  }

  predicate SameRecords(a: State, b: State) { a.action == b.action && a.now == b.now && a.taskLive == b.taskLive }

  /** One action record, its task, and the other calls. */
  class Actions {
    var s: State
    ghost var history: seq<Event>

    ghost predicate Valid() reads this { Exec(Next, START, history) == Some(s) }

    ghost predicate At(p: Pid, pc: Proc) reads this { Valid() && p in s.procs && s.procs[p] == pc }

    /** The last event is a step of `p` that found `was` in the record. */
    ghost predicate LastStepFound(p: Pid, was: Option<Action>) reads this {
      && history != [] && history[|history| - 1].Go? && history[|history| - 1].p == p
      && var before := Exec(Next, START, history[..|history| - 1]); before.Some? && before.value.action == was
    }

    constructor ()
      ensures Valid() && s == START
    {
      s, history := START, [];
    }

    // ---------------------------------------------------------------- the environment

    method Other(p: Pid, ghost pc: Proc, e: Event)
      requires At(p, pc) && Outside(e, p)
      modifies this
      ensures Grew(old(history), history, p)
      ensures At(p, pc)
    {
      if Next(s, e).Some? {
        ExecSnoc(Next, START, history, e);
        s, history := Next(s, e).value, history + [e];
      }
    }

    /** An await: other calls, the clock, the task and recovery go on. */
    method Yield(p: Pid, ghost pc: Proc)
      requires At(p, pc)
      modifies this
      ensures Grew(old(history), history, p)
      ensures At(p, pc)
    {
      var others: seq<Event> := *;
      for i := 0 to |others|
        invariant Grew(old(history), history, p)
        invariant At(p, pc)
      {
        if Outside(others[i], p) { Other(p, pc, others[i]); }
      }
    }

    /** An await whose call fails without effect. */
    method Throws(p: Pid, ghost pc: Proc) returns (thrown: bool)
      requires At(p, pc) && Awaits(pc)
      modifies this
      ensures Grew(old(history), history, p)
      ensures At(p, if thrown then Finished(false) else pc)
      ensures thrown ==> Threw(history, |old(history)|, p)
    {
      Yield(p, pc);
      thrown := *;
      if thrown {
        ExecSnoc(Next, START, history, Throw(p));
        s, history := Next(s, Throw(p)).value, history + [Throw(p)];
        assert history[|history| - 1] == Throw(p);
      }
    }

    // ---------------------------------------------------------------- the store

    /** `compareAndSwap`: the status is always guarded, the hash and the expiry where given. */
    method Swap(status: Status, hash: Option<Content>, expiresAt: Option<nat>, to: Action) returns (hit: bool)
      modifies this`s
      ensures hit <==> old(s).action.Some? && old(s).action.value.status == status
                       && (hash.Some? ==> old(s).action.value.hash == hash.value)
                       && (expiresAt.Some? ==> old(s).action.value.expiresAt == expiresAt.value)
      ensures s == if hit then old(s).(action := Some(to)) else old(s)
    {
      hit := s.action.Some? && s.action.value.status == status
             && (hash.Some? ==> s.action.value.hash == hash.value)
             && (expiresAt.Some? ==> s.action.value.expiresAt == expiresAt.value);
      if hit { s := s.(action := Some(to)); }
    }

    method InsertIfAbsent(a: Action) returns (hit: bool)
      modifies this`s
      ensures hit <==> old(s).action.None?
      ensures s == if hit then old(s).(action := Some(a)) else old(s)
    {
      hit := s.action.None?;
      if hit { s := s.(action := Some(a)); }
    }

    /** `Store.claim`: it looks at the status, the expiry and the task, not at the hash. */
    method Claim(status: Status, now: nat) returns (claimed: Option<Action>)
      requires status == Executing || status == Denied
      modifies this`s
      ensures claimed.Some? <==> Claimable(old(s), status == Executing, now)
      ensures claimed.Some? ==> claimed == Some(old(s).action.value.(status := status))
      ensures s == if claimed.Some? then old(s).(action := claimed) else old(s)
    {
      claimed := None;
      if s.action.Some? && s.action.value.status == AwaitingReview && s.action.value.expiresAt > now
         && (status != Executing || !s.action.value.hasTask || s.taskLive)
      {
        claimed := Some(s.action.value.(status := status));
        s := s.(action := claimed);
      }
    }

    // ---------------------------------------------------------------- steps

    method Arrive(p: Pid, answer: Answer, before: State, ghost m: Move)
      requires Exec(Next, START, history) == Some(before) && p in before.procs
      requires Advance(before, p, answer, before.procs[p]) == Some(m) && SameRecords(m.s, s)
      modifies this
      ensures Grew(old(history), history, p) && history == old(history) + [Go(p, answer)]
      ensures At(p, m.pc) && s == ActionApproval.At(m.s, p, m.pc) && LastStepFound(p, before.action)
    {
      ghost var h := history;
      ExecSnoc(Next, START, history, Go(p, answer));
      s, history := Next(before, Go(p, answer)).value, history + [Go(p, answer)];
      assert history[..|h|] == h;
    }

    method ArriveReview(p: Pid, before: State, ghost here: Proc, ghost there: Proc)
      requires Exec(Next, START, history) == Some(before) && p in before.procs && before.procs[p] == here && InReview(here)
      requires var m := ReviewStep(before, p, here); SameRecords(m.s, s) && m.pc == there
      modifies this
      ensures Grew(old(history), history, p)
      ensures At(p, there) && SameRecords(s, old(s)) && LastStepFound(p, before.action)
      ensures |history| == |old(history)| + 1
      ensures Seen(history, |old(history)|, p, Moment(|old(history)|, before), here)
    {
      Arrive(p, Good, before, ReviewStep(before, p, here));
      assert history[..|old(history)|] == old(history);
    }

    method ArriveOperator(p: Pid, before: State, ghost here: Proc, ghost there: Proc)
      requires Exec(Next, START, history) == Some(before) && p in before.procs && before.procs[p] == here && InOperator(here)
      requires var m := OperatorStep(before, p, here); SameRecords(m.s, s) && m.pc == there
      modifies this
      ensures Grew(old(history), history, p)
      ensures At(p, there) && SameRecords(s, old(s)) && LastStepFound(p, before.action)
      ensures |history| == |old(history)| + 1
      ensures Seen(history, |old(history)|, p, Moment(|old(history)|, before), here)
    {
      Arrive(p, Good, before, OperatorStep(before, p, here));
      assert history[..|old(history)|] == old(history);
    }

    method ArriveDecide(p: Pid, answer: Answer, before: State, ghost here: Proc, ghost there: Proc)
      requires Exec(Next, START, history) == Some(before) && p in before.procs && before.procs[p] == here && InDecide(here)
      requires var m := DecideStep(before, p, answer, here); SameRecords(m.s, s) && m.pc == there
      modifies this
      ensures Grew(old(history), history, p)
      ensures At(p, there) && SameRecords(s, old(s)) && LastStepFound(p, before.action)
      ensures |history| == |old(history)| + 1 && history[|old(history)|] == Go(p, answer)
      ensures Seen(history, |old(history)|, p, Moment(|old(history)|, before), here)
    {
      Arrive(p, answer, before, DecideStep(before, p, answer, here));
      assert history[..|old(history)|] == old(history);
    }

    method ArriveFlight(p: Pid, answer: Answer, before: State, ghost here: Proc, ghost there: Proc)
      requires Exec(Next, START, history) == Some(before) && p in before.procs && before.procs[p] == here && InFlight(here)
      requires var m := FlightStep(before, p, answer, here); SameRecords(m.s, s) && m.pc == there
      modifies this
      ensures Grew(old(history), history, p)
      ensures At(p, there) && SameRecords(s, old(s)) && s.executions == FlightStep(before, p, answer, here).s.executions
      ensures |history| == |old(history)| + 1 && history[|old(history)|] == Go(p, answer)
      ensures Seen(history, |old(history)|, p, Moment(|old(history)|, before), here)
    {
      Arrive(p, answer, before, FlightStep(before, p, answer, here));
      assert history[..|old(history)|] == old(history);
    }

    // ---------------------------------------------------------------- propose, edit, retry

    /** `was` is what the last step found: what is stored afterwards is that, or the proposal if it was nothing. */
    method Propose(p: Pid, proposal: Action) returns (ok: bool, ghost was: Option<Action>)
      requires At(p, ProposeGet(proposal))
      modifies this
      ensures Grew(old(history), history, p)
      ensures At(p, Finished(ok))
      ensures ok ==> LastStepFound(p, was) && s.action == (if was.Some? then was else Some(proposal))
      ensures !ok ==> Threw(history, |old(history)|, p)
    {
      was := None;
      var thrown := Throws(p, ProposeGet(proposal));
      ok := !thrown;
      if ok {
        var found := s.action;
        was := found;
        ArriveReview(p, s, ProposeGet(proposal), if found.Some? then Finished(true) else ProposeInsert(proposal));
        if found.None? { ok, was := InsertProposal(p, proposal); }
      }
    }

    method InsertProposal(p: Pid, proposal: Action) returns (ok: bool, ghost was: Option<Action>)
      requires At(p, ProposeInsert(proposal))
      modifies this
      ensures Grew(old(history), history, p)
      ensures At(p, Finished(ok))
      ensures ok ==> LastStepFound(p, was) && s.action == (if was.Some? then was else Some(proposal))
      ensures !ok ==> Threw(history, |old(history)|, p)
    {
      was := None;
      var thrown := Throws(p, ProposeInsert(proposal));
      if thrown { return false, was; }
      was := s.action;
      var before := s;
      var saved := InsertIfAbsent(proposal);
      ArriveReview(p, before, ProposeInsert(proposal), Finished(true));
      ok := true;
    }

    /** The call read the record, and then swapped it: it fails exactly if one of them did not find what it
        needs. */
    ghost predicate TwoSteps(h: seq<Event>, since: nat, p: Pid, here: Proc, get: Moment<State>, found: bool,
                             there: Proc, swap: Moment<State>, hit: bool, ok: bool)
    {
      && Seen(h, since, p, get, here)
      && if !found then !ok else Seen(h, get.k + 1, p, swap, there) && (ok <==> hit)
    }

    predicate OpenWith(s: State, hash: Content) {
      s.action.Some? && s.action.value.status == AwaitingReview && s.action.value.hash == hash
    }

    /** An edit that succeeds has found the open review with the expected hash in its last step, and replaced
        its data and its hash, and nothing else; it fails only if one of its steps found another. */
    method Edit(p: Pid, newData: nat, expectedHash: Content)
      returns (ok: bool, ghost was: Action, ghost get: Moment<State>, ghost swap: Moment<State>)
      requires At(p, EditGet(newData, expectedHash))
      modifies this
      ensures Grew(old(history), history, p)
      ensures At(p, Finished(ok))
      ensures ok ==> LastStepFound(p, Some(was)) && was.status == AwaitingReview && was.hash == expectedHash
      ensures ok ==> s.action == Some(was.(data := newData, hash := Edited(newData, was.connection)))
      ensures || (!ok && Threw(history, |old(history)|, p))
              || TwoSteps(history, |old(history)|, p, EditGet(newData, expectedHash), get, OpenWith(get.s, expectedHash),
                          EditSwap(newData, if get.s.action.Some? then get.s.action.value else was), swap,
                          OpenWith(swap.s, expectedHash), ok)
    {
      ok, was, get, swap := false, Action(AwaitingReview, 0, 0, 0, expectedHash, 0, false, false), NEVER, NEVER;
      var thrown := Throws(p, EditGet(newData, expectedHash));
      if !thrown { ok, was, get, swap := ReadAndEdit(p, newData, expectedHash, |old(history)|); }
    }

    method ReadAndEdit(p: Pid, newData: nat, expectedHash: Content, ghost since: nat)
      returns (ok: bool, ghost was: Action, ghost get: Moment<State>, ghost swap: Moment<State>)
      requires At(p, EditGet(newData, expectedHash)) && since <= |history|
      modifies this
      ensures Grew(old(history), history, p)
      ensures At(p, Finished(ok))
      ensures ok ==> LastStepFound(p, Some(was)) && was.status == AwaitingReview && was.hash == expectedHash
      ensures ok ==> s.action == Some(was.(data := newData, hash := Edited(newData, was.connection)))
      ensures || (!ok && Threw(history, |old(history)|, p))
              || TwoSteps(history, since, p, EditGet(newData, expectedHash), get, OpenWith(get.s, expectedHash),
                          EditSwap(newData, if get.s.action.Some? then get.s.action.value else was), swap,
                          OpenWith(swap.s, expectedHash), ok)
    {
      ok, was, get, swap := false, Action(AwaitingReview, 0, 0, 0, expectedHash, 0, false, false), Moment(|history|, s), NEVER;
      var read := s.action;
      var found := OpenWith(s, expectedHash);
      ArriveReview(p, s, EditGet(newData, expectedHash), if found then EditSwap(newData, read.value) else Finished(false));
      ghost var h := history;
      if found {
        ok, was, swap := SwapEdit(p, newData, read.value);
        SeenStays(h, history, since, p, get, EditGet(newData, expectedHash));
      }
    }

    method SwapEdit(p: Pid, newData: nat, action: Action) returns (ok: bool, ghost was: Action, ghost swap: Moment<State>)
      requires At(p, EditSwap(newData, action))
      modifies this
      ensures Grew(old(history), history, p)
      ensures At(p, Finished(ok))
      ensures ok ==> LastStepFound(p, Some(was)) && was.status == AwaitingReview && was.hash == action.hash
      ensures ok ==> s.action == Some(was.(data := newData, hash := Edited(newData, was.connection)))
      ensures || (!ok && Threw(history, |old(history)|, p))
              || (Seen(history, |old(history)|, p, swap, EditSwap(newData, action)) && (ok <==> OpenWith(swap.s, action.hash)))
    {
      ok, was, swap := false, action, NEVER;
      var thrown := Throws(p, EditSwap(newData, action));
      if thrown { return; }
      var before := s;
      swap := Moment(|history|, s);
      var stored := if s.action.Some? then s.action.value else action;
      was := stored;
      ok := Swap(AwaitingReview, Some(action.hash), None,
                 stored.(data := newData, hash := Edited(newData, action.connection)));
      ArriveReview(p, before, EditSwap(newData, action), Finished(ok));
      InvOfRuns(history);
    }

    predicate Retryable(s: State) { (Has(s, Failed) || Has(s, Denied)) && !s.action.value.uncertain }

    /** A retry that succeeds has read a failure or a denial without doubt, has found that status again in its
        last step, and reopened what it found; it fails only if one of its steps found another. */
    method Retry(p: Pid) returns (ok: bool, ghost was: Action, ghost get: Moment<State>, ghost swap: Moment<State>)
      requires At(p, RetryGet)
      modifies this
      ensures Grew(old(history), history, p)
      ensures At(p, Finished(ok))
      ensures ok ==> Retryable(get.s)
                     && LastStepFound(p, Some(was)) && was.status == get.s.action.value.status
      ensures ok ==> s.action == Some(was.(status := AwaitingReview, uncertain := false))
      ensures || (!ok && Threw(history, |old(history)|, p))
              || (var read := if get.s.action.Some? then get.s.action.value.status else Failed;
                  TwoSteps(history, |old(history)|, p, RetryGet, get, Retryable(get.s), RetrySwap(read), swap, Has(swap.s, read), ok))
    {
      ok, was, get, swap := false, Action(AwaitingReview, 0, 0, 0, Edited(0, 0), 0, false, false), NEVER, NEVER;
      var thrown := Throws(p, RetryGet);
      if !thrown { ok, was, get, swap := ReadAndRetry(p, |old(history)|); }
    }

    method ReadAndRetry(p: Pid, ghost since: nat)
      returns (ok: bool, ghost was: Action, ghost get: Moment<State>, ghost swap: Moment<State>)
      requires At(p, RetryGet) && since <= |history|
      modifies this
      ensures Grew(old(history), history, p)
      ensures At(p, Finished(ok))
      ensures ok ==> Retryable(get.s)
                     && LastStepFound(p, Some(was)) && was.status == get.s.action.value.status
      ensures ok ==> s.action == Some(was.(status := AwaitingReview, uncertain := false))
      ensures || (!ok && Threw(history, |old(history)|, p))
              || (var read := if get.s.action.Some? then get.s.action.value.status else Failed;
                  TwoSteps(history, since, p, RetryGet, get, Retryable(get.s), RetrySwap(read), swap, Has(swap.s, read), ok))
    {
      ok, was, get, swap := false, Action(AwaitingReview, 0, 0, 0, Edited(0, 0), 0, false, false), Moment(|history|, s), NEVER;
      var read, found := s.action, Retryable(s);
      ArriveReview(p, s, RetryGet, if found then RetrySwap(read.value.status) else Finished(false));
      ghost var h := history;
      if found {
        ok, was, swap := SwapRetry(p, read.value.status);
        SeenStays(h, history, since, p, get, RetryGet);
      }
    }

    method SwapRetry(p: Pid, status: Status) returns (ok: bool, ghost was: Action, ghost swap: Moment<State>)
      requires At(p, RetrySwap(status))
      modifies this
      ensures Grew(old(history), history, p)
      ensures At(p, Finished(ok))
      ensures ok ==> LastStepFound(p, Some(was)) && was.status == status
      ensures ok ==> s.action == Some(was.(status := AwaitingReview, uncertain := false))
      ensures || (!ok && Threw(history, |old(history)|, p))
              || (Seen(history, |old(history)|, p, swap, RetrySwap(status)) && (ok <==> Has(swap.s, status)))
    {
      ok, was, swap := false, Action(status, 0, 0, 0, Edited(0, 0), 0, false, false), NEVER;
      var thrown := Throws(p, RetrySwap(status));
      if thrown { return; }
      var before := s;
      swap := Moment(|history|, s);
      if s.action.Some? { was := s.action.value; }
      var stored := if s.action.Some? then s.action.value else Action(status, 0, 0, 0, Edited(0, 0), 0, false, false);
      ok := Swap(status, None, None, stored.(status := AwaitingReview, uncertain := false));
      ArriveReview(p, before, RetrySwap(status), Finished(ok));
    }

    // ---------------------------------------------------------------- the routes of an operator

    /** The operator's word on an unknown outcome; without doubt from then on. */
    method Reconcile(p: Pid, executed: bool) returns (ok: bool, ghost was: Action, ghost get: Moment<State>, ghost swap: Moment<State>)
      requires At(p, ReconcileGet(executed))
      modifies this
      ensures Grew(old(history), history, p)
      ensures At(p, Finished(ok))
      ensures ok ==> LastStepFound(p, Some(was)) && was.status == OutcomeUnknown
      ensures ok ==> s.action == Some(was.(status := if executed then Succeeded else Failed, uncertain := false))
      ensures || (!ok && Threw(history, |old(history)|, p))
              || TwoSteps(history, |old(history)|, p, ReconcileGet(executed), get, Has(get.s, OutcomeUnknown),
                          ReconcileSwap(executed), swap, Has(swap.s, OutcomeUnknown), ok)
    {
      ok, was, get, swap := false, Action(OutcomeUnknown, 0, 0, 0, Edited(0, 0), 0, false, false), NEVER, NEVER;
      ghost var here, there := ReconcileGet(executed), ReconcileSwap(executed);
      var thrown, found;
      thrown, found, get := ReadFor(p, OutcomeUnknown, here, there);
      if !thrown && found {
        ghost var h := history;
        ok, was, swap := SwapFor(p, OutcomeUnknown, if executed then Succeeded else Failed, true, there);
        SeenStays(h, history, |old(history)|, p, get, here);
      }
    }

    /** Swaps the status of the record, if it still has this one; `certain` clears the doubt too. */
    method SwapFor(p: Pid, expected: Status, status: Status, certain: bool, ghost there: Proc)
      returns (ok: bool, ghost was: Action, ghost swap: Moment<State>)
      requires At(p, there) && InOperator(there) && Awaits(there)
      requires forall t: State :: SwapsTo(t, OperatorStep(t, p, there), expected, status, certain)
      modifies this
      ensures Grew(old(history), history, p)
      ensures At(p, Finished(ok))
      ensures ok ==> LastStepFound(p, Some(was)) && was.status == expected
                     && s.action == Some(was.(status := status, uncertain := was.uncertain && !certain))
      ensures || (!ok && Threw(history, |old(history)|, p))
              || (Seen(history, |old(history)|, p, swap, there) && (ok <==> Has(swap.s, expected)))
    {
      was, swap := Action(expected, 0, 0, 0, Edited(0, 0), 0, false, false), NEVER;
      var thrown := Throws(p, there);
      ok := false;
      if !thrown {
        swap := Moment(|history|, s);
        if s.action.Some? { was := s.action.value; }
        ok := SwapNow(p, expected, status, certain, there);
      }
    }

    predicate SwapsTo(t: State, m: Move, expected: Status, status: Status, certain: bool) {
      && m.pc == Finished(Has(t, expected)) && m.s.now == t.now && m.s.taskLive == t.taskLive
      && m.s.action == if Has(t, expected)
                       then Some(t.action.value.(status := status, uncertain := t.action.value.uncertain && !certain))
                       else t.action
    }

    method SwapNow(p: Pid, expected: Status, status: Status, certain: bool, ghost there: Proc) returns (ok: bool)
      requires At(p, there) && InOperator(there)
      requires SwapsTo(s, OperatorStep(s, p, there), expected, status, certain)
      modifies this
      ensures Grew(old(history), history, p)
      ensures At(p, Finished(ok)) && ok == Has(old(s), expected) && LastStepFound(p, old(s).action)
      ensures ok ==> s.action == Some(old(s).action.value.(status := status, uncertain := old(s).action.value.uncertain && !certain))
      ensures Seen(history, |old(history)|, p, Moment(|old(history)|, old(s)), there)
    {
      var before := s;
      var stored := if s.action.Some? then s.action.value else Action(expected, 0, 0, 0, Edited(0, 0), 0, false, false);
      ok := Swap(expected, None, None, stored.(status := status, uncertain := stored.uncertain && !certain));
      ArriveOperator(p, before, there, Finished(ok));
    }

    /** Reads the record, and goes on if it has this status. */
    method ReadFor(p: Pid, status: Status, ghost here: Proc, ghost there: Proc)
      returns (thrown: bool, found: bool, ghost get: Moment<State>)
      requires At(p, here) && InOperator(here) && Awaits(here)
      requires forall s: State :: OperatorStep(s, p, here) == Move(s, if Has(s, status) then there else Finished(false))
      modifies this
      ensures Grew(old(history), history, p)
      ensures At(p, if !thrown && found then there else Finished(false))
      ensures thrown ==> Threw(history, |old(history)|, p)
      ensures !thrown ==> Seen(history, |old(history)|, p, get, here) && get.k < |history| && (found <==> Has(get.s, status))
    {
      found, get := false, NEVER;
      thrown := Throws(p, here);
      if thrown { return; }
      get := Moment(|history|, s);
      found := Has(s, status);
      ArriveOperator(p, s, here, if found then there else Finished(false));
    }

    /** Closes an open review, or gives up on an execution (`force`). */
    method Cancel(p: Pid, force: bool) returns (ok: bool, ghost was: Action, ghost get: Moment<State>, ghost swap: Moment<State>)
      requires At(p, if force then ForceCancelGet else CancelGet)
      modifies this
      ensures Grew(old(history), history, p)
      ensures At(p, Finished(ok))
      ensures ok ==> LastStepFound(p, Some(was)) && was.status == (if force then Executing else AwaitingReview)
      ensures ok ==> s.action == Some(was.(status := if force then OutcomeUnknown else Cancelled))
      ensures var expected := if force then Executing else AwaitingReview;
              || (!ok && Threw(history, |old(history)|, p))
              || TwoSteps(history, |old(history)|, p, if force then ForceCancelGet else CancelGet, get, Has(get.s, expected),
                          if force then ForceCancelSwap else CancelSwap, swap, Has(swap.s, expected), ok)
    {
      var expected := if force then Executing else AwaitingReview;
      ok, was, get, swap := false, Action(expected, 0, 0, 0, Edited(0, 0), 0, false, false), NEVER, NEVER;
      ghost var here, there := if force then ForceCancelGet else CancelGet, if force then ForceCancelSwap else CancelSwap;
      var thrown, found;
      thrown, found, get := ReadFor(p, expected, here, there);
      if !thrown && found {
        ghost var h := history;
        ok, was, swap := SwapFor(p, expected, if force then OutcomeUnknown else Cancelled, false, there);
        SeenStays(h, history, |old(history)|, p, get, here);
      }
    }

    // ---------------------------------------------------------------- the sweep of old reviews

    /** What the worker saw of a review: one past its expiry is closed, if it is still open until then. */
    ghost predicate Swept(h: seq<Event>, since: nat, p: Pid, get: Moment<State>, check: Moment<State>, swap: Moment<State>) {
      && Seen(h, since, p, get, ExpireGet) && var a := get.s.action;
      a.Some? && a.value.status == AwaitingReview ==>
        && Seen(h, get.k + 1, p, check, ExpireCheck(a.value.expiresAt))
        && (a.value.expiresAt <= check.s.now ==> Closed(h, check.k + 1, p, a.value.expiresAt, swap))
    }

    ghost predicate Closed(h: seq<Event>, since: nat, p: Pid, expiresAt: nat, swap: Moment<State>) {
      && Seen(h, since, p, swap, ExpireStale(expiresAt)) && var b := swap.s.action;
      b.Some? ==> Left(h, swap.k + 1, if b.value.status == AwaitingReview && b.value.expiresAt == expiresAt
                                      then b.value.(status := Expired) else b.value)
    }

    method Expire(p: Pid) returns (thrown: bool, ghost get: Moment<State>, ghost check: Moment<State>, ghost swap: Moment<State>)
      requires At(p, ExpireGet)
      modifies this
      ensures Grew(old(history), history, p)
      ensures At(p, Finished(!thrown))
      ensures if thrown then Threw(history, |old(history)|, p) else Swept(history, |old(history)|, p, get, check, swap)
    {
      get, check, swap := NEVER, NEVER, NEVER;
      thrown := Throws(p, ExpireGet);
      if !thrown { thrown, get, check, swap := ReadAndExpire(p, |old(history)|); }
    }

    method ReadAndExpire(p: Pid, ghost since: nat)
      returns (thrown: bool, ghost get: Moment<State>, ghost check: Moment<State>, ghost swap: Moment<State>)
      requires At(p, ExpireGet) && since <= |history|
      modifies this
      ensures Grew(old(history), history, p)
      ensures At(p, Finished(!thrown))
      ensures if thrown then Threw(history, |old(history)|, p) else Swept(history, since, p, get, check, swap)
    {
      thrown, get, check, swap := false, Moment(|history|, s), NEVER, NEVER;
      var open := s.action.Some? && s.action.value.status == AwaitingReview;
      var expiresAt := if open then s.action.value.expiresAt else 0;
      ArriveOperator(p, s, ExpireGet, if open then ExpireCheck(expiresAt) else Finished(true));
      ghost var h := history;
      thrown, check, swap := ExpireIfOpen(p, open, expiresAt);
      SeenStays(h, history, since, p, get, ExpireGet);
    }

    method ExpireIfOpen(p: Pid, open: bool, expiresAt: nat) returns (thrown: bool, ghost check: Moment<State>, ghost swap: Moment<State>)
      requires At(p, if open then ExpireCheck(expiresAt) else Finished(true))
      modifies this
      ensures Grew(old(history), history, p)
      ensures At(p, Finished(!thrown))
      ensures if thrown then Threw(history, |old(history)|, p)
              else open ==>
                   && Seen(history, |old(history)|, p, check, ExpireCheck(expiresAt))
                   && (expiresAt <= check.s.now ==> Closed(history, check.k + 1, p, expiresAt, swap))
    {
      thrown, check, swap := false, NEVER, NEVER;
      if open { thrown, check, swap := CheckAndExpire(p, expiresAt); }
    }

    method CheckAndExpire(p: Pid, expiresAt: nat) returns (thrown: bool, ghost check: Moment<State>, ghost swap: Moment<State>)
      requires At(p, ExpireCheck(expiresAt))
      modifies this
      ensures Grew(old(history), history, p)
      ensures At(p, Finished(!thrown))
      ensures if thrown then Threw(history, |old(history)|, p)
              else && Seen(history, |old(history)|, p, check, ExpireCheck(expiresAt))
                   && (expiresAt <= check.s.now ==> Closed(history, check.k + 1, p, expiresAt, swap))
    {
      Yield(p, ExpireCheck(expiresAt));
      thrown, check, swap := ExpireNow(p, expiresAt, |old(history)|);
    }

    method ExpireNow(p: Pid, expiresAt: nat, ghost since: nat) returns (thrown: bool, ghost check: Moment<State>, ghost swap: Moment<State>)
      requires At(p, ExpireCheck(expiresAt)) && since <= |history|
      modifies this
      ensures Grew(old(history), history, p)
      ensures At(p, Finished(!thrown))
      ensures if thrown then Threw(history, |old(history)|, p)
              else && Seen(history, since, p, check, ExpireCheck(expiresAt))
                   && (expiresAt <= check.s.now ==> Closed(history, check.k + 1, p, expiresAt, swap))
    {
      check, swap := Moment(|history|, s), NEVER;
      var late := expiresAt <= s.now;
      ArriveOperator(p, s, ExpireCheck(expiresAt), if late then ExpireStale(expiresAt) else Finished(true));
      ghost var h := history;
      thrown := false;
      if late {
        thrown, swap := SwapExpired(p, expiresAt);
        SeenStays(h, history, since, p, check, ExpireCheck(expiresAt));
      }
    }

    method SwapExpired(p: Pid, expiresAt: nat) returns (thrown: bool, ghost swap: Moment<State>)
      requires At(p, ExpireStale(expiresAt))
      modifies this
      ensures Grew(old(history), history, p)
      ensures At(p, Finished(!thrown))
      ensures if thrown then Threw(history, |old(history)|, p) else Closed(history, |old(history)|, p, expiresAt, swap)
    {
      swap := NEVER;
      thrown := Throws(p, ExpireStale(expiresAt));
      if thrown { return; }
      var before := s;
      swap := Moment(|history|, s);
      if s.action.Some? {
        var hit := Swap(AwaitingReview, None, Some(expiresAt), s.action.value.(status := Expired));
      }
      ArriveOperator(p, before, ExpireStale(expiresAt), Finished(true));
      assert history[..|history|] == history;
    }

    // ---------------------------------------------------------------- decide

    /** What a decision saw, and what follows: a missing action or another hash is an error, a closed review is
        answered as it is, and an approval needs a live task if the action has one. */
    ghost predicate Decided(h: seq<Event>, since: nat, p: Pid, hash: Content, approve: bool, c: Course, ok: bool, started: bool) {
      && Seen(h, since, p, c.get, DecideGet(hash, approve))
      && var a := c.get.s.action;
         if a.None? || a.value.hash != hash then !ok && !started
         else if a.value.status != AwaitingReview then ok && !started
         else if approve && a.value.hasTask then
           && Seen(h, c.get.k + 1, p, c.task, DecideTask(approve, a.value, c.get.s.edits))
           && if !c.task.s.taskLive then !ok && !started
              else Timed(h, c.task.k + 1, p, approve, a.value, c.get.s.edits, c, ok, started)
         else Timed(h, c.get.k + 1, p, approve, a.value, c.get.s.edits, c, ok, started)
    }

    /** A review past its expiry is closed if it is still the one that was read. */
    ghost predicate Timed(h: seq<Event>, since: nat, p: Pid, approve: bool, read: Action, edits: nat, c: Course, ok: bool, started: bool) {
      && Seen(h, since, p, c.clock, DecideExpiry(approve, read, edits))
      && if read.expiresAt <= c.clock.s.now
         then !started && Expires(h, c.clock.k + 1, p, read, c.expire, ok)
         else Gated(h, c.clock.k + 1, p, approve, read, edits, c, ok, started)
    }

    ghost predicate Expires(h: seq<Event>, since: nat, p: Pid, read: Action, expire: Moment<State>, ok: bool) {
      && Seen(h, since, p, expire, ExpireSwap(read))
      && var a := expire.s.action;
         (ok <==> !(a.Some? && a.value.status == AwaitingReview && a.value.hash == read.hash && a.value.expiresAt == read.expiresAt))
         && (!ok ==> Left(h, expire.k + 1, a.value.(status := Expired)))
    }

    /** An approval needs its gates; a denial is always free. */
    ghost predicate Gated(h: seq<Event>, since: nat, p: Pid, approve: bool, read: Action, edits: nat, c: Course, ok: bool, started: bool) {
      && Seen(h, since, p, c.gate, DecideGate(approve, read, edits))
      && if approve && h[c.gate.k].answer != Good then !ok && !started
         else Claims(h, c.gate.k + 1, p, approve, read, edits, c.gate.s.now, c, ok, started)
    }

    /** The claim needs an open review in time, and for an approval a live task if it has one. */
    ghost predicate Claims(h: seq<Event>, since: nat, p: Pid, approve: bool, read: Action, edits: nat, now: nat,
                           c: Course, ok: bool, started: bool)
    {
      && Seen(h, since, p, c.claim, DecideClaim(approve, read, edits, now))
      && var a, free := c.claim.s.action, !approve || c.claim.s.taskLive;
         if a.None? || a.value.status != AwaitingReview || a.value.expiresAt <= now || (a.value.hasTask && !free)
         then ok && !started
         else
           && Left(h, c.claim.k + 1, a.value.(status := if approve then Executing else Denied))
           && if !approve then ok && !started
              else Flown(h, c.claim.k + 1, p, a.value.(status := Executing), read, edits == c.claim.s.edits, c, ok, started)
    }

    /** What was claimed is executed, and its outcome recorded as the provider answered. */
    ghost predicate Flown(h: seq<Event>, since: nat, p: Pid, claimed: Action, read: Action, untouched: bool,
                          c: Course, ok: bool, started: bool)
    {
      && ok && started
      && Seen(h, since, p, c.start, Approved(claimed, read, untouched))
      && Seen(h, c.start.k + 1, p, c.answer, Running(claimed))
      && Recorded(h, c.answer.k + 1, p, claimed, h[c.answer.k].answer, c.save)
    }

    ghost predicate Recorded(h: seq<Event>, since: nat, p: Pid, claimed: Action, answer: Answer, save: Moment<State>) {
      var finished := Outcome(claimed, answer);
      Seen(h, since, p, save, Save(finished)) && Left(h, save.k + 1, finished)
    }

    /** Succeeded exactly for `Good`, unknown exactly for `Unknown`, and else failed, with doubt exactly for
        `BadAndUncertain`. */
    function Outcome(claimed: Action, answer: Answer): (a: Action)
      ensures a.status == Succeeded <==> answer == Good
      ensures a.status == OutcomeUnknown <==> answer == Unknown
      ensures a.status == Failed <==> answer == Bad || answer == BadAndUncertain
      ensures a.status == Failed ==> (a.uncertain <==> answer == BadAndUncertain)
      ensures a == claimed.(status := a.status, uncertain := a.uncertain)
    {
      match answer
      case Good => claimed.(status := Succeeded)
      case Unknown => claimed.(status := OutcomeUnknown)
      case Bad => claimed.(status := Failed, uncertain := false)
      case BadAndUncertain => claimed.(status := Failed, uncertain := true)
    }

    /** `started` is the execution this call started, if it did: of an approval, with the given hash reviewed.
        What became of the decision, its course tells, unless a call it awaited failed. */
    method Decide(p: Pid, hash: Content, approve: bool) returns (ok: bool, ghost started: Option<nat>, ghost course: Course)
      requires At(p, DecideGet(hash, approve))
      modifies this
      ensures Grew(old(history), history, p)
      ensures At(p, Finished(ok)) && |s.executions| <= 1 + s.failures + s.disproved
      ensures started.Some? ==> approve && Reviewed(started.value, hash)
      ensures || (!ok && Threw(history, |old(history)|, p))
              || Decided(history, |old(history)|, p, hash, approve, course, ok, started.Some?)
    {
      ok, started, course := false, None, Course(NEVER, NEVER, NEVER, NEVER, NEVER, NEVER, NEVER, NEVER, NEVER);
      var thrown := Throws(p, DecideGet(hash, approve));
      if !thrown { ok, started, course := ReadAndDecide(p, hash, approve, |old(history)|, course); }
      RunsOnceButForFailures(history, s);
    }

    ghost predicate Reviewed(started: nat, hash: Content) reads this {
      started < |s.executions| && s.executions[started].reviewed.hash == hash
    }

    method ReadAndDecide(p: Pid, hash: Content, approve: bool, ghost since: nat, ghost c: Course)
      returns (ok: bool, ghost started: Option<nat>, ghost course: Course)
      requires At(p, DecideGet(hash, approve)) && since <= |history|
      modifies this
      ensures Grew(old(history), history, p)
      ensures At(p, Finished(ok))
      ensures started.Some? ==> approve && Reviewed(started.value, hash)
      ensures || (!ok && Threw(history, |old(history)|, p))
              || Decided(history, since, p, hash, approve, course, ok, started.Some?)
    {
      ghost var get := Moment(|history|, s);
      var read, edits := s.action, s.edits;
      var known := read.Some? && read.value.hash == hash;
      var open := known && read.value.status == AwaitingReview;
      ok, started, course := known, None, c.(get := get);
      ArriveDecide(p, Good, s, DecideGet(hash, approve),
                   if !open then Finished(known)
                   else if approve && read.value.hasTask then DecideTask(approve, read.value, edits)
                   else DecideExpiry(approve, read.value, edits));
      ghost var h := history;
      if open { ok, started, course := DecideOpen(p, approve, read.value, edits, course); }
      SeenStays(h, history, since, p, get, DecideGet(hash, approve));
    }

    /** The review is open: an approval looks at the task first. */
    method DecideOpen(p: Pid, approve: bool, read: Action, ghost edits: nat, ghost c: Course)
      returns (ok: bool, ghost started: Option<nat>, ghost course: Course)
      requires At(p, if approve && read.hasTask then DecideTask(approve, read, edits) else DecideExpiry(approve, read, edits))
      requires c.get.k < |history|
      modifies this
      ensures Grew(old(history), history, p)
      ensures At(p, Finished(ok)) && course.get == c.get
      ensures started.Some? ==> approve && Reviewed(started.value, read.hash)
      ensures || (!ok && Threw(history, |old(history)|, p))
              || (if approve && read.hasTask then
                    Seen(history, c.get.k + 1, p, course.task, DecideTask(approve, read, edits))
                    && if !course.task.s.taskLive then !ok && started.None?
                       else Timed(history, course.task.k + 1, p, approve, read, edits, course, ok, started.Some?)
                  else Timed(history, c.get.k + 1, p, approve, read, edits, course, ok, started.Some?))
    {
      if approve && read.hasTask {
        ok, started, course := CheckTask(p, approve, read, edits, c);
      } else {
        ok, started, course := DecideInTime(p, approve, read, edits, c.get.k + 1, c);
      }
    }

    method CheckTask(p: Pid, approve: bool, read: Action, ghost edits: nat, ghost c: Course)
      returns (ok: bool, ghost started: Option<nat>, ghost course: Course)
      requires At(p, DecideTask(approve, read, edits)) && c.get.k < |history|
      modifies this
      ensures Grew(old(history), history, p)
      ensures At(p, Finished(ok)) && course.get == c.get
      ensures started.Some? ==> approve && Reviewed(started.value, read.hash)
      ensures || (!ok && Threw(history, |old(history)|, p))
              || (Seen(history, c.get.k + 1, p, course.task, DecideTask(approve, read, edits))
                  && if !course.task.s.taskLive then !ok && started.None?
                     else Timed(history, course.task.k + 1, p, approve, read, edits, course, ok, started.Some?))
    {
      ok, started, course := false, None, c;
      var thrown := Throws(p, DecideTask(approve, read, edits));
      if !thrown {
        ghost var task := Moment(|history|, s);
        ok, course := s.taskLive, course.(task := task);
        ArriveDecide(p, Good, s, DecideTask(approve, read, edits), if ok then DecideExpiry(approve, read, edits) else Finished(false));
        ghost var h := history;
        if ok { ok, started, course := DecideInTime(p, approve, read, edits, task.k + 1, course); }
        SeenStays(h, history, c.get.k + 1, p, task, DecideTask(approve, read, edits));
      }
    }

    /** The expiry check. */
    method DecideInTime(p: Pid, approve: bool, read: Action, ghost edits: nat, ghost since: nat, ghost c: Course)
      returns (ok: bool, ghost started: Option<nat>, ghost course: Course)
      requires At(p, DecideExpiry(approve, read, edits)) && since <= |history|
      modifies this
      ensures Grew(old(history), history, p)
      ensures At(p, Finished(ok)) && course.get == c.get && course.task == c.task
      ensures started.Some? ==> approve && Reviewed(started.value, read.hash)
      ensures || (!ok && Threw(history, |old(history)|, p))
              || Timed(history, since, p, approve, read, edits, course, ok, started.Some?)
    {
      Yield(p, DecideExpiry(approve, read, edits));
      ok, started, course := CheckClock(p, approve, read, edits, since, c);
    }

    method CheckClock(p: Pid, approve: bool, read: Action, ghost edits: nat, ghost since: nat, ghost c: Course)
      returns (ok: bool, ghost started: Option<nat>, ghost course: Course)
      requires At(p, DecideExpiry(approve, read, edits)) && since <= |history|
      modifies this
      ensures Grew(old(history), history, p)
      ensures At(p, Finished(ok)) && course.get == c.get && course.task == c.task
      ensures started.Some? ==> approve && Reviewed(started.value, read.hash)
      ensures || (!ok && Threw(history, |old(history)|, p))
              || Timed(history, since, p, approve, read, edits, course, ok, started.Some?)
    {
      ghost var clock := Moment(|history|, s);
      var late := read.expiresAt <= s.now;
      ArriveDecide(p, Good, s, DecideExpiry(approve, read, edits), if late then ExpireSwap(read) else DecideGate(approve, read, edits));
      ghost var h := history;
      ok, started, course := ExpireOrPass(p, late, approve, read, edits, c.(clock := clock));
      SeenStays(h, history, since, p, clock, DecideExpiry(approve, read, edits));
    }

    method ExpireOrPass(p: Pid, late: bool, approve: bool, read: Action, ghost edits: nat, ghost c: Course)
      returns (ok: bool, ghost started: Option<nat>, ghost course: Course)
      requires At(p, if late then ExpireSwap(read) else DecideGate(approve, read, edits)) && c.clock.k < |history|
      modifies this
      ensures Grew(old(history), history, p)
      ensures At(p, Finished(ok)) && course.get == c.get && course.task == c.task && course.clock == c.clock
      ensures started.Some? ==> approve && Reviewed(started.value, read.hash)
      ensures || (!ok && Threw(history, |old(history)|, p))
              || (if late then started.None? && Expires(history, c.clock.k + 1, p, read, course.expire, ok)
                  else Gated(history, c.clock.k + 1, p, approve, read, edits, course, ok, started.Some?))
    {
      if late {
        ghost var expire;
        ok, expire := CloseExpired(p, read, c.clock.k + 1);
        started, course := None, c.(expire := expire);
      } else {
        ok, started, course := PassGates(p, approve, read, edits, c.clock.k + 1, c);
      }
    }

    /** The review expired: it is closed, unless it changed meanwhile. */
    method CloseExpired(p: Pid, read: Action, ghost since: nat) returns (ok: bool, ghost expire: Moment<State>)
      requires At(p, ExpireSwap(read)) && since <= |history|
      modifies this
      ensures Grew(old(history), history, p)
      ensures At(p, Finished(ok))
      ensures (!ok && Threw(history, |old(history)|, p)) || Expires(history, since, p, read, expire, ok)
    {
      ok, expire := false, NEVER;
      var thrown := Throws(p, ExpireSwap(read));
      if thrown { return; }
      var before := s;
      expire := Moment(|history|, s);
      var stored := if s.action.Some? then s.action.value else read;
      var expired := Swap(AwaitingReview, Some(read.hash), Some(read.expiresAt), stored.(status := Expired));
      ArriveDecide(p, Good, before, ExpireSwap(read), Finished(!expired));
      assert history[..|history|] == history;
      ok := !expired;
    }

    /** The gates: the account is connected and the same, and the policy of the task's role allows it. */
    method PassGates(p: Pid, approve: bool, read: Action, ghost edits: nat, ghost since: nat, ghost c: Course)
      returns (ok: bool, ghost started: Option<nat>, ghost course: Course)
      requires At(p, DecideGate(approve, read, edits)) && since <= |history|
      modifies this
      ensures Grew(old(history), history, p)
      ensures At(p, Finished(ok)) && course.get == c.get && course.task == c.task && course.clock == c.clock
      ensures started.Some? ==> approve && Reviewed(started.value, read.hash)
      ensures || (!ok && Threw(history, |old(history)|, p))
              || Gated(history, since, p, approve, read, edits, course, ok, started.Some?)
    {
      ok, started, course := false, None, c;
      var thrown := Throws(p, DecideGate(approve, read, edits));
      if !thrown { ok, started, course := AskGates(p, approve, read, edits, since, c); }
    }

    method AskGates(p: Pid, approve: bool, read: Action, ghost edits: nat, ghost since: nat, ghost c: Course)
      returns (ok: bool, ghost started: Option<nat>, ghost course: Course)
      requires At(p, DecideGate(approve, read, edits)) && since <= |history|
      modifies this
      ensures Grew(old(history), history, p)
      ensures At(p, Finished(ok)) && course.get == c.get && course.task == c.task && course.clock == c.clock
      ensures started.Some? ==> approve && Reviewed(started.value, read.hash)
      ensures || (!ok && Threw(history, |old(history)|, p))
              || Gated(history, since, p, approve, read, edits, course, ok, started.Some?)
    {
      var connected: bool := *;
      ghost var gate := Moment(|history|, s);
      var now, pass := s.now, !approve || connected;
      ArriveDecide(p, if pass then Good else Bad, s, DecideGate(approve, read, edits),
                   if pass then DecideClaim(approve, read, edits, now) else Finished(false));
      ghost var h := history;
      ok, started, course := ClaimIfPassed(p, pass, approve, read, edits, now, c.(gate := gate));
      SeenStays(h, history, since, p, gate, DecideGate(approve, read, edits));
    }

    method ClaimIfPassed(p: Pid, pass: bool, approve: bool, read: Action, ghost edits: nat, now: nat, ghost c: Course)
      returns (ok: bool, ghost started: Option<nat>, ghost course: Course)
      requires At(p, if pass then DecideClaim(approve, read, edits, now) else Finished(false)) && c.gate.k < |history|
      modifies this
      ensures Grew(old(history), history, p)
      ensures At(p, Finished(ok)) && course.get == c.get && course.task == c.task && course.clock == c.clock && course.gate == c.gate
      ensures started.Some? ==> approve && Reviewed(started.value, read.hash)
      ensures if !pass then !ok && started.None?
              else || (!ok && Threw(history, |old(history)|, p))
                   || Claims(history, c.gate.k + 1, p, approve, read, edits, now, course, ok, started.Some?)
    {
      ok, started, course := false, None, c;
      if pass { ok, started, course := ClaimAndRun(p, approve, read, edits, now, c.gate.k + 1, c); }
    }

    /** The claim, and what it allows. */
    method ClaimAndRun(p: Pid, approve: bool, read: Action, ghost edits: nat, now: nat, ghost since: nat, ghost c: Course)
      returns (ok: bool, ghost started: Option<nat>, ghost course: Course)
      requires At(p, DecideClaim(approve, read, edits, now)) && since <= |history|
      modifies this
      ensures Grew(old(history), history, p)
      ensures At(p, Finished(ok)) && course.get == c.get && course.task == c.task && course.clock == c.clock && course.gate == c.gate
      ensures started.Some? ==> approve && Reviewed(started.value, read.hash)
      ensures || (!ok && Threw(history, |old(history)|, p))
              || Claims(history, since, p, approve, read, edits, now, course, ok, started.Some?)
    {
      ok, started, course := false, None, c;
      var thrown := Throws(p, DecideClaim(approve, read, edits, now));
      if !thrown { ok, started, course := ClaimAtOnce(p, approve, read, edits, now, since, c); }
    }

    method ClaimAtOnce(p: Pid, approve: bool, read: Action, ghost edits: nat, now: nat, ghost since: nat, ghost c: Course)
      returns (ok: bool, ghost started: Option<nat>, ghost course: Course)
      requires At(p, DecideClaim(approve, read, edits, now)) && since <= |history|
      modifies this
      ensures Grew(old(history), history, p)
      ensures At(p, Finished(ok)) && course.get == c.get && course.task == c.task && course.clock == c.clock && course.gate == c.gate
      ensures started.Some? ==> approve && Reviewed(started.value, read.hash)
      ensures || (!ok && Threw(history, |old(history)|, p))
              || Claims(history, since, p, approve, read, edits, now, course, ok, started.Some?)
    {
      ghost var claim := Moment(|history|, s);
      var claimed := ClaimReview(p, approve, read, edits, now);
      ghost var h := history;
      ok, started, course := RunIfApproved(p, approve, claimed, read, edits == claim.s.edits, c.(claim := claim));
      ClaimStays(h, history, since, p, claim, DecideClaim(approve, read, edits, now), claimed);
    }

    lemma ClaimStays(before: seq<Event>, after: seq<Event>, since: nat, p: Pid, claim: Moment<State>, pc: Proc, claimed: Option<Action>)
      requires Seen(before, since, p, claim, pc) && (claimed.Some? ==> Left(before, claim.k + 1, claimed.value))
      requires |before| <= |after| && forall i :: 0 <= i < |before| ==> after[i] == before[i]
      ensures Seen(after, since, p, claim, pc) && (claimed.Some? ==> Left(after, claim.k + 1, claimed.value))
    {
      if claimed.Some? { LeftStays(before, after, claim.k + 1, claimed.value); }
      SeenStays(before, after, since, p, claim, pc);
    }

    method RunIfApproved(p: Pid, approve: bool, claimed: Option<Action>, ghost read: Action, ghost untouched: bool, ghost c: Course)
      returns (ok: bool, ghost started: Option<nat>, ghost course: Course)
      requires At(p, if claimed.Some? && approve then Approved(claimed.value, read, untouched) else Finished(true))
      requires c.claim.k < |history|
      modifies this
      ensures Grew(old(history), history, p)
      ensures At(p, Finished(ok))
      ensures course == c.(start := course.start, answer := course.answer, save := course.save)
      ensures started.Some? ==> approve && Reviewed(started.value, read.hash)
      ensures if claimed.None? || !approve then ok && started.None?
              else || (!ok && Threw(history, |old(history)|, p))
                   || Flown(history, c.claim.k + 1, p, claimed.value, read, untouched, course, ok, started.Some?)
    {
      ok, started, course := true, None, c;
      if claimed.Some? && approve { ok, started, course := Run(p, claimed.value, read, untouched, c.claim.k + 1, c); }
    }

    lemma LeftStays(before: seq<Event>, after: seq<Event>, k: nat, a: Action)
      requires Left(before, k, a)
      requires |before| <= |after| && forall i :: 0 <= i < |before| ==> after[i] == before[i]
      ensures Left(after, k, a)
    {
      assert after[..k] == before[..k];
    }

    method ClaimReview(p: Pid, approve: bool, read: Action, ghost edits: nat, now: nat) returns (claimed: Option<Action>)
      requires At(p, DecideClaim(approve, read, edits, now))
      modifies this
      ensures Grew(old(history), history, p) && |history| == |old(history)| + 1
      ensures Seen(history, |old(history)|, p, Moment(|old(history)|, old(s)), DecideClaim(approve, read, edits, now))
      ensures claimed.Some? <==> Claimable(old(s), approve, now)
      ensures claimed.Some? ==> Left(history, |history|, claimed.value)
                                && claimed == Some(old(s).action.value.(status := if approve then Executing else Denied))
      ensures At(p, if claimed.Some? && approve then Approved(claimed.value, read, edits == old(s).edits) else Finished(true))
    {
      var before := s;
      claimed := Claim(if approve then Executing else Denied, now);
      ArriveDecide(p, Good, before, DecideClaim(approve, read, edits, now),
                   if claimed.Some? && approve then Approved(claimed.value, read, edits == before.edits) else Finished(true));
      assert history[..|history|] == history;
    }

    /** The provider call, whose outcome overwrites the record. */
    method Run(p: Pid, claimed: Action, ghost read: Action, ghost untouched: bool, ghost since: nat, ghost c: Course)
      returns (ok: bool, ghost started: Option<nat>, ghost course: Course)
      requires At(p, Approved(claimed, read, untouched)) && since <= |history|
      modifies this
      ensures Grew(old(history), history, p)
      ensures At(p, Finished(ok))
      ensures course == c.(start := course.start, answer := course.answer, save := course.save)
      ensures started.Some? ==> Reviewed(started.value, read.hash)
      ensures || (!ok && Threw(history, |old(history)|, p))
              || Flown(history, since, p, claimed, read, untouched, course, ok, started.Some?)
    {
      ok, started, course := false, None, c;
      var thrown := Throws(p, Approved(claimed, read, untouched));
      if !thrown { ok, started, course := Start(p, claimed, read, untouched, since, c); }
    }

    method Start(p: Pid, claimed: Action, ghost read: Action, ghost untouched: bool, ghost since: nat, ghost c: Course)
      returns (ok: bool, ghost started: Option<nat>, ghost course: Course)
      requires At(p, Approved(claimed, read, untouched)) && since <= |history|
      modifies this
      ensures Grew(old(history), history, p)
      ensures At(p, Finished(ok))
      ensures course == c.(start := course.start, answer := course.answer, save := course.save)
      ensures started.Some? && Reviewed(started.value, read.hash)
      ensures (!ok && Threw(history, |old(history)|, p)) || Flown(history, since, p, claimed, read, untouched, course, ok, true)
    {
      started := Some(|s.executions|);
      ghost var start := Moment(|history|, s);
      ArriveFlight(p, Good, s, Approved(claimed, read, untouched), Running(claimed));
      ghost var h, running := history, s;
      ghost var answer, save;
      ok, answer, save := AwaitAnswer(p, claimed, start.k + 1);
      course := c.(start := start, answer := answer, save := save);
      SeenStays(h, history, since, p, start, Approved(claimed, read, untouched));
      ExecutionsStay(h, running, history, s);
    }

    method AwaitAnswer(p: Pid, claimed: Action, ghost since: nat)
      returns (ok: bool, ghost answered: Moment<State>, ghost save: Moment<State>)
      requires At(p, Running(claimed)) && since <= |history|
      modifies this
      ensures Grew(old(history), history, p)
      ensures At(p, Finished(ok))
      ensures || (!ok && Threw(history, |old(history)|, p))
              || (ok && Seen(history, since, p, answered, Running(claimed))
                  && Recorded(history, answered.k + 1, p, claimed, history[answered.k].answer, save))
    {
      var finished;
      finished, answered := TakeAnswer(p, claimed);
      ghost var h := history;
      ok, save := SaveOutcome(p, finished);
      SeenStays(h, history, |old(history)|, p, answered, Running(claimed));
    }

    /** The outcome, and how it is recorded. */
    method TakeAnswer(p: Pid, claimed: Action) returns (finished: Action, ghost answered: Moment<State>)
      requires At(p, Running(claimed))
      modifies this
      ensures Grew(old(history), history, p)
      ensures At(p, Save(finished))
      ensures Seen(history, |old(history)|, p, answered, Running(claimed)) && answered.k == |history| - 1
      ensures finished == Outcome(claimed, history[answered.k].answer)
    {
      Yield(p, Running(claimed));
      var succeeded: bool := *;
      var unknown: bool := *;
      var uncertain: bool := *;
      var answer := if succeeded then Good else if unknown then Unknown else if uncertain then BadAndUncertain else Bad;
      if succeeded {
        finished := claimed.(status := Succeeded);
      } else if unknown {
        finished := claimed.(status := OutcomeUnknown);
      } else {
        finished := claimed.(status := Failed, uncertain := uncertain);
      }
      answered := Moment(|history|, s);
      ArriveFlight(p, answer, s, Running(claimed), Save(finished));
    }

    method SaveOutcome(p: Pid, finished: Action) returns (ok: bool, ghost save: Moment<State>)
      requires At(p, Save(finished))
      modifies this
      ensures Grew(old(history), history, p)
      ensures At(p, Finished(ok)) && (ok ==> s.action == Some(finished))
      ensures if ok then Seen(history, |old(history)|, p, save, Save(finished)) && Left(history, save.k + 1, finished)
              else Threw(history, |old(history)|, p)
    {
      ok, save := false, NEVER;
      var thrown := Throws(p, Save(finished));
      if thrown { return; }
      var before := s;
      save := Moment(|history|, s);
      s := s.(action := Some(finished));
      ArriveFlight(p, Good, before, Save(finished), Finished(true));
      assert history[..|history|] == history;
      ok := true;
    }
  }
}
