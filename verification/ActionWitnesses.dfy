/** Runs of the approval protocol that reach what one might expect to be impossible, so that the conditions of
    the theorems in ActionApproval and ActionFinality are not idle. */
module ActionWitnesses {
  import opened Runs
  import opened ActionApproval
  import opened ActionFinality

  const PROPOSAL := Action(AwaitingReview, 10, 1, 1, Prepared(10, 1, 1), 100, false, false)

  /** Call 1 has proposed the action. */
  lemma ReachProposed() returns (es: seq<Event>, s: State)
    ensures Exec(Next, START, es) == Some(s) && s == START.(action := Some(PROPOSAL), procs := map[1 := Finished(true)])
  {
    es, s := ExecThen(Next, START, [], START, Begin(1, Propose(PROPOSAL)));
    es, s := Reviews(START, es, s, 1, ProposeGet(PROPOSAL));
    es, s := Reviews(START, es, s, 1, ProposeInsert(PROPOSAL));
  }

  // ------------------------------------------------------------------ the edit that `claim` does not see

  /** Call 2 has read the review in order to approve it. */
  lemma ReachReviewed() returns (es: seq<Event>, s: State)
    ensures Exec(Next, START, es) == Some(s)
    ensures s == START.(action := Some(PROPOSAL), procs := map[1 := Finished(true), 2 := DecideExpiry(true, PROPOSAL, 0)])
  {
    es, s := ReachProposed();
    es, s := ExecThen(Next, START, es, s, Begin(2, Decide(PROPOSAL.hash, true)));
    es, s := Decides(START, es, s, 2, DecideGet(PROPOSAL.hash, true));
  }

  /** Before it claims, call 3 edits the proposal. */
  lemma ReachEdited() returns (es: seq<Event>, s: State)
    ensures Exec(Next, START, es) == Some(s) && Has(s, AwaitingReview) && s.action.value.data == 20 && s.now == 0
    ensures s.action.value.expiresAt == 100 && !s.action.value.hasTask && s.executions == []
    ensures 2 in s.procs && s.procs[2] == DecideExpiry(true, PROPOSAL, 0)
  {
    es, s := ReachReviewed();
    es, s := ExecThen(Next, START, es, s, Begin(3, Edit(20, PROPOSAL.hash)));
    es, s := Reviews(START, es, s, 3, EditGet(20, PROPOSAL.hash));
    es, s := Reviews(START, es, s, 3, EditSwap(20, PROPOSAL));
  }

  /** The hypotheses of `WhatRanWasReviewed` are needed: an edit that lands between the read and the
      claim is executed although its content is not the reviewed one. */
  lemma EditBetweenReadAndClaimRuns()
    ensures exists es: seq<Event> :: Exec(Next, START, es).Some?
              && var s := Exec(Next, START, es).value;
                 |s.executions| == 1 && s.executions[0].ran.data != s.executions[0].reviewed.data
  {
    var es, s := ReachEdited();
    es, s := Decides(START, es, s, 2, DecideExpiry(true, PROPOSAL, 0));
    es, s := Decides(START, es, s, 2, DecideGate(true, PROPOSAL, 0));
    es, s := Decides(START, es, s, 2, DecideClaim(true, PROPOSAL, 0, 0));
    es, s := Flies(START, es, s, 2, Good, s.procs[2]);
    assert Exec(Next, START, es).Some?;
  }

  // ------------------------------------------------------------------ executions that fail

  /** A review that is open, in time and without a task. */
  predicate Ready(s: State) { Has(s, AwaitingReview) && !s.action.value.hasTask && s.now < s.action.value.expiresAt }

  /** A new call claims the review and starts to execute it. */
  lemma Executes(es: seq<Event>, s: State) returns (es': seq<Event>, t: State, p: Pid)
    requires Exec(Next, START, es) == Some(s) && Ready(s)
    ensures Exec(Next, START, es') == Some(t) && t.now == s.now && p !in s.procs
    ensures t.action == Some(s.action.value.(status := Executing))
    ensures p in t.procs && t.procs[p] == Running(s.action.value.(status := Executing))
    ensures forall q :: q in s.procs ==> q in t.procs && t.procs[q] == s.procs[q]
    ensures |t.executions| == |s.executions| + 1 && t.failures == s.failures && t.disproved == s.disproved
  {
    es', t, p := ReviewedNow(START, es, s);
    var u := t;
    es', t := Decides(START, es', t, p, DecideClaim(true, s.action.value, s.edits, s.now));
    es', t := Flies(START, es', t, p, Good, Approved(s.action.value.(status := Executing), s.action.value, true));
  }

  /** ... and its execution fails. */
  lemma Fails(es: seq<Event>, s: State, answer: Answer) returns (es': seq<Event>, t: State)
    requires Exec(Next, START, es) == Some(s) && Ready(s) && (answer.Bad? || answer.BadAndUncertain?)
    ensures Exec(Next, START, es') == Some(t) && t.now == s.now
    ensures t.action == Some(s.action.value.(status := Failed, uncertain := answer.BadAndUncertain?))
    ensures forall q :: q in s.procs ==> q in t.procs && t.procs[q] == s.procs[q]
  {
    var p;
    es', t, p := Executes(es, s);
    es', t := RecordsNow(START, es', t, p, answer);
  }

  /** A retry has read a failure, and another one has opened the review again. */
  lemma ReachStale() returns (es: seq<Event>, s: State, p: Pid)
    ensures Exec(Next, START, es) == Some(s) && Ready(s) && p in s.procs && s.procs[p] == RetrySwap(Failed)
  {
    es, s := ReachProposed();
    es, s := Fails(es, s, Bad);
    es, s, p := Enters(START, es, s, Retry);
    es, s := Reviews(START, es, s, p, RetryGet);
    es, s := RetriesNow(START, es, s);
  }

  /** The second clause of `Over` is needed: a retry that read an earlier, certain failure stands at its swap
      while the failure recorded by now is uncertain, and its next step reopens that. */
  lemma StaleRetryReopensDoubt()
    ensures exists es: seq<Event>, p: Pid :: Exec(Next, START, es).Some? && ReopensDoubt(Exec(Next, START, es).value, p)
  {
    var es, s, p := ReachStale();
    es, s := Fails(es, s, BadAndUncertain);
    assert Exec(Next, START, es).Some? && ReopensDoubt(s, p);
  }

  predicate ReopensDoubt(s: State, p: Pid) {
    && Has(s, Failed) && s.action.value.uncertain
    && Next(s, Go(p, Good)).Some? && Has(Next(s, Go(p, Good)).value, AwaitingReview)
  }

  // ------------------------------------------------------------------ outcomes that stay unknown

  /** An execution is force-cancelled while its provider call goes on, and an operator declares it not
      executed; then the action is opened for review again. */
  lemma Disproves(es: seq<Event>, s: State) returns (es': seq<Event>, t: State, p: Pid)
    requires Exec(Next, START, es) == Some(s) && Ready(s) && !s.action.value.uncertain
    ensures Exec(Next, START, es') == Some(t) && t.now == s.now && t.action == s.action
    ensures p in t.procs && t.procs[p] == Running(s.action.value.(status := Executing))
    ensures |t.executions| == |s.executions| + 1 && t.disproved == s.disproved + 1 && t.failures == s.failures
  {
    es', t, p := Executes(es, s);
    es', t := RecoversNow(START, es', t);
    es', t := ReconcilesNow(START, es', t, false);
    es', t := RetriesNow(START, es', t);
  }

  /** The bound of `RunsOnceButForFailures` is reached: one disproof, no failure, two executions. */
  lemma DisprovedOutcomeRunsTwice()
    ensures exists es: seq<Event> :: Exec(Next, START, es).Some?
              && var s := Exec(Next, START, es).value; |s.executions| == 2 && s.failures == 0 && s.disproved == 1
  {
    var es, s := ReachProposed();
    var p;
    es, s, p := Disproves(es, s);
    es, s, p := Executes(es, s);
    assert Exec(Next, START, es).Some?;
  }

  /** The review was cancelled while a decide is still in its provider call. */
  lemma ReachCancelled() returns (es: seq<Event>, s: State, p: Pid)
    ensures Exec(Next, START, es) == Some(s) && Has(s, Cancelled) && p in s.procs && s.procs[p].Running?
  {
    es, s := ReachProposed();
    es, s, p := Disproves(es, s);
    es, s := CancelsNow(START, es, s);
  }

  /** The last clause of `Over` is needed: the outcome of a decide that is still at work overwrites a review
      that was cancelled meanwhile. */
  lemma LateOutcomeOverwritesACancel()
    ensures exists es: seq<Event>, more: seq<Event> ::
              && Exec(Next, START, es).Some? && Has(Exec(Next, START, es).value, Cancelled)
              && Exec(Next, Exec(Next, START, es).value, more).Some?
              && Has(Exec(Next, Exec(Next, START, es).value, more).value, Succeeded)
  {
    var es, s, p := ReachCancelled();
    var more, t := RecordsNow(s, [], s, p, Good);
    assert Exec(Next, START, es).Some? && Exec(Next, s, more).Some?;
  }
}
