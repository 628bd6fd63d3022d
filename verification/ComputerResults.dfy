/** What a receipt says about how its command ended. */
module ComputerResults {
  import opened Runs
  import opened ComputerLease
  import opened ComputerSafety
  import opened ComputerReceipts

  /** The status of a receipt, in terms of what Docker answered and of who interrupted it. */
  ghost predicate Recorded(s: State, id: OpId)
    requires id in s.receipts
  {
    && (id in s.interrupted ==> s.receipts[id] == Interrupted)
    && (s.receipts[id] != Running && id !in s.interrupted ==>
          id in s.results &&
          var r := s.results[id];
          && (s.receipts[id] == Interrupted <==> r.interrupted)
          && (s.receipts[id] == TimedOut <==> !r.interrupted && (r.timedOut || r.exitCode == Some(124)))
          && (s.receipts[id] == Succeeded <==> !r.interrupted && !r.timedOut && r.exitCode == Some(0))
          && (s.receipts[id] == Failed <==> !r.interrupted && !r.timedOut && r.exitCode != Some(0) && r.exitCode != Some(124)))
  }

  /** The result a call carries is the one on record. */
  predicate Carries(s: State, pc: Proc) {
    match pc
    case DockerExec(_, id) => id !in s.results
    case Cleanup(_, id, r) => id in s.results && s.results[id] == r
    case CleanupDocker(_, id, r, _) => id in s.results && s.results[id] == r
    case CleanupConfirm(_, id, r, _) => id in s.results && s.results[id] == r
    case CleanupRollback(_, id, r, _, _) => id in s.results && s.results[id] == r
    case Save(_, id, r) => id in s.results && s.results[id] == r
    case _ => true
  }

  ghost predicate AllRecorded(s: State) {
    && s.interrupted <= s.receipts.Keys && (forall id :: id in s.results ==> id in s.execs)
    && forall id :: id in s.receipts ==> Recorded(s, id)
  }

  ghost predicate Results(s: State) {
    AllRecorded(s) && forall p :: p in s.procs ==> Carries(s, s.procs[p])
  }

  /** A step records nothing but a result of its own command. */
  ghost predicate ResultMove(s: State, t: State, pc: Proc) {
    forall id :: id in s.results || id in t.results ==>
      Writing(pc) == Some(id) || (id in s.results && id in t.results && t.results[id] == s.results[id])
  }

  ghost predicate GoodResult(s: State, m: Move, pc: Proc) {
    AllRecorded(m.s) && Carries(m.s, m.pc) && ResultMove(s, m.s, pc)
  }

  /** Only one receipt, or what is recorded about it, changed. */
  ghost predicate OnlyThis(s: State, t: State, id: OpId) {
    && t.receipts.Keys == s.receipts.Keys + {id} && t.execs == s.execs && t.interrupted <= s.interrupted + {id} && s.interrupted <= t.interrupted
    && (forall x :: x in s.receipts && x != id ==> t.receipts[x] == s.receipts[x])
    && (forall x :: x != id ==> (x in t.results <==> x in s.results) && (x in s.results ==> t.results[x] == s.results[x]))
    && (id in t.results ==> id in t.execs)
  }

  lemma OneMoreRecorded(s: State, t: State, id: OpId)
    requires AllRecorded(s) && OnlyThis(s, t, id) && id in t.receipts && Recorded(t, id)
    ensures AllRecorded(t)
  {
    forall x | x in t.receipts ensures Recorded(t, x) { if x != id { assert Recorded(s, x); } }
  }

  lemma InsertRecords(s: State, id: OpId)
    requires AllRecorded(s) && id !in s.receipts
    ensures AllRecorded(SetReceipt(s, id, Running))
  {
    if id in s.results { assert id in s.execs; }
    forall x | x in SetReceipt(s, id, Running).receipts ensures Recorded(SetReceipt(s, id, Running), x) {
      if x != id { assert Recorded(s, x); }
    }
  }

  lemma RefuseRecords(s: State, id: OpId)
    requires AllRecorded(s) && id in s.receipts
    ensures AllRecorded(SetReceipt(s, id, Interrupted).(interrupted := s.interrupted + {id}))
  {
    var t := SetReceipt(s, id, Interrupted).(interrupted := s.interrupted + {id});
    if id in t.results { assert id in s.execs; }
    OneMoreRecorded(s, t, id);
  }

  lemma AnswerRecords(s: State, id: OpId, r: DockerResult)
    requires AllRecorded(s) && id in s.receipts && id in s.execs && id !in s.results
    requires s.receipts[id] == Running || s.receipts[id] == Interrupted
    ensures AllRecorded(s.(results := s.results[id := r]))
  {
    assert Recorded(s, id);
    OneMoreRecorded(s, s.(results := s.results[id := r]), id);
  }

  lemma SaveRecords(s: State, id: OpId, r: DockerResult)
    requires AllRecorded(s) && id in s.receipts && s.receipts[id] == Running && id in s.results && s.results[id] == r
    ensures AllRecorded(SetReceipt(s, id, Verdict(r)))
  {
    assert Recorded(s, id) && id in s.execs;
    OneMoreRecorded(s, SetReceipt(s, id, Verdict(r)), id);
  }

  lemma KeepRecords(s: State, id: OpId)
    requires AllRecorded(s) && id in s.receipts && s.receipts[id] == Interrupted
    ensures AllRecorded(SetReceipt(s, id, Interrupted))
  {
    assert Recorded(s, id);
    if id in s.results { assert id in s.execs; }
    OneMoreRecorded(s, SetReceipt(s, id, Interrupted), id);
  }

  /** Fields no record is about. */
  lemma SameRecord(s: State, t: State)
    requires AllRecorded(s) && t.receipts == s.receipts && t.results == s.results && t.interrupted == s.interrupted && s.execs <= t.execs
    ensures AllRecorded(t)
  {
    forall id | id in t.receipts ensures Recorded(t, id) { assert Recorded(s, id); }
  }

  lemma StartingRecords(s: State, p: Pid, o: Oracle, pc: Proc)
    requires AllRecorded(s) && WriterInv(s, p, pc)
    requires (pc.LookUp? || pc.Prepare? || pc.Insert? || pc.ReadActive? || pc.CheckActive?) && ExecuteStep(s, p, o, pc).Some?
    ensures GoodResult(s, ExecuteStep(s, p, o, pc).value, pc)
  {
    var m := ExecuteStep(s, p, o, pc).value;
    if pc.Insert? && pc.id !in s.receipts {
      InsertRecords(s, pc.id);
      SameRecord(SetReceipt(s, pc.id, Running), m.s);
    } else {
      SameRecord(s, m.s);
    }
  }

  lemma SavingRecords(s: State, p: Pid, o: Oracle, pc: Proc)
    requires AllRecorded(s) && WriterInv(s, p, pc) && Carries(s, pc)
    requires (pc.Refuse? || pc.DockerExec? || pc.Save? || pc.SaveInterrupted?) && ExecuteStep(s, p, o, pc).Some?
    ensures GoodResult(s, ExecuteStep(s, p, o, pc).value, pc)
  {
    if pc.Refuse? { RefuseRecords(s, pc.id); }
    else if pc.DockerExec? { AnswerRecords(s, pc.id, o.result); }
    else if pc.SaveInterrupted? { KeepRecords(s, pc.id); }
    else if s.receipts[pc.id] == Running { SaveRecords(s, pc.id, pc.result); }
  }

  lemma InterruptRecords(s: State, id: OpId)
    requires AllRecorded(s)
    ensures AllRecorded(Interrupt(s, id)) && Interrupt(s, id).results == s.results
  {
  }

  lemma InterruptingRecords(s: State, p: Pid, o: Oracle, pc: Proc)
    requires AllRecorded(s) && Interrupting(pc) && Advance(s, p, o, pc).Some?
    ensures GoodResult(s, Advance(s, p, o, pc).value, pc)
  {
    InterruptRecords(s, o.id);
  }

  lemma CleanupRecords(s: State, p: Pid, o: Oracle, pc: Proc)
    requires AllRecorded(s) && Carries(s, pc) && InCleanup(pc) && CleanupStep(s, p, o, pc).Some?
    ensures GoodResult(s, CleanupStep(s, p, o, pc).value, pc)
  {
  }

  lemma OtherRecords(s: State, p: Pid, o: Oracle, pc: Proc)
    requires AllRecorded(s) && !InExecute(pc) && !InCleanup(pc) && !Interrupting(pc) && Advance(s, p, o, pc).Some?
    ensures GoodResult(s, Advance(s, p, o, pc).value, pc)
  {
  }

  lemma AdvanceRecords(s: State, p: Pid, o: Oracle, pc: Proc)
    requires AllRecorded(s) && WriterInv(s, p, pc) && Carries(s, pc) && (forall id :: id in s.execs ==> id in s.receipts)
    requires Advance(s, p, o, pc).Some?
    ensures GoodResult(s, Advance(s, p, o, pc).value, pc)
  {
    if pc.Refuse? || pc.DockerExec? || pc.Save? || pc.SaveInterrupted? { SavingRecords(s, p, o, pc); }
    else if InExecute(pc) { StartingRecords(s, p, o, pc); }
    else if InCleanup(pc) { CleanupRecords(s, p, o, pc); }
    else if Interrupting(pc) { InterruptingRecords(s, p, o, pc); }
    else { OtherRecords(s, p, o, pc); }
  }

  lemma OtherCarries(s: State, t: State, p: Pid, pc: Proc, q: Pid, qc: Proc)
    requires WriterInv(s, p, pc) && WriterInv(s, q, qc) && p != q && Carries(s, qc) && ResultMove(s, t, pc)
    ensures Carries(t, qc)
  {
  }

  /** A thrown error, or a lost answer, drops the result or keeps it. */
  lemma ThrownCarries(s: State, pc: Proc)
    requires Carries(s, pc)
    ensures Thrown(pc).Some? ==> Carries(s, Thrown(pc).value)
  {
  }

  lemma LostCarries(s: State, p: Pid, o: Oracle, pc: Proc)
    requires Carries(s, pc) && Advance(s, p, o, pc).Some? && LostAfter(pc).Some?
    ensures Carries(Advance(s, p, o, pc).value.s, LostAfter(pc).value)
  {
  }

  /** After a step of `p` to `pc'`. */
  lemma ResultsAt(s: State, t: State, p: Pid, pc': Proc)
    requires Receipts(s) && Results(s) && p in s.procs && t.procs == s.procs[p := pc']
    requires AllRecorded(t) && ResultMove(s, t, s.procs[p]) && Carries(t, pc')
    ensures Results(t)
  {
    forall q | q in t.procs ensures Carries(t, t.procs[q]) {
      if q != p {
        assert WriterInv(s, p, s.procs[p]) && WriterInv(s, q, s.procs[q]);
        OtherCarries(s, t, p, s.procs[p], q, s.procs[q]);
      }
    }
  }

  lemma CallKeepsResults(s: State, p: Pid, o: Oracle, pc': Proc, t: State)
    requires Receipts(s) && Results(s) && p in s.procs && Advance(s, p, o, s.procs[p]).Some?
    requires var m := Advance(s, p, o, s.procs[p]).value;
             && (pc' == m.pc || Some(pc') == LostAfter(s.procs[p])) && t == At(m.s, p, pc')
    ensures Results(t)
  {
    var pc, m := s.procs[p], Advance(s, p, o, s.procs[p]).value;
    assert WriterInv(s, p, pc);
    AdvanceRecords(s, p, o, pc);
    if pc' != m.pc { LostCarries(s, p, o, pc); }
    SameRecord(m.s, t);
    ResultsAt(s, t, p, pc');
  }

  lemma StepKeepsResults(s: State, e: Event)
    requires Receipts(s) && Results(s) && Next(s, e).Some?
    ensures Results(Next(s, e).value)
  {
    var t := Next(s, e).value;
    match e
    case Go(p, o) => CallKeepsResults(s, p, o, Advance(s, p, o, s.procs[p]).value.pc, t);
    case Lose(p, o) => CallKeepsResults(s, p, o, LostAfter(s.procs[p]).value, t);
    case Throw(p) =>
      ThrownCarries(s, s.procs[p]);
      SameRecord(s, t);
      ResultsAt(s, t, p, Thrown(s.procs[p]).value);
    case Begin(p, entry) =>
      SameRecord(s, t);
    case Tick(_) => SameRecord(s, t);
  }

  lemma ResultsOfRuns(es: seq<Event>)
    requires Exec(Next, START, es).Some?
    ensures Receipts(Exec(Next, START, es).value) && Results(Exec(Next, START, es).value)
  {
    forall t: State, e: Event | Receipts(t) && Results(t) && Next(t, e).Some?
      ensures Receipts(Next(t, e).value) && Results(Next(t, e).value)
    {
      StepKeepsReceipts(t, e);
      StepKeepsResults(t, e);
    }
    InvariantOfRuns(Next, t => Receipts(t) && Results(t), START, es);
  }

  /** Over every run: a receipt that a Stop, a sweep or a refusal interrupted says so for good; any other one
      that was decided says what Docker answered: interrupted, timed out if it was or the exit code is 124,
      succeeded for exit code 0, and failed for every other end. */
  lemma ReceiptsTellTheResult(es: seq<Event>, s: State, id: OpId)
    requires Exec(Next, START, es) == Some(s) && id in s.receipts
    ensures id in s.interrupted ==> s.receipts[id] == Interrupted
    ensures s.receipts[id] != Running && id !in s.interrupted ==>
              id in s.results &&
              var r := s.results[id];
              && (s.receipts[id] == Interrupted <==> r.interrupted)
              && (s.receipts[id] == TimedOut <==> !r.interrupted && (r.timedOut || r.exitCode == Some(124)))
              && (s.receipts[id] == Succeeded <==> !r.interrupted && !r.timedOut && r.exitCode == Some(0))
              && (s.receipts[id] == Failed <==> !r.interrupted && !r.timedOut && r.exitCode != Some(0) && r.exitCode != Some(124))
  {
    ResultsOfRuns(es);
    assert Recorded(s, id);
  }

  /** The result on record is the one Docker gave in answer to this command, and it is never replaced. */
  lemma ResultIsTheAnswer(es: seq<Event>, s: State, e: Event, id: OpId)
    requires Exec(Next, START, es) == Some(s) && Next(s, e).Some?
    requires id in Next(s, e).value.results && !(id in s.results && s.results[id] == Next(s, e).value.results[id])
    ensures id !in s.results && e.Go? && e.p in s.procs && s.procs[e.p].DockerExec? && s.procs[e.p].id == id
    ensures Next(s, e).value.results[id] == e.o.result
  {
    ResultsOfRuns(es);
    if e.Go? || e.Lose? {
      assert Carries(s, s.procs[e.p]);
      ResultComesFromDocker(s, e.p, e.o, s.procs[e.p]);
    }
  }

  lemma ResultComesFromDocker(s: State, p: Pid, o: Oracle, pc: Proc)
    requires Advance(s, p, o, pc).Some?
    ensures var t := Advance(s, p, o, pc).value.s;
            t.results == if pc.DockerExec? then s.results[pc.id := o.result] else s.results
  {
    if InExecute(pc) { ExecuteKeepsResults(s, p, o, pc); }
    else if !Interrupting(pc) { OthersKeepResults(s, p, o, pc); }
  }

  lemma ExecuteKeepsResults(s: State, p: Pid, o: Oracle, pc: Proc)
    requires InExecute(pc) && ExecuteStep(s, p, o, pc).Some?
    ensures var t := ExecuteStep(s, p, o, pc).value.s;
            t.results == if pc.DockerExec? then s.results[pc.id := o.result] else s.results
  {
  }

  lemma OthersKeepResults(s: State, p: Pid, o: Oracle, pc: Proc)
    requires !InExecute(pc) && !Interrupting(pc) && Advance(s, p, o, pc).Some?
    ensures Advance(s, p, o, pc).value.s.results == s.results
  {
  }
}
