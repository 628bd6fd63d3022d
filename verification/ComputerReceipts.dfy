/** Command receipts: one `docker exec` for each operation id, and a decided receipt is final. */
module ComputerReceipts {
  import opened Runs
  import opened ComputerLease
  import opened ComputerSafety

  predicate Ran(status: Status) { status.Succeeded? || status.Failed? || status.TimedOut? }

  predicate Distinct<T(==)>(xs: seq<T>) {
    forall i, j :: 0 <= i < j < |xs| ==> xs[i] != xs[j]
  }

  /** What holds of the receipt that the call `p` at `pc` saved. */
  ghost predicate WriterInv(s: State, p: Pid, pc: Proc) {
    Writing(pc).Some? ==>
      var id := Writing(pc).value;
      && id in s.inserter && s.inserter[id] == p && id in s.receipts
      && (s.receipts[id].Running? || s.receipts[id].Interrupted?)
      && (pc.SaveInterrupted? ==> s.receipts[id].Interrupted?)
      && (BeforeExec(pc) <==> id !in s.execs)
  }

  ghost predicate ReceiptInv(s: State, id: OpId)
    requires id in s.inserter && s.inserter[id] in s.procs && id in s.receipts
  {
    var pc := s.procs[s.inserter[id]];
    && (Writing(pc) == Some(id) || Leaving(pc))
    && (LeftWell(pc) ==> !s.receipts[id].Running?)
    && (Ran(s.receipts[id]) ==> id in s.execs)
  }

  ghost predicate Receipts(s: State) {
    && s.inserter.Keys == s.receipts.Keys
    && (forall p :: p in s.procs ==> WriterInv(s, p, s.procs[p]))
    && (forall id :: id in s.inserter ==> s.inserter[id] in s.procs && ReceiptInv(s, id))
    && Distinct(s.execs) && (forall id :: id in s.execs ==> id in s.receipts)
  }

  /** What a step of `p` can do to receipts: save a new one, decide its own, or interrupt a running one. */
  ghost predicate ReceiptMove(s: State, s': State, p: Pid, pc: Proc, pc': Proc) {
    && (forall id :: id in s.receipts ==>
          id in s'.receipts
          && (s'.receipts[id] == s.receipts[id]
              || (s.receipts[id].Running?
                  && (s'.receipts[id].Interrupted? || (Writing(pc) == Some(id) && !BeforeExec(pc))))))
    && (if Writing(pc).None? && Writing(pc').Some? then
          var id := Writing(pc').value;
          && id !in s.receipts && !Leaving(pc)
          && s'.inserter == s.inserter[id := p] && s'.receipts == s.receipts[id := Running]
        else s'.inserter == s.inserter && s'.receipts.Keys == s.receipts.Keys)
    && (s'.execs == s.execs
        || (Writing(pc).Some? && BeforeExec(pc) && s'.execs == s.execs + [Writing(pc).value] && !BeforeExec(pc')))
    && (Writing(pc).Some? ==> Writing(pc') == Writing(pc) || Leaving(pc'))
    && (Leaving(pc) ==> Leaving(pc') && (LeftWell(pc') ==> LeftWell(pc)))
  }

  predicate Interrupting(pc: Proc) { pc.StopCommands? || pc.SweepCommands? }

  lemma InterruptIsReceiptMove(s: State, p: Pid, o: Oracle, pc: Proc)
    requires Interrupting(pc) && Advance(s, p, o, pc).Some?
    ensures var m := Advance(s, p, o, pc).value; ReceiptMove(s, m.s, p, pc, m.pc) && Writing(m.pc).None?
  {
    if pc.StopCommands? { StopIsReceiptMove(s, p, o, pc); } else { SweepIsReceiptMove(s, p, o, pc); }
  }

  lemma StopIsReceiptMove(s: State, p: Pid, o: Oracle, pc: Proc)
    requires pc.StopCommands? && StopStep(s, p, o, pc).Some?
    ensures var m := StopStep(s, p, o, pc).value; ReceiptMove(s, m.s, p, pc, m.pc) && Writing(m.pc).None?
  {
  }

  lemma SweepIsReceiptMove(s: State, p: Pid, o: Oracle, pc: Proc)
    requires pc.SweepCommands? && SweepStep(s, p, o, pc).Some?
    ensures var m := SweepStep(s, p, o, pc).value; ReceiptMove(s, m.s, p, pc, m.pc) && Writing(m.pc).None?
  {
  }

  lemma OutsideExecutePlaces(s: State, p: Pid, o: Oracle, pc: Proc)
    requires !InExecute(pc) && Advance(s, p, o, pc).Some?
    ensures var pc' := Advance(s, p, o, pc).value.pc;
            && (Writing(pc').Some? ==> Writing(pc') == Writing(pc) && !BeforeExec(pc') && !BeforeExec(pc) && !pc'.SaveInterrupted?)
            && (Writing(pc).Some? ==> Writing(pc') == Writing(pc))
            && (Leaving(pc) ==> Leaving(pc') && (LeftWell(pc') ==> LeftWell(pc)))
  {
  }

  lemma SavingIsReceiptMove(s: State, p: Pid, o: Oracle, pc: Proc, m: Move)
    requires WriterInv(s, p, pc) && (forall id :: id in s.execs ==> id in s.receipts)
    requires (pc.Refuse? || pc.DockerExec? || pc.Save? || pc.SaveInterrupted?) && ExecuteStep(s, p, o, pc) == Some(m)
    ensures ReceiptMove(s, m.s, p, pc, m.pc)
  {
    if pc.Save? { StatusIsReceiptMove(s, p, o, pc, m); } else { AnswerIsReceiptMove(s, p, o, pc, m); }
  }

  lemma StatusIsReceiptMove(s: State, p: Pid, o: Oracle, pc: Proc, m: Move)
    requires WriterInv(s, p, pc) && (forall id :: id in s.execs ==> id in s.receipts)
    requires pc.Save? && ExecuteStep(s, p, o, pc) == Some(m)
    ensures ReceiptMove(s, m.s, p, pc, m.pc)
  {
  }

  lemma AnswerIsReceiptMove(s: State, p: Pid, o: Oracle, pc: Proc, m: Move)
    requires WriterInv(s, p, pc) && (forall id :: id in s.execs ==> id in s.receipts)
    requires (pc.Refuse? || pc.DockerExec? || pc.SaveInterrupted?) && ExecuteStep(s, p, o, pc) == Some(m)
    ensures ReceiptMove(s, m.s, p, pc, m.pc)
  {
  }

  lemma ExecuteIsReceiptMove(s: State, p: Pid, o: Oracle, pc: Proc, m: Move)
    requires WriterInv(s, p, pc) && (forall id :: id in s.execs ==> id in s.receipts)
    requires InExecute(pc) && ExecuteStep(s, p, o, pc) == Some(m)
    ensures ReceiptMove(s, m.s, p, pc, m.pc)
  {
    if pc.Refuse? || pc.DockerExec? || pc.Save? || pc.SaveInterrupted? { SavingIsReceiptMove(s, p, o, pc, m); }
    else { StartingIsReceiptMove(s, p, o, pc, m); }
  }

  lemma StartingIsReceiptMove(s: State, p: Pid, o: Oracle, pc: Proc, m: Move)
    requires WriterInv(s, p, pc)
    requires pc.LookUp? || pc.Prepare? || pc.Insert? || pc.ReadActive? || pc.CheckActive?
    requires ExecuteStep(s, p, o, pc) == Some(m)
    ensures ReceiptMove(s, m.s, p, pc, m.pc)
  {
    if pc.Insert? { InsertIsReceiptMove(s, p, o, pc, m); }
  }

  lemma InsertIsReceiptMove(s: State, p: Pid, o: Oracle, pc: Proc, m: Move)
    requires WriterInv(s, p, pc) && pc.Insert? && ExecuteStep(s, p, o, pc) == Some(m)
    ensures ReceiptMove(s, m.s, p, pc, m.pc)
  {
  }

  lemma ExecuteKeepsWriter(s: State, p: Pid, o: Oracle, pc: Proc, m: Move)
    requires WriterInv(s, p, pc) && (forall id :: id in s.execs ==> id in s.receipts)
    requires InExecute(pc) && ExecuteStep(s, p, o, pc) == Some(m)
    ensures WriterInv(m.s, p, m.pc)
            && LeavesDecided(m.s, pc, m.pc)
  {
    if pc.Refuse? || pc.DockerExec? || pc.Save? || pc.SaveInterrupted? { SavingKeepsWriter(s, p, o, pc, m); }
  }

  lemma SavingKeepsWriter(s: State, p: Pid, o: Oracle, pc: Proc, m: Move)
    requires WriterInv(s, p, pc) && (forall id :: id in s.execs ==> id in s.receipts)
    requires (pc.Refuse? || pc.DockerExec? || pc.Save? || pc.SaveInterrupted?) && ExecuteStep(s, p, o, pc) == Some(m)
    ensures WriterInv(m.s, p, m.pc) && LeavesDecided(m.s, pc, m.pc)
  {
  }

  lemma QuietIsReceiptMove(s: State, t: State, p: Pid, pc: Proc, pc': Proc)
    requires WriterInv(s, p, pc) && KeepsReceipts(s, t)
    requires Writing(pc').Some? ==> Writing(pc') == Writing(pc) && !BeforeExec(pc') && !BeforeExec(pc) && !pc'.SaveInterrupted?
    requires Writing(pc).Some? ==> Writing(pc') == Writing(pc)
    requires Leaving(pc) ==> Leaving(pc') && (LeftWell(pc') ==> LeftWell(pc))
    ensures ReceiptMove(s, t, p, pc, pc') && WriterInv(t, p, pc')
  {
  }

  lemma OutsideIsReceiptMove(s: State, p: Pid, o: Oracle, pc: Proc, m: Move)
    requires WriterInv(s, p, pc) && (forall id :: id in s.execs ==> id in s.receipts)
    requires !InExecute(pc) && Advance(s, p, o, pc) == Some(m)
    ensures ReceiptMove(s, m.s, p, pc, m.pc) && WriterInv(m.s, p, m.pc)
  {
    if Interrupting(pc) {
      InterruptIsReceiptMove(s, p, o, pc);
    } else {
      OutsideExecutePlaces(s, p, o, pc);
      QuietIsReceiptMove(s, m.s, p, pc, m.pc);
    }
  }

  /** A call that leaves normally has decided the receipt it was writing. */
  predicate LeavesDecided(s: State, pc: Proc, pc': Proc) {
    Writing(pc).Some? && LeftWell(pc') ==> Writing(pc).value in s.receipts && !s.receipts[Writing(pc).value].Running?
  }

  lemma MoveIsReceiptMove(s: State, p: Pid, o: Oracle, pc: Proc, m: Move)
    requires WriterInv(s, p, pc) && (forall id :: id in s.execs ==> id in s.receipts)
    requires Advance(s, p, o, pc) == Some(m)
    ensures ReceiptMove(s, m.s, p, pc, m.pc) && WriterInv(m.s, p, m.pc) && LeavesDecided(m.s, pc, m.pc)
  {
    if InExecute(pc) {
      assert ExecuteStep(s, p, o, pc) == Some(m);
      ExecuteIsReceiptMove(s, p, o, pc, m);
      ExecuteKeepsWriter(s, p, o, pc, m);
    } else {
      OutsideIsReceiptMove(s, p, o, pc, m);
      OutsideExecutePlaces(s, p, o, pc);
    }
  }

  lemma OtherWriterKept(s: State, s': State, p: Pid, pc: Proc, pc': Proc, q: Pid, qc: Proc)
    requires ReceiptMove(s, s', p, pc, pc') && WriterInv(s, p, pc) && WriterInv(s, q, qc) && p != q
    ensures WriterInv(s', q, qc)
  {
  }

  lemma WriterStays(s: State, m: Move, p: Pid, q: Pid)
    requires Receipts(s) && p in s.procs && q in s.procs && p != q && m.s.procs == s.procs
    requires ReceiptMove(s, m.s, p, s.procs[p], m.pc)
    ensures WriterInv(At(m.s, p, m.pc), q, s.procs[q])
  {
    assert WriterInv(s, p, s.procs[p]) && WriterInv(s, q, s.procs[q]);
    OtherWriterKept(s, m.s, p, s.procs[p], m.pc, q, s.procs[q]);
  }

  lemma OthersReceiptStays(s: State, m: Move, p: Pid, id: OpId)
    requires Receipts(s) && p in s.procs && m.s.procs == s.procs && id in s.inserter && s.inserter[id] != p
    requires ReceiptMove(s, m.s, p, s.procs[p], m.pc)
    ensures var t := At(m.s, p, m.pc);
            id in t.inserter && t.inserter[id] in t.procs && id in t.receipts && ReceiptInv(t, id)
  {
    assert WriterInv(s, p, s.procs[p]) && ReceiptInv(s, id);
  }

  lemma OwnReceiptStays(s: State, m: Move, p: Pid, id: OpId)
    requires Receipts(s) && p in s.procs && m.s.procs == s.procs && id in s.inserter && s.inserter[id] == p
    requires ReceiptMove(s, m.s, p, s.procs[p], m.pc) && LeavesDecided(m.s, s.procs[p], m.pc)
    ensures var t := At(m.s, p, m.pc);
            id in t.inserter && t.inserter[id] in t.procs && id in t.receipts && ReceiptInv(t, id)
  {
    assert WriterInv(s, p, s.procs[p]) && ReceiptInv(s, id);
  }

  lemma ReceiptStays(s: State, m: Move, p: Pid, id: OpId)
    requires Receipts(s) && p in s.procs && m.s.procs == s.procs
    requires ReceiptMove(s, m.s, p, s.procs[p], m.pc) && WriterInv(m.s, p, m.pc)
    requires LeavesDecided(m.s, s.procs[p], m.pc) && id in m.s.inserter
    ensures var t := At(m.s, p, m.pc); t.inserter[id] in t.procs && ReceiptInv(t, id)
  {
    if id in s.inserter && s.inserter[id] != p {
      OthersReceiptStays(s, m, p, id);
    } else if id in s.inserter {
      OwnReceiptStays(s, m, p, id);
    }
  }

  lemma ReceiptMoveKeeps(s: State, m: Move, p: Pid)
    requires Receipts(s) && p in s.procs && m.s.procs == s.procs
    requires ReceiptMove(s, m.s, p, s.procs[p], m.pc) && WriterInv(m.s, p, m.pc)
    requires LeavesDecided(m.s, s.procs[p], m.pc)
    ensures Receipts(At(m.s, p, m.pc))
  {
    var t := At(m.s, p, m.pc);
    forall q | q in t.procs ensures WriterInv(t, q, t.procs[q]) {
      if q != p { WriterStays(s, m, p, q); }
    }
    forall id | id in t.inserter ensures t.inserter[id] in t.procs && ReceiptInv(t, id) { ReceiptStays(s, m, p, id); }
    assert WriterInv(s, p, s.procs[p]);
  }

  lemma ThrowKeepsReceiptInv(s: State, p: Pid)
    requires Receipts(s) && Next(s, Throw(p)).Some?
    ensures var t := Next(s, Throw(p)).value;
            forall id :: id in t.inserter ==> t.inserter[id] in t.procs && ReceiptInv(t, id)
  {
    var t := Next(s, Throw(p)).value;
    forall id | id in t.inserter ensures t.inserter[id] in t.procs && ReceiptInv(t, id) { assert ReceiptInv(s, id); }
  }

  /** The call goes on to another await without touching a receipt: writing the same one, or leaving badly,
      or never having saved one. */
  lemma AbandonKeepsReceipts(t: State, p: Pid, pc: Proc, u: State, pc': Proc)
    requires p in t.procs && u == At(t, p, pc) && Receipts(u)
    requires || (Writing(pc').None? && Leaving(pc') && !LeftWell(pc'))
             || (Writing(pc') == Writing(pc) && !Leaving(pc) && !BeforeExec(pc) && !BeforeExec(pc') && !pc'.SaveInterrupted?)
             || (Writing(pc').None? && forall id :: id in u.inserter ==> u.inserter[id] != p)
    ensures Receipts(At(t, p, pc'))
  {
    var v := At(t, p, pc');
    assert WriterInv(u, p, u.procs[p]);
    forall q | q in v.procs ensures WriterInv(v, q, v.procs[q]) { if q != p { assert WriterInv(u, q, u.procs[q]); } }
    forall id | id in v.inserter ensures v.inserter[id] in v.procs && ReceiptInv(v, id) {
      assert ReceiptInv(u, id);
      if u.inserter[id] == p { AbandonKeepsWriting(pc, pc', id); }
      SameReceiptInv(u, v, id);
    }
  }

  lemma SameReceiptInv(u: State, v: State, id: OpId)
    requires id in u.inserter && u.inserter[id] in u.procs && id in u.receipts && ReceiptInv(u, id)
    requires v.inserter == u.inserter && v.receipts == u.receipts && v.execs == u.execs && v.inserter[id] in v.procs
    requires v.procs[v.inserter[id]] == u.procs[u.inserter[id]]
             || ((Writing(v.procs[v.inserter[id]]) == Some(id) || Leaving(v.procs[v.inserter[id]])) && !LeftWell(v.procs[v.inserter[id]]))
    ensures ReceiptInv(v, id)
  {
  }

  lemma AbandonKeepsWriting(pc: Proc, pc': Proc, id: OpId)
    requires Writing(pc) == Some(id) || Leaving(pc)
    requires || (Writing(pc').None? && Leaving(pc') && !LeftWell(pc')) || (Writing(pc') == Writing(pc) && !Leaving(pc))
    ensures (Writing(pc') == Some(id) || Leaving(pc')) && !LeftWell(pc')
  {
  }

  lemma LostLeavesBadly(s: State, p: Pid, o: Oracle, pc: Proc)
    requires Advance(s, p, o, pc).Some? && LostAfter(pc).Some? && !pc.StopRelease?
    ensures var (m, lost) := (Advance(s, p, o, pc).value, LostAfter(pc).value);
      || (Writing(lost).None? && Leaving(lost) && !LeftWell(lost))
      || (Writing(lost) == Writing(m.pc) && !Leaving(m.pc) && !BeforeExec(m.pc) && !BeforeExec(lost) && !lost.SaveInterrupted?)
  {
    if pc.CleanupConfirm? || pc.StopConfirm? { LostConfirmLeaves(s, p, o, pc); }
  }

  lemma LostConfirmLeaves(s: State, p: Pid, o: Oracle, pc: Proc)
    requires Advance(s, p, o, pc).Some? && (pc.CleanupConfirm? || pc.StopConfirm?)
    ensures var (m, lost) := (Advance(s, p, o, pc).value, LostAfter(pc).value);
            Writing(lost) == Writing(m.pc) && !Leaving(m.pc) && !BeforeExec(m.pc) && !BeforeExec(lost) && !lost.SaveInterrupted?
  {
  }

  lemma LoseKeepsReceipts(s: State, p: Pid, o: Oracle)
    requires Receipts(s) && p in s.procs && Advance(s, p, o, s.procs[p]).Some? && LostAfter(s.procs[p]).Some?
    requires var m := Advance(s, p, o, s.procs[p]).value; Receipts(At(m.s, p, m.pc))
    ensures Receipts(At(Advance(s, p, o, s.procs[p]).value.s, p, LostAfter(s.procs[p]).value))
  {
    var pc := s.procs[p];
    var m := Advance(s, p, o, pc).value;
    if pc.StopRelease? {
      forall id | id in s.inserter ensures s.inserter[id] != p { assert ReceiptInv(s, id); }
    } else {
      LostLeavesBadly(s, p, o, pc);
    }
    AbandonKeepsReceipts(m.s, p, m.pc, At(m.s, p, m.pc), LostAfter(pc).value);
  }

  lemma GoKeepsReceipts(s: State, p: Pid, o: Oracle)
    requires Receipts(s) && p in s.procs && Advance(s, p, o, s.procs[p]).Some?
    ensures var m := Advance(s, p, o, s.procs[p]).value; Receipts(At(m.s, p, m.pc))
  {
    assert WriterInv(s, p, s.procs[p]);
    MoveIsReceiptMove(s, p, o, s.procs[p], Advance(s, p, o, s.procs[p]).value);
    ReceiptMoveKeeps(s, Advance(s, p, o, s.procs[p]).value, p);
  }

  lemma StepKeepsReceipts(s: State, e: Event)
    requires Receipts(s) && Next(s, e).Some?
    ensures Receipts(Next(s, e).value)
  {
    var t := Next(s, e).value;
    match e
    case Go(p, o) => GoKeepsReceipts(s, p, o);
    case Lose(p, o) =>
      GoKeepsReceipts(s, p, o);
      LoseKeepsReceipts(s, p, o);
    case Throw(p) =>
      forall q | q in t.procs ensures WriterInv(t, q, t.procs[q]) { assert WriterInv(s, q, s.procs[q]); }
      ThrowKeepsReceiptInv(s, p);
    case _ => NoCallKeepsReceipts(s, e);
  }

  /** A call begins, or the clock goes on. */
  lemma NoCallKeepsReceipts(s: State, e: Event)
    requires Receipts(s) && (e.Begin? || e.Tick?) && Next(s, e).Some?
    ensures Receipts(Next(s, e).value)
  {
    var t := Next(s, e).value;
    forall q | q in t.procs ensures WriterInv(t, q, t.procs[q]) { if q in s.procs { assert WriterInv(s, q, s.procs[q]); } }
    forall id | id in t.inserter ensures t.inserter[id] in t.procs && ReceiptInv(t, id) { assert ReceiptInv(s, id); }
  }

  lemma ReceiptsOfRuns(es: seq<Event>)
    requires Exec(Next, START, es).Some?
    ensures Receipts(Exec(Next, START, es).value)
  {
    forall t: State, e: Event | Receipts(t) && Next(t, e).Some? ensures Receipts(Next(t, e).value) {
      StepKeepsReceipts(t, e);
    }
    InvariantOfRuns(Next, t => Receipts(t), START, es);
  }

  // ------------------------------------------------------------------ main results

  /** Over any run, with any retries, crashes and failures, `docker exec` starts at most once for an
      operation id, and only after its receipt was saved; a status that says it ran means it did. */
  lemma ExecAtMostOncePerOperation(es: seq<Event>, s: State, id: OpId)
    requires Exec(Next, START, es) == Some(s)
    ensures multiset(s.execs)[id] <= 1
    ensures id in s.execs ==> id in s.receipts
    ensures id in s.receipts && Ran(s.receipts[id]) ==> multiset(s.execs)[id] == 1
  {
    ReceiptsOfRuns(es);
    DistinctCounts(s.execs, id);
    if id in s.receipts { assert id in s.inserter && ReceiptInv(s, id); }
  }

  lemma {:induction false} DistinctCounts(xs: seq<OpId>, x: OpId)
    requires Distinct(xs)
    ensures multiset(xs)[x] == if x in xs then 1 else 0
  {
    if xs != [] {
      var h, t := xs[0], xs[1..];
      assert xs == [h] + t && Distinct(t);
      assert forall i :: 0 <= i < |t| ==> t[i] == xs[i + 1];
      DistinctCounts(t, x);
    }
  }

  ghost predicate Decided(s: State, id: OpId, status: Status) {
    Receipts(s) && id in s.receipts && s.receipts[id] == status
  }

  lemma DecidedStepIsFinal(s: State, e: Event, id: OpId, status: Status)
    requires Decided(s, id, status) && !status.Running? && Next(s, e).Some?
    ensures Decided(Next(s, e).value, id, status)
  {
    StepKeepsReceipts(s, e);
    if e.Go? || e.Lose? {
      assert WriterInv(s, e.p, s.procs[e.p]);
      MoveIsReceiptMove(s, e.p, e.o, s.procs[e.p], Advance(s, e.p, e.o, s.procs[e.p]).value);
    }
  }

  /** A receipt leaves `running` at most once: whatever it became, interrupted by a Stop or a lapsed
      lease included, it stays for the rest of every run. */
  lemma DecidedReceiptIsFinal(before: seq<Event>, s: State, after: seq<Event>, id: OpId)
    requires Exec(Next, START, before) == Some(s) && Exec(Next, s, after).Some?
    requires id in s.receipts && !s.receipts[id].Running?
    ensures var t := Exec(Next, s, after).value; id in t.receipts && t.receipts[id] == s.receipts[id]
  {
    ReceiptsOfRuns(before);
    var status := s.receipts[id];
    forall t: State, e: Event | Decided(t, id, status) && Next(t, e).Some? ensures Decided(Next(t, e).value, id, status) {
      DecidedStepIsFinal(t, e, id, status);
    }
    InvariantOfRuns(Next, t => Decided(t, id, status), s, after);
  }

  ghost predicate Saved(s: State, ids: set<OpId>) { Receipts(s) && ids <= s.receipts.Keys }

  lemma SavedStepStays(s: State, e: Event, ids: set<OpId>)
    requires Saved(s, ids) && Next(s, e).Some?
    ensures Saved(Next(s, e).value, ids)
  {
    StepKeepsReceipts(s, e);
    if e.Go? || e.Lose? {
      assert WriterInv(s, e.p, s.procs[e.p]);
      MoveIsReceiptMove(s, e.p, e.o, s.procs[e.p], Advance(s, e.p, e.o, s.procs[e.p]).value);
    }
  }

  /** A saved receipt is never removed. */
  lemma SavedReceiptStays(before: seq<Event>, s: State, after: seq<Event>, ids: set<OpId>)
    requires Exec(Next, START, before) == Some(s) && Exec(Next, s, after).Some? && ids <= s.receipts.Keys
    ensures ids <= Exec(Next, s, after).value.receipts.Keys
  {
    ReceiptsOfRuns(before);
    forall t: State, e: Event | Saved(t, ids) && Next(t, e).Some? ensures Saved(Next(t, e).value, ids) {
      SavedStepStays(t, e, ids);
    }
    InvariantOfRuns(Next, t => Saved(t, ids), s, after);
  }

  /** A call that saved a receipt and returned normally left it decided. */
  lemma ReturnedReceiptIsDecided(es: seq<Event>, s: State, id: OpId)
    requires Exec(Next, START, es) == Some(s)
    requires id in s.inserter && s.inserter[id] in s.procs && s.procs[s.inserter[id]] == Finished(true)
    ensures id in s.receipts && !s.receipts[id].Running?
  {
    ReceiptsOfRuns(es);
    assert ReceiptInv(s, id);
  }
}
