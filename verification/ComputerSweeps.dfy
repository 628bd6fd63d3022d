/** Which command receipts a sweep can still reach: a listing answers with the newest rows only, so a receipt
    left running behind enough newer ones stays running. */
module ComputerSweeps {
  import opened Runs
  import opened ComputerLease
  import opened ComputerSafety
  import opened ComputerReceipts
  import opened Paging

  // ------------------------------------------------------------------ stamps

  /** Every receipt is stamped, and no stamp is later than now. */
  predicate Stamped(s: State) {
    s.stamps.Keys == s.receipts.Keys && forall id :: id in s.stamps ==> s.stamps[id] <= s.now
  }

  /** A step writes receipts with the stamp of the moment, and no other; one that was running and still is was
      not written. */
  predicate StampMove(s: State, t: State) {
    && t.stamps.Keys == t.receipts.Keys && t.now >= s.now && s.receipts.Keys <= t.receipts.Keys
    && (forall id :: id in t.stamps ==> t.stamps[id] <= t.now && (id in s.stamps ==> t.stamps[id] >= s.stamps[id]))
    && (forall id :: id in s.receipts && s.receipts[id] == Running && t.receipts[id] == Running ==> id in s.stamps && t.stamps[id] == s.stamps[id])
    && (forall id :: id in t.stamps && id !in s.stamps ==> t.stamps[id] == s.now)
  }

  lemma AdvanceStamps(s: State, p: Pid, o: Oracle, pc: Proc)
    requires Stamped(s) && Advance(s, p, o, pc).Some?
    ensures StampMove(s, Advance(s, p, o, pc).value.s)
  {
    if InExecute(pc) {
      ExecuteStamps(s, p, o, pc);
    } else if pc.StopCommands? || pc.SweepCommands? {
      InterruptStamps(s, p, o, pc);
    }
  }

  lemma ExecuteStamps(s: State, p: Pid, o: Oracle, pc: Proc)
    requires Stamped(s) && InExecute(pc) && ExecuteStep(s, p, o, pc).Some?
    ensures StampMove(s, ExecuteStep(s, p, o, pc).value.s)
  {
    if pc.Insert? {
      WriteStamps(s, pc.id, Running);
    } else if pc.Save? {
      WriteStamps(s, pc.id, Verdict(pc.result));
    } else if pc.Refuse? || pc.SaveInterrupted? {
      WriteStamps(s, pc.id, Interrupted);
    } else {
      RunningStamps(s, p, o, pc);
    }
  }

  /** The steps of an execution that write no receipt. */
  lemma RunningStamps(s: State, p: Pid, o: Oracle, pc: Proc)
    requires Stamped(s) && InExecute(pc) && !pc.Insert? && !pc.Save? && !pc.Refuse? && !pc.SaveInterrupted?
    requires ExecuteStep(s, p, o, pc).Some?
    ensures StampMove(s, ExecuteStep(s, p, o, pc).value.s)
  {
    RunningWritesNothing(s, p, o, pc);
    SameStamps(s, ExecuteStep(s, p, o, pc).value.s);
  }

  lemma RunningWritesNothing(s: State, p: Pid, o: Oracle, pc: Proc)
    requires InExecute(pc) && !pc.Insert? && !pc.Save? && !pc.Refuse? && !pc.SaveInterrupted?
    requires ExecuteStep(s, p, o, pc).Some?
    ensures var t := ExecuteStep(s, p, o, pc).value.s; t.receipts == s.receipts && t.stamps == s.stamps && t.now == s.now
  {
  }

  lemma SameStamps(s: State, t: State)
    requires Stamped(s) && t.receipts == s.receipts && t.stamps == s.stamps && t.now == s.now
    ensures StampMove(s, t)
  {
  }

  lemma InterruptStamps(s: State, p: Pid, o: Oracle, pc: Proc)
    requires Stamped(s) && (pc.StopCommands? || pc.SweepCommands?) && Advance(s, p, o, pc).Some?
    ensures StampMove(s, Advance(s, p, o, pc).value.s)
  {
    WriteStamps(s, o.id, Interrupted);
    InterruptsOne(s, p, o, pc);
  }

  lemma InterruptsOne(s: State, p: Pid, o: Oracle, pc: Proc)
    requires (pc.StopCommands? || pc.SweepCommands?) && Advance(s, p, o, pc).Some?
    ensures var t := Advance(s, p, o, pc).value.s;
            || t == s
            || (o.id in s.receipts && t == SetReceipt(s, o.id, Interrupted).(interrupted := s.interrupted + {o.id}))
  {
  }

  lemma WriteStamps(s: State, id: OpId, status: Status)
    requires Stamped(s)
    ensures status != Running || id !in s.receipts ==> StampMove(s, SetReceipt(s, id, status))
    ensures StampMove(s, s)
  {
  }

  lemma StepStamps(s: State, e: Event)
    requires Stamped(s) && Next(s, e).Some?
    ensures Stamped(Next(s, e).value) && StampMove(s, Next(s, e).value)
  {
    if e.Go? || e.Lose? { AdvanceStamps(s, e.p, e.o, s.procs[e.p]); }
  }

  lemma StampsOfRuns(es: seq<Event>)
    requires Exec(Next, START, es).Some?
    ensures Stamped(Exec(Next, START, es).value)
  {
    forall t: State, e: Event | Stamped(t) && Next(t, e).Some? ensures Stamped(Next(t, e).value) { StepStamps(t, e); }
    InvariantOfRuns(Next, t => Stamped(t), START, es);
  }

  // ------------------------------------------------------------------ ranks

  lemma {:induction false} CardinalityOfSubset<T>(a: set<T>, b: set<T>)
    requires a <= b
    ensures |a| <= |b|
  {
    if a != {} {
      var x :| x in a;
      CardinalityOfSubset(a - {x}, b - {x});
    }
  }

  /** A table with no more rows than a listing answers with is listed completely. */
  lemma FewRowsAreAllNewest(rows: Rows)
    requires |rows| <= LIST_LIMIT
    ensures Newest(rows) == rows.Keys
  {
    forall id | id in rows ensures Rank(rows, id) < LIST_LIMIT {
      var ahead := set j | j in rows && Before(Position(rows[j], j), Position(rows[id], id));
      CardinalityOfSubset(ahead, rows.Keys - {id});
    }
  }

  /** As long as a row is not written, others only come before it. */
  lemma RankGrows(a: Rows, b: Rows, id: Id)
    requires id in a && a.Keys <= b.Keys && b[id] == a[id] && forall j :: j in a ==> b[j] >= a[j]
    ensures Rank(a, id) <= Rank(b, id)
  {
    var ahead := set j | j in a && Before(Position(a[j], j), Position(a[id], id));
    var now := set j | j in b && Before(Position(b[j], j), Position(b[id], id));
    CardinalityOfSubset(ahead, now);
  }

  /** What the listing answers with is the one page of its order. */
  lemma NewestIsAPage(rows: Rows, page: seq<Position>, id: Id)
    requires IsPage(rows, None, Some(LIST_LIMIT), page) && id in rows
    ensures id in Newest(rows) <==> Position(rows[id], id) in page
  {
    var p := Position(rows[id], id);
    var ahead := set j | j in rows && Before(Position(rows[j], j), p);
    assert p in Remaining(rows, None);
    if p in page {
      var k :| 0 <= k < |page| && page[k] == p;
      forall j | j in ahead ensures j in Ids(page[..k]) {
        var q := Position(rows[j], j);
        assert q in Remaining(rows, None) && q in page;
        var i :| 0 <= i < |page| && page[i] == q;
        assert page[..k][i] == q;
      }
      CardinalityOfSubset(ahead, Ids(page[..k]));
      FewIds(page[..k]);
    } else {
      forall q | q in page ensures q.id in ahead { assert q in Remaining(rows, None); }
      forall i, j | 0 <= i < j < |page| ensures page[i].id != page[j].id {
        assert page[i] in page && page[j] in page && Before(page[i], page[j]);
      }
      DistinctIds(page);
      CardinalityOfSubset(Ids(page), ahead);
    }
  }

  lemma {:induction false} FewIds(ps: seq<Position>)
    ensures |Ids(ps)| <= |ps|
  {
    if ps != [] {
      var last := ps[|ps| - 1];
      FewIds(ps[..|ps| - 1]);
      assert Ids(ps) == Ids(ps[..|ps| - 1]) + {last.id} by { assert ps == ps[..|ps| - 1] + [last]; }
    }
  }

  /** Different positions of one table are of different rows. */
  lemma {:induction false} DistinctIds(page: seq<Position>)
    requires forall i, j :: 0 <= i < j < |page| ==> page[i].id != page[j].id
    ensures |Ids(page)| == |page|
  {
    if page != [] {
      var last, init := page[|page| - 1], page[..|page| - 1];
      DistinctIds(init);
      assert page == init + [last];
      assert Ids(page) == Ids(init) + {last.id};
    }
  }

  // ------------------------------------------------------------------ receipts that nobody decides

  /** The receipts a call still has to interrupt. */
  function Todo(pc: Proc): set<OpId> {
    match pc
    case StopCommands(_, _, todo) => todo
    case SweepGet(todo) => todo
    case SweepCheck(todo, _) => todo
    case SweepCommands(todo) => todo
    case _ => {}
  }

  predicate Handles(pc: Proc, id: OpId) { Writing(pc) == Some(id) || id in Todo(pc) }

  /** Running behind too many newer receipts, with no call at work on it. */
  ghost predicate Stuck(s: State, id: OpId) {
    && id in s.receipts && s.receipts[id] == Running && id in s.stamps && Rank(s.stamps, id) >= LIST_LIMIT
    && forall p :: p in s.procs ==> !Handles(s.procs[p], id)
  }

  ghost predicate StaysStuck(s: State, id: OpId) { Stuck(s, id) && Stamped(s) }

  /** What a call that does not handle a running receipt, and would not list it, does not do. */
  predicate LeavesAlone(s: State, m: Move, id: OpId) {
    id in m.s.receipts && m.s.receipts[id] == Running && !Handles(m.pc, id)
  }

  lemma ExecuteLeavesAlone(s: State, p: Pid, o: Oracle, pc: Proc, id: OpId)
    requires id in s.receipts && s.receipts[id] == Running && !Handles(pc, id)
    requires InExecute(pc) && ExecuteStep(s, p, o, pc).Some?
    ensures LeavesAlone(s, ExecuteStep(s, p, o, pc).value, id)
  {
  }

  lemma ListingLeavesAlone(s: State, p: Pid, o: Oracle, pc: Proc, id: OpId)
    requires id in s.receipts && s.receipts[id] == Running && id !in Unfinished(s)
    requires (pc.StopList? || pc.SweepList?) && Advance(s, p, o, pc).Some?
    ensures LeavesAlone(s, Advance(s, p, o, pc).value, id)
  {
  }

  lemma StopLeavesAlone(s: State, p: Pid, o: Oracle, pc: Proc, id: OpId)
    requires id in s.receipts && s.receipts[id] == Running && !Handles(pc, id)
    requires InStop(pc) && !pc.StopList? && StopStep(s, p, o, pc).Some?
    ensures LeavesAlone(s, StopStep(s, p, o, pc).value, id)
  {
  }

  lemma SweepLeavesAlone(s: State, p: Pid, o: Oracle, pc: Proc, id: OpId)
    requires id in s.receipts && s.receipts[id] == Running && !Handles(pc, id)
    requires InSweep(pc) && !pc.SweepList? && SweepStep(s, p, o, pc).Some?
    ensures LeavesAlone(s, SweepStep(s, p, o, pc).value, id)
  {
  }

  lemma OthersLeaveAlone(s: State, p: Pid, o: Oracle, pc: Proc, id: OpId)
    requires id in s.receipts && s.receipts[id] == Running && !Handles(pc, id)
    requires !InExecute(pc) && !InStop(pc) && !InSweep(pc) && Advance(s, p, o, pc).Some?
    ensures LeavesAlone(s, Advance(s, p, o, pc).value, id)
  {
  }

  lemma WorkLeavesAlone(s: State, p: Pid, o: Oracle, pc: Proc, id: OpId)
    requires id in s.receipts && s.receipts[id] == Running && !Handles(pc, id)
    requires !pc.StopList? && !pc.SweepList? && Advance(s, p, o, pc).Some?
    ensures LeavesAlone(s, Advance(s, p, o, pc).value, id)
  {
    if InExecute(pc) { ExecuteLeavesAlone(s, p, o, pc, id); }
    else if InStop(pc) { StopLeavesAlone(s, p, o, pc, id); }
    else if InSweep(pc) { SweepLeavesAlone(s, p, o, pc, id); }
    else { OthersLeaveAlone(s, p, o, pc, id); }
  }

  lemma StuckMove(s: State, p: Pid, o: Oracle, id: OpId)
    requires StaysStuck(s, id) && p in s.procs && Advance(s, p, o, s.procs[p]).Some?
    ensures LeavesAlone(s, Advance(s, p, o, s.procs[p]).value, id)
  {
    if s.procs[p].StopList? || s.procs[p].SweepList? {
      assert id !in Unfinished(s);
      ListingLeavesAlone(s, p, o, s.procs[p], id);
    } else {
      WorkLeavesAlone(s, p, o, s.procs[p], id);
    }
  }

  lemma HandlesNoMore(pc: Proc, id: OpId)
    requires !Handles(pc, id)
    ensures Thrown(pc).Some? ==> !Handles(Thrown(pc).value, id)
    ensures LostAfter(pc).Some? ==> !Handles(LostAfter(pc).value, id)
  {
  }

  /** After a step of `p` to `pc`, or of nobody, the receipt is as stuck as it was. */
  lemma StuckAt(s: State, t: State, p: Pid, pc: Proc, id: OpId)
    requires StaysStuck(s, id) && Stamped(t) && StampMove(s, t) && id in t.receipts && t.receipts[id] == Running
    requires t.procs == s.procs || (t.procs == s.procs[p := pc] && !Handles(pc, id))
    ensures StaysStuck(t, id)
  {
    RankGrows(s.stamps, t.stamps, id);
  }

  lemma StepKeepsStuck(s: State, e: Event, id: OpId)
    requires StaysStuck(s, id) && Next(s, e).Some?
    ensures StaysStuck(Next(s, e).value, id)
  {
    var t := Next(s, e).value;
    StepStamps(s, e);
    match e
    case Go(p, o) =>
      StuckMove(s, p, o, id);
      StuckAt(s, t, p, Advance(s, p, o, s.procs[p]).value.pc, id);
    case Lose(p, o) =>
      StuckMove(s, p, o, id);
      HandlesNoMore(s.procs[p], id);
      StuckAt(s, t, p, LostAfter(s.procs[p]).value, id);
    case Throw(p) =>
      HandlesNoMore(s.procs[p], id);
      StuckAt(s, t, p, Thrown(s.procs[p]).value, id);
    case Begin(p, entry) => StuckAt(s, t, p, entry, id);
    case Tick(_) => StuckAt(s, t, 0, Finished(true), id);
  }

  /** Some continuation decides the receipt. */
  ghost predicate CanBeDecided(s: State, id: OpId) {
    exists after :: Exec(Next, s, after).Some? && var t := Exec(Next, s, after).value; id in t.receipts && t.receipts[id] != Running
  }

  lemma StuckIsNeverDecided(s: State, id: OpId)
    requires StaysStuck(s, id)
    ensures !CanBeDecided(s, id)
  {
    forall t: State, e: Event | StaysStuck(t, id) && Next(t, e).Some? ensures StaysStuck(Next(t, e).value, id) {
      StepKeepsStuck(t, e, id);
    }
    forall after | Exec(Next, s, after).Some?
      ensures id in Exec(Next, s, after).value.receipts && Exec(Next, s, after).value.receipts[id] == Running
    {
      InvariantOfRuns(Next, t => StaysStuck(t, id), s, after);
    }
  }

  // ------------------------------------------------------------------ receipts that can be decided

  lemma Sweeps(from: State, es: seq<Event>, s: State, p: Pid, o: Oracle, pc: Proc) returns (es': seq<Event>, t: State)
    requires Exec(Next, from, es) == Some(s) && p in s.procs && s.procs[p] == pc && InSweep(pc) && SweepStep(s, p, o, pc).Some?
    ensures Exec(Next, from, es') == Some(t) && t == At(SweepStep(s, p, o, pc).value.s, p, SweepStep(s, p, o, pc).value.pc)
  {
    es', t := ExecThen(Next, from, es, s, Go(p, o));
  }

  lemma SweepingDecides(from: State, es: seq<Event>, s: State, p: Pid, todo: set<OpId>, id: OpId)
    requires Exec(Next, from, es) == Some(s) && id in s.receipts && p in s.procs
    requires s.procs[p] == SweepCommands(todo) && id in todo
    ensures CanBeDecided(from, id)
  {
    var es', t := Sweeps(from, es, s, p, PLAINLY.(id := id), SweepCommands(todo));
    assert Exec(Next, from, es') == Some(t);
  }

  /** However long the lease that was read still had to go, the sweep may look at the clock later. */
  lemma CheckingDecides(from: State, es: seq<Event>, s: State, p: Pid, todo: set<OpId>, lease: Option<Lease>, id: OpId)
    requires Exec(Next, from, es) == Some(s) && id in s.receipts && p in s.procs
    requires s.procs[p] == SweepCheck(todo, lease) && id in todo
    ensures CanBeDecided(from, id)
  {
    var es', t := ExecThen(Next, from, es, s, Tick(if lease.Some? then lease.value.expiresAt else 0));
    es', t := Sweeps(from, es', t, p, PLAINLY, SweepCheck(todo, lease));
    SweepingDecides(from, es', t, p, todo, id);
  }

  lemma ReadingDecides(from: State, es: seq<Event>, s: State, p: Pid, todo: set<OpId>, id: OpId)
    requires Exec(Next, from, es) == Some(s) && id in s.receipts && p in s.procs
    requires s.procs[p] == SweepGet(todo) && id in todo
    ensures CanBeDecided(from, id)
  {
    var es', t := Sweeps(from, es, s, p, PLAINLY, SweepGet(todo));
    CheckingDecides(from, es', t, p, todo, s.lease, id);
  }

  /** A sweep begun now lists the receipt. */
  lemma ListingDecides(s: State, id: OpId)
    requires Stamped(s) && id in s.receipts && s.receipts[id] == Running && Rank(s.stamps, id) < LIST_LIMIT
    ensures CanBeDecided(s, id)
  {
    var p := Unused(s.procs.Keys);
    var es, t := ExecThen(Next, s, [], s, Begin(p, SweepList));
    es, t := Sweeps(s, es, t, p, PLAINLY, SweepList);
    assert id in Newest(s.stamps) && id in Unfinished(s);
    ReadingDecides(s, es, t, p, Unfinished(s), id);
  }

  lemma StoppingDecides(s: State, p: Pid, id: OpId)
    requires id in s.receipts && p in s.procs && s.procs[p].StopCommands? && id in s.procs[p].todo
    ensures CanBeDecided(s, id)
  {
    var es, t := ExecThen(Next, s, [], s, Go(p, PLAINLY.(id := id)));
    assert Exec(Next, s, es) == Some(t);
  }

  /** How far a command is from the end of its bookkeeping. */
  function Distance(pc: Proc): nat {
    match pc
    case ReadActive(_, _) => 7
    case CheckActive(_, _, _) => 6
    case DockerExec(_, _) => 5
    case Cleanup(_, _, _) => 4
    case CleanupDocker(_, _, _, _) => 3
    case CleanupConfirm(_, _, _, _) => 2
    case CleanupRollback(_, _, _, _, _) => 2
    case _ => 1
  }

  lemma WriterStep(s: State, p: Pid, pc: Proc, id: OpId)
    requires id in s.receipts && s.receipts[id] == Running && Writing(pc) == Some(id) && !pc.SaveInterrupted?
    ensures Advance(s, p, PLAINLY, pc).Some?
    ensures var m := Advance(s, p, PLAINLY, pc).value;
            && id in m.s.receipts
            && (m.s.receipts[id] == Running ==>
                  Writing(m.pc) == Some(id) && !m.pc.SaveInterrupted? && Distance(m.pc) < Distance(pc))
  {
  }

  /** The command that saved the receipt ends. */
  lemma {:induction false} WriterDecides(from: State, es: seq<Event>, s: State, p: Pid, id: OpId)
    requires Exec(Next, from, es) == Some(s) && id in s.receipts && p in s.procs
    requires Writing(s.procs[p]) == Some(id) && !s.procs[p].SaveInterrupted?
    ensures CanBeDecided(from, id)
    decreases Distance(s.procs[p])
  {
    if s.receipts[id] == Running {
      WriterStep(s, p, s.procs[p], id);
      var es', t := ExecThen(Next, from, es, s, Go(p, PLAINLY));
      if t.receipts[id] == Running { WriterDecides(from, es', t, p, id); }
    }
  }

  lemma HandlerDecides(s: State, p: Pid, id: OpId)
    requires Receipts(s) && id in s.receipts && s.receipts[id] == Running && p in s.procs && Handles(s.procs[p], id)
    ensures CanBeDecided(s, id)
  {
    assert WriterInv(s, p, s.procs[p]);
    match s.procs[p]
    case StopCommands(_, _, _) => StoppingDecides(s, p, id);
    case SweepGet(todo) => ReadingDecides(s, [], s, p, todo, id);
    case SweepCheck(todo, lease) => CheckingDecides(s, [], s, p, todo, lease, id);
    case SweepCommands(todo) => SweepingDecides(s, [], s, p, todo, id);
    case _ => WriterDecides(s, [], s, p, id);
  }

  /** In every reachable state: a receipt that is running can still be decided exactly if a listing answers with
      it, or its own command, a sweep or a Stop is at work on it. */
  lemma RunningForEverExactly(es: seq<Event>, s: State, id: OpId)
    requires Exec(Next, START, es) == Some(s) && id in s.receipts && s.receipts[id] == Running
    ensures CanBeDecided(s, id) <==> !Stuck(s, id)
  {
    StampsOfRuns(es);
    ReceiptsOfRuns(es);
    if Stuck(s, id) {
      StuckIsNeverDecided(s, id);
    } else if Rank(s.stamps, id) < LIST_LIMIT {
      ListingDecides(s, id);
    } else {
      var p :| p in s.procs && Handles(s.procs[p], id);
      HandlerDecides(s, p, id);
    }
  }
}
