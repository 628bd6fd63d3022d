/** A run that leaves a command receipt running for ever: its call ends with an error right after it saved the
    receipt, and as many commands as a listing answers with follow and succeed. */
module ComputerBacklog {
  import opened Runs
  import opened ComputerLease
  import opened ComputerSweeps
  import opened Paging

  lemma Acquires(es: seq<Event>, s: State, p: Pid, o: Oracle, pc: Proc) returns (es': seq<Event>, t: State)
    requires Exec(Next, START, es) == Some(s) && p in s.procs && s.procs[p] == pc && InAcquire(pc) && AcquireStep(s, p, o, pc).Some?
    ensures Exec(Next, START, es') == Some(t) && t == At(AcquireStep(s, p, o, pc).value.s, p, AcquireStep(s, p, o, pc).value.pc)
  {
    es', t := ExecThen(Next, START, es, s, Go(p, o));
  }

  lemma Executes(es: seq<Event>, s: State, p: Pid, pc: Proc) returns (es': seq<Event>, t: State)
    requires Exec(Next, START, es) == Some(s) && p in s.procs && s.procs[p] == pc && InExecute(pc) && ExecuteStep(s, p, PLAINLY, pc).Some?
    ensures Exec(Next, START, es') == Some(t) && t == At(ExecuteStep(s, p, PLAINLY, pc).value.s, p, ExecuteStep(s, p, PLAINLY, pc).value.pc)
  {
    es', t := ExecThen(Next, START, es, s, Go(p, PLAINLY));
  }

  lemma Releases(es: seq<Event>, s: State, p: Pid, pc: Proc) returns (es': seq<Event>, t: State)
    requires Exec(Next, START, es) == Some(s) && p in s.procs && s.procs[p] == pc && InRelease(pc) && ReleaseStep(s, p, PLAINLY, pc).Some?
    ensures Exec(Next, START, es') == Some(t) && t == At(ReleaseStep(s, p, PLAINLY, pc).value.s, p, ReleaseStep(s, p, PLAINLY, pc).value.pc)
  {
    es', t := ExecThen(Next, START, es, s, Go(p, PLAINLY));
  }

  /** The receipts and the clock are as they were, and so is every call but `p`. */
  predicate OnlyAt(s: State, t: State, p: Pid, pc: Proc) {
    t.receipts == s.receipts && t.stamps == s.stamps && t.now == s.now && t.procs == s.procs[p := pc]
  }

  predicate Free(l: Option<Lease>) { l.None? || l.value.expiresAt == 0 }

  /** A new command finds the lease free. */
  lemma Enters(es: seq<Event>, s: State, id: OpId) returns (es': seq<Event>, t: State, p: Pid)
    requires Exec(Next, START, es) == Some(s) && Free(s.lease) && id !in s.receipts
    ensures Exec(Next, START, es') == Some(t) && p !in s.procs
    ensures OnlyAt(s, t, p, AcquireCheck(Command(id), s.lease)) && t.lease == s.lease && t.nextId == s.nextId
  {
    p := Unused(s.procs.Keys);
    es', t := ExecThen(Next, START, es, s, Begin(p, LookUp(id)));
    es', t := Executes(es', t, p, LookUp(id));
    es', t := Acquires(es', t, p, PLAINLY, AcquireGet(Command(id)));
    assert t.procs == s.procs[p := t.procs[p]];
  }

  lemma TakesTheLease(es: seq<Event>, s: State, id: OpId) returns (es': seq<Event>, t: State, p: Pid, token: nat)
    requires Exec(Next, START, es) == Some(s) && Free(s.lease) && id !in s.receipts
    ensures Exec(Next, START, es') == Some(t) && p !in s.procs && OnlyAt(s, t, p, Prepare(token, id))
    ensures t.lease == Some(NewLease(token, s.now, Command(id)))
  {
    es', t, p := Enters(es, s, id);
    token := s.nextId;
    var o, mine := PLAINLY.(stamp := s.now), NewLease(token, s.now, Command(id));
    es', t := Acquires(es', t, p, o, AcquireCheck(Command(id), s.lease));
    es', t := Acquires(es', t, p, o, AcquireClaim(Command(id), s.lease, mine));
    assert t.procs == s.procs[p := Prepare(token, id)];
  }

  /** ... saves its receipt ... */
  lemma SavesReceipt(es: seq<Event>, s: State, id: OpId) returns (es': seq<Event>, t: State, p: Pid, token: nat)
    requires Exec(Next, START, es) == Some(s) && Free(s.lease) && id !in s.receipts
    ensures Exec(Next, START, es') == Some(t) && p !in s.procs && OnlyAt(SetReceipt(s, id, Running), t, p, ReadActive(token, id))
    ensures t.lease == Some(NewLease(token, s.now, Command(id)))
  {
    es', t, p, token := TakesTheLease(es, s, id);
    es', t := Executes(es', t, p, Prepare(token, id));
    es', t := Executes(es', t, p, Insert(token, id));
    assert t.procs == s.procs[p := ReadActive(token, id)];
  }

  /** ... runs ... */
  lemma RunsUnder(es: seq<Event>, s: State, p: Pid, l: Lease, id: OpId) returns (es': seq<Event>, t: State)
    requires Exec(Next, START, es) == Some(s) && p in s.procs && s.procs[p] == ReadActive(l.token, id)
    requires s.lease == Some(l) && l.expiresAt > s.now && !l.stopping
    ensures Exec(Next, START, es') == Some(t) && OnlyAt(s, t, p, Save(l.token, id, PLAINLY.result)) && t.lease == s.lease
  {
    es', t := Executes(es, s, p, ReadActive(l.token, id));
    es', t := Executes(es', t, p, CheckActive(l.token, id, Some(l)));
    es', t := Executes(es', t, p, DockerExec(l.token, id));
    assert t.procs == s.procs[p := Save(l.token, id, PLAINLY.result)];
  }

  /** ... and succeeds ... */
  lemma Succeeds(es: seq<Event>, s: State, id: OpId) returns (es': seq<Event>, t: State, p: Pid, token: nat)
    requires Exec(Next, START, es) == Some(s) && Free(s.lease) && id !in s.receipts
    ensures Exec(Next, START, es') == Some(t) && p !in s.procs && OnlyAt(SetReceipt(s, id, Succeeded), t, p, MarkDone(token, true))
    ensures t.lease == Some(NewLease(token, s.now, Command(id)))
  {
    es', t, p, token := SavesReceipt(es, s, id);
    var saved := t;
    es', t := RunsUnder(es', t, p, NewLease(token, s.now, Command(id)), id);
    var ran := t;
    es', t := Records(es', t, p, token, id);
    WritesTwice(s, saved, ran, t, p, id, ReadActive(token, id), Save(token, id, PLAINLY.result), MarkDone(token, true));
  }

  lemma Records(es: seq<Event>, s: State, p: Pid, token: nat, id: OpId) returns (es': seq<Event>, t: State)
    requires Exec(Next, START, es) == Some(s) && p in s.procs && s.procs[p] == Save(token, id, PLAINLY.result)
    requires id in s.receipts && s.receipts[id] == Running
    ensures Exec(Next, START, es') == Some(t) && OnlyAt(SetReceipt(s, id, Succeeded), t, p, MarkDone(token, true)) && t.lease == s.lease
  {
    es', t := Executes(es, s, p, Save(token, id, PLAINLY.result));
  }

  /** At one moment, only the second of two writes shows. */
  lemma WritesTwice(s: State, saved: State, ran: State, t: State, p: Pid, id: OpId, first: Proc, second: Proc, third: Proc)
    requires OnlyAt(SetReceipt(s, id, Running), saved, p, first) && OnlyAt(saved, ran, p, second)
    requires OnlyAt(SetReceipt(ran, id, Succeeded), t, p, third)
    ensures OnlyAt(SetReceipt(s, id, Succeeded), t, p, third)
  {
    assert s.receipts[id := Running][id := Succeeded] == s.receipts[id := Succeeded];
    assert s.stamps[id := s.now][id := s.now] == s.stamps[id := s.now];
    assert s.procs[p := first][p := second][p := third] == s.procs[p := third];
  }

  /** ... and gives the lease up. */
  lemma Leaves(es: seq<Event>, s: State, p: Pid, token: nat, ok: bool) returns (es': seq<Event>, t: State)
    requires Exec(Next, START, es) == Some(s) && p in s.procs && s.procs[p] == MarkDone(token, ok)
    requires s.lease.Some? && s.lease.value.token == token && !s.lease.value.stopping
    ensures Exec(Next, START, es') == Some(t) && OnlyAt(s, t, p, Finished(ok)) && Free(t.lease)
  {
    es', t := Releases(es, s, p, MarkDone(token, ok));
    es', t := Releases(es', t, p, Release(token, true, ok));
    es', t := Releases(es', t, p, ReleaseStopped(token, ok));
    assert t.procs == s.procs[p := Finished(ok)];
  }

  /** Receipt 0 is running, the later ones up to `n` are newer, and every call is through. */
  ghost predicate Backlog(s: State, n: nat) {
    && Free(s.lease) && (forall id: OpId :: id in s.receipts <==> id <= n) && (forall id: OpId :: id in s.stamps <==> id <= n)
    && s.receipts[0] == Running && s.stamps[0] < s.now && (forall id: OpId :: 1 <= id <= n ==> s.stamps[id] > s.stamps[0])
    && forall p :: p in s.procs ==> s.procs[p].Finished?
  }

  /** The first command saves its receipt, cannot read the lease, and leaves with that error. */
  lemma FirstFails() returns (es: seq<Event>, s: State)
    ensures Exec(Next, START, es) == Some(s) && Backlog(s, 0)
  {
    var p, token;
    es, s, p, token := FirstThrows();
    es, s := Leaves(es, s, p, token, false);
    es, s := ExecThen(Next, START, es, s, Tick(1));
    AloneIsBacklog(s, p);
  }

  lemma AloneIsBacklog(s: State, p: Pid)
    requires s.receipts == map[0 := Running] && s.stamps == map[0 := 0] && s.now == 1 && Free(s.lease)
    requires forall q :: q in s.procs ==> q == p && s.procs[q].Finished?
    ensures Backlog(s, 0)
  {
  }

  lemma FirstThrows() returns (es: seq<Event>, s: State, p: Pid, token: nat)
    ensures Exec(Next, START, es) == Some(s) && s.procs == map[p := MarkDone(token, false)] && s.now == 0
    ensures s.receipts == map[0 := Running] && s.stamps == map[0 := 0] && s.lease == Some(NewLease(token, 0, Command(0)))
  {
    es, s, p, token := SavesReceipt([], START, 0);
    es, s := ExecThen(Next, START, es, s, Throw(p));
  }

  lemma {:induction false} OthersFollow(n: nat) returns (es: seq<Event>, s: State)
    ensures Exec(Next, START, es) == Some(s) && Backlog(s, n)
  {
    if n == 0 {
      es, s := FirstFails();
    } else {
      es, s := OthersFollow(n - 1);
      var was, p, token := s, 0, 0;
      es, s, p, token := Succeeds(es, s, n);
      es, s := Leaves(es, s, p, token, true);
      BacklogGrows(was, s, p, n);
    }
  }

  lemma BacklogGrows(s: State, t: State, p: Pid, n: nat)
    requires n > 0 && Backlog(s, n - 1) && Free(t.lease) && t.now == s.now
    requires t.receipts == s.receipts[n := Succeeded] && t.stamps == s.stamps[n := s.now]
    requires forall q :: q in t.procs ==> q == p || (q in s.procs && t.procs[q] == s.procs[q])
    requires p in t.procs ==> t.procs[p].Finished?
    ensures Backlog(t, n)
  {
  }

  function UpTo(n: nat): set<OpId> { if n == 0 then {} else UpTo(n - 1) + {n} }

  lemma {:induction false} UpToHolds(n: nat)
    ensures |UpTo(n)| == n && forall i: OpId :: i in UpTo(n) <==> 1 <= i <= n
  {
    if n > 0 { UpToHolds(n - 1); }
  }

  lemma BacklogIsAhead(s: State, n: nat)
    requires Backlog(s, n)
    ensures Rank(s.stamps, 0) >= n
  {
    var ahead := set j | j in s.stamps && Before(Position(s.stamps[j], j), Position(s.stamps[0], 0));
    UpToHolds(n);
    CardinalityOfSubset(UpTo(n), ahead);
  }

  /** A receipt is left running for ever. */
  lemma ForgottenReceiptIsReachable()
    ensures exists es: seq<Event>, id: OpId :: Exec(Next, START, es).Some? && Forgotten(Exec(Next, START, es).value, id)
  {
    var es, s := OthersFollow(LIST_LIMIT);
    BacklogIsAhead(s, LIST_LIMIT);
    NobodyHandles(s, LIST_LIMIT, 0);
    RunningForEverExactly(es, s, 0);
    assert Exec(Next, START, es).Some? && Forgotten(s, 0);
  }

  ghost predicate Forgotten(s: State, id: OpId) { id in s.receipts && s.receipts[id] == Running && !CanBeDecided(s, id) }

  lemma NobodyHandles(s: State, n: nat, id: OpId)
    requires Backlog(s, n) && id <= n && s.receipts[id] == Running && Rank(s.stamps, id) >= LIST_LIMIT
    ensures Stuck(s, id)
  {
  }
}
