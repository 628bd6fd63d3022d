/** Google sign-in as its source writes it (apps/server/src/google-auth.ts): calls that read, swap and update
    one credential record, suspended at every await while other calls run.  Each method is shown to take the
    steps of the credential protocol, so what is proved of the protocol's runs holds for it. */
module GoogleService {
  import opened Runs
  import opened GoogleCredentials

  predicate Of(e: Event, p: Pid) { !e.Tick? && e.p == p }

  /** The history went on, and call `p` in it only by steps of its own and by errors it was handed. */
  ghost predicate Grew(before: seq<Event>, after: seq<Event>, p: Pid) {
    && |before| <= |after| && (forall i :: 0 <= i < |before| ==> after[i] == before[i])
    && forall i :: |before| <= i < |after| && Of(after[i], p) ==> after[i].Go? || after[i].Throw?
  }

  /** Stands for a step that was not taken. */
  const NEVER := Moment(0, START)

  /** The steps an access-token call decided by. */
  datatype Course = Course(read: Moment<State>, decide: Moment<State>, ask: Moment<State>, save: Moment<State>)

  /** The steps a callback decided by. */
  datatype Visit = Visit(
    take: Moment<State>, check: Moment<State>, get: Moment<State>, ask: Moment<State>, previous: Moment<State>, save: Moment<State>)

  /** After `since`, call `p` took a step from `pc` at this moment. */
  ghost predicate Seen(h: seq<Event>, since: nat, p: Pid, m: Moment<State>, pc: Proc) {
    since <= m.k && Occurs(Next, START, h, m) && h[m.k].Go? && h[m.k].p == p && p in m.s.procs && m.s.procs[p] == pc
  }

  lemma SeenStays(before: seq<Event>, after: seq<Event>, since: nat, since': nat, p: Pid, m: Moment<State>, pc: Proc)
    requires Seen(before, since, p, m, pc) && since' <= since
    requires |before| <= |after| && forall i :: 0 <= i < |before| ==> after[i] == before[i]
    ensures Seen(after, since', p, m, pc) && after[m.k] == before[m.k]
  {
    OccursStays(Next, START, before, after, m);
  }

  /** After `since`, an awaited call of `p` failed. */
  ghost predicate Threw(h: seq<Event>, since: nat, p: Pid) { exists k :: since <= k < |h| && h[k] == Throw(p) }

  ghost predicate Extends(before: seq<Change>, after: seq<Change>) {
    |before| <= |after| && (forall i :: 0 <= i < |before| ==> after[i] == before[i])
  }

  lemma AdvanceExtends(a: State, p: Pid, answer: Answer, pc: Proc)
    requires Advance(a, p, answer, pc).Some?
    ensures Extends(a.log, Advance(a, p, answer, pc).value.s.log)
  {
  }

  lemma StepExtends(a: State, e: Event)
    requires Next(a, e).Some?
    ensures Extends(a.log, Next(a, e).value.log)
  {
    RecordsOfStep(a, e);
    if e.Go? || e.Lose? { AdvanceExtends(a, e.p, e.answer, a.procs[e.p]); }
  }

  /** As the history goes on, so does the log. */
  lemma LogExtends(before: seq<Event>, s: State, after: seq<Event>, t: State)
    requires Exec(Next, START, before) == Some(s) && Exec(Next, START, after) == Some(t)
    requires |before| <= |after| && forall i :: 0 <= i < |before| ==> after[i] == before[i]
    ensures Extends(s.log, t.log)
  {
    assert after == before + after[|before|..];
    ExecAppend(Next, START, before, after[|before|..]);
    forall u: State, e: Event | Extends(s.log, u.log) && Next(u, e).Some? ensures Extends(s.log, Next(u, e).value.log) {
      StepExtends(u, e);
    }
    InvariantOfRuns(Next, (u: State) => Extends(s.log, u.log), s, after[|before|..]);
  }

  predicate SameRecords(a: State, b: State) {
    a.credential == b.credential && a.oauth == b.oauth && a.refreshing == b.refreshing && a.nextId == b.nextId && a.now == b.now
  }

  function SecretOf(c: Option<Credential>): Option<Tokens> { if c.Some? then c.value.secret else None }

  /** Where a thrown error takes a call. */
  function Catch(pc: Proc): Proc {
    if pc.RefreshFetch? || pc.RefreshUpdate? then RefreshEnd(pc.tokens.connectionId, false) else Finished(false)
  }

  predicate MayThrow(pc: Proc) { !pc.Finished? && !pc.RefreshEnd? && !pc.AccessDecide? && !pc.CallbackCheck? }

  /** One owner's credential, the pending sign-ins, and the other calls.  `budget` is how often the others
      will still change the credential: the loop of `rotateGeneration` ends because they do not for ever. */
  class GoogleAuth {
    var s: State
    ghost var history: seq<Event>
    var budget: nat

    ghost predicate Valid() reads this { Exec(Next, START, history) == Some(s) }

    ghost predicate At(p: Pid, pc: Proc) reads this { Valid() && p in s.procs && s.procs[p] == pc }

    constructor (budget: nat)
      ensures Valid() && s == START
    {
      s, history, this.budget := START, [], budget;
    }

    // ---------------------------------------------------------------- the environment

    lemma OthersStay(a: State, e: Event, p: Pid)
      requires p in a.procs && !Of(e, p)
      ensures Next(a, e).Some? ==> p in Next(a, e).value.procs && Next(a, e).value.procs[p] == a.procs[p]
    {
    }

    method Other(p: Pid, ghost pc: Proc, e: Event)
      requires At(p, pc) && !Of(e, p)
      modifies this
      ensures Grew(old(history), history, p)
      ensures At(p, pc) && budget <= old(budget)
      ensures s.credential != old(s).credential ==> budget < old(budget)
    {
      OthersStay(s, e, p);
      var next := Next(s, e);
      if next.Some? && (next.value.credential == s.credential || budget > 0) {
        if next.value.credential != s.credential { budget := budget - 1; }
        ExecSnoc(Next, START, history, e);
        s, history := next.value, history + [e];
      }
    }

    /** An await: other calls and the clock go on. */
    method Yield(p: Pid, ghost pc: Proc)
      requires At(p, pc)
      modifies this
      ensures Grew(old(history), history, p)
      ensures At(p, pc) && budget <= old(budget)
      ensures s.credential != old(s).credential ==> budget < old(budget)
    {
      var others: seq<Event> := *;
      for i := 0 to |others|
        invariant Grew(old(history), history, p)
        invariant At(p, pc) && budget <= old(budget)
        invariant s.credential != old(s).credential ==> budget < old(budget)
      {
        if !Of(others[i], p) { Other(p, pc, others[i]); }
      }
    }

    /** An await whose call fails without effect. */
    method Throws(p: Pid, ghost pc: Proc) returns (thrown: bool)
      requires At(p, pc) && MayThrow(pc)
      modifies this
      ensures Grew(old(history), history, p)
      ensures At(p, if thrown then Catch(pc) else pc) && budget <= old(budget)
      ensures thrown ==> Threw(history, |old(history)|, p)
      ensures s.credential != old(s).credential ==> budget < old(budget)
    {
      Yield(p, pc);
      thrown := *;
      if thrown {
        ExecSnoc(Next, START, history, Throw(p));
        s, history := Next(s, Throw(p)).value, history + [Throw(p)];
        assert history[|history| - 1] == Throw(p);
      }
    }

    method RandomUUID() returns (id: nat)
      modifies this`s
      ensures id == old(s).nextId && s == old(s).(nextId := id + 1)
    {
      id := s.nextId;
      s := s.(nextId := id + 1);
    }

    method AskGoogle() returns (answer: Answer)
      ensures answer.Refused? || answer.Granted?
    {
      var granted: bool := *;
      var grant: Grant := *;
      answer := if granted then Granted(grant) else Refused;
    }

    // ---------------------------------------------------------------- the store

    method InsertCredential(c: Credential) returns (hit: bool)
      modifies this`s
      ensures hit <==> old(s).credential.None?
      ensures s == if hit then old(s).(credential := Some(c)) else old(s)
    {
      hit := s.credential.None?;
      if hit { s := s.(credential := Some(c)); }
    }

    /** Swap on the whole record. */
    method SwapCredential(expected: Credential, to: Credential) returns (hit: bool)
      modifies this`s
      ensures hit <==> old(s).credential == Some(expected)
      ensures s == if hit then old(s).(credential := Some(to)) else old(s)
    {
      hit := s.credential == Some(expected);
      if hit { s := s.(credential := Some(to)); }
    }

    /** Swap on the generation alone. */
    method SwapGeneration(generation: nat, to: Credential) returns (hit: bool)
      modifies this`s
      ensures hit <==> old(s).credential.Some? && old(s).credential.value.generation == generation
      ensures s == if hit then old(s).(credential := Some(to)) else old(s)
    {
      hit := s.credential.Some? && s.credential.value.generation == generation;
      if hit { s := s.(credential := Some(to)); }
    }

    /** `save`: tokens under a fresh generation, over the one that is expected. */
    method StoreTokens(expected: nat, tokens: Tokens) returns (hit: bool)
      modifies this`s
      ensures hit <==> old(s).credential.Some? && old(s).credential.value.generation == expected
      ensures s == if hit then old(s).(credential := Some(Credential(old(s).nextId, Some(tokens.connectionId), Some(tokens))),
                                       nextId := old(s).nextId + 1)
                   else old(s)
    {
      var generation := s.nextId;
      hit := SwapGeneration(expected, Credential(generation, Some(tokens.connectionId), Some(tokens)));
      if hit { generation := RandomUUID(); }
    }

    /** `updateCredential`: the secret of the record that still has this connection. */
    method UpdateCredential(connectionId: nat, secret: Tokens) returns (hit: bool)
      modifies this`s
      ensures hit <==> old(s).credential.Some? && old(s).credential.value.connectionId == Some(connectionId)
      ensures s == if hit then old(s).(credential := Some(old(s).credential.value.(secret := Some(secret)))) else old(s)
    {
      hit := s.credential.Some? && s.credential.value.connectionId == Some(connectionId);
      if hit { s := s.(credential := Some(s.credential.value.(secret := Some(secret)))); }
    }

    // ---------------------------------------------------------------- steps

    /** The call has done to the records what its next step does, and stands at its next await. */
    method Arrive(p: Pid, answer: Answer, before: State, ghost m: Move)
      requires Exec(Next, START, history) == Some(before) && p in before.procs
      requires Advance(before, p, answer, before.procs[p]) == Some(m) && SameRecords(m.s, s)
      modifies this`s, this`history
      ensures history == old(history) + [Go(p, answer)]
      ensures At(p, m.pc) && SameRecords(s, old(s)) && s.log == m.s.log
    {
      ExecSnoc(Next, START, history, Go(p, answer));
      s, history := Next(before, Go(p, answer)).value, history + [Go(p, answer)];
    }

    method ArriveRotate(p: Pid, before: State, ghost here: Proc, ghost there: Proc)
      requires Exec(Next, START, history) == Some(before) && p in before.procs && before.procs[p] == here && InRotate(here)
      requires var m := RotateStep(before, p, here); m.Some? && SameRecords(m.value.s, s) && m.value.pc == there
      modifies this`s, this`history
      ensures history == old(history) + [Go(p, Refused)]
      ensures At(p, there) && SameRecords(s, old(s))
      ensures s.log == RotateStep(before, p, here).value.s.log
    {
      Arrive(p, Refused, before, RotateStep(before, p, here).value);
    }

    method ArriveCallback(p: Pid, answer: Answer, before: State, ghost here: Proc, ghost there: Proc)
      requires Exec(Next, START, history) == Some(before) && p in before.procs && before.procs[p] == here && InCallback(here)
      requires var m := CallbackStep(before, p, answer, here); m.Some? && SameRecords(m.value.s, s) && m.value.pc == there
      modifies this`s, this`history
      ensures history == old(history) + [Go(p, answer)]
      ensures At(p, there) && SameRecords(s, old(s))
      ensures s.log == CallbackStep(before, p, answer, here).value.s.log
      ensures Seen(history, |old(history)|, p, Moment(|old(history)|, before), here)
    {
      Arrive(p, answer, before, CallbackStep(before, p, answer, here).value);
      assert history[..|old(history)|] == old(history);
    }

    method ArriveAccess(p: Pid, answer: Answer, before: State, ghost here: Proc, ghost there: Proc)
      requires Exec(Next, START, history) == Some(before) && p in before.procs && before.procs[p] == here
      requires here.AccessGet? || here.AccessDecide? || here.Join? || here.RefreshFetch? || here.RefreshUpdate? || here.RefreshEnd?
      requires var m := AccessStep(before, p, answer, here); m.Some? && SameRecords(m.value.s, s) && m.value.pc == there
      modifies this`s, this`history
      ensures history == old(history) + [Go(p, answer)]
      ensures At(p, there) && SameRecords(s, old(s))
      ensures s.log == AccessStep(before, p, answer, here).value.s.log
      ensures Seen(history, |old(history)|, p, Moment(|old(history)|, before), here)
    {
      Arrive(p, answer, before, AccessStep(before, p, answer, here).value);
      assert history[..|old(history)|] == old(history);
    }

    // ---------------------------------------------------------------- connect and disconnect

    /** One pass of the loop in `rotateGeneration`; without a hit, the others changed the record. */
    method RotateOnce(p: Pid, generation: nat, disconnect: bool, ghost stateId: nat)
      returns (thrown: bool, hit: bool, previous: Option<Credential>)
      requires At(p, RotateGet(generation, disconnect, stateId))
      modifies this
      ensures Grew(old(history), history, p)
      ensures thrown ==> At(p, Finished(false)) && Threw(history, |old(history)|, p)
      ensures !thrown && !hit ==> At(p, RotateGet(generation, disconnect, stateId)) && budget < old(budget)
      ensures !thrown && hit ==> Rotated(p, generation, disconnect, stateId, previous)
    {
      previous, hit := None, false;
      thrown := Throws(p, RotateGet(generation, disconnect, stateId));
      if !thrown {
        previous := s.credential;
        ArriveRotate(p, s, RotateGet(generation, disconnect, stateId), RotateSwap(generation, disconnect, stateId, previous));
        thrown, hit := RotateOver(p, generation, disconnect, stateId, previous);
      }
    }

    /** Without a hit, the others changed the record since it was read. */
    method RotateOver(p: Pid, generation: nat, disconnect: bool, ghost stateId: nat, previous: Option<Credential>)
      returns (thrown: bool, hit: bool)
      requires At(p, RotateSwap(generation, disconnect, stateId, previous)) && previous == s.credential
      modifies this
      ensures Grew(old(history), history, p)
      ensures thrown ==> At(p, Finished(false)) && Threw(history, |old(history)|, p)
      ensures !thrown && !hit ==> At(p, RotateGet(generation, disconnect, stateId)) && budget < old(budget)
      ensures !thrown && hit ==> Rotated(p, generation, disconnect, stateId, previous)
    {
      thrown := Throws(p, RotateSwap(generation, disconnect, stateId, previous));
      hit := false;
      if !thrown { hit := RotateRecord(p, generation, disconnect, stateId, previous); }
    }

    method RotateRecord(p: Pid, generation: nat, disconnect: bool, ghost stateId: nat, previous: Option<Credential>)
      returns (hit: bool)
      requires At(p, RotateSwap(generation, disconnect, stateId, previous))
      modifies this`s, this`history
      ensures Grew(old(history), history, p)
      ensures hit <==> old(s).credential == previous
      ensures if hit then Rotated(p, generation, disconnect, stateId, previous)
              else At(p, RotateGet(generation, disconnect, stateId))
    {
      var before := s;
      if previous.None? {
        hit := InsertCredential(Credential(generation, None, None));
      } else {
        hit := SwapCredential(previous.value,
                              if disconnect then Credential(generation, None, None)
                              else previous.value.(generation := generation));
      }
      ArriveRotate(p, before, RotateSwap(generation, disconnect, stateId, previous),
                   if !hit then RotateGet(generation, disconnect, stateId)
                   else if disconnect then Revoke(SecretOf(previous)) else ConnectPut(generation, stateId));
    }

    /** The call has just put its generation over `previous`. */
    ghost predicate Rotated(p: Pid, generation: nat, disconnect: bool, stateId: nat, previous: Option<Credential>)
      reads this
    {
      && At(p, if disconnect then Revoke(SecretOf(previous)) else ConnectPut(generation, stateId))
      && s.credential == Some(if disconnect || previous.None? then Credential(generation, None, None)
                              else previous.value.(generation := generation))
      && s.log != []
      && s.log[|s.log| - 1] == (if disconnect then Disconnected(generation, SecretOf(previous)) else Connected(generation))
    }

    /** Installs the generation over whatever record is there, and hands back that record. */
    method RotateGeneration(p: Pid, generation: nat, disconnect: bool, ghost stateId: nat)
      returns (thrown: bool, previous: Option<Credential>)
      requires At(p, RotateGet(generation, disconnect, stateId))
      modifies this
      ensures Grew(old(history), history, p)
      ensures if thrown then At(p, Finished(false)) else Rotated(p, generation, disconnect, stateId, previous)
      ensures thrown ==> Threw(history, |old(history)|, p)
    {
      while true
        invariant Grew(old(history), history, p)
        invariant At(p, RotateGet(generation, disconnect, stateId))
        decreases budget
      {
        var hit;
        thrown, hit, previous := RotateOnce(p, generation, disconnect, stateId);
        if thrown || hit { return; }
      }
    }

    /** A connect that ends well has put its generation into the record, and then its state. */
    method Connect(p: Pid, generation: nat, stateId: nat) returns (ok: bool)
      requires At(p, RotateGet(generation, false, stateId))
      modifies this
      ensures Grew(old(history), history, p)
      ensures At(p, Finished(ok))
      ensures ok ==> stateId in s.oauth && s.oauth[stateId] == OAuthState(s.now + 10 * 60 * 1000, generation)
      ensures ok ==> Connected(generation) in s.log
      ensures !ok ==> Threw(history, |old(history)|, p)
    {
      var thrown, previous := RotateGeneration(p, generation, false, stateId);
      if thrown { return false; }
      ghost var h, rotated := history, s;
      ok := PutState(p, generation, stateId);
      LogExtends(h, rotated, history, s);
    }

    method PutState(p: Pid, generation: nat, stateId: nat) returns (ok: bool)
      requires At(p, ConnectPut(generation, stateId))
      modifies this
      ensures Grew(old(history), history, p)
      ensures At(p, Finished(ok))
      ensures ok ==> stateId in s.oauth && s.oauth[stateId] == OAuthState(s.now + 10 * 60 * 1000, generation)
      ensures !ok ==> Threw(history, |old(history)|, p)
    {
      var thrown := Throws(p, ConnectPut(generation, stateId));
      if thrown { return false; }
      var before := s;
      s := s.(oauth := s.oauth[stateId := OAuthState(s.now + 10 * 60 * 1000, generation)]);
      ArriveRotate(p, before, ConnectPut(generation, stateId), Finished(true));
      ok := true;
    }

    /** `revoked` are the tokens sent to Google: those the record held when this call emptied it. */
    method Disconnect(p: Pid, generation: nat) returns (ok: bool, revoked: Option<Tokens>)
      requires At(p, RotateGet(generation, true, 0))
      modifies this
      ensures Grew(old(history), history, p)
      ensures At(p, Finished(ok))
      ensures ok || revoked.Some? ==> Disconnected(generation, revoked) in s.log
      ensures !ok ==> Threw(history, |old(history)|, p)
    {
      var thrown, previous := RotateGeneration(p, generation, true, 0);
      if thrown { return false, None; }
      ghost var h, rotated := history, s;
      revoked := SecretOf(previous);
      ok := SendRevocation(p, revoked);
      LogExtends(h, rotated, history, s);
    }

    method SendRevocation(p: Pid, ghost revoked: Option<Tokens>) returns (ok: bool)
      requires At(p, Revoke(revoked))
      modifies this
      ensures Grew(old(history), history, p)
      ensures At(p, Finished(ok)) && (!ok ==> Threw(history, |old(history)|, p))
    {
      var thrown := Throws(p, Revoke(revoked));
      ok := !thrown;
      if ok { ArriveRotate(p, s, Revoke(revoked), Finished(true)); }
    }

    // ---------------------------------------------------------------- callback

    /** What a callback saw: the pending sign-ins it took its state from, the clock when it checked the state,
        the record before it went to Google, Google's answer, the record it carried a refresh token over from,
        and the record it stored into. */
    ghost predicate Called(h: seq<Event>, since: nat, p: Pid, stateId: nat, v: Visit, ok: bool) {
      && Seen(h, since, p, v.take, CallbackTake(stateId))
      && if stateId !in v.take.s.oauth then !ok else Checked(h, v.take.k + 1, p, v.take.s.oauth[stateId], v, ok)
    }

    /** A state that has expired, or whose generation is no longer the record's, is refused. */
    ghost predicate Checked(h: seq<Event>, since: nat, p: Pid, state: OAuthState, v: Visit, ok: bool) {
      && Seen(h, since, p, v.check, CallbackCheck(Some(state)))
      && if state.expiresAt < v.check.s.now then !ok else Matched(h, v.check.k + 1, p, state, v, ok)
    }

    ghost predicate Matched(h: seq<Event>, since: nat, p: Pid, state: OAuthState, v: Visit, ok: bool) {
      && Seen(h, since, p, v.get, CallbackGet(state))
      && if v.get.s.credential.None? || v.get.s.credential.value.generation != state.generation then !ok
         else Answered(h, v.get.k + 1, p, state, v, ok)
    }

    ghost predicate Answered(h: seq<Event>, since: nat, p: Pid, state: OAuthState, v: Visit, ok: bool) {
      && Seen(h, since, p, v.ask, CallbackFetch(state))
      && match h[v.ask.k].answer
         case Refused => !ok
         case Granted(g) => Carried(h, v.ask.k + 1, p, state, g, v, ok)
    }

    /** The refresh token is the granted one, or else the one then stored for the same account. */
    ghost predicate Carried(h: seq<Event>, since: nat, p: Pid, state: OAuthState, g: Grant, v: Visit, ok: bool) {
      && Seen(h, since, p, v.previous, CallbackPrevious(state, g))
      && var kept := SecretOf(v.previous.s.credential);
         Put(h, v.previous.k + 1, p, state,
             Tokens(v.previous.s.nextId, g.accessToken,
                    if g.refreshToken.Some? then g.refreshToken
                    else if kept.Some? && kept.value.account == g.account then kept.value.refreshToken else None,
                    v.previous.s.now + g.expiresIn * 1000, g.account),
             kept, g.refreshToken, v.save, ok)
    }

    /** The tokens are stored exactly if the generation is still the record's. */
    ghost predicate Put(h: seq<Event>, since: nat, p: Pid, state: OAuthState, tokens: Tokens, kept: Option<Tokens>,
                        granted: Option<nat>, save: Moment<State>, ok: bool)
    {
      && Seen(h, since, p, save, CallbackSave(state, tokens, kept, granted))
      && (ok <==> save.s.credential.Some? && save.s.credential.value.generation == state.generation)
      && (ok ==> Left(h, save.k + 1, tokens))
    }

    /** A sign-in stores Google's tokens over the generation its state names, or fails; which of them, its
        visit tells, unless a call it awaited failed. */
    method Callback(p: Pid, stateId: nat) returns (ok: bool, ghost visit: Visit)
      requires At(p, CallbackTake(stateId))
      modifies this
      ensures Grew(old(history), history, p)
      ensures At(p, Finished(ok))
      ensures ok ==> stateId in visit.take.s.oauth && Consumed(visit.take.s.oauth[stateId])
      ensures (!ok && Threw(history, |old(history)|, p)) || Called(history, |old(history)|, p, stateId, visit, ok)
    {
      ok, visit := false, Visit(NEVER, NEVER, NEVER, NEVER, NEVER, NEVER);
      var thrown := Throws(p, CallbackTake(stateId));
      if thrown { return; }
      var found, take := TakeState(p, stateId, |old(history)|);
      visit := visit.(take := take);
      ghost var h := history;
      if found.None? {
        ArriveCallback(p, Refused, s, CallbackCheck(None), Finished(false));
      } else {
        ok, visit := CheckState(p, found.value, visit, take.k + 1);
      }
      SeenStays(h, history, |old(history)|, |old(history)|, p, take, CallbackTake(stateId));
    }

    method TakeState(p: Pid, stateId: nat, ghost since: nat) returns (state: Option<OAuthState>, ghost take: Moment<State>)
      requires At(p, CallbackTake(stateId)) && since <= |history|
      modifies this
      ensures Grew(old(history), history, p)
      ensures At(p, CallbackCheck(state))
      ensures Seen(history, since, p, take, CallbackTake(stateId))
      ensures state == if stateId in take.s.oauth then Some(take.s.oauth[stateId]) else None
    {
      var before := s;
      take := Moment(|history|, s);
      state := if stateId in s.oauth then Some(s.oauth[stateId]) else None;
      s := s.(oauth := s.oauth - {stateId});
      assert state.None? ==> s.oauth == before.oauth;
      ArriveCallback(p, Refused, before, CallbackTake(stateId), CallbackCheck(state));
      ghost var h := history;
      Yield(p, CallbackCheck(state));
      SeenStays(h, history, since, since, p, take, CallbackTake(stateId));
    }

    method CheckState(p: Pid, state: OAuthState, ghost v: Visit, ghost since: nat) returns (ok: bool, ghost visit: Visit)
      requires At(p, CallbackCheck(Some(state))) && since <= |history|
      modifies this
      ensures Grew(old(history), history, p)
      ensures At(p, Finished(ok))
      ensures ok ==> Consumed(state)
      ensures visit.take == v.take
      ensures (!ok && Threw(history, |old(history)|, p)) || Checked(history, since, p, state, visit, ok)
    {
      ghost var check := Moment(|history|, s);
      ok, visit := false, v.(check := check);
      var expired := state.expiresAt < s.now;
      ArriveCallback(p, Refused, s, CallbackCheck(Some(state)), if expired then Finished(false) else CallbackGet(state));
      ghost var h := history;
      if !expired { ok, visit := FinishCallback(p, state, visit, check.k + 1); }
      SeenStays(h, history, since, since, p, check, CallbackCheck(Some(state)));
    }

    ghost predicate Consumed(state: OAuthState) reads this {
      exists i :: 0 <= i < |s.log| && s.log[i].Stored? && s.log[i].consumed == state.generation
    }

    method FinishCallback(p: Pid, state: OAuthState, ghost v: Visit, ghost since: nat) returns (ok: bool, ghost visit: Visit)
      requires At(p, CallbackGet(state)) && since <= |history|
      modifies this
      ensures Grew(old(history), history, p)
      ensures At(p, Finished(ok))
      ensures ok ==> Consumed(state)
      ensures visit.take == v.take && visit.check == v.check
      ensures (!ok && Threw(history, |old(history)|, p)) || Matched(history, since, p, state, visit, ok)
    {
      ok, visit := false, v;
      var thrown := Throws(p, CallbackGet(state));
      if thrown { return; }
      ghost var get := Moment(|history|, s);
      visit := v.(get := get);
      var matches := s.credential.Some? && s.credential.value.generation == state.generation;
      ArriveCallback(p, Refused, s, CallbackGet(state), if matches then CallbackFetch(state) else Finished(false));
      ghost var h := history;
      if matches { ok, visit := FetchAndStore(p, state, visit, get.k + 1); }
      SeenStays(h, history, since, since, p, get, CallbackGet(state));
    }

    method FetchAndStore(p: Pid, state: OAuthState, ghost v: Visit, ghost since: nat) returns (ok: bool, ghost visit: Visit)
      requires At(p, CallbackFetch(state)) && since <= |history|
      modifies this
      ensures Grew(old(history), history, p)
      ensures At(p, Finished(ok))
      ensures ok ==> Consumed(state)
      ensures visit.take == v.take && visit.check == v.check && visit.get == v.get
      ensures (!ok && Threw(history, |old(history)|, p)) || Answered(history, since, p, state, visit, ok)
    {
      ok, visit := false, v;
      var thrown := Throws(p, CallbackFetch(state));
      if thrown { return; }
      ghost var ask := Moment(|history|, s);
      visit := v.(ask := ask);
      var answer := AskGoogle();
      ArriveCallback(p, answer, s, CallbackFetch(state),
                     if answer.Granted? then CallbackPrevious(state, answer.grant) else Finished(false));
      ghost var h := history;
      if answer.Granted? { ok, visit := Store(p, state, answer.grant, visit, ask.k + 1); }
      SeenStays(h, history, since, since, p, ask, CallbackFetch(state));
    }

    method Store(p: Pid, state: OAuthState, grant: Grant, ghost v: Visit, ghost since: nat) returns (ok: bool, ghost visit: Visit)
      requires At(p, CallbackPrevious(state, grant)) && since <= |history|
      modifies this
      ensures Grew(old(history), history, p)
      ensures At(p, Finished(ok))
      ensures ok ==> Consumed(state)
      ensures visit.take == v.take && visit.check == v.check && visit.get == v.get && visit.ask == v.ask
      ensures (!ok && Threw(history, |old(history)|, p)) || Carried(history, since, p, state, grant, visit, ok)
    {
      ok, visit := false, v;
      var thrown := Throws(p, CallbackPrevious(state, grant));
      if !thrown { ok, visit := StoreNow(p, state, grant, v, since); }
    }

    method StoreNow(p: Pid, state: OAuthState, grant: Grant, ghost v: Visit, ghost since: nat) returns (ok: bool, ghost visit: Visit)
      requires At(p, CallbackPrevious(state, grant)) && since <= |history|
      modifies this
      ensures Grew(old(history), history, p)
      ensures At(p, Finished(ok))
      ensures ok ==> Consumed(state)
      ensures visit.take == v.take && visit.check == v.check && visit.get == v.get && visit.ask == v.ask
      ensures (!ok && Threw(history, |old(history)|, p)) || Carried(history, since, p, state, grant, visit, ok)
    {
      var previous, tokens, seen := CarryOver(p, state, grant, since);
      ghost var h := history;
      ghost var save;
      ok, save := Save(p, state, tokens, previous, grant.refreshToken, seen.k + 1);
      visit := v.(previous := seen, save := save);
      SeenStays(h, history, since, since, p, seen, CallbackPrevious(state, grant));
    }

    method CarryOver(p: Pid, state: OAuthState, grant: Grant, ghost since: nat)
      returns (previous: Option<Tokens>, tokens: Tokens, ghost seen: Moment<State>)
      requires At(p, CallbackPrevious(state, grant)) && since <= |history|
      modifies this
      ensures Grew(old(history), history, p)
      ensures At(p, CallbackSave(state, tokens, previous, grant.refreshToken))
      ensures Seen(history, since, p, seen, CallbackPrevious(state, grant)) && previous == SecretOf(seen.s.credential)
      ensures tokens == Tokens(
                seen.s.nextId, grant.accessToken,
                if grant.refreshToken.Some? then grant.refreshToken
                else if previous.Some? && previous.value.account == grant.account then previous.value.refreshToken else None,
                seen.s.now + grant.expiresIn * 1000, grant.account)
    {
      seen := Moment(|history|, s);
      var before := s;
      previous := SecretOf(s.credential);
      var connectionId := RandomUUID();
      tokens := Tokens(
        connectionId, grant.accessToken,
        if grant.refreshToken.Some? then grant.refreshToken
        else if previous.Some? && previous.value.account == grant.account then previous.value.refreshToken else None,
        s.now + grant.expiresIn * 1000, grant.account);
      ArriveCallback(p, Refused, before, CallbackPrevious(state, grant), CallbackSave(state, tokens, previous, grant.refreshToken));
    }

    method Save(p: Pid, state: OAuthState, tokens: Tokens, ghost previous: Option<Tokens>, ghost granted: Option<nat>,
                ghost since: nat) returns (ok: bool, ghost save: Moment<State>)
      requires At(p, CallbackSave(state, tokens, previous, granted)) && since <= |history|
      modifies this
      ensures Grew(old(history), history, p)
      ensures At(p, Finished(ok))
      ensures ok ==> s.credential.Some? && s.credential.value.secret == Some(tokens)
                     && s.credential.value.connectionId == Some(tokens.connectionId)
      ensures ok ==> s.log != [] && s.log[|s.log| - 1] == Stored(s.credential.value.generation, state.generation, tokens)
      ensures ok ==> Consumed(state)
      ensures || (!ok && Threw(history, |old(history)|, p))
              || Put(history, since, p, state, tokens, previous, granted, save, ok)
    {
      ok, save := false, NEVER;
      var thrown := Throws(p, CallbackSave(state, tokens, previous, granted));
      if !thrown {
        save := Moment(|history|, s);
        ok := SaveNow(p, state, tokens, previous, granted, since);
      }
    }

    method SaveNow(p: Pid, state: OAuthState, tokens: Tokens, ghost previous: Option<Tokens>, ghost granted: Option<nat>,
                   ghost since: nat) returns (ok: bool)
      requires At(p, CallbackSave(state, tokens, previous, granted)) && since <= |history|
      modifies this
      ensures Grew(old(history), history, p)
      ensures At(p, Finished(ok))
      ensures ok ==> s.credential.Some? && s.credential.value.secret == Some(tokens)
                     && s.credential.value.connectionId == Some(tokens.connectionId)
      ensures ok ==> s.log != [] && s.log[|s.log| - 1] == Stored(s.credential.value.generation, state.generation, tokens)
      ensures Put(history, since, p, state, tokens, previous, granted, Moment(|old(history)|, old(s)), ok)
    {
      var before := s;
      ok := StoreTokens(state.generation, tokens);
      ArriveCallback(p, Refused, before, CallbackSave(state, tokens, previous, granted), Finished(ok));
      assert history[..|history|] == history;
    }

    // ---------------------------------------------------------------- access tokens

    /** The record held this access token at some moment of the history after `since`, for the connection
        that was asked for. */
    ghost predicate Held(since: nat, expected: Option<nat>, accessToken: nat) reads this {
      HeldIn(history, since, expected, accessToken)
    }

    ghost predicate HeldIn(h: seq<Event>, since: nat, expected: Option<nat>, accessToken: nat) {
      exists k :: since <= k <= |h| && HeldAt(Exec(Next, START, h[..k]), expected, accessToken)
    }

    ghost predicate HeldAt(t: Option<State>, expected: Option<nat>, accessToken: nat) {
      t.Some? && SecretOf(t.value.credential).Some?
      && SecretOf(t.value.credential).value.accessToken == accessToken
      && (expected.Some? ==> SecretOf(t.value.credential).value.connectionId == expected.value)
    }

    lemma HeldNow(since: nat, expected: Option<nat>, accessToken: nat)
      requires Valid() && since <= |history| && HeldAt(Some(s), expected, accessToken)
      ensures Held(since, expected, accessToken)
    {
      assert history[..|history|] == history;
    }

    lemma HeldStays(before: seq<Event>, after: seq<Event>, p: Pid, since: nat, expected: Option<nat>, accessToken: nat)
      requires HeldIn(before, since, expected, accessToken) && Grew(before, after, p)
      ensures HeldIn(after, since, expected, accessToken)
    {
      var k :| since <= k <= |before| && HeldAt(Exec(Next, START, before[..k]), expected, accessToken);
      assert after[..k] == before[..k];
    }

    /** What an access-token call saw: the record it read, the clock and the refreshes when it decided, the
        moment Google answered, and the record its refreshed token went into. */
    ghost predicate Explained(h: seq<Event>, since: nat, p: Pid, expected: Option<nat>, c: Course,
                              token: Option<nat>, joined: Option<nat>)
    {
      && Seen(h, since, p, c.read, AccessGet(expected))
      && var tokens := SecretOf(c.read.s.credential);
         if tokens.None? || (expected.Some? && tokens.value.connectionId != expected.value)
         then token.None? && joined.None?
         else Seen(h, c.read.k + 1, p, c.decide, AccessDecide(expected, tokens))
              && Decided(h, p, tokens.value, c, token, joined)
    }

    /** Tokens good for another minute are answered with; else a refresh under way is joined, or one made. */
    ghost predicate Decided(h: seq<Event>, p: Pid, tokens: Tokens, c: Course, token: Option<nat>, joined: Option<nat>) {
      if tokens.expiresAt > c.decide.s.now + 60000 then token == Some(tokens.accessToken) && joined.None?
      else if (p.host, tokens.connectionId) in c.decide.s.refreshing then token.None? && joined == Some(tokens.connectionId)
      else joined.None? && Refreshed(h, p, tokens, c, token)
    }

    /** The granted token is answered with exactly if the record still had the connection, and is in it then. */
    ghost predicate Refreshed(h: seq<Event>, p: Pid, tokens: Tokens, c: Course, token: Option<nat>) {
      if tokens.refreshToken.None? then token.None?
      else
        && Seen(h, c.decide.k + 1, p, c.ask, RefreshFetch(tokens))
        && match h[c.ask.k].answer
           case Refused => token.None?
           case Granted(g) =>
             var refreshed := tokens.(accessToken := g.accessToken, expiresAt := c.ask.s.now + g.expiresIn * 1000);
             Saved(h, c.ask.k + 1, p, tokens, refreshed, c.save, token)
    }

    ghost predicate Saved(h: seq<Event>, since: nat, p: Pid, tokens: Tokens, refreshed: Tokens, save: Moment<State>, token: Option<nat>) {
      && Seen(h, since, p, save, RefreshUpdate(tokens, refreshed))
      && (if save.s.credential.Some? && save.s.credential.value.connectionId == Some(tokens.connectionId)
          then token == Some(refreshed.accessToken) && Left(h, save.k + 1, refreshed)
          else token.None?)
    }

    /** After `k` events the record has this secret. */
    ghost predicate Left(h: seq<Event>, k: nat, secret: Tokens) {
      k <= |h| && var t := Exec(Next, START, h[..k]); t.Some? && SecretOf(t.value.credential) == Some(secret)
    }

    lemma SavedStays(before: seq<Event>, after: seq<Event>, since: nat, p: Pid, tokens: Tokens, refreshed: Tokens,
                     save: Moment<State>, token: Option<nat>)
      requires Saved(before, since, p, tokens, refreshed, save, token) && Grew(before, after, p)
      ensures Saved(after, since, p, tokens, refreshed, save, token)
    {
      SeenStays(before, after, since, since, p, save, RefreshUpdate(tokens, refreshed));
      assert after[..save.k + 1] == before[..save.k + 1];
    }

    lemma RefreshedStays(before: seq<Event>, after: seq<Event>, p: Pid, tokens: Tokens, c: Course, token: Option<nat>)
      requires Refreshed(before, p, tokens, c, token) && Grew(before, after, p)
      ensures Refreshed(after, p, tokens, c, token)
    {
      if tokens.refreshToken.Some? {
        SeenStays(before, after, c.decide.k + 1, c.decide.k + 1, p, c.ask, RefreshFetch(tokens));
        if before[c.ask.k].answer.Granted? {
          var g := before[c.ask.k].answer.grant;
          SavedStays(before, after, c.ask.k + 1, p, tokens,
                     tokens.(accessToken := g.accessToken, expiresAt := c.ask.s.now + g.expiresIn * 1000), c.save, token);
        }
      }
    }

    /** Ends with an access token the record held meanwhile, without one, or waiting for the refresh that
        another call of this process has under way; which of them, its course tells, unless a call it awaited
        failed. */
    method AccessToken(p: Pid, expected: Option<nat>) returns (token: Option<nat>, joined: Option<nat>, ghost course: Course)
      requires At(p, AccessGet(expected))
      modifies this
      ensures Grew(old(history), history, p)
      ensures At(p, if joined.Some? then Join(joined.value) else Finished(token.Some?))
      ensures token.Some? ==> Held(|old(history)|, expected, token.value)
      ensures || (token.None? && joined.None? && Threw(history, |old(history)|, p))
              || Explained(history, |old(history)|, p, expected, course, token, joined)
    {
      joined, token, course := None, None, Course(NEVER, NEVER, NEVER, NEVER);
      var thrown := Throws(p, AccessGet(expected));
      if !thrown { token, joined, course := ReadAndDecide(p, expected, |old(history)|); }
    }

    method ReadAndDecide(p: Pid, expected: Option<nat>, ghost since: nat)
      returns (token: Option<nat>, joined: Option<nat>, ghost course: Course)
      requires At(p, AccessGet(expected)) && since <= |history|
      modifies this
      ensures Grew(old(history), history, p)
      ensures At(p, if joined.Some? then Join(joined.value) else Finished(token.Some?))
      ensures token.Some? ==> Held(since, expected, token.value)
      ensures || (token.None? && joined.None? && Threw(history, |old(history)|, p))
              || Explained(history, since, p, expected, course, token, joined)
    {
      joined, token := None, None;
      ghost var h := history;
      var tokens, read := ReadTokens(p, expected, since);
      ghost var h' := history;
      if tokens.None? || (expected.Some? && tokens.value.connectionId != expected.value) {
        Yield(p, AccessDecide(expected, tokens));
        ArriveAccess(p, Refused, s, AccessDecide(expected, tokens), Finished(false));
        course := Course(read, NEVER, NEVER, NEVER);
      } else {
        token, joined, course := Decide(p, expected, tokens.value, h, since, read);
      }
      SeenStays(h', history, |h|, since, p, read, AccessGet(expected));
    }

    method ReadTokens(p: Pid, expected: Option<nat>, ghost since: nat) returns (tokens: Option<Tokens>, ghost read: Moment<State>)
      requires At(p, AccessGet(expected)) && since <= |history|
      modifies this
      ensures Grew(old(history), history, p)
      ensures At(p, AccessDecide(expected, tokens))
      ensures tokens.Some? && (expected.Some? ==> tokens.value.connectionId == expected.value) ==>
                HeldIn(old(history), since, expected, tokens.value.accessToken)
      ensures Seen(history, |old(history)|, p, read, AccessGet(expected)) && read.k == |history| - 1
      ensures tokens == SecretOf(read.s.credential)
    {
      read := Moment(|history|, s);
      tokens := SecretOf(s.credential);
      if tokens.Some? && (expected.Some? ==> tokens.value.connectionId == expected.value) {
        HeldNow(since, expected, tokens.value.accessToken);
      }
      ArriveAccess(p, Refused, s, AccessGet(expected), AccessDecide(expected, tokens));
    }

    method Decide(p: Pid, expected: Option<nat>, tokens: Tokens, ghost h: seq<Event>, ghost since: nat, ghost read: Moment<State>)
      returns (token: Option<nat>, joined: Option<nat>, ghost course: Course)
      requires At(p, AccessDecide(expected, Some(tokens)))
      requires expected.Some? ==> tokens.connectionId == expected.value
      requires since <= |h| && Grew(h, history, p) && HeldIn(h, since, expected, tokens.accessToken)
      modifies this
      ensures Grew(old(history), history, p)
      ensures At(p, if joined.Some? then Join(joined.value) else Finished(token.Some?))
      ensures token.Some? ==> Held(since, expected, token.value)
      ensures course.read == read
      ensures || (token.None? && joined.None? && Threw(history, |old(history)|, p))
              || (Seen(history, |old(history)|, p, course.decide, AccessDecide(expected, Some(tokens)))
                  && Decided(history, p, tokens, course, token, joined))
    {
      joined, token := None, None;
      Yield(p, AccessDecide(expected, Some(tokens)));
      var c := tokens.connectionId;
      ghost var decide := Moment(|history|, s);
      course := Course(read, decide, NEVER, NEVER);
      if tokens.expiresAt > s.now + 60000 {
        ArriveAccess(p, Refused, s, AccessDecide(expected, Some(tokens)), Finished(true));
        HeldStays(h, history, p, since, expected, tokens.accessToken);
        token := Some(tokens.accessToken);
      } else if (p.host, c) in s.refreshing {
        ArriveAccess(p, Refused, s, AccessDecide(expected, Some(tokens)), Join(c));
        joined := Some(c);
      } else {
        token, course := StartRefresh(p, expected, tokens, since, read);
      }
    }

    method StartRefresh(p: Pid, expected: Option<nat>, tokens: Tokens, ghost since: nat, ghost read: Moment<State>)
      returns (token: Option<nat>, ghost course: Course)
      requires At(p, AccessDecide(expected, Some(tokens))) && (p.host, tokens.connectionId) !in s.refreshing
      requires tokens.expiresAt <= s.now + 60000
      requires expected.Some? ==> tokens.connectionId == expected.value
      requires since <= |history|
      modifies this
      ensures Grew(old(history), history, p)
      ensures At(p, Finished(token.Some?))
      ensures token.Some? ==> Held(since, expected, token.value)
      ensures course.read == read && course.decide == Moment(|old(history)|, old(s))
      ensures Seen(history, |old(history)|, p, course.decide, AccessDecide(expected, Some(tokens)))
      ensures (token.None? && Threw(history, |old(history)|, p)) || Refreshed(history, p, tokens, course, token)
    {
      course := Course(read, Moment(|history|, s), NEVER, NEVER);
      EnterRefresh(p, expected, tokens);
      ghost var h := history;
      token, course := RefreshAndEnd(p, tokens, expected, since, course);
      SeenStays(h, history, |old(history)|, |old(history)|, p, course.decide, AccessDecide(expected, Some(tokens)));
    }

    method RefreshAndEnd(p: Pid, tokens: Tokens, ghost expected: Option<nat>, ghost since: nat, ghost course: Course)
      returns (token: Option<nat>, ghost c: Course)
      requires At(p, if tokens.refreshToken.None? then RefreshEnd(tokens.connectionId, false) else RefreshFetch(tokens))
      requires since <= |history| && course.decide.k < |history|
      requires expected.Some? ==> tokens.connectionId == expected.value
      modifies this
      ensures Grew(old(history), history, p)
      ensures At(p, Finished(token.Some?))
      ensures token.Some? ==> Held(since, expected, token.value)
      ensures c.read == course.read && c.decide == course.decide
      ensures (token.None? && Threw(history, |old(history)|, p)) || Refreshed(history, p, tokens, c, token)
    {
      token, c := None, course;
      if tokens.refreshToken.Some? { token, c := Refresh(p, tokens, expected, since, course); }
      ghost var h := history;
      EndRefresh(p, tokens.connectionId, token.Some?);
      if token.Some? { HeldStays(h, history, p, since, expected, token.value); }
      if Refreshed(h, p, tokens, c, token) { RefreshedStays(h, history, p, tokens, c, token); }
    }

    method EnterRefresh(p: Pid, expected: Option<nat>, tokens: Tokens)
      requires At(p, AccessDecide(expected, Some(tokens))) && (p.host, tokens.connectionId) !in s.refreshing
      requires tokens.expiresAt <= s.now + 60000 && (expected.Some? ==> tokens.connectionId == expected.value)
      modifies this
      ensures Grew(old(history), history, p)
      ensures At(p, if tokens.refreshToken.None? then RefreshEnd(tokens.connectionId, false) else RefreshFetch(tokens))
      ensures |history| == |old(history)| + 1
      ensures Seen(history, |old(history)|, p, Moment(|old(history)|, old(s)), AccessDecide(expected, Some(tokens)))
    {
      var before := s;
      s := s.(refreshing := s.refreshing[(p.host, tokens.connectionId) := p]);
      ArriveAccess(p, Refused, before, AccessDecide(expected, Some(tokens)),
                   if tokens.refreshToken.None? then RefreshEnd(tokens.connectionId, false) else RefreshFetch(tokens));
    }

    method Refresh(p: Pid, tokens: Tokens, ghost expected: Option<nat>, ghost since: nat, ghost course: Course)
      returns (token: Option<nat>, ghost c: Course)
      requires At(p, RefreshFetch(tokens)) && since <= |history| && course.decide.k < |history| && tokens.refreshToken.Some?
      requires expected.Some? ==> tokens.connectionId == expected.value
      modifies this
      ensures Grew(old(history), history, p)
      ensures At(p, RefreshEnd(tokens.connectionId, token.Some?))
      ensures token.Some? ==> Held(since, expected, token.value)
      ensures c.read == course.read && c.decide == course.decide
      ensures (token.None? && Threw(history, |old(history)|, p)) || Refreshed(history, p, tokens, c, token)
    {
      var thrown, refreshed, ask := Fetch(p, tokens, course.decide.k + 1);
      c, token := course.(ask := ask), None;
      if refreshed.Some? { token, c := SaveAnswer(p, tokens, refreshed.value, expected, since, c); }
    }

    method SaveAnswer(p: Pid, tokens: Tokens, refreshed: Tokens, ghost expected: Option<nat>, ghost since: nat, ghost course: Course)
      returns (token: Option<nat>, ghost c: Course)
      requires At(p, RefreshUpdate(tokens, refreshed)) && since <= |history| && tokens.refreshToken.Some?
      requires expected.Some? ==> tokens.connectionId == expected.value
      requires Seen(history, course.decide.k + 1, p, course.ask, RefreshFetch(tokens)) && history[course.ask.k].answer.Granted?
      requires var g := history[course.ask.k].answer.grant;
               refreshed == tokens.(accessToken := g.accessToken, expiresAt := course.ask.s.now + g.expiresIn * 1000)
      modifies this
      ensures Grew(old(history), history, p)
      ensures At(p, RefreshEnd(tokens.connectionId, token.Some?))
      ensures token.Some? ==> Held(since, expected, token.value)
      ensures c.read == course.read && c.decide == course.decide
      ensures (token.None? && Threw(history, |old(history)|, p)) || Refreshed(history, p, tokens, c, token)
    {
      ghost var h := history;
      var updated, save := SaveRefreshed(p, tokens, refreshed, expected, since, course.ask.k + 1);
      SeenStays(h, history, course.decide.k + 1, course.decide.k + 1, p, course.ask, RefreshFetch(tokens));
      c := course.(save := save);
      token := if updated then Some(refreshed.accessToken) else None;
    }

    /** Asks Google for a new access token. */
    method Fetch(p: Pid, tokens: Tokens, ghost since: nat) returns (thrown: bool, refreshed: Option<Tokens>, ghost ask: Moment<State>)
      requires At(p, RefreshFetch(tokens)) && since <= |history|
      modifies this
      ensures Grew(old(history), history, p)
      ensures At(p, if refreshed.Some? then RefreshUpdate(tokens, refreshed.value) else RefreshEnd(tokens.connectionId, false))
      ensures thrown ==> refreshed.None? && Threw(history, |old(history)|, p)
      ensures !thrown ==> Seen(history, since, p, ask, RefreshFetch(tokens)) && ask.k == |history| - 1
      ensures !thrown ==>
                match history[ask.k].answer
                case Refused => refreshed.None?
                case Granted(g) => refreshed == Some(tokens.(accessToken := g.accessToken,
                                                             expiresAt := ask.s.now + g.expiresIn * 1000))
    {
      refreshed, ask := None, NEVER;
      thrown := Throws(p, RefreshFetch(tokens));
      if thrown { return; }
      var answer := AskGoogle();
      ask := Moment(|history|, s);
      if answer.Granted? {
        refreshed := Some(tokens.(accessToken := answer.grant.accessToken, expiresAt := s.now + answer.grant.expiresIn * 1000));
      }
      ArriveAccess(p, answer, s, RefreshFetch(tokens),
                   if refreshed.Some? then RefreshUpdate(tokens, refreshed.value) else RefreshEnd(tokens.connectionId, false));
    }

    method SaveRefreshed(p: Pid, tokens: Tokens, refreshed: Tokens, ghost expected: Option<nat>, ghost since: nat, ghost asked: nat)
      returns (updated: bool, ghost save: Moment<State>)
      requires At(p, RefreshUpdate(tokens, refreshed)) && since <= |history| && asked <= |history|
      requires refreshed.connectionId == tokens.connectionId && (expected.Some? ==> tokens.connectionId == expected.value)
      modifies this
      ensures Grew(old(history), history, p)
      ensures At(p, RefreshEnd(tokens.connectionId, updated))
      ensures updated ==> Held(since, expected, refreshed.accessToken)
      ensures || (!updated && Threw(history, |old(history)|, p))
              || Saved(history, asked, p, tokens, refreshed, save, if updated then Some(refreshed.accessToken) else None)
    {
      save, updated := NEVER, false;
      var thrown := Throws(p, RefreshUpdate(tokens, refreshed));
      if thrown { return; }
      var before := s;
      save := Moment(|history|, s);
      updated := UpdateCredential(tokens.connectionId, refreshed);
      ArriveAccess(p, Refused, before, RefreshUpdate(tokens, refreshed), RefreshEnd(tokens.connectionId, updated));
      assert history[..|history|] == history;
      if updated { HeldNow(since, expected, refreshed.accessToken); }
    }

    /** The refresh is over, well or not: its entry goes. */
    method EndRefresh(p: Pid, c: nat, ok: bool)
      requires At(p, RefreshEnd(c, ok))
      modifies this
      ensures Grew(old(history), history, p)
      ensures At(p, Finished(ok))
    {
      Yield(p, RefreshEnd(c, ok));
      var before := s;
      s := s.(refreshing := s.refreshing - {(p.host, c)});
      ArriveAccess(p, Refused, before, RefreshEnd(c, ok), Finished(ok));
    }
  }
}
