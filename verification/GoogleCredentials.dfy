/** One owner's Google credential, and the sign-ins, refreshes and disconnects that race on it
    (apps/server/src/google-auth.ts).

    Every event is one store call, one clock reading or one answer from Google.  Encryption is
    invertible, so a secret is the token set it encrypts; random identifiers are never repeated. */
module GoogleCredentials {
  import opened Runs

  /** A call, in the server process that runs it. */
  datatype Pid = Pid(host: nat, serial: nat)

  datatype Tokens = Tokens(connectionId: nat, accessToken: nat, refreshToken: Option<nat>, expiresAt: nat, account: nat)

  datatype Credential = Credential(generation: nat, connectionId: Option<nat>, secret: Option<Tokens>)

  datatype OAuthState = OAuthState(expiresAt: nat, generation: nat)

  /** What Google answers to a code exchange followed by the profile request. */
  datatype Grant = Grant(accessToken: nat, refreshToken: Option<nat>, expiresIn: nat, account: nat)

  datatype Proc =
    // rotateGeneration, for connect (with the state it will save) or disconnect
    | RotateGet(generation: nat, disconnect: bool, stateId: nat)
    | RotateSwap(generation: nat, disconnect: bool, stateId: nat, previous: Option<Credential>)
    | ConnectPut(generation: nat, stateId: nat)
    | Revoke(handed: Option<Tokens>)
    // callback and finishCallback
    | CallbackTake(stateId: nat)
    | CallbackCheck(taken: Option<OAuthState>)
    | CallbackGet(state: OAuthState)
    | CallbackFetch(state: OAuthState)
    | CallbackPrevious(state: OAuthState, grant: Grant)
    | CallbackSave(state: OAuthState, tokens: Tokens, carried: Option<Tokens>, granted: Option<nat>)
    // accessToken and refresh
    | AccessGet(expected: Option<nat>)
    | AccessDecide(expected: Option<nat>, found: Option<Tokens>)
    | Join(connectionId: nat)
    | RefreshFetch(tokens: Tokens)
    | RefreshUpdate(tokens: Tokens, refreshed: Tokens)
    | RefreshEnd(connectionId: nat, ok: bool)
    | Finished(ok: bool)

  /** One change of the stored generation. */
  datatype Change =
    | Connected(generation: nat)
    | Disconnected(generation: nat, handed: Option<Tokens>)
    | Stored(generation: nat, consumed: nat, tokens: Tokens)

  datatype State = State(
    now: nat,
    nextId: nat,
    credential: Option<Credential>,
    oauth: map<nat, OAuthState>,
    refreshing: map<(nat, nat), Pid>,   // by process and connection
    procs: map<Pid, Proc>,
    // history, read by no step
    issued: map<nat, Pid>,
    born: map<nat, Tokens>,      // the tokens each connection was first stored with
    log: seq<Change>)

  const START := State(0, 1, None, map[], map[], map[], map[], map[], [])

  datatype Call = Connect | Callback(stateId: nat) | AccessToken(expected: Option<nat>) | Disconnect

  /** What Google decided in this step, if the step waits for Google. */
  datatype Answer = Refused | Granted(grant: Grant)

  datatype Event =
    | Tick(ms: nat)
    | Begin(p: Pid, call: Call)
    | Go(p: Pid, answer: Answer)
    | Throw(p: Pid)                    // the awaited call failed without effect
    | Lose(p: Pid, answer: Answer)     // the awaited store call took effect, and then failed

  datatype Move = Move(s: State, pc: Proc)

  function At(s: State, p: Pid, pc: Proc): State { s.(procs := s.procs[p := pc]) }

  function Draw(s: State, p: Pid): State { s.(nextId := s.nextId + 1, issued := s.issued[s.nextId := p]) }

  function Swapped(s: State, c: Credential, change: Change): State {
    s.(credential := Some(c), log := s.log + [change])
  }

  /** A record, once there, stays; so does the memory of every stored connection. */
  predicate Monotone(s: State, t: State) {
    && t.procs == s.procs && (s.credential.Some? ==> t.credential.Some?)
    && (forall c :: c in s.born ==> c in t.born)
  }

  /** `rotateGeneration`: insert when there was no record, otherwise swap on the whole record. */
  function RotateStep(s: State, p: Pid, pc: Proc): (m: Option<Move>)
    requires pc.RotateGet? || pc.RotateSwap? || pc.ConnectPut? || pc.Revoke?
    ensures m.Some? ==> Monotone(s, m.value.s) && m.value.s.born == s.born
  {
    match pc
    case RotateGet(g, d, sid) => Some(Move(s, RotateSwap(g, d, sid, s.credential)))
    case RotateSwap(g, d, sid, previous) =>
      var secret := if previous.Some? then previous.value.secret else None;
      var after := if d then Revoke(secret) else ConnectPut(g, sid);
      var change := if d then Disconnected(g, secret) else Connected(g);
      if s.credential != previous then Some(Move(s, RotateGet(g, d, sid)))
      else if previous.None? then Some(Move(Swapped(s, Credential(g, None, None), change), after))
      else if d then Some(Move(Swapped(s, Credential(g, None, None), change), after))
      else Some(Move(Swapped(s, previous.value.(generation := g), change), after))
    case ConnectPut(g, sid) =>
      Some(Move(s.(oauth := s.oauth[sid := OAuthState(s.now + 600000, g)]), Finished(true)))
    case Revoke(tokens) => Some(Move(s, Finished(true)))
  }

  function NewTokens(g: Grant, connectionId: nat, now: nat, previous: Option<Tokens>): Tokens {
    Tokens(connectionId, g.accessToken,
           if g.refreshToken.Some? then g.refreshToken
           else if previous.Some? && previous.value.account == g.account then previous.value.refreshToken
           else None,
           now + g.expiresIn * 1000, g.account)
  }

  function CallbackStep(s: State, p: Pid, answer: Answer, pc: Proc): (m: Option<Move>)
    requires pc.CallbackTake? || pc.CallbackCheck? || pc.CallbackGet? || pc.CallbackFetch? || pc.CallbackPrevious? || pc.CallbackSave?
    ensures m.Some? ==> Monotone(s, m.value.s)
  {
    match pc
    case CallbackTake(sid) =>
      if sid in s.oauth then Some(Move(s.(oauth := s.oauth - {sid}), CallbackCheck(Some(s.oauth[sid]))))
      else Some(Move(s, CallbackCheck(None)))
    case CallbackCheck(taken) =>
      if taken.None? || taken.value.expiresAt < s.now then Some(Move(s, Finished(false)))
      else Some(Move(s, CallbackGet(taken.value)))
    case CallbackGet(st) =>
      if s.credential.None? || s.credential.value.generation != st.generation then Some(Move(s, Finished(false)))
      else Some(Move(s, CallbackFetch(st)))
    case CallbackFetch(st) =>
      if answer.Refused? then Some(Move(s, Finished(false))) else Some(Move(s, CallbackPrevious(st, answer.grant)))
    case CallbackPrevious(st, grant) =>
      var previous := if s.credential.Some? then s.credential.value.secret else None;
      Some(Move(Draw(s, p), CallbackSave(st, NewTokens(grant, s.nextId, s.now, previous), previous, grant.refreshToken)))
    case CallbackSave(st, tokens, previous, _) =>
      if s.credential.Some? && s.credential.value.generation == st.generation then
        var g := s.nextId;
        var t := Draw(s, p).(born := s.born[tokens.connectionId := tokens]);
        Some(Move(Swapped(t, Credential(g, Some(tokens.connectionId), Some(tokens)), Stored(g, st.generation, tokens)), Finished(true)))
      else Some(Move(s, Finished(false)))
  }

  function AccessStep(s: State, p: Pid, answer: Answer, pc: Proc): (m: Option<Move>)
    requires pc.AccessGet? || pc.AccessDecide? || pc.Join? || pc.RefreshFetch? || pc.RefreshUpdate? || pc.RefreshEnd?
    ensures m.Some? ==> Monotone(s, m.value.s) && m.value.s.born == s.born && m.value.s.log == s.log && m.value.s.oauth == s.oauth
  {
    match pc
    case AccessGet(expected) =>
      Some(Move(s, AccessDecide(expected, if s.credential.Some? then s.credential.value.secret else None)))
    case AccessDecide(expected, tokens) =>
      if tokens.None? then Some(Move(s, Finished(false)))
      else if expected.Some? && tokens.value.connectionId != expected.value then Some(Move(s, Finished(false)))
      else if tokens.value.expiresAt > s.now + 60000 then Some(Move(s, Finished(true)))
      else if (p.host, tokens.value.connectionId) in s.refreshing then Some(Move(s, Join(tokens.value.connectionId)))
      else
        var c := tokens.value.connectionId;
        var t := s.(refreshing := s.refreshing[(p.host, c) := p]);
        if tokens.value.refreshToken.None? then Some(Move(t, RefreshEnd(c, false)))
        else Some(Move(t, RefreshFetch(tokens.value)))
    case Join(c) => if (p.host, c) in s.refreshing then None else Some(Move(s, Finished(true)))
    case RefreshFetch(tokens) =>
      if answer.Refused? then Some(Move(s, RefreshEnd(tokens.connectionId, false)))
      else Some(Move(s, RefreshUpdate(tokens,
                          tokens.(accessToken := answer.grant.accessToken, expiresAt := s.now + answer.grant.expiresIn * 1000))))
    case RefreshUpdate(tokens, refreshed) =>
      if s.credential.Some? && s.credential.value.connectionId == Some(tokens.connectionId)
      then Some(Move(s.(credential := Some(s.credential.value.(secret := Some(refreshed)))), RefreshEnd(tokens.connectionId, true)))
      else Some(Move(s, RefreshEnd(tokens.connectionId, false)))
    case RefreshEnd(c, ok) => Some(Move(s.(refreshing := s.refreshing - {(p.host, c)}), Finished(ok)))
  }

  predicate InRotate(pc: Proc) { pc.RotateGet? || pc.RotateSwap? || pc.ConnectPut? || pc.Revoke? }

  predicate InCallback(pc: Proc) {
    pc.CallbackTake? || pc.CallbackCheck? || pc.CallbackGet? || pc.CallbackFetch? || pc.CallbackPrevious? || pc.CallbackSave?
  }

  function Advance(s: State, p: Pid, answer: Answer, pc: Proc): (m: Option<Move>)
    ensures m.Some? ==> Monotone(s, m.value.s)
  {
    if InRotate(pc) then RotateStep(s, p, pc)
    else if InCallback(pc) then CallbackStep(s, p, answer, pc)
    else if pc.Finished? then None
    else AccessStep(s, p, answer, pc)
  }

  /** The store calls that write. */
  predicate Writes(pc: Proc) {
    pc.RotateSwap? || pc.ConnectPut? || pc.CallbackTake? || pc.CallbackSave? || pc.RefreshUpdate?
  }

  /** Where an error takes a call whose write went through. */
  function LostAfter(pc: Proc): Proc {
    if pc.RefreshUpdate? then RefreshEnd(pc.tokens.connectionId, false) else Finished(false)
  }

  function Enter(s: State, p: Pid, call: Call): Move {
    match call
    case Connect => Move(Draw(Draw(s, p), p), RotateGet(s.nextId, false, s.nextId + 1))
    case Disconnect => Move(Draw(s, p), RotateGet(s.nextId, true, 0))
    case Callback(sid) => Move(s, CallbackTake(sid))
    case AccessToken(expected) => Move(s, AccessGet(expected))
  }

  function Next(s: State, e: Event): Option<State> {
    match e
    case Tick(ms) => Some(s.(now := s.now + ms))
    case Begin(p, call) =>
      if p in s.procs then None else Some(At(Enter(s, p, call).s, p, Enter(s, p, call).pc))
    case Go(p, answer) =>
      if p !in s.procs then None
      else (match Advance(s, p, answer, s.procs[p])
        case None => None
        case Some(m) => Some(At(m.s, p, m.pc)))
    case Throw(p) =>
      if p !in s.procs || s.procs[p].Finished? then None
      else if s.procs[p].RefreshFetch? || s.procs[p].RefreshUpdate?
      then Some(At(s, p, RefreshEnd(s.procs[p].tokens.connectionId, false)))
      else if s.procs[p].RefreshEnd? || s.procs[p].AccessDecide? || s.procs[p].CallbackCheck? then None
      else Some(At(s, p, Finished(false)))
    case Lose(p, answer) =>
      if p !in s.procs || !Writes(s.procs[p]) then None
      else (match Advance(s, p, answer, s.procs[p])
        case None => None
        case Some(m) => Some(At(m.s, p, LostAfter(s.procs[p]))))
  }

  // ------------------------------------------------------------------ the invariant

  /** These tokens belong to a connection that was stored, with its refresh token and account. */
  predicate OfStored(s: State, t: Tokens) {
    t.connectionId in s.born
    && s.born[t.connectionId].refreshToken == t.refreshToken && s.born[t.connectionId].account == t.account
  }

  predicate SameConnection(a: Option<Tokens>, b: Option<Tokens>) {
    (a.None? <==> b.None?) && (a.Some? && b.Some? ==> a.value.connectionId == b.value.connectionId)
  }

  predicate CredentialInv(s: State, c: Credential) {
    && (c.secret.Some? <==> c.connectionId.Some?)
    && (c.secret.Some? ==> c.secret.value.connectionId == c.connectionId.value && OfStored(s, c.secret.value))
  }

  ghost predicate ConnectedIn(s: State, generation: nat) {
    exists i :: 0 <= i < |s.log| && s.log[i] == Connected(generation)
  }

  /** The granted refresh token, or else the previous one of the same account. */
  predicate RefreshTokenFrom(tokens: Tokens, previous: Option<Tokens>, granted: Option<nat>) {
    tokens.refreshToken ==
      if granted.Some? then granted
      else if previous.Some? && previous.value.account == tokens.account then previous.value.refreshToken
      else None
  }

  ghost predicate ProcInv(s: State, p: Pid, pc: Proc) {
    match pc
    case RotateGet(g, _, _) => Fresh(s, p, g)
    case RotateSwap(g, _, _, previous) => Fresh(s, p, g) && (previous.Some? ==> CredentialInv(s, previous.value))
    case ConnectPut(g, _) => ConnectedIn(s, g)
    case CallbackCheck(taken) => taken.Some? ==> ConnectedIn(s, taken.value.generation)
    case CallbackGet(st) => ConnectedIn(s, st.generation)
    case CallbackFetch(st) => ConnectedIn(s, st.generation)
    case CallbackPrevious(st, _) => ConnectedIn(s, st.generation)
    case CallbackSave(st, tokens, previous, granted) =>
      && ConnectedIn(s, st.generation) && RefreshTokenFrom(tokens, previous, granted)
      && tokens.connectionId in s.issued && s.issued[tokens.connectionId] == p && tokens.connectionId !in s.born
      && (previous.Some? ==> OfStored(s, previous.value))
      && (s.credential.Some? && s.credential.value.generation == st.generation ==>
            SameConnection(previous, s.credential.value.secret))
    case AccessDecide(_, tokens) => tokens.Some? ==> OfStored(s, tokens.value)
    case RefreshFetch(tokens) => OfStored(s, tokens) && Refreshes(s, p, tokens.connectionId)
    case RefreshUpdate(tokens, refreshed) =>
      OfStored(s, tokens) && OfStored(s, refreshed) && refreshed.connectionId == tokens.connectionId
      && Refreshes(s, p, tokens.connectionId)
    case RefreshEnd(c, _) => Refreshes(s, p, c)
    case _ => true
  }

  ghost predicate Refreshes(s: State, p: Pid, c: nat) { (p.host, c) in s.refreshing && s.refreshing[(p.host, c)] == p }

  /** A generation drawn by `p` that has not reached the record yet. */
  ghost predicate Fresh(s: State, p: Pid, g: nat) {
    g in s.issued && s.issued[g] == p && (forall i :: 0 <= i < |s.log| ==> s.log[i].generation != g)
  }

  /** Every stored credential directly follows the connect whose generation it consumed. */
  ghost predicate LogInv(log: seq<Change>) {
    && (forall i, j :: 0 <= i < j < |log| ==> log[i].generation != log[j].generation)
    && (forall j :: 0 <= j < |log| && log[j].Stored? ==> j > 0 && log[j - 1] == Connected(log[j].consumed))
  }

  ghost predicate RecordInv(s: State) {
    && (s.credential.None? <==> s.log == [])
    && (s.credential.Some? ==> s.credential.value.generation == s.log[|s.log| - 1].generation && CredentialInv(s, s.credential.value))
  }

  ghost predicate IdsInv(s: State) {
    && (forall x :: x in s.issued ==> x < s.nextId)
    && (forall c :: c in s.born ==> c in s.issued && s.born[c].connectionId == c)
    && (forall i :: 0 <= i < |s.log| ==> s.log[i].generation in s.issued)
  }

  ghost predicate Shared(s: State) {
    && IdsInv(s) && LogInv(s.log) && RecordInv(s)
    && (forall sid :: sid in s.oauth ==> ConnectedIn(s, s.oauth[sid].generation))
  }

  ghost predicate Inv(s: State) {
    Shared(s) && (forall p :: p in s.procs ==> ProcInv(s, p, s.procs[p]))
  }

  /** What a step of `p` does to everyone else: history grows, ids in it are `p`'s own. */
  ghost predicate Rely(s: State, s': State, p: Pid) {
    && (forall x :: x in s.issued ==> x in s'.issued && s'.issued[x] == s.issued[x])
    && (forall c :: c in s.born ==> c in s'.born && s'.born[c] == s.born[c])
    && (forall c :: c in s'.born && c !in s.born ==> c in s.issued && s.issued[c] == p)
    && (s'.log == s.log || (|s'.log| == |s.log| + 1 && s'.log[..|s.log|] == s.log
                            && var g := s'.log[|s.log|].generation; g in s'.issued && s'.issued[g] == p))
    && (s'.log == s.log && s.credential.Some? ==>
          s'.credential.Some? && s'.credential.value.generation == s.credential.value.generation
          && SameConnection(s'.credential.value.secret, s.credential.value.secret))
    && (s'.log == s.log && s.credential.None? ==> s'.credential.None?)
    && (forall c :: c in s.refreshing && s.refreshing[c] != p ==> c in s'.refreshing && s'.refreshing[c] == s.refreshing[c])
  }

  ghost predicate GoodStep(s: State, m: Move, p: Pid) {
    m.s.procs == s.procs && Rely(s, m.s, p) && Shared(m.s) && ProcInv(m.s, p, m.pc)
  }

  lemma ConnectedStays(s: State, s': State, g: nat)
    requires ConnectedIn(s, g) && s.log <= s'.log
    ensures ConnectedIn(s', g)
  {
    var i :| 0 <= i < |s.log| && s.log[i] == Connected(g);
    assert s'.log[i] == Connected(g);
  }

  /** An old generation is not the one the record holds now. */
  lemma OldGenerationIsGone(s: State, s': State, g: nat)
    requires ConnectedIn(s, g) && Shared(s') && |s'.log| == |s.log| + 1 && s'.log[..|s.log|] == s.log
    ensures s'.credential.Some? && s'.credential.value.generation != g
  {
    var i :| 0 <= i < |s.log| && s.log[i] == Connected(g);
    assert s'.log[i] == Connected(g);
  }

  lemma OtherKeeps(s: State, s': State, p: Pid, q: Pid, qc: Proc)
    requires Shared(s) && Shared(s') && ProcInv(s, q, qc) && q != p && Rely(s, s', p)
    ensures ProcInv(s', q, qc)
  {
    if InCallback(qc) { OtherKeepsCallback(s, s', p, q, qc); }
    else if qc.ConnectPut? { ConnectedStays(s, s', qc.generation); }
  }

  lemma OtherKeepsCallback(s: State, s': State, p: Pid, q: Pid, qc: Proc)
    requires Shared(s) && Shared(s') && ProcInv(s, q, qc) && q != p && Rely(s, s', p) && InCallback(qc)
    ensures ProcInv(s', q, qc)
  {
    match qc
    case CallbackSave(st, tokens, previous, _) =>
      ConnectedStays(s, s', st.generation);
      if s'.log != s.log { OldGenerationIsGone(s, s', st.generation); }
    case CallbackCheck(taken) => if taken.Some? { ConnectedStays(s, s', taken.value.generation); }
    case CallbackGet(st) => ConnectedStays(s, s', st.generation);
    case CallbackFetch(st) => ConnectedStays(s, s', st.generation);
    case CallbackPrevious(st, _) => ConnectedStays(s, s', st.generation);
    case _ =>
  }

  lemma GoodStepKeeps(s: State, m: Move, p: Pid)
    requires Inv(s) && GoodStep(s, m, p)
    ensures Inv(At(m.s, p, m.pc))
  {
    var t := At(m.s, p, m.pc);
    forall q | q in t.procs ensures ProcInv(t, q, t.procs[q]) {
      if q != p {
        OtherKeeps(s, m.s, p, q, s.procs[q]);
        SameShared(m.s, t, q, t.procs[q]);
      } else {
        SameShared(m.s, t, p, m.pc);
      }
    }
  }

  /** Program counters are no part of what `ProcInv` says about one of them. */
  lemma SameShared(s: State, t: State, q: Pid, qc: Proc)
    requires ProcInv(s, q, qc) && t == s.(procs := t.procs)
    ensures ProcInv(t, q, qc)
  {
  }

  // ------------------------------------------------------------------ every step is good

  /** Writing the record under a fresh generation, with the log entry that says how. */
  lemma SwapIsShared(s: State, p: Pid, c: Credential, change: Change)
    requires Shared(s) && CredentialInv(s, c) && c.generation == change.generation && Fresh(s, p, change.generation)
    requires change.Stored? ==> s.log != [] && s.log[|s.log| - 1] == Connected(change.consumed)
    ensures Shared(Swapped(s, c, change)) && Rely(s, Swapped(s, c, change), p)
    ensures change.Connected? ==> ConnectedIn(Swapped(s, c, change), change.generation)
  {
    SwapKeepsShared(s, p, c, change);
    var t := Swapped(s, c, change);
    assert t.log[..|s.log|] == s.log && t.log[|s.log|] == change;
  }

  lemma OneMoreChange(log: seq<Change>, change: Change)
    requires LogInv(log) && forall i :: 0 <= i < |log| ==> log[i].generation != change.generation
    requires change.Stored? ==> log != [] && log[|log| - 1] == Connected(change.consumed)
    ensures LogInv(log + [change])
  {
  }

  lemma SwapKeepsShared(s: State, p: Pid, c: Credential, change: Change)
    requires Shared(s) && CredentialInv(s, c) && c.generation == change.generation && Fresh(s, p, change.generation)
    requires change.Stored? ==> s.log != [] && s.log[|s.log| - 1] == Connected(change.consumed)
    ensures Shared(Swapped(s, c, change))
  {
    var t := Swapped(s, c, change);
    assert t.log[..|s.log|] == s.log && t.log[|s.log|] == change;
    OneMoreChange(s.log, change);
    forall sid | sid in t.oauth ensures ConnectedIn(t, t.oauth[sid].generation) {
      ConnectedStays(s, t, s.oauth[sid].generation);
    }
  }

  lemma RotateSwapIsGood(s: State, p: Pid, pc: Proc)
    requires Shared(s) && ProcInv(s, p, pc) && pc.RotateSwap? && s.credential == pc.previous
    ensures RotateStep(s, p, pc).Some? && GoodStep(s, RotateStep(s, p, pc).value, p)
  {
    var m := RotateStep(s, p, pc).value;
    var secret := if pc.previous.Some? then pc.previous.value.secret else None;
    SwapIsShared(s, p, m.s.credential.value, if pc.disconnect then Disconnected(pc.generation, secret) else Connected(pc.generation));
  }

  /** A step that only touches the pending sign-ins, which all stem from connects. */
  lemma OAuthIsShared(s: State, t: State, p: Pid)
    requires Shared(s) && t == s.(oauth := t.oauth)
    requires forall sid :: sid in t.oauth ==> ConnectedIn(s, t.oauth[sid].generation)
    ensures Shared(t) && Rely(s, t, p)
  {
    forall sid | sid in t.oauth ensures ConnectedIn(t, t.oauth[sid].generation) { ConnectedStays(s, t, t.oauth[sid].generation); }
  }

  lemma RotateIsGood(s: State, p: Pid, pc: Proc)
    requires Shared(s) && ProcInv(s, p, pc) && InRotate(pc)
    ensures RotateStep(s, p, pc).Some? && GoodStep(s, RotateStep(s, p, pc).value, p)
  {
    if pc.RotateSwap? && s.credential == pc.previous {
      RotateSwapIsGood(s, p, pc);
    } else {
      OAuthIsShared(s, RotateStep(s, p, pc).value.s, p);
    }
  }

  lemma DrawIsShared(s: State, p: Pid)
    requires Shared(s)
    ensures Shared(Draw(s, p)) && Rely(s, Draw(s, p), p) && Fresh(Draw(s, p), p, s.nextId)
    ensures forall g :: ConnectedIn(s, g) ==> ConnectedIn(Draw(s, p), g)
  {
    forall g | ConnectedIn(s, g) ensures ConnectedIn(Draw(s, p), g) { ConnectedStays(s, Draw(s, p), g); }
  }

  /** Remembering the tokens of a connection that `p` drew. */
  lemma BirthIsShared(s: State, p: Pid, tokens: Tokens)
    requires Shared(s) && tokens.connectionId in s.issued && s.issued[tokens.connectionId] == p && tokens.connectionId !in s.born
    ensures var t := s.(born := s.born[tokens.connectionId := tokens]);
            Shared(t) && Rely(s, t, p) && (forall g :: ConnectedIn(s, g) ==> ConnectedIn(t, g))
  {
    var t := s.(born := s.born[tokens.connectionId := tokens]);
    forall g | ConnectedIn(s, g) ensures ConnectedIn(t, g) { ConnectedStays(s, t, g); }
  }

  lemma SaveIsGood(s: State, p: Pid, st: OAuthState, tokens: Tokens, carried: Option<Tokens>, granted: Option<nat>)
    requires Shared(s) && ProcInv(s, p, CallbackSave(st, tokens, carried, granted))
    requires s.credential.Some? && s.credential.value.generation == st.generation
    ensures GoodStep(s, CallbackStep(s, p, Refused, CallbackSave(st, tokens, carried, granted)).value, p)
  {
    var g := s.nextId;
    var u := Draw(s, p).(born := s.born[tokens.connectionId := tokens]);
    BornForSave(s, p, st, tokens, carried, granted);
    SwapIsShared(u, p, Credential(g, Some(tokens.connectionId), Some(tokens)), Stored(g, st.generation, tokens));
  }

  /** The tokens are about to be stored: their connection is new, and its sign-in is the last change. */
  lemma BornForSave(s: State, p: Pid, st: OAuthState, tokens: Tokens, carried: Option<Tokens>, granted: Option<nat>)
    requires Shared(s) && ProcInv(s, p, CallbackSave(st, tokens, carried, granted))
    requires s.credential.Some? && s.credential.value.generation == st.generation
    ensures var u := Draw(s, p).(born := s.born[tokens.connectionId := tokens]);
            Shared(u) && Rely(s, u, p) && Fresh(u, p, s.nextId) && |s.log| > 0 && s.log[|s.log| - 1] == Connected(st.generation)
  {
    DrawIsShared(s, p);
    var i :| 0 <= i < |s.log| && s.log[i] == Connected(st.generation);
    assert i == |s.log| - 1;
    BirthIsShared(Draw(s, p), p, tokens);
  }

  lemma PreviousIsGood(s: State, p: Pid, st: OAuthState, grant: Grant)
    requires Shared(s) && ProcInv(s, p, CallbackPrevious(st, grant))
    ensures GoodStep(s, CallbackStep(s, p, Refused, CallbackPrevious(st, grant)).value, p)
  {
    DrawIsShared(s, p);
  }

  lemma TakeIsGood(s: State, p: Pid, answer: Answer, stateId: nat)
    requires Shared(s)
    ensures GoodStep(s, CallbackStep(s, p, answer, CallbackTake(stateId)).value, p)
  {
    var m := CallbackStep(s, p, answer, CallbackTake(stateId)).value;
    forall sid | sid in m.s.oauth ensures ConnectedIn(m.s, m.s.oauth[sid].generation) {
      ConnectedStays(s, m.s, s.oauth[sid].generation);
    }
    if stateId in s.oauth { ConnectedStays(s, m.s, s.oauth[stateId].generation); }
  }

  lemma CallbackIsGood(s: State, p: Pid, answer: Answer, pc: Proc)
    requires Shared(s) && ProcInv(s, p, pc) && InCallback(pc)
    ensures CallbackStep(s, p, answer, pc).Some? && GoodStep(s, CallbackStep(s, p, answer, pc).value, p)
  {
    var m := CallbackStep(s, p, answer, pc).value;
    if pc.CallbackPrevious? {
      PreviousIsGood(s, p, pc.state, pc.grant);
    } else if pc.CallbackSave? && s.credential.Some? && s.credential.value.generation == pc.state.generation {
      SaveIsGood(s, p, pc.state, pc.tokens, pc.carried, pc.granted);
    } else if pc.CallbackTake? {
      TakeIsGood(s, p, answer, pc.stateId);
    } else {
      if pc.CallbackFetch? { ConnectedStays(s, m.s, pc.state.generation); }
    }
  }

  /** A step that changes at most the refresh table or the secret of the same connection. */
  lemma RefreshIsShared(s: State, t: State, p: Pid)
    requires Shared(s) && t == s.(refreshing := t.refreshing, credential := t.credential)
    requires t.credential == s.credential
             || (s.credential.Some? && t.credential.Some? && CredentialInv(s, t.credential.value)
                 && t.credential.value.generation == s.credential.value.generation
                 && t.credential.value.connectionId == s.credential.value.connectionId)
    requires forall c :: c in s.refreshing && s.refreshing[c] != p ==> c in t.refreshing && t.refreshing[c] == s.refreshing[c]
    ensures Shared(t) && Rely(s, t, p)
  {
    forall sid | sid in t.oauth ensures ConnectedIn(t, t.oauth[sid].generation) { ConnectedStays(s, t, t.oauth[sid].generation); }
  }

  lemma RefreshIsGood(s: State, p: Pid, answer: Answer, pc: Proc)
    requires Shared(s) && ProcInv(s, p, pc) && (pc.RefreshFetch? || pc.RefreshUpdate? || pc.RefreshEnd?)
    ensures AccessStep(s, p, answer, pc).Some? && GoodStep(s, AccessStep(s, p, answer, pc).value, p)
  {
    RefreshIsShared(s, AccessStep(s, p, answer, pc).value.s, p);
  }

  lemma AccessIsGood(s: State, p: Pid, answer: Answer, pc: Proc)
    requires Shared(s) && ProcInv(s, p, pc) && !InRotate(pc) && !InCallback(pc) && !pc.Finished?
    requires AccessStep(s, p, answer, pc).Some?
    ensures GoodStep(s, AccessStep(s, p, answer, pc).value, p)
  {
    if pc.RefreshFetch? || pc.RefreshUpdate? || pc.RefreshEnd? { RefreshIsGood(s, p, answer, pc); }
    else { RefreshIsShared(s, AccessStep(s, p, answer, pc).value.s, p); }
  }

  lemma EnterIsGood(s: State, p: Pid, call: Call)
    requires Shared(s)
    ensures GoodStep(s, Enter(s, p, call), p)
  {
    DrawIsShared(s, p);
    DrawIsShared(Draw(s, p), p);
    RefreshIsShared(s, s, p);
  }

  lemma TickIsShared(s: State, ms: nat, p: Pid)
    requires Shared(s)
    ensures Shared(s.(now := s.now + ms)) && Rely(s, s.(now := s.now + ms), p)
  {
    var t := s.(now := s.now + ms);
    forall sid | sid in t.oauth ensures ConnectedIn(t, t.oauth[sid].generation) { ConnectedStays(s, t, s.oauth[sid].generation); }
  }

  lemma TickKeepsInv(s: State, ms: nat)
    requires Inv(s)
    ensures Inv(s.(now := s.now + ms))
  {
    var t := s.(now := s.now + ms);
    TickIsShared(s, ms, Pid(0, 0));
    forall q | q in t.procs ensures ProcInv(t, q, t.procs[q]) { TickKeepsCall(s, ms, q); }
  }

  lemma TickKeepsCall(s: State, ms: nat, q: Pid)
    requires Inv(s) && q in s.procs
    ensures ProcInv(s.(now := s.now + ms), q, s.procs[q])
  {
    var other := Pid(q.host, q.serial + 1);
    TickIsShared(s, ms, other);
    OtherKeeps(s, s.(now := s.now + ms), other, q, s.procs[q]);
  }

  /** A call may give up anywhere, but for a refresh under way, which goes on to its end. */
  lemma LeavingIsGood(s: State, p: Pid, pc: Proc)
    requires Inv(s) && p in s.procs
    requires pc.Finished? || (pc.RefreshEnd? && (s.procs[p].RefreshFetch? || s.procs[p].RefreshUpdate?)
                              && pc.connectionId == s.procs[p].tokens.connectionId)
             || (pc.RefreshEnd? && s.procs[p].RefreshEnd? && pc.connectionId == s.procs[p].connectionId)
    ensures Inv(At(s, p, pc))
  {
    assert ProcInv(s, p, s.procs[p]);
    RefreshIsShared(s, s, p);
    GoodStepKeeps(s, Move(s, pc), p);
  }

  lemma ThrowKeepsInv(s: State, p: Pid)
    requires Inv(s) && Next(s, Throw(p)).Some?
    ensures Inv(Next(s, Throw(p)).value)
  {
    if s.procs[p].RefreshFetch? || s.procs[p].RefreshUpdate? {
      LeavingIsGood(s, p, RefreshEnd(s.procs[p].tokens.connectionId, false));
    } else {
      LeavingIsGood(s, p, Finished(false));
    }
  }

  lemma AdvanceIsGood(s: State, p: Pid, answer: Answer, pc: Proc)
    requires Shared(s) && ProcInv(s, p, pc) && Advance(s, p, answer, pc).Some?
    ensures GoodStep(s, Advance(s, p, answer, pc).value, p)
  {
    if InRotate(pc) { RotateIsGood(s, p, pc); }
    else if InCallback(pc) { CallbackIsGood(s, p, answer, pc); }
    else { AccessIsGood(s, p, answer, pc); }
  }

  lemma BeginKeepsInv(s: State, p: Pid, call: Call)
    requires Inv(s) && Next(s, Begin(p, call)).Some?
    ensures Inv(Next(s, Begin(p, call)).value)
  {
    EnterIsGood(s, p, call);
    GoodStepKeeps(s, Enter(s, p, call), p);
  }

  lemma GoKeepsInv(s: State, p: Pid, answer: Answer)
    requires Inv(s) && Next(s, Go(p, answer)).Some?
    ensures Inv(Next(s, Go(p, answer)).value)
  {
    assert ProcInv(s, p, s.procs[p]);
    AdvanceIsGood(s, p, answer, s.procs[p]);
    GoodStepKeeps(s, Advance(s, p, answer, s.procs[p]).value, p);
  }

  /** After the write, the error is one more step of the call, which changes nothing. */
  lemma LoseKeepsInv(s: State, p: Pid, answer: Answer)
    requires Inv(s) && Next(s, Lose(p, answer)).Some?
    ensures Inv(Next(s, Lose(p, answer)).value)
  {
    var m, lost := Advance(s, p, answer, s.procs[p]).value, LostAfter(s.procs[p]);
    GoKeepsInv(s, p, answer);
    var u := At(m.s, p, m.pc);
    LeavingIsGood(u, p, lost);
    assert u.procs[p := lost] == m.s.procs[p := lost];
  }

  lemma StepKeepsInv(s: State, e: Event)
    requires Inv(s) && Next(s, e).Some?
    ensures Inv(Next(s, e).value)
  {
    if e.Tick? {
      var t := s.(now := s.now + e.ms);
      assert Next(s, e) == Some(t);
      TickKeepsInv(s, e.ms);
    } else if e.Begin? {
      BeginKeepsInv(s, e.p, e.call);
    } else if e.Throw? {
      ThrowKeepsInv(s, e.p);
    } else if e.Go? {
      GoKeepsInv(s, e.p, e.answer);
    } else {
      LoseKeepsInv(s, e.p, e.answer);
    }
  }

  lemma InvOfRuns(es: seq<Event>)
    requires Exec(Next, START, es).Some?
    ensures Inv(Exec(Next, START, es).value)
  {
    forall t: State, e: Event | Inv(t) && Next(t, e).Some? ensures Inv(Next(t, e).value) { StepKeepsInv(t, e); }
    InvariantOfRuns(Next, t => Inv(t), START, es);
  }

  // ------------------------------------------------------------------ main results

  /** A sign-in stores tokens only as the very next change after the connect that issued it: no other
      connect, disconnect or stored sign-in lies between, so each connect yields at most one stored
      credential and a disconnect defeats every consent already under way. */
  lemma StoredFollowsItsConnect(es: seq<Event>, s: State, j: nat)
    requires Exec(Next, START, es) == Some(s) && j < |s.log| && s.log[j].Stored?
    ensures j > 0 && s.log[j - 1] == Connected(s.log[j].consumed)
    ensures forall k :: 0 <= k < |s.log| && s.log[k].Stored? && s.log[k].consumed == s.log[j].consumed ==> k == j
  {
    InvOfRuns(es);
    assert LogInv(s.log);
    forall k | 0 <= k < |s.log| && s.log[k].Stored? && s.log[k].consumed == s.log[j].consumed ensures k == j {
      assert s.log[k - 1].generation == s.log[j - 1].generation;
    }
  }

  /** At every moment the secret and the connection id are both there or both absent, and the tokens
      inside the secret carry the record's connection, its refresh token and its account. */
  lemma CredentialIsConsistent(es: seq<Event>, s: State)
    requires Exec(Next, START, es) == Some(s) && s.credential.Some?
    ensures s.credential.value.secret.Some? <==> s.credential.value.connectionId.Some?
    ensures s.credential.value.secret.Some? ==> s.credential.value.secret.value.connectionId == s.credential.value.connectionId.value
    ensures s.credential.value.secret.Some? ==> OfStored(s, s.credential.value.secret.value)
  {
    InvOfRuns(es);
  }

  function ConnectionOf(t: Option<Tokens>): Option<nat> { if t.Some? then Some(t.value.connectionId) else None }

  function LiveIn(s: State): Option<nat> { if s.credential.Some? then s.credential.value.connectionId else None }

  /** How one step moves the log and the live connection together. */
  ghost predicate LogMove(s: State, t: State) {
    || (t.log == s.log && LiveIn(t) == LiveIn(s))
    || (|t.log| == |s.log| + 1 && t.log == s.log + [t.log[|s.log|]]
        && match t.log[|s.log|]
           case Connected(_) => LiveIn(t) == LiveIn(s)
           case Disconnected(_, handed) => LiveIn(t) == None && ConnectionOf(handed) == LiveIn(s)
           case Stored(_, _, tokens) => LiveIn(t) == Some(tokens.connectionId) && tokens.connectionId !in s.born)
  }

  lemma RotateLogs(s: State, p: Pid, pc: Proc)
    requires Shared(s) && ProcInv(s, p, pc) && InRotate(pc)
    ensures RotateStep(s, p, pc).Some? && LogMove(s, RotateStep(s, p, pc).value.s)
  {
  }

  lemma CallbackLogs(s: State, p: Pid, answer: Answer, pc: Proc)
    requires Shared(s) && ProcInv(s, p, pc) && InCallback(pc)
    ensures CallbackStep(s, p, answer, pc).Some? && LogMove(s, CallbackStep(s, p, answer, pc).value.s)
  {
  }

  lemma AccessLogs(s: State, p: Pid, answer: Answer, pc: Proc)
    requires !InRotate(pc) && !InCallback(pc) && !pc.Finished? && AccessStep(s, p, answer, pc).Some?
    ensures LogMove(s, AccessStep(s, p, answer, pc).value.s)
  {
  }

  lemma AdvanceLogs(s: State, p: Pid, answer: Answer, pc: Proc)
    requires Shared(s) && ProcInv(s, p, pc) && Advance(s, p, answer, pc).Some?
    ensures LogMove(s, Advance(s, p, answer, pc).value.s)
  {
    if InRotate(pc) { RotateLogs(s, p, pc); }
    else if InCallback(pc) { CallbackLogs(s, p, answer, pc); }
    else { AccessLogs(s, p, answer, pc); }
  }

  /** The log, the record and the memory of connections after a step, whatever becomes of its call. */
  lemma RecordsOfStep(s: State, e: Event)
    requires Next(s, e).Some?
    ensures var t := Next(s, e).value;
            if e.Go? || e.Lose? then
              && e.p in s.procs && Advance(s, e.p, e.answer, s.procs[e.p]).Some?
              && var m := Advance(s, e.p, e.answer, s.procs[e.p]).value;
                 t.log == m.s.log && t.credential == m.s.credential && t.born == m.s.born
            else t.log == s.log && t.credential == s.credential && t.born == s.born
  {
  }

  lemma SameRecordsSameLog(s: State, m: State, t: State)
    requires LogMove(s, m) && t.log == m.log && t.credential == m.credential
    ensures LogMove(s, t)
  {
  }

  lemma StepLogs(s: State, e: Event)
    requires Inv(s) && Next(s, e).Some?
    ensures LogMove(s, Next(s, e).value)
  {
    RecordsOfStep(s, e);
    if e.Go? || e.Lose? {
      assert ProcInv(s, e.p, s.procs[e.p]);
      AdvanceLogs(s, e.p, e.answer, s.procs[e.p]);
      SameRecordsSameLog(s, Advance(s, e.p, e.answer, s.procs[e.p]).value.s, Next(s, e).value);
    } else {
      SameRecordsSameLog(s, s, Next(s, e).value);
    }
  }

  ghost predicate Gone(s: State, c: nat) {
    Inv(s) && c in s.born && s.credential.Some? && s.credential.value.connectionId != Some(c)
  }

  lemma BornStays(s: State, e: Event, c: nat)
    requires Next(s, e).Some? && c in s.born
    ensures c in Next(s, e).value.born
    ensures s.credential.Some? ==> Next(s, e).value.credential.Some?
  {
    RecordsOfStep(s, e);
  }

  lemma StepKeepsGone(s: State, e: Event, c: nat)
    requires Gone(s, c) && Next(s, e).Some?
    ensures Gone(Next(s, e).value, c)
  {
    StepKeepsInv(s, e);
    StepLogs(s, e);
    BornStays(s, e, c);
  }

  /** A connection that was replaced or disconnected never returns, whatever refreshes are in flight. */
  lemma GoneConnectionNeverReturns(before: seq<Event>, s: State, after: seq<Event>, c: nat)
    requires Exec(Next, START, before) == Some(s) && Exec(Next, s, after).Some?
    requires c in s.born && s.credential.Some? && s.credential.value.connectionId != Some(c)
    ensures var t := Exec(Next, s, after).value; t.credential.Some? && t.credential.value.connectionId != Some(c)
  {
    InvOfRuns(before);
    forall t: State, e: Event | Gone(t, c) && Next(t, e).Some? ensures Gone(Next(t, e).value, c) { StepKeepsGone(t, e, c); }
    InvariantOfRuns(Next, t => Gone(t, c), s, after);
  }

  /** A disconnect that takes effect empties the record, and goes on to revoke exactly what it erased
      unless the store call failed after its write: then nothing is revoked. */
  lemma DisconnectRevokesWhatItErased(s: State, e: Event)
    requires (e.Go? || e.Lose?) && e.p in s.procs && s.procs[e.p].RotateSwap? && s.procs[e.p].disconnect
    requires Next(s, e).Some? && Next(s, e).value.log != s.log
    ensures var t := Next(s, e).value;
            && t.credential == Some(Credential(s.procs[e.p].generation, None, None))
            && t.procs[e.p] == if e.Go? then Revoke(if s.credential.Some? then s.credential.value.secret else None)
                               else Finished(false)
  {
  }

  /** A sign-in stores the refresh token it was granted or, when there was none, the one that is live at
      that very moment, and only if that belongs to the same account. */
  lemma CarriedRefreshTokenIsLive(es: seq<Event>, s: State, e: Event)
    requires Exec(Next, START, es) == Some(s) && (e.Go? || e.Lose?) && e.p in s.procs && s.procs[e.p].CallbackSave?
    requires Next(s, e).Some? && Next(s, e).value.log != s.log
    ensures s.credential.Some? && Next(s, e).value.credential.Some?
    ensures Next(s, e).value.credential.value.secret.Some?
    ensures RefreshTokenFrom(Next(s, e).value.credential.value.secret.value, s.credential.value.secret, s.procs[e.p].granted)
  {
    InvOfRuns(es);
    assert ProcInv(s, e.p, s.procs[e.p]);
  }

  predicate Refreshing(pc: Proc, c: nat) {
    || (pc.RefreshFetch? && pc.tokens.connectionId == c)
    || (pc.RefreshUpdate? && pc.tokens.connectionId == c)
    || (pc.RefreshEnd? && pc.connectionId == c)
  }

  /** In one process, at most one refresh of a connection is under way. */
  lemma OneRefreshPerConnection(es: seq<Event>, s: State, p: Pid, q: Pid, c: nat)
    requires Exec(Next, START, es) == Some(s) && p in s.procs && q in s.procs
    requires p.host == q.host && Refreshing(s.procs[p], c) && Refreshing(s.procs[q], c)
    ensures p == q
  {
    InvOfRuns(es);
    assert ProcInv(s, p, s.procs[p]) && ProcInv(s, q, s.procs[q]);
  }

  ghost predicate AllUnderWay(s: State) {
    forall k :: k in s.refreshing ==>
      var p := s.refreshing[k]; p.host == k.0 && p in s.procs && Refreshing(s.procs[p], k.1)
  }

  /** What a step of `p` does to the refreshes under way: only `p`'s own may go. */
  lemma StepKeepsRefreshes(s: State, p: Pid, answer: Answer, pc: Proc)
    requires Advance(s, p, answer, pc).Some? && (forall c :: Refreshing(pc, c) ==> Refreshes(s, p, c))
    requires forall k :: k in s.refreshing && s.refreshing[k] == p ==> k.0 == p.host && Refreshing(pc, k.1)
    ensures RefreshesKept(s, p, Advance(s, p, answer, pc).value)
  {
    if InRotate(pc) { RotateKeepsRefreshes(s, p, pc); }
    else if InCallback(pc) { CallbackKeepsRefreshes(s, p, answer, pc); }
    else { AccessKeepsRefreshes(s, p, answer, pc); }
  }

  ghost predicate RefreshesKept(s: State, p: Pid, m: Move) {
    && m.s.procs == s.procs
    && (forall k :: k in m.s.refreshing && m.s.refreshing[k] == p ==> k.0 == p.host && Refreshing(m.pc, k.1))
    && (forall k :: k in m.s.refreshing && m.s.refreshing[k] != p ==> k in s.refreshing && s.refreshing[k] == m.s.refreshing[k])
  }

  lemma RotateKeepsRefreshes(s: State, p: Pid, pc: Proc)
    requires InRotate(pc) && RotateStep(s, p, pc).Some?
    requires forall k :: k in s.refreshing && s.refreshing[k] == p ==> k.0 == p.host && Refreshing(pc, k.1)
    ensures RefreshesKept(s, p, RotateStep(s, p, pc).value)
  {
  }

  lemma CallbackKeepsRefreshes(s: State, p: Pid, answer: Answer, pc: Proc)
    requires InCallback(pc) && CallbackStep(s, p, answer, pc).Some?
    requires forall k :: k in s.refreshing && s.refreshing[k] == p ==> k.0 == p.host && Refreshing(pc, k.1)
    ensures RefreshesKept(s, p, CallbackStep(s, p, answer, pc).value)
  {
  }

  lemma AccessKeepsRefreshes(s: State, p: Pid, answer: Answer, pc: Proc)
    requires !InRotate(pc) && !InCallback(pc) && !pc.Finished? && AccessStep(s, p, answer, pc).Some?
    requires forall c :: Refreshing(pc, c) ==> Refreshes(s, p, c)
    requires forall k :: k in s.refreshing && s.refreshing[k] == p ==> k.0 == p.host && Refreshing(pc, k.1)
    ensures RefreshesKept(s, p, AccessStep(s, p, answer, pc).value)
  {
  }

  lemma CallKeepsUnderWay(s: State, e: Event)
    requires Inv(s) && AllUnderWay(s) && (e.Go? || e.Lose?) && Next(s, e).Some?
    ensures AllUnderWay(Next(s, e).value)
  {
    var pc, m := s.procs[e.p], Advance(s, e.p, e.answer, s.procs[e.p]).value;
    assert ProcInv(s, e.p, pc);
    StepKeepsRefreshes(s, e.p, e.answer, pc);
    if e.Lose? { LostKeepsRefreshing(s, e.p, e.answer, pc); }
    MoveKeepsUnderWay(s, e.p, m, if e.Go? then m.pc else LostAfter(pc));
  }

  lemma LostKeepsRefreshing(s: State, p: Pid, answer: Answer, pc: Proc)
    requires Writes(pc) && Advance(s, p, answer, pc).Some?
    ensures forall c :: Refreshing(Advance(s, p, answer, pc).value.pc, c) ==> Refreshing(LostAfter(pc), c)
  {
  }

  lemma MoveKeepsUnderWay(s: State, p: Pid, m: Move, pc: Proc)
    requires AllUnderWay(s) && p in s.procs && RefreshesKept(s, p, m)
    requires forall c :: Refreshing(m.pc, c) ==> Refreshing(pc, c)
    ensures AllUnderWay(At(m.s, p, pc))
  {
  }

  /** The call goes to `pc`, at the same refreshes if it had any. */
  lemma UnderWayAt(s: State, p: Pid, pc: Proc)
    requires AllUnderWay(s)
    requires p in s.procs ==> forall c :: Refreshing(s.procs[p], c) ==> Refreshing(pc, c)
    ensures AllUnderWay(At(s, p, pc))
  {
  }

  lemma StepKeepsUnderWay(s: State, e: Event)
    requires Inv(s) && AllUnderWay(s) && Next(s, e).Some?
    ensures AllUnderWay(Next(s, e).value)
  {
    match e
    case Go(_, _) => CallKeepsUnderWay(s, e);
    case Lose(_, _) => CallKeepsUnderWay(s, e);
    case Throw(p) => UnderWayAt(s, p, Next(s, e).value.procs[p]);
    case Begin(p, call) => UnderWayAt(s, p, Enter(s, p, call).pc);
    case Tick(_) =>
  }

  /** Whoever joins a refresh waits for a call that is still at it: none is left behind, however it ended. */
  lemma EveryRefreshIsUnderWay(es: seq<Event>, s: State, k: (nat, nat))
    requires Exec(Next, START, es) == Some(s) && k in s.refreshing
    ensures s.refreshing[k].host == k.0 && s.refreshing[k] in s.procs && Refreshing(s.procs[s.refreshing[k]], k.1)
  {
    forall t: State, e: Event | Inv(t) && AllUnderWay(t) && Next(t, e).Some?
      ensures Inv(Next(t, e).value) && AllUnderWay(Next(t, e).value)
    {
      StepKeepsInv(t, e);
      StepKeepsUnderWay(t, e);
    }
    InvariantOfRuns(Next, t => Inv(t) && AllUnderWay(t), START, es);
  }

  // ------------------------------------------------------------------ the log accounts for the record

  /** The connection a log of changes leaves in the record. */
  function Live(log: seq<Change>): Option<nat> {
    if log == [] then None
    else match log[|log| - 1]
      case Connected(_) => Live(log[..|log| - 1])
      case Disconnected(_, _) => None
      case Stored(_, _, tokens) => Some(tokens.connectionId)
  }

  ghost predicate Accounted(s: State) {
    && Inv(s) && Live(s.log) == LiveIn(s)
    && (forall i :: 0 <= i < |s.log| && s.log[i].Disconnected? ==> ConnectionOf(s.log[i].handed) == Live(s.log[..i]))
  }

  lemma LogMoveKeepsAccounts(s: State, t: State)
    requires Accounted(s) && LogMove(s, t) && Inv(t)
    ensures Accounted(t)
  {
    if t.log != s.log {
      assert t.log[..|s.log|] == s.log;
      forall i | 0 <= i < |t.log| && t.log[i].Disconnected? ensures ConnectionOf(t.log[i].handed) == Live(t.log[..i]) {
        if i < |s.log| { assert t.log[..i] == s.log[..i]; }
      }
    }
  }

  /** Conservation: the record holds the connection of the last sign-in stored after the last
      disconnect, and every disconnect erased the connection that was live then. */
  lemma EveryConnectionIsAccountedFor(es: seq<Event>, s: State)
    requires Exec(Next, START, es) == Some(s)
    ensures Live(s.log) == LiveIn(s)
    ensures forall i :: 0 <= i < |s.log| && s.log[i].Disconnected? ==> ConnectionOf(s.log[i].handed) == Live(s.log[..i])
  {
    forall t: State, e: Event | Accounted(t) && Next(t, e).Some? ensures Accounted(Next(t, e).value) {
      StepKeepsInv(t, e);
      StepLogs(t, e);
      LogMoveKeepsAccounts(t, Next(t, e).value);
    }
    InvariantOfRuns(Next, t => Accounted(t), START, es);
  }
}
