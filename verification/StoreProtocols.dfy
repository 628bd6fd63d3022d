/** The protocols of this project write typed records; the store keeps rows of named fields.  Here the swaps
    and the claim of the protocols are shown to be the store's own statements on the rows that represent them. */
module StoreProtocols {
  import opened Runs
  import RecordStore
  import ActionApproval
  import ComputerLease
  import ComputerService
  import GoogleCredentials
  import DeferredActions
  import VoiceCalls

  type Data = RecordStore.Data

  ghost predicate Injective<T(!new)>(name: T -> string) { forall x, y :: name(x) == name(y) ==> x == y }

  // ------------------------------------------------------------------ the action record

  type Action = ActionApproval.Action
  type Content = ActionApproval.Content

  function StatusText(s: ActionApproval.Status): string {
    match s
    case AwaitingReview => "awaiting_review"
    case Executing => "executing"
    case Denied => "denied"
    case Expired => "expired"
    case Cancelled => "cancelled"
    case Succeeded => "succeeded"
    case Failed => "failed"
    case OutcomeUnknown => "outcome_unknown"
  }

  /** The fields of the row that guards look at are those of the action. */
  ghost predicate Represents(data: Data, a: Action, digest: Content -> string) {
    && "status" in data && data["status"] == RecordStore.Text(StatusText(a.status))
    && "hash" in data && data["hash"] == RecordStore.Text(digest(a.hash))
    && "expiresAt" in data && data["expiresAt"].Instant? && data["expiresAt"].at == a.expiresAt
    && (RecordStore.TextOf(data, "taskId").Some? <==> a.hasTask)
  }

  /** The table holds the protocol's action, and its task as the protocol sees it. */
  ghost predicate Holds(rows: RecordStore.Table, owner: string, id: string, s: ActionApproval.State, digest: Content -> string) {
    var action := RecordStore.Lookup(rows, RecordStore.Key(owner, "actions", id));
    && (action.Some? <==> s.action.Some?)
    && (action.Some? ==> Represents(action.value.data, s.action.value, digest))
    && (action.Some? && s.action.value.hasTask ==>
          var task := RecordStore.TaskOf(rows, owner, action);
          s.taskLive <==> task.Some? && RecordStore.TextOf(task.value.data, "status") in {Some("running"), Some("waiting_approval")})
  }

  /** The store's claim hits exactly what the protocol calls claimable, and leaves the row marked. */
  lemma ClaimIsTheProtocols(rows: RecordStore.Table, owner: string, id: string, s: ActionApproval.State,
                            digest: Content -> string, approve: bool, reading: nat, now: nat)
    requires Holds(rows, owner, id, s, digest)
    ensures var status := if approve then ActionApproval.Executing else ActionApproval.Denied;
            var (after, r) := RecordStore.Do(rows, owner, RecordStore.Claim(id, StatusText(status), reading), now);
            && (r.Found? <==> ActionApproval.Claimable(s, approve, reading))
            && (if r.Found? then Holds(after, owner, id, ActionApproval.Marked(s, status), digest) else after == rows)
  {
  }

  /** What a swap guards, or changes: the status, and the hash where one is given. */
  function Fields(status: ActionApproval.Status, hash: Option<string>): Data {
    var fields := map["status" := RecordStore.Text(StatusText(status))];
    if hash.Some? then fields["hash" := RecordStore.Text(hash.value)] else fields
  }

  function Digested(c: Option<Content>, digest: Content -> string): Option<string> {
    if c.Some? then Some(digest(c.value)) else None
  }

  lemma StatusesDiffer()
    ensures forall a, b :: StatusText(a) == StatusText(b) ==> a == b
  {
    assert forall a :: StatusText(a)[0] in {'a', 'e', 'd', 'c', 's', 'f', 'o'} && StatusText(a)[1] in {'w', 'x', 'e', 'a', 'u'};
    assert StatusText(ActionApproval.Executing)[2] != StatusText(ActionApproval.Expired)[2];
  }

  lemma GuardIsTheProtocols(data: Data, a: Action, digest: Content -> string, was: ActionApproval.Status, seen: Option<Content>)
    requires Represents(data, a, digest) && Injective(digest)
    ensures RecordStore.Contains(data, Fields(was, Digested(seen, digest)))
            <==> a.status == was && (seen.Some? ==> a.hash == seen.value)
  {
    StatusesDiffer();
    var expected := Fields(was, Digested(seen, digest));
    assert "status" in expected && (seen.Some? ==> "hash" in expected);
    assert forall f :: f in expected ==> f == "status" || f == "hash";
  }

  /** The action after a swap. */
  function Swapped(a: Action, to: ActionApproval.Status, hash: Option<Content>): Action {
    a.(status := to, hash := if hash.Some? then hash.value else a.hash)
  }

  lemma PatchIsTheProtocols(data: Data, a: Action, digest: Content -> string, to: ActionApproval.Status, hash: Option<Content>, rest: Data)
    requires Represents(data, a, digest) && rest.Keys !! {"status", "hash", "expiresAt", "taskId"}
    ensures Represents(data + (rest + Fields(to, Digested(hash, digest))), Swapped(a, to, hash), digest)
    ensures RecordStore.TextOf(data + (rest + Fields(to, Digested(hash, digest))), "taskId") == RecordStore.TextOf(data, "taskId")
  {
    var patch := rest + Fields(to, Digested(hash, digest));
    assert "expiresAt" !in patch && "taskId" !in patch && "status" in patch;
  }

  /** The store's swap hits exactly where the protocol's guard does, because no two statuses and no two
      contents share a text; the row then represents the action with its new status and hash, whatever else
      was written beside them. */
  lemma SwapIsTheProtocols(rows: RecordStore.Table, owner: string, id: string, s: ActionApproval.State, digest: Content -> string,
                           was: ActionApproval.Status, seen: Option<Content>, to: ActionApproval.Status, hash: Option<Content>,
                           rest: Data, now: nat)
    requires Holds(rows, owner, id, s, digest) && Injective(digest) && rest.Keys !! {"status", "hash", "expiresAt", "taskId"}
    ensures var swap := RecordStore.CompareAndSwap("actions", id, Fields(was, Digested(seen, digest)),
                                                   rest + Fields(to, Digested(hash, digest)));
            var (after, r) := RecordStore.Do(rows, owner, swap, now);
            && (r.Found? <==> ActionApproval.Has(s, was) && (seen.Some? ==> s.action.value.hash == seen.value))
            && (if r.Found? then Holds(after, owner, id, s.(action := Some(Swapped(s.action.value, to, hash))), digest) else after == rows)
  {
    var k := RecordStore.Key(owner, "actions", id);
    if k in rows {
      GuardIsTheProtocols(rows[k].data, s.action.value, digest, was, seen);
      PatchIsTheProtocols(rows[k].data, s.action.value, digest, to, hash, rest);
    }
  }

  // ------------------------------------------------------------------ the lease

  type Lease = ComputerLease.Lease

  function Flag(b: bool): RecordStore.Value { RecordStore.Other(if b then "true" else "false") }

  function FlagOf(b: Option<bool>): Option<RecordStore.Value> { if b.Some? then Some(Flag(b.value)) else None }

  function NumberOf(n: Option<nat>, name: nat -> string): Option<RecordStore.Value> {
    if n.Some? then Some(RecordStore.Text(name(n.value))) else None
  }

  const COLUMNS := {"token", "expiresAt", "stopping", "stopInFlight", "stopAttempt", "stopConfirmed", "executorDone", "command"}

  /** What a swap of the lease says about one field. */
  function FieldOf(f: ComputerService.Fields, column: string, name: nat -> string): Option<RecordStore.Value> {
    if column == "token" then NumberOf(f.token, name)
    else if column == "expiresAt" then NumberOf(f.expiresAt, name)
    else if column == "stopping" then FlagOf(f.stopping)
    else if column == "stopInFlight" then FlagOf(f.stopInFlight)
    else if column == "stopAttempt" then NumberOf(f.stopAttempt, name)
    else if column == "stopConfirmed" then FlagOf(f.stopConfirmed)
    else if column == "executorDone" then FlagOf(f.executorDone)
    else FlagOf(f.command)
  }

  /** The fields a swap of the lease names, as the store sees them. */
  function Named(f: ComputerService.Fields, name: nat -> string): Data {
    map column | column in COLUMNS && FieldOf(f, column, name).Some? :: FieldOf(f, column, name).value
  }

  /** The row has all the fields of the lease, beside others no swap names. */
  predicate IsLease(data: Data, l: Lease, name: nat -> string) {
    forall column :: column in COLUMNS ==> column in data && Some(data[column]) == FieldOf(ComputerService.Whole(l), column, name)
  }

  /** One column of the guard. */
  predicate Agrees(l: Lease, f: ComputerService.Fields, column: string, name: nat -> string) {
    FieldOf(f, column, name).Some? ==> FieldOf(ComputerService.Whole(l), column, name) == FieldOf(f, column, name)
  }

  lemma NumberAgrees(l: Lease, f: ComputerService.Fields, name: nat -> string)
    requires Injective(name)
    ensures Agrees(l, f, "token", name) <==> (f.token.Some? ==> l.token == f.token.value)
    ensures Agrees(l, f, "expiresAt", name) <==> (f.expiresAt.Some? ==> l.expiresAt == f.expiresAt.value)
    ensures Agrees(l, f, "stopAttempt", name) <==> (f.stopAttempt.Some? ==> l.stopAttempt == f.stopAttempt.value)
  {
  }

  lemma StopFlagAgrees(l: Lease, f: ComputerService.Fields, name: nat -> string)
    ensures Agrees(l, f, "stopping", name) <==> (f.stopping.Some? ==> l.stopping == f.stopping.value)
    ensures Agrees(l, f, "stopInFlight", name) <==> (f.stopInFlight.Some? ==> l.stopInFlight == f.stopInFlight.value)
    ensures Agrees(l, f, "stopConfirmed", name) <==> (f.stopConfirmed.Some? ==> l.stopConfirmed == f.stopConfirmed.value)
  {
  }

  lemma WorkFlagAgrees(l: Lease, f: ComputerService.Fields, name: nat -> string)
    ensures Agrees(l, f, "executorDone", name) <==> (f.executorDone.Some? ==> l.executorDone == f.executorDone.value)
    ensures Agrees(l, f, "command", name) <==> (f.command.Some? ==> l.command == f.command.value)
  {
  }

  ghost predicate InAll(holds: string -> bool) {
    && holds("token") && holds("expiresAt") && holds("stopAttempt")
    && holds("stopping") && holds("stopInFlight") && holds("stopConfirmed") && holds("executorDone") && holds("command")
  }

  lemma AllColumns(holds: string -> bool)
    ensures InAll(holds) <==> forall column :: column in COLUMNS ==> holds(column)
  {
    assert "token" in COLUMNS && "expiresAt" in COLUMNS && "stopping" in COLUMNS && "stopInFlight" in COLUMNS;
    assert "stopAttempt" in COLUMNS && "stopConfirmed" in COLUMNS && "executorDone" in COLUMNS && "command" in COLUMNS;
  }

  lemma MatchesByColumn(l: Lease, f: ComputerService.Fields, name: nat -> string)
    requires Injective(name)
    ensures ComputerService.Matches(l, f) <==> InAll(column => Agrees(l, f, column, name))
  {
    NumberAgrees(l, f, name);
    StopFlagAgrees(l, f, name);
    WorkFlagAgrees(l, f, name);
  }

  lemma LeaseGuardIsTheProtocols(data: Data, l: Lease, f: ComputerService.Fields, name: nat -> string)
    requires IsLease(data, l, name) && Injective(name)
    ensures RecordStore.Contains(data, Named(f, name)) <==> ComputerService.Matches(l, f)
  {
    MatchesByColumn(l, f, name);
    AllColumns(column => Agrees(l, f, column, name));
    assert RecordStore.Contains(data, Named(f, name)) <==> forall column :: column in COLUMNS ==> Agrees(l, f, column, name);
  }

  lemma PatchedByColumn(l: Lease, f: ComputerService.Fields, column: string, name: nat -> string)
    ensures FieldOf(ComputerService.Whole(ComputerService.Patched(l, f)), column, name)
         == if FieldOf(f, column, name).Some? then FieldOf(f, column, name) else FieldOf(ComputerService.Whole(l), column, name)
  {
  }

  lemma LeasePatchIsTheProtocols(data: Data, l: Lease, f: ComputerService.Fields, name: nat -> string)
    requires IsLease(data, l, name)
    ensures IsLease(data + Named(f, name), ComputerService.Patched(l, f), name)
  {
    forall column | column in COLUMNS { PatchedByColumn(l, f, column, name); }
  }

  /** A swap of the lease record is the protocol's: it hits exactly where the named fields match, and leaves
      the row of the patched lease. */
  lemma LeaseSwapIsTheProtocols(rows: RecordStore.Table, owner: string, kind: string, id: string, l: Lease,
                                expected: ComputerService.Fields, patch: ComputerService.Fields, name: nat -> string, now: nat)
    requires Injective(name)
    requires var k := RecordStore.Key(owner, kind, id); k in rows && IsLease(rows[k].data, l, name)
    ensures var k := RecordStore.Key(owner, kind, id);
            var (after, r) := RecordStore.Do(rows, owner, RecordStore.CompareAndSwap(kind, id, Named(expected, name), Named(patch, name)), now);
            && (r.Found? <==> ComputerService.Matches(l, expected))
            && (if r.Found? then k in after && IsLease(after[k].data, ComputerService.Patched(l, patch), name) else after == rows)
  {
    var k := RecordStore.Key(owner, kind, id);
    LeaseGuardIsTheProtocols(rows[k].data, l, expected, name);
    LeasePatchIsTheProtocols(rows[k].data, l, patch, name);
  }

  // ------------------------------------------------------------------ the Google credential

  type Credential = GoogleCredentials.Credential
  type Tokens = GoogleCredentials.Tokens

  /** The fields a statement on the credential names. */
  datatype Part = Part(generation: Option<nat>, connectionId: Option<Option<nat>>, secret: Option<Option<Tokens>>)

  predicate PartMatches(c: Credential, part: Part) {
    && (part.generation.Some? ==> c.generation == part.generation.value)
    && (part.connectionId.Some? ==> c.connectionId == part.connectionId.value)
    && (part.secret.Some? ==> c.secret == part.secret.value)
  }

  function PartPatched(c: Credential, part: Part): Credential {
    GoogleCredentials.Credential(
      if part.generation.Some? then part.generation.value else c.generation,
      if part.connectionId.Some? then part.connectionId.value else c.connectionId,
      if part.secret.Some? then part.secret.value else c.secret)
  }

  function WholePart(c: Credential): Part { Part(Some(c.generation), Some(c.connectionId), Some(c.secret)) }

  function TextOrNull<T>(x: Option<T>, text: T -> string): RecordStore.Value {
    if x.Some? then RecordStore.Text(text(x.value)) else RecordStore.Null
  }

  function PartRow(part: Part, name: nat -> string, seal: Tokens -> string): Data {
    var none: Data := map[];
    (if part.generation.Some? then map["generation" := RecordStore.Text(name(part.generation.value))] else none)
    + (if part.connectionId.Some? then map["connectionId" := TextOrNull(part.connectionId.value, name)] else none)
    + (if part.secret.Some? then map["secret" := TextOrNull(part.secret.value, seal)] else none)
  }

  predicate IsCredential(data: Data, c: Credential, name: nat -> string, seal: Tokens -> string) {
    && "generation" in data && data["generation"] == RecordStore.Text(name(c.generation))
    && "connectionId" in data && data["connectionId"] == TextOrNull(c.connectionId, name)
    && "secret" in data && data["secret"] == TextOrNull(c.secret, seal)
  }

  const CREDENTIAL := "google"

  predicate HoldsCredential(rows: RecordStore.Table, owner: string, c: Option<Credential>, name: nat -> string, seal: Tokens -> string) {
    var k := RecordStore.Key(owner, "credentials", CREDENTIAL);
    (k in rows <==> c.Some?) && (c.Some? && k in rows ==> IsCredential(rows[k].data, c.value, name, seal))
  }

  lemma PartIsTheProtocols(data: Data, c: Credential, part: Part, name: nat -> string, seal: Tokens -> string)
    requires IsCredential(data, c, name, seal) && Injective(name) && Injective(seal)
    ensures RecordStore.Contains(data, PartRow(part, name, seal)) <==> PartMatches(c, part)
    ensures IsCredential(data + PartRow(part, name, seal), PartPatched(c, part), name, seal)
  {
    var row := PartRow(part, name, seal);
    assert part.generation.Some? <==> "generation" in row;
    assert part.connectionId.Some? <==> "connectionId" in row;
    assert part.secret.Some? <==> "secret" in row;
    assert forall f :: f in row ==> f == "generation" || f == "connectionId" || f == "secret";
  }

  /** A swap of the credential, on the generation or on the whole record, is the protocol's. */
  lemma CredentialSwapIsTheProtocols(rows: RecordStore.Table, owner: string, c: Option<Credential>, expected: Part, patch: Part,
                                     name: nat -> string, seal: Tokens -> string, now: nat)
    requires HoldsCredential(rows, owner, c, name, seal) && Injective(name) && Injective(seal)
    ensures var swap := RecordStore.CompareAndSwap("credentials", CREDENTIAL, PartRow(expected, name, seal), PartRow(patch, name, seal));
            var (after, r) := RecordStore.Do(rows, owner, swap, now);
            && (r.Found? <==> c.Some? && PartMatches(c.value, expected))
            && (if r.Found? then HoldsCredential(after, owner, Some(PartPatched(c.value, patch)), name, seal) else after == rows)
  {
    if c.Some? {
      var data := rows[RecordStore.Key(owner, "credentials", CREDENTIAL)].data;
      PartIsTheProtocols(data, c.value, expected, name, seal);
      PartIsTheProtocols(data, c.value, patch, name, seal);
    }
  }

  /** So are the first insert and the update of the secret under its connection. */
  lemma CredentialWritesAreTheProtocols(rows: RecordStore.Table, owner: string, c: Option<Credential>, first: Credential,
                                        connectionId: nat, tokens: Tokens, name: nat -> string, seal: Tokens -> string, now: nat)
    requires HoldsCredential(rows, owner, c, name, seal) && Injective(name) && Injective(seal)
    ensures var (after, r) := RecordStore.Do(rows, owner,
                                RecordStore.InsertIfAbsent("credentials", CREDENTIAL, PartRow(WholePart(first), name, seal)), now);
            && (r.Found? <==> c.None?)
            && HoldsCredential(after, owner, if c.None? then Some(first) else c, name, seal)
    ensures var (after, r) := RecordStore.Do(rows, owner, RecordStore.UpdateCredential(name(connectionId), seal(tokens)), now);
            && (r == RecordStore.Count(1) <==> c.Some? && c.value.connectionId == Some(connectionId))
            && HoldsCredential(after, owner,
                               if c.Some? && c.value.connectionId == Some(connectionId) then Some(c.value.(secret := Some(tokens))) else c,
                               name, seal)
  {
  }

  // ------------------------------------------------------------------ deferred actions

  type Deferred = DeferredActions.Record

  function DeferredText(s: DeferredActions.Status): string {
    match s
    case Collecting => "collecting"
    case Scheduled => "scheduled"
    case Running => "running"
    case Executed => "executed"
    case Cancelled => "cancelled"
    case Failed => "failed"
  }

  lemma DeferredTextsDiffer()
    ensures forall a, b :: DeferredText(a) == DeferredText(b) ==> a == b
  {
    assert forall a :: DeferredText(a)[0] in {'c', 's', 'r', 'e', 'f'} && DeferredText(a)[1] in {'o', 'c', 'u', 'x', 'a'};
    assert DeferredText(DeferredActions.Collecting)[1] != DeferredText(DeferredActions.Cancelled)[1];
  }

  function StatusField(s: DeferredActions.Status): Data { map["status" := RecordStore.Text(DeferredText(s))] }

  /** `rest` spells the other fields of a record. */
  predicate IsDeferred(data: Data, r: Deferred, rest: Deferred -> Data) {
    data == rest(r.(status := DeferredActions.Collecting)) + StatusField(r.status)
  }

  predicate HoldsDeferred(rows: RecordStore.Table, id: string, r: Option<Deferred>, rest: Deferred -> Data) {
    var k := RecordStore.Key("system", "deferred-actions", id);
    (k in rows <==> r.Some?) && (r.Some? && k in rows ==> IsDeferred(rows[k].data, r.value, rest))
  }

  /** The claim and the cancellation of a deferred action are swaps of its status. */
  lemma DeferredSwapIsTheProtocols(rows: RecordStore.Table, id: string, s: DeferredActions.State, was: DeferredActions.Status,
                                   to: DeferredActions.Status, rest: Deferred -> Data, now: nat)
    requires HoldsDeferred(rows, id, s.record, rest)
    ensures var swap := RecordStore.CompareAndSwap("deferred-actions", id, StatusField(was), StatusField(to));
            var (after, r) := RecordStore.Do(rows, "system", swap, now);
            && (r.Found? <==> DeferredActions.Has(s, was))
            && (if r.Found? then HoldsDeferred(after, id, DeferredActions.SetStatus(s, to).record, rest) else after == rows)
  {
    DeferredTextsDiffer();
    if s.record.Some? {
      var data := rows[RecordStore.Key("system", "deferred-actions", id)].data;
      assert data["status"] == RecordStore.Text(DeferredText(s.record.value.status));
      assert RecordStore.Contains(data, StatusField(was)) <==> data["status"] == RecordStore.Text(DeferredText(was));
      assert data + StatusField(to) == rest(s.record.value.(status := DeferredActions.Collecting)) + StatusField(to);
    }
  }

  /** The signature of `decide` and the outcome of a run are puts of the whole record, whatever is stored. */
  lemma DeferredPutsAreTheProtocols(rows: RecordStore.Table, id: string, s: DeferredActions.State, r: Deferred, done: bool,
                                    rest: Deferred -> Data, now: nat)
    requires HoldsDeferred(rows, id, s.record, rest)
    ensures var put := RecordStore.Put("deferred-actions", id, rest(r.(status := DeferredActions.Collecting)) + StatusField(r.status));
            HoldsDeferred(RecordStore.Do(rows, "system", put, now).0, id, DeferredActions.Put(s, r).record, rest)
    ensures var outcome := r.(status := if done then DeferredActions.Executed else DeferredActions.Failed);
            var put := RecordStore.Put("deferred-actions", id, rest(r.(status := DeferredActions.Collecting)) + StatusField(outcome.status));
            HoldsDeferred(RecordStore.Do(rows, "system", put, now).0, id, DeferredActions.SavedOutcome(s, r, done).record, rest)
  {
    assert r.(status := DeferredActions.Executed).(status := DeferredActions.Collecting) == r.(status := DeferredActions.Collecting);
    assert r.(status := DeferredActions.Failed).(status := DeferredActions.Collecting) == r.(status := DeferredActions.Collecting);
  }

  // ------------------------------------------------------------------ telephone calls

  /** `read` tells what the provider's word for a status comes to. */
  predicate HoldsCall(rows: RecordStore.Table, k: RecordStore.Key, record: Option<VoiceCalls.CallStatus>, read: string -> VoiceCalls.CallStatus) {
    && (k in rows <==> record.Some?)
    && (k in rows && record.Some? ==>
          RecordStore.TextOf(rows[k].data, "status").Some? && read(RecordStore.TextOf(rows[k].data, "status").value) == record.value)
  }

  /** The reservation of a call is an insert, its removal a delete, its record a put. */
  lemma CallWritesAreTheProtocols(rows: RecordStore.Table, k: RecordStore.Key, record: Option<VoiceCalls.CallStatus>,
                                  read: string -> VoiceCalls.CallStatus, data: Data, now: nat)
    requires HoldsCall(rows, k, record, read) && RecordStore.TextOf(data, "status").Some?
    ensures var (after, r) := RecordStore.Do(rows, k.owner, RecordStore.InsertIfAbsent(k.kind, k.id, data), now);
            && (r.Found? <==> record.None?)
            && HoldsCall(after, k, if record.None? then Some(read(RecordStore.TextOf(data, "status").value)) else record, read)
    ensures HoldsCall(RecordStore.Do(rows, k.owner, RecordStore.Remove(k.kind, k.id), now).0, k, None, read)
    ensures HoldsCall(RecordStore.Do(rows, k.owner, RecordStore.Put(k.kind, k.id, data), now).0, k,
                      Some(read(RecordStore.TextOf(data, "status").value)), read)
  {
  }
}
