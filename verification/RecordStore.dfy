/** The record store (apps/server/src/db.ts): one table keyed by owner, kind and id, and the single SQL
    statement behind every operation. */
module RecordStore {
  import opened Runs

  /** A field of a record.  Text that reads as a timestamp carries the instant it denotes. */
  datatype Value = Null | Text(text: string) | Instant(text: string, at: nat) | Other(text: string)

  type Data = map<string, Value>

  datatype Key = Key(owner: string, kind: string, id: string)

  datatype Row = Row(data: Data, updatedAt: nat)

  type Table = map<Key, Row>

  datatype Op =
    | Get(kind: string, id: string)
    | List(kind: string)
    | Put(kind: string, id: string, data: Data)
    | Remove(kind: string, id: string)
    | Take(kind: string, id: string)
    | CompareAndSwap(kind: string, id: string, expected: Data, patch: Data)
    | InsertIfAbsent(kind: string, id: string, data: Data)
    | Claim(id: string, status: string, at: nat)
    | UpdateCredential(connectionId: string, secret: string)

  /** `Listed` holds the rows a listing query orders and cuts; `Failed` is a query that raised an error. */
  datatype Reply = Found(data: Data) | Missing | Done | Listed(rows: map<string, Row>) | Count(n: nat) | Failed

  /** `data ->> field`. */
  function TextOf(data: Data, field: string): Option<string> {
    if field !in data || data[field].Null? then None else Some(data[field].text)
  }

  /** `data @> expected`, for flat objects. */
  predicate Contains(data: Data, expected: Data) {
    forall f :: f in expected ==> f in data && data[f] == expected[f]
  }

  function Listing(rows: Table, owner: string, kind: string): map<string, Row> {
    var ids := set k | k in rows && k.owner == owner && k.kind == kind :: k.id;
    map id | id in ids :: rows[Key(owner, kind, id)]
  }

  function Answer(rows: Table, k: Key): Reply { if k in rows then Found(rows[k].data) else Missing }

  function Lookup(rows: Table, k: Key): Option<Row> { if k in rows then Some(rows[k]) else None }

  /** The row of the same owner the action's `taskId` names. */
  function TaskOf(rows: Table, owner: string, action: Option<Row>): Option<Row> {
    if action.None? || TextOf(action.value.data, "taskId").None? then None
    else Lookup(rows, Key(owner, "tasks", TextOf(action.value.data, "taskId").value))
  }

  /** Execution needs an open task, unless the action has none to ask. */
  predicate TaskAllows(data: Data, task: Option<Row>, status: string) {
    || status != "executing" || TextOf(data, "taskId").None?
    || (task.Some? && TextOf(task.value.data, "status") in {Some("running"), Some("waiting_approval")})
  }

  function ClaimVerdict(action: Option<Row>, task: Option<Row>, status: string, at: nat): Reply {
    if action.None? || TextOf(action.value.data, "status") != Some("awaiting_review") then Missing
    else
      var data := action.value.data;
      if TextOf(data, "expiresAt").None? then Missing
      else if !data["expiresAt"].Instant? then Failed
      else if data["expiresAt"].at <= at || !TaskAllows(data, task, status) then Missing
      else Found(data["status" := Text(status)])
  }

  function DoClaim(rows: Table, owner: string, id: string, status: string, at: nat, now: nat): (Table, Reply) {
    var k := Key(owner, "actions", id);
    var verdict := ClaimVerdict(Lookup(rows, k), TaskOf(rows, owner, Lookup(rows, k)), status, at);
    (if verdict.Found? then rows[k := Row(verdict.data, now)] else rows, verdict)
  }

  /** What one statement does to the table, and its answer. */
  function Do(rows: Table, owner: string, op: Op, now: nat): (Table, Reply) {
    match op
    case Get(kind, id) => (rows, Answer(rows, Key(owner, kind, id)))
    case List(kind) => (rows, Listed(Listing(rows, owner, kind)))
    case Put(kind, id, data) => (rows[Key(owner, kind, id) := Row(data, now)], Found(data))
    case Remove(kind, id) => (rows - {Key(owner, kind, id)}, Done)
    case Take(kind, id) => (rows - {Key(owner, kind, id)}, Answer(rows, Key(owner, kind, id)))
    case CompareAndSwap(kind, id, expected, patch) =>
      var k := Key(owner, kind, id);
      if k in rows && Contains(rows[k].data, expected) then
        (rows[k := Row(rows[k].data + patch, now)], Found(rows[k].data + patch))
      else (rows, Missing)
    case InsertIfAbsent(kind, id, data) =>
      var k := Key(owner, kind, id);
      if k in rows then (rows, Missing) else (rows[k := Row(data, now)], Found(data))
    case Claim(id, status, at) => DoClaim(rows, owner, id, status, at, now)
    case UpdateCredential(connectionId, secret) =>
      var k := Key(owner, "credentials", "google");
      if k in rows && TextOf(rows[k].data, "connectionId") == Some(connectionId) then
        (rows[k := Row(rows[k].data["secret" := Text(secret)], now)], Count(1))
      else (rows, Count(0))
  }

  /** A swap with the current contents as its guard always succeeds, and nothing else does: of two swaps
      racing from the same reading, the second fails as soon as the first changed a guarded field. */
  lemma OneSwapWins(rows: Table, owner: string, kind: string, id: string, expected: Data, first: Data, second: Data,
                    field: string, now: nat, later: nat)
    requires field in expected && field in first && first[field] != expected[field]
    ensures var (after, r) := Do(rows, owner, CompareAndSwap(kind, id, expected, first), now);
            r.Found? ==> Do(after, owner, CompareAndSwap(kind, id, expected, second), later) == (after, Missing)
  {
    var k := Key(owner, kind, id);
    if k in rows && Contains(rows[k].data, expected) {
      assert (rows[k].data + first)[field] == first[field];
    }
  }

  /** A swap hits exactly the row that has every field it expects, takes over each field of its patch and keeps
      the others; a miss changes nothing. */
  lemma SwapHitsExactly(rows: Table, owner: string, kind: string, id: string, expected: Data, patch: Data, now: nat)
    ensures var (after, r) := Do(rows, owner, CompareAndSwap(kind, id, expected, patch), now);
            var k := Key(owner, kind, id);
            && (r.Found? <==> k in rows && forall f :: f in expected ==> f in rows[k].data && rows[k].data[f] == expected[f])
            && after - {k} == rows - {k}
            && (!r.Found? ==> r == Missing && after == rows)
            && (r.Found? ==>
                  k in after && after[k] == Row(r.data, now) && r.data.Keys == rows[k].data.Keys + patch.Keys
                  && forall f :: f in r.data ==> r.data[f] == if f in patch then patch[f] else rows[k].data[f])
  {
  }

  /** A claim hits exactly an action under review, before its expiry, whose task is open if it is to execute and
      names one; it sets the status and nothing else.  An expiry that is no instant is an error. */
  lemma ClaimHitsExactly(rows: Table, owner: string, id: string, status: string, at: nat, now: nat)
    ensures var (after, r) := Do(rows, owner, Claim(id, status, at), now);
            var k := Key(owner, "actions", id);
            var waits := k in rows && "status" in rows[k].data && rows[k].data["status"] != Null
                         && rows[k].data["status"].text == "awaiting_review"
                         && "expiresAt" in rows[k].data && rows[k].data["expiresAt"] != Null;
            && (r.Failed? <==> waits && !rows[k].data["expiresAt"].Instant?)
            && (r.Found? <==> waits && rows[k].data["expiresAt"].Instant? && rows[k].data["expiresAt"].at > at
                              && (status == "executing" ==> TaskIsOpen(rows, owner, rows[k].data)))
            && after - {k} == rows - {k} && (!r.Found? ==> after == rows)
            && (r.Found? ==>
                  k in after && after[k] == Row(r.data, now) && r.data - {"status"} == rows[k].data - {"status"}
                  && TextOf(r.data, "status") == Some(status))
  {
  }

  /** The action names no task, or one that runs or waits for an approval. */
  predicate TaskIsOpen(rows: Table, owner: string, action: Data) {
    "taskId" !in action || action["taskId"].Null? ||
    var k := Key(owner, "tasks", action["taskId"].text);
    k in rows && "status" in rows[k].data && !rows[k].data["status"].Null?
    && (rows[k].data["status"].text == "running" || rows[k].data["status"].text == "waiting_approval")
  }

  /** What is put is what is read, a removal leaves nothing, a `take` hands over what was there and leaves
      nothing; other rows stay as they were, and a reading changes none. */
  lemma ReadsWhatWasWritten(rows: Table, owner: string, kind: string, id: string, data: Data, now: nat, later: nat)
    ensures var k := Key(owner, kind, id);
            var put, removed, taken := Do(rows, owner, Put(kind, id, data), now), Do(rows, owner, Remove(kind, id), now),
                                       Do(rows, owner, Take(kind, id), now);
            && Do(put.0, owner, Get(kind, id), later) == (put.0, Found(data)) && put.1 == Found(data)
            && Lookup(put.0, k) == Some(Row(data, now)) && put.0 - {k} == rows - {k}
            && Do(removed.0, owner, Get(kind, id), later) == (removed.0, Missing) && removed.0 == rows - {k}
            && taken == (rows - {k}, if k in rows then Found(rows[k].data) else Missing)
            && Do(rows, owner, Get(kind, id), now) == (rows, if k in rows then Found(rows[k].data) else Missing)
  {
  }

  /** A successful claim found the action open, in time and with its task's leave, and no later claim finds it. */
  lemma ClaimWinsOnce(rows: Table, owner: string, id: string, status: string, at: nat, now: nat,
                      other: string, later: nat, afterwards: nat)
    requires status != "awaiting_review"
    requires Do(rows, owner, Claim(id, status, at), now).1.Found?
    ensures var action := Lookup(rows, Key(owner, "actions", id));
            && action.Some? && TextOf(action.value.data, "status") == Some("awaiting_review")
            && "expiresAt" in action.value.data && action.value.data["expiresAt"].Instant? && action.value.data["expiresAt"].at > at
            && TaskAllows(action.value.data, TaskOf(rows, owner, action), status)
    ensures var after := Do(rows, owner, Claim(id, status, at), now).0;
            Do(after, owner, Claim(id, other, later), afterwards) == (after, Missing)
  {
    var k := Key(owner, "actions", id);
    var (after, r) := Do(rows, owner, Claim(id, status, at), now);
    assert Lookup(after, k) == Some(Row(r.data, now)) && TextOf(r.data, "status") == Some(status);
  }

  /** A record handed out by `take` is never handed out again until it is stored again. */
  lemma TakenOnce(rows: Table, owner: string, kind: string, id: string, now: nat, later: nat)
    ensures Do(Do(rows, owner, Take(kind, id), now).0, owner, Take(kind, id), later).1 == Missing
  {
  }

  /** An insert hits exactly where there was no row, stores what it was given and touches no other row; of two
      inserts of one key the second misses, whatever it brings. */
  lemma FirstInsertWins(rows: Table, owner: string, kind: string, id: string, data: Data, now: nat, second: Data, later: nat)
    ensures var (after, r) := Do(rows, owner, InsertIfAbsent(kind, id, data), now);
            var k := Key(owner, kind, id);
            && (r.Found? <==> k !in rows) && (r.Found? || r.Missing?)
            && Lookup(after, k) == (if k in rows then Some(rows[k]) else Some(Row(data, now)))
            && after - {k} == rows - {k}
            && Do(after, owner, InsertIfAbsent(kind, id, second), later) == (after, Missing)
  {
  }

  /** An update of the credential hits exactly the record that still has the connection it names, and changes
      its secret alone. */
  lemma UpdateNeedsItsConnection(rows: Table, owner: string, connectionId: string, secret: string, now: nat)
    ensures var (after, r) := Do(rows, owner, UpdateCredential(connectionId, secret), now);
            var k := Key(owner, "credentials", "google");
            && (r == Count(1) || (r == Count(0) && after == rows))
            && (r == Count(1) <==> k in rows && TextOf(rows[k].data, "connectionId") == Some(connectionId))
            && after - {k} == rows - {k}
            && (r == Count(1) ==>
                  k in after && TextOf(after[k].data, "secret") == Some(secret) && after[k].data - {"secret"} == rows[k].data - {"secret"})
  {
  }

  /** Once a swap has given the record another connection, or none, an update for the old one changes nothing. */
  lemma StaleUpdateChangesNothing(rows: Table, owner: string, expected: Data, patch: Data, now: nat,
                                  connectionId: string, secret: string, later: nat)
    requires "connectionId" in patch && TextOf(patch, "connectionId") != Some(connectionId)
    requires Do(rows, owner, CompareAndSwap("credentials", "google", expected, patch), now).1.Found?
    ensures var after := Do(rows, owner, CompareAndSwap("credentials", "google", expected, patch), now).0;
            Do(after, owner, UpdateCredential(connectionId, secret), later) == (after, Count(0))
  {
    var k := Key(owner, "credentials", "google");
    assert (rows[k].data + patch)["connectionId"] == patch["connectionId"];
  }

  /** No statement of one owner reads or writes a row of another. */
  lemma OwnersAreSeparate(rows: Table, owner: string, op: Op, now: nat, k: Key)
    requires k.owner != owner
    ensures k in Do(rows, owner, op, now).0 <==> k in rows
    ensures k in rows ==> Do(rows, owner, op, now).0[k] == rows[k]
  {
  }

  class Store {
    var rows: Table

    constructor ()
      ensures rows == map[]
    {
      rows := map[];
    }

    method Get(owner: string, kind: string, id: string) returns (r: Reply)
      ensures r == Do(rows, owner, Op.Get(kind, id), 0).1
    {
      var k := Key(owner, kind, id);
      r := if k in rows then Found(rows[k].data) else Missing;
    }

    method List(owner: string, kind: string) returns (r: Reply)
      ensures r == Do(rows, owner, Op.List(kind), 0).1
    {
      r := Listed(Listing(rows, owner, kind));
    }

    method Put(owner: string, kind: string, id: string, data: Data, now: nat) returns (r: Reply)
      modifies this
      ensures (rows, r) == Do(old(rows), owner, Op.Put(kind, id, data), now)
    {
      rows := rows[Key(owner, kind, id) := Row(data, now)];
      r := Found(data);
    }

    method Remove(owner: string, kind: string, id: string, now: nat) returns (r: Reply)
      modifies this
      ensures (rows, r) == Do(old(rows), owner, Op.Remove(kind, id), now)
    {
      rows := rows - {Key(owner, kind, id)};
      r := Done;
    }

    method Take(owner: string, kind: string, id: string, now: nat) returns (r: Reply)
      modifies this
      ensures (rows, r) == Do(old(rows), owner, Op.Take(kind, id), now)
    {
      r := Get(owner, kind, id);
      rows := rows - {Key(owner, kind, id)};
    }

    method CompareAndSwap(owner: string, kind: string, id: string, expected: Data, patch: Data, now: nat)
      returns (r: Reply)
      modifies this
      ensures (rows, r) == Do(old(rows), owner, Op.CompareAndSwap(kind, id, expected, patch), now)
    {
      var k := Key(owner, kind, id);
      r := Missing;
      if k in rows && forall f | f in expected :: f in rows[k].data && rows[k].data[f] == expected[f] {
        var data := rows[k].data + patch;
        rows, r := rows[k := Row(data, now)], Found(data);
      }
    }

    method InsertIfAbsent(owner: string, kind: string, id: string, data: Data, now: nat) returns (r: Reply)
      modifies this
      ensures (rows, r) == Do(old(rows), owner, Op.InsertIfAbsent(kind, id, data), now)
    {
      r := Missing;
      if Key(owner, kind, id) !in rows {
        rows, r := rows[Key(owner, kind, id) := Row(data, now)], Found(data);
      }
    }

    method Claim(owner: string, id: string, status: string, at: nat, now: nat) returns (r: Reply)
      modifies this
      ensures (rows, r) == Do(old(rows), owner, Op.Claim(id, status, at), now)
    {
      var k := Key(owner, "actions", id);
      r := Missing;
      if k !in rows || TextOf(rows[k].data, "status") != Some("awaiting_review") { return; }
      var data := rows[k].data;
      if TextOf(data, "expiresAt").None? { return; }
      if !data["expiresAt"].Instant? { r := Failed; return; }
      if data["expiresAt"].at > at && TaskAllows(data, TaskOf(rows, owner, Some(rows[k])), status) {
        data := data["status" := Text(status)];
        rows, r := rows[k := Row(data, now)], Found(data);
      }
    }

    method UpdateCredential(owner: string, connectionId: string, secret: string, now: nat) returns (r: Reply)
      modifies this
      ensures (rows, r) == Do(old(rows), owner, Op.UpdateCredential(connectionId, secret), now)
    {
      var k := Key(owner, "credentials", "google");
      r := Count(0);
      if k in rows && TextOf(rows[k].data, "connectionId") == Some(connectionId) {
        rows, r := rows[k := Row(rows[k].data["secret" := Text(secret)], now)], Count(1);
      }
    }
  }
}
