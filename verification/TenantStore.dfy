/** The tenant-scoped store (apps/server/src/db-tenant.ts) refines one independent store per tenant. */
module TenantStore {
  import opened Runs
  import opened RecordStore
  import opened OwnerPrefix

  // ------------------------------------------------------------------ what one tenant sees

  function Scoped(tenant: string, k: Key): Key { k.(owner := Compose(tenant, k.owner)) }

  /** The rows under `tenant:`, with the prefix taken off. */
  function View(rows: Table, tenant: string): (view: Table)
    ensures forall k :: k in view <==> Scoped(tenant, k) in rows
    ensures forall k :: k in view ==> view[k] == rows[Scoped(tenant, k)]
  {
    var mine := set k | k in rows && tenant + ":" <= k.owner :: k.(owner := k.owner[|tenant| + 1..]);
    assert forall k :: k in mine <==> Scoped(tenant, k) in rows by { Unscope(rows, tenant, mine); }
    map k | k in mine :: rows[Scoped(tenant, k)]
  }

  lemma Unscope(rows: Table, tenant: string, mine: set<Key>)
    requires mine == set k | k in rows && tenant + ":" <= k.owner :: k.(owner := k.owner[|tenant| + 1..])
    ensures forall k :: k in mine <==> Scoped(tenant, k) in rows
  {
    forall k ensures k in mine <==> Scoped(tenant, k) in rows {
      var c := Scoped(tenant, k);
      assert c.owner[|tenant| + 1..] == k.owner && tenant + ":" <= c.owner;
      assert c.(owner := c.owner[|tenant| + 1..]) == k;
      if k in mine {
        var r :| r in rows && tenant + ":" <= r.owner && r.(owner := r.owner[|tenant| + 1..]) == k;
        assert r.owner == tenant + ":" + k.owner;
      }
    }
  }

  lemma ViewIs(rows: Table, tenant: string, view: Table)
    requires forall k :: k in view <==> Scoped(tenant, k) in rows
    requires forall k :: k in view ==> view[k] == rows[Scoped(tenant, k)]
    ensures View(rows, tenant) == view
  {
  }

  lemma ScopedIsInjective(tenant: string, a: Key, b: Key)
    ensures Scoped(tenant, a) == Scoped(tenant, b) <==> a == b
  {
    assert Compose(tenant, a.owner)[|tenant| + 1..] == a.owner;
    assert Compose(tenant, b.owner)[|tenant| + 1..] == b.owner;
  }

  lemma ViewOfStore(rows: Table, tenant: string, k: Key, row: Row)
    ensures View(rows[Scoped(tenant, k) := row], tenant) == View(rows, tenant)[k := row]
  {
    forall x ensures Scoped(tenant, x) == Scoped(tenant, k) <==> x == k { ScopedIsInjective(tenant, x, k); }
    ViewIs(rows[Scoped(tenant, k) := row], tenant, View(rows, tenant)[k := row]);
  }

  lemma ViewOfDelete(rows: Table, tenant: string, k: Key)
    ensures View(rows - {Scoped(tenant, k)}, tenant) == View(rows, tenant) - {k}
  {
    forall x ensures Scoped(tenant, x) == Scoped(tenant, k) <==> x == k { ScopedIsInjective(tenant, x, k); }
    ViewIs(rows - {Scoped(tenant, k)}, tenant, View(rows, tenant) - {k});
  }

  lemma ViewOfListing(rows: Table, tenant: string, owner: string, kind: string)
    ensures Listing(rows, Compose(tenant, owner), kind) == Listing(View(rows, tenant), owner, kind)
  {
    var a, b := Listing(rows, Compose(tenant, owner), kind), Listing(View(rows, tenant), owner, kind);
    forall id ensures (id in a <==> id in b) && (id in a ==> a[id] == b[id]) {
      var k := Key(owner, kind, id);
      assert id in a <==> Scoped(tenant, k) in rows by {
        if Scoped(tenant, k) in rows { assert Scoped(tenant, k).id == id; }
      }
      assert id in b <==> k in View(rows, tenant);
    }
  }

  /** An operation of a tenant answers, and changes what that tenant sees, as if the tenant had a store of
      its own.  This covers the task lookup inside `claim`. */
  lemma TenantHasItsOwnStore(rows: Table, tenant: string, owner: string, op: Op, now: nat)
    ensures var (after, r) := Do(rows, Compose(tenant, owner), op, now);
            (View(after, tenant), r) == Do(View(rows, tenant), owner, op, now)
  {
    var view := View(rows, tenant);
    match op
    case Get(kind, id) => assert Scoped(tenant, Key(owner, kind, id)) == Key(Compose(tenant, owner), kind, id);
    case List(kind) => ViewOfListing(rows, tenant, owner, kind);
    case Put(kind, id, data) => ViewOfStore(rows, tenant, Key(owner, kind, id), Row(data, now));
    case Remove(kind, id) => ViewOfDelete(rows, tenant, Key(owner, kind, id));
    case Take(kind, id) => ViewOfDelete(rows, tenant, Key(owner, kind, id));
    case CompareAndSwap(kind, id, expected, patch) =>
      var k := Key(owner, kind, id);
      assert k in view <==> Scoped(tenant, k) in rows;
      if k in view { ViewOfStore(rows, tenant, k, Row(view[k].data + patch, now)); }
    case InsertIfAbsent(kind, id, data) => ViewOfStore(rows, tenant, Key(owner, kind, id), Row(data, now));
    case Claim(id, status, at) => ClaimInView(rows, tenant, owner, id, status, at, now);
    case UpdateCredential(connectionId, secret) =>
      var k := Key(owner, "credentials", "google");
      assert k in view <==> Scoped(tenant, k) in rows;
      if k in view { ViewOfStore(rows, tenant, k, Row(view[k].data["secret" := Text(secret)], now)); }
  }

  lemma LookupInView(rows: Table, tenant: string, k: Key)
    ensures Lookup(rows, Scoped(tenant, k)) == Lookup(View(rows, tenant), k)
  {
  }

  lemma TaskInView(rows: Table, tenant: string, owner: string, action: Option<Row>)
    ensures TaskOf(rows, Compose(tenant, owner), action) == TaskOf(View(rows, tenant), owner, action)
  {
    if action.Some? && TextOf(action.value.data, "taskId").Some? {
      LookupInView(rows, tenant, Key(owner, "tasks", TextOf(action.value.data, "taskId").value));
    }
  }

  lemma ClaimInView(rows: Table, tenant: string, owner: string, id: string, status: string, at: nat, now: nat)
    ensures var (after, r) := DoClaim(rows, Compose(tenant, owner), id, status, at, now);
            (View(after, tenant), r) == DoClaim(View(rows, tenant), owner, id, status, at, now)
  {
    var k, view := Key(owner, "actions", id), View(rows, tenant);
    LookupInView(rows, tenant, k);
    TaskInView(rows, tenant, owner, Lookup(view, k));
    var verdict := ClaimVerdict(Lookup(view, k), TaskOf(view, owner, Lookup(view, k)), status, at);
    if verdict.Found? { ViewOfStore(rows, tenant, k, Row(verdict.data, now)); }
  }

  /** It leaves what every other tenant sees alone, when neither id holds a colon. */
  lemma OtherTenantsUnchanged(rows: Table, tenant: string, owner: string, op: Op, now: nat, other: string)
    requires ':' !in tenant && ':' !in other && tenant != other
    ensures View(Do(rows, Compose(tenant, owner), op, now).0, other) == View(rows, other)
  {
    var after := Do(rows, Compose(tenant, owner), op, now).0;
    forall k ensures Scoped(other, k) in after <==> Scoped(other, k) in rows
             ensures Scoped(other, k) in rows ==> after[Scoped(other, k)] == rows[Scoped(other, k)]
    {
      var c := Scoped(other, k);
      if c.owner == Compose(tenant, owner) { ComposeIsInjective(tenant, owner, other, k.owner); }
      OwnersAreSeparate(rows, Compose(tenant, owner), op, now, c);
    }
    ViewIs(after, other, View(rows, other));
  }

  /** Without that, it is false: a tenant whose id continues another's past a colon writes rows the other
      one sees. */
  lemma ColonsBreakIsolation(rows: Table, a: string, b: string, owner: string, kind: string, id: string, data: Data, now: nat)
    ensures var after := Do(rows, Compose(a + ":" + b, owner), Put(kind, id, data), now).0;
            var k := Key(Compose(b, owner), kind, id);
            k in View(after, a) && View(after, a)[k] == Row(data, now)
  {
    assert Compose(a + ":" + b, owner) == Compose(a, Compose(b, owner));
    assert Scoped(a, Key(Compose(b, owner), kind, id)) == Key(Compose(a + ":" + b, owner), kind, id);
  }

  // ------------------------------------------------------------------ whole histories

  datatype Call = Call(tenant: string, owner: string, op: Op, now: nat)

  function Act(rows: Table, c: Call): (Table, Reply) { Do(rows, Compose(c.tenant, c.owner), c.op, c.now) }

  function ActAlone(rows: Table, c: Call): (Table, Reply) { Do(rows, c.owner, c.op, c.now) }

  lemma CallsAreSeparate(tenant: string)
    requires ':' !in tenant
    ensures Separate(Act, ActAlone, (rows: Table) => View(rows, tenant), (c: Call) => c.tenant == tenant,
                     (c: Call) => ':' !in c.tenant)
  {
    forall rows: Table, c: Call | ':' !in c.tenant
      ensures if c.tenant == tenant then (View(Act(rows, c).0, tenant), Act(rows, c).1) == ActAlone(View(rows, tenant), c)
              else View(Act(rows, c).0, tenant) == View(rows, tenant)
    {
      if c.tenant == tenant {
        TenantHasItsOwnStore(rows, tenant, c.owner, c.op, c.now);
      } else {
        OtherTenantsUnchanged(rows, c.tenant, c.owner, c.op, c.now, tenant);
      }
    }
  }

  /** Over any history of any colon-free tenants, a tenant gets the answers, and is left with the rows,
      that its own calls alone produce on a store of its own. */
  lemma HistoriesAreIsolated(rows: Table, calls: seq<Call>, tenant: string)
    requires ':' !in tenant && forall i :: 0 <= i < |calls| ==> ':' !in calls[i].tenant
    ensures (View(Serve(Act, rows, calls).0, tenant),
             AnswersTo(calls, Serve(Act, rows, calls).1, (c: Call) => c.tenant == tenant))
         == Serve(ActAlone, View(rows, tenant), Select(calls, (c: Call) => c.tenant == tenant))
  {
    CallsAreSeparate(tenant);
    SeparateHistories(Act, ActAlone, (r: Table) => View(r, tenant), (c: Call) => c.tenant == tenant,
                      (c: Call) => ':' !in c.tenant, rows, calls);
  }
}
