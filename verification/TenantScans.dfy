/** The class behind apps/server/src/db-tenant.ts: keyed operations that register the tenants they see, and
    the scans over the registered tenants. */
module TenantScans {
  import opened Runs
  import opened RecordStore
  import opened OwnerPrefix
  import opened TenantStore

  /** A row a scan answers with. */
  datatype Hit = Hit(key: Key, data: Data)

  const MAX_SCAN := 50000

  /** What a scan makes of the limit it is asked for: at least one row and at most fifty thousand. */
  function Effective(limit: nat): nat { if limit == 0 then 1 else if limit > MAX_SCAN then MAX_SCAN else limit }

  function Under(rows: Table, kind: string, prefix: string): set<Key> {
    set k | k in rows && k.kind == kind && prefix <= k.owner
  }

  function KeysOf(hits: seq<Hit>): set<Key> { set h | h in hits :: h.key }

  ghost predicate DistinctHits(hits: seq<Hit>) { forall i, j :: 0 <= i < j < |hits| ==> hits[i].key != hits[j].key }

  ghost predicate Real(rows: Table, kind: string, hits: seq<Hit>) {
    forall h :: h in hits ==> h.key in rows && h.key.kind == kind && rows[h.key].data == h.data
  }

  /** What one scan query answers: the oldest rows under the prefix, each once, up to the limit. */
  ghost predicate IsScan(rows: Table, kind: string, prefix: string, limit: nat, hits: seq<Hit>) {
    && Real(rows, kind, hits) && DistinctHits(hits) && |hits| <= limit && KeysOf(hits) <= Under(rows, kind, prefix)
    && forall k :: k in Under(rows, kind, prefix) - KeysOf(hits) ==>
         |hits| == limit && forall h :: h in hits ==> rows[h.key].updatedAt <= rows[k].updatedAt
  }

  lemma {:induction false} OldestExists(rows: Table, ks: set<Key>)
    requires ks != {} && ks <= rows.Keys
    ensures exists m :: m in ks && forall k :: k in ks ==> rows[m].updatedAt <= rows[k].updatedAt
  {
    var a :| a in ks;
    var rest := ks - {a};
    if rest != {} {
      OldestExists(rows, rest);
      var m :| m in rest && forall k :: k in rest ==> rows[m].updatedAt <= rows[k].updatedAt;
      var first := if rows[a].updatedAt <= rows[m].updatedAt then a else m;
      forall k | k in ks ensures rows[first].updatedAt <= rows[k].updatedAt {
        if k != a { assert k in rest; }
      }
    } else {
      assert ks == {a};
    }
  }

  /** `ORDER BY updated_at ASC LIMIT`. */
  method Oldest(rows: Table, kind: string, ks: set<Key>, prefix: string, limit: nat) returns (hits: seq<Hit>)
    requires ks == Under(rows, kind, prefix)
    ensures IsScan(rows, kind, prefix, limit, hits)
  {
    hits := [];
    var rest := ks;
    while |hits| < limit && rest != {}
      invariant |hits| <= limit && Real(rows, kind, hits) && DistinctHits(hits)
      invariant rest !! KeysOf(hits) && rest + KeysOf(hits) == ks
      invariant forall h, k :: h in hits && k in rest ==> rows[h.key].updatedAt <= rows[k].updatedAt
    {
      OldestExists(rows, rest);
      var m :| m in rest && forall k :: k in rest ==> rows[m].updatedAt <= rows[k].updatedAt;
      var more := hits + [Hit(m, rows[m].data)];
      assert KeysOf(more) == KeysOf(hits) + {m} by { assert more[|hits|] in more; }
      hits, rest := more, rest - {m};
    }
  }

  /** None when the prefix is refused. */
  method ScanByOwnerPrefix(rows: Table, kind: string, prefix: string, limit: nat) returns (r: Option<seq<Hit>>)
    ensures r.None? <==> !Accepted(prefix)
    ensures r.Some? ==> IsScan(rows, kind, prefix, Effective(limit), r.value)
  {
    if !Accepted(prefix) { return None; }
    var selected := set k | k in rows && k.kind == kind && Like(Escape(prefix) + "%", k.owner);
    forall k ensures k in selected <==> k in Under(rows, kind, prefix) { AcceptedIsExact(prefix, k.owner); }
    var hits := Oldest(rows, kind, selected, prefix, Effective(limit));
    r := Some(hits);
  }

  // ------------------------------------------------------------------ complete scans

  lemma {:induction false} SubsetSize<T>(a: set<T>, b: set<T>)
    requires a <= b
    ensures |a| <= |b|
  {
    if a != {} {
      var x :| x in a;
      SubsetSize(a - {x}, b - {x});
    }
  }

  lemma {:induction false} KeyCount(hits: seq<Hit>)
    requires DistinctHits(hits)
    ensures |KeysOf(hits)| == |hits|
    decreases |hits|
  {
    if hits != [] {
      var n := |hits| - 1;
      KeyCount(hits[..n]);
      assert hits == hits[..n] + [hits[n]];
      assert KeysOf(hits) == KeysOf(hits[..n]) + {hits[n].key};
      assert hits[n].key !in KeysOf(hits[..n]);
    }
  }

  /** A query whose rows all fit misses none. */
  lemma RoomForAll(rows: Table, kind: string, prefix: string, limit: nat, hits: seq<Hit>)
    requires IsScan(rows, kind, prefix, limit, hits) && |Under(rows, kind, prefix)| <= limit
    ensures Under(rows, kind, prefix) <= KeysOf(hits)
  {
    if k :| k in Under(rows, kind, prefix) - KeysOf(hits) {
      KeyCount(hits);
      SubsetSize(KeysOf(hits) + {k}, Under(rows, kind, prefix));
    }
  }

  // ------------------------------------------------------------------ pieces of several tenants

  ghost predicate DistinctTenants(tenants: seq<string>) {
    && (forall i, j :: 0 <= i < j < |tenants| ==> tenants[i] != tenants[j])
    && forall t :: t in tenants ==> ':' !in t
  }

  ghost predicate Of(tenants: seq<string>, owner: string) { exists t :: t in tenants && t + ":" <= owner }

  lemma OneTenantPerOwner(a: string, b: string, owner: string)
    requires ':' !in a && ':' !in b && a + ":" <= owner && b + ":" <= owner
    ensures a == b
  {
    ComposeIsInjective(a, owner[|a| + 1..], b, owner[|b| + 1..]);
  }

  lemma PeelOf(tenant: string, owner: string)
    requires ':' !in tenant && tenant + ":" <= owner
    ensures owner == Compose(tenant, Peel(owner))
  {
    assert owner == Compose(tenant, owner[|tenant| + 1..]);
    PeelUndoesCompose(tenant, owner[|tenant| + 1..]);
  }

  /** `raw` holds rows of the first `i` tenants, each once. */
  ghost predicate Pieces(rows: Table, kind: string, tenants: seq<string>, i: nat, raw: seq<Hit>)
    requires i <= |tenants|
  {
    && Real(rows, kind, raw) && DistinctHits(raw) && forall h :: h in raw ==> Of(tenants[..i], h.key.owner)
  }

  lemma AddPiece(rows: Table, kind: string, tenants: seq<string>, i: nat, raw: seq<Hit>, limit: nat, piece: seq<Hit>, part: seq<Hit>)
    requires DistinctTenants(tenants) && i < |tenants| && Pieces(rows, kind, tenants, i, raw)
    requires IsScan(rows, kind, tenants[i] + ":", limit, piece)
    requires DistinctHits(part) && forall h :: h in part ==> h in piece
    ensures Pieces(rows, kind, tenants, i + 1, raw + part)
  {
    var t := tenants[i];
    assert tenants[..i + 1] == tenants[..i] + [t];
    forall h | h in part ensures t + ":" <= h.key.owner {
      assert h in piece && h.key in KeysOf(piece) && h.key in Under(rows, kind, t + ":");
    }
    forall g, h | g in raw && h in part ensures g.key != h.key {
      var u :| u in tenants[..i] && u + ":" <= g.key.owner;
      if g.key == h.key { OneTenantPerOwner(u, t, g.key.owner); }
    }
    forall a, b | 0 <= a < b < |raw + part| ensures (raw + part)[a].key != (raw + part)[b].key {
      if a < |raw| <= b { assert raw[a] in raw && part[b - |raw|] in part; }
    }
    forall h | h in raw + part ensures Of(tenants[..i + 1], h.key.owner) {
      if h in part { assert t in tenants[..i + 1]; }
    }
  }

  function Peeled(h: Hit): Hit { h.(key := h.key.(owner := Peel(h.key.owner))) }

  function PeelAll(hits: seq<Hit>): (r: seq<Hit>)
    ensures |r| == |hits| && forall i :: 0 <= i < |r| ==> r[i] == Peeled(hits[i])
  {
    if hits == [] then [] else [Peeled(hits[0])] + PeelAll(hits[1..])
  }

  // ------------------------------------------------------------------ statuses and tags

  datatype Tagged = Tagged(tenant: Option<string>, hit: Hit)

  predicate HasStatus(data: Data, statuses: set<string>) {
    && "status" in data && (data["status"].Text? || data["status"].Instant?)
    && data["status"].text != "" && data["status"].text in statuses
  }

  function Wanted(hits: seq<Hit>, statuses: set<string>): (r: seq<Hit>)
    ensures forall h :: h in r <==> h in hits && HasStatus(h.data, statuses)
  {
    if hits == [] then []
    else (if HasStatus(hits[0].data, statuses) then [hits[0]] else []) + Wanted(hits[1..], statuses)
  }

  lemma {:induction false} WantedDistinct(hits: seq<Hit>, statuses: set<string>)
    requires DistinctHits(hits)
    ensures DistinctHits(Wanted(hits, statuses)) && |Wanted(hits, statuses)| <= |hits|
    decreases |hits|
  {
    if hits != [] {
      WantedDistinct(hits[1..], statuses);
      forall h | h in Wanted(hits[1..], statuses) ensures h.key != hits[0].key {
        var i :| 0 <= i < |hits[1..]| && hits[1..][i] == h;
        assert hits[i + 1] == h;
      }
    }
  }

  /** The tenant the scan went through, or the one read off the composed owner. */
  function Tag(h: Hit, scanned: Option<string>): Tagged {
    var i := FirstColon(h.key.owner);
    Tagged(if scanned.Some? then scanned else if 0 < i < |h.key.owner| then Some(h.key.owner[..i]) else None, Peeled(h))
  }

  function TagAll(hits: seq<Hit>, scanned: Option<string>): (r: seq<Tagged>)
    ensures |r| == |hits| && forall i :: 0 <= i < |r| ==> r[i] == Tag(hits[i], scanned)
  {
    if hits == [] then [] else [Tag(hits[0], scanned)] + TagAll(hits[1..], scanned)
  }

  /** The key a caller composes again from an answer. */
  function Recompose(x: Tagged): Key { if x.tenant.Some? then Scoped(x.tenant.value, x.hit.key) else x.hit.key }

  /** The answer leads back to its stored row, but for a row whose composed owner starts with a colon and
      whose tenant had to be read off it. */
  ghost predicate Traces(x: Tagged, h: Hit) {
    && x.hit.data == h.data
    && (Recompose(x) == h.key <==> !(x.tenant.None? && ":" <= h.key.owner))
  }

  lemma TagTraces(h: Hit, scanned: Option<string>)
    requires scanned.Some? ==> ':' !in scanned.value && scanned.value + ":" <= h.key.owner
    ensures Traces(Tag(h, scanned), h)
  {
    var owner := h.key.owner;
    var i := FirstColon(owner);
    if scanned.Some? {
      PeelOf(scanned.value, owner);
    } else if 0 < i < |owner| {
      assert ':' !in owner[..i] && owner[..i] + ":" <= owner;
      PeelOf(owner[..i], owner);
    }
  }

  /** Every wanted row under the prefix was found, unless there are more rows than the limit. */
  ghost predicate Covered(rows: Table, kind: string, prefix: string, statuses: set<string>, limit: nat, found: seq<Hit>) {
    |Under(rows, kind, prefix)| <= limit ==>
      forall k :: k in Under(rows, kind, prefix) && HasStatus(rows[k].data, statuses) ==> k in KeysOf(found)
  }

  lemma WantedCovers(rows: Table, kind: string, prefix: string, statuses: set<string>, limit: nat, piece: seq<Hit>)
    requires IsScan(rows, kind, prefix, limit, piece)
    ensures Covered(rows, kind, prefix, statuses, limit, Wanted(piece, statuses))
  {
    if |Under(rows, kind, prefix)| <= limit {
      RoomForAll(rows, kind, prefix, limit, piece);
      forall k | k in Under(rows, kind, prefix) && HasStatus(rows[k].data, statuses)
        ensures k in KeysOf(Wanted(piece, statuses))
      {
        var h :| h in piece && h.key == k;
        assert h in Wanted(piece, statuses);
      }
    }
  }

  lemma MoreCovers(rows: Table, kind: string, prefix: string, statuses: set<string>, limit: nat, found: seq<Hit>, more: seq<Hit>)
    requires Covered(rows, kind, prefix, statuses, limit, found) && KeysOf(found) <= KeysOf(more)
    ensures Covered(rows, kind, prefix, statuses, limit, more)
  {
  }

  /** Covered for each of the first `i` tenants. */
  ghost predicate AllCovered(rows: Table, kind: string, tenants: seq<string>, i: nat, statuses: set<string>, limit: nat, found: seq<Hit>)
    requires i <= |tenants|
  {
    i == 0 || (AllCovered(rows, kind, tenants, i - 1, statuses, limit, found)
               && Covered(rows, kind, tenants[i - 1] + ":", statuses, limit, found))
  }

  lemma {:induction false} MoreCoversAll(rows: Table, kind: string, tenants: seq<string>, i: nat, statuses: set<string>, limit: nat,
                                         found: seq<Hit>, more: seq<Hit>)
    requires i <= |tenants| && AllCovered(rows, kind, tenants, i, statuses, limit, found) && KeysOf(found) <= KeysOf(more)
    ensures AllCovered(rows, kind, tenants, i, statuses, limit, more)
  {
    if i > 0 {
      MoreCoversAll(rows, kind, tenants, i - 1, statuses, limit, found, more);
      MoreCovers(rows, kind, tenants[i - 1] + ":", statuses, limit, found, more);
    }
  }

  lemma {:induction false} CoveredAt(rows: Table, kind: string, tenants: seq<string>, i: nat, statuses: set<string>, limit: nat,
                                     found: seq<Hit>, t: string)
    requires i <= |tenants| && AllCovered(rows, kind, tenants, i, statuses, limit, found) && t in tenants[..i]
    ensures Covered(rows, kind, t + ":", statuses, limit, found)
  {
    if t != tenants[i - 1] {
      assert tenants[..i] == tenants[..i - 1] + [tenants[i - 1]];
      CoveredAt(rows, kind, tenants, i - 1, statuses, limit, found, t);
    }
  }

  // ------------------------------------------------------------------ refused tenants

  predicate Slug(t: string) { forall i :: 0 <= i < |t| ==> 'a' <= t[i] <= 'z' || '0' <= t[i] <= '9' || t[i] == '-' }

  /** An id the registration form accepts can be scanned exactly when it has no two dashes in a row. */
  lemma SlugIsScannable(t: string)
    requires Slug(t)
    ensures Accepted(t + ":") <==> forall i :: 0 <= i < |t| - 1 ==> t[i] != '-' || t[i + 1] != '-'
  {
    var p := t + ":";
    if Accepted(p) {
      forall i | 0 <= i < |t| - 1 ensures t[i] != '-' || t[i + 1] != '-' {
        assert p[i] == t[i] && p[i + 1] == t[i + 1];
      }
    }
    if forall i :: 0 <= i < |t| - 1 ==> t[i] != '-' || t[i + 1] != '-' {
      forall i | 0 <= i < |p|
        ensures p[i] !in {'"', '\'', '`', ';', '\\'} && !IsSpace(p[i])
        ensures i + 1 < |p| ==> (p[i], p[i + 1]) !in {('/', '*'), ('-', '-')}
      {
        if i < |t| { assert p[i] == t[i]; }
        if i + 1 < |t| { assert p[i + 1] == t[i + 1] && (t[i] != '-' || t[i + 1] != '-'); }
      }
    }
  }

  /** The answers are wanted stored rows, each once, and lead back to them. */
  ghost predicate Answers(rows: Table, kind: string, statuses: set<string>, out: seq<Tagged>, raw: seq<Hit>) {
    && Real(rows, kind, raw) && DistinctHits(raw) && |out| == |raw|
    && (forall h :: h in raw ==> HasStatus(h.data, statuses))
    && forall i :: 0 <= i < |raw| ==> Traces(out[i], raw[i])
  }

  lemma PartTraces(rows: Table, kind: string, t: string, limit: nat, piece: seq<Hit>, part: seq<Hit>)
    requires IsScan(rows, kind, t + ":", limit, piece) && ':' !in t && forall h :: h in part ==> h in piece
    ensures forall j :: 0 <= j < |part| ==> Traces(TagAll(part, Some(t))[j], part[j])
  {
    forall j | 0 <= j < |part| ensures Traces(TagAll(part, Some(t))[j], part[j]) {
      assert part[j] in piece && part[j].key in KeysOf(piece) && part[j].key in Under(rows, kind, t + ":");
      TagTraces(part[j], Some(t));
    }
  }

  lemma AppendAnswers(rows: Table, kind: string, statuses: set<string>, out: seq<Tagged>, raw: seq<Hit>, more: seq<Tagged>, part: seq<Hit>)
    requires Answers(rows, kind, statuses, out, raw) && Real(rows, kind, raw + part) && DistinctHits(raw + part)
    requires |more| == |part| && forall h :: h in part ==> HasStatus(h.data, statuses)
    requires forall j :: 0 <= j < |part| ==> Traces(more[j], part[j])
    ensures Answers(rows, kind, statuses, out + more, raw + part)
  {
  }

  lemma PartAnswers(rows: Table, kind: string, tenants: seq<string>, i: nat, found: seq<Hit>, limit: nat,
                    piece: seq<Hit>, statuses: set<string>, out: seq<Tagged>)
    requires DistinctTenants(tenants) && i < |tenants| && Pieces(rows, kind, tenants, i, found)
    requires IsScan(rows, kind, tenants[i] + ":", limit, piece) && Answers(rows, kind, statuses, out, found)
    ensures var part := Wanted(piece, statuses);
      && Pieces(rows, kind, tenants, i + 1, found + part)
      && Answers(rows, kind, statuses, out + TagAll(part, Some(tenants[i])), found + part)
      && KeysOf(found + part) == KeysOf(found) + KeysOf(part)
      && Covered(rows, kind, tenants[i] + ":", statuses, limit, found + part)
  {
    var part, t := Wanted(piece, statuses), tenants[i];
    WantedDistinct(piece, statuses);
    AddPiece(rows, kind, tenants, i, found, limit, piece, part);
    WantedCovers(rows, kind, t + ":", statuses, limit, piece);
    assert KeysOf(found + part) == KeysOf(found) + KeysOf(part);
    MoreCovers(rows, kind, t + ":", statuses, limit, part, found + part);
    PartTraces(rows, kind, t, limit, piece, part);
    AppendAnswers(rows, kind, statuses, out, found, TagAll(part, Some(t)), part);
  }

  /** What going through the first `i` tenants has gathered. */
  ghost predicate Gathered(rows: Table, kind: string, tenants: seq<string>, i: nat, statuses: set<string>, limit: nat,
                           out: seq<Tagged>, found: seq<Hit>)
    requires i <= |tenants|
  {
    && Pieces(rows, kind, tenants, i, found) && Answers(rows, kind, statuses, out, found)
    && AllCovered(rows, kind, tenants, i, statuses, limit, found)
  }

  lemma GatherMore(rows: Table, kind: string, tenants: seq<string>, i: nat, statuses: set<string>, limit: nat,
                   out: seq<Tagged>, found: seq<Hit>, piece: seq<Hit>)
    requires DistinctTenants(tenants) && i < |tenants|
    requires Gathered(rows, kind, tenants, i, statuses, limit, out, found)
    requires IsScan(rows, kind, tenants[i] + ":", limit, piece)
    ensures var part := Wanted(piece, statuses);
            Gathered(rows, kind, tenants, i + 1, statuses, limit, out + TagAll(part, Some(tenants[i])), found + part)
  {
    var part := Wanted(piece, statuses);
    PartAnswers(rows, kind, tenants, i, found, limit, piece, statuses, out);
    MoreCoversAll(rows, kind, tenants, i, statuses, limit, found, found + part);
  }

  lemma GatheredAll(rows: Table, kind: string, tenants: seq<string>, i: nat, statuses: set<string>, limit: nat,
                    out: seq<Tagged>, found: seq<Hit>)
    requires i <= |tenants| && Gathered(rows, kind, tenants, i, statuses, limit, out, found)
    ensures Answers(rows, kind, statuses, out, found) && forall h :: h in found ==> Of(tenants, h.key.owner)
    ensures i == |tenants| ==> forall t :: t in tenants ==> Covered(rows, kind, t + ":", statuses, limit, found)
  {
    forall h | h in found ensures Of(tenants, h.key.owner) {
      var t :| t in tenants[..i] && t + ":" <= h.key.owner;
      assert t in tenants;
    }
    forall t | t in tenants && i == |tenants| ensures Covered(rows, kind, t + ":", statuses, limit, found) {
      assert tenants[..i] == tenants;
      CoveredAt(rows, kind, tenants, i, statuses, limit, found, t);
    }
  }

  lemma FirstAnswers(rows: Table, kind: string, statuses: set<string>, out: seq<Tagged>, raw: seq<Hit>, n: nat)
    requires Answers(rows, kind, statuses, out, raw) && n <= |raw|
    ensures Answers(rows, kind, statuses, out[..n], raw[..n])
  {
  }

  // ------------------------------------------------------------------ the class

  /** What an operation of one tenant means, seen by that tenant and by every other one. */
  ghost predicate ActsAlone(before: Table, after: Table, tenant: string, owner: string, op: Op, now: nat, r: Reply) {
    && (View(after, tenant), r) == Do(View(before, tenant), owner, op, now)
    && forall other :: ':' !in other && other != tenant ==> View(after, other) == View(before, other)
  }

  lemma ScopedActsAlone(before: Table, tenant: string, owner: string, op: Op, now: nat)
    requires ':' !in tenant
    ensures var (after, r) := Do(before, Compose(tenant, owner), op, now);
            ActsAlone(before, after, tenant, owner, op, now, r)
  {
    TenantHasItsOwnStore(before, tenant, owner, op, now);
    forall other | ':' !in other && other != tenant
      ensures View(Do(before, Compose(tenant, owner), op, now).0, other) == View(before, other)
    {
      OtherTenantsUnchanged(before, tenant, owner, op, now, other);
    }
  }

  /** `tenant` is what the resolver answers for the owner; a tenant id holds no colon. */
  class TenantScopedStore {
    const store: Store
    var tenants: seq<string>

    ghost predicate Valid() reads this { DistinctTenants(tenants) }

    constructor (store: Store)
      ensures Valid() && this.store == store && tenants == []
    {
      this.store := store;
      tenants := [];
    }

    method Compound(tenant: string, owner: string) returns (key: string)
      requires Valid() && ':' !in tenant
      modifies this
      ensures Valid() && key == Compose(tenant, owner)
      ensures forall t :: t in tenants <==> t in old(tenants) || t == tenant
    {
      if tenant !in tenants { tenants := tenants + [tenant]; }
      key := tenant + ":" + owner;
    }

    method Get(tenant: string, owner: string, kind: string, id: string) returns (r: Reply)
      requires Valid() && ':' !in tenant
      modifies this
      ensures Valid() && ActsAlone(store.rows, store.rows, tenant, owner, Op.Get(kind, id), 0, r)
    {
      var key := Compound(tenant, owner);
      ScopedActsAlone(store.rows, tenant, owner, Op.Get(kind, id), 0);
      r := store.Get(key, kind, id);
    }

    method List(tenant: string, owner: string, kind: string) returns (r: Reply)
      requires Valid() && ':' !in tenant
      modifies this
      ensures Valid() && ActsAlone(store.rows, store.rows, tenant, owner, Op.List(kind), 0, r)
    {
      var key := Compound(tenant, owner);
      ScopedActsAlone(store.rows, tenant, owner, Op.List(kind), 0);
      r := store.List(key, kind);
    }

    method Put(tenant: string, owner: string, kind: string, id: string, data: Data, now: nat) returns (r: Reply)
      requires Valid() && ':' !in tenant
      modifies this, store
      ensures Valid() && ActsAlone(old(store.rows), store.rows, tenant, owner, Op.Put(kind, id, data), now, r)
    {
      var key := Compound(tenant, owner);
      ScopedActsAlone(store.rows, tenant, owner, Op.Put(kind, id, data), now);
      r := store.Put(key, kind, id, data, now);
    }

    method Remove(tenant: string, owner: string, kind: string, id: string, now: nat) returns (r: Reply)
      requires Valid() && ':' !in tenant
      modifies this, store
      ensures Valid() && ActsAlone(old(store.rows), store.rows, tenant, owner, Op.Remove(kind, id), now, r)
    {
      var key := Compound(tenant, owner);
      ScopedActsAlone(store.rows, tenant, owner, Op.Remove(kind, id), now);
      r := store.Remove(key, kind, id, now);
    }

    method CompareAndSwap(tenant: string, owner: string, kind: string, id: string, expected: Data, patch: Data, now: nat)
      returns (r: Reply)
      requires Valid() && ':' !in tenant
      modifies this, store
      ensures Valid()
      ensures ActsAlone(old(store.rows), store.rows, tenant, owner, Op.CompareAndSwap(kind, id, expected, patch), now, r)
    {
      var key := Compound(tenant, owner);
      ScopedActsAlone(store.rows, tenant, owner, Op.CompareAndSwap(kind, id, expected, patch), now);
      r := store.CompareAndSwap(key, kind, id, expected, patch, now);
    }

    method InsertIfAbsent(tenant: string, owner: string, kind: string, id: string, data: Data, now: nat) returns (r: Reply)
      requires Valid() && ':' !in tenant
      modifies this, store
      ensures Valid() && ActsAlone(old(store.rows), store.rows, tenant, owner, Op.InsertIfAbsent(kind, id, data), now, r)
    {
      var key := Compound(tenant, owner);
      ScopedActsAlone(store.rows, tenant, owner, Op.InsertIfAbsent(kind, id, data), now);
      r := store.InsertIfAbsent(key, kind, id, data, now);
    }

    method Claim(tenant: string, owner: string, id: string, status: string, at: nat, now: nat) returns (r: Reply)
      requires Valid() && ':' !in tenant
      modifies this, store
      ensures Valid() && ActsAlone(old(store.rows), store.rows, tenant, owner, Op.Claim(id, status, at), now, r)
    {
      var key := Compound(tenant, owner);
      ScopedActsAlone(store.rows, tenant, owner, Op.Claim(id, status, at), now);
      r := store.Claim(key, id, status, at, now);
    }

    method Take(tenant: string, owner: string, kind: string, id: string, now: nat) returns (r: Reply)
      requires Valid() && ':' !in tenant
      modifies this, store
      ensures Valid() && ActsAlone(old(store.rows), store.rows, tenant, owner, Op.Take(kind, id), now, r)
    {
      var key := Compound(tenant, owner);
      ScopedActsAlone(store.rows, tenant, owner, Op.Take(kind, id), now);
      r := store.Take(key, kind, id, now);
    }

    method UpdateCredential(tenant: string, owner: string, connectionId: string, secret: string, now: nat) returns (r: Reply)
      requires Valid() && ':' !in tenant
      modifies this, store
      ensures Valid()
      ensures ActsAlone(old(store.rows), store.rows, tenant, owner, Op.UpdateCredential(connectionId, secret), now, r)
    {
      var key := Compound(tenant, owner);
      ScopedActsAlone(store.rows, tenant, owner, Op.UpdateCredential(connectionId, secret), now);
      r := store.UpdateCredential(key, connectionId, secret, now);
    }

    /** Every registered tenant's prefix passes the validator, so the scan is filtered. */
    ghost predicate Filters() reads this {
      tenants != [] && forall t :: t in tenants ==> Accepted(t + ":")
    }

    ghost predicate Reaches(owner: string) reads this { Filters() ==> Of(tenants, owner) }

    method ScanTenants(kind: string, limit: nat) returns (threw: bool, found: seq<Hit>)
      requires Valid() && tenants != []
      ensures threw <==> !Filters()
      ensures !threw ==> Pieces(store.rows, kind, tenants, |tenants|, found)
      ensures !threw && |found| < Effective(limit) ==>
                forall t :: t in tenants ==> Under(store.rows, kind, t + ":") <= KeysOf(found)
    {
      threw, found := false, [];
      for i := 0 to |tenants|
        invariant Pieces(store.rows, kind, tenants, i, found)
        invariant forall j :: 0 <= j < i ==> Accepted(tenants[j] + ":")
        invariant |found| < Effective(limit) ==>
                    forall j :: 0 <= j < i ==> Under(store.rows, kind, tenants[j] + ":") <= KeysOf(found)
      {
        var piece := ScanByOwnerPrefix(store.rows, kind, tenants[i] + ":", limit);
        if piece.None? { return true, []; }
        AddPiece(store.rows, kind, tenants, i, found, Effective(limit), piece.value, piece.value);
        assert KeysOf(found + piece.value) == KeysOf(found) + KeysOf(piece.value);
        found := found + piece.value;
      }
    }

    /** `raw` are the stored rows behind the answer. */
    method Scan(kind: string, limit: nat) returns (out: seq<Hit>, ghost raw: seq<Hit>)
      requires Valid()
      ensures out == PeelAll(raw) && Real(store.rows, kind, raw) && DistinctHits(raw) && |raw| <= limit
      ensures forall h :: h in raw ==> Reaches(h.key.owner)
      ensures |out| < limit <= MAX_SCAN ==>
                forall k :: k in Under(store.rows, kind, "") && Reaches(k.owner) ==> k in KeysOf(raw)
    {
      var found: seq<Hit> := [];
      var threw := tenants == [];
      if !threw { threw, found := ScanTenants(kind, limit); }
      if threw {
        found := Oldest(store.rows, kind, Under(store.rows, kind, ""), "", Effective(limit));
      }
      raw := if |found| <= limit then found else found[..limit];
      out := PeelAll(if |found| <= limit then found else found[..limit]);
    }

    /** None when a prefix is refused: here nothing catches it. */
    method ScanKnown(kind: string, statuses: set<string>, limit: nat)
      returns (r: Option<seq<Tagged>>, ghost found: seq<Hit>)
      requires Valid()
      ensures r.None? ==> !Filters()
      ensures r.Some? ==>
        && Answers(store.rows, kind, statuses, r.value, found)
        && (forall h :: h in found ==> Of(tenants, h.key.owner))
        && (|found| < limit ==>
              forall t :: t in tenants ==> Covered(store.rows, kind, t + ":", statuses, Effective(limit), found))
    {
      found := [];
      var out: seq<Tagged> := [];
      var i := 0;
      while i < |tenants|
        invariant i <= |tenants| && Gathered(store.rows, kind, tenants, i, statuses, Effective(limit), out, found)
      {
        var tenant := tenants[i];
        assert tenant in tenants;
        var piece := ScanByOwnerPrefix(store.rows, kind, tenant + ":", limit);
        if piece.None? { r := None; return; }
        GatherMore(store.rows, kind, tenants, i, statuses, Effective(limit), out, found, piece.value);
        var part := Wanted(piece.value, statuses);
        found, out, i := found + part, out + TagAll(part, Some(tenant)), i + 1;
        if |out| >= limit { break; }
      }
      GatheredAll(store.rows, kind, tenants, i, statuses, Effective(limit), out, found);
      r := Some(out);
    }

    /** Without a registered tenant to go through, each tenant is read off its rows. */
    method ScanDerived(kind: string, statuses: set<string>, limit: nat)
      returns (out: seq<Tagged>, ghost raw: seq<Hit>)
      ensures Answers(store.rows, kind, statuses, out, raw)
      ensures Covered(store.rows, kind, "", statuses, Effective(limit), raw)
    {
      var rows := Oldest(store.rows, kind, Under(store.rows, kind, ""), "", Effective(limit));
      var part := Wanted(rows, statuses);
      WantedDistinct(rows, statuses);
      WantedCovers(store.rows, kind, "", statuses, Effective(limit), rows);
      forall j | 0 <= j < |part| ensures Traces(TagAll(part, None)[j], part[j]) { TagTraces(part[j], None); }
      AppendAnswers(store.rows, kind, statuses, [], [], TagAll(part, None), part);
      assert [] + part == part && [] + TagAll(part, None) == TagAll(part, None);
      out, raw := TagAll(part, None), part;
    }

    /** The rows whose status is wanted, each with its tenant.  The limit cuts before the statuses are
        looked at, and when no registered tenant has such a row, every tenant's rows are looked at. */
    method ScanByStatusWithTenant(kind: string, statuses: set<string>, limit: nat)
      returns (r: Option<seq<Tagged>>, ghost raw: seq<Hit>)
      requires Valid()
      ensures r.None? ==> !Filters()
      ensures r.Some? ==> Answers(store.rows, kind, statuses, r.value, raw) && |raw| <= limit
      ensures r.Some? && |raw| < limit ==>
                forall t :: t in tenants ==> Covered(store.rows, kind, t + ":", statuses, Effective(limit), raw)
      ensures r.Some? && |raw| < limit && tenants == [] ==>
                Covered(store.rows, kind, "", statuses, Effective(limit), raw)
      ensures r.Some? && (exists h :: h in raw && !Of(tenants, h.key.owner)) ==>
                forall t :: t in tenants ==> Covered(store.rows, kind, t + ":", statuses, Effective(limit), [])
    {
      r, raw := ScanKnown(kind, statuses, limit);
      if r.None? { return; }
      var out := r.value;
      assert out != [] ==> raw[0] in raw;
      if out == [] {
        forall t | t in tenants && limit > 0
          ensures forall found :: Covered(store.rows, kind, t + ":", statuses, Effective(limit), found)
        {
          forall found ensures Covered(store.rows, kind, t + ":", statuses, Effective(limit), found) {
            MoreCovers(store.rows, kind, t + ":", statuses, Effective(limit), [], found);
          }
        }
        out, raw := ScanDerived(kind, statuses, limit);
      }
      var n := if |out| <= limit then |out| else limit;
      FirstAnswers(store.rows, kind, statuses, out, raw, n);
      assert |raw| <= limit ==> raw[..n] == raw;
      r, raw := Some(out[..n]), raw[..n];
    }
  }
}
