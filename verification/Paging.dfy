/** Keyset paging over one owner and kind (Store.listPaged in apps/server/src/db.ts) and the loop its
    callers run, while other connections write between the pages.

    Identifiers are numbered in collation order.  Timestamps keep their full precision in a cursor. */
module Paging {
  import opened Runs

  type Id = nat

  datatype Position = Position(updatedAt: nat, id: Id)

  /** `ORDER BY updated_at DESC, id`. */
  predicate Before(a: Position, b: Position) {
    a.updatedAt > b.updatedAt || (a.updatedAt == b.updatedAt && a.id < b.id)
  }

  predicate After(cursor: Option<Position>, p: Position) { cursor.None? || Before(cursor.value, p) }

  predicate Ordered(ps: seq<Position>) { forall i, j :: 0 <= i < j < |ps| ==> Before(ps[i], ps[j]) }

  type Rows = map<Id, nat>

  function Positions(rows: Rows): set<Position> { set id | id in rows :: Position(rows[id], id) }

  function Remaining(rows: Rows, cursor: Option<Position>): (r: set<Position>)
    ensures forall p :: p in r <==> p.id in rows && rows[p.id] == p.updatedAt && After(cursor, p)
  {
    set id | id in rows && After(cursor, Position(rows[id], id)) :: Position(rows[id], id)
  }

  /** What one query answers: the first rows after the cursor, in order, and no more than the limit. */
  ghost predicate IsPage(rows: Rows, cursor: Option<Position>, limit: Option<nat>, page: seq<Position>) {
    && Ordered(page) && (limit.Some? ==> |page| <= limit.value)
    && (forall p :: p in page ==> p in Remaining(rows, cursor))
    && (forall p :: p in Remaining(rows, cursor) && p !in page ==>
          limit == Some(|page|) && forall q :: q in page ==> Before(q, p))
  }

  /** How many rows come before this one in a listing. */
  function Rank(rows: Rows, id: Id): nat
    requires id in rows
  {
    |set j | j in rows && Before(Position(rows[j], j), Position(rows[id], id))|
  }

  /** A listing without a limit of its own answers with no more than this many rows. */
  const LIST_LIMIT := 1000

  /** The rows such a listing answers with. */
  function Newest(rows: Rows): set<Id> { set id | id in rows && Rank(rows, id) < LIST_LIMIT }

  lemma {:induction false} FirstExists(ps: set<Position>)
    requires ps != {}
    ensures exists m :: m in ps && forall p :: p in ps && p != m ==> Before(m, p)
  {
    var a :| a in ps;
    var rest := ps - {a};
    if rest == {} {
      assert forall p :: p in ps && p != a ==> p in rest;
    } else {
      FirstExists(rest);
      var m :| m in rest && forall p :: p in rest && p != m ==> Before(m, p);
      var first := if Before(a, m) then a else m;
      forall p | p in ps && p != first ensures Before(first, p) {
        if p != a { assert p in rest; }
      }
    }
  }

  method ListPaged(rows: Rows, cursor: Option<Position>, limit: Option<nat>) returns (page: seq<Position>)
    ensures IsPage(rows, cursor, limit, page)
  {
    page := [];
    var rest := Remaining(rows, cursor);
    while limit != Some(|page|) && rest != {}
      invariant (limit.Some? ==> |page| <= limit.value) && Ordered(page)
      invariant forall p :: p in Remaining(rows, cursor) <==> p in page || p in rest
      invariant forall q, p :: q in page && p in rest ==> Before(q, p)
      decreases rest
    {
      FirstExists(rest);
      var m :| m in rest && forall p :: p in rest && p != m ==> Before(m, p);
      page := page + [m];
      rest := rest - {m};
    }
  }

  // ------------------------------------------------------------------ other connections

  datatype Write = Put(id: Id, stamp: nat) | Remove(id: Id)

  /** The table, and for every identifier the latest timestamp it ever carried. */
  datatype Table = Table(rows: Rows, latest: map<Id, nat>)

  ghost predicate Consistent(t: Table) {
    forall id :: id in t.rows ==> id in t.latest && t.latest[id] == t.rows[id]
  }

  /** A write; an identifier's timestamp never goes back, not even over a removal. */
  function Apply(t: Table, w: Write): Table {
    match w
    case Put(id, stamp) =>
      var s := if id in t.latest && t.latest[id] > stamp then t.latest[id] else stamp;
      Table(t.rows[id := s], t.latest[id := s])
    case Remove(id) => Table(t.rows - {id}, t.latest)
  }

  function ApplyAll(t: Table, ws: seq<Write>): Table
    decreases |ws|
  {
    if ws == [] then t else ApplyAll(Apply(t, ws[0]), ws[1..])
  }

  /** The table after the first `k` bursts of writes. */
  function TableAfter(start: Table, script: seq<seq<Write>>, k: nat): Table
    requires k <= |script|
  {
    if k == 0 then start else ApplyAll(TableAfter(start, script, k - 1), script[k - 1])
  }

  ghost predicate Grows(a: Table, b: Table) {
    forall id :: id in a.latest ==> id in b.latest && b.latest[id] >= a.latest[id]
  }

  lemma {:induction false} WritesGrow(t: Table, ws: seq<Write>, universe: set<Id>)
    requires Consistent(t) && t.latest.Keys <= universe
    requires forall i :: 0 <= i < |ws| ==> ws[i].id in universe
    ensures Consistent(ApplyAll(t, ws)) && Grows(t, ApplyAll(t, ws)) && ApplyAll(t, ws).latest.Keys <= universe
    decreases |ws|
  {
    if ws != [] {
      assert ws[0].id in universe;
      var m := Apply(t, ws[0]);
      WritesGrow(m, ws[1..], universe);
    }
  }

  lemma {:induction false} WritesLeaveOthers(t: Table, ws: seq<Write>, id: Id)
    requires forall i :: 0 <= i < |ws| ==> ws[i].id != id
    requires id in t.rows
    ensures id in ApplyAll(t, ws).rows && ApplyAll(t, ws).rows[id] == t.rows[id]
    decreases |ws|
  {
    if ws != [] {
      assert ws[0].id != id;
      WritesLeaveOthers(Apply(t, ws[0]), ws[1..], id);
    }
  }

  /** No write of the script concerns this row. */
  ghost predicate Untouched(script: seq<seq<Write>>, id: Id) {
    forall i, j :: 0 <= i < |script| && 0 <= j < |script[i]| ==> script[i][j].id != id
  }

  lemma {:induction false} UntouchedStays(start: Table, script: seq<seq<Write>>, k: nat, id: Id)
    requires k <= |script| && id in start.rows && Untouched(script, id)
    ensures id in TableAfter(start, script, k).rows && TableAfter(start, script, k).rows[id] == start.rows[id]
  {
    if k > 0 {
      UntouchedStays(start, script, k - 1, id);
      WritesLeaveOthers(TableAfter(start, script, k - 1), script[k - 1], id);
    }
  }

  // ------------------------------------------------------------------ the walk

  function Ids(ps: seq<Position>): set<Id> { set p | p in ps :: p.id }

  /** Every identifier the table ever holds. */
  ghost predicate Universe(start: Table, script: seq<seq<Write>>, universe: set<Id>) {
    && start.latest.Keys <= universe
    && forall i, j :: 0 <= i < |script| && 0 <= j < |script[i]| ==> script[i][j].id in universe
  }

  /** What has been read never goes above what the table knows, and the cursor is the last row read. */
  ghost predicate Reading(t: Table, seen: seq<Position>, cursor: Option<Position>) {
    && Consistent(t) && Ordered(seen)
    && (forall p :: p in seen ==> p.id in t.latest && t.latest[p.id] >= p.updatedAt)
    && cursor == (if seen == [] then None else Some(seen[|seen| - 1]))
    && forall i, j :: 0 <= i < j < |seen| ==> seen[i].id != seen[j].id
  }

  /** A page read after the cursor extends an ordered, repetition-free reading to another one. */
  lemma PageExtends(t: Table, seen: seq<Position>, cursor: Option<Position>, limit: nat, page: seq<Position>)
    requires Reading(t, seen, cursor) && IsPage(t.rows, cursor, Some(limit), page) && page != []
    ensures Reading(t, seen + page, Some(page[|page| - 1]))
    ensures page[0].id in t.latest && Ids(seen) < Ids(seen + page) <= Ids(seen) + t.latest.Keys
  {
    forall i, j | 0 <= i < |seen| && 0 <= j < |page|
      ensures Before(seen[i], page[j]) && seen[i].id != page[j].id
    {
      var q, p := seen[i], page[j];
      assert q in seen && p in page && p in Remaining(t.rows, cursor);
      assert Before(cursor.value, p);
      assert t.latest[p.id] == p.updatedAt && t.latest[q.id] >= q.updatedAt;
    }
    var all := seen + page;
    forall i, j | 0 <= i < j < |all| ensures Before(all[i], all[j]) && all[i].id != all[j].id {
      if j < |seen| {
      } else if i >= |seen| {
        var a, b := page[i - |seen|], page[j - |seen|];
        assert a in page && b in page && Before(a, b);
      }
    }
    forall p | p in page ensures p.id in t.latest && t.latest[p.id] == p.updatedAt {
      assert p in Remaining(t.rows, cursor);
    }
    assert page[0] in page && page[0] in all;
    assert page[0].id in Ids(all) && page[0].id !in Ids(seen);
  }

  /** A row of the table that lay after the cursor is in the page, or lies after a full page. */
  lemma PageSkipsNothing(rows: Rows, cursor: Option<Position>, limit: nat, page: seq<Position>, p: Position)
    requires IsPage(rows, cursor, Some(limit), page) && limit > 0 && p in Remaining(rows, cursor)
    ensures p in page || (|page| == limit && After(Some(page[|page| - 1]), p))
  {
    if p !in page { assert page[|page| - 1] in page; }
  }

  /** The row stood in the table right before some page was read. */
  ghost predicate ReadFrom(start: Table, script: seq<seq<Write>>, p: Position) {
    exists k :: 0 <= k <= |script| && p in Positions(TableAfter(start, script, k).rows)
  }

  /** Every row nobody writes has been read or is still to come. */
  ghost predicate NothingLost(start: Table, script: seq<seq<Write>>, seen: seq<Position>, cursor: Option<Position>) {
    forall id :: id in start.rows && Untouched(script, id) ==>
      Position(start.rows[id], id) in seen || After(cursor, Position(start.rows[id], id))
  }

  lemma PageCovers(start: Table, script: seq<seq<Write>>, k: nat, seen: seq<Position>,
                   cursor: Option<Position>, limit: nat, page: seq<Position>)
    requires k <= |script| && limit > 0 && NothingLost(start, script, seen, cursor)
    requires IsPage(TableAfter(start, script, k).rows, cursor, Some(limit), page)
    ensures |page| == limit ==> NothingLost(start, script, seen + page, Some(page[|page| - 1]))
    ensures |page| < limit ==> forall id :: id in start.rows && Untouched(script, id) ==>
              Position(start.rows[id], id) in seen + page
    ensures forall p :: p in page ==> ReadFrom(start, script, p)
  {
    var rows := TableAfter(start, script, k).rows;
    forall id | id in start.rows && Untouched(script, id)
      ensures Position(start.rows[id], id) in seen + page ||
              (|page| == limit && After(Some(page[|page| - 1]), Position(start.rows[id], id)))
    {
      UntouchedStays(start, script, k, id);
      if Position(start.rows[id], id) !in seen {
        PageSkipsNothing(rows, cursor, limit, page, Position(start.rows[id], id));
      }
    }
    forall p | p in page ensures ReadFrom(start, script, p) {
      assert p in Remaining(rows, cursor) && p in Positions(TableAfter(start, script, k).rows);
    }
  }

  /** The loop its callers run: follow the last row of each page until a page is not full.  `script` holds
      what the other connections write after each page. */
  method Walk(start: Table, limit: nat, script: seq<seq<Write>>, ghost universe: set<Id>)
    returns (seen: seq<Position>)
    requires Consistent(start) && limit > 0 && Universe(start, script, universe)
    ensures Ordered(seen)
    ensures forall i, j :: 0 <= i < j < |seen| ==> seen[i].id != seen[j].id
    ensures forall id :: id in start.rows && Untouched(script, id) ==> Position(start.rows[id], id) in seen
    ensures forall p :: p in seen ==> ReadFrom(start, script, p)
  {
    seen := [];
    var t, k := start, 0;
    var cursor: Option<Position> := None;
    while true
      invariant k <= |script| && t == TableAfter(start, script, k) && t.latest.Keys <= universe
      invariant Reading(t, seen, cursor) && Ids(seen) <= universe
      invariant NothingLost(start, script, seen, cursor)
      invariant forall p :: p in seen ==> ReadFrom(start, script, p)
      decreases universe - Ids(seen)
    {
      var page := ListPaged(t.rows, cursor, Some(limit));
      PageCovers(start, script, k, seen, cursor, limit, page);
      if page == [] { break; }
      PageExtends(t, seen, cursor, limit, page);
      seen, cursor := seen + page, Some(page[|page| - 1]);
      if |page| < limit { break; }
      if k < |script| {
        WritesGrow(t, script[k], universe);
        t, k := ApplyAll(t, script[k]), k + 1;
      }
    }
  }

  /** There is one orderly listing of a set of rows. */
  lemma {:induction false} OneOrder(a: seq<Position>, b: seq<Position>)
    requires Ordered(a) && Ordered(b) && forall p :: p in a <==> p in b
    ensures a == b
    decreases |a|
  {
    if a != [] { assert a[0] in a; }
    if b != [] { assert b[0] in b; }
    if a != [] && b != [] {
      var i :| 0 <= i < |b| && b[i] == a[0];
      var j :| 0 <= j < |a| && a[j] == b[0];
      assert i == 0;
      forall p ensures p in a[1..] <==> p in b[1..] { InTail(a, p); InTail(b, p); }
      OneOrder(a[1..], b[1..]);
      assert a == [a[0]] + a[1..] && b == [b[0]] + b[1..];
    }
  }

  lemma InTail(a: seq<Position>, p: Position)
    requires Ordered(a) && a != []
    ensures p in a[1..] <==> p in a && p != a[0]
  {
    if p in a[1..] {
      var i :| 0 <= i < |a[1..]| && a[1..][i] == p;
      assert Before(a[0], a[i + 1]);
    }
    if p in a && p != a[0] {
      var i :| 0 <= i < |a| && a[i] == p;
      assert a[1..][i - 1] == p;
    }
  }

  /** On a table nobody writes, the pages concatenate to what one query without a limit answers. */
  method WalkStatic(start: Table, limit: nat) returns (seen: seq<Position>)
    requires Consistent(start) && limit > 0
    ensures forall all :: IsPage(start.rows, None, None, all) ==> seen == all
  {
    seen := Walk(start, limit, [], start.latest.Keys);
    forall p ensures p in seen <==> p in Remaining(start.rows, None) {
      if p in seen { assert ReadFrom(start, [], p); }
      if p in Remaining(start.rows, None) { assert Untouched([], p.id); }
    }
    forall all | IsPage(start.rows, None, None, all) ensures seen == all {
      forall p ensures p in all <==> p in Remaining(start.rows, None) { }
      OneOrder(seen, all);
    }
  }

  // ------------------------------------------------------------------ stamps that go back

  /** The pages a caller reads from `cursor` on, of rows nobody writes any more. */
  ghost predicate ReadOn(rows: Rows, cursor: Option<Position>, limit: nat, pages: seq<seq<Position>>)
    decreases |pages|
  {
    && pages != [] && IsPage(rows, cursor, Some(limit), pages[0])
    && if |pages[0]| < limit || pages[0] == [] then |pages| == 1
       else ReadOn(rows, Some(pages[0][|pages[0]| - 1]), limit, pages[1..])
  }

  function Concat(pages: seq<seq<Position>>): seq<Position> {
    if pages == [] then [] else pages[0] + Concat(pages[1..])
  }

  lemma {:induction false} ReadOnReadsAll(rows: Rows, cursor: Option<Position>, limit: nat, pages: seq<seq<Position>>, p: Position)
    requires limit > 0 && ReadOn(rows, cursor, limit, pages) && p in Remaining(rows, cursor)
    ensures p in Concat(pages)
    decreases |pages|
  {
    PageSkipsNothing(rows, cursor, limit, pages[0], p);
    if p !in pages[0] {
      var last := pages[0][|pages[0]| - 1];
      assert p in Remaining(rows, Some(last));
      ReadOnReadsAll(rows, Some(last), limit, pages[1..], p);
    }
  }

  /** The monotone stamps are needed, for every table, limit and reading so far: if a row that was read is
      restamped to lie behind the cursor again, the rest of the walk reads it a second time. */
  lemma RestampedBehindTheCursorIsReadTwice(t: Table, seen: seq<Position>, cursor: Option<Position>, i: nat, stamp: nat,
                                            limit: nat, pages: seq<seq<Position>>)
    requires limit > 0 && Reading(t, seen, cursor) && i < |seen| && After(cursor, Position(stamp, seen[i].id))
    requires ReadOn(t.rows[seen[i].id := stamp], cursor, limit, pages)
    ensures exists j :: i < j < |seen + Concat(pages)| && (seen + Concat(pages))[j].id == (seen + Concat(pages))[i].id
  {
    var id := seen[i].id;
    ReadOnReadsAll(t.rows[id := stamp], cursor, limit, pages, Position(stamp, id));
    var k :| 0 <= k < |Concat(pages)| && Concat(pages)[k] == Position(stamp, id);
    assert (seen + Concat(pages))[|seen| + k].id == id;
  }
}
