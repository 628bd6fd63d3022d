/** Capturing a PDF download and reading the journal back (apps/worker/src/downloads.ts), with other
    captures running in between, failing file operations, and a log of every state a crash could leave. */
module DownloadWorker {
  import opened Runs
  import opened Downloads

  /** The temporary name a record is written under before it is renamed. */
  function Tmp(p: Path): Path { if p.Journal? then JournalTmp(p.id) else MetaTmp(p.id) }

  /** What must hold for a record to be renamed into place. */
  predicate Ready(files: Files, p: Path, c: Content) {
    match p
    case Journal(id) =>
      c.Entry? && c.outcome.id == id && if c.outcome.status.Failed? then !Published(files, id) else p !in files
    case Meta(id) => c.Card? && CompletePdf(files[p := c], id) && !InStatus(files, id, Failed)
    case _ => false
  }

  /** Own paths are as before, but for these and for dropped failures. */
  predicate Own(a: Files, b: Files, id: Id, touched: set<Path>) {
    forall p :: p in a.Keys + b.Keys && p.id == id && p !in touched ==> Same(a, b, p) || Dropped(a, b, p)
  }

  type Log = seq<(Files, Files)>

  ghost predicate Extends(before: Log, after: Log, id: Id) {
    |before| <= |after| && after[..|before|] == before
    && forall i :: |before| <= i < |after| ==> Sound(after[i].1, id) && Guarantee(after[i].0, after[i].1, id)
  }

  lemma OwnComposes(a: Files, b: Files, c: Files, id: Id, first: set<Path>, second: set<Path>, all: set<Path>)
    requires Own(a, b, id, first) && Own(b, c, id, second) && first <= all && second <= all
    ensures Own(a, c, id, all)
  {
    forall p | p in a.Keys + c.Keys && p.id == id && p !in all ensures Same(a, c, p) || Dropped(a, c, p) {
      assert p in a.Keys + b.Keys || p in b.Keys + c.Keys;
      assert p in b.Keys ==> p in b.Keys + c.Keys;
    }
  }

  lemma ReadyStays(a: Files, b: Files, p: Path, c: Content)
    requires Ready(a, p, c) && Sound(a, p.id) && Sound(b, p.id) && Own(a, b, p.id, {Tmp(p)})
    ensures Ready(b, p, c)
  {
    assert Pdf(p.id) in a ==> Pdf(p.id) in a.Keys + b.Keys;
    assert Journal(p.id) in b ==> Journal(p.id) in a.Keys + b.Keys;
    assert Meta(p.id) in b ==> Meta(p.id) in a.Keys + b.Keys;
  }

  function Renamed(files: Files, p: Path, c: Content): Files { (files - {Tmp(p)})[p := c] }

  lemma RenameIsSafe(files: Files, p: Path, c: Content)
    requires Sound(files, p.id) && Ready(files, p, c)
    ensures Sound(Renamed(files, p, c), p.id) && Guarantee(files, Renamed(files, p, c), p.id)
    ensures Own(files, Renamed(files, p, c), p.id, {p, Tmp(p)})
  {
  }

  lemma ExtendsOnce(before: Log, log: Log, a: Files, b: Files, id: Id)
    requires Extends(before, log, id) && Sound(b, id) && Guarantee(a, b, id)
    ensures Extends(before, log + [(a, b)], id)
  {
  }

  lemma ExtendsComposes(a: Log, b: Log, c: Log, id: Id)
    requires Extends(a, b, id) && Extends(b, c, id)
    ensures Extends(a, c, id)
  {
    forall i | |a| <= i < |c| ensures Sound(c[i].1, id) && Guarantee(c[i].0, c[i].1, id) {
      if i < |b| { assert c[i] == b[i]; }
    }
    assert c[..|a|] == c[..|b|][..|a|];
  }

  /** The directory of one browser profile.  `alone` says no other capture runs, `reliable` that no file
      operation fails. */
  class Disk {
    const alone: bool
    const reliable: bool
    var files: Files
    ghost var log: Log

    predicate Calm() { alone && reliable }

    /** Other captures run while this one waits. */
    method Await(id: Id, seen: set<Id>)
      requires Sound(files, id)
      modifies this`files
      ensures Rely(old(files), files, id, seen) && (alone ==> files == old(files))
    {
      var other: Files := *;
      if !alone && Rely(files, other, id, seen) { files := other; }
    }

    method Fails() returns (fails: bool)
      ensures reliable ==> !fails
    {
      fails := *;
      fails := fails && !reliable;
    }

    /** One atomic change of one path. */
    method Set(p: Path, c: Content) returns (ok: bool)
      requires Sound(files, p.id) && (IsTmp(p) || (p.Pdf? && c.Raw? && !Published(files, p.id)))
      modifies this
      ensures Sound(files, p.id) && Own(old(files), files, p.id, {p}) && Extends(old(log), log, p.id)
      ensures ok ==> p in files && files[p] == c
      ensures !ok ==> Own(old(files), files, p.id, {})
      ensures reliable ==> ok
      ensures Calm() ==> files == old(files)[p := c]
    {
      Await(p.id, {});
      var fails := Fails();
      if !fails {
        ghost var was := files;
        files := files[p := c];
        log := log + [(was, files)];
      }
      ok := !fails;
    }

    method RemovePdf(id: Id) returns (ok: bool)
      requires Sound(files, id) && !Published(files, id)
      modifies this
      ensures Sound(files, id) && Own(old(files), files, id, {Pdf(id)}) && Extends(old(log), log, id)
      ensures ok ==> Pdf(id) !in files
      ensures reliable ==> ok
      ensures Calm() ==> files == old(files) - {Pdf(id)}
    {
      Await(id, {});
      var fails := Fails();
      if !fails {
        ghost var was := files;
        files := files - {Pdf(id)};
        log := log + [(was, files)];
      }
      ok := !fails;
    }

    /** The capture of `id` forgets an entry: its own, or one it has read as failed. */
    method RemoveEntry(id: Id, entry: Id, seen: set<Id>) returns (ok: bool)
      requires Sound(files, id) && Over(files, seen) && (entry == id || entry in seen)
      modifies this
      ensures Sound(files, id) && Over(files, seen) && Own(old(files), files, id, {Journal(id)}) && Extends(old(log), log, id)
      ensures ok ==> Journal(entry) !in files
      ensures reliable ==> ok
      ensures Calm() ==> files == old(files) - {Journal(entry)}
    {
      Await(id, seen);
      var fails := Fails();
      if !fails {
        ghost var was := files;
        files := files - {Journal(entry)};
        log := log + [(was, files)];
      }
      ok := !fails;
    }

    method Rename(p: Path, c: Content) returns (ok: bool)
      requires Sound(files, p.id) && (p.Journal? || p.Meta?) && Ready(files, p, c)
      requires Tmp(p) in files && files[Tmp(p)] == c
      modifies this
      ensures Sound(files, p.id) && Own(old(files), files, p.id, {p, Tmp(p)}) && Extends(old(log), log, p.id)
      ensures ok ==> p in files && files[p] == c
      ensures !ok ==> Own(old(files), files, p.id, {})
      ensures reliable ==> ok
      ensures Calm() ==> files == Renamed(old(files), p, c)
    {
      Await(p.id, {});
      var fails := Fails();
      if !fails {
        ghost var was := files;
        ReadyStays(old(files), files, p, c);
        RenameIsSafe(files, p, c);
        ExtendsOnce(log, log, files, Renamed(files, p, c), p.id);
        OwnComposes(old(files), files, Renamed(files, p, c), p.id, {}, {p, Tmp(p)}, {p, Tmp(p)});
        files := (files - {Tmp(p)})[p := files[Tmp(p)]];
        log := log + [(was, files)];
      }
      ok := !fails;
    }

    /** A change nobody else can see the middle of, at startup. */
    method Change(to: Files) returns (ok: bool)
      modifies this
      ensures if ok then files == to && log == old(log) + [(old(files), to)] else files == old(files) && log == old(log)
      ensures reliable ==> ok
    {
      var fails := Fails();
      if !fails {
        log := log + [(files, to)];
        files := to;
      }
      ok := !fails;
    }

    /** Write a temporary file, which a crash can leave torn. */
    method WriteTmp(p: Path, c: Content) returns (ok: bool)
      requires Sound(files, p.id) && IsTmp(p)
      modifies this
      ensures Sound(files, p.id) && Own(old(files), files, p.id, {p}) && Extends(old(log), log, p.id)
      ensures ok ==> p in files && files[p] == c
      ensures reliable ==> ok
      ensures Calm() ==> files == old(files)[p := c]
    {
      ok := Set(p, Torn);
      if !ok { return; }
      ghost var torn := files;
      ok := Set(p, c);
      OwnComposes(old(files), torn, files, p.id, {p}, {p}, {p});
    }

    /** Write beside, then rename. */
    method Persist(p: Path, c: Content) returns (ok: bool)
      requires Sound(files, p.id) && (p.Journal? || p.Meta?) && Ready(files, p, c)
      modifies this
      ensures Sound(files, p.id) && Own(old(files), files, p.id, {p, Tmp(p)}) && Extends(old(log), log, p.id)
      ensures ok ==> p in files && files[p] == c
      ensures !ok ==> Own(old(files), files, p.id, {Tmp(p)})
      ensures reliable ==> ok
      ensures Calm() ==> files == Renamed(old(files), p, c)
    {
      ok := WriteTmp(Tmp(p), c);
      if !ok { return; }
      ghost var written, logged := files, log;
      ReadyStays(old(files), files, p, c);
      ok := Rename(p, c);
      ExtendsComposes(old(log), logged, log, p.id);
      if !ok { OwnComposes(old(files), written, files, p.id, {Tmp(p)}, {}, {Tmp(p)}); }
      OwnComposes(old(files), written, files, p.id, {Tmp(p)}, {p, Tmp(p)}, {p, Tmp(p)});
    }
  }

  // ------------------------------------------------------------------ streaming

  /** A chunk reaches the file in parts; a crash can fall between them. */
  method Append(disk: Disk, id: Id, written: Bytes, chunk: Bytes) returns (ok: bool)
    requires Sound(disk.files, id) && !Published(disk.files, id)
    modifies disk
    ensures Sound(disk.files, id) && Own(old(disk.files), disk.files, id, {Pdf(id)}) && Extends(old(disk.log), disk.log, id)
    ensures ok ==> Pdf(id) in disk.files && disk.files[Pdf(id)] == Raw(written + chunk)
    ensures disk.reliable ==> ok
    ensures disk.Calm() ==> disk.files == old(disk.files)[Pdf(id) := Raw(written + chunk)]
  {
    var cut: nat := *;
    ok := disk.Set(Pdf(id), Raw(written + First(cut, chunk)));
    if !ok { return; }
    ghost var half, logged := disk.files, disk.log;
    assert !Published(disk.files, id) by { Unpublished(old(disk.files), half, id, {Pdf(id)}); }
    ok := disk.Set(Pdf(id), Raw(written + chunk));
    ExtendsComposes(old(disk.log), logged, disk.log, id);
    OwnComposes(old(disk.files), half, disk.files, id, {Pdf(id)}, {Pdf(id)}, {Pdf(id)});
  }

  lemma Unpublished(a: Files, b: Files, id: Id, touched: set<Path>)
    requires !Published(a, id) && Own(a, b, id, touched) && Meta(id) !in touched
    ensures !Published(b, id)
  {
    assert Meta(id) in b ==> Meta(id) in a.Keys + b.Keys;
  }

  lemma PrefixGrows(written: Bytes, chunk: Bytes)
    ensures First(5, written + chunk) ==
            if |First(5, written)| < 5 then First(5, written) + First(5 - |First(5, written)|, chunk) else First(5, written)
  {
  }

  /** Counts the bytes, keeps the first five, and writes the file until the limit is passed. */
  method Pipe(disk: Disk, id: Id, chunks: seq<Bytes>, breaks: bool)
    returns (ok: bool, bytes: nat, prefix: Bytes, oversized: bool)
    requires Sound(disk.files, id) && !Published(disk.files, id)
    modifies disk
    ensures Sound(disk.files, id) && Own(old(disk.files), disk.files, id, {Pdf(id)}) && Extends(old(disk.log), disk.log, id)
    ensures ok ==> Pdf(id) in disk.files && disk.files[Pdf(id)] == Raw(Flatten(chunks))
    ensures ok ==> bytes == |Flatten(chunks)| <= MAX_DOWNLOAD_BYTES && prefix == First(5, Flatten(chunks)) && !breaks
    ensures oversized ==> |Flatten(chunks)| > MAX_DOWNLOAD_BYTES
    ensures disk.reliable && !ok ==> oversized || breaks
    ensures disk.reliable && |Flatten(chunks)| > MAX_DOWNLOAD_BYTES ==> oversized
    ensures disk.Calm() ==> disk.files - {Pdf(id)} == old(disk.files) - {Pdf(id)}
  {
    bytes, prefix, oversized := 0, [], false;
    ghost var before := disk.files;
    ok := disk.Set(Pdf(id), Raw([]));
    if !ok { return; }
    var k, written := 0, [];
    while k < |chunks|
      invariant k <= |chunks| && written == Flatten(chunks[..k])
      invariant bytes == |written| <= MAX_DOWNLOAD_BYTES && prefix == First(5, written)
      invariant Sound(disk.files, id) && Own(old(disk.files), disk.files, id, {Pdf(id)}) && Extends(old(disk.log), disk.log, id)
      invariant Pdf(id) in disk.files && disk.files[Pdf(id)] == Raw(written)
      invariant disk.Calm() ==> disk.files - {Pdf(id)} == old(disk.files) - {Pdf(id)}
    {
      var chunk := chunks[k];
      assert chunks[..k + 1][..k] == chunks[..k];
      FlattenGrows(chunks, k + 1);
      PrefixGrows(written, chunk);
      bytes := bytes + |chunk|;
      if |prefix| < 5 { prefix := prefix + First(5 - |prefix|, chunk); }
      if bytes > MAX_DOWNLOAD_BYTES {
        ok, oversized := false, true;
        return;
      }
      Unpublished(old(disk.files), disk.files, id, {Pdf(id)});
      ghost var was, logged := disk.files, disk.log;
      ok := Append(disk, id, written, chunk);
      ExtendsComposes(old(disk.log), logged, disk.log, id);
      OwnComposes(old(disk.files), was, disk.files, id, {Pdf(id)}, {Pdf(id)}, {Pdf(id)});
      if !ok { return; }
      k, written := k + 1, written + chunk;
    }
    assert chunks[..k] == chunks;
    ok := !breaks;
  }

  // ------------------------------------------------------------------ reading the journal

  function JournalIds(files: Files): set<Id> { set p | p in files && p.Journal? :: p.id }

  function IdsOf(os: seq<Outcome>): set<Id> { set o | o in os :: o.id }

  /** The entries read as failed, each once. */
  ghost predicate Failures(files: Files, ids: set<Id>, os: seq<Outcome>) {
    && (forall i, j :: 0 <= i < j < |os| ==> os[i].id != os[j].id)
    && forall o :: o in os <==> o.id in ids && InStatus(files, o.id, Failed) && files[Journal(o.id)].outcome == o
  }

  /** The same of a reader that saw each entry in a directory of its own time: what it calls failed is just
      what it saw as failed. */
  ghost predicate FailuresRead(seen: map<Id, Files>, os: seq<Outcome>) {
    && (forall i, j :: 0 <= i < j < |os| ==> os[i].id != os[j].id)
    && forall o :: o in os <==> o.id in seen && InStatus(seen[o.id], o.id, Failed) && seen[o.id][Journal(o.id)].outcome == o
  }

  lemma FailuresReadGrow(seen: map<Id, Files>, os: seq<Outcome>, files: Files, id: Id)
    requires FailuresRead(seen, os) && Complete(files) && id !in seen && Journal(id) in files
    ensures FailuresRead(seen[id := files], if InStatus(files, id, Failed) then os + [files[Journal(id)].outcome] else os)
  {
  }

  lemma OneMoreId(os: seq<Outcome>, o: Outcome)
    ensures IdsOf(os + [o]) == IdsOf(os) + {o.id}
  {
  }

  lemma ReadAtOnce(files: Files, ids: set<Id>, seen: map<Id, Files>, os: seq<Outcome>)
    requires FailuresRead(seen, os) && seen.Keys == ids && forall i :: i in seen ==> seen[i] == files
    ensures Failures(files, ids, os)
  {
  }

  lemma FailuresReadSorted(seen: map<Id, Files>, os: seq<Outcome>)
    requires FailuresRead(seen, os)
    ensures FailuresRead(seen, NewestFirst(os)) && Descending(NewestFirst(os)) && IdsOf(NewestFirst(os)) == IdsOf(os)
  {
    NewestFirstSorts(os);
    var sorted := NewestFirst(os);
    forall o ensures o in sorted <==> o in os { assert o in sorted <==> o in multiset(sorted); assert o in os <==> o in multiset(os); }
    NoRepeats(os, sorted);
  }

  lemma FailuresSorted(files: Files, ids: set<Id>, os: seq<Outcome>)
    requires Failures(files, ids, os)
    ensures Failures(files, ids, NewestFirst(os)) && Descending(NewestFirst(os))
  {
    var seen := map i | i in ids :: files;
    FailuresReadSorted(seen, os);
    ReadAtOnce(files, ids, seen, NewestFirst(os));
  }

  lemma NoRepeats(a: seq<Outcome>, b: seq<Outcome>)
    requires multiset(a) == multiset(b) && forall i, j :: 0 <= i < j < |a| ==> a[i].id != a[j].id
    ensures forall i, j :: 0 <= i < j < |b| ==> b[i].id != b[j].id
  {
    forall i, j | 0 <= i < j < |b| ensures b[i].id != b[j].id {
      assert b[i] in multiset(b) && b[j] in multiset(b);
      assert b[i] in a && b[j] in a;
      if b[i] == b[j] { TwoMeansTwo(b, i, j); OnceMeansOnce(a, b[i]); }
    }
  }

  lemma TwoMeansTwo(b: seq<Outcome>, i: nat, j: nat)
    requires i < j < |b| && b[i] == b[j]
    ensures multiset(b)[b[i]] >= 2
  {
    assert b == b[..i] + [b[i]] + b[i + 1..j] + [b[j]] + b[j + 1..];
  }

  lemma {:induction false} OnceMeansOnce(a: seq<Outcome>, o: Outcome)
    requires forall i, j :: 0 <= i < j < |a| ==> a[i].id != a[j].id
    ensures multiset(a)[o] <= 1
  {
    if a != [] {
      assert a == [a[0]] + a[1..];
      OnceMeansOnce(a[1..], o);
      if o in a[1..] {
        var k :| 0 <= k < |a[1..]| && a[1..][k] == o;
        assert a[k + 1] == o;
      }
    }
  }

  /** Reads the journal: None when an entry vanished under it or could not be read.  `listed`
      is the directory when the names were read, `seen` the one each entry was read in. */
  method ReadDownloadFailures(disk: Disk, id: Id) returns (r: Option<seq<Outcome>>, ghost listed: Files, ghost seen: map<Id, Files>)
    requires Sound(disk.files, id)
    modifies disk`files
    ensures Sound(disk.files, id) && Own(old(disk.files), disk.files, id, {})
    ensures r.Some? ==> seen.Keys == JournalIds(listed) && FailuresRead(seen, r.value) && Descending(r.value)
    ensures r.Some? ==> forall i :: i in seen ==> Journal(i) in seen[i]
    ensures r.Some? ==> Over(disk.files, IdsOf(r.value))
    ensures disk.Calm() ==> disk.files == old(disk.files) && r.Some? && Failures(disk.files, JournalIds(disk.files), r.value)
  {
    disk.Await(id, {});
    var names := JournalIds(disk.files);
    listed, seen := disk.files, map[];
    var rest, failures := names, [];
    while rest != {}
      invariant rest <= names && Sound(disk.files, id) && Own(old(disk.files), disk.files, id, {})
      invariant Over(disk.files, IdsOf(failures)) && FailuresRead(seen, failures)
      invariant seen.Keys == names - rest && forall i :: i in seen ==> Journal(i) in seen[i]
      invariant disk.Calm() ==> disk.files == listed == old(disk.files) && forall i :: i in seen ==> seen[i] == listed
    {
      var name :| name in rest;
      ghost var was := disk.files;
      disk.Await(id, IdsOf(failures));
      OwnComposes(old(disk.files), was, disk.files, id, {}, {}, {});
      var fails := disk.Fails();
      if fails || Journal(name) !in disk.files { return None, listed, seen; }
      FailuresReadGrow(seen, failures, disk.files, name);
      var outcome := disk.files[Journal(name)].outcome;
      if outcome.status.Failed? {
        OneMoreId(failures, outcome);
        failures := failures + [outcome];
      }
      seen := seen[name := disk.files];
      rest := rest - {name};
    }
    FailuresReadSorted(seen, failures);
    if disk.Calm() { ReadAtOnce(disk.files, names, seen, NewestFirst(failures)); }
    r := Some(NewestFirst(failures));
  }

  // ------------------------------------------------------------------ capturing

  /** How the guarded part ended: the download is in, it is in but clearing the journal failed, or not in. */
  datatype Attempt = Cleared | Uncleared | Refused(code: Code)

  datatype End = Imported | Rejected | Threw

  function OwnPaths(id: Id): set<Path> { {Journal(id), JournalTmp(id), Pdf(id), Meta(id), MetaTmp(id)} }

  /** The entry written first is there, and nothing is visible yet. */
  ghost predicate Begun(files: Files, id: Id) {
    Sound(files, id) && InStatus(files, id, Pending) && !Published(files, id)
  }

  lemma BegunStays(a: Files, b: Files, id: Id, touched: set<Path>)
    requires Begun(a, id) && Sound(b, id) && Own(a, b, id, touched) && Journal(id) !in touched && Meta(id) !in touched
    ensures Begun(b, id)
  {
    assert Journal(id) in a.Keys + b.Keys;
    Unpublished(a, b, id, touched);
  }

  ghost predicate Holds(files: Files, id: Id, name: string, bytes: Bytes) {
    && CompletePdf(files, id) && files[Pdf(id)].bytes == bytes
    && files[Meta(id)].metadata == Metadata(id, PdfName(name), |bytes|)
  }

  /** The last step: metadata first, then the journal. */
  method Publish(disk: Disk, id: Id, name: string, size: nat, ghost bytes: Bytes) returns (r: Attempt)
    requires Begun(disk.files, id) && Pdf(id) in disk.files && disk.files[Pdf(id)] == Raw(bytes)
    requires size == |bytes| <= MAX_DOWNLOAD_BYTES && HasHeader(First(5, bytes))
    modifies disk
    ensures Sound(disk.files, id) && Extends(old(disk.log), disk.log, id)
    ensures Own(old(disk.files), disk.files, id, OwnPaths(id))
    ensures r.Refused? ==> r.code == Interrupted && !Published(disk.files, id)
    ensures !r.Refused? ==> Holds(disk.files, id, name, bytes)
    ensures r.Cleared? ==> Journal(id) !in disk.files
    ensures disk.reliable ==> r.Cleared?
  {
    var card := Metadata(id, PdfName(name), size);
    var ok := disk.Persist(Meta(id), Card(card));
    ghost var shown, logged := disk.files, disk.log;
    assert Pdf(id) in shown.Keys ==> Pdf(id) in old(disk.files).Keys + shown.Keys;
    OwnComposes(old(disk.files), shown, shown, id, {Meta(id), MetaTmp(id)}, {}, OwnPaths(id));
    if !ok {
      Unpublished(old(disk.files), shown, id, {MetaTmp(id)});
      return Refused(Interrupted);
    }
    assert Pdf(id) in old(disk.files).Keys + shown.Keys && CompletePdf(shown, id);
    assert Holds(shown, id, name, bytes);
    ok := disk.RemoveEntry(id, id, {});
    ExtendsComposes(old(disk.log), logged, disk.log, id);
    OwnComposes(old(disk.files), shown, disk.files, id, OwnPaths(id), {Journal(id)}, OwnPaths(id));
    HoldsStays(shown, disk.files, id, name, bytes);
    r := if ok then Cleared else Uncleared;
  }

  lemma HoldsStays(a: Files, b: Files, id: Id, name: string, bytes: Bytes)
    requires Holds(a, id, name, bytes) && Own(a, b, id, {Journal(id)})
    ensures Holds(b, id, name, bytes)
  {
    assert Pdf(id) in a.Keys + b.Keys && Meta(id) in a.Keys + b.Keys;
  }

  /** The guarded part of the capture. */
  method Transfer(disk: Disk, id: Id, name: string, limitReached: bool, source: Source, monitorTrips: bool)
    returns (r: Attempt)
    requires Begun(disk.files, id)
    modifies disk
    ensures Sound(disk.files, id) && Extends(old(disk.log), disk.log, id)
    ensures Own(old(disk.files), disk.files, id, OwnPaths(id))
    ensures r.Refused? ==> !Published(disk.files, id)
    ensures !r.Refused? ==> !limitReached && source.Stream? && Holds(disk.files, id, name, Flatten(source.chunks))
    ensures r.Cleared? ==> Journal(id) !in disk.files
    ensures disk.reliable ==>
              r == (var refusal := Refusal(limitReached, source, monitorTrips);
                    if refusal.Some? then Refused(refusal.value) else Cleared)
  {
    if limitReached { return Refused(Limit); }
    if source.Unavailable? { return Refused(if monitorTrips then TooLarge else Interrupted); }
    var ok, bytes, prefix, oversized := Pipe(disk, id, source.chunks, source.breaks);
    ghost var piped, logged := disk.files, disk.log;
    BegunStays(old(disk.files), piped, id, {Pdf(id)});
    OwnComposes(old(disk.files), piped, piped, id, {Pdf(id)}, {}, OwnPaths(id));
    if !ok { return Refused(if oversized || monitorTrips then TooLarge else Interrupted); }
    if !HasHeader(prefix) { return Refused(if monitorTrips then TooLarge else Unsupported); }
    r := Publish(disk, id, name, bytes, Flatten(source.chunks));
    ExtendsComposes(old(disk.log), logged, disk.log, id);
    OwnComposes(old(disk.files), piped, disk.files, id, OwnPaths(id), OwnPaths(id), OwnPaths(id));
    if r.Refused? && monitorTrips { r := Refused(TooLarge); }
  }

  method Forget(disk: Disk, id: Id, gone: seq<Outcome>, seen: set<Id>) returns (ok: bool)
    requires Sound(disk.files, id) && Over(disk.files, seen) && IdsOf(gone) <= seen
    modifies disk
    ensures Sound(disk.files, id) && Over(disk.files, seen) && Extends(old(disk.log), disk.log, id)
    ensures Own(old(disk.files), disk.files, id, {Journal(id)})
    ensures disk.Calm() ==> ok && disk.files == Without(old(disk.files), IdsOf(gone))
  {
    ok := true;
    for i := 0 to |gone|
      invariant Sound(disk.files, id) && Over(disk.files, seen) && Extends(old(disk.log), disk.log, id)
      invariant Own(old(disk.files), disk.files, id, {Journal(id)})
      invariant ok && (disk.Calm() ==> disk.files == Without(old(disk.files), IdsOf(gone[..i])))
    {
      ghost var was, logged := disk.files, disk.log;
      assert gone[i] in gone && gone[i].id in IdsOf(gone);
      ok := disk.RemoveEntry(id, gone[i].id, seen);
      ExtendsComposes(old(disk.log), logged, disk.log, id);
      OwnComposes(old(disk.files), was, disk.files, id, {Journal(id)}, {Journal(id)}, {Journal(id)});
      if !ok { return; }
      assert gone[..i + 1] == gone[..i] + [gone[i]];
      assert IdsOf(gone[..i + 1]) == IdsOf(gone[..i]) + {gone[i].id};
    }
    assert gone[..|gone|] == gone;
  }

  /** Keeps the hundred newest failures.  Only entries read as failed go. */
  method ForgetOldFailures(disk: Disk, id: Id) returns (ok: bool, ghost kept: seq<Outcome>, ghost gone: seq<Outcome>)
    requires Sound(disk.files, id) && Over(disk.files, {id})
    modifies disk
    ensures Sound(disk.files, id) && Over(disk.files, {id}) && Extends(old(disk.log), disk.log, id)
    ensures Own(old(disk.files), disk.files, id, {Journal(id)})
    ensures ok ==> Descending(kept + gone) && |kept| <= KEPT_FAILURES && (gone != [] ==> |kept| == KEPT_FAILURES)
    ensures disk.Calm() ==> ok && Failures(old(disk.files), JournalIds(old(disk.files)), kept + gone)
    ensures disk.Calm() ==> disk.files == Without(old(disk.files), IdsOf(gone))
  {
    kept, gone := [], [];
    var failures, listed, seen := ReadDownloadFailures(disk, id);
    ghost var read := disk.files;
    assert Journal(id) in read ==> Journal(id) in old(disk.files).Keys + read.Keys;
    OwnComposes(old(disk.files), read, read, id, {}, {}, {Journal(id)});
    if failures.None? { return false, [], []; }
    var os := failures.value;
    var k := if |os| <= KEPT_FAILURES then |os| else KEPT_FAILURES;
    kept, gone := os[..k], os[k..];
    assert kept + gone == os;
    ok := Forget(disk, id, os[k..], IdsOf(os) + {id});
    OwnComposes(old(disk.files), read, disk.files, id, {}, {Journal(id)}, {Journal(id)});
  }

  function Without(files: Files, ids: set<Id>): Files { map p | p in files && !(p.Journal? && p.id in ids) :: files[p] }

  lemma KeptStay(before: Files, kept: seq<Outcome>, gone: seq<Outcome>)
    requires Failures(before, JournalIds(before), kept + gone)
    ensures var after := Without(before, IdsOf(gone));
            forall o :: o in kept <==> InStatus(after, o.id, Failed) && after[Journal(o.id)].outcome == o
  {
    var after, os := Without(before, IdsOf(gone)), kept + gone;
    forall k, g | k in kept && g in gone ensures k.id != g.id {
      var i :| 0 <= i < |kept| && kept[i] == k;
      var j :| 0 <= j < |gone| && gone[j] == g;
      assert os[i].id != os[|kept| + j].id;
    }
    forall o ensures o in kept <==> InStatus(after, o.id, Failed) && after[Journal(o.id)].outcome == o {
      assert o in os <==> o in kept || o in gone;
    }
  }

  /** The handler of a failed transfer. */
  method Reject(disk: Disk, entry: Outcome) returns (ok: bool, ghost kept: seq<Outcome>, ghost gone: seq<Outcome>)
    requires Sound(disk.files, entry.id) && !Published(disk.files, entry.id) && entry.status == Failed
    modifies disk
    ensures Sound(disk.files, entry.id) && Extends(old(disk.log), disk.log, entry.id) && !Published(disk.files, entry.id)
    ensures ok ==> Pdf(entry.id) !in disk.files && !InStatus(disk.files, entry.id, Pending)
    ensures ok ==> Descending(kept + gone) && |kept| <= KEPT_FAILURES && (gone != [] ==> |kept| == KEPT_FAILURES)
    ensures disk.Calm() ==> ok && entry in kept + gone
    ensures disk.Calm() ==> forall o :: o in kept <==> InStatus(disk.files, o.id, Failed) && disk.files[Journal(o.id)].outcome == o
  {
    var id := entry.id;
    kept, gone := [], [];
    ok := disk.Persist(Journal(id), Entry(entry));
    ghost var noted, logged := disk.files, disk.log;
    Unpublished(old(disk.files), noted, id, {Journal(id), JournalTmp(id)});
    if !ok { return; }
    ok := disk.RemovePdf(id);
    ghost var removed, logged2 := disk.files, disk.log;
    ExtendsComposes(old(disk.log), logged, disk.log, id);
    Unpublished(noted, removed, id, {Pdf(id)});
    if !ok { return; }
    assert Journal(id) in removed ==> Journal(id) in noted.Keys + removed.Keys;
    ok, kept, gone := ForgetOldFailures(disk, id);
    ExtendsComposes(old(disk.log), logged2, disk.log, id);
    Unpublished(removed, disk.files, id, {Journal(id)});
    if disk.Calm() { KeptStay(removed, kept, gone); }
    assert Pdf(id) in disk.files ==> Pdf(id) in removed.Keys + disk.files.Keys;
  }

  /** One download, whatever other captures do meanwhile.  Every state it leaves behind is sound and touches
      only its own files, but for forgotten failures.  Where no file operation fails, it is let in exactly if
      it is a whole PDF of an allowed size within the limit, and `code` says why it was not. */
  method CapturePdfDownload(disk: Disk, id: Id, name: string, limitReached: bool, source: Source,
                            monitorTrips: bool, createdAt: nat)
    returns (end: End, ghost code: Option<Code>, ghost kept: seq<Outcome>, ghost gone: seq<Outcome>)
    requires Complete(disk.files) && forall p :: p in disk.files ==> p.id != id
    modifies disk
    ensures Sound(disk.files, id) && Extends(old(disk.log), disk.log, id)
    ensures end.Imported? ==> source.Stream? && Holds(disk.files, id, name, Flatten(source.chunks)) && Journal(id) !in disk.files
    ensures end.Rejected? ==> !Published(disk.files, id) && Pdf(id) !in disk.files && !InStatus(disk.files, id, Pending)
    ensures end.Imported? ==> code.None? && !limitReached
    ensures end.Rejected? ==> code.Some?
    ensures disk.reliable ==>
      var all := if source.Stream? then Flatten(source.chunks) else [];
      var whole := source.Stream? && !source.breaks && |all| <= 10485760;
      var pdf := |all| >= 5 && all[0] % 128 == 0x25 && all[1] % 128 == 0x50 && all[2] % 128 == 0x44
                 && all[3] % 128 == 0x46 && all[4] % 128 == 0x2D;
      && (end.Imported? <==> !limitReached && whole && pdf)
      && (code == Some(Limit) <==> limitReached)
      && (code == Some(TooLarge) <==> !limitReached && (|all| > 10485760 || (monitorTrips && !(whole && pdf))))
      && (code == Some(Unsupported) <==> !limitReached && !monitorTrips && whole && !pdf)
      && (code == Some(Interrupted) <==> !limitReached && !monitorTrips && |all| <= 10485760 && !whole)
    ensures disk.Calm() && !end.Imported? ==>
      && end.Rejected? && |kept| <= KEPT_FAILURES && Descending(kept + gone)
      && Outcome(id, name, Failed, code.value, createdAt) in kept + gone
      && forall o :: o in kept <==> InStatus(disk.files, o.id, Failed) && disk.files[Journal(o.id)].outcome == o
  {
    code, kept, gone := None, [], [];
    var ok := disk.Persist(Journal(id), Entry(Outcome(id, name, Pending, Interrupted, createdAt)));
    if !ok { return Threw, None, [], []; }
    ghost var begun, logged := disk.files, disk.log;
    assert !Published(begun, id) by { Unpublished(old(disk.files), begun, id, {Journal(id), JournalTmp(id)}); }
    var attempt := Transfer(disk, id, name, limitReached, source, monitorTrips);
    ghost var tried, logged2 := disk.files, disk.log;
    ExtendsComposes(old(disk.log), logged, disk.log, id);
    RefusalExactly(limitReached, source, monitorTrips);
    match attempt {
      case Cleared => end := Imported;
      case Uncleared => end := Threw;
      case Refused(why) =>
        code := Some(why);
        ok, kept, gone := Reject(disk, Outcome(id, name, Failed, why, createdAt));
        ExtendsComposes(old(disk.log), logged2, disk.log, id);
        end := if ok then Rejected else Threw;
    }
  }

  // ------------------------------------------------------------------ recovery after a restart

  /** Every step of a recovery leaves what a recovery would make of the files alone. */
  ghost predicate Recovers(before: Log, after: Log, blind: set<Id>) {
    |before| <= |after| && after[..|before|] == before
    && forall i :: |before| <= i < |after| ==> Recovered(after[i].1, blind) == Recovered(after[i].0, blind)
  }

  lemma ForgettingRecovers(files: Files, blind: set<Id>, id: Id)
    requires Clears(files, blind, Journal(id))
    ensures Recovered(files - {Journal(id)}, blind) == Recovered(files, blind)
  {
  }

  lemma FailingRecovers(files: Files, blind: set<Id>, id: Id)
    requires InStatus(files, id, Pending) && !Clears(files, blind, Journal(id))
    ensures var o := files[Journal(id)].outcome.(status := Failed);
            Recovered(Renamed(files, Journal(id), Entry(o)), blind) == Recovered(files, blind)
  {
  }

  lemma TmpRecovers(files: Files, blind: set<Id>, p: Path, c: Content)
    requires IsTmp(p)
    ensures Recovered(files[p := c], blind) == Recovered(files, blind)
  {
  }

  predicate Readable(files: Files) { forall p :: p in files && p.Journal? ==> files[p].Entry? && files[p].outcome.id == p.id }

  /** Only this entry, or its temporary copy, differs. */
  ghost predicate OnlyEntry(a: Files, b: Files, id: Id) {
    forall p :: p in a.Keys + b.Keys && p != Journal(id) && p != JournalTmp(id) ==> Same(a, b, p)
  }

  /** One entry of the reading at startup. */
  method Reconcile(disk: Disk, blind: set<Id>, id: Id) returns (ok: bool)
    requires Readable(disk.files) && InStatus(disk.files, id, Pending)
    modifies disk
    ensures Readable(disk.files) && OnlyEntry(old(disk.files), disk.files, id)
    ensures Recovers(old(disk.log), disk.log, blind)
    ensures Recovered(disk.files, blind) == Recovered(old(disk.files), blind)
    ensures ok ==> if Clears(old(disk.files), blind, Journal(id)) then Journal(id) !in disk.files
                   else InStatus(disk.files, id, Failed)
    ensures disk.reliable ==> ok
  {
    if Published(disk.files, id) && id !in blind {
      ForgettingRecovers(disk.files, blind, id);
      ok := disk.Change(disk.files - {Journal(id)});
      return;
    }
    var entry := Entry(disk.files[Journal(id)].outcome.(status := Failed));
    TmpRecovers(disk.files, blind, JournalTmp(id), Torn);
    ok := disk.Change(disk.files[JournalTmp(id) := Torn]);
    if !ok { return; }
    TmpRecovers(disk.files, blind, JournalTmp(id), entry);
    ok := disk.Change(disk.files[JournalTmp(id) := entry]);
    if !ok { return; }
    FailingRecovers(disk.files, blind, id);
    ok := disk.Change(Renamed(disk.files, Journal(id), entry));
  }

  lemma RecoversComposes(a: Log, b: Log, c: Log, blind: set<Id>)
    requires Recovers(a, b, blind) && Recovers(b, c, blind)
    ensures Recovers(a, c, blind)
  {
    forall i | |a| <= i < |c| ensures Recovered(c[i].1, blind) == Recovered(c[i].0, blind) {
      if i < |b| { assert c[i] == b[i]; }
    }
    assert c[..|a|] == c[..|b|][..|a|];
  }

  /** The entries already handled are settled, the others are as they were. */
  ghost predicate Handled(start: Files, files: Files, rest: set<Id>) {
    && Readable(files)
    && (forall p :: p in files && p.Journal? ==> p in start)
    && (forall i :: i in rest ==> Same(start, files, Journal(i)))
    && (forall i :: InStatus(files, i, Pending) ==> i in rest)
  }

  lemma HandledOne(start: Files, a: Files, b: Files, rest: set<Id>, id: Id)
    requires Handled(start, a, rest) && OnlyEntry(a, b, id) && id in rest && Readable(b)
    requires !InStatus(b, id, Pending) && (Journal(id) in b ==> Journal(id) in a)
    ensures Handled(start, b, rest - {id})
  {
    forall i | i != id ensures Same(a, b, Journal(i)) {
      assert Journal(i) in a || Journal(i) in b ==> Journal(i) in a.Keys + b.Keys;
    }
    forall i | InStatus(b, i, Pending) ensures i in rest - {id} { assert Same(a, b, Journal(i)) || i == id; }
    forall p | p in b && p.Journal? ensures p in start {
      if p.id != id { assert Same(a, b, Journal(p.id)); }
    }
  }

  lemma OthersFail(a: Files, b: Files, ids: set<Id>, os: seq<Outcome>, id: Id)
    requires Failures(a, ids, os) && OnlyEntry(a, b, id) && id !in ids
    ensures Failures(b, ids, os)
  {
    forall i | i != id ensures Same(a, b, Journal(i)) {
      assert Journal(i) in a || Journal(i) in b ==> Journal(i) in a.Keys + b.Keys;
    }
  }

  /** With nothing pending, the files are what recovery makes of them. */
  lemma NothingPending(files: Files, blind: set<Id>)
    requires forall i :: !InStatus(files, i, Pending)
    ensures Recovered(files, blind) == Durable(files)
  {
  }

  /** The reading at startup, before the worker serves anything. Wherever it stops, a
      later recovery ends in the same files. */
  method RecoverDownloads(disk: Disk, blind: set<Id>) returns (r: Option<seq<Outcome>>)
    requires Complete(disk.files)
    modifies disk
    ensures Recovers(old(disk.log), disk.log, blind)
    ensures Recovered(disk.files, blind) == Recovered(old(disk.files), blind)
    ensures r.Some? ==> Durable(disk.files) == Recovered(old(disk.files), blind)
    ensures r.Some? ==> Failures(disk.files, JournalIds(old(disk.files)), r.value) && Descending(r.value)
    ensures disk.reliable ==> r.Some?
  {
    var names := JournalIds(disk.files);
    ghost var start := disk.files;
    var rest, failures := names, [];
    while rest != {}
      invariant rest <= names && Handled(start, disk.files, rest)
      invariant Recovers(old(disk.log), disk.log, blind) && Recovered(disk.files, blind) == Recovered(start, blind)
      invariant Failures(disk.files, names - rest, failures)
    {
      var id :| id in rest;
      ghost var was, logged := disk.files, disk.log;
      assert Same(start, was, Journal(id)) && Journal(id) in was;
      if disk.files[Journal(id)].outcome.status.Pending? {
        var ok := Reconcile(disk, blind, id);
        RecoversComposes(old(disk.log), logged, disk.log, blind);
        if !ok { return None; }
      }
      HandledOne(start, was, disk.files, rest, id);
      OthersFail(was, disk.files, names - rest, failures, id);
      EntryFails(disk.files, names - rest, failures, id);
      if Journal(id) in disk.files { failures := failures + [disk.files[Journal(id)].outcome]; }
      assert names - (rest - {id}) == (names - rest) + {id};
      rest := rest - {id};
    }
    assert names - rest == names;
    NothingPending(disk.files, blind);
    FailuresSorted(disk.files, names, failures);
    r := Some(NewestFirst(failures));
  }

  lemma EntryFails(files: Files, ids: set<Id>, os: seq<Outcome>, id: Id)
    requires Failures(files, ids, os) && Readable(files) && id !in ids && !InStatus(files, id, Pending)
    ensures Failures(files, ids + {id}, if Journal(id) in files then os + [files[Journal(id)].outcome] else os)
  {
    if Journal(id) in files { assert files[Journal(id)].outcome.status == Failed; }
  }
}
