/** The files a PDF download leaves (apps/worker/src/downloads.ts): a journal entry, the PDF and its
    metadata, what holds of them at every moment, and what recovery makes of them. */
module Downloads {
  import opened Runs

  type Id = nat

  newtype byte = x: int | 0 <= x < 256

  type Bytes = seq<byte>

  const MAX_DOWNLOAD_BYTES := 10 * 1024 * 1024

  const KEPT_FAILURES := 100

  datatype Status = Pending | Failed

  datatype Code = Interrupted | Limit | Unsupported | TooLarge

  datatype Outcome = Outcome(id: Id, name: string, status: Status, code: Code, createdAt: nat)

  datatype Metadata = Metadata(id: Id, name: string, size: nat)

  /** `download-outcomes/<id>.json`, `downloads/<id>.pdf`, `downloads/<id>.json`, and the temporary names
      of the two that are renamed into place. */
  datatype Path = Journal(id: Id) | JournalTmp(id: Id) | Pdf(id: Id) | Meta(id: Id) | MetaTmp(id: Id)

  datatype Content = Entry(outcome: Outcome) | Card(metadata: Metadata) | Raw(bytes: Bytes) | Torn

  type Files = map<Path, Content>

  predicate IsTmp(p: Path) { p.JournalTmp? || p.MetaTmp? }

  // ------------------------------------------------------------------ what a reader relies on

  /** The header test on decoded text: decoding as ASCII drops the top bit of each byte. */
  predicate HasHeader(prefix: Bytes) {
    |prefix| == 5 && prefix[0] % 128 == 0x25 && prefix[1] % 128 == 0x50 && prefix[2] % 128 == 0x44
    && prefix[3] % 128 == 0x46 && prefix[4] % 128 == 0x2D
  }

  function First(n: nat, bytes: Bytes): Bytes { if |bytes| <= n then bytes else bytes[..n] }

  /** The metadata describes these bytes, and they are a PDF of an allowed size. */
  predicate Describes(m: Metadata, bytes: Bytes) {
    m.size == |bytes| <= MAX_DOWNLOAD_BYTES && HasHeader(First(5, bytes))
  }

  predicate Published(files: Files, id: Id) { Meta(id) in files }

  predicate InStatus(files: Files, id: Id, status: Status) {
    Journal(id) in files && files[Journal(id)].Entry? && files[Journal(id)].outcome.status == status
  }

  predicate CompletePdf(files: Files, id: Id) {
    && Meta(id) in files && files[Meta(id)].Card? && files[Meta(id)].metadata.id == id
    && Pdf(id) in files && files[Pdf(id)].Raw? && Describes(files[Meta(id)].metadata, files[Pdf(id)].bytes)
  }

  /** Holds at every moment, so at every crash: visible metadata means a complete PDF, and journal entries
      are readable. */
  predicate Complete(files: Files) {
    forall p :: p in files ==>
      && (p.Journal? ==> files[p].Entry? && files[p].outcome.id == p.id)
      && (p.Meta? ==> CompletePdf(files, p.id))
  }

  predicate Both(files: Files, id: Id) { Published(files, id) && InStatus(files, id, Failed) }

  /** What the capture of `id` keeps up besides: its download is not both published and failed. */
  predicate Sound(files: Files, id: Id) { Complete(files) && !Both(files, id) }

  // ------------------------------------------------------------------ what captures do to each other

  predicate Same(a: Files, b: Files, p: Path) { (p in a <==> p in b) && (p in a ==> a[p] == b[p]) }

  /** The bounded failure history lets any capture drop a failed entry. */
  predicate Dropped(a: Files, b: Files, p: Path) { p.Journal? && InStatus(a, p.id, Failed) && p !in b }

  /** None of these downloads is pending: a failed one stays failed until it is forgotten. */
  predicate Over(files: Files, ids: set<Id>) { forall id :: id in ids ==> !InStatus(files, id, Pending) }

  /** Steps of other captures, seen by the capture of `id`, which has read the entries of `seen` as failed. */
  predicate Rely(a: Files, b: Files, id: Id, seen: set<Id>) {
    && Sound(b, id) && (Over(a, seen) ==> Over(b, seen))
    && forall p :: p in a.Keys + b.Keys && p.id == id ==> Same(a, b, p) || Dropped(a, b, p)
  }

  /** A step of the capture of `id`. */
  predicate Guarantee(a: Files, b: Files, id: Id) {
    && (Complete(a) ==> Complete(b)) && (Sound(a, id) ==> Sound(b, id)) && (InStatus(b, id, Pending) ==> InStatus(a, id, Pending) || Journal(id) !in a)
    && forall p :: p in a.Keys + b.Keys && p.id != id ==> Same(a, b, p) || Dropped(a, b, p)
  }

  /** What one capture guarantees is what the others rely on, and relying composes, so the claims about one
      capture hold with any number of them interleaved.  Nobody has read an entry as failed before it was
      first written. */
  lemma GuaranteeIsRely(a: Files, b: Files, c: Files, id: Id, seen: set<Id>, other: Id)
    requires Rely(a, b, id, seen) && Guarantee(b, c, other) && id != other
    requires Journal(other) !in b && Journal(other) in c ==> other !in seen
    ensures Rely(a, c, id, seen)
  {
    forall p | p in a.Keys + c.Keys && p.id == id ensures Same(a, c, p) || Dropped(a, c, p) {
      if p in b.Keys { assert Same(b, c, p) || Dropped(b, c, p); }
      assert p in a.Keys + b.Keys || p in b.Keys + c.Keys;
    }
    assert Meta(id) in c ==> Same(b, c, Meta(id)) by { assert Meta(id) in c ==> Meta(id) in b.Keys + c.Keys; }
    assert Journal(id) in c ==> Same(b, c, Journal(id)) by { assert Journal(id) in c ==> Journal(id) in b.Keys + c.Keys; }
    if Over(a, seen) {
      forall i | i in seen ensures !InStatus(c, i, Pending) {
        if i != other && Journal(i) in c { assert Same(b, c, Journal(i)) || Dropped(b, c, Journal(i)); }
      }
    }
  }

  // ------------------------------------------------------------------ recovery

  /** What recovery leaves of an entry; `blind` are the downloads whose metadata cannot be looked up. */
  predicate Clears(files: Files, blind: set<Id>, p: Path) {
    p.Journal? && InStatus(files, p.id, Pending) && Published(files, p.id) && p.id !in blind
  }

  function Settled(files: Files, p: Path): Content
    requires p in files
  {
    if p.Journal? && InStatus(files, p.id, Pending) then Entry(files[p].outcome.(status := Failed)) else files[p]
  }

  function Recovered(files: Files, blind: set<Id>): Files {
    map p | p in files && !IsTmp(p) && !Clears(files, blind, p) :: Settled(files, p)
  }

  function Durable(files: Files): Files { map p | p in files && !IsTmp(p) :: files[p] }

  /** After recovery no entry is pending, the PDFs and metadata are untouched, and a journalled download is
      either published or failed; it is both exactly when it was, or when its metadata could not be looked up.
      An entry goes exactly if it was pending for a download seen to be published; any other stays as it was
      but for its status. */
  lemma RecoverySettles(files: Files, blind: set<Id>, id: Id)
    requires Complete(files) && Journal(id) in files
    ensures var after := Recovered(files, blind);
      && !InStatus(after, id, Pending)
      && (Published(after, id) <==> Published(files, id)) && Same(files, after, Pdf(id))
      && (Published(after, id) || InStatus(after, id, Failed))
      && (Both(after, id) <==> Both(files, id) || (Published(files, id) && id in blind))
      && (Journal(id) !in after <==> InStatus(files, id, Pending) && Published(files, id) && id !in blind)
      && (Journal(id) in after ==> after[Journal(id)] == Entry(files[Journal(id)].outcome.(status := Failed)))
      && forall p: Path :: p.Pdf? || p.Meta? ==> Same(files, after, p)
  {
    assert !IsTmp(Journal(id)) && !IsTmp(Meta(id)) && !IsTmp(Pdf(id));
  }

  /** Recovering again changes nothing, whatever can be looked up the second time. */
  lemma RecoveryIsIdempotent(files: Files, blind: set<Id>, again: set<Id>)
    requires Complete(files)
    ensures Recovered(Recovered(files, blind), again) == Recovered(files, blind)
  {
    var once := Recovered(files, blind);
    forall id ensures !InStatus(once, id, Pending) {
      if Journal(id) in files { RecoverySettles(files, blind, id); }
    }
  }

  /** Whatever could not be looked up, recovery leaves files that captures can go on with. */
  lemma RecoveryIsComplete(files: Files, blind: set<Id>)
    requires Complete(files)
    ensures Complete(Recovered(files, blind))
    ensures forall id :: Journal(id) !in files ==> Sound(Recovered(files, blind), id)
  {
    var after := Recovered(files, blind);
    forall p | p in after && p.Meta? ensures CompletePdf(after, p.id) {
      assert p == Meta(p.id) && !IsTmp(Pdf(p.id)) && Pdf(p.id) in files;
    }
  }

  /** The failure handler removes the PDF.  That is safe exactly if the metadata is not visible: a rename of the
      metadata that took effect and then reported an error would leave metadata without its PDF. */
  lemma RemovalNeedsNoMetadata(files: Files, id: Id)
    requires Complete(files)
    ensures Complete(files - {Pdf(id)}) <==> !Published(files, id)
  {
    var after := files - {Pdf(id)};
    if Published(files, id) {
      assert Meta(id) in after && !CompletePdf(after, id);
    } else {
      forall p | p in after && p.Meta? ensures CompletePdf(after, p.id) { assert p == Meta(p.id) && p.id != id; }
    }
  }

  /** The header test lets bytes through that do not spell `%PDF-`. */
  lemma HeaderIgnoresTopBits()
    ensures HasHeader([0xA5, 0xD0, 0xC4, 0xC6, 0xAD])
  {
  }

  /** It is the literal test exactly for bytes below 128. */
  lemma HeaderIsLiteral(bytes: Bytes)
    requires HasHeader(First(5, bytes))
    ensures First(5, bytes) == [0x25, 0x50, 0x44, 0x46, 0x2D] <==> forall i :: 0 <= i < 5 ==> bytes[i] < 128
  {
    var f := First(5, bytes);
    assert forall i :: 0 <= i < 5 ==> f[i] == bytes[i];
    if f == [0x25, 0x50, 0x44, 0x46, 0x2D] {
      assert bytes[0] == 0x25 && bytes[1] == 0x50 && bytes[2] == 0x44 && bytes[3] == 0x46 && bytes[4] == 0x2D;
    }
  }

  // ------------------------------------------------------------------ the failure history

  function Insert(o: Outcome, os: seq<Outcome>): seq<Outcome> {
    if os == [] || o.createdAt >= os[0].createdAt then [o] + os else [os[0]] + Insert(o, os[1..])
  }

  /** The failures as they are listed: the latest first, and of equal times in the order they were read. */
  function NewestFirst(os: seq<Outcome>): seq<Outcome> {
    if os == [] then [] else Insert(os[0], NewestFirst(os[1..]))
  }

  ghost predicate Descending(os: seq<Outcome>) {
    forall i, j :: 0 <= i < j < |os| ==> os[i].createdAt >= os[j].createdAt
  }

  lemma {:induction false} InsertKeepsElements(o: Outcome, os: seq<Outcome>)
    ensures multiset(Insert(o, os)) == multiset{o} + multiset(os)
  {
    if os != [] && o.createdAt < os[0].createdAt {
      InsertKeepsElements(o, os[1..]);
      assert os == [os[0]] + os[1..];
    }
  }

  lemma {:induction false} InsertKeepsOrder(o: Outcome, os: seq<Outcome>)
    requires Descending(os)
    ensures Descending(Insert(o, os))
  {
    if os != [] && o.createdAt < os[0].createdAt {
      var rest := Insert(o, os[1..]);
      InsertKeepsOrder(o, os[1..]);
      InsertKeepsElements(o, os[1..]);
      forall x | x in rest ensures os[0].createdAt >= x.createdAt {
        assert x in multiset(rest);
        if x != o { assert x in multiset(os[1..]) && x in os[1..]; }
      }
    }
  }

  lemma {:induction false} NewestFirstSorts(os: seq<Outcome>)
    ensures Descending(NewestFirst(os)) && multiset(NewestFirst(os)) == multiset(os)
  {
    if os != [] {
      NewestFirstSorts(os[1..]);
      InsertKeepsOrder(os[0], NewestFirst(os[1..]));
      InsertKeepsElements(os[0], NewestFirst(os[1..]));
      assert os == [os[0]] + os[1..];
    }
  }

  // ------------------------------------------------------------------ the stream

  function Flatten(chunks: seq<Bytes>): Bytes {
    if chunks == [] then [] else Flatten(chunks[..|chunks| - 1]) + chunks[|chunks| - 1]
  }

  /** The bytes of a stream are those of its chunks in order, however it is cut. */
  lemma {:induction false} FlattenJoins(a: seq<Bytes>, b: seq<Bytes>)
    ensures Flatten(a + b) == Flatten(a) + Flatten(b)
    ensures Flatten([]) == [] && forall chunk :: Flatten([chunk]) == chunk
    decreases |b|
  {
    forall chunk ensures Flatten([chunk]) == chunk { assert [chunk][..0] == []; }
    if b == [] {
      assert a + b == a;
    } else {
      var n := |b| - 1;
      assert (a + b)[..|a + b| - 1] == a + b[..n];
      FlattenJoins(a, b[..n]);
    }
  }

  lemma {:induction false} FlattenGrows(chunks: seq<Bytes>, k: nat)
    requires k <= |chunks|
    ensures |Flatten(chunks[..k])| <= |Flatten(chunks)|
    decreases |chunks| - k
  {
    if k == |chunks| {
      assert chunks[..k] == chunks;
    } else {
      assert chunks[..k + 1][..k] == chunks[..k];
      FlattenGrows(chunks, k + 1);
    }
  }

  /** What the browser hands over: nothing, or chunks and possibly an error after them. */
  datatype Source = Unavailable | Stream(chunks: seq<Bytes>, breaks: bool)

  /** Why a download is refused, when no file operation fails; the monitor is the 100 ms size check. */
  function Refusal(limitReached: bool, source: Source, monitorTrips: bool): Option<Code> {
    if limitReached then Some(Limit)
    else
      match source
      case Unavailable => Some(if monitorTrips then TooLarge else Interrupted)
      case Stream(chunks, breaks) =>
        var all := Flatten(chunks);
        if |all| > MAX_DOWNLOAD_BYTES then Some(TooLarge)
        else if breaks then Some(if monitorTrips then TooLarge else Interrupted)
        else if !HasHeader(First(5, all)) then Some(if monitorTrips then TooLarge else Unsupported)
        else None
  }

  /** The same on the bytes: what is let in, and the code of everything else. */
  lemma RefusalExactly(limitReached: bool, source: Source, monitorTrips: bool)
    ensures var all := if source.Stream? then Flatten(source.chunks) else [];
            var whole := source.Stream? && !source.breaks && |all| <= 10485760;
            var pdf := |all| >= 5 && all[0] % 128 == 0x25 && all[1] % 128 == 0x50 && all[2] % 128 == 0x44
                       && all[3] % 128 == 0x46 && all[4] % 128 == 0x2D;
            var r := Refusal(limitReached, source, monitorTrips);
            && (r == None <==> !limitReached && whole && pdf)
            && (r == Some(Limit) <==> limitReached)
            && (r == Some(TooLarge) <==> !limitReached && (|all| > 10485760 || (monitorTrips && !(whole && pdf))))
            && (r == Some(Unsupported) <==> !limitReached && !monitorTrips && whole && !pdf)
            && (r == Some(Interrupted) <==> !limitReached && !monitorTrips && |all| <= 10485760 && !whole)
  {
  }

  function Lower(c: char): char { if 'A' <= c <= 'Z' then ((c as int) + 32) as char else c }

  predicate EndsInPdf(name: string) {
    var n := |name|;
    n >= 4 && name[n - 4] == '.' && Lower(name[n - 3]) == 'p' && Lower(name[n - 2]) == 'd' && Lower(name[n - 1]) == 'f'
  }

  function PdfName(name: string): (r: string)
    ensures EndsInPdf(r) && name <= r
  {
    if EndsInPdf(name) then name else name + ".pdf"
  }
}
