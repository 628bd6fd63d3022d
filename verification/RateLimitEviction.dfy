/** What evicting an open window does to the limiter's guarantees, and when it happens. */
module RateLimitEviction {
  import opened Runs
  import opened RateLimit
  import opened RateLimitBound

  // ------------------------------------------------------------------ when an open window is evicted

  /** An attempt that opens a window finds room for it beside the windows that are open. */
  ghost predicate Fits(c: Config, t: Table, use: Use)
    requires t.Valid()
  {
    use.Attempt? && !Live(t, use.key, use.at) ==> |OpenKeys(t.buckets, t.order, use.at)| < Capacity(c)
  }

  ghost predicate Uncrowded(c: Config, t: Table, uses: seq<Use>)
    requires t.Valid()
    decreases |uses|
  {
    uses == [] || (Fits(c, t, uses[0]) && (AfterIsValid(c, t, uses[0]); Uncrowded(c, After(c, t, uses[0]), uses[1..])))
  }

  /** With room, pruning drops closed windows and nothing else. */
  lemma RoomyPruneSpares(c: Config, t: Table, now: nat, k: Key)
    requires t.Valid() && |OpenKeys(t.buckets, t.order, now)| < Capacity(c) && Live(t, k, now)
    ensures Pruned(t, now, c.maxKeys).Valid() && k in Pruned(t, now, c.maxKeys).buckets && Pruned(t, now, c.maxKeys).buckets[k] == t.buckets[k]
  {
    PrunedHasRoom(c, t, now);
    SweptIsValid(t, now);
    var open := OpenKeys(t.buckets, t.order, now);
    assert k in open;
    assert open != [];
  }

  lemma FittingSpares(c: Config, t: Table, use: Use, k: Key)
    requires t.Valid() && Fits(c, t, use) && !use.Reset?
    ensures Spares(c, t, use, k)
  {
    SweptIsValid(t, use.at);
    if use.Attempt? && !Live(t, use.key, use.at) && Live(t, k, use.at) { RoomyPruneSpares(c, t, use.at, k); }
  }

  /** Among as many different keys as there is room for, one is not in a smaller table. */
  lemma {:induction false} SomeoneIsMissing(ks: seq<Key>, t: Table) returns (k: Key)
    requires t.Valid() && Distinct(ks) && |ks| > |t.order|
    ensures k in ks && k !in t.buckets
  {
    if forall x :: x in ks ==> x in t.buckets {
      DistinctSize(ks, t.buckets.Keys);
      OneEntryPerKey(t.order, t.buckets.Keys);
      assert false;
    }
    k :| k in ks && k !in t.buckets;
  }

  lemma {:induction false} DistinctSize(ks: seq<Key>, within: set<Key>)
    requires Distinct(ks) && forall k :: k in ks ==> k in within
    ensures |ks| <= |within|
  {
    if ks != [] {
      TailIsDistinct(ks);
      DistinctSize(ks[1..], within - {ks[0]});
    }
  }

  lemma CrowdingEvicts(c: Config, t: Table, use: Use) returns (k: Key)
    requires t.Valid() && !Fits(c, t, use)
    ensures !Spares(c, t, use, k)
  {
    var open := OpenKeys(t.buckets, t.order, use.at);
    OpenKeysDistinct(t.buckets, t.order, use.at);
    PrunedHasRoom(c, t, use.at);
    k := SomeoneIsMissing(open, Pruned(t, use.at, c.maxKeys));
    assert k != use.key;
  }

  ghost predicate AllSpared(c: Config, t: Table, uses: seq<Use>)
    requires t.Valid()
  {
    forall k :: Spared(c, t, uses, k)
  }

  /** Without resets: every key is spared throughout exactly if no attempt opens a window while as many
      windows are open as there is room for. */
  lemma {:induction false} UncrowdedExactly(c: Config, t: Table, uses: seq<Use>)
    requires t.Valid() && forall i :: 0 <= i < |uses| ==> !uses[i].Reset?
    ensures Uncrowded(c, t, uses) <==> AllSpared(c, t, uses)
    decreases |uses|
  {
    if uses != [] {
      var r := After(c, t, uses[0]);
      AfterIsValid(c, t, uses[0]);
      UncrowdedExactly(c, r, uses[1..]);
      if !Fits(c, t, uses[0]) {
        var k := CrowdingEvicts(c, t, uses[0]);
        assert !Spared(c, t, uses, k);
      } else if AllSpared(c, r, uses[1..]) {
        forall k ensures Spared(c, t, uses, k) { FittingSpares(c, t, uses[0], k); }
      } else {
        var k :| !Spared(c, r, uses[1..], k);
        assert !Spared(c, t, uses, k);
      }
    }
  }

  // ------------------------------------------------------------------ sweeps

  /** The same windows are open. */
  ghost predicate SameOpen(t: Table, u: Table, now: nat) {
    forall k :: (Live(t, k, now) <==> Live(u, k, now)) && (Live(t, k, now) ==> t.buckets[k] == u.buckets[k])
  }

  lemma SameOpenCount(t: Table, u: Table, now: nat)
    requires t.Valid() && u.Valid() && SameOpen(t, u, now)
    ensures |OpenKeys(t.buckets, t.order, now)| == |OpenKeys(u.buckets, u.order, now)|
  {
    var a, b := OpenKeys(t.buckets, t.order, now), OpenKeys(u.buckets, u.order, now);
    OpenKeysDistinct(t.buckets, t.order, now);
    OpenKeysDistinct(u.buckets, u.order, now);
    var keys := set k | k in a;
    forall k ensures k in b <==> k in keys { assert k in a <==> Live(t, k, now); assert k in b <==> Live(u, k, now); }
    OneEntryPerKey(a, keys);
    OneEntryPerKey(b, keys);
  }

  lemma SweepingLeavesOpen(t: Table, u: Table, now: nat)
    requires t.Valid() && SameOpen(t, u, now)
    ensures SameOpen(Swept(t, now), u, now)
  {
  }

  lemma PruningLeavesOpen(c: Config, t: Table, now: nat)
    requires t.Valid() && |OpenKeys(t.buckets, t.order, now)| < Capacity(c)
    ensures Pruned(t, now, c.maxKeys).Valid() && SameOpen(Pruned(t, now, c.maxKeys), t, now)
  {
    var r := Pruned(t, now, c.maxKeys);
    PrunedHasRoom(c, t, now);
    SweptIsValid(t, now);
    TrimmedIsValid(Swept(t, now), c.maxKeys);
    forall k ensures (Live(r, k, now) <==> Live(t, k, now)) && (Live(r, k, now) ==> r.buckets[k] == t.buckets[k]) {
      if Live(t, k, now) { RoomyPruneSpares(c, t, now, k); }
    }
  }

  lemma AttemptLeavesSame(c: Config, t: Table, u: Table, k: Key, now: nat)
    requires t.Valid() && u.Valid() && SameOpen(t, u, now) && Fits(c, t, Attempt(k, now)) && Fits(c, u, Attempt(k, now))
    ensures SameOpen(Taken(c, t, k, now).0, Taken(c, u, k, now).0, now) && Taken(c, t, k, now).1 == Taken(c, u, k, now).1
  {
    if !Live(t, k, now) {
      PruningLeavesOpen(c, t, now);
      PruningLeavesOpen(c, u, now);
    }
  }

  lemma UseLeavesSame(c: Config, t: Table, u: Table, use: Use)
    requires t.Valid() && u.Valid() && SameOpen(t, u, use.at) && Fits(c, t, use)
    ensures Fits(c, u, use) && SameOpen(After(c, t, use), After(c, u, use), use.at)
    ensures use.Attempt? ==> Taken(c, t, use.key, use.at).1 == Taken(c, u, use.key, use.at).1
  {
    SameOpenCount(t, u, use.at);
    if use.Attempt? { AttemptLeavesSame(c, t, u, use.key, use.at); }
  }

  function WithoutSweeps(uses: seq<Use>): seq<Use> {
    if uses == [] then [] else (if uses[0].Timer? then [] else [uses[0]]) + WithoutSweeps(uses[1..])
  }

  /** The verdict of one use, if it is an attempt. */
  ghost function Verdicts(c: Config, t: Table, use: Use): seq<Outcome>
    requires t.Valid()
  {
    if use.Attempt? then [Outcome(use.key, use.at, Taken(c, t, use.key, use.at).1)] else []
  }

  lemma FirstUse(c: Config, t: Table, use: Use, rest: seq<Use>)
    requires t.Valid() && After(c, t, use).Valid()
    ensures Outcomes(c, t, [use] + rest) == Verdicts(c, t, use) + Outcomes(c, After(c, t, use), rest)
    ensures Uncrowded(c, t, [use] + rest) <==> Fits(c, t, use) && Uncrowded(c, After(c, t, use), rest)
  {
    assert ([use] + rest)[0] == use && ([use] + rest)[1..] == rest;
  }

  /** Two limiters with the same open windows, one with the timer and one without. */
  lemma {:induction false} SweepsSimulate(c: Config, t: Table, u: Table, uses: seq<Use>, now: nat)
    requires t.Valid() && u.Valid() && SameOpen(t, u, now) && Timed(uses) && From(uses, now)
    ensures Uncrowded(c, t, uses) <==> Uncrowded(c, u, WithoutSweeps(uses))
    ensures Uncrowded(c, t, uses) ==> Outcomes(c, t, uses) == Outcomes(c, u, WithoutSweeps(uses))
    decreases |uses|
  {
    if uses != [] {
      var use, rest := uses[0], uses[1..];
      TailIsTimed(uses, now);
      AfterIsValid(c, t, use);
      assert uses == [use] + rest;
      FirstUse(c, t, use, rest);
      if use.Timer? {
        SweepingLeavesOpen(t, u, use.at);
        SweepsSimulate(c, After(c, t, use), u, rest, use.at);
        assert WithoutSweeps(uses) == WithoutSweeps(rest);
      } else {
        AfterIsValid(c, u, use);
        FirstUse(c, u, use, WithoutSweeps(rest));
        BothFit(c, t, u, use);
        if Fits(c, t, use) { SweepsSimulate(c, After(c, t, use), After(c, u, use), rest, use.at); }
      }
    }
  }

  lemma BothFit(c: Config, t: Table, u: Table, use: Use)
    requires t.Valid() && u.Valid() && SameOpen(t, u, use.at) && !use.Timer?
    ensures Fits(c, t, use) <==> Fits(c, u, use)
    ensures Fits(c, t, use) ==> SameOpen(After(c, t, use), After(c, u, use), use.at) && Verdicts(c, t, use) == Verdicts(c, u, use)
  {
    SameOpenCount(t, u, use.at);
    if Fits(c, t, use) { UseLeavesSame(c, t, u, use); }
  }

  /** While no attempt opens a window with no room for it beside the open ones, the timer's sweeps change no
      verdict at all; and whether that is so does not depend on the sweeps. */
  lemma SweepsChangeNothing(c: Config, uses: seq<Use>)
    requires Timed(uses)
    ensures Uncrowded(c, EMPTY, uses) <==> Uncrowded(c, EMPTY, WithoutSweeps(uses))
    ensures Uncrowded(c, EMPTY, uses) ==> Outcomes(c, EMPTY, WithoutSweeps(uses)) == Outcomes(c, EMPTY, uses)
  {
    SweepsSimulate(c, EMPTY, EMPTY, uses, 0);
  }

  // ------------------------------------------------------------------ each key on its own, exactly

  /** However often the key attempts at this moment, it gets the verdicts of a limiter of its own. */
  ghost predicate AnswersAlone(c: Config, t: Table, b: Option<Bucket>, k: Key, now: nat)
    requires t.Valid()
  {
    forall n: nat :: Only(Outcomes(c, t, Attempts(k, Repeat(n, now))), k) == Alone(c, k, b, Repeat(n, now))
  }

  /** So it does at the start, and after each use; `b` is the bucket of its own limiter. */
  ghost predicate AloneThroughout(c: Config, t: Table, b: Option<Bucket>, uses: seq<Use>, k: Key, now: nat)
    requires t.Valid()
    decreases |uses|
  {
    && AnswersAlone(c, t, b, k, now)
    && (uses == [] || (AfterIsValid(c, t, uses[0]);
                       AloneThroughout(c, After(c, t, uses[0]), OwnAfter(c, b, uses[0], k), uses[1..], k, uses[0].at)))
  }

  function OwnAfter(c: Config, b: Option<Bucket>, use: Use, k: Key): Option<Bucket> {
    if use.Attempt? && use.key == k then Some(Step(c, b, use.at).0) else b
  }

  lemma AgreeingAnswers(c: Config, t: Table, b: Option<Bucket>, k: Key, now: nat)
    requires t.Valid() && Agrees(t, k, b, now)
    ensures AnswersAlone(c, t, b, k, now)
  {
    forall n: nat ensures Only(Outcomes(c, t, Attempts(k, Repeat(n, now))), k) == Alone(c, k, b, Repeat(n, now)) {
      RepeatIsConstant(n, now);
      AttemptsAreTimed(k, Repeat(n, now));
      OwnAttemptsSpare(c, t, k, Repeat(n, now));
      KeysAreIndependent(c, t, Attempts(k, Repeat(n, now)), k, b, now);
    }
  }

  /** An open window that was used before does not admit as many attempts as a new one. */
  lemma {:induction false} UsedWindowRunsOut(c: Config, k: Key, b: Bucket, n: nat, at: nat)
    requires Open(Some(b), at) && b.count >= 1
    ensures AllowedIn(Alone(c, k, Some(b), Repeat(n, at)), at, at) <= (if b.count < Limit(c) then Limit(c) - b.count else 0)
    decreases n
  {
    if n > 0 {
      var times := Repeat(n, at);
      var (r, v) := Step(c, Some(b), at);
      assert times[0] == at && times[1..] == Repeat(n - 1, at);
      assert Alone(c, k, Some(b), times)[1..] == Alone(c, k, Some(r), times[1..]);
      UsedWindowRunsOut(c, k, r, n - 1, at);
    }
  }

  /** A key that lost its open window shows it by filling the window it then gets. */
  lemma LossShows(c: Config, t: Table, b: Option<Bucket>, k: Key, now: nat)
    requires t.Valid() && c.windowMs > 0 && Open(b, now) && b.value.count >= 1 && !Live(t, k, now)
    ensures !AnswersAlone(c, t, b, k, now)
  {
    AgreeingAnswers(c, t, None, k, now);
    var times := Repeat(Limit(c), now);
    assert Only(Outcomes(c, t, Attempts(k, times)), k) == Alone(c, k, None, times);
    assert times + [] == times;
    WindowIsUsed(c, k, None, now, [], now, now);
    UsedWindowRunsOut(c, k, b.value, Limit(c), now);
  }

  lemma {:induction false} AloneWhileSpared(c: Config, t: Table, b: Option<Bucket>, uses: seq<Use>, k: Key, now: nat)
    requires t.Valid() && c.windowMs > 0 && Timed(uses) && From(uses, now) && Agrees(t, k, b, now) && (b.Some? ==> b.value.count >= 1)
    ensures AloneThroughout(c, t, b, uses, k, now) <==> Spared(c, t, uses, k)
    decreases |uses|
  {
    AgreeingAnswers(c, t, b, k, now);
    if uses != [] {
      var use, r := uses[0], After(c, t, uses[0]);
      TailIsTimed(uses, now);
      AfterIsValid(c, t, use);
      if Spares(c, t, use, k) {
        UseAgrees(c, t, use, k, b, use.at);
        AloneWhileSpared(c, r, OwnAfter(c, b, use, k), uses[1..], k, use.at);
      } else {
        LossShows(c, r, b, k, use.at);
      }
    }
  }

  /** A key gets the verdicts of a limiter of its own, whenever and however often it asks, exactly if no
      eviction and no reset ever closes its open window. */
  lemma IndependentExactly(c: Config, uses: seq<Use>, k: Key)
    requires Timed(uses) && c.windowMs > 0
    ensures AloneThroughout(c, EMPTY, None, uses, k, 0) <==> Spared(c, EMPTY, uses, k)
  {
    AloneWhileSpared(c, EMPTY, None, uses, k, 0);
  }

  // ------------------------------------------------------------------ evictions that break the bound

  lemma {:induction false} AllOpen(buckets: map<Key, Bucket>, ks: seq<Key>, now: nat)
    requires forall k :: k in ks ==> k in buckets && buckets[k].resetAt > now
    ensures OpenKeys(buckets, ks, now) == ks
  {
    if ks != [] { AllOpen(buckets, ks[1..], now); }
  }

  /** A key that is not there takes free room behind the others. */
  lemma TakesFreeRoom(c: Config, t: Table, k: Key, now: nat)
    requires t.Valid() && |t.order| < c.maxKeys && k !in t.buckets
    ensures Taken(c, t, k, now) == (Table(t.buckets[k := Bucket(1, now + c.windowMs)], t.order + [k]), Verdict(true, 0))
  {
  }

  lemma TrimsTheFirst(t: Table)
    requires t.Valid() && t.order != []
    ensures Trimmed(t, |t.order|) == Table(t.buckets - {t.order[0]}, t.order[1..])
  {
    DropFirstIsValid(t);
  }

  /** Where every window is open and all room is taken, it takes the room of the first. */
  lemma TakesTheFirstRoom(c: Config, t: Table, k: Key, now: nat)
    requires t.Valid() && |t.order| == c.maxKeys > 0 && k !in t.buckets && forall x :: x in t.buckets ==> t.buckets[x].resetAt > now
    ensures Taken(c, t, k, now)
         == (Table((t.buckets - {t.order[0]})[k := Bucket(1, now + c.windowMs)], t.order[1..] + [k]), Verdict(true, 0))
  {
    AllOpen(t.buckets, t.order, now);
    SweptIsValid(t, now);
    assert Swept(t, now).buckets == t.buckets;
    TrimsTheFirst(t);
    assert Pruned(t, now, c.maxKeys) == Table(t.buckets - {t.order[0]}, t.order[1..]);
    assert k !in t.order[1..];
  }

  function OneKey(k: Key, resetAt: nat): Table { Table(map[k := Bucket(1, resetAt)], [k]) }

  /** With room for one key, the next key takes the room. */
  lemma NextTakesTheSlot(c: Config, t: Table, k: Key, x: Key, resetAt: nat, now: nat)
    requires c.maxKeys == 1 && k != x && now < resetAt && (t == EMPTY || t == OneKey(k, resetAt))
    ensures t.Valid() && Taken(c, t, x, now) == (OneKey(x, now + c.windowMs), Verdict(true, 0))
  {
    if t == EMPTY {
      TakesFreeRoom(c, t, x, now);
      assert t.buckets[x := Bucket(1, now + c.windowMs)] == OneKey(x, now + c.windowMs).buckets && t.order + [x] == [x];
    } else {
      TakesTheFirstRoom(c, t, x, now);
      assert (t.buckets - {k})[x := Bucket(1, now + c.windowMs)] == OneKey(x, now + c.windowMs).buckets;
      assert t.order[1..] + [x] == [x];
    }
  }

  /** What one more attempt at the front adds to the count. */
  lemma CountFirst(c: Config, t: Table, use: Use, rest: seq<Use>, k: Key, from: nat, to: nat)
    requires t.Valid() && use.Attempt? && After(c, t, use).Valid() && Taken(c, t, use.key, use.at).1.allowed && from <= use.at <= to
    ensures AllowedIn(Only(Outcomes(c, t, [use] + rest), k), from, to)
         == (if use.key == k then 1 else 0) + AllowedIn(Only(Outcomes(c, After(c, t, use), rest), k), from, to)
  {
    OnlyOfFirst(c, t, [use] + rest, k);
    assert ([use] + rest)[1..] == rest;
    var o := Outcome(use.key, use.at, Taken(c, t, use.key, use.at).1);
    var os := Only(Outcomes(c, After(c, t, use), rest), k);
    assert ([o] + os)[1..] == os && [] + os == os;
  }

  /** Two keys in turn, all at one moment. */
  function InTurn(a: Key, b: Key, n: nat, at: nat): seq<Use> {
    if n == 0 then [] else [Attempt(a, at)] + ([Attempt(b, at)] + InTurn(a, b, n - 1, at))
  }

  lemma {:induction false} InTurnIsTimed(a: Key, b: Key, n: nat, at: nat)
    ensures forall i :: 0 <= i < |InTurn(a, b, n, at)| ==> InTurn(a, b, n, at)[i].at == at
  {
    if n > 0 { InTurnIsTimed(a, b, n - 1, at); }
  }

  /** They evict each other, so every attempt is allowed. */
  lemma {:induction false} TakingTurns(c: Config, t: Table, a: Key, b: Key, n: nat, at: nat)
    requires c.maxKeys == 1 && c.windowMs > 0 && a != b && (t == EMPTY || t == OneKey(b, at + c.windowMs))
    ensures t.Valid() && AllowedIn(Only(Outcomes(c, t, InTurn(a, b, n, at)), a), at, at) == n
    decreases n
  {
    if n > 0 {
      NextTakesTheSlot(c, t, b, a, at + c.windowMs, at);
      NextTakesTheSlot(c, OneKey(a, at + c.windowMs), a, b, at + c.windowMs, at);
      TakingTurns(c, OneKey(b, at + c.windowMs), a, b, n - 1, at);
      var rest := [Attempt(b, at)] + InTurn(a, b, n - 1, at);
      CountFirst(c, t, Attempt(a, at), rest, a, at, at);
      CountFirst(c, OneKey(a, at + c.windowMs), Attempt(b, at), InTurn(a, b, n - 1, at), a, at, at);
    }
  }

  /** The bound needs its condition: whatever the limit and the window, two keys that take each other's room
      are allowed as often as they like, at one moment. */
  lemma EvictionBreaksEveryBound(c: Config, n: nat)
    requires c.maxKeys == 1 && c.windowMs > 0
    ensures exists uses: seq<Use>, k: Key :: Timed(uses) && AllowedIn(Only(Outcomes(c, EMPTY, uses), k), 0, 0) >= n
  {
    var a, b := "a", "b";
    InTurnIsTimed(a, b, n, 0);
    TakingTurns(c, EMPTY, a, b, n, 0);
    assert Timed(InTurn(a, b, n, 0)) && AllowedIn(Only(Outcomes(c, EMPTY, InTurn(a, b, n, 0)), a), 0, 0) >= n;
  }

  // ------------------------------------------------------------------ a sweep that changes a verdict

  const THREE_SLOTS := Config(1, 10, 3)

  lemma {:induction false} OutcomesSnoc(c: Config, t: Table, uses: seq<Use>, use: Use)
    requires t.Valid()
    ensures TableAfter(c, t, uses + [use]) == After(c, TableAfter(c, t, uses), use)
    ensures Outcomes(c, t, uses + [use]) == Outcomes(c, t, uses) + Verdicts(c, TableAfter(c, t, uses), use)
    decreases |uses|
  {
    if uses == [] {
      assert [] + [use] == [use] && [use][1..] == [];
    } else {
      AfterIsValid(c, t, uses[0]);
      OutcomesSnoc(c, After(c, t, uses[0]), uses[1..], use);
      assert (uses + [use])[0] == uses[0] && (uses + [use])[1..] == uses[1..] + [use];
    }
  }

  /** With room for three, two keys more evict the first of two. */
  lemma TwoMoreKeys(uses: seq<Use>, x: Key, y: Key, d: Key, e: Key) returns (all: seq<Use>)
    requires var t := TableAfter(THREE_SLOTS, EMPTY, uses);
             && t.order == [x, y] && t.buckets.Keys == {x, y} && t.buckets[x].resetAt > 13 && t.buckets[y].resetAt > 13
    requires x != y && d != e && d !in {x, y} && e !in {x, y}
    ensures all == uses + [Attempt(d, 12)] + [Attempt(e, 13)]
    ensures var t := TableAfter(THREE_SLOTS, EMPTY, all);
            x !in t.buckets && y in t.buckets && t.buckets[y] == TableAfter(THREE_SLOTS, EMPTY, uses).buckets[y]
  {
    var t := TableAfter(THREE_SLOTS, EMPTY, uses);
    all := uses + [Attempt(d, 12)];
    OutcomesSnoc(THREE_SLOTS, EMPTY, uses, Attempt(d, 12));
    TakesFreeRoom(THREE_SLOTS, t, d, 12);
    var u := TableAfter(THREE_SLOTS, EMPTY, all);
    assert u.order == [x, y, d];
    OutcomesSnoc(THREE_SLOTS, EMPTY, all, Attempt(e, 13));
    TakesTheFirstRoom(THREE_SLOTS, u, e, 13);
    all := all + [Attempt(e, 13)];
  }

  /** Without the timer, the key's second window takes the place of its first, ahead of the other key. */
  lemma KeepsItsPlace(a: Key, b: Key)
    requires a != b
    ensures var t := TableAfter(THREE_SLOTS, EMPTY, [Attempt(a, 0)] + [Attempt(b, 10)] + [Attempt(a, 11)]);
            t.order == [a, b] && t.buckets == map[a := Bucket(1, 21), b := Bucket(1, 20)]
  {
    var one := FirstAttempt(a);
    var two := one + [Attempt(b, 10)];
    OutcomesSnoc(THREE_SLOTS, EMPTY, one, Attempt(b, 10));
    TakesFreeRoom(THREE_SLOTS, TableAfter(THREE_SLOTS, EMPTY, one), b, 10);
    OutcomesSnoc(THREE_SLOTS, EMPTY, two, Attempt(a, 11));
    assert TableAfter(THREE_SLOTS, EMPTY, two).order == [a, b];
  }

  lemma FirstAttempt(a: Key) returns (one: seq<Use>)
    ensures one == [Attempt(a, 0)] && TableAfter(THREE_SLOTS, EMPTY, one) == Table(map[a := Bucket(1, 10)], [a])
  {
    one := [Attempt(a, 0)];
    OutcomesSnoc(THREE_SLOTS, EMPTY, [], Attempt(a, 0));
    assert [] + [Attempt(a, 0)] == one;
    TakesFreeRoom(THREE_SLOTS, EMPTY, a, 0);
    assert EMPTY.order + [a] == [a] && EMPTY.buckets[a := Bucket(1, 10)] == map[a := Bucket(1, 10)];
  }

  lemma SweptAway(a: Key) returns (two: seq<Use>)
    ensures two == [Attempt(a, 0)] + [Timer(10)] && TableAfter(THREE_SLOTS, EMPTY, two) == EMPTY
  {
    two := FirstAttempt(a);
    OutcomesSnoc(THREE_SLOTS, EMPTY, two, Timer(10));
    two := two + [Timer(10)];
    var t := TableAfter(THREE_SLOTS, EMPTY, two);
    assert t.order == [] && t.buckets == map[];
  }

  /** With the timer, its first window goes, and the second is behind the other key. */
  lemma LosesItsPlace(a: Key, b: Key)
    requires a != b
    ensures var t := TableAfter(THREE_SLOTS, EMPTY, [Attempt(a, 0)] + [Timer(10)] + [Attempt(b, 10)] + [Attempt(a, 11)]);
            t.order == [b, a] && t.buckets == map[a := Bucket(1, 21), b := Bucket(1, 20)]
  {
    var two := SweptAway(a);
    var three := two + [Attempt(b, 10)];
    OutcomesSnoc(THREE_SLOTS, EMPTY, two, Attempt(b, 10));
    TakesFreeRoom(THREE_SLOTS, EMPTY, b, 10);
    OutcomesSnoc(THREE_SLOTS, EMPTY, three, Attempt(a, 11));
    TakesFreeRoom(THREE_SLOTS, TableAfter(THREE_SLOTS, EMPTY, three), a, 11);
    assert TableAfter(THREE_SLOTS, EMPTY, three).order == [b];
  }

  /** The last verdict of a history is seen among those of its key. */
  lemma LastVerdict(c: Config, uses: seq<Use>, k: Key, at: nat)
    ensures var os := Only(Outcomes(c, EMPTY, uses + [Attempt(k, at)]), k);
            os != [] && os[|os| - 1].verdict == Taken(c, TableAfter(c, EMPTY, uses), k, at).1
  {
    OutcomesSnoc(c, EMPTY, uses, Attempt(k, at));
    var o := Outcome(k, at, Taken(c, TableAfter(c, EMPTY, uses), k, at).1);
    OnlyAppend(Outcomes(c, EMPTY, uses), [o], k);
    assert [o][1..] == [] && Only([o], k) == [o];
  }

  /** Four keys, and the sweep that makes the last attempt of the first key a refusal. */
  lemma SweepDecides(a: Key, b: Key, d: Key, e: Key) returns (calm: seq<Use>, swept: seq<Use>)
    requires a != b && d != e && d !in {a, b} && e !in {a, b}
    ensures calm == [Attempt(a, 0)] + [Attempt(b, 10)] + [Attempt(a, 11)] + [Attempt(d, 12)] + [Attempt(e, 13)]
    ensures swept == [Attempt(a, 0)] + [Timer(10)] + [Attempt(b, 10)] + [Attempt(a, 11)] + [Attempt(d, 12)] + [Attempt(e, 13)]
    ensures Taken(THREE_SLOTS, TableAfter(THREE_SLOTS, EMPTY, calm), a, 14).1.allowed
    ensures !Taken(THREE_SLOTS, TableAfter(THREE_SLOTS, EMPTY, swept), a, 14).1.allowed
  {
    KeepsItsPlace(a, b);
    LosesItsPlace(a, b);
    calm := TwoMoreKeys([Attempt(a, 0)] + [Attempt(b, 10)] + [Attempt(a, 11)], a, b, d, e);
    swept := TwoMoreKeys([Attempt(a, 0)] + [Timer(10)] + [Attempt(b, 10)] + [Attempt(a, 11)], b, a, d, e);
  }

  ghost predicate SweepsMatter(c: Config, uses: seq<Use>, k: Key) {
    Timed(uses) && Only(Outcomes(c, EMPTY, WithoutSweeps(uses)), k) != Only(Outcomes(c, EMPTY, uses), k)
  }

  /** The condition of `SweepsChangeNothing` is needed: where open windows are evicted, the timer decides whose. */
  lemma SweepChangesAVerdict()
    ensures exists uses: seq<Use>, k: Key :: SweepsMatter(THREE_SLOTS, uses, k)
  {
    var calm, swept := SweepDecides("a", "b", "d", "e");
    SevenUses("a", "b", "d", "e", swept + [Attempt("a", 14)], calm + [Attempt("a", 14)]);
    LastDiffers(swept, calm, "a");
    assert SweepsMatter(THREE_SLOTS, swept + [Attempt("a", 14)], "a");
  }

  lemma LastDiffers(swept: seq<Use>, calm: seq<Use>, a: Key)
    requires Taken(THREE_SLOTS, TableAfter(THREE_SLOTS, EMPTY, calm), a, 14).1.allowed
    requires !Taken(THREE_SLOTS, TableAfter(THREE_SLOTS, EMPTY, swept), a, 14).1.allowed
    requires Timed(swept + [Attempt(a, 14)]) && WithoutSweeps(swept + [Attempt(a, 14)]) == calm + [Attempt(a, 14)]
    ensures SweepsMatter(THREE_SLOTS, swept + [Attempt(a, 14)], a)
  {
    LastVerdict(THREE_SLOTS, calm, a, 14);
    LastVerdict(THREE_SLOTS, swept, a, 14);
  }

  /** One use more, at the end: the order in time, and the history without its sweeps. */
  ghost predicate Built(uses: seq<Use>, calm: seq<Use>, now: nat) {
    Timed(uses) && WithoutSweeps(uses) == calm && forall i :: 0 <= i < |uses| ==> uses[i].at <= now
  }

  lemma BuildsOn(uses: seq<Use>, calm: seq<Use>, now: nat, use: Use)
    requires Built(uses, calm, now) && now <= use.at
    ensures Built(uses + [use], if use.Timer? then calm else calm + [use], use.at)
  {
    SweepsOfLast(uses, use);
    assert calm + [] == calm;
  }

  lemma {:induction false} SweepsOfLast(uses: seq<Use>, use: Use)
    ensures WithoutSweeps(uses + [use]) == WithoutSweeps(uses) + (if use.Timer? then [] else [use])
  {
    if uses == [] {
      assert [] + [use] == [use] && [use][1..] == [];
    } else {
      SweepsOfLast(uses[1..], use);
      assert (uses + [use])[0] == uses[0] && (uses + [use])[1..] == uses[1..] + [use];
    }
  }

  lemma SevenUses(a: Key, b: Key, d: Key, e: Key, uses: seq<Use>, calm: seq<Use>)
    requires uses == [Attempt(a, 0)] + [Timer(10)] + [Attempt(b, 10)] + [Attempt(a, 11)] + [Attempt(d, 12)] + [Attempt(e, 13)] + [Attempt(a, 14)]
    requires calm == [Attempt(a, 0)] + [Attempt(b, 10)] + [Attempt(a, 11)] + [Attempt(d, 12)] + [Attempt(e, 13)] + [Attempt(a, 14)]
    ensures Timed(uses) && WithoutSweeps(uses) == calm
  {
    var u, c := [Attempt(a, 0)], [Attempt(a, 0)];
    assert Built(u, c, 0) by { assert u[1..] == []; }
    BuildsOn(u, c, 0, Timer(10));
    u := u + [Timer(10)];
    u, c := Builds(u, c, 10, Attempt(b, 10));
    u, c := Builds(u, c, 10, Attempt(a, 11));
    u, c := Builds(u, c, 11, Attempt(d, 12));
    u, c := Builds(u, c, 12, Attempt(e, 13));
    u, c := Builds(u, c, 13, Attempt(a, 14));
  }

  lemma Builds(uses: seq<Use>, calm: seq<Use>, now: nat, use: Use) returns (uses': seq<Use>, calm': seq<Use>)
    requires Built(uses, calm, now) && now <= use.at && use.Attempt?
    ensures uses' == uses + [use] && calm' == calm + [use] && Built(uses', calm', use.at)
  {
    uses', calm' := uses + [use], calm + [use];
    BuildsOn(uses, calm, now, use);
  }
}
