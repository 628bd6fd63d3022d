/** What the fixed-window limiter guarantees over a whole history of attempts. */
module RateLimitBound {
  import opened RateLimit
  import opened Runs

  datatype Outcome = Outcome(key: Key, at: nat, verdict: Verdict)

  predicate Timed(uses: seq<Use>) {
    forall i, j :: 0 <= i < j < |uses| ==> uses[i].at <= uses[j].at
  }

  predicate From(uses: seq<Use>, now: nat) { forall i :: 0 <= i < |uses| ==> now <= uses[i].at }

  lemma TailIsTimed(uses: seq<Use>, now: nat)
    requires Timed(uses) && From(uses, now) && uses != []
    ensures Timed(uses[1..]) && From(uses[1..], uses[0].at) && now <= uses[0].at
  {
    assert forall i :: 0 <= i < |uses| - 1 ==> uses[1..][i] == uses[i + 1];
  }

  lemma AfterIsValid(c: Config, t: Table, use: Use)
    requires t.Valid()
    ensures After(c, t, use).Valid()
  {
    PrunedHasRoom(c, t, use.at);
    SweptIsValid(t, use.at);
    if use.Reset? { WithoutDistinct(t.order, use.key); }
  }

  /** The verdicts the limiter gives to the attempts of a history. */
  ghost function Outcomes(c: Config, t: Table, uses: seq<Use>): seq<Outcome>
    requires t.Valid()
    decreases |uses|
  {
    if uses == [] then []
    else
      AfterIsValid(c, t, uses[0]);
      (match uses[0]
       case Attempt(k, at) => [Outcome(k, at, Taken(c, t, k, at).1)]
       case _ => []) + Outcomes(c, After(c, t, uses[0]), uses[1..])
  }

  /** The table a history leaves. */
  ghost function TableAfter(c: Config, t: Table, uses: seq<Use>): (r: Table)
    requires t.Valid()
    ensures r.Valid()
    decreases |uses|
  {
    if uses == [] then t else AfterIsValid(c, t, uses[0]); TableAfter(c, After(c, t, uses[0]), uses[1..])
  }

  // ------------------------------------------------------------------ one key on its own

  predicate Open(b: Option<Bucket>, now: nat) { b.Some? && b.value.resetAt > now }

  /** The limiter for a single key: one bucket, no map. */
  function Step(c: Config, b: Option<Bucket>, now: nat): (Bucket, Verdict) {
    if !Open(b, now) then (Bucket(1, now + c.windowMs), Verdict(true, 0))
    else if b.value.count >= c.limit then (b.value, Verdict(false, b.value.resetAt - now))
    else (b.value.(count := b.value.count + 1), Verdict(true, 0))
  }

  function Alone(c: Config, k: Key, b: Option<Bucket>, times: seq<nat>): seq<Outcome>
    decreases |times|
  {
    if times == [] then []
    else var (r, v) := Step(c, b, times[0]); [Outcome(k, times[0], v)] + Alone(c, k, Some(r), times[1..])
  }

  function TimesOf(uses: seq<Use>, k: Key): seq<nat> {
    if uses == [] then []
    else (if uses[0].Attempt? && uses[0].key == k then [uses[0].at] else []) + TimesOf(uses[1..], k)
  }

  function Only(os: seq<Outcome>, k: Key): seq<Outcome> {
    if os == [] then [] else (if os[0].key == k then [os[0]] else []) + Only(os[1..], k)
  }

  lemma {:induction false} OnlyAppend(a: seq<Outcome>, b: seq<Outcome>, k: Key)
    ensures Only(a + b, k) == Only(a, k) + Only(b, k)
  {
    if a == [] {
      assert a + b == b;
    } else {
      assert (a + b)[0] == a[0] && (a + b)[1..] == a[1..] + b;
      OnlyAppend(a[1..], b, k);
    }
  }

  /** What one more use at the front adds to a key's verdicts. */
  lemma OnlyOfFirst(c: Config, t: Table, uses: seq<Use>, k: Key)
    requires t.Valid() && uses != [] && After(c, t, uses[0]).Valid()
    ensures Only(Outcomes(c, t, uses), k)
         == (if uses[0].Attempt? && uses[0].key == k then [Outcome(k, uses[0].at, Taken(c, t, k, uses[0].at).1)] else [])
            + Only(Outcomes(c, After(c, t, uses[0]), uses[1..]), k)
  {
    var first: seq<Outcome> := match uses[0] case Attempt(x, at) => [Outcome(x, at, Taken(c, t, x, at).1)] case _ => [];
    OnlyAppend(first, Outcomes(c, After(c, t, uses[0]), uses[1..]), k);
    assert first != [] ==> first[1..] == [];
  }

  // ------------------------------------------------------------------ keys do not disturb each other

  /** From `now` on the table answers for `k` as the bucket `b` would. */
  predicate Agrees(t: Table, k: Key, b: Option<Bucket>, now: nat) {
    (Live(t, k, now) <==> Open(b, now)) && (Open(b, now) ==> t.buckets[k] == b.value)
  }

  /** The use does not close an open window of `k` before its time: no eviction and no reset. */
  ghost predicate Spares(c: Config, t: Table, use: Use, k: Key)
    requires t.Valid()
  {
    Live(t, k, use.at) ==> Live(After(c, t, use), k, use.at)
  }

  ghost predicate Spared(c: Config, t: Table, uses: seq<Use>, k: Key)
    requires t.Valid()
    decreases |uses|
  {
    uses == [] || (Spares(c, t, uses[0], k) && (AfterIsValid(c, t, uses[0]); Spared(c, After(c, t, uses[0]), uses[1..], k)))
  }

  /** Apart from the key of an attempt, a use leaves nothing but what was there. */
  lemma AfterIsPart(c: Config, t: Table, use: Use, k: Key)
    requires t.Valid() && k in After(c, t, use).buckets && !(use.Attempt? && use.key == k)
    ensures k in t.buckets && After(c, t, use).buckets[k] == t.buckets[k]
  {
    SweptIsValid(t, use.at);
    TrimmedIsValid(Swept(t, use.at), c.maxKeys);
  }

  lemma UseAgrees(c: Config, t: Table, use: Use, k: Key, b: Option<Bucket>, later: nat)
    requires t.Valid() && Agrees(t, k, b, use.at) && Spares(c, t, use, k) && use.at <= later
    ensures var r := After(c, t, use);
            if use.Attempt? && use.key == k then Agrees(r, k, Some(Step(c, b, use.at).0), later) else Agrees(r, k, b, later)
    ensures use.Attempt? && use.key == k ==> Taken(c, t, k, use.at).1 == Step(c, b, use.at).1
  {
    if !(use.Attempt? && use.key == k) && k in After(c, t, use).buckets { AfterIsPart(c, t, use, k); }
  }

  /** A key's verdicts are those of a limiter that sees only this key's attempts, as long as no use closes its
      open window early: other keys, the timer's sweeps and the pruning of closed windows change nothing. */
  lemma {:induction false} KeysAreIndependent(c: Config, t: Table, uses: seq<Use>, k: Key, b: Option<Bucket>, now: nat)
    requires t.Valid() && Timed(uses) && From(uses, now) && Agrees(t, k, b, now) && Spared(c, t, uses, k)
    ensures Only(Outcomes(c, t, uses), k) == Alone(c, k, b, TimesOf(uses, k))
    decreases |uses|
  {
    if uses != [] {
      var use, rest := uses[0], uses[1..];
      TailIsTimed(uses, now);
      AfterIsValid(c, t, use);
      UseAgrees(c, t, use, k, b, use.at);
      OnlyOfFirst(c, t, uses, k);
      if use.Attempt? && use.key == k {
        KeysAreIndependent(c, After(c, t, use), rest, k, Some(Step(c, b, use.at).0), use.at);
        assert TimesOf(uses, k)[1..] == TimesOf(rest, k);
      } else {
        KeysAreIndependent(c, After(c, t, use), rest, k, b, use.at);
        assert TimesOf(uses, k) == TimesOf(rest, k);
      }
    }
  }

  /** A refusal is exact: whatever spares the key's window meanwhile, the refused attempts of the key included,
      its next attempt is allowed exactly from the announced moment on. */
  lemma {:induction false} RetryAfterIsExact(c: Config, t: Table, k: Key, now: nat, uses: seq<Use>, later: nat)
    requires t.Valid() && !Taken(c, t, k, now).1.allowed
    requires Timed(uses) && From(uses, now) && Spared(c, t, uses, k) && now <= later && forall i :: 0 <= i < |uses| ==> uses[i].at <= later
    requires forall o :: o in Only(Outcomes(c, t, uses), k) ==> !o.verdict.allowed
    ensures Taken(c, t, k, now).0 == t
    ensures Taken(c, TableAfter(c, t, uses), k, later).1.allowed <==> later >= now + Taken(c, t, k, now).1.retryAfterMs
  {
    StaysFull(c, t, uses, k, t.buckets[k], now, later);
  }

  lemma {:induction false} StaysFull(c: Config, t: Table, uses: seq<Use>, k: Key, b: Bucket, now: nat, later: nat)
    requires t.Valid() && Timed(uses) && From(uses, now) && Spared(c, t, uses, k) && Agrees(t, k, Some(b), now) && b.count >= c.limit
    requires now <= later && forall i :: 0 <= i < |uses| ==> uses[i].at <= later
    requires forall o :: o in Only(Outcomes(c, t, uses), k) ==> !o.verdict.allowed
    ensures Taken(c, TableAfter(c, t, uses), k, later).1.allowed <==> later >= b.resetAt
    decreases |uses|
  {
    if uses != [] {
      var use, rest := uses[0], uses[1..];
      TailIsTimed(uses, now);
      AfterIsValid(c, t, use);
      UseAgrees(c, t, use, k, Some(b), use.at);
      OnlyOfFirst(c, t, uses, k);
      if use.Attempt? && use.key == k {
        var o := Outcome(k, use.at, Taken(c, t, k, use.at).1);
        assert o in Only(Outcomes(c, t, uses), k);
      }
      StaysFull(c, After(c, t, use), rest, k, b, use.at, later);
    }
  }

  // ------------------------------------------------------------------ the quantitative bound

  function AllowedIn(os: seq<Outcome>, from: nat, to: nat): nat {
    if os == [] then 0
    else (if os[0].verdict.allowed && from <= os[0].at <= to then 1 else 0) + AllowedIn(os[1..], from, to)
  }

  predicate Ordered(times: seq<nat>) { forall i, j :: 0 <= i < j < |times| ==> times[i] <= times[j] }

  /** The first attempt of a window is always allowed, so a limit of 0 behaves like a limit of 1. */
  function Limit(c: Config): nat { if c.limit == 0 then 1 else c.limit }

  /** How many attempts can still be allowed up to `from + windowMs`, at a moment not before `from`. */
  function Budget(c: Config, b: Option<Bucket>, from: nat, now: nat): nat {
    var left := if b.Some? && b.value.count < Limit(c) then Limit(c) - b.value.count else 0;
    var end := from + c.windowMs;
    if now > end then 0
    else if Open(b, now) then (if b.value.resetAt > end then left else left + Limit(c))
    else if now == from then 2 * Limit(c)
    else Limit(c)
  }

  lemma {:induction false} AllowedWithinBudget(c: Config, k: Key, b: Option<Bucket>, times: seq<nat>, from: nat, now: nat)
    requires Ordered(times) && (forall i :: 0 <= i < |times| ==> now <= times[i]) && from <= now && c.windowMs > 0
    ensures AllowedIn(Alone(c, k, b, times), from, from + c.windowMs) <= Budget(c, b, from, now)
    decreases |times|
  {
    if times != [] {
      var t := times[0];
      var (r, v) := Step(c, b, t);
      assert forall i :: 0 <= i < |times| - 1 ==> times[1..][i] == times[i + 1];
      AllowedWithinBudget(c, k, Some(r), times[1..], from, t);
      assert Alone(c, k, b, times)[1..] == Alone(c, k, Some(r), times[1..]);
    }
  }

  lemma {:induction false} AllowedInAnyWindow(c: Config, k: Key, b: Option<Bucket>, times: seq<nat>, from: nat)
    requires Ordered(times) && c.windowMs > 0
    ensures AllowedIn(Alone(c, k, b, times), from, from + c.windowMs) <= 2 * Limit(c)
    decreases |times|
  {
    if times != [] {
      assert forall i :: 0 <= i < |times| - 1 ==> times[1..][i] == times[i + 1];
      if times[0] < from {
        var (r, v) := Step(c, b, times[0]);
        AllowedInAnyWindow(c, k, Some(r), times[1..], from);
        assert Alone(c, k, b, times)[1..] == Alone(c, k, Some(r), times[1..]);
      } else {
        AllowedWithinBudget(c, k, b, times, from, from);
      }
    }
  }

  lemma {:induction false} TimesOfOrdered(uses: seq<Use>, k: Key, now: nat)
    requires Timed(uses) && From(uses, now)
    ensures Ordered(TimesOf(uses, k)) && forall i :: 0 <= i < |TimesOf(uses, k)| ==> now <= TimesOf(uses, k)[i]
  {
    if uses != [] {
      TailIsTimed(uses, now);
      TimesOfOrdered(uses[1..], k, uses[0].at);
    }
  }

  const EMPTY := Table(map[], [])

  /** Any closed interval of one window length holds at most twice the limit of allowed attempts for a key,
      in every history that evicts and resets no open window of that key. */
  lemma AtMostTwiceTheLimit(c: Config, uses: seq<Use>, k: Key, from: nat)
    requires Timed(uses) && c.windowMs > 0 && Spared(c, EMPTY, uses, k)
    ensures AllowedIn(Only(Outcomes(c, EMPTY, uses), k), from, from + c.windowMs) <= 2 * Limit(c)
  {
    KeysAreIndependent(c, EMPTY, uses, k, None, 0);
    TimesOfOrdered(uses, k, 0);
    AllowedInAnyWindow(c, k, None, TimesOf(uses, k), from);
  }

  function Repeat(n: nat, at: nat): seq<nat> { if n == 0 then [] else [at] + Repeat(n - 1, at) }

  /** Attempts that still fit the open window are all allowed. */
  lemma {:induction false} RoomIsUsed(c: Config, k: Key, b: Bucket, n: nat, at: nat, rest: seq<nat>, from: nat, to: nat)
    requires Open(Some(b), at) && b.count + n <= Limit(c) && b.count > 0 && from <= at <= to
    ensures AllowedIn(Alone(c, k, Some(b), Repeat(n, at) + rest), from, to)
         == n + AllowedIn(Alone(c, k, Some(b.(count := b.count + n)), rest), from, to)
    decreases n
  {
    var times := Repeat(n, at) + rest;
    if n == 0 {
      assert times == rest;
    } else {
      var r := b.(count := b.count + 1);
      assert times[0] == at && times[1..] == Repeat(n - 1, at) + rest;
      assert Step(c, Some(b), at) == (r, Verdict(true, 0));
      assert Alone(c, k, Some(b), times)[1..] == Alone(c, k, Some(r), times[1..]);
      RoomIsUsed(c, k, r, n - 1, at, rest, from, to);
    }
  }

  /** A window opens with these attempts, and all of them are allowed. */
  lemma WindowIsUsed(c: Config, k: Key, b: Option<Bucket>, at: nat, rest: seq<nat>, from: nat, to: nat)
    requires !Open(b, at) && c.windowMs > 0 && from <= at <= to
    ensures AllowedIn(Alone(c, k, b, Repeat(Limit(c), at) + rest), from, to)
         == Limit(c) + AllowedIn(Alone(c, k, Some(Bucket(Limit(c), at + c.windowMs)), rest), from, to)
  {
    var times, r := Repeat(Limit(c), at) + rest, Bucket(1, at + c.windowMs);
    assert times[0] == at && times[1..] == Repeat(Limit(c) - 1, at) + rest;
    assert Step(c, b, at) == (r, Verdict(true, 0));
    assert Alone(c, k, b, times)[1..] == Alone(c, k, Some(r), times[1..]);
    RoomIsUsed(c, k, r, Limit(c) - 1, at, rest, from, to);
  }

  /** Attempts of one key, and nothing else. */
  function Attempts(k: Key, times: seq<nat>): (uses: seq<Use>)
    ensures |uses| == |times| && forall i :: 0 <= i < |times| ==> uses[i] == Attempt(k, times[i])
  {
    if times == [] then [] else [Attempt(k, times[0])] + Attempts(k, times[1..])
  }

  lemma {:induction false} AttemptsAreTimed(k: Key, times: seq<nat>)
    requires Ordered(times)
    ensures Timed(Attempts(k, times)) && TimesOf(Attempts(k, times), k) == times
    decreases |times|
  {
    if times != [] {
      assert forall i :: 0 <= i < |times| - 1 ==> times[1..][i] == times[i + 1];
      AttemptsAreTimed(k, times[1..]);
      assert Attempts(k, times)[1..] == Attempts(k, times[1..]);
    }
  }

  /** A key's own attempts spare its window. */
  lemma {:induction false} OwnAttemptsSpare(c: Config, t: Table, k: Key, times: seq<nat>)
    requires t.Valid()
    ensures Spared(c, t, Attempts(k, times), k)
    decreases |times|
  {
    if times != [] {
      var use := Attempt(k, times[0]);
      AfterIsValid(c, t, use);
      OwnAttemptsSpare(c, After(c, t, use), k, times[1..]);
      assert Attempts(k, times)[1..] == Attempts(k, times[1..]);
    }
  }

  lemma {:induction false} RepeatIsConstant(n: nat, at: nat)
    ensures |Repeat(n, at)| == n && forall i :: 0 <= i < n ==> Repeat(n, at)[i] == at
  {
    if n > 0 { RepeatIsConstant(n - 1, at); }
  }

  /** The bound is reached by the limiter, whatever its limit, window and room: a full window, and a full one
      from the moment it resets. */
  lemma TwiceTheLimitHappens(c: Config, k: Key, at: nat)
    requires c.windowMs > 0
    ensures var uses := Attempts(k, Repeat(Limit(c), at) + Repeat(Limit(c), at + c.windowMs));
            && Timed(uses) && Spared(c, EMPTY, uses, k)
            && AllowedIn(Only(Outcomes(c, EMPTY, uses), k), at, at + c.windowMs) == 2 * Limit(c)
  {
    TwoRepeatsAreOrdered(Limit(c), at, at + c.windowMs);
    OnlyOneKey(c, k, Repeat(Limit(c), at) + Repeat(Limit(c), at + c.windowMs));
    TwoFullWindows(c, k, at);
  }

  lemma TwoRepeatsAreOrdered(n: nat, at: nat, later: nat)
    requires at <= later
    ensures Ordered(Repeat(n, at) + Repeat(n, later))
  {
    RepeatIsConstant(n, at);
    RepeatIsConstant(n, later);
  }

  lemma OnlyOneKey(c: Config, k: Key, times: seq<nat>)
    requires Ordered(times)
    ensures var uses := Attempts(k, times);
            Timed(uses) && Spared(c, EMPTY, uses, k) && Only(Outcomes(c, EMPTY, uses), k) == Alone(c, k, None, times)
  {
    AttemptsAreTimed(k, times);
    OwnAttemptsSpare(c, EMPTY, k, times);
    KeysAreIndependent(c, EMPTY, Attempts(k, times), k, None, 0);
  }

  lemma TwoFullWindows(c: Config, k: Key, at: nat)
    requires c.windowMs > 0
    ensures var times := Repeat(Limit(c), at) + Repeat(Limit(c), at + c.windowMs);
            AllowedIn(Alone(c, k, None, times), at, at + c.windowMs) == 2 * Limit(c)
  {
    var later := at + c.windowMs;
    WindowIsUsed(c, k, None, at, Repeat(Limit(c), later), at, later);
    WindowIsUsed(c, k, Some(Bucket(Limit(c), later)), later, [], at, later);
    assert Repeat(Limit(c), later) + [] == Repeat(Limit(c), later);
  }
}
