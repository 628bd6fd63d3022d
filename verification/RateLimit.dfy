/** The in-memory fixed-window limiter (apps/server/src/rate-limit.ts). */
module RateLimit {

  type Key = string

  datatype Bucket = Bucket(count: nat, resetAt: nat)

  datatype Config = Config(limit: nat, windowMs: nat, maxKeys: nat)

  ghost predicate Distinct(ks: seq<Key>) { forall i, j :: 0 <= i < j < |ks| ==> ks[i] != ks[j] }

  /** A JavaScript Map: its entries and the order in which keys were inserted. */
  datatype Table = Table(buckets: map<Key, Bucket>, order: seq<Key>) {
    ghost predicate Valid() {
      (forall k :: k in order <==> k in buckets) && Distinct(order)
    }
  }

  datatype Verdict = Verdict(allowed: bool, retryAfterMs: nat)

  // ------------------------------------------------------------------ specification

  function Delete(t: Table, k: Key): Table { Table(t.buckets - {k}, Without(t.order, k)) }

  function Without(ks: seq<Key>, k: Key): (r: seq<Key>)
    ensures forall x :: x in r <==> x in ks && x != k
    ensures |r| <= |ks|
  {
    if ks == [] then [] else (if ks[0] == k then [] else [ks[0]]) + Without(ks[1..], k)
  }

  function Store(t: Table, k: Key, b: Bucket): Table {
    Table(t.buckets[k := b], if k in t.buckets then t.order else t.order + [k])
  }

  /** The keys whose window is still open. */
  function OpenKeys(buckets: map<Key, Bucket>, ks: seq<Key>, now: nat): (r: seq<Key>)
    requires forall k :: k in ks ==> k in buckets
    ensures forall k :: k in r <==> k in ks && buckets[k].resetAt > now
    ensures |r| <= |ks|
  {
    if ks == [] then []
    else (if buckets[ks[0]].resetAt > now then [ks[0]] else []) + OpenKeys(buckets, ks[1..], now)
  }

  function Swept(t: Table, now: nat): Table
    requires t.Valid()
  {
    var ks := OpenKeys(t.buckets, t.order, now);
    Table(map k | k in ks :: t.buckets[k], ks)
  }

  function Trimmed(t: Table, maxKeys: nat): Table
    requires t.Valid()
    decreases |t.order|
  {
    if |t.order| >= maxKeys && t.order != [] then
      DropFirstIsValid(t);
      Trimmed(Table(t.buckets - {t.order[0]}, t.order[1..]), maxKeys)
    else t
  }

  function Pruned(t: Table, now: nat, maxKeys: nat): Table
    requires t.Valid()
  {
    if |t.order| < maxKeys then t else (SweptIsValid(t, now); Trimmed(Swept(t, now), maxKeys))
  }

  function Live(t: Table, k: Key, now: nat): bool { k in t.buckets && t.buckets[k].resetAt > now }

  function Taken(c: Config, t: Table, k: Key, now: nat): (Table, Verdict)
    requires t.Valid()
  {
    if !Live(t, k, now) then
      (Store(Pruned(t, now, c.maxKeys), k, Bucket(1, now + c.windowMs)), Verdict(true, 0))
    else
      var b := t.buckets[k];
      if b.count >= c.limit then (t, Verdict(false, b.resetAt - now))
      else (Store(t, k, b.(count := b.count + 1)), Verdict(true, 0))
  }

  lemma TailIsDistinct(ks: seq<Key>)
    requires Distinct(ks) && ks != []
    ensures Distinct(ks[1..]) && ks[0] !in ks[1..]
  {
    assert forall i :: 0 <= i < |ks| - 1 ==> ks[1..][i] == ks[i + 1];
  }

  lemma {:induction false} OpenKeysDistinct(buckets: map<Key, Bucket>, ks: seq<Key>, now: nat)
    requires forall k :: k in ks ==> k in buckets
    requires Distinct(ks)
    ensures Distinct(OpenKeys(buckets, ks, now))
  {
    if ks != [] {
      TailIsDistinct(ks);
      OpenKeysDistinct(buckets, ks[1..], now);
    }
  }

  lemma SweptIsValid(t: Table, now: nat)
    requires t.Valid()
    ensures Swept(t, now).Valid()
  {
    OpenKeysDistinct(t.buckets, t.order, now);
  }

  lemma DropFirstIsValid(t: Table)
    requires t.Valid() && t.order != []
    ensures Table(t.buckets - {t.order[0]}, t.order[1..]).Valid()
  {
    assert t.order == [t.order[0]] + t.order[1..];
  }

  lemma {:induction false} TrimmedIsValid(t: Table, maxKeys: nat)
    requires t.Valid()
    ensures var r := Trimmed(t, maxKeys); r.Valid() && (maxKeys > 0 ==> |r.order| < maxKeys) && |r.order| <= |t.order|
    ensures forall k :: k in Trimmed(t, maxKeys).buckets ==> k in t.buckets && Trimmed(t, maxKeys).buckets[k] == t.buckets[k]
    decreases |t.order|
  {
    if |t.order| >= maxKeys && t.order != [] {
      DropFirstIsValid(t);
      TrimmedIsValid(Table(t.buckets - {t.order[0]}, t.order[1..]), maxKeys);
    }
  }

  /** One key fits even where no room was configured. */
  function Capacity(c: Config): nat { if c.maxKeys >= 1 then c.maxKeys else 1 }

  /** Pruning leaves room for one key more. */
  lemma PrunedHasRoom(c: Config, t: Table, now: nat)
    requires t.Valid()
    ensures Pruned(t, now, c.maxKeys).Valid() && |Pruned(t, now, c.maxKeys).order| < Capacity(c)
  {
    SweptIsValid(t, now);
    TrimmedIsValid(Swept(t, now), c.maxKeys);
    if c.maxKeys == 0 { TrimmedToNothing(Swept(t, now)); }
  }

  lemma TakenKeepsCapacity(c: Config, t: Table, k: Key, now: nat)
    requires t.Valid() && |t.order| <= Capacity(c)
    ensures Taken(c, t, k, now).0.Valid() && |Taken(c, t, k, now).0.order| <= Capacity(c)
  {
    PrunedHasRoom(c, t, now);
  }

  lemma {:induction false} TrimmedToNothing(t: Table)
    requires t.Valid()
    ensures Trimmed(t, 0).order == []
    decreases |t.order|
  {
    if t.order != [] {
      DropFirstIsValid(t);
      TrimmedToNothing(Table(t.buckets - {t.order[0]}, t.order[1..]));
    }
  }

  /** A use of the limiter: an attempt, the timer's sweep, or a reset. */
  datatype Use = Attempt(key: Key, at: nat) | Timer(at: nat) | Reset(key: Key, at: nat)

  ghost function After(c: Config, t: Table, use: Use): Table
    requires t.Valid()
  {
    match use
    case Attempt(k, at) => Taken(c, t, k, at).0
    case Timer(at) => Swept(t, at)
    case Reset(k, _) => Delete(t, k)
  }

  lemma UseKeepsCapacity(c: Config, t: Table, use: Use)
    requires t.Valid() && |t.order| <= Capacity(c)
    ensures After(c, t, use).Valid() && |After(c, t, use).order| <= Capacity(c)
  {
    match use
    case Attempt(k, at) => TakenKeepsCapacity(c, t, k, at);
    case Timer(at) => SweptIsValid(t, at);
    case Reset(k, _) => WithoutDistinct(t.order, k);
  }

  /** `states` are the tables of a limiter that starts empty and sees these uses. */
  ghost predicate History(c: Config, uses: seq<Use>, states: seq<Table>) {
    && |states| == |uses| + 1 && states[0] == Table(map[], [])
    && forall i :: 0 <= i < |uses| ==> states[i].Valid() && states[i + 1] == After(c, states[i], uses[i])
  }

  /** Through every history of attempts, sweeps and resets, at whatever times, the limiter remembers each key
      once and never more keys than its capacity. */
  lemma {:induction false} CapacityIsNeverExceeded(c: Config, uses: seq<Use>, states: seq<Table>, i: nat)
    requires History(c, uses, states) && i < |states|
    ensures states[i].Valid() && |states[i].order| == |states[i].buckets| <= Capacity(c)
  {
    CapacityHolds(c, uses, states, i);
    OneEntryPerKey(states[i].order, states[i].buckets.Keys);
  }

  lemma {:induction false} CapacityHolds(c: Config, uses: seq<Use>, states: seq<Table>, i: nat)
    requires History(c, uses, states) && i < |states|
    ensures states[i].Valid() && |states[i].order| <= Capacity(c)
  {
    if i > 0 {
      CapacityHolds(c, uses, states, i - 1);
      UseKeepsCapacity(c, states[i - 1], uses[i - 1]);
    }
  }

  lemma {:induction false} OneEntryPerKey(ks: seq<Key>, keys: set<Key>)
    requires Distinct(ks) && forall k :: k in ks <==> k in keys
    ensures |ks| == |keys|
  {
    if ks != [] {
      TailIsDistinct(ks);
      OneEntryPerKey(ks[1..], keys - {ks[0]});
    }
  }

  // ------------------------------------------------------------------ the limiter itself

  class RateLimiter {
    const config: Config
    var buckets: map<Key, Bucket>
    var order: seq<Key>

    function Contents(): Table reads this { Table(buckets, order) }

    ghost predicate Valid() reads this { Contents().Valid() }

    constructor (limit: nat, windowMs: nat, maxKeys: nat)
      ensures config == Config(limit, windowMs, maxKeys) && Contents() == Table(map[], []) && Valid()
    {
      config := Config(limit, windowMs, maxKeys);
      buckets, order := map[], [];
    }

    /** The timer's sweep: forget every window that has closed. */
    method Sweep(now: nat)
      requires Valid()
      modifies this
      ensures Valid() && Contents() == Swept(old(Contents()), now)
    {
      var keys := order;
      ghost var was := Contents();
      ghost var closed: set<Key> := {};
      var kept: seq<Key> := [];
      for i := 0 to |keys|
        invariant buckets == was.buckets - closed && order == keys && SweptTo(was, i, now, closed, kept)
      {
        SweepStep(was, i, now, closed, kept);
        if buckets[keys[i]].resetAt <= now {
          buckets := buckets - {keys[i]};
          closed := closed + {keys[i]};
        } else {
          kept := kept + [keys[i]];
        }
      }
      order := kept;
      SweptToEnd(was, now, closed, kept);
    }

    method Prune(now: nat)
      requires Valid()
      modifies this
      ensures Valid() && Contents() == Pruned(old(Contents()), now, config.maxKeys)
    {
      if |order| < config.maxKeys { return; }
      Sweep(now);
      ghost var swept := Contents();
      while |order| >= config.maxKeys && order != []
        invariant Valid() && Trimmed(Contents(), config.maxKeys) == Trimmed(swept, config.maxKeys)
        decreases |order|
      {
        DropFirstIsValid(Contents());
        buckets, order := buckets - {order[0]}, order[1..];
      }
    }

    /** Register an attempt; `allowed == false` means the key has used up its window. */
    method Take(key: Key, now: nat) returns (v: Verdict)
      requires Valid()
      modifies this
      ensures Valid() && (Contents(), v) == Taken(config, old(Contents()), key, now)
    {
      if key !in buckets || buckets[key].resetAt <= now {
        Prune(now);
        if key !in buckets { order := order + [key]; }
        buckets := buckets[key := Bucket(1, now + config.windowMs)];
        return Verdict(true, 0);
      }
      var bucket := buckets[key];
      if bucket.count >= config.limit { return Verdict(false, bucket.resetAt - now); }
      buckets := buckets[key := bucket.(count := bucket.count + 1)];
      return Verdict(true, 0);
    }

    method Reset(key: Key)
      requires Valid()
      modifies this
      ensures Valid() && Contents() == Delete(old(Contents()), key)
    {
      buckets := buckets - {key};
      order := Without(order, key);
      WithoutDistinct(old(order), key);
    }
  }

  /** Of the first `i` keys, `closed` are those whose window has closed and `kept` the others, in order. */
  ghost predicate SweptTo(t: Table, i: nat, now: nat, closed: set<Key>, kept: seq<Key>)
    requires t.Valid() && i <= |t.order|
  {
    && (forall k :: k in closed <==> k in t.order[..i] && t.buckets[k].resetAt <= now)
    && kept == OpenKeys(t.buckets, t.order[..i], now)
  }

  lemma SweepStep(t: Table, i: nat, now: nat, closed: set<Key>, kept: seq<Key>)
    requires t.Valid() && i < |t.order| && SweptTo(t, i, now, closed, kept)
    ensures var k := t.order[i];
            && k in t.buckets && k !in closed && t.buckets - closed - {k} == t.buckets - (closed + {k})
            && if t.buckets[k].resetAt <= now then SweptTo(t, i + 1, now, closed + {k}, kept)
               else SweptTo(t, i + 1, now, closed, kept + [k])
  {
    PrefixStep(t.order, i);
    OpenKeysSnoc(t.buckets, t.order[..i], t.order[i], now);
  }

  lemma SweptToEnd(t: Table, now: nat, closed: set<Key>, kept: seq<Key>)
    requires t.Valid() && SweptTo(t, |t.order|, now, closed, kept)
    ensures Swept(t, now).Valid() && Swept(t, now) == Table(t.buckets - closed, kept)
  {
    assert t.order[..|t.order|] == t.order;
    SweptIsRemoval(t, now, closed);
  }

  lemma PrefixStep(ks: seq<Key>, i: nat)
    requires Distinct(ks) && i < |ks|
    ensures ks[i] !in ks[..i] && ks[..i + 1] == ks[..i] + [ks[i]]
  {
  }

  /** Sweeping is removing the closed windows. */
  lemma SweptIsRemoval(t: Table, now: nat, closed: set<Key>)
    requires t.Valid() && forall k :: k in closed <==> k in t.order && t.buckets[k].resetAt <= now
    ensures Swept(t, now).Valid() && Swept(t, now) == Table(t.buckets - closed, OpenKeys(t.buckets, t.order, now))
  {
    SweptIsValid(t, now);
    assert Swept(t, now).buckets == t.buckets - closed;
  }

  lemma {:induction false} OpenKeysSnoc(buckets: map<Key, Bucket>, ks: seq<Key>, k: Key, now: nat)
    requires k in buckets && forall x :: x in ks ==> x in buckets
    ensures OpenKeys(buckets, ks + [k], now) == OpenKeys(buckets, ks, now) + (if buckets[k].resetAt > now then [k] else [])
  {
    if ks == [] {
    } else {
      assert (ks + [k])[1..] == ks[1..] + [k];
      OpenKeysSnoc(buckets, ks[1..], k, now);
    }
  }

  lemma {:induction false} WithoutDistinct(ks: seq<Key>, k: Key)
    requires Distinct(ks)
    ensures Distinct(Without(ks, k))
  {
    if ks != [] {
      TailIsDistinct(ks);
      WithoutDistinct(ks[1..], k);
    }
  }
}
