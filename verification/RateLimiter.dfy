/** The in-memory rate limiter: fixed windows per key, with expired buckets pruned when there are many keys. */
module RateLimiter {
  import opened Numbers

  const WINDOW_MS: int := 60_000
  const MAX_KEYS: int := 10_000

  datatype Bucket = Bucket(count: int, resetAt: int)

  type Buckets = map<string, Bucket>

  function Prune(buckets: Buckets, now: int): Buckets {
    map k | k in buckets && buckets[k].resetAt > now :: buckets[k]
  }

  /** Counts a call on its key's bucket, starting a new one when there is none or it has expired. */
  function Hit(buckets: Buckets, key: string, limit: int, now: int): (Buckets, bool) {
    if key !in buckets || buckets[key].resetAt <= now then (buckets[key := Bucket(1, now + WINDOW_MS)], true)
    else
      var count := buckets[key].count + 1;
      (buckets[key := buckets[key].(count := count)], count <= limit)
  }

  /** One call; `prunes` tells the limiter from an idealised one that never forgets a bucket. */
  function LocalRateLimit(buckets: Buckets, prunes: bool, key: string, limit: int, now: int): (Buckets, bool) {
    Hit(if prunes && |buckets| > MAX_KEYS then Prune(buckets, now) else buckets, key, limit, now)
  }

  class Limiter {
    var buckets: Buckets

    constructor ()
      ensures buckets == map[]
    {
      buckets := map[];
    }

    method Allow(key: string, limit: int, now: int) returns (allowed: bool)
      modifies this
      ensures (buckets, allowed) == LocalRateLimit(old(buckets), true, key, limit, now)
    {
      if |buckets| > MAX_KEYS {
        var todo := buckets.Keys;
        while todo != {}
          invariant todo <= old(buckets).Keys
          invariant forall k :: k in buckets <==> k in old(buckets) && (k in todo || old(buckets)[k].resetAt > now)
          invariant forall k | k in buckets :: buckets[k] == old(buckets)[k]
          decreases |todo|
        {
          var k :| k in todo;
          if buckets[k].resetAt <= now {
            buckets := buckets - {k};
          }
          todo := todo - {k};
        }
        assert buckets == Prune(old(buckets), now);
      }
      if key !in buckets || buckets[key].resetAt <= now {
        buckets := buckets[key := Bucket(1, now + WINDOW_MS)];
        return true;
      }
      buckets := buckets[key := buckets[key].(count := buckets[key].count + 1)];
      allowed := buckets[key].count <= limit;
    }
  }

  // ----- Runs, with one fixed limit per key

  datatype Call = Call(key: string, now: int)

  predicate Monotone(calls: seq<Call>) {
    forall i, j | 0 <= i <= j < |calls| :: calls[i].now <= calls[j].now
  }

  function After(prunes: bool, limits: string -> int, calls: seq<Call>): Buckets {
    if calls == [] then map[]
    else
      var last := calls[|calls| - 1];
      LocalRateLimit(After(prunes, limits, calls[..|calls| - 1]), prunes, last.key, limits(last.key), last.now).0
  }

  /** The answer to the last call. */
  function Verdict(prunes: bool, limits: string -> int, calls: seq<Call>): bool
    requires calls != []
  {
    var last := calls[|calls| - 1];
    LocalRateLimit(After(prunes, limits, calls[..|calls| - 1]), prunes, last.key, limits(last.key), last.now).1
  }

  /** The pruned map is the unpruned one without some buckets that have expired. */
  ghost predicate Forgets(pruned: Buckets, full: Buckets, now: int) {
    && (forall k | k in pruned :: k in full && full[k] == pruned[k])
    && (forall k | k in full && k !in pruned :: full[k].resetAt <= now)
  }

  lemma HitForgets(pruned: Buckets, full: Buckets, before: int, prunes: bool, key: string, limit: int, now: int)
    requires Forgets(pruned, full, before) && before <= now
    ensures var (p, yes) := LocalRateLimit(pruned, prunes, key, limit, now);
      var (f, also) := LocalRateLimit(full, false, key, limit, now);
      yes == also && Forgets(p, f, now)
  {
  }

  lemma {:induction false} RunForgets(limits: string -> int, calls: seq<Call>)
    requires Monotone(calls)
    ensures forall now | calls != [] ==> calls[|calls| - 1].now <= now ::
      Forgets(After(true, limits, calls), After(false, limits, calls), now)
  {
    if calls != [] {
      var last := calls[|calls| - 1];
      RunForgets(limits, calls[..|calls| - 1]);
      HitForgets(After(true, limits, calls[..|calls| - 1]), After(false, limits, calls[..|calls| - 1]), last.now, true,
                 last.key, limits(last.key), last.now);
    }
  }

  /** With a clock that never runs backwards, pruning changes no answer. */
  lemma PruningIsInvisible(limits: string -> int, calls: seq<Call>)
    requires Monotone(calls) && calls != []
    ensures Verdict(true, limits, calls) == Verdict(false, limits, calls)
  {
    var rest, last := calls[..|calls| - 1], calls[|calls| - 1];
    RunForgets(limits, rest);
    HitForgets(After(true, limits, rest), After(false, limits, rest), last.now, true, last.key, limits(last.key),
               last.now);
  }

  // ----- How many calls a window admits

  /** Calls on the key admitted at or after `from` and less than a window later. */
  function Admitted(prunes: bool, limits: string -> int, calls: seq<Call>, key: string, from: int): nat {
    if calls == [] then 0
    else
      var last := calls[|calls| - 1];
      Admitted(prunes, limits, calls[..|calls| - 1], key, from)
        + if last.key == key && from <= last.now < from + WINDOW_MS && Verdict(prunes, limits, calls) then 1 else 0
  }

  lemma {:induction false} AdmitsTheSame(limits: string -> int, calls: seq<Call>, key: string, from: int)
    requires Monotone(calls)
    ensures Admitted(true, limits, calls, key, from) == Admitted(false, limits, calls, key, from)
  {
    if calls != [] {
      AdmitsTheSame(limits, calls[..|calls| - 1], key, from);
      PruningIsInvisible(limits, calls);
    }
  }

  /** What the key's bucket says about the calls admitted since `from`, by when the bucket was started. */
  ghost predicate WithinBucket(buckets: Buckets, key: string, limit: int, from: int, admitted: int) {
    if key !in buckets then admitted == 0
    else
      var started := buckets[key].resetAt - WINDOW_MS;
      && buckets[key].count >= 1
      && if started < from then admitted <= Min(buckets[key].count, limit) - 1
         else if started < from + WINDOW_MS then admitted <= limit - 1 + Min(buckets[key].count, limit)
         else admitted <= 2 * limit - 1
  }

  /** Every bucket was started by a call in the past. */
  ghost predicate StartedBy(buckets: Buckets, key: string, now: int) {
    key in buckets ==> buckets[key].resetAt - WINDOW_MS <= now
  }

  lemma WindowStep(buckets: Buckets, call: Call, limit: int, key: string, keyLimit: int, from: int, before: int,
                   admitted: nat)
    requires WithinBucket(buckets, key, keyLimit, from, admitted) && StartedBy(buckets, key, before)
    requires before < from ==> admitted == 0
    requires before <= call.now && keyLimit >= 1 && (call.key == key ==> limit == keyLimit)
    ensures var (after, yes) := Hit(buckets, call.key, limit, call.now);
      var total := admitted + if call.key == key && from <= call.now < from + WINDOW_MS && yes then 1 else 0;
      && WithinBucket(after, key, keyLimit, from, total) && StartedBy(after, key, call.now)
      && (call.now < from ==> total == 0)
  {
  }

  lemma {:induction false} WindowInvariant(limits: string -> int, calls: seq<Call>, key: string, from: int)
    requires Monotone(calls) && limits(key) >= 1 && calls != []
    ensures var now := calls[|calls| - 1].now; var admitted := Admitted(false, limits, calls, key, from);
      && WithinBucket(After(false, limits, calls), key, limits(key), from, admitted)
      && StartedBy(After(false, limits, calls), key, now)
      && (now < from ==> admitted == 0)
  {
    hide WithinBucket, StartedBy, Hit;
    var rest, last := calls[..|calls| - 1], calls[|calls| - 1];
    if rest != [] {
      WindowInvariant(limits, rest, key, from);
      WindowStep(After(false, limits, rest), last, limits(last.key), key, limits(key), from, rest[|rest| - 1].now,
                 Admitted(false, limits, rest, key, from));
    } else {
      FirstCall(key, limits(key), from, last.now);
      WindowStep(map[], last, limits(last.key), key, limits(key), from, last.now, 0);
    }
  }

  lemma FirstCall(key: string, limit: int, from: int, now: int)
    ensures WithinBucket(map[], key, limit, from, 0) && StartedBy(map[], key, now)
  {
  }

  /** Any interval of one window's length admits fewer than twice the limit of a key's calls. */
  lemma WindowBound(limits: string -> int, calls: seq<Call>, key: string, from: int)
    requires Monotone(calls) && limits(key) >= 1
    ensures Admitted(true, limits, calls, key, from) <= 2 * limits(key) - 1
  {
    AdmitsTheSame(limits, calls, key, from);
    if calls != [] {
      WindowInvariant(limits, calls, key, from);
    }
  }

  // ----- The bound is reached

  function Repeat(key: string, now: int, n: nat): seq<Call> {
    seq(n, _ => Call(key, now))
  }

  /** One call opens a bucket, the rest of its limit comes at the bucket's end, and a new bucket's limit right after. */
  function Burst(key: string, limit: nat): seq<Call>
    requires limit >= 1
  {
    Opened(key, limit - 1) + Repeat(key, WINDOW_MS, limit)
  }

  /** A further call on the only key there is. */
  lemma CallOnOnlyKey(limits: string -> int, calls: seq<Call>, key: string, now: int, from: int)
    requires |After(true, limits, calls)| <= 1
    ensures var more := calls + [Call(key, now)];
      var (buckets, yes) := Hit(After(true, limits, calls), key, limits(key), now);
      && After(true, limits, more) == buckets
      && Admitted(true, limits, more, key, from)
         == Admitted(true, limits, calls, key, from) + if from <= now < from + WINDOW_MS && yes then 1 else 0
  {
    var more := calls + [Call(key, now)];
    assert more[..|more| - 1] == calls;
  }

  function Opened(key: string, n: nat): seq<Call> {
    [Call(key, 0)] + Repeat(key, WINDOW_MS - 1, n)
  }

  lemma RepeatOnce(key: string, now: int, n: nat)
    requires n > 0
    ensures Repeat(key, now, n) == Repeat(key, now, n - 1) + [Call(key, now)]
  {
  }

  lemma HitAgain(key: string, n: int, limit: int, resetAt: int, now: int)
    requires now < resetAt
    ensures Hit(map[key := Bucket(n, resetAt)], key, limit, now) == (map[key := Bucket(n + 1, resetAt)], n + 1 <= limit)
  {
    assert map[key := Bucket(n, resetAt)][key := Bucket(n + 1, resetAt)] == map[key := Bucket(n + 1, resetAt)];
  }

  lemma HitRestarts(key: string, n: int, limit: int, resetAt: int, now: int)
    requires resetAt <= now
    ensures Hit(map[key := Bucket(n, resetAt)], key, limit, now) == (map[key := Bucket(1, now + WINDOW_MS)], true)
  {
    assert map[key := Bucket(n, resetAt)][key := Bucket(1, now + WINDOW_MS)] == map[key := Bucket(1, now + WINDOW_MS)];
  }

  lemma {:induction false} BurstEnds(limits: string -> int, key: string, n: nat)
    requires n < limits(key)
    ensures After(true, limits, Opened(key, n)) == map[key := Bucket(n + 1, WINDOW_MS)]
    ensures Admitted(true, limits, Opened(key, n), key, WINDOW_MS - 1) == n
  {
    hide After, Admitted, Repeat;
    if n > 0 {
      BurstEnds(limits, key, n - 1);
      HitAgain(key, n, limits(key), WINDOW_MS, WINDOW_MS - 1);
      RepeatOnce(key, WINDOW_MS - 1, n);
      assert Opened(key, n) == Opened(key, n - 1) + [Call(key, WINDOW_MS - 1)];
      CallOnOnlyKey(limits, Opened(key, n - 1), key, WINDOW_MS - 1, WINDOW_MS - 1);
    } else {
      NothingYet(limits, key);
      CallOnOnlyKey(limits, [], key, 0, WINDOW_MS - 1);
      assert Repeat(key, WINDOW_MS - 1, 0) == [] by {
        NothingRepeated(key, WINDOW_MS - 1);
      }
      assert Opened(key, 0) == [] + [Call(key, 0)];
    }
  }

  lemma NothingYet(limits: string -> int, key: string)
    ensures After(true, limits, []) == map[] && Admitted(true, limits, [], key, WINDOW_MS - 1) == 0
  {
  }

  lemma NothingRepeated(key: string, now: int)
    ensures Repeat(key, now, 0) == []
  {
  }

  lemma {:induction false} BurstRestarts(limits: string -> int, key: string, n: nat)
    requires 1 <= n <= limits(key)
    ensures var calls := Opened(key, limits(key) - 1) + Repeat(key, WINDOW_MS, n);
      After(true, limits, calls) == map[key := Bucket(n, 2 * WINDOW_MS)]
      && Admitted(true, limits, calls, key, WINDOW_MS - 1) == limits(key) - 1 + n
  {
    hide After, Admitted, Repeat, Opened, Hit;
    var first := Opened(key, limits(key) - 1);
    RepeatOnce(key, WINDOW_MS, n);
    assert first + Repeat(key, WINDOW_MS, n) == first + Repeat(key, WINDOW_MS, n - 1) + [Call(key, WINDOW_MS)];
    if n > 1 {
      BurstRestarts(limits, key, n - 1);
      HitAgain(key, n - 1, limits(key), 2 * WINDOW_MS, WINDOW_MS);
    } else {
      BurstEnds(limits, key, limits(key) - 1);
      HitRestarts(key, limits(key), limits(key), WINDOW_MS, WINDOW_MS);
      NothingRepeated(key, WINDOW_MS);
      assert first + Repeat(key, WINDOW_MS, 0) == first;
    }
    CallOnOnlyKey(limits, first + Repeat(key, WINDOW_MS, n - 1), key, WINDOW_MS, WINDOW_MS - 1);
  }

  lemma BurstMonotone(key: string, limit: nat)
    requires limit >= 1
    ensures Monotone(Burst(key, limit))
  {
  }

  /** Twice the limit less one is really admitted within a window, for every limit. */
  lemma WindowBoundReached(limits: string -> int, key: string)
    requires limits(key) >= 1
    ensures Monotone(Burst(key, limits(key)))
    ensures Admitted(true, limits, Burst(key, limits(key)), key, WINDOW_MS - 1) == 2 * limits(key) - 1
  {
    hide After, Admitted, Monotone, Repeat;
    BurstMonotone(key, limits(key));
    BurstRestarts(limits, key, limits(key));
  }
}
