/**
 The oracle keeper: the median of the sources that answered, its confidence,
 and when it is published. Prices are reals.
 */
module OracleMedian {
  import opened Outcomes
  import opened Numbers
  import Sorting
  import opened FixedPoint

  datatype Aggregate = Aggregate(price: int, confidence: int, sources: nat)

  datatype Limits = Limits(minSources: nat, maxDeviationBps: real)

  /** The prices of the sources that answered. */
  function Responders(settled: seq<Option<real>>): seq<real> {
    if settled == [] then []
    else
      var last := settled[|settled| - 1];
      Responders(settled[..|settled| - 1]) + if last.Some? then [last.value] else []
  }

  predicate Less(a: real, b: real) {
    a < b
  }

  function Sort(prices: seq<real>): seq<real> {
    Sorting.Sort(prices, Less)
  }

  function Mid(sorted: seq<real>): real
    requires sorted != []
  {
    var n := |sorted|;
    if n % 2 == 1 then sorted[(n - 1) / 2] else (sorted[n / 2 - 1] + sorted[n / 2]) / 2.0
  }

  function SpreadBps(sorted: seq<real>): real
    requires sorted != [] && sorted[0] > 0.0
  {
    (sorted[|sorted| - 1] - sorted[0]) / sorted[0] * 10_000.0
  }

  /** None skips the tick. Every source reports a positive price or fails. */
  function AggregatePrice(limits: Limits, settled: seq<Option<real>>): Option<Aggregate>
    requires forall s | s in settled :: s.Some? ==> s.value > 0.0
  {
    RespondersAnswered(settled);
    SortKeeps(Responders(settled));
    var prices := Sort(Responders(settled));
    if |prices| < limits.minSources || prices == [] then None
    else
      assert prices[0] in prices && Some(prices[0]) in settled;
      if SpreadBps(prices) > limits.maxDeviationBps then None
      else
        var price := Round(Mid(prices) * PRECISION as real);
        var spread := Round((prices[|prices| - 1] - prices[0]) / 2.0 * PRECISION as real);
        Some(Aggregate(price, if spread > price / 1000 then spread else price / 1000, |prices|))
  }

  lemma {:induction false} RespondersAnswered(settled: seq<Option<real>>)
    ensures forall p :: p in Responders(settled) <==> Some(p) in settled
  {
    if settled != [] {
      RespondersAnswered(settled[..|settled| - 1]);
      assert settled == settled[..|settled| - 1] + [settled[|settled| - 1]];
    }
  }

  ghost predicate Ascending(s: seq<real>) {
    forall i, j | 0 <= i <= j < |s| :: s[i] <= s[j]
  }

  /** Sorting puts the prices in ascending order and loses none. */
  lemma SortKeeps(prices: seq<real>)
    ensures Ascending(Sort(prices)) && multiset(Sort(prices)) == multiset(prices)
    ensures |Sort(prices)| == |prices| && forall p :: p in Sort(prices) <==> p in prices
  {
    hide Sorting.Sort;
    Sorting.SortRanks(prices, Less);
    RankedAscends(Sort(prices));
    SameContents(Sort(prices), prices);
  }

  lemma RankedAscends(sorted: seq<real>)
    requires Sorting.Ranked(sorted, Less)
    ensures Ascending(sorted)
  {
    forall i, j | 0 <= i <= j < |sorted| ensures sorted[i] <= sorted[j] {
      assert i < j ==> !Less(sorted[j], sorted[i]);
    }
  }

  lemma SameContents(a: seq<real>, b: seq<real>)
    requires multiset(a) == multiset(b)
    ensures |a| == |b| && forall p :: p in a <==> p in b
  {
    assert |multiset(a)| == |multiset(b)|;
    forall p ensures p in a <==> p in b {
      assert p in multiset(a) <==> p in multiset(b);
    }
  }

  // ----- Robustness of the median

  function Below(s: seq<real>, x: real): nat {
    if s == [] then 0 else Below(s[..|s| - 1], x) + if s[|s| - 1] < x then 1 else 0
  }

  function Above(s: seq<real>, x: real): nat {
    if s == [] then 0 else Above(s[..|s| - 1], x) + if s[|s| - 1] > x then 1 else 0
  }

  lemma {:induction false} InsertCounts(sorted: seq<real>, p: real, x: real)
    ensures Below(Sorting.Insert(sorted, p, Less), x) == Below(sorted, x) + if p < x then 1 else 0
    ensures Above(Sorting.Insert(sorted, p, Less), x) == Above(sorted, x) + if p > x then 1 else 0
  {
    if sorted == [] || sorted[|sorted| - 1] <= p {
      assert (sorted + [p])[..|sorted|] == sorted;
    } else {
      var rest, last := sorted[..|sorted| - 1], sorted[|sorted| - 1];
      InsertCounts(rest, p, x);
      assert (Sorting.Insert(rest, p, Less) + [last])[..|Sorting.Insert(rest, p, Less)|]
        == Sorting.Insert(rest, p, Less);
    }
  }

  lemma {:induction false} SortCounts(prices: seq<real>, x: real)
    ensures Below(Sort(prices), x) == Below(prices, x) && Above(Sort(prices), x) == Above(prices, x)
  {
    if prices != [] {
      SortCounts(prices[..|prices| - 1], x);
      InsertCounts(Sort(prices[..|prices| - 1]), prices[|prices| - 1], x);
    }
  }

  /** In an ascending list, an entry below x has all entries before it below x, and likewise above. */
  lemma {:induction false} RankCounts(s: seq<real>, k: nat, x: real)
    requires Ascending(s) && k < |s|
    ensures s[k] < x ==> Below(s, x) >= k + 1
    ensures s[k] > x ==> Above(s, x) >= |s| - k
  {
    if k < |s| - 1 {
      RankCounts(s[..|s| - 1], k, x);
    } else if k > 0 && s[k] < x {
      RankCounts(s[..|s| - 1], k - 1, x);
    }
  }

  /** In an ascending list no more entries are below the k-th than precede it, and no more above than follow it. */
  lemma {:induction false} RankBounds(s: seq<real>, k: nat)
    requires Ascending(s) && k < |s|
    ensures Below(s, s[k]) <= k && Above(s, s[k]) <= |s| - 1 - k
  {
    if k < |s| - 1 {
      RankBounds(s[..|s| - 1], k);
    } else {
      BelowAtMost(s[..k], s[k]);
      NoneAbove(s, s[k]);
    }
  }

  lemma {:induction false} BelowAtMost(s: seq<real>, x: real)
    ensures Below(s, x) <= |s|
  {
    if s != [] {
      BelowAtMost(s[..|s| - 1], x);
    }
  }

  lemma {:induction false} NoneAbove(s: seq<real>, x: real)
    requires forall i | 0 <= i < |s| :: s[i] <= x
    ensures Above(s, x) == 0
  {
    if s != [] {
      NoneAbove(s[..|s| - 1], x);
    }
  }

  /**
   The median halves the prices: it is one of them when their number is odd, and
   otherwise exactly half way between the two that leave half on either side.
   */
  lemma MedianHalves(prices: seq<real>) returns (lo: real, hi: real)
    requires prices != []
    ensures Sort(prices) != [] && lo in prices && hi in prices
    ensures Mid(Sort(prices)) - lo == hi - Mid(Sort(prices)) && (|prices| % 2 == 1 ==> lo == hi)
    ensures 2 * Below(prices, lo) < |prices| && 2 * Above(prices, hi) < |prices|
    ensures 2 * Below(prices, hi) <= |prices| && 2 * Above(prices, lo) <= |prices|
  {
    var s := Sort(prices);
    SortKeeps(prices);
    hide Sort;
    var upper := |s| / 2;
    var lower := if |s| % 2 == 1 then upper else upper - 1;
    lo, hi := s[lower], s[upper];
    RankBounds(s, lower);
    RankBounds(s, upper);
    SortCounts(prices, lo);
    SortCounts(prices, hi);
  }

  /** The number of responders that may say anything. */
  function Faulty(honest: seq<bool>): nat {
    if honest == [] then 0 else Faulty(honest[..|honest| - 1]) + if honest[|honest| - 1] then 0 else 1
  }

  ghost predicate HonestWithin(prices: seq<real>, honest: seq<bool>, lo: real, hi: real) {
    |honest| == |prices| && forall i | 0 <= i < |prices| && honest[i] :: lo <= prices[i] <= hi
  }

  lemma {:induction false} OnlyFaultyStray(prices: seq<real>, honest: seq<bool>, lo: real, hi: real)
    requires HonestWithin(prices, honest, lo, hi)
    ensures Below(prices, lo) <= Faulty(honest) && Above(prices, hi) <= Faulty(honest)
  {
    if prices != [] {
      OnlyFaultyStray(prices[..|prices| - 1], honest[..|honest| - 1], lo, hi);
    }
  }

  /**
   With fewer than half of the responders faulty, the median lies between the
   honest prices, for odd and even counts.
   */
  lemma MedianWithinHonest(prices: seq<real>, honest: seq<bool>, lo: real, hi: real)
    requires prices != [] && HonestWithin(prices, honest, lo, hi) && 2 * Faulty(honest) < |prices|
    ensures |Sort(prices)| == |prices| && lo <= Mid(Sort(prices)) <= hi
  {
    var s := Sort(prices);
    SortKeeps(prices);
    OnlyFaultyStray(prices, honest, lo, hi);
    SortCounts(prices, lo);
    SortCounts(prices, hi);
    var upper := |s| / 2;
    var lower := if |s| % 2 == 1 then upper else upper - 1;
    RankCounts(s, lower, lo);
    RankCounts(s, upper, lo);
    RankCounts(s, lower, hi);
    RankCounts(s, upper, hi);
  }

  /** The median of n responders, f of them faulty, never leaves the range of the honest ones. */
  ghost predicate Robust(n: nat, f: nat) {
    forall prices: seq<real>, honest: seq<bool>, lo: real, hi: real |
      |prices| == n && HonestWithin(prices, honest, lo, hi) && Faulty(honest) == f && n > 0 && |Sort(prices)| == n ::
      lo <= Mid(Sort(prices)) <= hi
  }

  /** Half of the responders agreeing on a price above everyone else's. */
  function Attack(n: nat, f: nat): seq<real>
    requires f <= n
  {
    seq(n, i requires 0 <= i < n => if i < n - f then 1.0 else 3.0)
  }

  function Attackers(n: nat, f: nat): seq<bool>
    requires f <= n
  {
    seq(n, i requires 0 <= i < n => i < n - f)
  }

  lemma {:induction false} AttackersCount(n: nat, f: nat)
    requires f <= n
    ensures Faulty(Attackers(n, f)) == f
  {
    if f > 0 {
      AttackersCount(n - 1, f - 1);
      assert Attackers(n, f)[..n - 1] == Attackers(n - 1, f - 1);
    } else if n > 0 {
      AttackersCount(n - 1, 0);
      assert Attackers(n, f)[..n - 1] == Attackers(n - 1, 0);
    }
  }

  lemma {:induction false} SortedStays(s: seq<real>)
    requires Ascending(s)
    ensures Sort(s) == s
  {
    if s != [] {
      SortedStays(s[..|s| - 1]);
      assert s == s[..|s| - 1] + [s[|s| - 1]];
    }
  }

  lemma AttackMid(n: nat, f: nat)
    requires 0 < n && f <= n && 2 * f >= n
    ensures Mid(Attack(n, f)) > 1.0 && Ascending(Attack(n, f))
  {
    var s := Attack(n, f);
    if n % 2 == 1 {
      assert s[(n - 1) / 2] == 3.0;
    } else {
      assert s[n / 2] == 3.0 && s[n / 2 - 1] >= 1.0;
    }
  }

  lemma AttackSucceeds(n: nat, f: nat)
    requires 0 < n && f <= n && 2 * f >= n
    ensures HonestWithin(Attack(n, f), Attackers(n, f), 1.0, 1.0) && Faulty(Attackers(n, f)) == f
    ensures |Sort(Attack(n, f))| == n && Mid(Sort(Attack(n, f))) > 1.0
  {
    hide Mid, Sort, Ascending, Faulty;
    AttackersCount(n, f);
    AttackMid(n, f);
    SortedStays(Attack(n, f));
  }

  /** Fewer than half is exactly what the median tolerates. */
  lemma RobustIffMinority(n: nat, f: nat)
    requires 0 < n && f <= n
    ensures Robust(n, f) <==> 2 * f < n
  {
    hide Mid, Sort, HonestWithin, Faulty;
    if 2 * f < n {
      forall prices: seq<real>, honest: seq<bool>, lo: real, hi: real |
        |prices| == n && HonestWithin(prices, honest, lo, hi) && Faulty(honest) == f && n > 0 && |Sort(prices)| == n
        ensures lo <= Mid(Sort(prices)) <= hi
      {
        MedianWithinHonest(prices, honest, lo, hi);
      }
    } else {
      AttackSucceeds(n, f);
    }
  }

  // ----- What gets published

  lemma SpreadIff(lo: real, hi: real, bps: real)
    requires lo > 0.0
    ensures (hi - lo) / lo * 10_000.0 <= bps <==> (hi - lo) * 10_000.0 <= bps * lo
  {
    var d := (hi - lo) / lo;
    assert d * lo == hi - lo;
    var gap := bps - d * 10_000.0;
    assert gap * lo == bps * lo - (hi - lo) * 10_000.0;
    SameSign(gap, lo);
  }

  lemma SameSign(x: real, k: real)
    requires k > 0.0
    ensures x >= 0.0 <==> x * k >= 0.0
  {
    assert x < 0.0 ==> -x * k > 0.0;
  }

  /** No reported price exceeds another by more than the permitted deviation of the other. */
  ghost predicate Agree(settled: seq<Option<real>>, bps: real) {
    forall p, q | Some(p) in settled && Some(q) in settled :: Close(p, q, bps)
  }

  predicate Close(p: real, q: real, bps: real) {
    (p - q) * 10_000.0 <= bps * q
  }

  /** A price comes out exactly when enough sources answered and all of them agree. */
  lemma AggregatesWhenAgreed(limits: Limits, settled: seq<Option<real>>)
    requires forall s | s in settled :: s.Some? ==> s.value > 0.0
    ensures var answered := Responders(settled);
      AggregatePrice(limits, settled).Some?
      <==> answered != [] && |answered| >= limits.minSources && Agree(settled, limits.maxDeviationBps)
  {
    hide Sort, Responders, Mid, Round, Agree, Close;
    var prices := Sort(Responders(settled));
    RespondersAnswered(settled);
    SortKeeps(Responders(settled));
    if prices != [] {
      assert prices[0] in prices && Some(prices[0]) in settled;
      SpreadIff(prices[0], prices[|prices| - 1], limits.maxDeviationBps);
      EndsDecide(settled, prices, limits.maxDeviationBps);
    }
  }

  /** The extremes agree exactly when everyone does. */
  lemma EndsDecide(settled: seq<Option<real>>, prices: seq<real>, bps: real)
    requires prices != [] && Ascending(prices) && prices[0] > 0.0
    requires forall p :: p in prices <==> Some(p) in settled
    ensures Agree(settled, bps) <==> (prices[|prices| - 1] - prices[0]) * 10_000.0 <= bps * prices[0]
  {
    var lo, hi := prices[0], prices[|prices| - 1];
    assert lo in prices && hi in prices;
    assert Agree(settled, bps) ==> Close(hi, lo, bps);
    if (hi - lo) * 10_000.0 <= bps * lo {
      forall p, q | Some(p) in settled && Some(q) in settled ensures Close(p, q, bps) {
        assert p in prices && q in prices;
        WithinEnds(prices, p, q, bps);
      }
    }
  }

  lemma WithinEnds(s: seq<real>, p: real, q: real, bps: real)
    requires Ascending(s) && p in s && q in s && s[0] > 0.0
    requires (s[|s| - 1] - s[0]) * 10_000.0 <= bps * s[0]
    ensures Close(p, q, bps)
  {
    var i :| 0 <= i < |s| && s[i] == p;
    var j :| 0 <= j < |s| && s[j] == q;
    CloseWithin(s[0], s[|s| - 1], p, q, bps);
  }

  lemma CloseWithin(lo: real, hi: real, p: real, q: real, bps: real)
    requires 0.0 < lo <= q && lo <= p <= hi && (hi - lo) * 10_000.0 <= bps * lo
    ensures Close(p, q, bps)
  {
    assert (p - q) * 10_000.0 <= (hi - lo) * 10_000.0;
    assert bps * lo >= 0.0;
    SameSign(bps, lo);
    BpsGrows(bps, lo, q);
  }

  lemma MidBetween(s: seq<real>)
    requires s != [] && Ascending(s)
    ensures s[0] <= Mid(s) <= s[|s| - 1]
  {
  }

  /**
   A published price is within the permitted deviation, and half a unit of
   rounding, of every price that a source reported: one honest source is
   enough to keep it honest.
   */
  lemma PublishedNearEverySource(limits: Limits, settled: seq<Option<real>>, p: real)
    requires forall s | s in settled :: s.Some? ==> s.value > 0.0
    requires AggregatePrice(limits, settled).Some? && Some(p) in settled && limits.maxDeviationBps >= 0.0
    ensures var price := AggregatePrice(limits, settled).value.price as real;
      var off := if price > p * PRECISION as real then price - p * PRECISION as real else p * PRECISION as real - price;
      off <= limits.maxDeviationBps * p / 10_000.0 * PRECISION as real + 0.5
  {
    hide AggregatePrice, Mid, Sort, Responders, Round;
    MidNearSource(limits, settled, p);
    ScaledNear(Mid(Sort(Responders(settled))), p, limits.maxDeviationBps * p / 10_000.0);
  }

  lemma MidNearSource(limits: Limits, settled: seq<Option<real>>, p: real)
    requires forall s | s in settled :: s.Some? ==> s.value > 0.0
    requires AggregatePrice(limits, settled).Some? && Some(p) in settled && limits.maxDeviationBps >= 0.0
    ensures Sort(Responders(settled)) != []
    ensures AggregatePrice(limits, settled).value.price == Round(Mid(Sort(Responders(settled))) * PRECISION as real)
    ensures var allowed := limits.maxDeviationBps * p / 10_000.0;
      -allowed <= Mid(Sort(Responders(settled))) - p <= allowed
  {
    hide Sort, Responders, Mid, Round;
    var prices := Sort(Responders(settled));
    RespondersAnswered(settled);
    SortKeeps(Responders(settled));
    assert p in prices;
    var lo, hi := prices[0], prices[|prices| - 1];
    var i :| 0 <= i < |prices| && prices[i] == p;
    assert lo <= p <= hi;
    assert lo in prices && Some(lo) in settled;
    MidBetween(prices);
    SpreadIff(lo, hi, limits.maxDeviationBps);
    BpsGrows(limits.maxDeviationBps, lo, p);
    WithinSpread(lo, hi, Mid(prices), p, limits.maxDeviationBps * p);
  }

  lemma WithinSpread(lo: real, hi: real, mid: real, p: real, x: real)
    requires lo <= mid <= hi && lo <= p <= hi && (hi - lo) * 10_000.0 <= x
    ensures -(x / 10_000.0) <= mid - p <= x / 10_000.0
  {
  }

  lemma BpsGrows(bps: real, lo: real, p: real)
    requires bps >= 0.0 && lo <= p
    ensures bps * lo <= bps * p
  {
  }

  lemma ScaledNear(mid: real, p: real, d: real)
    requires -d <= mid - p <= d
    ensures var price := Round(mid * PRECISION as real) as real;
      var off := if price > p * PRECISION as real then price - p * PRECISION as real else p * PRECISION as real - price;
      off <= d * PRECISION as real + 0.5
  {
  }

  /**
   The confidence is never less than a thousandth of the price nor, up to
   rounding, than half of the observed spread.
   */
  lemma ConfidenceCovers(limits: Limits, settled: seq<Option<real>>, p: real, q: real)
    requires forall s | s in settled :: s.Some? ==> s.value > 0.0
    requires AggregatePrice(limits, settled).Some? && Some(p) in settled && Some(q) in settled
    ensures var a := AggregatePrice(limits, settled).value;
      && a.sources >= limits.minSources && 1000 * a.confidence > a.price - 1000
      && (p - q) * PRECISION as real <= 2.0 * a.confidence as real + 1.0
  {
    var prices := Sort(Responders(settled));
    RespondersAnswered(settled);
    SortKeeps(Responders(settled));
    assert p in prices && q in prices;
    var i :| 0 <= i < |prices| && prices[i] == p;
    var j :| 0 <= j < |prices| && prices[j] == q;
    assert p <= prices[|prices| - 1] && prices[0] <= q;
  }

  /**
   A published aggregate is the median at full precision, over all that answered;
   its confidence is the larger of half the spread and a thousandth of the price.
   */
  lemma AggregateIs(limits: Limits, settled: seq<Option<real>>) returns (lo: real, hi: real)
    requires forall s | s in settled :: s.Some? ==> s.value > 0.0
    requires AggregatePrice(limits, settled).Some?
    ensures Some(lo) in settled && Some(hi) in settled && forall p | Some(p) in settled :: lo <= p <= hi
    ensures Sort(Responders(settled)) != []
    ensures var a := AggregatePrice(limits, settled).value;
      var spread := Round((hi - lo) / 2.0 * PRECISION as real);
      && a.price == Round(Mid(Sort(Responders(settled))) * PRECISION as real)
      && a.confidence == Max(spread, a.price / 1000)
      && a.sources == |Responders(settled)|
  {
    hide Round, Sort, Responders, Mid;
    var prices := Sort(Responders(settled));
    RespondersAnswered(settled);
    SortKeeps(Responders(settled));
    lo, hi := prices[0], prices[|prices| - 1];
    assert lo in prices && hi in prices;
    forall p | Some(p) in settled ensures lo <= p <= hi {
      var i :| 0 <= i < |prices| && prices[i] == p;
    }
  }

  // ----- When to publish

  datatype Published = Published(price: int, ts: int)

  /** None stands for the division by a zero last price, which the caller's handler turns into no publication. */
  function ShouldPublish(last: Option<Published>, price: int, deviationBps: int, heartbeatSecs: int,
                         now: int): Option<bool> {
    if last.None? || now - last.value.ts >= heartbeatSecs * 1000 then Some(true)
    else
      var diff := if price > last.value.price then price - last.value.price else last.value.price - price;
      if last.value.price == 0 then None else Some(TruncDiv(diff * 10_000, last.value.price) >= deviationBps)
  }

  /** A price goes unpublished exactly while the last one is younger than the heartbeat and within the deviation. */
  lemma SkippedWhileFresh(last: Option<Published>, price: int, deviationBps: int, heartbeatSecs: int, now: int)
    requires last.Some? ==> last.value.price > 0
    ensures ShouldPublish(last, price, deviationBps, heartbeatSecs, now) == Some(false)
      <==> last.Some? && now - last.value.ts < heartbeatSecs * 1000
           && -deviationBps * last.value.price < (price - last.value.price) * 10_000 < deviationBps * last.value.price
  {
    if last.Some? {
      var diff := if price > last.value.price then price - last.value.price else last.value.price - price;
      QuotientBelow(diff * 10_000, last.value.price, deviationBps);
    }
  }

  lemma QuotientBelow(x: int, y: int, k: int)
    requires y > 0
    ensures x / y < k <==> x < k * y
  {
    var q := x / y;
    assert q * y <= x < (q + 1) * y;
    assert q >= k ==> q * y >= k * y;
    assert q < k ==> (q + 1) * y <= k * y;
  }

  class Keeper {
    var lastPublished: map<string, Published>

    constructor ()
      ensures lastPublished == map[]
    {
      lastPublished := map[];
    }

    function Last(asset: string): Option<Published>
      reads this
    {
      if asset in lastPublished then Some(lastPublished[asset]) else None
    }

    /** One fetch of one market; `confirmed` is the time at which the network confirmed the write, if it did. */
    method PublishMarket(asset: string, limits: Limits, deviationBps: int, heartbeatSecs: int,
                         settled: seq<Option<real>>,
                         now: int, confirmed: Option<int>)
      returns (published: Option<Aggregate>)
      requires forall s | s in settled :: s.Some? ==> s.value > 0.0
      modifies this
      ensures var agg := AggregatePrice(limits, settled);
        var due := agg.Some? && confirmed.Some?
                   && ShouldPublish(old(Last(asset)), agg.value.price, deviationBps, heartbeatSecs, now) == Some(true);
        published == if due then agg else None
      ensures lastPublished
           == if published.Some? then old(lastPublished)[asset := Published(published.value.price, confirmed.value)]
                               else old(lastPublished)
    {
      published := None;
      var agg := AggregatePrice(limits, settled);
      if agg.None? {
        return;
      }
      if ShouldPublish(Last(asset), agg.value.price, deviationBps, heartbeatSecs, now) != Some(true) {
        return;
      }
      if confirmed.Some? {
        lastPublished := lastPublished[asset := Published(agg.value.price, confirmed.value)];
        published := agg;
      }
    }
  }
}
