/** Looking prices up by time: the search, the cache in front of the provider, and the segmented fetch. */
module Pricing {
  import opened Domain

  const MIN_GRANULARITY_MS := 3_600_000
  const PROXIMITY_FACTOR := 5
  const PROXIMITY_MS := MIN_GRANULARITY_MS * PROXIMITY_FACTOR
  const ONE_DAY_MS := 24 * 60 * 60 * 1000
  const NINETY_DAYS_MS := 90 * ONE_DAY_MS
  const SEGMENT_MS := 88 * ONE_DAY_MS

  /** Instants are milliseconds since 1970. */
  datatype Price = Price(at: nat, usd: real)

  ghost predicate SortedByTime(prices: seq<Price>) {
    forall i, j :: 0 <= i < j < |prices| ==> prices[i].at <= prices[j].at
  }

  // ---------------------------------------------------------------- the search

  /** The linear specification: the last price not after the target, from the first `n`. */
  function Floor(prices: seq<Price>, target: nat, n: nat): (r: Option<Price>)
    requires n <= |prices|
  {
    if n == 0 then None
    else if prices[n - 1].at <= target then Some(prices[n - 1])
    else Floor(prices, target, n - 1)
  }

  /** The first price if the target is not after it; else the latest price not after the target, if it
      is within five hours. */
  function Closest(prices: seq<Price>, target: nat): Option<Price> {
    if prices == [] then None
    else if target <= prices[0].at then Some(prices[0])
    else
      match Floor(prices, target, |prices|)
      case None => None
      case Some(p) => if target - p.at > PROXIMITY_MS then None else Some(p)
  }

  /** What a caller is promised: nothing from no prices; the first price if the target is not after it;
      else a price with the greatest instant not after the target, unless that is more than five hours
      before it. */
  ghost predicate IsClosest(prices: seq<Price>, target: nat, answer: Option<Price>) {
    if prices == [] then answer == None
    else if target <= prices[0].at then answer == Some(prices[0])
    else
      match answer
      case None => forall q :: q in prices && q.at <= target ==> target - q.at > 5 * 3_600_000
      case Some(p) =>
        && p in prices && p.at <= target && target - p.at <= 5 * 3_600_000
        && forall q :: q in prices && q.at <= target ==> q.at <= p.at
  }

  /** Two answers that agree on everything but which of several prices of one instant they name. */
  ghost predicate SameAnswer(prices: seq<Price>, a: Option<Price>, b: Option<Price>) {
    a.Some? == b.Some? && (a.Some? ==> a.value in prices && b.value in prices && a.value.at == b.value.at)
  }

  lemma {:induction false} FloorIs(prices: seq<Price>, target: nat, n: nat, i: nat)
    requires SortedByTime(prices) && i < n <= |prices|
    requires prices[i].at <= target && forall j :: i < j < n ==> prices[j].at > target || prices[j].at == prices[i].at
    ensures Floor(prices, target, n).Some? && Floor(prices, target, n).value in prices
    ensures Floor(prices, target, n).value.at == prices[i].at
  {
    if prices[n - 1].at > target {
      FloorIs(prices, target, n - 1, i);
    }
  }

  /** The price `i`, unless it is too far from the target. */
  function IfNear(prices: seq<Price>, target: nat, i: nat): Option<Price>
    requires i < |prices|
  {
    if Abs(prices[i].at - target) > PROXIMITY_MS then None else Some(prices[i])
  }

  /** The search may stop at a price not after the target that no later one improves on. */
  lemma Found(prices: seq<Price>, target: nat, i: nat)
    requires SortedByTime(prices) && i < |prices| && prices[0].at < target
    requires prices[i].at <= target
    requires forall j :: i < j < |prices| ==> prices[j].at > target || prices[j].at == prices[i].at
    ensures IsClosest(prices, target, IfNear(prices, target, i))
    ensures SameAnswer(prices, IfNear(prices, target, i), Closest(prices, target))
  {
    FloorIs(prices, target, |prices|, i);
    forall q | q in prices && q.at <= target ensures q.at <= prices[i].at {
      var j :| 0 <= j < |prices| && prices[j] == q;
    }
    assert prices[i] in prices;
  }

  /** The binary search keeps the promise on every list sorted by time. It agrees with the linear
      specification, and is equal to it when no two prices share an instant. */
  method FindClosestPrice(prices: seq<Price>, target: nat) returns (closest: Option<Price>)
    requires SortedByTime(prices)
    ensures IsClosest(prices, target, closest)
    ensures SameAnswer(prices, closest, Closest(prices, target))
    ensures (forall i, j :: 0 <= i < j < |prices| ==> prices[i].at != prices[j].at) ==>
              closest == Closest(prices, target)
  {
    if |prices| == 0 {
      return None;
    }
    if target <= prices[0].at {
      return Some(prices[0]);
    }
    var last := |prices| - 1;
    if target >= prices[last].at {
      Found(prices, target, last);
      return IfNear(prices, target, last);
    }
    var left, right := 0, last;
    while left + 1 < right
      invariant 0 <= left < right <= last
      invariant prices[left].at < target < prices[right].at
    {
      var mid := (left + right) / 2;
      if prices[mid].at == target {
        Found(prices, target, mid);
        return IfNear(prices, target, mid);
      }
      if prices[mid].at < target {
        left := mid;
      } else {
        right := mid;
      }
    }
    Found(prices, target, left);
    closest := IfNear(prices, target, left);
  }

  function Abs(x: int): int {
    if x < 0 then -x else x
  }

  /** `getClosestPrices`: one price for each timestamp, or None where the code throws NoClosePriceFound. */
  method GetClosestPrices(timestamps: seq<nat>, prices: seq<Price>) returns (result: Option<seq<Price>>)
    requires SortedByTime(prices)
    ensures result.None? <==> exists t :: t in timestamps && Closest(prices, t).None?
    ensures result.Some? ==>
              && |result.value| == |timestamps|
              && forall i :: 0 <= i < |timestamps| ==>
                   result.value[i].at == timestamps[i]
                   && exists p ::
                         p in prices && p.usd == result.value[i].usd && p.at == Closest(prices, timestamps[i]).value.at
  {
    var found: seq<Price> := [];
    for k := 0 to |timestamps|
      invariant |found| == k
      invariant forall i :: 0 <= i < k ==>
                  && Closest(prices, timestamps[i]).Some? && found[i].at == timestamps[i]
                  && exists p :: p in prices && p.usd == found[i].usd && p.at == Closest(prices, timestamps[i]).value.at
    {
      var closest := FindClosestPrice(prices, timestamps[k]);
      if closest.None? {
        return None;
      }
      found := found + [Price(timestamps[k], closest.value.usd)];
    }
    result := Some(found);
  }

  lemma {:induction false} FloorMeans(prices: seq<Price>, target: nat, n: nat)
    requires SortedByTime(prices) && n <= |prices|
    ensures match Floor(prices, target, n)
            case None => forall i :: 0 <= i < n ==> prices[i].at > target
            case Some(p) =>
              && p in prices && p.at <= target
              && forall i :: 0 <= i < n && prices[i].at <= target ==> prices[i].at <= p.at
  {
    if n > 0 {
      FloorMeans(prices, target, n - 1);
    }
  }

  /** The linear specification keeps the promise, too; and its answer is within five hours of the target
      exactly when the target is not more than five hours before the first price, for which no distance is
      checked. */
  lemma ClosestMeans(prices: seq<Price>, target: nat)
    requires SortedByTime(prices) && prices != []
    ensures IsClosest(prices, target, Closest(prices, target))
    ensures Closest(prices, target).Some? ==>
              (Abs(Closest(prices, target).value.at - target) <= 5 * 3_600_000 <==>
               target >= prices[0].at - 5 * 3_600_000)
  {
    FloorMeans(prices, target, |prices|);
    assert prices[0] in prices;
  }

  // ---------------------------------------------------------------- the cache

  /** The cached prices of a token between two instants, both included. */
  ghost predicate IsRangeOf(rows: map<nat, real>, from: int, to: int, prices: seq<Price>) {
    && (forall p :: p in prices <==> from <= p.at <= to && p.at in rows && rows[p.at] == p.usd)
    && (forall i, j :: 0 <= i < j < |prices| ==> prices[i].at != prices[j].at)
  }

  /** The row a query at `start` is answered from: the latest of the last five hours. */
  ghost predicate IsLatest(rows: map<nat, real>, start: nat, at: nat) {
    && at in rows && start - 5 * 3_600_000 <= at <= start
    && forall t :: t in rows && t <= start ==> t <= at
  }

  method Latest(times: set<nat>) returns (t: nat)
    requires times != {}
    ensures t in times && forall x :: x in times ==> x <= t
  {
    t :| t in times;
    var left := times - {t};
    while left != {}
      invariant left <= times && t in times
      invariant forall x :: x in times && x !in left ==> x <= t
      decreases left
    {
      var x :| x in left;
      left := left - {x};
      if x > t {
        t := x;
      }
    }
  }

  class PriceCache {
    var rows: map<nat, real>

    constructor ()
      ensures rows == map[]
    {
      rows := map[];
    }

    /** The range query followed by the caller's sort by time. */
    method GetPricesByTimeRange(from: int, to: int) returns (prices: seq<Price>)
      ensures IsRangeOf(rows, from, to, prices) && SortedByTime(prices)
    {
      prices := [];
      var left := set t | t in rows && from <= t <= to;
      while left != {}
        invariant forall t :: t in left ==> t in rows && from <= t <= to
        invariant forall p :: p in prices <==>
                  p.at in rows && from <= p.at <= to && p.at !in left && rows[p.at] == p.usd
        invariant forall p, t :: p in prices && t in left ==> t < p.at
        invariant forall i, j :: 0 <= i < j < |prices| ==> prices[i].at < prices[j].at
        decreases left
      {
        var t := Latest(left);
        assert forall p :: p in prices ==> t < p.at;
        prices := [Price(t, rows[t])] + prices;
        left := left - {t};
      }
    }

    method Set(at: nat, usd: real)
      modifies this
      ensures rows == old(rows)[at := usd]
    {
      rows := rows[at := usd];
    }
  }

  datatype Reply = Failed | Found(prices: seq<Price>)

  class CachingProvider {
    const cache: PriceCache

    constructor (cache: PriceCache)
      ensures this.cache == cache
    {
      this.cache := cache;
    }

    /** `answer` is what the underlying provider would say; a cache failure is logged and ignored. A query
        the cache can answer never raises "no close price" and never asks the provider; a miss stores the
        provider's price under the instant that was asked for. */
    method GetTokenPrice(start: nat, answer: Option<Price>, readWorks: bool, writeWorks: bool)
        returns (price: Option<Price>)
      modifies cache
      ensures readWorks && (exists at :: IsLatest(old(cache.rows), start, at)) ==>
                && cache.rows == old(cache.rows)
                && exists at :: IsLatest(old(cache.rows), start, at) && price == Some(Price(start, old(cache.rows)[at]))
      ensures !readWorks || !(exists at :: IsLatest(old(cache.rows), start, at)) ==>
                && price == answer
                && cache.rows == if answer.Some? && writeWorks
                                 then old(cache.rows)[start := answer.value.usd] else old(cache.rows)
    {
      var cachedPrices: seq<Price> := [];
      if readWorks {
        cachedPrices := cache.GetPricesByTimeRange(start - PROXIMITY_MS, start);
        RangeHasLatest(cache.rows, start, cachedPrices);
      }
      if |cachedPrices| > 0 {
        var closest := FindClosestPrice(cachedPrices, start);
        return Some(Price(start, closest.value.usd));
      }
      price := answer;
      if price.Some? && writeWorks {
        cache.Set(start, price.value.usd);
      }
    }

    /** Asked again after a miss that was stored, the provider gives the same dollar price, whatever the
        source would answer now. */
    method AskTwice(start: nat, first: Option<Price>, second: Option<Price>)
        returns (a: Option<Price>, b: Option<Price>)
      requires !(exists at :: IsLatest(cache.rows, start, at))
      modifies cache
      ensures a == first
      ensures first.Some? ==> b == Some(Price(start, first.value.usd))
      ensures first.None? ==> b == second
    {
      a := GetTokenPrice(start, first, true, true);
      if first.Some? {
        assert IsLatest(cache.rows, start, start);
      }
      b := GetTokenPrice(start, second, true, true);
    }
  }

  lemma RangeHasLatest(rows: map<nat, real>, start: nat, prices: seq<Price>)
    requires IsRangeOf(rows, start - PROXIMITY_MS, start, prices) && SortedByTime(prices)
    ensures prices == [] <==> !(exists at :: IsLatest(rows, start, at))
    ensures prices != [] ==>
              Closest(prices, start) == Some(prices[|prices| - 1]) && IsLatest(rows, start, prices[|prices| - 1].at)
  {
    assert forall t :: t in rows && start - PROXIMITY_MS <= t <= start ==> Price(t, rows[t]) in prices;
    if prices != [] {
      var n := |prices| - 1;
      var last := prices[n];
      assert last in prices && prices[0] in prices;
      forall t | t in rows && t <= start ensures t <= last.at {
        assert t >= start - PROXIMITY_MS ==> Price(t, rows[t]) in prices;
      }
      assert IsLatest(rows, start, last.at);
    }
  }

  // ---------------------------------------------------------------- fetching a long range

  datatype Piece = Piece(from: int, to: int)

  /** The pieces cover the range end to end, none of them empty and none longer than `limit`. */
  ghost predicate Tiles(pieces: seq<Piece>, from: int, to: int, limit: int) {
    && pieces != []
    && pieces[0].from == from && pieces[|pieces| - 1].to == to
    && (forall i :: 0 <= i < |pieces| ==> pieces[i].from < pieces[i].to <= pieces[i].from + limit)
    && (forall i :: 0 < i < |pieces| ==> pieces[i].from == pieces[i - 1].to)
  }

  /** The ranges requested for the earliest and the latest timestamp: one request up to ninety days, and
      otherwise pieces of at most eighty-eight. */
  method PlanRequests(earliest: int, latest: int) returns (pieces: seq<Piece>)
    requires earliest <= latest
    ensures var to := if latest - earliest < 3_600_000 then earliest + 3_600_000 else latest;
            if to - earliest > 90 * 86_400_000 then Tiles(pieces, earliest, to, 88 * 86_400_000)
            else pieces == [Piece(earliest, to)]
  {
    var effectiveMax := if latest - earliest < MIN_GRANULARITY_MS then earliest + MIN_GRANULARITY_MS else latest;
    if effectiveMax - earliest <= NINETY_DAYS_MS {
      return [Piece(earliest, effectiveMax)];
    }
    pieces := [];
    var currentStart := earliest;
    while currentStart < effectiveMax
      invariant currentStart <= effectiveMax
      invariant if pieces == [] then currentStart == earliest else Tiles(pieces, earliest, currentStart, SEGMENT_MS)
    {
      var currentEnd := if currentStart + SEGMENT_MS < effectiveMax then currentStart + SEGMENT_MS else effectiveMax;
      pieces := pieces + [Piece(currentStart, currentEnd)];
      currentStart := currentEnd;
    }
  }

  /** `results.flat()` */
  function Flat(responses: seq<seq<Price>>): seq<Price> {
    if responses == [] then [] else Flat(responses[..|responses| - 1]) + responses[|responses| - 1]
  }

  lemma {:induction false} FlatHasAll(responses: seq<seq<Price>>)
    ensures forall p :: p in Flat(responses) <==> exists i :: 0 <= i < |responses| && p in responses[i]
  {
    if responses != [] {
      var front, last := responses[..|responses| - 1], responses[|responses| - 1];
      FlatHasAll(front);
      forall p ensures p in Flat(responses) <==> exists i :: 0 <= i < |responses| && p in responses[i] {
        if p in last {
          assert p in responses[|responses| - 1];
        }
        if p in Flat(front) {
          var i :| 0 <= i < |front| && p in front[i];
          assert p in responses[i];
        }
        if i :| 0 <= i < |responses| && p in responses[i] {
          assert i < |front| ==> p in front[i];
        }
      }
    }
  }

  ghost predicate Answers(response: seq<Price>, piece: Piece) {
    SortedByTime(response) && forall p :: p in response ==> piece.from <= p.at <= piece.to
  }

  /** If each response is sorted and stays within its piece, the merged result is sorted, which is what
      the search for the closest price needs. */
  lemma {:induction false} MergedIsSorted(pieces: seq<Piece>, responses: seq<seq<Price>>, from: int, to: int,
                                          limit: int)
    requires Tiles(pieces, from, to, limit) && |responses| == |pieces|
    requires forall i :: 0 <= i < |pieces| ==> Answers(responses[i], pieces[i])
    ensures SortedByTime(Flat(responses))
    ensures forall p :: p in Flat(responses) ==> from <= p.at <= to
    ensures forall p :: p in Flat(responses) <==> exists i :: 0 <= i < |responses| && p in responses[i]
  {
    FlatHasAll(responses);
    var n := |pieces| - 1;
    var front, last := responses[..n], responses[n];
    if n == 0 {
      assert Flat(front) == [];
      assert Flat(responses) == [] + last == last;
    } else {
      MergedIsSorted(pieces[..n], front, from, pieces[n - 1].to, limit);
      PiecesAscend(pieces, from, to, limit);
      var merged := Flat(front);
      forall i, j | 0 <= i < j < |merged + last| ensures (merged + last)[i].at <= (merged + last)[j].at {
        if i < |merged| <= j {
          assert merged[i] in merged && last[j - |merged|] in last;
        }
      }
    }
  }

  lemma {:induction false} PiecesAscend(pieces: seq<Piece>, from: int, to: int, limit: int)
    requires Tiles(pieces, from, to, limit)
    ensures from <= pieces[|pieces| - 1].from
  {
    var n := |pieces| - 1;
    if n > 0 {
      PiecesAscend(pieces[..n], from, pieces[n - 1].to, limit);
    }
  }
}
