/** What every match route does with its candidates once scored: the distance
    rounded to hundredths (`Math.round(d * 100) / 100`), a stable ascending sort on it,
    and `slice(0, limit)`.  Distances are computed from squared integer distances, so
    the rounded distance is an integer number of hundredths obtained with an integer
    square root. */
module Ranking {
  import opened Wrappers
  import opened StableSort
  import opened Lists

  lemma SquareMono(x: nat, y: nat)
    requires x <= y
    ensures x * x <= y * y
  {
    assert x * x <= x * y <= y * y;
  }

  /** The integer square root. */
  function ISqrt(n: nat): (r: nat)
    ensures r * r <= n < (r + 1) * (r + 1)
    decreases n
  {
    if n < 4 then (if n == 0 then 0 else 1)
    else
      var q := ISqrt(n / 4);
      HalvedRoot(n, q);
      if (2 * q + 1) * (2 * q + 1) <= n then 2 * q + 1 else 2 * q
  }

  lemma HalvedRoot(n: nat, q: nat)
    requires q * q <= n / 4 < (q + 1) * (q + 1)
    ensures (2 * q) * (2 * q) <= n < (2 * q + 2) * (2 * q + 2)
  {
    assert (2 * q) * (2 * q) == 4 * (q * q);
    assert (2 * q + 2) * (2 * q + 2) == 4 * ((q + 1) * (q + 1));
  }

  lemma ISqrtMono(a: nat, b: nat)
    requires a <= b
    ensures ISqrt(a) <= ISqrt(b)
  {
    var ra, rb := ISqrt(a), ISqrt(b);
    if ra > rb {
      SquareMono(rb + 1, ra);
    }
  }

  /** `Math.round(Math.sqrt(d) * 100)`, for a squared distance `d`, in hundredths:
      `k` is the integer nearest to `100 * sqrt(d)`, halves rounded up. */
  function Hundredths(d: nat): (k: nat)
    ensures 40000 * d < (2 * k + 1) * (2 * k + 1)
    ensures k > 0 ==> (2 * k - 1) * (2 * k - 1) <= 40000 * d
  {
    var r := ISqrt(40000 * d);
    HalfRoot(r);
    (r + 1) / 2
  }

  /** Halving an odd or even root to the nearest integer keeps it within a half. */
  lemma HalfRoot(r: nat)
    ensures var k := (r + 1) / 2;
      (r + 1) * (r + 1) <= (2 * k + 1) * (2 * k + 1)
      && (k > 0 ==> (2 * k - 1) * (2 * k - 1) <= r * r)
  {
    var k := (r + 1) / 2;
    SquareMono(r + 1, 2 * k + 1);
    if k > 0 {
      SquareMono(2 * k - 1, r);
    }
  }

  /** A greater distance never rounds to a smaller one; equal rounded distances can
      come from different distances, which is why ties matter. */
  lemma HundredthsMono(d1: nat, d2: nat)
    requires d1 <= d2
    ensures Hundredths(d1) <= Hundredths(d2)
  {
    ISqrtMono(40000 * d1, 40000 * d2);
  }

  /** A candidate with its rounded distance. */
  datatype Scored<T> = Scored(item: T, distance: nat)

  /** `(a, b) => a.distance - b.distance`, as a `<= 0` test. */
  predicate ByDistance<T>(a: Scored<T>, b: Scored<T>) { a.distance <= b.distance }

  lemma ByDistancePreorder<T(!new)>()
    ensures TotalPreorder(ByDistance<T>)
  {
  }

  /** `scored.sort(byDistance); scored.slice(0, limit)` */
  function Rank<T>(scored: seq<Scored<T>>, limit: int): (r: seq<Scored<T>>)
    ensures 0 <= limit ==> |r| == if limit < |scored| then limit else |scored|
    ensures multiset(r) <= multiset(scored)
  {
    TopK(scored, ByDistance, limit)
  }

  /** What a match route promises: results in ascending distance, and no dropped
      candidate nearer than a kept one. */
  lemma RankOrdered<T(!new)>(scored: seq<Scored<T>>, limit: int)
    ensures Sorted(Rank(scored, limit), ByDistance)
    ensures forall x, y | x in Rank(scored, limit) && y in multiset(scored) - multiset(Rank(scored, limit)) ::
      x.distance <= y.distance
  {
    var r := Rank(scored, limit);
    ByDistancePreorder<T>();
    TopKOrdered(scored, ByDistance, limit);
    assert r == TopK(scored, ByDistance, limit);
    forall x, y | x in r && y in multiset(scored) - multiset(r) ensures x.distance <= y.distance {
      assert ByDistance(x, y);
    }
  }

  /** Every result is one of the scored candidates. */
  lemma RankFrom<T>(scored: seq<Scored<T>>, limit: int, k: nat)
    requires k < |Rank(scored, limit)|
    ensures Rank(scored, limit)[k] in scored
  {
    assert Rank(scored, limit)[k] in multiset(Rank(scored, limit));
  }

  /** Among candidates at the same rounded distance the pool order is kept. */
  lemma RankStable<T(!new)>(scored: seq<Scored<T>>, p: Scored<T>)
    ensures TiedWith(Sort(scored, ByDistance), p, ByDistance) == TiedWith(scored, p, ByDistance)
  {
    ByDistancePreorder<T>();
    SortStable(scored, p, ByDistance);
  }

  /** `cands.filter(Boolean)`, sorted and sliced: the routes that drop candidates. */
  function RankCandidates<T>(cands: seq<Option<Scored<T>>>, limit: int): (r: seq<Scored<T>>)
    ensures 0 <= limit ==> |r| == Min(limit, |Collect(cands)|)
  {
    Rank(Collect(cands), limit)
  }

  /** Every result is a candidate the map kept, and they come nearest first. */
  lemma RankCandidatesFacts<T(!new)>(cands: seq<Option<Scored<T>>>, limit: int)
    ensures Sorted(RankCandidates(cands, limit), ByDistance)
    ensures forall k | 0 <= k < |RankCandidates(cands, limit)| :: Some(RankCandidates(cands, limit)[k]) in cands
  {
    var c := Collect(cands);
    var r := Rank(c, limit);
    RankOrdered(c, limit);
    forall k | 0 <= k < |r| ensures Some(r[k]) in cands {
      assert r[k] in multiset(c);
    }
  }
}
