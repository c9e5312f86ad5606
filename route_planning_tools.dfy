/** The route-planning tools: the per-mode cost estimate, the composite
    score, and the optimizer that orders routes by that score and marks the
    top three. The great-circle distance tool is a parameter of the agent. */
module RoutePlanningTools {
  import opened Wrappers
  import opened Numeric
  import opened RouteRecord

  // ---------------------------------------------------------------------
  // DistanceCalculatorTool

  /** A great-circle distance in kilometres. */
  type Km = d: real | d >= 0.0

  /** `DistanceCalculatorTool.calculate(lat1, lng1, lat2, lng2)`; the
      haversine formula itself is not modelled, only that the result is a
      non-negative number of kilometres. */
  type DistanceTool = (real, real, real, real) -> Km

  // ---------------------------------------------------------------------
  // CostEstimatorTool

  /** `base_costs.get(mode, 1.0)`: cost per km per unit. */
  function CostPerKm(mode: string): (rate: real)
    ensures rate > 0.0
  {
    if mode == "air" then 2.5
    else if mode == "sea" then 0.5
    else if mode == "land" then 1.0
    else 1.0
  }

  /** `CostEstimatorTool.estimate`. */
  function Estimate(distance: real, mode: string, quantity: int, riskMultiplier: real): (cost: real)
    ensures distance >= 0.0 && quantity >= 0 && riskMultiplier >= 0.0 ==> cost >= 0.0
    ensures distance == 0.0 || quantity == 0 || riskMultiplier == 0.0 ==> cost == 0.0
  {
    var baseCost := distance * CostPerKm(mode) * quantity as real * 0.01;
    baseCost * riskMultiplier
  }

  /** The rate table: air 2.5, sea 0.5, land 1.0, and any other mode is
      priced like land. */
  lemma EstimateRates(distance: real, mode: string, quantity: int, riskMultiplier: real)
    ensures Estimate(distance, "air", quantity, riskMultiplier) == distance * 2.5 * quantity as real * 0.01 * riskMultiplier
    ensures Estimate(distance, "sea", quantity, riskMultiplier) == distance * 0.5 * quantity as real * 0.01 * riskMultiplier
    ensures Estimate(distance, "land", quantity, riskMultiplier) == distance * quantity as real * 0.01 * riskMultiplier
    ensures mode !in {"air", "sea", "land"} ==>
              Estimate(distance, mode, quantity, riskMultiplier) == Estimate(distance, "land", quantity, riskMultiplier)
  {
  }

  /** For a fixed mode and a non-negative multiplier the estimate grows with
      distance and with quantity. */
  lemma EstimateMonotone(d1: real, d2: real, mode: string, q1: int, q2: int, riskMultiplier: real)
    requires 0.0 <= d1 <= d2 && 0 <= q1 <= q2 && riskMultiplier >= 0.0
    ensures Estimate(d1, mode, q1, riskMultiplier) <= Estimate(d2, mode, q2, riskMultiplier)
  {
    var c := CostPerKm(mode) * 0.01 * riskMultiplier;
    assert c >= 0.0;
    assert Estimate(d1, mode, q1, riskMultiplier) == c * (d1 * q1 as real);
    assert Estimate(d2, mode, q2, riskMultiplier) == c * (d2 * q2 as real);
    assert d1 * q1 as real <= d2 * q1 as real <= d2 * q2 as real;
  }

  /** The estimate is linear in the risk multiplier. */
  lemma EstimateLinearInMultiplier(distance: real, mode: string, quantity: int, m: real, k: real)
    ensures Estimate(distance, mode, quantity, k * m) == k * Estimate(distance, mode, quantity, m)
  {
  }

  // ---------------------------------------------------------------------
  // RouteOptimizerTool

  const CostWeight: real := 0.6
  const RiskWeight: real := 0.4
  const CostCeiling: real := 10000.0

  /** `calculate_score`: the cost normalised against 10000 and capped at 1,
      weighted 0.6, plus the risk score weighted 0.4. Lower is better. */
  function CalculateScore(totalCost: real, riskScore: real): (s: real)
    ensures 0.0 <= totalCost && 0.0 <= riskScore <= 1.0 ==> 0.0 <= s <= 1.0
    ensures totalCost >= CostCeiling ==> s == CostWeight + RiskWeight * riskScore
  {
    var costScore := MinReal(totalCost / CostCeiling, 1.0);
    costScore * CostWeight + riskScore * RiskWeight
  }

  /** The score never decreases when cost or risk grows. */
  lemma ScoreMonotone(c1: real, c2: real, r1: real, r2: real)
    requires c1 <= c2 && r1 <= r2
    ensures CalculateScore(c1, r1) <= CalculateScore(c2, r2)
  {
  }

  predicate Scored(r: Route)
    reads r`totalCost, r`riskScore
  {
    r.totalCost.Some? && r.riskScore.Some?
  }

  predicate AllScored(rs: seq<Route>)
    reads (set r | r in rs)`totalCost, (set r | r in rs)`riskScore
  {
    forall i :: 0 <= i < |rs| ==> Scored(rs[i])
  }

  /** The sort key of one route; `route["total_cost"]` and
      `route["risk_score"]` must be present. */
  function ScoreOf(r: Route): real
    reads r`totalCost, r`riskScore
    requires Scored(r)
  {
    CalculateScore(r.totalCost.value, r.riskScore.value)
  }

  function ScoresOf(rs: seq<Route>): (keys: seq<real>)
    reads (set r | r in rs)`totalCost, (set r | r in rs)`riskScore
    requires AllScored(rs)
    ensures |keys| == |rs|
    ensures forall i :: 0 <= i < |rs| ==> keys[i] == ScoreOf(rs[i])
  {
    if rs == [] then [] else [ScoreOf(rs[0])] + ScoresOf(rs[1..])
  }

  // The stable sort `sorted(candidate_routes, key=calculate_score)`, stated
  // on positions: the result lists the input positions in output order.

  predicate InRange(p: seq<nat>, n: nat)
  {
    forall i :: 0 <= i < |p| ==> p[i] < n
  }

  /** Position `a` comes before position `b` in a stable sort by `keys`:
      a smaller key, or an equal key and an earlier position. */
  predicate Before(keys: seq<real>, a: nat, b: nat)
    requires a < |keys| && b < |keys|
  {
    keys[a] < keys[b] || (keys[a] == keys[b] && a < b)
  }

  /** The listed positions are in stable sorted order. */
  predicate Ordered(keys: seq<real>, p: seq<nat>)
    requires InRange(p, |keys|)
  {
    forall i, j :: 0 <= i < j < |p| ==> Before(keys, p[i], p[j])
  }

  /** Stable sorted order spelled out: keys never decrease, equal keys keep
      their input order, and no position is listed twice. */
  lemma OrderedMeans(keys: seq<real>, p: seq<nat>)
    requires InRange(p, |keys|) && Ordered(keys, p)
    ensures forall i, j :: 0 <= i < j < |p| ==> keys[p[i]] <= keys[p[j]]
    ensures forall i, j :: 0 <= i < j < |p| && keys[p[i]] == keys[p[j]] ==> p[i] < p[j]
    ensures forall i, j :: 0 <= i < j < |p| ==> p[i] != p[j]
  {
  }

  lemma OrderedAppend(keys: seq<real>, a: seq<nat>, y: nat)
    requires InRange(a, |keys|) && y < |keys| && Ordered(keys, a)
    requires forall i :: 0 <= i < |a| ==> Before(keys, a[i], y)
    ensures InRange(a + [y], |keys|) && Ordered(keys, a + [y])
  {
    var r := a + [y];
    forall i, j | 0 <= i < j < |r| ensures Before(keys, r[i], r[j]) {
      if j < |a| { assert r[i] == a[i] && r[j] == a[j]; }
    }
  }

  /** Inserts position `x` after all listed positions whose key is not
      greater than its own, scanning from the back. */
  function InsertStable(keys: seq<real>, p: seq<nat>, x: nat): (r: seq<nat>)
    requires x < |keys| && InRange(p, x)
    ensures |r| == |p| + 1 && InRange(r, x + 1)
    ensures multiset(r) == multiset(p) + multiset{x}
    decreases |p|
  {
    if p == [] then [x]
    else
      var last := p[|p| - 1];
      if keys[last] <= keys[x] then p + [x]
      else
        var front := p[..|p| - 1];
        assert p == front + [last];
        InsertStable(keys, front, x) + [last]
  }

  lemma {:induction false} InsertStableOrdered(keys: seq<real>, p: seq<nat>, x: nat)
    requires x < |keys| && InRange(p, x) && Ordered(keys, p)
    ensures Ordered(keys, InsertStable(keys, p, x))
    decreases |p|
  {
    if p != [] {
      var last := p[|p| - 1];
      if keys[last] <= keys[x] {
        forall i | 0 <= i < |p| ensures Before(keys, p[i], x) {
          if i < |p| - 1 { assert Before(keys, p[i], last); }
        }
        OrderedAppend(keys, p, x);
      } else {
        var front := p[..|p| - 1];
        InsertStableOrdered(keys, front, x);
        var ins := InsertStable(keys, front, x);
        forall i | 0 <= i < |ins| ensures Before(keys, ins[i], last) {
          assert ins[i] in multiset(ins);
          if ins[i] != x {
            var j :| 0 <= j < |front| && front[j] == ins[i];
            assert Before(keys, p[j], p[|p| - 1]);
          }
        }
        OrderedAppend(keys, ins, last);
      }
    }
  }

  function Positions(n: nat): (p: seq<nat>)
    ensures |p| == n && forall i :: 0 <= i < n ==> p[i] == i
  {
    if n == 0 then [] else Positions(n - 1) + [n - 1]
  }

  /** `sorted(...)` on the first `n` positions: every position once, in
      stable key order. */
  function SortIndices(keys: seq<real>, n: nat): (p: seq<nat>)
    requires n <= |keys|
    ensures |p| == n && InRange(p, n)
    ensures multiset(p) == multiset(Positions(n))
    ensures Ordered(keys, p)
  {
    if n == 0 then []
    else
      var last: nat := n - 1;
      var front := SortIndices(keys, last);
      SortStep(keys, front, last);
      InsertStable(keys, front, last)
  }

  /** Inserting the next position into a sorted arrangement of the earlier
      ones sorts one position more. */
  lemma SortStep(keys: seq<real>, front: seq<nat>, last: nat)
    requires last < |keys| && InRange(front, last) && Ordered(keys, front)
    requires multiset(front) == multiset(Positions(last))
    ensures multiset(InsertStable(keys, front, last)) == multiset(Positions(last + 1))
    ensures Ordered(keys, InsertStable(keys, front, last))
  {
    InsertStableOrdered(keys, front, last);
    assert Positions(last + 1) == Positions(last) + [last];
  }

  function Permute<T>(s: seq<T>, p: seq<nat>): (r: seq<T>)
    requires InRange(p, |s|)
    ensures |r| == |p| && forall k :: 0 <= k < |p| ==> r[k] == s[p[k]]
  {
    seq(|p|, k requires 0 <= k < |p| => s[p[k]])
  }

  /** The sorted positions are exactly the positions `0 .. n-1`, each once. */
  lemma SortCovers(keys: seq<real>, n: nat)
    requires n <= |keys|
    ensures forall i :: 0 <= i < n ==> i in SortIndices(keys, n)
  {
    var p := SortIndices(keys, n);
    forall i | 0 <= i < n ensures i in p {
      assert Positions(n)[i] == i;
      assert i in multiset(Positions(n));
    }
  }

  /** Arranging a list by positions that cover it keeps every element. */
  lemma PermuteKeepsAll<T>(s: seq<T>, p: seq<nat>)
    requires InRange(p, |s|) && forall i :: 0 <= i < |s| ==> i in p
    ensures forall x :: x in s ==> x in Permute(s, p)
  {
    forall x | x in s ensures x in Permute(s, p) {
      var i :| 0 <= i < |s| && s[i] == x;
      assert i in p;
      var k :| 0 <= k < |p| && p[k] == i;
      assert Permute(s, p)[k] == x;
    }
  }

  /** Arranging distinct routes by a list of distinct positions gives
      distinct routes. */
  lemma PermuteDistinct(rs: seq<Route>, keys: seq<real>, p: seq<nat>)
    requires Distinct(rs) && |keys| == |rs| && InRange(p, |rs|) && Ordered(keys, p)
    ensures Distinct(Permute(rs, p))
  {
    OrderedMeans(keys, p);
  }

  /** The routes arranged by the sorted positions have non-decreasing
      scores, and routes of equal score keep their input order. */
  lemma PermuteSorted(rs: seq<Route>, p: seq<nat>)
    requires AllScored(rs) && InRange(p, |rs|) && Ordered(ScoresOf(rs), p)
    ensures forall i, j :: 0 <= i < j < |p| ==> ScoreOf(Permute(rs, p)[i]) <= ScoreOf(Permute(rs, p)[j])
    ensures forall i, j :: 0 <= i < j < |p| && ScoreOf(Permute(rs, p)[i]) == ScoreOf(Permute(rs, p)[j]) ==> p[i] < p[j]
  {
    OrderedMeans(ScoresOf(rs), p);
  }

  /** The metadata loop of `optimize`: each route gets its 1-based rank,
      its composite score and whether it is among the first three. Cost,
      risk and duration are not touched. */
  method MarkRanks(routes: seq<Route>)
    requires Distinct(routes) && AllScored(routes)
    modifies routes
    ensures forall r :: r in routes ==>
              r.totalCost == old(r.totalCost) && r.riskScore == old(r.riskScore) && r.estimatedDuration == old(r.estimatedDuration)
    ensures AllScored(routes)
    ensures forall k :: 0 <= k < |routes| ==>
              && routes[k].optimizationRank == Some(k + 1)
              && routes[k].compositeScore == Some(ScoreOf(routes[k]))
              && routes[k].recommended == Some(k < 3)
  {
    var i := 0;
    while i < |routes|
      invariant 0 <= i <= |routes|
      invariant forall r :: r in routes ==>
                  r.totalCost == old(r.totalCost) && r.riskScore == old(r.riskScore) && r.estimatedDuration == old(r.estimatedDuration)
      invariant forall k :: 0 <= k < i ==>
                  && routes[k].optimizationRank == Some(k + 1)
                  && routes[k].compositeScore == Some(ScoreOf(routes[k]))
                  && routes[k].recommended == Some(k < 3)
    {
      var route := routes[i];
      route.optimizationRank := Some(i + 1);
      route.compositeScore := Some(ScoreOf(route));
      route.recommended := Some(i < 3);
      i := i + 1;
    }
  }

  /** `RouteOptimizerTool.optimize`: orders the routes by score, stably, and
      writes rank, score and the top-three flag into each route object, so
      the caller's routes change too. A route without a cost or a risk score
      makes the key function raise before anything is written. */
  method Optimize(candidates: seq<Route>) returns (ok: bool, optimized: seq<Route>, ghost order: seq<nat>)
    requires Distinct(candidates)
    modifies candidates
    ensures ok == old(AllScored(candidates))
    ensures !ok ==> optimized == [] && forall r :: r in candidates ==> unchanged(r)
    ensures forall r :: r in candidates ==>
              r.totalCost == old(r.totalCost) && r.riskScore == old(r.riskScore) && r.estimatedDuration == old(r.estimatedDuration)
    ensures ok ==> AllScored(candidates) && |order| == |candidates| && InRange(order, |candidates|)
    ensures ok ==> optimized == Permute(candidates, order) && Ordered(ScoresOf(candidates), order)
    ensures ok ==> Distinct(optimized) && forall r :: r in candidates <==> r in optimized
    ensures ok ==> forall k :: 0 <= k < |optimized| ==>
              && optimized[k].optimizationRank == Some(k + 1)
              && optimized[k].compositeScore == Some(ScoreOf(optimized[k]))
              && optimized[k].recommended == Some(k < 3)
  {
    if !AllScored(candidates) {
      return false, [], [];
    }
    ok := true;
    var n := |candidates|;
    var keys := ScoresOf(candidates);
    var perm := SortIndices(keys, n);
    order := perm;
    optimized := Permute(candidates, perm);
    SortCovers(keys, n);
    PermuteKeepsAll(candidates, perm);
    PermuteDistinct(candidates, keys, perm);
    assert AllScored(optimized);
    MarkRanks(optimized);
    assert ScoresOf(candidates) == keys;
  }
}
