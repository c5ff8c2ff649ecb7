/** The Pareto frontier of measured points over two metrics that may each be better high or
    low: what is on it, in what order, and that it is its own frontier. */
module Pareto {
  import opened Prelude

  /** A metric and which direction of it is better. */
  datatype Metric = Metric(key: string, higherIsBetter: bool)

  /** One configuration under one workload, with the medians it was measured at. */
  datatype Point = Point(config: string, workload: string, medians: map<string, real>)

  function ValueOf(p: Point, key: string): Option<real> {
    if key in p.medians then Some(p.medians[key]) else None
  }

  /** The value turned so that larger is better. */
  function Oriented(p: Point, m: Metric): real {
    if m.key !in p.medians then 0.0
    else if m.higherIsBetter then p.medians[m.key] else -p.medians[m.key]
  }

  predicate Usable(p: Point, x: Metric, y: Metric) {
    ValueOf(p, x.key).Some? && ValueOf(p, y.key).Some?
  }

  /** At least as good on both axes and better on one. */
  predicate Dominates(q: Point, p: Point, x: Metric, y: Metric) {
    && Oriented(q, x) >= Oriented(p, x) && Oriented(q, y) >= Oriented(p, y)
    && (Oriented(q, x) > Oriented(p, x) || Oriented(q, y) > Oriented(p, y))
  }

  function UsableOf(points: seq<Point>, x: Metric, y: Metric): (r: seq<Point>)
    ensures forall p :: p in r <==> p in points && Usable(p, x, y)
    decreases |points|
  {
    if points == [] then []
    else (if Usable(points[0], x, y) then [points[0]] else []) + UsableOf(points[1..], x, y)
  }

  predicate Dominated(p: Point, among: seq<Point>, x: Metric, y: Metric) {
    exists q :: q in among && Dominates(q, p, x, y)
  }

  function Undominated(points: seq<Point>, among: seq<Point>, x: Metric, y: Metric): (r: seq<Point>)
    ensures forall p :: p in r <==> p in points && !Dominated(p, among, x, y)
    decreases |points|
  {
    if points == [] then []
    else
      (if Dominated(points[0], among, x, y) then [] else [points[0]]) + Undominated(points[1..], among, x, y)
  }

  /** The order of the chart: the first axis, then the second, as measured. */
  predicate Before(p: Point, q: Point, x: Metric, y: Metric) {
    var (px, qx) := (Raw(p, x), Raw(q, x));
    px < qx || (px == qx && Raw(p, y) <= Raw(q, y))
  }

  function Raw(p: Point, m: Metric): real {
    if m.key in p.medians then p.medians[m.key] else 0.0
  }

  /** A stable insertion: before the first point that is not earlier. */
  function Insert(p: Point, sorted: seq<Point>, x: Metric, y: Metric): (r: seq<Point>)
    ensures |r| == |sorted| + 1 && forall q :: q in r <==> q == p || q in sorted
    decreases |sorted|
  {
    if sorted == [] || Before(p, sorted[0], x, y) then [p] + sorted
    else
      var r := [sorted[0]] + Insert(p, sorted[1..], x, y);
      assert sorted == [sorted[0]] + sorted[1..];
      r
  }

  function Sort(points: seq<Point>, x: Metric, y: Metric): (r: seq<Point>)
    ensures |r| == |points| && forall q :: q in r <==> q in points
    decreases |points|
  {
    if points == [] then [] else Insert(points[0], Sort(points[1..], x, y), x, y)
  }

  function Frontier(points: seq<Point>, x: Metric, y: Metric): seq<Point> {
    var usable := UsableOf(points, x, y);
    Sort(Undominated(usable, usable, x, y), x, y)
  }

  // ---- Sorting ------------------------------------------------------------------------------

  ghost predicate InOrder(s: seq<Point>, x: Metric, y: Metric) {
    forall i, j :: 0 <= i < j < |s| ==> Before(s[i], s[j], x, y)
  }

  lemma {:induction false} InsertKeepsOrder(p: Point, s: seq<Point>, x: Metric, y: Metric)
    requires InOrder(s, x, y)
    ensures InOrder(Insert(p, s, x, y), x, y)
    decreases |s|
  {
    if s != [] && !Before(p, s[0], x, y) {
      InsertKeepsOrder(p, s[1..], x, y);
      assert s == [s[0]] + s[1..];
      OrderCons(s[0], p, s[1..], Insert(p, s[1..], x, y), x, y);
    }
  }

  lemma {:induction false} OrderCons(first: Point, p: Point, s: seq<Point>, rest: seq<Point>, x: Metric, y: Metric)
    requires InOrder([first] + s, x, y) && InOrder(rest, x, y) && Before(first, p, x, y)
    requires forall q :: q in rest ==> q == p || q in s
    ensures InOrder([first] + rest, x, y)
  {
    forall j | 0 <= j < |rest| ensures Before(first, rest[j], x, y) {
      assert rest[j] in rest;
      if rest[j] != p {
        var k :| 0 <= k < |s| && s[k] == rest[j];
        assert Before(([first] + s)[0], ([first] + s)[k + 1], x, y);
      }
    }
  }

  lemma {:induction false} InsertKeepsPoints(p: Point, s: seq<Point>, x: Metric, y: Metric)
    ensures multiset(Insert(p, s, x, y)) == multiset(s) + multiset{p}
    decreases |s|
  {
    if s != [] && !Before(p, s[0], x, y) {
      InsertKeepsPoints(p, s[1..], x, y);
      assert s == [s[0]] + s[1..];
    }
  }

  lemma {:induction false} SortIsASort(points: seq<Point>, x: Metric, y: Metric)
    ensures InOrder(Sort(points, x, y), x, y) && multiset(Sort(points, x, y)) == multiset(points)
    decreases |points|
  {
    if points != [] {
      SortIsASort(points[1..], x, y);
      InsertKeepsOrder(points[0], Sort(points[1..], x, y), x, y);
      InsertKeepsPoints(points[0], Sort(points[1..], x, y), x, y);
      assert points == [points[0]] + points[1..];
    }
  }

  lemma {:induction false} SortedStaysPut(s: seq<Point>, x: Metric, y: Metric)
    requires InOrder(s, x, y)
    ensures Sort(s, x, y) == s
    decreases |s|
  {
    if s != [] {
      SortedStaysPut(s[1..], x, y);
      assert s == [s[0]] + s[1..];
    }
  }

  // ---- The frontier --------------------------------------------------------------------------

  /** Exactly the points measured on both axes for which no such point has, on each axis, a
      median at least as good in that axis's direction and another one on either; ties and
      duplicates are kept. */
  lemma {:induction false} FrontierIs(points: seq<Point>, x: Metric, y: Metric, p: Point)
    ensures p in Frontier(points, x, y) <==>
      && p in points && x.key in p.medians && y.key in p.medians
      && forall q :: q in points && x.key in q.medians && y.key in q.medians ==>
           !(&& (if x.higherIsBetter then q.medians[x.key] >= p.medians[x.key] else q.medians[x.key] <= p.medians[x.key])
             && (if y.higherIsBetter then q.medians[y.key] >= p.medians[y.key] else q.medians[y.key] <= p.medians[y.key])
             && (q.medians[x.key] != p.medians[x.key] || q.medians[y.key] != p.medians[y.key]))
    ensures p in Frontier(points, x, y) ==> multiset(Frontier(points, x, y))[p] == multiset(points)[p]
  {
    FrontierCounts(points, x, y, p);
    if Usable(p, x, y) { UndominatedIff(points, UsableOf(points, x, y), x, y, p); }
  }

  lemma {:induction false} UndominatedIff(points: seq<Point>, usable: seq<Point>, x: Metric, y: Metric, p: Point)
    requires Usable(p, x, y) && forall q :: q in usable <==> q in points && Usable(q, x, y)
    ensures !Dominated(p, usable, x, y) <==>
      forall q :: q in points && x.key in q.medians && y.key in q.medians ==>
        !(&& (if x.higherIsBetter then q.medians[x.key] >= p.medians[x.key] else q.medians[x.key] <= p.medians[x.key])
          && (if y.higherIsBetter then q.medians[y.key] >= p.medians[y.key] else q.medians[y.key] <= p.medians[y.key])
          && (q.medians[x.key] != p.medians[x.key] || q.medians[y.key] != p.medians[y.key]))
  {
    if Dominated(p, usable, x, y) {
      var q :| q in usable && Dominates(q, p, x, y);
      DominatesIff(q, p, x, y);
    } else {
      forall q | q in points && x.key in q.medians && y.key in q.medians
        ensures !(&& (if x.higherIsBetter then q.medians[x.key] >= p.medians[x.key] else q.medians[x.key] <= p.medians[x.key])
                  && (if y.higherIsBetter then q.medians[y.key] >= p.medians[y.key] else q.medians[y.key] <= p.medians[y.key])
                  && (q.medians[x.key] != p.medians[x.key] || q.medians[y.key] != p.medians[y.key]))
      {
        DominatesIff(q, p, x, y);
      }
    }
  }

  lemma {:induction false} DominatesIff(q: Point, p: Point, x: Metric, y: Metric)
    requires Usable(p, x, y) && Usable(q, x, y)
    ensures Dominates(q, p, x, y) <==>
      && (if x.higherIsBetter then q.medians[x.key] >= p.medians[x.key] else q.medians[x.key] <= p.medians[x.key])
      && (if y.higherIsBetter then q.medians[y.key] >= p.medians[y.key] else q.medians[y.key] <= p.medians[y.key])
      && (q.medians[x.key] != p.medians[x.key] || q.medians[y.key] != p.medians[y.key])
  {
  }

  lemma {:induction false} FrontierCounts(points: seq<Point>, x: Metric, y: Metric, p: Point)
    ensures p in Frontier(points, x, y) <==> p in UsableOf(points, x, y) && !Dominated(p, UsableOf(points, x, y), x, y)
    ensures p in Frontier(points, x, y) ==> multiset(Frontier(points, x, y))[p] == multiset(points)[p]
  {
    var usable := UsableOf(points, x, y);
    SortIsASort(Undominated(usable, usable, x, y), x, y);
    if p in Frontier(points, x, y) {
      CountUndominated(usable, usable, x, y, p);
      CountUsable(points, x, y, p);
    }
  }

  lemma {:induction false} CountUsable(points: seq<Point>, x: Metric, y: Metric, p: Point)
    requires Usable(p, x, y)
    ensures multiset(UsableOf(points, x, y))[p] == multiset(points)[p]
    decreases |points|
  {
    if points != [] {
      CountUsable(points[1..], x, y, p);
      assert points == [points[0]] + points[1..];
    }
  }

  lemma {:induction false} CountUndominated(points: seq<Point>, among: seq<Point>, x: Metric, y: Metric, p: Point)
    requires !Dominated(p, among, x, y)
    ensures multiset(Undominated(points, among, x, y))[p] == multiset(points)[p]
    decreases |points|
  {
    if points != [] {
      CountUndominated(points[1..], among, x, y, p);
      assert points == [points[0]] + points[1..];
    }
  }

  function Dominators(p: Point, usable: seq<Point>, x: Metric, y: Metric): set<Point> {
    set q | q in usable && Dominates(q, p, x, y)
  }

  /** Climbing from a dominated point ends, and it ends on the frontier. */
  lemma {:induction false} Climb(p: Point, usable: seq<Point>, x: Metric, y: Metric) returns (top: Point)
    requires Dominated(p, usable, x, y)
    ensures top in usable && Dominates(top, p, x, y) && !Dominated(top, usable, x, y)
    decreases |Dominators(p, usable, x, y)|
  {
    var q :| q in usable && Dominates(q, p, x, y);
    if Dominated(q, usable, x, y) {
      assert Dominators(q, usable, x, y) <= Dominators(p, usable, x, y) - {q};
      Shrinks(Dominators(q, usable, x, y), Dominators(p, usable, x, y), q);
      top := Climb(q, usable, x, y);
    } else {
      top := q;
    }
  }

  lemma {:induction false} Shrinks(a: set<Point>, b: set<Point>, q: Point)
    requires q in b && a <= b - {q}
    ensures |a| < |b|
    decreases |a|
  {
    if a != {} {
      var r :| r in a;
      Shrinks(a - {r}, b - {r}, q);
    }
  }

  /** Every point measured on both axes is on the frontier, or a point on it has medians at least
      as good on each axis and another one on either. */
  lemma {:induction false} FrontierCovers(points: seq<Point>, x: Metric, y: Metric, p: Point)
    requires p in points && x.key in p.medians && y.key in p.medians
    ensures p in Frontier(points, x, y) || exists top ::
      && top in Frontier(points, x, y) && x.key in top.medians && y.key in top.medians
      && (if x.higherIsBetter then top.medians[x.key] >= p.medians[x.key] else top.medians[x.key] <= p.medians[x.key])
      && (if y.higherIsBetter then top.medians[y.key] >= p.medians[y.key] else top.medians[y.key] <= p.medians[y.key])
      && (top.medians[x.key] != p.medians[x.key] || top.medians[y.key] != p.medians[y.key])
  {
    var usable := UsableOf(points, x, y);
    if Dominated(p, usable, x, y) {
      var top := Climb(p, usable, x, y);
      assert top in Frontier(points, x, y);
    }
  }

  lemma {:induction false} KeptWhole(s: seq<Point>, x: Metric, y: Metric)
    requires forall p :: p in s ==> Usable(p, x, y)
    ensures UsableOf(s, x, y) == s
    decreases |s|
  {
    if s != [] {
      KeptWhole(s[1..], x, y);
      assert s == [s[0]] + s[1..];
    }
  }

  lemma {:induction false} KeptUndominated(s: seq<Point>, among: seq<Point>, x: Metric, y: Metric)
    requires forall p :: p in s ==> !Dominated(p, among, x, y)
    ensures Undominated(s, among, x, y) == s
    decreases |s|
  {
    if s != [] {
      KeptUndominated(s[1..], among, x, y);
      assert s == [s[0]] + s[1..];
    }
  }

  /** The frontier of a frontier is that frontier, in the same order. */
  lemma {:induction false} FrontierIsFixed(points: seq<Point>, x: Metric, y: Metric)
    ensures Frontier(Frontier(points, x, y), x, y) == Frontier(points, x, y)
  {
    var f := Frontier(points, x, y);
    var usable := UsableOf(points, x, y);
    KeptWhole(f, x, y);
    KeptUndominated(f, f, x, y);
    SortIsASort(Undominated(usable, usable, x, y), x, y);
    SortedStaysPut(f, x, y);
  }

  /** Along the chart the first axis rises and the second goes one way: down when both axes are
      better in the same direction, up when they are not. Points level on one axis are level
      on both. */
  lemma {:induction false} FrontierIsMonotone(points: seq<Point>, x: Metric, y: Metric, i: nat, j: nat)
    requires i < j < |Frontier(points, x, y)|
    ensures var (p, q) := (Frontier(points, x, y)[i].medians, Frontier(points, x, y)[j].medians);
            && x.key in p && x.key in q && y.key in p && y.key in q
            && p[x.key] <= q[x.key]
            && (if x.higherIsBetter == y.higherIsBetter then q[y.key] <= p[y.key] else p[y.key] <= q[y.key])
            && (p[x.key] == q[x.key] <==> p[y.key] == q[y.key])
  {
    var f := Frontier(points, x, y);
    var usable := UsableOf(points, x, y);
    SortIsASort(Undominated(usable, usable, x, y), x, y);
    assert f[i] in f && f[j] in f;
    assert !Dominates(f[i], f[j], x, y) && !Dominates(f[j], f[i], x, y);
  }
}
