/** Partitioning runs into comparable groups and measurement points, and the scaling curves
    drawn over points of one configuration family. */
module Grouping {
  import opened Prelude

  /** What two runs must share to stand on one chart. */
  datatype Comparability = Comparability(host: nat, hostName: string, gpuModel: Option<string>,
                                         engineVersion: Option<string>, clientLocation: string)

  datatype PointKey = PointKey(configHash: string, workloadHash: string)

  datatype Record = Record(run: nat, comparability: Comparability, configHash: string, workloadHash: string)

  datatype Point = Point(key: PointKey, runs: seq<Record>)

  datatype Group = Group(key: Comparability, points: seq<Point>)

  function PointKeyOf(r: Record): PointKey {
    PointKey(r.configHash, r.workloadHash)
  }

  function ComparabilityOf(r: Record): Comparability {
    r.comparability
  }

  // ---- Buckets ------------------------------------------------------------------------------

  function Filter(rs: seq<Record>, f: Record -> bool): (r: seq<Record>)
    decreases |rs|
  {
    if rs == [] then []
    else Filter(rs[..|rs| - 1], f) + if f(rs[|rs| - 1]) then [rs[|rs| - 1]] else []
  }

  function Has<K(==)>(key: Record -> K, k: K): Record -> bool {
    r => key(r) == k
  }

  lemma {:induction false} FilterHolds(rs: seq<Record>, f: Record -> bool, r: Record)
    ensures r in Filter(rs, f) <==> r in rs && f(r)
    decreases |rs|
  {
    if rs != [] {
      FilterHolds(rs[..|rs| - 1], f, r);
      assert rs == rs[..|rs| - 1] + [rs[|rs| - 1]];
    }
  }

  lemma {:induction false} FilterOneMore(rs: seq<Record>, i: nat, f: Record -> bool)
    requires i < |rs|
    ensures Filter(rs[..i + 1], f) == Filter(rs[..i], f) + if f(rs[i]) then [rs[i]] else []
  {
    assert rs[..i + 1][..i] == rs[..i];
  }

  ghost predicate DistinctKeys<K>(order: seq<K>) {
    forall i, j :: 0 <= i < j < |order| ==> order[i] != order[j]
  }

  /** Every record is in the bucket of its key and in no other, in the order it came. */
  ghost predicate Buckets<K(!new)>(rs: seq<Record>, key: Record -> K, order: seq<K>, buckets: map<K, seq<Record>>) {
    && DistinctKeys<K>(order)
    && (forall k :: k in buckets <==> k in order)
    && (forall k :: k in buckets ==> buckets[k] == Filter(rs, Has<K>(key, k)))
    && (forall i :: 0 <= i < |rs| ==> key(rs[i]) in buckets)
    && (forall k :: k in buckets ==> buckets[k] != [])
  }

  lemma {:induction false} NoBucketNoRecord<K(!new)>(rs: seq<Record>, key: Record -> K, k: K)
    requires forall i :: 0 <= i < |rs| ==> key(rs[i]) != k
    ensures Filter(rs, Has<K>(key, k)) == []
    decreases |rs|
  {
    if rs != [] { NoBucketNoRecord<K>(rs[..|rs| - 1], key, k); }
  }

  lemma {:induction false} OneMoreInBucket<K(!new)>(rs: seq<Record>, i: nat, key: Record -> K, buckets: map<K, seq<Record>>, l: K)
    requires i < |rs|
    requires forall j :: 0 <= j < |rs[..i]| ==> key(rs[..i][j]) in buckets
    requires l in buckets ==> buckets[l] == Filter(rs[..i], Has<K>(key, l))
    requires l in buckets || l == key(rs[i])
    ensures Filter(rs[..i + 1], Has<K>(key, l)) ==
      (if l in buckets then buckets[l] else []) + if l == key(rs[i]) then [rs[i]] else []
  {
    FilterOneMore(rs, i, Has<K>(key, l));
    if l !in buckets { NoBucketNoRecord<K>(rs[..i], key, l); }
  }

  /** One more record goes to its bucket, a new one when its key is new. */
  lemma {:induction false} OneMoreRecord<K(!new)>(rs: seq<Record>, i: nat, key: Record -> K, order: seq<K>, buckets: map<K, seq<Record>>,
                                            order': seq<K>, buckets': map<K, seq<Record>>)
    requires i < |rs| && Buckets<K>(rs[..i], key, order, buckets)
    requires order' == if key(rs[i]) in buckets then order else order + [key(rs[i])]
    requires buckets' == buckets[key(rs[i]) := (if key(rs[i]) in buckets then buckets[key(rs[i])] else []) + [rs[i]]]
    ensures Buckets<K>(rs[..i + 1], key, order', buckets')
  {
    forall l | l in buckets' ensures buckets'[l] == Filter(rs[..i + 1], Has<K>(key, l)) && buckets'[l] != [] {
      OneMoreInBucket<K>(rs, i, key, buckets, l);
    }
    var now := rs[..i + 1];
    forall j | 0 <= j < |now| ensures key(now[j]) in buckets' {
      assert j < i ==> now[j] == rs[..i][j];
    }
  }

  method GroupBy<K(==, !new)>(rs: seq<Record>, key: Record -> K) returns (order: seq<K>, buckets: map<K, seq<Record>>)
    ensures Buckets<K>(rs, key, order, buckets)
  {
    order, buckets := [], map[];
    for i := 0 to |rs|
      invariant Buckets<K>(rs[..i], key, order, buckets)
    {
      var k := key(rs[i]);
      ghost var order0, buckets0 := order, buckets;
      if k !in buckets {
        order := order + [k];
        buckets := buckets[k := []];
      }
      buckets := buckets[k := buckets[k] + [rs[i]]];
      OneMoreRecord<K>(rs, i, key, order0, buckets0, order, buckets);
    }
    assert rs[..|rs|] == rs;
  }

  // ---- Groups -------------------------------------------------------------------------------

  ghost predicate DistinctPoints(points: seq<Point>) {
    forall i, j :: 0 <= i < j < |points| ==> points[i].key != points[j].key
  }

  ghost predicate DistinctGroups(groups: seq<Group>) {
    forall i, j :: 0 <= i < j < |groups| ==> groups[i].key != groups[j].key
  }

  /** The points of one group hold exactly its records. */
  ghost predicate PointsOf(rs: seq<Record>, points: seq<Point>) {
    && DistinctPoints(points)
    && (forall i :: 0 <= i < |points| ==> points[i].runs == Filter(rs, Has<PointKey>(PointKeyOf, points[i].key)) && points[i].runs != [])
    && (forall r :: r in rs ==> exists i :: 0 <= i < |points| && points[i].key == PointKeyOf(r))
  }

  ghost predicate GroupsOf(rs: seq<Record>, groups: seq<Group>) {
    && DistinctGroups(groups)
    && (forall i :: 0 <= i < |groups| ==> PointsOf(Filter(rs, Has<Comparability>(ComparabilityOf, groups[i].key)), groups[i].points)
                                          && groups[i].points != [])
    && (forall r :: r in rs ==> exists i :: 0 <= i < |groups| && groups[i].key == ComparabilityOf(r))
  }

  method BuildPoints(rs: seq<Record>) returns (points: seq<Point>)
    ensures PointsOf(rs, points)
  {
    var order, buckets := GroupBy<PointKey>(rs, PointKeyOf);
    points := [];
    for i := 0 to |order|
      invariant |points| == i
      invariant forall j :: 0 <= j < i ==> points[j] == Point(order[j], buckets[order[j]])
    {
      points := points + [Point(order[i], buckets[order[i]])];
    }
    forall r | r in rs ensures exists i :: 0 <= i < |points| && points[i].key == PointKeyOf(r) {
      var n :| 0 <= n < |rs| && rs[n] == r;
      assert PointKeyOf(rs[n]) in order;
      var i :| 0 <= i < |order| && order[i] == PointKeyOf(r);
      assert points[i].key == PointKeyOf(r);
    }
  }

  method CollectGroups(rs: seq<Record>) returns (groups: seq<Group>)
    ensures GroupsOf(rs, groups)
  {
    var order, buckets := GroupBy<Comparability>(rs, ComparabilityOf);
    groups := [];
    for i := 0 to |order|
      invariant |groups| == i
      invariant forall j :: 0 <= j < i ==> groups[j].key == order[j] && PointsOf(buckets[order[j]], groups[j].points)
                                           && groups[j].points != []
    {
      var points := BuildPoints(buckets[order[i]]);
      assert order[i] in order && buckets[order[i]][0] in buckets[order[i]];
      groups := groups + [Group(order[i], points)];
    }
    forall r | r in rs ensures exists i :: 0 <= i < |groups| && groups[i].key == ComparabilityOf(r) {
      var n :| 0 <= n < |rs| && rs[n] == r;
      assert ComparabilityOf(rs[n]) in order;
      var i :| 0 <= i < |order| && order[i] == ComparabilityOf(r);
      assert groups[i].key == ComparabilityOf(r);
    }
  }

  /** A run is in a point exactly when it was given and its comparability key, config hash and
      workload hash are the group's and the point's. */
  lemma {:induction false} InPointIff(rs: seq<Record>, groups: seq<Group>, i: nat, j: nat, r: Record)
    requires GroupsOf(rs, groups) && i < |groups| && j < |groups[i].points|
    ensures r in groups[i].points[j].runs <==>
      r in rs && r.comparability == groups[i].key
      && r.configHash == groups[i].points[j].key.configHash && r.workloadHash == groups[i].points[j].key.workloadHash
  {
    var own := Filter(rs, Has<Comparability>(ComparabilityOf, groups[i].key));
    assert PointsOf(own, groups[i].points);
    FilterHolds(rs, Has<Comparability>(ComparabilityOf, groups[i].key), r);
    FilterHolds(own, Has<PointKey>(PointKeyOf, groups[i].points[j].key), r);
  }

  /** Every run is in exactly one point of exactly one group. */
  lemma {:induction false} ExactlyOnePoint(rs: seq<Record>, groups: seq<Group>, r: Record) returns (i: nat, j: nat)
    requires GroupsOf(rs, groups) && r in rs
    ensures i < |groups| && j < |groups[i].points| && r in groups[i].points[j].runs
    ensures forall k, l :: 0 <= k < |groups| && 0 <= l < |groups[k].points| && r in groups[k].points[l].runs ==> k == i && l == j
  {
    i :| 0 <= i < |groups| && groups[i].key == ComparabilityOf(r);
    var own := Filter(rs, Has<Comparability>(ComparabilityOf, groups[i].key));
    assert PointsOf(own, groups[i].points);
    FilterHolds(rs, Has<Comparability>(ComparabilityOf, groups[i].key), r);
    j :| 0 <= j < |groups[i].points| && groups[i].points[j].key == PointKeyOf(r);
    InPointIff(rs, groups, i, j, r);
    forall k, l | 0 <= k < |groups| && 0 <= l < |groups[k].points| && r in groups[k].points[l].runs ensures k == i && l == j {
      InPointIff(rs, groups, k, l, r);
      assert k == i;
      assert PointsOf(own, groups[i].points);
    }
  }

  /** Two runs share a point exactly when comparability key, config hash and workload hash agree. */
  lemma {:induction false} SharePointIff(rs: seq<Record>, groups: seq<Group>, r: Record, s: Record)
    requires GroupsOf(rs, groups) && r in rs && s in rs
    ensures (exists i, j :: 0 <= i < |groups| && 0 <= j < |groups[i].points|
                            && r in groups[i].points[j].runs && s in groups[i].points[j].runs) <==>
      r.comparability == s.comparability && r.configHash == s.configHash && r.workloadHash == s.workloadHash
  {
    var i, j := ExactlyOnePoint(rs, groups, r);
    InPointIff(rs, groups, i, j, r);
    InPointIff(rs, groups, i, j, s);
    forall k, l | 0 <= k < |groups| && 0 <= l < |groups[k].points|
                  && r in groups[k].points[l].runs && s in groups[k].points[l].runs
      ensures k == i && l == j
    {
    }
  }

  // ---- Conservation ----------------------------------------------------------------------------

  function Any<K(==)>(key: Record -> K, keys: seq<K>): Record -> bool {
    r => key(r) in keys
  }

  function SizeSum<K(==)>(rs: seq<Record>, key: Record -> K, keys: seq<K>): nat
    decreases |keys|
  {
    if keys == [] then 0 else SizeSum<K>(rs, key, keys[1..]) + |Filter(rs, Has<K>(key, keys[0]))|
  }

  lemma {:induction false} FilterSplits(rs: seq<Record>, f: Record -> bool, g: Record -> bool, h: Record -> bool)
    requires forall r :: h(r) <==> f(r) || g(r)
    requires forall r :: !(f(r) && g(r))
    ensures |Filter(rs, h)| == |Filter(rs, f)| + |Filter(rs, g)|
    decreases |rs|
  {
    if rs != [] { FilterSplits(rs[..|rs| - 1], f, g, h); }
  }

  lemma {:induction false} FilterNone(rs: seq<Record>, f: Record -> bool)
    requires forall r :: !f(r)
    ensures Filter(rs, f) == []
    decreases |rs|
  {
    if rs != [] { FilterNone(rs[..|rs| - 1], f); }
  }

  lemma {:induction false} FilterAll(rs: seq<Record>, f: Record -> bool)
    requires forall i :: 0 <= i < |rs| ==> f(rs[i])
    ensures Filter(rs, f) == rs
    decreases |rs|
  {
    if rs != [] {
      FilterAll(rs[..|rs| - 1], f);
      assert rs == rs[..|rs| - 1] + [rs[|rs| - 1]];
    }
  }

  lemma {:induction false} SizesAddUp<K>(rs: seq<Record>, key: Record -> K, keys: seq<K>)
    requires DistinctKeys<K>(keys)
    ensures SizeSum<K>(rs, key, keys) == |Filter(rs, Any<K>(key, keys))|
    decreases |keys|
  {
    if keys == [] {
      FilterNone(rs, Any<K>(key, keys));
    } else {
      SizesAddUp<K>(rs, key, keys[1..]);
      assert keys == [keys[0]] + keys[1..];
      FilterSplits(rs, Has<K>(key, keys[0]), Any<K>(key, keys[1..]), Any<K>(key, keys));
    }
  }

  function PointKeys(points: seq<Point>): (r: seq<PointKey>)
    ensures |r| == |points| && forall i :: 0 <= i < |r| ==> r[i] == points[i].key
  {
    seq(|points|, i requires 0 <= i < |points| => points[i].key)
  }

  function GroupKeys(groups: seq<Group>): (r: seq<Comparability>)
    ensures |r| == |groups| && forall i :: 0 <= i < |r| ==> r[i] == groups[i].key
  {
    seq(|groups|, i requires 0 <= i < |groups| => groups[i].key)
  }

  function RunCount(points: seq<Point>): nat
    decreases |points|
  {
    if points == [] then 0 else RunCount(points[1..]) + |points[0].runs|
  }

  function TotalRuns(groups: seq<Group>): nat
    decreases |groups|
  {
    if groups == [] then 0 else TotalRuns(groups[1..]) + RunCount(groups[0].points)
  }

  lemma {:induction false} RunCountIs(rs: seq<Record>, points: seq<Point>)
    requires forall i :: 0 <= i < |points| ==> points[i].runs == Filter(rs, Has<PointKey>(PointKeyOf, points[i].key))
    ensures RunCount(points) == SizeSum<PointKey>(rs, PointKeyOf, PointKeys(points))
    decreases |points|
  {
    if points != [] {
      RunCountIs(rs, points[1..]);
      assert PointKeys(points)[1..] == PointKeys(points[1..]);
    }
  }

  lemma {:induction false} PointsCover(rs: seq<Record>, points: seq<Point>, r: Record)
    requires PointsOf(rs, points) && r in rs
    ensures PointKeyOf(r) in PointKeys(points)
  {
    var j :| 0 <= j < |points| && points[j].key == PointKeyOf(r);
    assert PointKeys(points)[j] == PointKeyOf(r);
  }

  lemma {:induction false} GroupsCover(rs: seq<Record>, groups: seq<Group>, r: Record)
    requires GroupsOf(rs, groups) && r in rs
    ensures ComparabilityOf(r) in GroupKeys(groups)
  {
    var j :| 0 <= j < |groups| && groups[j].key == ComparabilityOf(r);
    assert GroupKeys(groups)[j] == ComparabilityOf(r);
  }

  lemma {:induction false} PointsKeepEveryRun(rs: seq<Record>, points: seq<Point>)
    requires PointsOf(rs, points)
    ensures RunCount(points) == |rs|
  {
    var keys := PointKeys(points);
    RunCountIs(rs, points);
    SizesAddUp<PointKey>(rs, PointKeyOf, keys);
    forall i | 0 <= i < |rs| ensures Any<PointKey>(PointKeyOf, keys)(rs[i]) {
      PointsCover(rs, points, rs[i]);
    }
    FilterAll(rs, Any<PointKey>(PointKeyOf, keys));
  }

  lemma {:induction false} TotalRunsIs(rs: seq<Record>, groups: seq<Group>)
    requires forall i :: 0 <= i < |groups| ==>
      PointsOf(Filter(rs, Has<Comparability>(ComparabilityOf, groups[i].key)), groups[i].points)
    ensures TotalRuns(groups) == SizeSum<Comparability>(rs, ComparabilityOf, GroupKeys(groups))
    decreases |groups|
  {
    if groups != [] {
      TotalRunsIs(rs, groups[1..]);
      PointsKeepEveryRun(Filter(rs, Has<Comparability>(ComparabilityOf, groups[0].key)), groups[0].points);
      assert GroupKeys(groups)[1..] == GroupKeys(groups[1..]);
    }
  }

  /** The run counts of all groups add up to the number of runs given. */
  lemma {:induction false} NoRunIsLost(rs: seq<Record>, groups: seq<Group>)
    requires GroupsOf(rs, groups)
    ensures TotalRuns(groups) == |rs|
  {
    var keys := GroupKeys(groups);
    TotalRunsIs(rs, groups);
    SizesAddUp<Comparability>(rs, ComparabilityOf, keys);
    forall i | 0 <= i < |rs| ensures Any<Comparability>(ComparabilityOf, keys)(rs[i]) {
      GroupsCover(rs, groups, rs[i]);
    }
    FilterAll(rs, Any<Comparability>(ComparabilityOf, keys));
  }

  // ---- Scaling curves ------------------------------------------------------------------------------

  /** A point of one family and workload at one tensor-parallel width. */
  datatype Width = Width(tp: nat, gpus: nat, perGpu: Option<real>)

  datatype Step = Step(width: Width, speedup: Option<real>, efficiency: Option<real>)

  /** Stable, by width. */
  function InsertWidth(w: Width, s: seq<Width>): (r: seq<Width>)
    ensures multiset(r) == multiset(s) + multiset{w}
    decreases |s|
  {
    if s == [] || w.tp <= s[0].tp then [w] + s
    else
      assert s == [s[0]] + s[1..];
      [s[0]] + InsertWidth(w, s[1..])
  }

  function SortWidths(s: seq<Width>): (r: seq<Width>)
    ensures multiset(r) == multiset(s)
    decreases |s|
  {
    if s == [] then []
    else
      assert s == [s[0]] + s[1..];
      InsertWidth(s[0], SortWidths(s[1..]))
  }

  function Measured(s: seq<Width>): (r: seq<Width>)
    ensures forall w :: w in r <==> w in s && w.perGpu.Some?
    decreases |s|
  {
    if s == [] then [] else (if s[0].perGpu.Some? then [s[0]] else []) + Measured(s[1..])
  }

  function StepOf(w: Width, base: Width): Step
    requires w.perGpu.Some? && base.perGpu.Some?
  {
    if base.perGpu.value == 0.0 then Step(w, None, None)
    else
      var aggregate := w.perGpu.value * w.gpus as real;
      var baseAggregate := base.perGpu.value * base.gpus as real;
      Step(w, if baseAggregate == 0.0 then None else Some(aggregate / baseAggregate), Some(w.perGpu.value / base.perGpu.value))
  }

  function StepsOf(ws: seq<Width>, base: Width): (r: seq<Step>)
    requires base.perGpu.Some? && forall w :: w in ws ==> w.perGpu.Some?
    ensures |r| == |ws| && forall i :: 0 <= i < |r| ==> r[i] == StepOf(ws[i], base)
  {
    seq(|ws|, i requires 0 <= i < |ws| => StepOf(ws[i], base))
  }

  function WidthsIn(ws: seq<Width>): set<nat> {
    set w | w in ws :: w.tp
  }

  /** The steps of one family's curve, or nothing when fewer than two widths were measured. */
  function Curve(members: seq<Width>): Option<seq<Step>> {
    var usable := Measured(SortWidths(members));
    if |WidthsIn(usable)| < 2 then None
    else
      assert usable != [];
      assert usable[0] in usable;
      Some(StepsOf(usable, usable[0]))
  }

  ghost predicate ByWidth(s: seq<Width>) {
    forall i, j :: 0 <= i < j < |s| ==> s[i].tp <= s[j].tp
  }

  lemma {:induction false} InsertKeepsWidths(w: Width, s: seq<Width>)
    requires ByWidth(s)
    ensures ByWidth(InsertWidth(w, s))
    decreases |s|
  {
    if s != [] && w.tp > s[0].tp {
      InsertKeepsWidths(w, s[1..]);
      var rest := InsertWidth(w, s[1..]);
      forall i | 0 <= i < |rest| ensures s[0].tp <= rest[i].tp {
        assert rest[i] in multiset(rest);
        assert rest[i] == w || rest[i] in s[1..];
      }
    }
  }

  lemma {:induction false} SortedByWidth(s: seq<Width>)
    ensures ByWidth(SortWidths(s))
    decreases |s|
  {
    if s != [] {
      SortedByWidth(s[1..]);
      InsertKeepsWidths(s[0], SortWidths(s[1..]));
    }
  }

  lemma {:induction false} MeasuredByWidth(s: seq<Width>)
    requires ByWidth(s)
    ensures ByWidth(Measured(s))
    decreases |s|
  {
    if s != [] {
      MeasuredByWidth(s[1..]);
      forall w | w in Measured(s[1..]) ensures s[0].tp <= w.tp {
        assert w in s[1..];
      }
    }
  }

  lemma {:induction false} QuotientOne(a: real)
    requires a != 0.0
    ensures a / a == 1.0
  {
  }

  lemma {:induction false} SameMeasurementTwice(a: real, g: real, b: real, h: real)
    requires b != 0.0 && b * h != 0.0
    ensures (a * g) / (b * h) * h == a / b * g
  {
    var q := a / b;
    var s := (a * g) / (b * h);
    assert q * b == a;
    assert s * (b * h) == a * g;
    assert (s * h) * b == s * (b * h);
    assert (q * g) * b == (q * b) * g;
    CancelFactor(s * h, q * g, b);
  }

  lemma {:induction false} CancelFactor(x: real, y: real, b: real)
    requires b != 0.0 && x * b == y * b
    ensures x == y
  {
    assert (x - y) * b == 0.0;
  }

  lemma {:induction false} QuotientTimes(a: real, b: real)
    requires b != 0.0
    ensures a / b * b == a
  {
  }

  /** What a step's figures are: efficiency times the baseline's figure is the step's own, speedup
      times the baseline's total is the step's total, and each exists exactly when the figure it
      divides by is not zero. */
  lemma {:induction false} StepsAreRatios(w: Width, base: Width)
    requires w.perGpu.Some? && base.perGpu.Some?
    ensures var s := StepOf(w, base);
            && s.width == w
            && (s.efficiency.Some? <==> base.perGpu.value != 0.0)
            && (s.speedup.Some? <==> base.perGpu.value != 0.0 && base.gpus > 0)
            && (s.efficiency.Some? ==> s.efficiency.value * base.perGpu.value == w.perGpu.value)
            && (s.speedup.Some? ==> s.speedup.value * (base.perGpu.value * base.gpus as real) == w.perGpu.value * w.gpus as real)
  {
    var b, h := base.perGpu.value, base.gpus as real;
    if b != 0.0 {
      QuotientTimes(w.perGpu.value, b);
      if base.gpus > 0 {
        if b * h == 0.0 { CancelFactor(b, 0.0, h); }
        QuotientTimes(w.perGpu.value * w.gpus as real, b * h);
      }
    }
  }

  /** Speedup and efficiency are one measurement seen twice: speedup times the baseline's
      device count is efficiency times the step's own. */
  lemma {:induction false} SpeedupMatchesEfficiency(w: Width, base: Width)
    requires w.perGpu.Some? && base.perGpu.Some? && base.gpus > 0
    ensures var s := StepOf(w, base);
            && (s.speedup.Some? <==> base.perGpu.value != 0.0) && (s.efficiency.Some? <==> base.perGpu.value != 0.0)
            && (s.speedup.Some? ==> s.speedup.value * base.gpus as real == s.efficiency.value * w.gpus as real)
  {
    var b, h := base.perGpu.value, base.gpus as real;
    if b != 0.0 {
      assert b * h != 0.0 by { if b * h == 0.0 { CancelFactor(b, 0.0, h); } }
      SameMeasurementTwice(w.perGpu.value, w.gpus as real, b, h);
    }
  }

  lemma {:induction false} UsableIs(members: seq<Width>, w: Width)
    ensures w in Measured(SortWidths(members)) <==> w in members && w.perGpu.Some?
    ensures ByWidth(Measured(SortWidths(members)))
  {
    SortedByWidth(members);
    MeasuredByWidth(SortWidths(members));
    assert w in multiset(members) <==> w in multiset(SortWidths(members));
  }

  lemma {:induction false} MeasuredCounts(s: seq<Width>, w: Width)
    requires w.perGpu.Some?
    ensures multiset(Measured(s))[w] == multiset(s)[w]
    decreases |s|
  {
    if s != [] {
      MeasuredCounts(s[1..], w);
      assert s == [s[0]] + s[1..];
    }
  }

  lemma {:induction false} StepsKeepWidths(ws: seq<Width>, steps: seq<Step>, w: Width)
    requires |steps| == |ws| && forall i :: 0 <= i < |ws| ==> steps[i].width == ws[i]
    ensures multiset(Widths(steps))[w] == multiset(ws)[w]
  {
    assert Widths(steps) == ws;
  }

  function Widths(steps: seq<Step>): (r: seq<Width>)
    ensures |r| == |steps| && forall i :: 0 <= i < |r| ==> r[i] == steps[i].width
  {
    seq(|steps|, i requires 0 <= i < |steps| => steps[i].width)
  }

  /** A curve runs from the narrowest measured width up, holds exactly the measured points, each
      as often as given, and puts every one in relation to the first. */
  lemma {:induction false} CurveIs(members: seq<Width>, w: Width)
    requires Curve(members).Some?
    ensures var steps := Curve(members).value;
            && |steps| >= 2
            && (forall i, j :: 0 <= i < j < |steps| ==> steps[i].width.tp <= steps[j].width.tp)
            && (forall i :: 0 <= i < |steps| ==> steps[i].width in members && steps[i].width.perGpu.Some?)
            && (w.perGpu.Some? ==> multiset(Widths(steps))[w] == multiset(members)[w])
            && (forall i :: 0 <= i < |steps| ==> steps[i] == StepOf(steps[i].width, steps[0].width))
            && (steps[0].width.perGpu != Some(0.0) ==> steps[0].efficiency == Some(1.0))
  {
    var usable := Measured(SortWidths(members));
    UsableIs(members, w);
    if |usable| <= 1 { FewWidths(usable); }
    assert usable[0] in usable;
    if usable[0].perGpu.value != 0.0 { QuotientOne(usable[0].perGpu.value); }
    var steps := StepsOf(usable, usable[0]);
    forall i | 0 <= i < |steps| ensures steps[i].width == usable[i] && usable[i] in members && usable[i].perGpu.Some? {
      assert usable[i] in usable;
      UsableIs(members, usable[i]);
    }
    if w.perGpu.Some? {
      StepsKeepWidths(usable, steps, w);
      MeasuredCounts(SortWidths(members), w);
    }
  }

  /** There is a curve exactly when two of the points measured have different widths. */
  lemma {:induction false} NoCurveIff(members: seq<Width>)
    ensures Curve(members).Some? <==>
      exists u, v :: u in members && v in members && u.perGpu.Some? && v.perGpu.Some? && u.tp != v.tp
  {
    var usable := Measured(SortWidths(members));
    forall w ensures w in usable <==> w in members && w.perGpu.Some? { UsableIs(members, w); }
    TwoWidthsIff(usable);
  }

  lemma {:induction false} TwoWidthsIff(ws: seq<Width>)
    ensures |WidthsIn(ws)| >= 2 <==> exists u, v :: u in ws && v in ws && u.tp != v.tp
  {
    if u, v :| u in ws && v in ws && u.tp != v.tp { TwoInSet(u.tp, v.tp, WidthsIn(ws)); }
    if |WidthsIn(ws)| >= 2 {
      var a, b := TwoOfSet(WidthsIn(ws));
      var u, v :| u in ws && v in ws && u.tp == a && v.tp == b;
    }
  }

  lemma {:induction false} TwoInSet(a: nat, b: nat, s: set<nat>)
    requires a in s && b in s && a != b
    ensures |s| >= 2
  {
    assert |s - {a}| >= 1 by { assert b in s - {a}; }
  }

  lemma {:induction false} TwoOfSet(s: set<nat>) returns (a: nat, b: nat)
    requires |s| >= 2
    ensures a in s && b in s && a != b
  {
    a :| a in s;
    assert |s - {a}| >= 1;
    b :| b in s - {a};
  }

  lemma {:induction false} FewWidths(ws: seq<Width>)
    requires |ws| <= 1
    ensures |WidthsIn(ws)| <= 1
  {
    if |ws| == 1 {
      assert WidthsIn(ws) == {ws[0].tp};
    } else {
      assert WidthsIn(ws) == {};
    }
  }
}
