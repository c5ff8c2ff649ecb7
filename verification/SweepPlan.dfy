/** Expanding a sweep's axes into an execution order, and what that costs in engine starts. */
module SweepPlan {
  import opened Prelude

  datatype ReplicateOrder = GROUPED | INTERLEAVED

  datatype PlannedRun = PlannedRun(pos: nat, configIndex: nat, workloadIndex: nat, replicateIdx: nat)

  datatype PlanError = NoConfigs | NoWorkloads | NoReplicates

  datatype Expansion = Planned(plan: seq<PlannedRun>) | Refused(error: PlanError)

  // ---- Enumerating a matrix in nested-loop order -----------------------------------

  /** Multiplication by repeated addition, as nested loops perform it. */
  function Times(n: nat, m: nat): nat {
    if n == 0 then 0 else Times(n - 1, m) + m
  }

  lemma {:induction false} TimesIsProduct(n: nat, m: nat)
    ensures Times(n, m) == n * m
  {
    if n > 0 {
      TimesIsProduct(n - 1, m);
      MulPlusOne(m, n - 1);
    }
  }

  datatype Triple = Triple(i: nat, j: nat, k: nat)

  function Innermost(i: nat, j: nat, c: nat): (r: seq<Triple>)
    ensures |r| == c
  {
    if c == 0 then [] else Innermost(i, j, c - 1) + [Triple(i, j, c - 1)]
  }

  function Middle(i: nat, b: nat, c: nat): seq<Triple> {
    if b == 0 then [] else Middle(i, b - 1, c) + Innermost(i, b - 1, c)
  }

  /** Every triple below the three bounds, the last coordinate fastest. */
  function Nested(a: nat, b: nat, c: nat): seq<Triple> {
    if a == 0 then [] else Nested(a - 1, b, c) + Middle(a - 1, b, c)
  }

  lemma {:induction false} MiddleLength(i: nat, b: nat, c: nat)
    ensures |Middle(i, b, c)| == Times(b, c)
  {
    if b > 0 { MiddleLength(i, b - 1, c); }
  }

  lemma {:induction false} NestedLength(a: nat, b: nat, c: nat)
    ensures |Nested(a, b, c)| == Times(a, Times(b, c))
  {
    if a > 0 {
      NestedLength(a - 1, b, c);
      MiddleLength(a - 1, b, c);
    }
  }

  function Position(t: Triple, b: nat, c: nat): nat {
    Times(t.i, Times(b, c)) + Times(t.j, c) + t.k
  }

  predicate Below(t: Triple, a: nat, b: nat, c: nat) {
    t.i < a && t.j < b && t.k < c
  }

  lemma {:induction false} InnermostAt(i: nat, j: nat, c: nat, k: nat)
    requires k < c
    ensures Innermost(i, j, c)[k] == Triple(i, j, k)
  {
    if k < c - 1 { InnermostAt(i, j, c - 1, k); }
  }

  lemma {:induction false} MiddleAt(i: nat, b: nat, c: nat, j: nat, k: nat)
    requires j < b && k < c
    ensures Times(j, c) + k < Times(b, c) == |Middle(i, b, c)|
    ensures Middle(i, b, c)[Times(j, c) + k] == Triple(i, j, k)
  {
    MiddleLength(i, b, c);
    MiddleLength(i, b - 1, c);
    if j < b - 1 {
      MiddleAt(i, b - 1, c, j, k);
    } else {
      InnermostAt(i, j, c, k);
    }
  }

  lemma {:induction false} NestedAt(a: nat, b: nat, c: nat, t: Triple)
    requires Below(t, a, b, c)
    ensures Position(t, b, c) < |Nested(a, b, c)|
    ensures Nested(a, b, c)[Position(t, b, c)] == t
  {
    var front, back := Nested(a - 1, b, c), Middle(a - 1, b, c);
    assert Nested(a, b, c) == front + back;
    NestedLength(a - 1, b, c);
    if t.i < a - 1 {
      NestedAt(a - 1, b, c, t);
      assert (front + back)[Position(t, b, c)] == front[Position(t, b, c)];
    } else {
      MiddleAt(t.i, b, c, t.j, t.k);
      var offset := Times(t.j, c) + t.k;
      assert Position(t, b, c) == |front| + offset;
      assert (front + back)[|front| + offset] == back[offset];
    }
  }

  lemma {:induction false} MiddleCovers(i: nat, b: nat, c: nat, p: nat)
    requires p < |Middle(i, b, c)|
    ensures var t := Middle(i, b, c)[p]; t.i == i && t.j < b && t.k < c && p == Times(t.j, c) + t.k
  {
    MiddleLength(i, b - 1, c);
    if p < Times(b - 1, c) {
      MiddleCovers(i, b - 1, c, p);
    } else {
      InnermostAt(i, b - 1, c, p - Times(b - 1, c));
    }
  }

  /** Nothing but the matrix, and each entry only where its position says: with NestedAt,
      the enumeration is a bijection between positions and triples. */
  lemma {:induction false} NestedCovers(a: nat, b: nat, c: nat, p: nat)
    requires p < |Nested(a, b, c)|
    ensures Below(Nested(a, b, c)[p], a, b, c)
    ensures p == Position(Nested(a, b, c)[p], b, c)
  {
    var front, back := Nested(a - 1, b, c), Middle(a - 1, b, c);
    assert Nested(a, b, c) == front + back;
    NestedLength(a - 1, b, c);
    if p < |front| {
      NestedCovers(a - 1, b, c, p);
      assert (front + back)[p] == front[p];
    } else {
      MiddleCovers(a - 1, b, c, p - |front|);
      assert (front + back)[p] == back[p - |front|];
    }
  }

  // ---- What an order costs --------------------------------------------------------

  /** Engine starts along a sequence of keys: one whenever a key differs from the one
      before it, and one for the first. */
  function Starts<K(==)>(keys: seq<K>): nat
    decreases |keys|
  {
    if keys == [] then 0
    else
      var n := |keys| - 1;
      Starts(keys[..n]) + if n > 0 && keys[n] == keys[n - 1] then 0 else 1
  }

  lemma {:induction false} StartsConcat<K>(a: seq<K>, b: seq<K>)
    requires a != [] && b != []
    ensures Starts(a + b) == Starts(a) + Starts(b) - if b[0] == a[|a| - 1] then 1 else 0
    decreases |b|
  {
    var n := |b| - 1;
    assert (a + b)[..|a + b| - 1] == a + b[..n];
    if n == 0 {
      assert a + b[..n] == a;
      assert Starts(b[..0]) == 0;
    } else {
      StartsConcat(a, b[..n]);
      assert (a + b)[|a + b| - 2] == b[n - 1];
    }
  }

  lemma {:induction false} StartsOfConstant<K>(keys: seq<K>, key: K)
    requires keys != [] && forall p :: 0 <= p < |keys| ==> keys[p] == key
    ensures Starts(keys) == 1
    decreases |keys|
  {
    var n := |keys| - 1;
    if n > 0 {
      StartsOfConstant(keys[..n], key);
    } else {
      assert Starts(keys[..0]) == 0;
    }
  }

  /** A block of one new key costs one start. */
  lemma {:induction false} AppendBlock<K>(keys: seq<K>, block: seq<K>, key: K)
    requires block != [] && forall p :: 0 <= p < |block| ==> block[p] == key
    requires keys == [] || keys[|keys| - 1] != key
    ensures Starts(keys + block) == Starts(keys) + 1
    ensures (keys + block)[|keys + block| - 1] == key
  {
    StartsOfConstant(block, key);
    if keys == [] {
      assert keys + block == block;
    } else {
      StartsConcat(keys, block);
    }
  }

  /** Every order pays at least once for each distinct key in it. */
  lemma {:induction false} StartsAtLeastDistinct<K>(keys: seq<K>)
    ensures |set x | x in keys| <= Starts(keys)
    decreases |keys|
  {
    if keys != [] {
      var n := |keys| - 1;
      var front, all := set x | x in keys[..n], set x | x in keys;
      StartsAtLeastDistinct(keys[..n]);
      assert keys == keys[..n] + [keys[n]];
      assert all == front + {keys[n]};
      if n > 0 && keys[n] == keys[n - 1] {
        assert keys[n] == keys[..n][n - 1];
        assert all == front;
      }
    }
  }

  /** Renaming keys never costs more, and as much exactly when no two neighbours that differed
      are given one name. */
  lemma {:induction false} StartsRenamed<K, L>(keys: seq<K>, names: seq<L>)
    requires |keys| == |names|
    requires forall i :: 0 < i < |keys| && keys[i] == keys[i - 1] ==> names[i] == names[i - 1]
    ensures Starts(names) <= Starts(keys)
    ensures Starts(names) == Starts(keys) <==> forall i :: 0 < i < |keys| && names[i] == names[i - 1] ==> keys[i] == keys[i - 1]
    decreases |keys|
  {
    if keys != [] {
      var n := |keys| - 1;
      StartsRenamed(keys[..n], names[..n]);
      assert (forall i :: 0 < i < |keys| && names[i] == names[i - 1] ==> keys[i] == keys[i - 1]) <==>
             (forall i :: 0 < i < n && names[..n][i] == names[..n][i - 1] ==> keys[..n][i] == keys[..n][i - 1])
             && (n > 0 && names[n] == names[n - 1] ==> keys[n] == keys[n - 1]);
    }
  }

  // ---- The two orders -------------------------------------------------------------

  function ToRun(order: ReplicateOrder, t: Triple, pos: nat): PlannedRun {
    match order
    case GROUPED => PlannedRun(pos, t.i, t.j, t.k)
    case INTERLEAVED => PlannedRun(pos, t.j, t.k, t.i)
  }

  /** The plan for a matrix whose axes are all non-empty. */
  function Plan(order: ReplicateOrder, configs: nat, workloads: nat, replicates: nat): (plan: seq<PlannedRun>) {
    var ts := match order
      case GROUPED => Nested(configs, workloads, replicates)
      case INTERLEAVED => Nested(replicates, configs, workloads);
    Numbered(order, ts)
  }

  function Numbered(order: ReplicateOrder, ts: seq<Triple>): (plan: seq<PlannedRun>)
    ensures |plan| == |ts|
    ensures forall p :: 0 <= p < |plan| ==> plan[p] == ToRun(order, ts[p], p)
  {
    seq(|ts|, p requires 0 <= p < |ts| => ToRun(order, ts[p], p))
  }

  function Configs(plan: seq<PlannedRun>): (r: seq<nat>)
    ensures |r| == |plan|
    ensures forall p :: 0 <= p < |r| ==> r[p] == plan[p].configIndex
  {
    seq(|plan|, p requires 0 <= p < |plan| => plan[p].configIndex)
  }

  predicate InMatrix(r: PlannedRun, configs: nat, workloads: nat, replicates: nat) {
    r.configIndex < configs && r.workloadIndex < workloads && r.replicateIdx < replicates
  }

  predicate SamePoint(a: PlannedRun, b: PlannedRun) {
    a.configIndex == b.configIndex && a.workloadIndex == b.workloadIndex && a.replicateIdx == b.replicateIdx
  }

  /** Where a point of the matrix stands in the plan. */
  function Slot(order: ReplicateOrder, configs: nat, workloads: nat, replicates: nat, r: PlannedRun): nat {
    match order
    case GROUPED => Position(Triple(r.configIndex, r.workloadIndex, r.replicateIdx), workloads, replicates)
    case INTERLEAVED => Position(Triple(r.replicateIdx, r.configIndex, r.workloadIndex), configs, workloads)
  }

  /** Each (config, workload, replicate) is planned exactly once, and a run's sequence number
      is its position. */
  lemma {:induction false} PlanIsTheMatrix(order: ReplicateOrder, configs: nat, workloads: nat, replicates: nat)
    ensures var plan := Plan(order, configs, workloads, replicates);
            && |plan| == configs * workloads * replicates
            && (forall p :: 0 <= p < |plan| ==> plan[p].pos == p && InMatrix(plan[p], configs, workloads, replicates))
            && (forall p, q :: 0 <= p < q < |plan| ==> !SamePoint(plan[p], plan[q]))
            && (forall r :: InMatrix(r, configs, workloads, replicates) ==>
                  exists p :: 0 <= p < |plan| && SamePoint(plan[p], r))
  {
    var plan := Plan(order, configs, workloads, replicates);
    PlanLength(order, configs, workloads, replicates);
    forall p | 0 <= p < |plan|
      ensures plan[p].pos == p && InMatrix(plan[p], configs, workloads, replicates)
      ensures p == Slot(order, configs, workloads, replicates, plan[p])
    {
      match order
      case GROUPED => NestedCovers(configs, workloads, replicates, p);
      case INTERLEAVED => NestedCovers(replicates, configs, workloads, p);
    }
    forall r | InMatrix(r, configs, workloads, replicates)
      ensures exists p :: 0 <= p < |plan| && SamePoint(plan[p], r)
    {
      match order
      case GROUPED =>
        NestedAt(configs, workloads, replicates, Triple(r.configIndex, r.workloadIndex, r.replicateIdx));
        assert SamePoint(plan[Slot(order, configs, workloads, replicates, r)], r);
      case INTERLEAVED =>
        NestedAt(replicates, configs, workloads, Triple(r.replicateIdx, r.configIndex, r.workloadIndex));
        assert SamePoint(plan[Slot(order, configs, workloads, replicates, r)], r);
    }
    forall p, q | 0 <= p < q < |plan| ensures !SamePoint(plan[p], plan[q]) {
      assert p == Slot(order, configs, workloads, replicates, plan[p]);
      assert q == Slot(order, configs, workloads, replicates, plan[q]);
    }
  }

  lemma {:induction false} PlanLength(order: ReplicateOrder, configs: nat, workloads: nat, replicates: nat)
    ensures |Plan(order, configs, workloads, replicates)| == configs * workloads * replicates
  {
    match order
    case GROUPED =>
      NestedProduct(configs, workloads, replicates);
      assert configs * (workloads * replicates) == configs * workloads * replicates;
    case INTERLEAVED =>
      NestedProduct(replicates, configs, workloads);
      assert replicates * (configs * workloads) == configs * workloads * replicates;
  }

  lemma {:induction false} NestedProduct(a: nat, b: nat, c: nat)
    ensures |Nested(a, b, c)| == a * (b * c)
  {
    NestedLength(a, b, c);
    TimesIsProduct(b, c);
    TimesIsProduct(a, Times(b, c));
  }

  // ---- Cost of the two orders -----------------------------------------------------

  function Firsts(ts: seq<Triple>): (r: seq<nat>)
    ensures |r| == |ts| && forall p :: 0 <= p < |r| ==> r[p] == ts[p].i
  {
    seq(|ts|, p requires 0 <= p < |ts| => ts[p].i)
  }

  function Seconds(ts: seq<Triple>): (r: seq<nat>)
    ensures |r| == |ts| && forall p :: 0 <= p < |r| ==> r[p] == ts[p].j
  {
    seq(|ts|, p requires 0 <= p < |ts| => ts[p].j)
  }

  lemma {:induction false} FirstsConcat(a: seq<Triple>, b: seq<Triple>)
    ensures Firsts(a + b) == Firsts(a) + Firsts(b)
  {
  }

  lemma {:induction false} SecondsConcat(a: seq<Triple>, b: seq<Triple>)
    ensures Seconds(a + b) == Seconds(a) + Seconds(b)
  {
  }

  /** Blocks of 0, 1, ... up to `n` exclusive, one start each. */
  predicate CountsUp(keys: seq<nat>, n: nat) {
    && Starts(keys) == n
    && if n == 0 then keys == [] else keys != [] && keys[0] == 0 && keys[|keys| - 1] == n - 1
  }

  lemma {:induction false} AddedBlockCost(keys: seq<nat>, block: seq<nat>, n: nat)
    requires n > 0 && CountsUp(keys, n - 1)
    requires block != [] && forall p :: 0 <= p < |block| ==> block[p] == n - 1
    ensures CountsUp(keys + block, n)
  {
    AppendBlock<nat>(keys, block, n - 1);
    assert (keys + block)[0] == if keys == [] then block[0] else keys[0];
  }

  lemma {:induction false} AddedFirsts(front: seq<Triple>, block: seq<Triple>, n: nat)
    requires n > 0 && CountsUp(Firsts(front), n - 1)
    requires block != [] && forall p :: 0 <= p < |block| ==> block[p].i == n - 1
    ensures CountsUp(Firsts(front + block), n)
  {
    FirstsConcat(front, block);
    AddedBlockCost(Firsts(front), Firsts(block), n);
  }

  lemma {:induction false} AddedSeconds(front: seq<Triple>, block: seq<Triple>, n: nat)
    requires n > 0 && CountsUp(Seconds(front), n - 1)
    requires block != [] && forall p :: 0 <= p < |block| ==> block[p].j == n - 1
    ensures CountsUp(Seconds(front + block), n)
  {
    SecondsConcat(front, block);
    AddedBlockCost(Seconds(front), Seconds(block), n);
  }

  lemma {:induction false} MiddleIsOneConfig(i: nat, b: nat, c: nat)
    requires b > 0 && c > 0
    ensures Middle(i, b, c) != [] && forall p :: 0 <= p < |Middle(i, b, c)| ==> Middle(i, b, c)[p].i == i
  {
    assert |Innermost(i, b - 1, c)| == c;
    forall p | 0 <= p < |Middle(i, b, c)| ensures Middle(i, b, c)[p].i == i { MiddleCovers(i, b, c, p); }
  }

  lemma {:induction false} InnermostIsOneConfig(i: nat, j: nat, c: nat)
    requires c > 0
    ensures forall p :: 0 <= p < c ==> Innermost(i, j, c)[p].j == j
  {
    forall p | 0 <= p < c ensures Innermost(i, j, c)[p].j == j { InnermostAt(i, j, c, p); }
  }

  lemma {:induction false} OuterCost(a: nat, b: nat, c: nat)
    requires b > 0 && c > 0
    ensures CountsUp(Firsts(Nested(a, b, c)), a)
  {
    if a > 0 {
      OuterCost(a - 1, b, c);
      MiddleIsOneConfig(a - 1, b, c);
      AddedFirsts(Nested(a - 1, b, c), Middle(a - 1, b, c), a);
    }
  }

  lemma {:induction false} RoundCost(i: nat, b: nat, c: nat)
    requires c > 0
    ensures CountsUp(Seconds(Middle(i, b, c)), b)
  {
    if b > 0 {
      RoundCost(i, b - 1, c);
      InnermostIsOneConfig(i, b - 1, c);
      AddedSeconds(Middle(i, b - 1, c), Innermost(i, b - 1, c), b);
    }
  }

  /** Rounds of 0 .. `b` - 1: each costs `b`, except that repeating a single key is free. */
  predicate CountsRounds(keys: seq<nat>, a: nat, b: nat) {
    && Starts(keys) == (if a > 0 && b == 1 then 1 else Times(a, b))
    && if a == 0 then keys == [] else keys != [] && keys[|keys| - 1] == b - 1
  }

  lemma {:induction false} AddedRound(front: seq<Triple>, round: seq<Triple>, a: nat, b: nat)
    requires a > 0 && b > 0 && CountsRounds(Seconds(front), a - 1, b) && CountsUp(Seconds(round), b)
    ensures CountsRounds(Seconds(front + round), a, b)
  {
    SecondsConcat(front, round);
    var ks, rs := Seconds(front), Seconds(round);
    if a == 1 {
      assert ks + rs == rs;
      assert Times(1, b) == Times(0, b) + b;
    } else {
      StartsConcat<nat>(ks, rs);
      assert Times(a, b) == Times(a - 1, b) + b;
    }
  }

  lemma {:induction false} RoundsCost(a: nat, b: nat, c: nat)
    requires b > 0 && c > 0
    ensures CountsRounds(Seconds(Nested(a, b, c)), a, b)
  {
    if a > 0 {
      RoundsCost(a - 1, b, c);
      RoundCost(a - 1, b, c);
      AddedRound(Nested(a - 1, b, c), Middle(a - 1, b, c), a, b);
    }
  }

  /** Grouped order starts one engine per config; interleaved starts one per config and
      replicate, except that a single config never changes. */
  lemma {:induction false} PlanCost(order: ReplicateOrder, configs: nat, workloads: nat, replicates: nat)
    requires configs > 0 && workloads > 0 && replicates > 0
    ensures Starts(Configs(Plan(order, configs, workloads, replicates)))
         == if order.GROUPED? || configs == 1 then configs else configs * replicates
  {
    match order
    case GROUPED =>
      OuterCost(configs, workloads, replicates);
      assert Configs(Plan(order, configs, workloads, replicates)) == Firsts(Nested(configs, workloads, replicates));
    case INTERLEAVED =>
      RoundsCost(replicates, configs, workloads);
      TimesIsProduct(replicates, configs);
      assert Configs(Plan(order, configs, workloads, replicates)) == Seconds(Nested(replicates, configs, workloads));
  }

  /** No permutation of the matrix starts fewer engines than the grouped order. */
  lemma {:induction false} GroupedIsCheapest(configs: nat, workloads: nat, replicates: nat, other: seq<PlannedRun>)
    requires configs > 0 && workloads > 0 && replicates > 0
    requires forall r :: InMatrix(r, configs, workloads, replicates) ==> exists p :: 0 <= p < |other| && SamePoint(other[p], r)
    ensures Starts(Configs(Plan(GROUPED, configs, workloads, replicates))) <= Starts(Configs(other))
  {
    PlanCost(GROUPED, configs, workloads, replicates);
    var keys := Configs(other);
    StartsAtLeastDistinct<nat>(keys);
    var all := set x | x in keys;
    forall c: nat | c < configs ensures c in all {
      var r := PlannedRun(0, c, 0, 0);
      assert InMatrix(r, configs, workloads, replicates);
      var p :| 0 <= p < |other| && SamePoint(other[p], r);
      assert keys[p] == c;
    }
    CountUpTo(all, configs);
  }

  lemma {:induction false} CountUpTo(s: set<nat>, n: nat)
    requires forall c: nat :: c < n ==> c in s
    ensures n <= |s|
  {
    if n > 0 {
      CountUpTo(s - {n - 1}, n - 1);
    }
  }

  // ---- The planner's own loops ----------------------------------------------------

  /** Expand the matrix into the order the runs will execute in, refusing an empty axis. */
  method Expand(configCount: int, workloadCount: int, replicates: int, order: ReplicateOrder)
      returns (result: Expansion)
    ensures configCount < 1 ==> result == Refused(NoConfigs)
    ensures configCount >= 1 && workloadCount < 1 ==> result == Refused(NoWorkloads)
    ensures configCount >= 1 && workloadCount >= 1 && replicates < 1 ==> result == Refused(NoReplicates)
    ensures configCount >= 1 && workloadCount >= 1 && replicates >= 1 ==>
              result == Planned(Plan(order, configCount, workloadCount, replicates))
  {
    if configCount < 1 { return Refused(NoConfigs); }
    if workloadCount < 1 { return Refused(NoWorkloads); }
    if replicates < 1 { return Refused(NoReplicates); }

    var planned: seq<PlannedRun> := [];
    if order.INTERLEAVED? {
      for replicate := 0 to replicates
        invariant planned == Numbered(order, Nested(replicate, configCount, workloadCount))
      {
        planned := AddBlock(order, planned, Nested(replicate, configCount, workloadCount), replicate, configCount, workloadCount);
      }
    } else {
      for config := 0 to configCount
        invariant planned == Numbered(order, Nested(config, workloadCount, replicates))
      {
        planned := AddBlock(order, planned, Nested(config, workloadCount, replicates), config, workloadCount, replicates);
      }
    }
    result := Planned(planned);
  }

  /** The two inner loops of an expansion: one replicate of the whole matrix when
      interleaved, one config when grouped. */
  method AddBlock(order: ReplicateOrder, planned: seq<PlannedRun>, ghost done: seq<Triple>, outer: nat, middle: nat, inner: nat)
      returns (extended: seq<PlannedRun>)
    requires planned == Numbered(order, done)
    ensures extended == Numbered(order, done + Middle(outer, middle, inner))
  {
    extended := planned;
    assert done + Middle(outer, 0, inner) == done;
    for j := 0 to middle
      invariant extended == Numbered(order, done + Middle(outer, j, inner))
    {
      ghost var before := done + Middle(outer, j, inner);
      MiddleStep(done, outer, j, inner);
      for k := 0 to inner
        invariant extended == Numbered(order, before + Innermost(outer, j, k))
      {
        NumberedOneMore(order, before, Innermost(outer, j, k), Triple(outer, j, k));
        extended := extended + [if order.INTERLEAVED? then PlannedRun(|extended|, j, k, outer)
                                else PlannedRun(|extended|, outer, j, k)];
      }
    }
  }

  lemma {:induction false} MiddleStep(done: seq<Triple>, i: nat, j: nat, c: nat)
    ensures var before := done + Middle(i, j, c);
            && before + Innermost(i, j, 0) == before
            && before + Innermost(i, j, c) == done + Middle(i, j + 1, c)
  {
  }

  lemma {:induction false} NumberedOneMore(order: ReplicateOrder, before: seq<Triple>, inner: seq<Triple>, t: Triple)
    ensures Numbered(order, before + (inner + [t]))
         == Numbered(order, before + inner) + [ToRun(order, t, |before + inner|)]
  {
    assert before + (inner + [t]) == (before + inner) + [t];
    assert ((before + inner) + [t])[..|before + inner|] == before + inner;
  }

  /** How many times the engine restarts for a plan. */
  method EngineStarts(plan: seq<PlannedRun>) returns (starts: nat)
    ensures starts == Starts(Configs(plan))
  {
    starts := 0;
    var previous: Option<nat> := None;
    for i := 0 to |plan|
      invariant starts == Starts(Configs(plan[..i]))
      invariant previous == if i == 0 then None else Some(plan[i - 1].configIndex)
    {
      ConfigsOneMore(plan, i);
      if Some(plan[i].configIndex) != previous {
        starts := starts + 1;
        previous := Some(plan[i].configIndex);
      }
    }
    assert plan[..|plan|] == plan;
  }

  lemma {:induction false} ConfigsOneMore(plan: seq<PlannedRun>, i: nat)
    requires i < |plan|
    ensures Starts(Configs(plan[..i + 1]))
         == Starts(Configs(plan[..i])) + if i > 0 && plan[i].configIndex == plan[i - 1].configIndex then 0 else 1
  {
    var keys := Configs(plan[..i + 1]);
    assert keys[..i] == Configs(plan[..i]);
  }

  function CountTrue(flags: seq<bool>): nat
    decreases |flags|
  {
    if flags == [] then 0 else CountTrue(flags[..|flags| - 1]) + if flags[|flags| - 1] then 1 else 0
  }

  /** Which runs of an ordered plan start a new engine. */
  method PlanEngineLoads(hashes: seq<string>) returns (loads: seq<bool>)
    ensures |loads| == |hashes|
    ensures forall i :: 0 <= i < |hashes| ==> (loads[i] <==> i == 0 || hashes[i] != hashes[i - 1])
    ensures CountTrue(loads) == Starts(hashes)
  {
    loads := [];
    var previous: Option<string> := None;
    for i := 0 to |hashes|
      invariant |loads| == i
      invariant forall j :: 0 <= j < i ==> (loads[j] <==> j == 0 || hashes[j] != hashes[j - 1])
      invariant CountTrue(loads) == Starts(hashes[..i])
      invariant previous == if i == 0 then None else Some(hashes[i - 1])
    {
      assert hashes[..i + 1][..i] == hashes[..i];
      ghost var before := loads;
      loads := loads + [Some(hashes[i]) != previous];
      assert loads[..|loads| - 1] == before;
      previous := Some(hashes[i]);
    }
    assert hashes[..|hashes|] == hashes;
  }
}
