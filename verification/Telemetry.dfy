/** The telemetry sampler: bounded buffers that halve their resolution, on a drift-free schedule. */
module Telemetry {
  import opened Prelude

  const MAX_ENGINE_SAMPLES: nat := 7200

  /** The fields a reader tells samples apart by; the measured values ride along. */
  datatype Sample =
    | EngineSample(offsetSeconds: real, numRequestsRunning: Option<int>)
    | GpuSample(offsetSeconds: real, gpuIndex: int)

  /** What one tick read: no engine sample when the scrape failed, and one entry per device
      that answered. */
  datatype Scrape = Scrape(engine: Option<Sample>, gpus: seq<Sample>)

  datatype Tagged = Tagged(tick: nat, sample: Sample)

  datatype Buffers = Buffers(engine: seq<Tagged>, gpu: seq<Tagged>, next: nat, stride: nat)

  datatype Series = Engine | Gpu

  /** What a scrape contributes to one of the two series. */
  function Taken(s: Scrape, which: Series): seq<Sample> {
    match which
    case Engine => if s.engine.Some? then [s.engine.value] else []
    case Gpu => s.gpus
  }

  // ---- Multiples of the stride ----------------------------------------------------

  /** `t` is a multiple of `k`, by repeated subtraction; MultipleIsMod ties it to `%`. */
  predicate Multiple(t: nat, k: nat)
    requires k > 0
    decreases t
  {
    t == 0 || (t >= k && Multiple(t - k, k))
  }

  lemma {:induction false} MultipleIsMod(t: nat, k: nat)
    requires k > 0
    ensures Multiple(t, k) <==> t % k == 0
    decreases t
  {
    if t >= k {
      MultipleIsMod(t - k, k);
      assert t == (t - k) + k;
      ModPlusDivisor(t - k, k);
    }
  }

  lemma {:induction false} MultipleOfDouble(t: nat, k: nat)
    requires k > 0 && Multiple(t, 2 * k)
    ensures Multiple(t, k)
    decreases t
  {
    if t > 0 {
      MultipleOfDouble(t - 2 * k, k);
      assert Multiple(t - k, k);
    }
  }

  lemma {:induction false} BetweenMultiples(t: nat, n: nat, k: nat)
    requires k > 0 && Multiple(t, k) && t < n < t + k
    ensures !Multiple(n, k)
    decreases t
  {
    if t > 0 {
      BetweenMultiples(t - k, n - k, k);
    }
  }

  // ---- What the sampler does, as functions of the scrapes so far -----------------

  /** The entries whose tick is a multiple of `k`, in order. */
  function Every(xs: seq<Tagged>, k: nat): seq<Tagged>
    requires k > 0
    decreases |xs|
  {
    if xs == [] then []
    else
      var last := xs[|xs| - 1];
      Every(xs[..|xs| - 1], k) + if Multiple(last.tick, k) then [last] else []
  }

  function TagAll(tick: nat, samples: seq<Sample>): (r: seq<Tagged>)
    ensures |r| == |samples| && forall i :: 0 <= i < |r| ==> r[i] == Tagged(tick, samples[i])
    decreases |samples|
  {
    if samples == [] then []
    else TagAll(tick, samples[..|samples| - 1]) + [Tagged(tick, samples[|samples| - 1])]
  }

  function Record(b: Buffers, s: Scrape): Buffers {
    Buffers(b.engine + TagAll(b.next, Taken(s, Engine)), b.gpu + TagAll(b.next, Taken(s, Gpu)), b.next + 1, b.stride)
  }

  function Thin(b: Buffers): Buffers
    requires b.stride > 0
  {
    var k := 2 * b.stride;
    b.(engine := Every(b.engine, k), gpu := Every(b.gpu, k), stride := k)
  }

  function Step(b: Buffers, s: Scrape): Buffers
    requires b.stride > 0
  {
    var r := Record(b, s);
    if |r.engine| > MAX_ENGINE_SAMPLES then Thin(r) else r
  }

  function Collect(h: seq<Scrape>): (b: Buffers)
    ensures b.stride > 0 && b.next == |h|
    decreases |h|
  {
    if h == [] then Buffers([], [], 0, 1)
    else Step(Collect(h[..|h| - 1]), h[|h| - 1])
  }

  /** The tick at which resolution was last halved, or -1. */
  function LastThinned(h: seq<Scrape>): (d: int)
    ensures -1 <= d < |h|
    decreases |h|
  {
    if h == [] then -1
    else
      var p := h[..|h| - 1];
      if |Record(Collect(p), h[|h| - 1]).engine| > MAX_ENGINE_SAMPLES then |p| else LastThinned(p)
  }

  // ---- Which ticks survive ------------------------------------------------------

  predicate Kept(tick: nat, thinnedAt: int, stride: nat)
    requires stride > 0
  {
    tick > thinnedAt || Multiple(tick, stride)
  }

  /** A series read off the scrapes directly: no buffer, no thinning history. */
  function Survivors(h: seq<Scrape>, which: Series, thinnedAt: int, stride: nat): seq<Tagged>
    requires stride > 0
    decreases |h|
  {
    if h == [] then []
    else
      var t := |h| - 1;
      Survivors(h[..t], which, thinnedAt, stride) + SurvivingOf(t, h[t], which, thinnedAt, stride)
  }

  function SurvivingOf(t: nat, s: Scrape, which: Series, thinnedAt: int, stride: nat): (r: seq<Tagged>)
    requires stride > 0
    ensures forall i :: 0 <= i < |r| ==> r[i].tick == t
  {
    if Kept(t, thinnedAt, stride) then TagAll(t, Taken(s, which)) else []
  }

  lemma {:induction false} EveryConcat(a: seq<Tagged>, b: seq<Tagged>, k: nat)
    requires k > 0
    ensures Every(a + b, k) == Every(a, k) + Every(b, k)
    decreases |b|
  {
    if b == [] {
      assert a + b == a;
    } else {
      var n := |b| - 1;
      assert (a + b)[..|a + b| - 1] == a + b[..n];
      EveryConcat(a, b[..n], k);
    }
  }

  lemma {:induction false} EveryOfOneTick(xs: seq<Tagged>, t: nat, k: nat)
    requires k > 0
    requires forall i :: 0 <= i < |xs| ==> xs[i].tick == t
    ensures Every(xs, k) == if Multiple(t, k) then xs else []
    decreases |xs|
  {
    if xs != [] {
      EveryOfOneTick(xs[..|xs| - 1], t, k);
      assert xs == xs[..|xs| - 1] + [xs[|xs| - 1]];
    }
  }

  /** Thinning by the doubled stride turns one direct description into the next. */
  lemma {:induction false} ThinSurvivors(h: seq<Scrape>, which: Series, d: int, k: nat, d': int)
    requires k > 0 && d' >= |h|
    ensures Every(Survivors(h, which, d, k), 2 * k) == Survivors(h, which, d', 2 * k)
    decreases |h|
  {
    if h != [] {
      var t := |h| - 1;
      ThinSurvivors(h[..t], which, d, k, d');
      ThinOneTick(t, h[t], which, d, k, d');
      EveryConcat(Survivors(h[..t], which, d, k), SurvivingOf(t, h[t], which, d, k), 2 * k);
    }
  }

  lemma {:induction false} ThinOneTick(t: nat, s: Scrape, which: Series, d: int, k: nat, d': int)
    requires k > 0 && d' >= t
    ensures Every(SurvivingOf(t, s, which, d, k), 2 * k) == SurvivingOf(t, s, which, d', 2 * k)
  {
    EveryOfOneTick(SurvivingOf(t, s, which, d, k), t, 2 * k);
    if Multiple(t, 2 * k) { MultipleOfDouble(t, k); }
  }

  /** Main result: both buffers hold exactly the ticks after the last thinning and the
      earlier multiples of the stride, whatever pattern of scrapes failed. */
  lemma {:induction false} ExactContent(h: seq<Scrape>)
    ensures Collect(h).engine == Survivors(h, Engine, LastThinned(h), Collect(h).stride)
    ensures Collect(h).gpu == Survivors(h, Gpu, LastThinned(h), Collect(h).stride)
    decreases |h|
  {
    if h != [] {
      var n := |h| - 1;
      var p, s := h[..n], h[n];
      ExactContent(p);
      var d, k := LastThinned(p), Collect(p).stride;
      if |Record(Collect(p), s).engine| > MAX_ENGINE_SAMPLES {
        ThinnedContent(p, s, Engine, d, k);
        ThinnedContent(p, s, Gpu, d, k);
      }
    }
  }

  lemma {:induction false} ThinnedContent(p: seq<Scrape>, s: Scrape, which: Series, d: int, k: nat)
    requires k > 0
    ensures Every(Survivors(p, which, d, k) + TagAll(|p|, Taken(s, which)), 2 * k)
         == Survivors(p + [s], which, |p|, 2 * k)
  {
    assert (p + [s])[..|p|] == p;
    ThinSurvivors(p, which, d, k, |p|);
    EveryConcat(Survivors(p, which, d, k), TagAll(|p|, Taken(s, which)), 2 * k);
    EveryOfOneTick(TagAll(|p|, Taken(s, which)), |p|, 2 * k);
  }

  /** The entries a series holds for one tick. */
  function OfTick(xs: seq<Tagged>, t: nat): seq<Tagged>
    decreases |xs|
  {
    if xs == [] then []
    else
      var last := xs[|xs| - 1];
      OfTick(xs[..|xs| - 1], t) + if last.tick == t then [last] else []
  }

  lemma {:induction false} OfTickConcat(a: seq<Tagged>, b: seq<Tagged>, t: nat)
    ensures OfTick(a + b, t) == OfTick(a, t) + OfTick(b, t)
    decreases |b|
  {
    if b == [] {
      assert a + b == a;
    } else {
      var n := |b| - 1;
      assert (a + b)[..|a + b| - 1] == a + b[..n];
      OfTickConcat(a, b[..n], t);
    }
  }

  lemma {:induction false} OfTickInOneTick(xs: seq<Tagged>, t: nat, u: nat)
    requires forall i :: 0 <= i < |xs| ==> xs[i].tick == u
    ensures OfTick(xs, t) == if t == u then xs else []
    decreases |xs|
  {
    if xs != [] {
      OfTickInOneTick(xs[..|xs| - 1], t, u);
      assert xs == xs[..|xs| - 1] + [xs[|xs| - 1]];
    }
  }

  lemma {:induction false} SurvivorsOfTick(h: seq<Scrape>, which: Series, d: int, k: nat, t: nat)
    requires k > 0
    ensures OfTick(Survivors(h, which, d, k), t) == if t < |h| then SurvivingOf(t, h[t], which, d, k) else []
    decreases |h|
  {
    if h != [] {
      var u := |h| - 1;
      SurvivorsOfTick(h[..u], which, d, k, t);
      OfTickConcat(Survivors(h[..u], which, d, k), SurvivingOf(u, h[u], which, d, k), t);
      OfTickInOneTick(SurvivingOf(u, h[u], which, d, k), t, u);
    }
  }

  /** Every tick's samples survive as a whole or vanish as a whole, just as they were scraped,
      in both buffers under the same condition, so no device is lost while another stays; a
      tick stays if it came after the last thinning or is a multiple of the stride. */
  lemma {:induction false} WholeTicksSurvive(h: seq<Scrape>, t: nat)
    requires t < |h|
    ensures var b := Collect(h);
            var kept := t > LastThinned(h) || t % b.stride == 0;
            && OfTick(b.engine, t) == (if kept && h[t].engine.Some? then [Tagged(t, h[t].engine.value)] else [])
            && |OfTick(b.gpu, t)| == (if kept then |h[t].gpus| else 0)
            && (forall i :: 0 <= i < |OfTick(b.gpu, t)| ==> OfTick(b.gpu, t)[i] == Tagged(t, h[t].gpus[i]))
            && (t == 0 ==> kept)
  {
    var d, k := LastThinned(h), Collect(h).stride;
    ExactContent(h);
    SurvivorsOfTick(h, Engine, d, k, t);
    SurvivorsOfTick(h, Gpu, d, k, t);
    MultipleIsMod(t, k);
    SurvivingIs(t, h[t], d, k);
  }

  lemma {:induction false} SurvivingIs(t: nat, s: Scrape, d: int, k: nat)
    requires k > 0
    ensures var kept := t > d || Multiple(t, k);
            && SurvivingOf(t, s, Engine, d, k) == (if kept && s.engine.Some? then [Tagged(t, s.engine.value)] else [])
            && SurvivingOf(t, s, Gpu, d, k) == (if kept then TagAll(t, s.gpus) else [])
  {
    if s.engine.Some? { assert [s.engine.value][..0] == []; }
  }

  // ---- The size bound, and how long an overflow can last --------------------------

  ghost predicate Ascending(xs: seq<Tagged>, bound: nat) {
    && (forall i :: 0 <= i < |xs| ==> xs[i].tick < bound)
    && (forall i, j :: 0 <= i < j < |xs| ==> xs[i].tick < xs[j].tick)
  }

  lemma {:induction false} EveryShrinks(xs: seq<Tagged>, k: nat)
    requires k > 0
    ensures |Every(xs, k)| <= |xs|
    ensures |Every(xs, k)| == |xs| > 0 ==> Every(xs, k) == xs && Multiple(xs[|xs| - 1].tick, k)
    decreases |xs|
  {
    if xs != [] {
      var n := |xs| - 1;
      EveryShrinks(xs[..n], k);
      assert xs == xs[..n] + [xs[n]];
    }
  }

  lemma {:induction false} EveryStaysAscending(xs: seq<Tagged>, k: nat, bound: nat)
    requires k > 0 && Ascending(xs, bound)
    ensures Ascending(Every(xs, k), bound)
    decreases |xs|
  {
    if xs != [] {
      var n := |xs| - 1;
      assert Ascending(xs[..n], xs[n].tick);
      EveryStaysAscending(xs[..n], k, xs[n].tick);
    }
  }

  predicate Over(b: Buffers) {
    |b.engine| > MAX_ENGINE_SAMPLES
  }

  /** The tick of the newest engine entry. */
  function Newest(b: Buffers): nat
    requires b.engine != []
  {
    b.engine[|b.engine| - 1].tick
  }

  /** What holds after every tick. A buffer still over the cap after thinning holds only
      multiples of the stride, and the stride has outgrown the ticks since its newest one. */
  ghost predicate Bounded(b: Buffers) {
    && b.stride > 0
    && Ascending(b.engine, b.next)
    && (Over(b) ==>
          var t := Newest(b);
          && |b.engine| == MAX_ENGINE_SAMPLES + 1
          && t > 0 && Multiple(t, b.stride)
          && b.next - t < b.stride
          && Pow2(b.next - t) <= b.stride)
  }

  /** A tick that finds the buffer already over its cap is itself dropped. */
  lemma {:induction false} ArrivalDroppedWhileOver(b: Buffers, s: Scrape)
    requires Bounded(b) && Over(b)
    ensures Step(b, s).engine == Every(b.engine, 2 * b.stride)
  {
    var arrival := TagAll(b.next, Taken(s, Engine));
    EveryConcat(b.engine, arrival, 2 * b.stride);
    BetweenMultiples(Newest(b), b.next, b.stride);
    if Multiple(b.next, 2 * b.stride) { MultipleOfDouble(b.next, b.stride); }
    EveryOfOneTick(arrival, b.next, 2 * b.stride);
    assert Every(arrival, 2 * b.stride) == [];
  }

  lemma {:induction false} ThinnedWhileOver(b: Buffers, c: Buffers)
    requires Bounded(b) && Over(b)
    requires c.engine == Every(b.engine, 2 * b.stride) && c.next == b.next + 1 && c.stride == 2 * b.stride
    ensures Bounded(c) && (Over(c) ==> Newest(c) == Newest(b))
  {
    EveryShrinks(b.engine, 2 * b.stride);
    EveryStaysAscending(b.engine, 2 * b.stride, b.next);
    if Over(c) {
      assert Pow2(c.next - Newest(b)) == 2 * Pow2(b.next - Newest(b));
    }
  }

  lemma {:induction false} StepWhileOver(b: Buffers, s: Scrape)
    requires Bounded(b) && Over(b)
    ensures Bounded(Step(b, s))
    ensures Over(Step(b, s)) ==> Newest(Step(b, s)) == Newest(b)
  {
    ArrivalDroppedWhileOver(b, s);
    ThinnedWhileOver(b, Step(b, s));
  }

  lemma {:induction false} RecordStaysAscending(b: Buffers, s: Scrape)
    requires Ascending(b.engine, b.next)
    ensures var r := Record(b, s);
            && Ascending(r.engine, r.next)
            && |r.engine| <= |b.engine| + 1
            && (|r.engine| == |b.engine| + 1 ==> Newest(r) == b.next)
  {
  }

  lemma {:induction false} StepWithinCap(b: Buffers, s: Scrape)
    requires Bounded(b) && !Over(b)
    ensures Bounded(Step(b, s))
  {
    var r := Record(b, s);
    RecordStaysAscending(b, s);
    if Over(r) { ThinAtTheCap(r); }
  }

  lemma {:induction false} ThinAtTheCap(r: Buffers)
    requires r.stride > 0 && Ascending(r.engine, r.next)
    requires |r.engine| == MAX_ENGINE_SAMPLES + 1 && Newest(r) == r.next - 1
    ensures Bounded(Thin(r))
  {
    var k := 2 * r.stride;
    EveryShrinks(r.engine, k);
    EveryStaysAscending(r.engine, k, r.next);
    assert r.engine[0].tick < Newest(r);
    assert Pow2(1) == 2 * Pow2(0);
  }

  lemma {:induction false} RunStaysBounded(h: seq<Scrape>)
    ensures Bounded(Collect(h))
    decreases |h|
  {
    if h != [] {
      RunStaysBounded(h[..|h| - 1]);
      var b, s := Collect(h[..|h| - 1]), h[|h| - 1];
      if Over(b) { StepWhileOver(b, s); } else { StepWithinCap(b, s); }
    }
  }

  /** Ticks elapsed since the newest engine entry was taken. */
  function Elapsed(b: Buffers): nat
    requires b.engine != []
  {
    if b.next < Newest(b) then 0 else b.next - Newest(b)
  }

  lemma {:induction false} DivisorAtMost(t: nat, k: nat)
    requires t > 0 && k > 0 && Multiple(t, k)
    ensures k <= t
  {
  }

  /** Main result: for every pattern of failed scrapes the engine buffer never holds more
      than one sample over its cap, although a thinning can remove nothing; and while it is
      over, the ticks since its newest sample are at most that sample's binary logarithm. */
  lemma {:induction false} EngineBufferIsBounded(h: seq<Scrape>)
    ensures |Collect(h).engine| <= MAX_ENGINE_SAMPLES + 1
    ensures Over(Collect(h)) ==> Pow2(Elapsed(Collect(h))) <= Newest(Collect(h))
  {
    RunStaysBounded(h);
    var b := Collect(h);
  }

  lemma {:induction false} CollectOneMore(h: seq<Scrape>, s: Scrape)
    ensures Collect(h + [s]) == Step(Collect(h), s)
    ensures LastThinned(h + [s]) == if Over(Record(Collect(h), s)) then |h| else LastThinned(h)
  {
    assert (h + [s])[..|h|] == h;
  }

  /** The buffer is over its cap now and stays over through all of `more`. */
  predicate OverThroughout(b: Buffers, more: seq<Scrape>)
    requires b.stride > 0
    decreases |more|
  {
    Over(b) && (more == [] || OverThroughout(Step(b, more[0]), more[1..]))
  }

  lemma {:induction false} StaysOverBriefly(b: Buffers, more: seq<Scrape>)
    requires Bounded(b) && OverThroughout(b, more)
    ensures Pow2(b.next + |more| - Newest(b)) <= Newest(b)
    decreases |more|
  {
    if more == [] {
      DivisorAtMost(Newest(b), b.stride);
    } else {
      StepWhileOver(b, more[0]);
      StaysOverBriefly(Step(b, more[0]), more[1..]);
    }
  }

  /** An overflow ends: ticks spent over the cap without a break, counted from the newest
      sample, never exceed the binary logarithm of that sample's tick. */
  lemma {:induction false} OverflowIsBrief(h: seq<Scrape>, more: seq<Scrape>)
    requires OverThroughout(Collect(h), more)
    ensures Newest(Collect(h)) < |h|
    ensures Pow2(|h| + |more| - Newest(Collect(h))) <= Newest(Collect(h))
  {
    RunStaysBounded(h);
    StaysOverBriefly(Collect(h), more);
  }

  // ---- What is not bounded, and what the reported interval does not say ------------

  /** Every tick's scrape failed, and one device answered each time. */
  function OnlyGpu(n: nat): (h: seq<Scrape>)
    ensures |h| == n
  {
    if n == 0 then [] else OnlyGpu(n - 1) + [Scrape(None, [GpuSample(0.0, 0)])]
  }

  /** The device buffer has no bound of its own: only an engine overflow thins it. */
  lemma {:induction false} GpuBufferAloneIsUnbounded(n: nat)
    ensures Collect(OnlyGpu(n)).engine == [] && |Collect(OnlyGpu(n)).gpu| == n
  {
    if n > 0 {
      GpuBufferAloneIsUnbounded(n - 1);
      assert OnlyGpu(n)[..n - 1] == OnlyGpu(n - 1);
    }
  }

  lemma {:induction false} SurvivorCounts(h: seq<Scrape>, d: int, k: nat, devices: nat)
    requires k > 0
    requires forall s :: s in h ==> |s.gpus| <= devices && (s.gpus != [] ==> s.engine.Some?)
    ensures |Survivors(h, Gpu, d, k)| <= devices * |Survivors(h, Engine, d, k)|
    decreases |h|
  {
    if h != [] {
      var t := |h| - 1;
      SurvivorCounts(h[..t], d, k, devices);
      var e := |Survivors(h[..t], Engine, d, k)|;
      assert h[t] in h;
      assert |Survivors(h, Gpu, d, k)| <= devices * e + |SurvivingOf(t, h[t], Gpu, d, k)|;
      MulPlusOne(devices, e);
    }
  }

  /** It is bounded exactly as the engine buffer is, provided no device answers on a tick
      whose engine scrape failed. */
  lemma {:induction false} GpuBufferIsBoundedByTheEngines(h: seq<Scrape>, devices: nat)
    requires forall s :: s in h ==> |s.gpus| <= devices && (s.gpus != [] ==> s.engine.Some?)
    ensures |Collect(h).gpu| <= devices * (MAX_ENGINE_SAMPLES + 1)
  {
    ExactContent(h);
    SurvivorCounts(h, LastThinned(h), Collect(h).stride, devices);
    EngineBufferIsBounded(h);
    MulMonotone(devices, |Collect(h).engine|, MAX_ENGINE_SAMPLES + 1);
  }

  /** Kept ticks whose engine scrape failed. */
  function KeptSilent(h: seq<Scrape>, d: int, k: nat): nat
    requires k > 0
    decreases |h|
  {
    if h == [] then 0
    else
      var t := |h| - 1;
      KeptSilent(h[..t], d, k) + if Kept(t, d, k) && h[t].engine.None? then 1 else 0
  }

  function KeptCount(n: nat, d: int, k: nat): nat
    requires k > 0
  {
    if n == 0 then 0 else KeptCount(n - 1, d, k) + if Kept(n - 1, d, k) then 1 else 0
  }

  lemma {:induction false} EngineSurvivorsAreCounted(h: seq<Scrape>, d: int, k: nat)
    requires k > 0
    ensures |Survivors(h, Engine, d, k)| + KeptSilent(h, d, k) == KeptCount(|h|, d, k)
    decreases |h|
  {
    if h != [] { EngineSurvivorsAreCounted(h[..|h| - 1], d, k); }
  }

  /** `n` times `m`, counted out. */
  function Repeated(n: nat, m: nat): nat {
    if n == 0 then 0 else Repeated(n - 1, m) + m
  }

  lemma {:induction false} RepeatedIsProduct(n: nat, m: nat)
    ensures Repeated(n, m) == m * n
  {
    if n > 0 {
      RepeatedIsProduct(n - 1, m);
      MulPlusOne(m, n - 1);
    }
  }

  /** So many devices answer on every tick. */
  predicate AllReport(h: seq<Scrape>, devices: nat) {
    forall i :: 0 <= i < |h| ==> |h[i].gpus| == devices
  }

  lemma {:induction false} DeviceSurvivorsAreCounted(h: seq<Scrape>, d: int, k: nat, devices: nat)
    requires k > 0 && AllReport(h, devices)
    ensures |Survivors(h, Gpu, d, k)| == Repeated(KeptCount(|h|, d, k), devices)
    decreases |h|
  {
    if h != [] {
      var t := |h| - 1;
      DeviceSurvivorsAreCounted(h[..t], d, k, devices);
      assert |SurvivingOf(t, h[t], Gpu, d, k)| == if Kept(t, d, k) then devices else 0;
    }
  }

  /** Main result: the exact size of the device buffer, for any pattern of failed engine
      scrapes: one entry a device for every engine entry and every kept tick that has none. */
  lemma {:induction false} GpuBufferSizeIs(h: seq<Scrape>, b: Buffers, d: int, devices: nat)
    requires b == Collect(h) && d == LastThinned(h) && AllReport(h, devices)
    ensures |b.gpu| == devices * (|b.engine| + KeptSilent(h, d, b.stride))
  {
    ExactContentOf(h, b, d);
    SizeOfBuffers(b, h, d, devices);
  }

  lemma {:induction false} ExactContentOf(h: seq<Scrape>, b: Buffers, d: int)
    requires b == Collect(h) && d == LastThinned(h)
    ensures b.stride > 0 && b.engine == Survivors(h, Engine, d, b.stride) && b.gpu == Survivors(h, Gpu, d, b.stride)
  {
    ExactContent(h);
  }

  lemma {:induction false} SizeOfBuffers(b: Buffers, h: seq<Scrape>, d: int, devices: nat)
    requires b.stride > 0 && b.engine == Survivors(h, Engine, d, b.stride) && b.gpu == Survivors(h, Gpu, d, b.stride)
    requires AllReport(h, devices)
    ensures |b.gpu| == devices * (|b.engine| + KeptSilent(h, d, b.stride))
  {
    SurvivorSizes(h, d, b.stride, devices);
  }

  lemma {:induction false} SurvivorSizes(h: seq<Scrape>, d: int, k: nat, devices: nat)
    requires k > 0 && AllReport(h, devices)
    ensures |Survivors(h, Gpu, d, k)| == devices * (|Survivors(h, Engine, d, k)| + KeptSilent(h, d, k))
  {
    EngineSurvivorsAreCounted(h, d, k);
    DeviceSurvivorsAreCounted(h, d, k, devices);
    RepeatedIsProduct(KeptCount(|h|, d, k), devices);
  }

  lemma {:induction false} ProductWithin(size: nat, m: nat, n: nat, bound: nat)
    requires m > 0 && size == m * n
    ensures size <= m * bound <==> n <= bound
  {
  }

  /** How many multiples of `k` there are up to `d`, from 0 on. */
  function MarksUpTo(d: int, k: nat): nat
    requires k > 0
    decreases d + 1
  {
    if d < 0 then 0 else 1 + MarksUpTo(d - k, k)
  }

  lemma {:induction false} OneMoreMark(d: nat, k: nat)
    requires k > 0
    ensures MarksUpTo(d, k) == MarksUpTo(d - 1, k) + if Multiple(d, k) then 1 else 0
    decreases d
  {
    if d >= k { OneMoreMark(d - k, k); }
  }

  /** The ticks kept: those since the last thinning, and the stride's multiples up to it. */
  lemma {:induction false} KeptCountIs(n: nat, d: int, k: nat)
    requires k > 0 && -1 <= d
    ensures KeptCount(n, d, k) == if d < n then (n - d - 1) + MarksUpTo(d, k) else MarksUpTo(n - 1, k)
  {
    if n > 0 {
      KeptCountIs(n - 1, d, k);
      if n - 1 <= d { OneMoreMark(n - 1, k); }
    }
  }

  /** It is within the engine buffer's bound, device by device, if and only if the ticks since
      the last thinning and the multiples of the stride up to it together are. */
  lemma {:induction false} GpuBufferIsBoundedIff(h: seq<Scrape>, b: Buffers, d: int, devices: nat)
    requires b == Collect(h) && d == LastThinned(h) && AllReport(h, devices) && devices > 0
    ensures |b.gpu| <= devices * (MAX_ENGINE_SAMPLES + 1) <==>
      |h| - d - 1 + MarksUpTo(d, b.stride) <= MAX_ENGINE_SAMPLES + 1
  {
    ExactContentOf(h, b, d);
    WithinByTicks(b, h, d, devices, MAX_ENGINE_SAMPLES + 1);
  }

  lemma {:induction false} WithinByTicks(b: Buffers, h: seq<Scrape>, d: int, devices: nat, bound: nat)
    requires b.stride > 0 && b.gpu == Survivors(h, Gpu, d, b.stride) && AllReport(h, devices) && devices > 0
    requires -1 <= d < |h|
    ensures |b.gpu| <= devices * bound <==> |h| - d - 1 + MarksUpTo(d, b.stride) <= bound
  {
    DeviceSurvivorsAreCounted(h, d, b.stride, devices);
    KeptCountIs(|h|, d, b.stride);
    RepeatedIsProduct(KeptCount(|h|, d, b.stride), devices);
    ProductWithin(|b.gpu|, devices, KeptCount(|h|, d, b.stride), bound);
  }

  predicate AllAnswered(h: seq<Scrape>) {
    forall i :: 0 <= i < |h| ==> h[i].engine.Some?
  }

  ghost predicate HasTick(xs: seq<Tagged>, t: nat) {
    exists i :: 0 <= i < |xs| && xs[i].tick == t
  }

  lemma {:induction false} HasTickConcat(a: seq<Tagged>, b: seq<Tagged>, t: nat)
    ensures HasTick(a + b, t) <==> HasTick(a, t) || HasTick(b, t)
  {
    assert forall i :: 0 <= i < |a| ==> (a + b)[i] == a[i];
    assert forall i :: 0 <= i < |b| ==> (a + b)[|a| + i] == b[i];
  }

  lemma {:induction false} SurvivingHasTick(u: nat, s: Scrape, d: int, k: nat, t: nat)
    requires k > 0
    ensures HasTick(SurvivingOf(u, s, Engine, d, k), t) <==> t == u && Kept(t, d, k) && s.engine.Some?
  {
    var xs := SurvivingOf(u, s, Engine, d, k);
    if t == u && Kept(t, d, k) && s.engine.Some? { assert xs[0].tick == t; }
  }

  lemma {:induction false} SurvivorTicks(h: seq<Scrape>, d: int, k: nat, t: nat)
    requires k > 0
    ensures HasTick(Survivors(h, Engine, d, k), t) <==> t < |h| && Kept(t, d, k) && h[t].engine.Some?
    decreases |h|
  {
    if h != [] {
      var u := |h| - 1;
      SurvivorTicks(h[..u], d, k, t);
      SurvivingHasTick(u, h[u], d, k, t);
      HasTickConcat(Survivors(h[..u], Engine, d, k), SurvivingOf(u, h[u], Engine, d, k), t);
    }
  }

  lemma {:induction false} StrideOneUntilThinned(h: seq<Scrape>)
    ensures LastThinned(h) == -1 <==> Collect(h).stride == 1
    decreases |h|
  {
    if h != [] { StrideOneUntilThinned(h[..|h| - 1]); }
  }

  function Answered(n: nat): (h: seq<Scrape>)
    ensures |h| == n && AllAnswered(h)
  {
    if n == 0 then [] else Answered(n - 1) + [Scrape(Some(EngineSample(0.0, None)), [])]
  }

  lemma {:induction false} UnthinnedBelowTheCap(n: nat)
    requires n <= MAX_ENGINE_SAMPLES
    ensures |Collect(Answered(n)).engine| == n && LastThinned(Answered(n)) == -1
    ensures Collect(Answered(n)).stride == 1
  {
    if n > 0 {
      UnthinnedBelowTheCap(n - 1);
      assert Answered(n)[..n - 1] == Answered(n - 1);
    }
  }

  lemma {:induction false} EveryOtherTick(h: seq<Scrape>, d: int)
    requires AllAnswered(h) && d >= |h|
    ensures 2 * |Survivors(h, Engine, d, 2)| == |h| + if Multiple(|h|, 2) then 0 else 1
    decreases |h|
  {
    if h != [] {
      var t := |h| - 1;
      EveryOtherTick(h[..t], d);
      ParityAlternates(t);
    }
  }

  lemma {:induction false} ParityAlternates(t: nat)
    ensures Multiple(t, 2) <==> !Multiple(t + 1, 2)
  {
    if t >= 2 { ParityAlternates(t - 2); }
  }

  /** Two answered ticks past the cap: one thinning, one tick ago. */
  lemma {:induction false} TwoPastTheCap(m: nat)
    requires m == MAX_ENGINE_SAMPLES + 2
    ensures Collect(Answered(m)).stride == 2 && LastThinned(Answered(m)) == m - 2 && !Multiple(m - 1, 2)
  {
    var n := m - 2;
    var p, h, g := Answered(n), Answered(n + 1), Answered(m);
    UnthinnedBelowTheCap(n);
    assert h[..n] == p && g[..n + 1] == h;
    assert LastThinned(h) == n && Collect(h).stride == 2;
    ExactContent(h);
    SurvivorsPastTheEnd(h, n, n + 1, 2);
    EveryOtherTick(h, n + 1);
    OddMark(n + 1);
  }

  lemma {:induction false} SurvivorsPastTheEnd(h: seq<Scrape>, d: int, d': int, k: nat)
    requires k > 0 && d >= |h| - 1 && d' >= |h| - 1
    ensures Survivors(h, Engine, d, k) == Survivors(h, Engine, d', k)
    decreases |h|
  {
    if h != [] { SurvivorsPastTheEnd(h[..|h| - 1], d, d', k); }
  }

  lemma {:induction false} OddMark(n: nat)
    requires n == MAX_ENGINE_SAMPLES + 1
    ensures !Multiple(n, 2)
  {
    MultipleIsMod(n, 2);
  }

  // ---- Whole intervals ------------------------------------------------------------

  /** When slot `k` falls: the origin plus `k` whole intervals. */
  function SlotTime(origin: real, interval: real, k: nat): real {
    if k == 0 then origin else SlotTime(origin, interval, k - 1) + interval
  }

  lemma {:induction false} SlotTimeIsWholeIntervals(origin: real, interval: real, k: nat)
    ensures SlotTime(origin, interval, k) == origin + k as real * interval
  {
    if k > 0 {
      SlotTimeIsWholeIntervals(origin, interval, k - 1);
      assert k as real * interval == (k - 1) as real * interval + interval;
    }
  }

  lemma {:induction false} CollectNext(h: seq<Scrape>, i: nat)
    requires i < |h|
    ensures Collect(h[..i + 1]) == Step(Collect(h[..i]), h[i])
  {
    assert h[..i + 1] == h[..i] + [h[i]];
    CollectOneMore(h[..i], h[i]);
  }

  lemma {:induction false} InOfTick(xs: seq<Tagged>, x: Tagged)
    ensures x in xs <==> x in OfTick(xs, x.tick)
    decreases |xs|
  {
    if xs != [] {
      InOfTick(xs[..|xs| - 1], x);
      assert xs == xs[..|xs| - 1] + [xs[|xs| - 1]];
    }
  }

  /** The engine series of a history: what was scraped, tick by tick in order, thinned to the
      ticks after `d` and the multiples of the stride. */
  ghost predicate EngineSeries(h: seq<Scrape>, d: int, stride: nat, xs: seq<Tagged>)
    requires stride > 0
  {
    && (forall i, j :: 0 <= i < j < |xs| ==> xs[i].tick < xs[j].tick)
    && (forall x :: x in xs <==> x.tick < |h| && (x.tick > d || x.tick % stride == 0) && h[x.tick].engine == Some(x.sample))
  }

  /** Main result: the engine samples returned are exactly those scraped at the ticks kept. */
  lemma {:induction false} EngineSeriesIs(h: seq<Scrape>)
    ensures EngineSeries(h, LastThinned(h), Collect(h).stride, Collect(h).engine)
  {
    var b, d := Collect(h), LastThinned(h);
    RunStaysBounded(h);
    forall x: Tagged ensures x in b.engine <==>
      x.tick < |h| && (x.tick > d || x.tick % b.stride == 0) && h[x.tick].engine == Some(x.sample)
    {
      InOfTick(b.engine, x);
      if x.tick < |h| {
        WholeTicksSurvive(h, x.tick);
      } else {
        ExactContent(h);
        SurvivorsOfTick(h, Engine, d, b.stride, x.tick);
      }
    }
  }

  /** The ticks whose engine scrape was answered. */
  ghost function AnsweredTicks(h: seq<Scrape>): set<nat> {
    set t: nat | t < |h| && h[t].engine.Some?
  }

  lemma {:induction false} AnsweredOneMore(h: seq<Scrape>)
    requires h != []
    ensures |AnsweredTicks(h)| == |AnsweredTicks(h[..|h| - 1])| + if h[|h| - 1].engine.Some? then 1 else 0
  {
    var n := |h| - 1;
    assert AnsweredTicks(h) == AnsweredTicks(h[..n]) + if h[n].engine.Some? then {n} else {};
  }

  /** A benchmark is thinned exactly when more than 7200 of its engine scrapes are answered,
      and until then every one of them is held. */
  lemma {:induction false} ThinnedIff(h: seq<Scrape>)
    ensures LastThinned(h) >= 0 <==> |AnsweredTicks(h)| > 7200
    ensures LastThinned(h) == -1 ==> |Collect(h).engine| == |AnsweredTicks(h)|
    decreases |h|
  {
    if h != [] {
      ThinnedIff(h[..|h| - 1]);
      AnsweredOneMore(h);
    }
  }

  lemma {:induction false} FlagsAndBound(h: seq<Scrape>, b: Buffers)
    requires b == Collect(h)
    ensures |b.engine| <= 7201
    ensures b.stride > 1 <==> |AnsweredTicks(h)| > 7200
  {
    EngineBufferIsBounded(h);
    StrideOneUntilThinned(h);
    ThinnedIff(h);
  }

  // ---- The sampler itself ---------------------------------------------------------

  class TelemetrySampler {
    const interval: real
    var engine: seq<Tagged>
    var gpu: seq<Tagged>
    var tickIndex: nat
    var decimated: bool
    var keepStride: nat
    var effectiveInterval: real

    ghost predicate Valid()
      reads this
    {
      && interval >= 0.05 && keepStride > 0
      && (decimated <==> keepStride > 1)
      && effectiveInterval == SlotTime(0.0, interval, keepStride)
    }

    function Contents(): Buffers
      reads this
    {
      Buffers(engine, gpu, tickIndex, keepStride)
    }

    constructor (intervalSeconds: real)
      ensures Valid() && Contents() == Collect([])
      ensures interval == if intervalSeconds < 0.05 then 0.05 else intervalSeconds
    {
      interval := if intervalSeconds < 0.05 then 0.05 else intervalSeconds;
      engine, gpu, tickIndex := [], [], 0;
      decimated, keepStride := false, 1;
      effectiveInterval := if intervalSeconds < 0.05 then 0.05 else intervalSeconds;
      new;
      assert SlotTime(0.0, interval, 1) == SlotTime(0.0, interval, 0) + interval;
    }

    method Tick(scrape: Scrape)
      requires Valid()
      modifies this
      ensures Valid() && Contents() == Step(old(Contents()), scrape)
    {
      var tick := tickIndex;
      tickIndex := tickIndex + 1;
      engine := engine + TagAll(tick, Taken(scrape, Engine));
      gpu := gpu + TagAll(tick, Taken(scrape, Gpu));
      if |engine| > MAX_ENGINE_SAMPLES {
        Decimate();
      }
    }

    method Decimate()
      requires keepStride > 0
      modifies `engine, `gpu, `keepStride, `effectiveInterval, `decimated
      ensures Contents() == Thin(old(Contents()))
      ensures effectiveInterval == SlotTime(0.0, interval, keepStride) && decimated
    {
      keepStride := keepStride * 2;
      engine := FilterByStride(engine, keepStride);
      gpu := FilterByStride(gpu, keepStride);
      effectiveInterval := StretchedInterval(interval, keepStride);
      decimated := true;
    }

    /** The sampler driven through a whole benchmark: whatever scrapes failed, its fields end
        up a function of the scrapes, within the bound, and the interval it reports is a
        whole number of the configured ones. */
    method Sample(scrapes: seq<Scrape>)
      requires Valid() && Contents() == Collect([])
      modifies this
      ensures Valid() && Contents() == Collect(scrapes)
      ensures |engine| <= 7201
      ensures decimated <==> |AnsweredTicks(scrapes)| > 7200
      ensures EngineSeries(scrapes, LastThinned(scrapes), keepStride, engine)
    {
      for i := 0 to |scrapes|
        invariant Valid() && Contents() == Collect(scrapes[..i])
      {
        CollectNext(scrapes, i);
        Tick(scrapes[i]);
      }
      assert scrapes[..|scrapes|] == scrapes;
      FlagsAndBound(scrapes, Contents());
      EngineSeriesIs(scrapes);
    }
  }

  /** `interval` stretched to `stride` whole intervals. */
  method StretchedInterval(interval: real, stride: nat) returns (stretched: real)
    ensures stretched == SlotTime(0.0, interval, stride)
  {
    stretched := interval * stride as real;
    SlotTimeIsWholeIntervals(0.0, interval, stride);
  }

  /** The comprehension both buffers are rebuilt with. */
  method FilterByStride(xs: seq<Tagged>, k: nat) returns (kept: seq<Tagged>)
    requires k > 0
    ensures kept == Every(xs, k)
  {
    kept := [];
    for i := 0 to |xs|
      invariant kept == Every(xs[..i], k)
    {
      assert xs[..i + 1][..i] == xs[..i];
      MultipleIsMod(xs[i].tick, k);
      if xs[i].tick % k == 0 {
        kept := kept + [xs[i]];
      }
    }
    assert xs[..|xs|] == xs;
  }

  // ---- The schedule ---------------------------------------------------------------

  lemma {:induction false} SlotTimesGrow(origin: real, interval: real, a: nat, b: nat)
    requires interval > 0.0 && a <= b
    ensures SlotTime(origin, interval, a) <= SlotTime(origin, interval, b)
    decreases b
  {
    if a < b { SlotTimesGrow(origin, interval, a, b - 1); }
  }

  /** `next` is the first slot after `slot` whose time is still to come. */
  ghost predicate IsNextSlot(origin: real, interval: real, slot: nat, now: real, next: nat) {
    && next > slot
    && SlotTime(origin, interval, next) > now
    && forall k :: slot < k < next ==> SlotTime(origin, interval, k) <= now
  }

  /** `slots[i + 1]` is the slot slept towards after the i-th tick, which ended at `nows[i]`. */
  ghost predicate FollowsSchedule(origin: real, interval: real, nows: seq<real>, slots: seq<nat>) {
    && |slots| == |nows| + 1 && slots[0] == 0
    && forall i :: 0 <= i < |nows| ==> IsNextSlot(origin, interval, slots[i], nows[i], slots[i + 1])
  }

  /** The clock readings determine the schedule. */
  lemma {:induction false} ScheduleIsUnique(origin: real, interval: real, nows: seq<real>, a: seq<nat>, b: seq<nat>)
    requires FollowsSchedule(origin, interval, nows, a) && FollowsSchedule(origin, interval, nows, b)
    ensures a == b
    decreases |nows|
  {
    if nows != [] {
      var n := |nows| - 1;
      assert FollowsSchedule(origin, interval, nows[..n], a[..n + 1]) by {
        forall i | 0 <= i < n ensures IsNextSlot(origin, interval, a[..n + 1][i], nows[..n][i], a[..n + 1][i + 1]) {
          assert IsNextSlot(origin, interval, a[i], nows[i], a[i + 1]);
        }
      }
      assert FollowsSchedule(origin, interval, nows[..n], b[..n + 1]) by {
        forall i | 0 <= i < n ensures IsNextSlot(origin, interval, b[..n + 1][i], nows[..n][i], b[..n + 1][i + 1]) {
          assert IsNextSlot(origin, interval, b[i], nows[i], b[i + 1]);
        }
      }
      ScheduleIsUnique(origin, interval, nows[..n], a[..n + 1], b[..n + 1]);
      assert a[n] == a[..n + 1][n] == b[n];
      NextSlotIsUnique(origin, interval, a[n], nows[n], a[n + 1], b[n + 1]);
      assert a == a[..n + 1] + [a[n + 1]] && b == b[..n + 1] + [b[n + 1]];
    } else {
      assert a == [0] && b == [0];
    }
  }

  lemma {:induction false} NextSlotIsUnique(origin: real, interval: real, slot: nat, now: real, a: nat, b: nat)
    requires IsNextSlot(origin, interval, slot, now, a) && IsNextSlot(origin, interval, slot, now, b)
    ensures a == b
  {
  }

  /** After an overrun the slots run through are skipped, never replayed, and the next one
      lies at most one interval ahead. */
  lemma {:induction false} OverrunSkipsMissedSlots(origin: real, interval: real, slot: nat, now: real, next: nat)
    requires IsNextSlot(origin, interval, slot, now, next)
    requires SlotTime(origin, interval, slot + 1) <= now
    ensures now < SlotTime(origin, interval, next) <= now + interval
    ensures next > slot + 1
  {
    assert SlotTime(origin, interval, next - 1) <= now;
  }

  /** The sampling loop, run for as many ticks as `nows` has clock readings. Every wake-up
      time is a slot of the schedule the readings determine, and the sleep reaches it. */
  method RunSchedule(origin: real, interval: real, nows: seq<real>)
      returns (ticks: seq<real>, sleeps: seq<real>)
    requires interval > 0.0
    ensures |ticks| == |sleeps| == |nows|
    ensures exists slots :: FollowsSchedule(origin, interval, nows, slots)
                            && forall i :: 0 <= i < |nows| ==> ticks[i] == SlotTime(origin, interval, slots[i + 1])
    ensures forall i :: 0 <= i < |nows| ==> sleeps[i] == ticks[i] - nows[i] > 0.0
  {
    ticks, sleeps := [], [];
    ghost var slots: seq<nat> := [0];
    var nextTick := origin;
    for i := 0 to |nows|
      invariant |ticks| == |sleeps| == i
      invariant FollowsSchedule(origin, interval, nows[..i], slots)
      invariant nextTick == SlotTime(origin, interval, slots[i])
      invariant forall j :: 0 <= j < i ==> ticks[j] == SlotTime(origin, interval, slots[j + 1])
      invariant forall j :: 0 <= j < i ==> sleeps[j] == ticks[j] - nows[j] > 0.0
    {
      ghost var slot: nat;
      nextTick, slot := AdvanceTick(origin, interval, nextTick, nows[i], slots[i]);
      assert nows[..i + 1] == nows[..i] + [nows[i]];
      FollowsOneMore(origin, interval, nows[..i], slots, nows[i], slot);
      slots := slots + [slot];
      ticks := ticks + [nextTick];
      sleeps := sleeps + [if nextTick - nows[i] < 0.0 then 0.0 else nextTick - nows[i]];
    }
    assert nows[..|nows|] == nows;
  }

  lemma {:induction false} FollowsOneMore(origin: real, interval: real, nows: seq<real>, slots: seq<nat>,
                                          now: real, next: nat)
    requires FollowsSchedule(origin, interval, nows, slots)
    requires IsNextSlot(origin, interval, slots[|nows|], now, next)
    ensures FollowsSchedule(origin, interval, nows + [now], slots + [next])
  {
    var ns, ss := nows + [now], slots + [next];
    forall i | 0 <= i < |ns| ensures IsNextSlot(origin, interval, ss[i], ns[i], ss[i + 1]) {
      if i < |nows| {
        assert IsNextSlot(origin, interval, slots[i], nows[i], slots[i + 1]);
      }
    }
  }

  /** One advance of the wake-up time. */
  method AdvanceTick(origin: real, interval: real, tick: real, now: real, ghost slot: nat)
      returns (next: real, ghost nextSlot: nat)
    requires interval > 0.0 && tick == SlotTime(origin, interval, slot)
    ensures next == SlotTime(origin, interval, nextSlot)
    ensures IsNextSlot(origin, interval, slot, now, nextSlot)
  {
    next := tick + interval;
    nextSlot := slot + 1;
    assert next == SlotTime(origin, interval, slot + 1);
    if next <= now {
      var missed := ((now - next) / interval).Floor + 1;
      MissedSlots(origin, interval, slot + 1, now);
      next := next + missed as real * interval;
      nextSlot := nextSlot + missed;
    }
  }

  /** How many slots a wake-up `late` after its slot has run through. */
  function Missed(late: real, interval: real): int
    requires interval > 0.0
  {
    (late / interval).Floor + 1
  }

  function Product(a: real, b: real): real {
    a * b
  }

  /** The slots an overrun has run through are all in the past, and the one after them is not. */
  lemma {:induction false} MissedSlots(origin: real, interval: real, slot: nat, now: real)
    requires interval > 0.0 && SlotTime(origin, interval, slot) <= now
    ensures var missed := Missed(now - SlotTime(origin, interval, slot), interval);
            && missed >= 1
            && SlotTime(origin, interval, slot + missed) == SlotTime(origin, interval, slot) + Product(missed as real, interval)
            && SlotTime(origin, interval, slot + missed) > now
            && forall k :: slot <= k < slot + missed ==> SlotTime(origin, interval, k) <= now
  {
    var late := now - SlotTime(origin, interval, slot);
    var missed := Missed(late, interval);
    MissedBrackets(late, interval);
    SlotsApart(origin, interval, slot, missed);
    SlotsUntil(origin, interval, slot, now, missed - 1);
  }

  lemma {:induction false} SlotsUntil(origin: real, interval: real, slot: nat, now: real, whole: nat)
    requires interval > 0.0
    ensures Product(whole as real, interval) <= now - SlotTime(origin, interval, slot) ==>
      forall k :: slot <= k <= slot + whole ==> SlotTime(origin, interval, k) <= now
  {
    SlotsApart(origin, interval, slot, whole);
    forall k | slot <= k <= slot + whole ensures SlotTime(origin, interval, k) <= SlotTime(origin, interval, slot + whole) {
      SlotTimesGrow(origin, interval, k, slot + whole);
    }
  }

  lemma {:induction false} MissedBrackets(late: real, interval: real)
    requires interval > 0.0 && late >= 0.0
    ensures var missed := Missed(late, interval);
            missed >= 1 && Product((missed - 1) as real, interval) <= late < Product(missed as real, interval)
  {
    var q, missed := late / interval, Missed(late, interval);
    QuotientTimes(late, interval);
    FloorBrackets(q, missed, interval);
  }

  lemma {:induction false} FloorBrackets(q: real, hi: int, interval: real)
    requires interval > 0.0 && q >= 0.0 && hi == q.Floor + 1
    ensures hi >= 1
    ensures Product((hi - 1) as real, interval) <= Product(q, interval) < Product(hi as real, interval)
  {
    ScaleLess(q, hi as real, interval);
    if (hi - 1) as real < q { ScaleLess((hi - 1) as real, q, interval); }
  }

  lemma {:induction false} QuotientTimes(late: real, interval: real)
    requires interval > 0.0 && late >= 0.0
    ensures Product(late / interval, interval) == late && late / interval >= 0.0
  {
  }

  lemma {:induction false} SlotsApart(origin: real, interval: real, slot: nat, n: nat)
    ensures SlotTime(origin, interval, slot + n) == SlotTime(origin, interval, slot) + Product(n as real, interval)
  {
    if n > 0 {
      SlotsApart(origin, interval, slot, n - 1);
      assert SlotTime(origin, interval, slot + n) == SlotTime(origin, interval, slot + (n - 1)) + interval;
      OneMoreProduct(n, interval);
    }
  }

  lemma {:induction false} OneMoreProduct(n: nat, c: real)
    requires n > 0
    ensures Product(n as real, c) == Product((n - 1) as real, c) + c
  {
    assert n as real == (n - 1) as real + 1.0;
  }

  lemma {:induction false} ScaleLess(a: real, b: real, c: real)
    requires c > 0.0 && a < b
    ensures Product(a, c) < Product(b, c)
  {
    assert (b - a) * c > 0.0;
  }
}
