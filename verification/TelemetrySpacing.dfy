/** What the reported interval says about when samples were taken: ticks on their schedule. */
module TelemetrySpacing {
  import opened Prelude
  import opened Telemetry

  // ---- Slots and time -------------------------------------------------------------------

  /** The interval reported at a stride, as `Decimate` leaves it. */
  function Reported(interval: real, stride: nat): real {
    SlotTime(0.0, interval, stride)
  }

  lemma {:induction false} SlotTimeShifts(origin: real, interval: real, a: nat, n: nat)
    ensures SlotTime(origin, interval, a + n) == SlotTime(origin, interval, a) + SlotTime(0.0, interval, n)
  {
    if n > 0 {
      SlotTimeShifts(origin, interval, a, n - 1);
      assert SlotTime(origin, interval, a + n) == SlotTime(origin, interval, a + (n - 1)) + interval;
    }
  }

  lemma {:induction false} LaterSlotIsLater(origin: real, interval: real, a: nat, b: nat)
    requires interval > 0.0 && a < b
    ensures SlotTime(origin, interval, a) < SlotTime(origin, interval, b)
  {
    SlotTimesGrow(origin, interval, a, b - 1);
  }

  /** So many intervals lie between two slots exactly when so many slots do. */
  lemma {:induction false} ApartInTimeIff(origin: real, interval: real, a: nat, b: nat, n: nat)
    requires interval > 0.0 && a <= b
    ensures SlotTime(origin, interval, b) - SlotTime(origin, interval, a) == Reported(interval, n) <==> b == a + n
  {
    SlotTimeShifts(origin, interval, a, n);
    if b < a + n { LaterSlotIsLater(origin, interval, b, a + n); }
    if a + n < b { LaterSlotIsLater(origin, interval, a + n, b); }
  }

  predicate Rising(slots: seq<nat>) {
    forall t :: 0 < t < |slots| ==> slots[t - 1] < slots[t]
  }

  lemma {:induction false} ScheduleRises(origin: real, interval: real, nows: seq<real>, slots: seq<nat>)
    requires FollowsSchedule(origin, interval, nows, slots)
    ensures Rising(slots)
  {
    forall t | 0 < t < |slots| ensures slots[t - 1] < slots[t] {
      assert IsNextSlot(origin, interval, slots[t - 1], nows[t - 1], slots[t - 1 + 1]);
    }
  }

  lemma {:induction false} RisesAtLeast(slots: seq<nat>, u: nat, t: nat)
    requires Rising(slots) && u <= t < |slots|
    ensures slots[t] >= slots[u] + (t - u)
    decreases t
  {
    if u < t { RisesAtLeast(slots, u, t - 1); }
  }

  /** No tick from `u` up to `t` ran into the slot of the next. */
  predicate OnTime(slots: seq<nat>, u: nat, t: nat)
    requires t < |slots|
  {
    forall v :: u < v <= t ==> slots[v] == slots[v - 1] + 1
  }

  lemma {:induction false} OnTimeIff(slots: seq<nat>, u: nat, t: nat)
    requires Rising(slots) && u <= t < |slots|
    ensures OnTime(slots, u, t) <==> slots[t] + u == slots[u] + t
    decreases t
  {
    if u < t {
      OnTimeIff(slots, u, t - 1);
      RisesAtLeast(slots, u, t - 1);
      if OnTime(slots, u, t - 1) && slots[t] == slots[t - 1] + 1 {
        assert OnTime(slots, u, t);
      }
      if OnTime(slots, u, t) {
        assert forall v :: u < v <= t - 1 ==> slots[v] == slots[v - 1] + 1;
      }
    }
  }

  // ---- Neighbours in the buffer are neighbours among the kept ticks -------------------------

  ghost predicate Sampled(h: seq<Scrape>, d: int, k: nat, t: nat)
    requires k > 0
  {
    t < |h| && Kept(t, d, k) && h[t].engine.Some?
  }

  ghost function SampledIn(h: seq<Scrape>, d: int, k: nat): nat -> bool
    requires k > 0
  {
    (t: nat) => Sampled(h, d, k, t)
  }

  /** Two ticks that are in, with none in between. */
  ghost predicate Neighbours(isIn: nat -> bool, u: nat, t: nat) {
    u < t && isIn(u) && isIn(t) && forall v: nat :: u < v < t ==> !isIn(v)
  }

  ghost predicate TicksAre(xs: seq<Tagged>, isIn: nat -> bool) {
    forall t: nat :: HasTick(xs, t) <==> isIn(t)
  }

  lemma {:induction false} NoTickBetween(xs: seq<Tagged>, bound: nat, i: nat, v: nat)
    requires Ascending(xs, bound) && 0 < i < |xs| && HasTick(xs, v)
    ensures v <= xs[i - 1].tick || xs[i].tick <= v
  {
    var j :| 0 <= j < |xs| && xs[j].tick == v;
  }

  lemma {:induction false} BufferNeighbour(xs: seq<Tagged>, bound: nat, isIn: nat -> bool, i: nat)
    requires Ascending(xs, bound) && TicksAre(xs, isIn) && 0 < i < |xs|
    ensures Neighbours(isIn, xs[i - 1].tick, xs[i].tick)
  {
    var u, t := xs[i - 1].tick, xs[i].tick;
    assert HasTick(xs, u) && HasTick(xs, t);
    forall v: nat ensures isIn(v) ==> v <= u || t <= v {
      if HasTick(xs, v) { NoTickBetween(xs, bound, i, v); }
    }
  }

  lemma {:induction false} TickNeighbour(xs: seq<Tagged>, bound: nat, isIn: nat -> bool, u: nat, t: nat) returns (i: nat)
    requires Ascending(xs, bound) && TicksAre(xs, isIn) && Neighbours(isIn, u, t)
    ensures 0 < i < |xs| && xs[i - 1].tick == u && xs[i].tick == t
  {
    assert HasTick(xs, u) && HasTick(xs, t);
    var j :| 0 <= j < |xs| && xs[j].tick == u;
    var l :| 0 <= l < |xs| && xs[l].tick == t;
    i := j + 1;
    assert HasTick(xs, xs[i].tick);
  }

  /** What holds of each two neighbours in a buffer holds of each two neighbouring ticks. */
  lemma {:induction false} BufferNeighbours(xs: seq<Tagged>, bound: nat, isIn: nat -> bool, f: (nat, nat) -> bool)
    requires Ascending(xs, bound) && TicksAre(xs, isIn)
    ensures (forall i :: 0 < i < |xs| ==> f(xs[i - 1].tick, xs[i].tick)) <==>
            (forall u: nat, t: nat :: Neighbours(isIn, u, t) ==> f(u, t))
  {
    if forall u: nat, t: nat :: Neighbours(isIn, u, t) ==> f(u, t) {
      forall i | 0 < i < |xs| ensures f(xs[i - 1].tick, xs[i].tick) {
        BufferNeighbour(xs, bound, isIn, i);
      }
    }
    if forall i :: 0 < i < |xs| ==> f(xs[i - 1].tick, xs[i].tick) {
      forall u: nat, t: nat | Neighbours(isIn, u, t) ensures f(u, t) {
        var i := TickNeighbour(xs, bound, isIn, u, t);
      }
    }
  }

  // ---- The reported interval as the spacing of the samples -------------------------------------

  /** Neighbouring samples are the reported interval apart, each taken at its tick's slot. */
  predicate ReportedApart(xs: seq<Tagged>, stride: nat, origin: real, interval: real, slots: seq<nat>)
    requires forall i :: 0 <= i < |xs| ==> xs[i].tick < |slots|
  {
    forall i :: 0 < i < |xs| ==>
      SlotTime(origin, interval, slots[xs[i].tick]) - SlotTime(origin, interval, slots[xs[i - 1].tick]) == Reported(interval, stride)
  }

  /** A history with the schedule its ticks ran on. */
  ghost predicate Ran(h: seq<Scrape>, origin: real, interval: real, nows: seq<real>, slots: seq<nat>) {
    interval > 0.0 && |nows| + 1 == |h| && FollowsSchedule(origin, interval, nows, slots)
  }

  lemma {:induction false} BufferTicks(h: seq<Scrape>, b: Buffers, d: int)
    requires b == Collect(h) && d == LastThinned(h)
    ensures b.stride > 0 && Ascending(b.engine, |h|)
    ensures TicksAre(b.engine, SampledIn(h, d, b.stride))
  {
    RunStaysBounded(h);
    ExactContentOf(h, b, d);
    forall t: nat ensures HasTick(b.engine, t) <==> Sampled(h, d, b.stride, t) {
      SurvivorTicks(h, d, b.stride, t);
    }
  }

  /** Two ticks that ran so many slots apart. */
  predicate SlotsBetween(slots: seq<nat>, k: nat, u: nat, t: nat) {
    u < |slots| && t < |slots| && slots[t] == slots[u] + k
  }

  lemma {:induction false} NeighboursApartIff(origin: real, interval: real, slots: seq<nat>, k: nat, u: nat, t: nat)
    requires interval > 0.0 && Rising(slots) && u < t < |slots|
    ensures SlotTime(origin, interval, slots[t]) - SlotTime(origin, interval, slots[u]) == Reported(interval, k)
            <==> SlotsBetween(slots, k, u, t)
  {
    RisesAtLeast(slots, u, t);
    ApartInTimeIff(origin, interval, slots[u], slots[t], k);
  }

  lemma {:induction false} ApartInSlotsIff(xs: seq<Tagged>, k: nat, origin: real, interval: real, slots: seq<nat>)
    requires interval > 0.0 && Rising(slots) && Ascending(xs, |slots|)
    ensures ReportedApart(xs, k, origin, interval, slots) <==>
      forall i :: 0 < i < |xs| ==> SlotsBetween(slots, k, xs[i - 1].tick, xs[i].tick)
  {
    forall i | 0 < i < |xs|
      ensures SlotTime(origin, interval, slots[xs[i].tick]) - SlotTime(origin, interval, slots[xs[i - 1].tick]) == Reported(interval, k)
              <==> SlotsBetween(slots, k, xs[i - 1].tick, xs[i].tick)
    {
      NeighboursApartIff(origin, interval, slots, k, xs[i - 1].tick, xs[i].tick);
    }
  }

  lemma {:induction false} NeighboursInSlotsIff(xs: seq<Tagged>, k: nat, isIn: nat -> bool, origin: real, interval: real, slots: seq<nat>)
    requires interval > 0.0 && Rising(slots) && Ascending(xs, |slots|) && TicksAre(xs, isIn)
    ensures ReportedApart(xs, k, origin, interval, slots) <==>
      forall u: nat, t: nat :: Neighbours(isIn, u, t) ==> SlotsBetween(slots, k, u, t)
  {
    ApartInSlotsIff(xs, k, origin, interval, slots);
    BufferNeighbours(xs, |slots|, isIn, (u: nat, t: nat) => SlotsBetween(slots, k, u, t));
  }

  /** Main result: whatever scrapes failed and however ticks overran, neighbouring engine
      samples are the reported interval apart in time if and only if any two ticks kept and
      answered, with none such between them, ran as many slots apart as the stride. */
  lemma {:induction false} IntervalDescribesSpacingIff(h: seq<Scrape>, b: Buffers, d: int,
                                                       origin: real, interval: real, nows: seq<real>, slots: seq<nat>)
    requires Ran(h, origin, interval, nows, slots) && b == Collect(h) && d == LastThinned(h)
    ensures Ascending(b.engine, |slots|)
    ensures ReportedApart(b.engine, b.stride, origin, interval, slots) <==>
      forall u: nat, t: nat :: Neighbours(SampledIn(h, d, b.stride), u, t) ==> SlotsBetween(slots, b.stride, u, t)
  {
    ScheduleRises(origin, interval, nows, slots);
    BufferTicks(h, b, d);
    NeighboursInSlotsIff(b.engine, b.stride, SampledIn(h, d, b.stride), origin, interval, slots);
  }

  // ---- When every scrape answered --------------------------------------------------------------

  /** The last multiple of the stride up to a tick. */
  function LastMark(d: nat, k: nat): (m: nat)
    requires k > 0
    ensures m <= d && Multiple(m, k) && forall v: nat :: m < v <= d ==> !Multiple(v, k)
  {
    if Multiple(d, k) then d else LastMark(d - 1, k)
  }

  lemma {:induction false} NextMultiple(u: nat, k: nat)
    requires k > 0 && Multiple(u, k)
    ensures Multiple(u + k, k) && forall v: nat :: u < v < u + k ==> !Multiple(v, k)
  {
    assert (u + k) - k == u;
    forall v: nat | u < v < u + k ensures !Multiple(v, k) {
      BetweenMultiples(u, v, k);
    }
  }

  /** The slots at which samples come the reported interval apart: no overrun up to the last
      multiple of the stride before the thinning, the next tick a stride of slots after that
      one, and each later tick a stride of slots after the one before. */
  predicate SpacedSlots(slots: seq<nat>, d: int, k: nat)
    requires k > 0 && -1 <= d < |slots|
  {
    && (d >= 0 ==> OnTime(slots, 0, LastMark(d, k)))
    && (0 <= d < |slots| - 1 ==> slots[d + 1] == slots[LastMark(d, k)] + k)
    && (forall t :: d + 1 < t < |slots| ==> slots[t] == slots[t - 1] + k)
  }

  lemma {:induction false} NotBetween(isIn: nat -> bool, u: nat, t: nat, v: nat)
    requires Neighbours(isIn, u, t)
    ensures isIn(v) ==> v <= u || t <= v
  {
  }

  lemma {:induction false} AnsweredNeighbours(h: seq<Scrape>, d: int, k: nat, u: nat, t: nat)
    requires k > 0 && d >= -1 && AllAnswered(h) && Neighbours(SampledIn(h, d, k), u, t)
    ensures t < |h|
    ensures t <= d ==> Multiple(u, k) && Multiple(t, k) && t == u + k
    ensures t == d + 1 ==> d >= 0 && u == LastMark(d, k)
    ensures t > d + 1 ==> u == t - 1
  {
    var isIn := SampledIn(h, d, k);
    assert isIn(u) && isIn(t);
    if t <= d {
      NextMultiple(u, k);
      NotBetween(isIn, u, t, u + k);
    } else if t > d + 1 {
      NotBetween(isIn, u, t, t - 1);
    } else if d >= 0 {
      NotBetween(isIn, u, t, LastMark(d, k));
    }
  }

  lemma {:induction false} MarksAreNeighbours(h: seq<Scrape>, d: int, k: nat, u: nat)
    requires k > 0 && AllAnswered(h) && Multiple(u, k) && u + k <= d < |h|
    ensures Neighbours(SampledIn(h, d, k), u, u + k)
  {
    NextMultiple(u, k);
  }

  lemma {:induction false} OnTimePart(slots: seq<nat>, a: nat, u: nat, t: nat, z: nat)
    requires a <= u && t <= z < |slots| && OnTime(slots, a, z)
    ensures OnTime(slots, u, t)
  {
  }

  lemma {:induction false} SpacedSlotsSuffice(h: seq<Scrape>, d: int, k: nat, slots: seq<nat>, u: nat, t: nat)
    requires k > 0 && -1 <= d < |h| == |slots| && AllAnswered(h) && Rising(slots)
    requires SpacedSlots(slots, d, k) && Neighbours(SampledIn(h, d, k), u, t)
    ensures SlotsBetween(slots, k, u, t)
  {
    AnsweredNeighbours(h, d, k, u, t);
    if t <= d {
      assert t <= LastMark(d, k);
      OnTimePart(slots, 0, u, t, LastMark(d, k));
      OnTimeIff(slots, u, t);
    }
  }

  /** Neighbouring marks that ran a stride of slots apart had no overrun between them. */
  lemma {:induction false} MarksOnTime(h: seq<Scrape>, d: int, k: nat, slots: seq<nat>, v: nat)
    requires k > 0 && 0 <= d < |h| == |slots| && AllAnswered(h) && Rising(slots)
    requires forall u: nat, t: nat :: Neighbours(SampledIn(h, d, k), u, t) ==> SlotsBetween(slots, k, u, t)
    requires 0 < v <= LastMark(d, k)
    ensures slots[v] == slots[v - 1] + 1
  {
    var u := LastMark(v - 1, k);
    NextMultiple(u, k);
    assert v <= u + k;
    MarksAreNeighbours(h, d, k, u);
    assert SlotsBetween(slots, k, u, u + k);
    OnTimeIff(slots, u, u + k);
  }

  lemma {:induction false} SpacedSlotsAreNeeded(h: seq<Scrape>, d: int, k: nat, slots: seq<nat>)
    requires k > 0 && -1 <= d < |h| == |slots| && AllAnswered(h) && Rising(slots)
    requires forall u: nat, t: nat :: Neighbours(SampledIn(h, d, k), u, t) ==> SlotsBetween(slots, k, u, t)
    ensures SpacedSlots(slots, d, k)
  {
    if d >= 0 {
      forall v | 0 < v <= LastMark(d, k) ensures slots[v] == slots[v - 1] + 1 {
        MarksOnTime(h, d, k, slots, v);
      }
      if d + 1 < |slots| {
        assert Neighbours(SampledIn(h, d, k), LastMark(d, k), d + 1);
        assert SlotsBetween(slots, k, LastMark(d, k), d + 1);
      }
    }
    forall t | d + 1 < t < |slots| ensures slots[t] == slots[t - 1] + k {
      assert Neighbours(SampledIn(h, d, k), t - 1, t);
      assert SlotsBetween(slots, k, t - 1, t);
    }
  }

  /** Main result: when every scrape answered, in terms of the schedule alone. */
  lemma {:induction false} AnsweredSpacingIff(h: seq<Scrape>, b: Buffers, d: int,
                                              origin: real, interval: real, nows: seq<real>, slots: seq<nat>)
    requires Ran(h, origin, interval, nows, slots) && b == Collect(h) && d == LastThinned(h) && AllAnswered(h)
    ensures Ascending(b.engine, |slots|)
    ensures ReportedApart(b.engine, b.stride, origin, interval, slots) <==> SpacedSlots(slots, d, b.stride)
  {
    ScheduleRises(origin, interval, nows, slots);
    IntervalDescribesSpacingIff(h, b, d, origin, interval, nows, slots);
    if SpacedSlots(slots, d, b.stride) {
      forall u: nat, t: nat | Neighbours(SampledIn(h, d, b.stride), u, t) ensures SlotsBetween(slots, b.stride, u, t) {
        SpacedSlotsSuffice(h, d, b.stride, slots, u, t);
      }
    }
    if forall u: nat, t: nat :: Neighbours(SampledIn(h, d, b.stride), u, t) ==> SlotsBetween(slots, b.stride, u, t) {
      SpacedSlotsAreNeeded(h, d, b.stride, slots);
    }
  }

  // ---- What a caller can check --------------------------------------------------------------------

  /** With every scrape answered and nothing thinned, the interval describes the spacing if and
      only if no tick overran. */
  lemma {:induction false} UnthinnedSpacingIff(h: seq<Scrape>, b: Buffers, origin: real, interval: real, nows: seq<real>, slots: seq<nat>)
    requires Ran(h, origin, interval, nows, slots) && b == Collect(h) && LastThinned(h) == -1 && AllAnswered(h)
    ensures Ascending(b.engine, |slots|)
    ensures ReportedApart(b.engine, b.stride, origin, interval, slots) <==> OnTime(slots, 0, |h| - 1)
  {
    StrideOneUntilThinned(h);
    AnsweredSpacingIff(h, b, -1, origin, interval, nows, slots);
  }

  /** The newest tick whose sample is kept when every scrape answered. */
  function NewestKept(n: nat, d: int, k: nat): nat
    requires k > 0 && n > 0 && -1 <= d < n
  {
    if d == n - 1 then LastMark(d, k) else n - 1
  }

  /** With every scrape answered and no overrun up to the newest tick kept, it describes the
      spacing if and only if nothing was thinned, or the run stopped at the thinning, or one
      tick later and on the grid. */
  lemma {:induction false} OnTimeSpacingIff(h: seq<Scrape>, b: Buffers, d: int,
                                            origin: real, interval: real, nows: seq<real>, slots: seq<nat>)
    requires Ran(h, origin, interval, nows, slots) && b == Collect(h) && d == LastThinned(h) && AllAnswered(h)
    requires OnTime(slots, 0, NewestKept(|h|, d, b.stride))
    ensures Ascending(b.engine, |slots|)
    ensures ReportedApart(b.engine, b.stride, origin, interval, slots) <==>
      b.stride == 1 || |h| == d + 1 || (|h| == d + 2 && Multiple(d + 1, b.stride))
  {
    StrideOneUntilThinned(h);
    AnsweredSpacingIff(h, b, d, origin, interval, nows, slots);
    OnTimeSlotsIff(slots, d, b.stride);
  }

  lemma {:induction false} OnTimeSlotsIff(slots: seq<nat>, d: int, k: nat)
    requires k > 0 && -1 <= d < |slots| && slots != [] && (d == -1 <==> k == 1) && OnTime(slots, 0, NewestKept(|slots|, d, k))
    ensures SpacedSlots(slots, d, k) <==> k == 1 || |slots| == d + 1 || (|slots| == d + 2 && Multiple(d + 1, k))
  {
    if 0 <= d {
      var m, n := LastMark(d, k), |slots|;
      if d < n - 1 {
        OnTimeTicks(slots, m, n - 1);
        OnTimeTicks(slots, d + 1, n - 1);
        MarkAfter(d, k);
        if d + 2 < n { assert slots[d + 2] == slots[d + 1] + 1; }
      }
    }
  }

  lemma {:induction false} OnTimeTicks(slots: seq<nat>, u: nat, t: nat)
    requires u <= t < |slots| && OnTime(slots, 0, t)
    ensures slots[u] == slots[0] + u
  {
    if u > 0 { OnTimeTicks(slots, u - 1, t); }
  }

  lemma {:induction false} MarkAfter(d: nat, k: nat)
    requires k > 0
    ensures d < LastMark(d, k) + k
    ensures Multiple(d + 1, k) <==> d + 1 == LastMark(d, k) + k
  {
    NextMultiple(LastMark(d, k), k);
  }

  // ---- The two ways it goes wrong ------------------------------------------------------------------

  /** One overrun is enough: two answered scrapes, nothing thinned, the first ending two and a
      half intervals late. One second is reported, the samples are three apart. */
  lemma {:induction false} OverrunMisreported()
    ensures Ran(Answered(2), 0.0, 1.0, [2.5], [0, 3])
    ensures var b := Collect(Answered(2));
            b.stride == 1 && Ascending(b.engine, 2) && !ReportedApart(b.engine, b.stride, 0.0, 1.0, [0, 3])
  {
    assert SlotTime(0.0, 1.0, 1) == 1.0 && SlotTime(0.0, 1.0, 2) == 2.0 && SlotTime(0.0, 1.0, 3) == 3.0;
    forall k | 0 < k < 3 ensures SlotTime(0.0, 1.0, k) <= 2.5 {
      SlotTimesGrow(0.0, 1.0, k, 2);
    }
    assert IsNextSlot(0.0, 1.0, 0, 2.5, 3);
    UnthinnedBelowTheCap(2);
    var slots: seq<nat> := [0, 3];
    assert slots[1] != slots[1 - 1] + 1;
    UnthinnedSpacingIff(Answered(2), Collect(Answered(2)), 0.0, 1.0, [2.5], [0, 3]);
  }

  /** Two ticks past the cap, none of them late, the interval reported has doubled and the last
      two samples are one interval apart. */
  lemma {:induction false} IntervalMisreported(n: nat, h: seq<Scrape>, origin: real, interval: real, nows: seq<real>, slots: seq<nat>)
    requires n == MAX_ENGINE_SAMPLES + 2 && h == Answered(n)
    requires Ran(h, origin, interval, nows, slots) && OnTime(slots, 0, n - 1)
    ensures var b := Collect(h);
            b.stride == 2 && Ascending(b.engine, n) && !ReportedApart(b.engine, b.stride, origin, interval, slots)
  {
    TwoPastTheCap(n);
    OnTimeSpacingIff(h, Collect(h), LastThinned(h), origin, interval, nows, slots);
  }

  /** Late ticks can also make up for a thinning: each run a whole stride after the one before. */
  function LateSlot(d: nat, k: nat, t: nat): nat
    requires k > 0
  {
    if t <= d then t else if t == d + 1 then LastMark(d, k) + k else LateSlot(d, k, t - 1) + k
  }

  function LateSlots(d: nat, k: nat, n: nat): (slots: seq<nat>)
    requires k > 0
    ensures |slots| == n && forall t :: 0 <= t < n ==> slots[t] == LateSlot(d, k, t)
  {
    seq(n, t requires 0 <= t < n => LateSlot(d, k, t))
  }

  lemma {:induction false} LateSlotsRise(d: nat, k: nat, n: nat)
    requires k > 0 && d < n
    ensures Rising(LateSlots(d, k, n)) && SpacedSlots(LateSlots(d, k, n), d, k)
  {
    MarkAfter(d, k);
  }

  function SlotBefore(slot: nat): nat {
    if slot == 0 then 0 else slot - 1
  }

  /** Clock readings that make the sampler keep to any rising slots. */
  function Readings(origin: real, interval: real, slots: seq<nat>): (nows: seq<real>)
    requires slots != []
    ensures |nows| + 1 == |slots|
    ensures forall i :: 0 <= i < |nows| ==> nows[i] == SlotTime(origin, interval, SlotBefore(slots[i + 1]))
  {
    seq(|slots| - 1, i requires 0 <= i < |slots| - 1 => SlotTime(origin, interval, SlotBefore(slots[i + 1])))
  }

  lemma {:induction false} ReadingsFollow(origin: real, interval: real, slots: seq<nat>)
    requires slots != [] && slots[0] == 0 && Rising(slots) && interval > 0.0
    ensures FollowsSchedule(origin, interval, Readings(origin, interval, slots), slots)
  {
    var nows := Readings(origin, interval, slots);
    forall i | 0 <= i < |nows| ensures IsNextSlot(origin, interval, slots[i], nows[i], slots[i + 1]) {
      assert slots[i + 1 - 1] < slots[i + 1];
      forall k | slots[i] < k < slots[i + 1] ensures SlotTime(origin, interval, k) <= nows[i] {
        SlotTimesGrow(origin, interval, k, slots[i + 1] - 1);
      }
    }
  }

  /** So for every history that was thinned, however long ago, there is a schedule on which the
      samples are the reported interval apart after all. */
  lemma {:induction false} LateTicksAreSpaced(h: seq<Scrape>, b: Buffers, d: nat, origin: real, interval: real)
    requires AllAnswered(h) && b == Collect(h) && d == LastThinned(h) && interval > 0.0
    ensures var slots := LateSlots(d, b.stride, |h|);
            && Rising(slots) && Ran(h, origin, interval, Readings(origin, interval, slots), slots)
            && Ascending(b.engine, |slots|) && ReportedApart(b.engine, b.stride, origin, interval, slots)
  {
    var slots := LateSlots(d, b.stride, |h|);
    LateSlotsRise(d, b.stride, |h|);
    ReadingsFollow(origin, interval, slots);
    AnsweredSpacingIff(h, b, d, origin, interval, Readings(origin, interval, slots), slots);
  }

  // ---- The reported interval as a grid ----------------------------------------------------------------

  /** `n` strides of slots. */
  function Strides(n: nat, k: nat): nat {
    if n == 0 then 0 else Strides(n - 1, k) + k
  }

  lemma {:induction false} StridesAreMultiples(n: nat, k: nat)
    requires k > 0
    ensures Multiple(Strides(n, k), k)
  {
    if n > 0 {
      StridesAreMultiples(n - 1, k);
      NextMultiple(Strides(n - 1, k), k);
    }
  }

  lemma {:induction false} MultipleIsStrides(t: nat, k: nat) returns (n: nat)
    requires k > 0 && Multiple(t, k)
    ensures t == Strides(n, k)
    decreases t
  {
    if t == 0 {
      n := 0;
    } else {
      var before := MultipleIsStrides(t - k, k);
      n := before + 1;
    }
  }

  /** Whole reported intervals are whole strides of slots. */
  lemma {:induction false} ReportedGrid(origin: real, interval: real, k: nat, n: nat)
    ensures SlotTime(origin, Reported(interval, k), n) == SlotTime(origin, interval, Strides(n, k))
  {
    if n > 0 {
      ReportedGrid(origin, interval, k, n - 1);
      SlotTimeShifts(origin, interval, Strides(n - 1, k), k);
    }
  }

  /** The sample's time is the origin plus a whole number of reported intervals. */
  ghost predicate OnGrid(origin: real, interval: real, k: nat, slot: nat) {
    exists n: nat :: SlotTime(origin, Reported(interval, k), n) == SlotTime(origin, interval, slot)
  }

  lemma {:induction false} OnGridIff(origin: real, interval: real, k: nat, slot: nat)
    requires interval > 0.0 && k > 0
    ensures OnGrid(origin, interval, k, slot) <==> Multiple(slot, k)
  {
    if Multiple(slot, k) {
      var n := MultipleIsStrides(slot, k);
      ReportedGrid(origin, interval, k, n);
    }
    if OnGrid(origin, interval, k, slot) {
      var n: nat :| SlotTime(origin, Reported(interval, k), n) == SlotTime(origin, interval, slot);
      ReportedGrid(origin, interval, k, n);
      StridesAreMultiples(n, k);
      if Strides(n, k) < slot { LaterSlotIsLater(origin, interval, Strides(n, k), slot); }
      if slot < Strides(n, k) { LaterSlotIsLater(origin, interval, slot, Strides(n, k)); }
    }
  }

  ghost predicate AllOnGrid(xs: seq<Tagged>, k: nat, origin: real, interval: real, slots: seq<nat>)
    requires forall i :: 0 <= i < |xs| ==> xs[i].tick < |slots|
  {
    forall i :: 0 <= i < |xs| ==> OnGrid(origin, interval, k, slots[xs[i].tick])
  }

  /** Main result: on any history and schedule, all samples lie on the grid of the reported
      interval if and only if every tick that is kept and answered ran on a slot that is a
      multiple of the stride. */
  lemma {:induction false} SamplesAreOnTheGridIff(h: seq<Scrape>, b: Buffers, d: int,
                                                  origin: real, interval: real, nows: seq<real>, slots: seq<nat>)
    requires Ran(h, origin, interval, nows, slots) && b == Collect(h) && d == LastThinned(h)
    ensures Ascending(b.engine, |slots|)
    ensures AllOnGrid(b.engine, b.stride, origin, interval, slots) <==>
      forall t :: 0 <= t < |h| && Kept(t, d, b.stride) && h[t].engine.Some? ==> Multiple(slots[t], b.stride)
  {
    BufferTicks(h, b, d);
    var isIn := SampledIn(h, d, b.stride);
    GridOfTicksIff(b.engine, b.stride, isIn, origin, interval, slots);
    assert forall t: nat :: isIn(t) <==> t < |h| && Kept(t, d, b.stride) && h[t].engine.Some?;
  }

  lemma {:induction false} GridOfTicksIff(xs: seq<Tagged>, k: nat, isIn: nat -> bool, origin: real, interval: real, slots: seq<nat>)
    requires interval > 0.0 && k > 0 && Ascending(xs, |slots|) && TicksAre(xs, isIn)
    ensures AllOnGrid(xs, k, origin, interval, slots) <==> forall t: nat :: isIn(t) ==> t < |slots| && Multiple(slots[t], k)
  {
    forall i | 0 <= i < |xs| ensures OnGrid(origin, interval, k, slots[xs[i].tick]) <==> Multiple(slots[xs[i].tick], k) {
      OnGridIff(origin, interval, k, slots[xs[i].tick]);
    }
    if AllOnGrid(xs, k, origin, interval, slots) {
      forall t: nat | isIn(t) ensures t < |slots| && Multiple(slots[t], k) {
        assert HasTick(xs, t);
      }
    }
    if forall t: nat :: isIn(t) ==> t < |slots| && Multiple(slots[t], k) {
      forall i | 0 <= i < |xs| ensures Multiple(slots[xs[i].tick], k) {
        assert HasTick(xs, xs[i].tick);
      }
    }
  }

  /** Without overruns they do exactly when every tick answered since the last thinning is a
      multiple of the stride. */
  lemma {:induction false} OnTimeGridIff(h: seq<Scrape>, b: Buffers, d: int,
                                         origin: real, interval: real, nows: seq<real>, slots: seq<nat>)
    requires Ran(h, origin, interval, nows, slots) && b == Collect(h) && d == LastThinned(h) && OnTime(slots, 0, |h| - 1)
    ensures Ascending(b.engine, |slots|)
    ensures AllOnGrid(b.engine, b.stride, origin, interval, slots) <==>
      forall t :: d < t < |h| && h[t].engine.Some? ==> Multiple(t, b.stride)
  {
    SamplesAreOnTheGridIff(h, b, d, origin, interval, nows, slots);
    forall t: nat | t < |h| ensures slots[t] == t {
      OnTimeTicks(slots, t, |h| - 1);
    }
  }
}
