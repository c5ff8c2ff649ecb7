/** The orchestrator killed at any commit point: what stays executed once, and what stays open. */
module RunnerKills {
  import opened Prelude
  import opened Runner
  import RL = RunnerLaws

  // ---- Histories with early kills ---------------------------------------------------------

  /** `KilledEarly`: killed after the claim was committed and before the run's outcome was. The
      answers say how far it got: a call cut off is one that raised, and the engine is left as
      that call says. */
  datatype Deed = Whole(a: Action) | KilledEarly(e: Env)

  predicate CanDo(w: World, d: Deed) {
    match d
    case Whole(a) => CanAct(w, a)
    case KilledEarly(e) => IsHead(w.runs, e.claim)
  }

  function Unrecorded(w: World, e: Env): World
    requires e.claim < |w.runs|
  {
    InterfereAll(Drive(Claim(w, e.claim), e.claim, e).w, e.during)
  }

  function Do(w: World, d: Deed): World
    requires CanDo(w, d)
  {
    match d
    case Whole(a) => Act(w, a)
    case KilledEarly(e) => Unrecorded(w, e)
  }

  predicate Deeds(w: World, ds: seq<Deed>)
    decreases |ds|
  {
    ds == [] || (CanDo(w, ds[0]) && Deeds(Do(w, ds[0]), ds[1..]))
  }

  function PlayDeeds(w: World, ds: seq<Deed>): World
    requires Deeds(w, ds)
    decreases |ds|
  {
    if ds == [] then w else PlayDeeds(Do(w, ds[0]), ds[1..])
  }

  /** The runs whose orchestrator was killed before their outcome was committed. */
  function Cut(ds: seq<Deed>): set<nat>
    decreases |ds|
  {
    if ds == [] then {} else (if ds[0].KilledEarly? then {ds[0].e.claim} else {}) + Cut(ds[1..])
  }

  // ---- Executed once ------------------------------------------------------------------------

  lemma {:induction false} DoInv(w: World, d: Deed, fl: set<nat>)
    requires Inv(w, fl) && CanDo(w, d)
    ensures Inv(Do(w, d), if d.KilledEarly? then fl + {d.e.claim} else fl)
  {
    match d
    case Whole(a) => ActInv(w, a, fl);
    case KilledEarly(e) =>
      ClaimInv(w, e.claim, fl);
      UnrecordedInv(Claim(w, e.claim), e.claim, e, fl + {e.claim});
  }

  lemma {:induction false} DeedsInv(w: World, ds: seq<Deed>, fl: set<nat>)
    requires Inv(w, fl) && Deeds(w, ds)
    ensures Inv(PlayDeeds(w, ds), fl + Cut(ds))
    decreases |ds|
  {
    if ds == [] {
      assert fl + Cut(ds) == fl;
    } else {
      var fl' := if ds[0].KilledEarly? then fl + {ds[0].e.claim} else fl;
      DoInv(w, ds[0], fl);
      DeedsInv(Do(w, ds[0]), ds[1..], fl');
      assert fl' + Cut(ds[1..]) == fl + Cut(ds);
    }
  }

  /** Main result: from a fresh database, through any history with kills at any commit point, a
      run is claimed at most once and recorded at most once; it is claimed and not recorded if
      and only if it was killed before its outcome was committed, and otherwise, if claimed, it
      is terminal with the status recorded, and a kind when it failed. */
  lemma {:induction false} StuckIffKilledEarly(w: World, ds: seq<Deed>, i: nat)
    requires Fresh(w) && Deeds(w, ds) && i < |PlayDeeds(w, ds).runs|
    ensures var w' := PlayDeeds(w, ds);
            && Claims(w', i) <= 1 && Finishes(w', i) <= Claims(w', i)
            && (Claims(w', i) == 1 && Finishes(w', i) == 0 <==> i in Cut(ds))
            && (i in Cut(ds) <==> w'.runs[i].status.STARTING? || w'.runs[i].status.BENCHMARKING?)
            && (Finishes(w', i) == 1 ==> Terminal(w'.runs[i].status) && Finished(i, w'.runs[i].status) in w'.log)
            && (w'.runs[i].status.FAILED? ==> w'.runs[i].kind.Some?)
  {
    FreshInv(w);
    DeedsInv(w, ds, {});
    assert RowOk(PlayDeeds(w, ds), i, {} + Cut(ds));
  }

  // ---- A stuck row, and its sweep --------------------------------------------------------------

  /** Claimed and not recorded, with a sweep. */
  predicate StuckIn(w: World, i: nat, sweep: nat) {
    && i < |w.runs| && (w.runs[i].status.STARTING? || w.runs[i].status.BENCHMARKING?) && w.runs[i].sweep == Some(sweep)
    && sweep in w.sweeps
  }

  lemma {:induction false} UnrecordedFollows(w: World, e: Env)
    requires IsHead(w.runs, e.claim)
    ensures RL.Follows(w, Unrecorded(w, e), e.claim)
    ensures Unrecorded(w, e).runs[e.claim].sweep == w.runs[e.claim].sweep
    ensures Unrecorded(w, e).runs[e.claim].status.STARTING? || Unrecorded(w, e).runs[e.claim].status.BENCHMARKING?
  {
    var c, i := Claim(w, e.claim), e.claim;
    var d := Drive(c, i, e);
    DriveFollows(c, i, e);
    RL.InterferenceFollows(d.w, e.during);
    RL.FollowsTransitive(w, c, d.w, i);
    RL.FollowsTransitive(w, d.w, Unrecorded(w, e), i);
  }

  lemma {:induction false} DriveFollows(c: World, i: nat, e: Env)
    requires i < |c.runs| && c.runs[i].status.STARTING?
    ensures var w := Drive(c, i, e).w;
            && RL.Follows(c, w, i) && w.runs[i] == c.runs[i].(status := w.runs[i].status)
            && (w.runs[i].status.STARTING? || w.runs[i].status.BENCHMARKING?)
  {
  }

  lemma {:induction false} DoFollows(w: World, d: Deed)
    requires CanDo(w, d)
    ensures RL.Follows(w, Do(w, d), if d.KilledEarly? then d.e.claim else if d.a.Outside? then -1 else d.a.e.claim)
  {
    match d
    case Whole(a) => RL.ActFollows(w, a);
    case KilledEarly(e) => UnrecordedFollows(w, e);
  }

  lemma {:induction false} StuckStays(w: World, d: Deed, i: nat, sweep: nat)
    requires StuckIn(w, i, sweep) && CanDo(w, d)
    ensures StuckIn(Do(w, d), i, sweep) && Do(w, d).runs[i] == w.runs[i]
    ensures Closed(w.sweeps[sweep]) ==> Do(w, d).sweeps[sweep] == w.sweeps[sweep]
  {
    DoFollows(w, d);
  }

  predicate CancelledBy(d: Deed, sweep: nat) {
    match d
    case Whole(a) => RL.CancelledIn(a, sweep)
    case KilledEarly(e) => RL.Cancels(e.during, sweep)
  }

  predicate AnyCancels(ds: seq<Deed>, sweep: nat)
    decreases |ds|
  {
    ds != [] && (CancelledBy(ds[0], sweep) || AnyCancels(ds[1..], sweep))
  }

  lemma {:induction false} NotSettledWhileStuck(w: World, i: nat, sweep: nat, other: nat)
    requires StuckIn(w, i, sweep)
    ensures sweep in Settle(w, other).sweeps && Settle(w, other).sweeps[sweep] == w.sweeps[sweep]
  {
    if other == sweep {
      RL.SummaryMeans(w.runs, sweep);
      assert !RL.AllTerminal(w.runs, sweep);
    }
  }

  lemma {:induction false} ExecutedBeside(c: World, i: nat, e: Env, j: nat, sweep: nat)
    requires i < |c.runs| && !c.runs[i].status.QUEUED? && i != j
    requires StuckIn(c, j, sweep) && !Closed(c.sweeps[sweep]) && e.refsPresent
    ensures StuckIn(Unsettled(c, i, e), j, sweep)
    ensures Closed(Unsettled(c, i, e).sweeps[sweep]) <==> RL.Cancels(e.during, sweep) || RL.Cancels(e.late, sweep)
    ensures Closed(Execute(c, i, e).sweeps[sweep]) <==> RL.Cancels(e.during, sweep) || RL.Cancels(e.late, sweep)
  {
    RL.UnsettledFollows(c, i, e);
    RL.UnsettledCloses(c, i, e, sweep);
    if c.runs[i].sweep.Some? { NotSettledWhileStuck(Unsettled(c, i, e), j, sweep, c.runs[i].sweep.value); }
  }

  lemma {:induction false} ActsBeside(w: World, a: Action, j: nat, sweep: nat)
    requires StuckIn(w, j, sweep) && !Closed(w.sweeps[sweep]) && CanAct(w, a)
    ensures sweep in Act(w, a).sweeps && (Closed(Act(w, a).sweeps[sweep]) <==> RL.CancelledIn(a, sweep))
  {
    if !a.Outside? {
      var c := Claim(w, a.e.claim);
      assert StuckIn(c, j, sweep) && !Closed(c.sweeps[sweep]);
      if a.e.refsPresent { ExecutedBeside(c, a.e.claim, a.e, j, sweep); }
    }
  }

  lemma {:induction false} ClosedByAStep(w: World, d: Deed, j: nat, sweep: nat)
    requires StuckIn(w, j, sweep) && !Closed(w.sweeps[sweep]) && CanDo(w, d)
    ensures sweep in Do(w, d).sweeps && (Closed(Do(w, d).sweeps[sweep]) <==> CancelledBy(d, sweep))
  {
    match d
    case Whole(a) => ActsBeside(w, a, j, sweep);
    case KilledEarly(e) => RL.InterferenceCloses(Drive(Claim(w, e.claim), e.claim, e).w, e.during, sweep);
  }

  /** While a run is stuck its sweep is closed by being cancelled, and by nothing else. */
  lemma {:induction false} StuckSweepClosesIff(w: World, ds: seq<Deed>, i: nat, sweep: nat)
    requires StuckIn(w, i, sweep) && Deeds(w, ds)
    ensures StuckIn(PlayDeeds(w, ds), i, sweep) && PlayDeeds(w, ds).runs[i] == w.runs[i]
    ensures Closed(PlayDeeds(w, ds).sweeps[sweep]) <==> Closed(w.sweeps[sweep]) || AnyCancels(ds, sweep)
    decreases |ds|
  {
    if ds != [] {
      StuckStays(w, ds[0], i, sweep);
      if !Closed(w.sweeps[sweep]) { ClosedByAStep(w, ds[0], i, sweep); }
      StuckSweepClosesIff(Do(w, ds[0]), ds[1..], i, sweep);
    }
  }

  /** Main result: a run of an open sweep killed before its outcome was committed stays as the
      kill left it through any later history, never claimed again, and its sweep closes if and
      only if someone cancels it. */
  lemma {:induction false} KilledRunKeepsItsSweepOpen(w: World, e: Env, ds: seq<Deed>, sweep: nat)
    requires CanDo(w, KilledEarly(e)) && Deeds(Unrecorded(w, e), ds)
    requires w.runs[e.claim].sweep == Some(sweep) && sweep in w.sweeps && !Closed(w.sweeps[sweep])
    ensures var w1, w' := Unrecorded(w, e), PlayDeeds(Unrecorded(w, e), ds);
            && e.claim < |w'.runs| && w'.runs[e.claim] == w1.runs[e.claim] && !Terminal(w'.runs[e.claim].status)
            && sweep in w'.sweeps
            && (Closed(w'.sweeps[sweep]) <==> AnyCancels([KilledEarly(e)] + ds, sweep))
  {
    UnrecordedFollows(w, e);
    RL.InterferenceCloses(Drive(Claim(w, e.claim), e.claim, e).w, e.during, sweep);
    StuckSweepClosesIff(Unrecorded(w, e), ds, e.claim, sweep);
    assert ([KilledEarly(e)] + ds)[1..] == ds;
  }
}
