/** What the orchestrator promises about rows, sweeps and engines over whole histories. */
module RunnerLaws {
  import opened Prelude
  import opened Runner

  // ---- Terminal rows and closed sweeps never change ---------------------------------

  /** `b` follows `a`: rows only move from queued to cancelled, apart from row `mine`, and no
      closed sweep changes. */
  ghost predicate Follows(a: World, b: World, mine: int) {
    && |a.runs| <= |b.runs|
    && (forall j :: 0 <= j < |a.runs| && j != mine ==>
          b.runs[j] == a.runs[j] || (a.runs[j].status.QUEUED? && b.runs[j] == a.runs[j].(status := CANCELLED)))
    && (forall s :: s in a.sweeps ==> s in b.sweeps && (Closed(a.sweeps[s]) ==> b.sweeps[s] == a.sweeps[s]))
  }

  lemma {:induction false} FollowsTransitive(a: World, b: World, c: World, mine: int)
    requires Follows(a, b, mine) && Follows(b, c, mine)
    ensures Follows(a, c, mine)
  {
  }

  lemma {:induction false} InterferenceFollows(w: World, xs: seq<External>)
    ensures Follows(w, InterfereAll(w, xs), -1)
    decreases |xs|
  {
    if xs != [] {
      InterferenceFollows(Interfere(w, xs[0]), xs[1..]);
      FollowsTransitive(w, Interfere(w, xs[0]), InterfereAll(w, xs), -1);
    }
  }

  lemma {:induction false} RecordedFollows(w: World, i: nat, e: Env)
    requires i < |w.runs| && !w.runs[i].status.QUEUED?
    ensures Follows(w, Recorded(w, i, e), i)
    ensures var d, r := Drive(w, i, e), Recorded(w, i, e);
            r.runs[i] == w.runs[i].(status := StatusOf(d.verdict), kind := r.runs[i].kind)
  {
    var d := Drive(w, i, e);
    assert Follows(w, d.w, i);
    InterferenceFollows(d.w, e.during);
    assert d.w.runs[i] == w.runs[i].(status := d.w.runs[i].status) && !d.w.runs[i].status.QUEUED?;
    FollowsTransitive(w, d.w, InterfereAll(d.w, e.during), i);
    FollowsTransitive(w, InterfereAll(d.w, e.during), Recorded(w, i, e), i);
  }

  lemma {:induction false} UnsettledFollows(w: World, i: nat, e: Env)
    requires i < |w.runs| && !w.runs[i].status.QUEUED?
    ensures Follows(w, Unsettled(w, i, e), i)
    ensures Unsettled(w, i, e).runs[i].status == StatusOf(Drive(w, i, e).verdict)
  {
    var d, r := Drive(w, i, e), Recorded(w, i, e);
    RecordedFollows(w, i, e);
    var t := if d.serverStarted then TearDown(r, i, e, d.verdict) else r;
    InterferenceFollows(t, e.late);
    FollowsTransitive(w, t, InterfereAll(t, e.late), i);
  }

  lemma {:induction false} ExecuteFollows(w: World, i: nat, e: Env)
    requires i < |w.runs| && !w.runs[i].status.QUEUED?
    ensures Follows(w, Execute(w, i, e), i)
    ensures Terminal(Execute(w, i, e).runs[i].status)
  {
    if e.refsPresent { UnsettledFollows(w, i, e); }
  }

  /** No poll and no other process changes a terminal row or a closed sweep. */
  lemma {:induction false} ActFollows(w: World, a: Action)
    requires CanAct(w, a)
    ensures Follows(w, Act(w, a), if a.Outside? then -1 else a.e.claim)
    ensures forall j :: 0 <= j < |w.runs| && Terminal(w.runs[j].status) ==> Act(w, a).runs[j] == w.runs[j]
  {
    match a
    case Polled(e) => PollFollows(w, e);
    case Died(e) => KilledFollows(w, e);
    case Outside(x) =>
      InterferenceFollows(w, [x]);
      assert InterfereAll(w, [x]) == Interfere(w, x) by { assert [x][1..] == []; }
  }

  lemma {:induction false} PollFollows(w: World, e: Env)
    requires IsHead(w.runs, e.claim)
    ensures Follows(w, Poll(w, e), e.claim)
  {
    ExecuteFollows(Claim(w, e.claim), e.claim, e);
    FollowsTransitive(w, Claim(w, e.claim), Poll(w, e), e.claim);
  }

  lemma {:induction false} KilledFollows(w: World, e: Env)
    requires IsHead(w.runs, e.claim)
    ensures Follows(w, PollUnsettled(w, e), e.claim)
  {
    if e.refsPresent { UnsettledFollows(Claim(w, e.claim), e.claim, e); }
    FollowsTransitive(w, Claim(w, e.claim), PollUnsettled(w, e), e.claim);
  }

  /** Main result: over any history a terminal run keeps its row and a closed sweep keeps its
      status. */
  lemma {:induction false} OutcomesAreFinal(w: World, acts: seq<Action>)
    requires History(w, acts)
    ensures var w' := Play(w, acts);
            && |w.runs| <= |w'.runs|
            && (forall j :: 0 <= j < |w.runs| && Terminal(w.runs[j].status) ==> w'.runs[j] == w.runs[j])
            && (forall s :: s in w.sweeps ==> s in w'.sweeps && (Closed(w.sweeps[s]) ==> w'.sweeps[s] == w.sweeps[s]))
    decreases |acts|
  {
    if acts != [] {
      ActFollows(w, acts[0]);
      OutcomesAreFinal(Act(w, acts[0]), acts[1..]);
    }
  }

  // ---- Which engine is loaded afterwards ---------------------------------------------

  lemma {:induction false} InterferenceNeverLoads(w: World, xs: seq<External>, host: nat)
    requires !Loaded(EngineAt(w, host))
    ensures !Loaded(EngineAt(InterfereAll(w, xs), host))
    decreases |xs|
  {
    if xs != [] { InterferenceNeverLoads(Interfere(w, xs[0]), xs[1..], host); }
  }

  /** Main result: an engine is loaded on the host after a run only if the run died before
      the engine was touched, or a final stop was issued and failed, or the run succeeded and
      a run at the head of the host's queue wants the same config. */
  lemma {:induction false} LoadedOnlyForAReason(w: World, e: Env)
    requires Possible(w, e)
    requires Loaded(EngineAt(Poll(w, e), w.runs[e.claim].host))
    ensures var c, i := Claim(w, e.claim), e.claim;
            var d, r := Drive(c, i, e), Recorded(c, i, e);
            || !e.refsPresent || !d.serverStarted
            || (!Keeps(r, i, e, d.verdict) && !e.finalStop.Stopped?)
            || (d.verdict.Success? && e.next.Some? && IsHostHead(r.runs, w.runs[i].host, e.next.value)
                && r.runs[e.next.value].hash == w.runs[i].hash)
  {
    var c, i := Claim(w, e.claim), e.claim;
    var d, r := Drive(c, i, e), Recorded(c, i, e);
    RecordedFollows(c, i, e);
    if e.refsPresent && d.serverStarted && e.finalStop.Stopped? && !Keeps(r, i, e, d.verdict) {
      InterferenceNeverLoads(TearDown(r, i, e, d.verdict), e.late, w.runs[i].host);
    }
  }

  // ---- When a sweep is closed ----------------------------------------------------------

  ghost predicate HasStatus(runs: seq<Run>, sweep: nat, st: RunStatus) {
    exists j :: 0 <= j < |runs| && runs[j].sweep == Some(sweep) && runs[j].status == st
  }

  ghost predicate AllTerminal(runs: seq<Run>, sweep: nat) {
    forall j :: 0 <= j < |runs| && runs[j].sweep == Some(sweep) ==> Terminal(runs[j].status)
  }

  lemma {:induction false} CountedStatuses(runs: seq<Run>, sweep: nat, st: RunStatus)
    ensures StatusesOf(runs, sweep)[st] > 0 <==> HasStatus(runs, sweep, st)
    decreases |runs|
  {
    if runs != [] {
      var n := |runs| - 1;
      CountedStatuses(runs[..n], sweep, st);
      if HasStatus(runs[..n], sweep, st) {
        var j :| 0 <= j < n && runs[..n][j].sweep == Some(sweep) && runs[..n][j].status == st;
        assert runs[j] == runs[..n][j];
      }
      if HasStatus(runs, sweep, st) && !(runs[n].sweep == Some(sweep) && runs[n].status == st) {
        var j :| 0 <= j < |runs| && runs[j].sweep == Some(sweep) && runs[j].status == st;
        assert runs[..n][j] == runs[j];
      }
    }
  }

  /** What the summary says about the rows themselves. A sweep without any succeeds. */
  lemma {:induction false} SummaryMeans(runs: seq<Run>, sweep: nat)
    ensures var s := Summary(StatusesOf(runs, sweep));
            && (s.Some? <==> AllTerminal(runs, sweep))
            && (s == Some(SWEEP_FAILED) <==> AllTerminal(runs, sweep) && HasStatus(runs, sweep, FAILED))
            && (s == Some(SWEEP_CANCELLED) <==>
                  AllTerminal(runs, sweep) && !HasStatus(runs, sweep, FAILED) && !HasStatus(runs, sweep, SUCCEEDED)
                  && HasStatus(runs, sweep, CANCELLED))
            && (s == Some(SWEEP_SUCCEEDED) <==>
                  AllTerminal(runs, sweep) && !HasStatus(runs, sweep, FAILED)
                  && (HasStatus(runs, sweep, CANCELLED) ==> HasStatus(runs, sweep, SUCCEEDED)))
            && (s.Some? ==> Closed(s.value))
  {
    CountedStatuses(runs, sweep, QUEUED);
    CountedStatuses(runs, sweep, STARTING);
    CountedStatuses(runs, sweep, BENCHMARKING);
    CountedStatuses(runs, sweep, FAILED);
    CountedStatuses(runs, sweep, CANCELLED);
    CountedStatuses(runs, sweep, SUCCEEDED);
    if !AllTerminal(runs, sweep) {
      var j :| 0 <= j < |runs| && runs[j].sweep == Some(sweep) && !Terminal(runs[j].status);
      assert HasStatus(runs, sweep, runs[j].status);
    }
  }

  predicate NotCancelledFrom(xs: seq<External>, sweep: nat) {
    CancelSweep(sweep) !in xs
  }

  lemma {:induction false} InterferenceKeepsSweepOpen(w: World, xs: seq<External>, sweep: nat)
    requires sweep in w.sweeps && NotCancelledFrom(xs, sweep)
    ensures sweep in InterfereAll(w, xs).sweeps && InterfereAll(w, xs).sweeps[sweep] == w.sweeps[sweep]
    decreases |xs|
  {
    if xs != [] {
      assert xs[0] in xs;
      InterferenceKeepsSweepOpen(Interfere(w, xs[0]), xs[1..], sweep);
    }
  }

  /** Main result: a sweep not cancelled from outside is closed after one of its runs exactly
      when all its runs are terminal, with the status their multiset summarises to, if and
      only if settling ran; a sweep whose runs are all terminal stays open otherwise. An open
      sweep is running from then on, unless it is a draft. */
  lemma {:induction false} ClosedIffAllTerminal(w: World, e: Env, sweep: nat)
    requires e.claim < |w.runs| && w.runs[e.claim].status.QUEUED? && w.runs[e.claim].sweep == Some(sweep)
    requires sweep in w.sweeps && !Closed(w.sweeps[sweep])
    requires NotCancelledFrom(e.during, sweep) && NotCancelledFrom(e.late, sweep)
    ensures var w', settled := Poll(w, e), Settles(Claim(w, e.claim), e.claim, e);
            && sweep in w'.sweeps
            && (Closed(w'.sweeps[sweep]) <==> settled && AllTerminal(w'.runs, sweep))
            && (Closed(w'.sweeps[sweep]) ==> Some(w'.sweeps[sweep]) == Summary(StatusesOf(w'.runs, sweep)))
            && (!Closed(w'.sweeps[sweep]) ==>
                  w'.sweeps[sweep] == if w.sweeps[sweep].SWEEP_QUEUED? then SWEEP_RUNNING else w.sweeps[sweep])
  {
    ClosedAfterExecuting(Claim(w, e.claim), e.claim, e, sweep);
  }

  lemma {:induction false} ClosedAfterExecuting(c: World, i: nat, e: Env, sweep: nat)
    requires i < |c.runs| && c.runs[i].sweep == Some(sweep) && sweep in c.sweeps && !Closed(c.sweeps[sweep])
    requires NotCancelledFrom(e.during, sweep) && NotCancelledFrom(e.late, sweep)
    ensures var w' := Execute(c, i, e);
            && sweep in w'.sweeps
            && (Closed(w'.sweeps[sweep]) <==> Settles(c, i, e) && AllTerminal(w'.runs, sweep))
            && (Closed(w'.sweeps[sweep]) ==> Some(w'.sweeps[sweep]) == Summary(StatusesOf(w'.runs, sweep)))
            && (!Closed(w'.sweeps[sweep]) ==> w'.sweeps[sweep] == c.sweeps[sweep])
  {
    if e.refsPresent {
      UnsettledKeepsSweepOpen(c, i, e, sweep);
      SettlingClosesIff(Unsettled(c, i, e), sweep);
    }
  }

  lemma {:induction false} SettlingClosesIff(u: World, sweep: nat)
    requires sweep in u.sweeps && !Closed(u.sweeps[sweep])
    ensures var w' := Settle(u, sweep);
            && w'.runs == u.runs && sweep in w'.sweeps
            && (Closed(w'.sweeps[sweep]) <==> AllTerminal(u.runs, sweep))
            && (Closed(w'.sweeps[sweep]) ==> Some(w'.sweeps[sweep]) == Summary(StatusesOf(u.runs, sweep)))
            && (!Closed(w'.sweeps[sweep]) ==> w'.sweeps[sweep] == u.sweeps[sweep])
  {
    SummaryMeans(u.runs, sweep);
  }

  lemma {:induction false} UnsettledKeepsSweepOpen(w: World, i: nat, e: Env, sweep: nat)
    requires i < |w.runs| && sweep in w.sweeps
    requires NotCancelledFrom(e.during, sweep) && NotCancelledFrom(e.late, sweep)
    ensures sweep in Unsettled(w, i, e).sweeps && Unsettled(w, i, e).sweeps[sweep] == w.sweeps[sweep]
  {
    var d, r := Drive(w, i, e), Recorded(w, i, e);
    InterferenceKeepsSweepOpen(d.w, e.during, sweep);
    InterferenceKeepsSweepOpen(if d.serverStarted then TearDown(r, i, e, d.verdict) else r, e.late, sweep);
  }

  // ---- Sweeps nothing will close -----------------------------------------------------------

  /** `sweep` is open, and all its rows but row `but` are terminal. */
  ghost predicate OpenBut(w: World, sweep: nat, but: int) {
    && sweep in w.sweeps && !Closed(w.sweeps[sweep])
    && forall j :: 0 <= j < |w.runs| && j != but && w.runs[j].sweep == Some(sweep) ==> Terminal(w.runs[j].status)
  }

  /** The rows of `sweep` are all terminal and it is still open. */
  ghost predicate Stranded(w: World, sweep: nat) {
    OpenBut(w, sweep, -1)
  }

  predicate LeavesAlone(x: External, sweep: nat) {
    x != CancelSweep(sweep) && (x.Enqueue? ==> x.added.sweep != Some(sweep))
  }

  predicate AllLeaveAlone(xs: seq<External>, sweep: nat) {
    forall k :: 0 <= k < |xs| ==> LeavesAlone(xs[k], sweep)
  }

  lemma {:induction false} InterfereKeepsOpenIff(w: World, x: External, sweep: nat, but: int)
    requires sweep in w.sweeps && but < |w.runs|
    ensures sweep in Interfere(w, x).sweeps
    ensures OpenBut(w, sweep, but) ==> (OpenBut(Interfere(w, x), sweep, but) <==> LeavesAlone(x, sweep))
    ensures !OpenBut(w, sweep, but) ==> !OpenBut(Interfere(w, x), sweep, but)
  {
    var w' := Interfere(w, x);
    if x.Enqueue? && |w'.runs| > |w.runs| {
      assert w'.runs[|w.runs|].status.QUEUED? && w'.runs[|w.runs|].sweep == x.added.sweep;
      assert forall j :: 0 <= j < |w.runs| ==> w'.runs[j] == w.runs[j];
    }
  }

  lemma {:induction false} InterferenceKeepsOpenIff(w: World, xs: seq<External>, sweep: nat, but: int)
    requires sweep in w.sweeps && but < |w.runs|
    ensures sweep in InterfereAll(w, xs).sweeps
    ensures OpenBut(InterfereAll(w, xs), sweep, but) <==> OpenBut(w, sweep, but) && AllLeaveAlone(xs, sweep)
    decreases |xs|
  {
    if xs != [] {
      InterfereKeepsOpenIff(w, xs[0], sweep, but);
      InterferenceKeepsOpenIff(Interfere(w, xs[0]), xs[1..], sweep, but);
      assert AllLeaveAlone(xs, sweep) <==> LeavesAlone(xs[0], sweep) && AllLeaveAlone(xs[1..], sweep) by {
        assert forall k :: 0 < k < |xs| ==> xs[k] == xs[1..][k - 1];
        if AllLeaveAlone(xs, sweep) {
          assert forall k :: 0 <= k < |xs[1..]| ==> xs[1..][k] == xs[k + 1];
        }
      }
    }
  }

  /** Nothing in the act cancels the sweep or adds to it. */
  predicate Undisturbed(a: Action, sweep: nat) {
    match a
    case Polled(e) => e.refsPresent ==> AllLeaveAlone(e.during, sweep) && AllLeaveAlone(e.late, sweep)
    case Died(e) => e.refsPresent ==> AllLeaveAlone(e.during, sweep) && AllLeaveAlone(e.late, sweep)
    case Outside(x) => LeavesAlone(x, sweep)
  }

  lemma {:induction false} FinishStrandsIff(w: World, i: nat, v: Verdict, sweep: nat)
    requires i < |w.runs|
    ensures Stranded(Finish(w, i, v), sweep) <==> OpenBut(w, sweep, i)
  {
    var w' := Finish(w, i, v);
    assert w'.runs[i].status == StatusOf(v) && Terminal(StatusOf(v));
    if Stranded(w', sweep) {
      forall j | 0 <= j < |w.runs| && j != i && w.runs[j].sweep == Some(sweep) ensures Terminal(w.runs[j].status) {
        assert w'.runs[j] == w.runs[j];
      }
    }
  }

  lemma {:induction false} UnsettledOpenIff(w: World, i: nat, e: Env, sweep: nat)
    requires i < |w.runs| && !w.runs[i].status.QUEUED?
    requires OpenBut(w, sweep, i)
    ensures Stranded(Unsettled(w, i, e), sweep) <==> AllLeaveAlone(e.during, sweep) && AllLeaveAlone(e.late, sweep)
  {
    var d, r := Drive(w, i, e), Recorded(w, i, e);
    RecordedFollows(w, i, e);
    assert OpenBut(d.w, sweep, i);
    InterferenceKeepsOpenIff(d.w, e.during, sweep, i);
    var m := InterfereAll(d.w, e.during);
    FinishStrandsIff(m, i, d.verdict, sweep);
    var t := if d.serverStarted then TearDown(r, i, e, d.verdict) else r;
    assert Stranded(t, sweep) <==> Stranded(r, sweep);
    InterferenceKeepsOpenIff(t, e.late, sweep, -1);
  }

  /** Main result: the last run of an open sweep strands it exactly when settling does not
      run, as after a kill, and nothing cancels the sweep or adds to it meanwhile. */
  lemma {:induction false} LastRunStrandsIff(w: World, a: Action, sweep: nat)
    requires CanAct(w, a) && !a.Outside? && w.runs[a.e.claim].sweep == Some(sweep)
    requires OpenBut(w, sweep, a.e.claim)
    ensures Stranded(Act(w, a), sweep) <==>
      Undisturbed(a, sweep) && (a.Died? || !Settles(Claim(w, a.e.claim), a.e.claim, a.e))
  {
    var c, i := Claim(w, a.e.claim), a.e.claim;
    assert OpenBut(c, sweep, i);
    if a.e.refsPresent {
      UnsettledOpenIff(c, i, a.e, sweep);
      if a.Polled? && Settles(c, i, a.e) { SettledIsNotStranded(Unsettled(c, i, a.e), sweep); }
    }
  }

  lemma {:induction false} SettledIsNotStranded(w: World, sweep: nat)
    ensures !Stranded(Settle(w, sweep), sweep)
  {
    SummaryMeans(w.runs, sweep);
    if Stranded(w, sweep) {
      assert AllTerminal(w.runs, sweep);
    }
  }

  /** Main result: an act leaves a stranded sweep stranded exactly when it neither cancels it
      nor adds to it. */
  lemma {:induction false} StrandedStaysIff(w: World, a: Action, sweep: nat)
    requires Stranded(w, sweep) && CanAct(w, a)
    ensures Stranded(Act(w, a), sweep) <==> Undisturbed(a, sweep)
  {
    if a.Outside? {
      InterfereKeepsOpenIff(w, a.x, sweep, -1);
    } else {
      var c, i := Claim(w, a.e.claim), a.e.claim;
      assert w.runs[i].sweep != Some(sweep);
      assert OpenBut(c, sweep, i);
      if a.e.refsPresent {
        UnsettledOpenIff(c, i, a.e, sweep);
        SettlingAnotherKeeps(Unsettled(c, i, a.e), w.runs[i].sweep, sweep);
      }
    }
  }

  lemma {:induction false} SettlingAnotherKeeps(w: World, other: Option<nat>, sweep: nat)
    requires other != Some(sweep)
    ensures other.Some? ==> (Stranded(Settle(w, other.value), sweep) <==> Stranded(w, sweep))
  {
  }

  predicate Cancels(xs: seq<External>, sweep: nat) {
    CancelSweep(sweep) in xs
  }

  lemma {:induction false} InterferenceCloses(w: World, xs: seq<External>, sweep: nat)
    requires sweep in w.sweeps && !Closed(w.sweeps[sweep])
    ensures sweep in InterfereAll(w, xs).sweeps
    ensures InterfereAll(w, xs).sweeps[sweep] == if Cancels(xs, sweep) then SWEEP_CANCELLED else w.sweeps[sweep]
    decreases |xs|
  {
    if Cancels(xs, sweep) {
      var rest := xs[1..];
      assert xs[0] == CancelSweep(sweep) || Cancels(rest, sweep);
      if xs[0] == CancelSweep(sweep) {
        InterferenceFollows(Interfere(w, xs[0]), rest);
      } else {
        InterferenceCloses(Interfere(w, xs[0]), rest, sweep);
      }
    } else {
      InterferenceKeepsSweepOpen(w, xs, sweep);
    }
  }

  predicate CancelledIn(a: Action, sweep: nat) {
    match a
    case Polled(e) => e.refsPresent && (Cancels(e.during, sweep) || Cancels(e.late, sweep))
    case Died(e) => e.refsPresent && (Cancels(e.during, sweep) || Cancels(e.late, sweep))
    case Outside(x) => x == CancelSweep(sweep)
  }

  lemma {:induction false} UnsettledCloses(w: World, i: nat, e: Env, sweep: nat)
    requires i < |w.runs| && sweep in w.sweeps && !Closed(w.sweeps[sweep])
    ensures sweep in Unsettled(w, i, e).sweeps
    ensures Unsettled(w, i, e).sweeps[sweep] ==
      if Cancels(e.during, sweep) || Cancels(e.late, sweep) then SWEEP_CANCELLED else w.sweeps[sweep]
  {
    var d, r := Drive(w, i, e), Recorded(w, i, e);
    InterferenceCloses(d.w, e.during, sweep);
    var t := if d.serverStarted then TearDown(r, i, e, d.verdict) else r;
    if Cancels(e.during, sweep) { InterferenceFollows(t, e.late); } else { InterferenceCloses(t, e.late, sweep); }
  }

  /** The only act that changes a stranded sweep is one that cancels it. */
  lemma {:induction false} StrandedChangesIff(w: World, a: Action, sweep: nat)
    requires Stranded(w, sweep) && CanAct(w, a)
    ensures sweep in Act(w, a).sweeps
    ensures Act(w, a).sweeps[sweep] != w.sweeps[sweep] <==> CancelledIn(a, sweep)
    ensures CancelledIn(a, sweep) ==> Act(w, a).sweeps[sweep] == SWEEP_CANCELLED
  {
    if !a.Outside? {
      var c, i := Claim(w, a.e.claim), a.e.claim;
      assert w.runs[i].sweep != Some(sweep);
      if a.e.refsPresent { UnsettledCloses(c, i, a.e, sweep); }
    }
  }

  predicate AllUndisturbed(acts: seq<Action>, sweep: nat) {
    forall n :: 0 <= n < |acts| ==> Undisturbed(acts[n], sweep)
  }

  /** The sweep is stranded before, between and after the acts. */
  ghost predicate StaysStranded(w: World, acts: seq<Action>, sweep: nat)
    requires History(w, acts)
    decreases |acts|
  {
    Stranded(w, sweep) && (acts != [] ==> StaysStranded(Act(w, acts[0]), acts[1..], sweep))
  }

  /** Main result: once stranded, a sweep stays so through a history exactly when nobody
      cancels it or adds to it: whatever the orchestrator does, it does not look again. */
  lemma {:induction false} StrandedForeverIff(w: World, acts: seq<Action>, sweep: nat)
    requires Stranded(w, sweep) && History(w, acts)
    ensures StaysStranded(w, acts, sweep) <==> AllUndisturbed(acts, sweep)
    decreases |acts|
  {
    if acts != [] {
      StrandedStaysIff(w, acts[0], sweep);
      assert AllUndisturbed(acts, sweep) <==> Undisturbed(acts[0], sweep) && AllUndisturbed(acts[1..], sweep) by {
        assert forall n :: 0 < n < |acts| ==> acts[n] == acts[1..][n - 1];
        if AllUndisturbed(acts, sweep) {
          assert forall n :: 0 <= n < |acts[1..]| ==> acts[1..][n] == acts[n + 1];
        }
      }
      if Undisturbed(acts[0], sweep) { StrandedForeverIff(Act(w, acts[0]), acts[1..], sweep); }
    }
  }
}
