/** Which tasks hold their reservation: the scheduler gives back, and only an accepted arrival takes. */
module Holdings {
  import opened Common
  import opened Scheduling
  import opened Simulation
  import Endings

  lemma PurgeReturns(n: Node, k: nat, now: real)
    requires k < |n.cores|
    ensures Purge(n, k, now).holding <= n.holding
  {
    PurgeIs(n, k, now);
  }

  lemma SweptReturns(n: Node, k: nat, now: real)
    requires k < |n.cores|
    ensures Swept(n, k, now).holding <= n.holding
  {
    SweptIs(n, k, now);
    PurgeReturns(WithActive(n, k, UpdateAll(n.cores[k].active, now)), k, now);
  }

  lemma RefreshReturns(n: Node, k: nat, now: real)
    requires k < |n.cores|
    ensures Refresh(n, k, now).0.holding <= n.holding
  {
    var c := n.cores[k];
    if c.active != [] {
      var n1 := WithActive(n, k, RateAll(c.active, now, c.current));
      RefreshIs(n, k, now);
      PurgeReturns(n1, k, now);
      var n2 := Purge(n1, k, now);
      hide Purge, Swept;
      SetRateIs(n2, k, now);
      SweptReturns(n2, k, now);
    }
  }

  lemma {:induction false} RunCoresReturns(n: Node, tm: Timer, k: nat, now: real, start: Option<nat>)
    requires k <= |n.cores|
    ensures RunCores(n, tm, k, now, start).0.holding <= n.holding
    decreases |n.cores| - k
  {
    hide Refresh, RunCores;
    if k < |n.cores| {
      RunCoresNext(n, tm, k, now, start);
      TurnIs(n, k, now, start);
      RefreshReturns(if start.Some? then StartOn(n, k, now, start.value) else n, k, now);
      var (n1, delay) := Turn(n, k, now, start);
      RunCoresReturns(n1, Schedule(tm, now, delay), k + 1, now, start);
    } else {
      RunCoresEnd(n, tm, now, start);
    }
  }

  lemma {:induction false} PlaceFromReturns(n: Node, a: Alloc, now: real, k: nat)
    requires k <= |n.cores| && now < a.deadline
    ensures PlaceFrom(n, a, now, k).0.holding <= n.holding
    decreases |n.cores| - k
  {
    hide PlaceFrom, Swept, Admits;
    PlaceFromIs(n, a, now, k);
    if k < |n.cores| {
      SweptReturns(n, k, now);
      PlaceFromReturns(Swept(n, k, now), a, now, k + 1);
    }
  }

  lemma {:induction false} PlaceAllocsReturns(n: Node, t: Task, now: real, i: nat)
    requires i <= |t.loads| && now < t.deadline
    ensures PlaceAllocs(n, t, now, i).0.holding <= n.holding
    decreases |t.loads| - i
  {
    hide PlaceFrom, PlaceAllocs;
    if i < |t.loads| {
      PlaceAllocsNext(n, t, now, i);
      PlaceFromReturns(n, Fresh(t, i), now, 0);
      PlaceAllocsReturns(PlaceFrom(n, Fresh(t, i), now, 0).0, t, now, i + 1);
    } else {
      PlaceAllocsEnd(n, t, now);
    }
  }

  lemma ProbeReturns(n: Node, t: Task, now: real, fits: bool)
    requires now < t.deadline
    ensures TrySchedule(n, t, now, fits).0.holding <= n.holding && Probe(n, t, now, fits).0.holding <= n.holding
  {
    hide PlaceAllocs;
    PlaceAllocsReturns(n, t, now, 0);
  }

  // ---------- whole runs ----------

  /** Without an arrival the cores only ever give reservations back. */
  lemma StepReturns(s: Sys, e: Event)
    requires Enabled(s, e) && !e.Arrive?
    ensures Step(s, e).node.holding <= s.node.holding
  {
    hide RunCores, TrySchedule, Probe;
    match e {
      case Fire =>
        HandleIs(s.node, s.timer.(pending := None), s.now);
        RunCoresReturns(s.node, s.timer.(pending := None), 0, s.now, None);
      case Test(t, fits) => ProbeReturns(s.node, t, s.now, fits);
      case Dispatch(t, fits) => ProbeReturns(s.node, t, s.now, fits);
      case _ =>
    }
  }

  lemma ArriveReturns(s: Sys, t: Task, fitsProbe: bool, fits: bool)
    requires Enabled(s, Arrive(t, fitsProbe, fits))
    ensures var e := Arrive(t, fitsProbe, fits);
      && Step(s, e).node.holding <= s.node.holding + {t.id}
      && (!Accepts(s, e) ==> Step(s, e).node.holding <= s.node.holding)
  {
    var (n, ok) := if t.id in s.known then (s.node, true) else TrySchedule(s.node, t, s.now, fitsProbe);
    assert n.holding <= s.node.holding by {
      if t.id !in s.known {
        ProbeReturns(s.node, t, s.now, fitsProbe);
      }
    }
    ReceiveIs(s.node, s.timer, t, s.now, t.id in s.known, fitsProbe, fits);
    hide TrySchedule, Receive;
    RunCoresReturns(n.(holding := n.holding + {t.id}), s.timer, 0, s.now, Some(t.id));
  }

  lemma {:induction false} RunHolds(s: Sys, run: seq<Event>)
    requires Valid(s, run) && s.node.holding <= s.admitted
    ensures Run(s, run).node.holding <= Run(s, run).admitted
    decreases |run|
  {
    if run != [] {
      var e := run[0];
      if e.Arrive? {
        ArriveReturns(s, e.task, e.fitsProbe, e.fits);
      } else {
        StepReturns(s, e);
      }
      StepAdmits(s, e);
      hide Step;
      RunHolds(Step(s, e), run[1..]);
    }
  }

  lemma StepAdmits(s: Sys, e: Event)
    requires Enabled(s, e)
    ensures Step(s, e).admitted == if e.Arrive? && Accepts(s, e) then s.admitted + {e.task.id} else s.admitted
  {
    hide Accepts, Handle, Receive, TrySchedule, Probe;
  }

  /** In every run whatever runs has been admitted; so what holds of the admitted tasks holds of all that run. */
  lemma RunningIsAdmitted(s0: Sys, run: seq<Event>, t: nat)
    requires Initial(s0) && Valid(s0, run) && Endings.Active(Run(s0, run).node, t)
    ensures t in Run(s0, run).admitted
  {
    hide Run, Endings.Active, Endings.Late;
    Endings.OneEnding(s0, run);
    RunHolds(s0, run);
  }
}
