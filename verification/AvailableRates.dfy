/** The available rates of a provider's cores change only when something is hosted on them. */
module AvailableRates {
  import opened Common
  import opened Scheduling
  import opened Simulation

  /** The same cores, each with the same available rate. */
  predicate SameRates(n: Node, r: Node) {
    |r.cores| == |n.cores| && forall k | 0 <= k < |n.cores| :: r.cores[k].available == n.cores[k].available
  }

  lemma PurgeRates(n: Node, k: nat, now: real)
    requires k < |n.cores|
    ensures SameRates(n, Purge(n, k, now))
  {}

  lemma SweptRates(n: Node, k: nat, now: real)
    requires k < |n.cores|
    ensures SameRates(n, Swept(n, k, now))
  {
    hide Purge;
    PurgeRates(WithActive(n, k, UpdateAll(n.cores[k].active, now)), k, now);
    SweptIs(n, k, now);
    hide Swept;
  }

  lemma RefreshRates(n: Node, k: nat, now: real)
    requires k < |n.cores|
    ensures SameRates(n, Refresh(n, k, now).0)
  {
    var c := n.cores[k];
    if c.active != [] {
      var n1 := WithActive(n, k, RateAll(c.active, now, c.current));
      var n2 := Purge(n1, k, now);
      PurgeRates(n1, k, now);
      SweptRates(n2, k, now);
      RefreshIs(n, k, now);
      SetRateIs(n2, k, now);
      hide Refresh, Purge, Swept, SetRate, RateAll, Pace;
    }
  }

  lemma {:induction false} RunCoresRates(n: Node, tm: Timer, k: nat, now: real, start: Option<nat>)
    requires k <= |n.cores|
    ensures SameRates(n, RunCores(n, tm, k, now, start).0)
    decreases |n.cores| - k
  {
    hide *;
    if k < |n.cores| {
      TurnRates(n, k, now, start);
      RunCoresNext(n, tm, k, now, start);
      var (n1, delay) := Turn(n, k, now, start);
      RunCoresRates(n1, Schedule(tm, now, delay), k + 1, now, start);
      RatesTrans(n, n1, RunCores(n1, Schedule(tm, now, delay), k + 1, now, start).0);
    } else {
      RunCoresEnd(n, tm, now, start);
      RatesSame(n);
    }
  }

  lemma TurnRates(n: Node, k: nat, now: real, start: Option<nat>)
    requires k < |n.cores|
    ensures SameRates(n, Turn(n, k, now, start).0)
  {
    TurnIs(n, k, now, start);
    var n0 := if start.Some? then StartOn(n, k, now, start.value) else n;
    assert SameRates(n, n0);
    RefreshRates(n0, k, now);
    hide Turn, Refresh, StartOn;
  }

  lemma AssignRates(n: Node, k: nat, a: Alloc)
    requires k < |n.cores|
    ensures SameRates(n, Assign(n, k, a))
  {}

  lemma {:induction false} PlaceFromRates(n: Node, a: Alloc, now: real, k: nat)
    requires k <= |n.cores| && now < a.deadline
    ensures SameRates(n, PlaceFrom(n, a, now, k).0)
    decreases |n.cores| - k
  {
    hide *;
    PlaceFromIs(n, a, now, k);
    if k == |n.cores| {
      RatesSame(n);
    } else {
      var n1 := Swept(n, k, now);
      SweptRates(n, k, now);
      if Admits(n1.cores[k], a, now) {
        AssignRates(n1, k, a);
        RatesTrans(n, n1, Assign(n1, k, a));
      } else {
        PlaceFromRates(n1, a, now, k + 1);
        RatesTrans(n, n1, PlaceFrom(n1, a, now, k + 1).0);
      }
    }
  }

  lemma RatesSame(n: Node)
    ensures SameRates(n, n)
  {}

  lemma RatesTrans(n: Node, m: Node, r: Node)
    requires SameRates(n, m) && SameRates(m, r)
    ensures SameRates(n, r)
  {}

  lemma {:induction false} PlaceAllocsRates(n: Node, t: Task, now: real, i: nat)
    requires i <= |t.loads| && now < t.deadline
    ensures SameRates(n, PlaceAllocs(n, t, now, i).0)
    decreases |t.loads| - i
  {
    hide PlaceAllocs, PlaceFrom;
    if i == |t.loads| {
      PlaceAllocsEnd(n, t, now);
    } else {
      PlaceAllocsNext(n, t, now, i);
      PlaceFromRates(n, Fresh(t, i), now, 0);
      var (n1, ok) := PlaceFrom(n, Fresh(t, i), now, 0);
      if ok {
        PlaceAllocsRates(n1, t, now, i + 1);
      }
    }
  }

  lemma TryRates(n: Node, t: Task, now: real, fits: bool)
    requires now < t.deadline
    ensures SameRates(n, TrySchedule(n, t, now, fits).0) && SameRates(n, Probe(n, t, now, fits).0)
  {
    PlaceAllocsRates(n, t, now, 0);
    ProbeIs(n, t, now, fits);
    hide PlaceAllocs, Probe;
  }

  /** No event but Resize changes an available rate, and Resize only that of its core. */
  lemma StepRates(s: Sys, e: Event)
    requires Enabled(s, e)
    ensures |Step(s, e).node.cores| == |s.node.cores|
    ensures !e.Resize? ==> SameRates(s.node, Step(s, e).node)
    ensures e.Resize? ==> forall k | 0 <= k < |s.node.cores| ::
      Step(s, e).node.cores[k].available == if k == e.k then e.mips else s.node.cores[k].available
  {
    match e {
      case Advance(_) =>
      case Resize(_, _) =>
      case Fire => RunCoresRates(s.node, s.timer.(pending := None), 0, s.now, None);
      case Test(t, fits) => TryRates(s.node, t, s.now, fits);
      case Dispatch(t, fits) => TryRates(s.node, t, s.now, fits);
      case Arrive(t, fitsProbe, fits) =>
        ReceiveRates(s.node, s.timer, t, s.now, t.id in s.known, fitsProbe, fits);
        hide Receive;
    }
    hide RunCores, TrySchedule, Probe;
  }

  lemma ReceiveRates(n: Node, tm: Timer, t: Task, now: real, scheduled: bool, fitsProbe: bool, fits: bool)
    requires !scheduled ==> now < t.deadline
    ensures SameRates(n, Receive(n, tm, t, now, scheduled, fitsProbe, fits).0)
  {
    ReceiveIs(n, tm, t, now, scheduled, fitsProbe, fits);
    hide TrySchedule, RunCores, Receive, Probe;
    if !scheduled {
      TryRates(n, t, now, fitsProbe);
    }
    var m := if scheduled then n else TrySchedule(n, t, now, fitsProbe).0;
    RunCoresRates(m.(holding := m.holding + {t.id}), tm, 0, now, Some(t.id));
  }
}
