/** The provider's event timer, in every run: no completion of running work is missed. */
module Timers {
  import opened Common
  import opened Arithmetic
  import opened Scheduling
  import opened Simulation
  import opened AllocLists
  import opened WorkAccounting

  /** The allocation, if it runs, is not done before now. */
  predicate Due(a: Alloc, now: real) {
    a.since <= now && a.perf >= 0.0 && (a.perf > 0.0 ==> Left(a, now) >= 0.0)
  }

  /** The queued event comes before the allocation, if it runs, is done. */
  predicate Watched(a: Alloc, now: real, tm: Timer) {
    && a.since <= now && a.perf >= 0.0
    && (a.perf > 0.0 ==> tm.pending.Some? && now <= tm.pending.value && Left(a, tm.pending.value) >= 0.0)
  }

  /** The same, and the event is the provider's event time and still ahead. */
  predicate Guarded(a: Alloc, now: real, tm: Timer) {
    Watched(a, now, tm) && (a.perf > 0.0 ==> tm.eventTime == tm.pending && tm.pending.value > now)
  }

  /** What is in flight does not run, and there is no negative capacity. */
  predicate Sane(c: Core) {
    c.available >= 0.0 && forall a :: a in c.inFly ==> a.perf == 0.0
  }

  predicate AllDue(c: Core, now: real) {
    Sane(c) && forall a :: a in c.active ==> Due(a, now)
  }

  predicate AllWatched(c: Core, now: real, tm: Timer) {
    Sane(c) && forall a :: a in c.active ==> Watched(a, now, tm)
  }

  predicate AllGuarded(c: Core, now: real, tm: Timer) {
    Sane(c) && forall a :: a in c.active ==> Guarded(a, now, tm)
  }

  /** An event time still ahead is the one that is queued. */
  predicate TimerOk(tm: Timer, now: real) {
    if tm.eventTime.Some? && tm.eventTime.value > now then tm.pending == tm.eventTime
    else tm.pending.None? || tm.pending.value <= now
  }

  predicate NodeOk(n: Node, now: real, tm: Timer) {
    forall k | 0 <= k < |n.cores| :: AllWatched(n.cores[k], now, tm)
  }

  // ---------- one allocation ----------

  lemma WatchedIsDue(a: Alloc, now: real, tm: Timer)
    requires Watched(a, now, tm)
    ensures Due(a, now)
  {
    if a.perf > 0.0 {
      LeftFalls(a, now, tm.pending.value);
    }
  }

  /** Work left never rises while the rate is not negative. */
  lemma LeftFalls(a: Alloc, t: real, u: real)
    requires a.perf >= 0.0 && t <= u
    ensures Left(a, u) <= Left(a, t)
  {
    LeftSplit(a, t, u);
    hide Left;
    ProductSign(a.perf, u - t);
  }

  lemma UpdateWatched(a: Alloc, now: real, tm: Timer)
    requires Watched(a, now, tm)
    ensures Watched(Updated(a, now), now, tm)
  {
    UpdateAlloc(a, now);
    if a.perf > 0.0 {
      UpdatedLeft(a, now, tm.pending.value);
      hide Left, Updated;
    }
  }

  /** Asking for another event leaves running work guarded. */
  lemma StillGuarded(a: Alloc, now: real, tm: Timer, delay: Option<real>)
    requires Guarded(a, now, tm) && (delay.Some? ==> delay.value > 0.0)
    ensures Guarded(a, now, Schedule(tm, now, delay))
  {
    var tm1 := Schedule(tm, now, delay);
    if a.perf > 0.0 {
      LeftFalls(a, tm1.pending.value, tm.pending.value);
    }
  }

  /** Work that was just given a rate. */
  predicate Started(a: Alloc, now: real) {
    a.since == now && a.mips > 1.0 && a.perf >= 0.0
  }

  lemma StartedDone(a: Alloc, now: real, t: real)
    requires Started(a, now) && a.perf > 0.0
    ensures ExecTime(a).Some? && ExecTime(a).value > 0.0
    ensures t - now <= ExecTime(a).value ==> Left(a, t) >= 0.0
  {
    FinishTime(a.mips, a.perf, t - now);
  }

  /** The timer set for the first completion on a core guards that core. */
  lemma TimerGuards(s: seq<Alloc>, now: real, tm: Timer)
    requires TimerOk(tm, now) && forall a :: a in s ==> Started(a, now)
    ensures var delay := SoonestExec(s);
      var tm1 := Schedule(tm, now, delay);
      && TimerOk(tm1, now) && (delay.Some? ==> delay.value > 0.0)
      && forall a :: a in s ==> Guarded(a, now, tm1)
  {
    hide Left, ExecTime;
    var delay := SoonestExec(s);
    if delay.Some? {
      var e :| e in s && ExecTime(e) == delay;
      ExecRuns(e, now);
      StartedDone(e, now, now);
    }
    var tm1 := Schedule(tm, now, delay);
    forall a | a in s
      ensures Guarded(a, now, tm1)
    {
      if a.perf > 0.0 {
        StartedDone(a, now, now);
        StartedDone(a, now, tm1.pending.value);
      }
    }
  }

  lemma ExecRuns(a: Alloc, now: real)
    requires Started(a, now) && ExecTime(a).Some?
    ensures a.perf > 0.0
  {}

  // ---------- what the operations do to the cores ----------

  /** Core d is core c, perhaps with fewer allocations. */
  predicate Fewer(c: Core, d: Core) {
    && d.available == c.available
    && (forall a :: a in d.active ==> a in c.active)
    && (forall a :: a in d.inFly ==> a in c.inFly)
  }

  predicate AllFewer(n: Node, m: Node) {
    |m.cores| == |n.cores| && forall k | 0 <= k < |n.cores| :: Fewer(n.cores[k], m.cores[k])
  }

  lemma FailFewer(n: Node, out: set<nat>)
    ensures AllFewer(n, FailAll(n, out))
  {}

  lemma PurgeFewer(n: Node, k: nat, now: real)
    requires k < |n.cores|
    ensures AllFewer(n, Purge(n, k, now))
    ensures forall a :: a in Purge(n, k, now).cores[k].active ==> a.mips > 1.0
  {}

  lemma FewerTrans(n: Node, m: Node, p: Node)
    requires AllFewer(n, m) && AllFewer(m, p)
    ensures AllFewer(n, p)
  {
    forall k | 0 <= k < |n.cores|
      ensures Fewer(n.cores[k], p.cores[k])
    {
      assert Fewer(n.cores[k], m.cores[k]) && Fewer(m.cores[k], p.cores[k]);
    }
  }

  lemma FewerOk(n: Node, m: Node, now: real, tm: Timer)
    requires AllFewer(n, m) && NodeOk(n, now, tm)
    ensures NodeOk(m, now, tm)
  {
    hide Watched;
    forall k | 0 <= k < |m.cores|
      ensures AllWatched(m.cores[k], now, tm)
    {
      assert Fewer(n.cores[k], m.cores[k]) && AllWatched(n.cores[k], now, tm);
    }
  }

  /** Sweeping core k: its work is brought up to date, and otherwise nothing new appears anywhere. */
  lemma SweptFewer(n: Node, k: nat, now: real)
    requires k < |n.cores|
    ensures AllFewer(WithActive(n, k, UpdateAll(n.cores[k].active, now)), Swept(n, k, now))
    ensures forall a :: a in Swept(n, k, now).cores[k].active ==> a.mips > 1.0 && a.since == now
  {
    hide Purge, FailAll, Updated;
    SweptIs(n, k, now);
    var n1 := WithActive(n, k, UpdateAll(n.cores[k].active, now));
    var n2 := Purge(n1, k, now);
    PurgeFewer(n1, k, now);
    FailFewer(n2, Overdue(n2.cores[k].inFly, now));
    var r := FailAll(n2, Overdue(n2.cores[k].inFly, now));
    FewerTrans(n1, n2, r);
    assert Fewer(n1.cores[k], r.cores[k]) && Fewer(n2.cores[k], r.cores[k]);
    forall a | a in r.cores[k].active
      ensures a.mips > 1.0 && a.since == now
    {
      UpdatedSince(n.cores[k].active, now, a);
    }
  }

  lemma UpdatedSince(s: seq<Alloc>, now: real, a: Alloc)
    requires a in UpdateAll(s, now)
    ensures a.since == now
  {}

  lemma SweptOk(n: Node, k: nat, now: real, tm: Timer)
    requires k < |n.cores| && NodeOk(n, now, tm)
    ensures NodeOk(Swept(n, k, now), now, tm)
  {
    hide Watched, Swept, Updated;
    var n1 := WithActive(n, k, UpdateAll(n.cores[k].active, now));
    assert AllWatched(n.cores[k], now, tm);
    forall a | a in n1.cores[k].active
      ensures Watched(a, now, tm)
    {
      var i :| 0 <= i < |n.cores[k].active| && UpdateAll(n.cores[k].active, now)[i] == a;
      assert n.cores[k].active[i] in n.cores[k].active;
      UpdateWatched(n.cores[k].active[i], now, tm);
    }
    SweptFewer(n, k, now);
    FewerOk(n1, Swept(n, k, now), now, tm);
  }

  // ---------- updateTskList ----------

  lemma Quotient(x: real, d: real)
    requires x >= 0.0 && d > 0.0
    ensures x / d >= 0.0
  {}

  lemma RatedStarted(c: Core, now: real, dvfs: bool, b: Alloc)
    requires dvfs ==> forall a :: a in c.active + c.inFly ==> now < a.deadline
    requires c.available >= 0.0 && forall a :: a in c.active ==> a.mips > 1.0 && a.since == now
    requires b in Rated(c, now, dvfs).active
    ensures Started(b, now)
  {
    PaceNotNegative(c, now, dvfs);
    hide Pace;
    var rate := Pace(c, now, dvfs);
    var i :| 0 <= i < |c.active| && RateAll(c.active, now, rate)[i] == b;
    var a := c.active[i];
    assert a in c.active;
    UpdatedNow(a, now);
    Quotient(rate, |c.active| as real);
  }

  lemma PaceNotNegative(c: Core, now: real, dvfs: bool)
    requires dvfs ==> forall a :: a in c.active + c.inFly ==> now < a.deadline
    requires c.available >= 0.0
    ensures Pace(c, now, dvfs) >= 0.0
  {
    hide MaxRate;
    if dvfs {
      ProductSign(Urgency(c, now), |c.active| as real);
    }
  }

  /** The node before setComputingRate shares the rate out. */
  lemma SetRateStarts(n: Node, k: nat, now: real) returns (m: Node)
    requires k < |n.cores| && n.cores[k].available >= 0.0
    requires forall a :: a in n.cores[k].active ==> a.mips > 1.0 && a.since == now
    ensures m == if n.dvfs then Swept(n, k, now) else n
    ensures |m.cores| == |n.cores| && m.dvfs == n.dvfs
    ensures n.dvfs ==> forall a :: a in m.cores[k].active + m.cores[k].inFly ==> now < a.deadline
    ensures SetRate(n, k, now).cores == m.cores[k := Rated(m.cores[k], now, n.dvfs)]
    ensures forall b :: b in Rated(m.cores[k], now, n.dvfs).active ==> Started(b, now)
    ensures forall j | 0 <= j < |n.cores| && j != k :: Fewer(n.cores[j], m.cores[j])
    ensures m.cores[k].available == n.cores[k].available && forall a :: a in m.cores[k].inFly ==> a in n.cores[k].inFly
  {
    m := if n.dvfs then Swept(n, k, now) else n;
    SetRateIs(n, k, now);
    if n.dvfs {
      SweptFewer(n, k, now);
      var n1 := WithActive(n, k, UpdateAll(n.cores[k].active, now));
      hide Swept;
      forall j | 0 <= j < |n.cores|
        ensures j != k ==> Fewer(n.cores[j], m.cores[j])
      {
        assert Fewer(n1.cores[j], m.cores[j]);
      }
      assert Fewer(n1.cores[k], m.cores[k]);
    }
    hide Rated, Swept, Started;
    forall b | b in Rated(m.cores[k], now, n.dvfs).active
      ensures Started(b, now)
    {
      RatedStarted(m.cores[k], now, n.dvfs, b);
    }
  }

  /** After updateTskList the work of core k was just given its rate; elsewhere work may only be gone. */
  predicate Renewed(n: Node, k: nat, now: real, r: Node)
    requires k < |n.cores|
  {
    && |r.cores| == |n.cores|
    && (forall a :: a in r.cores[k].active ==> Started(a, now))
    && r.cores[k].available == n.cores[k].available && (forall a :: a in r.cores[k].inFly ==> a in n.cores[k].inFly)
    && (forall j | 0 <= j < |n.cores| && j != k :: Fewer(n.cores[j], r.cores[j]))
  }

  lemma RefreshRenews(n: Node, k: nat, now: real)
    requires k < |n.cores| && n.cores[k].active != [] && n.cores[k].available >= 0.0
    ensures Renewed(n, k, now, Refresh(n, k, now).0)
    ensures Refresh(n, k, now).1 == SoonestExec(Refresh(n, k, now).0.cores[k].active)
  {
    RefreshIs(n, k, now);
    var c := n.cores[k];
    var n1 := WithActive(n, k, RateAll(c.active, now, c.current));
    PurgeFewer(n1, k, now);
    hide Purge, SetRate, RateAll;
    forall a | a in Purge(n1, k, now).cores[k].active
      ensures a.mips > 1.0 && a.since == now
    {
      RatedSince(c.active, now, c.current, a);
    }
    SetRateRenews(n, n1, Purge(n1, k, now), k, now);
  }

  /** The end of updateTskList, after the finished work left: n2 is what removeCompleted made of n1. */
  lemma SetRateRenews(n: Node, n1: Node, n2: Node, k: nat, now: real)
    requires k < |n.cores| && n.cores[k].available >= 0.0
    requires |n1.cores| == |n.cores| == |n2.cores| && n1.cores == n.cores[k := n1.cores[k]]
    requires n1.cores[k].available == n.cores[k].available && n1.cores[k].inFly == n.cores[k].inFly
    requires forall j | 0 <= j < |n.cores| :: Fewer(n1.cores[j], n2.cores[j])
    requires forall a :: a in n2.cores[k].active ==> a.mips > 1.0 && a.since == now
    ensures Renewed(n, k, now, SetRate(n2, k, now))
  {
    var m := SetRateStarts(n2, k, now);
    var r := SetRate(n2, k, now);
    hide SetRate, Updated, Rated, Started, Swept;
    assert Fewer(n1.cores[k], n2.cores[k]);
    forall j | 0 <= j < |n.cores| && j != k
      ensures Fewer(n.cores[j], r.cores[j])
    {
      assert Fewer(n1.cores[j], n2.cores[j]) && Fewer(n2.cores[j], m.cores[j]);
    }
    RatedShape(m.cores[k], now, n2.dvfs);
  }

  lemma RatedSince(s: seq<Alloc>, now: real, rate: real, a: Alloc)
    requires a in RateAll(s, now, rate)
    ensures a.since == now
  {}

  lemma RatedShape(c: Core, now: real, dvfs: bool)
    requires dvfs ==> forall a :: a in c.active + c.inFly ==> now < a.deadline
    ensures Rated(c, now, dvfs).available == c.available && Rated(c, now, dvfs).inFly == c.inFly
  {}

  // ---------- all cores ----------

  /** The cores before k are guarded; on the others no completion has been missed yet. */
  predicate Halfway(n: Node, k: nat, now: real, tm: Timer) {
    && TimerOk(tm, now)
    && (forall j | 0 <= j < k && j < |n.cores| :: AllGuarded(n.cores[j], now, tm))
    && (forall j | k <= j < |n.cores| :: AllDue(n.cores[j], now))
  }

  lemma StartDue(n: Node, k: nat, now: real, tm: Timer, t: nat)
    requires k < |n.cores| && Halfway(n, k, now, tm)
    ensures Halfway(StartOn(n, k, now, t), k, now, tm)
  {
    var m := StartOn(n, k, now, t);
    assert AllDue(n.cores[k], now);
    forall a | a in m.cores[k].active
      ensures Due(a, now)
    {
      if a !in n.cores[k].active {
        var b :| b in n.cores[k].inFly && b.task == t && a == b.(since := now);
      }
    }
    forall j | 0 <= j < |n.cores| && j != k
      ensures m.cores[j] == n.cores[j]
    {}
  }

  lemma TurnHalfway(n: Node, k: nat, now: real, tm: Timer)
    requires k < |n.cores| && Halfway(n, k, now, tm)
    ensures var (r, delay) := Refresh(n, k, now);
      Halfway(r, k + 1, now, Schedule(tm, now, delay))
  {
    assert AllDue(n.cores[k], now);
    if n.cores[k].active != [] {
      RefreshRenews(n, k, now);
      var (r, delay) := Refresh(n, k, now);
      hide Refresh;
      TimerGuards(r.cores[k].active, now, tm);
      RenewedHalfway(n, k, now, tm, r, delay);
    }
  }

  lemma RenewedHalfway(n: Node, k: nat, now: real, tm: Timer, r: Node, delay: Option<real>)
    requires k < |n.cores| && Halfway(n, k, now, tm) && Renewed(n, k, now, r) && (delay.Some? ==> delay.value > 0.0)
    requires TimerOk(Schedule(tm, now, delay), now)
    requires forall a :: a in r.cores[k].active ==> Guarded(a, now, Schedule(tm, now, delay))
    ensures Halfway(r, k + 1, now, Schedule(tm, now, delay))
  {
    hide Guarded, Due, Schedule, Started;
    var tm1 := Schedule(tm, now, delay);
    forall j | 0 <= j < |r.cores|
      ensures j <= k ==> AllGuarded(r.cores[j], now, tm1)
      ensures j > k ==> AllDue(r.cores[j], now)
    {
      if j < k {
        assert AllGuarded(n.cores[j], now, tm) && Fewer(n.cores[j], r.cores[j]);
        forall a | a in r.cores[j].active
          ensures Guarded(a, now, tm1)
        {
          StillGuarded(a, now, tm, delay);
        }
      } else {
        assert AllDue(n.cores[j], now);
      }
    }
  }

  lemma {:induction false} RunCoresOk(n: Node, tm: Timer, k: nat, now: real, start: Option<nat>)
    requires k <= |n.cores| && Halfway(n, k, now, tm)
    ensures var (r, tm1) := RunCores(n, tm, k, now, start);
      NodeOk(r, now, tm1) && TimerOk(tm1, now)
    decreases |n.cores| - k
  {
    hide Refresh, Schedule, StartOn, Guarded, Watched, Due;
    if k == |n.cores| {
      GuardedOk(n, now, tm);
    } else {
      var m := if start.Some? then StartOn(n, k, now, start.value) else n;
      if start.Some? {
        StartDue(n, k, now, tm, start.value);
      }
      TurnHalfway(m, k, now, tm);
      var (r, delay) := Refresh(m, k, now);
      RunCoresOk(r, Schedule(tm, now, delay), k + 1, now, start);
    }
  }

  lemma GuardedOk(n: Node, now: real, tm: Timer)
    requires Halfway(n, |n.cores|, now, tm)
    ensures NodeOk(n, now, tm)
  {
    hide Watched;
    forall k | 0 <= k < |n.cores|
      ensures AllWatched(n.cores[k], now, tm)
    {
      assert AllGuarded(n.cores[k], now, tm);
    }
  }

  lemma OkHalfway(n: Node, now: real, tm: Timer, tm1: Timer)
    requires NodeOk(n, now, tm) && TimerOk(tm1, now)
    ensures Halfway(n, 0, now, tm1)
  {
    hide Watched, Due;
    forall k, a | 0 <= k < |n.cores| && a in n.cores[k].active
      ensures Due(a, now)
    {
      assert AllWatched(n.cores[k], now, tm);
      WatchedIsDue(a, now, tm);
    }
    assert forall k | 0 <= k < |n.cores| :: AllWatched(n.cores[k], now, tm) ==> Sane(n.cores[k]);
  }

  // ---------- placing ----------

  lemma {:induction false} PlaceFromOk(n: Node, a: Alloc, now: real, k: nat, tm: Timer)
    requires k <= |n.cores| && now < a.deadline && a.perf == 0.0 && NodeOk(n, now, tm)
    ensures NodeOk(PlaceFrom(n, a, now, k).0, now, tm)
    decreases |n.cores| - k
  {
    hide Swept, Admits, Watched;
    PlaceFromIs(n, a, now, k);
    if k < |n.cores| {
      SweptOk(n, k, now, tm);
      var n1 := Swept(n, k, now);
      if Admits(n1.cores[k], a, now) {
        var r := Assign(n1, k, a);
        forall j | 0 <= j < |r.cores|
          ensures AllWatched(r.cores[j], now, tm)
        {
          assert AllWatched(n1.cores[j], now, tm);
        }
      } else {
        PlaceFromOk(n1, a, now, k + 1, tm);
      }
    }
  }

  lemma WithdrawOk(n: Node, t: nat, now: real, tm: Timer)
    requires NodeOk(n, now, tm)
    ensures NodeOk(Withdraw(n, t), now, tm)
  {
    assert AllFewer(n, Withdraw(n, t));
    FewerOk(n, Withdraw(n, t), now, tm);
  }

  lemma {:induction false} PlaceAllocsOk(n: Node, t: Task, now: real, i: nat, tm: Timer)
    requires i <= |t.loads| && now < t.deadline && NodeOk(n, now, tm)
    ensures NodeOk(PlaceAllocs(n, t, now, i).0, now, tm)
    decreases |t.loads| - i
  {
    hide PlaceFrom, NodeOk, Withdraw;
    if i < |t.loads| {
      PlaceFromOk(n, Fresh(t, i), now, 0, tm);
      var (n1, ok) := PlaceFrom(n, Fresh(t, i), now, 0);
      if ok {
        PlaceAllocsOk(n1, t, now, i + 1, tm);
      } else {
        WithdrawOk(n1, t.id, now, tm);
      }
    }
  }

  lemma TryOk(n: Node, t: Task, now: real, fits: bool, tm: Timer)
    requires now < t.deadline && NodeOk(n, now, tm)
    ensures NodeOk(TrySchedule(n, t, now, fits).0, now, tm)
  {
    PlaceAllocsOk(n, t, now, 0, tm);
  }

  lemma ReceiveOk(n: Node, tm: Timer, t: Task, now: real, scheduled: bool, fitsProbe: bool, fits: bool)
    requires (!scheduled ==> now < t.deadline) && NodeOk(n, now, tm) && TimerOk(tm, now)
    ensures var (r, tm1) := Receive(n, tm, t, now, scheduled, fitsProbe, fits);
      NodeOk(r, now, tm1) && TimerOk(tm1, now)
  {
    hide NodeOk, TimerOk, RunCores, TrySchedule, Halfway;
    ReceiveIs(n, tm, t, now, scheduled, fitsProbe, fits);
    if !scheduled {
      TryOk(n, t, now, fitsProbe, tm);
    }
    var (m, ok) := if scheduled then (n, true) else TrySchedule(n, t, now, fitsProbe);
    if ok && fits {
      var m1 := m.(holding := m.holding + {t.id});
      HoldingOk(m, m1, now, tm);
      OkHalfway(m1, now, tm, tm);
      RunCoresOk(m1, tm, 0, now, Some(t.id));
    } else {
      FailFewer(m, {t.id});
      FewerOk(m, FailAll(m, {t.id}), now, tm);
    }
  }

  lemma HoldingOk(n: Node, m: Node, now: real, tm: Timer)
    requires NodeOk(n, now, tm) && m.cores == n.cores
    ensures NodeOk(m, now, tm)
  {}

  // ---------- all runs ----------

  predicate Inv(s: Sys) {
    NodeOk(s.node, s.now, s.timer) && TimerOk(s.timer, s.now)
  }

  lemma StepOk(s: Sys, e: Event)
    requires Inv(s) && Enabled(s, e)
    ensures Inv(Step(s, e))
  {
    match e
    case Advance(dt) =>
      AdvanceOk(s, dt);
    case Fire =>
      var tm := s.timer.(pending := None);
      OkHalfway(s.node, s.now, s.timer, tm);
      RunCoresOk(s.node, tm, 0, s.now, None);
    case Test(t, fits) =>
      TryOk(s.node, t, s.now, fits, s.timer);
      WithdrawOk(TrySchedule(s.node, t, s.now, fits).0, t.id, s.now, s.timer);
    case Dispatch(t, fits) =>
      TryOk(s.node, t, s.now, fits, s.timer);
    case Resize(k, mips) =>
      ResizeOk(s, k, mips);
    case Arrive(t, fitsProbe, fits) =>
      ReceiveOk(s.node, s.timer, t, s.now, t.id in s.known, fitsProbe, fits);
  }

  lemma ResizeOk(s: Sys, k: nat, mips: real)
    requires Inv(s) && Enabled(s, Resize(k, mips))
    ensures Inv(Step(s, Resize(k, mips)))
  {
    hide Watched;
    forall j | 0 <= j < |s.node.cores|
      ensures AllWatched(Resized(s.node, k, mips).cores[j], s.now, s.timer)
    {
      assert AllWatched(s.node.cores[j], s.now, s.timer);
    }
  }

  lemma AdvanceOk(s: Sys, dt: real)
    requires Inv(s) && Enabled(s, Advance(dt))
    ensures Inv(Step(s, Advance(dt)))
  {
    hide Left;
    forall k | 0 <= k < |s.node.cores|
      ensures AllWatched(s.node.cores[k], s.now + dt, s.timer)
    {
      assert AllWatched(s.node.cores[k], s.now, s.timer);
    }
  }

  lemma {:induction false} RunOk(s: Sys, run: seq<Event>)
    requires Inv(s) && Valid(s, run)
    ensures Inv(Run(s, run))
    decreases |run|
  {
    hide Inv, Step, Enabled;
    if run != [] {
      StepOk(s, run[0]);
      RunOk(Step(s, run[0]), run[1..]);
    }
  }

  /**
   No missed completion.  In every run, whatever is tested, dispatched, received or fails, the queued
   event is no later than the completion of any running allocation on any core.
   */
  lemma NoMissedCompletion(s0: Sys, run: seq<Event>, k: nat, a: Alloc)
    requires Initial(s0) && Valid(s0, run)
    requires k < |Run(s0, run).node.cores| && a in Run(s0, run).node.cores[k].active && a.perf != 0.0
    ensures var s := Run(s0, run);
      s.timer.pending.Some? && s.now <= s.timer.pending.value <= a.since + a.mips / a.perf
  {
    InitialOk(s0);
    RunOk(s0, run);
    hide Run, Valid, Initial;
    var s := Run(s0, run);
    assert AllWatched(s.node.cores[k], s.now, s.timer);
    WatchedBound(a, s.now, s.timer);
  }

  lemma WatchedBound(a: Alloc, now: real, tm: Timer)
    requires Watched(a, now, tm) && a.perf != 0.0
    ensures tm.pending.Some? && now <= tm.pending.value <= a.since + a.mips / a.perf
  {
    var d := tm.pending.value - a.since;
    AtLeastQuotient(a.mips, a.perf, d);
  }

  lemma InitialOk(s: Sys)
    requires Initial(s)
    ensures Inv(s)
  {
    forall k | 0 <= k < |s.node.cores|
      ensures AllWatched(s.node.cores[k], s.now, s.timer)
    {
      assert s.node.cores[k] in s.node.cores;
    }
  }

  lemma AtLeastQuotient(x: real, r: real, d: real)
    requires r > 0.0 && r * d <= x
    ensures d <= x / r
  {
    var q := x / r;
    assert x == r * q;
    Cancel(d, q, r);
  }
}
