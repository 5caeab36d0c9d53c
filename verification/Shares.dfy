/** How a core's rate is shared out among its active allocations. */
module Shares {
  import opened Arithmetic
  import opened Scheduling
  import opened WorkAccounting
  import opened AvailableRates
  import Timers
  import opened Simulation
  import opened Admission
  import opened Deadlines
  import Endings

  function TotalRate(s: seq<Alloc>): real {
    if s == [] then 0.0 else s[0].perf + TotalRate(s[1..])
  }

  lemma {:induction false} EqualRates(s: seq<Alloc>, r: real)
    requires forall i | 0 <= i < |s| :: s[i].perf == r
    ensures TotalRate(s) == |s| as real * r
  {
    if s != [] {
      EqualRates(s[1..], r);
      assert |s| as real * r == r + (|s| - 1) as real * r;
    }
  }

  /** Right after setComputingRate the rates of the active allocations add up to the core's rate. */
  lemma SharesAddUp(c: Core, now: real, dvfs: bool)
    requires dvfs ==> forall a :: a in c.active + c.inFly ==> now < a.deadline
    ensures TotalRate(Rated(c, now, dvfs).active) == Rated(c, now, dvfs).current
    ensures c.active == [] ==> Rated(c, now, dvfs).current == 0.0
  {
    var d := Rated(c, now, dvfs);
    if c.active != [] {
      var n, cur := |c.active| as real, d.current;
      EqualRates(d.active, cur / n);
      assert n * (cur / n) == cur;
    }
  }

  /**
   In every run that places tasks on arrival, with DVFS or without, no core is ever given a negative
   rate or more than its available rate, not only right after setComputingRate; and this survives that
   VMs are hosted, where the tasks can spare the rate and do not run at it already.
   */
  lemma SharesSpared(s0: Sys, run: seq<Event>, k: nat)
    requires Initial(s0) && Valid(s0, run) && ArrivalOnly(run) && AllTimely(s0, run) && AllGentle(s0, run)
    requires k < |Run(s0, run).node.cores|
    ensures var c := Run(s0, run).node.cores[k]; 0.0 <= c.current <= c.available
  {
    InitialInv(s0);
    Endings.InitialInv(s0);
    var s := Run(s0, run);
    hide Inv, Endings.Inv, Initial;
    RunKeepsInv(s0, run, true, {}, 0);
    InvPaced(s, {} + Endings.Late(s0, run), k);
  }

  /** So where nothing is hosted meanwhile. */
  lemma SharesWithin(s0: Sys, run: seq<Event>, k: nat)
    requires Initial(s0) && Valid(s0, run) && ArrivalOnly(run) && Steady(run) && k < |Run(s0, run).node.cores|
    ensures var c := Run(s0, run).node.cores[k]; 0.0 <= c.current <= c.available
  {
    Endings.InitialInv(s0);
    hide Endings.Inv;
    NobodyTravels(s0, run, {}, 0);
    SharesSpared(s0, run, k);
  }

  lemma InvPaced(s: Sys, late: set<nat>, k: nat)
    requires Inv(s, late, true) && k < |s.node.cores|
    ensures 0.0 <= s.node.cores[k].current <= s.node.cores[k].available
  {
    hide Fits, Booked, Parted, Served, Running;
    assert CoreInv(s.node.cores[k], At(s, true), s.timer);
  }

  // ---------- the rate of an allocation, in deadlines and work ----------

  predicate Ahead(c: Core, now: real) {
    forall a :: a in c.active + c.inFly ==> now < a.deadline
  }

  /** What allocation a needs to be done in time. */
  function Need(a: Alloc, now: real): real
    requires now < a.deadline
  {
    a.mips / (a.deadline - now)
  }

  /**
   Rate r is what the most urgent allocation on the core needs, active or in flight, unless the core has
   less: then it is all the core has.
   */
  predicate MostUrgent(c: Core, now: real, r: real)
    requires Ahead(c, now)
  {
    && r <= c.available
    && (r == c.available || (exists a :: a in c.active + c.inFly && r == Need(a, now)))
    && (r == c.available || (forall a :: a in c.active + c.inFly ==> Need(a, now) <= r))
  }

  lemma NeedPositive(a: Alloc, now: real)
    requires now < a.deadline && a.mips > 0.0
    ensures Need(a, now) > 0.0
  {}

  lemma UrgencyMeans(c: Core, now: real)
    requires Ahead(c, now) && c.active != [] && UpToDate(c, now)
    ensures MostUrgent(c, now, Urgency(c, now))
  {
    var s := c.active + c.inFly;
    assert s[0] in s && s[0] in c.active;
    NeedPositive(s[0], now);
    forall a | a in s
      ensures Required(a, now) == Need(a, now)
    {}
    hide Required, MaxRate, Need;
  }

  lemma PaidOne(a: Alloc, now: real, pace: real, u: real, n: real)
    requires a.since == now && a.mips > 0.0 && n > 0.0 && pace == u * n
    ensures WithRate(a, now, pace / n) == a.(perf := u)
  {
    UpdatedNow(a, now);
    ShareOfTotal(u, n);
    hide Updated;
  }

  lemma RatedAt(c: Core, now: real, i: nat, pace: real)
    requires Ahead(c, now) && i < |c.active| && pace == Pace(c, now, true)
    ensures var d := Rated(c, now, true);
      && d.available == c.available && d.inFly == c.inFly && |d.active| == |c.active|
      && d.active[i] == WithRate(c.active[i], now, pace / |c.active| as real)
  {}

  /** Sharing out the rate leaves deadlines and the work left as they are. */
  lemma RatedMeans(c: Core, now: real)
    requires Ahead(c, now) && UpToDate(c, now) && c.active != []
    ensures var d := Rated(c, now, true);
      && d.available == c.available && d.inFly == c.inFly && |d.active| == |c.active|
      && (forall i | 0 <= i < |c.active| :: d.active[i] == c.active[i].(perf := Urgency(c, now)))
  {
    hide Rated, Pace, Urgency, WithRate;
    PaceIs(c, now);
    RatedAt(c, now, 0, Pace(c, now, true));
    forall i | 0 <= i < |c.active|
      ensures Rated(c, now, true).active[i] == c.active[i].(perf := Urgency(c, now))
    {
      assert c.active[i] in c.active;
      RatedAt(c, now, i, Pace(c, now, true));
      PaidOne(c.active[i], now, Pace(c, now, true), Urgency(c, now), |c.active| as real);
    }
  }

  lemma RatedPlain(c: Core, now: real)
    ensures var d := Rated(c, now, false);
      && d.available == c.available && |d.active| == |c.active|
      && forall i | 0 <= i < |c.active| :: d.active[i].perf == c.available / |c.active| as real
  {
    hide Updated;
  }

  lemma AheadKept(c: Core, d: Core, now: real, r: real)
    requires Ahead(c, now) && d.inFly == c.inFly
    requires |d.active| == |c.active| && forall i | 0 <= i < |c.active| :: d.active[i] == c.active[i].(perf := r)
    ensures Ahead(d, now)
  {
    forall a | a in d.active + d.inFly
      ensures now < a.deadline
    {
      if a in d.active {
        var i :| 0 <= i < |d.active| && d.active[i] == a;
        assert c.active[i] in c.active + c.inFly;
      } else {
        assert a in c.active + c.inFly;
      }
    }
  }

  lemma UrgentKept(c: Core, d: Core, now: real, r: real)
    requires Ahead(c, now) && Ahead(d, now) && d.available == c.available && d.inFly == c.inFly
    requires |d.active| == |c.active| && forall i | 0 <= i < |c.active| :: d.active[i] == c.active[i].(perf := r)
    requires MostUrgent(c, now, r)
    ensures MostUrgent(d, now, r)
  {
    if r != c.available {
      forall a | a in d.active + d.inFly
        ensures Need(a, now) <= r
      {
        if a in d.active {
          var i :| 0 <= i < |d.active| && d.active[i] == a;
          assert c.active[i] in c.active + c.inFly;
        } else {
          assert a in c.active + c.inFly;
        }
      }
      var a :| a in c.active + c.inFly && r == Need(a, now);
      if a in c.active {
        var i :| 0 <= i < |c.active| && c.active[i] == a;
        assert d.active[i] in d.active + d.inFly;
      } else {
        assert a in d.active + d.inFly;
      }
    }
  }

  lemma RatesPaidUrgent(c: Core, now: real)
    requires Ahead(c, now) && UpToDate(c, now)
    ensures var d := Rated(c, now, true); Ahead(d, now) && forall b :: b in d.active ==> MostUrgent(d, now, b.perf)
  {
    var d, u := Rated(c, now, true), Urgency(c, now);
    if c.active != [] {
      RatedMeans(c, now);
      AheadKept(c, d, now, u);
      UrgencyMeans(c, now);
      hide Ahead, Urgency, Rated, MostUrgent;
      UrgentKept(c, d, now, u);
    }
  }

  /**
   After setComputingRate with DVFS every active allocation runs at the rate the most urgent allocation on
   the core needs, capped at what is available; without DVFS all of the available rate is paid out in
   equal parts.
   */
  lemma RatesPaid(n: Node, k: nat, now: real)
    requires k < |n.cores|
    ensures var c := SetRate(n, k, now).cores[k];
      && c.available == n.cores[k].available
      && (n.dvfs ==> Ahead(c, now) && forall b :: b in c.active ==> MostUrgent(c, now, b.perf))
      && (!n.dvfs ==> forall b :: b in c.active ==> b.perf == c.available / |c.active| as real)
  {
    SetRateIs(n, k, now);
    SweptRates(n, k, now);
    if n.dvfs {
      SweptAhead(n, k, now);
      hide Swept, Rated, MostUrgent, Ahead, UpToDate, SetRate;
      RatesPaidUrgent(Swept(n, k, now).cores[k], now);
      SweptRated(n, k, now);
    } else {
      hide Rated;
      RatedPlain(n.cores[k], now);
    }
  }

  lemma SweptAhead(n: Node, k: nat, now: real)
    requires k < |n.cores|
    ensures var c := Swept(n, k, now).cores[k]; Ahead(c, now) && UpToDate(c, now)
  {
    var c := Swept(n, k, now).cores[k];
    Timers.SweptFewer(n, k, now);
    hide Swept, Timers.AllFewer;
    forall a | a in c.active
      ensures a.since == now && a.mips > 1.0 && now < a.deadline
    {
      assert a in c.active + c.inFly;
    }
  }

  lemma SweptRated(n: Node, k: nat, now: real)
    requires k < |n.cores|
    ensures forall a :: a in Swept(n, k, now).cores[k].active + Swept(n, k, now).cores[k].inFly ==> now < a.deadline
    ensures Rated(Swept(n, k, now).cores[k], now, true).available == Swept(n, k, now).cores[k].available
  {
    hide Swept;
  }
}
