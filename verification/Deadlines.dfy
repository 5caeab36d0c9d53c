/** Admission implies the deadline is met, in every run. */
module Deadlines {
  import opened Common
  import opened Arithmetic
  import opened Scheduling
  import opened Simulation
  import opened AllocLists
  import opened WorkAccounting
  import opened Admission
  import Timers
  import Endings

  // ---------- the invariant ----------

  /** Every task of adm has finished in time or is still on some core; none has failed. */
  predicate Served(n: Node, book: map<nat, Task>, adm: set<nat>) {
    && (forall t :: t in n.finished ==> t in book && n.finished[t] <= book[t].deadline)
    && (forall t :: t in adm ==> t in n.finished || !Absent(n.cores, t))
    && n.failed !! adm
  }

  /** Allocation a runs at least as fast as it must, and the timer fires before it is done. */
  predicate Paid(a: Alloc, now: real, tm: Timer) {
    && a.since <= now && Covers(a, a.perf, now)
    && tm.pending.Some? && now <= tm.pending.value && Left(a, tm.pending.value) >= 0.0
  }

  predicate Running(c: Core, now: real, tm: Timer) {
    forall a :: a in c.active ==> Paid(a, now, tm)
  }

  /** What travels runs nowhere. */
  predicate Apart(n: Node, air: set<nat>) {
    forall j | 0 <= j < |n.cores| :: forall a :: a in n.cores[j].active ==> a.task !in air
  }

  /** From n to r, away from core k, travelling tasks may fail and nothing else changes. */
  ghost predicate Changed(n: Node, r: Node, k: nat, air: set<nat>) {
    && |r.cores| == |n.cores| && r.dvfs == n.dvfs && n.failed <= r.failed <= n.failed + air
    && forall j | 0 <= j < |n.cores| && j != k :: Shed(n.cores[j], r.cores[j], air)
  }

  lemma ShedTrans(c: Core, d: Core, e: Core, air: set<nat>)
    requires Shed(c, d, air) && Shed(d, e, air)
    ensures Shed(c, e, air)
  {}

  lemma ShedRefl(c: Core, air: set<nat>)
    ensures Shed(c, c, air)
  {}

  lemma ChangedTrans(n: Node, m: Node, r: Node, k: nat, air: set<nat>)
    requires Changed(n, m, k, air) && Changed(m, r, k, air)
    ensures Changed(n, r, k, air)
  {
    hide Shed;
    forall j | 0 <= j < |n.cores| && j != k
      ensures Shed(n.cores[j], r.cores[j], air)
    {
      ShedTrans(n.cores[j], m.cores[j], r.cores[j], air);
    }
  }

  lemma ChangedHere(n: Node, r: Node, k: nat, air: set<nat>)
    requires k < |n.cores| && |r.cores| == |n.cores| && r.cores == n.cores[k := r.cores[k]]
    requires r.dvfs == n.dvfs && r.failed == n.failed
    ensures Changed(n, r, k, air)
  {
    hide Shed;
    forall j | 0 <= j < |n.cores| && j != k
      ensures Shed(n.cores[j], r.cores[j], air)
    {
      ShedRefl(n.cores[j], air);
    }
  }

  // ---------- removing completed work ----------

  lemma UpdatePaid(a: Alloc, now: real, tm: Timer)
    requires Paid(a, now, tm)
    ensures Paid(Updated(a, now), now, tm)
  {
    var p := tm.pending.value;
    LeftSplit(a, now, p);
    ProductSign(a.perf, p - now);
    UpdatedLeft(a, now, p);
    UpdateAlloc(a, now);
    hide Left, Updated;
    StillCovers(a, Updated(a, now), a.perf, now);
  }

  lemma StillCovers(a: Alloc, u: Alloc, rate: real, now: real)
    requires Covers(a, rate, now) && u.deadline == a.deadline && Left(u, now) == Max(Left(a, now), 0.0)
      && Left(a, now) >= 0.0
    ensures Covers(u, rate, now)
  {}

  lemma PurgeCalm(n: Node, k: nat, now: real)
    requires k < |n.cores|
    requires forall a :: a in n.cores[k].active && a.mips > 1.0 ==> now < a.deadline
    ensures Purge(n, k, now) == Retire(n, k, now)
  {
    assert Expired(n.cores[k].active, now) == {};
    FailNobody(n);
  }

  /** Served depends on the cores only through the tasks present on them. */
  lemma ServedStays(n: Node, m: Node, book: map<nat, Task>, adm: set<nat>)
    requires Served(n, book, adm) && m.finished == n.finished && m.failed == n.failed && |m.cores| == |n.cores|
    requires forall k, t :: 0 <= k < |n.cores| && t in adm && OnCore(n.cores[k], t) ==> OnCore(m.cores[k], t)
    ensures Served(m, book, adm)
  {
    forall t | t in adm && t !in n.finished
      ensures !Absent(m.cores, t)
    {
      var c :| c in n.cores && OnCore(c, t);
      var k :| 0 <= k < |n.cores| && n.cores[k] == c;
      assert m.cores[k] in m.cores;
    }
  }

  lemma RetireServed(n: Node, k: nat, now: real, book: map<nat, Task>, adm: set<nat>)
    requires k < |n.cores| && Served(n, book, adm) && Booked(n.cores[k], book)
    requires forall a :: a in n.cores[k].active ==> now <= a.deadline
    ensures Served(Retire(n, k, now), book, adm)
  {
    var r := Retire(n, k, now);
    var s := n.cores[k].active;
    forall t | t in adm && t !in n.finished && Absent(r.cores, t)
      ensures t in Completed(s, r.cores)
    {
      var c :| c in n.cores && OnCore(c, t);
      var j :| 0 <= j < |n.cores| && n.cores[j] == c;
      assert r.cores[j] in r.cores && !OnCore(r.cores[j], t);
      assert j == k;
      var a :| a in s && a.task == t;
      assert a !in Unfinished(s);
    }
  }

  lemma CaughtUpServed(n: Node, k: nat, u: seq<Alloc>, now: real, book: map<nat, Task>, adm: set<nat>)
    requires k < |n.cores| && Served(n, book, adm) && CaughtUp(u, n.cores[k].active, now)
    ensures Served(WithActive(n, k, u), book, adm)
  {
    hide Left;
    var s := n.cores[k].active;
    var n1 := WithActive(n, k, u);
    forall j, t | 0 <= j < |n.cores| && OnCore(n.cores[j], t)
      ensures OnCore(n1.cores[j], t)
    {
      if j == k && exists a :: a in s && a.task == t {
        var i :| 0 <= i < |s| && s[i].task == t;
        assert u[i] in u;
      }
    }
    ServedStays(n, n1, book, adm);
  }

  /** removeCompleted on an admitted core: nobody fails, and everything admitted stays served. */
  lemma PurgeAdmitted(n: Node, k: nat, u: seq<Alloc>, x: Setting, start: Option<nat>, adm: set<nat>)
    requires k < |n.cores| && CoreOk(n.cores[k], x, start) && Served(n, x.book, adm)
    requires CaughtUp(u, n.cores[k].active, x.now)
    ensures var r, d := Purge(WithActive(n, k, u), k, x.now), n.cores[k].(active := Unfinished(u));
      && r.cores == n.cores[k := d] && r.dvfs == n.dvfs && r.failed == n.failed
      && Served(r, x.book, adm) && CoreOk(d, x, start) && UpToDate(d, x.now)
  {
    hide Fits, Left, CoreOk;
    var n1 := WithActive(n, k, u);
    CaughtUpFits(n.cores[k], u, x, start);
    CaughtUpServed(n, k, u, x.now, x.book, adm);
    PurgeCalm(n1, k, x.now);
    BookedAfter(n.cores[k], u, x, start);
    RetireServed(n1, k, x.now, x.book, adm);
  }

  lemma BookedAfter(c: Core, u: seq<Alloc>, x: Setting, start: Option<nat>)
    requires CoreOk(c, x, start) && CaughtUp(u, c.active, x.now)
    ensures Booked(c.(active := u), x.book)
  {
    hide Fits, Left, Paced, Parted;
    CaughtUpFits(c, u, x, start);
  }

  /** Only tasks active on core k finish when it is purged. */
  lemma PurgeFinishes(n: Node, k: nat, u: seq<Alloc>, now: real, t: nat)
    requires k < |n.cores| && CaughtUp(u, n.cores[k].active, now)
    requires t in Purge(WithActive(n, k, u), k, now).finished && t !in n.finished
    ensures exists a :: a in n.cores[k].active && a.task == t
  {
    hide Left;
    var b :| b in u && b.task == t;
    var a := CaughtUpFrom(u, n.cores[k].active, now, b);
  }

  lemma SweptFinishes(n: Node, k: nat, now: real, t: nat)
    requires k < |n.cores| && t in Swept(n, k, now).finished && t !in n.finished
    ensures exists a :: a in n.cores[k].active && a.task == t
  {
    hide Left;
    UpdateCatchesUp(n.cores[k].active, now);
    PurgeFinishes(n, k, UpdateAll(n.cores[k].active, now), now, t);
  }

  /** Travelling tasks fail: nothing else is touched. */
  lemma FailAir(n: Node, k: nat, out: set<nat>, air: set<nat>, book: map<nat, Task>, adm: set<nat>)
    requires out <= air && adm !! air && Apart(n, air) && Served(n, book, adm)
    ensures var r := FailAll(n, out);
      && Changed(n, r, k, air) && Served(r, book, adm)
      && forall j | 0 <= j < |n.cores| :: Shed(n.cores[j], r.cores[j], air)
  {
    hide Shed;
    var r := FailAll(n, out);
    forall j | 0 <= j < |n.cores|
      ensures Shed(n.cores[j], r.cores[j], air)
    {
      WithoutSheds(n.cores[j], out, air);
    }
    forall t | t in adm && t !in n.finished
      ensures !Absent(r.cores, t)
    {
      var c :| c in n.cores && OnCore(c, t);
      var j :| 0 <= j < |n.cores| && n.cores[j] == c;
      assert OnCore(r.cores[j], t) && r.cores[j] in r.cores;
    }
  }

  /** getMostUrgentTaskRate on an admitted core: only what travels may fail. */
  lemma SweptAdmitted(n: Node, k: nat, x: Setting, start: Option<nat>, adm: set<nat>)
    requires k < |n.cores| && CoreOk(n.cores[k], x, start) && Served(n, x.book, adm)
    requires Apart(n, x.air) && adm !! x.air
    ensures var r := Swept(n, k, x.now);
      && Changed(n, r, k, x.air) && Shed(SweptCore(n.cores[k], x.now), r.cores[k], x.air)
      && Served(r, x.book, adm) && CoreOk(r.cores[k], x, start) && UpToDate(r.cores[k], x.now)
  {
    hide CoreOk, Left, Updated, Shed, Purge, Served, UpToDate;
    var u := UpdateAll(n.cores[k].active, x.now);
    UpdateCatchesUp(n.cores[k].active, x.now);
    PurgeAdmitted(n, k, u, x, start, adm);
    var n2 := Purge(WithActive(n, k, u), k, x.now);
    var out := Overdue(n2.cores[k].inFly, x.now);
    ChangedHere(n, n2, k, x.air);
    OverdueTravels(n2.cores[k], x, start);
    StillApart(n, n2, k, x, start);
    FailAir(n2, k, out, x.air, x.book, adm);
    SweptIs(n, k, x.now);
    var r := Swept(n, k, x.now);
    ChangedTrans(n, n2, r, k, x.air);
    ShedOk(n2.cores[k], r.cores[k], x, start);
    ShedUpToDate(n2.cores[k], r.cores[k], x.now, x.air);
  }

  lemma OverdueTravels(c: Core, x: Setting, start: Option<nat>)
    requires CoreOk(c, x, start)
    ensures Overdue(c.inFly, x.now) <= x.air
  {
    hide Affordable;
  }

  lemma StillApart(n: Node, r: Node, k: nat, x: Setting, start: Option<nat>)
    requires k < |n.cores| && Apart(n, x.air) && Changed(n, r, k, x.air) && CoreOk(r.cores[k], x, start)
    ensures Apart(r, x.air)
  {
    hide Fits, Booked, Paced, Waiters;
    forall j | 0 <= j < |r.cores|
      ensures forall a :: a in r.cores[j].active ==> a.task !in x.air
    {
      if j != k {
        assert Shed(n.cores[j], r.cores[j], x.air);
      }
    }
  }

  lemma ShedUpToDate(c: Core, d: Core, now: real, air: set<nat>)
    requires Shed(c, d, air) && UpToDate(c, now)
    ensures UpToDate(d, now)
  {}

  /** Sweeping splits the accounting of running work but does not change its course. */
  lemma SweptRunning(c: Core, now: real, tm: Timer)
    requires Running(c, now, tm)
    ensures Running(SweptCore(c, now), now, tm)
  {
    hide Left, Covers;
    forall b | b in SweptCore(c, now).active
      ensures Paid(b, now, tm)
    {
      var i :| 0 <= i < |c.active| && UpdateAll(c.active, now)[i] == b;
      assert c.active[i] in c.active;
      UpdatePaid(c.active[i], now, tm);
    }
  }

  // ---------- setting the rates ----------

  lemma RatedServed(n: Node, k: nat, now: real, dvfs: bool, book: map<nat, Task>, adm: set<nat>)
    requires k < |n.cores| && Served(n, book, adm)
    requires dvfs ==> forall a :: a in n.cores[k].active + n.cores[k].inFly ==> now < a.deadline
    ensures Served(n.(cores := n.cores[k := Rated(n.cores[k], now, dvfs)]), book, adm)
  {
    var s, d := n.cores[k].active, Rated(n.cores[k], now, dvfs);
    RateCatchesUp(s, now, d.current);
    CaughtUpServed(n, k, d.active, now, book, adm);
    hide Pace, RateAll;
    ServedStays(WithActive(n, k, d.active), n.(cores := n.cores[k := d]), book, adm);
  }

  lemma SetRateAdmitted(n: Node, k: nat, x: Setting, adm: set<nat>)
    requires k < |n.cores| && CoreOk(n.cores[k], x, None) && Served(n, x.book, adm) && UpToDate(n.cores[k], x.now)
    requires Apart(n, x.air) && adm !! x.air
    ensures var r := SetRate(n, k, x.now);
      Changed(n, r, k, x.air) && Served(r, x.book, adm) && JustSet(r.cores[k], x)
  {
    hide CoreOk, Served, JustSet, Swept, SetRate, Rated, Updated, Shed, UpToDate;
    var n1 := if n.dvfs then Swept(n, k, x.now) else n;
    if n.dvfs {
      SweptAdmitted(n, k, x, None, adm);
    } else {
      ChangedHere(n, n, k, x.air);
    }
    SetRateIs(n, k, x.now);
    RatedServed(n1, k, x.now, n.dvfs, x.book, adm);
    RatedJustSet(n1.cores[k], x, n.dvfs);
    ChangedHere(n1, SetRate(n, k, x.now), k, x.air);
    ChangedTrans(n, n1, SetRate(n, k, x.now), k, x.air);
  }

  /** A timer set for the first completion of running work. */
  lemma TimerCovers(c: Core, x: Setting, tm: Timer)
    requires JustSet(c, x) && Timers.TimerOk(tm, x.now)
    ensures var delay := SoonestExec(c.active);
      var tm1 := Schedule(tm, x.now, delay);
      Refreshed(c, x, tm1) && Timers.TimerOk(tm1, x.now) && (delay.Some? ==> delay.value > 0.0)
  {
    hide CoreOk, Left, Covers, ExecTime;
    var now := x.now;
    if c.active != [] {
      var delay := SoonestExec(c.active);
      var a := c.active[0];
      assert a in c.active;
      DoneAt(a, now, now);
      var e :| e in c.active && ExecTime(e) == delay;
      DoneAt(e, now, now);
      var tm1 := Schedule(tm, now, delay);
      forall b | b in c.active
        ensures Paid(b, now, tm1)
      {
        DoneAt(b, now, tm1.pending.value);
      }
    }
  }

  /** Until its completion time an allocation has work left. */
  lemma DoneAt(a: Alloc, now: real, t: real)
    requires a.since == now && a.mips > 1.0 && Covers(a, a.perf, now)
    ensures ExecTime(a).Some? && ExecTime(a).value > 0.0
    ensures t - now <= ExecTime(a).value ==> Left(a, t) >= 0.0
  {
    FinishTime(a.mips, a.perf, t - now);
  }

  /** The queued event, if the core runs anything, is the provider's event time and still ahead. */
  predicate Ahead(c: Core, now: real, tm: Timer) {
    c.active != [] ==> tm.pending.Some? && tm.pending.value > now && tm.eventTime == tm.pending
  }

  /** Asking for another event leaves every running core covered. */
  lemma StillCovered(c: Core, now: real, tm: Timer, delay: Option<real>)
    requires Running(c, now, tm) && Ahead(c, now, tm) && (delay.Some? ==> delay.value > 0.0)
    ensures var tm1 := Schedule(tm, now, delay); Running(c, now, tm1) && Ahead(c, now, tm1)
  {
    var tm1 := Schedule(tm, now, delay);
    forall b | b in c.active
      ensures Paid(b, now, tm1)
    {
      var p, p1 := tm.pending.value, tm1.pending.value;
      LeftSplit(b, p, p1);
      Scale(p1, p, b.perf);
    }
  }

  // ---------- updateTskList, and all cores of the provider ----------

  /** What one refreshed core looks like under timer tm. */
  predicate Refreshed(c: Core, x: Setting, tm: Timer) {
    CoreOk(c, x, None) && Running(c, x.now, tm) && Ahead(c, x.now, tm)
  }

  /** updateTskList on an admitted core. */
  lemma RefreshAdmitted(n: Node, k: nat, x: Setting, tm: Timer, adm: set<nat>)
    requires k < |n.cores| && CoreOk(n.cores[k], x, None) && Served(n, x.book, adm)
    requires Apart(n, x.air) && adm !! x.air && Timers.TimerOk(tm, x.now)
    ensures var (r, delay) := Refresh(n, k, x.now);
      var tm1 := Schedule(tm, x.now, delay);
      && Changed(n, r, k, x.air) && Served(r, x.book, adm) && Refreshed(r.cores[k], x, tm1)
      && Timers.TimerOk(tm1, x.now) && (delay.Some? ==> delay.value > 0.0)
  {
    hide CoreOk, JustSet, SetRate, Purge, Timers.TimerOk, Served, UpToDate, Shed;
    var c := n.cores[k];
    if c.active != [] {
      var u := RateAll(c.active, x.now, c.current);
      RateCatchesUp(c.active, x.now, c.current);
      PurgeAdmitted(n, k, u, x, None, adm);
      var n1 := Purge(WithActive(n, k, u), k, x.now);
      ChangedHere(n, n1, k, x.air);
      StillApart(n, n1, k, x, None);
      SetRateAdmitted(n1, k, x, adm);
      ChangedTrans(n, n1, SetRate(n1, k, x.now), k, x.air);
      TimerCovers(SetRate(n1, k, x.now).cores[k], x, tm);
    } else {
      ChangedHere(n, n, k, x.air);
    }
  }

  /** Before core k is reached: cores below it refreshed, the others admitted and waiting for task start. */
  predicate Halfway(n: Node, k: nat, x: Setting, tm: Timer, start: Option<nat>) {
    && Timers.TimerOk(tm, x.now)
    && (forall j | 0 <= j < |n.cores| && j < k :: Refreshed(n.cores[j], x, tm))
    && (forall j | 0 <= j < |n.cores| && k <= j :: CoreOk(n.cores[j], x, start))
  }

  lemma HalfwayApart(n: Node, k: nat, x: Setting, tm: Timer, start: Option<nat>)
    requires Halfway(n, k, x, tm, start)
    ensures Apart(n, x.air)
  {
    hide Fits, Booked, Paced, Running, Ahead;
    forall j | 0 <= j < |n.cores|
      ensures Parted(n.cores[j], x.air, if j < k then None else start)
    {}
  }

  lemma {:induction false} RunCoresAdmitted(n: Node, tm: Timer, k: nat, x: Setting, start: Option<nat>, adm: set<nat>)
    requires k <= |n.cores| && Served(n, x.book, adm) && Halfway(n, k, x, tm, start) && adm !! x.air
    ensures var (r, tm1) := RunCores(n, tm, k, x.now, start);
      && Served(r, x.book, adm) && Timers.TimerOk(tm1, x.now) && n.failed <= r.failed <= n.failed + x.air
      && forall j | 0 <= j < |r.cores| :: Refreshed(r.cores[j], x, tm1)
    decreases |n.cores| - k
  {
    hide CoreOk, Served, Refresh, StartOn, Timers.TimerOk, Schedule, Paid, Apart, Running, Ahead, Shed;
    if k < |n.cores| {
      HalfwayApart(n, k, x, tm, start);
      var n1 := if start.Some? then StartOn(n, k, x.now, start.value) else n;
      if start.Some? {
        StartAdmitted(n, k, start.value, x, adm);
      }
      RefreshAdmitted(n1, k, x, tm, adm);
      var (n2, delay) := Refresh(n1, k, x.now);
      var tm1 := Schedule(tm, x.now, delay);
      HalfwayOn(n1, n2, k, x, tm, start, delay);
      RunCoresAdmitted(n2, tm1, k + 1, x, start, adm);
    }
  }

  /** Core k has had its turn. */
  lemma HalfwayOn(n: Node, r: Node, k: nat, x: Setting, tm: Timer, start: Option<nat>, delay: Option<real>)
    requires k < |n.cores| && Changed(n, r, k, x.air) && (delay.Some? ==> delay.value > 0.0)
    requires forall j | 0 <= j < k :: Refreshed(n.cores[j], x, tm)
    requires forall j | k < j < |n.cores| :: CoreOk(n.cores[j], x, start)
    requires var tm1 := Schedule(tm, x.now, delay); Refreshed(r.cores[k], x, tm1) && Timers.TimerOk(tm1, x.now)
    ensures Halfway(r, k + 1, x, Schedule(tm, x.now, delay), start)
  {
    hide CoreOk, Shed, Schedule, Timers.TimerOk, Running, Ahead;
    var tm1 := Schedule(tm, x.now, delay);
    forall j | 0 <= j < |r.cores| && j < k + 1
      ensures Refreshed(r.cores[j], x, tm1)
    {
      if j < k {
        StillCovered(n.cores[j], x.now, tm, delay);
        ShedOk(n.cores[j], r.cores[j], x, None);
        ShedRunning(n.cores[j], r.cores[j], x, tm1);
      }
    }
    forall j | 0 <= j < |r.cores| && k + 1 <= j
      ensures CoreOk(r.cores[j], x, start)
    {
      ShedOk(n.cores[j], r.cores[j], x, start);
    }
  }

  lemma ShedRunning(c: Core, d: Core, x: Setting, tm: Timer)
    requires Shed(c, d, x.air)
    ensures Running(d, x.now, tm) <==> Running(c, x.now, tm)
    ensures Ahead(d, x.now, tm) <==> Ahead(c, x.now, tm)
  {}

  /** Starting the waiting allocations of a task on its core. */
  lemma StartAdmitted(n: Node, k: nat, t: nat, x: Setting, adm: set<nat>)
    requires k < |n.cores| && Served(n, x.book, adm) && CoreOk(n.cores[k], x, Some(t)) && Apart(n, x.air)
    ensures var r := StartOn(n, k, x.now, t);
      && r.cores == n.cores[k := r.cores[k]] && r.dvfs == n.dvfs && r.failed == n.failed
      && Served(r, x.book, adm) && CoreOk(r.cores[k], x, None) && Apart(r, x.air)
  {
    var c, r := n.cores[k], StartOn(n, k, x.now, t);
    StartOk(c, x, t);
    forall j, u | 0 <= j < |n.cores| && OnCore(n.cores[j], u)
      ensures OnCore(r.cores[j], u)
    {
      if j == k {
        StartKeepsTasks(c, x.now, t, u);
      }
    }
    hide Affordable, Waiters, OnCore;
    ServedStays(n, r, x.book, adm);
  }

  lemma StartOk(c: Core, x: Setting, t: nat)
    requires CoreOk(c, x, Some(t))
    ensures CoreOk(c.(active := c.active + Starting(c.inFly, t, x.now), inFly := Drop(c.inFly, {t})), x, None)
  {
    hide Affordable, Waiters, Starting;
    var d := c.(active := c.active + Starting(c.inFly, t, x.now), inFly := Drop(c.inFly, {t}));
    WaitersStarting(c.inFly, t, x.now);
    var m := Due(c, Some(t));
    assert Due(d, None) == m;
    forall b | b in Starting(c.inFly, t, x.now)
      ensures Affordable(b, m, c.available, x.now)
      ensures b.task in x.book && b.deadline == x.book[b.task].deadline && b.task !in x.air
    {
      StartOne(c, x, t, b);
    }
    assert Parted(d, x.air, None);
  }

  lemma StartOne(c: Core, x: Setting, t: nat, b: Alloc)
    requires CoreOk(c, x, Some(t)) && b in Starting(c.inFly, t, x.now)
    ensures Affordable(b, Due(c, Some(t)), c.available, x.now)
    ensures b.task in x.book && b.deadline == x.book[b.task].deadline && b.task !in x.air
  {
    hide Affordable, Waiters;
    var a :| a in c.inFly && b == a.(since := x.now) && a.task == t;
    var m := Due(c, Some(t));
    IdleWork(a, x.now);
    StillAffordable(a, m, b, m, c.available, x.now);
  }

  lemma StartKeepsTasks(c: Core, now: real, t: nat, u: nat)
    requires OnCore(c, u)
    ensures OnCore(c.(active := c.active + Starting(c.inFly, t, now), inFly := Drop(c.inFly, {t})), u)
  {
    if exists a :: a in c.active && a.task == u {
      var a :| a in c.active && a.task == u;
      assert a in c.active + Starting(c.inFly, t, now);
    } else {
      var a :| a in c.inFly && a.task == u;
      if u == t {
        assert a.(since := now) in c.active + Starting(c.inFly, t, now);
      } else {
        assert a in Drop(c.inFly, {t});
      }
    }
  }

  // ---------- admission ----------

  /** All cores admitted and running; of the task at hand nothing runs. */
  predicate Waiting(n: Node, x: Setting, tm: Timer, t: Task) {
    forall k | 0 <= k < |n.cores| :: CoreWaiting(n.cores[k], x, tm, t)
  }

  predicate CoreWaiting(c: Core, x: Setting, tm: Timer, t: Task) {
    && CoreOk(c, x, Some(t.id)) && Running(c, x.now, tm)
    && (forall a :: a in c.active ==> a.task != t.id)
  }

  lemma WaitingApart(n: Node, x: Setting, tm: Timer, t: Task)
    requires Waiting(n, x, tm, t)
    ensures Apart(n, x.air)
  {
    hide Fits, Booked, Paced, Running;
    forall j | 0 <= j < |n.cores|
      ensures Parted(n.cores[j], x.air, Some(t.id))
    {}
  }

  lemma SweptWaiting(n: Node, k: nat, x: Setting, tm: Timer, adm: set<nat>, t: Task)
    requires k < |n.cores| && Waiting(n, x, tm, t) && Served(n, x.book, adm) && adm !! x.air
    ensures var r := Swept(n, k, x.now);
      && Waiting(r, x, tm, t) && Served(r, x.book, adm) && UpToDate(r.cores[k], x.now)
      && n.failed <= r.failed <= n.failed + x.air && (t.id in r.finished ==> t.id in n.finished)
  {
    hide CoreOk, Served, Swept, Running, Shed, UpToDate, Apart;
    var r := Swept(n, k, x.now);
    if t.id in r.finished && t.id !in n.finished {
      SweptFinishes(n, k, x.now, t.id);
    }
    WaitingApart(n, x, tm, t);
    SweptAdmitted(n, k, x, Some(t.id), adm);
    forall j | 0 <= j < |r.cores|
      ensures CoreWaiting(r.cores[j], x, tm, t)
    {
      if j == k {
        SweptRunning(n.cores[k], x.now, tm);
        ShedRunning(SweptCore(n.cores[k], x.now), r.cores[k], x, tm);
        SweptOthers(n.cores[k], r.cores[k], x, t.id);
      } else {
        ShedOk(n.cores[j], r.cores[j], x, Some(t.id));
        ShedRunning(n.cores[j], r.cores[j], x, tm);
        ShedActive(n.cores[j], r.cores[j], x.air);
      }
    }
  }

  lemma ShedActive(c: Core, d: Core, air: set<nat>)
    requires Shed(c, d, air)
    ensures d.active == c.active
  {}

  lemma SweptOthers(c: Core, d: Core, x: Setting, t: nat)
    requires Shed(SweptCore(c, x.now), d, x.air) && forall a :: a in c.active ==> a.task != t
    ensures forall b :: b in d.active ==> b.task != t
  {
    hide Updated, Waiters;
    forall b | b in d.active
      ensures b.task != t
    {
      SweptTask(c, x.now, b, t);
    }
  }

  lemma SweptTask(c: Core, now: real, b: Alloc, t: nat)
    requires b in SweptCore(c, now).active && forall a :: a in c.active ==> a.task != t
    ensures b.task != t
  {
    var i :| 0 <= i < |c.active| && UpdateAll(c.active, now)[i] == b;
    assert c.active[i] in c.active;
  }

  lemma {:induction false} PlaceFromAdmitted(n: Node, a: Alloc, k: nat, x: Setting, tm: Timer, adm: set<nat>, t: Task)
    requires k <= |n.cores| && Waiting(n, x, tm, t) && Served(n, x.book, adm) && adm !! x.air
    requires t.id !in n.failed && t.id !in x.air && x.now < t.deadline && t.id in x.book && x.book[t.id] == t
    requires a.task == t.id && a.deadline == t.deadline && a.perf == 0.0
    ensures var (r, ok) := PlaceFrom(n, a, x.now, k);
      && Waiting(r, x, tm, t) && Served(r, x.book, if ok then adm + {t.id} else adm)
      && n.failed <= r.failed <= n.failed + x.air && (t.id in r.finished ==> t.id in n.finished)
    decreases |n.cores| - k
  {
    hide Waiting, Served, Admits, Swept, PlaceFrom, UpToDate;
    PlaceFromIs(n, a, x.now, k);
    if k < |n.cores| {
      SweptWaiting(n, k, x, tm, adm, t);
      var n1 := Swept(n, k, x.now);
      if Admits(n1.cores[k], a, x.now) {
        PlaceHere(n1, a, k, x, tm, adm, t);
      } else {
        PlaceFromAdmitted(n1, a, k + 1, x, tm, adm, t);
      }
    }
  }

  lemma PlaceHere(n: Node, a: Alloc, k: nat, x: Setting, tm: Timer, adm: set<nat>, t: Task)
    requires k < |n.cores| && Waiting(n, x, tm, t) && Served(n, x.book, adm) && t.id !in n.failed
    requires x.now < t.deadline && t.id in x.book && x.book[t.id] == t && UpToDate(n.cores[k], x.now)
    requires a.task == t.id && a.deadline == t.deadline && a.perf == 0.0
    requires forall b :: b in n.cores[k].active + n.cores[k].inFly ==> x.now < b.deadline
    requires Admits(n.cores[k], a, x.now)
    ensures Waiting(Assign(n, k, a), x, tm, t) && Served(Assign(n, k, a), x.book, adm + {t.id})
  {
    hide CoreOk, Paid, Admits, UpToDate;
    var c := n.cores[k];
    var d := c.(inFly := c.inFly + [a]);
    var r := Assign(n, k, a);
    TestAdmits(c, a, x);
    assert CoreWaiting(d, x, tm, t);
    forall j, u | 0 <= j < |n.cores| && OnCore(n.cores[j], u)
      ensures OnCore(r.cores[j], u)
    {
      if j == k && !exists b :: b in c.active && b.task == u {
        var b :| b in c.inFly && b.task == u;
        assert b in d.inFly;
      }
    }
    ServedStays(n, r, x.book, adm);
    assert a in d.inFly && r.cores[k] in r.cores;
  }

  /** Without the task at hand a core is admitted as before. */
  lemma WithoutWaiting(c: Core, x: Setting, tm: Timer, t: Task)
    requires CoreWaiting(c, x, tm, t)
    ensures CoreInv(Without(c, {t.id}), x, tm) && !OnCore(Without(c, {t.id}), t.id)
  {
    hide Affordable, Paid, Waiters;
    var d := Without(c, {t.id});
    DropNone(c.active, {t.id});
    forall a | a in d.active
      ensures Affordable(a, Due(d, None), d.available, x.now)
    {
      FewerAffordable(a, Due(c, Some(t.id)), Due(d, None), c.available, x.now);
    }
  }

  lemma WithdrawAdmitted(n: Node, x: Setting, tm: Timer, adm: set<nat>, t: Task)
    requires Waiting(n, x, tm, t) && Served(n, x.book, adm) && t.id !in adm
    ensures var r := Withdraw(n, t.id); AllInv(r, x, tm) && Served(r, x.book, adm) && Absent(r.cores, t.id)
  {
    hide CoreOk, Running, OnCore;
    var r := Withdraw(n, t.id);
    forall k | 0 <= k < |n.cores|
      ensures CoreInv(r.cores[k], x, tm) && !OnCore(r.cores[k], t.id)
    {
      WithoutWaiting(n.cores[k], x, tm, t);
    }
    forall k, u | 0 <= k < |n.cores| && u in adm && OnCore(n.cores[k], u)
      ensures OnCore(r.cores[k], u)
    {
      WithoutOthers(n.cores[k], t.id, u);
    }
    ServedStays(n, r, x.book, adm);
  }

  lemma WithoutOthers(c: Core, t: nat, u: nat)
    requires OnCore(c, u) && u != t
    ensures OnCore(Without(c, {t}), u)
  {}

  lemma {:induction false} PlaceAllocsAdmitted(n: Node, t: Task, i: nat, x: Setting, tm: Timer, adm: set<nat>)
    requires i <= |t.loads| && Waiting(n, x, tm, t) && t.id !in n.failed && t.id !in adm && adm !! x.air
    requires Served(n, x.book, if i > 0 then adm + {t.id} else adm)
    requires t.id !in x.air && x.now < t.deadline && t.id in x.book && x.book[t.id] == t && |t.loads| > 0
    ensures var (r, ok) := PlaceAllocs(n, t, x.now, i);
      && (if ok then Waiting(r, x, tm, t) else AllInv(r, x, tm) && Absent(r.cores, t.id))
      && Served(r, x.book, if ok then adm + {t.id} else adm)
      && n.failed <= r.failed <= n.failed + x.air && (t.id in r.finished ==> t.id in n.finished)
    decreases |t.loads| - i
  {
    hide Waiting, Served, PlaceFrom, AllInv, Absent;
    if i < |t.loads| {
      var adm1 := if i > 0 then adm + {t.id} else adm;
      PlaceFromAdmitted(n, Fresh(t, i), 0, x, tm, adm1, t);
      var (n1, ok) := PlaceFrom(n, Fresh(t, i), x.now, 0);
      if ok {
        assert adm1 + {t.id} == adm + {t.id};
        PlaceAllocsAdmitted(n1, t, i + 1, x, tm, adm);
      } else {
        ServedLess(n1, x.book, adm1, adm);
        WithdrawAdmitted(n1, x, tm, adm, t);
      }
    }
  }

  lemma ServedLess(n: Node, book: map<nat, Task>, more: set<nat>, adm: set<nat>)
    requires Served(n, book, more) && adm <= more
    ensures Served(n, book, adm)
  {}

  // ---------- whole runs ----------

  predicate CoreInv(c: Core, x: Setting, tm: Timer) {
    CoreOk(c, x, None) && Running(c, x.now, tm)
  }

  predicate AllInv(n: Node, x: Setting, tm: Timer) {
    forall k | 0 <= k < |n.cores| :: CoreInv(n.cores[k], x, tm)
  }

  function At(s: Sys, calm: bool): Setting {
    Setting(s.now, s.known, s.flying, calm)
  }

  /** The tasks that were started, but for those that had failed before. */
  function Alive(s: Sys, late: set<nat>): set<nat> {
    s.admitted - late
  }

  predicate Inv(s: Sys, late: set<nat>, calm: bool) {
    && AllInv(s.node, At(s, calm), s.timer)
    && Served(s.node, s.known, Alive(s, late))
    && Timers.TimerOk(s.timer, s.now)
    && s.admitted <= s.known.Keys && s.node.failed <= s.known.Keys && s.flying <= s.known.Keys
    && late <= s.known.Keys && s.admitted !! s.flying && (calm ==> s.flying == {})
  }

  /** Tasks are placed when they arrive, not when they are dispatched. */
  predicate ArrivalOnly(run: seq<Event>) {
    forall e :: e in run ==> !e.Dispatch?
  }

  /**
   There is room for travelling task t where it was placed: on a core that waits for it, what runs
   and what is to start of it is still affordable, all of it together.
   */
  predicate Room(c: Core, t: nat, now: real) {
    Waiters(c.inFly, t) > 0 ==>
      && (forall a :: a in c.active ==> Affordable(a, Due(c, Some(t)), c.available, now))
      && (forall a :: a in c.inFly && a.task == t ==>
            now < a.deadline && Affordable(a, Due(c, Some(t)), c.available, now))
  }

  /**
   What a provider could check beforehand: there is room for a travelling task that arrives and has not
   failed, and what runs on a core can spare what hosting takes of it.
   */
  predicate Timely(s: Sys, e: Event) {
    match e
    case Arrive(t, _, fits) =>
      t.id in s.flying && fits && t.id !in s.node.failed ==>
        forall k | 0 <= k < |s.node.cores| :: Room(s.node.cores[k], t.id, s.now)
    case Resize(k, mips) => k < |s.node.cores| ==> Spare(s.node.cores[k], mips, s.now)
    case _ => true
  }

  /** Hosting leaves the core at least the rate it runs at. */
  predicate Gentle(s: Sys, e: Event) {
    e.Resize? && e.k < |s.node.cores| ==> s.node.cores[e.k].current <= e.mips
  }

  predicate AllGentle(s: Sys, run: seq<Event>)
    requires Valid(s, run)
    decreases |run|
  {
    run == [] || (Gentle(s, run[0]) && AllGentle(Step(s, run[0]), run[1..]))
  }

  /** The available rates stay as they are. */
  predicate Steady(run: seq<Event>) {
    forall e :: e in run ==> !e.Resize?
  }

  predicate AllTimely(s: Sys, run: seq<Event>)
    requires Valid(s, run)
    decreases |run|
  {
    run == [] || (Timely(s, run[0]) && AllTimely(Step(s, run[0]), run[1..]))
  }

  lemma AdvanceAlloc(a: Alloc, now: real, tm: Timer, dt: real, load: nat, available: real)
    requires Paid(a, now, tm) && Affordable(a, load, available, now) && available >= 0.0
    requires dt >= 0.0 && now + dt <= tm.pending.value
    ensures Paid(a, now + dt, tm) && Affordable(a, load, available, now + dt)
  {
    var p := tm.pending.value;
    LeftSplit(a, now, now + dt);
    LeftSplit(a, now + dt, p);
    Scale(0.0, p - (now + dt), a.perf);
    RateNeverRises(Left(a, now), a.perf, a.deadline - now, dt, available, load as real);
  }

  lemma AdvanceCore(c: Core, x: Setting, tm: Timer, dt: real)
    requires CoreInv(c, x, tm) && dt >= 0.0
    requires tm.pending.Some? ==> x.now + dt <= tm.pending.value
    ensures CoreInv(c, x.(now := x.now + dt), tm)
  {
    hide Affordable, Left, Covers;
    forall a | a in c.active
      ensures Paid(a, x.now + dt, tm) && Affordable(a, Due(c, None), c.available, x.now + dt)
    {
      AdvanceAlloc(a, x.now, tm, dt, Due(c, None), c.available);
    }
  }

  lemma StepAdvance(s: Sys, dt: real, calm: bool, late: set<nat>)
    requires Inv(s, late, calm) && Enabled(s, Advance(dt))
    ensures Inv(Step(s, Advance(dt)), late, calm)
  {
    hide CoreInv, Served;
    forall k | 0 <= k < |s.node.cores|
      ensures CoreInv(s.node.cores[k], At(s, calm).(now := s.now + dt), s.timer)
    {
      AdvanceCore(s.node.cores[k], At(s, calm), s.timer, dt);
    }
  }

  lemma StepFire(s: Sys, calm: bool, late: set<nat>)
    requires Inv(s, late, calm) && Enabled(s, Fire)
    ensures Inv(Step(s, Fire), late, calm)
  {
    hide CoreOk, Served, Paid, RunCores;
    RunCoresAdmitted(s.node, s.timer.(pending := None), 0, At(s, calm), None, Alive(s, late));
  }

  /** The setting in which task t is being placed. */
  function With(x: Setting, t: Task): Setting {
    x.(book := x.book[t.id := t])
  }

  lemma CoreEnter(c: Core, x: Setting, tm: Timer, t: Task)
    requires CoreInv(c, x, tm) && t.id !in x.book && x.air <= x.book.Keys
    ensures CoreWaiting(c, With(x, t), tm, t)
  {
    hide Affordable, Paid;
    assert Waiters(c.inFly, t.id) == 0;
  }

  /** A task not seen before can be entered in the book. */
  lemma Enter(s: Sys, t: Task, calm: bool, late: set<nat>)
    requires Inv(s, late, calm) && t.id !in s.known
    ensures Waiting(s.node, With(At(s, calm), t), s.timer, t)
    ensures Served(s.node, s.known[t.id := t], Alive(s, late))
    ensures AllInv(s.node, With(At(s, calm), t), s.timer) && Absent(s.node.cores, t.id)
  {
    hide CoreInv, CoreWaiting;
    forall k | 0 <= k < |s.node.cores|
      ensures CoreWaiting(s.node.cores[k], With(At(s, calm), t), s.timer, t)
      ensures CoreInv(s.node.cores[k], With(At(s, calm), t), s.timer) && !OnCore(s.node.cores[k], t.id)
    {
      CoreEnter(s.node.cores[k], At(s, calm), s.timer, t);
      Stranger(s.node.cores[k], At(s, calm), s.timer, t);
    }
  }

  lemma Stranger(c: Core, x: Setting, tm: Timer, t: Task)
    requires CoreInv(c, x, tm) && t.id !in x.book
    ensures CoreInv(c, With(x, t), tm) && !OnCore(c, t.id)
  {
    hide Affordable, Paid;
  }

  lemma CoreLeave(c: Core, x: Setting, tm: Timer, t: Task)
    requires CoreInv(c, With(x, t), tm) && t.id !in x.book && !OnCore(c, t.id)
    ensures CoreInv(c, x, tm)
  {
    hide Affordable, Paid;
  }

  /** And be left out again while no core knows it. */
  lemma Leave(n: Node, x: Setting, tm: Timer, adm: set<nat>, t: Task)
    requires t.id !in x.book && AllInv(n, With(x, t), tm) && Absent(n.cores, t.id)
    requires Served(n, With(x, t).book, adm) && t.id !in n.finished
    ensures Served(n, x.book, adm) && AllInv(n, x, tm)
  {
    hide CoreInv, OnCore;
    forall k | 0 <= k < |n.cores|
      ensures CoreInv(n.cores[k], x, tm)
    {
      assert n.cores[k] in n.cores;
      CoreLeave(n.cores[k], x, tm, t);
    }
  }

  lemma TryAdmitted(s: Sys, t: Task, fits: bool, calm: bool, late: set<nat>)
    requires Inv(s, late, calm) && IsNew(s, t)
    ensures var (r, ok) := TrySchedule(s.node, t, s.now, fits);
      var x := With(At(s, calm), t);
      && (if ok then Waiting(r, x, s.timer, t) else AllInv(r, x, s.timer) && Absent(r.cores, t.id))
      && Served(r, x.book, if ok then Alive(s, late) + {t.id} else Alive(s, late))
      && r.failed <= s.known.Keys && t.id !in r.finished
  {
    hide AllInv, Waiting, PlaceAllocs, Absent;
    Enter(s, t, calm, late);
    if fits {
      PlaceAllocsAdmitted(s.node, t, 0, With(At(s, calm), t), s.timer, Alive(s, late));
    }
  }

  lemma StepTest(s: Sys, t: Task, fits: bool, calm: bool, late: set<nat>)
    requires Inv(s, late, calm) && Enabled(s, Test(t, fits))
    ensures Inv(Step(s, Test(t, fits)), late, calm)
  {
    hide AllInv, Waiting, Served, TrySchedule, Absent;
    TryAdmitted(s, t, fits, calm, late);
    var (n1, ok) := TrySchedule(s.node, t, s.now, fits);
    var x := At(s, calm);
    if ok {
      ServedLess(n1, With(x, t).book, Alive(s, late) + {t.id}, Alive(s, late));
      WithdrawAdmitted(n1, With(x, t), s.timer, Alive(s, late), t);
    }
    Leave(Probe(s.node, t, s.now, fits).0, x, s.timer, Alive(s, late), t);
  }

  lemma CoreFlies(c: Core, x: Setting, tm: Timer, t: Task)
    requires CoreWaiting(c, x, tm, t) && !x.calm
    ensures CoreInv(c, x.(air := x.air + {t.id}), tm)
  {
    hide Affordable, Paid, Waiters;
    forall a | a in c.active
      ensures Affordable(a, Due(c, None), c.available, x.now)
    {
      FewerAffordable(a, Due(c, Some(t.id)), Due(c, None), c.available, x.now);
    }
  }

  lemma StepDispatch(s: Sys, t: Task, fits: bool, late: set<nat>)
    requires Inv(s, late, false) && Enabled(s, Dispatch(t, fits))
    ensures Inv(Step(s, Dispatch(t, fits)), late, false)
  {
    hide CoreInv, CoreWaiting, Served, TrySchedule, Absent;
    TryAdmitted(s, t, fits, false, late);
    var (n1, ok) := TrySchedule(s.node, t, s.now, fits);
    var x := At(s, false);
    if ok {
      forall k | 0 <= k < |n1.cores|
        ensures CoreInv(n1.cores[k], At(Step(s, Dispatch(t, fits)), false), s.timer)
      {
        CoreFlies(n1.cores[k], With(x, t), s.timer, t);
      }
      ServedLess(n1, With(x, t).book, Alive(s, late) + {t.id}, Alive(s, late));
    } else {
      Leave(n1, x, s.timer, Alive(s, late), t);
    }
  }

  lemma CoreResized(c: Core, x: Setting, tm: Timer, mips: real)
    requires CoreInv(c, x, tm) && mips >= 0.0 && Spare(c, mips, x.now) && (x.calm ==> c.current <= mips)
    ensures CoreInv(c.(available := mips), x, tm)
  {
    hide Affordable, Paid;
    assert Due(c, None) == |c.active|;
  }

  /** Work goes on at the rates it has; only what is available to it is another rate. */
  lemma StepResize(s: Sys, k: nat, mips: real, calm: bool, late: set<nat>)
    requires Inv(s, late, calm) && Enabled(s, Resize(k, mips)) && Timely(s, Resize(k, mips))
    requires calm ==> Gentle(s, Resize(k, mips))
    ensures Inv(Step(s, Resize(k, mips)), late, calm)
  {
    hide CoreInv, Served, Spare, OnCore;
    var n, r := s.node, Resized(s.node, k, mips);
    CoreResized(n.cores[k], At(s, calm), s.timer, mips);
    forall j, u | 0 <= j < |n.cores| && OnCore(n.cores[j], u)
      ensures OnCore(r.cores[j], u)
    {
      ResizedHas(n.cores[j], mips, u);
    }
    ServedStays(n, r, s.known, Alive(s, late));
  }

  lemma ResizedHas(c: Core, mips: real, t: nat)
    ensures OnCore(c.(available := mips), t) <==> OnCore(c, t)
  {}

  // ---------- arrival ----------

  lemma WaitingHalfway(n: Node, x: Setting, tm: Timer, t: Task)
    requires Waiting(n, x, tm, t) && Timers.TimerOk(tm, x.now)
    ensures Halfway(n, 0, x, tm, Some(t.id))
  {
    hide CoreOk, Running;
  }

  lemma RefreshedInv(n: Node, x: Setting, tm: Timer)
    requires forall k | 0 <= k < |n.cores| :: Refreshed(n.cores[k], x, tm)
    ensures AllInv(n, x, tm)
  {
    hide CoreOk, Running;
  }

  /** The task at hand is reserved for and started on every core. */
  lemma Started(n: Node, x: Setting, tm: Timer, t: Task, adm: set<nat>)
    requires Halfway(n, 0, x, tm, Some(t.id)) && Served(n, x.book, adm) && adm !! x.air
    ensures var (r, tm1) := RunCores(n.(holding := n.holding + {t.id}), tm, 0, x.now, Some(t.id));
      && AllInv(r, x, tm1) && Served(r, x.book, adm) && Timers.TimerOk(tm1, x.now)
      && r.failed <= n.failed + x.air
  {
    hide Refreshed, Served, RunCores, CoreOk;
    var m := n.(holding := n.holding + {t.id});
    HoldingOnly(n, m, x.book, adm);
    RunCoresAdmitted(m, tm, 0, x, Some(t.id), adm);
    RefreshedInv(RunCores(m, tm, 0, x.now, Some(t.id)).0, x, RunCores(m, tm, 0, x.now, Some(t.id)).1);
  }

  lemma HoldingOnly(n: Node, m: Node, book: map<nat, Task>, adm: set<nat>)
    requires Served(n, book, adm) && m == n.(holding := m.holding)
    ensures Served(m, book, adm)
  {}

  /** Failing a task is withdrawing it and counting it. */
  lemma FailIsWithdraw(n: Node, t: nat)
    ensures var r, w := FailAll(n, {t}), Withdraw(n, t);
      r.cores == w.cores && r.finished == n.finished && r.failed == n.failed + {t}
      && w.finished == n.finished && w.failed == n.failed
  {}

  lemma ServedFailed(n: Node, m: Node, book: map<nat, Task>, adm: set<nat>, t: nat)
    requires Served(n, book, adm) && t !in adm
    requires m.cores == n.cores && m.finished == n.finished && m.failed <= n.failed + {t}
    ensures Served(m, book, adm)
  {}

  /** A task that is placed when it arrives. */
  lemma StepArrive(s: Sys, t: Task, fitsProbe: bool, fits: bool, calm: bool, late: set<nat>)
    requires Inv(s, late, calm) && IsNew(s, t)
    ensures Inv(Step(s, Arrive(t, fitsProbe, fits)), late, calm)
  {
    hide AllInv, Waiting, Halfway, Served, TrySchedule, RunCores, FailAll, Withdraw, Absent;
    TryAdmitted(s, t, fitsProbe, calm, late);
    var (n1, ok) := TrySchedule(s.node, t, s.now, fitsProbe);
    var x := With(At(s, calm), t);
    if ok && fits {
      WaitingHalfway(n1, x, s.timer, t);
      Started(n1, x, s.timer, t, Alive(s, late) + {t.id});
      assert Alive(s, late) + {t.id} == s.admitted + {t.id} - late;
    } else {
      FailedHere(n1, x, s.timer, Alive(s, late), t, ok);
    }
    ArriveNew(s, t, fitsProbe, fits, calm);
  }

  lemma FailedHere(n: Node, x: Setting, tm: Timer, adm: set<nat>, t: Task, ok: bool)
    requires if ok then Waiting(n, x, tm, t) else AllInv(n, x, tm) && Absent(n.cores, t.id)
    requires Served(n, x.book, if ok then adm + {t.id} else adm) && t.id !in adm
    ensures var r := FailAll(n, {t.id}); AllInv(r, x, tm) && Served(r, x.book, adm) && r.failed == n.failed + {t.id}
  {
    hide CoreInv, CoreWaiting, OnCore, FailAll, Withdraw;
    ServedLess(n, x.book, if ok then adm + {t.id} else adm, adm);
    FailIsWithdraw(n, t.id);
    var w := Withdraw(n, t.id);
    if ok {
      WithdrawAdmitted(n, x, tm, adm, t);
    } else {
      WithdrawNobody(n, t.id);
    }
    ServedFailed(w, FailAll(n, {t.id}), x.book, adm, t.id);
  }

  lemma WithdrawNobody(n: Node, t: nat)
    requires Absent(n.cores, t)
    ensures Withdraw(n, t) == n
  {
    forall k | 0 <= k < |n.cores|
      ensures Withdraw(n, t).cores[k] == n.cores[k]
    {
      assert n.cores[k] in n.cores;
      DropNone(n.cores[k].active, {t});
      DropNone(n.cores[k].inFly, {t});
    }
    assert Withdraw(n, t).cores == n.cores;
  }

  /** What the arrival of a new task does, in terms of Started and FailAll. */
  lemma ArriveNew(s: Sys, t: Task, fitsProbe: bool, fits: bool, calm: bool)
    requires IsNew(s, t)
    requires s.flying <= s.known.Keys
    ensures var s1 := Step(s, Arrive(t, fitsProbe, fits));
      var (n1, ok) := TrySchedule(s.node, t, s.now, fitsProbe);
      && At(s1, calm) == With(At(s, calm), t)
      && (s1.node, s1.timer)
        == (if ok && fits then RunCores(n1.(holding := n1.holding + {t.id}), s.timer, 0, s.now, Some(t.id))
                                 else (FailAll(n1, {t.id}), s.timer))
      && s1.admitted == if ok && fits then s.admitted + {t.id} else s.admitted
  {
    hide RunCores, TrySchedule, FailAll;
    assert s.flying - {t.id} == s.flying;
  }

  /** The core when travelling task t has arrived. */
  lemma CoreLands(c: Core, x: Setting, tm: Timer, t: nat)
    requires CoreInv(c, x, tm) && Room(c, t, x.now) && !x.calm && t in x.air
    ensures CoreOk(c, x.(air := x.air - {t}), Some(t))
  {
    hide Affordable, Running;
    if Waiters(c.inFly, t) == 0 {
      assert Due(c, Some(t)) == Due(c, None);
    }
  }

  /** The core when travelling task t has failed. */
  lemma CoreCrashes(c: Core, x: Setting, tm: Timer, t: nat)
    requires CoreInv(c, x, tm) && !x.calm && t in x.air
    ensures CoreInv(Without(c, {t}), x.(air := x.air - {t}), tm)
  {
    hide *;
    CoreParts(c, x, tm);
    DropNone(c.active, {t});
    CoreWithout(c, Without(c, {t}), x, tm, t);
  }

  lemma CoreParts(c: Core, x: Setting, tm: Timer)
    requires CoreInv(c, x, tm)
    ensures forall t, a :: t in x.air && a in c.active ==> a.task !in {t}
  {
    hide Fits, Booked, Paced, Running;
  }

  lemma CoreWithout(c: Core, d: Core, x: Setting, tm: Timer, t: nat)
    requires CoreInv(c, x, tm) && !x.calm && d == Without(c, {t}) && Drop(c.active, {t}) == c.active
    ensures CoreInv(d, x.(air := x.air - {t}), tm)
  {
    hide Affordable, Paid, Waiters;
    assert d.active == c.active && Due(d, None) == Due(c, None);
  }

  /** A task that was placed when it was dispatched. */
  lemma StepLand(s: Sys, t: Task, fitsProbe: bool, fits: bool, late: set<nat>, rejected: nat)
    requires Inv(s, late, false) && Endings.Inv(s, late, rejected) && t.id in s.flying
    requires Enabled(s, Arrive(t, fitsProbe, fits)) && Timely(s, Arrive(t, fitsProbe, fits))
    ensures var e := Arrive(t, fitsProbe, fits); Inv(Step(s, e), late + Endings.LateNow(s, e), false)
  {
    hide CoreInv, Served, RunCores, FailAll, CoreOk, Room, Endings.Inv;
    var x, adm := At(s, false).(air := s.flying - {t.id}), Alive(s, late);
    ArriveFlying(s, t, fitsProbe, fits);
    if fits {
      if t.id in s.node.failed {
        WaitsNowhere(s, t.id, late, rejected);
      } else {
        StillPresent(s, t.id, late, rejected);
        ServedMore(s.node, s.known, adm, t.id);
        adm := adm + {t.id};
      }
      forall k | 0 <= k < |s.node.cores|
        ensures CoreOk(s.node.cores[k], x, Some(t.id))
      {
        CoreLands(s.node.cores[k], At(s, false), s.timer, t.id);
      }
      Started(s.node, x, s.timer, t, adm);
      StillAlive(s, t.id, late, rejected);
      assert adm == s.admitted + {t.id} - (late + Endings.LateNow(s, Arrive(t, fitsProbe, fits)));
    } else {
      Crashed(s, t, late);
      assert late + Endings.LateNow(s, Arrive(t, fitsProbe, fits)) == late;
    }
  }

  /** A task that has failed on the way waits on no core any more, so there is room for what is left of it. */
  lemma WaitsNowhere(s: Sys, t: nat, late: set<nat>, rejected: nat)
    requires Endings.Inv(s, late, rejected) && t in s.node.failed
    ensures forall k | 0 <= k < |s.node.cores| :: Room(s.node.cores[k], t, s.now)
  {
    Endings.PresentIsNotAbsent(s.node, t);
    assert Absent(s.node.cores, t) by { hide Absent, Endings.Active, Endings.Waits; }
    forall k | 0 <= k < |s.node.cores|
      ensures Room(s.node.cores[k], t, s.now)
    {
      assert s.node.cores[k] in s.node.cores && Waiters(s.node.cores[k].inFly, t) == 0;
    }
  }

  /** What is still travelling has not been started, and what was started late had failed. */
  lemma StillAlive(s: Sys, t: nat, late: set<nat>, rejected: nat)
    requires Inv(s, late, false) && Endings.Inv(s, late, rejected) && t in s.flying
    ensures t !in s.admitted && (t !in s.node.failed ==> t !in late)
  {
    hide CoreInv, Served;
  }

  lemma StillPresent(s: Sys, t: nat, late: set<nat>, rejected: nat)
    requires Endings.Inv(s, late, rejected) && t in s.flying && t !in s.node.failed
    ensures !Absent(s.node.cores, t)
  {
    hide Absent, Endings.Active, Endings.Waits;
    Endings.PresentIsNotAbsent(s.node, t);
  }

  lemma ServedMore(n: Node, book: map<nat, Task>, adm: set<nat>, t: nat)
    requires Served(n, book, adm) && !Absent(n.cores, t) && t !in n.failed
    ensures Served(n, book, adm + {t})
  {
    hide Absent;
  }

  lemma Crashed(s: Sys, t: Task, late: set<nat>)
    requires Inv(s, late, false) && t.id in s.flying
    ensures var r, x := FailAll(s.node, {t.id}), At(s, false).(air := s.flying - {t.id});
      AllInv(r, x, s.timer) && Served(r, s.known, Alive(s, late)) && r.failed == s.node.failed + {t.id}
  {
    hide CoreInv, Served, OnCore;
    var n := s.node;
    var w := Withdraw(n, t.id);
    forall k | 0 <= k < |n.cores|
      ensures CoreInv(w.cores[k], At(s, false).(air := s.flying - {t.id}), s.timer)
    {
      CoreCrashes(n.cores[k], At(s, false), s.timer, t.id);
    }
    forall k, u | 0 <= k < |n.cores| && u in Alive(s, late) && OnCore(n.cores[k], u)
      ensures OnCore(w.cores[k], u)
    {
      WithoutOthers(n.cores[k], t.id, u);
    }
    ServedStays(n, w, s.known, Alive(s, late));
    FailIsWithdraw(n, t.id);
    ServedFailed(w, FailAll(n, {t.id}), s.known, Alive(s, late), t.id);
  }

  lemma ArriveFlying(s: Sys, t: Task, fitsProbe: bool, fits: bool)
    requires t.id in s.flying && Enabled(s, Arrive(t, fitsProbe, fits)) && s.flying <= s.known.Keys
    ensures var s1 := Step(s, Arrive(t, fitsProbe, fits));
      && At(s1, false) == At(s, false).(air := s.flying - {t.id}) && s1.known == s.known
      && (s1.node, s1.timer)
        == (if fits then RunCores(s.node.(holding := s.node.holding + {t.id}), s.timer, 0, s.now, Some(t.id))
                                 else (FailAll(s.node, {t.id}), s.timer))
      && s1.admitted == if fits then s.admitted + {t.id} else s.admitted
  {
    hide RunCores, FailAll;
    assert s.known[t.id := t] == s.known;
  }

  lemma {:induction false} RunKeepsInv(s: Sys, run: seq<Event>, calm: bool, late: set<nat>, rejected: nat)
    requires Inv(s, late, calm) && Endings.Inv(s, late, rejected) && Valid(s, run) && AllTimely(s, run)
    requires calm ==> ArrivalOnly(run) && AllGentle(s, run)
    ensures Inv(Run(s, run), late + Endings.Late(s, run), calm)
    decreases |run|
  {
    hide Inv, Step, Endings.Inv, Endings.LateNow;
    if run != [] {
      var e := run[0];
      assert e in run;
      StepKeepsInv(s, e, calm, late, rejected);
      Endings.StepSound(s, e, late, rejected);
      var more := late + Endings.LateNow(s, e);
      RunKeepsInv(Step(s, e), run[1..], calm, more, rejected + Endings.RejectedNow(s, e));
      assert more + Endings.Late(Step(s, e), run[1..]) == late + Endings.Late(s, run);
    } else {
      assert late + {} == late;
    }
  }

  lemma StepKeepsInv(s: Sys, e: Event, calm: bool, late: set<nat>, rejected: nat)
    requires Inv(s, late, calm) && Endings.Inv(s, late, rejected) && Enabled(s, e) && Timely(s, e)
    requires calm ==> !e.Dispatch? && Gentle(s, e)
    ensures Inv(Step(s, e), late + Endings.LateNow(s, e), calm)
  {
    CalmFliesNothing(s, calm, late);
    NewIsNotLate(s, e, calm, late);
    hide Inv, Step, Endings.Inv, Endings.LateNow;
    assert late + {} == late;
    match e {
      case Advance(dt) => StepAdvance(s, dt, calm, late);
      case Fire => StepFire(s, calm, late);
      case Test(t, f) => StepTest(s, t, f, calm, late);
      case Dispatch(t, f) => StepDispatch(s, t, f, late);
      case Resize(k, mips) => StepResize(s, k, mips, calm, late);
      case Arrive(t, f, g) =>
        if t.id in s.flying {
          StepLand(s, t, f, g, late, rejected);
        } else {
          StepArrive(s, t, f, g, calm, late);
        }
    }
  }

  lemma NewIsNotLate(s: Sys, e: Event, calm: bool, late: set<nat>)
    requires Inv(s, late, calm) && Enabled(s, e)
    ensures !(e.Arrive? && e.task.id in s.flying) ==> Endings.LateNow(s, e) == {}
  {
    hide AllInv, Served;
  }

  lemma CalmFliesNothing(s: Sys, calm: bool, late: set<nat>)
    requires Inv(s, late, calm)
    ensures calm ==> s.flying == {}
  {}

  lemma InitialInv(s: Sys)
    requires Initial(s)
    ensures Inv(s, {}, true) && Inv(s, {}, false)
  {
    forall k | 0 <= k < |s.node.cores|
      ensures CoreInv(s.node.cores[k], At(s, true), s.timer) && CoreInv(s.node.cores[k], At(s, false), s.timer)
    {
      assert s.node.cores[k] in s.node.cores;
    }
  }

  /** An allocation that runs fast enough is done, and the timer fires, by its deadline. */
  lemma PaidByDeadline(a: Alloc, now: real, tm: Timer)
    requires Paid(a, now, tm)
    ensures tm.pending.value <= a.deadline
  {
    var p := tm.pending.value;
    LeftSplit(a, now, p);
    Cancel(p - now, a.deadline - now, a.perf);
  }

  /** Task t has met its deadline, or its deadline and an event that comes no later are still ahead. */
  predicate OnTime(s: Sys, t: nat) {
    && t in s.known && t !in s.node.failed
    && if t in s.node.finished then s.node.finished[t] <= s.known[t].deadline
       else s.now <= s.known[t].deadline
            && s.timer.pending.Some? && s.now <= s.timer.pending.value <= s.known[t].deadline
  }

  lemma InvOnTime(s: Sys, t: nat, late: set<nat>)
    requires Inv(s, late, false) && t in s.admitted && t !in late
    ensures OnTime(s, t)
  {
    hide Fits, Covers, Left, Paced;
    if t !in s.node.finished {
      var c :| c in s.node.cores && OnCore(c, t);
      var k :| 0 <= k < |s.node.cores| && s.node.cores[k] == c;
      assert CoreInv(c, At(s, false), s.timer);
      var a :| a in c.active && a.task == t;
      PaidByDeadline(a, s.now, s.timer);
    }
  }

  /**
   The deadline guarantee.  In every run, with DVFS or without, if each task that was placed when it
   was dispatched, and has not failed on the way, finds room where it arrives, and hosting takes no
   rate that the tasks cannot spare, then no task that was started ever fails, unless it had failed
   before: it is finished by its deadline, or its deadline and an event that comes no later are still
   ahead.  Tasks that fail on the way do the others no harm, whether they are then turned away or
   started all the same.
   */
  lemma TravelGuarantee(s0: Sys, run: seq<Event>, t: nat)
    requires Initial(s0) && Valid(s0, run) && AllTimely(s0, run)
    requires t in Run(s0, run).admitted && t !in Endings.Late(s0, run)
    ensures OnTime(Run(s0, run), t)
  {
    InitialInv(s0);
    Endings.InitialInv(s0);
    hide Inv, Endings.Inv, Initial, OnTime;
    RunKeepsInv(s0, run, false, {}, 0);
    assert {} + Endings.Late(s0, run) == Endings.Late(s0, run);
    InvOnTime(Run(s0, run), t, Endings.Late(s0, run));
  }

  /** Where nothing travels nothing fails on the way. */
  lemma {:induction false} NobodyTravels(s: Sys, run: seq<Event>, late: set<nat>, rejected: nat)
    requires Endings.Inv(s, late, rejected) && Valid(s, run) && ArrivalOnly(run) && Steady(run) && s.flying == {}
    ensures AllTimely(s, run) && AllGentle(s, run) && Endings.Late(s, run) == {}
    decreases |run|
  {
    if run != [] {
      var e := run[0];
      assert e in run;
      StaysHome(s, e, late, rejected);
      Endings.StepSound(s, e, late, rejected);
      hide Step, Endings.Inv;
      NobodyTravels(Step(s, e), run[1..], late + Endings.LateNow(s, e), rejected + Endings.RejectedNow(s, e));
    }
  }

  lemma StaysHome(s: Sys, e: Event, late: set<nat>, rejected: nat)
    requires Endings.Inv(s, late, rejected) && Enabled(s, e) && s.flying == {} && !e.Dispatch?
    ensures Step(s, e).flying == {} && Endings.LateNow(s, e) == {}
  {
    hide Endings.Ledger, Endings.Accounted;
  }

  /** So where tasks are placed on arrival, and nothing is hosted meanwhile, passing the admission test is enough. */
  lemma DeadlineGuarantee(s0: Sys, run: seq<Event>, t: nat)
    requires Initial(s0) && Valid(s0, run) && ArrivalOnly(run) && Steady(run)
    requires t in Run(s0, run).admitted
    ensures OnTime(Run(s0, run), t)
  {
    Endings.InitialInv(s0);
    NobodyTravels(s0, run, {}, 0);
    TravelGuarantee(s0, run, t);
  }
}
