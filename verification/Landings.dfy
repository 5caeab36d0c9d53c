/** A travelling task that arrives where nothing else runs: exactly when it meets its deadline. */
module Landings {
  import opened Common
  import opened Arithmetic
  import opened Scheduling
  import opened Simulation
  import opened AllocLists
  import opened WorkAccounting

  /** Core k is there, and nothing runs or waits on any other core. */
  predicate Bare(n: Node, k: nat) {
    k < |n.cores| && forall j | 0 <= j < |n.cores| && j != k :: n.cores[j].active == n.cores[j].inFly == []
  }

  /** On core k waits the only allocation of task t; nothing else runs or waits anywhere, and no event is queued. */
  predicate WaitsAlone(s: Sys, k: nat, t: Task) {
    && Bare(s.node, k) && s.node.cores[k].active == [] && s.node.cores[k].available > 0.0
    && |t.loads| == 1 && t.loads[0] >= 0.0
    && s.node.cores[k].inFly == [Fresh(t, 0)]
    && t.id in s.flying && t.id in s.known && s.known[t.id] == t && t.id !in s.node.finished
    && s.timer.pending == None && (s.timer.eventTime.Some? ==> s.timer.eventTime.value <= s.now)
  }

  /** n with these lists and this rate on core k. */
  function Lone(n: Node, k: nat, active: seq<Alloc>, current: real): (r: Node)
    requires Bare(n, k)
    ensures Bare(r, k)
  {
    n.(cores := n.cores[k := Core(n.cores[k].available, active, [], current)])
  }

  function Work(t: Task, mips: real, perf: real, since: real): Alloc {
    Alloc(t.id, 0, t.deadline, mips, perf, since)
  }

  /** The rate a task gets that runs alone. */
  function LoneRate(n: Node, k: nat, t: Task, load: real, now: real): real
    requires Bare(n, k) && now < t.deadline
  {
    if n.dvfs then Min(load / (t.deadline - now), n.cores[k].available) else n.cores[k].available
  }

  lemma StartsAlone(n: Node, k: nat, t: Task, now: real)
    requires Bare(n, k) && n.cores[k].active == [] && |t.loads| == 1 && n.cores[k].inFly == [Fresh(t, 0)]
    ensures StartOn(n, k, now, t.id) == Lone(n, k, [Work(t, t.loads[0], 0.0, now)], n.cores[k].current)
  {
    var s, r := n.cores[k].inFly, StartOn(n, k, now, t.id);
    DropEvery(s, {t.id});
    assert Starting(s, t.id, now) == [Work(t, t.loads[0], 0.0, now)];
    assert [] + Starting(s, t.id, now) == Starting(s, t.id, now);
    assert r.cores[k] == Lone(n, k, [Work(t, t.loads[0], 0.0, now)], n.cores[k].current).cores[k];
    assert r.cores == Lone(n, k, [Work(t, t.loads[0], 0.0, now)], n.cores[k].current).cores;
  }

  /** Completed work leaves, and the task is finished. */
  lemma PurgeFinished(n: Node, k: nat, t: Task, b: Alloc, now: real)
    requires Bare(n, k) && n.cores[k].inFly == [] && n.cores[k].active == [b] && b.task == t.id && b.mips <= 1.0
    ensures Purge(n, k, now)
      == Lone(n, k, [], n.cores[k].current).(finished := n.finished[t.id := now], outputs := n.outputs + 1,
                                          holding := n.holding - {t.id})
  {
    var s := n.cores[k].active;
    assert Expired(s, now) == {};
    FailNobody(n);
    var r := WithActive(n, k, []);
    assert Unfinished(s) == [] && r.cores == Lone(n, k, [], n.cores[k].current).cores;
    assert Absent(r.cores, t.id);
    assert b in s && Completed(s, r.cores) == {t.id};
    assert Finish(r, {t.id}, now).finished == n.finished[t.id := now];
  }

  /** Work past its deadline fails. */
  lemma PurgeExpired(n: Node, k: nat, t: Task, b: Alloc, now: real)
    requires Bare(n, k) && n.cores[k].inFly == [] && n.cores[k].active == [b] && b.task == t.id
    requires b.mips > 1.0 && b.deadline <= now
    ensures t.id in Purge(n, k, now).failed && Purge(n, k, now).finished == n.finished
    ensures Purge(n, k, now).cores == Lone(n, k, [], n.cores[k].current).cores
  {
    var s := n.cores[k].active;
    assert b in s && Expired(s, now) == {t.id};
    DropEvery(s, {t.id});
    var m := FailAll(n, {t.id});
    assert m.cores[k].active == [] && m.cores == Lone(n, k, [], n.cores[k].current).cores;
    assert Completed([], m.cores) == {};
  }

  /** Work with its deadline ahead stays. */
  lemma PurgeStays(n: Node, k: nat, b: Alloc, now: real)
    requires Bare(n, k) && n.cores[k].active == [b] && b.mips > 1.0 && now < b.deadline
    ensures Purge(n, k, now) == n
  {
    var s := n.cores[k].active;
    assert Expired(s, now) == {};
    FailNobody(n);
    assert Unfinished(s) == s && Completed(s, n.cores) == {};
    assert WithActive(n, k, s).cores == n.cores;
    assert Finish(n, {}, now) == n;
  }

  /** Nothing runs: nothing to pay for. */
  lemma RateNothing(n: Node, k: nat, now: real)
    requires Bare(n, k) && n.cores[k].active == [] && n.cores[k].inFly == []
    ensures SetRate(n, k, now) == Lone(n, k, [], 0.0)
  {
    assert UpdateAll([], now) == [] && RateAll([], now, 0.0) == [];
    var m := WithActive(n, k, []);
    assert m.cores == n.cores && m == n;
    assert Expired([], now) == {} && Overdue([], now) == {};
    FailNobody(n);
    assert Completed([], n.cores) == {} && Finish(n, {}, now) == n;
    assert Swept(n, k, now) == n;
    assert SetRate(n, k, now).cores == Lone(n, k, [], 0.0).cores;
  }

  /** What runs alone gets the rate it needs, or all there is. */
  lemma RateAlone(n: Node, k: nat, t: Task, load: real, perf: real, now: real)
    requires Bare(n, k) && n.cores[k].inFly == [] && n.cores[k].active == [Work(t, load, perf, now)]
    requires load > 1.0 && now < t.deadline
    ensures var r := LoneRate(n, k, t, load, now);
      SetRate(n, k, now) == Lone(n, k, [Work(t, load, r, now)], r)
  {
    var b, r := Work(t, load, perf, now), LoneRate(n, k, t, load, now);
    var s := n.cores[k].active;
    UpdatedNow(b, now);
    SweptAlone(n, k, b, now);
    var c := n.cores[k];
    assert s + [] == s && MaxRate([], now) == 0.0;
    FinishTime(load, t.deadline - now, 0.0);
    assert MaxRate(s, now) == Required(b, now) == load / (t.deadline - now);
    assert Pace(c, now, n.dvfs) == r;
    assert RateAll(s, now, r) == [Work(t, load, r, now)];
    assert SetRate(n, k, now).cores == Lone(n, k, [Work(t, load, r, now)], r).cores;
  }

  lemma SweptAlone(n: Node, k: nat, b: Alloc, now: real)
    requires Bare(n, k) && n.cores[k].inFly == [] && n.cores[k].active == [b]
    requires b.since == now && b.mips > 1.0 && now < b.deadline
    ensures Swept(n, k, now) == n
  {
    UpdatedNow(b, now);
    assert UpdateAll([b], now) == [b];
    var m := WithActive(n, k, [b]);
    assert m.cores == n.cores && m == n;
    PurgeStays(n, k, b, now);
    assert Overdue([], now) == {};
    FailNobody(n);
  }

  /** The lone allocation, its accounting brought up to date before the rates are set. */
  lemma LandedIs(n: Node, k: nat, t: Task, load: real, now: real)
    requires Bare(n, k) && n.cores[k].inFly == [] && n.cores[k].active == [Work(t, load, 0.0, now)] && load >= 0.0
    ensures var cur := n.cores[k].current;
      Refresh(n, k, now).0 == SetRate(Purge(Lone(n, k, [Work(t, load, cur, now)], cur), k, now), k, now)
  {
    var cur := n.cores[k].current;
    var b := Work(t, load, cur, now);
    assert cur / 1.0 == cur;
    assert RateAll(n.cores[k].active, now, cur) == [b];
    var m := Lone(n, k, [b], cur);
    assert WithActive(n, k, [b]).cores == m.cores && WithActive(n, k, [b]) == m;
    RefreshIs(n, k, now);
  }

  /** What the arrival makes of the core: a load of 1 MI is done at once, */
  lemma LandedDone(n: Node, k: nat, t: Task, load: real, now: real)
    requires Bare(n, k) && n.cores[k].inFly == [] && n.cores[k].active == [Work(t, load, 0.0, now)]
    requires 0.0 <= load <= 1.0
    ensures Refresh(n, k, now).0.finished == n.finished[t.id := now] && Bare(Refresh(n, k, now).0, k)
  {
    LandedIs(n, k, t, load, now);
    var m := Lone(n, k, [Work(t, load, n.cores[k].current, now)], n.cores[k].current);
    hide Purge, SetRate, Refresh;
    PurgeFinished(m, k, t, m.cores[k].active[0], now);
    RateNothing(Purge(m, k, now), k, now);
  }

  /** a larger one fails if it is late, */
  lemma LandedLate(n: Node, k: nat, t: Task, load: real, now: real)
    requires Bare(n, k) && n.cores[k].inFly == [] && n.cores[k].active == [Work(t, load, 0.0, now)]
    requires load > 1.0 && t.deadline <= now
    ensures var r := Refresh(n, k, now).0; r.finished == n.finished && t.id in r.failed && Bare(r, k)
  {
    LandedIs(n, k, t, load, now);
    var m := Lone(n, k, [Work(t, load, n.cores[k].current, now)], n.cores[k].current);
    hide Purge, SetRate, Refresh;
    PurgeExpired(m, k, t, m.cores[k].active[0], now);
    RateNothing(Purge(m, k, now), k, now);
  }

  /** and runs if it is not. */
  lemma LandedRuns(n: Node, k: nat, t: Task, load: real, now: real, q: real)
    requires Bare(n, k) && n.cores[k].inFly == [] && n.cores[k].active == [Work(t, load, 0.0, now)]
    requires load > 1.0 && now < t.deadline && q == LoneRate(n, k, t, load, now) && q > 0.0
    ensures Refresh(n, k, now) == (Lone(n, k, [Work(t, load, q, now)], q), Some(load / q))
  {
    hide *;
    BareIs(n, k);
    var cur := n.cores[k].current;
    var b, r := Work(t, load, cur, now), Work(t, load, q, now);
    var m := Lone(n, k, [b], cur);
    LoneShape(n, k, [b], cur);
    WorkIs(t, load, cur, now);
    WorkIs(t, load, q, now);
    LandedIs(n, k, t, load, now);
    PurgeStays(m, k, b, now);
    SameRate(n, m, k, t, load, now);
    RateAlone(m, k, t, load, cur, now);
    LoneAgain(n, k, [b], cur, [r], q);
    RunsNext(n, k, now, r, q);
  }

  lemma BareIs(n: Node, k: nat)
    requires Bare(n, k)
    ensures k < |n.cores|
  {}

  lemma WorkIs(t: Task, mips: real, perf: real, since: real)
    ensures var b := Work(t, mips, perf, since); b.mips == mips && b.perf == perf && b.deadline == t.deadline
  {}

  lemma LoneShape(n: Node, k: nat, s: seq<Alloc>, x: real)
    requires Bare(n, k)
    ensures var m := Lone(n, k, s, x);
      Bare(m, k) && k < |m.cores| && m.cores[k].active == s && m.cores[k].inFly == [] && m.cores[k].current == x
  {}

  lemma SameRate(n: Node, m: Node, k: nat, t: Task, load: real, now: real)
    requires Bare(n, k) && now < t.deadline && exists s, x :: m == Lone(n, k, s, x)
    ensures Bare(m, k) && LoneRate(m, k, t, load, now) == LoneRate(n, k, t, load, now)
  {}

  lemma LoneAgain(n: Node, k: nat, s: seq<Alloc>, x: real, r: seq<Alloc>, y: real)
    requires Bare(n, k)
    ensures Lone(Lone(n, k, s, x), k, r, y) == Lone(n, k, r, y)
  {
    assert Lone(Lone(n, k, s, x), k, r, y).cores == Lone(n, k, r, y).cores;
  }

  lemma RunsNext(n: Node, k: nat, now: real, b: Alloc, q: real)
    requires Bare(n, k) && n.cores[k].active != [] && b.perf == q != 0.0
    ensures Refresh(n, k, now).0 == Lone(n, k, [b], q) ==> Refresh(n, k, now).1 == Some(b.mips / q)
  {
    RefreshNext(n, k, now);
    hide Refresh;
    assert [b][1..] == [];
  }

  lemma RefreshNext(n: Node, k: nat, now: real)
    requires k < |n.cores| && n.cores[k].active != []
    ensures Refresh(n, k, now).1 == SoonestExec(Refresh(n, k, now).0.cores[k].active)
  {
    hide SetRate, Purge, RateAll;
  }

  /** And what the completion event makes of it. */
  lemma RefreshDone(n: Node, k: nat, t: Task, load: real, q: real, since: real, now: real)
    requires Bare(n, k) && n.cores[k].inFly == [] && n.cores[k].active == [Work(t, load, q, since)]
    requires n.cores[k].current == q > 0.0 && load > 0.0 && now == since + load / q
    ensures Refresh(n, k, now).0.finished == n.finished[t.id := now] && Bare(Refresh(n, k, now).0, k)
  {
    var b := Work(t, 0.0, q, now);
    assert q * (now - since) == load;
    assert q / 1.0 == q;
    assert RateAll(n.cores[k].active, now, q) == [b];
    var m := Lone(n, k, [b], q);
    assert WithActive(n, k, [b]).cores == m.cores && WithActive(n, k, [b]) == m;
    RefreshIs(n, k, now);
    hide Purge, SetRate;
    PurgeFinished(m, k, t, b, now);
    RateNothing(Purge(m, k, now), k, now);
  }

  // ---------- the run in which nothing else happens ----------

  /** Reserved for and started. */
  function Landed(s: Sys, k: nat, t: Task): (r: Node)
    requires Bare(s.node, k)
    ensures Bare(r, k)
  {
    Lone(s.node.(holding := s.node.holding + {t.id}), k,
      [Work(t, if |t.loads| > 0 then t.loads[0] else 0.0, 0.0, s.now)],
         s.node.cores[k].current)
  }

  /** A core on which nothing runs or waits has nothing to do. */
  lemma IdleTurn(n: Node, j: nat, now: real, start: Option<nat>)
    requires j < |n.cores| && n.cores[j].active == n.cores[j].inFly == []
    ensures Turn(n, j, now, start) == (n, None)
  {
    if start.Some? {
      assert Starting([], start.value, now) == [] && Drop([], {start.value}) == [];
      assert [] + Starting([], start.value, now) == Starting([], start.value, now);
      assert StartOn(n, j, now, start.value).cores[j] == n.cores[j];
      assert StartOn(n, j, now, start.value).cores == n.cores;
    }
  }

  lemma {:induction false} IdleCores(n: Node, tm: Timer, i: nat, k: nat, now: real, start: Option<nat>)
    requires i <= k <= |n.cores| && forall j | i <= j < k :: n.cores[j].active == n.cores[j].inFly == []
    ensures RunCores(n, tm, i, now, start) == RunCores(n, tm, k, now, start)
    decreases k - i
  {
    hide Turn, RunCores;
    if i < k {
      IdleTurn(n, i, now, start);
      RunCoresNext(n, tm, i, now, start);
      NoDelay(tm, now);
      IdleCores(n, tm, i + 1, k, now, start);
    }
  }

  lemma NoDelay(tm: Timer, now: real)
    ensures Schedule(tm, now, None) == tm
  {}

  /** Only core k has something to do. */
  lemma LoneTurn(n: Node, k: nat, tm: Timer, now: real, start: Option<nat>, r: Node, delay: Option<real>)
    requires Bare(n, k) && Bare(r, k) && |r.cores| == |n.cores|
    requires Refresh(if start.Some? then StartOn(n, k, now, start.value) else n, k, now) == (r, delay)
    ensures RunCores(n, tm, 0, now, start) == (r, Schedule(tm, now, delay))
  {
    var tm1 := Schedule(tm, now, delay);
    hide Refresh, StartOn, Schedule, RunCores, Turn;
    TurnIs(n, k, now, start);
    IdleCores(n, tm, 0, k, now, start);
    RunCoresNext(n, tm, k, now, start);
    IdleCores(r, tm1, k + 1, |r.cores|, now, start);
    RunCoresEnd(r, tm1, now, start);
  }

  lemma StepLanded(s: Sys, k: nat, t: Task, fitsProbe: bool)
    requires WaitsAlone(s, k, t) && Bare(Refresh(Landed(s, k, t), k, s.now).0, k)
    ensures var e := Arrive(t, fitsProbe, true);
      var (r, delay) := Refresh(Landed(s, k, t), k, s.now);
      && Enabled(s, e) && Step(s, e).node == r && Step(s, e).timer == Schedule(s.timer, s.now, delay)
      && Step(s, e).now == s.now
  {
    var n := s.node.(holding := s.node.holding + {t.id});
    hide Refresh, StartOn, Schedule, RunCores, Lone, Work;
    StartsAlone(n, k, t, s.now);
    assert StartOn(n, k, s.now, t.id) == Landed(s, k, t);
    var (r, delay) := Refresh(Landed(s, k, t), k, s.now);
    LoneTurn(n, k, s.timer, s.now, Some(t.id), r, delay);
    ReceiveIs(s.node, s.timer, t, s.now, true, fitsProbe, true);
    hide Receive;
  }

  /** The clock moves on to the completion event, which is handled. */
  lemma StepDone(s: Sys, k: nat, t: Task, load: real, q: real)
    requires Bare(s.node, k) && s.node.cores[k].inFly == [] && s.node.cores[k].active == [Work(t, load, q, s.now)]
    requires s.node.cores[k].current == q > 0.0 && load > 0.0 && s.timer.pending == Some(s.now + load / q)
    ensures var run := [Advance(load / q), Fire];
      && Valid(s, run) && Run(s, run).node.finished == s.node.finished[t.id := s.now + load / q]
  {
    FinishTime(load, q, 0.0);
    var s1 := Step(s, Advance(load / q));
    RefreshDone(s.node, k, t, load, q, s.now, s1.now);
    FireAlone(s1, k);
    hide Refresh;
    var run := [Advance(load / q), Fire];
    assert run[1..] == [Fire] && [Fire][1..] == [];
    var s2 := Step(s1, Fire);
    assert Run(s1, [Fire]) == s2;
  }

  lemma FireAlone(s: Sys, k: nat)
    requires Bare(s.node, k) && s.timer.pending == Some(s.now) && Bare(Refresh(s.node, k, s.now).0, k)
    ensures Enabled(s, Fire) && Step(s, Fire).node == Refresh(s.node, k, s.now).0
  {
    hide Refresh, RunCores, Schedule;
    var n, tm := s.node, s.timer.(pending := None);
    var (r, delay) := Refresh(n, k, s.now);
    LoneTurn(n, k, tm, s.now, None, r, delay);
    HandleIs(n, tm, s.now);
    hide Handle;
  }

  /** A rate of at least the required one, and no more than there is, makes the deadline if any rate does. */
  lemma LoneRateMeets(n: Node, k: nat, t: Task, load: real, now: real)
    requires Bare(n, k) && n.cores[k].available > 0.0 && now < t.deadline && load > 1.0
    ensures var q := LoneRate(n, k, t, load, now);
      q > 0.0 && (now + load / q <= t.deadline <==> load <= n.cores[k].available * (t.deadline - now))
  {
    var d, m := t.deadline - now, n.cores[k].available;
    FinishTime(load, d, 0.0);
    var u := load / d;
    assert load == d * u;
    CapMeets(load, d, m);
    if n.dvfs && u <= m {
      FinishTime(load, u, 0.0);
      assert load / u == d;
      Scale(u, m, d);
      assert d * m == m * d;
    }
  }

  lemma CapMeets(load: real, d: real, m: real)
    requires d > 0.0 && m > 0.0 && load > 0.0
    ensures load / m <= d <==> load <= m * d
    ensures load / d > m ==> load > m * d
  {
    if load / m <= d {
      AtMostProduct(load, m, d);
    }
    if load <= m * d {
      AtMostQuotient(load, m, d);
      assert m * d == d * m;
      AtMostQuotient(load, d, m);
    }
  }

  /** It made the deadline. */
  predicate Met(n: Node, t: Task) {
    t.id in n.finished && n.finished[t.id] <= t.deadline
  }

  /** The core could do the load of t in the time that is left. */
  predicate InReach(s: Sys, k: nat, t: Task)
    requires Bare(s.node, k) && |t.loads| == 1
  {
    || t.loads[0] <= s.node.cores[k].available * (t.deadline - s.now)
    || (t.loads[0] <= 1.0 && s.now <= t.deadline)
  }

  lemma ShortReach(s: Sys, k: nat, t: Task)
    requires WaitsAlone(s, k, t) && (t.loads[0] <= 1.0 || t.deadline <= s.now)
    ensures InReach(s, k, t) <==> t.loads[0] <= 1.0 && s.now <= t.deadline
  {
    LateReach(t.loads[0], s.node.cores[k].available, t.deadline - s.now);
  }

  lemma LateReach(load: real, m: real, d: real)
    requires m > 0.0 && load >= 0.0 && (load <= 1.0 || d <= 0.0)
    ensures load <= m * d || (load <= 1.0 && 0.0 <= d) <==> load <= 1.0 && 0.0 <= d
  {
    PastDeadline(m, d);
  }

  /** Nothing to do, or too late to begin. */
  lemma LandsShort(s: Sys, k: nat, t: Task, e: Event)
    requires WaitsAlone(s, k, t) && e.Arrive? && e.task == t && e.fits && (t.loads[0] <= 1.0 || t.deadline <= s.now)
    ensures Enabled(s, e)
    ensures var n := Step(s, e).node;
      (t.id in n.finished || t.id in n.failed) && (Met(n, t) <==> InReach(s, k, t))
  {
    ShortReach(s, k, t);
    hide InReach, Refresh, Step, Enabled;
    if t.loads[0] <= 1.0 {
      LandedDone(Landed(s, k, t), k, t, t.loads[0], s.now);
    } else {
      LandedLate(Landed(s, k, t), k, t, t.loads[0], s.now);
    }
    StepLanded(s, k, t, e.fitsProbe);
  }

  /** Core k just began to run task t at rate q, and nothing else runs or waits. */
  predicate RunsAlone(s: Sys, k: nat, t: Task, load: real, q: real) {
    && Bare(s.node, k) && s.node.cores[k].inFly == []
    && s.node.cores[k].active == [Work(t, load, q, s.now)] && s.node.cores[k].current == q > 0.0 && load > 0.0
    && s.timer.pending == Some(s.now + load / q)
  }

  /** Right after the arrival of a load that can still be done, or not, by the deadline. */
  lemma LandedLong(s: Sys, k: nat, t: Task, e: Event, q: real)
    requires WaitsAlone(s, k, t) && e.Arrive? && e.task == t && e.fits && t.loads[0] > 1.0 && s.now < t.deadline
    requires q == LoneRate(s.node, k, t, t.loads[0], s.now) && q > 0.0
    ensures Enabled(s, e) && RunsAlone(Step(s, e), k, t, t.loads[0], q) && Step(s, e).now == s.now
  {
    var n := Landed(s, k, t);
    LandedShape(s, k, t);
    hide *;
    LandedRuns(n, k, t, t.loads[0], s.now, q);
    StepLanded(s, k, t, e.fitsProbe);
    BeginsToRun(Step(s, e), k, s.timer, n, t, t.loads[0], q);
  }

  lemma LandedShape(s: Sys, k: nat, t: Task)
    requires WaitsAlone(s, k, t)
    ensures var n := Landed(s, k, t);
      && Bare(s.node, k) && Bare(n, k)
      && n.cores[k].inFly == [] && n.cores[k].active == [Work(t, t.loads[0], 0.0, s.now)]
      && (s.timer.eventTime.Some? ==> s.timer.eventTime.value <= s.now)
      && (s.now < t.deadline ==> LoneRate(n, k, t, t.loads[0], s.now) == LoneRate(s.node, k, t, t.loads[0], s.now))
  {}

  lemma BeginsToRun(s: Sys, k: nat, tm: Timer, n: Node, t: Task, load: real, q: real)
    requires Bare(n, k) && s.node == Lone(n, k, [Work(t, load, q, s.now)], q) && q > 0.0 && load > 0.0
    requires s.timer == Schedule(tm, s.now, Some(load / q)) && (tm.eventTime.Some? ==> tm.eventTime.value <= s.now)
    ensures RunsAlone(s, k, t, load, q)
  {
    FinishTime(load, q, 0.0);
    FirstEvent(tm, s.now, load / q);
    hide Schedule;
  }

  lemma RunsToEnd(s: Sys, k: nat, t: Task, load: real, q: real)
    requires RunsAlone(s, k, t, load, q)
    ensures var run := [Advance(load / q), Fire];
      Valid(s, run) && t.id in Run(s, run).node.finished && Run(s, run).node.finished[t.id] == s.now + load / q
  {
    StepDone(s, k, t, load, q);
    hide Valid, Run;
  }

  lemma LongReach(s: Sys, k: nat, t: Task, q: real)
    requires WaitsAlone(s, k, t) && t.loads[0] > 1.0 && s.now < t.deadline
      && q == LoneRate(s.node, k, t, t.loads[0], s.now)
    ensures q > 0.0 && (s.now + t.loads[0] / q <= t.deadline <==> InReach(s, k, t))
  {
    LoneRateMeets(s.node, k, t, t.loads[0], s.now);
    hide LoneRate;
  }

  lemma LandsLong(s: Sys, k: nat, t: Task, e: Event, q: real)
    requires WaitsAlone(s, k, t) && e.Arrive? && e.task == t && e.fits && t.loads[0] > 1.0 && s.now < t.deadline
    requires q == LoneRate(s.node, k, t, t.loads[0], s.now)
    ensures Enabled(s, e) && q > 0.0
    ensures var run := [Advance(t.loads[0] / q), Fire];
      && Valid(Step(s, e), run)
      && var n := Run(Step(s, e), run).node;
         t.id in n.finished && (Met(n, t) <==> InReach(s, k, t))
  {
    LongReach(s, k, t, q);
    LandedLong(s, k, t, e, q);
    hide *;
    RunsToEnd(Step(s, e), k, t, t.loads[0], q);
    MetIs(Run(Step(s, e), [Advance(t.loads[0] / q), Fire]).node, t);
  }

  lemma MetIs(n: Node, t: Task)
    ensures Met(n, t) <==> t.id in n.finished && n.finished[t.id] <= t.deadline
  {}

  /**
   A travelling task of one load that arrives at a provider on which nothing else runs or waits, and after
   which nothing else comes, meets its deadline exactly if its core could do the load in the time that is
   left; a load of 1 MI counts as done.
   */
  lemma LandsAlone(s: Sys, k: nat, t: Task, fitsProbe: bool) returns (run: seq<Event>)
    requires WaitsAlone(s, k, t)
    ensures Valid(s, run) && run != [] && run[0] == Arrive(t, fitsProbe, true)
    ensures forall i | 0 < i < |run| :: run[i].Advance? || run[i].Fire?
    ensures var n := Run(s, run).node;
      (t.id in n.finished || t.id in n.failed) && (Met(n, t) <==> InReach(s, k, t))
  {
    var e := Arrive(t, fitsProbe, true);
    var rest: seq<Event> := [];
    if t.loads[0] <= 1.0 || t.deadline <= s.now {
      LandsShort(s, k, t, e);
    } else {
      var q := LoneRate(s.node, k, t, t.loads[0], s.now);
      LandsLong(s, k, t, e, q);
      rest := [Advance(t.loads[0] / q), Fire];
    }
    hide Step, Enabled, Met, InReach, WaitsAlone;
    run := [e] + rest;
    RunHead(s, e, rest);
  }

  lemma PastDeadline(m: real, d: real)
    requires m > 0.0
    ensures d <= 0.0 ==> m * d <= 0.0
    ensures d < 0.0 ==> m * d < 0.0
  {}

  lemma FirstEvent(tm: Timer, now: real, delay: real)
    requires delay > 0.0 && (tm.eventTime.Some? ==> tm.eventTime.value <= now)
    ensures Schedule(tm, now, Some(delay)).pending == Some(now + delay)
  {}

  lemma RunHead(s: Sys, e: Event, run: seq<Event>)
    requires Enabled(s, e) && Valid(Step(s, e), run)
    ensures Valid(s, [e] + run) && Run(s, [e] + run) == Run(Step(s, e), run)
  {
    hide Step, Enabled;
    assert ([e] + run)[1..] == run;
  }
}
