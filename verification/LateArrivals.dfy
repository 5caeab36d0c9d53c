/**
 Tasks placed when they are dispatched, while they still have to travel: two runs that show why
 the deadline theorem speaks of placement on arrival, and why a failure may be counted twice.
 */
module LateArrivals {
  import opened Common
  import opened Scheduling
  import opened Simulation
  import opened AllocLists
  import Landings

  function OneCore(active: seq<Alloc>, inFly: seq<Alloc>, current: real, failed: set<nat>, holding: set<nat>): (n: Node)
    ensures |n.cores| == 1
  {
    Node(false, [Core(10.0, active, inFly, current)], map[], 0, failed, |failed|, holding)
  }

  function Start(): Sys {
    Sys(0.0, OneCore([], [], 0.0, {}, {}), Timer(None, None), map[], {}, {})
  }

  /** On a core where nothing runs, getMostUrgentTaskRate only fails what is late in flight. */
  lemma SweptIdle(n: Node, k: nat, now: real)
    requires k < |n.cores| && n.cores[k].active == []
    ensures Swept(n, k, now) == FailAll(n, Overdue(n.cores[k].inFly, now))
  {
    assert UpdateAll(n.cores[k].active, now) == [];
    var m := WithActive(n, k, []);
    assert m.cores == n.cores && m == n;
    assert Expired(n.cores[k].active, now) == {};
    FailNobody(n);
    assert Completed([], n.cores) == {};
    assert Finish(n, {}, now) == n;
  }

  /** An idle core admits what it can finish in time. */
  lemma AdmitsAlone(c: Core, a: Alloc, now: real)
    requires c.active == c.inFly == [] && now < a.deadline && c.available >= 0.0
    requires 0.0 <= Required(a, now) <= c.available
    ensures Admits(c, a, now)
  {
    assert c.active + c.inFly == [];
  }

  /** The only allocation of a task, placed on the only core. */
  lemma PlacedAlone(n: Node, m: Node, t: Task, now: real)
    requires |n.cores| == |m.cores| == 1 && n.cores[0].active == [] && |t.loads| == 1 && now < t.deadline
    requires m == FailAll(n, Overdue(n.cores[0].inFly, now))
    requires m.cores[0].active == m.cores[0].inFly == []
    requires 0.0 <= Required(Fresh(t, 0), now) <= m.cores[0].available
    ensures TrySchedule(n, t, now, true) == (Assign(m, 0, Fresh(t, 0)), true)
  {
    hide Swept, FailAll, Overdue, Admits, PlaceFrom, Required, Assign;
    SweptIdle(n, 0, now);
    AdmitsAlone(m.cores[0], Fresh(t, 0), now);
    PlaceFromIs(n, Fresh(t, 0), now, 0);
    assert PlaceFrom(n, Fresh(t, 0), now, 0) == (Assign(m, 0, Fresh(t, 0)), true);
    assert PlaceAllocs(Assign(m, 0, Fresh(t, 0)), t, now, 1) == (Assign(m, 0, Fresh(t, 0)), true);
  }

  lemma AssignedAlone(n: Node, a: Alloc)
    requires |n.cores| == 1 && n.cores[0].inFly == []
    ensures Assign(n, 0, a).cores == [n.cores[0].(inFly := [a])]
  {
    assert [] + [a] == [a];
  }

  /** A task of 10 MI that travels half of the second it has. */
  function Traveller(): Task {
    Task(1, 1.0, [10.0])
  }

  function Other(): Task {
    Task(2, 9.0, [5.0])
  }

  function Waiting(failed: set<nat>, holding: set<nat>): Node {
    OneCore([], [Alloc(1, 0, 1.0, 10.0, 0.0, 0.0)], 0.0, failed, holding)
  }

  function Idle(failed: set<nat>, holding: set<nat>): Node {
    OneCore([], [], 0.0, failed, holding)
  }

  /** The traveller has been dispatched at time 0. */
  function Travelling(now: real): Sys {
    Sys(now, Waiting({}, {}), Timer(None, None), map[1 := Traveller()], {1}, {})
  }

  lemma Dispatched()
    ensures Enabled(Start(), Dispatch(Traveller(), true))
    ensures Step(Start(), Dispatch(Traveller(), true)) == Travelling(0.0)
  {
    var n := Start().node;
    assert Overdue([], 0.0) == {};
    FailNobody(n);
    assert Required(Fresh(Traveller(), 0), 0.0) == 10.0;
    PlacedAlone(n, n, Traveller(), 0.0);
    AssignedAlone(n, Fresh(Traveller(), 0));
  }

  /** Testing the provider for another task, after the deadline, fails the traveller. */
  lemma Tested()
    ensures Probe(Waiting({}, {}), Other(), 2.0, true).0 == Idle({1}, {})
  {
    var n, m, u := Waiting({}, {}), Idle({1}, {}), Other();
    var s := n.cores[0].inFly;
    assert s[0] in s && Overdue(s, 2.0) == {1};
    DropEvery(s, {1});
    assert FailAll(n, {1}).cores == m.cores;
    assert FailAll(n, {1}) == m;
    assert Required(Fresh(u, 0), 2.0) == 5.0 / 7.0;
    PlacedAlone(n, m, u, 2.0);
    DropEvery([Fresh(u, 0)], {2});
    assert Withdraw(Assign(m, 0, Fresh(u, 0)), 2).cores == m.cores;
  }

  lemma StartsInitial()
    ensures Initial(Start())
  {}

  lemma RunCons(s: Sys, e: Event, run: seq<Event>, m: Sys)
    requires Enabled(s, e) && m == Step(s, e) && Valid(m, run)
    ensures Valid(s, [e] + run) && Run(s, [e] + run) == Run(m, run)
  {
    hide Step, Enabled;
    assert ([e] + run)[1..] == run;
  }

  function Received(fits: bool): Sys {
    Sys(2.0, if fits then Idle({1}, {1}) else Idle({1}, {}).(failures := 2), Timer(None, None),
        map[1 := Traveller()], {}, if fits then {1} else {})
  }

  lemma LateReceived(s: Sys, fits: bool)
    requires s == Travelling(2.0).(node := Idle({1}, {}))
    ensures Enabled(s, Arrive(Traveller(), true, fits)) && Step(s, Arrive(Traveller(), true, fits)) == Received(fits)
  {
    var n := Idle({1}, {}).(holding := if fits then {1} else {});
    assert s.known[1 := Traveller()] == s.known;
    if fits {
      assert [] + Starting([], 1, 2.0) == [] && Drop([], {1}) == [];
      assert StartOn(n, 0, 2.0, 1).cores[0] == n.cores[0];
      assert StartOn(n, 0, 2.0, 1).cores == n.cores;
      assert Turn(n, 0, 2.0, Some(1)) == (n, None);
    } else {
      DropNone([], {1});
      assert DropFrom(n.cores, {1}) == n.cores;
    }
  }

  /**
   A task that failed while it travelled and is received all the same: turned away it is counted
   as a second failure; started, it keeps its reservation although no core runs it.
   */
  lemma FailedInFlight(fits: bool) returns (run: seq<Event>)
    ensures Initial(Start()) && Valid(Start(), run)
    ensures var n := Run(Start(), run).node;
      && n.failed == {1} && Absent(n.cores, 1)
      && n.failures == (if fits then 1 else 2) && n.holding == (if fits then {1} else {})
  {
    Dispatched();
    Tested();
    var s := Travelling(2.0).(node := Idle({1}, {}));
    var e := Arrive(Traveller(), true, fits);
    LateReceived(s, fits);
    TravellerTested(s);
    StartsInitial();
    hide Step, Enabled, Absent, Initial;
    run := [e];
    RunCons(s, e, [], Received(fits));
    assert [e] + [] == run;
    run := [Test(Other(), true)] + run;
    RunCons(Travelling(2.0), Test(Other(), true), [e], s);
    RunCons(Travelling(0.0), Advance(2.0), run, Travelling(2.0));
    run := [Advance(2.0)] + run;
    RunCons(Start(), Dispatch(Traveller(), true), run, Travelling(0.0));
    run := [Dispatch(Traveller(), true)] + run;
    NobodyThere(fits);
  }

  lemma TravellerTested(s: Sys)
    requires s == Travelling(2.0).(node := Idle({1}, {}))
    ensures Enabled(Travelling(0.0), Advance(2.0)) && Step(Travelling(0.0), Advance(2.0)) == Travelling(2.0)
    ensures Enabled(Travelling(2.0), Test(Other(), true)) && Step(Travelling(2.0), Test(Other(), true)) == s
  {
    Tested();
    hide Probe;
  }

  lemma NobodyThere(fits: bool)
    ensures Absent(Received(fits).node.cores, 1)
  {}

  // ---------- a task admitted when it was dispatched finishes late ----------

  function Work(mips: real, perf: real, since: real): Alloc {
    Alloc(1, 0, 1.0, mips, perf, since)
  }

  function Busy(perf: real): Node {
    OneCore([Work(10.0, perf, 0.5)], [], perf, {}, {1})
  }

  function Running(now: real): Sys {
    Sys(now, Busy(10.0), Timer(Some(1.5), Some(1.5)), map[1 := Traveller()], {}, {1})
  }

  function Done(): Node {
    Node(false, [Core(10.0, [], [], 0.0)], map[1 := 1.5], 1, {}, 0, {})
  }

  function Last(): Sys {
    Running(1.5).(node := Done(), timer := Timer(Some(1.5), None))
  }

  lemma Waited()
    ensures Enabled(Travelling(0.0), Advance(0.5)) && Step(Travelling(0.0), Advance(0.5)) == Travelling(0.5)
    ensures Enabled(Running(0.5), Advance(1.0)) && Step(Running(0.5), Advance(1.0)) == Running(1.5)
    ensures var s := Last();
      1 in s.admitted && 1 in s.known && 1 in s.node.finished && s.node.finished[1] > s.known[1].deadline
  {}

  lemma Refreshed()
    ensures Refresh(Busy(0.0), 0, 0.5) == (Busy(10.0), Some(1.0))
  {
    var n, a := Busy(0.0), Work(10.0, 0.0, 0.5);
    var s := n.cores[0].active;
    assert RateAll(s, 0.5, 0.0) == [a] == s;
    assert WithActive(n, 0, s) == n;
    assert Expired(s, 0.5) == {};
    FailNobody(n);
    assert Unfinished(s) == s && Completed(s, n.cores) == {};
    assert Purge(n, 0, 0.5) == n;
    assert RateAll(s, 0.5, 10.0) == [Work(10.0, 10.0, 0.5)];
    assert SetRate(n, 0, 0.5).cores == Busy(10.0).cores;
  }

  lemma Retired()
    ensures Refresh(Busy(10.0), 0, 1.5) == (Done(), None)
  {
    var n, a := Busy(10.0), Work(0.0, 10.0, 1.5);
    assert RateAll(n.cores[0].active, 1.5, 10.0) == [a];
    var m := WithActive(n, 0, [a]);
    assert Expired([a], 1.5) == {};
    FailNobody(m);
    var r := WithActive(m, 0, []);
    assert Unfinished([a]) == [];
    assert Absent(r.cores, 1);
    assert a in [a] && Completed([a], r.cores) == {1};
    assert Purge(m, 0, 1.5) == Finish(r, {1}, 1.5);
    assert Finish(r, {1}, 1.5).finished == map[1 := 1.5];
    assert SetRate(Finish(r, {1}, 1.5), 0, 1.5).cores == Done().cores;
    assert SetRate(Finish(r, {1}, 1.5), 0, 1.5) == Done();
  }

  lemma Begun()
    ensures StartOn(Waiting({}, {1}), 0, 0.5, 1) == Busy(0.0)
  {
    var n := Waiting({}, {1});
    var s := n.cores[0].inFly;
    DropEvery(s, {1});
    assert Starting(s, 1, 0.5) == [Work(10.0, 0.0, 0.5)];
    assert [] + Starting(s, 1, 0.5) == Starting(s, 1, 0.5);
    assert StartOn(n, 0, 0.5, 1).cores[0] == Busy(0.0).cores[0];
    assert StartOn(n, 0, 0.5, 1).cores == Busy(0.0).cores;
  }

  /** The arrival, on the only core, of a task that was placed before. */
  lemma LandsOn(s: Sys, t: Task, n: Node, r: Node, delay: Option<real>)
    requires t.id in s.flying && t.id in s.known && s.known[t.id] == t && |s.node.cores| == 1
    requires n == s.node.(holding := s.node.holding + {t.id})
    requires Refresh(StartOn(n, 0, s.now, t.id), 0, s.now) == (r, delay)
    ensures Enabled(s, Arrive(t, true, true))
    ensures Step(s, Arrive(t, true, true)) ==
      Sys(s.now, r, Schedule(s.timer, s.now, delay), s.known, s.flying - {t.id}, s.admitted + {t.id})
  {
    hide StartOn, Refresh, RunCores, Schedule, Receive;
    Landings.LoneTurn(n, 0, s.timer, s.now, Some(t.id), r, delay);
    ReceiveIs(s.node, s.timer, t, s.now, true, true, true);
    assert s.known[t.id := t] == s.known;
  }

  lemma Accepted()
    ensures Enabled(Travelling(0.5), Arrive(Traveller(), true, true))
    ensures Step(Travelling(0.5), Arrive(Traveller(), true, true)) == Running(0.5)
  {
    Begun();
    Refreshed();
    FirstEvent(Timer(None, None), 0.5, 1.0);
    assert {1} - {1} == {} && {} + {1} == {1};
    hide StartOn, Refresh, Schedule, Step, Enabled;
    LandsOn(Travelling(0.5), Traveller(), Waiting({}, {1}), Busy(10.0), Some(1.0));
  }

  lemma FirstEvent(tm: Timer, now: real, delay: real)
    requires tm == Timer(None, None)
    ensures Schedule(tm, now, Some(delay)) == Timer(Some(now + delay), Some(now + delay))
  {}

  lemma Fired()
    ensures Enabled(Running(1.5), Fire)
    ensures Step(Running(1.5), Fire) == Last()
  {
    Retired();
    assert RunCores(Busy(10.0), Timer(Some(1.5), None), 0, 1.5, None) == (Done(), Timer(Some(1.5), None));
  }

  /** Passing the admission test at dispatch does not guarantee the deadline: travelling takes time. */
  lemma FlightMissesDeadline() returns (run: seq<Event>)
    ensures Initial(Start()) && Valid(Start(), run)
    ensures var s := Run(Start(), run);
      1 in s.admitted && 1 in s.known && 1 in s.node.finished && s.node.finished[1] > s.known[1].deadline
  {
    Dispatched();
    Accepted();
    Fired();
    Waited();
    StartsInitial();
    hide Step, Enabled, Travelling, Running, Done, Initial;
    var last := Last();
    run := [Fire];
    hide Last;
    RunCons(Running(1.5), Fire, [], last);
    assert [Fire] + [] == run;
    RunCons(Running(0.5), Advance(1.0), run, Running(1.5));
    run := [Advance(1.0)] + run;
    RunCons(Travelling(0.5), Arrive(Traveller(), true, true), run, Running(0.5));
    run := [Arrive(Traveller(), true, true)] + run;
    RunCons(Travelling(0.0), Advance(0.5), run, Travelling(0.5));
    run := [Advance(0.5)] + run;
    RunCons(Start(), Dispatch(Traveller(), true), run, Travelling(0.0));
    run := [Dispatch(Traveller(), true)] + run;
  }

  // ---------- a core that is given more than its available rate ----------

  /** Two allocations of 7 MI each, due at 7. */
  function Pair(): Task {
    Task(1, 7.0, [7.0, 7.0])
  }

  function Half(slot: nat, since: real): Alloc {
    Alloc(1, slot, 7.0, 7.0, 0.0, since)
  }

  /** A core of 10 MIPS with DVFS. */
  function Scaled(active: seq<Alloc>, inFly: seq<Alloc>, current: real, holding: set<nat>): (n: Node)
    ensures |n.cores| == 1
  {
    Node(true, [Core(10.0, active, inFly, current)], map[], 0, {}, 0, holding)
  }

  function Fast(slot: nat): Alloc {
    Half(slot, 6.0).(perf := 7.0)
  }

  lemma SweptPair(n: Node, now: real)
    requires n == Scaled([Half(0, now), Half(1, now)], [], 0.0, {1}) && now < 7.0
    ensures Swept(n, 0, now) == n && Purge(n, 0, now) == n
  {
    var s := n.cores[0].active;
    assert UpdateAll(s, now) == s;
    assert WithActive(n, 0, s).cores == n.cores && WithActive(n, 0, s) == n;
    assert Expired(s, now) == {} && Overdue([], now) == {};
    FailNobody(n);
    assert Unfinished(s[1..]) == s[1..] && Unfinished(s) == s && Completed(s, n.cores) == {};
    assert Finish(n, {}, now) == n;
  }

  /** updateTskList, where bringing up to date and purging change nothing. */
  lemma RefreshCalm(n: Node, now: real, d: Core)
    requires n.dvfs && |n.cores| == 1 && n.cores[0].active != []
    requires WithActive(n, 0, RateAll(n.cores[0].active, now, n.cores[0].current)) == n
    requires Purge(n, 0, now) == n && Swept(n, 0, now) == n && Rated(n.cores[0], now, true) == d
    ensures Refresh(n, 0, now).0 == n.(cores := [d])
  {
    RefreshIs(n, 0, now);
    SetRateIs(n, 0, now);
    hide Refresh, SetRate, Purge, Swept, Rated, RateAll, WithActive;
    assert n.cores[0 := d] == [d];
  }

  lemma PairRefreshed()
    ensures Refresh(Scaled([Half(0, 6.0), Half(1, 6.0)], [], 0.0, {1}), 0, 6.0).0
      == Scaled([Fast(0), Fast(1)], [], 14.0, {1})
  {
    var n := Scaled([Half(0, 6.0), Half(1, 6.0)], [], 0.0, {1});
    PairCaughtUp();
    SweptPair(n, 6.0);
    PairRated();
    hide Refresh, SetRate, Purge, Swept, Rated, RateAll, Half, Fast, WithActive;
    RefreshCalm(n, 6.0, Core(10.0, [Fast(0), Fast(1)], [], 14.0));
  }

  lemma PairCaughtUp()
    ensures var n := Scaled([Half(0, 6.0), Half(1, 6.0)], [], 0.0, {1});
      WithActive(n, 0, RateAll(n.cores[0].active, 6.0, 0.0)) == n
  {
    var s := [Half(0, 6.0), Half(1, 6.0)];
    var n := Scaled(s, [], 0.0, {1});
    assert RateAll(s, 6.0, 0.0) == s;
    assert WithActive(n, 0, s).cores == n.cores;
  }

  lemma EquallyUrgent(s: seq<Alloc>, now: real, r: real)
    requires s != [] && r >= 0.0 && forall a :: a in s ==> now < a.deadline && Required(a, now) == r
    ensures MaxRate(s, now) == r
  {
    hide MaxRate, Required;
    assert s[0] in s;
  }

  /** The rate of a core on which two equally urgent allocations run. */
  lemma PaceOfTwo(c: Core, now: real, r: real)
    requires |c.active| == 2 && c.inFly == [] && 0.0 <= r <= c.available
    requires forall a :: a in c.active ==> now < a.deadline && Required(a, now) == r
    ensures (forall a :: a in c.active + c.inFly ==> now < a.deadline) && Pace(c, now, true) == r * 2.0
  {
    assert c.active + c.inFly == c.active;
    EquallyUrgent(c.active, now, r);
    hide MaxRate, Required;
  }

  lemma PairUrgency(c: Core, now: real)
    requires c.available == 10.0 && |c.active| == 2 && c.inFly == [] && now == 6.0
    requires forall a :: a in c.active ==> a.mips == 7.0 == a.deadline
    ensures (forall a :: a in c.active + c.inFly ==> now < a.deadline) && Pace(c, now, true) == 14.0
  {
    forall a | a in c.active
      ensures now < a.deadline && Required(a, now) == 7.0
    {}
    hide *;
    PaceOfTwo(c, now, 7.0);
  }

  lemma HalfIs(slot: nat)
    ensures Half(slot, 6.0).mips == 7.0 == Half(slot, 6.0).deadline
  {}

  lemma PairShares()
    ensures RateAll([Half(0, 6.0), Half(1, 6.0)], 6.0, 14.0) == [Fast(0), Fast(1)]
  {}

  lemma RatedIs(c: Core, now: real)
    requires forall a :: a in c.active + c.inFly ==> now < a.deadline
    ensures var cur := Pace(c, now, true);
      Rated(c, now, true) == c.(current := cur, active := RateAll(c.active, now, cur))
  {
    hide Pace, RateAll;
  }

  lemma PairRated()
    ensures var c := Core(10.0, [Half(0, 6.0), Half(1, 6.0)], [], 0.0);
      Rated(c, 6.0, true) == Core(10.0, [Fast(0), Fast(1)], [], 14.0)
  {
    var c := Core(10.0, [Half(0, 6.0), Half(1, 6.0)], [], 0.0);
    HalfIs(0);
    HalfIs(1);
    hide *;
    PairUrgency(c, 6.0);
    PairShares();
    RatedIs(c, 6.0);
  }

  /** Two loads, each placed on the only core. */
  lemma TwoPlaced(n: Node, n1: Node, n2: Node, t: Task, now: real)
    requires |t.loads| == 2 && now < t.deadline
    requires PlaceFrom(n, Fresh(t, 0), now, 0) == (n1, true) && PlaceFrom(n1, Fresh(t, 1), now, 0) == (n2, true)
    ensures TrySchedule(n, t, now, true) == (n2, true)
  {
    hide PlaceFrom, PlaceAllocs;
    PlaceAllocsNext(n, t, now, 0);
    PlaceAllocsNext(n1, t, now, 1);
    PlaceAllocsEnd(n2, t, now);
  }

  lemma PairDispatched()
    ensures TrySchedule(Scaled([], [], 0.0, {}), Pair(), 0.0, true)
      == (Scaled([], [Half(0, 0.0), Half(1, 0.0)], 0.0, {}), true)
  {
    var n0, n1 := Scaled([], [], 0.0, {}), Scaled([], [Half(0, 0.0)], 0.0, {});
    var n2 := Scaled([], [Half(0, 0.0), Half(1, 0.0)], 0.0, {});
    assert Fresh(Pair(), 0) == Half(0, 0.0) && Fresh(Pair(), 1) == Half(1, 0.0);
    PairPlaced(n0, [], Half(0, 0.0), 0.0);
    PairPlaced(n1, [Half(0, 0.0)], Half(1, 0.0), 0.0);
    assert [] + [Half(0, 0.0)] == [Half(0, 0.0)];
    assert [Half(0, 0.0)] + [Half(1, 0.0)] == [Half(0, 0.0), Half(1, 0.0)];
    hide PlaceFrom, Half, TrySchedule, Fresh;
    TwoPlaced(n0, n1, n2, Pair(), 0.0);
  }

  lemma PairPlaced(n: Node, s: seq<Alloc>, a: Alloc, now: real)
    requires n == Scaled([], s, 0.0, {}) && |s| <= 1 && now == 0.0
    requires forall b :: b in s + [a] ==> b.deadline == 7.0 == b.mips
    ensures PlaceFrom(n, a, now, 0) == (Scaled([], s + [a], 0.0, {}), true)
  {
    SweptIdle(n, 0, now);
    assert a in s + [a] && forall b :: b in s ==> b in s + [a];
    assert Overdue(s, now) == {};
    FailNobody(n);
    PairAdmitted(n.cores[0], s, a, now);
    PlaceFromIs(n, a, now, 0);
    hide Swept, FailAll, Admits, PlaceFrom;
    assert Assign(n, 0, a).cores == Scaled([], s + [a], 0.0, {}).cores;
  }

  lemma PairAdmitted(c: Core, s: seq<Alloc>, a: Alloc, now: real)
    requires c == Core(10.0, [], s, 0.0) && |s| <= 1 && now == 0.0
    requires a.deadline == 7.0 == a.mips && forall b :: b in s ==> b.deadline == 7.0 == b.mips
    ensures Admits(c, a, now)
  {
    assert [] + s == s;
    forall b | b in s + [a]
      ensures now < b.deadline && Required(b, now) == 1.0
    {}
    if s != [] {
      EquallyUrgent(s, now, 1.0);
    }
    hide Required;
  }

  lemma PairStarted()
    ensures StartOn(Scaled([], [Half(0, 0.0), Half(1, 0.0)], 0.0, {1}), 0, 6.0, 1)
      == Scaled([Half(0, 6.0), Half(1, 6.0)], [], 0.0, {1})
  {
    var s := [Half(0, 0.0), Half(1, 0.0)];
    var n := Scaled([], s, 0.0, {1});
    DropEvery(s, {1});
    assert s[1..] == [Half(1, 0.0)] && s[1..][1..] == [];
    assert Starting(s[1..], 1, 6.0) == [Half(1, 6.0)];
    assert Starting(s, 1, 6.0) == [Half(0, 6.0), Half(1, 6.0)];
    assert [] + Starting(s, 1, 6.0) == Starting(s, 1, 6.0);
    assert StartOn(n, 0, 6.0, 1).cores[0] == Scaled([Half(0, 6.0), Half(1, 6.0)], [], 0.0, {1}).cores[0];
    assert StartOn(n, 0, 6.0, 1).cores == Scaled([Half(0, 6.0), Half(1, 6.0)], [], 0.0, {1}).cores;
  }

  function Origin(): Sys {
    Sys(0.0, Scaled([], [], 0.0, {}), Timer(None, None), map[], {}, {})
  }

  function Aloft(now: real): Sys {
    Sys(now, Scaled([], [Half(0, 0.0), Half(1, 0.0)], 0.0, {}), Timer(None, None), map[1 := Pair()], {1}, {})
  }

  lemma PairGoes()
    ensures Initial(Origin())
    ensures Enabled(Origin(), Dispatch(Pair(), true)) && Step(Origin(), Dispatch(Pair(), true)) == Aloft(0.0)
    ensures Enabled(Aloft(0.0), Advance(6.0)) && Step(Aloft(0.0), Advance(6.0)) == Aloft(6.0)
  {
    PairDispatched();
    hide TrySchedule;
  }

  lemma PairLands()
    ensures Enabled(Aloft(6.0), Arrive(Pair(), true, true))
    ensures Step(Aloft(6.0), Arrive(Pair(), true, true)).node == Scaled([Fast(0), Fast(1)], [], 14.0, {1})
  {
    PairStarted();
    PairRefreshed();
    hide StartOn, Refresh, Step, Enabled, Half, Fast;
    var n := Scaled([Half(0, 6.0), Half(1, 6.0)], [], 0.0, {1});
    LandsOn(Aloft(6.0), Pair(), Scaled([], [Half(0, 0.0), Half(1, 0.0)], 0.0, {1}),
            Refresh(n, 0, 6.0).0, Refresh(n, 0, 6.0).1);
  }

  /**
   With DVFS only the most urgent rate is capped, not that rate times the number of allocations.  Two
   allocations that have become urgent on the way make a core of 10 MIPS run at 14.
   */
  lemma FlightOverloads() returns (s0: Sys, run: seq<Event>)
    ensures Initial(s0) && Valid(s0, run)
    ensures var c := Run(s0, run).node.cores;
      |c| == 1 && c[0].current == 14.0 && c[0].available == 10.0
  {
    PairGoes();
    PairLands();
    s0 := Origin();
    var e := Arrive(Pair(), true, true);
    var last := Step(Aloft(6.0), e);
    hide Step, Enabled, Initial, Origin, Aloft, Pair;
    run := [e];
    RunCons(Aloft(6.0), e, [], last);
    assert [e] + [] == run;
    RunCons(Aloft(0.0), Advance(6.0), run, Aloft(6.0));
    run := [Advance(6.0)] + run;
    RunCons(s0, Dispatch(Pair(), true), run, Aloft(0.0));
    run := [Dispatch(Pair(), true)] + run;
  }
}
