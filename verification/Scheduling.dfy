/**
 The scheduler of one provider as a function of its state: what the provider's cores, its
 counters and its event timer look like after each operation.  The classes of module
 CoreScheduling refine these functions; the laws over whole runs are proved about them.
 */
module Scheduling {
  import opened Common

  /** A task as it is submitted: one load (in MI) for each of its computing capacities. */
  datatype Task = Task(id: nat, deadline: real, loads: seq<real>)

  /** One task allocation: the work left, the rate it runs at, and when that was last updated. */
  datatype Alloc = Alloc(task: nat, slot: nat, deadline: real, mips: real, perf: real, since: real)

  datatype Core = Core(available: real, active: seq<Alloc>, inFly: seq<Alloc>, current: real)

  /**
   finished maps a task to the time its output was handed over, and outputs counts the times any output
   was; failures is the provider's counter.
   */
  datatype Node = Node(dvfs: bool, cores: seq<Core>, finished: map<nat, real>, outputs: nat,
                       failed: set<nat>, failures: nat, holding: set<nat>)

  /** eventTime is None for DBL_MAX; pending is the time of the event queued in the simulator. */
  datatype Timer = Timer(eventTime: Option<real>, pending: Option<real>)

  // ---------- one allocation ----------

  /** The work done since the accounting was last brought up to date. */
  function Computed(a: Alloc, now: real): real {
    a.perf * (now - a.since)
  }

  function Updated(a: Alloc, now: real): Alloc {
    var done := Computed(a, now);
    a.(mips := if a.mips > done then a.mips - done else 0.0, since := now)
  }

  function WithRate(a: Alloc, now: real, rate: real): Alloc {
    Updated(a, now).(perf := rate)
  }

  /** Time to completion at the present rate; None stands for DBL_MAX. */
  function ExecTime(a: Alloc): Option<real> {
    if a.perf != 0.0 then Some(a.mips / a.perf) else None
  }

  function Fresh(t: Task, slot: nat): Alloc
    requires slot < |t.loads|
  {
    Alloc(t.id, slot, t.deadline, t.loads[slot], 0.0, 0.0)
  }

  // ---------- lists of allocations ----------

  function UpdateAll(s: seq<Alloc>, now: real): (r: seq<Alloc>)
    ensures |r| == |s|
    ensures forall i | 0 <= i < |s| :: r[i] == Updated(s[i], now)
  {
    seq(|s|, i requires 0 <= i < |s| => Updated(s[i], now))
  }

  function RateAll(s: seq<Alloc>, now: real, mips: real): (r: seq<Alloc>)
    ensures |r| == |s|
    ensures forall i | 0 <= i < |s| :: r[i] == WithRate(s[i], now, mips / |s| as real)
  {
    seq(|s|, i requires 0 <= i < |s| => WithRate(s[i], now, mips / |s| as real))
  }

  /** The list without the allocations of the given tasks. */
  function Drop(s: seq<Alloc>, out: set<nat>): (r: seq<Alloc>)
    ensures forall a :: a in r <==> a in s && a.task !in out
    ensures |r| <= |s|
  {
    if s == [] then [] else
    (if s[0].task in out then [] else [s[0]]) + Drop(s[1..], out)
  }

  /** The list without its completed allocations: one MI left counts as done. */
  function Unfinished(s: seq<Alloc>): (r: seq<Alloc>)
    ensures forall a :: a in r <==> a in s && a.mips > 1.0
    ensures |r| <= |s|
  {
    if s == [] then [] else
    (if s[0].mips <= 1.0 then [] else [s[0]]) + Unfinished(s[1..])
  }

  /** The allocations of task t, starting to run now. */
  function Starting(s: seq<Alloc>, t: nat, now: real): (r: seq<Alloc>)
    ensures forall a :: a in r ==> exists b :: b in s && b.task == t && a == b.(since := now)
    ensures forall b :: b in s && b.task == t ==> b.(since := now) in r
    ensures |r| + |Drop(s, {t})| == |s|
  {
    if s == [] then [] else
    (if s[0].task == t then [s[0].(since := now)] else []) + Starting(s[1..], t, now)
  }

  /** The rate an allocation needs to meet its deadline. */
  function Required(a: Alloc, now: real): real
    requires now < a.deadline
  {
    a.mips / (a.deadline - now)
  }

  /** The highest rate any allocation needs to meet its deadline. */
  function MaxRate(s: seq<Alloc>, now: real): (r: real)
    requires forall a :: a in s ==> now < a.deadline
    ensures r >= 0.0
    ensures forall a :: a in s ==> Required(a, now) <= r
    ensures r == 0.0 || exists a :: a in s && r == Required(a, now)
  {
    if s == [] then 0.0 else Max(Required(s[0], now), MaxRate(s[1..], now))
  }

  function SoonestExec(s: seq<Alloc>): (r: Option<real>)
    ensures r.Some? ==> exists a :: a in s && ExecTime(a) == r
    ensures forall a :: a in s && ExecTime(a).Some? ==> r.Some? && r.value <= ExecTime(a).value
  {
    if s == [] then None else
    var e, rest := ExecTime(s[0]), SoonestExec(s[1..]);
    if e.None? then rest else if rest.None? || e.value <= rest.value then e else rest
  }

  // ---------- the cores of a provider ----------

  predicate OnCore(c: Core, t: nat) {
    (exists a :: a in c.active && a.task == t) || (exists a :: a in c.inFly && a.task == t)
  }

  predicate Absent(cores: seq<Core>, t: nat) {
    forall c :: c in cores ==> !OnCore(c, t)
  }

  function Without(c: Core, out: set<nat>): Core {
    c.(active := Drop(c.active, out), inFly := Drop(c.inFly, out))
  }

  function DropFrom(cores: seq<Core>, out: set<nat>): (r: seq<Core>)
    ensures |r| == |cores|
    ensures forall i | 0 <= i < |cores| :: r[i] == Without(cores[i], out)
  {
    seq(|cores|, i requires 0 <= i < |cores| => Without(cores[i], out))
  }

  /** The tasks fail: off every core, counted, their reservations returned. */
  function FailAll(n: Node, out: set<nat>): (r: Node)
    ensures |r.cores| == |n.cores|
  {
    n.(cores := DropFrom(n.cores, out), failed := n.failed + out, failures := n.failures + |out|,
       holding := n.holding - out)
  }

  /** Tasks with unfinished active work whose deadline has come. */
  function Expired(s: seq<Alloc>, now: real): set<nat> {
    set a | a in s && a.mips > 1.0 && a.deadline <= now :: a.task
  }

  function Overdue(s: seq<Alloc>, now: real): set<nat> {
    set a | a in s && a.deadline <= now :: a.task
  }

  /** The completed tasks of list s: done here and on no core any more. */
  function Completed(s: seq<Alloc>, cores: seq<Core>): set<nat> {
    set a | a in s && a.mips <= 1.0 && Absent(cores, a.task) :: a.task
  }

  function Finish(n: Node, done: set<nat>, now: real): Node {
    n.(finished := n.finished + (map t | t in done :: now), outputs := n.outputs + |done|, holding := n.holding - done)
  }

  function WithActive(n: Node, k: nat, s: seq<Alloc>): (r: Node)
    requires k < |n.cores|
    ensures |r.cores| == |n.cores|
  {
    n.(cores := n.cores[k := n.cores[k].(active := s)])
  }

  /** Core k loses its completed allocations; tasks with nothing left are finished. */
  function Retire(n: Node, k: nat, now: real): (r: Node)
    requires k < |n.cores|
    ensures |r.cores| == |n.cores|
  {
    var s := n.cores[k].active;
    var m := WithActive(n, k, Unfinished(s));
    Finish(m, Completed(s, m.cores), now)
  }

  /** removeCompleted on core k: the expired tasks fail, the completed allocations leave. */
  function Purge(n: Node, k: nat, now: real): (r: Node)
    requires k < |n.cores|
    ensures |r.cores| == |n.cores|
  {
    Retire(FailAll(n, Expired(n.cores[k].active, now)), k, now)
  }

  /** The state getMostUrgentTaskRate leaves behind on core k. */
  function Swept(n: Node, k: nat, now: real): (r: Node)
    requires k < |n.cores|
    ensures |r.cores| == |n.cores|
    ensures forall a :: a in r.cores[k].active + r.cores[k].inFly ==> now < a.deadline
  {
    var n1 := WithActive(n, k, UpdateAll(n.cores[k].active, now));
    var n2 := Purge(n1, k, now);
    SweptLive(n1, k, now);
    FailAll(n2, Overdue(n2.cores[k].inFly, now))
  }

  lemma SweptLive(n1: Node, k: nat, now: real)
    requires k < |n1.cores|
    ensures forall a :: a in Purge(n1, k, now).cores[k].active ==> now < a.deadline && a.mips > 1.0
  {
    var dead := Expired(n1.cores[k].active, now);
    forall a | a in Purge(n1, k, now).cores[k].active
      ensures now < a.deadline
    {
      assert a in n1.cores[k].active && a.task !in dead;
    }
  }

  /** The rate getMostUrgentTaskRate returns. */
  function Urgency(c: Core, now: real): (r: real)
    requires forall a :: a in c.active + c.inFly ==> now < a.deadline
  {
    Min(MaxRate(c.active + c.inFly, now), c.available)
  }

  /** The rate setComputingRate gives a core. */
  function Pace(c: Core, now: real, dvfs: bool): real
    requires dvfs ==> forall a :: a in c.active + c.inFly ==> now < a.deadline
  {
    if dvfs then Urgency(c, now) * |c.active| as real
    else if |c.active| != 0 then c.available else 0.0
  }

  /** Core c once setComputingRate has shared its rate out equally. */
  function Rated(c: Core, now: real, dvfs: bool): Core
    requires dvfs ==> forall a :: a in c.active + c.inFly ==> now < a.deadline
  {
    var cur := Pace(c, now, dvfs);
    c.(current := cur, active := RateAll(c.active, now, cur))
  }

  /** setComputingRate on core k. */
  function SetRate(n: Node, k: nat, now: real): (r: Node)
    requires k < |n.cores|
    ensures |r.cores| == |n.cores|
  {
    var n1 := if n.dvfs then Swept(n, k, now) else n;
    n1.(cores := n1.cores[k := Rated(n1.cores[k], now, n.dvfs)])
  }

  /** updateTskList on core k; the result also tells the delay it asks the provider to wait. */
  function Refresh(n: Node, k: nat, now: real): (r: (Node, Option<real>))
    requires k < |n.cores|
    ensures |r.0.cores| == |n.cores|
  {
    var c := n.cores[k];
    if c.active == [] then (n, None) else
    var n1 := WithActive(n, k, RateAll(c.active, now, c.current));
    var n2 := SetRate(Purge(n1, k, now), k, now);
    (n2, SoonestExec(n2.cores[k].active))
  }

  /** nextEvent: reschedule unless an earlier event is still ahead. */
  function NextEvent(tm: Timer, now: real, delay: real): Timer {
    var e := if tm.eventTime.Some? && now >= tm.eventTime.value then None else tm.eventTime;
    if e.Some? && now + delay >= e.value then tm.(eventTime := e)
    else Timer(Some(now + delay), Some(now + delay))
  }

  function Schedule(tm: Timer, now: real, delay: Option<real>): Timer {
    if delay.None? then tm else NextEvent(tm, now, delay.value)
  }

  /** The in-fly allocations of task t on core k begin to run. */
  function StartOn(n: Node, k: nat, now: real, t: nat): (r: Node)
    requires k < |n.cores|
    ensures |r.cores| == |n.cores|
  {
    var c := n.cores[k];
    n.(cores := n.cores[k := c.(active := c.active + Starting(c.inFly, t, now),
                                inFly := Drop(c.inFly, {t}))])
  }

  /** One core's turn: start the given task there, if any, then refresh. */
  function Turn(n: Node, k: nat, now: real, start: Option<nat>): (r: (Node, Option<real>))
    requires k < |n.cores|
    ensures |r.0.cores| == |n.cores|
  {
    Refresh(if start.Some? then StartOn(n, k, now, start.value) else n, k, now)
  }

  /** Every core from k on has its turn. */
  function RunCores(n: Node, tm: Timer, k: nat, now: real, start: Option<nat>): (r: (Node, Timer))
    requires k <= |n.cores|
    ensures |r.0.cores| == |n.cores|
    decreases |n.cores| - k
  {
    if k == |n.cores| then (n, tm) else
    var (n1, delay) := Turn(n, k, now, start);
    RunCores(n1, Schedule(tm, now, delay), k + 1, now, start)
  }

  // ---------- admission ----------

  function Load(c: Core): nat {
    |c.active| + |c.inFly|
  }

  /** So many allocations, all running at the given rate, fit on a core. */
  predicate Within(rate: real, count: nat, available: real) {
    rate * count as real <= available
  }

  /** The admission test: the most urgent rate, the newcomer's included, times their number. */
  predicate Admits(c: Core, a: Alloc, now: real)
    requires now < a.deadline && forall b :: b in c.active + c.inFly ==> now < b.deadline
  {
    Within(Max(Required(a, now), Urgency(c, now)), Load(c) + 1, c.available)
  }

  function Assign(n: Node, k: nat, a: Alloc): (r: Node)
    requires k < |n.cores|
    ensures |r.cores| == |n.cores|
  {
    n.(cores := n.cores[k := n.cores[k].(inFly := n.cores[k].inFly + [a])])
  }

  /** First core from k on that passes the admission test for allocation a. */
  function PlaceFrom(n: Node, a: Alloc, now: real, k: nat): (r: (Node, bool))
    requires k <= |n.cores| && now < a.deadline
    ensures |r.0.cores| == |n.cores|
    decreases |n.cores| - k
  {
    if k == |n.cores| then (n, false) else
    var n1 := Swept(n, k, now);
    if Admits(n1.cores[k], a, now) then (Assign(n1, k, a), true) else PlaceFrom(n1, a, now, k + 1)
  }

  /** releaseAllTaskAllocs: off every core, with no other consequence. */
  function Withdraw(n: Node, t: nat): (r: Node)
    ensures |r.cores| == |n.cores|
  {
    n.(cores := DropFrom(n.cores, {t}))
  }

  function PlaceAllocs(n: Node, t: Task, now: real, i: nat): (r: (Node, bool))
    requires i <= |t.loads| && now < t.deadline
    ensures |r.0.cores| == |n.cores|
    decreases |t.loads| - i
  {
    if i == |t.loads| then (n, true) else
    var (n1, ok) := PlaceFrom(n, Fresh(t, i), now, 0);
    if ok then PlaceAllocs(n1, t, now, i + 1) else (Withdraw(n1, t.id), false)
  }

  /** trySchedulingTsk; fits is the outcome of tryToAllocate, the subject of module Allocation. */
  function TrySchedule(n: Node, t: Task, now: real, fits: bool): (r: (Node, bool))
    requires now < t.deadline
    ensures |r.0.cores| == |n.cores|
  {
    if fits then PlaceAllocs(n, t, now, 0) else (n, false)
  }

  /** testSchedulingPossibility: try, and undo what the attempt placed. */
  function Probe(n: Node, t: Task, now: real, fits: bool): (r: (Node, bool))
    requires now < t.deadline
    ensures |r.0.cores| == |n.cores|
  {
    var (n1, ok) := TrySchedule(n, t, now, fits);
    (if ok then Withdraw(n1, t.id) else n1, ok)
  }

  /** recv of a task; scheduled tells whether it was placed when it was dispatched. */
  function Receive(n: Node, tm: Timer, t: Task, now: real, scheduled: bool, fitsProbe: bool, fits: bool)
    : (r: (Node, Timer))
    requires !scheduled ==> now < t.deadline
    ensures |r.0.cores| == |n.cores|
  {
    var (n1, ok) := if scheduled then (n, true) else TrySchedule(n, t, now, fitsProbe);
    if ok && fits then RunCores(n1.(holding := n1.holding + {t.id}), tm, 0, now, Some(t.id))
    else (FailAll(n1, {t.id}), tm)
  }

  /** handle: the provider's event has fired. */
  function Handle(n: Node, tm: Timer, now: real): (r: (Node, Timer))
    ensures |r.0.cores| == |n.cores|
  {
    RunCores(n, tm, 0, now, None)
  }

  // ---------- definitions in steps ----------

  lemma PurgeIs(n: Node, k: nat, now: real)
    requires k < |n.cores|
    ensures Purge(n, k, now) == Retire(FailAll(n, Expired(n.cores[k].active, now)), k, now)
  {}

  lemma SweptIs(n: Node, k: nat, now: real)
    requires k < |n.cores|
    ensures var n2 := Purge(WithActive(n, k, UpdateAll(n.cores[k].active, now)), k, now);
      Swept(n, k, now) == FailAll(n2, Overdue(n2.cores[k].inFly, now))
  {}

  lemma SetRateIs(n: Node, k: nat, now: real)
    requires k < |n.cores|
    ensures var n1 := if n.dvfs then Swept(n, k, now) else n;
      SetRate(n, k, now) == n1.(cores := n1.cores[k := Rated(n1.cores[k], now, n.dvfs)])
  {}

  lemma RefreshIs(n: Node, k: nat, now: real)
    requires k < |n.cores| && n.cores[k].active != []
    ensures var c := n.cores[k];
      Refresh(n, k, now).0 == SetRate(Purge(WithActive(n, k, RateAll(c.active, now, c.current)), k, now), k, now)
  {}

  lemma PlaceFromIs(n: Node, a: Alloc, now: real, k: nat)
    requires k <= |n.cores| && now < a.deadline
    ensures PlaceFrom(n, a, now, k) ==
      if k == |n.cores| then (n, false) else
      var n1 := Swept(n, k, now);
      if Admits(n1.cores[k], a, now) then (Assign(n1, k, a), true) else PlaceFrom(n1, a, now, k + 1)
  {}

  lemma ReceiveIs(n: Node, tm: Timer, t: Task, now: real, scheduled: bool, fitsProbe: bool, fits: bool)
    requires !scheduled ==> now < t.deadline
    ensures var (m, ok) := if scheduled then (n, true) else TrySchedule(n, t, now, fitsProbe);
      Receive(n, tm, t, now, scheduled, fitsProbe, fits) ==
        if ok && fits then RunCores(m.(holding := m.holding + {t.id}), tm, 0, now, Some(t.id))
        else (FailAll(m, {t.id}), tm)
  {}

  lemma TurnIs(n: Node, k: nat, now: real, start: Option<nat>)
    requires k < |n.cores|
    ensures Turn(n, k, now, start) == Refresh(if start.Some? then StartOn(n, k, now, start.value) else n, k, now)
  {}

  lemma ProbeIs(n: Node, t: Task, now: real, fits: bool)
    requires now < t.deadline
    ensures var (m, ok) := TrySchedule(n, t, now, fits);
      Probe(n, t, now, fits) == (if ok then Withdraw(m, t.id) else m, ok)
  {}

  lemma HandleIs(n: Node, tm: Timer, now: real)
    ensures Handle(n, tm, now) == RunCores(n, tm, 0, now, None)
  {}

  lemma PlaceAllocsNext(n: Node, v: Task, now: real, i: nat)
    requires i < |v.loads| && now < v.deadline
    ensures var (n1, ok) := PlaceFrom(n, Fresh(v, i), now, 0);
      PlaceAllocs(n, v, now, i) == if ok then PlaceAllocs(n1, v, now, i + 1) else (Withdraw(n1, v.id), false)
  {
    hide PlaceFrom, Withdraw;
  }

  lemma PlaceAllocsEnd(n: Node, v: Task, now: real)
    requires now < v.deadline
    ensures PlaceAllocs(n, v, now, |v.loads|) == (n, true)
  {}

  lemma RunCoresNext(n: Node, tm: Timer, k: nat, now: real, start: Option<nat>)
    requires k < |n.cores|
    ensures var (n1, delay) := Turn(n, k, now, start);
      RunCores(n, tm, k, now, start) == RunCores(n1, Schedule(tm, now, delay), k + 1, now, start)
  {}

  lemma RunCoresEnd(n: Node, tm: Timer, now: real, start: Option<nat>)
    ensures RunCores(n, tm, |n.cores|, now, start) == (n, tm)
  {}
}
