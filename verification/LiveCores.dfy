/**
 The load of a tree of cores that all have their own history: tasks come and go on each, and virtual cores
 and migrations take and give back a part of its rate while they run.
 */
module LiveCores {
  import opened Common
  import opened NestedLoad
  import opened AvailableRates
  import Arithmetic
  import Scheduling
  import Simulation
  import Admission
  import Deadlines
  import Endings
  import Shares

  /** Core k of a provider, in the state sys that its own events have led to, and the virtual cores it hosts. */
  datatype Live = Live(sys: Simulation.Sys, k: nat, nominal: real, withheld: real, hosted: seq<Live>)

  predicate Sited(l: Live) {
    && l.k < |l.sys.node.cores| && l.sys.node.cores[l.k].available >= 0.0
    && forall i | 0 <= i < |l.hosted| :: Sited(l.hosted[i])
  }

  function Available(l: Live): real
    requires Sited(l)
  {
    l.sys.node.cores[l.k].available
  }

  function Current(l: Live): real
    requires Sited(l)
  {
    l.sys.node.cores[l.k].current
  }

  /** What a live tree looks like to getCurrentMIPSRecursive. */
  function LoadOf(l: Live): (c: Core)
    requires Sited(l)
    ensures |c.hosted| == |l.hosted| && forall i | 0 <= i < |l.hosted| :: c.hosted[i] == LoadOf(l.hosted[i])
  {
    Core(l.nominal, Available(l), Current(l), l.withheld,
         seq(|l.hosted|, i requires 0 <= i < |l.hosted| => LoadOf(l.hosted[i])))
  }

  /**
   - Work: an event of the provider that the core belongs to; hosting on its other cores included.
   - Withhold, Restore: a migration reserves and returns a part of the core.
   - Host, Unhost: a virtual core, with its own history, comes and goes.
   */
  datatype Move = Work(e: Simulation.Event) | Withhold(x: real) | Restore(x: real) | Host(v: Live) | Unhost(i: nat)

  predicate Possible(l: Live, path: seq<nat>, m: Move)
    decreases |path|
  {
    && Sited(l)
    && if path != [] then path[0] < |l.hosted| && Possible(l.hosted[path[0]], path[1..], m) else
       match m
       case Work(e) => Simulation.Enabled(l.sys, e) && !(e.Resize? && e.k == l.k)
       case Withhold(x) => 0.0 <= x <= Available(l)
       case Restore(x) => 0.0 <= x <= l.withheld
       case Host(v) => Sited(v) && 0.0 <= v.nominal <= Available(l)
       case Unhost(i) => i < |l.hosted| && l.hosted[i].nominal >= 0.0
  }

  /** What is then available to the core's own tasks. */
  function Left(l: Live, m: Move): real
    requires Possible(l, [], m)
  {
    match m
    case Work(_) => Available(l)
    case Withhold(x) => Available(l) - x
    case Restore(x) => Available(l) + x
    case Host(v) => Available(l) - v.nominal
    case Unhost(i) => Available(l) + l.hosted[i].nominal
  }

  /** What happens to the provider of the core: an event of its own, or the core has another rate available. */
  function EventOf(l: Live, m: Move): Simulation.Event
    requires Possible(l, [], m)
  {
    if m.Work? then m.e else Simulation.Resize(l.k, Left(l, m))
  }

  lemma Happens(l: Live, m: Move)
    requires Possible(l, [], m)
    ensures Simulation.Enabled(l.sys, EventOf(l, m))
    ensures var s := Simulation.Step(l.sys, EventOf(l, m));
      |s.node.cores| == |l.sys.node.cores| && s.node.cores[l.k].available == Left(l, m) >= 0.0
  {
    assert Simulation.Enabled(l.sys, EventOf(l, m));
    StepRates(l.sys, EventOf(l, m));
    hide Simulation.Step;
  }

  function DoHere(l: Live, m: Move): (r: Live)
    requires Possible(l, [], m)
    ensures Sited(r) && r.nominal == l.nominal
  {
    Happens(l, m);
    var s := Simulation.Step(l.sys, EventOf(l, m));
    match m
    case Work(_) => l.(sys := s)
    case Withhold(x) => l.(sys := s, withheld := l.withheld + x)
    case Restore(x) => l.(sys := s, withheld := l.withheld - x)
    case Host(v) => l.(sys := s, hosted := l.hosted + [v])
    case Unhost(i) => l.(sys := s, hosted := l.hosted[..i] + l.hosted[i + 1..])
  }

  function Do(l: Live, path: seq<nat>, m: Move): (r: Live)
    requires Possible(l, path, m)
    ensures Sited(r) && r.nominal == l.nominal
    decreases |path|
  {
    if path == [] then DoHere(l, m) else l.(hosted := l.hosted[path[0] := Do(l.hosted[path[0]], path[1..], m)])
  }

  // ---------- what every history keeps ----------

  /** The provider has kept the admission invariant so far. */
  ghost predicate Ruled(s: Simulation.Sys) {
    exists late: set<nat>, rejected: nat :: Deadlines.Inv(s, late, true) && Endings.Inv(s, late, rejected)
  }

  ghost predicate AllRuled(l: Live) {
    Ruled(l.sys) && forall i | 0 <= i < |l.hosted| :: AllRuled(l.hosted[i])
  }

  /** Everywhere in the tree the invariant was kept and what a core is worth is accounted for. */
  ghost predicate Sound(l: Live) {
    Sited(l) && AllRuled(l) && Accounted(LoadOf(l))
  }

  /**
   Tasks are placed on arrival; and hosting and reserving take only what the tasks that run can spare and
   do not run at already.  What is given back never does any harm.
   */
  ghost predicate Fair(l: Live, path: seq<nat>, m: Move)
    requires Possible(l, path, m)
    decreases |path|
  {
    if path != [] then Fair(l.hosted[path[0]], path[1..], m) else
    var e := EventOf(l, m);
    && !e.Dispatch? && (m.Host? ==> Sound(m.v))
    && (m.Restore? || m.Unhost? || (Deadlines.Timely(l.sys, e) && Deadlines.Gentle(l.sys, e)))
  }

  /** More rate is always timely. */
  lemma MoreIsFair(s: Simulation.Sys, k: nat, mips: real, late: set<nat>)
    requires Deadlines.Inv(s, late, true) && k < |s.node.cores| && mips >= s.node.cores[k].available
    ensures Deadlines.Timely(s, Simulation.Resize(k, mips)) && Deadlines.Gentle(s, Simulation.Resize(k, mips))
  {
    var c := s.node.cores[k];
    assert Deadlines.CoreInv(c, Deadlines.At(s, true), s.timer);
    forall a | a in c.active
      ensures Admission.Affordable(a, |c.active|, mips, s.now)
    {
      assert Admission.Affordable(a, Admission.Due(c, None), c.available, s.now);
      MoreAffordable(a, |c.active|, c.available, mips, s.now);
    }
  }

  lemma MoreAffordable(a: Scheduling.Alloc, n: nat, m: real, more: real, now: real)
    requires Admission.Affordable(a, n, m, now) && m <= more
    ensures Admission.Affordable(a, n, more, now)
  {
    var d := a.deadline - now;
    Arithmetic.Scale(m, more, d);
    assert d * m == m * d && d * more == more * d;
  }

  /** What happens to the provider is an event that the admission invariant survives. */
  lemma FairEvent(l: Live, m: Move, late: set<nat>)
    requires Sited(l) && Deadlines.Inv(l.sys, late, true) && Possible(l, [], m) && Fair(l, [], m)
    ensures var e := EventOf(l, m);
      && Simulation.Enabled(l.sys, e) && Deadlines.Timely(l.sys, e) && Deadlines.Gentle(l.sys, e) && !e.Dispatch?
      && DoHere(l, m).sys == Simulation.Step(l.sys, e)
  {
    hide Deadlines.Inv, Simulation.Step, Simulation.Enabled, Deadlines.Timely, Deadlines.Gentle;
    Happens(l, m);
    if m.Restore? || m.Unhost? {
      MoreIsFair(l.sys, l.k, Left(l, m), late);
    }
  }

  lemma RuledOn(l: Live, m: Move)
    requires Sited(l) && Ruled(l.sys) && Possible(l, [], m) && Fair(l, [], m)
    ensures Ruled(DoHere(l, m).sys)
  {
    var late: set<nat>, rejected: nat :| Deadlines.Inv(l.sys, late, true) && Endings.Inv(l.sys, late, rejected);
    hide *;
    FairEvent(l, m, late);
    RuledStep(l.sys, EventOf(l, m), late, rejected);
  }

  lemma RuledStep(s: Simulation.Sys, e: Simulation.Event, late: set<nat>, rejected: nat)
    requires Deadlines.Inv(s, late, true) && Endings.Inv(s, late, rejected)
    requires Simulation.Enabled(s, e) && Deadlines.Timely(s, e) && Deadlines.Gentle(s, e) && !e.Dispatch?
    ensures Ruled(Simulation.Step(s, e))
  {
    hide *;
    Deadlines.StepKeepsInv(s, e, true, late, rejected);
    Endings.StepSound(s, e, late, rejected);
    RuledBy(Simulation.Step(s, e), late + Endings.LateNow(s, e), rejected + Endings.RejectedNow(s, e));
  }

  lemma RuledBy(s: Simulation.Sys, late: set<nat>, rejected: nat)
    requires Deadlines.Inv(s, late, true) && Endings.Inv(s, late, rejected)
    ensures Ruled(s)
  {
    hide Deadlines.Inv, Endings.Inv;
  }

  /** A core that was ruled runs within what is available to its tasks. */
  lemma RuledPaced(s: Simulation.Sys, k: nat)
    requires Ruled(s) && k < |s.node.cores|
    ensures 0.0 <= s.node.cores[k].current <= s.node.cores[k].available
  {
    var late: set<nat>, rejected: nat :| Deadlines.Inv(s, late, true) && Endings.Inv(s, late, rejected);
    hide Deadlines.Inv, Endings.Inv;
    Shares.InvPaced(s, late, k);
  }

  lemma {:induction false} RuledIsModest(l: Live)
    requires Sited(l) && AllRuled(l)
    ensures Modest(LoadOf(l))
  {
    RuledPaced(l.sys, l.k);
    forall i | 0 <= i < |l.hosted|
      ensures Modest(LoadOf(l).hosted[i])
    {
      RuledIsModest(l.hosted[i]);
    }
  }

  /** What the move is to the load of the core: hosting and reserving, or another rate. */
  function Seen(l: Live, m: Move): Event
    requires Possible(l, [], m)
  {
    match m
    case Work(_) => Rate(Current(DoHere(l, m)))
    case Withhold(x) => NestedLoad.Withhold(x)
    case Restore(x) => NestedLoad.Restore(x)
    case Host(v) => NestedLoad.Host(LoadOf(v))
    case Unhost(i) => NestedLoad.Unhost(i)
  }

  function SeenAt(l: Live, path: seq<nat>, m: Move): Event
    requires Possible(l, path, m)
    decreases |path|
  {
    if path == [] then Seen(l, m) else SeenAt(l.hosted[path[0]], path[1..], m)
  }

  /** Resizing a core leaves the rate it runs at. */
  lemma HostingKeepsRate(l: Live, m: Move)
    requires Possible(l, [], m) && !m.Work?
    ensures Current(DoHere(l, m)) == Current(l)
  {}

  lemma LoadHere(l: Live, m: Move)
    requires Sound(l) && Possible(l, [], m) && Fair(l, [], m)
    ensures Enabled(LoadOf(l), [], Seen(l, m)) && LoadOf(DoHere(l, m)) == Act(LoadOf(l), [], Seen(l, m))
  {
    hide Simulation.Step, Simulation.Enabled, AllRuled, Ruled, Accounted, Deadlines.Timely, Deadlines.Gentle;
    Happens(l, m);
    if m.Work? {
      SoundHere(l);
      RuledOn(l, m);
      RuledPaced(DoHere(l, m).sys, l.k);
    } else {
      HostingKeepsRate(l, m);
    }
    SoundCore(l);
    if m.Host? {
      SoundCore(m.v);
    }
    var c, r := LoadOf(l), LoadOf(DoHere(l, m));
    assert r.hosted == Act(c, [], Seen(l, m)).hosted;
  }

  lemma SoundHere(l: Live)
    requires Sound(l)
    ensures Ruled(l.sys)
  {
    hide Ruled, Accounted;
  }

  lemma SoundCore(l: Live)
    requires Sound(l)
    ensures Accounted(LoadOf(l)) && LoadOf(l).withheld >= 0.0
  {
    hide AllRuled;
  }

  /** The load of the tree changes as module NestedLoad says. */
  lemma {:induction false} LoadDoes(l: Live, path: seq<nat>, m: Move)
    requires Sound(l) && Possible(l, path, m) && Fair(l, path, m)
    ensures Enabled(LoadOf(l), path, SeenAt(l, path, m))
    ensures LoadOf(Do(l, path, m)) == Act(LoadOf(l), path, SeenAt(l, path, m))
    decreases |path|
  {
    if path == [] {
      LoadHere(l, m);
      hide Sound, Seen, DoHere;
    } else {
      var i := path[0];
      hide Sited, Accounted, AllRuled;
      SoundInside(l, i);
      LoadDoes(l.hosted[i], path[1..], m);
      LoadInside(l, i, Do(l.hosted[i], path[1..], m));
    }
  }

  lemma SoundInside(l: Live, i: nat)
    requires Sound(l) && i < |l.hosted|
    ensures Sound(l.hosted[i]) && LoadOf(l).hosted[i] == LoadOf(l.hosted[i])
  {
    assert LoadOf(l).hosted[i] == LoadOf(l.hosted[i]);
  }

  lemma LoadInside(l: Live, i: nat, h: Live)
    requires Sited(l) && i < |l.hosted| && Sited(h)
    ensures var r := l.(hosted := l.hosted[i := h]);
      Sited(r) && LoadOf(r) == LoadOf(l).(hosted := LoadOf(l).hosted[i := LoadOf(h)])
  {
    var r := l.(hosted := l.hosted[i := h]);
    assert LoadOf(r).hosted == LoadOf(l).hosted[i := LoadOf(h)];
  }

  lemma {:induction false} DoRuled(l: Live, path: seq<nat>, m: Move)
    requires Sited(l) && AllRuled(l) && Possible(l, path, m) && Fair(l, path, m)
    ensures AllRuled(Do(l, path, m))
    decreases |path|
  {
    hide Ruled;
    if path == [] {
      RuledOn(l, m);
      if m.Host? {
        assert AllRuled(m.v);
      }
    } else {
      DoRuled(l.hosted[path[0]], path[1..], m);
    }
  }

  /** Whatever fair happens at whatever depth, the tree stays sound. */
  lemma DoSound(l: Live, path: seq<nat>, m: Move)
    requires Sound(l) && Possible(l, path, m) && Fair(l, path, m)
    ensures Sound(Do(l, path, m)) && Do(l, path, m).nominal == l.nominal
  {
    DoRuled(l, path, m);
    LoadDoes(l, path, m);
    ActAccounted(LoadOf(l), path, SeenAt(l, path, m));
  }

  // ---------- whole histories ----------

  datatype At = At(path: seq<nat>, move: Move)

  ghost predicate CanLive(l: Live, run: seq<At>)
    decreases |run|
  {
    run == [] || (Possible(l, run[0].path, run[0].move) && Fair(l, run[0].path, run[0].move)
                  && CanLive(Do(l, run[0].path, run[0].move), run[1..]))
  }

  ghost function After(l: Live, run: seq<At>): Live
    requires CanLive(l, run)
    decreases |run|
  {
    if run == [] then l else After(Do(l, run[0].path, run[0].move), run[1..])
  }

  /**
   In every joint history of a tree of cores, with tasks on all of them and virtual cores and migrations
   taking and giving back rate meanwhile, as long as what is taken can be spared, the recursive rate of the
   core is within its nominal rate.
   */
  lemma {:induction false} LiveLoad(l: Live, run: seq<At>)
    requires Sound(l) && CanLive(l, run)
    ensures var r := After(l, run); Sound(r) && 0.0 <= Mips(LoadOf(r)) <= l.nominal
    decreases |run|
  {
    if run == [] {
      RuledIsModest(l);
      LoadAtMostNominal(LoadOf(l));
    } else {
      DoSound(l, run[0].path, run[0].move);
      hide Sound, Do, Possible, Fair;
      LiveLoad(Do(l, run[0].path, run[0].move), run[1..]);
    }
  }

  /** A core on which nothing has run yet is where its history begins. */
  lemma FreshIsSound(s: Simulation.Sys, k: nat)
    requires Simulation.Initial(s) && k < |s.node.cores|
    ensures Sound(Live(s, k, s.node.cores[k].available, 0.0, []))
  {
    var l := Live(s, k, s.node.cores[k].available, 0.0, []);
    assert s.node.cores[k] in s.node.cores;
    Deadlines.InitialInv(s);
    Endings.InitialInv(s);
    hide Deadlines.Inv, Endings.Inv;
    assert Ruled(s);
    assert NominalOf([]) == 0.0;
  }
}
