/** The events that reach one provider, and its state after any run of them. */
module Simulation {
  import opened Common
  import opened Scheduling

  /**
   - Advance: the simulator's clock moves on, never past a queued event.
   - Fire: the provider's queued event is handled.
   - Test: a placement policy tests the provider for a task (place and undo).
   - Dispatch: a placement policy places the task while it still has to travel.
   - Arrive: the task's last packet arrives.
   - Resize: a VM is hosted on core k or leaves it, or a migration reserves or returns a part of it; the
     rate available to the core's own tasks is another one, and nothing is rescheduled.
   */
  datatype Event =
    | Advance(dt: real)
    | Fire
    | Test(task: Task, fitsProbe: bool)
    | Dispatch(task: Task, fitsProbe: bool)
    | Arrive(task: Task, fitsProbe: bool, fits: bool)
    | Resize(k: nat, mips: real)

  /** known: the tasks placed or received here; flying: placed, not yet received; admitted: started here. */
  datatype Sys = Sys(now: real, node: Node, timer: Timer, known: map<nat, Task>, flying: set<nat>,
                     admitted: set<nat>)

  predicate IsNew(s: Sys, t: Task) {
    t.id !in s.known && s.now < t.deadline && |t.loads| > 0
  }

  predicate Enabled(s: Sys, e: Event) {
    match e
    case Advance(dt) => dt >= 0.0 && (s.timer.pending.Some? ==> s.now + dt <= s.timer.pending.value)
    case Fire => s.timer.pending == Some(s.now)
    case Test(t, _) => IsNew(s, t)
    case Dispatch(t, _) => IsNew(s, t)
    case Resize(k, mips) => k < |s.node.cores| && mips >= 0.0
    case Arrive(t, _, _) => IsNew(s, t) || (t.id in s.flying && t.id in s.known && s.known[t.id] == t)
  }

  /** Whether the task of an arrival is started rather than failed. */
  predicate Accepts(s: Sys, e: Event)
    requires e.Arrive? && Enabled(s, e)
  {
    e.fits && (e.task.id in s.flying || e.task.id in s.known || TrySchedule(s.node, e.task, s.now, e.fitsProbe).1)
  }

  function Resized(n: Node, k: nat, mips: real): Node
    requires k < |n.cores|
  {
    n.(cores := n.cores[k := n.cores[k].(available := mips)])
  }

  function Step(s: Sys, e: Event): Sys
    requires Enabled(s, e)
  {
    match e
    case Advance(dt) => s.(now := s.now + dt)
    case Fire =>
      var (n, tm) := Handle(s.node, s.timer.(pending := None), s.now);
      s.(node := n, timer := tm)
    case Resize(k, mips) => s.(node := Resized(s.node, k, mips))
    case Test(t, fitsProbe) => s.(node := Probe(s.node, t, s.now, fitsProbe).0)
    case Dispatch(t, fitsProbe) =>
      var (n, ok) := TrySchedule(s.node, t, s.now, fitsProbe);
      if ok then s.(node := n, known := s.known[t.id := t], flying := s.flying + {t.id})
      else s.(node := n)
    case Arrive(t, fitsProbe, fits) =>
      var (n, tm) := Receive(s.node, s.timer, t, s.now, t.id in s.known, fitsProbe, fits);
      Sys(s.now, n, tm, s.known[t.id := t], s.flying - {t.id},
          if Accepts(s, e) then s.admitted + {t.id} else s.admitted)
  }

  predicate Valid(s: Sys, run: seq<Event>)
    decreases |run|
  {
    run == [] || (Enabled(s, run[0]) && Valid(Step(s, run[0]), run[1..]))
  }

  function Run(s: Sys, run: seq<Event>): Sys
    requires Valid(s, run)
    decreases |run|
  {
    if run == [] then s else Run(Step(s, run[0]), run[1..])
  }

  /** A provider at the start: no tasks, no event, no negative capacity, and nothing runs. */
  predicate Initial(s: Sys) {
    && s.timer == Timer(None, None)
    && s.known == map[] && s.flying == {} && s.admitted == {}
    && s.node.finished == map[] && s.node.outputs == 0
    && s.node.failed == {} && s.node.failures == 0 && s.node.holding == {}
    && forall c :: c in s.node.cores ==> c.available >= 0.0 && c.current == 0.0 && c.active == [] && c.inFly == []
  }
}
