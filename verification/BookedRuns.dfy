/** Cores and reservations of one provider together, over whole runs. */
module BookedRuns {
  import opened Common
  import opened Scheduling
  import opened Allocation
  import opened Reservations
  import opened Surveys
  import opened Bookings
  import opened Holdings
  import Simulation
  import Endings

  /** A provider with its event timer and its books; owners tells which consumer is which task. */
  datatype Desk = Desk(sys: Simulation.Sys, books: Books, owners: seq<Option<nat>>)

  /**
   The events of a provider; whether memory and storage fit is now for the books to say.  Book is a VM or a
   migration that reserves or returns, or a task whose computing demand shrinks as it runs.
   */
  datatype Event =
    | Advance(dt: real)
    | Fire
    | Test(task: Task, c: Consumer)
    | Dispatch(task: Task, c: Consumer)
    | Arrive(task: Task, j: nat)
    | Resize(k: nat, mips: real)
    | Book(e: Reservations.Event)

  predicate DeskOk(d: Desk) {
    Sane(d.books) && |d.owners| == |d.books.consumers|
  }

  /** Whether consumer c could reserve. */
  function Fits(b: Books, c: Consumer): bool
    requires Sane(b) && Asks(c)
  {
    TryAllocate(b.slots, b.free, c).2
  }

  /** The books once the cores have gone from the one set of tasks in progress to the other. */
  function Returned(d: Desk, books: Books, holding: set<nat>, left: set<nat>): (r: Books)
    requires Sane(books) && |d.owners| == |books.consumers|
    ensures Sane(r) && r.slots == books.slots && |r.consumers| == |books.consumers|
  {
    Settle(books, d.owners, holding - left, 0)
  }

  /** A consumer that has nothing reserved stays as it is. */
  lemma {:induction false} SettleLeaves(b: Books, owners: seq<Option<nat>>, gone: set<nat>, k: nat, j: nat)
    requires Sane(b) && |owners| == |b.consumers| && k <= |owners| && j < |owners| && Asks(b.consumers[j])
    ensures Settle(b, owners, gone, k).consumers[j] == b.consumers[j]
    decreases |owners| - k
  {
    if k < |owners| {
      ReleaseNothing(b.free, b.consumers[j]);
      SettleLeaves(if Gone(owners[k], gone) then Reservations.Step(b, Return(k)) else b, owners, gone, k + 1, j);
    }
  }

  /** An arriving task is one of the consumers, has nothing reserved, and is tested unless it was dispatched. */
  predicate Arrives(d: Desk, t: Task, j: nat)
    requires DeskOk(d)
  {
    && j < |d.owners| && d.owners[j] == Some(t.id) && Asks(d.books.consumers[j])
    && (t.id !in d.sys.known ==> d.sys.now < t.deadline)
  }

  /** recv, first half: a task that has not been dispatched is placed now. */
  function Placed(d: Desk, t: Task, j: nat): (Node, bool)
    requires DeskOk(d) && Arrives(d, t, j)
  {
    if t.id in d.sys.known then (d.sys.node, true)
    else TrySchedule(d.sys.node, t, d.sys.now, Fits(d.books, d.books.consumers[j]))
  }

  /** The books when the arriving task reserves. */
  function Before(d: Desk, t: Task, j: nat): (r: Books)
    requires DeskOk(d) && Arrives(d, t, j)
    ensures Sane(r) && r.slots == d.books.slots && |r.consumers| == |d.books.consumers|
    ensures r.consumers[j] == d.books.consumers[j]
  {
    SettleLeaves(d.books, d.owners, d.sys.node.holding - Placed(d, t, j).0.holding, 0, j);
    Returned(d, d.books, d.sys.node.holding, Placed(d, t, j).0.holding)
  }

  predicate Enabled(d: Desk, e: Event) {
    DeskOk(d) &&
    match e
    case Advance(dt) => Simulation.Enabled(d.sys, Simulation.Advance(dt))
    case Fire => Simulation.Enabled(d.sys, Simulation.Fire)
    case Test(t, c) => Simulation.IsNew(d.sys, t) && Asks(c)
    case Dispatch(t, c) => Simulation.IsNew(d.sys, t) && Asks(c)
    case Arrive(t, j) => Arrives(d, t, j)
      && Simulation.Enabled(d.sys, Simulation.Arrive(t, true, true))
    case Resize(k, mips) => Simulation.Enabled(d.sys, Simulation.Resize(k, mips))
    case Book(e) => Reservations.Enabled(d.books, e) && (e.Work? || d.owners[e.k].None?)
  }

  /** The event as the cores see it. */
  function Seen(d: Desk, e: Event): (r: Simulation.Event)
    requires Enabled(d, e) && !e.Book?
    ensures Simulation.Enabled(d.sys, r)
  {
    match e
    case Advance(dt) => Simulation.Advance(dt)
    case Fire => Simulation.Fire
    case Test(t, c) => Simulation.Test(t, Fits(d.books, c))
    case Dispatch(t, c) => Simulation.Dispatch(t, Fits(d.books, c))
    case Arrive(t, j) =>
      var b := Before(d, t, j);
      Simulation.Arrive(t, Fits(d.books, d.books.consumers[j]), Fits(b, b.consumers[j]))
    case Resize(k, mips) => Simulation.Resize(k, mips)
  }

  /** recv, second half: the task reserves, starts, and whatever has ended meanwhile returns what it held. */
  function Booked(d: Desk, t: Task, j: nat, left: set<nat>): (r: Books)
    requires DeskOk(d) && Arrives(d, t, j)
    ensures Sane(r) && r.slots == d.books.slots && |r.consumers| == |d.books.consumers|
  {
    var (n, ok) := Placed(d, t, j);
    var b := Before(d, t, j);
    if ok && Fits(b, b.consumers[j]) then Returned(d, Reservations.Step(b, Allocate(j)), n.holding + {t.id}, left)
    else b
  }

  function Step(d: Desk, e: Event): (r: Desk)
    requires Enabled(d, e)
    ensures DeskOk(r) && r.owners == d.owners
  {
    if e.Book? then d.(books := Reservations.Step(d.books, e.e)) else
    var sys := Simulation.Step(d.sys, Seen(d, e));
    Desk(sys,
         if e.Arrive? then Booked(d, e.task, e.j, sys.node.holding)
         else Returned(d, d.books, d.sys.node.holding, sys.node.holding),
         d.owners)
  }

  predicate Coheres(d: Desk) {
    DeskOk(d) && Single(d.owners) && Agree(d.sys.node.holding, d.books, d.owners)
  }

  // ---------- every step keeps the books in agreement ----------

  /** A consumer that could reserve has nothing reserved. */
  lemma AsksNone(slots: seq<Slot>, c: Consumer)
    requires c.isTask && (HoldsAll(slots, c) || HoldsNone(c)) && Asks(c)
    ensures HoldsNone(c)
  {
    forall d | d in c.demands
      ensures Vacant(d)
    {
      if d.kind == Memory || d.kind == Storage {
        assert d == Cleared(d);
      }
    }
  }

  /** The task of consumer j reserves: everything it demands is reserved. */
  lemma ReserveAgrees(b: Books, owners: seq<Option<nat>>, holding: set<nat>, j: nat)
    requires Balanced(b) && |owners| == |b.consumers| && Agree(holding, b, owners) && Single(owners)
    requires j < |owners| && owners[j].Some? && Asks(b.consumers[j]) && Fits(b, b.consumers[j])
    ensures var r := Reservations.Step(b, Allocate(j));
      Balanced(r) && |r.consumers| == |owners| && Agree(holding + {owners[j].value}, r, owners)
  {
    var c := b.consumers[j];
    StepBalanced(b, Allocate(j));
    AsksNone(b.slots, c);
    SuccessMeans(b.slots, b.free, c);
    var e := TryAllocate(b.slots, b.free, c).1;
    forall d | d in e.demands
      ensures if d.kind == Memory || d.kind == Storage then OnItsType(b.slots, d) else Vacant(d)
    {
      var i :| 0 <= i < |e.demands| && e.demands[i] == d;
      assert c.demands[i] in c.demands;
    }
    hide TryAllocate, Balanced, Asks, HoldsNone;
    assert HoldsAll(b.slots, e);
    hide HoldsAll;
  }

  /** The task of consumer j, which has nothing reserved, is turned away. */
  lemma TurnedAwayAgrees(b: Books, owners: seq<Option<nat>>, holding: set<nat>, j: nat)
    requires |owners| == |b.consumers| && Agree(holding, b, owners) && Single(owners)
    requires j < |owners| && owners[j].Some? && Asks(b.consumers[j])
    ensures Agree(holding - {owners[j].value}, b, owners)
  {
    AsksNone(b.slots, b.consumers[j]);
    hide HoldsAll, HoldsNone, Asks;
  }

  lemma ArriveCoheres(d: Desk, t: Task, j: nat)
    requires Coheres(d) && Balanced(d.books) && Enabled(d, Arrive(t, j))
    ensures var r := Step(d, Arrive(t, j)); Coheres(r) && Balanced(r.books)
  {
    var (n, ok) := Placed(d, t, j);
    var b := Before(d, t, j);
    var fits := Fits(b, b.consumers[j]);
    var s := d.sys;
    var fitsProbe := Fits(d.books, d.books.consumers[j]);
    assert n.holding <= s.node.holding by {
      if t.id !in s.known {
        ProbeReturns(s.node, t, s.now, fitsProbe);
      }
    }
    SettleAgrees(d.books, d.owners, s.node.holding, n.holding);
    ReceiveIs(s.node, s.timer, t, s.now, t.id in s.known, fitsProbe, fits);
    var left := Step(d, Arrive(t, j)).sys.node.holding;
    hide Receive, Settle, TrySchedule, Balanced, Fits, Agree, HoldsAll, HoldsNone;
    if ok && fits {
      ReserveAgrees(b, d.owners, n.holding, j);
      RunCoresReturns(n.(holding := n.holding + {t.id}), s.timer, 0, s.now, Some(t.id));
      SettleAgrees(Reservations.Step(b, Allocate(j)), d.owners, n.holding + {t.id}, left);
    } else {
      TurnedAwayAgrees(b, d.owners, n.holding, j);
    }
  }

  lemma BookCoheres(d: Desk, e: Reservations.Event)
    requires Coheres(d) && Balanced(d.books) && Enabled(d, Book(e))
    ensures Coheres(Step(d, Book(e))) && Balanced(Step(d, Book(e)).books)
  {
    StepBalanced(d.books, e);
    var r := Reservations.Step(d.books, e);
    hide Balanced;
    if e.Work? {
      var c, c1 := d.books.consumers[e.k], r.consumers[e.k];
      assert forall i | 0 <= i < |c.demands| ::
          c.demands[i] in c.demands && c1.demands[i].location == c.demands[i].location;
    }
  }

  lemma StepCoheres(d: Desk, e: Event)
    requires Coheres(d) && Balanced(d.books) && Enabled(d, e)
    ensures Coheres(Step(d, e)) && Balanced(Step(d, e).books)
  {
    if e.Arrive? {
      ArriveCoheres(d, e.task, e.j);
    } else if e.Book? {
      BookCoheres(d, e.e);
    } else {
      StepReturns(d.sys, Seen(d, e));
      hide Settle, Balanced, Agree, Simulation.Step;
      SettleAgrees(d.books, d.owners, d.sys.node.holding, Step(d, e).sys.node.holding);
    }
  }

  predicate Valid(d: Desk, run: seq<Event>)
    decreases |run|
  {
    run == [] || (Enabled(d, run[0]) && Valid(Step(d, run[0]), run[1..]))
  }

  function Run(d: Desk, run: seq<Event>): (r: Desk)
    requires Valid(d, run)
    ensures r.owners == d.owners
    decreases |run|
  {
    if run == [] then d else Run(Step(d, run[0]), run[1..])
  }

  /** The run as the cores see it. */
  function SeenAll(d: Desk, run: seq<Event>): (r: seq<Simulation.Event>)
    requires Valid(d, run)
    decreases |run|
  {
    if run == [] then [] else
    (if run[0].Book? then [] else [Seen(d, run[0])]) + SeenAll(Step(d, run[0]), run[1..])
  }

  /** To the cores the run is one of module Simulation. */
  lemma {:induction false} SameRun(d: Desk, run: seq<Event>)
    requires Valid(d, run)
    ensures Simulation.Valid(d.sys, SeenAll(d, run)) && Run(d, run).sys == Simulation.Run(d.sys, SeenAll(d, run))
    decreases |run|
  {
    hide Enabled, Seen, Step;
    if run != [] {
      SameRun(Step(d, run[0]), run[1..]);
      StepSeen(d, run[0]);
      var rest := SeenAll(Step(d, run[0]), run[1..]);
      if run[0].Book? {
        assert [] + rest == rest;
      } else {
        assert ([Seen(d, run[0])] + rest)[1..] == rest;
      }
    }
  }

  lemma StepSeen(d: Desk, e: Event)
    requires Enabled(d, e)
    ensures Step(d, e).sys == if e.Book? then d.sys else Simulation.Step(d.sys, Seen(d, e))
  {}

  lemma {:induction false} RunCoheres(d: Desk, run: seq<Event>)
    requires Coheres(d) && Balanced(d.books) && Valid(d, run)
    ensures Coheres(Run(d, run)) && Balanced(Run(d, run).books)
    decreases |run|
  {
    hide Enabled, Step, Coheres, Balanced;
    if run != [] {
      StepCoheres(d, run[0]);
      RunCoheres(Step(d, run[0]), run[1..]);
    }
  }

  /** Nothing has happened, and nothing is reserved. */
  ghost predicate Unused(d: Desk) {
    && Simulation.Initial(d.sys) && DeskOk(d) && Single(d.owners) && Reservations.Unused(d.books)
    && forall k | 0 <= k < |d.owners| && d.owners[k].Some? ::
         d.books.consumers[k].isTask && HoldsNone(d.books.consumers[k])
  }

  /**
   Reservations last exactly as long as the work.  In every run, reservations tried against what is free
   at that moment: for the consumer of a task that runs, all the memory and storage it demands is reserved,
   and for that of any other nothing is, unless it had failed in flight and was started all the same; and
   free capacity plus what is reserved is the specification throughout.
   */
  lemma ReservedWhileRunning(d0: Desk, run: seq<Event>, k: nat)
    requires Unused(d0) && Valid(d0, run) && k < |d0.owners| && d0.owners[k].Some?
    ensures var d, u := Run(d0, run), d0.owners[k].value;
      && Balanced(d.books) && k < |d.books.consumers|
      && Simulation.Valid(d0.sys, SeenAll(d0, run)) && d.sys == Simulation.Run(d0.sys, SeenAll(d0, run))
      && if Endings.Active(d.sys.node, u) || u in Endings.Late(d0.sys, SeenAll(d0, run))
         then HoldsAll(d.books.slots, d.books.consumers[k]) else HoldsNone(d.books.consumers[k])
  {
    hide *;
    SameRun(d0, run);
    UnusedCoheres(d0);
    RunCoheres(d0, run);
    UnusedInitial(d0);
    Endings.OneEnding(d0.sys, SeenAll(d0, run));
    CoheresAt(Run(d0, run), k);
  }

  lemma UnusedInitial(d: Desk)
    requires Unused(d)
    ensures Simulation.Initial(d.sys)
  {}

  lemma UnusedCoheres(d: Desk)
    requires Unused(d)
    ensures Coheres(d) && Balanced(d.books)
  {
    UnusedIsBalanced(d.books);
  }

  lemma CoheresAt(d: Desk, k: nat)
    requires Coheres(d) && k < |d.owners| && d.owners[k].Some?
    ensures k < |d.books.consumers|
    ensures if d.owners[k].value in d.sys.node.holding then HoldsAll(d.books.slots, d.books.consumers[k])
            else HoldsNone(d.books.consumers[k])
  {}

  /**
   A task whose reservation is tested is told whether there is room; and with at most one demand of each
   type a task that arrives and is placed is never turned away for want of room, whatever ended meanwhile.
   */
  lemma ArrivalReserves(d: Desk, t: Task, j: nat)
    requires Coheres(d) && Balanced(d.books) && Enabled(d, Arrive(t, j))
    requires OnePerKind(true, d.books.consumers[j].demands)
    ensures Seen(d, Arrive(t, j)).fitsProbe <==> TryAllocate(d.books.slots, d.books.free, d.books.consumers[j]).2
    ensures Seen(d, Arrive(t, j)).fitsProbe ==> Seen(d, Arrive(t, j)).fits
  {
    var c := d.books.consumers[j];
    hide TryAllocate, Balanced, Settle, Asks;
    if TryAllocate(d.books.slots, d.books.free, c).2 {
      PlacedIsReserved(Site(d.sys.node, d.books, d.owners), c, d.sys.node.holding - Placed(d, t, j).0.holding);
    }
  }
}
