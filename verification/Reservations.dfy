/** All consumers of one provider together: conservation of capacity, and migration. */
module Reservations {
  import opened Common
  import opened Allocation

  /** nominal is the specification of each capacity, free what is left of it. */
  datatype Books = Books(slots: seq<Slot>, nominal: seq<real>, free: seq<real>, consumers: seq<Consumer>)

  /**
   - Allocate, Return: tryToAllocate and releaseAllocation for consumer k.
   - Work: a task's computing demand shrinks to left as the task runs.
   */
  datatype Event =
    | Allocate(k: nat)
    | Return(k: nat)
    | Work(k: nat, d: nat, i: nat, left: real)

  predicate Enabled(b: Books, e: Event) {
    && e.k < |b.consumers|
    && var c := b.consumers[e.k];
       match e
       case Allocate(_) => HoldsNothing(c.isTask, c.demands)
       case Return(_) => true
       case Work(_, d, i, left) =>
         c.isTask && d < |c.demands| && c.demands[d].kind == Computing && i < |c.demands[d].amounts| && left >= 0.0
  }

  predicate Sane(b: Books) {
    && |b.slots| == |b.nominal| == |b.free|
    && forall k | 0 <= k < |b.consumers| :: AllWellFormed(b.consumers[k].demands)
  }

  function Step(b: Books, e: Event): (r: Books)
    requires Sane(b) && Enabled(b, e)
    ensures Sane(r) && r.slots == b.slots && r.nominal == b.nominal && |r.consumers| == |b.consumers|
  {
    var c := b.consumers[e.k];
    match e
    case Allocate(k) =>
      var (f, c1, _) := TryAllocate(b.slots, b.free, c);
      ConsumerKept(b.slots, b.free, c);
      b.(free := f, consumers := b.consumers[k := c1])
    case Return(k) =>
      var (f, c1) := Release(b.free, c);
      ClearedHoldsNothing(c.isTask, c.demands);
      b.(free := f, consumers := b.consumers[k := c1])
    case Work(k, d, i, left) =>
      var dem := c.demands[d];
      b.(consumers := b.consumers[k := c.(demands := c.demands[d := dem.(amounts := dem.amounts[i := left])])])
  }

  lemma ConsumerKept(slots: seq<Slot>, free: seq<real>, c: Consumer)
    requires |free| == |slots| && AllWellFormed(c.demands) && HoldsNothing(c.isTask, c.demands)
    ensures AllWellFormed(TryAllocate(slots, free, c).1.demands)
  {
    AllocateRelease(slots, free, c);
  }

  predicate Valid(b: Books, run: seq<Event>)
    requires Sane(b)
    decreases |run|
  {
    run == [] || (Enabled(b, run[0]) && Valid(Step(b, run[0]), run[1..]))
  }

  function Run(b: Books, run: seq<Event>): (r: Books)
    requires Sane(b) && Valid(b, run)
    ensures Sane(r) && r.slots == b.slots && r.nominal == b.nominal && |r.consumers| == |b.consumers|
    decreases |run|
  {
    if run == [] then b else Run(Step(b, run[0]), run[1..])
  }

  function HeldByAll(cs: seq<Consumer>, j: nat): real
    requires forall k | 0 <= k < |cs| :: AllWellFormed(cs[k].demands)
  {
    if cs == [] then 0.0 else Held(cs[0].isTask, cs[0].demands, j) + HeldByAll(cs[1..], j)
  }

  /** Free capacity and what the consumers hold add up to the specification, and nothing is overbooked. */
  predicate Balanced(b: Books) {
    && Sane(b)
    && forall j | 0 <= j < |b.free| ::
         b.free[j] >= 0.0 && b.free[j] + HeldByAll(b.consumers, j) == b.nominal[j]
  }

  lemma {:induction false} HeldByAllUpdate(cs: seq<Consumer>, k: nat, c: Consumer, j: nat)
    requires k < |cs| && AllWellFormed(c.demands) && forall k | 0 <= k < |cs| :: AllWellFormed(cs[k].demands)
    ensures HeldByAll(cs[k := c], j)
      == HeldByAll(cs, j) - Held(cs[k].isTask, cs[k].demands, j) + Held(c.isTask, c.demands, j)
  {
    var ds := cs[k := c];
    if k > 0 {
      assert ds[1..] == cs[1..][k - 1 := c];
      HeldByAllUpdate(cs[1..], k - 1, c, j);
    } else {
      assert ds[1..] == cs[1..];
    }
  }

  lemma {:induction false} HeldPositive(isTask: bool, ds: seq<Demand>, i: nat, j: nat)
    requires AllWellFormed(ds) && i < |ds| && Reserved(isTask, ds[i].kind)
    ensures 0.0 <= HeldAt(ds[i].amounts, ds[i].location, j) <= Held(isTask, ds, j)
  {
    HeldAtPositive(ds[0].amounts, ds[0].location, j);
    HeldAtPositive(ds[i].amounts, ds[i].location, j);
    if i > 0 {
      HeldPositive(isTask, ds[1..], i - 1, j);
    } else {
      HeldNotNegative(isTask, ds[1..], j);
    }
  }

  lemma {:induction false} HeldNotNegative(isTask: bool, ds: seq<Demand>, j: nat)
    requires AllWellFormed(ds)
    ensures Held(isTask, ds, j) >= 0.0
  {
    if ds != [] {
      HeldAtPositive(ds[0].amounts, ds[0].location, j);
      HeldNotNegative(isTask, ds[1..], j);
    }
  }

  lemma {:induction false} HeldAtPositive(amounts: seq<real>, location: seq<Option<nat>>, j: nat)
    requires |amounts| == |location| && NonNegative(amounts)
    ensures HeldAt(amounts, location, j) >= 0.0
  {
    if amounts != [] {
      HeldAtPositive(amounts[1..], location[1..], j);
    }
  }

  /** A demand that is never reserved may change without touching what is held. */
  lemma {:induction false} HeldUnreserved(isTask: bool, ds: seq<Demand>, i: nat, d: Demand, j: nat)
    requires AllWellFormed(ds) && WellFormed(d) && i < |ds| && d.kind == ds[i].kind && !Reserved(isTask, d.kind)
    ensures AllWellFormed(ds[i := d]) && Held(isTask, ds[i := d], j) == Held(isTask, ds, j)
  {
    if i > 0 {
      assert ds[i := d][1..] == ds[1..][i - 1 := d];
      HeldUnreserved(isTask, ds[1..], i - 1, d, j);
    } else {
      assert ds[i := d][1..] == ds[1..];
    }
  }

  lemma AttemptBalances(slots: seq<Slot>, free: seq<real>, c: Consumer, j: nat)
    requires |free| == |slots| && AllWellFormed(c.demands) && HoldsNothing(c.isTask, c.demands) && j < |free|
    ensures var (f, c1, _) := TryAllocate(slots, free, c);
      && AllWellFormed(c1.demands)
      && f[j] + Held(c1.isTask, c1.demands, j) == free[j] + Held(c.isTask, c.demands, j)
      && (free[j] >= 0.0 ==> f[j] >= 0.0)
  {
    AllocConserves(slots, free, c.isTask, c.demands, j);
    HoldingNothing(c.isTask, c.demands, j);
    if !TryAllocate(slots, free, c).2 {
      AllOrNothing(slots, free, c);
    }
  }

  lemma ReturnBalances(free: seq<real>, c: Consumer, j: nat)
    requires AllWellFormed(c.demands) && j < |free|
    ensures var (f, c1) := Release(free, c);
      && AllWellFormed(c1.demands)
      && f[j] + Held(c1.isTask, c1.demands, j) == free[j] + Held(c.isTask, c.demands, j)
      && f[j] >= free[j]
  {
    ClearedHoldsNothing(c.isTask, c.demands);
    HoldingNothing(c.isTask, ClearedAll(c.isTask, c.demands), j);
    HeldNotNegative(c.isTask, c.demands, j);
  }

  lemma StepBalanced(b: Books, e: Event)
    requires Balanced(b) && Enabled(b, e)
    ensures Balanced(Step(b, e))
  {
    var c, r := b.consumers[e.k], Step(b, e);
    hide TryAllocate, Release, Held, HeldByAll;
    forall j | 0 <= j < |b.free|
      ensures r.free[j] >= 0.0 && r.free[j] + HeldByAll(r.consumers, j) == r.nominal[j]
    {
      match e {
        case Allocate(_) => AttemptBalances(b.slots, b.free, c, j);
        case Return(_) => ReturnBalances(b.free, c, j);
        case Work(_, d, i, left) =>
          HeldUnreserved(c.isTask, c.demands, d, r.consumers[e.k].demands[d], j);
      }
      HeldByAllUpdate(b.consumers, e.k, r.consumers[e.k], j);
    }
  }

  /** Conservation: in every run, and for every capacity, the books stay balanced. */
  lemma {:induction false} RunBalanced(b: Books, run: seq<Event>)
    requires Balanced(b) && Valid(b, run)
    ensures Balanced(Run(b, run))
    decreases |run|
  {
    if run != [] {
      StepBalanced(b, run[0]);
      RunBalanced(Step(b, run[0]), run[1..]);
    }
  }

  /** A provider nobody uses yet. */
  predicate Unused(b: Books) {
    && Sane(b) && b.free == b.nominal && NonNegative(b.nominal)
    && forall k | 0 <= k < |b.consumers| :: HoldsNothing(b.consumers[k].isTask, b.consumers[k].demands)
  }

  lemma {:induction false} NobodyHolds(cs: seq<Consumer>, j: nat)
    requires forall k | 0 <= k < |cs| :: AllWellFormed(cs[k].demands) && HoldsNothing(cs[k].isTask, cs[k].demands)
    ensures HeldByAll(cs, j) == 0.0
  {
    if cs != [] {
      HoldingNothing(cs[0].isTask, cs[0].demands, j);
      NobodyHolds(cs[1..], j);
    }
  }

  lemma UnusedIsBalanced(b: Books)
    requires Unused(b)
    ensures Balanced(b)
  {
    forall j | 0 <= j < |b.free|
      ensures HeldByAll(b.consumers, j) == 0.0
    {
      NobodyHolds(b.consumers, j);
    }
  }

  // ---------- a consumer that already holds something ----------

  /**
   What an attempt overwrites without giving it back: the amounts it places are forgotten where they
   were, up to the one that does not fit.
   */
  function Overwritten(slots: seq<Slot>, free: seq<real>, isTask: bool, ds: seq<Demand>, k: nat): real
    requires |free| == |slots| && AllWellFormed(ds)
    decreases |ds|
  {
    if ds == [] then 0.0
    else if !Reserved(isTask, ds[0].kind) then Overwritten(slots, free, isTask, ds[1..], k)
    else
      var d := ds[0];
      var (p, left) := Fill(slots, free, d.kind, d.arch, d.amounts, 0);
      HeldAt(d.amounts[..|p|], d.location[..|p|], k)
      + if |p| < |d.amounts| then 0.0 else Overwritten(slots, left, isTask, ds[1..], k)
  }

  lemma {:induction false} RelocatedHeld(amounts: seq<real>, was: seq<Option<nat>>, location: seq<Option<nat>>,
                                         p: seq<nat>, k: nat)
    requires |amounts| == |was| == |location| && |p| <= |amounts|
    requires forall i | 0 <= i < |location| :: location[i] == if i < |p| then Some(p[i]) else was[i]
    ensures HeldAt(amounts, location, k)
      == Load(amounts, p, k) + HeldAt(amounts, was, k) - HeldAt(amounts[..|p|], was[..|p|], k)
  {
    if p == [] {
      assert location == was;
    } else {
      RelocatedHeld(amounts[1..], was[1..], location[1..], p[1..], k);
      assert amounts[..|p|][1..] == amounts[1..][..|p| - 1] && was[..|p|][1..] == was[1..][..|p| - 1];
    }
  }

  lemma {:induction false} AllocOverwrites(slots: seq<Slot>, free: seq<real>, isTask: bool, ds: seq<Demand>, k: nat)
    requires |free| == |slots| && k < |free| && AllWellFormed(ds)
    ensures var (f, es, _) := AllocAll(slots, free, isTask, ds);
      f[k] + Held(isTask, es, k) == free[k] + Held(isTask, ds, k) - Overwritten(slots, free, isTask, ds, k)
    decreases |ds|
  {
    if ds != [] {
      var d := ds[0];
      if !Reserved(isTask, d.kind) {
        AllocOverwrites(slots, free, isTask, ds[1..], k);
      } else {
        FillSound(slots, free, d.kind, d.arch, d.amounts, 0);
        var (p, left) := Fill(slots, free, d.kind, d.arch, d.amounts, 0);
        RelocatedHeld(d.amounts, d.location, Located(d, p).location, p, k);
        if |p| == |d.amounts| {
          AllocOverwrites(slots, left, isTask, ds[1..], k);
        }
      }
    }
  }

  /** A successful attempt reaches every amount. */
  lemma {:induction false} AllOverwritten(slots: seq<Slot>, free: seq<real>, isTask: bool, ds: seq<Demand>, k: nat)
    requires |free| == |slots| && k < |free| && AllWellFormed(ds) && AllocAll(slots, free, isTask, ds).2
    ensures Overwritten(slots, free, isTask, ds, k) == Held(isTask, ds, k)
    decreases |ds|
  {
    if ds != [] {
      var d := ds[0];
      var (p, left) := Fill(slots, free, d.kind, d.arch, d.amounts, 0);
      assert d.amounts[..|d.amounts|] == d.amounts && d.location[..|d.amounts|] == d.location;
      AllOverwritten(slots, if Reserved(isTask, d.kind) then left else free, isTask, ds[1..], k);
    }
  }

  /**
   tryToAllocate does not look at what the consumer holds already.  A second attempt keeps the books
   of capacity k balanced exactly when the amounts it placed, before it succeeded or gave up, held
   nothing of k: if it succeeds, when the consumer held nothing of k at all.
   */
  lemma SecondAttempt(slots: seq<Slot>, free: seq<real>, c: Consumer, k: nat)
    requires |free| == |slots| && k < |free| && AllWellFormed(c.demands)
    ensures var (f, c1, ok) := TryAllocate(slots, free, c);
      var lost := Overwritten(slots, free, c.isTask, c.demands, k);
      && AllWellFormed(c1.demands)
      && f[k] + Held(c1.isTask, c1.demands, k) == free[k] + Held(c.isTask, c.demands, k) - lost
      && (ok ==> lost == Held(c.isTask, c.demands, k))
      && (!ok ==> HoldsNothing(c1.isTask, c1.demands))
  {
    AllocOverwrites(slots, free, c.isTask, c.demands, k);
    var (f, ds, ok) := AllocAll(slots, free, c.isTask, c.demands);
    if ok {
      AllOverwritten(slots, free, c.isTask, c.demands, k);
    } else {
      ClearedHoldsNothing(c.isTask, ds);
      HoldingNothing(c.isTask, ClearedAll(c.isTask, ds), k);
    }
  }

  // ---------- migration ----------

  /** The VM's demands are those of the migration object, wherever each of them is located. */
  predicate SameDemands(ds: seq<Demand>, es: seq<Demand>) {
    && |ds| == |es|
    && forall i | 0 <= i < |ds| ::
         ds[i].kind == es[i].kind && ds[i].arch == es[i].arch && ds[i].amounts == es[i].amounts
  }

  ghost predicate Placed(slots: seq<Slot>, d: Demand, p: seq<nat>) {
    && |p| == |d.amounts| == |d.location|
    && (forall i | 0 <= i < |p| :: p[i] < |slots| && Suits(slots[p[i]], d.kind, d.arch) && d.location[i] == Some(p[i]))
    && (forall i | 0 < i < |p| :: p[i - 1] <= p[i])
  }

  ghost predicate Sits(slots: seq<Slot>, d: Demand) {
    exists p :: Placed(slots, d, p)
  }

  /** After a successful attempt every reserved demand sits somewhere in order. */
  lemma {:induction false} AllocPlaces(slots: seq<Slot>, free: seq<real>, isTask: bool, ds: seq<Demand>, i: nat)
    requires |free| == |slots| && AllWellFormed(ds) && AllocAll(slots, free, isTask, ds).2
    requires i < |ds| && Reserved(isTask, ds[i].kind)
    ensures SameDemands(AllocAll(slots, free, isTask, ds).1, ds)
    ensures Sits(slots, AllocAll(slots, free, isTask, ds).1[i])
    decreases |ds|
  {
    AllocSame(slots, free, isTask, ds);
    var d := ds[0];
    var (p, left) := Fill(slots, free, d.kind, d.arch, d.amounts, 0);
    FillSound(slots, free, d.kind, d.arch, d.amounts, 0);
    var es := AllocAll(slots, free, isTask, ds).1;
    if i == 0 {
      assert Placed(slots, es[0], p);
    } else {
      AllocPlaces(slots, if Reserved(isTask, d.kind) then left else free, isTask, ds[1..], i - 1);
      assert es[i] == es[1..][i - 1];
    }
  }

  lemma {:induction false} AllocSame(slots: seq<Slot>, free: seq<real>, isTask: bool, ds: seq<Demand>)
    requires |free| == |slots| && AllWellFormed(ds)
    ensures SameDemands(AllocAll(slots, free, isTask, ds).1, ds)
    decreases |ds|
  {
    if ds != [] {
      var d := ds[0];
      var (p, left) := Fill(slots, free, d.kind, d.arch, d.amounts, 0);
      AllocSame(slots, if Reserved(isTask, d.kind) then left else free, isTask, ds[1..]);
      var es := AllocAll(slots, free, isTask, ds).1;
      forall i | 0 <= i < |ds|
        ensures es[i].kind == ds[i].kind && es[i].arch == ds[i].arch && es[i].amounts == ds[i].amounts
      {
        if i > 0 {
          assert ds[i] == ds[1..][i - 1] && es[i] == es[1..][i - 1];
        }
      }
    }
  }

  lemma {:induction false} HeldAtPlaced(amounts: seq<real>, location: seq<Option<nat>>, p: seq<nat>, k: nat)
    requires |amounts| == |location| == |p|
    requires forall i | 0 <= i < |p| :: location[i] == Some(p[i])
    ensures HeldAt(amounts, location, k) == Load(amounts, p, k)
  {
    if p != [] {
      HeldAtPlaced(amounts[1..], location[1..], p[1..], k);
    }
  }

  /** The other consumers' steps leave consumer k alone. */
  lemma {:induction false} Untouched(b: Books, run: seq<Event>, k: nat)
    requires Sane(b) && Valid(b, run) && k < |b.consumers| && forall i | 0 <= i < |run| :: run[i].k != k
    ensures Run(b, run).consumers[k] == b.consumers[k]
    decreases |run|
  {
    if run != [] {
      Untouched(Step(b, run[0]), run[1..], k);
    }
  }

  /** Capacity just released has room for the same demands again. */
  lemma RoomAgain(slots: seq<Slot>, free: seq<real>, m: Consumer, v: Consumer)
    requires |free| == |slots| && NonNegative(free) && AllWellFormed(m.demands) && AllWellFormed(v.demands)
    requires SameDemands(v.demands, m.demands) && v.isTask == m.isTask && OnePerKind(v.isTask, v.demands)
    requires forall i | 0 <= i < |m.demands| && Reserved(m.isTask, m.demands[i].kind) :: Sits(slots, m.demands[i])
    ensures TryAllocate(slots, Release(free, m).0, v).2
  {
    var more := Release(free, m).0;
    forall i | 0 <= i < |v.demands| && Reserved(v.isTask, v.demands[i].kind)
      ensures exists p :: Feasible(slots, more, v.demands[i].kind, v.demands[i].arch, v.demands[i].amounts, 0, p)
    {
      var d := m.demands[i];
      var p :| Placed(slots, d, p);
      forall j | 0 <= j < |p|
        ensures Load(d.amounts, p, p[j]) <= more[p[j]]
      {
        HeldAtPlaced(d.amounts, d.location, p, p[j]);
        HeldPositive(m.isTask, m.demands, i, p[j]);
      }
      assert Feasible(slots, more, d.kind, d.arch, d.amounts, 0, p);
    }
    SucceedsExactly(slots, more, v);
  }

  lemma ReservationPlaced(b: Books, k: nat)
    requires Sane(b) && Enabled(b, Allocate(k)) && TryAllocate(b.slots, b.free, b.consumers[k]).2
    ensures var m0, m := b.consumers[k], Step(b, Allocate(k)).consumers[k];
      && m.isTask == m0.isTask && SameDemands(m.demands, m0.demands) && AllWellFormed(m.demands)
      && forall i | 0 <= i < |m.demands| && Reserved(m.isTask, m.demands[i].kind) :: Sits(b.slots, m.demands[i])
  {
    hide Placed;
    var m0 := b.consumers[k];
    ConsumerKept(b.slots, b.free, m0);
    AllocSame(b.slots, b.free, m0.isTask, m0.demands);
    var m := Step(b, Allocate(k)).consumers[k];
    forall i | 0 <= i < |m.demands| && Reserved(m.isTask, m.demands[i].kind)
      ensures Sits(b.slots, m.demands[i])
    {
      AllocPlaces(b.slots, b.free, m0.isTask, m0.demands, i);
    }
  }

  /**
   A migration never loses its VM.  Its reservation on the target succeeded (startMigration); then
   the other consumers of the target do whatever they like; then finalizeMigration returns the
   reservation, and addVM on the target succeeds.
   */
  lemma MigrationKeepsVM(b: Books, k: nat, run: seq<Event>, v: Consumer)
    requires Balanced(b) && Enabled(b, Allocate(k)) && !b.consumers[k].isTask
    requires TryAllocate(b.slots, b.free, b.consumers[k]).2
    requires Valid(Step(b, Allocate(k)), run) && forall i | 0 <= i < |run| :: run[i].k != k
    requires !v.isTask && AllWellFormed(v.demands) && OnePerKind(false, v.demands)
    requires SameDemands(v.demands, b.consumers[k].demands)
    ensures var b1 := Run(Step(b, Allocate(k)), run);
      TryAllocate(b.slots, Step(b1, Return(k)).free, v).2
  {
    StepBalanced(b, Allocate(k));
    ReservationPlaced(b, k);
    var b0 := Step(b, Allocate(k));
    SameTrans(v.demands, b.consumers[k].demands, b0.consumers[k].demands);
    hide *;
    MigrationEnds(b0, k, run, v);
  }

  /**
   With two demands of one type a migration can lose its VM, although its reservation stood.  The VM
   needs 4 and 3; the target reserves them on its second and first memory, of 3 and 4, while another
   consumer holds 1 of the first; that consumer leaves; and now the 4 goes where the 3 must.
   */
  lemma MigrationLosesVM() returns (b: Books, run: seq<Event>, v: Consumer)
    ensures Balanced(b) && Enabled(b, Allocate(0)) && !b.consumers[0].isTask
    ensures TryAllocate(b.slots, b.free, b.consumers[0]).2
    ensures Valid(Step(b, Allocate(0)), run) && forall i | 0 <= i < |run| :: run[i].k != 0
    ensures !v.isTask && AllWellFormed(v.demands) && SameDemands(v.demands, b.consumers[0].demands)
    ensures var b1 := Run(Step(b, Allocate(0)), run);
      !TryAllocate(b.slots, Step(b1, Return(0)).free, v).2
  {
    v := Consumer(false, Pair(None, None));
    var m := Consumer(false, Pair(Some(1), Some(0)));
    b := Lost([3.0, 4.0], v, Some(0));
    run := [Return(1)];
    LostStart(b, v);
    LostReserves(b, v, m);
    LostFrees(m);
    PairRefused();
    var b1, b2 := Lost([0.0, 0.0], m, Some(0)), Lost([1.0, 0.0], m, None);
    hide TryAllocate, Step, Enabled, AllWellFormed, Balanced, SameDemands, Sane;
    assert run[1..] == [] && Run(b1, run) == b2;
  }

  function Lost(free: seq<real>, c: Consumer, z: Option<nat>): Books {
    Books(Slots(), [4.0, 4.0], free, [c, Other(z)])
  }

  lemma LostStart(b: Books, v: Consumer)
    requires v == Consumer(false, Pair(None, None)) && b == Lost([3.0, 4.0], v, Some(0))
    ensures Balanced(b) && Enabled(b, Allocate(0)) && AllWellFormed(v.demands) && SameDemands(v.demands, v.demands)
  {
    OthersHold(v, Other(Some(0)));
  }

  lemma LostReserves(b: Books, v: Consumer, m: Consumer)
    requires v == Consumer(false, Pair(None, None)) && b == Lost([3.0, 4.0], v, Some(0)) && Sane(b)
      && Enabled(b, Allocate(0))
    requires m == Consumer(false, Pair(Some(1), Some(0)))
    ensures TryAllocate(b.slots, b.free, v).2 && Step(b, Allocate(0)) == Lost([0.0, 0.0], m, Some(0))
  {
    PairPlaced();
    hide AllocAll;
    assert b.consumers[0 := m] == [m, Other(Some(0))];
  }

  lemma LostFrees(m: Consumer)
    requires m == Consumer(false, Pair(Some(1), Some(0)))
    ensures var b1, b2 := Lost([0.0, 0.0], m, Some(0)), Lost([1.0, 0.0], m, None);
      && Sane(b1) && Sane(b2) && Enabled(b1, Return(1)) && Enabled(b2, Return(0))
      && Step(b1, Return(1)) == b2 && Step(b2, Return(0)).free == [4.0, 4.0]
  {
    var b1 := Lost([0.0, 0.0], m, Some(0));
    OtherReturns(Other(Some(0)));
    PairReturns(m);
    hide Release;
    assert b1.consumers[1 := Other(None)] == [m, Other(None)];
  }

  function Slots(): seq<Slot> {
    [Slot(Memory, 2.0), Slot(Memory, 1.0)]
  }

  function Pair(x: Option<nat>, y: Option<nat>): seq<Demand> {
    [Demand(Memory, 1.0, [4.0], [x]), Demand(Memory, 2.0, [3.0], [y])]
  }

  function Other(z: Option<nat>): Consumer {
    Consumer(false, [Demand(Memory, 2.0, [1.0], [z])])
  }

  lemma OneHeld(x: real, loc: Option<nat>, k: nat)
    ensures HeldAt([x], [loc], k) == if loc == Some(k) then x else 0.0
  {
    assert [x][1..] == [] && [loc][1..] == [];
  }

  lemma PairHeld(x: Option<nat>, y: Option<nat>, k: nat)
    ensures Held(false, Pair(x, y), k) == (if x == Some(k) then 4.0 else 0.0) + (if y == Some(k) then 3.0 else 0.0)
  {
    var ds := Pair(x, y);
    OneHeld(4.0, x, k);
    OneHeld(3.0, y, k);
    assert ds[1..][1..] == [] && Held(false, [], k) == 0.0;
    assert Held(false, ds[1..], k) == HeldAt([3.0], [y], k);
  }

  lemma OtherHeld(z: Option<nat>, k: nat)
    ensures Held(false, Other(z).demands, k) == if z == Some(k) then 1.0 else 0.0
  {
    OneHeld(1.0, z, k);
    assert Other(z).demands[1..] == [];
  }

  lemma OthersHold(v: Consumer, other: Consumer)
    requires v == Consumer(false, Pair(None, None)) && other == Other(Some(0))
    ensures forall k: nat :: HeldByAll([v, other], k) == if k == 0 then 1.0 else 0.0
  {
    forall k: nat
      ensures HeldByAll([v, other], k) == if k == 0 then 1.0 else 0.0
    {
      PairHeld(None, None, k);
      OtherHeld(Some(0), k);
      assert [v, other][1..] == [other] && [other][1..] == [];
      assert HeldByAll([other], k) == Held(false, other.demands, k);
    }
  }

  lemma PairPlaced()
    ensures AllocAll(Slots(), [3.0, 4.0], false, Pair(None, None)) == ([0.0, 0.0], Pair(Some(1), Some(0)), true)
  {
    var ds := Pair(None, None);
    FillOne(Slots(), [3.0, 4.0], ds[0]);
    FillOne(Slots(), [3.0, 0.0], ds[1]);
    assert [3.0, 4.0][1 := 0.0] == [3.0, 0.0] && [3.0, 0.0][0 := 0.0] == [0.0, 0.0];
    assert ds[1..] == [ds[1]] && ds[1..][1..] == [];
    assert Located(ds[0], [1]) == Pair(Some(1), Some(0))[0] && Located(ds[1], [0]) == Pair(Some(1), Some(0))[1];
    var l0, l1 := Located(ds[0], [1]), Located(ds[1], [0]);
    assert [l1] + [] == [l1] && [l0] + [l1] == [l0, l1] == Pair(Some(1), Some(0));
    assert AllocAll(Slots(), [0.0, 0.0], false, []) == ([0.0, 0.0], [], true);
    assert AllocAll(Slots(), [3.0, 0.0], false, ds[1..]) == ([0.0, 0.0], [l1], true);
  }

  lemma PairRefused()
    ensures !AllocAll(Slots(), [4.0, 4.0], false, Pair(None, None)).2
  {
    var ds := Pair(None, None);
    FillOne(Slots(), [4.0, 4.0], ds[0]);
    FillOne(Slots(), [0.0, 4.0], ds[1]);
    assert [4.0, 4.0][0 := 0.0] == [0.0, 4.0];
    assert ds[1..] == [ds[1]];
  }

  lemma OtherReturns(other: Consumer)
    requires other == Other(Some(0))
    ensures Release([0.0, 0.0], other) == ([1.0, 0.0], Other(None))
  {
    OtherHeld(Some(0), 0);
    OtherHeld(Some(0), 1);
    assert Cleared(other.demands[0]) == Other(None).demands[0];
    assert ClearedAll(false, other.demands) == Other(None).demands;
    assert Release([0.0, 0.0], other).0 == [1.0, 0.0];
  }

  lemma PairReturns(m: Consumer)
    requires m == Consumer(false, Pair(Some(1), Some(0)))
    ensures Release([1.0, 0.0], m).0 == [4.0, 4.0]
  {
    PairHeld(Some(1), Some(0), 0);
    PairHeld(Some(1), Some(0), 1);
  }

  /** The same from the moment the reservation stands. */
  lemma MigrationEnds(b: Books, k: nat, run: seq<Event>, v: Consumer)
    requires Balanced(b) && Valid(b, run) && k < |b.consumers| && forall i | 0 <= i < |run| :: run[i].k != k
    requires var m := b.consumers[k];
      && !m.isTask && SameDemands(v.demands, m.demands)
      && forall i | 0 <= i < |m.demands| && Reserved(false, m.demands[i].kind) :: Sits(b.slots, m.demands[i])
    requires !v.isTask && AllWellFormed(v.demands) && OnePerKind(false, v.demands)
    ensures TryAllocate(b.slots, Step(Run(b, run), Return(k)).free, v).2
  {
    RunBalanced(b, run);
    Untouched(b, run, k);
    var r := Run(b, run);
    hide Valid, Run, Placed, TryAllocate, OnePerKind, HeldByAll, Release;
    RoomAgain(b.slots, r.free, b.consumers[k], v);
    ReturnIs(r, k);
  }

  lemma SameTrans(ds: seq<Demand>, es: seq<Demand>, fs: seq<Demand>)
    requires SameDemands(ds, es) && SameDemands(fs, es)
    ensures SameDemands(ds, fs)
  {}

  lemma ReturnIs(b: Books, k: nat)
    requires Sane(b) && k < |b.consumers|
    ensures Step(b, Return(k)).free == Release(b.free, b.consumers[k]).0
  {}
}
