/** VMs inside hosts: free capacity and computing load over the whole tree. */
module Nesting {
  import opened Common
  import opened Allocation
  import opened Reservations

  /** A provider; guests[k] is the VM whose reservation here is consumer k, NoVM if consumer k is none. */
  datatype Host = NoVM | Host(books: Books, guests: seq<Host>)

  // ---------- sums over the capacities of one type ----------

  /** The sum of xs over the capacities of one type. */
  function Total(slots: seq<Slot>, xs: seq<real>, kind: Kind): real
    requires |slots| == |xs|
  {
    if slots == [] then 0.0 else
    (if slots[0].kind == kind then xs[0] else 0.0) + Total(slots[1..], xs[1..], kind)
  }

  /** What consumer c holds of each capacity. */
  function HeldBy(c: Consumer, n: nat): (r: seq<real>)
    requires AllWellFormed(c.demands)
    ensures |r| == n && forall j | 0 <= j < n :: r[j] == Held(c.isTask, c.demands, j)
  {
    seq(n, j requires 0 <= j < n => Held(c.isTask, c.demands, j))
  }

  /** What consumer c holds of all the capacities of one type. */
  function HeldOf(slots: seq<Slot>, c: Consumer, kind: Kind): real
    requires AllWellFormed(c.demands)
  {
    Total(slots, HeldBy(c, |slots|), kind)
  }

  /** getFreeCap. */
  function FreeCap(b: Books, kind: Kind): real
    requires Sane(b)
  {
    Total(b.slots, b.free, kind)
  }

  /** getTotalCap. */
  function TotalCap(b: Books, kind: Kind): real
    requires Sane(b)
  {
    Total(b.slots, b.nominal, kind)
  }

  function Add(xs: seq<real>, ys: seq<real>): (r: seq<real>)
    requires |xs| == |ys|
    ensures |r| == |xs| && forall i | 0 <= i < |xs| :: r[i] == xs[i] + ys[i]
  {
    seq(|xs|, i requires 0 <= i < |xs| => xs[i] + ys[i])
  }

  lemma {:induction false} TotalAdd(slots: seq<Slot>, xs: seq<real>, ys: seq<real>, kind: Kind)
    requires |slots| == |xs| == |ys|
    ensures Total(slots, Add(xs, ys), kind) == Total(slots, xs, kind) + Total(slots, ys, kind)
  {
    if slots != [] {
      assert Add(xs, ys)[1..] == Add(xs[1..], ys[1..]);
      TotalAdd(slots[1..], xs[1..], ys[1..], kind);
    }
  }

  lemma {:induction false} TotalZero(slots: seq<Slot>, xs: seq<real>, kind: Kind)
    requires |slots| == |xs| && forall i | 0 <= i < |xs| :: xs[i] == 0.0
    ensures Total(slots, xs, kind) == 0.0
  {
    if slots != [] {
      TotalZero(slots[1..], xs[1..], kind);
    }
  }

  /** Summed over consumers. */
  function HeldOfAll(slots: seq<Slot>, cs: seq<Consumer>, kind: Kind): real
    requires forall k | 0 <= k < |cs| :: AllWellFormed(cs[k].demands)
  {
    if cs == [] then 0.0 else HeldOf(slots, cs[0], kind) + HeldOfAll(slots, cs[1..], kind)
  }

  function HeldByEach(cs: seq<Consumer>, n: nat): (r: seq<real>)
    requires forall k | 0 <= k < |cs| :: AllWellFormed(cs[k].demands)
    ensures |r| == n && forall j | 0 <= j < n :: r[j] == HeldByAll(cs, j)
  {
    seq(n, j requires 0 <= j < n => HeldByAll(cs, j))
  }

  lemma {:induction false} HeldOfAllIsTotal(slots: seq<Slot>, cs: seq<Consumer>, kind: Kind)
    requires forall k | 0 <= k < |cs| :: AllWellFormed(cs[k].demands)
    ensures HeldOfAll(slots, cs, kind) == Total(slots, HeldByEach(cs, |slots|), kind)
  {
    if cs == [] {
      TotalZero(slots, HeldByEach(cs, |slots|), kind);
    } else {
      HeldOfAllIsTotal(slots, cs[1..], kind);
      TotalAdd(slots, HeldBy(cs[0], |slots|), HeldByEach(cs[1..], |slots|), kind);
      assert HeldByEach(cs, |slots|) == Add(HeldBy(cs[0], |slots|), HeldByEach(cs[1..], |slots|));
    }
  }

  /** Balanced books, summed over the capacities of one type. */
  lemma BalancedTotals(b: Books, kind: Kind)
    requires Balanced(b)
    ensures FreeCap(b, kind) + HeldOfAll(b.slots, b.consumers, kind) == TotalCap(b, kind)
  {
    HeldOfAllIsTotal(b.slots, b.consumers, kind);
    var held := HeldByEach(b.consumers, |b.slots|);
    TotalAdd(b.slots, b.free, held, kind);
    assert Add(b.free, held) == b.nominal;
  }

  // ---------- the tree ----------

  /** getFreeCapRecursive. */
  function FreeCapRecursive(h: Host, kind: Kind): real
    requires Wide(h)
    decreases h, 1
  {
    FreeCap(h.books, kind) + FreeOfGuests(h.guests, kind)
  }

  function FreeOfGuests(gs: seq<Host>, kind: Kind): real
    requires WideGuests(gs)
    decreases gs, 0
  {
    if gs == [] then 0.0 else
    (if gs[0].NoVM? then 0.0 else FreeCapRecursive(gs[0], kind)) + FreeOfGuests(gs[1..], kind)
  }

  /** Every provider of the tree has books that add up. */
  predicate Wide(h: Host)
    decreases h, 1
  {
    h.Host? && Balanced(h.books) && |h.guests| == |h.books.consumers| && WideGuests(h.guests)
  }

  predicate WideGuests(gs: seq<Host>)
    decreases gs, 0
  {
    gs != [] ==> (gs[0].Host? ==> Wide(gs[0])) && WideGuests(gs[1..])
  }

  /** What all tasks and pending migrations of the tree hold; VMs count by what runs on them. */
  function Used(h: Host, kind: Kind): real
    requires Wide(h)
    decreases h, 1
  {
    UsedBy(h.books.slots, h.books.consumers, h.guests, kind)
  }

  function UsedBy(slots: seq<Slot>, cs: seq<Consumer>, gs: seq<Host>, kind: Kind): real
    requires |cs| == |gs| && WideGuests(gs) && forall k | 0 <= k < |cs| :: AllWellFormed(cs[k].demands)
    decreases gs, 0
  {
    if gs == [] then 0.0 else
    (if gs[0].NoVM? then HeldOf(slots, cs[0], kind) else Used(gs[0], kind))
    + UsedBy(slots, cs[1..], gs[1..], kind)
  }

  /** A VM's reservation on its host is all of the VM's own specification. */
  predicate Backed(h: Host, kind: Kind)
    requires Wide(h)
    decreases h, 1
  {
    BackedBy(h.books.slots, h.books.consumers, h.guests, kind)
  }

  predicate BackedBy(slots: seq<Slot>, cs: seq<Consumer>, gs: seq<Host>, kind: Kind)
    requires |cs| == |gs| && WideGuests(gs) && forall k | 0 <= k < |cs| :: AllWellFormed(cs[k].demands)
    decreases gs, 0
  {
    gs != [] ==>
      && (gs[0].Host? ==>
            Wide(gs[0]) && HeldOf(slots, cs[0], kind) == TotalCap(gs[0].books, kind) && Backed(gs[0], kind))
      && BackedBy(slots, cs[1..], gs[1..], kind)
  }

  lemma {:induction false} GuestsTelescope(slots: seq<Slot>, cs: seq<Consumer>, gs: seq<Host>, kind: Kind)
    requires |cs| == |gs| && WideGuests(gs) && forall k | 0 <= k < |cs| :: AllWellFormed(cs[k].demands)
    requires BackedBy(slots, cs, gs, kind)
    ensures FreeOfGuests(gs, kind) - HeldOfAll(slots, cs, kind) == -UsedBy(slots, cs, gs, kind)
    decreases gs, 0
  {
    if gs != [] {
      if gs[0].Host? {
        FreeTelescopes(gs[0], kind);
      }
      GuestsTelescope(slots, cs[1..], gs[1..], kind);
    }
  }

  /**
   Recursive free capacity telescopes: it is the host's specification less what the tasks and the
   pending migrations hold, wherever in the tree they are; VMs themselves cost nothing.
   */
  lemma {:induction false} FreeTelescopes(h: Host, kind: Kind)
    requires Wide(h) && Backed(h, kind)
    ensures FreeCapRecursive(h, kind) == TotalCap(h.books, kind) - Used(h, kind)
    decreases h, 1
  {
    BalancedTotals(h.books, kind);
    GuestsTelescope(h.books.slots, h.books.consumers, h.guests, kind);
  }

  // ---------- adding and removing a VM ----------

  function DemandOf(ds: seq<Demand>, kind: Kind): real {
    if ds == [] then 0.0 else (if ds[0].kind == kind then Sum(ds[0].amounts) else 0.0) + DemandOf(ds[1..], kind)
  }

  function HeldAtEach(amounts: seq<real>, location: seq<Option<nat>>, n: nat): (r: seq<real>)
    requires |amounts| == |location|
    ensures |r| == n && forall j | 0 <= j < n :: r[j] == HeldAt(amounts, location, j)
  {
    seq(n, j requires 0 <= j < n => HeldAt(amounts, location, j))
  }

  function Spike(n: nat, k: nat, x: real): (r: seq<real>)
    ensures |r| == n && forall j | 0 <= j < n :: r[j] == if j == k then x else 0.0
  {
    seq(n, j => if j == k then x else 0.0)
  }

  lemma {:induction false} TotalSpike(slots: seq<Slot>, k: nat, x: real, kind: Kind)
    requires k < |slots|
    ensures Total(slots, Spike(|slots|, k, x), kind) == if slots[k].kind == kind then x else 0.0
  {
    var s := Spike(|slots|, k, x);
    if k == 0 {
      TotalZero(slots[1..], s[1..], kind);
    } else {
      assert s[1..] == Spike(|slots| - 1, k - 1, x);
      TotalSpike(slots[1..], k - 1, x, kind);
    }
  }

  /** A placed demand holds all of its amounts, in capacities of its own type. */
  lemma {:induction false} PlacedTotal(slots: seq<Slot>, amounts: seq<real>, location: seq<Option<nat>>, p: seq<nat>,
                                       own: Kind, kind: Kind)
    requires |amounts| == |location| == |p|
    requires forall i | 0 <= i < |p| :: p[i] < |slots| && slots[p[i]].kind == own && location[i] == Some(p[i])
    ensures Total(slots, HeldAtEach(amounts, location, |slots|), kind) == if own == kind then Sum(amounts) else 0.0
  {
    if amounts == [] {
      TotalZero(slots, HeldAtEach(amounts, location, |slots|), kind);
    } else {
      PlacedTotal(slots, amounts[1..], location[1..], p[1..], own, kind);
      TotalSpike(slots, p[0], amounts[0], kind);
      var head, tail := Spike(|slots|, p[0], amounts[0]), HeldAtEach(amounts[1..], location[1..], |slots|);
      TotalAdd(slots, head, tail, kind);
      assert HeldAtEach(amounts, location, |slots|) == Add(head, tail);
    }
  }

  lemma {:induction false} PlacedDemands(slots: seq<Slot>, ds: seq<Demand>, kind: Kind)
    requires AllWellFormed(ds) && forall i | 0 <= i < |ds| :: Sits(slots, ds[i])
    ensures HeldOf(slots, Consumer(false, ds), kind) == DemandOf(ds, kind)
  {
    var held := HeldBy(Consumer(false, ds), |slots|);
    if ds == [] {
      TotalZero(slots, held, kind);
    } else {
      var d := ds[0];
      var p :| Placed(slots, d, p);
      PlacedTotal(slots, d.amounts, d.location, p, d.kind, kind);
      forall i | 0 <= i < |ds| - 1
        ensures Sits(slots, ds[1..][i])
      {
        assert ds[1..][i] == ds[i + 1];
      }
      PlacedDemands(slots, ds[1..], kind);
      var head, tail := HeldAtEach(d.amounts, d.location, |slots|), HeldBy(Consumer(false, ds[1..]), |slots|);
      TotalAdd(slots, head, tail, kind);
      assert held == Add(head, tail);
    }
  }

  lemma {:induction false} SameTotals(ds: seq<Demand>, es: seq<Demand>, kind: Kind)
    requires SameDemands(ds, es)
    ensures DemandOf(ds, kind) == DemandOf(es, kind)
  {
    if ds != [] {
      assert SameDemands(ds[1..], es[1..]);
      SameTotals(ds[1..], es[1..], kind);
    }
  }

  lemma {:induction false} GuestsUpdate(gs: seq<Host>, k: nat, g: Host)
    requires k < |gs| && WideGuests(gs) && (g.Host? ==> Wide(g))
    ensures WideGuests(gs[k := g])
    decreases gs
  {
    if k > 0 {
      assert gs[k := g][1..] == gs[1..][k - 1 := g];
      GuestsUpdate(gs[1..], k - 1, g);
    } else {
      assert gs[k := g][1..] == gs[1..];
    }
  }

  /** What guest or consumer k contributes to Used. */
  function Part(slots: seq<Slot>, c: Consumer, g: Host, kind: Kind): real
    requires AllWellFormed(c.demands) && (g.Host? ==> Wide(g))
  {
    if g.NoVM? then HeldOf(slots, c, kind) else Used(g, kind)
  }

  lemma {:induction false} PartUpdate(slots: seq<Slot>, cs: seq<Consumer>, gs: seq<Host>, k: nat, c: Consumer, g: Host,
                                      kind: Kind)
    requires k < |cs| == |gs| && WideGuests(gs) && (g.Host? ==> Wide(g)) && AllWellFormed(c.demands)
    requires forall k | 0 <= k < |cs| :: AllWellFormed(cs[k].demands)
    requires BackedBy(slots, cs, gs, kind)
    requires g.Host? ==> HeldOf(slots, c, kind) == TotalCap(g.books, kind) && Backed(g, kind)
    ensures WideGuests(gs[k := g]) && BackedBy(slots, cs[k := c], gs[k := g], kind) && (gs[k].Host? ==> Wide(gs[k]))
    ensures UsedBy(slots, cs[k := c], gs[k := g], kind)
      == UsedBy(slots, cs, gs, kind) - Part(slots, cs[k], gs[k], kind) + Part(slots, c, g, kind)
    decreases |cs|
  {
    GuestsUpdate(gs, k, g);
    if k > 0 {
      assert gs[k := g][1..] == gs[1..][k - 1 := g] && cs[k := c][1..] == cs[1..][k - 1 := c];
      PartUpdate(slots, cs[1..], gs[1..], k - 1, c, g, kind);
    } else {
      assert gs[k := g][1..] == gs[1..] && cs[k := c][1..] == cs[1..];
    }
  }

  /**
   Adding a VM on which nothing runs leaves the recursive free capacity of its host as it was.  The
   VM's demands are its own specification (VM::addResource), and it is not hosted yet.
   */
  lemma AddIdleVM(h: Host, k: nat, vm: Host, kind: Kind)
    requires Wide(h) && Backed(h, kind) && k < |h.guests| && h.guests[k] == NoVM
    requires Wide(vm) && Backed(vm, kind) && Used(vm, kind) == 0.0
    requires Enabled(h.books, Allocate(k)) && !h.books.consumers[k].isTask
    requires DemandOf(h.books.consumers[k].demands, kind) == TotalCap(vm.books, kind)
    requires TryAllocate(h.books.slots, h.books.free, h.books.consumers[k]).2
    ensures var r := Host(Step(h.books, Allocate(k)), h.guests[k := vm]);
      Wide(r) && Backed(r, kind) && FreeCapRecursive(r, kind) == FreeCapRecursive(h, kind)
  {
    var b, b1 := h.books, Step(h.books, Allocate(k));
    StepBalanced(b, Allocate(k));
    PlacedHolds(b, k, kind);
    NothingHeld(b.slots, b.consumers[k], kind);
    AddedVM(h, b1, k, vm, kind);
  }

  lemma NothingHeld(slots: seq<Slot>, c: Consumer, kind: Kind)
    requires AllWellFormed(c.demands) && HoldsNothing(c.isTask, c.demands)
    ensures HeldOf(slots, c, kind) == 0.0
  {
    var held := HeldBy(c, |slots|);
    forall j | 0 <= j < |slots|
      ensures held[j] == 0.0
    {
      HoldingNothing(c.isTask, c.demands, j);
    }
    TotalZero(slots, held, kind);
  }

  lemma AddedVM(h: Host, b1: Books, k: nat, vm: Host, kind: Kind)
    requires Wide(h) && Backed(h, kind) && k < |h.guests| && h.guests[k] == NoVM
    requires Wide(vm) && Backed(vm, kind) && Used(vm, kind) == 0.0
    requires Balanced(b1) && b1.slots == h.books.slots && b1.nominal == h.books.nominal
    requires |b1.consumers| == |h.books.consumers| && b1.consumers == h.books.consumers[k := b1.consumers[k]]
    requires HeldOf(b1.slots, h.books.consumers[k], kind) == 0.0
    requires HeldOf(b1.slots, b1.consumers[k], kind) == TotalCap(vm.books, kind)
    ensures var r := Host(b1, h.guests[k := vm]);
      Wide(r) && Backed(r, kind) && FreeCapRecursive(r, kind) == FreeCapRecursive(h, kind)
  {
    var r := Host(b1, h.guests[k := vm]);
    PartUpdate(b1.slots, h.books.consumers, h.guests, k, b1.consumers[k], vm, kind);
    FreeTelescopes(h, kind);
    FreeTelescopes(r, kind);
  }

  // ---------- whatever happens at whatever depth ----------

  /** Books that add up everywhere, and for every type VMs that hold of their hosts what they are. */
  ghost predicate Sound(h: Host) {
    Wide(h) && forall kind: Kind :: Backed(h, kind)
  }

  /**
   - Local: a task or a migration allocates or returns, or a task works.
   - AddVM: addVM for a VM with all that it hosts, which takes place of consumer k if it fits.
   - RemoveVM: the VM of consumer k leaves.
   A migration is a Local reservation on the target and later its return, RemoveVM at the source and
   AddVM at the target.
   */
  datatype Move = Local(e: Event) | AddVM(k: nat, vm: Host) | RemoveVM(k: nat)

  ghost predicate Possible(h: Host, path: seq<nat>, m: Move) {
    && Wide(h)
    && if path != [] then path[0] < |h.guests| && Possible(h.guests[path[0]], path[1..], m) else
       match m
       case Local(e) => Enabled(h.books, e) && h.guests[e.k] == NoVM
       case AddVM(k, vm) =>
         && Enabled(h.books, Allocate(k)) && !h.books.consumers[k].isTask && h.guests[k] == NoVM && Sound(vm)
         && forall kind :: DemandOf(h.books.consumers[k].demands, kind) == TotalCap(vm.books, kind)
       case RemoveVM(k) => k < |h.guests| && h.guests[k].Host?
  }

  ghost function Act(h: Host, path: seq<nat>, m: Move): (r: Host)
    requires Possible(h, path, m)
    ensures r.Host?
    decreases |path|
  {
    if path != [] then h.(guests := h.guests[path[0] := Act(h.guests[path[0]], path[1..], m)]) else
    match m
    case Local(e) => h.(books := Step(h.books, e))
    case AddVM(k, vm) =>
      var done := TryAllocate(h.books.slots, h.books.free, h.books.consumers[k]).2;
      Host(Step(h.books, Allocate(k)), if done then h.guests[k := vm] else h.guests)
    case RemoveVM(k) => Host(Step(h.books, Return(k)), h.guests[k := NoVM])
  }

  lemma {:induction false} GuestAt(slots: seq<Slot>, cs: seq<Consumer>, gs: seq<Host>, k: nat, kind: Kind)
    requires k < |cs| == |gs| && WideGuests(gs) && forall k | 0 <= k < |cs| :: AllWellFormed(cs[k].demands)
    requires BackedBy(slots, cs, gs, kind) && gs[k].Host?
    ensures Wide(gs[k]) && Backed(gs[k], kind) && HeldOf(slots, cs[k], kind) == TotalCap(gs[k].books, kind)
    decreases k
  {
    if k > 0 {
      GuestAt(slots, cs[1..], gs[1..], k - 1, kind);
    }
  }

  /** Host h with new books, in which consumer k has changed, and guest g in its place. */
  lemma SoundWith(h: Host, b: Books, k: nat, g: Host)
    requires Sound(h) && k < |h.guests| && Balanced(b) && b.slots == h.books.slots
    requires |b.consumers| == |h.books.consumers| && b.consumers == h.books.consumers[k := b.consumers[k]]
    requires g.Host? ==> Sound(g) && forall kind :: HeldOf(b.slots, b.consumers[k], kind) == TotalCap(g.books, kind)
    ensures Sound(Host(b, h.guests[k := g]))
  {
    var r := Host(b, h.guests[k := g]);
    GuestsUpdate(h.guests, k, g);
    assert Wide(r);
    forall kind: Kind
      ensures Backed(r, kind)
    {
      assert Backed(h, kind);
      PartUpdate(b.slots, h.books.consumers, h.guests, k, b.consumers[k], g, kind);
    }
  }

  /** The same guests. */
  lemma SoundLocal(h: Host, e: Event)
    requires Sound(h) && Enabled(h.books, e) && h.guests[e.k] == NoVM
    ensures Sound(h.(books := Step(h.books, e)))
  {
    StepBalanced(h.books, e);
    SoundWith(h, Step(h.books, e), e.k, NoVM);
    assert h.guests[e.k := NoVM] == h.guests;
  }

  /** A consumer that was placed holds what it demands. */
  lemma PlacedHolds(b: Books, k: nat, kind: Kind)
    requires Sane(b) && Enabled(b, Allocate(k)) && !b.consumers[k].isTask
    requires TryAllocate(b.slots, b.free, b.consumers[k]).2
    ensures HeldOf(b.slots, Step(b, Allocate(k)).consumers[k], kind) == DemandOf(b.consumers[k].demands, kind)
  {
    ReservationPlaced(b, k);
    var c, c1 := b.consumers[k], Step(b, Allocate(k)).consumers[k];
    assert c1 == Consumer(false, c1.demands);
    forall i | 0 <= i < |c1.demands|
      ensures Sits(b.slots, c1.demands[i])
    {
      assert Reserved(c1.isTask, c1.demands[i].kind);
    }
    PlacedDemands(b.slots, c1.demands, kind);
    SameTotals(c1.demands, c.demands, kind);
  }

  lemma SoundAdd(h: Host, m: Move)
    requires m.AddVM? && Sound(h) && Possible(h, [], m)
    ensures Sound(Act(h, [], m))
  {
    var b, b1 := h.books, Step(h.books, Allocate(m.k));
    if TryAllocate(b.slots, b.free, b.consumers[m.k]).2 {
      StepBalanced(b, Allocate(m.k));
      forall kind: Kind
        ensures HeldOf(b1.slots, b1.consumers[m.k], kind) == TotalCap(m.vm.books, kind)
      {
        PlacedHolds(b, m.k, kind);
      }
      SoundWith(h, b1, m.k, m.vm);
    } else {
      SoundLocal(h, Allocate(m.k));
    }
  }

  /** Every move at every depth keeps the whole tree sound, and no provider's specification changes. */
  lemma {:induction false} ActSound(h: Host, path: seq<nat>, m: Move)
    requires Sound(h) && Possible(h, path, m)
    ensures var r := Act(h, path, m);
      Sound(r) && r.books.slots == h.books.slots && r.books.nominal == h.books.nominal
    decreases |path|
  {
    if path != [] {
      var k := path[0];
      var g := h.guests[k];
      forall kind: Kind
        ensures Backed(g, kind) && HeldOf(h.books.slots, h.books.consumers[k], kind) == TotalCap(g.books, kind)
      {
        assert Backed(h, kind);
        GuestAt(h.books.slots, h.books.consumers, h.guests, k, kind);
      }
      ActSound(g, path[1..], m);
      SoundWith(h, h.books, k, Act(g, path[1..], m));
    } else {
      match m {
        case Local(e) => SoundLocal(h, e);
        case AddVM(_, _) => SoundAdd(h, m);
        case RemoveVM(k) =>
          StepBalanced(h.books, Return(k));
          SoundWith(h, Step(h.books, Return(k)), k, NoVM);
      }
    }
  }

  datatype At = At(path: seq<nat>, move: Move)

  ghost predicate CanRun(h: Host, run: seq<At>)
    decreases |run|
  {
    run == [] || (Possible(h, run[0].path, run[0].move) && CanRun(Act(h, run[0].path, run[0].move), run[1..]))
  }

  ghost function After(h: Host, run: seq<At>): Host
    requires CanRun(h, run)
    decreases |run|
  {
    if run == [] then h else After(Act(h, run[0].path, run[0].move), run[1..])
  }

  /**
   In every run over the tree, with tasks, VMs and migrations coming and going at any depth, the
   recursive free capacity is the host's specification less what tasks and migrations hold.
   */
  lemma {:induction false} TreeTelescopes(h: Host, run: seq<At>, kind: Kind)
    requires Sound(h) && CanRun(h, run)
    ensures var r := After(h, run);
      && Sound(r) && Sane(h.books)
      && FreeCapRecursive(r, kind) == TotalCap(h.books, kind) - Used(r, kind)
    decreases |run|
  {
    if run == [] {
      FreeTelescopes(h, kind);
    } else {
      ActSound(h, run[0].path, run[0].move);
      TreeTelescopes(Act(h, run[0].path, run[0].move), run[1..], kind);
    }
  }

  /** A provider nobody uses yet is where such runs begin. */
  lemma UnusedIsSound(b: Books)
    requires Unused(b)
    ensures Sound(Host(b, seq(|b.consumers|, i => NoVM)))
  {
    UnusedIsBalanced(b);
    NobodyHosted(|b.consumers|);
    var h := Host(b, seq(|b.consumers|, i => NoVM));
    forall kind: Kind
      ensures Backed(h, kind)
    {
      NobodyBacked(b.slots, b.consumers, kind);
    }
  }

  lemma {:induction false} NobodyHosted(n: nat)
    ensures WideGuests(seq(n, i => NoVM))
    decreases n
  {
    if n > 0 {
      NobodyHosted(n - 1);
      assert seq(n, i => NoVM)[1..] == seq(n - 1, i => NoVM);
    }
  }

  lemma {:induction false} NobodyBacked(slots: seq<Slot>, cs: seq<Consumer>, kind: Kind)
    requires forall k | 0 <= k < |cs| :: AllWellFormed(cs[k].demands)
    requires WideGuests(seq(|cs|, i => NoVM))
    ensures BackedBy(slots, cs, seq(|cs|, i => NoVM), kind)
    decreases |cs|
  {
    if cs != [] {
      NobodyHosted(|cs| - 1);
      NobodyBacked(slots, cs[1..], kind);
      assert seq(|cs|, i => NoVM)[1..] == seq(|cs| - 1, i => NoVM);
    }
  }
}
