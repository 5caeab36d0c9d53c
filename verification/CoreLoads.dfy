/** The load of the cores of a pool: what hosting and unhosting account for. */
module CoreLoads {
  import opened Common
  import opened Allocation
  import opened NestedLoad
  import Reservations
  import ResourcePool

  /** The load of each virtual core that may be hosted, with all that it hosts itself. */
  type Trees = map<ResourcePool.Core, Core>

  ghost predicate Known(vs: seq<ResourcePool.Core>, trees: Trees) {
    forall v :: v in vs ==> v in trees && trees[v].nominal == v.nominal && Accounted(trees[v])
  }

  ghost function TreesOf(vs: seq<ResourcePool.Core>, trees: Trees): (r: seq<Core>)
    requires Known(vs, trees)
    ensures |r| == |vs| && forall i | 0 <= i < |vs| :: r[i] == trees[vs[i]]
  {
    seq(|vs|, i requires 0 <= i < |vs| => trees[vs[i]])
  }

  lemma {:induction false} NominalOfTrees(vs: seq<ResourcePool.Core>, trees: Trees)
    requires Known(vs, trees)
    ensures NominalOf(TreesOf(vs, trees)) == ResourcePool.Nominal(vs)
  {
    if vs != [] {
      NominalOfTrees(vs[1..], trees);
      assert TreesOf(vs, trees)[1..] == TreesOf(vs[1..], trees);
    }
  }

  /** A core of a pool: free is what its capacity has left, vs the virtual cores on its list. */
  ghost function Loaded(nominal: real, free: real, current: real, withheld: real, vs: seq<ResourcePool.Core>,
                        trees: Trees): Core
    requires Known(vs, trees)
  {
    Core(nominal, free, current, withheld, TreesOf(vs, trees))
  }

  /** As long as free plus hosted is the same, what the core is worth stays accounted for. */
  lemma StillAccounted(c: Core, free: real, vs: seq<ResourcePool.Core>, free1: real, vs1: seq<ResourcePool.Core>,
                       trees: Trees)
    requires Known(vs, trees) && Known(vs1, trees) && c == Loaded(c.nominal, free, c.current, c.withheld, vs, trees)
    requires Accounted(c) && free1 >= 0.0 && free1 + ResourcePool.Nominal(vs1) == free + ResourcePool.Nominal(vs)
    ensures Accounted(Loaded(c.nominal, free1, c.current, c.withheld, vs1, trees))
  {
    NominalOfTrees(vs, trees);
    NominalOfTrees(vs1, trees);
  }

  /**
   What addVM promises (a successful TryAllocate, and Balanced) is what the load of the host rests on:
   every core is accounted for as before, now with the virtual cores it hosts.
   */
  lemma HostedAccounted(slots: seq<Slot>, free: seq<real>, vm: Consumer, cores: seq<ResourcePool.Core?>,
                        lists: seq<seq<ResourcePool.Core>>, lists1: seq<seq<ResourcePool.Core>>,
                        k: nat, c: Core, trees: Trees)
    requires |slots| == |free| == |cores| && k < |cores| && cores[k] != null
    requires AllWellFormed(vm.demands) && HoldsNothing(vm.isTask, vm.demands) && TryAllocate(slots, free, vm).2
    requires ResourcePool.Balanced(cores, free, lists, TryAllocate(slots, free, vm).0, lists1)
    requires Known(lists[k], trees) && Known(lists1[k], trees) && Accounted(c)
    requires c == Loaded(c.nominal, free[k], c.current, c.withheld, lists[k], trees)
    ensures Accounted(Loaded(c.nominal, TryAllocate(slots, free, vm).0[k], c.current, c.withheld, lists1[k], trees))
  {
    AllocConserves(slots, free, vm.isTask, vm.demands, k);
    hide TryAllocate, AllWellFormed, HoldsNothing, Known;
    StillAccounted(c, free[k], lists[k], TryAllocate(slots, free, vm).0[k], lists1[k], trees);
  }

  /** And what removeVM promises. */
  lemma UnhostedAccounted(free: seq<real>, vm: Consumer, cores: seq<ResourcePool.Core?>,
                          lists: seq<seq<ResourcePool.Core>>, lists1: seq<seq<ResourcePool.Core>>,
                          k: nat, c: Core, trees: Trees)
    requires |free| == |cores| && k < |cores| && cores[k] != null && AllWellFormed(vm.demands)
    requires ResourcePool.Balanced(cores, free, lists, Release(free, vm).0, lists1)
    requires Known(lists[k], trees) && Known(lists1[k], trees) && Accounted(c)
    requires c == Loaded(c.nominal, free[k], c.current, c.withheld, lists[k], trees)
    ensures Accounted(Loaded(c.nominal, Release(free, vm).0[k], c.current, c.withheld, lists1[k], trees))
  {
    Reservations.ReturnBalances(free, vm, k);
    hide Release, AllWellFormed, Known;
    StillAccounted(c, free[k], lists[k], Release(free, vm).0[k], lists1[k], trees);
  }

  /** A migration hosts nothing; what it reserves of a core is withheld. */
  lemma WithheldAccounted(slots: seq<Slot>, free: seq<real>, m: Consumer, k: nat, c: Core,
                          vs: seq<ResourcePool.Core>, trees: Trees)
    requires |slots| == |free| && k < |free| && Known(vs, trees) && Accounted(c)
    requires AllWellFormed(m.demands) && HoldsNothing(m.isTask, m.demands) && TryAllocate(slots, free, m).2
    requires c == Loaded(c.nominal, free[k], c.current, c.withheld, vs, trees)
    ensures var (f, m1, _) := TryAllocate(slots, free, m);
      && AllWellFormed(m1.demands)
      && Accounted(Loaded(c.nominal, f[k], c.current, c.withheld + Held(m1.isTask, m1.demands, k), vs, trees))
  {
    AllocConserves(slots, free, m.isTask, m.demands, k);
    Reservations.ConsumerKept(slots, free, m);
    var (f, m1, _) := TryAllocate(slots, free, m);
    Reservations.HeldNotNegative(m1.isTask, m1.demands, k);
    hide TryAllocate, AllWellFormed, HoldsNothing, Held;
  }
}
