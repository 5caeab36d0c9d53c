/** Virtual machines on providers, and their migration, over the objects of module ResourcePool. */
module VmHosting {
  import opened Common
  import opened Allocation
  import opened ResourcePool
  import Reservations

  /**
   CPU::setSpecification: one core for each nominal capacity, in step with the capacities that are to be
   shared out, and the sum of their rates.  Without a specification there is no CPU.
   */
  method SetSpecification(arch: real, spec: Option<seq<real>>) returns (cpu: DcResource?, nominalMips: real)
    ensures cpu == null <==> spec.None?
    ensures spec.Some? ==> fresh(cpu) && Specified(cpu, arch, spec.value) && InStep([cpu])
    ensures spec.Some? ==> forall i | 0 <= i < |spec.value| :: fresh(cpu.capacity[i]) && fresh(cpu.cores[i])
    ensures spec.Some? ==> nominalMips == Nominal(cpu.cores) == Sum(spec.value)
  {
    if spec.None? {
      return null, 0.0;
    }
    var nominal := spec.value;
    var capacity: seq<Capacity>, cores: seq<Core> := [], [];
    for i := 0 to |nominal|
      invariant |capacity| == |cores| == i
      invariant forall j | 0 <= j < i ::
          fresh(capacity[j]) && capacity[j].value == nominal[j] && fresh(cores[j]) && Bare(cores[j], nominal[j])
      invariant forall j, k | 0 <= j < k < i :: capacity[j] != capacity[k] && cores[j] != cores[k]
    {
      var cap := new Capacity(nominal[i]);
      var core := new Core(nominal[i]);
      capacity, cores := capacity + [cap], cores + [core];
    }
    cpu := new DcResource(Computing, arch, capacity, cores);
    assert Specified(cpu, arch, nominal);
    nominalMips := SumNominal(cores);
    NominalSum(cores, nominal);
  }

  /** The loop that accumulates the nominal rate of a CPU. */
  method SumNominal(cores: seq<Core>) returns (nominalMips: real)
    ensures nominalMips == Nominal(cores)
  {
    nominalMips := 0.0;
    for i := 0 to |cores|
      invariant nominalMips == Nominal(cores[..i])
    {
      nominalMips := nominalMips + cores[i].nominal;
      assert cores[..i + 1] == cores[..i] + [cores[i]];
      NominalAppend(cores[..i], [cores[i]]);
      assert Nominal([cores[i]]) == cores[i].nominal + Nominal([]);
    }
    assert cores[..|cores|] == cores;
  }

  /** A core that hosts nothing and is hosted nowhere. */
  predicate Bare(c: Core, nominal: real)
    reads c
  {
    c.nominal == nominal && c.hosted == [] && c.host == null
  }

  ghost predicate Specified(cpu: DcResource, arch: real, nominal: seq<real>)
    reads cpu.capacity, cpu.cores
  {
    && cpu.kind == Computing && cpu.arch == arch && |cpu.capacity| == |cpu.cores| == |nominal|
    && (forall i | 0 <= i < |nominal| :: cpu.capacity[i].value == nominal[i] && Bare(cpu.cores[i], nominal[i]))
    && (forall i, j | 0 <= i < j < |nominal| :: cpu.capacity[i] != cpu.capacity[j] && cpu.cores[i] != cpu.cores[j])
  }

  lemma {:induction false} NominalSum(cores: seq<Core>, nominal: seq<real>)
    requires |cores| == |nominal| && forall i | 0 <= i < |cores| :: cores[i].nominal == nominal[i]
    ensures Nominal(cores) == Sum(nominal)
  {
    if cores != [] {
      NominalSum(cores[1..], nominal[1..]);
    }
  }

  /** What a VM has, and what it demands of its host for it. */
  class VmResources {
    var resources: seq<DcResource>
    var demands: seq<ResDemand>

    constructor ()
      ensures resources == [] && demands == []
    {
      resources, demands := [], [];
    }

    /** VM::addResource: for each resource of the VM a demand for what it has, core for core if it is a CPU. */
    method AddResource(res: DcResource, ghost pool: Pool)
      requires res.kind == Computing ==> |res.capacity| == |res.cores|
      requires forall i | 0 <= i < |res.cores| && res.kind == Computing :: res.capacity[i].value == res.cores[i].nominal
      modifies this
      ensures resources == old(resources) + [res]
      ensures |demands| == |old(demands)| + 1 && demands[..|old(demands)|] == old(demands)
      ensures var d := demands[|old(demands)|]; fresh(d) && Mirrors(d, res) && pool.Matched(d)
    {
      resources := resources + [res];
      var amounts := seq(|res.capacity|,
        i requires 0 <= i < |res.capacity| reads res.capacity => res.capacity[i].value);
      var d := new ResDemand(res.kind, res.arch, amounts, if res.kind == Computing then res.cores else []);
      demands := demands + [d];
    }
  }

  /** Demand d, placed nowhere yet, asks for what resource res has. */
  ghost predicate Mirrors(d: ResDemand, res: DcResource)
    reads d, res.capacity
  {
    && d.kind == res.kind && d.arch == res.arch && d.vcores == (if res.kind == Computing then res.cores else [])
    && |d.amounts| == |res.capacity| == |d.location|
    && forall i | 0 <= i < |d.amounts| :: d.amounts[i] == res.capacity[i].value && d.location[i] == null
  }

  /** The consumer side of a VM, and the provider that hosts it. */
  class Vm {
    const consumer: ResourceConsumer
    var host: Provider?

    constructor (consumer: ResourceConsumer)
      ensures this.consumer == consumer && host == null
    {
      this.consumer, host := consumer, null;
    }
  }

  class Provider {
    const pool: Pool
    var hostedVms: seq<Vm>

    constructor (pool: Pool)
      ensures this.pool == pool && hostedVms == []
    {
      this.pool, hostedVms := pool, [];
    }

    /** addVM: hosted exactly when the VM's demands could all be placed. */
    method AddVM(vm: Vm) returns (ok: bool)
      requires pool.Valid() && pool.ConsumerOk(vm.consumer) && pool.Unhosted(vm.consumer)
      modifies this`hostedVms, vm`host, pool.caps, vm.consumer.demands`location
      modifies pool.HostCores()`hosted, VcoreSet(vm.consumer.demands)`host
      ensures pool.ConsumerOk(vm.consumer) && pool.Linked(VcoreSet(vm.consumer.demands))
      ensures AllWellFormed(old(pool.Views(vm.consumer)))
      ensures var (f, c, done) :=
        TryAllocate(pool.slots, old(pool.Free()), Consumer(vm.consumer.isTask, old(pool.Views(vm.consumer))));
        f == pool.Free() && c == Consumer(vm.consumer.isTask, pool.Views(vm.consumer)) && done == ok
      ensures hostedVms == old(hostedVms) + (if ok then [vm] else [])
      ensures vm.host == if ok then this else old(vm.host)
      ensures ok ==> pool.HalfAttached(vm.consumer, |vm.consumer.demands|)
      ensures ok ==> Grown(old(pool.HostedLists()), pool.HostedLists(), VcoreSet(vm.consumer.demands))
      ensures ok && pool.AllMatched(vm.consumer) ==>
        Balanced(pool.cores, old(pool.Free()), old(pool.HostedLists()), pool.Free(), pool.HostedLists())
      ensures !ok ==> pool.Unhosted(vm.consumer) && pool.HostedLists() == old(pool.HostedLists())
    {
      hide *;
      ok := pool.TryToAllocate(vm.consumer);
      if ok {
        vm.host := this;
        hostedVms := hostedVms + [vm];
      }
    }

    /** removeVM. */
    method RemoveVM(vm: Vm)
      requires pool.Valid() && pool.ConsumerOk(vm.consumer) && pool.Linked(VcoreSet(vm.consumer.demands))
      requires pool.HalfAttached(vm.consumer, |vm.consumer.demands|) && !vm.consumer.isTask
      modifies this`hostedVms, vm`host, pool.caps, vm.consumer.demands`location
      modifies pool.HostCores()`hosted, VcoreSet(vm.consumer.demands)`host
      ensures pool.ConsumerOk(vm.consumer) && pool.Unhosted(vm.consumer)
      ensures AllWellFormed(old(pool.Views(vm.consumer)))
      ensures (pool.Free(), Consumer(false, pool.Views(vm.consumer))) ==
        Release(old(pool.Free()), Consumer(false, old(pool.Views(vm.consumer))))
      ensures vm.host == null && hostedVms == Erase(old(hostedVms), vm)
      ensures forall k | 0 <= k < |pool.cores| ::
        pool.HostedLists()[k] == EraseEach(old(pool.HostedLists())[k], Vcores(vm.consumer.demands))
      ensures old(pool.AllMatched(vm.consumer)) ==>
        Balanced(pool.cores, old(pool.Free()), old(pool.HostedLists()), pool.Free(), pool.HostedLists())
    {
      hide *;
      var rc := vm.consumer;
      ghost var free, V, lists := pool.Free(), pool.Views(rc), pool.HostedLists();
      pool.ViewsWell(rc);
      ghost var matched := pool.AllMatched(rc);
      if matched {
        pool.Aligned();
        pool.AttachedNominal(rc);
      }
      pool.ReleaseAllocation(rc);
      pool.UnhostedNow(rc);
      if matched {
        ReleaseBalanced(pool.cores, free, lists, pool.HostedLists(), V, Vcores(rc.demands));
      }
      vm.host := null;
      hostedVms := Erase(hostedVms, vm);
    }
  }

  /** The demands of a migration: copies of the VM's, with no location and no virtual cores. */
  method CopyDemands(ds: seq<ResDemand>) returns (copies: seq<ResDemand>)
    requires forall i | 0 <= i < |ds| :: |ds[i].location| == |ds[i].amounts|
    ensures |copies| == |ds| && forall i | 0 <= i < |ds| :: fresh(copies[i]) && Copied(ds[i], copies[i])
    ensures forall i, j | 0 <= i < j < |ds| :: copies[i] != copies[j]
  {
    copies := [];
    for i := 0 to |ds|
      invariant |copies| == i && forall j | 0 <= j < i :: fresh(copies[j]) && Copied(ds[j], copies[j])
      invariant forall j, k | 0 <= j < k < i :: copies[j] != copies[k]
    {
      var d := new ResDemand(ds[i].kind, ds[i].arch, ds[i].amounts, []);
      copies := copies + [d];
    }
  }

  ghost predicate Copied(d: ResDemand, e: ResDemand)
    reads d, e
  {
    && e.kind == d.kind && e.arch == d.arch && e.amounts == d.amounts && e.vcores == []
    && |e.location| == |e.amounts| && forall x | 0 <= x < |e.location| :: e.location[x] == null
  }

  ghost predicate SameShape(d: ResDemand, e: ResDemand)
    reads d`amounts, e`amounts
  {
    d.kind == e.kind && d.arch == e.arch && d.amounts == e.amounts
  }

  /** A VM on its way from its host to a target that holds a reservation for it. */
  class VmMigration {
    const vm: Vm
    const target: Provider
    const consumer: ResourceConsumer

    constructor (vm: Vm, target: Provider)
      requires forall i | 0 <= i < |vm.consumer.demands| ::
        |vm.consumer.demands[i].location| == |vm.consumer.demands[i].amounts|
      ensures this.vm == vm && this.target == target
      ensures fresh(consumer) && !consumer.isTask && |consumer.demands| == |vm.consumer.demands|
      ensures forall i | 0 <= i < |consumer.demands| ::
        fresh(consumer.demands[i]) && Copied(vm.consumer.demands[i], consumer.demands[i])
      ensures forall i, j | 0 <= i < j < |consumer.demands| :: consumer.demands[i] != consumer.demands[j]
    {
      this.vm, this.target := vm, target;
      var copies := CopyDemands(vm.consumer.demands);
      consumer := new ResourceConsumer(false, copies);
    }

    /** The reservation this object makes on the target is no part of the VM it stands for. */
    ghost predicate Apart(source: Provider) {
      && source != target && !consumer.isTask && !vm.consumer.isTask
      && (forall i, j | 0 <= i < |source.pool.caps| && 0 <= j < |target.pool.caps| ::
            source.pool.caps[i] != target.pool.caps[j])
      && source.pool.HostCores() !! target.pool.HostCores()
      && (forall i, j | 0 <= i < |vm.consumer.demands| && 0 <= j < |consumer.demands| ::
            vm.consumer.demands[i] != consumer.demands[j])
      && VcoreSet(vm.consumer.demands) !! target.pool.HostCores()
      && Vcores(consumer.demands) == [] && VcoreSet(consumer.demands) == {}
    }

    /** None of the VM's virtual cores is on these lists. */
    ghost predicate NotListed(lists: seq<seq<Core>>) {
      forall v, k :: v in VcoreSet(vm.consumer.demands) && 0 <= k < |lists| ==> v !in lists[k]
    }

    /** The VM runs on provider p. */
    ghost predicate RunsOn(p: Provider)
      reads vm.consumer.demands, VcoreSet(vm.consumer.demands), p.pool.HostCores()
    {
      && p.pool.Valid() && p.pool.ConsumerOk(vm.consumer) && p.pool.Linked(VcoreSet(vm.consumer.demands))
      && |p.pool.cores| == |p.pool.caps| == |p.pool.slots|
      && p.pool.HalfAttached(vm.consumer, |vm.consumer.demands|)
    }

    /** The target holds the reservation: every demand sits, in order, on capacities that suit it. */
    ghost predicate OnTarget()
      reads consumer.demands, target.pool.caps
    {
      && target.pool.Valid() && target.pool.ConsumerOk(consumer) && NonNegative(target.pool.Free())
      && |target.pool.slots| == |target.pool.caps|
      && forall i | 0 <= i < |consumer.demands| ::
        Reservations.Sits(target.pool.slots, target.pool.View(consumer.demands[i]))
    }

    /** startMigration reserves on the target. */
    method Start() returns (ok: bool)
      requires target.pool.Valid() && target.pool.ConsumerOk(consumer) && !consumer.isTask
        && Vcores(consumer.demands) == []
      requires NonNegative(target.pool.Free()) && HoldsNothing(false, target.pool.Views(consumer))
      modifies target.pool.caps, consumer.demands`location, target.pool.HostCores()`hosted,
        VcoreSet(consumer.demands)`host
      ensures ok ==> OnTarget()
      ensures !ok ==> target.pool.Free() == old(target.pool.Free())
      ensures AllWellFormed(old(target.pool.Views(consumer)))
        && TryAllocate(target.pool.slots, old(target.pool.Free()), Consumer(false, old(target.pool.Views(consumer))))
          == (target.pool.Free(), Consumer(false, target.pool.Views(consumer)), ok)
      ensures target.pool.HostedLists() == old(target.pool.HostedLists())
    {
      hide *;
      ghost var pool, free, V, lists := target.pool, target.pool.Free(), target.pool.Views(consumer),
        target.pool.HostedLists();
      NoVcores(pool);
      pool.ViewsWell(consumer);
      pool.Aligned();
      ok := target.pool.TryToAllocate(consumer);
      if ok {
        NothingGrown(pool, lists);
        ReservationStands(pool, free, V);
      } else {
        AllOrNothing(pool.slots, free, Consumer(false, V));
      }
    }

    ghost predicate Matching()
      reads vm.consumer.demands`amounts, consumer.demands`amounts
    {
      && |vm.consumer.demands| == |consumer.demands|
      && (forall i | 0 <= i < |consumer.demands| :: SameShape(vm.consumer.demands[i], consumer.demands[i]))
      && (forall i, j | 0 <= i < j < |consumer.demands| :: consumer.demands[i].kind != consumer.demands[j].kind)
    }

    /** Nothing of the VM or its host is touched. */
    twostate predicate Untouched(ds: seq<ResDemand>, vs: set<Core>, hosts: set<Core>)
      reads ds, vs, hosts
    {
      && (forall i | 0 <= i < |ds| :: unchanged(ds[i]))
      && (forall v | v in vs :: unchanged(v)) && forall c | c in hosts :: unchanged(c)
    }

    /** The reservation is returned; the source does not notice. */
    method ReturnReservation(source: Provider, ghost free: seq<real>, ghost m: Consumer,
                             ghost sf: seq<real>, ghost w: seq<Demand>)
      requires Apart(source) && NotListed(target.pool.HostedLists()) && RunsOn(source) && OnTarget()
      requires free == target.pool.Free() && m == Consumer(false, target.pool.Views(consumer))
        && AllWellFormed(m.demands)
      requires sf == source.pool.Free() && w == source.pool.Views(vm.consumer)
      modifies target.pool.caps, consumer.demands`location, target.pool.HostCores()`hosted,
        VcoreSet(consumer.demands)`host
      ensures NotListed(target.pool.HostedLists()) && RunsOn(source)
      ensures target.pool.Free() == Release(free, m).0
      ensures source.pool.Free() == sf && source.pool.Views(vm.consumer) == w
    {
      hide Apart, NotListed, OnTarget, Release, AllWellFormed, Pool.Valid, Pool.ConsumerOk, Pool.Linked,
        Pool.HalfAttached;
      CapsApart(source);
      ghost var lists := target.pool.HostedLists();
      ReturnAlone(source, free, m, lists);
    }

    method ReturnAlone(source: Provider, ghost free: seq<real>, ghost m: Consumer, ghost lists: seq<seq<Core>>)
      requires Apart(source) && OnTarget() && lists == target.pool.HostedLists()
      requires free == target.pool.Free() && m == Consumer(false, target.pool.Views(consumer))
        && AllWellFormed(m.demands)
      modifies target.pool.caps, consumer.demands`location, target.pool.HostCores()`hosted,
        VcoreSet(consumer.demands)`host
      ensures target.pool.Free() == Release(free, m).0 && target.pool.HostedLists() == lists
      ensures Untouched(vm.consumer.demands, VcoreSet(vm.consumer.demands), source.pool.HostCores())
    {
      hide Pool.Valid, Pool.ConsumerOk, Pool.Linked, Pool.HalfAttached, Pool.Unhosted, Release, EraseEach,
        AllWellFormed, NonNegative, Reservations.Sits, NotListed, OnTarget, Apart, Vcores, VcoreSet;
      ApartIs(source);
      VcoreSetIs(vm.consumer.demands);
      TargetIs();
      target.pool.ReleaseAllocation(consumer);
      NothingErased(target.pool, lists);
    }

    /** What the objects of the migration do not share. */
    lemma ApartIs(source: Provider)
      requires Apart(source)
      ensures !consumer.isTask && !vm.consumer.isTask && Vcores(consumer.demands) == []
        && VcoreSet(consumer.demands) == {}
      ensures source.pool.HostCores() !! target.pool.HostCores()
        && VcoreSet(vm.consumer.demands) !! target.pool.HostCores()
      ensures forall i, j | 0 <= i < |vm.consumer.demands| && 0 <= j < |consumer.demands| ::
        vm.consumer.demands[i] != consumer.demands[j]
    {}

    /** The reservation can be returned. */
    lemma TargetIs()
      requires OnTarget() && VcoreSet(consumer.demands) == {}
      ensures target.pool.Valid() && target.pool.ConsumerOk(consumer) && target.pool.Linked(VcoreSet(consumer.demands))
      ensures |target.pool.cores| == |target.pool.caps|
    {
      target.pool.Aligned();
    }

    /** The VM leaves its host, ready to be added to the target. */
    method LeaveSource(source: Provider, ghost sf: seq<real>, ghost w: seq<Demand>, ghost free: seq<real>)
      requires vm.host == source && Apart(source) && NotListed(target.pool.HostedLists()) && RunsOn(source)
        && target.pool.Valid()
      requires sf == source.pool.Free() && w == source.pool.Views(vm.consumer) && AllWellFormed(w)
      requires free == target.pool.Free()
      modifies source`hostedVms, vm`host, source.pool.caps
      modifies vm.consumer.demands`location, source.pool.HostCores()`hosted, VcoreSet(vm.consumer.demands)`host
      ensures source.hostedVms == Erase(old(source.hostedVms), vm) && !vm.consumer.isTask
      ensures target.pool.ConsumerOk(vm.consumer) && target.pool.Unhosted(vm.consumer) && target.pool.Free() == free
      ensures (source.pool.Free(), Consumer(false, target.pool.Views(vm.consumer))) == Release(sf, Consumer(false, w))
    {
      hide Pool.Valid, Pool.ConsumerOk, Pool.Linked, Pool.HalfAttached, Pool.Unhosted, Release, EraseEach, Erase,
        AllWellFormed, Balanced, Pool.AllMatched, NotListed, Pool.Views, Cleared, Vcores, Apart, RunsOn;
      RunsIs(source);
      ApartIs(source);
      CapsApart(source);
      ghost var lists := target.pool.HostedLists();
      source.RemoveVM(vm);
      assert target.pool.HostedLists() == lists;
      ClearedIs(source, sf, w);
      Portable(source);
    }

    lemma RunsIs(p: Provider)
      requires RunsOn(p)
      ensures p.pool.Valid() && p.pool.ConsumerOk(vm.consumer) && p.pool.Linked(VcoreSet(vm.consumer.demands))
      ensures |p.pool.cores| == |p.pool.caps| && p.pool.HalfAttached(vm.consumer, |vm.consumer.demands|)
    {}

    lemma ClearedIs(source: Provider, free: seq<real>, V: seq<Demand>)
      requires AllWellFormed(V)
      requires (source.pool.Free(), Consumer(false, source.pool.Views(vm.consumer)))
        == Release(free, Consumer(false, V))
      ensures Cleared(source)
    {}

    /** The VM is placed nowhere. */
    ghost predicate Cleared(source: Provider)
      reads vm.consumer.demands
    {
      forall i, x | 0 <= i < |vm.consumer.demands| && 0 <= x < |vm.consumer.demands[i].location| ::
        source.pool.View(vm.consumer.demands[i]).location[x] == None
    }

    /** A VM that is placed nowhere can be placed on the target. */
    lemma Portable(source: Provider)
      requires source.pool.ConsumerOk(vm.consumer) && source.pool.Unhosted(vm.consumer) && !vm.consumer.isTask
      requires Cleared(source)
      requires VcoreSet(vm.consumer.demands) !! target.pool.HostCores() && NotListed(target.pool.HostedLists())
      ensures target.pool.ConsumerOk(vm.consumer) && target.pool.Unhosted(vm.consumer)
      ensures target.pool.Views(vm.consumer) == source.pool.Views(vm.consumer)
    {
      forall i | 0 <= i < |vm.consumer.demands|
        ensures target.pool.DemandWell(vm.consumer.demands[i])
        ensures target.pool.View(vm.consumer.demands[i]) == source.pool.View(vm.consumer.demands[i])
      {
        var d := vm.consumer.demands[i];
        assert source.pool.DemandWell(d);
        forall x | 0 <= x < |d.location|
          ensures d.location[x] == null
        {
          assert source.pool.View(d).location[x] == None;
        }
        assert target.pool.View(d).location == source.pool.View(d).location;
      }
      forall v, k | v in VcoreSet(vm.consumer.demands) && 0 <= k < |target.pool.cores| && target.pool.cores[k] != null
        ensures v !in target.pool.cores[k].hosted
      {
        assert v !in target.pool.HostedLists()[k];
      }
    }

    /** The VM is nowhere, and the target has room for it. */
    ghost predicate Fits()
      reads vm.consumer.demands, VcoreSet(vm.consumer.demands), target.pool.caps, target.pool.HostCores()
    {
      && target.pool.Valid() && target.pool.ConsumerOk(vm.consumer) && target.pool.Unhosted(vm.consumer)
        && !vm.consumer.isTask
      && AllWellFormed(target.pool.Views(vm.consumer)) && |target.pool.Free()| == |target.pool.slots|
      && TryAllocate(target.pool.slots, target.pool.Free(), Consumer(false, target.pool.Views(vm.consumer))).2
    }

    /** The reservation is returned and the VM leaves its host: now it fits on the target. */
    method HandOver(source: Provider, ghost free: seq<real>, ghost m: Consumer,
                    ghost sf: seq<real>, ghost w: seq<Demand>)
      requires vm.host == source && Apart(source) && NotListed(target.pool.HostedLists()) && RunsOn(source)
        && OnTarget()
      requires free == target.pool.Free() && m == Consumer(false, target.pool.Views(consumer))
        && AllWellFormed(m.demands)
      requires sf == source.pool.Free() && w == source.pool.Views(vm.consumer) && AllWellFormed(w)
      requires Reserving(m)
      modifies source`hostedVms, vm`host, source.pool.caps, target.pool.caps
      modifies vm.consumer.demands`location, consumer.demands`location, source.pool.HostCores()`hosted,
        target.pool.HostCores()`hosted, VcoreSet(vm.consumer.demands)`host, VcoreSet(consumer.demands)`host
      ensures source.hostedVms == Erase(old(source.hostedVms), vm) && Apart(source) && Fits()
      ensures target.pool.Free() == Release(free, m).0
      ensures (source.pool.Free(), Consumer(false, target.pool.Views(vm.consumer))) == Release(sf, Consumer(false, w))
    {
      hide *;
      TargetFree();
      ReturnReservation(source, free, m, sf, w);
      LeaveSource(source, sf, w, Release(free, m).0);
      RoomForVm(free, m);
    }

    lemma TargetFree()
      requires OnTarget()
      ensures NonNegative(target.pool.Free()) && |target.pool.Free()| == |target.pool.slots| && target.pool.Valid()
    {}

    lemma CapsApart(source: Provider)
      requires Apart(source)
      ensures source != target && forall i, j | 0 <= i < |source.pool.caps| && 0 <= j < |target.pool.caps| ::
          source.pool.caps[i] != target.pool.caps[j]
    {}

    /**
     finalizeMigration: the reservation is returned, the VM leaves its host, and the target takes it.
     The target always has room for it.
     */
    method Finalize(source: Provider) returns (ok: bool)
      requires vm.host == source && Apart(source) && NotListed(target.pool.HostedLists()) && RunsOn(source)
        && OnTarget() && Matching()
      modifies source`hostedVms, target`hostedVms, vm`host, source.pool.caps, target.pool.caps
      modifies vm.consumer.demands`location, consumer.demands`location, source.pool.HostCores()`hosted,
        target.pool.HostCores()`hosted, VcoreSet(vm.consumer.demands)`host, VcoreSet(consumer.demands)`host
      ensures ok && vm.host == target && target.hostedVms == old(target.hostedVms) + [vm]
      ensures source.hostedVms == Erase(old(source.hostedVms), vm)
      ensures RunsOn(target)
      ensures AllWellFormed(old(target.pool.Views(consumer))) && AllWellFormed(old(source.pool.Views(vm.consumer)))
      ensures var back := Release(old(target.pool.Free()), Consumer(false, old(target.pool.Views(consumer))));
        var left := Release(old(source.pool.Free()), Consumer(false, old(source.pool.Views(vm.consumer))));
        && source.pool.Free() == left.0 && |back.0| == |target.pool.slots| && AllWellFormed(left.1.demands)
        && TryAllocate(target.pool.slots, back.0, left.1)
             == (target.pool.Free(), Consumer(false, target.pool.Views(vm.consumer)), true)
    {
      hide *;
      ghost var free, m := target.pool.Free(), Consumer(false, target.pool.Views(consumer));
      ghost var sf, w := source.pool.Free(), source.pool.Views(vm.consumer);
      ReservationIs(m);
      VmIs(source);
      HandOver(source, free, m, sf, w);
      ghost var v := target.pool.Views(vm.consumer);
      ok := Settle(source, source.pool.Free(), Release(free, m).0, v);
    }

    lemma VmIs(source: Provider)
      requires RunsOn(source)
      ensures AllWellFormed(source.pool.Views(vm.consumer))
    {
      source.pool.ViewsWell(vm.consumer);
    }

    /** The VM is added to a target it fits on. */
    method Settle(ghost source: Provider, ghost sf: seq<real>, ghost free: seq<real>, ghost v: seq<Demand>)
      returns (ok: bool)
      requires Fits() && Apart(source)
      requires sf == source.pool.Free() && free == target.pool.Free() && v == target.pool.Views(vm.consumer)
      modifies target`hostedVms, vm`host, target.pool.caps, vm.consumer.demands`location
      modifies target.pool.HostCores()`hosted, VcoreSet(vm.consumer.demands)`host
      ensures ok && vm.host == target && target.hostedVms == old(target.hostedVms) + [vm] && RunsOn(target)
      ensures source.hostedVms == old(source.hostedVms) && source.pool.Free() == sf
      ensures |free| == |target.pool.slots| && AllWellFormed(v)
        && TryAllocate(target.pool.slots, free, Consumer(false, v))
             == (target.pool.Free(), Consumer(false, target.pool.Views(vm.consumer)), true)
    {
      hide *;
      FitsIs();
      CapsApart(source);
      ghost var vms := source.hostedVms;
      ok := target.AddVM(vm);
      assert source.hostedVms == vms;
      target.pool.Aligned();
      RunsOnIs();
    }

    lemma FitsIs()
      requires Fits()
      ensures target.pool.Valid() && target.pool.ConsumerOk(vm.consumer) && target.pool.Unhosted(vm.consumer)
        && !vm.consumer.isTask
      ensures AllWellFormed(target.pool.Views(vm.consumer)) && |target.pool.Free()| == |target.pool.slots|
      ensures TryAllocate(target.pool.slots, target.pool.Free(), Consumer(false, target.pool.Views(vm.consumer))).2
    {}

    lemma RunsOnIs()
      requires target.pool.Valid() && target.pool.ConsumerOk(vm.consumer)
        && target.pool.Linked(VcoreSet(vm.consumer.demands))
      requires |target.pool.cores| == |target.pool.caps| == |target.pool.slots|
      requires target.pool.HalfAttached(vm.consumer, |vm.consumer.demands|)
      ensures RunsOn(target)
    {}

    /** The reservation m sits on the target and matches the VM's demands. */
    ghost predicate Reserving(m: Consumer)
      reads vm.consumer.demands`amounts
    {
      && !m.isTask && |m.demands| == |vm.consumer.demands|
      && (forall i | 0 <= i < |m.demands| ::
            && m.demands[i].kind == vm.consumer.demands[i].kind && m.demands[i].arch == vm.consumer.demands[i].arch
            && m.demands[i].amounts == vm.consumer.demands[i].amounts
            && Reservations.Sits(target.pool.slots, m.demands[i]))
      && (forall i, j | 0 <= i < j < |m.demands| :: m.demands[i].kind != m.demands[j].kind)
    }

    lemma ReservationIs(m: Consumer)
      requires OnTarget() && Matching() && m == Consumer(false, target.pool.Views(consumer))
      ensures Reserving(m) && AllWellFormed(m.demands)
    {
      hide Reservations.Sits;
      forall i | 0 <= i < |m.demands|
        ensures m.demands[i] == target.pool.View(consumer.demands[i])
      {}
    }

    /** RoomAgain for this VM. */
    lemma RoomForVm(free: seq<real>, m: Consumer)
      requires Reserving(m) && NonNegative(free) && |free| == |target.pool.slots| && AllWellFormed(m.demands)
      requires target.pool.Valid() && target.pool.ConsumerOk(vm.consumer) && target.pool.Unhosted(vm.consumer)
      requires !vm.consumer.isTask && target.pool.Free() == Release(free, m).0
      ensures Fits()
    {
      target.pool.ViewsWell(vm.consumer);
      hide Reservations.Sits, TryAllocate, Release, Pool.Valid, Pool.ConsumerOk, Pool.Unhosted;
      Reservations.RoomAgain(target.pool.slots, free, m, Consumer(false, target.pool.Views(vm.consumer)));
    }

    lemma NothingErased(pool: Pool, lists: seq<seq<Core>>)
      requires Vcores(consumer.demands) == [] && |lists| == |pool.cores|
      requires forall k | 0 <= k < |lists| :: pool.HostedLists()[k] == EraseEach(lists[k], Vcores(consumer.demands))
      ensures pool.HostedLists() == lists
    {}

    lemma NoVcores(pool: Pool)
      requires Vcores(consumer.demands) == []
      ensures pool.Unhosted(consumer)
    {}

    lemma NothingGrown(pool: Pool, lists: seq<seq<Core>>)
      requires Vcores(consumer.demands) == [] && Grown(lists, pool.HostedLists(), VcoreSet(consumer.demands))
      ensures pool.HostedLists() == lists
    {
      VcoreSetIs(vm.consumer.demands);
      GrownByNone(lists, pool.HostedLists());
    }

    /** What a successful reservation leaves on the target. */
    lemma ReservationStands(pool: Pool, free: seq<real>, V: seq<Demand>)
      requires pool == target.pool && pool.Valid() && pool.ConsumerOk(consumer) && !consumer.isTask
      requires AllWellFormed(V) && |free| == |pool.slots| == |pool.caps| && NonNegative(free) && HoldsNothing(false, V)
      requires TryAllocate(pool.slots, free, Consumer(false, V))
        == (pool.Free(), Consumer(false, pool.Views(consumer)), true)
      ensures OnTarget()
    {
      forall k | 0 <= k < |free|
        ensures pool.Free()[k] >= 0.0
      {
        AllocConserves(pool.slots, free, false, V, k);
      }
      Reservations.AllocSame(pool.slots, free, false, V);
      forall i | 0 <= i < |consumer.demands|
        ensures Reservations.Sits(pool.slots, pool.View(consumer.demands[i]))
      {
        Reservations.AllocPlaces(pool.slots, free, false, V, i);
      }
    }
  }
}
