/** The resources of a provider as objects, and the loops of tryToAllocate and releaseAllocation. */
module ResourcePool {
  import opened Common
  import opened Allocation

  /** One capacity; consumers point at it while it pays for one of their amounts. */
  class Capacity {
    var value: real

    constructor (value: real)
      ensures this.value == value
    {
      this.value := value;
    }
  }

  /** The hosting side of a core scheduler: the virtual cores it hosts, and the core that hosts it. */
  class Core {
    const nominal: real
    var hosted: seq<Core>
    var host: Core?

    constructor (nominal: real)
      ensures this.nominal == nominal && hosted == [] && host == null
    {
      this.nominal := nominal;
      hosted := [];
      host := null;
    }

    method AddVcore(v: Core)
      modifies this`hosted, v`host
      ensures hosted == old(hosted) + [v] && v.host == this
    {
      hosted := hosted + [v];
      v.host := this;
    }

    method RemoveVcore(v: Core)
      modifies this`hosted, v`host
      ensures hosted == Erase(old(hosted), v) && v.host == null
    {
      hosted := Erase(hosted, v);
      v.host := null;
    }
  }

  predicate Apart(vs: seq<Core>, ws: seq<Core>) {
    forall v :: v in vs ==> v !in ws
  }

  /** A resource; a CPU has one core for each capacity, in the same order. */
  class DcResource {
    const kind: Kind
    const arch: real
    const capacity: seq<Capacity>
    const cores: seq<Core>

    constructor (kind: Kind, arch: real, capacity: seq<Capacity>, cores: seq<Core>)
      ensures this.kind == kind && this.arch == arch && this.capacity == capacity && this.cores == cores
    {
      this.kind, this.arch, this.capacity, this.cores := kind, arch, capacity, cores;
    }
  }

  /** A demand; vcores are the cores of the virtual CPU it pays for, if it is a VM's computing demand. */
  class ResDemand {
    const kind: Kind
    const arch: real
    const vcores: seq<Core>
    var amounts: seq<real>
    var location: seq<Capacity?>

    constructor (kind: Kind, arch: real, amounts: seq<real>, vcores: seq<Core>)
      ensures this.kind == kind && this.arch == arch && this.amounts == amounts && this.vcores == vcores
      ensures |location| == |amounts| && forall i | 0 <= i < |location| :: location[i] == null
    {
      this.kind, this.arch, this.amounts, this.vcores := kind, arch, amounts, vcores;
      location := seq(|amounts|, i => null);
    }
  }

  class ResourceConsumer {
    const isTask: bool
    const demands: seq<ResDemand>

    constructor (isTask: bool, demands: seq<ResDemand>)
      ensures this.isTask == isTask && this.demands == demands
    {
      this.isTask, this.demands := isTask, demands;
    }
  }

  // ---------- all capacities in scan order ----------

  function Flat(rs: seq<DcResource>): seq<Capacity> {
    if rs == [] then [] else rs[0].capacity + Flat(rs[1..])
  }

  function FlatSlots(rs: seq<DcResource>): (r: seq<Slot>)
    ensures |r| == |Flat(rs)|
  {
    if rs == [] then [] else
    seq(|rs[0].capacity|, i => Slot(rs[0].kind, rs[0].arch)) + FlatSlots(rs[1..])
  }

  /** The core whose available rate a capacity is, null for capacities of other resources. */
  function FlatCores(rs: seq<DcResource>): (r: seq<Core?>)
    requires forall r | 0 <= r < |rs| && rs[r].kind == Computing :: |rs[r].cores| == |rs[r].capacity|
    ensures |r| == |Flat(rs)|
  {
    if rs == [] then [] else
    (if rs[0].kind == Computing then rs[0].cores else seq(|rs[0].capacity|, i => null)) + FlatCores(rs[1..])
  }

  /** Where the capacities of resource r begin. */
  function Offset(rs: seq<DcResource>, r: nat): (k: nat)
    requires r <= |rs|
    ensures k <= |Flat(rs)| && (r == |rs| ==> k == |Flat(rs)|)
  {
    if r == 0 then 0 else |rs[0].capacity| + Offset(rs[1..], r - 1)
  }

  lemma {:induction false} FlatAt(rs: seq<DcResource>, r: nat, c: nat)
    requires r < |rs| && c < |rs[r].capacity|
    ensures Offset(rs, r) + c < Offset(rs, r) + |rs[r].capacity| == Offset(rs, r + 1) <= |Flat(rs)|
    ensures Flat(rs)[Offset(rs, r) + c] == rs[r].capacity[c]
    ensures FlatSlots(rs)[Offset(rs, r) + c] == Slot(rs[r].kind, rs[r].arch)
  {
    if r > 0 {
      FlatAt(rs[1..], r - 1, c);
      assert Offset(rs, r + 1) == |rs[0].capacity| + Offset(rs[1..], r);
    } else {
      assert Offset(rs[1..], 0) == 0;
      assert Offset(rs, 1) == |rs[0].capacity| + Offset(rs[1..], 0);
    }
  }

  lemma {:induction false} FlatCoreAt(rs: seq<DcResource>, r: nat, c: nat)
    requires forall r | 0 <= r < |rs| && rs[r].kind == Computing :: |rs[r].cores| == |rs[r].capacity|
    requires r < |rs| && c < |rs[r].capacity|
    ensures Offset(rs, r) + c < |Flat(rs)|
    ensures FlatCores(rs)[Offset(rs, r) + c] == if rs[r].kind == Computing then rs[r].cores[c] else null
  {
    if r > 0 {
      FlatCoreAt(rs[1..], r - 1, c);
    }
  }

  lemma {:induction false} OffsetNext(rs: seq<DcResource>, r: nat)
    requires r < |rs|
    ensures Offset(rs, r + 1) == Offset(rs, r) + |rs[r].capacity|
  {
    if r > 0 {
      OffsetNext(rs[1..], r - 1);
    }
  }

  /** Which virtual cores placement p puts on capacity k, in order. */
  function Put(vs: seq<Core>, p: seq<nat>, k: nat): (r: seq<Core>)
    requires |p| <= |vs|
    ensures forall i | 0 <= i < |r| :: r[i] in vs
  {
    if p == [] then [] else (if p[0] == k then [vs[0]] else []) + Put(vs[1..], p[1..], k)
  }

  lemma {:induction false} PutNext(vs: seq<Core>, p: seq<nat>, j: nat, k: nat)
    requires |p| < |vs|
    ensures Put(vs, p + [j], k) == Put(vs, p, k) + (if j == k then [vs[|p|]] else [])
  {
    if p == [] {
      assert [j][1..] == [];
    } else {
      assert (p + [j])[1..] == p[1..] + [j];
      PutNext(vs[1..], p[1..], j, k);
    }
  }

  /** How often a virtual core is on a list. */
  ghost function Times(s: seq<Core>, x: Core): (r: nat)
    ensures x in s <==> r > 0
  {
    if s == [] then 0 else (if s[0] == x then 1 else 0) + Times(s[1..], x)
  }

  lemma TimesHead(y: Core, s: seq<Core>, x: Core)
    ensures Times([y] + s, x) == (if y == x then 1 else 0) + Times(s, x)
  {
    assert ([y] + s)[1..] == s;
  }

  lemma {:induction false} TimesAppend(s: seq<Core>, r: seq<Core>, x: Core)
    ensures Times(s + r, x) == Times(s, x) + Times(r, x)
  {
    if s == [] {
      assert s + r == r;
    } else {
      assert s + r == [s[0]] + (s[1..] + r);
      TimesHead(s[0], s[1..] + r, x);
      TimesAppend(s[1..], r, x);
    }
  }

  lemma {:induction false} PutOnce(vs: seq<Core>, p: seq<nat>, x: nat)
    requires x < |p| <= |vs| && forall i, j | 0 <= i < j < |vs| :: vs[i] != vs[j]
    ensures Times(Put(vs, p, p[x]), vs[x]) == 1
  {
    var rest, k := Put(vs[1..], p[1..], p[x]), p[x];
    assert Put(vs, p, k) == (if p[0] == k then [vs[0]] else []) + rest;
    if x > 0 {
      PutOnce(vs[1..], p[1..], x - 1);
    } else {
      assert forall v :: v in rest ==> v in vs[1..];
      assert vs[0] !in vs[1..];
    }
    hide Put, Times;
    TimesHead(vs[0], rest, vs[x]);
    assert [] + rest == rest;
  }

  /** Only capacities of CPUs have cores. */
  lemma {:induction false} CoreSlot(rs: seq<DcResource>, k: nat)
    requires InStep(rs) && k < |Flat(rs)| && FlatCores(rs)[k] != null
    ensures FlatSlots(rs)[k].kind == Computing
  {
    if k >= |rs[0].capacity| {
      CoreSlot(rs[1..], k - |rs[0].capacity|);
    }
  }

  lemma {:induction false} PutHas(vs: seq<Core>, p: seq<nat>, k: nat)
    requires |p| <= |vs|
    ensures forall v :: v in Put(vs, p, k) ==> exists x :: 0 <= x < |p| && p[x] == k && vs[x] == v
  {
    if p != [] {
      PutHas(vs[1..], p[1..], k);
      forall v | v in Put(vs[1..], p[1..], k)
        ensures exists x :: 0 <= x < |p| && p[x] == k && vs[x] == v
      {
        var x :| 0 <= x < |p[1..]| && p[1..][x] == k && vs[1..][x] == v;
        assert p[x + 1] == k && vs[x + 1] == v;
      }
    }
  }

  function Nominal(vs: seq<Core>): real {
    if vs == [] then 0.0 else vs[0].nominal + Nominal(vs[1..])
  }

  lemma {:induction false} NominalAppend(vs: seq<Core>, ws: seq<Core>)
    ensures Nominal(vs + ws) == Nominal(vs) + Nominal(ws)
  {
    if vs == [] {
      assert vs + ws == ws;
    } else {
      assert (vs + ws)[1..] == vs[1..] + ws;
      NominalAppend(vs[1..], ws);
    }
  }

  /** The virtual cores put on a capacity are worth what the placement puts there. */
  lemma {:induction false} PutNominal(vs: seq<Core>, amounts: seq<real>, p: seq<nat>, k: nat)
    requires |p| <= |vs| == |amounts| && forall x | 0 <= x < |vs| :: vs[x].nominal == amounts[x]
    ensures Nominal(Put(vs, p, k)) == Load(amounts, p, k)
    ensures forall v :: v in Put(vs, p, k) ==> v in vs
  {
    if p != [] {
      PutNominal(vs[1..], amounts[1..], p[1..], k);
      NominalAppend(if p[0] == k then [vs[0]] else [], Put(vs[1..], p[1..], k));
      assert Nominal([vs[0]]) == vs[0].nominal + Nominal([]);
    }
  }

  /** From lists and hosts to lists1 and hosts1 the virtual cores vs were hosted as placement p says. */
  ghost predicate Moved(cores: seq<Core?>, vs: seq<Core>, p: seq<nat>,
                        lists: seq<seq<Core>>, hosts: seq<Core?>, lists1: seq<seq<Core>>, hosts1: seq<Core?>)
  {
    && |lists| == |lists1| == |cores| && |hosts| == |hosts1| == |vs| && |p| <= |vs|
    && (forall k | 0 <= k < |cores| :: lists1[k] == lists[k] + Put(vs, p, k))
    && (forall x | 0 <= x < |vs| ::
          if x < |p| then p[x] < |cores| && cores[p[x]] != null && hosts1[x] == cores[p[x]] else hosts1[x] == hosts[x])
  }

  lemma MovedNext(cores: seq<Core?>, vs: seq<Core>, p: seq<nat>,
                  lists: seq<seq<Core>>, hosts: seq<Core?>, lists1: seq<seq<Core>>, hosts1: seq<Core?>, j: nat)
    requires Moved(cores, vs, p, lists, hosts, lists1, hosts1) && |p| < |vs| && j < |cores| && cores[j] != null
    ensures Moved(cores, vs, p + [j], lists, hosts, lists1[j := lists1[j] + [vs[|p|]]], hosts1[|p| := cores[j]])
  {
    var lists2 := lists1[j := lists1[j] + [vs[|p|]]];
    forall k | 0 <= k < |cores|
      ensures lists2[k] == lists[k] + Put(vs, p + [j], k)
    {
      PutNext(vs, p, j, k);
      var was := Put(vs, p, k);
      hide Put;
      assert lists[k] + was + [vs[|p|]] == lists[k] + (was + [vs[|p|]]);
      assert was + [] == was;
    }
    hide Put;
  }

  /** The hosted lists grew by virtual cores of vs only. */
  ghost predicate Grown(lists: seq<seq<Core>>, lists1: seq<seq<Core>>, vs: set<Core>) {
    && |lists| == |lists1|
    && forall k | 0 <= k < |lists| :: GrownList(lists[k], lists1[k], vs)
  }

  ghost predicate GrownList(s: seq<Core>, s1: seq<Core>, vs: set<Core>) {
    s <= s1 && forall i | |s| <= i < |s1| :: s1[i] in vs
  }

  lemma GrownByPut(ws: seq<Core>, p: seq<nat>, lists: seq<seq<Core>>, lists1: seq<seq<Core>>, vs: set<Core>)
    requires |p| <= |ws| && |lists| == |lists1| && forall k | 0 <= k < |lists| :: lists1[k] == lists[k] + Put(ws, p, k)
    requires forall v :: v in ws ==> v in vs
    ensures Grown(lists, lists1, vs)
  {
    forall k | 0 <= k < |lists|
      ensures GrownList(lists[k], lists1[k], vs)
    {
      var added := Put(ws, p, k);
      assert forall i | 0 <= i < |added| :: added[i] in vs;
      GrownByTail(lists[k], added, vs);
    }
  }

  lemma GrownByTail(s: seq<Core>, added: seq<Core>, vs: set<Core>)
    requires forall i | 0 <= i < |added| :: added[i] in vs
    ensures GrownList(s, s + added, vs)
  {}

  lemma GrownTail(lists: seq<seq<Core>>, lists1: seq<seq<Core>>, vs: set<Core>, k: nat)
    requires Grown(lists, lists1, vs) && k < |lists|
    ensures forall v :: v in lists1[k][|lists[k]|..] ==> v in vs
  {
    var added := lists1[k][|lists[k]|..];
    forall v | v in added
      ensures v in vs
    {
      var i :| 0 <= i < |added| && added[i] == v;
      assert v == lists1[k][|lists[k]| + i];
    }
  }

  lemma GrownByNone(lists: seq<seq<Core>>, lists1: seq<seq<Core>>)
    requires Grown(lists, lists1, {})
    ensures lists1 == lists
  {
    forall k | 0 <= k < |lists|
      ensures lists1[k] == lists[k]
    {
      GrownTail(lists, lists1, {}, k);
      Head(lists1[k][|lists[k]|..]);
    }
  }

  lemma GrownMore(lists: seq<seq<Core>>, lists1: seq<seq<Core>>, lists2: seq<seq<Core>>, vs: set<Core>)
    requires Grown(lists, lists1, vs) && Grown(lists1, lists2, vs)
    ensures Grown(lists, lists2, vs)
  {
    forall k | 0 <= k < |lists|
      ensures GrownList(lists[k], lists2[k], vs)
    {
      assert GrownList(lists[k], lists1[k], vs) && GrownList(lists1[k], lists2[k], vs);
      forall i | |lists[k]| <= i < |lists2[k]|
        ensures lists2[k][i] in vs
      {
        assert i < |lists1[k]| ==> lists2[k][i] == lists1[k][i];
      }
    }
  }

  /** Where cores are concerned, what is free plus what is hosted did not change. */
  ghost predicate Balanced(cores: seq<Core?>, free: seq<real>, lists: seq<seq<Core>>, free1: seq<real>,
                           lists1: seq<seq<Core>>) {
    && |free| == |lists| == |free1| == |lists1| == |cores|
    && forall k | 0 <= k < |cores| && cores[k] != null :: free1[k] + Nominal(lists1[k]) == free[k] + Nominal(lists[k])
  }

  lemma BalancedMore(cores: seq<Core?>, free: seq<real>, lists: seq<seq<Core>>, free1: seq<real>,
                     lists1: seq<seq<Core>>,
                     free2: seq<real>, lists2: seq<seq<Core>>)
    requires Balanced(cores, free, lists, free1, lists1) && Balanced(cores, free1, lists1, free2, lists2)
    ensures Balanced(cores, free, lists, free2, lists2)
  {}

  lemma ReleaseBalanced(cores: seq<Core?>, free: seq<real>, lists: seq<seq<Core>>, lists1: seq<seq<Core>>,
                        V: seq<Demand>, vs: seq<Core>)
    requires AllWellFormed(V) && |free| == |cores| == |lists| == |lists1|
    requires forall k | 0 <= k < |cores| :: lists1[k] == EraseEach(lists[k], vs)
    requires forall k | 0 <= k < |cores| && cores[k] != null :: NominalDrop(lists[k], vs) == Held(false, V, k)
    ensures Balanced(cores, free, lists, Release(free, Consumer(false, V)).0, lists1)
  {}

  function NominalDrop(s: seq<Core>, vs: seq<Core>): real {
    Nominal(s) - Nominal(EraseEach(s, vs))
  }

  /** The position of a capacity among caps, None for NULL and for capacities of other providers. */
  function Position(caps: seq<Capacity>, c: Capacity?): (r: Option<nat>)
    ensures r.Some? ==> r.value < |caps| && caps[r.value] == c
    ensures r.None? ==> c == null || forall i | 0 <= i < |caps| :: caps[i] != c
  {
    if c == null || caps == [] then None
    else if caps[|caps| - 1] == c then Some(|caps| - 1)
    else Position(caps[..|caps| - 1], c)
  }

  function Positions(caps: seq<Capacity>, cs: seq<Capacity?>): (r: seq<Option<nat>>)
    ensures |r| == |cs| && forall i | 0 <= i < |cs| :: r[i] == Position(caps, cs[i])
  {
    seq(|cs|, i requires 0 <= i < |cs| => Position(caps, cs[i]))
  }

  predicate InStep(rs: seq<DcResource>) {
    forall r | 0 <= r < |rs| && rs[r].kind == Computing :: |rs[r].cores| == |rs[r].capacity|
  }

  /** The resources of a provider; caps, slots and cores list their capacities in scan order. */
  class Pool {
    const resources: seq<DcResource>
    ghost const caps: seq<Capacity>
    ghost const slots: seq<Slot>
    ghost const cores: seq<Core?>

    constructor (resources: seq<DcResource>)
      requires InStep(resources)
      ensures this.resources == resources && Listed()
    {
      this.resources := resources;
      caps, slots, cores := Flat(resources), FlatSlots(resources), FlatCores(resources);
    }

    ghost predicate Listed() {
      InStep(resources) && caps == Flat(resources) && slots == FlatSlots(resources) && cores == FlatCores(resources)
    }

    /** No capacity or core is listed twice; each CPU has its cores in step with its capacities. */
    ghost predicate Valid() {
      && Listed()
      && (forall i, j | 0 <= i < j < |caps| :: caps[i] != caps[j])
      && (forall i, j | 0 <= i < j < |cores| && cores[i] != null :: cores[i] != cores[j])
    }

    lemma Aligned()
      requires Valid()
      ensures |caps| == |slots| == |cores|
    {}

    ghost function Free(): (r: seq<real>)
      reads caps
      ensures |r| == |caps|
    {
      seq(|caps|, k requires 0 <= k < |caps| reads caps => caps[k].value)
    }

    ghost function HostCores(): set<Core> {
      set c: Core | c in cores
    }

    /** A demand in good order; virtual cores are distinct and none of them is a core of this provider. */
    ghost predicate DemandOk(d: ResDemand)
      reads d
    {
      && d.amounts != [] && |d.location| == |d.amounts|
      && (d.vcores != [] ==> d.kind == Computing && |d.vcores| == |d.amounts|)
      && (forall i, j | 0 <= i < j < |d.vcores| :: d.vcores[i] != d.vcores[j])
      && (forall i | 0 <= i < |d.vcores| :: d.vcores[i] !in HostCores())
    }

    /** The virtual cores hosted in step with each capacity. */
    ghost function HostedLists(): (r: seq<seq<Core>>)
      reads HostCores()
      ensures |r| == |cores|
    {
      seq(|cores|, k requires 0 <= k < |cores| reads HostCores() => if cores[k] == null then [] else cores[k].hosted)
    }

    /** Placement p put the virtual cores in step with the capacities that pay for them. */
    ghost predicate Hosting(d: ResDemand, p: seq<nat>, lists: seq<seq<Core>>, hosts: seq<Core?>)
      reads HostCores(), d.vcores
    {
      if d.vcores == [] then HostedLists() == lists
      else Moved(cores, d.vcores, p, lists, hosts, HostedLists(), Hosts(d))
    }

    ghost function Hosts(d: ResDemand): (r: seq<Core?>)
      reads d.vcores
      ensures |r| == |d.vcores|
    {
      seq(|d.vcores|, x requires 0 <= x < |d.vcores| reads d.vcores => d.vcores[x].host)
    }

    /** The virtual core of amount i goes to core c of resource r. */
    method HostVcore(d: ResDemand, i: nat, r: nat, c: nat)
      requires Valid() && DemandOk(d) && i < |d.vcores| && r < |resources| && c < |resources[r].capacity|
      requires resources[r].kind == Computing
      modifies HostCores()`hosted, d.vcores`host
      ensures var j := Offset(resources, r) + c;
        && j < |caps| == |cores| && cores[j] != null
        && HostedLists() == old(HostedLists())[j := old(HostedLists())[j] + [d.vcores[i]]]
        && Hosts(d) == old(Hosts(d))[i := cores[j]]
    {
      FlatCoreAt(resources, r, c);
      ghost var j := Offset(resources, r) + c;
      var core := resources[r].cores[c];
      assert cores[j] == core && core in HostCores();
      forall k | 0 <= k < |cores| && k != j
        ensures cores[k] != core
      {
        assert if k < j then cores[k] == null || cores[k] != cores[j] else cores[j] != cores[k];
      }
      core.AddVcore(d.vcores[i]);
      assert forall k | 0 <= k < |cores| && k != j && cores[k] != null :: cores[k].hosted == old(cores[k].hosted);
    }

    /** Amount i of demand d goes to capacity c of resource r. */
    method TakeCapacity(d: ResDemand, i: nat, r: nat, c: nat)
      requires Valid() && DemandOk(d) && i < |d.amounts| && r < |resources| && c < |resources[r].capacity|
      modifies resources[r].capacity[c], d`location
      ensures DemandOk(d) && d.location == old(d.location)[i := resources[r].capacity[c]]
      ensures var j := Offset(resources, r) + c;
        && j < |caps| && caps[j] == resources[r].capacity[c]
        && Free() == old(Free())[j := old(Free())[j] - d.amounts[i]]
    {
      var cap := resources[r].capacity[c];
      FlatAt(resources, r, c);
      cap.value := cap.value - d.amounts[i];
      d.location := d.location[i := cap];
    }

    /** Both at once. */
    method PlaceAmount(d: ResDemand, i: nat, r: nat, c: nat, ghost p: seq<nat>, ghost lists: seq<seq<Core>>,
                       ghost hosts: seq<Core?>)
      requires Valid() && DemandOk(d) && i == |p| < |d.amounts| && r < |resources| && c < |resources[r].capacity|
      requires resources[r].kind == d.kind && Hosting(d, p, lists, hosts)
      modifies resources[r].capacity[c], d`location, HostCores()`hosted, d.vcores`host
      ensures DemandOk(d) && d.location == old(d.location)[i := resources[r].capacity[c]]
      ensures var j := Offset(resources, r) + c;
        && j < |caps| && caps[j] == resources[r].capacity[c]
        && Free() == old(Free())[j := old(Free())[j] - d.amounts[i]]
        && Hosting(d, p + [j], lists, hosts)
    {
      hide Moved, Flat, FlatSlots, FlatCores, Offset, Listed;
      TakeCapacity(d, i, r, c);
      HostAmount(d, i, r, c, p, lists, hosts);
    }

    /** If the demand comes with virtual cores, the one for amount i is hosted too. */
    method HostAmount(d: ResDemand, i: nat, r: nat, c: nat, ghost p: seq<nat>, ghost lists: seq<seq<Core>>,
                      ghost hosts: seq<Core?>)
      requires Valid() && DemandOk(d) && i == |p| < |d.amounts| && r < |resources| && c < |resources[r].capacity|
      requires resources[r].kind == d.kind && Hosting(d, p, lists, hosts)
      modifies HostCores()`hosted, d.vcores`host
      ensures Hosting(d, p + [Offset(resources, r) + c], lists, hosts)
    {
      hide Moved, Flat, FlatSlots, FlatCores, Offset, Listed;
      if d.kind == Computing && d.vcores != [] {
        ghost var lists1, hosts1 := HostedLists(), Hosts(d);
        HostVcore(d, i, r, c);
        MovedNext(cores, d.vcores, p, lists, hosts, lists1, hosts1, Offset(resources, r) + c);
      }
    }

    /** What the scan knows after placing the first |p| amounts of demand d. */
    ghost predicate Progress(d: ResDemand, p: seq<nat>, was: seq<Capacity?>, lists: seq<seq<Core>>, hosts: seq<Core?>)
      reads d, HostCores(), d.vcores
    {
      && |p| <= |d.amounts| == |d.location| == |was|
      && (forall x | 0 <= x < |p| :: p[x] < |caps|)
      && (forall x | 0 <= x < |d.amounts| :: d.location[x] == if x < |p| then caps[p[x]] else was[x])
      && Hosting(d, p, lists, hosts)
    }

    /** The scan of one resource, after the amounts that p placed. */
    method ScanResource(d: ResDemand, r: nat, i0: nat, ghost p0: seq<nat>, ghost F: (seq<nat>, seq<real>),
                        ghost was: seq<Capacity?>, ghost lists: seq<seq<Core>>, ghost hosts: seq<Core?>)
      returns (i: nat, ghost p: seq<nat>)
      requires Valid() && DemandOk(d) && r < |resources| && resources[r].kind == d.kind && d.arch <= resources[r].arch
      requires i0 == |p0| < |d.amounts| && |was| == |d.amounts| && Progress(d, p0, was, lists, hosts)
      requires Rest(slots, Free(), F, p0, d.kind, d.arch, d.amounts, Offset(resources, r))
      modifies caps, d`location, HostCores()`hosted, d.vcores`host
      ensures DemandOk(d) && i == |p| <= |d.amounts| && Progress(d, p, was, lists, hosts)
      ensures if i == |d.amounts| then F == (p, Free())
              else Rest(slots, Free(), F, p, d.kind, d.arch, d.amounts, Offset(resources, r + 1))
    {
      hide *;
      i, p := i0, p0;
      var c := 0;
      while c < |resources[r].capacity|
        invariant 0 <= c <= |resources[r].capacity| && i == |p| < |d.amounts|
        invariant DemandOk(d) && Progress(d, p, was, lists, hosts)
        invariant Rest(slots, Free(), F, p, d.kind, d.arch, d.amounts, Offset(resources, r) + c)
        decreases |resources[r].capacity| - c + |d.amounts| - i
      {
        CapacityIs(d, r, c);
        if resources[r].capacity[c].value >= d.amounts[i] {
          p := PlaceHere(d, i, r, c, p, F, was, lists, hosts);
          i := i + 1;
          if i == |d.amounts| {
            RestDone(slots, Free(), F, p, d.kind, d.arch, d.amounts, Offset(resources, r) + c);
            return;
          }
        } else {
          RestSkip(slots, Free(), F, p, d.kind, d.arch, d.amounts, Offset(resources, r) + c);
          c := c + 1;
        }
      }
      OffsetNext(resources, r);
    }

    lemma CapacityIs(d: ResDemand, r: nat, c: nat)
      requires Valid() && r < |resources| && c < |resources[r].capacity|
      ensures var j := Offset(resources, r) + c;
        && j < |caps| == |slots| && Free()[j] == resources[r].capacity[c].value
    {
      FlatAt(resources, r, c);
    }

    /** The current amount goes to the current capacity. */
    method PlaceHere(d: ResDemand, i: nat, r: nat, c: nat, ghost p: seq<nat>, ghost F: (seq<nat>, seq<real>),
                     ghost was: seq<Capacity?>, ghost lists: seq<seq<Core>>, ghost hosts: seq<Core?>)
      returns (ghost q: seq<nat>)
      requires Valid() && DemandOk(d) && r < |resources| && resources[r].kind == d.kind && d.arch <= resources[r].arch
      requires i == |p| < |d.amounts| && |was| == |d.amounts| && Progress(d, p, was, lists, hosts)
        && c < |resources[r].capacity|
      requires Rest(slots, Free(), F, p, d.kind, d.arch, d.amounts, Offset(resources, r) + c)
      requires resources[r].capacity[c].value >= d.amounts[i]
      modifies caps, d`location, HostCores()`hosted, d.vcores`host
      ensures DemandOk(d) && |q| == |p| + 1 && Progress(d, q, was, lists, hosts)
      ensures Rest(slots, Free(), F, q, d.kind, d.arch, d.amounts, Offset(resources, r) + c)
    {
      hide Moved, Flat, FlatSlots, FlatCores, Rest, Suits, Fill, Offset, Hosting;
      ghost var j, free := Offset(resources, r) + c, Free();
      FlatAt(resources, r, c);
      SuitsHere(d, r, j);
      RestTake(slots, free, F, p, d.kind, d.arch, d.amounts, j);
      ProgressParts(d, p, was, lists, hosts);
      PlaceAmount(d, i, r, c, p, lists, hosts);
      q := p + [j];
    }

    lemma ProgressParts(d: ResDemand, p: seq<nat>, was: seq<Capacity?>, lists: seq<seq<Core>>, hosts: seq<Core?>)
      requires Progress(d, p, was, lists, hosts)
      ensures Hosting(d, p, lists, hosts)
    {}

    lemma SuitsHere(d: ResDemand, r: nat, j: nat)
      requires Listed() && r < |resources| && resources[r].kind == d.kind && d.arch <= resources[r].arch && j < |slots|
      requires FlatSlots(resources)[j] == Slot(resources[r].kind, resources[r].arch)
      ensures Suits(slots[j], d.kind, d.arch)
    {}

    /** Where one demand goes: the nested scan over resources and their capacities. */
    method PlaceDemand(d: ResDemand) returns (possible: bool, ghost p: seq<nat>)
      requires Valid() && DemandOk(d)
      modifies caps, d`location, HostCores()`hosted, d.vcores`host
      ensures DemandOk(d) && |p| <= |d.amounts|
      ensures (p, Free()) == Fill(slots, old(Free()), d.kind, d.arch, d.amounts, 0)
      ensures possible <==> |p| == |d.amounts|
      ensures Progress(d, p, old(d.location), old(HostedLists()), old(Hosts(d)))
    {
      hide Moved, Rest, Suits, Fill;
      var i, r := 0, 0;
      p := [];
      ghost var was, lists, hosts := d.location, HostedLists(), Hosts(d);
      ghost var F := Fill(slots, Free(), d.kind, d.arch, d.amounts, 0);
      RestStart(slots, Free(), d.kind, d.arch, d.amounts);
      HostingNone(d);
      while r < |resources| && i < |d.amounts|
        invariant 0 <= r <= |resources| && i == |p| <= |d.amounts|
        invariant DemandOk(d) && Progress(d, p, was, lists, hosts)
        invariant i < |d.amounts| ==> Rest(slots, Free(), F, p, d.kind, d.arch, d.amounts, Offset(resources, r))
        invariant i == |d.amounts| ==> F == (p, Free())
      {
        if resources[r].kind == d.kind && d.arch <= resources[r].arch {
          i, p := ScanResource(d, r, i, p, F, was, lists, hosts);
        } else {
          SkipResource(d, p, F, r);
        }
        r := r + 1;
      }
      if i < |d.amounts| {
        RestDone(slots, Free(), F, p, d.kind, d.arch, d.amounts, Offset(resources, r));
      }
      possible := i == |d.amounts|;
    }

    lemma HostingNone(d: ResDemand)
      requires |cores| == |caps|
      ensures Hosting(d, [], HostedLists(), Hosts(d))
    {}

    lemma SkipResource(d: ResDemand, p: seq<nat>, F: (seq<nat>, seq<real>), r: nat)
      requires Valid() && r < |resources| && !(resources[r].kind == d.kind && d.arch <= resources[r].arch)
      requires Rest(slots, Free(), F, p, d.kind, d.arch, d.amounts, Offset(resources, r))
      ensures Rest(slots, Free(), F, p, d.kind, d.arch, d.amounts, Offset(resources, r + 1))
    {
      OffsetNext(resources, r);
      forall k | Offset(resources, r) <= k < Offset(resources, r + 1)
        ensures !Suits(slots[k], d.kind, d.arch)
      {
        FlatAt(resources, r, k - Offset(resources, r));
      }
      SkipSlots(slots, Free(), d.kind, d.arch, d.amounts[|p|..], Offset(resources, r), Offset(resources, r + 1));
    }

    // ---------- the consumer as a value ----------

    ghost function View(d: ResDemand): (v: Demand)
      reads d
    {
      Demand(d.kind, d.arch, d.amounts, Positions(caps, d.location))
    }

    /** Every location is NULL or one of this provider's capacities. */
    ghost predicate Local(d: ResDemand)
      reads d
    {
      forall i | 0 <= i < |d.location| :: d.location[i] == null || d.location[i] in caps
    }

    ghost predicate DemandWell(d: ResDemand)
      reads d
    {
      DemandOk(d) && Local(d) && NonNegative(d.amounts)
    }

    lemma PlacedView(d: ResDemand, v: Demand, p: seq<nat>)
      requires Valid() && WellFormed(v) && |p| <= |d.amounts| == |d.location|
      requires v.kind == d.kind && v.arch == d.arch && v.amounts == d.amounts
      requires forall x | 0 <= x < |p| :: p[x] < |caps|
      requires forall x | 0 <= x < |d.amounts| ::
        if x < |p| then d.location[x] == caps[p[x]] else Position(caps, d.location[x]) == v.location[x]
      ensures View(d) == Located(v, p)
    {
      var w := Located(v, p);
      forall x | 0 <= x < |d.amounts|
        ensures View(d).location[x] == w.location[x]
      {
        if x < |p| {
          assert Position(caps, caps[p[x]]).Some?;
        }
      }
      assert View(d).location == w.location;
    }

    // ---------- giving capacity back ----------

    /** Gives back amount i of demand d, if it is placed. */
    method ReleaseAmount(d: ResDemand, i: nat)
      requires Valid() && DemandWell(d) && i < |d.amounts|
      modifies caps, d`location
      ensures DemandWell(d) && d.location == old(d.location)[i := null]
      ensures Free() == GivenBack(old(Free()), d.amounts[i], Position(caps, old(d.location)[i]))
    {
      hide Listed, Positions;
      var c := d.location[i];
      if c != null {
        ghost var k := Position(caps, c);
        assert c in caps && k.Some?;
        c.value := c.value + d.amounts[i];
        d.location := d.location[i := null];
        forall j | 0 <= j < |caps| && j != k.value
          ensures caps[j] != c
        {
          assert if j < k.value then caps[j] != caps[k.value] else caps[k.value] != caps[j];
        }
      }
      assert d.location == old(d.location)[i := null];
    }

    /** Gives back one demand. */
    method ReleaseDemand(d: ResDemand)
      requires Valid() && DemandWell(d)
      modifies caps, d`location
      ensures DemandWell(d) && View(d) == Cleared(old(View(d)))
      ensures forall k | 0 <= k < |caps| :: Free()[k] == old(Free())[k] + HeldAt(d.amounts, old(View(d)).location, k)
    {
      ghost var free, loc := Free(), View(d).location;
      hide HeldAt, GivenBack;
      HeldAtNone(d.amounts, loc);
      for i := 0 to |d.amounts|
        invariant DemandWell(d) && |d.location| == |loc| == |d.amounts|
        invariant forall x | 0 <= x < |loc| :: if x < i then d.location[x] == null
          else Position(caps, d.location[x]) == loc[x]
        invariant forall k | 0 <= k < |caps| :: Free()[k] == free[k] + HeldAt(d.amounts[..i], loc[..i], k)
      {
        ghost var before := Free();
        ReleaseAmount(d, i);
        forall k | 0 <= k < |caps|
          ensures Free()[k] == free[k] + HeldAt(d.amounts[..i + 1], loc[..i + 1], k)
        {
          GivenBackAt(before, d.amounts[i], loc[i], k);
          HeldAtNext(d.amounts, loc, i, k);
        }
      }
      assert d.amounts[..|d.amounts|] == d.amounts && loc[..|loc|] == loc;
      assert View(d).location == Cleared(old(View(d))).location;
    }

    // ---------- taking virtual cores off their hosts ----------

    /** A virtual core of vs is once on its host's list and on no other, and its host is one of this provider's. */
    ghost predicate Linked(vs: set<Core>)
      reads HostCores(), vs
    {
      && vs !! HostCores()
      && forall v | v in vs ::
        && (v.host == null || v.host in HostCores())
        && (v.host != null ==> Times(v.host.hosted, v) == 1)
        && forall k | 0 <= k < |cores| && cores[k] != null :: cores[k] != v.host ==> v !in cores[k].hosted
    }

    /** Takes one virtual core off its host. */
    method UnhostVcore(v: Core, ghost vs: set<Core>)
      requires Valid() && Linked(vs) && v in vs
      modifies HostCores()`hosted, v`host
      ensures Linked(vs) && v.host == null
      ensures forall k | 0 <= k < |cores| :: HostedLists()[k] == Erase(old(HostedLists())[k], v)
    {
      hide Listed;
      if v.host != null {
        var h := v.host;
        EraseCount(h.hosted, v);
        h.RemoveVcore(v);
      }
      forall k | 0 <= k < |cores|
        ensures HostedLists()[k] == Erase(old(HostedLists())[k], v)
      {
        if cores[k] != null && cores[k] != old(v.host) {
          EraseNone(old(HostedLists())[k], v);
        }
      }
    }

    /** Takes all virtual cores of one demand off their hosts. */
    method UnhostDemand(d: ResDemand, ghost vs: set<Core>)
      requires Valid() && Linked(vs) && forall x | 0 <= x < |d.vcores| :: d.vcores[x] in vs
      modifies HostCores()`hosted, d.vcores`host
      ensures Linked(vs) && forall v :: v in d.vcores ==> v.host == null
      ensures forall k | 0 <= k < |cores| :: HostedLists()[k] == EraseEach(old(HostedLists())[k], d.vcores)
    {
      hide Listed, Erase, Linked;
      ghost var lists := HostedLists();
      for x := 0 to |d.vcores|
        invariant Linked(vs)
        invariant forall v :: v in d.vcores[..x] ==> v.host == null
        invariant forall k | 0 <= k < |cores| :: HostedLists()[k] == EraseEach(lists[k], d.vcores[..x])
      {
        UnhostVcore(d.vcores[x], vs);
        assert d.vcores[..x + 1][..x] == d.vcores[..x];
      }
      assert d.vcores[..|d.vcores|] == d.vcores;
    }

    // ---------- whole consumers ----------

    ghost predicate ConsumerOk(rc: ResourceConsumer)
      reads rc.demands
    {
      && (forall i | 0 <= i < |rc.demands| :: DemandWell(rc.demands[i]) && (rc.isTask ==> rc.demands[i].vcores == []))
      && (forall i, j | 0 <= i < j < |rc.demands| :: rc.demands[i] != rc.demands[j])
      && (forall i, j | 0 <= i < j < |rc.demands| :: Apart(rc.demands[i].vcores, rc.demands[j].vcores))
    }

    ghost function Views(rc: ResourceConsumer): (vs: seq<Demand>)
      reads rc.demands
      ensures |vs| == |rc.demands| && forall i | 0 <= i < |vs| :: vs[i] == View(rc.demands[i])
    {
      seq(|rc.demands|, i requires 0 <= i < |rc.demands| reads rc.demands => View(rc.demands[i]))
    }

    /** One turn of releaseAllocation. */
    method ReleaseTurn(d: ResDemand, isTask: bool, ghost vs: set<Core>)
      requires Valid() && DemandWell(d) && (isTask ==> d.vcores == []) && WellFormed(View(d))
      requires Linked(vs) && forall x | 0 <= x < |d.vcores| :: d.vcores[x] in vs
      modifies caps, d`location, HostCores()`hosted, d.vcores`host
      ensures DemandWell(d) && Linked(vs) && forall v :: v in d.vcores ==> v.host == null
      ensures View(d) == if Reserved(isTask, d.kind) then Cleared(old(View(d))) else old(View(d))
      ensures forall k | 0 <= k < |caps| :: (Free()[k] == old(Free())[k]
        + (if Reserved(isTask, d.kind) then HeldAt(d.amounts, old(View(d)).location, k) else 0.0))
      ensures forall k | 0 <= k < |cores| :: HostedLists()[k] == EraseEach(old(HostedLists())[k], d.vcores)
    {
      hide HeldAt, EraseEach, Erase, Times, Valid, Cleared, Free;
      ghost var lists := HostedLists();
      NothingErased(lists, d.vcores);
      if Reserved(isTask, d.kind) {
        ReleaseDemand(d);
      }
      if !isTask {
        UnhostDemand(d, vs);
      }
    }

    lemma NothingErased(lists: seq<seq<Core>>, vs: seq<Core>)
      ensures vs == [] ==> forall k | 0 <= k < |lists| :: EraseEach(lists[k], vs) == lists[k]
    {}

    /** releaseAllocation has dealt with the first u demands. */
    ghost predicate Released(rc: ResourceConsumer, u: nat, free: seq<real>, V: seq<Demand>, lists: seq<seq<Core>>)
      requires |V| == |rc.demands| && AllWellFormed(V) && |free| == |caps| && |lists| == |cores|
      reads rc.demands, caps, HostCores(), VcoreSet(rc.demands)
    {
      && u <= |V| && ConsumerOk(rc) && Linked(VcoreSet(rc.demands))
      && (forall j | 0 <= j < |V| ::
            View(rc.demands[j]) == if j < u && Reserved(rc.isTask, V[j].kind) then Cleared(V[j]) else V[j])
      && (forall k | 0 <= k < |caps| :: Free()[k] == free[k] + Held(rc.isTask, V[..u], k))
      && (forall k | 0 <= k < |cores| :: HostedLists()[k] == EraseEach(lists[k], Vcores(rc.demands[..u])))
    }

    method ReleaseNext(rc: ResourceConsumer, u: nat, d: ResDemand, ghost free: seq<real>, ghost V: seq<Demand>,
                       ghost lists: seq<seq<Core>>)
      requires Valid() && |V| == |rc.demands| && AllWellFormed(V) && |free| == |caps| && |lists| == |cores|
      requires u < |rc.demands| && d == rc.demands[u] && Released(rc, u, free, V, lists)
      modifies caps, d`location, HostCores()`hosted, d.vcores`host
      ensures Released(rc, u + 1, free, V, lists) && forall v :: v in d.vcores ==> v.host == null
    {
      hide Listed, DemandOk, Linked, Erase, Vcores, EraseEach, Held, HeldAt, Positions, Cleared, VcoreSet;
      VcoresIn(rc.demands, u);
      ghost var free0, lists0 := Free(), HostedLists();
      assert View(d) == V[u];
      assert forall j | 0 <= j < |V| && j != u :: rc.demands[j] != d;
      ReleaseTurn(d, rc.isTask, VcoreSet(rc.demands));
      forall j | 0 <= j < |V| && j != u
        ensures View(rc.demands[j]) == old(View(rc.demands[j])) && DemandWell(rc.demands[j])
      {
        assert old(DemandWell(rc.demands[j]));
      }
      ReleasedStep(rc, u, free, V, lists, free0, lists0);
    }

    /** The new free values and lists in terms of the first ones. */
    lemma ReleasedStep(rc: ResourceConsumer, u: nat, free: seq<real>, V: seq<Demand>, lists: seq<seq<Core>>,
                       free0: seq<real>, lists0: seq<seq<Core>>)
      requires |V| == |rc.demands| && AllWellFormed(V) && |free| == |free0| == |caps| && |lists| == |lists0| == |cores|
      requires u < |V| && ConsumerOk(rc) && Linked(VcoreSet(rc.demands))
      requires forall j | 0 <= j < |V| ::
        View(rc.demands[j]) == if j < u + 1 && Reserved(rc.isTask, V[j].kind) then Cleared(V[j]) else V[j]
      requires forall k | 0 <= k < |caps| :: free0[k] == free[k] + Held(rc.isTask, V[..u], k)
      requires forall k | 0 <= k < |caps| :: (Free()[k] == free0[k]
        + (if Reserved(rc.isTask, V[u].kind) then HeldAt(V[u].amounts, V[u].location, k) else 0.0))
      requires forall k | 0 <= k < |cores| :: lists0[k] == EraseEach(lists[k], Vcores(rc.demands[..u]))
      requires forall k | 0 <= k < |cores| :: HostedLists()[k] == EraseEach(lists0[k], rc.demands[u].vcores)
      ensures Released(rc, u + 1, free, V, lists)
    {
      hide ConsumerOk, Linked, EraseEach, Vcores, Held, HeldAt;
      HeldNext(rc.isTask, V, u);
      EraseMore(lists, rc.demands, u);
    }

    /** releaseAllocation. */
    method ReleaseAllocation(rc: ResourceConsumer)
      requires Valid() && ConsumerOk(rc) && Linked(VcoreSet(rc.demands))
      modifies caps, rc.demands`location, HostCores()`hosted, VcoreSet(rc.demands)`host
      ensures ConsumerOk(rc) && Linked(VcoreSet(rc.demands)) && AllWellFormed(old(Views(rc)))
      ensures (Free(), Consumer(rc.isTask, Views(rc))) == Release(old(Free()), Consumer(rc.isTask, old(Views(rc))))
      ensures forall k | 0 <= k < |cores| :: HostedLists()[k] == EraseEach(old(HostedLists())[k], Vcores(rc.demands))
      ensures forall j, v :: 0 <= j < |rc.demands| && v in rc.demands[j].vcores ==> v.host == null
    {
      ghost var free, V, lists := Free(), Views(rc), HostedLists();
      ViewsWell(rc);
      HeldNone(rc.isTask, V);
      ReleasedNone(rc, free, V, lists);
      hide Listed, Released;
      for u := 0 to |rc.demands|
        invariant Released(rc, u, free, V, lists)
        invariant forall j, v :: 0 <= j < u && v in rc.demands[j].vcores ==> v.host == null
      {
        VcoresIn(rc.demands, u);
        ReleaseNext(rc, u, rc.demands[u], free, V, lists);
      }
      ReleasedAll(rc, free, V, lists);
    }

    lemma ReleasedNone(rc: ResourceConsumer, free: seq<real>, V: seq<Demand>, lists: seq<seq<Core>>)
      requires Valid() && ConsumerOk(rc) && Linked(VcoreSet(rc.demands))
      requires AllWellFormed(V) && V == Views(rc) && free == Free() && lists == HostedLists()
      ensures Released(rc, 0, free, V, lists)
    {
      HeldNone(rc.isTask, V);
      assert V[..0] == [] && rc.demands[..0] == [];
    }

    lemma ReleasedAll(rc: ResourceConsumer, free: seq<real>, V: seq<Demand>, lists: seq<seq<Core>>)
      requires Valid() && |V| == |rc.demands| && AllWellFormed(V) && |free| == |caps| && |lists| == |cores|
      requires Released(rc, |V|, free, V, lists)
      ensures ConsumerOk(rc) && Linked(VcoreSet(rc.demands))
      ensures (Free(), Consumer(rc.isTask, Views(rc))) == Release(free, Consumer(rc.isTask, V))
      ensures forall k | 0 <= k < |cores| :: HostedLists()[k] == EraseEach(lists[k], Vcores(rc.demands))
    {
      hide Listed, Linked;
      assert V[..|V|] == V && rc.demands[..|rc.demands|] == rc.demands;
      assert Free() == Release(free, Consumer(rc.isTask, V)).0;
      assert Views(rc) == ClearedAll(rc.isTask, V);
    }

    // ---------- tryToAllocate ----------

    /** Each virtual core is hosted by the core in step with the capacity that pays for it. */
    ghost predicate Attached(d: ResDemand)
      requires |cores| == |caps| && |d.vcores| <= |d.location|
      reads d, d.vcores
    {
      forall x | 0 <= x < |d.vcores| ::
        var l := View(d).location[x];
        l.Some? && l.value < |cores| && cores[l.value] != null && d.vcores[x].host == cores[l.value]
    }

    /** Every amount is paid for by a capacity of the right type. */
    ghost predicate Sited(d: ResDemand)
      requires |slots| == |caps|
      reads d
    {
      forall x | 0 <= x < |d.location| ::
        View(d).location[x].Some? && slots[View(d).location[x].value].kind == d.kind
    }

    /** A computing demand that comes with its virtual cores, each worth its amount; or another demand. */
    ghost predicate Matched(d: ResDemand)
      reads d
    {
      if d.kind == Computing then
        |d.vcores| == |d.amounts| && forall x | 0 <= x < |d.vcores| :: d.vcores[x].nominal == d.amounts[x]
      else d.vcores == []
    }

    /** Places a demand whose virtual cores are not hosted. */
    method PlaceUnhosted(d: ResDemand, ghost vs: set<Core>) returns (possible: bool, ghost p: seq<nat>)
      requires Valid() && DemandWell(d) && WellFormed(View(d)) && Linked(vs)
      requires forall x | 0 <= x < |d.vcores| :: d.vcores[x] in vs && d.vcores[x].host == null
      modifies caps, d`location, HostCores()`hosted, d.vcores`host
      ensures DemandWell(d) && Linked(vs) && |p| <= |d.amounts|
      ensures (p, Free()) == Fill(slots, old(Free()), d.kind, d.arch, d.amounts, 0)
      ensures possible <==> |p| == |d.amounts|
      ensures View(d) == Located(old(View(d)), p)
      ensures possible ==> Attached(d) && Sited(d)
      ensures Grown(old(HostedLists()), HostedLists(), vs)
      ensures Matched(d) ==> Balanced(cores, old(Free()), old(HostedLists()), Free(), HostedLists())
    {
      hide Flat, FlatSlots, FlatCores, Fill, Moved, Put, Nominal;
      ghost var free, lists, hosts, was := Free(), HostedLists(), Hosts(d), View(d);
      possible, p := PlaceDemand(d);
      PlacedView(d, was, p);
      LinkedPlaced(d, vs, p, lists, hosts);
      AttachedPlaced(d, p, lists, hosts, was);
      FillSound(slots, free, d.kind, d.arch, d.amounts, 0);
      SitedPlaced(d, p, was);
      if Matched(d) {
        BalancedPlaced(d, p, free, lists, hosts);
      }
    }

    lemma LinkedPlaced(d: ResDemand, vs: set<Core>, p: seq<nat>, lists: seq<seq<Core>>, hosts: seq<Core?>)
      requires Valid() && DemandOk(d) && |p| <= |d.amounts| && |lists| == |cores| && |hosts| == |d.vcores|
      requires Hosting(d, p, lists, hosts) && forall x | 0 <= x < |d.vcores| :: d.vcores[x] in vs && hosts[x] == null
      requires vs !! HostCores()
      requires forall v, k :: v in d.vcores && 0 <= k < |cores| ==> v !in lists[k]
      requires forall v :: v in vs && v !in d.vcores ==> v.host == null || v.host in HostCores()
      requires forall v, k :: v in vs && v !in d.vcores && 0 <= k < |cores| ==>
        if cores[k] == null || cores[k] != v.host then v !in lists[k] else Times(lists[k], v) == 1
      ensures Linked(vs) && Grown(lists, HostedLists(), vs)
    {
      if d.vcores == [] {
        assert Grown(lists, lists, vs);
      } else {
        forall k | 0 <= k < |cores|
          ensures HostedLists()[k] == lists[k] + Put(d.vcores, p, k)
          ensures forall v :: v in Put(d.vcores, p, k) ==> v in d.vcores && v.host == cores[k]
        {
          PutHas(d.vcores, p, k);
        }
        GrownByPut(d.vcores, p, lists, HostedLists(), vs);
        forall v | v in vs
          ensures v.host == null || v.host in HostCores()
          ensures v.host != null ==> Times(v.host.hosted, v) == 1
          ensures forall k | 0 <= k < |cores| && cores[k] != null :: cores[k] != v.host ==> v !in cores[k].hosted
        {
          if v in d.vcores {
            var x :| 0 <= x < |d.vcores| && d.vcores[x] == v;
            PlacedOnce(d, p, lists, hosts, x);
          } else {
            StaysOnce(d, p, lists, hosts, v);
          }
        }
        hide *;
        LinkedIs(vs);
      }
    }

    lemma LinkedIs(vs: set<Core>)
      requires vs !! HostCores()
      requires forall v | v in vs :: v.host == null || v.host in HostCores()
      requires forall v | v in vs :: v.host != null ==> Times(v.host.hosted, v) == 1
      requires forall v | v in vs :: forall k | 0 <= k < |cores| && cores[k] != null ::
          cores[k] != v.host ==> v !in cores[k].hosted
      ensures Linked(vs)
    {}

    /** Virtual core x of the demand just placed is on the list of its host, if it has one. */
    lemma PlacedOnce(d: ResDemand, p: seq<nat>, lists: seq<seq<Core>>, hosts: seq<Core?>, x: nat)
      requires Valid() && DemandOk(d) && Moved(cores, d.vcores, p, lists, hosts, HostedLists(), Hosts(d))
        && x < |d.vcores|
      requires hosts[x] == null && forall k | 0 <= k < |cores| :: d.vcores[x] !in lists[k]
      ensures var v := d.vcores[x];
        && (v.host == null || v.host in HostCores())
        && (v.host != null ==> Times(v.host.hosted, v) == 1)
        && forall k | 0 <= k < |cores| && cores[k] != null :: cores[k] != v.host ==> v !in cores[k].hosted
    {
      hide Times, Put, Listed;
      var v := d.vcores[x];
      assert Hosts(d)[x] == v.host;
      forall k | 0 <= k < |cores| && cores[k] != null && cores[k] != v.host
        ensures v !in cores[k].hosted
      {
        assert HostedLists()[k] == cores[k].hosted;
        PutHas(d.vcores, p, k);
      }
      if x < |p| {
        assert HostedLists()[p[x]] == v.host.hosted;
        PutOnce(d.vcores, p, x);
        TimesAppend(lists[p[x]], Put(d.vcores, p, p[x]), v);
      }
    }

    /** Any other virtual core stays where it was. */
    lemma StaysOnce(d: ResDemand, p: seq<nat>, lists: seq<seq<Core>>, hosts: seq<Core?>, v: Core)
      requires Valid() && Moved(cores, d.vcores, p, lists, hosts, HostedLists(), Hosts(d)) && v !in d.vcores
      requires v.host == null || v.host in HostCores()
      requires forall k | 0 <= k < |cores| :: if cores[k] == null || cores[k] != v.host then v !in lists[k]
        else Times(lists[k], v) == 1
      ensures v.host != null ==> Times(v.host.hosted, v) == 1
      ensures forall k | 0 <= k < |cores| && cores[k] != null :: cores[k] != v.host ==> v !in cores[k].hosted
    {
      hide Times, Put, Listed;
      forall k | 0 <= k < |cores| && cores[k] != null
        ensures v !in Put(d.vcores, p, k) && Times(cores[k].hosted, v) == Times(lists[k], v)
      {
        assert HostedLists()[k] == cores[k].hosted;
        PutHas(d.vcores, p, k);
        TimesAppend(lists[k], Put(d.vcores, p, k), v);
      }
    }

    lemma AttachedPlaced(d: ResDemand, p: seq<nat>, lists: seq<seq<Core>>, hosts: seq<Core?>, was: Demand)
      requires Valid() && DemandOk(d) && |p| <= |d.amounts| && WellFormed(was) && was.amounts == d.amounts
      requires Hosting(d, p, lists, hosts) && View(d) == Located(was, p)
      ensures |p| == |d.amounts| ==> Attached(d)
    {
      hide Listed, Positions;
      if |p| == |d.amounts| && d.vcores != [] {
        forall x | 0 <= x < |d.vcores|
          ensures View(d).location[x] == Some(p[x]) && d.vcores[x].host == cores[p[x]] && cores[p[x]] != null
        {
          assert Hosts(d)[x] == d.vcores[x].host;
        }
      }
    }

    lemma SitedPlaced(d: ResDemand, p: seq<nat>, was: Demand)
      requires Valid() && DemandOk(d) && |p| <= |d.amounts| && WellFormed(was) && was.amounts == d.amounts
      requires View(d) == Located(was, p) && forall i | 0 <= i < |p| ::
          p[i] < |slots| && Suits(slots[p[i]], d.kind, d.arch)
      ensures |p| == |d.amounts| ==> Sited(d)
    {}

    lemma BalancedPlaced(d: ResDemand, p: seq<nat>, free: seq<real>, lists: seq<seq<Core>>, hosts: seq<Core?>)
      requires Valid() && DemandOk(d) && |p| <= |d.amounts| && |free| == |caps| && |lists| == |cores|
      requires Hosting(d, p, lists, hosts) && Matched(d)
      requires forall i | 0 <= i < |p| :: p[i] < |slots| && Suits(slots[p[i]], d.kind, d.arch)
      requires forall k | 0 <= k < |slots| :: Free()[k] == free[k] - Allocation.Load(d.amounts, p, k)
      ensures Balanced(cores, free, lists, Free(), HostedLists())
    {
      forall k | 0 <= k < |cores| && cores[k] != null
        ensures Free()[k] + Nominal(HostedLists()[k]) == free[k] + Nominal(lists[k])
      {
        if d.kind == Computing {
          PutNominal(d.vcores, d.amounts, p, k);
          NominalAppend(lists[k], Put(d.vcores, p, k));
        } else {
          CoreSlot(resources, k);
          LoadElsewhere(d.amounts, p, k);
        }
      }
    }

    /** A consumer none of whose virtual cores is hosted. */
    ghost predicate Unhosted(rc: ResourceConsumer)
      reads rc.demands, VcoreSet(rc.demands), HostCores()
    {
      Linked(VcoreSet(rc.demands)) && forall v :: v in VcoreSet(rc.demands) ==> v.host == null
    }

    ghost predicate AllMatched(rc: ResourceConsumer)
      reads rc.demands
    {
      forall i | 0 <= i < |rc.demands| :: Matched(rc.demands[i])
    }

    /** What tryToAllocate knows before it turns to demand u. */
    ghost predicate Placing(rc: ResourceConsumer, u: nat, free: seq<real>, V: seq<Demand>, lists: seq<seq<Core>>)
      requires |V| == |rc.demands| && AllWellFormed(V) && |free| == |caps| == |cores| == |slots| && |lists| == |cores|
      reads rc.demands, caps, HostCores(), VcoreSet(rc.demands)
    {
      && u <= |V| && ConsumerOk(rc) && Linked(VcoreSet(rc.demands))
      && Grown(lists, HostedLists(), VcoreSet(rc.demands))
      && (AllMatched(rc) ==> Balanced(cores, free, lists, Free(), HostedLists()))
      && (forall j | u <= j < |V| :: View(rc.demands[j]) == V[j])
      && AllRest(slots, Free(), AllocAll(slots, free, rc.isTask, V), rc.isTask, V, u, Views(rc)[..u])
    }

    /** The virtual cores of the first u demands are attached, those of the others are not hosted. */
    ghost predicate HalfAttached(rc: ResourceConsumer, u: nat)
      requires ConsumerOk(rc) && |cores| == |caps| == |slots| && u <= |rc.demands|
      reads rc.demands, VcoreSet(rc.demands)
    {
      && (forall j | 0 <= j < u ::
          Attached(rc.demands[j]) && (Reserved(rc.isTask, rc.demands[j].kind) ==> Sited(rc.demands[j])))
      && (forall j, v :: u <= j < |rc.demands| && v in rc.demands[j].vcores ==> v.host == null)
    }

    /** Places demand u; nothing but demand u and its virtual cores changes. */
    method PlaceApart(rc: ResourceConsumer, u: nat, d: ResDemand) returns (possible: bool, ghost p: seq<nat>)
      requires Valid() && ConsumerOk(rc) && u < |rc.demands| && d == rc.demands[u]
      requires WellFormed(View(d)) && Linked(VcoreSet(rc.demands)) && forall v :: v in d.vcores ==> v.host == null
      modifies caps, d`location, HostCores()`hosted, d.vcores`host
      ensures DemandWell(d) && Linked(VcoreSet(rc.demands)) && |p| <= |d.amounts|
      ensures (p, Free()) == Fill(slots, old(Free()), d.kind, d.arch, d.amounts, 0)
      ensures possible <==> |p| == |d.amounts|
      ensures View(d) == Located(old(View(d)), p)
      ensures possible ==> |slots| == |cores| == |caps| && Attached(d) && Sited(d)
      ensures Grown(old(HostedLists()), HostedLists(), VcoreSet(rc.demands))
      ensures Matched(d) ==> Balanced(cores, old(Free()), old(HostedLists()), Free(), HostedLists())
      ensures forall j, i | 0 <= j < |rc.demands| && j != u && 0 <= i < |rc.demands[j].vcores| ::
        rc.demands[j].vcores[i].host == old(rc.demands[j].vcores[i].host)
    {
      hide Linked, Fill, Positions, Grown, Balanced, Located, Valid, Listed, Attached, Sited, Matched, Local;
      Aligned();
      possible, p := PlaceUnhosted(d, VcoreSet(rc.demands));
      forall j, i | 0 <= j < |rc.demands| && j != u && 0 <= i < |rc.demands[j].vcores|
        ensures rc.demands[j].vcores[i].host == old(rc.demands[j].vcores[i].host)
      {
        assert Apart(rc.demands[if j < u then j else u].vcores, rc.demands[if j < u then u else j].vcores);
        assert rc.demands[j].vcores[i] in rc.demands[j].vcores;
      }
    }

    /** The same, in terms of the whole consumer. */
    method PlaceInTurn(rc: ResourceConsumer, u: nat, d: ResDemand) returns (possible: bool, ghost p: seq<nat>)
      requires Valid() && ConsumerOk(rc) && u < |rc.demands| && d == rc.demands[u] && HalfAttached(rc, u)
      requires WellFormed(View(d)) && Linked(VcoreSet(rc.demands))
      modifies caps, d`location, HostCores()`hosted, d.vcores`host
      ensures ConsumerOk(rc) && Linked(VcoreSet(rc.demands)) && |p| <= |d.amounts|
      ensures (p, Free()) == Fill(slots, old(Free()), d.kind, d.arch, d.amounts, 0)
      ensures possible <==> |p| == |d.amounts|
      ensures View(d) == Located(old(View(d)), p)
      ensures forall j | 0 <= j < |rc.demands| && j != u :: View(rc.demands[j]) == old(View(rc.demands[j]))
      ensures possible ==> HalfAttached(rc, u + 1)
      ensures Grown(old(HostedLists()), HostedLists(), VcoreSet(rc.demands))
      ensures Matched(d) ==> Balanced(cores, old(Free()), old(HostedLists()), Free(), HostedLists())
    {
      hide Linked, Fill, Positions, Grown, Balanced, Located, Valid, Listed, Matched, Hosting;
      possible, p := PlaceApart(rc, u, d);
    }

    lemma NothingToAttach(d: ResDemand)
      requires |cores| == |caps| && d.vcores == []
      ensures Attached(d)
    {}

    /** One turn of the loop over the demands. */
    method PlaceNext(rc: ResourceConsumer, u: nat, d: ResDemand, ghost free: seq<real>, ghost V: seq<Demand>,
                     ghost lists: seq<seq<Core>>)
      returns (ok: bool)
      requires Valid() && |V| == |rc.demands| && AllWellFormed(V) && |free| == |caps| == |cores| == |slots|
        && |lists| == |cores|
      requires u < |rc.demands| && d == rc.demands[u] && Placing(rc, u, free, V, lists) && HalfAttached(rc, u)
      modifies caps, d`location, HostCores()`hosted, d.vcores`host
      ensures ConsumerOk(rc) && Linked(VcoreSet(rc.demands)) && Grown(lists, HostedLists(), VcoreSet(rc.demands))
      ensures ok ==> Placing(rc, u + 1, free, V, lists) && HalfAttached(rc, u + 1)
      ensures !ok ==> AllocAll(slots, free, rc.isTask, V) == (Free(), Views(rc), false)
    {
      hide Linked, DemandWell, Attached, Fill, AllRest, AllocAll, Positions, Grown, Located, Balanced, Valid;
      ok := true;
      ghost var T, W := AllocAll(slots, free, rc.isTask, V), Views(rc);
      if Reserved(rc.isTask, d.kind) {
        ghost var p, free0, lists0 := [], Free(), HostedLists();
        ok, p := PlaceInTurn(rc, u, d);
        PlacedRest(slots, free0, T, rc.isTask, V, u, W[..u], p, Free(), Views(rc));
        GrownMore(lists, lists0, HostedLists(), VcoreSet(rc.demands));
        if AllMatched(rc) {
          BalancedMore(cores, free, lists, free0, lists0, Free(), HostedLists());
        }
      } else {
        AllRestSkip(slots, Free(), T, rc.isTask, V, u, W[..u]);
        assert Views(rc)[..u + 1] == W[..u] + [V[u]];
        NothingToAttach(d);
      }
    }

    /** One turn of the loop, which ends with releaseAllocation if the demand does not fit. */
    method PlaceOrUndo(rc: ResourceConsumer, u: nat, ghost free: seq<real>, ghost V: seq<Demand>,
                       ghost lists: seq<seq<Core>>)
      returns (ok: bool)
      requires Valid() && |V| == |rc.demands| && AllWellFormed(V) && |free| == |caps| == |cores| == |slots|
        && |lists| == |cores|
      requires u < |rc.demands| && ConsumerOk(rc) && Placing(rc, u, free, V, lists) && HalfAttached(rc, u)
      requires forall v, k :: v in VcoreSet(rc.demands) && 0 <= k < |cores| ==> v !in lists[k]
      modifies caps, rc.demands`location, HostCores()`hosted, VcoreSet(rc.demands)`host
      ensures ok ==> ConsumerOk(rc) && Placing(rc, u + 1, free, V, lists) && HalfAttached(rc, u + 1)
      ensures !ok ==> ConsumerOk(rc) && Unhosted(rc) && HostedLists() == lists
      ensures !ok
        ==> TryAllocate(slots, free, Consumer(rc.isTask, V)) == (Free(), Consumer(rc.isTask, Views(rc)), false)
    {
      hide *;
      VcoreSetIs(rc.demands);
      VcoresIn(rc.demands, u);
      ok := PlaceNext(rc, u, rc.demands[u], free, V, lists);
      if !ok {
        ghost var f, ds, lists1 := Free(), Views(rc), HostedLists();
        ReleaseAllocation(rc);
        UnhostedNow(rc);
        UndoneIs(free, Consumer(rc.isTask, V), f, ds);
        EraseGrown(lists, lists1, HostedLists(), Vcores(rc.demands), VcoreSet(rc.demands));
      }
    }

    lemma UnhostedNow(rc: ResourceConsumer)
      requires Linked(VcoreSet(rc.demands))
      requires forall j, v :: 0 <= j < |rc.demands| && v in rc.demands[j].vcores ==> v.host == null
      ensures Unhosted(rc)
    {
      VcoreSetIs(rc.demands);
    }

    lemma UndoneIs(free: seq<real>, c: Consumer, f: seq<real>, ds: seq<Demand>)
      requires AllWellFormed(c.demands) && |free| == |slots| && AllWellFormed(ds)
      requires AllocAll(slots, free, c.isTask, c.demands) == (f, ds, false)
      ensures TryAllocate(slots, free, c)
        == (Release(f, Consumer(c.isTask, ds)).0, Release(f, Consumer(c.isTask, ds)).1, false)
    {}

    /**
     tryToAllocate.  On success every virtual core of a VM is hosted in step with the capacity that pays
     for it, and what is free plus what is hosted stays what it was; on failure nothing has changed.
     */
    method TryToAllocate(rc: ResourceConsumer) returns (ok: bool)
      requires Valid() && ConsumerOk(rc) && Unhosted(rc)
      modifies caps, rc.demands`location, HostCores()`hosted, VcoreSet(rc.demands)`host
      ensures ConsumerOk(rc) && Linked(VcoreSet(rc.demands)) && AllWellFormed(old(Views(rc)))
      ensures var (f, c, done) := TryAllocate(slots, old(Free()), Consumer(rc.isTask, old(Views(rc))));
        f == Free() && c == Consumer(rc.isTask, Views(rc)) && done == ok
      ensures ok ==> HalfAttached(rc, |rc.demands|) && Grown(old(HostedLists()), HostedLists(), VcoreSet(rc.demands))
      ensures ok && AllMatched(rc) ==> Balanced(cores, old(Free()), old(HostedLists()), Free(), HostedLists())
      ensures !ok ==> Unhosted(rc) && HostedLists() == old(HostedLists())
    {
      ghost var free, V, lists := Free(), Views(rc), HostedLists();
      ViewsWell(rc);
      PlacingStart(rc, free, V, lists);
      hide *;
      for u := 0 to |rc.demands|
        invariant Valid() && |free| == |caps| == |cores| == |slots| && |lists| == |cores|
        invariant ConsumerOk(rc) && Placing(rc, u, free, V, lists) && HalfAttached(rc, u)
      {
        ok := PlaceOrUndo(rc, u, free, V, lists);
        if !ok {
          return false;
        }
      }
      PlacingDone(rc, free, V, lists);
      return true;
    }

    lemma PlacingStart(rc: ResourceConsumer, free: seq<real>, V: seq<Demand>, lists: seq<seq<Core>>)
      requires Valid() && ConsumerOk(rc) && Unhosted(rc)
      requires free == Free() && V == Views(rc) && AllWellFormed(V) && lists == HostedLists()
      ensures Placing(rc, 0, free, V, lists) && HalfAttached(rc, 0)
    {
      AllRestStart(slots, free, rc.isTask, V);
      forall j, v | 0 <= j < |rc.demands| && v in rc.demands[j].vcores
        ensures v.host == null
      {
        assert v in VcoreSet(rc.demands);
      }
    }

    lemma PlacingDone(rc: ResourceConsumer, free: seq<real>, V: seq<Demand>, lists: seq<seq<Core>>)
      requires |V| == |rc.demands| && AllWellFormed(V) && |free| == |caps| == |cores| == |slots| && |lists| == |cores|
      requires Placing(rc, |V|, free, V, lists)
      ensures ConsumerOk(rc) && Linked(VcoreSet(rc.demands)) && Grown(lists, HostedLists(), VcoreSet(rc.demands))
      ensures AllMatched(rc) ==> Balanced(cores, free, lists, Free(), HostedLists())
      ensures AllocAll(slots, free, rc.isTask, V) == (Free(), Views(rc), true)
    {
      hide Linked, ConsumerOk, AllocAll, AllRest, Balanced, AllMatched;
      assert Views(rc)[..|V|] == Views(rc);
      AllRestDone(slots, Free(), AllocAll(slots, free, rc.isTask, V), rc.isTask, V, Views(rc));
    }

    /** Taking an attached VM's virtual cores off a core's list takes off what the VM holds there. */
    lemma AttachedNominal(rc: ResourceConsumer)
      requires Valid() && ConsumerOk(rc) && Linked(VcoreSet(rc.demands)) && AllMatched(rc) && !rc.isTask
      requires HalfAttached(rc, |rc.demands|) && AllWellFormed(Views(rc))
      ensures forall k | 0 <= k < |cores| && cores[k] != null ::
        NominalDrop(HostedLists()[k], Vcores(rc.demands)) == Held(false, Views(rc), k)
    {
      hide Valid, ConsumerOk, Linked, AllMatched, HalfAttached, Nominal, EraseEach, Held, HeldAt, Vcores, VcoreSet,
        AllWellFormed;
      forall k | 0 <= k < |cores| && cores[k] != null
        ensures NominalDrop(HostedLists()[k], Vcores(rc.demands)) == Held(false, Views(rc), k)
      {
        AttachedNominalUpTo(rc, k, |rc.demands|);
        assert rc.demands[..|rc.demands|] == rc.demands && Views(rc)[..|rc.demands|] == Views(rc);
      }
    }

    lemma {:induction false} AttachedNominalUpTo(rc: ResourceConsumer, k: nat, u: nat)
      requires Valid() && ConsumerOk(rc) && Linked(VcoreSet(rc.demands)) && AllMatched(rc) && !rc.isTask
      requires HalfAttached(rc, |rc.demands|) && AllWellFormed(Views(rc)) && k < |cores| && cores[k] != null
        && u <= |rc.demands|
      ensures Nominal(EraseEach(HostedLists()[k], Vcores(rc.demands[..u])))
        == Nominal(HostedLists()[k]) - Held(false, Views(rc)[..u], k)
    {
      if u == 0 {
        assert rc.demands[..0] == [] && Views(rc)[..0] == [];
      } else {
        AttachedNominalUpTo(rc, k, u - 1);
        AttachedNominalNext(rc, k, u - 1);
      }
    }

    lemma AttachedNominalNext(rc: ResourceConsumer, k: nat, u: nat)
      requires Valid() && ConsumerOk(rc) && Linked(VcoreSet(rc.demands)) && AllMatched(rc) && !rc.isTask
      requires HalfAttached(rc, |rc.demands|) && AllWellFormed(Views(rc)) && k < |cores| && cores[k] != null
        && u < |rc.demands|
      requires Nominal(EraseEach(HostedLists()[k], Vcores(rc.demands[..u])))
        == Nominal(HostedLists()[k]) - Held(false, Views(rc)[..u], k)
      ensures Nominal(EraseEach(HostedLists()[k], Vcores(rc.demands[..u + 1])))
        == Nominal(HostedLists()[k]) - Held(false, Views(rc)[..u + 1], k)
    {
      hide Valid, ConsumerOk, Linked, AllMatched, HalfAttached, Nominal, Erase, EraseEach, Held, HeldAt, Vcores,
        VcoreSet;
      var d := rc.demands[u];
      var before := Vcores(rc.demands[..u]);
      var s := EraseEach(HostedLists()[k], before);
      HeldSnoc(false, Views(rc), u, k);
      VcoresIn(rc.demands, u);
      EraseEachAppend(HostedLists()[k], before, d.vcores);
      forall v | v in d.vcores
        ensures Times(s, v) == Times(HostedLists()[k], v)
      {
        StillThere(rc, u, v);
        EraseEachCount(HostedLists()[k], before, v);
      }
      AttachedOne(rc, k, u, s);
    }

    /** The virtual cores of demand u belong to no earlier demand. */
    lemma StillThere(rc: ResourceConsumer, u: nat, v: Core)
      requires ConsumerOk(rc) && u < |rc.demands| && v in rc.demands[u].vcores
      ensures v !in Vcores(rc.demands[..u])
    {
      VcoresFrom(rc.demands[..u]);
    }

    lemma AttachedOne(rc: ResourceConsumer, k: nat, j: nat, s: seq<Core>)
      requires Valid() && ConsumerOk(rc) && Linked(VcoreSet(rc.demands)) && AllMatched(rc) && !rc.isTask
      requires HalfAttached(rc, |rc.demands|) && k < |cores| && cores[k] != null && j < |rc.demands|
      requires forall v :: v in rc.demands[j].vcores ==> Times(s, v) == Times(HostedLists()[k], v)
      ensures var d := rc.demands[j];
        Nominal(EraseEach(s, d.vcores)) == Nominal(s) - HeldAt(d.amounts, View(d).location, k)
    {
      hide Nominal, HeldAt, Times, VcoreSet, Linked;
      var d := rc.demands[j];
      var loc := View(d).location;
      if d.kind == Computing {
        forall x | 0 <= x < |d.vcores|
          ensures Times(s, d.vcores[x]) == if loc[x] == Some(k) then 1 else 0
        {
          CountHere(rc, k, j, x);
        }
        EraseHeld(s, d.vcores, d.amounts, loc, k, |d.vcores|);
        assert d.vcores[..|d.vcores|] == d.vcores && d.amounts[..|d.vcores|] == d.amounts && loc[..|d.vcores|] == loc;
      } else {
        CoreSlot(resources, k);
        HeldElsewhere(d.amounts, loc, k);
      }
    }

    /** An attached virtual core is on the list of the core whose capacity pays for it, once, and on no other. */
    lemma CountHere(rc: ResourceConsumer, k: nat, j: nat, x: nat)
      requires Valid() && ConsumerOk(rc) && Linked(VcoreSet(rc.demands))
      requires k < |cores| && cores[k] != null && j < |rc.demands| && x < |rc.demands[j].vcores|
        && Attached(rc.demands[j])
      ensures Times(HostedLists()[k], rc.demands[j].vcores[x]) == if View(rc.demands[j]).location[x] == Some(k) then 1
        else 0
    {
      var v, l := rc.demands[j].vcores[x], View(rc.demands[j]).location[x];
      assert v in VcoreSet(rc.demands);
      if l != Some(k) {
        assert cores[l.value] != cores[k] by {
          assert if l.value < k then cores[l.value] != cores[k] else cores[k] != cores[l.value];
        }
      }
    }

    lemma ViewsWell(rc: ResourceConsumer)
      requires ConsumerOk(rc)
      ensures AllWellFormed(Views(rc))
    {}
  }

  /** All virtual cores of a list of demands, in order. */
  function Vcores(ds: seq<ResDemand>): (r: seq<Core>)
    ensures forall j, v :: 0 <= j < |ds| && v in ds[j].vcores ==> v in r
  {
    if ds == [] then [] else Vcores(ds[..|ds| - 1]) + ds[|ds| - 1].vcores
  }

  function VcoreSet(ds: seq<ResDemand>): set<Core> {
    set v | v in Vcores(ds)
  }

  lemma VcoreSetIs(ds: seq<ResDemand>)
    ensures VcoreSet(ds) == set v | v in Vcores(ds)
    ensures forall v :: v in VcoreSet(ds) ==> exists j :: 0 <= j < |ds| && v in ds[j].vcores
  {
    VcoresFrom(ds);
  }

  lemma {:induction false} VcoresFrom(ds: seq<ResDemand>)
    ensures forall v :: v in Vcores(ds) ==> exists j :: 0 <= j < |ds| && v in ds[j].vcores
  {
    if ds != [] {
      VcoresFrom(ds[..|ds| - 1]);
      var before := Vcores(ds[..|ds| - 1]);
      forall v | v in before
        ensures exists j :: 0 <= j < |ds| && v in ds[j].vcores
      {
        var j :| 0 <= j < |ds[..|ds| - 1]| && v in ds[..|ds| - 1][j].vcores;
        assert v in ds[j].vcores;
      }
    }
  }

  lemma VcoresIn(ds: seq<ResDemand>, u: nat)
    requires u < |ds|
    ensures Vcores(ds[..u + 1]) == Vcores(ds[..u]) + ds[u].vcores
    ensures forall x | 0 <= x < |ds[u].vcores| :: ds[u].vcores[x] in VcoreSet(ds)
  {
    assert ds[..u + 1][..u] == ds[..u];
    VcoresMore(ds, u + 1);
  }

  lemma {:induction false} VcoresMore(ds: seq<ResDemand>, u: nat)
    requires u <= |ds|
    ensures forall v :: v in Vcores(ds[..u]) ==> v in Vcores(ds)
  {
    if u < |ds| {
      VcoresMore(ds[..|ds| - 1], u);
      assert ds[..|ds| - 1][..u] == ds[..u];
    } else {
      assert ds[..u] == ds;
    }
  }

  /** T, the outcome for all demands, is what is placed already, done, and what the scan does for the rest. */
  ghost predicate AllRest(slots: seq<Slot>, free: seq<real>, T: (seq<real>, seq<Demand>, bool), isTask: bool,
                          V: seq<Demand>, u: nat, done: seq<Demand>)
    requires AllWellFormed(V)
  {
    && |free| == |slots| && u <= |V|
    && var (f, rest, ok) := AllocAll(slots, free, isTask, V[u..]);
       T == (f, done + rest, ok)
  }

  lemma AllRestStart(slots: seq<Slot>, free: seq<real>, isTask: bool, V: seq<Demand>)
    requires AllWellFormed(V) && |free| == |slots|
    ensures AllRest(slots, free, AllocAll(slots, free, isTask, V), isTask, V, 0, [])
  {
    assert V[0..] == V;
    assert [] + AllocAll(slots, free, isTask, V).1 == AllocAll(slots, free, isTask, V).1;
  }

  lemma AllRestSkip(slots: seq<Slot>, free: seq<real>, T: (seq<real>, seq<Demand>, bool), isTask: bool,
                    V: seq<Demand>, u: nat, done: seq<Demand>)
    requires AllWellFormed(V) && AllRest(slots, free, T, isTask, V, u, done)
    requires u < |V| && !Reserved(isTask, V[u].kind)
    ensures AllRest(slots, free, T, isTask, V, u + 1, done + [V[u]])
  {
    assert V[u..][1..] == V[u + 1..];
    var rest := AllocAll(slots, free, isTask, V[u + 1..]).1;
    assert done + ([V[u]] + rest) == (done + [V[u]]) + rest;
  }

  lemma AllRestTake(slots: seq<Slot>, free: seq<real>, T: (seq<real>, seq<Demand>, bool), isTask: bool,
                    V: seq<Demand>, u: nat, done: seq<Demand>, p: seq<nat>, left: seq<real>)
    requires AllWellFormed(V) && AllRest(slots, free, T, isTask, V, u, done)
    requires u < |V| && Reserved(isTask, V[u].kind)
    requires (p, left) == Fill(slots, free, V[u].kind, V[u].arch, V[u].amounts, 0)
    ensures if |p| == |V[u].amounts| then AllRest(slots, left, T, isTask, V, u + 1, done + [Located(V[u], p)])
            else T == (left, done + [Located(V[u], p)] + V[u + 1..], false)
  {
    hide Fill;
    assert V[u..][1..] == V[u + 1..];
    var d := Located(V[u], p);
    if |p| == |V[u].amounts| {
      var rest := AllocAll(slots, left, isTask, V[u + 1..]).1;
      assert done + ([d] + rest) == (done + [d]) + rest;
    } else {
      assert done + ([d] + V[u + 1..]) == done + [d] + V[u + 1..];
    }
  }

  /** The views after placing demand u. */
  ghost predicate PlacedAt(V: seq<Demand>, u: nat, done: seq<Demand>, p: seq<nat>, W: seq<Demand>)
    requires AllWellFormed(V)
  {
    && u < |V| == |W| && |done| == u && |p| <= |V[u].amounts|
    && W[..u] == done && W[u] == Located(V[u], p) && W[u + 1..] == V[u + 1..]
  }

  lemma PlacedRest(slots: seq<Slot>, free: seq<real>, T: (seq<real>, seq<Demand>, bool), isTask: bool,
                   V: seq<Demand>, u: nat, done: seq<Demand>, p: seq<nat>, left: seq<real>, W: seq<Demand>)
    requires AllWellFormed(V) && AllRest(slots, free, T, isTask, V, u, done)
    requires PlacedAt(V, u, done, p, W) && Reserved(isTask, V[u].kind)
    requires (p, left) == Fill(slots, free, V[u].kind, V[u].arch, V[u].amounts, 0)
    ensures if |p| == |V[u].amounts| then AllRest(slots, left, T, isTask, V, u + 1, W[..u + 1])
            else T == (left, W, false)
  {
    hide AllRest, Fill, Located;
    AllRestTake(slots, free, T, isTask, V, u, done, p, left);
    assert W[..u + 1] == done + [Located(V[u], p)];
    assert W == W[..u + 1] + W[u + 1..];
  }

  lemma AllRestDone(slots: seq<Slot>, free: seq<real>, T: (seq<real>, seq<Demand>, bool), isTask: bool,
                    V: seq<Demand>, done: seq<Demand>)
    requires AllWellFormed(V) && AllRest(slots, free, T, isTask, V, |V|, done)
    ensures T == (free, done, true)
  {
    assert done + [] == done;
  }

  lemma {:induction false} EraseEachAppend(s: seq<Core>, vs: seq<Core>, ws: seq<Core>)
    ensures EraseEach(s, vs + ws) == EraseEach(EraseEach(s, vs), ws)
  {
    if ws == [] {
      assert vs + ws == vs;
    } else {
      assert (vs + ws)[..|vs + ws| - 1] == vs + ws[..|ws| - 1];
      EraseEachAppend(s, vs, ws[..|ws| - 1]);
    }
  }

  lemma Head(s: seq<Core>)
    ensures s != [] ==> s[0] in s
  {}

  lemma EraseHead(y: Core, s: seq<Core>, x: Core)
    ensures Erase([y] + s, x) == (if y == x then [] else [y]) + Erase(s, x)
  {
    assert ([y] + s)[1..] == s;
  }

  lemma {:induction false} EraseTimes(s: seq<Core>, x: Core, y: Core)
    requires y != x
    ensures Times(Erase(s, x), y) == Times(s, y)
  {
    if s != [] {
      EraseTimes(s[1..], x, y);
      assert s == [s[0]] + s[1..];
      EraseHead(s[0], s[1..], x);
      TimesHead(s[0], s[1..], y);
      TimesHead(s[0], Erase(s[1..], x), y);
      assert [] + Erase(s[1..], x) == Erase(s[1..], x);
    }
  }

  lemma EraseCount(s: seq<Core>, x: Core)
    ensures forall y: Core :: y != x ==> Times(Erase(s, x), y) == Times(s, y)
  {
    forall y: Core | y != x {
      EraseTimes(s, x, y);
    }
  }

  lemma {:induction false} EraseSplit(s: seq<Core>, t: seq<Core>, x: Core)
    ensures Erase(s + t, x) == Erase(s, x) + Erase(t, x)
  {
    if s == [] {
      assert s + t == t;
    } else {
      assert (s + t)[1..] == s[1..] + t;
      EraseSplit(s[1..], t, x);
    }
  }

  lemma {:induction false} EraseAdded(s: seq<Core>, t: seq<Core>, vs: seq<Core>)
    requires forall v :: v in s ==> v !in vs
    ensures EraseEach(s + t, vs) == s + EraseEach(t, vs)
    decreases |vs|
  {
    if vs != [] {
      var ws, x := vs[..|vs| - 1], vs[|vs| - 1];
      EraseAdded(s, t, ws);
      EraseSplit(s, EraseEach(t, ws), x);
      EraseNone(s, x);
    }
  }

  /** Erasing what was added restores the lists. */
  lemma EraseGrown(lists: seq<seq<Core>>, lists1: seq<seq<Core>>, lists2: seq<seq<Core>>, ws: seq<Core>, vs: set<Core>)
    requires Grown(lists, lists1, vs) && |lists2| == |lists|
    requires vs == set v | v in ws
    requires forall k | 0 <= k < |lists| :: lists2[k] == EraseEach(lists1[k], ws)
    requires forall v, k :: v in vs && 0 <= k < |lists| ==> v !in lists[k]
    ensures lists2 == lists
  {
    forall k | 0 <= k < |lists|
      ensures lists2[k] == lists[k]
    {
      var added := lists1[k][|lists[k]|..];
      assert lists1[k] == lists[k] + added;
      forall v | v in lists[k]
        ensures v !in ws
      {
        assert v !in vs;
      }
      EraseAdded(lists[k], added, ws);
      GrownTail(lists, lists1, vs, k);
      Head(EraseEach(added, ws));
      assert lists[k] + [] == lists[k];
    }
  }

  lemma {:induction false} HeldElsewhere(amounts: seq<real>, location: seq<Option<nat>>, k: nat)
    requires |amounts| == |location| && forall x | 0 <= x < |location| :: location[x] != Some(k)
    ensures HeldAt(amounts, location, k) == 0.0
  {
    if amounts != [] {
      HeldElsewhere(amounts[1..], location[1..], k);
    }
  }

  lemma {:induction false} EraseEachCount(s: seq<Core>, vs: seq<Core>, v: Core)
    requires v !in vs
    ensures Times(EraseEach(s, vs), v) == Times(s, v)
    decreases |vs|
  {
    if vs != [] {
      EraseEachCount(s, vs[..|vs| - 1], v);
      EraseTimes(EraseEach(s, vs[..|vs| - 1]), vs[|vs| - 1], v);
    }
  }

  /** Erasing virtual cores that are listed once takes off their nominal rates. */
  lemma {:induction false} EraseNominal(s: seq<Core>, x: Core)
    requires Times(s, x) <= 1
    ensures Nominal(Erase(s, x)) == Nominal(s) - (if x in s then x.nominal else 0.0)
  {
    if s != [] {
      var t := s[1..];
      assert s == [s[0]] + t;
      EraseHead(s[0], t, x);
      TimesHead(s[0], t, x);
      if s[0] == x {
        EraseNone(t, x);
        assert [] + Erase(t, x) == t;
      } else {
        EraseNominal(t, x);
        assert ([s[0]] + Erase(t, x))[1..] == Erase(t, x);
      }
    }
  }

  lemma {:induction false} EraseHeld(s: seq<Core>, vs: seq<Core>, amounts: seq<real>, location: seq<Option<nat>>,
                                     k: nat, n: nat)
    requires n <= |vs| == |amounts| == |location| && forall i, j | 0 <= i < j < |vs| :: vs[i] != vs[j]
    requires forall x | 0 <= x < |vs| :: vs[x].nominal == amounts[x]
    requires forall x | 0 <= x < |vs| :: Times(s, vs[x]) == if location[x] == Some(k) then 1 else 0
    ensures Nominal(EraseEach(s, vs[..n])) == Nominal(s) - HeldAt(amounts[..n], location[..n], k)
    ensures forall x | n <= x < |vs| :: Times(EraseEach(s, vs[..n]), vs[x]) == Times(s, vs[x])
  {
    if n == 0 {
      assert vs[..0] == [] && HeldAt(amounts[..0], location[..0], k) == 0.0;
    } else {
      EraseHeld(s, vs, amounts, location, k, n - 1);
      var t := EraseEach(s, vs[..n - 1]);
      EraseEachNext(s, vs, n - 1);
      EraseNominal(t, vs[n - 1]);
      HeldAtNext(amounts, location, n - 1, k);
      hide EraseEach, Nominal, HeldAt, Times, Erase;
      forall x | n <= x < |vs| {
        EraseTimes(t, vs[n - 1], vs[x]);
      }
    }
  }

  lemma EraseMore(lists: seq<seq<Core>>, ds: seq<ResDemand>, u: nat)
    requires u < |ds|
    ensures forall k | 0 <= k < |lists| ::
      EraseEach(lists[k], Vcores(ds[..u + 1])) == EraseEach(EraseEach(lists[k], Vcores(ds[..u])), ds[u].vcores)
  {
    VcoresIn(ds, u);
    forall k | 0 <= k < |lists|
    {
      EraseEachAppend(lists[k], Vcores(ds[..u]), ds[u].vcores);
    }
  }

  lemma HeldNone(isTask: bool, ds: seq<Demand>)
    requires AllWellFormed(ds)
    ensures forall k :: Held(isTask, ds[..0], k) == 0.0
  {}

  lemma HeldNext(isTask: bool, ds: seq<Demand>, u: nat)
    requires AllWellFormed(ds) && u < |ds|
    ensures forall k :: (Held(isTask, ds[..u + 1], k)
      == Held(isTask, ds[..u], k) + (if Reserved(isTask, ds[u].kind) then HeldAt(ds[u].amounts, ds[u].location, k)
        else 0.0))
  {
    forall k
    {
      HeldSnoc(isTask, ds, u, k);
    }
  }

  lemma {:induction false} HeldSnoc(isTask: bool, ds: seq<Demand>, u: nat, k: nat)
    requires AllWellFormed(ds) && u < |ds|
    ensures Held(isTask, ds[..u + 1], k)
      == Held(isTask, ds[..u], k) + (if Reserved(isTask, ds[u].kind) then HeldAt(ds[u].amounts, ds[u].location, k)
        else 0.0)
  {
    if u == 0 {
      assert ds[..1] == [ds[0]];
      assert Held(isTask, [], k) == 0.0;
    } else {
      HeldSnoc(isTask, ds[1..], u - 1, k);
      assert ds[..u + 1][1..] == ds[1..][..u] && ds[..u][1..] == ds[1..][..u - 1];
    }
  }

  function GivenBack(free: seq<real>, x: real, k: Option<nat>): (r: seq<real>)
    ensures |r| == |free|
  {
    if k.Some? && k.value < |free| then free[k.value := free[k.value] + x] else free
  }

  lemma GivenBackAt(free: seq<real>, x: real, k: Option<nat>, j: nat)
    requires j < |free|
    ensures GivenBack(free, x, k)[j] == free[j] + (if k == Some(j) then x else 0.0)
  {}

  lemma HeldAtNone(amounts: seq<real>, location: seq<Option<nat>>)
    requires |amounts| == |location|
    ensures forall k :: HeldAt(amounts[..0], location[..0], k) == 0.0
  {}

  lemma {:induction false} HeldAtNext(amounts: seq<real>, location: seq<Option<nat>>, i: nat, k: nat)
    requires |amounts| == |location| && i < |amounts|
    ensures HeldAt(amounts[..i + 1], location[..i + 1], k)
      == HeldAt(amounts[..i], location[..i], k) + (if location[i] == Some(k) then amounts[i] else 0.0)
  {
    if i == 0 {
      assert amounts[..1] == [amounts[0]] && location[..1] == [location[0]];
      assert HeldAt([], [], k) == 0.0;
    } else {
      HeldAtNext(amounts[1..], location[1..], i - 1, k);
      assert amounts[..i + 1][1..] == amounts[1..][..i] && location[..i + 1][1..] == location[1..][..i];
      assert amounts[..i][1..] == amounts[1..][..i - 1] && location[..i][1..] == location[1..][..i - 1];
    }
  }

  /** The whole scan's result F is what is placed already, p, and what the scan does from capacity j on. */
  ghost predicate Rest(slots: seq<Slot>, free: seq<real>, F: (seq<nat>, seq<real>), p: seq<nat>,
                       kind: Kind, arch: real, req: seq<real>, j: nat)
  {
    && |free| == |slots| && |p| <= |req| && j <= |slots|
    && var (q, left) := Fill(slots, free, kind, arch, req[|p|..], j);
       F == (p + q, left)
  }

  lemma RestTake(slots: seq<Slot>, free: seq<real>, F: (seq<nat>, seq<real>), p: seq<nat>,
                 kind: Kind, arch: real, req: seq<real>, j: nat)
    requires Rest(slots, free, F, p, kind, arch, req, j) && |p| < |req| && j < |slots|
    requires Suits(slots[j], kind, arch) && free[j] >= req[|p|]
    ensures Rest(slots, free[j := free[j] - req[|p|]], F, p + [j], kind, arch, req, j)
  {
    var q := Fill(slots, free[j := free[j] - req[|p|]], kind, arch, req[|p| + 1..], j).0;
    assert req[|p|..][1..] == req[|p| + 1..];
    assert p + ([j] + q) == (p + [j]) + q;
  }

  lemma RestSkip(slots: seq<Slot>, free: seq<real>, F: (seq<nat>, seq<real>), p: seq<nat>,
                 kind: Kind, arch: real, req: seq<real>, j: nat)
    requires Rest(slots, free, F, p, kind, arch, req, j) && |p| < |req| && j < |slots|
    requires free[j] < req[|p|]
    ensures Rest(slots, free, F, p, kind, arch, req, j + 1)
  {}

  lemma RestDone(slots: seq<Slot>, free: seq<real>, F: (seq<nat>, seq<real>), p: seq<nat>,
                 kind: Kind, arch: real, req: seq<real>, j: nat)
    requires Rest(slots, free, F, p, kind, arch, req, j) && (|p| == |req| || j == |slots|)
    ensures F == (p, free)
  {
    assert p + [] == p;
  }

  lemma RestStart(slots: seq<Slot>, free: seq<real>, kind: Kind, arch: real, req: seq<real>)
    requires |free| == |slots|
    ensures Rest(slots, free, Fill(slots, free, kind, arch, req, 0), [], kind, arch, req, 0)
  {
    assert req[0..] == req;
    assert [] + Fill(slots, free, kind, arch, req, 0).0 == Fill(slots, free, kind, arch, req, 0).0;
  }

  /** The scan passes over unsuitable capacities. */
  lemma {:induction false} SkipSlots(slots: seq<Slot>, free: seq<real>, kind: Kind, arch: real, req: seq<real>, j: nat,
                                     k: nat)
    requires |free| == |slots| && j <= k <= |slots| && forall x | j <= x < k :: !Suits(slots[x], kind, arch)
    ensures Fill(slots, free, kind, arch, req, j) == Fill(slots, free, kind, arch, req, k)
    decreases k - j
  {
    if j < k {
      SkipSlots(slots, free, kind, arch, req, j + 1, k);
    }
  }
}
