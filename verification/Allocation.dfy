/**
 Reservation of static capacity: the greedy scan of tryToAllocate, its rollback, and releaseAllocation.
 The capacities of a provider are listed in scan order, each with the type and the architecture
 of the resource it belongs to.
 */
module Allocation {
  import opened Common

  datatype Kind = Computing | Memory | Storage | Networking

  datatype Slot = Slot(kind: Kind, arch: real)

  /** location i tells which capacity of the provider pays for amount i. */
  datatype Demand = Demand(kind: Kind, arch: real, amounts: seq<real>, location: seq<Option<nat>>)

  datatype Consumer = Consumer(isTask: bool, demands: seq<Demand>)

  predicate WellFormed(d: Demand) {
    && d.amounts != [] && |d.location| == |d.amounts|
    && NonNegative(d.amounts)
  }

  /** Tasks do not reserve computing and networking capacity; VMs and migrations reserve all they demand. */
  predicate Reserved(isTask: bool, kind: Kind) {
    (kind != Computing && kind != Networking) || !isTask
  }

  predicate Suits(s: Slot, kind: Kind, arch: real) {
    s.kind == kind && arch <= s.arch
  }

  // ---------- one demand ----------

  /**
   The scan for one demand: amount after amount goes to the current capacity while it fits, else the
   scan moves on and never back.  Returns where the leading amounts were placed and what is left free.
   */
  function Fill(slots: seq<Slot>, free: seq<real>, kind: Kind, arch: real, req: seq<real>, j: nat)
    : (r: (seq<nat>, seq<real>))
    requires |free| == |slots|
    ensures |r.0| <= |req| && |r.1| == |free|
    decreases |req| + (if j < |slots| then |slots| - j else 0)
  {
    if req == [] || j >= |slots| then ([], free)
    else if Suits(slots[j], kind, arch) && free[j] >= req[0] then
      var (p, left) := Fill(slots, free[j := free[j] - req[0]], kind, arch, req[1..], j);
      ([j] + p, left)
    else Fill(slots, free, kind, arch, req, j + 1)
  }

  /** What placement p puts on capacity j. */
  function Load(req: seq<real>, p: seq<nat>, j: nat): real
    requires |p| <= |req|
  {
    if p == [] then 0.0 else (if p[0] == j then req[0] else 0.0) + Load(req[1..], p[1..], j)
  }

  /** Placement p keeps the order of the amounts, uses suitable capacities from j on, and overloads none. */
  ghost predicate Feasible(slots: seq<Slot>, free: seq<real>, kind: Kind, arch: real, req: seq<real>, j: nat,
                           p: seq<nat>)
    requires |free| == |slots|
  {
    && |p| == |req|
    && (forall i | 0 <= i < |p| ::
        j <= p[i] < |slots| && Suits(slots[p[i]], kind, arch) && Load(req, p, p[i]) <= free[p[i]])
    && (forall i | 0 < i < |p| :: p[i - 1] <= p[i])
  }

  lemma {:induction false} LoadPositive(req: seq<real>, p: seq<nat>, j: nat)
    requires |p| <= |req| && NonNegative(req)
    ensures Load(req, p, j) >= 0.0
    ensures p != [] && p[0] == j ==> Load(req, p, j) >= req[0]
  {
    if p != [] {
      LoadPositive(req[1..], p[1..], j);
    }
  }

  lemma {:induction false} LoadElsewhere(req: seq<real>, p: seq<nat>, j: nat)
    requires |p| <= |req| && j !in p
    ensures Load(req, p, j) == 0.0
  {
    if p != [] {
      assert p[0] in p;
      LoadElsewhere(req[1..], p[1..], j);
    }
  }

  lemma {:induction false} Ascending(p: seq<nat>, i: nat)
    requires i < |p| && forall k | 0 < k < |p| :: p[k - 1] <= p[k]
    ensures p[0] <= p[i]
  {
    if i > 0 { Ascending(p, i - 1); }
  }

  /** Greedy stays ahead: if any order-preserving placement fits, the scan places everything. */
  lemma {:induction false} GreedyStaysAhead(slots: seq<Slot>, free: seq<real>, kind: Kind, arch: real,
                                            req: seq<real>, j: nat, p: seq<nat>)
    requires |free| == |slots| && NonNegative(req)
    requires Feasible(slots, free, kind, arch, req, j, p)
    ensures |Fill(slots, free, kind, arch, req, j).0| == |req|
    decreases |req| + (if j < |slots| then |slots| - j else 0)
  {
    if req != [] {
      assert p[0] < |slots|;
      LoadPositive(req, p, p[0]);
      if Suits(slots[j], kind, arch) && free[j] >= req[0] {
        var q, left := p[1..], free[j := free[j] - req[0]];
        forall i | 0 <= i < |q|
          ensures j <= q[i] < |slots| && Suits(slots[q[i]], kind, arch) && Load(req[1..], q, q[i]) <= left[q[i]]
        {
          assert q[i] == p[i + 1];
          if p[0] != j && q[i] == j {
            Ascending(p, i + 1);
          }
        }
        GreedyStaysAhead(slots, left, kind, arch, req[1..], j, q);
      } else {
        forall i | 0 <= i < |p|
          ensures j + 1 <= p[i]
        {
          Ascending(p, i);
        }
        GreedyStaysAhead(slots, free, kind, arch, req, j + 1, p);
      }
    }
  }

  /** Where the scan places amounts, and what it leaves free. */
  lemma {:induction false} FillSound(slots: seq<Slot>, free: seq<real>, kind: Kind, arch: real, req: seq<real>, j: nat)
    requires |free| == |slots|
    ensures var (p, left) := Fill(slots, free, kind, arch, req, j);
      && (forall i | 0 <= i < |p| :: j <= p[i] < |slots| && Suits(slots[p[i]], kind, arch))
      && (forall i | 0 < i < |p| :: p[i - 1] <= p[i])
      && (forall k | 0 <= k < |slots| :: left[k] == free[k] - Load(req, p, k))
      && (forall k | 0 <= k < |slots| :: free[k] >= 0.0 ==> left[k] >= 0.0)
      && (forall k | 0 <= k < |slots| :: k in p ==> left[k] >= 0.0)
    decreases |req| + (if j < |slots| then |slots| - j else 0)
  {
    if req == [] || j >= |slots| {
    } else if Suits(slots[j], kind, arch) && free[j] >= req[0] {
      FillSound(slots, free[j := free[j] - req[0]], kind, arch, req[1..], j);
    } else {
      FillSound(slots, free, kind, arch, req, j + 1);
    }
  }

  /** The scan succeeds exactly when some order-preserving placement fits. */
  lemma GreedyComplete(slots: seq<Slot>, free: seq<real>, kind: Kind, arch: real, req: seq<real>)
    requires |free| == |slots| && NonNegative(req)
    ensures |Fill(slots, free, kind, arch, req, 0).0| == |req|
       <==> exists p :: Feasible(slots, free, kind, arch, req, 0, p)
  {
    var (p, left) := Fill(slots, free, kind, arch, req, 0);
    FillSound(slots, free, kind, arch, req, 0);
    if |p| == |req| {
      forall i | 0 <= i < |p|
        ensures Load(req, p, p[i]) <= free[p[i]]
      {
        assert p[i] in p && left[p[i]] >= 0.0;
      }
      assert Feasible(slots, free, kind, arch, req, 0, p);
    }
    forall q | Feasible(slots, free, kind, arch, req, 0, q)
      ensures |p| == |req|
    {
      GreedyStaysAhead(slots, free, kind, arch, req, 0, q);
    }
  }

  // ---------- a consumer's demands ----------

  predicate AllWellFormed(ds: seq<Demand>) {
    forall i | 0 <= i < |ds| :: WellFormed(ds[i])
  }

  /** What one demand holds of capacity k. */
  function HeldAt(amounts: seq<real>, location: seq<Option<nat>>, k: nat): real
    requires |amounts| == |location|
  {
    if amounts == [] then 0.0 else
    (if location[0] == Some(k) then amounts[0] else 0.0) + HeldAt(amounts[1..], location[1..], k)
  }

  /** What a list of demands holds of capacity k. */
  function Held(isTask: bool, ds: seq<Demand>, k: nat): real
    requires AllWellFormed(ds)
  {
    if ds == [] then 0.0 else
    (if Reserved(isTask, ds[0].kind) then HeldAt(ds[0].amounts, ds[0].location, k) else 0.0)
    + Held(isTask, ds[1..], k)
  }

  function Located(d: Demand, p: seq<nat>): Demand
    requires WellFormed(d) && |p| <= |d.amounts|
  {
    d.(location := seq(|d.amounts|, i requires 0 <= i < |d.amounts| => if i < |p| then Some(p[i]) else d.location[i]))
  }

  function Cleared(d: Demand): Demand {
    d.(location := seq(|d.location|, i => None))
  }

  /** The scan over all demands; on failure it stops where the amounts did not fit. */
  function AllocAll(slots: seq<Slot>, free: seq<real>, isTask: bool, ds: seq<Demand>)
    : (r: (seq<real>, seq<Demand>, bool))
    requires |free| == |slots| && AllWellFormed(ds)
    ensures |r.0| == |free| && |r.1| == |ds|
    ensures AllWellFormed(r.1)
    decreases |ds|
  {
    if ds == [] then (free, [], true)
    else if !Reserved(isTask, ds[0].kind) then
      var (f, rest, ok) := AllocAll(slots, free, isTask, ds[1..]);
      (f, [ds[0]] + rest, ok)
    else
      var (p, left) := Fill(slots, free, ds[0].kind, ds[0].arch, ds[0].amounts, 0);
      if |p| < |ds[0].amounts| then (left, [Located(ds[0], p)] + ds[1..], false)
      else
        var (f, rest, ok) := AllocAll(slots, left, isTask, ds[1..]);
        (f, [Located(ds[0], p)] + rest, ok)
  }

  function ClearedAll(isTask: bool, ds: seq<Demand>): (r: seq<Demand>)
    ensures |r| == |ds|
    ensures forall i | 0 <= i < |ds| :: r[i] == if Reserved(isTask, ds[i].kind) then Cleared(ds[i]) else ds[i]
  {
    seq(|ds|, i requires 0 <= i < |ds| => if Reserved(isTask, ds[i].kind) then Cleared(ds[i]) else ds[i])
  }

  /** releaseAllocation: every capacity gets back what the consumer held of it. */
  function Release(free: seq<real>, c: Consumer): (r: (seq<real>, Consumer))
    requires AllWellFormed(c.demands)
    ensures |r.0| == |free|
  {
    (seq(|free|, k requires 0 <= k < |free| => free[k] + Held(c.isTask, c.demands, k)),
     c.(demands := ClearedAll(c.isTask, c.demands)))
  }

  /** tryToAllocate: all demands, or none. */
  function TryAllocate(slots: seq<Slot>, free: seq<real>, c: Consumer): (r: (seq<real>, Consumer, bool))
    requires |free| == |slots| && AllWellFormed(c.demands)
    ensures |r.0| == |free|
  {
    var (f, ds, ok) := AllocAll(slots, free, c.isTask, c.demands);
    if ok then (f, c.(demands := ds), true)
    else
      var (f1, c1) := Release(f, c.(demands := ds));
      (f1, c1, false)
  }

  predicate HoldsNothing(isTask: bool, ds: seq<Demand>) {
    forall d :: d in ds && Reserved(isTask, d.kind) ==> d == Cleared(d)
  }

  lemma {:induction false} HeldAtCleared(amounts: seq<real>, location: seq<Option<nat>>, k: nat)
    requires |amounts| == |location| && forall i | 0 <= i < |location| :: location[i] == None
    ensures HeldAt(amounts, location, k) == 0.0
  {
    if amounts != [] {
      HeldAtCleared(amounts[1..], location[1..], k);
    }
  }

  lemma {:induction false} HoldingNothing(isTask: bool, ds: seq<Demand>, k: nat)
    requires AllWellFormed(ds) && HoldsNothing(isTask, ds)
    ensures Held(isTask, ds, k) == 0.0
  {
    if ds != [] {
      var d := ds[0];
      assert d in ds;
      if Reserved(isTask, d.kind) {
        assert forall i | 0 <= i < |d.location| :: Cleared(d).location[i] == None;
        HeldAtCleared(d.amounts, d.location, k);
      }
      HoldingNothing(isTask, ds[1..], k);
    }
  }

  /** A fresh placement holds exactly its load. */
  lemma {:induction false} HeldAtLocated(amounts: seq<real>, location: seq<Option<nat>>, p: seq<nat>, k: nat)
    requires |amounts| == |location| && |p| <= |amounts|
    requires forall i | 0 <= i < |location| :: location[i] == if i < |p| then Some(p[i]) else None
    ensures HeldAt(amounts, location, k) == Load(amounts, p, k)
  {
    if p == [] {
      HeldAtCleared(amounts, location, k);
    } else {
      HeldAtLocated(amounts[1..], location[1..], p[1..], k);
    }
  }

  /** What the scan takes from a capacity is what the consumer then holds of it; no capacity goes negative. */
  lemma {:induction false} AllocConserves(slots: seq<Slot>, free: seq<real>, isTask: bool, ds: seq<Demand>, k: nat)
    requires |free| == |slots| && k < |free| && AllWellFormed(ds) && HoldsNothing(isTask, ds)
    ensures var (f, es, ok) := AllocAll(slots, free, isTask, ds);
      && f[k] + Held(isTask, es, k) == free[k]
      && (free[k] >= 0.0 ==> f[k] >= 0.0)
    decreases |ds|
  {
    if ds != [] {
      var d := ds[0];
      assert d in ds;
      if !Reserved(isTask, d.kind) {
        AllocConserves(slots, free, isTask, ds[1..], k);
      } else {
        FillSound(slots, free, d.kind, d.arch, d.amounts, 0);
        var (p, left) := Fill(slots, free, d.kind, d.arch, d.amounts, 0);
        assert forall i | 0 <= i < |d.location| :: Cleared(d).location[i] == None;
        HeldAtLocated(d.amounts, Located(d, p).location, p, k);
        if |p| < |d.amounts| {
          HoldingNothing(isTask, ds[1..], k);
        } else {
          AllocConserves(slots, left, isTask, ds[1..], k);
        }
      }
    }
  }

  /** The scan changes only locations. */
  lemma {:induction false} AllocShape(slots: seq<Slot>, free: seq<real>, isTask: bool, ds: seq<Demand>)
    requires |free| == |slots| && AllWellFormed(ds) && HoldsNothing(isTask, ds)
    ensures ClearedAll(isTask, AllocAll(slots, free, isTask, ds).1) == ds
    decreases |ds|
  {
    var es := AllocAll(slots, free, isTask, ds).1;
    if ds != [] {
      var d := ds[0];
      assert d in ds;
      var (p, left) := Fill(slots, free, d.kind, d.arch, d.amounts, 0);
      if !Reserved(isTask, d.kind) {
        AllocShape(slots, free, isTask, ds[1..]);
      } else if |p| == |d.amounts| {
        AllocShape(slots, left, isTask, ds[1..]);
      }
      forall i | 0 <= i < |ds|
        ensures ClearedAll(isTask, es)[i] == ds[i]
      {
        if i > 0 {
          assert ds[i] in ds && es[i] == es[1..][i - 1] && ds[i] == ds[1..][i - 1];
        }
      }
    }
  }

  // ---------- all or nothing ----------

  /** A failed attempt of a consumer that held nothing leaves no trace. */
  lemma AllOrNothing(slots: seq<Slot>, free: seq<real>, c: Consumer)
    requires |free| == |slots| && AllWellFormed(c.demands) && HoldsNothing(c.isTask, c.demands)
    requires !TryAllocate(slots, free, c).2
    ensures TryAllocate(slots, free, c) == (free, c, false)
  {
    var (f, ds, ok) := AllocAll(slots, free, c.isTask, c.demands);
    AllocShape(slots, free, c.isTask, c.demands);
    var r := TryAllocate(slots, free, c).0;
    forall k | 0 <= k < |free|
      ensures r[k] == free[k]
    {
      AllocConserves(slots, free, c.isTask, c.demands, k);
    }
    assert r == free;
  }

  /** Allocating and releasing again is the identity. */
  lemma AllocateRelease(slots: seq<Slot>, free: seq<real>, c: Consumer)
    requires |free| == |slots| && AllWellFormed(c.demands) && HoldsNothing(c.isTask, c.demands)
    ensures var (f, c1, ok) := TryAllocate(slots, free, c);
      AllWellFormed(c1.demands) && (ok ==> Release(f, c1) == (free, c))
  {
    var (f, ds, ok) := AllocAll(slots, free, c.isTask, c.demands);
    AllocShape(slots, free, c.isTask, c.demands);
    if ok {
      var r := Release(f, c.(demands := ds)).0;
      forall k | 0 <= k < |free|
        ensures r[k] == free[k]
      {
        AllocConserves(slots, free, c.isTask, c.demands, k);
      }
      assert r == free;
    } else {
      AllOrNothing(slots, free, c);
    }
  }

  lemma ClearedHoldsNothing(isTask: bool, ds: seq<Demand>)
    requires AllWellFormed(ds)
    ensures AllWellFormed(ClearedAll(isTask, ds)) && HoldsNothing(isTask, ClearedAll(isTask, ds))
  {
    var es := ClearedAll(isTask, ds);
    forall e | e in es && Reserved(isTask, e.kind)
      ensures e == Cleared(e)
    {
      var i :| 0 <= i < |es| && es[i] == e;
    }
  }

  /** Releasing twice is releasing once. */
  lemma ReleaseTwice(free: seq<real>, c: Consumer)
    requires AllWellFormed(c.demands)
    ensures var (f, c1) := Release(free, c);
      AllWellFormed(c1.demands) && HoldsNothing(c1.isTask, c1.demands) && Release(f, c1) == (f, c1)
  {
    var (f, c1) := Release(free, c);
    ClearedHoldsNothing(c.isTask, c.demands);
    forall k | 0 <= k < |f|
      ensures Release(f, c1).0[k] == f[k]
    {
      HoldingNothing(c1.isTask, c1.demands, k);
    }
    assert Release(f, c1).0 == f;
    assert ClearedAll(c1.isTask, c1.demands) == c1.demands;
  }

  // ---------- when it succeeds ----------

  predicate OnePerKind(isTask: bool, ds: seq<Demand>) {
    forall i, j | 0 <= i < j < |ds| && Reserved(isTask, ds[i].kind) :: ds[i].kind != ds[j].kind
  }

  /** Each reserved demand, on its own, has a placement that keeps the order and fits. */
  ghost predicate Placeable(slots: seq<Slot>, free: seq<real>, isTask: bool, ds: seq<Demand>)
    requires |free| == |slots|
  {
    forall i | 0 <= i < |ds| && Reserved(isTask, ds[i].kind) ::
      exists p :: Feasible(slots, free, ds[i].kind, ds[i].arch, ds[i].amounts, 0, p)
  }

  lemma {:induction false} FillAgrees(slots: seq<Slot>, free: seq<real>, other: seq<real>, kind: Kind, arch: real,
                                      req: seq<real>, j: nat)
    requires |free| == |slots| == |other|
    requires forall k | 0 <= k < |slots| && slots[k].kind == kind :: free[k] == other[k]
    ensures Fill(slots, free, kind, arch, req, j).0 == Fill(slots, other, kind, arch, req, j).0
    decreases |req| + (if j < |slots| then |slots| - j else 0)
  {
    if req == [] || j >= |slots| {
    } else if Suits(slots[j], kind, arch) && free[j] >= req[0] {
      FillAgrees(slots, free[j := free[j] - req[0]], other[j := other[j] - req[0]], kind, arch, req[1..], j);
    } else {
      FillAgrees(slots, free, other, kind, arch, req, j + 1);
    }
  }

  /** Demands of other types do not get in the way. */
  lemma {:induction false} AllocExact(slots: seq<Slot>, now: seq<real>, free: seq<real>, isTask: bool, ds: seq<Demand>)
    requires |free| == |slots| == |now| && AllWellFormed(ds) && OnePerKind(isTask, ds)
    requires forall i, k | 0 <= i < |ds| && Reserved(isTask, ds[i].kind) && 0 <= k < |slots|
      && slots[k].kind == ds[i].kind ::
      now[k] == free[k]
    ensures AllocAll(slots, now, isTask, ds).2 <==> Placeable(slots, free, isTask, ds)
    decreases |ds|
  {
    if ds != [] {
      var d := ds[0];
      if !Reserved(isTask, d.kind) {
        AllocExact(slots, now, free, isTask, ds[1..]);
        PlaceableCons(slots, free, isTask, ds);
      } else {
        FillAgrees(slots, now, free, d.kind, d.arch, d.amounts, 0);
        GreedyComplete(slots, free, d.kind, d.arch, d.amounts);
        FillSound(slots, now, d.kind, d.arch, d.amounts, 0);
        var (p, left) := Fill(slots, now, d.kind, d.arch, d.amounts, 0);
        forall k | 0 <= k < |slots| && slots[k].kind != d.kind
          ensures left[k] == now[k]
        {
          LoadElsewhere(d.amounts, p, k);
        }
        forall i, k | 0 <= i < |ds| - 1 && Reserved(isTask, ds[1..][i].kind) && 0 <= k < |slots|
          && slots[k].kind == ds[1..][i].kind
          ensures left[k] == free[k]
        {
          assert ds[1..][i] == ds[i + 1];
        }
        AllocExact(slots, left, free, isTask, ds[1..]);
        PlaceableCons(slots, free, isTask, ds);
      }
    }
  }

  lemma PlaceableCons(slots: seq<Slot>, free: seq<real>, isTask: bool, ds: seq<Demand>)
    requires |free| == |slots| && ds != []
    ensures Placeable(slots, free, isTask, ds) <==>
      && (Reserved(isTask, ds[0].kind)
        ==> exists p :: Feasible(slots, free, ds[0].kind, ds[0].arch, ds[0].amounts, 0, p))
      && Placeable(slots, free, isTask, ds[1..])
  {
    hide Feasible;
    if Placeable(slots, free, isTask, ds[1..]) {
      forall i | 0 < i < |ds| && Reserved(isTask, ds[i].kind)
        ensures exists p :: Feasible(slots, free, ds[i].kind, ds[i].arch, ds[i].amounts, 0, p)
      {
        assert ds[i] == ds[1..][i - 1];
      }
    }
  }

  /** With at most one demand per type, tryToAllocate succeeds exactly when every demand can be placed. */
  lemma SucceedsExactly(slots: seq<Slot>, free: seq<real>, c: Consumer)
    requires |free| == |slots| && AllWellFormed(c.demands) && OnePerKind(c.isTask, c.demands)
    ensures TryAllocate(slots, free, c).2 <==> Placeable(slots, free, c.isTask, c.demands)
  {
    AllocExact(slots, free, free, c.isTask, c.demands);
  }

  /** So more free capacity never hurts. */
  lemma SuccessIsMonotone(slots: seq<Slot>, free: seq<real>, more: seq<real>, c: Consumer)
    requires |free| == |slots| == |more| && AllWellFormed(c.demands) && OnePerKind(c.isTask, c.demands)
    requires forall k | 0 <= k < |free| :: free[k] <= more[k]
    requires TryAllocate(slots, free, c).2
    ensures TryAllocate(slots, more, c).2
  {
    SucceedsExactly(slots, free, c);
    SucceedsExactly(slots, more, c);
    forall i | 0 <= i < |c.demands| && Reserved(c.isTask, c.demands[i].kind)
      ensures exists p :: Feasible(slots, more, c.demands[i].kind, c.demands[i].arch, c.demands[i].amounts, 0, p)
    {
      var d := c.demands[i];
      var p :| Feasible(slots, free, d.kind, d.arch, d.amounts, 0, p);
      assert Feasible(slots, more, d.kind, d.arch, d.amounts, 0, p);
    }
  }

  /**
   Two demands of one type can get in each other's way: the first takes the only capacity that
   suits the second.  More free capacity then turns success into failure.
   */
  lemma TwoOfAKind() returns (slots: seq<Slot>, free: seq<real>, more: seq<real>, c: Consumer)
    ensures |free| == |slots| == |more| && AllWellFormed(c.demands) && HoldsNothing(c.isTask, c.demands)
    ensures forall k | 0 <= k < |free| :: free[k] <= more[k]
    ensures TryAllocate(slots, free, c).2 && !TryAllocate(slots, more, c).2
    ensures Placeable(slots, more, c.isTask, c.demands)
  {
    slots := [Slot(Memory, 2.0), Slot(Memory, 1.0)];
    var a, b := Demand(Memory, 1.0, [4.0], [None]), Demand(Memory, 2.0, [3.0], [None]);
    c := Consumer(true, [a, b]);
    free, more := [3.0, 4.0], [4.0, 4.0];
    FillOne(slots, free, a);
    FillOne(slots, more, a);
    FillOne(slots, [3.0, 0.0], b);
    FillOne(slots, [0.0, 4.0], b);
    assert free[1 := 0.0] == [3.0, 0.0] && more[0 := 0.0] == [0.0, 4.0];
    assert c.demands[1..] == [b] && [b][1..] == [];
    assert AllocAll(slots, [3.0, 0.0], true, [b]).2;
    assert !AllocAll(slots, [0.0, 4.0], true, [b]).2;
    assert AllocAll(slots, free, true, [a, b]).2;
    assert !AllocAll(slots, more, true, [a, b]).2;
    assert Cleared(a) == a && Cleared(b) == b;
    assert Feasible(slots, more, Memory, 1.0, [4.0], 0, [1]);
    assert Feasible(slots, more, Memory, 2.0, [3.0], 0, [0]);
  }

  /** The scan for a single amount on two capacities. */
  lemma FillOne(slots: seq<Slot>, free: seq<real>, d: Demand)
    requires |slots| == |free| == 2 && |d.amounts| == 1
    ensures var x := d.amounts[0];
      Fill(slots, free, d.kind, d.arch, d.amounts, 0) ==
        if Suits(slots[0], d.kind, d.arch) && free[0] >= x then ([0], free[0 := free[0] - x])
        else if Suits(slots[1], d.kind, d.arch) && free[1] >= x then ([1], free[1 := free[1] - x])
        else ([], free)
  {
    var x := d.amounts[0];
    assert d.amounts[1..] == [];
    assert [0] + [] == [0] && [1] + [] == [1];
    if Suits(slots[0], d.kind, d.arch) && free[0] >= x {
      assert Fill(slots, free[0 := free[0] - x], d.kind, d.arch, [], 0) == ([], free[0 := free[0] - x]);
    } else {
      assert Fill(slots, free, d.kind, d.arch, d.amounts, 0) == Fill(slots, free, d.kind, d.arch, d.amounts, 1);
      if Suits(slots[1], d.kind, d.arch) && free[1] >= x {
        assert Fill(slots, free[1 := free[1] - x], d.kind, d.arch, [], 1) == ([], free[1 := free[1] - x]);
      } else {
        assert Fill(slots, free, d.kind, d.arch, d.amounts, 2) == ([], free);
      }
    }
  }

  // ---------- which demands are reserved, type by type ----------

  lemma {:induction false} LoadAtLeast(req: seq<real>, p: seq<nat>, x: nat)
    requires |p| <= |req| && NonNegative(req) && x < |p|
    ensures Load(req, p, p[x]) >= req[x]
  {
    LoadPositive(req[1..], p[1..], p[x]);
    if x > 0 {
      LoadAtLeast(req[1..], p[1..], x - 1);
    }
  }

  /** The scan only takes. */
  lemma FillTakes(slots: seq<Slot>, free: seq<real>, d: Demand, k: nat)
    requires |free| == |slots| && WellFormed(d) && k < |slots|
    ensures var (p, left) := Fill(slots, free, d.kind, d.arch, d.amounts, 0);
      && left[k] <= free[k]
      && (slots[k].kind != d.kind ==> left[k] == free[k])
      && forall x | 0 <= x < |p| && p[x] == k ::
          slots[k].kind == d.kind && d.arch <= slots[k].arch && d.amounts[x] <= free[k]
  {
    FillSound(slots, free, d.kind, d.arch, d.amounts, 0);
    var (p, left) := Fill(slots, free, d.kind, d.arch, d.amounts, 0);
    LoadPositive(d.amounts, p, k);
    forall x | 0 <= x < |p| && p[x] == k
      ensures slots[k].kind == d.kind && d.arch <= slots[k].arch && d.amounts[x] <= free[k]
    {
      LoadAtLeast(d.amounts, p, x);
      assert k in p;
    }
    if slots[k].kind != d.kind {
      assert k !in p;
      LoadElsewhere(d.amounts, p, k);
    }
  }

  /**
   An attempt fails if one amount is more than what is free of every capacity of its type whose
   architecture is at least the one demanded: memory or storage for a task, anything for a VM or a
   migration.
   */
  lemma {:induction false} NoRoomAll(slots: seq<Slot>, free: seq<real>, isTask: bool, ds: seq<Demand>, i: nat, x: nat)
    requires |free| == |slots| && AllWellFormed(ds) && i < |ds| && x < |ds[i].amounts|
    requires ds[i].kind == Memory || ds[i].kind == Storage || !isTask
    requires forall k | 0 <= k < |slots| && slots[k].kind == ds[i].kind && ds[i].arch <= slots[k].arch ::
      free[k] < ds[i].amounts[x]
    ensures !AllocAll(slots, free, isTask, ds).2
    decreases |ds|
  {
    var d := ds[0];
    var (p, left) := Fill(slots, free, d.kind, d.arch, d.amounts, 0);
    forall k | 0 <= k < |slots|
      ensures left[k] <= free[k]
    {
      FillTakes(slots, free, d, k);
    }
    if i == 0 {
      FillSound(slots, free, d.kind, d.arch, d.amounts, 0);
      if x < |p| {
        FillTakes(slots, free, d, p[x]);
      }
    } else {
      NoRoomAll(slots, if Reserved(isTask, d.kind) then left else free, isTask, ds[1..], i - 1, x);
    }
  }

  lemma NoRoomFails(slots: seq<Slot>, free: seq<real>, c: Consumer, i: nat, x: nat)
    requires |free| == |slots| && AllWellFormed(c.demands) && i < |c.demands| && x < |c.demands[i].amounts|
    requires c.demands[i].kind == Memory || c.demands[i].kind == Storage || !c.isTask
    requires forall k | 0 <= k < |slots| && slots[k].kind == c.demands[i].kind && c.demands[i].arch <= slots[k].arch ::
      free[k] < c.demands[i].amounts[x]
    ensures !TryAllocate(slots, free, c).2
  {
    NoRoomAll(slots, free, c.isTask, c.demands, i, x);
  }

  /** Every amount of the demand is on a capacity of its type with at least its architecture. */
  predicate OnItsType(slots: seq<Slot>, d: Demand) {
    forall x | 0 <= x < |d.location| ::
      d.location[x].Some? && d.location[x].value < |slots|
      && slots[d.location[x].value].kind == d.kind && d.arch <= slots[d.location[x].value].arch
  }

  lemma {:induction false} SuccessAll(slots: seq<Slot>, free: seq<real>, isTask: bool, ds: seq<Demand>, i: nat)
    requires |free| == |slots| && AllWellFormed(ds) && i < |ds| && AllocAll(slots, free, isTask, ds).2
    ensures var e := AllocAll(slots, free, isTask, ds).1[i];
      && e == ds[i].(location := e.location)
      && (if ds[i].kind == Memory || ds[i].kind == Storage || !isTask then OnItsType(slots, e) else e == ds[i])
    decreases |ds|
  {
    var d := ds[0];
    var (p, left) := Fill(slots, free, d.kind, d.arch, d.amounts, 0);
    if i == 0 {
      FillSound(slots, free, d.kind, d.arch, d.amounts, 0);
    } else {
      var f := if Reserved(isTask, d.kind) then left else free;
      SuccessAll(slots, f, isTask, ds[1..], i - 1);
      assert AllocAll(slots, free, isTask, ds).1[i] == AllocAll(slots, f, isTask, ds[1..]).1[i - 1];
    }
  }

  /** What a list of demands holds of capacity k, of whatever type they are. */
  function HeldInAll(ds: seq<Demand>, k: nat): real
    requires AllWellFormed(ds)
  {
    if ds == [] then 0.0 else HeldAt(ds[0].amounts, ds[0].location, k) + HeldInAll(ds[1..], k)
  }

  predicate Vacant(d: Demand) {
    forall x | 0 <= x < |d.location| :: d.location[x] == None
  }

  lemma {:induction false} TakenAll(slots: seq<Slot>, free: seq<real>, isTask: bool, ds: seq<Demand>, k: nat)
    requires |free| == |slots| && AllWellFormed(ds) && k < |free| && AllocAll(slots, free, isTask, ds).2
    requires forall d :: d in ds ==> Vacant(d)
    ensures var (f, es, _) := AllocAll(slots, free, isTask, ds);
      && f[k] + HeldInAll(es, k) == free[k]
      && (isTask && (slots[k].kind == Computing || slots[k].kind == Networking) ==> f[k] == free[k])
    decreases |ds|
  {
    if ds != [] {
      var d := ds[0];
      assert d in ds;
      if Reserved(isTask, d.kind) {
        var (p, left) := Fill(slots, free, d.kind, d.arch, d.amounts, 0);
        FillSound(slots, free, d.kind, d.arch, d.amounts, 0);
        FillTakes(slots, free, d, k);
        HeldAtLocated(d.amounts, Located(d, p).location, p, k);
        TakenAll(slots, left, isTask, ds[1..], k);
      } else {
        HeldAtCleared(d.amounts, d.location, k);
        TakenAll(slots, free, isTask, ds[1..], k);
      }
    }
  }

  /**
   After success, written out for each type: memory and storage of a task, and everything of a VM or a
   migration, is where it should be; computing and networking of a task is as before and takes nothing;
   and each capacity has lost exactly what now sits on it.
   */
  lemma SuccessMeans(slots: seq<Slot>, free: seq<real>, c: Consumer)
    requires |free| == |slots| && AllWellFormed(c.demands) && (forall d :: d in c.demands ==> Vacant(d))
    requires TryAllocate(slots, free, c).2
    ensures var (f, c1, _) := TryAllocate(slots, free, c);
      && c1.isTask == c.isTask && |c1.demands| == |c.demands| && AllWellFormed(c1.demands)
      && (forall i | 0 <= i < |c.demands| ::
            var d, e := c.demands[i], c1.demands[i];
            && e == d.(location := e.location)
            && (d.kind == Memory || d.kind == Storage || !c.isTask ==> OnItsType(slots, e))
            && (c.isTask && (d.kind == Computing || d.kind == Networking) ==> e == d))
      && (forall k | 0 <= k < |slots| :: f[k] + HeldInAll(c1.demands, k) == free[k])
      && (forall k | 0 <= k < |slots| && c.isTask && (slots[k].kind == Computing || slots[k].kind == Networking) ::
            f[k] == free[k])
  {
    forall i | 0 <= i < |c.demands| {
      SuccessAll(slots, free, c.isTask, c.demands, i);
    }
    forall k | 0 <= k < |slots| {
      TakenAll(slots, free, c.isTask, c.demands, k);
    }
  }

  /**
   A single amount fits exactly if some capacity of its type, with at least its architecture, has that much
   free; computing and networking of a task always fit.
   */
  lemma OneFits(slots: seq<Slot>, free: seq<real>, isTask: bool, d: Demand)
    requires |free| == |slots| && WellFormed(d) && |d.amounts| == 1
    ensures TryAllocate(slots, free, Consumer(isTask, [d])).2 <==>
      || (isTask && (d.kind == Computing || d.kind == Networking))
      || exists k | 0 <= k < |slots| :: slots[k].kind == d.kind && d.arch <= slots[k].arch && d.amounts[0] <= free[k]
  {
    var c := Consumer(isTask, [d]);
    OneScan(slots, free, isTask, d);
    hide TryAllocate;
    if k :| 0 <= k < |slots| && slots[k].kind == d.kind && d.arch <= slots[k].arch && d.amounts[0] <= free[k] {
      OneLoad(d.amounts, k);
      assert Feasible(slots, free, d.kind, d.arch, d.amounts, 0, [k]);
      GreedyStaysAhead(slots, free, d.kind, d.arch, d.amounts, 0, [k]);
    } else if d.kind == Memory || d.kind == Storage || !isTask {
      assert c.demands[0] == d;
      NoRoomFails(slots, free, c, 0, 0);
    }
  }

  lemma OneScan(slots: seq<Slot>, free: seq<real>, isTask: bool, d: Demand)
    requires |free| == |slots| && WellFormed(d)
    ensures TryAllocate(slots, free, Consumer(isTask, [d])).2 <==>
      !Reserved(isTask, d.kind) || |Fill(slots, free, d.kind, d.arch, d.amounts, 0).0| == |d.amounts|
  {
    var ds := [d];
    var rest := ds[1..];
    assert ds[0] == d && |rest| == 0;
    NothingDemanded(slots, free, isTask, rest);
    NothingDemanded(slots, Fill(slots, free, d.kind, d.arch, d.amounts, 0).1, isTask, rest);
    hide Fill;
    assert AllocAll(slots, free, isTask, ds).2 <==>
      !Reserved(isTask, d.kind) || |Fill(slots, free, d.kind, d.arch, d.amounts, 0).0| == |d.amounts|;
    assert TryAllocate(slots, free, Consumer(isTask, ds)).2 == AllocAll(slots, free, isTask, ds).2;
  }

  lemma NothingDemanded(slots: seq<Slot>, free: seq<real>, isTask: bool, ds: seq<Demand>)
    requires |free| == |slots| && ds == []
    ensures AllocAll(slots, free, isTask, ds) == (free, [], true)
  {}

  lemma OneLoad(req: seq<real>, k: nat)
    requires |req| == 1
    ensures Load(req, [k], k) == req[0]
  {
    assert Load(req[1..], [k][1..], k) == 0.0;
  }
}
