/** Cores and reservations of a provider together: who has something reserved, and who has not. */
module Bookings {
  import opened Common
  import opened Scheduling
  import opened Allocation
  import opened Reservations
  import opened Probing
  import opened Surveys
  import opened Holdings

  // ---------- coherence ----------

  /** Nothing is reserved for the consumer: no amount has a location. */
  predicate HoldsNone(c: Consumer) {
    forall d :: d in c.demands ==> Vacant(d)
  }

  /** Whatever memory and storage the consumer demands is reserved, and nothing else. */
  predicate HoldsAll(slots: seq<Slot>, c: Consumer) {
    forall d :: d in c.demands ==> if d.kind == Memory || d.kind == Storage then OnItsType(slots, d) else Vacant(d)
  }

  /**
   The books agree with the cores: everything is reserved for the consumer of a task that holds its
   reservation, and nothing for that of any other task.
   */
  predicate Agree(holding: set<nat>, books: Books, owners: seq<Option<nat>>)
    requires |owners| == |books.consumers|
  {
    forall k | 0 <= k < |owners| && owners[k].Some? ::
      && books.consumers[k].isTask
      && if owners[k].value in holding then HoldsAll(books.slots, books.consumers[k]) else HoldsNone(books.consumers[k])
  }

  /** No task is two consumers. */
  predicate Single(owners: seq<Option<nat>>) {
    forall j, k | 0 <= j < k < |owners| && owners[j].Some? :: owners[j] != owners[k]
  }

  predicate Coherent(s: Site) {
    SiteOk(s) && Agree(s.node.holding, s.books, s.owners)
  }

  lemma VacantCleared(d: Demand)
    requires Vacant(d)
    ensures Cleared(d) == d
  {
    assert Cleared(d).location == d.location;
  }

  /** After a release nothing is reserved. */
  lemma ReturnedNone(slots: seq<Slot>, c: Consumer)
    requires c.isTask && (HoldsAll(slots, c) || HoldsNone(c))
    ensures HoldsNone(c.(demands := ClearedAll(c.isTask, c.demands)))
  {
    var ds := ClearedAll(c.isTask, c.demands);
    forall d | d in ds
      ensures Vacant(d)
    {
      var i :| 0 <= i < |ds| && ds[i] == d;
      assert c.demands[i] in c.demands;
    }
  }

  /** Returning what the tasks held that have ended keeps the books in agreement. */
  lemma SettleAgrees(b: Books, owners: seq<Option<nat>>, holding: set<nat>, left: set<nat>)
    requires Balanced(b) && |owners| == |b.consumers| && left <= holding && Agree(holding, b, owners)
    ensures var r := Settle(b, owners, holding - left, 0);
      && Balanced(r) && Agree(left, r, owners)
      && (forall k | 0 <= k < |owners| ::
            owners[k].None? || owners[k].value in left || HoldsNone(b.consumers[k]) ==>
              r.consumers[k] == b.consumers[k])
  {
    var gone := holding - left;
    var r := Settle(b, owners, gone, 0);
    Settled(b, owners, gone, 0);
    hide Settle, Balanced, HoldsAll, HoldsNone;
    forall k | 0 <= k < |owners|
      ensures owners[k].Some? ==> r.consumers[k].isTask
      ensures owners[k].Some? && owners[k].value in left ==> HoldsAll(r.slots, r.consumers[k])
      ensures owners[k].Some? && owners[k].value !in left ==> HoldsNone(r.consumers[k])
      ensures owners[k].None? || owners[k].value in left || HoldsNone(b.consumers[k]) ==>
        r.consumers[k] == b.consumers[k]
    {
      var c := b.consumers[k];
      assert Surveys.Kept(c, r.consumers[k], owners[k], gone);
      if owners[k].Some? && owners[k].value in gone {
        ReturnedNone(b.slots, c);
        if HoldsNone(c) {
          NoneCleared(c);
        }
      }
    }
  }

  lemma NoneCleared(c: Consumer)
    requires HoldsNone(c)
    ensures c.(demands := ClearedAll(c.isTask, c.demands)) == c
  {
    forall i | 0 <= i < |c.demands|
      ensures ClearedAll(c.isTask, c.demands)[i] == c.demands[i]
    {
      assert c.demands[i] in c.demands;
      VacantCleared(c.demands[i]);
    }
    assert ClearedAll(c.isTask, c.demands) == c.demands;
  }

  // ---------- testing ----------

  /**
   The provider afterwards: nothing is reserved any more for a task that no longer holds its reservation,
   and for all others, VMs and migrations too, everything is as before.
   */
  predicate Rebooked(s: Site, r: Site) {
    && r.owners == s.owners && |r.books.consumers| == |s.books.consumers| == |s.owners|
    && r.node.holding <= s.node.holding
    && (forall k | 0 <= k < |s.owners| ::
          if s.owners[k].Some? && s.owners[k].value !in r.node.holding then HoldsNone(r.books.consumers[k])
          else r.books.consumers[k] == s.books.consumers[k])
  }

  /** A test keeps the books in agreement: reserved is exactly what the tasks demand that are still in progress. */
  lemma TestKeepsBookings(s: Site, t: Task, c: Consumer, now: real)
    requires Coherent(s) && Balanced(s.books) && Asks(c) && now < t.deadline
    ensures var r := Test(s, t, c, now).0; Coherent(r) && Balanced(r.books) && Rebooked(s, r)
  {
    TestIs(s, t, c, now);
    var fits := TryAllocate(s.books.slots, s.books.free, c).2;
    ProbeReturns(s.node, t, now, fits);
    hide Test, Probe, Settle, Balanced, TryAllocate, Asks;
    SettleAgrees(s.books, s.owners, s.node.holding, Probe(s.node, t, now, fits).0.holding);
  }

  /** So does testing a list of providers, for each of them. */
  lemma SurveyKeepsBookings(sites: seq<Site>, t: Task, c: Consumer, now: real)
    requires forall i | 0 <= i < |sites| :: SiteOk(sites[i]) && Coherent(sites[i]) && Balanced(sites[i].books)
    requires Asks(c) && now < t.deadline
    ensures var rs := TestAll(sites, t, c, now).0;
      forall i | 0 <= i < |sites| :: Coherent(rs[i]) && Balanced(rs[i].books) && Rebooked(sites[i], rs[i])
  {
    hide Test, TestAll, Agree, Balanced, Rebooked, Asks;
    forall i | 0 <= i < |sites|
      ensures var r := TestAll(sites, t, c, now).0[i]; Coherent(r) && Balanced(r.books) && Rebooked(sites[i], r)
    {
      TestedAt(sites, t, c, now, i);
      TestKeepsBookings(sites[i], t, c, now);
    }
  }
}
