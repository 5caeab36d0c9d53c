/** What a task that has been placed has in flight: all its loads, each of them once. */
module InFlight {
  import opened Scheduling

  /** The allocations of task t on a list. */
  function OfTask(s: seq<Alloc>, t: nat): multiset<Alloc> {
    if s == [] then multiset{} else (if s[0].task == t then multiset{s[0]} else multiset{}) + OfTask(s[1..], t)
  }

  /** The allocations of task t in flight, on all cores together. */
  function InFly(cores: seq<Core>, t: nat): multiset<Alloc> {
    if cores == [] then multiset{} else OfTask(cores[0].inFly, t) + InFly(cores[1..], t)
  }

  /** The allocations of loads i, i + 1, ... of task t. */
  function Loads(t: Task, i: nat): multiset<Alloc>
    requires i <= |t.loads|
    decreases |t.loads| - i
  {
    if i == |t.loads| then multiset{} else
    multiset{Alloc(t.id, i, t.deadline, t.loads[i], 0.0, 0.0)} + Loads(t, i + 1)
  }

  /** Task t does not run, and what it has in flight is in time. */
  predicate Placeable(n: Node, t: nat, now: real) {
    forall k | 0 <= k < |n.cores| ::
      && (forall a :: a in n.cores[k].active ==> a.task != t)
      && (forall a :: a in n.cores[k].inFly && a.task == t ==> now < a.deadline)
  }

  // ---------- lists ----------

  lemma {:induction false} DropKeeps(s: seq<Alloc>, out: set<nat>, t: nat)
    requires t !in out
    ensures OfTask(Drop(s, out), t) == OfTask(s, t)
  {
    if s != [] {
      DropKeeps(s[1..], out, t);
      var head := if s[0].task in out then [] else [s[0]];
      if head == [] {
        assert head + Drop(s[1..], out) == Drop(s[1..], out);
      } else {
        assert (head + Drop(s[1..], out))[1..] == Drop(s[1..], out);
      }
    }
  }

  lemma {:induction false} OneMore(s: seq<Alloc>, a: Alloc)
    ensures OfTask(s + [a], a.task) == OfTask(s, a.task) + multiset{a}
  {
    if s == [] {
      assert s + [a] == [a];
    } else {
      assert (s + [a])[1..] == s[1..] + [a];
      OneMore(s[1..], a);
    }
  }

  lemma {:induction false} NoneOf(s: seq<Alloc>, t: nat)
    requires forall a :: a in s ==> a.task != t
    ensures OfTask(s, t) == multiset{}
  {
    if s != [] {
      assert s[0] in s;
      NoneOf(s[1..], t);
    }
  }

  // ---------- cores ----------

  /** The lists hold the same of task t. */
  lemma {:induction false} SameInFly(cores: seq<Core>, later: seq<Core>, t: nat)
    requires |later| == |cores|
    requires forall k | 0 <= k < |cores| :: OfTask(later[k].inFly, t) == OfTask(cores[k].inFly, t)
    ensures InFly(later, t) == InFly(cores, t)
  {
    if cores != [] {
      SameInFly(cores[1..], later[1..], t);
    }
  }

  lemma {:induction false} AbsentNone(cores: seq<Core>, t: nat)
    requires Absent(cores, t)
    ensures InFly(cores, t) == multiset{}
  {
    if cores != [] {
      assert cores[0] in cores;
      NoneOf(cores[0].inFly, t);
      AbsentNone(cores[1..], t);
    }
  }

  lemma {:induction false} AssignAdds(cores: seq<Core>, k: nat, a: Alloc)
    requires k < |cores|
    ensures InFly(cores[k := cores[k].(inFly := cores[k].inFly + [a])], a.task) == InFly(cores, a.task) + multiset{a}
  {
    var later := cores[k := cores[k].(inFly := cores[k].inFly + [a])];
    if k == 0 {
      OneMore(cores[0].inFly, a);
      assert later[1..] == cores[1..];
    } else {
      AssignAdds(cores[1..], k - 1, a);
      assert later[1..] == cores[1..][k - 1 := cores[k].(inFly := cores[k].inFly + [a])];
    }
  }

  /** Tasks other than t fail; t keeps what it has in flight. */
  lemma FailKeeps(n: Node, out: set<nat>, t: nat, now: real)
    requires Placeable(n, t, now) && t !in out
    ensures Placeable(FailAll(n, out), t, now) && InFly(FailAll(n, out).cores, t) == InFly(n.cores, t)
  {
    var r := FailAll(n, out);
    forall k | 0 <= k < |n.cores|
      ensures OfTask(r.cores[k].inFly, t) == OfTask(n.cores[k].inFly, t)
    {
      DropKeeps(n.cores[k].inFly, out, t);
    }
    SameInFly(n.cores, r.cores, t);
  }

  /** The active list of core k is replaced by one without task t. */
  lemma ActiveKeeps(n: Node, k: nat, s: seq<Alloc>, t: nat, now: real)
    requires k < |n.cores| && Placeable(n, t, now) && forall a :: a in s ==> a.task != t
    ensures Placeable(WithActive(n, k, s), t, now) && InFly(WithActive(n, k, s).cores, t) == InFly(n.cores, t)
  {
    SameInFly(n.cores, WithActive(n, k, s).cores, t);
  }

  lemma PurgeKeeps(n: Node, k: nat, t: nat, now: real)
    requires k < |n.cores| && Placeable(n, t, now)
    ensures Placeable(Purge(n, k, now), t, now) && InFly(Purge(n, k, now).cores, t) == InFly(n.cores, t)
  {
    var out := Expired(n.cores[k].active, now);
    FailKeeps(n, out, t, now);
    var n1 := FailAll(n, out);
    ActiveKeeps(n1, k, Unfinished(n1.cores[k].active), t, now);
  }

  /** getMostUrgentTaskRate takes nothing of a task that is being placed. */
  lemma SweptKeeps(n: Node, k: nat, t: nat, now: real)
    requires k < |n.cores| && Placeable(n, t, now)
    ensures Placeable(Swept(n, k, now), t, now) && InFly(Swept(n, k, now).cores, t) == InFly(n.cores, t)
  {
    var s := n.cores[k].active;
    var n1 := WithActive(n, k, UpdateAll(s, now));
    forall a | a in UpdateAll(s, now)
      ensures a.task != t
    {
      var i :| 0 <= i < |s| && a == Updated(s[i], now);
      assert s[i] in s;
    }
    ActiveKeeps(n, k, UpdateAll(s, now), t, now);
    PurgeKeeps(n1, k, t, now);
    SweptIs(n, k, now);
    var n2 := Purge(n1, k, now);
    hide Purge, Swept, InFly;
    FailKeeps(n2, Overdue(n2.cores[k].inFly, now), t, now);
  }

  // ---------- placing ----------

  lemma {:induction false} PlaceFromAdds(n: Node, a: Alloc, now: real, k: nat)
    requires k <= |n.cores| && now < a.deadline && Placeable(n, a.task, now)
    ensures var (r, ok) := PlaceFrom(n, a, now, k);
      && Placeable(r, a.task, now)
      && InFly(r.cores, a.task) == if ok then InFly(n.cores, a.task) + multiset{a} else InFly(n.cores, a.task)
    decreases |n.cores| - k
  {
    hide Swept, Admits, PlaceFrom, InFly;
    PlaceFromIs(n, a, now, k);
    if k < |n.cores| {
      var n1 := Swept(n, k, now);
      SweptKeeps(n, k, a.task, now);
      if Admits(n1.cores[k], a, now) {
        AssignAdds(n1.cores, k, a);
      } else {
        PlaceFromAdds(n1, a, now, k + 1);
      }
    }
  }

  lemma {:induction false} PlaceAllocsAdds(n: Node, t: Task, now: real, i: nat)
    requires i <= |t.loads| && now < t.deadline && Placeable(n, t.id, now)
    ensures var (r, ok) := PlaceAllocs(n, t, now, i);
      ok ==> Placeable(r, t.id, now) && InFly(r.cores, t.id) == InFly(n.cores, t.id) + Loads(t, i)
    decreases |t.loads| - i
  {
    hide PlaceFrom, PlaceAllocs, InFly, Placeable;
    if i == |t.loads| {
      PlaceAllocsEnd(n, t, now);
    } else {
      PlaceAllocsNext(n, t, now, i);
      PlaceFromAdds(n, Fresh(t, i), now, 0);
      var (n1, ok) := PlaceFrom(n, Fresh(t, i), now, 0);
      if ok {
        PlaceAllocsAdds(n1, t, now, i + 1);
      }
    }
  }

  lemma {:induction false} LoadsEach(t: Task, i: nat, a: Alloc)
    requires i <= |t.loads|
    ensures Loads(t, i)[a] ==
      if i <= a.slot < |t.loads| && a == Alloc(t.id, a.slot, t.deadline, t.loads[a.slot], 0.0, 0.0) then 1 else 0
    decreases |t.loads| - i
  {
    if i < |t.loads| {
      LoadsEach(t, i + 1, a);
    }
  }

  /**
   A task that has been placed runs nowhere yet, and has in flight exactly one allocation for each of
   its loads: with the work of that load, the deadline of the task, and no rate.
   */
  lemma PlacedInFull(n: Node, t: Task, now: real, fits: bool)
    requires now < t.deadline && Absent(n.cores, t.id)
    ensures var (r, ok) := TrySchedule(n, t, now, fits);
      ok ==>
        && (forall c, a :: c in r.cores && a in c.active ==> a.task != t.id)
        && (forall a :: InFly(r.cores, t.id)[a] ==
              if a.slot < |t.loads| && a == Alloc(t.id, a.slot, t.deadline, t.loads[a.slot], 0.0, 0.0) then 1 else 0)
  {
    assert Placeable(n, t.id, now) by {
      assert forall k | 0 <= k < |n.cores| :: n.cores[k] in n.cores;
    }
    AbsentNone(n.cores, t.id);
    hide PlaceAllocs, InFly;
    if fits {
      PlaceAllocsAdds(n, t, now, 0);
      forall a
        ensures Loads(t, 0)[a] ==
          if a.slot < |t.loads| && a == Alloc(t.id, a.slot, t.deadline, t.loads[a.slot], 0.0, 0.0) then 1 else 0
      {
        LoadsEach(t, 0, a);
      }
    }
  }
}
